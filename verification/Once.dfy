/** The keyed single-flight cache: over every interleaving of concurrent `Do` calls, an action
    runs at most once per entry, and entries for one key are spaced out in time. */
module Once {
  import opened Wrappers

  type CallKey = string

  /** What an action gives: a value, or an error. */
  datatype Result = Ok(value: int) | Err

  datatype Progress = Fresh | Running(runner: nat) | Done(result: Result)

  datatype Entry = Entry(
    key: CallKey,
    made: Time,                 // the clock when it was made; the success timeout reads it again
    errorTimeout: Time,
    successTimeout: Time,
    progress: Progress,
    failed: bool,               // the recorded error
    runs: nat)                  // how often its action was started

  /** A call of `Do` that has found its entry. */
  datatype Call = Call(
    key: CallKey, entry: nat,
    reused: bool,               // the entry was there already
    sawError: bool,             // with an error recorded
    first: Time, second: Time)  // the two clock readings of the time-out test

  datatype Limits = Limits(success: nat, error: nat)

  /** All entries ever made, the table of current ones, and the calls under way. */
  datatype Cache = Cache(
    clock: Time,
    entries: seq<Entry>,
    onces: map<CallKey, nat>,
    calls: map<nat, Call>)

  function Empty(clock: Time): Cache {
    Cache(clock, [], map[], map[])
  }

  predicate TimedOut(e: Entry, first: Time, second: Time) {
    (first >= e.errorTimeout && e.failed) || (second >= e.successTimeout && !e.failed)
  }

  datatype Step =
    | Lookup(call: nat, key: CallKey, t1: Time, t2: Time, t3: Time, t4: Time) // the clock, each time it is read
    | Start(call: nat)                      // the first caller runs the action
    | Finish(call: nat, result: Result)
    | SetError(call: nat)                   // a caller that got an error records it
    | Return(call: nat)                     // the clean-up deletes nothing: it uses another key

  /** The call found its entry, so the entry exists. */
  predicate Active(c: Cache, call: nat) {
    call in c.calls && c.calls[call].entry < |c.entries|
  }

  function Of(c: Cache, call: nat): Entry
    requires Active(c, call)
  {
    c.entries[c.calls[call].entry]
  }

  predicate Enabled(c: Cache, s: Step) {
    match s
    case Lookup(call, key, t1, t2, t3, t4) => call !in c.calls && c.clock <= t1 <= t2 <= t3 <= t4
    case Start(call) => Active(c, call) && Of(c, call).progress.Fresh?
    case Finish(call, _) => Active(c, call) && Of(c, call).progress == Running(call)
    case SetError(call) => Active(c, call) && Of(c, call).progress == Done(Err)
    case Return(call) => Active(c, call) && Of(c, call).progress.Done? && (Of(c, call).progress.result.Err? ==> Of(c, call).failed)
  }

  predicate Reuses(c: Cache, key: CallKey, t1: Time, t2: Time) {
    key in c.onces && c.onces[key] < |c.entries| && !TimedOut(c.entries[c.onces[key]], t1, t2)
  }

  function Change(c: Cache, call: nat, e: Entry): Cache
    requires Active(c, call)
  {
    c.(entries := c.entries[c.calls[call].entry := e])
  }

  /** What the calls do to the entry they found. */
  function Moved(e: Entry, s: Step): Entry {
    match s
    case Start(call) => e.(progress := Running(call), runs := e.runs + 1)
    case Finish(_, r) => e.(progress := Done(r))
    case SetError(_) => e.(failed := true)
    case _ => e
  }

  function Act(lim: Limits, c: Cache, s: Step): Cache
    requires Enabled(c, s)
  {
    match s
    case Lookup(call, key, t1, t2, t3, t4) =>
      if Reuses(c, key, t1, t2)
      then c.(clock := t4, calls := c.calls[call := Call(key, c.onces[key], true, c.entries[c.onces[key]].failed, t1, t2)])
      else
        var e := Entry(key, t3, t3 + lim.error, t4 + lim.success, Fresh, false, 0);
        Cache(t4, c.entries + [e], c.onces[key := |c.entries|], c.calls[call := Call(key, |c.entries|, false, false, t1, t2)])
    case Return(call) => c.(calls := c.calls - {call})
    case _ => Change(c, s.call, Moved(Of(c, s.call), s))
  }

  // ----- what every step keeps -----

  ghost predicate EntryOk(lim: Limits, e: Entry, clock: Time) {
    && e.made <= clock
    && e.errorTimeout == e.made + lim.error && e.successTimeout >= e.made + lim.success
    && e.runs == (if e.progress.Fresh? then 0 else 1)
    && (e.failed ==> e.progress == Done(Err))
  }

  /** The older of two entries for a key ran out before the newer was made. */
  ghost predicate Spaced(lim: Limits, older: Entry, newer: Entry) {
    && (newer.made >= older.made + lim.error || newer.made >= older.made + lim.success)
    && (older.progress != Done(Err) ==> newer.made >= older.made + lim.success)
  }

  ghost predicate CallOk(c: Cache, call: nat)
    requires call in c.calls
  {
    && c.calls[call].entry < |c.entries|
    && Of(c, call).key == c.calls[call].key
    && (c.calls[call].reused ==>
          if c.calls[call].sawError
          then c.calls[call].first < Of(c, call).errorTimeout && Of(c, call).progress == Done(Err)
          else c.calls[call].second < Of(c, call).successTimeout)
  }

  ghost predicate EntriesOk(lim: Limits, c: Cache) {
    forall i :: 0 <= i < |c.entries| ==> EntryOk(lim, c.entries[i], c.clock)
  }

  ghost predicate SpacedOk(lim: Limits, c: Cache) {
    forall i, j :: 0 <= i < j < |c.entries| && c.entries[i].key == c.entries[j].key ==> Spaced(lim, c.entries[i], c.entries[j])
  }

  /** The table points at the newest entry of each key. */
  ghost predicate TableOk(c: Cache) {
    && (forall k :: k in c.onces ==> c.onces[k] < |c.entries| && c.entries[c.onces[k]].key == k)
    && (forall i :: 0 <= i < |c.entries| ==> c.entries[i].key in c.onces && i <= c.onces[c.entries[i].key])
  }

  ghost predicate CallsOk(c: Cache) {
    forall call :: call in c.calls ==> CallOk(c, call)
  }

  ghost predicate CacheOk(lim: Limits, c: Cache) {
    EntriesOk(lim, c) && SpacedOk(lim, c) && TableOk(c) && CallsOk(c)
  }

  /** How an entry may change after it is made. */
  ghost predicate Later(before: Entry, after: Entry) {
    && after.key == before.key && after.made == before.made
    && after.errorTimeout == before.errorTimeout && after.successTimeout == before.successTimeout
    && (before.progress.Done? ==> after.progress == before.progress)
    && (before.failed ==> after.failed)
  }

  /** An entry that goes on keeps everything that refers to it in order. */
  lemma ChangeKeeps(lim: Limits, c: Cache, call: nat, e: Entry)
    requires CacheOk(lim, c) && call in c.calls && EntryOk(lim, e, c.clock) && Later(c.entries[c.calls[call].entry], e)
    ensures CacheOk(lim, Change(c, call, e))
  {
    hide EntryOk;
  }

  lemma NewEntryIsSpaced(lim: Limits, c: Cache, key: CallKey, t1: Time, t2: Time, e: Entry, i: nat)
    requires CacheOk(lim, c) && !Reuses(c, key, t1, t2) && e.key == key && e.made >= t2 >= t1 >= c.clock
    requires i < |c.entries| && c.entries[i].key == key
    ensures Spaced(lim, c.entries[i], e)
  {
    var last := c.onces[key];
    assert EntryOk(lim, c.entries[last], c.clock) && TimedOut(c.entries[last], t1, t2);
    assert Spaced(lim, c.entries[last], e);
    if i < last {
      assert Spaced(lim, c.entries[i], c.entries[last]);
    }
  }

  lemma ReuseKeeps(lim: Limits, c: Cache, s: Step)
    requires CacheOk(lim, c) && s.Lookup? && Enabled(c, s) && Reuses(c, s.key, s.t1, s.t2)
    ensures CacheOk(lim, Act(lim, c, s))
  {
    hide Spaced;
    assert EntryOk(lim, c.entries[c.onces[s.key]], c.clock);
  }

  lemma MakeSpaces(lim: Limits, c: Cache, s: Step)
    requires CacheOk(lim, c) && s.Lookup? && Enabled(c, s) && !Reuses(c, s.key, s.t1, s.t2)
    ensures SpacedOk(lim, Act(lim, c, s))
  {
    hide Spaced, EntryOk, CallOk, Reuses;
    var d := Act(lim, c, s);
    forall i | 0 <= i < |c.entries| && c.entries[i].key == s.key
      ensures Spaced(lim, c.entries[i], d.entries[|c.entries|])
    {
      NewEntryIsSpaced(lim, c, s.key, s.t1, s.t2, d.entries[|c.entries|], i);
    }
  }

  lemma MakeKeeps(lim: Limits, c: Cache, s: Step)
    requires CacheOk(lim, c) && s.Lookup? && Enabled(c, s) && !Reuses(c, s.key, s.t1, s.t2)
    ensures CacheOk(lim, Act(lim, c, s))
  {
    hide SpacedOk, Reuses;
    MakeSpaces(lim, c, s);
  }

  lemma MovedIsOk(lim: Limits, c: Cache, s: Step)
    requires CacheOk(lim, c) && Enabled(c, s) && !s.Lookup?
    ensures EntryOk(lim, Moved(Of(c, s.call), s), c.clock) && Later(Of(c, s.call), Moved(Of(c, s.call), s))
  {
    assert EntryOk(lim, Of(c, s.call), c.clock);
  }

  lemma ActKeeps(lim: Limits, c: Cache, s: Step)
    requires CacheOk(lim, c) && Enabled(c, s)
    ensures CacheOk(lim, Act(lim, c, s))
  {
    hide Spaced, Reuses, EntryOk, Moved;
    if s.Lookup? {
      if Reuses(c, s.key, s.t1, s.t2) { ReuseKeeps(lim, c, s); } else { MakeKeeps(lim, c, s); }
    } else if !s.Return? {
      MovedIsOk(lim, c, s);
      ChangeKeeps(lim, c, s.call, Moved(Of(c, s.call), s));
    }
  }

  /** Whoever runs an entry's action is still in its call. */
  ghost predicate RunnersOk(c: Cache) {
    forall i :: 0 <= i < |c.entries| && c.entries[i].progress.Running? ==>
      c.entries[i].progress.runner in c.calls && c.calls[c.entries[i].progress.runner].entry == i
  }

  lemma ActKeepsRunners(lim: Limits, c: Cache, s: Step)
    requires RunnersOk(c) && Enabled(c, s)
    ensures RunnersOk(Act(lim, c, s))
  {
    hide Reuses;
  }

  /** Exactly when a lookup makes a new entry: there is none, or the newest one has a recorded
      error and its error timeout has come, or has none and its success timeout has come. */
  lemma LookupRenewsIff(lim: Limits, c: Cache, s: Step)
    requires CacheOk(lim, c) && s.Lookup? && Enabled(c, s)
    ensures s.key in c.onces ==> c.onces[s.key] < |c.entries|
    ensures var d := Act(lim, c, s);
            var renewed := s.key !in c.onces
                           || (var e := c.entries[c.onces[s.key]];
                               if e.failed then s.t1 >= e.errorTimeout else s.t2 >= e.successTimeout);
            && s.call in d.calls && s.key in d.onces && d.onces[s.key] == d.calls[s.call].entry
            && (renewed ==>
                  && d.calls[s.call].entry == |c.entries|
                  && d.entries == c.entries + [Entry(s.key, s.t3, s.t3 + lim.error, s.t4 + lim.success, Fresh, false, 0)])
            && (!renewed ==> d.entries == c.entries && d.calls[s.call].entry == c.onces[s.key])
  {
    hide EntriesOk, SpacedOk, CallsOk;
  }

  // ----- whole runs -----

  ghost predicate IsRun(lim: Limits, c: Cache, es: seq<Step>)
    decreases |es|
  {
    es == [] || (Enabled(c, es[0]) && IsRun(lim, Act(lim, c, es[0]), es[1..]))
  }

  function RunCache(lim: Limits, c: Cache, es: seq<Step>): Cache
    requires IsRun(lim, c, es)
    decreases |es|
  {
    if es == [] then c else RunCache(lim, Act(lim, c, es[0]), es[1..])
  }

  /** Every entry stays, and a result once there never changes. */
  ghost predicate Grows(c: Cache, d: Cache) {
    |c.entries| <= |d.entries| && forall i :: 0 <= i < |c.entries| ==> Later(c.entries[i], d.entries[i])
  }

  lemma {:induction false} RunKeeps(lim: Limits, c: Cache, es: seq<Step>)
    requires CacheOk(lim, c) && RunnersOk(c) && IsRun(lim, c, es)
    ensures CacheOk(lim, RunCache(lim, c, es)) && RunnersOk(RunCache(lim, c, es)) && Grows(c, RunCache(lim, c, es))
    decreases |es|
  {
    hide CacheOk, RunnersOk;
    if es != [] {
      var d := Act(lim, c, es[0]);
      assert Grows(c, d) by { hide IsRun, RunCache; }
      ActKeeps(lim, c, es[0]);
      ActKeepsRunners(lim, c, es[0]);
      RunKeeps(lim, d, es[1..]);
    }
  }

  /** Every entry of every reachable cache, the newest included, has had its action started at
      most once; and it was started exactly if somebody runs it or has its result. */
  lemma RunsAtMostOnce(lim: Limits, clock: Time, es: seq<Step>, i: nat)
    requires IsRun(lim, Empty(clock), es)
    requires i < |RunCache(lim, Empty(clock), es).entries|
    ensures var e := RunCache(lim, Empty(clock), es).entries[i];
            e.runs <= 1 && (e.runs == 1 <==> e.progress.Running? || e.progress.Done?)
  {
    RunKeeps(lim, Empty(clock), es);
    var c := RunCache(lim, Empty(clock), es);
    assert EntryOk(lim, c.entries[i], c.clock);
  }

  /** In every reachable cache entries for one key are at least the smaller timeout apart; the
      success timeout apart, unless the older one failed. */
  lemma EntriesAreSpaced(lim: Limits, clock: Time, es: seq<Step>, i: nat, j: nat)
    requires IsRun(lim, Empty(clock), es)
    requires i < j < |RunCache(lim, Empty(clock), es).entries|
    ensures var c := RunCache(lim, Empty(clock), es);
            c.entries[i].key == c.entries[j].key ==>
              && c.entries[j].made - c.entries[i].made >= (if lim.error < lim.success then lim.error else lim.success)
              && (c.entries[i].progress != Done(Err) ==> c.entries[j].made - c.entries[i].made >= lim.success)
  {
    RunKeeps(lim, Empty(clock), es);
    var c := RunCache(lim, Empty(clock), es);
    assert c.entries[i].key == c.entries[j].key ==> Spaced(lim, c.entries[i], c.entries[j]);
  }

  /** A call that returns gets the one result of an action given for its own key.  A success
      it did not cause itself was, when it looked, younger than the success timeout; a recorded
      error it was given, younger than the error timeout.  The result stays with the entry for
      every later call. */
  lemma ResultsAreShared(lim: Limits, clock: Time, es: seq<Step>, call: nat, more: seq<Step>)
    requires IsRun(lim, Empty(clock), es)
    requires var c := RunCache(lim, Empty(clock), es); Enabled(c, Return(call)) && IsRun(lim, c, more)
    ensures var c := RunCache(lim, Empty(clock), es);
            var e := Of(c, call);
            && e.runs == 1 && e.key == c.calls[call].key && e.progress.Done?
            && (c.calls[call].reused && e.progress.result.Ok? ==> c.calls[call].second < e.successTimeout)
            && (c.calls[call].reused && c.calls[call].sawError ==> c.calls[call].first < e.errorTimeout)
            && c.calls[call].entry < |RunCache(lim, c, more).entries|
            && RunCache(lim, c, more).entries[c.calls[call].entry].progress == e.progress
  {
    RunKeeps(lim, Empty(clock), es);
    var c := RunCache(lim, Empty(clock), es);
    assert CallOk(c, call) && EntryOk(lim, Of(c, call), c.clock);
    RunKeeps(lim, c, more);
  }

  // ----- every call can come to an end -----

  lemma OneStep(lim: Limits, c: Cache, s: Step, rest: seq<Step>)
    requires Enabled(c, s) && IsRun(lim, Act(lim, c, s), rest)
    ensures IsRun(lim, c, [s] + rest) && RunCache(lim, c, [s] + rest) == RunCache(lim, Act(lim, c, s), rest)
  {
    hide Enabled, Act;
    assert ([s] + rest)[1..] == rest;
  }

  /** With the action done, the call returns, after recording an error. */
  lemma ReturnsDone(lim: Limits, c: Cache, call: nat) returns (es: seq<Step>)
    requires Active(c, call) && Of(c, call).progress.Done?
    ensures |es| <= 1 && IsRun(lim, c, es) && Enabled(RunCache(lim, c, es), Return(call))
    ensures Of(RunCache(lim, c, es), call) == Of(c, call).(failed := Of(c, call).failed || Of(c, call).progress.result.Err?)
  {
    es := [];
    if Of(c, call).progress.result.Err? && !Of(c, call).failed {
      es := [SetError(call)] + [];
      OneStep(lim, c, SetError(call), []);
    }
  }

  lemma FinishesFor(lim: Limits, c: Cache, call: nat, runner: nat, given: Result) returns (es: seq<Step>)
    requires Active(c, call) && Active(c, runner) && c.calls[call].entry == c.calls[runner].entry
    requires Of(c, call).progress == Running(runner)
    ensures |es| <= 2 && IsRun(lim, c, es) && Enabled(RunCache(lim, c, es), Return(call))
    ensures Of(RunCache(lim, c, es), call) == Of(c, call).(progress := Done(given), failed := Of(c, call).failed || given.Err?)
  {
    var d := Act(lim, c, Finish(runner, given));
    var rest := ReturnsDone(lim, d, call);
    OneStep(lim, c, Finish(runner, given), rest);
    es := [Finish(runner, given)] + rest;
  }

  /** In every reachable cache every call under way can return after at most three steps of
      itself and of the call that runs its action.  It gets what the action gives; an error is
      recorded before it returns. */
  lemma EveryCallReturns(lim: Limits, clock: Time, before: seq<Step>, call: nat, given: Result) returns (es: seq<Step>)
    requires IsRun(lim, Empty(clock), before) && call in RunCache(lim, Empty(clock), before).calls
    ensures var c := RunCache(lim, Empty(clock), before);
            && |es| <= 3 && IsRun(lim, c, es) && Active(c, call)
            && var d := RunCache(lim, c, es);
               && Enabled(d, Return(call))
               && Of(d, call).progress == (if Of(c, call).progress.Done? then Of(c, call).progress else Done(given))
               && (Of(d, call).failed <==> Of(d, call).progress == Done(Err))
               && Act(lim, d, Return(call)) == d.(calls := d.calls - {call})
  {
    RunKeeps(lim, Empty(clock), before);
    var c := RunCache(lim, Empty(clock), before);
    assert CallOk(c, call) && EntryOk(lim, Of(c, call), c.clock);
    match Of(c, call).progress {
      case Done(_) => es := ReturnsDone(lim, c, call);
      case Running(runner) =>
        assert CallOk(c, runner);
        es := FinishesFor(lim, c, call, runner, given);
      case Fresh =>
        var rest := FinishesFor(lim, Act(lim, c, Start(call)), call, call, given);
        OneStep(lim, c, Start(call), rest);
        es := [Start(call)] + rest;
    }
  }

  // ----- the objects, for a call that nothing interrupts -----

  class OnceWithTimeout {
    const errorTimeout: Time
    const successTimeout: Time
    var result: Option<Result>      // what the action gave, once it has run
    var err: bool

    constructor (first: Time, second: Time, lim: Limits)
      ensures errorTimeout == first + lim.error && successTimeout == second + lim.success
      ensures result.None? && !err
    {
      errorTimeout, successTimeout := first + lim.error, second + lim.success;
      result, err := None, false;
    }

    ghost predicate Valid()
      reads this
    {
      err <==> result == Some(Err)
    }

    predicate IsTimedOut(first: Time, second: Time)
      reads this
    {
      (first >= errorTimeout && err) || (second >= successTimeout && !err)
    }

    /** Run the action unless it has run: everyone gets the first result. */
    method Run(action: Result) returns (r: Result)
      modifies this`result
      ensures result == Some(r)
      ensures r == if old(result).Some? then old(result).value else action
    {
      if result.None? { result := Some(action); }
      return result.value;
    }

    method SetError()
      modifies this`err
      ensures err
    {
      err := true;
    }
  }

  class OnceWithKey {
    var onces: map<CallKey, OnceWithTimeout>
    const limits: Limits

    constructor (limits: Limits)
      ensures onces == map[] && this.limits == limits
    {
      onces, this.limits := map[], limits;
    }

    ghost predicate Valid()
      reads this, onces.Values
    {
      && (forall k :: k in onces ==> onces[k].Valid())
      && (forall a, b :: a in onces && b in onces && a != b ==> onces[a] != onces[b])
    }

    /** The remembered result, as long as the entry has not timed out; otherwise the action's.
        Other keys keep their entries and results. */
    method Do(key: CallKey, action: Result, t1: Time, t2: Time, t3: Time, t4: Time) returns (r: Result)
      requires Valid() && t1 <= t2 <= t3 <= t4
      modifies this, onces.Values
      ensures Valid() && key in onces && onces[key].result == Some(r)
      ensures var hit := key in old(onces) && !old(onces[key].IsTimedOut(t1, t2));
              && (if hit then onces == old(onces) else fresh(onces[key]) && onces == old(onces)[key := onces[key]])
              && r == (if hit && old(onces[key].result).Some? then old(onces[key].result).value else action)
      ensures key in old(onces) && old(onces[key].err) && t1 >= old(onces[key].errorTimeout) ==> r == action
      ensures key in old(onces) && !old(onces[key].err) && t2 >= old(onces[key].successTimeout) ==> r == action
      ensures key in old(onces) && old(onces[key].err) && t1 < old(onces[key].errorTimeout) ==> r == Err
      ensures key in old(onces) && !old(onces[key].err) && t2 < old(onces[key].successTimeout) && old(onces[key].result).Some? ==>
                r == old(onces[key].result).value
      ensures onces[key].errorTimeout == (if key in old(onces) && onces[key] == old(onces[key]) then old(onces[key].errorTimeout) else t3 + limits.error)
      ensures onces[key].successTimeout == (if key in old(onces) && onces[key] == old(onces[key]) then old(onces[key].successTimeout) else t4 + limits.success)
      ensures onces[key].err <==> r.Err?
      ensures forall k :: k in old(onces) && k != key ==>
                onces[k].result == old(onces[k].result) && onces[k].err == old(onces[k].err)
    {
      if key !in onces || onces[key].IsTimedOut(t1, t2) {
        var made := new OnceWithTimeout(t3, t4, limits);
        onces := onces[key := made];
      }
      r := onces[key].Run(action);
      if r.Err? { onces[key].SetError(); }
    }
  }
}
