/** The tracker that resolves submitted transactions: the counters agree with the table, and
    old submissions are not starved. */
module CostTracker {
  import opened Wrappers
  import opened Transfers
  import opened Store

  /** What the chain says about a submitted transaction; no fee counts as zero. */
  datatype Resolution = Resolution(success: bool, fee: Option<int>)

  datatype TrackReply = TrackReply(now: Time, chain: Answer<Resolution>, write: Write)

  /** The label of the confirmed-transactions counter: success flag and chain. */
  type Label = (bool, string)

  /** A submission as the query returned it. */
  datatype Task = Task(row: nat, seen: Submission)

  /** The table, the counters, what is resolved in the table although its update reported an
      error, and what is left of the current query's answer. */
  datatype Ledger = Ledger(
    submissions: seq<Submission>,
    confirmed: multiset<Label>, gas: map<string, int>,
    missed: multiset<Label>, missedGas: map<string, int>,
    tasks: seq<Task>)

  const NEW_LEDGER := Ledger([], multiset{}, map[], multiset{}, map[], [])

  function At(m: map<string, int>, chain: string): int {
    if chain in m then m[chain] else 0
  }

  function Plus(m: map<string, int>, chain: string, v: int): map<string, int> {
    m[chain := At(m, chain) + v]
  }

  function Fee(x: Resolution): int {
    if x.fee.Some? then x.fee.value else 0
  }

  predicate Expired(s: Submission, expiry: int, now: Time) {
    s.status.TxPending? && s.submittedAt + expiry < now
  }

  function Expire(s: Submission): Submission {
    Settle(s, Expiry)
  }

  function Resolve(s: Submission, x: Resolution): Submission {
    Settle(s, Ended(x.success, Fee(x)))
  }

  /** The row after the tracker looked at it: expired, or resolved as the chain says. */
  function RowAfter(row: Submission, seen: Submission, expiry: int, r: TrackReply): Submission {
    if r.write.Refused? then row
    else if Expired(seen, expiry, r.now) then Expire(row)
    else if r.chain.Got? then Resolve(row, r.chain.value)
    else row
  }

  /** Look at one submission; a resolution that was stored is counted. */
  function TrackSubmission(l: Ledger, t: Task, expiry: int, r: TrackReply): (m: Ledger)
    requires t.row < |l.submissions|
    ensures |m.submissions| == |l.submissions| && m.tasks == l.tasks
  {
    var m := l.(submissions := l.submissions[t.row := RowAfter(l.submissions[t.row], t.seen, expiry, r)]);
    if Expired(t.seen, expiry, r.now) || r.chain.NoAnswer? || r.write.Refused? then m
    else
      var x, chain := r.chain.value, t.seen.chain;
      if r.write.Stored?
      then m.(confirmed := m.confirmed + multiset{(x.success, chain)}, gas := Plus(m.gas, chain, Fee(x)))
      else m.(missed := m.missed + multiset{(x.success, chain)}, missedGas := Plus(m.missedGas, chain, Fee(x)))
  }

  /** What the query may answer: the oldest pending rows, at most `limit`, oldest first; rows
      of the same age in any order. */
  ghost predicate Oldest(subs: seq<Submission>, rows: seq<nat>, limit: nat) {
    && |rows| <= limit
    && (forall i :: 0 <= i < |rows| ==> rows[i] < |subs| && subs[rows[i]].status.TxPending?)
    && (forall i, j :: 0 <= i < j < |rows| ==>
          rows[i] != rows[j] && subs[rows[i]].submittedAt <= subs[rows[j]].submittedAt)
    && (forall k :: 0 <= k < |subs| && subs[k].status.TxPending? && k !in rows ==>
          |rows| == limit && forall i :: 0 <= i < |rows| ==> subs[rows[i]].submittedAt <= subs[k].submittedAt)
  }

  /** The oldest pending row outside `rows` among the first `n`, if there is one. */
  lemma {:induction false} OldestOutside(subs: seq<Submission>, rows: seq<nat>, n: nat) returns (k: Option<nat>)
    requires n <= |subs|
    ensures k.Some? ==> k.value < n && subs[k.value].status.TxPending? && k.value !in rows
    ensures forall j :: 0 <= j < n && subs[j].status.TxPending? && j !in rows ==>
              k.Some? && subs[k.value].submittedAt <= subs[j].submittedAt
  {
    k := None;
    if n > 0 {
      k := OldestOutside(subs, rows, n - 1);
      if subs[n - 1].status.TxPending? && n - 1 !in rows && (k.None? || subs[n - 1].submittedAt < subs[k.value].submittedAt) {
        k := Some(n - 1);
      }
    }
  }

  /** The query has an answer for every table and every limit. */
  lemma {:induction false} OldestExists(subs: seq<Submission>, limit: nat) returns (rows: seq<nat>)
    ensures Oldest(subs, rows, limit)
  {
    rows := [];
    if limit > 0 {
      rows := OldestExists(subs, limit - 1);
      var k := OldestOutside(subs, rows, |subs|);
      if k.Some? { rows := rows + [k.value]; }
    }
  }

  function TasksOf(subs: seq<Submission>, rows: seq<nat>): (ts: seq<Task>)
    requires forall i :: 0 <= i < |rows| ==> rows[i] < |subs|
    ensures |ts| == |rows| && forall i :: 0 <= i < |rows| ==> ts[i] == Task(rows[i], subs[rows[i]])
  {
    if rows == [] then []
    else
      var n := |rows| - 1;
      TasksOf(subs, rows[..n]) + [Task(rows[n], subs[rows[n]])]
  }

  datatype Step =
    | Insert(txHash: string, chain: string, kind: TxType, at: Time)     // a batch was submitted
    | Query(rows: seq<nat>)                                             // Track starts
    | Work(reply: TrackReply)                                           // Track's loop, once

  ghost predicate Enabled(limit: nat, l: Ledger, s: Step) {
    match s
    case Insert(_, _, _, _) => true
    case Query(rows) => l.tasks == [] && Oldest(l.submissions, rows, limit)
    case Work(_) => l.tasks != [] && l.tasks[0].row < |l.submissions|
  }

  function Act(limit: nat, expiry: int, l: Ledger, s: Step): Ledger
    requires Enabled(limit, l, s)
  {
    match s
    case Insert(h, c, k, at) => l.(submissions := l.submissions + [Submission(h, c, k, at, TxPending, None)])
    case Query(rows) => l.(tasks := TasksOf(l.submissions, rows))
    case Work(r) => TrackSubmission(l, l.tasks[0], expiry, r).(tasks := l.tasks[1..])
  }

  // ----- counting rows -----

  predicate Resolved(s: Submission) {
    s.status.TxSuccess? || s.status.TxFailed?
  }

  function Counts(s: Submission, tag: Label): nat {
    if Resolved(s) && tag == (s.status.TxSuccess?, s.chain) then 1 else 0
  }

  function Cost(s: Submission, chain: string): int {
    if Resolved(s) && s.chain == chain && s.gas.Some? then s.gas.value else 0
  }

  function Rows(subs: seq<Submission>, tag: Label): nat {
    if subs == [] then 0 else Rows(subs[..|subs| - 1], tag) + Counts(subs[|subs| - 1], tag)
  }

  function Costs(subs: seq<Submission>, chain: string): int {
    if subs == [] then 0 else Costs(subs[..|subs| - 1], chain) + Cost(subs[|subs| - 1], chain)
  }

  lemma {:induction false} SetRow(subs: seq<Submission>, i: nat, s: Submission, tag: Label, chain: string)
    requires i < |subs|
    ensures Rows(subs[i := s], tag) + Counts(subs[i], tag) == Rows(subs, tag) + Counts(s, tag)
    ensures Costs(subs[i := s], chain) + Cost(subs[i], chain) == Costs(subs, chain) + Cost(s, chain)
  {
    var n := |subs| - 1;
    if i < n {
      SetRow(subs[..n], i, s, tag, chain);
      assert subs[i := s][..n] == subs[..n][i := s];
    } else {
      assert subs[i := s][..n] == subs[..n];
    }
  }

  lemma AddRow(subs: seq<Submission>, s: Submission, tag: Label, chain: string)
    ensures Rows(subs + [s], tag) == Rows(subs, tag) + Counts(s, tag)
    ensures Costs(subs + [s], chain) == Costs(subs, chain) + Cost(s, chain)
  {
    assert (subs + [s])[..|subs|] == subs;
  }

  // ----- what every step keeps -----

  /** Every waiting task is a different row, still as the query saw it. */
  ghost predicate TasksOk(l: Ledger) {
    && (forall i :: 0 <= i < |l.tasks| ==>
          l.tasks[i].row < |l.submissions| && l.submissions[l.tasks[i].row] == l.tasks[i].seen
          && l.tasks[i].seen.status.TxPending?)
    && (forall i, j :: 0 <= i < j < |l.tasks| ==> l.tasks[i].row != l.tasks[j].row)
  }

  /** The table counts what was counted, plus the updates whose success was not reported. */
  ghost predicate Balanced(l: Ledger, tag: Label, chain: string) {
    && Rows(l.submissions, tag) == l.confirmed[tag] + l.missed[tag]
    && Costs(l.submissions, chain) == At(l.gas, chain) + At(l.missedGas, chain)
  }

  /** Rows are never removed, and a row that left PENDING never changes. */
  ghost predicate Settles(before: seq<Submission>, after: seq<Submission>) {
    && |before| <= |after|
    && (forall i :: 0 <= i < |before| && !before[i].status.TxPending? ==> after[i] == before[i])
  }

  lemma ActSettles(limit: nat, expiry: int, l: Ledger, s: Step)
    requires TasksOk(l) && Enabled(limit, l, s)
    ensures TasksOk(Act(limit, expiry, l, s))
    ensures Settles(l.submissions, Act(limit, expiry, l, s).submissions)
  {
    hide RowAfter, Plus, Fee;
  }

  lemma PendingCountsNothing(s: Submission, x: Resolution, tag: Label, chain: string)
    requires s.status.TxPending?
    ensures Counts(s, tag) == 0 == Counts(Expire(s), tag) && Cost(s, chain) == 0 == Cost(Expire(s), chain)
    ensures Counts(Resolve(s, x), tag) == if tag == (x.success, s.chain) then 1 else 0
    ensures Cost(Resolve(s, x), chain) == if chain == s.chain then Fee(x) else 0
  {
  }

  /** What becomes of a submission, exactly.  Only a pending one expires, and only past its
      expiry; otherwise it is resolved as the chain says, if the chain answers.  A missing fee
      counts as nothing.  An update that is refused changes nothing, and no other row changes. */
  lemma TracksExactly(l: Ledger, t: Task, expiry: int, r: TrackReply)
    requires t.row < |l.submissions| && l.submissions[t.row] == t.seen
    ensures var was, now := t.seen, TrackSubmission(l, t, expiry, r).submissions[t.row];
            var past := was.status == TxPending && was.submittedAt + expiry < r.now;
            if r.write.Refused? then now == was
            else if past then now == was.(status := TxExpired)
            else match r.chain
              case NoAnswer => now == was
              case Got(x) => now == was.(status := if x.success then TxSuccess else TxFailed,
                                         gas := Some(match x.fee case Some(v) => v case None => 0))
    ensures forall k :: 0 <= k < |l.submissions| && k != t.row ==>
              TrackSubmission(l, t, expiry, r).submissions[k] == l.submissions[k]
  {
  }

  lemma TrackBalances(l: Ledger, t: Task, expiry: int, r: TrackReply, tag: Label, chain: string)
    requires Balanced(l, tag, chain)
    requires t.row < |l.submissions| && l.submissions[t.row] == t.seen && t.seen.status.TxPending?
    ensures Balanced(TrackSubmission(l, t, expiry, r), tag, chain)
  {
    hide Rows, Costs, Counts, Cost, Resolve, Expire, Fee, Expired;
    SetRow(l.submissions, t.row, RowAfter(t.seen, t.seen, expiry, r), tag, chain);
    PendingCountsNothing(t.seen, if r.chain.Got? then r.chain.value else Resolution(true, None), tag, chain);
  }

  lemma ActBalances(limit: nat, expiry: int, l: Ledger, s: Step, tag: Label, chain: string)
    requires TasksOk(l) && Balanced(l, tag, chain) && Enabled(limit, l, s)
    ensures Balanced(Act(limit, expiry, l, s), tag, chain)
  {
    hide Rows, Costs, TrackSubmission;
    match s {
      case Insert(h, c, k, at) => AddRow(l.submissions, Submission(h, c, k, at, TxPending, None), tag, chain);
      case Query(_) =>
      case Work(r) => TrackBalances(l, l.tasks[0], expiry, r, tag, chain);
    }
  }

  ghost predicate IsRun(limit: nat, expiry: int, l: Ledger, es: seq<Step>)
    decreases |es|
  {
    es == [] || (Enabled(limit, l, es[0]) && IsRun(limit, expiry, Act(limit, expiry, l, es[0]), es[1..]))
  }

  function RunLedger(limit: nat, expiry: int, l: Ledger, es: seq<Step>): Ledger
    requires IsRun(limit, expiry, l, es)
    decreases |es|
  {
    if es == [] then l else RunLedger(limit, expiry, Act(limit, expiry, l, es[0]), es[1..])
  }

  lemma {:induction false} RunBalances(limit: nat, expiry: int, l: Ledger, es: seq<Step>, tag: Label, chain: string)
    requires TasksOk(l) && Balanced(l, tag, chain) && IsRun(limit, expiry, l, es)
    ensures var m := RunLedger(limit, expiry, l, es);
            TasksOk(m) && Balanced(m, tag, chain) && Settles(l.submissions, m.submissions)
    decreases |es|
  {
    hide TasksOk, Balanced, Enabled, Act;
    if es != [] {
      ActSettles(limit, expiry, l, es[0]);
      ActBalances(limit, expiry, l, es[0], tag, chain);
      RunBalances(limit, expiry, Act(limit, expiry, l, es[0]), es[1..], tag, chain);
    }
  }

  // ----- which updates are not counted -----

  /** A resolution that was applied although its update reported an error: its label and fee. */
  function LostIn(expiry: int, l: Ledger, s: Step): Option<(Label, int)> {
    if s.Work? && l.tasks != [] && s.reply.write.Lost? && s.reply.chain.Got?
       && !Expired(l.tasks[0].seen, expiry, s.reply.now)
    then Some(((s.reply.chain.value.success, l.tasks[0].seen.chain), Fee(s.reply.chain.value)))
    else None
  }

  /** How many resolutions with this label were lost during a run. */
  function LostCount(limit: nat, expiry: int, l: Ledger, es: seq<Step>, tag: Label): nat
    requires IsRun(limit, expiry, l, es)
    decreases |es|
  {
    if es == [] then 0
    else
      var x := LostIn(expiry, l, es[0]);
      (if x.Some? && x.value.0 == tag then 1 else 0) + LostCount(limit, expiry, Act(limit, expiry, l, es[0]), es[1..], tag)
  }

  /** The fees of the resolutions on this chain that were lost during a run. */
  function LostFees(limit: nat, expiry: int, l: Ledger, es: seq<Step>, chain: string): int
    requires IsRun(limit, expiry, l, es)
    decreases |es|
  {
    if es == [] then 0
    else
      var x := LostIn(expiry, l, es[0]);
      (if x.Some? && x.value.0.1 == chain then x.value.1 else 0) + LostFees(limit, expiry, Act(limit, expiry, l, es[0]), es[1..], chain)
  }

  lemma ActMisses(limit: nat, expiry: int, l: Ledger, s: Step, tag: Label, chain: string)
    requires Enabled(limit, l, s)
    ensures var m, x := Act(limit, expiry, l, s), LostIn(expiry, l, s);
            && m.missed[tag] == l.missed[tag] + (if x.Some? && x.value.0 == tag then 1 else 0)
            && At(m.missedGas, chain) == At(l.missedGas, chain) + (if x.Some? && x.value.0.1 == chain then x.value.1 else 0)
  {
    hide RowAfter, Oldest, Fee, Expired;
  }

  lemma {:induction false} RunMisses(limit: nat, expiry: int, l: Ledger, es: seq<Step>, tag: Label, chain: string)
    requires IsRun(limit, expiry, l, es)
    ensures var m := RunLedger(limit, expiry, l, es);
            && m.missed[tag] == l.missed[tag] + LostCount(limit, expiry, l, es, tag)
            && At(m.missedGas, chain) == At(l.missedGas, chain) + LostFees(limit, expiry, l, es, chain)
    decreases |es|
  {
    hide Act, Enabled, LostIn, At;
    if es != [] {
      ActMisses(limit, expiry, l, es[0], tag, chain);
      RunMisses(limit, expiry, Act(limit, expiry, l, es[0]), es[1..], tag, chain);
    }
  }

  ghost predicate NoLostWrite(es: seq<Step>) {
    forall i :: 0 <= i < |es| && es[i].Work? ==> !es[i].reply.write.Lost?
  }

  lemma {:induction false} NothingIsLost(limit: nat, expiry: int, l: Ledger, es: seq<Step>, tag: Label, chain: string)
    requires IsRun(limit, expiry, l, es) && NoLostWrite(es)
    ensures LostCount(limit, expiry, l, es, tag) == 0 && LostFees(limit, expiry, l, es, chain) == 0
    decreases |es|
  {
    hide Act, Enabled;
    if es != [] {
      NothingIsLost(limit, expiry, Act(limit, expiry, l, es[0]), es[1..], tag, chain);
    }
  }

  /** Over every run of the tracker: a submission leaves PENDING at most once and never changes
      afterwards.  For every label the confirmed counter equals the number of such rows if and
      only if no resolution with that label was lost in the run; for every chain the gas total
      equals their recorded gas if and only if the lost fees come to nothing.  So both are right
      if no write of the run was applied while reporting an error. */
  lemma AccountsBalance(limit: nat, expiry: int, es: seq<Step>, more: seq<Step>, tag: Label, chain: string)
    requires IsRun(limit, expiry, NEW_LEDGER, es)
    requires IsRun(limit, expiry, RunLedger(limit, expiry, NEW_LEDGER, es), more)
    ensures var l := RunLedger(limit, expiry, NEW_LEDGER, es);
            && (l.confirmed[tag] == Rows(l.submissions, tag) <==> LostCount(limit, expiry, NEW_LEDGER, es, tag) == 0)
            && (At(l.gas, chain) == Costs(l.submissions, chain) <==> LostFees(limit, expiry, NEW_LEDGER, es, chain) == 0)
            && (NoLostWrite(es) ==>
                  l.confirmed[tag] == Rows(l.submissions, tag) && At(l.gas, chain) == Costs(l.submissions, chain))
            && Settles(l.submissions, RunLedger(limit, expiry, l, more).submissions)
  {
    hide IsRun, RunLedger, Rows, Costs, LostCount, LostFees, NoLostWrite;
    StartBalances(tag, chain);
    RunBalances(limit, expiry, NEW_LEDGER, es, tag, chain);
    RunMisses(limit, expiry, NEW_LEDGER, es, tag, chain);
    if NoLostWrite(es) { NothingIsLost(limit, expiry, NEW_LEDGER, es, tag, chain); }
    RunBalances(limit, expiry, RunLedger(limit, expiry, NEW_LEDGER, es), more, tag, chain);
  }

  lemma StartBalances(tag: Label, chain: string)
    ensures TasksOk(NEW_LEDGER) && Balanced(NEW_LEDGER, tag, chain)
  {
  }

  const SUBMITTED := Submission("h", "c", RecvPacket, 0, TxPending, None)

  const SUCCEEDED := SUBMITTED.(status := TxSuccess, gas := Some(7))

  const WAITING := NEW_LEDGER.(submissions := [SUBMITTED])

  const UNREPORTED := TrackReply(0, Got(Resolution(true, Some(7))), Lost)

  lemma RunCons(limit: nat, expiry: int, l: Ledger, e: Step, rest: seq<Step>)
    requires Enabled(limit, l, e) && IsRun(limit, expiry, Act(limit, expiry, l, e), rest)
    ensures IsRun(limit, expiry, l, [e] + rest)
    ensures RunLedger(limit, expiry, l, [e] + rest) == RunLedger(limit, expiry, Act(limit, expiry, l, e), rest)
  {
    assert ([e] + rest)[1..] == rest;
  }

  lemma OldestIsFirst(limit: nat)
    requires limit >= 1
    ensures Oldest([SUBMITTED], [0], limit)
  {
  }

  lemma LostQuery(limit: nat, expiry: nat)
    requires limit >= 1
    ensures Enabled(limit, WAITING, Query([0]))
    ensures Act(limit, expiry, WAITING, Query([0])) == WAITING.(tasks := [Task(0, SUBMITTED)])
  {
    hide Oldest, TasksOf, TrackSubmission;
    OldestIsFirst(limit);
    assert TasksOf([SUBMITTED], [0]) == [Task(0, SUBMITTED)];
  }

  lemma LostWork(limit: nat, expiry: nat)
    ensures var l := WAITING.(tasks := [Task(0, SUBMITTED)]);
            && Enabled(limit, l, Work(UNREPORTED))
            && var m := Act(limit, expiry, l, Work(UNREPORTED));
               m.submissions == [SUCCEEDED] && m.confirmed == multiset{} && m.gas == map[]
  {
  }

  /** One submission, resolved by an update that was applied but reported an error. */
  lemma LostUpdateIsNotCounted(limit: nat, expiry: nat) returns (es: seq<Step>)
    requires limit >= 1
    ensures IsRun(limit, expiry, NEW_LEDGER, es)
    ensures var l := RunLedger(limit, expiry, NEW_LEDGER, es);
            && Rows(l.submissions, (true, "c")) == 1 && l.confirmed[(true, "c")] == 0
            && Costs(l.submissions, "c") == 7 && At(l.gas, "c") == 0
  {
    var e, q, w := Insert("h", "c", RecvPacket, 0), Query([0]), Work(UNREPORTED);
    es := [e] + ([q] + ([w] + []));
    assert Act(limit, expiry, NEW_LEDGER, e) == WAITING;
    LostQuery(limit, expiry);
    LostWork(limit, expiry);
    assert [SUCCEEDED][..0] == [];
    hide Act, Enabled;
    var l := Act(limit, expiry, WAITING, q);
    RunCons(limit, expiry, l, w, []);
    RunCons(limit, expiry, WAITING, q, [w] + []);
    assert Enabled(limit, NEW_LEDGER, e) by { InsertAlways(limit, NEW_LEDGER, e); }
    RunCons(limit, expiry, NEW_LEDGER, e, [q] + ([w] + []));
  }

  lemma InsertAlways(limit: nat, l: Ledger, e: Step)
    requires e.Insert?
    ensures Enabled(limit, l, e)
  {
  }

  // ----- nothing expires early -----

  /** An expired row is older than the expiry at this time. */
  ghost predicate ExpiredBy(subs: seq<Submission>, expiry: int, time: Time) {
    forall i :: 0 <= i < |subs| && subs[i].status.TxExpired? ==> subs[i].submittedAt + expiry < time
  }

  /** No clock reading of the run is later than this time. */
  ghost predicate ReadBy(es: seq<Step>, time: Time) {
    forall i :: 0 <= i < |es| && es[i].Work? ==> es[i].reply.now <= time
  }

  lemma ActExpires(limit: nat, expiry: int, l: Ledger, s: Step, time: Time)
    requires TasksOk(l) && Enabled(limit, l, s) && ExpiredBy(l.submissions, expiry, time)
    requires s.Work? ==> s.reply.now <= time
    ensures ExpiredBy(Act(limit, expiry, l, s).submissions, expiry, time)
  {
    hide TrackSubmission, Oldest;
    if s.Work? { TracksExactly(l, l.tasks[0], expiry, s.reply); }
  }

  lemma {:induction false} RunExpires(limit: nat, expiry: int, l: Ledger, es: seq<Step>, time: Time)
    requires TasksOk(l) && IsRun(limit, expiry, l, es) && ExpiredBy(l.submissions, expiry, time) && ReadBy(es, time)
    ensures ExpiredBy(RunLedger(limit, expiry, l, es).submissions, expiry, time)
    decreases |es|
  {
    hide TasksOk, Enabled, Act, ExpiredBy;
    if es != [] {
      ActSettles(limit, expiry, l, es[0]);
      ActExpires(limit, expiry, l, es[0], time);
      RunExpires(limit, expiry, Act(limit, expiry, l, es[0]), es[1..], time);
    }
  }

  /** In every run, a submission marked EXPIRED was submitted longer ago than the expiry at some
      clock reading: at the latest one, in particular. */
  lemma NothingExpiresEarly(limit: nat, expiry: int, es: seq<Step>, time: Time)
    requires IsRun(limit, expiry, NEW_LEDGER, es) && ReadBy(es, time)
    ensures ExpiredBy(RunLedger(limit, expiry, NEW_LEDGER, es).submissions, expiry, time)
  {
    hide IsRun, RunLedger, ReadBy;
    StartBalances((true, ""), "");
    RunExpires(limit, expiry, NEW_LEDGER, es, time);
  }

  // ----- one whole call of Track -----

  ghost predicate InTable(subs: seq<Submission>, ts: seq<Task>) {
    forall i :: 0 <= i < |ts| ==> ts[i].row < |subs|
  }

  function TrackAll(l: Ledger, ts: seq<Task>, expiry: int, rs: seq<TrackReply>): (m: Ledger)
    requires |rs| == |ts| && InTable(l.submissions, ts)
    ensures |m.submissions| == |l.submissions| && m.tasks == l.tasks
  {
    if ts == [] then l
    else
      var n := |ts| - 1;
      assert forall i :: 0 <= i < n ==> ts[..n][i] == ts[i];
      TrackSubmission(TrackAll(l, ts[..n], expiry, rs[..n]), ts[n], expiry, rs[n])
  }

  lemma TrackNext(l: Ledger, ts: seq<Task>, expiry: int, rs: seq<TrackReply>, i: nat)
    requires i < |rs| == |ts| && InTable(l.submissions, ts)
    ensures TrackAll(l, ts[..i + 1], expiry, rs[..i + 1])
         == TrackSubmission(TrackAll(l, ts[..i], expiry, rs[..i]), ts[i], expiry, rs[i])
  {
    assert ts[..i + 1][..i] == ts[..i] && rs[..i + 1][..i] == rs[..i];
  }

  lemma TrackRow(l: Ledger, t: Task, expiry: int, r: TrackReply, k: nat)
    requires t.row < |l.submissions| && k < |l.submissions|
    ensures TrackSubmission(l, t, expiry, r).submissions[k]
         == if k == t.row then RowAfter(l.submissions[k], t.seen, expiry, r) else l.submissions[k]
  {
    hide RowAfter, Plus;
  }

  /** Every row that was looked at changes by itself; the others stay. */
  lemma {:induction false} TrackAllRows(l: Ledger, ts: seq<Task>, expiry: int, rs: seq<TrackReply>, k: nat)
    requires |rs| == |ts| && InTable(l.submissions, ts) && k < |l.submissions|
    requires forall i, j :: 0 <= i < j < |ts| ==> ts[i].row != ts[j].row
    ensures var m := TrackAll(l, ts, expiry, rs);
            && (forall i :: 0 <= i < |ts| && ts[i].row == k ==>
                  m.submissions[k] == RowAfter(l.submissions[k], ts[i].seen, expiry, rs[i]))
            && ((forall i :: 0 <= i < |ts| ==> ts[i].row != k) ==> m.submissions[k] == l.submissions[k])
  {
    hide RowAfter, TrackSubmission;
    if ts != [] {
      var n := |ts| - 1;
      assert forall i :: 0 <= i < n ==> ts[..n][i] == ts[i];
      TrackAllRows(l, ts[..n], expiry, rs[..n], k);
      TrackRow(TrackAll(l, ts[..n], expiry, rs[..n]), ts[n], expiry, rs[n], k);
    }
  }

  // ----- what the query answers is determined, up to rows of the same age -----

  lemma OneIsOutside(a: seq<nat>, b: seq<nat>) returns (k: nat)
    requires |a| > |b| && forall i, j :: 0 <= i < j < |a| ==> a[i] != a[j]
    ensures k in a && k !in b
  {
    DistinctSize(a);
    if forall i :: 0 <= i < |a| ==> a[i] in b {
      assert SetOf(a) <= SetOf(b);
      SubsetSize(SetOf(a), SetOf(b));
      ListSize(b);
    }
    var i :| 0 <= i < |a| && a[i] !in b;
    k := a[i];
  }

  lemma {:induction false} ListSize(b: seq<nat>)
    ensures |SetOf(b)| <= |b|
  {
    if b != [] {
      var n := |b| - 1;
      ListSize(b[..n]);
      assert b == b[..n] + [b[n]];
      assert SetOf(b) == SetOf(b[..n]) + {b[n]};
    }
  }

  lemma SameLength(subs: seq<Submission>, a: seq<nat>, b: seq<nat>, limit: nat)
    requires Oldest(subs, a, limit) && Oldest(subs, b, limit)
    ensures |a| <= |b|
  {
    if |a| > |b| {
      var k := OneIsOutside(a, b);
    }
  }

  lemma NotYounger(subs: seq<Submission>, a: seq<nat>, b: seq<nat>, limit: nat, i: nat)
    requires Oldest(subs, a, limit) && Oldest(subs, b, limit) && i < |a| && i < |b|
    ensures subs[b[i]].submittedAt <= subs[a[i]].submittedAt
  {
    var k := OneIsOutside(a[..i + 1], b[..i]);
    var j :| 0 <= j < i + 1 && a[j] == k;
    assert subs[k].submittedAt <= subs[a[i]].submittedAt;
    if k in b {
      assert forall m :: 0 <= m < i ==> b[m] in b[..i];
      var m :| 0 <= m < |b| && b[m] == k;
    }
  }

  /** Two answers for the same table have the same length and, place by place, the same age. */
  lemma OldestIsDetermined(subs: seq<Submission>, a: seq<nat>, b: seq<nat>, limit: nat)
    requires Oldest(subs, a, limit) && Oldest(subs, b, limit)
    ensures |a| == |b| <= limit
    ensures forall i :: 0 <= i < |a| ==> subs[a[i]].submittedAt == subs[b[i]].submittedAt
  {
    SameLength(subs, a, b, limit);
    SameLength(subs, b, a, limit);
    forall i | 0 <= i < |a| ensures subs[a[i]].submittedAt == subs[b[i]].submittedAt {
      NotYounger(subs, a, b, limit, i);
      NotYounger(subs, b, a, limit, i);
    }
  }

  // ----- an old submission is not starved -----

  /** The pending rows that the query may put before row `x`. */
  function Ahead(subs: seq<Submission>, x: nat): set<nat>
    requires x < |subs|
  {
    set k | 0 <= k < |subs| && k != x && subs[k].status.TxPending? && subs[k].submittedAt <= subs[x].submittedAt
  }

  /** New rows arrive, then Track is called: the query answers `rows`. */
  datatype Round = Round(inserted: seq<Submission>, rows: seq<nat>, replies: seq<TrackReply>)

  /** The inserted rows are newer than `x`, the storage works, and `x` has expired. */
  ghost predicate FaultFree(subs: seq<Submission>, rd: Round, limit: nat, expiry: int, x: nat)
    requires x < |subs|
  {
    && (forall i :: 0 <= i < |rd.inserted| ==> rd.inserted[i].submittedAt > subs[x].submittedAt)
    && Oldest(subs + rd.inserted, rd.rows, limit)
    && |rd.replies| == |rd.rows|
    && (forall i :: 0 <= i < |rd.replies| ==>
          rd.replies[i].write.Stored? && rd.replies[i].now > subs[x].submittedAt + expiry)
  }

  /** Such a round exists for every table. */
  lemma RoundExists(subs: seq<Submission>, limit: nat, expiry: int, x: nat, inserted: seq<Submission>) returns (rd: Round)
    requires x < |subs| && forall i :: 0 <= i < |inserted| ==> inserted[i].submittedAt > subs[x].submittedAt
    ensures FaultFree(subs, rd, limit, expiry, x) && rd.inserted == inserted
  {
    hide Oldest;
    var rows := OldestExists(subs + inserted, limit);
    rd := Round(inserted, rows, seq(|rows|, _ => TrackReply(subs[x].submittedAt + expiry + 1, NoAnswer, Stored)));
  }

  function PlayRound(l: Ledger, rd: Round, expiry: int): (m: Ledger)
    requires forall i :: 0 <= i < |rd.rows| ==> rd.rows[i] < |l.submissions + rd.inserted|
    requires |rd.replies| == |rd.rows|
    ensures |m.submissions| >= |l.submissions|
  {
    var full := l.(submissions := l.submissions + rd.inserted);
    TrackAll(full, TasksOf(full.submissions, rd.rows), expiry, rd.replies)
  }

  function SetOf(rows: seq<nat>): set<nat> {
    set k | k in rows
  }

  lemma {:induction false} DistinctSize(rows: seq<nat>)
    requires forall i, j :: 0 <= i < j < |rows| ==> rows[i] != rows[j]
    ensures |SetOf(rows)| == |rows|
  {
    if rows != [] {
      var n := |rows| - 1;
      DistinctSize(rows[..n]);
      assert rows == rows[..n] + [rows[n]] && rows[n] !in rows[..n];
      assert SetOf(rows) == SetOf(rows[..n]) + {rows[n]};
    }
  }

  lemma RowAfterIs(row: Submission, expiry: int, r: TrackReply)
    ensures RowAfter(row, row, expiry, r).submittedAt == row.submittedAt
    ensures row.status.TxPending? && r.write.Stored? && row.submittedAt + expiry < r.now ==>
              !RowAfter(row, row, expiry, r).status.TxPending?
  {
  }

  /** What one row looks like after the round. */
  lemma RoundRow(l: Ledger, rd: Round, limit: nat, expiry: int, x: nat, k: nat)
    requires x < |l.submissions| && FaultFree(l.submissions, rd, limit, expiry, x)
    requires k < |l.submissions| + |rd.inserted|
    ensures var subs, m := l.submissions + rd.inserted, PlayRound(l, rd, expiry);
            && k < |m.submissions| == |subs| && m.submissions[k].submittedAt == subs[k].submittedAt
            && (k in rd.rows && subs[k].submittedAt <= subs[x].submittedAt ==> !m.submissions[k].status.TxPending?)
            && (k !in rd.rows ==> m.submissions[k] == subs[k])
  {
    hide RowAfter, TrackAll, TasksOf;
    var full := l.(submissions := l.submissions + rd.inserted);
    var ts := TasksOf(full.submissions, rd.rows);
    TrackAllRows(full, ts, expiry, rd.replies, k);
    if k in rd.rows {
      var i :| 0 <= i < |rd.rows| && rd.rows[i] == k;
      assert ts[i] == Task(k, full.submissions[k]);
      RowAfterIs(full.submissions[k], expiry, rd.replies[i]);
    }
  }

  /** If `x` is still pending after a round, a whole batch ahead of it is gone. */
  lemma RoundShrinks(l: Ledger, rd: Round, limit: nat, expiry: int, x: nat)
    requires x < |l.submissions| && l.submissions[x].status.TxPending?
    requires FaultFree(l.submissions, rd, limit, expiry, x)
    requires PlayRound(l, rd, expiry).submissions[x].status.TxPending?
    ensures |Ahead(PlayRound(l, rd, expiry).submissions, x)| + limit <= |Ahead(l.submissions, x)|
    ensures PlayRound(l, rd, expiry).submissions[x].submittedAt == l.submissions[x].submittedAt
  {
    hide PlayRound;
    var subs, m := l.submissions + rd.inserted, PlayRound(l, rd, expiry);
    var gone := SetOf(rd.rows);
    RoundRow(l, rd, limit, expiry, x, x);
    assert x !in rd.rows;
    DistinctSize(rd.rows);
    assert gone <= Ahead(l.submissions, x) by {
      forall k | k in rd.rows ensures k in Ahead(l.submissions, x) {
        assert subs[k].submittedAt <= subs[x].submittedAt;
      }
    }
    forall k | k in Ahead(m.submissions, x) ensures k in Ahead(l.submissions, x) - gone {
      RoundRow(l, rd, limit, expiry, x, k);
    }
    assert Ahead(m.submissions, x) <= Ahead(l.submissions, x) - gone;
    SubsetSize(Ahead(m.submissions, x), Ahead(l.submissions, x) - gone);
    assert Ahead(l.submissions, x) == (Ahead(l.submissions, x) - gone) + gone;
  }

  lemma {:induction false} SubsetSize(a: set<nat>, b: set<nat>)
    requires a <= b
    ensures |a| <= |b|
  {
    if a != {} {
      var k :| k in a;
      SubsetSize(a - {k}, b - {k});
    }
  }

  ghost predicate AllFaultFree(l: Ledger, rounds: seq<Round>, limit: nat, expiry: int, x: nat)
    requires x < |l.submissions|
    decreases |rounds|
  {
    rounds == []
    || (FaultFree(l.submissions, rounds[0], limit, expiry, x)
        && AllFaultFree(PlayRound(l, rounds[0], expiry), rounds[1..], limit, expiry, x))
  }

  function PlayRounds(l: Ledger, rounds: seq<Round>, limit: nat, expiry: int, x: nat): Ledger
    requires x < |l.submissions| && AllFaultFree(l, rounds, limit, expiry, x)
    decreases |rounds|
  {
    if rounds == [] then l
    else PlayRounds(PlayRound(l, rounds[0], expiry), rounds[1..], limit, expiry, x)
  }

  lemma {:induction false} StaysResolved(l: Ledger, rounds: seq<Round>, limit: nat, expiry: int, x: nat)
    requires x < |l.submissions| && AllFaultFree(l, rounds, limit, expiry, x)
    requires !l.submissions[x].status.TxPending?
    ensures var m := PlayRounds(l, rounds, limit, expiry, x);
            x < |m.submissions| && m.submissions[x] == l.submissions[x]
    decreases |rounds|
  {
    hide PlayRound;
    if rounds != [] {
      RoundRow(l, rounds[0], limit, expiry, x, x);
      StaysResolved(PlayRound(l, rounds[0], expiry), rounds[1..], limit, expiry, x);
    }
  }

  /** Fairness with its bound: an expired pending submission with r pending rows ahead of it
      leaves PENDING within r / limit + 1 fault-free calls, whatever newer rows arrive. */
  lemma {:induction false} LeavesPending(l: Ledger, rounds: seq<Round>, limit: nat, expiry: int, x: nat)
    requires limit >= 1 && x < |l.submissions| && AllFaultFree(l, rounds, limit, expiry, x)
    requires |rounds| >= |Ahead(l.submissions, x)| / limit + 1
    ensures var m := PlayRounds(l, rounds, limit, expiry, x);
            x < |m.submissions| && !m.submissions[x].status.TxPending?
    decreases |rounds|
  {
    hide PlayRound, Ahead;
    if !l.submissions[x].status.TxPending? {
      StaysResolved(l, rounds, limit, expiry, x);
    } else {
      var next := PlayRound(l, rounds[0], expiry);
      if next.submissions[x].status.TxPending? {
        RoundShrinks(l, rounds[0], limit, expiry, x);
        FewerRounds(|Ahead(l.submissions, x)|, |Ahead(next.submissions, x)|, limit);
        LeavesPending(next, rounds[1..], limit, expiry, x);
      } else {
        StaysResolved(next, rounds[1..], limit, expiry, x);
      }
    }
  }

  lemma FewerRounds(a: nat, b: nat, limit: nat)
    requires limit >= 1 && b + limit <= a
    ensures b / limit + 1 <= a / limit
  {
    var p, q := a / limit, b / limit;
    assert limit * q <= b && a < limit * p + limit;
    if p <= q {
      Scaled(p, q, limit);
      assert false;
    }
  }

  lemma Scaled(p: nat, q: nat, limit: nat)
    requires p <= q
    ensures limit * p <= limit * q
  {
  }

  // ----- a call of Track is a run of the machine -----

  function Works(rs: seq<TrackReply>): seq<Step> {
    if rs == [] then [] else [Work(rs[0])] + Works(rs[1..])
  }

  lemma {:induction false} TrackFirst(l: Ledger, ts: seq<Task>, expiry: int, rs: seq<TrackReply>)
    requires |rs| == |ts| > 0 && InTable(l.submissions, ts)
    ensures TrackAll(l, ts, expiry, rs) == TrackAll(TrackSubmission(l, ts[0], expiry, rs[0]), ts[1..], expiry, rs[1..])
  {
    hide TrackSubmission;
    var n := |ts| - 1;
    if n == 0 {
      assert ts[..0] == [] == ts[1..] && rs[..0] == [] == rs[1..];
    } else {
      TrackFirst(l, ts[..n], expiry, rs[..n]);
      assert ts[..n][1..] == ts[1..][..n - 1] && rs[..n][1..] == rs[1..][..n - 1];
    }
  }

  lemma TrackIgnoresTasks(l: Ledger, t: Task, expiry: int, r: TrackReply, a: seq<Task>)
    requires t.row < |l.submissions|
    ensures TrackSubmission(l.(tasks := a), t, expiry, r) == TrackSubmission(l, t, expiry, r).(tasks := a)
  {
  }

  lemma {:induction false} WorksRun(limit: nat, expiry: int, l: Ledger, ts: seq<Task>, rs: seq<TrackReply>)
    requires |rs| == |ts| && InTable(l.submissions, ts) && l.tasks == []
    ensures IsRun(limit, expiry, l.(tasks := ts), Works(rs))
    ensures RunLedger(limit, expiry, l.(tasks := ts), Works(rs)) == TrackAll(l, ts, expiry, rs)
    decreases |rs|
  {
    hide TrackSubmission;
    if rs != [] {
      assert Works(rs)[1..] == Works(rs[1..]);
      TrackIgnoresTasks(l, ts[0], expiry, rs[0], ts);
      TrackFirst(l, ts, expiry, rs);
      WorksRun(limit, expiry, TrackSubmission(l, ts[0], expiry, rs[0]), ts[1..], rs[1..]);
    }
  }

  /** Between two calls nothing is left of the query: a call is the query and its loop. */
  lemma TrackIsRun(limit: nat, expiry: int, l: Ledger, rows: seq<nat>, rs: seq<TrackReply>)
    requires l.tasks == [] && Oldest(l.submissions, rows, limit) && |rs| == |rows|
    ensures IsRun(limit, expiry, l, [Query(rows)] + Works(rs))
    ensures RunLedger(limit, expiry, l, [Query(rows)] + Works(rs))
         == TrackAll(l, TasksOf(l.submissions, rows), expiry, rs)
  {
    hide TrackSubmission, TrackAll;
    WorksRun(limit, expiry, l, TasksOf(l.submissions, rows), rs);
    assert ([Query(rows)] + Works(rs))[1..] == Works(rs);
  }

  // ----- the tracker itself -----

  class SubmittedTxCostTracker {
    const db: Database
    const attemptExpiry: int
    var confirmed: multiset<Label>
    var gas: map<string, int>
    ghost var missed: multiset<Label>
    ghost var missedGas: map<string, int>

    constructor (db: Database, attemptExpiry: int)
      ensures this.db == db && this.attemptExpiry == attemptExpiry
      ensures View() == NEW_LEDGER.(submissions := db.tables.submissions)
    {
      this.db, this.attemptExpiry := db, attemptExpiry;
      confirmed, gas, missed, missedGas := multiset{}, map[], multiset{}, map[];
    }

    ghost function View(): Ledger
      reads this, db
    {
      Ledger(db.tables.submissions, confirmed, gas, missed, missedGas, [])
    }

    /** Expire the submission or resolve it; an error leaves it for the next call. */
    method Resolve(t: Task, r: TrackReply) returns (err: bool)
      requires t.row < |db.tables.submissions|
      modifies this, db
      ensures View() == TrackSubmission(old(View()), t, attemptExpiry, r)
      ensures db.tables.rows == old(db.tables.rows) && db.tables.links == old(db.tables.links)
      ensures err <==> !r.write.Stored? || (!Expired(t.seen, attemptExpiry, r.now) && r.chain.NoAnswer?)
    {
      var expired := Expired(t.seen, attemptExpiry, r.now);
      if !expired && r.chain.NoAnswer? { return true; }
      if expired {
        var ok := db.ExecSettle(t.row, Expiry, r.write);
        return !ok;
      }
      var x, chain := r.chain.value, t.seen.chain;
      var ok := db.ExecSettle(t.row, Ended(x.success, Fee(x)), r.write);
      if !ok {
        if r.write.Lost? {
          missed, missedGas := missed + multiset{(x.success, chain)}, Plus(missedGas, chain, Fee(x));
        }
        return true;
      }
      confirmed, gas := confirmed + multiset{(x.success, chain)}, Plus(gas, chain, Fee(x));
      return false;
    }

    /** One poll: look at every submission the query returned, whatever happens to each. */
    method Track(read: Answer<seq<nat>>, ghost limit: nat, rs: seq<TrackReply>) returns (err: bool)
      requires read.Got? ==> Oldest(db.tables.submissions, read.value, limit) && |rs| == |read.value|
      modifies this, db
      ensures err <==> read.NoAnswer?
      ensures View() == if err then old(View())
                        else TrackAll(old(View()), TasksOf(old(db.tables.submissions), read.value), attemptExpiry, rs)
      ensures db.tables.rows == old(db.tables.rows) && db.tables.links == old(db.tables.links)
    {
      hide TrackSubmission, Oldest;
      if read.NoAnswer? { return true; }
      assert forall i :: 0 <= i < |read.value| ==> read.value[i] < |db.tables.submissions| by {
        InRange(db.tables.submissions, read.value, limit);
      }
      var ts := TasksOf(db.tables.submissions, read.value);
      ghost var before := View();
      for i := 0 to |ts|
        invariant InTable(before.submissions, ts[..i])
        invariant View() == TrackAll(before, ts[..i], attemptExpiry, rs[..i])
        invariant db.tables.rows == old(db.tables.rows) && db.tables.links == old(db.tables.links)
      {
        TrackNext(before, ts, attemptExpiry, rs, i);
        var _ := Resolve(ts[i], rs[i]);
      }
      assert ts[..|ts|] == ts && rs[..|rs|] == rs;
      return false;
    }
  }

  lemma InRange(subs: seq<Submission>, rows: seq<nat>, limit: nat)
    requires Oldest(subs, rows, limit)
    ensures forall i :: 0 <= i < |rows| ==> rows[i] < |subs|
  {
  }
}
