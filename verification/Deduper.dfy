/** The deduper in front of each pipeline and the manager of all pipelines: one live copy per
    transfer, over every interleaving of pushes, stages and polls. */
module Deduper {
  import opened Wrappers
  import opened Transfers

  const INPUT_BUFFER_SIZE: nat := 10000

  datatype PipelineKey = PipelineKey(sourceChain: string, sourceClient: string, destChain: string, destClient: string)

  function PipelineKeyOf(p: Packet): PipelineKey {
    PipelineKey(p.key.chain, p.key.client, p.destChain, p.destClient)
  }

  /** One pipeline for each combination of source chain and client with destination chain and
      client. */
  lemma PipelinesAreApart(p: Packet, q: Packet)
    ensures PipelineKeyOf(p) == PipelineKeyOf(q) <==>
              p.key.chain == q.key.chain && p.key.client == q.key.client && p.destChain == q.destChain && p.destClient == q.destClient
  {
  }

  /** One pipeline behind its deduper.  The lock is held exactly while `pushing` is set. */
  datatype Lane = Lane(
    marked: set<Key>,           // inPipeline
    pushing: Option<Key>,       // marked, and waiting for room in the input channel
    input: seq<Key>,
    inside: seq<Key>,           // pulled into the stages
    polled: Option<Key>)        // came out, and waits for the lock to be unmarked

  const NEW_LANE := Lane({}, None, [], [], None)

  datatype LaneStep =
    | Lock(k: Key)              // Push: take the lock; stop if marked, else mark
    | Send                      // Push: the input channel has room; release the lock
    | Pull                      // the first stage takes the oldest input
    | Poll(i: nat)              // any transfer inside comes out
    | Unmark                    // the poller takes the lock and deletes the key

  predicate Enabled(l: Lane, e: LaneStep) {
    match e
    case Lock(k) => l.pushing.None?
    case Send => l.pushing.Some? && |l.input| < INPUT_BUFFER_SIZE
    case Pull => l.input != []
    case Poll(i) => l.polled.None? && i < |l.inside|
    case Unmark => l.polled.Some? && l.pushing.None?
  }

  function Act(l: Lane, e: LaneStep): Lane
    requires Enabled(l, e)
  {
    match e
    case Lock(k) => if k in l.marked then l else l.(marked := l.marked + {k}, pushing := Some(k))
    case Send => l.(pushing := None, input := l.input + [l.pushing.value])
    case Pull => l.(input := l.input[1..], inside := l.inside + [l.input[0]])
    case Poll(i) => l.(inside := l.inside[..i] + l.inside[i + 1..], polled := Some(l.inside[i]))
    case Unmark => l.(marked := l.marked - {l.polled.value}, polled := None)
  }

  // ----- copies of a transfer in one pipeline -----

  function Held(o: Option<Key>, k: Key): nat {
    if o == Some(k) then 1 else 0
  }

  function Occurs(s: seq<Key>, k: Key): nat {
    multiset(s)[k]
  }

  /** How many live copies of the transfer the pipeline holds. */
  function Copies(l: Lane, k: Key): nat {
    Held(l.pushing, k) + Occurs(l.input, k) + Occurs(l.inside, k) + Held(l.polled, k)
  }

  /** Marked means: exactly one live copy.  Not marked means: none. */
  ghost predicate LaneOk(l: Lane) {
    forall k :: Copies(l, k) == if k in l.marked then 1 else 0
  }

  lemma AddOccurs(s: seq<Key>, x: Key, k: Key)
    ensures Occurs(s + [x], k) == Occurs(s, k) + (if x == k then 1 else 0)
  {
  }

  lemma CutOccurs(s: seq<Key>, i: nat, k: Key)
    requires i < |s|
    ensures Occurs(s, k) == Occurs(s[..i] + s[i + 1..], k) + (if s[i] == k then 1 else 0)
  {
    assert s == s[..i] + [s[i]] + s[i + 1..];
  }

  lemma ActKeepsOne(l: Lane, e: LaneStep, k: Key)
    requires LaneOk(l) && Enabled(l, e)
    ensures Copies(Act(l, e), k) == if k in Act(l, e).marked then 1 else 0
  {
    hide Occurs;
    assert Copies(l, k) == if k in l.marked then 1 else 0;
    match e {
      case Lock(j) =>
      case Send => AddOccurs(l.input, l.pushing.value, k);
      case Pull =>
        CutOccurs(l.input, 0, k);
        assert l.input[..0] + l.input[1..] == l.input[1..];
        AddOccurs(l.inside, l.input[0], k);
      case Poll(i) => CutOccurs(l.inside, i, k);
      case Unmark => assert Copies(l, l.polled.value) == if l.polled.value in l.marked then 1 else 0;
    }
  }

  lemma ActKeeps(l: Lane, e: LaneStep)
    requires LaneOk(l) && Enabled(l, e)
    ensures LaneOk(Act(l, e))
  {
    forall k ensures Copies(Act(l, e), k) == if k in Act(l, e).marked then 1 else 0 {
      ActKeepsOne(l, e, k);
    }
  }

  // ----- all pipelines of the manager -----

  /** The packet of every transfer: a row's destination never changes. */
  type Book = map<Key, Packet>

  type Fleet = map<PipelineKey, Lane>

  datatype FleetStep =
    | Offer(k: Key, configured: bool)         // find or create the pipeline, then start a push
    | Inner(at: PipelineKey, step: LaneStep)

  function Dispatch(book: Book, f: Fleet, e: FleetStep): Fleet {
    match e
    case Offer(k, configured) =>
      if k !in book then f
      else
        var at := PipelineKeyOf(book[k]);
        if at !in f && !configured then f
        else
          var l := if at in f then f[at] else NEW_LANE;
          if Enabled(l, Lock(k)) then f[at := Act(l, Lock(k))] else f
    case Inner(at, step) =>
      if at in f && !step.Lock? && Enabled(f[at], step) then f[at := Act(f[at], step)] else f
  }

  function RunFleet(book: Book, f: Fleet, es: seq<FleetStep>): Fleet
    decreases |es|
  {
    if es == [] then f else RunFleet(book, Dispatch(book, f, es[0]), es[1..])
  }

  ghost predicate FleetOk(book: Book, f: Fleet) {
    forall at :: at in f ==>
      LaneOk(f[at]) && (forall k :: k in f[at].marked ==> k in book && PipelineKeyOf(book[k]) == at)
  }

  lemma DispatchKeeps(book: Book, f: Fleet, e: FleetStep)
    requires FleetOk(book, f)
    ensures FleetOk(book, Dispatch(book, f, e))
  {
    hide Copies, Occurs;
    match e {
      case Offer(k, _) =>
        if k in book {
          var at := PipelineKeyOf(book[k]);
          NewLaneOk();
          var l := if at in f then f[at] else NEW_LANE;
          if Enabled(l, Lock(k)) { ActKeeps(l, Lock(k)); }
        }
      case Inner(at, step) =>
        if at in f && Enabled(f[at], step) { ActKeeps(f[at], step); }
    }
  }

  lemma NewLaneOk()
    ensures LaneOk(NEW_LANE)
  {
  }

  lemma {:induction false} RunFleetKeeps(book: Book, f: Fleet, es: seq<FleetStep>)
    requires FleetOk(book, f)
    ensures FleetOk(book, RunFleet(book, f, es))
    decreases |es|
  {
    hide FleetOk;
    if es != [] {
      DispatchKeeps(book, f, es[0]);
      RunFleetKeeps(book, Dispatch(book, f, es[0]), es[1..]);
    }
  }

  /** At most one live copy of a transfer exists in all pipelines together, and it is marked
      exactly where it is. */
  lemma OneLiveCopy(book: Book, es: seq<FleetStep>, k: Key, a: PipelineKey, b: PipelineKey)
    requires var f := RunFleet(book, map[], es); a in f && b in f
    ensures var f := RunFleet(book, map[], es);
            && Copies(f[a], k) == (if k in f[a].marked then 1 else 0)
            && (a != b ==> Copies(f[a], k) + Copies(f[b], k) <= 1)
  {
    hide Copies;
    RunFleetKeeps(book, map[], es);
  }

  // ----- a push never waits while at most 10000 keys are marked -----

  lemma {:induction false} FitsIn(s: seq<Key>, keys: set<Key>)
    requires forall k :: Occurs(s, k) <= 1
    requires forall i :: 0 <= i < |s| ==> s[i] in keys
    ensures |s| <= |keys|
  {
    if s != [] {
      var n := |s| - 1;
      var front, last := s[..n], s[n];
      assert s == front + [last];
      forall k ensures Occurs(front, k) <= Occurs(s, k) { AddOccurs(front, last, k); }
      forall i | 0 <= i < n ensures front[i] in keys - {last} {
        AddOccurs(front, last, last);
        assert front[i] in multiset(front);
      }
      FitsIn(front, keys - {last});
    }
  }

  /** Whoever holds the lock to push finds room, so the poller gets the lock next. */
  lemma PushFindsRoom(book: Book, es: seq<FleetStep>, at: PipelineKey)
    requires at in RunFleet(book, map[], es)
    requires |RunFleet(book, map[], es)[at].marked| <= 10000
    ensures var l := RunFleet(book, map[], es)[at];
            && |l.input| <= |l.marked|
            && (l.pushing.Some? ==> Enabled(l, Send) && (l.polled.Some? ==> Enabled(Act(l, Send), Unmark)))
  {
    RunFleetKeeps(book, map[], es);
    var l := RunFleet(book, map[], es)[at];
    var s := l.input + (if l.pushing.Some? then [l.pushing.value] else []);
    forall k ensures Occurs(s, k) <= Copies(l, k) {
      if l.pushing.Some? { AddOccurs(l.input, l.pushing.value, k); }
    }
    forall k ensures Occurs(s, k) <= 1 { assert Occurs(s, k) <= Copies(l, k) <= 1; }
    forall i | 0 <= i < |s| ensures s[i] in l.marked {
      assert Occurs(s, s[i]) > 0 by { assert s[i] in multiset(s); }
      assert Copies(l, s[i]) > 0;
    }
    FitsIn(s, l.marked);
  }

  function Flood(n: nat): seq<LaneStep> {
    if n == 0 then [] else Flood(n - 1) + [Lock(Key("", "", n)), Send]
  }

  ghost predicate IsLaneRun(l: Lane, es: seq<LaneStep>, m: Lane)
    decreases |es|
  {
    if es == [] then l == m
    else
      var front := es[..|es| - 1];
      exists mid :: IsLaneRun(l, front, mid) && Enabled(mid, es[|es| - 1]) && Act(mid, es[|es| - 1]) == m
  }

  lemma Extend(l: Lane, es: seq<LaneStep>, m: Lane, e: LaneStep)
    requires IsLaneRun(l, es, m) && Enabled(m, e)
    ensures IsLaneRun(l, es + [e], Act(m, e))
  {
    assert (es + [e])[..|es|] == es;
  }

  ghost predicate Filled(l: Lane, n: nat) {
    && l.pushing.None? && l.polled.None? && l.inside == [] && |l.input| == n && |l.marked| == n
    && (forall k :: k in l.marked ==> k.sequence <= n)
  }

  lemma {:induction false} FloodFills(n: nat) returns (l: Lane)
    requires n <= INPUT_BUFFER_SIZE
    ensures IsLaneRun(NEW_LANE, Flood(n), l) && Filled(l, n)
  {
    l := NEW_LANE;
    if n > 0 {
      hide IsLaneRun;
      var m := FloodFills(n - 1);
      var k := Key("", "", n);
      assert k !in m.marked;
      Extend(NEW_LANE, Flood(n - 1), m, Lock(k));
      Extend(NEW_LANE, Flood(n - 1) + [Lock(k)], Act(m, Lock(k)), Send);
      l := Act(Act(m, Lock(k)), Send);
      assert Flood(n) == Flood(n - 1) + [Lock(k)] + [Send];
    } else {
      assert IsLaneRun(NEW_LANE, [], NEW_LANE);
    }
  }

  /** The bound is sharp: with one key more a push can hold the lock and wait for room. */
  lemma OneMoreCanWait() returns (es: seq<LaneStep>, l: Lane)
    ensures IsLaneRun(NEW_LANE, es, l)
    ensures |l.marked| == 10001 && l.pushing.Some? && !Enabled(l, Send)
  {
    hide IsLaneRun, Flood;
    var m := FloodFills(INPUT_BUFFER_SIZE);
    var k := Key("", "", INPUT_BUFFER_SIZE + 1);
    assert k !in m.marked;
    Extend(NEW_LANE, Flood(INPUT_BUFFER_SIZE), m, Lock(k));
    es, l := Flood(INPUT_BUFFER_SIZE) + [Lock(k)], Act(m, Lock(k));
  }

  /** And then the poller has to wait too: it holds an output and cannot take the lock. */
  lemma PollerCanWait() returns (es: seq<LaneStep>, l: Lane)
    ensures IsLaneRun(NEW_LANE, es, l)
    ensures l.pushing.Some? && !Enabled(l, Send) && l.polled.Some? && !Enabled(l, Unmark) && forall k :: !Enabled(l, Lock(k))
  {
    hide IsLaneRun, Flood;
    var n := INPUT_BUFFER_SIZE;
    var m := FloodFills(n);
    var a, b := Key("", "", n + 1), Key("", "", n + 2);
    assert a !in m.marked && b !in m.marked;
    Extend(NEW_LANE, Flood(n), m, Pull);
    var m1, e1 := Act(m, Pull), Flood(n) + [Pull];
    Extend(NEW_LANE, e1, m1, Poll(0));
    var m2, e2 := Act(m1, Poll(0)), e1 + [Poll(0)];
    Extend(NEW_LANE, e2, m2, Lock(a));
    var m3, e3 := Act(m2, Lock(a)), e2 + [Lock(a)];
    Extend(NEW_LANE, e3, m3, Send);
    var m4, e4 := Act(m3, Send), e3 + [Send];
    Extend(NEW_LANE, e4, m4, Lock(b));
    es, l := e4 + [Lock(b)], Act(m4, Lock(b));
  }

  // ----- every copy can come out, and its key be pushed again -----

  /** A run that goes on without another push. */
  ghost predicate Drains(l: Lane, es: seq<LaneStep>, m: Lane) {
    IsLaneRun(l, es, m) && forall i :: 0 <= i < |es| ==> !es[i].Lock?
  }

  lemma DrainMore(l: Lane, es: seq<LaneStep>, m: Lane, e: LaneStep)
    requires Drains(l, es, m) && LaneOk(m) && Enabled(m, e) && !e.Lock?
    ensures Drains(l, es + [e], Act(m, e)) && LaneOk(Act(m, e))
  {
    hide IsLaneRun;
    Extend(l, es, m, e);
    ActKeeps(m, e);
  }

  lemma ReleaseLock(l: Lane) returns (es: seq<LaneStep>, m: Lane)
    requires LaneOk(l)
    ensures Drains(l, es, m) && LaneOk(m) && m.pushing.None?
  {
    es, m := [], l;
    assert Drains(l, es, m);
    hide Drains, LaneOk;
    if m.pushing.Some? {
      while |m.input| >= INPUT_BUFFER_SIZE
        invariant Drains(l, es, m) && LaneOk(m) && m.pushing.Some?
      {
        DrainMore(l, es, m, Pull);
        es, m := es + [Pull], Act(m, Pull);
      }
      DrainMore(l, es, m, Send);
      es, m := es + [Send], Act(m, Send);
    }
  }

  lemma IsSomewhere(l: Lane, k: Key)
    requires LaneOk(l) && k in l.marked && l.pushing.None? && l.polled.None?
    ensures k in l.input || k in l.inside
  {
    assert Copies(l, k) == 1;
    if k !in l.input { assert k !in multiset(l.input); }
    if k !in l.inside { assert k !in multiset(l.inside); }
  }

  /** Whatever state a pipeline is in, every key marked in it can be unmarked without another
      push: the stages take the inputs, the copy comes out, and the poller deletes its key. */
  lemma EveryKeyCanLeave(l: Lane, k: Key) returns (es: seq<LaneStep>, m: Lane)
    requires LaneOk(l) && k in l.marked
    ensures Drains(l, es, m) && LaneOk(m) && k !in m.marked
  {
    es, m := ReleaseLock(l);
    hide Drains, LaneOk;
    if m.polled.Some? {
      DrainMore(l, es, m, Unmark);
      es, m := es + [Unmark], Act(m, Unmark);
    }
    if k in m.marked {
      while k !in m.inside
        invariant Drains(l, es, m) && LaneOk(m) && m.pushing.None? && m.polled.None? && k in m.marked
        decreases |m.input|
      {
        IsSomewhere(m, k);
        DrainMore(l, es, m, Pull);
        es, m := es + [Pull], Act(m, Pull);
      }
      var i :| 0 <= i < |m.inside| && m.inside[i] == k;
      DrainMore(l, es, m, Poll(i));
      es, m := es + [Poll(i)], Act(m, Poll(i));
      DrainMore(l, es, m, Unmark);
      es, m := es + [Unmark], Act(m, Unmark);
    }
  }

  /** Offering a known transfer marks it in its own pipeline if the lock is free; an existing
      pipeline takes it whatever the configuration says now, a missing one is made only for
      configured chains. */
  lemma OfferMarks(book: Book, f: Fleet, k: Key, configured: bool)
    requires k in book
    ensures var at, g := PipelineKeyOf(book[k]), Dispatch(book, f, Offer(k, configured));
            && (at in f && f[at].pushing.None? ==> at in g && k in g[at].marked)
            && (at !in f && configured ==> at in g && g[at].marked == {k})
            && (at !in f && !configured ==> g == f)
            && (forall b :: b in f && b != at ==> b in g && g[b] == f[b])
  {
  }

  function Inners(at: PipelineKey, es: seq<LaneStep>): seq<FleetStep> {
    if es == [] then [] else Inners(at, es[..|es| - 1]) + [Inner(at, es[|es| - 1])]
  }

  lemma {:induction false} FleetAppend(book: Book, f: Fleet, a: seq<FleetStep>, b: seq<FleetStep>)
    ensures RunFleet(book, f, a + b) == RunFleet(book, RunFleet(book, f, a), b)
    decreases |a|
  {
    hide Dispatch;
    if a == [] {
      assert a + b == b;
    } else {
      assert (a + b)[0] == a[0] && (a + b)[1..] == a[1..] + b;
      FleetAppend(book, Dispatch(book, f, a[0]), a[1..], b);
    }
  }

  /** A run of one pipeline is a run of the fleet that leaves the others alone. */
  lemma {:induction false} LaneInFleet(book: Book, f: Fleet, at: PipelineKey, es: seq<LaneStep>, m: Lane)
    requires at in f && Drains(f[at], es, m)
    ensures RunFleet(book, f, Inners(at, es)) == f[at := m]
    decreases |es|
  {
    if es == [] {
      assert f[at := m] == f;
    } else {
      var front, e := es[..|es| - 1], es[|es| - 1];
      var mid :| IsLaneRun(f[at], front, mid) && Enabled(mid, e) && Act(mid, e) == m;
      LaneInFleet(book, f, at, front, mid);
      FleetAppend(book, f, Inners(at, front), [Inner(at, e)]);
      assert [Inner(at, e)][1..] == [];
    }
  }

  /** In every reachable state of all pipelines, every transfer in flight can come out, so that
      it can be pushed again, without another push and without a step of another pipeline. */
  lemma EveryTransferCanLeave(book: Book, es: seq<FleetStep>, at: PipelineKey, k: Key) returns (more: seq<FleetStep>)
    requires var f := RunFleet(book, map[], es); at in f && k in f[at].marked
    ensures var f, g := RunFleet(book, map[], es), RunFleet(book, map[], es + more);
            && at in g && k !in g[at].marked && Copies(g[at], k) == 0
            && forall b :: b in f && b != at ==> b in g && g[b] == f[b]
  {
    RunFleetKeeps(book, map[], es);
    var f := RunFleet(book, map[], es);
    var steps, m := EveryKeyCanLeave(f[at], k);
    hide Drains, Copies, Dispatch;
    LaneInFleet(book, f, at, steps, m);
    more := Inners(at, steps);
    FleetAppend(book, map[], es, more);
    assert Copies(m, k) == 0;
  }
}
