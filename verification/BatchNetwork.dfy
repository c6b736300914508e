/** The channel network around a batch stage.  Four goroutines, the collector and the workers
    pass transfers on; every interleaving of their steps is a run. */
module BatchNetwork {
  import opened Transfers

  /** Which transfer it is; what the stage does to it is the batch middleware's business. */
  type Item = Key

  const BUFFER_SIZE: nat := 1000

  /** What the splitter holds while it waits for the other end of an unbuffered channel. */
  datatype Hand = Empty | ForOut(item: Item) | ForBatch(item: Item)

  datatype Worker = Free | Busy(batch: seq<Item>) | Ready(batch: seq<Item>)

  datatype Net = Net(
    input: seq<Item>, hand: Hand, toBatchClosed: bool,
    collected: seq<Item>, batchesClosed: bool,
    carried: seq<Item>,                             // the batch in the forwarder's hands, if any
    queue: seq<seq<Item>>, queueClosed: bool,
    workers: seq<Worker>, resultsClosed: bool,
    results: seq<Item>,                             // results not sent on yet
    out: seq<Item>, outClosed: bool,
    refused: seq<Item>, wanted: seq<Item>,          // what the guard said of each transfer read
    skipped: seq<Item>, batched: seq<seq<Item>>,    // what was passed by, and what the stage got
    panicked: bool)                                 // a send on a closed channel

  datatype Step =
    | Read(skip: bool)        // the splitter takes the next transfer and asks the guard
    | PassBy                  // out <- i
    | Batch                   // toBatch <- i
    | CloseToBatch
    | Flush                   // the collector's batch is full or old enough
    | CloseBatches
    | Enqueue
    | CloseQueue
    | Take(w: nat)            // a worker starts on the oldest batch
    | Work(w: nat, result: seq<Item>)
    | HandOver(w: nat)        // a worker hands its results over
    | CloseResults
    | Push                    // out <- output
    | CloseOut

  // ----- one step -----

  function Send(s: Net, i: Item): Net {
    if s.outClosed then s.(panicked := true) else s.(out := s.out + [i])
  }

  predicate AllFree(ws: seq<Worker>) {
    forall i :: 0 <= i < |ws| ==> ws[i].Free?
  }

  predicate Enabled(max: nat, s: Net, e: Step) {
    match e
    case Read(_) => s.hand.Empty? && s.input != []
    case PassBy => s.hand.ForOut?
    case Batch => s.hand.ForBatch? && |s.collected| < max
    case CloseToBatch => s.hand.Empty? && s.input == [] && !s.toBatchClosed
    case Flush => s.collected != [] && s.carried == []
    case CloseBatches => s.toBatchClosed && s.collected == [] && !s.batchesClosed
    case Enqueue => s.carried != [] && |s.queue| < BUFFER_SIZE
    case CloseQueue => s.batchesClosed && s.carried == [] && !s.queueClosed
    case Take(w) => w < |s.workers| && s.workers[w].Free? && s.queue != []
    case Work(w, result) =>
      w < |s.workers| && s.workers[w].Busy? && multiset(result) == multiset(s.workers[w].batch)
    case HandOver(w) => w < |s.workers| && s.workers[w].Ready? && s.results == []
    case CloseResults => s.queueClosed && s.queue == [] && AllFree(s.workers) && !s.resultsClosed
    case Push => s.results != []
    case CloseOut => s.resultsClosed && s.results == [] && !s.outClosed
  }

  function Do(max: nat, s: Net, e: Step): Net
    requires Enabled(max, s, e)
  {
    match e
    case Read(skip) =>
      var t := s.(input := s.input[1..], hand := if skip then ForOut(s.input[0]) else ForBatch(s.input[0]));
      if skip then t.(refused := t.refused + [s.input[0]]) else t.(wanted := t.wanted + [s.input[0]])
    case PassBy => Send(s.(hand := Empty, skipped := s.skipped + [s.hand.item]), s.hand.item)
    case Batch => s.(hand := Empty, collected := s.collected + [s.hand.item])
    case CloseToBatch => s.(toBatchClosed := true)
    case Flush => s.(collected := [], carried := s.collected)
    case CloseBatches => s.(batchesClosed := true)
    case Enqueue => s.(carried := [], queue := s.queue + [s.carried])
    case CloseQueue => s.(queueClosed := true)
    case Take(w) =>
      s.(queue := s.queue[1..], workers := s.workers[w := Busy(s.queue[0])], batched := s.batched + [s.queue[0]])
    case Work(w, result) => s.(workers := s.workers[w := Ready(result)])
    case HandOver(w) => s.(workers := s.workers[w := Free], results := s.workers[w].batch)
    case CloseResults => s.(resultsClosed := true)
    case Push => Send(s.(results := s.results[1..]), s.results[0])
    case CloseOut => s.(outClosed := true)
  }

  ghost predicate IsRun(max: nat, s: Net, es: seq<Step>)
    decreases |es|
  {
    es == [] || (Enabled(max, s, es[0]) && IsRun(max, Do(max, s, es[0]), es[1..]))
  }

  function RunNet(max: nat, s: Net, es: seq<Step>): Net
    requires IsRun(max, s, es)
    decreases |es|
  {
    if es == [] then s else RunNet(max, Do(max, s, es[0]), es[1..])
  }

  function FreeWorkers(n: nat): (ws: seq<Worker>)
    ensures |ws| == n && AllFree(ws)
  {
    if n == 0 then [] else FreeWorkers(n - 1) + [Free]
  }

  /** The network before anything is read. */
  function Initial(input: seq<Item>, concurrency: nat): Net {
    Net(input, Empty, false, [], false, [], [], false, FreeWorkers(concurrency), false, [], [], false, [], [], [], [], false)
  }

  // ----- where every transfer is -----

  /** How often `i` occurs in a sequence. */
  function In(s: seq<Item>, i: Item): nat {
    multiset(s)[i]
  }

  function InHand(h: Hand, i: Item): nat {
    if !h.Empty? && h.item == i then 1 else 0
  }

  function InBatches(bs: seq<seq<Item>>, i: Item): nat {
    if bs == [] then 0 else InBatches(bs[..|bs| - 1], i) + In(bs[|bs| - 1], i)
  }

  function InWorker(w: Worker, i: Item): nat {
    if w.Free? then 0 else In(w.batch, i)
  }

  function InWorkers(ws: seq<Worker>, i: Item): nat {
    if ws == [] then 0 else InWorkers(ws[..|ws| - 1], i) + InWorker(ws[|ws| - 1], i)
  }

  lemma AppendItem(s: seq<Item>, x: Item, i: Item)
    ensures In(s + [x], i) == In(s, i) + In([x], i)
  {
  }

  lemma DropItem(s: seq<Item>, i: Item)
    requires s != []
    ensures In(s, i) == In([s[0]], i) + In(s[1..], i)
  {
    assert s == [s[0]] + s[1..];
  }

  lemma AppendBatch(bs: seq<seq<Item>>, b: seq<Item>, i: Item)
    ensures InBatches(bs + [b], i) == InBatches(bs, i) + In(b, i)
  {
    assert (bs + [b])[..|bs|] == bs;
  }

  lemma {:induction false} DropBatch(bs: seq<seq<Item>>, i: Item)
    requires bs != []
    ensures InBatches(bs, i) == In(bs[0], i) + InBatches(bs[1..], i)
  {
    var n := |bs| - 1;
    if n > 0 {
      DropBatch(bs[..n], i);
      assert bs[..n][1..] == bs[1..][..n - 1];
    } else {
      assert bs[1..] == [] && bs[..n] == [];
    }
  }

  lemma {:induction false} SetWorker(ws: seq<Worker>, k: nat, w: Worker, i: Item)
    requires k < |ws|
    ensures InWorkers(ws[k := w], i) + InWorker(ws[k], i) == InWorkers(ws, i) + InWorker(w, i)
  {
    var n := |ws| - 1;
    if k < n {
      SetWorker(ws[..n], k, w, i);
      assert ws[k := w][..n] == ws[..n][k := w];
    } else {
      assert ws[k := w][..n] == ws[..n];
    }
  }

  lemma {:induction false} FreeHoldNothing(ws: seq<Worker>, i: Item)
    requires AllFree(ws)
    ensures InWorkers(ws, i) == 0
  {
    if ws != [] {
      FreeHoldNothing(ws[..|ws| - 1], i);
    }
  }

  /** How often `i` is waiting for the stage, in its hands, or among its results. */
  function Inside(s: Net, i: Item): nat {
    In(s.collected, i) + In(s.carried, i) + InBatches(s.queue, i) + InWorkers(s.workers, i) + In(s.results, i)
  }

  function Everywhere(s: Net, i: Item): nat {
    In(s.input, i) + InHand(s.hand, i) + Inside(s, i) + In(s.out, i)
  }

  // ----- what every step keeps -----

  ghost predicate BatchesFit(max: nat, bs: seq<seq<Item>>) {
    forall i :: 0 <= i < |bs| ==> 1 <= |bs[i]| <= max
  }

  /** Each channel is closed only after everything before it is finished. */
  ghost predicate Ordered(s: Net) {
    && (s.toBatchClosed ==> s.input == [] && s.hand.Empty?)
    && (s.batchesClosed ==> s.toBatchClosed && s.collected == [])
    && (s.queueClosed ==> s.batchesClosed && s.carried == [])
    && (s.resultsClosed ==> s.queueClosed && s.queue == [] && AllFree(s.workers))
    && (s.outClosed ==> s.resultsClosed && s.results == [])
  }

  ghost predicate WorkersFit(ws: seq<Worker>) {
    forall i :: 0 <= i < |ws| ==> !ws[i].Free? ==> |ws[i].batch| >= 1
  }

  ghost predicate NetOk(max: nat, s: Net) {
    && Ordered(s) && !s.panicked
    && BatchesFit(max, s.queue) && BatchesFit(max, s.batched) && WorkersFit(s.workers)
    && |s.collected| <= max && |s.carried| <= max && |s.queue| <= BUFFER_SIZE
  }

  lemma DoKeeps(max: nat, s: Net, e: Step)
    requires NetOk(max, s) && Enabled(max, s, e)
    ensures NetOk(max, Do(max, s, e)) && |Do(max, s, e).workers| == |s.workers|
  {
    if e.Work? {
      assert |multiset(e.result)| == |multiset(s.workers[e.w].batch)|;
    }
  }

  lemma HoldsOne(x: Item, i: Item)
    ensures In([x], i) == if x == i then 1 else 0
    ensures In([], i) == 0
  {
  }

  lemma DoConserves(max: nat, s: Net, e: Step, i: Item)
    requires NetOk(max, s) && Enabled(max, s, e)
    ensures Everywhere(Do(max, s, e), i) == Everywhere(s, i)
  {
    hide In, InBatches, InWorkers;
    HoldsOne(i, i);
    match e {
      case Read(_) =>
        DropItem(s.input, i);
        HoldsOne(s.input[0], i);
      case PassBy =>
        AppendItem(s.out, s.hand.item, i);
        HoldsOne(s.hand.item, i);
      case Batch =>
        AppendItem(s.collected, s.hand.item, i);
        HoldsOne(s.hand.item, i);
      case Enqueue => AppendBatch(s.queue, s.carried, i);
      case Take(w) =>
        DropBatch(s.queue, i);
        SetWorker(s.workers, w, Busy(s.queue[0]), i);
      case Work(w, result) =>
        SetWorker(s.workers, w, Ready(result), i);
        assert In(result, i) == In(s.workers[w].batch, i) by { SameItems(result, s.workers[w].batch, i); }
      case HandOver(w) => SetWorker(s.workers, w, Free, i);
      case Push =>
        DropItem(s.results, i);
        AppendItem(s.out, s.results[0], i);
      case _ =>
    }
  }

  lemma SameItems(a: seq<Item>, b: seq<Item>, i: Item)
    requires multiset(a) == multiset(b)
    ensures In(a, i) == In(b, i)
  {
  }

  // ----- passed by, or in exactly one batch -----

  /** How often `i` was read, by where it went: passed by, or towards a batch. */
  function Routed(s: Net, i: Item): nat {
    In(s.input, i) + InHand(s.hand, i) + In(s.skipped, i)
    + In(s.collected, i) + In(s.carried, i) + InBatches(s.queue, i) + InBatches(s.batched, i)
  }

  lemma DoRoutes(max: nat, s: Net, e: Step, i: Item)
    requires NetOk(max, s) && Enabled(max, s, e)
    ensures Routed(Do(max, s, e), i) == Routed(s, i)
  {
    hide In, InBatches;
    HoldsOne(i, i);
    match e {
      case Read(_) =>
        DropItem(s.input, i);
        HoldsOne(s.input[0], i);
      case PassBy =>
        AppendItem(s.skipped, s.hand.item, i);
        HoldsOne(s.hand.item, i);
      case Batch =>
        AppendItem(s.collected, s.hand.item, i);
        HoldsOne(s.hand.item, i);
      case Enqueue => AppendBatch(s.queue, s.carried, i);
      case Take(_) =>
        DropBatch(s.queue, i);
        AppendBatch(s.batched, s.queue[0], i);
      case _ =>
    }
  }

  /** Refused transfers are passed by, and wanted ones go towards a batch. */
  ghost predicate AsAsked(s: Net, i: Item) {
    && In(s.refused, i) == In(s.skipped, i) + (if s.hand.ForOut? && s.hand.item == i then 1 else 0)
    && In(s.wanted, i) == (if s.hand.ForBatch? && s.hand.item == i then 1 else 0)
                          + In(s.collected, i) + In(s.carried, i) + InBatches(s.queue, i) + InBatches(s.batched, i)
  }

  lemma DoAsAsked(max: nat, s: Net, e: Step, i: Item)
    requires NetOk(max, s) && Enabled(max, s, e) && AsAsked(s, i)
    ensures AsAsked(Do(max, s, e), i)
  {
    hide In, InBatches;
    HoldsOne(i, i);
    match e {
      case Read(_) =>
        AppendItem(s.refused, s.input[0], i);
        AppendItem(s.wanted, s.input[0], i);
        HoldsOne(s.input[0], i);
      case PassBy =>
        AppendItem(s.skipped, s.hand.item, i);
        HoldsOne(s.hand.item, i);
      case Batch =>
        AppendItem(s.collected, s.hand.item, i);
        HoldsOne(s.hand.item, i);
      case Enqueue => AppendBatch(s.queue, s.carried, i);
      case Take(_) =>
        DropBatch(s.queue, i);
        AppendBatch(s.batched, s.queue[0], i);
      case _ =>
    }
  }

  /** The buffer keeps the collector from being held up: with fewer than a thousand batches
      waiting for workers, the next one is always taken. */
  lemma BufferTakesBatch(max: nat, s: Net)
    requires s.carried != [] && |s.queue| < 1000
    ensures Enabled(max, s, Enqueue) && Do(max, s, Enqueue).carried == [] && Do(max, s, Enqueue).queue == s.queue + [s.carried]
  {
  }

  // ----- every run comes to an end, and only when `out` is closed -----

  function Size(bs: seq<seq<Item>>): nat {
    if bs == [] then 0 else Size(bs[..|bs| - 1]) + |bs[|bs| - 1]|
  }

  function Load(w: Worker): nat {
    match w case Free => 0 case Busy(b) => 3 * |b| case Ready(b) => 2 * |b|
  }

  function Loads(ws: seq<Worker>): nat {
    if ws == [] then 0 else Loads(ws[..|ws| - 1]) + Load(ws[|ws| - 1])
  }

  lemma SizeAppend(bs: seq<seq<Item>>, b: seq<Item>)
    ensures Size(bs + [b]) == Size(bs) + |b|
  {
    assert (bs + [b])[..|bs|] == bs;
  }

  lemma {:induction false} SizeDrop(bs: seq<seq<Item>>)
    requires bs != []
    ensures Size(bs) == |bs[0]| + Size(bs[1..])
  {
    var n := |bs| - 1;
    if n > 0 {
      SizeDrop(bs[..n]);
      assert bs[..n][1..] == bs[1..][..n - 1];
    } else {
      assert bs[1..] == [] && bs[..n] == [];
    }
  }

  lemma {:induction false} LoadsSet(ws: seq<Worker>, k: nat, w: Worker)
    requires k < |ws|
    ensures Loads(ws[k := w]) + Load(ws[k]) == Loads(ws) + Load(w)
  {
    var n := |ws| - 1;
    if k < n {
      LoadsSet(ws[..n], k, w);
      assert ws[k := w][..n] == ws[..n][k := w];
    } else {
      assert ws[k := w][..n] == ws[..n];
    }
  }

  function Open(closed: bool): nat {
    if closed then 0 else 1
  }

  /** How many steps are left at most: each transfer's distance to `out`, and the closes. */
  function Remaining(s: Net): nat {
    8 * |s.input| + (if s.hand.Empty? then 0 else 7) + 6 * |s.collected| + 5 * |s.carried|
    + 4 * Size(s.queue) + Loads(s.workers) + |s.results|
    + Open(s.toBatchClosed) + Open(s.batchesClosed) + Open(s.queueClosed) + Open(s.resultsClosed) + Open(s.outClosed)
  }

  lemma DoDescends(max: nat, s: Net, e: Step)
    requires NetOk(max, s) && Enabled(max, s, e)
    ensures Remaining(Do(max, s, e)) < Remaining(s)
  {
    hide Size, Loads;
    match e {
      case Enqueue => SizeAppend(s.queue, s.carried);
      case Take(w) =>
        SizeDrop(s.queue);
        LoadsSet(s.workers, w, Busy(s.queue[0]));
      case Work(w, result) =>
        LoadsSet(s.workers, w, Ready(result));
        assert |multiset(result)| == |multiset(s.workers[w].batch)|;
      case HandOver(w) => LoadsSet(s.workers, w, Free);
      case _ =>
    }
  }

  lemma WorkerMoves(max: nat, s: Net, w: nat) returns (e: Step)
    requires w < |s.workers| && s.results == []
    requires s.queue != [] || !s.workers[w].Free?
    ensures Enabled(max, s, e)
  {
    match s.workers[w]
    case Free => e := Take(w);
    case Busy(b) => e := Work(w, b);
    case Ready(_) => e := HandOver(w);
  }

  /** The network never blocks while `out` is read and not closed. */
  lemma NeverStuck(max: nat, s: Net) returns (e: Step)
    requires NetOk(max, s) && !s.outClosed && max >= 1 && s.workers != []
    ensures Enabled(max, s, e)
  {
    if s.results != [] { return Push; }
    if s.queue != [] { e := WorkerMoves(max, s, 0); return; }
    if s.carried != [] { return Enqueue; }
    if s.collected != [] { return Flush; }
    if !s.hand.Empty? { return if s.hand.ForOut? then PassBy else Batch; }
    if s.input != [] { return Read(true); }
    if !s.toBatchClosed { return CloseToBatch; }
    if !s.batchesClosed { return CloseBatches; }
    if !s.queueClosed { return CloseQueue; }
    if w :| 0 <= w < |s.workers| && !s.workers[w].Free? { e := WorkerMoves(max, s, w); return; }
    return if s.resultsClosed then CloseOut else CloseResults;
  }

  // ----- whole runs -----

  lemma {:induction false} RunKeeps(max: nat, s: Net, es: seq<Step>, i: Item)
    requires NetOk(max, s) && AsAsked(s, i) && IsRun(max, s, es)
    ensures var t := RunNet(max, s, es);
            && NetOk(max, t) && AsAsked(t, i) && |t.workers| == |s.workers|
            && Everywhere(t, i) == Everywhere(s, i) && Routed(t, i) == Routed(s, i)
            && |es| + Remaining(t) <= Remaining(s)
    decreases |es|
  {
    hide NetOk, Enabled, Do, Everywhere, Routed, Remaining, AsAsked;
    if es != [] {
      DoKeeps(max, s, es[0]);
      DoConserves(max, s, es[0], i);
      DoRoutes(max, s, es[0], i);
      DoAsAsked(max, s, es[0], i);
      DoDescends(max, s, es[0]);
      RunKeeps(max, Do(max, s, es[0]), es[1..], i);
    }
  }

  lemma InitialOk(max: nat, input: seq<Item>, concurrency: nat, i: Item)
    ensures var s := Initial(input, concurrency);
            NetOk(max, s) && AsAsked(s, i) && Everywhere(s, i) == In(input, i) && Routed(s, i) == In(input, i)
  {
    FreeHoldNothing(FreeWorkers(concurrency), i);
  }

  /** Once `out` is closed nothing is left to do, and everything read has been sent. */
  lemma Closed(max: nat, s: Net, i: Item)
    requires NetOk(max, s) && s.outClosed && AsAsked(s, i)
    ensures In(s.skipped, i) == In(s.refused, i) && InBatches(s.batched, i) == In(s.wanted, i)
    ensures Everywhere(s, i) == In(s.out, i) && Routed(s, i) == In(s.skipped, i) + InBatches(s.batched, i)
    ensures forall e :: !Enabled(max, s, e)
  {
    FreeHoldNothing(s.workers, i);
  }

  /** Safety, for every run: nothing is sent on a closed channel, every batch is within its
      bound, and no transfer is lost or repeated wherever it is. */
  lemma RunIsSafe(max: nat, input: seq<Item>, concurrency: nat, es: seq<Step>, i: Item)
    requires IsRun(max, Initial(input, concurrency), es)
    ensures var s := RunNet(max, Initial(input, concurrency), es);
            && !s.panicked && BatchesFit(max, s.batched) && |s.queue| <= BUFFER_SIZE
            && Everywhere(s, i) == In(input, i) && Routed(s, i) == In(input, i)
            && |es| <= Remaining(Initial(input, concurrency))
  {
    hide Everywhere, Routed, Remaining, Enabled, Do, AsAsked;
    InitialOk(max, input, concurrency, i);
    RunKeeps(max, Initial(input, concurrency), es, i);
  }

  /** A run that can go no further has closed `out` after sending every transfer exactly
      once: those the guard refused were passed by, and those it wanted were in the batches. */
  lemma RunEndsComplete(max: nat, input: seq<Item>, concurrency: nat, es: seq<Step>)
    requires max >= 1 && concurrency >= 1
    requires IsRun(max, Initial(input, concurrency), es)
    ensures var s := RunNet(max, Initial(input, concurrency), es);
            && (s.outClosed <==> forall e :: !Enabled(max, s, e))
            && (s.outClosed ==>
                  && multiset(s.out) == multiset(input)
                  && forall i ::
                       && In(s.out, i) == In(s.skipped, i) + InBatches(s.batched, i)
                       && In(s.skipped, i) == In(s.refused, i) && InBatches(s.batched, i) == In(s.wanted, i))
  {
    var s := RunNet(max, Initial(input, concurrency), es);
    hide Everywhere, Routed, Remaining, Enabled, Do, NetOk, AsAsked;
    InitialOk(max, input, concurrency, Key("", "", 0));
    RunKeeps(max, Initial(input, concurrency), es, Key("", "", 0));
    if s.outClosed {
      Closed(max, s, Key("", "", 0));
      forall i
        ensures In(s.out, i) == In(input, i) && In(s.out, i) == In(s.skipped, i) + InBatches(s.batched, i)
        ensures In(s.skipped, i) == In(s.refused, i) && InBatches(s.batched, i) == In(s.wanted, i)
      {
        InitialOk(max, input, concurrency, i);
        RunKeeps(max, Initial(input, concurrency), es, i);
        Closed(max, s, i);
      }
      assert forall i :: multiset(s.out)[i] == In(s.out, i) == In(input, i) == multiset(input)[i];
    } else {
      var e := NeverStuck(max, s);
    }
  }
}
