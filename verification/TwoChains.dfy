/** The two chains as one packet sees them, by the packet rules of ICS-04 for IBC v2:
    the commitment on the source, the receipt and acknowledgement on the destination. */
module TwoChains {
  import opened Wrappers
  import opened Transfers

  /** Why the packet commitment is gone from the source chain, if it is. */
  datatype Outcome = Open | Acked(hash: string) | TimedOut(hash: string)

  datatype World = World(
    received: Option<Tx>,         // the transaction that wrote receipt and acknowledgement
    ack: AckStatus,               // the kind of acknowledgement it wrote
    expired: bool,                // destination block time has reached the packet timeout
    outcome: Outcome,
    ackTxs: set<string>,          // source transactions carrying the packet's ack with its proof
    timeoutTxs: set<string>,      // source transactions carrying a proof of non-receipt
    landed: set<string>)          // those of them that were executed successfully

  datatype ChainEvent =
    | Receive(tx: Tx, ack: AckStatus)
    | Expire
    | SubmitAck(hash: string)
    | SubmitTimeout(hash: string)
    | Land(hash: string)

  /** A packet is received at most once and only before its timeout; an ack needs a proof
      that it was received; a timeout needs a proof, at a destination block past the
      timeout, that it was not. */
  predicate Enabled(w: World, e: ChainEvent) {
    match e
    case Receive(_, _) => w.received.None? && !w.expired
    case Expire => true
    case SubmitAck(h) => w.received.Some? && h !in w.landed
    case SubmitTimeout(h) => w.expired && w.received.None? && h !in w.landed
    case Land(h) => h in w.ackTxs || h in w.timeoutTxs
  }

  /** An ack or timeout whose commitment is already gone executes as a no-op. */
  function Occur(w: World, e: ChainEvent): World {
    match e
    case Receive(tx, a) => w.(received := Some(tx), ack := a)
    case Expire => w.(expired := true)
    case SubmitAck(h) => w.(ackTxs := w.ackTxs + {h})
    case SubmitTimeout(h) => w.(timeoutTxs := w.timeoutTxs + {h})
    case Land(h) =>
      var result := if !w.outcome.Open? then w.outcome
                    else if h in w.ackTxs then Acked(h)
                    else TimedOut(h);
      w.(landed := w.landed + {h}, outcome := result)
  }

  ghost predicate WorldOk(w: World) {
    && (w.ackTxs != {} ==> w.received.Some?)
    && (w.timeoutTxs != {} ==> w.expired && w.received.None?)
    && (w.outcome.Acked? ==> w.outcome.hash in w.ackTxs && w.outcome.hash in w.landed)
    && (w.outcome.TimedOut? ==> w.outcome.hash in w.timeoutTxs && w.outcome.hash in w.landed)
    && (forall h :: h in w.landed && h in w.ackTxs ==> w.outcome.Acked?)
    && (forall h :: h in w.landed && h in w.timeoutTxs ==> w.outcome.TimedOut?)
  }

  /** Facts a client may rely on later: none is ever taken back. */
  ghost predicate Grows(w: World, v: World) {
    && (w.received.Some? ==> v.received == w.received && v.ack == w.ack)
    && (w.expired ==> v.expired)
    && (!w.outcome.Open? ==> v.outcome == w.outcome)
    && w.ackTxs <= v.ackTxs && w.timeoutTxs <= v.timeoutTxs && w.landed <= v.landed
  }

  const UNTOUCHED := World(None, UnknownAck, false, Open, {}, {}, {})

  /** The packet rules keep ack and timeout exclusive: a landed ack means the commitment
      went by an ack, a landed timeout that it went by a timeout, and never both. */
  lemma OccurKeeps(w: World, e: ChainEvent)
    requires WorldOk(w) && Enabled(w, e)
    ensures WorldOk(Occur(w, e)) && Grows(w, Occur(w, e))
  {
    var v := Occur(w, e);
    if e.SubmitAck? {
      assert w.timeoutTxs == {};
    }
    if e.Land? {
      assert e.hash in w.ackTxs ==> w.timeoutTxs == {};
      assert e.hash in w.timeoutTxs ==> w.ackTxs == {};
    }
  }

  /** Both ends are possible: a packet that is received can be acked, and one that is not can,
      once expired, be timed out. */
  lemma BothEndsArePossible(tx: Tx, a: AckStatus, h: string)
    ensures var w := UNTOUCHED;
            && Enabled(w, Receive(tx, a))
            && var w1 := Occur(w, Receive(tx, a));
               && Enabled(w1, SubmitAck(h))
               && var w2 := Occur(w1, SubmitAck(h));
                  Enabled(w2, Land(h)) && Occur(w2, Land(h)).outcome == Acked(h)
    ensures var w := UNTOUCHED;
            && Enabled(w, Expire)
            && var w1 := Occur(w, Expire);
               && Enabled(w1, SubmitTimeout(h)) && !Enabled(w1, Receive(tx, a))
               && var w2 := Occur(w1, SubmitTimeout(h));
                  Enabled(w2, Land(h)) && Occur(w2, Land(h)).outcome == TimedOut(h)
  {
  }
}

/** Terminal statuses mean what they say about the two chains. */
module Soundness {
  import opened Wrappers
  import opened Transfers
  import opened Stages
  import opened Runs
  import opened TwoChains

  /** What a positive answer obliges the chain clients and the proof service to.  Only
      facts that never change are used, so the answers may be older than this state. */
  ghost predicate Honest(w: World, st: Stage, d: Row, r: Reply) {
    match st
    case CheckRecv => r.yes == Got(true) && r.tx.Got? ==> w.received == Some(r.tx.value)
    case CheckCommitment | RecheckCommitment =>
      && (r.yes == Got(false) ==> !w.outcome.Open?)
      && (r.ackTx.Some? ==> r.ackTx.value.hash in w.ackTxs && r.ackTx.value.hash in w.landed)
      && (r.timeoutTx.Some? ==> r.timeoutTx.value.hash in w.timeoutTxs && r.timeoutTx.value.hash in w.landed)
    case BatchTimeout => r.tx.Got? ==> r.tx.value.hash in w.timeoutTxs
    case BatchAck => r.tx.Got? ==> r.tx.value.hash in w.ackTxs
    case RetryTimeout => r.yes == Got(false) && d.timeoutHash.Some? ==> d.timeoutHash.value in w.landed
    case RetryAck => r.yes == Got(false) && d.ackHash.Some? ==> d.ackHash.value in w.landed
    case AwaitWriteAck =>
      r.writeAck.Found? || r.writeAck.Undecodable? ==>
        && w.received.Some? && d.recvHash == Some(w.received.value.hash)
        && w.ack == (if r.writeAck.Found? then r.writeAck.ack else UnknownAck)
    case _ => true
  }

  lemma HonestLater(w: World, v: World, st: Stage, d: Row, r: Reply)
    requires Grows(w, v) && Honest(w, st, d, r)
    ensures Honest(v, st, d, r)
  {
  }

  /** The hashes and the write ack in the row are of transactions on the right chain. */
  ghost predicate Backed(w: World, row: Row) {
    && (row.ackHash.Some? ==> row.ackHash.value in w.ackTxs)
    && (row.timeoutHash.Some? ==> row.timeoutHash.value in w.timeoutTxs)
    && (row.writeAckHash.Some? ==> w.received.Some? && row.writeAckStatus == Some(w.ack))
  }

  /** Past its retry stage, a recorded ack or timeout has been executed. */
  ghost predicate Proven(w: World, i: nat, d: Row) {
    TimeoutProven(w, i, d) && AckProven(w, i, d)
  }

  ghost predicate TimeoutProven(w: World, i: nat, d: Row) {
    6 <= i && d.timeoutHash.Some? ==> d.timeoutHash.value in w.landed
  }

  ghost predicate AckProven(w: World, i: nat, d: Row) {
    15 <= i && d.ackHash.Some? ==> d.ackHash.value in w.landed
  }

  /** A terminal status is true of the chains. */
  ghost predicate Verdict(cfg: Config, w: World, s: Status) {
    match s
    case CompleteWithAck => w.outcome.Acked?
    case CompleteWithTimeout => w.outcome.TimedOut?
    case CompleteWithWriteAckSuccess => w.received.Some? && w.ack.SuccessAck? && !cfg.relaySuccess
    case CompleteWithWriteAckError => w.received.Some? && !w.ack.SuccessAck? && !cfg.relayError
    case _ => true
  }

  datatype System = System(world: World, local: Local)

  datatype Step = Chain(event: ChainEvent) | Relay(move: Event)

  function Next(cfg: Config, p: Packet, s: System, e: Step): System {
    match e
    case Chain(c) => s.(world := Occur(s.world, c))
    case Relay(m) => s.(local := Move(cfg, p, s.local, m))
  }

  /** The chains follow their rules and the clients do not lie. */
  ghost predicate Fair(cfg: Config, p: Packet, s: System, e: Step) {
    match e
    case Chain(c) => Enabled(s.world, c)
    case Relay(m) =>
      m.Advance? && s.local.flight.In? && s.local.flight.pos < LAST ==>
        Honest(s.world, StageAt(s.local.flight.pos), s.local.flight.copy.data, m.reply)
  }

  function RunSystem(cfg: Config, p: Packet, s: System, es: seq<Step>): System
    decreases |es|
  {
    if es == [] then s else RunSystem(cfg, p, Next(cfg, p, s, es[0]), es[1..])
  }

  ghost predicate FairRun(cfg: Config, p: Packet, s: System, es: seq<Step>)
    decreases |es|
  {
    es == [] || (Fair(cfg, p, s, es[0]) && FairRun(cfg, p, Next(cfg, p, s, es[0]), es[1..]))
  }

  ghost predicate SystemOk(cfg: Config, s: System) {
    var w, l := s.world, s.local;
    && WorldOk(w) && LocalOk(l) && Backed(w, l.row) && Verdict(cfg, w, l.row.status)
    && (l.flight.In? && !l.flight.copy.failed ==> Proven(w, l.flight.pos, l.flight.copy.data))
  }

  const INITIAL := System(UNTOUCHED, START)

  /** The update a stage decides on keeps the row backed by the chains. */
  ghost predicate BackedQuery(w: World, q: Query) {
    match q
    case SetAck(tx) => tx.hash in w.ackTxs
    case SetTimeout(tx) => tx.hash in w.timeoutTxs
    case SetWriteAck(_, _, a) => w.received.Some? && w.ack == a
    case SetStatus(s) => !Finished(s)
    case _ => true
  }

  lemma HonestDecides(w: World, st: Stage, d: Row, r: Reply)
    requires Honest(w, st, d, r)
    ensures var e := Decide(st, d, r);
            e.Put? || e.Wipe? || e.Price? ==> BackedQuery(w, e.q)
  {
  }

  lemma BackedAfter(w: World, row: Row, q: Query, wr: Write)
    requires Backed(w, row) && BackedQuery(w, q) && RowOk(row)
    ensures Backed(w, After(row, q, wr))
  {
  }

  lemma ExecuteBacked(st: Stage, x: Image, r: Reply, w: World)
    requires RowOk(x.row) && Backed(w, x.row) && Honest(w, st, x.copy.data, r)
    ensures Backed(w, Execute(x, Decide(st, x.copy.data, r), r).row)
  {
    var e := Decide(st, x.copy.data, r);
    HonestDecides(w, st, x.copy.data, r);
    if e.Put? || e.Wipe? || e.Price? {
      BackedAfter(w, x.row, e.q, r.write);
    }
  }

  lemma ProcessBacked(cfg: Config, p: Packet, st: Stage, x: Image, r: Reply, w: World)
    requires ImageOk(x) && Backed(w, x.row) && Honest(w, st, x.copy.data, r) && !st.Finish?
    ensures Backed(w, Process(cfg, p, st, x, r).row)
  {
    if Admits(cfg, p, st, x, r) {
      var s := SetStatus(StatusOf(st));
      BackedAfter(w, x.row, s, r.stateWrite);
      ExecuteBacked(st, Save(x, s, r.stateWrite), r, w);
    }
  }

  lemma ProcessTimeoutProven(cfg: Config, p: Packet, i: nat, x: Image, r: Reply, w: World)
    requires i < LAST && ImageOk(x) && Honest(w, StageAt(i), x.copy.data, r)
    requires !Finished(x.row.status) && (!x.copy.failed ==> TimeoutProven(w, i, x.copy.data))
    ensures var y := Process(cfg, p, StageAt(i), x, r);
            !y.copy.failed ==> TimeoutProven(w, i + 1, y.copy.data)
  {
  }

  lemma ProcessAckProven(cfg: Config, p: Packet, i: nat, x: Image, r: Reply, w: World)
    requires i < LAST && ImageOk(x) && Honest(w, StageAt(i), x.copy.data, r)
    requires !Finished(x.row.status) && (!x.copy.failed ==> AckProven(w, i, x.copy.data))
    ensures var y := Process(cfg, p, StageAt(i), x, r);
            !y.copy.failed ==> AckProven(w, i + 1, y.copy.data)
  {
  }

  lemma FinishVerdict(cfg: Config, p: Packet, x: Image, r: Reply, w: World)
    requires WorldOk(w) && ImageOk(x) && Backed(w, x.row) && !Finished(x.row.status)
    requires !x.copy.failed ==> Proven(w, LAST - 1, x.copy.data)
    ensures var y := Process(cfg, p, Finish, x, r); Backed(w, y.row) && Verdict(cfg, w, y.row.status)
  {
  }

  lemma StageBacked(cfg: Config, p: Packet, i: nat, x: Image, r: Reply, w: World)
    requires i < LAST && WorldOk(w) && ImageOk(x) && Backed(w, x.row) && !Finished(x.row.status)
    requires Honest(w, StageAt(i), x.copy.data, r) && (!x.copy.failed ==> Proven(w, i, x.copy.data))
    ensures Backed(w, Process(cfg, p, StageAt(i), x, r).row)
  {
    if i == LAST - 1 {
      FinishVerdict(cfg, p, x, r, w);
    } else {
      ProcessBacked(cfg, p, StageAt(i), x, r, w);
    }
  }

  lemma UnfinishedVerdict(cfg: Config, w: World, s: Status)
    requires !Finished(s)
    ensures Verdict(cfg, w, s)
  {
  }

  lemma RelayStep(cfg: Config, p: Packet, s: System, m: Event)
    requires SystemOk(cfg, s) && Fair(cfg, p, s, Relay(m))
    ensures SystemOk(cfg, Next(cfg, p, s, Relay(m)))
  {
    hide Process;
    var w, l := s.world, s.local;
    MoveKeeps(cfg, p, l, m);
    if m.Advance? && l.flight.In? && l.flight.pos < LAST {
      var i, x := l.flight.pos, Image(l.flight.copy, l.row);
      ProcessTimeoutProven(cfg, p, i, x, m.reply, w);
      ProcessAckProven(cfg, p, i, x, m.reply, w);
      StageBacked(cfg, p, i, x, m.reply, w);
      if i == LAST - 1 {
        FinishVerdict(cfg, p, x, m.reply, w);
      } else {
        UnfinishedVerdict(cfg, w, Move(cfg, p, l, m).row.status);
      }
    }
  }

  lemma ChainStep(cfg: Config, p: Packet, s: System, c: ChainEvent)
    requires SystemOk(cfg, s) && Enabled(s.world, c)
    ensures SystemOk(cfg, Next(cfg, p, s, Chain(c)))
  {
    OccurKeeps(s.world, c);
  }

  lemma {:induction false} SystemKeeps(cfg: Config, p: Packet, s: System, es: seq<Step>)
    requires SystemOk(cfg, s) && FairRun(cfg, p, s, es)
    ensures SystemOk(cfg, RunSystem(cfg, p, s, es))
    decreases |es|
  {
    if es != [] {
      match es[0] {
        case Chain(c) => ChainStep(cfg, p, s, c);
        case Relay(m) => RelayStep(cfg, p, s, m);
      }
      SystemKeeps(cfg, p, Next(cfg, p, s, es[0]), es[1..]);
    }
  }

  /** In every run in which the chains follow the packet rules and the clients are honest,
      with any interleaving, any failures and any number of passes: COMPLETE_WITH_ACK is in
      the row only if the source commitment went by an ack, COMPLETE_WITH_TIMEOUT only if it
      went by a timeout, and a write-ack completion only if the packet was received, got that
      kind of ack, and that kind is configured not to be relayed. */
  lemma TerminalStatusIsTrue(cfg: Config, p: Packet, es: seq<Step>)
    requires FairRun(cfg, p, INITIAL, es)
    ensures var s := RunSystem(cfg, p, INITIAL, es);
            var w, status := s.world, s.local.row.status;
            && Verdict(cfg, w, status)
            && (status == CompleteWithAck ==> w.outcome.Acked?)
            && (status == CompleteWithTimeout ==> w.outcome.TimedOut?)
            && (status == CompleteWithWriteAckSuccess ==> w.received.Some? && w.ack == SuccessAck && !cfg.relaySuccess)
            && (status == CompleteWithWriteAckError ==> w.received.Some? && w.ack != SuccessAck && !cfg.relayError)
  {
    hide RunSystem, FairRun;
    SystemKeeps(cfg, p, INITIAL, es);
  }
}
