/** How many passes a transfer needs once nothing goes wrong, and when no number is enough. */
module Progress {
  import opened Wrappers
  import opened Transfers
  import opened Stages
  import opened Runs
  import opened TwoChains
  import opened Soundness

  // ----- a pass in which nothing goes wrong -----

  /** Both guards of the stage let a healthy copy through. */
  predicate Wants(cfg: Config, p: Packet, st: Stage, d: Row, r: Reply) {
    && ShouldProcess(cfg, p, st, d, r.now)
    && (IsBatch(st) ==> ShouldProcess(cfg, p, st, d, r.later))
  }

  /** A transaction hash that is new to the chains. */
  predicate Fresh(w: World, h: string) {
    && h !in w.landed && h !in w.ackTxs && h !in w.timeoutTxs
    && (w.received.Some? ==> h != w.received.value.hash)
  }

  /** Storage works, every call is answered with the truth about `w`, chains are final, and
      what the relayer sends is executed.  The relayer's clock is not behind the destination. */
  predicate Sunny(p: Packet, st: Stage, d: Row, w: World, r: Reply) {
    && r.stateWrite.Stored? && r.write.Stored? && r.now <= r.later
    && (w.expired ==> IsTimedOut(p, r.now))
    && match st
       case CheckRecv =>
         r.yes == Got(w.received.Some?) && (w.received.Some? ==> r.tx == Got(w.received.value))
       case CheckCommitment | RecheckCommitment =>
         && r.yes == Got(w.outcome.Open?)
         && (r.ackTx.Some? <==> w.outcome.Acked?)
         && (r.ackTx.Some? ==> r.ackTx.value.hash == w.outcome.hash)
         && (r.timeoutTx.Some? <==> w.outcome.TimedOut?)
         && (r.timeoutTx.Some? ==> r.timeoutTx.value.hash == w.outcome.hash)
       case CheckSendFinality | CheckTimeoutFinality | CheckWriteAckFinality => r.yes == Got(true)
       case BatchTimeout | BatchRecv | BatchAck => Sent(r) && Fresh(w, r.tx.value.hash)
       case RetryTimeout => r.yes == Got(d.timeoutHash.Some? && d.timeoutHash.value !in w.landed)
       case RetryAck => r.yes == Got(d.ackHash.Some? && d.ackHash.value !in w.landed)
       case RetryRecv =>
         r.yes.Got? && (w.received.Some? && d.recvHash == Some(w.received.value.hash) ==> r.yes == Got(false))
       case TimeoutGasCost | RecvGasCost | AckGasCost => r.gas.Got?
       case AwaitWriteAck =>
         if w.received.Some? && d.recvHash == Some(w.received.value.hash)
         then r.writeAck == Found(w.ack) || (w.ack.UnknownAck? && r.writeAck.Undecodable?)
         else r.writeAck.NotInTx?
       case Finish => true
  }

  /** What the stage's transaction does on chain.  A recv for a packet that was already
      received is a no-op. */
  function Follow(cfg: Config, p: Packet, st: Stage, c: Copy, w: World, r: Reply): World {
    if c.failed || !IsBatch(st) || !Wants(cfg, p, st, c.data, r) || r.tx.NoAnswer? then w
    else
      var tx := r.tx.value;
      match st
      case BatchRecv => if w.received.None? then Occur(w, Receive(tx, w.ack)) else w
      case BatchTimeout => Occur(Occur(Occur(w, Expire), SubmitTimeout(tx.hash)), Land(tx.hash))
      case _ => Occur(Occur(w, SubmitAck(tx.hash)), Land(tx.hash))
  }

  ghost predicate SunnyFrom(cfg: Config, p: Packet, i: nat, x: Image, w: World, rs: seq<Reply>)
    requires i + |rs| == LAST
    decreases |rs|
  {
    rs == [] ||
    (&& Sunny(p, StageAt(i), x.copy.data, w, rs[0])
     && (|rs| > 1 ==> rs[0].later <= rs[1].now)
     && SunnyFrom(cfg, p, i + 1, Process(cfg, p, StageAt(i), x, rs[0]),
                  Follow(cfg, p, StageAt(i), x.copy, w, rs[0]), rs[1..]))
  }

  function FollowFrom(cfg: Config, p: Packet, i: nat, x: Image, w: World, rs: seq<Reply>): World
    requires i + |rs| == LAST
    decreases |rs|
  {
    if rs == [] then w
    else FollowFrom(cfg, p, i + 1, Process(cfg, p, StageAt(i), x, rs[0]),
                    Follow(cfg, p, StageAt(i), x.copy, w, rs[0]), rs[1..])
  }

  /** The row records only transactions that took effect. */
  ghost predicate Settled(row: Row, w: World) {
    && (row.recvHash.Some? ==> w.received.Some? && row.recvHash.value == w.received.value.hash)
    && (row.ackHash.Some? ==> row.ackHash.value in w.ackTxs && row.ackHash.value in w.landed)
    && (row.timeoutHash.Some? ==> row.timeoutHash.value in w.timeoutTxs && row.timeoutHash.value in w.landed)
    && (row.writeAckHash.Some? ==> row.writeAckStatus == Some(w.ack))
  }

  predicate AckHasRecv(row: Row) {
    row.ackHash.Some? ==> row.recvHash.Some?
  }

  // ----- one sunny pass finishes, unless the clock crosses the timeout inside it -----

  /** The stage's result in memory when no write fails. */
  function NextData(cfg: Config, p: Packet, st: Stage, d: Row, r: Reply): Row {
    if !Wants(cfg, p, st, d, r) then d
    else
      var shown := d.(status := StatusOf(st));
      match Decide(st, shown, r)
      case Put(q) => Change(shown, q)
      case NoteFinal => shown.(writeAckFinal := Some(r.later))
      case _ => shown
  }

  lemma HealthyProcess(cfg: Config, p: Packet, st: Stage, x: Image, r: Reply)
    requires !x.copy.failed && !x.copy.data.status.Failed? && !st.Finish?
    requires r.stateWrite.Stored? && r.write.Stored?
    requires Wants(cfg, p, st, x.copy.data, r) ==>
               var e := Decide(st, x.copy.data.(status := StatusOf(st)), r); !e.Halt? && !e.Wipe?
    ensures Process(cfg, p, st, x, r).copy == Copy(NextData(cfg, p, st, x.copy.data, r), false)
  {
  }

  /** What is settled before stage `i`; `c4` and `c7` are the clocks at which the timeout
      batch and the recv batch were last decided. */
  ghost predicate OnTrack(cfg: Config, p: Packet, i: nat, d: Row, w: World, c4: Time, c7: Time) {
    && WorldOk(w) && Settled(d, w) && AckHasRecv(d)
    && (i >= 1 && d.recvHash.None? && d.ackHash.None? && d.timeoutHash.None? ==> w.received.None?)
    && (i >= 2 && d.ackHash.None? && d.timeoutHash.None? ==> w.outcome.Open?)
    && (i >= 5 && d.timeoutHash.None? && d.recvHash.None? ==> !IsTimedOut(p, c4))
    && (i >= 8 && d.timeoutHash.None? && d.recvHash.None? ==> IsTimedOut(p, c7))
    && (i >= 11 && d.timeoutHash.None? && d.recvHash.Some? ==> d.writeAckHash.Some?)
    && (i >= 14 && d.timeoutHash.None? && d.writeAckHash.Some? && Relays(cfg, w.ack) ==> d.ackHash.Some?)
  }

  lemma SunnyDecides(cfg: Config, p: Packet, i: nat, d: Row, w: World, r: Reply, c4: Time, c7: Time)
    requires i < LAST - 1 && OnTrack(cfg, p, i, d, w, c4, c7)
    requires Sunny(p, StageAt(i), d, w, r) && Wants(cfg, p, StageAt(i), d, r)
    ensures var e := Decide(StageAt(i), d.(status := StatusOf(StageAt(i))), r); !e.Halt? && !e.Wipe?
  {
  }

  lemma TrackTimeout(cfg: Config, p: Packet, d: Row, w: World, r: Reply, c4: Time, c7: Time)
    requires RowOk(d.(writeAckFinal := None)) && OnTrack(cfg, p, 4, d, w, c4, c7)
    requires Sunny(p, BatchTimeout, d, w, r) && c4 == r.now
    ensures OnTrack(cfg, p, 5, NextData(cfg, p, BatchTimeout, d, r), Follow(cfg, p, BatchTimeout, Copy(d, false), w, r), c4, c7)
  {
  }

  lemma TrackRecv(cfg: Config, p: Packet, d: Row, w: World, r: Reply, c4: Time, c7: Time)
    requires RowOk(d.(writeAckFinal := None)) && OnTrack(cfg, p, 7, d, w, c4, c7)
    requires Sunny(p, BatchRecv, d, w, r) && c7 == r.later
    ensures OnTrack(cfg, p, 8, NextData(cfg, p, BatchRecv, d, r), Follow(cfg, p, BatchRecv, Copy(d, false), w, r), c4, c7)
  {
  }

  lemma TrackAck(cfg: Config, p: Packet, d: Row, w: World, r: Reply, c4: Time, c7: Time)
    requires RowOk(d.(writeAckFinal := None)) && OnTrack(cfg, p, 13, d, w, c4, c7)
    requires Sunny(p, BatchAck, d, w, r)
    ensures OnTrack(cfg, p, 14, NextData(cfg, p, BatchAck, d, r), Follow(cfg, p, BatchAck, Copy(d, false), w, r), c4, c7)
  {
  }

  lemma TrackEarly(cfg: Config, p: Packet, i: nat, d: Row, w: World, r: Reply, c4: Time, c7: Time)
    requires i < 7 && !IsBatch(StageAt(i))
    requires RowOk(d.(writeAckFinal := None)) && OnTrack(cfg, p, i, d, w, c4, c7)
    requires Sunny(p, StageAt(i), d, w, r)
    ensures OnTrack(cfg, p, i + 1, NextData(cfg, p, StageAt(i), d, r), w, c4, c7)
  {
  }

  lemma TrackLate(cfg: Config, p: Packet, i: nat, d: Row, w: World, r: Reply, c4: Time, c7: Time)
    requires 7 <= i < LAST - 1 && !IsBatch(StageAt(i))
    requires RowOk(d.(writeAckFinal := None)) && OnTrack(cfg, p, i, d, w, c4, c7)
    requires Sunny(p, StageAt(i), d, w, r)
    ensures OnTrack(cfg, p, i + 1, NextData(cfg, p, StageAt(i), d, r), w, c4, c7)
  {
  }

  lemma TrackQuiet(cfg: Config, p: Packet, i: nat, d: Row, w: World, r: Reply, c4: Time, c7: Time)
    requires i < LAST - 1 && !IsBatch(StageAt(i))
    requires RowOk(d.(writeAckFinal := None)) && OnTrack(cfg, p, i, d, w, c4, c7)
    requires Sunny(p, StageAt(i), d, w, r)
    ensures OnTrack(cfg, p, i + 1, NextData(cfg, p, StageAt(i), d, r), w, c4, c7)
  {
    hide OnTrack, NextData, Sunny, RowOk;
    if i < 7 { TrackEarly(cfg, p, i, d, w, r, c4, c7); } else { TrackLate(cfg, p, i, d, w, r, c4, c7); }
  }

  /** A healthy copy on track before stage `i`. */
  ghost predicate Underway(cfg: Config, p: Packet, i: nat, x: Image, w: World, c4: Time, c7: Time) {
    && !x.copy.failed && ImageOk(x) && !Finished(x.row.status)
    && OnTrack(cfg, p, i, x.copy.data, w, c4, c7)
  }

  lemma UnderwayStep(cfg: Config, p: Packet, i: nat, x: Image, w: World, r: Reply, c4: Time, c7: Time)
    requires i < LAST - 1 && Underway(cfg, p, i, x, w, c4, c7)
    requires Sunny(p, StageAt(i), x.copy.data, w, r)
    requires (i == 4 ==> c4 == r.now) && (i == 7 ==> c7 == r.later)
    ensures Underway(cfg, p, i + 1, Process(cfg, p, StageAt(i), x, r),
                     Follow(cfg, p, StageAt(i), x.copy, w, r), c4, c7)
  {
    hide Process, NextData, Decide;
    var st, d := StageAt(i), x.copy.data;
    ProcessKeeps(cfg, p, st, x, r);
    if Wants(cfg, p, st, d, r) {
      SunnyDecides(cfg, p, i, d, w, r, c4, c7);
    }
    HealthyProcess(cfg, p, st, x, r);
    if i == 4 {
      TrackTimeout(cfg, p, d, w, r, c4, c7);
    } else if i == 7 {
      TrackRecv(cfg, p, d, w, r, c4, c7);
    } else if i == 13 {
      TrackAck(cfg, p, d, w, r, c4, c7);
    } else {
      TrackQuiet(cfg, p, i, d, w, r, c4, c7);
    }
  }

  /** The pass did nothing lasting because the clock crossed the timeout between the
      timeout batch (`c4`) and the recv batch (`c7`). */
  ghost predicate Wasted(p: Packet, row: Row, w: World, c4: Time, c7: Time) {
    && row.recvHash.None? && row.ackHash.None? && row.timeoutHash.None?
    && !IsTimedOut(p, c4) && IsTimedOut(p, c7)
    && RowOk(row) && WorldOk(w) && Settled(row, w)
  }

  lemma FinishUnderway(cfg: Config, p: Packet, x: Image, w: World, r: Reply, c4: Time, c7: Time)
    requires Underway(cfg, p, LAST - 1, x, w, c4, c7) && r.write.Stored?
    ensures var row := Process(cfg, p, Finish, x, r).row;
            Finished(row.status) || Wasted(p, row, w, c4, c7)
  {
  }

  lemma {:induction false} SunnyRun(cfg: Config, p: Packet, i: nat, x: Image, w: World, rs: seq<Reply>, c4: Time, c7: Time)
    requires i + |rs| == LAST && rs != []
    requires Underway(cfg, p, i, x, w, c4, c7) && SunnyFrom(cfg, p, i, x, w, rs)
    requires (i <= 4 ==> c4 == rs[4 - i].now) && (i <= 7 ==> c7 == rs[7 - i].later)
    ensures var row := RunFrom(cfg, p, i, x, rs).row;
            Finished(row.status) || Wasted(p, row, FollowFrom(cfg, p, i, x, w, rs), c4, c7)
    decreases |rs|
  {
    hide Process, Follow;
    var st := StageAt(i);
    var y, v := Process(cfg, p, st, x, rs[0]), Follow(cfg, p, st, x.copy, w, rs[0]);
    if |rs| == 1 {
      FinishUnderway(cfg, p, x, w, rs[0], c4, c7);
      assert v == w by { FollowFinish(cfg, p, x.copy, w, rs[0]); }
    } else {
      UnderwayStep(cfg, p, i, x, w, rs[0], c4, c7);
      SunnyRun(cfg, p, i + 1, y, v, rs[1..], c4, c7);
    }
  }

  lemma FollowFinish(cfg: Config, p: Packet, c: Copy, w: World, r: Reply)
    ensures Follow(cfg, p, Finish, c, w, r) == w
  {
  }

  lemma {:induction false} ClockRises(cfg: Config, p: Packet, i: nat, x: Image, w: World, rs: seq<Reply>, k: nat)
    requires i + |rs| == LAST && k < |rs| && SunnyFrom(cfg, p, i, x, w, rs)
    ensures rs[0].now <= rs[k].now && rs[k].later <= rs[|rs| - 1].later
    decreases |rs|
  {
    hide Process, Follow;
    if |rs| > 1 {
      var y, v := Process(cfg, p, StageAt(i), x, rs[0]), Follow(cfg, p, StageAt(i), x.copy, w, rs[0]);
      ClockRises(cfg, p, i + 1, y, v, rs[1..], if k == 0 then 0 else k - 1);
      assert Sunny(p, StageAt(i + 1), y.copy.data, v, rs[1]);
    }
  }

  ghost predicate SunnyPass(cfg: Config, p: Packet, row: Row, w: World, rs: seq<Reply>) {
    |rs| == LAST && SunnyFrom(cfg, p, 0, Image(Load(row), row), w, rs)
  }

  function PassWorld(cfg: Config, p: Packet, row: Row, w: World, rs: seq<Reply>): World
    requires |rs| == LAST
  {
    FollowFrom(cfg, p, 0, Image(Load(row), row), w, rs)
  }

  /** One pass in which nothing goes wrong finishes every settled row whose ack comes with a
      recv, unless the clock crosses the packet timeout during the pass. */
  lemma OnePass(cfg: Config, p: Packet, row: Row, w: World, rs: seq<Reply>)
    requires RowOk(row) && !Finished(row.status) && WorldOk(w) && Settled(row, w) && AckHasRecv(row)
    requires SunnyPass(cfg, p, row, w, rs)
    ensures var after := RunPass(cfg, p, row, rs).row;
            Finished(after.status)
            || Wasted(p, after, PassWorld(cfg, p, row, w, rs), rs[4].now, rs[7].later)
  {
    hide Process, Follow;
    SunnyRun(cfg, p, 0, Image(Load(row), row), w, rs, rs[4].now, rs[7].later);
  }

  /** Two consecutive passes in which nothing goes wrong always finish such a row. */
  lemma TwoPasses(cfg: Config, p: Packet, row: Row, w: World, first: seq<Reply>, second: seq<Reply>)
    requires RowOk(row) && !Finished(row.status) && WorldOk(w) && Settled(row, w) && AckHasRecv(row)
    requires SunnyPass(cfg, p, row, w, first)
    requires var mid := RunPass(cfg, p, row, first).row;
             !Finished(mid.status) ==>
               && SunnyPass(cfg, p, mid, PassWorld(cfg, p, row, w, first), second)
               && first[LAST - 1].later <= second[0].now
    ensures var mid := RunPass(cfg, p, row, first).row;
            Finished(mid.status) || Finished(RunPass(cfg, p, mid, second).row.status)
  {
    hide RunFrom, SunnyFrom, FollowFrom;
    OnePass(cfg, p, row, w, first);
    var mid := RunPass(cfg, p, row, first).row;
    if !Finished(mid.status) {
      ClockRises(cfg, p, 0, Image(Load(row), row), w, first, 7);
      ClockRises(cfg, p, 0, Image(Load(mid), mid), PassWorld(cfg, p, row, w, first), second, 4);
      OnePass(cfg, p, mid, PassWorld(cfg, p, row, w, first), second);
    }
  }

  // ----- a row with an ack but without a recv -----

  predicate Complete(s: Status) {
    Finished(s) && !s.Failed?
  }

  /** The packet was received and acked by others; the row has the ack, but not the
      transaction that received it. */
  ghost predicate Orphaned(row: Row, w: World) {
    && RowOk(row) && WorldOk(w)
    && row.ackHash.Some? && row.ackHash.value in w.ackTxs && row.ackHash.value in w.landed
    && row.writeAckHash.None? && row.timeoutHash.None?
    && w.received.Some? && row.recvHash != Some(w.received.value.hash)
    && !Complete(row.status)
  }

  /** An executed transaction is not to be retried, and what is sent now is not the
      transaction that received the packet before. */
  ghost predicate Truthful(w: World, st: Stage, d: Row, r: Reply) {
    match st
    case RetryAck => d.ackHash.Some? && d.ackHash.value in w.landed ==> r.yes != Got(true)
    case BatchRecv => r.tx.Got? && w.received.Some? ==> r.tx.value.hash != w.received.value.hash
    case AwaitWriteAck => Honest(w, st, d, r)
    case _ => true
  }

  /** The updates that leave such a row as it is in what matters. */
  ghost predicate Harmless(w: World, q: Query) {
    match q
    case SetStatus(s) => !Complete(s)
    case SetRecv(tx) => w.received.Some? && tx.hash != w.received.value.hash
    case SetSourceFinal(_) | ClearRecv | SetRecvGas(_) | SetAckGas(_) | SetTimeoutGas(_) => true
    case _ => false
  }

  lemma OrphanDecides(cfg: Config, p: Packet, st: Stage, d: Row, r: Reply, w: World)
    requires Orphaned(d.(writeAckFinal := None), w) && Truthful(w, st, d, r)
    requires !st.Finish? && ShouldProcess(cfg, p, st, d, r.now)
    ensures var e := Decide(st, d, r);
            e.Put? || e.Wipe? || e.Price? ==> Harmless(w, e.q)
  {
  }

  lemma HarmlessKeeps(row: Row, w: World, q: Query, wr: Write)
    requires Orphaned(row, w) && Harmless(w, q)
    ensures Orphaned(After(row, q, wr), w)
  {
  }

  lemma OrphanHandled(cfg: Config, p: Packet, st: Stage, x: Image, r: Reply, w: World)
    requires ImageOk(x) && Orphaned(x.row, w) && Truthful(w, st, x.copy.data, r)
    requires !st.Finish? && Admits(cfg, p, st, x, r)
    ensures Orphaned(Handle(st, x, r).row, w)
  {
    hide Decide, ShouldProcess, Harmless;
    var s := StatusOf(st);
    var y, d := Save(x, SetStatus(s), r.stateWrite), x.copy.data.(status := s);
    StatusIsHarmless(w, st);
    HarmlessKeeps(x.row, w, SetStatus(s), r.stateWrite);
    if r.stateWrite.Stored? {
      StatusIsIgnored(cfg, p, st, x.copy.data, s, r, w);
      OrphanDecides(cfg, p, st, d, r, w);
      var e := Decide(st, d, r);
      if e.Put? || e.Wipe? || e.Price? {
        HarmlessKeeps(y.row, w, e.q, r.write);
      }
    }
  }

  lemma StatusIsHarmless(w: World, st: Stage)
    requires !st.Finish?
    ensures Harmless(w, SetStatus(StatusOf(st)))
  {
  }

  lemma StatusIsIgnored(cfg: Config, p: Packet, st: Stage, d: Row, s: Status, r: Reply, w: World)
    requires Truthful(w, st, d, r) && ShouldProcess(cfg, p, st, d, r.now)
    ensures Truthful(w, st, d.(status := s), r) && ShouldProcess(cfg, p, st, d.(status := s), r.now)
  {
  }

  lemma OrphanStep(cfg: Config, p: Packet, st: Stage, x: Image, r: Reply, w: World)
    requires ImageOk(x) && Orphaned(x.row, w) && Truthful(w, st, x.copy.data, r)
    ensures Orphaned(Process(cfg, p, st, x, r).row, w)
  {
    hide Handle;
    if !st.Finish? && Admits(cfg, p, st, x, r) {
      OrphanHandled(cfg, p, st, x, r, w);
    }
  }

  ghost predicate TruthfulStep(cfg: Config, p: Packet, s: System, e: Step) {
    && Fair(cfg, p, s, e)
    && (var l := s.local;
        e.Relay? && e.move.Advance? && l.flight.In? && l.flight.pos < LAST ==>
          Truthful(s.world, StageAt(l.flight.pos), l.flight.copy.data, e.move.reply))
  }

  ghost predicate TruthfulRun(cfg: Config, p: Packet, s: System, es: seq<Step>)
    decreases |es|
  {
    es == [] || (TruthfulStep(cfg, p, s, es[0]) && TruthfulRun(cfg, p, Next(cfg, p, s, es[0]), es[1..]))
  }

  lemma OrphanLater(row: Row, w: World, e: ChainEvent)
    requires Orphaned(row, w) && Enabled(w, e)
    ensures Orphaned(row, Occur(w, e))
  {
    OccurKeeps(w, e);
  }

  lemma OrphanNext(cfg: Config, p: Packet, s: System, e: Step)
    requires SystemOk(cfg, s) && Orphaned(s.local.row, s.world) && TruthfulRun(cfg, p, s, [e])
    ensures SystemOk(cfg, Next(cfg, p, s, e))
    ensures Orphaned(Next(cfg, p, s, e).local.row, Next(cfg, p, s, e).world)
  {
    hide Process;
    match e {
      case Chain(c) =>
        ChainStep(cfg, p, s, c);
        OrphanLater(s.local.row, s.world, c);
      case Relay(m) =>
        var l := s.local;
        RelayStep(cfg, p, s, m);
        if m.Advance? && l.flight.In? && l.flight.pos < LAST {
          OrphanStep(cfg, p, StageAt(l.flight.pos), Image(l.flight.copy, l.row), m.reply, s.world);
        }
    }
  }

  /** Such a row never completes, whatever happens afterwards and in however many passes:
      with an ack recorded the receipt is not looked up again, so no write ack is ever found. */
  lemma {:induction false} OrphanNeverCompletes(cfg: Config, p: Packet, s: System, es: seq<Step>)
    requires SystemOk(cfg, s) && Orphaned(s.local.row, s.world) && TruthfulRun(cfg, p, s, es)
    ensures !Complete(RunSystem(cfg, p, s, es).local.row.status)
    decreases |es|
  {
    if es != [] {
      assert TruthfulRun(cfg, p, s, [es[0]]) by {
        assert [es[0]][1..] == [];
      }
      OrphanNext(cfg, p, s, es[0]);
      OrphanNeverCompletes(cfg, p, Next(cfg, p, s, es[0]), es[1..]);
    }
  }

  const NOTHING_YET := Reply(0, 0, Stored, Got(false), NoAnswer, None, None, CallFailed, NoAnswer, false, Stored)

  const ACK_FOUND := NOTHING_YET.(ackTx := Some(Tx("ack", 2)))

  const MISSED := NEW_ROW.(status := CheckRecvPacketDelivery)

  const ADOPTED := NEW_ROW.(status := CheckAckPacketDelivery, ackHash := Some("ack"), ackTime := Some(2))

  /** The receipt check finds nothing; the commitment check after the race finds the ack. */
  lemma RaceInPipeline(cfg: Config, p: Packet)
    ensures Move(cfg, p, START, Enter) == Local(NEW_ROW, In(0, Load(NEW_ROW)))
    ensures Move(cfg, p, Local(NEW_ROW, In(0, Load(NEW_ROW))), Advance(NOTHING_YET)) == Local(MISSED, In(1, Load(MISSED)))
    ensures Move(cfg, p, Local(MISSED, In(1, Load(MISSED))), Advance(ACK_FOUND)) == Local(ADOPTED, In(2, Load(ADOPTED)))
  {
  }

  const DELIVERED := UNTOUCHED.(received := Some(Tx("recv", 1)), ack := SuccessAck)

  const ACKED_WORLD := DELIVERED.(ackTxs := {"ack"}, landed := {"ack"}, outcome := Acked("ack"))

  lemma RaceOnChain()
    ensures Enabled(UNTOUCHED, Receive(Tx("recv", 1), SuccessAck))
    ensures Occur(UNTOUCHED, Receive(Tx("recv", 1), SuccessAck)) == DELIVERED
    ensures Enabled(DELIVERED, SubmitAck("ack")) && Occur(DELIVERED, SubmitAck("ack")) == DELIVERED.(ackTxs := {"ack"})
    ensures Enabled(DELIVERED.(ackTxs := {"ack"}), Land("ack"))
    ensures Occur(DELIVERED.(ackTxs := {"ack"}), Land("ack")) == ACKED_WORLD
  {
  }

  /** The race that makes such a row: another relayer delivers both the recv and the ack
      between this relayer's receipt check and its commitment check. */
  lemma OrphanIsReachable(cfg: Config, p: Packet) returns (es: seq<Step>)
    ensures FairRun(cfg, p, INITIAL, es) && TruthfulRun(cfg, p, INITIAL, es)
    ensures var s := RunSystem(cfg, p, INITIAL, es);
            SystemOk(cfg, s) && Orphaned(s.local.row, s.world)
  {
    var e0, e1 := Relay(Enter), Relay(Advance(NOTHING_YET));
    var e2, e3, e4 := Chain(Receive(Tx("recv", 1), SuccessAck)), Chain(SubmitAck("ack")), Chain(Land("ack"));
    var e5 := Relay(Advance(ACK_FOUND));
    var l1, l2, l3 := Local(NEW_ROW, In(0, Load(NEW_ROW))), Local(MISSED, In(1, Load(MISSED))), Local(ADOPTED, In(2, Load(ADOPTED)));
    es := [e0] + [e1, e2, e3, e4, e5];
    hide Move, Occur, Enabled, SystemOk;
    RaceInPipeline(cfg, p);
    RaceOnChain();
    StepRun(cfg, p, System(ACKED_WORLD, l2), e5, []);
    StepRun(cfg, p, System(DELIVERED.(ackTxs := {"ack"}), l2), e4, [e5]);
    StepRun(cfg, p, System(DELIVERED, l2), e3, [e4, e5]);
    StepRun(cfg, p, System(UNTOUCHED, l2), e2, [e3, e4, e5]);
    StepRun(cfg, p, System(UNTOUCHED, l1), e1, [e2, e3, e4, e5]);
    StepRun(cfg, p, INITIAL, e0, [e1, e2, e3, e4, e5]);
    SystemKeeps(cfg, p, INITIAL, es);
  }

  lemma StepRun(cfg: Config, p: Packet, s: System, e: Step, es: seq<Step>)
    ensures RunSystem(cfg, p, s, [e] + es) == RunSystem(cfg, p, Next(cfg, p, s, e), es)
    ensures FairRun(cfg, p, s, [e] + es) == (Fair(cfg, p, s, e) && FairRun(cfg, p, Next(cfg, p, s, e), es))
    ensures TruthfulRun(cfg, p, s, [e] + es) == (TruthfulStep(cfg, p, s, e) && TruthfulRun(cfg, p, Next(cfg, p, s, e), es))
  {
    assert ([e] + es)[1..] == es;
  }

  lemma OrphanFollow(cfg: Config, p: Packet, st: Stage, x: Image, w: World, r: Reply)
    requires ImageOk(x) && Orphaned(x.row, w) && Sunny(p, st, x.copy.data, w, r)
    ensures Follow(cfg, p, st, x.copy, w, r) == w && Truthful(w, st, x.copy.data, r)
  {
  }

  lemma {:induction false} OrphanPass(cfg: Config, p: Packet, i: nat, x: Image, w: World, rs: seq<Reply>)
    requires i + |rs| == LAST && SunnyFrom(cfg, p, i, x, w, rs)
    requires ImageOk(x) && Orphaned(x.row, w) && !x.row.status.Failed?
    ensures Orphaned(RunFrom(cfg, p, i, x, rs).row, w) && FollowFrom(cfg, p, i, x, w, rs) == w
    ensures !RunFrom(cfg, p, i, x, rs).row.status.Failed?
    decreases |rs|
  {
    hide Process, Follow;
    if rs != [] {
      var st := StageAt(i);
      OrphanFollow(cfg, p, st, x, w, rs[0]);
      OrphanStep(cfg, p, st, x, rs[0], w);
      ProcessKeeps(cfg, p, st, x, rs[0]);
      OrphanPass(cfg, p, i + 1, Process(cfg, p, st, x, rs[0]), w, rs[1..]);
    }
  }

  /** Exactly when two passes in which nothing goes wrong finish a settled row: its ack, if
      it has one, must come with a recv. */
  lemma TwoPassesIff(cfg: Config, p: Packet, row: Row, w: World, first: seq<Reply>, second: seq<Reply>)
    requires RowOk(row) && !Finished(row.status) && WorldOk(w) && Settled(row, w)
    requires SunnyPass(cfg, p, row, w, first)
    requires var mid := RunPass(cfg, p, row, first).row;
             !Finished(mid.status) ==>
               && SunnyPass(cfg, p, mid, PassWorld(cfg, p, row, w, first), second)
               && first[LAST - 1].later <= second[0].now
    ensures var mid := RunPass(cfg, p, row, first).row;
            (Finished(mid.status) || Finished(RunPass(cfg, p, mid, second).row.status)) <==> AckHasRecv(row)
  {
    hide RunFrom, SunnyFrom, FollowFrom;
    if AckHasRecv(row) {
      TwoPasses(cfg, p, row, w, first, second);
    } else {
      OrphanPass(cfg, p, 0, Image(Load(row), row), w, first);
      var mid := RunPass(cfg, p, row, first).row;
      OrphanPass(cfg, p, 0, Image(Load(mid), mid), w, second);
    }
  }

  // ----- such passes exist, from every row and every state of the chains -----

  lemma {:induction false} LongerThanAll(ss: set<string>) returns (n: nat)
    ensures forall s :: s in ss ==> |s| < n
  {
    n := 0;
    if ss != {} {
      var s :| s in ss;
      var m := LongerThanAll(ss - {s});
      n := if m > |s| then m else |s| + 1;
    }
  }

  lemma FreshExists(w: World) returns (h: string)
    ensures Fresh(w, h)
  {
    var used := w.landed + w.ackTxs + w.timeoutTxs + (if w.received.Some? then {w.received.value.hash} else {});
    var n := LongerThanAll(used);
    h := seq(n, _ => 'a');
    assert h !in used;
  }

  /** The answers of a stage when nothing goes wrong, at any time that is not behind the chains. */
  lemma SunnyExists(p: Packet, st: Stage, d: Row, w: World, t: Time) returns (r: Reply)
    requires w.expired ==> IsTimedOut(p, t)
    ensures Sunny(p, st, d, w, r) && r.now == t == r.later
  {
    var h := FreshExists(w);
    var base := Reply(t, t, Stored, Got(true), Got(Tx(h, t)), None, None, NotInTx, Got(None), true, Stored);
    match st {
      case CheckRecv =>
        r := base.(yes := Got(w.received.Some?), tx := if w.received.Some? then Got(w.received.value) else NoAnswer);
      case CheckCommitment =>
        r := SunnyCommitment(base, w);
      case RecheckCommitment =>
        r := SunnyCommitment(base, w);
      case RetryTimeout => r := base.(yes := Got(d.timeoutHash.Some? && d.timeoutHash.value !in w.landed));
      case RetryAck => r := base.(yes := Got(d.ackHash.Some? && d.ackHash.value !in w.landed));
      case RetryRecv => r := base.(yes := Got(false));
      case AwaitWriteAck =>
        r := if w.received.Some? && d.recvHash == Some(w.received.value.hash) then base.(writeAck := Found(w.ack)) else base;
      case _ => r := base;
    }
  }

  lemma SunnyCommitment(base: Reply, w: World) returns (r: Reply)
    ensures r.yes == Got(w.outcome.Open?)
    ensures (r.ackTx.Some? <==> w.outcome.Acked?) && (r.ackTx.Some? ==> r.ackTx.value.hash == w.outcome.hash)
    ensures (r.timeoutTx.Some? <==> w.outcome.TimedOut?) && (r.timeoutTx.Some? ==> r.timeoutTx.value.hash == w.outcome.hash)
    ensures r == base.(yes := r.yes, ackTx := r.ackTx, timeoutTx := r.timeoutTx)
  {
    r := base.(yes := Got(w.outcome.Open?),
               ackTx := if w.outcome.Acked? then Some(Tx(w.outcome.hash, 0)) else None,
               timeoutTx := if w.outcome.TimedOut? then Some(Tx(w.outcome.hash, 0)) else None);
  }

  lemma FollowExpires(cfg: Config, p: Packet, st: Stage, c: Copy, w: World, r: Reply)
    requires w.expired ==> IsTimedOut(p, r.now)
    ensures Follow(cfg, p, st, c, w, r).expired ==> IsTimedOut(p, r.now)
  {
  }

  lemma {:induction false} SunnyRestExists(cfg: Config, p: Packet, i: nat, n: nat, x: Image, w: World, t: Time) returns (rs: seq<Reply>)
    requires i + n == LAST && (w.expired ==> IsTimedOut(p, t))
    ensures |rs| == n && SunnyFrom(cfg, p, i, x, w, rs)
    ensures forall k :: 0 <= k < n ==> rs[k].now == t == rs[k].later
    decreases n
  {
    hide Process, Follow, Sunny, StageAt;
    rs := [];
    if n > 0 {
      var st := StageAt(i);
      var r := SunnyExists(p, st, x.copy.data, w, t);
      FollowExpires(cfg, p, st, x.copy, w, r);
      var rest := SunnyRestExists(cfg, p, i + 1, n - 1, Process(cfg, p, st, x, r), Follow(cfg, p, st, x.copy, w, r), t);
      rs := [r] + rest;
      assert rs[1..] == rest;
    }
  }

  /** From every row and every state of the chains there is a pass in which nothing goes wrong,
      at any time that is not behind the chains: what is said of such passes is said of some. */
  lemma SunnyPassExists(cfg: Config, p: Packet, row: Row, w: World, t: Time) returns (rs: seq<Reply>)
    requires w.expired ==> IsTimedOut(p, t)
    ensures SunnyPass(cfg, p, row, w, rs) && forall k :: 0 <= k < |rs| ==> rs[k].now == t == rs[k].later
  {
    hide SunnyFrom;
    rs := SunnyRestExists(cfg, p, 0, LAST, Image(Load(row), row), w, t);
  }
}
