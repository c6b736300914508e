/** Which acks are relayed: the configuration's two switches over every pass, and what becomes of a
    transfer whose kind of ack is switched on or off. */
module Policy {
  import opened Wrappers
  import opened Transfers
  import opened Stages
  import opened Runs
  import opened TwoChains
  import opened Soundness
  import opened Gating
  import opened Progress

  /** The switches as the configuration has them: an ack that could not be decoded counts as an
      error. */
  predicate Permitted(cfg: Config, a: AckStatus) {
    match a
    case SuccessAck => cfg.relaySuccess
    case ErrorAck => cfg.relayError
    case UnknownAck => cfg.relayError
  }

  // ----- no pass sends an ack that is switched off -----

  lemma {:induction false} RestKeeps(cfg: Config, p: Packet, i: nat, x: Image, rs: seq<Reply>)
    requires i + |rs| == LAST && ImageOk(x)
    ensures WriteAckFixed(x.row, RunFrom(cfg, p, i, x, rs).row)
    decreases |rs|
  {
    hide Process, ImageOk, StageAt;
    if rs != [] {
      var y := Process(cfg, p, StageAt(i), x, rs[0]);
      ProcessKeeps(cfg, p, StageAt(i), x, rs[0]);
      RestKeeps(cfg, p, i + 1, y, rs[1..]);
    }
  }

  lemma StageIsPermitted(cfg: Config, p: Packet, st: Stage, x: Image, r: Reply, h: string, proven: string)
    requires ImageOk(x) && AckSent(h, proven) in Acts(cfg, p, st, x, r)
    ensures x.row.writeAckHash == Some(proven) && x.row.writeAckStatus.Some?
    ensures Permitted(cfg, x.row.writeAckStatus.value)
  {
  }

  lemma {:induction false} RestIsPermitted(cfg: Config, p: Packet, i: nat, x: Image, rs: seq<Reply>, h: string, proven: string)
    requires i + |rs| == LAST && ImageOk(x) && AckSent(h, proven) in TraceFrom(cfg, p, i, x, rs)
    ensures var row := RunFrom(cfg, p, i, x, rs).row;
            row.writeAckHash == Some(proven) && row.writeAckStatus.Some? && Permitted(cfg, row.writeAckStatus.value)
    decreases |rs|
  {
    hide Process, Acts, ImageOk, StageAt, Permitted;
    var y := Process(cfg, p, StageAt(i), x, rs[0]);
    if AckSent(h, proven) in Acts(cfg, p, StageAt(i), x, rs[0]) {
      StageIsPermitted(cfg, p, StageAt(i), x, rs[0], h, proven);
      RestKeeps(cfg, p, i, x, rs);
    } else {
      ProcessKeeps(cfg, p, StageAt(i), x, rs[0]);
      RestIsPermitted(cfg, p, i + 1, y, rs[1..], h, proven);
    }
  }

  /** Every ack that goes out in any pass, whatever is answered and however writes end, is for
      the write ack in the row, and its kind is switched on. */
  lemma PolicyIsKept(cfg: Config, p: Packet, row: Row, rs: seq<Reply>, h: string, proven: string)
    requires |rs| == LAST && RowOk(row) && AckSent(h, proven) in Trace(cfg, p, row, rs)
    ensures var after := RunPass(cfg, p, row, rs).row;
            after.writeAckHash == Some(proven) && after.writeAckStatus.Some? && Permitted(cfg, after.writeAckStatus.value)
  {
    hide TraceFrom, RunFrom, Permitted;
    RestIsPermitted(cfg, p, 0, Image(Load(row), row), rs, h, proven);
  }

  // ----- what becomes of a transfer with a write ack -----

  ghost predicate SendsAck(acts: seq<Act>) {
    exists k :: 0 <= k < |acts| && acts[k].AckSent?
  }

  lemma SendsEither(a: seq<Act>, b: seq<Act>)
    ensures SendsAck(a + b) <==> SendsAck(a) || SendsAck(b)
  {
    if k :| 0 <= k < |a| && a[k].AckSent? { assert (a + b)[k].AckSent?; }
    if k :| 0 <= k < |b| && b[k].AckSent? { assert (a + b)[|a| + k].AckSent?; }
  }

  /** Before stage `i` of a fault-free pass that began with write ack `a` and no ack: `acked`
      says that the commitment had gone by an ack already. */
  ghost predicate Awaits(cfg: Config, i: nat, x: Image, w: World, a: AckStatus, acked: bool) {
    && !x.copy.failed && ImageOk(x) && !Finished(x.row.status) && WorldOk(w) && !w.outcome.TimedOut?
    && x.row.writeAckStatus == Some(a) && x.row.timeoutHash.None? && w.received.Some?
    && (x.row.ackHash.Some? ==> x.row.ackHash.value in w.landed)
    && (x.row.ackHash.Some? <==> (2 <= i && acked) || (14 <= i && Permitted(cfg, a)))
    && (i <= 13 ==> (w.outcome.Acked? <==> acked))
  }

  lemma AwaitsEarly(cfg: Config, p: Packet, i: nat, x: Image, w: World, r: Reply, a: AckStatus, acked: bool)
    requires i < 11 && Awaits(cfg, i, x, w, a, acked) && Sunny(p, StageAt(i), x.copy.data, w, r)
    ensures Awaits(cfg, i + 1, Process(cfg, p, StageAt(i), x, r), Follow(cfg, p, StageAt(i), x.copy, w, r), a, acked)
    ensures !SendsAck(Acts(cfg, p, StageAt(i), x, r))
  {
    hide ImageOk, WorldOk;
    ProcessKeeps(cfg, p, StageAt(i), x, r);
    ImageIs(x);
    WorldIs(w);
  }

  lemma ImageIs(x: Image)
    requires ImageOk(x)
    ensures RowOk(x.row) && (!x.copy.failed ==> Tracked(x.copy.data) == Tracked(x.row))
  {
  }

  lemma WorldIs(w: World)
    requires WorldOk(w)
    ensures w.received.Some? ==> w.timeoutTxs == {}
    ensures w.outcome.Acked? ==> w.outcome.hash in w.ackTxs && w.outcome.hash in w.landed
  {
  }

  lemma AwaitsLate(cfg: Config, p: Packet, i: nat, x: Image, w: World, r: Reply, a: AckStatus, acked: bool)
    requires 11 <= i < LAST - 1 && i != 13 && Awaits(cfg, i, x, w, a, acked) && Sunny(p, StageAt(i), x.copy.data, w, r)
    ensures Awaits(cfg, i + 1, Process(cfg, p, StageAt(i), x, r), Follow(cfg, p, StageAt(i), x.copy, w, r), a, acked)
    ensures !SendsAck(Acts(cfg, p, StageAt(i), x, r))
  {
    hide ImageOk, WorldOk;
    ProcessKeeps(cfg, p, StageAt(i), x, r);
    ImageIs(x);
    WorldIs(w);
  }

  lemma AwaitsSend(cfg: Config, p: Packet, x: Image, w: World, r: Reply, a: AckStatus, acked: bool)
    requires Awaits(cfg, 13, x, w, a, acked) && Sunny(p, BatchAck, x.copy.data, w, r)
    ensures Awaits(cfg, 14, Process(cfg, p, BatchAck, x, r), Follow(cfg, p, BatchAck, x.copy, w, r), a, acked)
    ensures SendsAck(Acts(cfg, p, BatchAck, x, r)) <==> Permitted(cfg, a) && !acked
  {
    ProcessKeeps(cfg, p, BatchAck, x, r);
    var acts := Acts(cfg, p, BatchAck, x, r);
    if acts != [] { assert acts[0].AckSent?; }
    if Permitted(cfg, a) && !acked {
      var tx := r.tx.value;
      OccurKeeps(w, SubmitAck(tx.hash));
      OccurKeeps(Occur(w, SubmitAck(tx.hash)), Land(tx.hash));
    }
  }

  /** How the pass ends: with the ack, or with the completion of a kind that is switched off. */
  function Ending(cfg: Config, a: AckStatus, acked: bool): Status {
    if acked || Permitted(cfg, a) then CompleteWithAck
    else if a.SuccessAck? then CompleteWithWriteAckSuccess
    else CompleteWithWriteAckError
  }

  lemma AwaitsFinish(cfg: Config, p: Packet, x: Image, w: World, r: Reply, a: AckStatus, acked: bool)
    requires Awaits(cfg, LAST - 1, x, w, a, acked) && r.write.Stored?
    ensures Process(cfg, p, Finish, x, r).row == x.row.(status := Ending(cfg, a, acked))
    ensures Acts(cfg, p, Finish, x, r) == []
  {
  }

  lemma {:induction false} AwaitsRun(cfg: Config, p: Packet, i: nat, x: Image, w: World, rs: seq<Reply>, a: AckStatus, acked: bool)
    requires i + |rs| == LAST && rs != [] && Awaits(cfg, i, x, w, a, acked) && SunnyFrom(cfg, p, i, x, w, rs)
    ensures RunFrom(cfg, p, i, x, rs).row.status == Ending(cfg, a, acked)
    ensures RunFrom(cfg, p, i, x, rs).row.ackHash.Some? <==> acked || Permitted(cfg, a)
    ensures SendsAck(TraceFrom(cfg, p, i, x, rs)) <==> i <= 13 && Permitted(cfg, a) && !acked
    decreases |rs|
  {
    hide Process, Follow, Acts, Sunny, Permitted, Ending, SendsAck;
    var st := StageAt(i);
    var y, v, now := Process(cfg, p, st, x, rs[0]), Follow(cfg, p, st, x.copy, w, rs[0]), Acts(cfg, p, st, x, rs[0]);
    SendsEither(now, TraceFrom(cfg, p, i + 1, y, rs[1..]));
    if i == LAST - 1 {
      assert rs[0].write.Stored? by { SunnyStores(p, st, x.copy.data, w, rs[0]); }
      AwaitsFinish(cfg, p, x, w, rs[0], a, acked);
      assert !SendsAck([]) by { NothingSent(); }
    } else {
      hide Awaits;
      if i < 11 {
        AwaitsEarly(cfg, p, i, x, w, rs[0], a, acked);
      } else if i == 13 {
        AwaitsSend(cfg, p, x, w, rs[0], a, acked);
      } else {
        AwaitsLate(cfg, p, i, x, w, rs[0], a, acked);
      }
      AwaitsRun(cfg, p, i + 1, y, v, rs[1..], a, acked);
    }
  }

  lemma SunnyStores(p: Packet, st: Stage, d: Row, w: World, r: Reply)
    requires Sunny(p, st, d, w, r)
    ensures r.write.Stored?
  {
  }

  lemma NothingSent()
    ensures !SendsAck([])
  {
  }

  /** One fault-free pass over a settled row with a write ack and no ack decides it by the
      switches: an ack is sent if and only if its kind is on and the commitment is still there;
      the row completes with an ack if one was sent or found, and with the write-ack completion
      of its kind, without an ack, if its kind is off. */
  lemma PolicyDecides(cfg: Config, p: Packet, row: Row, w: World, rs: seq<Reply>)
    requires RowOk(row) && !Finished(row.status) && WorldOk(w) && Settled(row, w)
    requires row.writeAckStatus.Some? && row.ackHash.None? && SunnyPass(cfg, p, row, w, rs)
    ensures var a, acked, after := row.writeAckStatus.value, w.outcome.Acked?, RunPass(cfg, p, row, rs).row;
            && after.status == Ending(cfg, a, acked)
            && (after.ackHash.Some? <==> acked || Permitted(cfg, a))
            && (SendsAck(Trace(cfg, p, row, rs)) <==> Permitted(cfg, a) && !acked)
  {
    hide RunFrom, TraceFrom, SunnyFrom, Permitted, Ending, SendsAck;
    AwaitsRun(cfg, p, 0, Image(Load(row), row), w, rs, row.writeAckStatus.value, w.outcome.Acked?);
  }
}
