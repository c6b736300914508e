/** What must have been seen on chain, in the same pass, before the pipeline
    sends a transaction or writes a terminal status. */
module Gating {
  import opened Wrappers
  import opened Transfers
  import opened Stages
  import opened Runs

  /** The chain facts and submissions of a pass, in order. */
  datatype Act =
    | SendFinalized
    | TimeoutFinalized
    | CommitmentSeen(at: Stage)
    | WriteAckFinalized(hash: string)
    | TimeoutConfirmed(hash: string)
    | AckConfirmed(hash: string)
    | TimeoutFound(hash: string)
    | AckFound(hash: string)
    | RecvSent(hash: string)
    | TimeoutSent(hash: string)
    | AckSent(hash: string, proven: string)     // `proven`: the write-ack transaction it was proved from

  function Acts(cfg: Config, p: Packet, st: Stage, x: Image, r: Reply): seq<Act> {
    if !Admits(cfg, p, st, x, r) || !r.stateWrite.Stored? then []
    else
      var d := x.copy.data;
      match st
      case CheckSendFinality => if r.yes == Got(true) then [SendFinalized] else []
      case CheckTimeoutFinality => if r.yes == Got(true) then [TimeoutFinalized] else []
      case CheckCommitment | RecheckCommitment =>
        if r.yes == Got(true) then [CommitmentSeen(st)]
        else if r.yes == Got(false) && r.ackTx.Some? && r.timeoutTx.None? then [AckFound(r.ackTx.value.hash)]
        else if r.yes == Got(false) && r.ackTx.None? && r.timeoutTx.Some? then [TimeoutFound(r.timeoutTx.value.hash)]
        else []
      case CheckWriteAckFinality => if r.yes == Got(true) then [WriteAckFinalized(d.writeAckHash.value)] else []
      case RetryTimeout => if r.yes == Got(false) then [TimeoutConfirmed(d.timeoutHash.value)] else []
      case RetryAck => if r.yes == Got(false) then [AckConfirmed(d.ackHash.value)] else []
      case BatchRecv => if Sent(r) then [RecvSent(r.tx.value.hash)] else []
      case BatchTimeout => if Sent(r) then [TimeoutSent(r.tx.value.hash)] else []
      case BatchAck => if Sent(r) then [AckSent(r.tx.value.hash, d.writeAckHash.value)] else []
      case _ => []
  }

  /** Every fact in the trace is an answer that the stage for it got in this pass. */
  lemma FactsAreAnswers(cfg: Config, p: Packet, st: Stage, x: Image, r: Reply, a: Act)
    requires a in Acts(cfg, p, st, x, r)
    ensures match a
            case SendFinalized => st == CheckSendFinality && r.yes == Got(true)
            case TimeoutFinalized => st == CheckTimeoutFinality && r.yes == Got(true)
            case CommitmentSeen(at) => at == st && (st == CheckCommitment || st == RecheckCommitment) && r.yes == Got(true)
            case WriteAckFinalized(h) => st == CheckWriteAckFinality && r.yes == Got(true) && x.copy.data.writeAckHash == Some(h)
            case TimeoutConfirmed(h) => st == RetryTimeout && r.yes == Got(false) && x.copy.data.timeoutHash == Some(h)
            case AckConfirmed(h) => st == RetryAck && r.yes == Got(false) && x.copy.data.ackHash == Some(h)
            case TimeoutFound(h) => r.yes == Got(false) && r.timeoutTx.Some? && r.timeoutTx.value.hash == h
            case AckFound(h) => r.yes == Got(false) && r.ackTx.Some? && r.ackTx.value.hash == h
            case RecvSent(h) => st == BatchRecv && r.tx.Got? && r.tx.value.hash == h
            case TimeoutSent(h) => st == BatchTimeout && r.tx.Got? && r.tx.value.hash == h
            case AckSent(h, proven) => st == BatchAck && r.tx.Got? && r.tx.value.hash == h && x.copy.data.writeAckHash == Some(proven)
  {
  }

  /** Every transaction that a batch stage got delivered for the transfer is in the trace. */
  lemma SendsAreTraced(cfg: Config, p: Packet, st: Stage, x: Image, r: Reply)
    requires IsBatch(st) && Admits(cfg, p, st, x, r) && r.stateWrite.Stored? && r.decodes && r.tx.Got?
    ensures var h := r.tx.value.hash;
            && (st == BatchRecv ==> Acts(cfg, p, st, x, r) == [RecvSent(h)])
            && (st == BatchTimeout ==> Acts(cfg, p, st, x, r) == [TimeoutSent(h)])
            && (st == BatchAck ==> x.copy.data.writeAckHash.Some?
                                   && Acts(cfg, p, st, x, r) == [AckSent(h, x.copy.data.writeAckHash.value)])
  {
  }

  function TraceFrom(cfg: Config, p: Packet, i: nat, x: Image, rs: seq<Reply>): seq<Act>
    requires i + |rs| == LAST
    decreases |rs|
  {
    if rs == [] then []
    else Acts(cfg, p, StageAt(i), x, rs[0])
         + TraceFrom(cfg, p, i + 1, Process(cfg, p, StageAt(i), x, rs[0]), rs[1..])
  }

  /** The acts of one whole pass. */
  function Trace(cfg: Config, p: Packet, row: Row, rs: seq<Reply>): seq<Act>
    requires |rs| == LAST
  {
    TraceFrom(cfg, p, 0, Image(Load(row), row), rs)
  }

  /** `past` holds what must precede `a` in the same pass.  `late`: the clock had
      passed the packet timeout when the timeout-finality stage looked at it. */
  ghost predicate Earned(past: seq<Act>, a: Act, late: bool) {
    match a
    case RecvSent(_) => SendFinalized in past
    case TimeoutSent(_) =>
      && SendFinalized in past
      && CommitmentSeen(CheckCommitment) in past
      && (TimeoutFinalized in past <==> late)
    case AckSent(_, proven) =>
      && CommitmentSeen(RecheckCommitment) in past
      && WriteAckFinalized(proven) in past
    case _ => true
  }

  ghost predicate AllEarned(acts: seq<Act>, late: bool) {
    forall k :: 0 <= k < |acts| ==> Earned(acts[..k], acts[k], late)
  }

  /** A terminal status rests on a transaction confirmed or found in this pass,
      or on a kind of write ack that is not to be relayed. */
  ghost predicate Justified(cfg: Config, row: Row, acts: seq<Act>) {
    match row.status
    case CompleteWithAck =>
      row.ackHash.Some? && AckConfirmed(row.ackHash.value) in acts
    case CompleteWithTimeout =>
      row.timeoutHash.Some?
      && (TimeoutConfirmed(row.timeoutHash.value) in acts || TimeoutFound(row.timeoutHash.value) in acts)
    case CompleteWithWriteAckSuccess =>
      row.writeAckStatus == Some(SuccessAck) && !cfg.relaySuccess
    case CompleteWithWriteAckError =>
      (row.writeAckStatus == Some(ErrorAck) || row.writeAckStatus == Some(UnknownAck)) && !cfg.relayError
    case _ => true
  }

  /** What the acts so far prove about a copy that is still healthy before stage `i`. */
  ghost predicate Evidence(cfg: Config, i: nat, d: Row, acts: seq<Act>, late: bool) {
    && EarlyEvidence(i, d, acts, late) && LateEvidence(cfg, i, d, acts)
    && TimeoutEvidence(i, d, acts) && AckEvidence(i, d, acts)
  }

  ghost predicate EarlyEvidence(i: nat, d: Row, acts: seq<Act>, late: bool) {
    && (2 <= i <= 4 && d.ackHash.None? && d.timeoutHash.None? ==> CommitmentSeen(CheckCommitment) in acts)
    && (3 <= i <= 7 && d.recvHash.None? ==> SendFinalized in acts)
    && (i == 4 && late && d.recvHash.None? && d.ackHash.None? && d.timeoutHash.None? ==>
          TimeoutFinalized in acts)
  }

  ghost predicate LateEvidence(cfg: Config, i: nat, d: Row, acts: seq<Act>) {
    && (12 <= i <= 13 && d.writeAckHash.Some? && d.writeAckStatus.Some? && Relays(cfg, d.writeAckStatus.value) ==>
          WriteAckFinalized(d.writeAckHash.value) in acts)
    && (i == 13 && d.ackHash.None? && d.timeoutHash.None? ==> CommitmentSeen(RecheckCommitment) in acts)
  }

  ghost predicate TimeoutEvidence(i: nat, d: Row, acts: seq<Act>) {
    6 <= i && d.timeoutHash.Some? ==>
      TimeoutConfirmed(d.timeoutHash.value) in acts || TimeoutFound(d.timeoutHash.value) in acts
  }

  ghost predicate AckEvidence(i: nat, d: Row, acts: seq<Act>) {
    15 <= i && d.ackHash.Some? ==> AckConfirmed(d.ackHash.value) in acts
  }

  ghost predicate Gate(cfg: Config, i: nat, x: Image, acts: seq<Act>, late: bool) {
    && ImageOk(x)
    && AllEarned(acts, late)
    && (TimeoutFinalized in acts ==> late)
    && (!x.copy.failed ==> Evidence(cfg, i, x.copy.data, acts, late))
    && (if i < LAST then !Finished(x.row.status) else Justified(cfg, x.row, acts))
  }

  lemma EarnedMore(acts: seq<Act>, more: seq<Act>, late: bool)
    requires AllEarned(acts, late)
    requires more == [] || (|more| == 1 && Earned(acts, more[0], late))
    ensures AllEarned(acts + more, late)
  {
    var all := acts + more;
    forall k | 0 <= k < |all|
      ensures Earned(all[..k], all[k], late)
    {
      if k < |acts| {
        assert all[..k] == acts[..k];
      } else {
        assert all[..k] == acts;
      }
    }
  }

  lemma EarlyStep(cfg: Config, p: Packet, i: nat, x: Image, r: Reply, acts: seq<Act>, late: bool)
    requires i < LAST && Gate(cfg, i, x, acts, late)
    requires i == 3 ==> late == IsTimedOut(p, r.now)
    ensures var y := Process(cfg, p, StageAt(i), x, r);
            !y.copy.failed ==> EarlyEvidence(i + 1, y.copy.data, acts + Acts(cfg, p, StageAt(i), x, r), late)
  {
  }

  lemma LateStep(cfg: Config, p: Packet, i: nat, x: Image, r: Reply, acts: seq<Act>, late: bool)
    requires i < LAST && Gate(cfg, i, x, acts, late)
    requires i == 3 ==> late == IsTimedOut(p, r.now)
    ensures var y := Process(cfg, p, StageAt(i), x, r);
            !y.copy.failed ==> LateEvidence(cfg, i + 1, y.copy.data, acts + Acts(cfg, p, StageAt(i), x, r))
  {
  }

  lemma TimeoutStep(cfg: Config, p: Packet, i: nat, x: Image, r: Reply, acts: seq<Act>, late: bool)
    requires i < LAST && Gate(cfg, i, x, acts, late)
    requires i == 3 ==> late == IsTimedOut(p, r.now)
    ensures var y := Process(cfg, p, StageAt(i), x, r);
            !y.copy.failed ==> TimeoutEvidence(i + 1, y.copy.data, acts + Acts(cfg, p, StageAt(i), x, r))
  {
  }

  lemma AckStep(cfg: Config, p: Packet, i: nat, x: Image, r: Reply, acts: seq<Act>, late: bool)
    requires i < LAST && Gate(cfg, i, x, acts, late)
    requires i == 3 ==> late == IsTimedOut(p, r.now)
    ensures var y := Process(cfg, p, StageAt(i), x, r);
            !y.copy.failed ==> AckEvidence(i + 1, y.copy.data, acts + Acts(cfg, p, StageAt(i), x, r))
  {
  }

  lemma ActIsEarned(cfg: Config, p: Packet, i: nat, x: Image, r: Reply, acts: seq<Act>, late: bool)
    requires i < LAST && Gate(cfg, i, x, acts, late)
    ensures var more := Acts(cfg, p, StageAt(i), x, r);
            more == [] || (|more| == 1 && Earned(acts, more[0], late))
  {
    hide AllEarned, Justified, TimeoutEvidence, AckEvidence, ImageOk;
  }

  lemma OnlyWhenLate(cfg: Config, p: Packet, i: nat, x: Image, r: Reply)
    requires i < LAST && TimeoutFinalized in Acts(cfg, p, StageAt(i), x, r)
    ensures i == 3 && IsTimedOut(p, r.now)
  {
  }

  lemma EarnedNow(cfg: Config, p: Packet, i: nat, x: Image, r: Reply, acts: seq<Act>, late: bool)
    requires i < LAST && Gate(cfg, i, x, acts, late)
    requires i == 3 ==> late == IsTimedOut(p, r.now)
    ensures AllEarned(acts + Acts(cfg, p, StageAt(i), x, r), late)
    ensures TimeoutFinalized in acts + Acts(cfg, p, StageAt(i), x, r) ==> late
  {
    hide Acts, AllEarned, Earned, Evidence, Justified, ImageOk;
    ActIsEarned(cfg, p, i, x, r, acts, late);
    EarnedMore(acts, Acts(cfg, p, StageAt(i), x, r), late);
    if TimeoutFinalized in Acts(cfg, p, StageAt(i), x, r) { OnlyWhenLate(cfg, p, i, x, r); }
  }

  lemma JustifiedNow(cfg: Config, x: Image, r: Reply, acts: seq<Act>, late: bool)
    requires Gate(cfg, LAST - 1, x, acts, late)
    ensures Justified(cfg, Finisher(cfg, x, r).row, acts)
  {
  }

  lemma GateStep(cfg: Config, p: Packet, i: nat, x: Image, r: Reply, acts: seq<Act>, late: bool)
    requires i < LAST && Gate(cfg, i, x, acts, late)
    requires i == 3 ==> late == IsTimedOut(p, r.now)
    ensures Gate(cfg, i + 1, Process(cfg, p, StageAt(i), x, r), acts + Acts(cfg, p, StageAt(i), x, r), late)
  {
    ProcessKeeps(cfg, p, StageAt(i), x, r);
    EarnedNow(cfg, p, i, x, r, acts, late);
    EarlyStep(cfg, p, i, x, r, acts, late);
    LateStep(cfg, p, i, x, r, acts, late);
    TimeoutStep(cfg, p, i, x, r, acts, late);
    AckStep(cfg, p, i, x, r, acts, late);
    if i == LAST - 1 {
      JustifiedNow(cfg, x, r, acts, late);
      assert acts + [] == acts;
    }
  }

  lemma Assoc(a: seq<Act>, b: seq<Act>, c: seq<Act>)
    ensures a + b + c == a + (b + c)
  {
  }

  lemma {:induction false} GateRun(cfg: Config, p: Packet, i: nat, x: Image, rs: seq<Reply>, acts: seq<Act>, late: bool)
    requires i + |rs| == LAST && Gate(cfg, i, x, acts, late)
    requires i <= 3 ==> late == IsTimedOut(p, rs[3 - i].now)
    ensures Gate(cfg, LAST, RunFrom(cfg, p, i, x, rs), acts + TraceFrom(cfg, p, i, x, rs), late)
    decreases |rs|
  {
    hide Process, Acts, Gate, StageAt;
    if rs == [] {
      assert acts + [] == acts;
    } else {
      var now := Acts(cfg, p, StageAt(i), x, rs[0]);
      var y := Process(cfg, p, StageAt(i), x, rs[0]);
      GateStep(cfg, p, i, x, rs[0], acts, late);
      GateRun(cfg, p, i + 1, y, rs[1..], acts + now, late);
      Assoc(acts, now, TraceFrom(cfg, p, i + 1, y, rs[1..]));
    }
  }

  /** Same-pass gating, for every unfinished sound row, every answer and every failure:
      a recv or timeout is sent only after send finality; a timeout or ack only after the
      source commitment was seen; an ack only after its own write-ack transaction was final.
      The timeout timestamp was final before a timeout is sent if and only if the clock had
      passed the timeout when the timeout-finality stage looked at it. */
  lemma PassIsGated(cfg: Config, p: Packet, row: Row, rs: seq<Reply>)
    requires |rs| == LAST && RowOk(row) && !Finished(row.status)
    ensures var late := IsTimedOut(p, rs[3].now);
            AllEarned(Trace(cfg, p, row, rs), late) && (TimeoutFinalized in Trace(cfg, p, row, rs) ==> late)
    ensures Justified(cfg, RunPass(cfg, p, row, rs).row, Trace(cfg, p, row, rs))
  {
    var x := Image(Load(row), row);
    GateRun(cfg, p, 0, x, rs, [], IsTimedOut(p, rs[3].now));
    assert [] + Trace(cfg, p, row, rs) == Trace(cfg, p, row, rs);
  }

  // ----- a timeout that goes out without the finality test -----

  lemma Unroll(cfg: Config, p: Packet, i: nat, x: Image, r: Reply, rest: seq<Reply>)
    requires i + 1 + |rest| == LAST
    ensures TraceFrom(cfg, p, i, x, [r] + rest)
         == Acts(cfg, p, StageAt(i), x, r) + TraceFrom(cfg, p, i + 1, Process(cfg, p, StageAt(i), x, r), rest)
  {
    assert ([r] + rest)[1..] == rest;
  }

  const LATE_PACKET := Packet(1, Key("a", "c", 1), "b", "d", "00", 10)

  const NOT_RECEIVED := Reply(5, 5, Stored, Got(false), NoAnswer, None, None, CallFailed, NoAnswer, true, Stored)

  const CONFIRMED := NOT_RECEIVED.(yes := Got(true))

  const TOO_LATE := CONFIRMED.(now := 20, later := 20, tx := Got(Tx("t", 20)))

  const LOOKED_UP := NEW_ROW.(status := CheckRecvPacketDelivery)

  const SEEN := NEW_ROW.(status := CheckAckPacketDelivery)

  const CHECKED := NEW_ROW.(status := AwaitingSendFinality, sourceFinal := Some(5))

  /** Four stages at time 5 bring a new row to the timeout batch without a look at finality. */
  lemma FirstStages(cfg: Config)
    ensures Process(cfg, LATE_PACKET, CheckRecv, Image(Load(NEW_ROW), NEW_ROW), NOT_RECEIVED) == Image(Load(LOOKED_UP), LOOKED_UP)
    ensures Process(cfg, LATE_PACKET, CheckCommitment, Image(Load(LOOKED_UP), LOOKED_UP), CONFIRMED) == Image(Load(SEEN), SEEN)
  {
  }

  lemma NextStages(cfg: Config)
    ensures Process(cfg, LATE_PACKET, CheckSendFinality, Image(Load(SEEN), SEEN), CONFIRMED) == Image(Load(CHECKED), CHECKED)
    ensures Process(cfg, LATE_PACKET, CheckTimeoutFinality, Image(Load(CHECKED), CHECKED), CONFIRMED) == Image(Load(CHECKED), CHECKED)
  {
  }

  lemma TimeoutGoesOut(cfg: Config)
    ensures Acts(cfg, LATE_PACKET, BatchTimeout, Image(Load(CHECKED), CHECKED), TOO_LATE) == [TimeoutSent("t")]
  {
  }

  function Rest(n: nat): (rs: seq<Reply>)
    ensures |rs| == n && forall i :: 0 <= i < n ==> rs[i] == TOO_LATE
  {
    if n == 0 then [] else Rest(n - 1) + [TOO_LATE]
  }

  ghost predicate ClockOrdered(rs: seq<Reply>) {
    forall i :: 0 <= i < |rs| ==> rs[i].now <= rs[i].later && (i > 0 ==> rs[i - 1].later <= rs[i].now)
  }

  lemma Prepend(r: Reply, rs: seq<Reply>)
    requires ClockOrdered(rs) && rs != [] && r.now <= r.later <= rs[0].now
    ensures ClockOrdered([r] + rs)
  {
  }

  /** The clock passes the timeout between the two stages: the pass sends a timeout, and never
      asked whether the timeout timestamp was final. */
  lemma TimeoutWithoutFinality(cfg: Config) returns (rs: seq<Reply>)
    ensures |rs| == LAST && ClockOrdered(rs)
    ensures TimeoutSent("t") in Trace(cfg, LATE_PACKET, NEW_ROW, rs)
    ensures TimeoutFinalized !in Trace(cfg, LATE_PACKET, NEW_ROW, rs)
  {
    var rest := Rest(12);
    var from4 := [TOO_LATE] + rest;
    var from3 := [CONFIRMED] + from4;
    var from2 := [CONFIRMED] + from3;
    var from1 := [CONFIRMED] + from2;
    rs := [NOT_RECEIVED] + from1;
    assert rs[3] == CONFIRMED;
    assert ClockOrdered(rs) by {
      assert ClockOrdered(from4);
      hide ClockOrdered;
      Prepend(CONFIRMED, from4);
      Prepend(CONFIRMED, from3);
      Prepend(CONFIRMED, from2);
      Prepend(NOT_RECEIVED, from1);
    }
    hide TraceFrom, Process, Acts, ClockOrdered, AllEarned, Justified, RunPass;
    PassIsGated(cfg, LATE_PACKET, NEW_ROW, rs);
    FirstStages(cfg);
    NextStages(cfg);
    TimeoutGoesOut(cfg);
    Unroll(cfg, LATE_PACKET, 0, Image(Load(NEW_ROW), NEW_ROW), NOT_RECEIVED, from1);
    Unroll(cfg, LATE_PACKET, 1, Image(Load(LOOKED_UP), LOOKED_UP), CONFIRMED, from2);
    Unroll(cfg, LATE_PACKET, 2, Image(Load(SEEN), SEEN), CONFIRMED, from3);
    Unroll(cfg, LATE_PACKET, 3, Image(Load(CHECKED), CHECKED), CONFIRMED, from4);
    Unroll(cfg, LATE_PACKET, 4, Image(Load(CHECKED), CHECKED), TOO_LATE, rest);
  }
}
