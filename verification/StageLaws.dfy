/** Each stage, told from the row's columns, the clock and the answers: when it works on a transfer,
    and what the copy and the row are afterwards, for every outcome of its writes. */
module StageLaws {
  import opened Wrappers
  import opened Transfers
  import opened Stages
  import opened Runs
  import opened Recovery
  import TwoChains

  /** A transfer that a stage may work on. */
  ghost predicate Healthy(x: Image) {
    !x.copy.failed && Agrees(x) && !x.row.status.Failed?
  }

  /** The stage passes the transfer on untouched, or shows its status first.  If that write is
      not confirmed the pass is given up: the row shows the status if the write was applied. */
  ghost predicate Starts(x: Image, y: Image, works: bool, s: Status, w: Write) {
    && (!works ==> y == x)
    && (works && w.Refused? ==> y == Image(Copy(x.copy.data, true), x.row))
    && (works && w.Lost? ==> y == Image(Copy(x.copy.data, true), x.row.(status := s)))
  }

  /** Nothing but the status changes; the pass goes on or is given up. */
  ghost predicate Shows(x: Image, y: Image, s: Status, failed: bool) {
    y == Image(Copy(x.copy.data.(status := s), failed), x.row.(status := s))
  }

  /** The update is in the row if it was applied, and in the copy if it was confirmed; without
      a confirmation the pass is given up. */
  ghost predicate Records(x: Image, y: Image, s: Status, q: Query, w: Write) {
    var d, row := x.copy.data.(status := s), x.row.(status := s);
    match w
    case Stored => y == Image(Copy(Change(d, q), false), Change(row, q))
    case Lost => y == Image(Copy(d, true), Change(row, q))
    case Refused => y == Image(Copy(d, true), row)
  }

  /** The update is made to the row alone and the pass is given up whatever it does. */
  ghost predicate Clears(x: Image, y: Image, s: Status, q: Query, w: Write) {
    y == Image(Copy(x.copy.data.(status := s), true), After(x.row.(status := s), q, w))
  }

  // ----- looking for what others have done -----

  /** Adopt a recv that is on chain: only for a transfer with no recv, ack or timeout. */
  lemma ReceiptLaw(cfg: Config, p: Packet, x: Image, r: Reply)
    requires Healthy(x)
    ensures var y, s := Process(cfg, p, CheckRecv, x, r), CheckRecvPacketDelivery;
            var works := x.row.recvHash.None? && x.row.ackHash.None? && x.row.timeoutHash.None?;
            && Starts(x, y, works, s, r.stateWrite)
            && (works && r.stateWrite.Stored? ==>
                  if r.yes == Got(false) then Shows(x, y, s, false)
                  else if r.yes == Got(true) && r.tx.Got? then Records(x, y, s, SetRecv(r.tx.value), r.write)
                  else Shows(x, y, s, true))
  {
  }

  /** With the commitment gone, adopt the one ack or the one timeout that is found; both or
      neither gives the pass up.  The stage runs at two places. */
  lemma CommitmentLaw(cfg: Config, p: Packet, st: Stage, x: Image, r: Reply)
    requires Healthy(x) && (st == CheckCommitment || st == RecheckCommitment)
    ensures var y, s := Process(cfg, p, st, x, r), CheckAckPacketDelivery;
            var works := x.row.ackHash.None? && x.row.timeoutHash.None?;
            && Starts(x, y, works, s, r.stateWrite)
            && (works && r.stateWrite.Stored? ==>
                  if r.yes == Got(true) then Shows(x, y, s, false)
                  else if r.yes == Got(false) && r.ackTx.Some? && r.timeoutTx.None?
                  then Records(x, y, s, SetAck(r.ackTx.value), r.write)
                  else if r.yes == Got(false) && r.ackTx.None? && r.timeoutTx.Some?
                  then Records(x, y, s, SetTimeout(r.timeoutTx.value), r.write)
                  else Shows(x, y, s, true))
  {
  }

  // ----- waiting for finality -----

  /** The send must be final before a recv or timeout goes out; the time is recorded once. */
  lemma SendFinalityLaw(cfg: Config, p: Packet, x: Image, r: Reply)
    requires Healthy(x)
    ensures var y, s, works := Process(cfg, p, CheckSendFinality, x, r), AwaitingSendFinality, x.row.recvHash.None?;
            && Starts(x, y, works, s, r.stateWrite)
            && (works && r.stateWrite.Stored? ==>
                  if r.yes != Got(true) then Shows(x, y, s, true)
                  else if x.row.sourceFinal.None? then Records(x, y, s, SetSourceFinal(r.later), r.write)
                  else Shows(x, y, s, false))
  {
  }

  /** Past the packet's timeout, and with nothing sent, the timeout must be final. */
  lemma TimeoutFinalityLaw(cfg: Config, p: Packet, x: Image, r: Reply)
    requires Healthy(x)
    ensures var y, s := Process(cfg, p, CheckTimeoutFinality, x, r), AwaitingTimeoutFinality;
            var works := p.timeout < r.now && x.row.recvHash.None? && x.row.ackHash.None? && x.row.timeoutHash.None?;
            && Starts(x, y, works, s, r.stateWrite)
            && (works && r.stateWrite.Stored? ==> Shows(x, y, s, r.yes != Got(true)))
  {
  }

  /** A kind of write ack that is to be relayed must be final.  The time is noted in the copy
      alone. */
  lemma WriteAckFinalityLaw(cfg: Config, p: Packet, x: Image, r: Reply)
    requires Healthy(x)
    ensures var y, s, d := Process(cfg, p, CheckWriteAckFinality, x, r), AwaitingWriteAckFinality, x.copy.data;
            var works := x.row.writeAckHash.Some? && x.row.writeAckStatus.Some?
                         && (x.row.writeAckStatus.value.SuccessAck? ==> cfg.relaySuccess)
                         && (!x.row.writeAckStatus.value.SuccessAck? ==> cfg.relayError);
            && Starts(x, y, works, s, r.stateWrite)
            && (works && r.stateWrite.Stored? ==>
                  if r.yes != Got(true) then Shows(x, y, s, true)
                  else if d.writeAckFinal.Some? then Shows(x, y, s, false)
                  else if !r.write.Stored? then Shows(x, y, s, true)
                  else y == Image(Copy(d.(status := s, writeAckFinal := Some(r.later)), false), x.row.(status := s)))
  {
  }

  // ----- sending -----

  /** Both clock readings of a batch stage must be past the timeout. */
  lemma TimeoutLaw(cfg: Config, p: Packet, x: Image, r: Reply)
    requires Healthy(x)
    ensures var y, s := Process(cfg, p, BatchTimeout, x, r), DeliverTimeoutPacket;
            var works := p.timeout < r.now && p.timeout < r.later
                         && x.row.recvHash.None? && x.row.ackHash.None? && x.row.timeoutHash.None?;
            && Starts(x, y, works, s, r.stateWrite)
            && (works && r.stateWrite.Stored? ==>
                  if r.decodes && r.tx.Got? then Records(x, y, s, SetTimeout(r.tx.value), r.write) else Shows(x, y, s, true))
  {
  }

  lemma RecvLaw(cfg: Config, p: Packet, x: Image, r: Reply)
    requires Healthy(x)
    ensures var y, s := Process(cfg, p, BatchRecv, x, r), DeliverRecvPacket;
            var works := r.now <= p.timeout && r.later <= p.timeout && x.row.recvHash.None?;
            && Starts(x, y, works, s, r.stateWrite)
            && (works && r.stateWrite.Stored? ==>
                  if r.decodes && r.tx.Got? then Records(x, y, s, SetRecv(r.tx.value), r.write) else Shows(x, y, s, true))
  {
  }

  lemma AckLaw(cfg: Config, p: Packet, x: Image, r: Reply)
    requires Healthy(x)
    ensures var y, s := Process(cfg, p, BatchAck, x, r), DeliverAckPacket;
            var works := x.row.writeAckHash.Some? && x.row.writeAckStatus.Some?
                         && (x.row.writeAckStatus.value.SuccessAck? ==> cfg.relaySuccess)
                         && (!x.row.writeAckStatus.value.SuccessAck? ==> cfg.relayError)
                         && x.row.ackHash.None? && x.row.timeoutHash.None?;
            && Starts(x, y, works, s, r.stateWrite)
            && (works && r.stateWrite.Stored? ==>
                  if r.decodes && r.tx.Got? then Records(x, y, s, SetAck(r.tx.value), r.write) else Shows(x, y, s, true))
  {
  }

  // ----- looking at what was sent before -----

  /** What the three retry stages have in common: retried, the transaction is cleared from the
      row and the pass given up; not retried, it is kept and the transfer goes on; without an
      answer, it is kept and the pass given up. */
  ghost predicate Retries(x: Image, y: Image, s: Status, q: Query, r: Reply) {
    if r.yes == Got(true) then Clears(x, y, s, q, r.write) else Shows(x, y, s, r.yes.NoAnswer?)
  }

  lemma RetryTimeoutLaw(cfg: Config, p: Packet, x: Image, r: Reply)
    requires Healthy(x)
    ensures var y, s := Process(cfg, p, RetryTimeout, x, r), DeliverTimeoutPacket;
            var works := x.row.timeoutHash.Some? && x.row.timeoutTime.Some?;
            Starts(x, y, works, s, r.stateWrite) && (works && r.stateWrite.Stored? ==> Retries(x, y, s, ClearTimeout, r))
  {
  }

  /** A recv is not looked at again once its write ack is known. */
  lemma RetryRecvLaw(cfg: Config, p: Packet, x: Image, r: Reply)
    requires Healthy(x)
    ensures var y, s := Process(cfg, p, RetryRecv, x, r), DeliverRecvPacket;
            var works := x.row.recvHash.Some? && x.row.recvTime.Some? && x.row.writeAckHash.None?;
            Starts(x, y, works, s, r.stateWrite) && (works && r.stateWrite.Stored? ==> Retries(x, y, s, ClearRecv, r))
  {
  }

  lemma RetryAckLaw(cfg: Config, p: Packet, x: Image, r: Reply)
    requires Healthy(x)
    ensures var y, s := Process(cfg, p, RetryAck, x, r), DeliverAckPacket;
            var works := x.row.ackHash.Some? && x.row.ackTime.Some?;
            Starts(x, y, works, s, r.stateWrite) && (works && r.stateWrite.Stored? ==> Retries(x, y, s, ClearAck, r))
  {
  }

  /** The columns that the three clearing statements empty, and no others. */
  lemma ClearingIs(row: Row)
    ensures Change(row, ClearRecv) == row.(recvHash := None, recvTime := None)
    ensures Change(row, ClearAck) == row.(ackHash := None, ackTime := None)
    ensures Change(row, ClearTimeout) == row.(timeoutHash := None, timeoutTime := None)
  {
  }

  // ----- the write ack -----

  /** Record the kind of ack found in the recv transaction, at its time; one that cannot be
      decoded counts as unknown.  A recv transaction without the write ack is cleared. */
  lemma WriteAckLaw(cfg: Config, p: Packet, x: Image, r: Reply)
    requires Healthy(x)
    ensures var y, s := Process(cfg, p, AwaitWriteAck, x, r), WaitForWriteAck;
            var works := x.row.recvHash.Some? && x.row.writeAckHash.None? && x.row.timeoutHash.None?;
            && Starts(x, y, works, s, r.stateWrite)
            && (works && r.stateWrite.Stored? ==>
                  var h, t := x.row.recvHash.value, if x.row.recvTime.Some? then x.row.recvTime.value else ZERO_TIME;
                  match r.writeAck
                  case NotInTx => Clears(x, y, s, ClearRecv, r.write)
                  case CallFailed => Shows(x, y, s, true)
                  case Undecodable => Records(x, y, s, SetWriteAck(h, t, UnknownAck), r.write)
                  case Found(a) => Records(x, y, s, SetWriteAck(h, t, a), r.write))
  {
  }

  // ----- gas costs -----

  /** A gas cost goes into the row alone. */
  ghost predicate Prices(x: Image, y: Image, s: Status, q: Query, w: Write) {
    y == Image(Copy(x.copy.data.(status := s), !w.Stored?), After(x.row.(status := s), q, w))
  }

  /** A stage that is not configured does nothing; one that is works until the copy was loaded
      with a cost. */
  lemma GasLaw(cfg: Config, p: Packet, x: Image, r: Reply)
    requires Healthy(x)
    ensures var y, s := Process(cfg, p, TimeoutGasCost, x, r), CalculatingTimeoutTxGasCost;
            var works := cfg.sourceGas && x.copy.data.timeoutGas.None? && x.row.timeoutHash.Some?;
            && Starts(x, y, works, s, r.stateWrite)
            && (works && r.stateWrite.Stored? ==>
                  if r.gas.Got? then Prices(x, y, s, SetTimeoutGas(r.gas.value), r.write) else Shows(x, y, s, true))
    ensures var y, s := Process(cfg, p, RecvGasCost, x, r), CalculatingRecvTxGasCost;
            var works := cfg.destGas && x.copy.data.recvGas.None? && x.row.recvHash.Some?;
            && Starts(x, y, works, s, r.stateWrite)
            && (works && r.stateWrite.Stored? ==>
                  if r.gas.Got? then Prices(x, y, s, SetRecvGas(r.gas.value), r.write) else Shows(x, y, s, true))
    ensures var y, s := Process(cfg, p, AckGasCost, x, r), CalculatingAckTxGasCost;
            var works := cfg.sourceGas && x.copy.data.ackGas.None? && x.row.ackHash.Some?;
            && Starts(x, y, works, s, r.stateWrite)
            && (works && r.stateWrite.Stored? ==>
                  if r.gas.Got? then Prices(x, y, s, SetAckGas(r.gas.value), r.write) else Shows(x, y, s, true))
  {
  }

  // ----- finishing -----

  /** The completion the columns of a sound row call for, if any. */
  function Completion(cfg: Config, row: Row): Option<Status> {
    if row.timeoutHash.Some? then Some(CompleteWithTimeout)
    else match row.writeAckStatus
      case None => None
      case Some(a) =>
        if row.ackHash.Some? then Some(CompleteWithAck)
        else match a
          case SuccessAck => if cfg.relaySuccess then None else Some(CompleteWithWriteAckSuccess)
          case _ => if cfg.relayError then None else Some(CompleteWithWriteAckError)
  }

  /** The finisher writes exactly the completion that the columns call for. */
  lemma FinishLaw(cfg: Config, p: Packet, x: Image, r: Reply)
    requires Healthy(x) && RowOk(x.row)
    ensures var y, c := Process(cfg, p, Finish, x, r), Completion(cfg, x.row);
            if c.None? then y == x
            else y == Image(Copy(x.copy.data.(status := c.value), !r.write.Stored?), After(x.row, SetStatus(c.value), r.write))
  {
  }

  /** For a copy of any kind: what counts as complete. */
  lemma CompleteIff(cfg: Config, c: Copy)
    ensures IsComplete(cfg, c) <==>
              && !c.failed
              && (|| c.data.timeoutHash.Some?
                  || (&& c.data.recvHash.Some? && c.data.writeAckHash.Some?
                      && (|| c.data.ackHash.Some?
                          || (c.data.writeAckStatus == Some(SuccessAck) && !cfg.relaySuccess)
                          || (c.data.writeAckStatus == Some(ErrorAck) && !cfg.relayError)
                          || (c.data.writeAckStatus == Some(UnknownAck) && !cfg.relayError))))
  {
    match c.data.writeAckStatus {
      case None =>
      case Some(a) => assert a == SuccessAck || a == ErrorAck || a == UnknownAck;
    }
  }

  // ----- transfers that no stage works on -----

  /** A copy with an error, or of a row marked FAILED, passes through every stage untouched. */
  lemma PassedOn(cfg: Config, p: Packet, st: Stage, x: Image, r: Reply)
    requires x.copy.failed || (x.copy.data.status.Failed? && !st.Finish?)
    ensures Process(cfg, p, st, x, r) == x
  {
  }

  /** A retried recv is gone at the end of the pass, and nothing else has happened to the row
      since. */
  lemma RetriedRecvIsGone(cfg: Config, p: Packet, x: Image, rs: seq<Reply>)
    requires 8 + |rs| == LAST && Healthy(x) && rs[0].yes == Got(true) && rs[0].stateWrite.Stored? && rs[0].write.Stored?
    requires x.row.recvHash.Some? && x.row.recvTime.Some? && x.row.writeAckHash.None?
    ensures RunFrom(cfg, p, 8, x, rs).row == x.row.(status := DeliverRecvPacket, recvHash := None, recvTime := None)
  {
    hide Process;
    var y := Process(cfg, p, RetryRecv, x, rs[0]);
    RetryRecvLaw(cfg, p, x, rs[0]);
    FailedRun(cfg, p, 9, y, TwoChains.UNTOUCHED, rs[1..]);
  }
}
