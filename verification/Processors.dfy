/** The transfer object, the single-transfer stages that change it in place, and the
    middleware around them, each proved against the stage functions. */
module Processors {
  import opened Wrappers
  import opened Transfers
  import opened Stages
  import opened Store

  class Transfer {
    const packet: Packet
    var state: Status
    var sourceTxFinalizedTime: Option<Time>
    var recvTxHash: Option<string>
    var recvTxTime: Option<Time>
    var recvTxGasCostUSD: Option<int>
    var writeAckTxHash: Option<string>
    var writeAckTxTime: Option<Time>
    var writeAckStatus: Option<AckStatus>
    var writeAckTxFinalizedTime: Option<Time>
    var ackTxHash: Option<string>
    var ackTxTime: Option<Time>
    var ackTxGasCostUSD: Option<int>
    var timeoutTxHash: Option<string>
    var timeoutTxTime: Option<Time>
    var timeoutTxGasCostUSD: Option<int>
    var processingError: bool

    /** The in-memory form of a row. */
    constructor (p: Packet, row: Row)
      ensures packet == p && Snapshot() == Load(row)
    {
      packet := p;
      state, sourceTxFinalizedTime := row.status, row.sourceFinal;
      recvTxHash, recvTxTime, recvTxGasCostUSD := row.recvHash, row.recvTime, row.recvGas;
      writeAckTxHash, writeAckTxTime := row.writeAckHash, row.writeAckTime;
      writeAckStatus, writeAckTxFinalizedTime := row.writeAckStatus, row.writeAckFinal;
      ackTxHash, ackTxTime, ackTxGasCostUSD := row.ackHash, row.ackTime, row.ackGas;
      timeoutTxHash, timeoutTxTime, timeoutTxGasCostUSD := row.timeoutHash, row.timeoutTime, row.timeoutGas;
      processingError := false;
    }

    /** Bring the fields in line with an update made to the row. */
    method Assign(q: Query)
      modifies this
      ensures Data() == Change(old(Data()), q) && processingError == old(processingError)
    {
      match q {
        case SetStatus(s) => state := s;
        case SetSourceFinal(t) => sourceTxFinalizedTime := Some(t);
        case SetRecv(tx) => recvTxHash, recvTxTime := Some(tx.hash), Some(tx.time);
        case ClearRecv => recvTxHash, recvTxTime := None, None;
        case SetWriteAck(h, t, a) =>
          writeAckTxHash, writeAckTxTime, writeAckStatus := Some(h), Some(t), Some(a);
        case SetAck(tx) => ackTxHash, ackTxTime := Some(tx.hash), Some(tx.time);
        case ClearAck => ackTxHash, ackTxTime := None, None;
        case SetTimeout(tx) => timeoutTxHash, timeoutTxTime := Some(tx.hash), Some(tx.time);
        case ClearTimeout => timeoutTxHash, timeoutTxTime := None, None;
        case SetRecvGas(u) => recvTxGasCostUSD := u;
        case SetAckGas(u) => ackTxGasCostUSD := u;
        case SetTimeoutGas(u) => timeoutTxGasCostUSD := u;
      }
    }

    function Data(): (d: Row)
      reads this
      ensures d.status == state
    {
      Row(state, sourceTxFinalizedTime, recvTxHash, recvTxTime, recvTxGasCostUSD,
          writeAckTxHash, writeAckTxTime, writeAckStatus, writeAckTxFinalizedTime,
          ackTxHash, ackTxTime, ackTxGasCostUSD, timeoutTxHash, timeoutTxTime, timeoutTxGasCostUSD)
    }

    function Snapshot(): Copy
      reads this
    {
      Copy(Data(), processingError)
    }
  }

  ghost function ImageOf(t: Transfer, db: Database): Image
    requires t.packet.key in db.tables.rows
    reads t, db
  {
    Image(t.Snapshot(), db.tables.rows[t.packet.key])
  }

  /** Nothing in the database but the row of `k` differs. */
  ghost predicate OnlyRow(before: Tables, after: Tables, k: Key) {
    && after.rows.Keys == before.rows.Keys
    && (forall j :: j in before.rows && j != k ==> after.rows[j] == before.rows[j])
    && after.submissions == before.submissions && after.links == before.links
  }

  /** The stage's own work: transfer and row are what the stage function says, except that
      a returned error is not yet marked on the transfer. */
  twostate predicate Worked(st: Stage, t: Transfer, db: Database, r: Reply, err: bool)
    requires t.packet.key in old(db.tables.rows)
    reads t, db
  {
    var y := Execute(old(ImageOf(t, db)), Decide(st, old(t.Data()), r), r);
    && OnlyRow(old(db.tables), db.tables, t.packet.key)
    && db.tables.rows[t.packet.key] == y.row
    && y.copy == Copy(t.Data(), err)
    && !t.processingError
  }

  method CheckRecvDelivery(t: Transfer, db: Database, r: Reply) returns (err: bool)
    requires t.packet.key in db.tables.rows && !t.processingError
    modifies t, db
    ensures Worked(CheckRecv, t, db, r, err)
  {
    hide Change;
    if r.yes.NoAnswer? { return true; }
    if !r.yes.value { return false; }
    if r.tx.NoAnswer? { return true; }
    var recvTx := r.tx.value;
    var ok := db.Exec(t.packet.key, SetRecv(recvTx), r.write);
    if !ok { return true; }
    t.Assign(SetRecv(recvTx));
    return false;
  }

  method CheckPacketCommitment(st: Stage, t: Transfer, db: Database, r: Reply) returns (err: bool)
    requires st.CheckCommitment? || st.RecheckCommitment?
    requires t.packet.key in db.tables.rows && !t.processingError
    modifies t, db
    ensures Worked(st, t, db, r, err)
  {
    hide Change;
    if r.yes.NoAnswer? { return true; }
    if r.yes.value { return false; }
    match (r.ackTx, r.timeoutTx) {
      case (Some(_), Some(_)) =>
        return true;
      case (Some(ackTx), None) =>
        var ok := db.Exec(t.packet.key, SetAck(ackTx), r.write);
        if !ok { return true; }
        t.Assign(SetAck(ackTx));
        return false;
      case (None, Some(timeoutTx)) =>
        var ok := db.Exec(t.packet.key, SetTimeout(timeoutTx), r.write);
        if !ok { return true; }
        t.Assign(SetTimeout(timeoutTx));
        return false;
      case (None, None) =>
        return true;
    }
  }

  method CheckSendTxFinality(t: Transfer, db: Database, r: Reply) returns (err: bool)
    requires t.packet.key in db.tables.rows && !t.processingError
    modifies t, db
    ensures Worked(CheckSendFinality, t, db, r, err)
  {
    hide Change;
    if r.yes != Got(true) { return true; }
    if t.sourceTxFinalizedTime.None? {
      var ok := db.Exec(t.packet.key, SetSourceFinal(r.later), r.write);
      if !ok { return true; }
      t.Assign(SetSourceFinal(r.later));
    }
    return false;
  }

  /** The three retry stages differ only in the transaction they look at. */
  method RetryPacket(st: Stage, t: Transfer, db: Database, r: Reply) returns (err: bool)
    requires st.RetryTimeout? || st.RetryRecv? || st.RetryAck?
    requires t.packet.key in db.tables.rows && !t.processingError
    modifies db
    ensures Worked(st, t, db, r, err)
  {
    hide Change;
    if r.yes.NoAnswer? { return true; }
    if !r.yes.value { return false; }
    var clear := if st.RetryTimeout? then ClearTimeout else if st.RetryRecv? then ClearRecv else ClearAck;
    var _ := db.Exec(t.packet.key, clear, r.write);
    return true;
  }

  /** The three gas-cost stages write to the row and leave the transfer alone. */
  method RecordGasCost(st: Stage, t: Transfer, db: Database, r: Reply) returns (err: bool)
    requires st.TimeoutGasCost? || st.RecvGasCost? || st.AckGasCost?
    requires t.packet.key in db.tables.rows && !t.processingError
    modifies db
    ensures Worked(st, t, db, r, err)
  {
    hide Change;
    if r.gas.NoAnswer? { return true; }
    var usd := r.gas.value;
    var q := if st.TimeoutGasCost? then SetTimeoutGas(usd) else if st.RecvGasCost? then SetRecvGas(usd) else SetAckGas(usd);
    var ok := db.Exec(t.packet.key, q, r.write);
    return !ok;
  }

  method WaitForWriteAckPacket(t: Transfer, db: Database, r: Reply) returns (err: bool)
    requires t.packet.key in db.tables.rows && !t.processingError
    modifies t, db
    ensures Worked(AwaitWriteAck, t, db, r, err)
  {
    hide Change;
    if t.recvTxHash.None? { return true; }
    var recvHash := t.recvTxHash.value;
    if r.writeAck.NotInTx? {
      var _ := db.Exec(t.packet.key, ClearRecv, r.write);
      return true;
    }
    if r.writeAck.CallFailed? { return true; }
    var status := if r.writeAck.Undecodable? then UnknownAck else r.writeAck.ack;
    var time := if t.recvTxTime.Some? then t.recvTxTime.value else ZERO_TIME;
    var ok := db.Exec(t.packet.key, SetWriteAck(recvHash, time, status), r.write);
    if !ok { return true; }
    t.Assign(SetWriteAck(recvHash, time, status));
    return false;
  }

  /** The update is sent without the row's key, so no row of the table is touched. */
  method CheckWriteAckTxFinality(t: Transfer, db: Database, r: Reply) returns (err: bool)
    requires t.packet.key in db.tables.rows && !t.processingError
    modifies t
    ensures Worked(CheckWriteAckFinality, t, db, r, err)
  {
    if r.yes != Got(true) { return true; }
    if t.writeAckTxFinalizedTime.None? {
      if !r.write.Stored? { return true; }
      t.writeAckTxFinalizedTime := Some(r.later);
    }
    return false;
  }

  method FinishState(cfg: Config, t: Transfer, db: Database, r: Reply)
    requires t.packet.key in db.tables.rows
    modifies t, db
    ensures t.packet.key in db.tables.rows
    ensures ImageOf(t, db) == Finisher(cfg, old(ImageOf(t, db)), r)
    ensures OnlyRow(old(db.tables), db.tables, t.packet.key)
  {
    hide IsComplete;
    if t.processingError { return; }
    if !IsComplete(cfg, t.Snapshot()) { return; }
    if t.timeoutTxHash.Some? {
      t.state := CompleteWithTimeout;
    } else {
      if t.writeAckStatus.None? { return; }
      if t.ackTxHash.Some? {
        t.state := CompleteWithAck;
      } else if t.writeAckStatus.value.SuccessAck? {
        t.state := CompleteWithWriteAckSuccess;
      } else {
        t.state := CompleteWithWriteAckError;
      }
    }
    assert FinalStatus(old(t.Data())) == Some(t.state) && t.Data() == old(t.Data()).(status := t.state);
    var ok := db.Exec(t.packet.key, SetStatus(t.state), r.write);
    if !ok { t.processingError := true; }
  }

  method Work(st: Stage, t: Transfer, db: Database, r: Reply) returns (err: bool)
    requires !IsBatch(st) && !st.Finish?
    requires t.packet.key in db.tables.rows && !t.processingError
    modifies t, db
    ensures Worked(st, t, db, r, err)
  {
    match st {
      case CheckRecv => err := CheckRecvDelivery(t, db, r);
      case CheckCommitment | RecheckCommitment => err := CheckPacketCommitment(st, t, db, r);
      case CheckSendFinality => err := CheckSendTxFinality(t, db, r);
      case CheckTimeoutFinality => err := r.yes != Got(true);
      case RetryTimeout | RetryRecv | RetryAck => err := RetryPacket(st, t, db, r);
      case TimeoutGasCost | RecvGasCost | AckGasCost => err := RecordGasCost(st, t, db, r);
      case AwaitWriteAck => err := WaitForWriteAckPacket(t, db, r);
      case CheckWriteAckFinality => err := CheckWriteAckTxFinality(t, db, r);
    }
  }

  /** Before a stage works on a transfer, its status is written through. */
  method EnterStage(st: Stage, t: Transfer, db: Database, r: Reply) returns (ok: bool)
    requires t.packet.key in db.tables.rows && !t.processingError
    modifies t, db
    ensures t.packet.key in db.tables.rows
    ensures ImageOf(t, db) == Save(old(ImageOf(t, db)), SetStatus(StatusOf(st)), r.stateWrite)
    ensures (ok <==> !t.processingError) && (ok <==> r.stateWrite.Stored?)
    ensures OnlyRow(old(db.tables), db.tables, t.packet.key)
  {
    hide Change, StatusOf;
    ok := db.Exec(t.packet.key, SetStatus(StatusOf(st)), r.stateWrite);
    if !ok {
      t.processingError := true;
      return;
    }
    t.Assign(SetStatus(StatusOf(st)));
  }

  /** The middleware around one single-transfer stage computes exactly the stage function
      on the transfer and its row, and touches nothing else in the database. */
  method ProcessTransfer(cfg: Config, st: Stage, t: Transfer, db: Database, r: Reply)
    requires !IsBatch(st) && !st.Finish?
    requires t.packet.key in db.tables.rows
    modifies t, db
    ensures t.packet.key in db.tables.rows
    ensures ImageOf(t, db) == Process(cfg, t.packet, st, old(ImageOf(t, db)), r)
    ensures OnlyRow(old(db.tables), db.tables, t.packet.key)
  {
    hide Change, Decide, Execute, StatusOf, ShouldProcess, Save;
    if t.processingError || t.state.Failed? { return; }
    if !ShouldProcess(cfg, t.packet, st, t.Data(), r.now) { return; }
    var ok := EnterStage(st, t, db, r);
    if !ok { return; }
    var err := Work(st, t, db, r);
    if err {
      t.processingError := true;
    }
  }
}
