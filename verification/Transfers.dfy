/** Small value types shared by every module. */
module Wrappers {
  type Time = int

  datatype Option<+T> = None | Some(value: T)

  /** The answer to a call that leaves the process: a value, or an error of any kind. */
  datatype Answer<+T> = NoAnswer | Got(value: T)
}

/** The transfer record, its row in `ibcv2_transfers` and the SQL statements that change the row. */
module Transfers {
  import opened Wrappers

  datatype Status =
    | Pending
    | CheckRecvPacketDelivery
    | CheckAckPacketDelivery
    | AwaitingSendFinality
    | AwaitingTimeoutFinality
    | DeliverTimeoutPacket
    | CalculatingTimeoutTxGasCost
    | DeliverRecvPacket
    | CalculatingRecvTxGasCost
    | WaitForWriteAck
    | AwaitingWriteAckFinality
    | DeliverAckPacket
    | CalculatingAckTxGasCost
    | CompleteWithAck
    | CompleteWithTimeout
    | CompleteWithWriteAckSuccess
    | CompleteWithWriteAckError
    | Failed

  datatype AckStatus = SuccessAck | ErrorAck | UnknownAck

  /** The unique index of the table: source chain, source client, sequence. */
  datatype Key = Key(chain: string, client: string, sequence: nat)

  /** The columns written once, when the relay request is accepted. */
  datatype Packet = Packet(
    id: int,
    key: Key,
    destChain: string,
    destClient: string,
    sourceTx: string,
    timeout: Time)

  /** A transaction as a bridge client reports it. */
  datatype Tx = Tx(hash: string, time: Time)

  /** The columns that the pipeline writes. */
  datatype Row = Row(
    status: Status,
    sourceFinal: Option<Time>,
    recvHash: Option<string>, recvTime: Option<Time>, recvGas: Option<int>,
    writeAckHash: Option<string>, writeAckTime: Option<Time>,
    writeAckStatus: Option<AckStatus>, writeAckFinal: Option<Time>,
    ackHash: Option<string>, ackTime: Option<Time>, ackGas: Option<int>,
    timeoutHash: Option<string>, timeoutTime: Option<Time>, timeoutGas: Option<int>)

  /** The row as the relay request inserts it. */
  const NEW_ROW := Row(Pending, None, None, None, None, None, None, None, None,
                       None, None, None, None, None, None)

  /** The statuses that keep a row out of the unfinished query. */
  predicate Finished(s: Status) {
    s.CompleteWithAck? || s.CompleteWithTimeout? || s.Failed?
    || s.CompleteWithWriteAckSuccess? || s.CompleteWithWriteAckError?
  }

  /** One keyed UPDATE of `ibcv2_transfers`. */
  datatype Query =
    | SetStatus(status: Status)
    | SetSourceFinal(time: Time)
    | SetRecv(tx: Tx)
    | ClearRecv
    | SetWriteAck(hash: string, time: Time, ack: AckStatus)
    | SetAck(tx: Tx)
    | ClearAck
    | SetTimeout(tx: Tx)
    | ClearTimeout
    | SetRecvGas(usd: Option<int>)
    | SetAckGas(usd: Option<int>)
    | SetTimeoutGas(usd: Option<int>)

  /** What the statement does to the row it matches. */
  function Change(row: Row, q: Query): Row {
    match q
    case SetStatus(s) => row.(status := s)
    case SetSourceFinal(t) => row.(sourceFinal := Some(t))
    case SetRecv(tx) => row.(recvHash := Some(tx.hash), recvTime := Some(tx.time))
    case ClearRecv => row.(recvHash := None, recvTime := None)
    case SetWriteAck(h, t, a) =>
      row.(writeAckHash := Some(h), writeAckTime := Some(t), writeAckStatus := Some(a))
    case SetAck(tx) => row.(ackHash := Some(tx.hash), ackTime := Some(tx.time))
    case ClearAck => row.(ackHash := None, ackTime := None)
    case SetTimeout(tx) => row.(timeoutHash := Some(tx.hash), timeoutTime := Some(tx.time))
    case ClearTimeout => row.(timeoutHash := None, timeoutTime := None)
    case SetRecvGas(u) => row.(recvGas := u)
    case SetAckGas(u) => row.(ackGas := u)
    case SetTimeoutGas(u) => row.(timeoutGas := u)
  }

  /** How a write ended: `Lost` took effect although the caller was told it failed. */
  datatype Write = Stored | Refused | Lost

  function After(row: Row, q: Query, w: Write): Row {
    if w.Refused? then row else Change(row, q)
  }

  /** The in-memory copy of a row that travels through the pipeline. */
  datatype Copy = Copy(data: Row, failed: bool)

  function Load(row: Row): Copy {
    Copy(row, false)
  }

  /** The columns whose value in memory must match the row.  The pipeline never
      stores the write-ack finality time, and never loads gas costs back. */
  function Tracked(row: Row): Row {
    row.(recvGas := None, ackGas := None, timeoutGas := None, writeAckFinal := None)
  }

  predicate IsTimedOut(p: Packet, now: Time) {
    p.timeout < now
  }

  datatype Config = Config(relaySuccess: bool, relayError: bool, sourceGas: bool, destGas: bool)

  /** Whether the configuration wants an acknowledgement of this kind relayed. */
  predicate Relays(cfg: Config, a: AckStatus) {
    if a.SuccessAck? then cfg.relaySuccess else cfg.relayError
  }

  predicate IsComplete(cfg: Config, c: Copy) {
    if c.failed then false
    else if c.data.timeoutHash.Some? then true
    else if c.data.recvHash.None? || c.data.writeAckHash.None? then false
    else if c.data.ackHash.Some? then true
    else c.data.writeAckStatus.Some? && !Relays(cfg, c.data.writeAckStatus.value)
  }
}
