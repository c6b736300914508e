/** The stages of the relay pipeline: when each runs, and what it does to the
    in-memory copy of a transfer and to its row. */
module Stages {
  import opened Wrappers
  import opened Transfers

  datatype Stage =
    | CheckRecv
    | CheckCommitment
    | CheckSendFinality
    | CheckTimeoutFinality
    | BatchTimeout
    | RetryTimeout
    | TimeoutGasCost
    | BatchRecv
    | RetryRecv
    | RecvGasCost
    | AwaitWriteAck
    | CheckWriteAckFinality
    | RecheckCommitment
    | BatchAck
    | RetryAck
    | AckGasCost
    | Finish

  const LAST: nat := 17

  /** The order in which the pipeline connects the stages. */
  function StageAt(i: nat): Stage
    requires i < LAST
  {
    match i
    case 0 => CheckRecv
    case 1 => CheckCommitment
    case 2 => CheckSendFinality
    case 3 => CheckTimeoutFinality
    case 4 => BatchTimeout
    case 5 => RetryTimeout
    case 6 => TimeoutGasCost
    case 7 => BatchRecv
    case 8 => RetryRecv
    case 9 => RecvGasCost
    case 10 => AwaitWriteAck
    case 11 => CheckWriteAckFinality
    case 12 => RecheckCommitment
    case 13 => BatchAck
    case 14 => RetryAck
    case 15 => AckGasCost
    case _ => Finish
  }

  predicate IsBatch(st: Stage) {
    st.BatchTimeout? || st.BatchRecv? || st.BatchAck?
  }

  /** The status a transfer shows while the stage works on it. */
  function StatusOf(st: Stage): Status {
    match st
    case CheckRecv => CheckRecvPacketDelivery
    case CheckCommitment | RecheckCommitment => CheckAckPacketDelivery
    case CheckSendFinality => AwaitingSendFinality
    case CheckTimeoutFinality => AwaitingTimeoutFinality
    case BatchTimeout | RetryTimeout => DeliverTimeoutPacket
    case TimeoutGasCost => CalculatingTimeoutTxGasCost
    case BatchRecv | RetryRecv => DeliverRecvPacket
    case RecvGasCost => CalculatingRecvTxGasCost
    case AwaitWriteAck => WaitForWriteAck
    case CheckWriteAckFinality => AwaitingWriteAckFinality
    case BatchAck | RetryAck => DeliverAckPacket
    case AckGasCost => CalculatingAckTxGasCost
    case Finish => CompleteWithAck // the finisher picks its own status
  }

  /** The guard of each stage.  A gas-cost stage that is not configured never runs. */
  predicate ShouldProcess(cfg: Config, p: Packet, st: Stage, d: Row, now: Time) {
    match st
    case CheckRecv =>
      d.recvHash.None? && d.ackHash.None? && d.timeoutHash.None?
    case CheckCommitment | RecheckCommitment =>
      d.ackHash.None? && d.timeoutHash.None?
    case CheckSendFinality =>
      d.recvHash.None?
    case CheckTimeoutFinality | BatchTimeout =>
      IsTimedOut(p, now) && d.recvHash.None? && d.ackHash.None? && d.timeoutHash.None?
    case RetryTimeout =>
      d.timeoutHash.Some? && d.timeoutTime.Some?
    case TimeoutGasCost =>
      cfg.sourceGas && d.timeoutGas.None? && d.timeoutHash.Some?
    case BatchRecv =>
      d.recvHash.None? && !IsTimedOut(p, now)
    case RetryRecv =>
      d.recvHash.Some? && d.recvTime.Some? && d.writeAckHash.None?
    case RecvGasCost =>
      cfg.destGas && d.recvGas.None? && d.recvHash.Some?
    case AwaitWriteAck =>
      d.recvHash.Some? && d.writeAckHash.None? && d.timeoutHash.None?
    case CheckWriteAckFinality =>
      d.writeAckHash.Some? && d.writeAckStatus.Some? && Relays(cfg, d.writeAckStatus.value)
    case BatchAck =>
      d.writeAckHash.Some? && d.writeAckStatus.Some? && Relays(cfg, d.writeAckStatus.value)
      && d.ackHash.None? && d.timeoutHash.None?
    case RetryAck =>
      d.ackHash.Some? && d.ackTime.Some?
    case AckGasCost =>
      cfg.sourceGas && d.ackGas.None? && d.ackHash.Some?
    case Finish => true
  }

  /** What the destination client says about the write ack in the recv transaction. */
  datatype WriteAckAnswer = NotInTx | Undecodable | CallFailed | Found(ack: AckStatus)

  /** Everything the outside world may answer while one stage handles one transfer. */
  datatype Reply = Reply(
    now: Time,                    // clock at the guard (of a batch stage: when the item is queued)
    later: Time,                  // clock when the batch is processed
    stateWrite: Write,            // the status update made before the stage runs
    yes: Answer<bool>,            // received? committed? finalized? retry?
    tx: Answer<Tx>,               // the transaction found or delivered
    ackTx: Option<Tx>,            // search for an ack transaction
    timeoutTx: Option<Tx>,        // search for a timeout transaction
    writeAck: WriteAckAnswer,
    gas: Answer<Option<int>>,
    decodes: bool,                // the hash put into the proof request is valid hex
    write: Write)                 // the stage's own update, or the commit of its batch

  /** A transfer in flight: its copy in memory and its row. */
  datatype Image = Image(copy: Copy, row: Row)

  function Stop(x: Image): Image {
    x.(copy := x.copy.(failed := true))
  }

  /** Write-through: the copy changes only if the row update was confirmed. */
  function Save(x: Image, q: Query, w: Write): Image {
    var row := After(x.row, q, w);
    if w.Stored?
    then Image(x.copy.(data := Change(x.copy.data, q)), row)
    else Image(x.copy.(failed := true), row)
  }

  /** What a stage decides to do once it has its answers. */
  datatype Effect =
    | Skip              // leave the transfer alone and pass it on
    | Halt              // error: nothing more happens to it in this pass
    | Put(q: Query)     // write through
    | Wipe(q: Query)    // clear a recorded transaction and give up on this pass
    | Price(q: Query)   // write a gas cost to the row only
    | NoteFinal         // an update without a row key matches no row: only the copy changes

  function Execute(x: Image, e: Effect, r: Reply): Image {
    match e
    case Skip => x
    case Halt => Stop(x)
    case Put(q) => Save(x, q, r.write)
    case Wipe(q) => Stop(x.(row := After(x.row, q, r.write)))
    case Price(q) =>
      var y := x.(row := After(x.row, q, r.write));
      if r.write.Stored? then y else Stop(y)
    case NoteFinal =>
      if r.write.Stored?
      then x.(copy := x.copy.(data := x.copy.data.(writeAckFinal := Some(r.later))))
      else Stop(x)
  }

  /** The batch transaction went out with this transfer in it. */
  predicate Sent(r: Reply) {
    r.decodes && r.tx.Got?
  }

  function Retry(q: Query, r: Reply): Effect {
    if r.yes.NoAnswer? then Halt else if r.yes.value then Wipe(q) else Skip
  }

  function Receipt(r: Reply): Effect {
    if r.yes.NoAnswer? then Halt
    else if !r.yes.value then Skip
    else if r.tx.NoAnswer? then Halt
    else Put(SetRecv(r.tx.value))
  }

  function Commitment(r: Reply): Effect {
    if r.yes.NoAnswer? then Halt
    else if r.yes.value then Skip
    else match (r.ackTx, r.timeoutTx)
      case (Some(_), Some(_)) => Halt
      case (Some(tx), None) => Put(SetAck(tx))
      case (None, Some(tx)) => Put(SetTimeout(tx))
      case (None, None) => Halt
  }

  /** Go's zero time, stored when a recv hash has no recv time. */
  const ZERO_TIME: Time := 0

  function WriteAck(d: Row, r: Reply): Effect {
    if d.recvHash.None? then Halt
    else
      var time := if d.recvTime.Some? then d.recvTime.value else ZERO_TIME;
      match r.writeAck
      case NotInTx => Wipe(ClearRecv)
      case CallFailed => Halt
      case Undecodable => Put(SetWriteAck(d.recvHash.value, time, UnknownAck))
      case Found(a) => Put(SetWriteAck(d.recvHash.value, time, a))
  }

  function Decide(st: Stage, d: Row, r: Reply): Effect {
    match st
    case CheckRecv => Receipt(r)
    case CheckCommitment | RecheckCommitment => Commitment(r)
    case CheckSendFinality =>
      if r.yes != Got(true) then Halt
      else if d.sourceFinal.None? then Put(SetSourceFinal(r.later))
      else Skip
    case CheckTimeoutFinality => if r.yes != Got(true) then Halt else Skip
    case BatchTimeout => if Sent(r) then Put(SetTimeout(r.tx.value)) else Halt
    case RetryTimeout => Retry(ClearTimeout, r)
    case TimeoutGasCost => if r.gas.Got? then Price(SetTimeoutGas(r.gas.value)) else Halt
    case BatchRecv => if Sent(r) then Put(SetRecv(r.tx.value)) else Halt
    case RetryRecv => Retry(ClearRecv, r)
    case RecvGasCost => if r.gas.Got? then Price(SetRecvGas(r.gas.value)) else Halt
    case AwaitWriteAck => WriteAck(d, r)
    case CheckWriteAckFinality =>
      if r.yes != Got(true) then Halt
      else if d.writeAckFinal.None? then NoteFinal
      else Skip
    case BatchAck => if d.writeAckHash.Some? && Sent(r) then Put(SetAck(r.tx.value)) else Halt
    case RetryAck => Retry(ClearAck, r)
    case AckGasCost => if r.gas.Got? then Price(SetAckGas(r.gas.value)) else Halt
    case Finish => Skip
  }

  /** The terminal status of a complete transfer, if one can be told. */
  function FinalStatus(d: Row): Option<Status> {
    if d.timeoutHash.Some? then Some(CompleteWithTimeout)
    else if d.writeAckStatus.None? then None
    else if d.ackHash.Some? then Some(CompleteWithAck)
    else if d.writeAckStatus.value.SuccessAck? then Some(CompleteWithWriteAckSuccess)
    else Some(CompleteWithWriteAckError)
  }

  /** The finisher sets the status in memory first, whatever the write does. */
  function Finisher(cfg: Config, x: Image, r: Reply): Image {
    if x.copy.failed || !IsComplete(cfg, x.copy) || FinalStatus(x.copy.data).None? then x
    else
      var s := FinalStatus(x.copy.data).value;
      Image(Copy(x.copy.data.(status := s), !r.write.Stored?), After(x.row, SetStatus(s), r.write))
  }

  /** The middleware lets this stage work on the transfer. */
  predicate Admits(cfg: Config, p: Packet, st: Stage, x: Image, r: Reply) {
    && !x.copy.failed
    && !x.copy.data.status.Failed?
    && ShouldProcess(cfg, p, st, x.copy.data, r.now)
    && (IsBatch(st) ==> ShouldProcess(cfg, p, st, x.copy.data, r.later))
  }

  /** Show the stage's status, then do what the stage decides. */
  function Handle(st: Stage, x: Image, r: Reply): Image {
    var y := Save(x, SetStatus(StatusOf(st)), r.stateWrite);
    if y.copy.failed then y else Execute(y, Decide(st, y.copy.data, r), r)
  }

  /** One stage, wrapped by the middleware, on one transfer. */
  function Process(cfg: Config, p: Packet, st: Stage, x: Image, r: Reply): Image {
    if st.Finish? then Finisher(cfg, x, r)
    else if !Admits(cfg, p, st, x, r) then x
    else Handle(st, x, r)
  }

  /** The stages from position `i` to the end of one pass, one reply each. */
  function RunFrom(cfg: Config, p: Packet, i: nat, x: Image, rs: seq<Reply>): Image
    requires i + |rs| == LAST
    decreases |rs|
  {
    if rs == [] then x
    else RunFrom(cfg, p, i + 1, Process(cfg, p, StageAt(i), x, rs[0]), rs[1..])
  }

  /** One whole pass over a freshly loaded row. */
  function RunPass(cfg: Config, p: Packet, row: Row, rs: seq<Reply>): Image
    requires |rs| == LAST
  {
    RunFrom(cfg, p, 0, Image(Load(row), row), rs)
  }
}
