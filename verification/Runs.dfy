/** The life of one transfer over any number of passes: what every step keeps. */
module Runs {
  import opened Wrappers
  import opened Transfers
  import opened Stages

  // ----- what holds of every row, and of every copy in flight -----

  ghost predicate RowOk(row: Row) {
    && !(row.ackHash.Some? && row.timeoutHash.Some?)
    && (row.recvHash.Some? <==> row.recvTime.Some?)
    && (row.ackHash.Some? <==> row.ackTime.Some?)
    && (row.timeoutHash.Some? <==> row.timeoutTime.Some?)
    && (row.writeAckHash.Some? <==> row.writeAckTime.Some?)
    && (row.writeAckHash.Some? <==> row.writeAckStatus.Some?)
    && (row.writeAckHash.Some? ==> row.recvHash == row.writeAckHash)
    && row.writeAckFinal.None?
  }

  /** A copy without an error agrees with its row on every tracked column. */
  ghost predicate Agrees(x: Image) {
    !x.copy.failed ==> Tracked(x.copy.data) == Tracked(x.row)
  }

  /** Column by column: status, send finality, the four transactions with their times, and the
      kind of write ack. */
  lemma AgreementIs(x: Image)
    ensures var d, row := x.copy.data, x.row;
            !x.copy.failed ==>
              (Agrees(x) <==>
                 && d.status == row.status && d.sourceFinal == row.sourceFinal
                 && d.recvHash == row.recvHash && d.recvTime == row.recvTime
                 && d.writeAckHash == row.writeAckHash && d.writeAckTime == row.writeAckTime
                 && d.writeAckStatus == row.writeAckStatus
                 && d.ackHash == row.ackHash && d.ackTime == row.ackTime
                 && d.timeoutHash == row.timeoutHash && d.timeoutTime == row.timeoutTime)
  {
  }

  ghost predicate ImageOk(x: Image) {
    RowOk(x.row) && Agrees(x)
  }

  /** Once a write ack is recorded, it and the recv it was found in are fixed. */
  ghost predicate WriteAckFixed(before: Row, after: Row) {
    before.writeAckHash.Some? ==>
      && after.recvHash == before.recvHash && after.recvTime == before.recvTime
      && after.writeAckHash == before.writeAckHash && after.writeAckTime == before.writeAckTime
      && after.writeAckStatus == before.writeAckStatus
  }

  /** The situations in which the pipeline issues each update. */
  ghost predicate Allowed(row: Row, q: Query) {
    match q
    case SetStatus(_) | SetSourceFinal(_) => true
    case SetRecv(_) | ClearRecv => row.writeAckHash.None?
    case SetWriteAck(h, _, _) => row.recvHash == Some(h) && row.writeAckHash.None?
    case SetAck(_) => row.timeoutHash.None?
    case SetTimeout(_) => row.ackHash.None?
    case ClearAck | ClearTimeout | SetRecvGas(_) | SetAckGas(_) | SetTimeoutGas(_) => true
  }

  lemma ChangeKeeps(row: Row, q: Query, w: Write)
    requires RowOk(row) && Allowed(row, q)
    ensures RowOk(After(row, q, w)) && WriteAckFixed(row, After(row, q, w))
    ensures !q.SetStatus? ==> After(row, q, w).status == row.status
  {
  }

  lemma DecideAllowed(cfg: Config, p: Packet, st: Stage, d: Row, r: Reply)
    requires RowOk(d.(writeAckFinal := None)) && ShouldProcess(cfg, p, st, d, r.now)
    ensures var e := Decide(st, d, r);
            e.Put? || e.Wipe? || e.Price? ==> Allowed(d, e.q) && !e.q.SetStatus?
    ensures var e := Decide(st, d, r);
            e.Price? ==> e.q.SetRecvGas? || e.q.SetAckGas? || e.q.SetTimeoutGas?
  {
  }

  lemma ExecuteKeeps(x: Image, e: Effect, r: Reply)
    requires ImageOk(x) && !x.copy.failed
    requires e.Put? || e.Wipe? || e.Price? ==> Allowed(x.row, e.q)
    requires e.Price? ==> e.q.SetRecvGas? || e.q.SetAckGas? || e.q.SetTimeoutGas?
    ensures ImageOk(Execute(x, e, r)) && WriteAckFixed(x.row, Execute(x, e, r).row)
    ensures e.Put? || e.Wipe? || e.Price? ==> !e.q.SetStatus? ==> Execute(x, e, r).row.status == x.row.status
    ensures !(e.Put? || e.Wipe? || e.Price?) ==> Execute(x, e, r).row == x.row
  {
    if e.Put? || e.Wipe? || e.Price? {
      ChangeKeeps(x.row, e.q, r.write);
    }
  }

  lemma FinisherKeeps(cfg: Config, x: Image, r: Reply)
    requires ImageOk(x)
    ensures ImageOk(Finisher(cfg, x, r)) && WriteAckFixed(x.row, Finisher(cfg, x, r).row)
  {
  }

  lemma HandleKeeps(cfg: Config, p: Packet, st: Stage, x: Image, r: Reply)
    requires ImageOk(x) && !st.Finish? && !x.copy.failed && ShouldProcess(cfg, p, st, x.copy.data, r.now)
    ensures ImageOk(Handle(st, x, r)) && WriteAckFixed(x.row, Handle(st, x, r).row)
    ensures Handle(st, x, r).row.status in {x.row.status, StatusOf(st)}
  {
    var s := SetStatus(StatusOf(st));
    var y := Save(x, s, r.stateWrite);
    ChangeKeeps(x.row, s, r.stateWrite);
    assert ImageOk(y);
    if !y.copy.failed {
      DecideAllowed(cfg, p, st, y.copy.data, r);
      ExecuteKeeps(y, Decide(st, y.copy.data, r), r);
    }
  }

  /** Every stage, whatever it is told and however its writes end, keeps the row
      sound and the copy in agreement, and never disturbs a recorded write ack. */
  lemma ProcessKeeps(cfg: Config, p: Packet, st: Stage, x: Image, r: Reply)
    requires ImageOk(x)
    ensures ImageOk(Process(cfg, p, st, x, r))
    ensures WriteAckFixed(x.row, Process(cfg, p, st, x, r).row)
    ensures !st.Finish? && !Finished(x.row.status) ==> !Finished(Process(cfg, p, st, x, r).row.status)
    ensures !x.row.status.Failed? ==> !Process(cfg, p, st, x, r).row.status.Failed?
  {
    if st.Finish? {
      FinisherKeeps(cfg, x, r);
    } else if Admits(cfg, p, st, x, r) {
      HandleKeeps(cfg, p, st, x, r);
    }
  }

  // ----- one transfer as a state machine -----

  /** Where the single live copy of the transfer is: nowhere, or before stage `pos`. */
  datatype Flight = Out | In(pos: nat, copy: Copy)

  datatype Local = Local(row: Row, flight: Flight)

  datatype Event =
    | Enter                       // the dispatcher reads the row and pushes a copy
    | Reject(write: Write)        // no pipeline for it: the dispatcher marks the row FAILED
    | Advance(reply: Reply)       // the next stage handles the copy
    | Leave                       // the copy comes out of the pipeline

  /** Events that are not possible in a state leave it unchanged. */
  function Move(cfg: Config, p: Packet, l: Local, e: Event): Local {
    match e
    case Enter =>
      if l.flight.Out? && !Finished(l.row.status) then l.(flight := In(0, Load(l.row))) else l
    case Reject(w) =>
      if l.flight.Out? && !Finished(l.row.status) then l.(row := After(l.row, SetStatus(Failed), w)) else l
    case Advance(r) =>
      if l.flight.In? && l.flight.pos < LAST then
        var y := Process(cfg, p, StageAt(l.flight.pos), Image(l.flight.copy, l.row), r);
        Local(y.row, In(l.flight.pos + 1, y.copy))
      else l
    case Leave =>
      if l.flight.In? && l.flight.pos == LAST then l.(flight := Out) else l
  }

  function Run(cfg: Config, p: Packet, l: Local, es: seq<Event>): Local
    decreases |es|
  {
    if es == [] then l else Run(cfg, p, Move(cfg, p, l, es[0]), es[1..])
  }

  const START := Local(NEW_ROW, Out)

  ghost predicate LocalOk(l: Local) {
    && RowOk(l.row)
    && (l.flight.In? ==>
          && l.flight.pos <= LAST
          && Agrees(Image(l.flight.copy, l.row))
          && (l.flight.pos < LAST ==> !Finished(l.row.status)))
  }

  lemma MoveKeeps(cfg: Config, p: Packet, l: Local, e: Event)
    requires LocalOk(l)
    ensures LocalOk(Move(cfg, p, l, e))
    ensures WriteAckFixed(l.row, Move(cfg, p, l, e).row)
  {
    if e.Advance? && l.flight.In? && l.flight.pos < LAST {
      ProcessKeeps(cfg, p, StageAt(l.flight.pos), Image(l.flight.copy, l.row), e.reply);
    }
  }

  lemma {:induction false} RunKeeps(cfg: Config, p: Packet, l: Local, es: seq<Event>)
    requires LocalOk(l)
    ensures LocalOk(Run(cfg, p, l, es))
    ensures WriteAckFixed(l.row, Run(cfg, p, l, es).row)
    decreases |es|
  {
    if es != [] {
      MoveKeeps(cfg, p, l, es[0]);
      RunKeeps(cfg, p, Move(cfg, p, l, es[0]), es[1..]);
    }
  }

  /** In every reachable state of every run, for every pattern of answers and
      storage failures: the row is sound, and a live copy without an error agrees
      with it.  A recorded write ack and its recv stay as they are from then on. */
  lemma ReachableIsOk(cfg: Config, p: Packet, es: seq<Event>, more: seq<Event>)
    ensures var l := Run(cfg, p, START, es);
            RowOk(l.row) && (l.flight.In? ==> Agrees(Image(l.flight.copy, l.row)))
    ensures WriteAckFixed(Run(cfg, p, START, es).row, Run(cfg, p, START, es + more).row)
  {
    RunKeeps(cfg, p, START, es);
    RunKeeps(cfg, p, Run(cfg, p, START, es), more);
    RunAppend(cfg, p, START, es, more);
  }

  /** A finished row that is out of the pipeline never changes again. */
  lemma {:induction false} FinishedIsForever(cfg: Config, p: Packet, l: Local, es: seq<Event>)
    requires l.flight.Out? && Finished(l.row.status)
    ensures Run(cfg, p, l, es) == l
    decreases |es|
  {
    if es != [] {
      FinishedIsForever(cfg, p, l, es[1..]);
    }
  }

  lemma {:induction false} RunAppend(cfg: Config, p: Packet, l: Local, a: seq<Event>, b: seq<Event>)
    ensures Run(cfg, p, l, a + b) == Run(cfg, p, Run(cfg, p, l, a), b)
    decreases |a|
  {
    if a == [] {
      assert a + b == b;
    } else {
      assert (a + b)[0] == a[0] && (a + b)[1..] == a[1..] + b;
      RunAppend(cfg, p, Move(cfg, p, l, a[0]), a[1..], b);
    }
  }

  // ----- the state machine is the sequential pipeline -----

  function PassEvents(rs: seq<Reply>): seq<Event> {
    if rs == [] then [] else [Advance(rs[0])] + PassEvents(rs[1..])
  }

  lemma {:induction false} AdvanceAll(cfg: Config, p: Packet, i: nat, x: Image, rs: seq<Reply>)
    requires i + |rs| == LAST
    ensures var y := RunFrom(cfg, p, i, x, rs);
            Run(cfg, p, Local(x.row, In(i, x.copy)), PassEvents(rs)) == Local(y.row, In(LAST, y.copy))
    decreases |rs|
  {
    if rs != [] {
      assert PassEvents(rs)[1..] == PassEvents(rs[1..]);
      AdvanceAll(cfg, p, i + 1, Process(cfg, p, StageAt(i), x, rs[0]), rs[1..]);
    }
  }

  lemma RunOne(cfg: Config, p: Packet, l: Local, e: Event)
    ensures Run(cfg, p, l, [e]) == Move(cfg, p, l, e)
  {
    assert [e][1..] == [];
  }

  /** Entering, advancing through every stage and leaving is exactly one pass. */
  lemma PassIsRun(cfg: Config, p: Packet, row: Row, rs: seq<Reply>)
    requires |rs| == LAST && !Finished(row.status)
    ensures Run(cfg, p, Local(row, Out), [Enter] + PassEvents(rs) + [Leave])
         == Local(RunPass(cfg, p, row, rs).row, Out)
  {
    var y := RunPass(cfg, p, row, rs);
    AdvanceAll(cfg, p, 0, Image(Load(row), row), rs);
    RunAppend(cfg, p, Local(row, Out), [Enter] + PassEvents(rs), [Leave]);
    RunAppend(cfg, p, Local(row, Out), [Enter], PassEvents(rs));
    RunOne(cfg, p, Local(row, Out), Enter);
    RunOne(cfg, p, Local(y.row, In(LAST, y.copy)), Leave);
  }
}
