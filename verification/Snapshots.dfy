/** The dispatcher reads all rows before it pushes them, so a pushed copy may be older than its
    row: what such a copy does, exactly. */
module Snapshots {
  import opened Wrappers
  import opened Transfers
  import opened Stages
  import opened Runs

  // ----- reading and pushing as two steps -----

  /** One transfer, and its row as the dispatcher's last query returned it. */
  datatype Polled = Polled(local: Local, seen: Option<Row>)

  datatype PollEvent =
    | ReadRow                   // the query returns the row, whether or not a copy is in flight
    | PushSeen                  // the loop comes to it: the deduper refuses it or a copy goes in
    | Inner(event: Event)       // a stage, or the copy leaves

  function Poll(cfg: Config, p: Packet, s: Polled, e: PollEvent): Polled {
    match e
    case ReadRow => if Finished(s.local.row.status) then s else s.(seen := Some(s.local.row))
    case PushSeen =>
      if s.seen.None? then s
      else if s.local.flight.In? then s.(seen := None)
      else Polled(s.local.(flight := In(0, Load(s.seen.value))), None)
    case Inner(m) => if m.Enter? then s else s.(local := Move(cfg, p, s.local, m))
  }

  function RunPolled(cfg: Config, p: Packet, s: Polled, es: seq<PollEvent>): Polled
    decreases |es|
  {
    if es == [] then s else RunPolled(cfg, p, Poll(cfg, p, s, es[0]), es[1..])
  }

  /** Reading and pushing without anything in between is what `Enter` stands for. */
  lemma FreshIsEnter(cfg: Config, p: Packet, l: Local)
    ensures RunPolled(cfg, p, Polled(l, None), [ReadRow, PushSeen]) == Polled(Move(cfg, p, l, Enter), None)
  {
    assert [ReadRow, PushSeen][1..] == [PushSeen] && [PushSeen][1..] == [];
  }

  // ----- what a copy of any age does to the row -----

  lemma DecideKeepsStatus(st: Stage, d: Row, r: Reply)
    ensures var e := Decide(st, d, r);
            e.Put? || e.Wipe? || e.Price? ==> !e.q.SetStatus?
  {
  }

  /** A stage given a copy of any age reopens a finished row exactly if it works on the copy and
      its status update gets through. */
  lemma StaleCopyReopens(cfg: Config, p: Packet, st: Stage, x: Image, r: Reply)
    requires Finished(x.row.status) && !st.Finish?
    ensures !Finished(Process(cfg, p, st, x, r).row.status)
       <==> Admits(cfg, p, st, x, r) && !r.stateWrite.Refused?
  {
    hide ShouldProcess;
    if Admits(cfg, p, st, x, r) && r.stateWrite.Stored? {
      var y := Save(x, SetStatus(StatusOf(st)), r.stateWrite);
      DecideKeepsStatus(st, y.copy.data, r);
    }
  }

  /** The rows on which an update is harmless. */
  predicate Fits(row: Row, q: Query) {
    match q
    case SetRecv(tx) => row.writeAckHash.None? || row.writeAckHash == Some(tx.hash)
    case ClearRecv => row.writeAckHash.None?
    case SetWriteAck(h, _, _) => row.recvHash == Some(h)
    case SetAck(_) => row.timeoutHash.None?
    case SetTimeout(_) => row.ackHash.None?
    case _ => true
  }

  lemma ChangeFitsIff(row: Row, q: Query)
    requires RowOk(row)
    ensures RowOk(Change(row, q)) <==> Fits(row, q)
  {
  }

  /** The stage works on the copy and writes its decision to a row that it does not fit. */
  ghost predicate Clashes(cfg: Config, p: Packet, st: Stage, x: Image, r: Reply) {
    var e := Decide(st, x.copy.data.(status := StatusOf(st)), r);
    && !st.Finish? && Admits(cfg, p, st, x, r) && r.stateWrite.Stored?
    && (e.Put? || e.Wipe? || e.Price?) && !r.write.Refused? && !Fits(x.row, e.q)
  }

  lemma ExecuteRow(x: Image, e: Effect, r: Reply)
    ensures Execute(x, e, r).row
         == if e.Put? || e.Wipe? || e.Price? then After(x.row, e.q, r.write) else x.row
  {
  }

  lemma FitsIgnoresStatus(row: Row, s: Status, q: Query)
    ensures Fits(row.(status := s), q) == Fits(row, q) && RowOk(row.(status := s)) == RowOk(row)
  {
  }

  lemma HandleKeepsIff(st: Stage, x: Image, r: Reply)
    requires RowOk(x.row) && !x.copy.failed && r.stateWrite.Stored?
    ensures var e := Decide(st, x.copy.data.(status := StatusOf(st)), r);
            RowOk(Handle(st, x, r).row)
            <==> !((e.Put? || e.Wipe? || e.Price?) && !r.write.Refused? && !Fits(x.row, e.q))
  {
    hide Decide, StatusOf, Fits, RowOk, Execute;
    var s := StatusOf(st);
    var d, row := x.copy.data.(status := s), x.row.(status := s);
    var e := Decide(st, d, r);
    ExecuteRow(Image(Copy(d, false), row), e, r);
    FitsIgnoresStatus(x.row, s, SetStatus(s));
    if e.Put? || e.Wipe? || e.Price? {
      FitsIgnoresStatus(x.row, s, e.q);
      ChangeFitsIff(row, e.q);
    }
  }

  /** Exactly when a stage keeps the row sound, for a copy of any age: unless it clashes. */
  lemma StaleKeepsIff(cfg: Config, p: Packet, st: Stage, x: Image, r: Reply)
    requires RowOk(x.row)
    ensures RowOk(Process(cfg, p, st, x, r).row) <==> !Clashes(cfg, p, st, x, r)
  {
    hide ShouldProcess, Decide, StatusOf, Fits, RowOk, Execute, IsComplete, FinalStatus;
    FitsIgnoresStatus(x.row, StatusOf(st), SetStatus(StatusOf(st)));
    if st.Finish? {
      if FinalStatus(x.copy.data).Some? { FitsIgnoresStatus(x.row, FinalStatus(x.copy.data).value, SetStatus(Pending)); }
    } else if Admits(cfg, p, st, x, r) && r.stateWrite.Stored? {
      HandleKeepsIff(st, x, r);
    }
  }
}
