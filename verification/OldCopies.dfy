/** The dispatcher's read-and-push machine together with the two chains: copies of any age, and
    answers that are true when given. */
module OldCopies {
  import opened Wrappers
  import opened Transfers
  import opened Stages
  import opened Runs
  import opened TwoChains
  import opened Soundness
  import opened Snapshots

  datatype Joint = Joint(world: World, polled: Polled)

  datatype JointStep = OnChain(event: ChainEvent) | OnRelay(poll: PollEvent)

  function Step(cfg: Config, p: Packet, s: Joint, e: JointStep): Joint {
    match e
    case OnChain(c) => s.(world := Occur(s.world, c))
    case OnRelay(m) => s.(polled := Poll(cfg, p, s.polled, m))
  }

  /** The chains follow their rules and the clients do not lie about them. */
  ghost predicate FairStep(s: Joint, e: JointStep) {
    match e
    case OnChain(c) => Enabled(s.world, c)
    case OnRelay(m) =>
      var f := s.polled.local.flight;
      m.Inner? && m.event.Advance? && f.In? && f.pos < LAST ==>
        Honest(s.world, StageAt(f.pos), f.copy.data, m.event.reply)
  }

  ghost predicate FairSteps(cfg: Config, p: Packet, s: Joint, es: seq<JointStep>)
    decreases |es|
  {
    es == [] || (FairStep(s, es[0]) && FairSteps(cfg, p, Step(cfg, p, s, es[0]), es[1..]))
  }

  function RunJoint(cfg: Config, p: Packet, s: Joint, es: seq<JointStep>): Joint
    decreases |es|
  {
    if es == [] then s else RunJoint(cfg, p, Step(cfg, p, s, es[0]), es[1..])
  }

  const BEGIN := Joint(UNTOUCHED, Polled(START, None))

  // ----- terminal statuses are true whatever the age of the copies -----

  /** An ack or timeout hash is there exactly if its time is. */
  ghost predicate Paired(row: Row) {
    (row.ackHash.Some? <==> row.ackTime.Some?) && (row.timeoutHash.Some? <==> row.timeoutTime.Some?)
  }

  /** What a copy records is paired and true by itself, and it was not FAILED when it was read. */
  ghost predicate CopyOk(w: World, d: Row) {
    Backed(w, d) && Paired(d) && !d.status.Failed?
  }

  /** Nothing here compares a copy with its row: what each records is true by itself. */
  ghost predicate AnyAgeOk(cfg: Config, s: Joint) {
    var w, l := s.world, s.polled.local;
    && WorldOk(w) && Backed(w, l.row) && Paired(l.row) && Verdict(cfg, w, l.row.status)
    && (s.polled.seen.Some? ==> CopyOk(w, s.polled.seen.value))
    && (l.flight.In? ==>
          && l.flight.pos <= LAST
          && (!l.flight.copy.failed && l.flight.pos < LAST ==>
                CopyOk(w, l.flight.copy.data) && Proven(w, l.flight.pos, l.flight.copy.data)))
  }

  lemma ChangeBacked(w: World, row: Row, q: Query)
    requires Backed(w, row) && Paired(row) && BackedQuery(w, q)
    ensures Backed(w, Change(row, q)) && Paired(Change(row, q))
    ensures !q.SetStatus? ==> Change(row, q).status == row.status
  {
  }

  lemma ShownIsBacked(w: World, row: Row, s: Status)
    ensures Backed(w, row.(status := s)) == Backed(w, row) && Paired(row.(status := s)) == Paired(row)
  {
  }

  lemma HonestIfShown(w: World, st: Stage, d: Row, s: Status, r: Reply)
    ensures Honest(w, st, d.(status := s), r) == Honest(w, st, d, r)
  {
  }

  lemma StatusIsWork(st: Stage)
    requires !st.Finish?
    ensures !Finished(StatusOf(st))
  {
  }

  /** What a stage writes and remembers is backed by the chains. */
  lemma OldCopyBacked(cfg: Config, p: Packet, st: Stage, x: Image, r: Reply, w: World)
    requires !st.Finish? && Backed(w, x.row) && Paired(x.row) && (!x.copy.failed ==> CopyOk(w, x.copy.data))
    requires Honest(w, st, x.copy.data, r)
    ensures var y := Process(cfg, p, st, x, r);
            && Backed(w, y.row) && Paired(y.row) && (!y.copy.failed ==> CopyOk(w, y.copy.data))
            && (y.row.status == x.row.status || !Finished(y.row.status))
  {
    hide Backed, BackedQuery, Honest, Decide, ShouldProcess, StatusOf, Paired;
    var s := StatusOf(st);
    StatusIsWork(st);
    ShownIsBacked(w, x.row, s);
    ShownIsBacked(w, x.copy.data, s);
    if Admits(cfg, p, st, x, r) && r.stateWrite.Stored? {
      var d, row := x.copy.data.(status := s), x.row.(status := s);
      var e := Decide(st, d, r);
      HonestIfShown(w, st, x.copy.data, s, r);
      HonestDecides(w, st, d, r);
      DecideKeepsStatus(st, d, r);
      if e.Put? || e.Wipe? || e.Price? {
        ChangeBacked(w, row, e.q);
        ChangeBacked(w, d, e.q);
      } else {
        FinalIsBacked(w, d, r.later);
      }
    }
  }

  lemma FinalIsBacked(w: World, row: Row, t: Time)
    ensures Backed(w, row.(writeAckFinal := Some(t))) == Backed(w, row) && Paired(row.(writeAckFinal := Some(t))) == Paired(row)
  {
  }

  /** Past its retry stage, a hash in a copy of any age has been executed. */
  lemma OldTimeoutProven(cfg: Config, p: Packet, i: nat, x: Image, r: Reply, w: World)
    requires i < LAST - 1 && (!x.copy.failed ==> CopyOk(w, x.copy.data) && TimeoutProven(w, i, x.copy.data))
    requires Honest(w, StageAt(i), x.copy.data, r)
    ensures var y := Process(cfg, p, StageAt(i), x, r);
            !y.copy.failed ==> TimeoutProven(w, i + 1, y.copy.data)
  {
  }

  lemma OldAckProven(cfg: Config, p: Packet, i: nat, x: Image, r: Reply, w: World)
    requires i < LAST - 1 && (!x.copy.failed ==> CopyOk(w, x.copy.data) && AckProven(w, i, x.copy.data))
    requires Honest(w, StageAt(i), x.copy.data, r)
    ensures var y := Process(cfg, p, StageAt(i), x, r);
            !y.copy.failed ==> AckProven(w, i + 1, y.copy.data)
  {
  }

  /** The finisher decides on the copy alone. */
  lemma OldCopyFinishes(cfg: Config, p: Packet, x: Image, r: Reply, w: World)
    requires WorldOk(w) && Backed(w, x.row) && Paired(x.row) && Verdict(cfg, w, x.row.status)
    requires !x.copy.failed ==> CopyOk(w, x.copy.data) && Proven(w, LAST - 1, x.copy.data)
    ensures var row := Process(cfg, p, Finish, x, r).row;
            Backed(w, row) && Paired(row) && Verdict(cfg, w, row.status)
  {
  }

  lemma AdvanceAnyAge(cfg: Config, p: Packet, s: Joint, r: Reply)
    requires AnyAgeOk(cfg, s) && FairStep(s, OnRelay(Inner(Advance(r))))
    requires s.polled.local.flight.In? && s.polled.local.flight.pos < LAST
    ensures AnyAgeOk(cfg, Step(cfg, p, s, OnRelay(Inner(Advance(r)))))
  {
    hide Process, Honest, Backed, Paired, TimeoutProven, AckProven, WorldOk, Verdict;
    var w, l := s.world, s.polled.local;
    var i, x := l.flight.pos, Image(l.flight.copy, l.row);
    var y := Process(cfg, p, StageAt(i), x, r);
    if i == LAST - 1 {
      OldCopyFinishes(cfg, p, x, r, w);
    } else {
      OldCopyBacked(cfg, p, StageAt(i), x, r, w);
      OldTimeoutProven(cfg, p, i, x, r, w);
      OldAckProven(cfg, p, i, x, r, w);
      if !Finished(y.row.status) { WorkVerdict(cfg, w, y.row.status); }
    }
  }

  lemma WorkVerdict(cfg: Config, w: World, s: Status)
    requires !Finished(s)
    ensures Verdict(cfg, w, s)
  {
  }

  lemma StepAnyAge(cfg: Config, p: Packet, s: Joint, e: JointStep)
    requires AnyAgeOk(cfg, s) && FairStep(s, e)
    ensures AnyAgeOk(cfg, Step(cfg, p, s, e))
  {
    hide Process, Honest;
    match e {
      case OnChain(c) => OccurKeeps(s.world, c);
      case OnRelay(m) =>
        var f := s.polled.local.flight;
        if m.Inner? && m.event.Advance? && f.In? && f.pos < LAST {
          AdvanceAnyAge(cfg, p, s, m.event.reply);
        }
    }
  }

  lemma {:induction false} RunAnyAge(cfg: Config, p: Packet, s: Joint, es: seq<JointStep>)
    requires AnyAgeOk(cfg, s) && FairSteps(cfg, p, s, es)
    ensures AnyAgeOk(cfg, RunJoint(cfg, p, s, es))
    decreases |es|
  {
    hide AnyAgeOk, FairStep, Step;
    if es != [] {
      StepAnyAge(cfg, p, s, es[0]);
      RunAnyAge(cfg, p, Step(cfg, p, s, es[0]), es[1..]);
    }
  }

  /** Terminal statuses are true in every run, however long ago the dispatcher read the copies
      it pushes: the row may be reopened and overwritten, but no completion in it is false. */
  lemma TrueAtAnyAge(cfg: Config, p: Packet, es: seq<JointStep>)
    requires FairSteps(cfg, p, BEGIN, es)
    ensures var s := RunJoint(cfg, p, BEGIN, es); Verdict(cfg, s.world, s.polled.local.row.status)
  {
    hide FairSteps, RunJoint;
    RunAnyAge(cfg, p, BEGIN, es);
  }

  // ----- a run with true answers in which an old copy makes the row unsound -----

  const QUIET_CFG := Config(false, true, false, false)     // success acks are not relayed

  const SHORT_PACKET := Packet(1, Key("a", "c", 1), "b", "d", "00", 10)

  /** The answers at stage `i` of a pass that delivers the recv `h`: no receipt and no retry,
      and otherwise what lets the transfer through. */
  function AnswerAt(i: nat, h: string): Reply {
    Reply(5, 5, Stored, Got(i != 0 && i != 8), if i == 7 then Got(Tx(h, 5)) else NoAnswer, None, None, Found(SuccessAck), NoAnswer, true, Stored)
  }

  const SENT_FINAL := NEW_ROW.(status := AwaitingSendFinality, sourceFinal := Some(5))

  const RECEIVED := SENT_FINAL.(status := DeliverRecvPacket, recvHash := Some("aa"), recvTime := Some(5))

  const WRITTEN := RECEIVED.(status := WaitForWriteAck, writeAckHash := Some("aa"), writeAckTime := Some(5),
                             writeAckStatus := Some(SuccessAck))

  const COMPLETE := WRITTEN.(status := CompleteWithWriteAckSuccess)

  /** The row before stage `i` of the pass that delivers "aa". */
  function RowAt(i: nat): Row {
    if i == 0 then NEW_ROW
    else if i == 1 then NEW_ROW.(status := CheckRecvPacketDelivery)
    else if i == 2 then NEW_ROW.(status := CheckAckPacketDelivery)
    else if i <= 7 then SENT_FINAL
    else if i <= 10 then RECEIVED
    else if i <= 12 then WRITTEN
    else if i < LAST then WRITTEN.(status := CheckAckPacketDelivery)
    else COMPLETE
  }

  lemma EarlyRow(i: nat)
    requires i < 8
    ensures Process(QUIET_CFG, SHORT_PACKET, StageAt(i), Image(Load(RowAt(i)), RowAt(i)), AnswerAt(i, "aa"))
         == Image(Load(RowAt(i + 1)), RowAt(i + 1))
  {
  }

  lemma MiddleRow(i: nat)
    requires 8 <= i < 12
    ensures Process(QUIET_CFG, SHORT_PACKET, StageAt(i), Image(Load(RowAt(i)), RowAt(i)), AnswerAt(i, "aa"))
         == Image(Load(RowAt(i + 1)), RowAt(i + 1))
  {
  }

  lemma LateRow(i: nat)
    requires 12 <= i < LAST
    ensures Process(QUIET_CFG, SHORT_PACKET, StageAt(i), Image(Load(RowAt(i)), RowAt(i)), AnswerAt(i, "aa"))
         == Image(Load(RowAt(i + 1)), RowAt(i + 1))
  {
  }

  /** The same pass with "bb", given the copy of the new row after the row was finished. */
  function OldRowAt(i: nat): Row {
    if i == 0 then COMPLETE
    else if i < 8 then COMPLETE.(status := RowAt(i).status)
    else COMPLETE.(status := DeliverRecvPacket, recvHash := Some("bb"), recvTime := Some(5))
  }

  lemma OldRow(i: nat)
    requires i < 7
    ensures Process(QUIET_CFG, SHORT_PACKET, StageAt(i), Image(Load(RowAt(i)), OldRowAt(i)), AnswerAt(i, "bb"))
         == Image(Load(RowAt(i + 1)), OldRowAt(i + 1))
  {
  }

  lemma OldSend()
    ensures Process(QUIET_CFG, SHORT_PACKET, StageAt(7), Image(Load(RowAt(7)), OldRowAt(7)), AnswerAt(7, "bb")).row
         == OldRowAt(8)
  {
  }

  const TAKEN := UNTOUCHED.(received := Some(Tx("aa", 5)), ack := SuccessAck)

  lemma AnswersAreTrue(i: nat, h: string)
    requires i < LAST
    ensures i < 8 ==> Honest(UNTOUCHED, StageAt(i), RowAt(i), AnswerAt(i, h)) && Honest(TAKEN, StageAt(i), RowAt(i), AnswerAt(i, h))
    ensures i >= 8 ==> Honest(TAKEN, StageAt(i), RowAt(i), AnswerAt(i, h))
  {
  }

  lemma {:induction false} JointAppend(cfg: Config, p: Packet, s: Joint, a: seq<JointStep>, b: seq<JointStep>)
    requires FairSteps(cfg, p, s, a) && FairSteps(cfg, p, RunJoint(cfg, p, s, a), b)
    ensures FairSteps(cfg, p, s, a + b) && RunJoint(cfg, p, s, a + b) == RunJoint(cfg, p, RunJoint(cfg, p, s, a), b)
    decreases |a|
  {
    hide Step, FairStep;
    if a == [] {
      assert a + b == b;
    } else {
      assert (a + b)[0] == a[0] && (a + b)[1..] == a[1..] + b;
      JointAppend(cfg, p, Step(cfg, p, s, a[0]), a[1..], b);
    }
  }

  lemma JointOne(cfg: Config, p: Packet, s: Joint, e: JointStep)
    requires FairStep(s, e)
    ensures FairSteps(cfg, p, s, [e]) && RunJoint(cfg, p, s, [e]) == Step(cfg, p, s, e)
  {
    hide Step, FairStep;
    assert [e][1..] == [];
  }

  /** The transfer before stage `i`, its copy as in the first pass. */
  function Before(w: World, row: Row, i: nat, seen: Option<Row>): Joint {
    Joint(w, Polled(Local(row, In(i, Load(RowAt(i)))), seen))
  }

  function Advances(i: nat, j: nat, h: string): seq<JointStep>
    decreases j - i
  {
    if i >= j then [] else [OnRelay(Inner(Advance(AnswerAt(i, h))))] + Advances(i + 1, j, h)
  }

  lemma OneStage(w: World, row: Row, i: nat, h: string, seen: Option<Row>, y: Image)
    requires i < LAST && Honest(w, StageAt(i), RowAt(i), AnswerAt(i, h))
    requires Process(QUIET_CFG, SHORT_PACKET, StageAt(i), Image(Load(RowAt(i)), row), AnswerAt(i, h)) == y
    ensures var e := OnRelay(Inner(Advance(AnswerAt(i, h))));
            && FairStep(Before(w, row, i, seen), e)
            && Step(QUIET_CFG, SHORT_PACKET, Before(w, row, i, seen), e) == Joint(w, Polled(Local(y.row, In(i + 1, y.copy)), seen))
  {
    hide Process, Honest, StageAt;
  }

  lemma {:induction false} FirstPass(i: nat, j: nat, w: World, seen: Option<Row>)
    requires i <= j <= LAST && ((j <= 8 && w == UNTOUCHED) || (i >= 8 && w == TAKEN))
    ensures FairSteps(QUIET_CFG, SHORT_PACKET, Before(w, RowAt(i), i, seen), Advances(i, j, "aa"))
    ensures RunJoint(QUIET_CFG, SHORT_PACKET, Before(w, RowAt(i), i, seen), Advances(i, j, "aa")) == Before(w, RowAt(j), j, seen)
    decreases j - i
  {
    hide Process, Honest, StageAt, RowAt, Step, FairStep, AnswerAt;
    if i < j {
      AnswersAreTrue(i, "aa");
      if i < 8 { EarlyRow(i); } else if i < 12 { MiddleRow(i); } else { LateRow(i); }
      OneStage(w, RowAt(i), i, "aa", seen, Image(Load(RowAt(i + 1)), RowAt(i + 1)));
      assert Advances(i, j, "aa")[1..] == Advances(i + 1, j, "aa");
      FirstPass(i + 1, j, w, seen);
    }
  }

  lemma {:induction false} OldPass(i: nat)
    requires i <= 7
    ensures FairSteps(QUIET_CFG, SHORT_PACKET, Before(TAKEN, OldRowAt(i), i, None), Advances(i, 7, "bb"))
    ensures RunJoint(QUIET_CFG, SHORT_PACKET, Before(TAKEN, OldRowAt(i), i, None), Advances(i, 7, "bb"))
         == Before(TAKEN, OldRowAt(7), 7, None)
    decreases 7 - i
  {
    hide Process, Honest, StageAt, RowAt, OldRowAt, Step, FairStep, AnswerAt;
    if i < 7 {
      AnswersAreTrue(i, "bb");
      OldRow(i);
      OneStage(TAKEN, OldRowAt(i), i, "bb", None, Image(Load(RowAt(i + 1)), OldRowAt(i + 1)));
      assert Advances(i, 7, "bb")[1..] == Advances(i + 1, 7, "bb");
      OldPass(i + 1);
    }
  }

  /** The second query reads the row while its first copy is in flight. */
  lemma Opening() returns (es: seq<JointStep>)
    ensures FairSteps(QUIET_CFG, SHORT_PACKET, BEGIN, es)
    ensures RunJoint(QUIET_CFG, SHORT_PACKET, BEGIN, es) == Before(UNTOUCHED, NEW_ROW, 0, Some(NEW_ROW))
  {
    var c, p, read, push := QUIET_CFG, SHORT_PACKET, OnRelay(ReadRow), OnRelay(PushSeen);
    var s1, s2 := Joint(UNTOUCHED, Polled(START, Some(NEW_ROW))), Before(UNTOUCHED, NEW_ROW, 0, None);
    assert Step(c, p, BEGIN, read) == s1 && Step(c, p, s1, push) == s2;
    assert Step(c, p, s2, read) == Before(UNTOUCHED, NEW_ROW, 0, Some(NEW_ROW));
    JointOne(c, p, BEGIN, read);
    JointOne(c, p, s1, push);
    JointOne(c, p, s2, read);
    hide Step, FairStep, FairSteps, RunJoint;
    JointAppend(c, p, BEGIN, [read], [push]);
    JointAppend(c, p, BEGIN, [read] + [push], [read]);
    es := [read] + [push] + [read];
  }

  lemma Arrival()
    ensures var s := Before(UNTOUCHED, RowAt(8), 8, Some(NEW_ROW));
            var e := OnChain(Receive(Tx("aa", 5), SuccessAck));
            FairStep(s, e) && Step(QUIET_CFG, SHORT_PACKET, s, e) == Before(TAKEN, RowAt(8), 8, Some(NEW_ROW))
  {
  }

  lemma Departure()
    ensures var s := Before(TAKEN, COMPLETE, LAST, Some(NEW_ROW));
            var t := Joint(TAKEN, Polled(Local(COMPLETE, Out), Some(NEW_ROW)));
            && FairStep(s, OnRelay(Inner(Leave))) && Step(QUIET_CFG, SHORT_PACKET, s, OnRelay(Inner(Leave))) == t
            && FairStep(t, OnRelay(PushSeen))
            && Step(QUIET_CFG, SHORT_PACKET, t, OnRelay(PushSeen)) == Before(TAKEN, COMPLETE, 0, None)
  {
  }

  /** The row is finished and sound, and the dispatcher still holds the copy it read before. */
  lemma FinishedRun() returns (es: seq<JointStep>)
    ensures FairSteps(QUIET_CFG, SHORT_PACKET, BEGIN, es)
    ensures RunJoint(QUIET_CFG, SHORT_PACKET, BEGIN, es) == Joint(TAKEN, Polled(Local(COMPLETE, Out), Some(NEW_ROW)))
  {
    hide Step, FairStep, FairSteps, RunJoint, Advances;
    var c, p := QUIET_CFG, SHORT_PACKET;
    es := Opening();
    FirstPass(0, 8, UNTOUCHED, Some(NEW_ROW));
    JointAppend(c, p, BEGIN, es, Advances(0, 8, "aa"));
    es := es + Advances(0, 8, "aa");
    Arrival();
    var arrival := OnChain(Receive(Tx("aa", 5), SuccessAck));
    JointOne(c, p, Before(UNTOUCHED, RowAt(8), 8, Some(NEW_ROW)), arrival);
    JointAppend(c, p, BEGIN, es, [arrival]);
    es := es + [arrival];
    FirstPass(8, LAST, TAKEN, Some(NEW_ROW));
    JointAppend(c, p, BEGIN, es, Advances(8, LAST, "aa"));
    es := es + Advances(8, LAST, "aa");
    Departure();
    JointOne(c, p, Before(TAKEN, COMPLETE, LAST, Some(NEW_ROW)), OnRelay(Inner(Leave)));
    JointAppend(c, p, BEGIN, es, [OnRelay(Inner(Leave))]);
    es := es + [OnRelay(Inner(Leave))];
  }

  /** From there the loop pushes the copy.  Its receipt check gets an answer from before the
      recv, so the row is reopened and a second recv goes out: recv and write ack differ. */
  lemma UnsoundRun() returns (more: seq<JointStep>)
    ensures var s := Joint(TAKEN, Polled(Local(COMPLETE, Out), Some(NEW_ROW)));
            && FairSteps(QUIET_CFG, SHORT_PACKET, s, more)
            && RunJoint(QUIET_CFG, SHORT_PACKET, s, more).polled.local.row == OldRowAt(8)
  {
    hide Step, FairStep, FairSteps, RunJoint, Advances, Process, Honest, StageAt, RowAt, OldRowAt, AnswerAt;
    var c, p := QUIET_CFG, SHORT_PACKET;
    var s := Joint(TAKEN, Polled(Local(COMPLETE, Out), Some(NEW_ROW)));
    Departure();
    JointOne(c, p, s, OnRelay(PushSeen));
    more := [OnRelay(PushSeen)];
    assert OldRowAt(0) == COMPLETE by { OldRowsAre(); }
    OldPass(0);
    JointAppend(c, p, s, more, Advances(0, 7, "bb"));
    more := more + Advances(0, 7, "bb");
    AnswersAreTrue(7, "bb");
    OldSend();
    var y := Process(c, p, StageAt(7), Image(Load(RowAt(7)), OldRowAt(7)), AnswerAt(7, "bb"));
    var e := OnRelay(Inner(Advance(AnswerAt(7, "bb"))));
    OneStage(TAKEN, OldRowAt(7), 7, "bb", None, y);
    JointOne(c, p, Before(TAKEN, OldRowAt(7), 7, None), e);
    JointAppend(c, p, s, more, [e]);
    more := more + [e];
  }

  lemma OldRowsAre()
    ensures OldRowAt(0) == COMPLETE && !RowOk(OldRowAt(8)) && !Finished(OldRowAt(8).status)
    ensures RowOk(COMPLETE) && Finished(COMPLETE.status)
  {
  }

  /** A run with true answers: the row is finished and sound and out of the pipeline, then an
      old copy reopens it and leaves it unsound. */
  lemma StaleCopyIsReachable() returns (es: seq<JointStep>, more: seq<JointStep>)
    ensures FairSteps(QUIET_CFG, SHORT_PACKET, BEGIN, es + more)
    ensures var l := RunJoint(QUIET_CFG, SHORT_PACKET, BEGIN, es).polled.local;
            RowOk(l.row) && Finished(l.row.status) && l.flight.Out?
    ensures var row := RunJoint(QUIET_CFG, SHORT_PACKET, BEGIN, es + more).polled.local.row;
            !Finished(row.status) && !RowOk(row)
  {
    hide FairSteps, RunJoint, OldRowAt, RowOk;
    es := FinishedRun();
    more := UnsoundRun();
    JointAppend(QUIET_CFG, SHORT_PACKET, BEGIN, es, more);
    OldRowsAre();
  }
}
