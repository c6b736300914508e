/** Rows that record transactions which never took effect: every pass in which nothing goes wrong
    clears one of them, and then two passes are enough, or no number is. */
module Recovery {
  import opened Wrappers
  import opened Transfers
  import opened Stages
  import opened Runs
  import opened TwoChains
  import opened Soundness
  import opened Progress

  // ----- what is recorded but did not happen -----

  predicate GoodRecv(row: Row, w: World) {
    w.received.Some? && row.recvHash == Some(w.received.value.hash)
  }

  predicate BadRecv(row: Row, w: World) {
    row.recvHash.Some? && !GoodRecv(row, w)
  }

  predicate BadAck(row: Row, w: World) {
    row.ackHash.Some? && row.ackHash.value !in w.landed
  }

  predicate BadTimeout(row: Row, w: World) {
    row.timeoutHash.Some? && row.timeoutHash.value !in w.landed
  }

  function Unsettled(row: Row, w: World): nat {
    (if BadRecv(row, w) then 1 else 0) + (if BadAck(row, w) then 1 else 0) + (if BadTimeout(row, w) then 1 else 0)
  }

  /** What every run with truthful answers keeps of a row: it is sound and backed, a write ack
      is from the transaction that received the packet, and an ack that has not landed was sent
      by this relayer, after the write ack. */
  ghost predicate Tidy(row: Row, w: World) {
    && RowOk(row) && WorldOk(w) && Backed(w, row)
    && (row.writeAckHash.Some? ==> GoodRecv(row, w))
    && (BadAck(row, w) ==> row.writeAckHash.Some?)
  }

  lemma TidyIsSettled(row: Row, w: World)
    requires Tidy(row, w)
    ensures Unsettled(row, w) == 0 <==> Settled(row, w)
  {
  }

  /** The row holds an ack that landed, or will adopt one, without the recv that happened. */
  predicate Doomed(row: Row, w: World) {
    !GoodRecv(row, w) && (row.ackHash.Some? || (row.recvHash.Some? && w.outcome.Acked?))
  }

  // ----- once a copy has failed, the rest of the pass leaves the row alone -----

  lemma {:induction false} FailedRun(cfg: Config, p: Packet, i: nat, x: Image, w: World, rs: seq<Reply>)
    requires i + |rs| == LAST && x.copy.failed
    ensures RunFrom(cfg, p, i, x, rs) == x && FollowFrom(cfg, p, i, x, w, rs) == w
    decreases |rs|
  {
    if rs != [] {
      assert Process(cfg, p, StageAt(i), x, rs[0]) == x && Follow(cfg, p, StageAt(i), x.copy, w, rs[0]) == w by {
        hide StageAt, ShouldProcess;
      }
      FailedRun(cfg, p, i + 1, x, w, rs[1..]);
    }
  }

  /** The columns that matter here. */
  function Marks(row: Row): Row {
    row.(status := Pending, sourceFinal := None, recvGas := None, ackGas := None, timeoutGas := None, writeAckFinal := None)
  }

  /** The copy is healthy and the row still records what it did when the pass began. */
  ghost predicate Unchanged(x: Image, row: Row) {
    && !x.copy.failed && Agrees(x) && Marks(x.row) == Marks(row) && !Finished(x.row.status)
  }

  /** The pass has given up after clearing. */
  ghost predicate GaveUp(x: Image, row: Row) {
    x.copy.failed && Marks(x.row) == Marks(row) && !Finished(x.row.status)
  }

  // ----- a timeout that has not landed is cleared first -----

  function NoTimeout(row: Row): Row {
    row.(timeoutHash := None, timeoutTime := None)
  }

  lemma TimeoutWaits(cfg: Config, p: Packet, i: nat, x: Image, w: World, r: Reply, row: Row)
    requires i < 5 && Tidy(row, w) && BadTimeout(row, w) && Unchanged(x, row)
    requires Sunny(p, StageAt(i), x.copy.data, w, r)
    ensures Unchanged(Process(cfg, p, StageAt(i), x, r), row)
    ensures Follow(cfg, p, StageAt(i), x.copy, w, r) == w
  {
  }

  lemma TimeoutClears(cfg: Config, p: Packet, x: Image, w: World, r: Reply, row: Row)
    requires Tidy(row, w) && BadTimeout(row, w) && Unchanged(x, row)
    requires Sunny(p, RetryTimeout, x.copy.data, w, r)
    ensures GaveUp(Process(cfg, p, RetryTimeout, x, r), NoTimeout(row))
    ensures Follow(cfg, p, RetryTimeout, x.copy, w, r) == w
  {
  }

  lemma {:induction false} TimeoutRun(cfg: Config, p: Packet, i: nat, x: Image, w: World, rs: seq<Reply>, row: Row)
    requires i + |rs| == LAST && i <= 5 && Tidy(row, w) && BadTimeout(row, w) && Unchanged(x, row)
    requires SunnyFrom(cfg, p, i, x, w, rs)
    ensures GaveUp(RunFrom(cfg, p, i, x, rs), NoTimeout(row)) && FollowFrom(cfg, p, i, x, w, rs) == w
    decreases |rs|
  {
    hide Process, Follow, Sunny, Tidy, Unchanged, BadTimeout;
    var y := Process(cfg, p, StageAt(i), x, rs[0]);
    if i < 5 {
      TimeoutWaits(cfg, p, i, x, w, rs[0], row);
      TimeoutRun(cfg, p, i + 1, y, w, rs[1..], row);
    } else {
      TimeoutClears(cfg, p, x, w, rs[0], row);
      FailedRun(cfg, p, i + 1, y, w, rs[1..]);
    }
  }

  // ----- an ack that has not landed is cleared last -----

  function NoAck(row: Row): Row {
    row.(ackHash := None, ackTime := None)
  }

  lemma AckWaits(cfg: Config, p: Packet, i: nat, x: Image, w: World, r: Reply, row: Row)
    requires i < 14 && Tidy(row, w) && BadAck(row, w) && Unchanged(x, row)
    requires Sunny(p, StageAt(i), x.copy.data, w, r)
    ensures Unchanged(Process(cfg, p, StageAt(i), x, r), row)
    ensures Follow(cfg, p, StageAt(i), x.copy, w, r) == w
  {
  }

  lemma AckClears(cfg: Config, p: Packet, x: Image, w: World, r: Reply, row: Row)
    requires Tidy(row, w) && BadAck(row, w) && Unchanged(x, row)
    requires Sunny(p, RetryAck, x.copy.data, w, r)
    ensures GaveUp(Process(cfg, p, RetryAck, x, r), NoAck(row))
    ensures Follow(cfg, p, RetryAck, x.copy, w, r) == w
  {
  }

  lemma {:induction false} AckRun(cfg: Config, p: Packet, i: nat, x: Image, w: World, rs: seq<Reply>, row: Row)
    requires i + |rs| == LAST && i <= 14 && Tidy(row, w) && BadAck(row, w) && Unchanged(x, row)
    requires SunnyFrom(cfg, p, i, x, w, rs)
    ensures GaveUp(RunFrom(cfg, p, i, x, rs), NoAck(row)) && FollowFrom(cfg, p, i, x, w, rs) == w
    decreases |rs|
  {
    hide Process, Follow, Sunny, Tidy, Unchanged, BadAck;
    var y := Process(cfg, p, StageAt(i), x, rs[0]);
    if i < 14 {
      AckWaits(cfg, p, i, x, w, rs[0], row);
      AckRun(cfg, p, i + 1, y, w, rs[1..], row);
    } else {
      AckClears(cfg, p, x, w, rs[0], row);
      FailedRun(cfg, p, i + 1, y, w, rs[1..]);
    }
  }

  // ----- a recv that did not happen is cleared, unless the packet timed out meanwhile -----

  /** The timeout in the row, if any, landed. */
  ghost predicate TimeoutLanded(row: Row, w: World) {
    row.timeoutHash.Some? ==> row.timeoutHash.value in w.timeoutTxs && row.timeoutHash.value in w.landed
  }

  /** Before stage `i` of a pass over a row with a bad recv that is not doomed. */
  ghost predicate HoldsBadRecv(i: nat, x: Image, w: World) {
    && !x.copy.failed && ImageOk(x) && !Finished(x.row.status) && WorldOk(w)
    && BadRecv(x.row, w) && x.row.writeAckHash.None? && x.row.ackHash.None? && TimeoutLanded(x.row, w)
    && !w.outcome.Acked?
    && (i >= 2 && x.row.timeoutHash.None? ==> w.outcome.Open?)
    && (i >= 11 ==> x.row.timeoutHash.Some?)
  }

  /** The recv is gone, nothing else is unsettled, and the row is not doomed. */
  ghost predicate Cleared(row: Row, w: World) {
    && RowOk(row) && WorldOk(w) && !Finished(row.status)
    && row.recvHash.None? && row.writeAckHash.None? && row.ackHash.None? && TimeoutLanded(row, w)
  }

  lemma RecvStep(cfg: Config, p: Packet, i: nat, x: Image, w: World, r: Reply)
    requires i < LAST - 1 && HoldsBadRecv(i, x, w) && Sunny(p, StageAt(i), x.copy.data, w, r)
    ensures var y := Process(cfg, p, StageAt(i), x, r);
            HoldsBadRecv(i + 1, y, w) || (y.copy.failed && Cleared(y.row, w))
    ensures Follow(cfg, p, StageAt(i), x.copy, w, r) == w
  {
    hide RowOk;
    ProcessKeeps(cfg, p, StageAt(i), x, r);
  }

  lemma RecvFinish(cfg: Config, p: Packet, x: Image, w: World, r: Reply)
    requires HoldsBadRecv(LAST - 1, x, w) && Sunny(p, Finish, x.copy.data, w, r)
    ensures Finished(Process(cfg, p, Finish, x, r).row.status) && Follow(cfg, p, Finish, x.copy, w, r) == w
  {
  }

  lemma {:induction false} RecvRun(cfg: Config, p: Packet, i: nat, x: Image, w: World, rs: seq<Reply>)
    requires i + |rs| == LAST && rs != [] && HoldsBadRecv(i, x, w) && SunnyFrom(cfg, p, i, x, w, rs)
    ensures var row := RunFrom(cfg, p, i, x, rs).row; Finished(row.status) || Cleared(row, w)
    ensures FollowFrom(cfg, p, i, x, w, rs) == w
    decreases |rs|
  {
    hide Process, Follow, Sunny, HoldsBadRecv, Cleared;
    var y := Process(cfg, p, StageAt(i), x, rs[0]);
    if i < LAST - 1 {
      RecvStep(cfg, p, i, x, w, rs[0]);
      if y.copy.failed && Cleared(y.row, w) {
        FailedRun(cfg, p, i + 1, y, w, rs[1..]);
      } else {
        RecvRun(cfg, p, i + 1, y, w, rs[1..]);
      }
    } else {
      RecvFinish(cfg, p, x, w, rs[0]);
    }
  }

  // ----- one pass clears one -----

  lemma TimeoutGone(row: Row, after: Row, w: World)
    requires Tidy(row, w) && BadTimeout(row, w) && Marks(after) == Marks(NoTimeout(row))
    ensures Tidy(after.(writeAckFinal := None), w) && !Doomed(after, w) && Unsettled(after, w) < Unsettled(row, w)
  {
  }

  lemma AckGone(row: Row, after: Row, w: World)
    requires Tidy(row, w) && BadAck(row, w) && Marks(after) == Marks(NoAck(row))
    ensures Tidy(after.(writeAckFinal := None), w) && !Doomed(after, w) && Unsettled(after, w) < Unsettled(row, w)
  {
  }

  lemma RecvGone(row: Row, after: Row, w: World)
    requires Tidy(row, w) && BadRecv(row, w) && Cleared(after, w)
    ensures Tidy(after, w) && !Doomed(after, w) && Unsettled(after, w) < Unsettled(row, w)
  {
  }

  lemma PassKeepsRow(cfg: Config, p: Packet, row: Row, rs: seq<Reply>)
    requires |rs| == LAST && RowOk(row) && !Finished(row.status)
    ensures RowOk(RunPass(cfg, p, row, rs).row)
  {
    hide RunFrom;
    AdvanceAll(cfg, p, 0, Image(Load(row), row), rs);
    RunKeeps(cfg, p, Local(row, In(0, Load(row))), PassEvents(rs));
  }

  /** A fault-free pass over an unsettled row that is not doomed finishes it, or leaves it with
      one unsettled transaction less and still not doomed. */
  lemma ClearingPass(cfg: Config, p: Packet, row: Row, w: World, rs: seq<Reply>)
    requires Tidy(row, w) && !Finished(row.status) && !Doomed(row, w) && Unsettled(row, w) > 0
    requires SunnyPass(cfg, p, row, w, rs)
    ensures PassWorld(cfg, p, row, w, rs) == w
    ensures var after := RunPass(cfg, p, row, rs).row;
            Finished(after.status)
            || (Tidy(after, w) && !Doomed(after, w) && Unsettled(after, w) < Unsettled(row, w))
  {
    hide RunFrom, SunnyFrom, FollowFrom;
    var x, after := Image(Load(row), row), RunPass(cfg, p, row, rs).row;
    PassKeepsRow(cfg, p, row, rs);
    assert after.(writeAckFinal := None) == after;
    if BadTimeout(row, w) {
      TimeoutRun(cfg, p, 0, x, w, rs, row);
      TimeoutGone(row, after, w);
    } else if BadRecv(row, w) {
      RecvRun(cfg, p, 0, x, w, rs);
      if !Finished(after.status) { RecvGone(row, after, w); }
    } else {
      AckRun(cfg, p, 0, x, w, rs, row);
      AckGone(row, after, w);
    }
  }

  // ----- a doomed row stays unfinished -----

  lemma DoomedIsOrphaned(row: Row, w: World)
    requires Tidy(row, w) && !Finished(row.status) && Doomed(row, w) && row.ackHash.Some?
    ensures Orphaned(row, w)
  {
  }

  lemma AdoptsAck(cfg: Config, p: Packet, row: Row, w: World, r: Reply)
    requires Tidy(row, w) && !Finished(row.status) && Doomed(row, w) && row.ackHash.None?
    requires Sunny(p, CheckCommitment, row, w, r)
    ensures var x := Image(Load(row), row);
            var y := Process(cfg, p, CheckCommitment, x, r);
            && ImageOk(y) && Orphaned(y.row, w) && !y.row.status.Failed?
            && Follow(cfg, p, CheckCommitment, x.copy, w, r) == w
  {
    ProcessKeeps(cfg, p, CheckCommitment, Image(Load(row), row), r);
  }

  lemma PassUnroll(cfg: Config, p: Packet, i: nat, x: Image, w: World, rs: seq<Reply>)
    requires i + |rs| == LAST && rs != [] && SunnyFrom(cfg, p, i, x, w, rs)
    ensures var y, v := Process(cfg, p, StageAt(i), x, rs[0]), Follow(cfg, p, StageAt(i), x.copy, w, rs[0]);
            && Sunny(p, StageAt(i), x.copy.data, w, rs[0]) && SunnyFrom(cfg, p, i + 1, y, v, rs[1..])
            && RunFrom(cfg, p, i, x, rs) == RunFrom(cfg, p, i + 1, y, rs[1..])
            && FollowFrom(cfg, p, i, x, w, rs) == FollowFrom(cfg, p, i + 1, y, v, rs[1..])
  {
    hide Process, Follow, Sunny, StageAt;
  }

  lemma LooksFirst(cfg: Config, p: Packet, row: Row, w: World, r: Reply)
    requires row.recvHash.Some?
    ensures var x := Image(Load(row), row);
            Process(cfg, p, CheckRecv, x, r) == x && Follow(cfg, p, CheckRecv, x.copy, w, r) == w
  {
  }

  lemma FirstTwo()
    ensures StageAt(0) == CheckRecv && StageAt(1) == CheckCommitment
  {
  }

  lemma DoomedPass(cfg: Config, p: Packet, row: Row, w: World, rs: seq<Reply>)
    requires Tidy(row, w) && !Finished(row.status) && Doomed(row, w) && SunnyPass(cfg, p, row, w, rs)
    ensures PassWorld(cfg, p, row, w, rs) == w
    ensures var after := RunPass(cfg, p, row, rs).row; Orphaned(after, w) && !after.status.Failed?
  {
    hide RunFrom, SunnyFrom, FollowFrom, Process, Follow, Sunny, Tidy, Orphaned, StageAt;
    var x := Image(Load(row), row);
    if row.ackHash.Some? {
      DoomedIsOrphaned(row, w);
      assert ImageOk(x) by { TidyIsOk(row, w); }
      OrphanPass(cfg, p, 0, x, w, rs);
    } else {
      FirstTwo();
      LooksFirst(cfg, p, row, w, rs[0]);
      PassUnroll(cfg, p, 0, x, w, rs);
      PassUnroll(cfg, p, 1, x, w, rs[1..]);
      AdoptsAck(cfg, p, row, w, rs[1..][0]);
      OrphanPass(cfg, p, 2, Process(cfg, p, CheckCommitment, x, rs[1..][0]), w, rs[1..][1..]);
    }
  }

  lemma TidyIsOk(row: Row, w: World)
    requires Tidy(row, w)
    ensures ImageOk(Image(Load(row), row))
  {
  }

  // ----- any number of passes -----

  /** Consecutive fault-free passes over the row; the clock goes on between them. */
  ghost predicate SunnyPasses(cfg: Config, p: Packet, row: Row, w: World, passes: seq<seq<Reply>>)
    decreases |passes|
  {
    passes == [] || Finished(row.status)
    || (&& SunnyPass(cfg, p, row, w, passes[0])
        && (|passes| > 1 && |passes[1]| == LAST ==> passes[0][LAST - 1].later <= passes[1][0].now)
        && SunnyPasses(cfg, p, RunPass(cfg, p, row, passes[0]).row, PassWorld(cfg, p, row, w, passes[0]), passes[1..]))
  }

  /** The row is finished after some of the passes. */
  ghost predicate FinishedBy(cfg: Config, p: Packet, row: Row, w: World, passes: seq<seq<Reply>>)
    requires SunnyPasses(cfg, p, row, w, passes)
    decreases |passes|
  {
    Finished(row.status)
    || (passes != []
        && FinishedBy(cfg, p, RunPass(cfg, p, row, passes[0]).row, PassWorld(cfg, p, row, w, passes[0]), passes[1..]))
  }

  lemma SettledFinishes(cfg: Config, p: Packet, row: Row, w: World, passes: seq<seq<Reply>>)
    requires Tidy(row, w) && Unsettled(row, w) == 0 && !Doomed(row, w)
    requires |passes| >= 2 && SunnyPasses(cfg, p, row, w, passes)
    ensures FinishedBy(cfg, p, row, w, passes)
  {
    hide RunPass, PassWorld, SunnyPass, Tidy, Unsettled, Doomed;
    if !Finished(row.status) {
      PassLength(cfg, p, row, w, passes[0]);
      var first, mid, v := passes[0], RunPass(cfg, p, row, passes[0]).row, PassWorld(cfg, p, row, w, passes[0]);
      SettledFacts(row, w);
      assert FinishedBy(cfg, p, mid, v, passes[1..]) by {
        if !Finished(mid.status) {
          assert passes[1..][0] == passes[1];
          assert |passes[1]| == LAST by { PassLength(cfg, p, mid, v, passes[1]); }
          TwoPasses(cfg, p, row, w, first, passes[1]);
        }
      }
    }
  }

  lemma SettledFacts(row: Row, w: World)
    requires Tidy(row, w) && Unsettled(row, w) == 0 && !Doomed(row, w)
    ensures RowOk(row) && WorldOk(w) && Settled(row, w) && AckHasRecv(row)
  {
    hide Settled;
    TidyIsSettled(row, w);
  }

  lemma PassLength(cfg: Config, p: Packet, row: Row, w: World, rs: seq<Reply>)
    requires SunnyPass(cfg, p, row, w, rs)
    ensures |rs| == LAST
  {
  }

  lemma {:induction false} Recovers(cfg: Config, p: Packet, row: Row, w: World, passes: seq<seq<Reply>>)
    requires Tidy(row, w) && !Doomed(row, w)
    requires |passes| >= Unsettled(row, w) + 2 && SunnyPasses(cfg, p, row, w, passes)
    ensures FinishedBy(cfg, p, row, w, passes)
    decreases |passes|
  {
    hide RunPass, PassWorld, SunnyPass, Tidy, Unsettled, Doomed;
    if !Finished(row.status) {
      if Unsettled(row, w) == 0 {
        SettledFinishes(cfg, p, row, w, passes);
      } else {
        PassLength(cfg, p, row, w, passes[0]);
        ClearingPass(cfg, p, row, w, passes[0]);
        var after := RunPass(cfg, p, row, passes[0]).row;
        if !Finished(after.status) { Recovers(cfg, p, after, w, passes[1..]); }
      }
    }
  }

  lemma {:induction false} OrphanStaysOpen(cfg: Config, p: Packet, row: Row, w: World, passes: seq<seq<Reply>>)
    requires Orphaned(row, w) && !row.status.Failed? && SunnyPasses(cfg, p, row, w, passes)
    ensures !FinishedBy(cfg, p, row, w, passes)
    decreases |passes|
  {
    hide RunFrom, SunnyFrom, FollowFrom;
    if passes != [] {
      OrphanPass(cfg, p, 0, Image(Load(row), row), w, passes[0]);
      OrphanStaysOpen(cfg, p, RunPass(cfg, p, row, passes[0]).row, w, passes[1..]);
    }
  }

  lemma DoomedStaysOpen(cfg: Config, p: Packet, row: Row, w: World, passes: seq<seq<Reply>>)
    requires Tidy(row, w) && !Finished(row.status) && Doomed(row, w) && SunnyPasses(cfg, p, row, w, passes)
    ensures !FinishedBy(cfg, p, row, w, passes)
  {
    hide RunFrom, SunnyFrom, FollowFrom, Tidy, Doomed;
    if passes != [] {
      DoomedPass(cfg, p, row, w, passes[0]);
      OrphanStaysOpen(cfg, p, RunPass(cfg, p, row, passes[0]).row, w, passes[1..]);
    }
  }

  /** The bound for every tidy row: one fault-free pass for each transaction that did not take
      effect, and two more, finish it if and only if it is not doomed.  No number of passes
      finishes a doomed one. */
  lemma RecoversIff(cfg: Config, p: Packet, row: Row, w: World, passes: seq<seq<Reply>>)
    requires Tidy(row, w) && !Finished(row.status)
    requires |passes| >= Unsettled(row, w) + 2 && SunnyPasses(cfg, p, row, w, passes)
    ensures FinishedBy(cfg, p, row, w, passes) <==> !Doomed(row, w)
  {
    hide Tidy, Doomed, Unsettled, SunnyPasses, FinishedBy;
    if Doomed(row, w) { DoomedStaysOpen(cfg, p, row, w, passes); } else { Recovers(cfg, p, row, w, passes); }
  }

  // ----- every reachable row is tidy -----

  /** The part of `Tidy` that is not known of every system state yet. */
  ghost predicate Sourced(w: World, row: Row) {
    (row.writeAckHash.Some? ==> GoodRecv(row, w)) && (BadAck(row, w) ==> row.writeAckHash.Some?)
  }

  ghost predicate SourcedQuery(w: World, row: Row, q: Query) {
    match q
    case SetWriteAck(h, _, _) => row.recvHash == Some(h) && GoodRecv(row, w)
    case SetAck(tx) => tx.hash in w.landed || row.writeAckHash.Some?
    case SetRecv(_) | ClearRecv => row.writeAckHash.None?
    case _ => true
  }

  lemma DecideSourced(cfg: Config, p: Packet, st: Stage, d: Row, r: Reply, w: World)
    requires RowOk(d.(writeAckFinal := None)) && Honest(w, st, d, r) && ShouldProcess(cfg, p, st, d, r.now)
    ensures var e := Decide(st, d, r);
            e.Put? || e.Wipe? || e.Price? ==> SourcedQuery(w, d, e.q)
  {
  }

  lemma AfterSourced(w: World, row: Row, q: Query, wr: Write)
    requires RowOk(row) && Sourced(w, row) && SourcedQuery(w, row, q)
    ensures Sourced(w, After(row, q, wr))
  {
  }

  /** Only the recorded hashes matter. */
  lemma SourcedAgree(w: World, a: Row, b: Row, q: Query)
    requires Tracked(a) == Tracked(b)
    ensures Sourced(w, a) == Sourced(w, b) && SourcedQuery(w, a, q) == SourcedQuery(w, b, q)
    ensures RowOk(a.(writeAckFinal := None)) == RowOk(b.(writeAckFinal := None))
  {
  }

  lemma ExecuteSourced(x: Image, e: Effect, r: Reply, w: World)
    requires RowOk(x.row) && Sourced(w, x.row)
    requires e.Put? || e.Wipe? || e.Price? ==> SourcedQuery(w, x.row, e.q)
    ensures Sourced(w, Execute(x, e, r).row)
  {
    hide Sourced, SourcedQuery, RowOk, Change;
    if e.Put? || e.Wipe? || e.Price? { AfterSourced(w, x.row, e.q, r.write); }
  }

  lemma StatusSourced(w: World, row: Row, s: Status)
    ensures Sourced(w, row.(status := s)) == Sourced(w, row)
    ensures RowOk(row.(status := s)) == RowOk(row)
  {
  }

  lemma HonestShown(cfg: Config, p: Packet, st: Stage, d: Row, s: Status, r: Reply, w: World)
    requires Honest(w, st, d, r) && ShouldProcess(cfg, p, st, d, r.now)
    ensures Honest(w, st, d.(status := s), r) && ShouldProcess(cfg, p, st, d.(status := s), r.now)
  {
  }

  lemma ProcessSourced(cfg: Config, p: Packet, st: Stage, x: Image, r: Reply, w: World)
    requires ImageOk(x) && Sourced(w, x.row) && Honest(w, st, x.copy.data, r)
    ensures Sourced(w, Process(cfg, p, st, x, r).row)
  {
    hide Sourced, SourcedQuery, RowOk, ShouldProcess, Decide, Honest, StatusOf, Execute, IsComplete, FinalStatus;
    var s := StatusOf(st);
    StatusSourced(w, x.row, s);
    if st.Finish? {
      if FinalStatus(x.copy.data).Some? { StatusSourced(w, x.row, FinalStatus(x.copy.data).value); }
    } else if Admits(cfg, p, st, x, r) && r.stateWrite.Stored? {
      var d, row := x.copy.data.(status := s), x.row.(status := s);
      var e := Decide(st, d, r);
      HonestShown(cfg, p, st, x.copy.data, s, r, w);
      SourcedAgree(w, d, row, SetStatus(s));
      assert row.(writeAckFinal := None) == row by { NoFinal(row); }
      DecideSourced(cfg, p, st, d, r, w);
      if e.Put? || e.Wipe? || e.Price? { SourcedAgree(w, d, row, e.q); }
      ExecuteSourced(Image(Copy(d, false), row), e, r, w);
    }
  }

  lemma NoFinal(row: Row)
    requires RowOk(row)
    ensures row.(writeAckFinal := None) == row
  {
  }

  lemma StepSourced(cfg: Config, p: Packet, s: System, e: Step)
    requires SystemOk(cfg, s) && Sourced(s.world, s.local.row) && Fair(cfg, p, s, e)
    ensures Sourced(Next(cfg, p, s, e).world, Next(cfg, p, s, e).local.row)
  {
    hide Process, Honest;
    match e {
      case Chain(c) => OccurKeeps(s.world, c);
      case Relay(m) =>
        var l := s.local;
        if m.Advance? && l.flight.In? && l.flight.pos < LAST {
          ProcessSourced(cfg, p, StageAt(l.flight.pos), Image(l.flight.copy, l.row), m.reply, s.world);
        }
    }
  }

  lemma {:induction false} RunSourced(cfg: Config, p: Packet, s: System, es: seq<Step>)
    requires SystemOk(cfg, s) && Sourced(s.world, s.local.row) && FairRun(cfg, p, s, es)
    ensures var t := RunSystem(cfg, p, s, es); SystemOk(cfg, t) && Sourced(t.world, t.local.row)
    decreases |es|
  {
    hide SystemOk, Sourced, Fair, Next;
    if es != [] {
      StepSourced(cfg, p, s, es[0]);
      OneStepKeeps(cfg, p, s, es[0]);
      RunSourced(cfg, p, Next(cfg, p, s, es[0]), es[1..]);
    }
  }

  lemma OneStepKeeps(cfg: Config, p: Packet, s: System, e: Step)
    requires SystemOk(cfg, s) && Fair(cfg, p, s, e)
    ensures SystemOk(cfg, Next(cfg, p, s, e))
  {
    hide SystemOk, Next;
    match e {
      case Chain(c) => ChainStep(cfg, p, s, c);
      case Relay(m) => RelayStep(cfg, p, s, m);
    }
  }

  /** In every run with truthful answers, however the relayer and the chains interleave, the row
      is tidy, so the bound above applies to it. */
  lemma ReachableIsTidy(cfg: Config, p: Packet, es: seq<Step>)
    requires FairRun(cfg, p, INITIAL, es)
    ensures var s := RunSystem(cfg, p, INITIAL, es); Tidy(s.local.row, s.world)
  {
    hide RunSystem, FairRun;
    RunSourced(cfg, p, INITIAL, es);
  }

  /** So from every reachable unfinished row the bound holds, and says exactly when. */
  lemma ReachableRecoversIff(cfg: Config, p: Packet, es: seq<Step>, passes: seq<seq<Reply>>)
    requires FairRun(cfg, p, INITIAL, es)
    requires var s := RunSystem(cfg, p, INITIAL, es);
             && !Finished(s.local.row.status)
             && |passes| >= Unsettled(s.local.row, s.world) + 2 && SunnyPasses(cfg, p, s.local.row, s.world, passes)
    ensures var s := RunSystem(cfg, p, INITIAL, es);
            FinishedBy(cfg, p, s.local.row, s.world, passes) <==> !Doomed(s.local.row, s.world)
  {
    hide RunSystem, FairRun, SunnyPasses, FinishedBy, Tidy, Doomed, Unsettled;
    ReachableIsTidy(cfg, p, es);
    var s := RunSystem(cfg, p, INITIAL, es);
    RecoversIff(cfg, p, s.local.row, s.world, passes);
  }
}
