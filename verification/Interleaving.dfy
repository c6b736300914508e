/** Any number of transfers in flight at once over one database.  A stage takes two steps on
    a transfer, so others move while it works; a batch ends for all its members at once. */
module Interleaving {
  import opened Wrappers
  import opened Transfers
  import opened Stages
  import opened Runs
  import opened Store
  import opened Batches
  import opened Hex

  /** What is fixed about a transfer: its packet and its pipeline's configuration. */
  datatype Plan = Plan(packet: Packet, cfg: Config)

  type Plans = map<Key, Plan>

  /** A transfer in the pipeline: before stage `pos`, or inside it.  Inside, `base` is the
      transfer as it came to the stage. */
  datatype Slot =
    | Waiting(pos: nat, copy: Copy)
    | Working(pos: nat, copy: Copy, base: Image, reply: Reply)

  datatype Pool = Pool(tables: Tables, slots: map<Key, Slot>)

  const EMPTY := Pool(Tables(map[], [], {}), map[])

  datatype PoolEvent =
    | Accept(k: Key)                    // a relay request inserts the row
    | Submit(k: Key)                    // the dispatcher reads the row and pushes a copy
    | Refuse(k: Key, write: Write)      // the dispatcher marks the row FAILED
    | Begin(k: Key, reply: Reply)       // the middleware passes the transfer on or starts the stage
    | End(k: Key, reply: Reply)         // a stage that works on one transfer is done
    | Commit(st: Stage, ks: seq<Key>, chain: string, sent: Answer<Tx>, write: Write) // so is a batch
    | Emit(k: Key)                      // the copy comes out of the pipeline
    | Track(row: nat, x: Settlement, write: Write)  // the cost tracker settles a submission

  // ----- one step -----

  function Show(g: Pool, k: Key, row: Row, s: Slot): Pool {
    Pool(g.tables.(rows := g.tables.rows[k := row]), g.slots[k := s])
  }

  /** The stage has nothing to do but hand the transfer on. */
  predicate AtOnce(plan: Plan, st: Stage, x: Image, r: Reply) {
    st.Finish? || !Admits(plan.cfg, plan.packet, st, x, r) || !r.stateWrite.Stored?
  }

  function Enters(plan: Plan, s: Slot, row: Row, r: Reply): (Row, Slot)
    requires s.Waiting? && s.pos < LAST
  {
    var st, x := StageAt(s.pos), Image(s.copy, row);
    if AtOnce(plan, st, x, r) then
      var y := Process(plan.cfg, plan.packet, st, x, r);
      (y.row, Waiting(s.pos + 1, y.copy))
    else
      var y := Save(x, SetStatus(StatusOf(st)), Stored);
      (y.row, Working(s.pos, y.copy, x, r))
  }

  /** The answers of one stage: those of its start and those of its end. */
  function Join(first: Reply, second: Reply): Reply {
    second.(now := first.now, stateWrite := first.stateWrite)
  }

  function Ends(s: Slot, row: Row, r: Reply): Image
    requires s.Working? && s.pos < LAST
  {
    Execute(Image(s.copy, row), Decide(StageAt(s.pos), s.copy.data, Join(s.reply, r)), Join(s.reply, r))
  }

  predicate Busy(g: Pool, k: Key, batch: bool) {
    && k in g.slots && k in g.tables.rows
    && g.slots[k].Working? && g.slots[k].pos < LAST && IsBatch(StageAt(g.slots[k].pos)) == batch
  }

  /** The members of a batch are different transfers, all inside that stage. */
  predicate Ready(plans: Plans, g: Pool, st: Stage, ks: seq<Key>) {
    && (forall i, j :: 0 <= i < j < |ks| ==> ks[i] != ks[j])
    && (forall i :: 0 <= i < |ks| ==> ks[i] in plans && Busy(g, ks[i], true) && StageAt(g.slots[ks[i]].pos) == st)
  }

  function MemberPackets(plans: Plans, ks: seq<Key>): (ps: seq<Packet>)
    requires forall i :: 0 <= i < |ks| ==> ks[i] in plans
    ensures |ps| == |ks| && forall i :: 0 <= i < |ks| ==> ps[i] == plans[ks[i]].packet
  {
    if ks == [] then [] else MemberPackets(plans, ks[..|ks| - 1]) + [plans[ks[|ks| - 1]].packet]
  }

  function HashIn(plan: Plan, st: Stage, s: Slot): Option<string> {
    HashOf(st, plan.packet, s.copy.data)
  }

  function MemberHashes(plans: Plans, g: Pool, st: Stage, ks: seq<Key>): (hs: seq<Option<string>>)
    requires forall i :: 0 <= i < |ks| ==> ks[i] in plans && ks[i] in g.slots
    ensures |hs| == |ks| && forall i :: 0 <= i < |ks| ==> hs[i] == HashIn(plans[ks[i]], st, g.slots[ks[i]])
  {
    if ks == [] then []
    else
      var k := ks[|ks| - 1];
      MemberHashes(plans, g, st, ks[..|ks| - 1]) + [HashIn(plans[k], st, g.slots[k])]
  }

  /** A member after the batch, from the outcome that all members share. */
  function Resumed(plan: Plan, st: Stage, s: Slot, row: Row, sent: Answer<Tx>, w: Write): Slot {
    Waiting(s.pos + 1, Delivered(st, Image(s.copy, row), Usable(HashIn(plan, st, s)), sent, w).copy)
  }

  function Committed(plans: Plans, g: Pool, st: Stage, ks: seq<Key>, chain: string, sent: Answer<Tx>, w: Write): Pool
    requires Ready(plans, g, st, ks)
  {
    Pool(BatchTables(g.tables, st, Members(MemberHashes(plans, g, st, ks), MemberPackets(plans, ks)), chain, sent, w),
         map k | k in g.slots ::
           if k in ks then Resumed(plans[k], st, g.slots[k], g.tables.rows[k], sent, w) else g.slots[k])
  }

  /** The dispatcher may pick the row: unfinished, and no live copy of it. */
  predicate Idle(g: Pool, k: Key) {
    k in g.tables.rows && k !in g.slots && !Finished(g.tables.rows[k].status)
  }

  predicate Moving(plans: Plans, g: Pool, k: Key) {
    k in plans && k in g.slots && k in g.tables.rows && g.slots[k].Waiting?
  }

  /** Events that are not possible in a state leave it unchanged. */
  function Next(plans: Plans, g: Pool, e: PoolEvent): Pool {
    match e
    case Accept(k) =>
      if k in plans && k !in g.tables.rows
      then g.(tables := g.tables.(rows := g.tables.rows[k := NEW_ROW])) else g
    case Submit(k) =>
      if Idle(g, k) then Show(g, k, g.tables.rows[k], Waiting(0, Load(g.tables.rows[k]))) else g
    case Refuse(k, w) =>
      if Idle(g, k)
      then g.(tables := g.tables.(rows := g.tables.rows[k := After(g.tables.rows[k], SetStatus(Failed), w)])) else g
    case Begin(k, r) =>
      if Moving(plans, g, k) && g.slots[k].pos < LAST then
        var (row, s) := Enters(plans[k], g.slots[k], g.tables.rows[k], r);
        Show(g, k, row, s)
      else g
    case End(k, r) =>
      if Busy(g, k, false) then
        var y := Ends(g.slots[k], g.tables.rows[k], r);
        Show(g, k, y.row, Waiting(g.slots[k].pos + 1, y.copy))
      else g
    case Commit(st, ks, chain, sent, w) =>
      if Ready(plans, g, st, ks) then Committed(plans, g, st, ks, chain, sent, w) else g
    case Emit(k) =>
      if Moving(plans, g, k) && g.slots[k].pos == LAST then g.(slots := g.slots - {k}) else g
    case Track(i, x, w) => g.(tables := Perform(g.tables, SettleRow(i, x, w)))
  }

  function RunPool(plans: Plans, g: Pool, es: seq<PoolEvent>): Pool
    decreases |es|
  {
    if es == [] then g else RunPool(plans, Next(plans, g, es[0]), es[1..])
  }

  // ----- what one transfer sees of it -----

  /** The transfer as the single-transfer machine knows it: a stage it is inside has not
      happened yet. */
  function View(g: Pool, k: Key): Local {
    if k !in g.tables.rows then START
    else if k !in g.slots then Local(g.tables.rows[k], Out)
    else match g.slots[k]
      case Waiting(pos, copy) => Local(g.tables.rows[k], In(pos, copy))
      case Working(pos, _, base, _) => Local(base.row, In(pos, base.copy))
  }

  /** The answers one member got while its batch was delivered. */
  function MemberReply(plan: Plan, st: Stage, s: Slot, sent: Answer<Tx>, w: Write): Reply
    requires s.Working?
  {
    s.reply.(decodes := Usable(HashIn(plan, st, s)), tx := sent, write := w)
  }

  /** The event of the single-transfer machine, if this event is one for transfer `k`. */
  function Echo(plans: Plans, g: Pool, e: PoolEvent, k: Key): seq<Event> {
    match e
    case Accept(_) | Track(_, _, _) => []
    case Submit(j) => if j == k && Idle(g, k) then [Enter] else []
    case Refuse(j, w) => if j == k && Idle(g, k) then [Reject(w)] else []
    case Begin(j, r) =>
      if j == k && Moving(plans, g, k) && g.slots[k].pos < LAST
         && AtOnce(plans[k], StageAt(g.slots[k].pos), Image(g.slots[k].copy, g.tables.rows[k]), r)
      then [Advance(r)] else []
    case End(j, r) => if j == k && Busy(g, k, false) then [Advance(Join(g.slots[k].reply, r))] else []
    case Commit(st, ks, _, sent, w) =>
      if Ready(plans, g, st, ks) && k in ks then [Advance(MemberReply(plans[k], st, g.slots[k], sent, w))] else []
    case Emit(j) => if j == k && Moving(plans, g, k) && g.slots[k].pos == LAST then [Leave] else []
  }

  /** What happened to transfer `k` during a run of the pool. */
  function History(plans: Plans, g: Pool, es: seq<PoolEvent>, k: Key): seq<Event>
    decreases |es|
  {
    if es == [] then [] else Echo(plans, g, es[0], k) + History(plans, Next(plans, g, es[0]), es[1..], k)
  }

  // ----- every step keeps the transfers apart -----

  /** Inside a stage, the row is the one that came in, showing the stage's status. */
  ghost predicate SlotOk(plan: Plan, s: Slot, row: Row) {
    s.Working? ==>
      && s.pos < LAST
      && !AtOnce(plan, StageAt(s.pos), s.base, s.reply)
      && Image(s.copy, row) == Save(s.base, SetStatus(StatusOf(StageAt(s.pos))), Stored)
  }

  ghost predicate PoolOk(plans: Plans, g: Pool) {
    && g.slots.Keys <= g.tables.rows.Keys <= plans.Keys
    && (forall k :: k in g.slots ==> SlotOk(plans[k], g.slots[k], g.tables.rows[k]))
  }

  ghost predicate PlansOk(plans: Plans) {
    forall k :: k in plans ==> plans[k].packet.key == k
  }

  lemma MembersAreDistinct(plans: Plans, ks: seq<Key>)
    requires PlansOk(plans)
    requires forall i :: 0 <= i < |ks| ==> ks[i] in plans
    requires forall i, j :: 0 <= i < j < |ks| ==> ks[i] != ks[j]
    ensures DistinctKeys(MemberPackets(plans, ks))
    ensures forall k :: HasKey(MemberPackets(plans, ks), k) <==> k in ks
  {
    var ps := MemberPackets(plans, ks);
    forall i | 0 <= i < |ks|
      ensures ps[i].key == ks[i]
    {
      assert ks[i] in plans;
    }
  }

  lemma CommitKeys(plans: Plans, g: Pool, st: Stage, ks: seq<Key>, chain: string, sent: Answer<Tx>, w: Write)
    requires PlansOk(plans) && Ready(plans, g, st, ks)
    ensures Committed(plans, g, st, ks, chain, sent, w).tables.rows.Keys == g.tables.rows.Keys
  {
    hide Usable, DeliveryQuery, BatchTables, HashIn, Members, HasKey;
    MembersAreDistinct(plans, ks);
    BatchOthers(g.tables, st, MemberHashes(plans, g, st, ks), MemberPackets(plans, ks), chain, sent, w);
  }

  /** A batch changes its members' rows as each member alone would, and no other row. */
  lemma CommitRows(plans: Plans, g: Pool, st: Stage, ks: seq<Key>, chain: string, sent: Answer<Tx>, w: Write, k: Key)
    requires PlansOk(plans) && Ready(plans, g, st, ks) && k in g.tables.rows
    ensures var h := Committed(plans, g, st, ks, chain, sent, w);
            && h.tables.rows.Keys == g.tables.rows.Keys
            && h.tables.rows[k] ==
                 if k in ks
                 then Delivered(st, Image(g.slots[k].copy, g.tables.rows[k]), Usable(HashIn(plans[k], st, g.slots[k])), sent, w).row
                 else g.tables.rows[k]
  {
    hide Usable, DeliveryQuery, BatchTables, HashIn, Members, HasKey;
    var hs, ps := MemberHashes(plans, g, st, ks), MemberPackets(plans, ks);
    MembersAreDistinct(plans, ks);
    BatchOthers(g.tables, st, hs, ps, chain, sent, w);
    if k in ks {
      var i :| 0 <= i < |ks| && ks[i] == k;
      assert ps[i].key == k;
      BatchRowOf(g.tables, st, hs, ps, chain, sent, w, i);
    }
  }

  lemma CommitKeeps(plans: Plans, g: Pool, st: Stage, ks: seq<Key>, chain: string, sent: Answer<Tx>, w: Write)
    requires PlansOk(plans) && PoolOk(plans, g) && Ready(plans, g, st, ks)
    ensures PoolOk(plans, Committed(plans, g, st, ks, chain, sent, w))
  {
    hide AtOnce, Save, Delivered, HashIn, Usable, StageAt, BatchTables;
    var h := Committed(plans, g, st, ks, chain, sent, w);
    CommitKeys(plans, g, st, ks, chain, sent, w);
    forall k | k in h.slots
      ensures SlotOk(plans[k], h.slots[k], h.tables.rows[k])
    {
      CommitRows(plans, g, st, ks, chain, sent, w, k);
    }
  }

  lemma NextKeeps(plans: Plans, g: Pool, e: PoolEvent)
    requires PlansOk(plans) && PoolOk(plans, g)
    ensures PoolOk(plans, Next(plans, g, e))
    ensures g.tables.rows.Keys <= Next(plans, g, e).tables.rows.Keys
  {
    hide AtOnce, Process, Save, Ends, Committed, StageAt, Settle;
    if e.Commit? && Ready(plans, g, e.st, e.ks) {
      CommitKeeps(plans, g, e.st, e.ks, e.chain, e.sent, e.write);
      CommitKeys(plans, g, e.st, e.ks, e.chain, e.sent, e.write);
    }
  }

  /** A stage that works on a transfer is not done at once: the row shows its status and others
      may move until it ends. */
  lemma BeginShows(plans: Plans, g: Pool, k: Key, r: Reply)
    requires k in plans && k in g.slots && k in g.tables.rows && g.slots[k].Waiting? && g.slots[k].pos < LAST - 1
    requires Admits(plans[k].cfg, plans[k].packet, StageAt(g.slots[k].pos), Image(g.slots[k].copy, g.tables.rows[k]), r)
    requires r.stateWrite.Stored?
    ensures var h := Next(plans, g, Begin(k, r));
            && k in h.slots && h.slots[k].Working? && h.slots[k].pos == g.slots[k].pos
            && k in h.tables.rows
            && h.tables.rows[k] == g.tables.rows[k].(status := StatusOf(StageAt(g.slots[k].pos)))
            && forall j :: j in g.tables.rows && j != k ==> j in h.tables.rows && h.tables.rows[j] == g.tables.rows[j]
  {
    hide ShouldProcess, StatusOf;
  }

  // ----- each transfer's history is one of the single-transfer machine -----

  /** A stage that took two steps did what it does in one. */
  lemma TwoStepsAreOne(plan: Plan, s: Slot, row: Row, r: Reply)
    requires s.Working? && SlotOk(plan, s, row)
    requires r.now == s.reply.now && r.stateWrite == s.reply.stateWrite
    requires IsBatch(StageAt(s.pos)) ==> r.later == s.reply.later
    ensures var st := StageAt(s.pos);
            Process(plan.cfg, plan.packet, st, s.base, r)
            == Execute(Image(s.copy, row), Decide(st, s.copy.data, r), r)
  {
    hide ShouldProcess, StatusOf, Decide, Execute, Change;
  }

  /** For a member of a batch the shared outcome is what the stage decides. */
  lemma DeliveredIsExecuted(plan: Plan, st: Stage, s: Slot, row: Row, sent: Answer<Tx>, w: Write)
    requires IsBatch(st) && s.Working?
    ensures var r := MemberReply(plan, st, s, sent, w);
            Execute(Image(s.copy, row), Decide(st, s.copy.data, r), r)
            == Delivered(st, Image(s.copy, row), Usable(HashIn(plan, st, s)), sent, w)
  {
    hide DecodeHex;
  }

  lemma BeginProjects(plans: Plans, g: Pool, k: Key, r: Reply)
    requires PoolOk(plans, g) && k in plans
    ensures var e := Begin(k, r);
            View(Next(plans, g, e), k) == Run(plans[k].cfg, plans[k].packet, View(g, k), Echo(plans, g, e, k))
  {
    hide AtOnce, Process, Save, SlotOk, StageAt;
    if Echo(plans, g, Begin(k, r), k) != [] {
      RunOne(plans[k].cfg, plans[k].packet, View(g, k), Advance(r));
    }
  }

  lemma EndProjects(plans: Plans, g: Pool, k: Key, r: Reply)
    requires PoolOk(plans, g) && k in plans
    ensures var e := End(k, r);
            View(Next(plans, g, e), k) == Run(plans[k].cfg, plans[k].packet, View(g, k), Echo(plans, g, e, k))
  {
    hide AtOnce, Process, Save, StageAt, Execute, Decide, SlotOk;
    if Busy(g, k, false) {
      var m := Join(g.slots[k].reply, r);
      TwoStepsAreOne(plans[k], g.slots[k], g.tables.rows[k], m);
      RunOne(plans[k].cfg, plans[k].packet, View(g, k), Advance(m));
    }
  }

  lemma CommitProjects(plans: Plans, g: Pool, e: PoolEvent, k: Key)
    requires PlansOk(plans) && PoolOk(plans, g) && e.Commit? && k in plans
    ensures View(Next(plans, g, e), k) == Run(plans[k].cfg, plans[k].packet, View(g, k), Echo(plans, g, e, k))
  {
    hide AtOnce, Process, Save, StageAt, Execute, Decide, SlotOk, BatchTables, Delivered, Usable, HashIn;
    if Ready(plans, g, e.st, e.ks) {
      CommitKeys(plans, g, e.st, e.ks, e.chain, e.sent, e.write);
    }
    if Ready(plans, g, e.st, e.ks) && k in g.tables.rows {
      CommitRows(plans, g, e.st, e.ks, e.chain, e.sent, e.write, k);
      if k in e.ks {
        var s, m := g.slots[k], MemberReply(plans[k], e.st, g.slots[k], e.sent, e.write);
        TwoStepsAreOne(plans[k], s, g.tables.rows[k], m);
        DeliveredIsExecuted(plans[k], e.st, s, g.tables.rows[k], e.sent, e.write);
        RunOne(plans[k].cfg, plans[k].packet, View(g, k), Advance(m));
      }
    }
  }

  lemma StepProjects(plans: Plans, g: Pool, e: PoolEvent, k: Key)
    requires PlansOk(plans) && PoolOk(plans, g) && k in plans
    ensures View(Next(plans, g, e), k) == Run(plans[k].cfg, plans[k].packet, View(g, k), Echo(plans, g, e, k))
  {
    hide Enters, Ends, SlotOk, AtOnce, Process;
    match e {
      case Begin(j, r) =>
        if j == k { BeginProjects(plans, g, k, r); }
      case End(j, r) =>
        if j == k { EndProjects(plans, g, k, r); }
      case Commit(_, _, _, _, _) =>
        CommitProjects(plans, g, e, k);
      case Submit(_) =>
        RunOne(plans[k].cfg, plans[k].packet, View(g, k), Enter);
      case Refuse(_, w) =>
        RunOne(plans[k].cfg, plans[k].packet, View(g, k), Reject(w));
      case Emit(_) =>
        RunOne(plans[k].cfg, plans[k].packet, View(g, k), Leave);
      case Accept(_) =>
      case Track(_, _, _) =>
    }
  }

  lemma {:induction false} RunProjects(plans: Plans, g: Pool, es: seq<PoolEvent>, k: Key)
    requires PlansOk(plans) && PoolOk(plans, g) && k in plans
    ensures PoolOk(plans, RunPool(plans, g, es))
    ensures View(RunPool(plans, g, es), k)
         == Run(plans[k].cfg, plans[k].packet, View(g, k), History(plans, g, es, k))
    decreases |es|
  {
    hide Next, Echo, View, PoolOk;
    if es != [] {
      var h := Next(plans, g, es[0]);
      NextKeeps(plans, g, es[0]);
      StepProjects(plans, g, es[0], k);
      RunProjects(plans, h, es[1..], k);
      RunAppend(plans[k].cfg, plans[k].packet, View(g, k), Echo(plans, g, es[0], k), History(plans, h, es[1..], k));
    }
  }

  lemma ViewOfEmpty(k: Key)
    ensures View(EMPTY, k) == START
  {
  }

  /** The row in the table is the single-transfer machine's row, or that row showing the
      status of the stage at work. */
  ghost predicate Shown(g: Pool, k: Key, l: Local) {
    && k in g.tables.rows
    && (g.tables.rows[k] == l.row
        || (l.flight.In? && l.flight.pos < LAST && !StageAt(l.flight.pos).Finish?
            && g.tables.rows[k] == l.row.(status := StatusOf(StageAt(l.flight.pos)))))
  }

  lemma ViewIsShown(plans: Plans, g: Pool, k: Key)
    requires PoolOk(plans, g) && k in g.tables.rows
    ensures Shown(g, k, View(g, k))
  {
    hide Admits, StatusOf, StageAt;
  }

  /** The batched, concurrent pipeline refines the single-transfer one: whatever the other
      transfers do, transfer `k` and its row are what its own history gives alone. */
  lemma PoolRefinesRun(plans: Plans, es: seq<PoolEvent>, k: Key)
    requires PlansOk(plans) && k in plans
    ensures var g := RunPool(plans, EMPTY, es);
            var l := Run(plans[k].cfg, plans[k].packet, START, History(plans, EMPTY, es, k));
            && View(g, k) == l
            && (k in g.tables.rows ==> Shown(g, k, l))
  {
    hide View, Next, Echo, Shown;
    assert PoolOk(plans, EMPTY);
    ViewOfEmpty(k);
    RunProjects(plans, EMPTY, es, k);
    var g := RunPool(plans, EMPTY, es);
    if k in g.tables.rows {
      ViewIsShown(plans, g, k);
    }
  }

  lemma SavedAgrees(x: Image, s: Status)
    requires ImageOk(x) && !x.copy.failed
    ensures ImageOk(Save(x, SetStatus(s), Stored))
  {
  }

  /** So in every reachable state of the whole pool every row is sound, even in the middle
      of a stage, and every live copy without an error agrees with its row. */
  lemma PoolIsOk(plans: Plans, es: seq<PoolEvent>, k: Key)
    requires PlansOk(plans)
    requires k in RunPool(plans, EMPTY, es).tables.rows
    ensures var g := RunPool(plans, EMPTY, es);
            && RowOk(g.tables.rows[k])
            && (k in g.slots ==> Agrees(Image(g.slots[k].copy, g.tables.rows[k])))
  {
    hide Next, Echo, ShouldProcess, StatusOf, StageAt, RowOk;
    var g := RunPool(plans, EMPTY, es);
    assert PoolOk(plans, EMPTY);
    InPlans(plans, EMPTY, es);
    RunProjects(plans, EMPTY, es, k);
    ViewOfEmpty(k);
    ReachableIsOk(plans[k].cfg, plans[k].packet, History(plans, EMPTY, es, k), []);
    if k in g.slots && g.slots[k].Working? {
      SavedAgrees(g.slots[k].base, StatusOf(StageAt(g.slots[k].pos)));
    }
  }

  lemma {:induction false} InPlans(plans: Plans, g: Pool, es: seq<PoolEvent>)
    requires PlansOk(plans) && PoolOk(plans, g)
    ensures PoolOk(plans, RunPool(plans, g, es))
    ensures g.tables.rows.Keys <= RunPool(plans, g, es).tables.rows.Keys
    decreases |es|
  {
    hide PoolOk, Next;
    if es != [] {
      NextKeeps(plans, g, es[0]);
      InPlans(plans, Next(plans, g, es[0]), es[1..]);
    }
  }

  lemma CommitKeepsTrail(plans: Plans, g: Pool, st: Stage, ks: seq<Key>, chain: string, sent: Answer<Tx>, w: Write)
    requires PlansOk(plans) && Ready(plans, g, st, ks)
    ensures TrailKept(g.tables, Committed(plans, g, st, ks, chain, sent, w).tables)
  {
    hide Usable, DeliveryQuery, SubmissionOf, HashIn, Members, Perform;
    var hs, ps := MemberHashes(plans, g, st, ks), MemberPackets(plans, ks);
    MembersAreDistinct(plans, ks);
    MembersDistinct(hs, ps);
    if sent.Got? {
      PerformKeepsTrail(g.tables, Record(Members(hs, ps), DeliveryQuery(st, sent.value), SubmissionOf(st, sent.value, chain), w));
    }
  }

  lemma NextKeepsTrail(plans: Plans, g: Pool, e: PoolEvent)
    requires PlansOk(plans)
    ensures TrailKept(g.tables, Next(plans, g, e).tables)
  {
    hide Enters, Ends, Committed, Ready, Perform;
    if e.Commit? && Ready(plans, g, e.st, e.ks) {
      CommitKeepsTrail(plans, g, e.st, e.ks, e.chain, e.sent, e.write);
    }
    if e.Track? {
      PerformKeepsTrail(g.tables, SettleRow(e.row, e.x, e.write));
    }
  }

  /** Whatever is retried, cleared and settled later, the submissions of a batch and their links
      to its transfers stay. */
  lemma {:induction false} PoolKeepsTrail(plans: Plans, g: Pool, es: seq<PoolEvent>)
    requires PlansOk(plans)
    ensures TrailKept(g.tables, RunPool(plans, g, es).tables)
    decreases |es|
  {
    hide Next;
    if es != [] {
      NextKeepsTrail(plans, g, es[0]);
      PoolKeepsTrail(plans, Next(plans, g, es[0]), es[1..]);
    }
  }
}
