/** Terminal statuses are true in the whole pool too: any number of transfers, each with its own
    packet on the two chains, in any interleaving. */
module PoolTruth {
  import opened Wrappers
  import opened Transfers
  import opened Stages
  import opened Runs
  import opened Store
  import opened TwoChains
  import opened Soundness
  import opened Interleaving

  /** The pool, what the chains hold of every packet, and what they held at every earlier time. */
  datatype Scene = Scene(pool: Pool, worlds: map<Key, World>, past: seq<map<Key, World>>)

  datatype SceneEvent = OnChain(k: Key, event: ChainEvent) | InPool(move: PoolEvent)

  function Play(plans: Plans, s: Scene, e: SceneEvent): Scene {
    match e
    case OnChain(k, c) =>
      if k in s.worlds then Scene(s.pool, s.worlds[k := Occur(s.worlds[k], c)], s.past + [s.worlds]) else s
    case InPool(m) => s.(pool := Interleaving.Next(plans, s.pool, m))
  }

  /** An answer about packet `k` that is true now, or was at some earlier time of the run. */
  ghost predicate WasTrue(s: Scene, k: Key, st: Stage, d: Row, r: Reply)
    requires k in s.worlds
  {
    || Honest(s.worlds[k], st, d, r)
    || exists i :: 0 <= i < |s.past| && k in s.past[i] && Honest(s.past[i][k], st, d, r)
  }

  /** What a step tells one transfer was true at some time. */
  ghost predicate TrueTo(plans: Plans, s: Scene, m: PoolEvent, k: Key)
    requires k in s.worlds
  {
    var l, es := View(s.pool, k), Echo(plans, s.pool, m, k);
    es != [] && es[0].Advance? && l.flight.In? && l.flight.pos < LAST ==>
      WasTrue(s, k, StageAt(l.flight.pos), l.flight.copy.data, es[0].reply)
  }

  ghost predicate FairPlay(plans: Plans, s: Scene, e: SceneEvent) {
    match e
    case OnChain(k, c) => k in s.worlds ==> TwoChains.Enabled(s.worlds[k], c)
    case InPool(m) => forall k :: k in s.worlds ==> TrueTo(plans, s, m, k)
  }

  /** Only what a stage is told can be unfair: a step that ends no stage, or one told the truth
      about every packet, is fair. */
  lemma FairIff(plans: Plans, s: Scene, m: PoolEvent)
    ensures FairPlay(plans, s, InPool(m)) <==>
              forall k :: k in s.worlds ==>
                var l, es := View(s.pool, k), Echo(plans, s.pool, m, k);
                es == [] || !es[0].Advance? || l.flight.Out? || l.flight.pos >= LAST
                || WasTrue(s, k, StageAt(l.flight.pos), l.flight.copy.data, es[0].reply)
  {
    hide View, Echo, WasTrue, StageAt;
  }

  ghost predicate FairPlays(plans: Plans, s: Scene, es: seq<SceneEvent>)
    decreases |es|
  {
    es == [] || (FairPlay(plans, s, es[0]) && FairPlays(plans, Play(plans, s, es[0]), es[1..]))
  }

  function PlayAll(plans: Plans, s: Scene, es: seq<SceneEvent>): Scene
    decreases |es|
  {
    if es == [] then s else PlayAll(plans, Play(plans, s, es[0]), es[1..])
  }

  /** No fact of an earlier time was taken back. */
  ghost predicate Remembered(worlds: map<Key, World>, past: seq<map<Key, World>>) {
    forall i, k :: 0 <= i < |past| && k in past[i] && k in worlds ==> Grows(past[i][k], worlds[k])
  }

  lemma RememberedStep(worlds: map<Key, World>, past: seq<map<Key, World>>, k: Key, c: ChainEvent)
    requires Remembered(worlds, past) && k in worlds && WorldOk(worlds[k]) && TwoChains.Enabled(worlds[k], c)
    ensures Remembered(worlds[k := Occur(worlds[k], c)], past + [worlds])
  {
    hide Occur, WorldOk, TwoChains.Enabled, Grows;
    OccurKeeps(worlds[k], c);
    var v, all := worlds[k := Occur(worlds[k], c)], past + [worlds];
    forall i, j | 0 <= i < |all| && j in all[i] && j in v
      ensures Grows(all[i][j], v[j])
    {
      GrowsFrom(all[i][j], worlds[j], v[j]);
      GrowsFrom(worlds[j], worlds[j], v[j]);
    }
  }

  lemma GrowsFrom(a: World, b: World, c: World)
    ensures Grows(a, a)
    ensures Grows(a, b) && Grows(b, c) ==> Grows(a, c)
  {
  }

  /** Every transfer, seen alone, is sound against its own packet's world. */
  ghost predicate SceneOk(plans: Plans, s: Scene) {
    && PlansOk(plans) && PoolOk(plans, s.pool) && s.worlds.Keys == plans.Keys && Remembered(s.worlds, s.past)
    && (forall k :: k in plans ==> SystemOk(plans[k].cfg, System(s.worlds[k], View(s.pool, k))))
  }

  lemma PoolStepKeeps(plans: Plans, s: Scene, m: PoolEvent, k: Key)
    requires SceneOk(plans, s) && k in plans && TrueTo(plans, s, m, k)
    ensures SystemOk(plans[k].cfg, System(s.worlds[k], View(Interleaving.Next(plans, s.pool, m), k)))
  {
    hide SystemOk, Move, Echo, View, PoolOk, Honest, Grows, Interleaving.Next;
    var cfg, p, l, es := plans[k].cfg, plans[k].packet, View(s.pool, k), Echo(plans, s.pool, m, k);
    StepProjects(plans, s.pool, m, k);
    EchoIsShort(plans, s.pool, m, k);
    if es != [] {
      RunOne(cfg, p, l, es[0]);
      if es[0].Advance? && l.flight.In? && l.flight.pos < LAST {
        var st, d, r := StageAt(l.flight.pos), l.flight.copy.data, es[0].reply;
        if !Honest(s.worlds[k], st, d, r) {
          var i :| 0 <= i < |s.past| && k in s.past[i] && Honest(s.past[i][k], st, d, r);
          HonestLater(s.past[i][k], s.worlds[k], st, d, r);
        }
      }
      RelayStep(cfg, p, System(s.worlds[k], l), es[0]);
    }
  }

  lemma EchoIsShort(plans: Plans, g: Pool, m: PoolEvent, k: Key)
    ensures var es := Echo(plans, g, m, k); es == [] || es == [es[0]]
  {
  }

  lemma SystemWorld(cfg: Config, s: System)
    requires SystemOk(cfg, s)
    ensures WorldOk(s.world)
  {
  }

  lemma PlayKeeps(plans: Plans, s: Scene, e: SceneEvent)
    requires SceneOk(plans, s) && FairPlay(plans, s, e)
    ensures SceneOk(plans, Play(plans, s, e))
  {
    hide SystemOk, View, PoolOk, TrueTo, Occur, Interleaving.Next, Grows, Remembered, WorldOk;
    match e {
      case OnChain(k, c) =>
        if k in s.worlds {
          ChainStep(plans[k].cfg, plans[k].packet, System(s.worlds[k], View(s.pool, k)), c);
          SystemWorld(plans[k].cfg, System(s.worlds[k], View(s.pool, k)));
          RememberedStep(s.worlds, s.past, k, c);
        }
      case InPool(m) =>
        NextKeeps(plans, s.pool, m);
        forall k | k in plans
          ensures SystemOk(plans[k].cfg, System(s.worlds[k], View(Interleaving.Next(plans, s.pool, m), k)))
        {
          PoolStepKeeps(plans, s, m, k);
        }
    }
  }

  lemma {:induction false} PlaysKeep(plans: Plans, s: Scene, es: seq<SceneEvent>)
    requires SceneOk(plans, s) && FairPlays(plans, s, es)
    ensures SceneOk(plans, PlayAll(plans, s, es))
    decreases |es|
  {
    hide SceneOk, FairPlay, Play;
    if es != [] {
      PlayKeeps(plans, s, es[0]);
      PlaysKeep(plans, Play(plans, s, es[0]), es[1..]);
    }
  }

  ghost function Opening(plans: Plans): Scene {
    Scene(EMPTY, map k | k in plans :: UNTOUCHED, [])
  }

  lemma OpeningIsOk(plans: Plans)
    requires PlansOk(plans)
    ensures SceneOk(plans, Opening(plans))
  {
    forall k | k in plans ensures SystemOk(plans[k].cfg, System(UNTOUCHED, View(EMPTY, k))) {
      ViewOfEmpty(k);
    }
  }

  /** In every interleaving of all transfers and both chains, with answers that were true at any
      earlier time of the run: a terminal status in the table is true of its packet. */
  lemma TerminalStatusesAreTrue(plans: Plans, es: seq<SceneEvent>, k: Key)
    requires PlansOk(plans) && FairPlays(plans, Opening(plans), es)
    requires k in PlayAll(plans, Opening(plans), es).pool.tables.rows
    ensures var s := PlayAll(plans, Opening(plans), es);
            && k in plans && k in s.worlds
            && Verdict(plans[k].cfg, s.worlds[k], s.pool.tables.rows[k].status)
  {
    hide FairPlays, PlayAll, Opening, View, SlotOk, RowOk, StatusOf, StageAt, Verdict;
    OpeningIsOk(plans);
    PlaysKeep(plans, Opening(plans), es);
    var s := PlayAll(plans, Opening(plans), es);
    ViewIsShown(plans, s.pool, k);
    var l := View(s.pool, k);
    assert SystemOk(plans[k].cfg, System(s.worlds[k], l));
    if l.flight.In? && l.flight.pos < LAST && !StageAt(l.flight.pos).Finish? {
      WorkIsNoVerdict(plans[k].cfg, s.worlds[k], StageAt(l.flight.pos));
    }
  }

  lemma WorkIsNoVerdict(cfg: Config, w: World, st: Stage)
    requires !st.Finish?
    ensures Verdict(cfg, w, StatusOf(st))
  {
  }
}
