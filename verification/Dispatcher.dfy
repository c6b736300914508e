/** The dispatcher's loop over unfinished rows, with the pipeline manager and the dedupers as
    the objects they are. */
module Dispatcher {
  import opened Wrappers
  import opened Transfers
  import opened Store
  import opened Deduper

  /** The first stage takes the oldest input. */
  function Pulled(l: Lane): Lane
    requires l.input != []
  {
    l.(input := l.input[1..], inside := l.inside + [l.input[0]])
  }

  /** The key is in flight already, or is marked and put into the input channel.  On a full
      channel this waits until the first stage takes the oldest input. */
  function Pushed(l: Lane, k: Key): Lane {
    if k in l.marked then l
    else
      var m := if |l.input| < INPUT_BUFFER_SIZE then l else Pulled(l);
      m.(marked := m.marked + {k}, input := m.input + [k])
  }

  /** The deduper's invariant, with the lock free. */
  ghost predicate AtRest(l: Lane) {
    LaneOk(l) && l.pushing.None? && |l.input| <= INPUT_BUFFER_SIZE
  }

  class PipelineDeduper {
    var inPipeline: set<Key>
    var input: seq<Key>         // the wrapped pipeline's input channel
    var inside: seq<Key>
    var output: Option<Key>     // polled, not yet deleted

    constructor ()
      ensures View() == NEW_LANE
    {
      inPipeline, input, inside, output := {}, [], [], None;
    }

    function View(): Lane
      reads this
    {
      Lane(inPipeline, None, input, inside, output)
    }

    /** True exactly if the transfer was not in the pipeline; then it is now, once. */
    method Push(k: Key) returns (pushed: bool)
      requires AtRest(View())
      modifies this
      ensures pushed <==> k !in old(inPipeline)
      ensures View() == Pushed(old(View()), k) && AtRest(View())
    {
      PushedKeeps(View(), k);
      if k in inPipeline { return false; }
      inPipeline := inPipeline + {k};
      if |input| >= INPUT_BUFFER_SIZE {
        // the send waits for this step of the first stage
        inside, input := inside + [input[0]], input[1..];
      }
      input := input + [k];
      return true;
    }

    /** The output loop: whatever comes out of the pipeline may be pushed again. */
    method Forget()
      requires LaneOk(View()) && output.Some?
      modifies this
      ensures LaneOk(View()) && Copies(View(), old(output).value) == 0
      ensures inPipeline == old(inPipeline) - {old(output).value}
      ensures input == old(input) && inside == old(inside)
    {
      ActKeeps(View(), Unmark);
      inPipeline := inPipeline - {output.value};
      output := None;
    }
  }

  class PipelineManager {
    var pipelines: map<PipelineKey, PipelineDeduper>

    constructor ()
      ensures Fleet() == map[]
    {
      pipelines := map[];
    }

    ghost predicate Apart()
      reads this
    {
      forall a, b :: a in pipelines && b in pipelines && a != b ==> pipelines[a] != pipelines[b]
    }

    ghost function Fleet(): Fleet
      reads this, pipelines.Values
    {
      map at | at in pipelines :: pipelines[at].View()
    }

    /** The pipeline of the packet's chains and clients; a missing one is created if the
        chains are configured. */
    method Pipeline(p: Packet, configured: set<PipelineKey>) returns (d: Option<PipelineDeduper>)
      requires Apart()
      modifies this
      ensures Apart() && Fleet() == Opened(old(Fleet()), PipelineKeyOf(p), configured)
      ensures d.Some? <==> PipelineKeyOf(p) in pipelines
      ensures d.Some? ==> d.value == pipelines[PipelineKeyOf(p)]
      ensures forall at :: at in pipelines ==> (at in old(pipelines) && pipelines[at] == old(pipelines)[at]) || fresh(pipelines[at])
      ensures forall at :: at in old(pipelines) ==> at in pipelines
    {
      var at := PipelineKeyOf(p);
      if at in pipelines { return Some(pipelines[at]); }
      if at !in configured { return None; }
      var created := new PipelineDeduper();
      pipelines := pipelines[at := created];
      return Some(created);
    }
  }

  function Opened(f: Fleet, at: PipelineKey, configured: set<PipelineKey>): Fleet {
    if at !in f && at in configured then f[at := NEW_LANE] else f
  }

  function Offered(f: Fleet, p: Packet, configured: set<PipelineKey>): Fleet {
    var at := PipelineKeyOf(p);
    var g := Opened(f, at, configured);
    if at in g then g[at := Pushed(g[at], p.key)] else g
  }

  datatype Dispatched = Dispatched(fleet: Fleet, rows: map<Key, Row>)

  /** One unfinished row: pushed, or in flight already, or marked FAILED. */
  function SubmitOne(o: Dispatched, p: Packet, configured: set<PipelineKey>, w: Write): Dispatched {
    var f := Offered(o.fleet, p, configured);
    if PipelineKeyOf(p) !in f && p.key in o.rows
    then Dispatched(f, o.rows[p.key := After(o.rows[p.key], SetStatus(Failed), w)])
    else Dispatched(f, o.rows)
  }

  function SubmitAll(o: Dispatched, ps: seq<Packet>, configured: set<PipelineKey>, ws: seq<Write>): Dispatched
    requires |ws| == |ps|
  {
    if ps == [] then o
    else
      var n := |ps| - 1;
      SubmitOne(SubmitAll(o, ps[..n], configured, ws[..n]), ps[n], configured, ws[n])
  }

  lemma SubmitNone(o: Dispatched, configured: set<PipelineKey>)
    ensures SubmitAll(o, [], configured, []) == o
  {
  }

  lemma SubmitNext(o: Dispatched, ps: seq<Packet>, configured: set<PipelineKey>, ws: seq<Write>, i: nat)
    requires i < |ps| == |ws|
    ensures SubmitAll(o, ps[..i + 1], configured, ws[..i + 1])
         == SubmitOne(SubmitAll(o, ps[..i], configured, ws[..i]), ps[i], configured, ws[i])
  {
    assert ps[..i + 1][..i] == ps[..i] && ws[..i + 1][..i] == ws[..i];
  }

  lemma SubmitOneKeeps(o: Dispatched, p: Packet, configured: set<PipelineKey>, w: Write, at: PipelineKey, k: Key)
    requires p.key != k
    ensures var r := SubmitOne(o, p, configured, w);
            && (at in o.fleet ==> at in r.fleet && (k in r.fleet[at].marked <==> k in o.fleet[at].marked))
            && (at !in o.fleet && at in r.fleet ==> at in configured && k !in r.fleet[at].marked)
            && r.rows.Keys == o.rows.Keys && (k in o.rows ==> r.rows[k] == o.rows[k])
  {
    hide After;
  }

  /** A transfer that is not listed is left alone. */
  lemma {:induction false} Unlisted(o: Dispatched, ps: seq<Packet>, configured: set<PipelineKey>, ws: seq<Write>, at: PipelineKey, k: Key)
    requires |ws| == |ps| && !HasKey(ps, k)
    ensures var r := SubmitAll(o, ps, configured, ws);
            && (at in o.fleet ==> at in r.fleet && (k in r.fleet[at].marked <==> k in o.fleet[at].marked))
            && (at !in o.fleet && at in r.fleet ==> at in configured && k !in r.fleet[at].marked)
            && r.rows.Keys == o.rows.Keys && (k in o.rows ==> r.rows[k] == o.rows[k])
  {
    hide SubmitOne;
    if ps != [] {
      var n := |ps| - 1;
      assert forall j :: 0 <= j < n ==> ps[..n][j] == ps[j];
      Unlisted(o, ps[..n], configured, ws[..n], at, k);
      SubmitOneKeeps(SubmitAll(o, ps[..n], configured, ws[..n]), ps[n], configured, ws[n], at, k);
    }
  }

  /** Every unfinished row is in flight after the loop, unless its chains are not configured:
      then it is marked FAILED, as far as that write got. */
  lemma {:induction false} EveryRowIsHandled(o: Dispatched, ps: seq<Packet>, configured: set<PipelineKey>, ws: seq<Write>, i: nat)
    requires i < |ps| == |ws| && DistinctKeys(ps) && ps[i].key in o.rows
    ensures var r, at, k := SubmitAll(o, ps, configured, ws), PipelineKeyOf(ps[i]), ps[i].key;
            && k in r.rows
            && if at in o.fleet || at in configured
               then at in r.fleet && k in r.fleet[at].marked && r.rows[k] == o.rows[k]
               else at !in r.fleet && r.rows[k] == After(o.rows[k], SetStatus(Failed), ws[i])
  {
    hide After;
    var n := |ps| - 1;
    var q := SubmitAll(o, ps[..n], configured, ws[..n]);
    assert forall j :: 0 <= j < n ==> ps[..n][j] == ps[j];
    if i < n {
      EveryRowIsHandled(o, ps[..n], configured, ws[..n], i);
      SubmitOneKeeps(q, ps[n], configured, ws[n], PipelineKeyOf(ps[i]), ps[i].key);
    } else {
      Unlisted(o, ps[..n], configured, ws[..n], PipelineKeyOf(ps[n]), ps[n].key);
    }
  }

  ghost predicate Sound(f: Fleet) {
    forall at :: at in f ==> AtRest(f[at])
  }

  predicate Marked(f: Fleet, at: PipelineKey, k: Key) {
    at in f && k in f[at].marked
  }

  lemma OpenedIsSound(f: Fleet, at: PipelineKey, configured: set<PipelineKey>)
    requires Sound(f)
    ensures Sound(Opened(f, at, configured))
    ensures forall k :: Marked(Opened(f, at, configured), at, k) == Marked(f, at, k)
  {
    NewLaneOk();
  }

  lemma PushedKeeps(l: Lane, k: Key)
    requires AtRest(l)
    ensures AtRest(Pushed(l, k))
  {
    hide LaneOk;
    if k !in l.marked {
      var m := Act(l, Lock(k));
      ActKeeps(l, Lock(k));
      if |l.input| >= INPUT_BUFFER_SIZE {
        ActKeeps(m, Pull);
        m := Act(m, Pull);
      }
      ActKeeps(m, Send);
      assert Act(m, Send) == Pushed(l, k);
    }
  }

  lemma OfferedIsSound(f: Fleet, p: Packet, configured: set<PipelineKey>)
    requires Sound(f)
    ensures Sound(Offered(f, p, configured))
  {
    hide AtRest, Pushed;
    var at := PipelineKeyOf(p);
    OpenedIsSound(f, at, configured);
    var g := Opened(f, at, configured);
    if at in g { PushedKeeps(g[at], p.key); }
  }

  datatype Submitted = InPipeline | AlreadyInPipeline | NoPipeline

  /** Find or create the pipeline and push the transfer onto it. */
  method SubmitTransfer(manager: PipelineManager, p: Packet, configured: set<PipelineKey>) returns (r: Submitted)
    requires manager.Apart() && Sound(manager.Fleet())
    modifies manager, manager.pipelines.Values
    ensures manager.Apart() && Sound(manager.Fleet())
    ensures manager.Fleet() == Offered(old(manager.Fleet()), p, configured)
    ensures r.NoPipeline? <==> PipelineKeyOf(p) !in manager.Fleet()
    ensures r.AlreadyInPipeline? <==> old(Marked(manager.Fleet(), PipelineKeyOf(p), p.key))
    ensures forall at :: at in manager.pipelines ==>
              manager.pipelines[at] in old(manager.pipelines.Values) || fresh(manager.pipelines[at])
  {
    hide AtRest, Pushed, Sound;
    OfferedIsSound(manager.Fleet(), p, configured);
    LaneIsSound(manager.Fleet(), p, configured);
    var pipeline := manager.Pipeline(p, configured);
    if pipeline.None? { return NoPipeline; }
    ghost var at, after := PipelineKeyOf(p), manager.Fleet();
    assert after[at] == pipeline.value.View();
    var pushed := pipeline.value.Push(p.key);
    assert manager.Fleet() == after[at := Pushed(after[at], p.key)];
    return if pushed then InPipeline else AlreadyInPipeline;
  }

  lemma LaneIsSound(f: Fleet, p: Packet, configured: set<PipelineKey>)
    requires Sound(f)
    ensures var g, at := Opened(f, PipelineKeyOf(p), configured), PipelineKeyOf(p);
            at in g ==> AtRest(g[at]) && (p.key in g[at].marked <==> Marked(f, at, p.key))
  {
    hide AtRest;
    OpenedIsSound(f, PipelineKeyOf(p), configured);
    var g, at := Opened(f, PipelineKeyOf(p), configured), PipelineKeyOf(p);
    assert at in g ==> (p.key in g[at].marked <==> Marked(g, at, p.key));
  }

  /** Look at every unfinished row: push it onto its pipeline, or mark it FAILED. */
  method SubmitWaitingUnfinishedTransfers(
    manager: PipelineManager, db: Database, read: Answer<seq<Packet>>, configured: set<PipelineKey>, ws: seq<Write>)
    returns (err: bool)
    requires manager.Apart() && Sound(manager.Fleet())
    requires read.Got? ==> |ws| == |read.value|
    modifies manager, manager.pipelines.Values, db
    ensures err <==> read.NoAnswer?
    ensures var before := Dispatched(old(manager.Fleet()), old(db.tables.rows));
            Dispatched(manager.Fleet(), db.tables.rows)
            == if err then before else SubmitAll(before, read.value, configured, ws)
    ensures db.tables.submissions == old(db.tables.submissions) && db.tables.links == old(db.tables.links)
    ensures manager.Apart() && Sound(manager.Fleet())
  {
    hide Sound, Offered, Change, SubmitAll, PipelineManager.Fleet;
    if read.NoAnswer? { return true; }
    var ps := read.value;
    ghost var before := Dispatched(manager.Fleet(), db.tables.rows);
    SubmitNone(before, configured);
    for i := 0 to |ps|
      invariant manager.Apart()
      invariant forall at :: at in manager.pipelines ==>
                  manager.pipelines[at] in old(manager.pipelines.Values) || fresh(manager.pipelines[at])
      invariant Dispatched(manager.Fleet(), db.tables.rows) == SubmitAll(before, ps[..i], configured, ws[..i])
      invariant db.tables.submissions == old(db.tables.submissions) && db.tables.links == old(db.tables.links)
      invariant Sound(manager.Fleet())
    {
      SubmitNext(before, ps, configured, ws, i);
      var submitted := SubmitTransfer(manager, ps[i], configured);
      if submitted.NoPipeline? {
        var _ := db.Exec(ps[i].key, SetStatus(Failed), ws[i]);
      }
    }
    assert ps[..|ps|] == ps && ws[..|ws|] == ws;
    return false;
  }
}
