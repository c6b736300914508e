/** The relayer's tables, the statements on them, and the database transaction that
    records a submitted batch. */
module Store {
  import opened Wrappers
  import opened Transfers

  datatype TxType = RecvPacket | AckPacket | TimeoutPacket

  datatype TxStatus = TxPending | TxSuccess | TxFailed | TxExpired

  /** A row of `ibcv2_relayer_tx_submissions`. */
  datatype Submission = Submission(
    txHash: string,
    chain: string,
    kind: TxType,
    submittedAt: Time,
    status: TxStatus,
    gas: Option<int>)

  /** The submission with id `k` is `submissions[k - 1]`; `links` holds the pairs
      (transfer id, submission id) of `ibcv2_transfer_tx_submissions`. */
  datatype Tables = Tables(
    rows: map<Key, Row>,
    submissions: seq<Submission>,
    links: set<(int, int)>)

  /** A keyed UPDATE: a key that matches no row changes nothing. */
  function UpdateRow(t: Tables, k: Key, q: Query): Tables {
    if k in t.rows then t.(rows := t.rows[k := Change(t.rows[k], q)]) else t
  }

  /** What one committed batch leaves behind: every member's row, one submission, one
      link per member. */
  function Recorded(t: Tables, members: seq<Packet>, q: Query, s: Submission): Tables {
    if members == [] then t
    else
      var id := |t.submissions| + 1;
      Linked(Updated(t, members, q).(submissions := t.submissions + [s]), members, id)
  }

  function Updated(t: Tables, members: seq<Packet>, q: Query): Tables {
    if members == [] then t
    else UpdateRow(Updated(t, members[..|members| - 1], q), members[|members| - 1].key, q)
  }

  function Linked(t: Tables, members: seq<Packet>, id: int): Tables {
    if members == [] then t
    else
      var before := Linked(t, members[..|members| - 1], id);
      before.(links := before.links + {(members[|members| - 1].id, id)})
  }

  ghost predicate DistinctKeys(members: seq<Packet>) {
    forall i, j :: 0 <= i < j < |members| ==> members[i].key != members[j].key
  }

  predicate HasKey(members: seq<Packet>, k: Key) {
    exists i :: 0 <= i < |members| && members[i].key == k
  }

  lemma {:induction false} UpdatedFrame(t: Tables, members: seq<Packet>, q: Query)
    ensures var u := Updated(t, members, q);
            u.rows.Keys == t.rows.Keys && u.submissions == t.submissions && u.links == t.links
  {
    hide Change;
    if members != [] {
      UpdatedFrame(t, members[..|members| - 1], q);
    }
  }

  lemma {:induction false} UpdatedAt(t: Tables, members: seq<Packet>, q: Query, k: Key)
    requires DistinctKeys(members) && k in t.rows
    ensures k in Updated(t, members, q).rows
    ensures Updated(t, members, q).rows[k] == if HasKey(members, k) then Change(t.rows[k], q) else t.rows[k]
  {
    hide Change;
    UpdatedFrame(t, members, q);
    if members != [] {
      var n := |members| - 1;
      var front := members[..n];
      UpdatedAt(t, front, q, k);
      if members[n].key == k {
        assert !HasKey(front, k);
      } else if HasKey(members, k) {
        var i :| 0 <= i < |members| && members[i].key == k;
        assert front[i].key == k;
      }
    }
  }

  lemma {:induction false} LinkedLinks(t: Tables, members: seq<Packet>, id: int)
    ensures var u := Linked(t, members, id);
            && u.rows == t.rows && u.submissions == t.submissions
            && (forall l :: l in u.links <==>
                  l in t.links || (exists i :: 0 <= i < |members| && l == (members[i].id, id)))
  {
    if members != [] {
      var front := members[..|members| - 1];
      LinkedLinks(t, front, id);
      assert forall i :: 0 <= i < |front| ==> front[i] == members[i];
    }
  }

  /** A recorded batch changes exactly its members' rows, adds exactly one submission, and
      links exactly its members to it. */
  lemma RecordedExactly(t: Tables, members: seq<Packet>, q: Query, s: Submission)
    requires members != [] && DistinctKeys(members)
    ensures var u := Recorded(t, members, q, s);
            && u.rows.Keys == t.rows.Keys
            && (forall k :: k in t.rows ==>
                  u.rows[k] == if HasKey(members, k) then Change(t.rows[k], q) else t.rows[k])
            && u.submissions == t.submissions + [s]
            && (forall l :: l in u.links <==>
                  l in t.links || (exists i :: 0 <= i < |members| && l == (members[i].id, |t.submissions| + 1)))
  {
    hide Change, HasKey, Linked, Updated;
    var v := Updated(t, members, q);
    UpdatedFrame(t, members, q);
    forall k | k in t.rows
      ensures v.rows[k] == if HasKey(members, k) then Change(t.rows[k], q) else t.rows[k]
    {
      UpdatedAt(t, members, q, k);
    }
    LinkedLinks(v.(submissions := t.submissions + [s]), members, |t.submissions| + 1);
  }

  // ----- the audit trail over any run of statements -----

  /** What becomes of a submission: it expired, or the chain says how it ended. */
  datatype Settlement = Expiry | Ended(success: bool, gas: int)

  /** The two updates of a submission: only the first looks at the old status. */
  function Settle(s: Submission, x: Settlement): Submission {
    match x
    case Expiry => if s.status.TxPending? then s.(status := TxExpired) else s
    case Ended(success, gas) => s.(status := if success then TxSuccess else TxFailed, gas := Some(gas))
  }

  /** Expiring touches a pending submission only; resolving overwrites whatever is there. */
  lemma SettleLaw(s: Submission, x: Settlement)
    ensures x.Expiry? ==> Settle(s, x) == if s.status == TxPending then s.(status := TxExpired) else s
    ensures x.Ended? ==> Settle(s, x) == s.(status := if x.success then TxSuccess else TxFailed, gas := Some(x.gas))
  {
  }

  datatype Statement =
    | Update(key: Key, q: Query, w: Write)
    | Record(members: seq<Packet>, q: Query, submission: Submission, w: Write)
    | SettleRow(row: nat, x: Settlement, w: Write)

  function Perform(t: Tables, s: Statement): Tables {
    if s.w.Refused? then t
    else match s
      case Update(k, q, _) => UpdateRow(t, k, q)
      case Record(ms, q, sub, _) => Recorded(t, ms, q, sub)
      case SettleRow(i, x, _) =>
        if i < |t.submissions| then t.(submissions := t.submissions[i := Settle(t.submissions[i], x)]) else t
  }

  function PerformAll(t: Tables, ss: seq<Statement>): Tables
    decreases |ss|
  {
    if ss == [] then t else PerformAll(Perform(t, ss[0]), ss[1..])
  }

  ghost predicate DistinctBatches(ss: seq<Statement>) {
    forall i :: 0 <= i < |ss| && ss[i].Record? ==> DistinctKeys(ss[i].members)
  }

  /** The audit trail of `t` is still there in `u`: every submission in its place, with the
      same transaction, chain, kind and time, and every link. */
  ghost predicate TrailKept(t: Tables, u: Tables) {
    && |t.submissions| <= |u.submissions|
    && (forall i :: 0 <= i < |t.submissions| ==>
          u.submissions[i] == t.submissions[i].(status := u.submissions[i].status, gas := u.submissions[i].gas))
    && t.links <= u.links
  }

  lemma PerformKeepsTrail(t: Tables, s: Statement)
    requires s.Record? ==> DistinctKeys(s.members)
    ensures TrailKept(t, Perform(t, s)) && Perform(t, s).rows.Keys == t.rows.Keys
  {
    hide Recorded, Change;
    if s.Record? {
      if s.members == [] { NothingRecorded(t, s.q, s.submission); } else { RecordedExactly(t, s.members, s.q, s.submission); }
    }
  }

  lemma NothingRecorded(t: Tables, q: Query, s: Submission)
    ensures Recorded(t, [], q, s) == t
  {
  }

  /** No later statement, clears and the tracker's updates included, removes a submission, a
      link or a row, or changes which transaction a submission is about. */
  lemma {:induction false} TrailIsKept(t: Tables, ss: seq<Statement>)
    requires DistinctBatches(ss)
    ensures TrailKept(t, PerformAll(t, ss)) && PerformAll(t, ss).rows.Keys == t.rows.Keys
    decreases |ss|
  {
    hide Perform;
    if ss != [] {
      PerformKeepsTrail(t, ss[0]);
      TrailIsKept(Perform(t, ss[0]), ss[1..]);
    }
  }

  // ----- the database object -----

  /** How a database transaction goes: the statement that fails, if one is reached, and the commit. */
  datatype Transaction = Transaction(begins: bool, failAt: nat, commit: Write)

  /** The transaction reaches its commit: it begins, no statement fails, every member has an id. */
  ghost predicate Commits(members: seq<Packet>, env: Transaction) {
    && env.begins
    && (members == [] || env.failAt > 2 * |members|)
    && (forall i :: 0 <= i < |members| ==> members[i].id != 0)
  }

  /** The statement at which the transaction ends, spelled out. */
  lemma FailsOrCommits(members: seq<Packet>, env: Transaction)
    ensures Commits(members, env) <==>
              env.begins && (members == [] || (env.failAt >= 2 * |members| + 1 && forall i :: 0 <= i < |members| ==> members[i].id != 0))
  {
  }

  lemma NothingUpdated(t: Tables, q: Query)
    ensures Updated(t, [], q) == t
  {
  }

  /** The updates of the members' rows, until one fails. */
  method UpdateMembers(t: Tables, members: seq<Packet>, q: Query, failAt: nat) returns (ok: bool, work: Tables)
    ensures ok <==> failAt >= |members|
    ensures ok ==> work == Updated(t, members, q)
  {
    hide UpdateRow;
    work := t;
    for i := 0 to |members|
      invariant work == Updated(t, members[..i], q) && failAt >= i
    {
      if failAt == i { return false, work; }
      work := UpdateRow(work, members[i].key, q);
      assert members[..i + 1][..i] == members[..i];
    }
    assert members[..|members|] == members;
    ok := true;
  }

  /** One link per member, until one fails; a member without a database id does. */
  method LinkMembers(t: Tables, members: seq<Packet>, id: int, base: nat, failAt: nat) returns (ok: bool, work: Tables)
    requires failAt >= base
    ensures ok <==> failAt >= base + |members| && forall i :: 0 <= i < |members| ==> members[i].id != 0
    ensures ok ==> work == Linked(t, members, id)
  {
    work := t;
    for i := 0 to |members|
      invariant work == Linked(t, members[..i], id) && failAt >= base + i
      invariant forall j :: 0 <= j < i ==> members[j].id != 0
    {
      if members[i].id == 0 || failAt == base + i { return false, work; }
      work := work.(links := work.links + {(members[i].id, id)});
      assert members[..i + 1][..i] == members[..i];
    }
    assert members[..|members|] == members;
    ok := true;
  }

  class Database {
    var tables: Tables

    constructor (t: Tables)
      ensures tables == t
    {
      tables := t;
    }

    /** One statement outside a transaction. */
    method Exec(k: Key, q: Query, w: Write) returns (ok: bool)
      modifies this
      ensures tables == Perform(old(tables), Update(k, q, w))
      ensures ok <==> w.Stored?
    {
      if !w.Refused? && k in tables.rows {
        tables := tables.(rows := tables.rows[k := Change(tables.rows[k], q)]);
      }
      ok := w.Stored?;
    }

    /** One update of a submission by its id, which is its place in the table. */
    method ExecSettle(row: nat, x: Settlement, w: Write) returns (ok: bool)
      modifies this
      ensures tables == Perform(old(tables), SettleRow(row, x, w))
      ensures ok <==> w.Stored?
    {
      if !w.Refused? && row < |tables.submissions| {
        tables := tables.(submissions := tables.submissions[row := Settle(tables.submissions[row], x)]);
      }
      ok := w.Stored?;
    }

    /** The transaction that records a batch: it works on its own copy of the tables and
        publishes it only at the commit.  A member without a database id aborts it. */
    method ExecTx(members: seq<Packet>, q: Query, s: Submission, env: Transaction) returns (w: Write)
      modifies this
      ensures tables == Perform(old(tables), Record(members, q, s, w))
      ensures w == if Commits(members, env) then env.commit else Refused
    {
      hide Updated, Linked, Commits;
      FailsOrCommits(members, env);
      NothingUpdated(tables, q);
      if !env.begins { return Refused; }
      var ok, work := UpdateMembers(tables, members, q, env.failAt);
      if !ok { return Refused; }
      if |members| > 0 {
        if env.failAt == |members| { return Refused; }
        UpdatedFrame(tables, members, q);
        var id := |work.submissions| + 1;
        work := work.(submissions := work.submissions + [s]);
        ok, work := LinkMembers(work, members, id, |members| + 1, env.failAt);
        if !ok { return Refused; }
      }
      if !env.commit.Refused? {
        tables := work;
      }
      return env.commit;
    }
  }
}
