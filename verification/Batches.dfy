/** The batch stages: the proof request, the delivered transaction, its database
    transaction, and the batch middleware that partitions a batch. */
module Batches {
  import opened Wrappers
  import opened Transfers
  import opened Stages
  import opened Store
  import opened Processors
  import opened Hex

  // ----- the hash strings that go into a proof request -----

  /** The transaction a member of the batch is proved from. */
  function HashOf(st: Stage, p: Packet, d: Row): Option<string> {
    if st.BatchAck? then d.writeAckHash else Some(p.sourceTx)
  }

  predicate Usable(h: Option<string>) {
    h.Some? && DecodeHex(h.value).Some?
  }

  function DeliveryQuery(st: Stage, tx: Tx): Query {
    if st.BatchRecv? then SetRecv(tx) else if st.BatchAck? then SetAck(tx) else SetTimeout(tx)
  }

  function TypeOf(st: Stage): TxType {
    if st.BatchRecv? then RecvPacket else if st.BatchAck? then AckPacket else TimeoutPacket
  }

  // ----- the members of a batch: its transfers without an error -----

  ghost predicate Distinct(ts: seq<Transfer>) {
    forall i, j :: 0 <= i < j < |ts| ==> ts[i].packet.key != ts[j].packet.key
  }

  /** The packets whose hash is usable, in order. */
  function Members(hs: seq<Option<string>>, ps: seq<Packet>): seq<Packet>
    requires |hs| == |ps|
  {
    if hs == [] then []
    else
      var n := |hs| - 1;
      Members(hs[..n], ps[..n]) + (if Usable(hs[n]) then [ps[n]] else [])
  }

  function Numbers(ps: seq<Packet>): seq<nat> {
    if ps == [] then [] else Numbers(ps[..|ps| - 1]) + [ps[|ps| - 1].key.sequence]
  }

  lemma MembersNext(hs: seq<Option<string>>, ps: seq<Packet>, i: nat)
    requires i < |hs| == |ps|
    ensures Members(hs[..i + 1], ps[..i + 1])
         == Members(hs[..i], ps[..i]) + (if Usable(hs[i]) then [ps[i]] else [])
  {
    assert hs[..i + 1][..i] == hs[..i] && ps[..i + 1][..i] == ps[..i];
  }

  lemma NumbersNext(ps: seq<Packet>, p: Packet)
    ensures Numbers(ps + [p]) == Numbers(ps) + [p.key.sequence]
  {
    assert (ps + [p])[..|ps|] == ps;
  }

  lemma {:induction false} MembersIn(hs: seq<Option<string>>, ps: seq<Packet>, p: Packet)
    requires |hs| == |ps|
    ensures p in Members(hs, ps) <==> exists i :: 0 <= i < |ps| && ps[i] == p && Usable(hs[i])
  {
    hide Usable;
    if hs != [] {
      var n := |hs| - 1;
      MembersIn(hs[..n], ps[..n], p);
      if i :| 0 <= i < |ps| && ps[i] == p && Usable(hs[i]) {
        if i < n {
          assert ps[..n][i] == p && Usable(hs[..n][i]);
        }
      }
    }
  }

  /** The members are distinct packets of the batch. */
  lemma {:induction false} MembersDistinct(hs: seq<Option<string>>, ps: seq<Packet>)
    requires |hs| == |ps| && DistinctKeys(ps)
    ensures DistinctKeys(Members(hs, ps))
  {
    hide Usable;
    if hs != [] {
      var n := |hs| - 1;
      var ms := Members(hs[..n], ps[..n]);
      MembersDistinct(hs[..n], ps[..n]);
      forall k | 0 <= k < |ms|
        ensures ms[k].key != ps[n].key
      {
        MembersIn(hs[..n], ps[..n], ms[k]);
      }
    }
  }

  /** What the request asks to prove: the transactions `ids`, decoded from the pairwise
      distinct strings `hashes`, cover every usable hash of the batch and nothing else. */
  ghost predicate Covers(hs: seq<Option<string>>, hashes: seq<string>, ids: seq<seq<nat>>) {
    && |ids| == |hashes|
    && (forall k :: 0 <= k < |ids| ==> DecodeHex(hashes[k]) == Some(ids[k]))
    && (forall j, k :: 0 <= j < k < |hashes| ==> hashes[j] != hashes[k])
    && (forall i :: 0 <= i < |hs| && Usable(hs[i]) ==> hs[i].value in hashes)
    && (forall k :: 0 <= k < |hashes| ==> Some(hashes[k]) in hs)
  }

  lemma NothingCovered()
    ensures Covers([], [], []) && Members([], []) == [] && Numbers([]) == []
  {
  }

  lemma CoveredIsUsable(hs: seq<Option<string>>, h: string, hashes: seq<string>, ids: seq<seq<nat>>)
    requires Covers(hs, hashes, ids) && h in hashes
    ensures Usable(Some(h))
  {
  }

  lemma CoverSeen(hs: seq<Option<string>>, h: Option<string>, hashes: seq<string>, ids: seq<seq<nat>>)
    requires Covers(hs, hashes, ids) && (Usable(h) ==> h.value in hashes)
    ensures Covers(hs + [h], hashes, ids)
  {
    hide DecodeHex;
  }

  lemma CoverNew(hs: seq<Option<string>>, h: string, hashes: seq<string>, ids: seq<seq<nat>>)
    requires Covers(hs, hashes, ids) && h !in hashes && DecodeHex(h).Some?
    ensures Covers(hs + [Some(h)], hashes + [h], ids + [DecodeHex(h).value])
  {
    hide DecodeHex;
    assert Some(h) in hs + [Some(h)] by { assert (hs + [Some(h)])[|hs|] == Some(h); }
  }

  function HashesOf(st: Stage, ts: seq<Transfer>): (hs: seq<Option<string>>)
    reads ts
    ensures |hs| == |ts|
    ensures forall i :: 0 <= i < |ts| ==> hs[i] == HashOf(st, ts[i].packet, ts[i].Data())
  {
    if ts == [] then []
    else
      var last := ts[|ts| - 1];
      HashesOf(st, ts[..|ts| - 1]) + [HashOf(st, last.packet, last.Data())]
  }

  function PacketsOf(ts: seq<Transfer>): (ps: seq<Packet>)
    ensures |ps| == |ts| && forall i :: 0 <= i < |ts| ==> ps[i] == ts[i].packet
  {
    if ts == [] then [] else PacketsOf(ts[..|ts| - 1]) + [ts[|ts| - 1].packet]
  }

  /** The request, over the transfers' own fields: an ack batch is proved from the write-ack
      transactions, a recv or timeout batch from the source transactions.  Exactly the transfers
      whose hash is there and is valid hex are left unmarked, and `hashes` are exactly theirs. */
  ghost predicate ProvedFrom(st: Stage, ts: seq<Transfer>, hashes: seq<string>)
    reads ts
  {
    if st.BatchAck? then
      && (forall i :: 0 <= i < |ts| ==>
            (!ts[i].processingError <==> ts[i].writeAckTxHash.Some? && DecodeHex(ts[i].writeAckTxHash.value).Some?))
      && (forall i :: 0 <= i < |ts| && !ts[i].processingError ==> ts[i].writeAckTxHash.value in hashes)
      && (forall h :: h in hashes ==> exists i :: 0 <= i < |ts| && ts[i].writeAckTxHash == Some(h))
    else
      && (forall i :: 0 <= i < |ts| ==> (!ts[i].processingError <==> DecodeHex(ts[i].packet.sourceTx).Some?))
      && (forall i :: 0 <= i < |ts| && !ts[i].processingError ==> ts[i].packet.sourceTx in hashes)
      && (forall h :: h in hashes ==> exists i :: 0 <= i < |ts| && ts[i].packet.sourceTx == h)
  }

  lemma CoverIsProof(st: Stage, ts: seq<Transfer>, hs: seq<Option<string>>, hashes: seq<string>, ids: seq<seq<nat>>)
    requires |hs| == |ts| && Covers(hs, hashes, ids)
    requires forall i :: 0 <= i < |ts| ==>
               hs[i] == HashOf(st, ts[i].packet, ts[i].Data()) && ts[i].processingError == !Usable(hs[i])
    ensures ProvedFrom(st, ts, hashes)
  {
    hide DecodeHex;
    forall h | h in hashes
      ensures exists i :: 0 <= i < |ts| && HashOf(st, ts[i].packet, ts[i].Data()) == Some(h)
    {
      var k :| 0 <= k < |hashes| && hashes[k] == h;
      var i :| 0 <= i < |hs| && hs[i] == Some(h);
    }
  }

  /** Collect transaction ids and packet sequences: one sequence per transfer without an
      error, in order.  A transfer whose hash is not valid hex is marked and left out. */
  method Collect(st: Stage, ts: seq<Transfer>)
    returns (ids: seq<seq<nat>>, sequences: seq<nat>, members: seq<Packet>, ghost hashes: seq<string>)
    requires Distinct(ts) && forall i :: 0 <= i < |ts| ==> !ts[i].processingError
    modifies ts`processingError
    ensures var hs := old(HashesOf(st, ts));
            && (forall i :: 0 <= i < |ts| ==> ts[i].processingError == !Usable(hs[i]))
            && members == Members(hs, PacketsOf(ts)) && sequences == Numbers(members)
            && Covers(hs, hashes, ids)
            && (forall i :: 0 <= i < |ts| ==> hs[i] == HashOf(st, ts[i].packet, ts[i].Data()))
  {
    hide HashOf, DecodeHex, Members, Numbers, Covers;
    ghost var hs, ps := HashesOf(st, ts), PacketsOf(ts);
    ids, sequences, members, hashes := [], [], [], [];
    var txSet: set<string> := {};
    NothingCovered();
    for i := 0 to |ts|
      invariant forall j :: 0 <= j < |ts| ==> ts[j].processingError == (j < i && !Usable(hs[j]))
      invariant members == Members(hs[..i], ps[..i]) && sequences == Numbers(members)
      invariant Covers(hs[..i], hashes, ids)
      invariant forall h :: h in txSet <==> h in hashes
    {
      var t := ts[i];
      MembersNext(hs, ps, i);
      NumbersNext(members, t.packet);
      assert hs[..i + 1] == hs[..i] + [hs[i]];
      var hash := HashOf(st, t.packet, t.Data());
      assert hash == hs[i];
      if hash.None? {
        t.processingError := true;
        CoverSeen(hs[..i], hash, hashes, ids);
      } else if hash.value in txSet {
        CoveredIsUsable(hs[..i], hash.value, hashes, ids);
        sequences, members := sequences + [t.packet.key.sequence], members + [t.packet];
        CoverSeen(hs[..i], hash, hashes, ids);
      } else {
        var id := DecodeHex(hash.value);
        if id.None? {
          t.processingError := true;
          CoverSeen(hs[..i], hash, hashes, ids);
        } else {
          CoverNew(hs[..i], hash.value, hashes, ids);
          ids, hashes := ids + [id.value], hashes + [hash.value];
          sequences, members := sequences + [t.packet.key.sequence], members + [t.packet];
          txSet := txSet + {hash.value};
        }
      }
    }
    assert ps[..|ts|] == ps && hs[..|ts|] == hs;
  }

  /** The request a batch is proved with. */
  method BuildRequest(st: Stage, ts: seq<Transfer>)
    returns (ids: seq<seq<nat>>, sequences: seq<nat>, members: seq<Packet>, ghost hashes: seq<string>)
    requires Distinct(ts) && forall i :: 0 <= i < |ts| ==> !ts[i].processingError
    modifies ts`processingError
    ensures var hs := old(HashesOf(st, ts));
            && (forall i :: 0 <= i < |ts| ==> ts[i].processingError == !Usable(hs[i]))
            && members == Members(hs, PacketsOf(ts)) && sequences == Numbers(members)
            && Covers(hs, hashes, ids)
    ensures ProvedFrom(st, ts, hashes)
  {
    hide HashOf, DecodeHex, Members, Numbers, Covers, HashesOf, ProvedFrom;
    ghost var hs := HashesOf(st, ts);
    ids, sequences, members, hashes := Collect(st, ts);
    CoverIsProof(st, ts, hs, hashes, ids);
  }

  // ----- delivering a batch -----

  /** What the proof service is asked for: transactions and packet sequences. */
  datatype Request = Request(ids: seq<seq<nat>>, sequences: seq<nat>)

  /** What the outside world answers while one batch is delivered. */
  datatype BatchReply = BatchReply(
    chain: string,                // where the transaction goes
    proof: bool,                  // the proof service and the chain were ready
    deliver: Answer<Tx>,
    env: Transaction)

  /** One member's view of the batch: its hash must be usable, the transaction sent, and
      the shared database transaction committed. */
  function Delivered(st: Stage, x: Image, usable: bool, sent: Answer<Tx>, w: Write): Image {
    if !usable || sent.NoAnswer? then Stop(x) else Save(x, DeliveryQuery(st, sent.value), w)
  }

  function SubmissionOf(st: Stage, tx: Tx, chain: string): Submission {
    Submission(tx.hash, chain, TypeOf(st), tx.time, TxPending, None)
  }

  /** The tables after a batch: all members recorded or none. */
  function BatchTables(t: Tables, st: Stage, members: seq<Packet>, chain: string, sent: Answer<Tx>, w: Write): Tables {
    if sent.NoAnswer? then t
    else Perform(t, Record(members, DeliveryQuery(st, sent.value), SubmissionOf(st, sent.value, chain), w))
  }

  /** The transaction that goes out: the proof service and the chain decide. */
  function SentOf(r: BatchReply): Answer<Tx> {
    if r.proof then r.deliver else NoAnswer
  }

  /** How recording it ends: its database transaction gets to the commit or not. */
  ghost function CommitOf(members: seq<Packet>, r: BatchReply): Write {
    if SentOf(r).Got? && Commits(members, r.env) then r.env.commit else Refused
  }

  /** A pending submission of this transaction on this chain, of the stage's kind. */
  predicate IsSubmission(s: Submission, st: Stage, tx: Tx, chain: string) {
    && s.txHash == tx.hash && s.chain == chain && s.submittedAt == tx.time && s.status.TxPending? && s.gas.None?
    && (st.BatchRecv? ==> s.kind.RecvPacket?) && (st.BatchAck? ==> s.kind.AckPacket?)
    && (st.BatchTimeout? ==> s.kind.TimeoutPacket?)
  }

  lemma SubmissionIs(st: Stage, tx: Tx, chain: string)
    ensures IsSubmission(SubmissionOf(st, tx, chain), st, tx, chain)
  {
  }

  /** The audit trail after a batch: one submission, linked to exactly the members, or nothing. */
  ghost predicate Trailed(before: Tables, after: Tables, st: Stage, members: seq<Packet>, chain: string, sent: Answer<Tx>, w: Write) {
    if sent.NoAnswer? || w.Refused? || members == []
    then after.submissions == before.submissions && after.links == before.links
    else
      && |after.submissions| == |before.submissions| + 1 && before.submissions <= after.submissions
      && IsSubmission(after.submissions[|before.submissions|], st, sent.value, chain)
      && (forall l :: l in after.links <==>
            l in before.links || exists i :: 0 <= i < |members| && l == (members[i].id, |before.submissions| + 1))
  }

  lemma BatchTrailed(t: Tables, st: Stage, members: seq<Packet>, chain: string, sent: Answer<Tx>, w: Write)
    requires DistinctKeys(members)
    ensures Trailed(t, BatchTables(t, st, members, chain, sent, w), st, members, chain, sent, w)
  {
    hide DeliveryQuery, SubmissionOf, HasKey, Recorded, IsSubmission;
    if sent.Got? && !w.Refused? {
      var q, s := DeliveryQuery(st, sent.value), SubmissionOf(st, sent.value, chain);
      SubmissionIs(st, sent.value, chain);
      if members == [] { NothingRecorded(t, q, s); } else { RecordedExactly(t, members, q, s); }
    }
  }

  lemma MemberKeys(hs: seq<Option<string>>, ps: seq<Packet>, k: Key)
    requires |hs| == |ps|
    ensures HasKey(Members(hs, ps), k) <==> exists i :: 0 <= i < |ps| && ps[i].key == k && Usable(hs[i])
  {
    hide Usable, Members;
    var ms := Members(hs, ps);
    if HasKey(ms, k) {
      var j :| 0 <= j < |ms| && ms[j].key == k;
      MembersIn(hs, ps, ms[j]);
    }
    if i :| 0 <= i < |ps| && ps[i].key == k && Usable(hs[i]) {
      MembersIn(hs, ps, ps[i]);
      var j :| 0 <= j < |ms| && ms[j] == ps[i];
    }
  }

  /** The row of each transfer of the batch after it: its own view of the shared outcome. */
  lemma BatchRow(t: Tables, st: Stage, hs: seq<Option<string>>, ps: seq<Packet>, chain: string, sent: Answer<Tx>, w: Write, k: Key)
    requires |hs| == |ps| && DistinctKeys(ps)
    ensures var u := BatchTables(t, st, Members(hs, ps), chain, sent, w);
            && u.rows.Keys == t.rows.Keys
            && (k in t.rows ==>
                  u.rows[k] ==
                    if sent.Got? && exists i :: 0 <= i < |ps| && ps[i].key == k && Usable(hs[i])
                    then After(t.rows[k], DeliveryQuery(st, sent.value), w)
                    else t.rows[k])
  {
    hide Usable, Change, DeliveryQuery, Members, Recorded;
    MemberKeys(hs, ps, k);
    var ms := Members(hs, ps);
    if sent.Got? && !w.Refused? {
      var q, s := DeliveryQuery(st, sent.value), SubmissionOf(st, sent.value, chain);
      MembersDistinct(hs, ps);
      if ms != [] {
        RecordedExactly(t, ms, q, s);
      } else {
        NothingRecorded(t, q, s);
      }
    }
  }

  /** A transfer of the batch finds its own view of the outcome in its row. */
  lemma BatchRowOf(t: Tables, st: Stage, hs: seq<Option<string>>, ps: seq<Packet>, chain: string, sent: Answer<Tx>, w: Write, i: nat)
    requires i < |hs| == |ps| && DistinctKeys(ps) && ps[i].key in t.rows
    ensures var u, k := BatchTables(t, st, Members(hs, ps), chain, sent, w), ps[i].key;
            k in u.rows
            && u.rows[k] == if sent.Got? && Usable(hs[i]) then After(t.rows[k], DeliveryQuery(st, sent.value), w)
                            else t.rows[k]
  {
    hide Usable, After, DeliveryQuery, Members, BatchTables;
    BatchRow(t, st, hs, ps, chain, sent, w, ps[i].key);
  }

  lemma BatchOthers(t: Tables, st: Stage, hs: seq<Option<string>>, ps: seq<Packet>, chain: string, sent: Answer<Tx>, w: Write)
    requires |hs| == |ps| && DistinctKeys(ps)
    ensures var u := BatchTables(t, st, Members(hs, ps), chain, sent, w);
            && u.rows.Keys == t.rows.Keys
            && (forall k :: k in t.rows && !HasKey(ps, k) ==> u.rows[k] == t.rows[k])
  {
    hide Usable, After, DeliveryQuery, Members, BatchTables;
    BatchRow(t, st, hs, ps, chain, sent, w, Key("", "", 0));
    forall k | k in t.rows && !HasKey(ps, k)
      ensures BatchTables(t, st, Members(hs, ps), chain, sent, w).rows[k] == t.rows[k]
    {
      BatchRow(t, st, hs, ps, chain, sent, w, k);
    }
  }

  /** Give every transfer without an error the delivered transaction. */
  method AssignAll(ts: seq<Transfer>, q: Query)
    requires Distinct(ts)
    modifies ts
    ensures forall i :: 0 <= i < |ts| ==>
              && ts[i].processingError == old(ts[i].processingError)
              && ts[i].Data() == if ts[i].processingError then old(ts[i].Data()) else Change(old(ts[i].Data()), q)
  {
    hide Change, Transfer.Data;
    for i := 0 to |ts|
      invariant forall j :: 0 <= j < |ts| ==>
                  && ts[j].processingError == old(ts[j].processingError)
                  && ts[j].Data() == if j >= i || ts[j].processingError then old(ts[j].Data())
                                     else Change(old(ts[j].Data()), q)
    {
      if !ts[i].processingError {
        ts[i].Assign(q);
      }
    }
  }

  /** Build the request, deliver one transaction for all members, and record it for all of
      them or for none. */
  method DeliverBatch(st: Stage, ts: seq<Transfer>, db: Database, r: BatchReply)
    returns (err: bool, sent: Answer<Tx>, w: Write, request: Request, ghost hashes: seq<string>)
    requires Distinct(ts) && forall i :: 0 <= i < |ts| ==> !ts[i].processingError
    modifies ts, db
    ensures err <==> sent.NoAnswer? || !w.Stored?
    ensures sent == SentOf(r) && w == CommitOf(Members(old(HashesOf(st, ts)), PacketsOf(ts)), r)
    ensures var hs := old(HashesOf(st, ts));
            Covers(hs, hashes, request.ids) && request.sequences == Numbers(Members(hs, PacketsOf(ts)))
    ensures var hs := old(HashesOf(st, ts));
            && db.tables == BatchTables(old(db.tables), st, Members(hs, PacketsOf(ts)), r.chain, sent, w)
            && (forall i :: 0 <= i < |ts| ==>
                  && ts[i].processingError == !Usable(hs[i])
                  && ts[i].Data() == if !err && Usable(hs[i]) then Change(old(ts[i].Data()), DeliveryQuery(st, sent.value))
                                     else old(ts[i].Data()))
  {
    hide HashesOf, Members, Usable, Change, DeliveryQuery, Covers, Numbers, ProvedFrom;
    var ids, sequences, members;
    ids, sequences, members, hashes := BuildRequest(st, ts);
    request := Request(ids, sequences);
    if !r.proof || r.deliver.NoAnswer? {
      return true, NoAnswer, Refused, request, hashes;
    }
    sent := r.deliver;
    w := db.ExecTx(members, DeliveryQuery(st, sent.value), SubmissionOf(st, sent.value, r.chain), r.env);
    if !w.Stored? {
      return true, sent, w, request, hashes;
    }
    AssignAll(ts, DeliveryQuery(st, sent.value));
    return false, sent, w, request, hashes;
  }

  // ----- the batch middleware -----

  predicate Lets(cfg: Config, p: Packet, st: Stage, c: Copy, now: Time) {
    !c.failed && !c.data.status.Failed? && ShouldProcess(cfg, p, st, c.data, now)
  }

  /** A transfer after the middleware looked at it: unchanged, or showing the stage's status. */
  function Entered(cfg: Config, p: Packet, st: Stage, x: Image, r: Reply): Image {
    if Lets(cfg, p, st, x.copy, r.later) then Save(x, SetStatus(StatusOf(st)), r.stateWrite) else x
  }

  predicate Takes(cfg: Config, p: Packet, st: Stage, x: Image, r: Reply) {
    Lets(cfg, p, st, x.copy, r.later) && r.stateWrite.Stored?
  }

  /** The rows of other transfers are as before. */
  ghost predicate OtherRows(before: Tables, after: Tables, ts: seq<Transfer>) {
    && after.rows.Keys == before.rows.Keys
    && (forall k :: k in before.rows && !HasKey(PacketsOf(ts), k) ==> after.rows[k] == before.rows[k])
  }

  ghost predicate InTables(ts: seq<Transfer>, db: Database)
    reads db
  {
    forall i :: 0 <= i < |ts| ==> ts[i].packet.key in db.tables.rows
  }

  /** The items whose flag is `want`, in order. */
  function Pick<T>(s: seq<T>, flags: seq<bool>, want: bool): seq<T>
    requires |s| == |flags|
  {
    if s == [] then []
    else
      var n := |s| - 1;
      Pick(s[..n], flags[..n], want) + (if flags[n] == want then [s[n]] else [])
  }

  lemma PickNext<T>(s: seq<T>, flags: seq<bool>, flag: bool, want: bool)
    requires |flags| < |s|
    ensures Pick(s[..|flags| + 1], flags + [flag], want)
         == Pick(s[..|flags|], flags, want) + (if flag == want then [s[|flags|]] else [])
  {
    var n := |flags|;
    assert s[..n + 1][..n] == s[..n] && (flags + [flag])[..n] == flags;
  }

  /** Splitting a batch by a flag loses and repeats nothing. */
  lemma {:induction false} PickConserves<T>(s: seq<T>, flags: seq<bool>)
    requires |s| == |flags|
    ensures multiset(Pick(s, flags, true)) + multiset(Pick(s, flags, false)) == multiset(s)
  {
    if s != [] {
      var n := |s| - 1;
      PickConserves(s[..n], flags[..n]);
      assert s == s[..n] + [s[n]];
    }
  }

  lemma {:induction false} PickAre<T>(s: seq<T>, flags: seq<bool>, want: bool) returns (picks: seq<nat>)
    requires |s| == |flags|
    ensures |picks| == |Pick(s, flags, want)|
    ensures forall k :: 0 <= k < |picks| ==> picks[k] < |s| && flags[picks[k]] == want && Pick(s, flags, want)[k] == s[picks[k]]
    ensures forall j, k :: 0 <= j < k < |picks| ==> picks[j] < picks[k]
    ensures forall i :: 0 <= i < |s| && flags[i] == want ==> i in picks
  {
    picks := [];
    if s != [] {
      var n := |s| - 1;
      picks := PickAre(s[..n], flags[..n], want);
      if flags[n] == want {
        picks := picks + [n];
      }
    }
  }

  /** Decide about one transfer of the batch; if it is taken, its status is written first. */
  method Admit(cfg: Config, st: Stage, t: Transfer, db: Database, r: Reply) returns (taken: bool)
    requires t.packet.key in db.tables.rows
    modifies t, db
    ensures t.packet.key in db.tables.rows
    ensures ImageOf(t, db) == Entered(cfg, t.packet, st, old(ImageOf(t, db)), r)
    ensures taken <==> Takes(cfg, t.packet, st, old(ImageOf(t, db)), r)
    ensures OnlyRow(old(db.tables), db.tables, t.packet.key)
  {
    hide Change, StatusOf, ShouldProcess, Save, Transfer.Data;
    if t.processingError || t.state.Failed? { return false; }
    if !ShouldProcess(cfg, t.packet, st, t.Data(), r.later) { return false; }
    assert Lets(cfg, t.packet, st, old(t.Snapshot()), r.later);
    taken := EnterStage(st, t, db, r);
  }

  lemma HasOwnKey(ts: seq<Transfer>, i: nat)
    requires i < |ts|
    ensures HasKey(PacketsOf(ts), ts[i].packet.key)
  {
    assert PacketsOf(ts)[i] == ts[i].packet;
  }

  /** The same, seen from the whole batch: the other transfers and rows are as before. */
  method AdmitAt(cfg: Config, st: Stage, batch: seq<Transfer>, i: nat, db: Database, r: Reply) returns (taken: bool)
    requires i < |batch| && Distinct(batch) && InTables(batch, db)
    modifies batch[i], db
    ensures InTables(batch, db) && OtherRows(old(db.tables), db.tables, batch)
    ensures ImageOf(batch[i], db) == Entered(cfg, batch[i].packet, st, old(ImageOf(batch[i], db)), r)
    ensures taken <==> Takes(cfg, batch[i].packet, st, old(ImageOf(batch[i], db)), r)
    ensures forall j :: 0 <= j < |batch| && j != i ==> ImageOf(batch[j], db) == old(ImageOf(batch[j], db))
    ensures db.tables.submissions == old(db.tables.submissions) && db.tables.links == old(db.tables.links)
  {
    hide Entered, Takes, Transfer.Data, HasKey;
    HasOwnKey(batch, i);
    taken := Admit(cfg, st, batch[i], db, r);
  }

  /** Split the batch into the transfers the stage will work on and the others. */
  method Partition(cfg: Config, st: Stage, batch: seq<Transfer>, db: Database, rs: seq<Reply>)
    returns (toProcess: seq<Transfer>, notProcessing: seq<Transfer>, ghost flags: seq<bool>)
    requires Distinct(batch) && |rs| == |batch| && InTables(batch, db)
    modifies batch, db
    ensures InTables(batch, db) && |flags| == |batch|
    ensures forall i :: 0 <= i < |batch| ==>
              && ImageOf(batch[i], db) == Entered(cfg, batch[i].packet, st, old(ImageOf(batch[i], db)), rs[i])
              && flags[i] == Takes(cfg, batch[i].packet, st, old(ImageOf(batch[i], db)), rs[i])
    ensures OtherRows(old(db.tables), db.tables, batch)
    ensures db.tables.submissions == old(db.tables.submissions) && db.tables.links == old(db.tables.links)
    ensures toProcess == Pick(batch, flags, true) && notProcessing == Pick(batch, flags, false)
  {
    hide Entered, Takes, Transfer.Data, Pick, HasKey, ImageOf;
    toProcess, notProcessing, flags := [], [], [];
    PickNothing();
    for i := 0 to |batch|
      invariant InTables(batch, db) && |flags| == i
      invariant forall j :: 0 <= j < i ==>
                  && ImageOf(batch[j], db) == Entered(cfg, batch[j].packet, st, old(ImageOf(batch[j], db)), rs[j])
                  && flags[j] == Takes(cfg, batch[j].packet, st, old(ImageOf(batch[j], db)), rs[j])
      invariant forall j :: i <= j < |batch| ==> ImageOf(batch[j], db) == old(ImageOf(batch[j], db))
      invariant OtherRows(old(db.tables), db.tables, batch)
      invariant db.tables.submissions == old(db.tables.submissions) && db.tables.links == old(db.tables.links)
      invariant toProcess == Pick(batch[..i], flags, true) && notProcessing == Pick(batch[..i], flags, false)
    {
      var taken := AdmitAt(cfg, st, batch, i, db, rs[i]);
      PickNext(batch, flags, taken, true);
      PickNext(batch, flags, taken, false);
      if taken {
        toProcess := toProcess + [batch[i]];
      } else {
        notProcessing := notProcessing + [batch[i]];
      }
      flags := flags + [taken];
    }
    assert batch[..|batch|] == batch;
  }

  lemma PickNothing()
    ensures forall s: seq<Transfer>, want :: s == [] ==> Pick(s, [], want) == []
  {
  }

  method MarkAll(ts: seq<Transfer>)
    modifies ts`processingError
    ensures forall i :: 0 <= i < |ts| ==> ts[i].processingError && ts[i].Data() == old(ts[i].Data())
  {
    for i := 0 to |ts|
      invariant forall j :: 0 <= j < i ==> ts[j].processingError
    {
      ts[i].processingError := true;
    }
  }

  /** The stage's own batch work, with a returned error marked on every transfer: each
      transfer and its row are its own view of the shared outcome. */
  method WorkBatch(st: Stage, ts: seq<Transfer>, db: Database, r: BatchReply) returns (sent: Answer<Tx>, w: Write)
    requires Distinct(ts) && InTables(ts, db) && forall i :: 0 <= i < |ts| ==> !ts[i].processingError
    modifies ts, db
    ensures InTables(ts, db) && OtherRows(old(db.tables), db.tables, ts)
    ensures var ms := Members(old(HashesOf(st, ts)), PacketsOf(ts));
            sent == SentOf(r) && w == CommitOf(ms, r) && Trailed(old(db.tables), db.tables, st, ms, r.chain, sent, w)
    ensures forall i :: 0 <= i < |ts| ==>
              ImageOf(ts[i], db) ==
                Delivered(st, old(ImageOf(ts[i], db)), Usable(HashOf(st, ts[i].packet, old(ts[i].Data()))), sent, w)
  {
    hide Usable, Change, DeliveryQuery, HashOf, Members, Transfer.Data, HashesOf, BatchTables, Trailed, CommitOf, SentOf;
    ghost var hs, ps, before := HashesOf(st, ts), PacketsOf(ts), db.tables;
    var err;
    var request;
    ghost var hashes;
    err, sent, w, request, hashes := DeliverBatch(st, ts, db, r);
    if err {
      MarkAll(ts);
    }
    MembersDistinct(hs, ps);
    BatchTrailed(before, st, Members(hs, ps), r.chain, sent, w);
    BatchOthers(before, st, hs, ps, r.chain, sent, w);
    forall i | 0 <= i < |ts|
      ensures ImageOf(ts[i], db) == Delivered(st, old(ImageOf(ts[i], db)), Usable(hs[i]), sent, w)
    {
      BatchRowOf(before, st, hs, ps, r.chain, sent, w, i);
    }
  }

  /** The reply a transfer sees inside a batch: the hash test is its own, the delivered
      transaction and the commit are shared. */
  function Shared(st: Stage, p: Packet, d: Row, r: Reply, sent: Answer<Tx>, w: Write): Reply {
    r.(now := r.later, decodes := Usable(HashOf(st, p, d)), tx := sent, write := w)
  }

  lemma NotTaken(cfg: Config, p: Packet, st: Stage, x: Image, r: Reply, sent: Answer<Tx>, w: Write)
    requires IsBatch(st) && !Takes(cfg, p, st, x, r)
    ensures Process(cfg, p, st, x, Shared(st, p, x.copy.data, r, sent, w)) == Entered(cfg, p, st, x, r)
  {
    hide ShouldProcess, StatusOf, Usable;
  }

  lemma Taken(cfg: Config, p: Packet, st: Stage, x: Image, r: Reply, sent: Answer<Tx>, w: Write)
    requires IsBatch(st) && Takes(cfg, p, st, x, r)
    ensures var y := Entered(cfg, p, st, x, r);
            && !y.copy.failed
            && Process(cfg, p, st, x, Shared(st, p, x.copy.data, r, sent, w))
               == Delivered(st, y, Usable(HashOf(st, p, y.copy.data)), sent, w)
  {
    hide ShouldProcess, StatusOf, Save;
    SavedStatus(x, StatusOf(st));
  }

  lemma SavedStatus(x: Image, s: Status)
    requires !x.copy.failed
    ensures var y := Save(x, SetStatus(s), Stored);
            !y.copy.failed && y.copy.data == x.copy.data.(status := s)
  {
  }

  lemma PickedKeys(batch: seq<Transfer>, flags: seq<bool>)
    requires Distinct(batch) && |flags| == |batch|
    ensures var ts := Pick(batch, flags, true);
            && Distinct(ts)
            && (forall k :: 0 <= k < |ts| ==> ts[k] in batch)
            && (forall i :: 0 <= i < |batch| && flags[i] ==> batch[i] in ts)
            && (forall i :: 0 <= i < |batch| && !flags[i] ==> !HasKey(PacketsOf(ts), batch[i].packet.key))
            && (forall k :: HasKey(PacketsOf(ts), k) ==> HasKey(PacketsOf(batch), k))
  {
    hide Pick;
    var picks := PickAre(batch, flags, true);
    var ts, ps, all := Pick(batch, flags, true), PacketsOf(Pick(batch, flags, true)), PacketsOf(batch);
    forall i | 0 <= i < |batch| && flags[i]
      ensures batch[i] in ts
    {
      var k :| 0 <= k < |picks| && picks[k] == i;
      assert ts[k] == batch[i];
    }
    forall k | HasKey(ps, k)
      ensures HasKey(all, k)
    {
      var j :| 0 <= j < |ps| && ps[j].key == k;
      assert all[picks[j]] == ps[j];
    }
  }

  // ----- the members, seen from the whole batch -----

  /** The hash of a transfer that the stage takes; none for another. */
  ghost function TakenHash(cfg: Config, st: Stage, t: Transfer, db: Database, r: Reply): Option<string>
    requires t.packet.key in db.tables.rows
    reads t, db
  {
    if Takes(cfg, t.packet, st, ImageOf(t, db), r) then HashOf(st, t.packet, t.Data()) else None
  }

  ghost function TakenHashes(cfg: Config, st: Stage, batch: seq<Transfer>, db: Database, rs: seq<Reply>): (hs: seq<Option<string>>)
    requires |rs| == |batch| && InTables(batch, db)
    reads batch, db
    ensures |hs| == |batch| && forall i :: 0 <= i < |batch| ==> hs[i] == TakenHash(cfg, st, batch[i], db, rs[i])
  {
    if batch == [] then []
    else
      var n := |batch| - 1;
      assert forall i :: 0 <= i < n ==> batch[..n][i] == batch[i];
      TakenHashes(cfg, st, batch[..n], db, rs[..n]) + [TakenHash(cfg, st, batch[n], db, rs[n])]
  }

  /** Taking the members of a part is masking the hashes of the rest. */
  lemma {:induction false} PickMembers(hs: seq<Option<string>>, masked: seq<Option<string>>, ps: seq<Packet>, flags: seq<bool>)
    requires |hs| == |masked| == |ps| == |flags|
    requires forall i :: 0 <= i < |hs| ==> masked[i] == if flags[i] then hs[i] else None
    ensures |Pick(hs, flags, true)| == |Pick(ps, flags, true)|
    ensures Members(Pick(hs, flags, true), Pick(ps, flags, true)) == Members(masked, ps)
  {
    hide DecodeHex;
    if hs != [] {
      var n := |hs| - 1;
      PickMembers(hs[..n], masked[..n], ps[..n], flags[..n]);
      var a, b := Pick(hs[..n], flags[..n], true), Pick(ps[..n], flags[..n], true);
      if flags[n] {
        assert (a + [hs[n]])[..|a|] == a && (b + [ps[n]])[..|b|] == b;
        assert Pick(hs, flags, true) == a + [hs[n]] && Pick(ps, flags, true) == b + [ps[n]];
      } else {
        assert Pick(hs, flags, true) == a && Pick(ps, flags, true) == b;
        assert !Usable(masked[n]);
      }
    }
  }

  lemma {:induction false} PickPackets(batch: seq<Transfer>, flags: seq<bool>)
    requires |flags| == |batch|
    ensures PacketsOf(Pick(batch, flags, true)) == Pick(PacketsOf(batch), flags, true)
  {
    if batch != [] {
      var n := |batch| - 1;
      PickPackets(batch[..n], flags[..n]);
      assert PacketsOf(batch)[..n] == PacketsOf(batch[..n]);
    }
  }

  lemma {:induction false} PickHashes(st: Stage, batch: seq<Transfer>, flags: seq<bool>)
    requires |flags| == |batch|
    ensures HashesOf(st, Pick(batch, flags, true)) == Pick(HashesOf(st, batch), flags, true)
  {
    hide HashOf, Transfer.Data;
    if batch != [] {
      var n := |batch| - 1;
      PickHashes(st, batch[..n], flags[..n]);
      assert HashesOf(st, batch)[..n] == HashesOf(st, batch[..n]);
    }
  }

  /** Let the stage work on the transfers taken from the batch, if any. */
  method WorkTaken(st: Stage, batch: seq<Transfer>, taken: seq<Transfer>, ghost flags: seq<bool>, db: Database, r: BatchReply)
    returns (sent: Answer<Tx>, w: Write)
    requires Distinct(batch) && InTables(batch, db) && |flags| == |batch| && taken == Pick(batch, flags, true)
    requires forall i :: 0 <= i < |batch| && flags[i] ==> !batch[i].processingError
    modifies taken, db
    ensures InTables(batch, db) && OtherRows(old(db.tables), db.tables, batch)
    ensures var ms := Members(old(HashesOf(st, taken)), PacketsOf(taken));
            && sent == (if taken == [] then NoAnswer else SentOf(r))
            && w == (if taken == [] then Refused else CommitOf(ms, r))
            && Trailed(old(db.tables), db.tables, st, ms, r.chain, sent, w)
    ensures forall i :: 0 <= i < |batch| ==>
              ImageOf(batch[i], db) ==
                if flags[i]
                then Delivered(st, old(ImageOf(batch[i], db)), Usable(HashOf(st, batch[i].packet, old(batch[i].Data()))), sent, w)
                else old(ImageOf(batch[i], db))
  {
    hide Delivered, Transfer.Data, Pick, HashOf, Usable, HasKey, HashesOf, Members, CommitOf, SentOf;
    PickedKeys(batch, flags);
    if |taken| == 0 {
      return NoAnswer, Refused;
    }
    ghost var picks := PickAre(batch, flags, true);
    sent, w := WorkBatch(st, taken, db, r);
    assert forall i :: 0 <= i < |batch| && !flags[i] ==> batch[i] !in taken by {
      forall i, k | 0 <= i < |batch| && !flags[i] && 0 <= k < |taken| ensures taken[k] != batch[i] {
        assert taken[k] == batch[picks[k]];
      }
    }
  }

  lemma PickNone<T>(s: seq<T>, flags: seq<bool>)
    requires |flags| == |s|
    ensures Pick(s, flags, true) == [] <==> forall i :: 0 <= i < |s| ==> !flags[i]
  {
    hide Pick;
    var picks := PickAre(s, flags, true);
    if picks != [] { assert flags[picks[0]]; }
  }

  /** Showing the stage's status does not change the hash. */
  lemma EnteredHash(cfg: Config, p: Packet, st: Stage, x: Image, r: Reply)
    ensures HashOf(st, p, Entered(cfg, p, st, x, r).copy.data) == HashOf(st, p, x.copy.data)
  {
    hide ShouldProcess, StatusOf;
  }

  ghost predicate AnyTaken(cfg: Config, st: Stage, batch: seq<Transfer>, db: Database, rs: seq<Reply>)
    requires |rs| == |batch| && InTables(batch, db)
    reads batch, db
  {
    exists i :: 0 <= i < |batch| && Takes(cfg, batch[i].packet, st, ImageOf(batch[i], db), rs[i])
  }

  /** The partition, with the members of its first part told from the batch as it came in. */
  method Select(cfg: Config, st: Stage, batch: seq<Transfer>, db: Database, rs: seq<Reply>)
    returns (toProcess: seq<Transfer>, notProcessing: seq<Transfer>, ghost flags: seq<bool>)
    requires IsBatch(st) && Distinct(batch) && |rs| == |batch| && InTables(batch, db)
    modifies batch, db
    ensures InTables(batch, db) && |flags| == |batch|
    ensures forall i :: 0 <= i < |batch| ==>
              && ImageOf(batch[i], db) == Entered(cfg, batch[i].packet, st, old(ImageOf(batch[i], db)), rs[i])
              && flags[i] == Takes(cfg, batch[i].packet, st, old(ImageOf(batch[i], db)), rs[i])
              && (flags[i] ==> !batch[i].processingError)
    ensures OtherRows(old(db.tables), db.tables, batch)
    ensures db.tables.submissions == old(db.tables.submissions) && db.tables.links == old(db.tables.links)
    ensures toProcess == Pick(batch, flags, true) && notProcessing == Pick(batch, flags, false)
    ensures toProcess == [] <==> !old(AnyTaken(cfg, st, batch, db, rs))
    ensures Members(HashesOf(st, toProcess), PacketsOf(toProcess))
         == Members(old(TakenHashes(cfg, st, batch, db, rs)), PacketsOf(batch))
  {
    hide Entered, Takes, Pick, HasKey, HashOf, Members, OtherRows, HashesOf, Transfer.Data;
    toProcess, notProcessing, flags := Partition(cfg, st, batch, db, rs);
    PickNone(batch, flags);
    ghost var hs, masked := HashesOf(st, batch), old(TakenHashes(cfg, st, batch, db, rs));
    forall i | 0 <= i < |batch|
      ensures masked[i] == (if flags[i] then hs[i] else None) && (flags[i] ==> !batch[i].processingError)
    {
      EnteredHash(cfg, batch[i].packet, st, old(ImageOf(batch[i], db)), rs[i]);
      if flags[i] { Taken(cfg, batch[i].packet, st, old(ImageOf(batch[i], db)), rs[i], NoAnswer, Refused); }
    }
    PickHashes(st, batch, flags);
    PickPackets(batch, flags);
    PickMembers(hs, masked, PacketsOf(batch), flags);
  }

  /** The batch middleware refines the single-transfer pipeline: every transfer of the batch
      and its row are what the stage function gives for that transfer alone, with the shared
      transaction and commit as its answers.  These are the answers of the proof service, the
      chain and the database for exactly the members; the trail records them.  It returns each
      transfer exactly once. */
  method ProcessBatch(cfg: Config, st: Stage, batch: seq<Transfer>, db: Database, rs: seq<Reply>, r: BatchReply)
    returns (out: seq<Transfer>, sent: Answer<Tx>, w: Write)
    requires IsBatch(st) && Distinct(batch) && |rs| == |batch| && InTables(batch, db)
    modifies batch, db
    ensures multiset(out) == multiset(batch)
    ensures var ms := Members(old(TakenHashes(cfg, st, batch, db, rs)), PacketsOf(batch));
            && sent == (if old(AnyTaken(cfg, st, batch, db, rs)) then SentOf(r) else NoAnswer)
            && w == (if old(AnyTaken(cfg, st, batch, db, rs)) then CommitOf(ms, r) else Refused)
            && Trailed(old(db.tables), db.tables, st, ms, r.chain, sent, w)
    ensures InTables(batch, db) && OtherRows(old(db.tables), db.tables, batch)
    ensures forall i :: 0 <= i < |batch| ==>
              ImageOf(batch[i], db) ==
                Process(cfg, batch[i].packet, st, old(ImageOf(batch[i], db)),
                        Shared(st, batch[i].packet, old(batch[i].Data()), rs[i], sent, w))
  {
    hide Process, Shared, Delivered, Entered, Takes, Transfer.Data, Pick, HashOf, Usable, HasKey, Members, HashesOf,
      AnyTaken, TakenHashes, CommitOf, SentOf;
    var toProcess, notProcessing;
    ghost var flags;
    toProcess, notProcessing, flags := Select(cfg, st, batch, db, rs);
    PickConserves(batch, flags);
    PickedKeys(batch, flags);
    sent, w := WorkTaken(st, batch, toProcess, flags, db, r);
    forall i | 0 <= i < |batch|
      ensures ImageOf(batch[i], db) ==
                Process(cfg, batch[i].packet, st, old(ImageOf(batch[i], db)),
                        Shared(st, batch[i].packet, old(batch[i].Data()), rs[i], sent, w))
    {
      if flags[i] {
        Taken(cfg, batch[i].packet, st, old(ImageOf(batch[i], db)), rs[i], sent, w);
      } else {
        NotTaken(cfg, batch[i].packet, st, old(ImageOf(batch[i], db)), rs[i], sent, w);
      }
    }
    out := toProcess + notProcessing;
  }
}
