/** The EVM client's finality tests over a chain that may reorganise above its final height,
    and the paths under which packet commitments are stored. */
module EvmClient {
  import opened Wrappers
  import opened Transfers

  /** `txs` maps the hash of an executed transaction to its success; `received` holds the
      packets whose receipt the block wrote. */
  datatype Block = Block(time: Time, txs: map<string, bool>, received: set<Key>)

  /** The canonical chain as a node shows it; `finalized` is the height of the finalized tag. */
  datatype Chain = Chain(blocks: seq<Block>, finalized: nat)

  ghost predicate TimesRise(blocks: seq<Block>) {
    forall i, j :: 0 <= i < j < |blocks| ==> blocks[i].time <= blocks[j].time
  }

  ghost predicate TxsDiffer(blocks: seq<Block>) {
    forall i, j, h :: 0 <= i < j < |blocks| && h in blocks[i].txs ==> h !in blocks[j].txs
  }

  ghost predicate AcceptsInTime(blocks: seq<Block>, timeouts: map<Key, Time>) {
    forall i, k :: 0 <= i < |blocks| && k in blocks[i].received ==> k in timeouts && blocks[i].time < timeouts[k]
  }

  /** Block times do not decrease, a transaction is in one block only, and a packet is accepted
      only before its timeout. */
  ghost predicate ValidChain(c: Chain, timeouts: map<Key, Time>) {
    c.finalized < |c.blocks| && TimesRise(c.blocks) && TxsDiffer(c.blocks) && AcceptsInTime(c.blocks, timeouts)
  }

  /** The height the client treats as final: the finalized tag, or a block offset. */
  function FinalHeight(c: Chain, offset: Option<nat>): Option<nat>
    requires c.finalized < |c.blocks|
  {
    if offset.None? then Some(c.finalized)
    else if |c.blocks| - 1 < offset.value then None
    else Some(|c.blocks| - 1 - offset.value)
  }

  /** A later view of the chain: what was final stays, and final heights do not go back.  Above
      the final height blocks may have been replaced. */
  ghost predicate Extends(c: Chain, d: Chain, offset: Option<nat>)
    requires c.finalized < |c.blocks| && d.finalized < |d.blocks|
  {
    var h := FinalHeight(c, offset);
    h.Some? ==>
      && FinalHeight(d, offset).Some? && h.value <= FinalHeight(d, offset).value
      && c.blocks[..h.value + 1] == d.blocks[..h.value + 1]
  }

  lemma ExtendsTransitive(a: Chain, b: Chain, c: Chain, offset: Option<nat>)
    requires a.finalized < |a.blocks| && b.finalized < |b.blocks| && c.finalized < |c.blocks|
    requires Extends(a, b, offset) && Extends(b, c, offset)
    ensures Extends(a, c, offset)
  {
    if FinalHeight(a, offset).Some? {
      var h, k := FinalHeight(a, offset).value, FinalHeight(b, offset).value;
      assert b.blocks[..h + 1] == b.blocks[..k + 1][..h + 1];
      assert c.blocks[..h + 1] == c.blocks[..k + 1][..h + 1];
    }
  }

  // ----- timestamps -----

  /** Two reads: the latest height, then the header at the final height (from a view that may
      be later). */
  function IsTimestampFinalized(c: Chain, header: Chain, timestamp: Time, offset: Option<nat>): bool
    requires c.finalized < |c.blocks| && header.finalized < |header.blocks|
    requires FinalHeight(c, offset).Some? ==> FinalHeight(c, offset).value < |header.blocks|
  {
    match FinalHeight(c, offset)
    case None => false
    case Some(h) => header.blocks[h].time >= timestamp
  }

  /** The test says exactly that some block at or below the final height has reached the time. */
  lemma TimestampFinalizedIff(c: Chain, timeouts: map<Key, Time>, timestamp: Time, offset: Option<nat>)
    requires ValidChain(c, timeouts)
    ensures IsTimestampFinalized(c, c, timestamp, offset) <==>
              FinalHeight(c, offset).Some?
              && exists i :: 0 <= i <= FinalHeight(c, offset).value && c.blocks[i].time >= timestamp
  {
    hide TxsDiffer, AcceptsInTime;
  }

  ghost predicate Received(c: Chain, k: Key, height: nat)
    requires height < |c.blocks|
  {
    exists i :: 0 <= i <= height && k in c.blocks[i].received
  }

  /** Reading in two steps gives the answer of the first view. */
  lemma TwoReadsAgree(c: Chain, header: Chain, timestamp: Time, offset: Option<nat>)
    requires c.finalized < |c.blocks| && header.finalized < |header.blocks| && Extends(c, header, offset)
    ensures FinalHeight(c, offset).Some? ==> FinalHeight(c, offset).value < |header.blocks|
    ensures IsTimestampFinalized(c, header, timestamp, offset) == IsTimestampFinalized(c, c, timestamp, offset)
  {
    if FinalHeight(c, offset).Some? {
      var h := FinalHeight(c, offset).value;
      assert c.blocks[..h + 1][h] == header.blocks[..h + 1][h];
    }
  }

  lemma SameBelow(c: Chain, d: Chain, offset: Option<nat>, i: nat)
    requires c.finalized < |c.blocks| && d.finalized < |d.blocks| && Extends(c, d, offset)
    requires FinalHeight(c, offset).Some? && i <= FinalHeight(c, offset).value
    ensures i < |d.blocks| && c.blocks[i] == d.blocks[i]
  {
    var h := FinalHeight(c, offset).value;
    assert c.blocks[..h + 1][i] == d.blocks[..h + 1][i];
  }

  /** Once the final block has reached the timeout, this stays so, and the receipt at the final
      height decides for ever: no later view has another answer at any later height. */
  lemma NonReceiptIsPermanent(c: Chain, d: Chain, timeouts: map<Key, Time>, k: Key, offset: Option<nat>, height: nat)
    requires ValidChain(c, timeouts) && ValidChain(d, timeouts) && Extends(c, d, offset)
    requires k in timeouts && IsTimestampFinalized(c, c, timeouts[k], offset)
    requires FinalHeight(c, offset).value <= height < |d.blocks|
    ensures IsTimestampFinalized(d, d, timeouts[k], offset)
    ensures Received(d, k, height) <==> Received(c, k, FinalHeight(c, offset).value)
  {
    hide TxsDiffer;
    var h := FinalHeight(c, offset).value;
    forall i | 0 <= i <= h ensures c.blocks[i] == d.blocks[i] { SameBelow(c, d, offset, i); }
    assert d.blocks[h].time >= timeouts[k];
    if Received(d, k, height) {
      var i :| 0 <= i <= height && k in d.blocks[i].received;
      assert i <= h;
      assert k in c.blocks[i].received;
    }
  }

  /** A sequence of views, each extending the one before. */
  ghost predicate IsHistory(cs: seq<Chain>, timeouts: map<Key, Time>, offset: Option<nat>) {
    && (forall i :: 0 <= i < |cs| ==> ValidChain(cs[i], timeouts))
    && (forall i :: 0 <= i < |cs| - 1 ==> Extends(cs[i], cs[i + 1], offset))
  }

  lemma {:induction false} HistoryExtends(cs: seq<Chain>, timeouts: map<Key, Time>, offset: Option<nat>, i: nat, j: nat)
    requires IsHistory(cs, timeouts, offset) && i <= j < |cs|
    ensures Extends(cs[i], cs[j], offset)
    decreases j - i
  {
    if i < j {
      HistoryExtends(cs, timeouts, offset, i, j - 1);
      ExtendsTransitive(cs[i], cs[j - 1], cs[j], offset);
    }
  }

  /** Over every history: after the timeout is final in one view, every later view agrees with
      it on the receipt, at the final height and above. */
  lemma OutcomeIsDecided(cs: seq<Chain>, timeouts: map<Key, Time>, k: Key, offset: Option<nat>, i: nat, j: nat, height: nat)
    requires IsHistory(cs, timeouts, offset) && i <= j < |cs| && k in timeouts
    requires IsTimestampFinalized(cs[i], cs[i], timeouts[k], offset)
    requires FinalHeight(cs[i], offset).value <= height < |cs[j].blocks|
    ensures IsTimestampFinalized(cs[j], cs[j], timeouts[k], offset)
    ensures Received(cs[j], k, height) <==> Received(cs[i], k, FinalHeight(cs[i], offset).value)
  {
    hide ValidChain, Extends, IsTimestampFinalized, Received;
    HistoryExtends(cs, timeouts, offset, i, j);
    NonReceiptIsPermanent(cs[i], cs[j], timeouts, k, offset, height);
  }

  // ----- transactions -----

  /** The height of the block that holds the transaction. */
  function FindTx(blocks: seq<Block>, hash: string): Option<nat> {
    if blocks == [] then None
    else if hash in blocks[|blocks| - 1].txs then Some(|blocks| - 1)
    else FindTx(blocks[..|blocks| - 1], hash)
  }

  lemma {:induction false} FindTxFinds(blocks: seq<Block>, hash: string)
    ensures match FindTx(blocks, hash)
            case None => forall i :: 0 <= i < |blocks| ==> hash !in blocks[i].txs
            case Some(b) => b < |blocks| && hash in blocks[b].txs
  {
    if blocks != [] && hash !in blocks[|blocks| - 1].txs {
      FindTxFinds(blocks[..|blocks| - 1], hash);
    }
  }

  lemma TxInOneBlock(c: Chain, timeouts: map<Key, Time>, hash: string, a: nat, b: nat)
    requires ValidChain(c, timeouts) && a < |c.blocks| && b < |c.blocks|
    requires hash in c.blocks[a].txs && hash in c.blocks[b].txs
    ensures a == b
  {
  }

  /** Two reads: the receipt in view `c`, then the head in view `d`, which may be later.  No
      answer if there is no receipt.  With an offset, the latest block must be that many blocks
      past the receipt's. */
  function IsTxFinalized(c: Chain, d: Chain, hash: string, offset: Option<nat>): Answer<bool>
    requires d.finalized < |d.blocks|
  {
    match FindTx(c.blocks, hash)
    case None => NoAnswer
    case Some(b) =>
      if offset.None? then Got(b <= d.finalized)
      else Got(|d.blocks| - 1 >= b && |d.blocks| - 1 - b >= offset.value)
  }

  /** What a positive answer should mean: the chain holds the transaction at or below its final
      height. */
  ghost predicate FinalIn(c: Chain, hash: string, offset: Option<nat>)
    requires c.finalized < |c.blocks|
  {
    && FindTx(c.blocks, hash).Some? && FinalHeight(c, offset).Some?
    && FindTx(c.blocks, hash).value <= FinalHeight(c, offset).value
  }

  /** Both mechanisms compare the first view's block with the second view's final height. */
  lemma TxFinalizedMeans(c: Chain, d: Chain, hash: string, offset: Option<nat>)
    requires c.finalized < |c.blocks| && d.finalized < |d.blocks|
    ensures IsTxFinalized(c, d, hash, offset) == Got(true) <==>
              && FindTx(c.blocks, hash).Some? && FinalHeight(d, offset).Some?
              && FindTx(c.blocks, hash).value <= FinalHeight(d, offset).value
    ensures IsTxFinalized(c, c, hash, offset) == Got(true) <==> FinalIn(c, hash, offset)
    ensures IsTxFinalized(c, d, hash, offset) == NoAnswer <==> forall i :: 0 <= i < |c.blocks| ==> hash !in c.blocks[i].txs
  {
    FindTxFinds(c.blocks, hash);
  }

  /** A transaction that is final in one view is final in every later one, in the same block. */
  lemma FinalTxStays(c: Chain, d: Chain, timeouts: map<Key, Time>, hash: string, offset: Option<nat>)
    requires ValidChain(c, timeouts) && ValidChain(d, timeouts) && Extends(c, d, offset)
    requires FinalIn(c, hash, offset)
    ensures FinalIn(d, hash, offset) && IsTxFinalized(c, d, hash, offset) == Got(true)
    ensures var b := FindTx(c.blocks, hash).value;
            FindTx(d.blocks, hash) == Some(b) && b < |c.blocks| && b < |d.blocks| && c.blocks[b] == d.blocks[b]
  {
    hide FindTx;
    TxFinalizedMeans(c, d, hash, offset);
    FindTxFinds(c.blocks, hash);
    FindTxFinds(d.blocks, hash);
    var b := FindTx(c.blocks, hash).value;
    SameBelow(c, d, offset, b);
    TxInOneBlock(d, timeouts, hash, b, FindTx(d.blocks, hash).value);
  }

  /** Exactly when a positive answer of the two reads is right about the later view.  It is
      right if the receipt's block was final in the first view already.  Otherwise the block may
      have been replaced between the reads: for a transaction that did not move to another
      block, the answer is right if and only if the later view still holds it there. */
  lemma TxFinalizedIsRightIff(c: Chain, d: Chain, timeouts: map<Key, Time>, hash: string, offset: Option<nat>)
    requires ValidChain(c, timeouts) && ValidChain(d, timeouts) && Extends(c, d, offset)
    requires IsTxFinalized(c, d, hash, offset) == Got(true)
    ensures var b := FindTx(c.blocks, hash).value;
            && (FinalHeight(c, offset).Some? && b <= FinalHeight(c, offset).value ==> FinalIn(d, hash, offset))
            && ((forall i :: 0 <= i < |d.blocks| && i != b ==> hash !in d.blocks[i].txs) ==>
                  (FinalIn(d, hash, offset) <==> b < |d.blocks| && hash in d.blocks[b].txs))
  {
    hide FindTx, Extends;
    TxFinalizedMeans(c, d, hash, offset);
    FindTxFinds(d.blocks, hash);
    if FinalIn(c, hash, offset) { FinalTxStays(c, d, timeouts, hash, offset); }
  }

  const GENESIS := Block(0, map[], {})

  const EMPTY_BLOCK := Block(1, map[], {})

  function EmptyBlocks(n: nat): (s: seq<Block>)
    ensures |s| == n && forall i :: 0 <= i < n ==> s[i] == EMPTY_BLOCK
  {
    if n == 0 then [] else EmptyBlocks(n - 1) + [EMPTY_BLOCK]
  }

  lemma WitnessIsValid(timeouts: map<Key, Time>, n: nat)
    ensures ValidChain(Chain([GENESIS, Block(1, map["tx" := true], {})] + EmptyBlocks(n), 0), timeouts)
    ensures ValidChain(Chain([GENESIS] + EmptyBlocks(n + 1), 1), timeouts)
  {
  }

  lemma WitnessFinds(n: nat)
    ensures FindTx([GENESIS, Block(1, map["tx" := true], {})] + EmptyBlocks(n), "tx") == Some(1)
    ensures FindTx([GENESIS] + EmptyBlocks(n + 1), "tx") == None
  {
    hide FindTx, EmptyBlocks;
    var a, b := [GENESIS, Block(1, map["tx" := true], {})] + EmptyBlocks(n), [GENESIS] + EmptyBlocks(n + 1);
    FindTxFinds(a, "tx");
    FindTxFinds(b, "tx");
    assert "tx" in a[1].txs;
  }

  /** The answer can be wrong with every mechanism that leaves room above the final height:
      between the reads the block is replaced and the chain grows by one block, which is the
      one that was missing. */
  lemma TxFinalizedCanBeWrong(timeouts: map<Key, Time>, offset: Option<nat>) returns (c: Chain, d: Chain)
    requires offset != Some(0)
    ensures ValidChain(c, timeouts) && ValidChain(d, timeouts) && Extends(c, d, offset)
    ensures FinalHeight(c, offset) == Some(0) && FinalHeight(d, offset) == Some(1) && |d.blocks| == |c.blocks| + 1
    ensures IsTxFinalized(c, d, "tx", offset) == Got(true) && FindTx(d.blocks, "tx") == None
  {
    hide FindTx, ValidChain, EmptyBlocks;
    var n := if offset.None? then 1 else offset.value;
    c := Chain([GENESIS, Block(1, map["tx" := true], {})] + EmptyBlocks(n - 1), 0);
    d := Chain([GENESIS] + EmptyBlocks(n + 1), 1);
    WitnessIsValid(timeouts, n - 1);
    WitnessIsValid(timeouts, n);
    WitnessFinds(n - 1);
    WitnessFinds(n);
    assert c.blocks[..1] == d.blocks[..1];
  }

  /** Retry, do not retry, wait (the sentinel error), or no decision because a call failed. */
  datatype RetryAnswer = Retry | Keep | Wait | Undecided

  /** `c` is the view in which the receipt was read; the single-flight cache may have kept it.
      The lookup may fail by itself; a missing receipt is compared with the time of the latest
      block of the view `header`. */
  function ShouldRetryTx(c: Chain, reachable: bool, header: Answer<Chain>, hash: string, expiry: int, sent: Time): RetryAnswer
    requires header.Got? ==> header.value.blocks != []
  {
    if !reachable then Undecided
    else match FindTx(c.blocks, hash)
      case Some(b) =>
        FindTxFinds(c.blocks, hash);
        if c.blocks[b].txs[hash] then Keep else Retry
      case None =>
        if header.NoAnswer? then Undecided
        else if sent + expiry < header.value.blocks[|header.value.blocks| - 1].time then Retry
        else Wait
  }

  /** The transaction is in a block of the view, with this result. */
  ghost predicate Executed(c: Chain, hash: string, success: bool) {
    exists b :: 0 <= b < |c.blocks| && hash in c.blocks[b].txs && c.blocks[b].txs[hash] == success
  }

  lemma ExecutedOnce(c: Chain, timeouts: map<Key, Time>, hash: string)
    requires ValidChain(c, timeouts)
    ensures match FindTx(c.blocks, hash)
            case None => !Executed(c, hash, true) && !Executed(c, hash, false)
            case Some(b) => b < |c.blocks| && hash in c.blocks[b].txs
                            && forall s :: Executed(c, hash, s) <==> c.blocks[b].txs[hash] == s
  {
    hide FindTx;
    FindTxFinds(c.blocks, hash);
    if FindTx(c.blocks, hash).Some? {
      var f := FindTx(c.blocks, hash).value;
      forall b | 0 <= b < |c.blocks| && hash in c.blocks[b].txs
        ensures b == f
      {
        TxInOneBlock(c, timeouts, hash, b, f);
      }
    }
  }

  /** The latest block of the view is later than this time. */
  predicate Past(d: Chain, t: Time)
    requires d.blocks != []
  {
    t < d.blocks[|d.blocks| - 1].time
  }

  /** Every decision, exactly, in terms of the view the receipt was read in.  A transaction
      executed successfully is kept and one that failed is retried.  One that is not there is
      retried if chain time is past the expiry, and waited for if not.  Otherwise a call failed. */
  lemma RetryIsSafe(c: Chain, reachable: bool, header: Answer<Chain>, hash: string, expiry: int, sent: Time, timeouts: map<Key, Time>)
    requires ValidChain(c, timeouts) && (header.Got? ==> ValidChain(header.value, timeouts))
    ensures header.Got? ==> header.value.blocks != []
    ensures var a := ShouldRetryTx(c, reachable, header, hash, expiry, sent);
            var missing := !Executed(c, hash, true) && !Executed(c, hash, false);
            && (a.Keep? <==> reachable && Executed(c, hash, true))
            && (a.Retry? <==> reachable && (Executed(c, hash, false)
                                            || (missing && header.Got? && Past(header.value, sent + expiry))))
            && (a.Wait? <==> reachable && missing && header.Got? && !Past(header.value, sent + expiry))
            && (a.Undecided? <==> !reachable || (missing && header.NoAnswer?))
  {
    hide FindTx, Executed, ValidChain;
    ExecutedOnce(c, timeouts, hash);
    if header.Got? { NotEmpty(header.value, timeouts); }
  }

  lemma NotEmpty(c: Chain, timeouts: map<Key, Time>)
    requires ValidChain(c, timeouts)
    ensures c.blocks != []
  {
  }

  /** The transaction is in a block of the view above the height, and was successful. */
  ghost predicate SucceededAbove(d: Chain, hash: string, height: Option<nat>) {
    exists b :: 0 <= b < |d.blocks| && (height.Some? ==> b > height.value)
                && hash in d.blocks[b].txs && d.blocks[b].txs[hash]
  }

  /** What it says of a later view `d`.  `Keep` on a receipt whose block was final holds there
      too.  After a retry was ordered, the later view holds the transaction as successful if and
      only if a block above the height that was final when the receipt was read does. */
  lemma RetryLater(c: Chain, d: Chain, reachable: bool, hash: string, expiry: int, sent: Time, timeouts: map<Key, Time>, offset: Option<nat>)
    requires ValidChain(c, timeouts) && ValidChain(d, timeouts) && Extends(c, d, offset)
    ensures var a := ShouldRetryTx(c, reachable, Got(d), hash, expiry, sent);
            && (FinalIn(c, hash, offset) && a.Keep? ==> Executed(d, hash, true))
            && (a.Retry? ==> (Executed(d, hash, true) <==> SucceededAbove(d, hash, FinalHeight(c, offset))))
            && (a.Retry? && FinalIn(c, hash, offset) ==> !Executed(d, hash, true))
  {
    hide FindTx;
    ExecutedOnce(c, timeouts, hash);
    ExecutedOnce(d, timeouts, hash);
    if FinalIn(c, hash, offset) { FinalTxStays(c, d, timeouts, hash, offset); }
    if ShouldRetryTx(c, reachable, Got(d), hash, expiry, sent).Retry? && Executed(d, hash, true) {
      var b :| 0 <= b < |d.blocks| && hash in d.blocks[b].txs && d.blocks[b].txs[hash];
      if FinalHeight(c, offset).Some? && b <= FinalHeight(c, offset).value {
        SameBelow(c, d, offset, b);
      }
    }
  }

  /** So, with every expiry and sending time, a retry can be ordered for a transaction that has
      just been executed. */
  lemma RetryCanBeLate(timeouts: map<Key, Time>, expiry: int, sent: Time) returns (c: Chain, d: Chain)
    ensures ValidChain(c, timeouts) && ValidChain(d, timeouts) && Extends(c, d, None)
    ensures ShouldRetryTx(c, true, Got(d), "tx", expiry, sent) == Retry && Executed(d, "tx", true)
  {
    var t := if sent + expiry < 0 then 0 else sent + expiry + 1;
    c, d := Chain([GENESIS], 0), Chain([GENESIS, Block(t, map["tx" := true], {})], 0);
    FindTxFinds(c.blocks, "tx");
    assert "tx" in d.blocks[1].txs;
    assert c.blocks[..1] == d.blocks[..1];
  }

  // ----- commitment paths -----

  type Byte = b: nat | b < 256

  /** A value for packed encoding; a text is its bytes. */
  datatype Value = Bytes(bytes: seq<Byte>) | Single(b: Byte) | Text(bytes: seq<Byte>) | Other

  function Part(v: Value): seq<Byte> {
    match v case Bytes(s) => s case Text(s) => s case Single(b) => [b] case Other => []
  }

  function Packed(vs: seq<Value>): seq<Byte> {
    if vs == [] then [] else Packed(vs[..|vs| - 1]) + Part(vs[|vs| - 1])
  }

  /** Append the values one after another; an unsupported one is an error. */
  method EncodePacked(vs: seq<Value>) returns (r: Answer<seq<Byte>>)
    ensures r.Got? <==> forall i :: 0 <= i < |vs| ==> !vs[i].Other?
    ensures r.Got? ==> r.value == Packed(vs)
  {
    var buffer: seq<Byte> := [];
    for i := 0 to |vs|
      invariant forall j :: 0 <= j < i ==> !vs[j].Other?
      invariant buffer == Packed(vs[..i])
    {
      assert vs[..i + 1][..i] == vs[..i];
      match vs[i]
      case Bytes(s) => buffer := buffer + s;
      case Single(b) => buffer := buffer + [b];
      case Text(s) => buffer := buffer + s;
      case Other => return NoAnswer;
    }
    assert vs[..|vs|] == vs;
    return Got(buffer);
  }

  /** The `n` low bytes of a number, highest first. */
  function BigEndian(x: nat, n: nat): (s: seq<Byte>)
    ensures |s| == n
  {
    if n == 0 then [] else BigEndian(x / 256, n - 1) + [x % 256]
  }

  function Number(s: seq<Byte>): nat {
    if s == [] then 0 else 256 * Number(s[..|s| - 1]) + s[|s| - 1]
  }

  function Pow256(n: nat): nat {
    if n == 0 then 1 else 256 * Pow256(n - 1)
  }

  lemma {:induction false} BigEndianRoundTrip(x: nat, n: nat)
    requires x < Pow256(n)
    ensures Number(BigEndian(x, n)) == x
  {
    if n > 0 {
      BigEndianRoundTrip(x / 256, n - 1);
      assert BigEndian(x, n)[..n - 1] == BigEndian(x / 256, n - 1);
    }
  }

  const COMMITMENT: Byte := 1
  const RECEIPT: Byte := 2

  /** What the client hashes: client id, discriminator, sequence in eight bytes. */
  function Path(client: seq<Byte>, kind: Byte, sequence: nat): seq<Byte> {
    Packed([Text(client), Single(kind), Bytes(BigEndian(sequence, 8))])
  }

  /** Reading a path from its end: the sequence and the discriminator have fixed width. */
  function ReadPath(path: seq<Byte>): Option<(seq<Byte>, Byte, nat)> {
    if |path| < 9 then None
    else
      var n := |path| - 9;
      Some((path[..n], path[n], Number(path[n + 1..])))
  }

  lemma PathIs(client: seq<Byte>, kind: Byte, sequence: nat)
    ensures Path(client, kind, sequence) == client + [kind] + BigEndian(sequence, 8)
  {
    var a, b, c := Text(client), Single(kind), Bytes(BigEndian(sequence, 8));
    assert Packed([a]) == client by { assert [a][..0] == []; }
    assert Packed([a, b]) == client + [kind] by { assert [a, b][..1] == [a]; }
    assert [a, b, c][..2] == [a, b];
  }

  /** The two discriminators: a commitment is under byte 1, a receipt under byte 2. */
  lemma Discriminators(client: seq<Byte>, sequence: nat)
    ensures Path(client, COMMITMENT, sequence) == client + [1] + BigEndian(sequence, 8)
    ensures Path(client, RECEIPT, sequence) == client + [2] + BigEndian(sequence, 8)
  {
    PathIs(client, COMMITMENT, sequence);
    PathIs(client, RECEIPT, sequence);
  }

  /** Paths are uniquely decodable for all client ids and 64-bit sequences. */
  lemma PathRoundTrip(client: seq<Byte>, kind: Byte, sequence: nat)
    requires sequence < Pow256(8)
    ensures ReadPath(Path(client, kind, sequence)) == Some((client, kind, sequence))
  {
    hide BigEndian, Path, Number;
    PathIs(client, kind, sequence);
    BigEndianRoundTrip(sequence, 8);
    var p, n := Path(client, kind, sequence), |client|;
    assert |p| == n + 9 && p[..n] == client && p[n] == kind && p[n + 1..] == BigEndian(sequence, 8);
  }

  /** So different packets never share a path, and no receipt path is a commitment path. */
  lemma PathsAreDistinct(c1: seq<Byte>, k1: Byte, s1: nat, c2: seq<Byte>, k2: Byte, s2: nat)
    requires s1 < Pow256(8) && s2 < Pow256(8)
    ensures Path(c1, k1, s1) == Path(c2, k2, s2) <==> c1 == c2 && k1 == k2 && s1 == s2
    ensures Path(c1, COMMITMENT, s1) != Path(c2, RECEIPT, s2)
  {
    hide Path;
    PathRoundTrip(c1, k1, s1);
    PathRoundTrip(c2, k2, s2);
    PathRoundTrip(c1, COMMITMENT, s1);
    PathRoundTrip(c2, RECEIPT, s2);
  }
}
