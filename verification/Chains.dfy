/** Chain snapshots as an RPC node answers them. */
module Chains {
  import opened U64
  import opened Wrappers

  datatype ScannerError = BlockNotFound | RpcError | Timeout | SubscriptionClosed

  /** What a block adds to its parent: a nonce that tells siblings apart, and the data of
      the logs in it that match the listener's filter. */
  datatype Content = Content(nonce: int, logs: seq<int>)

  /** A block hash commits to a block and to all its ancestors. Taking the hash to be that
      list of contents makes hashes collision-free and linked to their parents. */
  type Hash = seq<Content>

  datatype BlockData = BlockData(number: nat, hash: Hash)

  /** A header's hash fixes its number. */
  type Block = b: BlockData | |b.hash| == b.number + 1 witness BlockData(0, [Content(0, [])])

  datatype ChainData = ChainData(blocks: seq<Content>, finalized: Option<nat>)

  /** A chain knows its finalized height once it is old enough to have one, and block
      numbers are 64 bits wide. */
  predicate WellFormed(c: ChainData) {
    && |c.blocks| <= U64_MAX
    && (c.finalized.Some? ==> c.finalized.value < |c.blocks|)
  }

  type Chain = c: ChainData | WellFormed(c) witness ChainData([], None)

  function HashAt(c: Chain, n: nat): Hash
    requires n < |c.blocks|
  {
    c.blocks[..n + 1]
  }

  function BlockAt(c: Chain, n: nat): Block
    requires n < |c.blocks|
  {
    BlockData(n, HashAt(c, n))
  }

  /** The block is the canonical one at its height. */
  predicate OnChain(c: Chain, b: Block) {
    b.number < |c.blocks| && b.hash == HashAt(c, b.number)
  }

  function GetBlockByNumber(c: Chain, n: nat): Result<Block, ScannerError> {
    if n < |c.blocks| then Ok(BlockAt(c, n)) else Err(BlockNotFound)
  }

  function GetFinalized(c: Chain): Result<Block, ScannerError> {
    match c.finalized
    case Some(f) => Ok(BlockAt(c, f))
    case None => Err(BlockNotFound)
  }

  /** Heights are strictly increasing. */
  ghost predicate Increasing(blocks: seq<Block>) {
    forall i, j | 0 <= i < j < |blocks| :: blocks[i].number < blocks[j].number
  }

  /** The first `n` blocks of both snapshots are the same. */
  predicate AgreeBelow(a: Chain, b: Chain, n: nat) {
    n <= |a.blocks| && n <= |b.blocks| && a.blocks[..n] == b.blocks[..n]
  }

  /** The number of blocks the two snapshots share: one more than the height of the fork
      point. */
  function CommonLength(a: Chain, b: Chain): (n: nat)
    ensures AgreeBelow(a, b, n)
    ensures forall k: nat | AgreeBelow(a, b, k) :: k <= n
  {
    CommonPrefix(a.blocks, b.blocks)
  }

  function CommonPrefix(a: seq<Content>, b: seq<Content>): (n: nat)
    ensures n <= |a| && n <= |b| && a[..n] == b[..n]
    ensures forall k: nat | k <= |a| && k <= |b| && a[..k] == b[..k] :: k <= n
  {
    if a == [] || b == [] || a[0] != b[0] then
      assert forall k: nat | 0 < k <= |a| && k <= |b| :: a[..k][0] == a[0] && b[..k][0] == b[0];
      0
    else
      var m := CommonPrefix(a[1..], b[1..]);
      assert a[..m + 1] == [a[0]] + a[1..][..m];
      assert b[..m + 1] == [b[0]] + b[1..][..m];
      assert forall k: nat | 0 < k <= |a| && k <= |b| && a[..k] == b[..k] ::
          k - 1 <= m by {
        forall k: nat | 0 < k <= |a| && k <= |b| && a[..k] == b[..k]
          ensures k - 1 <= m
        {
          assert a[1..][..k - 1] == a[..k][1..];
          assert b[1..][..k - 1] == b[..k][1..];
        }
      }
      m + 1
  }

  lemma AgreeLess(a: Chain, b: Chain, n: nat, k: nat)
    requires AgreeBelow(a, b, n) && k <= n
    ensures AgreeBelow(a, b, k)
  {
    assert a.blocks[..k] == a.blocks[..n][..k];
    assert b.blocks[..k] == b.blocks[..n][..k];
  }

  lemma AgreeLessIf(a: Chain, b: Chain, n: nat, k: nat)
    ensures AgreeBelow(a, b, n) && k <= n ==> AgreeBelow(a, b, k)
  {
    if AgreeBelow(a, b, n) && k <= n {
      AgreeLess(a, b, n, k);
    }
  }

  /** What two snapshots share with a third one they share with each other. */
  lemma AgreeTransitive(c: Chain, a: Chain, b: Chain, n: nat)
    requires AgreeBelow(c, a, n) && AgreeBelow(c, b, n)
    ensures AgreeBelow(a, b, n)
  {
  }

  /** One block canonical on two snapshots: they agree up to and including it. */
  lemma SharedBlock(a: Chain, b: Chain, x: Block)
    requires OnChain(a, x)
    ensures OnChain(b, x) <==> AgreeBelow(a, b, x.number + 1)
  {
  }

  /** Blocks of the agreeing part are the same blocks. */
  lemma AgreeHashes(a: Chain, b: Chain, n: nat)
    requires AgreeBelow(a, b, n)
    ensures forall k: nat | k < n :: HashAt(a, k) == HashAt(b, k)
    ensures forall x: Block | x.number < n :: OnChain(a, x) <==> OnChain(b, x)
  {
    forall k: nat | k < n
      ensures HashAt(a, k) == HashAt(b, k)
    {
      AgreeLess(a, b, n, k + 1);
    }
  }
}
