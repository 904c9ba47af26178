/** Detection of reorgs and search for the common ancestor. */
module ReorgHandler {
  import opened Wrappers
  import opened Chains
  import opened RingBuffers
  import opened Outside

  // -------------------------------------------------------------------------
  // One check against one snapshot
  // -------------------------------------------------------------------------

  function Last<T>(s: seq<T>): T
    requires s != []
  {
    s[|s| - 1]
  }

  /** The buffer without its newest entries that left the chain. */
  function PopStale(c: Chain, buffer: seq<Block>): (kept: seq<Block>)
    ensures kept <= buffer
    ensures kept != [] ==> OnChain(c, Last(kept))
  {
    if buffer == [] || OnChain(c, Last(buffer)) then buffer else PopStale(c, buffer[..|buffer| - 1])
  }

  /** The buffer after a check that found the block in place. */
  function Remember(buffer: seq<Block>, capacity: Capacity, block: Block): seq<Block> {
    if buffer != [] && Last(buffer).hash == block.hash then buffer
    else Pushed(buffer, capacity, block)
  }

  /** The common ancestor for what is left of the buffer, and the buffer afterwards. */
  function CommonAncestor(c: Chain, kept: seq<Block>): (Result<Option<Block>, ScannerError>, seq<Block>) {
    match GetFinalized(c)
    case Err(e) => (Err(e), kept)
    case Ok(finalized) =>
      if kept == [] then (Ok(Some(finalized)), kept)
      else if finalized.number <= Last(kept).number then (Ok(Some(Last(kept))), kept)
      else (Ok(Some(finalized)), [])
  }

  /** A check that sees one snapshot of the chain. */
  function CheckOn(c: Chain, buffer: seq<Block>, capacity: Capacity, block: Block)
    : (Result<Option<Block>, ScannerError>, seq<Block>)
  {
    if OnChain(c, block) then (Ok(None), Remember(buffer, capacity, block))
    else CommonAncestor(c, PopStale(c, buffer))
  }

  /** A check at the current moment. */
  function CheckNow(w: World, buffer: seq<Block>, capacity: Capacity, block: Block)
    : (Result<Option<Block>, ScannerError>, seq<Block>, World)
  {
    var m := Now(w);
    if !m.rpcUp then (Err(RpcError), buffer, Later(w))
    else
      var (r, buffer') := CheckOn(m.chain, buffer, capacity, block);
      (r, buffer', if r.Ok? then Noted(Later(w), Checked(m.chain, buffer, r.value.Some?)) else Later(w))
  }

  // -------------------------------------------------------------------------
  // What an answer means
  // -------------------------------------------------------------------------

  /** All entries are canonical and lie below height `n`. */
  ghost predicate TrueTo(c: Chain, buffer: seq<Block>, n: nat) {
    forall i | 0 <= i < |buffer| :: buffer[i].number < n && OnChain(c, buffer[i])
  }

  lemma PopStaleStep(c: Chain, buffer: seq<Block>)
    ensures PopStale(c, buffer) ==
            if buffer == [] || OnChain(c, Last(buffer)) then buffer else PopStale(c, buffer[..|buffer| - 1])
  {
  }

  lemma {:induction false} PoppedAreStale(c: Chain, buffer: seq<Block>)
    ensures forall i | |PopStale(c, buffer)| <= i < |buffer| :: !OnChain(c, buffer[i])
  {
    if buffer != [] && !OnChain(c, Last(buffer)) {
      PoppedAreStale(c, buffer[..|buffer| - 1]);
    }
  }

  /** A check reports a reorg exactly when the block is not canonical. The ancestor it
      reports is canonical, and its height is the maximum of the finalized height and the
      highest buffered height that is still canonical. */
  lemma CheckAnswer(c: Chain, buffer: seq<Block>, capacity: Capacity, block: Block)
    requires Increasing(buffer)
    ensures var r := CheckOn(c, buffer, capacity, block).0;
            && (r == Ok(None) <==> OnChain(c, block))
            && (r.Err? <==> !OnChain(c, block) && c.finalized == None)
            && (r.Ok? && r.value.Some? ==>
                  var a := r.value.value;
                  && c.finalized.Some?
                  && OnChain(c, a)
                  && c.finalized.value <= a.number
                  && (forall i | 0 <= i < |buffer| && OnChain(c, buffer[i]) :: buffer[i].number <= a.number)
                  && (a.number == c.finalized.value || a in buffer))
  {
    if !OnChain(c, block) {
      var kept := PopStale(c, buffer);
      PoppedAreStale(c, buffer);
      forall i | 0 <= i < |buffer| && OnChain(c, buffer[i])
        ensures kept != [] && buffer[i].number <= Last(kept).number
      {
        assert i < |kept|;
        assert Last(kept) == buffer[|kept| - 1];
      }
    }
  }

  /** For a block and a buffer read from `before`, the reported ancestor lies on the part
      both snapshots share exactly when the finalized height does. */
  lemma AncestorAboveForkIffFinalizedIs(before: Chain, c: Chain, buffer: seq<Block>, capacity: Capacity, block: Block)
    requires OnChain(before, block)
    requires forall i | 0 <= i < |buffer| :: OnChain(before, buffer[i])
    ensures var r := CheckOn(c, buffer, capacity, block).0;
            r.Ok? && r.value.Some? ==>
              && c.finalized.Some?
              && (r.value.value.number < CommonLength(before, c) <==> c.finalized.value < CommonLength(before, c))
  {
    var kept := PopStale(c, buffer);
    if !OnChain(c, block) && kept != [] {
      var e := Last(kept);
      assert e == buffer[|kept| - 1];
      SharedBlock(before, c, e);
      assert AgreeBelow(before, c, e.number + 1);
    }
  }

  lemma PushedTrue(c: Chain, buffer: seq<Block>, capacity: Capacity, block: Block)
    requires Increasing(buffer) && TrueTo(c, buffer, block.number) && OnChain(c, block)
    ensures Increasing(Pushed(buffer, capacity, block))
    ensures TrueTo(c, Pushed(buffer, capacity, block), block.number + 1)
  {
  }

  /** On one chain the newest entry of a buffer up to `block` is `block` or lies below it. */
  lemma RememberTrue(c: Chain, buffer: seq<Block>, capacity: Capacity, block: Block)
    requires Increasing(buffer) && TrueTo(c, buffer, block.number + 1) && OnChain(c, block)
    ensures Increasing(Remember(buffer, capacity, block))
    ensures TrueTo(c, Remember(buffer, capacity, block), block.number + 1)
  {
    if buffer == [] || Last(buffer).hash != block.hash {
      forall i | 0 <= i < |buffer|
        ensures buffer[i].number < block.number
      {
        assert OnChain(c, Last(buffer));
        assert buffer[i].number <= Last(buffer).number < block.number;
      }
      PushedTrue(c, buffer, capacity, block);
    }
  }

  lemma KeptTrue(before: Chain, c: Chain, buffer: seq<Block>)
    requires Increasing(buffer)
    requires forall i | 0 <= i < |buffer| :: OnChain(before, buffer[i])
    ensures var kept := PopStale(c, buffer);
            Increasing(kept) && (kept != [] ==> TrueTo(c, kept, Last(kept).number + 1))
  {
    var kept := PopStale(c, buffer);
    if kept != [] {
      var e := Last(kept);
      assert e == buffer[|kept| - 1];
      SharedBlock(before, c, e);
      AgreeHashes(before, c, e.number + 1);
      forall i | 0 <= i < |kept|
        ensures kept[i].number < e.number + 1 && OnChain(c, kept[i])
      {
        assert kept[i] == buffer[i];
      }
    }
  }

  /** After a check every remaining entry is canonical on the snapshot it saw, and heights
      stay strictly increasing, provided entries were canonical on the snapshot the block
      was read from and no higher than the block. */
  lemma CheckKeepsBufferTrue(before: Chain, c: Chain, buffer: seq<Block>, capacity: Capacity, block: Block)
    requires Increasing(buffer)
    requires OnChain(before, block)
    requires TrueTo(before, buffer, block.number + 1)
    ensures var (r, buffer') := CheckOn(c, buffer, capacity, block);
            && Increasing(buffer')
            && (r == Ok(None) ==> TrueTo(c, buffer', block.number + 1) && AgreeBelow(before, c, block.number + 1))
            && (r.Ok? && r.value.Some? ==> TrueTo(c, buffer', r.value.value.number + 1))
  {
    if OnChain(c, block) {
      SharedBlock(before, c, block);
      AgreeHashes(before, c, block.number + 1);
      assert TrueTo(c, buffer, block.number + 1);
      RememberTrue(c, buffer, capacity, block);
    } else {
      KeptTrue(before, c, buffer);
    }
  }

  /** A check adds nothing but the block itself, and that only when it is in place. */
  lemma CheckEntries(c: Chain, buffer: seq<Block>, capacity: Capacity, block: Block)
    ensures var (r, buffer') := CheckOn(c, buffer, capacity, block);
            forall i | 0 <= i < |buffer'| :: (r == Ok(None) && buffer'[i] == block) || buffer'[i] in buffer
  {
  }

  /** A block found in place becomes the newest entry, once, unless nothing is stored at all;
      what is stored besides is the newest part of what was stored before. */
  lemma CheckRemembers(c: Chain, buffer: seq<Block>, capacity: Capacity, block: Block)
    requires OnChain(c, block) && Fits(buffer, capacity) && capacity != Limited(0)
    ensures var buffer' := CheckOn(c, buffer, capacity, block).1;
            && buffer' != [] && Last(buffer') == block
            && (buffer != [] && Last(buffer) == block ==> buffer' == buffer)
            && (buffer == [] || Last(buffer) != block ==> IsSuffix(buffer', buffer + [block]))
            && (capacity.Infinite? || |buffer| < capacity.limit ==> buffer <= buffer')
  {
  }

  /** A check that finds a reorg keeps the buffer up to its newest entry that is still canonical,
      and reports that entry. It forgets a canonical entry only below the finalized height. */
  lemma ReorgKeepsCanonical(c: Chain, buffer: seq<Block>, capacity: Capacity, block: Block)
    requires Increasing(buffer) && !OnChain(c, block)
    ensures var (r, buffer') := CheckOn(c, buffer, capacity, block);
            && buffer' <= buffer
            && (buffer' != [] ==> OnChain(c, Last(buffer')))
            && (r.Ok? && buffer' != [] ==> r == Ok(Some(Last(buffer'))))
            && forall i | |buffer'| <= i < |buffer| && OnChain(c, buffer[i]) ::
                 c.finalized.Some? && buffer[i].number < c.finalized.value
  {
    var kept := PopStale(c, buffer);
    PoppedAreStale(c, buffer);
    hide PopStale, OnChain;
    forall i | 0 <= i < |kept|
      ensures buffer[i] == kept[i] && buffer[i].number <= Last(kept).number
    {
      assert Last(kept) == buffer[|kept| - 1];
    }
  }

  /** A failed RPC leaves the buffer alone and records nothing. */
  lemma FailedCheckKeepsBuffer(w: World, buffer: seq<Block>, capacity: Capacity, block: Block)
    requires !Now(w).rpcUp
    ensures CheckNow(w, buffer, capacity, block) == (Err(RpcError), buffer, Later(w))
  {
  }

  // -------------------------------------------------------------------------
  // A bounded buffer refines the unbounded one
  // -------------------------------------------------------------------------

  datatype Query = Query(chain: Chain, block: Block)

  /** All answers of a sequence of checks. */
  function CheckAll(queries: seq<Query>, buffer: seq<Block>, capacity: Capacity)
    : (answers: seq<Result<Option<Block>, ScannerError>>)
    ensures |answers| == |queries|
    decreases |queries|
  {
    if queries == [] then []
    else
      var (r, buffer') := CheckOn(queries[0].chain, buffer, capacity, queries[0].block);
      [r] + CheckAll(queries[1..], buffer', capacity)
  }

  function BufferAfter(queries: seq<Query>, buffer: seq<Block>, capacity: Capacity): seq<Block>
    decreases |queries|
  {
    if queries == [] then buffer
    else BufferAfter(queries[1..], CheckOn(queries[0].chain, buffer, capacity, queries[0].block).1, capacity)
  }

  /** The answer of a bounded handler next to the answer of an unbounded one. */
  predicate SafeAnswer(bounded: Result<Option<Block>, ScannerError>, unbounded: Result<Option<Block>, ScannerError>) {
    match unbounded
    case Err(e) => bounded == Err(e)
    case Ok(None) => bounded == Ok(None)
    case Ok(Some(a)) => bounded.Ok? && bounded.value.Some? && bounded.value.value.number <= a.number
  }

  lemma {:induction false} PopStaleSuffix(c: Chain, s: seq<Block>, t: seq<Block>)
    requires IsSuffix(s, t)
    ensures var s' := PopStale(c, s);
            var t' := PopStale(c, t);
            IsSuffix(s', t') && (s' != [] ==> t' != [] && Last(s') == Last(t'))
  {
    if s != [] {
      assert Last(s) == Last(t);
      if !OnChain(c, Last(s)) {
        assert IsSuffix(s[..|s| - 1], t[..|t| - 1]);
        PopStaleSuffix(c, s[..|s| - 1], t[..|t| - 1]);
      }
    }
  }

  lemma RememberSuffix(s: seq<Block>, t: seq<Block>, limit: nat, block: Block)
    requires IsSuffix(s, t) && |s| <= limit
    ensures IsSuffix(Remember(s, Limited(limit), block), Remember(t, Infinite, block))
  {
    if s != [] {
      assert Last(s) == Last(t);
      SuffixConcat(s, t, [block]);
      SuffixConcat(s[1..], t, [block]);
    } else if t != [] && Last(t).hash == block.hash {
      assert t[|t| - 1..] == [block];
    }
  }

  lemma CommonAncestorSuffix(c: Chain, s: seq<Block>, t: seq<Block>)
    requires IsSuffix(s, t) && (s != [] ==> Last(s) == Last(t))
    ensures var (r, s') := CommonAncestor(c, s);
            var (q, t') := CommonAncestor(c, t);
            SafeAnswer(r, q) && IsSuffix(s', t')
  {
  }

  lemma BoundedCheckStep(c: Chain, s: seq<Block>, t: seq<Block>, limit: nat, block: Block)
    requires IsSuffix(s, t) && |s| <= limit
    ensures var (r, s') := CheckOn(c, s, Limited(limit), block);
            var (q, t') := CheckOn(c, t, Infinite, block);
            SafeAnswer(r, q) && IsSuffix(s', t') && |s'| <= limit
  {
    if OnChain(c, block) {
      RememberSuffix(s, t, limit, block);
    } else {
      PopStaleSuffix(c, s, t);
      CommonAncestorSuffix(c, PopStale(c, s), PopStale(c, t));
    }
  }

  /** For any sequence of checks over any sequence of snapshots, a bounded handler reports
      reorgs on the same calls as an unbounded one, never with a higher ancestor, and its
      buffer stays a suffix of the unbounded buffer. */
  lemma {:induction false} BoundedRefinesUnbounded(queries: seq<Query>, s: seq<Block>, t: seq<Block>, limit: nat)
    requires IsSuffix(s, t) && |s| <= limit
    ensures IsSuffix(BufferAfter(queries, s, Limited(limit)), BufferAfter(queries, t, Infinite))
    ensures forall i | 0 <= i < |queries| ::
              SafeAnswer(CheckAll(queries, s, Limited(limit))[i], CheckAll(queries, t, Infinite)[i])
    decreases |queries|
  {
    if queries != [] {
      var q := queries[0];
      BoundedCheckStep(q.chain, s, t, limit, q.block);
      var s' := CheckOn(q.chain, s, Limited(limit), q.block).1;
      var t' := CheckOn(q.chain, t, Infinite, q.block).1;
      BoundedRefinesUnbounded(queries[1..], s', t', limit);
    }
  }

  /** Capacity zero stores nothing, yet reorgs are still detected; the ancestor is then
      always the finalized block. */
  lemma {:induction false} CapacityZeroStillDetects(queries: seq<Query>, i: nat)
    requires i < |queries|
    ensures BufferAfter(queries, [], Limited(0)) == []
    ensures var q := queries[i];
            CheckAll(queries, [], Limited(0))[i] ==
              if OnChain(q.chain, q.block) then Ok(None)
              else match GetFinalized(q.chain)
                case Ok(f) => Ok(Some(f))
                case Err(e) => Err(e)
    decreases |queries|
  {
    if |queries| == 1 {
      assert queries[1..] == [];
    } else if i > 0 {
      CapacityZeroStillDetects(queries[1..], i - 1);
    } else {
      CapacityZeroStillDetects(queries[1..], 0);
    }
  }

  // -------------------------------------------------------------------------
  // What a sequence of checks remembers
  // -------------------------------------------------------------------------

  /** Check `k` found its block in place, and every reorg found since then left it there. */
  ghost predicate Alive(queries: seq<Query>, k: nat, i: nat)
    requires i <= |queries|
  {
    && k < i && OnChain(queries[k].chain, queries[k].block)
    && forall j | k < j < i && !OnChain(queries[j].chain, queries[j].block) :: OnChain(queries[j].chain, queries[k].block)
  }

  /** Each block was read from a snapshot on which all that is alive is canonical, and lies no
      lower. */
  ghost predicate ReadInOrder(queries: seq<Query>, origins: seq<Chain>) {
    && |origins| == |queries|
    && (forall i | 0 <= i < |queries| :: OnChain(origins[i], queries[i].block))
    && forall i, k | 0 <= k < i < |queries| && Alive(queries, k, i) ::
         OnChain(origins[i], queries[k].block) && queries[k].block.number <= queries[i].block.number
  }

  ghost predicate FinalityGrows(queries: seq<Query>) {
    forall i, j | 0 <= i < j < |queries| && queries[i].chain.finalized.Some? ::
      queries[j].chain.finalized.Some? && queries[i].chain.finalized.value <= queries[j].chain.finalized.value
  }

  lemma {:induction false} BufferAfterNext(queries: seq<Query>, buffer: seq<Block>, capacity: Capacity, i: nat)
    requires i < |queries|
    ensures var b := BufferAfter(queries[..i], buffer, capacity);
            && BufferAfter(queries[..i + 1], buffer, capacity) == CheckOn(queries[i].chain, b, capacity, queries[i].block).1
            && CheckAll(queries, buffer, capacity)[i] == CheckOn(queries[i].chain, b, capacity, queries[i].block).0
    decreases i
  {
    hide CheckOn;
    if i == 0 {
      assert queries[..1][1..] == [];
    } else {
      var buffer' := CheckOn(queries[0].chain, buffer, capacity, queries[0].block).1;
      BufferAfterNext(queries[1..], buffer', capacity, i - 1);
      assert queries[..i][1..] == queries[1..][..i - 1] && queries[..i + 1][1..] == queries[1..][..i];
    }
  }

  ghost predicate IsAlive(queries: seq<Query>, i: nat, block: Block)
    requires i <= |queries|
  {
    exists k | 0 <= k < i :: Alive(queries, k, i) && queries[k].block == block
  }

  ghost predicate Finalized(queries: seq<Query>, i: nat, n: nat)
    requires i <= |queries|
  {
    exists j | 0 <= j < i :: queries[j].chain.finalized.Some? && n < queries[j].chain.finalized.value
  }

  /** The buffer holds what is alive, except for blocks that are finalized. */
  ghost predicate Remembered(queries: seq<Query>, i: nat, buffer: seq<Block>)
    requires i <= |queries|
  {
    && Increasing(buffer)
    && (forall n | 0 <= n < |buffer| :: IsAlive(queries, i, buffer[n]))
    && forall k | 0 <= k < i && Alive(queries, k, i) ::
         queries[k].block in buffer || Finalized(queries, i, queries[k].block.number)
  }

  lemma AliveNext(queries: seq<Query>, i: nat)
    requires i < |queries|
    ensures var q := queries[i];
            && (forall k | 0 <= k < i :: Alive(queries, k, i + 1) <==>
                  Alive(queries, k, i) && (OnChain(q.chain, q.block) || OnChain(q.chain, queries[k].block)))
            && (Alive(queries, i, i + 1) <==> OnChain(q.chain, q.block))
  {
  }

  lemma RememberedIsTrue(queries: seq<Query>, origins: seq<Chain>, i: nat, buffer: seq<Block>)
    requires i < |queries| && ReadInOrder(queries, origins) && Remembered(queries, i, buffer)
    ensures TrueTo(origins[i], buffer, queries[i].block.number + 1)
  {
    forall n | 0 <= n < |buffer|
      ensures OnChain(origins[i], buffer[n]) && buffer[n].number <= queries[i].block.number
    {
      assert IsAlive(queries, i, buffer[n]);
      var k :| 0 <= k < i && Alive(queries, k, i) && queries[k].block == buffer[n];
    }
  }

  lemma FinalizedNext(queries: seq<Query>, i: nat, n: nat)
    requires i < |queries|
    ensures Finalized(queries, i, n) ==> Finalized(queries, i + 1, n)
    ensures queries[i].chain.finalized.Some? && n < queries[i].chain.finalized.value ==> Finalized(queries, i + 1, n)
  {
  }

  lemma CleanCheckRemembers(queries: seq<Query>, origins: seq<Chain>, i: nat, buffer: seq<Block>)
    requires i < |queries| && ReadInOrder(queries, origins) && Remembered(queries, i, buffer)
    requires OnChain(queries[i].chain, queries[i].block)
    ensures Remembered(queries, i + 1, Remember(buffer, Infinite, queries[i].block))
  {
    var block := queries[i].block;
    var buffer' := Remember(buffer, Infinite, block);
    RememberedIsTrue(queries, origins, i, buffer);
    RememberTrue(origins[i], buffer, Infinite, block);
    AliveNext(queries, i);
    assert block in buffer' by { assert Last(buffer') == block; }
    hide OnChain, Alive, Increasing, TrueTo;
    forall n | 0 <= n < |buffer'|
      ensures IsAlive(queries, i + 1, buffer'[n])
    {
      if n < |buffer| {
        assert IsAlive(queries, i, buffer[n]);
        var k :| 0 <= k < i && Alive(queries, k, i) && queries[k].block == buffer[n];
        assert Alive(queries, k, i + 1);
      } else {
        assert Alive(queries, i, i + 1);
      }
    }
    forall k | 0 <= k < i + 1 && Alive(queries, k, i + 1)
      ensures queries[k].block in buffer' || Finalized(queries, i + 1, queries[k].block.number)
    {
      if k < i {
        assert Alive(queries, k, i);
        FinalizedNext(queries, i, queries[k].block.number);
      }
    }
  }

  /** What is left of the buffer at a reorg. */
  ghost predicate LeftAt(c: Chain, buffer: seq<Block>, left: seq<Block>) {
    && left <= buffer
    && (forall n | 0 <= n < |left| :: OnChain(c, left[n]))
    && forall n | |left| <= n < |buffer| && OnChain(c, buffer[n]) ::
         c.finalized.Some? && buffer[n].number < c.finalized.value
  }

  lemma ReorgLeaves(before: Chain, c: Chain, buffer: seq<Block>, block: Block)
    requires Increasing(buffer) && TrueTo(before, buffer, block.number + 1) && OnChain(before, block) && !OnChain(c, block)
    ensures var left := CheckOn(c, buffer, Infinite, block).1;
            Increasing(left) && LeftAt(c, buffer, left)
  {
    hide CheckOn, PopStale;
    ReorgKeepsCanonical(c, buffer, Infinite, block);
    CheckKeepsBufferTrue(before, c, buffer, Infinite, block);
    var (r, left) := CheckOn(c, buffer, Infinite, block);
    LeftIsCanonical(before, c, buffer, left);
  }

  lemma LeftIsCanonical(before: Chain, c: Chain, buffer: seq<Block>, left: seq<Block>)
    requires Increasing(buffer) && left <= buffer && (left != [] ==> OnChain(c, Last(left)))
    requires forall n | 0 <= n < |buffer| :: OnChain(before, buffer[n])
    ensures Increasing(left) && forall n | 0 <= n < |left| :: OnChain(c, left[n])
  {
    if left != [] {
      var e := Last(left);
      assert e == buffer[|left| - 1];
      SharedBlock(before, c, e);
      AgreeHashes(before, c, e.number + 1);
      forall n | 0 <= n < |left|
        ensures left[n].number < e.number + 1 && OnChain(c, left[n])
      {
        assert left[n] == buffer[n];
      }
    }
  }

  lemma LeftAreAlive(queries: seq<Query>, i: nat, buffer: seq<Block>, left: seq<Block>)
    requires i < |queries| && Remembered(queries, i, buffer) && LeftAt(queries[i].chain, buffer, left)
    ensures forall n | 0 <= n < |left| :: IsAlive(queries, i + 1, left[n])
  {
    AliveNext(queries, i);
    hide Alive, OnChain, Increasing;
    forall n | 0 <= n < |left|
      ensures IsAlive(queries, i + 1, left[n])
    {
      assert left[n] == buffer[n] && IsAlive(queries, i, buffer[n]);
      var k :| 0 <= k < i && Alive(queries, k, i) && queries[k].block == buffer[n];
      assert Alive(queries, k, i + 1);
    }
  }

  lemma AliveAreLeft(queries: seq<Query>, i: nat, buffer: seq<Block>, left: seq<Block>, k: nat)
    requires i < |queries| && Remembered(queries, i, buffer) && LeftAt(queries[i].chain, buffer, left)
    requires !OnChain(queries[i].chain, queries[i].block) && k < i + 1 && Alive(queries, k, i + 1)
    ensures queries[k].block in left || Finalized(queries, i + 1, queries[k].block.number)
  {
    AliveNext(queries, i);
    var block := queries[k].block;
    FinalizedNext(queries, i, block.number);
    hide Alive, OnChain, Increasing, Finalized, IsAlive;
    if block in buffer {
      var n :| 0 <= n < |buffer| && buffer[n] == block;
      assert n < |left| ==> left[n] == block;
    }
  }

  lemma ReorgCheckRemembers(queries: seq<Query>, origins: seq<Chain>, i: nat, buffer: seq<Block>)
    requires i < |queries| && ReadInOrder(queries, origins) && Remembered(queries, i, buffer)
    requires !OnChain(queries[i].chain, queries[i].block)
    ensures Remembered(queries, i + 1, CheckOn(queries[i].chain, buffer, Infinite, queries[i].block).1)
  {
    hide CheckOn, OnChain, Alive, LeftAt, Finalized, IsAlive;
    var left := CheckOn(queries[i].chain, buffer, Infinite, queries[i].block).1;
    RememberedIsTrue(queries, origins, i, buffer);
    ReorgLeaves(origins[i], queries[i].chain, buffer, queries[i].block);
    LeftAreAlive(queries, i, buffer, left);
    forall k | 0 <= k < i + 1 && Alive(queries, k, i + 1)
      ensures queries[k].block in left || Finalized(queries, i + 1, queries[k].block.number)
    {
      AliveAreLeft(queries, i, buffer, left, k);
    }
  }

  lemma {:induction false} ChecksRemember(queries: seq<Query>, origins: seq<Chain>, i: nat)
    requires i <= |queries| && ReadInOrder(queries, origins)
    ensures Remembered(queries, i, BufferAfter(queries[..i], [], Infinite))
  {
    hide Remembered, CheckOn, ReadInOrder;
    if i == 0 {
      NothingRemembered(queries);
    } else {
      ChecksRemember(queries, origins, i - 1);
      var q, buffer := queries[i - 1], BufferAfter(queries[..i - 1], [], Infinite);
      BufferAfterNext(queries, [], Infinite, i - 1);
      if OnChain(q.chain, q.block) {
        CleanCheckRemembers(queries, origins, i - 1, buffer);
        CleanCheck(q.chain, buffer, q.block);
      } else {
        ReorgCheckRemembers(queries, origins, i - 1, buffer);
      }
    }
  }

  lemma CleanCheck(c: Chain, buffer: seq<Block>, block: Block)
    requires OnChain(c, block)
    ensures CheckOn(c, buffer, Infinite, block).1 == Remember(buffer, Infinite, block)
  {
  }

  lemma NothingRemembered(queries: seq<Query>)
    ensures Remembered(queries, 0, BufferAfter(queries[..0], [], Infinite))
  {
  }

  /** Over any sequence of checks with an unbounded buffer, in which finality never retreats: the
      reported ancestor is the highest of the finalized block and the blocks that an earlier check
      found in place, that every reorg since then left in place, and that are in place now. */
  lemma AncestorIsHighestAlive(queries: seq<Query>, origins: seq<Chain>, i: nat)
    requires i < |queries| && ReadInOrder(queries, origins) && FinalityGrows(queries)
    ensures var r := CheckAll(queries, [], Infinite)[i];
            var c := queries[i].chain;
            && (r == Ok(None) <==> OnChain(c, queries[i].block))
            && (r.Err? <==> !OnChain(c, queries[i].block) && c.finalized == None)
            && (r.Ok? && r.value.Some? ==>
                  var a := r.value.value;
                  && OnChain(c, a) && c.finalized.Some? && c.finalized.value <= a.number
                  && (forall k | 0 <= k < i && Alive(queries, k, i) && OnChain(c, queries[k].block) ::
                        queries[k].block.number <= a.number)
                  && (a.number == c.finalized.value || IsAlive(queries, i, a)))
  {
    hide Alive, CheckOn, OnChain, CheckAll, BufferAfter;
    var c, buffer := queries[i].chain, BufferAfter(queries[..i], [], Infinite);
    ChecksRemember(queries, origins, i);
    BufferAfterNext(queries, [], Infinite, i);
    CheckAnswer(c, buffer, Infinite, queries[i].block);
    var r := CheckAll(queries, [], Infinite)[i];
    if r.Ok? && r.value.Some? {
      var a := r.value.value;
      forall k | 0 <= k < i && Alive(queries, k, i) && OnChain(c, queries[k].block)
        ensures queries[k].block.number <= a.number
      {
        var block := queries[k].block;
        if block in buffer {
          var n :| 0 <= n < |buffer| && buffer[n] == block;
        } else {
          assert Finalized(queries, i, block.number);
          var j :| 0 <= j < i && queries[j].chain.finalized.Some? && block.number < queries[j].chain.finalized.value;
        }
      }
    }
  }

  // -------------------------------------------------------------------------
  // The handler
  // -------------------------------------------------------------------------

  class DefaultReorgHandler {
    const buffer: RingBuffer<Block>

    ghost predicate Valid()
      reads this, buffer
    {
      buffer.Valid()
    }

    constructor (capacity: Capacity)
      ensures Valid() && fresh(buffer) && buffer.inner == [] && buffer.capacity == capacity
    {
      buffer := new RingBuffer<Block>(capacity);
    }

    method Check(env: Environment, block: Block) returns (r: Result<Option<Block>, ScannerError>)
      requires Valid()
      modifies env, buffer
      ensures Valid()
      ensures (r, buffer.inner, env.w) == CheckNow(old(env.w), old(buffer.inner), buffer.capacity, block)
    {
      var m := env.Observe();
      if !m.rpcUp {
        return Err(RpcError);
      }
      var asked := buffer.inner;
      r := CheckSnapshot(m.chain, block);
      if r.Ok? {
        env.Record(Checked(m.chain, asked, r.value.Some?));
      }
    }

    method CheckSnapshot(c: Chain, block: Block) returns (r: Result<Option<Block>, ScannerError>)
      requires Valid()
      modifies buffer
      ensures Valid()
      ensures (r, buffer.inner) == CheckOn(c, old(buffer.inner), buffer.capacity, block)
    {
      var canonical := GetBlockByNumber(c, block.number);
      if canonical.Ok? && canonical.value.hash == block.hash {
        var back := buffer.Back();
        if !(back.Some? && back.value.hash == block.hash) {
          buffer.Push(block);
        }
        return Ok(None);
      }
      var ancestor := PopToCanonical(c);
      if ancestor.Some? {
        r := ReturnCommonAncestor(c, ancestor.value);
      } else {
        match GetFinalized(c) {
          case Err(e) => r := Err(e);
          case Ok(finalized) => r := Ok(Some(finalized));
        }
      }
    }

    /** Pops entries that left the chain and returns the newest one that did not. */
    method PopToCanonical(c: Chain) returns (r: Option<Block>)
      requires Valid()
      modifies buffer
      ensures Valid()
      ensures buffer.inner == PopStale(c, old(buffer.inner))
      ensures r == if buffer.inner == [] then None else Some(Last(buffer.inner))
    {
      hide PopStale;
      r := buffer.Back();
      while r.Some?
        invariant Valid()
        invariant r == if buffer.inner == [] then None else Some(Last(buffer.inner))
        invariant PopStale(c, buffer.inner) == PopStale(c, old(buffer.inner))
        decreases |buffer.inner|
      {
        PopStaleStep(c, buffer.inner);
        var candidate := GetBlockByNumber(c, r.value.number);
        if candidate.Ok? && candidate.value.hash == r.value.hash {
          return;
        }
        ghost var before := buffer.inner;
        var _ := buffer.PopBack();
        assert buffer.inner == before[..|before| - 1];
        r := buffer.Back();
      }
      PopStaleStep(c, []);
    }

    method ReturnCommonAncestor(c: Chain, ancestor: Block) returns (r: Result<Option<Block>, ScannerError>)
      requires Valid() && buffer.inner != [] && Last(buffer.inner) == ancestor
      modifies buffer
      ensures Valid()
      ensures (r, buffer.inner) == CommonAncestor(c, old(buffer.inner))
    {
      match GetFinalized(c) {
        case Err(e) =>
          r := Err(e);
        case Ok(finalized) =>
          if finalized.number <= ancestor.number {
            r := Ok(Some(ancestor));
          } else {
            buffer.Clear();
            r := Ok(Some(finalized));
          }
      }
    }
  }
}
