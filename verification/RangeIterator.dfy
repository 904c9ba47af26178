/** Batching of an inclusive block interval into ranges of bounded size. */
module RangeIterator {
  import opened U64
  import opened Wrappers

  datatype Range = Range(lo: nat, hi: nat)

  // -------------------------------------------------------------------------
  // What an iterator is meant to produce
  // -------------------------------------------------------------------------

  /** The heights `lo..=hi` in ascending order. */
  function Interval(lo: nat, hi: nat): seq<nat>
    decreases hi + 1 - lo
  {
    if lo > hi then [] else [lo] + Interval(lo + 1, hi)
  }

  /** All heights of a list of ranges, one after the other. */
  function Heights(ranges: seq<Range>): seq<nat> {
    if ranges == [] then [] else Interval(ranges[0].lo, ranges[0].hi) + Heights(ranges[1..])
  }

  function Reversed<T>(s: seq<T>): (r: seq<T>)
    ensures |r| == |s|
  {
    if s == [] then [] else Reversed(s[1..]) + [s[0]]
  }

  /** Last height of the batch that starts at `lo`. */
  function BatchEnd(lo: nat, hi: nat, size: nat): nat
    requires size >= 1 && lo <= hi
  {
    Min(lo + size - 1, hi)
  }

  /** First height of the descending batch that ends at `hi`. */
  function BatchLow(hi: nat, lo: nat, size: nat): nat
    requires size >= 1 && lo <= hi
  {
    Max(SaturatingSub(hi, size - 1), lo)
  }

  /** Ascending batches of `lo..=hi`. */
  function Tiling(lo: nat, hi: nat, size: nat): seq<Range>
    requires size >= 1
    decreases hi + 1 - lo
  {
    if lo > hi then []
    else [Range(lo, BatchEnd(lo, hi, size))] + Tiling(BatchEnd(lo, hi, size) + 1, hi, size)
  }

  /** Descending batches of `lo..=hi`, the highest first. */
  function DescTiling(hi: nat, lo: nat, size: nat): seq<Range>
    requires size >= 1
    decreases hi
  {
    if hi < lo then []
    else
      var low := BatchLow(hi, lo, size);
      [Range(low, hi)] + (if low == lo then [] else DescTiling(low - 1, lo, size))
  }

  /** The number of batches the iterators compute up front. */
  function BatchCount(lo: nat, hi: nat, size: nat): nat
    requires size >= 1
  {
    if lo > hi then 0 else (hi - lo) / size + 1
  }

  // -------------------------------------------------------------------------
  // The batches are an exact partition
  // -------------------------------------------------------------------------

  lemma {:induction false} IntervalSplit(lo: nat, mid: nat, hi: nat)
    requires lo <= mid + 1 <= hi + 1
    ensures Interval(lo, hi) == Interval(lo, mid) + Interval(mid + 1, hi)
    decreases mid + 1 - lo
  {
    if lo <= mid {
      IntervalSplit(lo + 1, mid, hi);
    }
  }

  lemma {:induction false} IntervalIndex(lo: nat, hi: nat)
    ensures |Interval(lo, hi)| == if lo > hi then 0 else hi + 1 - lo
    ensures forall k | 0 <= k < |Interval(lo, hi)| :: Interval(lo, hi)[k] == lo + k
    decreases hi + 1 - lo
  {
    if lo <= hi {
      IntervalIndex(lo + 1, hi);
    }
  }

  lemma {:induction false} HeightsConcat(a: seq<Range>, b: seq<Range>)
    ensures Heights(a + b) == Heights(a) + Heights(b)
  {
    hide Interval;
    if a == [] {
      assert a + b == b;
    } else {
      HeightsConcat(a[1..], b);
      assert (a + b)[1..] == a[1..] + b;
      assert (a + b)[0] == a[0];
    }
  }

  /** A batch is full unless it is the last one. */
  ghost predicate FullButLast(ranges: seq<Range>, size: nat) {
    forall i | 0 <= i < |ranges| ::
      && ranges[i].lo <= ranges[i].hi
      && ranges[i].hi - ranges[i].lo < size
      && (i + 1 < |ranges| ==> ranges[i].hi - ranges[i].lo + 1 == size)
  }

  lemma {:induction false} CountStep(lo: nat, hi: nat, size: nat)
    requires size >= 1 && lo <= hi
    ensures BatchCount(lo, hi, size) == 1 + BatchCount(BatchEnd(lo, hi, size) + 1, hi, size)
  {
    if lo + size - 1 < hi {
      var n := hi - lo;
      assert n / size == (n - size) / size + 1 by { DivStep(n, size); }
    } else {
      assert (hi - lo) / size == 0 by { DivSmall(hi - lo, size); }
    }
  }

  /** The number of batches fits 64 bits as long as the end is not the largest block number. */
  lemma {:induction false} CountFits(lo: nat, hi: nat, size: nat)
    requires size >= 1
    ensures lo <= hi ==> BatchCount(lo, hi, size) <= hi + 1 - lo
    decreases hi + 1 - lo
  {
    if lo <= hi {
      CountStep(lo, hi, size);
      CountFits(BatchEnd(lo, hi, size) + 1, hi, size);
    }
  }

  /** There are 2^64 batches only if every height is a batch of its own. */
  lemma CountOverflows(lo: nat, hi: nat, size: nat)
    requires size >= 1 && lo <= hi
    ensures size == 1 ==> BatchCount(lo, hi, size) == hi + 1 - lo
    ensures size > 1 && lo < hi ==> BatchCount(lo, hi, size) < hi + 1 - lo
  {
    if size == 1 {
      DivUnique(hi - lo, 1, hi - lo, 0);
    } else if lo < hi {
      CountStep(lo, hi, size);
      CountFits(BatchEnd(lo, hi, size) + 1, hi, size);
    }
  }

  lemma DivStep(n: nat, d: nat)
    requires 1 <= d <= n
    ensures n / d == (n - d) / d + 1
  {
    var q, r := (n - d) / d, (n - d) % d;
    assert n - d == d * q + r;
    assert n == d * (q + 1) + r;
    DivUnique(n, d, q + 1, r);
  }

  lemma DivSmall(n: nat, d: nat)
    requires n < d
    ensures n / d == 0
  {
    DivUnique(n, d, 0, n);
  }

  lemma DivUnique(n: nat, d: nat, q: nat, r: nat)
    requires d >= 1 && r < d && n == d * q + r
    ensures n / d == q
  {
    var q' := n / d;
    assert n == d * q' + n % d;
    MulGap(d, q, q');
    MulGap(d, q', q);
  }

  lemma {:induction false} MulGap(d: nat, a: nat, b: nat)
    ensures a < b ==> d * a + d <= d * b
    decreases b
  {
    if a < b {
      MulGap(d, a, b - 1);
      assert d * b == d * (b - 1) + d;
    }
  }

  lemma TilingStep(lo: nat, hi: nat, size: nat)
    requires size >= 1 && lo <= hi
    ensures var e := BatchEnd(lo, hi, size);
            && Tiling(lo, hi, size) == [Range(lo, e)] + Tiling(e + 1, hi, size)
            && (BatchCount(e + 1, hi, size) == 0 <==> e == hi)
            && (e == hi ==> Tiling(e + 1, hi, size) == [])
  {
  }

  /** Ascending batches cover every height of the interval once, in order, and their
      number is the one computed up front. */
  lemma {:induction false} TilingIsPartition(lo: nat, hi: nat, size: nat)
    requires size >= 1
    ensures Heights(Tiling(lo, hi, size)) == Interval(lo, hi)
    ensures FullButLast(Tiling(lo, hi, size), size)
    ensures |Tiling(lo, hi, size)| == BatchCount(lo, hi, size)
    decreases hi + 1 - lo
  {
    if lo <= hi {
      var e := BatchEnd(lo, hi, size);
      TilingIsPartition(e + 1, hi, size);
      IntervalSplit(lo, e, hi);
      CountStep(lo, hi, size);
      assert Tiling(lo, hi, size)[1..] == Tiling(e + 1, hi, size);
    }
  }

  lemma {:induction false} DescCountStep(hi: nat, lo: nat, size: nat)
    requires size >= 1 && lo <= hi
    ensures var low := BatchLow(hi, lo, size);
            BatchCount(lo, hi, size) == 1 + (if low == lo then 0 else BatchCount(lo, low - 1, size))
  {
    if lo + size - 1 < hi {
      DivStep(hi - lo, size);
    } else {
      DivSmall(hi - lo, size);
    }
  }

  lemma {:induction false} ReversedSnoc<T>(x: T, s: seq<T>)
    ensures Reversed([x] + s) == Reversed(s) + [x]
  {
    assert ([x] + s)[1..] == s;
  }

  /** Descending batches, read from the last to the first, cover every height of the
      interval once, in order. */
  lemma {:induction false} DescTilingIsPartition(hi: nat, lo: nat, size: nat)
    requires size >= 1
    ensures Heights(Reversed(DescTiling(hi, lo, size))) == Interval(lo, hi)
    ensures FullButLast(DescTiling(hi, lo, size), size)
    ensures |DescTiling(hi, lo, size)| == BatchCount(lo, hi, size)
    decreases hi
  {
    if lo <= hi {
      var low := BatchLow(hi, lo, size);
      var rest := if low == lo then [] else DescTiling(low - 1, lo, size);
      DescCountStep(hi, lo, size);
      ReversedSnoc(Range(low, hi), rest);
      HeightsConcat(Reversed(rest), [Range(low, hi)]);
      assert Heights([Range(low, hi)]) == Interval(low, hi);
      if low == lo {
        assert DescTiling(hi, lo, size) == [Range(low, hi)];
      } else {
        DescTilingIsPartition(low - 1, lo, size);
        IntervalSplit(lo, low - 1, hi);
      }
    }
  }

  // -------------------------------------------------------------------------
  // The iterators
  // -------------------------------------------------------------------------

  /** Yields ranges from the oldest block to the newest. Arithmetic that leaves the 64 bits wraps
      around, as in a release build. */
  class ForwardIterator {
    var current: nat
    const end: nat
    const rangeSize: nat
    var batchCount: nat
    var totalBatches: nat

    ghost predicate Valid()
      reads this
    {
      && rangeSize >= 1
      && end <= U64_MAX
      && current <= U64_MAX
      && batchCount <= totalBatches
      && (batchCount < totalBatches ==>
            current <= end && totalBatches - batchCount == BatchCount(current, end, rangeSize))
      && (batchCount == totalBatches && end < U64_MAX ==> current > end)
    }

    ghost function Remaining(): seq<Range>
      requires rangeSize >= 1
      reads this
    {
      if batchCount == totalBatches then [] else Tiling(current, end, rangeSize)
    }

    /** Only an iterator over all 2^64 heights one by one has nothing to yield: its count wraps. */
    constructor (start: nat, end: nat, maxBlockRange: nat)
      requires maxBlockRange >= 1 && start <= U64_MAX && end <= U64_MAX
      ensures Valid() && this.end == end && rangeSize == maxBlockRange && current == start
      ensures Remaining() == if start == 0 && end == U64_MAX && maxBlockRange == 1 then [] else Tiling(start, end, maxBlockRange)
      ensures batchCount == 0 && totalBatches <= U64_MAX
    {
      CountFits(start, end, maxBlockRange);
      if start <= end {
        CountOverflows(start, end, maxBlockRange);
      }
      this.current := start;
      this.end := end;
      this.rangeSize := maxBlockRange;
      this.batchCount := 0;
      this.totalBatches := if start > end then 0 else WrappingAdd((end - start) / maxBlockRange, 1);
    }

    /** Continues from a new position, after a reorg. */
    method ResetTo(block: nat)
      requires Valid() && block <= U64_MAX
      modifies this
      ensures Valid() && current == block
      ensures batchCount == old(batchCount)
      ensures Remaining() == Tiling(block, end, rangeSize)
    {
      var remaining := if block > end then 0 else (end - block) / rangeSize + 1;
      assert remaining == BatchCount(block, end, rangeSize);
      assert block > end ==> Tiling(block, end, rangeSize) == [];
      assert block <= end ==> remaining >= 1;
      hide Tiling, BatchCount;
      current := block;
      totalBatches := batchCount + remaining;
    }

    method Next() returns (r: Option<Range>)
      requires Valid()
      modifies this
      ensures Valid()
      ensures r == None ==> current == old(current) && batchCount == old(batchCount)
      ensures r != None ==>
                && old(current) <= end && r == Some(Range(old(current), BatchEnd(old(current), end, rangeSize)))
                && current == WrappingAdd(r.value.hi, 1) && batchCount == old(batchCount) + 1
      ensures old(Remaining()) == if r == None then [] else [r.value] + Remaining()
      ensures end < U64_MAX ==> (r == None <==> old(current) > end)
    {
      if batchCount >= totalBatches {
        return None;
      }
      CountStep(current, end, rangeSize);
      var batchStart := current;
      var batchEnd := Min(SaturatingAdd(batchStart, rangeSize - 1), end);
      current := WrappingAdd(batchEnd, 1);
      batchCount := batchCount + 1;
      r := Some(Range(batchStart, batchEnd));
      hide Tiling;
      TilingStep(batchStart, end, rangeSize);
    }

    /** Lower bound of the size hint on a machine whose `usize` ends at `usizeMax`. */
    method SizeHint(usizeMax: nat) returns (n: nat)
      requires Valid()
      ensures n == Min(|Remaining()|, usizeMax)
    {
      TilingIsPartition(current, end, rangeSize);
      var remaining := totalBatches - batchCount;
      n := if remaining <= usizeMax then remaining else usizeMax;
    }
  }

  /** Yields ranges from the newest block to the oldest; `current` saturates at zero. */
  class ReverseIterator {
    var current: nat
    const end: nat
    const rangeSize: nat
    var batchCount: nat
    const totalBatches: nat

    ghost predicate Valid()
      reads this
    {
      && rangeSize >= 1
      && batchCount <= totalBatches
      && (batchCount < totalBatches ==>
            end <= current && totalBatches - batchCount == BatchCount(end, current, rangeSize))
    }

    ghost function Remaining(): seq<Range>
      requires rangeSize >= 1
      reads this
    {
      if batchCount == totalBatches then [] else DescTiling(current, end, rangeSize)
    }

    constructor (start: nat, end: nat, maxBlockRange: nat)
      requires maxBlockRange >= 1
      ensures Valid() && this.end == end && rangeSize == maxBlockRange
      ensures Remaining() == DescTiling(start, end, maxBlockRange)
    {
      this.current := start;
      this.end := end;
      this.rangeSize := maxBlockRange;
      this.batchCount := 0;
      this.totalBatches := if start < end then 0 else (start - end) / maxBlockRange + 1;
    }

    method Next() returns (r: Option<Range>)
      requires Valid()
      modifies this
      ensures Valid()
      ensures r == None <==> old(Remaining()) == []
      ensures r == None ==> batchCount == old(batchCount) && current == old(current)
      ensures r != None ==> batchCount == old(batchCount) + 1
      ensures old(Remaining()) == if r == None then [] else [r.value] + Remaining()
    {
      if batchCount >= totalBatches {
        return None;
      }
      DescCountStep(current, end, rangeSize);
      var batchHigh := current;
      var batchLow := Max(SaturatingSub(batchHigh, rangeSize - 1), end);
      current := SaturatingSub(batchLow, 1);
      batchCount := batchCount + 1;
      r := Some(Range(batchLow, batchHigh));
    }

    /** Both bounds of the size hint; the upper one is exact when the count fits. */
    method SizeHint(usizeMax: nat) returns (lower: nat, upper: Option<nat>)
      requires Valid()
      ensures lower == Min(|Remaining()|, usizeMax)
      ensures upper == if |Remaining()| <= usizeMax then Some(|Remaining()|) else None
    {
      if batchCount < totalBatches {
        DescTilingIsPartition(current, end, rangeSize);
      }
      var remaining := totalBatches - batchCount;
      if remaining <= usizeMax {
        lower, upper := remaining, Some(remaining);
      } else {
        lower, upper := usizeMax, None;
      }
    }
  }
}
