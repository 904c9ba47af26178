/** What latest-events mode delivers when a reorg is found on the way. */
module Rescans {
  import opened Wrappers
  import opened U64
  import opened Chains
  import opened RangeIterator
  import opened RingBuffers
  import opened ReorgHandler
  import opened Outside
  import opened Replay
  import opened Historical
  import opened LatestEvents
  import opened Rewind

  // -------------------------------------------------------------------------
  // A collector over ranges of one snapshot
  // -------------------------------------------------------------------------

  /** The collector after some ranges that were all read from `c`. */
  function Gather(s: Collector, c: Chain, ranges: seq<Range>, count: nat): Collector
    decreases |ranges|
  {
    if ranges == [] then s
    else Gather(if s.done then s else OnLogs(s, FetchLogs(c, ranges[0]), count), c, ranges[1..], count)
  }

  lemma {:induction false} DoneGathers(s: Collector, c: Chain, ranges: seq<Range>, count: nat)
    requires s.done
    ensures Gather(s, c, ranges, count) == s
    decreases |ranges|
  {
    if ranges != [] {
      DoneGathers(s, c, ranges[1..], count);
    }
  }

  lemma CollectNoted(s: Collector, w: World, e: Event, count: nat)
    ensures Collect(s, Noted(w, e).history, count) == OnEvent(Collect(s, w.history, count), e, count)
  {
    assert (w.history + [e])[..|w.history|] == w.history;
  }

  lemma FetchAgrees(c: Chain, x: Chain, r: Range, tip: nat)
    requires AgreeBelow(c, x, tip + 1) && r.hi <= tip
    ensures FetchLogs(x, r) == FetchLogs(c, r)
  {
    AgreeLess(c, x, tip + 1, r.hi + 1);
    BlocksAgree(c, x, r.lo, r.hi + 1);
  }

  /** One moment passes, on a timeline that does not touch the interval. */
  lemma StillSend(s0: Collector, w: World, c: Chain, r: Range, tip: nat, count: nat)
    requires Still(c, w.future, tip) && r.hi <= tip
    ensures var (open, w') := Send(w, Data(r));
            && Still(c, w'.future, tip)
            && (open ==> Collect(s0, w'.history, count)
                         == var s := Collect(s0, w.history, count); if s.done then s else OnLogs(s, FetchLogs(c, r), count))
            && (AllUp(w.future) && w.future != [] ==> open && w'.future == w.future[1..] && AllUp(w'.future))
  {
    StillLater(c, w, tip);
    if Now(w).receiverUp {
      CollectNoted(s0, Later(w), Sent(Data(r), Now(w).chain), count);
      FetchAgrees(c, Now(w).chain, r, tip);
      hide FetchLogs, OnLogs, Collect, AgreeBelow;
    }
  }

  lemma {:induction false} RescanGathers(s0: Collector, w: World, c: Chain, lo: nat, tip: nat, size: nat, count: nat)
    requires size >= 1 && Still(c, w.future, tip)
    ensures var ranges := Tiling(lo, tip, size);
            var (open, w') := SendAll(w, ranges);
            && Still(c, w'.future, tip)
            && (open ==> Collect(s0, w'.history, count) == Gather(Collect(s0, w.history, count), c, ranges, count))
            && (AllUp(w.future) && |w.future| >= |ranges| ==> open && w'.future == w.future[|ranges|..] && AllUp(w'.future))
    decreases tip + 1 - lo
  {
    hide Collect, OnLogs, FetchLogs, Still;
    if lo <= tip {
      var r := Range(lo, BatchEnd(lo, tip, size));
      var rest := Tiling(r.hi + 1, tip, size);
      assert Tiling(lo, tip, size) == [r] + rest && ([r] + rest)[1..] == rest;
      hide Tiling;
      StillSend(s0, w, c, r, tip, count);
      var (open, w1) := Send(w, Data(r));
      hide Send;
      if open {
        RescanGathers(s0, w1, c, r.hi + 1, tip, size, count);
      }
    }
  }

  // -------------------------------------------------------------------------
  // A rewind over one snapshot
  // -------------------------------------------------------------------------

  ghost predicate Inner(ranges: seq<Range>, tip: nat) {
    forall i | 0 <= i < |ranges| :: ranges[i].lo <= ranges[i].hi <= tip
  }

  /** A run over a timeline that does not touch the interval: the collector has gathered these
      ranges; and it gets through if everything answers long enough. */
  ghost predicate Gathered(r: Rewinding, w: World, s0: Collector, c: Chain, ranges: seq<Range>, tip: Block, count: nat) {
    && (r.Going? ==>
          && r.tip == tip && KnowsTip(tip, r.buffer) && Still(c, r.w.future, tip.number)
          && Collect(s0, r.w.history, count) == Gather(Collect(s0, w.history, count), c, ranges, count))
    && (AllUp(w.future) && |w.future| >= 2 * |ranges| ==> r.Going? && r.w.future == w.future[2 * |ranges|..] && AllUp(r.w.future))
  }

  lemma StillCheckGathers(s0: Collector, c: Chain, p: Params, tip: Block, buffer: seq<Block>, w: World, count: nat)
    requires p.size >= 1 && p.checkReorg && OnChain(c, tip) && KnowsTip(tip, buffer) && Still(c, w.future, tip.number)
    ensures var r := CheckTip(p, tip, buffer, w);
            && (r.Going? ==>
                  && r.tip == tip && KnowsTip(tip, r.buffer) && Still(c, r.w.future, tip.number)
                  && Collect(s0, r.w.history, count) == Collect(s0, w.history, count))
            && (AllUp(w.future) && w.future != [] ==> r.Going? && r.w.future == w.future[1..] && AllUp(r.w.future))
  {
    hide Rescan;
    StillLater(c, w, tip.number);
    var x := Now(w).chain;
    if w.future != [] {
      SharedBlock(c, x, tip);
    }
    TipCheckReportsFinalized(x, tip, buffer, p.capacity);
    TipCheckAnswers(x, tip, buffer, p.capacity);
    var (answer, buffer', w1) := CheckNow(w, buffer, p.capacity, tip);
    hide CheckOn, AgreeBelow, KnowsTip;
    if answer.Ok? {
      CollectNoted(s0, Later(w), Checked(x, buffer, answer.value.Some?), count);
    }
  }

  lemma StillRangeGathers(s0: Collector, c: Chain, p: Params, range: Range, tip: Block, buffer: seq<Block>, w: World, count: nat)
    requires p.size >= 1 && p.checkReorg && OnChain(c, tip) && KnowsTip(tip, buffer) && Still(c, w.future, tip.number)
    requires range.hi <= tip.number
    ensures Gathered(RewindRange(p, range, tip, buffer, w), w, s0, c, [range], tip, count)
  {
    hide Still, CheckTip, Collect, OnLogs, FetchLogs, OnChain, KnowsTip, Send;
    StillSend(s0, w, c, range, tip.number, count);
    var (open, w1) := Send(w, Data(range));
    assert [range][1..] == [];
    if open {
      StillCheckGathers(s0, c, p, tip, buffer, w1, count);
    }
    assert |w.future| >= 2 ==> w.future[1..][1..] == w.future[2..];
    var r := RewindRange(p, range, tip, buffer, w);
    var s := Collect(s0, w.history, count);
    assert Gather(s, c, [range], count) == if s.done then s else OnLogs(s, FetchLogs(c, range), count);
    assert r.Going? ==> r.tip == tip && KnowsTip(tip, r.buffer) && Still(c, r.w.future, tip.number);
    assert r.Going? ==> Collect(s0, r.w.history, count) == Gather(Collect(s0, w.history, count), c, [range], count);
  }

  lemma {:induction false} StillRangesGather(
    s0: Collector, c: Chain, p: Params, ranges: seq<Range>, tip: Block, buffer: seq<Block>, w: World, count: nat)
    requires p.size >= 1 && p.checkReorg && OnChain(c, tip) && KnowsTip(tip, buffer) && Still(c, w.future, tip.number)
    requires Inner(ranges, tip.number)
    ensures Gathered(RewindRanges(p, ranges, tip, buffer, w), w, s0, c, ranges, tip, count)
    decreases |ranges|
  {
    hide Still, RewindRange, Collect, OnLogs, FetchLogs, OnChain, KnowsTip;
    if ranges == [] {
      assert w.future[0..] == w.future;
    } else {
      var range, rest := ranges[0], ranges[1..];
      StillRangeGathers(s0, c, p, range, tip, buffer, w, count);
      assert [range][1..] == [];
      var r := RewindRange(p, range, tip, buffer, w);
      var s := Collect(s0, w.history, count);
      assert Gather(s, c, [range], count) == if s.done then s else OnLogs(s, FetchLogs(c, range), count);
      assert Gather(s, c, ranges, count) == Gather(Gather(s, c, [range], count), c, rest, count);
      if r.Going? {
        StillRangesGather(s0, c, p, rest, tip, r.buffer, r.w, count);
      }
      assert |w.future| >= 2 * |ranges| ==> w.future[2..][2 * |rest|..] == w.future[2 * |ranges|..];
    }
  }

  // -------------------------------------------------------------------------
  // A rewind with one reorg
  // -------------------------------------------------------------------------

  /** The collector after the ranges `ranges[..j]` on `c`, a reorg to `f`, the rescan on `b` and
      the other ranges on `b`. */
  function AfterReorg(s: Collector, c: Chain, b: Chain, f: nat, j: nat, ranges: seq<Range>, tip: nat, size: nat, count: nat): Collector
    requires size >= 1 && j <= |ranges|
  {
    var s1 := Gather(s, c, ranges[..j], count);
    var s2 := if s1.done then s1 else s1.(collected := DiscardOrphaned(s1.collected, f), reorgAncestor := Some(f));
    Gather(Gather(s2, b, Tiling(f + 1, tip, size), count), b, ranges[j..], count)
  }

  /** What a run with one reorg leaves behind. */
  ghost predicate Recovered(r: Rewinding, w: World, s0: Collector, c: Chain, b: Chain, f: nat, j: nat, ranges: seq<Range>,
                            tip: nat, size: nat, count: nat, post: seq<Moment>)
    requires size >= 1 && j <= |ranges|
  {
    && (r.Going? ==> Collect(s0, r.w.history, count) == AfterReorg(Collect(s0, w.history, count), c, b, f, j, ranges, tip, size, count))
    && (AllUp(w.future) && |post| >= 2 + |Tiling(f + 1, tip, size)| + 2 * (|ranges| - j) ==> r.Going?)
  }

  /** A timeline on which the interval is that of `c` for the moments `pre`, then a check sees `x`,
      and from then on the interval is that of `b`. */
  ghost predicate ForksOnce(future: seq<Moment>, pre: seq<Moment>, x: Moment, post: seq<Moment>, c: Chain, b: Chain, f: nat, tip: Block) {
    && future == pre + ([x] + post)
    && Still(c, pre, tip.number) && Still(b, post, tip.number) && OnChain(c, tip) && tip.number < |b.blocks|
    && x.rpcUp && !OnChain(x.chain, tip) && x.chain.finalized == Some(f)
  }

  lemma RescanRecovers(s0: Collector, b: Chain, p: Params, f: nat, tip: Block, w: World, count: nat)
    requires p.size >= 1 && Still(b, w.future, tip.number) && tip.number < |b.blocks|
    ensures var r := Rescan(p, f, tip, [], w);
            var ranges := Tiling(f + 1, tip.number, p.size);
            var s := Collect(s0, w.history, count);
            && (r.Going? ==>
                  && r.tip == BlockAt(b, tip.number) && r.buffer == [] && Still(b, r.w.future, tip.number)
                  && Collect(s0, r.w.history, count)
                     == Gather(if s.done then s else s.(collected := DiscardOrphaned(s.collected, f), reorgAncestor := Some(f)), b, ranges, count))
            && (AllUp(w.future) && |w.future| >= 2 + |ranges| ==> r.Going? && r.w.future == w.future[2 + |ranges|..] && AllUp(r.w.future))
  {
    hide Tiling, SendAll, Gather, Collect, DiscardOrphaned;
    StillLater(b, w, tip.number);
    var (open, w1) := Send(w, ReorgDetected(f));
    StillLater(b, w1, tip.number);
    if open {
      CollectNoted(s0, Later(w), Sent(ReorgDetected(f), Now(w).chain), count);
      var (fetched, w2) := Fetch(w1, tip.number);
      if fetched.Ok? {
        CollectNoted(s0, Later(w1), Anchored(Now(w1).chain, 0), count);
        AgreeHashes(b, Now(w1).chain, tip.number + 1);
        RescanGathers(s0, w2, b, f + 1, tip.number, p.size, count);
      }
    }
  }

  /** A range whose check finds the reorg. */
  lemma ReorgRange(s0: Collector, c: Chain, b: Chain, p: Params, f: nat, range: Range, tip: Block, buffer: seq<Block>, w: World,
                   y: Moment, x: Moment, post: seq<Moment>, count: nat)
    requires p.size >= 1 && p.checkReorg && KnowsTip(tip, buffer) && range.hi <= tip.number
    requires w.future == [y] + ([x] + post) && ForksOnce(w.future, [y], x, post, c, b, f, tip)
    ensures var r := RewindRange(p, range, tip, buffer, w);
            var rescan := Tiling(f + 1, tip.number, p.size);
            var s1 := Gather(Collect(s0, w.history, count), c, [range], count);
            && (r.Going? ==>
                  && r.tip == BlockAt(b, tip.number) && r.buffer == [] && Still(b, r.w.future, tip.number)
                  && Collect(s0, r.w.history, count)
                     == Gather(if s1.done then s1 else s1.(collected := DiscardOrphaned(s1.collected, f), reorgAncestor := Some(f)), b, rescan, count))
            && (AllUp(w.future) && |post| >= 2 + |rescan| ==> r.Going? && r.w.future == post[2 + |rescan|..] && AllUp(r.w.future))
  {
    hide Still, Rescan, Collect, OnLogs, FetchLogs, Tiling, DiscardOrphaned;
    FirstSend(s0, c, range, tip, w, y, [x] + post, count);
    var (open, w1) := Send(w, Data(range));
    assert w1.future == [x] + post;
    hide Send;
    if open {
      TipCheckReportsFinalized(x.chain, tip, buffer, p.capacity);
      TipCheckAnswers(x.chain, tip, buffer, p.capacity);
      var (answer, buffer', w2) := CheckNow(w1, buffer, p.capacity, tip);
      ReorgIsAnswered(x.chain, tip, buffer, p.capacity);
      hide CheckOn;
      CollectNoted(s0, Later(w1), Checked(x.chain, buffer, true), count);
      assert w2.future == post;
      RescanRecovers(s0, b, p, f, tip, w2, count);
      assert AllUp(w.future) ==> AllUp(post) by { UpAfter(w.future, [y], x, post); }
    }
    assert AllUp(w.future) ==> open by { UpNow(w.future, y, [x] + post); }
  }

  lemma UpAfter(future: seq<Moment>, pre: seq<Moment>, x: Moment, post: seq<Moment>)
    requires future == pre + ([x] + post)
    ensures AllUp(future) ==> AllUp(post) && AllUp(pre) && x.receiverUp
  {
    assert forall i | 0 <= i < |post| :: post[i] == future[|pre| + 1 + i];
    assert forall i | 0 <= i < |pre| :: pre[i] == future[i];
    assert x == future[|pre|];
  }

  lemma UpNow(future: seq<Moment>, y: Moment, rest: seq<Moment>)
    requires future == [y] + rest
    ensures AllUp(future) ==> y.receiverUp
  {
    assert future[0] == y;
  }

  lemma ReorgIsAnswered(c: Chain, tip: Block, buffer: seq<Block>, capacity: Capacity)
    requires !OnChain(c, tip) && c.finalized.Some?
    ensures var r := CheckOn(c, buffer, capacity, tip).0; r.Ok? && r.value.Some?
  {
  }

  /** The send of a range at a given moment. */
  lemma FirstSend(s0: Collector, c: Chain, range: Range, tip: Block, w: World, y: Moment, rest: seq<Moment>, count: nat)
    requires w.future == [y] + rest && Still(c, [y], tip.number) && range.hi <= tip.number
    ensures var (open, w1) := Send(w, Data(range));
            && w1.future == rest && open == y.receiverUp
            && (open ==> Collect(s0, w1.history, count) == Gather(Collect(s0, w.history, count), c, [range], count))
  {
    assert Now(w) == y && AgreeBelow(c, [y][0].chain, tip.number + 1);
    var s := Collect(s0, w.history, count);
    if y.receiverUp {
      CollectNoted(s0, Later(w), Sent(Data(range), y.chain), count);
      FetchAgrees(c, y.chain, range, tip.number);
      hide FetchLogs, OnLogs, Collect, AgreeBelow;
      assert [range][1..] == [];
      assert Gather(s, c, [range], count) == if s.done then s else OnLogs(s, FetchLogs(c, range), count);
    }
  }

  lemma GatherSplit(s: Collector, c: Chain, range: Range, rest: seq<Range>, count: nat)
    ensures Gather(s, c, [range] + rest, count) == Gather(Gather(s, c, [range], count), c, rest, count)
  {
    assert ([range] + rest)[1..] == rest && [range][1..] == [];
    hide OnLogs, FetchLogs;
    assert Gather(s, c, [range], count) == if s.done then s else OnLogs(s, FetchLogs(c, range), count);
  }

  /** The range whose check finds the reorg, and everything after it. */
  lemma LastRecovers(
    s0: Collector, c: Chain, b: Chain, p: Params, f: nat, ranges: seq<Range>, tip: Block, buffer: seq<Block>, w: World,
    y: Moment, x: Moment, post: seq<Moment>, count: nat)
    requires p.size >= 1 && p.checkReorg && KnowsTip(tip, buffer) && Inner(ranges, tip.number) && ranges != []
    requires ForksOnce(w.future, [y], x, post, c, b, f, tip)
    ensures Recovered(RewindRanges(p, ranges, tip, buffer, w), w, s0, c, b, f, 1, ranges, tip.number, p.size, count, post)
  {
    hide Still, RewindRange, Collect, OnLogs, FetchLogs, OnChain, KnowsTip, Tiling, DiscardOrphaned, Gather;
    var range, rest := ranges[0], ranges[1..];
    assert ranges[..1] == [range];
    ReorgRange(s0, c, b, p, f, range, tip, buffer, w, y, x, post, count);
    var r := RewindRange(p, range, tip, buffer, w);
    if r.Going? {
      BlockAtIsOn(b, tip.number);
      StillRangesGather(s0, b, p, rest, r.tip, r.buffer, r.w, count);
    }
  }

  lemma {:induction false} RangesRecover(
    s0: Collector, c: Chain, b: Chain, p: Params, f: nat, j: nat, ranges: seq<Range>, tip: Block, buffer: seq<Block>, w: World,
    pre: seq<Moment>, x: Moment, post: seq<Moment>, count: nat)
    requires p.size >= 1 && p.checkReorg && KnowsTip(tip, buffer) && Inner(ranges, tip.number)
    requires 1 <= j <= |ranges| && |pre| == 2 * j - 1 && ForksOnce(w.future, pre, x, post, c, b, f, tip)
    ensures Recovered(RewindRanges(p, ranges, tip, buffer, w), w, s0, c, b, f, j, ranges, tip.number, p.size, count, post)
    decreases j
  {
    hide Still, RewindRange, Collect, OnLogs, FetchLogs, OnChain, KnowsTip, Tiling, DiscardOrphaned, Gather;
    if j == 1 {
      assert pre == [pre[0]];
      LastRecovers(s0, c, b, p, f, ranges, tip, buffer, w, pre[0], x, post, count);
      hide RewindRanges, Recovered;
    } else {
      var range, rest := ranges[0], ranges[1..];
      var pre' := pre[2..];
      assert w.future == pre[..2] + (pre' + ([x] + post));
      StillPre(c, pre, tip.number);
      FirstMoments(s0, c, p, range, tip, buffer, w, pre[..2], pre' + ([x] + post), count);
      var r := RewindRange(p, range, tip, buffer, w);
      if r.Going? {
        RangesRecover(s0, c, b, p, f, j - 1, rest, tip, r.buffer, r.w, pre', x, post, count);
        OneMore(Collect(s0, w.history, count), c, b, f, j, ranges, tip.number, p.size, count);
        hide AfterReorg;
      }
    }
  }

  lemma OneMore(s: Collector, c: Chain, b: Chain, f: nat, j: nat, ranges: seq<Range>, tip: nat, size: nat, count: nat)
    requires size >= 1 && 2 <= j <= |ranges|
    ensures AfterReorg(Gather(s, c, [ranges[0]], count), c, b, f, j - 1, ranges[1..], tip, size, count)
         == AfterReorg(s, c, b, f, j, ranges, tip, size, count)
  {
    assert ranges[1..][..j - 1] == ranges[1..j] && ranges[..j] == [ranges[0]] + ranges[1..j];
    GatherSplit(s, c, ranges[0], ranges[1..j], count);
    assert ranges[1..][j - 1..] == ranges[j..];
    hide Gather, Tiling, DiscardOrphaned;
  }

  lemma BlockAtIsOn(b: Chain, n: nat)
    requires n < |b.blocks|
    ensures OnChain(b, BlockAt(b, n)) && KnowsTip(BlockAt(b, n), [])
  {
  }

  lemma StillPre(c: Chain, pre: seq<Moment>, tip: nat)
    requires Still(c, pre, tip) && |pre| >= 2
    ensures Still(c, pre[2..], tip) && Still(c, pre[..2], tip)
  {
  }

  /** A range whose two moments do not touch the interval. */
  lemma FirstMoments(s0: Collector, c: Chain, p: Params, range: Range, tip: Block, buffer: seq<Block>, w: World,
                     two: seq<Moment>, rest: seq<Moment>, count: nat)
    requires p.size >= 1 && p.checkReorg && OnChain(c, tip) && KnowsTip(tip, buffer) && range.hi <= tip.number
    requires |two| == 2 && Still(c, two, tip.number) && w.future == two + rest
    ensures var r := RewindRange(p, range, tip, buffer, w);
            && (r.Going? ==>
                  && r.tip == tip && KnowsTip(tip, r.buffer) && r.w.future == rest
                  && Collect(s0, r.w.history, count) == Gather(Collect(s0, w.history, count), c, [range], count))
            && (AllUp(w.future) ==> r.Going? && AllUp(rest))
  {
    hide Rescan, Collect, OnLogs, FetchLogs;
    assert w.future == [two[0]] + ([two[1]] + rest);
    FirstSend(s0, c, range, tip, w, two[0], [two[1]] + rest, count);
    var (open, w1) := Send(w, Data(range));
    hide Send;
    if open {
      var x := two[1].chain;
      assert AgreeBelow(c, two[1].chain, tip.number + 1);
      SharedBlock(c, x, tip);
      TipCheckReportsFinalized(x, tip, buffer, p.capacity);
      TipCheckAnswers(x, tip, buffer, p.capacity);
      hide CheckOn, AgreeBelow, KnowsTip;
      CollectNoted(s0, Later(w1), Checked(x, buffer, false), count);
    }
    assert AllUp(w.future) ==> two[0] == w.future[0] && two[1] == w.future[1];
    assert forall i | 0 <= i < |rest| :: rest[i] == w.future[2 + i];
  }

  /** A whole run with one reorg. */
  lemma RunRecovers(
    from: Block, to: nat, size: nat, capacity: Capacity, c: Chain, b: Chain, f: nat, j: nat,
    first: Moment, pre: seq<Moment>, x: Moment, post: seq<Moment>, count: nat)
    requires size >= 1 && to <= from.number
    requires 1 <= j <= |DescTiling(from.number, to, size)| && |pre| == 2 * j - 1
    requires ForksOnce(pre + ([x] + post), pre, x, post, c, b, f, from)
    requires KnowsFinalized(first) ==> first.chain.finalized.value < from.number
    requires from.number > 0
    ensures var run := StreamRewind(from, to, size, capacity, World([first] + (pre + ([x] + post)), []));
            var ranges := DescTiling(from.number, to, size);
            && (run.Going? ==> Collect(EMPTY, run.w.history, count) == AfterReorg(EMPTY, c, b, f, j, ranges, from.number, size, count))
            && (AllUp(pre + ([x] + post)) && |post| >= 2 + |Tiling(f + 1, from.number, size)| + 2 * (|ranges| - j) ==> run.Going?)
  {
    hide RewindRanges, AfterReorg, Tiling;
    var rest := pre + ([x] + post);
    var w := World([first] + rest, []);
    assert Now(w) == first && Later(w).future == rest;
    var ranges := DescTiling(from.number, to, size);
    TilesInside(from.number, to, size);
    hide DescTiling;
    RangesRecover(EMPTY, c, b, Params(size, true, capacity), f, j, ranges, from, [], World(rest, []), pre, x, post, count);
  }

  lemma {:induction false} TilesInside(hi: nat, lo: nat, size: nat)
    requires size >= 1
    ensures Inner(DescTiling(hi, lo, size), hi)
    ensures forall i | 0 <= i < |DescTiling(hi, lo, size)| :: lo <= DescTiling(hi, lo, size)[i].lo
    decreases hi
  {
    if lo <= hi {
      var low := BatchLow(hi, lo, size);
      var rest := if low == lo then [] else DescTiling(low - 1, lo, size);
      assert DescTiling(hi, lo, size) == [Range(low, hi)] + rest;
      if low > lo {
        TilesInside(low - 1, lo, size);
      }
      hide DescTiling;
    }
  }

  // -------------------------------------------------------------------------
  // Descending ranges below a region
  // -------------------------------------------------------------------------

  /** The newest `count` logs of the interval `to..=tip` on `c`, newest first. */
  function Wanted(c: Chain, to: nat, tip: nat, count: nat): seq<Log>
    requires tip < |c.blocks|
  {
    Take(Reversed(LogsIn(c, to, tip + 1)), count)
  }

  predicate AtMost(logs: seq<Log>, a: nat) {
    forall i | 0 <= i < |logs| :: logs[i].block <= a
  }

  lemma RangeLogs(c: Chain, r: Range)
    requires r.lo <= r.hi < |c.blocks|
    ensures FetchLogs(c, r) == LogsIn(c, r.lo, r.hi + 1)
  {
  }

  /** Descending ranges whose logs all lie at or below the last ancestor extend the region as they
      should. */
  lemma {:induction false} OlderGathers(s: Collector, c: Chain, hi: nat, lo: nat, top: nat, size: nat, count: nat)
    requires size >= 1 && lo <= hi + 1 <= top <= |c.blocks|
    requires Holds(s, LogsIn(c, hi + 1, top), count)
    requires s.reorgAncestor.Some? ==> AtMost(LogsIn(c, lo, hi + 1), s.reorgAncestor.value)
    ensures Holds(Gather(s, c, DescTiling(hi, lo, size), count), LogsIn(c, lo, top), count)
    ensures s.reorgAncestor == None ==> Gather(s, c, DescTiling(hi, lo, size), count).reorgAncestor == None
    decreases hi
  {
    hide LogsIn, OnLogs, Holds, FetchLogs;
    if lo <= hi {
      var r := Range(BatchLow(hi, lo, size), hi);
      var rest := if r.lo == lo then [] else DescTiling(r.lo - 1, lo, size);
      assert DescTiling(hi, lo, size) == [r] + rest && ([r] + rest)[1..] == rest;
      RangeLogs(c, r);
      OlderRange(s, c, r, top, lo, count);
      var s' := if s.done then s else OnLogs(s, FetchLogs(c, r), count);
      if r.lo > lo {
        OlderGathers(s', c, r.lo - 1, lo, top, size, count);
      }
    }
  }

  lemma OlderRange(s: Collector, c: Chain, r: Range, top: nat, lo: nat, count: nat)
    requires lo <= r.lo <= r.hi < top <= |c.blocks| && Holds(s, LogsIn(c, r.hi + 1, top), count)
    requires s.reorgAncestor.Some? ==> AtMost(LogsIn(c, lo, r.hi + 1), s.reorgAncestor.value)
    ensures var s' := if s.done then s else OnLogs(s, LogsIn(c, r.lo, r.hi + 1), count);
            && Holds(s', LogsIn(c, r.lo, top), count)
            && (s'.reorgAncestor.Some? ==> s'.reorgAncestor == s.reorgAncestor && AtMost(LogsIn(c, lo, r.lo), s'.reorgAncestor.value))
  {
    var logs, held := LogsIn(c, r.lo, r.hi + 1), LogsIn(c, r.hi + 1, top);
    LogsInConcat(c, r.lo, r.hi + 1, top);
    LogsInConcat(c, lo, r.lo, r.hi + 1);
    hide LogsIn;
    if s.reorgAncestor.Some? {
      AtMostParts(LogsIn(c, lo, r.lo), logs, s.reorgAncestor.value);
    }
    if s.done {
      DoneHoldsMore(s, logs, held, count);
    } else {
      OlderLogs(s, logs, held, count);
    }
    hide OnLogs, Holds;
  }

  lemma AtMostParts(x: seq<Log>, y: seq<Log>, a: nat)
    requires AtMost(x + y, a)
    ensures AtMost(x, a) && AtMost(y, a)
    ensures y != [] ==> y[|y| - 1].block <= a
  {
    assert forall i | 0 <= i < |x| :: (x + y)[i] == x[i];
    assert forall i | 0 <= i < |y| :: (x + y)[|x| + i] == y[i];
  }

  lemma DoneHoldsMore(s: Collector, older: seq<Log>, held: seq<Log>, count: nat)
    requires s.done && Holds(s, held, count)
    ensures Holds(s, older + held, count)
  {
    ReversedConcat(older, held);
    hide Reversed;
  }

  // -------------------------------------------------------------------------
  // The rescan
  // -------------------------------------------------------------------------

  /** How far a rescan from `low` has come when the buffer is full, or the end of the interval. */
  function RescanTop(c: Chain, low: nat, cursor: nat, tip: nat, size: nat, count: nat): (top: nat)
    requires size >= 1 && low <= cursor && tip < |c.blocks|
    ensures cursor <= tip + 1 ==> cursor <= top <= tip + 1
    decreases tip + 1 - cursor
  {
    if cursor > tip then cursor
    else
      var next := BatchEnd(cursor, tip, size) + 1;
      if |LogsIn(c, low, next)| >= count then next else RescanTop(c, low, next, tip, size, count)
  }

  /** A rescan of a region that begins at `low` either fills the buffer before a batch boundary
      `top`, or leaves all its logs. */
  ghost predicate Rescanned(s: Collector, c: Chain, f: nat, low: nat, top: nat, tip: nat, count: nat)
    requires top <= |c.blocks|
  {
    && Holds(s, LogsIn(c, low, top), count)
    && (s.done <==> |LogsIn(c, low, top)| >= count)
    && (!s.done ==> top == tip + 1 && s.reorgAncestor == Some(f))
  }

  lemma {:induction false} RescanFills(s: Collector, c: Chain, f: nat, low: nat, cursor: nat, tip: nat, size: nat, count: nat)
    requires size >= 1 && count >= 1 && low <= cursor <= tip + 1 <= |c.blocks| && (cursor <= tip ==> f < cursor)
    requires !s.done && Holds(s, LogsIn(c, low, cursor), count) && s.reorgAncestor == Some(f)
    ensures Rescanned(Gather(s, c, Tiling(cursor, tip, size), count), c, f, low, RescanTop(c, low, cursor, tip, size, count), tip, count)
    decreases tip + 1 - cursor
  {
    hide LogsIn, OnLogs, Holds, FetchLogs;
    if cursor > tip {
      NotFull(s, LogsIn(c, low, cursor), count);
    } else {
      var r := Range(cursor, BatchEnd(cursor, tip, size));
      var rest := Tiling(r.hi + 1, tip, size);
      assert Tiling(cursor, tip, size) == [r] + rest && ([r] + rest)[1..] == rest;
      hide Tiling;
      RangeLogs(c, r);
      NewerRange(s, c, f, low, r, count);
      var s' := OnLogs(s, FetchLogs(c, r), count);
      if s'.done {
        DoneGathers(s', c, rest, count);
      } else {
        RescanFills(s', c, f, low, r.hi + 1, tip, size, count);
      }
    }
  }

  lemma NotFull(s: Collector, all: seq<Log>, count: nat)
    requires count >= 1 && Holds(s, all, count)
    ensures s.done <==> |all| >= count
  {
  }

  lemma NewerRange(s: Collector, c: Chain, f: nat, low: nat, r: Range, count: nat)
    requires count >= 1 && low <= r.lo <= r.hi < |c.blocks| && f < r.lo
    requires !s.done && Holds(s, LogsIn(c, low, r.lo), count) && s.reorgAncestor == Some(f)
    ensures var s' := OnLogs(s, LogsIn(c, r.lo, r.hi + 1), count);
            && Holds(s', LogsIn(c, low, r.hi + 1), count) && s'.reorgAncestor == Some(f)
            && (s'.done <==> |LogsIn(c, low, r.hi + 1)| >= count)
  {
    hide LogsIn, OnLogs, Holds;
    var logs, held := LogsIn(c, r.lo, r.hi + 1), LogsIn(c, low, r.lo);
    LogsInConcat(c, low, r.lo, r.hi + 1);
    LogsInBounds(c, r.lo, r.hi + 1);
    NewerLogs(s, logs, held, count);
    NotFull(OnLogs(s, logs, count), held + logs, count);
  }

  // -------------------------------------------------------------------------
  // What is wrong stays wrong
  // -------------------------------------------------------------------------

  /** The buffer begins with a log from below `l`, or has one at or above `l` at position `n`. */
  predicate Disordered(collected: seq<Log>, n: nat, l: nat) {
    collected != [] && (collected[0].block < l || (|collected| > n && collected[n].block >= l))
  }

  lemma OlderDisordered(s: Collector, logs: seq<Log>, count: nat, n: nat, l: nat)
    requires count >= 1 && l >= 1 && Disordered(s.collected, n, l) && AtMost(logs, l - 1)
    ensures Disordered(OnLogs(s, logs, count).collected, n, l)
  {
    ReversedIndex(logs);
    hide Reversed;
  }

  lemma {:induction false} StaysDisordered(s: Collector, c: Chain, hi: nat, lo: nat, size: nat, count: nat, n: nat, l: nat)
    requires size >= 1 && count >= 1 && hi < |c.blocks| && hi < l && Disordered(s.collected, n, l)
    ensures Disordered(Gather(s, c, DescTiling(hi, lo, size), count).collected, n, l)
    decreases hi
  {
    hide LogsIn, OnLogs, Disordered, FetchLogs;
    if lo <= hi {
      var r := Range(BatchLow(hi, lo, size), hi);
      var rest := if r.lo == lo then [] else DescTiling(r.lo - 1, lo, size);
      assert DescTiling(hi, lo, size) == [r] + rest && ([r] + rest)[1..] == rest;
      RangeLogs(c, r);
      LogsInBounds(c, r.lo, r.hi + 1);
      OlderDisordered(s, LogsIn(c, r.lo, r.hi + 1), count, n, l);
      var s' := if s.done then s else OnLogs(s, FetchLogs(c, r), count);
      if r.lo > lo {
        StaysDisordered(s', c, r.lo - 1, lo, size, count, n, l);
      }
    }
  }

  /** The newest logs of an interval are in order: with all logs from `l` on in `newer`, they do
      not begin below `l`, and they are below `l` from position `|newer|` on. */
  lemma WantedIsOrdered(c: Chain, to: nat, tip: nat, l: nat, count: nat, n: nat)
    requires to <= l <= tip + 1 <= |c.blocks| && LogsIn(c, l, tip + 1) != [] && (n >= count || n == |LogsIn(c, l, tip + 1)|)
    ensures !Disordered(Wanted(c, to, tip, count), n, l)
  {
    var older, newer := LogsIn(c, to, l), LogsIn(c, l, tip + 1);
    LogsInConcat(c, to, l, tip + 1);
    LogsInBounds(c, to, l);
    LogsInBounds(c, l, tip + 1);
    hide LogsIn;
    ReversedConcat(older, newer);
    ReversedIndex(older);
    ReversedIndex(newer);
    hide Reversed;
  }

  // -------------------------------------------------------------------------
  // Descending after a deep rescan
  // -------------------------------------------------------------------------

  /** The logs of the first range that has any. */
  function FirstLogs(c: Chain, ranges: seq<Range>): seq<Log>
    decreases |ranges|
  {
    if ranges == [] then []
    else if FetchLogs(c, ranges[0]) != [] then FetchLogs(c, ranges[0])
    else FirstLogs(c, ranges[1..])
  }

  /** After a rescan of everything above `f` that has not filled the buffer, where the blocks below
      `low` were not scanned before. */
  ghost predicate DeeplyRescanned(s: Collector, c: Chain, f: nat, low: nat, tip: nat, count: nat) {
    && f + 1 < low <= tip < |c.blocks| && count >= 1
    && !s.done && s.reorgAncestor == Some(f)
    && Holds(s, LogsIn(c, f + 1, tip + 1), count) && |LogsIn(c, f + 1, tip + 1)| < count
    && LogsIn(c, f + 1, low) != []
  }

  lemma NoLogsBelow(s: Collector, c: Chain, f: nat, to: nat, low: nat, tip: nat, count: nat)
    requires DeeplyRescanned(s, c, f, low, tip, count) && to <= low && LogsIn(c, to, low) == []
    ensures s.collected != Wanted(c, to, tip, count)
  {
    hide LogsIn, Reversed;
    LogsInConcat(c, f + 1, low, tip + 1);
    LogsInConcat(c, to, low, tip + 1);
    assert |Wanted(c, to, tip, count)| <= |LogsIn(c, low, tip + 1)| < |s.collected|;
  }

  /** The newest log of the first range with logs lies above the ancestor, so that the range is
      taken for a part of the rescan. */
  lemma FirstRangeIsAbove(c: Chain, f: nat, r: Range, low: nat)
    requires r.lo <= r.hi < low <= |c.blocks| && f + 1 < low
    requires LogsIn(c, r.hi + 1, low) == [] && LogsIn(c, f + 1, low) != [] && LogsIn(c, r.lo, r.hi + 1) != []
    ensures var logs := LogsIn(c, r.lo, r.hi + 1); logs[|logs| - 1].block > f
  {
    hide LogsIn;
    LogsInBounds(c, r.lo, r.hi + 1);
    if r.lo <= f {
      if f <= r.hi {
        LogsInConcat(c, f + 1, r.hi + 1, low);
        LogsInConcat(c, r.lo, f + 1, r.hi + 1);
        LogsInBounds(c, f + 1, r.hi + 1);
      } else {
        LogsInConcat(c, r.hi + 1, f + 1, low);
      }
    }
  }

  lemma FirstRangePrepends(s: Collector, c: Chain, f: nat, r: Range, low: nat, tip: nat, count: nat)
    requires DeeplyRescanned(s, c, f, low, tip, count)
    requires r.lo <= r.hi < low && LogsIn(c, r.hi + 1, low) == [] && LogsIn(c, r.lo, r.hi + 1) != []
    ensures var logs, all := LogsIn(c, r.lo, r.hi + 1), LogsIn(c, f + 1, tip + 1);
            OnLogs(s, logs, count).collected == Take(Reversed(logs) + Reversed(all), count)
    ensures OnLogs(s, LogsIn(c, r.lo, r.hi + 1), count).done <==> |OnLogs(s, LogsIn(c, r.lo, r.hi + 1), count).collected| >= count
  {
    FirstRangeIsAbove(c, f, r, low);
    hide LogsIn, Reversed;
  }

  /** A log was scanned before: the logs of the first range end up in front of it. */
  lemma PrependedBelowNewer(s: Collector, c: Chain, f: nat, r: Range, to: nat, low: nat, tip: nat, count: nat)
    requires DeeplyRescanned(s, c, f, low, tip, count)
    requires to <= r.lo <= r.hi < low && LogsIn(c, r.hi + 1, low) == [] && LogsIn(c, r.lo, r.hi + 1) != []
    requires LogsIn(c, low, tip + 1) != []
    ensures Disordered(OnLogs(s, LogsIn(c, r.lo, r.hi + 1), count).collected, count, low)
    ensures !Disordered(Wanted(c, to, tip, count), count, low)
  {
    hide LogsIn, OnLogs, Wanted, Disordered, Reversed, Take, Holds;
    var logs, all := LogsIn(c, r.lo, r.hi + 1), LogsIn(c, f + 1, tip + 1);
    FirstRangePrepends(s, c, f, r, low, tip, count);
    LogsInBounds(c, r.lo, r.hi + 1);
    WantedIsOrdered(c, to, tip, low, count, count);
    LowHeadDisordered(logs, all, count, low);
  }

  lemma LowHeadDisordered(logs: seq<Log>, all: seq<Log>, count: nat, l: nat)
    requires count >= 1 && logs != [] && logs[|logs| - 1].block < l
    ensures Disordered(Take(Reversed(logs) + Reversed(all), count), count, l)
  {
    ReversedIndex(logs);
    hide Reversed;
  }

  /** Nothing was scanned before, and the first range does not fill the buffer: its logs are held
      twice. */
  lemma HeldTwice(s: Collector, c: Chain, f: nat, r: Range, to: nat, low: nat, tip: nat, count: nat)
    requires DeeplyRescanned(s, c, f, low, tip, count)
    requires to <= r.lo <= r.hi < low && LogsIn(c, r.hi + 1, low) == [] && LogsIn(c, r.lo, r.hi + 1) != []
    requires LogsIn(c, low, tip + 1) == [] && |LogsIn(c, r.lo, r.hi + 1)| < count
    ensures var n := |LogsIn(c, r.lo, r.hi + 1)|;
            && Disordered(OnLogs(s, LogsIn(c, r.lo, r.hi + 1), count).collected, n, r.lo)
            && !Disordered(Wanted(c, to, tip, count), n, r.lo)
  {
    hide LogsIn, OnLogs, Wanted, Disordered, Reversed, Take, Holds;
    var logs, all := LogsIn(c, r.lo, r.hi + 1), LogsIn(c, f + 1, tip + 1);
    FirstRangePrepends(s, c, f, r, low, tip, count);
    NothingAbove(c, r.lo, r.hi, low, tip);
    WantedIsOrdered(c, to, tip, r.lo, count, |logs|);
    NewestOfAll(c, f, r, low, tip);
    TwoHeadsDisordered(logs, all, count, r.lo);
  }

  lemma TwoHeadsDisordered(logs: seq<Log>, all: seq<Log>, count: nat, l: nat)
    requires 0 < |logs| < count && all != [] && all[|all| - 1].block >= l
    ensures Disordered(Take(Reversed(logs) + Reversed(all), count), |logs|, l)
  {
    ReversedIndex(all);
    hide Reversed;
  }

  lemma NothingAbove(c: Chain, lo: nat, hi: nat, low: nat, tip: nat)
    requires lo <= hi < low <= tip < |c.blocks|
    requires LogsIn(c, hi + 1, low) == [] && LogsIn(c, low, tip + 1) == []
    ensures LogsIn(c, lo, tip + 1) == LogsIn(c, lo, hi + 1)
  {
    hide LogsIn;
    LogsInConcat(c, hi + 1, low, tip + 1);
    LogsInConcat(c, lo, hi + 1, tip + 1);
  }

  /** The newest log of the rescan lies in the first range with logs. */
  lemma NewestOfAll(c: Chain, f: nat, r: Range, low: nat, tip: nat)
    requires f + 1 < low <= tip < |c.blocks| && r.lo <= r.hi < low
    requires LogsIn(c, r.hi + 1, low) == [] && LogsIn(c, low, tip + 1) == [] && LogsIn(c, f + 1, low) != []
    requires LogsIn(c, r.lo, r.hi + 1) != []
    ensures var all := LogsIn(c, f + 1, tip + 1); all != [] && all[|all| - 1].block >= r.lo
  {
    hide LogsIn;
    var all := LogsIn(c, f + 1, tip + 1);
    LogsInConcat(c, f + 1, low, tip + 1);
    if f + 1 <= r.lo {
      NothingAbove(c, r.lo, r.hi, low, tip);
      LogsInConcat(c, f + 1, r.lo, tip + 1);
      LogsInBounds(c, r.lo, r.hi + 1);
    } else {
      LogsInBounds(c, f + 1, tip + 1);
    }
  }

  /** Nothing was scanned before, and the first range fills the buffer: nothing else is kept. */
  lemma FirstRangeFills(s: Collector, c: Chain, f: nat, r: Range, to: nat, low: nat, tip: nat, count: nat)
    requires DeeplyRescanned(s, c, f, low, tip, count)
    requires to <= r.lo <= r.hi < low && LogsIn(c, r.hi + 1, low) == [] && LogsIn(c, r.lo, r.hi + 1) != []
    requires LogsIn(c, low, tip + 1) == [] && |LogsIn(c, r.lo, r.hi + 1)| >= count
    ensures var s' := OnLogs(s, LogsIn(c, r.lo, r.hi + 1), count);
            s'.done && s'.collected == Wanted(c, to, tip, count)
  {
    hide LogsIn, OnLogs, Reversed, Take, Holds;
    var logs, all, older := LogsIn(c, r.lo, r.hi + 1), LogsIn(c, f + 1, tip + 1), LogsIn(c, to, r.lo);
    FirstRangePrepends(s, c, f, r, low, tip, count);
    NothingAbove(c, r.lo, r.hi, low, tip);
    LogsInConcat(c, to, r.lo, tip + 1);
    ReversedConcat(older, logs);
    TakeHead(Reversed(logs), Reversed(all), Reversed(older), count);
  }

  lemma TakeHead(x: seq<Log>, y: seq<Log>, z: seq<Log>, count: nat)
    requires |x| >= count
    ensures Take(x + y, count) == Take(x + z, count) && |Take(x + y, count)| == count
  {
    assert (x + y)[..count] == x[..count] == (x + z)[..count];
  }

  /** A deep rescan that has not filled the buffer is repaired by nothing but a full first range. */
  lemma {:induction false} DeepDescent(s: Collector, c: Chain, f: nat, hi: nat, to: nat, low: nat, tip: nat, size: nat, count: nat)
    requires size >= 1 && to <= hi < low && DeeplyRescanned(s, c, f, low, tip, count)
    requires LogsIn(c, hi + 1, low) == []
    ensures var ranges := DescTiling(hi, to, size);
            Gather(s, c, ranges, count).collected == Wanted(c, to, tip, count)
            <==> LogsIn(c, low, tip + 1) == [] && |FirstLogs(c, ranges)| >= count
    decreases hi
  {
    hide LogsIn, OnLogs, FetchLogs, Wanted, Disordered;
    var r := Range(BatchLow(hi, to, size), hi);
    var rest := if r.lo == to then [] else DescTiling(r.lo - 1, to, size);
    assert DescTiling(hi, to, size) == [r] + rest && ([r] + rest)[1..] == rest;
    RangeLogs(c, r);
    var logs := LogsIn(c, r.lo, hi + 1);
    if logs == [] {
      EmptyRange(s, c, r, low, count);
      if r.lo == to {
        NoLogsBelow(s, c, f, to, low, tip, count);
      } else {
        DeepDescent(s, c, f, r.lo - 1, to, low, tip, size, count);
      }
    } else {
      var s' := OnLogs(s, logs, count);
      if LogsIn(c, low, tip + 1) != [] {
        PrependedBelowNewer(s, c, f, r, to, low, tip, count);
        RestDisordered(s', c, r.lo, to, size, count, count, low);
      } else if |logs| < count {
        HeldTwice(s, c, f, r, to, low, tip, count);
        RestDisordered(s', c, r.lo, to, size, count, |logs|, r.lo);
      } else {
        FirstRangeFills(s, c, f, r, to, low, tip, count);
        DoneGathers(s', c, rest, count);
      }
    }
  }

  lemma EmptyRange(s: Collector, c: Chain, r: Range, low: nat, count: nat)
    requires r.lo <= r.hi < low <= |c.blocks| && LogsIn(c, r.lo, r.hi + 1) == [] && LogsIn(c, r.hi + 1, low) == []
    ensures LogsIn(c, r.lo, low) == [] && OnLogs(s, LogsIn(c, r.lo, r.hi + 1), count) == s
  {
    LogsInConcat(c, r.lo, r.hi + 1, low);
    hide LogsIn;
  }

  lemma RestDisordered(s: Collector, c: Chain, lo: nat, to: nat, size: nat, count: nat, n: nat, l: nat)
    requires size >= 1 && count >= 1 && to <= lo <= l && lo <= |c.blocks| && Disordered(s.collected, n, l)
    ensures Disordered(Gather(s, c, if lo == to then [] else DescTiling(lo - 1, to, size), count).collected, n, l)
  {
    hide Disordered, OnLogs, FetchLogs, DescTiling;
    if lo > to {
      StaysDisordered(s, c, lo - 1, to, size, count, n, l);
    }
  }

  // -------------------------------------------------------------------------
  // When a reorg is recovered from correctly
  // -------------------------------------------------------------------------

  /** The ranges that are left below `low`. */
  function RangesBelow(low: nat, to: nat, size: nat): seq<Range>
    requires size >= 1 && to <= low
  {
    if low == to then [] else DescTiling(low - 1, to, size)
  }

  /** Where the scan goes on after a reorg back to height `f`. */
  function RescanStart(f: nat, tip: nat): nat {
    Min(f, tip) + 1
  }

  /** A reorg back to height `f` is found when the blocks from `low` up to the tip have been
      scanned, and the interval is that of `c` from then on. If the rescan fills the buffer, it has
      to have come to the newest log, and not to have begun below the interval for want of logs in
      it. If it does not, then the rescan did not begin below `low`; or none of its logs is from
      below `low`; or none is from `low` on, and the next range with logs fills the buffer alone. */
  predicate RecoversFrom(c: Chain, f: nat, low: nat, to: nat, tip: nat, size: nat, count: nat)
    requires size >= 1 && to <= low <= tip < |c.blocks|
  {
    var start := RescanStart(f, tip);
    var top := RescanTop(c, Min(low, start), start, tip, size, count);
    if |LogsIn(c, Min(low, start), top)| >= count then
      LogsIn(c, top, tip + 1) == [] && |LogsIn(c, to, tip + 1)| >= count
    else
      || low <= start
      || LogsIn(c, start, low) == []
      || (LogsIn(c, low, tip + 1) == [] && |FirstLogs(c, RangesBelow(low, to, size))| >= count)
  }

  lemma {:induction false} DescSplit(hi: nat, lo: nat, size: nat, j: nat)
    requires size >= 1 && 1 <= j <= |DescTiling(hi, lo, size)|
    ensures var low := DescTiling(hi, lo, size)[j - 1].lo;
            && lo <= low <= hi
            && DescTiling(hi, lo, size)[..j] == DescTiling(hi, low, size)
            && DescTiling(hi, lo, size)[j..] == RangesBelow(low, lo, size)
    decreases hi
  {
    hide BatchLow;
    DescFirst(hi, lo, size);
    if j > 1 {
      var first := BatchLow(hi, lo, size);
      DescSplit(first - 1, lo, size, j - 1);
      DescLater(hi, lo, size, j);
    }
  }

  lemma DescFirst(hi: nat, lo: nat, size: nat)
    requires size >= 1 && lo <= hi
    ensures var low := BatchLow(hi, lo, size);
            && lo <= low <= hi
            && DescTiling(hi, lo, size) == [Range(low, hi)] + RangesBelow(low, lo, size)
            && DescTiling(hi, lo, size)[..1] == [Range(low, hi)] == DescTiling(hi, low, size)
            && DescTiling(hi, lo, size)[1..] == RangesBelow(low, lo, size)
  {
    hide DescTiling, BatchLow, RangesBelow;
    DescOne(hi, lo, size);
    DescUnfold(hi, lo, size);
    FirstOf(Range(BatchLow(hi, lo, size), hi), RangesBelow(BatchLow(hi, lo, size), lo, size));
  }

  lemma DescUnfold(hi: nat, lo: nat, size: nat)
    requires size >= 1 && lo <= hi
    ensures lo <= BatchLow(hi, lo, size)
    ensures DescTiling(hi, lo, size) == [Range(BatchLow(hi, lo, size), hi)] + RangesBelow(BatchLow(hi, lo, size), lo, size)
  {
  }

  lemma FirstOf(first: Range, rest: seq<Range>)
    ensures ([first] + rest)[..1] == [first] && ([first] + rest)[1..] == rest
  {
  }

  lemma DescLater(hi: nat, lo: nat, size: nat, j: nat)
    requires size >= 1 && lo <= hi && 1 < j <= |DescTiling(hi, lo, size)| && BatchLow(hi, lo, size) > lo
    requires var ranges := DescTiling(BatchLow(hi, lo, size) - 1, lo, size);
             && j - 1 <= |ranges| && lo <= ranges[j - 2].lo < BatchLow(hi, lo, size)
             && ranges[..j - 1] == DescTiling(BatchLow(hi, lo, size) - 1, ranges[j - 2].lo, size)
    ensures var ranges := DescTiling(BatchLow(hi, lo, size) - 1, lo, size);
            var low := DescTiling(hi, lo, size)[j - 1].lo;
            && low == ranges[j - 2].lo
            && DescTiling(hi, lo, size)[..j] == DescTiling(hi, low, size)
            && DescTiling(hi, lo, size)[j..] == ranges[j - 1..]
  {
    hide DescTiling, BatchLow;
    var first := Range(BatchLow(hi, lo, size), hi);
    var ranges := DescTiling(first.lo - 1, lo, size);
    DescFirst(hi, lo, size);
    DescHead(hi, lo, ranges[j - 2].lo, size);
    OneBefore(first, ranges, j);
  }

  lemma OneBefore(first: Range, ranges: seq<Range>, j: nat)
    requires 1 < j <= |ranges| + 1
    ensures ([first] + ranges)[..j] == [first] + ranges[..j - 1] && ([first] + ranges)[j..] == ranges[j - 1..]
    ensures ([first] + ranges)[j - 1] == ranges[j - 2]
  {
  }

  lemma DescOne(hi: nat, lo: nat, size: nat)
    requires size >= 1 && lo <= hi
    ensures var low := BatchLow(hi, lo, size);
            lo <= low <= hi && DescTiling(hi, low, size) == [Range(low, hi)]
  {
    assert [Range(BatchLow(hi, lo, size), hi)] + [] == [Range(BatchLow(hi, lo, size), hi)];
  }

  lemma DescHead(hi: nat, lo: nat, low: nat, size: nat)
    requires size >= 1 && lo <= hi && lo <= low < BatchLow(hi, lo, size)
    ensures DescTiling(hi, low, size) == [Range(BatchLow(hi, lo, size), hi)] + DescTiling(BatchLow(hi, lo, size) - 1, low, size)
  {
  }

  /** What a discard down to `f` leaves of the blocks from `low` up to the tip are the logs of the
      blocks below the rescan, which the new branch shares. */
  lemma DiscardLeaves(c: Chain, b: Chain, f: nat, low: nat, tip: nat, size: nat, count: nat)
    requires size >= 1 && count >= 1 && low <= tip < |c.blocks| && tip < |b.blocks| && |LogsIn(c, low, tip + 1)| < count
    requires low < RescanStart(f, tip) ==> AgreeBelow(c, b, RescanStart(f, tip))
    ensures var s := Gather(EMPTY, c, DescTiling(tip, low, size), count);
            var start := RescanStart(f, tip);
            var logs := LogsIn(b, Min(low, start), start);
            !s.done && |logs| < count && DiscardOrphaned(s.collected, f) == Reversed(logs)
  {
    hide Gather, DescTiling, LogsIn, Reversed, DiscardOrphaned, Holds, AgreeBelow;
    var start := RescanStart(f, tip);
    var mid := Max(low, start);
    SameBelow(c, b, low, start);
    ScannedHolds(c, low, tip, size, count);
    LogsInConcat(c, low, mid, tip + 1);
    LogsInBounds(c, low, mid);
    LogsInBounds(c, mid, tip + 1);
    DiscardNewer(Gather(EMPTY, c, DescTiling(tip, low, size), count), LogsIn(c, low, mid), LogsIn(c, mid, tip + 1), f, count);
  }

  lemma ScannedHolds(c: Chain, low: nat, tip: nat, size: nat, count: nat)
    requires size >= 1 && low <= tip < |c.blocks|
    ensures Holds(Gather(EMPTY, c, DescTiling(tip, low, size), count), LogsIn(c, low, tip + 1), count)
  {
    hide Gather, DescTiling, LogsIn, Holds;
    LogsInNothing(c, tip + 1);
    NothingHeld(count);
    OlderGathers(EMPTY, c, tip, low, tip + 1, size, count);
  }

  lemma NothingHeld(count: nat)
    ensures Holds(EMPTY, [], count)
  {
    assert Reversed<Log>([]) == [];
  }

  lemma SameBelow(c: Chain, b: Chain, low: nat, start: nat)
    requires low <= |c.blocks| && start <= |b.blocks| && (low < start ==> AgreeBelow(c, b, start))
    ensures Max(low, start) <= |c.blocks|
    ensures LogsIn(c, low, Max(low, start)) == LogsIn(b, Min(low, start), start)
  {
    if low < start {
      BlocksAgree(c, b, low, start);
    } else {
      LogsInNothing(c, low);
      LogsInNothing(b, start);
    }
  }

  lemma DiscardNewer(s: Collector, older: seq<Log>, newer: seq<Log>, f: nat, count: nat)
    requires count >= 1 && Holds(s, older + newer, count) && |older + newer| < count
    requires AtMost(older, f) && forall i | 0 <= i < |newer| :: newer[i].block > f
    ensures !s.done && DiscardOrphaned(s.collected, f) == Reversed(older)
  {
    ReversedConcat(older, newer);
    ReversedIndex(older);
    ReversedIndex(newer);
    hide Reversed, DiscardOrphaned;
    DiscardSplit(Reversed(newer), Reversed(older), f);
  }

  /** What fills the buffer in the middle of a rescan is what is wanted exactly when no log
      follows. */
  lemma FilledIff(c: Chain, low: nat, to: nat, top: nat, tip: nat, count: nat)
    requires count >= 1 && to <= tip < |c.blocks| && low <= top <= tip + 1 && |LogsIn(c, low, top)| >= count
    ensures Take(Reversed(LogsIn(c, low, top)), count) == Wanted(c, to, tip, count)
       <==> LogsIn(c, top, tip + 1) == [] && |LogsIn(c, to, tip + 1)| >= count
  {
    hide LogsIn, Reversed, Take;
    FullTake(LogsIn(c, low, top), count);
    WantedLength(c, to, tip, count);
    if |LogsIn(c, to, tip + 1)| >= count {
      NewestBounds(c, low, top, count);
      if LogsIn(c, top, tip + 1) == [] {
        SameNewest(c, low, to, top, tip, count);
      } else {
        NewerIsWanted(c, to, top, tip, count);
      }
    }
  }

  lemma FullTake(logs: seq<Log>, count: nat)
    requires |logs| >= count
    ensures |Take(Reversed(logs), count)| == count
  {
  }

  lemma WantedLength(c: Chain, to: nat, tip: nat, count: nat)
    requires tip < |c.blocks|
    ensures |Wanted(c, to, tip, count)| == Min(count, |LogsIn(c, to, tip + 1)|)
  {
  }

  lemma NewestBounds(c: Chain, lo: nat, top: nat, count: nat)
    requires count >= 1 && top <= |c.blocks| && LogsIn(c, lo, top) != []
    ensures var kept := Take(Reversed(LogsIn(c, lo, top)), count); kept != [] && lo <= kept[0].block < top
  {
    LogsInBounds(c, lo, top);
    hide LogsIn;
    ReversedIndex(LogsIn(c, lo, top));
    hide Reversed;
  }

  lemma NewerIsWanted(c: Chain, to: nat, top: nat, tip: nat, count: nat)
    requires count >= 1 && to <= tip < |c.blocks| && top <= tip + 1
    requires LogsIn(c, top, tip + 1) != [] && LogsIn(c, to, tip + 1) != []
    ensures Wanted(c, to, tip, count) != [] && Wanted(c, to, tip, count)[0].block >= top
  {
    hide LogsIn, Take, Reversed;
    if to <= top {
      WantedIsOrdered(c, to, tip, top, count, count);
      WantedLength(c, to, tip, count);
      hide Wanted;
    } else {
      NewestBounds(c, to, tip + 1, count);
    }
  }

  lemma SameNewest(c: Chain, lo: nat, to: nat, top: nat, tip: nat, count: nat)
    requires lo <= top <= tip + 1 <= |c.blocks| && to <= tip && LogsIn(c, top, tip + 1) == []
    requires |LogsIn(c, lo, top)| >= count >= 1 && |LogsIn(c, to, tip + 1)| >= count
    ensures Take(Reversed(LogsIn(c, lo, top)), count) == Wanted(c, to, tip, count)
  {
    hide LogsIn, Reversed, Take;
    LogsInConcat(c, lo, top, tip + 1);
    assert LogsIn(c, lo, top) + [] == LogsIn(c, lo, top);
    if to <= lo {
      LogsInConcat(c, to, lo, tip + 1);
      NewestSuffix(LogsIn(c, to, lo), LogsIn(c, lo, tip + 1), count);
    } else {
      LogsInConcat(c, lo, to, tip + 1);
      NewestSuffix(LogsIn(c, lo, to), LogsIn(c, to, tip + 1), count);
    }
  }

  lemma NewestSuffix(older: seq<Log>, newer: seq<Log>, count: nat)
    requires |newer| >= count
    ensures Take(Reversed(older + newer), count) == Take(Reversed(newer), count)
  {
    ReversedConcat(older, newer);
    assert |Reversed(newer)| == |newer|;
    hide Reversed;
  }

  /** Nothing was rescanned below what had been scanned: the rest of the run is as usual. */
  lemma ShallowRest(s: Collector, c: Chain, f: nat, low: nat, to: nat, tip: nat, size: nat, count: nat)
    requires size >= 1 && low <= tip < |c.blocks| && to <= low && count >= 1 && s.reorgAncestor == Some(f)
    requires Holds(s, LogsIn(c, Min(low, RescanStart(f, tip)), tip + 1), count)
    requires low <= RescanStart(f, tip) || LogsIn(c, RescanStart(f, tip), low) == []
    ensures Gather(s, c, RangesBelow(low, to, size), count).collected == Wanted(c, to, tip, count)
  {
    hide LogsIn, Holds, Gather, DescTiling;
    if RescanStart(f, tip) < low {
      LogsInConcat(c, f + 1, low, tip + 1);
      assert [] + LogsIn(c, low, tip + 1) == LogsIn(c, low, tip + 1);
    }
    NoneAbove(c, f, low, tip, to);
    if low == to {
      NoRanges(s, c, count);
      HoldsWanted(s, c, low, tip, count);
    } else {
      OlderGathers(s, c, low - 1, to, tip + 1, size, count);
      HoldsWanted(Gather(s, c, RangesBelow(low, to, size), count), c, to, tip, count);
    }
  }

  lemma HoldsWanted(s: Collector, c: Chain, to: nat, tip: nat, count: nat)
    requires tip < |c.blocks| && Holds(s, LogsIn(c, to, tip + 1), count)
    ensures s.collected == Wanted(c, to, tip, count)
  {
  }

  lemma NoneAbove(c: Chain, f: nat, low: nat, tip: nat, to: nat)
    requires to <= low <= tip < |c.blocks|
    requires low <= RescanStart(f, tip) || LogsIn(c, RescanStart(f, tip), low) == []
    ensures AtMost(LogsIn(c, to, low), f)
  {
    hide LogsIn;
    if low <= RescanStart(f, tip) {
      LogsInBounds(c, to, low);
    } else if to <= f + 1 {
      LogsInConcat(c, to, f + 1, low);
      LogsInBounds(c, to, f + 1);
      assert LogsIn(c, to, f + 1) + [] == LogsIn(c, to, f + 1);
    } else {
      LogsInConcat(c, f + 1, to, low);
    }
  }

  /** What is left of the ranges after the rescan. */
  lemma RecoversIff(s0: Collector, c: Chain, f: nat, low: nat, to: nat, tip: nat, size: nat, count: nat)
    requires size >= 1 && count >= 1 && to <= low <= tip < |c.blocks|
    requires var logs := LogsIn(c, Min(low, RescanStart(f, tip)), RescanStart(f, tip));
             |logs| < count && s0 == Collector(Reversed(logs), Some(f), false)
    ensures var s := Gather(s0, c, Tiling(f + 1, tip, size), count);
            Gather(s, c, RangesBelow(low, to, size), count).collected == Wanted(c, to, tip, count)
            <==> RecoversFrom(c, f, low, to, tip, size, count)
  {
    hide LogsIn, Holds, Wanted, RescanTop, Take, Reversed, FirstLogs, DescTiling;
    var start := RescanStart(f, tip);
    var kept := Min(low, start);
    assert Tiling(f + 1, tip, size) == Tiling(start, tip, size);
    hide Tiling;
    ReversedHolds(LogsIn(c, kept, start), Some(f), count);
    RescanFills(s0, c, f, kept, start, tip, size, count);
    var s := Gather(s0, c, Tiling(start, tip, size), count);
    var top := RescanTop(c, kept, start, tip, size, count);
    hide Gather;
    if s.done {
      DoneGathers(s, c, RangesBelow(low, to, size), count);
      HeldOf(s, LogsIn(c, kept, top), count);
      FilledIff(c, kept, to, top, tip, count);
    } else if low <= start || LogsIn(c, start, low) == [] {
      ShallowRest(s, c, f, low, to, tip, size, count);
    } else {
      DeepRest(s, c, f, low, to, tip, size, count);
    }
  }

  /** Logs were rescanned below what had been scanned. */
  lemma DeepRest(s: Collector, c: Chain, f: nat, low: nat, to: nat, tip: nat, size: nat, count: nat)
    requires size >= 1 && to <= low && DeeplyRescanned(s, c, f, low, tip, count)
    ensures Gather(s, c, RangesBelow(low, to, size), count).collected == Wanted(c, to, tip, count)
            <==> LogsIn(c, low, tip + 1) == [] && |FirstLogs(c, RangesBelow(low, to, size))| >= count
  {
    hide LogsIn, Holds, Wanted, Gather, FirstLogs, DescTiling;
    LogsInNothing(c, low);
    if low == to {
      NoLogsBelow(s, c, f, to, low, tip, count);
      NoRanges(s, c, count);
    } else {
      DeepDescent(s, c, f, low - 1, to, low, tip, size, count);
    }
  }

  lemma ReversedHolds(logs: seq<Log>, reorgAncestor: Option<nat>, count: nat)
    requires |logs| < count
    ensures Holds(Collector(Reversed(logs), reorgAncestor, false), logs, count)
  {
  }

  lemma HeldOf(s: Collector, all: seq<Log>, count: nat)
    requires Holds(s, all, count)
    ensures s.collected == Take(Reversed(all), count)
  {
  }

  lemma LogsInNothing(c: Chain, n: nat)
    requires n <= |c.blocks|
    ensures LogsIn(c, n, n) == []
  {
  }

  lemma NoRanges(s: Collector, c: Chain, count: nat)
    ensures Gather(s, c, [], count) == s && FirstLogs(c, []) == []
  {
  }

  /** The buffer was full before the reorg: the loop has ended with the newest logs of its time. */
  lemma FullBeforeReorg(c: Chain, b: Chain, f: nat, low: nat, to: nat, tip: nat, size: nat, count: nat)
    requires size >= 1 && count >= 1 && to <= low <= tip < |c.blocks| && |LogsIn(c, low, tip + 1)| >= count
    ensures var s := Gather(EMPTY, c, DescTiling(tip, low, size), count);
            && s.done && s.collected == Wanted(c, to, tip, count)
            && Gather(Gather(s, b, Tiling(f + 1, tip, size), count), b, RangesBelow(low, to, size), count) == s
  {
    hide Gather, DescTiling, Tiling, LogsIn, Holds, Reversed, Take;
    var s := Gather(EMPTY, c, DescTiling(tip, low, size), count);
    ScannedHolds(c, low, tip, size, count);
    NotFull(s, LogsIn(c, low, tip + 1), count);
    HeldOf(s, LogsIn(c, low, tip + 1), count);
    LogsInConcat(c, to, low, tip + 1);
    NewestSuffix(LogsIn(c, to, low), LogsIn(c, low, tip + 1), count);
    DoneGathers(s, b, Tiling(f + 1, tip, size), count);
    DoneGathers(s, b, RangesBelow(low, to, size), count);
  }

  /** Latest-events mode with one reorg. The run has checked `j` ranges, down to block `low`, on the
      branch `c`; its `j`-th check sees a snapshot `x` that has lost the tip and has the finalized
      height `f`; afterwards the interval is that of the branch `b`, which shares the blocks up to
      `f` that had been scanned. Then the collector ends up with the newest `count` logs of the
      interval on `b` exactly in the cases above; but if its buffer was full before the reorg, it
      has ended with the newest logs on `c`. */
  lemma ReorgDeliversNewestIff(
    from: Block, to: nat, size: nat, capacity: Capacity, c: Chain, b: Chain, f: nat, j: nat,
    first: Moment, pre: seq<Moment>, x: Moment, post: seq<Moment>, count: nat)
    requires size >= 1 && count >= 1 && to <= from.number
    requires 1 <= j <= |DescTiling(from.number, to, size)| && |pre| == 2 * j - 1
    requires ForksOnce(pre + ([x] + post), pre, x, post, c, b, f, from)
    requires from.number > if KnowsFinalized(first) then first.chain.finalized.value else 0
    requires var low, start := DescTiling(from.number, to, size)[j - 1].lo, RescanStart(f, from.number);
             low < start ==> AgreeBelow(c, b, start)
    requires StreamRewind(from, to, size, capacity, World([first] + (pre + ([x] + post)), [])).Going?
    ensures var run := StreamRewind(from, to, size, capacity, World([first] + (pre + ([x] + post)), []));
            var low := DescTiling(from.number, to, size)[j - 1].lo;
            var collected := Collect(EMPTY, run.w.history, count).collected;
            && to <= low <= from.number
            && if |LogsIn(c, low, from.number + 1)| >= count then collected == Wanted(c, to, from.number, count)
               else (collected == Wanted(b, to, from.number, count) <==> RecoversFrom(b, f, low, to, from.number, size, count))
  {
    hide StreamRewind, ForksOnce, RecoversFrom, LogsIn, Wanted, Gather, Tiling, AgreeBelow, Reversed, DiscardOrphaned;
    var ranges := DescTiling(from.number, to, size);
    DescSplit(from.number, to, size, j);
    var low, start := ranges[j - 1].lo, RescanStart(f, from.number);
    hide DescTiling;
    RunRecovers(from, to, size, capacity, c, b, f, j, first, pre, x, post, count);
    BranchesAreLong(pre, x, post, c, b, f, from);
    if |LogsIn(c, low, from.number + 1)| >= count {
      FullBeforeReorg(c, b, f, low, to, from.number, size, count);
    } else {
      DiscardLeaves(c, b, f, low, from.number, size, count);
      var s0 := Collector(Reversed(LogsIn(b, Min(low, start), start)), Some(f), false);
      assert EMPTY.(collected := s0.collected, reorgAncestor := Some(f)) == s0;
      RecoversIff(s0, b, f, low, to, from.number, size, count);
    }
  }

  lemma BranchesAreLong(pre: seq<Moment>, x: Moment, post: seq<Moment>, c: Chain, b: Chain, f: nat, tip: Block)
    requires ForksOnce(pre + ([x] + post), pre, x, post, c, b, f, tip)
    ensures tip.number < |c.blocks| && tip.number < |b.blocks|
  {
  }

  // -------------------------------------------------------------------------
  // Runs with a reorg
  // -------------------------------------------------------------------------

  /** A branch without logs, and one with a log in each of the blocks 1 to 3. They share block 0. */
  const BARE: Chain := ChainData([Content(0, []), Content(1, []), Content(2, []), Content(3, [])], Some(0))
  const FULL: Chain := ChainData([Content(0, []), Content(11, [1]), Content(12, [2]), Content(13, [3])], Some(0))

  /** The tip is block 3 of the branch without logs; the check after range `j` sees the other
      branch, and so does everything after it. */
  function BranchRun(to: nat, size: nat, j: nat, after: nat): Rewinding
    requires size >= 1 && j >= 1
  {
    StreamRewind(BlockAt(BARE, 3), to, size, Infinite, World([Up(BARE)] + BranchMoments(j, after), []))
  }

  function BranchMoments(j: nat, after: nat): seq<Moment>
    requires j >= 1
  {
    Always(BARE, 2 * j - 1) + ([Up(FULL)] + Always(FULL, after))
  }

  function Always(c: Chain, n: nat): seq<Moment> {
    seq(n, _ => Up(c))
  }

  lemma BranchForks(j: nat, after: nat)
    requires j >= 1
    ensures ForksOnce(BranchMoments(j, after), Always(BARE, 2 * j - 1), Up(FULL), Always(FULL, after), BARE, FULL, 0, BlockAt(BARE, 3))
    ensures AllUp(BranchMoments(j, after))
  {
    assert HashAt(BARE, 3)[1] != HashAt(FULL, 3)[1];
  }

  lemma BranchRunCollects(to: nat, size: nat, j: nat, after: nat, count: nat)
    requires size >= 1 && to <= 3 && 1 <= j <= |DescTiling(3, to, size)|
    requires after >= 2 + |Tiling(1, 3, size)| + 2 * (|DescTiling(3, to, size)| - j)
    ensures BranchRun(to, size, j, after).Going?
    ensures Collect(EMPTY, BranchRun(to, size, j, after).w.history, count)
         == AfterReorg(EMPTY, BARE, FULL, 0, j, DescTiling(3, to, size), 3, size, count)
    ensures Outputs(BranchRun(to, size, j, after).w.history, count)
         == [Outcome(AfterReorg(EMPTY, BARE, FULL, 0, j, DescTiling(3, to, size), 3, size, count))]
  {
    hide Outputs, Outcome, LastError, StreamRewind, AfterReorg, ForksOnce, Collect, DescTiling, Tiling, AllUp, HashAt;
    BranchForks(j, after);
    RunRecovers(BlockAt(BARE, 3), to, size, Infinite, BARE, FULL, 0, j,
                Up(BARE), Always(BARE, 2 * j - 1), Up(FULL), Always(FULL, after), count);
    LatestModeForwardsErrors(BlockAt(BARE, 3), to, size, Infinite, [Up(BARE)] + BranchMoments(j, after), count);
  }

  lemma TilesOfFull()
    ensures Tiling(1, 3, 1) == [Range(1, 1), Range(2, 2), Range(3, 3)]
    ensures DescTiling(3, 1, 1) == [Range(3, 3), Range(2, 2), Range(1, 1)]
    ensures DescTiling(3, 3, 1) == [Range(3, 3)]
  {
    assert Tiling(4, 3, 1) == [];
    assert Tiling(3, 3, 1) == [Range(3, 3)];
    assert Tiling(2, 3, 1) == [Range(2, 2)] + Tiling(3, 3, 1);
    assert Tiling(1, 3, 1) == [Range(1, 1)] + Tiling(2, 3, 1);
    assert DescTiling(1, 1, 1) == [Range(1, 1)];
    assert DescTiling(2, 1, 1) == [Range(2, 2)] + DescTiling(1, 1, 1);
    assert DescTiling(3, 1, 1) == [Range(3, 3)] + DescTiling(2, 1, 1);
    assert DescTiling(3, 3, 1) == [Range(3, 3)];
  }

  /** The log of block `k` on the branch with logs. */
  function LogAt(k: nat): Log {
    Log(k, k)
  }

  lemma FullLogs(k: nat)
    requires 1 <= k <= 3
    ensures FetchLogs(FULL, Range(k, k)) == [LogAt(k)]
    ensures FetchLogs(BARE, Range(3, 3)) == []
  {
    hide FetchLogs, Tagged;
    BlockLogs(FULL, k);
    BlockLogs(BARE, 3);
    FullBlock(k);
    TagOne(k, k);
    assert Tagged(3, []) == [] by {
      TagNothing(3);
    }
  }

  lemma FullBlock(k: nat)
    requires 1 <= k <= 3
    ensures FULL.blocks[k].logs == [k]
  {
  }

  lemma TagOne(n: nat, d: int)
    ensures Tagged(n, [d]) == [Log(n, d)]
  {
  }

  lemma TagNothing(n: nat)
    ensures Tagged(n, []) == []
  {
  }

  lemma BlockLogs(c: Chain, k: nat)
    requires k < |c.blocks|
    ensures FetchLogs(c, Range(k, k)) == Tagged(k, c.blocks[k].logs)
  {
    hide Tagged;
    assert Read(c, Range(k, k)) == Blocks(c, k, k + 1);
    BlocksIndex(c, k, k + 1);
    assert Blocks(c, k, k + 1) == [BlockAt(c, k)];
    OneBlock(BlockAt(c, k));
    assert BlockAt(c, k).hash[k] == c.blocks[k];
    hide LogsOf, Blocks;
  }

  lemma OneBlock(x: Block)
    ensures LogsOf([x]) == Tagged(x.number, x.hash[x.number].logs)
  {
    hide Tagged;
    assert [x][..0] == [];
    assert LogsOf([]) == [];
    assert [] + Tagged(x.number, x.hash[x.number].logs) == Tagged(x.number, x.hash[x.number].logs);
  }

  lemma OneLog(s: Collector, k: nat, count: nat)
    requires !s.done && s.reorgAncestor == Some(0) && 1 <= k
    ensures OnLogs(s, [LogAt(k)], count)
         == (var collected := Take([LogAt(k)] + s.collected, count); Collector(collected, Some(0), |collected| >= count))
  {
    assert [LogAt(k)][1..] == [];
    assert Reversed([LogAt(k)]) == [LogAt(k)];
  }

  /** The rescan of the three blocks with room for one log, and with room for more than three. */
  lemma RescanStops()
    ensures Gather(Collector([], Some(0), false), FULL, Tiling(1, 3, 1), 1) == Collector([LogAt(1)], Some(0), true)
  {
    hide FetchLogs, OnLogs, Tiling, DescTiling, Gather, LogAt;
    TilesOfFull();
    FullLogs(1);
    var s0 := Collector([], Some(0), false);
    var rest := [Range(2, 2), Range(3, 3)];
    assert [Range(1, 1)] + rest == [Range(1, 1), Range(2, 2), Range(3, 3)];
    GatherSplit(s0, FULL, Range(1, 1), rest, 1);
    GatherOne(s0, FULL, Range(1, 1), 1);
    OneLog(s0, 1, 1);
    assert [LogAt(1)] + [] == [LogAt(1)];
    DoneGathers(OnLogs(s0, [LogAt(1)], 1), FULL, rest, 1);
  }

  lemma RescanCompletes(count: nat)
    requires count > 3
    ensures Gather(Collector([], Some(0), false), FULL, Tiling(1, 3, 1), count)
         == Collector([LogAt(3), LogAt(2), LogAt(1)], Some(0), false)
  {
    hide FetchLogs, OnLogs, Tiling, DescTiling, Gather, LogAt;
    TilesOfFull();
    var s0, s1 := Collector([], Some(0), false), Collector([LogAt(1)], Some(0), false);
    var s2, s3 := Collector([LogAt(2), LogAt(1)], Some(0), false), Collector([LogAt(3), LogAt(2), LogAt(1)], Some(0), false);
    PutInFront(s0, 1, count, s1);
    PutInFront(s1, 2, count, s2);
    PutInFront(s2, 3, count, s3);
    GatherSplit(s0, FULL, Range(1, 1), [Range(2, 2), Range(3, 3)], count);
    GatherSplit(s1, FULL, Range(2, 2), [Range(3, 3)], count);
    assert [Range(1, 1)] + [Range(2, 2), Range(3, 3)] == [Range(1, 1), Range(2, 2), Range(3, 3)];
    assert [Range(2, 2)] + [Range(3, 3)] == [Range(2, 2), Range(3, 3)];
  }

  /** A range of the rescan puts its log in front of the others. */
  lemma PutInFront(s: Collector, k: nat, count: nat, next: Collector)
    requires 1 <= k <= 3 && !s.done && s.reorgAncestor == Some(0) && |s.collected| + 1 < count
    requires next.collected == [LogAt(k)] + s.collected && next.reorgAncestor == Some(0) && !next.done
    ensures Gather(s, FULL, [Range(k, k)], count) == next
  {
    hide FetchLogs, OnLogs, Gather, LogAt;
    FullLogs(k);
    GatherOne(s, FULL, Range(k, k), count);
    OneLog(s, k, count);
  }

  lemma NothingOnBare(count: nat)
    ensures Gather(EMPTY, BARE, [Range(3, 3)], count) == EMPTY
  {
    hide FetchLogs, Gather;
    FullLogs(1);
    GatherOne(EMPTY, BARE, Range(3, 3), count);
    NoLogsFetched(count);
    hide OnLogs;
  }

  lemma NoLogsFetched(count: nat)
    ensures OnLogs(EMPTY, [], count) == EMPTY
  {
  }

  lemma GatherOne(s: Collector, c: Chain, r: Range, count: nat)
    ensures Gather(s, c, [r], count) == if s.done then s else OnLogs(s, FetchLogs(c, r), count)
  {
    hide OnLogs, FetchLogs;
    assert [r][1..] == [];
  }

  /** Blocks 3 down to 1, one range each, with room for ten logs. The reorg is found after block 3
      was scanned, and everything above block 0 is scanned again. Blocks 2 and 1 then come a third
      time: their logs are delivered twice, and out of order. */
  lemma DeepRescanRun()
    ensures BranchRun(1, 1, 1, 9).Going?
    ensures Outputs(BranchRun(1, 1, 1, 9).w.history, 10) == [Logs([LogAt(1), LogAt(2), LogAt(3), LogAt(2), LogAt(1)])]
  {
    hide BranchRun, Collect, Outputs, FetchLogs, OnLogs, Tiling, DescTiling, Gather, AfterReorg, LogAt, Reversed;
    TilesOfFull();
    BranchRunCollects(1, 1, 1, 9, 10);
    RescanCompletes(10);
    NothingOnBare(10);
    var ranges := [Range(3, 3), Range(2, 2), Range(1, 1)];
    assert ranges[..1] == [Range(3, 3)] && ranges[1..] == [Range(2, 2)] + [Range(1, 1)];
    var s := Collector([LogAt(3), LogAt(2), LogAt(1)], Some(0), false);
    var s2 := Collector([LogAt(2), LogAt(3), LogAt(2), LogAt(1)], Some(0), false);
    var s3 := Collector([LogAt(1), LogAt(2), LogAt(3), LogAt(2), LogAt(1)], Some(0), false);
    PutInFront(s, 2, 10, s2);
    PutInFront(s2, 1, 10, s3);
    GatherSplit(s, FULL, Range(2, 2), [Range(1, 1)], 10);
    FiveReversed(s3.collected);
    AfterIs(10, ranges, s3);
  }

  lemma AfterIs(count: nat, ranges: seq<Range>, s: Collector)
    requires |ranges| >= 1 && ranges[..1] == [Range(3, 3)] && Gather(EMPTY, BARE, [Range(3, 3)], count) == EMPTY
    requires Gather(Gather(Collector([], Some(0), false), FULL, Tiling(1, 3, 1), count), FULL, ranges[1..], count) == s
    ensures AfterReorg(EMPTY, BARE, FULL, 0, 1, ranges, 3, 1, count) == s
  {
    hide Gather, Tiling;
    assert DiscardOrphaned([], 0) == [];
  }

  lemma FiveReversed(s: seq<Log>)
    requires s == [LogAt(1), LogAt(2), LogAt(3), LogAt(2), LogAt(1)]
    ensures Reversed(s) == s
  {
    ReversedIndex(s);
  }

  /** The same run with room for one log: the rescan stops at block 1, and the log of block 3 is
      never seen. */
  lemma EarlyStopRun()
    ensures BranchRun(1, 1, 1, 9).Going?
    ensures Outputs(BranchRun(1, 1, 1, 9).w.history, 1) == [Logs([LogAt(1)])]
    ensures Wanted(FULL, 1, 3, 1) == [LogAt(3)]
  {
    hide BranchRun, Collect, Outputs, FetchLogs, OnLogs, Tiling, DescTiling, LogsIn, Gather, AfterReorg, LogAt, Reversed;
    TilesOfFull();
    BranchRunCollects(1, 1, 1, 9, 1);
    RescanStops();
    NothingOnBare(1);
    NewestLog(1);
    var s := Collector([LogAt(1)], Some(0), true);
    var ranges := [Range(3, 3), Range(2, 2), Range(1, 1)];
    assert ranges[..1] == [Range(3, 3)];
    DoneGathers(s, FULL, ranges[1..], 1);
    AfterIs(1, ranges, s);
    OneReversed(LogAt(1));
  }

  lemma OneReversed(x: Log)
    ensures Reversed([x]) == [x]
  {
    assert [x][1..] == [];
  }

  /** Only block 3 is asked for. The rescan starts above the finalized block all the same, so the
      logs of blocks 1 and 2 are delivered as well. */
  lemma BelowIntervalRun()
    ensures BranchRun(3, 1, 1, 5).Going?
    ensures Outputs(BranchRun(3, 1, 1, 5).w.history, 10) == [Logs([LogAt(1), LogAt(2), LogAt(3)])]
  {
    hide BranchRun, Collect, Outputs, Tiling, DescTiling, Gather, AfterReorg, LogAt, Reversed;
    TilesOfFull();
    BranchRunCollects(3, 1, 1, 5, 10);
    RescanCompletes(10);
    NothingOnBare(10);
    var s := Collector([LogAt(3), LogAt(2), LogAt(1)], Some(0), false);
    var ranges := [Range(3, 3)];
    assert ranges[..1] == [Range(3, 3)] && ranges[1..] == [];
    NoRanges(s, FULL, 10);
    AfterIs(10, ranges, s);
    ReversedIndex(s.collected);
    assert Reversed(s.collected) == [LogAt(1), LogAt(2), LogAt(3)];
  }

  /** Everything from block 0 on is scanned in ranges of two blocks when the reorg above block 0 is
      found, so the rescan stays inside. With room for one log it stops after blocks 1 and 2, and
      the log of block 3 is missed. */
  lemma ShallowEarlyStopRun()
    ensures BranchRun(0, 2, 2, 4).Going?
    ensures Outputs(BranchRun(0, 2, 2, 4).w.history, 1) == [Logs([LogAt(2)])]
    ensures Wanted(FULL, 0, 3, 1) == [LogAt(3)]
  {
    hide BranchRun, Collect, Outputs, FetchLogs, OnLogs, Tiling, DescTiling, LogsIn, Gather, AfterReorg, LogAt, Reversed;
    TilesOfTwo();
    BranchRunCollects(0, 2, 2, 4, 1);
    var ranges := [Range(2, 3), Range(0, 1)];
    assert ranges[..2] == ranges && ranges[2..] == [];
    NothingOnBareRanges();
    RescanOfTwoStops();
    TwoAfterIs(ranges, Collector([LogAt(2)], Some(0), true));
    OneReversed(LogAt(2));
    NewestLog(0);
  }

  lemma TwoAfterIs(ranges: seq<Range>, s: Collector)
    requires |ranges| == 2 && Gather(EMPTY, BARE, ranges[..2], 1) == EMPTY && s.done
    requires Gather(Collector([], Some(0), false), FULL, Tiling(1, 3, 2), 1) == s
    ensures AfterReorg(EMPTY, BARE, FULL, 0, 2, ranges, 3, 2, 1) == s
  {
    DiscardNothing(0);
    DoneGathers(s, FULL, ranges[2..], 1);
    hide Gather, Tiling, DiscardOrphaned;
  }

  lemma DiscardNothing(f: nat)
    ensures DiscardOrphaned([], f) == []
  {
  }

  lemma TilesOfTwo()
    ensures Tiling(1, 3, 2) == [Range(1, 2), Range(3, 3)]
    ensures DescTiling(3, 0, 2) == [Range(2, 3), Range(0, 1)]
  {
    assert Tiling(4, 3, 2) == [];
    assert Tiling(3, 3, 2) == [Range(3, 3)];
    assert Tiling(1, 3, 2) == [Range(1, 2)] + Tiling(3, 3, 2);
    assert DescTiling(1, 0, 2) == [Range(0, 1)];
    assert DescTiling(3, 0, 2) == [Range(2, 3)] + DescTiling(1, 0, 2);
  }

  lemma NothingOnBareRanges()
    ensures Gather(EMPTY, BARE, [Range(2, 3), Range(0, 1)], 1) == EMPTY
  {
    hide FetchLogs, Gather, OnLogs;
    BareLogs(2);
    BareLogs(0);
    GatherOne(EMPTY, BARE, Range(2, 3), 1);
    GatherOne(EMPTY, BARE, Range(0, 1), 1);
    NoLogsFetched(1);
    GatherSplit(EMPTY, BARE, Range(2, 3), [Range(0, 1)], 1);
    assert [Range(2, 3)] + [Range(0, 1)] == [Range(2, 3), Range(0, 1)];
  }

  lemma BareLogs(lo: nat)
    requires lo <= 2
    ensures FetchLogs(BARE, Range(lo, lo + 1)) == []
  {
    hide FetchLogs, LogsIn, Tagged;
    RangeLogs(BARE, Range(lo, lo + 1));
    RangeLogs(BARE, Range(lo, lo));
    RangeLogs(BARE, Range(lo + 1, lo + 1));
    LogsInConcat(BARE, lo, lo + 1, lo + 2);
    BlockLogs(BARE, lo);
    BlockLogs(BARE, lo + 1);
    TagNothing(lo);
    TagNothing(lo + 1);
  }

  lemma RescanOfTwoStops()
    ensures Gather(Collector([], Some(0), false), FULL, Tiling(1, 3, 2), 1) == Collector([LogAt(2)], Some(0), true)
  {
    hide FetchLogs, OnLogs, Tiling, DescTiling, Gather, LogAt, LogsIn;
    TilesOfTwo();
    var s0 := Collector([], Some(0), false);
    FullLogs(1);
    FullLogs(2);
    RangeLogs(FULL, Range(1, 1));
    RangeLogs(FULL, Range(2, 2));
    RangeLogs(FULL, Range(1, 2));
    LogsInConcat(FULL, 1, 2, 3);
    GatherOne(s0, FULL, Range(1, 2), 1);
    TwoLogs(s0);
    GatherSplit(s0, FULL, Range(1, 2), [Range(3, 3)], 1);
    assert [Range(1, 2)] + [Range(3, 3)] == [Range(1, 2), Range(3, 3)];
    DoneGathers(Collector([LogAt(2)], Some(0), true), FULL, [Range(3, 3)], 1);
  }

  lemma TwoLogs(s: Collector)
    requires s == Collector([], Some(0), false)
    ensures OnLogs(s, [LogAt(1)] + [LogAt(2)], 1) == Collector([LogAt(2)], Some(0), true)
  {
    ReversedConcat([LogAt(1)], [LogAt(2)]);
    OneReversed(LogAt(1));
    OneReversed(LogAt(2));
    hide Reversed;
  }

  /** The newest log of the branch is that of block 3. */
  lemma NewestLog(to: nat)
    requires to <= 3
    ensures Wanted(FULL, to, 3, 1) == [LogAt(3)]
  {
    hide FetchLogs, LogsIn, LogAt, Reversed;
    FullLogs(3);
    RangeLogs(FULL, Range(3, 3));
    LogsInConcat(FULL, to, 3, 4);
    OneReversed(LogAt(3));
    NewestSuffix(LogsIn(FULL, to, 3), [LogAt(3)], 1);
  }
}
