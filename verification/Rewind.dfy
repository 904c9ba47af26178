/** Streaming an interval from its newest block to its oldest. */
module Rewind {
  import opened Wrappers
  import opened U64
  import opened Chains
  import opened RangeIterator
  import opened RingBuffers
  import opened ReorgHandler
  import opened Outside
  import opened Replay
  import opened Historical
  import opened LatestEvents

  /** The fixed arguments of one run. */
  datatype Params = Params(size: nat, checkReorg: bool, capacity: Capacity)

  /** `Going` runs have streamed all their ranges so far; `Halted` runs are over. */
  datatype Rewinding =
    | Going(tip: Block, buffer: seq<Block>, w: World)
    | Halted(tip: Block, buffer: seq<Block>, w: World)

  /** Notifies the reorg, replaces the tip and streams everything above the ancestor again. */
  function Rescan(p: Params, ancestor: nat, tip: Block, buffer: seq<Block>, w: World): Rewinding
    requires p.size >= 1
  {
    var (open, w1) := Send(w, ReorgDetected(ancestor));
    if !open then Halted(tip, buffer, w1)
    else
      var (fetched, w2) := Fetch(w1, tip.number);
      match fetched
      case Err(e) => Halted(tip, buffer, Report(w2, e))
      case Ok(newTip) =>
        var (open', w3) := SendAll(w2, Tiling(ancestor + 1, tip.number, p.size));
        if open' then Going(newTip, buffer, w3) else Halted(newTip, buffer, w3)
  }

  /** The check after a streamed range. */
  function CheckTip(p: Params, tip: Block, buffer: seq<Block>, w: World): Rewinding
    requires p.size >= 1
  {
    if !p.checkReorg then Going(tip, buffer, w)
    else
      var (answer, buffer', w1) := CheckNow(w, buffer, p.capacity, tip);
      match answer
      case Err(e) => Halted(tip, buffer', Report(w1, e))
      case Ok(None) => Going(tip, buffer', w1)
      case Ok(Some(ancestor)) => Rescan(p, ancestor.number, tip, buffer', w1)
  }

  function RewindRange(p: Params, range: Range, tip: Block, buffer: seq<Block>, w: World): Rewinding
    requires p.size >= 1
  {
    var (open, w1) := Send(w, Data(range));
    if !open then Halted(tip, buffer, w1) else CheckTip(p, tip, buffer, w1)
  }

  function RewindRanges(p: Params, ranges: seq<Range>, tip: Block, buffer: seq<Block>, w: World): Rewinding
    requires p.size >= 1
    decreases |ranges|
  {
    if ranges == [] then Going(tip, buffer, w)
    else
      match RewindRange(p, ranges[0], tip, buffer, w)
      case Halted(tip', buffer', w') => Halted(tip', buffer', w')
      case Going(tip', buffer', w') => RewindRanges(p, ranges[1..], tip', buffer', w')
  }

  /** A whole run from block `from` down to height `to`. Reorgs are only looked for when the
      newest block is above the finalized height. */
  function StreamRewind(from: Block, to: nat, size: nat, capacity: Capacity, w: World): Rewinding
    requires size >= 1
  {
    var f := FinalizedFor(from, w);
    var p := Params(size, from.number > f.height, capacity);
    RewindRanges(p, DescTiling(from.number, to, size), from, [], f.w)
  }

  /** The finalized height, or zero when the node does not tell. A run that starts at a finalized
      block makes no checks and relies on what it has read here. */
  function FinalizedFor(from: Block, w: World): Finalized {
    var m := Now(w);
    var finalized := if KnowsFinalized(m) then m.chain.finalized.value else 0;
    Finalized(finalized, if KnowsFinalized(m) && from.number <= finalized then Noted(Later(w), Anchored(m.chain, finalized + 1)) else Later(w))
  }

  // -------------------------------------------------------------------------
  // The handler
  // -------------------------------------------------------------------------

  ghost predicate Leaves(r: Rewinding, going: bool, tip: Block, buffer: seq<Block>, w: World) {
    r.Going? == going && r.tip == tip && r.buffer == buffer && r.w == w
  }

  class RewindHandler {
    const maxBlockRange: nat
    const env: Environment
    const handler: DefaultReorgHandler
    var tip: Block

    ghost predicate Valid()
      reads this, handler, handler.buffer
    {
      maxBlockRange >= 1 && handler.Valid()
    }

    constructor (maxBlockRange: nat, from: Block, capacity: Capacity, env: Environment)
      requires maxBlockRange >= 1
      ensures Valid() && fresh(handler) && fresh(handler.buffer)
      ensures handler.buffer.inner == [] && handler.buffer.capacity == capacity
      ensures tip == from && this.env == env && this.maxBlockRange == maxBlockRange
    {
      this.maxBlockRange := maxBlockRange;
      this.env := env;
      this.tip := from;
      this.handler := new DefaultReorgHandler(capacity);
    }

    method HandleReorgRescan(ancestor: nat) returns (going: bool)
      requires Valid() && tip.number < U64_MAX && ancestor < U64_MAX
      modifies this, env
      ensures tip.number == old(tip).number
      ensures var p := Params(maxBlockRange, true, handler.buffer.capacity);
              Leaves(Rescan(p, ancestor, old(tip), handler.buffer.inner, old(env.w)), going, tip, handler.buffer.inner, env.w)
    {
      going := env.TryStream(ReorgDetected(ancestor));
      if !going {
        return;
      }
      var fetched := env.GetBlockByNumber(tip.number);
      if fetched.Err? {
        var _ := env.TryStream(Error(fetched.error));
        return false;
      }
      tip := fetched.value;
      var iter := new ForwardIterator(ancestor + 1, tip.number, maxBlockRange);
      ghost var target := SendAll(env.w, iter.Remaining());
      while true
        invariant iter.Valid() && fresh(iter) && tip == fetched.value
        invariant target == SendAll(env.w, iter.Remaining())
        decreases |iter.Remaining()|
      {
        ghost var before := iter.Remaining();
        var batch := iter.Next();
        if batch == None {
          return true;
        }
        assert before[0] == batch.value && before[1..] == iter.Remaining();
        going := env.TryStream(Data(batch.value));
        if !going {
          return;
        }
      }
    }

    method CheckTipBlock() returns (going: bool)
      requires Valid() && tip.number < U64_MAX
      modifies this, env, handler.buffer
      ensures Valid() && tip.number == old(tip).number
      ensures var p := Params(maxBlockRange, true, handler.buffer.capacity);
              Leaves(CheckTip(p, old(tip), old(handler.buffer.inner), old(env.w)), going, tip, handler.buffer.inner, env.w)
    {
      var answer := handler.Check(env, tip);
      match answer {
        case Err(e) =>
          var _ := env.TryStream(Error(e));
          return false;
        case Ok(None) =>
          return true;
        case Ok(Some(ancestor)) =>
          AncestorIsNarrow(Now(old(env.w)).chain, old(handler.buffer.inner), handler.buffer.capacity, tip);
          going := HandleReorgRescan(ancestor.number);
      }
    }

    /** The body of the loop over the descending ranges. */
    method StreamRangeAndCheck(range: Range, checkReorg: bool) returns (going: bool)
      requires Valid() && tip.number < U64_MAX
      modifies this, env, handler.buffer
      ensures Valid() && tip.number == old(tip).number
      ensures var p := Params(maxBlockRange, checkReorg, handler.buffer.capacity);
              Leaves(RewindRange(p, range, old(tip), old(handler.buffer.inner), old(env.w)), going, tip, handler.buffer.inner, env.w)
    {
      going := env.TryStream(Data(range));
      if going && checkReorg {
        going := CheckTipBlock();
      }
    }

    method HandleStreamRewind(to: nat) returns (going: bool)
      requires Valid() && tip.number < U64_MAX && handler.buffer.inner == []
      modifies this, env, handler.buffer
      ensures Leaves(StreamRewind(old(tip), to, maxBlockRange, handler.buffer.capacity, old(env.w)),
                     going, tip, handler.buffer.inner, env.w)
    {
      hide RewindRange;
      var m := env.Observe();
      var finalized := if KnowsFinalized(m) then m.chain.finalized.value else 0;
      var checkReorg := tip.number > finalized;
      if KnowsFinalized(m) && !checkReorg {
        env.Record(Anchored(m.chain, finalized + 1));
      }
      ghost var p := Params(maxBlockRange, checkReorg, handler.buffer.capacity);
      var iter := new ReverseIterator(tip.number, to, maxBlockRange);
      ghost var target := RewindRanges(p, iter.Remaining(), tip, handler.buffer.inner, env.w);
      while true
        invariant Valid() && iter.Valid() && fresh(iter) && tip.number < U64_MAX
        invariant target == RewindRanges(p, iter.Remaining(), tip, handler.buffer.inner, env.w)
        decreases |iter.Remaining()|
      {
        ghost var before := iter.Remaining();
        var range := iter.Next();
        if range == None {
          return true;
        }
        assert before[0] == range.value && before[1..] == iter.Remaining();
        going := StreamRangeAndCheck(range.value, checkReorg);
        if !going {
          return;
        }
      }
    }
  }

  lemma AncestorIsNarrow(c: Chain, buffer: seq<Block>, capacity: Capacity, block: Block)
    ensures var r := CheckOn(c, buffer, capacity, block).0;
            r.Ok? && r.value.Some? ==> OnChain(c, r.value.value) && r.value.value.number < U64_MAX
  {
  }

  // -------------------------------------------------------------------------
  // The shape of the output
  // -------------------------------------------------------------------------

  /** The reorg buffer of a rewind knows at most the current tip. */
  predicate KnowsTip(tip: Block, buffer: seq<Block>) {
    buffer == [] || buffer == [tip]
  }

  /** With such a buffer a check keeps it so, and a reported ancestor is the finalized block. */
  lemma TipCheckReportsFinalized(c: Chain, tip: Block, buffer: seq<Block>, capacity: Capacity)
    requires KnowsTip(tip, buffer)
    ensures var (r, buffer') := CheckOn(c, buffer, capacity, tip);
            && (r == Ok(None) ==> KnowsTip(tip, buffer'))
            && (r.Ok? && r.value.Some? ==> buffer' == [] && c.finalized == Some(r.value.value.number) && !OnChain(c, tip))
  {
    if !OnChain(c, tip) && buffer != [] {
      assert buffer[..|buffer| - 1] == [];
    }
  }

  lemma TipCheckAnswers(c: Chain, tip: Block, buffer: seq<Block>, capacity: Capacity)
    ensures CheckOn(c, buffer, capacity, tip).0 == Ok(None) <==> OnChain(c, tip)
  {
  }

  /** What comes next: a descending range; the check of the tip; the notification of a reorg to a
      height; the new tip; a rescan that goes on at a height; or nothing. */
  datatype Phase = Descend | Check | Notify(finalized: nat) | Refetch(finalized: nat) | Ascend(cursor: nat) | Over

  datatype Shape = Shape(ranges: seq<Range>, tip: Block, phase: Phase)

  function AscendFrom(cursor: nat, tip: nat): Phase {
    if cursor <= tip then Ascend(cursor) else Descend
  }

  /** One event of a rewind, or `None` for an event that does not belong there. */
  function FollowEvent(p: Params, s: Shape, e: Event): Option<Shape>
    requires p.size >= 1
  {
    match (s.phase, e)
    case (Descend, Anchored(_, _)) => if p.checkReorg then None else Some(s)
    case (Descend, Sent(Data(r), _)) =>
      if s.ranges != [] && r == s.ranges[0]
      then Some(Shape(s.ranges[1..], s.tip, if p.checkReorg then Check else Descend)) else None
    case (Check, Checked(c, _, reorg)) =>
      if reorg == OnChain(c, s.tip) then None
      else if !reorg then Some(s.(phase := Descend))
      else if c.finalized.Some? then Some(s.(phase := Notify(c.finalized.value)))
      else None
    case (Check, Sent(Error(_), _)) => Some(s.(phase := Over))
    case (Notify(f), Sent(ReorgDetected(a), _)) => if a == f then Some(s.(phase := Refetch(f))) else None
    case (Refetch(f), Anchored(c, _)) =>
      if s.tip.number < |c.blocks|
      then Some(Shape(s.ranges, BlockAt(c, s.tip.number), AscendFrom(f + 1, s.tip.number))) else None
    case (Refetch(_), Sent(Error(_), _)) => Some(s.(phase := Over))
    case (Ascend(cursor), Sent(Data(r), _)) =>
      if cursor <= s.tip.number && r == Range(cursor, BatchEnd(cursor, s.tip.number, p.size))
      then Some(s.(phase := AscendFrom(r.hi + 1, s.tip.number))) else None
    case _ => None
  }

  function Follow(p: Params, s: Shape, h: seq<Event>): Option<Shape>
    requires p.size >= 1
  {
    if h == [] then Some(s)
    else
      match Follow(p, s, h[..|h| - 1])
      case None => None
      case Some(s') => FollowEvent(p, s', h[|h| - 1])
  }

  lemma FollowNoted(p: Params, s: Shape, w: World, e: Event)
    requires p.size >= 1 && Follow(p, s, w.history).Some?
    ensures Follow(p, s, Noted(w, e).history) == FollowEvent(p, Follow(p, s, w.history).value, e)
  {
    assert (w.history + [e])[..|w.history|] == w.history;
  }

  lemma {:induction false} RescanFollows(p: Params, s: Shape, w: World, ranges: seq<Range>, tip: Block, cursor: nat)
    requires p.size >= 1
    requires Follow(p, s, w.history) == Some(Shape(ranges, tip, AscendFrom(cursor, tip.number)))
    ensures var (open, w') := SendAll(w, Tiling(cursor, tip.number, p.size));
            && Follow(p, s, w'.history).Some?
            && (open ==> Follow(p, s, w'.history) == Some(Shape(ranges, tip, Descend)))
    decreases tip.number + 1 - cursor
  {
    hide Follow;
    if cursor <= tip.number {
      var r := Range(cursor, BatchEnd(cursor, tip.number, p.size));
      assert Tiling(cursor, tip.number, p.size)[1..] == Tiling(r.hi + 1, tip.number, p.size);
      hide Tiling;
      if Now(w).receiverUp {
        var e := Sent(Data(r), Now(w).chain);
        FollowNoted(p, s, Later(w), e);
        assert Send(w, Data(r)) == (true, Noted(Later(w), e));
        RescanFollows(p, s, Noted(Later(w), e), ranges, tip, r.hi + 1);
      }
    }
  }

  /** The run has kept to the shape, and stands before the next descending range. */
  ghost predicate Shaped(p: Params, s: Shape, r: Rewinding, ranges: seq<Range>, tip: nat)
    requires p.size >= 1
  {
    && Follow(p, s, r.w.history).Some?
    && (r.Going? ==>
          && Follow(p, s, r.w.history) == Some(Shape(ranges, r.tip, Descend))
          && KnowsTip(r.tip, r.buffer) && r.tip.number == tip)
  }

  lemma ReportFollows(p: Params, s: Shape, w: World, e: ScannerError)
    requires p.size >= 1
    requires match Follow(p, s, w.history) case Some(s') => s'.phase.Check? || s'.phase.Refetch? case None => false
    ensures Follow(p, s, Report(w, e).history).Some?
  {
    FollowNoted(p, s, Later(w), Sent(Error(e), Now(w).chain));
  }

  lemma RescanShape(p: Params, s: Shape, f: nat, ranges: seq<Range>, tip: Block, w: World)
    requires p.size >= 1
    requires Follow(p, s, w.history) == Some(Shape(ranges, tip, Notify(f)))
    ensures Shaped(p, s, Rescan(p, f, tip, [], w), ranges, tip.number)
  {
    hide Follow, SendAll, Tiling;
    var (open, w1) := Send(w, ReorgDetected(f));
    if open {
      FollowNoted(p, s, Later(w), Sent(ReorgDetected(f), Now(w).chain));
      var (fetched, w2) := Fetch(w1, tip.number);
      if fetched.Ok? {
        FollowNoted(p, s, Later(w1), Anchored(Now(w1).chain, 0));
        RescanFollows(p, s, w2, ranges, fetched.value, f + 1);
      } else {
        ReportFollows(p, s, w2, fetched.error);
      }
    }
  }

  lemma CheckTipShape(p: Params, s: Shape, ranges: seq<Range>, tip: Block, buffer: seq<Block>, w: World)
    requires p.size >= 1 && KnowsTip(tip, buffer)
    requires Follow(p, s, w.history) == Some(Shape(ranges, tip, if p.checkReorg then Check else Descend))
    ensures Shaped(p, s, CheckTip(p, tip, buffer, w), ranges, tip.number)
  {
    hide Follow, Rescan;
    if p.checkReorg {
      var c := Now(w).chain;
      TipCheckReportsFinalized(c, tip, buffer, p.capacity);
      TipCheckAnswers(c, tip, buffer, p.capacity);
      var (answer, buffer', w1) := CheckNow(w, buffer, p.capacity, tip);
      hide CheckOn;
      if answer.Err? {
        ReportFollows(p, s, w1, answer.error);
      } else {
        FollowNoted(p, s, Later(w), Checked(c, buffer, answer.value.Some?));
        if answer.value.Some? {
          RescanShape(p, s, answer.value.value.number, ranges, tip, w1);
        }
      }
    }
  }

  lemma RangeShape(p: Params, s: Shape, ranges: seq<Range>, tip: Block, buffer: seq<Block>, w: World)
    requires p.size >= 1 && KnowsTip(tip, buffer) && ranges != []
    requires Follow(p, s, w.history) == Some(Shape(ranges, tip, Descend))
    ensures Shaped(p, s, RewindRange(p, ranges[0], tip, buffer, w), ranges[1..], tip.number)
  {
    hide Follow, CheckTip;
    var (open, w1) := Send(w, Data(ranges[0]));
    if open {
      FollowNoted(p, s, Later(w), Sent(Data(ranges[0]), Now(w).chain));
      CheckTipShape(p, s, ranges[1..], tip, buffer, w1);
    }
  }

  lemma {:induction false} RangesShape(p: Params, s: Shape, ranges: seq<Range>, tip: Block, buffer: seq<Block>, w: World)
    requires p.size >= 1 && KnowsTip(tip, buffer)
    requires Follow(p, s, w.history) == Some(Shape(ranges, tip, Descend))
    ensures Shaped(p, s, RewindRanges(p, ranges, tip, buffer, w), [], tip.number)
    decreases |ranges|
  {
    hide Follow, RewindRange;
    if ranges != [] {
      RangeShape(p, s, ranges, tip, buffer, w);
      var r := RewindRange(p, ranges[0], tip, buffer, w);
      if r.Going? {
        RangesShape(p, s, ranges[1..], r.tip, r.buffer, r.w);
      }
    }
  }

  /** In every rewind run, however it ends: the descending ranges come in order and each is
      followed by one check of the tip, if there are checks at all; a check finds a reorg exactly
      when the current tip is not on the snapshot it saw, and then the finalized block of that
      snapshot is notified, the tip is read again at the same height, and everything above the
      finalized block is streamed in ascending batches before the next descending range. A run
      that is not cut short has streamed all its ranges and all its rescans. */
  lemma RewindShape(from: Block, to: nat, size: nat, capacity: Capacity, future: seq<Moment>)
    requires size >= 1
    ensures var w := World(future, []);
            var run := StreamRewind(from, to, size, capacity, w);
            var finalized := if Now(w).rpcUp && Now(w).chain.finalized.Some? then Now(w).chain.finalized.value else 0;
            var p := Params(size, from.number > finalized, capacity);
            Shaped(p, Shape(DescTiling(from.number, to, size), from, Descend), run, [], from.number)
  {
    hide DescTiling, RewindRanges, Follow, Shaped;
    var w := World(future, []);
    var f := FinalizedFor(from, w);
    var p := Params(size, from.number > f.height, capacity);
    var s := Shape(DescTiling(from.number, to, size), from, Descend);
    FollowNothing(p, s);
    if f.w.history != [] {
      FollowNoted(p, s, Later(w), f.w.history[0]);
    }
    RangesShape(p, s, s.ranges, from, [], f.w);
  }

  lemma FollowNothing(p: Params, s: Shape)
    requires p.size >= 1
    ensures Follow(p, s, []) == Some(s)
  {
  }

  /** The error that ended a history, if the loop was still running. */
  function LastError(h: seq<Event>, count: nat): seq<Output> {
    if h != [] && h[|h| - 1].Sent? && h[|h| - 1].message.Error? && !Collect(EMPTY, h, count).done
    then [Forwarded(h[|h| - 1].message)] else []
  }

  lemma {:induction false} FollowPassed(p: Params, s: Shape, h: seq<Event>, count: nat)
    requires p.size >= 1 && Follow(p, s, h).Some? && !s.phase.Over?
    ensures Passed(EMPTY, h, count) == LastError(h, count)
    ensures !Follow(p, s, h).value.phase.Over? ==> LastError(h, count) == []
  {
    if h != [] {
      var h', e := h[..|h| - 1], h[|h| - 1];
      FollowPassed(p, s, h', count);
      EndsWithError(p, Follow(p, s, h').value, e);
      hide FollowEvent;
    }
  }

  lemma EndsWithError(p: Params, s: Shape, e: Event)
    requires p.size >= 1 && FollowEvent(p, s, e).Some?
    ensures !s.phase.Over?
    ensures IsForwarded(e) <==> FollowEvent(p, s, e).value.phase.Over?
    ensures IsForwarded(e) <==> e.Sent? && e.message.Error?
  {
  }

  /** The listener of a latest-events scanner gets the logs or the notice that there are none, and
      before that nothing but the error that ended the rewind, if there was one and the logs were
      not complete before. In particular it never gets a reorg notification or the notice of a
      switch to live. */
  lemma LatestModeForwardsErrors(from: Block, to: nat, size: nat, capacity: Capacity, future: seq<Moment>, count: nat)
    requires size >= 1
    ensures var run := StreamRewind(from, to, size, capacity, World(future, []));
            var h := run.w.history;
            && Outputs(h, count) == LastError(h, count) + [Outcome(Collect(EMPTY, h, count))]
            && (run.Going? || Collect(EMPTY, h, count).done ==> LastError(h, count) == [])
  {
    hide StreamRewind, Follow, Passed, DescTiling, LastError, Outcome;
    RewindShape(from, to, size, capacity, future);
    var w := World(future, []);
    var run := StreamRewind(from, to, size, capacity, w);
    var p := Params(size, from.number > FinalizedFor(from, w).height, capacity);
    FollowPassed(p, Shape(DescTiling(from.number, to, size), from, Descend), run.w.history, count);
    NoErrorIfDone(run.w.history, count);
  }

  lemma NoErrorIfDone(h: seq<Event>, count: nat)
    ensures Collect(EMPTY, h, count).done ==> LastError(h, count) == []
  {
  }

  // -------------------------------------------------------------------------
  // A rewind scans one region
  // -------------------------------------------------------------------------

  lemma ScannedNoted(g: Scan, w: World, e: Event)
    ensures Scanned(g, Noted(w, e).history) == ScanEvent(Scanned(g, w.history), e)
  {
    assert (w.history + [e])[..|w.history|] == w.history;
  }

  /** The region reaches from `low` up to the tip; if the tip is checked it is on the last snapshot. */
  ghost predicate Spans(g: Scan, low: nat, tip: Block, checked: bool) {
    && g.orderly && !g.m.pending
    && (g.m.faithful ==>
          && g.m.view.low == low <= g.m.view.mark == tip.number + 1
          && (checked ==> OnChain(g.m.base, tip))
          && (low <= tip.number ==> g.m.floor == low))
  }

  /** A reorg to height `f` is detected. */
  ghost predicate Detected(g: Scan, low: nat, f: nat, tip: nat) {
    && g.orderly
    && (g.m.faithful ==>
          && g.m.view.low == low <= f + 1 <= tip && g.m.view.mark == tip + 1 && g.m.floor == low
          && f < |g.m.base.blocks| && Accords(g.m.view.sources, g.m.base, f + 1))
  }

  /** The region ends below `cursor` and is extended up to height `tip` again. */
  ghost predicate Rescans(g: Scan, low: nat, cursor: nat, tip: nat) {
    && g.orderly && !g.m.pending
    && (g.m.faithful ==>
          && g.rescanning
          && g.m.view.low == low <= g.m.view.mark == cursor <= tip + 1 && g.m.floor == low)
  }

  lemma NotifyReorg(g: Scan, low: nat, f: nat, tip: nat, c: Chain)
    requires Detected(g, low, f, tip)
    ensures Rescans(ScanEvent(g, Sent(ReorgDetected(f), c)), low, f + 1, tip)
  {
    hide Canonical, Accords, Kept;
  }

  lemma FetchTip(g: Scan, low: nat, cursor: nat, tip: nat, c: Chain)
    requires Rescans(g, low, cursor, tip) && tip < |c.blocks|
    ensures var g' := ScanEvent(g, Anchored(c, 0));
            Rescans(g', low, cursor, tip) && OnChain(g'.m.base, BlockAt(c, tip))
  {
    hide Canonical, Accords;
  }

  lemma RescanRange(g: Scan, low: nat, r: Range, tip: nat, c: Chain)
    requires Rescans(g, low, r.lo, tip) && r.lo <= r.hi <= tip
    ensures var g' := ScanEvent(g, Sent(Data(r), c));
            Rescans(g', low, r.hi + 1, tip) && g'.m.base == g.m.base
  {
    hide Canonical, Read, AgreeBelow;
  }

  ghost predicate KeepsRegion(g: Scan, r: Rewinding, low: nat, tip: nat, checked: bool) {
    var g' := Scanned(g, r.w.history);
    && g'.orderly
    && (r.Going? ==> Spans(g', low, r.tip, checked) && KnowsTip(r.tip, r.buffer) && r.tip.number == tip)
  }

  lemma {:induction false} RescanScans(g: Scan, w: World, lo: nat, tip: Block, size: nat, low: nat)
    requires size >= 1
    requires Rescans(Scanned(g, w.history), low, lo, tip.number) && OnChain(Scanned(g, w.history).m.base, tip)
    ensures var (open, w') := SendAll(w, Tiling(lo, tip.number, size));
            KeepsRegion(g, if open then Going(tip, [], w') else Halted(tip, [], w'), low, tip.number, true)
    decreases tip.number + 1 - lo
  {
    if lo <= tip.number {
      hide ScanEvent, Scanned, Spans;
      var r := Range(lo, BatchEnd(lo, tip.number, size));
      assert Tiling(lo, tip.number, size)[1..] == Tiling(r.hi + 1, tip.number, size);
      hide Tiling;
      RescanRange(Scanned(g, w.history), low, r, tip.number, Now(w).chain);
      if Now(w).receiverUp {
        var e := Sent(Data(r), Now(w).chain);
        ScannedNoted(g, Later(w), e);
        assert Send(w, Data(r)) == (true, Noted(Later(w), e));
        RescanScans(g, Noted(Later(w), e), r.hi + 1, tip, size, low);
      }
    } else {
      hide Scanned;
    }
  }

  lemma ReportScanned(g: Scan, w: World, e: ScannerError)
    requires Scanned(g, w.history).orderly
    ensures Scanned(g, Report(w, e).history).orderly
  {
    ScannedNoted(g, Later(w), Sent(Error(e), Now(w).chain));
    hide Canonical;
  }

  lemma RescanKeepsRegion(g: Scan, p: Params, f: nat, tip: Block, w: World, low: nat)
    requires p.size >= 1 && Detected(Scanned(g, w.history), low, f, tip.number)
    ensures KeepsRegion(g, Rescan(p, f, tip, [], w), low, tip.number, true)
  {
    hide ScanEvent, Scanned, SendAll, Tiling, Spans;
    var (open, w1) := Send(w, ReorgDetected(f));
    if open {
      var d := Now(w).chain;
      NotifyReorg(Scanned(g, w.history), low, f, tip.number, d);
      ScannedNoted(g, Later(w), Sent(ReorgDetected(f), d));
      var (fetched, w2) := Fetch(w1, tip.number);
      if fetched.Ok? {
        FetchTip(Scanned(g, w1.history), low, f + 1, tip.number, Now(w1).chain);
        ScannedNoted(g, Later(w1), Anchored(Now(w1).chain, 0));
        RescanScans(g, w2, f + 1, fetched.value, p.size, low);
      } else {
        ReportScanned(g, w2, fetched.error);
      }
    }
  }

  lemma CheckDetected(g: Scan, c: Chain, tip: Block, buffer: seq<Block>, low: nat, f: nat)
    requires Spans(g, low, tip, true) && low <= tip.number && KnowsTip(tip, buffer)
    requires c.finalized == Some(f) && !OnChain(c, tip)
    ensures Detected(ScanEvent(g, Checked(c, buffer, true)), low, f, tip.number)
  {
    hide Canonical;
    var n := CommonLength(g.m.base, c);
    if g.m.faithful && FinalityKept(g.m.base, c) && Reaches(c, buffer, low) && Accords(g.m.view.sources, c, n) {
      SharedBlock(g.m.base, c, tip);
      AgreeLessIf(g.m.base, c, n, tip.number + 1);
      AccordsLess(g.m.view.sources, c, n, f + 1);
    }
    hide Accords, AgreeBelow;
  }

  lemma CleanTipSpans(g: Scan, c: Chain, tip: Block, buffer: seq<Block>, low: nat)
    requires Spans(g, low, tip, true) && OnChain(c, tip)
    ensures Spans(ScanEvent(g, Checked(c, buffer, false)), low, tip, true)
  {
    hide Canonical;
    var n := CommonLength(g.m.base, c);
    if g.m.faithful && Accords(g.m.view.sources, c, n) {
      SharedBlock(g.m.base, c, tip);
      AccordsLess(g.m.view.sources, c, n, tip.number + 1);
    }
    hide Accords, AgreeBelow;
  }

  lemma CheckTipKeepsRegion(g: Scan, p: Params, tip: Block, buffer: seq<Block>, w: World, low: nat)
    requires p.size >= 1 && KnowsTip(tip, buffer) && low <= tip.number && Spans(Scanned(g, w.history), low, tip, p.checkReorg)
    ensures KeepsRegion(g, CheckTip(p, tip, buffer, w), low, tip.number, p.checkReorg)
  {
    hide ScanEvent, Scanned, Rescan;
    if p.checkReorg {
      var c := Now(w).chain;
      var (answer, buffer', w1) := CheckNow(w, buffer, p.capacity, tip);
      TipCheckReportsFinalized(c, tip, buffer, p.capacity);
      TipCheckAnswers(c, tip, buffer, p.capacity);
      hide CheckOn;
      if answer.Err? {
        ReportScanned(g, w1, answer.error);
      } else {
        ScannedNoted(g, Later(w), Checked(c, buffer, answer.value.Some?));
        if answer.value == None {
          CleanTipSpans(Scanned(g, w.history), c, tip, buffer, low);
        } else {
          var f := answer.value.value.number;
          CheckDetected(Scanned(g, w.history), c, tip, buffer, low, f);
          RescanKeepsRegion(g, p, f, tip, w1, low);
        }
      }
    }
  }

  lemma RangeSpans(g: Scan, range: Range, tip: Block, c: Chain, checked: bool)
    requires Spans(g, range.hi + 1, tip, checked) && range.lo <= range.hi <= tip.number
    ensures Spans(ScanEvent(g, Sent(Data(range), c)), range.lo, tip, checked)
  {
    hide Canonical, Read, AgreeBelow;
  }

  lemma RangeKeepsRegion(g: Scan, p: Params, range: Range, tip: Block, buffer: seq<Block>, w: World)
    requires p.size >= 1 && KnowsTip(tip, buffer) && range.lo <= range.hi <= tip.number
    requires Spans(Scanned(g, w.history), range.hi + 1, tip, p.checkReorg)
    ensures KeepsRegion(g, RewindRange(p, range, tip, buffer, w), range.lo, tip.number, p.checkReorg)
  {
    hide CheckTip, ScanEvent, Scanned;
    var (open, w1) := Send(w, Data(range));
    if open {
      ScannedNoted(g, Later(w), Sent(Data(range), Now(w).chain));
      RangeSpans(Scanned(g, w.history), range, tip, Now(w).chain, p.checkReorg);
      CheckTipKeepsRegion(g, p, tip, buffer, w1, range.lo);
    }
  }

  /** A rewind scans one region, from its tip down to its last range, in order; a reorg at any of
      its checks leaves the region rescanned up to the tip. */
  lemma {:induction false} RewindKeepsRegion(g: Scan, p: Params, hi: nat, lo: nat, tip: Block, buffer: seq<Block>, w: World)
    requires p.size >= 1 && lo <= hi <= tip.number && KnowsTip(tip, buffer)
    requires Spans(Scanned(g, w.history), hi + 1, tip, p.checkReorg)
    ensures KeepsRegion(g, RewindRanges(p, DescTiling(hi, lo, p.size), tip, buffer, w), lo, tip.number, p.checkReorg)
    decreases hi
  {
    hide Scanned, Spans, RewindRange;
    var range := Range(BatchLow(hi, lo, p.size), hi);
    var rest := if range.lo == lo then [] else DescTiling(range.lo - 1, lo, p.size);
    assert DescTiling(hi, lo, p.size)[1..] == rest;
    RangeKeepsRegion(g, p, range, tip, buffer, w);
    var r := RewindRange(p, range, tip, buffer, w);
    if r.Going? && range.lo > lo {
      RewindKeepsRegion(g, p, range.lo - 1, lo, r.tip, r.buffer, r.w);
    }
  }

  lemma RewindRunScans(from: Block, to: nat, size: nat, capacity: Capacity, c: Chain, future: seq<Moment>)
    requires size >= 1 && to <= from.number && OnChain(c, from)
    ensures var w := World(future, []);
            KeepsRegion(Unscanned(from.number, c), StreamRewind(from, to, size, capacity, w), to, from.number,
                        from.number > FinalizedFor(from, w).height)
  {
    var w := World(future, []);
    var f := FinalizedFor(from, w);
    var g := Unscanned(from.number, c);
    FinalizedSpans(from, c, w);
    hide Scanned, Spans, RewindRanges, DescTiling;
    RewindKeepsRegion(g, Params(size, from.number > f.height, capacity), from.number, to, from, [], f.w);
  }

  lemma FinalizedSpans(from: Block, c: Chain, w: World)
    requires OnChain(c, from) && w.history == []
    ensures var f := FinalizedFor(from, w);
            Spans(Scanned(Unscanned(from.number, c), f.w.history), from.number + 1, from, from.number > f.height)
  {
    var g := Unscanned(from.number, c);
    var f := FinalizedFor(from, w);
    if f.w.history != [] {
      ScannedNoted(g, Later(w), f.w.history[0]);
    }
  }

  // -------------------------------------------------------------------------
  // Rewinding and collecting together
  // -------------------------------------------------------------------------

  lemma {:induction false} OrderlyBefore(g: Scan, h: seq<Event>, k: nat)
    requires k <= |h| && Scanned(g, h).orderly
    ensures Scanned(g, h[..k]).orderly
    decreases |h|
  {
    hide InOrder, Observe;
    if k == |h| {
      assert h[..k] == h;
    } else {
      assert h[..|h| - 1][..k] == h[..k];
      OrderlyBefore(g, h[..|h| - 1], k);
    }
  }

  lemma UnscannedIsTrue(from: Block, c: Chain, count: nat)
    requires OnChain(c, from)
    ensures Tracks(EMPTY, Unscanned(from.number, c), count) && TrueScan(Unscanned(from.number, c))
  {
  }

  /** What the collector and the consumer of the region have in common after the `k` events the
      collector has consumed. */
  ghost predicate HoldsNewest(run: Rewinding, g0: Scan, s: Collector, count: nat, to: nat, tip: nat, k: nat) {
    && k <= |run.w.history|
    && Collect(EMPTY, run.w.history[..k], count) == s
    && var g := Scanned(g0, run.w.history[..k]);
    && g.orderly && g.m.sound
    && (g.m.faithful ==>
          && Truthful(g.m.view)
          && s.collected == Take(Reversed(LogsOf(g.m.view.held)), count)
          && (s.done ==> |s.collected| == count)
          && (Accords(g.m.view.sources, g.m.base, g.m.view.mark) ==> Canonical(g.m.view, g.m.base))
          && (run.Going? && !s.done ==> g.m.view.low == to && g.m.view.mark == tip + 1))
  }

  /** Latest-events mode, with any number of reorgs. The collector has consumed the first `k`
      events of the run; when the environment was faithful up to then it holds the newest `count`
      logs of what a consumer of the scanned region holds. That is the canonical chain between the
      region's ends whenever what was read since the scanner last looked is on the snapshot it
      looked at. When the run streamed everything and the collector never filled up, the region is
      the whole interval. */
  lemma LatestModeHoldsNewest(from: Block, to: nat, size: nat, capacity: Capacity, c: Chain, count: nat, future: seq<Moment>)
    returns (k: nat)
    requires size >= 1 && to <= from.number && OnChain(c, from)
    ensures var run := StreamRewind(from, to, size, capacity, World(future, []));
            var s := Collect(EMPTY, run.w.history, count);
            HoldsNewest(run, Unscanned(from.number, c), s, count, to, from.number, k)
  {
    var run := StreamRewind(from, to, size, capacity, World(future, []));
    var h := run.w.history;
    var g := Unscanned(from.number, c);
    RewindRunScans(from, to, size, capacity, c, future);
    UnscannedIsTrue(from, c, count);
    hide StreamRewind, TrueScan;
    k := CollectorTracksRegion(g, h, count);
    OrderlyBefore(g, h, k);
    ScannedIsTrue(g, h[..k]);
    assert h[..|h|] == h;
    hide Collect, Scanned;
    CollectedOfTrue(Collect(EMPTY, h, count), Scanned(g, h[..k]), count);
  }

  lemma CollectedOfTrue(s: Collector, g: Scan, count: nat)
    requires g.orderly && TrueScan(g) && Tracks(s, g, count)
    ensures g.m.sound
    ensures g.m.faithful ==>
              && Truthful(g.m.view)
              && s.collected == Take(Reversed(LogsOf(g.m.view.held)), count)
              && (s.done ==> |s.collected| == count)
              && (Accords(g.m.view.sources, g.m.base, g.m.view.mark) ==> Canonical(g.m.view, g.m.base))
  {
    hide Truthful, Canonical, Take, Reversed, LogsOf, Accords;
    if g.m.faithful && Accords(g.m.view.sources, g.m.base, g.m.view.mark) {
      TrustedTruthful(g.m.view, g.m.base);
    }
  }

  // -------------------------------------------------------------------------
  // Without reorgs
  // -------------------------------------------------------------------------

  /** An event of a run without reorgs that streams ranges of `to..=tip`. */
  ghost predicate StillEvent(c: Chain, e: Event, to: nat, tip: nat) {
    && AgreeBelow(c, e.chain, tip + 1)
    && match e
       case Sent(Data(r), _) => to <= r.lo <= r.hi <= tip
       case Sent(ReorgDetected(_), _) => false
       case Sent(_, _) => true
       case Anchored(_, _) => true
       case Checked(_, _, reorg) => !reorg
       case Compared(_, _, _) => false
  }

  ghost predicate StillHistory(c: Chain, h: seq<Event>, to: nat, tip: nat) {
    forall i | 0 <= i < |h| :: StillEvent(c, h[i], to, tip)
  }

  ghost predicate StillRun(c: Chain, r: Rewinding, from: Block, to: nat) {
    && StillHistory(c, r.w.history, to, from.number)
    && (r.Going? ==> r.tip == from && KnowsTip(from, r.buffer) && Still(c, r.w.future, from.number))
  }

  lemma StillReport(c: Chain, w: World, e: ScannerError, to: nat, tip: nat)
    requires StillHistory(c, w.history, to, tip) && Still(c, w.future, tip)
    ensures StillHistory(c, Report(w, e).history, to, tip)
  {
    StillLater(c, w, tip);
    hide AgreeBelow;
  }

  lemma StillRange(c: Chain, p: Params, range: Range, from: Block, buffer: seq<Block>, w: World, to: nat)
    requires p.size >= 1 && OnChain(c, from) && KnowsTip(from, buffer) && to <= range.lo <= range.hi <= from.number
    requires StillHistory(c, w.history, to, from.number) && Still(c, w.future, from.number)
    ensures StillRun(c, RewindRange(p, range, from, buffer, w), from, to)
  {
    var (open, w1) := Send(w, Data(range));
    StillLater(c, w, from.number);
    if open {
      hide CheckTip, AgreeBelow;
      StillCheck(c, p, from, buffer, w1, to);
    }
  }

  lemma StillCheck(c: Chain, p: Params, from: Block, buffer: seq<Block>, w: World, to: nat)
    requires p.size >= 1 && OnChain(c, from) && KnowsTip(from, buffer)
    requires StillHistory(c, w.history, to, from.number) && Still(c, w.future, from.number)
    ensures StillRun(c, CheckTip(p, from, buffer, w), from, to)
  {
    hide Rescan;
    if p.checkReorg {
      StillLater(c, w, from.number);
      var x := Now(w).chain;
      if w.future != [] {
        SharedBlock(c, x, from);
      }
      TipCheckReportsFinalized(x, from, buffer, p.capacity);
      TipCheckAnswers(x, from, buffer, p.capacity);
      var (answer, buffer', w1) := CheckNow(w, buffer, p.capacity, from);
      hide CheckOn, AgreeBelow;
      if answer.Err? {
        StillReport(c, w1, answer.error, to, from.number);
      }
    }
  }

  lemma {:induction false} StillRanges(c: Chain, p: Params, hi: nat, to: nat, from: Block, buffer: seq<Block>, w: World)
    requires p.size >= 1 && OnChain(c, from) && KnowsTip(from, buffer) && to <= hi <= from.number
    requires StillHistory(c, w.history, to, from.number) && Still(c, w.future, from.number)
    ensures StillRun(c, RewindRanges(p, DescTiling(hi, to, p.size), from, buffer, w), from, to)
    decreases hi
  {
    hide RewindRange, StillHistory, Still;
    var range := Range(BatchLow(hi, to, p.size), hi);
    var rest := if range.lo == to then [] else DescTiling(range.lo - 1, to, p.size);
    assert DescTiling(hi, to, p.size)[1..] == rest;
    StillRange(c, p, range, from, buffer, w, to);
    var r := RewindRange(p, range, from, buffer, w);
    if r.Going? && range.lo > to {
      StillRanges(c, p, range.lo - 1, to, from, r.buffer, r.w);
    }
  }

  lemma StillRewind(c: Chain, from: Block, to: nat, size: nat, capacity: Capacity, future: seq<Moment>)
    requires size >= 1 && OnChain(c, from) && to <= from.number && Still(c, future, from.number)
    ensures StillRun(c, StreamRewind(from, to, size, capacity, World(future, [])), from, to)
  {
    var w := World(future, []);
    var f := FinalizedFor(from, w);
    StillLater(c, w, from.number);
    hide RewindRanges, DescTiling, AgreeBelow;
    StillRanges(c, Params(size, from.number > f.height, capacity), from.number, to, from, [], f.w);
  }

  /** All blocks the consumer holds were read from snapshots like `c`. */
  ghost predicate StillSources(v: Consumer, c: Chain) {
    forall i | 0 <= i < |v.sources| ::
      v.sources[i].upTo <= v.mark && AgreeBelow(c, v.sources[i].chain, v.sources[i].upTo)
  }

  lemma StillAccords(v: Consumer, c: Chain, x: Chain, n: nat)
    requires StillSources(v, c) && AgreeBelow(c, x, v.mark)
    ensures Accords(v.sources, x, n)
  {
    forall i | 0 <= i < |v.sources|
      ensures Agrees(v.sources[i], x, n)
    {
      var s := v.sources[i];
      if s.from < n && s.from < s.upTo {
        var k := Min(n, s.upTo);
        AgreeLess(c, s.chain, s.upTo, k);
        AgreeLess(c, x, v.mark, k);
        AgreeTransitive(c, s.chain, x, k);
      }
    }
  }

  /** A scan that has seen no reorg. */
  ghost predicate StillScan(g: Scan, c: Chain, to: nat, tip: nat) {
    && g.m.faithful && !g.rescanning
    && StillSources(g.m.view, c) && AgreeBelow(c, g.m.base, tip + 1)
    && to <= g.m.view.low <= g.m.view.mark == tip + 1
  }

  lemma StillLook(g: Scan, c: Chain, e: Event, to: nat, tip: nat)
    requires StillScan(g, c, to, tip) && StillEvent(c, e, to, tip) && !e.Sent?
    ensures StillScan(ScanEvent(g, e), c, to, tip)
  {
    StillAccords(g.m.view, c, e.chain, g.m.view.mark);
    StillAccords(g.m.view, c, e.chain, CommonLength(g.m.base, e.chain));
    hide Accords, Canonical, AgreeBelow;
  }

  lemma StillSent(g: Scan, c: Chain, e: Event, to: nat, tip: nat)
    requires StillScan(g, c, to, tip) && StillEvent(c, e, to, tip) && e.Sent? && e.message.Data?
    requires ScanEvent(g, e).orderly
    ensures StillScan(ScanEvent(g, e), c, to, tip)
  {
    var r := e.message.range;
    var v := g.m.view;
    AgreeLess(c, e.chain, tip + 1, r.hi + 1);
    AgreeLess(c, g.m.base, tip + 1, r.hi + 1);
    AgreeTransitive(c, g.m.base, e.chain, r.hi + 1);
    hide Accords, Canonical, AgreeBelow, Read;
    StillReceived(v, c, r, e.chain);
  }

  lemma StillReceived(v: Consumer, c: Chain, r: Range, d: Chain)
    requires StillSources(v, c) && r.hi + 1 == v.low <= v.mark && AgreeBelow(c, d, r.hi + 1)
    ensures StillSources(Received(v, r, d), c)
  {
    hide Read, AgreeBelow;
  }

  lemma {:induction false} StillScanned(g: Scan, c: Chain, h: seq<Event>, to: nat, tip: nat)
    requires StillScan(g, c, to, tip) && StillHistory(c, h, to, tip) && Scanned(g, h).orderly
    ensures StillScan(Scanned(g, h), c, to, tip)
  {
    if h != [] {
      var e := h[|h| - 1];
      StillScanned(g, c, h[..|h| - 1], to, tip);
      assert StillEvent(c, e, to, tip);
      if !e.Sent? {
        hide ScanEvent;
        StillLook(Scanned(g, h[..|h| - 1]), c, e, to, tip);
      } else if e.message.Data? {
        hide StillScan;
        StillSent(Scanned(g, h[..|h| - 1]), c, e, to, tip);
      } else {
        hide Canonical, Accords, AgreeBelow;
      }
    }
  }

  lemma StillStart(from: Block, c: Chain, to: nat)
    requires OnChain(c, from) && to <= from.number
    ensures StillScan(Unscanned(from.number, c), c, to, from.number)
  {
  }

  /** The newest logs of a region with enough of them are those of any region that reaches
      further down. */
  lemma NewestOfLarger(c: Chain, to: nat, low: nat, top: nat, count: nat)
    requires to <= low <= top <= |c.blocks|
    requires low == to || |Take(Reversed(LogsIn(c, low, top)), count)| >= count
    ensures Take(Reversed(LogsIn(c, low, top)), count) == Take(Reversed(LogsIn(c, to, top)), count)
  {
    hide LogsIn;
    LogsInConcat(c, to, low, top);
    ReversedConcat(LogsIn(c, to, low), LogsIn(c, low, top));
    hide Reversed;
  }

  lemma StillCollected(c: Chain, v: Consumer, to: nat, tip: nat)
    requires Truthful(v) && StillSources(v, c) && v.low <= v.mark == tip + 1 <= |c.blocks|
    ensures v.held == Blocks(c, v.low, tip + 1)
  {
    StillAccords(v, c, c, v.mark);
    TrustedTruthful(v, c);
  }

  lemma SuffixIsCollected(from: Block, to: nat, size: nat, capacity: Capacity, c: Chain, count: nat, future: seq<Moment>)
    requires size >= 1 && to <= from.number && OnChain(c, from) && Still(c, future, from.number)
    ensures var run := StreamRewind(from, to, size, capacity, World(future, []));
            var s := Collect(EMPTY, run.w.history, count);
            var logs := LogsIn(c, to, from.number + 1);
            var n := Min(count, |logs|);
            && NoReorg(run.w.history)
            && (run.Going? || s.done ==> Outcome(s) == if n == 0 then NoPastLogsFound else Logs(logs[|logs| - n..]))
  {
    hide StreamRewind, Collect, Outcome, Scanned, Take, Reversed, Still, StillHistory, NoReorg, Truthful, LogsOf, Blocks;
    var run := StreamRewind(from, to, size, capacity, World(future, []));
    var h := run.w.history;
    var g0 := Unscanned(from.number, c);
    StillRewind(c, from, to, size, capacity, future);
    StillQuiet(c, h, to, from.number);
    var k := LatestModeHoldsNewest(from, to, size, capacity, c, count, future);
    var s := Collect(EMPTY, h, count);
    var g := Scanned(g0, h[..k]);
    StillStart(from, c, to);
    StillPrefix(c, h, k, to, from.number);
    StillScanned(g0, c, h[..k], to, from.number);
    StillCollected(c, g.m.view, to, from.number);
    hide StillEvent, StillRun;
    if run.Going? || s.done {
      SuffixDelivered(s, c, to, g.m.view.low, from.number, count);
    }
  }

  /** Without reorgs, that is when no block of the interval changes along the timeline: no reorg
      is notified, and the listener of latest mode gets exactly one message: the last
      `min(count, n)` of the `n` matching logs of the interval, in chronological order, or the notice
      that there are none, for every batch size, although the loop stops as soon as `count` is
      reached; unless the node failed or the receiver left before that. */
  lemma LatestModeDeliversSuffix(from: Block, to: nat, size: nat, capacity: Capacity, c: Chain, count: nat, future: seq<Moment>)
    requires size >= 1 && to <= from.number && OnChain(c, from) && Still(c, future, from.number)
    ensures var run := StreamRewind(from, to, size, capacity, World(future, []));
            var logs := LogsIn(c, to, from.number + 1);
            var n := Min(count, |logs|);
            && NoReorg(run.w.history)
            && (run.Going? || Collect(EMPTY, run.w.history, count).done ==>
                  Outputs(run.w.history, count) == [if n == 0 then NoPastLogsFound else Logs(logs[|logs| - n..])])
  {
    hide StreamRewind, Collect, Outcome, Outputs, LastError, LogsIn, Still, NoReorg;
    SuffixIsCollected(from, to, size, capacity, c, count, future);
    LatestModeForwardsErrors(from, to, size, capacity, future, count);
  }

  lemma SuffixDelivered(s: Collector, c: Chain, to: nat, low: nat, tip: nat, count: nat)
    requires to <= low <= tip + 1 <= |c.blocks| && s.collected == Take(Reversed(LogsIn(c, low, tip + 1)), count)
    requires low == to || |s.collected| >= count
    ensures var logs := LogsIn(c, to, tip + 1);
            var n := Min(count, |logs|);
            Outcome(s) == if n == 0 then NoPastLogsFound else Logs(logs[|logs| - n..])
  {
    hide LogsIn, Outcome, Take, Reversed;
    NewestOfLarger(c, to, low, tip + 1, count);
    DeliversNewest(s, LogsIn(c, to, tip + 1), count);
  }

  lemma StillPrefix(c: Chain, h: seq<Event>, k: nat, to: nat, tip: nat)
    requires StillHistory(c, h, to, tip) && k <= |h|
    ensures StillHistory(c, h[..k], to, tip)
  {
  }

  lemma StillQuiet(c: Chain, h: seq<Event>, to: nat, tip: nat)
    requires StillHistory(c, h, to, tip)
    ensures NoReorg(h)
  {
    forall i | 0 <= i < |h| && h[i].Sent?
      ensures !h[i].message.ReorgDetected?
    {
      assert StillEvent(c, h[i], to, tip);
    }
  }
}
