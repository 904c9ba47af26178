/** What runs achieve while everything answers and the interval does not change. */
module Progress {
  import opened Wrappers
  import opened U64
  import opened Chains
  import opened RangeIterator
  import opened RingBuffers
  import opened ReorgHandler
  import opened Outside
  import opened RangeStream
  import opened LiveStream
  import opened Historical
  import opened Sync
  import opened Stops

  // -------------------------------------------------------------------------
  // Smooth timelines
  // -------------------------------------------------------------------------

  /** Everything answers, and nothing up to height `tip` ever differs from `c`. */
  ghost predicate Smooth(c: Chain, future: seq<Moment>, tip: nat) {
    tip < |c.blocks| && AllUp(future) && Still(c, future, tip)
  }

  /** From `w` on this much was sent, in at most `cost` moments, and the timeline is smooth still. */
  ghost predicate Moved(c: Chain, tip: nat, w: World, w': World, cost: nat, sent: seq<Message>) {
    && Smooth(c, w'.future, tip)
    && |w.future| <= |w'.future| + cost
    && Messages(w'.history) == Messages(w.history) + sent
  }

  lemma SmoothNow(c: Chain, w: World, tip: nat)
    requires Smooth(c, w.future, tip) && w.future != []
    ensures var m := Now(w);
            && m.rpcUp && m.receiverUp && tip < |m.chain.blocks| && AgreeBelow(c, m.chain, tip + 1)
            && Smooth(c, Later(w).future, tip) && |w.future| == |Later(w).future| + 1
  {
    StillLater(c, w, tip);
    assert forall i | 0 <= i < |Later(w).future| :: Later(w).future[i] == w.future[i + 1];
  }

  lemma MovedNot(c: Chain, tip: nat, w: World)
    requires Smooth(c, w.future, tip)
    ensures Moved(c, tip, w, w, 0, [])
  {
  }

  lemma MovedTwice(c: Chain, tip: nat, w: World, w1: World, w2: World, cost: nat, cost': nat, sent: seq<Message>, sent': seq<Message>)
    requires Moved(c, tip, w, w1, cost, sent) && Moved(c, tip, w1, w2, cost', sent')
    ensures Moved(c, tip, w, w2, cost + cost', sent + sent')
  {
    assert Messages(w.history) + (sent + sent') == Messages(w.history) + sent + sent';
  }

  lemma NotedMoves(c: Chain, tip: nat, w: World, e: Event)
    requires Smooth(c, w.future, tip) && w.future != []
    ensures Moved(c, tip, w, Noted(Later(w), e), 1, if e.Sent? then [e.message] else [])
  {
    hide Smooth, Messages;
    SmoothNow(c, w, tip);
    NotedMessages(Later(w), e);
  }

  lemma LaterMoves(c: Chain, tip: nat, w: World)
    requires Smooth(c, w.future, tip) && w.future != []
    ensures Moved(c, tip, w, Later(w), 1, [])
  {
    hide Smooth, Messages;
    SmoothNow(c, w, tip);
  }

  lemma SendMoves(c: Chain, tip: nat, w: World, message: Message)
    requires Smooth(c, w.future, tip) && w.future != []
    ensures var (open, w') := Send(w, message); open && Moved(c, tip, w, w', 1, [message])
  {
    hide Smooth, Moved;
    SmoothNow(c, w, tip);
    NotedMoves(c, tip, w, Sent(message, Now(w).chain));
  }

  lemma FetchMoves(c: Chain, tip: nat, w: World, k: nat)
    requires Smooth(c, w.future, tip) && w.future != [] && k <= tip
    ensures tip < |c.blocks|
    ensures var (r, w') := Fetch(w, k); r == Ok(BlockAt(c, k)) && Moved(c, tip, w, w', 1, [])
  {
    assert tip < |c.blocks|;
    hide Smooth, Moved;
    SmoothNow(c, w, tip);
    AgreeHashes(c, Now(w).chain, tip + 1);
    NotedMoves(c, tip, w, Anchored(Now(w).chain, 0));
  }

  lemma CheckMoves(c: Chain, tip: nat, w: World, buffer: seq<Block>, capacity: Capacity, k: nat)
    requires Smooth(c, w.future, tip) && w.future != [] && k <= tip
    ensures tip < |c.blocks|
    ensures var (r, _, w') := CheckNow(w, buffer, capacity, BlockAt(c, k));
            r == Ok(None) && Moved(c, tip, w, w', 1, [])
  {
    assert tip < |c.blocks|;
    hide Smooth, Moved, PopStale, CommonAncestor, Remember;
    SmoothNow(c, w, tip);
    AgreeHashes(c, Now(w).chain, tip + 1);
    NotedMoves(c, tip, w, Checked(Now(w).chain, buffer, false));
  }

  lemma RangeMessagesConcat(a: seq<Range>, b: seq<Range>)
    ensures RangeMessages(a + b) == RangeMessages(a) + RangeMessages(b)
    decreases |a|
  {
    if a == [] {
      assert a + b == b;
    } else {
      assert (a + b)[1..] == a[1..] + b;
      RangeMessagesConcat(a[1..], b);
    }
  }

  lemma {:induction false} SendAllMoves(c: Chain, tip: nat, w: World, ranges: seq<Range>)
    requires Smooth(c, w.future, tip) && |w.future| >= |ranges|
    ensures var (open, w') := SendAll(w, ranges); open && Moved(c, tip, w, w', |ranges|, RangeMessages(ranges))
    decreases |ranges|
  {
    hide Moved, Send;
    MovedNot(c, tip, w);
    if ranges != [] {
      SendMoves(c, tip, w, Data(ranges[0]));
      var w1 := Send(w, Data(ranges[0])).1;
      StillSmooth(c, tip, w, w1, 1, [Data(ranges[0])]);
      hide Smooth;
      SendAllMoves(c, tip, w1, ranges[1..]);
      MovedTwice(c, tip, w, w1, SendAll(w1, ranges[1..]).1, 1, |ranges| - 1, [Data(ranges[0])], RangeMessages(ranges[1..]));
    }
  }

  lemma StillSmooth(c: Chain, tip: nat, w: World, w': World, cost: nat, sent: seq<Message>)
    requires Moved(c, tip, w, w', cost, sent)
    ensures Smooth(c, w'.future, tip) && |w.future| <= |w'.future| + cost
  {
  }

  // -------------------------------------------------------------------------
  // Streams of one range
  // -------------------------------------------------------------------------

  lemma BatchMoves(c: Chain, tip: nat, p: Params, cursor: nat, buffer: seq<Block>, w: World)
    requires p.size >= 1 && cursor <= p.end <= tip && Smooth(c, w.future, tip) && |w.future| >= 3
    ensures tip < |c.blocks|
    ensures var step := BatchStep(p, cursor, buffer, w);
            var hi := BatchEnd(cursor, p.end, p.size);
            && step.Next? && step.cursor == hi + 1 && step.batchEnd == BlockAt(c, hi)
            && Moved(c, tip, w, step.w, 3, [Data(Range(cursor, hi))])
  {
    hide Moved, Fetch, Send, CheckNow, HashAt;
    var batch := Range(cursor, BatchEnd(cursor, p.end, p.size));
    FetchMoves(c, tip, w, batch.hi);
    var (fetched, w1) := Fetch(w, batch.hi);
    StillSmooth(c, tip, w, w1, 1, []);
    SendMoves(c, tip, w1, Data(batch));
    var (_, w2) := Send(w1, Data(batch));
    StillSmooth(c, tip, w1, w2, 1, [Data(batch)]);
    CheckMoves(c, tip, w2, buffer, p.capacity, batch.hi);
    var (_, _, w3) := CheckNow(w2, buffer, p.capacity, fetched.value);
    hide Smooth;
    MovedTwice(c, tip, w, w1, w2, 1, 1, [], [Data(batch)]);
    MovedTwice(c, tip, w, w2, w3, 2, 1, [] + [Data(batch)], []);
    assert [] + [Data(batch)] + [] == [Data(batch)];
  }

  lemma {:induction false} StreamMoves(c: Chain, tip: nat, p: Params, cursor: nat, last: Option<Block>, buffer: seq<Block>, w: World)
    requires p.size >= 1 && cursor <= p.end + 1 && p.end <= tip && Smooth(c, w.future, tip)
    requires |w.future| >= 3 * |Tiling(cursor, p.end, p.size)|
    requires tip < |c.blocks| && (cursor == p.end + 1 ==> last == Some(BlockAt(c, p.end)))
    ensures var outcome := StreamRange(p, cursor, last, buffer, w);
            var ranges := Tiling(cursor, p.end, p.size);
            && outcome.Done? && outcome.last == Some(BlockAt(c, p.end))
            && Moved(c, tip, w, outcome.w, 3 * |ranges|, RangeMessages(ranges))
    decreases p.end + 1 - cursor
  {
    hide Moved, BatchStep, HashAt;
    MovedNot(c, tip, w);
    if cursor <= p.end {
      var r := Range(cursor, BatchEnd(cursor, p.end, p.size));
      var rest := Tiling(r.hi + 1, p.end, p.size);
      assert Tiling(cursor, p.end, p.size) == [r] + rest && ([r] + rest)[1..] == rest;
      hide Tiling;
      BatchMoves(c, tip, p, cursor, buffer, w);
      var step := BatchStep(p, cursor, buffer, w);
      StillSmooth(c, tip, w, step.w, 3, [Data(r)]);
      StreamOne(p, cursor, last, buffer, w);
      hide Smooth, StreamRange;
      StreamMoves(c, tip, p, step.cursor, Some(step.batchEnd), step.buffer, step.w);
      var outcome := StreamRange(p, step.cursor, Some(step.batchEnd), step.buffer, step.w);
      MovedTwice(c, tip, w, step.w, outcome.w, 3, 3 * |rest|, [Data(r)], RangeMessages(rest));
    }
  }

  lemma StreamOne(p: Params, cursor: nat, last: Option<Block>, buffer: seq<Block>, w: World)
    requires p.size >= 1 && cursor <= p.end
    ensures var step := BatchStep(p, cursor, buffer, w);
            step.Next? ==>
              StreamRange(p, cursor, last, buffer, w) == StreamRange(p, step.cursor, Some(step.batchEnd), step.buffer, step.w)
  {
    BatchConsumes(p, cursor, buffer, w);
    hide BatchStep;
  }

  // -------------------------------------------------------------------------
  // Live streams
  // -------------------------------------------------------------------------

  /** The ranges that headers ask for, when everything below `next` is streamed: each header that
      confirms more asks for the batches up to what it confirms. */
  function LiveRanges(confirmations: nat, size: nat, next: nat, items: seq<Item>): seq<Range>
    requires size >= 1
    decreases |items|
  {
    if items == [] then []
    else if items[0].Header? && next <= SaturatingSub(items[0].number, confirmations) then
      var confirmed := SaturatingSub(items[0].number, confirmations);
      Tiling(next, confirmed, size) + LiveRanges(confirmations, size, confirmed + 1, items[1..])
    else LiveRanges(confirmations, size, next, items[1..])
  }

  /** One more than the highest block that the headers confirm, or `next`. */
  function LiveNext(confirmations: nat, next: nat, items: seq<Item>): nat
    decreases |items|
  {
    if items == [] then next
    else
      var confirmed := if items[0].Header? then SaturatingSub(items[0].number, confirmations) + 1 else 0;
      LiveNext(confirmations, Max(next, confirmed), items[1..])
  }

  /** These batches are the heights from `next` up to the highest block confirmed, once and in
      order. */
  lemma {:induction false} LiveRangesCover(confirmations: nat, size: nat, next: nat, items: seq<Item>)
    requires size >= 1
    ensures var end := LiveNext(confirmations, next, items);
            && next <= end
            && (forall i | 0 <= i < |items| && items[i].Header? :: SaturatingSub(items[i].number, confirmations) < end)
            && (end > next ==> exists i | 0 <= i < |items| ::
                  items[i].Header? && SaturatingSub(items[i].number, confirmations) + 1 == end)
    ensures Heights(LiveRanges(confirmations, size, next, items))
         == if LiveNext(confirmations, next, items) == next then [] else Interval(next, LiveNext(confirmations, next, items) - 1)
    decreases |items|
  {
    hide Heights, Interval, Tiling;
    if items == [] {
      NoHeights();
    } else {
      var confirmed := if items[0].Header? then SaturatingSub(items[0].number, confirmations) + 1 else 0;
      var next' := Max(next, confirmed);
      var end := LiveNext(confirmations, next', items[1..]);
      LiveRangesCover(confirmations, size, next', items[1..]);
      CoverSplit(confirmations, next', items, end);
      if next < next' {
        HeightsFrom(next, next', end, size, LiveRanges(confirmations, size, next', items[1..]));
      }
    }
  }

  lemma NoHeights()
    ensures Heights([]) == []
  {
  }

  /** The batches of one header and those of the headers after it. */
  lemma HeightsFrom(next: nat, next': nat, end: nat, size: nat, rest: seq<Range>)
    requires size >= 1 && next < next' <= end && Heights(rest) == if end == next' then [] else Interval(next', end - 1)
    ensures Heights(Tiling(next, next' - 1, size) + rest) == Interval(next, end - 1)
  {
    TilingIsPartition(next, next' - 1, size);
    HeightsConcat(Tiling(next, next' - 1, size), rest);
    hide Heights, Tiling;
    if next' < end {
      IntervalSplit(next, next' - 1, end - 1);
    } else {
      assert Interval(next, next' - 1) + [] == Interval(next, next' - 1);
    }
  }

  lemma CoverSplit(confirmations: nat, next: nat, items: seq<Item>, end: nat)
    requires items != [] && next <= end && (items[0].Header? ==> SaturatingSub(items[0].number, confirmations) < next)
    requires forall i | 0 <= i < |items[1..]| && items[1..][i].Header? :: SaturatingSub(items[1..][i].number, confirmations) < end
    ensures forall i | 0 <= i < |items| && items[i].Header? :: SaturatingSub(items[i].number, confirmations) < end
  {
    assert forall i | 1 <= i < |items| :: items[i] == items[1..][i - 1];
  }

  /** No item is a failure, and no header confirms anything above height `tip`. */
  ghost predicate Orderly(confirmations: nat, items: seq<Item>, tip: nat) {
    forall i | 0 <= i < |items| ::
      !items[i].Failed? && (items[i].Header? ==> SaturatingSub(items[i].number, confirmations) <= tip)
  }

  /** An open stream that has streamed everything below `next`. */
  ghost predicate LiveAt(c: Chain, live: Live, next: nat) {
    && live.Open? && 1 <= next <= |c.blocks| && live.state.previousBatchEnd == Some(BlockAt(c, next - 1))
  }

  lemma ItemMoves(c: Chain, tip: nat, cfg: Config, item: Item, live: Live, next: nat)
    requires cfg.size >= 1 && LiveAt(c, live, next) && next <= tip + 1 && Smooth(c, live.w.future, tip)
    requires Orderly(cfg.confirmations, [item], tip)
    requires |live.w.future| >= 1 + 3 * |LiveRanges(cfg.confirmations, cfg.size, next, [item])|
    ensures var live' := OnItem(cfg, item, live.state, live.buffer, live.w);
            var ranges := LiveRanges(cfg.confirmations, cfg.size, next, [item]);
            && LiveAt(c, live', LiveNext(cfg.confirmations, next, [item]))
            && (live'.state.batchStart == LiveNext(cfg.confirmations, next, [item]) || live' == live)
            && Moved(c, tip, live.w, live'.w, 1 + 3 * |ranges|, RangeMessages(ranges))
  {
    hide Moved, CheckNow, StreamRange, HashAt, Tiling;
    assert [item][0] == item && [item][1..] == [];
    if item.Lagged? {
      MovedNot(c, tip, live.w);
      MovedLess(c, tip, live.w, live.w, 0, 1, []);
    } else {
      var number := item.number;
      CheckMoves(c, tip, live.w, live.buffer, cfg.capacity, next - 1);
      var (_, buffer', w1) := CheckNow(live.w, live.buffer, cfg.capacity, BlockAt(c, next - 1));
      StillSmooth(c, tip, live.w, w1, 1, []);
      var confirmed := SaturatingSub(number, cfg.confirmations);
      if next <= confirmed {
        var p := Params(MinCommonAncestor(cfg), confirmed, cfg.size, cfg.capacity);
        var ranges := Tiling(next, confirmed, cfg.size);
        assert ranges + [] == ranges;
        StreamMoves(c, tip, p, next, None, buffer', w1);
        MovedTwice(c, tip, live.w, w1, StreamRange(p, next, None, buffer', w1).w, 1, 3 * |ranges|, [], RangeMessages(ranges));
        assert [] + RangeMessages(ranges) == RangeMessages(ranges);
      }
    }
  }

  lemma MovedLess(c: Chain, tip: nat, w: World, w': World, cost: nat, cost': nat, sent: seq<Message>)
    requires Moved(c, tip, w, w', cost, sent) && cost <= cost'
    ensures Moved(c, tip, w, w', cost', sent)
  {
  }

  lemma OneItemFirst(confirmations: nat, size: nat, next: nat, items: seq<Item>)
    requires size >= 1 && items != []
    ensures LiveRanges(confirmations, size, next, items)
         == LiveRanges(confirmations, size, next, [items[0]])
            + LiveRanges(confirmations, size, LiveNext(confirmations, next, [items[0]]), items[1..])
    ensures LiveNext(confirmations, next, items) == LiveNext(confirmations, LiveNext(confirmations, next, [items[0]]), items[1..])
  {
    hide Tiling;
    OneItem(confirmations, size, next, items[0]);
    if items[0].Header? && next <= SaturatingSub(items[0].number, confirmations) {
      FirstAsks(confirmations, size, next, items);
    }
  }

  lemma OneItem(confirmations: nat, size: nat, next: nat, item: Item)
    requires size >= 1
    ensures var asks := item.Header? && next <= SaturatingSub(item.number, confirmations);
            && LiveRanges(confirmations, size, next, [item])
               == (if asks then Tiling(next, SaturatingSub(item.number, confirmations), size) else [])
            && LiveNext(confirmations, next, [item]) == (if asks then SaturatingSub(item.number, confirmations) + 1 else next)
  {
    hide Tiling;
    assert [item][1..] == [];
    if item.Header? && next <= SaturatingSub(item.number, confirmations) {
      assert Tiling(next, SaturatingSub(item.number, confirmations), size) + []
          == Tiling(next, SaturatingSub(item.number, confirmations), size);
    }
  }

  lemma {:induction false} ContinueMoves(c: Chain, tip: nat, cfg: Config, items: seq<Item>, live: Live, next: nat)
    requires cfg.size >= 1 && LiveAt(c, live, next) && next <= tip + 1 && Smooth(c, live.w.future, tip)
    requires Orderly(cfg.confirmations, items, tip)
    requires |live.w.future| >= |items| + 3 * |LiveRanges(cfg.confirmations, cfg.size, next, items)|
    ensures var live' := Continue(cfg, items, live);
            var ranges := LiveRanges(cfg.confirmations, cfg.size, next, items);
            && LiveAt(c, live', LiveNext(cfg.confirmations, next, items))
            && (live'.state.batchStart == LiveNext(cfg.confirmations, next, items) || live'.state == live.state)
            && Moved(c, tip, live.w, live'.w, |items| + 3 * |ranges|, RangeMessages(ranges))
    decreases |items|
  {
    hide Moved, OnItem, HashAt, Smooth, Orderly, LiveRanges, LiveNext;
    NothingNext(cfg.confirmations, cfg.size, next);
    if items == [] {
      MovedNot(c, tip, live.w);
    } else {
      var first := [items[0]];
      var ranges := LiveRanges(cfg.confirmations, cfg.size, next, first);
      OneItemFirst(cfg.confirmations, cfg.size, next, items);
      OrderlyFirst(cfg.confirmations, items, tip);
      NextIsBelow(cfg.confirmations, next, first, tip);
      var next' := LiveNext(cfg.confirmations, next, first);
      var rest := LiveRanges(cfg.confirmations, cfg.size, next', items[1..]);
      ItemMoves(c, tip, cfg, items[0], live, next);
      var live1 := OnItem(cfg, items[0], live.state, live.buffer, live.w);
      StillSmooth(c, tip, live.w, live1.w, 1 + 3 * |ranges|, RangeMessages(ranges));
      ContinueMoves(c, tip, cfg, items[1..], live1, next');
      RangeMessagesConcat(ranges, rest);
      MovedTwice(c, tip, live.w, live1.w, Continue(cfg, items[1..], live1).w, 1 + 3 * |ranges|, |items| - 1 + 3 * |rest|,
                 RangeMessages(ranges), RangeMessages(rest));
    }
  }

  lemma OrderlyFirst(confirmations: nat, items: seq<Item>, tip: nat)
    requires items != [] && Orderly(confirmations, items, tip)
    ensures Orderly(confirmations, [items[0]], tip) && Orderly(confirmations, items[1..], tip)
  {
  }

  lemma NextIsBelow(confirmations: nat, next: nat, items: seq<Item>, tip: nat)
    requires |items| == 1 && Orderly(confirmations, items, tip) && next <= tip + 1
    ensures LiveNext(confirmations, next, items) <= tip + 1
  {
    assert items[1..] == [];
  }

  /** The headers that are skipped ask for nothing. */
  lemma {:induction false} SkipMoves(cfg: Config, items: seq<Item>, tip: nat)
    requires cfg.size >= 1 && Orderly(cfg.confirmations, items, tip)
    ensures var relevant := SkipWhile(cfg, items);
            && |relevant| <= |items| && Orderly(cfg.confirmations, relevant, tip)
            && LiveRanges(cfg.confirmations, cfg.size, cfg.streamStart, items)
               == LiveRanges(cfg.confirmations, cfg.size, cfg.streamStart, relevant)
            && LiveNext(cfg.confirmations, cfg.streamStart, items) == LiveNext(cfg.confirmations, cfg.streamStart, relevant)
            && (relevant != [] ==>
                  && relevant[0].Header? && cfg.streamStart <= SaturatingSub(relevant[0].number, cfg.confirmations) <= tip
                  && cfg.streamStart < LiveNext(cfg.confirmations, cfg.streamStart, items))
    decreases |items|
  {
    if items != [] {
      OrderlyFirst(cfg.confirmations, items, tip);
      if Skipped(cfg, items[0]) {
        SkipMoves(cfg, items[1..], tip);
      } else {
        LiveRangesCover(cfg.confirmations, cfg.size, SaturatingSub(items[0].number, cfg.confirmations) + 1, items[1..]);
      }
    }
  }

  /** While everything answers and no block up to height `tip` changes: a live stream stays open, has
      streamed exactly the batches that its headers ask for, in order, with the notice before them if
      it is asked for, and ends with the highest block they confirm. As long as no header confirms
      the stream start it sends nothing. */
  lemma LiveStreamsConfirmed(c: Chain, tip: nat, cfg: Config, items: seq<Item>, notify: bool, buffer: seq<Block>, w: World)
    requires cfg.size >= 1 && Smooth(c, w.future, tip) && Orderly(cfg.confirmations, items, tip)
    requires |w.future| >= 1 + |items| + 3 * |LiveRanges(cfg.confirmations, cfg.size, cfg.streamStart, items)|
    ensures var live := StreamLive(cfg, items, notify, buffer, w);
            var ranges := LiveRanges(cfg.confirmations, cfg.size, cfg.streamStart, items);
            var next := LiveNext(cfg.confirmations, cfg.streamStart, items);
            if next == cfg.streamStart then live == Closed(buffer, w)
            else
              && LiveAt(c, live, next)
              && (live.state.batchStart == next || live.state.batchStart == cfg.streamStart)
              && Moved(c, tip, w, live.w, 1 + |items| + 3 * |ranges|,
                       (if notify then [SwitchingToLive] else []) + RangeMessages(ranges))
  {
    hide Moved, Initialize, Continue, LiveRanges, LiveNext, Orderly;
    SkipMoves(cfg, items, tip);
    var relevant := SkipWhile(cfg, items);
    if relevant == [] {
      NothingNext(cfg.confirmations, cfg.size, cfg.streamStart);
    } else {
      var notice := if notify then [SwitchingToLive] else [];
      NoticeMoves(c, tip, w, notify);
      var w1 := if notify then Send(w, SwitchingToLive).1 else w;
      StillSmooth(c, tip, w, w1, 1, notice);
      hide Smooth;
      StartedMoves(c, tip, cfg, relevant, buffer, w1);
      var first := Initialize(cfg, Confirmed(cfg, relevant[0].number), buffer, w1);
      var live := Continue(cfg, relevant[1..], first);
      var ranges := LiveRanges(cfg.confirmations, cfg.size, cfg.streamStart, relevant);
      MovedTwice(c, tip, w, w1, live.w, 1, |relevant| + 3 * |ranges|, notice, RangeMessages(ranges));
      MovedLess(c, tip, w, live.w, 1 + (|relevant| + 3 * |ranges|), 1 + |items| + 3 * |ranges|, notice + RangeMessages(ranges));
    }
  }

  lemma NothingNext(confirmations: nat, size: nat, next: nat)
    requires size >= 1
    ensures LiveNext(confirmations, next, []) == next
    ensures LiveRanges(confirmations, size, next, []) == []
  {
  }

  lemma NoticeMoves(c: Chain, tip: nat, w: World, notify: bool)
    requires Smooth(c, w.future, tip) && w.future != []
    ensures notify ==> Send(w, SwitchingToLive).0
    ensures Moved(c, tip, w, if notify then Send(w, SwitchingToLive).1 else w, 1, if notify then [SwitchingToLive] else [])
  {
    SendMoves(c, tip, w, SwitchingToLive);
    MovedNot(c, tip, w);
  }

  lemma StartedMoves(c: Chain, tip: nat, cfg: Config, items: seq<Item>, buffer: seq<Block>, w: World)
    requires cfg.size >= 1 && Smooth(c, w.future, tip) && Orderly(cfg.confirmations, items, tip)
    requires items != [] && items[0].Header? && cfg.streamStart <= SaturatingSub(items[0].number, cfg.confirmations) <= tip
    requires |w.future| >= |items| + 3 * |LiveRanges(cfg.confirmations, cfg.size, cfg.streamStart, items)|
    ensures var live := Continue(cfg, items[1..], Initialize(cfg, Confirmed(cfg, items[0].number), buffer, w));
            var ranges := LiveRanges(cfg.confirmations, cfg.size, cfg.streamStart, items);
            && LiveAt(c, live, LiveNext(cfg.confirmations, cfg.streamStart, items))
            && (live.state.batchStart == LiveNext(cfg.confirmations, cfg.streamStart, items) || live.state.batchStart == cfg.streamStart)
            && Moved(c, tip, w, live.w, |items| + 3 * |ranges|, RangeMessages(ranges))
  {
    hide Moved, LiveRanges, LiveNext, Tiling, StreamRange, Continue, Orderly, HashAt;
    var confirmed := SaturatingSub(items[0].number, cfg.confirmations);
    var tiles := Tiling(cfg.streamStart, confirmed, cfg.size);
    var rest := LiveRanges(cfg.confirmations, cfg.size, confirmed + 1, items[1..]);
    FirstAsks(cfg.confirmations, cfg.size, cfg.streamStart, items);
    OrderlyFirst(cfg.confirmations, items, tip);
    var p := Params(MinCommonAncestor(cfg), confirmed, cfg.size, cfg.capacity);
    StreamMoves(c, tip, p, cfg.streamStart, None, buffer, w);
    var first := Initialize(cfg, confirmed, buffer, w);
    StillSmooth(c, tip, w, first.w, 3 * |tiles|, RangeMessages(tiles));
    ContinueMoves(c, tip, cfg, items[1..], first, confirmed + 1);
    RangeMessagesConcat(tiles, rest);
    var live := Continue(cfg, items[1..], first);
    MovedTwice(c, tip, w, first.w, live.w, 3 * |tiles|, |items| - 1 + 3 * |rest|, RangeMessages(tiles), RangeMessages(rest));
    MovedLess(c, tip, w, live.w, 3 * |tiles| + (|items| - 1 + 3 * |rest|), |items| + 3 * |tiles + rest|, RangeMessages(tiles + rest));
  }

  /** What the first header asks for, and the others. */
  lemma FirstAsks(confirmations: nat, size: nat, next: nat, items: seq<Item>)
    requires size >= 1 && items != [] && items[0].Header? && next <= SaturatingSub(items[0].number, confirmations)
    ensures var confirmed := SaturatingSub(items[0].number, confirmations);
            && LiveRanges(confirmations, size, next, items)
               == Tiling(next, confirmed, size) + LiveRanges(confirmations, size, confirmed + 1, items[1..])
            && LiveNext(confirmations, next, items) == LiveNext(confirmations, confirmed + 1, items[1..])
  {
    hide Tiling;
  }

  // -------------------------------------------------------------------------
  // Historical and sync runs
  // -------------------------------------------------------------------------

  lemma FinalizedMoves(c: Chain, tip: nat, w: World)
    requires Smooth(c, w.future, tip) && w.future != []
    ensures Moved(c, tip, w, ReadFinalized(w).w, 1, [])
    ensures ReadFinalized(w).height == if Now(w).chain.finalized.Some? then Now(w).chain.finalized.value else 0
  {
    hide Moved, Smooth;
    SmoothNow(c, w, tip);
    LaterMoves(c, tip, w);
    if KnowsFinalized(Now(w)) {
      NotedMoves(c, tip, w, Anchored(Now(w).chain, Now(w).chain.finalized.value + 1));
    }
  }

  lemma CompareMoves(c: Chain, tip: nat, w: World, k: nat, kept: nat)
    requires Smooth(c, w.future, tip) && w.future != [] && k <= tip
    ensures tip < |c.blocks|
    ensures var v := CompareEnd(BlockAt(c, k), kept, w); v.Stable? && Moved(c, tip, w, v.w, 1, [])
  {
    assert tip < |c.blocks|;
    hide Smooth, Moved;
    SmoothNow(c, w, tip);
    AgreeHashes(c, Now(w).chain, tip + 1);
    NotedMoves(c, tip, w, Compared(Now(w).chain, false, kept));
  }

  lemma PassMoves(c: Chain, tip: nat, restStart: nat, end: nat, size: nat, ancestor: nat, w: World)
    requires size >= 1 && end <= tip && Smooth(c, w.future, tip) && |w.future| >= |Tiling(restStart, end, size)| + 1
    ensures tip < |c.blocks|
    ensures var ranges := Tiling(restStart, end, size);
            var r := Passes(restStart, end, size, ancestor, BlockAt(c, end), w);
            r.open && Moved(c, tip, w, r.w, |ranges| + 1, RangeMessages(ranges))
  {
    assert tip < |c.blocks|;
    hide Smooth, Moved, SendAll, Tiling, CompareEnd, HashAt;
    var ranges := Tiling(restStart, end, size);
    SendAllMoves(c, tip, w, ranges);
    var w1 := SendAll(w, ranges).1;
    StillSmooth(c, tip, w, w1, |ranges|, RangeMessages(ranges));
    CompareMoves(c, tip, w1, end, restStart);
    var v := CompareEnd(BlockAt(c, end), restStart, w1);
    MovedTwice(c, tip, w, w1, v.w, |ranges|, 1, RangeMessages(ranges), []);
    assert RangeMessages(ranges) + [] == RangeMessages(ranges);
    assert OnePass(restStart, end, size, ancestor, BlockAt(c, end), w) == Historical.Finished(Ended(true, v.w));
  }

  /** While everything answers and the interval does not change, a historical run streams the
      finalized blocks and then the others, in order and once, and succeeds. */
  lemma HistoricalStreamsAll(c: Chain, tip: nat, start: nat, end: nat, size: nat, w: World)
    requires size >= 1 && end <= tip && Smooth(c, w.future, tip) && w.future != []
    requires var finalized := if Now(w).chain.finalized.Some? then Now(w).chain.finalized.value else 0;
             |w.future| >= 3 + |Tiling(start, Min(finalized, end), size)| + |Tiling(Max(start, Min(finalized, end) + 1), end, size)|
    ensures var finalized := if Now(w).chain.finalized.Some? then Now(w).chain.finalized.value else 0;
            var final, rest := Tiling(start, Min(finalized, end), size), Tiling(Max(start, Min(finalized, end) + 1), end, size);
            var r := StreamHistorical(start, end, size, w);
            r.open && Moved(c, tip, w, r.w, 3 + |final| + |rest|, RangeMessages(final) + RangeMessages(rest))
  {
    hide Smooth, Moved, SendAll, Passes, ReadFinalized, Fetch;
    FinalizedMoves(c, tip, w);
    var f := ReadFinalized(w);
    StillSmooth(c, tip, w, f.w, 1, []);
    var final := Tiling(start, Min(f.height, end), size);
    var restStart := Max(start, Min(f.height, end) + 1);
    var rest := Tiling(restStart, end, size);
    assert restStart > end ==> rest == [];
    hide Tiling;
    SendAllMoves(c, tip, f.w, final);
    var w1 := SendAll(f.w, final).1;
    StillSmooth(c, tip, f.w, w1, |final|, RangeMessages(final));
    MovedTwice(c, tip, w, f.w, w1, 1, |final|, [], RangeMessages(final));
    NothingBefore(RangeMessages(final));
    if restStart > end {
      assert RangeMessages(final) + [] == RangeMessages(final);
      MovedLess(c, tip, w, w1, 1 + |final|, 3 + |final|, RangeMessages(final));
    } else {
      FetchMoves(c, tip, w1, end);
      var w2 := Fetch(w1, end).1;
      StillSmooth(c, tip, w1, w2, 1, []);
      var ancestor := ReorgAncestor(restStart, f.height);
      PassMoves(c, tip, restStart, end, size, ancestor, w2);
      var r := Passes(restStart, end, size, ancestor, BlockAt(c, end), w2);
      MovedTwice(c, tip, w1, w2, r.w, 1, |rest| + 1, [], RangeMessages(rest));
      NothingBefore(RangeMessages(rest));
      MovedTwice(c, tip, w, w1, r.w, 1 + |final|, 1 + (|rest| + 1), RangeMessages(final), RangeMessages(rest));
    }
  }

  /** All snapshots have the blocks of `c` and no others; what is finalized may change. */
  ghost predicate Frozen(c: Chain, future: seq<Moment>) {
    && c.blocks != [] && AllUp(future)
    && forall i | 0 <= i < |future| :: future[i].chain.blocks == c.blocks
  }

  lemma FrozenIsSmooth(c: Chain, future: seq<Moment>)
    requires Frozen(c, future)
    ensures Smooth(c, future, |c.blocks| - 1)
  {
  }

  /** The head and a part of a frozen timeline. */
  lemma FrozenHead(c: Chain, future: seq<Moment>, w: World)
    requires Frozen(c, future) && IsSuffix(w.future, future) && w.future != []
    ensures ReadHead(w) == (Ok(|c.blocks| - 1), Later(w))
    ensures IsSuffix(Later(w).future, future)
  {
    assert future[|future| - |w.future|..][0] == Now(w);
  }

  /** What a catch-up up to the confirmed tip has to stream, in two parts. */
  function FinalPart(start: nat, tip: nat, finalized: nat, size: nat): seq<Range>
    requires size >= 1
  {
    if start < tip then Tiling(start, Min(finalized, tip), size) else []
  }

  function OtherPart(start: nat, tip: nat, finalized: nat, size: nat): seq<Range>
    requires size >= 1
  {
    if start < tip then Tiling(Max(start, Min(finalized, tip) + 1), tip, size) else []
  }

  lemma CatchUpMoves(c: Chain, future: seq<Moment>, start: nat, confirmations: nat, size: nat, w: World)
    requires size >= 1 && Frozen(c, future) && IsSuffix(w.future, future) && w.future != [] && Smooth(c, w.future, |c.blocks| - 1)
    requires var tip := SaturatingSub(|c.blocks| - 1, confirmations);
             var finalized := if Now(w).chain.finalized.Some? then Now(w).chain.finalized.value else 0;
             |w.future| >= 5 + |FinalPart(start, tip, finalized, size)| + |OtherPart(start, tip, finalized, size)|
    ensures var tip := SaturatingSub(|c.blocks| - 1, confirmations);
            var finalized := if Now(w).chain.finalized.Some? then Now(w).chain.finalized.value else 0;
            var final, other := FinalPart(start, tip, finalized, size), OtherPart(start, tip, finalized, size);
            var r := CatchUp(start, tip, confirmations, size, w);
            && r.CaughtUp? && r.liveStart == (if start < tip then tip + 1 else start)
            && Moved(c, |c.blocks| - 1, w, r.w, 4 + |final| + |other|, RangeMessages(final) + RangeMessages(other))
  {
    assert c.blocks != [];
    hide Moved, StreamHistorical, Tiling, Smooth, IsSuffix, ReadHead, Frozen, CatchUp, FinalPart, OtherPart, RangeMessages;
    var height := |c.blocks| - 1;
    var tip := SaturatingSub(height, confirmations);
    var finalized := if Now(w).chain.finalized.Some? then Now(w).chain.finalized.value else 0;
    var sent := RangeMessages(FinalPart(start, tip, finalized, size)) + RangeMessages(OtherPart(start, tip, finalized, size));
    var cost := |FinalPart(start, tip, finalized, size)| + |OtherPart(start, tip, finalized, size)|;
    if start < tip {
      RoundMoves(c, height, start, tip, size, w);
      RoundLeaves(future, start, tip, size, w);
      var r := StreamHistorical(start, tip, size, w);
      StillSmooth(c, height, w, r.w, 3 + cost, sent);
      FrozenHead(c, future, r.w);
      LaterMoves(c, height, r.w);
      MovedTwice(c, height, w, r.w, Later(r.w), 3 + cost, 1, sent, []);
      NothingMore(sent);
      OneRound(start, tip, confirmations, size, w, height);
    } else {
      NoRound(start, tip, confirmations, size, w);
      NothingToStream(start, tip, finalized, size);
      MovedNot(c, height, w);
      MovedLess(c, height, w, w, 0, 4, []);
    }
  }

  lemma RoundLeaves(future: seq<Moment>, start: nat, tip: nat, size: nat, w: World)
    requires size >= 1 && IsSuffix(w.future, future)
    ensures IsSuffix(StreamHistorical(start, tip, size, w).w.future, future)
  {
    hide *;
    HistoricalStops(future, start, tip, size, w, []);
  }

  lemma RoundMoves(c: Chain, height: nat, start: nat, tip: nat, size: nat, w: World)
    requires size >= 1 && start < tip <= height && Smooth(c, w.future, height) && w.future != []
    requires var finalized := if Now(w).chain.finalized.Some? then Now(w).chain.finalized.value else 0;
             |w.future| >= 3 + |FinalPart(start, tip, finalized, size)| + |OtherPart(start, tip, finalized, size)|
    ensures var finalized := if Now(w).chain.finalized.Some? then Now(w).chain.finalized.value else 0;
            var final, other := FinalPart(start, tip, finalized, size), OtherPart(start, tip, finalized, size);
            var r := StreamHistorical(start, tip, size, w);
            r.open && Moved(c, height, w, r.w, 3 + (|final| + |other|), RangeMessages(final) + RangeMessages(other))
  {
    hide Moved, StreamHistorical, Tiling, Smooth, RangeMessages;
    HistoricalStreamsAll(c, height, start, tip, size, w);
  }

  lemma NothingToStream(start: nat, tip: nat, finalized: nat, size: nat)
    requires size >= 1 && start >= tip
    ensures FinalPart(start, tip, finalized, size) == [] && OtherPart(start, tip, finalized, size) == []
    ensures RangeMessages([]) + RangeMessages([]) == []
  {
  }

  lemma OneRound(start: nat, tip: nat, confirmations: nat, size: nat, w: World, height: nat)
    requires size >= 1 && start < tip == SaturatingSub(height, confirmations)
    requires var r := StreamHistorical(start, tip, size, w); r.open && ReadHead(r.w) == (Ok(height), Later(r.w))
    ensures CatchUp(start, tip, confirmations, size, w) == CaughtUp(tip + 1, Later(StreamHistorical(start, tip, size, w).w))
  {
    hide StreamHistorical, ReadHead;
    NoRound(tip + 1, tip, confirmations, size, Later(StreamHistorical(start, tip, size, w).w));
  }

  lemma NoRound(start: nat, tip: nat, confirmations: nat, size: nat, w: World)
    requires size >= 1 && start >= tip
    ensures CatchUp(start, tip, confirmations, size, w) == CaughtUp(start, w)
  {
  }

  lemma NothingBefore(sent: seq<Message>)
    ensures [] + sent == sent
  {
  }

  lemma NothingMore(sent: seq<Message>)
    ensures sent + [] == sent
  {
  }

  /** Headers that confirm nothing new ask for nothing. */
  lemma {:induction false} NothingAsked(confirmations: nat, size: nat, next: nat, items: seq<Item>)
    requires size >= 1 && LiveNext(confirmations, next, items) == next
    ensures LiveRanges(confirmations, size, next, items) == []
    decreases |items|
  {
    if items != [] {
      var confirmed := if items[0].Header? then SaturatingSub(items[0].number, confirmations) + 1 else 0;
      LiveRangesCover(confirmations, size, Max(next, confirmed), items[1..]);
      NothingAsked(confirmations, size, next, items[1..]);
    }
  }

  lemma MovedSent(c: Chain, tip: nat, w: World, w': World, cost: nat, sent: seq<Message>)
    requires Moved(c, tip, w, w', cost, sent)
    ensures Messages(w'.history) == Messages(w.history) + sent
  {
  }

  /** The live phase, from the subscription on or from the notice on. */
  lemma LiveMoves(c: Chain, tip: nat, cfg: Config, items: seq<Item>, notify: bool, w: World)
    requires cfg.size >= 1 && Smooth(c, w.future, tip) && Orderly(cfg.confirmations, items, tip)
    requires |w.future| >= 1 + |items| + 3 * |LiveRanges(cfg.confirmations, cfg.size, cfg.streamStart, items)|
    ensures var live := StreamLive(cfg, items, notify, [], w);
            var ranges := LiveRanges(cfg.confirmations, cfg.size, cfg.streamStart, items);
            var next := LiveNext(cfg.confirmations, cfg.streamStart, items);
            && (next > cfg.streamStart ==> LiveAt(c, live, next))
            && Messages(live.w.history) ==
               Messages(w.history) +
               ((if notify && next > cfg.streamStart then [SwitchingToLive] else []) + RangeMessages(ranges))
  {
    hide Moved, StreamLive, LiveRanges, LiveNext, Smooth, Messages, Orderly, LiveAt;
    LiveStreamsConfirmed(c, tip, cfg, items, notify, [], w);
    LiveRangesCover(cfg.confirmations, cfg.size, cfg.streamStart, items);
    var ranges := LiveRanges(cfg.confirmations, cfg.size, cfg.streamStart, items);
    if LiveNext(cfg.confirmations, cfg.streamStart, items) == cfg.streamStart {
      NothingAsked(cfg.confirmations, cfg.size, cfg.streamStart, items);
      NothingMore(Messages(w.history));
    } else {
      MovedSent(c, tip, w, StreamLive(cfg, items, notify, [], w).w, 1 + |items| + 3 * |ranges|,
                (if notify then [SwitchingToLive] else []) + RangeMessages(ranges));
    }
  }

  lemma GoLiveMoves(c: Chain, tip: nat, cfg: Config, items: seq<Item>, w: World)
    requires cfg.size >= 1 && Smooth(c, w.future, tip) && Orderly(cfg.confirmations, items, tip)
    requires |w.future| >= 3 + |items| + 3 * |LiveRanges(cfg.confirmations, cfg.size, cfg.streamStart, items)|
    ensures var live := GoLive(cfg, items, w);
            var next := LiveNext(cfg.confirmations, cfg.streamStart, items);
            && (next > cfg.streamStart ==> LiveAt(c, live, next))
            && Messages(live.w.history) ==
               Messages(w.history) +
               ([SwitchingToLive] + RangeMessages(LiveRanges(cfg.confirmations, cfg.size, cfg.streamStart, items)))
  {
    hide Moved, StreamLive, LiveRanges, LiveNext, Smooth, Messages, Orderly, LiveAt, Send;
    SmoothNow(c, w, tip);
    LaterMoves(c, tip, w);
    StillSmooth(c, tip, w, Later(w), 1, []);
    SendMoves(c, tip, Later(w), SwitchingToLive);
    var w2 := Send(Later(w), SwitchingToLive).1;
    StillSmooth(c, tip, Later(w), w2, 1, [SwitchingToLive]);
    MovedTwice(c, tip, w, Later(w), w2, 1, 1, [], [SwitchingToLive]);
    MovedSent(c, tip, w, w2, 2, [] + [SwitchingToLive]);
    LiveMoves(c, tip, cfg, items, false, w2);
    var ranges := LiveRanges(cfg.confirmations, cfg.size, cfg.streamStart, items);
    Assembled(Messages(w.history), [SwitchingToLive], RangeMessages(ranges));
  }

  lemma Assembled(a: seq<Message>, b: seq<Message>, c: seq<Message>)
    ensures (a + ([] + b)) + ([] + c) == a + (b + c)
  {
  }

  /** A run from its second moment on. */
  lemma SyncedMoves(c: Chain, start: nat, confirmations: nat, size: nat, capacity: Capacity, items: seq<Item>, future: seq<Moment>, w: World)
    requires size >= 1 && Frozen(c, future) && IsSuffix(w.future, future) && w.future != [] && Smooth(c, w.future, |c.blocks| - 1)
    requires Orderly(confirmations, items, |c.blocks| - 1)
    requires var tip := SaturatingSub(|c.blocks| - 1, confirmations);
             var finalized := if Now(w).chain.finalized.Some? then Now(w).chain.finalized.value else 0;
             var final, other := FinalPart(start, tip, finalized, size), OtherPart(start, tip, finalized, size);
             var liveStart := if start < tip then tip + 1 else start;
             |w.future| >= 8 + |final| + |other| + |items| + 3 * |LiveRanges(confirmations, size, liveStart, items)|
    ensures var tip := SaturatingSub(|c.blocks| - 1, confirmations);
            var finalized := if Now(w).chain.finalized.Some? then Now(w).chain.finalized.value else 0;
            var final, other := FinalPart(start, tip, finalized, size), OtherPart(start, tip, finalized, size);
            var liveStart := if start < tip then tip + 1 else start;
            var ranges, next := LiveRanges(confirmations, size, liveStart, items), LiveNext(confirmations, liveStart, items);
            var live := CatchUpThenLive(start, tip, confirmations, size, capacity, items, w);
            && (next > liveStart ==> LiveAt(c, live, next))
            && Messages(live.w.history) ==
               Messages(w.history) + (RangeMessages(final) + RangeMessages(other) + [SwitchingToLive] + RangeMessages(ranges))
  {
    assert c.blocks != [];
    hide Moved, GoLive, CatchUp, LiveRanges, LiveNext, Smooth, Messages, Orderly, LiveAt, FinalPart, OtherPart, IsSuffix, Frozen;
    var height := |c.blocks| - 1;
    var tip := SaturatingSub(height, confirmations);
    var finalized := if Now(w).chain.finalized.Some? then Now(w).chain.finalized.value else 0;
    var final, other := FinalPart(start, tip, finalized, size), OtherPart(start, tip, finalized, size);
    CatchUpMoves(c, future, start, confirmations, size, w);
    var r := CatchUp(start, tip, confirmations, size, w);
    StillSmooth(c, height, w, r.w, 4 + |final| + |other|, RangeMessages(final) + RangeMessages(other));
    MovedSent(c, height, w, r.w, 4 + |final| + |other|, RangeMessages(final) + RangeMessages(other));
    var cfg := Config(r.liveStart, confirmations, size, capacity);
    GoLiveMoves(c, height, cfg, items, r.w);
    Joined(Messages(w.history), RangeMessages(final) + RangeMessages(other), [SwitchingToLive],
           RangeMessages(LiveRanges(confirmations, size, r.liveStart, items)));
  }

  lemma Joined(a: seq<Message>, b: seq<Message>, c: seq<Message>, d: seq<Message>)
    ensures (a + b) + (c + d) == a + (b + c + d)
  {
  }

  /** A run from its first moment on, which reads the head. */
  lemma HeadMoves(c: Chain, w: World)
    requires Frozen(c, w.future) && w.future != []
    ensures c.blocks != []
    ensures ReadHead(w) == (Ok(|c.blocks| - 1), Later(w))
    ensures IsSuffix(Later(w).future, w.future) && Smooth(c, Later(w).future, |c.blocks| - 1)
    ensures |w.future| == |Later(w).future| + 1
  {
    SuffixReflexive(w.future);
    FrozenHead(c, w.future, w);
    FrozenIsSmooth(c, w.future);
    hide Smooth, IsSuffix, ReadHead, Frozen;
    SmoothNow(c, w, |c.blocks| - 1);
  }

  lemma BelowTipMoves(c: Chain, start: nat, confirmations: nat, size: nat, capacity: Capacity, items: seq<Item>, w: World)
    requires size >= 1 && Frozen(c, w.future) && w.future != []
    ensures start <= SaturatingSub(|c.blocks| - 1, confirmations) ==>
              RunSync(start, confirmations, size, capacity, items, w)
              == CatchUpThenLive(start, SaturatingSub(|c.blocks| - 1, confirmations), confirmations, size, capacity, items, Later(w))
  {
    HeadMoves(c, w);
    hide Smooth, IsSuffix, ReadHead, Frozen, CatchUpThenLive, StreamLive;
  }

  lemma AboveTipMoves(c: Chain, start: nat, confirmations: nat, size: nat, capacity: Capacity, items: seq<Item>, w: World)
    requires size >= 1 && Frozen(c, w.future) && Orderly(confirmations, items, |c.blocks| - 1)
    requires start > SaturatingSub(|c.blocks| - 1, confirmations)
    requires |w.future| >= 3 + |items| + 3 * |LiveRanges(confirmations, size, start, items)|
    ensures var ranges, next := LiveRanges(confirmations, size, start, items), LiveNext(confirmations, start, items);
            var live := RunSync(start, confirmations, size, capacity, items, w);
            && (next > start ==> LiveAt(c, live, next))
            && Messages(live.w.history) ==
               Messages(w.history) + (if next > start then [SwitchingToLive] + RangeMessages(ranges) else [])
  {
    HeadMoves(c, w);
    hide StreamLive, CatchUpThenLive, LiveRanges, LiveNext, Smooth, Messages, Orderly, LiveAt, IsSuffix, Frozen, ReadHead;
    var w1, height := Later(w), |c.blocks| - 1;
    SmoothNow(c, w1, height);
    var cfg := Config(start, confirmations, size, capacity);
    LiveMoves(c, height, cfg, items, true, Later(w1));
    LiveRangesCover(confirmations, size, start, items);
    if LiveNext(confirmations, start, items) == start {
      NothingAsked(confirmations, size, start, items);
      NothingMore([]);
    }
  }

  /** While everything answers and the chain stands still, a sync run that starts at or below the
      confirmed tip catches up to it, announces the switch whether headers come or not, and goes on
      with what the headers confirm. A run that starts above it announces itself only with the first
      header that confirms its start. */
  lemma SyncStreamsAll(c: Chain, start: nat, confirmations: nat, size: nat, capacity: Capacity, items: seq<Item>, w: World)
    requires size >= 1 && Frozen(c, w.future) && Orderly(confirmations, items, |c.blocks| - 1)
    requires var tip := SaturatingSub(|c.blocks| - 1, confirmations);
             && |w.future| >= 2
             && var f := w.future[1].chain.finalized;
             var finalized := if f.Some? then f.value else 0;
             var final, other := FinalPart(start, tip, finalized, size), OtherPart(start, tip, finalized, size);
             var liveStart := if start < tip then tip + 1 else start;
             |w.future| >= 9 + |final| + |other| + |items| + 3 * |LiveRanges(confirmations, size, liveStart, items)|
    ensures var tip := SaturatingSub(|c.blocks| - 1, confirmations);
            var f := w.future[1].chain.finalized;
            var finalized := if f.Some? then f.value else 0;
            var final, other := FinalPart(start, tip, finalized, size), OtherPart(start, tip, finalized, size);
            var liveStart := if start < tip then tip + 1 else start;
            var ranges, next := LiveRanges(confirmations, size, liveStart, items), LiveNext(confirmations, liveStart, items);
            var live := RunSync(start, confirmations, size, capacity, items, w);
            && (next > liveStart ==> LiveAt(c, live, next))
            && Messages(live.w.history) ==
               Messages(w.history) +
               (if start <= tip then RangeMessages(final) + RangeMessages(other) + [SwitchingToLive] + RangeMessages(ranges)
                else if next > liveStart then [SwitchingToLive] + RangeMessages(ranges)
                else [])
  {
    var tip := SaturatingSub(|c.blocks| - 1, confirmations);
    hide StreamLive, CatchUpThenLive, LiveRanges, LiveNext, Smooth, Messages, Orderly, LiveAt, FinalPart, OtherPart, IsSuffix, Frozen, RunSync,
         ReadHead, RangeMessages;
    HeadMoves(c, w);
    if start <= tip {
      BelowTipMoves(c, start, confirmations, size, capacity, items, w);
      assert Now(Later(w)) == w.future[1];
      SyncedMoves(c, start, confirmations, size, capacity, items, w.future, Later(w));
    } else {
      AboveTipMoves(c, start, confirmations, size, capacity, items, w);
    }
  }

  // -------------------------------------------------------------------------
  // Rewinds
  // -------------------------------------------------------------------------

  lemma RewindRangeMoves(c: Chain, tip: nat, p: Rewind.Params, range: Range, k: nat, buffer: seq<Block>, w: World)
    requires p.size >= 1 && k <= tip && Smooth(c, w.future, tip) && |w.future| >= 2
    ensures tip < |c.blocks|
    ensures var r := Rewind.RewindRange(p, range, BlockAt(c, k), buffer, w);
            r.Going? && r.tip == BlockAt(c, k) && Moved(c, tip, w, r.w, 2, [Data(range)])
  {
    assert tip < |c.blocks|;
    hide Moved, Smooth, Send, CheckNow, HashAt;
    SendMoves(c, tip, w, Data(range));
    var w1 := Send(w, Data(range)).1;
    StillSmooth(c, tip, w, w1, 1, [Data(range)]);
    if p.checkReorg {
      CheckMoves(c, tip, w1, buffer, p.capacity, k);
      var w2 := CheckNow(w1, buffer, p.capacity, BlockAt(c, k)).2;
      MovedTwice(c, tip, w, w1, w2, 1, 1, [Data(range)], []);
      NothingMore([Data(range)]);
    } else {
      MovedLess(c, tip, w, w1, 1, 2, [Data(range)]);
    }
  }

  lemma {:induction false} RewindRangesMove(c: Chain, tip: nat, p: Rewind.Params, ranges: seq<Range>, k: nat, buffer: seq<Block>, w: World)
    requires p.size >= 1 && k <= tip && Smooth(c, w.future, tip) && |w.future| >= 2 * |ranges|
    ensures tip < |c.blocks|
    ensures var r := Rewind.RewindRanges(p, ranges, BlockAt(c, k), buffer, w);
            r.Going? && r.tip == BlockAt(c, k) && Moved(c, tip, w, r.w, 2 * |ranges|, RangeMessages(ranges))
    decreases |ranges|
  {
    assert tip < |c.blocks|;
    hide Moved, Rewind.RewindRange, HashAt;
    MovedNot(c, tip, w);
    if ranges != [] {
      RewindRangeMoves(c, tip, p, ranges[0], k, buffer, w);
      var r := Rewind.RewindRange(p, ranges[0], BlockAt(c, k), buffer, w);
      StillSmooth(c, tip, w, r.w, 2, [Data(ranges[0])]);
      hide Smooth;
      RewindRangesMove(c, tip, p, ranges[1..], k, r.buffer, r.w);
      var r' := Rewind.RewindRanges(p, ranges[1..], BlockAt(c, k), r.buffer, r.w);
      MovedTwice(c, tip, w, r.w, r'.w, 2, 2 * |ranges[1..]|, [Data(ranges[0])], RangeMessages(ranges[1..]));
    }
  }

  /** While everything answers and the interval does not change, a rewind gets through and streams its
      batches from the newest to the oldest, and nothing else. */
  lemma RewindStreamsAll(c: Chain, from: nat, to: nat, size: nat, capacity: Capacity, w: World)
    requires size >= 1 && Smooth(c, w.future, from) && |w.future| >= 1 + 2 * |DescTiling(from, to, size)|
    ensures from < |c.blocks|
    ensures var ranges := DescTiling(from, to, size);
            var r := Rewind.StreamRewind(BlockAt(c, from), to, size, capacity, w);
            r.Going? && Moved(c, from, w, r.w, 1 + 2 * |ranges|, RangeMessages(ranges))
  {
    hide *;
    TipExists(c, w.future, from);
    StartOf(c, from, to, size, capacity, w);
    FinalizedForMoves(c, from, w);
    var f := Rewind.FinalizedFor(BlockAt(c, from), w);
    StillSmooth(c, from, w, f.w, 1, []);
    RewindFrom(c, from, Rewind.Params(size, from > f.height, capacity), DescTiling(from, to, size), w, f.w);
  }

  lemma RewindFrom(c: Chain, from: nat, p: Rewind.Params, ranges: seq<Range>, w: World, w1: World)
    requires p.size >= 1 && Moved(c, from, w, w1, 1, []) && |w1.future| >= 2 * |ranges|
    ensures from < |c.blocks|
    ensures var r := Rewind.RewindRanges(p, ranges, BlockAt(c, from), [], w1);
            r.Going? && Moved(c, from, w, r.w, 1 + 2 * |ranges|, RangeMessages(ranges))
  {
    hide *;
    StillSmooth(c, from, w, w1, 1, []);
    RewindRangesMove(c, from, p, ranges, from, [], w1);
    var r := Rewind.RewindRanges(p, ranges, BlockAt(c, from), [], w1);
    MovedTwice(c, from, w, w1, r.w, 1, 2 * |ranges|, [], RangeMessages(ranges));
    NothingBefore(RangeMessages(ranges));
  }

  lemma TipExists(c: Chain, future: seq<Moment>, tip: nat)
    requires Smooth(c, future, tip)
    ensures tip < |c.blocks|
  {
  }

  lemma StartOf(c: Chain, from: nat, to: nat, size: nat, capacity: Capacity, w: World)
    requires size >= 1 && from < |c.blocks|
    ensures var f := Rewind.FinalizedFor(BlockAt(c, from), w);
            Rewind.StreamRewind(BlockAt(c, from), to, size, capacity, w)
            == Rewind.RewindRanges(Rewind.Params(size, from > f.height, capacity), DescTiling(from, to, size), BlockAt(c, from), [], f.w)
  {
    hide DescTiling, Rewind.RewindRanges, Rewind.FinalizedFor, HashAt;
  }

  lemma FinalizedForMoves(c: Chain, tip: nat, w: World)
    requires Smooth(c, w.future, tip) && w.future != []
    ensures tip < |c.blocks|
    ensures Moved(c, tip, w, Rewind.FinalizedFor(BlockAt(c, tip), w).w, 1, [])
  {
    assert tip < |c.blocks|;
    hide Moved, Smooth, HashAt;
    LaterMoves(c, tip, w);
    if KnowsFinalized(Now(w)) {
      NotedMoves(c, tip, w, Anchored(Now(w).chain, Now(w).chain.finalized.value + 1));
    }
  }
}
