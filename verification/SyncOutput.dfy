/** What a sync run sends, in every environment. */
module SyncOutput {
  import opened Wrappers
  import opened U64
  import opened Chains
  import opened RangeIterator
  import opened RingBuffers
  import opened ReorgHandler
  import opened Outside
  import opened RangeStream
  import opened LiveStream
  import opened Confirmations
  import opened Historical
  import opened Sync
  import opened Stops

  // -------------------------------------------------------------------------
  // Histories that grow by ranges of an interval
  // -------------------------------------------------------------------------

  /** The event sends no notice of the switch, and no range that is not in `lo..=hi`. */
  predicate Plain(e: Event, lo: nat, hi: nat) {
    e.Sent? ==>
      match e.message
      case Data(r) => lo <= r.lo <= r.hi <= hi
      case SwitchingToLive => false
      case _ => true
  }

  ghost predicate Grows(h: seq<Event>, h': seq<Event>, lo: nat, hi: nat) {
    h <= h' && forall i | |h| <= i < |h'| :: Plain(h'[i], lo, hi)
  }

  lemma GrowsNot(h: seq<Event>, lo: nat, hi: nat)
    ensures Grows(h, h, lo, hi)
  {
  }

  lemma GrowsTwice(h: seq<Event>, h1: seq<Event>, h2: seq<Event>, lo: nat, hi: nat)
    requires Grows(h, h1, lo, hi) && Grows(h1, h2, lo, hi)
    ensures Grows(h, h2, lo, hi)
  {
    forall i | |h| <= i < |h2|
      ensures Plain(h2[i], lo, hi)
    {
      assert i < |h1| ==> h2[i] == h1[i];
    }
  }

  lemma GrowsWider(h: seq<Event>, h': seq<Event>, lo: nat, hi: nat, lo': nat, hi': nat)
    requires Grows(h, h', lo, hi) && lo' <= lo && hi <= hi'
    ensures Grows(h, h', lo', hi')
  {
  }

  lemma SendGrows(w: World, message: Message, lo: nat, hi: nat)
    requires Plain(Sent(message, Now(w).chain), lo, hi)
    ensures Grows(w.history, Send(w, message).1.history, lo, hi)
  {
  }

  lemma ReportGrows(h: seq<Event>, w: World, e: ScannerError, lo: nat, hi: nat)
    requires Grows(h, w.history, lo, hi)
    ensures Grows(h, Report(w, e).history, lo, hi)
  {
    SendGrows(w, Error(e), lo, hi);
    hide Grows, Send;
    GrowsTwice(h, w.history, Report(w, e).history, lo, hi);
  }

  lemma FetchGrows(w: World, k: nat, lo: nat, hi: nat)
    ensures Grows(w.history, Fetch(w, k).1.history, lo, hi)
  {
  }

  lemma CheckGrows(w: World, buffer: seq<Block>, capacity: Capacity, block: Block, lo: nat, hi: nat)
    ensures Grows(w.history, CheckNow(w, buffer, capacity, block).2.history, lo, hi)
  {
    hide CheckOn;
  }

  lemma {:induction false} SendAllGrows(w: World, from: nat, to: nat, size: nat, lo: nat, hi: nat)
    requires size >= 1 && lo <= from && to <= hi
    ensures Grows(w.history, SendAll(w, Tiling(from, to, size)).1.history, lo, hi)
    decreases 1 + to - from
  {
    hide Grows, Send;
    GrowsNot(w.history, lo, hi);
    if from <= to {
      var r := Range(from, BatchEnd(from, to, size));
      assert Tiling(from, to, size)[1..] == Tiling(r.hi + 1, to, size);
      hide Tiling;
      SendGrows(w, Data(r), lo, hi);
      var (open, w1) := Send(w, Data(r));
      if open {
        SendAllGrows(w1, r.hi + 1, to, size, lo, hi);
        GrowsTwice(w.history, w1.history, SendAll(w1, Tiling(r.hi + 1, to, size)).1.history, lo, hi);
      }
    }
  }

  // -------------------------------------------------------------------------
  // Live streams
  // -------------------------------------------------------------------------

  lemma BatchGrows(p: Params, cursor: nat, buffer: seq<Block>, w: World)
    requires p.size >= 1 && p.minCommonAncestor <= cursor <= p.end
    ensures var step := BatchStep(p, cursor, buffer, w);
            && Grows(w.history, step.w.history, p.minCommonAncestor, p.end)
            && (step.Next? ==> p.minCommonAncestor <= step.cursor)
  {
    hide Grows, Fetch, Send, CheckNow, Report;
    var lo, hi := p.minCommonAncestor, p.end;
    var batch := Range(cursor, BatchEnd(cursor, p.end, p.size));
    FetchGrows(w, batch.hi, lo, hi);
    FetchedNumber(w, batch.hi);
    var (fetched, w1) := Fetch(w, batch.hi);
    if fetched.Err? {
      ReportGrows(w.history, w1, fetched.error, lo, hi);
    } else {
      SendGrows(w1, Data(batch), lo, hi);
      var (open, w2) := Send(w1, Data(batch));
      GrowsTwice(w.history, w1.history, w2.history, lo, hi);
      if open {
        CheckGrows(w2, buffer, p.capacity, fetched.value, lo, hi);
        var (answer, _, w3) := CheckNow(w2, buffer, p.capacity, fetched.value);
        GrowsTwice(w.history, w2.history, w3.history, lo, hi);
        AnswerGrows(w.history, w3, answer, lo, hi);
      }
    }
  }

  /** After a check, its error or its ancestor is sent. */
  lemma AnswerGrows(h: seq<Event>, w: World, answer: Result<Option<Block>, ScannerError>, lo: nat, hi: nat)
    requires Grows(h, w.history, lo, hi)
    ensures match answer
            case Err(e) => Grows(h, Report(w, e).history, lo, hi)
            case Ok(None) => true
            case Ok(Some(a)) => Grows(h, Send(w, ReorgDetected(a.number)).1.history, lo, hi)
  {
    hide Grows, Send, Report;
    match answer {
      case Err(e) => ReportGrows(h, w, e, lo, hi);
      case Ok(None) =>
      case Ok(Some(a)) =>
        SendGrows(w, ReorgDetected(a.number), lo, hi);
        GrowsTwice(h, w.history, Send(w, ReorgDetected(a.number)).1.history, lo, hi);
    }
  }

  lemma {:induction false} StreamGrows(p: Params, cursor: nat, last: Option<Block>, buffer: seq<Block>, w: World)
    requires p.size >= 1 && p.minCommonAncestor <= cursor
    ensures Grows(w.history, StreamRange(p, cursor, last, buffer, w).w.history, p.minCommonAncestor, p.end)
    decreases |w.future|
  {
    hide Grows, BatchStep;
    GrowsNot(w.history, p.minCommonAncestor, p.end);
    if cursor <= p.end {
      BatchGrows(p, cursor, buffer, w);
      BatchConsumes(p, cursor, buffer, w);
      var step := BatchStep(p, cursor, buffer, w);
      if step.Next? {
        StreamGrows(p, step.cursor, Some(step.batchEnd), step.buffer, step.w);
        GrowsTwice(w.history, step.w.history, StreamRange(p, step.cursor, Some(step.batchEnd), step.buffer, step.w).w.history,
                   p.minCommonAncestor, p.end);
      }
    }
  }

  lemma CheckPreviousGrows(cfg: Config, previous: Block, buffer: seq<Block>, w: World, lo: nat, hi: nat)
    ensures Grows(w.history, CheckPrevious(cfg, previous, buffer, w).w.history, lo, hi)
  {
    hide Grows, CheckNow, Send, Report;
    CheckGrows(w, buffer, cfg.capacity, previous, lo, hi);
    var (answer, _, w1) := CheckNow(w, buffer, cfg.capacity, previous);
    AnswerGrows(w.history, w1, answer, lo, hi);
  }

  lemma RewoundAbove(cfg: Config, previous: Block, buffer: seq<Block>, w: World)
    requires MinCommonAncestor(cfg) <= previous.number + 1
    ensures var mid := CheckPrevious(cfg, previous, buffer, w); mid.Open? ==> AboveBound(cfg, mid.state)
  {
    hide CheckNow, Send, Report;
  }

  lemma ItemGrows(cfg: Config, item: Item, live: Live, n: nat)
    requires cfg.size >= 1 && live.Open? && AboveBound(cfg, live.state)
    requires item.Header? ==> SaturatingSub(item.number, cfg.confirmations) <= n
    ensures var live' := OnItem(cfg, item, live.state, live.buffer, live.w);
            && Grows(live.w.history, live'.w.history, SaturatingSub(cfg.streamStart, 1), n)
            && (live'.Open? ==> AboveBound(cfg, live'.state))
  {
    hide Grows, CheckPrevious, StreamRange, Report;
    var w, lo := live.w, MinCommonAncestor(cfg);
    GrowsNot(w.history, lo, n);
    match item {
      case Lagged =>
      case Failed(e) => ReportGrows(w.history, w, e, lo, n);
      case Header(number) =>
        if live.state.previousBatchEnd.Some? {
          var previous := live.state.previousBatchEnd.value;
          CheckPreviousGrows(cfg, previous, live.buffer, w, lo, n);
          RewoundAbove(cfg, previous, live.buffer, w);
          var mid := CheckPrevious(cfg, previous, live.buffer, w);
          var confirmed := Confirmed(cfg, number);
          if mid.Open? && mid.state.batchStart <= confirmed {
            var p := Params(lo, confirmed, cfg.size, cfg.capacity);
            StreamGrows(p, mid.state.batchStart, None, mid.buffer, mid.w);
            StreamRangeAbove(p, mid.state.batchStart, None, mid.buffer, mid.w);
            var outcome := StreamRange(p, mid.state.batchStart, None, mid.buffer, mid.w);
            GrowsWider(mid.w.history, outcome.w.history, lo, confirmed, lo, n);
            GrowsTwice(w.history, mid.w.history, outcome.w.history, lo, n);
          }
        }
    }
  }

  lemma {:induction false} ContinueGrows(cfg: Config, items: seq<Item>, live: Live, n: nat)
    requires cfg.size >= 1 && (live.Open? ==> AboveBound(cfg, live.state)) && HeadsConfirmAtMost(cfg, items, n)
    ensures Grows(live.w.history, Continue(cfg, items, live).w.history, SaturatingSub(cfg.streamStart, 1), n)
    decreases |items|
  {
    hide Grows, OnItem, AboveBound;
    GrowsNot(live.w.history, SaturatingSub(cfg.streamStart, 1), n);
    if items != [] && live.Open? {
      ItemGrows(cfg, items[0], live, n);
      var next := OnItem(cfg, items[0], live.state, live.buffer, live.w);
      ContinueGrows(cfg, items[1..], next, n);
      GrowsTwice(live.w.history, next.w.history, Continue(cfg, items[1..], next).w.history, SaturatingSub(cfg.streamStart, 1), n);
    }
  }

  lemma StartedGrows(cfg: Config, items: seq<Item>, w: World, n: nat)
    requires cfg.size >= 1 && items != [] && items[0].Header? && HeadsConfirmAtMost(cfg, items, n)
    ensures var live := Continue(cfg, items[1..], Initialize(cfg, Confirmed(cfg, items[0].number), [], w));
            Grows(w.history, live.w.history, SaturatingSub(cfg.streamStart, 1), n)
  {
    hide Grows, Continue, StreamRange;
    var lo, confirmed := MinCommonAncestor(cfg), Confirmed(cfg, items[0].number);
    var p := Params(lo, confirmed, cfg.size, cfg.capacity);
    StreamGrows(p, cfg.streamStart, None, [], w);
    StreamRangeAbove(p, cfg.streamStart, None, [], w);
    var first := Initialize(cfg, confirmed, [], w);
    GrowsWider(w.history, first.w.history, lo, confirmed, lo, n);
    ContinueGrows(cfg, items[1..], first, n);
    GrowsTwice(w.history, first.w.history, Continue(cfg, items[1..], first).w.history, lo, n);
  }

  predicate SwitchAt(h: seq<Event>, k: nat) {
    k < |h| && h[k].Sent? && h[k].message.SwitchingToLive?
  }

  /** The history of a live stream: an error of the subscription or of the receiver before its first
      header; or the notice, if it is asked for, and ranges. */
  ghost predicate LiveGrows(h: seq<Event>, h': seq<Event>, notify: bool, lo: nat, hi: nat) {
    || h' == h
    || (|h'| == |h| + 1 && h <= h' && h'[|h|].Sent? && h'[|h|].message.Error?)
    || (!notify && Grows(h, h', lo, hi))
    || (notify && |h'| > |h| && h <= h' && h'[|h|].Sent? && h'[|h|].message.SwitchingToLive?
        && Grows(h'[..|h| + 1], h', lo, hi))
  }

  lemma StreamLiveGrows(cfg: Config, items: seq<Item>, notify: bool, w: World, n: nat)
    requires cfg.size >= 1 && HeadsConfirmAtMost(cfg, items, n)
    ensures var live := StreamLive(cfg, items, notify, [], w);
            && LiveGrows(w.history, live.w.history, notify, SaturatingSub(cfg.streamStart, 1), n)
            && (live.Open? && notify ==> SwitchAt(live.w.history, |w.history|))
  {
    var relevant := SkipWhile(cfg, items);
    var k := SkipWhileSuffix(cfg, items);
    if relevant != [] && !relevant[0].Failed? {
      assert forall i | 0 <= i < |relevant| :: relevant[i] == items[k + i];
      var (open, w1) := if notify then Send(w, SwitchingToLive) else (true, w);
      if open {
        StartedGrows(cfg, relevant, w1, n);
        NoticeFirst(w, w1, notify, Continue(cfg, relevant[1..], Initialize(cfg, Confirmed(cfg, relevant[0].number), [], w1)).w.history,
                    SaturatingSub(cfg.streamStart, 1), n);
        hide LiveGrows, Continue, Initialize;
      }
    }
  }

  lemma NoticeFirst(w: World, w1: World, notify: bool, h': seq<Event>, lo: nat, hi: nat)
    requires notify ==> Now(w).receiverUp && w1 == Send(w, SwitchingToLive).1
    requires !notify ==> w1 == w
    requires Grows(w1.history, h', lo, hi)
    ensures LiveGrows(w.history, h', notify, lo, hi) && (notify ==> SwitchAt(h', |w.history|))
  {
    if notify {
      assert h'[..|w.history| + 1] == w1.history;
      assert h'[|w.history|] == w1.history[|w.history|];
    }
  }

  // -------------------------------------------------------------------------
  // Catch-up
  // -------------------------------------------------------------------------

  lemma CompareGrows(endBlock: Block, kept: nat, w: World, lo: nat, hi: nat)
    ensures Grows(w.history, CompareEnd(endBlock, kept, w).w.history, lo, hi)
  {
    GrowsNot(w.history, lo, hi);
    if !Now(w).rpcUp || endBlock.number >= |Now(w).chain.blocks| {
      ReportGrows(w.history, Later(w), if Now(w).rpcUp then BlockNotFound else RpcError, lo, hi);
      hide Grows, Report;
    }
  }

  lemma OnePassGrows(restStart: nat, end: nat, size: nat, ancestor: nat, endBlock: Block, w: World, lo: nat)
    requires size >= 1 && lo <= restStart
    ensures var step := OnePass(restStart, end, size, ancestor, endBlock, w);
            Grows(w.history, if step.Finished? then step.ended.w.history else step.w.history, lo, end)
  {
    hide Grows, SendAll, Tiling, CompareEnd, Send;
    SendAllGrows(w, restStart, end, size, lo, end);
    var (open, w1) := SendAll(w, Tiling(restStart, end, size));
    if open {
      CompareGrows(endBlock, restStart, w1, lo, end);
      var v := CompareEnd(endBlock, restStart, w1);
      GrowsTwice(w.history, w1.history, v.w.history, lo, end);
      if v.Reorged? {
        SendGrows(v.w, ReorgDetected(ancestor), lo, end);
        GrowsTwice(w.history, v.w.history, Send(v.w, ReorgDetected(ancestor)).1.history, lo, end);
      }
    }
  }

  lemma {:induction false} PassesGrow(restStart: nat, end: nat, size: nat, ancestor: nat, endBlock: Block, w: World, lo: nat)
    requires size >= 1 && lo <= restStart
    ensures Grows(w.history, Passes(restStart, end, size, ancestor, endBlock, w).w.history, lo, end)
    decreases |w.future|
  {
    SendAllConsumes(w, Tiling(restStart, end, size));
    OnePassGrows(restStart, end, size, ancestor, endBlock, w, lo);
    var step := OnePass(restStart, end, size, ancestor, endBlock, w);
    if step.Again? {
      PassConsumes(restStart, end, size, ancestor, endBlock, w);
      hide OnePass, Grows;
      PassesGrow(restStart, end, size, ancestor, step.endBlock, step.w, lo);
      GrowsTwice(w.history, step.w.history, Passes(restStart, end, size, ancestor, step.endBlock, step.w).w.history, lo, end);
    }
  }

  lemma HistoricalGrows(start: nat, end: nat, size: nat, w: World)
    requires size >= 1
    ensures Grows(w.history, StreamHistorical(start, end, size, w).w.history, start, end)
  {
    var f := ReadFinalized(w);
    assert Grows(w.history, f.w.history, start, end);
    hide Grows, ReadFinalized, SendAll, Tiling, Fetch, Report, Passes;
    SendAllGrows(f.w, start, Min(f.height, end), size, start, end);
    var (open, w1) := SendAll(f.w, Tiling(start, Min(f.height, end), size));
    GrowsTwice(w.history, f.w.history, w1.history, start, end);
    var restStart := RestStart(start, end, f.height);
    if open && restStart <= end {
      FetchGrows(w1, end, start, end);
      var (endBlock, w2) := Fetch(w1, end);
      GrowsTwice(w.history, w1.history, w2.history, start, end);
      if endBlock.Ok? {
        var ancestor := ReorgAncestor(restStart, f.height);
        PassesGrow(restStart, end, size, ancestor, endBlock.value, w2, start);
        GrowsTwice(w.history, w2.history, Passes(restStart, end, size, ancestor, endBlock.value, w2).w.history, start, end);
      } else {
        ReportGrows(w.history, w2, endBlock.error, start, end);
      }
    }
  }

  /** No head read along the timeline confirms anything above height `n`. */
  ghost predicate HeadsReadAtMost(future: seq<Moment>, confirmations: nat, n: nat) {
    forall i | 0 <= i < |future| :: SaturatingSub(|future[i].chain.blocks|, confirmations + 1) <= n
  }

  lemma HeadReadAtMost(future: seq<Moment>, w: World, confirmations: nat, n: nat)
    requires IsSuffix(w.future, future) && HeadsReadAtMost(future, confirmations, n)
    ensures var (r, w') := ReadHead(w);
            && IsSuffix(w'.future, future) && w'.history == w.history
            && (r.Ok? ==> SaturatingSub(r.value, confirmations) <= n)
  {
    LaterSuffix(w);
    SuffixTransitive(Later(w).future, w.future, future);
    if w.future != [] {
      assert future[|future| - |w.future|..][0] == Now(w);
    }
  }

  /** A catch-up streams nothing that is not confirmed, and nothing from where the live phase starts. */
  lemma {:induction false} CatchUpGrows(
    future: seq<Moment>, start: nat, tip: nat, confirmations: nat, size: nat, w: World, n: nat)
    requires size >= 1 && IsSuffix(w.future, future) && HeadsReadAtMost(future, confirmations, n) && tip <= n
    ensures var c := CatchUp(start, tip, confirmations, size, w);
            && Grows(w.history, c.w.history, start, n)
            && (c.CaughtUp? ==> start <= c.liveStart && Grows(w.history, c.w.history, start, SaturatingSub(c.liveStart, 1)))
    decreases |w.future|
  {
    hide Grows, IsSuffix, StreamHistorical, HeadsReadAtMost, EndedExplained;
    GrowsNot(w.history, start, n);
    GrowsNot(w.history, start, SaturatingSub(start, 1));
    if start < tip {
      HistoricalConsumes(start, tip, size, w);
      HistoricalGrows(start, tip, size, w);
      HistoricalStops(future, start, tip, size, w, []);
      var r := StreamHistorical(start, tip, size, w);
      GrowsWider(w.history, r.w.history, start, tip, start, n);
      if r.open {
        HeadIsLater(r.w);
        HeadReadAtMost(future, r.w, confirmations, n);
        var (head, w1) := ReadHead(r.w);
        hide ReadHead;
        if head.Ok? {
          var tip' := SaturatingSub(head.value, confirmations);
          CatchUpGrows(future, tip + 1, tip', confirmations, size, w1, n);
          RoundsGrow(w.history, w1.history, CatchUp(tip + 1, tip', confirmations, size, w1), start, tip, n);
        }
      }
    }
  }

  /** A round and the rounds after it. */
  lemma RoundsGrow(h: seq<Event>, h1: seq<Event>, c: Catchup, start: nat, tip: nat, n: nat)
    requires start <= tip <= n && Grows(h, h1, start, tip) && Grows(h1, c.w.history, tip + 1, n)
    requires c.CaughtUp? ==> tip + 1 <= c.liveStart && Grows(h1, c.w.history, tip + 1, SaturatingSub(c.liveStart, 1))
    ensures Grows(h, c.w.history, start, n)
    ensures c.CaughtUp? ==> Grows(h, c.w.history, start, SaturatingSub(c.liveStart, 1))
  {
    hide Grows;
    GrowsWider(h, h1, start, tip, start, n);
    GrowsWider(h1, c.w.history, tip + 1, n, start, n);
    GrowsTwice(h, h1, c.w.history, start, n);
    if c.CaughtUp? {
      var hi := SaturatingSub(c.liveStart, 1);
      GrowsWider(h, h1, start, tip, start, hi);
      GrowsWider(h1, c.w.history, tip + 1, hi, start, hi);
      GrowsTwice(h, h1, c.w.history, start, hi);
    }
  }

  // -------------------------------------------------------------------------
  // Whole sync runs
  // -------------------------------------------------------------------------

  /** A history whose ranges before position `k` lie in `start..liveStart-1`; at `k` the switch is
      announced, once; and the ranges after it lie in `liveStart-1..=n`. */
  ghost predicate SwitchesAt(h: seq<Event>, k: nat, start: nat, liveStart: nat, n: nat) {
    && k <= |h|
    && (forall i | 0 <= i < k && h[i].Sent? ::
          && !h[i].message.SwitchingToLive?
          && (h[i].message.Data? ==>
                start <= h[i].message.range.lo <= h[i].message.range.hi <= n && h[i].message.range.hi < liveStart))
    && (k < |h| ==> h[k].Sent? && h[k].message.SwitchingToLive?)
    && (forall i | k < i < |h| && h[i].Sent? ::
          && !h[i].message.SwitchingToLive?
          && (h[i].message.Data? ==> liveStart <= h[i].message.range.lo + 1 && h[i].message.range.hi <= n))
  }

  /** A run that only streams live. */
  lemma LiveOnlySwitches(h: seq<Event>, start: nat, n: nat) returns (k: nat)
    requires LiveGrows([], h, true, SaturatingSub(start, 1), n)
    ensures SwitchesAt(h, k, start, start, n)
    ensures SwitchAt(h, 0) ==> k == 0
    ensures k == 0 || (|h| == 1 && h[0].Sent? && h[0].message.Error?)
  {
    k := if h != [] && h[0].Sent? && h[0].message.SwitchingToLive? then 0 else |h|;
    if k == 0 && h != [] {
      assert forall i | 1 <= i < |h| :: Plain(h[i], SaturatingSub(start, 1), n);
    }
  }

  /** A catch-up that is not followed by a live phase. */
  lemma CatchUpOnly(h: seq<Event>, h': seq<Event>, start: nat, liveStart: nat, n: nat)
    requires Grows([], h, start, n) && start <= liveStart
    requires forall i | 0 <= i < |h| && h[i].Sent? && h[i].message.Data? :: h[i].message.range.hi < liveStart
    requires h <= h' && |h'| <= |h| + 1 && (h' != h ==> h'[|h|].Sent? && h'[|h|].message.Error?)
    ensures SwitchesAt(h', |h'|, start, liveStart, n)
  {
    assert forall i | 0 <= i < |h| :: Plain(h[i], start, n) && h'[i] == h[i];
  }

  lemma BelowLive(h: seq<Event>, start: nat, liveStart: nat)
    requires start <= liveStart && Grows([], h, start, SaturatingSub(liveStart, 1)) && (liveStart == start ==> h == [])
    ensures forall i | 0 <= i < |h| && h[i].Sent? && h[i].message.Data? :: h[i].message.range.hi < liveStart
  {
    forall i | 0 <= i < |h| && h[i].Sent? && h[i].message.Data?
      ensures h[i].message.range.hi < liveStart
    {
      assert Plain(h[i], start, SaturatingSub(liveStart, 1));
    }
  }

  /** A catch-up, the notice and the live phase. */
  lemma CatchUpSwitches(h: seq<Event>, h': seq<Event>, start: nat, liveStart: nat, n: nat)
    requires Grows([], h, start, n) && start <= liveStart
    requires forall i | 0 <= i < |h| && h[i].Sent? && h[i].message.Data? :: h[i].message.range.hi < liveStart
    requires |h'| > |h| && h <= h' && h'[|h|].Sent? && h'[|h|].message.SwitchingToLive?
    requires LiveGrows(h'[..|h| + 1], h', false, SaturatingSub(liveStart, 1), n)
    ensures SwitchesAt(h', |h|, start, liveStart, n)
  {
    assert forall i | 0 <= i < |h| :: Plain(h[i], start, n) && h'[i] == h[i];
    if Grows(h'[..|h| + 1], h', SaturatingSub(liveStart, 1), n) {
      assert forall i | |h| < i < |h'| :: Plain(h'[i], SaturatingSub(liveStart, 1), n);
    }
  }

  /** What is sent until a run is caught up or not. */
  lemma AfterCatchUp(start: nat, confirmations: nat, size: nat, capacity: Capacity, items: seq<Item>, c: Catchup, n: nat)
    returns (k: nat)
    requires size >= 1 && HeadsConfirmAtMost(Config(start, confirmations, size, capacity), items, n)
    requires Grows([], c.w.history, start, n)
    requires c.CaughtUp? ==> start <= c.liveStart && (c.liveStart == start ==> c.w.history == [])
                             && Grows([], c.w.history, start, SaturatingSub(c.liveStart, 1))
    ensures var live := match c
                        case ReceiverGone(w1) => Closed([], w1)
                        case Broken(e, w1) => Closed([], Report(w1, e))
                        case CaughtUp(liveStart, w1) => GoLive(Config(liveStart, confirmations, size, capacity), items, w1);
            var liveStart := if c.CaughtUp? then c.liveStart else start + n + 1;
            SwitchesAt(live.w.history, k, start, liveStart, n) && (live.Open? ==> k < |live.w.history|)
  {
    hide Grows, StreamLive, SwitchesAt;
    var h := c.w.history;
    match c {
      case ReceiverGone(w1) =>
        PlainBelow(h, start, n);
        CatchUpOnly(h, h, start, start + n + 1, n);
        k := |h|;
      case Broken(e, w1) =>
        PlainBelow(h, start, n);
        CatchUpOnly(h, Report(w1, e).history, start, start + n + 1, n);
        k := |Report(w1, e).history|;
      case CaughtUp(liveStart, w1) =>
        BelowLive(h, start, liveStart);
        var cfg := Config(liveStart, confirmations, size, capacity);
        if !Now(w1).rpcUp {
          CatchUpOnly(h, Report(Later(w1), RpcError).history, start, liveStart, n);
          k := |Report(Later(w1), RpcError).history|;
        } else {
          var (open, w2) := Send(Later(w1), SwitchingToLive);
          if open {
            k := |h|;
            StreamLiveGrows(cfg, items, false, w2, n);
            LiveExtends(w2.history, StreamLive(cfg, items, false, [], w2).w.history, SaturatingSub(liveStart, 1), n);
            CatchUpSwitches(h, StreamLive(cfg, items, false, [], w2).w.history, start, liveStart, n);
          } else {
            CatchUpOnly(h, h, start, liveStart, n);
            k := |h|;
          }
        }
    }
  }

  lemma PlainBelow(h: seq<Event>, start: nat, n: nat)
    requires Grows([], h, start, n)
    ensures forall i | 0 <= i < |h| && h[i].Sent? && h[i].message.Data? :: h[i].message.range.hi < start + n + 1
  {
    forall i | 0 <= i < |h| && h[i].Sent? && h[i].message.Data?
      ensures h[i].message.range.hi < start + n + 1
    {
      assert Plain(h[i], start, n);
    }
  }

  lemma LiveExtends(h: seq<Event>, h': seq<Event>, lo: nat, hi: nat)
    requires LiveGrows(h, h', false, lo, hi)
    ensures h <= h' && h'[..|h|] == h
  {
  }

  /** Every sync run, over any timeline: the notice of the switch to live is sent at most once, and
      once if the run is open; a run that only streams live sends nothing before it, except an error
      that ends it; what is caught up on lies below the live start, and nothing live that is sent
      after the notice lies more than one block below it. No range reaches beyond what the heads of
      the timeline and the headers confirm. */
  lemma SyncAnnouncesOnce(start: nat, confirmations: nat, size: nat, capacity: Capacity, items: seq<Item>, future: seq<Moment>, n: nat)
    returns (k: nat, liveStart: nat)
    requires size >= 1 && HeadsReadAtMost(future, confirmations, n)
    requires forall i | 0 <= i < |items| && items[i].Header? :: SaturatingSub(items[i].number, confirmations) <= n
    ensures var live := RunSync(start, confirmations, size, capacity, items, World(future, []));
            var h := live.w.history;
            && start <= liveStart && SwitchesAt(h, k, start, liveStart, n)
            && (live.Open? ==> k < |h|)
            && (future != [] && start + confirmations >= |future[0].chain.blocks| && start > 0 ==>
                  k == 0 || (|h| <= 1 && forall i | 0 <= i < |h| :: h[i].Sent? && h[i].message.Error?))
  {
    hide SwitchesAt, StreamLive, CatchUp, HeadsReadAtMost, Grows, LiveGrows, GoLive;
    var w := World(future, []);
    k, liveStart := 0, start;
    SuffixReflexive(future);
    HeadReadAtMost(future, w, confirmations, n);
    NothingSwitches(start, n);
    var (head, w1) := ReadHead(w);
    if head.Ok? {
      var tip := SaturatingSub(head.value, confirmations);
      var cfg := Config(start, confirmations, size, capacity);
      if start > tip {
        if Now(w1).rpcUp {
          StreamLiveGrows(cfg, items, true, Later(w1), n);
          var h := StreamLive(cfg, items, true, [], Later(w1)).w.history;
          k := LiveOnlySwitches(h, start, n);
        }
      } else {
        CatchUpGrows(future, start, tip, confirmations, size, w1, n);
        CatchUpPassesTip(start, tip, confirmations, size, w1);
        var c := CatchUp(start, tip, confirmations, size, w1);
        NoRounds(start, tip, confirmations, size, w1);
        k := AfterCatchUp(start, confirmations, size, capacity, items, c, n);
        liveStart := if c.CaughtUp? then c.liveStart else start + n + 1;
      }
    }
  }

  lemma NothingSwitches(start: nat, n: nat)
    ensures SwitchesAt([], 0, start, start, n)
  {
  }

  /** A catch-up that has nothing to do leaves everything as it was. */
  lemma NoRounds(start: nat, tip: nat, confirmations: nat, size: nat, w: World)
    requires size >= 1
    ensures start >= tip ==> CatchUp(start, tip, confirmations, size, w) == CaughtUp(start, w)
  {
  }

  /** Some snapshot of the timeline, or some header, is high enough to confirm this block. */
  ghost predicate ConfirmedBySome(k: nat, confirmations: nat, items: seq<Item>, future: seq<Moment>) {
    || (exists j | 0 <= j < |future| :: k + confirmations < |future[j].chain.blocks|)
    || (exists j | 0 <= j < |items| :: items[j].Header? && k + confirmations <= items[j].number)
  }

  /** Whatever the environment does, a sync run, in its catch-up rounds and in its live phase, streams
      no block but block 0 before a head of the timeline or a header is as many blocks above it as
      confirmations are asked for, and nothing more than one block below its start. */
  lemma NothingUnconfirmedIsSynced(start: nat, confirmations: nat, size: nat, capacity: Capacity, items: seq<Item>, future: seq<Moment>)
    requires size >= 1
    ensures var h := RunSync(start, confirmations, size, capacity, items, World(future, [])).w.history;
            forall i | 0 <= i < |h| && h[i].Sent? && h[i].message.Data? ::
              var r := h[i].message.range;
              start <= r.lo + 1 && (r.hi > 0 ==> ConfirmedBySome(r.hi, confirmations, items, future))
  {
    hide RunSync;
    var h := RunSync(start, confirmations, size, capacity, items, World(future, [])).w.history;
    forall i | 0 <= i < |h| && h[i].Sent? && h[i].message.Data?
      ensures start <= h[i].message.range.lo + 1
      ensures h[i].message.range.hi > 0 ==> ConfirmedBySome(h[i].message.range.hi, confirmations, items, future)
    {
      var hi := h[i].message.range.hi;
      var n := if hi > 0 && !ConfirmedBySome(hi, confirmations, items, future) then hi - 1
               else Highest(future, items);
      HighestIsBound(future, items);
      var k, liveStart := SyncAnnouncesOnce(start, confirmations, size, capacity, items, future, n);
    }
  }

  /** A height above all snapshots and headers. */
  function Highest(future: seq<Moment>, items: seq<Item>): nat
    decreases |future|, |items|
  {
    if future != [] then Max(|future[0].chain.blocks|, Highest(future[1..], items))
    else if items != [] then Max(if items[0].Header? then items[0].number else 0, Highest([], items[1..]))
    else 0
  }

  lemma {:induction false} HighestIsBound(future: seq<Moment>, items: seq<Item>)
    ensures forall i | 0 <= i < |future| :: |future[i].chain.blocks| <= Highest(future, items)
    ensures forall i | 0 <= i < |items| && items[i].Header? :: items[i].number <= Highest(future, items)
    decreases |future|, |items|
  {
    if future != [] {
      HighestIsBound(future[1..], items);
      assert forall i | 0 < i < |future| :: future[i] == future[1..][i - 1];
    } else if items != [] {
      HighestIsBound([], items[1..]);
      assert forall i | 0 < i < |items| :: items[i] == items[1..][i - 1];
    }
  }
}
