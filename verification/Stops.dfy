/** Why a run stops before it has done its work, in every environment. */
module Stops {
  import opened Wrappers
  import opened U64
  import opened Chains
  import opened RangeIterator
  import opened RingBuffers
  import opened ReorgHandler
  import opened Outside
  import opened RangeStream
  import opened LiveStream
  import opened Confirmations
  import opened Historical
  import opened Sync
  import Rewind

  // -------------------------------------------------------------------------
  // Reasons
  // -------------------------------------------------------------------------

  /** The answer of the node at this moment is this error: it is down; or it has no finalized block,
      or no block at some height up to `n`. */
  predicate Fails(m: Moment, e: ScannerError, n: nat) {
    match e
    case RpcError => !m.rpcUp || m.chain.blocks == []
    case BlockNotFound => m.rpcUp && (m.chain.finalized == None || |m.chain.blocks| <= n)
    case _ => false
  }

  /** After these moments a run may stop: at the last one the receiver was gone; or its last message
      is an error, that of the moment before or one that the subscription has yielded. */
  ghost predicate Justified(used: seq<Moment>, h: seq<Event>, n: nat, items: seq<Item>) {
    && used != []
    && (!used[|used| - 1].receiverUp
        || (h != [] && h[|h| - 1].Sent? && h[|h| - 1].message.Error?
            && var e := h[|h| - 1].message.error;
               Failed(e) in items || (|used| >= 2 && Fails(used[|used| - 2], e, n))))
  }

  /** A run over the timeline `future` has stopped in this world, and for a reason, unless the
      timeline is over. */
  ghost predicate Explained(future: seq<Moment>, w: World, n: nat, items: seq<Item>) {
    && IsSuffix(w.future, future)
    && (w.future == [] || Justified(future[..|future| - |w.future|], w.history, n, items))
  }

  lemma GoneExplains(future: seq<Moment>, w: World, message: Message, n: nat, items: seq<Item>)
    requires IsSuffix(w.future, future)
    ensures var (open, w') := Send(w, message);
            IsSuffix(w'.future, future) && (!open ==> Explained(future, w', n, items))
  {
    LaterReached(future, w);
    if w.future != [] {
      assert future[|future| - |w.future|..][0] == Now(w);
    }
  }

  lemma LaterReached(future: seq<Moment>, w: World)
    requires IsSuffix(w.future, future)
    ensures IsSuffix(Later(w).future, future)
  {
    LaterSuffix(w);
    hide IsSuffix;
    SuffixTransitive(Later(w).future, w.future, future);
  }

  /** The error of this moment, reported at the next one. */
  lemma ReportExplains(future: seq<Moment>, w: World, e: ScannerError, n: nat, items: seq<Item>)
    requires IsSuffix(w.future, future) && (w.future != [] ==> Fails(Now(w), e, n))
    ensures Explained(future, Report(Later(w), e), n, items)
  {
    var w1 := Later(w);
    LaterReached(future, w);
    LaterReached(future, w1);
    if |w.future| >= 2 {
      assert future[|future| - |w.future|..][0] == w.future[0];
      assert future[|future| - |w.future|..][1] == w.future[1];
    }
  }

  /** An error that the subscription has yielded. */
  lemma FailureExplains(future: seq<Moment>, w: World, e: ScannerError, n: nat, items: seq<Item>)
    requires IsSuffix(w.future, future) && Failed(e) in items
    ensures Explained(future, Report(w, e), n, items)
  {
    LaterReached(future, w);
    if w.future != [] {
      assert future[|future| - |w.future|..][0] == Now(w);
    }
  }

  lemma ExplainedFurther(future: seq<Moment>, w: World, n: nat, items: seq<Item>, n': nat, items': seq<Item>)
    requires Explained(future, w, n, items) && n <= n' && (forall item <- items :: item in items')
    ensures Explained(future, w, n', items')
  {
  }

  lemma FetchExplains(future: seq<Moment>, w: World, k: nat, n: nat, items: seq<Item>)
    requires IsSuffix(w.future, future) && k <= n
    ensures var (r, w') := Fetch(w, k);
            IsSuffix(w'.future, future) && (r.Err? ==> Explained(future, Report(w', r.error), n, items))
  {
    hide Explained;
    LaterReached(future, w);
    var r := Fetch(w, k).0;
    if r.Err? {
      ReportExplains(future, w, r.error, n, items);
    }
    hide IsSuffix, Report;
  }

  lemma FetchedNumber(w: World, k: nat)
    ensures var r := Fetch(w, k).0; r.Ok? ==> r.value.number == k
  {
  }

  lemma CheckExplains(future: seq<Moment>, w: World, buffer: seq<Block>, capacity: Capacity, block: Block, n: nat, items: seq<Item>)
    requires IsSuffix(w.future, future)
    ensures var (r, _, w') := CheckNow(w, buffer, capacity, block);
            IsSuffix(w'.future, future) && (r.Err? ==> Explained(future, Report(w', r.error), n, items))
  {
    hide Explained, PopStale;
    LaterReached(future, w);
    var (r, _, w') := CheckNow(w, buffer, capacity, block);
    if r.Err? {
      ReportExplains(future, w, r.error, n, items);
    }
    hide IsSuffix, Report;
  }

  lemma {:induction false} SendAllExplains(future: seq<Moment>, w: World, ranges: seq<Range>, n: nat, items: seq<Item>)
    requires IsSuffix(w.future, future)
    ensures var (open, w') := SendAll(w, ranges);
            IsSuffix(w'.future, future) && (!open ==> Explained(future, w', n, items))
    decreases |ranges|
  {
    hide Explained, IsSuffix, Send;
    if ranges != [] {
      GoneExplains(future, w, Data(ranges[0]), n, items);
      var (open, w1) := Send(w, Data(ranges[0]));
      if open {
        SendAllExplains(future, w1, ranges[1..], n, items);
      }
    }
  }

  // -------------------------------------------------------------------------
  // Streams of one range
  // -------------------------------------------------------------------------

  lemma BatchExplains(future: seq<Moment>, p: RangeStream.Params, cursor: nat, buffer: seq<Block>, w: World, items: seq<Item>)
    requires p.size >= 1 && cursor <= p.end && IsSuffix(w.future, future)
    ensures var step := BatchStep(p, cursor, buffer, w);
            IsSuffix(step.w.future, future) && (step.Halt? ==> Explained(future, step.w, p.end, items))
  {
    hide Explained, IsSuffix, Fetch, Send, CheckNow, Report;
    var batch := Range(cursor, BatchEnd(cursor, p.end, p.size));
    FetchExplains(future, w, batch.hi, p.end, items);
    var (fetched, w1) := Fetch(w, batch.hi);
    if fetched.Ok? {
      GoneExplains(future, w1, Data(batch), p.end, items);
      var (open, w2) := Send(w1, Data(batch));
      if open {
        CheckExplains(future, w2, buffer, p.capacity, fetched.value, p.end, items);
        var (answer, _, w3) := CheckNow(w2, buffer, p.capacity, fetched.value);
        if answer.Ok? && answer.value.Some? {
          GoneExplains(future, w3, ReorgDetected(answer.value.value.number), p.end, items);
        }
      }
    }
    ExplainedReaches(future, BatchStep(p, cursor, buffer, w).w, p.end, items);
  }

  lemma ExplainedReaches(future: seq<Moment>, w: World, n: nat, items: seq<Item>)
    ensures Explained(future, w, n, items) ==> IsSuffix(w.future, future)
  {
  }

  /** A call ends in the middle only for a reason; otherwise it returns a block if its interval is
      not empty. */
  lemma {:induction false} StreamRangeStops(
    future: seq<Moment>, p: RangeStream.Params, cursor: nat, last: Option<Block>, buffer: seq<Block>, w: World, items: seq<Item>)
    requires p.size >= 1 && IsSuffix(w.future, future) && (cursor > p.end ==> last.Some?)
    ensures var outcome := StreamRange(p, cursor, last, buffer, w);
            && IsSuffix(outcome.w.future, future)
            && (outcome.Stopped? ==> Explained(future, outcome.w, p.end, items))
            && (outcome.Done? ==> outcome.last.Some?)
    decreases |w.future|
  {
    hide Explained, IsSuffix, BatchStep;
    if cursor <= p.end {
      BatchExplains(future, p, cursor, buffer, w, items);
      BatchConsumes(p, cursor, buffer, w);
      var step := BatchStep(p, cursor, buffer, w);
      if step.Next? {
        StreamRangeStops(future, p, step.cursor, Some(step.batchEnd), step.buffer, step.w, items);
      }
    }
  }

  // -------------------------------------------------------------------------
  // Live streams
  // -------------------------------------------------------------------------

  /** No header of these confirms anything above height `n`. */
  ghost predicate ConfirmUpTo(cfg: Config, items: seq<Item>, n: nat) {
    forall i | 0 <= i < |items| && items[i].Header? :: items[i].number <= n + cfg.confirmations
  }

  ghost predicate LiveExplained(future: seq<Moment>, live: Live, n: nat, items: seq<Item>) {
    && IsSuffix(live.w.future, future)
    && (live.Closed? ==> Explained(future, live.w, n, items))
  }

  lemma CheckPreviousStops(future: seq<Moment>, cfg: Config, previous: Block, buffer: seq<Block>, w: World, n: nat, items: seq<Item>)
    requires IsSuffix(w.future, future)
    ensures LiveExplained(future, CheckPrevious(cfg, previous, buffer, w), n, items)
  {
    hide Explained, IsSuffix, Send, CheckNow, Report;
    CheckExplains(future, w, buffer, cfg.capacity, previous, n, items);
    var (answer, _, w1) := CheckNow(w, buffer, cfg.capacity, previous);
    if answer.Ok? && answer.value.Some? {
      GoneExplains(future, w1, ReorgDetected(answer.value.value.number), n, items);
    }
    ExplainedReaches(future, CheckPrevious(cfg, previous, buffer, w).w, n, items);
  }

  lemma NextBatchStops(future: seq<Moment>, cfg: Config, batchEnd: nat, state: State, buffer: seq<Block>, w: World, n: nat, items: seq<Item>)
    requires cfg.size >= 1 && IsSuffix(w.future, future) && batchEnd <= n
    ensures LiveExplained(future, NextBatch(cfg, batchEnd, state, buffer, w), n, items)
  {
    hide Explained, IsSuffix, StreamRange;
    if state.batchStart <= batchEnd {
      var p := RangeStream.Params(MinCommonAncestor(cfg), batchEnd, cfg.size, cfg.capacity);
      StreamRangeStops(future, p, state.batchStart, None, buffer, w, items);
      var outcome := StreamRange(p, state.batchStart, None, buffer, w);
      if outcome.Stopped? {
        ExplainedFurther(future, outcome.w, batchEnd, items, n, items);
      }
    }
  }

  /** One item closes an open stream only for a reason, whether its check finds a reorg or not: it is
      an error of the subscription; or a moment it used lost the receiver or the node, or lacked a
      block that it confirms, or the finalized block. The error is streamed if the receiver is there. */
  lemma ItemStops(future: seq<Moment>, cfg: Config, item: Item, live: Live, n: nat, items: seq<Item>)
    requires cfg.size >= 1 && live.Open? && IsSuffix(live.w.future, future)
    requires item in items && ConfirmUpTo(cfg, items, n)
    ensures LiveExplained(future, OnItem(cfg, item, live.state, live.buffer, live.w), n, items)
  {
    hide Explained, IsSuffix, CheckPrevious, NextBatch, Report;
    match item {
      case Lagged =>
      case Failed(e) =>
        FailureExplains(future, live.w, e, n, items);
        ExplainedReaches(future, Report(live.w, e), n, items);
      case Header(number) =>
        if live.state.previousBatchEnd.Some? {
          var previous := live.state.previousBatchEnd.value;
          CheckPreviousStops(future, cfg, previous, live.buffer, live.w, n, items);
          var mid := CheckPrevious(cfg, previous, live.buffer, live.w);
          if mid.Open? {
            NextBatchStops(future, cfg, Confirmed(cfg, number), mid.state, mid.buffer, mid.w, n, items);
          }
        }
    }
  }

  lemma {:induction false} ContinueStops(future: seq<Moment>, cfg: Config, rest: seq<Item>, live: Live, n: nat, items: seq<Item>)
    requires cfg.size >= 1 && LiveExplained(future, live, n, items)
    requires ConfirmUpTo(cfg, items, n) && forall i | 0 <= i < |rest| :: rest[i] in items
    ensures LiveExplained(future, Continue(cfg, rest, live), n, items)
    decreases |rest|
  {
    hide ConfirmUpTo, Explained, IsSuffix, OnItem;
    if rest != [] && live.Open? {
      ItemStops(future, cfg, rest[0], live, n, items);
      ContinueStops(future, cfg, rest[1..], OnItem(cfg, rest[0], live.state, live.buffer, live.w), n, items);
    }
  }

  /** No header among these items confirms the stream start, and the subscription has not failed. */
  ghost predicate Waiting(cfg: Config, items: seq<Item>) {
    forall i | 0 <= i < |items| ::
      items[i].Lagged? || (items[i].Header? && SaturatingSub(items[i].number, cfg.confirmations) < cfg.streamStart)
  }

  lemma {:induction false} SkippedAll(cfg: Config, items: seq<Item>)
    ensures SkipWhile(cfg, items) == [] ==> Waiting(cfg, items)
    ensures forall item | item in SkipWhile(cfg, items) :: item in items
  {
    if items != [] && Skipped(cfg, items[0]) {
      SkippedAll(cfg, items[1..]);
    }
  }

  lemma InitializeStops(future: seq<Moment>, cfg: Config, confirmed: nat, buffer: seq<Block>, w: World, n: nat, items: seq<Item>)
    requires cfg.size >= 1 && IsSuffix(w.future, future) && cfg.streamStart <= confirmed <= n
    ensures LiveExplained(future, Initialize(cfg, confirmed, buffer, w), n, items)
  {
    hide Explained, IsSuffix, StreamRange;
    var p := RangeStream.Params(MinCommonAncestor(cfg), confirmed, cfg.size, cfg.capacity);
    StreamRangeStops(future, p, cfg.streamStart, None, buffer, w, items);
    var outcome := StreamRange(p, cfg.streamStart, None, buffer, w);
    if outcome.Stopped? {
      ExplainedFurther(future, outcome.w, confirmed, items, n, items);
    }
  }

  /** A live stream is over only for a reason, unless it still waits for its first header. */
  lemma LiveStops(future: seq<Moment>, cfg: Config, items: seq<Item>, notify: bool, buffer: seq<Block>, w: World, n: nat)
    requires cfg.size >= 1 && IsSuffix(w.future, future) && ConfirmUpTo(cfg, items, n)
    ensures var live := StreamLive(cfg, items, notify, buffer, w);
            && IsSuffix(live.w.future, future)
            && (live.Closed? ==> Explained(future, live.w, n, items) || (Waiting(cfg, items) && live.w == w))
  {
    hide Explained, IsSuffix, Send, Initialize, Continue, Report, Waiting;
    SkippedAll(cfg, items);
    var relevant := SkipWhile(cfg, items);
    if relevant != [] {
      assert relevant[0] in items;
      if relevant[0].Failed? {
        FailureExplains(future, w, relevant[0].error, n, items);
        ExplainedReaches(future, Report(w, relevant[0].error), n, items);
      } else {
        if notify {
          GoneExplains(future, w, SwitchingToLive, n, items);
        }
        var (open, w1) := if notify then Send(w, SwitchingToLive) else (true, w);
        if open {
          var confirmed := Confirmed(cfg, relevant[0].number);
          InitializeStops(future, cfg, confirmed, buffer, w1, n, items);
          ContinueStops(future, cfg, relevant[1..], Initialize(cfg, confirmed, buffer, w1), n, items);
        }
      }
    }
  }

  // -------------------------------------------------------------------------
  // Historical runs
  // -------------------------------------------------------------------------

  /** Closed runs have a reason; open ones have found their end block in place, or have a reason to
      take it for that. */
  ghost predicate EndedExplained(future: seq<Moment>, r: Ended, n: nat, items: seq<Item>) {
    && IsSuffix(r.w.future, future)
    && (Explained(future, r.w, n, items) || (r.open && EndsStable(r.w.history)))
  }

  lemma CompareExplains(future: seq<Moment>, w: World, endBlock: Block, kept: nat, items: seq<Item>)
    requires IsSuffix(w.future, future)
    ensures var v := CompareEnd(endBlock, kept, w);
            && (v.Stable? ==> EndedExplained(future, Ended(true, v.w), endBlock.number, items))
            && (v.Reorged? ==> IsSuffix(v.w.future, future) && v.endBlock.number == endBlock.number)
  {
    hide Explained;
    LaterReached(future, w);
    var m := Now(w);
    if !m.rpcUp {
      ReportExplains(future, w, RpcError, endBlock.number, items);
      ExplainedReaches(future, Report(Later(w), RpcError), endBlock.number, items);
    } else if endBlock.number >= |m.chain.blocks| {
      ReportExplains(future, w, BlockNotFound, endBlock.number, items);
      ExplainedReaches(future, Report(Later(w), BlockNotFound), endBlock.number, items);
    }
    hide IsSuffix, Report;
  }

  lemma OnePassStops(future: seq<Moment>, restStart: nat, end: nat, size: nat, ancestor: nat, endBlock: Block, w: World, items: seq<Item>)
    requires size >= 1 && IsSuffix(w.future, future) && endBlock.number == end
    ensures var step := OnePass(restStart, end, size, ancestor, endBlock, w);
            && (step.Finished? ==> EndedExplained(future, step.ended, end, items))
            && (step.Again? ==> IsSuffix(step.w.future, future) && step.endBlock.number == end)
  {
    hide Explained, IsSuffix, SendAll, Tiling, CompareEnd, Send, EndsStable;
    SendAllExplains(future, w, Tiling(restStart, end, size), end, items);
    var (open, w1) := SendAll(w, Tiling(restStart, end, size));
    if open {
      CompareExplains(future, w1, endBlock, restStart, items);
      var v := CompareEnd(endBlock, restStart, w1);
      if v.Reorged? {
        GoneExplains(future, v.w, ReorgDetected(ancestor), end, items);
      }
    }
  }

  lemma {:induction false} PassesStop(
    future: seq<Moment>, restStart: nat, end: nat, size: nat, ancestor: nat, endBlock: Block, w: World, items: seq<Item>)
    requires size >= 1 && IsSuffix(w.future, future) && endBlock.number == end
    ensures EndedExplained(future, Passes(restStart, end, size, ancestor, endBlock, w), end, items)
    decreases |w.future|
  {
    OnePassStops(future, restStart, end, size, ancestor, endBlock, w, items);
    PassConsumes(restStart, end, size, ancestor, endBlock, w);
    hide OnePass, EndedExplained, IsSuffix;
    var step := OnePass(restStart, end, size, ancestor, endBlock, w);
    if step.Again? {
      PassesStop(future, restStart, end, size, ancestor, step.endBlock, step.w, items);
    }
  }

  lemma PassConsumes(restStart: nat, end: nat, size: nat, ancestor: nat, endBlock: Block, w: World)
    requires size >= 1
    ensures var step := OnePass(restStart, end, size, ancestor, endBlock, w);
            step.Again? ==> |step.w.future| < |w.future|
  {
    SendAllConsumes(w, Tiling(restStart, end, size));
    hide SendAll, Tiling;
  }

  /** A historical run is closed only for a reason. An open one with blocks above the finalized
      height has found its end block in place, or could not read it and has said so. */
  lemma HistoricalStops(future: seq<Moment>, start: nat, end: nat, size: nat, w: World, items: seq<Item>)
    requires size >= 1 && IsSuffix(w.future, future)
    ensures var finalized := if Now(w).rpcUp && Now(w).chain.finalized.Some? then Now(w).chain.finalized.value else 0;
            var r := StreamHistorical(start, end, size, w);
            && IsSuffix(r.w.future, future)
            && ((r.open && Max(start, finalized + 1) > end) || EndedExplained(future, r, end, items))
  {
    hide Explained, IsSuffix, SendAll, Tiling, Fetch, Report, Passes, EndsStable;
    FinalizedIsRead(w);
    FinalizedMessages(w);
    LaterReached(future, w);
    var f := ReadFinalized(w);
    SendAllExplains(future, f.w, Tiling(start, Min(f.height, end), size), end, items);
    var (open, w1) := SendAll(f.w, Tiling(start, Min(f.height, end), size));
    hide ReadFinalized;
    var restStart := RestStart(start, end, f.height);
    if open && restStart <= end {
      FetchExplains(future, w1, end, end, items);
      FetchedNumber(w1, end);
      var (endBlock, w2) := Fetch(w1, end);
      if endBlock.Ok? {
        PassesStop(future, restStart, end, size, ReorgAncestor(restStart, f.height), endBlock.value, w2, items);
      } else {
        ExplainedReaches(future, Report(w2, endBlock.error), end, items);
      }
    }
  }

  // -------------------------------------------------------------------------
  // Sync runs
  // -------------------------------------------------------------------------

  /** No snapshot has a block above height `n`. */
  ghost predicate HeadsUpTo(future: seq<Moment>, n: nat) {
    forall i | 0 <= i < |future| :: |future[i].chain.blocks| <= n + 1
  }

  lemma HeadIsUpTo(future: seq<Moment>, w: World, n: nat)
    requires IsSuffix(w.future, future) && HeadsUpTo(future, n)
    ensures var (r, w') := ReadHead(w);
            IsSuffix(w'.future, future) && (r.Ok? ==> r.value <= n)
  {
    LaterReached(future, w);
    if w.future != [] {
      assert future[|future| - |w.future|..][0] == Now(w);
    }
  }

  lemma HeadExplains(future: seq<Moment>, w: World, n: nat, items: seq<Item>)
    requires IsSuffix(w.future, future)
    ensures var (r, w') := ReadHead(w); r.Err? ==> Explained(future, Report(w', r.error), n, items)
  {
    hide Explained;
    if ReadHead(w).0.Err? {
      ReportExplains(future, w, RpcError, n, items);
    }
    hide IsSuffix, Report;
  }

  lemma {:induction false} CatchUpStops(
    future: seq<Moment>, start: nat, tip: nat, confirmations: nat, size: nat, w: World, n: nat, items: seq<Item>)
    requires size >= 1 && IsSuffix(w.future, future) && HeadsUpTo(future, n) && tip <= n
    ensures var c := CatchUp(start, tip, confirmations, size, w);
            && (c.CaughtUp? ==> IsSuffix(c.w.future, future))
            && (c.ReceiverGone? ==> Explained(future, c.w, n, items))
            && (c.Broken? ==> Explained(future, Report(c.w, c.error), n, items))
    decreases |w.future|
  {
    hide Explained, IsSuffix, StreamHistorical, Report, HeadsUpTo, EndsStable;
    if start < tip {
      HistoricalConsumes(start, tip, size, w);
      HistoricalStops(future, start, tip, size, w, items);
      var r := StreamHistorical(start, tip, size, w);
      if !r.open {
        ExplainedFurther(future, r.w, tip, items, n, items);
      } else {
        HeadIsLater(r.w);
        HeadIsUpTo(future, r.w, n);
        HeadExplains(future, r.w, n, items);
        var (head, w1) := ReadHead(r.w);
        hide ReadHead;
        if head.Ok? {
          CatchUpStops(future, tip + 1, SaturatingSub(head.value, confirmations), confirmations, size, w1, n, items);
        }
      }
    }
  }

  /** The last event is the notice of the switch to live. */
  predicate Announced(h: seq<Event>) {
    h != [] && h[|h| - 1].Sent? && h[|h| - 1].message.SwitchingToLive?
  }

  lemma GoLiveStops(future: seq<Moment>, cfg: Config, items: seq<Item>, w: World, n: nat)
    requires cfg.size >= 1 && IsSuffix(w.future, future) && ConfirmUpTo(cfg, items, n)
    ensures var live := GoLive(cfg, items, w);
            live.Closed? ==> Explained(future, live.w, n, items)
                             || (Waiting(cfg, items) && Announced(live.w.history))
  {
    hide Explained, IsSuffix, StreamLive, Report, Waiting;
    LaterReached(future, w);
    if !Now(w).rpcUp {
      ReportExplains(future, w, RpcError, n, items);
    } else {
      GoneExplains(future, Later(w), SwitchingToLive, n, items);
      var (open, w2) := Send(Later(w), SwitchingToLive);
      if open {
        LiveStops(future, cfg, items, false, [], w2, n);
      }
    }
  }

  /** A sync run is over only for a reason; or its live phase waits for its first header, and after a
      catch-up has announced itself; or it has not started at all: the head could not be read, or a
      run that only streams live could not subscribe. */
  lemma SyncStops(start: nat, confirmations: nat, size: nat, capacity: Capacity, items: seq<Item>, w: World, n: nat)
    requires size >= 1 && HeadsUpTo(w.future, n) && ConfirmUpTo(Config(start, confirmations, size, capacity), items, n)
    ensures var live := RunSync(start, confirmations, size, capacity, items, w);
            live.Closed? ==>
              || Explained(w.future, live.w, n, items)
              || (live.w.history == w.history && NotStarted(start, confirmations, w))
              || (Waiting(Config(LiveStart(start, confirmations, size, w), confirmations, size, capacity), items)
                  && (live.w.history == w.history || Announced(live.w.history)))
  {
    hide Explained, IsSuffix, StreamLive, Report, Waiting, CatchUp, GoLive, HeadsUpTo, Announced;
    var future := w.future;
    SuffixReflexive(future);
    HeadIsUpTo(future, w, n);
    var (head, w1) := ReadHead(w);
    if head.Ok? {
      var tip := SaturatingSub(head.value, confirmations);
      LaterReached(future, w1);
      if start > tip {
        if Now(w1).rpcUp {
          LiveStops(future, Config(start, confirmations, size, capacity), items, true, [], Later(w1), n);
        }
      } else {
        CatchUpStops(future, start, tip, confirmations, size, w1, n, items);
        var c := CatchUp(start, tip, confirmations, size, w1);
        if c.CaughtUp? {
          SameConfirmations(start, c.liveStart, confirmations, size, capacity, items, n);
          GoLiveStops(future, Config(c.liveStart, confirmations, size, capacity), items, c.w, n);
        }
      }
    }
    hide ReadHead;
  }

  lemma SameConfirmations(s: nat, t: nat, confirmations: nat, size: nat, capacity: Capacity, items: seq<Item>, n: nat)
    requires ConfirmUpTo(Config(s, confirmations, size, capacity), items, n)
    ensures ConfirmUpTo(Config(t, confirmations, size, capacity), items, n)
  {
  }

  // -------------------------------------------------------------------------
  // Rewinds
  // -------------------------------------------------------------------------

  ghost predicate RewindExplained(future: seq<Moment>, r: Rewind.Rewinding, tip: nat) {
    && IsSuffix(r.w.future, future)
    && (r.Halted? ==> Explained(future, r.w, tip, []))
    && (r.Going? ==> r.tip.number == tip)
  }

  lemma RescanStops(future: seq<Moment>, p: Rewind.Params, ancestor: nat, tip: Block, buffer: seq<Block>, w: World)
    requires p.size >= 1 && IsSuffix(w.future, future)
    ensures RewindExplained(future, Rewind.Rescan(p, ancestor, tip, buffer, w), tip.number)
  {
    hide Explained, IsSuffix, SendAll, Tiling, Fetch, Send, Report;
    GoneExplains(future, w, ReorgDetected(ancestor), tip.number, []);
    var (open, w1) := Send(w, ReorgDetected(ancestor));
    if open {
      FetchExplains(future, w1, tip.number, tip.number, []);
      FetchedNumber(w1, tip.number);
      var (fetched, w2) := Fetch(w1, tip.number);
      if fetched.Ok? {
        SendAllExplains(future, w2, Tiling(ancestor + 1, tip.number, p.size), tip.number, []);
      } else {
        ExplainedReaches(future, Report(w2, fetched.error), tip.number, []);
      }
    }
  }

  lemma RewindRangeStops(future: seq<Moment>, p: Rewind.Params, range: Range, tip: Block, buffer: seq<Block>, w: World)
    requires p.size >= 1 && IsSuffix(w.future, future)
    ensures RewindExplained(future, Rewind.RewindRange(p, range, tip, buffer, w), tip.number)
  {
    hide Explained, IsSuffix, Send, CheckNow, Report, Rewind.Rescan;
    GoneExplains(future, w, Data(range), tip.number, []);
    var (open, w1) := Send(w, Data(range));
    if open && p.checkReorg {
      CheckExplains(future, w1, buffer, p.capacity, tip, tip.number, []);
      var (answer, buffer', w2) := CheckNow(w1, buffer, p.capacity, tip);
      if answer.Err? {
        ExplainedReaches(future, Report(w2, answer.error), tip.number, []);
      } else if answer.value.Some? {
        RescanStops(future, p, answer.value.value.number, tip, buffer', w2);
      }
    }
  }

  lemma {:induction false} RewindRangesStop(future: seq<Moment>, p: Rewind.Params, ranges: seq<Range>, tip: Block, buffer: seq<Block>, w: World)
    requires p.size >= 1 && IsSuffix(w.future, future)
    ensures RewindExplained(future, Rewind.RewindRanges(p, ranges, tip, buffer, w), tip.number)
    decreases |ranges|
  {
    hide Explained, IsSuffix, Rewind.RewindRange;
    if ranges != [] {
      RewindRangeStops(future, p, ranges[0], tip, buffer, w);
      var r := Rewind.RewindRange(p, ranges[0], tip, buffer, w);
      if r.Going? {
        RewindRangesStop(future, p, ranges[1..], r.tip, r.buffer, r.w);
      }
    }
  }

  /** A rewind halts only for a reason. */
  lemma RewindStops(from: Block, to: nat, size: nat, capacity: Capacity, w: World)
    requires size >= 1
    ensures var r := Rewind.StreamRewind(from, to, size, capacity, w);
            r.Halted? ==> Explained(w.future, r.w, from.number, [])
  {
    hide Explained, IsSuffix, Rewind.RewindRanges, DescTiling;
    SuffixReflexive(w.future);
    LaterReached(w.future, w);
    var f := Rewind.FinalizedFor(from, w);
    RewindRangesStop(w.future, Rewind.Params(size, from.number > f.height, capacity), DescTiling(from.number, to, size), from, [], f.w);
  }
}
