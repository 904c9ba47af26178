/** Catching up on past blocks, then going live. */
module Sync {
  import opened Wrappers
  import opened U64
  import opened Chains
  import opened RangeIterator
  import opened RingBuffers
  import opened ReorgHandler
  import opened Outside
  import opened Replay
  import opened RangeStream
  import opened LiveStream
  import opened Historical

  /** `get_block_number` at the current moment. */
  function ReadHead(w: World): (Wrappers.Result<nat, ScannerError>, World) {
    var m := Now(w);
    (if m.rpcUp && m.chain.blocks != [] then Ok(|m.chain.blocks| - 1) else Err(RpcError), Later(w))
  }

  datatype Catchup =
    | CaughtUp(liveStart: nat, w: World)
    | ReceiverGone(w: World)
    | Broken(error: ScannerError, w: World)

  /** Historical rounds until the start has reached the confirmed tip. */
  function CatchUp(start: nat, tip: nat, confirmations: nat, size: nat, w: World): Catchup
    requires size >= 1
    decreases |w.future|
  {
    if start >= tip then CaughtUp(start, w)
    else
      var r := StreamHistorical(start, tip, size, w);
      HistoricalConsumes(start, tip, size, w);
      if !r.open then ReceiverGone(r.w)
      else
        var (head, w1) := ReadHead(r.w);
        match head
        case Err(e) => Broken(e, w1)
        case Ok(latest) => CatchUp(tip + 1, SaturatingSub(latest, confirmations), confirmations, size, w1)
  }

  /** Subscribes, announces the switch and streams live. */
  function GoLive(cfg: Config, items: seq<Item>, w: World): Live
    requires cfg.size >= 1
  {
    var w1 := Later(w);
    if !Now(w).rpcUp then Closed([], Report(w1, RpcError))
    else
      var (open, w2) := Send(w1, SwitchingToLive);
      if !open then Closed([], w2) else StreamLive(cfg, items, false, [], w2)
  }

  function CatchUpThenLive(start: nat, tip: nat, confirmations: nat, size: nat, capacity: Capacity, items: seq<Item>, w: World): Live
    requires size >= 1
  {
    match CatchUp(start, tip, confirmations, size, w)
    case ReceiverGone(w1) => Closed([], w1)
    case Broken(e, w1) => Closed([], Report(w1, e))
    case CaughtUp(liveStart, w1) => GoLive(Config(liveStart, confirmations, size, capacity), items, w1)
  }

  /** A whole sync run from a resolved start block. */
  function RunSync(start: nat, confirmations: nat, size: nat, capacity: Capacity, items: seq<Item>, w: World): Live
    requires size >= 1
  {
    var (head, w1) := ReadHead(w);
    match head
    case Err(_) => Closed([], w1)
    case Ok(latest) =>
      var tip := SaturatingSub(latest, confirmations);
      if start > tip then
        if !Now(w1).rpcUp then Closed([], Later(w1))
        else StreamLive(Config(start, confirmations, size, capacity), items, true, [], Later(w1))
      else CatchUpThenLive(start, tip, confirmations, size, capacity, items, w1)
  }

  /** The caller gets an error: the head cannot be read, or a run that only streams live cannot
      subscribe. Later failures are streamed. */
  predicate NotStarted(start: nat, confirmations: nat, w: World) {
    var (head, w1) := ReadHead(w);
    head.Err? || (start > SaturatingSub(head.value, confirmations) && !Now(w1).rpcUp)
  }

  /** The block the live phase of a run starts at. */
  function LiveStart(start: nat, confirmations: nat, size: nat, w: World): nat
    requires size >= 1
  {
    var (head, w1) := ReadHead(w);
    if head.Err? || start > SaturatingSub(head.value, confirmations) then start
    else
      var c := CatchUp(start, SaturatingSub(head.value, confirmations), confirmations, size, w1);
      if c.CaughtUp? then c.liveStart else start
  }

  /** A catch-up that gets through ends behind the confirmed tip it was started for. */
  lemma {:induction false} CatchUpPassesTip(start: nat, tip: nat, confirmations: nat, size: nat, w: World)
    requires size >= 1
    ensures var c := CatchUp(start, tip, confirmations, size, w);
            c.CaughtUp? ==> if start < tip then c.liveStart > tip else c.liveStart == start
    decreases |w.future|
  {
    hide StreamHistorical;
    if start < tip {
      HistoricalConsumes(start, tip, size, w);
      var r := StreamHistorical(start, tip, size, w);
      HeadIsLater(r.w);
      var (head, w1) := ReadHead(r.w);
      hide ReadHead;
      if r.open && head.Ok? {
        var tip' := SaturatingSub(head.value, confirmations);
        assert CatchUp(start, tip, confirmations, size, w) == CatchUp(tip + 1, tip', confirmations, size, w1);
        hide CatchUp;
        CatchUpPassesTip(tip + 1, tip', confirmations, size, w1);
      }
    }
  }

  lemma HeadIsLater(w: World)
    ensures |ReadHead(w).1.future| <= |w.future|
    ensures ReadHead(w).0.Ok? ==> |ReadHead(w).1.future| < |w.future|
  {
  }

  lemma {:induction false} PassesConsume(restStart: nat, end: nat, size: nat, ancestor: nat, endBlock: Block, w: World)
    requires size >= 1
    ensures |Passes(restStart, end, size, ancestor, endBlock, w).w.future| <= |w.future|
    decreases |w.future|
  {
    SendAllConsumes(w, Tiling(restStart, end, size));
    var step := OnePass(restStart, end, size, ancestor, endBlock, w);
    if step.Again? {
      PassesConsume(restStart, end, size, ancestor, step.endBlock, step.w);
    }
  }

  lemma HistoricalConsumes(start: nat, end: nat, size: nat, w: World)
    requires size >= 1
    ensures |StreamHistorical(start, end, size, w).w.future| <= |w.future|
  {
    var f := ReadFinalized(w);
    var ranges := Tiling(start, Min(f.height, end), size);
    SendAllConsumes(f.w, ranges);
    var (open, w1) := SendAll(f.w, ranges);
    var restStart := RestStart(start, end, f.height);
    if open && restStart <= end {
      var (endBlock, w2) := Fetch(w1, end);
      if endBlock.Ok? {
        PassesConsume(restStart, end, size, ReorgAncestor(restStart, f.height), endBlock.value, w2);
      }
    }
  }

  // -------------------------------------------------------------------------
  // The handler
  // -------------------------------------------------------------------------

  class SyncHandler {
    const maxBlockRange: nat
    const blockConfirmations: nat
    const env: Environment
    const handler: DefaultReorgHandler

    ghost predicate Valid()
      reads this, handler, handler.buffer
    {
      handler.Valid() && handler.buffer.inner == [] && maxBlockRange >= 1
    }

    constructor (maxBlockRange: nat, blockConfirmations: nat, capacity: Capacity, env: Environment)
      requires maxBlockRange >= 1
      ensures Valid() && fresh(handler) && fresh(handler.buffer) && handler.buffer.capacity == capacity
      ensures this.maxBlockRange == maxBlockRange && this.blockConfirmations == blockConfirmations && this.env == env
    {
      this.maxBlockRange := maxBlockRange;
      this.blockConfirmations := blockConfirmations;
      this.env := env;
      this.handler := new DefaultReorgHandler(capacity);
    }

    method GetBlockNumber() returns (r: Wrappers.Result<nat, ScannerError>)
      modifies env
      ensures (r, env.w) == ReadHead(old(env.w))
      ensures r.Ok? ==> r.value < U64_MAX
    {
      var m := env.Observe();
      r := if m.rpcUp && m.chain.blocks != [] then Ok(|m.chain.blocks| - 1) else Err(RpcError);
    }

    method CatchupHistoricalBlocks(startBlock: nat, tip: nat) returns (r: Wrappers.Result<Option<nat>, ScannerError>)
      requires Valid() && startBlock <= U64_MAX && tip < U64_MAX
      modifies env
      ensures CatchUp(startBlock, tip, blockConfirmations, maxBlockRange, old(env.w)) ==
              match r {
                case Ok(Some(liveStart)) => CaughtUp(liveStart, env.w)
                case Ok(None) => ReceiverGone(env.w)
                case Err(e) => Broken(e, env.w)
              }
    {
      hide StreamHistorical;
      var start: nat, confirmedTip: nat := startBlock, tip;
      ghost var target := CatchUp(start, confirmedTip, blockConfirmations, maxBlockRange, env.w);
      while start < confirmedTip
        invariant start <= U64_MAX && confirmedTip < U64_MAX
        invariant target == CatchUp(start, confirmedTip, blockConfirmations, maxBlockRange, env.w)
        decreases |env.w.future|
      {
        HistoricalConsumes(start, confirmedTip, maxBlockRange, env.w);
        var historical := new HistoricalRangeHandler(maxBlockRange, start, confirmedTip, env);
        var open := historical.RunSync();
        if !open {
          return Ok(None);
        }
        var latest := GetBlockNumber();
        if latest.Err? {
          return Err(latest.error);
        }
        start := confirmedTip + 1;
        confirmedTip := SaturatingSub(latest.value, blockConfirmations);
      }
      r := Ok(Some(start));
    }

    /** The buffer is private to the run, so only its world and its state are left. */
    ghost predicate Ends(live: Live, open: bool, last: State, w: World) {
      live.Open? == open && live.w == w && (open ==> live.state == last)
    }

    method SpawnLiveOnly(startBlock: nat, items: seq<Item>) returns (open: bool, last: State)
      requires Valid() && startBlock <= U64_MAX && Narrow(items)
      modifies env, handler.buffer
      ensures var cfg := Config(startBlock, blockConfirmations, maxBlockRange, handler.buffer.capacity);
              var w := old(env.w);
              Ends(if !Now(w).rpcUp then Closed([], Later(w)) else StreamLive(cfg, items, true, [], Later(w)),
                   open, last, env.w)
    {
      var cfg := Config(startBlock, blockConfirmations, maxBlockRange, handler.buffer.capacity);
      last := State(startBlock, None);
      var m := env.Observe();
      if !m.rpcUp {
        return false, last;
      }
      open, last := StreamLiveBlocks(cfg, items, env, handler, true);
    }

    method TransitionToLive(liveStart: nat, items: seq<Item>) returns (open: bool, last: State)
      requires Valid() && Narrow(items)
      modifies env, handler.buffer
      ensures var cfg := Config(liveStart, blockConfirmations, maxBlockRange, handler.buffer.capacity);
              Ends(GoLive(cfg, items, old(env.w)), open, last, env.w)
    {
      var cfg := Config(liveStart, blockConfirmations, maxBlockRange, handler.buffer.capacity);
      last := State(liveStart, None);
      var m := env.Observe();
      if !m.rpcUp {
        var _ := env.TryStream(Error(RpcError));
        return false, last;
      }
      open := env.TryStream(SwitchingToLive);
      if open {
        open, last := StreamLiveBlocks(cfg, items, env, handler, false);
      }
    }

    /** A whole run; `start` is the number of the block to start from, or the error of looking it up. */
    method Run(start: Wrappers.Result<nat, ScannerError>, items: seq<Item>)
      returns (r: Wrappers.Result<(), ScannerError>, open: bool, last: State)
      requires Valid() && (start.Ok? ==> start.value <= U64_MAX) && Narrow(items)
      modifies env, handler.buffer
      ensures start.Err? ==> r.Err? && env.w == Later(old(env.w))
      ensures start.Ok? ==>
                Ends(RunSync(start.value, blockConfirmations, maxBlockRange, handler.buffer.capacity, items, old(env.w)),
                     open, last, env.w)
      ensures start.Ok? ==>
                (r.Err? <==>
                   var w := old(env.w);
                   var blocks := Now(w).chain.blocks;
                   || !Now(w).rpcUp || blocks == []
                   || (start.value > SaturatingSub(|blocks| - 1, blockConfirmations) && !Now(Later(w)).rpcUp))
      ensures r.Err? ==> !open && env.w.history == old(env.w.history)
    {
      last := State(0, None);
      var latest := GetBlockNumber();
      if start.Err? {
        return Err(start.error), false, last;
      }
      if latest.Err? {
        return Err(latest.error), false, last;
      }
      var tip := SaturatingSub(latest.value, blockConfirmations);
      if start.value > tip {
        var subscribed := Now(env.w).rpcUp;
        open, last := SpawnLiveOnly(start.value, items);
        return if subscribed then Ok(()) else Err(RpcError), open, last;
      }
      r := Ok(());
      open, last := CatchupThenLive(start.value, tip, items);
    }

    method CatchupThenLive(startBlock: nat, tip: nat, items: seq<Item>) returns (open: bool, last: State)
      requires Valid() && startBlock <= U64_MAX && tip < U64_MAX && Narrow(items)
      modifies env, handler.buffer
      ensures Ends(CatchUpThenLive(startBlock, tip, blockConfirmations, maxBlockRange, handler.buffer.capacity, items, old(env.w)),
                   open, last, env.w)
    {
      last := State(startBlock, None);
      var caughtUp := CatchupHistoricalBlocks(startBlock, tip);
      match caughtUp {
        case Err(e) =>
          var _ := env.TryStream(Error(e));
          return false, last;
        case Ok(None) =>
          return false, last;
        case Ok(Some(liveStart)) =>
          open, last := TransitionToLive(liveStart, items);
      }
    }
  }

  // -------------------------------------------------------------------------
  // The phases meet
  // -------------------------------------------------------------------------

  ghost predicate CatchupIsSound(m: Monitor, w: World, c: Catchup, start: nat, origin: nat) {
    var m' := Watch(m, c.w.history);
    && Judged(m')
    && (c.CaughtUp? ==>
          && Growing(m', c.liveStart, origin)
          && (c.liveStart == start || c.liveStart >= start + 2)
          && (c.liveStart == start ==> c.w == w)
          && (m'.faithful && c.liveStart != start ==> m'.view.low < m'.view.mark))
  }

  lemma {:induction false} CatchUpIsSound(m: Monitor, start: nat, tip: nat, confirmations: nat, size: nat, w: World, origin: nat)
    requires size >= 1 && origin <= start
    requires Growing(Watch(m, w.history), start, origin)
    ensures CatchupIsSound(m, w, CatchUp(start, tip, confirmations, size, w), start, origin)
    decreases |w.future|, 0
  {
    hide StreamHistorical, Growing, Judged, Watch;
    GrowingIsJudged(Watch(m, w.history), start, origin);
    if start < tip {
      HistoricalIsSound(m, start, tip, size, w, origin);
      HistoricalConsumes(start, tip, size, w);
      var r := StreamHistorical(start, tip, size, w);
      var (head, w1) := ReadHead(r.w);
      if r.open && head.Ok? {
        NextRoundIsSound(m, w, start, tip, SaturatingSub(head.value, confirmations), confirmations, size, w1, origin);
      }
    }
  }

  lemma {:induction false} NextRoundIsSound(
    m: Monitor, before: World, start: nat, tip: nat, tip': nat, confirmations: nat, size: nat, w: World, origin: nat)
    requires size >= 1 && origin <= start < tip
    requires Growing(Watch(m, w.history), tip + 1, origin)
    ensures CatchupIsSound(m, before, CatchUp(tip + 1, tip', confirmations, size, w), start, origin)
    decreases |w.future|, 1
  {
    hide Growing, Judged, Watch;
    var c := CatchUp(tip + 1, tip', confirmations, size, w);
    CatchUpIsSound(m, tip + 1, tip', confirmations, size, w, origin);
    if c.CaughtUp? {
      GrowingIsJudged(Watch(m, c.w.history), c.liveStart, origin);
    }
  }

  /** The announced switch puts the live phase right behind the last caught-up block. */
  lemma SwitchMakesReady(m: Monitor, start: nat, liveStart: nat, c: Chain)
    requires Growing(m, liveStart, start)
    requires liveStart == start || liveStart >= start + 2
    requires m.faithful ==> (liveStart != start <==> m.view.low < m.view.mark)
    ensures Ready(Observe(m, Sent(SwitchingToLive, c)), [], liveStart, liveStart, start)
  {
  }

  lemma CatchUpThenLiveIsSound(
    m: Monitor, start: nat, tip: nat, confirmations: nat, size: nat, capacity: Capacity, items: seq<Item>, w: World, liveStart: nat)
    requires size >= 1
    requires Growing(Watch(m, w.history), start, start) && Watch(m, w.history).view.low == Watch(m, w.history).view.mark
    requires var c := CatchUp(start, tip, confirmations, size, w); liveStart == if c.CaughtUp? then c.liveStart else start
    ensures LiveIsSound(m, CatchUpThenLive(start, tip, confirmations, size, capacity, items, w), liveStart, start)
  {
    CatchUpIsSound(m, start, tip, confirmations, size, w, start);
    var c := CatchUp(start, tip, confirmations, size, w);
    hide CatchUp;
    match c {
      case ReceiverGone(w1) =>
      case Broken(e, w1) => ReportKeeps(m, w1, e);
      case CaughtUp(s, w1) =>
        var cfg := Config(s, confirmations, size, capacity);
        var w2 := Later(w1);
        if !Now(w1).rpcUp {
          ReportKeeps(m, w2, RpcError);
        } else {
          SwitchMakesReady(Watch(m, w1.history), start, s, Now(w2).chain);
          WatchNoted(m, Later(w2), Sent(SwitchingToLive, Now(w2).chain));
          if Now(w2).receiverUp {
            StreamLiveIsSound(m, cfg, items, false, [], Send(w2, SwitchingToLive).1, start);
          }
        }
    }
  }

  lemma RunSyncIsSound(start: nat, confirmations: nat, size: nat, capacity: Capacity, items: seq<Item>, w: World)
    requires size >= 1 && w.history == []
    ensures LiveIsSound(START, RunSync(start, confirmations, size, capacity, items, w),
                        LiveStart(start, confirmations, size, w), start)
  {
    hide CatchUpThenLive, StreamLive, CatchUp;
    var (head, w1) := ReadHead(w);
    if head.Ok? {
      var tip := SaturatingSub(head.value, confirmations);
      if start > tip {
        if Now(w1).rpcUp {
          StreamLiveIsSound(START, Config(start, confirmations, size, capacity), items, true, [], Later(w1), start);
        }
      } else {
        CatchUpThenLiveIsSound(START, start, tip, confirmations, size, capacity, items, w1,
                               LiveStart(start, confirmations, size, w));
      }
    }
  }

  lemma LiveStartBounds(start: nat, confirmations: nat, size: nat, w: World)
    requires size >= 1
    ensures var s := LiveStart(start, confirmations, size, w); s == start || s >= start + 2
  {
    var (head, w1) := ReadHead(w);
    if head.Ok? {
      CatchUpPassesTip(start, SaturatingSub(head.value, confirmations), confirmations, size, w1);
    }
    hide CatchUp;
  }

  /** Over every sync run, whichever branch it takes and however the tip moves between rounds:
      after every event at which the scanner has looked at everything streamed the consumer's
      view is canonical, and between two live items it is exactly the canonical chain from the
      start block to the previous batch end, so catch-up rounds and the live phase meet without
      gap or overlap. The view may begin one block early only when nothing was caught up.
      Without a previous batch end it stays below the live start. */
  lemma SyncReplayIsCanonical(start: nat, confirmations: nat, size: nat, capacity: Capacity, items: seq<Item>, future: seq<Moment>)
    requires size >= 1
    ensures var live := RunSync(start, confirmations, size, capacity, items, World(future, []));
            var liveStart := LiveStart(start, confirmations, size, World(future, []));
            var m := Watch(START, live.w.history);
            && Judged(m)
            && (live.Open? && m.faithful ==>
                  && m.view.intact
                  && match live.state.previousBatchEnd
                     case Some(end) =>
                       && OnChain(m.base, end)
                       && SaturatingSub(start, 1) <= m.view.low <= Min(start, end.number)
                       && m.view.held == Blocks(m.base, m.view.low, end.number + 1)
                       && (liveStart != start ==> m.view.low == start)
                     case None =>
                       forall i | 0 <= i < |m.view.held| :: m.view.held[i].number < liveStart)
  {
    hide RunSync, LiveStart, Watch;
    var w := World(future, []);
    RunSyncIsSound(start, confirmations, size, capacity, items, w);
    LiveStartBounds(start, confirmations, size, w);
  }
}
