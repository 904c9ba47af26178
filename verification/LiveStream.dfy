/** The live streaming state machine. */
module LiveStream {
  import opened Wrappers
  import opened U64
  import opened Chains
  import opened RingBuffers
  import opened ReorgHandler
  import opened Outside
  import opened Replay
  import opened RangeStream

  /** What the block subscription yields. */
  datatype Item = Header(number: nat) | Lagged | Failed(error: ScannerError)

  datatype Config = Config(streamStart: nat, confirmations: nat, size: nat, capacity: Capacity)

  datatype State = State(batchStart: nat, previousBatchEnd: Option<Block>)

  /** `Open` runs can go on with more items, `Closed` runs are over. */
  datatype Live =
    | Open(state: State, buffer: seq<Block>, w: World)
    | Closed(buffer: seq<Block>, w: World)

  function Confirmed(cfg: Config, head: nat): nat {
    SaturatingSub(head, cfg.confirmations)
  }

  function MinCommonAncestor(cfg: Config): nat {
    SaturatingSub(cfg.streamStart, 1)
  }

  /** Streams up to `batchEnd`, if that is not behind the state. */
  function NextBatch(cfg: Config, batchEnd: nat, state: State, buffer: seq<Block>, w: World): Live
    requires cfg.size >= 1
  {
    if batchEnd < state.batchStart then Open(state, buffer, w)
    else
      var p := Params(MinCommonAncestor(cfg), batchEnd, cfg.size, cfg.capacity);
      var outcome := StreamRange(p, state.batchStart, None, buffer, w);
      if outcome.Done? && outcome.last.Some? then Open(State(batchEnd + 1, outcome.last), outcome.buffer, outcome.w)
      else Closed(outcome.buffer, outcome.w)
  }

  /** The state after a notified reorg. */
  function Rewound(cfg: Config, ancestor: Block): State {
    if ancestor.number < cfg.streamStart then State(cfg.streamStart, None)
    else State(ancestor.number + 1, Some(ancestor))
  }

  /** The check of the previous batch end when a new header arrives. */
  function CheckPrevious(cfg: Config, previous: Block, buffer: seq<Block>, w: World): Live {
    var (answer, buffer', w1) := CheckNow(w, buffer, cfg.capacity, previous);
    match answer
    case Err(e) => Closed(buffer', Report(w1, e))
    case Ok(None) => Open(State(previous.number + 1, Some(previous)), buffer', w1)
    case Ok(Some(ancestor)) =>
      var (open, w2) := Send(w1, ReorgDetected(ancestor.number));
      if open then Open(Rewound(cfg, ancestor), buffer', w2) else Closed(buffer', w2)
  }

  function OnItem(cfg: Config, item: Item, state: State, buffer: seq<Block>, w: World): Live
    requires cfg.size >= 1
  {
    match item
    case Lagged => Open(state, buffer, w)
    case Failed(e) => Closed(buffer, Report(w, e))
    case Header(number) =>
      if state.previousBatchEnd == None then Open(state, buffer, w)
      else
        match CheckPrevious(cfg, state.previousBatchEnd.value, buffer, w)
        case Closed(buffer', w') => Closed(buffer', w')
        case Open(state', buffer', w') => NextBatch(cfg, Confirmed(cfg, number), state', buffer', w')
  }

  /** The continuous phase over a list of items. */
  function Continue(cfg: Config, items: seq<Item>, live: Live): Live
    requires cfg.size >= 1
    decreases |items|
  {
    if items == [] || live.Closed? then live
    else Continue(cfg, items[1..], OnItem(cfg, items[0], live.state, live.buffer, live.w))
  }

  /** Items that come before the first relevant one: lags, and headers whose confirmed height
      lies below the stream start. */
  predicate Skipped(cfg: Config, item: Item) {
    item.Lagged? || (item.Header? && Confirmed(cfg, item.number) < cfg.streamStart)
  }

  function SkipWhile(cfg: Config, items: seq<Item>): (rest: seq<Item>)
    ensures rest != [] ==> !Skipped(cfg, rest[0])
  {
    if items == [] || !Skipped(cfg, items[0]) then items else SkipWhile(cfg, items[1..])
  }

  /** The catch-up from the stream start to the confirmed height of the first relevant header. */
  function Initialize(cfg: Config, confirmed: nat, buffer: seq<Block>, w: World): Live
    requires cfg.size >= 1
  {
    var p := Params(MinCommonAncestor(cfg), confirmed, cfg.size, cfg.capacity);
    var outcome := StreamRange(p, cfg.streamStart, None, buffer, w);
    if outcome.Done? && outcome.last.Some? then Open(State(cfg.streamStart, outcome.last), outcome.buffer, outcome.w)
    else Closed(outcome.buffer, outcome.w)
  }

  /** The whole live stream. `notify` asks for the switching notice once the first relevant
      header has arrived. */
  function StreamLive(cfg: Config, items: seq<Item>, notify: bool, buffer: seq<Block>, w: World): Live
    requires cfg.size >= 1
  {
    var relevant := SkipWhile(cfg, items);
    if relevant == [] then Closed(buffer, w)
    else if relevant[0].Failed? then Closed(buffer, Report(w, relevant[0].error))
    else
      var (open, w1) := if notify then Send(w, SwitchingToLive) else (true, w);
      if !open then Closed(buffer, w1)
      else
        Continue(cfg, relevant[1..], Initialize(cfg, Confirmed(cfg, relevant[0].number), buffer, w1))
  }

  // -------------------------------------------------------------------------
  // The streaming loop
  // -------------------------------------------------------------------------

  class LiveStreamingState {
    var batchStart: nat
    var previousBatchEnd: Option<Block>

    constructor (batchStart: nat, previousBatchEnd: Option<Block>)
      ensures Value() == State(batchStart, previousBatchEnd)
    {
      this.batchStart := batchStart;
      this.previousBatchEnd := previousBatchEnd;
    }

    function Value(): State
      reads this
    {
      State(batchStart, previousBatchEnd)
    }
  }

  /** An open run has this state; a closed one leaves this buffer and world. */
  ghost predicate Leaves(live: Live, open: bool, state: State, buffer: seq<Block>, w: World) {
    && live.Open? == open && live.buffer == buffer && live.w == w
    && (open ==> live.state == state)
  }

  method StreamNextBatch(cfg: Config, batchEnd: nat, state: LiveStreamingState, env: Environment, handler: DefaultReorgHandler)
    returns (open: bool)
    requires handler.Valid() && handler.buffer.capacity == cfg.capacity
    requires cfg.size >= 1 && batchEnd < U64_MAX && MinCommonAncestor(cfg) <= state.batchStart
    modifies state, env, handler.buffer
    ensures handler.Valid()
    ensures Leaves(NextBatch(cfg, batchEnd, old(state.Value()), old(handler.buffer.inner), old(env.w)),
                   open, state.Value(), handler.buffer.inner, env.w)
  {
    if batchEnd < state.batchStart {
      return true;
    }
    state.previousBatchEnd := StreamRangeWithReorgHandling(
      MinCommonAncestor(cfg), state.batchStart, batchEnd, cfg.size, env, handler);
    if state.previousBatchEnd == None {
      return false;
    }
    state.batchStart := batchEnd + 1;
    return true;
  }

  method HandleReorgDetected(cfg: Config, ancestor: Block, state: LiveStreamingState, env: Environment) returns (open: bool)
    modifies state, env
    ensures (open, env.w) == Send(old(env.w), ReorgDetected(ancestor.number))
    ensures state.Value() == if open then Rewound(cfg, ancestor) else old(state.Value())
  {
    open := env.TryStream(ReorgDetected(ancestor.number));
    if !open {
      return;
    }
    if ancestor.number < cfg.streamStart {
      state.batchStart := cfg.streamStart;
      state.previousBatchEnd := None;
    } else {
      state.batchStart := ancestor.number + 1;
      state.previousBatchEnd := Some(ancestor);
    }
  }

  method CheckPreviousBatchEnd(cfg: Config, state: LiveStreamingState, env: Environment, handler: DefaultReorgHandler)
    returns (open: bool)
    requires handler.Valid() && handler.buffer.capacity == cfg.capacity
    requires state.previousBatchEnd.Some?
    modifies state, env, handler.buffer
    ensures handler.Valid()
    ensures Leaves(CheckPrevious(cfg, old(state.previousBatchEnd).value, old(handler.buffer.inner), old(env.w)),
                   open, state.Value(), handler.buffer.inner, env.w)
  {
    var previous := state.previousBatchEnd.value;
    var answer := handler.Check(env, previous);
    match answer {
      case Err(e) =>
        var _ := env.TryStream(Error(e));
        return false;
      case Ok(None) =>
        state.batchStart := previous.number + 1;
        return true;
      case Ok(Some(ancestor)) =>
        open := HandleReorgDetected(cfg, ancestor, state, env);
    }
  }

  /** The headers' block numbers are 64 bits wide. */
  predicate Narrow(items: seq<Item>) {
    forall i | 0 <= i < |items| && items[i].Header? :: items[i].number < U64_MAX
  }

  /** The state always lies at or above the lower bound of the stream. */
  ghost predicate AboveBound(cfg: Config, state: State) {
    && MinCommonAncestor(cfg) <= state.batchStart
    && (state.previousBatchEnd.Some? ==> MinCommonAncestor(cfg) <= state.previousBatchEnd.value.number + 1)
  }

  lemma {:induction false} StreamRangeAbove(p: Params, cursor: nat, last: Option<Block>, buffer: seq<Block>, w: World)
    requires p.size >= 1 && p.minCommonAncestor <= cursor
    requires last.Some? ==> p.minCommonAncestor <= last.value.number
    ensures var outcome := StreamRange(p, cursor, last, buffer, w);
            outcome.Done? && outcome.last.Some? ==> p.minCommonAncestor <= outcome.last.value.number
    decreases |w.future|
  {
    if cursor <= p.end && BatchStep(p, cursor, buffer, w).Next? {
      var step := BatchStep(p, cursor, buffer, w);
      StreamRangeAbove(p, step.cursor, Some(step.batchEnd), step.buffer, step.w);
    }
  }

  method StreamBlocksContinuously(cfg: Config, items: seq<Item>, state: LiveStreamingState, env: Environment, handler: DefaultReorgHandler)
    returns (open: bool)
    requires handler.Valid() && handler.buffer.capacity == cfg.capacity
    requires cfg.size >= 1 && Narrow(items) && AboveBound(cfg, state.Value())
    modifies state, env, handler.buffer
    ensures handler.Valid()
    ensures Leaves(Continue(cfg, items, Open(old(state.Value()), old(handler.buffer.inner), old(env.w))),
                   open, state.Value(), handler.buffer.inner, env.w)
  {
    ghost var target := Continue(cfg, items, Open(state.Value(), handler.buffer.inner, env.w));
    var i := 0;
    while i < |items|
      invariant i <= |items|
      invariant handler.Valid() && AboveBound(cfg, state.Value())
      invariant target == Continue(cfg, items[i..], Open(state.Value(), handler.buffer.inner, env.w))
    {
      var item := items[i];
      assert items[i..][1..] == items[i + 1..];
      i := i + 1;
      match item {
        case Lagged =>
        case Failed(e) =>
          var _ := env.TryStream(Error(e));
          return false;
        case Header(number) =>
          if state.previousBatchEnd.Some? {
            open := CheckPreviousBatchEnd(cfg, state, env, handler);
            if !open {
              return;
            }
            StreamRangeAbove(Params(MinCommonAncestor(cfg), Confirmed(cfg, number), cfg.size, cfg.capacity),
                             state.batchStart, None, handler.buffer.inner, env.w);
            open := StreamNextBatch(cfg, Confirmed(cfg, number), state, env, handler);
            if !open {
              return;
            }
          }
      }
    }
    return true;
  }

  /** The whole stream, from the subscription to its end. */
  method StreamLiveBlocks(cfg: Config, items: seq<Item>, env: Environment, handler: DefaultReorgHandler, notify: bool)
    returns (open: bool, last: State)
    requires handler.Valid() && handler.buffer.capacity == cfg.capacity
    requires cfg.size >= 1 && Narrow(items)
    modifies env, handler.buffer
    ensures handler.Valid()
    ensures Leaves(StreamLive(cfg, items, notify, old(handler.buffer.inner), old(env.w)),
                   open, last, handler.buffer.inner, env.w)
  {
    last := State(cfg.streamStart, None);
    var i := 0;
    while i < |items| && Skipped(cfg, items[i])
      invariant i <= |items|
      invariant SkipWhile(cfg, items[i..]) == SkipWhile(cfg, items)
    {
      assert items[i..][1..] == items[i + 1..];
      i := i + 1;
    }
    assert SkipWhile(cfg, items) == items[i..];
    if i == |items| {
      return false, last;
    }
    if items[i].Failed? {
      var _ := env.TryStream(Error(items[i].error));
      return false, last;
    }
    if notify {
      open := env.TryStream(SwitchingToLive);
      if !open {
        return;
      }
    }
    var confirmed := Confirmed(cfg, items[i].number);
    StreamRangeAbove(Params(MinCommonAncestor(cfg), confirmed, cfg.size, cfg.capacity),
                     cfg.streamStart, None, handler.buffer.inner, env.w);
    var previous := StreamRangeWithReorgHandling(
      MinCommonAncestor(cfg), cfg.streamStart, confirmed, cfg.size, env, handler);
    if previous == None {
      return false, last;
    }
    var state := new LiveStreamingState(cfg.streamStart, previous);
    assert items[i..][1..] == items[i + 1..];
    open := StreamBlocksContinuously(cfg, items[i + 1..], state, env, handler);
    last := state.Value();
  }

  // -------------------------------------------------------------------------
  // The live stream is sound
  // -------------------------------------------------------------------------

  /** With a previous batch end, the consumer's view ends with it; without one, the view
      stays below the stream start. */
  ghost predicate StateIsTrue(m: Monitor, state: State, buffer: seq<Block>, s: nat, origin: nat) {
    match state.previousBatchEnd
    case Some(block) => Streamed(m, buffer, block, s, origin) && Settled(m)
    case None => Ready(m, buffer, s, s, origin) && Settled(m)
  }

  ghost predicate LiveIsSound(m: Monitor, live: Live, s: nat, origin: nat) {
    var m' := Watch(m, live.w.history);
    && Judged(m')
    && (live.Open? ==> StateIsTrue(m', live.state, live.buffer, s, origin))
  }

  lemma NextBatchIsSound(m: Monitor, cfg: Config, batchEnd: nat, state: State, buffer: seq<Block>, w: World, origin: nat)
    requires cfg.size >= 1
    requires batchEnd < state.batchStart ==> LiveIsSound(m, Open(state, buffer, w), cfg.streamStart, origin)
    requires Ready(Watch(m, w.history), buffer, state.batchStart, cfg.streamStart, origin)
    ensures LiveIsSound(m, NextBatch(cfg, batchEnd, state, buffer, w), cfg.streamStart, origin)
  {
    if state.batchStart <= batchEnd {
      var p := Params(MinCommonAncestor(cfg), batchEnd, cfg.size, cfg.capacity);
      StreamedToEnd(m, p, state.batchStart, buffer, w, cfg.streamStart, origin);
      hide Watch, Ready, Streamed, Settled, Judged, StreamRange;
    }
  }

  /** A call on an interval that is not empty. */
  lemma StreamedToEnd(m: Monitor, p: Params, cursor: nat, buffer: seq<Block>, w: World, s: nat, origin: nat)
    requires p.size >= 1 && p.minCommonAncestor == SaturatingSub(s, 1) && cursor <= p.end
    requires Ready(Watch(m, w.history), buffer, cursor, s, origin)
    ensures var outcome := StreamRange(p, cursor, None, buffer, w);
            var m' := Watch(m, outcome.w.history);
            && Judged(m')
            && (outcome.Done? && outcome.last.Some? ==>
                  Streamed(m', outcome.buffer, outcome.last.value, s, origin) && Settled(m'))
  {
    hide Watch, Ready, StreamRange;
    StreamRangeIsSound(m, p, cursor, None, buffer, w, s, origin);
    hide Canonical, Coherent, Known, Placed;
  }

  lemma CheckPreviousIsSound(m: Monitor, cfg: Config, previous: Block, buffer: seq<Block>, w: World, origin: nat)
    requires Streamed(Watch(m, w.history), buffer, previous, cfg.streamStart, origin)
    ensures var live := CheckPrevious(cfg, previous, buffer, w);
            && LiveIsSound(m, live, cfg.streamStart, origin)
            && (live.Open? ==> Ready(Watch(m, live.w.history), live.buffer, live.state.batchStart, cfg.streamStart, origin))
  {
    var (answer, buffer', w1) := CheckNow(w, buffer, cfg.capacity, previous);
    CheckKeeps(m, w, buffer, cfg.capacity, previous, cfg.streamStart, origin);
    if answer.Err? {
      ReportKeeps(m, w1, answer.error);
    } else if answer.value.Some? {
      var a := answer.value.value;
      var (open, w2) := Send(w1, ReorgDetected(a.number));
      if open {
        BackAtReady(Watch(m, w2.history), buffer', a, cfg.streamStart, origin);
      }
    }
  }

  lemma OnItemIsSound(m: Monitor, cfg: Config, item: Item, live: Live, origin: nat)
    requires cfg.size >= 1 && live.Open?
    requires LiveIsSound(m, live, cfg.streamStart, origin)
    ensures LiveIsSound(m, OnItem(cfg, item, live.state, live.buffer, live.w), cfg.streamStart, origin)
  {
    match item {
      case Lagged =>
      case Failed(e) => ReportKeeps(m, live.w, e);
      case Header(number) =>
        if live.state.previousBatchEnd.Some? {
          var previous := live.state.previousBatchEnd.value;
          CheckPreviousIsSound(m, cfg, previous, live.buffer, live.w, origin);
          var mid := CheckPrevious(cfg, previous, live.buffer, live.w);
          if mid.Open? {
            NextBatchIsSound(m, cfg, Confirmed(cfg, number), mid.state, mid.buffer, mid.w, origin);
          }
        }
    }
  }

  lemma {:induction false} ContinueIsSound(m: Monitor, cfg: Config, items: seq<Item>, live: Live, origin: nat)
    requires cfg.size >= 1
    requires LiveIsSound(m, live, cfg.streamStart, origin)
    ensures LiveIsSound(m, Continue(cfg, items, live), cfg.streamStart, origin)
    decreases |items|
  {
    if items != [] && live.Open? {
      OnItemIsSound(m, cfg, items[0], live, origin);
      ContinueIsSound(m, cfg, items[1..], OnItem(cfg, items[0], live.state, live.buffer, live.w), origin);
    }
  }

  lemma InitializeIsSound(m: Monitor, cfg: Config, confirmed: nat, buffer: seq<Block>, w: World, origin: nat)
    requires cfg.size >= 1 && cfg.streamStart <= confirmed
    requires Ready(Watch(m, w.history), buffer, cfg.streamStart, cfg.streamStart, origin)
    ensures LiveIsSound(m, Initialize(cfg, confirmed, buffer, w), cfg.streamStart, origin)
  {
    var p := Params(MinCommonAncestor(cfg), confirmed, cfg.size, cfg.capacity);
    StreamedToEnd(m, p, cfg.streamStart, buffer, w, cfg.streamStart, origin);
    hide Watch, Ready, Streamed, Settled, Judged, StreamRange;
  }

  lemma SwitchKeepsReady(m: Monitor, buffer: seq<Block>, s: nat, origin: nat, c: Chain)
    requires Ready(m, buffer, s, s, origin)
    ensures Ready(Observe(m, Sent(SwitchingToLive, c)), buffer, s, s, origin)
  {
  }

  lemma StreamLiveIsSound(m: Monitor, cfg: Config, items: seq<Item>, notify: bool, buffer: seq<Block>, w: World, origin: nat)
    requires cfg.size >= 1
    requires Ready(Watch(m, w.history), buffer, cfg.streamStart, cfg.streamStart, origin)
    ensures LiveIsSound(m, StreamLive(cfg, items, notify, buffer, w), cfg.streamStart, origin)
  {
    hide Watch, Ready, Streamed, Settled, Judged, Initialize, Observe, StateIsTrue;
    ReadyIsJudged(Watch(m, w.history), buffer, cfg.streamStart, cfg.streamStart, origin);
    var relevant := SkipWhile(cfg, items);
    if relevant != [] {
      if relevant[0].Failed? {
        ReportKeeps(m, w, relevant[0].error);
      } else {
        var (open, w1) := if notify then Send(w, SwitchingToLive) else (true, w);
        if notify && open {
          SwitchKeepsReady(Watch(m, w.history), buffer, cfg.streamStart, origin, Now(w).chain);
          WatchNoted(m, Later(w), Sent(SwitchingToLive, Now(w).chain));
        }
        if open {
          var confirmed := Confirmed(cfg, relevant[0].number);
          InitializeIsSound(m, cfg, confirmed, buffer, w1, origin);
          ContinueIsSound(m, cfg, relevant[1..], Initialize(cfg, confirmed, buffer, w1), origin);
        }
      }
    }
  }

  /** Over every run of a live stream, with any number of reorgs, in an environment that
      keeps to the windows: after every event at which the scanner has looked at everything
      streamed the consumer's view is canonical; and between two items it is exactly the
      canonical chain up to the previous batch end, starting at the stream start or one block
      below it, or nothing at or above the stream start when no previous batch end is left. */
  lemma LiveReplayIsCanonical(cfg: Config, items: seq<Item>, notify: bool, future: seq<Moment>)
    requires cfg.size >= 1
    ensures var live := StreamLive(cfg, items, notify, [], World(future, []));
            var m := Watch(START, live.w.history);
            && Judged(m)
            && (live.Open? && m.faithful ==>
                  && m.view.intact
                  && match live.state.previousBatchEnd
                     case Some(end) =>
                       && OnChain(m.base, end)
                       && SaturatingSub(cfg.streamStart, 1) <= m.view.low <= Min(cfg.streamStart, end.number)
                       && m.view.held == Blocks(m.base, m.view.low, end.number + 1)
                     case None =>
                       forall i | 0 <= i < |m.view.held| :: m.view.held[i].number < cfg.streamStart)
  {
    hide StreamLive, Watch;
    WatchNothing(START);
    StreamLiveIsSound(START, cfg, items, notify, [], World(future, []), cfg.streamStart);
  }

  lemma NextBatchReaches(m: Monitor, cfg: Config, batchEnd: nat, state: State, buffer: seq<Block>, w: World, origin: nat)
    requires cfg.size >= 1
    requires Ready(Watch(m, w.history), buffer, state.batchStart, cfg.streamStart, origin)
    ensures var live := NextBatch(cfg, batchEnd, state, buffer, w);
            live.Open? && Watch(m, live.w.history).faithful ==>
              if batchEnd < state.batchStart then live.state == state
              else live.state.previousBatchEnd.Some? && live.state.previousBatchEnd.value.number == batchEnd
  {
    if state.batchStart <= batchEnd {
      var p := Params(MinCommonAncestor(cfg), batchEnd, cfg.size, cfg.capacity);
      StreamRangeIsSound(m, p, state.batchStart, None, buffer, w, cfg.streamStart, origin);
    }
  }

  /** Progress: a header that finds a previous batch end takes the stream at least up to its
      confirmed height, unless a reorg below the stream start leaves nothing confirmed to
      stream. */
  lemma HeaderIsCaughtUp(m: Monitor, cfg: Config, number: nat, live: Live, origin: nat)
    requires cfg.size >= 1 && live.Open? && live.state.previousBatchEnd.Some?
    requires LiveIsSound(m, live, cfg.streamStart, origin)
    ensures var next := OnItem(cfg, Header(number), live.state, live.buffer, live.w);
            next.Open? && Watch(m, next.w.history).faithful ==>
              match next.state.previousBatchEnd
              case Some(end) => Confirmed(cfg, number) <= end.number
              case None => Confirmed(cfg, number) < cfg.streamStart
  {
    var previous := live.state.previousBatchEnd.value;
    CheckPreviousIsSound(m, cfg, previous, live.buffer, live.w, origin);
    var mid := CheckPrevious(cfg, previous, live.buffer, live.w);
    hide Watch, LiveIsSound, CheckOn;
    if mid.Open? {
      NextBatchReaches(m, cfg, Confirmed(cfg, number), mid.state, mid.buffer, mid.w, origin);
      hide NextBatch;
    }
  }

  /** The same for the buffer: over every live run its heights are strictly increasing, and
      all its entries are canonical on the last snapshot and no higher than the stream. */
  lemma LiveBufferIsTrue(cfg: Config, items: seq<Item>, notify: bool, future: seq<Moment>)
    requires cfg.size >= 1
    ensures var live := StreamLive(cfg, items, notify, [], World(future, []));
            var m := Watch(START, live.w.history);
            live.Open? && m.faithful ==> Increasing(live.buffer) && TrueTo(m.base, live.buffer, m.view.mark)
  {
    hide StreamLive, Watch;
    WatchNothing(START);
    StreamLiveIsSound(START, cfg, items, notify, [], World(future, []), cfg.streamStart);
  }
}
