/** What the confirmation depth buys: reorgs that stay above the streamed blocks are
    invisible, and nothing unconfirmed is streamed. */
module Confirmations {
  import opened Wrappers
  import opened U64
  import opened Chains
  import opened RangeIterator
  import opened RingBuffers
  import opened ReorgHandler
  import opened Outside
  import opened Replay
  import opened RangeStream
  import opened LiveStream

  // -------------------------------------------------------------------------
  // Bounds of the streamed ranges, in any environment
  // -------------------------------------------------------------------------

  /** All streamed ranges lie in `lo..=hi`. */
  ghost predicate Within(h: seq<Event>, lo: nat, hi: nat) {
    forall i | 0 <= i < |h| && h[i].Sent? && h[i].message.Data? ::
      lo <= h[i].message.range.lo <= h[i].message.range.hi <= hi
  }

  ghost predicate HeadsConfirmAtMost(cfg: Config, items: seq<Item>, n: nat) {
    forall i | 0 <= i < |items| && items[i].Header? :: SaturatingSub(items[i].number, cfg.confirmations) <= n
  }

  lemma StreamRangeWithin(p: Params, cursor: nat, buffer: seq<Block>, w: World, n: nat)
    requires p.size >= 1 && p.minCommonAncestor <= cursor && p.minCommonAncestor <= p.end <= n
    requires Within(w.history, p.minCommonAncestor, n)
    ensures Within(StreamRange(p, cursor, None, buffer, w).w.history, p.minCommonAncestor, n)
  {
    var emitted := StreamKeepsDiscipline(p, cursor, None, buffer, w);
    DisciplinedLogIsBounded(p, cursor, emitted);
  }

  lemma OnItemWithin(cfg: Config, item: Item, live: Live, n: nat)
    requires cfg.size >= 1 && live.Open? && AboveBound(cfg, live.state)
    requires Within(live.w.history, MinCommonAncestor(cfg), n)
    requires item.Header? ==> Confirmed(cfg, item.number) <= n
    ensures var live' := OnItem(cfg, item, live.state, live.buffer, live.w);
            && Within(live'.w.history, MinCommonAncestor(cfg), n)
            && (live'.Open? ==> AboveBound(cfg, live'.state))
  {
    hide CheckOn, StreamRange;
    if item.Header? && live.state.previousBatchEnd.Some? {
      var mid := CheckPrevious(cfg, live.state.previousBatchEnd.value, live.buffer, live.w);
      var confirmed := Confirmed(cfg, item.number);
      if mid.Open? && mid.state.batchStart <= confirmed {
        var p := Params(MinCommonAncestor(cfg), confirmed, cfg.size, cfg.capacity);
        StreamRangeWithin(p, mid.state.batchStart, mid.buffer, mid.w, n);
        StreamRangeAbove(p, mid.state.batchStart, None, mid.buffer, mid.w);
      }
    }
  }

  lemma {:induction false} ContinueWithin(cfg: Config, items: seq<Item>, live: Live, n: nat)
    requires cfg.size >= 1 && (live.Open? ==> AboveBound(cfg, live.state))
    requires Within(live.w.history, MinCommonAncestor(cfg), n) && HeadsConfirmAtMost(cfg, items, n)
    ensures Within(Continue(cfg, items, live).w.history, MinCommonAncestor(cfg), n)
    decreases |items|
  {
    if items != [] && live.Open? {
      OnItemWithin(cfg, items[0], live, n);
      ContinueWithin(cfg, items[1..], OnItem(cfg, items[0], live.state, live.buffer, live.w), n);
    }
  }

  lemma {:induction false} SkipWhileSuffix(cfg: Config, items: seq<Item>) returns (k: nat)
    ensures k <= |items| && SkipWhile(cfg, items) == items[k..]
    ensures forall i | 0 <= i < k :: Skipped(cfg, items[i])
    ensures k < |items| ==> !Skipped(cfg, items[k])
  {
    if items == [] || !Skipped(cfg, items[0]) {
      k := 0;
    } else {
      k := SkipWhileSuffix(cfg, items[1..]);
      k := k + 1;
    }
  }

  /** Whatever the environment does, a live run streams nothing above the confirmed height
      of the headers it has seen, and nothing more than one block below the stream start. */
  lemma NothingUnconfirmedIsStreamed(cfg: Config, items: seq<Item>, notify: bool, future: seq<Moment>, n: nat)
    requires cfg.size >= 1 && HeadsConfirmAtMost(cfg, items, n)
    ensures Within(StreamLive(cfg, items, notify, [], World(future, [])).w.history, SaturatingSub(cfg.streamStart, 1), n)
  {
    var w := World(future, []);
    var k := SkipWhileSuffix(cfg, items);
    var relevant := SkipWhile(cfg, items);
    if relevant != [] && !relevant[0].Failed? {
      var (open, w1) := if notify then Send(w, SwitchingToLive) else (true, w);
      if open {
        assert relevant[0] == items[k];
        var confirmed := Confirmed(cfg, relevant[0].number);
        var p := Params(MinCommonAncestor(cfg), confirmed, cfg.size, cfg.capacity);
        StreamRangeWithin(p, cfg.streamStart, [], w1, n);
        StreamRangeAbove(p, cfg.streamStart, None, [], w1);
        assert forall i | 0 <= i < |relevant[1..]| :: relevant[1..][i] == items[k + 1 + i];
        ContinueWithin(cfg, relevant[1..], Initialize(cfg, confirmed, [], w1), n);
      }
    }
  }

  // -------------------------------------------------------------------------
  // Reorgs above the confirmed blocks
  // -------------------------------------------------------------------------

  /** The first `n` blocks of `a`, or all of them if there are fewer, are in `b`. */
  predicate KeepsBelow(a: Chain, b: Chain, n: nat) {
    AgreeBelow(a, b, Min(n, |a.blocks|))
  }

  /** From now on no reorg reaches below height `n`. */
  ghost predicate Stays(future: seq<Moment>, n: nat) {
    forall i, j | 0 <= i < j < |future| :: KeepsBelow(future[i].chain, future[j].chain, n)
  }

  /** No reorg ever reaches below a confirmed block: from the arrival of each header on, the
      blocks up to the height it confirms stay. Above that height anything may happen. */
  ghost predicate ConfirmedStay(cfg: Config, items: seq<Item>, live: Live)
    requires cfg.size >= 1
    decreases |items|
  {
    items != [] && live.Open? ==>
      && (items[0].Header? ==> Stays(live.w.future, Confirmed(cfg, items[0].number) + 1))
      && ConfirmedStay(cfg, items[1..], OnItem(cfg, items[0], live.state, live.buffer, live.w))
  }

  /** The world in which the first relevant header is processed. */
  function FirstHeader(notify: bool, future: seq<Moment>): World {
    if notify then Send(World(future, []), SwitchingToLive).1 else World(future, [])
  }

  ghost predicate LiveConfirmedStay(cfg: Config, items: seq<Item>, notify: bool, future: seq<Moment>)
    requires cfg.size >= 1
  {
    var relevant := SkipWhile(cfg, items);
    relevant != [] && relevant[0].Header? ==>
      var w := FirstHeader(notify, future);
      var confirmed := Confirmed(cfg, relevant[0].number);
      Stays(w.future, confirmed + 1) && ConfirmedStay(cfg, relevant[1..], Initialize(cfg, confirmed, [], w))
  }

  /** From `base` on, nothing below height `n` changes. */
  ghost predicate Lasts(base: Chain, future: seq<Moment>, n: nat) {
    n <= |base.blocks| && forall i | 0 <= i < |future| :: AgreeBelow(base, future[i].chain, n)
  }

  /** A run that has not seen a reorg, and from which on nothing that was streamed changes. */
  ghost predicate Calm(m: Monitor, w: World, s: nat) {
    && m.faithful && NoReorg(w.history) && m.final == 0 && m.view.low <= m.view.mark
    && Lasts(m.base, w.future, m.view.mark)
    && Accords(m.view.sources, m.base, m.view.mark)
    && (forall i | 0 <= i < |m.view.sources| :: m.view.sources[i].upTo <= m.view.mark)
    && (m.view.low < m.view.mark ==> m.view.low == s)
  }

  lemma LastsLater(base: Chain, w: World, n: nat)
    requires Lasts(base, w.future, n)
    ensures Lasts(base, Later(w).future, n)
    ensures w.future != [] ==> AgreeBelow(base, Now(w).chain, n) && Lasts(Now(w).chain, Later(w).future, n)
  {
    if w.future != [] {
      assert w.future[0] == Now(w);
      forall i | 0 <= i < |Later(w).future|
        ensures AgreeBelow(Now(w).chain, Later(w).future[i].chain, n)
      {
        assert Later(w).future[i] == w.future[i + 1];
      }
    }
  }

  lemma StaysLater(w: World, n: nat, k: nat)
    requires Stays(w.future, n) && k <= n
    ensures Stays(Later(w).future, n)
    ensures w.future != [] && k <= |Now(w).chain.blocks| ==> Lasts(Now(w).chain, Later(w).future, k)
  {
    if w.future != [] {
      forall i | 0 <= i < |Later(w).future|
        ensures k <= |Now(w).chain.blocks| ==> AgreeBelow(Now(w).chain, Later(w).future[i].chain, k)
      {
        assert KeepsBelow(w.future[0].chain, w.future[i + 1].chain, n);
        AgreeLessIf(w.future[0].chain, w.future[i + 1].chain, Min(n, |w.future[0].chain.blocks|), k);
      }
    }
  }

  /** What is in accord with one snapshot is in accord with every other as far as they agree. */
  lemma AccordsVia(sources: seq<Source>, a: Chain, b: Chain, mark: nat, n: nat)
    requires Accords(sources, a, mark) && AgreeBelow(a, b, n)
    requires forall i | 0 <= i < |sources| :: sources[i].upTo <= mark
    ensures Accords(sources, b, n)
  {
    forall i | 0 <= i < |sources|
      ensures Agrees(sources[i], b, n)
    {
      var x := sources[i];
      assert Agrees(x, a, mark);
      if x.from < n && x.from < x.upTo {
        AgreeLess(x.chain, a, x.upTo, Min(n, x.upTo));
        AgreeLess(a, b, n, Min(n, x.upTo));
      }
    }
  }

  lemma TrustedAccords(v: Consumer, c: Chain)
    requires v.mark <= |c.blocks|
    ensures Accords(Trusted(v, c).sources, c, v.mark)
  {
  }

  lemma CalmReport(m: Monitor, w: World, e: ScannerError, s: nat)
    requires Calm(Watch(m, w.history), w, s)
    ensures var w' := Report(w, e);
            NoReorg(w'.history) && Watch(m, w'.history).faithful
  {
    hide Accords, Lasts;
    WatchNoted(m, Later(w), Sent(Error(e), Now(w).chain));
  }

  lemma CalmAnchored(m: Monitor, w: World, s: nat)
    requires Calm(m, w, s) && w.future != []
    ensures var e := Anchored(Now(w).chain, 0);
            Calm(Observe(m, e), Noted(Later(w), e), s)
  {
    LastsLater(m.base, w, m.view.mark);
    AccordsVia(m.view.sources, m.base, Now(w).chain, m.view.mark, m.view.mark);
    TrustedAccords(m.view, Now(w).chain);
    hide Accords, Lasts, Canonical, AgreeBelow;
  }

  lemma CalmLater(m: Monitor, w: World, s: nat)
    requires Calm(m, w, s)
    ensures Calm(m, Later(w), s)
  {
    LastsLater(m.base, w, m.view.mark);
    hide Accords, Lasts;
  }

  /** The same view over the snapshot that was fetched. */
  ghost predicate Fetched(m: Monitor, m': Monitor, w': World, block: Block, s: nat) {
    && Calm(m', w', s) && OnChain(m'.base, block)
    && Lasts(m'.base, w'.future, block.number + 1)
    && m'.view.low == m.view.low && m'.view.mark == m.view.mark
  }

  lemma CalmFetch(m: Monitor, w: World, k: nat, s: nat, n: nat)
    requires Calm(Watch(m, w.history), w, s) && Stays(w.future, n) && k < n
    ensures var (r, w') := Fetch(w, k);
            && NoReorg(w'.history) && Watch(m, w'.history).faithful
            && (r.Err? ==> Calm(Watch(m, w'.history), w', s))
            && (r.Ok? ==>
                  && Fetched(Watch(m, w.history), Watch(m, w'.history), w', r.value, s) && r.value.number == k
                  && Stays(w'.future, n))
  {
    hide Observe, Accords, NoReorg;
    var m0 := Watch(m, w.history);
    CalmLater(m0, w, s);
    if Now(w).rpcUp && k < |Now(w).chain.blocks| {
      CalmAnchored(m0, w, s);
      WatchNoted(m, Later(w), Anchored(Now(w).chain, 0));
      StaysLater(w, n, k + 1);
      AnchoredView(m0, Now(w).chain);
      hide Lasts, Stays, AgreeBelow;
    }
  }

  lemma AnchoredView(m: Monitor, c: Chain)
    ensures var m' := Observe(m, Anchored(c, 0)); m'.base == c && m'.view.low == m.view.low && m'.view.mark == m.view.mark
  {
    hide Accords, Canonical;
  }

  lemma CalmSent(m: Monitor, w: World, r: Range, s: nat)
    requires Calm(m, w, s) && w.future != []
    requires r.lo <= r.hi && Lasts(m.base, w.future, r.hi + 1)
    requires if m.view.low < m.view.mark then r.lo == m.view.mark else r.lo == s && m.view.mark <= s
    ensures var e := Sent(Data(r), Now(w).chain);
            var m' := Observe(m, e);
            && Calm(m', Noted(Later(w), e), s)
            && m'.view.mark == r.hi + 1 && m'.base == m.base && m'.view.low < m'.view.mark
  {
    hide Accords, Lasts, Canonical, Read, AgreeBelow, NoReorg;
    var c := Now(w).chain;
    LastsLater(m.base, w, r.hi + 1);
    SentAccords(m.view.sources, m.base, m.view.mark, r, c);
    NoReorgNoted(w.history, Sent(Data(r), c));
  }

  lemma NoReorgNoted(h: seq<Event>, e: Event)
    requires NoReorg(h) && (e.Sent? ==> !e.message.ReorgDetected?)
    ensures NoReorg(h + [e])
  {
  }

  lemma SentAccords(sources: seq<Source>, base: Chain, mark: nat, r: Range, c: Chain)
    requires Accords(sources, base, mark) && mark <= r.hi + 1 && AgreeBelow(base, c, r.hi + 1)
    requires forall i | 0 <= i < |sources| :: sources[i].upTo <= mark
    ensures var all := sources + [Source(c, r.lo, r.hi + 1)];
            Accords(all, base, r.hi + 1) && forall i | 0 <= i < |all| :: all[i].upTo <= r.hi + 1
  {
    var all := sources + [Source(c, r.lo, r.hi + 1)];
    forall i | 0 <= i < |all|
      ensures Agrees(all[i], base, r.hi + 1) && all[i].upTo <= r.hi + 1
    {
      if i < |sources| {
        assert all[i] == sources[i] && Agrees(sources[i], base, mark);
      }
    }
  }

  lemma CalmData(m: Monitor, w: World, r: Range, s: nat)
    requires var m0 := Watch(m, w.history);
             && Calm(m0, w, s)
             && r.lo <= r.hi && Lasts(m0.base, w.future, r.hi + 1)
             && if m0.view.low < m0.view.mark then r.lo == m0.view.mark else r.lo == s && m0.view.mark <= s
    ensures var (open, w') := Send(w, Data(r));
            var m0 := Watch(m, w.history);
            var m' := Watch(m, w'.history);
            && m'.faithful && NoReorg(w'.history)
            && (open ==> Calm(m', w', s) && m'.view.mark == r.hi + 1 && m'.base == m0.base && m'.view.low < m'.view.mark)
  {
    if Now(w).receiverUp {
      WatchNoted(m, Later(w), Sent(Data(r), Now(w).chain));
      CalmSent(Watch(m, w.history), w, r, s);
      hide Observe, Watch, NoReorg, Lasts, Accords;
    }
  }

  lemma CalmChecked(m: Monitor, w: World, buffer: seq<Block>, s: nat)
    requires Calm(m, w, s) && w.future != []
    ensures var e := Checked(Now(w).chain, buffer, false);
            var m' := Observe(m, e);
            && Calm(m', Noted(Later(w), e), s)
            && m'.base == Now(w).chain && m'.view.mark == m.view.mark && m'.view.low == m.view.low
  {
    var c := Now(w).chain;
    LastsLater(m.base, w, m.view.mark);
    AccordsVia(m.view.sources, m.base, c, m.view.mark, CommonLength(m.base, c));
    TrustedAccords(m.view, c);
    hide Accords, Lasts, Canonical, AgreeBelow;
  }

  /** A calm run whose view ends with this block. */
  ghost predicate CalmAt(m: Monitor, w: World, block: Block, s: nat) {
    Calm(m, w, s) && m.view.low < m.view.mark == block.number + 1 && OnChain(m.base, block)
  }

  lemma CalmCheck(m: Monitor, w: World, buffer: seq<Block>, capacity: Capacity, block: Block, s: nat)
    requires CalmAt(Watch(m, w.history), w, block, s)
    ensures var (r, _, w') := CheckNow(w, buffer, capacity, block);
            && (r.Ok? ==> r.value == None)
            && CalmAt(Watch(m, w'.history), w', block, s)
  {
    hide Observe, Watch, Accords, NoReorg, AgreeBelow, Remember, CommonAncestor;
    var m0 := Watch(m, w.history);
    CalmLater(m0, w, s);
    if Now(w).rpcUp {
      LastsLater(m0.base, w, m0.view.mark);
      SharedBlock(m0.base, Now(w).chain, block);
      CalmChecked(m0, w, buffer, s);
      WatchNoted(m, Later(w), Checked(Now(w).chain, buffer, false));
    }
  }

  ghost predicate CalmStep(m: Monitor, step: Step, s: nat) {
    var m' := Watch(m, step.w.history);
    && m'.faithful && NoReorg(step.w.history)
    && (step.Next? ==> CalmAt(m', step.w, step.batchEnd, s) && step.cursor == step.batchEnd.number + 1)
  }

  ghost predicate CalmOutcome(m: Monitor, outcome: Outcome, s: nat) {
    var m' := Watch(m, outcome.w.history);
    && m'.faithful && NoReorg(outcome.w.history)
    && (outcome.Done? && outcome.last.Some? ==> CalmAt(m', outcome.w, outcome.last.value, s))
  }

  lemma CalmCheckBatch(m: Monitor, p: Params, block: Block, buffer: seq<Block>, w: World, s: nat)
    requires CalmAt(Watch(m, w.history), w, block, s)
    ensures CalmStep(m, CheckBatch(p, block, buffer, w), s)
  {
    hide Watch, CheckNow;
    var (r, _, w1) := CheckNow(w, buffer, p.capacity, block);
    CalmCheck(m, w, buffer, p.capacity, block, s);
    if r.Err? {
      CalmReport(m, w1, r.error, s);
    }
    hide NoReorg, Lasts, Accords;
  }

  lemma CalmBatch(m: Monitor, p: Params, cursor: nat, buffer: seq<Block>, w: World, s: nat, n: nat)
    requires p.size >= 1 && cursor <= p.end < n && Stays(w.future, n)
    requires var m0 := Watch(m, w.history);
             && Calm(m0, w, s)
             && if m0.view.low < m0.view.mark then cursor == m0.view.mark else cursor == s && m0.view.mark <= s
    ensures CalmStep(m, BatchStep(p, cursor, buffer, w), s)
  {
    hide Watch, NoReorg, Lasts, Accords, Stays, CheckBatch, Fetch;
    var batch := Range(cursor, BatchEnd(cursor, p.end, p.size));
    var (fetched, w1) := Fetch(w, batch.hi);
    CalmFetch(m, w, batch.hi, s, n);
    if fetched.Err? {
      CalmReport(m, w1, fetched.error, s);
    } else {
      var (open, w2) := Send(w1, Data(batch));
      CalmData(m, w1, batch, s);
      hide Send;
      if open {
        CalmCheckBatch(m, p, fetched.value, buffer, w2, s);
      }
    }
  }

  // -------------------------------------------------------------------------
  // What is left of the timeline
  // -------------------------------------------------------------------------

  lemma LaterSuffix(w: World)
    ensures IsSuffix(Later(w).future, w.future)
  {
  }

  lemma CheckSuffix(w: World, buffer: seq<Block>, capacity: Capacity, block: Block)
    ensures IsSuffix(CheckNow(w, buffer, capacity, block).2.future, w.future)
  {
    LaterSuffix(w);
    hide IsSuffix, CheckOn;
  }

  lemma SendSuffix(w: World, message: Message)
    ensures IsSuffix(Send(w, message).1.future, w.future)
  {
    LaterSuffix(w);
    hide IsSuffix;
  }

  lemma CheckBatchSuffix(p: Params, block: Block, buffer: seq<Block>, w: World)
    ensures IsSuffix(CheckBatch(p, block, buffer, w).w.future, w.future)
  {
    hide IsSuffix, CheckNow, Send;
    var (r, _, w1) := CheckNow(w, buffer, p.capacity, block);
    CheckSuffix(w, buffer, p.capacity, block);
    var message := match r { case Err(e) => Error(e) case Ok(None) => SwitchingToLive case Ok(Some(a)) => ReorgDetected(a.number) };
    SendSuffix(w1, message);
    SuffixTransitive(Send(w1, message).1.future, w1.future, w.future);
  }

  lemma BatchSuffix(p: Params, cursor: nat, buffer: seq<Block>, w: World)
    requires p.size >= 1 && cursor <= p.end
    ensures IsSuffix(BatchStep(p, cursor, buffer, w).w.future, w.future)
  {
    hide IsSuffix, Send, CheckBatch;
    var batch := Range(cursor, BatchEnd(cursor, p.end, p.size));
    var (fetched, w1) := Fetch(w, batch.hi);
    LaterSuffix(w);
    var message := if fetched.Ok? then Data(batch) else Error(fetched.error);
    var w2 := Send(w1, message).1;
    SendSuffix(w1, message);
    SuffixTransitive(w2.future, w1.future, w.future);
    if fetched.Ok? {
      CheckBatchSuffix(p, fetched.value, buffer, w2);
      SuffixTransitive(CheckBatch(p, fetched.value, buffer, w2).w.future, w2.future, w.future);
    }
  }

  lemma {:induction false} StreamSuffix(p: Params, cursor: nat, last: Option<Block>, buffer: seq<Block>, w: World)
    requires p.size >= 1
    ensures IsSuffix(StreamRange(p, cursor, last, buffer, w).w.future, w.future)
    decreases |w.future|
  {
    if cursor > p.end {
      SuffixReflexive(w.future);
    } else {
      BatchSuffix(p, cursor, buffer, w);
      BatchConsumes(p, cursor, buffer, w);
      hide IsSuffix, BatchStep;
      var step := BatchStep(p, cursor, buffer, w);
      if step.Next? {
        StreamSuffix(p, step.cursor, Some(step.batchEnd), step.buffer, step.w);
        SuffixTransitive(StreamRange(p, step.cursor, Some(step.batchEnd), step.buffer, step.w).w.future, step.w.future, w.future);
      }
    }
  }

  lemma CheckPreviousSuffix(cfg: Config, previous: Block, buffer: seq<Block>, w: World)
    ensures IsSuffix(CheckPrevious(cfg, previous, buffer, w).w.future, w.future)
  {
    hide IsSuffix, CheckNow, Send;
    var (r, _, w1) := CheckNow(w, buffer, cfg.capacity, previous);
    CheckSuffix(w, buffer, cfg.capacity, previous);
    var message := match r { case Err(e) => Error(e) case Ok(None) => SwitchingToLive case Ok(Some(a)) => ReorgDetected(a.number) };
    SendSuffix(w1, message);
    SuffixTransitive(Send(w1, message).1.future, w1.future, w.future);
  }

  lemma NextBatchSuffix(cfg: Config, batchEnd: nat, state: State, buffer: seq<Block>, w: World)
    requires cfg.size >= 1
    ensures IsSuffix(NextBatch(cfg, batchEnd, state, buffer, w).w.future, w.future)
  {
    SuffixReflexive(w.future);
    StreamSuffix(Params(MinCommonAncestor(cfg), batchEnd, cfg.size, cfg.capacity), state.batchStart, None, buffer, w);
    hide IsSuffix, StreamRange;
  }

  lemma ItemSuffix(cfg: Config, item: Item, state: State, buffer: seq<Block>, w: World)
    requires cfg.size >= 1
    ensures IsSuffix(OnItem(cfg, item, state, buffer, w).w.future, w.future)
  {
    SuffixReflexive(w.future);
    LaterSuffix(w);
    hide IsSuffix, CheckPrevious, NextBatch;
    if item.Header? && state.previousBatchEnd.Some? {
      var previous := state.previousBatchEnd.value;
      CheckPreviousSuffix(cfg, previous, buffer, w);
      var mid := CheckPrevious(cfg, previous, buffer, w);
      if mid.Open? {
        var confirmed := Confirmed(cfg, item.number);
        NextBatchSuffix(cfg, confirmed, mid.state, mid.buffer, mid.w);
        SuffixTransitive(NextBatch(cfg, confirmed, mid.state, mid.buffer, mid.w).w.future, mid.w.future, w.future);
      }
    }
  }

  lemma SuffixStays(a: seq<Moment>, b: seq<Moment>, n: nat)
    requires IsSuffix(a, b) && Stays(b, n)
    ensures Stays(a, n)
  {
    forall i, j | 0 <= i < j < |a|
      ensures KeepsBelow(a[i].chain, a[j].chain, n)
    {
      assert a[i] == b[|b| - |a| + i] && a[j] == b[|b| - |a| + j];
    }
  }

  // -------------------------------------------------------------------------
  // Reorgs above the confirmed blocks are invisible
  // -------------------------------------------------------------------------

  lemma {:induction false} CalmStream(m: Monitor, p: Params, cursor: nat, last: Option<Block>, buffer: seq<Block>, w: World, s: nat)
    requires p.size >= 1 && Stays(w.future, p.end + 1)
    requires var m0 := Watch(m, w.history);
             && Calm(m0, w, s)
             && if m0.view.low < m0.view.mark then cursor == m0.view.mark else cursor == s && m0.view.mark <= s
    requires last.Some? ==> CalmAt(Watch(m, w.history), w, last.value, s)
    ensures CalmOutcome(m, StreamRange(p, cursor, last, buffer, w), s)
    decreases |w.future|
  {
    hide BatchStep, Watch, Stays, NoReorg, Lasts, Accords;
    if cursor <= p.end {
      BatchConsumes(p, cursor, buffer, w);
      BatchSuffix(p, cursor, buffer, w);
      CalmBatch(m, p, cursor, buffer, w, s, p.end + 1);
      var step := BatchStep(p, cursor, buffer, w);
      if step.Next? {
        SuffixStays(step.w.future, w.future, p.end + 1);
        CalmStream(m, p, step.cursor, Some(step.batchEnd), step.buffer, step.w, s);
      }
    }
  }

  ghost predicate CalmLive(m: Monitor, live: Live, s: nat) {
    var m' := Watch(m, live.w.history);
    && m'.faithful && NoReorg(live.w.history)
    && (live.Open? ==>
          live.state.previousBatchEnd.Some? && CalmAt(m', live.w, live.state.previousBatchEnd.value, s))
  }

  lemma CalmNext(m: Monitor, cfg: Config, batchEnd: nat, state: State, buffer: seq<Block>, w: World)
    requires cfg.size >= 1 && Stays(w.future, batchEnd + 1)
    requires state.previousBatchEnd.Some? && state.batchStart == state.previousBatchEnd.value.number + 1
    requires CalmAt(Watch(m, w.history), w, state.previousBatchEnd.value, cfg.streamStart)
    ensures CalmLive(m, NextBatch(cfg, batchEnd, state, buffer, w), cfg.streamStart)
  {
    hide Watch, Stays, NoReorg, Lasts, Accords;
    if state.batchStart <= batchEnd {
      var p := Params(MinCommonAncestor(cfg), batchEnd, cfg.size, cfg.capacity);
      CalmStream(m, p, state.batchStart, None, buffer, w, cfg.streamStart);
      hide StreamRange;
    }
  }

  lemma CalmPrevious(m: Monitor, cfg: Config, previous: Block, buffer: seq<Block>, w: World)
    requires CalmAt(Watch(m, w.history), w, previous, cfg.streamStart)
    ensures var live := CheckPrevious(cfg, previous, buffer, w);
            && CalmLive(m, live, cfg.streamStart)
            && (live.Open? ==> live.state == State(previous.number + 1, Some(previous)))
  {
    hide Watch, NoReorg, Lasts, Accords, CheckNow;
    var (r, buffer', w1) := CheckNow(w, buffer, cfg.capacity, previous);
    CalmCheck(m, w, buffer, cfg.capacity, previous, cfg.streamStart);
    if r.Err? {
      CalmReport(m, w1, r.error, cfg.streamStart);
    }
  }

  lemma CalmItem(m: Monitor, cfg: Config, item: Item, live: Live)
    requires cfg.size >= 1 && live.Open? && CalmLive(m, live, cfg.streamStart)
    requires item.Header? ==> Stays(live.w.future, Confirmed(cfg, item.number) + 1)
    ensures CalmLive(m, OnItem(cfg, item, live.state, live.buffer, live.w), cfg.streamStart)
  {
    hide Watch, NoReorg, Lasts, Accords, Stays, CheckPrevious, NextBatch;
    match item {
      case Lagged =>
      case Failed(e) => CalmReport(m, live.w, e, cfg.streamStart);
      case Header(number) =>
        var previous := live.state.previousBatchEnd.value;
        CalmPrevious(m, cfg, previous, live.buffer, live.w);
        CheckPreviousSuffix(cfg, previous, live.buffer, live.w);
        var mid := CheckPrevious(cfg, previous, live.buffer, live.w);
        if mid.Open? {
          SuffixStays(mid.w.future, live.w.future, Confirmed(cfg, number) + 1);
          CalmNext(m, cfg, Confirmed(cfg, number), mid.state, mid.buffer, mid.w);
        }
    }
  }

  lemma {:induction false} CalmContinue(m: Monitor, cfg: Config, items: seq<Item>, live: Live)
    requires cfg.size >= 1 && CalmLive(m, live, cfg.streamStart) && ConfirmedStay(cfg, items, live)
    ensures CalmLive(m, Continue(cfg, items, live), cfg.streamStart)
    decreases |items|
  {
    hide CalmLive, OnItem, Stays;
    if items != [] && live.Open? {
      CalmItem(m, cfg, items[0], live);
      CalmContinue(m, cfg, items[1..], OnItem(cfg, items[0], live.state, live.buffer, live.w));
    }
  }

  lemma CalmStart(notify: bool, future: seq<Moment>, s: nat)
    ensures var w := FirstHeader(notify, future);
            var m := Watch(START, w.history);
            && Calm(m, w, s) && m.view.low == m.view.mark == 0
  {
    var w := World(future, []);
    WatchNoted(START, Later(w), Sent(SwitchingToLive, Now(w).chain));
    WatchNothing(START);
    hide Watch;
  }

  lemma CalmStreamLive(cfg: Config, items: seq<Item>, notify: bool, future: seq<Moment>)
    requires cfg.size >= 1 && LiveConfirmedStay(cfg, items, notify, future)
    ensures CalmLive(START, StreamLive(cfg, items, notify, [], World(future, [])), cfg.streamStart)
  {
    hide Watch, NoReorg, Lasts, Accords, Stays, ConfirmedStay, Calm;
    var w := World(future, []);
    WatchNothing(START);
    CalmStart(false, future, cfg.streamStart);
    CalmStart(notify, future, cfg.streamStart);
    CalmEnds(World(future, []), cfg.streamStart);
    CalmEnds(FirstHeader(notify, future), cfg.streamStart);
    var relevant := SkipWhile(cfg, items);
    if relevant != [] {
      if relevant[0].Failed? {
        CalmReport(START, w, relevant[0].error, cfg.streamStart);
      } else if !notify || Send(w, SwitchingToLive).0 {
        var w1 := FirstHeader(notify, future);
        var confirmed := Confirmed(cfg, relevant[0].number);
        var p := Params(MinCommonAncestor(cfg), confirmed, cfg.size, cfg.capacity);
        CalmStream(START, p, cfg.streamStart, None, [], w1, cfg.streamStart);
        hide StreamRange;
        CalmContinue(START, cfg, relevant[1..], Initialize(cfg, confirmed, [], w1));
      }
    }
  }

  lemma CalmEnds(w: World, s: nat)
    requires Calm(Watch(START, w.history), w, s)
    ensures Watch(START, w.history).faithful && NoReorg(w.history)
  {
  }

  /** What a run without a visible reorg has streamed. */
  ghost predicate UndisturbedRun(cfg: Config, live: Live) {
    var m := Watch(START, live.w.history);
    && NoReorg(live.w.history)
    && Judged(m) && m.faithful
    && (live.Open? ==>
          && live.state.previousBatchEnd.Some?
          && var end := live.state.previousBatchEnd.value.number;
          && end < |m.base.blocks|
          && m.view.intact && m.view.held == Blocks(m.base, cfg.streamStart, end + 1))
  }

  /** Reorgs that reach no block below the confirmed height of the headers received by then are
      invisible: over the whole run no reorg is notified, and whenever the run is open the
      ranges streamed so far form one gapless, overlap-free cover from the stream start that
      equals the canonical chain. */
  lemma ShallowReorgsAreInvisible(cfg: Config, items: seq<Item>, notify: bool, future: seq<Moment>)
    requires cfg.size >= 1 && LiveConfirmedStay(cfg, items, notify, future)
    ensures UndisturbedRun(cfg, StreamLive(cfg, items, notify, [], World(future, [])))
  {
    hide StreamLive, Watch, LiveConfirmedStay;
    WatchNothing(START);
    StreamLiveIsSound(START, cfg, items, notify, [], World(future, []), cfg.streamStart);
    CalmStreamLive(cfg, items, notify, future);
  }

  // -------------------------------------------------------------------------
  // Reorgs not deeper than the confirmations
  // -------------------------------------------------------------------------

  /** Every reorg of the timeline replaces at most `depth` blocks at the end of the chain, and
      never the first block. */
  ghost predicate ReorgsAtMost(timeline: seq<Moment>, depth: nat) {
    forall i, j | 0 <= i < j < |timeline| && timeline[i].chain.blocks != [] ::
      AgreeBelow(timeline[i].chain, timeline[j].chain, SaturatingSub(|timeline[i].chain.blocks| - 1, depth) + 1)
  }

  /** By the time a header is processed its height has been on the chain. */
  ghost predicate Announced(timeline: seq<Moment>, left: seq<Moment>, number: nat) {
    exists i | 0 <= i < |timeline| && i <= |timeline| - |left| :: number < |timeline[i].chain.blocks|
  }

  ghost predicate HeadersAnnounced(cfg: Config, items: seq<Item>, live: Live, timeline: seq<Moment>)
    requires cfg.size >= 1
    decreases |items|
  {
    items != [] && live.Open? ==>
      && (items[0].Header? ==> Announced(timeline, live.w.future, items[0].number))
      && HeadersAnnounced(cfg, items[1..], OnItem(cfg, items[0], live.state, live.buffer, live.w), timeline)
  }

  ghost predicate LiveAnnounced(cfg: Config, items: seq<Item>, notify: bool, future: seq<Moment>)
    requires cfg.size >= 1
  {
    var relevant := SkipWhile(cfg, items);
    relevant != [] && relevant[0].Header? ==>
      var w := FirstHeader(notify, future);
      && Announced(future, w.future, relevant[0].number)
      && HeadersAnnounced(cfg, relevant[1..], Initialize(cfg, Confirmed(cfg, relevant[0].number), [], w), future)
  }

  lemma AnnouncedStays(timeline: seq<Moment>, left: seq<Moment>, number: nat, depth: nat)
    requires ReorgsAtMost(timeline, depth) && IsSuffix(left, timeline) && Announced(timeline, left, number)
    ensures Stays(left, SaturatingSub(number, depth) + 1)
  {
    var n := SaturatingSub(number, depth) + 1;
    var k :| 0 <= k < |timeline| && k <= |timeline| - |left| && number < |timeline[k].chain.blocks|;
    var c := timeline[k].chain;
    var bound := SaturatingSub(|c.blocks| - 1, depth) + 1;
    var at := |timeline| - |left|;
    forall i, j | 0 <= i < j < |left|
      ensures KeepsBelow(left[i].chain, left[j].chain, n)
    {
      assert left[i] == timeline[at + i] && left[j] == timeline[at + j];
      var a, b := left[i].chain, left[j].chain;
      assert AgreeBelow(c, b, bound);
      AgreeLess(c, b, bound, n);
      if k < at + i {
        assert AgreeBelow(c, a, bound);
      }
      AgreeLess(c, a, bound, n);
      AgreeTransitive(c, a, b, n);
    }
  }

  lemma {:induction false} HeadersStay(cfg: Config, items: seq<Item>, live: Live, timeline: seq<Moment>)
    requires cfg.size >= 1 && ReorgsAtMost(timeline, cfg.confirmations) && IsSuffix(live.w.future, timeline)
    requires HeadersAnnounced(cfg, items, live, timeline)
    ensures ConfirmedStay(cfg, items, live)
    decreases |items|
  {
    if items != [] && live.Open? {
      var item := items[0];
      ItemSuffix(cfg, item, live.state, live.buffer, live.w);
      var next := OnItem(cfg, item, live.state, live.buffer, live.w);
      hide OnItem, ReorgsAtMost, Announced, Stays;
      SuffixTransitive(next.w.future, live.w.future, timeline);
      if item.Header? {
        AnnouncedStays(timeline, live.w.future, item.number, cfg.confirmations);
      }
      hide IsSuffix;
      HeadersStay(cfg, items[1..], next, timeline);
    }
  }

  /** What the confirmation depth is for: when no reorg is deeper than the confirmations, and
      headers are not announced before their blocks exist, no live run ever notifies a reorg,
      and what it streams is the canonical chain. */
  lemma ConfirmationsHideReorgs(cfg: Config, items: seq<Item>, notify: bool, future: seq<Moment>)
    requires cfg.size >= 1 && ReorgsAtMost(future, cfg.confirmations) && LiveAnnounced(cfg, items, notify, future)
    ensures UndisturbedRun(cfg, StreamLive(cfg, items, notify, [], World(future, [])))
  {
    hide ReorgsAtMost, Announced, Stays, ConfirmedStay, HeadersAnnounced, UndisturbedRun, IsSuffix;
    var relevant := SkipWhile(cfg, items);
    if relevant != [] && relevant[0].Header? {
      var w := FirstHeader(notify, future);
      var confirmed := Confirmed(cfg, relevant[0].number);
      var first := Initialize(cfg, confirmed, [], w);
      SuffixReflexive(future);
      SendSuffix(World(future, []), SwitchingToLive);
      AnnouncedStays(future, w.future, relevant[0].number, cfg.confirmations);
      StreamSuffix(Params(MinCommonAncestor(cfg), confirmed, cfg.size, cfg.capacity), cfg.streamStart, None, [], w);
      SuffixTransitive(first.w.future, w.future, future);
      HeadersStay(cfg, relevant[1..], first, future);
    }
    ShallowReorgsAreInvisible(cfg, items, notify, future);
  }
}
