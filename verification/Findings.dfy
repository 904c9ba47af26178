/** Where the code does less than one would expect, and exactly when. */
module Findings {
  import opened Wrappers
  import opened U64
  import opened Chains
  import opened RangeIterator
  import opened RingBuffers
  import opened ReorgHandler
  import opened Outside
  import opened Replay
  import opened RangeStream
  import opened LiveStream

  // -------------------------------------------------------------------------
  // Batches over given moments
  // -------------------------------------------------------------------------

  /** A batch whose end is still in place when it is checked. */
  lemma CleanBatch(p: Params, cursor: nat, buffer: seq<Block>, w: World, fetch: Chain, read: Chain, check: Chain, rest: seq<Moment>)
    requires p.size >= 1 && cursor <= p.end
    requires w.future == [Up(fetch), Up(read), Up(check)] + rest
    requires var hi := BatchEnd(cursor, p.end, p.size); hi < |fetch.blocks| && OnChain(check, BlockAt(fetch, hi))
    ensures var r := Range(cursor, BatchEnd(cursor, p.end, p.size));
            var block := BlockAt(fetch, r.hi);
            BatchStep(p, cursor, buffer, w) ==
            Next(r.hi + 1, block, Remember(buffer, p.capacity, block),
                 World(rest, w.history + [Anchored(fetch, 0)] + [Sent(Data(r), read)] + [Checked(check, buffer, false)]))
  {
    var r := Range(cursor, BatchEnd(cursor, p.end, p.size));
    var w1 := Fetch(w, r.hi).1;
    assert w1.future == [Up(read), Up(check)] + rest;
    var w2 := Send(w1, Data(r)).1;
    assert w2.future == [Up(check)] + rest;
    assert Later(w2).future == rest;
  }

  /** A batch whose end has left the chain when it is checked. */
  lemma ReorgedBatch(p: Params, cursor: nat, buffer: seq<Block>, w: World, fetch: Chain, read: Chain, check: Chain, notify: Chain, rest: seq<Moment>)
    requires p.size >= 1 && cursor <= p.end
    requires w.future == [Up(fetch), Up(read), Up(check), Up(notify)] + rest
    requires var hi := BatchEnd(cursor, p.end, p.size); hi < |fetch.blocks| && !OnChain(check, BlockAt(fetch, hi))
    requires check.finalized.Some?
    ensures var r := Range(cursor, BatchEnd(cursor, p.end, p.size));
            var block := BlockAt(fetch, r.hi);
            var (answer, buffer') := CheckOn(check, buffer, p.capacity, block);
            && answer.Ok? && answer.value.Some?
            && var a := answer.value.value.number;
            BatchStep(p, cursor, buffer, w) ==
            Next(Max(a + 1, p.minCommonAncestor), block, buffer',
                 World(rest, w.history + [Anchored(fetch, 0)] + [Sent(Data(r), read)] + [Checked(check, buffer, true)]
                               + [Sent(ReorgDetected(a), notify)]))
  {
    var r := Range(cursor, BatchEnd(cursor, p.end, p.size));
    var block := BlockAt(fetch, r.hi);
    assert w.future == [Up(fetch)] + ([Up(read), Up(check), Up(notify)] + rest);
    assert [Up(read), Up(check), Up(notify)] + rest == [Up(read)] + ([Up(check), Up(notify)] + rest);
    var w1 := Fetch(w, r.hi).1;
    Moves(w, Up(fetch), [Up(read), Up(check), Up(notify)] + rest);
    var w2 := Send(w1, Data(r)).1;
    Moves(w1, Up(read), [Up(check), Up(notify)] + rest);
    ReorgedCheck(p, block, buffer, w2, check, notify, rest);
    hide CheckBatch, CheckOn;
  }

  lemma Moves(w: World, m: Moment, rest: seq<Moment>)
    ensures w.future == [m] + rest ==> Now(w) == m && Later(w).future == rest
  {
  }

  lemma ReorgedCheck(p: Params, block: Block, buffer: seq<Block>, w: World, check: Chain, notify: Chain, rest: seq<Moment>)
    requires w.future == [Up(check), Up(notify)] + rest
    requires !OnChain(check, block) && check.finalized.Some?
    ensures var (answer, buffer') := CheckOn(check, buffer, p.capacity, block);
            && answer.Ok? && answer.value.Some?
            && var a := answer.value.value.number;
            CheckBatch(p, block, buffer, w) ==
            Next(Max(a + 1, p.minCommonAncestor), block, buffer',
                 World(rest, w.history + [Checked(check, buffer, true)] + [Sent(ReorgDetected(a), notify)]))
  {
    AnswersReorg(check, buffer, p.capacity, block);
    hide CheckOn;
    assert w.future == [Up(check)] + ([Up(notify)] + rest);
    Moves(w, Up(check), [Up(notify)] + rest);
    Moves(Later(w), Up(notify), rest);
  }

  lemma AnswersReorg(c: Chain, buffer: seq<Block>, capacity: Capacity, block: Block)
    requires !OnChain(c, block) && c.finalized.Some?
    ensures var r := CheckOn(c, buffer, capacity, block).0; r.Ok? && r.value.Some?
  {
  }

  /** A call that takes two batches. */
  lemma TwoBatches(p: Params, cursor: nat, buffer: seq<Block>, w: World, s1: Step, s2: Step)
    requires p.size >= 1 && cursor <= p.end
    requires s1 == BatchStep(p, cursor, buffer, w) && s1.Next? && s1.cursor <= p.end
    requires s2 == BatchStep(p, s1.cursor, s1.buffer, s1.w) && s2.Next? && s2.cursor > p.end
    ensures StreamRange(p, cursor, None, buffer, w) == Done(Some(s2.batchEnd), s2.buffer, s2.w)
  {
    hide BatchStep;
    assert StreamRange(p, s2.cursor, Some(s2.batchEnd), s2.buffer, s2.w) == Done(Some(s2.batchEnd), s2.buffer, s2.w);
    assert StreamRange(p, s1.cursor, Some(s1.batchEnd), s1.buffer, s1.w) == Done(Some(s2.batchEnd), s2.buffer, s2.w);
  }

  /** With an empty buffer a check that finds a reorg answers with the finalized block. */
  lemma EmptyBufferAnswers(c: Chain, capacity: Capacity, block: Block)
    requires !OnChain(c, block) && c.finalized.Some?
    ensures CheckOn(c, [], capacity, block) == (Ok(Some(BlockAt(c, c.finalized.value))), [])
  {
  }

  /** The history of a call whose first batch is found to be abandoned, and whose second batch is
      on the chain `n` and reaches the end. */
  function RepeatedEvents(p: Params, cursor: nat, hi: nat, next: nat, fetch: Chain, read: Chain, check: Chain, n: Chain): seq<Event> {
    [Anchored(fetch, 0)] + [Sent(Data(Range(cursor, hi)), read)] + [Checked(check, [], true)]
    + [Sent(ReorgDetected(if check.finalized.Some? then check.finalized.value else 0), n)]
    + [Anchored(n, 0)] + [Sent(Data(Range(next, p.end)), n)] + [Checked(n, [], false)]
  }

  lemma RepeatedBatch(p: Params, cursor: nat, w: World, fetch: Chain, read: Chain, check: Chain, n: Chain)
    requires p.size >= 1 && cursor <= p.end < |n.blocks| && p.capacity == Infinite && check.finalized.Some?
    requires w.future == [Up(fetch), Up(read), Up(check), Up(n)] + [Up(n), Up(n), Up(n)]
    requires var hi := BatchEnd(cursor, p.end, p.size); hi < |fetch.blocks| && !OnChain(check, BlockAt(fetch, hi))
    requires var next := Max(check.finalized.value + 1, p.minCommonAncestor); next <= p.end < next + p.size
    ensures var next := Max(check.finalized.value + 1, p.minCommonAncestor);
            StreamRange(p, cursor, None, [], w)
            == Done(Some(BlockAt(n, p.end)), [BlockAt(n, p.end)],
                    World([], w.history + RepeatedEvents(p, cursor, BatchEnd(cursor, p.end, p.size), next, fetch, read, check, n)))
  {
    hide StreamRange, BatchStep, CheckOn;
    var hi := BatchEnd(cursor, p.end, p.size);
    var rest := [Up(n), Up(n), Up(n)];
    ReorgedBatch(p, cursor, [], w, fetch, read, check, n, rest);
    EmptyBufferAnswers(check, p.capacity, BlockAt(fetch, hi));
    var s1 := BatchStep(p, cursor, [], w);
    assert rest == [Up(n), Up(n), Up(n)] + [];
    CleanBatch(p, s1.cursor, [], s1.w, n, n, n, []);
    var s2 := BatchStep(p, s1.cursor, [], s1.w);
    TwoBatches(p, cursor, [], w, s1, s2);
    hide HashAt, OnChain;
    assert s2.w.history == w.history + RepeatedEvents(p, cursor, hi, s1.cursor, fetch, read, check, n);
  }

  // -------------------------------------------------------------------------
  // Histories, event by event
  // -------------------------------------------------------------------------

  /** The monitor after a history, read from its first event on. */
  function Replayed(m: Monitor, h: seq<Event>): Monitor
    decreases |h|
  {
    if h == [] then m else Replayed(Observe(m, h[0]), h[1..])
  }

  lemma {:induction false} WatchFirst(m: Monitor, e: Event, h: seq<Event>)
    ensures Watch(m, [e] + h) == Watch(Observe(m, e), h)
  {
    hide Observe;
    if h == [] {
      assert [e] + h == [e] && [e][..0] == [];
    } else {
      var h' := h[..|h| - 1];
      assert ([e] + h)[..|[e] + h| - 1] == [e] + h';
      WatchFirst(m, e, h');
    }
  }

  lemma {:induction false} WatchReplays(m: Monitor, h: seq<Event>)
    ensures Watch(m, h) == Replayed(m, h)
    decreases |h|
  {
    hide Observe;
    if h != [] {
      WatchFirst(m, h[0], h[1..]);
      assert [h[0]] + h[1..] == h;
      WatchReplays(Observe(m, h[0]), h[1..]);
    }
  }

  lemma ReplayedFirst(m: Monitor, e: Event, h: seq<Event>)
    ensures Replayed(m, [e] + h) == Replayed(Observe(m, e), h)
  {
    assert ([e] + h)[1..] == h;
  }

  lemma Steps(m: Monitor, m1: Monitor, m2: Monitor, two: seq<Event>, h: seq<Event>)
    requires |two| == 2 && m1 == Observe(m, two[0]) && m2 == Observe(m1, two[1])
    ensures Replayed(m, two + h) == Replayed(m2, h)
  {
    hide Observe;
    assert two + h == [two[0]] + ([two[1]] + h);
    ReplayedFirst(m, two[0], [two[1]] + h);
    ReplayedFirst(m1, two[1], h);
  }

  lemma ReplayedNothing(m: Monitor)
    ensures Replayed(m, []) == m
  {
  }

  /** What a consumer holds, without where it came from. */
  ghost predicate HoldsNow(m: Monitor, held: seq<Block>, low: nat, mark: nat) {
    m.view.held == held && m.view.low == low && m.view.mark == mark
  }

  lemma LookHolds(m: Monitor, e: Event, held: seq<Block>, low: nat, mark: nat)
    requires HoldsNow(m, held, low, mark) && (e.Sent? ==> e.message.SwitchingToLive? || e.message.Error?)
    ensures HoldsNow(Observe(m, e), held, low, mark)
  {
    hide Accords, Canonical, Reaches, FinalityKept;
  }

  lemma DataHolds(m: Monitor, r: Range, c: Chain, held: seq<Block>, low: nat, mark: nat)
    requires HoldsNow(m, held, low, mark) && r.hi + 1 != low
    ensures HoldsNow(Observe(m, Sent(Data(r), c)), held + Read(c, r), if low == mark then r.lo else low, r.hi + 1)
  {
    hide Accords, Canonical, Read, AgreeBelow;
  }

  lemma ReorgHolds(m: Monitor, a: nat, c: Chain, held: seq<Block>, low: nat, mark: nat)
    requires HoldsNow(m, held, low, mark)
    ensures HoldsNow(Observe(m, Sent(ReorgDetected(a), c)), Kept(held, a + 1), Min(low, Min(mark, a + 1)), Min(mark, a + 1))
  {
    hide Accords, Canonical, Kept;
  }

  // -------------------------------------------------------------------------
  // A fork between a check and the next fetch is not seen
  // -------------------------------------------------------------------------

  /** A world in which the interval up to `tip` stays that of `c`, with this much held; and no reorg
      has been notified if `calm`. */
  ghost predicate Along(m: Monitor, w: World, c: Chain, tip: nat, calm: bool, held: seq<Block>, low: nat, mark: nat) {
    Still(c, w.future, tip) && HoldsNow(Watch(m, w.history), held, low, mark) && (calm ==> NoReorg(w.history))
  }

  lemma AlongNoted(m: Monitor, w: World, c: Chain, tip: nat, calm: bool, held: seq<Block>, low: nat, mark: nat, e: Event)
    requires Along(m, w, c, tip, calm, held, low, mark) && !e.Sent?
    ensures Along(m, Noted(Later(w), e), c, tip, calm, held, low, mark)
  {
    StillLater(c, w, tip);
    WatchNoted(m, Later(w), e);
    LookHolds(Watch(m, w.history), e, held, low, mark);
    hide Still, HoldsNow, Observe, Watch;
  }

  /** One moment passes on a timeline on which everything answers. */
  ghost predicate Elapses(w: World, answered: bool, w': World) {
    AllUp(w.future) && w.future != [] ==> answered && w'.future == w.future[1..] && AllUp(w'.future)
  }

  lemma AlongFetch(m: Monitor, w: World, c: Chain, tip: nat, calm: bool, held: seq<Block>, low: nat, mark: nat, k: nat)
    requires Along(m, w, c, tip, calm, held, low, mark) && k <= tip < |c.blocks|
    ensures var (r, w') := Fetch(w, k);
            && Elapses(w, r.Ok?, w')
            && (r.Ok? ==> r.value == BlockAt(c, k) && Along(m, w', c, tip, calm, held, low, mark))
  {
    var x := Now(w).chain;
    StillLater(c, w, tip);
    if w.future != [] {
      AgreeHashes(c, x, tip + 1);
    }
    AlongNoted(m, w, c, tip, calm, held, low, mark, Anchored(x, 0));
    hide Along, Still, HashAt;
  }

  lemma AlongSend(m: Monitor, w: World, c: Chain, tip: nat, calm: bool, held: seq<Block>, low: nat, r: Range)
    requires low < r.lo <= r.hi <= tip < |c.blocks| && Along(m, w, c, tip, calm, held, low, r.lo)
    ensures var (open, w') := Send(w, Data(r));
            && Elapses(w, open, w')
            && (open ==> Along(m, w', c, tip, calm, held + Blocks(c, r.lo, r.hi + 1), low, r.hi + 1))
  {
    hide HoldsNow, Observe, Watch, Blocks, AgreeBelow;
    var x := Now(w).chain;
    StillLater(c, w, tip);
    hide Still;
    WatchNoted(m, Later(w), Sent(Data(r), x));
    DataHolds(Watch(m, w.history), r, x, held, low, r.lo);
    if w.future != [] {
      AgreeLess(c, x, tip + 1, r.hi + 1);
      ReadAgrees(c, x, r);
    }
  }

  lemma ReadAgrees(c: Chain, x: Chain, r: Range)
    requires AgreeBelow(c, x, r.hi + 1)
    ensures Read(x, r) == Blocks(c, r.lo, r.hi + 1)
  {
    BlocksAgree(c, x, r.lo, r.hi + 1);
  }

  lemma AlongCheck(m: Monitor, p: Params, w: World, c: Chain, tip: nat, calm: bool, held: seq<Block>, low: nat, mark: nat,
                   buffer: seq<Block>, k: nat)
    requires Along(m, w, c, tip, calm, held, low, mark) && k <= tip < |c.blocks|
    ensures var block := BlockAt(c, k);
            var step := CheckBatch(p, block, buffer, w);
            && Elapses(w, step.Next?, step.w)
            && (step.Next? ==> step.cursor == k + 1 && step.batchEnd == block && Along(m, step.w, c, tip, calm, held, low, mark))
  {
    hide Along, Still, PopStale, CommonAncestor, Remember;
    var x := Now(w).chain;
    AlongStill(m, w, c, tip, calm, held, low, mark);
    StillLater(c, w, tip);
    if w.future != [] {
      AgreeHashes(c, x, tip + 1);
    }
    AlongNoted(m, w, c, tip, calm, held, low, mark, Checked(x, buffer, false));
    hide HashAt, AgreeBelow, Report;
  }

  lemma AlongStill(m: Monitor, w: World, c: Chain, tip: nat, calm: bool, held: seq<Block>, low: nat, mark: nat)
    requires Along(m, w, c, tip, calm, held, low, mark)
    ensures Still(c, w.future, tip)
  {
  }

  /** A batch along such a timeline. */
  lemma UnseenBatch(m: Monitor, p: Params, w: World, c: Chain, calm: bool, held: seq<Block>, low: nat, cursor: nat, buffer: seq<Block>)
    requires p.size >= 1 && low < cursor <= p.end < |c.blocks| && Along(m, w, c, p.end, calm, held, low, cursor)
    ensures var step := BatchStep(p, cursor, buffer, w);
            var hi := BatchEnd(cursor, p.end, p.size);
            && (AllUp(w.future) && |w.future| >= 3 ==> step.Next? && step.w.future == w.future[3..] && AllUp(step.w.future))
            && (step.Next? ==>
                  && step.cursor == hi + 1 && step.batchEnd == BlockAt(c, hi)
                  && Along(m, step.w, c, p.end, calm, held + Blocks(c, cursor, hi + 1), low, hi + 1))
  {
    hide Along, Fetch, Send, CheckBatch, AllUp, BlockAt, Blocks;
    var r := Range(cursor, BatchEnd(cursor, p.end, p.size));
    AlongFetch(m, w, c, p.end, calm, held, low, cursor, r.hi);
    var (fetched, w1) := Fetch(w, r.hi);
    if fetched.Ok? {
      AlongSend(m, w1, c, p.end, calm, held, low, r);
      var (open, w2) := Send(w1, Data(r));
      if open {
        AlongCheck(m, p, w2, c, p.end, calm, held + Blocks(c, cursor, r.hi + 1), low, r.hi + 1, buffer, r.hi);
      }
    }
    assert |w.future| >= 3 ==> w.future[1..][1..][1..] == w.future[3..];
  }

  lemma {:induction false} UnseenStream(
    m: Monitor, p: Params, w: World, c: Chain, calm: bool, before: seq<Block>, low: nat, from: nat, cursor: nat,
    last: Option<Block>, buffer: seq<Block>)
    requires p.size >= 1 && low < from <= cursor <= p.end + 1 <= |c.blocks|
    requires Along(m, w, c, p.end, calm, before + Blocks(c, from, cursor), low, cursor)
    requires cursor > p.end ==> last == Some(BlockAt(c, p.end))
    ensures var outcome := StreamRange(p, cursor, last, buffer, w);
            && (AllUp(w.future) && |w.future| >= 3 * |Tiling(cursor, p.end, p.size)| ==> outcome.Done?)
            && (outcome.Done? ==>
                  && outcome.last == Some(BlockAt(c, p.end))
                  && Along(m, outcome.w, c, p.end, calm, before + Blocks(c, from, p.end + 1), low, p.end + 1))
    decreases |w.future|
  {
    hide Along, BatchStep, AllUp, BlockAt, Blocks;
    if cursor <= p.end {
      var held, hi := before + Blocks(c, from, cursor), BatchEnd(cursor, p.end, p.size);
      UnseenBatch(m, p, w, c, calm, held, low, cursor, buffer);
      BatchConsumes(p, cursor, buffer, w);
      BlocksConcat(c, from, cursor, hi + 1);
      assert held + Blocks(c, cursor, hi + 1) == before + Blocks(c, from, hi + 1);
      assert |Tiling(cursor, p.end, p.size)| == 1 + |Tiling(hi + 1, p.end, p.size)|;
      hide Tiling;
      var step := BatchStep(p, cursor, buffer, w);
      if step.Next? {
        UnseenStream(m, p, step.w, c, calm, before, low, from, step.cursor, Some(step.batchEnd), step.buffer);
      }
    }
  }

  /** The last check of a stream saw the blocks of `before` in place up to `cursor - 1`, and from the
      next fetch on the interval is that of `c`. The stream goes on to its end as long as everything
      answers, and notifies nothing; what the consumer then holds is canonical exactly when the last
      block it held before is still on `c`, which the code does not look at. */
  lemma UnseenForkIff(
    m: Monitor, p: Params, cursor: nat, last: Option<Block>, buffer: seq<Block>, w: World, before: Chain, c: Chain, low: nat)
    requires p.size >= 1 && low < cursor <= p.end < |c.blocks| && cursor <= |before.blocks|
    requires Still(c, w.future, p.end)
    requires HoldsNow(Watch(m, w.history), Blocks(before, low, cursor), low, cursor)
    ensures var outcome := StreamRange(p, cursor, last, buffer, w);
            && (AllUp(w.future) && |w.future| >= 3 * |Tiling(cursor, p.end, p.size)| ==> outcome.Done?)
            && (outcome.Done? ==>
                  && outcome.last == Some(BlockAt(c, p.end))
                  && (NoReorg(w.history) ==> NoReorg(outcome.w.history))
                  && var held := Watch(m, outcome.w.history).view.held;
                     && held == Blocks(before, low, cursor) + Blocks(c, cursor, p.end + 1)
                     && (held == Blocks(c, low, p.end + 1) <==> OnChain(c, BlockAt(before, cursor - 1))))
  {
    hide StreamRange, Watch, Blocks, Still, Tiling, AllUp, BlockAt;
    var held := Blocks(before, low, cursor);
    NoBlocks(c, cursor, cursor);
    assert held + [] == held;
    UnseenStream(m, p, w, c, NoReorg(w.history), held, low, cursor, cursor, last, buffer);
    StaleUnlessLastBlockStayed(before, c, low, cursor, p.end + 1);
  }

  lemma NoBlocks(c: Chain, lo: nat, n: nat)
    requires n <= lo && n <= |c.blocks|
    ensures Blocks(c, lo, n) == []
  {
  }

  /** Blocks of `before` below `mid`, followed by blocks of `c`, are all on `c` exactly when the last
      one of `before` is. */
  lemma StaleUnlessLastBlockStayed(before: Chain, c: Chain, lo: nat, mid: nat, n: nat)
    requires lo < mid <= n <= |c.blocks| && mid <= |before.blocks|
    ensures Blocks(before, lo, mid) + Blocks(c, mid, n) == Blocks(c, lo, n) <==> OnChain(c, BlockAt(before, mid - 1))
  {
    var held := Blocks(before, lo, mid);
    BlocksIndex(before, lo, mid);
    BlocksIndex(c, lo, n);
    SharedBlock(before, c, BlockAt(before, mid - 1));
    if OnChain(c, BlockAt(before, mid - 1)) {
      BlocksAgree(before, c, lo, mid);
      BlocksConcat(c, lo, mid, n);
    } else {
      assert (held + Blocks(c, mid, n))[mid - 1 - lo] == BlockAt(before, mid - 1);
    }
  }

  /** Two chains that fork above block 0. */
  const OLD: Chain := ChainData([Content(0, []), Content(1, []), Content(2, []), Content(3, [])], Some(0))
  const NEW: Chain := ChainData([Content(0, []), Content(11, []), Content(12, []), Content(13, []), Content(14, [])], Some(0))

  /** A call that completes normally, with no reorg notified, although the first block it
      streamed is not on the chain of the second one: the consumer ends up with both. */
  lemma UnseenForkRun()
    ensures var p := Params(0, 2, 1, Infinite);
            var w := World([Up(OLD), Up(OLD), Up(OLD), Up(NEW), Up(NEW), Up(NEW)], []);
            var outcome := StreamRange(p, 1, None, [], w);
            && outcome.Done? && outcome.last == Some(BlockAt(NEW, 2)) && NoReorg(outcome.w.history)
            && Watch(START, outcome.w.history).view.held == [BlockAt(OLD, 1), BlockAt(NEW, 2)]
            && !OnChain(NEW, BlockAt(OLD, 1))
  {
    hide StreamRange, BatchStep, Watch, NoReorg, AllUp, Still, Blocks, Tiling;
    var p := Params(0, 2, 1, Infinite);
    var w := World([Up(OLD), Up(OLD), Up(OLD), Up(NEW), Up(NEW), Up(NEW)], []);
    var w1 := World([Up(NEW), Up(NEW), Up(NEW)], UnseenEvents());
    FirstUnseen(p, w, w1);
    UnseenHolds();
    NewMoments();
    UnseenForkIff(START, p, 2, Some(BlockAt(OLD, 1)), [BlockAt(OLD, 1)], w1, OLD, NEW, 1);
    BlocksIndex(OLD, 1, 2);
    BlocksIndex(NEW, 2, 3);
    assert HashAt(OLD, 1)[1] != HashAt(NEW, 1)[1];
  }

  function UnseenEvents(): seq<Event> {
    [Anchored(OLD, 0), Sent(Data(Range(1, 1)), OLD), Checked(OLD, [], false)]
  }

  lemma FirstUnseen(p: Params, w: World, w1: World)
    requires p == Params(0, 2, 1, Infinite)
    requires w == World([Up(OLD), Up(OLD), Up(OLD), Up(NEW), Up(NEW), Up(NEW)], [])
    requires w1 == World([Up(NEW), Up(NEW), Up(NEW)], UnseenEvents())
    ensures StreamRange(p, 1, None, [], w) == StreamRange(p, 2, Some(BlockAt(OLD, 1)), [BlockAt(OLD, 1)], w1)
  {
    hide BatchStep;
    assert w.future == [Up(OLD), Up(OLD), Up(OLD)] + w1.future;
    CleanBatch(p, 1, [], w, OLD, OLD, OLD, w1.future);
    assert [] + [Anchored(OLD, 0)] + [Sent(Data(Range(1, 1)), OLD)] + [Checked(OLD, [], false)] == UnseenEvents();
    assert BatchStep(p, 1, [], w) == RangeStream.Next(2, BlockAt(OLD, 1), [BlockAt(OLD, 1)], w1);
    hide HashAt;
  }

  lemma NewMoments()
    ensures AllUp([Up(NEW), Up(NEW), Up(NEW)]) && Still(NEW, [Up(NEW), Up(NEW), Up(NEW)], 2)
    ensures |Tiling(2, 2, 1)| == 1
  {
    assert Tiling(3, 2, 1) == [];
  }

  lemma UnseenHolds()
    ensures HoldsNow(Watch(START, UnseenEvents()), Blocks(OLD, 1, 2), 1, 2) && NoReorg(UnseenEvents())
  {
    hide Observe, Blocks, Watch, Replayed;
    var h := UnseenEvents();
    WatchReplays(START, h);
    LookHolds(START, h[0], [], 0, 0);
    var m1 := Observe(START, h[0]);
    hide HoldsNow;
    DataHolds(m1, Range(1, 1), OLD, [], 0, 0);
    var m2 := Observe(m1, h[1]);
    assert [] + Read(OLD, Range(1, 1)) == Blocks(OLD, 1, 2);
    LookHolds(m2, h[2], Blocks(OLD, 1, 2), 1, 2);
    var m3 := Observe(m2, h[2]);
    Steps(START, m1, m2, h[..2], h[2..]);
    ReplayedFirst(m2, h[2], []);
    ReplayedNothing(m3);
    assert h == h[..2] + h[2..] && h[2..] == [h[2]] + [];
  }

  // -------------------------------------------------------------------------
  // A finalized height above the fork hides stale blocks
  // -------------------------------------------------------------------------

  /** The same fork, seen when block 2 of the new branch is already finalized. */
  const NEW_FINAL: Chain := NEW.(finalized := Some(2))

  /** The notified ancestor is block 2 although the fork is right above block 0: the consumer
      keeps blocks 1 and 2 of the abandoned branch. `ReorgHandler.AncestorAboveForkIffFinalizedIs`
      says that this happens exactly when the finalized height is above the fork. */
  lemma FinalizedAboveForkRun()
    ensures var p := Params(0, 3, 3, Infinite);
            var w := World([Up(OLD), Up(OLD), Up(NEW_FINAL), Up(NEW_FINAL)], []);
            var step := BatchStep(p, 1, [], w);
            && step.Next? && step.cursor == 3 && step.w.history == TooHighEvents()
            && Watch(START, step.w.history).view.held == Blocks(OLD, 1, 3)
            && !OnChain(NEW_FINAL, BlockAt(OLD, 1)) && !OnChain(NEW_FINAL, BlockAt(OLD, 2))
  {
    hide BatchStep, Watch, Blocks;
    var p := Params(0, 3, 3, Infinite);
    var w := World([Up(OLD), Up(OLD), Up(NEW_FINAL), Up(NEW_FINAL)], []);
    assert HashAt(OLD, 3)[1] != HashAt(NEW_FINAL, 3)[1];
    assert HashAt(OLD, 2)[1] != HashAt(NEW_FINAL, 2)[1];
    assert HashAt(OLD, 1)[1] != HashAt(NEW_FINAL, 1)[1];
    assert w.future == [Up(OLD), Up(OLD), Up(NEW_FINAL), Up(NEW_FINAL)] + [];
    ReorgedBatch(p, 1, [], w, OLD, OLD, NEW_FINAL, NEW_FINAL, []);
    EmptyBufferAnswers(NEW_FINAL, Infinite, BlockAt(OLD, 3));
    hide CheckOn;
    assert [] + [Anchored(OLD, 0)] + [Sent(Data(Range(1, 3)), OLD)] + [Checked(NEW_FINAL, [], true)]
         + [Sent(ReorgDetected(2), NEW_FINAL)] == TooHighEvents();
    TooHighHolds();
  }

  function TooHighEvents(): seq<Event> {
    [Anchored(OLD, 0), Sent(Data(Range(1, 3)), OLD), Checked(NEW_FINAL, [], true), Sent(ReorgDetected(2), NEW_FINAL)]
  }

  lemma TooHighHolds()
    ensures Watch(START, TooHighEvents()).view.held == Blocks(OLD, 1, 3)
  {
    hide Observe, Blocks, Watch, Replayed, Kept;
    var h := TooHighEvents();
    WatchReplays(START, h);
    LookHolds(START, h[0], [], 0, 0);
    var m1 := Observe(START, h[0]);
    DataHolds(m1, Range(1, 3), OLD, [], 0, 0);
    var m2 := Observe(m1, h[1]);
    assert [] + Read(OLD, Range(1, 3)) == Blocks(OLD, 1, 4);
    LookHolds(m2, h[2], Blocks(OLD, 1, 4), 1, 4);
    var m3 := Observe(m2, h[2]);
    ReorgHolds(m3, 2, NEW_FINAL, Blocks(OLD, 1, 4), 1, 4);
    KeptBlocks(OLD, 1, 4, 3);
    var m4 := Observe(m3, h[3]);
    Steps(START, m1, m2, h[..2], h[2..]);
    Steps(m2, m3, m4, h[2..], []);
    ReplayedNothing(m4);
    assert h == h[..2] + h[2..] && h[2..] == h[2..] + [];
  }

  // -------------------------------------------------------------------------
  // The two branches, event by event
  // -------------------------------------------------------------------------

  /** The two branches share block 0 only. */
  lemma Forked()
    ensures CommonLength(OLD, NEW) == 1 && AgreeBelow(OLD, NEW, 1)
  {
    assert OLD.blocks[..1] == NEW.blocks[..1];
    assert OLD.blocks[..2][1] != NEW.blocks[..2][1];
    AgreeLessIf(OLD, NEW, CommonLength(OLD, NEW), 2);
  }

  /** Nothing is covered. */
  function Nothing(base: Chain, mark: nat): Consumer {
    Consumer([], mark, mark, true, [Source(base, mark, mark)])
  }

  ghost predicate Idle(m: Monitor, base: Chain, mark: nat) {
    m.faithful && m.view == Nothing(base, mark) && m.base == base && m.floor == 0 && !m.pending
  }

  /** Looking at a snapshot while nothing is covered. */
  lemma AnchorIdle(m: Monitor, c: Chain, final: nat)
    requires Idle(m, m.base, m.view.mark)
    ensures var m' := Observe(m, Anchored(c, final)); Idle(m', c, m.view.mark) && m'.final == final
  {
    hide Canonical;
  }

  /** The first range: read from `c`, while the scanner last looked at `base`. */
  ghost predicate Covers(m: Monitor, base: Chain, mark: nat, sources: seq<Source>, lo: nat, n: nat) {
    && m.faithful && m.base == base && m.floor == 0 && m.final == 0 && m.view.intact
    && m.view.low == lo < m.view.mark == n
    && m.view.sources == [Source(base, mark, mark)] + sources
  }

  lemma FirstRange(m: Monitor, r: Range, c: Chain)
    requires Idle(m, m.base, m.view.mark) && m.final == 0 && m.view.mark <= r.lo <= r.hi
    ensures var m' := Observe(m, Sent(Data(r), c));
            && Covers(m', m.base, m.view.mark, [Source(c, r.lo, r.hi + 1)], r.lo, r.hi + 1) && !m'.pending
            && m'.view.held == Read(c, r)
  {
    hide Canonical, Read;
    assert m.view.held + Read(c, r) == Read(c, r);
  }

  lemma NextRange(m: Monitor, base: Chain, mark: nat, sources: seq<Source>, lo: nat, r: Range, c: Chain)
    requires Covers(m, base, mark, sources, lo, r.lo) && !m.pending && r.lo <= r.hi
    ensures var m' := Observe(m, Sent(Data(r), c));
            && Covers(m', base, mark, sources + [Source(c, r.lo, r.hi + 1)], lo, r.hi + 1) && !m'.pending
            && m'.view.held == m.view.held + Read(c, r)
  {
    hide Canonical, Read;
  }

  /** A notification that voids everything. */
  lemma VoidsAll(m: Monitor, a: nat, c: Chain)
    requires m.faithful && m.pending && m.floor == 0 && m.final == 0 && m.view.intact
    requires a + 1 <= m.view.low <= m.view.mark
    requires forall i | 0 <= i < |m.view.held| :: a + 1 <= m.view.held[i].number
    ensures var m' := Observe(m, Sent(ReorgDetected(a), c)); Idle(m', m.base, a + 1) && m'.final == 0
  {
    hide Canonical;
    KeptNothing(m.view.held, a + 1);
    hide Kept;
  }

  /** The new branch, read in one range or in two, after the old branch was fetched. */
  lemma NothingShared(sources: seq<Source>)
    requires forall i | 0 <= i < |sources| :: 1 <= sources[i].from
    ensures Accords([Source(OLD, 0, 0)] + sources, NEW, CommonLength(OLD, NEW))
  {
    Forked();
    hide CommonLength;
  }

  lemma AllNew(sources: seq<Source>, mark: nat)
    requires forall i | 0 <= i < |sources| :: sources[i].chain == NEW && sources[i].upTo <= |NEW.blocks|
    ensures Accords([Source(NEW, mark, mark)] + sources, NEW, CommonLength(NEW, NEW))
  {
  }

  // -------------------------------------------------------------------------
  // Reorgs inside the windows
  // -------------------------------------------------------------------------

  /** A reorg between the fetch of a batch end and the moment the range is read: the run is
      faithful, and its consumer ends up with the blocks of the new branch. */
  lemma FaithfulReorgRun()
    ensures var p := Params(0, 2, 2, Infinite);
            var w := World([Up(OLD), Up(NEW), Up(NEW), Up(NEW), Up(NEW), Up(NEW), Up(NEW)], []);
            var outcome := StreamRange(p, 1, None, [], w);
            var m := Watch(START, outcome.w.history);
            && outcome.Done? && outcome.last == Some(BlockAt(NEW, 2))
            && m.faithful && Settled(m) && m.view.held == Blocks(NEW, 1, 3)
  {
    FaithfulReorgOutcome();
    WatchReplays(START, FaithfulReorgEvents());
    FaithfulReorgHistory();
    hide StreamRange, Watch, Replayed;
  }

  function FaithfulReorgEvents(): seq<Event> {
    var r := Data(Range(1, 2));
    [Anchored(OLD, 0), Sent(r, NEW), Checked(NEW, [], true), Sent(ReorgDetected(0), NEW),
     Anchored(NEW, 0), Sent(r, NEW), Checked(NEW, [], false)]
  }

  lemma FaithfulReorgOutcome()
    ensures var p := Params(0, 2, 2, Infinite);
            var w := World([Up(OLD), Up(NEW), Up(NEW), Up(NEW), Up(NEW), Up(NEW), Up(NEW)], []);
            var block := BlockAt(NEW, 2);
            StreamRange(p, 1, None, [], w) == Done(Some(block), [block], World([], FaithfulReorgEvents()))
  {
    hide StreamRange;
    var p := Params(0, 2, 2, Infinite);
    var w := World([Up(OLD), Up(NEW), Up(NEW), Up(NEW), Up(NEW), Up(NEW), Up(NEW)], []);
    assert HashAt(OLD, 2)[1] != HashAt(NEW, 2)[1];
    assert w.future == [Up(OLD), Up(NEW), Up(NEW), Up(NEW)] + [Up(NEW), Up(NEW), Up(NEW)];
    RepeatedBatch(p, 1, w, OLD, NEW, NEW, NEW);
  }

  lemma FaithfulReorgHistory()
    ensures var m := Replayed(START, FaithfulReorgEvents());
            m.faithful && Settled(m) && m.view.held == Blocks(NEW, 1, 3)
  {
    hide Observe, Replayed;
    var r := Range(1, 2);
    var h := FaithfulReorgEvents();
    var m1 := Observe(START, h[0]);
    AnchorIdle(START, OLD, 0);
    var m2 := Observe(m1, h[1]);
    FirstRange(m1, r, NEW);
    var m3 := Observe(m2, h[2]);
    UnsharedCheck(m2, [Source(NEW, 1, 3)], 3);
    BlocksIndex(NEW, 1, 3);
    var m4 := Observe(m3, h[3]);
    VoidsAll(m3, 0, NEW);
    var m5 := Observe(m4, h[4]);
    AnchorIdle(m4, NEW, 0);
    var m6 := Observe(m5, h[5]);
    FirstRange(m5, r, NEW);
    CleanLook(m6, 1, [Source(NEW, 1, 3)], 3, h[6]);
    hide Idle, Covers, Settled;
    ReplayedFirst(START, h[0], h[1..]);
    ReplayedFirst(m1, h[1], h[2..]);
    ReplayedFirst(m2, h[2], h[3..]);
    ReplayedFirst(m3, h[3], h[4..]);
    ReplayedFirst(m4, h[4], h[5..]);
    ReplayedFirst(m5, h[5], h[6..]);
    ReplayedFirst(m6, h[6], []);
    ReplayedNothing(Observe(m6, h[6]));
    assert h == [h[0]] + h[1..] && h[1..] == [h[1]] + h[2..] && h[2..] == [h[2]] + h[3..];
    assert h[3..] == [h[3]] + h[4..] && h[4..] == [h[4]] + h[5..] && h[5..] == [h[5]] + h[6..] && h[6..] == [h[6]] + [];
  }

  /** A look at the new branch after ranges that were fetched on the old one finds a reorg. */
  lemma UnsharedCheck(m: Monitor, sources: seq<Source>, n: nat)
    requires Covers(m, OLD, 0, sources, 1, n) && forall i | 0 <= i < |sources| :: 1 <= sources[i].from
    ensures var m' := Observe(m, Checked(NEW, [], true));
            m'.faithful && m'.pending && m'.base == NEW && m'.floor == 0 && m'.final == 0 && m'.view == m.view
  {
    NothingShared(sources);
    Forked();
    hide Accords, AgreeBelow, CommonLength, Canonical;
  }

  /** A look that finds everything in place. */
  lemma CleanLook(m: Monitor, mark: nat, sources: seq<Source>, n: nat, e: Event)
    requires Covers(m, NEW, mark, sources, 1, n) && !m.pending
    requires forall i | 0 <= i < |sources| :: sources[i].chain == NEW && sources[i].upTo <= |NEW.blocks|
    requires match e case Checked(c, _, reorg) => c == NEW && !reorg case Compared(c, reorg, _) => c == NEW && !reorg case _ => false
    ensures var m' := Observe(m, e); m'.faithful && Settled(m') && m'.view.held == m.view.held
  {
    AllNew(sources, mark);
    hide Accords, Canonical, CommonLength;
  }

  // -------------------------------------------------------------------------
  // One block below the stream start
  // -------------------------------------------------------------------------

  /** After a reorg during a batch of a stream that starts at `s`, the next range begins below
      `s` exactly when neither the finalized height nor a buffered block that is still in place
      is at or above `s - 1`; it then begins with the block `s - 1` that nobody asked for. */
  lemma RestartsBelowStartIff(s: nat, p: Params, block: Block, buffer: seq<Block>, w: World)
    requires p.minCommonAncestor == SaturatingSub(s, 1) && Increasing(buffer)
    requires Now(w).rpcUp && !OnChain(Now(w).chain, block)
    requires CheckBatch(p, block, buffer, w).Next?
    ensures var cursor := CheckBatch(p, block, buffer, w).cursor;
            && (cursor < s <==> !Reaches(Now(w).chain, buffer, s))
            && (cursor < s ==> cursor == s - 1)
  {
    ReachesIff(Now(w).chain, buffer, p.capacity, block, s);
    CheckDetects(Now(w).chain, buffer, p.capacity, block);
    hide CheckOn, Reaches;
  }

  /** How far a check can go back: the reported ancestor is at or above block `n - 1` exactly when
      that height is finalized or a buffered block at or above it is in place. */
  lemma ReachesIff(c: Chain, buffer: seq<Block>, capacity: Capacity, block: Block, n: nat)
    requires Increasing(buffer)
    ensures var r := CheckOn(c, buffer, capacity, block).0;
            r.Ok? && r.value.Some? ==> (n <= r.value.value.number + 1 <==> Reaches(c, buffer, n))
  {
    CheckAnswer(c, buffer, capacity, block);
    var r := CheckOn(c, buffer, capacity, block).0;
    hide CheckOn;
    if r.Ok? && r.value.Some? && n <= r.value.value.number + 1 && r.value.value in buffer {
      var i :| 0 <= i < |buffer| && buffer[i] == r.value.value;
      assert OnChain(c, buffer[i]) && n <= buffer[i].number + 1;
    }
  }

  /** A stream from block 3 on; its first batch is found to be on an abandoned branch; the second
      range begins at block 2. */
  lemma BelowStartRun()
    ensures var p := Params(2, 3, 10, Infinite);
            var w := World([Up(OLD), Up(OLD), Up(NEW), Up(NEW), Up(NEW), Up(NEW), Up(NEW)], []);
            var outcome := StreamRange(p, 3, None, [], w);
            && outcome.Done?
            && Messages(outcome.w.history) == [Data(Range(3, 3)), ReorgDetected(0), Data(Range(2, 3))]
  {
    hide StreamRange;
    var p := Params(2, 3, 10, Infinite);
    var w := World([Up(OLD), Up(OLD), Up(NEW), Up(NEW), Up(NEW), Up(NEW), Up(NEW)], []);
    assert HashAt(OLD, 3)[1] != HashAt(NEW, 3)[1];
    assert w.future == [Up(OLD), Up(OLD), Up(NEW), Up(NEW)] + [Up(NEW), Up(NEW), Up(NEW)];
    RepeatedBatch(p, 3, w, OLD, OLD, NEW, NEW);
    assert [] + RepeatedEvents(p, 3, 3, 2, OLD, OLD, NEW, NEW) == BelowStartEvents();
    BelowStartMessages();
  }

  function BelowStartEvents(): seq<Event> {
    [Anchored(OLD, 0), Sent(Data(Range(3, 3)), OLD), Checked(NEW, [], true), Sent(ReorgDetected(0), NEW),
     Anchored(NEW, 0), Sent(Data(Range(2, 3)), NEW), Checked(NEW, [], false)]
  }

  lemma BelowStartMessages()
    ensures Messages(BelowStartEvents()) == [Data(Range(3, 3)), ReorgDetected(0), Data(Range(2, 3))]
  {
    hide Messages, Sendings;
    SentMessages(BelowStartEvents());
    ThreeSent(BelowStartEvents());
  }

  lemma ThreeSent(h: seq<Event>)
    requires |h| == 7 && !h[0].Sent? && h[1].Sent? && !h[2].Sent? && h[3].Sent? && !h[4].Sent? && h[5].Sent? && !h[6].Sent?
    ensures Sendings(h) == [h[1].message, h[3].message, h[5].message]
  {
    hide Sendings;
    SendingsFirst(h[6], []);
    assert h[6..] == [h[6]] + [];
    OneSent(h, 4);
    OneSent(h, 2);
    OneSent(h, 0);
    assert h[0..] == h;
  }

  lemma OneSent(h: seq<Event>, i: nat)
    requires i + 2 <= |h| && !h[i].Sent? && h[i + 1].Sent?
    ensures Sendings(h[i..]) == [h[i + 1].message] + Sendings(h[i + 2..])
  {
    hide Sendings;
    SendingsFirst(h[i], h[i + 1..]);
    SendingsFirst(h[i + 1], h[i + 2..]);
    assert h[i..] == [h[i]] + h[i + 1..] && h[i + 1..] == [h[i + 1]] + h[i + 2..];
  }

  lemma SendingsFirst(e: Event, h: seq<Event>)
    ensures Sendings([e] + h) == (if e.Sent? then [e.message] else []) + Sendings(h)
    ensures Sendings([]) == []
  {
    assert ([e] + h)[1..] == h;
  }

  /** The messages of a history, read from its first event on. */
  function Sendings(h: seq<Event>): seq<Message>
    decreases |h|
  {
    if h == [] then [] else (if h[0].Sent? then [h[0].message] else []) + Sendings(h[1..])
  }

  lemma {:induction false} SentMessages(h: seq<Event>)
    ensures Messages(h) == Sendings(h)
    decreases |h|
  {
    if h != [] {
      OneMessage(h[0]);
      MessagesConcat([h[0]], h[1..]);
      SentMessages(h[1..]);
      assert [h[0]] + h[1..] == h;
      hide Messages;
    }
  }

  lemma OneMessage(e: Event)
    ensures Messages([e]) == if e.Sent? then [e.message] else []
  {
    assert [e][..0] == [] && Messages([]) == [];
  }

  // -------------------------------------------------------------------------
  // A parked stream
  // -------------------------------------------------------------------------

  /** A header leaves an open stream without a previous batch end exactly when that block has left
      the chain, the check can go back to below the stream start only, and the header confirms
      nothing at or above the start (and the notification arrives). */
  lemma ParksIff(cfg: Config, number: nat, state: State, buffer: seq<Block>, w: World)
    requires cfg.size >= 1 && state.previousBatchEnd.Some? && Increasing(buffer)
    ensures var next := OnItem(cfg, Header(number), state, buffer, w);
            var c := Now(w).chain;
            next.Open? && next.state.previousBatchEnd == None
            <==> && Now(w).rpcUp && Now(Later(w)).receiverUp && c.finalized.Some?
                 && !OnChain(c, state.previousBatchEnd.value) && !Reaches(c, buffer, cfg.streamStart + 1)
                 && Confirmed(cfg, number) < cfg.streamStart
  {
    var c, block := Now(w).chain, state.previousBatchEnd.value;
    CheckAnswer(c, buffer, cfg.capacity, block);
    ReachesIff(c, buffer, cfg.capacity, block, cfg.streamStart + 1);
    hide CheckOn, StreamRange, Reaches, OnChain, Increasing;
  }

  /** Such a stream is parked for good: no later header is ever streamed or even checked. */
  lemma {:induction false} ParkedForever(cfg: Config, items: seq<Item>, live: Live)
    requires cfg.size >= 1 && live.Open? && live.state.previousBatchEnd == None
    requires forall i | 0 <= i < |items| :: !items[i].Failed?
    ensures Continue(cfg, items, live) == live
    decreases |items|
  {
    if items != [] {
      ParkedForever(cfg, items[1..], live);
    }
  }

  /** A stream from block 3 on with one confirmation has streamed block 3; on the next header it
      is found to be abandoned, and the header confirms block 2 only. */
  lemma ParkedRun()
    ensures var cfg := Config(3, 1, 10, Infinite);
            var block := BlockAt(OLD, 3);
            var next := OnItem(cfg, Header(3), State(4, Some(block)), [block], World([Up(NEW), Up(NEW)], []));
            && next.Open? && next.state == State(3, None)
            && next.w.history == [Checked(NEW, [block], true), Sent(ReorgDetected(0), NEW)]
  {
    var cfg := Config(3, 1, 10, Infinite);
    var block := BlockAt(OLD, 3);
    var w := World([Up(NEW), Up(NEW)], []);
    assert HashAt(OLD, 3)[1] != HashAt(NEW, 3)[1];
    assert [block][..0] == [];
    PopStaleStep(NEW, [block]);
    hide StreamRange;
    var (r, buffer', w1) := CheckNow(w, [block], Infinite, block);
    assert r == Ok(Some(BlockAt(NEW, 0))) && buffer' == [];
    assert w1 == World([Up(NEW)], [Checked(NEW, [block], true)]);
    hide CheckNow;
    assert Send(w1, ReorgDetected(0)).1.history == [Checked(NEW, [block], true), Sent(ReorgDetected(0), NEW)];
  }
}
