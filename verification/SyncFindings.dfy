/** Where historical and sync runs do less than one would expect, and exactly when. */
module SyncFindings {
  import opened Wrappers
  import opened U64
  import opened Chains
  import opened RangeIterator
  import opened RingBuffers
  import opened ReorgHandler
  import opened Outside
  import opened Replay
  import opened RangeStream
  import opened LiveStream
  import opened Historical
  import opened Sync
  import opened Findings

  // -------------------------------------------------------------------------
  // Phases over given moments
  // -------------------------------------------------------------------------

  /** The next moment is an `Up(c)`, and `rest` comes after it. */
  ghost predicate Next(w: World, c: Chain, rest: seq<Moment>) {
    w.future == [Up(c)] + rest
  }

  lemma NextNow(w: World, c: Chain, rest: seq<Moment>)
    requires Next(w, c, rest)
    ensures Now(w) == Up(c) && Later(w) == World(rest, w.history)
  {
  }

  lemma SendNext(w: World, c: Chain, rest: seq<Moment>, message: Message)
    requires Next(w, c, rest)
    ensures Send(w, message) == (true, World(rest, w.history + [Sent(message, c)]))
  {
  }

  lemma FetchNext(w: World, c: Chain, rest: seq<Moment>, n: nat)
    requires Next(w, c, rest) && n < |c.blocks|
    ensures Fetch(w, n) == (Ok(BlockAt(c, n)), World(rest, w.history + [Anchored(c, 0)]))
  {
  }

  lemma FinalizedNext(w: World, c: Chain, rest: seq<Moment>)
    requires Next(w, c, rest) && c.finalized == Some(0)
    ensures ReadFinalized(w) == Finalized(0, World(rest, w.history + [Anchored(c, 1)]))
  {
  }

  lemma CompareNext(w: World, c: Chain, rest: seq<Moment>, block: Block, kept: nat)
    requires Next(w, c, rest) && block.number < |c.blocks|
    ensures CompareEnd(block, kept, w) ==
            if OnChain(c, block) then Stable(World(rest, w.history + [Compared(c, false, kept)]))
            else Reorged(BlockAt(c, block.number), World(rest, w.history + [Compared(c, true, kept)]))
  {
  }

  lemma OneTile(lo: nat, hi: nat, size: nat)
    requires lo <= hi < lo + size
    ensures Tiling(lo, hi, size) == [Range(lo, hi)]
  {
    assert Tiling(hi + 1, hi, size) == [];
  }

  lemma SendOne(w: World, c: Chain, rest: seq<Moment>, r: Range)
    requires Next(w, c, rest)
    ensures SendAll(w, [r]) == (true, World(rest, w.history + [Sent(Data(r), c)]))
  {
    SendNext(w, c, rest, Data(r));
    assert [r][1..] == [];
  }

  /** A run that starts above the finalized height 0 has nothing to stream as finalized. */
  lemma AboveFinalized(start: nat, end: nat, size: nat, w: World, c: Chain, rest: seq<Moment>)
    requires 1 <= start <= end && size >= 1 && Next(w, c, rest) && c.finalized == Some(0)
    ensures StreamHistorical(start, end, size, w)
         == StreamRest(start, end, size, 0, World(rest, w.history + [Anchored(c, 1)]))
  {
    FinalizedNext(w, c, rest);
    hide ReadFinalized, StreamRest;
    assert Tiling(start, 0, size) == [];
  }

  lemma EndBlockRead(restStart: nat, end: nat, size: nat, w: World, c: Chain, rest: seq<Moment>)
    requires size >= 1 && restStart >= 1 && Next(w, c, rest) && end < |c.blocks|
    ensures StreamRest(restStart, end, size, 0, w)
         == Passes(restStart, end, size, restStart - 1, BlockAt(c, end), World(rest, w.history + [Anchored(c, 0)]))
  {
    FetchNext(w, c, rest, end);
    hide Fetch, Passes;
  }

  /** A pass over one range. */
  lemma OneRangePass(w: World, c: Chain, start: nat, end: nat, rest: seq<Moment>)
    requires Next(w, c, rest) && start <= end < start + 10
    ensures Pass(start, end, 10, w) == (true, World(rest, w.history + [Sent(Data(Range(start, end)), c)]))
  {
    OneTile(start, end, 10);
    hide Tiling;
    SendOne(w, c, rest, Range(start, end));
  }

  /** A pass over one range that finds its end block in place. */
  lemma StablePass(w: World, c: Chain, start: nat, end: nat, ancestor: nat, rest: seq<Moment>)
    requires w.future == [Up(c)] + ([Up(c)] + rest) && start <= end < start + 10 && end < |c.blocks|
    ensures OnePass(start, end, 10, ancestor, BlockAt(c, end), w)
         == Finished(Ended(true, World(rest, w.history + [Sent(Data(Range(start, end)), c)] + [Compared(c, false, start)])))
  {
    hide CompareEnd, Pass;
    OneRangePass(w, c, start, end, [Up(c)] + rest);
    CompareNext(World([Up(c)] + rest, w.history + [Sent(Data(Range(start, end)), c)]), c, rest, BlockAt(c, end), start);
  }

  /** A pass over one range on `x` that is found to be on an abandoned branch. */
  lemma AbandonedRange(w: World, x: Chain, c: Chain, start: nat, end: nat, ancestor: nat, rest: seq<Moment>)
    requires w.future == [Up(x)] + ([Up(c)] + ([Up(c)] + rest)) && start <= end < start + 10
    requires end < |x.blocks| && end < |c.blocks| && !OnChain(c, BlockAt(x, end))
    ensures OnePass(start, end, 10, ancestor, BlockAt(x, end), w)
         == Again(BlockAt(c, end), World(rest, w.history + [Sent(Data(Range(start, end)), x)] + [Compared(c, true, start)]
                                                         + [Sent(ReorgDetected(ancestor), c)]))
  {
    hide CompareEnd, Pass, Send;
    var f2 := [Up(c)] + rest;
    var f1 := [Up(c)] + f2;
    OneRangePass(w, x, start, end, f1);
    var w1 := World(f1, w.history + [Sent(Data(Range(start, end)), x)]);
    CompareNext(w1, c, f2, BlockAt(x, end), start);
    var w2 := World(f2, w1.history + [Compared(c, true, start)]);
    SendNext(w2, c, rest, ReorgDetected(ancestor));
  }

  /** A historical run above the finalized height, up to its first pass. */
  lemma RestStarts(w: World, c: Chain, start: nat, end: nat, size: nat, rest: seq<Moment>)
    requires w.future == [Up(c)] + ([Up(c)] + rest)
    requires size >= 1 && 1 <= start <= end < |c.blocks| && c.finalized == Some(0)
    ensures StreamHistorical(start, end, size, w)
         == Passes(start, end, size, start - 1, BlockAt(c, end), World(rest, w.history + [Anchored(c, 1)] + [Anchored(c, 0)]))
  {
    hide StreamHistorical, StreamRest, Passes;
    var f1 := [Up(c)] + rest;
    AboveFinalized(start, end, size, w, c, f1);
    EndBlockRead(start, end, size, World(f1, w.history + [Anchored(c, 1)]), c, rest);
  }

  lemma OnePassRun(start: nat, end: nat, size: nat, ancestor: nat, endBlock: Block, w: World, ended: Ended)
    requires size >= 1 && OnePass(start, end, size, ancestor, endBlock, w) == Finished(ended)
    ensures Passes(start, end, size, ancestor, endBlock, w) == ended
  {
    hide OnePass;
  }

  lemma TwoPasses(start: nat, end: nat, size: nat, ancestor: nat, endBlock: Block, w: World, newEnd: Block, w': World, ended: Ended)
    requires size >= 1 && OnePass(start, end, size, ancestor, endBlock, w) == Again(newEnd, w')
    requires OnePass(start, end, size, ancestor, newEnd, w') == Finished(ended)
    ensures Passes(start, end, size, ancestor, endBlock, w) == ended
  {
    hide OnePass;
    OnePassRun(start, end, size, ancestor, newEnd, w', ended);
  }

  /** A historical run over one range that finds its end block in place. */
  lemma OneRangeRun(w: World, c: Chain, start: nat, end: nat, rest: seq<Moment>)
    requires w.future == [Up(c)] + ([Up(c)] + ([Up(c)] + ([Up(c)] + rest)))
    requires 1 <= start <= end < |c.blocks| && end < start + 10 && c.finalized == Some(0)
    ensures StreamHistorical(start, end, 10, w)
         == Ended(true, World(rest, w.history + [Anchored(c, 1)] + [Anchored(c, 0)] + [Sent(Data(Range(start, end)), c)]
                                              + [Compared(c, false, start)]))
  {
    hide StreamHistorical, Passes, OnePass;
    var f2 := [Up(c)] + ([Up(c)] + rest);
    RestStarts(w, c, start, end, 10, f2);
    var w2 := World(f2, w.history + [Anchored(c, 1)] + [Anchored(c, 0)]);
    StablePass(w2, c, start, end, start - 1, rest);
    OnePassRun(start, end, 10, start - 1, BlockAt(c, end), w2,
               Ended(true, World(rest, w2.history + [Sent(Data(Range(start, end)), c)] + [Compared(c, false, start)])));
  }

  lemma HeadNext(w: World, c: Chain, rest: seq<Moment>)
    requires Next(w, c, rest) && c.blocks != []
    ensures ReadHead(w) == (Ok(|c.blocks| - 1), World(rest, w.history))
  {
  }

  // -------------------------------------------------------------------------
  // A reorg across the start of a round
  // -------------------------------------------------------------------------

  /** The old branch with a block 4, and with another block 4. */
  const LIVE_OLD: Chain := ChainData(OLD.blocks + [Content(4, [])], Some(0))
  const LIVE_NEW: Chain := ChainData(OLD.blocks + [Content(14, [])], Some(0))

  const ROUNDS_TIMELINE: seq<Moment> :=
    [Up(LIVE_OLD)] + ([Up(LIVE_OLD)] + ([Up(LIVE_OLD)] + ([Up(LIVE_OLD)] + ([Up(LIVE_OLD)] + SECOND_ROUND))))

  const SECOND_ROUND: seq<Moment> :=
    [Up(LIVE_OLD)] + ([Up(LIVE_OLD)] + ([Up(LIVE_OLD)] + ([Up(NEW)] + ([Up(NEW)] + ([Up(NEW)] + ([Up(NEW)] + ([Up(NEW)] + [])))))))

  function FirstRoundEvents(): seq<Event> {
    [Anchored(LIVE_OLD, 1), Anchored(LIVE_OLD, 0), Sent(Data(Range(1, 2)), LIVE_OLD), Compared(LIVE_OLD, false, 1)]
  }

  function SecondRoundEvents(): seq<Event> {
    [Anchored(LIVE_OLD, 1), Anchored(LIVE_OLD, 0), Sent(Data(Range(3, 4)), LIVE_OLD), Compared(NEW, true, 3),
     Sent(ReorgDetected(2), NEW), Sent(Data(Range(3, 4)), NEW), Compared(NEW, false, 3)]
  }

  /** A catch-up of two rounds, blocks 1 and 2 and then blocks 3 and 4, and the chain forks above
      block 0 during the second. The comparison finds out, but the notified ancestor is block 2, right
      before the round: the catch-up succeeds, and its consumer keeps blocks 1 and 2 of the abandoned
      branch. */
  lemma RoundBoundaryRun()
    ensures var r := CatchUp(1, 2, 0, 10, World(ROUNDS_TIMELINE, []));
            && r == CaughtUp(5, World([], FirstRoundEvents() + SecondRoundEvents()))
            && Watch(START, r.w.history).view.held == Blocks(LIVE_OLD, 1, 3) + Blocks(NEW, 3, 5)
            && !OnChain(NEW, BlockAt(LIVE_OLD, 1)) && !OnChain(NEW, BlockAt(LIVE_OLD, 2))
  {
    hide CatchUp, Watch, Replayed, Blocks;
    TwoRounds();
    WatchReplays(START, FirstRoundEvents() + SecondRoundEvents());
    var m := FirstRoundHolds(SecondRoundEvents());
    SecondRoundHolds(m);
    assert HashAt(LIVE_OLD, 1)[1] != HashAt(NEW, 1)[1] && HashAt(LIVE_OLD, 2)[1] != HashAt(NEW, 2)[1];
  }

  lemma TwoRounds()
    ensures CatchUp(1, 2, 0, 10, World(ROUNDS_TIMELINE, [])) == CaughtUp(5, World([], FirstRoundEvents() + SecondRoundEvents()))
  {
    hide StreamHistorical, ReadHead;
    var w := World(ROUNDS_TIMELINE, []);
    OneRangeRun(w, LIVE_OLD, 1, 2, [Up(LIVE_OLD)] + SECOND_ROUND);
    assert w.history + [Anchored(LIVE_OLD, 1)] + [Anchored(LIVE_OLD, 0)] + [Sent(Data(Range(1, 2)), LIVE_OLD)]
         + [Compared(LIVE_OLD, false, 1)] == FirstRoundEvents();
    HeadNext(World([Up(LIVE_OLD)] + SECOND_ROUND, FirstRoundEvents()), LIVE_OLD, SECOND_ROUND);
    SecondRound(World(SECOND_ROUND, FirstRoundEvents()));
    hide CatchUp;
    CatchUpStep(1, 2, w, FirstRoundEvents(), LIVE_OLD, SECOND_ROUND);
  }

  /** A round that gets through, and the head read after it. */
  lemma CatchUpStep(start: nat, tip: nat, w: World, h: seq<Event>, c: Chain, rest: seq<Moment>)
    requires start < tip && StreamHistorical(start, tip, 10, w) == Ended(true, World([Up(c)] + rest, h)) && c.blocks != []
    ensures CatchUp(start, tip, 0, 10, w) == CatchUp(tip + 1, |c.blocks| - 1, 0, 10, World(rest, h))
  {
    HeadNext(World([Up(c)] + rest, h), c, rest);
    hide StreamHistorical, ReadHead;
  }

  lemma SecondRound(w: World)
    requires w.future == SECOND_ROUND
    ensures CatchUp(3, 4, 0, 10, w) == CaughtUp(5, World([], w.history + SecondRoundEvents()))
  {
    hide StreamHistorical, ReadHead;
    SecondRoundRun(w);
    CatchUpStep(3, 4, w, w.history + SecondRoundEvents(), NEW, []);
  }

  lemma SecondRoundRun(w: World)
    requires w.future == SECOND_ROUND
    ensures StreamHistorical(3, 4, 10, w) == Ended(true, World([Up(NEW)] + [], w.history + SecondRoundEvents()))
  {
    hide StreamHistorical, OnePass;
    var f3 := [Up(NEW)] + [];
    var f2 := [Up(NEW)] + ([Up(NEW)] + f3);
    var f1 := [Up(LIVE_OLD)] + ([Up(NEW)] + ([Up(NEW)] + f2));
    RestStarts(w, LIVE_OLD, 3, 4, 10, f1);
    var w1 := World(f1, w.history + [Anchored(LIVE_OLD, 1)] + [Anchored(LIVE_OLD, 0)]);
    assert HashAt(LIVE_OLD, 4)[1] != HashAt(NEW, 4)[1];
    AbandonedRange(w1, LIVE_OLD, NEW, 3, 4, 2, f2);
    var w2 := World(f2, w1.history + [Sent(Data(Range(3, 4)), LIVE_OLD)] + [Compared(NEW, true, 3)] + [Sent(ReorgDetected(2), NEW)]);
    StablePass(w2, NEW, 3, 4, 2, f3);
    var w3 := World(f3, w2.history + [Sent(Data(Range(3, 4)), NEW)] + [Compared(NEW, false, 3)]);
    assert w3.history == w.history + SecondRoundEvents();
    hide Passes, HashAt;
    TwoPasses(3, 4, 10, 2, BlockAt(LIVE_OLD, 4), w1, BlockAt(NEW, 4), w2, Ended(true, w3));
  }

  lemma FirstRoundHolds(rest: seq<Event>) returns (m: Monitor)
    ensures Replayed(START, FirstRoundEvents() + rest) == Replayed(m, rest)
    ensures HoldsNow(m, Blocks(LIVE_OLD, 1, 3), 1, 3)
  {
    hide Observe, Replayed, Blocks;
    var h := FirstRoundEvents();
    LookHolds(START, h[0], [], 0, 0);
    var m1 := Observe(START, h[0]);
    LookHolds(m1, h[1], [], 0, 0);
    var m2 := Observe(m1, h[1]);
    DataHolds(m2, Range(1, 2), LIVE_OLD, [], 0, 0);
    var m3 := Observe(m2, h[2]);
    assert [] + Read(LIVE_OLD, Range(1, 2)) == Blocks(LIVE_OLD, 1, 3);
    LookHolds(m3, h[3], Blocks(LIVE_OLD, 1, 3), 1, 3);
    m := Observe(m3, h[3]);
    hide HoldsNow;
    Steps(START, m1, m2, h[..2], h[2..] + rest);
    Steps(m2, m3, m, h[2..], rest);
    assert h + rest == h[..2] + (h[2..] + rest);
  }

  lemma SecondRoundHolds(m: Monitor)
    requires HoldsNow(m, Blocks(LIVE_OLD, 1, 3), 1, 3)
    ensures HoldsNow(Replayed(m, SecondRoundEvents()), Blocks(LIVE_OLD, 1, 3) + Blocks(NEW, 3, 5), 1, 5)
  {
    hide Observe, Replayed, Blocks, HoldsNow;
    var h := SecondRoundEvents();
    var held := Blocks(LIVE_OLD, 1, 3);
    LookHolds(m, h[0], held, 1, 3);
    var m1 := Observe(m, h[0]);
    LookHolds(m1, h[1], held, 1, 3);
    var m2 := Observe(m1, h[1]);
    var m5 := RoundVoided(m2, h[5..]);
    DataHolds(m5, Range(3, 4), NEW, held, 1, 3);
    assert Read(NEW, Range(3, 4)) == Blocks(NEW, 3, 5);
    var m6 := Observe(m5, h[5]);
    LookHolds(m6, h[6], held + Blocks(NEW, 3, 5), 1, 5);
    var m7 := Observe(m6, h[6]);
    Steps(m, m1, m2, h[..2], h[2..5] + h[5..]);
    assert h == h[..2] + (h[2..5] + h[5..]) && h[5..] == h[5..] + [];
    Steps(m5, m6, m7, h[5..], []);
    ReplayedNothing(m7);
  }

  /** The pass on the abandoned branch is dropped again, and what was streamed before is kept. */
  lemma RoundVoided(m: Monitor, rest: seq<Event>) returns (m': Monitor)
    requires HoldsNow(m, Blocks(LIVE_OLD, 1, 3), 1, 3)
    ensures Replayed(m, SecondRoundEvents()[2..5] + rest) == Replayed(m', rest)
    ensures HoldsNow(m', Blocks(LIVE_OLD, 1, 3), 1, 3)
  {
    hide Observe, Replayed, Blocks, HoldsNow, Kept;
    var h := SecondRoundEvents()[2..5];
    var held := Blocks(LIVE_OLD, 1, 3);
    DataHolds(m, Range(3, 4), LIVE_OLD, held, 1, 3);
    var m1 := Observe(m, h[0]);
    assert Read(LIVE_OLD, Range(3, 4)) == Blocks(LIVE_OLD, 3, 5);
    BlocksConcat(LIVE_OLD, 1, 3, 5);
    LookHolds(m1, h[1], Blocks(LIVE_OLD, 1, 5), 1, 5);
    var m2 := Observe(m1, h[1]);
    ReorgHolds(m2, 2, NEW, Blocks(LIVE_OLD, 1, 5), 1, 5);
    KeptBlocks(LIVE_OLD, 1, 5, 3);
    m' := Observe(m2, h[2]);
    Steps(m, m1, m2, h[..2], h[2..] + rest);
    ReplayedFirst(m2, h[2], rest);
    assert h + rest == h[..2] + (h[2..] + rest) && h[2..] + rest == [h[2]] + rest;
  }

  /** When the end block of a round is found to have changed, the consumer holds blocks of the
      snapshot `before` from `origin` up to the start of the round, and then whatever was read
      during the pass. What the notification leaves of it is canonical on the new snapshot exactly
      when the round is the first one or the last block before the round is still in place. */
  lemma RoundRestartIsCanonicalIff(
    before: Chain, origin: nat, restStart: nat, read: seq<Block>, endBlock: Block, w: World)
    requires 1 <= restStart <= endBlock.number && restStart <= |before.blocks|
    requires forall i | 0 <= i < |read| :: restStart <= read[i].number
    requires CompareEnd(endBlock, restStart, w).Reorged?
    ensures var c := Now(w).chain;
            && restStart <= |c.blocks|
            && (Kept(Blocks(before, origin, restStart) + read, (restStart - 1) + 1) == Blocks(c, origin, restStart)
                <==> origin >= restStart || OnChain(c, BlockAt(before, restStart - 1)))
  {
    hide Kept, Blocks;
    var c := Now(w).chain;
    var held := Blocks(before, origin, restStart);
    KeptConcat(held, read, restStart);
    KeptNothing(read, restStart);
    KeptBlocks(before, origin, restStart, restStart);
    if origin < restStart {
      SharedBlock(before, c, BlockAt(before, restStart - 1));
      if OnChain(c, BlockAt(before, restStart - 1)) {
        BlocksAgree(before, c, origin, restStart);
      } else {
        BlocksIndex(before, origin, restStart);
        BlocksIndex(c, origin, restStart);
        assert held[restStart - 1 - origin] != Blocks(c, origin, restStart)[restStart - 1 - origin];
      }
    } else {
      NoBlocks(before, origin, restStart);
      NoBlocks(c, origin, restStart);
    }
  }

  // -------------------------------------------------------------------------
  // An RPC error is taken for a stable end block
  // -------------------------------------------------------------------------

  function UnreadEvents(): seq<Event> {
    [Anchored(OLD, 1), Anchored(OLD, 0), Sent(Data(Range(1, 3)), OLD), Sent(Error(RpcError), NEW)]
  }

  /** Blocks 1 to 3 are streamed, the chain forks above block 0, and the node fails when the end
      block is read again. The error is streamed and the run succeeds; its consumer holds blocks
      that are all off the chain. */
  lemma UnreadEndBlockRun()
    ensures var w := World([Up(OLD)] + ([Up(OLD)] + ([Up(OLD)] + ([Moment(NEW, false, true)] + [Up(NEW)]))), []);
            var r := StreamHistorical(1, 3, 10, w);
            && r == Ended(true, World([], UnreadEvents()))
            && Watch(START, r.w.history).view.held == Blocks(OLD, 1, 4)
            && forall n: nat | 1 <= n < 4 :: !OnChain(NEW, BlockAt(OLD, n))
  {
    hide StreamHistorical, OnePass, Passes, Watch, Blocks;
    var f1 := [Up(OLD)] + ([Moment(NEW, false, true)] + [Up(NEW)]);
    var w := World([Up(OLD)] + ([Up(OLD)] + f1), []);
    RestStarts(w, OLD, 1, 3, 10, f1);
    var w1 := World(f1, w.history + [Anchored(OLD, 1)] + [Anchored(OLD, 0)]);
    UnreadPass(w1);
    assert w1.history + [Sent(Data(Range(1, 3)), OLD)] + [Sent(Error(RpcError), NEW)] == UnreadEvents();
    OnePassRun(1, 3, 10, 0, BlockAt(OLD, 3), w1, Ended(true, World([], UnreadEvents())));
    UnreadHolds();
    forall n: nat | 1 <= n < 4
      ensures !OnChain(NEW, BlockAt(OLD, n))
    {
      assert HashAt(OLD, n)[1] != HashAt(NEW, n)[1];
    }
  }

  lemma UnreadPass(w: World)
    requires w.future == [Up(OLD)] + ([Moment(NEW, false, true)] + [Up(NEW)])
    ensures OnePass(1, 3, 10, 0, BlockAt(OLD, 3), w)
         == Finished(Ended(true, World([], w.history + [Sent(Data(Range(1, 3)), OLD)] + [Sent(Error(RpcError), NEW)])))
  {
    hide Pass;
    var f1 := [Moment(NEW, false, true)] + [Up(NEW)];
    OneRangePass(w, OLD, 1, 3, f1);
    var w1 := World(f1, w.history + [Sent(Data(Range(1, 3)), OLD)]);
    assert Later(w1).future == [Up(NEW)];
  }

  lemma UnreadHolds()
    ensures Watch(START, UnreadEvents()).view.held == Blocks(OLD, 1, 4)
  {
    hide Observe, Replayed, Blocks, Watch;
    var h := UnreadEvents();
    WatchReplays(START, h);
    LookHolds(START, h[0], [], 0, 0);
    var m1 := Observe(START, h[0]);
    LookHolds(m1, h[1], [], 0, 0);
    var m2 := Observe(m1, h[1]);
    DataHolds(m2, Range(1, 3), OLD, [], 0, 0);
    var m3 := Observe(m2, h[2]);
    assert [] + Read(OLD, Range(1, 3)) == Blocks(OLD, 1, 4);
    LookHolds(m3, h[3], Blocks(OLD, 1, 4), 1, 4);
    var m4 := Observe(m3, h[3]);
    Steps(START, m1, m2, h[..2], h[2..]);
    Steps(m2, m3, m4, h[2..], []);
    ReplayedNothing(m4);
    assert h == h[..2] + h[2..] && h[2..] == h[2..] + [];
  }

  // -------------------------------------------------------------------------
  // A reorg between two ranges of a pass is within the windows
  // -------------------------------------------------------------------------

  /** Blocks 1 and 2 are streamed in two ranges, and the chain forks between the two. The run
      notices, streams both again, and is faithful; its consumer holds the new branch. */
  lemma ReorgBetweenRangesRun()
    ensures var w := World([Up(OLD), Up(OLD), Up(OLD), Up(NEW), Up(NEW), Up(NEW), Up(NEW), Up(NEW), Up(NEW)], []);
            var r := StreamHistorical(1, 2, 1, w);
            var m := Watch(START, r.w.history);
            && r.open && m.faithful && Settled(m) && m.view.held == Blocks(NEW, 1, 3)
  {
    ReorgBetweenRangesOutcome();
    var h := ReorgBetweenRangesEvents();
    WatchReplays(START, h);
    ReorgBetweenRangesHistory();
    hide StreamHistorical, Watch, Replayed;
  }

  function ReorgBetweenRangesEvents(): seq<Event> {
    var a, b := Data(Range(1, 1)), Data(Range(2, 2));
    [Anchored(OLD, 1), Anchored(OLD, 0), Sent(a, OLD), Sent(b, NEW), Compared(NEW, true, 1), Sent(ReorgDetected(0), NEW),
     Sent(a, NEW), Sent(b, NEW), Compared(NEW, false, 1)]
  }

  /** A pass over two ranges. */
  lemma TwoRangePass(w: World, x: Chain, y: Chain, rest: seq<Moment>)
    requires w.future == [Up(x), Up(y)] + rest
    ensures SendAll(w, Tiling(1, 2, 1)) == (true, World(rest, w.history + [Sent(Data(Range(1, 1)), x), Sent(Data(Range(2, 2)), y)]))
  {
    var a, b := Range(1, 1), Range(2, 2);
    OneTile(2, 2, 1);
    assert Tiling(1, 2, 1) == [a] + [b];
    assert w.future == [Up(x)] + ([Up(y)] + rest);
    SendNext(w, x, [Up(y)] + rest, Data(a));
    var w1 := World([Up(y)] + rest, w.history + [Sent(Data(a), x)]);
    SendOne(w1, y, rest, b);
    assert [a, b][1..] == [b];
    assert w1.history + [Sent(Data(b), y)] == w.history + [Sent(Data(a), x), Sent(Data(b), y)];
  }

  lemma ReorgBetweenRangesOutcome()
    ensures var w := World([Up(OLD), Up(OLD), Up(OLD), Up(NEW), Up(NEW), Up(NEW), Up(NEW), Up(NEW), Up(NEW)], []);
            StreamHistorical(1, 2, 1, w) == Ended(true, World([], ReorgBetweenRangesEvents()))
  {
    hide OnePass, StreamHistorical, Passes;
    var w := World([Up(OLD), Up(OLD), Up(OLD), Up(NEW), Up(NEW), Up(NEW), Up(NEW), Up(NEW), Up(NEW)], []);
    var h := ReorgBetweenRangesEvents();
    var rest := [Up(OLD), Up(NEW), Up(NEW), Up(NEW), Up(NEW), Up(NEW), Up(NEW)];
    assert w.future == [Up(OLD)] + ([Up(OLD)] + rest);
    RestStarts(w, OLD, 1, 2, 1, rest);
    var w2 := World(rest, h[..2]);
    assert w.history + [Anchored(OLD, 1)] + [Anchored(OLD, 0)] == w2.history;
    FirstPass(w2);
    var w3 := World([Up(NEW), Up(NEW), Up(NEW)], h[..6]);
    SecondPass(w3);
    TwoPasses(1, 2, 1, 0, BlockAt(OLD, 2), w2, BlockAt(NEW, 2), w3, Ended(true, World([], h)));
  }

  lemma FirstPass(w: World)
    requires w == World([Up(OLD), Up(NEW), Up(NEW), Up(NEW), Up(NEW), Up(NEW), Up(NEW)], ReorgBetweenRangesEvents()[..2])
    ensures OnePass(1, 2, 1, 0, BlockAt(OLD, 2), w)
         == Again(BlockAt(NEW, 2), World([Up(NEW), Up(NEW), Up(NEW)], ReorgBetweenRangesEvents()[..6]))
  {
    hide OnePass;
    var h := ReorgBetweenRangesEvents();
    var rest := [Up(NEW), Up(NEW), Up(NEW)];
    assert w.future == [Up(OLD), Up(NEW)] + ([Up(NEW)] + ([Up(NEW)] + rest));
    ForkedPass(w, rest);
    assert w.history + [h[2], h[3]] + [h[4]] + [h[5]] == h[..6];
  }

  lemma ForkedPass(w: World, rest: seq<Moment>)
    requires w.future == [Up(OLD), Up(NEW)] + ([Up(NEW)] + ([Up(NEW)] + rest))
    ensures OnePass(1, 2, 1, 0, BlockAt(OLD, 2), w)
         == Again(BlockAt(NEW, 2),
                  World(rest, w.history + [Sent(Data(Range(1, 1)), OLD), Sent(Data(Range(2, 2)), NEW)]
                                        + [Compared(NEW, true, 1)] + [Sent(ReorgDetected(0), NEW)]))
  {
    var f2 := [Up(NEW)] + rest;
    var f1 := [Up(NEW)] + f2;
    TwoRangePass(w, OLD, NEW, f1);
    var w1 := World(f1, w.history + [Sent(Data(Range(1, 1)), OLD), Sent(Data(Range(2, 2)), NEW)]);
    assert HashAt(OLD, 2)[1] != HashAt(NEW, 2)[1];
    CompareNext(w1, NEW, f2, BlockAt(OLD, 2), 1);
    var w2 := World(f2, w1.history + [Compared(NEW, true, 1)]);
    SendNext(w2, NEW, rest, ReorgDetected(0));
    hide SendAll, CompareEnd, Send, Tiling, HashAt;
  }

  lemma SecondPass(w: World)
    requires w == World([Up(NEW), Up(NEW), Up(NEW)], ReorgBetweenRangesEvents()[..6])
    ensures OnePass(1, 2, 1, 0, BlockAt(NEW, 2), w) == Finished(Ended(true, World([], ReorgBetweenRangesEvents())))
  {
    var h := ReorgBetweenRangesEvents();
    assert w.future == [Up(NEW), Up(NEW)] + [Up(NEW)];
    TwoRangePass(w, NEW, NEW, [Up(NEW)]);
    var w1 := World([Up(NEW)], h[..8]);
    assert w.history + [h[6], h[7]] == h[..8];
    assert w1.future == [Up(NEW)] + [];
    CompareNext(w1, NEW, [], BlockAt(NEW, 2), 1);
    assert w1.history + [h[8]] == h;
    hide SendAll, CompareEnd, Tiling;
  }

  lemma ReorgBetweenRangesHistory()
    ensures var m := Replayed(START, ReorgBetweenRangesEvents());
            m.faithful && Settled(m) && m.view.held == Blocks(NEW, 1, 3)
  {
    var h := ReorgBetweenRangesEvents();
    hide Observe, Replayed, Idle, Settled, Blocks;
    var m := AbandonedPass(h[6..]);
    assert h == h[..6] + h[6..];
    RepeatedPass(m);
  }

  /** The pass over the old branch, up to the notification. */
  lemma AbandonedPass(rest: seq<Event>) returns (m: Monitor)
    ensures Replayed(START, ReorgBetweenRangesEvents()[..6] + rest) == Replayed(m, rest)
    ensures Idle(m, NEW, 1) && m.final == 0
  {
    hide Observe, Replayed;
    var h := ReorgBetweenRangesEvents()[..6];
    var a, b := Range(1, 1), Range(2, 2);
    AnchorIdle(START, OLD, 1);
    var m1 := Observe(START, h[0]);
    AnchorIdle(m1, OLD, 0);
    var m2 := Observe(m1, h[1]);
    FirstRange(m2, a, OLD);
    var m3 := Observe(m2, h[2]);
    NextRange(m3, OLD, 0, [Source(OLD, 1, 2)], 1, b, NEW);
    var m4 := Observe(m3, h[3]);
    UnsharedCompare(m4, [Source(OLD, 1, 2), Source(NEW, 2, 3)], 3);
    var m5 := Observe(m4, h[4]);
    BlocksIndex(OLD, 1, 2);
    BlocksIndex(NEW, 2, 3);
    VoidsAll(m5, 0, NEW);
    m := Observe(m5, h[5]);
    hide Idle, Covers, Blocks, Read;
    Steps(START, m1, m2, h[..2], h[2..] + rest);
    Steps(m2, m3, m4, h[2..4], h[4..] + rest);
    Steps(m4, m5, m, h[4..], rest);
    assert h + rest == h[..2] + (h[2..] + rest) && h[2..] + rest == h[2..4] + (h[4..] + rest);
  }

  /** The pass over the new branch. */
  lemma RepeatedPass(m: Monitor)
    requires Idle(m, NEW, 1) && m.final == 0
    ensures var m' := Replayed(m, ReorgBetweenRangesEvents()[6..]);
            m'.faithful && Settled(m') && m'.view.held == Blocks(NEW, 1, 3)
  {
    hide Observe, Replayed;
    var h := ReorgBetweenRangesEvents()[6..];
    var a, b := Range(1, 1), Range(2, 2);
    FirstRange(m, a, NEW);
    var m1 := Observe(m, h[0]);
    NextRange(m1, NEW, 1, [Source(NEW, 1, 2)], 1, b, NEW);
    var m2 := Observe(m1, h[1]);
    CleanLook(m2, 1, [Source(NEW, 1, 2), Source(NEW, 2, 3)], 3, h[2]);
    BlocksConcat(NEW, 1, 2, 3);
    hide Idle, Covers, Settled, Blocks, Read;
    Steps(m, m1, m2, h[..2], h[2..]);
    ReplayedFirst(m2, h[2], []);
    ReplayedNothing(Observe(m2, h[2]));
    assert h == h[..2] + h[2..] && h[2..] == [h[2]] + [];
  }

  /** A comparison that finds a reorg before anything below the pass was streamed. */
  lemma UnsharedCompare(m: Monitor, sources: seq<Source>, n: nat)
    requires Covers(m, OLD, 0, sources, 1, n)
    ensures var m' := Observe(m, Compared(NEW, true, 1));
            m'.faithful && m'.pending && m'.base == NEW && m'.floor == 0 && m'.final == 0 && m'.view == m.view
  {
    hide Accords, AgreeBelow, CommonLength, Canonical;
  }

  // -------------------------------------------------------------------------
  // A reorg at the switch to live
  // -------------------------------------------------------------------------

  /** A consumer holds blocks from `origin` on, up to a block of the live phase, which starts at
      `s`; and the check that finds that block gone is asked with this buffer. Once the next range
      has been read the consumer holds everything from `origin` on exactly when the check could go
      back to at most the last block before `s`, if it was the check on a new header, and one block
      further if it was the check of a batch. Otherwise the blocks in between are never streamed
      again, whether they changed or not. */
  lemma LiveRestartContinuesIff(
    cfg: Config, before: Chain, origin: nat, block: Block, c: Chain, buffer: seq<Block>, hi: nat)
    requires origin + 1 < cfg.streamStart <= block.number <= hi < |c.blocks|
    requires OnChain(before, block) && !OnChain(c, block) && FinalityKept(before, c) && c.finalized.Some?
    requires Increasing(buffer) && TrueTo(before, buffer, block.number + 1)
    ensures var r := CheckOn(c, buffer, cfg.capacity, block).0;
            && r.Ok? && r.value.Some?
            && var a := r.value.value;
            var held := Kept(Blocks(before, origin, block.number + 1), a.number + 1);
            var onHeader := Rewound(cfg, a).batchStart;
            var inBatch := Max(a.number + 1, MinCommonAncestor(cfg));
            && (held + Read(c, Range(onHeader, hi)) == Blocks(c, origin, hi + 1) <==> Reaches(c, buffer, cfg.streamStart))
            && (held + Read(c, Range(inBatch, hi)) == Blocks(c, origin, hi + 1) <==> Reaches(c, buffer, cfg.streamStart - 1))
  {
    hide CheckOn, Reaches, FinalityKept, TrueTo, Increasing, OnChain, Kept, Blocks, AgreeBelow, Read;
    RestartAnswer(before, c, buffer, cfg.capacity, block, cfg.streamStart);
    var a := CheckOn(c, buffer, cfg.capacity, block).0.value.value;
    RestartCoversIff(before, origin, block.number + 1, a.number, c, Rewound(cfg, a).batchStart, hi);
    RestartCoversIff(before, origin, block.number + 1, a.number, c, Max(a.number + 1, MinCommonAncestor(cfg)), hi);
  }

  lemma RestartAnswer(before: Chain, c: Chain, buffer: seq<Block>, capacity: Capacity, block: Block, s: nat)
    requires OnChain(before, block) && !OnChain(c, block) && FinalityKept(before, c) && c.finalized.Some? && s >= 1
    requires Increasing(buffer) && TrueTo(before, buffer, block.number + 1)
    ensures var r := CheckOn(c, buffer, capacity, block).0;
            && r.Ok? && r.value.Some?
            && var a := r.value.value.number;
            && a < block.number < |before.blocks| && AgreeBelow(before, c, a + 1)
            && (s <= a + 1 <==> Reaches(c, buffer, s))
            && (s - 1 <= a + 1 <==> Reaches(c, buffer, s - 1))
  {
    AnswersReorg(c, buffer, capacity, block);
    FinalizedReaches(c, buffer);
    hide CheckOn;
    ReorgAnswer(before, c, buffer, capacity, block, 0);
    ReachesIff(c, buffer, capacity, block, s);
    ReachesIff(c, buffer, capacity, block, s - 1);
    hide Reaches, FinalityKept, TrueTo, Increasing;
    AgreeLess(before, c, CommonLength(before, c), CheckOn(c, buffer, capacity, block).0.value.value.number + 1);
  }

  lemma FinalizedReaches(c: Chain, buffer: seq<Block>)
    requires c.finalized.Some?
    ensures Reaches(c, buffer, 0)
  {
  }

  /** A view rolled back to `a` is completed by a range from `start` exactly when nothing lies in
      between. */
  lemma RestartCoversIff(before: Chain, origin: nat, mark: nat, a: nat, c: Chain, start: nat, hi: nat)
    requires origin < mark <= |before.blocks| && a < mark && AgreeBelow(before, c, a + 1)
    requires a < start <= hi + 1 <= |c.blocks| && origin < start
    ensures Kept(Blocks(before, origin, mark), a + 1) + Read(c, Range(start, hi)) == Blocks(c, origin, hi + 1)
       <==> start == a + 1
  {
    hide AgreeBelow, Kept, Blocks;
    KeptBlocks(before, origin, mark, a + 1);
    BlocksAgree(before, c, origin, a + 1);
    BlocksIndex(c, start, hi + 1);
    BlocksIndex(c, origin, hi + 1);
    if origin <= a + 1 {
      BlocksIndex(c, origin, a + 1);
      if start == a + 1 {
        BlocksConcat(c, origin, start, hi + 1);
      }
    } else {
      NoBlocks(c, origin, a + 1);
    }
  }

  /** The live phase of a sync run begins with an empty buffer, so until its first batch is checked,
      and with capacity 0 for ever, this is a condition on the finalized height alone: it has to have
      reached the last block before the live start (one block lower during a batch). */
  lemma FreshLiveContinuesIff(cfg: Config, before: Chain, origin: nat, block: Block, c: Chain, hi: nat)
    requires origin + 1 < cfg.streamStart <= block.number <= hi < |c.blocks|
    requires OnChain(before, block) && !OnChain(c, block) && FinalityKept(before, c) && c.finalized.Some?
    ensures var f := c.finalized.value;
            var held := Kept(Blocks(before, origin, block.number + 1), f + 1);
            var onHeader := Rewound(cfg, BlockAt(c, f)).batchStart;
            var inBatch := Max(f + 1, MinCommonAncestor(cfg));
            && CheckOn(c, [], cfg.capacity, block).0 == Ok(Some(BlockAt(c, f)))
            && (held + Read(c, Range(onHeader, hi)) == Blocks(c, origin, hi + 1) <==> cfg.streamStart <= f + 1)
            && (held + Read(c, Range(inBatch, hi)) == Blocks(c, origin, hi + 1) <==> cfg.streamStart <= f + 2)
  {
    LiveRestartContinuesIff(cfg, before, origin, block, c, [], hi);
    EmptyBufferAnswers(c, cfg.capacity, block);
    EmptyBufferReachesIff(c, cfg.streamStart);
    EmptyBufferReachesIff(c, cfg.streamStart - 1);
    hide CheckOn, Reaches, FinalityKept, OnChain, Kept, Blocks, Read, HashAt;
  }

  lemma EmptyBufferReachesIff(c: Chain, n: nat)
    ensures Reaches(c, [], n) <==> c.finalized.Some? && n <= c.finalized.value + 1
  {
  }

  const SWITCH_TIMELINE: seq<Moment> :=
    [Up(OLD)] + ([Up(OLD)] + ([Up(OLD)] + ([Up(OLD)] + ([Up(OLD)] + ([Up(OLD)] + ([Up(LIVE_OLD)] + ([Up(LIVE_OLD)] + LIVE_TIMELINE)))))))

  const LIVE_TIMELINE: seq<Moment> := [Up(LIVE_OLD), Up(LIVE_OLD), Up(LIVE_NEW), Up(LIVE_NEW)] + [Up(LIVE_NEW), Up(LIVE_NEW), Up(LIVE_NEW)]

  /** Blocks 1 to 3 are caught up on, the run switches to live and streams block 4, and only that
      block is replaced. The reorg forks right at the switch, but the live phase starts with an
      empty buffer: it notifies the finalized block 0 and restarts at block 3. The run goes on, and
      its consumer has lost blocks 1 and 2, which never changed. */
  lemma SwitchHoleRun()
    ensures var live := RunSync(1, 0, 10, Infinite, [Header(4)], World(SWITCH_TIMELINE, []));
            var m := Watch(START, live.w.history);
            && live.Open? && live.state.previousBatchEnd == Some(BlockAt(LIVE_NEW, 4))
            && m.view.held == Blocks(LIVE_NEW, 3, 5)
            && AgreeBelow(LIVE_OLD, LIVE_NEW, 4)
  {
    SwitchHoleOutcome();
    WatchReplays(START, CaughtUpEvents() + LiveEvents());
    SwitchHoleHeld();
    hide RunSync, Watch, Replayed;
    assert LIVE_OLD.blocks[..4] == OLD.blocks && LIVE_NEW.blocks[..4] == OLD.blocks;
  }

  function CaughtUpEvents(): seq<Event> {
    [Anchored(OLD, 1), Anchored(OLD, 0), Sent(Data(Range(1, 3)), OLD), Compared(OLD, false, 1), Sent(SwitchingToLive, LIVE_OLD)]
  }

  function LiveEvents(): seq<Event> {
    [Anchored(LIVE_OLD, 0), Sent(Data(Range(4, 4)), LIVE_OLD), Checked(LIVE_NEW, [], true), Sent(ReorgDetected(0), LIVE_NEW),
     Anchored(LIVE_NEW, 0), Sent(Data(Range(3, 4)), LIVE_NEW), Checked(LIVE_NEW, [], false)]
  }

  lemma CatchUpOnce(w: World, c: Chain, rest: seq<Moment>)
    requires w.future == [Up(c)] + ([Up(c)] + ([Up(c)] + ([Up(c)] + ([Up(c)] + rest))))
    requires |c.blocks| == 4 && c.finalized == Some(0)
    ensures CatchUp(1, 3, 0, 10, w)
         == CaughtUp(4, World(rest, w.history + [Anchored(c, 1)] + [Anchored(c, 0)] + [Sent(Data(Range(1, 3)), c)] + [Compared(c, false, 1)]))
  {
    OneRangeRun(w, c, 1, 3, [Up(c)] + rest);
    hide StreamHistorical;
    var w1 := StreamHistorical(1, 3, 10, w).w;
    HeadNext(w1, c, rest);
    hide ReadHead;
    assert CatchUp(4, 3, 0, 10, World(rest, w1.history)) == CaughtUp(4, World(rest, w1.history));
  }

  lemma GoLiveNext(cfg: Config, items: seq<Item>, w: World, c: Chain, rest: seq<Moment>)
    requires cfg.size >= 1 && w.future == [Up(c)] + ([Up(c)] + rest)
    ensures GoLive(cfg, items, w) == StreamLive(cfg, items, false, [], World(rest, w.history + [Sent(SwitchingToLive, c)]))
  {
    NextNow(w, c, [Up(c)] + rest);
    SendNext(World([Up(c)] + rest, w.history), c, rest, SwitchingToLive);
    hide StreamLive, Send;
  }

  lemma LiveHoleRun(w: World)
    requires w.future == LIVE_TIMELINE
    ensures var live := StreamLive(Config(4, 0, 10, Infinite), [Header(4)], false, [], w);
            && live.Open? && live.state.previousBatchEnd == Some(BlockAt(LIVE_NEW, 4))
            && live.w.history == w.history + LiveEvents()
  {
    var cfg := Config(4, 0, 10, Infinite);
    LiveHoleStream(w);
    hide StreamRange;
    var items := [Header(4)];
    assert items[1..] == [] && SkipWhile(cfg, items) == items;
    var first := Initialize(cfg, 4, [], w);
    assert Continue(cfg, [], first) == first;
  }

  lemma LiveHoleStream(w: World)
    requires w.future == LIVE_TIMELINE
    ensures var outcome := StreamRange(Params(3, 4, 10, Infinite), 4, None, [], w);
            && outcome.Done? && outcome.last == Some(BlockAt(LIVE_NEW, 4))
            && outcome.w.history == w.history + LiveEvents()
  {
    hide StreamRange;
    var p := Params(3, 4, 10, Infinite);
    assert HashAt(LIVE_OLD, 4)[4] != HashAt(LIVE_NEW, 4)[4];
    RepeatedBatch(p, 4, w, LIVE_OLD, LIVE_OLD, LIVE_NEW, LIVE_NEW);
    assert RepeatedEvents(p, 4, 4, 3, LIVE_OLD, LIVE_OLD, LIVE_NEW, LIVE_NEW) == LiveEvents();
  }

  lemma SwitchHoleOutcome()
    ensures var live := RunSync(1, 0, 10, Infinite, [Header(4)], World(SWITCH_TIMELINE, []));
            && live.Open? && live.state.previousBatchEnd == Some(BlockAt(LIVE_NEW, 4))
            && live.w.history == CaughtUpEvents() + LiveEvents()
  {
    hide CatchUp, GoLive, StreamLive, ReadHead;
    var w := World(SWITCH_TIMELINE, []);
    var f2 := [Up(LIVE_OLD)] + ([Up(LIVE_OLD)] + LIVE_TIMELINE);
    var f1 := [Up(OLD)] + ([Up(OLD)] + ([Up(OLD)] + ([Up(OLD)] + ([Up(OLD)] + f2))));
    HeadNext(w, OLD, f1);
    CatchUpOnce(World(f1, []), OLD, f2);
    var h := [] + [Anchored(OLD, 1)] + [Anchored(OLD, 0)] + [Sent(Data(Range(1, 3)), OLD)] + [Compared(OLD, false, 1)];
    GoLiveNext(Config(4, 0, 10, Infinite), [Header(4)], World(f2, h), LIVE_OLD, LIVE_TIMELINE);
    assert h + [Sent(SwitchingToLive, LIVE_OLD)] == CaughtUpEvents();
    LiveHoleRun(World(LIVE_TIMELINE, CaughtUpEvents()));
  }

  // -------------------------------------------------------------------------
  // What the consumer of that run holds
  // -------------------------------------------------------------------------

  lemma SwitchHoleHeld()
    ensures Replayed(START, CaughtUpEvents() + LiveEvents()).view.held == Blocks(LIVE_NEW, 3, 5)
  {
    hide Replayed;
    var m := CaughtUpHolds(LiveEvents());
    LiveHolds(m);
  }

  lemma CaughtUpHolds(rest: seq<Event>) returns (m: Monitor)
    ensures Replayed(START, CaughtUpEvents() + rest) == Replayed(m, rest)
    ensures HoldsNow(m, Blocks(OLD, 1, 4), 1, 4)
  {
    hide Observe, Replayed, Blocks;
    var h := CaughtUpEvents();
    LookHolds(START, h[0], [], 0, 0);
    var m1 := Observe(START, h[0]);
    LookHolds(m1, h[1], [], 0, 0);
    var m2 := Observe(m1, h[1]);
    DataHolds(m2, Range(1, 3), OLD, [], 0, 0);
    var m3 := Observe(m2, h[2]);
    assert [] + Read(OLD, Range(1, 3)) == Blocks(OLD, 1, 4);
    LookHolds(m3, h[3], Blocks(OLD, 1, 4), 1, 4);
    var m4 := Observe(m3, h[3]);
    LookHolds(m4, h[4], Blocks(OLD, 1, 4), 1, 4);
    m := Observe(m4, h[4]);
    hide HoldsNow;
    Steps(START, m1, m2, h[..2], h[2..] + rest);
    Steps(m2, m3, m4, h[2..4], h[4..] + rest);
    ReplayedFirst(m4, h[4], rest);
    assert h + rest == h[..2] + (h[2..] + rest) && h[2..] + rest == h[2..4] + (h[4..] + rest) && h[4..] + rest == [h[4]] + rest;
  }

  lemma LiveHolds(m: Monitor)
    requires HoldsNow(m, Blocks(OLD, 1, 4), 1, 4)
    ensures HoldsNow(Replayed(m, LiveEvents()), Blocks(LIVE_NEW, 3, 5), 3, 5)
  {
    hide Observe, Replayed, Blocks, HoldsNow;
    var h := LiveEvents();
    var m4 := LostHolds(m, h[4..]);
    assert h == h[..4] + h[4..];
    RestartHolds(m4);
  }

  /** The reorg voids everything that is held. */
  lemma LostHolds(m: Monitor, rest: seq<Event>) returns (m4: Monitor)
    requires HoldsNow(m, Blocks(OLD, 1, 4), 1, 4)
    ensures HoldsNow(m4, [], 1, 1) && Replayed(m, LiveEvents()[..4] + rest) == Replayed(m4, rest)
  {
    hide Observe, Replayed, Blocks, Kept, HoldsNow;
    var h := LiveEvents();
    var held := Blocks(OLD, 1, 4) + Read(LIVE_OLD, Range(4, 4));
    LookHolds(m, h[0], Blocks(OLD, 1, 4), 1, 4);
    var m1 := Observe(m, h[0]);
    DataHolds(m1, Range(4, 4), LIVE_OLD, Blocks(OLD, 1, 4), 1, 4);
    var m2 := Observe(m1, h[1]);
    LookHolds(m2, h[2], held, 1, 5);
    var m3 := Observe(m2, h[2]);
    ReorgHolds(m3, 0, LIVE_NEW, held, 1, 5);
    NothingLeft(held);
    m4 := Observe(m3, h[3]);
    Steps(m, m1, m2, h[..2], h[2..4] + rest);
    Steps(m2, m3, m4, h[2..4], rest);
    assert h[..4] + rest == h[..2] + (h[2..4] + rest);
  }

  lemma RestartHolds(m: Monitor)
    requires HoldsNow(m, [], 1, 1)
    ensures HoldsNow(Replayed(m, LiveEvents()[4..]), Blocks(LIVE_NEW, 3, 5), 3, 5)
  {
    hide Observe, Replayed, Blocks, HoldsNow;
    var h := LiveEvents()[4..];
    LookHolds(m, h[0], [], 1, 1);
    var m1 := Observe(m, h[0]);
    DataHolds(m1, Range(3, 4), LIVE_NEW, [], 1, 1);
    assert [] + Read(LIVE_NEW, Range(3, 4)) == Blocks(LIVE_NEW, 3, 5);
    var m2 := Observe(m1, h[1]);
    LookHolds(m2, h[2], Blocks(LIVE_NEW, 3, 5), 3, 5);
    Steps(m, m1, m2, h[..2], h[2..]);
    ReplayedFirst(m2, h[2], []);
    ReplayedNothing(Observe(m2, h[2]));
    assert h == h[..2] + h[2..] && h[2..] == [h[2]] + [];
  }

  lemma NothingLeft(held: seq<Block>)
    requires held == Blocks(OLD, 1, 4) + Read(LIVE_OLD, Range(4, 4))
    ensures Kept(held, 1) == []
  {
    BlocksIndex(OLD, 1, 4);
    BlocksIndex(LIVE_OLD, 4, 5);
    KeptNothing(held, 1);
    hide Kept, Blocks;
  }
}
