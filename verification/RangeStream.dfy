/** Streaming one range in batches, with a reorg check after every batch. */
module RangeStream {
  import opened Wrappers
  import opened U64
  import opened Chains
  import opened RangeIterator
  import opened RingBuffers
  import opened ReorgHandler
  import opened Outside
  import opened Replay

  /** The fixed arguments of one call. */
  datatype Params = Params(minCommonAncestor: nat, end: nat, size: nat, capacity: Capacity)

  datatype Step =
    | Halt(buffer: seq<Block>, w: World)
    | Next(cursor: nat, batchEnd: Block, buffer: seq<Block>, w: World)

  datatype Outcome =
    | Stopped(buffer: seq<Block>, w: World)
    | Done(last: Option<Block>, buffer: seq<Block>, w: World)

  /** The check after a batch that ends with `batchEnd`, and where to go on. */
  function CheckBatch(p: Params, batchEnd: Block, buffer: seq<Block>, w: World): Step {
    var (answer, buffer', w1) := CheckNow(w, buffer, p.capacity, batchEnd);
    match answer
    case Err(e) => Halt(buffer', Report(w1, e))
    case Ok(None) => Next(batchEnd.number + 1, batchEnd, buffer', w1)
    case Ok(Some(ancestor)) =>
      var (open, w2) := Send(w1, ReorgDetected(ancestor.number));
      if !open then Halt(buffer', w2)
      else Next(Max(ancestor.number + 1, p.minCommonAncestor), batchEnd, buffer', w2)
  }

  /** One batch that starts at `cursor`. */
  function BatchStep(p: Params, cursor: nat, buffer: seq<Block>, w: World): Step
    requires p.size >= 1 && cursor <= p.end
  {
    var batch := Range(cursor, BatchEnd(cursor, p.end, p.size));
    var (fetched, w1) := Fetch(w, batch.hi);
    if fetched.Err? then Halt(buffer, Report(w1, fetched.error))
    else
      var (open, w2) := Send(w1, Data(batch));
      if !open then Halt(buffer, w2) else CheckBatch(p, fetched.value, buffer, w2)
  }

  function StreamRange(p: Params, cursor: nat, last: Option<Block>, buffer: seq<Block>, w: World): Outcome
    requires p.size >= 1
    decreases |w.future|
  {
    if cursor > p.end then Done(last, buffer, w)
    else
      match BatchStep(p, cursor, buffer, w)
      case Halt(buffer', w') => Stopped(buffer', w')
      case Next(cursor', batchEnd, buffer', w') => StreamRange(p, cursor', Some(batchEnd), buffer', w')
  }

  /** The result and the state a call leaves behind. */
  ghost predicate Finished(outcome: Outcome, last: Option<Block>, buffer: seq<Block>, w: World) {
    && outcome.buffer == buffer && outcome.w == w
    && last == (if outcome.Done? then outcome.last else None)
  }

  /** The second half of the loop body: checks a streamed batch and resets the iterator
      after a reorg. The flag is false when the stream has to stop. */
  method CheckStreamedBatch(p: Params, batchEnd: Block, iter: ForwardIterator, env: Environment, handler: DefaultReorgHandler)
    returns (go: bool)
    requires handler.Valid() && iter.Valid() && iter.current == batchEnd.number + 1
    requires handler.buffer.capacity == p.capacity && p.minCommonAncestor <= iter.end
    modifies env, handler.buffer, iter
    ensures handler.Valid() && iter.Valid()
    ensures CheckBatch(p, batchEnd, old(handler.buffer.inner), old(env.w)) ==
            if go then Next(iter.current, batchEnd, handler.buffer.inner, env.w)
            else Halt(handler.buffer.inner, env.w)
  {
    var answer := handler.Check(env, batchEnd);
    match answer {
      case Err(e) =>
        var _ := env.TryStream(Error(e));
        return false;
      case Ok(None) =>
        return true;
      case Ok(Some(ancestor)) =>
        go := env.TryStream(ReorgDetected(ancestor.number));
        if go {
          iter.ResetTo(Max(ancestor.number + 1, p.minCommonAncestor));
        }
    }
  }

  method StreamRangeWithReorgHandling(
    minCommonAncestor: nat, nextStartBlock: nat, end: nat, maxBlockRange: nat,
    env: Environment, handler: DefaultReorgHandler) returns (last: Option<Block>)
    requires handler.Valid()
    requires maxBlockRange >= 1 && minCommonAncestor <= nextStartBlock <= end < U64_MAX
    modifies env, handler.buffer
    ensures handler.Valid()
    ensures var p := Params(minCommonAncestor, end, maxBlockRange, handler.buffer.capacity);
            Finished(StreamRange(p, nextStartBlock, None, old(handler.buffer.inner), old(env.w)),
                     last, handler.buffer.inner, env.w)
  {
    hide CheckBatch, Tiling, BatchCount;
    var iter := new ForwardIterator(nextStartBlock, end, maxBlockRange);
    var p := Params(minCommonAncestor, end, maxBlockRange, handler.buffer.capacity);
    ghost var target := StreamRange(p, nextStartBlock, None, handler.buffer.inner, env.w);
    last := None;
    while true
      invariant handler.Valid() && iter.Valid() && fresh(iter)
      invariant iter.end == end && iter.rangeSize == maxBlockRange
      invariant target == StreamRange(p, iter.current, last, handler.buffer.inner, env.w)
      decreases |env.w.future|
    {
      if iter.current <= end {
        BatchConsumes(p, iter.current, handler.buffer.inner, env.w);
      }
      var batch := iter.Next();
      if batch == None {
        return;
      }
      var fetched := env.GetBlockByNumber(batch.value.hi);
      if fetched.Err? {
        var _ := env.TryStream(Error(fetched.error));
        return None;
      }
      var open := env.TryStream(Data(batch.value));
      if !open {
        return None;
      }
      var go := CheckStreamedBatch(p, fetched.value, iter, env, handler);
      if !go {
        return None;
      }
      last := Some(fetched.value);
    }
  }

  // -------------------------------------------------------------------------
  // The stream is sound
  // -------------------------------------------------------------------------

  /** Where the consumer's view may start in a stream that starts at `s`: at `origin`, which
      lies far below `s` only when an earlier phase streamed the blocks in between and the
      stream cannot be sent back there; or at `s`; or one block below `s` after a reorg. */
  ghost predicate Placed(m: Monitor, s: nat, origin: nat) {
    var v := m.view;
    && origin <= s
    && (origin + 1 < s ==> v.low == origin < v.mark && s <= m.floor)
    && (s <= origin + 1 && v.low < v.mark ==> s <= v.low + 1 && v.low <= s)
  }

  ghost predicate Coherent(m: Monitor) {
    && Truthful(m.view)
    && (Settled(m) ==> Canonical(m.view, m.base))
  }

  /** The reorg buffer holds canonical blocks of the covered heights. */
  ghost predicate Known(m: Monitor, buffer: seq<Block>) {
    && Increasing(buffer) && TrueTo(m.base, buffer, m.view.mark)
    && forall i | 0 <= i < |buffer| :: m.view.low <= buffer[i].number
  }

  /** The stream can go on at `cursor`. */
  ghost predicate Ready(m: Monitor, buffer: seq<Block>, cursor: nat, s: nat, origin: nat) {
    && m.sound && !m.pending
    && (m.faithful ==>
          && Coherent(m) && Known(m, buffer) && (Settled(m) || buffer == [])
          && Placed(m, s, origin)
          && m.view.mark <= cursor && s <= cursor + 1
          && (if m.view.low < m.view.mark then m.view.mark == cursor else cursor <= s))
  }

  /** The consumer's view ends with `block`. */
  ghost predicate Streamed(m: Monitor, buffer: seq<Block>, block: Block, s: nat, origin: nat) {
    && m.sound && !m.pending
    && (m.faithful ==>
          && Coherent(m) && Known(m, buffer)
          && Placed(m, s, origin)
          && m.view.low < m.view.mark == block.number + 1 && s <= block.number + 1
          && OnChain(m.base, block))
  }

  /** The view was rolled back to `ancestor`. */
  ghost predicate BackAt(m: Monitor, buffer: seq<Block>, ancestor: Block, s: nat, origin: nat) {
    && m.sound && Settled(m)
    && (m.faithful ==>
          && Coherent(m) && Known(m, buffer)
          && Placed(m, s, origin)
          && m.view.mark == ancestor.number + 1
          && OnChain(m.base, ancestor)
          && (m.view.low == m.view.mark ==> ancestor.number < s)
          && (origin + 1 < s ==> s <= ancestor.number + 1))
  }

  lemma TrueToOther(a: Chain, b: Chain, buffer: seq<Block>, n: nat)
    requires TrueTo(a, buffer, n) && AgreeBelow(a, b, n)
    ensures TrueTo(b, buffer, n)
  {
    AgreeHashes(a, b, n);
  }

  /** A settled view in accord with a snapshot: the snapshots agree on what is covered. */
  lemma SettledAccords(m: Monitor, c: Chain)
    requires Settled(m) && m.view.low < m.view.mark && Accords(m.view.sources, c, m.view.mark)
    ensures AgreeBelow(m.base, c, m.view.mark)
  {
    assert Agrees(m.view.sources[0], c, m.view.mark);
  }

  lemma AnchorKeepsReady(m: Monitor, buffer: seq<Block>, cursor: nat, s: nat, origin: nat, c: Chain)
    requires Ready(m, buffer, cursor, s, origin)
    ensures var m' := Observe(m, Anchored(c, 0));
            Ready(m', buffer, cursor, s, origin) && Settled(m') && m'.final == 0
  {
    if m.faithful && Accords(m.view.sources, c, m.view.mark) {
      TrustedTruthful(m.view, c);
      if buffer != [] {
        assert m.view.low <= buffer[0].number < m.view.mark;
        SettledAccords(m, c);
        TrueToOther(m.base, c, buffer, m.view.mark);
      }
    }
  }

  lemma DataStreams(m: Monitor, buffer: seq<Block>, r: Range, s: nat, origin: nat, c: Chain)
    requires Ready(m, buffer, r.lo, s, origin) && Settled(m) && m.final == 0
    requires r.lo <= r.hi < |m.base.blocks|
    ensures Streamed(Observe(m, Sent(Data(r), c)), buffer, BlockAt(m.base, r.hi), s, origin)
  {
    if m.faithful {
      ReceivedTruthful(m.view, r, c);
      assert Received(m.view, r, c).sources != [Source(m.base, m.view.low, m.view.mark)];
    }
  }

  lemma CleanCheckKeeps(m: Monitor, buffer: seq<Block>, capacity: Capacity, block: Block, s: nat, origin: nat, c: Chain)
    requires Streamed(m, buffer, block, s, origin)
    requires OnChain(c, block)
    ensures var m' := Observe(m, Checked(c, buffer, false));
            Streamed(m', CheckOn(c, buffer, capacity, block).1, block, s, origin) && Settled(m')
  {
    if m.faithful && Accords(m.view.sources, c, CommonLength(m.base, c)) {
      SharedBlock(m.base, c, block);
      AccordsLess(m.view.sources, c, CommonLength(m.base, c), m.view.mark);
      TrustedTruthful(m.view, c);
      CheckKeepsBufferTrue(m.base, c, buffer, capacity, block);
      CheckEntries(c, buffer, capacity, block);
    }
  }

  lemma AncestorBelowFork(before: Chain, c: Chain, buffer: seq<Block>, capacity: Capacity, block: Block)
    requires OnChain(before, block) && FinalityKept(before, c)
    requires Increasing(buffer)
    requires TrueTo(before, buffer, block.number + 1)
    requires var r := CheckOn(c, buffer, capacity, block).0; r.Ok? && r.value.Some?
    ensures var a := CheckOn(c, buffer, capacity, block).0.value.value;
            AgreeBelow(before, c, a.number + 1) && a.number < block.number && OnChain(c, a)
  {
    CheckAnswer(c, buffer, capacity, block);
    AncestorAboveForkIffFinalizedIs(before, c, buffer, capacity, block);
    var a := CheckOn(c, buffer, capacity, block).0.value.value;
    AgreeLess(before, c, CommonLength(before, c), a.number + 1);
    SharedBlock(before, c, block);
    AgreeLessIf(before, c, a.number + 1, block.number + 1);
  }

  /** The reported ancestor is as high as the check can reach. */
  lemma AnswerReaches(c: Chain, buffer: seq<Block>, capacity: Capacity, block: Block, n: nat)
    requires Increasing(buffer) && Reaches(c, buffer, n)
    ensures var r := CheckOn(c, buffer, capacity, block).0;
            r.Ok? && r.value.Some? ==> n <= r.value.value.number + 1
  {
    CheckAnswer(c, buffer, capacity, block);
  }

  /** What a reorg answer says about the snapshot the block was read from. */
  lemma ReorgAnswer(before: Chain, c: Chain, buffer: seq<Block>, capacity: Capacity, block: Block, n: nat)
    requires OnChain(before, block) && FinalityKept(before, c) && Reaches(c, buffer, n)
    requires Increasing(buffer) && TrueTo(before, buffer, block.number + 1)
    requires var r := CheckOn(c, buffer, capacity, block).0; r.Ok? && r.value.Some?
    ensures var (r, buffer') := CheckOn(c, buffer, capacity, block);
            var a := r.value.value;
            && a.number < block.number && a.number < CommonLength(before, c) && OnChain(c, a) && n <= a.number + 1
            && Increasing(buffer') && TrueTo(c, buffer', a.number + 1)
            && (forall i | 0 <= i < |buffer'| :: buffer'[i] in buffer)
  {
    CheckKeepsBufferTrue(before, c, buffer, capacity, block);
    CheckEntries(c, buffer, capacity, block);
    AnswerReaches(c, buffer, capacity, block, n);
    AncestorBelowFork(before, c, buffer, capacity, block);
    hide CheckOn, TrueTo, Increasing, Reaches, FinalityKept;
  }

  lemma RollsBack(m: Monitor, buffer: seq<Block>, capacity: Capacity, block: Block, s: nat, origin: nat, c: Chain)
    requires Streamed(m, buffer, block, s, origin) && m.faithful
    requires FinalityKept(m.base, c) && Reaches(c, buffer, m.floor)
    requires Accords(m.view.sources, c, CommonLength(m.base, c))
    requires var r := CheckOn(c, buffer, capacity, block).0; r.Ok? && r.value.Some?
    ensures var (r, buffer') := CheckOn(c, buffer, capacity, block);
            var a := r.value.value;
            var v := RolledBack(m.view, a.number, c);
            && a.number < block.number && OnChain(c, a) && m.floor <= a.number + 1
            && Canonical(v, c) && Truthful(v)
            && Increasing(buffer') && TrueTo(c, buffer', a.number + 1)
            && (forall i | 0 <= i < |buffer'| :: m.view.low <= buffer'[i].number)
  {
    hide Canonical, Truthful, CheckOn, TrueTo, Increasing, Reaches, FinalityKept;
    var a := CheckOn(c, buffer, capacity, block).0.value.value;
    ReorgAnswer(m.base, c, buffer, capacity, block, m.floor);
    AccordsLess(m.view.sources, c, CommonLength(m.base, c), a.number + 1);
    RollbackTruthful(m.view, a.number, c);
  }

  lemma ReorgRollsBack(m: Monitor, buffer: seq<Block>, capacity: Capacity, block: Block, s: nat, origin: nat, c: Chain, d: Chain)
    requires Streamed(m, buffer, block, s, origin)
    requires var r := CheckOn(c, buffer, capacity, block).0; r.Ok? && r.value.Some?
    ensures Judged(Observe(m, Checked(c, buffer, true)))
    ensures var (r, buffer') := CheckOn(c, buffer, capacity, block);
            var m' := Observe(Observe(m, Checked(c, buffer, true)), Sent(ReorgDetected(r.value.value.number), d));
            && BackAt(m', buffer', r.value.value, s, origin)
            && (m'.faithful ==> r.value.value.number < block.number && s <= block.number + 1)
  {
    hide CheckOn, Truthful, Canonical, Reaches, FinalityKept, Accords, TrueTo, Increasing, OnChain, Kept;
    if Observe(m, Checked(c, buffer, true)).faithful {
      RollsBack(m, buffer, capacity, block, s, origin, c);
    }
  }

  /** Where a stream may go on after a rollback. */
  lemma BackAtReady(m: Monitor, buffer: seq<Block>, a: Block, s: nat, origin: nat)
    requires BackAt(m, buffer, a, s, origin)
    ensures Settled(m)
    ensures Ready(m, buffer, Max(a.number + 1, SaturatingSub(s, 1)), s, origin)
    ensures a.number < s ==> Ready(m, buffer, s, s, origin)
    ensures a.number >= s ==> Streamed(m, buffer, a, s, origin)
  {
  }

  lemma ReportKeeps(m: Monitor, w: World, e: ScannerError)
    requires Judged(Watch(m, w.history))
    ensures Judged(Watch(m, Report(w, e).history))
  {
    if Now(w).receiverUp {
      WatchNoted(m, Later(w), Sent(Error(e), Now(w).chain));
    }
  }

  lemma FetchKeepsReady(m: Monitor, w: World, n: nat, buffer: seq<Block>, cursor: nat, s: nat, origin: nat)
    requires Ready(Watch(m, w.history), buffer, cursor, s, origin)
    ensures var (r, w') := Fetch(w, n);
            var m' := Watch(m, w'.history);
            && Ready(m', buffer, cursor, s, origin)
            && (r.Ok? ==> Settled(m') && m'.final == 0 && n < |m'.base.blocks| && r.value == BlockAt(m'.base, n))
  {
    var c := Now(w).chain;
    AnchorKeepsReady(Watch(m, w.history), buffer, cursor, s, origin, c);
    WatchNoted(m, Later(w), Anchored(c, 0));
  }

  lemma CheckDetects(c: Chain, buffer: seq<Block>, capacity: Capacity, block: Block)
    ensures CheckOn(c, buffer, capacity, block).0 == Ok(None) <==> OnChain(c, block)
  {
  }

  lemma StreamedIsJudged(m: Monitor, buffer: seq<Block>, block: Block, s: nat, origin: nat)
    requires Streamed(m, buffer, block, s, origin)
    ensures Judged(m)
  {
  }

  lemma ReadyIsJudged(m: Monitor, buffer: seq<Block>, cursor: nat, s: nat, origin: nat)
    requires Ready(m, buffer, cursor, s, origin)
    ensures Judged(m)
  {
  }

  lemma BackAtIsJudged(m: Monitor, buffer: seq<Block>, block: Block, s: nat, origin: nat)
    requires BackAt(m, buffer, block, s, origin)
    ensures Judged(m)
  {
  }

  /** A check, the notification it may need, and the world after both. */
  lemma CheckKeeps(m: Monitor, w: World, buffer: seq<Block>, capacity: Capacity, block: Block, s: nat, origin: nat)
    requires Streamed(Watch(m, w.history), buffer, block, s, origin)
    ensures var (r, buffer', w') := CheckNow(w, buffer, capacity, block);
            && Judged(Watch(m, w'.history))
            && (r == Ok(None) ==> Streamed(Watch(m, w'.history), buffer', block, s, origin) && Settled(Watch(m, w'.history)))
            && (r.Ok? && r.value.Some? ==>
                  var a := r.value.value;
                  var (open, w'') := Send(w', ReorgDetected(a.number));
                  && Judged(Watch(m, w''.history))
                  && (open ==> BackAt(Watch(m, w''.history), buffer', a, s, origin))
                  && (open && Watch(m, w''.history).faithful ==> a.number < block.number && s <= block.number + 1))
  {
    hide Streamed, BackAt, Observe, Settled, Judged;
    var c := Now(w).chain;
    var m0 := Watch(m, w.history);
    StreamedIsJudged(m0, buffer, block, s, origin);
    var (r, buffer', w') := CheckNow(w, buffer, capacity, block);
    if r.Ok? {
      WatchNoted(m, Later(w), Checked(c, buffer, r.value.Some?));
      CheckDetects(c, buffer, capacity, block);
      if r.value == None {
        CleanCheckKeeps(m0, buffer, capacity, block, s, origin, c);
        StreamedIsJudged(Watch(m, w'.history), buffer', block, s, origin);
      } else {
        var a, d := r.value.value, Now(w').chain;
        ReorgRollsBack(m0, buffer, capacity, block, s, origin, c, d);
        WatchNoted(m, Later(w'), Sent(ReorgDetected(a.number), d));
        hide CheckOn;
        if Now(w').receiverUp {
          BackAtIsJudged(Watch(m, Send(w', ReorgDetected(a.number)).1.history), buffer', a, s, origin);
        }
      }
    }
  }

  ghost predicate StepIsSound(m: Monitor, p: Params, step: Step, s: nat, origin: nat) {
    var m' := Watch(m, step.w.history);
    && Judged(m')
    && (step.Next? ==>
          && Ready(m', step.buffer, step.cursor, s, origin) && Settled(m')
          && (step.cursor > p.end && m'.faithful ==>
                Streamed(m', step.buffer, step.batchEnd, s, origin) && step.batchEnd.number == p.end))
  }

  /** The history of a finished call is sound. A completed call returns the canonical block
      at `end`, and the consumer's view ends with it. */
  ghost predicate OutcomeIsSound(m: Monitor, p: Params, outcome: Outcome, s: nat, origin: nat) {
    var m' := Watch(m, outcome.w.history);
    && Judged(m')
    && (outcome.Done? ==> Settled(m'))
    && (outcome.Done? && m'.faithful ==>
          && outcome.last.Some? && outcome.last.value.number == p.end
          && Streamed(m', outcome.buffer, outcome.last.value, s, origin))
  }

  lemma CheckBatchKeeps(m: Monitor, p: Params, block: Block, buffer: seq<Block>, w: World, s: nat, origin: nat)
    requires p.minCommonAncestor == SaturatingSub(s, 1) && block.number <= p.end
    requires Streamed(Watch(m, w.history), buffer, block, s, origin)
    ensures StepIsSound(m, p, CheckBatch(p, block, buffer, w), s, origin)
  {
    hide Watch, BackAt, Judged, CheckNow, Settled, Observe, Truthful, Placed, Known;
    var (answer, buffer', w1) := CheckNow(w, buffer, p.capacity, block);
    CheckKeeps(m, w, buffer, p.capacity, block, s, origin);
    if answer.Err? {
      ReportKeeps(m, w1, answer.error);
    } else if answer.value.Some? {
      var a := answer.value.value;
      var (open, w2) := Send(w1, ReorgDetected(a.number));
      if open {
        BackAtReady(Watch(m, w2.history), buffer', a, s, origin);
      }
    }
  }

  lemma BatchKeepsReady(m: Monitor, p: Params, cursor: nat, buffer: seq<Block>, w: World, s: nat, origin: nat)
    requires p.size >= 1 && cursor <= p.end && p.minCommonAncestor == SaturatingSub(s, 1)
    requires Ready(Watch(m, w.history), buffer, cursor, s, origin)
    ensures StepIsSound(m, p, BatchStep(p, cursor, buffer, w), s, origin)
  {
    hide Ready, Streamed, Watch, Observe, CheckBatch, Judged, Report, HashAt;
    var batch := Range(cursor, BatchEnd(cursor, p.end, p.size));
    var (fetched, w1) := Fetch(w, batch.hi);
    FetchKeepsReady(m, w, batch.hi, buffer, cursor, s, origin);
    ReadyIsJudged(Watch(m, w1.history), buffer, cursor, s, origin);
    if fetched.Err? {
      ReportKeeps(m, w1, fetched.error);
    } else {
      var (open, w2) := Send(w1, Data(batch));
      var c := Now(w1).chain;
      DataStreams(Watch(m, w1.history), buffer, batch, s, origin, c);
      WatchNoted(m, Later(w1), Sent(Data(batch), c));
      if open {
        CheckBatchKeeps(m, p, fetched.value, buffer, w2, s, origin);
      }
    }
  }

  /** In every reachable state of a stream the consumer's view is canonical, and when the
      stream completes the view ends with the returned block, which is the canonical block
      at `end`. */
  lemma {:induction false} StreamRangeIsSound(
    m: Monitor, p: Params, cursor: nat, last: Option<Block>, buffer: seq<Block>, w: World, s: nat, origin: nat)
    requires p.size >= 1 && p.minCommonAncestor == SaturatingSub(s, 1)
    requires Ready(Watch(m, w.history), buffer, cursor, s, origin)
    requires cursor > p.end ==> Settled(Watch(m, w.history))
    requires cursor > p.end && Watch(m, w.history).faithful ==>
               && last.Some? && last.value.number == p.end
               && Streamed(Watch(m, w.history), buffer, last.value, s, origin)
    ensures OutcomeIsSound(m, p, StreamRange(p, cursor, last, buffer, w), s, origin)
    decreases |w.future|
  {
    if cursor <= p.end {
      BatchKeepsReady(m, p, cursor, buffer, w, s, origin);
      match BatchStep(p, cursor, buffer, w) {
        case Halt(_, _) =>
        case Next(cursor', batchEnd, buffer', w') =>
          StreamRangeIsSound(m, p, cursor', Some(batchEnd), buffer', w', s, origin);
      }
    }
  }

  // -------------------------------------------------------------------------
  // The cursor discipline, for any answers whatsoever
  // -------------------------------------------------------------------------

  /** Follows the messages of a call from `cursor`: every range starts exactly at the cursor
      and moves past it, every notification resets it. `None` for any other log. */
  function Track(p: Params, cursor: nat, h: seq<Event>): Option<nat>
    requires p.size >= 1
    decreases |h|
  {
    if h == [] then Some(cursor)
    else if h[0].Sent? && h[0].message.Data? then
      if cursor <= p.end && h[0].message.range == Range(cursor, BatchEnd(cursor, p.end, p.size))
      then Track(p, h[0].message.range.hi + 1, h[1..])
      else None
    else if h[0].Sent? && h[0].message.ReorgDetected? then
      Track(p, Max(h[0].message.commonAncestor + 1, p.minCommonAncestor), h[1..])
    else Track(p, cursor, h[1..])
  }

  function CountData(h: seq<Event>): nat {
    if h == [] then 0 else (if h[0].Sent? && h[0].message.Data? then 1 else 0) + CountData(h[1..])
  }

  function CountReorgs(h: seq<Event>): nat {
    if h == [] then 0 else (if h[0].Sent? && h[0].message.ReorgDetected? then 1 else 0) + CountReorgs(h[1..])
  }

  lemma {:induction false} TrackConcat(p: Params, cursor: nat, a: seq<Event>, b: seq<Event>)
    requires p.size >= 1
    ensures Track(p, cursor, a + b) ==
            match Track(p, cursor, a) { case None => None case Some(c) => Track(p, c, b) }
    decreases |a|
  {
    if a == [] {
      assert a + b == b;
    } else {
      assert (a + b)[1..] == a[1..] + b;
      if a[0].Sent? && a[0].message.Data? {
        TrackConcat(p, a[0].message.range.hi + 1, a[1..], b);
      } else if a[0].Sent? && a[0].message.ReorgDetected? {
        TrackConcat(p, Max(a[0].message.commonAncestor + 1, p.minCommonAncestor), a[1..], b);
      } else {
        TrackConcat(p, cursor, a[1..], b);
      }
    }
  }

  lemma NothingTracked(p: Params, cursor: nat)
    requires p.size >= 1
    ensures Track(p, cursor, []) == Some(cursor)
  {
  }

  lemma TrackOne(p: Params, cursor: nat, e: Event)
    requires p.size >= 1
    ensures !e.Sent? || e.message.Error? ==> Track(p, cursor, [e]) == Some(cursor)
    ensures e.Sent? && e.message.ReorgDetected? ==>
              Track(p, cursor, [e]) == Some(Max(e.message.commonAncestor + 1, p.minCommonAncestor))
    ensures e.Sent? && cursor <= p.end && e.message == Data(Range(cursor, BatchEnd(cursor, p.end, p.size))) ==>
              Track(p, cursor, [e]) == Some(BatchEnd(cursor, p.end, p.size) + 1)
  {
    assert [e][1..] == [];
  }

  lemma SendTracked(p: Params, cursor: nat, w: World, message: Message) returns (emitted: seq<Event>)
    requires p.size >= 1
    ensures emitted == if Now(w).receiverUp then [Sent(message, Now(w).chain)] else []
    ensures Send(w, message).1.history == w.history + emitted
    ensures !message.Data? && !message.ReorgDetected? ==> Track(p, cursor, emitted).Some?
  {
    emitted := if Now(w).receiverUp then [Sent(message, Now(w).chain)] else [];
    if emitted != [] {
      assert emitted[1..] == [];
    }
  }

  lemma CheckBatchTracked(p: Params, block: Block, buffer: seq<Block>, w: World) returns (emitted: seq<Event>)
    requires p.size >= 1
    ensures var step := CheckBatch(p, block, buffer, w);
            && step.w.history == w.history + emitted
            && Track(p, block.number + 1, emitted).Some?
            && (step.Next? ==> Track(p, block.number + 1, emitted) == Some(step.cursor))
  {
    hide Track, CheckOn;
    var (answer, buffer', w1) := CheckNow(w, buffer, p.capacity, block);
    match answer {
      case Err(e) =>
        emitted := SendTracked(p, block.number + 1, w1, Error(e));
      case Ok(r) =>
        emitted := [Checked(Now(w).chain, buffer, r.Some?)];
        TrackOne(p, block.number + 1, emitted[0]);
        if r.Some? {
          var sent := SendTracked(p, block.number + 1, w1, ReorgDetected(r.value.number));
          if sent != [] {
            TrackOne(p, block.number + 1, sent[0]);
          }
          TrackConcat(p, block.number + 1, emitted, sent);
          NothingTracked(p, block.number + 1);
          emitted := emitted + sent;
        }
    }
  }

  lemma SendBatchTracked(p: Params, cursor: nat, block: Block, buffer: seq<Block>, w: World) returns (emitted: seq<Event>)
    requires p.size >= 1 && cursor <= p.end && block.number == BatchEnd(cursor, p.end, p.size)
    ensures var (open, w') := Send(w, Data(Range(cursor, block.number)));
            var step := if open then CheckBatch(p, block, buffer, w') else Halt(buffer, w');
            && step.w.history == w.history + emitted
            && Track(p, cursor, emitted).Some?
            && (step.Next? ==> Track(p, cursor, emitted) == Some(step.cursor))
  {
    hide Track, CheckBatch;
    var batch := Range(cursor, block.number);
    var sent := SendTracked(p, cursor, w, Data(batch));
    emitted := sent;
    NothingTracked(p, cursor);
    if sent != [] {
      TrackOne(p, cursor, sent[0]);
      var rest := CheckBatchTracked(p, block, buffer, Send(w, Data(batch)).1);
      TrackConcat(p, cursor, sent, rest);
      assert w.history + sent + rest == w.history + (sent + rest);
      emitted := sent + rest;
    }
  }

  lemma BatchTracked(p: Params, cursor: nat, buffer: seq<Block>, w: World) returns (emitted: seq<Event>)
    requires p.size >= 1 && cursor <= p.end
    ensures var step := BatchStep(p, cursor, buffer, w);
            && step.w.history == w.history + emitted
            && Track(p, cursor, emitted).Some?
            && (step.Next? ==> Track(p, cursor, emitted) == Some(step.cursor))
  {
    hide Track, CheckBatch;
    var (fetched, w1) := Fetch(w, BatchEnd(cursor, p.end, p.size));
    if fetched.Err? {
      emitted := SendTracked(p, cursor, w1, Error(fetched.error));
    } else {
      var anchored := [Anchored(Now(w).chain, 0)];
      TrackOne(p, cursor, anchored[0]);
      var rest := SendBatchTracked(p, cursor, fetched.value, buffer, w1);
      TrackConcat(p, cursor, anchored, rest);
      assert w.history + anchored + rest == w.history + (anchored + rest);
      emitted := anchored + rest;
    }
  }

  lemma BatchConsumes(p: Params, cursor: nat, buffer: seq<Block>, w: World)
    requires p.size >= 1 && cursor <= p.end
    ensures var step := BatchStep(p, cursor, buffer, w);
            step.Next? ==> |step.w.future| < |w.future|
  {
    hide CheckOn;
  }

  /** Whatever the node answers, a call keeps the cursor discipline, and when it completes
      the cursor is past `end`. */
  lemma {:induction false} StreamKeepsDiscipline(p: Params, cursor: nat, last: Option<Block>, buffer: seq<Block>, w: World)
    returns (emitted: seq<Event>)
    requires p.size >= 1
    ensures var outcome := StreamRange(p, cursor, last, buffer, w);
            && outcome.w.history == w.history + emitted
            && Track(p, cursor, emitted).Some?
            && (outcome.Done? ==> Track(p, cursor, emitted).value > p.end)
    decreases |w.future|
  {
    hide Track, BatchStep;
    emitted := [];
    NothingTracked(p, cursor);
    if cursor <= p.end {
      emitted := BatchTracked(p, cursor, buffer, w);
      BatchConsumes(p, cursor, buffer, w);
      match BatchStep(p, cursor, buffer, w) {
        case Halt(_, _) =>
        case Next(cursor', batchEnd, buffer', w') =>
          var rest := StreamKeepsDiscipline(p, cursor', Some(batchEnd), buffer', w');
          TrackConcat(p, cursor, emitted, rest);
          assert w.history + emitted + rest == w.history + (emitted + rest);
          emitted := emitted + rest;
      }
    }
  }

  /** A disciplined log streams nothing outside `minCommonAncestor..=end`, keeps batches
      within the size, and with `k` notifications streams at most the rest of the interval
      plus `k` times the whole of it: finitely many reorgs mean finitely many batches. */
  lemma {:induction false} DisciplinedLogIsBounded(p: Params, cursor: nat, h: seq<Event>)
    requires p.size >= 1 && p.minCommonAncestor <= cursor && p.minCommonAncestor <= p.end
    requires Track(p, cursor, h).Some?
    ensures forall i | 0 <= i < |h| && h[i].Sent? && h[i].message.Data? ::
              var r := h[i].message.range;
              p.minCommonAncestor <= r.lo <= r.hi <= p.end && r.hi - r.lo < p.size
    ensures CountData(h) <= SaturatingSub(p.end + 1, cursor)
              + CountReorgs(h) * (p.end + 1 - p.minCommonAncestor)
    decreases |h|
  {
    if h != [] {
      var whole := p.end + 1 - p.minCommonAncestor;
      if h[0].Sent? && h[0].message.Data? {
        DisciplinedLogIsBounded(p, h[0].message.range.hi + 1, h[1..]);
      } else if h[0].Sent? && h[0].message.ReorgDetected? {
        DisciplinedLogIsBounded(p, Max(h[0].message.commonAncestor + 1, p.minCommonAncestor), h[1..]);
        assert (1 + CountReorgs(h[1..])) * whole == whole + CountReorgs(h[1..]) * whole;
      } else {
        DisciplinedLogIsBounded(p, cursor, h[1..]);
      }
    }
  }
}
