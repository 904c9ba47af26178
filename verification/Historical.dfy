/** Streaming a past interval: finalized blocks first, then the rest until it is stable. */
module Historical {
  import opened Wrappers
  import opened U64
  import opened Chains
  import opened RangeIterator
  import opened Outside
  import opened Replay

  /** Whether the receiver is still there, and the world afterwards. */
  datatype Ended = Ended(open: bool, w: World)

  datatype Finalized = Finalized(height: nat, w: World)

  /** The node tells a finalized height. */
  predicate KnowsFinalized(m: Moment) {
    m.rpcUp && m.chain.finalized.Some?
  }

  /** The finalized height, or zero when the node does not tell. */
  function ReadFinalized(w: World): Finalized {
    var m := Now(w);
    if KnowsFinalized(m) then
      Finalized(m.chain.finalized.value, Noted(Later(w), Anchored(m.chain, m.chain.finalized.value + 1)))
    else Finalized(0, Later(w))
  }

  /** First height of the non-finalized part. */
  function RestStart(start: nat, end: nat, finalized: nat): nat {
    Max(start, Min(finalized, end) + 1)
  }

  function ReorgAncestor(restStart: nat, finalized: nat): nat {
    Max(SaturatingSub(restStart, 1), finalized)
  }

  /** One pass over the rest. */
  function Pass(restStart: nat, end: nat, size: nat, w: World): (bool, World)
    requires size >= 1
  {
    SendAll(w, Tiling(restStart, end, size))
  }

  /** What re-reading the end block tells after a pass. An RPC error is streamed and taken
      for a stable end block. */
  datatype Verdict = Stable(w: World) | Reorged(endBlock: Block, w: World)

  function CompareEnd(endBlock: Block, kept: nat, w: World): Verdict {
    var m := Now(w);
    if !m.rpcUp then Stable(Report(Later(w), RpcError))
    else
      match GetBlockByNumber(m.chain, endBlock.number)
      case Err(e) => Stable(Report(Later(w), e))
      case Ok(block) =>
        if block.hash == endBlock.hash then Stable(Noted(Later(w), Compared(m.chain, false, kept)))
        else Reorged(block, Noted(Later(w), Compared(m.chain, true, kept)))
  }

  /** One pass either finishes the run or asks for another one. */
  datatype PassStep = Finished(ended: Ended) | Again(endBlock: Block, w: World)

  function OnePass(restStart: nat, end: nat, size: nat, ancestor: nat, endBlock: Block, w: World): PassStep
    requires size >= 1
  {
    var (open, w1) := Pass(restStart, end, size, w);
    if !open then Finished(Ended(false, w1))
    else
      match CompareEnd(endBlock, restStart, w1)
      case Stable(w2) => Finished(Ended(true, w2))
      case Reorged(newEnd, w2) =>
        var (open', w3) := Send(w2, ReorgDetected(ancestor));
        if !open' then Finished(Ended(false, w3)) else Again(newEnd, w3)
  }

  /** Passes until the end block stays the same. */
  function Passes(restStart: nat, end: nat, size: nat, ancestor: nat, endBlock: Block, w: World): Ended
    requires size >= 1
    decreases |w.future|
  {
    SendAllConsumes(w, Tiling(restStart, end, size));
    match OnePass(restStart, end, size, ancestor, endBlock, w)
    case Finished(ended) => ended
    case Again(newEnd, w') => Passes(restStart, end, size, ancestor, newEnd, w')
  }

  function StreamRest(restStart: nat, end: nat, size: nat, finalized: nat, w: World): Ended
    requires size >= 1
  {
    var (endBlock, w1) := Fetch(w, end);
    match endBlock
    case Err(e) => Ended(false, Report(w1, e))
    case Ok(block) => Passes(restStart, end, size, ReorgAncestor(restStart, finalized), block, w1)
  }

  function StreamHistorical(start: nat, end: nat, size: nat, w: World): Ended
    requires size >= 1
  {
    var f := ReadFinalized(w);
    var (open, w1) := SendAll(f.w, Tiling(start, Min(f.height, end), size));
    if !open then Ended(false, w1)
    else
      var restStart := RestStart(start, end, f.height);
      if restStart > end then Ended(true, w1)
      else StreamRest(restStart, end, size, f.height, w1)
  }

  lemma {:induction false} SendAllConsumes(w: World, ranges: seq<Range>)
    ensures |SendAll(w, ranges).1.future| <= |w.future|
    ensures ranges != [] && SendAll(w, ranges).0 ==> |SendAll(w, ranges).1.future| < |w.future|
    decreases |ranges|
  {
    if ranges != [] && Send(w, Data(ranges[0])).0 {
      SendAllConsumes(Send(w, Data(ranges[0])).1, ranges[1..]);
    }
  }

  // -------------------------------------------------------------------------
  // The handler
  // -------------------------------------------------------------------------

  class HistoricalRangeHandler {
    const maxBlockRange: nat
    const start: nat
    const end: nat
    const env: Environment

    constructor (maxBlockRange: nat, start: nat, end: nat, env: Environment)
      ensures this.maxBlockRange == maxBlockRange && this.start == start && this.end == end && this.env == env
    {
      this.maxBlockRange := maxBlockRange;
      this.start := start;
      this.end := end;
      this.env := env;
    }

    /** Streams a whole interval of ranges. */
    method StreamRanges(from: nat, to: nat) returns (open: bool)
      requires maxBlockRange >= 1 && from <= U64_MAX && to < U64_MAX
      modifies env
      ensures (open, env.w) == SendAll(old(env.w), Tiling(from, to, maxBlockRange))
    {
      var iter := new ForwardIterator(from, to, maxBlockRange);
      ghost var target := SendAll(env.w, iter.Remaining());
      while true
        invariant iter.Valid() && fresh(iter)
        invariant target == SendAll(env.w, iter.Remaining())
        decreases |iter.Remaining()|
      {
        ghost var before := iter.Remaining();
        var range := iter.Next();
        if range == None {
          return true;
        }
        assert before[0] == range.value && before[1..] == iter.Remaining();
        open := env.TryStream(Data(range.value));
        if !open {
          return;
        }
      }
    }

    /** The height the rest starts at and the finalized height, or nothing when the receiver
        is gone. */
    method StreamFinalizedBlocks() returns (r: Option<(nat, nat)>)
      requires maxBlockRange >= 1 && start <= U64_MAX && end < U64_MAX
      modifies env
      ensures var f := ReadFinalized(old(env.w));
              var (open, w1) := SendAll(f.w, Tiling(start, Min(f.height, end), maxBlockRange));
              && env.w == w1
              && r == if open then Some((RestStart(start, end, f.height), f.height)) else None
    {
      var m := env.Observe();
      var finalized := 0;
      if KnowsFinalized(m) {
        finalized := m.chain.finalized.value;
        env.Record(Anchored(m.chain, finalized + 1));
      }
      var batchEnd := Min(finalized, end);
      var open := StreamRanges(start, batchEnd);
      r := if open then Some((Max(start, batchEnd + 1), finalized)) else None;
    }

    method GetReorgedEndBlock(endBlock: Block, kept: nat) returns (r: Option<Block>)
      modifies env
      ensures CompareEnd(endBlock, kept, old(env.w)) == if r.Some? then Reorged(r.value, env.w) else Stable(env.w)
    {
      var m := env.Observe();
      var fetched := if m.rpcUp then GetBlockByNumber(m.chain, endBlock.number) else Err(RpcError);
      if fetched.Err? {
        var _ := env.TryStream(Error(fetched.error));
        return None;
      }
      env.Record(Compared(m.chain, fetched.value.hash != endBlock.hash, kept));
      r := if fetched.value.hash == endBlock.hash then None else Some(fetched.value);
    }

    method StreamNonFinalizedBlocks(restStart: nat, finalized: nat) returns (open: bool)
      requires maxBlockRange >= 1 && restStart <= U64_MAX && end < U64_MAX
      modifies env
      ensures Ended(open, env.w) == StreamRest(restStart, end, maxBlockRange, finalized, old(env.w))
    {
      var ancestor := Max(SaturatingSub(restStart, 1), finalized);
      var fetched := env.GetBlockByNumber(end);
      if fetched.Err? {
        var _ := env.TryStream(Error(fetched.error));
        return false;
      }
      var endBlock := fetched.value;
      ghost var target := Passes(restStart, end, maxBlockRange, ancestor, endBlock, env.w);
      while true
        invariant target == Passes(restStart, end, maxBlockRange, ancestor, endBlock, env.w)
        decreases |env.w.future|
      {
        SendAllConsumes(env.w, Tiling(restStart, end, maxBlockRange));
        open := StreamRanges(restStart, end);
        if !open {
          return;
        }
        var reorged := GetReorgedEndBlock(endBlock, restStart);
        if reorged == None {
          return true;
        }
        open := env.TryStream(ReorgDetected(ancestor));
        if !open {
          return;
        }
        endBlock := reorged.value;
      }
    }

    method RunSync() returns (open: bool)
      requires maxBlockRange >= 1 && start <= U64_MAX && end < U64_MAX
      modifies env
      ensures Ended(open, env.w) == StreamHistorical(start, end, maxBlockRange, old(env.w))
    {
      var r := StreamFinalizedBlocks();
      if r == None {
        return false;
      }
      var (restStart, finalized) := r.value;
      if restStart > end {
        return true;
      }
      open := StreamNonFinalizedBlocks(restStart, finalized);
    }
  }

  // -------------------------------------------------------------------------
  // The shape of the output
  // -------------------------------------------------------------------------

  function RangeMessages(ranges: seq<Range>): seq<Message> {
    if ranges == [] then [] else [Data(ranges[0])] + RangeMessages(ranges[1..])
  }

  /** `before`, then `k` times the ranges and a notification that voids them. */
  function Rounds(before: seq<Message>, k: nat, ancestor: nat, ranges: seq<Range>): seq<Message> {
    if k == 0 then before
    else Rounds(before, k - 1, ancestor, ranges) + RangeMessages(ranges) + [ReorgDetected(ancestor)]
  }

  predicate AtMostOneError(tail: seq<Message>) {
    tail == [] || (|tail| == 1 && tail[0].Error?)
  }

  lemma NotedMessages(w: World, e: Event)
    ensures Messages(Noted(w, e).history) == if e.Sent? then Messages(w.history) + [e.message] else Messages(w.history)
  {
    assert (w.history + [e])[..|w.history|] == w.history;
  }

  lemma {:induction false} SendAllMessages(w: World, ranges: seq<Range>)
    ensures var (open, w') := SendAll(w, ranges);
            open ==> Messages(w'.history) == Messages(w.history) + RangeMessages(ranges)
    decreases |ranges|
  {
    if ranges != [] && Now(w).receiverUp {
      NotedMessages(Later(w), Sent(Data(ranges[0]), Now(w).chain));
      SendAllMessages(Send(w, Data(ranges[0])).1, ranges[1..]);
    }
  }

  lemma CompareEndMessages(endBlock: Block, kept: nat, w: World) returns (tail: seq<Message>)
    ensures var v := CompareEnd(endBlock, kept, w);
            && Messages(v.w.history) == Messages(w.history) + tail
            && (v.Reorged? ==> tail == [])
            && AtMostOneError(tail)
  {
    var m := Now(w);
    tail := [];
    if m.rpcUp && endBlock.number < |m.chain.blocks| {
      NotedMessages(Later(w), Compared(m.chain, HashAt(m.chain, endBlock.number) != endBlock.hash, kept));
    } else {
      var e := if m.rpcUp then BlockNotFound else RpcError;
      var w1 := Later(w);
      if Now(w1).receiverUp {
        NotedMessages(Later(w1), Sent(Error(e), Now(w1).chain));
        tail := [Error(e)];
      }
    }
  }

  lemma OnePassShape(restStart: nat, end: nat, size: nat, ancestor: nat, endBlock: Block, w: World)
    returns (tail: seq<Message>)
    requires size >= 1
    ensures var step := OnePass(restStart, end, size, ancestor, endBlock, w);
            var streamed := Messages(w.history) + RangeMessages(Tiling(restStart, end, size));
            && (step.Finished? && step.ended.open ==> Messages(step.ended.w.history) == streamed + tail)
            && (step.Again? ==> Messages(step.w.history) == streamed + [ReorgDetected(ancestor)])
    ensures AtMostOneError(tail)
  {
    tail := [];
    hide Tiling, SendAll, Messages, RangeMessages, CompareEnd;
    var rest := Tiling(restStart, end, size);
    var (open, w1) := Pass(restStart, end, size, w);
    SendAllMessages(w, rest);
    if open {
      tail := CompareEndMessages(endBlock, restStart, w1);
      var v := CompareEnd(endBlock, restStart, w1);
      if v.Reorged? && Now(v.w).receiverUp {
        NotedMessages(Later(v.w), Sent(ReorgDetected(ancestor), Now(v.w).chain));
      }
    }
  }

  // -------------------------------------------------------------------------
  // Passes and changes of the end block
  // -------------------------------------------------------------------------

  function BlockIn(m: Moment, n: nat): Option<Block> {
    if n < |m.chain.blocks| then Some(BlockAt(m.chain, n)) else None
  }

  /** How often the block at height `n` changes along the moments, `before` being the block
      that was there first. */
  function Changes(before: Option<Block>, moments: seq<Moment>, n: nat): nat
    decreases |moments|
  {
    if moments == [] then 0
    else
      (if BlockIn(moments[0], n) != before then 1 else 0) + Changes(BlockIn(moments[0], n), moments[1..], n)
  }

  /** Leaving out moments leaves out changes. */
  lemma {:induction false} ChangesFrom(before: Option<Block>, moments: seq<Moment>, j: nat, n: nat)
    requires j < |moments|
    ensures Changes(before, moments, n)
         >= (if BlockIn(moments[j], n) != before then 1 else 0) + Changes(BlockIn(moments[j], n), moments[j + 1..], n)
    decreases j
  {
    if j > 0 {
      ChangesFrom(BlockIn(moments[0], n), moments[1..], j - 1, n);
      assert moments[1..][j..] == moments[j + 1..];
    }
  }

  lemma ChangesLater(before: Option<Block>, moments: seq<Moment>, n: nat)
    ensures Changes(before, moments, n) >= Changes(before, if moments == [] then [] else moments[1..], n)
  {
    if |moments| >= 2 {
      ChangesFrom(before, moments, 1, n);
      assert moments[1..][1..] == moments[2..];
    }
  }

  lemma {:induction false} SendAllFuture(w: World, ranges: seq<Range>) returns (i: nat)
    ensures i <= |w.future| && SendAll(w, ranges).1.future == w.future[i..]
    decreases |ranges|
  {
    i := 0;
    if ranges != [] {
      var w1 := Send(w, Data(ranges[0])).1;
      if w.future != [] {
        i := 1;
      }
      if Now(w).receiverUp {
        var k := SendAllFuture(w1, ranges[1..]);
        i := i + k;
      }
    }
  }

  /** A pass that asks for another one has seen the end block change. */
  lemma AgainSeesChange(restStart: nat, end: nat, size: nat, ancestor: nat, endBlock: Block, w: World)
    requires size >= 1 && endBlock.number == end
    requires OnePass(restStart, end, size, ancestor, endBlock, w).Again?
    ensures var step := OnePass(restStart, end, size, ancestor, endBlock, w);
            && step.endBlock.number == end
            && Changes(Some(endBlock), w.future, end) >= 1 + Changes(Some(step.endBlock), step.w.future, end)
  {
    var i := SendAllFuture(w, Tiling(restStart, end, size));
    var w1 := Pass(restStart, end, size, w).1;
    var newEnd := BlockIn(w.future[i], end);
    ChangesFrom(Some(endBlock), w.future, i, end);
    ChangesLater(newEnd, w.future[i + 1..], end);
    hide Changes, Tiling, SendAll;
  }

  // -------------------------------------------------------------------------
  // The whole output
  // -------------------------------------------------------------------------

  lemma {:induction false} PassesShape(
    restStart: nat, end: nat, size: nat, ancestor: nat, endBlock: Block, w: World, before: seq<Message>, k0: nat)
    returns (k: nat, tail: seq<Message>)
    requires size >= 1 && endBlock.number == end
    requires Messages(w.history) == Rounds(before, k0, ancestor, Tiling(restStart, end, size))
    ensures var r := Passes(restStart, end, size, ancestor, endBlock, w);
            var rest := Tiling(restStart, end, size);
            r.open ==> Messages(r.w.history) == Rounds(before, k, ancestor, rest) + RangeMessages(rest) + tail
    ensures k <= k0 + Changes(Some(endBlock), w.future, end)
    ensures AtMostOneError(tail)
    decreases |w.future|
  {
    k := k0;
    SendAllConsumes(w, Tiling(restStart, end, size));
    tail := OnePassShape(restStart, end, size, ancestor, endBlock, w);
    var step := OnePass(restStart, end, size, ancestor, endBlock, w);
    if step.Again? {
      AgainSeesChange(restStart, end, size, ancestor, endBlock, w);
      hide OnePass, Changes;
      k, tail := PassesShape(restStart, end, size, ancestor, step.endBlock, step.w, before, k0 + 1);
    }
  }

  /** What a run that reaches its end has sent: the finalized part; then `k` times the rest and
      the notification that voids it; then the rest once more. At most one error follows, which
      the run does not treat as a failure. */
  ghost predicate HistoricalLog(before: seq<Message>, after: seq<Message>, start: nat, end: nat, size: nat, finalized: nat,
                                k: nat, tail: seq<Message>)
    requires size >= 1
  {
    var restStart := Max(start, Min(finalized, end) + 1);
    var head := before + RangeMessages(Tiling(start, Min(finalized, end), size));
    var rest := Tiling(restStart, end, size);
    && AtMostOneError(tail)
    && after == if restStart > end then head
                else Rounds(head, k, restStart - 1, rest) + RangeMessages(rest) + tail
  }

  lemma PartsShape(start: nat, end: nat, size: nat, w: World) returns (k: nat, tail: seq<Message>)
    requires size >= 1 && start <= end
    ensures var r := StreamHistorical(start, end, size, w);
            r.open ==>
              HistoricalLog(Messages(w.history), Messages(r.w.history), start, end, size, ReadFinalized(w).height, k, tail)
    ensures k <= Changes(BlockIn(Now(w), end), w.future, end)
  {
    k, tail := 0, [];
    hide Changes, StreamRest, Tiling, SendAll, Messages, RangeMessages, Rounds, ReadFinalized;
    var f := ReadFinalized(w);
    FinalizedMessages(w);
    var ranges := Tiling(start, Min(f.height, end), size);
    var (open, w1) := SendAll(f.w, ranges);
    SendAllMessages(f.w, ranges);
    var restStart := RestStart(start, end, f.height);
    if open && restStart <= end {
      AncestorIsBelowRest(start, end, f.height);
      k, tail := StreamRestShape(restStart, end, size, f.height, w1);
      var i := SendAllFuture(f.w, ranges);
      if w1.future != [] {
        assert w1.future == w.future[i + 1..];
        ChangesAfter(BlockIn(Now(w), end), w.future, i + 1, end);
      }
    }
  }

  /** A node that does not tell its finalized height, for whatever reason, counts as one where only
      block 0 is final. */
  lemma FinalizedIsRead(w: World)
    ensures ReadFinalized(w).height
         == if Now(w).rpcUp && Now(w).chain.finalized.Some? then Now(w).chain.finalized.value else 0
  {
  }

  /** The shape of the output, in every environment; the rest is streamed again at most as often
      as the block at height `end` changes along the timeline. */
  lemma HistoricalShape(start: nat, end: nat, size: nat, w: World) returns (k: nat, tail: seq<Message>)
    requires size >= 1 && start <= end
    ensures var r := StreamHistorical(start, end, size, w);
            var finalized := if Now(w).rpcUp && Now(w).chain.finalized.Some? then Now(w).chain.finalized.value else 0;
            r.open ==>
              HistoricalLog(Messages(w.history), Messages(r.w.history), start, end, size, finalized, k, tail)
    ensures k <= Changes(BlockIn(Now(w), end), w.future, end)
  {
    hide StreamHistorical, ReadFinalized, Changes, Messages, HistoricalLog;
    FinalizedIsRead(w);
    k, tail := PartsShape(start, end, size, w);
  }

  lemma FinalizedMessages(w: World)
    ensures Messages(ReadFinalized(w).w.history) == Messages(w.history)
    ensures ReadFinalized(w).w.future == Later(w).future
  {
    if KnowsFinalized(Now(w)) {
      NotedMessages(Later(w), Anchored(Now(w).chain, Now(w).chain.finalized.value + 1));
    }
  }

  /** From the moment on that comes after `i` others. */
  lemma {:induction false} ChangesAfter(before: Option<Block>, moments: seq<Moment>, i: nat, n: nat)
    requires i <= |moments|
    ensures i < |moments| ==> Changes(before, moments, n) >= Changes(BlockIn(moments[i], n), moments[i + 1..], n)
  {
    if i < |moments| {
      ChangesFrom(before, moments, i, n);
    }
  }

  lemma StreamRestShape(restStart: nat, end: nat, size: nat, finalized: nat, w: World) returns (k: nat, tail: seq<Message>)
    requires size >= 1
    ensures var r := StreamRest(restStart, end, size, finalized, w);
            var rest := Tiling(restStart, end, size);
            var ancestor := ReorgAncestor(restStart, finalized);
            r.open ==> Messages(r.w.history) == Rounds(Messages(w.history), k, ancestor, rest) + RangeMessages(rest) + tail
    ensures w.future == [] ==> k == 0
    ensures w.future != [] ==> k <= Changes(BlockIn(w.future[0], end), w.future[1..], end)
    ensures AtMostOneError(tail)
  {
    k, tail := 0, [];
    var (endBlock, w1) := Fetch(w, end);
    if endBlock.Ok? {
      NotedMessages(Later(w), Anchored(Now(w).chain, 0));
      k, tail := PassesShape(restStart, end, size, ReorgAncestor(restStart, finalized), endBlock.value, w1, Messages(w.history), 0);
    }
  }

  /** Re-reading the end block decides between three cases. Without an error the run goes on
      exactly when the two snapshots agree on every block of the interval. */
  lemma CompareEndDecides(before: Chain, endBlock: Block, kept: nat, w: World)
    requires OnChain(before, endBlock)
    ensures var c := Now(w).chain;
            var v := CompareEnd(endBlock, kept, w);
            var readable := Now(w).rpcUp && endBlock.number < |c.blocks|;
            && (v.Reorged? <==> readable && !AgreeBelow(before, c, endBlock.number + 1))
            && (v.Reorged? ==> v.endBlock == BlockAt(c, endBlock.number))
            && (v.Stable? && readable <==> readable && AgreeBelow(before, c, endBlock.number + 1))
            && (!readable ==> v.Stable?)
  {
    SharedBlock(before, Now(w).chain, endBlock);
  }

  /** The notified ancestor is the block right below the rest. */
  lemma AncestorIsBelowRest(start: nat, end: nat, finalized: nat)
    requires RestStart(start, end, finalized) <= end
    ensures RestStart(start, end, finalized) >= 1
    ensures ReorgAncestor(RestStart(start, end, finalized), finalized) == RestStart(start, end, finalized) - 1
  {
  }

  // -------------------------------------------------------------------------
  // What a finished run has made sure of, in every environment
  // -------------------------------------------------------------------------

  /** The last look at the end block succeeded and found it unchanged. */
  predicate EndsStable(h: seq<Event>) {
    h != [] && h[|h| - 1].Compared? && !h[|h| - 1].reorg
  }

  /** The event at `i` has read the end block, and nothing but the messages of one pass came after it. */
  ghost predicate PassSince(h: seq<Event>, i: nat, endBlock: Block, ancestor: nat) {
    && i < |h|
    && (h[i].Anchored? || (h[i].Compared? && h[i].reorg)) && OnChain(h[i].chain, endBlock)
    && h[i + 1..] == (if h[i].Anchored? then [] else [Sent(ReorgDetected(ancestor), h[|h| - 1].chain)])
  }

  /** The event at `i` read the end block; since then one whole pass was streamed; and the last
      event found that its snapshot agrees with that of the event up to and including the end. */
  ghost predicate StablePass(h: seq<Event>, i: nat, end: nat, ranges: seq<Range>, ancestor: nat) {
    && i < |h| - 1 && EndsStable(h)
    && (h[i].Anchored? || (h[i].Compared? && h[i].reorg))
    && AgreeBelow(h[i].chain, h[|h| - 1].chain, end + 1)
    && Messages(h[i + 1..]) == (if h[i].Anchored? then [] else [ReorgDetected(ancestor)]) + RangeMessages(ranges)
  }

  /** The end block could not be read at some moment, or the timeline was over. */
  ghost predicate Unreadable(future: seq<Moment>, left: seq<Moment>, end: nat) {
    left == [] || exists j | 0 <= j < |future| :: !future[j].rpcUp || end >= |future[j].chain.blocks|
  }

  lemma {:induction false} SendAllHistory(w: World, ranges: seq<Range>) returns (sent: seq<Event>)
    ensures SendAll(w, ranges).1.history == w.history + sent
    ensures forall i | 0 <= i < |sent| :: sent[i].Sent?
    ensures SendAll(w, ranges).0 ==> Messages(sent) == RangeMessages(ranges)
    decreases |ranges|
  {
    sent := [];
    if ranges != [] && Now(w).receiverUp {
      var e := Sent(Data(ranges[0]), Now(w).chain);
      var rest := SendAllHistory(Noted(Later(w), e), ranges[1..]);
      sent := [e] + rest;
      assert w.history + [e] + rest == w.history + sent;
      MessagesConcat([e], rest);
      assert [e][..0] == [] && Messages([e]) == [Data(ranges[0])];
    }
  }

  lemma OnePassEnds(restStart: nat, end: nat, size: nat, ancestor: nat, endBlock: Block, w: World, i: nat)
    requires size >= 1 && endBlock.number == end && PassSince(w.history, i, endBlock, ancestor)
    ensures var step := OnePass(restStart, end, size, ancestor, endBlock, w);
            var rest := Tiling(restStart, end, size);
            && (step.Finished? && step.ended.open ==>
                  || StablePass(step.ended.w.history, i, end, rest, ancestor)
                  || (!EndsStable(step.ended.w.history) && Unreadable(w.future, step.ended.w.future, end)))
            && (step.Again? ==>
                  && |step.w.history| >= 2
                  && PassSince(step.w.history, |step.w.history| - 2, step.endBlock, ancestor)
                  && step.endBlock.number == end)
  {
    var rest := Tiling(restStart, end, size);
    var (open, w1) := Pass(restStart, end, size, w);
    var sent := SendAllHistory(w, rest);
    var j := SendAllFuture(w, rest);
    hide Tiling, SendAll, Messages, RangeMessages, PassSince, StablePass, Unreadable, EndsStable, CompareEnd;
    if open {
      ComparisonEnds(w.history, i, endBlock, ancestor, sent, rest, restStart, w, w1, j);
    }
  }

  lemma ComparisonEnds(h: seq<Event>, i: nat, endBlock: Block, ancestor: nat, sent: seq<Event>, ranges: seq<Range>, kept: nat,
                       w: World, w1: World, j: nat)
    requires PassSince(h, i, endBlock, ancestor) && Messages(sent) == RangeMessages(ranges)
    requires forall k | 0 <= k < |sent| :: sent[k].Sent?
    requires w1.history == h + sent && j <= |w.future| && w1.future == w.future[j..]
    ensures var v := CompareEnd(endBlock, kept, w1);
            var end := endBlock.number;
            && (v.Stable? ==>
                  || StablePass(v.w.history, i, end, ranges, ancestor)
                  || (!EndsStable(v.w.history) && Unreadable(w.future, v.w.future, end)))
            && (v.Reorged? ==>
                  && v.endBlock.number == end
                  && var (open, w2) := Send(v.w, ReorgDetected(ancestor));
                  open ==> |w2.history| >= 2 && PassSince(w2.history, |w2.history| - 2, v.endBlock, ancestor))
  {
    hide Messages, RangeMessages;
    var c := Now(w1).chain;
    NotStableYet(h, i, endBlock, ancestor, sent);
    if !(Now(w1).rpcUp && endBlock.number < |c.blocks|) {
      UnreadableEnds(w, w1, j, endBlock, kept);
      hide StablePass, Unreadable, EndsStable, PassSince;
    } else if HashAt(c, endBlock.number) == endBlock.hash {
      SharedBlock(h[i].chain, c, endBlock);
      StableEnds(h, i, endBlock, ancestor, sent, ranges, kept, c);
      hide PassSince, StablePass, Unreadable, EndsStable;
    } else {
      ReorgedEnds(w1, c, endBlock.number, kept, ancestor);
      hide PassSince, StablePass, Unreadable, EndsStable;
    }
  }

  lemma NotStableYet(h: seq<Event>, i: nat, endBlock: Block, ancestor: nat, sent: seq<Event>)
    requires PassSince(h, i, endBlock, ancestor) && forall k | 0 <= k < |sent| :: sent[k].Sent?
    ensures h + sent != [] && !EndsStable(h + sent)
  {
    if sent == [] {
      assert h + sent == h;
      assert h[i].Compared? ==> h[i + 1..][0] == h[|h| - 1];
    }
  }

  lemma ReorgedEnds(w: World, c: Chain, end: nat, kept: nat, ancestor: nat)
    requires end < |c.blocks|
    ensures var w1 := Noted(Later(w), Compared(c, true, kept));
            var (open, w2) := Send(w1, ReorgDetected(ancestor));
            open ==> |w2.history| >= 2 && PassSince(w2.history, |w2.history| - 2, BlockAt(c, end), ancestor)
  {
  }

  lemma StableEnds(
    h: seq<Event>, i: nat, endBlock: Block, ancestor: nat, sent: seq<Event>, ranges: seq<Range>, kept: nat, c: Chain)
    requires PassSince(h, i, endBlock, ancestor) && Messages(sent) == RangeMessages(ranges)
    requires AgreeBelow(h[i].chain, c, endBlock.number + 1)
    ensures StablePass(h + sent + [Compared(c, false, kept)], i, endBlock.number, ranges, ancestor)
  {
    var e := Compared(c, false, kept);
    var h' := h + sent + [e];
    assert h'[i + 1..] == h[i + 1..] + (sent + [e]);
    MessagesConcat(h[i + 1..], sent + [e]);
    assert (sent + [e])[..|sent|] == sent;
    assert h[i + 1..] != [] ==> h[i + 1..][..0] == [];
  }

  /** After a pass the run goes on to compare; where that fails it leaves no comparison. */
  lemma UnreadableEnds(w: World, w1: World, j: nat, endBlock: Block, kept: nat)
    requires j <= |w.future| && w1.future == w.future[j..]
    requires w1.history != [] && !EndsStable(w1.history)
    ensures var v := CompareEnd(endBlock, kept, w1);
            v.Stable? && !(Now(w1).rpcUp && endBlock.number < |Now(w1).chain.blocks|) ==>
              !EndsStable(v.w.history) && Unreadable(w.future, v.w.future, endBlock.number)
  {
    if w1.future != [] {
      assert w.future[j] == Now(w1);
    }
  }

  /** How a run that reports success has ended. */
  ghost predicate StableOrUnread(r: Ended, future: seq<Moment>, i: nat, end: nat, ranges: seq<Range>, ancestor: nat) {
    r.open ==>
      || StablePass(r.w.history, i, end, ranges, ancestor)
      || (!EndsStable(r.w.history) && Unreadable(future, r.w.future, end))
  }

  lemma {:induction false} PassesEnd(restStart: nat, end: nat, size: nat, ancestor: nat, endBlock: Block, w: World, i0: nat)
    returns (i: nat)
    requires size >= 1 && endBlock.number == end && PassSince(w.history, i0, endBlock, ancestor)
    ensures StableOrUnread(Passes(restStart, end, size, ancestor, endBlock, w),
                           w.future, i, end, Tiling(restStart, end, size), ancestor)
    decreases |w.future|
  {
    i := i0;
    SendAllConsumes(w, Tiling(restStart, end, size));
    OnePassEnds(restStart, end, size, ancestor, endBlock, w, i0);
    var step := OnePass(restStart, end, size, ancestor, endBlock, w);
    if step.Again? {
      var j := AgainFuture(restStart, end, size, ancestor, endBlock, w);
      i := PassesEnd(restStart, end, size, ancestor, step.endBlock, step.w, |step.w.history| - 2);
      LaterStart(Passes(restStart, end, size, ancestor, step.endBlock, step.w), w.future, j, i, end, Tiling(restStart, end, size), ancestor);
      hide OnePass, StableOrUnread, Tiling;
    }
  }

  lemma AgainFuture(restStart: nat, end: nat, size: nat, ancestor: nat, endBlock: Block, w: World) returns (j: nat)
    requires size >= 1
    ensures var step := OnePass(restStart, end, size, ancestor, endBlock, w);
            step.Again? ==> j <= |w.future| && step.w.future == w.future[j..]
  {
    j := SendAllFuture(w, Tiling(restStart, end, size));
    hide Tiling, SendAll;
    var w1 := Pass(restStart, end, size, w).1;
    LaterFuture(w.future, w1, j);
    LaterFuture(w.future, Later(w1), Min(j + 1, |w.future|));
    j := Min(j + 2, |w.future|);
  }

  lemma LaterFuture(future: seq<Moment>, w: World, k: nat)
    requires k <= |future| && w.future == future[k..]
    ensures Later(w).future == future[Min(k + 1, |future|)..]
  {
  }

  lemma LaterStart(r: Ended, future: seq<Moment>, j: nat, i: nat, end: nat, ranges: seq<Range>, ancestor: nat)
    requires j <= |future| && StableOrUnread(r, future[j..], i, end, ranges, ancestor)
    ensures StableOrUnread(r, future, i, end, ranges, ancestor)
  {
    if Unreadable(future[j..], r.w.future, end) && r.w.future != [] {
      var k :| 0 <= k < |future[j..]| && (!future[j..][k].rpcUp || end >= |future[j..][k].chain.blocks|);
      assert future[j + k] == future[j..][k];
    }
  }

  lemma AfterFinalized(w: World, w1: World, j: nat) returns (skipped: nat)
    requires j <= |Later(w).future| && w1.future == Later(w).future[j..]
    ensures skipped <= |w.future| && w1.future == w.future[skipped..]
  {
    skipped := if w.future == [] then 0 else j + 1;
  }

  lemma RestEnds(restStart: nat, end: nat, size: nat, finalized: nat, w: World) returns (i: nat)
    requires size >= 1
    ensures StableOrUnread(StreamRest(restStart, end, size, finalized, w),
                           w.future, i, end, Tiling(restStart, end, size), ReorgAncestor(restStart, finalized))
  {
    i := 0;
    hide Tiling, Passes, StablePass, EndsStable;
    var ancestor := ReorgAncestor(restStart, finalized);
    var (endBlock, w1) := Fetch(w, end);
    if endBlock.Ok? {
      assert w1.history[|w1.history| - 1] == Anchored(Now(w).chain, 0);
      i := PassesEnd(restStart, end, size, ancestor, endBlock.value, w1, |w1.history| - 1);
      LaterStart(Passes(restStart, end, size, ancestor, endBlock.value, w1), w.future, Min(1, |w.future|), i, end, Tiling(restStart, end, size), ancestor);
      hide StableOrUnread;
    }
  }

  lemma RestIsStable(start: nat, end: nat, size: nat, w: World) returns (i: nat)
    requires size >= 1 && start <= end
    ensures var f := ReadFinalized(w).height;
            var restStart := RestStart(start, end, f);
            var r := StreamHistorical(start, end, size, w);
            restStart <= end ==>
              StableOrUnread(r, w.future, i, end, Tiling(restStart, end, size), ReorgAncestor(restStart, f))
  {
    i := 0;
    hide Tiling, SendAll, StreamRest, StableOrUnread, ReadFinalized;
    var f := ReadFinalized(w);
    FinalizedMessages(w);
    var ranges := Tiling(start, Min(f.height, end), size);
    var (open, w1) := SendAll(f.w, ranges);
    var j := SendAllFuture(f.w, ranges);
    var restStart := RestStart(start, end, f.height);
    if restStart <= end {
      if open {
        i := RestEnds(restStart, end, size, f.height, w1);
        var skipped := AfterFinalized(w, w1, j);
        LaterStart(StreamRest(restStart, end, size, f.height, w1), w.future, skipped, i, end,
                   Tiling(restStart, end, size), ReorgAncestor(restStart, f.height));
      } else {
        NotOpen(StreamHistorical(start, end, size, w), w.future, i, end, Tiling(restStart, end, size), ReorgAncestor(restStart, f.height));
      }
    }
  }

  /** In every environment: a run with blocks above the finalized height that reports success either
      has two snapshots around its last pass over all of these blocks that agree on every block up
      to the end, or has failed to read the end block the last time; so where the end block can
      always be read, success means that the interval was stable throughout its last pass. Where the
      node tells no finalized height, only block 0 is exempt. */
  lemma SuccessIsStable(start: nat, end: nat, size: nat, w: World) returns (i: nat)
    requires size >= 1 && start <= end
    ensures var finalized := if Now(w).rpcUp && Now(w).chain.finalized.Some? then Now(w).chain.finalized.value else 0;
            var restStart := Max(start, finalized + 1);
            var r := StreamHistorical(start, end, size, w);
            restStart <= end ==> StableOrUnread(r, w.future, i, end, Tiling(restStart, end, size), restStart - 1)
  {
    hide StreamHistorical, ReadFinalized, StableOrUnread, Tiling;
    FinalizedIsRead(w);
    i := RestIsStable(start, end, size, w);
    var f := ReadFinalized(w).height;
    if RestStart(start, end, f) <= end {
      AncestorIsBelowRest(start, end, f);
    }
  }

  lemma NotOpen(r: Ended, future: seq<Moment>, i: nat, end: nat, ranges: seq<Range>, ancestor: nat)
    ensures !r.open ==> StableOrUnread(r, future, i, end, ranges, ancestor)
  {
  }

  // -------------------------------------------------------------------------
  // The output is sound
  // -------------------------------------------------------------------------

  /** A gapless stream that starts at `origin` and goes on at `cursor`. */
  ghost predicate Growing(m: Monitor, cursor: nat, origin: nat) {
    && m.sound && !m.pending
    && (m.faithful ==>
          && Truthful(m.view) && (Settled(m) ==> Canonical(m.view, m.base))
          && m.view.low <= m.view.mark
          && (if m.view.low < m.view.mark then m.view.mark == cursor && m.view.low == origin
              else cursor == origin && m.view.mark <= cursor))
  }

  /** Everything held below height `kept` was read from the last snapshot looked at. */
  ghost predicate Passing(m: Monitor, kept: nat) {
    && m.final == 0
    && forall i | 0 <= i < |m.view.sources| ::
         var s := m.view.sources[i];
         s.from < kept && s.from < s.upTo ==> s.chain == m.base && s.upTo <= kept && m.view.low <= s.from && m.view.low < m.view.mark
  }

  lemma GrowingIsJudged(m: Monitor, cursor: nat, origin: nat)
    requires Growing(m, cursor, origin)
    ensures Judged(m)
    ensures m.faithful && cursor != origin ==> m.view.low < m.view.mark
  {
  }

  /** The part of a range that is streamed without a later check is settled at once. */
  ghost predicate FinalUpTo(m: Monitor, hi: nat) {
    Settled(m) && hi < m.final
  }

  lemma DataGrows(m: Monitor, r: Range, c: Chain, origin: nat)
    requires Growing(m, r.lo, origin) && r.lo <= r.hi
    ensures var m' := Observe(m, Sent(Data(r), c));
            && Growing(m', r.hi + 1, origin) && m'.base == m.base && m'.final == m.final
            && (FinalUpTo(m, r.hi) ==> Settled(m'))
  {
    hide Canonical, Truthful, Kept, Read, AgreeBelow;
    if m.faithful {
      ReceivedTruthful(m.view, r, c);
      if Settled(m) {
        if AgreeBelow(m.base, c, r.hi + 1) {
          FinalTruthful(m.view, r, c, m.base);
        }
        NotSettled(m.view, r, c, m.base);
      } else {
        NotSettled(m.view, r, c, m.base);
      }
    }
  }

  /** A range that is not taken for final leaves the view unsettled. */
  lemma NotSettled(v: Consumer, r: Range, c: Chain, base: Chain)
    requires Truthful(v)
    ensures var v' := Received(v, r, c); v'.sources != [Source(base, v'.low, v'.mark)]
  {
  }

  lemma DataPasses(m: Monitor, r: Range, c: Chain, kept: nat)
    requires Passing(m, kept) && kept <= r.lo <= r.hi && r.hi + 1 != m.view.low
    ensures Passing(Observe(m, Sent(Data(r), c)), kept)
  {
    hide Read, Canonical;
    var v' := Observe(m, Sent(Data(r), c)).view;
    assert v' == Received(m.view, r, c);
    forall i | 0 <= i < |v'.sources| && v'.sources[i].from < kept && v'.sources[i].from < v'.sources[i].upTo
      ensures v'.sources[i].chain == m.base && v'.sources[i].upTo <= kept && v'.low <= v'.sources[i].from && v'.low < v'.mark
    {
      assert v'.sources[i] == m.view.sources[i];
    }
  }

  ghost predicate SentTiling(m: Monitor, before: Monitor, open: bool, cursor: nat, origin: nat, hi: nat, kept: nat, lo: nat) {
    && Judged(m) && m.base == before.base && m.final == before.final
    && (before.faithful || !m.faithful)
    && (open ==>
          && Growing(m, cursor, origin)
          && (FinalUpTo(before, hi) ==> Settled(m))
          && (Passing(before, kept) && kept <= lo && m.faithful ==> Passing(m, kept)))
  }

  lemma {:induction false} SendTilingGrows(m: Monitor, w: World, lo: nat, hi: nat, size: nat, origin: nat, kept: nat)
    requires size >= 1 && Growing(Watch(m, w.history), lo, origin)
    ensures var (open, w') := SendAll(w, Tiling(lo, hi, size));
            SentTiling(Watch(m, w'.history), Watch(m, w.history), open, Max(lo, hi + 1), origin, hi, kept, lo)
    decreases hi + 1 - lo
  {
    hide Growing, Settled, Passing, Observe, Watch, Judged;
    GrowingIsJudged(Watch(m, w.history), lo, origin);
    if lo <= hi {
      var r := Range(lo, BatchEnd(lo, hi, size));
      assert Tiling(lo, hi, size)[1..] == Tiling(r.hi + 1, hi, size);
      if Now(w).receiverUp {
        var e := Sent(Data(r), Now(w).chain);
        WatchNoted(m, Later(w), e);
        DataGrows(Watch(m, w.history), r, e.chain, origin);
        FaithfulBefore(Watch(m, w.history), e);
        if Passing(Watch(m, w.history), kept) && kept <= lo && Watch(m, w.history).faithful {
          CursorIsNotLow(Watch(m, w.history), r, origin);
          DataPasses(Watch(m, w.history), r, e.chain, kept);
        }
        assert Send(w, Data(r)) == (true, Noted(Later(w), e));
        SendTilingGrows(m, Noted(Later(w), e), r.hi + 1, hi, size, origin, kept);
        hide Tiling;
      }
    }
  }

  lemma CursorIsNotLow(m: Monitor, r: Range, origin: nat)
    requires Growing(m, r.lo, origin) && m.faithful && r.lo <= r.hi
    ensures r.hi + 1 != m.view.low
  {
  }

  lemma FaithfulBefore(m: Monitor, e: Event)
    ensures Observe(m, e).faithful ==> m.faithful
  {
  }

  lemma AnchorKeepsGrowing(m: Monitor, c: Chain, final: nat, cursor: nat, origin: nat)
    requires Growing(m, cursor, origin)
    ensures var m' := Observe(m, Anchored(c, final));
            Growing(m', cursor, origin) && Settled(m') && m'.final == final
  {
    hide Truthful, Canonical, Accords;
    if m.faithful && Accords(m.view.sources, c, m.view.mark) {
      TrustedTruthful(m.view, c);
    }
  }

  lemma ReportKeepsGrowing(m: Monitor, w: World, e: ScannerError, cursor: nat, origin: nat)
    requires Growing(Watch(m, w.history), cursor, origin)
    ensures Growing(Watch(m, Report(w, e).history), cursor, origin)
  {
    WatchNoted(m, Later(w), Sent(Error(e), Now(w).chain));
  }

  lemma BelowKeptAccords(m: Monitor, c: Chain, kept: nat)
    requires Passing(m, kept) && (m.view.low < kept ==> AgreeBelow(m.base, c, kept))
    ensures Accords(m.view.sources, c, kept)
  {
    forall i | 0 <= i < |m.view.sources|
      ensures Agrees(m.view.sources[i], c, kept)
    {
      var s := m.view.sources[i];
      if s.from < kept && s.from < s.upTo {
        AgreeLess(m.base, c, kept, s.upTo);
      }
    }
  }

  /** After a pass that ended with a reorg, the notification takes the view back to where the
      next pass starts. */
  lemma RestartGrows(m: Monitor, restStart: nat, end: nat, origin: nat, c: Chain, d: Chain)
    requires Growing(m, end + 1, origin) && 1 <= restStart <= end < |c.blocks| && origin <= restStart
    requires m.faithful ==> Passing(m, restStart)
    ensures var m1 := Observe(m, Compared(c, true, restStart));
            var m2 := Observe(m1, Sent(ReorgDetected(restStart - 1), d));
            && Judged(m1)
            && Growing(m2, restStart, origin) && Settled(m2) && m2.base == c
            && (m2.faithful ==> Passing(m2, restStart))
  {
    hide Truthful, Canonical;
    if m.faithful && (m.view.low < restStart ==> AgreeBelow(m.base, c, restStart)) {
      BelowKeptAccords(m, c, restStart);
      hide Accords, AgreeBelow;
      RollbackTruthful(m.view, restStart - 1, c);
    }
  }

  /** Every event left a canonical view where the scanner had looked at everything, and a run
      that reached its end has streamed up to and including `end`. */
  ghost predicate EndsCanonical(m: Monitor, r: Ended, end: nat, origin: nat) {
    var m' := Watch(m, r.w.history);
    Judged(m') && (r.open ==> Growing(m', end + 1, origin))
  }

  lemma CleanCompareGrows(m: Monitor, end: nat, endBlock: Block, kept: nat, origin: nat, c: Chain)
    requires Growing(m, end + 1, origin) && endBlock.number == end && origin <= end
    requires m.faithful ==> OnChain(m.base, endBlock)
    requires OnChain(c, endBlock)
    ensures Growing(Observe(m, Compared(c, false, kept)), end + 1, origin)
  {
    hide Truthful, Canonical;
    if m.faithful && Accords(m.view.sources, c, CommonLength(m.base, c)) {
      SharedBlock(m.base, c, endBlock);
      AccordsLess(m.view.sources, c, CommonLength(m.base, c), m.view.mark);
      hide Accords, AgreeBelow;
      TrustedTruthful(m.view, c);
    }
  }

  lemma CompareEndIsSound(m: Monitor, restStart: nat, end: nat, endBlock: Block, w: World, origin: nat)
    requires 1 <= restStart <= end && origin <= restStart && endBlock.number == end
    requires var m0 := Watch(m, w.history);
             Growing(m0, end + 1, origin) && (m0.faithful ==> OnChain(m0.base, endBlock) && Passing(m0, restStart))
    ensures var v := CompareEnd(endBlock, restStart, w);
            && Judged(Watch(m, v.w.history))
            && (v.Stable? ==> Growing(Watch(m, v.w.history), end + 1, origin))
            && (v.Reorged? ==>
                  && Watch(m, v.w.history) == Observe(Watch(m, w.history), Compared(Now(w).chain, true, restStart))
                  && end < |Now(w).chain.blocks| && v.endBlock == BlockAt(Now(w).chain, end))
  {
    hide Growing, Passing, Observe, Judged, Report;
    var m0, c := Watch(m, w.history), Now(w).chain;
    if Now(w).rpcUp && end < |c.blocks| {
      if HashAt(c, end) == endBlock.hash {
        WatchNoted(m, Later(w), Compared(c, false, restStart));
        CleanCompareGrows(m0, end, endBlock, restStart, origin, c);
        GrowingIsJudged(Observe(m0, Compared(c, false, restStart)), end + 1, origin);
      } else {
        WatchNoted(m, Later(w), Compared(c, true, restStart));
        RestartGrows(m0, restStart, end, origin, c, c);
      }
    } else {
      var e := if Now(w).rpcUp then BlockNotFound else RpcError;
      ReportKeepsGrowing(m, Later(w), e, end + 1, origin);
      GrowingIsJudged(Watch(m, Report(Later(w), e).history), end + 1, origin);
    }
  }

  /** Ready for a pass that is compared with this end block. */
  ghost predicate PassReady(m: Monitor, restStart: nat, end: nat, endBlock: Block, origin: nat) {
    && Growing(m, restStart, origin) && endBlock.number == end
    && (m.faithful ==> OnChain(m.base, endBlock) && Passing(m, restStart))
  }

  ghost predicate PassIsSound(m: Monitor, step: PassStep, restStart: nat, end: nat, origin: nat) {
    match step
    case Finished(ended) => EndsCanonical(m, ended, end, origin)
    case Again(endBlock, w) => PassReady(Watch(m, w.history), restStart, end, endBlock, origin)
  }

  lemma OnePassIsSound(m: Monitor, restStart: nat, end: nat, size: nat, endBlock: Block, w: World, origin: nat)
    requires size >= 1 && 1 <= restStart <= end && origin <= restStart
    requires PassReady(Watch(m, w.history), restStart, end, endBlock, origin)
    ensures PassIsSound(m, OnePass(restStart, end, size, restStart - 1, endBlock, w), restStart, end, origin)
  {
    hide Growing, CompareEnd, SendAll, Watch, Passing, Settled, Observe, Judged, Tiling;
    var (open, w1) := Pass(restStart, end, size, w);
    SendTilingGrows(m, w, restStart, end, size, origin, restStart);
    if open {
      CompareEndIsSound(m, restStart, end, endBlock, w1, origin);
      var v := CompareEnd(endBlock, restStart, w1);
      if v.Reorged? {
        var d := Now(v.w).chain;
        RestartGrows(Watch(m, w1.history), restStart, end, origin, Now(w1).chain, d);
        WatchNoted(m, Later(v.w), Sent(ReorgDetected(restStart - 1), d));
        GrowingIsJudged(Watch(m, Noted(Later(v.w), Sent(ReorgDetected(restStart - 1), d)).history), restStart, origin);
      }
    }
  }

  lemma {:induction false} PassesIsSound(
    m: Monitor, restStart: nat, end: nat, size: nat, endBlock: Block, w: World, origin: nat)
    requires size >= 1 && 1 <= restStart <= end && origin <= restStart
    requires PassReady(Watch(m, w.history), restStart, end, endBlock, origin)
    ensures EndsCanonical(m, Passes(restStart, end, size, restStart - 1, endBlock, w), end, origin)
    decreases |w.future|
  {
    hide PassReady, EndsCanonical, OnePass;
    SendAllConsumes(w, Tiling(restStart, end, size));
    OnePassIsSound(m, restStart, end, size, endBlock, w, origin);
    var step := OnePass(restStart, end, size, restStart - 1, endBlock, w);
    if step.Again? {
      AgainConsumes(restStart, end, size, restStart - 1, endBlock, w);
      PassesIsSound(m, restStart, end, size, step.endBlock, step.w, origin);
    }
  }

  lemma AgainConsumes(restStart: nat, end: nat, size: nat, ancestor: nat, endBlock: Block, w: World)
    requires size >= 1
    ensures var step := OnePass(restStart, end, size, ancestor, endBlock, w);
            step.Again? ==> |step.w.future| < |w.future|
  {
    SendAllConsumes(w, Tiling(restStart, end, size));
    hide Tiling, SendAll;
  }

  lemma SettledPasses(m: Monitor, cursor: nat, origin: nat)
    requires Growing(m, cursor, origin) && Settled(m) && m.final == 0 && m.faithful
    ensures Passing(m, cursor)
  {
  }

  lemma StreamRestIsSound(m: Monitor, restStart: nat, end: nat, size: nat, finalized: nat, w: World, origin: nat)
    requires size >= 1 && 1 <= restStart <= end && origin <= restStart
    requires ReorgAncestor(restStart, finalized) == restStart - 1
    requires Growing(Watch(m, w.history), restStart, origin)
    ensures EndsCanonical(m, StreamRest(restStart, end, size, finalized, w), end, origin)
  {
    hide Growing, Passing, Settled, Watch, Judged, Passes, ReorgAncestor;
    var (endBlock, w1) := Fetch(w, end);
    var c := Now(w).chain;
    if endBlock.Ok? {
      AnchorKeepsGrowing(Watch(m, w.history), c, 0, restStart, origin);
      WatchNoted(m, Later(w), Anchored(c, 0));
      var m1 := Watch(m, w1.history);
      if m1.faithful {
        SettledPasses(m1, restStart, origin);
      }
      PassesIsSound(m, restStart, end, size, endBlock.value, w1, origin);
    } else {
      ReportKeepsGrowing(m, w1, endBlock.error, restStart, origin);
      GrowingIsJudged(Watch(m, Report(w1, endBlock.error).history), restStart, origin);
    }
  }

  lemma FinalizedGrows(m: Monitor, w: World, start: nat, origin: nat)
    requires Growing(Watch(m, w.history), start, origin)
    ensures var f := ReadFinalized(w);
            var m' := Watch(m, f.w.history);
            Growing(m', start, origin) && (KnowsFinalized(Now(w)) ==> Settled(m') && m'.final == f.height + 1)
  {
    if KnowsFinalized(Now(w)) {
      var c := Now(w).chain;
      AnchorKeepsGrowing(Watch(m, w.history), c, c.finalized.value + 1, start, origin);
      WatchNoted(m, Later(w), Anchored(c, c.finalized.value + 1));
    }
  }

  lemma HistoricalIsSound(m: Monitor, start: nat, end: nat, size: nat, w: World, origin: nat)
    requires size >= 1 && origin <= start <= end
    requires Growing(Watch(m, w.history), start, origin)
    ensures var r := StreamHistorical(start, end, size, w);
            && EndsCanonical(m, r, end, origin)
            && (r.open && KnowsFinalized(Now(w)) && end <= ReadFinalized(w).height ==> Settled(Watch(m, r.w.history)))
  {
    hide Growing, Passing, Settled, Watch, Judged, ReadFinalized, SendAll, Tiling, StreamRest;
    FinalizedGrows(m, w, start, origin);
    var f := ReadFinalized(w);
    var (open, w1) := SendAll(f.w, Tiling(start, Min(f.height, end), size));
    SendTilingGrows(m, f.w, start, Min(f.height, end), size, origin, 0);
    var restStart := RestStart(start, end, f.height);
    if open && restStart <= end {
      AncestorIsBelowRest(start, end, f.height);
      StreamRestIsSound(m, restStart, end, size, f.height, w1, origin);
    }
  }

  /** A comparison that found nothing settles what was streamed. */
  lemma StableEndSettles(m: Monitor, h: seq<Event>)
    requires EndsStable(h)
    ensures Settled(Watch(m, h))
  {
    hide Accords;
  }

  /** A historical run that reaches its end, in an environment that keeps to the windows, leaves
      the consumer with exactly the canonical blocks `start..=end`, each streamed without gap or
      overlap since the last rollback, whenever the scanner has looked at all of them: when the
      last look at the end block succeeded, or the whole interval was finalized. */
  lemma HistoricalReplayIsCanonical(start: nat, end: nat, size: nat, future: seq<Moment>)
    requires size >= 1 && start <= end
    ensures var w := World(future, []);
            var r := StreamHistorical(start, end, size, w);
            var m := Watch(START, r.w.history);
            && Judged(m)
            && (r.open && m.faithful && Settled(m) ==> end < |m.base.blocks| && m.view.held == Blocks(m.base, start, end + 1))
            && (r.open && (EndsStable(r.w.history) || (KnowsFinalized(Now(w)) && end <= ReadFinalized(w).height)) ==> Settled(m))
  {
    hide StreamHistorical, Watch, ReadFinalized;
    var w := World(future, []);
    WatchNothing(START);
    assert Growing(START, start, start);
    HistoricalIsSound(START, start, end, size, w, start);
    var r := StreamHistorical(start, end, size, w);
    if EndsStable(r.w.history) {
      StableEndSettles(START, r.w.history);
    }
  }
}
