/** The order of the reorg buffer, in any environment. */
module BufferOrder {
  import opened Wrappers
  import opened Chains
  import opened RangeIterator
  import opened RingBuffers
  import opened ReorgHandler
  import opened Outside
  import opened RangeStream
  import opened LiveStream

  /** All entries lie below height `n`, in strictly increasing order. */
  ghost predicate Below(buffer: seq<Block>, n: nat) {
    Increasing(buffer) && forall i | 0 <= i < |buffer| :: buffer[i].number < n
  }

  /** All entries lie below `block`, except that it may be the newest entry itself. */
  ghost predicate UpTo(buffer: seq<Block>, block: Block) {
    Increasing(buffer) && forall i | 0 <= i < |buffer| ::
      buffer[i].number < block.number || (i == |buffer| - 1 && buffer[i] == block)
  }

  lemma RememberKeepsOrder(buffer: seq<Block>, capacity: Capacity, block: Block)
    requires UpTo(buffer, block)
    ensures UpTo(Remember(buffer, capacity, block), block)
  {
    if buffer == [] || Last(buffer).hash != block.hash {
      assert forall i | 0 <= i < |buffer| :: buffer[i].number < block.number;
      hide Increasing, UpTo;
      PushedKeepsOrder(buffer, capacity, block);
    }
  }

  lemma PushedKeepsOrder(buffer: seq<Block>, capacity: Capacity, block: Block)
    requires Below(buffer, block.number)
    ensures UpTo(Pushed(buffer, capacity, block), block)
  {
  }

  /** What is left of a buffer up to a block that left the chain lies below the block. */
  lemma KeptBelow(c: Chain, buffer: seq<Block>, block: Block)
    requires UpTo(buffer, block) && !OnChain(c, block)
    ensures var kept := PopStale(c, buffer);
            Below(kept, block.number) && (kept != [] ==> UpTo(kept, Last(kept)))
  {
    var kept := PopStale(c, buffer);
    if kept != [] {
      assert Last(kept) == buffer[|kept| - 1];
      assert Last(kept) != block;
    }
  }

  lemma CheckKeepsOrder(c: Chain, buffer: seq<Block>, capacity: Capacity, block: Block)
    requires UpTo(buffer, block)
    ensures var (r, buffer') := CheckOn(c, buffer, capacity, block);
            && (r == Ok(None) ==> UpTo(buffer', block))
            && (r.Ok? && r.value.Some? ==>
                  && UpTo(buffer', r.value.value)
                  && (buffer' != [] ==> r.value.value.number < block.number))
  {
    hide Remember, PopStale;
    if OnChain(c, block) {
      RememberKeepsOrder(buffer, capacity, block);
    } else {
      KeptBelow(c, buffer, block);
    }
  }

  ghost predicate StepOrdered(p: Params, step: Step) {
    step.Next? ==>
      && Below(step.buffer, step.cursor)
      && (step.cursor > p.end ==> UpTo(step.buffer, step.batchEnd))
  }

  lemma BatchKeepsOrder(p: Params, cursor: nat, buffer: seq<Block>, w: World)
    requires p.size >= 1 && p.minCommonAncestor <= cursor <= p.end && Below(buffer, cursor)
    ensures StepOrdered(p, BatchStep(p, cursor, buffer, w))
  {
    var (fetched, w1) := Fetch(w, BatchEnd(cursor, p.end, p.size));
    if fetched.Ok? {
      var (_, w2) := Send(w1, Data(Range(cursor, BatchEnd(cursor, p.end, p.size))));
      CheckKeepsOrder(Now(w2).chain, buffer, p.capacity, fetched.value);
    }
    hide CheckOn;
  }

  lemma {:induction false} StreamKeepsOrder(p: Params, cursor: nat, last: Option<Block>, buffer: seq<Block>, w: World)
    requires p.size >= 1 && p.minCommonAncestor <= cursor && p.minCommonAncestor <= p.end && Below(buffer, cursor)
    requires cursor > p.end && last.Some? ==> UpTo(buffer, last.value)
    ensures var outcome := StreamRange(p, cursor, last, buffer, w);
            outcome.Done? && outcome.last.Some? ==> UpTo(outcome.buffer, outcome.last.value)
    decreases |w.future|
  {
    if cursor <= p.end {
      BatchKeepsOrder(p, cursor, buffer, w);
      BatchConsumes(p, cursor, buffer, w);
      var step := BatchStep(p, cursor, buffer, w);
      assert step.Next? ==> p.minCommonAncestor <= step.cursor;
      hide BatchStep;
      if step.Next? {
        StreamKeepsOrder(p, step.cursor, Some(step.batchEnd), step.buffer, step.w);
      }
    }
  }

  ghost predicate LiveOrdered(cfg: Config, live: Live) {
    live.Open? ==>
      && AboveBound(cfg, live.state)
      && match live.state.previousBatchEnd
         case Some(block) => UpTo(live.buffer, block)
         case None => Below(live.buffer, cfg.streamStart)
  }

  lemma NextBatchOrdered(cfg: Config, batchEnd: nat, state: State, buffer: seq<Block>, w: World)
    requires cfg.size >= 1 && LiveOrdered(cfg, Open(state, buffer, w)) && Below(buffer, state.batchStart)
    ensures LiveOrdered(cfg, NextBatch(cfg, batchEnd, state, buffer, w))
  {
    if state.batchStart <= batchEnd {
      var p := Params(MinCommonAncestor(cfg), batchEnd, cfg.size, cfg.capacity);
      StreamKeepsOrder(p, state.batchStart, None, buffer, w);
      StreamRangeAbove(p, state.batchStart, None, buffer, w);
    }
  }

  lemma CheckPreviousOrdered(cfg: Config, previous: Block, buffer: seq<Block>, w: World)
    requires UpTo(buffer, previous) && MinCommonAncestor(cfg) <= previous.number + 1
    ensures var live := CheckPrevious(cfg, previous, buffer, w);
            LiveOrdered(cfg, live) && (live.Open? ==> Below(live.buffer, live.state.batchStart))
  {
    CheckKeepsOrder(Now(w).chain, buffer, cfg.capacity, previous);
    hide CheckOn;
  }

  lemma {:induction false} ContinueOrdered(cfg: Config, items: seq<Item>, live: Live)
    requires cfg.size >= 1 && LiveOrdered(cfg, live)
    ensures LiveOrdered(cfg, Continue(cfg, items, live))
    decreases |items|
  {
    if items != [] && live.Open? {
      var next := OnItem(cfg, items[0], live.state, live.buffer, live.w);
      if items[0].Header? && live.state.previousBatchEnd.Some? {
        var previous := live.state.previousBatchEnd.value;
        CheckPreviousOrdered(cfg, previous, live.buffer, live.w);
        var mid := CheckPrevious(cfg, previous, live.buffer, live.w);
        hide CheckPrevious;
        if mid.Open? {
          NextBatchOrdered(cfg, Confirmed(cfg, items[0].number), mid.state, mid.buffer, mid.w);
        }
      }
      hide NextBatch;
      ContinueOrdered(cfg, items[1..], next);
    }
  }

  /** Over every live run, faithful or not, the heights in the reorg buffer are strictly
      increasing and none lies above the previous batch end. */
  lemma LiveBufferIsOrdered(cfg: Config, items: seq<Item>, notify: bool, future: seq<Moment>)
    requires cfg.size >= 1
    ensures LiveOrdered(cfg, StreamLive(cfg, items, notify, [], World(future, [])))
  {
    var w := World(future, []);
    var relevant := SkipWhile(cfg, items);
    if relevant != [] && !relevant[0].Failed? {
      var (open, w1) := if notify then Send(w, SwitchingToLive) else (true, w);
      var confirmed := Confirmed(cfg, relevant[0].number);
      var p := Params(MinCommonAncestor(cfg), confirmed, cfg.size, cfg.capacity);
      StreamKeepsOrder(p, cfg.streamStart, None, [], w1);
      StreamRangeAbove(p, cfg.streamStart, None, [], w1);
      hide StreamRange;
      ContinueOrdered(cfg, relevant[1..], Initialize(cfg, confirmed, [], w1));
    }
  }
}
