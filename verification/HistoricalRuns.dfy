/** Everything a historical run can do, also when it is cut short. */
module HistoricalRuns {
  import opened Wrappers
  import opened U64
  import opened Chains
  import opened RangeIterator
  import opened Outside
  import opened Historical

  /** The interval and the finalized height that was read, or 0 when the node did not tell. */
  datatype Plan = Plan(start: nat, end: nat, size: nat, finalized: nat)

  /** What comes next in a run. */
  datatype Phase =
    | Begin                                    // the finalized height is read
    | FinalRange(cursor: nat)                  // a finalized range from `cursor` on
    | ReadEnd                                  // the end block is read
    | RestRange(cursor: nat, endBlock: Block)  // a range of the rest from `cursor` on
    | Compare(endBlock: Block)                 // the end block is read again
    | Notify(endBlock: Block)                  // the block before the rest is notified, before another pass
    | Done
    | Over

  function FinalEnd(p: Plan): nat {
    Min(p.finalized, p.end)
  }

  function Rest(p: Plan): nat {
    Max(p.start, Min(p.finalized, p.end) + 1)
  }

  function FinalsFrom(p: Plan, cursor: nat): Phase {
    if cursor <= FinalEnd(p) then FinalRange(cursor) else if Rest(p) <= p.end then ReadEnd else Done
  }

  function PassFrom(p: Plan, cursor: nat, endBlock: Block): Phase {
    if cursor <= p.end then RestRange(cursor, endBlock) else Compare(endBlock)
  }

  /** The phase after an event; nothing for an event that a run does not produce there. */
  function Allowed(p: Plan, phase: Phase, e: Event): Option<Phase>
    requires p.size >= 1
  {
    match (phase, e)
    case (Begin, Anchored(c, final)) =>
      if c.finalized == Some(p.finalized) && final == p.finalized + 1 then Some(FinalsFrom(p, p.start)) else None
    case (FinalRange(cursor), Sent(Data(r), _)) =>
      if cursor <= FinalEnd(p) && r == Range(cursor, BatchEnd(cursor, FinalEnd(p), p.size)) then Some(FinalsFrom(p, r.hi + 1)) else None
    case (ReadEnd, Anchored(c, final)) =>
      if final == 0 && p.end < |c.blocks| then Some(PassFrom(p, Rest(p), BlockAt(c, p.end))) else None
    case (ReadEnd, Sent(Error(_), _)) => Some(Over)
    case (RestRange(cursor, endBlock), Sent(Data(r), _)) =>
      if cursor <= p.end && r == Range(cursor, BatchEnd(cursor, p.end, p.size)) then Some(PassFrom(p, r.hi + 1, endBlock)) else None
    case (Compare(endBlock), Compared(c, reorg, kept)) =>
      if reorg == OnChain(c, endBlock) || kept != Rest(p) then None
      else if !reorg then Some(Done)
      else if p.end < |c.blocks| then Some(Notify(BlockAt(c, p.end)))
      else None
    case (Compare(_), Sent(Error(_), _)) => Some(Done)
    case (Notify(endBlock), Sent(ReorgDetected(a), _)) => if a + 1 == Rest(p) then Some(PassFrom(p, Rest(p), endBlock)) else None
    case _ => None
  }

  function Follow(p: Plan, phase: Phase, h: seq<Event>): Option<Phase>
    requires p.size >= 1
  {
    if h == [] then Some(phase)
    else
      match Follow(p, phase, h[..|h| - 1])
      case None => None
      case Some(next) => Allowed(p, next, h[|h| - 1])
  }

  lemma FollowNoted(p: Plan, phase: Phase, w: World, e: Event)
    requires p.size >= 1 && Follow(p, phase, w.history).Some?
    ensures Follow(p, phase, Noted(w, e).history) == Allowed(p, Follow(p, phase, w.history).value, e)
  {
    assert (w.history + [e])[..|w.history|] == w.history;
  }

  /** The ranges of a tiling, from a phase in which each is allowed. */
  lemma {:induction false} FinalsFollow(p: Plan, phase: Phase, w: World, cursor: nat)
    requires p.size >= 1 && Follow(p, phase, w.history) == Some(FinalsFrom(p, cursor))
    ensures var (open, w') := SendAll(w, Tiling(cursor, FinalEnd(p), p.size));
            && Follow(p, phase, w'.history).Some?
            && (open ==> Follow(p, phase, w'.history) == Some(if Rest(p) <= p.end then ReadEnd else Done))
    decreases FinalEnd(p) + 1 - cursor
  {
    hide Follow;
    if cursor <= FinalEnd(p) {
      var r := Range(cursor, BatchEnd(cursor, FinalEnd(p), p.size));
      assert Tiling(cursor, FinalEnd(p), p.size)[1..] == Tiling(r.hi + 1, FinalEnd(p), p.size);
      hide Tiling;
      if Now(w).receiverUp {
        FollowNoted(p, phase, Later(w), Sent(Data(r), Now(w).chain));
        FinalsFollow(p, phase, Noted(Later(w), Sent(Data(r), Now(w).chain)), r.hi + 1);
      }
    }
  }

  lemma {:induction false} PassFollows(p: Plan, phase: Phase, w: World, cursor: nat, endBlock: Block)
    requires p.size >= 1 && Follow(p, phase, w.history) == Some(PassFrom(p, cursor, endBlock))
    ensures var (open, w') := SendAll(w, Tiling(cursor, p.end, p.size));
            && Follow(p, phase, w'.history).Some?
            && (open ==> Follow(p, phase, w'.history) == Some(Compare(endBlock)))
    decreases p.end + 1 - cursor
  {
    hide Follow;
    if cursor <= p.end {
      var r := Range(cursor, BatchEnd(cursor, p.end, p.size));
      assert Tiling(cursor, p.end, p.size)[1..] == Tiling(r.hi + 1, p.end, p.size);
      hide Tiling;
      if Now(w).receiverUp {
        FollowNoted(p, phase, Later(w), Sent(Data(r), Now(w).chain));
        PassFollows(p, phase, Noted(Later(w), Sent(Data(r), Now(w).chain)), r.hi + 1, endBlock);
      }
    }
  }

  /** A run that goes through has come to its end, or was to report that the end block cannot be read. */
  ghost predicate Follows(p: Plan, phase: Phase, ended: Ended)
    requires p.size >= 1
  {
    var last := Follow(p, phase, ended.w.history);
    last.Some? && (ended.open ==> last.value.Done? || last.value.Compare?)
  }

  lemma CompareFollows(p: Plan, phase: Phase, w: World, endBlock: Block)
    requires p.size >= 1 && Follow(p, phase, w.history) == Some(Compare(endBlock)) && endBlock.number == p.end
    ensures var v := CompareEnd(endBlock, Rest(p), w);
            && (v.Stable? ==> Follows(p, phase, Ended(true, v.w)))
            && (v.Reorged? ==> v.endBlock.number == p.end && Follow(p, phase, v.w.history) == Some(Notify(v.endBlock)))
  {
    hide Follow;
    var c := Now(w).chain;
    var v := CompareEnd(endBlock, Rest(p), w);
    if !Now(w).rpcUp || p.end >= |c.blocks| {
      var w1 := Later(w);
      if Now(w1).receiverUp {
        FollowNoted(p, phase, Later(w1), Sent(Error(if Now(w).rpcUp then BlockNotFound else RpcError), Now(w1).chain));
      }
    } else {
      FollowNoted(p, phase, Later(w), Compared(c, v.Reorged?, Rest(p)));
    }
  }

  lemma OnePassFollows(p: Plan, phase: Phase, w: World, endBlock: Block)
    requires p.size >= 1 && Follow(p, phase, w.history) == Some(PassFrom(p, Rest(p), endBlock)) && endBlock.number == p.end
    ensures var step := OnePass(Rest(p), p.end, p.size, Rest(p) - 1, endBlock, w);
            && (step.Finished? ==> Follows(p, phase, step.ended))
            && (step.Again? ==>
                  step.endBlock.number == p.end && Follow(p, phase, step.w.history) == Some(PassFrom(p, Rest(p), step.endBlock)))
  {
    hide Follow, SendAll, Tiling, CompareEnd;
    PassFollows(p, phase, w, Rest(p), endBlock);
    var (open, w1) := SendAll(w, Tiling(Rest(p), p.end, p.size));
    if open {
      CompareFollows(p, phase, w1, endBlock);
      var v := CompareEnd(endBlock, Rest(p), w1);
      if v.Reorged? && Now(v.w).receiverUp {
        FollowNoted(p, phase, Later(v.w), Sent(ReorgDetected(Rest(p) - 1), Now(v.w).chain));
      }
    }
  }

  lemma {:induction false} PassesFollow(p: Plan, phase: Phase, w: World, endBlock: Block)
    requires p.size >= 1 && Follow(p, phase, w.history) == Some(PassFrom(p, Rest(p), endBlock)) && endBlock.number == p.end
    ensures Follows(p, phase, Passes(Rest(p), p.end, p.size, Rest(p) - 1, endBlock, w))
    decreases |w.future|
  {
    OnePassFollows(p, phase, w, endBlock);
    OnePassConsumes(p, w, endBlock);
    hide Follow, Follows, OnePass;
    var step := OnePass(Rest(p), p.end, p.size, Rest(p) - 1, endBlock, w);
    if step.Again? {
      PassesFollow(p, phase, step.w, step.endBlock);
    }
  }

  lemma OnePassConsumes(p: Plan, w: World, endBlock: Block)
    requires p.size >= 1
    ensures var step := OnePass(Rest(p), p.end, p.size, Rest(p) - 1, endBlock, w);
            step.Again? ==> |step.w.future| < |w.future|
  {
    SendAllConsumes(w, Tiling(Rest(p), p.end, p.size));
    hide SendAll, Tiling;
  }

  lemma RestFollows(p: Plan, phase: Phase, w: World)
    requires p.size >= 1 && Rest(p) <= p.end && Follow(p, phase, w.history) == Some(ReadEnd)
    ensures Follows(p, phase, StreamRest(Rest(p), p.end, p.size, p.finalized, w))
  {
    hide Follow, Passes;
    AncestorIsBelowRest(p.start, p.end, p.finalized);
    var (endBlock, w1) := Fetch(w, p.end);
    if endBlock.Ok? {
      FollowNoted(p, phase, Later(w), Anchored(Now(w).chain, 0));
      PassesFollow(p, phase, w1, endBlock.value);
    } else if Now(w1).receiverUp {
      FollowNoted(p, phase, Later(w1), Sent(Error(endBlock.error), Now(w1).chain));
    }
  }

  /** Every historical run, for any interval and however it ends, does the following and stops
      somewhere on the way: it reads the finalized height, streams the finalized part in order, and
      reads the end block; then it streams the rest in order and reads the end block again; if it is
      not the one it knows, it notifies the block right before the rest and starts over with the rest. */
  lemma EveryRunFollows(start: nat, end: nat, size: nat, future: seq<Moment>)
    requires size >= 1
    ensures var w := World(future, []);
            var told := Now(w).rpcUp && Now(w).chain.finalized.Some?;
            var p := Plan(start, end, size, if told then Now(w).chain.finalized.value else 0);
            Follows(p, if told then Begin else FinalsFrom(p, start), StreamHistorical(start, end, size, w))
  {
    hide Follow, SendAll, Tiling, StreamRest;
    var w := World(future, []);
    var f := ReadFinalized(w);
    var p := Plan(start, end, size, f.height);
    var phase := if KnowsFinalized(Now(w)) then Begin else FinalsFrom(p, start);
    FollowNothing(p, phase);
    if KnowsFinalized(Now(w)) {
      FollowNoted(p, phase, Later(w), Anchored(Now(w).chain, f.height + 1));
    }
    FinalsFollow(p, phase, f.w, start);
    var (open, w1) := SendAll(f.w, Tiling(start, FinalEnd(p), size));
    if open && Rest(p) <= end {
      RestFollows(p, phase, w1);
    }
  }

  lemma FollowNothing(p: Plan, phase: Phase)
    requires p.size >= 1
    ensures Follow(p, phase, []) == Some(phase)
  {
  }
}
