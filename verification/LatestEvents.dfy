/** Collecting the newest `count` logs while a rewind streams ranges. */
module LatestEvents {
  import opened Wrappers
  import opened U64
  import opened Chains
  import opened RangeIterator
  import opened Outside
  import opened Replay

  // -------------------------------------------------------------------------
  // The bounded buffer
  // -------------------------------------------------------------------------

  function Take<T>(s: seq<T>, n: nat): seq<T> {
    if |s| <= n then s else s[..n]
  }

  /** The buffer (newest first) after a batch of logs (oldest first). */
  function Collected<T>(collected: seq<T>, logs: seq<T>, count: nat, prepend: bool): seq<T> {
    if prepend then Take(Reversed(logs) + collected, count)
    else if |collected| >= count then collected
    else Take(collected + Reversed(logs), count)
  }

  datatype Batch<T> = Batch(logs: seq<T>, prepend: bool)

  function CollectedAll<T>(collected: seq<T>, batches: seq<Batch<T>>, count: nat): seq<T>
    decreases |batches|
  {
    if batches == [] then collected
    else CollectedAll(Collected(collected, batches[0].logs, count, batches[0].prepend), batches[1..], count)
  }

  /** The same batches without a bound. */
  function Unbounded<T>(collected: seq<T>, batches: seq<Batch<T>>): seq<T>
    decreases |batches|
  {
    if batches == [] then collected
    else
      var r := Reversed(batches[0].logs);
      Unbounded(if batches[0].prepend then r + collected else collected + r, batches[1..])
  }

  lemma TakeTwice<T>(s: seq<T>, t: seq<T>, n: nat)
    ensures Take(t + Take(s, n), n) == Take(t + s, n)
    ensures Take(Take(s, n) + t, n) == Take(s + t, n)
  {
  }

  /** Truncating after every batch loses nothing: it is the same as truncating once at the
      end. */
  lemma {:induction false} CollectedRefinesUnbounded<T>(collected: seq<T>, batches: seq<Batch<T>>, count: nat)
    ensures CollectedAll(Take(collected, count), batches, count) == Take(Unbounded(collected, batches), count)
    decreases |batches|
  {
    if batches != [] {
      var b := batches[0];
      var r := Reversed(b.logs);
      var next := if b.prepend then r + collected else collected + r;
      TakeTwice(collected, r, count);
      assert Collected(Take(collected, count), b.logs, count, b.prepend) == Take(next, count);
      CollectedRefinesUnbounded(next, batches[1..], count);
    }
  }

  // -------------------------------------------------------------------------
  // Logs of blocks
  // -------------------------------------------------------------------------

  datatype Log = Log(block: nat, data: int)

  function Tagged(n: nat, logs: seq<int>): seq<Log> {
    seq(|logs|, i requires 0 <= i < |logs| => Log(n, logs[i]))
  }

  /** The matching logs of some blocks, oldest first. */
  function LogsOf(blocks: seq<Block>): seq<Log> {
    if blocks == [] then []
    else
      var newest := blocks[|blocks| - 1];
      LogsOf(blocks[..|blocks| - 1]) + Tagged(newest.number, newest.hash[newest.number].logs)
  }

  /** The matching logs of blocks `lo, lo+1, ..., n-1` of a snapshot. */
  function LogsIn(c: Chain, lo: nat, n: nat): seq<Log>
    requires n <= |c.blocks|
  {
    LogsOf(Blocks(c, lo, n))
  }

  /** The logs a listener fetches for a range. */
  function FetchLogs(c: Chain, r: Range): seq<Log> {
    LogsOf(Read(c, r))
  }

  /** Drops the newest logs above the ancestor. */
  function DiscardOrphaned(collected: seq<Log>, ancestor: nat): seq<Log> {
    if collected != [] && collected[0].block > ancestor then DiscardOrphaned(collected[1..], ancestor)
    else collected
  }

  lemma {:induction false} LogsConcat(x: seq<Block>, y: seq<Block>)
    ensures LogsOf(x + y) == LogsOf(x) + LogsOf(y)
  {
    hide Tagged;
    if y == [] {
      assert x + y == x;
    } else {
      assert (x + y)[..|x + y| - 1] == x + y[..|y| - 1];
      LogsConcat(x, y[..|y| - 1]);
    }
  }

  lemma LogsInConcat(c: Chain, lo: nat, mid: nat, n: nat)
    requires lo <= mid <= n <= |c.blocks|
    ensures LogsIn(c, lo, n) == LogsIn(c, lo, mid) + LogsIn(c, mid, n)
  {
    BlocksConcat(c, lo, mid, n);
    LogsConcat(Blocks(c, lo, mid), Blocks(c, mid, n));
  }

  lemma {:induction false} LogsBounds(held: seq<Block>, lo: nat, n: nat)
    requires Inside(held, lo, n)
    ensures forall i | 0 <= i < |LogsOf(held)| :: lo <= LogsOf(held)[i].block < n
  {
    if held != [] {
      LogsBounds(held[..|held| - 1], lo, n);
    }
  }

  lemma LogsInBounds(c: Chain, lo: nat, n: nat)
    requires n <= |c.blocks|
    ensures forall i | 0 <= i < |LogsIn(c, lo, n)| :: lo <= LogsIn(c, lo, n)[i].block < n
  {
    if lo <= n {
      BlocksIndex(c, lo, n);
      LogsBounds(Blocks(c, lo, n), lo, n);
    }
  }

  lemma {:induction false} ReversedConcat<T>(s: seq<T>, t: seq<T>)
    ensures Reversed(s + t) == Reversed(t) + Reversed(s)
  {
    if s == [] {
      assert s + t == t;
    } else {
      ReversedConcat(s[1..], t);
      assert (s + t)[1..] == s[1..] + t;
    }
  }

  lemma {:induction false} ReversedIndex<T>(s: seq<T>)
    ensures forall i | 0 <= i < |s| :: Reversed(s)[i] == s[|s| - 1 - i]
  {
    if s != [] {
      ReversedIndex(s[1..]);
    }
  }

  lemma {:induction false} DiscardSplit(newer: seq<Log>, older: seq<Log>, ancestor: nat)
    requires forall i | 0 <= i < |newer| :: newer[i].block > ancestor
    requires forall i | 0 <= i < |older| :: older[i].block <= ancestor
    ensures DiscardOrphaned(newer + older, ancestor) == older
  {
    if newer == [] {
      assert newer + older == older;
    } else {
      assert (newer + older)[0] == newer[0];
      assert (newer + older)[1..] == newer[1..] + older;
      DiscardSplit(newer[1..], older, ancestor);
    }
  }

  lemma {:induction false} KeptSplit(held: seq<Block>, n: nat) returns (dropped: seq<Block>)
    requires Increasing(held)
    ensures held == Kept(held, n) + dropped
    ensures forall i | 0 <= i < |dropped| :: n <= dropped[i].number
    ensures forall i | 0 <= i < |Kept(held, n)| :: Kept(held, n)[i].number < n
  {
    if held == [] || held[|held| - 1].number < n {
      dropped := [];
    } else {
      dropped := KeptSplit(held[..|held| - 1], n);
      dropped := dropped + [held[|held| - 1]];
    }
  }

  lemma {:induction false} LogsAtLeast(held: seq<Block>, n: nat)
    requires forall i | 0 <= i < |held| :: n <= held[i].number
    ensures forall i | 0 <= i < |LogsOf(held)| :: n <= LogsOf(held)[i].block
  {
    if held != [] {
      LogsAtLeast(held[..|held| - 1], n);
    }
  }

  lemma {:induction false} LogsBelow(held: seq<Block>, n: nat)
    requires forall i | 0 <= i < |held| :: held[i].number < n
    ensures forall i | 0 <= i < |LogsOf(held)| :: LogsOf(held)[i].block < n
  {
    if held != [] {
      LogsBelow(held[..|held| - 1], n);
    }
  }

  /** Discarding keeps exactly the logs of the blocks up to the ancestor. */
  lemma DiscardKeeps(held: seq<Block>, ancestor: nat)
    requires Increasing(held)
    ensures DiscardOrphaned(Reversed(LogsOf(held)), ancestor) == Reversed(LogsOf(Kept(held, ancestor + 1)))
  {
    var kept := Kept(held, ancestor + 1);
    var dropped := KeptSplit(held, ancestor + 1);
    hide Kept, LogsOf;
    LogsConcat(kept, dropped);
    var older, newer := LogsOf(kept), LogsOf(dropped);
    ReversedConcat(older, newer);
    LogsBelow(kept, ancestor + 1);
    LogsAtLeast(dropped, ancestor + 1);
    ReversedIndex(older);
    ReversedIndex(newer);
    hide Reversed;
    DiscardSplit(Reversed(newer), Reversed(older), ancestor);
  }

  // -------------------------------------------------------------------------
  // The collection loop
  // -------------------------------------------------------------------------

  /** `done` is set when the buffer is full and the loop has ended. */
  datatype Collector = Collector(collected: seq<Log>, reorgAncestor: Option<nat>, done: bool)

  const EMPTY: Collector := Collector([], None, false)

  function OnLogs(s: Collector, logs: seq<Log>, count: nat): Collector {
    if logs == [] then s
    else
      var over := s.reorgAncestor.Some? && logs[|logs| - 1].block <= s.reorgAncestor.value;
      var ancestor := if over then None else s.reorgAncestor;
      var collected := Collected(s.collected, logs, count, ancestor.Some?);
      Collector(collected, ancestor, |collected| >= count)
  }

  function OnEvent(s: Collector, e: Event, count: nat): Collector {
    if s.done || !e.Sent? then s
    else
      match e.message
      case Data(r) => OnLogs(s, FetchLogs(e.chain, r), count)
      case ReorgDetected(a) => s.(collected := DiscardOrphaned(s.collected, a), reorgAncestor := Some(a))
      case _ => s
  }

  function Collect(s: Collector, h: seq<Event>, count: nat): Collector {
    if h == [] then s else OnEvent(Collect(s, h[..|h| - 1], count), h[|h| - 1], count)
  }

  /** What a listener gets. */
  datatype Output = Forwarded(message: Message) | Logs(logs: seq<Log>) | NoPastLogsFound

  function Outcome(s: Collector): Output {
    if s.collected == [] then NoPastLogsFound else Logs(Reversed(s.collected))
  }

  predicate IsForwarded(e: Event) {
    e.Sent? && (e.message.SwitchingToLive? || e.message.Error?)
  }

  /** All that a listener who stays gets for a history: what is forwarded, and then the outcome. */
  function Outputs(h: seq<Event>, count: nat): seq<Output> {
    Passed(EMPTY, h, count) + [Outcome(Collect(EMPTY, h, count))]
  }

  /** What is forwarded while the loop runs: everything that is neither a range nor a reorg. */
  function Passed(s: Collector, h: seq<Event>, count: nat): seq<Output> {
    if h == [] then []
    else
      var h', e := h[..|h| - 1], h[|h| - 1];
      Passed(s, h', count) + (if !Collect(s, h', count).done && IsForwarded(e) then [Forwarded(e.message)] else [])
  }

  /** The listener's channel: it takes so many more messages before the listener is gone. */
  class Listener {
    var taken: seq<Output>
    var patience: nat

    constructor (patience: nat)
      ensures taken == [] && this.patience == patience
    {
      this.taken := [];
      this.patience := patience;
    }

    method TryStream(message: Output) returns (open: bool)
      modifies this
      ensures open == (old(patience) > 0)
      ensures taken == old(taken) + (if open then [message] else [])
      ensures patience == if open then old(patience) - 1 else 0
    {
      open := patience > 0;
      if open {
        taken := taken + [message];
        patience := patience - 1;
      }
    }
  }

  class LatestEventsCollector {
    var collected: seq<Log>
    var reorgAncestor: Option<nat>
    const count: nat

    function Value(done: bool): Collector
      reads this
    {
      Collector(collected, reorgAncestor, done)
    }

    constructor (count: nat)
      ensures Value(false) == EMPTY && this.count == count
    {
      this.collected := [];
      this.reorgAncestor := None;
      this.count := count;
    }

    method CollectLogs(logs: seq<Log>, prepend: bool) returns (done: bool)
      modifies this`collected
      ensures collected == Collected(old(collected), logs, count, prepend)
      ensures done == (|collected| >= count)
    {
      if prepend {
        var newLogs := Take(Reversed(logs), count);
        var keep := SaturatingSub(count, |newLogs|);
        collected := Take(collected, keep);
        collected := newLogs + collected;
      } else {
        var take := SaturatingSub(count, |collected|);
        if take == 0 {
          return true;
        }
        collected := collected + Take(Reversed(logs), take);
      }
      done := |collected| >= count;
    }

    method DiscardLogsFromOrphanedBlocks(ancestor: nat)
      modifies this`collected
      ensures collected == DiscardOrphaned(old(collected), ancestor)
    {
      while collected != [] && collected[0].block > ancestor
        invariant DiscardOrphaned(collected, ancestor) == DiscardOrphaned(old(collected), ancestor)
        decreases |collected|
      {
        collected := collected[1..];
      }
    }

    /** The logs of one range: the first branch of the loop body. */
    method TakeIn(logs: seq<Log>) returns (done: bool)
      modifies this`collected, this`reorgAncestor
      ensures Value(done) == OnLogs(old(Value(false)), logs, count)
    {
      done := false;
      if logs != [] {
        if reorgAncestor.Some? && logs[|logs| - 1].block <= reorgAncestor.value {
          reorgAncestor := None;
        }
        done := CollectLogs(logs, reorgAncestor.Some?);
      }
    }

    /** Consumes a stream of ranges and notifications and delivers what is left in the buffer;
        `events` is what reaches the receiver. The listener takes what is forwarded and then the
        outcome, up to the message at which it is gone; unless something was to be forwarded to a
        listener that was gone already, everything has been consumed. */
    method Run(events: seq<Event>, listener: Listener) returns (done: bool)
      modifies this, listener
      ensures var s := old(Value(false));
              listener.taken == old(listener.taken)
                                + Take(Passed(s, events, count) + [Outcome(Collect(s, events, count))], old(listener.patience))
      ensures old(listener.patience) >= |Passed(old(Value(false)), events, count)| ==>
                Value(done) == Collect(old(Value(false)), events, count)
    {
      hide Reversed, FetchLogs, Take, OnLogs, DiscardOrphaned, Collect, Passed;
      ghost var s0, taken0, patience0 := Value(false), listener.taken, listener.patience;
      NothingYet(s0, events, count);
      done := false;
      var i := 0;
      while i < |events| && !done
        invariant i <= |events|
        invariant Value(done) == Collect(s0, events[..i], count)
        invariant listener.taken == taken0 + Passed(s0, events[..i], count)
        invariant listener.patience == patience0 - |Passed(s0, events[..i], count)|
      {
        var e := events[i];
        OneMore(s0, events, i, count);
        if e.Sent? {
          match e.message {
            case Data(r) =>
              var logs := FetchLogs(e.chain, r);
              done := TakeIn(logs);
            case ReorgDetected(a) =>
              reorgAncestor := Some(a);
              DiscardLogsFromOrphanedBlocks(a);
            case _ =>
              var open := listener.TryStream(Forwarded(e.message));
              if !open {
                LeftEarly(s0, events, i, count);
                return;
              }
          }
        }
        i := i + 1;
      }
      DoneStays(s0, events, i, count);
      TakeAll(Passed(s0, events, count), Outcome(Collect(s0, events, count)), patience0);
      var _ := listener.TryStream(if collected == [] then NoPastLogsFound else Logs(Reversed(collected)));
    }
  }

  lemma NothingYet(s: Collector, h: seq<Event>, count: nat)
    ensures Collect(s, h[..0], count) == s && Passed(s, h[..0], count) == []
  {
  }

  lemma OneMore(s: Collector, h: seq<Event>, i: nat, count: nat)
    requires i < |h|
    ensures Collect(s, h[..i + 1], count) == OnEvent(Collect(s, h[..i], count), h[i], count)
    ensures Passed(s, h[..i + 1], count)
         == Passed(s, h[..i], count) + (if !Collect(s, h[..i], count).done && IsForwarded(h[i]) then [Forwarded(h[i].message)] else [])
  {
    assert h[..i + 1][..i] == h[..i];
  }

  /** A listener that has taken everything so far is gone when something is to be forwarded. */
  lemma LeftEarly(s: Collector, h: seq<Event>, i: nat, count: nat)
    requires i < |h| && !Collect(s, h[..i], count).done && IsForwarded(h[i])
    ensures var all := Passed(s, h, count);
            var n := |Passed(s, h[..i], count)|;
            n < |all| && Take(all + [Outcome(Collect(s, h, count))], n) == Passed(s, h[..i], count)
  {
    hide Passed, Collect, Take, Outcome;
    OneMore(s, h, i, count);
    PassedPrefix(s, h, i + 1, count);
    TakePrefix(Passed(s, h[..i], count), Forwarded(h[i].message), Passed(s, h, count), Outcome(Collect(s, h, count)));
  }

  lemma TakePrefix(taken: seq<Output>, next: Output, all: seq<Output>, outcome: Output)
    requires taken + [next] <= all
    ensures Take(all + [outcome], |taken|) == taken
  {
    assert all[..|taken|] == taken;
  }

  lemma TakeAll(all: seq<Output>, outcome: Output, n: nat)
    requires n >= |all|
    ensures Take(all + [outcome], n) == all + (if n > |all| then [outcome] else [])
  {
  }

  lemma {:induction false} PassedPrefix(s: Collector, h: seq<Event>, i: nat, count: nat)
    requires i <= |h|
    ensures Passed(s, h[..i], count) <= Passed(s, h, count)
    decreases |h|
  {
    hide Collect;
    if i == |h| {
      assert h[..i] == h;
    } else {
      var h' := h[..|h| - 1];
      assert h'[..i] == h[..i];
      PassedPrefix(s, h', i, count);
    }
  }

  lemma {:induction false} DoneStays(s: Collector, h: seq<Event>, i: nat, count: nat)
    requires i <= |h| && (i == |h| || Collect(s, h[..i], count).done)
    ensures Collect(s, h, count) == Collect(s, h[..i], count)
    ensures Passed(s, h, count) == Passed(s, h[..i], count)
    decreases |h|
  {
    if i == |h| {
      assert h[..i] == h;
    } else {
      var h' := h[..|h| - 1];
      assert h'[..i] == h[..i];
      DoneStays(s, h', i, count);
    }
  }

  // -------------------------------------------------------------------------
  // The scanned region
  // -------------------------------------------------------------------------

  /** The consumer's view next to the order in which it came about. The covered heights of the
      view are the region scanned so far.
      rescanning  the last move was a reorg or a rescan
      orderly     as long as the environment was faithful, ranges extended the region downwards,
                  or upwards while rescanning, and every look of the scanner covered all of it */
  datatype Scan = Scan(m: Monitor, rescanning: bool, orderly: bool)

  /** Nothing is scanned yet of what lies up to `tip` on `c`. */
  function Unscanned(tip: nat, c: Chain): Scan {
    Scan(Fresh(tip + 1, c), false, true)
  }

  predicate InOrder(g: Scan, e: Event) {
    var v := g.m.view;
    match e
    case Sent(message, c) =>
      (match message
       case Data(r) => r.lo <= r.hi && (r.hi + 1 == v.low || (g.rescanning && r.lo == v.mark))
       case ReorgDetected(a) => a < v.mark && a < |g.m.base.blocks| && Accords(v.sources, g.m.base, a + 1)
       case _ => true)
    case Anchored(_, _) => true
    case Checked(c, _, reorg) => !reorg ==> Accords(v.sources, c, v.mark)
    case Compared(c, reorg, _) => !reorg ==> Accords(v.sources, c, v.mark)
  }

  function Rescanning(g: Scan, e: Event): bool {
    if !e.Sent? then g.rescanning
    else
      match e.message
      case Data(r) => r.hi + 1 != g.m.view.low && g.rescanning
      case ReorgDetected(_) => true
      case _ => g.rescanning
  }

  function ScanEvent(g: Scan, e: Event): Scan {
    var m := Observe(g.m, e);
    Scan(m, Rescanning(g, e), g.orderly && (m.faithful ==> InOrder(g, e)))
  }

  function Scanned(g: Scan, h: seq<Event>): Scan {
    if h == [] then g else ScanEvent(Scanned(g, h[..|h| - 1]), h[|h| - 1])
  }

  /** As long as everything kept to its rules, the consumer of the region is truthful. */
  ghost predicate TrueScan(g: Scan) {
    g.orderly ==>
      && g.m.sound
      && (g.m.faithful ==> Truthful(g.m.view) && (Settled(g.m) ==> Canonical(g.m.view, g.m.base)))
  }

  lemma DataKeepsTrue(g: Scan, r: Range, c: Chain)
    requires TrueScan(g)
    ensures TrueScan(ScanEvent(g, Sent(Data(r), c)))
  {
    hide Truthful, Canonical, Read, AgreeBelow, Accords;
    var e := Sent(Data(r), c);
    if g.orderly && Observe(g.m, e).faithful && InOrder(g, e) {
      DataKeepsCanonical(g.m, r, c);
    }
  }

  /** A range that continues the view keeps the consumer truthful, and settles it only if it is
      final. */
  lemma DataKeepsCanonical(m: Monitor, r: Range, c: Chain)
    requires m.sound && Truthful(m.view) && (Settled(m) ==> Canonical(m.view, m.base))
    requires Continues(m.view, r) && Observe(m, Sent(Data(r), c)).faithful
    ensures var m' := Observe(m, Sent(Data(r), c));
            m'.sound && Truthful(m'.view) && (Settled(m') ==> Canonical(m'.view, m'.base))
  {
    hide Truthful, Canonical, Read, AgreeBelow, Received, Continues;
    ReceivedTruthful(m.view, r, c);
    NotTrusted(m.view, r, c, m.base);
    if r.hi < m.final && Settled(m) {
      FinalTruthful(m.view, r, c, m.base);
    }
  }

  lemma NotTrusted(v: Consumer, r: Range, c: Chain, base: Chain)
    requires Truthful(v)
    ensures var v' := Received(v, r, c); v'.sources != [Source(base, v'.low, v'.mark)]
  {
  }

  lemma EventKeepsTrue(g: Scan, e: Event)
    requires TrueScan(g)
    ensures TrueScan(ScanEvent(g, e))
  {
    match e {
      case Sent(message, c) =>
        match message {
          case Data(r) => DataKeepsTrue(g, r, c);
          case ReorgDetected(a) =>
            hide Truthful, Canonical, Accords;
            if g.orderly && g.m.faithful && InOrder(g, e) {
              RollbackTruthful(g.m.view, a, g.m.base);
            }
          case SwitchingToLive => hide Truthful, Canonical;
          case Error(_) => hide Truthful, Canonical;
        }
      case Anchored(c, _) => LookKeepsTrue(g, e, c);
      case Checked(c, _, _) => LookKeepsTrue(g, e, c);
      case Compared(c, _, _) => LookKeepsTrue(g, e, c);
    }
  }

  lemma LookKeepsTrue(g: Scan, e: Event, c: Chain)
    requires TrueScan(g) && !e.Sent? && e.chain == c
    ensures TrueScan(ScanEvent(g, e))
  {
    hide Truthful, Canonical, Accords, FinalityKept, Reaches;
    if g.orderly && g.m.faithful && Accords(g.m.view.sources, c, g.m.view.mark) {
      TrustedTruthful(g.m.view, c);
    }
  }

  /** The buffer after a batch: the newest `count` of the logs `all`, or all of them. */
  ghost predicate Holds(s: Collector, all: seq<Log>, count: nat) {
    && s.collected == Take(Reversed(all), count)
    && (s.done ==> |s.collected| == count)
    && (!s.done ==> s.collected == Reversed(all) && (s.collected == [] || |s.collected| < count))
  }

  /** The buffer holds the newest `count` logs of what the consumer holds; while the loop goes
      on nothing has been cut off, and a recovery is recognised as such. */
  ghost predicate Tracks(s: Collector, g: Scan, count: nat) {
    var v := g.m.view;
    g.orderly && g.m.faithful ==>
      && v.low <= v.mark && Inside(v.held, v.low, v.mark)
      && Holds(s, LogsOf(v.held), count)
      && (!s.done ==>
            && (g.rescanning ==> s.reorgAncestor.Some? && s.reorgAncestor.value < v.mark)
            && (s.reorgAncestor.Some? ==> v.low <= s.reorgAncestor.value + 1))
  }

  lemma NewestLogBlock(held: seq<Block>, lo: nat, n: nat)
    requires Inside(held, lo, n) && LogsOf(held) != []
    ensures var logs := LogsOf(held); lo <= logs[|logs| - 1].block < n
  {
    LogsBounds(held, lo, n);
  }

  lemma OlderLogs(s: Collector, logs: seq<Log>, held: seq<Log>, count: nat)
    requires !s.done && Holds(s, held, count)
    requires s.reorgAncestor.Some? && logs != [] ==> logs[|logs| - 1].block <= s.reorgAncestor.value
    ensures var s' := OnLogs(s, logs, count);
            Holds(s', logs + held, count) && (s'.reorgAncestor.Some? ==> s'.reorgAncestor == s.reorgAncestor)
  {
    ReversedConcat(logs, held);
    hide Reversed;
    if logs == [] {
      assert logs + held == held;
    }
  }

  lemma NewerLogs(s: Collector, logs: seq<Log>, held: seq<Log>, count: nat)
    requires !s.done && Holds(s, held, count)
    requires s.reorgAncestor.Some? && (logs != [] ==> logs[|logs| - 1].block > s.reorgAncestor.value)
    ensures var s' := OnLogs(s, logs, count);
            Holds(s', held + logs, count) && s'.reorgAncestor == s.reorgAncestor
  {
    ReversedConcat(held, logs);
    hide Reversed;
    if logs == [] {
      assert held + logs == held;
    }
  }

  lemma AppendTracks(s: Collector, g: Scan, r: Range, c: Chain, count: nat)
    requires Tracks(s, g, count) && !s.done && g.orderly && g.m.faithful
    requires r.lo <= r.hi && r.hi + 1 == g.m.view.low
    ensures Tracks(OnLogs(s, FetchLogs(c, r), count), ScanEvent(g, Sent(Data(r), c)), count)
  {
    hide LogsOf, Reversed, Canonical, Read, OnLogs;
    var v, part := g.m.view, Read(c, r);
    ReadInside(c, r);
    assert Inside(part + v.held, r.lo, v.mark);
    LogsConcat(part, v.held);
    if LogsOf(part) != [] {
      NewestLogBlock(part, r.lo, r.hi + 1);
    }
    OlderLogs(s, LogsOf(part), LogsOf(v.held), count);
    hide Inside;
  }

  lemma PrependTracks(s: Collector, g: Scan, r: Range, c: Chain, count: nat)
    requires Tracks(s, g, count) && !s.done && g.orderly && g.m.faithful && g.rescanning
    requires r.lo <= r.hi && r.lo == g.m.view.mark && r.hi + 1 != g.m.view.low
    ensures Tracks(OnLogs(s, FetchLogs(c, r), count), ScanEvent(g, Sent(Data(r), c)), count)
  {
    hide LogsOf, Reversed, Canonical, Read, OnLogs;
    var v, part := g.m.view, Read(c, r);
    ReadInside(c, r);
    assert Inside(v.held + part, v.low, r.hi + 1);
    LogsConcat(v.held, part);
    if LogsOf(part) != [] {
      NewestLogBlock(part, r.lo, r.hi + 1);
    }
    hide Take;
    NewerLogs(s, LogsOf(part), LogsOf(v.held), count);
    hide Inside;
  }

  lemma DiscardHolds(s: Collector, held: seq<Block>, a: nat, count: nat)
    requires !s.done && Increasing(held) && Holds(s, LogsOf(held), count)
    ensures Holds(s.(collected := DiscardOrphaned(s.collected, a), reorgAncestor := Some(a)), LogsOf(Kept(held, a + 1)), count)
  {
    DiscardKeeps(held, a);
    var kept := Kept(held, a + 1);
    var dropped := KeptSplit(held, a + 1);
    LogsConcat(kept, dropped);
    hide LogsOf, Kept, DiscardOrphaned;
    ReversedConcat(LogsOf(kept), LogsOf(dropped));
    assert |Reversed(LogsOf(kept))| <= |s.collected|;
    hide Reversed;
  }

  lemma DiscardTracks(s: Collector, g: Scan, a: nat, c: Chain, count: nat)
    requires Tracks(s, g, count) && !s.done
    ensures Tracks(OnEvent(s, Sent(ReorgDetected(a), c), count), ScanEvent(g, Sent(ReorgDetected(a), c)), count)
  {
    hide LogsOf, Reversed, Canonical, Accords, Holds, Kept, DiscardOrphaned;
    var v := g.m.view;
    if g.orderly && g.m.faithful && a < v.mark {
      DiscardHolds(s, v.held, a, count);
      KeptInside(v.held, v.low, v.mark, a + 1);
    }
  }

  lemma KeptInside(held: seq<Block>, lo: nat, mark: nat, n: nat)
    requires Inside(held, lo, mark)
    ensures Inside(Kept(held, n), Min(lo, n), Min(mark, n))
  {
    var dropped := KeptSplit(held, n);
    KeptPrefix(held, n);
    hide Kept;
  }

  lemma LookTracks(s: Collector, g: Scan, e: Event, count: nat)
    requires Tracks(s, g, count) && !e.Sent?
    ensures Tracks(s, ScanEvent(g, e), count)
  {
    hide LogsOf, Reversed, Canonical, Accords, FinalityKept, Reaches;
  }

  lemma EventTracks(s: Collector, g: Scan, e: Event, count: nat)
    requires Tracks(s, g, count) && !s.done
    ensures Tracks(OnEvent(s, e, count), ScanEvent(g, e), count)
  {
    if !e.Sent? {
      hide Tracks;
      LookTracks(s, g, e, count);
    } else {
      match e.message {
        case Data(r) =>
          if g.orderly && g.m.faithful && InOrder(g, e) {
            hide Tracks;
            if r.hi + 1 == g.m.view.low {
              AppendTracks(s, g, r, e.chain, count);
            } else {
              PrependTracks(s, g, r, e.chain, count);
            }
          }
        case ReorgDetected(a) =>
          hide Tracks;
          DiscardTracks(s, g, a, e.chain, count);
        case SwitchingToLive => hide LogsOf, Reversed, Canonical;
        case Error(_) => hide LogsOf, Reversed, Canonical;
      }
    }
  }

  /** However reorg rollbacks, ascending rescans and descending rewinds interleave: as long as
      the loop runs, the buffer holds exactly the logs of what a consumer of the region holds,
      newest first; and when it ends early the buffer holds the newest `count` of them. The loop
      has consumed the first `k` events. */
  lemma {:induction false} CollectorTracksRegion(g0: Scan, h: seq<Event>, count: nat) returns (k: nat)
    requires Tracks(EMPTY, g0, count)
    ensures k <= |h| && Collect(EMPTY, h, count) == Collect(EMPTY, h[..k], count)
    ensures Tracks(Collect(EMPTY, h, count), Scanned(g0, h[..k]), count)
    ensures !Collect(EMPTY, h, count).done ==> k == |h|
  {
    hide Tracks, ScanEvent;
    if h == [] {
      k := 0;
    } else {
      var h' := h[..|h| - 1];
      k := CollectorTracksRegion(g0, h', count);
      assert h'[..k] == h[..k];
      var s := Collect(EMPTY, h', count);
      if !s.done {
        assert h'[..k] == h';
        EventTracks(s, Scanned(g0, h'), h[|h| - 1], count);
        k := |h|;
        assert h[..k] == h;
      }
    }
  }

  lemma {:induction false} ScannedIsTrue(g: Scan, h: seq<Event>)
    requires TrueScan(g)
    ensures TrueScan(Scanned(g, h))
  {
    hide TrueScan, ScanEvent;
    if h != [] {
      ScannedIsTrue(g, h[..|h| - 1]);
      EventKeepsTrue(Scanned(g, h[..|h| - 1]), h[|h| - 1]);
    }
  }

  /** What is delivered of such a buffer: the newest `count` of some logs, oldest first. */
  lemma DeliversNewest(s: Collector, logs: seq<Log>, count: nat)
    requires s.collected == Take(Reversed(logs), count)
    ensures var n := Min(count, |logs|);
            Outcome(s) == if n == 0 then NoPastLogsFound else Logs(logs[|logs| - n..])
  {
    hide Reversed, Take;
    var n := Min(count, |logs|);
    var older, newer := logs[..|logs| - n], logs[|logs| - n..];
    assert logs == older + newer;
    TakeNewest(older, newer, count);
    ReversedTwice(newer);
    ReversedLength(newer);
  }

  lemma ReversedLength<T>(s: seq<T>)
    ensures Reversed(s) == [] <==> s == []
  {
  }

  lemma TakeNewest(older: seq<Log>, newer: seq<Log>, count: nat)
    requires |newer| == Min(count, |older + newer|)
    ensures Take(Reversed(older + newer), count) == Reversed(newer)
  {
    ReversedConcat(older, newer);
    hide Reversed;
    if |older + newer| <= count {
      assert older == [];
      assert Reversed(newer) + Reversed(older) == Reversed(newer);
    } else {
      assert (Reversed(newer) + Reversed(older))[..count] == Reversed(newer);
    }
  }

  lemma {:induction false} ReversedTwice<T>(s: seq<T>)
    ensures Reversed(Reversed(s)) == s
  {
    if s != [] {
      ReversedTwice(s[1..]);
      ReversedConcat(Reversed(s[1..]), [s[0]]);
      assert Reversed([s[0]]) == [s[0]] by {
        assert [s[0]][1..] == [];
      }
    }
  }
}
