/** The receiver's side: a consumer that takes in streamed ranges and drops blocks on reorg
    notifications, and a monitor that judges a history of the scanner. */
module Replay {
  import opened Wrappers
  import opened U64
  import opened Chains
  import opened RangeIterator
  import opened Outside

  /** Blocks `lo, lo+1, ..., n-1` of a snapshot. */
  function Blocks(c: Chain, lo: nat, n: nat): seq<Block>
    requires n <= |c.blocks|
  {
    if n <= lo then [] else Blocks(c, lo, n - 1) + [BlockAt(c, n - 1)]
  }

  /** The blocks a consumer reads for a range: those of the range that the chain has. */
  function Read(c: Chain, r: Range): seq<Block> {
    Blocks(c, r.lo, Min(r.hi + 1, |c.blocks|))
  }

  /** The part of `held` below height `n`. Told that everything above `a` is void, a consumer
      keeps the part below `a + 1`. */
  function Kept(held: seq<Block>, n: nat): seq<Block> {
    if held == [] || held[|held| - 1].number < n then held
    else Kept(held[..|held| - 1], n)
  }

  // -------------------------------------------------------------------------
  // The consumer
  // -------------------------------------------------------------------------

  /** The blocks `from, ..., upTo-1` were read from `chain`. */
  datatype Source = Source(chain: Chain, from: nat, upTo: nat)

  /** held      the blocks the consumer holds
      low, mark the stream has covered the heights `low, ..., mark-1`; nothing if they are equal
      intact    every range continued the covered heights at one of their ends
      sources   where the held blocks were read from */
  datatype Consumer = Consumer(held: seq<Block>, low: nat, mark: nat, intact: bool, sources: seq<Source>)

  /** A range continues the covered heights, without gap or overlap, at either end. */
  predicate Continues(v: Consumer, r: Range) {
    r.lo <= r.hi && (v.low == v.mark || r.lo == v.mark || r.hi + 1 == v.low)
  }

  /** Takes in a range that is read from snapshot `c`. */
  function Received(v: Consumer, r: Range, c: Chain): Consumer {
    var below := r.hi + 1 == v.low;
    Consumer(
      if below then Read(c, r) + v.held else v.held + Read(c, r),
      if below || v.low == v.mark then r.lo else v.low,
      if below then v.mark else r.hi + 1,
      v.intact && Continues(v, r),
      v.sources + [Source(c, r.lo, r.hi + 1)])
  }

  /** Drops everything above height `a`; what is left is on snapshot `c`. */
  function RolledBack(v: Consumer, a: nat, c: Chain): Consumer {
    var mark := Min(v.mark, a + 1);
    var low := Min(v.low, mark);
    Consumer(Kept(v.held, a + 1), low, mark, v.intact, [Source(c, low, mark)])
  }

  /** The same blocks, all known to be on snapshot `c`. */
  function Trusted(v: Consumer, c: Chain): Consumer {
    v.(sources := [Source(c, v.low, v.mark)])
  }

  /** The consumer holds exactly the blocks of snapshot `c` at the covered heights. */
  predicate Canonical(v: Consumer, c: Chain) {
    && v.intact
    && if v.low == v.mark then v.held == []
       else v.low < v.mark <= |c.blocks| && v.held == Blocks(c, v.low, v.mark)
  }

  predicate Agrees(s: Source, c: Chain, n: nat) {
    s.from < n && s.from < s.upTo ==> AgreeBelow(s.chain, c, Min(n, s.upTo))
  }

  /** Below height `n` all sources are in accord with snapshot `c`. */
  predicate Accords(sources: seq<Source>, c: Chain, n: nat) {
    forall i | 0 <= i < |sources| :: Agrees(sources[i], c, n)
  }

  // -------------------------------------------------------------------------
  // The monitor
  // -------------------------------------------------------------------------

  /** view      the consumer
      base      the snapshot the scanner last looked at
      final     ranges below this height are streamed as finalized, without a check
      floor     the height below which the stream cannot restart
      pending   a reorg is detected and not yet notified
      faithful  the environment kept to the windows in which the scanner can see a change
      sound     whenever settled in a faithful environment, the consumer's view was canonical */
  datatype Monitor = Monitor(
    view: Consumer,
    base: Chain,
    final: nat,
    floor: nat,
    pending: bool,
    faithful: bool,
    sound: bool)

  /** Nothing is covered yet; the stream may begin at `mark`. */
  function Fresh(mark: nat, base: Chain): Monitor {
    Monitor(Consumer([], mark, mark, true, [Source(base, mark, mark)]), base, 0, 0, false, true, true)
  }

  const START: Monitor := Fresh(0, ChainData([], None))

  /** The scanner has looked at everything streamed so far, and no reorg waits to be notified. */
  predicate Settled(m: Monitor) {
    !m.pending && m.view.sources == [Source(m.base, m.view.low, m.view.mark)]
  }

  /** No block up to the snapshot's finalized height has changed since `before`. */
  predicate FinalityKept(before: Chain, c: Chain) {
    c.finalized.Some? ==> AgreeBelow(before, c, c.finalized.value + 1)
  }

  /** A check asked with this buffer can go back to block `n - 1` at the deepest: that height is
      finalized, or a buffered block at or above it is still in place. */
  predicate Reaches(c: Chain, buffer: seq<Block>, n: nat) {
    || (c.finalized.Some? && n <= c.finalized.value + 1)
    || exists i | 0 <= i < |buffer| :: OnChain(c, buffer[i]) && n <= buffer[i].number + 1
  }

  function Consume(m: Monitor, message: Message, c: Chain): Monitor {
    match message
    case Data(r) =>
      var v := Received(m.view, r, c);
      var final := r.hi < m.final && Settled(m);
      m.(view := if final then Trusted(v, m.base) else v,
         floor := if r.hi + 1 == m.view.low then r.lo else m.floor,
         // finalized blocks do not change
         faithful := m.faithful && (final ==> AgreeBelow(m.base, c, r.hi + 1)))
    case ReorgDetected(a) => m.(view := RolledBack(m.view, a, m.base), pending := false)
    case SwitchingToLive => m.(floor := m.view.mark)
    case Error(_) => m
  }

  function Advance(m: Monitor, e: Event): Monitor {
    match e
    case Sent(message, c) => Consume(m, message, c)
    case Anchored(c, final) =>
      // what was streamed is in place when the scanner goes on
      m.(view := Trusted(m.view, c), base := c, final := final,
         faithful := m.faithful && Accords(m.view.sources, c, m.view.mark))
    case Checked(c, buffer, reorg) =>
      m.(view := if reorg then m.view else Trusted(m.view, c), base := c, final := 0, pending := reorg,
         faithful := m.faithful
           // what this snapshot shares with the last one was there when it was read
           && Accords(m.view.sources, c, CommonLength(m.base, c))
           // a detected reorg forks above the finalized height, and the stream can go back far enough
           && (reorg ==> FinalityKept(m.base, c) && Reaches(c, buffer, m.floor)))
    case Compared(c, reorg, kept) =>
      m.(view := if reorg then m.view else Trusted(m.view, c), base := c, final := 0, pending := reorg,
         faithful := m.faithful
           && (if reorg
               // a detected reorg forks above the blocks that are not streamed again
               then m.view.low < kept ==> AgreeBelow(m.base, c, kept)
               else Accords(m.view.sources, c, CommonLength(m.base, c))))
  }

  function Observe(m: Monitor, e: Event): Monitor {
    var m' := Advance(m, e);
    m'.(sound := m.sound && (m'.faithful && Settled(m') ==> Canonical(m'.view, m'.base)))
  }

  function Watch(m: Monitor, h: seq<Event>): Monitor {
    if h == [] then m else Observe(Watch(m, h[..|h| - 1]), h[|h| - 1])
  }

  /** The history so far is sound, and its last view has been judged. */
  predicate Judged(m: Monitor) {
    m.sound && (m.faithful && Settled(m) ==> Canonical(m.view, m.base))
  }

  /** One more event. */
  lemma WatchNoted(m: Monitor, w: World, e: Event)
    ensures Watch(m, Noted(w, e).history) == Observe(Watch(m, w.history), e)
  {
    assert (w.history + [e])[..|w.history|] == w.history;
  }

  lemma WatchNothing(m: Monitor)
    ensures Watch(m, []) == m
  {
  }

  // -------------------------------------------------------------------------
  // Blocks of a snapshot
  // -------------------------------------------------------------------------

  lemma {:induction false} BlocksIndex(c: Chain, lo: nat, n: nat)
    requires lo <= n <= |c.blocks|
    ensures |Blocks(c, lo, n)| == n - lo
    ensures forall i | 0 <= i < n - lo :: Blocks(c, lo, n)[i] == BlockAt(c, lo + i)
  {
    if lo < n {
      BlocksIndex(c, lo, n - 1);
    }
  }

  lemma {:induction false} BlocksConcat(c: Chain, lo: nat, mid: nat, n: nat)
    requires lo <= mid <= n <= |c.blocks|
    ensures Blocks(c, lo, n) == Blocks(c, lo, mid) + Blocks(c, mid, n)
  {
    if mid < n {
      BlocksConcat(c, lo, mid, n - 1);
    }
  }

  lemma {:induction false} BlocksAgree(a: Chain, b: Chain, lo: nat, n: nat)
    requires AgreeBelow(a, b, n)
    ensures Blocks(a, lo, n) == Blocks(b, lo, n)
  {
    if lo < n {
      AgreeLess(a, b, n, n - 1);
      BlocksAgree(a, b, lo, n - 1);
    }
  }

  lemma {:induction false} KeptConcat(x: seq<Block>, y: seq<Block>, n: nat)
    ensures Kept(x + y, n) == if Kept(y, n) == [] then Kept(x, n) else x + Kept(y, n)
  {
    if y == [] {
      assert x + y == x;
    } else if y[|y| - 1].number >= n {
      var y' := y[..|y| - 1];
      assert (x + y)[..|x + y| - 1] == x + y';
      KeptConcat(x, y', n);
    }
  }

  lemma {:induction false} KeptBlocks(c: Chain, lo: nat, k: nat, n: nat)
    requires k <= |c.blocks|
    ensures Kept(Blocks(c, lo, k), n) == Blocks(c, lo, Min(k, n))
    decreases k
  {
    if lo < k && n < k {
      var held, rest := Blocks(c, lo, k), Blocks(c, lo, k - 1);
      assert held == rest + [BlockAt(c, k - 1)];
      assert held[..|held| - 1] == rest && held[|held| - 1].number == k - 1;
      KeptBlocks(c, lo, k - 1, n);
    }
  }

  lemma {:induction false} KeptNothing(held: seq<Block>, n: nat)
    requires forall i | 0 <= i < |held| :: n <= held[i].number
    ensures Kept(held, n) == []
  {
    if held != [] {
      KeptNothing(held[..|held| - 1], n);
    }
  }

  lemma {:induction false} KeptPrefix(held: seq<Block>, n: nat)
    ensures Kept(held, n) <= held
  {
    if held != [] && held[|held| - 1].number >= n {
      KeptPrefix(held[..|held| - 1], n);
    }
  }

  // -------------------------------------------------------------------------
  // What a consumer holds
  // -------------------------------------------------------------------------

  ghost predicate Inside(held: seq<Block>, lo: nat, n: nat) {
    && Increasing(held)
    && forall i | 0 <= i < |held| :: lo <= held[i].number < n
  }

  /** Some source reaches up to the mark. */
  ghost predicate Reaching(v: Consumer) {
    exists i | 0 <= i < |v.sources| :: v.sources[i].from < v.sources[i].upTo == v.mark
  }

  lemma ReachingIsLong(v: Consumer, c: Chain)
    requires Reaching(v) && Accords(v.sources, c, v.mark)
    ensures v.mark <= |c.blocks|
  {
    var i :| 0 <= i < |v.sources| && v.sources[i].from < v.sources[i].upTo == v.mark;
    assert Agrees(v.sources[i], c, v.mark);
  }

  lemma ReceivedReaches(v: Consumer, r: Range, d: Chain)
    requires Continues(v, r) && v.low <= v.mark && (v.low < v.mark ==> Reaching(v))
    ensures Reaching(Received(v, r, d))
  {
    var v' := Received(v, r, d);
    if v'.mark == r.hi + 1 {
      assert v'.sources[|v.sources|] == Source(d, r.lo, r.hi + 1);
    } else {
      var i :| 0 <= i < |v.sources| && v.sources[i].from < v.sources[i].upTo == v.mark;
      assert v'.sources[i] == v.sources[i];
    }
  }

  /** Whatever snapshot all sources turn out to be in accord with, up to whatever height: below
      that height the consumer holds the blocks of that snapshot. */
  ghost predicate Truthful(v: Consumer) {
    && v.intact && v.low <= v.mark && v.sources != []
    && (v.low < v.mark ==> Reaching(v))
    && Inside(v.held, v.low, v.mark)
    && forall c: Chain, n: nat | n <= v.mark && n <= |c.blocks| && Accords(v.sources, c, n) ::
         Kept(v.held, n) == Blocks(c, v.low, n)
  }

  lemma AccordsLess(sources: seq<Source>, c: Chain, n: nat, k: nat)
    requires Accords(sources, c, n) && k <= n
    ensures Accords(sources, c, k)
  {
    forall i | 0 <= i < |sources|
      ensures Agrees(sources[i], c, k)
    {
      var s := sources[i];
      assert Agrees(s, c, n);
      if s.from < k && s.from < s.upTo {
        AgreeLess(s.chain, c, Min(n, s.upTo), Min(k, s.upTo));
      }
    }
  }

  lemma AccordsSplit(sources: seq<Source>, s: Source, c: Chain, n: nat)
    requires Accords(sources + [s], c, n)
    ensures Accords(sources, c, n) && Agrees(s, c, n)
  {
    assert (sources + [s])[|sources|] == s;
    assert forall i | 0 <= i < |sources| :: (sources + [s])[i] == sources[i];
  }

  lemma ReadInside(c: Chain, r: Range)
    requires r.lo <= r.hi
    ensures Inside(Read(c, r), r.lo, r.hi + 1)
  {
    var n := Min(r.hi + 1, |c.blocks|);
    if r.lo <= n {
      BlocksIndex(c, r.lo, n);
    }
  }

  /** Of a range read from `d`, the part below `n` is on every snapshot in accord up to `n`. */
  lemma KeptRead(d: Chain, r: Range, c: Chain, n: nat)
    requires r.lo <= r.hi && n <= r.hi + 1 && n <= |c.blocks|
    requires Agrees(Source(d, r.lo, r.hi + 1), c, n)
    ensures Kept(Read(d, r), n) == Blocks(c, r.lo, n)
  {
    KeptBlocks(d, r.lo, Min(r.hi + 1, |d.blocks|), n);
    hide Kept;
    if r.lo < n {
      BlocksAgree(d, c, r.lo, n);
      hide Blocks, AgreeBelow;
    }
  }

  lemma KeptAll(held: seq<Block>, lo: nat, k: nat, n: nat)
    requires Inside(held, lo, k) && k <= n
    ensures Kept(held, n) == held
  {
  }

  lemma AppendedHolds(v: Consumer, r: Range, d: Chain, c: Chain, n: nat)
    requires Truthful(v) && r.lo <= r.hi && r.hi + 1 != v.low && (v.low == v.mark || r.lo == v.mark)
    requires n <= r.hi + 1 && n <= |c.blocks| && Accords(v.sources + [Source(d, r.lo, r.hi + 1)], c, n)
    ensures Kept(v.held + Read(d, r), n) == Blocks(c, if v.low == v.mark then r.lo else v.low, n)
  {
    AccordsSplit(v.sources, Source(d, r.lo, r.hi + 1), c, n);
    KeptConcat(v.held, Read(d, r), n);
    KeptRead(d, r, c, n);
    if v.low == v.mark {
      assert v.held + Read(d, r) == Read(d, r);
    } else if n <= v.mark {
      assert Kept(v.held, n) == Blocks(c, v.low, n);
    } else {
      AccordsLess(v.sources, c, n, v.mark);
      KeptAll(v.held, v.low, v.mark, v.mark);
      assert v.held == Blocks(c, v.low, v.mark);
      BlocksConcat(c, v.low, v.mark, n);
      BlocksIndex(c, v.mark, n);
    }
  }

  /** A range read from `d` right below `low`, in accord with `c` up to above that height. */
  lemma ReadJoins(d: Chain, r: Range, c: Chain, low: nat, n: nat)
    requires r.lo <= r.hi && r.hi + 1 == low < n <= |c.blocks| && Agrees(Source(d, r.lo, r.hi + 1), c, n)
    ensures Blocks(c, low, n) != [] && Read(d, r) + Blocks(c, low, n) == Blocks(c, r.lo, n)
  {
    BlocksAgree(d, c, r.lo, low);
    BlocksConcat(c, r.lo, low, n);
    BlocksIndex(c, low, n);
    hide Blocks, AgreeBelow;
  }

  lemma PrependedHolds(v: Consumer, r: Range, d: Chain, c: Chain, n: nat)
    requires Truthful(v) && r.lo <= r.hi && r.hi + 1 == v.low
    requires n <= v.mark && n <= |c.blocks| && Accords(v.sources + [Source(d, r.lo, r.hi + 1)], c, n)
    ensures Kept(Read(d, r) + v.held, n) == Blocks(c, r.lo, n)
  {
    hide Kept, Reaching, Inside, Read, Agrees;
    AccordsSplit(v.sources, Source(d, r.lo, r.hi + 1), c, n);
    KeptConcat(Read(d, r), v.held, n);
    assert Kept(v.held, n) == Blocks(c, v.low, n);
    hide Truthful, Accords;
    if n <= v.low {
      KeptRead(d, r, c, n);
    } else {
      ReadJoins(d, r, c, v.low, n);
    }
  }

  lemma ReceivedInside(v: Consumer, r: Range, d: Chain)
    requires Continues(v, r) && v.low <= v.mark && Inside(v.held, v.low, v.mark)
    ensures var v' := Received(v, r, d); v'.low <= v'.mark && Inside(v'.held, v'.low, v'.mark)
  {
    ReadInside(d, r);
    hide Read;
  }

  lemma ReceivedHolds(v: Consumer, r: Range, d: Chain, c: Chain, n: nat)
    requires Truthful(v) && Continues(v, r)
    requires var v' := Received(v, r, d); n <= v'.mark && n <= |c.blocks| && Accords(v'.sources, c, n)
    ensures var v' := Received(v, r, d); Kept(v'.held, n) == Blocks(c, v'.low, n)
  {
    hide Truthful, Kept, Blocks, Read, Accords;
    if r.hi + 1 == v.low {
      PrependedHolds(v, r, d, c, n);
    } else {
      AppendedHolds(v, r, d, c, n);
    }
  }

  /** A range that continues what is covered keeps the consumer truthful, whatever snapshot it
      is read from. */
  lemma ReceivedTruthful(v: Consumer, r: Range, d: Chain)
    requires Truthful(v) && Continues(v, r)
    ensures Truthful(Received(v, r, d))
  {
    ReceivedInside(v, r, d);
    ReceivedReaches(v, r, d);
    forall c: Chain, n: nat |
      var v' := Received(v, r, d); n <= v'.mark && n <= |c.blocks| && Accords(v'.sources, c, n)
      ensures var v' := Received(v, r, d); Kept(v'.held, n) == Blocks(c, v'.low, n)
    {
      ReceivedHolds(v, r, d, c, n);
    }
    hide Reaching, Inside, Kept, Blocks, Read, Accords;
  }

  /** A consumer whose held blocks are those of one snapshot is truthful. */
  lemma CanonicalTruthful(v: Consumer, c: Chain)
    requires Canonical(v, c)
    ensures Truthful(Trusted(v, c))
  {
    var v' := Trusted(v, c);
    if v.low < v.mark {
      assert v'.sources[0].upTo == v.mark;
      BlocksIndex(c, v.low, v.mark);
      forall d: Chain, n: nat | n <= v.mark && n <= |d.blocks| && Accords(v'.sources, d, n)
        ensures Kept(v'.held, n) == Blocks(d, v.low, n)
      {
        assert Agrees(v'.sources[0], d, n);
        KeptBlocks(c, v.low, v.mark, n);
        if v.low < n {
          BlocksAgree(c, d, v.low, n);
        }
      }
    }
  }

  /** When all sources are in accord with a snapshot, the view is canonical on it. */
  lemma TrustedTruthful(v: Consumer, c: Chain)
    requires Truthful(v) && Accords(v.sources, c, v.mark)
    ensures Canonical(v, c) && Canonical(Trusted(v, c), c) && Truthful(Trusted(v, c))
  {
    KeptAll(v.held, v.low, v.mark, v.mark);
    if v.low < v.mark {
      ReachingIsLong(v, c);
      assert v.held == Blocks(c, v.low, v.mark);
    }
    CanonicalTruthful(v, c);
  }

  /** A rollback to a height up to which all sources are in accord with a snapshot leaves a
      canonical view on it. */
  lemma RollbackTruthful(v: Consumer, a: nat, c: Chain)
    requires Truthful(v) && a < v.mark && a < |c.blocks| && Accords(v.sources, c, a + 1)
    ensures Canonical(RolledBack(v, a, c), c) && Truthful(RolledBack(v, a, c))
  {
    assert Kept(v.held, a + 1) == Blocks(c, v.low, a + 1);
    CanonicalTruthful(RolledBack(v, a, c), c);
  }

  /** A finalized range extends a canonical view. */
  lemma FinalTruthful(v: Consumer, r: Range, c: Chain, base: Chain)
    requires Truthful(v) && Canonical(v, base) && v.sources == [Source(base, v.low, v.mark)]
    requires Continues(v, r) && AgreeBelow(base, c, r.hi + 1)
    ensures var v' := Trusted(Received(v, r, c), base); Canonical(v', base) && Truthful(v')
  {
    hide Kept, Blocks, Read, Inside, Reaching;
    var v' := Received(v, r, c);
    ReceivedTruthful(v, r, c);
    assert Agrees(v.sources[0], base, v'.mark);
    assert Accords(v'.sources, base, v'.mark);
    TrustedTruthful(v', base);
  }
}
