/** The outside world of a scanner: the RPC node it asks and the receiver it streams to.

    Every await of the scanner (an RPC, a reorg check, a send) happens at one moment of a
    timeline. The timeline is arbitrary: between two moments the chain may grow, fork or
    shrink, the node may fail, and the receiver may be dropped. It is finite, and past its
    end nothing answers any more, so a run over a timeline is one finite run prefix. */
module Outside {
  import opened Wrappers
  import opened Chains
  import opened RangeIterator

  datatype Moment = Moment(chain: Chain, rpcUp: bool, receiverUp: bool)

  datatype Message =
    | Data(range: Range)
    | ReorgDetected(commonAncestor: nat)
    | SwitchingToLive
    | Error(error: ScannerError)

  /** What happened at a moment, with the snapshot of that moment. A `Sent` range is read
      by the receiver from the snapshot it is sent at. */
  datatype Event =
    | Anchored(chain: Chain, final: nat)               // a block or height was read to go on from; ranges below `final` are streamed unchecked
    | Sent(message: Message, chain: Chain)             // a message reached the receiver
    | Checked(chain: Chain, buffer: seq<Block>, reorg: bool)   // the reorg handler answered, asked with this buffer
    | Compared(chain: Chain, reorg: bool, kept: nat)   // an end block was re-read; below `kept` nothing is re-streamed

  datatype World = World(future: seq<Moment>, history: seq<Event>)

  const HORIZON: Moment := Moment(ChainData([], None), false, false)

  /** A moment at which everything answers. */
  function Up(c: Chain): Moment {
    Moment(c, true, true)
  }

  function Now(w: World): Moment {
    if w.future == [] then HORIZON else w.future[0]
  }

  /** One moment later. */
  function Later(w: World): World {
    w.(future := if w.future == [] then [] else w.future[1..])
  }

  /** Nothing up to height `tip` ever differs from `c`. */
  ghost predicate Still(c: Chain, future: seq<Moment>, tip: nat) {
    forall i | 0 <= i < |future| :: AgreeBelow(c, future[i].chain, tip + 1)
  }

  lemma StillLater(c: Chain, w: World, tip: nat)
    requires Still(c, w.future, tip)
    ensures Still(c, Later(w).future, tip)
    ensures w.future != [] ==> AgreeBelow(c, Now(w).chain, tip + 1)
  {
    if w.future != [] {
      assert w.future[0] == Now(w);
      assert forall i | 0 <= i < |Later(w).future| :: Later(w).future[i] == w.future[i + 1];
    }
  }

  /** Everything answers, all along the timeline. */
  ghost predicate AllUp(future: seq<Moment>) {
    forall i | 0 <= i < |future| :: future[i].rpcUp && future[i].receiverUp
  }

  function Noted(w: World, e: Event): World {
    w.(history := w.history + [e])
  }

  /** `get_block_by_number` at the current moment. */
  function Fetch(w: World, n: nat): (Result<Block, ScannerError>, World) {
    var m := Now(w);
    if !m.rpcUp then (Err(RpcError), Later(w))
    else
      var r := GetBlockByNumber(m.chain, n);
      (r, if r.Ok? then Noted(Later(w), Anchored(m.chain, 0)) else Later(w))
  }

  /** Sends a message; the flag is false when the receiver is gone. */
  function Send(w: World, message: Message): (bool, World) {
    var m := Now(w);
    (m.receiverUp, if m.receiverUp then Noted(Later(w), Sent(message, m.chain)) else Later(w))
  }

  /** Streams an error, ignoring whether it arrives. */
  function Report(w: World, e: ScannerError): World {
    Send(w, Error(e)).1
  }

  /** Sends ranges one after the other until the receiver is gone. */
  function SendAll(w: World, ranges: seq<Range>): (bool, World)
    decreases |ranges|
  {
    if ranges == [] then (true, w)
    else
      var (open, w1) := Send(w, Data(ranges[0]));
      if open then SendAll(w1, ranges[1..]) else (false, w1)
  }

  /** The messages of a history, in order. */
  function Messages(h: seq<Event>): seq<Message> {
    if h == [] then []
    else
      var before := Messages(h[..|h| - 1]);
      if h[|h| - 1].Sent? then before + [h[|h| - 1].message] else before
  }

  /** No reorg was notified. */
  ghost predicate NoReorg(h: seq<Event>) {
    forall i | 0 <= i < |h| && h[i].Sent? :: !h[i].message.ReorgDetected?
  }

  lemma {:induction false} MessagesConcat(a: seq<Event>, b: seq<Event>)
    ensures Messages(a + b) == Messages(a) + Messages(b)
  {
    if b == [] {
      assert a + b == a;
    } else {
      var b' := b[..|b| - 1];
      assert (a + b)[..|a + b| - 1] == a + b';
      MessagesConcat(a, b');
    }
  }

  /** The world as the scanner's tasks share it. */
  class Environment {
    var w: World

    constructor (w: World)
      ensures this.w == w
    {
      this.w := w;
    }

    /** Lets one moment pass and returns it. */
    method Observe() returns (m: Moment)
      modifies this
      ensures m == Now(old(w)) && w == Later(old(w))
    {
      m := Now(w);
      w := Later(w);
    }

    method Record(e: Event)
      modifies this
      ensures w == Noted(old(w), e)
    {
      w := Noted(w, e);
    }

    method GetBlockByNumber(n: nat) returns (r: Result<Block, ScannerError>)
      modifies this
      ensures (r, w) == Fetch(old(w), n)
    {
      var m := Observe();
      if !m.rpcUp {
        return Err(RpcError);
      }
      r := Chains.GetBlockByNumber(m.chain, n);
      if r.Ok? {
        Record(Anchored(m.chain, 0));
      }
    }

    method TryStream(message: Message) returns (open: bool)
      modifies this
      ensures (open, w) == Send(old(w), message)
    {
      var m := Observe();
      open := m.receiverUp;
      if open {
        Record(Sent(message, m.chain));
      }
    }
  }
}
