/** One direction of the tunnel: an unbounded channel, the task that drains it onto the
    websocket as serialised messages, and the peer that decodes them. Both directions have this
    shape, so their first-in-first-out law is proved once.

    Assumed of the parts that are not modelled: the channel and the websocket keep their order,
    a closed channel refuses every later send but keeps what it holds, and dropping the receiver
    closes the channel and discards what it holds. */
module Pipe {
  import Utf8
  import opened ControlPacket
  import opened Projection

  datatype Link = Link(
    queue: seq<Packet>,    // what the channel holds
    closed: bool,          // `close_channel` was called or the receiver was dropped
    hand: seq<Packet>,     // at most one packet taken by the writer and not yet on the wire
    stopped: bool,         // the writer task has returned
    wire: seq<seq<Utf8.Byte>>,  // messages on the websocket
    taken: seq<Packet>,    // history: packets the peer has decoded
    log: seq<Packet>,      // history: packets the channel accepted
    failed: seq<Packet>,   // history: packets the channel refused
    lost: seq<Packet>)     // history: packets dropped with the receiver

  const EMPTY: Link := Link([], false, [], false, [], [], [], [], [])

  function Send(l: Link, p: Packet): Link {
    if l.closed then l.(failed := l.failed + [p])
    else l.(log := l.log + [p], queue := l.queue + [p])
  }

  function Shut(l: Link): Link {
    l.(closed := true)
  }

  /** The writer takes the next packet. */
  function Pop(l: Link): Link
    requires l.queue != []
  {
    l.(hand := [l.queue[0]], queue := l.queue[1..])
  }

  /** The writer puts the packet it holds on the websocket. */
  function Push(l: Link): Link
    requires |l.hand| == 1
  {
    l.(wire := l.wire + [Serialize(l.hand[0])], hand := [])
  }

  /** The writer returns: the receiver is dropped with whatever it still held. */
  function Abort(l: Link): Link {
    l.(closed := true, stopped := true, lost := l.hand + l.queue, hand := [], queue := [])
  }

  /** The peer takes the next message. */
  function Receive(l: Link): Link
    requires l.wire != []
  {
    var p := Deserialize(l.wire[0]);
    l.(wire := l.wire[1..], taken := l.taken + (if p.Ok? then [p.value] else []))
  }

  /** Packets on their way: accepted by the channel, not yet decoded by the peer, not lost. */
  function InFlight(l: Link): seq<Packet> {
    DecodeAll(l.wire) + l.hand + l.queue
  }

  /** Everything anybody tried to send, in order. */
  function Sent(l: Link): seq<Packet> {
    l.log + l.failed
  }

  ghost predicate Valid(l: Link) {
    && l.log == l.taken + InFlight(l) + l.lost
    && (l.failed != [] ==> l.closed)
    && (l.lost != [] ==> l.stopped)
    && (l.stopped ==> l.closed && l.hand == [] && l.queue == [])
    && |l.hand| <= 1
    && forall i :: 0 <= i < |l.wire| ==> Deserialize(l.wire[i]).Ok? && l.wire[i] != []
  }

  lemma SendValid(l: Link, p: Packet)
    requires Valid(l)
    ensures Valid(Send(l, p))
    ensures Sent(Send(l, p)) == Sent(l) + [p]
  {
  }

  lemma ShutValid(l: Link)
    requires Valid(l)
    ensures Valid(Shut(l))
    ensures Sent(Shut(l)) == Sent(l)
    ensures InFlight(Shut(l)) == InFlight(l) && Shut(l).lost == l.lost
    ensures forall p :: Send(Shut(l), p).log == l.log
  {
  }

  lemma PopValid(l: Link)
    requires Valid(l) && l.queue != [] && l.hand == []
    ensures Valid(Pop(l))
    ensures Sent(Pop(l)) == Sent(l)
  {
  }

  lemma PushValid(l: Link)
    requires Valid(l) && |l.hand| == 1
    ensures Valid(Push(l))
    ensures Sent(Push(l)) == Sent(l)
  {
    RoundTrip(l.hand[0]);
    DecodeAppend(l.wire, Serialize(l.hand[0]));
    assert [l.hand[0]] == l.hand;
    assert InFlight(Push(l)) == InFlight(l);
  }

  lemma AbortValid(l: Link)
    requires Valid(l) && !l.stopped
    ensures Valid(Abort(l))
    ensures Sent(Abort(l)) == Sent(l)
    ensures InFlight(Abort(l)) == DecodeAll(l.wire) && Abort(l).lost == l.hand + l.queue
    ensures forall p :: Send(Abort(l), p).log == l.log
  {
  }

  lemma ReceiveTakesOldest(l: Link)
    requires l.wire != [] && Deserialize(l.wire[0]).Ok?
    ensures Receive(l).taken == l.taken + [Deserialize(l.wire[0]).value]
    ensures Receive(l).taken + InFlight(Receive(l)) == l.taken + InFlight(l)
  {
    DecodeFirst(l.wire);
    var p := Deserialize(l.wire[0]).value;
    assert InFlight(l) == [p] + InFlight(Receive(l));
    assert l.taken + ([p] + InFlight(Receive(l))) == (l.taken + [p]) + InFlight(Receive(l));
  }

  lemma ReceiveValid(l: Link)
    requires Valid(l) && l.wire != []
    ensures Valid(Receive(l))
    ensures Sent(Receive(l)) == Sent(l)
    ensures Deserialize(l.wire[0]).Ok?
    ensures Receive(l).taken == l.taken + [Deserialize(l.wire[0]).value]
  {
    ReceiveTakesOldest(l);
    forall i | 0 <= i < |Receive(l).wire| ensures Deserialize(Receive(l).wire[i]).Ok? && Receive(l).wire[i] != [] {
      assert Receive(l).wire[i] == l.wire[i + 1];
    }
  }

  /** Conservation on one link, stream by stream: what was sent is what the peer has, what is on
      its way, and a tail that is empty unless the channel was closed. */
  lemma Conserves(l: Link, s: StreamId)
    requires Valid(l)
    ensures DataOf(Sent(l), s) == DataOf(l.taken, s) + DataOf(InFlight(l), s) + DataOf(l.lost + l.failed, s)
    ensures !l.closed ==> l.lost + l.failed == []
    ensures l.taken + InFlight(l) <= l.log
  {
    assert Sent(l) == l.taken + InFlight(l) + (l.lost + l.failed);
    DataOfConcat(l.taken + InFlight(l), l.lost + l.failed, s);
    DataOfConcat(l.taken, InFlight(l), s);
  }
}
