/** What a log of packets means to one stream: its packets in order, and their bytes. */
module Projection {
  import opened Utf8
  import opened ControlPacket

  predicate About(p: Packet, s: StreamId) {
    !p.Ping? && p.sid == s
  }

  /** The packets of stream `s`, in order. */
  function Of(log: seq<Packet>, s: StreamId): seq<Packet> {
    if log == [] then []
    else
      var last := log[|log| - 1];
      Of(log[..|log| - 1], s) + (if About(last, s) then [last] else [])
  }

  /** The bytes a log carries for stream `s`. */
  function DataOf(log: seq<Packet>, s: StreamId): seq<Byte> {
    if log == [] then []
    else
      var last := log[|log| - 1];
      DataOf(log[..|log| - 1], s) + (if last.Data? && last.sid == s then last.data else [])
  }

  function Pings(log: seq<Packet>): nat {
    if log == [] then 0
    else Pings(log[..|log| - 1]) + (if log[|log| - 1].Ping? then 1 else 0)
  }

  /** Appending one packet changes the view of its own stream only. */
  lemma Append(log: seq<Packet>, p: Packet, s: StreamId)
    ensures Of(log + [p], s) == Of(log, s) + (if About(p, s) then [p] else [])
    ensures DataOf(log + [p], s) == DataOf(log, s) + (if p.Data? && p.sid == s then p.data else [])
    ensures Pings(log + [p]) == Pings(log) + (if p.Ping? then 1 else 0)
  {
  }

  lemma {:induction false} OfConcat(a: seq<Packet>, b: seq<Packet>, s: StreamId)
    ensures Of(a + b, s) == Of(a, s) + Of(b, s)
  {
    if b == [] {
      assert a + b == a;
    } else {
      var rest, last := b[..|b| - 1], b[|b| - 1];
      assert a + b == (a + rest) + [last];
      Append(a + rest, last, s);
      OfConcat(a, rest, s);
    }
  }

  lemma {:induction false} DataOfConcat(a: seq<Packet>, b: seq<Packet>, s: StreamId)
    ensures DataOf(a + b, s) == DataOf(a, s) + DataOf(b, s)
  {
    if b == [] {
      assert a + b == a;
    } else {
      var rest, last := b[..|b| - 1], b[|b| - 1];
      assert a + b == (a + rest) + [last];
      Append(a + rest, last, s);
      DataOfConcat(a, rest, s);
    }
  }

  lemma {:induction false} PingsConcat(a: seq<Packet>, b: seq<Packet>)
    ensures Pings(a + b) == Pings(a) + Pings(b)
  {
    if b == [] {
      assert a + b == a;
    } else {
      var rest, last := b[..|b| - 1], b[|b| - 1];
      assert a + b == (a + rest) + [last];
      Append(a + rest, last, EMPTY_STREAM);
      PingsConcat(a, rest);
    }
  }

  lemma {:induction false} OfMembers(log: seq<Packet>, s: StreamId)
    ensures forall p :: p in Of(log, s) <==> p in log && About(p, s)
  {
    if log != [] {
      OfMembers(log[..|log| - 1], s);
      assert log == log[..|log| - 1] + [log[|log| - 1]];
    }
  }

  /** The bytes of a stream are the payloads of its own packets. */
  lemma {:induction false} DataOfOf(log: seq<Packet>, s: StreamId)
    ensures DataOf(Of(log, s), s) == DataOf(log, s)
  {
    if log != [] {
      var rest, last := log[..|log| - 1], log[|log| - 1];
      DataOfOf(rest, s);
      if About(last, s) {
        assert Of(log, s) == Of(rest, s) + [last];
        Append(Of(rest, s), last, s);
      } else {
        assert Of(log, s) == Of(rest, s);
      }
    }
  }

  // ----- the websocket in between -----

  function EncodeAll(packets: seq<Packet>): seq<seq<Byte>> {
    if packets == [] then []
    else EncodeAll(packets[..|packets| - 1]) + [Serialize(packets[|packets| - 1])]
  }

  /** The packets a sequence of messages decodes to; undecodable messages are skipped. */
  function DecodeAll(wire: seq<seq<Byte>>): seq<Packet> {
    if wire == [] then []
    else
      var last := Deserialize(wire[|wire| - 1]);
      DecodeAll(wire[..|wire| - 1]) + (if last.Ok? then [last.value] else [])
  }

  lemma {:induction false} DecodeAllConcat(a: seq<seq<Byte>>, b: seq<seq<Byte>>)
    ensures DecodeAll(a + b) == DecodeAll(a) + DecodeAll(b)
  {
    if b == [] {
      assert a + b == a;
    } else {
      assert (a + b)[..|a + b| - 1] == a + b[..|b| - 1];
      DecodeAllConcat(a, b[..|b| - 1]);
    }
  }

  lemma DecodeOne(message: seq<Byte>)
    ensures DecodeAll([message]) == if Deserialize(message).Ok? then [Deserialize(message).value] else []
  {
  }

  /** One more message on the wire is one more packet, if it decodes. */
  lemma DecodeAppend(wire: seq<seq<Byte>>, message: seq<Byte>)
    ensures DecodeAll(wire + [message]) ==
            DecodeAll(wire) + if Deserialize(message).Ok? then [Deserialize(message).value] else []
  {
  }

  /** The oldest message is the oldest packet, if it decodes. */
  lemma DecodeFirst(wire: seq<seq<Byte>>)
    requires wire != []
    ensures DecodeAll(wire) ==
            (if Deserialize(wire[0]).Ok? then [Deserialize(wire[0]).value] else []) + DecodeAll(wire[1..])
  {
    DecodeOne(wire[0]);
    DecodeAllConcat([wire[0]], wire[1..]);
    assert wire == [wire[0]] + wire[1..];
  }

  lemma {:induction false} DecodeEncodeAll(packets: seq<Packet>)
    ensures DecodeAll(EncodeAll(packets)) == packets
  {
    if packets != [] {
      var rest, last := packets[..|packets| - 1], packets[|packets| - 1];
      DecodeEncodeAll(rest);
      RoundTrip(last);
      DecodeAppend(EncodeAll(rest), Serialize(last));
    }
  }

  /** `c` is some interleaving of `a` and `b`. */
  ghost predicate Interleaves(a: seq<Packet>, b: seq<Packet>, c: seq<Packet>)
    decreases |c|
  {
    if c == [] then a == [] && b == []
    else
      var last, rest := c[|c| - 1], c[..|c| - 1];
      || (a != [] && a[|a| - 1] == last && Interleaves(a[..|a| - 1], b, rest))
      || (b != [] && b[|b| - 1] == last && Interleaves(a, b[..|b| - 1], rest))
  }

  lemma {:induction false} OfInterleaving(a: seq<Packet>, b: seq<Packet>, c: seq<Packet>, s: StreamId)
    requires Interleaves(a, b, c)
    ensures |Of(c, s)| == |Of(a, s)| + |Of(b, s)|
    ensures Of(b, s) == [] ==> Of(c, s) == Of(a, s)
    ensures Of(a, s) == [] ==> Of(c, s) == Of(b, s)
    decreases |c|
  {
    if c != [] {
      var last, rest := c[|c| - 1], c[..|c| - 1];
      if a != [] && a[|a| - 1] == last && Interleaves(a[..|a| - 1], b, rest) {
        OfInterleaving(a[..|a| - 1], b, rest, s);
      } else {
        OfInterleaving(a, b[..|b| - 1], rest, s);
      }
    }
  }

  /** Multiplexing: however the packets `a` of one stream are interleaved with others' packets
      `b`, encoding the mix, decoding it and projecting gives back exactly `a` and its bytes. */
  lemma {:induction false} Multiplex(a: seq<Packet>, b: seq<Packet>, mixed: seq<Packet>, s: StreamId)
    requires Interleaves(a, b, mixed)
    requires forall p :: p in a ==> About(p, s)
    requires forall p :: p in b ==> !About(p, s)
    ensures Of(DecodeAll(EncodeAll(mixed)), s) == a
    ensures DataOf(DecodeAll(EncodeAll(mixed)), s) == DataOf(a, s)
  {
    DecodeEncodeAll(mixed);
    OfNone(b, s);
    OfInterleaving(a, b, mixed, s);
    OfAll(a, s);
    DataOfOf(mixed, s);
  }

  lemma {:induction false} OfNone(b: seq<Packet>, s: StreamId)
    requires forall p :: p in b ==> !About(p, s)
    ensures Of(b, s) == []
  {
    if b != [] {
      OfNone(b[..|b| - 1], s);
    }
  }

  lemma {:induction false} OfAll(a: seq<Packet>, s: StreamId)
    requires forall p :: p in a ==> About(p, s)
    ensures Of(a, s) == a
  {
    if a != [] {
      var rest, last := a[..|a| - 1], a[|a| - 1];
      assert rest + [last] == a;
      OfAll(rest, s);
      Append(rest, last, s);
    }
  }
}
