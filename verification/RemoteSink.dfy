/** The server task that writes a client's answers to a remote socket. */
module RemoteSink {
  import opened Utf8
  import opened ControlPacket

  datatype StreamMessage = Data(data: seq<Byte>) | TunnelRefused | NoClientTunnel

  /** The bytes of an ASCII literal. */
  function Ascii(text: string): seq<Byte> {
    seq(|text|, i requires 0 <= i < |text| => text[i] as int % 128)
  }

  const REFUSED_RESPONSE: seq<Byte> :=
    Ascii("HTTP/1.1 500\r\nContent-Length: 32\r\n\r\nTunnel says: connection refused.")
  const NOT_FOUND_RESPONSE: seq<Byte> :=
    Ascii("HTTP/1.1 404\r\nContent-Length: 23\r\n\r\nError: Tunnel Not Found")

  function Response(m: StreamMessage): seq<Byte> {
    match m
    case Data(_) => []
    case TunnelRefused => REFUSED_RESPONSE
    case NoClientTunnel => NOT_FOUND_RESPONSE
  }

  /** The data before the first terminator. */
  function Body(messages: seq<StreamMessage>): seq<Byte> {
    if messages == [] || !messages[0].Data? then [] else messages[0].data + Body(messages[1..])
  }

  /** The error response of the first terminator, if there is one. */
  function Reply(messages: seq<StreamMessage>): seq<Byte> {
    if messages == [] then []
    else if messages[0].Data? then Reply(messages[1..])
    else Response(messages[0])
  }

  ghost predicate Ends(messages: seq<StreamMessage>) {
    exists m :: m in messages && !m.Data?
  }

  lemma EndsFirst(messages: seq<StreamMessage>)
    requires messages != []
    ensures Ends(messages) <==> !messages[0].Data? || Ends(messages[1..])
  {
  }

  lemma {:induction false} BodyAppend(messages: seq<StreamMessage>, m: StreamMessage)
    ensures Body(messages + [m]) ==
            Body(messages) + (if m.Data? && !Ends(messages) then m.data else [])
    ensures Ends(messages + [m]) <==> Ends(messages) || !m.Data?
    ensures !Ends(messages) ==> Reply(messages + [m]) == Response(m)
  {
    EndsFirst(messages + [m]);
    if messages == [] {
      assert [m] == messages + [m] && Body([m][1..]) == [];
    } else {
      assert (messages + [m])[1..] == messages[1..] + [m];
      EndsFirst(messages);
      BodyAppend(messages[1..], m);
    }
  }

  /** Nothing that arrives after the first terminator is ever written, so however many
      terminators a stream is sent, the remote end sees one response. */
  lemma {:induction false} NothingAfterTheEnd(messages: seq<StreamMessage>, more: seq<StreamMessage>)
    requires Ends(messages)
    ensures Body(messages + more) == Body(messages)
    ensures Reply(messages + more) == Reply(messages)
    ensures Reply(messages) == REFUSED_RESPONSE || Reply(messages) == NOT_FOUND_RESPONSE
  {
    assert (messages + more)[1..] == messages[1..] + more;
    if messages[0].Data? {
      var m :| m in messages && !m.Data?;
      assert m in messages[1..];
      NothingAfterTheEnd(messages[1..], more);
    }
  }

  lemma {:induction false} BodyPrefix(messages: seq<StreamMessage>, more: seq<StreamMessage>)
    ensures Body(messages) <= Body(messages + more)
  {
    if messages != [] {
      assert (messages + more)[1..] == messages[1..] + more;
      BodyPrefix(messages[1..], more);
    }
  }

  lemma {:induction false} NoReplyWithoutEnd(messages: seq<StreamMessage>)
    requires !Ends(messages)
    ensures Reply(messages) == []
  {
    if messages != [] {
      assert messages[0] in messages;
      assert forall m :: m in messages[1..] ==> m in messages;
      NoReplyWithoutEnd(messages[1..]);
    }
  }

  /** The write half of a remote connection. A failed write may have written any prefix. */
  class RemoteSocket {
    var out: seq<Byte>
    var shut: bool

    method WriteAll(data: seq<Byte>) returns (ok: bool)
      modifies this`out
      ensures ok ==> out == old(out) + data
      ensures !ok ==> old(out) <= out <= old(out) + data
    {
      ok := *;
      var n: nat :| n <= |data|;
      out := out + (if ok then data else data[..n]);
    }

    method Shutdown()
      modifies this`shut
      ensures shut
    {
      shut := true;
    }
  }

  class ActiveStreams {
    var ids: set<StreamId>

    method Remove(id: StreamId)
      modifies this
      ensures ids == old(ids) - {id}
    {
      ids := ids - {id};
    }
  }

  /** The queue of one stream, which several tasks send to and one reads. */
  class StreamQueue {
    var waiting: seq<StreamMessage>
    var open: bool
    ghost var posted: seq<StreamMessage>    // every message accepted

    method Send(m: StreamMessage) returns (ok: bool)
      modifies this
      ensures ok == old(open) && open == old(open)
      ensures waiting == old(waiting) + if ok then [m] else []
      ensures posted == old(posted) + if ok then [m] else []
    {
      ok := open;
      if ok {
        waiting := waiting + [m];
        posted := posted + [m];
      }
    }

    method Close()
      modifies this`open
      ensures !open
    {
      open := false;
    }

    method Take() returns (m: StreamMessage)
      requires waiting != []
      modifies this`waiting
      ensures old(waiting) == [m] + waiting
    {
      m := waiting[0];
      waiting := waiting[1..];
    }

    /** The reading end goes away. */
    method Drop()
      modifies this`waiting, this`open
      ensures !open && waiting == []
    {
      waiting, open := [], false;
    }

    /** Other tasks run: they send messages, and may then close the queue. */
    method OthersRun(messages: seq<StreamMessage>, close: bool)
      modifies this
      ensures open == (old(open) && !close)
      ensures waiting == old(waiting) + if old(open) then messages else []
      ensures posted == old(posted) + if old(open) then messages else []
    {
      if open {
        waiting := waiting + messages;
        posted := posted + messages;
      }
      open := open && !close;
    }
  }

  /** What other tasks do to the queue while the task waits once. */
  datatype Arrival = Arrival(messages: seq<StreamMessage>, close: bool)

  /** All that arrives, if the queue stays open. */
  function Arriving(arrivals: seq<Arrival>): seq<StreamMessage> {
    if arrivals == [] then [] else Arriving(arrivals[..|arrivals| - 1]) + arrivals[|arrivals| - 1].messages
  }

  lemma ArrivingNext(arrivals: seq<Arrival>, k: nat)
    requires k < |arrivals|
    ensures Arriving(arrivals[..k + 1]) == Arriving(arrivals[..k]) + arrivals[k].messages
  {
    assert arrivals[..k + 1][..k] == arrivals[..k];
  }

  datatype Outcome = Waiting | Finished | Disconnected

  /** What a task that took `taken` of the `posted` messages has written when it stands at `end`: the
      data before the first terminator and then its response, all of it unless a write failed. A task
      that is not waiting has met a terminator, the end of the queue, or a failed write. */
  ghost predicate Served(taken: seq<StreamMessage>, posted: seq<StreamMessage>, out: seq<Byte>, end: Outcome) {
    && taken <= posted
    && out <= Body(taken) + Reply(taken)
    && (end != Disconnected ==> Body(taken) <= out)
    && (end == Waiting ==> !Ends(taken) && out == Body(taken))
    && (end == Finished ==> Ends(taken) || taken == posted)
    && (end == Disconnected ==> !Ends(taken))
  }

  /** A finished task has written what all posted messages call for: those it did not take came after a
      terminator, and change nothing. */
  lemma FinishedServesAll(taken: seq<StreamMessage>, posted: seq<StreamMessage>, out: seq<Byte>)
    requires Served(taken, posted, out, Finished)
    ensures Body(taken) == Body(posted) && Reply(taken) == Reply(posted)
    ensures Body(posted) <= out <= Body(posted) + Reply(posted)
  {
    if Ends(taken) {
      NothingAfterTheEnd(taken, posted[|taken|..]);
      assert taken + posted[|taken|..] == posted;
    }
  }

  lemma AllServed(taken: seq<StreamMessage>, posted: seq<StreamMessage>, end: Outcome)
    requires !Ends(taken) && taken <= posted && end != Disconnected && (end == Finished ==> taken == posted)
    ensures Served(taken, posted, Body(taken), end) && Reply(taken) == []
  {
    NoReplyWithoutEnd(taken);
  }

  /** The task waits once while others run. */
  method Await(queue: StreamQueue, arrivals: seq<Arrival>, k: nat, ghost taken: seq<StreamMessage>,
               ghost initial: seq<StreamMessage>)
    requires k < |arrivals| && queue.posted == taken + queue.waiting
    requires queue.open ==> queue.posted == initial + Arriving(arrivals[..k])
    modifies queue
    ensures queue.posted == taken + queue.waiting
    ensures queue.open ==> queue.posted == initial + Arriving(arrivals[..k + 1])
  {
    ArrivingNext(arrivals, k);
    queue.OthersRun(arrivals[k].messages, arrivals[k].close);
  }

  /** Takes the next message and writes what it calls for. */
  method ServeNext(queue: StreamQueue, sink: RemoteSocket, ghost taken: seq<StreamMessage>)
    returns (message: StreamMessage, ok: bool)
    requires queue.waiting != [] && queue.posted == taken + queue.waiting
    requires !Ends(taken) && sink.out == Body(taken)
    modifies queue`waiting, sink`out
    ensures old(queue.waiting) == [message] + queue.waiting && queue.posted == taken + [message] + queue.waiting
    ensures message.Data? && ok ==> !Ends(taken + [message]) && sink.out == Body(taken + [message])
    ensures message.Data? && !ok ==> Served(taken + [message], queue.posted, sink.out, Disconnected)
    ensures !message.Data? ==> Served(taken + [message], queue.posted, sink.out, Finished)
    ensures !message.Data? && ok ==> sink.out == Body(taken + [message]) + Reply(taken + [message])
  {
    message := queue.Take();
    BodyAppend(taken, message);
    NoReplyWithoutEnd(taken);
    assert taken + ([message] + queue.waiting) == (taken + [message]) + queue.waiting;
    ok := sink.WriteAll(if message.Data? then message.data else Response(message));
  }

  /** The task returns, leaving the map. */
  method Leave(id: StreamId, queue: StreamQueue, sink: RemoteSocket, active: ActiveStreams)
    modifies queue`waiting, queue`open, sink`shut, active
    ensures !queue.open && queue.waiting == [] && sink.shut && active.ids == old(active.ids) - {id}
  {
    queue.Drop();
    sink.Shutdown();
    active.Remove(id);
  }

  /** Serves one stream while others send to its queue, to the end of `arrivals` or of the stream. If it
      is left waiting it has taken everything that was sent and written all data. The stream leaves
      the map exactly when the task finishes, and stays in it when the remote side disconnects; in both
      cases the queue takes nothing more. */
  method NeutunStream(id: StreamId, queue: StreamQueue, arrivals: seq<Arrival>, sink: RemoteSocket,
                      active: ActiveStreams)
    returns (end: Outcome, taken: seq<StreamMessage>, replied: bool)
    requires queue.posted == queue.waiting && sink.out == []
    modifies queue, sink, active
    ensures Served(taken, queue.posted, sink.out, end)
    ensures end != Disconnected && replied ==> sink.out == Body(taken) + Reply(taken)
    ensures end == Waiting ==>
              queue.open && replied && taken == queue.posted == old(queue.posted) + Arriving(arrivals)
    ensures end != Waiting ==> !queue.open && queue.waiting == []
    ensures active.ids == if end == Finished then old(active.ids) - {id} else old(active.ids)
    ensures sink.shut == (old(sink.shut) || end == Finished)
  {
    replied, taken := true, [];
    var k := 0;
    while true
      invariant k <= |arrivals| && replied
      invariant queue.posted == taken + queue.waiting
      invariant queue.open ==> queue.posted == old(queue.posted) + Arriving(arrivals[..k])
      invariant !Ends(taken) && sink.out == Body(taken)
      invariant active.ids == old(active.ids) && sink.shut == old(sink.shut)
      decreases |arrivals| - k, |queue.waiting|
    {
      if k < |arrivals| {
        Await(queue, arrivals, k, taken, old(queue.posted));
        k := k + 1;
      }
      if queue.waiting == [] && !queue.open {
        AllServed(taken, queue.posted, Finished);
        Leave(id, queue, sink, active);
        return Finished, taken, true;
      } else if queue.waiting == [] && k == |arrivals| {
        assert arrivals[..k] == arrivals;
        AllServed(taken, queue.posted, Waiting);
        return Waiting, taken, true;
      } else if queue.waiting != [] {
        var message, ok := ServeNext(queue, sink, taken);
        taken := taken + [message];
        if !message.Data? {
          Leave(id, queue, sink, active);
          return Finished, taken, ok;
        }
        if !ok {
          queue.Drop();
          return Disconnected, taken, true;
        }
      }
    }
  }
}
