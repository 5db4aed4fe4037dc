/** The client's request inspector: the task that writes a local socket copies what it wrote to a
    collecting task, which stores it; a stored request can be replayed. */
module Introspect {
  import opened Wrappers
  import opened Utf8
  import opened TunnelState

  function Flatten(chunks: seq<seq<Byte>>): seq<Byte> {
    if chunks == [] then [] else Flatten(chunks[..|chunks| - 1]) + chunks[|chunks| - 1]
  }

  lemma FlattenAppend(chunks: seq<seq<Byte>>, chunk: seq<Byte>)
    ensures Flatten(chunks + [chunk]) == Flatten(chunks) + chunk
  {
  }

  lemma {:induction false} FlattenConcat(a: seq<seq<Byte>>, b: seq<seq<Byte>>)
    ensures Flatten(a + b) == Flatten(a) + Flatten(b)
  {
    if b == [] {
      assert a + b == a;
    } else {
      assert (a + b)[..|a + b| - 1] == a + b[..|b| - 1];
      FlattenConcat(a, b[..|b| - 1]);
    }
  }

  /** The data a writer takes from its queue before it is told to close. */
  function Payload(queue: seq<LocalMessage>): seq<Byte> {
    if queue == [] || queue[0] == Close then [] else queue[0].data + Payload(queue[1..])
  }

  /** What a queue pays out is decided by its messages: the pieces before the first close message, all of
      them and in order, or all pieces if there is none. */
  lemma {:induction false} PayloadIsPieces(queue: seq<LocalMessage>, pieces: seq<seq<Byte>>)
    requires |pieces| <= |queue| && forall k :: 0 <= k < |pieces| ==> queue[k] == Chunk(pieces[k])
    requires |pieces| == |queue| || queue[|pieces|] == Close
    ensures Payload(queue) == Flatten(pieces)
  {
    if pieces != [] {
      PayloadIsPieces(queue[1..], pieces[1..]);
      FlattenConcat([pieces[0]], pieces[1..]);
      FlattenAppend([], pieces[0]);
      assert [] + [pieces[0]] == [pieces[0]] && [pieces[0]] + pieces[1..] == pieces;
    }
  }

  lemma PayloadOfOne(data: seq<Byte>)
    ensures Payload([Chunk(data)]) == data
  {
  }

  class LocalSocket {
    var out: seq<Byte>
    var shut: bool

    constructor ()
      ensures out == [] && !shut
    {
      out, shut := [], false;
    }

    /** A failed write may have written any prefix. */
    method WriteAll(data: seq<Byte>, works: bool) returns (ok: bool)
      modifies this`out
      ensures ok ==> out == old(out) + data
      ensures !ok ==> old(out) <= out <= old(out) + data
      ensures works ==> ok
    {
      ok := *;
      ok := ok || works;
      var n: nat :| n <= |data|;
      out := out + (if ok then data else data[..n]);
    }
  }

  datatype ForwardEnd = Shut | Panicked

  /** Writes what the queue delivers until it is told to close, the queue ends, or a write fails,
      and copies each chunk that was written to the inspector. `works` says that writes succeed.
      The copies are exactly what was written, but for the piece of a write that failed. */
  method ForwardToLocalTcp(sink: LocalSocket, queue: seq<LocalMessage>, works: bool)
    returns (copied: seq<seq<Byte>>, end: ForwardEnd)
    modifies sink
    ensures old(sink.out) + Flatten(copied) <= sink.out <= old(sink.out) + Payload(queue)
    ensures end == Shut ==> sink.out == old(sink.out) + Flatten(copied) && Flatten(copied) == Payload(queue)
    ensures |copied| <= |queue| && forall k :: 0 <= k < |copied| ==> queue[k] == Chunk(copied[k])
    ensures end == Shut ==> |copied| == |queue| || queue[|copied|] == Close
    ensures end == Panicked ==>
              && |copied| < |queue| && queue[|copied|].Chunk?
              && sink.out <= old(sink.out) + Flatten(copied) + queue[|copied|].data
    ensures works ==> end == Shut
    ensures sink.shut == (old(sink.shut) || end == Shut)
  {
    copied := [];
    var rest := queue;
    ghost var before := sink.out;
    while rest != [] && rest[0] != Close
      invariant sink.out == before + Flatten(copied)
      invariant before + Payload(queue) == sink.out + Payload(rest)
      invariant sink.shut == old(sink.shut)
      invariant |copied| <= |queue| && rest == queue[|copied|..]
      invariant forall k :: 0 <= k < |copied| ==> queue[k] == Chunk(copied[k])
    {
      var data := rest[0].data;
      var ok := sink.WriteAll(data, works);
      if !ok {
        return copied, Panicked;
      }
      FlattenAppend(copied, data);
      assert sink.out == before + (Flatten(copied) + data);
      copied := copied + [data];
      rest := rest[1..];
    }
    assert before + Payload(queue) == before + Flatten(copied);
    assert (before + Payload(queue))[|before|..] == Payload(queue);
    assert (before + Flatten(copied))[|before|..] == Flatten(copied);
    sink.shut := true;
    return copied, Shut;
  }

  /** The HTTP parser: for a complete head, its length. */
  datatype Parser = Parser(head: seq<Byte> -> Option<nat>)

  /** A head is part of what was parsed. */
  ghost predicate Bounded(p: Parser) {
    forall b: seq<Byte> :: p.head(b).Some? ==> p.head(b).value <= |b|
  }

  datatype StoredRequest = StoredRequest(entireRequest: seq<Byte>, bodyData: seq<Byte>, responseData: seq<Byte>)

  /** Appends what a channel delivers until it ends. */
  method Collect(chunks: seq<seq<Byte>>) returns (collected: seq<Byte>)
    ensures collected == Flatten(chunks)
  {
    collected := [];
    for k := 0 to |chunks|
      invariant collected == Flatten(chunks[..k])
    {
      assert chunks[..k + 1] == chunks[..k] + [chunks[k]];
      FlattenAppend(chunks[..k], chunks[k]);
      collected := collected + chunks[k];
    }
    assert chunks[..|chunks|] == chunks;
  }

  class Requests {
    var entries: map<string, StoredRequest>

    /** Collects both directions of one local connection, the request first, and stores them if
        the request has a complete head: every byte of the request, its body, and of the response
        what follows its head, or all of it if the head is incomplete. */
    method CollectStream(id: string, request: seq<seq<Byte>>, response: seq<seq<Byte>>,
                         requests: Parser, responses: Parser)
      requires Bounded(requests) && Bounded(responses)
      modifies this
      ensures requests.head(Flatten(request)).None? ==> entries == old(entries)
      ensures requests.head(Flatten(request)).Some? ==>
                var head, skip := requests.head(Flatten(request)).value, responses.head(Flatten(response)).GetOr(0);
                entries == old(entries)[id := StoredRequest(Flatten(request), Flatten(request)[head..],
                                                            Flatten(response)[skip..])]
    {
      var collectedRequest := Collect(request);
      var collectedResponse := Collect(response);
      var head := requests.head(collectedRequest);
      if head.None? {
        return;
      }
      var skip := responses.head(collectedResponse).GetOr(0);
      entries := entries[id := StoredRequest(collectedRequest, collectedRequest[head.value..],
                                             collectedResponse[skip..])];
    }

    /** Replays a stored request: on a fresh local connection, if one opens, it queues the whole
        request as one message. */
    method ReplayRequest(id: string, opens: bool) returns (queue: Option<seq<LocalMessage>>)
      ensures queue.Some? <==> id in entries && opens
      ensures queue.Some? ==> queue.value == [Chunk(entries[id].entireRequest)]
    {
      if id in entries && opens {
        return Some([Chunk(entries[id].entireRequest)]);
      }
      return None;
    }
  }

  /** A fresh socket and what the writer copied of it. */
  method WriteAndCopy(queue: seq<LocalMessage>, works: bool)
    returns (sink: LocalSocket, copied: seq<seq<Byte>>, end: ForwardEnd)
    ensures fresh(sink) && Flatten(copied) <= sink.out <= Payload(queue)
    ensures end == Shut ==> Flatten(copied) == sink.out == Payload(queue)
    ensures end == Panicked ==>
              exists k :: 0 <= k < |queue| && queue[k].Chunk? && sink.out <= Flatten(copied) + queue[k].data
    ensures works ==> end == Shut
  {
    sink := new LocalSocket();
    copied, end := ForwardToLocalTcp(sink, queue, works);
    assert [] + Flatten(copied) == Flatten(copied) && [] + Payload(queue) == Payload(queue);
  }

  /** Replay fidelity. However a request was cut into chunks, what is stored of it is what was written
      to its local connection, short at most of the piece whose write failed; if it can be replayed,
      a fresh connection gets exactly the stored bytes, or a prefix of them if a write fails again. */
  method RecordAndReplay(store: Requests, id: string, queue: seq<LocalMessage>, response: seq<seq<Byte>>,
                         requests: Parser, responses: Parser, works: bool, worksAgain: bool)
    returns (first: LocalSocket, second: Option<LocalSocket>, stored: seq<Byte>, end: ForwardEnd, again: ForwardEnd)
    requires Bounded(requests) && Bounded(responses)
    modifies store
    ensures fresh(first) && (second.Some? ==> fresh(second.value))
    ensures stored <= first.out <= Payload(queue)
    ensures end == Shut ==> stored == first.out == Payload(queue)
    ensures end == Panicked ==>
              exists k :: 0 <= k < |queue| && queue[k].Chunk? && first.out <= stored + queue[k].data
    ensures second.Some? <==> requests.head(stored).Some?
    ensures second.Some? ==> second.value.out <= stored && (again == Shut ==> second.value.out == stored)
    ensures (works ==> end == Shut) && (worksAgain ==> again == Shut)
  {
    var copied;
    first, copied, end := WriteAndCopy(queue, works);
    stored, second, again := Flatten(copied), None, Shut;
    store.CollectStream(id, copied, response, requests, responses);
    if requests.head(stored).Some? {
      var replay := store.ReplayRequest(id, true);
      PayloadOfOne(stored);
      var sink, _, rewritten := WriteAndCopy(replay.value, worksAgain);
      second, again := Some(sink), rewritten;
    }
  }
}
