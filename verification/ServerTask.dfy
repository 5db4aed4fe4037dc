/** The server task that reads one remote socket, written as the loop it is, among other tasks
    that use and close the same client channel. */
module ServerTask {
  import opened Utf8
  import opened ControlPacket
  import opened Projection
  import opened TunnelState
  import TunnelServer
  import R = RemoteSink

  /** A client's channel, shared by all tasks that hold the client. */
  class ClientChannel {
    var log: seq<Packet>     // packets accepted
    var closed: bool

    method Send(p: Packet) returns (ok: bool)
      modifies this
      ensures ok == !old(closed) && closed == old(closed)
      ensures log == if ok then old(log) + [p] else old(log)
    {
      ok := !closed;
      if ok {
        log := log + [p];
      }
    }

    method Close()
      modifies this
      ensures closed && log == old(log)
    {
      closed := true;
    }

    /** Other tasks run: they may send packets that are not about stream `s`, and may close. */
    method OthersRun(s: StreamId, others: seq<Packet>, close: bool)
      requires forall p :: p in others ==> !About(p, s)
      modifies this
      ensures old(closed) ==> closed && log == old(log)
      ensures Of(log, s) == Of(old(log), s)
    {
      if !closed {
        OfConcat(log, others, s);
        OfNone(others, s);
        log := log + others;
      }
      closed := closed || close;
    }
  }

  /** What the surroundings do around one turn of the loop: to the client's channel, to the stream's
      own queue, and to the registry and the socket the task reads. */
  datatype Turn = Turn(others: seq<Packet>, close: bool, queued: R.Arrival, registered: bool, outcome: ReadOutcome)

  /** The others send nothing about this stream to the client, and nobody else says that the client is gone. */
  ghost predicate Fair(s: StreamId, turns: seq<Turn>) {
    forall k :: 0 <= k < |turns| ==>
      && Readable(turns[k].outcome, SERVER_BUFFER)
      && (forall p :: p in turns[k].others ==> !About(p, s))
      && R.NoClientTunnel !in turns[k].queued.messages
  }

  datatype TaskEnd = StillReading | ClientGone | EndOfInput | ReadFailed

  /** How the channel stands towards a task that found it holding `before` of its stream and has
      tried to send `tried`: it accepted a prefix, all of it unless it was closed. */
  ghost predicate Accepts(before: seq<Packet>, tried: seq<Packet>, now: seq<Packet>, closed: bool) {
    before <= now <= before + tried && (!closed ==> now == before + tried)
  }

  /** One more attempt. */
  method Try(s: StreamId, channel: ClientChannel, p: Packet, ghost before: seq<Packet>, ghost tried: seq<Packet>)
    returns (ok: bool)
    requires About(p, s) && Accepts(before, tried, Of(channel.log, s), channel.closed)
    modifies channel
    ensures Accepts(before, tried + [p], Of(channel.log, s), channel.closed)
    ensures ok == !channel.closed && channel.closed == old(channel.closed)
  {
    Append(channel.log, p, s);
    ok := channel.Send(p);
  }

  /** What the task has tried to send while its input lasts: the grammar, and the bytes read. */
  ghost predicate Telling(s: StreamId, tried: seq<Packet>, read: seq<Byte>) {
    TunnelServer.Spoken(s, tried) && DataOf(tried, s) == read
  }

  /** What it has tried to send when it stops. */
  ghost predicate Told(s: StreamId, tried: seq<Packet>, read: seq<Byte>, end: TaskEnd) {
    && TunnelServer.Grammar(s, tried) && tried != [] && DataOf(tried, s) == read
    && (TunnelServer.Concluded(s, tried) <==> end == EndOfInput)
  }

  lemma StopsHere(s: StreamId, tried: seq<Packet>, read: seq<Byte>, end: TaskEnd)
    requires Telling(s, tried, read) && end != EndOfInput
    ensures Told(s, tried, read, end)
  {
  }

  lemma Announces(s: StreamId)
    ensures Telling(s, [Init(s)], [])
  {
  }

  lemma TellsMore(s: StreamId, tried: seq<Packet>, read: seq<Byte>, data: seq<Byte>)
    requires Telling(s, tried, read) && 0 < |data| <= SERVER_BUFFER
    ensures Telling(s, tried + [Data(s, data)], read + data)
  {
  }

  lemma TellsTheEnd(s: StreamId, tried: seq<Packet>, read: seq<Byte>)
    requires Telling(s, tried, read)
    ensures Told(s, tried + [End(s)], read, EndOfInput)
  {
  }

  /** In each of the first `passed` turns the client was registered, the socket gave data, and that very
      data went into the next packet; `tried` is the announcement and those packets. */
  ghost predicate Passed(s: StreamId, turns: seq<Turn>, passed: nat, tried: seq<Packet>) {
    && passed <= |turns| && |tried| == passed + 1 && tried[0] == Init(s)
    && forall k :: 0 <= k < passed ==>
         turns[k].registered && turns[k].outcome.Got? && tried[k + 1] == Data(s, turns[k].outcome.data)
  }

  /** Why a task that was left to `turns` stands at `end` after passing some of them: the next turn says. */
  ghost predicate Explained(s: StreamId, turns: seq<Turn>, passed: nat, tried: seq<Packet>, end: TaskEnd) {
    match end
    case StillReading => Passed(s, turns, passed, tried) && passed == |turns|
    case ClientGone => Passed(s, turns, passed, tried) && passed < |turns| && !turns[passed].registered
    case ReadFailed =>
      Passed(s, turns, passed, tried) && passed < |turns| && turns[passed].registered && turns[passed].outcome == Failed
    case EndOfInput =>
      && tried != [] && tried[|tried| - 1] == End(s) && Passed(s, turns, passed, tried[..|tried| - 1])
      && passed < |turns| && turns[passed].registered && turns[passed].outcome == Eof
  }

  lemma PassesOne(s: StreamId, turns: seq<Turn>, passed: nat, tried: seq<Packet>)
    requires Passed(s, turns, passed, tried) && passed < |turns|
    requires turns[passed].registered && turns[passed].outcome.Got?
    ensures Passed(s, turns, passed + 1, tried + [Data(s, turns[passed].outcome.data)])
  {
  }

  /** What the stream's queue has to do with the task: it is told that the client is gone exactly by a
      task that ends so and finds it open, as its last message, and such a task closes it. */
  ghost predicate Parted(queue: R.StreamQueue, end: TaskEnd, told: bool)
    reads queue
  {
    && (told <==> R.NoClientTunnel in queue.posted)
    && (told ==> end == ClientGone && queue.posted[|queue.posted| - 1] == R.NoClientTunnel)
    && (end == ClientGone ==> !queue.open)
  }

  /** The task finds its client gone. */
  method Part(queue: R.StreamQueue) returns (told: bool)
    requires R.NoClientTunnel !in queue.posted
    modifies queue
    ensures Parted(queue, ClientGone, told) && told == old(queue.open)
  {
    told := queue.Send(R.NoClientTunnel);
    queue.Close();
  }

  /** Somebody else closed the stream's queue, or found it closed. */
  predicate Shut(open: bool, turns: seq<Turn>) {
    !open || exists k :: 0 <= k < |turns| && turns[k].queued.close
  }

  /** The packets of the stream that the channel accepts are a prefix of what the task tried to
      send, all of it unless the channel was closed; what it tried to send follows the stream
      grammar, carries exactly the bytes read, and ends with the end packet exactly when the
      input ended. All this follows from what the surroundings do in each turn. A client that is gone
      is reported to the stream's queue, unless somebody else has closed that. */
  method ProcessTcpStream(s: StreamId, channel: ClientChannel, queue: R.StreamQueue, turns: seq<Turn>)
    returns (end: TaskEnd, passed: nat, read: seq<Byte>, tried: seq<Packet>, told: bool)
    requires Fair(s, turns) && R.NoClientTunnel !in queue.posted
    modifies channel, queue
    ensures Told(s, tried, read, end)
    ensures Explained(s, turns, passed, tried, end)
    ensures Accepts(Of(old(channel.log), s), tried, Of(channel.log, s), channel.closed)
    ensures Parted(queue, end, told)
    ensures end == ClientGone && !Shut(old(queue.open), turns) ==> told
  {
    ghost var before := Of(channel.log, s);
    var ok := Try(s, channel, Init(s), before, []);
    passed, read, tried, told := 0, [], [Init(s)], false;
    assert [] + [Init(s)] == tried;
    Announces(s);
    if !ok {
      channel.Close();
    }
    while passed < |turns|
      invariant Passed(s, turns, passed, tried)
      invariant Telling(s, tried, read) && !told
      invariant Accepts(before, tried, Of(channel.log, s), channel.closed)
      invariant R.NoClientTunnel !in queue.posted
      invariant !Shut(old(queue.open), turns) ==> queue.open
    {
      channel.OthersRun(s, turns[passed].others, turns[passed].close);
      queue.OthersRun(turns[passed].queued.messages, turns[passed].queued.close);
      StopsHere(s, tried, read, ClientGone);
      StopsHere(s, tried, read, ReadFailed);
      if !turns[passed].registered {
        told := Part(queue);
        return ClientGone, passed, read, tried, told;
      }
      match turns[passed].outcome {
        case Failed =>
          return ReadFailed, passed, read, tried, false;
        case Eof =>
          ok := Try(s, channel, End(s), before, tried);
          TellsTheEnd(s, tried, read);
          assert (tried + [End(s)])[..|tried|] == tried;
          return EndOfInput, passed, read, tried + [End(s)], false;
        case Got(data) =>
          ok := Try(s, channel, Data(s, data), before, tried);
          TellsMore(s, tried, read, data);
          PassesOne(s, turns, passed, tried);
          read, tried := read + data, tried + [Data(s, data)];
          passed := passed + 1;
          if !ok {
            channel.Close();
          }
      }
    }
    StopsHere(s, tried, read, StillReading);
    return StillReading, passed, read, tried, false;
  }
}
