/** Runs that exist: the stream grammar is exact, since every word of it is sent in some run; and the
    local side can miss data, when the first piece of a stream meets a local service that refuses
    the connection and the second one that accepts it. */
module TunnelWitness {
  import opened Utf8
  import opened ControlPacket
  import opened Projection
  import opened Pipe
  import opened TunnelState
  import opened TunnelServer
  import opened TunnelFlow
  import T = TunnelTheorems
  import R = RemoteSink
  import W = Wrappers

  lemma ReachableStep(st: State, a: Action)
    requires Reachable(st) && Enabled(st, a)
    ensures Reachable(Apply(st, a))
  {
    var anonymous: bool, actions: seq<Action> :| Run(Start(anonymous), actions) == W.Some(st);
    assert (actions + [a])[..|actions|] == actions;
    assert Run(Start(anonymous), actions + [a]) == W.Some(Apply(st, a));
  }

  // ----- the server reads and sends -----

  predicate Announced(st: State, s: StreamId) {
    && s in st.server.streams && st.server.streams[s].task == Checking
    && st.server.registered && !st.down.closed && st.server.writer == Draining
  }

  lemma Announce(anonymous: bool, s: StreamId) returns (st: State)
    ensures Reachable(st) && Announced(st, s) && st.client == Start(anonymous).client && st.up == EMPTY
    ensures st.down == Send(EMPTY, Init(s)) && st.server.received == [] && st.server.reader == Awaiting
    ensures st.server.streams[s] == NEW_REMOTE.(task := Checking) && s in st.server.active
  {
    var start := Start(anonymous);
    assert Run(start, []) == W.Some(start);
    ReachableStep(start, Accept(s));
    var accepted := Apply(start, Accept(s));
    ReachableStep(accepted, TaskStep(s));
    st := Apply(accepted, TaskStep(s));
  }

  lemma ReadAndSend(st: State, s: StreamId, chunk: seq<Byte>) returns (next: State)
    requires Reachable(st) && Announced(st, s) && 0 < |chunk| <= SERVER_BUFFER
    ensures Reachable(next) && Announced(next, s) && next.client == st.client && next.up == st.up
    ensures next.down == Send(st.down, Data(s, chunk)) && next.server.reader == st.server.reader
    ensures next.server.streams == st.server.streams && next.server.active == st.server.active
    ensures next.server.received == st.server.received + [Data(s, chunk)]
  {
    ReachableStep(st, TaskStep(s));
    var reading := Apply(st, TaskStep(s));
    ReachableStep(reading, TaskRead(s, Got(chunk)));
    var holding := Apply(reading, TaskRead(s, Got(chunk)));
    ReachableStep(holding, TaskStep(s));
    next := Apply(holding, TaskStep(s));
  }

  lemma Conclude(st: State, s: StreamId) returns (next: State)
    requires Reachable(st) && Announced(st, s)
    ensures Reachable(next) && next.down == Send(st.down, End(s)) && next.server.received == st.server.received
  {
    ReachableStep(st, TaskStep(s));
    var reading := Apply(st, TaskStep(s));
    ReachableStep(reading, TaskRead(s, Eof));
    var finishing := Apply(reading, TaskRead(s, Eof));
    ReachableStep(finishing, TaskStep(s));
    next := Apply(finishing, TaskStep(s));
  }

  lemma SpeakMore(before: State, s: StreamId, most: seq<Packet>, data: seq<Byte>) returns (st: State)
    requires Reachable(before) && Announced(before, s) && 0 < |data| <= SERVER_BUFFER
    requires Of(before.down.log, s) == most && DataOf(before.server.received, s) == DataOf(most, s)
    ensures Reachable(st) && Announced(st, s)
    ensures Of(st.down.log, s) == most + [Data(s, data)]
    ensures DataOf(st.server.received, s) == DataOf(most + [Data(s, data)], s)
  {
    st := ReadAndSend(before, s, data);
    Append(before.down.log, Data(s, data), s);
    Append(before.server.received, Data(s, data), s);
    Append(most, Data(s, data), s);
  }

  lemma SpeakFirst(s: StreamId) returns (st: State)
    ensures Reachable(st) && Announced(st, s)
    ensures Of(st.down.log, s) == [Init(s)] && DataOf(st.server.received, s) == DataOf([Init(s)], s)
  {
    st := Announce(false, s);
    assert st.down.log == [] + [Init(s)] == [Init(s)];
    Append([], Init(s), s);
  }

  lemma SpokenShape(s: StreamId, h: seq<Packet>)
    requires Spoken(s, h)
    ensures |h| == 1 ==> h == [Init(s)]
    ensures |h| > 1 ==>
              var most, last := h[..|h| - 1], h[|h| - 1];
              && Spoken(s, most) && h == most + [last]
              && last.Data? && last == Data(s, last.data) && 0 < |last.data| <= SERVER_BUFFER
  {
  }

  lemma {:induction false} SpokenRun(s: StreamId, h: seq<Packet>) returns (st: State)
    requires Spoken(s, h)
    ensures Reachable(st) && Announced(st, s)
    ensures Of(st.down.log, s) == h && DataOf(st.server.received, s) == DataOf(h, s)
  {
    SpokenShape(s, h);
    if |h| == 1 {
      st := SpeakFirst(s);
    } else {
      var before := SpokenRun(s, h[..|h| - 1]);
      st := SpeakMore(before, s, h[..|h| - 1], h[|h| - 1].data);
    }
  }

  lemma GrammarRun(s: StreamId, h: seq<Packet>) returns (st: State)
    requires Grammar(s, h)
    ensures Reachable(st) && Of(st.down.log, s) == h && DataOf(st.server.received, s) == DataOf(h, s)
  {
    if h == [] {
      st := Start(false);
      assert Run(st, []) == W.Some(st);
    } else if Spoken(s, h) {
      st := SpokenRun(s, h);
    } else {
      var most := h[..|h| - 1];
      assert h == most + [End(s)];
      var before := SpokenRun(s, most);
      st := Conclude(before, s);
      Append(before.down.log, End(s), s);
      Append(most, End(s), s);
    }
  }

  /** The grammar is exact: what the server has queued for a stream is, over all runs, precisely the
      prefixes of Init, Data, ..., Data, End with data of 1 to 1024 bytes. */
  lemma GrammarIsExact(s: StreamId, h: seq<Packet>)
    ensures Grammar(s, h) <==> exists st :: Reachable(st) && Of(st.down.log, s) == h
  {
    if Grammar(s, h) {
      var st := GrammarRun(s, h);
    }
    if st :| Reachable(st) && Of(st.down.log, s) == h {
      T.StreamGrammar(st, s);
    }
  }

  lemma Transmit(st: State) returns (next: State)
    requires Reachable(st) && st.server.writer == Draining && st.down.hand == [] && st.down.queue != []
    ensures Reachable(next) && next == st.(down := Push(Pop(st.down)))
  {
    ReachableStep(st, WriterStep);
    var popped := Apply(st, WriterStep);
    ReachableStep(popped, WriterStep);
    next := Apply(popped, WriterStep);
  }

  lemma BothSent(anonymous: bool, s: StreamId, lost: seq<Byte>, kept: seq<Byte>) returns (st: State)
    requires 0 < |lost| <= SERVER_BUFFER && 0 < |kept| <= SERVER_BUFFER
    ensures Reachable(st) && st.client == Start(anonymous).client && st.up == EMPTY && st.server.writer == Draining
    ensures st.server.received == [Data(s, lost), Data(s, kept)]
    ensures st.down.queue == [Init(s), Data(s, lost), Data(s, kept)]
    ensures st.down.wire == [] && st.down.hand == [] && !st.down.closed
  {
    st := Announce(anonymous, s);
    st := ReadAndSend(st, s, lost);
    st := ReadAndSend(st, s, kept);
  }

  /** Both pieces are on the websocket, after the announcement. */
  lemma OnTheWebsocket(anonymous: bool, s: StreamId, lost: seq<Byte>, kept: seq<Byte>) returns (st: State)
    requires 0 < |lost| <= SERVER_BUFFER && 0 < |kept| <= SERVER_BUFFER
    ensures Reachable(st) && st.client == Start(anonymous).client && st.up == EMPTY
    ensures st.server.received == [Data(s, lost), Data(s, kept)]
    ensures st.down.wire == [Serialize(Init(s)), Serialize(Data(s, lost)), Serialize(Data(s, kept))]
    ensures st.down.hand == [] && st.down.queue == [] && !st.down.closed
  {
    st := BothSent(anonymous, s, lost, kept);
    st := Transmit(st);
    st := Transmit(st);
    st := Transmit(st);
  }

  // ----- the client takes, refuses and opens -----

  lemma TakeInit(st: State, s: StreamId) returns (next: State)
    requires Reachable(st) && st.client.handler == Idle && st.down.wire != [] && st.down.wire[0] == Serialize(Init(s))
    ensures Reachable(next) && next == st.(down := Receive(st.down))
  {
    RoundTrip(Init(s));
    ReachableStep(st, HandlerStep);
    next := Apply(st, HandlerStep);
  }

  lemma TakeData(st: State, s: StreamId, data: seq<Byte>) returns (next: State)
    requires Reachable(st) && st.client.handler == Idle && s !in st.client.streams
    requires st.down.wire != [] && st.down.wire[0] == Serialize(Data(s, data))
    ensures Reachable(next)
    ensures next == st.(down := Receive(st.down), client := st.client.(handler := Connecting(s, data)))
  {
    RoundTrip(Data(s, data));
    ReachableStep(st, HandlerStep);
    var looking := Apply(st, HandlerStep);
    ReachableStep(looking, HandlerStep);
    next := Apply(looking, HandlerStep);
  }

  lemma Refuse(st: State, s: StreamId, data: seq<Byte>) returns (next: State)
    requires Reachable(st) && st.client.handler == Connecting(s, data) && s !in st.client.streams && !st.up.closed
    ensures Reachable(next) && next.client.handler == Idle && next.server == st.server && next.down == st.down
    ensures next.client.streams == st.client.streams && next.client.conns == st.client.conns
  {
    ReachableStep(st, HandlerConnect(Refusing));
    var finding := Apply(st, HandlerConnect(Refusing));
    ReachableStep(finding, HandlerStep);
    next := Apply(finding, HandlerStep);
  }

  lemma Open(st: State, s: StreamId, data: seq<Byte>) returns (next: State)
    requires Reachable(st) && st.client.handler == Connecting(s, data) && st.client.conns == []
    ensures Reachable(next) && next.server == st.server && next.down == st.down
    ensures next.client.handler == Finding(s, data) && next.client.streams == st.client.streams[s := 0]
    ensures next.client.conns == [Conn(s, LocalReading, Forwarding, true, [], [], [], [])]
    ensures next.up == st.up && next.client.answers == st.client.answers
  {
    ReachableStep(st, HandlerConnect(Opened));
    var inserting := Apply(st, HandlerConnect(Opened));
    ReachableStep(inserting, HandlerStep);
    next := Apply(inserting, HandlerStep);
  }

  lemma OpenAndFeed(st: State, s: StreamId, data: seq<Byte>) returns (next: State)
    requires Reachable(st) && st.client.handler == Connecting(s, data) && st.client.conns == []
    ensures Reachable(next) && next.client.handler == Idle && next.server == st.server && next.down == st.down
    ensures next.client.conns == [Conn(s, LocalReading, Forwarding, true, [Chunk(data)], [], data, [])]
    ensures next.up == st.up && next.client.streams == st.client.streams[s := 0]
    ensures next.client.answers == st.client.answers
  {
    var finding := Open(st, s, data);
    ReachableStep(finding, HandlerStep);
    var pushing := Apply(finding, HandlerStep);
    ReachableStep(pushing, HandlerStep);
    next := Apply(pushing, HandlerStep);
    assert [] + [Chunk(data)] == [Chunk(data)] && [] + data == data;
    assert next.client.conns[0].queue == [Chunk(data)] && next.client.conns[0].fed == data;
  }

  lemma TwoPieces(s: StreamId, lost: seq<Byte>, kept: seq<Byte>)
    ensures DataOf([Data(s, lost), Data(s, kept)], s) == lost + kept
  {
    Append([], Data(s, lost), s);
    Append([Data(s, lost)], Data(s, kept), s);
    assert [] + [Data(s, lost)] == [Data(s, lost)];
    assert [Data(s, lost)] + [Data(s, kept)] == [Data(s, lost), Data(s, kept)];
  }

  /** For every stream and any two pieces of data there is a run that feeds the local side the second
      without the first, on an open channel with nothing left in flight. If the pieces begin with
      different bytes, what was fed is no prefix of what the remote side sent. */
  lemma RefusalLeavesGap(s: StreamId, lost: seq<Byte>, kept: seq<Byte>)
    requires 0 < |lost| <= SERVER_BUFFER && 0 < |kept| <= SERVER_BUFFER
    ensures exists st ::
              && Reachable(st) && !st.down.closed && InFlight(st.down) == [] && st.client.handler == Idle
              && DataOf(st.server.received, s) == lost + kept
              && Join(st.client.conns, s, Fed) == kept
              && (lost[0] != kept[0] ==> !(Join(st.client.conns, s, Fed) <= DataOf(st.server.received, s)))
  {
    var st := OnTheWebsocket(false, s, lost, kept);
    TwoPieces(s, lost, kept);
    st := TakeInit(st, s);
    st := TakeData(st, s, lost);
    st := Refuse(st, s, lost);
    st := TakeData(st, s, kept);
    st := OpenAndFeed(st, s, kept);
    assert Join(st.client.conns, s, Fed) == kept by {
      JoinOnly(st.client.conns, 0, Fed);
    }
    assert (lost + kept)[0] == lost[0];
  }

  // ----- a request and its answer -----

  lemma Ask(s: StreamId, request: seq<Byte>) returns (st: State)
    requires 0 < |request| <= SERVER_BUFFER
    ensures Reachable(st) && Announced(st, s) && st.client == Start(false).client && st.up == EMPTY
    ensures st.server.received == [Data(s, request)] && st.server.reader == Awaiting
    ensures st.server.streams[s] == NEW_REMOTE.(task := Checking) && s in st.server.active
    ensures st.down.wire == [Serialize(Init(s)), Serialize(Data(s, request))]
    ensures st.down.hand == [] && st.down.queue == []
  {
    st := Announce(false, s);
    st := ReadAndSend(st, s, request);
    st := Transmit(st);
    st := Transmit(st);
  }

  lemma ForwardWhole(st: State, s: StreamId, data: seq<Byte>) returns (next: State)
    requires Reachable(st) && st.client.conns == [Conn(s, LocalReading, Forwarding, true, [Chunk(data)], [], data, [])]
    ensures Reachable(next) && next.server == st.server && next.up == st.up && next.client.answers == st.client.answers
    ensures next.client.conns == [Conn(s, LocalReading, Forwarding, true, [], data, data, [])]
  {
    ReachableStep(st, ForwardStep(0, |data|));
    next := Apply(st, ForwardStep(0, |data|));
    assert [Chunk(data)][1..] == [] && [] + data == data;
  }

  /** The request reaches the local socket. */
  lemma Arrive(s: StreamId, request: seq<Byte>) returns (st: State)
    requires 0 < |request| <= SERVER_BUFFER
    ensures Reachable(st) && st.server.received == [Data(s, request)] && st.server.reader == Awaiting && st.up == EMPTY
    ensures s in st.server.streams && st.server.streams[s] == NEW_REMOTE.(task := Checking) && s in st.server.active
    ensures st.client.conns == [Conn(s, LocalReading, Forwarding, true, [], request, request, [])]
    ensures st.client.answers == []
  {
    st := Ask(s, request);
    st := TakeInit(st, s);
    st := TakeData(st, s, request);
    st := OpenAndFeed(st, s, request);
    st := ForwardWhole(st, s, request);
  }

  lemma ReadLocally(st: State, s: StreamId, answer: seq<Byte>) returns (next: State)
    requires Reachable(st) && 0 < |answer| <= CLIENT_BUFFER && st.up == EMPTY
    requires |st.client.conns| == 1 && st.client.conns[0].stream == s && st.client.conns[0].reader == LocalReading
    ensures Reachable(next) && next.server == st.server && next.up == Send(EMPTY, Data(s, answer))
    ensures next.client == st.client.(answers := st.client.answers + [Data(s, answer)],
                                      conns := [st.client.conns[0].(read := st.client.conns[0].read + answer)])
  {
    ReachableStep(st, LocalRead(0, Got(answer)));
    var holding := Apply(st, LocalRead(0, Got(answer)));
    ReachableStep(holding, LocalStep(0));
    next := Apply(holding, LocalStep(0));
  }

  /** The local answer is read and put on the websocket. */
  lemma Answer(st: State, s: StreamId, answer: seq<Byte>) returns (next: State)
    requires Reachable(st) && 0 < |answer| <= CLIENT_BUFFER && st.up == EMPTY
    requires |st.client.conns| == 1 && st.client.conns[0].stream == s && st.client.conns[0].reader == LocalReading
    ensures Reachable(next) && next.server == st.server && next.up.wire == [Serialize(Data(s, answer))]
    ensures next.client == st.client.(answers := st.client.answers + [Data(s, answer)],
                                      conns := [st.client.conns[0].(read := st.client.conns[0].read + answer)])
  {
    var sent := ReadLocally(st, s, answer);
    ReachableStep(sent, UplinkStep);
    var popped := Apply(sent, UplinkStep);
    ReachableStep(popped, UplinkStep);
    next := Apply(popped, UplinkStep);
  }

  /** The server's reader hands it to the stream. */
  lemma HandOver(st: State, s: StreamId, answer: seq<Byte>) returns (next: State)
    requires Reachable(st) && st.server.reader == Awaiting && st.up.wire == [Serialize(Data(s, answer))]
    requires s in st.server.streams && s in st.server.active && st.server.streams[s].open
    ensures Reachable(next) && next.client == st.client && s in next.server.streams
    ensures next.server.streams[s] == Post(st.server.streams[s], R.Data(answer))
    ensures next.server.received == st.server.received
  {
    RoundTrip(Data(s, answer));
    ReachableStep(st, ReaderStep);
    var routing := Apply(st, ReaderStep);
    ReachableStep(routing, ReaderStep);
    var delivering := Apply(routing, ReaderStep);
    ReachableStep(delivering, ReaderStep);
    next := Apply(delivering, ReaderStep);
  }

  /** And its task writes it. */
  lemma WriteAnswer(st: State, s: StreamId, answer: seq<Byte>) returns (next: State)
    requires Reachable(st) && s in st.server.streams
    requires st.server.streams[s] == Post(NEW_REMOTE.(task := Checking), R.Data(answer))
    ensures Reachable(next) && next.client == st.client && next.server.received == st.server.received
    ensures s in next.server.streams
    ensures next.server.streams[s].body == answer && next.server.streams[s].reply == []
  {
    assert [] + [R.Data(answer)] == [R.Data(answer)] && [] + answer == answer;
    ReachableStep(st, SinkStep(s, |answer|));
    next := Apply(st, SinkStep(s, |answer|));
  }

  /** The tunnel does its work: for every stream, request and answer there is a run in which the local
      socket has got exactly the request and the remote socket exactly the answer. */
  lemma RequestIsAnswered(s: StreamId, request: seq<Byte>, answer: seq<Byte>)
    requires 0 < |request| <= SERVER_BUFFER && 0 < |answer| <= CLIENT_BUFFER
    ensures exists st ::
              && Reachable(st) && st.server.received == [Data(s, request)] && st.client.answers == [Data(s, answer)]
              && |st.client.conns| == 1 && st.client.conns[0].written == request
              && s in st.server.streams && st.server.streams[s].body == answer && st.server.streams[s].reply == []
  {
    var st := Arrive(s, request);
    st := Answer(st, s, answer);
    st := HandOver(st, s, answer);
    st := WriteAnswer(st, s, answer);
  }
}
