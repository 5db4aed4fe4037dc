/** Which packets can travel in which direction, which streams they can name, and how many pongs
    there can be. */
module TunnelTraffic {
  import opened Wrappers
  import opened ControlPacket
  import opened Projection
  import opened Pipe
  import opened TunnelState
  import opened TunnelServer
  import TunnelClient
  import R = RemoteSink

  predicate UpPacket(streams: set<StreamId>, p: Packet) {
    p == Ping(None) || ((p.Data? || p.Refused?) && p.sid in streams)
  }

  /** The stream the handler is busy with. */
  predicate HandlerKnown(streams: set<StreamId>, handler: HandlerPc) {
    match handler
    case Idle => true
    case Halted(_, _) => true
    case Looking(sid, _) => sid in streams
    case Connecting(sid, _) => sid in streams
    case Inserting(sid, _, _) => sid in streams
    case Finding(sid, _) => sid in streams
    case Pushing(sid, _, _) => sid in streams
  }

  predicate ReaderKnown(streams: set<StreamId>, reader: ReaderPc) {
    reader.Routing? || reader.Delivering? ==> reader.sid in streams
  }

  ghost predicate UpOk(streams: set<StreamId>, sent: seq<Packet>) {
    forall p :: p in sent ==> UpPacket(streams, p)
  }

  ghost predicate HoldersOk(streams: set<StreamId>, conns: seq<Conn>, handler: HandlerPc, reader: ReaderPc) {
    && (forall i :: 0 <= i < |conns| ==> conns[i].stream in streams)
    && HandlerKnown(streams, handler)
    && ReaderKnown(streams, reader)
  }

  ghost predicate TokensOk(anonymous: bool, sent: seq<Packet>, token: Option<string>) {
    anonymous || (token == None && forall p :: p in sent && p.Ping? ==> p.token == None)
  }

  ghost predicate TrafficOk(st: State) {
    && UpOk(st.server.streams.Keys, Sent(st.up))
    && HoldersOk(st.server.streams.Keys, st.client.conns, st.client.handler, st.server.reader)
    && TokensOk(st.server.anonymous, Sent(st.down), st.client.token)
    && Pings(Sent(st.up)) == Pings(st.down.taken)
  }

  /** A packet that was sent down names a stream the server knows and is none the client refuses. */
  lemma DownPacket(st: State, p: Packet)
    requires TasksOk(st) && p in Sent(st.down)
    ensures p.Init? || p.Data? || p.End? || p.Ping?
    ensures !p.Ping? ==> p.sid in st.server.streams
  {
    if !p.Ping? {
      OfMembers(Sent(st.down), p.sid);
      assert StreamOk(st.server.streams, Sent(st.down), st.server.received, p.sid);
      GrammarKinds(p.sid, Of(Sent(st.down), p.sid), p);
    }
  }

  lemma GrammarKinds(s: StreamId, h: seq<Packet>, p: Packet)
    requires Grammar(s, h) && p in h
    ensures p.Init? || p.Data? || p.End?
  {
  }

  lemma TakenWasSent(l: Link, p: Packet)
    requires Valid(l) && p in l.taken
    ensures p in Sent(l)
  {
  }

  /** New streams, fewer obligations. */
  lemma MoreStreams(st: State, next: State)
    requires TrafficOk(st) && st.server.streams.Keys <= next.server.streams.Keys
    requires Sent(next.up) == Sent(st.up) && next.down.taken == st.down.taken
    requires next.client == st.client && next.server.reader == st.server.reader
    requires TokensOk(next.server.anonymous, Sent(next.down), next.client.token)
    ensures TrafficOk(next)
  {
  }

  lemma TaskKeepsTraffic(st: State, sid: StreamId)
    requires LinksOk(st) && TrafficOk(st) && CanTask(st, sid)
    ensures TrafficOk(DoTask(st, sid))
  {
    DownSends(st, sid);
    var next := DoTask(st, sid);
    SaysNoPing(st.server.anonymous, Sent(st.down), st.client.token, sid, st.server.streams[sid].task);
    assert next.server.streams.Keys == st.server.streams.Keys + {sid};
    MoreStreams(st, next);
  }

  lemma SaysNoPing(anonymous: bool, sent: seq<Packet>, token: Option<string>, sid: StreamId, task: TaskPc)
    requires TokensOk(anonymous, sent, token)
    ensures TokensOk(anonymous, sent + Says(sid, task), token)
  {
  }

  lemma OneStreamTraffic(st: State, next: State, sid: StreamId)
    requires TrafficOk(st) && sid in next.server.streams
    requires next.server.streams == st.server.streams[sid := next.server.streams[sid]]
    requires next.down == st.down && next.up == st.up && next.client == st.client
    requires next.server.reader == st.server.reader && next.server.anonymous == st.server.anonymous
    ensures TrafficOk(next)
  {
  }

  lemma PingKeepsTraffic(st: State, token: Option<string>)
    requires LinksOk(st) && TrafficOk(st) && CanPing(st, token)
    ensures TrafficOk(DoPing(st, token))
  {
  }

  /** A step of the reader that leaves it holding a message of a known stream, or none. */
  lemma ReaderMoved(st: State, next: State)
    requires TrafficOk(st) && next.client == st.client && next.server.anonymous == st.server.anonymous
    requires Sent(next.up) == Sent(st.up) && next.down.taken == st.down.taken && Sent(next.down) == Sent(st.down)
    requires next.server.streams.Keys == st.server.streams.Keys
    requires ReaderKnown(st.server.streams.Keys, next.server.reader)
    ensures TrafficOk(next)
  {
  }

  lemma ReaderTakesTraffic(st: State)
    requires LinksOk(st) && TrafficOk(st) && CanReader(st) && st.server.reader == Awaiting
    ensures ReaderKnown(st.server.streams.Keys, DoReader(st).server.reader)
    ensures Deserialize(st.up.wire[0]).Ok? && UpPacket(st.server.streams.Keys, Deserialize(st.up.wire[0]).value)
  {
    ReceiveValid(st.up);
    var p := Deserialize(st.up.wire[0]).value;
    TakenWasSent(Receive(st.up), p);
    assert UpPacket(st.server.streams.Keys, p);
  }

  lemma DiscardKeys(sv: Server, sid: StreamId, m: R.StreamMessage)
    ensures Discard(sv, sid, m).streams.Keys == sv.streams.Keys
  {
  }

  lemma ReaderRoutes(st: State)
    requires TrafficOk(st) && CanReader(st) && st.server.reader != Awaiting
    ensures DoReader(st).server.streams.Keys == st.server.streams.Keys
    ensures ReaderKnown(st.server.streams.Keys, DoReader(st).server.reader)
    ensures DoReader(st).up == st.up && DoReader(st).client == st.client
  {
    if st.server.reader.Routing? || st.server.reader.Delivering? {
      var sid, m := st.server.reader.sid, st.server.reader.message;
      DiscardKeys(st.server, sid, m);
      assert SetStream(st.server, sid, NEW_REMOTE).streams.Keys == st.server.streams.Keys + {sid};
    }
  }

  lemma ReaderKeepsTraffic(st: State)
    requires LinksOk(st) && TrafficOk(st) && CanReader(st)
    ensures TrafficOk(DoReader(st))
  {
    ReaderKeepsLinks(st);
    if st.server.reader == Awaiting {
      ReaderTakesTraffic(st);
    } else {
      ReaderRoutes(st);
    }
    ReaderMoved(st, DoReader(st));
  }

  /** The client sends one more packet up. */
  lemma UpSends(l: Link, streams: set<StreamId>, p: Packet)
    requires Valid(l) && UpOk(streams, Sent(l)) && UpPacket(streams, p)
    ensures UpOk(streams, Sent(Send(l, p)))
    ensures Pings(Sent(Send(l, p))) == Pings(Sent(l)) + if p.Ping? then 1 else 0
  {
    SendValid(l, p);
    Append(Sent(l), p, EMPTY_STREAM);
  }

  /** What the handler takes is a packet the server sends, about a stream the server knows. */
  lemma HandlerTakesKnown(st: State)
    requires LinksOk(st) && TasksOk(st) && CanHandle(st) && st.client.handler == Idle
    ensures Deserialize(st.down.wire[0]).Ok?
    ensures var p := Deserialize(st.down.wire[0]).value;
            && p in Sent(st.down)
            && (p.Init? || p.Data? || p.End? || p.Ping?)
            && (!p.Ping? ==> p.sid in st.server.streams)
            && DoHandler(st).down.taken == st.down.taken + [p]
            && Pings(DoHandler(st).down.taken) == Pings(st.down.taken) + if p.Ping? then 1 else 0
  {
    ReceiveValid(st.down);
    var p := Deserialize(st.down.wire[0]).value;
    TakenWasSent(Receive(st.down), p);
    DownPacket(st, p);
    Append(st.down.taken, p, EMPTY_STREAM);
  }

  /** A handler step that leaves it with a known stream and at most one more packet sent up. */
  lemma HandlerMoved(st: State, next: State)
    requires TrafficOk(st) && next.server == st.server && Sent(next.down) == Sent(st.down)
    requires next.client.conns == st.client.conns && HandlerKnown(st.server.streams.Keys, next.client.handler)
    requires next.client.token == st.client.token || Ping(next.client.token) in Sent(st.down)
    requires UpOk(st.server.streams.Keys, Sent(next.up))
    requires Pings(Sent(next.up)) == Pings(next.down.taken)
    ensures TrafficOk(next)
  {
  }

  lemma HandlerTakesTraffic(st: State)
    requires LinksOk(st) && TasksOk(st) && TrafficOk(st) && CanHandle(st) && st.client.handler == Idle
    ensures TrafficOk(DoHandler(st))
  {
    HandlerKeepsLinks(st);
    HandlerTakesKnown(st);
    TunnelClient.TakeFrame(st, Deserialize(st.down.wire[0]).value);
    UpSends(st.up, st.server.streams.Keys, Ping(None));
    HandlerMoved(st, DoHandler(st));
  }

  lemma HandlerMovesTraffic(st: State)
    requires LinksOk(st) && TrafficOk(st) && CanHandle(st) && st.client.handler != Idle
    ensures TrafficOk(DoHandler(st))
  {
    if st.client.handler.Finding? {
      UpSends(st.up, st.server.streams.Keys, Refused(st.client.handler.sid));
    }
    assert DoHandler(st).down == st.down;
  }

  lemma HandlerKeepsTraffic(st: State)
    requires LinksOk(st) && TasksOk(st) && TrafficOk(st) && CanHandle(st)
    ensures TrafficOk(DoHandler(st))
  {
    if st.client.handler == Idle {
      HandlerTakesTraffic(st);
    } else {
      HandlerMovesTraffic(st);
    }
  }

  lemma ConnectKeepsTraffic(st: State, outcome: ConnectOutcome)
    requires LinksOk(st) && TrafficOk(st) && CanConnect(st)
    ensures TrafficOk(DoConnect(st, outcome))
  {
    UpSends(st.up, st.server.streams.Keys, Refused(st.client.handler.sid));
  }

  lemma CloserKeepsTraffic(st: State, k: nat)
    requires TrafficOk(st) && CanClose(st, k)
    ensures TrafficOk(DoCloser(st, k))
  {
  }

  lemma LocalReadKeepsTraffic(st: State, i: nat, outcome: ReadOutcome)
    requires TrafficOk(st) && CanLocalRead(st, i, outcome)
    ensures TrafficOk(DoLocalRead(st, i, outcome))
  {
  }

  lemma LocalKeepsTraffic(st: State, i: nat)
    requires LinksOk(st) && TrafficOk(st) && CanLocal(st, i)
    ensures TrafficOk(DoLocal(st, i))
  {
    var c := st.client.conns[i];
    if c.reader.LocalHolding? {
      UpSends(st.up, st.server.streams.Keys, Data(c.stream, c.reader.data));
    }
  }

  lemma ForwardKeepsTraffic(st: State, i: nat, count: nat)
    requires TrafficOk(st) && CanForward(st, i, count)
    ensures TrafficOk(DoForward(st, i, count))
  {
  }
}
