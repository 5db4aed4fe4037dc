/** What every step keeps on the client side: at most one task reads local connections of a
    stream, the stream map points at the newest connection, and after an end packet a stream can
    only leave the map. The handler relies on the server never sending data after an end. */
module TunnelClient {
  import opened Wrappers
  import Utf8
  import opened ControlPacket
  import opened Projection
  import opened Pipe
  import opened TunnelState
  import opened TunnelServer

  /** The task reading this local connection has not finished. */
  predicate Alive(c: Conn) {
    c.reader != LocalEnded
  }

  /** No later connection serves the same stream. */
  ghost predicate Newest(conns: seq<Conn>, i: nat) {
    i < |conns| && forall j :: i < j < |conns| ==> conns[j].stream != conns[i].stream
  }

  /** What keeps the handler from opening a second connection beside `i`. */
  ghost predicate Anchored(streams: map<StreamId, nat>, s: StreamId, i: nat,
                           handler: HandlerPc, taken: seq<Packet>) {
    || (s in streams && streams[s] == i)
    || (handler.Inserting? && handler.sid == s && handler.conn == i)
    || End(s) in taken
  }

  ghost predicate ConnsOk(streams: map<StreamId, nat>, conns: seq<Conn>, handler: HandlerPc, taken: seq<Packet>) {
    forall i :: 0 <= i < |conns| && Alive(conns[i]) ==>
      Newest(conns, i) && Anchored(streams, conns[i].stream, i, handler, taken)
  }

  ghost predicate MapOk(streams: map<StreamId, nat>, conns: seq<Conn>) {
    forall s :: s in streams ==> Newest(conns, streams[s]) && conns[streams[s]].stream == s
  }

  /** The handler is busy with the packet it took last, and its stream has not ended. */
  ghost predicate Current(taken: seq<Packet>, sid: StreamId, data: seq<Utf8.Byte>) {
    taken != [] && taken[|taken| - 1] == Data(sid, data) && End(sid) !in taken
  }

  ghost predicate HandlerOk(streams: map<StreamId, nat>, conns: seq<Conn>, handler: HandlerPc, taken: seq<Packet>) {
    match handler
    case Idle => true
    case Halted(_, _) => true
    case Looking(sid, data) => Current(taken, sid, data)
    case Finding(sid, data) => Current(taken, sid, data)
    case Connecting(sid, data) => Current(taken, sid, data) && sid !in streams
    case Inserting(sid, data, conn) =>
      Current(taken, sid, data) && sid !in streams && conn == |conns| - 1 && conns[conn].stream == sid
    case Pushing(sid, data, conn) =>
      Current(taken, sid, data) && Newest(conns, conn) && conns[conn].stream == sid
  }

  ghost predicate CloserOk(streams: map<StreamId, nat>, conns: seq<Conn>, taken: seq<Packet>, c: Closer) {
    && End(c.sid) in taken
    && (c.pc == CloserDone ==> c.sid !in streams)
    && (c.pc.CloserWaiting? ==> c.pc.conn < |conns|)
  }

  ghost predicate ClosersOk(streams: map<StreamId, nat>, conns: seq<Conn>, closers: seq<Closer>, taken: seq<Packet>) {
    forall k :: 0 <= k < |closers| ==> CloserOk(streams, conns, taken, closers[k])
  }

  ghost predicate LocalOk(cl: Client, taken: seq<Packet>) {
    && ConnsOk(cl.streams, cl.conns, cl.handler, taken)
    && MapOk(cl.streams, cl.conns)
    && HandlerOk(cl.streams, cl.conns, cl.handler, taken)
    && ClosersOk(cl.streams, cl.conns, cl.closers, taken)
  }

  ghost predicate ClientOk(st: State) {
    LocalOk(st.client, st.down.taken)
  }

  // ----- the server's grammar, seen by the client -----

  /** What the client has taken follows each stream's grammar. */
  lemma TakenFollowsGrammar(st: State, s: StreamId)
    requires LinksOk(st) && TasksOk(st)
    ensures Grammar(s, Of(st.down.taken, s))
  {
    var rest := InFlight(st.down) + st.down.lost + st.down.failed;
    assert Sent(st.down) == st.down.taken + rest;
    OfConcat(st.down.taken, rest, s);
    assert StreamOk(st.server.streams, Sent(st.down), st.server.received, s);
    var h := Of(Sent(st.down), s);
    GrammarPrefix(s, h, |Of(st.down.taken, s)|);
    assert h[..|Of(st.down.taken, s)|] == Of(st.down.taken, s);
  }

  lemma EndIsLast(s: StreamId, h: seq<Packet>, p: Packet)
    requires Grammar(s, h + [p])
    ensures End(s) !in h
  {
    var all := h + [p];
    assert all[..|all| - 1] == h;
    forall k | 0 <= k < |h| ensures h[k] != End(s) {
      assert all[k] == h[k];
    }
  }

  /** After an end packet nothing more comes for the stream. */
  lemma NothingAfterEnd(s: StreamId, before: seq<Packet>, p: Packet)
    requires Grammar(s, Of(before + [p], s)) && About(p, s)
    ensures End(s) !in before
  {
    Append(before, p, s);
    EndIsLast(s, Of(before, s), p);
    OfMembers(before, s);
  }

  // ----- changes that leave the invariant alone -----

  /** `next` differs from `conns` in queues, and in readers that came closer to their end. */
  ghost predicate Older(conns: seq<Conn>, next: seq<Conn>) {
    && |next| == |conns|
    && forall i :: 0 <= i < |conns| ==>
         next[i].stream == conns[i].stream && (Alive(next[i]) ==> Alive(conns[i]))
  }

  lemma OlderKept(cl: Client, next: Client, taken: seq<Packet>)
    requires LocalOk(cl, taken) && Older(cl.conns, next.conns)
    requires next.streams == cl.streams && next.handler == cl.handler && next.closers == cl.closers
    ensures LocalOk(next, taken)
  {
  }

  /** One more packet taken, with the handler idle until then. */
  lemma TakeKept(cl: Client, next: Client, taken: seq<Packet>, p: Packet)
    requires LocalOk(cl, taken) && cl.handler == Idle
    requires next.streams == cl.streams && next.conns == cl.conns
    requires next.closers == cl.closers + (if p.End? then [Closer(p.sid, CloserLooking)] else [])
    requires HandlerOk(cl.streams, cl.conns, next.handler, taken + [p]) && !next.handler.Inserting?
    ensures LocalOk(next, taken + [p])
  {
  }

  /** Two unfinished readers of one stream are the same reader. */
  lemma OneReader(cl: Client, taken: seq<Packet>, i: nat, j: nat)
    requires LocalOk(cl, taken)
    requires i < |cl.conns| && j < |cl.conns|
    requires Alive(cl.conns[i]) && Alive(cl.conns[j]) && cl.conns[i].stream == cl.conns[j].stream
    ensures i == j
  {
  }

  // ----- steps -----

  /** Data the handler takes belongs to a stream that has not ended. */
  lemma TakesCurrent(st: State, taken: seq<Packet>, p: Packet)
    requires LinksOk(st) && TasksOk(st) && st.down.taken == taken + [p] && p.Data?
    ensures Current(st.down.taken, p.sid, p.data)
  {
    TakenFollowsGrammar(st, p.sid);
    NothingAfterEnd(p.sid, taken, p);
    assert End(p.sid) != p;
  }

  /** What taking a packet does, by the packet. */
  lemma TakeFrame(st: State, p: Packet)
    requires CanHandle(st) && st.client.handler == Idle && Deserialize(st.down.wire[0]) == Ok(p)
    ensures var next := DoHandler(st);
            && next.server == st.server && next.down == Receive(st.down)
            && next.client.streams == st.client.streams && next.client.conns == st.client.conns
            && next.client.closers == st.client.closers + (if p.End? then [Closer(p.sid, CloserLooking)] else [])
            && next.up == (if p.Ping? then Send(st.up, Ping(None)) else st.up)
            && next.client.token == (if p.Ping? && p.token.Some? then p.token else st.client.token)
            && next.client.handler ==
               if p.Data? then Looking(p.sid, p.data) else if p.Refused? then Halted([], EMPTY_STREAM) else Idle
  {
  }

  lemma HandlerTakes(st: State)
    requires LinksOk(st) && ClientOk(st) && CanHandle(st) && st.client.handler == Idle
    requires LinksOk(DoHandler(st)) && TasksOk(DoHandler(st))
    ensures ClientOk(DoHandler(st))
  {
    ReceiveValid(st.down);
    var p := Deserialize(st.down.wire[0]).value;
    TakeFrame(st, p);
    if p.Data? {
      TakesCurrent(DoHandler(st), st.down.taken, p);
    }
    TakeKept(st.client, DoHandler(st).client, st.down.taken, p);
  }

  lemma HandlerInserts(cl: Client, next: Client, taken: seq<Packet>)
    requires LocalOk(cl, taken) && cl.handler.Inserting?
    requires next.streams == cl.streams[cl.handler.sid := cl.handler.conn]
    requires next.closers == cl.closers && next.handler == Finding(cl.handler.sid, cl.handler.data)
    requires Older(cl.conns, next.conns)
    ensures LocalOk(next, taken)
  {
  }

  lemma HandlerMoves(st: State)
    requires ClientOk(st) && CanHandle(st) && st.client.handler != Idle
    ensures ClientOk(DoHandler(st))
  {
    var cl, next := st.client, DoHandler(st).client;
    match cl.handler {
      case Inserting(_, _, _) => HandlerInserts(cl, next, st.down.taken);
      case Pushing(_, _, _) => OlderKept(cl, next.(handler := cl.handler), st.down.taken);
      case _ =>
    }
  }

  lemma ConnectKeepsClient(st: State, outcome: ConnectOutcome)
    requires ClientOk(st) && CanConnect(st)
    ensures ClientOk(DoConnect(st, outcome))
  {
  }

  lemma HaltKeepsClient(st: State)
    requires ClientOk(st) && (st.client.handler == Idle || st.client.handler.Connecting?)
    ensures ClientOk(DoHalt(st))
  {
  }

  /** Taking a stream off the map is harmless when no other unfinished reader depends on it. */
  lemma RemovalKept(cl: Client, next: Client, taken: seq<Packet>, sid: StreamId)
    requires LocalOk(cl, taken) && Older(cl.conns, next.conns)
    requires next.streams == cl.streams - {sid} && next.handler == cl.handler && next.closers == cl.closers
    requires End(sid) in taken
             || forall i :: 0 <= i < |next.conns| && Alive(next.conns[i]) ==> next.conns[i].stream != sid
    ensures LocalOk(next, taken)
  {
  }

  lemma CloserKeepsClient(st: State, k: nat)
    requires ClientOk(st) && CanClose(st, k)
    ensures ClientOk(DoCloser(st, k))
  {
    var cl, next := st.client, DoCloser(st, k).client;
    var sid := cl.closers[k].sid;
    assert CloserOk(cl.streams, cl.conns, st.down.taken, cl.closers[k]);
    RemovalKept(cl, cl.(streams := cl.streams - {sid}), st.down.taken, sid);
    OlderKept(cl, next.(streams := cl.streams, closers := cl.closers), st.down.taken);
    forall j | 0 <= j < |next.closers|
      ensures CloserOk(next.streams, next.conns, st.down.taken, next.closers[j])
    {
      assert CloserOk(cl.streams, cl.conns, st.down.taken, cl.closers[j]);
    }
  }

  lemma LocalReadKeepsClient(st: State, i: nat, outcome: ReadOutcome)
    requires ClientOk(st) && CanLocalRead(st, i, outcome)
    ensures ClientOk(DoLocalRead(st, i, outcome))
  {
    OlderKept(st.client, DoLocalRead(st, i, outcome).client, st.down.taken);
  }

  lemma LocalKeepsClient(st: State, i: nat)
    requires ClientOk(st) && CanLocal(st, i)
    ensures ClientOk(DoLocal(st, i))
  {
    var cl, next := st.client, DoLocal(st, i).client;
    var sid := cl.conns[i].stream;
    if cl.conns[i].reader == LocalEof {
      forall j | 0 <= j < |next.conns| && Alive(next.conns[j]) ensures next.conns[j].stream != sid {
        if cl.conns[j].stream == sid {
          OneReader(cl, st.down.taken, i, j);
        }
      }
      RemovalKept(cl, next, st.down.taken, sid);
    } else {
      OlderKept(cl, next, st.down.taken);
    }
  }

  lemma ForwardKeepsClient(st: State, i: nat, count: nat)
    requires ClientOk(st) && CanForward(st, i, count)
    ensures ClientOk(DoForward(st, i, count))
  {
  }
}
