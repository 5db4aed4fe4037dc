/** The signals that end things: the not-found and refused terminators of a remote stream, and the
    close of a local connection. Each is given only for its reason. */
module TunnelSignals {
  import opened Wrappers
  import Utf8
  import opened ControlPacket
  import opened Projection
  import Pipe
  import opened TunnelState
  import opened TunnelServer
  import opened TunnelClient
  import TunnelReturn
  import TunnelTraffic
  import opened TunnelInvariant
  import R = RemoteSink

  // ----- client gone -----

  /** The not-found terminator comes from a task that found the client unregistered, as its last
      message but for closing the queue. */
  ghost predicate NotFoundOk(r: Remote, closed: bool) {
    && (r.task == Abandoning || r.task == Shutting ==> closed)
    && (R.NoClientTunnel in r.posted ==> closed && (r.task == Shutting || r.task == Returned))
    && (r.task == Shutting ==> R.NoClientTunnel in r.posted || !r.open)
  }

  ghost predicate GoneOk(sv: Server, closed: bool) {
    && (!sv.registered ==> closed)
    && forall s :: s in sv.streams ==> NotFoundOk(sv.streams[s], closed)
  }

  // ----- refusals -----

  ghost predicate RefusedOk(sv: Server, taken: seq<Packet>) {
    && (forall s :: s in sv.streams && R.TunnelRefused in sv.streams[s].posted ==> Refused(s) in taken)
    && (sv.reader.Routing? || sv.reader.Delivering? ==>
          && sv.reader.message != R.NoClientTunnel
          && (sv.reader.message == R.TunnelRefused ==> Refused(sv.reader.sid) in taken))
  }

  ghost predicate SkipsOk(cl: Client, log: seq<Packet>) {
    forall p :: p in cl.skipped ==> p.Data? && Refused(p.sid) in log
  }

  // ----- ends -----

  /** The streams whose end packets a log holds, in order. */
  function EndsOf(log: seq<Packet>): seq<StreamId> {
    if log == [] then []
    else
      var last := log[|log| - 1];
      EndsOf(log[..|log| - 1]) + (if last.End? then [last.sid] else [])
  }

  function Sids(closers: seq<Closer>): seq<StreamId> {
    seq(|closers|, k requires 0 <= k < |closers| => closers[k].sid)
  }

  ghost predicate CloseOk(cl: Client, taken: seq<Packet>) {
    && Sids(cl.closers) == EndsOf(taken)
    && (forall i :: 0 <= i < |cl.conns| && Close in cl.conns[i].queue ==> End(cl.conns[i].stream) in taken)
    && (forall k :: 0 <= k < |cl.closers| && cl.closers[k].pc.CloserWaiting? && cl.closers[k].pc.conn < |cl.conns|
                    ==> cl.conns[cl.closers[k].pc.conn].stream == cl.closers[k].sid)
  }

  ghost predicate Signals(st: State) {
    && GoneOk(st.server, st.down.closed)
    && RefusedOk(st.server, st.up.taken)
    && SkipsOk(st.client, st.up.log)
    && CloseOk(st.client, st.down.taken)
  }

  // ----- server steps -----

  /** A step that changes one stream of the server and no client state. */
  lemma OneStreamSignals(st: State, next: State, sid: StreamId)
    requires Signals(st) && sid in st.server.streams && sid in next.server.streams
    requires next.server.streams == st.server.streams[sid := next.server.streams[sid]]
    requires next.client == st.client && next.up == st.up && next.down.taken == st.down.taken
    requires next.server.reader == st.server.reader
    requires (st.down.closed ==> next.down.closed) && (!next.server.registered ==> next.down.closed)
    requires NotFoundOk(next.server.streams[sid], next.down.closed)
    requires R.TunnelRefused in next.server.streams[sid].posted ==> R.TunnelRefused in st.server.streams[sid].posted
    ensures Signals(next)
  {
  }

  /** A task step changes its stream, the downward link and the registration, closing first. */
  lemma TaskShape(st: State, sid: StreamId)
    requires CanTask(st, sid)
    ensures var next := DoTask(st, sid);
            && sid in next.server.streams
            && next.server.streams == st.server.streams[sid := next.server.streams[sid]]
            && next.client == st.client && next.up == st.up && next.down.taken == st.down.taken
            && next.server.reader == st.server.reader
            && (st.down.closed ==> next.down.closed)
            && (next.server.registered == st.server.registered || next.down.closed)
  {
  }

  lemma TaskNotFound(st: State, sid: StreamId)
    requires CanTask(st, sid) && NotFoundOk(st.server.streams[sid], st.down.closed)
    requires !st.server.registered ==> st.down.closed
    ensures NotFoundOk(DoTask(st, sid).server.streams[sid], DoTask(st, sid).down.closed)
    ensures R.TunnelRefused in DoTask(st, sid).server.streams[sid].posted ==>
              R.TunnelRefused in st.server.streams[sid].posted
  {
  }

  lemma TaskSignals(st: State, sid: StreamId)
    requires Signals(st) && CanTask(st, sid)
    ensures Signals(DoTask(st, sid))
  {
    TaskShape(st, sid);
    TaskNotFound(st, sid);
    OneStreamSignals(st, DoTask(st, sid), sid);
  }

  lemma TaskReadSignals(st: State, sid: StreamId, outcome: ReadOutcome)
    requires Signals(st) && CanRead(st, sid, outcome)
    ensures Signals(DoTaskRead(st, sid, outcome))
  {
    assert NotFoundOk(st.server.streams[sid], st.down.closed);
    ReadFrame(st, sid, outcome);
    OneStreamSignals(st, DoTaskRead(st, sid, outcome), sid);
  }

  lemma SinkSignals(st: State, sid: StreamId, count: nat)
    requires TunnelReturn.ReturnOk(st) && Signals(st) && CanSink(st, sid, count)
    ensures Signals(DoSink(st, sid, count))
  {
    assert NotFoundOk(st.server.streams[sid], st.down.closed);
    TunnelReturn.PumpOk(st.server.streams[sid], count);
    OneStreamSignals(st, DoSink(st, sid, count), sid);
  }

  lemma ReaderTakesSignals(st: State)
    requires LinksOk(st) && Signals(st) && CanReader(st) && st.server.reader == Awaiting
    ensures Signals(DoReader(st))
  {
    Pipe.ReceiveValid(st.up);
    var next := DoReader(st);
    assert next.server.streams == st.server.streams && next.up.log == st.up.log;
    forall s | s in next.server.streams ensures NotFoundOk(next.server.streams[s], next.down.closed) {
      assert NotFoundOk(st.server.streams[s], st.down.closed);
    }
  }

  /** One stream's view of a message the reader hands over or drops. */
  lemma PostSignals(r: Remote, closed: bool, m: R.StreamMessage)
    requires NotFoundOk(r, closed) && m != R.NoClientTunnel
    ensures NotFoundOk(Post(r, m), closed)
    ensures R.TunnelRefused in Post(r, m).posted ==> R.TunnelRefused in r.posted || m == R.TunnelRefused
  {
  }

  /** What routing does to one stream: it may post the message, or count it as dropped. */
  lemma RoutedStream(st: State, s: StreamId)
    requires CanReader(st) && st.server.reader != Awaiting && s in DoReader(st).server.streams
    ensures s in st.server.streams && DoReader(st).up == st.up && (st.down.closed ==> DoReader(st).down.closed)
    ensures var reader, r, next := st.server.reader, st.server.streams[s], DoReader(st).server.streams[s];
            || next == r.(dropped := next.dropped)
            || (reader.Delivering? && reader.sid == s && next == Post(r, reader.message))
  {
  }

  lemma ReaderRoutesSignals(st: State)
    requires Signals(st) && CanReader(st) && st.server.reader != Awaiting
    ensures Signals(DoReader(st))
  {
    var sv, next := st.server, DoReader(st);
    forall s | s in next.server.streams
      ensures NotFoundOk(next.server.streams[s], next.down.closed)
      ensures R.TunnelRefused in next.server.streams[s].posted ==> Refused(s) in next.up.taken
    {
      RoutedStream(st, s);
      assert NotFoundOk(sv.streams[s], st.down.closed);
      if sv.reader.Delivering? && sv.reader.sid == s {
        PostSignals(sv.streams[s], st.down.closed, sv.reader.message);
      }
    }
  }

  lemma ReaderSignals(st: State)
    requires LinksOk(st) && Signals(st) && CanReader(st)
    ensures Signals(DoReader(st))
  {
    if st.server.reader == Awaiting {
      ReaderTakesSignals(st);
    } else {
      ReaderRoutesSignals(st);
    }
  }

  /** A step that touches neither streams nor client, and unregisters only after closing. */
  lemma PlainServerSignals(st: State, next: State)
    requires Signals(st) && next.client == st.client && next.up == st.up && next.down.taken == st.down.taken
    requires next.server.streams == st.server.streams
    requires (st.down.closed ==> next.down.closed) && (!next.server.registered ==> next.down.closed)
    requires next.server.reader == st.server.reader || next.server.reader == Dropping
    ensures Signals(next)
  {
  }

  lemma AcceptSignals(st: State, sid: StreamId)
    requires Signals(st) && sid !in st.server.streams
    ensures Signals(DoAccept(st, sid))
  {
  }

  // ----- client steps -----

  /** A client step that sends up at most one packet and keeps closers and close messages. */
  lemma ClientSignals(st: State, next: State)
    requires Signals(st) && next.server == st.server && next.down == st.down
    requires next.up.taken == st.up.taken && st.up.log <= next.up.log
    requires next.client.skipped == st.client.skipped && CloseOk(next.client, st.down.taken)
    ensures Signals(next)
  {
  }

  lemma HandlerTakesSignals(st: State)
    requires LinksOk(st) && TasksOk(st) && Signals(st) && CanHandle(st) && st.client.handler == Idle
    ensures Signals(DoHandler(st))
  {
    TunnelTraffic.HandlerTakesKnown(st);
    var p := Deserialize(st.down.wire[0]).value;
    var next := DoHandler(st);
    TakeFrame(st, p);
    assert (st.down.taken + [p])[..|st.down.taken|] == st.down.taken;
    if p.End? {
      assert Sids(st.client.closers + [Closer(p.sid, CloserLooking)]) == Sids(st.client.closers) + [p.sid];
    }
    CloseTaken(st.client, next.client, st.down.taken, p);
    assert st.up.log <= next.up.log;
  }

  lemma CloseTaken(cl: Client, next: Client, taken: seq<Packet>, p: Packet)
    requires CloseOk(cl, taken) && next.conns == cl.conns
    requires next.closers == cl.closers + (if p.End? then [Closer(p.sid, CloserLooking)] else [])
    ensures CloseOk(next, taken + [p])
  {
    assert (taken + [p])[..|taken|] == taken;
    assert Sids(next.closers) == Sids(cl.closers) + (if p.End? then [p.sid] else []);
  }

  lemma HandlerSignals(st: State)
    requires LinksOk(st) && TasksOk(st) && Signals(st) && CanHandle(st)
    ensures Signals(DoHandler(st))
  {
    if st.client.handler == Idle {
      HandlerTakesSignals(st);
    } else {
      HandlerMovesSignals(st);
    }
  }

  lemma SkipSignals(st: State, next: State, sid: StreamId, data: seq<Utf8.Byte>)
    requires Signals(st) && next.server == st.server && next.down == st.down
    requires next.up.taken == st.up.taken && next.up.log == st.up.log + [Refused(sid)]
    requires next.client.skipped == st.client.skipped + [Data(sid, data)]
    requires next.client.conns == st.client.conns && next.client.closers == st.client.closers
    ensures Signals(next)
  {
  }

  /** A change of connections that leaves streams and close messages as they were. */
  ghost predicate SameCloses(conns: seq<Conn>, next: seq<Conn>) {
    && |next| == |conns|
    && forall i :: 0 <= i < |conns| ==>
         next[i].stream == conns[i].stream && (Close in next[i].queue ==> Close in conns[i].queue)
  }

  lemma SameClosesOk(cl: Client, next: Client, taken: seq<Packet>)
    requires CloseOk(cl, taken) && SameCloses(cl.conns, next.conns) && next.closers == cl.closers
    ensures CloseOk(next, taken)
  {
  }

  lemma HandlerMovesSignals(st: State)
    requires Signals(st) && CanHandle(st) && st.client.handler != Idle
    ensures Signals(DoHandler(st))
  {
    var cl, next := st.client, DoHandler(st);
    if cl.handler.Finding? && cl.handler.sid !in cl.streams && !st.up.closed {
      SkipSignals(st, next, cl.handler.sid, cl.handler.data);
    } else {
      SameClosesOk(cl, next.client, st.down.taken);
      ClientSignals(st, next);
    }
  }

  /** A close task tells the connection it found to close; its stream has ended. */
  lemma CloserTells(cl: Client, next: Client, taken: seq<Packet>, k: nat)
    requires CloseOk(cl, taken) && k < |cl.closers| && End(cl.closers[k].sid) in taken
    requires |next.closers| == |cl.closers| && |next.conns| == |cl.conns|
    requires forall j :: 0 <= j < |cl.closers| ==> next.closers[j].sid == cl.closers[j].sid
    requires forall j :: 0 <= j < |cl.closers| && j != k ==> next.closers[j] == cl.closers[j]
    requires next.closers[k].pc.CloserWaiting? && next.closers[k].pc.conn < |cl.conns| ==>
               cl.conns[next.closers[k].pc.conn].stream == cl.closers[k].sid
    requires forall i :: 0 <= i < |cl.conns| ==> next.conns[i].stream == cl.conns[i].stream
    requires forall i :: 0 <= i < |cl.conns| && cl.closers[k].pc != CloserWaiting(i) ==> next.conns[i] == cl.conns[i]
    ensures CloseOk(next, taken)
  {
  }

  lemma CloserSignals(st: State, k: nat)
    requires ClientOk(st) && Signals(st) && CanClose(st, k)
    ensures Signals(DoCloser(st, k))
  {
    assert CloserOk(st.client.streams, st.client.conns, st.down.taken, st.client.closers[k]);
    CloserTells(st.client, DoCloser(st, k).client, st.down.taken, k);
    ClientSignals(st, DoCloser(st, k));
  }

  lemma LocalReadSignals(st: State, i: nat, outcome: ReadOutcome)
    requires Signals(st) && CanLocalRead(st, i, outcome)
    ensures Signals(DoLocalRead(st, i, outcome))
  {
  }

  lemma LocalSignals(st: State, i: nat)
    requires Signals(st) && CanLocal(st, i)
    ensures Signals(DoLocal(st, i))
  {
  }

  lemma ForwardSignals(st: State, i: nat, count: nat)
    requires Signals(st) && CanForward(st, i, count)
    ensures Signals(DoForward(st, i, count))
  {
  }

  lemma ConnectSignals(st: State, outcome: ConnectOutcome)
    requires ClientOk(st) && Signals(st) && CanConnect(st)
    ensures Signals(DoConnect(st, outcome))
  {
  }

  lemma WriterSignals(st: State)
    requires Signals(st) && CanWriter(st)
    ensures Signals(DoWriter(st))
  {
    PlainServerSignals(st, DoWriter(st));
  }

  lemma PingSignals(st: State, token: Option<string>)
    requires Signals(st) && CanPing(st, token)
    ensures Signals(DoPing(st, token))
  {
  }

  lemma HangupSignals(st: State)
    requires Signals(st) && st.server.reader == Awaiting
    ensures Signals(Apply(st, ReaderHangup))
  {
  }

  lemma WriterFailSignals(st: State)
    requires Signals(st) && Enabled(st, WriterFail)
    ensures Signals(Apply(st, WriterFail))
  {
  }

  lemma ServerStepSignals(st: State, a: Action)
    requires LinksOk(st) && TunnelReturn.ReturnOk(st) && Signals(st) && Enabled(st, a)
    requires ServerSide(a)
    ensures Signals(Apply(st, a))
  {
    match a {
      case Accept(sid) => AcceptSignals(st, sid);
      case TaskStep(sid) => TaskSignals(st, sid);
      case TaskRead(sid, outcome) => TaskReadSignals(st, sid, outcome);
      case SinkStep(sid, count) => SinkSignals(st, sid, count);
      case ReaderStep => ReaderSignals(st);
      case ReaderHangup => HangupSignals(st);
      case WriterStep => WriterSignals(st);
      case WriterFail => WriterFailSignals(st);
      case PingStep(token) => PingSignals(st, token);
    }
  }

  lemma HaltSignals(st: State)
    requires Signals(st) && Enabled(st, HandlerHalt)
    ensures Signals(DoHalt(st))
  {
  }

  lemma UplinkSignals(st: State, a: Action)
    requires Signals(st) && Enabled(st, a) && (a.UplinkStep? || a.UplinkFail?)
    ensures Signals(Apply(st, a))
  {
    ClientSignals(st, Apply(st, a));
  }

  lemma ClientStepSignals(st: State, a: Action)
    requires LinksOk(st) && TasksOk(st) && ClientOk(st) && Signals(st) && Enabled(st, a)
    requires !ServerSide(a)
    ensures Signals(Apply(st, a))
  {
    match a {
      case HandlerStep => HandlerSignals(st);
      case HandlerConnect(outcome) => ConnectSignals(st, outcome);
      case HandlerHalt => HaltSignals(st);
      case CloserStep(k) => CloserSignals(st, k);
      case LocalRead(i, outcome) => LocalReadSignals(st, i, outcome);
      case LocalStep(i) => LocalSignals(st, i);
      case ForwardStep(i, count) => ForwardSignals(st, i, count);
      case UplinkStep => UplinkSignals(st, a);
      case UplinkFail => UplinkSignals(st, a);
    }
  }

  lemma StepSignals(st: State, a: Action)
    requires Inv(st) && Signals(st) && Enabled(st, a)
    ensures Signals(Apply(st, a))
  {
    if ServerSide(a) {
      ServerStepSignals(st, a);
    } else {
      ClientStepSignals(st, a);
    }
  }

  lemma {:induction false} RunSignals(anonymous: bool, actions: seq<Action>)
    requires Run(Start(anonymous), actions).Some?
    ensures Inv(Run(Start(anonymous), actions).value) && Signals(Run(Start(anonymous), actions).value)
  {
    if actions == [] {
      StartInv(anonymous);
    } else {
      var most := actions[..|actions| - 1];
      RunSignals(anonymous, most);
      StepKeeps(Run(Start(anonymous), most).value, actions[|actions| - 1]);
      StepSignals(Run(Start(anonymous), most).value, actions[|actions| - 1]);
    }
  }

  lemma ReachableSignals(st: State)
    requires Reachable(st)
    ensures Inv(st) && Signals(st)
  {
    var anonymous: bool, actions: seq<Action> :| Run(Start(anonymous), actions) == Some(st);
    RunSignals(anonymous, actions);
  }

  // ----- results -----

  /** A client that is not registered has a closed channel, and a remote stream is told that its
      client is gone only then, by a task that reads and forwards nothing any more. */
  lemma NotFoundOnlyAfterRemoval(st: State, s: StreamId)
    requires Reachable(st)
    ensures !st.server.registered ==> st.down.closed
    ensures s in st.server.streams && R.NoClientTunnel in st.server.streams[s].posted ==>
              st.down.closed && (st.server.streams[s].task == Shutting || st.server.streams[s].task == Returned)
  {
    ReachableSignals(st);
    assert s in st.server.streams ==> NotFoundOk(st.server.streams[s], st.down.closed);
  }

  /** A remote stream is told that its tunnel was refused only if the client said so, and the client
      says so for every piece of data it puts aside to go on with the next packet. The piece in hand
      when the handler stops for good is not handed on and not put aside. */
  lemma RefusalsHaveReasons(st: State, s: StreamId)
    requires Reachable(st)
    ensures s in st.server.streams && R.TunnelRefused in st.server.streams[s].posted ==> Refused(s) in st.up.taken
    ensures forall p :: p in st.client.skipped ==> p.Data? && Refused(p.sid) in st.up.log
  {
    ReachableSignals(st);
  }

  lemma {:induction false} EndsOfMembers(log: seq<Packet>, s: StreamId)
    ensures s in EndsOf(log) <==> End(s) in log
  {
    if log != [] {
      EndsOfMembers(log[..|log| - 1], s);
      assert log == log[..|log| - 1] + [log[|log| - 1]];
    }
  }

  /** A log that follows the grammar ends each stream once. */
  lemma {:induction false} EndsDistinct(log: seq<Packet>, j: nat, k: nat)
    requires forall s: StreamId :: Grammar(s, Of(log, s))
    requires j < k < |EndsOf(log)|
    ensures EndsOf(log)[j] != EndsOf(log)[k]
  {
    var rest, last := log[..|log| - 1], log[|log| - 1];
    assert log == rest + [last];
    forall s: StreamId ensures Grammar(s, Of(rest, s)) {
      Append(rest, last, s);
      GrammarPrefix(s, Of(log, s), |Of(rest, s)|);
      assert Of(log, s)[..|Of(rest, s)|] == Of(rest, s);
    }
    if k < |EndsOf(rest)| {
      EndsDistinct(rest, j, k);
    } else {
      NothingAfterEnd(last.sid, rest, last);
      EndsOfMembers(rest, last.sid);
      assert EndsOf(rest)[j] in EndsOf(rest);
    }
  }

  /** No two close tasks serve one stream. */
  lemma ClosersDistinct(st: State, j: nat, k: nat)
    requires LinksOk(st) && TasksOk(st) && Signals(st)
    requires j < |st.client.closers| && k < |st.client.closers| && st.client.closers[j].sid == st.client.closers[k].sid
    ensures j == k
  {
    var taken, closers := st.down.taken, st.client.closers;
    assert Sids(closers)[j] == Sids(closers)[k] == closers[k].sid;
    forall t: StreamId ensures Grammar(t, Of(taken, t)) {
      TakenFollowsGrammar(st, t);
    }
    if j < k {
      EndsDistinct(taken, j, k);
    } else if k < j {
      EndsDistinct(taken, k, j);
    }
  }

  /** Exactly one close task is spawned for every stream whose end the client has taken. */
  lemma OneCloserPerEnd(st: State, s: StreamId)
    requires Reachable(st)
    ensures End(s) in st.down.taken <==> exists k :: 0 <= k < |st.client.closers| && st.client.closers[k].sid == s
    ensures forall j, k :: 0 <= j < k < |st.client.closers| ==> st.client.closers[j].sid != st.client.closers[k].sid
  {
    ReachableSignals(st);
    var closers := st.client.closers;
    EndsOfMembers(st.down.taken, s);
    assert s in Sids(closers) <==> exists k :: 0 <= k < |closers| && closers[k].sid == s by {
      if k :| 0 <= k < |closers| && closers[k].sid == s {
        assert Sids(closers)[k] == s;
      }
    }
    forall j, k | 0 <= j < k < |closers| ensures closers[j].sid != closers[k].sid {
      if closers[j].sid == closers[k].sid {
        ClosersDistinct(st, j, k);
      }
    }
  }

  /** No local connection is told to close before the client has taken its stream's end. */
  lemma ClosedOnlyAfterEnd(st: State, i: nat)
    requires Reachable(st) && i < |st.client.conns| && Close in st.client.conns[i].queue
    ensures End(st.client.conns[i].stream) in st.down.taken
  {
    ReachableSignals(st);
  }
}
