/** The inductive invariant of the tunnel: it holds at the start and every step keeps it. */
module TunnelInvariant {
  import opened Wrappers
  import opened ControlPacket
  import Projection
  import opened Pipe
  import opened TunnelState
  import opened TunnelServer
  import opened TunnelClient
  import opened TunnelFlow
  import opened TunnelReturn
  import opened TunnelTraffic

  ghost predicate Inv(st: State) {
    && LinksOk(st)
    && TasksOk(st)
    && ClientOk(st)
    && FlowOk(st)
    && AnswersOk(st)
    && ReturnOk(st)
    && TrafficOk(st)
  }

  lemma StartInv(anonymous: bool)
    ensures Inv(Start(anonymous))
  {
  }

  /** The parts of the invariant that no server task touches. */
  lemma ClientUntouched(st: State, next: State)
    requires ClientOk(st) && FlowOk(st) && AnswersOk(st)
    requires next.client == st.client && next.down.taken == st.down.taken && Sent(next.up) == Sent(st.up)
    ensures ClientOk(next) && FlowOk(next) && AnswersOk(next)
  {
  }

  /** The parts of the invariant that no client task touches. */
  lemma ServerUntouched(st: State, next: State)
    requires TasksOk(st) && ReturnOk(st)
    requires next.server == st.server && Sent(next.down) == Sent(st.down) && next.up.taken == st.up.taken
    ensures TasksOk(next) && ReturnOk(next)
  {
  }

  lemma AcceptKeeps(st: State, sid: StreamId)
    requires Inv(st) && sid !in st.server.streams
    ensures Inv(DoAccept(st, sid))
  {
    forall p | p in st.up.taken ensures !Projection.About(p, sid) {
      TakenWasSent(st.up, p);
      assert UpPacket(st.server.streams.Keys, p);
    }
    Projection.OfNone(st.up.taken, sid);
    Projection.DataOfOf(st.up.taken, sid);
    AcceptKeepsReturn(st, sid);
    AcceptKeepsGrammar(st, sid);
    OneStreamTraffic(st, DoAccept(st, sid), sid);
    ClientUntouched(st, DoAccept(st, sid));
  }

  lemma TaskKeeps(st: State, sid: StreamId)
    requires Inv(st) && CanTask(st, sid)
    ensures Inv(DoTask(st, sid))
  {
    DownSends(st, sid);
    TaskKeepsGrammar(st, sid);
    TaskKeepsReturn(st, sid);
    TaskKeepsTraffic(st, sid);
    ClientUntouched(st, DoTask(st, sid));
  }

  /** A read changes one stream's task and the history of what was read. */
  lemma ReadFrame(st: State, sid: StreamId, outcome: ReadOutcome)
    requires CanRead(st, sid, outcome)
    ensures var next := DoTaskRead(st, sid, outcome);
            && next.down == st.down && next.up == st.up && next.client == st.client
            && sid in next.server.streams
            && next.server.streams == st.server.streams[sid := next.server.streams[sid]]
            && next.server.reader == st.server.reader && next.server.writer == st.server.writer
            && next.server.anonymous == st.server.anonymous
  {
  }

  lemma TaskReadKeeps(st: State, sid: StreamId, outcome: ReadOutcome)
    requires Inv(st) && CanRead(st, sid, outcome)
    ensures Inv(DoTaskRead(st, sid, outcome))
  {
    var next := DoTaskRead(st, sid, outcome);
    ReadFrame(st, sid, outcome);
    ReadKeepsGrammar(st, sid, outcome);
    TaskReadKeepsReturn(st, sid, outcome);
    OneStreamTraffic(st, next, sid);
    ClientUntouched(st, next);
  }

  lemma SinkKeeps(st: State, sid: StreamId, count: nat)
    requires Inv(st) && CanSink(st, sid, count)
    ensures Inv(DoSink(st, sid, count))
  {
    PumpOk(st.server.streams[sid], count);
    OthersKeepGrammar(st, DoSink(st, sid, count));
    SinkKeepsReturn(st, sid, count);
    OneStreamTraffic(st, DoSink(st, sid, count), sid);
    ClientUntouched(st, DoSink(st, sid, count));
  }

  /** The reader never moves another task, and leaves the client alone. */
  ghost predicate ReaderLeaves(st: State, next: State) {
    && next.server.streams.Keys == st.server.streams.Keys
    && (forall s :: s in st.server.streams ==>
          s in next.server.streams && next.server.streams[s].task == st.server.streams[s].task)
    && next.server.received == st.server.received
    && next.client == st.client && next.down.taken == st.down.taken
  }

  lemma ReaderTakesAlone(st: State)
    requires CanReader(st) && st.server.reader == Awaiting
    ensures ReaderLeaves(st, DoReader(st))
  {
  }

  lemma ReaderRoutesAlone(st: State)
    requires TrafficOk(st) && CanReader(st) && st.server.reader != Awaiting
    ensures ReaderLeaves(st, DoReader(st))
  {
    ReaderRoutes(st);
  }

  lemma ReaderStreams(st: State)
    requires TrafficOk(st) && CanReader(st)
    ensures ReaderLeaves(st, DoReader(st))
  {
    if st.server.reader == Awaiting {
      ReaderTakesAlone(st);
    } else {
      ReaderRoutesAlone(st);
    }
  }

  lemma ReaderKeeps(st: State)
    requires Inv(st) && CanReader(st)
    ensures Inv(DoReader(st))
  {
    ReaderKeepsLinks(st);
    ReaderStreams(st);
    OthersKeepGrammar(st, DoReader(st));
    ReaderKeepsReturn(st);
    ReaderKeepsTraffic(st);
    ClientUntouched(st, DoReader(st));
  }

  /** A server step that only closes the channel, moves its writer or touches its own counter. */
  lemma BookkeepingKeeps(st: State, next: State)
    requires Inv(st) && LinksOk(next)
    requires next.client == st.client && next.up == st.up
    requires Sent(next.down) == Sent(st.down) && next.down.taken == st.down.taken
    requires next.server.streams == st.server.streams && next.server.active == st.server.active
    requires next.server.received == st.server.received && next.server.anonymous == st.server.anonymous
    requires next.server.reader == st.server.reader || (st.server.reader == Awaiting && next.server.reader == Dropping)
    ensures Inv(next)
  {
    OthersKeepGrammar(st, next);
    ReaderMoved(st, next);
    ClientUntouched(st, next);
    forall s: StreamId ensures Routed(next.server.reader, s) == Routed(st.server.reader, s) {
    }
  }

  lemma PingKeeps(st: State, token: Option<string>)
    requires Inv(st) && CanPing(st, token)
    ensures Inv(DoPing(st, token))
  {
    PingKeepsLinks(st, token);
    PingKeepsGrammar(st, token);
    PingKeepsTraffic(st, token);
    ClientUntouched(st, DoPing(st, token));
  }

  lemma HandlerKeepsServer(st: State)
    requires LinksOk(st) && TasksOk(st) && ReturnOk(st) && CanHandle(st)
    ensures LinksOk(DoHandler(st)) && TasksOk(DoHandler(st)) && ReturnOk(DoHandler(st))
  {
    HandlerKeepsLinks(st);
    ServerUntouched(st, DoHandler(st));
  }

  lemma HandlerKeeps(st: State)
    requires Inv(st) && CanHandle(st)
    ensures Inv(DoHandler(st))
  {
    HandlerKeepsServer(st);
    HandlerKeepsTraffic(st);
    HandlerKeepsFlow(st);
    HandlerKeepsAnswers(st);
    if st.client.handler == Idle {
      HandlerTakes(st);
    } else {
      HandlerMoves(st);
    }
  }

  lemma ConnectKeeps(st: State, outcome: ConnectOutcome)
    requires Inv(st) && CanConnect(st)
    ensures Inv(DoConnect(st, outcome))
  {
    SendValid(st.up, Refused(st.client.handler.sid));
    ConnectKeepsClient(st, outcome);
    ConnectKeepsFlow(st, outcome);
    ConnectKeepsAnswers(st, outcome);
    ConnectKeepsTraffic(st, outcome);
    ServerUntouched(st, DoConnect(st, outcome));
  }

  lemma HaltKeeps(st: State)
    requires Inv(st) && (st.client.handler == Idle || st.client.handler.Connecting?)
    ensures Inv(DoHalt(st))
  {
    HaltKeepsClient(st);
    HaltKeepsFlow(st);
    AnswersSame(st.client, DoHalt(st).client, Sent(st.up), []);
    assert Sent(st.up) + [] == Sent(st.up);
    ServerUntouched(st, DoHalt(st));
  }

  lemma CloserKeeps(st: State, k: nat)
    requires Inv(st) && CanClose(st, k)
    ensures Inv(DoCloser(st, k))
  {
    CloserKeepsClient(st, k);
    CloserKeepsFlow(st, k);
    CloserKeepsAnswers(st, k);
    CloserKeepsTraffic(st, k);
    ServerUntouched(st, DoCloser(st, k));
  }

  lemma LocalReadKeeps(st: State, i: nat, outcome: ReadOutcome)
    requires Inv(st) && CanLocalRead(st, i, outcome)
    ensures Inv(DoLocalRead(st, i, outcome))
  {
    LocalReadKeepsClient(st, i, outcome);
    LocalReadKeepsFlow(st, i, outcome);
    LocalReadKeepsAnswers(st, i, outcome);
    LocalReadKeepsTraffic(st, i, outcome);
    ServerUntouched(st, DoLocalRead(st, i, outcome));
  }

  lemma LocalKeeps(st: State, i: nat)
    requires Inv(st) && CanLocal(st, i)
    ensures Inv(DoLocal(st, i))
  {
    LocalKeepsLinks(st, i);
    LocalKeepsClient(st, i);
    LocalKeepsFlow(st, i);
    LocalKeepsAnswers(st, i);
    LocalKeepsTraffic(st, i);
    ServerUntouched(st, DoLocal(st, i));
  }

  lemma ForwardKeeps(st: State, i: nat, count: nat)
    requires Inv(st) && CanForward(st, i, count)
    ensures Inv(DoForward(st, i, count))
  {
    ForwardKeepsClient(st, i, count);
    ForwardKeepsFlow(st, i, count);
    ForwardKeepsAnswers(st, i, count);
    ForwardKeepsTraffic(st, i, count);
    ServerUntouched(st, DoForward(st, i, count));
  }

  /** A step of the client's websocket writer. */
  lemma UplinkKeeps(st: State, up: Link)
    requires Inv(st) && Valid(up) && Sent(up) == Sent(st.up) && up.taken == st.up.taken
    ensures Inv(st.(up := up))
  {
  }

  lemma WriterKeeps(st: State)
    requires Inv(st) && CanWriter(st)
    ensures Inv(DoWriter(st))
  {
    WriterKeepsLinks(st);
    BookkeepingKeeps(st, DoWriter(st));
  }

  /** The reader meets the end of its websocket, or the writer a dead one: the channel is closed. */
  lemma ShutKeeps(st: State, next: State)
    requires Inv(st) && next.down == Shut(st.down) && next.up == st.up && next.client == st.client
    requires || (st.server.reader == Awaiting && next.server == st.server.(reader := Dropping))
             || (st.server.writer == Draining && next.server == st.server.(writer := Disconnecting))
    ensures Inv(next)
  {
    ShutValid(st.down);
    BookkeepingKeeps(st, next);
  }

  lemma ServerStepKeeps(st: State, a: Action)
    requires Inv(st) && Enabled(st, a)
    requires ServerSide(a)
    ensures Inv(Apply(st, a))
  {
    match a {
      case Accept(sid) => AcceptKeeps(st, sid);
      case TaskStep(sid) => TaskKeeps(st, sid);
      case TaskRead(sid, outcome) => TaskReadKeeps(st, sid, outcome);
      case SinkStep(sid, count) => SinkKeeps(st, sid, count);
      case ReaderStep => ReaderKeeps(st);
      case ReaderHangup => ShutKeeps(st, Apply(st, a));
      case WriterStep => WriterKeeps(st);
      case WriterFail => ShutKeeps(st, Apply(st, a));
      case PingStep(token) => PingKeeps(st, token);
    }
  }

  lemma StepKeeps(st: State, a: Action)
    requires Inv(st) && Enabled(st, a)
    ensures Inv(Apply(st, a))
  {
    match a {
      case HandlerStep => HandlerKeeps(st);
      case HandlerConnect(outcome) => ConnectKeeps(st, outcome);
      case HandlerHalt => HaltKeeps(st);
      case CloserStep(k) => CloserKeeps(st, k);
      case LocalRead(i, outcome) => LocalReadKeeps(st, i, outcome);
      case LocalStep(i) => LocalKeeps(st, i);
      case ForwardStep(i, count) => ForwardKeeps(st, i, count);
      case UplinkStep => UplinkKeepsLinks(st); UplinkKeeps(st, Apply(st, a).up);
      case UplinkFail => AbortValid(st.up); UplinkKeeps(st, Apply(st, a).up);
      case _ => ServerStepKeeps(st, a);
    }
  }

  lemma {:induction false} RunKeeps(from: State, actions: seq<Action>)
    requires Inv(from) && Run(from, actions).Some?
    ensures Inv(Run(from, actions).value)
  {
    if actions != [] {
      RunKeeps(from, actions[..|actions| - 1]);
      StepKeeps(Run(from, actions[..|actions| - 1]).value, actions[|actions| - 1]);
    }
  }

  /** Every reachable state satisfies the invariant. */
  lemma ReachableInv(st: State)
    requires Reachable(st)
    ensures Inv(st)
  {
    var anonymous: bool, actions: seq<Action> :| Run(Start(anonymous), actions) == Some(st);
    StartInv(anonymous);
    RunKeeps(Start(anonymous), actions);
  }
}
