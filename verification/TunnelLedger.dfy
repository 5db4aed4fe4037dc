/** What the tunnel's books say at any moment: the sockets hold as many bytes as the writes of the run let
    through, nothing is lost unless a websocket write failed, the client keeps the last token it was
    sent, and what has left a map or ended is really gone. */
module TunnelLedger {
  import opened ControlPacket
  import Projection
  import Pipe
  import opened TunnelState
  import opened TunnelServer
  import opened TunnelReturn
  import opened TunnelInvariant
  import TunnelClient
  import TunnelSignals
  import TunnelTraffic
  import R = RemoteSink
  import W = Wrappers

  // ----- bytes in the sockets -----

  function SinkCountOf(a: Action, s: StreamId): nat {
    if a.SinkStep? && a.sid == s then a.count else 0
  }

  /** How many bytes the writes of a run let through to the remote socket of stream `s`. */
  function SinkCount(actions: seq<Action>, s: StreamId): nat {
    if actions == [] then 0 else SinkCount(actions[..|actions| - 1], s) + SinkCountOf(actions[|actions| - 1], s)
  }

  function ForwardCountOf(a: Action, i: nat): nat {
    if a.ForwardStep? && a.index == i then a.count else 0
  }

  /** And to local connection `i`. */
  function ForwardCount(actions: seq<Action>, i: nat): nat {
    if actions == [] then 0 else ForwardCount(actions[..|actions| - 1], i) + ForwardCountOf(actions[|actions| - 1], i)
  }

  /** Bytes the remote socket of a stream holds. */
  function Held(sv: Server, s: StreamId): nat {
    if s in sv.streams then |sv.streams[s].body| + |sv.streams[s].reply| else 0
  }

  function Written(cl: Client, i: nat): nat {
    if i < |cl.conns| then |cl.conns[i].written| else 0
  }

  lemma PumpCounts(r: Remote, count: nat)
    requires RemoteOk(r) && SinkReady(r) && count <= WriteSize(r)
    ensures |Pump(r, count).body| + |Pump(r, count).reply| == |r.body| + |r.reply| + count
  {
    if !R.Ends(r.eaten) {
      R.NoReplyWithoutEnd(r.eaten);
    }
  }

  lemma SinkCounts(st: State, sid: StreamId, count: nat, s: StreamId)
    requires ReturnOk(st) && CanSink(st, sid, count)
    ensures Held(DoSink(st, sid, count).server, s) == Held(st.server, s) + SinkCountOf(SinkStep(sid, count), s)
  {
    assert DeliveryOk(st.server.streams[sid], sid in st.server.active, Routed(st.server.reader, sid),
                      Projection.DataOf(st.up.taken, sid));
    PumpCounts(st.server.streams[sid], count);
  }

  lemma TaskCounts(st: State, sid: StreamId, s: StreamId)
    requires CanTask(st, sid)
    ensures Held(DoTask(st, sid).server, s) == Held(st.server, s)
  {
  }

  lemma ReaderCounts(st: State, s: StreamId)
    requires CanReader(st)
    ensures Held(DoReader(st).server, s) == Held(st.server, s)
  {
  }

  lemma AcceptCounts(st: State, sid: StreamId, s: StreamId)
    requires sid !in st.server.streams
    ensures Held(DoAccept(st, sid).server, s) == Held(st.server, s)
  {
  }

  lemma ReadCounts(st: State, sid: StreamId, outcome: ReadOutcome, s: StreamId)
    requires CanRead(st, sid, outcome)
    ensures Held(DoTaskRead(st, sid, outcome).server, s) == Held(st.server, s)
  {
  }

  /** The server's other tasks leave the streams alone. */
  predicate Quiet(a: Action) {
    a.ReaderHangup? || a.WriterStep? || a.WriterFail? || a.PingStep?
  }

  lemma QuietStreams(st: State, a: Action)
    requires Enabled(st, a) && Quiet(a)
    ensures Apply(st, a).server.streams == st.server.streams && Apply(st, a).server.active == st.server.active
  {
  }

  lemma ServerCounts(st: State, a: Action, s: StreamId)
    requires ReturnOk(st) && Enabled(st, a) && ServerSide(a)
    ensures Held(Apply(st, a).server, s) == Held(st.server, s) + SinkCountOf(a, s)
  {
    match a {
      case Accept(sid) => AcceptCounts(st, sid, s);
      case TaskRead(sid, outcome) => ReadCounts(st, sid, outcome, s);
      case SinkStep(sid, count) => SinkCounts(st, sid, count, s);
      case TaskStep(sid) => TaskCounts(st, sid, s);
      case ReaderStep => ReaderCounts(st, s);
      case _ => QuietStreams(st, a);
    }
  }

  lemma ServerLeavesClient(st: State, a: Action)
    requires Enabled(st, a) && ServerSide(a)
    ensures Apply(st, a).client == st.client
  {
  }

  lemma ClientCounts(st: State, a: Action, i: nat)
    requires Enabled(st, a) && !ServerSide(a)
    ensures Written(Apply(st, a).client, i) == Written(st.client, i) + ForwardCountOf(a, i)
    ensures Apply(st, a).server == st.server
  {
  }

  // ----- what is lost -----

  ghost predicate LossOk(actions: seq<Action>, st: State) {
    && (WriterFail !in actions ==> st.server.writer != Disconnecting && st.down.lost == [])
    && (UplinkFail !in actions ==> st.up.lost == [] && !st.up.closed)
  }

  lemma StepLoses(actions: seq<Action>, st: State, a: Action)
    requires LinksOk(st) && LossOk(actions, st) && Enabled(st, a)
    ensures LossOk(actions + [a], Apply(st, a))
  {
    if WriterFail !in actions + [a] {
      WriterLoses(st, a);
    }
    if UplinkFail !in actions + [a] {
      UplinkLoses(st, a);
    }
  }

  lemma DrainingLoses(st: State)
    requires LinksOk(st) && CanWriter(st) && st.server.writer != Disconnecting && st.down.lost == []
    ensures DoWriter(st).server.writer != Disconnecting && DoWriter(st).down.lost == []
  {
  }

  lemma OthersLose(st: State, a: Action)
    requires Enabled(st, a) && ServerSide(a) && a != WriterStep && a != WriterFail
    ensures Apply(st, a).server.writer == st.server.writer && Apply(st, a).down.lost == st.down.lost
  {
  }

  lemma ClientLoses(st: State, a: Action)
    requires Enabled(st, a) && !ServerSide(a)
    ensures Apply(st, a).server == st.server && Apply(st, a).down.lost == st.down.lost
  {
  }

  lemma WriterLoses(st: State, a: Action)
    requires LinksOk(st) && Enabled(st, a) && a != WriterFail
    requires st.server.writer != Disconnecting && st.down.lost == []
    ensures Apply(st, a).server.writer != Disconnecting && Apply(st, a).down.lost == []
  {
    if a == WriterStep {
      DrainingLoses(st);
    } else if ServerSide(a) {
      OthersLose(st, a);
    } else {
      ClientLoses(st, a);
    }
  }

  lemma UplinkLoses(st: State, a: Action)
    requires Enabled(st, a) && a != UplinkFail && st.up.lost == [] && !st.up.closed
    ensures Apply(st, a).up.lost == [] && !Apply(st, a).up.closed
  {
  }

  // ----- the token -----

  /** The token of the last ping that carried one. */
  function LastToken(log: seq<Packet>): W.Option<string> {
    if log == [] then W.None
    else
      var last := log[|log| - 1];
      if last.Ping? && last.token.Some? then last.token else LastToken(log[..|log| - 1])
  }

  lemma TokenAppend(log: seq<Packet>, p: Packet)
    ensures LastToken(log + [p]) == if p.Ping? && p.token.Some? then p.token else LastToken(log)
  {
    assert (log + [p])[..|log|] == log;
  }

  lemma StepToken(st: State, a: Action)
    requires LinksOk(st) && Enabled(st, a) && st.client.token == LastToken(st.down.taken)
    ensures Apply(st, a).client.token == LastToken(Apply(st, a).down.taken)
  {
    if a == HandlerStep && st.client.handler == Idle {
      HandlerToken(st);
    } else {
      OtherToken(st, a);
    }
  }

  lemma HandlerToken(st: State)
    requires LinksOk(st) && CanHandle(st) && st.client.handler == Idle && st.client.token == LastToken(st.down.taken)
    ensures DoHandler(st).client.token == LastToken(DoHandler(st).down.taken)
  {
    Pipe.ReceiveValid(st.down);
    var p := Deserialize(st.down.wire[0]).value;
    TunnelClient.TakeFrame(st, p);
    TokenAppend(st.down.taken, p);
  }

  lemma OtherToken(st: State, a: Action)
    requires Enabled(st, a) && !(a == HandlerStep && st.client.handler == Idle)
    ensures Apply(st, a).client.token == st.client.token && Apply(st, a).down.taken == st.down.taken
  {
  }

  // ----- what is gone -----

  ghost predicate SettledOk(st: State) {
    && (st.server.reader == Stopped ==> !st.server.registered && st.down.closed)
    && (st.server.writer == Ended <==> st.down.stopped)
    && (st.server.pinger != Pinging ==> st.down.closed)
    && forall s :: s in st.server.streams ==>
         && (s !in st.server.active <==> st.server.streams[s].sink == Left)
         && (st.server.streams[s].task == Unlisting ==> st.down.closed)
  }

  lemma TaskSettlesOne(st: State, sid: StreamId)
    requires CanTask(st, sid)
    ensures var next := DoTask(st, sid);
            && next.server.streams[sid].sink == st.server.streams[sid].sink && next.server.active == st.server.active
            && (next.server.streams[sid].task == Unlisting ==> next.down.closed)
            && next.server.writer == st.server.writer && next.down.stopped == st.down.stopped
            && next.server.pinger == st.server.pinger && (next.server.registered ==> st.server.registered)
  {
  }

  lemma TaskSettles(st: State, sid: StreamId)
    requires SettledOk(st) && CanTask(st, sid)
    ensures SettledOk(DoTask(st, sid))
  {
    TunnelSignals.TaskShape(st, sid);
    TaskSettlesOne(st, sid);
  }

  lemma SinkSettles(st: State, sid: StreamId, count: nat)
    requires SettledOk(st) && CanSink(st, sid, count)
    ensures SettledOk(DoSink(st, sid, count))
  {
  }

  lemma TakingSettles(st: State)
    requires SettledOk(st) && CanReader(st) && st.server.reader == Awaiting
    ensures SettledOk(DoReader(st))
  {
    assert DoReader(st).server.streams == st.server.streams;
  }

  lemma RoutingSettles(st: State)
    requires TunnelTraffic.TrafficOk(st) && SettledOk(st) && CanReader(st) && st.server.reader != Awaiting
    ensures SettledOk(DoReader(st))
  {
    var next := DoReader(st);
    forall s | s in next.server.streams
      ensures s !in next.server.active <==> next.server.streams[s].sink == Left
      ensures next.server.streams[s].task == Unlisting ==> next.down.closed
    {
      TunnelSignals.RoutedStream(st, s);
    }
  }

  lemma ReaderSettles(st: State)
    requires TunnelTraffic.TrafficOk(st) && SettledOk(st) && CanReader(st)
    ensures SettledOk(DoReader(st))
  {
    if st.server.reader == Awaiting {
      TakingSettles(st);
    } else {
      RoutingSettles(st);
    }
  }

  lemma AcceptSettles(st: State, sid: StreamId)
    requires SettledOk(st) && sid !in st.server.streams
    ensures SettledOk(DoAccept(st, sid))
  {
  }

  lemma ReadSettles(st: State, sid: StreamId, outcome: ReadOutcome)
    requires SettledOk(st) && CanRead(st, sid, outcome)
    ensures SettledOk(DoTaskRead(st, sid, outcome))
  {
  }

  lemma QuietSettles(st: State, a: Action)
    requires SettledOk(st) && Enabled(st, a) && Quiet(a)
    ensures SettledOk(Apply(st, a))
  {
    QuietStreams(st, a);
  }

  lemma ServerSettles(st: State, a: Action)
    requires TunnelTraffic.TrafficOk(st) && SettledOk(st) && Enabled(st, a) && ServerSide(a)
    ensures SettledOk(Apply(st, a))
  {
    match a {
      case Accept(sid) => AcceptSettles(st, sid);
      case TaskRead(sid, outcome) => ReadSettles(st, sid, outcome);
      case TaskStep(sid) => TaskSettles(st, sid);
      case SinkStep(sid, count) => SinkSettles(st, sid, count);
      case ReaderStep => ReaderSettles(st);
      case _ => QuietSettles(st, a);
    }
  }

  lemma ClientSettles(st: State, a: Action)
    requires SettledOk(st) && Enabled(st, a) && !ServerSide(a)
    ensures SettledOk(Apply(st, a))
  {
    ClientLeavesDown(st, a);
  }

  lemma ClientLeavesDown(st: State, a: Action)
    requires Enabled(st, a) && !ServerSide(a)
    ensures Apply(st, a).server == st.server
    ensures Apply(st, a).down.closed == st.down.closed && Apply(st, a).down.stopped == st.down.stopped
  {
  }

  // ----- runs -----

  ghost predicate BooksOk(actions: seq<Action>, st: State, s: StreamId, i: nat) {
    && Held(st.server, s) == SinkCount(actions, s)
    && Written(st.client, i) == ForwardCount(actions, i)
    && LossOk(actions, st)
    && st.client.token == LastToken(st.down.taken)
    && SettledOk(st)
  }

  lemma StepBooks(actions: seq<Action>, st: State, a: Action, s: StreamId, i: nat)
    requires LinksOk(st) && ReturnOk(st) && TunnelTraffic.TrafficOk(st) && BooksOk(actions, st, s, i) && Enabled(st, a)
    ensures BooksOk(actions + [a], Apply(st, a), s, i)
  {
    assert (actions + [a])[..|actions|] == actions;
    StepLoses(actions, st, a);
    StepToken(st, a);
    if ServerSide(a) {
      ServerCounts(st, a, s);
      ServerLeavesClient(st, a);
      ServerSettles(st, a);
    } else {
      ClientCounts(st, a, i);
      ClientSettles(st, a);
    }
  }

  lemma StartBooks(anonymous: bool, s: StreamId, i: nat)
    ensures BooksOk([], Start(anonymous), s, i)
  {
  }

  lemma {:induction false} RunBooks(anonymous: bool, actions: seq<Action>, s: StreamId, i: nat)
    requires Run(Start(anonymous), actions).Some?
    ensures BooksOk(actions, Run(Start(anonymous), actions).value, s, i)
  {
    if actions == [] {
      StartBooks(anonymous, s, i);
    } else {
      var most, last := actions[..|actions| - 1], actions[|actions| - 1];
      assert most + [last] == actions;
      RunBooks(anonymous, most, s, i);
      StartInv(anonymous);
      RunKeeps(Start(anonymous), most);
      StepBooks(most, Run(Start(anonymous), most).value, last, s, i);
    }
  }

  // ----- results -----

  /** A socket holds exactly as many bytes as the writes of the run let through to it. */
  lemma SocketsHoldWrites(actions: seq<Action>, st: State, s: StreamId, i: nat)
    requires Leads(actions, st)
    ensures s in st.server.streams ==>
              |st.server.streams[s].body| + |st.server.streams[s].reply| == SinkCount(actions, s)
    ensures i < |st.client.conns| ==> |st.client.conns[i].written| == ForwardCount(actions, i)
  {
    var anonymous: bool :| Run(Start(anonymous), actions) == W.Some(st);
    RunBooks(anonymous, actions, s, i);
  }

  /** A packet that a channel accepted is lost only if a write to the websocket failed: closing a channel
      loses nothing that it holds. */
  lemma LossNeedsFailure(actions: seq<Action>, st: State)
    requires Leads(actions, st)
    ensures st.down.lost != [] ==> WriterFail in actions
    ensures st.up.lost != [] ==> UplinkFail in actions
    ensures st.up.closed ==> UplinkFail in actions
  {
    var anonymous: bool :| Run(Start(anonymous), actions) == W.Some(st);
    RunBooks(anonymous, actions, EMPTY_STREAM, 0);
  }

  /** The client keeps the token of the last ping it took that carried one. */
  lemma TokenIsLast(st: State)
    requires Reachable(st)
    ensures st.client.token == LastToken(st.down.taken)
  {
    var anonymous: bool, actions: seq<Action> :| Run(Start(anonymous), actions) == W.Some(st);
    RunBooks(anonymous, actions, EMPTY_STREAM, 0);
  }

  /** What has ended is gone: once the reader has stopped the client is unregistered and its channel closed;
      once the writer has ended nothing is left to send and nothing is accepted; a ping task gives up
      only on a closed channel; and a stream is in the server's map until its sink task has left. */
  lemma EndedIsGone(st: State, s: StreamId)
    requires Reachable(st)
    ensures st.server.reader == Stopped ==> !st.server.registered && st.down.closed
    ensures st.server.writer == Ended ==> st.down.closed && st.down.hand == [] && st.down.queue == []
    ensures st.server.pinger != Pinging ==> st.down.closed
    ensures s in st.server.streams ==> (s in st.server.active <==> st.server.streams[s].sink != Left)
  {
    var anonymous: bool, actions: seq<Action> :| Run(Start(anonymous), actions) == W.Some(st);
    RunBooks(anonymous, actions, EMPTY_STREAM, 0);
    ReachableInv(st);
  }
}
