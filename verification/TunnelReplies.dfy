/** What a remote stream is told: its queue gets exactly the messages its client sent for it, in order, and
    the remote socket the response of the first one that ends the stream. */
module TunnelReplies {
  import opened ControlPacket
  import opened Projection
  import Pipe
  import opened TunnelState
  import TunnelServer
  import opened TunnelReturn
  import opened TunnelTraffic
  import opened TunnelInvariant
  import R = RemoteSink
  import TunnelSignals
  import W = Wrappers

  /** The message a packet is for stream `s`, if it is one. */
  function CallFor(p: Packet, s: StreamId): seq<R.StreamMessage> {
    match p
    case Data(sid, data) => if sid == s then [R.Data(data)] else []
    case Refused(sid) => if sid == s then [R.TunnelRefused] else []
    case _ => []
  }

  /** The messages a log of packets holds for stream `s`, in order. */
  function Calls(log: seq<Packet>, s: StreamId): seq<R.StreamMessage> {
    if log == [] then [] else Calls(log[..|log| - 1], s) + CallFor(log[|log| - 1], s)
  }

  lemma CallsAppend(log: seq<Packet>, p: Packet, s: StreamId)
    ensures Calls(log + [p], s) == Calls(log, s) + CallFor(p, s)
  {
    assert (log + [p])[..|log|] == log;
  }

  lemma {:induction false} NoCalls(log: seq<Packet>, s: StreamId)
    requires forall p :: p in log ==> !About(p, s)
    ensures Calls(log, s) == []
  {
    if log != [] {
      NoCalls(log[..|log| - 1], s);
      assert log[|log| - 1] in log;
    }
  }

  lemma {:induction false} CallsMembers(log: seq<Packet>, s: StreamId)
    ensures R.TunnelRefused in Calls(log, s) <==> Refused(s) in log
  {
    if log != [] {
      CallsMembers(log[..|log| - 1], s);
      assert log == log[..|log| - 1] + [log[|log| - 1]];
    }
  }

  /** The messages that came from the client; only the server itself says that a client is gone. */
  function FromClient(messages: seq<R.StreamMessage>): seq<R.StreamMessage> {
    if messages == [] then []
    else
      var last := messages[|messages| - 1];
      FromClient(messages[..|messages| - 1]) + (if last == R.NoClientTunnel then [] else [last])
  }

  lemma FromClientAppend(messages: seq<R.StreamMessage>, m: R.StreamMessage)
    ensures FromClient(messages + [m]) == FromClient(messages) + (if m == R.NoClientTunnel then [] else [m])
  {
    assert (messages + [m])[..|messages|] == messages;
  }

  lemma {:induction false} FromClientMembers(messages: seq<R.StreamMessage>, m: R.StreamMessage)
    ensures m in FromClient(messages) ==> m in messages
  {
    if messages != [] {
      FromClientMembers(messages[..|messages| - 1], m);
    }
  }

  /** The message for stream `s` in the reader's hands. */
  function HeldFor(reader: ReaderPc, s: StreamId): seq<R.StreamMessage> {
    if (reader.Routing? || reader.Delivering?) && reader.sid == s then [reader.message] else []
  }

  // ----- the invariant -----

  /** The queue has taken a prefix of the client's messages, all but the one held while it is open. */
  ghost predicate PostedOk(r: Remote, held: seq<R.StreamMessage>, calls: seq<R.StreamMessage>) {
    && FromClient(r.posted) <= calls
    && (r.open ==> FromClient(r.posted) + held == calls)
  }

  ghost predicate RepliesOk(st: State) {
    && (st.server.reader.Routing? || st.server.reader.Delivering? ==> st.server.reader.message != R.NoClientTunnel)
    && forall s :: s in st.server.streams ==>
         PostedOk(st.server.streams[s], HeldFor(st.server.reader, s), Calls(st.up.taken, s))
  }

  lemma PostedKept(r: Remote, next: Remote, held: seq<R.StreamMessage>, calls: seq<R.StreamMessage>)
    requires PostedOk(r, held, calls) && (next.open ==> r.open)
    requires next.posted == r.posted || next.posted == r.posted + [R.NoClientTunnel]
    ensures PostedOk(next, held, calls)
  {
    FromClientAppend(r.posted, R.NoClientTunnel);
  }

  /** A step that changes one stream, and that without a message from the client. */
  lemma OneStreamReplies(st: State, next: State, sid: StreamId)
    requires RepliesOk(st) && sid in st.server.streams && sid in next.server.streams
    requires next.server.streams == st.server.streams[sid := next.server.streams[sid]]
    requires next.up.taken == st.up.taken && next.server.reader == st.server.reader
    requires PostedOk(next.server.streams[sid], HeldFor(st.server.reader, sid), Calls(st.up.taken, sid))
    ensures RepliesOk(next)
  {
  }

  lemma TaskPosts(st: State, sid: StreamId)
    requires CanTask(st, sid)
    ensures var r, next := st.server.streams[sid], DoTask(st, sid).server.streams[sid];
            && (next.posted == r.posted || next.posted == r.posted + [R.NoClientTunnel])
            && (next.open ==> r.open)
  {
  }

  lemma TaskReplies(st: State, sid: StreamId)
    requires RepliesOk(st) && CanTask(st, sid)
    ensures RepliesOk(DoTask(st, sid))
  {
    TunnelSignals.TaskShape(st, sid);
    TaskPosts(st, sid);
    PostedKept(st.server.streams[sid], DoTask(st, sid).server.streams[sid],
               HeldFor(st.server.reader, sid), Calls(st.up.taken, sid));
    OneStreamReplies(st, DoTask(st, sid), sid);
  }

  lemma TaskReadReplies(st: State, sid: StreamId, outcome: ReadOutcome)
    requires RepliesOk(st) && CanRead(st, sid, outcome)
    ensures RepliesOk(DoTaskRead(st, sid, outcome))
  {
    ReadFrame(st, sid, outcome);
    PostedKept(st.server.streams[sid], DoTaskRead(st, sid, outcome).server.streams[sid],
               HeldFor(st.server.reader, sid), Calls(st.up.taken, sid));
    OneStreamReplies(st, DoTaskRead(st, sid, outcome), sid);
  }

  lemma SinkReplies(st: State, sid: StreamId, count: nat)
    requires ReturnOk(st) && RepliesOk(st) && CanSink(st, sid, count)
    ensures RepliesOk(DoSink(st, sid, count))
  {
    PumpOk(st.server.streams[sid], count);
    PostedKept(st.server.streams[sid], DoSink(st, sid, count).server.streams[sid],
               HeldFor(st.server.reader, sid), Calls(st.up.taken, sid));
    OneStreamReplies(st, DoSink(st, sid, count), sid);
  }

  lemma AcceptReplies(st: State, sid: StreamId)
    requires TunnelServer.LinksOk(st) && TrafficOk(st) && RepliesOk(st) && sid !in st.server.streams
    ensures RepliesOk(DoAccept(st, sid))
  {
    forall p | p in st.up.taken ensures !About(p, sid) {
      TakenWasSent(st.up, p);
      assert UpPacket(st.server.streams.Keys, p);
    }
    NoCalls(st.up.taken, sid);
  }

  // ----- the reader -----

  lemma TakeReplies(st: State)
    requires TunnelServer.LinksOk(st) && RepliesOk(st) && CanReader(st) && st.server.reader == Awaiting
    ensures RepliesOk(DoReader(st))
  {
    Pipe.ReceiveValid(st.up);
    var p := Deserialize(st.up.wire[0]).value;
    var next := DoReader(st);
    forall s | s in next.server.streams
      ensures PostedOk(next.server.streams[s], HeldFor(next.server.reader, s), Calls(next.up.taken, s))
    {
      CallsAppend(st.up.taken, p, s);
      TakesCall(st, p, s);
    }
  }

  /** What the reader then holds for a stream is the message the packet is for it. */
  lemma TakesCall(st: State, p: Packet, s: StreamId)
    requires CanReader(st) && st.server.reader == Awaiting
    requires Deserialize(st.up.wire[0]) == W.Ok(p) && st.up.wire[0] != []
    ensures HeldFor(DoReader(st).server.reader, s) == CallFor(p, s)
    ensures DoReader(st).server.streams == st.server.streams
  {
  }

  lemma DeliverReplies(r: Remote, m: R.StreamMessage, calls: seq<R.StreamMessage>)
    requires PostedOk(r, [m], calls) && m != R.NoClientTunnel
    ensures PostedOk(Post(r, m), [], calls)
  {
    FromClientAppend(r.posted, m);
  }

  lemma HandedReplies(st: State, next: State, sid: StreamId, m: R.StreamMessage)
    requires RepliesOk(st) && sid in st.server.streams && sid in next.server.streams
    requires st.server.reader == Routing(sid, m) || st.server.reader == Delivering(sid, m)
    requires next.server.streams == st.server.streams[sid := next.server.streams[sid]]
    requires next.up.taken == st.up.taken && next.server.reader == Awaiting
    requires PostedOk(next.server.streams[sid], [], Calls(st.up.taken, sid))
    ensures RepliesOk(next)
  {
  }

  lemma DiscardReplies(st: State, sid: StreamId, m: R.StreamMessage)
    requires RepliesOk(st) && sid in st.server.streams && !st.server.streams[sid].open
    requires st.server.reader == Routing(sid, m) || st.server.reader == Delivering(sid, m)
    ensures RepliesOk(st.(server := Discard(st.server, sid, m).(reader := Awaiting)))
  {
    var next := st.(server := Discard(st.server, sid, m).(reader := Awaiting));
    assert next.server.streams == st.server.streams[sid := next.server.streams[sid]];
    HandedReplies(st, next, sid, m);
  }

  lemma RouteReplies(st: State)
    requires ReturnOk(st) && TrafficOk(st) && RepliesOk(st) && CanReader(st) && st.server.reader.Routing?
    ensures RepliesOk(DoReader(st))
  {
    var sv, sid := st.server, st.server.reader.sid;
    if sid !in sv.active {
      assert DeliveryOk(sv.streams[sid], false, Routed(sv.reader, sid), DataOf(st.up.taken, sid));
      DiscardReplies(st, sid, sv.reader.message);
    }
  }

  lemma DeliveringReplies(st: State)
    requires TrafficOk(st) && RepliesOk(st) && CanReader(st) && st.server.reader.Delivering?
    ensures RepliesOk(DoReader(st))
  {
    var sv, sid, m := st.server, st.server.reader.sid, st.server.reader.message;
    if sv.streams[sid].open {
      DeliverReplies(sv.streams[sid], m, Calls(st.up.taken, sid));
      HandedReplies(st, DoReader(st), sid, m);
    } else {
      DiscardReplies(st, sid, m);
    }
  }

  lemma ReaderReplies(st: State)
    requires TunnelServer.LinksOk(st) && ReturnOk(st) && TrafficOk(st) && RepliesOk(st) && CanReader(st)
    ensures RepliesOk(DoReader(st))
  {
    match st.server.reader {
      case Awaiting => TakeReplies(st);
      case Routing(_, _) => RouteReplies(st);
      case Delivering(_, _) => DeliveringReplies(st);
      case Dropping => QuietReplies(st, DoReader(st));
      case Stopped =>
    }
  }

  // ----- runs -----

  /** A step that touches neither streams nor what the reader took. */
  lemma QuietReplies(st: State, next: State)
    requires RepliesOk(st) && next.server.streams == st.server.streams && next.up.taken == st.up.taken
    requires forall s: StreamId :: HeldFor(next.server.reader, s) == HeldFor(st.server.reader, s)
    requires next.server.reader == st.server.reader || next.server.reader == Dropping || next.server.reader == Stopped
    ensures RepliesOk(next)
  {
  }

  lemma QuietStep(st: State, a: Action)
    requires Enabled(st, a) && (!ServerSide(a) || a.ReaderHangup? || a.WriterStep? || a.WriterFail? || a.PingStep?)
    ensures var next := Apply(st, a);
            && next.server.streams == st.server.streams && next.up.taken == st.up.taken
            && (next.server.reader == st.server.reader || (a.ReaderHangup? && next.server.reader == Dropping))
  {
  }

  lemma StepReplies(st: State, a: Action)
    requires Inv(st) && RepliesOk(st) && Enabled(st, a)
    ensures RepliesOk(Apply(st, a))
  {
    match a {
      case Accept(sid) => AcceptReplies(st, sid);
      case TaskStep(sid) => TaskReplies(st, sid);
      case TaskRead(sid, outcome) => TaskReadReplies(st, sid, outcome);
      case SinkStep(sid, count) => SinkReplies(st, sid, count);
      case ReaderStep => ReaderReplies(st);
      case _ =>
        QuietStep(st, a);
        QuietReplies(st, Apply(st, a));
    }
  }

  lemma {:induction false} RunReplies(from: State, actions: seq<Action>)
    requires Inv(from) && RepliesOk(from) && Run(from, actions).Some?
    ensures Inv(Run(from, actions).value) && RepliesOk(Run(from, actions).value)
  {
    if actions != [] {
      var most, last := actions[..|actions| - 1], actions[|actions| - 1];
      RunReplies(from, most);
      StepKeeps(Run(from, most).value, last);
      StepReplies(Run(from, most).value, last);
    }
  }

  lemma ReachableReplies(st: State)
    requires Reachable(st)
    ensures Inv(st) && RepliesOk(st)
  {
    var anonymous: bool, actions: seq<Action> :| Run(Start(anonymous), actions) == W.Some(st);
    StartInv(anonymous);
    RunReplies(Start(anonymous), actions);
  }

  // ----- results -----

  /** A stream's queue is told what its client sent for it, data and refusals, in order and nothing else: a
      prefix, and while the queue is open all of it but the message in the reader's hands. */
  lemma StreamIsTold(st: State, s: StreamId)
    requires Reachable(st) && s in st.server.streams
    ensures var r := st.server.streams[s];
            && FromClient(r.posted) <= Calls(st.up.taken, s)
            && (r.open ==> FromClient(r.posted) + HeldFor(st.server.reader, s) == Calls(st.up.taken, s))
  {
    ReachableReplies(st);
  }

  /** So a stream is told that its tunnel was refused only if the client said so, and every refusal that the
      server takes reaches its stream, unless the stream's queue is closed. */
  lemma RefusalReachesStream(st: State, s: StreamId)
    requires Reachable(st) && s in st.server.streams
    ensures R.TunnelRefused in st.server.streams[s].posted ==> Refused(s) in st.up.taken
    ensures Refused(s) in st.up.taken ==>
            var r := st.server.streams[s];
            || R.TunnelRefused in r.posted
            || !r.open
            || st.server.reader == Routing(s, R.TunnelRefused)
            || st.server.reader == Delivering(s, R.TunnelRefused)
  {
    StreamIsTold(st, s);
    CallsMembers(st.up.taken, s);
    FromClientMembers(st.server.streams[s].posted, R.TunnelRefused);
    TunnelSignals.RefusalsHaveReasons(st, s);
  }

  /** `messages[k]` is the first message that ends the stream. */
  ghost predicate FirstEnd(messages: seq<R.StreamMessage>, k: nat) {
    k < |messages| && !messages[k].Data? && forall j :: 0 <= j < k ==> messages[j].Data?
  }

  lemma {:induction false} ReplyOfFirst(messages: seq<R.StreamMessage>, k: nat)
    requires FirstEnd(messages, k)
    ensures R.Reply(messages) == if messages[k] == R.TunnelRefused then R.REFUSED_RESPONSE else R.NOT_FOUND_RESPONSE
  {
    if k > 0 {
      ReplyOfFirst(messages[1..], k - 1);
    }
  }

  lemma SinkIsTold(r: Remote, k: nat)
    requires RemoteOk(r)
    ensures FirstEnd(r.eaten, k) && r.eaten[k] == R.TunnelRefused ==>
              r.reply <= R.REFUSED_RESPONSE && R.TunnelRefused in r.posted
    ensures FirstEnd(r.eaten, k) && r.eaten[k] == R.NoClientTunnel ==>
              r.reply <= R.NOT_FOUND_RESPONSE && R.NoClientTunnel in r.posted
    ensures !R.Ends(r.eaten) ==> r.reply == []
  {
    if FirstEnd(r.eaten, k) {
      ReplyOfFirst(r.eaten, k);
      assert r.eaten[k] in r.eaten && r.eaten <= r.posted;
    }
    if !R.Ends(r.eaten) {
      R.NoReplyWithoutEnd(r.eaten);
    }
  }

  /** And the socket is told of the first end its task met: the refused response only if the client sent a
      refusal for the stream, the not-found response only if the client's channel was closed, and
      neither before an end was met. */
  lemma SocketIsTold(st: State, s: StreamId, k: nat)
    requires Reachable(st) && s in st.server.streams
    ensures var r := st.server.streams[s];
            && (FirstEnd(r.eaten, k) && r.eaten[k] == R.TunnelRefused ==>
                  r.reply <= R.REFUSED_RESPONSE && Refused(s) in st.up.taken)
            && (FirstEnd(r.eaten, k) && r.eaten[k] == R.NoClientTunnel ==>
                  r.reply <= R.NOT_FOUND_RESPONSE && st.down.closed)
            && (!R.Ends(r.eaten) ==> r.reply == [])
  {
    ReachableInv(st);
    assert DeliveryOk(st.server.streams[s], s in st.server.active, Routed(st.server.reader, s), DataOf(st.up.taken, s));
    SinkIsTold(st.server.streams[s], k);
    TunnelSignals.NotFoundOnlyAfterRemoval(st, s);
    TunnelSignals.RefusalsHaveReasons(st, s);
  }
}
