/** Delivery of requests all the way to the local sockets: which data is left out because it was
    answered with a refusal, and which connections got everything before they were closed. */
module TunnelDelivery {
  import Utf8
  import opened ControlPacket
  import opened Projection
  import opened Pipe
  import opened TunnelState
  import opened TunnelServer
  import opened TunnelClient
  import opened TunnelFlow
  import opened TunnelInvariant
  import opened TunnelSignals
  import TunnelTraffic
  import T = TunnelTheorems
  import TunnelInputs
  import W = Wrappers

  // ----- refusals -----

  /** The handler will refuse the data of stream `s` it holds, or has stopped for good. */
  ghost predicate Refusing(cl: Client, s: StreamId) {
    cl.handler.Halted? || (cl.handler.Finding? && cl.handler.sid == s && s !in cl.streams)
  }

  ghost predicate RefusalsOk(cl: Client, sent: seq<Packet>) {
    && (forall p :: p in cl.skipped ==> p.Data? && p.data != [])
    && forall s: StreamId :: Refused(s) in sent ==> DataOf(cl.skipped, s) != [] || Refusing(cl, s)
  }

  lemma RefusalsKept(cl: Client, next: Client, sent: seq<Packet>, nextSent: seq<Packet>)
    requires RefusalsOk(cl, sent) && next.skipped == cl.skipped
    requires forall s: StreamId :: Refusing(cl, s) ==> Refusing(next, s)
    requires forall s: StreamId :: Refused(s) in nextSent ==> Refused(s) in sent || Refusing(next, s)
    ensures RefusalsOk(next, nextSent)
  {
  }

  /** Refused data is what the handler took last, so it is not empty. */
  lemma CurrentNonEmpty(st: State, sid: StreamId, data: seq<Utf8.Byte>)
    requires LinksOk(st) && TasksOk(st) && Current(st.down.taken, sid, data)
    ensures data != []
  {
    TakenFollowsGrammar(st, sid);
    OfMembers(st.down.taken, sid);
    assert Data(sid, data) in Of(st.down.taken, sid);
  }

  lemma SkipRefuses(cl: Client, next: Client, sent: seq<Packet>, sid: StreamId, data: seq<Utf8.Byte>)
    requires RefusalsOk(cl, sent) && cl.handler == Finding(sid, data) && data != []
    requires next.skipped == cl.skipped + [Data(sid, data)]
    ensures RefusalsOk(next, sent + [Refused(sid)])
  {
  }

  // ----- closes -----

  /** A close message comes last, so there is at most one. */
  ghost predicate CloseLast(queue: seq<LocalMessage>) {
    forall k :: 0 <= k < |queue| - 1 ==> queue[k] != Close
  }

  /** A socket that was closed in order got everything its connection was fed. */
  ghost predicate ConnCloses(c: Conn) {
    CloseLast(c.queue) && (c.forwarder == ForwarderClosed ==> c.written == c.fed)
  }

  /** The close task may still send its message. */
  predicate Undecided(c: Closer) {
    c.pc == CloserLooking || c.pc.CloserWaiting?
  }

  ghost predicate ClosesOk(cl: Client) {
    && (forall i :: 0 <= i < |cl.conns| ==> ConnCloses(cl.conns[i]))
    && (forall k, i ::
          (0 <= k < |cl.closers| && 0 <= i < |cl.conns| && Undecided(cl.closers[k])
           && cl.closers[k].sid == cl.conns[i].stream)
          ==> Close !in cl.conns[i].queue)
  }

  lemma ClosesKept(cl: Client, next: Client)
    requires ClosesOk(cl) && |next.conns| == |cl.conns| && |next.closers| == |cl.closers|
    requires forall i :: 0 <= i < |cl.conns| ==>
               && next.conns[i].stream == cl.conns[i].stream && ConnCloses(next.conns[i])
               && (Close in next.conns[i].queue ==> Close in cl.conns[i].queue)
    requires forall k :: 0 <= k < |cl.closers| ==>
               next.closers[k].sid == cl.closers[k].sid && (Undecided(next.closers[k]) ==> Undecided(cl.closers[k]))
    ensures ClosesOk(next)
  {
  }

  lemma SpawnCloses(cl: Client, next: Client, taken: seq<Packet>, sid: StreamId)
    requires ClosesOk(cl) && CloseOk(cl, taken) && End(sid) !in taken
    requires next.conns == cl.conns && next.closers == cl.closers + [Closer(sid, CloserLooking)]
    ensures ClosesOk(next)
  {
  }

  lemma PushCloses(cl: Client, next: Client, taken: seq<Packet>, conn: nat, data: seq<Utf8.Byte>)
    requires ClosesOk(cl) && CloseOk(cl, taken) && conn < |cl.conns| && End(cl.conns[conn].stream) !in taken
    requires ConnFlows(cl.conns[conn])
    requires next.conns == cl.conns[conn := Feed(cl.conns[conn], Chunk(data))] && next.closers == cl.closers
    ensures ClosesOk(next)
  {
  }

  /** The one close task of a stream tells its connection to close. */
  lemma TellCloses(cl: Client, next: Client, taken: seq<Packet>, k: nat, conn: nat)
    requires ClosesOk(cl) && CloseOk(cl, taken) && k < |cl.closers| && cl.closers[k].pc == CloserWaiting(conn)
    requires conn < |cl.conns| && ConnFlows(cl.conns[conn])
    requires forall j :: 0 <= j < |cl.closers| && cl.closers[j].sid == cl.closers[k].sid ==> j == k
    requires next.conns == cl.conns[conn := Feed(cl.conns[conn], Close)]
    requires next.closers == cl.closers[k := Closer(cl.closers[k].sid, CloserRemoving)]
    ensures ClosesOk(next)
  {
  }

  lemma ForwardCloses(c: Conn, count: nat)
    requires ConnCloses(c) && ConnFlows(c) && c.forwarder == Forwarding && count <= ChunkSize(c)
    ensures ConnCloses(Forward(c, count))
    ensures Close in Forward(c, count).queue ==> Close in c.queue
  {
    if c.queue != [] && c.queue[0] == Close {
      assert c.queue[1..] == [];
      assert Chunks(c.queue) == [];
    }
  }

  // ----- steps -----

  ghost predicate Delivery(st: State) {
    RefusalsOk(st.client, Sent(st.up)) && ClosesOk(st.client)
  }

  lemma TakeDelivers(st: State)
    requires Inv(st) && Signals(st) && Delivery(st) && CanHandle(st) && st.client.handler == Idle
    ensures Delivery(DoHandler(st))
  {
    ReceiveValid(st.down);
    var p := Deserialize(st.down.wire[0]).value;
    TakeFrame(st, p);
    SendValid(st.up, Ping(W.None));
    RefusalsKept(st.client, DoHandler(st).client, Sent(st.up), Sent(DoHandler(st).up));
    if p.End? {
      EndIsFresh(st, p.sid);
      SpawnCloses(st.client, DoHandler(st).client, st.down.taken, p.sid);
    } else {
      ClosesKept(st.client, DoHandler(st).client);
    }
  }

  /** An end packet about to be taken is its stream's first. */
  lemma EndIsFresh(st: State, s: StreamId)
    requires LinksOk(st) && TasksOk(st) && st.down.wire != [] && Deserialize(st.down.wire[0]) == W.Ok(End(s))
    ensures End(s) !in st.down.taken
  {
    var next := st.(down := Receive(st.down));
    ReceiveValid(st.down);
    OthersKeepGrammar(st, next);
    TakenFollowsGrammar(next, s);
    NothingAfterEnd(s, st.down.taken, End(s));
  }

  lemma FindingDelivers(st: State)
    requires Inv(st) && Delivery(st) && CanHandle(st) && st.client.handler.Finding?
    ensures Delivery(DoHandler(st))
  {
    var cl, next := st.client, DoHandler(st);
    var sid, data := cl.handler.sid, cl.handler.data;
    SendValid(st.up, Refused(sid));
    CurrentNonEmpty(st, sid, data);
    ClosesKept(cl, next.client);
    if sid !in cl.streams && !st.up.closed {
      SkipRefuses(cl, next.client, Sent(st.up), sid, data);
    } else {
      RefusalsKept(cl, next.client, Sent(st.up), Sent(next.up));
    }
  }

  lemma PushDelivers(st: State)
    requires Inv(st) && Signals(st) && Delivery(st) && CanHandle(st) && st.client.handler.Pushing?
    ensures Delivery(DoHandler(st))
  {
    var cl, next := st.client, DoHandler(st);
    RefusalsKept(cl, next.client, Sent(st.up), Sent(next.up));
    if cl.conns[cl.handler.conn].open {
      PushCloses(cl, next.client, st.down.taken, cl.handler.conn, cl.handler.data);
    }
  }

  lemma MoveDelivers(st: State)
    requires Delivery(st) && CanHandle(st) && (st.client.handler.Looking? || st.client.handler.Inserting?)
    ensures Delivery(DoHandler(st))
  {
    RefusalsKept(st.client, DoHandler(st).client, Sent(st.up), Sent(st.up));
    ClosesKept(st.client, DoHandler(st).client);
  }

  lemma HandlerDelivers(st: State)
    requires Inv(st) && Signals(st) && Delivery(st) && CanHandle(st)
    ensures Delivery(DoHandler(st))
  {
    match st.client.handler {
      case Idle => TakeDelivers(st);
      case Finding(_, _) => FindingDelivers(st);
      case Pushing(_, _, _) => PushDelivers(st);
      case Looking(_, _) => MoveDelivers(st);
      case Inserting(_, _, _) => MoveDelivers(st);
      case Connecting(_, _) =>
      case Halted(_, _) =>
    }
  }

  lemma ConnectDelivers(st: State, outcome: ConnectOutcome)
    requires LinksOk(st) && ClientOk(st) && Delivery(st) && CanConnect(st)
    ensures Delivery(DoConnect(st, outcome))
  {
    var cl, next := st.client, DoConnect(st, outcome);
    if outcome == Opened {
      OpenCloses(cl, next.client, next.client.conns[|cl.conns|]);
      RefusalsKept(cl, next.client, Sent(st.up), Sent(st.up));
    } else {
      SendValid(st.up, Refused(cl.handler.sid));
      ClosesKept(cl, next.client);
      RefusalsKept(cl, next.client, Sent(st.up), Sent(next.up));
    }
  }

  lemma OpenCloses(cl: Client, next: Client, c: Conn)
    requires ClosesOk(cl) && next.conns == cl.conns + [c] && next.closers == cl.closers
    requires c.queue == [] && c.forwarder == Unspawned
    ensures ClosesOk(next)
  {
  }

  lemma CloserDelivers(st: State, k: nat)
    requires Inv(st) && Signals(st) && Delivery(st) && CanClose(st, k)
    ensures Delivery(DoCloser(st, k))
  {
    var cl, next := st.client, DoCloser(st, k).client;
    RefusalsKept(cl, next, Sent(st.up), Sent(st.up));
    if cl.closers[k].pc.CloserWaiting? {
      assert CloserOk(cl.streams, cl.conns, st.down.taken, cl.closers[k]);
      forall j | 0 <= j < |cl.closers| && cl.closers[j].sid == cl.closers[k].sid ensures j == k {
        ClosersDistinct(st, j, k);
      }
      TellCloses(cl, next, st.down.taken, k, cl.closers[k].pc.conn);
    } else {
      ClosesKept(cl, next);
    }
  }

  lemma LocalReadDelivers(st: State, i: nat, outcome: ReadOutcome)
    requires Delivery(st) && CanLocalRead(st, i, outcome)
    ensures Delivery(DoLocalRead(st, i, outcome))
  {
    RefusalsKept(st.client, DoLocalRead(st, i, outcome).client, Sent(st.up), Sent(st.up));
    ClosesKept(st.client, DoLocalRead(st, i, outcome).client);
  }

  lemma LocalDelivers(st: State, i: nat)
    requires LinksOk(st) && Delivery(st) && CanLocal(st, i)
    ensures Delivery(DoLocal(st, i))
  {
    var c := st.client.conns[i];
    if c.reader.LocalHolding? {
      SendValid(st.up, Data(c.stream, c.reader.data));
    }
    RefusalsKept(st.client, DoLocal(st, i).client, Sent(st.up), Sent(DoLocal(st, i).up));
    ClosesKept(st.client, DoLocal(st, i).client);
  }

  lemma ForwardDelivers(st: State, i: nat, count: nat)
    requires FlowOk(st) && Delivery(st) && CanForward(st, i, count)
    ensures Delivery(DoForward(st, i, count))
  {
    RefusalsKept(st.client, DoForward(st, i, count).client, Sent(st.up), Sent(st.up));
    ForwardCloses(st.client.conns[i], count);
    ClosesKept(st.client, DoForward(st, i, count).client);
  }

  lemma HaltDelivers(st: State)
    requires Delivery(st) && Enabled(st, HandlerHalt)
    ensures Delivery(DoHalt(st))
  {
    ClosesKept(st.client, DoHalt(st).client);
  }

  /** A step that leaves the client alone and sends nothing up. */
  lemma UntouchedDelivers(st: State, next: State)
    requires Delivery(st) && next.client == st.client && Sent(next.up) == Sent(st.up)
    ensures Delivery(next)
  {
  }

  /** Server tasks and the client's writer leave the client's state alone and send nothing up. */
  predicate Elsewhere(a: Action) {
    ServerSide(a) || a.UplinkStep? || a.UplinkFail?
  }

  lemma ElsewhereUntouched(st: State, a: Action)
    requires LinksOk(st) && TunnelTraffic.TrafficOk(st) && Enabled(st, a) && Elsewhere(a)
    ensures Apply(st, a).client == st.client && Sent(Apply(st, a).up) == Sent(st.up)
  {
    match a {
      case TaskStep(sid) => TaskShape(st, sid);
      case ReaderStep => ReaderKeepsLinks(st); ReaderStreams(st);
      case UplinkStep => UplinkKeepsLinks(st);
      case UplinkFail => AbortValid(st.up);
      case _ =>
    }
  }

  lemma ElsewhereDelivers(st: State, a: Action)
    requires LinksOk(st) && TunnelTraffic.TrafficOk(st) && Delivery(st) && Enabled(st, a) && Elsewhere(a)
    ensures Delivery(Apply(st, a))
  {
    ElsewhereUntouched(st, a);
    UntouchedDelivers(st, Apply(st, a));
  }

  lemma StepDelivers(st: State, a: Action)
    requires Inv(st) && Signals(st) && Delivery(st) && Enabled(st, a)
    ensures Delivery(Apply(st, a))
  {
    match a {
      case HandlerStep => HandlerDelivers(st);
      case HandlerConnect(outcome) => ConnectDelivers(st, outcome);
      case HandlerHalt => HaltDelivers(st);
      case CloserStep(k) => CloserDelivers(st, k);
      case LocalRead(i, outcome) => LocalReadDelivers(st, i, outcome);
      case LocalStep(i) => LocalDelivers(st, i);
      case ForwardStep(i, count) => ForwardDelivers(st, i, count);
      case _ => ElsewhereDelivers(st, a);
    }
  }

  lemma {:induction false} RunDelivers(from: State, actions: seq<Action>)
    requires Inv(from) && Signals(from) && Delivery(from) && Run(from, actions).Some?
    ensures Inv(Run(from, actions).value) && Signals(Run(from, actions).value) && Delivery(Run(from, actions).value)
  {
    if actions != [] {
      var most, last := actions[..|actions| - 1], actions[|actions| - 1];
      RunDelivers(from, most);
      StepKeeps(Run(from, most).value, last);
      StepSignals(Run(from, most).value, last);
      StepDelivers(Run(from, most).value, last);
    }
  }

  lemma ReachableDelivery(st: State)
    requires Reachable(st)
    ensures Inv(st) && Signals(st) && Delivery(st)
  {
    var anonymous: bool, actions: seq<Action> :| Run(Start(anonymous), actions) == W.Some(st);
    StartInv(anonymous);
    RunDelivers(Start(anonymous), actions);
  }

  // ----- results -----

  /** Of one stream, data was left out exactly if a refusal was sent, once the handler is idle. */
  lemma SkippedIffRefused(st: State, s: StreamId)
    requires Reachable(st)
    ensures DataOf(st.client.skipped, s) != [] ==> Refused(s) in Sent(st.up)
    ensures st.client.handler == Idle ==> (DataOf(st.client.skipped, s) != [] <==> Refused(s) in Sent(st.up))
  {
    ReachableDelivery(st);
    if DataOf(st.client.skipped, s) != [] {
      SomeData(st.client.skipped, s);
    }
  }

  lemma {:induction false} SomeData(log: seq<Packet>, s: StreamId)
    requires DataOf(log, s) != []
    ensures exists p :: p in log && p.Data? && p.sid == s
  {
    var rest, last := log[..|log| - 1], log[|log| - 1];
    if !last.Data? || last.sid != s {
      SomeData(rest, s);
    }
  }

  /** Local delivery. A stream's local connections were fed, oldest first, exactly the data the client
      has taken, as long as no refusal was sent for the stream; with the handler idle, if and only if
      none was. In any case the sizes of what was fed, refused and is in hand add up. */
  lemma LocalDelivery(st: State, s: StreamId)
    requires Reachable(st)
    ensures Refused(s) !in Sent(st.up) ==>
              DataOf(st.down.taken, s) == Join(st.client.conns, s, Fed) + InHand(st.client.handler, s)
    ensures st.client.handler == Idle ==>
              (DataOf(st.down.taken, s) == Join(st.client.conns, s, Fed) <==> Refused(s) !in Sent(st.up))
    ensures |DataOf(st.down.taken, s)| ==
            |Join(st.client.conns, s, Fed)| + |DataOf(st.client.skipped, s)| + |InHand(st.client.handler, s)|
  {
    ReachableInv(st);
    assert FedOk(st.client, st.down.taken, s);
    SkippedIffRefused(st, s);
  }

  /** Request delivery from end to end. For a stream that was never refused, what the reads of the run got
      from the remote socket is what the local connections were fed, then what the handler holds, then what
      is on its way, then a tail that is empty unless the client's channel was closed, then what the
      reading task holds: the local side has no gap and no duplicate. */
  lemma RequestDelivery(actions: seq<Action>, st: State, s: StreamId)
    requires Leads(actions, st) && Refused(s) !in Sent(st.up)
    ensures DataOf(TunnelInputs.RemoteReads(actions), s) ==
            Join(st.client.conns, s, Fed) + InHand(st.client.handler, s) + DataOf(InFlight(st.down), s)
            + DataOf(st.down.lost + st.down.failed, s) + T.Held(st.server, s)
    ensures Join(st.client.conns, s, Fed) <= DataOf(TunnelInputs.RemoteReads(actions), s)
    ensures !st.down.closed ==> st.down.lost + st.down.failed == []
  {
    T.RequestConservation(actions, st, s);
    LocalDelivery(st, s);
    T.PrefixOfSum(Join(st.client.conns, s, Fed), InHand(st.client.handler, s), DataOf(InFlight(st.down), s),
                  DataOf(st.down.lost + st.down.failed, s), T.Held(st.server, s));
  }

  /** Each local socket got a prefix of what its connection was fed; unless a write failed, the rest
      is in its queue, and a socket that was closed in order got everything. A close message is the
      last in its queue. */
  lemma LocalSocketGetsFed(st: State, i: nat)
    requires Reachable(st) && i < |st.client.conns|
    ensures var c := st.client.conns[i];
            && c.written + Chunks(c.queue) <= c.fed
            && (c.forwarder != ForwarderFailed ==> c.fed == c.written + Chunks(c.queue))
            && (c.forwarder == ForwarderClosed ==> c.written == c.fed && c.queue == [])
            && forall k :: 0 <= k < |c.queue| - 1 ==> c.queue[k] != Close
  {
    ReachableDelivery(st);
    assert ConnFlows(st.client.conns[i]) && ConnCloses(st.client.conns[i]);
  }

  /** Down to the sockets: while no write to a local socket of the stream fails either, the bytes in
      those sockets and their queues, oldest connection first, are the beginning of what the remote
      side sent, and everything after it is accounted for. */
  lemma RequestReachesSockets(actions: seq<Action>, st: State, s: StreamId)
    requires Leads(actions, st) && Refused(s) !in Sent(st.up)
    requires forall i :: 0 <= i < |st.client.conns| && st.client.conns[i].stream == s ==>
               st.client.conns[i].forwarder != ForwarderFailed
    ensures DataOf(TunnelInputs.RemoteReads(actions), s) ==
            Join(st.client.conns, s, Placed) + InHand(st.client.handler, s) + DataOf(InFlight(st.down), s)
            + DataOf(st.down.lost + st.down.failed, s) + T.Held(st.server, s)
  {
    TunnelInputs.ReadsAreInputs(actions, st);
    RequestDelivery(actions, st, s);
    forall i | 0 <= i < |st.client.conns| && st.client.conns[i].stream == s
      ensures PartOf(st.client.conns[i], Placed) == PartOf(st.client.conns[i], Fed)
    {
      LocalSocketGetsFed(st, i);
    }
    JoinAgrees(st.client.conns, s, Placed, Fed);
  }

  // ----- nothing is fed after a close -----

  /** The connection was told to close, or its writer has ended. */
  ghost predicate FeedOver(c: Conn) {
    Close in c.queue || !c.open
  }

  /** What was over stays over, with what was fed until then. */
  ghost predicate FeedsKept(conns: seq<Conn>, next: seq<Conn>) {
    && |conns| <= |next|
    && forall i :: 0 <= i < |conns| ==>
         && next[i].stream == conns[i].stream
         && (FeedOver(conns[i]) ==> FeedOver(next[i]) && next[i].fed == conns[i].fed)
  }

  lemma HandlerKeepsFeeds(st: State)
    requires ClientOk(st) && Signals(st) && CanHandle(st)
    ensures FeedsKept(st.client.conns, DoHandler(st).client.conns)
  {
    if st.client.handler.Pushing? {
      assert Current(st.down.taken, st.client.handler.sid, st.client.handler.data);
    }
  }

  lemma CloserKeepsFeeds(st: State, k: nat)
    requires CanClose(st, k)
    ensures FeedsKept(st.client.conns, DoCloser(st, k).client.conns)
  {
  }

  lemma ForwardKeepsFeeds(st: State, i: nat, count: nat)
    requires CanForward(st, i, count)
    ensures FeedsKept(st.client.conns, DoForward(st, i, count).client.conns)
  {
  }

  lemma ConnectKeepsFeeds(st: State, outcome: ConnectOutcome)
    requires CanConnect(st)
    ensures FeedsKept(st.client.conns, DoConnect(st, outcome).client.conns)
  {
  }

  lemma LocalReadKeepsFeeds(st: State, i: nat, outcome: ReadOutcome)
    requires CanLocalRead(st, i, outcome)
    ensures FeedsKept(st.client.conns, DoLocalRead(st, i, outcome).client.conns)
  {
  }

  lemma LocalKeepsFeeds(st: State, i: nat)
    requires CanLocal(st, i)
    ensures FeedsKept(st.client.conns, DoLocal(st, i).client.conns)
  {
  }

  lemma SameFeedsKept(conns: seq<Conn>, next: seq<Conn>)
    requires next == conns
    ensures FeedsKept(conns, next)
  {
  }

  lemma StepKeepsFeeds(st: State, a: Action)
    requires LinksOk(st) && TunnelTraffic.TrafficOk(st) && ClientOk(st) && Signals(st) && Enabled(st, a)
    ensures FeedsKept(st.client.conns, Apply(st, a).client.conns)
  {
    match a {
      case HandlerStep => HandlerKeepsFeeds(st);
      case HandlerConnect(outcome) => ConnectKeepsFeeds(st, outcome);
      case HandlerHalt => SameFeedsKept(st.client.conns, DoHalt(st).client.conns);
      case CloserStep(k) => CloserKeepsFeeds(st, k);
      case LocalRead(i, outcome) => LocalReadKeepsFeeds(st, i, outcome);
      case LocalStep(i) => LocalKeepsFeeds(st, i);
      case ForwardStep(i, count) => ForwardKeepsFeeds(st, i, count);
      case _ =>
        ElsewhereUntouched(st, a);
        SameFeedsKept(st.client.conns, Apply(st, a).client.conns);
    }
  }

  lemma {:induction false} RunKeepsFeeds(from: State, actions: seq<Action>)
    requires Inv(from) && Signals(from) && Delivery(from) && Run(from, actions).Some?
    ensures FeedsKept(from.client.conns, Run(from, actions).value.client.conns)
  {
    if actions != [] {
      var most, last := actions[..|actions| - 1], actions[|actions| - 1];
      RunKeepsFeeds(from, most);
      RunDelivers(from, most);
      StepKeepsFeeds(Run(from, most).value, last);
    }
  }

  /** Once a connection was told to close, nothing is fed to it on any continuation; so if its writer
      closes it in order, the socket has exactly what it was fed before. */
  lemma NothingFedAfterClose(st: State, later: State, i: nat)
    requires Reachable(st) && Continues(st, later)
    requires i < |st.client.conns| && Close in st.client.conns[i].queue
    ensures i < |later.client.conns| && later.client.conns[i].fed == st.client.conns[i].fed
    ensures later.client.conns[i].forwarder == ForwarderClosed ==>
              later.client.conns[i].written == st.client.conns[i].fed
  {
    ReachableDelivery(st);
    var actions: seq<Action> :| Run(st, actions) == W.Some(later);
    RunKeepsFeeds(st, actions);
    RunDelivers(st, actions);
    assert FeedOver(st.client.conns[i]);
    assert ConnCloses(later.client.conns[i]);
  }

  // ----- a close task does its work -----

  /** The task still waits, or its connection is over. */
  ghost predicate WaitsOrOver(cl: Client, k: nat, conn: nat) {
    && k < |cl.closers| && conn < |cl.conns|
    && (cl.closers[k].pc == CloserWaiting(conn) || FeedOver(cl.conns[conn]))
  }

  lemma CloserWaitsOrOver(st: State, j: nat, k: nat, conn: nat)
    requires CanClose(st, j) && WaitsOrOver(st.client, k, conn)
    ensures WaitsOrOver(DoCloser(st, j).client, k, conn)
  {
  }

  /** No step takes a close task away, and only its own moves it. */
  lemma ClosersStand(st: State, a: Action, k: nat)
    requires Enabled(st, a) && k < |st.client.closers| && !a.CloserStep?
    ensures k < |Apply(st, a).client.closers| && Apply(st, a).client.closers[k] == st.client.closers[k]
  {
    if ServerSide(a) {
      TunnelInputs.ServerReads(st, a);
    }
  }

  lemma StepWaitsOrOver(st: State, a: Action, k: nat, conn: nat)
    requires TunnelServer.LinksOk(st) && TunnelTraffic.TrafficOk(st) && ClientOk(st) && Signals(st) && Enabled(st, a)
    requires WaitsOrOver(st.client, k, conn)
    ensures WaitsOrOver(Apply(st, a).client, k, conn)
  {
    StepKeepsFeeds(st, a);
    match a {
      case CloserStep(j) => CloserWaitsOrOver(st, j, k, conn);
      case _ => ClosersStand(st, a, k);
    }
  }

  lemma {:induction false} RunWaitsOrOver(from: State, actions: seq<Action>, k: nat, conn: nat)
    requires Inv(from) && Signals(from) && Delivery(from) && Run(from, actions).Some?
    requires WaitsOrOver(from.client, k, conn)
    ensures WaitsOrOver(Run(from, actions).value.client, k, conn)
  {
    if actions != [] {
      var most, last := actions[..|actions| - 1], actions[|actions| - 1];
      RunWaitsOrOver(from, most, k, conn);
      RunDelivers(from, most);
      StepWaitsOrOver(Run(from, most).value, last, k, conn);
    }
  }

  /** Once a close task has stopped waiting, the connection it found has been told to close, or its
      writer had ended before. */
  lemma CloseTaskTells(st: State, later: State, k: nat, conn: nat)
    requires Reachable(st) && Continues(st, later)
    requires k < |st.client.closers| && st.client.closers[k].pc == CloserWaiting(conn)
    ensures k < |later.client.closers| && conn < |later.client.conns|
    ensures later.client.closers[k].pc != CloserWaiting(conn) ==>
              Close in later.client.conns[conn].queue || !later.client.conns[conn].open
  {
    ReachableDelivery(st);
    assert CloserOk(st.client.streams, st.client.conns, st.down.taken, st.client.closers[k]);
    var actions: seq<Action> :| Run(st, actions) == W.Some(later);
    RunWaitsOrOver(st, actions, k, conn);
  }

  // ----- a connection whose socket has ended -----

  /** No stream is mapped to connection `i`, nor about to be. */
  ghost predicate OffTheMap(cl: Client, i: nat) {
    && i < |cl.conns|
    && (forall s :: s in cl.streams ==> cl.streams[s] != i)
    && !(cl.handler.Inserting? && cl.handler.conn == i)
  }

  lemma StaysOffTheMap(st: State, a: Action, i: nat)
    requires Enabled(st, a) && OffTheMap(st.client, i)
    ensures OffTheMap(Apply(st, a).client, i)
  {
    if ServerSide(a) {
      TunnelInputs.ServerReads(st, a);
    }
  }

  lemma {:induction false} RunOffTheMap(from: State, actions: seq<Action>, i: nat)
    requires OffTheMap(from.client, i) && Run(from, actions).Some?
    ensures OffTheMap(Run(from, actions).value.client, i)
  {
    if actions != [] {
      RunOffTheMap(from, actions[..|actions| - 1], i);
      StaysOffTheMap(Run(from, actions[..|actions| - 1]).value, actions[|actions| - 1], i);
    }
  }

  lemma EndsOffTheMap(st: State, i: nat)
    requires ClientOk(st) && i < |st.client.conns| && st.client.conns[i].reader == LocalEof
    requires !(st.client.handler.Inserting? && st.client.handler.conn == i)
    ensures OffTheMap(DoLocal(st, i).client, i)
  {
  }

  lemma InsertsEnded(st: State, i: nat)
    requires st.client.handler.Inserting? && st.client.handler.conn == i
    ensures exists later :: Continues(st, later) && i in later.client.streams.Values
  {
    var later := DoHandler(st);
    assert later.client.streams[st.client.handler.sid] == i;
    assert [HandlerStep][..0] == [] && Run(st, []) == W.Some(st);
    assert Run(st, [HandlerStep]) == W.Some(later);
  }

  /** When a local socket has ended and its reader takes the stream off the map, the connection is off it
      for good, unless the handler has opened it and not inserted it yet: exactly then it can still
      come to be mapped, with nobody reading it. */
  lemma EndedIsUnmappedIff(st: State, i: nat)
    requires Reachable(st) && i < |st.client.conns| && st.client.conns[i].reader == LocalEof
    ensures (exists later :: Continues(DoLocal(st, i), later) && i in later.client.streams.Values)
            <==> st.client.handler.Inserting? && st.client.handler.conn == i
  {
    ReachableInv(st);
    var next := DoLocal(st, i);
    if st.client.handler.Inserting? && st.client.handler.conn == i {
      InsertsEnded(next, i);
    } else {
      EndsOffTheMap(st, i);
      if later :| Continues(next, later) && i in later.client.streams.Values {
        var actions: seq<Action> :| Run(next, actions) == W.Some(later);
        RunOffTheMap(next, actions, i);
      }
    }
  }
}
