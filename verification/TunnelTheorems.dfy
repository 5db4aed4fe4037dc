/** What holds in every reachable state of the tunnel, whatever the interleaving of its tasks. */
module TunnelTheorems {
  import opened Wrappers
  import opened Utf8
  import opened ControlPacket
  import opened Projection
  import opened Pipe
  import opened TunnelState
  import opened TunnelServer
  import opened TunnelClient
  import opened TunnelFlow
  import opened TunnelReturn
  import opened TunnelTraffic
  import opened TunnelInvariant
  import opened TunnelInputs
  import R = RemoteSink

  // ----- request direction -----

  /** Data the stream's server task has read and not yet tried to send. */
  function Held(sv: Server, s: StreamId): seq<Byte> {
    if s in sv.streams && sv.streams[s].task.Holding? then sv.streams[s].task.chunk else []
  }

  lemma ReceivedIsSent(st: State, s: StreamId)
    requires TasksOk(st)
    ensures DataOf(st.server.received, s) == DataOf(Sent(st.down), s) + Held(st.server, s)
  {
    assert StreamOk(st.server.streams, Sent(st.down), st.server.received, s);
    DataOfOf(Sent(st.down), s);
  }

  /** Request conservation. What the reads of a run got from the remote socket of a stream is what the
      client has taken, then what is on its way, then a tail that is empty unless the client's
      channel was closed, then what the reading task still holds. */
  lemma RequestConservation(actions: seq<Action>, st: State, s: StreamId)
    requires Leads(actions, st)
    ensures Reachable(st)
    ensures DataOf(RemoteReads(actions), s) ==
            DataOf(st.down.taken, s) + DataOf(InFlight(st.down), s)
            + DataOf(st.down.lost + st.down.failed, s) + Held(st.server, s)
    ensures !st.down.closed ==> st.down.lost + st.down.failed == []
  {
    ReadsAreInputs(actions, st);
    ReachableInv(st);
    ReceivedIsSent(st, s);
    Conserves(st.down, s);
  }

  lemma PrefixOfSum(a: seq<Byte>, b: seq<Byte>, c: seq<Byte>, d: seq<Byte>, e: seq<Byte>)
    ensures a <= a + b + c + d + e
  {
  }

  // ----- stream grammar -----

  lemma LogFollowsGrammar(st: State, s: StreamId)
    requires TasksOk(st)
    ensures Grammar(s, Of(st.down.log, s))
  {
    assert StreamOk(st.server.streams, Sent(st.down), st.server.received, s);
    var log := Of(st.down.log, s);
    OfConcat(st.down.log, st.down.failed, s);
    GrammarPrefix(s, Of(Sent(st.down), s), |log|);
    assert Of(Sent(st.down), s)[..|log|] == log;
  }

  lemma TakenInOrder(l: Link, s: StreamId)
    requires Valid(l)
    ensures Of(l.taken, s) <= Of(l.log, s)
  {
    var rest := InFlight(l) + l.lost;
    assert l.log == l.taken + rest;
    OfConcat(l.taken, rest, s);
  }

  /** In every run the packets of a stream that reach the client's channel, and those the client
      has taken, are a prefix of Init, Data, ..., Data, End with data of 1 to 1024 bytes; the
      client takes them in the order they were sent. */
  lemma StreamGrammar(st: State, s: StreamId)
    requires Reachable(st)
    ensures Grammar(s, Of(st.down.log, s)) && Grammar(s, Of(st.down.taken, s))
    ensures Of(st.down.taken, s) <= Of(st.down.log, s)
  {
    ReachableInv(st);
    TakenFollowsGrammar(st, s);
    LogFollowsGrammar(st, s);
    TakenInOrder(st.down, s);
  }

  // ----- response direction -----

  /** At most one unfinished task reads local connections of a stream. */
  lemma OneLocalReader(st: State, i: nat, j: nat)
    requires Reachable(st) && i < |st.client.conns| && j < |st.client.conns|
    requires Alive(st.client.conns[i]) && Alive(st.client.conns[j])
    requires st.client.conns[i].stream == st.client.conns[j].stream
    ensures i == j
  {
    ReachableInv(st);
    OneReader(st.client, st.down.taken, i, j);
  }

  /** So the bytes that the reads of a run got locally for a stream are those of its first connection, then
      those of its second, and so on, never mixed; and each connection's are those of its own reads. */
  lemma AnswersInConnectionOrder(actions: seq<Action>, st: State, s: StreamId)
    requires Leads(actions, st)
    ensures DataOf(LocalReads(actions, st.client.conns), s) == Join(st.client.conns, s, Read)
    ensures forall i :: 0 <= i < |st.client.conns| ==> st.client.conns[i].read == ReadBy(actions, i)
  {
    ReadsAreInputs(actions, st);
    ReachableInv(st);
    assert AnswerOk(st.client, Sent(st.up), s);
    forall i | 0 <= i < |st.client.conns| ensures st.client.conns[i].read == ReadBy(actions, i) {
      ConnReadsInputs(actions, st, i);
    }
  }

  /** The stream has ended for the purposes of the response: a terminator was queued for it, its
      queue was closed, or a write to its remote socket failed. */
  ghost predicate Over(r: Remote) {
    R.Ends(r.posted) || !r.open || r.sink == Broken
  }

  /** Everything the client read for a stream, seen from the upward link. */
  lemma AnswersAreSent(st: State, s: StreamId)
    requires Valid(st.up) && AnswersOk(st)
    ensures DataOf(st.client.answers, s) ==
            DataOf(st.up.taken, s) + DataOf(InFlight(st.up), s)
            + DataOf(st.up.lost + st.up.failed, s) + Join(st.client.conns, s, Unsent)
  {
    Conserves(st.up, s);
    assert AnswerOk(st.client, Sent(st.up), s);
  }

  lemma QueueData(a: seq<R.StreamMessage>, b: seq<R.StreamMessage>)
    requires !R.Ends(a + b)
    ensures AllData(a + b) == R.Body(a) + R.Body(b)
    ensures !R.Ends(a) && !R.Ends(b)
  {
    forall m | m in a || m in b ensures m.Data? {
      assert m in a + b;
    }
    AllDataConcat(a, b);
    BodyIsPrefix(a);
    BodyIsPrefix(b);
  }

  /** What an unfinished stream got of what the server's reader took for it. */
  lemma TakenIsDelivered(r: Remote, isActive: bool, routed: seq<Byte>, taken: seq<Byte>)
    requires DeliveryOk(r, isActive, routed, taken) && !Over(r)
    ensures taken == r.body + R.Body(r.queue) + routed && r.reply == []
  {
    QueueData(r.eaten, r.queue);
    R.NoReplyWithoutEnd(r.eaten);
    assert AllData(r.posted) + [] == AllData(r.posted);
  }

  /** Response conservation, stream by stream and for every interleaving on the shared websocket.
      Until the stream is over, what the reads of the run got locally is what the remote socket got, then what
      the stream's queue holds, then what the server's reader holds, then what is on its way,
      then a tail that is empty unless the client's channel was closed, then what the local
      reader holds. */
  lemma ResponseConservation(actions: seq<Action>, st: State, s: StreamId)
    requires Leads(actions, st) && s in st.server.streams && !Over(st.server.streams[s])
    ensures var r := st.server.streams[s];
            && DataOf(LocalReads(actions, st.client.conns), s) ==
               r.body + R.Body(r.queue) + Routed(st.server.reader, s) + DataOf(InFlight(st.up), s)
               + DataOf(st.up.lost + st.up.failed, s) + Join(st.client.conns, s, Unsent)
            && r.reply == []
    ensures !st.up.closed ==> st.up.lost + st.up.failed == []
  {
    ReadsAreInputs(actions, st);
    ReachableInv(st);
    AnswersAreSent(st, s);
    Conserves(st.up, s);
    TakenIsDelivered(st.server.streams[s], s in st.server.active, Routed(st.server.reader, s), DataOf(st.up.taken, s));
  }

  lemma BodyPrefixOfTaken(r: Remote, isActive: bool, routed: seq<Byte>, taken: seq<Byte>)
    requires DeliveryOk(r, isActive, routed, taken)
    ensures r.body <= taken
  {
    var later := r.posted[|r.eaten|..];
    assert r.posted == r.eaten + later;
    R.BodyPrefix(r.eaten, later);
    BodyIsPrefix(r.posted);
    assert R.Body(r.eaten) <= AllData(r.posted) <= taken;
  }

  lemma OneReply(r: Remote)
    requires RemoteOk(r)
    ensures r.reply <= R.REFUSED_RESPONSE || r.reply <= R.NOT_FOUND_RESPONSE
    ensures r.reply != [] ==> R.Ends(r.eaten)
  {
    if R.Ends(r.eaten) {
      R.NothingAfterTheEnd(r.eaten, []);
    } else {
      R.NoReplyWithoutEnd(r.eaten);
    }
  }

  /** Whatever happens to a stream, the data its remote socket got is a prefix of what was read
      locally for it, followed by at most one of the two error responses. */
  lemma RemoteGetsPrefix(actions: seq<Action>, st: State, s: StreamId)
    requires Leads(actions, st) && s in st.server.streams
    ensures var r := st.server.streams[s];
            && r.body <= DataOf(LocalReads(actions, st.client.conns), s)
            && (r.reply <= R.REFUSED_RESPONSE || r.reply <= R.NOT_FOUND_RESPONSE)
            && (r.reply != [] ==> R.Ends(r.eaten))
  {
    ReadsAreInputs(actions, st);
    ReachableInv(st);
    AnswersAreSent(st, s);
    BodyPrefixOfTaken(st.server.streams[s], s in st.server.active, Routed(st.server.reader, s), DataOf(st.up.taken, s));
    PrefixOfSum(DataOf(st.up.taken, s), DataOf(InFlight(st.up), s), DataOf(st.up.lost + st.up.failed, s),
                Join(st.client.conns, s, Unsent), []);
    OneReply(st.server.streams[s]);
  }

  // ----- traffic -----

  /** The client's handler never meets a packet it does not expect: whatever it takes leaves it
      waiting for the next one or busy with data. */
  lemma HandlerExpectsAll(st: State)
    requires Reachable(st) && st.client.handler == Idle && CanHandle(st)
    ensures DoHandler(st).client.handler == Idle || DoHandler(st).client.handler.Looking?
  {
    ReachableInv(st);
    HandlerTakesKnown(st);
  }

  /** Nor does the server's reader: it takes data or a refusal and routes it, or a bare pong. */
  lemma ReaderExpectsAll(st: State)
    requires Reachable(st) && st.server.reader == Awaiting && CanReader(st)
    ensures || DoReader(st).server.reader.Routing?
            || (DoReader(st).server.reader == Awaiting && Deserialize(st.up.wire[0]) == Ok(Ping(None)))
  {
    ReachableInv(st);
    ReceiveValid(st.up);
    ReaderTakesTraffic(st);
  }

  /** The packets each direction has carried, and the accounting of pongs: the server has seen no
      more than the client sent, and the client sent one for each ping it handled. A client that
      is not anonymous is never given a reconnect token. */
  lemma DirectionDiscipline(st: State)
    requires Reachable(st)
    ensures forall p :: p in Sent(st.down) ==> p.Init? || p.Data? || p.End? || p.Ping?
    ensures forall p :: p in Sent(st.up) ==> p.Data? || p.Refused? || p == Ping(None)
    ensures forall p :: (p in Sent(st.down) || p in Sent(st.up)) && !p.Ping? ==> p.sid in st.server.streams
    ensures Pings(st.up.taken) <= Pings(Sent(st.up)) == Pings(st.down.taken) <= Pings(st.down.log)
    ensures !st.server.anonymous ==>
              st.client.token == None && forall p :: p in Sent(st.down) && p.Ping? ==> p.token == None
  {
    ReachableInv(st);
    forall p | p in Sent(st.down)
      ensures p.Init? || p.Data? || p.End? || p.Ping?
      ensures !p.Ping? ==> p.sid in st.server.streams
    {
      DownPacket(st, p);
    }
    forall p | p in Sent(st.up) ensures UpPacket(st.server.streams.Keys, p) {
    }
    TakenPings(st.up);
    TakenPings(st.down);
  }

  lemma TakenPings(l: Link)
    requires Valid(l)
    ensures Pings(l.taken) <= Pings(l.log) <= Pings(Sent(l))
  {
    assert l.log == l.taken + (InFlight(l) + l.lost);
    PingsConcat(l.taken, InFlight(l) + l.lost);
    PingsConcat(l.log, l.failed);
  }

  // ----- what no continuation undoes -----

  /** A closed channel stays closed and accepts nothing more. */
  ghost predicate ChannelKept(l: Link, next: Link) {
    l.closed ==> next.closed && next.log == l.log
  }

  /** A stream that left the server's map stays out of it. */
  ghost predicate DeparturesKept(sv: Server, next: Server) {
    forall s :: s in sv.streams && s !in sv.active ==> s in next.streams && s !in next.active
  }

  /** Close tasks keep their stream, and finished ones stay finished. */
  ghost predicate ClosersKept(closers: seq<Closer>, next: seq<Closer>) {
    && |closers| <= |next|
    && forall k :: 0 <= k < |closers| ==>
         next[k].sid == closers[k].sid && (closers[k].pc == CloserDone ==> next[k].pc == CloserDone)
  }

  ghost predicate Irreversible(st: State, next: State) {
    && ChannelKept(st.down, next.down)
    && DeparturesKept(st.server, next.server)
    && ClosersKept(st.client.closers, next.client.closers)
  }

  lemma TaskIrreversible(st: State, sid: StreamId)
    requires CanTask(st, sid)
    ensures Irreversible(st, DoTask(st, sid))
  {
  }

  lemma TaskReadIrreversible(st: State, sid: StreamId, outcome: ReadOutcome)
    requires CanRead(st, sid, outcome)
    ensures Irreversible(st, DoTaskRead(st, sid, outcome))
  {
  }

  lemma SinkIrreversible(st: State, sid: StreamId, count: nat)
    requires CanSink(st, sid, count)
    ensures Irreversible(st, DoSink(st, sid, count))
  {
  }

  lemma ReaderIrreversible(st: State)
    requires TrafficOk(st) && CanReader(st)
    ensures Irreversible(st, DoReader(st))
  {
    ReaderStreams(st);
  }

  lemma WriterIrreversible(st: State)
    requires CanWriter(st)
    ensures Irreversible(st, DoWriter(st))
  {
  }

  lemma HandlerIrreversible(st: State)
    requires CanHandle(st)
    ensures Irreversible(st, DoHandler(st))
  {
  }

  lemma CloserIrreversible(st: State, k: nat)
    requires CanClose(st, k)
    ensures Irreversible(st, DoCloser(st, k))
  {
  }

  lemma UntouchedIrreversible(st: State, next: State)
    requires next.server == st.server && next.down == st.down && next.client.closers == st.client.closers
    ensures Irreversible(st, next)
  {
  }

  lemma ServerIrreversible(st: State, a: Action)
    requires TrafficOk(st) && Enabled(st, a)
    requires ServerSide(a)
    ensures Irreversible(st, Apply(st, a))
  {
    match a {
      case Accept(sid) =>
      case TaskStep(sid) => TaskIrreversible(st, sid);
      case TaskRead(sid, outcome) => TaskReadIrreversible(st, sid, outcome);
      case SinkStep(sid, count) => SinkIrreversible(st, sid, count);
      case ReaderStep => ReaderIrreversible(st);
      case ReaderHangup =>
      case WriterStep => WriterIrreversible(st);
      case WriterFail =>
      case PingStep(token) =>
    }
  }

  lemma StepIrreversible(st: State, a: Action)
    requires TrafficOk(st) && Enabled(st, a)
    ensures Irreversible(st, Apply(st, a))
  {
    match a {
      case HandlerStep => HandlerIrreversible(st);
      case CloserStep(k) => CloserIrreversible(st, k);
      case HandlerConnect(_) => UntouchedIrreversible(st, Apply(st, a));
      case HandlerHalt => UntouchedIrreversible(st, Apply(st, a));
      case LocalRead(_, _) => UntouchedIrreversible(st, Apply(st, a));
      case LocalStep(_) => UntouchedIrreversible(st, Apply(st, a));
      case ForwardStep(_, _) => UntouchedIrreversible(st, Apply(st, a));
      case UplinkStep => UntouchedIrreversible(st, Apply(st, a));
      case UplinkFail => UntouchedIrreversible(st, Apply(st, a));
      case _ => ServerIrreversible(st, a);
    }
  }

  lemma {:induction false} RunIrreversible(from: State, actions: seq<Action>)
    requires Inv(from) && Run(from, actions).Some?
    ensures Irreversible(from, Run(from, actions).value)
    ensures Inv(Run(from, actions).value)
  {
    if actions != [] {
      var most := actions[..|actions| - 1];
      RunIrreversible(from, most);
      StepIrreversible(Run(from, most).value, actions[|actions| - 1]);
      StepKeeps(Run(from, most).value, actions[|actions| - 1]);
    }
  }

  lemma ContinuationIrreversible(st: State, later: State)
    requires Reachable(st) && Continues(st, later)
    ensures Irreversible(st, later) && Inv(later)
  {
    ReachableInv(st);
    var actions: seq<Action> :| Run(st, actions) == Some(later);
    RunIrreversible(st, actions);
  }

  /** Reclamation. Once the task spawned for a stream's end packet has finished, the stream is
      not in the client's map and never will be again, whatever came first. */
  lemma StreamReclaimed(st: State, later: State, k: nat)
    requires Reachable(st) && Continues(st, later)
    requires k < |st.client.closers| && st.client.closers[k].pc == CloserDone
    ensures st.client.closers[k].sid !in later.client.streams
  {
    ContinuationIrreversible(st, later);
    assert CloserOk(later.client.streams, later.client.conns, later.down.taken, later.client.closers[k]);
  }

  lemma OnTheWire(l: Link)
    requires Valid(l)
    ensures l.taken + DecodeAll(l.wire) <= l.log
  {
  }

  /** A removed client carries no traffic. Once its channel is closed no packet is ever accepted
      again, even if a late pong registers the client anew, and what its peer took and what is on
      the websocket remain an in-order prefix of what was accepted before. */
  lemma RemovedClientIsSilent(st: State, later: State)
    requires Reachable(st) && Continues(st, later) && st.down.closed
    ensures later.down.log == st.down.log
    ensures later.down.taken + DecodeAll(later.down.wire) <= st.down.log
  {
    ContinuationIrreversible(st, later);
    OnTheWire(later.down);
  }

  /** A stream that left the server's map never returns to it. */
  lemma StreamLeavesForGood(st: State, later: State, s: StreamId)
    requires Reachable(st) && Continues(st, later)
    requires s in st.server.streams && s !in st.server.active
    ensures s !in later.server.active
  {
    ContinuationIrreversible(st, later);
  }
}
