/** What every step keeps on the server side: the two links stay first-in-first-out, and what the
    server says about one stream follows the stream grammar. */
module TunnelServer {
  import opened Wrappers
  import Utf8
  import opened ControlPacket
  import opened Projection
  import opened Pipe
  import opened TunnelState

  // ----- links -----

  ghost predicate LinksOk(st: State) {
    && Valid(st.down)
    && Valid(st.up)
    && (st.server.writer != Ended ==> !st.down.stopped)
  }

  /** The reader takes a message or leaves both links alone, but that it may close the channel. */
  lemma ReaderLinks(st: State)
    requires CanReader(st)
    ensures DoReader(st).up == if st.server.reader == Awaiting then Receive(st.up) else st.up
    ensures DoReader(st).down == st.down || DoReader(st).down == Shut(st.down)
    ensures DoReader(st).server.writer == st.server.writer
  {
  }

  lemma ReaderKeepsLinks(st: State)
    requires LinksOk(st) && CanReader(st)
    ensures LinksOk(DoReader(st))
    ensures Sent(DoReader(st).down) == Sent(st.down)
    ensures Sent(DoReader(st).up) == Sent(st.up)
  {
    ReaderLinks(st);
    ShutValid(st.down);
    if st.server.reader == Awaiting {
      ReceiveValid(st.up);
    }
  }

  lemma PingKeepsLinks(st: State, token: Option<string>)
    requires LinksOk(st) && CanPing(st, token)
    ensures LinksOk(DoPing(st, token))
    ensures Sent(DoPing(st, token).down) ==
            Sent(st.down) + if st.server.pinger == Pinging then [Ping(token)] else []
  {
  }

  lemma LocalKeepsLinks(st: State, i: nat)
    requires LinksOk(st) && CanLocal(st, i)
    ensures LinksOk(DoLocal(st, i))
  {
  }

  lemma UplinkKeepsLinks(st: State)
    requires LinksOk(st) && CanUplink(st)
    ensures LinksOk(DoUplink(st))
    ensures Sent(DoUplink(st).up) == Sent(st.up)
  {
    if |st.up.hand| == 1 {
      PushValid(st.up);
    } else {
      PopValid(st.up);
    }
  }

  lemma DownSends(st: State, sid: StreamId)
    requires LinksOk(st) && CanTask(st, sid)
    ensures LinksOk(DoTask(st, sid))
    ensures Sent(DoTask(st, sid).down) == Sent(st.down) + Says(sid, st.server.streams[sid].task)
  {
    var says := Says(sid, st.server.streams[sid].task);
    ShutValid(st.down);
    if says != [] {
      SendValid(st.down, says[0]);
    }
  }

  /** The packet a stream task sends in its next step, if any. */
  function Says(sid: StreamId, task: TaskPc): seq<Packet> {
    match task
    case Opening => [Init(sid)]
    case Holding(chunk) => [Data(sid, chunk)]
    case Finishing => [End(sid)]
    case _ => []
  }

  lemma WriterKeepsLinks(st: State)
    requires LinksOk(st) && CanWriter(st)
    ensures LinksOk(DoWriter(st))
    ensures Sent(DoWriter(st).down) == Sent(st.down)
  {
    if st.server.writer == Disconnecting {
      AbortValid(Shut(st.down));
    } else if |st.down.hand| == 1 {
      PushValid(st.down);
    } else if st.down.queue != [] {
      PopValid(st.down);
    } else {
      AbortValid(st.down);
    }
  }

  lemma HandlerKeepsLinks(st: State)
    requires LinksOk(st) && CanHandle(st)
    ensures LinksOk(DoHandler(st))
    ensures Sent(DoHandler(st).down) == Sent(st.down)
  {
    if st.client.handler == Idle {
      ReceiveValid(st.down);
      SendValid(st.up, Ping(None));
    } else if st.client.handler.Finding? {
      SendValid(st.up, Refused(st.client.handler.sid));
    }
  }

  // ----- grammar -----

  /** An announcement and then data, every piece non-empty and within the read buffer. */
  ghost predicate Spoken(s: StreamId, h: seq<Packet>) {
    && h != [] && h[0] == Init(s)
    && forall k :: 1 <= k < |h| ==> h[k].Data? && h[k].sid == s && 0 < |h[k].data| <= SERVER_BUFFER
  }

  ghost predicate Concluded(s: StreamId, h: seq<Packet>) {
    |h| >= 2 && h[|h| - 1] == End(s) && Spoken(s, h[..|h| - 1])
  }

  /** A prefix of: Init, Data, ..., Data, End. */
  ghost predicate Grammar(s: StreamId, h: seq<Packet>) {
    h == [] || Spoken(s, h) || Concluded(s, h)
  }

  lemma GrammarPrefix(s: StreamId, h: seq<Packet>, n: nat)
    requires Grammar(s, h) && n <= |h|
    ensures Grammar(s, h[..n])
  {
    if n == |h| {
      assert h[..n] == h;
    } else if 0 < n {
      assert Spoken(s, h[..n]);
    }
  }

  /** What the history of stream `s` is when its task stands at `task`. */
  ghost predicate TaskOk(s: StreamId, task: TaskPc, h: seq<Packet>, received: seq<Utf8.Byte>) {
    match task
    case Opening => h == [] && received == []
    case Holding(chunk) => Spoken(s, h) && 0 < |chunk| <= SERVER_BUFFER && received == DataOf(h, s) + chunk
    case Returned => h != [] && Grammar(s, h) && received == DataOf(h, s)
    case _ => Spoken(s, h) && received == DataOf(h, s)
  }

  ghost predicate StreamOk(streams: map<StreamId, Remote>, sent: seq<Packet>, received: seq<Packet>, s: StreamId) {
    if s in streams then TaskOk(s, streams[s].task, Of(sent, s), DataOf(received, s))
    else Of(sent, s) == [] && DataOf(received, s) == []
  }

  ghost predicate StreamsOk(streams: map<StreamId, Remote>, sent: seq<Packet>, received: seq<Packet>) {
    forall s: StreamId :: StreamOk(streams, sent, received, s)
  }

  ghost predicate TasksOk(st: State) {
    StreamsOk(st.server.streams, Sent(st.down), st.server.received)
  }

  /** The task states one step can lead to. */
  predicate Follows(task: TaskPc, next: TaskPc) {
    match task
    case Opening => next == Checking || next == Unlisting
    case Holding(_) => next == Checking || next == Unlisting
    case Checking => next == Reading || next == Abandoning
    case Unlisting => next == Checking
    case Abandoning => next == Shutting
    case Finishing => next == Returned
    case Shutting => next == Returned
    case _ => false
  }

  lemma SaysFits(s: StreamId, task: TaskPc, h: seq<Packet>, received: seq<Utf8.Byte>, next: TaskPc)
    requires TaskOk(s, task, h, received) && Follows(task, next)
    ensures TaskOk(s, next, h + Says(s, task), received)
  {
    var says := Says(s, task);
    if says == [] {
      assert h + says == h;
    } else {
      Append(h, says[0], s);
      assert (h + says)[..|h|] == h;
      if task == Opening {
        assert DataOf(h, s) == [];
      }
    }
  }

  lemma SaysAbout(sid: StreamId, task: TaskPc, s: StreamId)
    ensures Of(Says(sid, task), s) == if s == sid then Says(sid, task) else []
  {
  }

  /** One stream's view of a step of stream `sid`'s task. */
  lemma StreamSpeaks(streams: map<StreamId, Remote>, sent: seq<Packet>, received: seq<Packet>,
                     sid: StreamId, next: Remote, s: StreamId)
    requires sid in streams && Follows(streams[sid].task, next.task)
    requires StreamOk(streams, sent, received, s)
    ensures StreamOk(streams[sid := next], sent + Says(sid, streams[sid].task), received, s)
  {
    var says := Says(sid, streams[sid].task);
    OfConcat(sent, says, s);
    SaysAbout(sid, streams[sid].task, s);
    if s == sid {
      SaysFits(s, streams[s].task, Of(sent, s), DataOf(received, s), next.task);
    } else {
      assert Of(sent + says, s) == Of(sent, s);
    }
  }

  lemma TaskKeepsGrammar(st: State, sid: StreamId)
    requires LinksOk(st) && TasksOk(st) && CanTask(st, sid)
    ensures TasksOk(DoTask(st, sid))
  {
    DownSends(st, sid);
    forall s: StreamId
      ensures StreamOk(DoTask(st, sid).server.streams, Sent(DoTask(st, sid).down), DoTask(st, sid).server.received, s)
    {
      assert StreamOk(st.server.streams, Sent(st.down), st.server.received, s);
      StreamSpeaks(st.server.streams, Sent(st.down), st.server.received, sid,
                   DoTask(st, sid).server.streams[sid], s);
    }
  }

  /** One stream's view of a read by stream `sid`'s task. */
  lemma StreamReads(streams: map<StreamId, Remote>, sent: seq<Packet>, received: seq<Packet>,
                    sid: StreamId, chunk: seq<Utf8.Byte>, s: StreamId)
    requires sid in streams && streams[sid].task == Reading && 0 < |chunk| <= SERVER_BUFFER
    requires StreamOk(streams, sent, received, s)
    ensures StreamOk(streams[sid := streams[sid].(task := Holding(chunk))], sent,
                     received + [Data(sid, chunk)], s)
  {
  }

  lemma ReadKeepsGrammar(st: State, sid: StreamId, outcome: ReadOutcome)
    requires TasksOk(st) && CanRead(st, sid, outcome)
    ensures TasksOk(DoTaskRead(st, sid, outcome))
  {
    var next := DoTaskRead(st, sid, outcome);
    forall s: StreamId
      ensures StreamOk(next.server.streams, Sent(next.down), next.server.received, s)
    {
      assert StreamOk(st.server.streams, Sent(st.down), st.server.received, s);
      if outcome.Got? {
        StreamReads(st.server.streams, Sent(st.down), st.server.received, sid, outcome.data, s);
      }
    }
  }

  /** One stream's view of a packet about something else. */
  lemma StreamIgnores(streams: map<StreamId, Remote>, sent: seq<Packet>, received: seq<Packet>,
                      p: Packet, s: StreamId)
    requires StreamOk(streams, sent, received, s) && p.Ping?
    ensures StreamOk(streams, sent + [p], received, s)
  {
    Append(sent, p, s);
    assert Of(sent + [p], s) == Of(sent, s);
  }

  lemma PingKeepsGrammar(st: State, token: Option<string>)
    requires LinksOk(st) && TasksOk(st) && CanPing(st, token)
    ensures TasksOk(DoPing(st, token))
  {
    PingKeepsLinks(st, token);
    var sent := Sent(st.down);
    assert sent + [] == sent;
    forall s: StreamId
      ensures StreamOk(st.server.streams, Sent(DoPing(st, token).down), st.server.received, s)
    {
      assert StreamOk(st.server.streams, sent, st.server.received, s);
      StreamIgnores(st.server.streams, sent, st.server.received, Ping(token), s);
    }
  }

  /** A step that moves no stream task and sends nothing down keeps the grammar. */
  lemma OthersKeepGrammar(st: State, next: State)
    requires TasksOk(st)
    requires next.server.streams.Keys == st.server.streams.Keys
    requires forall s :: s in st.server.streams ==> next.server.streams[s].task == st.server.streams[s].task
    requires Sent(next.down) == Sent(st.down) && next.server.received == st.server.received
    ensures TasksOk(next)
  {
    forall s: StreamId
      ensures StreamOk(next.server.streams, Sent(next.down), next.server.received, s)
    {
      assert StreamOk(st.server.streams, Sent(st.down), st.server.received, s);
      assert s in st.server.streams <==> s in st.server.streams.Keys;
      assert s in next.server.streams <==> s in next.server.streams.Keys;
    }
  }

  lemma AcceptKeepsGrammar(st: State, sid: StreamId)
    requires TasksOk(st) && sid !in st.server.streams
    ensures TasksOk(DoAccept(st, sid))
  {
    var next := DoAccept(st, sid);
    forall s: StreamId
      ensures StreamOk(next.server.streams, Sent(next.down), next.server.received, s)
    {
      assert StreamOk(st.server.streams, Sent(st.down), st.server.received, s);
    }
  }
}
