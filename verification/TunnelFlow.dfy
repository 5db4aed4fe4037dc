/** Where the bytes of a stream are on the client side, in both directions. */
module TunnelFlow {
  import opened Wrappers
  import opened Utf8
  import opened ControlPacket
  import opened Projection
  import opened Pipe
  import opened TunnelState
  import TunnelServer
  import opened TunnelClient

  // ----- concatenating over the successive connections of a stream -----

  datatype Part = Fed | Placed | Read | Unsent

  function PartOf(c: Conn, part: Part): seq<Byte> {
    match part
    case Fed => c.fed
    case Placed => c.written + Chunks(c.queue)   // in the socket, or on its way to it
    case Read => c.read
    case Unsent => if c.reader.LocalHolding? then c.reader.data else []
  }

  /** One part of every connection of stream `s`, oldest connection first. */
  function Join(conns: seq<Conn>, s: StreamId, part: Part): seq<Byte> {
    if conns == [] then []
    else
      var last := conns[|conns| - 1];
      Join(conns[..|conns| - 1], s, part) + (if last.stream == s then PartOf(last, part) else [])
  }

  lemma {:induction false} JoinSame(conns: seq<Conn>, i: nat, c: Conn, s: StreamId, part: Part)
    requires i < |conns| && c.stream == conns[i].stream && PartOf(c, part) == PartOf(conns[i], part)
    ensures Join(conns[i := c], s, part) == Join(conns, s, part)
  {
    var n := |conns| - 1;
    if i < n {
      assert conns[i := c][..n] == conns[..n][i := c];
      JoinSame(conns[..n], i, c, s, part);
    } else {
      assert conns[i := c][..n] == conns[..n];
    }
  }

  lemma {:induction false} JoinOther(conns: seq<Conn>, i: nat, c: Conn, s: StreamId, part: Part)
    requires i < |conns| && c.stream == conns[i].stream && c.stream != s
    ensures Join(conns[i := c], s, part) == Join(conns, s, part)
  {
    var n := |conns| - 1;
    if i < n {
      assert conns[i := c][..n] == conns[..n][i := c];
      JoinOther(conns[..n], i, c, s, part);
    } else {
      assert conns[i := c][..n] == conns[..n];
    }
  }

  lemma {:induction false} JoinGrows(conns: seq<Conn>, i: nat, c: Conn, part: Part, more: seq<Byte>)
    requires Newest(conns, i) && c.stream == conns[i].stream && PartOf(c, part) == PartOf(conns[i], part) + more
    ensures Join(conns[i := c], c.stream, part) == Join(conns, c.stream, part) + more
  {
    var n := |conns| - 1;
    if i < n {
      assert conns[i := c][..n] == conns[..n][i := c];
      assert conns[n].stream != c.stream;
      JoinGrows(conns[..n], i, c, part, more);
    } else {
      assert conns[i := c][..n] == conns[..n];
    }
  }

  /** Extending a part of a stream's newest connection extends the concatenation at its end. */
  lemma JoinExtends(conns: seq<Conn>, i: nat, c: Conn, s: StreamId, part: Part, more: seq<Byte>)
    requires Newest(conns, i) && c.stream == conns[i].stream && PartOf(c, part) == PartOf(conns[i], part) + more
    ensures Join(conns[i := c], s, part) == Join(conns, s, part) + if s == c.stream then more else []
  {
    if s == c.stream {
      JoinGrows(conns, i, c, part, more);
    } else {
      JoinOther(conns, i, c, s, part);
    }
  }

  lemma {:induction false} JoinOnly(conns: seq<Conn>, i: nat, part: Part)
    requires i < |conns|
    requires forall j :: 0 <= j < |conns| && j != i && conns[j].stream == conns[i].stream ==>
               PartOf(conns[j], part) == []
    ensures Join(conns, conns[i].stream, part) == PartOf(conns[i], part)
  {
    var n := |conns| - 1;
    if i < n {
      JoinOnly(conns[..n], i, part);
    } else {
      JoinNone(conns[..n], conns[i].stream, part);
    }
  }

  lemma {:induction false} JoinNone(conns: seq<Conn>, s: StreamId, part: Part)
    requires forall j :: 0 <= j < |conns| && conns[j].stream == s ==> PartOf(conns[j], part) == []
    ensures Join(conns, s, part) == []
  {
    if conns != [] {
      JoinNone(conns[..|conns| - 1], s, part);
    }
  }

  lemma {:induction false} JoinAgrees(conns: seq<Conn>, s: StreamId, part: Part, other: Part)
    requires forall j :: 0 <= j < |conns| && conns[j].stream == s ==> PartOf(conns[j], part) == PartOf(conns[j], other)
    ensures Join(conns, s, part) == Join(conns, s, other)
  {
    if conns != [] {
      JoinAgrees(conns[..|conns| - 1], s, part, other);
    }
  }

  // ----- towards the local side -----

  /** The data of stream `s` that the handler holds and has not handed on. */
  function InHand(handler: HandlerPc, s: StreamId): seq<Byte> {
    match handler
    case Idle => []
    case Halted(undelivered, last) => if last == s then undelivered else []
    case Looking(sid, data) => if sid == s then data else []
    case Connecting(sid, data) => if sid == s then data else []
    case Inserting(sid, data, _) => if sid == s then data else []
    case Finding(sid, data) => if sid == s then data else []
    case Pushing(sid, data, _) => if sid == s then data else []
  }

  function Chunks(queue: seq<LocalMessage>): seq<Byte> {
    if queue == [] then []
    else (if queue[0].Chunk? then queue[0].data else []) + Chunks(queue[1..])
  }

  lemma {:induction false} ChunksAppend(queue: seq<LocalMessage>, m: LocalMessage)
    ensures Chunks(queue + [m]) == Chunks(queue) + if m.Chunk? then m.data else []
  {
    if queue == [] {
      assert [m] == queue + [m] && Chunks([m][1..]) == [];
    } else {
      assert (queue + [m])[1..] == queue[1..] + [m];
      ChunksAppend(queue[1..], m);
    }
  }

  predicate Ended(c: Conn) {
    c.forwarder == ForwarderClosed || c.forwarder == ForwarderFailed
  }

  /** A local socket has received a prefix of what was queued for it, and the rest is still
      queued unless its writer has ended. */
  ghost predicate ConnFlows(c: Conn) {
    && c.written + Chunks(c.queue) <= c.fed
    && (!Ended(c) ==> c.fed == c.written + Chunks(c.queue))
    && (Ended(c) ==> !c.open && c.queue == [])
  }

  ghost predicate FedOk(cl: Client, taken: seq<Packet>, s: StreamId) {
    && Join(cl.conns, s, Fed) == DataOf(cl.pushed, s)
    && |DataOf(taken, s)| == |DataOf(cl.pushed, s)| + |DataOf(cl.skipped, s)| + |InHand(cl.handler, s)|
    && (DataOf(cl.skipped, s) == [] ==> DataOf(taken, s) == DataOf(cl.pushed, s) + InHand(cl.handler, s))
  }

  /** The connection the handler is about to map has no writer yet. */
  ghost predicate Unmapped(cl: Client) {
    cl.handler.Inserting? ==>
      cl.handler.conn < |cl.conns| && cl.conns[cl.handler.conn].forwarder == Unspawned
  }

  ghost predicate RequestsOk(cl: Client, taken: seq<Packet>) {
    && Unmapped(cl)
    && (forall s: StreamId :: FedOk(cl, taken, s))
    && forall i :: 0 <= i < |cl.conns| ==> ConnFlows(cl.conns[i])
  }

  ghost predicate FlowOk(st: State) {
    RequestsOk(st.client, st.down.taken)
  }

  /** Replacing a connection by one that was fed the same. */
  lemma ConnReplaced(cl: Client, next: Client, taken: seq<Packet>, i: nat)
    requires RequestsOk(cl, taken) && i < |cl.conns| && |next.conns| == |cl.conns|
    requires next.conns == cl.conns[i := next.conns[i]] && Unmapped(next)
    requires next.conns[i].stream == cl.conns[i].stream && next.conns[i].fed == cl.conns[i].fed
    requires ConnFlows(next.conns[i])
    requires next.pushed == cl.pushed && next.skipped == cl.skipped
    requires forall s: StreamId :: InHand(next.handler, s) == InHand(cl.handler, s)
    ensures RequestsOk(next, taken)
  {
    forall s: StreamId ensures FedOk(next, taken, s) {
      assert FedOk(cl, taken, s);
      JoinSame(cl.conns, i, next.conns[i], s, Fed);
    }
  }

  lemma NoConnReplaced(cl: Client, next: Client, taken: seq<Packet>)
    requires RequestsOk(cl, taken) && next.conns == cl.conns && Unmapped(next)
    requires next.pushed == cl.pushed && next.skipped == cl.skipped
    requires forall s: StreamId :: InHand(next.handler, s) == InHand(cl.handler, s)
    ensures RequestsOk(next, taken)
  {
    forall s: StreamId ensures FedOk(next, taken, s) {
      assert FedOk(cl, taken, s);
    }
  }

  lemma FeedFlows(c: Conn, m: LocalMessage)
    requires ConnFlows(c)
    ensures ConnFlows(Feed(c, m))
  {
    ChunksAppend(c.queue, m);
  }

  lemma ForwardFlows(c: Conn, count: nat)
    requires ConnFlows(c) && c.forwarder == Forwarding && count <= ChunkSize(c)
    ensures ConnFlows(Forward(c, count))
  {
  }

  /** One stream's view of a packet the handler takes. */
  lemma TakeFed(cl: Client, next: Client, taken: seq<Packet>, p: Packet, s: StreamId)
    requires FedOk(cl, taken, s) && cl.handler == Idle
    requires next.conns == cl.conns && next.pushed == cl.pushed && next.skipped == cl.skipped
    requires InHand(next.handler, s) == if p.Data? && p.sid == s then p.data else []
    ensures FedOk(next, taken + [p], s)
  {
    Append(taken, p, s);
  }

  lemma TakeFlows(cl: Client, next: Client, taken: seq<Packet>, p: Packet)
    requires RequestsOk(cl, taken) && cl.handler == Idle
    requires next.conns == cl.conns && next.pushed == cl.pushed && next.skipped == cl.skipped
    requires p.Data? ==> next.handler == Looking(p.sid, p.data)
    requires !p.Data? ==> next.handler == Idle || next.handler == Halted([], EMPTY_STREAM)
    ensures RequestsOk(next, taken + [p])
  {
    forall s: StreamId ensures FedOk(next, taken + [p], s) {
      assert FedOk(cl, taken, s);
      TakeFed(cl, next, taken, p, s);
    }
  }

  lemma PushFlows(cl: Client, next: Client, taken: seq<Packet>)
    requires RequestsOk(cl, taken) && cl.handler.Pushing? && Newest(cl.conns, cl.handler.conn)
    requires cl.conns[cl.handler.conn].stream == cl.handler.sid && cl.conns[cl.handler.conn].open
    requires next.conns == cl.conns[cl.handler.conn := Feed(cl.conns[cl.handler.conn], Chunk(cl.handler.data))]
    requires next.pushed == cl.pushed + [Data(cl.handler.sid, cl.handler.data)]
    requires next.handler == Idle && next.skipped == cl.skipped
    ensures RequestsOk(next, taken)
  {
    var conn, data := cl.handler.conn, cl.handler.data;
    FeedFlows(cl.conns[conn], Chunk(data));
    forall s: StreamId ensures FedOk(next, taken, s) {
      assert FedOk(cl, taken, s);
      JoinExtends(cl.conns, conn, next.conns[conn], s, Fed, data);
      Append(cl.pushed, Data(cl.handler.sid, data), s);
    }
  }

  lemma HandlerKeepsFlow(st: State)
    requires TunnelServer.LinksOk(st) && ClientOk(st) && FlowOk(st) && CanHandle(st)
    ensures FlowOk(DoHandler(st))
  {
    var cl, next, taken := st.client, DoHandler(st).client, st.down.taken;
    match cl.handler {
      case Idle => TakingKeepsFlow(st);
      case Pushing(_, _, conn) => PushingKeepsFlow(st);
      case Inserting(_, _, conn) => ConnReplacedByInsert(cl, next, taken);
      case Finding(_, _) => FindingKeepsFlow(st);
      case _ => NoConnReplaced(cl, next, taken);
    }
  }

  lemma TakingKeepsFlow(st: State)
    requires TunnelServer.LinksOk(st) && FlowOk(st) && CanHandle(st) && st.client.handler == Idle
    ensures FlowOk(DoHandler(st))
  {
    var p := Deserialize(st.down.wire[0]).value;
    ReceiveValid(st.down);
    TakeFrame(st, p);
    TakeFlows(st.client, DoHandler(st).client, st.down.taken, p);
  }

  lemma FindingKeepsFlow(st: State)
    requires FlowOk(st) && CanHandle(st) && st.client.handler.Finding?
    ensures FlowOk(DoHandler(st))
  {
    if st.client.handler.sid in st.client.streams || st.up.closed {
      NoConnReplaced(st.client, DoHandler(st).client, st.down.taken);
    } else {
      SkipFlows(st.client, DoHandler(st).client, st.down.taken);
    }
  }

  lemma PushingKeepsFlow(st: State)
    requires ClientOk(st) && FlowOk(st) && CanHandle(st) && st.client.handler.Pushing?
    ensures FlowOk(DoHandler(st))
  {
    if st.client.conns[st.client.handler.conn].open {
      PushFlows(st.client, DoHandler(st).client, st.down.taken);
    } else {
      NoConnReplaced(st.client, DoHandler(st).client, st.down.taken);
    }
  }

  lemma SkipFlows(cl: Client, next: Client, taken: seq<Packet>)
    requires RequestsOk(cl, taken) && cl.handler.Finding?
    requires next.conns == cl.conns && next.pushed == cl.pushed && next.handler == Idle
    requires next.skipped == cl.skipped + [Data(cl.handler.sid, cl.handler.data)]
    ensures RequestsOk(next, taken)
  {
    forall s: StreamId ensures FedOk(next, taken, s) {
      assert FedOk(cl, taken, s);
      Append(cl.skipped, Data(cl.handler.sid, cl.handler.data), s);
    }
  }

  lemma ConnReplacedByInsert(cl: Client, next: Client, taken: seq<Packet>)
    requires RequestsOk(cl, taken) && cl.handler.Inserting? && cl.handler.conn < |cl.conns|
    requires next.conns == cl.conns[cl.handler.conn := cl.conns[cl.handler.conn].(forwarder := Forwarding)]
    requires next.pushed == cl.pushed && next.skipped == cl.skipped
    requires next.handler == Finding(cl.handler.sid, cl.handler.data)
    ensures RequestsOk(next, taken)
  {
    assert ConnFlows(cl.conns[cl.handler.conn]);
    ConnReplaced(cl, next, taken, cl.handler.conn);
  }

  lemma ConnectFlows(cl: Client, next: Client, taken: seq<Packet>, c: Conn)
    requires RequestsOk(cl, taken) && cl.handler.Connecting? && next.conns == cl.conns + [c]
    requires c == Conn(cl.handler.sid, LocalReading, Unspawned, true, [], [], [], [])
    requires next.handler == Inserting(cl.handler.sid, cl.handler.data, |cl.conns|)
    requires next.pushed == cl.pushed && next.skipped == cl.skipped
    ensures RequestsOk(next, taken)
  {
    forall s: StreamId ensures FedOk(next, taken, s) {
      assert FedOk(cl, taken, s);
      assert next.conns[..|cl.conns|] == cl.conns;
    }
  }

  lemma ConnectKeepsFlow(st: State, outcome: ConnectOutcome)
    requires FlowOk(st) && CanConnect(st)
    ensures FlowOk(DoConnect(st, outcome))
  {
    var next := DoConnect(st, outcome).client;
    if outcome == Opened {
      ConnectFlows(st.client, next, st.down.taken, next.conns[|st.client.conns|]);
    } else {
      NoConnReplaced(st.client, next, st.down.taken);
    }
  }

  lemma HaltKeepsFlow(st: State)
    requires FlowOk(st) && (st.client.handler == Idle || st.client.handler.Connecting?)
    ensures FlowOk(DoHalt(st))
  {
    NoConnReplaced(st.client, DoHalt(st).client, st.down.taken);
  }

  lemma CloserKeepsFlow(st: State, k: nat)
    requires FlowOk(st) && CanClose(st, k)
    ensures FlowOk(DoCloser(st, k))
  {
    var cl, next := st.client, DoCloser(st, k).client;
    if cl.closers[k].pc.CloserWaiting? && cl.closers[k].pc.conn < |cl.conns| {
      FeedFlows(cl.conns[cl.closers[k].pc.conn], Close);
      ConnReplaced(cl, next, st.down.taken, cl.closers[k].pc.conn);
    } else {
      NoConnReplaced(cl, next, st.down.taken);
    }
  }

  lemma LocalReadKeepsFlow(st: State, i: nat, outcome: ReadOutcome)
    requires FlowOk(st) && CanLocalRead(st, i, outcome)
    ensures FlowOk(DoLocalRead(st, i, outcome))
  {
    assert ConnFlows(st.client.conns[i]);
    ConnReplaced(st.client, DoLocalRead(st, i, outcome).client, st.down.taken, i);
  }

  lemma LocalKeepsFlow(st: State, i: nat)
    requires FlowOk(st) && CanLocal(st, i)
    ensures FlowOk(DoLocal(st, i))
  {
    assert ConnFlows(st.client.conns[i]);
    ConnReplaced(st.client, DoLocal(st, i).client, st.down.taken, i);
  }

  lemma ForwardKeepsFlow(st: State, i: nat, count: nat)
    requires FlowOk(st) && CanForward(st, i, count)
    ensures FlowOk(DoForward(st, i, count))
  {
    ForwardFlows(st.client.conns[i], count);
    ConnReplaced(st.client, DoForward(st, i, count).client, st.down.taken, i);
  }

  // ----- from the local side -----

  ghost predicate AnswerOk(cl: Client, sent: seq<Packet>, s: StreamId) {
    && Join(cl.conns, s, Read) == DataOf(cl.answers, s)
    && DataOf(cl.answers, s) == DataOf(sent, s) + Join(cl.conns, s, Unsent)
  }

  /** Bytes read locally are in the order of the connections they came from, and each has been
      sent up or is held by a task about to send it. */
  ghost predicate AnswersOk(st: State) {
    forall s: StreamId :: AnswerOk(st.client, Sent(st.up), s)
  }

  lemma AnswerIgnores(cl: Client, sent: seq<Packet>, p: Packet, s: StreamId)
    requires AnswerOk(cl, sent, s) && !p.Data?
    ensures AnswerOk(cl, sent + [p], s)
  {
  }

  /** Replacing a connection whose reading side is unchanged. */
  lemma AnswersReplaced(cl: Client, next: Client, sent: seq<Packet>, i: nat)
    requires forall s: StreamId :: AnswerOk(cl, sent, s)
    requires i < |cl.conns| && |next.conns| == |cl.conns| && next.conns == cl.conns[i := next.conns[i]]
    requires next.conns[i].stream == cl.conns[i].stream && next.conns[i].read == cl.conns[i].read
    requires PartOf(next.conns[i], Unsent) == PartOf(cl.conns[i], Unsent)
    requires next.answers == cl.answers
    ensures forall s: StreamId :: AnswerOk(next, sent, s)
  {
    forall s: StreamId ensures AnswerOk(next, sent, s) {
      assert AnswerOk(cl, sent, s);
      JoinSame(cl.conns, i, next.conns[i], s, Read);
      JoinSame(cl.conns, i, next.conns[i], s, Unsent);
    }
  }

  lemma AnswersSame(cl: Client, next: Client, sent: seq<Packet>, more: seq<Packet>)
    requires forall s: StreamId :: AnswerOk(cl, sent, s)
    requires next.conns == cl.conns && next.answers == cl.answers
    requires more == [] || (|more| == 1 && !more[0].Data?)
    ensures forall s: StreamId :: AnswerOk(next, sent + more, s)
  {
    forall s: StreamId ensures AnswerOk(next, sent + more, s) {
      assert AnswerOk(cl, sent, s);
      if more == [] {
        assert sent + more == sent;
      } else {
        assert more == [more[0]];
        AnswerIgnores(next, sent, more[0], s);
      }
    }
  }

  lemma HandlerKeepsAnswers(st: State)
    requires TunnelServer.LinksOk(st) && ClientOk(st) && AnswersOk(st) && CanHandle(st)
    ensures AnswersOk(DoHandler(st))
  {
    var cl, next := st.client, DoHandler(st);
    match cl.handler {
      case Idle =>
        SendValid(st.up, Ping(None));
        AnswersSame(cl, next.client, Sent(st.up), []);
        AnswersSame(cl, next.client, Sent(st.up), [Ping(None)]);
        assert Sent(st.up) + [] == Sent(st.up);
      case Finding(sid, _) =>
        SendValid(st.up, Refused(sid));
        AnswersSame(cl, next.client, Sent(st.up), []);
        AnswersSame(cl, next.client, Sent(st.up), [Refused(sid)]);
        assert Sent(st.up) + [] == Sent(st.up);
      case Inserting(_, _, conn) => AnswersReplaced(cl, next.client, Sent(st.up), conn);
      case Pushing(_, _, conn) =>
        if cl.conns[conn].open {
          AnswersReplaced(cl, next.client, Sent(st.up), conn);
        } else {
          AnswersSame(cl, next.client, Sent(st.up), []);
          assert Sent(st.up) + [] == Sent(st.up);
        }
      case Looking(_, _) =>
        AnswersSame(cl, next.client, Sent(st.up), []);
        assert Sent(st.up) + [] == Sent(st.up);
      case Connecting(_, _) =>
      case Halted(_, _) =>
    }
  }

  lemma ConnectAnswers(cl: Client, next: Client, sent: seq<Packet>, c: Conn)
    requires forall s: StreamId :: AnswerOk(cl, sent, s)
    requires next.conns == cl.conns + [c] && next.answers == cl.answers
    requires c.read == [] && PartOf(c, Unsent) == []
    ensures forall s: StreamId :: AnswerOk(next, sent, s)
  {
    forall s: StreamId ensures AnswerOk(next, sent, s) {
      assert AnswerOk(cl, sent, s);
      assert next.conns[..|cl.conns|] == cl.conns;
    }
  }

  lemma ConnectKeepsAnswers(st: State, outcome: ConnectOutcome)
    requires TunnelServer.LinksOk(st) && AnswersOk(st) && CanConnect(st)
    ensures AnswersOk(DoConnect(st, outcome))
  {
    var next := DoConnect(st, outcome).client;
    var sid := st.client.handler.sid;
    match outcome {
      case Opened => ConnectAnswers(st.client, next, Sent(st.up), next.conns[|st.client.conns|]);
      case Refusing =>
        SendValid(st.up, Refused(sid));
        AnswersSame(st.client, next, Sent(st.up), [Refused(sid)]);
      case BadName =>
        AnswersSame(st.client, next, Sent(st.up), []);
        assert Sent(st.up) + [] == Sent(st.up);
    }
  }

  lemma CloserKeepsAnswers(st: State, k: nat)
    requires AnswersOk(st) && CanClose(st, k)
    ensures AnswersOk(DoCloser(st, k))
  {
    var cl, next := st.client, DoCloser(st, k).client;
    if cl.closers[k].pc.CloserWaiting? && cl.closers[k].pc.conn < |cl.conns| {
      AnswersReplaced(cl, next, Sent(st.up), cl.closers[k].pc.conn);
    } else {
      AnswersSame(cl, next, Sent(st.up), []);
      assert Sent(st.up) + [] == Sent(st.up);
    }
  }

  lemma ForwardKeepsAnswers(st: State, i: nat, count: nat)
    requires AnswersOk(st) && CanForward(st, i, count)
    ensures AnswersOk(DoForward(st, i, count))
  {
    AnswersReplaced(st.client, DoForward(st, i, count).client, Sent(st.up), i);
  }

  lemma ReadAnswer(cl: Client, next: Client, sent: seq<Packet>, i: nat, data: seq<Byte>, s: StreamId)
    requires AnswerOk(cl, sent, s)
    requires Newest(cl.conns, i) && cl.conns[i].reader == LocalReading
    requires next.conns == cl.conns[i := cl.conns[i].(reader := LocalHolding(data), read := cl.conns[i].read + data)]
    requires next.answers == cl.answers + [Data(cl.conns[i].stream, data)]
    ensures AnswerOk(next, sent, s)
  {
    var more := if s == cl.conns[i].stream then data else [];
    assert Join(next.conns, s, Read) == Join(cl.conns, s, Read) + more by {
      JoinExtends(cl.conns, i, next.conns[i], s, Read, data);
    }
    assert Join(next.conns, s, Unsent) == Join(cl.conns, s, Unsent) + more by {
      JoinExtends(cl.conns, i, next.conns[i], s, Unsent, data);
    }
    assert DataOf(next.answers, s) == DataOf(cl.answers, s) + more by {
      Append(cl.answers, Data(cl.conns[i].stream, data), s);
    }
    var unsent := Join(cl.conns, s, Unsent);
    assert DataOf(sent, s) + (unsent + more) == (DataOf(sent, s) + unsent) + more;
  }

  lemma LocalReadKeepsAnswers(st: State, i: nat, outcome: ReadOutcome)
    requires ClientOk(st) && AnswersOk(st) && CanLocalRead(st, i, outcome)
    ensures AnswersOk(DoLocalRead(st, i, outcome))
  {
    var next := DoLocalRead(st, i, outcome).client;
    if outcome.Got? {
      assert Newest(st.client.conns, i);
      forall s: StreamId ensures AnswerOk(next, Sent(st.up), s) {
        ReadAnswer(st.client, next, Sent(st.up), i, outcome.data, s);
      }
    } else {
      AnswersReplaced(st.client, next, Sent(st.up), i);
    }
  }

  /** Only the unfinished reader of a stream can hold unsent data of it. */
  lemma OneHolder(cl: Client, taken: seq<Packet>, i: nat)
    requires LocalOk(cl, taken) && i < |cl.conns| && cl.conns[i].reader.LocalHolding?
    ensures Join(cl.conns, cl.conns[i].stream, Unsent) == cl.conns[i].reader.data
    ensures forall pc: LocalPc :: !pc.LocalHolding? ==>
              Join(cl.conns[i := cl.conns[i].(reader := pc)], cl.conns[i].stream, Unsent) == []
  {
    forall j | 0 <= j < |cl.conns| && j != i && cl.conns[j].stream == cl.conns[i].stream
      ensures PartOf(cl.conns[j], Unsent) == []
    {
      if Alive(cl.conns[j]) {
        OneReader(cl, taken, i, j);
      }
    }
    JoinOnly(cl.conns, i, Unsent);
    forall pc: LocalPc | !pc.LocalHolding?
      ensures Join(cl.conns[i := cl.conns[i].(reader := pc)], cl.conns[i].stream, Unsent) == []
    {
      JoinOnly(cl.conns[i := cl.conns[i].(reader := pc)], i, Unsent);
    }
  }

  /** That reader sends what it holds. */
  lemma SendAnswer(cl: Client, next: Client, taken: seq<Packet>, sent: seq<Packet>, i: nat, pc: LocalPc, s: StreamId)
    requires LocalOk(cl, taken) && AnswerOk(cl, sent, s)
    requires i < |cl.conns| && cl.conns[i].reader.LocalHolding? && !pc.LocalHolding?
    requires next.conns == cl.conns[i := cl.conns[i].(reader := pc)] && next.answers == cl.answers
    ensures AnswerOk(next, sent + [Data(cl.conns[i].stream, cl.conns[i].reader.data)], s)
  {
    JoinSame(cl.conns, i, next.conns[i], s, Read);
    Append(sent, Data(cl.conns[i].stream, cl.conns[i].reader.data), s);
    if s == cl.conns[i].stream {
      OneHolder(cl, taken, i);
    } else {
      JoinOther(cl.conns, i, next.conns[i], s, Unsent);
    }
  }

  lemma LocalKeepsAnswers(st: State, i: nat)
    requires TunnelServer.LinksOk(st) && ClientOk(st) && AnswersOk(st) && CanLocal(st, i)
    ensures AnswersOk(DoLocal(st, i))
  {
    var cl, next := st.client, DoLocal(st, i);
    var c := cl.conns[i];
    if c.reader == LocalEof {
      AnswersReplaced(cl, next.client, Sent(st.up), i);
    } else {
      SendValid(st.up, Data(c.stream, c.reader.data));
      forall s: StreamId ensures AnswerOk(next.client, Sent(next.up), s) {
        SendAnswer(cl, next.client, st.down.taken, Sent(st.up), i, next.client.conns[i].reader, s);
      }
    }
  }
}
