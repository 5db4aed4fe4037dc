/** One tunnel connection as a step system: the server's tasks and the client's tasks around two
    links, for any number of remote streams. A step is what one task does between two points at
    which another task can run; sockets and the network decide freely how reads, writes and
    connection attempts turn out. Fields marked history record what happened and guide no step.

    Assumed: stream ids are fresh, only data frames appear on the websocket. */
module TunnelState {
  import opened Wrappers
  import opened Utf8
  import opened ControlPacket
  import opened Pipe
  import R = RemoteSink

  // ----- server side -----

  /** Where the task that reads a remote socket stands. */
  datatype TaskPc =
    | Opening                       // about to announce the stream
    | Checking                      // top of the loop: is the client still registered?
    | Reading                       // waiting for the remote socket
    | Holding(chunk: seq<Byte>)     // about to forward what it read
    | Finishing                     // end of input: about to send the end packet
    | Unlisting                     // a send failed: removing the client
    | Abandoning                    // client gone: about to queue the not-found terminator
    | Shutting                      // about to close the stream's queue
    | Returned

  /** Where the task that writes a remote socket stands. */
  datatype SinkPc = Pumping | Leaving | Left | Broken

  datatype Remote = Remote(
    task: TaskPc,
    queue: seq<R.StreamMessage>,
    open: bool,                      // the queue accepts messages
    sink: SinkPc,
    body: seq<Byte>,                 // data written to the remote socket
    reply: seq<Byte>,                // error response written after it
    posted: seq<R.StreamMessage>,    // history: messages the queue accepted
    eaten: seq<R.StreamMessage>,     // history: messages the sink task took
    dropped: seq<Byte>)              // history: data that found the stream closed or gone

  const NEW_REMOTE := Remote(Opening, [], true, Pumping, [], [], [], [], [])

  /** Where the task that reads the client's messages stands. */
  datatype ReaderPc =
    | Awaiting
    | Routing(sid: StreamId, message: R.StreamMessage)     // about to look the stream up
    | Delivering(sid: StreamId, message: R.StreamMessage)  // found it: about to queue the message
    | Dropping                                             // final removal of the client
    | Stopped

  datatype WriterPc = Draining | Disconnecting | Ended

  datatype PingPc = Pinging | GivingUp | Silent

  datatype Server = Server(
    streams: map<StreamId, Remote>,  // every stream ever accepted
    active: set<StreamId>,           // keys of the server's stream map
    registered: bool,                // the client is in the registry's id map
    anonymous: bool,
    reader: ReaderPc,
    writer: WriterPc,
    pinger: PingPc,
    received: seq<Packet>)           // history: data read from remote sockets

  // ----- client side -----

  datatype LocalMessage = Chunk(data: seq<Byte>) | Close

  /** Where the task that reads a local socket stands. */
  datatype LocalPc =
    | LocalReading
    | LocalHolding(data: seq<Byte>)
    | LocalEof                       // about to remove its stream from the map
    | LocalEnded

  /** Where the task that writes a local socket stands: it ends when told to close, or when a write
      fails. */
  datatype ForwarderPc = Unspawned | Forwarding | ForwarderClosed | ForwarderFailed

  /** A local connection. */
  datatype Conn = Conn(
    stream: StreamId,
    reader: LocalPc,
    forwarder: ForwarderPc,
    open: bool,                      // its queue accepts messages
    queue: seq<LocalMessage>,
    written: seq<Byte>,              // bytes written to the local socket
    fed: seq<Byte>,                  // history: bytes put into the queue
    read: seq<Byte>)                 // history: bytes read from the local socket

  /** Where the task that handles the server's messages stands. */
  datatype HandlerPc =
    | Idle
    | Looking(sid: StreamId, data: seq<Byte>)                // is the stream in the map?
    | Connecting(sid: StreamId, data: seq<Byte>)             // opening a local connection
    | Inserting(sid: StreamId, data: seq<Byte>, conn: nat)   // its reader already runs
    | Finding(sid: StreamId, data: seq<Byte>)                // second lookup
    | Pushing(sid: StreamId, data: seq<Byte>, conn: nat)     // about to queue the data
    | Halted(undelivered: seq<Byte>, last: StreamId)         // the connection is over

  datatype CloserPc = CloserLooking | CloserWaiting(conn: nat) | CloserRemoving | CloserDone

  /** The task spawned for an end packet: it closes the stream some time later. */
  datatype Closer = Closer(sid: StreamId, pc: CloserPc)

  datatype Client = Client(
    streams: map<StreamId, nat>,     // the client's stream map: stream to connection
    conns: seq<Conn>,                // every local connection, oldest first
    handler: HandlerPc,
    closers: seq<Closer>,
    token: Option<string>,
    pushed: seq<Packet>,             // history: data put into local queues
    skipped: seq<Packet>,            // history: data answered with a refusal instead
    answers: seq<Packet>)            // history: data read from local sockets

  datatype State = State(down: Link, up: Link, server: Server, client: Client)

  function Start(anonymous: bool): State {
    State(EMPTY, EMPTY,
          Server(map[], {}, true, anonymous, Awaiting, Draining, Pinging, []),
          Client(map[], [], Idle, [], None, [], [], []))
  }

  // ----- steps -----

  datatype ReadOutcome = Got(data: seq<Byte>) | Eof | Failed

  datatype ConnectOutcome = Opened | Refusing | BadName

  datatype Action =
    | Accept(sid: StreamId)
    | TaskStep(sid: StreamId)
    | TaskRead(sid: StreamId, outcome: ReadOutcome)
    | SinkStep(sid: StreamId, count: nat)   // `count` bytes of the write go through
    | ReaderStep
    | ReaderHangup
    | WriterStep
    | WriterFail
    | PingStep(token: Option<string>)
    | HandlerStep
    | HandlerConnect(connect: ConnectOutcome)
    | HandlerHalt
    | CloserStep(index: nat)
    | LocalRead(index: nat, outcome: ReadOutcome)
    | LocalStep(index: nat)
    | ForwardStep(index: nat, count: nat)
    | UplinkStep
    | UplinkFail

  const SERVER_BUFFER := 1024
  const CLIENT_BUFFER := 4096

  predicate Readable(outcome: ReadOutcome, limit: nat) {
    outcome.Got? ==> 0 < |outcome.data| <= limit
  }

  function WriteSize(r: Remote): nat {
    if r.sink != Pumping || r.queue == [] then 0
    else if r.queue[0].Data? then |r.queue[0].data|
    else |R.Response(r.queue[0])|
  }

  predicate SinkReady(r: Remote) {
    r.sink == Leaving || (r.sink == Pumping && (r.queue != [] || !r.open))
  }

  /** Some task still holds a sender of connection `i`, so its queue is not at its end. */
  predicate HasSender(c: Client, i: nat) {
    || i in c.streams.Values
    || (c.handler.Pushing? && c.handler.conn == i)
    || exists k :: 0 <= k < |c.closers| && c.closers[k].pc == CloserWaiting(i)
  }

  predicate ForwarderReady(c: Client, i: nat)
    requires i < |c.conns|
  {
    c.conns[i].forwarder == Forwarding && (c.conns[i].queue != [] || !HasSender(c, i))
  }

  predicate CanTask(st: State, sid: StreamId) {
    && sid in st.server.streams
    && st.server.streams[sid].task != Reading && st.server.streams[sid].task != Returned
  }

  predicate CanRead(st: State, sid: StreamId, outcome: ReadOutcome) {
    && sid in st.server.streams && st.server.streams[sid].task == Reading
    && Readable(outcome, SERVER_BUFFER)
  }

  predicate CanSink(st: State, sid: StreamId, count: nat) {
    && sid in st.server.streams && SinkReady(st.server.streams[sid])
    && count <= WriteSize(st.server.streams[sid])
  }

  predicate CanReader(st: State) {
    if st.server.reader == Awaiting then st.up.wire != [] else st.server.reader != Stopped
  }

  predicate CanWriter(st: State) {
    || st.server.writer == Disconnecting
    || (st.server.writer == Draining && (st.down.hand != [] || st.down.queue != [] || st.down.closed))
  }

  predicate CanPing(st: State, token: Option<string>) {
    st.server.pinger != Silent && (token.Some? ==> st.server.anonymous)
  }

  predicate CanHandle(st: State) {
    if st.client.handler == Idle then st.down.wire != []
    else !st.client.handler.Connecting? && !st.client.handler.Halted?
  }

  predicate CanConnect(st: State) {
    st.client.handler.Connecting?
  }

  predicate CanClose(st: State, k: nat) {
    k < |st.client.closers| && st.client.closers[k].pc != CloserDone
  }

  predicate CanLocalRead(st: State, i: nat, outcome: ReadOutcome) {
    && i < |st.client.conns| && st.client.conns[i].reader == LocalReading
    && Readable(outcome, CLIENT_BUFFER)
  }

  predicate CanLocal(st: State, i: nat) {
    && i < |st.client.conns|
    && (st.client.conns[i].reader == LocalEof || st.client.conns[i].reader.LocalHolding?)
  }

  predicate CanForward(st: State, i: nat, count: nat) {
    && i < |st.client.conns| && ForwarderReady(st.client, i)
    && count <= ChunkSize(st.client.conns[i])
  }

  function ChunkSize(c: Conn): nat {
    if c.queue != [] && c.queue[0].Chunk? then |c.queue[0].data| else 0
  }

  predicate CanUplink(st: State) {
    !st.up.stopped && (st.up.hand != [] || st.up.queue != [])
  }

  predicate Enabled(st: State, a: Action) {
    match a
    case Accept(sid) => sid !in st.server.streams
    case TaskStep(sid) => CanTask(st, sid)
    case TaskRead(sid, outcome) => CanRead(st, sid, outcome)
    case SinkStep(sid, count) => CanSink(st, sid, count)
    case ReaderStep => CanReader(st)
    case ReaderHangup => st.server.reader == Awaiting
    case WriterStep => CanWriter(st)
    case WriterFail => st.server.writer == Draining && st.down.hand != []
    case PingStep(token) => CanPing(st, token)
    case HandlerStep => CanHandle(st)
    case HandlerConnect(_) => CanConnect(st)
    case HandlerHalt => st.client.handler == Idle || st.client.handler.Connecting?
    case CloserStep(k) => CanClose(st, k)
    case LocalRead(i, outcome) => CanLocalRead(st, i, outcome)
    case LocalStep(i) => CanLocal(st, i)
    case ForwardStep(i, count) => CanForward(st, i, count)
    case UplinkStep => CanUplink(st)
    case UplinkFail => !st.up.stopped && st.up.hand != []
  }

  // ----- server steps -----

  function SetStream(sv: Server, sid: StreamId, r: Remote): Server {
    sv.(streams := sv.streams[sid := r])
  }

  function Post(r: Remote, m: R.StreamMessage): Remote {
    if r.open then r.(queue := r.queue + [m], posted := r.posted + [m]) else r
  }

  /** `Connections::remove`: the client's channel closes, then its id leaves the registry. */
  function Unlist(st: State): State {
    st.(down := Shut(st.down), server := st.server.(registered := false))
  }

  function DoAccept(st: State, sid: StreamId): State {
    st.(server := SetStream(st.server, sid, NEW_REMOTE).(active := st.server.active + {sid}))
  }

  function DoTask(st: State, sid: StreamId): State
    requires CanTask(st, sid)
  {
    var sv := st.server;
    var r := sv.streams[sid];
    var afterSend := r.(task := if st.down.closed then Unlisting else Checking);
    match r.task
    case Opening => st.(down := Send(st.down, Init(sid)), server := SetStream(sv, sid, afterSend))
    case Holding(chunk) =>
      st.(down := Send(st.down, Data(sid, chunk)), server := SetStream(sv, sid, afterSend))
    case Finishing =>
      st.(down := Send(st.down, End(sid)), server := SetStream(sv, sid, r.(task := Returned)))
    case Unlisting => Unlist(st.(server := SetStream(sv, sid, r.(task := Checking))))
    case Checking =>
      st.(server := SetStream(sv, sid, r.(task := if sv.registered then Reading else Abandoning)))
    case Abandoning =>
      st.(server := SetStream(sv, sid, Post(r, R.NoClientTunnel).(task := Shutting)))
    case Shutting => st.(server := SetStream(sv, sid, r.(task := Returned, open := false)))
    case _ => st
  }

  function DoTaskRead(st: State, sid: StreamId, outcome: ReadOutcome): State
    requires CanRead(st, sid, outcome)
  {
    var sv := st.server;
    var r := sv.streams[sid];
    match outcome
    case Got(chunk) =>
      st.(server := SetStream(sv, sid, r.(task := Holding(chunk)))
                    .(received := sv.received + [Data(sid, chunk)]))
    case Eof => st.(server := SetStream(sv, sid, r.(task := Finishing)))
    case Failed => st.(server := SetStream(sv, sid, r.(task := Returned)))
  }

  function Pump(r: Remote, count: nat): Remote
    requires SinkReady(r) && count <= WriteSize(r)
  {
    if r.sink == Leaving then r.(sink := Left, open := false, queue := [])
    else if r.queue == [] then r.(sink := Leaving)
    else
      var m, next := r.queue[0], r.(queue := r.queue[1..], eaten := r.eaten + [r.queue[0]]);
      match m
      case Data(data) =>
        if count == |data| then next.(body := r.body + data)
        else next.(body := r.body + data[..count], sink := Broken, open := false, queue := [])
      case _ => next.(reply := R.Response(m)[..count], sink := Leaving)
  }

  function DoSink(st: State, sid: StreamId, count: nat): State
    requires CanSink(st, sid, count)
  {
    var sv := st.server;
    var r := sv.streams[sid];
    st.(server := SetStream(sv, sid, Pump(r, count))
                  .(active := if r.sink == Leaving then sv.active - {sid} else sv.active))
  }

  function Discard(sv: Server, sid: StreamId, m: R.StreamMessage): Server {
    if sid in sv.streams && m.Data? then
      SetStream(sv, sid, sv.streams[sid].(dropped := sv.streams[sid].dropped + m.data))
    else sv
  }

  function DoReader(st: State): State
    requires CanReader(st)
  {
    var sv := st.server;
    match sv.reader
    case Awaiting =>
      var message := st.up.wire[0];
      var rest := st.(up := Receive(st.up));
      if message == [] then rest.(down := Shut(st.down), server := sv.(reader := Dropping))
      else (
        match Deserialize(message)
        case Err(_) => rest
        case Ok(Data(sid, data)) => rest.(server := sv.(reader := Routing(sid, R.Data(data))))
        case Ok(Refused(sid)) => rest.(server := sv.(reader := Routing(sid, R.TunnelRefused)))
        case Ok(Ping(_)) => rest.(server := sv.(registered := true))
        case Ok(_) => rest
      )
    case Routing(sid, m) =>
      if sid in sv.active then st.(server := sv.(reader := Delivering(sid, m)))
      else st.(server := Discard(sv, sid, m).(reader := Awaiting))
    case Delivering(sid, m) =>
      if sid in sv.streams && sv.streams[sid].open then
        st.(server := SetStream(sv, sid, Post(sv.streams[sid], m)).(reader := Awaiting))
      else st.(server := Discard(sv, sid, m).(reader := Awaiting))
    case Dropping => Unlist(st.(server := sv.(reader := Stopped)))
    case Stopped => st
  }

  function DoWriter(st: State): State
    requires CanWriter(st)
  {
    if st.server.writer == Disconnecting then
      var gone := Unlist(st);
      gone.(down := Abort(gone.down), server := gone.server.(writer := Ended))
    else if |st.down.hand| == 1 then st.(down := Push(st.down))
    else if st.down.queue != [] then st.(down := Pop(st.down))
    else st.(down := Abort(st.down), server := st.server.(writer := Ended))
  }

  function DoPing(st: State, token: Option<string>): State
    requires CanPing(st, token)
  {
    if st.server.pinger == Pinging then
      st.(down := Send(st.down, Ping(token)),
          server := st.server.(pinger := if st.down.closed then GivingUp else Pinging))
    else Unlist(st.(server := st.server.(pinger := Silent)))
  }

  // ----- client steps -----

  function SetConn(cl: Client, i: nat, c: Conn): Client
    requires i < |cl.conns|
  {
    cl.(conns := cl.conns[i := c])
  }

  function Feed(c: Conn, m: LocalMessage): Conn {
    if !c.open then c
    else c.(queue := c.queue + [m], fed := c.fed + (if m.Chunk? then m.data else []))
  }

  function DoHandler(st: State): State
    requires CanHandle(st)
  {
    var cl := st.client;
    match cl.handler
    case Idle =>
      var message := Deserialize(st.down.wire[0]);
      var rest := st.(down := Receive(st.down));
      (
        match message
        case Ok(Init(_)) => rest
        case Ok(Ping(token)) =>
          rest.(up := Send(st.up, Ping(None)),
                client := if token.Some? then cl.(token := token) else cl)
        case Ok(End(sid)) =>
          rest.(client := cl.(closers := cl.closers + [Closer(sid, CloserLooking)]))
        case Ok(Data(sid, data)) => rest.(client := cl.(handler := Looking(sid, data)))
        case _ => rest.(client := cl.(handler := Halted([], EMPTY_STREAM)))
      )
    case Looking(sid, data) =>
      st.(client := cl.(handler := if sid in cl.streams then Finding(sid, data) else Connecting(sid, data)))
    case Inserting(sid, data, conn) =>
      var mapped := cl.(streams := cl.streams[sid := conn], handler := Finding(sid, data));
      st.(client := if conn < |cl.conns|
                    then SetConn(mapped, conn, cl.conns[conn].(forwarder := Forwarding)) else mapped)
    case Finding(sid, data) =>
      if sid in cl.streams then st.(client := cl.(handler := Pushing(sid, data, cl.streams[sid])))
      else
        st.(up := Send(st.up, Refused(sid)),
            client := if st.up.closed then cl.(handler := Halted(data, sid))
                      else cl.(skipped := cl.skipped + [Data(sid, data)], handler := Idle))
    case Pushing(sid, data, conn) =>
      if conn < |cl.conns| && cl.conns[conn].open then
        st.(client := SetConn(cl, conn, Feed(cl.conns[conn], Chunk(data)))
                      .(pushed := cl.pushed + [Data(sid, data)], handler := Idle))
      else st.(client := cl.(handler := Halted(data, sid)))
    case _ => st
  }

  function DoConnect(st: State, outcome: ConnectOutcome): State
    requires CanConnect(st)
  {
    var cl := st.client;
    var sid, data := cl.handler.sid, cl.handler.data;
    match outcome
    case Opened =>
      var c := Conn(sid, LocalReading, Unspawned, true, [], [], [], []);
      st.(client := cl.(conns := cl.conns + [c], handler := Inserting(sid, data, |cl.conns|)))
    case Refusing =>
      st.(up := Send(st.up, Refused(sid)),
          client := cl.(handler := Finding(sid, data)))
    case BadName => st.(client := cl.(handler := Finding(sid, data)))
  }

  function DoHalt(st: State): State {
    var h := st.client.handler;
    st.(client := st.client.(handler :=
          if h.Connecting? then Halted(h.data, h.sid) else Halted([], EMPTY_STREAM)))
  }

  function DoCloser(st: State, k: nat): State
    requires CanClose(st, k)
  {
    var cl := st.client;
    var sid := cl.closers[k].sid;
    match cl.closers[k].pc
    case CloserLooking =>
      var pc := if sid in cl.streams then CloserWaiting(cl.streams[sid]) else CloserDone;
      st.(client := cl.(closers := cl.closers[k := Closer(sid, pc)]))
    case CloserWaiting(conn) =>
      var next := cl.(closers := cl.closers[k := Closer(sid, CloserRemoving)]);
      st.(client := if conn < |cl.conns| then SetConn(next, conn, Feed(cl.conns[conn], Close)) else next)
    case CloserRemoving =>
      st.(client := cl.(streams := cl.streams - {sid}, closers := cl.closers[k := Closer(sid, CloserDone)]))
    case CloserDone => st
  }

  function DoLocalRead(st: State, i: nat, outcome: ReadOutcome): State
    requires CanLocalRead(st, i, outcome)
  {
    var cl := st.client;
    var c := cl.conns[i];
    match outcome
    case Got(data) =>
      st.(client := SetConn(cl, i, c.(reader := LocalHolding(data), read := c.read + data))
                    .(answers := cl.answers + [Data(c.stream, data)]))
    case Eof => st.(client := SetConn(cl, i, c.(reader := LocalEof)))
    case Failed => st.(client := SetConn(cl, i, c.(reader := LocalEnded)))
  }

  function DoLocal(st: State, i: nat): State
    requires CanLocal(st, i)
  {
    var cl := st.client;
    var c := cl.conns[i];
    if c.reader == LocalEof then
      st.(client := SetConn(cl, i, c.(reader := LocalEnded)).(streams := cl.streams - {c.stream}))
    else
      st.(up := Send(st.up, Data(c.stream, c.reader.data)),
          client := SetConn(cl, i, c.(reader := if st.up.closed then LocalEnded else LocalReading)))
  }

  function Forward(c: Conn, count: nat): Conn
    requires count <= ChunkSize(c)
  {
    if c.queue == [] || c.queue[0] == Close then c.(queue := [], open := false, forwarder := ForwarderClosed)
    else
      var data := c.queue[0].data;
      if count == |data| then c.(queue := c.queue[1..], written := c.written + data)
      else c.(queue := [], written := c.written + data[..count], open := false, forwarder := ForwarderFailed)
  }

  function DoForward(st: State, i: nat, count: nat): State
    requires CanForward(st, i, count)
  {
    st.(client := SetConn(st.client, i, Forward(st.client.conns[i], count)))
  }

  function DoUplink(st: State): State
    requires CanUplink(st)
  {
    if |st.up.hand| == 1 then st.(up := Push(st.up))
    else if st.up.queue != [] then st.(up := Pop(st.up))
    else st
  }

  /** The actions of the server's tasks; the others are the client's. */
  predicate ServerSide(a: Action) {
    || a.Accept? || a.TaskStep? || a.TaskRead? || a.SinkStep? || a.ReaderStep? || a.ReaderHangup?
    || a.WriterStep? || a.WriterFail? || a.PingStep?
  }

  function ApplyServer(st: State, a: Action): State
    requires Enabled(st, a) && ServerSide(a)
  {
    match a
    case Accept(sid) => DoAccept(st, sid)
    case TaskStep(sid) => DoTask(st, sid)
    case TaskRead(sid, outcome) => DoTaskRead(st, sid, outcome)
    case SinkStep(sid, count) => DoSink(st, sid, count)
    case ReaderStep => DoReader(st)
    case ReaderHangup => st.(down := Shut(st.down), server := st.server.(reader := Dropping))
    case WriterStep => DoWriter(st)
    case WriterFail => st.(down := Shut(st.down), server := st.server.(writer := Disconnecting))
    case PingStep(token) => DoPing(st, token)
  }

  function ApplyClient(st: State, a: Action): State
    requires Enabled(st, a) && !ServerSide(a)
  {
    match a
    case HandlerStep => DoHandler(st)
    case HandlerConnect(outcome) => DoConnect(st, outcome)
    case HandlerHalt => DoHalt(st)
    case CloserStep(k) => DoCloser(st, k)
    case LocalRead(i, outcome) => DoLocalRead(st, i, outcome)
    case LocalStep(i) => DoLocal(st, i)
    case ForwardStep(i, count) => DoForward(st, i, count)
    case UplinkStep => DoUplink(st)
    case UplinkFail => st.(up := Abort(st.up))
  }

  function Apply(st: State, a: Action): State
    requires Enabled(st, a)
  {
    if ServerSide(a) then ApplyServer(st, a) else ApplyClient(st, a)
  }

  // ----- runs -----

  /** The state a sequence of steps leads to, if each was enabled when its turn came. */
  function Run(from: State, actions: seq<Action>): Option<State> {
    if actions == [] then Some(from)
    else
      var before := Run(from, actions[..|actions| - 1]);
      var a := actions[|actions| - 1];
      if before.Some? && Enabled(before.value, a) then Some(Apply(before.value, a)) else None
  }

  /** Some run leads to this state. */
  ghost predicate Reachable(st: State) {
    exists anonymous: bool, actions: seq<Action> :: Run(Start(anonymous), actions) == Some(st)
  }

  /** The run of exactly these steps leads to this state. */
  ghost predicate Leads(actions: seq<Action>, st: State) {
    exists anonymous: bool :: Run(Start(anonymous), actions) == Some(st)
  }

  /** Some continuation of a run leads from `st` to `later`. */
  ghost predicate Continues(st: State, later: State) {
    exists actions: seq<Action> :: Run(st, actions) == Some(later)
  }
}
