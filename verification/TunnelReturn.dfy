/** The way back on the server: what the client sent for a stream, what the stream's queue took of
    it, what its socket got, and which packets can be on the upward link at all. */
module TunnelReturn {
  import opened Utf8
  import opened ControlPacket
  import opened Projection
  import Pipe
  import opened TunnelState
  import TunnelServer
  import R = RemoteSink

  /** The data of all messages, whatever stands between them. */
  function AllData(messages: seq<R.StreamMessage>): seq<Byte> {
    if messages == [] then []
    else
      var last := messages[|messages| - 1];
      AllData(messages[..|messages| - 1]) + (if last.Data? then last.data else [])
  }

  lemma {:induction false} BodyIsPrefix(messages: seq<R.StreamMessage>)
    ensures R.Body(messages) <= AllData(messages)
    ensures !R.Ends(messages) ==> R.Body(messages) == AllData(messages)
  {
    if messages != [] {
      var rest, last := messages[..|messages| - 1], messages[|messages| - 1];
      assert messages == rest + [last];
      BodyIsPrefix(rest);
      R.BodyAppend(rest, last);
    }
  }

  lemma {:induction false} AllDataConcat(a: seq<R.StreamMessage>, b: seq<R.StreamMessage>)
    ensures AllData(a + b) == AllData(a) + AllData(b)
  {
    if b == [] {
      assert a + b == a;
    } else {
      assert (a + b)[..|a + b| - 1] == a + b[..|b| - 1];
      AllDataConcat(a, b[..|b| - 1]);
    }
  }

  // ----- one stream's sink -----

  ghost predicate RemoteOk(r: Remote) {
    && r.eaten + r.queue <= r.posted
    && (r.sink == Pumping || r.sink == Leaving ==> r.posted == r.eaten + r.queue)
    && (r.sink == Left || r.sink == Broken ==> !r.open)
    && r.body <= R.Body(r.eaten)
    && (r.sink != Broken ==> r.body == R.Body(r.eaten))
    && (r.sink == Pumping ==> !R.Ends(r.eaten))
    && r.reply <= R.Reply(r.eaten)
    && (r.sink == Leaving || r.sink == Left ==> R.Ends(r.eaten) || (r.posted == r.eaten && !r.open))
    && (r.sink == Broken ==> !R.Ends(r.eaten))
  }

  lemma PumpOk(r: Remote, count: nat)
    requires RemoteOk(r) && SinkReady(r) && count <= WriteSize(r)
    ensures RemoteOk(Pump(r, count))
    ensures Pump(r, count).posted == r.posted && Pump(r, count).dropped == r.dropped
    ensures Pump(r, count).task == r.task && (Pump(r, count).open ==> r.open)
  {
    if r.sink == Pumping && r.queue != [] {
      var m := r.queue[0];
      R.BodyAppend(r.eaten, m);
      R.NoReplyWithoutEnd(r.eaten);
      assert r.eaten + r.queue == r.eaten + [m] + r.queue[1..];
    }
  }

  // ----- delivery to the streams -----

  /** The data of stream `s` that the reader holds. */
  function Routed(reader: ReaderPc, s: StreamId): seq<Byte> {
    match reader
    case Routing(sid, m) => if sid == s then DataIn(m) else []
    case Delivering(sid, m) => if sid == s then DataIn(m) else []
    case _ => []
  }

  function DataIn(m: R.StreamMessage): seq<Byte> {
    if m.Data? then m.data else []
  }

  ghost predicate DeliveryOk(r: Remote, isActive: bool, routed: seq<Byte>, taken: seq<Byte>) {
    && RemoteOk(r)
    && taken == AllData(r.posted) + r.dropped + routed
    && (r.dropped != [] ==> !r.open)
    && (!isActive ==> !r.open)
  }

  ghost predicate DeliveriesOk(sv: Server, taken: seq<Packet>) {
    && sv.active <= sv.streams.Keys
    && forall s :: s in sv.streams ==>
         DeliveryOk(sv.streams[s], s in sv.active, Routed(sv.reader, s), DataOf(taken, s))
  }

  ghost predicate ReturnOk(st: State) {
    DeliveriesOk(st.server, st.up.taken)
  }

  /** A change of one stream that keeps what its queue took and dropped. */
  lemma OneRemoteKept(sv: Server, next: Server, taken: seq<Packet>, sid: StreamId)
    requires DeliveriesOk(sv, taken) && sid in sv.streams && sid in next.streams
    requires next.streams == sv.streams[sid := next.streams[sid]] && next.reader == sv.reader
    requires next.active == sv.active || (next.active == sv.active - {sid} && !next.streams[sid].open)
    requires RemoteOk(next.streams[sid]) && (next.streams[sid].open ==> sv.streams[sid].open)
    requires AllData(next.streams[sid].posted) == AllData(sv.streams[sid].posted)
    requires next.streams[sid].dropped == sv.streams[sid].dropped
    ensures DeliveriesOk(next, taken)
  {
  }

  lemma PostOk(r: Remote, m: R.StreamMessage)
    requires RemoteOk(r)
    ensures RemoteOk(Post(r, m))
    ensures r.open ==> AllData(Post(r, m).posted) == AllData(r.posted) + DataIn(m)
    ensures !r.open ==> Post(r, m) == r
  {
  }

  lemma Abandoned(st: State, sid: StreamId)
    requires ReturnOk(st) && CanTask(st, sid) && st.server.streams[sid].task == Abandoning
    ensures ReturnOk(DoTask(st, sid))
  {
    var r := st.server.streams[sid];
    PostOk(r, R.NoClientTunnel);
    assert DeliveryOk(r, sid in st.server.active, Routed(st.server.reader, sid), DataOf(st.up.taken, sid));
    OneRemoteKept(st.server, DoTask(st, sid).server, st.up.taken, sid);
  }

  /** A step of a stream's task that posts nothing. */
  lemma Retasked(sv: Server, next: Server, taken: seq<Packet>, sid: StreamId, task: TaskPc, open: bool)
    requires DeliveriesOk(sv, taken) && sid in sv.streams && (open ==> sv.streams[sid].open)
    requires next.streams == sv.streams[sid := sv.streams[sid].(task := task, open := open)]
    requires next.active == sv.active && next.reader == sv.reader
    ensures DeliveriesOk(next, taken)
  {
  }

  /** The other task steps change where the task stands and may close its stream's queue. */
  lemma TaskFrame(st: State, sid: StreamId)
    requires CanTask(st, sid) && st.server.streams[sid].task != Abandoning
    ensures var r, next := st.server.streams[sid], DoTask(st, sid).server;
            && sid in next.streams
            && next.streams == st.server.streams[sid := r.(task := next.streams[sid].task, open := next.streams[sid].open)]
            && (next.streams[sid].open ==> r.open)
            && next.active == st.server.active && next.reader == st.server.reader
            && DoTask(st, sid).up == st.up
  {
  }

  lemma TaskKeepsReturn(st: State, sid: StreamId)
    requires ReturnOk(st) && CanTask(st, sid)
    ensures ReturnOk(DoTask(st, sid))
  {
    if st.server.streams[sid].task == Abandoning {
      Abandoned(st, sid);
    } else {
      TaskFrame(st, sid);
      var next := DoTask(st, sid).server;
      Retasked(st.server, next, st.up.taken, sid, next.streams[sid].task, next.streams[sid].open);
    }
  }

  lemma TaskReadKeepsReturn(st: State, sid: StreamId, outcome: ReadOutcome)
    requires ReturnOk(st) && CanRead(st, sid, outcome)
    ensures ReturnOk(DoTaskRead(st, sid, outcome))
  {
    OneRemoteKept(st.server, DoTaskRead(st, sid, outcome).server, st.up.taken, sid);
  }

  lemma SinkKeepsReturn(st: State, sid: StreamId, count: nat)
    requires ReturnOk(st) && CanSink(st, sid, count)
    ensures ReturnOk(DoSink(st, sid, count))
  {
    PumpOk(st.server.streams[sid], count);
    OneRemoteKept(st.server, DoSink(st, sid, count).server, st.up.taken, sid);
  }

  lemma AcceptKeepsReturn(st: State, sid: StreamId)
    requires ReturnOk(st) && sid !in st.server.streams
    requires DataOf(st.up.taken, sid) == [] && Routed(st.server.reader, sid) == []
    ensures ReturnOk(DoAccept(st, sid))
  {
  }

  lemma ReaderTakes(sv: Server, next: Server, taken: seq<Packet>, p: Packet)
    requires DeliveriesOk(sv, taken) && sv.reader == Awaiting
    requires next.streams == sv.streams && next.active == sv.active
    requires forall s: StreamId :: Routed(next.reader, s) == if p.Data? && p.sid == s then p.data else []
    ensures DeliveriesOk(next, taken + [p])
  {
    forall s | s in next.streams
      ensures DeliveryOk(next.streams[s], s in next.active, Routed(next.reader, s), DataOf(taken + [p], s))
    {
      Append(taken, p, s);
      assert DeliveryOk(sv.streams[s], s in sv.active, Routed(sv.reader, s), DataOf(taken, s));
    }
  }

  lemma Dropped(r: Remote, isActive: bool, m: R.StreamMessage, taken: seq<Byte>)
    requires DeliveryOk(r, isActive, DataIn(m), taken) && !r.open
    ensures DeliveryOk(r.(dropped := r.dropped + DataIn(m)), isActive, [], taken)
  {
  }

  lemma Delivered(r: Remote, isActive: bool, m: R.StreamMessage, taken: seq<Byte>)
    requires DeliveryOk(r, isActive, DataIn(m), taken) && r.open
    ensures DeliveryOk(Post(r, m), isActive, [], taken)
  {
  }

  /** The reader is done with the message it held for stream `sid`. */
  lemma HandedOver(sv: Server, next: Server, taken: seq<Packet>, sid: StreamId, m: R.StreamMessage)
    requires DeliveriesOk(sv, taken) && sid in sv.streams && sid in next.streams
    requires sv.reader == Routing(sid, m) || sv.reader == Delivering(sid, m)
    requires next.streams == sv.streams[sid := next.streams[sid]] && next.active == sv.active
    requires next.reader == Awaiting
    requires DeliveryOk(next.streams[sid], sid in sv.active, [], DataOf(taken, sid))
    ensures DeliveriesOk(next, taken)
  {
  }

  lemma DiscardsNothing(sv: Server, taken: seq<Packet>, sid: StreamId, m: R.StreamMessage)
    requires DeliveriesOk(sv, taken) && !m.Data?
    requires sv.reader == Routing(sid, m) || sv.reader == Delivering(sid, m)
    ensures DeliveriesOk(sv.(reader := Awaiting), taken)
  {
  }

  lemma DiscardKept(sv: Server, taken: seq<Packet>, sid: StreamId, m: R.StreamMessage)
    requires DeliveriesOk(sv, taken) && sid in sv.streams && !sv.streams[sid].open
    requires sv.reader == Routing(sid, m) || sv.reader == Delivering(sid, m)
    ensures DeliveriesOk(Discard(sv, sid, m).(reader := Awaiting), taken)
  {
    if m.Data? {
      Dropped(sv.streams[sid], sid in sv.active, m, DataOf(taken, sid));
      HandedOver(sv, Discard(sv, sid, m).(reader := Awaiting), taken, sid, m);
    } else {
      DiscardsNothing(sv, taken, sid, m);
    }
  }

  lemma DeliverKept(sv: Server, taken: seq<Packet>, sid: StreamId, m: R.StreamMessage)
    requires DeliveriesOk(sv, taken) && sid in sv.streams && sv.streams[sid].open
    requires sv.reader == Delivering(sid, m)
    ensures DeliveriesOk(SetStream(sv, sid, Post(sv.streams[sid], m)).(reader := Awaiting), taken)
  {
    Delivered(sv.streams[sid], sid in sv.active, m, DataOf(taken, sid));
    HandedOver(sv, SetStream(sv, sid, Post(sv.streams[sid], m)).(reader := Awaiting), taken, sid, m);
  }

  lemma ReaderKeepsReturn(st: State)
    requires TunnelServer.LinksOk(st) && ReturnOk(st) && CanReader(st)
    requires st.server.reader.Routing? || st.server.reader.Delivering? ==> st.server.reader.sid in st.server.streams
    ensures ReturnOk(DoReader(st))
  {
    if st.server.reader == Awaiting {
      ReaderTakesKept(st);
    } else {
      ReaderRoutesKept(st);
    }
  }

  lemma ReaderTakesKept(st: State)
    requires TunnelServer.LinksOk(st) && ReturnOk(st) && CanReader(st) && st.server.reader == Awaiting
    ensures ReturnOk(DoReader(st))
  {
    Pipe.ReceiveValid(st.up);
    var p := Deserialize(st.up.wire[0]).value;
    var next := DoReader(st).server;
    assert forall s: StreamId :: Routed(next.reader, s) == if p.Data? && p.sid == s then p.data else [];
    ReaderTakes(st.server, next, st.up.taken, p);
  }

  lemma ReaderRoutesKept(st: State)
    requires ReturnOk(st) && CanReader(st) && st.server.reader != Awaiting
    requires st.server.reader.Routing? || st.server.reader.Delivering? ==> st.server.reader.sid in st.server.streams
    ensures ReturnOk(DoReader(st))
  {
    var sv := st.server;
    match sv.reader {
      case Routing(sid, m) =>
        if sid !in sv.active {
          assert DeliveryOk(sv.streams[sid], false, Routed(sv.reader, sid), DataOf(st.up.taken, sid));
          DiscardKept(sv, st.up.taken, sid, m);
        }
      case Delivering(sid, m) =>
        if sv.streams[sid].open {
          DeliverKept(sv, st.up.taken, sid, m);
        } else {
          DiscardKept(sv, st.up.taken, sid, m);
        }
      case _ =>
    }
  }
}
