/** Why the tasks stand where they stand: how a remote or local socket ended decides what its task does,
    over every run. */
module TunnelCauses {
  import opened ControlPacket
  import opened Pipe
  import opened TunnelState
  import TunnelServer
  import opened TunnelInvariant
  import opened TunnelInputs
  import TunnelTraffic
  import TunnelSignals
  import W = Wrappers

  // ----- remote sockets -----

  /** What one step of the system does to the task of stream `s`. */
  ghost predicate TaskMoves(st: State, a: Action, s: StreamId)
    requires Enabled(st, a) && s in st.server.streams
  {
    && s in Apply(st, a).server.streams
    && var r, next := st.server.streams[s], Apply(st, a).server.streams[s];
       && (next.open ==> r.open)
       && match a {
            case TaskStep(sid) =>
              if sid != s then next.task == r.task
              else
                && TunnelServer.Follows(r.task, next.task)
                && (r.task == Shutting ==> !next.open)
                && (next.task == Reading ==> st.server.registered)
                && (r.task == Opening || r.task.Holding? ==> (next.task == Unlisting <==> st.down.closed))
            case TaskRead(sid, outcome) =>
              if sid != s then next.task == r.task
              else
                r.task == Reading &&
                match outcome {
                  case Got(chunk) => next.task == Holding(chunk)
                  case Eof => next.task == Finishing
                  case Failed => next.task == Returned
                }
            case _ => next.task == r.task
          }
  }

  lemma TaskStepMoves(st: State, sid: StreamId, s: StreamId)
    requires CanTask(st, sid) && s in st.server.streams
    ensures TaskMoves(st, TaskStep(sid), s)
  {
  }

  lemma TaskReadMoves(st: State, sid: StreamId, outcome: ReadOutcome, s: StreamId)
    requires CanRead(st, sid, outcome) && s in st.server.streams
    ensures TaskMoves(st, TaskRead(sid, outcome), s)
  {
  }

  lemma SinkMoves(st: State, sid: StreamId, count: nat, s: StreamId)
    requires CanSink(st, sid, count) && s in st.server.streams
    ensures TaskMoves(st, SinkStep(sid, count), s)
  {
  }

  lemma ReaderMovesTask(st: State, s: StreamId)
    requires CanReader(st) && s in st.server.streams
    ensures TaskMoves(st, ReaderStep, s)
  {
  }

  lemma OtherMovesTask(st: State, a: Action, s: StreamId)
    requires Enabled(st, a) && s in st.server.streams
    requires a.ReaderHangup? || a.WriterStep? || a.WriterFail? || a.PingStep? || !ServerSide(a)
    ensures TaskMoves(st, a, s)
  {
    if !ServerSide(a) {
      ClientLeavesServer(st, a);
    }
  }

  lemma ClientLeavesServer(st: State, a: Action)
    requires Enabled(st, a) && !ServerSide(a)
    ensures Apply(st, a).server == st.server
  {
  }

  lemma StepMovesTask(st: State, a: Action, s: StreamId)
    requires Enabled(st, a) && s in st.server.streams
    ensures TaskMoves(st, a, s)
  {
    match a {
      case TaskStep(sid) => TaskStepMoves(st, sid, s);
      case TaskRead(sid, outcome) => TaskReadMoves(st, sid, outcome, s);
      case SinkStep(sid, count) => SinkMoves(st, sid, count, s);
      case ReaderStep => ReaderMovesTask(st, s);
      case Accept(sid) =>
      case _ => OtherMovesTask(st, a, s);
    }
  }

  /** Where the task stands, by whether its socket has reached its end, has failed, and whether its end
      packet was sent. */
  predicate Caused(r: Remote, eof: bool, failed: bool, ended: bool) {
    && (eof ==> if ended then r.task == Returned else r.task == Finishing)
    && (ended ==> eof)
    && (r.task == Finishing ==> eof)
    && (failed ==> r.task == Returned && !eof)
    && (r.task == Returned ==> eof || failed || !r.open)
  }

  ghost predicate StreamCaused(actions: seq<Action>, st: State, s: StreamId) {
    var eof, failed := TaskRead(s, Eof) in actions, TaskRead(s, Failed) in actions;
    if s in st.server.streams then Caused(st.server.streams[s], eof, failed, End(s) in Sent(st.down))
    else !eof && !failed && End(s) !in Sent(st.down)
  }

  /** Only a task that is finishing sends an end packet. */
  lemma EndSaid(st: State, a: Action, s: StreamId)
    requires Enabled(st, a)
    ensures End(s) in SaidBy(st, a) <==>
            a == TaskStep(s) && s in st.server.streams && st.server.streams[s].task == Finishing
  {
  }

  /** A stream the server did not know is new. */
  lemma NoStreamAppears(st: State, a: Action, s: StreamId)
    requires TunnelTraffic.TrafficOk(st) && Enabled(st, a)
    requires s !in st.server.streams && s in Apply(st, a).server.streams
    ensures a == Accept(s) && Apply(st, a).server.streams[s] == NEW_REMOTE
  {
    match a {
      case Accept(sid) =>
      case TaskStep(sid) => TunnelSignals.TaskShape(st, sid);
      case TaskRead(sid, outcome) => ReadFrame(st, sid, outcome);
      case ReaderStep => ReaderStreams(st);
      case _ => QuietStreams(st, a);
    }
  }

  lemma QuietStreams(st: State, a: Action)
    requires Enabled(st, a) && !a.Accept? && !a.TaskStep? && !a.TaskRead? && !a.ReaderStep?
    ensures Apply(st, a).server.streams.Keys == st.server.streams.Keys
  {
    if !ServerSide(a) {
      ClientLeavesServer(st, a);
    }
  }

  /** One task and one step. */
  lemma CausedNext(st: State, a: Action, s: StreamId, eof: bool, failed: bool, ended: bool)
    requires Enabled(st, a) && s in st.server.streams && TaskMoves(st, a, s)
    requires Caused(st.server.streams[s], eof, failed, ended)
    ensures Caused(Apply(st, a).server.streams[s], eof || a == TaskRead(s, Eof), failed || a == TaskRead(s, Failed),
                   ended || (a == TaskStep(s) && st.server.streams[s].task == Finishing))
  {
  }

  lemma StepCauses(actions: seq<Action>, st: State, a: Action, s: StreamId)
    requires TunnelServer.LinksOk(st) && TunnelTraffic.TrafficOk(st) && StreamCaused(actions, st, s) && Enabled(st, a)
    ensures StreamCaused(actions + [a], Apply(st, a), s)
  {
    StepSays(st, a);
    EndSaid(st, a, s);
    if s in st.server.streams {
      StepMovesTask(st, a, s);
      CausedNext(st, a, s, TaskRead(s, Eof) in actions, TaskRead(s, Failed) in actions, End(s) in Sent(st.down));
    } else if s in Apply(st, a).server.streams {
      NoStreamAppears(st, a, s);
    }
  }

  lemma StartCaused(anonymous: bool, s: StreamId)
    ensures StreamCaused([], Start(anonymous), s)
  {
  }

  lemma {:induction false} RunCauses(anonymous: bool, actions: seq<Action>, s: StreamId)
    requires Run(Start(anonymous), actions).Some?
    ensures Inv(Run(Start(anonymous), actions).value) && StreamCaused(actions, Run(Start(anonymous), actions).value, s)
  {
    if actions == [] {
      StartInv(anonymous);
      StartCaused(anonymous, s);
      assert Run(Start(anonymous), actions) == W.Some(Start(anonymous));
    } else {
      var most, last := actions[..|actions| - 1], actions[|actions| - 1];
      RunCauses(anonymous, most, s);
      StepKeeps(Run(Start(anonymous), most).value, last);
      StepCauses(most, Run(Start(anonymous), most).value, last, s);
      assert most + [last] == actions;
    }
  }

  /** How a remote socket ended decides what is said of its stream. The end packet is sent only after the
      socket reached its end of input, and has been sent once the task has returned from that; a read
      error ends the task at once and without one; and a task returns for no other reason than these
      two or a client that is gone, in which case it has closed the stream's queue. */
  lemma EndFollowsSocket(actions: seq<Action>, st: State, s: StreamId)
    requires Leads(actions, st)
    ensures End(s) in Sent(st.down) ==> TaskRead(s, Eof) in actions
    ensures s in st.server.streams && st.server.streams[s].task == Returned ==>
              (End(s) in Sent(st.down) <==> TaskRead(s, Eof) in actions)
    ensures TaskRead(s, Eof) in actions ==>
              s in st.server.streams && (st.server.streams[s].task == Finishing || End(s) in Sent(st.down))
    ensures TaskRead(s, Failed) in actions ==>
              s in st.server.streams && st.server.streams[s].task == Returned && End(s) !in Sent(st.down)
    ensures s in st.server.streams && st.server.streams[s].task == Returned ==>
              TaskRead(s, Eof) in actions || TaskRead(s, Failed) in actions || !st.server.streams[s].open
  {
    var anonymous: bool :| Run(Start(anonymous), actions) == W.Some(st);
    RunCauses(anonymous, actions, s);
  }

  // ----- local sockets -----

  /** What one step does to the reader of local connection `i`. */
  ghost predicate ReaderMoves(st: State, a: Action, i: nat)
    requires Enabled(st, a) && i < |st.client.conns|
  {
    && i < |Apply(st, a).client.conns|
    && var pc, next := st.client.conns[i].reader, Apply(st, a).client.conns[i].reader;
       match a {
         case LocalRead(j, outcome) =>
           if j != i then next == pc
           else
             pc == LocalReading &&
             match outcome {
               case Got(data) => next == LocalHolding(data)
               case Eof => next == LocalEof
               case Failed => next == LocalEnded
             }
         case LocalStep(j) =>
           if j != i then next == pc
           else if pc == LocalEof then next == LocalEnded
           else pc.LocalHolding? && next == (if st.up.closed then LocalEnded else LocalReading)
         case _ => next == pc
       }
  }

  lemma LocalReadMoves(st: State, j: nat, outcome: ReadOutcome, i: nat)
    requires CanLocalRead(st, j, outcome) && i < |st.client.conns|
    ensures ReaderMoves(st, LocalRead(j, outcome), i)
  {
  }

  lemma LocalStepMoves(st: State, j: nat, i: nat)
    requires CanLocal(st, j) && i < |st.client.conns|
    ensures ReaderMoves(st, LocalStep(j), i)
  {
  }

  lemma HandlerMovesReader(st: State, i: nat)
    requires CanHandle(st) && i < |st.client.conns|
    ensures ReaderMoves(st, HandlerStep, i)
  {
  }

  lemma CloserMovesReader(st: State, k: nat, i: nat)
    requires CanClose(st, k) && i < |st.client.conns|
    ensures ReaderMoves(st, CloserStep(k), i)
  {
  }

  lemma StepMovesReader(st: State, a: Action, i: nat)
    requires Enabled(st, a) && i < |st.client.conns|
    ensures ReaderMoves(st, a, i)
  {
    match a {
      case LocalRead(j, outcome) => LocalReadMoves(st, j, outcome, i);
      case LocalStep(j) => LocalStepMoves(st, j, i);
      case HandlerStep => HandlerMovesReader(st, i);
      case CloserStep(k) => CloserMovesReader(st, k, i);
      case _ =>
        if ServerSide(a) {
          ServerReads(st, a);
        }
    }
  }

  /** Where a local reader stands, by whether its socket has reached its end or has failed. */
  predicate LocalCaused(pc: LocalPc, eof: bool, failed: bool, closed: bool) {
    && (eof ==> (pc == LocalEof || pc == LocalEnded) && !failed)
    && (pc == LocalEof ==> eof)
    && (failed ==> pc == LocalEnded)
    && (pc == LocalEnded ==> eof || failed || closed)
  }

  ghost predicate ReaderCaused(actions: seq<Action>, st: State, i: nat) {
    var eof, failed := LocalRead(i, Eof) in actions, LocalRead(i, Failed) in actions;
    if i < |st.client.conns| then LocalCaused(st.client.conns[i].reader, eof, failed, st.up.closed)
    else !eof && !failed
  }

  lemma ReaderCausedNext(st: State, a: Action, i: nat, eof: bool, failed: bool, closed: bool)
    requires Enabled(st, a) && i < |st.client.conns| && ReaderMoves(st, a, i) && (st.up.closed ==> closed)
    requires LocalCaused(st.client.conns[i].reader, eof, failed, st.up.closed)
    ensures LocalCaused(Apply(st, a).client.conns[i].reader, eof || a == LocalRead(i, Eof),
                        failed || a == LocalRead(i, Failed), closed)
  {
  }

  lemma StaysClosed(st: State, a: Action)
    requires Enabled(st, a) && st.up.closed
    ensures Apply(st, a).up.closed
  {
  }

  /** A new connection starts by reading. */
  lemma NoReaderAppears(st: State, a: Action, i: nat)
    requires Enabled(st, a) && |st.client.conns| <= i < |Apply(st, a).client.conns|
    ensures !a.LocalRead? && Apply(st, a).client.conns[i].reader == LocalReading
  {
    if ServerSide(a) {
      ServerReads(st, a);
    }
  }

  lemma StepCausesReader(actions: seq<Action>, st: State, a: Action, i: nat)
    requires ReaderCaused(actions, st, i) && Enabled(st, a)
    ensures ReaderCaused(actions + [a], Apply(st, a), i)
  {
    if st.up.closed {
      StaysClosed(st, a);
    }
    if i < |st.client.conns| {
      StepMovesReader(st, a, i);
      ReaderCausedNext(st, a, i, LocalRead(i, Eof) in actions, LocalRead(i, Failed) in actions, Apply(st, a).up.closed);
    } else if i < |Apply(st, a).client.conns| {
      NoReaderAppears(st, a, i);
    }
  }

  lemma {:induction false} RunCausesReader(anonymous: bool, actions: seq<Action>, i: nat)
    requires Run(Start(anonymous), actions).Some?
    ensures ReaderCaused(actions, Run(Start(anonymous), actions).value, i)
  {
    if actions != [] {
      var most, last := actions[..|actions| - 1], actions[|actions| - 1];
      RunCausesReader(anonymous, most, i);
      StepCausesReader(most, Run(Start(anonymous), most).value, last, i);
      assert most + [last] == actions;
    }
  }

  /** How a local socket ended decides what its reader does: at the end of input, and only then, it goes on
      to take its stream off the map; a read error ends it at once; and it ends for no other reason
      than these two or a tunnel that takes nothing more. */
  lemma ReaderFollowsSocket(actions: seq<Action>, st: State, i: nat)
    requires Leads(actions, st) && i < |st.client.conns|
    ensures var pc := st.client.conns[i].reader;
            && (LocalRead(i, Eof) in actions ==> pc == LocalEof || pc == LocalEnded)
            && (pc == LocalEof ==> LocalRead(i, Eof) in actions)
            && (LocalRead(i, Failed) in actions ==> pc == LocalEnded)
            && (pc == LocalEnded ==> LocalRead(i, Eof) in actions || LocalRead(i, Failed) in actions || st.up.closed)
  {
    var anonymous: bool :| Run(Start(anonymous), actions) == W.Some(st);
    RunCausesReader(anonymous, actions, i);
  }
}
