/** Who is registered, over runs: a removal holds until the next pong, a task whose send failed removes its
    client before it goes on, and a task whose client is gone stops reading. */
module TunnelRegistration {
  import opened ControlPacket
  import opened TunnelState
  import opened TunnelCauses
  import I = TunnelInvariant
  import Pipe
  import W = Wrappers

  /** The step takes the client's id out of the registry. */
  predicate Removes(st: State, a: Action) {
    match a
    case TaskStep(sid) => sid in st.server.streams && st.server.streams[sid].task == Unlisting
    case ReaderStep => st.server.reader == Dropping
    case PingStep(_) => st.server.pinger == GivingUp
    case WriterStep => st.server.writer == Disconnecting
    case _ => false
  }

  /** The step processes a pong. */
  predicate Pongs(st: State, a: Action) {
    && a.ReaderStep? && st.server.reader == Awaiting && st.up.wire != []
    && Deserialize(st.up.wire[0]).Ok? && Deserialize(st.up.wire[0]).value.Ping?
  }

  /** The state before step `n` of a run. */
  function Before(from: State, actions: seq<Action>, n: nat): W.Option<State>
    requires n <= |actions|
  {
    Run(from, actions[..n])
  }

  lemma BeforePrefix(from: State, actions: seq<Action>, n: nat)
    requires n < |actions|
    ensures Before(from, actions[..|actions| - 1], n) == Before(from, actions, n)
  {
    assert actions[..|actions| - 1][..n] == actions[..n];
  }

  lemma {:induction false} BeforeExists(from: State, actions: seq<Action>, n: nat)
    requires n <= |actions| && Run(from, actions).Some?
    ensures Before(from, actions, n).Some?
  {
    if n == |actions| {
      assert actions[..n] == actions;
    } else {
      BeforeExists(from, actions[..|actions| - 1], n);
      BeforePrefix(from, actions, n);
    }
  }

  ghost predicate RemovesAt(from: State, actions: seq<Action>, n: nat) {
    n < |actions| && Before(from, actions, n).Some? && Removes(Before(from, actions, n).value, actions[n])
  }

  ghost predicate PongsAt(from: State, actions: seq<Action>, n: nat) {
    n < |actions| && Before(from, actions, n).Some? && Pongs(Before(from, actions, n).value, actions[n])
  }

  lemma TaskRegisters(st: State, sid: StreamId)
    requires CanTask(st, sid)
    ensures DoTask(st, sid).server.registered == (st.server.registered && !Removes(st, TaskStep(sid)))
  {
  }

  lemma ReaderRegisters(st: State)
    requires Pipe.Valid(st.up) && CanReader(st)
    ensures DoReader(st).server.registered ==
            if Removes(st, ReaderStep) then false else st.server.registered || Pongs(st, ReaderStep)
  {
  }

  lemma StepRegisters(st: State, a: Action)
    requires Pipe.Valid(st.up) && Enabled(st, a)
    ensures Apply(st, a).server.registered ==
            if Removes(st, a) then false else st.server.registered || Pongs(st, a)
  {
    match a {
      case TaskStep(sid) => TaskRegisters(st, sid);
      case ReaderStep => ReaderRegisters(st);
      case _ =>
        if !ServerSide(a) {
          ClientLeavesServer(st, a);
        }
    }
  }

  // ----- a removal holds until the next pong -----

  /** Some pong of the run comes after step `n`. */
  ghost predicate PongAfter(from: State, actions: seq<Action>, n: nat) {
    exists m: nat :: n < m && PongsAt(from, actions, m)
  }

  ghost predicate AllAnswered(from: State, actions: seq<Action>) {
    forall n: nat :: RemovesAt(from, actions, n) ==> PongAfter(from, actions, n)
  }

  lemma EventsBefore(from: State, actions: seq<Action>, n: nat)
    requires n < |actions| - 1
    ensures RemovesAt(from, actions[..|actions| - 1], n) == RemovesAt(from, actions, n)
    ensures PongsAt(from, actions[..|actions| - 1], n) == PongsAt(from, actions, n)
  {
    BeforePrefix(from, actions, n);
  }

  lemma PongExtends(from: State, actions: seq<Action>, n: nat)
    requires n < |actions| - 1
    ensures PongAfter(from, actions, n) <==>
            PongAfter(from, actions[..|actions| - 1], n) || PongsAt(from, actions, |actions| - 1)
  {
    var l := |actions| - 1;
    if m: nat :| n < m && PongsAt(from, actions, m) {
      if m < l {
        EventsBefore(from, actions, m);
      }
    }
    if m: nat :| n < m && PongsAt(from, actions[..l], m) {
      EventsBefore(from, actions, m);
    }
  }

  lemma StaysAnswered(from: State, actions: seq<Action>)
    requires actions != [] && !RemovesAt(from, actions, |actions| - 1)
    requires AllAnswered(from, actions[..|actions| - 1]) || PongsAt(from, actions, |actions| - 1)
    ensures AllAnswered(from, actions)
  {
    forall n: nat | RemovesAt(from, actions, n) ensures PongAfter(from, actions, n) {
      EventsBefore(from, actions, n);
      PongExtends(from, actions, n);
    }
  }

  lemma WasAnswered(from: State, actions: seq<Action>)
    requires actions != [] && AllAnswered(from, actions) && !PongsAt(from, actions, |actions| - 1)
    ensures AllAnswered(from, actions[..|actions| - 1])
  {
    var most := actions[..|actions| - 1];
    forall n: nat | RemovesAt(from, most, n) ensures PongAfter(from, most, n) {
      EventsBefore(from, actions, n);
      PongExtends(from, actions, n);
    }
  }

  lemma LastUnanswered(from: State, actions: seq<Action>)
    requires actions != [] && RemovesAt(from, actions, |actions| - 1)
    ensures !AllAnswered(from, actions)
  {
    assert !PongAfter(from, actions, |actions| - 1);
  }

  /** Whatever the interleaving, the client is registered exactly if every removal of the run was followed
      by a pong. */
  lemma {:induction false} RegisteredIff(anonymous: bool, actions: seq<Action>)
    requires Run(Start(anonymous), actions).Some?
    ensures Run(Start(anonymous), actions).value.server.registered <==> AllAnswered(Start(anonymous), actions)
  {
    var from := Start(anonymous);
    if actions != [] {
      var most, last := actions[..|actions| - 1], actions[|actions| - 1];
      RegisteredIff(anonymous, most);
      I.StartInv(anonymous);
      I.RunKeeps(from, most);
      StepRegisters(Run(from, most).value, last);
      if Removes(Run(from, most).value, last) {
        LastUnanswered(from, actions);
      } else if Run(from, actions).value.server.registered {
        StaysAnswered(from, actions);
      } else if AllAnswered(from, actions) {
        WasAnswered(from, actions);
      }
    }
  }

  // ----- a failed send removes the client -----

  /** The task that holds data for a closed channel, and is past it, has removed its client. */
  lemma {:induction false} FailedSendRemoves(from: State, actions: seq<Action>, s: StreamId)
    requires Run(from, actions).Some? && from.down.closed && s in from.server.streams
    requires from.server.streams[s].task == Opening || from.server.streams[s].task.Holding?
    ensures Run(from, actions).value.down.closed && s in Run(from, actions).value.server.streams
    ensures var task := Run(from, actions).value.server.streams[s].task;
            || task == from.server.streams[s].task || task == Unlisting
            || exists n: nat :: n < |actions| && actions[n] == TaskStep(s) && RemovesAt(from, actions, n)
  {
    if actions != [] {
      var most, last, l := actions[..|actions| - 1], actions[|actions| - 1], |actions| - 1;
      FailedSendRemoves(from, most, s);
      var st := Run(from, most).value;
      StepMovesTask(st, last, s);
      DownStaysClosed(st, last);
      if n: nat :| n < |most| && most[n] == TaskStep(s) && RemovesAt(from, most, n) {
        BeforePrefix(from, actions, n);
        assert RemovesAt(from, actions, n);
      }
      if st.server.streams[s].task == Unlisting && last == TaskStep(s) {
        assert RemovesAt(from, actions, l);
      }
    }
  }

  lemma DownStaysClosed(st: State, a: Action)
    requires Enabled(st, a) && st.down.closed
    ensures Apply(st, a).down.closed
  {
  }

  // ----- a client that is gone -----

  function ReadsOf(actions: seq<Action>, s: StreamId): nat {
    if actions == [] then 0
    else
      var last := actions[|actions| - 1];
      ReadsOf(actions[..|actions| - 1], s) + (if last.TaskRead? && last.sid == s then 1 else 0)
  }

  function Budget(task: TaskPc): nat {
    if task == Reading then 1 else 0
  }

  /** While its client stays unregistered, a stream's task finishes the read it is waiting for, if any, and
      reads no more. */
  lemma {:induction false} GoneStopsReading(from: State, actions: seq<Action>, s: StreamId)
    requires Run(from, actions).Some? && s in from.server.streams
    requires forall n: nat :: n <= |actions| && Before(from, actions, n).Some? ==>
               !Before(from, actions, n).value.server.registered
    ensures s in Run(from, actions).value.server.streams
    ensures ReadsOf(actions, s) + Budget(Run(from, actions).value.server.streams[s].task)
            <= Budget(from.server.streams[s].task)
  {
    if actions != [] {
      var most, last := actions[..|actions| - 1], actions[|actions| - 1];
      forall n: nat | n <= |most| && Before(from, most, n).Some?
        ensures !Before(from, most, n).value.server.registered
      {
        assert most[..n] == actions[..n];
        assert Before(from, actions, n) == Before(from, most, n);
      }
      GoneStopsReading(from, most, s);
      assert most[..|most|] == most;
      assert Before(from, most, |most|) == Run(from, most);
      StepMovesTask(Run(from, most).value, last, s);
    }
  }
}
