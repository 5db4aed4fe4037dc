/** The histories of a state are those of the run that led to it: what the tasks are recorded to have
    read is what the reads of the run returned, each packet on either link was sent by one step for
    one reason, and the bytes in the sockets are as many as the writes of the run let through. */
module TunnelInputs {
  import Utf8
  import opened ControlPacket
  import opened Pipe
  import opened TunnelState
  import opened TunnelServer
  import opened TunnelInvariant
  import W = Wrappers

  // ----- what the sockets gave -----

  /** The data a step reads from a remote socket. */
  function RemoteReadOf(a: Action): seq<Packet> {
    if a.TaskRead? && a.outcome.Got? then [Data(a.sid, a.outcome.data)] else []
  }

  function RemoteReads(actions: seq<Action>): seq<Packet> {
    if actions == [] then []
    else RemoteReads(actions[..|actions| - 1]) + RemoteReadOf(actions[|actions| - 1])
  }

  /** The data a step reads from a local socket, under the stream of that connection. */
  function LocalReadOf(a: Action, conns: seq<Conn>): seq<Packet> {
    if a.LocalRead? && a.outcome.Got? && a.index < |conns| then [Data(conns[a.index].stream, a.outcome.data)] else []
  }

  function LocalReads(actions: seq<Action>, conns: seq<Conn>): seq<Packet> {
    if actions == [] then []
    else LocalReads(actions[..|actions| - 1], conns) + LocalReadOf(actions[|actions| - 1], conns)
  }

  /** Connections are only added, and keep their stream. */
  ghost predicate ConnsGrow(conns: seq<Conn>, next: seq<Conn>) {
    |conns| <= |next| && forall i :: 0 <= i < |conns| ==> next[i].stream == conns[i].stream
  }

  ghost predicate LocalReadsKnown(actions: seq<Action>, conns: seq<Conn>) {
    forall a :: a in actions && a.LocalRead? ==> a.index < |conns|
  }

  lemma {:induction false} LocalReadsStable(actions: seq<Action>, conns: seq<Conn>, next: seq<Conn>)
    requires ConnsGrow(conns, next) && LocalReadsKnown(actions, conns)
    ensures LocalReads(actions, next) == LocalReads(actions, conns)
  {
    if actions != [] {
      assert actions[|actions| - 1] in actions;
      LocalReadsStable(actions[..|actions| - 1], conns, next);
    }
  }

  ghost predicate ReadsOk(actions: seq<Action>, st: State) {
    && st.server.received == RemoteReads(actions)
    && st.client.answers == LocalReads(actions, st.client.conns)
    && LocalReadsKnown(actions, st.client.conns)
  }

  lemma ServerReads(st: State, a: Action)
    requires Enabled(st, a) && ServerSide(a)
    ensures Apply(st, a).server.received == st.server.received + RemoteReadOf(a)
    ensures Apply(st, a).client == st.client
  {
  }

  /** What connection `i` has read, if it is there. */
  function ReadAt(conns: seq<Conn>, i: nat): seq<Utf8.Byte> {
    if i < |conns| then conns[i].read else []
  }

  lemma LocalReadReads(st: State, i: nat, outcome: ReadOutcome)
    requires CanLocalRead(st, i, outcome)
    ensures var next := DoLocalRead(st, i, outcome);
            && next.server == st.server
            && next.client.answers == st.client.answers + LocalReadOf(LocalRead(i, outcome), st.client.conns)
            && ConnsGrow(st.client.conns, next.client.conns)
            && forall k: nat ::
                 ReadAt(next.client.conns, k) ==
                 ReadAt(st.client.conns, k) + (if k == i && outcome.Got? then outcome.data else [])
  {
  }

  lemma HandlerReadsNothing(st: State)
    requires CanHandle(st)
    ensures DoHandler(st).server == st.server && DoHandler(st).client.answers == st.client.answers
    ensures ConnsGrow(st.client.conns, DoHandler(st).client.conns)
    ensures forall k: nat :: ReadAt(DoHandler(st).client.conns, k) == ReadAt(st.client.conns, k)
  {
  }

  lemma OthersReadNothing(st: State, a: Action)
    requires Enabled(st, a) && !ServerSide(a) && !a.LocalRead?
    ensures Apply(st, a).server == st.server
    ensures Apply(st, a).client.answers == st.client.answers
    ensures ConnsGrow(st.client.conns, Apply(st, a).client.conns)
    ensures forall k: nat :: ReadAt(Apply(st, a).client.conns, k) == ReadAt(st.client.conns, k)
  {
    if a.HandlerStep? {
      HandlerReadsNothing(st);
    }
  }

  lemma ClientReads(st: State, a: Action)
    requires Enabled(st, a) && !ServerSide(a)
    ensures Apply(st, a).server == st.server
    ensures Apply(st, a).client.answers == st.client.answers + LocalReadOf(a, st.client.conns)
    ensures ConnsGrow(st.client.conns, Apply(st, a).client.conns)
    ensures a.LocalRead? ==> a.index < |st.client.conns|
    ensures forall k: nat ::
              ReadAt(Apply(st, a).client.conns, k) ==
              ReadAt(st.client.conns, k)
              + (if a.LocalRead? && a.index == k && a.outcome.Got? then a.outcome.data else [])
  {
    if a.LocalRead? {
      LocalReadReads(st, a.index, a.outcome);
    } else {
      OthersReadNothing(st, a);
    }
  }

  lemma StepReads(actions: seq<Action>, st: State, a: Action)
    requires ReadsOk(actions, st) && Enabled(st, a)
    ensures ReadsOk(actions + [a], Apply(st, a))
  {
    assert (actions + [a])[..|actions|] == actions;
    var next := Apply(st, a);
    if ServerSide(a) {
      ServerReads(st, a);
    } else {
      ClientReads(st, a);
      LocalReadsStable(actions, st.client.conns, next.client.conns);
    }
  }

  // ----- what the tasks said -----

  /** The packets a step tries to send to the client, by its cause. */
  function SaidBy(st: State, a: Action): seq<Packet> {
    match a
    case TaskStep(sid) => if sid in st.server.streams then Says(sid, st.server.streams[sid].task) else []
    case PingStep(token) => if st.server.pinger == Pinging then [Ping(token)] else []
    case _ => []
  }

  /** The packets a step tries to send to the server, by its cause: a pong for a ping taken, a refusal
      for a failed connection attempt and for data that finds no connection, data for a read. */
  function AnsweredBy(st: State, a: Action): seq<Packet> {
    var h := st.client.handler;
    match a
    case HandlerStep =>
      if h == Idle then
        if st.down.wire != [] && Deserialize(st.down.wire[0]).Ok? && Deserialize(st.down.wire[0]).value.Ping?
        then [Ping(W.None)] else []
      else if h.Finding? && h.sid !in st.client.streams then [Refused(h.sid)]
      else []
    case HandlerConnect(outcome) => if outcome == Refusing && h.Connecting? then [Refused(h.sid)] else []
    case LocalStep(i) =>
      if i < |st.client.conns| && st.client.conns[i].reader.LocalHolding?
      then [Data(st.client.conns[i].stream, st.client.conns[i].reader.data)] else []
    case _ => []
  }

  lemma ServerSays(st: State, a: Action)
    requires LinksOk(st) && Enabled(st, a) && ServerSide(a)
    ensures Sent(Apply(st, a).down) == Sent(st.down) + SaidBy(st, a)
    ensures Sent(Apply(st, a).up) == Sent(st.up)
  {
    match a {
      case TaskStep(sid) => DownSends(st, sid);
      case ReaderStep => ReaderKeepsLinks(st);
      case WriterStep => WriterKeepsLinks(st);
      case PingStep(token) => PingKeepsLinks(st, token);
      case _ =>
    }
  }

  lemma HandlerAnswers(st: State)
    requires LinksOk(st) && CanHandle(st)
    ensures Sent(DoHandler(st).down) == Sent(st.down)
    ensures Sent(DoHandler(st).up) == Sent(st.up) + AnsweredBy(st, HandlerStep)
  {
    HandlerKeepsLinks(st);
    if st.client.handler == Idle {
      SendValid(st.up, Ping(W.None));
    } else if st.client.handler.Finding? {
      SendValid(st.up, Refused(st.client.handler.sid));
    }
  }

  lemma ConnectAnswers(st: State, outcome: ConnectOutcome)
    requires LinksOk(st) && CanConnect(st)
    ensures DoConnect(st, outcome).down == st.down
    ensures Sent(DoConnect(st, outcome).up) == Sent(st.up) + AnsweredBy(st, HandlerConnect(outcome))
  {
    SendValid(st.up, Refused(st.client.handler.sid));
  }

  lemma LocalAnswers(st: State, i: nat)
    requires LinksOk(st) && CanLocal(st, i)
    ensures DoLocal(st, i).down == st.down
    ensures Sent(DoLocal(st, i).up) == Sent(st.up) + AnsweredBy(st, LocalStep(i))
  {
    if st.client.conns[i].reader.LocalHolding? {
      SendValid(st.up, Data(st.client.conns[i].stream, st.client.conns[i].reader.data));
    }
  }

  lemma ClientSays(st: State, a: Action)
    requires LinksOk(st) && Enabled(st, a) && !ServerSide(a)
    ensures Sent(Apply(st, a).down) == Sent(st.down)
    ensures Sent(Apply(st, a).up) == Sent(st.up) + AnsweredBy(st, a)
  {
    match a {
      case HandlerStep => HandlerAnswers(st);
      case HandlerConnect(outcome) => ConnectAnswers(st, outcome);
      case LocalStep(i) => LocalAnswers(st, i);
      case UplinkStep => UplinkKeepsLinks(st);
      case UplinkFail => AbortValid(st.up);
      case _ =>
    }
  }

  lemma StepSays(st: State, a: Action)
    requires LinksOk(st) && Enabled(st, a)
    ensures Sent(Apply(st, a).down) == Sent(st.down) + SaidBy(st, a)
    ensures Sent(Apply(st, a).up) == Sent(st.up) + AnsweredBy(st, a)
  {
    if ServerSide(a) {
      ServerSays(st, a);
    } else {
      ClientSays(st, a);
    }
  }

  /** All that a run says, in the order of its steps. */
  function Said(from: State, actions: seq<Action>): seq<Packet> {
    if actions == [] then []
    else
      var most := actions[..|actions| - 1];
      Said(from, most) + (if Run(from, most).Some? then SaidBy(Run(from, most).value, actions[|actions| - 1]) else [])
  }

  function Answered(from: State, actions: seq<Action>): seq<Packet> {
    if actions == [] then []
    else
      var most := actions[..|actions| - 1];
      Answered(from, most)
      + (if Run(from, most).Some? then AnsweredBy(Run(from, most).value, actions[|actions| - 1]) else [])
  }

  // ----- results -----

  /** The data the reads of a run got from local connection `i`. */
  function ReadBy(actions: seq<Action>, i: nat): seq<Utf8.Byte> {
    if actions == [] then []
    else
      var last := actions[|actions| - 1];
      ReadBy(actions[..|actions| - 1], i)
      + (if last.LocalRead? && last.index == i && last.outcome.Got? then last.outcome.data else [])
  }

  lemma {:induction false} RunReadsAt(anonymous: bool, actions: seq<Action>, i: nat)
    requires Run(Start(anonymous), actions).Some?
    ensures ReadAt(Run(Start(anonymous), actions).value.client.conns, i) == ReadBy(actions, i)
  {
    if actions != [] {
      var most, last := actions[..|actions| - 1], actions[|actions| - 1];
      RunReadsAt(anonymous, most, i);
      if ServerSide(last) {
        ServerReads(Run(Start(anonymous), most).value, last);
      } else {
        ClientReads(Run(Start(anonymous), most).value, last);
      }
    }
  }

  lemma ConnReadsInputs(actions: seq<Action>, st: State, i: nat)
    requires Leads(actions, st) && i < |st.client.conns|
    ensures st.client.conns[i].read == ReadBy(actions, i)
  {
    var anonymous: bool :| Run(Start(anonymous), actions) == W.Some(st);
    RunReadsAt(anonymous, actions, i);
  }

  /** Both links: the packets sent so far, accepted or not, are exactly what the steps of the run said, in
      order. */
  lemma {:induction false} SentIsSaid(anonymous: bool, actions: seq<Action>)
    requires Run(Start(anonymous), actions).Some?
    ensures var st := Run(Start(anonymous), actions).value;
            && Sent(st.down) == Said(Start(anonymous), actions)
            && Sent(st.up) == Answered(Start(anonymous), actions)
  {
    if actions != [] {
      var most, last := actions[..|actions| - 1], actions[|actions| - 1];
      SentIsSaid(anonymous, most);
      StartInv(anonymous);
      RunKeeps(Start(anonymous), most);
      StepSays(Run(Start(anonymous), most).value, last);
    }
  }

  lemma {:induction false} RunReads(anonymous: bool, actions: seq<Action>)
    requires Run(Start(anonymous), actions).Some?
    ensures ReadsOk(actions, Run(Start(anonymous), actions).value)
  {
    if actions != [] {
      var most, last := actions[..|actions| - 1], actions[|actions| - 1];
      RunReads(anonymous, most);
      StepReads(most, Run(Start(anonymous), most).value, last);
      assert most + [last] == actions;
    }
  }

  /** Each read of the run has its place in what was read, with all its data. */
  lemma {:induction false} RemoteReadAt(actions: seq<Action>, k: nat)
    requires k < |actions| && actions[k].TaskRead? && actions[k].outcome.Got?
    ensures |RemoteReads(actions[..k])| < |RemoteReads(actions)|
    ensures RemoteReads(actions)[|RemoteReads(actions[..k])|] == Data(actions[k].sid, actions[k].outcome.data)
  {
    var most := actions[..|actions| - 1];
    if k < |most| {
      RemoteReadAt(most, k);
      assert most[..k] == actions[..k];
    }
  }

  lemma {:induction false} LocalReadAt(actions: seq<Action>, conns: seq<Conn>, k: nat)
    requires k < |actions| && actions[k].LocalRead? && actions[k].outcome.Got? && actions[k].index < |conns|
    ensures |LocalReads(actions[..k], conns)| < |LocalReads(actions, conns)|
    ensures LocalReads(actions, conns)[|LocalReads(actions[..k], conns)|] ==
            Data(conns[actions[k].index].stream, actions[k].outcome.data)
  {
    var most := actions[..|actions| - 1];
    if k < |most| {
      LocalReadAt(most, conns, k);
      assert most[..k] == actions[..k];
    }
  }

  /** What was recorded as read is what the reads of the run returned, on either side. */
  lemma ReadsAreInputs(actions: seq<Action>, st: State)
    requires Leads(actions, st)
    ensures Reachable(st)
    ensures st.server.received == RemoteReads(actions)
    ensures st.client.answers == LocalReads(actions, st.client.conns)
    ensures forall a :: a in actions && a.LocalRead? ==> a.index < |st.client.conns|
  {
    var anonymous: bool :| Run(Start(anonymous), actions) == W.Some(st);
    RunReads(anonymous, actions);
  }
}
