/** The loops over one socket and the step system describe the same tasks: in every reachable state, a
    stream's two server tasks meet the contracts of the loops. */
module LoopsAndSteps {
  import opened ControlPacket
  import opened Projection
  import opened Pipe
  import opened TunnelState
  import TunnelCauses
  import TunnelInputs
  import TunnelServer
  import I = TunnelInvariant
  import L = ServerTask
  import R = RemoteSink

  /** How a reading task that has returned has ended, by what the reads of the run returned. */
  ghost function EndOf(actions: seq<Action>, s: StreamId): L.TaskEnd {
    if TaskRead(s, Eof) in actions then L.EndOfInput
    else if TaskRead(s, Failed) in actions then L.ReadFailed
    else L.ClientGone
  }

  lemma ConcludedIff(s: StreamId, h: seq<Packet>)
    requires TunnelServer.Grammar(s, h)
    ensures TunnelServer.Concluded(s, h) <==> End(s) in h
  {
    if TunnelServer.Concluded(s, h) {
      assert h[|h| - 1] in h;
    }
  }

  /** The task that reads a remote socket, once it has announced its stream: what it has tried to send
      and what its reads returned are as the loop's contract says, at the top of the loop, holding
      data, or returned for the reason its socket gave, and the client's channel has accepted what
      that contract allows. */
  lemma TaskMeetsLoopContract(actions: seq<Action>, st: State, s: StreamId)
    requires Leads(actions, st) && s in st.server.streams && st.server.streams[s].task != Opening
    ensures var task, tried := st.server.streams[s].task, Of(Sent(st.down), s);
            var read := DataOf(TunnelInputs.RemoteReads(actions), s);
            && L.Accepts([], tried, Of(st.down.log, s), st.down.closed)
            && match task {
                 case Holding(chunk) => L.Telling(s, tried, DataOf(tried, s)) && read == DataOf(tried, s) + chunk
                 case Returned =>
                   && L.Told(s, tried, read, EndOf(actions, s))
                   && (EndOf(actions, s) == L.ClientGone ==> !st.server.streams[s].open)
                 case _ => L.Telling(s, tried, read)
               }
  {
    TunnelInputs.ReadsAreInputs(actions, st);
    TunnelCauses.EndFollowsSocket(actions, st, s);
    I.ReachableInv(st);
    assert TunnelServer.StreamOk(st.server.streams, Sent(st.down), st.server.received, s);
    OfConcat(st.down.log, st.down.failed, s);
    DataOfOf(Sent(st.down), s);
    assert [] + Of(Sent(st.down), s) == Of(Sent(st.down), s);
    if st.server.streams[s].task == Returned {
      ConcludedIff(s, Of(Sent(st.down), s));
      OfMembers(Sent(st.down), s);
    }
  }

  function Standing(sink: SinkPc): R.Outcome {
    match sink
    case Pumping => R.Waiting
    case Leaving => R.Finished
    case Left => R.Finished
    case Broken => R.Disconnected
  }

  /** The task that writes a remote socket has served its queue as the loop's contract says. */
  lemma SinkMeetsLoopContract(st: State, s: StreamId)
    requires Reachable(st) && s in st.server.streams
    ensures var r := st.server.streams[s];
            R.Served(r.eaten, r.posted, r.body + r.reply, Standing(r.sink))
  {
    I.ReachableInv(st);
    var r := st.server.streams[s];
    if !R.Ends(r.eaten) {
      R.NoReplyWithoutEnd(r.eaten);
      assert r.body + r.reply == r.body;
    }
  }
}
