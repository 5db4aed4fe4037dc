/** The registry under full interleaving: every access to one of its two maps is a step of its
    own, so an addition takes two steps and a removal up to four. Per client there is one task
    that adds it, then serves its messages, adding it again on every pong, and finally removes
    it; any number of other tasks holding a clone of the client may remove it at any time.

    Assumed: every connection gets an id of its own. */
module RegistryRuns {
  import opened Wrappers
  import opened ConnectedClients

  /** Where a removal stands. */
  datatype Removal = Closing | CheckingHost | DroppingHost | DroppingId | Done

  /** Where the task that serves a client stands. */
  datatype Life =
    | AddingId | AddingHost            // the first addition
    | Serving
    | ReaddingId | ReaddingHost        // the addition a pong causes
    | Leaving(step: Removal)

  datatype Member = Member(client: Client, life: Life)

  datatype Remover = Remover(client: Client, step: Removal)

  datatype State = State(
    maps: Registry,
    closed: set<nat>,                  // channels that were closed
    members: map<ClientId, Member>,    // every client that ever connected
    removers: seq<Remover>)            // every removal another task began

  const START := State(NOBODY, {}, map[], [])

  datatype Action =
    | Join(client: Client)
    | Serve(id: ClientId)              // one map access of the client's own task
    | Pong(id: ClientId)
    | Hangup(id: ClientId)
    | Evict(client: Client)            // another task starts removing the client
    | EvictStep(index: nat)            // and takes one step

  predicate Enabled(st: State, a: Action) {
    match a
    case Join(c) => c.id !in st.members
    case Serve(id) =>
      id in st.members && st.members[id].life != Serving && st.members[id].life != Leaving(Done)
    case Pong(id) => id in st.members && st.members[id].life == Serving
    case Hangup(id) => id in st.members && st.members[id].life == Serving
    case Evict(c) => c.id in st.members && st.members[c.id].client == c
    case EvictStep(k) => k < |st.removers| && st.removers[k].step != Done
  }

  function NextRemoval(maps: Registry, c: Client, step: Removal): Removal {
    match step
    case Closing => CheckingHost
    case CheckingHost =>
      if FullHost(c) in maps.hosts && maps.hosts[FullHost(c)].id == c.id then DroppingHost else DroppingId
    case DroppingHost => DroppingId
    case _ => Done
  }

  /** One step of a removal. The host is dropped on the word of an earlier check. */
  function RemoveStep(st: State, c: Client, step: Removal): State {
    match step
    case Closing => st.(closed := st.closed + {c.tx})
    case DroppingHost => st.(maps := st.maps.(hosts := st.maps.hosts - {FullHost(c)}))
    case DroppingId => st.(maps := st.maps.(clients := st.maps.clients - {c.id}))
    case _ => st
  }

  function SetLife(st: State, id: ClientId, life: Life): State
    requires id in st.members
  {
    st.(members := st.members[id := st.members[id].(life := life)])
  }

  function InsertId(st: State, c: Client): State {
    st.(maps := st.maps.(clients := st.maps.clients[c.id := c]))
  }

  function InsertHost(st: State, c: Client): State {
    st.(maps := st.maps.(hosts := st.maps.hosts[FullHost(c) := c]))
  }

  function DoServe(st: State, id: ClientId): State
    requires Enabled(st, Serve(id))
  {
    var c := st.members[id].client;
    match st.members[id].life
    case AddingId => InsertId(SetLife(st, id, AddingHost), c)
    case AddingHost => InsertHost(SetLife(st, id, Serving), c)
    case ReaddingId => InsertId(SetLife(st, id, ReaddingHost), c)
    case ReaddingHost => InsertHost(SetLife(st, id, Serving), c)
    case Leaving(step) => RemoveStep(SetLife(st, id, Leaving(NextRemoval(st.maps, c, step))), c, step)
    case Serving => st
  }

  function DoEvict(st: State, k: nat): State
    requires Enabled(st, EvictStep(k))
  {
    var r := st.removers[k];
    RemoveStep(st.(removers := st.removers[k := r.(step := NextRemoval(st.maps, r.client, r.step))]), r.client, r.step)
  }

  function Apply(st: State, a: Action): State
    requires Enabled(st, a)
  {
    match a
    case Join(c) => st.(members := st.members[c.id := Member(c, AddingId)])
    case Serve(id) => DoServe(st, id)
    case Pong(id) => SetLife(st, id, ReaddingId)
    case Hangup(id) => SetLife(st, id, Leaving(Closing))
    case Evict(c) => st.(removers := st.removers + [Remover(c, Closing)])
    case EvictStep(k) => DoEvict(st, k)
  }

  function Run(from: State, actions: seq<Action>): Option<State> {
    if actions == [] then Some(from)
    else
      var before := Run(from, actions[..|actions| - 1]);
      var a := actions[|actions| - 1];
      if before.Some? && Enabled(before.value, a) then Some(Apply(before.value, a)) else None
  }

  ghost predicate Reachable(st: State) {
    exists actions: seq<Action> :: Run(START, actions) == Some(st)
  }

  ghost predicate Continues(st: State, later: State) {
    exists actions: seq<Action> :: Run(st, actions) == Some(later)
  }

  // ----- the invariant -----

  ghost predicate IdOk(st: State, id: ClientId)
    requires id in st.maps.clients
  {
    && id in st.members && st.maps.clients[id] == st.members[id].client
    && st.members[id].life != Leaving(Done)
  }

  ghost predicate HostOk(st: State, h: string)
    requires h in st.maps.hosts
  {
    var d := st.maps.hosts[h];
    && FullHost(d) == h && d.id in st.members && st.members[d.id].client == d
    && st.members[d.id].life != Leaving(Done) && st.members[d.id].life != Leaving(DroppingId)
  }

  ghost predicate Inv(st: State) {
    && (forall id :: id in st.members ==> st.members[id].client.id == id)
    && (forall id :: id in st.maps.clients ==> IdOk(st, id))
    && (forall h :: h in st.maps.hosts ==> HostOk(st, h))
    && (forall k :: 0 <= k < |st.removers| ==>
          var c := st.removers[k].client; c.id in st.members && st.members[c.id].client == c)
    && ChannelsOk(st)
  }

  /** A removal closes the channel before it touches the maps. */
  ghost predicate ChannelsOk(st: State) {
    && (forall id :: id in st.members && st.members[id].life.Leaving? && st.members[id].life.step != Closing ==>
          st.members[id].client.tx in st.closed)
    && (forall k :: 0 <= k < |st.removers| && st.removers[k].step != Closing ==> st.removers[k].client.tx in st.closed)
  }

  lemma AddingKeeps(st: State, id: ClientId)
    requires Inv(st) && Enabled(st, Serve(id)) && !st.members[id].life.Leaving?
    ensures Inv(DoServe(st, id))
  {
    var next := DoServe(st, id);
    forall i | i in next.maps.clients ensures IdOk(next, i) {
      assert i in st.maps.clients ==> IdOk(st, i);
    }
    forall h | h in next.maps.hosts ensures HostOk(next, h) {
      assert h in st.maps.hosts ==> HostOk(st, h);
    }
  }

  /** A removal's step takes entries away; its own client's are gone before it moves past them. */
  lemma LeavingKeeps(st: State, id: ClientId, step: Removal)
    requires Inv(st) && Enabled(st, Serve(id)) && st.members[id].life == Leaving(step)
    ensures Inv(DoServe(st, id))
  {
    var c, next := st.members[id].client, DoServe(st, id);
    assert next.maps.clients.Keys <= st.maps.clients.Keys && next.maps.hosts.Keys <= st.maps.hosts.Keys;
    forall i | i in next.maps.clients ensures IdOk(next, i) {
      assert IdOk(st, i);
    }
    forall h | h in next.maps.hosts ensures HostOk(next, h) {
      assert HostOk(st, h);
      if st.maps.hosts[h].id == id {
        assert h == FullHost(c);
      }
    }
  }

  lemma ServeKeeps(st: State, id: ClientId)
    requires Inv(st) && Enabled(st, Serve(id))
    ensures Inv(DoServe(st, id))
  {
    match st.members[id].life {
      case Leaving(step) => LeavingKeeps(st, id, step);
      case _ => AddingKeeps(st, id);
    }
  }

  lemma EvictKeeps(st: State, k: nat)
    requires Inv(st) && Enabled(st, EvictStep(k))
    ensures Inv(DoEvict(st, k))
  {
    var next := DoEvict(st, k);
    forall i | i in next.maps.clients ensures IdOk(next, i) {
      assert IdOk(st, i);
    }
    forall h | h in next.maps.hosts ensures HostOk(next, h) {
      assert HostOk(st, h);
    }
  }

  lemma StepKeeps(st: State, a: Action)
    requires Inv(st) && Enabled(st, a)
    ensures Inv(Apply(st, a))
  {
    var next := Apply(st, a);
    match a {
      case Serve(id) => ServeKeeps(st, id);
      case EvictStep(k) => EvictKeeps(st, k);
      case _ =>
        forall i | i in next.maps.clients ensures IdOk(next, i) {
          assert IdOk(st, i);
        }
        forall h | h in next.maps.hosts ensures HostOk(next, h) {
          assert HostOk(st, h);
        }
    }
  }

  /** A task that has finished its removal stays finished. */
  lemma StepKeepsLeft(st: State, a: Action, id: ClientId)
    requires Inv(st) && Enabled(st, a) && id in st.members && st.members[id].life == Leaving(Done)
    ensures id in Apply(st, a).members && Apply(st, a).members[id].life == Leaving(Done)
  {
  }

  lemma {:induction false} RunKeeps(from: State, actions: seq<Action>)
    requires Inv(from) && Run(from, actions).Some?
    ensures Inv(Run(from, actions).value)
    ensures forall id :: id in from.members && from.members[id].life == Leaving(Done) ==>
              && id in Run(from, actions).value.members
              && Run(from, actions).value.members[id].life == Leaving(Done)
  {
    if actions != [] {
      var most, last := actions[..|actions| - 1], actions[|actions| - 1];
      RunKeeps(from, most);
      StepKeeps(Run(from, most).value, last);
      forall id | id in from.members && from.members[id].life == Leaving(Done)
        ensures id in Run(from, actions).value.members
        ensures Run(from, actions).value.members[id].life == Leaving(Done)
      {
        StepKeepsLeft(Run(from, most).value, last, id);
      }
    }
  }

  lemma ReachableInv(st: State)
    requires Reachable(st)
    ensures Inv(st)
  {
    var actions: seq<Action> :| Run(START, actions) == Some(st);
    RunKeeps(START, actions);
  }

  // ----- results -----

  /** In every reachable state each entry of either map is a client whose own task has not
      finished its final removal, stored under its own id or full host. */
  lemma EntriesAreLive(st: State)
    requires Reachable(st)
    ensures forall id :: id in st.maps.clients ==>
              && id in st.members && st.members[id].client == st.maps.clients[id]
              && st.members[id].life != Leaving(Done)
    ensures forall h :: h in st.maps.hosts ==>
              var d := st.maps.hosts[h];
              && FullHost(d) == h && d.id in st.members && st.members[d.id].client == d
              && st.members[d.id].life != Leaving(Done)
  {
    ReachableInv(st);
    forall id | id in st.maps.clients ensures IdOk(st, id) {
    }
    forall h | h in st.maps.hosts ensures HostOk(st, h) {
    }
  }

  /** No resurrection. Once a client's own task has finished its final removal, the client is in
      neither map and never will be again, however the other tasks are interleaved. */
  lemma NoResurrection(st: State, later: State, id: ClientId)
    requires Reachable(st) && Continues(st, later)
    requires id in st.members && st.members[id].life == Leaving(Done)
    ensures id in later.members && later.members[id].client.tx in later.closed
    ensures id !in later.maps.clients
    ensures forall h :: h in later.maps.hosts ==> later.maps.hosts[h].id != id
  {
    ReachableInv(st);
    var actions: seq<Action> :| Run(st, actions) == Some(later);
    RunKeeps(st, actions);
    forall i | i in later.maps.clients ensures i != id {
      assert IdOk(later, i);
    }
    forall h | h in later.maps.hosts ensures later.maps.hosts[h].id != id {
      assert HostOk(later, h);
    }
  }

  // ----- what interleaving breaks -----

  lemma Extend(from: State, actions: seq<Action>, st: State, a: Action)
    requires Run(from, actions) == Some(st) && Enabled(st, a)
    ensures Run(from, actions + [a]) == Some(Apply(st, a))
  {
  }

  lemma ReachableStep(st: State, a: Action)
    requires Reachable(st) && Enabled(st, a)
    ensures Reachable(Apply(st, a))
  {
    var actions: seq<Action> :| Run(START, actions) == Some(st);
    Extend(START, actions, st, a);
  }

  /** The drop spares every other client exactly when the host is still the removed client's own,
      or nobody's. */
  lemma DropSparesOthersIff(st: State, c: Client)
    ensures (forall h :: h in st.maps.hosts && st.maps.hosts[h].id != c.id
                         ==> h in RemoveStep(st, c, DroppingHost).maps.hosts)
            <==> (FullHost(c) in st.maps.hosts ==> st.maps.hosts[FullHost(c)].id == c.id)
  {
  }

  /** The step puts client `d` under host `h`. */
  predicate Inserts(st: State, a: Action, h: string, d: Client) {
    && a.Serve? && a.id in st.members && st.members[a.id].client == d && FullHost(d) == h
    && (st.members[a.id].life == AddingHost || st.members[a.id].life == ReaddingHost)
  }

  /** The step drops whatever is under host `h`. */
  predicate Drops(st: State, a: Action, h: string) {
    || (a.Serve? && a.id in st.members && st.members[a.id].life == Leaving(DroppingHost)
        && FullHost(st.members[a.id].client) == h)
    || (a.EvictStep? && a.index < |st.removers| && st.removers[a.index].step == DroppingHost
        && FullHost(st.removers[a.index].client) == h)
  }

  /** The step changes who is under host `h`. */
  ghost predicate Touches(st: State, a: Action, h: string) {
    Drops(st, a, h) || exists d :: Inserts(st, a, h, d)
  }

  /** The state before step `n` of a run. */
  function Before(from: State, actions: seq<Action>, n: nat): Option<State>
    requires n <= |actions|
  {
    Run(from, actions[..n])
  }

  /** No step from step `n` on changes who is under host `h`. */
  ghost predicate QuietSince(from: State, actions: seq<Action>, n: nat, h: string) {
    forall m :: n <= m < |actions| && Before(from, actions, m).Some? ==>
      !Touches(Before(from, actions, m).value, actions[m], h)
  }

  /** Step `n` puts `d` under host `h`, and nothing after it changes that. */
  ghost predicate LastInsert(from: State, actions: seq<Action>, h: string, d: Client, n: nat) {
    && n < |actions| && Before(from, actions, n).Some?
    && Inserts(Before(from, actions, n).value, actions[n], h, d)
    && QuietSince(from, actions, n + 1, h)
  }

  lemma BeforePrefix(from: State, actions: seq<Action>, m: nat)
    requires m < |actions|
    ensures Before(from, actions[..|actions| - 1], m) == Before(from, actions, m)
  {
    assert actions[..|actions| - 1][..m] == actions[..m];
  }

  lemma QuietExtends(from: State, actions: seq<Action>, n: nat, h: string)
    requires actions != [] && n < |actions| && Before(from, actions, |actions| - 1).Some?
    ensures QuietSince(from, actions, n, h)
            <==> && QuietSince(from, actions[..|actions| - 1], n, h)
                 && !Touches(Before(from, actions, |actions| - 1).value, actions[|actions| - 1], h)
  {
    forall m | 0 <= m < |actions| ensures Before(from, actions[..|actions| - 1], m) == Before(from, actions, m) {
      BeforePrefix(from, actions, m);
    }
  }

  predicate Under(st: State, h: string, d: Client) {
    h in st.maps.hosts && st.maps.hosts[h] == d
  }

  /** After the step `d` is under `h` exactly if the step puts it there or it was there untouched. */
  ghost predicate HostFollows(st: State, a: Action, h: string, d: Client)
    requires Enabled(st, a)
  {
    Under(Apply(st, a), h, d) <==> Inserts(st, a, h, d) || (Under(st, h, d) && !Touches(st, a, h))
  }

  lemma ServeHost(st: State, id: ClientId, h: string, d: Client)
    requires Inv(st) && Enabled(st, Serve(id))
    ensures HostFollows(st, Serve(id), h, d)
  {
    var m := st.members[id];
    if (m.life == AddingHost || m.life == ReaddingHost) && FullHost(m.client) == h {
      assert Inserts(st, Serve(id), h, m.client);
    }
  }

  lemma EvictHost(st: State, k: nat, h: string, d: Client)
    requires Inv(st) && Enabled(st, EvictStep(k))
    ensures HostFollows(st, EvictStep(k), h, d)
  {
  }

  lemma StepHost(st: State, a: Action, h: string, d: Client)
    requires Inv(st) && Enabled(st, a)
    ensures HostFollows(st, a, h, d)
  {
    match a {
      case Serve(id) => ServeHost(st, id, h, d);
      case EvictStep(k) => EvictHost(st, k, h, d);
      case _ =>
    }
  }

  /** Who is under a host at the end of a run, whatever the interleaving: whoever was put there last, if
      nothing was dropped there since, or whoever was there if no step touched the host at all. */
  lemma {:induction false} HostFollowsRun(from: State, actions: seq<Action>, h: string, d: Client)
    requires Inv(from) && Run(from, actions).Some?
    ensures Under(Run(from, actions).value, h, d)
            <==> || (exists n: nat :: LastInsert(from, actions, h, d, n))
                 || (Under(from, h, d) && QuietSince(from, actions, 0, h))
  {
    if actions != [] {
      var most, last := actions[..|actions| - 1], actions[|actions| - 1];
      HostFollowsRun(from, most, h, d);
      RunKeeps(from, most);
      StepHost(Run(from, most).value, last, h, d);
      QuietExtends(from, actions, 0, h);
      LastInsertExtends(from, actions, h, d);
    }
  }

  lemma LastInsertExtends(from: State, actions: seq<Action>, h: string, d: Client)
    requires actions != [] && Before(from, actions, |actions| - 1).Some?
    ensures var l := |actions| - 1;
            var st := Before(from, actions, l).value;
            (exists n: nat :: LastInsert(from, actions, h, d, n))
            <==> || Inserts(st, actions[l], h, d)
                 || (!Touches(st, actions[l], h) && exists n: nat :: LastInsert(from, actions[..l], h, d, n))
  {
    var l := |actions| - 1;
    if Inserts(Before(from, actions, l).value, actions[l], h, d) {
      assert LastInsert(from, actions, h, d, l);
    }
    if n: nat :| LastInsert(from, actions, h, d, n) {
      if n < l {
        BeforePrefix(from, actions, n);
        QuietExtends(from, actions, n + 1, h);
        assert LastInsert(from, actions[..l], h, d, n);
      }
    }
    if n: nat :| !Touches(Before(from, actions, l).value, actions[l], h) && LastInsert(from, actions[..l], h, d, n) {
      BeforePrefix(from, actions, n);
      QuietExtends(from, actions, n + 1, h);
      assert LastInsert(from, actions, h, d, n);
    }
  }

  /** Which drops hit another client. In `from` the removal of `c` has just checked that the host is
      still `c`'s own. However the run goes on until the drop, the drop takes another client's entry
      exactly when some other client was put under the host meanwhile and nothing changed that again;
      so if no other client comes, the drop spares everybody. */
  lemma DropHitsOtherIff(from: State, actions: seq<Action>, c: Client)
    requires Reachable(from) && Run(from, actions).Some?
    requires FullHost(c) in from.maps.hosts && from.maps.hosts[FullHost(c)].id == c.id
    ensures var st := Run(from, actions).value;
            (exists h :: h in st.maps.hosts && st.maps.hosts[h].id != c.id
                         && h !in RemoveStep(st, c, DroppingHost).maps.hosts)
            <==> exists n: nat, d: Client :: d.id != c.id && LastInsert(from, actions, FullHost(c), d, n)
  {
    ReachableInv(from);
    var st, full := Run(from, actions).value, FullHost(c);
    DropSparesOthersIff(st, c);
    if full in st.maps.hosts {
      HostFollowsRun(from, actions, full, st.maps.hosts[full]);
    }
    if n: nat, d: Client :| d.id != c.id && LastInsert(from, actions, full, d, n) {
      HostFollowsRun(from, actions, full, d);
    }
  }

  /** A whole removal takes away no other client's host, but the check and the drop are separate
      accesses: for any two clients of the same host, the second can be connected and served and
      yet have lost its host to a removal of the first that had checked before it came. */
  lemma StaleCheckEvictsNewcomer(a: Client, b: Client)
    requires a.id != b.id && FullHost(a) == FullHost(b)
    ensures exists st :: Reachable(st) && b.id in st.maps.clients
                         && b.id in st.members && st.members[b.id] == Member(b, Serving)
                         && FullHost(b) !in st.maps.hosts
  {
    var joined := FirstServed(a);
    var checked := TwoEvictions(joined, a);
    var emptied := SecondEvictionEnds(checked, a);
    var served := SecondServed(emptied, a, b);
    ReachableStep(served, EvictStep(0));
    assert FullHost(b) !in Apply(served, EvictStep(0)).maps.hosts;
  }

  lemma FirstServed(a: Client) returns (st: State)
    ensures Reachable(st) && st.members == map[a.id := Member(a, Serving)] && st.removers == []
    ensures st.maps.hosts == map[FullHost(a) := a]
  {
    assert Run(START, []) == Some(START);
    ReachableStep(START, Join(a));
    var s1 := Apply(START, Join(a));
    ReachableStep(s1, Serve(a.id));
    var s2 := Apply(s1, Serve(a.id));
    ReachableStep(s2, Serve(a.id));
    st := Apply(s2, Serve(a.id));
  }

  lemma TwoEvictions(before: State, a: Client) returns (st: State)
    requires Reachable(before) && before.removers == [] && before.members == map[a.id := Member(a, Serving)]
    requires before.maps.hosts == map[FullHost(a) := a]
    ensures Reachable(st) && st.members == before.members && st.maps.hosts == before.maps.hosts
    ensures st.removers == [Remover(a, DroppingHost), Remover(a, DroppingHost)]
  {
    st := before;
    ReachableStep(st, Evict(a));
    st := Apply(st, Evict(a));
    ReachableStep(st, Evict(a));
    st := Apply(st, Evict(a));
    assert st.removers == [Remover(a, Closing), Remover(a, Closing)];
    ReachableStep(st, EvictStep(0));
    st := Apply(st, EvictStep(0));
    ReachableStep(st, EvictStep(1));
    st := Apply(st, EvictStep(1));
    assert st.removers == [Remover(a, CheckingHost), Remover(a, CheckingHost)];
    ReachableStep(st, EvictStep(0));
    st := Apply(st, EvictStep(0));
    ReachableStep(st, EvictStep(1));
    st := Apply(st, EvictStep(1));
  }

  lemma SecondEvictionEnds(before: State, a: Client) returns (st: State)
    requires Reachable(before) && before.removers == [Remover(a, DroppingHost), Remover(a, DroppingHost)]
    ensures Reachable(st) && st.members == before.members
    ensures st.removers == [Remover(a, DroppingHost), Remover(a, Done)]
  {
    ReachableStep(before, EvictStep(1));
    var dropped := Apply(before, EvictStep(1));
    ReachableStep(dropped, EvictStep(1));
    st := Apply(dropped, EvictStep(1));
  }

  lemma SecondServed(before: State, a: Client, b: Client) returns (st: State)
    requires Reachable(before) && before.members == map[a.id := Member(a, Serving)] && a.id != b.id
    requires before.removers == [Remover(a, DroppingHost), Remover(a, Done)]
    ensures Reachable(st) && st.removers == before.removers && b.id in st.maps.clients
    ensures b.id in st.members && st.members[b.id] == Member(b, Serving)
  {
    ReachableStep(before, Join(b));
    var s1 := Apply(before, Join(b));
    ReachableStep(s1, Serve(b.id));
    var s2 := Apply(s1, Serve(b.id));
    ReachableStep(s2, Serve(b.id));
    st := Apply(s2, Serve(b.id));
  }
}
