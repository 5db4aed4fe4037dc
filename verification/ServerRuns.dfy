/** Whole runs of the server with each handshake, pong, removal and ping as one step: what the
    registry looks like and who can be in it.

    Assumed: connections get fresh ids, and nobody can forge a signature: a token that carries a valid
    one under the server's key carries it on a text the server signed during the run. */
module ServerRuns {
  import opened Wrappers
  import opened ConnectedClients
  import opened Routing
  import ReconnectToken
  import opened Admission

  datatype State = State(
    reg: Registry,
    members: map<ClientId, Client>,   // every client that was ever admitted
    keys: map<ClientId, ClientType>,  // what each of them showed
    gone: set<ClientId>,              // clients somebody has removed
    signed: set<string>,              // texts signed in issuing reconnect tokens
    pings: seq<Option<string>>)       // tokens carried by the pings sent

  const START := State(NOBODY, map[], map[], {}, {}, [])

  datatype Action =
    | Connect(hello: Option<ClientHello>, world: World, tx: nat)
    | Pong(id: ClientId)
    | Remove(id: ClientId)
    | SendPing(id: ClientId, now: int)

  const TOKEN_LIFETIME := 120

  function TokenFor(c: Client, now: int): ReconnectToken.Payload {
    ReconnectToken.Payload(c.host, c.id, now + TOKEN_LIFETIME)
  }

  /** The environment's part: fresh ids, wildcard scans that tell the truth about some client, and
      no forged tokens. */
  ghost predicate Enabled(cfg: Config, st: State, a: Action) {
    match a
    case Connect(hello, w, tx) =>
      && w.freshId !in st.members
      && (hello.Some? && ChooseDomain(cfg, hello.value.domain).Ok? ==>
            WildcardScan(st.reg, ChooseDomain(cfg, hello.value.domain).value, w.scan))
      && (hello.Some? && hello.value.token.Some? ==>
            ReconnectToken.Unforged(cfg.tokens, cfg.sigKey, st.signed, hello.value.token.value))
    case Pong(id) => id in st.members
    case Remove(id) => id in st.members
    case SendPing(id, _) => id in st.members
  }

  function Apply(cfg: Config, st: State, a: Action): State {
    match a
    case Connect(hello, w, tx) =>
      var outcome := AuthClient(cfg, st.reg, hello, w);
      if outcome.Err? then st
      else
        var c := Connected(outcome.value, tx);
        st.(reg := AddTo(st.reg, c), members := st.members[c.id := c],
            keys := st.keys[c.id := if hello.Some? then hello.value.clientType else Anonymous])
    case Pong(id) => if id in st.members then st.(reg := AddTo(st.reg, st.members[id])) else st
    case Remove(id) =>
      if id in st.members then st.(reg := RemoveFrom(st.reg, st.members[id]), gone := st.gone + {id}) else st
    case SendPing(id, now) =>
      if id in st.members && st.members[id].anonymous then
        var text := cfg.tokens.toJson(TokenFor(st.members[id], now));
        st.(signed := st.signed + (if text.Some? then {text.value} else {}),
            pings := st.pings + [ReconnectToken.IntoToken(cfg.tokens, TokenFor(st.members[id], now), cfg.sigKey)])
      else st.(pings := st.pings + [None])
  }

  /** No pong of a client is processed after its removal. */
  predicate Timely(st: State, a: Action) {
    a.Pong? ==> a.id !in st.gone
  }

  /** The state a sequence of steps leads to, if each was enabled, and `timely` if asked for. */
  ghost function Run(cfg: Config, timely: bool, actions: seq<Action>): Option<State> {
    if actions == [] then Some(START)
    else
      var before := Run(cfg, timely, actions[..|actions| - 1]);
      var a := actions[|actions| - 1];
      if before.Some? && Enabled(cfg, before.value, a) && (timely ==> Timely(before.value, a))
      then Some(Apply(cfg, before.value, a)) else None
  }

  ghost predicate Reachable(cfg: Config, timely: bool, st: State) {
    exists actions: seq<Action> :: Run(cfg, timely, actions) == Some(st)
  }

  // ----- admission closure -----

  ghost predicate Keyholder(cfg: Config, keys: map<ClientId, ClientType>, id: ClientId) {
    && id in keys && keys[id].Auth?
    && (cfg.masterKey.Some? ==> keys[id].key == cfg.masterKey.value)
  }

  ghost predicate Closed(cfg: Config, st: State) {
    && st.signed == {}
    && (forall t :: t in st.pings ==> t == None)
    && (forall id :: id in st.members ==>
          st.members[id].id == id && Admissible(cfg, st.members[id]) && Keyholder(cfg, st.keys, id))
    && (forall id :: id in st.reg.clients ==> id in st.members && st.reg.clients[id] == st.members[id])
    && (forall h :: h in st.reg.hosts ==>
          var d := st.reg.hosts[h]; FullHost(d) == h && d.id in st.members && d == st.members[d.id])
  }

  lemma StepKeepsClosed(cfg: Config, st: State, a: Action)
    requires Closed(cfg, st) && Enabled(cfg, st, a)
    ensures Closed(cfg, Apply(cfg, st, a))
  {
    if a.Connect? && AuthClient(cfg, st.reg, a.hello, a.world).Ok? {
      AdmittedMeans(cfg, st.reg, a.hello, a.world, a.tx);
    }
  }

  lemma {:induction false} RunClosed(cfg: Config, timely: bool, actions: seq<Action>)
    requires Run(cfg, timely, actions).Some?
    ensures Closed(cfg, Run(cfg, timely, actions).value)
  {
    if actions != [] {
      var most := actions[..|actions| - 1];
      RunClosed(cfg, timely, most);
      StepKeepsClosed(cfg, Run(cfg, timely, most).value, actions[|actions| - 1]);
    }
  }

  lemma ReachableClosed(cfg: Config, timely: bool, st: State)
    requires Reachable(cfg, timely, st)
    ensures Closed(cfg, st)
  {
    var actions: seq<Action> :| Run(cfg, timely, actions) == Some(st);
    RunClosed(cfg, timely, actions);
  }

  /** In every run no ping ever carries a token, no client is anonymous, and every registered
      client showed the master key, if there is one, and has a clean, unblocked sub-domain and an
      allowed domain. */
  lemma AdmissionClosure(cfg: Config, st: State)
    requires Reachable(cfg, false, st)
    ensures forall t :: t in st.pings ==> t == None
    ensures forall id :: id in st.reg.clients ==>
              Admissible(cfg, st.reg.clients[id]) && Keyholder(cfg, st.keys, id)
    ensures forall h :: h in st.reg.hosts ==> Admissible(cfg, st.reg.hosts[h]) && FullHost(st.reg.hosts[h]) == h
  {
    ReachableClosed(cfg, false, st);
  }

  /** So the collision branch of the sub-domain check is never taken: a sub-domain that passed
      sanitising has no dot, and every key of the host map has one. */
  lemma NeverReservedByOther(cfg: Config, st: State, key: string, sub: string)
    requires Sane(cfg) && Reachable(cfg, false, st) && Clean(cfg, sub)
    ensures sub !in st.reg.hosts
    ensures AuthSubDomain(cfg, st.reg, key, sub) != ReservedByOther
  {
    AdmissionClosure(cfg, st);
    CleanHasNoDot(cfg, sub);
    forall h | h in st.reg.hosts ensures h != sub {
      assert h[|st.reg.hosts[h].host|] == '.';
    }
  }

  // ----- index agreement -----

  /** The two maps are two indexes of one set of clients, with one wildcard per domain at most. */
  ghost predicate Agreement(r: Registry) {
    && (forall id :: id in r.clients ==>
          var c := r.clients[id]; c.id == id && FullHost(c) in r.hosts && r.hosts[FullHost(c)] == c)
    && (forall h :: h in r.hosts ==>
          var d := r.hosts[h]; FullHost(d) == h && d.id in r.clients && r.clients[d.id] == d)
    && (forall i, j ::
          (i in r.clients && j in r.clients && r.clients[i].wildcard && r.clients[j].wildcard
           && r.clients[i].domain == r.clients[j].domain)
          ==> i == j)
  }

  /** Nobody but possibly `c` itself holds its host, or its domain's wildcard if it claims one. */
  predicate Unclaimed(r: Registry, c: Client) {
    && FullHost(c) !in r.hosts
    && (c.wildcard ==> forall id :: id in r.clients ==> !IsWildcardFor(r.clients[id], c.domain))
  }

  lemma NewcomerAgrees(r: Registry, c: Client)
    requires Agreement(r) && c.id !in r.clients && Unclaimed(r, c)
    ensures Agreement(AddTo(r, c))
  {
  }

  lemma ClaimantDisagrees(r: Registry, c: Client)
    requires Agreement(r) && c.id !in r.clients && !Unclaimed(r, c)
    ensures !Agreement(AddTo(r, c))
  {
    var after := AddTo(r, c);
    if FullHost(c) in r.hosts {
      var d := r.hosts[FullHost(c)];
      assert after.clients[d.id] == d && after.hosts[FullHost(d)] == c;
    } else {
      var id :| id in r.clients && IsWildcardFor(r.clients[id], c.domain);
      assert after.clients[id] == r.clients[id] && after.clients[c.id] == c;
    }
  }

  /** Adding a client the registry knows under no other record keeps the indexes in agreement
      exactly when it is registered already or what it claims is unclaimed. */
  lemma AddAgreesIff(r: Registry, c: Client)
    requires Agreement(r) && (c.id in r.clients ==> r.clients[c.id] == c)
    ensures Agreement(AddTo(r, c)) <==> c.id in r.clients || Unclaimed(r, c)
  {
    if c.id in r.clients {
      assert AddTo(r, c).clients == r.clients && AddTo(r, c).hosts == r.hosts;
    } else if Unclaimed(r, c) {
      NewcomerAgrees(r, c);
    } else {
      ClaimantDisagrees(r, c);
    }
  }

  /** Exactly which hellos without a token are admitted, in any run: those that show the key, ask for
      an allowed domain and a clean, unblocked name, and claim nothing that is held; the client then
      has the name asked for, under a fresh id. */
  lemma HelloAdmittedIff(cfg: Config, st: State, hello: ClientHello, w: World, tx: nat)
    requires Sane(cfg) && Reachable(cfg, false, st) && Enabled(cfg, st, Connect(Some(hello), w, tx))
    requires hello.subDomain.Some? || hello.token.None?
    requires ChooseDomain(cfg, hello.domain).Ok?
    ensures var domain := ChooseDomain(cfg, hello.domain).value;
            var c := Client(w.freshId, AskedName(cfg, hello, w), domain, false, hello.wildcard, tx);
            var outcome := AuthClient(cfg, st.reg, Some(hello), w);
            && (outcome.Ok? <==> KeyAccepted(cfg, hello) && Admissible(cfg, c) && Unclaimed(st.reg, c))
            && (outcome.Ok? ==> Connected(outcome.value, tx) == c)
  {
    ReachableClosed(cfg, false, st);
    var domain := ChooseDomain(cfg, hello.domain).value;
    var c := Client(w.freshId, AskedName(cfg, hello, w), domain, false, hello.wildcard, tx);
    if AuthClient(cfg, st.reg, Some(hello), w).Ok? {
      AdmittedMeans(cfg, st.reg, Some(hello), w, tx);
    }
    ScanTells(st, c, w.scan);
    if KeyAccepted(cfg, hello) && Clean(cfg, c.host) {
      NeverReservedByOther(cfg, st, hello.clientType.key, c.host);
      MeetingTheConditionsAdmits(cfg, st.reg, hello, w);
    }
  }

  /** And which reply turns such a hello away, in any run. The name is checked before the key: a name
      that is not clean is invalid, one that is blocked or held is in use, and only then is a wrong
      key a failed authentication. */
  lemma HelloRejectedAs(cfg: Config, st: State, hello: ClientHello, w: World, tx: nat)
    requires Sane(cfg) && Reachable(cfg, false, st) && Enabled(cfg, st, Connect(Some(hello), w, tx))
    requires (hello.subDomain.Some? || hello.token.None?) && hello.clientType.Auth?
    requires ChooseDomain(cfg, hello.domain).Ok?
    ensures var domain := ChooseDomain(cfg, hello.domain).value;
            var c := Client(w.freshId, AskedName(cfg, hello, w), domain, false, hello.wildcard, tx);
            var outcome := AuthClient(cfg, st.reg, Some(hello), w);
            var free := c.host !in cfg.blockedSubDomains && Unclaimed(st.reg, c);
            && (outcome == Err(InvalidSubDomain) <==> !Clean(cfg, c.host))
            && (outcome == Err(SubDomainInUse) <==> Clean(cfg, c.host) && !free)
            && (outcome == Err(AuthFailed) <==> Clean(cfg, c.host) && free && !KeyAccepted(cfg, hello))
  {
    ReachableClosed(cfg, false, st);
    var domain := ChooseDomain(cfg, hello.domain).value;
    var c := Client(w.freshId, AskedName(cfg, hello, w), domain, false, hello.wildcard, tx);
    ScanTells(st, c, w.scan);
    if Clean(cfg, c.host) {
      NeverReservedByOther(cfg, st, hello.clientType.key, c.host);
    }
  }

  /** The replies that do not depend on the registry: no reading, no key, or no allowed domain. */
  lemma HelloRefusedOutright(cfg: Config, r: Registry, parsed: Option<ClientHello>, w: World)
    requires parsed.Some? ==> parsed.value.clientType.Anonymous? || ChooseDomain(cfg, parsed.value.domain).Err?
    ensures AuthClient(cfg, r, parsed, w) == Err(
              if parsed.None? then AuthFailed
              else if parsed.value.domain.Some? && parsed.value.domain.value !in cfg.allowedHosts then InvalidSubDomain
              else if cfg.allowedHosts == [] then ServerError("Server misconfigured")
              else AuthFailed)
  {
  }

  /** What a reconnect token is for: a client that was sent one gets its id and sub-domain back exactly
      while the token has not expired and no other client holds the wildcard it claims. */
  lemma TokenReconnects(cfg: Config, r: Registry, c: Client, sent: int, hello: ClientHello, w: World)
    requires ReconnectToken.Lawful(cfg.tokens) && hello.clientType.Auth? && hello.subDomain.None?
    requires ReconnectToken.IntoToken(cfg.tokens, TokenFor(c, sent), cfg.sigKey).Some?
    requires hello.token == ReconnectToken.IntoToken(cfg.tokens, TokenFor(c, sent), cfg.sigKey)
    requires ChooseDomain(cfg, hello.domain).Ok?
    ensures var outcome := AuthClient(cfg, r, Some(hello), w);
            && (outcome.Ok? <==> w.now <= sent + 120 && !WildcardTaken(hello.wildcard, w.scan, c.id))
            && (outcome.Ok? ==>
                  outcome.value == Handshake(c.id, c.host, ChooseDomain(cfg, hello.domain).value, true, hello.wildcard))
  {
    ReconnectToken.IssuedVerifiesIff(cfg.tokens, TokenFor(c, sent), cfg.sigKey, w.now);
  }

  /** A truthful scan finds another client's wildcard exactly when there is one. */
  lemma ScanTells(st: State, c: Client, scan: Option<Client>)
    requires WildcardScan(st.reg, c.domain, scan) && c.id !in st.reg.clients
    requires forall id :: id in st.reg.clients ==> st.reg.clients[id].id == id
    ensures WildcardTaken(c.wildcard, scan, c.id)
            <==> c.wildcard && exists id :: id in st.reg.clients && IsWildcardFor(st.reg.clients[id], c.domain)
  {
  }

  lemma RemoveAgrees(r: Registry, c: Client)
    requires Agreement(r) && (c.id in r.clients ==> r.clients[c.id] == c)
    ensures Agreement(RemoveFrom(r, c))
  {
  }

  /** Without late pongs, who was not removed is registered and who was is not. */
  ghost predicate InStep(st: State) {
    && Agreement(st.reg)
    && forall id :: id in st.members ==> (id in st.reg.clients <==> id !in st.gone)
  }

  ghost predicate GoneKnown(st: State) {
    forall id :: id in st.gone ==> id in st.members
  }

  lemma ConnectKeepsInStep(cfg: Config, st: State, a: Action)
    requires Closed(cfg, st) && InStep(st) && GoneKnown(st) && Enabled(cfg, st, a) && a.Connect?
    ensures InStep(Apply(cfg, st, a)) && GoneKnown(Apply(cfg, st, a))
  {
    if AuthClient(cfg, st.reg, a.hello, a.world).Ok? {
      AdmittedMeans(cfg, st.reg, a.hello, a.world, a.tx);
      var c := Connected(AuthClient(cfg, st.reg, a.hello, a.world).value, a.tx);
      assert ChooseDomain(cfg, a.hello.value.domain).value == c.domain;
      AddAgreesIff(st.reg, c);
    }
  }

  lemma StepKeepsInStep(cfg: Config, st: State, a: Action)
    requires Closed(cfg, st) && InStep(st) && GoneKnown(st) && Enabled(cfg, st, a) && Timely(st, a)
    ensures InStep(Apply(cfg, st, a)) && GoneKnown(Apply(cfg, st, a))
  {
    match a {
      case Connect(_, _, _) => ConnectKeepsInStep(cfg, st, a);
      case Pong(id) => AddAgreesIff(st.reg, st.members[id]);
      case Remove(id) => RemoveAgrees(st.reg, st.members[id]);
      case SendPing(_, _) =>
    }
  }

  lemma {:induction false} RunInStep(cfg: Config, actions: seq<Action>)
    requires Run(cfg, true, actions).Some?
    ensures InStep(Run(cfg, true, actions).value) && GoneKnown(Run(cfg, true, actions).value)
  {
    if actions != [] {
      var most := actions[..|actions| - 1];
      RunClosed(cfg, true, most);
      RunInStep(cfg, most);
      StepKeepsInStep(cfg, Run(cfg, true, most).value, actions[|actions| - 1]);
    }
  }

  lemma ReachableInStep(cfg: Config, st: State)
    requires Reachable(cfg, true, st)
    ensures Closed(cfg, st) && InStep(st) && GoneKnown(st)
  {
    var actions: seq<Action> :| Run(cfg, true, actions) == Some(st);
    RunClosed(cfg, true, actions);
    RunInStep(cfg, actions);
  }

  /** Index agreement. In every run without late pongs the host map is exactly the image of the id
      map, no two registered clients share a host, and a domain has one wildcard client at most. */
  lemma IndexAgreement(cfg: Config, st: State)
    requires Reachable(cfg, true, st)
    ensures Agreement(st.reg)
    ensures forall i, j | i in st.reg.clients && j in st.reg.clients ::
              FullHost(st.reg.clients[i]) == FullHost(st.reg.clients[j]) ==> i == j
  {
    ReachableInStep(cfg, st);
  }

  lemma OneMore(cfg: Config, st: State, a: Action)
    requires Reachable(cfg, false, st) && Enabled(cfg, st, a)
    ensures Reachable(cfg, false, Apply(cfg, st, a))
  {
    var actions: seq<Action> :| Run(cfg, false, actions) == Some(st);
    assert (actions + [a])[..|actions|] == actions;
    assert Run(cfg, false, actions + [a]) == Some(Apply(cfg, st, a));
  }

  /** The hypothesis is needed. In any run, if a registered client is removed, another is admitted
      under its host, and then a late pong of the first is processed, the indexes disagree: both
      are registered, and the host leads to the one that was removed. */
  lemma LatePongBreaksAgreement(cfg: Config, st: State, id: ClientId, connect: Action)
    requires Reachable(cfg, false, st) && id in st.reg.clients && connect.Connect?
    requires var left := Apply(cfg, st, Remove(id));
             && Enabled(cfg, left, connect) && AuthClient(cfg, left.reg, connect.hello, connect.world).Ok?
             && FullHost(Connected(AuthClient(cfg, left.reg, connect.hello, connect.world).value, connect.tx))
                == FullHost(st.reg.clients[id])
    ensures var a := st.reg.clients[id];
            var joined := Apply(cfg, Apply(cfg, st, Remove(id)), connect);
            var last := Apply(cfg, joined, Pong(id));
            && Reachable(cfg, false, last) && !Agreement(last.reg)
            && last.reg.hosts[FullHost(a)] == a
            && exists other :: other != id && other in last.reg.clients
                               && FullHost(last.reg.clients[other]) == FullHost(a)
  {
    ReachableClosed(cfg, false, st);
    var a := st.reg.clients[id];
    OneMore(cfg, st, Remove(id));
    var left := Apply(cfg, st, Remove(id));
    StepKeepsClosed(cfg, st, Remove(id));
    AdmittedMeans(cfg, left.reg, connect.hello, connect.world, connect.tx);
    OneMore(cfg, left, connect);
    var joined := Apply(cfg, left, connect);
    var b := Connected(AuthClient(cfg, left.reg, connect.hello, connect.world).value, connect.tx);
    OneMore(cfg, joined, Pong(id));
    TwoShareAHost(joined.reg, a, b);
  }

  /** A world in which `id` is the next fresh id and no wildcard is found. */
  function Quiet(id: ClientId): World {
    World(id, "", None, 0)
  }

  /** One admission, to a registry that has become empty again. */
  lemma AdmitsToEmpty(cfg: Config, st: State, hello: ClientHello, id: ClientId)
    requires Reachable(cfg, false, st) && st.reg == NOBODY && id !in st.members
    requires hello.subDomain.Some? && hello.domain.Some? && AuthClient(cfg, NOBODY, Some(hello), Quiet(0)).Ok?
    requires hello.token == None
    ensures Enabled(cfg, st, Connect(Some(hello), Quiet(id), id))
    ensures AuthClient(cfg, NOBODY, Some(hello), Quiet(id)) ==
            Ok(Handshake(id, cfg.lowercase(hello.subDomain.value), hello.domain.value, false, hello.wildcard))
  {
  }

  /** Such a run exists on every server that would admit anybody who names a sub-domain and a
      domain: the same hello twice, with a removal in between and a late pong at the end. */
  lemma EveryServerCanDisagree(cfg: Config, hello: ClientHello)
    requires hello.subDomain.Some? && hello.domain.Some? && AuthClient(cfg, NOBODY, Some(hello), Quiet(0)).Ok?
    ensures exists st :: Reachable(cfg, false, st) && !Agreement(st.reg)
  {
    var plain := hello.(token := None);
    var first, second := Connect(Some(plain), Quiet(0), 0), Connect(Some(plain), Quiet(1), 1);
    assert Run(cfg, false, []) == Some(START);
    AdmitsToEmpty(cfg, START, plain, 0);
    OneMore(cfg, START, first);
    var st := Apply(cfg, START, first);
    OneMore(cfg, st, Remove(0));
    var left := Apply(cfg, st, Remove(0));
    assert left.reg == NOBODY;
    AdmitsToEmpty(cfg, left, plain, 1);
    LatePongBreaksAgreement(cfg, st, 0, second);
  }

  lemma TwoShareAHost(r: Registry, a: Client, b: Client)
    requires b.id in r.clients && r.clients[b.id] == b && a.id != b.id && FullHost(a) == FullHost(b)
    ensures !Agreement(AddTo(r, a))
    ensures AddTo(r, a).clients[b.id] == b && AddTo(r, a).hosts[FullHost(a)] == a
  {
  }

  // ----- routing over runs -----

  /** With the indexes in agreement the client a request is handed to does not depend on the order
      in which the id map is scanned. */
  lemma RoutingIsDeterministic(r: Registry, key: string, domain: string, x: Option<Client>, y: Option<Client>)
    requires Agreement(r) && Serves(r, key, domain, x) && Serves(r, key, domain, y)
    ensures x == y
  {
  }

  /** Wildcards: in every run without late pongs, a request that is looked up under a name nobody holds
      is handed to the registered wildcard client of the first allowed host that fits the name, and
      to nobody exactly when that domain has none. */
  lemma WildcardIsServed(cfg: Config, st: State, header: string, key: string, d: string, found: Option<Client>)
    requires Reachable(cfg, true, st) && Route(cfg.allowedHosts, header) == Lookup(key, d) && key !in st.reg.hosts
    ensures FirstFit(cfg.allowedHosts, key, d)
    ensures Serves(st.reg, key, d, found) <==>
            match found {
              case Some(c) => c.id in st.reg.clients && st.reg.clients[c.id] == c && c.wildcard && c.domain == d
              case None =>
                forall id :: id in st.reg.clients ==> !(st.reg.clients[id].wildcard && st.reg.clients[id].domain == d)
            }
    ensures forall other :: Serves(st.reg, key, d, found) && Serves(st.reg, key, d, other) ==> other == found
  {
    RouteExact(cfg.allowedHosts, header, key, d);
    ReachableInStep(cfg, st);
    forall other | Serves(st.reg, key, d, found) && Serves(st.reg, key, d, other) ensures other == found {
      RoutingIsDeterministic(st.reg, key, d, found, other);
    }
  }

  /** End to end: in every run without late pongs, for every registered client, any list of allowed
      hosts and a Host header with or without a port, the request is looked up under the client's
      own name exactly when the domain has no colon, the name is not itself an allowed host, and
      the sub-domain is not the control server's or is captured by an earlier allowed host; and
      then it is handed to that very client. */
  lemma RegisteredClientIsServed(cfg: Config, st: State, c: Client, port: string, found: Option<Client>)
    requires Sane(cfg) && Reachable(cfg, true, st) && c.id in st.reg.clients && st.reg.clients[c.id] == c
    requires port == "" || port[0] == ':'
    ensures var destination := Route(cfg.allowedHosts, FullHost(c) + port);
            && (destination.Lookup? && destination.key == FullHost(c)
                <==> && Without(c.domain, ':')
                     && FullHost(c) !in cfg.allowedHosts
                     && (c.host != CONTROL || Captured(cfg.allowedHosts, c.domain)))
            && (destination.Lookup? && destination.key == FullHost(c) ==>
                  (Serves(st.reg, destination.key, destination.domain, found) <==> found == Some(c)))
  {
    ReachableInStep(cfg, st);
    AdmittedIsReachableIff(cfg, c, port);
  }

  /** And whoever a looked-up request is handed to by name has exactly the sub-domain and domain of
      that name. */
  lemma ServedByNameMatches(cfg: Config, st: State, c: Client, found: Client)
    requires Sane(cfg) && Reachable(cfg, false, st) && Admissible(cfg, c)
    requires FullHost(c) in st.reg.hosts && st.reg.hosts[FullHost(c)] == found
    ensures found.host == c.host && found.domain == c.domain
  {
    AdmissionClosure(cfg, st);
    CleanHasNoDot(cfg, c.host);
    CleanHasNoDot(cfg, found.host);
    FullHostInjective(c, found);
  }
}
