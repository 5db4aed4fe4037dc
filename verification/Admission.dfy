/** The handshake: which client hellos are admitted, and under which name. */
module Admission {
  import opened Wrappers
  import Utf8
  import opened ConnectedClients
  import opened Routing
  import ReconnectToken

  datatype Config = Config(
    allowedHosts: seq<string>,
    blockedSubDomains: seq<string>,
    masterKey: Option<string>,
    lowercase: string -> string,
    alphanumeric: char -> bool,
    tokens: ReconnectToken.Library,
    sigKey: seq<Utf8.Byte>)

  /** What is assumed of Unicode: dots and colons are not alphanumeric. */
  ghost predicate Sane(cfg: Config) {
    !cfg.alphanumeric('.') && !cfg.alphanumeric(':')
  }

  datatype ClientType = Auth(key: string) | Anonymous

  datatype ClientHello = ClientHello(
    subDomain: Option<string>,
    domain: Option<string>,
    clientType: ClientType,
    token: Option<string>,
    wildcard: bool)

  /** The replies that turn a client away. */
  datatype Rejection = SubDomainInUse | InvalidSubDomain | AuthFailed | ServerError(message: string)

  datatype Handshake = Handshake(id: ClientId, subDomain: string, domain: string, anonymous: bool, wildcard: bool)

  datatype AuthResult = ReservedByYou | ReservedByOther | ReservedByYouButDelinquent | PaymentRequired | Available

  /** What the outside world contributes to one handshake. */
  datatype World = World(
    freshId: ClientId,
    randomSubDomain: string,
    scan: Option<Client>,      // result of a wildcard scan, if one is made
    now: int)

  predicate CleanChar(cfg: Config, c: char) {
    cfg.alphanumeric(c) || c == '-'
  }

  predicate Clean(cfg: Config, s: string) {
    forall c :: c in s ==> CleanChar(cfg, c)
  }

  predicate WildcardTaken(wildcard: bool, scan: Option<Client>, id: ClientId) {
    wildcard && scan.Some? && scan.value.id != id
  }

  function Sanitize(cfg: Config, r: Registry, requested: string, domain: string, wildcard: bool, w: World)
    : Result<string, Rejection>
  {
    var sub := cfg.lowercase(requested);
    if !Clean(cfg, sub) then Err(InvalidSubDomain)
    else if sub in cfg.blockedSubDomains then Err(SubDomainInUse)
    else if sub + "." + domain in r.hosts then Err(SubDomainInUse)
    else if WildcardTaken(wildcard, w.scan, w.freshId) then Err(SubDomainInUse)
    else Ok(sub)
  }

  function AuthSubDomain(cfg: Config, r: Registry, key: string, sub: string): AuthResult {
    if cfg.masterKey.Some? && key != cfg.masterKey.value then PaymentRequired
    else if sub in r.hosts then ReservedByOther
    else Available
  }

  function Reconnect(cfg: Config, token: string, wildcard: bool, domain: string, w: World)
    : Result<Handshake, Rejection>
  {
    match ReconnectToken.Verify(cfg.tokens, token, cfg.sigKey, w.now)
    case Err(_) => Err(AuthFailed)
    case Ok(p) =>
      if WildcardTaken(wildcard, w.scan, p.clientId) then Err(SubDomainInUse)
      else Ok(Handshake(p.clientId, p.subDomain, domain, true, wildcard))
  }

  /** The domain a hello asks for: its own if it is allowed, else the first allowed one. */
  function ChooseDomain(cfg: Config, requested: Option<string>): Result<string, Rejection> {
    match requested
    case Some(d) => if d in cfg.allowedHosts then Ok(d) else Err(InvalidSubDomain)
    case None =>
      if cfg.allowedHosts != [] then Ok(cfg.allowedHosts[0]) else Err(ServerError("Server misconfigured"))
  }

  function AuthKeyed(cfg: Config, r: Registry, key: string, requested: string, domain: string, wildcard: bool, w: World)
    : Result<Handshake, Rejection>
  {
    match Sanitize(cfg, r, requested, domain, wildcard, w)
    case Err(e) => Err(e)
    case Ok(sub) =>
      match AuthSubDomain(cfg, r, key, sub)
      case Available => Ok(Handshake(w.freshId, sub, domain, false, wildcard))
      case ReservedByYou => Ok(Handshake(w.freshId, sub, domain, false, wildcard))
      case ReservedByOther => Err(SubDomainInUse)
      case _ => Err(AuthFailed)
  }

  /** `None` stands for a hello that does not parse. */
  function AuthClient(cfg: Config, r: Registry, parsed: Option<ClientHello>, w: World): Result<Handshake, Rejection> {
    if parsed.None? then Err(AuthFailed)
    else
      var hello := parsed.value;
      match ChooseDomain(cfg, hello.domain)
      case Err(e) => Err(e)
      case Ok(domain) =>
        match hello.clientType
        case Anonymous => Err(AuthFailed)
        case Auth(key) =>
          match (hello.subDomain, hello.token)
          case (Some(sub), _) => AuthKeyed(cfg, r, key, sub, domain, hello.wildcard, w)
          case (None, Some(token)) => Reconnect(cfg, token, hello.wildcard, domain, w)
          case (None, None) => AuthKeyed(cfg, r, key, w.randomSubDomain, domain, hello.wildcard, w)
  }

  function Connected(h: Handshake, tx: nat): Client {
    Client(h.id, h.subDomain, h.domain, h.anonymous, h.wildcard, tx)
  }

  /** What admission guarantees of a client that showed a key. */
  ghost predicate Admissible(cfg: Config, c: Client) {
    && !c.anonymous
    && Clean(cfg, c.host)
    && c.host !in cfg.blockedSubDomains
    && c.domain in cfg.allowedHosts
  }

  /** The key check a hello has to pass. */
  predicate KeyAccepted(cfg: Config, hello: ClientHello) {
    hello.clientType.Auth? && (cfg.masterKey.Some? ==> hello.clientType.key == cfg.masterKey.value)
  }

  /** A handshake succeeds in one of two ways. With a key: the key is the master key if there is
      one, the sub-domain is clean, unblocked and free, the domain allowed, and a wildcard claim
      meets no other wildcard. With a token: it verifies, and nothing about the name is checked. */
  lemma AdmittedMeans(cfg: Config, r: Registry, parsed: Option<ClientHello>, w: World, tx: nat)
    requires AuthClient(cfg, r, parsed, w).Ok?
    ensures parsed.Some? && parsed.value.clientType.Auth?
    ensures var c := Connected(AuthClient(cfg, r, parsed, w).value, tx);
            var hello := parsed.value;
            && c.domain in cfg.allowedHosts && c.wildcard == hello.wildcard
            && !WildcardTaken(hello.wildcard, w.scan, c.id)
            && if hello.subDomain.None? && hello.token.Some? then
                 var payload := ReconnectToken.Verify(cfg.tokens, hello.token.value, cfg.sigKey, w.now);
                 && payload.Ok? && c.anonymous
                 && c.id == payload.value.clientId && c.host == payload.value.subDomain
               else
                 && KeyAccepted(cfg, hello) && Admissible(cfg, c)
                 && c.id == w.freshId && FullHost(c) !in r.hosts
  {
  }

  /** The name a hello without a token asks for: the one it gives, or a random one. */
  function AskedName(cfg: Config, hello: ClientHello, w: World): string {
    cfg.lowercase(hello.subDomain.GetOr(w.randomSubDomain))
  }

  /** Conversely, a hello that meets those conditions is admitted under the name it asked for. */
  lemma MeetingTheConditionsAdmits(cfg: Config, r: Registry, hello: ClientHello, w: World)
    requires (hello.subDomain.Some? || hello.token.None?) && KeyAccepted(cfg, hello)
    requires ChooseDomain(cfg, hello.domain).Ok?
    ensures var sub, domain := AskedName(cfg, hello, w), ChooseDomain(cfg, hello.domain).value;
            AuthClient(cfg, r, Some(hello), w) == Ok(Handshake(w.freshId, sub, domain, false, hello.wildcard))
            <==> && domain in cfg.allowedHosts && Clean(cfg, sub) && sub !in cfg.blockedSubDomains
                 && sub + "." + domain !in r.hosts && sub !in r.hosts
                 && !WildcardTaken(hello.wildcard, w.scan, w.freshId)
  {
  }

  /** A clean name has neither dots nor colons. */
  lemma CleanHasNoDot(cfg: Config, s: string)
    requires Sane(cfg) && Clean(cfg, s)
    ensures Without(s, '.') && Without(s, ':')
  {
  }

  /** Admitted implies reachable, for any list of allowed hosts: exactly when the domain has no
      colon, the name is not an allowed host, and the sub-domain is not the control server's or is
      captured by an earlier allowed host, a request for the name of an admissible client, with or
      without a port, is looked up under the key the client registered. */
  lemma AdmittedIsReachableIff(cfg: Config, c: Client, port: string)
    requires Sane(cfg) && Admissible(cfg, c) && (port == "" || port[0] == ':')
    ensures (exists d :: Route(cfg.allowedHosts, FullHost(c) + port) == Lookup(FullHost(c), d))
            <==> && Without(c.domain, ':')
                 && FullHost(c) !in cfg.allowedHosts
                 && (c.host != CONTROL || Captured(cfg.allowedHosts, c.domain))
  {
    CleanHasNoDot(cfg, c.host);
    ReachesLookupIff(cfg.allowedHosts, c.host, c.domain, port);
  }
}
