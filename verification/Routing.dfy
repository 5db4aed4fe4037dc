/** From the Host header of a remote request (section 7.2 of RFC 9110) to the key it is looked up
    under. Rust indexes host names by byte and this model by character; a dot is one byte and
    never part of another character, so both split a name at the same place. */
module Routing {
  import opened Wrappers
  import opened ConnectedClients

  /** The header up to the first colon. */
  function HostNoPort(host: string): string {
    if host == "" || host[0] == ':' then "" else [host[0]] + HostNoPort(host[1..])
  }

  predicate EndsWith(s: string, suffix: string) {
    |s| >= |suffix| && s[|s| - |suffix|..] == suffix
  }

  /** `host` is some sub-domain of `domain`. */
  predicate SubDomainOf(host: string, domain: string) {
    EndsWith(host, domain) && |host| > |domain| && host[|host| - |domain| - 1] == '.'
  }

  function PrefixFor(host: string, domain: string): string
    requires SubDomainOf(host, domain)
  {
    host[..|host| - |domain| - 1]
  }

  /** The split at the first allowed host, in list order, that fits. */
  function Validate(allowed: seq<string>, host: string): Option<(string, string)> {
    if allowed == [] then None
    else if SubDomainOf(host, allowed[0]) then Some((PrefixFor(host, allowed[0]), allowed[0]))
    else Validate(allowed[1..], host)
  }

  method ValidateHostPrefix(allowed: seq<string>, host: string) returns (r: Option<(string, string)>)
    ensures r == Validate(allowed, host)
  {
    for k := 0 to |allowed|
      invariant Validate(allowed, host) == Validate(allowed[k..], host)
    {
      if |host| >= |allowed[k]| && host[|host| - |allowed[k]|..] == allowed[k] {
        var lenSuffix, lenHost := |allowed[k]|, |host|;
        if lenHost > lenSuffix && host[lenHost - lenSuffix - 1] == '.' {
          return Some((host[..lenHost - lenSuffix - 1], allowed[k]));
        }
      }
    }
    return None;
  }

  /** The split is exact: prefix, dot and domain make up the host, the domain is allowed, and no
      earlier allowed host fits; there is no split exactly when no allowed host fits. */
  lemma {:induction false} ValidateExact(allowed: seq<string>, host: string)
    ensures match Validate(allowed, host)
            case Some((prefix, domain)) =>
              && host == prefix + "." + domain
              && exists k :: 0 <= k < |allowed| && allowed[k] == domain
                             && forall j :: 0 <= j < k ==> !SubDomainOf(host, allowed[j])
            case None => forall d :: d in allowed ==> !SubDomainOf(host, d)
  {
    if allowed != [] {
      if SubDomainOf(host, allowed[0]) {
        var d := allowed[0];
        assert host == host[..|host| - |d| - 1] + [host[|host| - |d| - 1]] + host[|host| - |d|..];
      } else {
        var rest := allowed[1..];
        ValidateExact(rest, host);
        if Validate(rest, host).Some? {
          var domain := Validate(rest, host).value.1;
          var k :| 0 <= k < |rest| && rest[k] == domain && forall j :: 0 <= j < k ==> !SubDomainOf(host, rest[j]);
          assert allowed[k + 1] == domain;
          forall j | 0 <= j < k + 1 ensures !SubDomainOf(host, allowed[j]) {
            if j > 0 {
              assert allowed[j] == rest[j - 1];
            }
          }
        }
      }
    }
  }

  lemma Fits(prefix: string, domain: string)
    ensures SubDomainOf(prefix + "." + domain, domain)
    ensures PrefixFor(prefix + "." + domain, domain) == prefix
  {
  }

  // ----- order of the allowed hosts -----

  ghost predicate SameHosts(a: seq<string>, b: seq<string>) {
    forall d :: d in a <==> d in b
  }

  /** No allowed host is a sub-domain of another. */
  ghost predicate NoOverlap(allowed: seq<string>) {
    forall d, e :: d in allowed && e in allowed ==> !SubDomainOf(d, e)
  }

  lemma ValidatePicks(allowed: seq<string>, host: string)
    ensures Validate(allowed, host).Some? <==> exists d :: d in allowed && SubDomainOf(host, d)
    ensures Validate(allowed, host).Some? ==>
              var (prefix, domain) := Validate(allowed, host).value;
              && domain in allowed && SubDomainOf(host, domain) && prefix == PrefixFor(host, domain)
              && host == prefix + "." + domain
  {
  }

  /** Two allowed hosts that fit the same name overlap. */
  lemma FittingHostsOverlap(host: string, d: string, e: string)
    requires SubDomainOf(host, d) && SubDomainOf(host, e) && |d| < |e|
    ensures SubDomainOf(e, d)
  {
  }

  /** Whether a host is valid, and the name it is looked up under, do not depend on the order of
      the allowed hosts. */
  lemma KeyIgnoresOrder(a: seq<string>, b: seq<string>, host: string)
    requires SameHosts(a, b)
    ensures Validate(a, host).Some? <==> Validate(b, host).Some?
    ensures Validate(a, host).Some? ==>
              Validate(a, host).value.0 + "." + Validate(a, host).value.1 ==
              Validate(b, host).value.0 + "." + Validate(b, host).value.1 == host
  {
    ValidatePicks(a, host);
    ValidatePicks(b, host);
  }

  /** `other` lists the same hosts in some order, each as often. */
  ghost predicate Reordering(allowed: seq<string>, other: seq<string>) {
    multiset(other) == multiset(allowed)
  }

  lemma ReorderingSame(allowed: seq<string>, other: seq<string>)
    requires Reordering(allowed, other)
    ensures SameHosts(allowed, other)
  {
    forall d ensures d in allowed <==> d in other {
      assert d in multiset(allowed) <==> d in allowed;
      assert d in multiset(other) <==> d in other;
    }
  }

  /** The list with the host at `k` moved to the front. */
  function Promoted(allowed: seq<string>, k: nat): seq<string>
    requires k < |allowed|
  {
    [allowed[k]] + allowed[..k] + allowed[k + 1..]
  }

  lemma PromotedReorders(allowed: seq<string>, k: nat)
    requires k < |allowed|
    ensures Reordering(allowed, Promoted(allowed, k))
  {
    assert allowed == allowed[..k] + [allowed[k]] + allowed[k + 1..];
  }

  /** Every reordering of the allowed hosts splits every host alike. */
  ghost predicate OrderIrrelevant(allowed: seq<string>) {
    forall other: seq<string>, host: string ::
      Reordering(allowed, other) ==> Validate(other, host) == Validate(allowed, host)
  }

  /** Two overlapping allowed hosts split some host differently, depending on which is put first. */
  lemma OverlapMakesOrderMatter(allowed: seq<string>, d: string, e: string)
    requires d in allowed && e in allowed && SubDomainOf(d, e)
    ensures !OrderIrrelevant(allowed)
  {
    var host := "x" + "." + d;
    Fits("x", d);
    SubDomainChain(host, d, e);
    var i :| 0 <= i < |allowed| && allowed[i] == d;
    var j :| 0 <= j < |allowed| && allowed[j] == e;
    PromotedReorders(allowed, i);
    PromotedReorders(allowed, j);
    assert Validate(Promoted(allowed, i), host).value.1 == d && Validate(Promoted(allowed, j), host).value.1 == e;
  }

  /** The order is irrelevant exactly when no allowed host is a sub-domain of another. */
  lemma SplitIgnoresOrderIff(allowed: seq<string>)
    ensures OrderIrrelevant(allowed) <==> NoOverlap(allowed)
  {
    if NoOverlap(allowed) {
      forall other: seq<string>, host: string | Reordering(allowed, other)
        ensures Validate(other, host) == Validate(allowed, host)
      {
        ReorderingSame(allowed, other);
        OneFit(allowed, other, host);
      }
    } else {
      var d, e :| d in allowed && e in allowed && SubDomainOf(d, e);
      OverlapMakesOrderMatter(allowed, d, e);
    }
  }

  lemma SubDomainChain(host: string, d: string, e: string)
    requires SubDomainOf(host, d) && SubDomainOf(d, e)
    ensures SubDomainOf(host, e)
  {
  }

  lemma OneFit(a: seq<string>, b: seq<string>, host: string)
    requires SameHosts(a, b) && NoOverlap(a)
    ensures Validate(a, host) == Validate(b, host)
  {
    ValidatePicks(a, host);
    ValidatePicks(b, host);
    if Validate(a, host).Some? {
      var d, e := Validate(a, host).value.1, Validate(b, host).value.1;
      if |d| < |e| {
        FittingHostsOverlap(host, d, e);
      } else if |e| < |d| {
        FittingHostsOverlap(host, e, d);
      }
    }
  }

  // ----- where a request goes -----

  datatype Destination =
    | HelloWorld
    | InvalidHost
    | ControlServer
    | Lookup(key: string, domain: string)

  const CONTROL := "wormhole"

  function Route(allowed: seq<string>, header: string): Destination {
    var host := HostNoPort(header);
    if host in allowed then HelloWorld
    else
      match Validate(allowed, host)
      case None => InvalidHost
      case Some((sub, domain)) =>
        if sub == CONTROL then ControlServer else Lookup(sub + "." + domain, domain)
  }

  /** `domain` is the first allowed host, in list order, that `host` is a sub-domain of. */
  ghost predicate FirstFit(allowed: seq<string>, host: string, domain: string) {
    exists k :: 0 <= k < |allowed| && allowed[k] == domain && SubDomainOf(host, domain)
                && forall j :: 0 <= j < k ==> !SubDomainOf(host, allowed[j])
  }

  lemma FirstFitUnique(allowed: seq<string>, host: string, d: string, e: string)
    requires FirstFit(allowed, host, d) && FirstFit(allowed, host, e)
    ensures d == e
  {
  }

  /** What the split finds is the first fit. */
  lemma ValidateFirstFit(allowed: seq<string>, host: string, d: string)
    ensures FirstFit(allowed, host, d) <==>
            && SubDomainOf(host, d)
            && Validate(allowed, host) == Some((PrefixFor(host, d), d))
  {
    ValidateExact(allowed, host);
    ValidatePicks(allowed, host);
    if Validate(allowed, host).Some? {
      assert FirstFit(allowed, host, Validate(allowed, host).value.1);
    }
  }

  /** The four answers, by the host alone: greeted exactly if it is an allowed host, invalid exactly if
      it is neither that nor a sub-domain of one, sent to the control server exactly under its name
      in the first fitting domain, and otherwise looked up under its whole name, with the first
      fitting domain for the wildcard. */
  lemma RouteExact(allowed: seq<string>, header: string, key: string, d: string)
    ensures var host := HostNoPort(header);
            && (Route(allowed, header) == HelloWorld <==> host in allowed)
            && (Route(allowed, header) == InvalidHost <==>
                host !in allowed && forall e :: e in allowed ==> !SubDomainOf(host, e))
            && (Route(allowed, header) == ControlServer <==>
                host !in allowed && exists e :: FirstFit(allowed, host, e) && host == CONTROL + "." + e)
            && (Route(allowed, header) == Lookup(key, d) <==>
                host !in allowed && key == host && FirstFit(allowed, host, d) && host != CONTROL + "." + d)
  {
    var host := HostNoPort(header);
    ValidatePicks(allowed, host);
    if Validate(allowed, host).Some? {
      var (prefix, e) := Validate(allowed, host).value;
      ValidateFirstFit(allowed, host, e);
      SplitAt(prefix, CONTROL, e);
      forall f | FirstFit(allowed, host, f) ensures f == e {
        FirstFitUnique(allowed, host, e, f);
      }
    } else {
      forall e ensures !FirstFit(allowed, host, e) {
      }
    }
  }

  lemma SplitAt(a: string, b: string, d: string)
    ensures a + "." + d == b + "." + d <==> a == b
  {
    if a + "." + d == b + "." + d {
      assert (a + "." + d)[..|a|] == a && (b + "." + d)[..|b|] == b;
    }
  }

  /** The client a looked-up request is handed to: the exact name first, then some wildcard of the
      domain; nothing else, since no other server instance ever claims a host. */
  ghost predicate Serves(r: Registry, key: string, domain: string, found: Option<Client>) {
    if key in r.hosts then found == Some(r.hosts[key]) else WildcardScan(r, domain, found)
  }

  predicate Without(s: string, c: char) {
    c !in s
  }

  lemma {:induction false} NoPortToCut(host: string, port: string)
    requires Without(host, ':') && (port == "" || port[0] == ':')
    ensures HostNoPort(host + port) == host
  {
    if host == "" {
      assert host + port == port;
    } else {
      assert (host + port)[1..] == host[1..] + port;
      NoPortToCut(host[1..], port);
    }
  }

  lemma {:induction false} PortCutShort(host: string, port: string)
    requires !Without(host, ':')
    ensures HostNoPort(host + port) == HostNoPort(host) != host
  {
    assert (host + port)[1..] == host[1..] + port;
    if host[0] != ':' {
      assert host == [host[0]] + host[1..];
      PortCutShort(host[1..], port);
    }
  }

  lemma LongerLabel(a: string, b: string, x: string, y: string)
    requires a + "." + x == b + "." + y && |a| < |b|
    ensures !Without(b, '.')
  {
    assert (b + "." + y)[|a|] == b[|a|];
    assert (a + "." + x)[|a|] == '.';
  }

  /** A dot-free label followed by a dot is determined by the whole name. */
  lemma FirstLabel(a: string, b: string, x: string, y: string)
    requires Without(a, '.') && Without(b, '.') && a + "." + x == b + "." + y
    ensures a == b && x == y
  {
    if |a| < |b| {
      LongerLabel(a, b, x, y);
    } else if |b| < |a| {
      LongerLabel(b, a, y, x);
    } else {
      var s := a + "." + x;
      assert s[..|a|] == a && s[..|b|] == b;
      assert s[|a| + 1..] == x && s[|b| + 1..] == y;
    }
  }

  /** Clients with dot-free sub-domains share a full host only if they share both parts. */
  lemma FullHostInjective(c: Client, d: Client)
    requires Without(c.host, '.') && Without(d.host, '.') && FullHost(c) == FullHost(d)
    ensures c.host == d.host && c.domain == d.domain
  {
    FirstLabel(c.host, d.host, c.domain, d.domain);
  }

  /** Before `domain` the list has a host that `domain` is a sub-domain of; it captures the names under
      `domain`. */
  predicate Captured(allowed: seq<string>, domain: string) {
    exists k :: 0 <= k < |allowed| && SubDomainOf(domain, allowed[k]) && domain !in allowed[..k]
  }

  lemma CapturedRest(allowed: seq<string>, domain: string)
    requires allowed != [] && allowed[0] != domain && !SubDomainOf(domain, allowed[0])
    ensures Captured(allowed, domain) <==> Captured(allowed[1..], domain)
  {
  }

  /** Under a dot-free sub-domain only the domain itself and what captures it can fit the name. */
  lemma FitsUnder(sub: string, domain: string, d: string)
    requires Without(sub, '.')
    ensures SubDomainOf(sub + "." + domain, d) <==> d == domain || SubDomainOf(domain, d)
  {
  }

  /** What the split finds for the name of a dot-free sub-domain is the domain itself, unless it is
      captured. */
  lemma {:induction false} CapturedIff(allowed: seq<string>, sub: string, domain: string)
    requires Without(sub, '.') && domain in allowed
    ensures Validate(allowed, sub + "." + domain).Some?
    ensures Validate(allowed, sub + "." + domain).value.1 != domain <==> Captured(allowed, domain)
  {
    FitsUnder(sub, domain, allowed[0]);
    if allowed[0] != domain {
      if SubDomainOf(domain, allowed[0]) {
        assert domain !in allowed[..0];
      } else {
        CapturedIff(allowed[1..], sub, domain);
        CapturedRest(allowed, domain);
      }
    }
  }

  /** Exactly when a request for a registered name reaches the lookup of that name, for any list of
      allowed hosts, overlapping or not, and with or without a port: the domain has no colon, the
      name is not itself an allowed host, and the sub-domain is not the control server's, unless
      an earlier allowed host that the domain is a sub-domain of captures the name. */
  lemma ReachesLookupIff(allowed: seq<string>, sub: string, domain: string, port: string)
    requires domain in allowed && Without(sub, '.') && Without(sub, ':')
    requires port == "" || port[0] == ':'
    ensures (exists d :: Route(allowed, sub + "." + domain + port) == Lookup(sub + "." + domain, d))
            <==> && Without(domain, ':')
                 && sub + "." + domain !in allowed
                 && (sub != CONTROL || Captured(allowed, domain))
    ensures forall d :: Route(allowed, sub + "." + domain + port) == Lookup(sub + "." + domain, d)
                        ==> FirstFit(allowed, sub + "." + domain, d)
  {
    var name := sub + "." + domain;
    forall d | Route(allowed, name + port) == Lookup(name, d) ensures FirstFit(allowed, name, d) {
      RouteExact(allowed, name + port, name, d);
    }
    Fits(sub, domain);
    ValidatePicks(allowed, name);
    if Without(domain, ':') {
      NoPortToCut(name, port);
      CapturedIff(allowed, sub, domain);
      var (prefix, d) := Validate(allowed, name).value;
      CapturingPrefix(sub, domain, prefix, d);
      assert name !in allowed && prefix != CONTROL ==> Route(allowed, name + port) == Lookup(name, d);
    } else {
      assert ':' in name;
      PortCutShort(name, port);
      ValidatePicks(allowed, HostNoPort(name));
    }
  }

  /** A capturing host cuts inside the domain, so the prefix is the sub-domain itself only when the
      domain itself captures. */
  lemma CapturingPrefix(sub: string, domain: string, prefix: string, d: string)
    requires Without(sub, '.') && sub + "." + domain == prefix + "." + d
    ensures prefix == sub <==> d == domain
    ensures prefix == CONTROL ==> sub == CONTROL
  {
    if d == domain || prefix == sub {
      assert (sub + ".") + domain == (prefix + ".") + d;
      assert |sub| == |prefix|;
      assert (sub + "." + domain)[..|sub|] == sub;
      assert (prefix + "." + d)[..|prefix|] == prefix;
      assert (sub + "." + domain)[|sub| + 1..] == domain;
      assert (prefix + "." + d)[|prefix| + 1..] == d;
    }
    if prefix == CONTROL {
      FirstLabel(sub, prefix, domain, d);
    }
  }
}
