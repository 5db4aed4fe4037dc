/** The server's registry of connected clients: one map by id and one by full host name. */
module ConnectedClients {
  import opened Wrappers

  type ClientId = nat

  /** A connected client; `tx` names its channel, which clones of the client share. */
  datatype Client = Client(id: ClientId, host: string, domain: string, anonymous: bool, wildcard: bool, tx: nat)

  function FullHost(c: Client): string {
    c.host + "." + c.domain
  }

  /** The content of the two maps. */
  datatype Registry = Registry(clients: map<ClientId, Client>, hosts: map<string, Client>)

  const NOBODY := Registry(map[], map[])

  function AddTo(r: Registry, c: Client): Registry {
    Registry(r.clients[c.id := c], r.hosts[FullHost(c) := c])
  }

  function RemoveFrom(r: Registry, c: Client): Registry {
    var full := FullHost(c);
    Registry(r.clients - {c.id},
             if full in r.hosts && r.hosts[full].id == c.id then r.hosts - {full} else r.hosts)
  }

  predicate IsWildcardFor(c: Client, domain: string) {
    c.wildcard && c.domain == domain
  }

  /** `found` is something a scan of the id map for a wildcard of `domain` can return: maps have
      no order, so any matching client will do, but none only if there is none. */
  ghost predicate WildcardScan(r: Registry, domain: string, found: Option<Client>) {
    match found
    case Some(c) => c.id in r.clients && r.clients[c.id] == c && IsWildcardFor(c, domain)
    case None => forall id :: id in r.clients ==> !IsWildcardFor(r.clients[id], domain)
  }

  // ----- history -----

  datatype Op = Added(client: Client) | Removed(client: Client)

  /** The registry after a sequence of whole operations. */
  function Replay(history: seq<Op>): Registry {
    if history == [] then NOBODY
    else
      var before := Replay(history[..|history| - 1]);
      match history[|history| - 1]
      case Added(c) => AddTo(before, c)
      case Removed(c) => RemoveFrom(before, c)
  }

  /** Operation `op` decides host `h` against its earlier holder `d`: it gives the host to
      somebody, or it removes a client of that host with `d`'s id. */
  predicate Displaces(op: Op, h: string, d: Client) {
    match op
    case Added(c) => FullHost(c) == h
    case Removed(c) => FullHost(c) == h && c.id == d.id
  }

  /** The last addition for host `h` was of `d`, at position `i`, and no later removal met it. */
  ghost predicate HoldsHost(history: seq<Op>, h: string, d: Client, i: nat) {
    && i < |history| && history[i] == Added(d) && FullHost(d) == h
    && forall j :: i < j < |history| ==> !Displaces(history[j], h, d)
  }

  /** The last operation on id `id` was the addition of `d`, at position `i`. */
  ghost predicate HoldsId(history: seq<Op>, id: ClientId, d: Client, i: nat) {
    && i < |history| && history[i] == Added(d) && d.id == id
    && forall j :: i < j < |history| ==> history[j].client.id != id
  }

  /** The host map is determined by the history: an entry is there exactly when its last addition
      has not been met by a removal of the same host and id. */
  lemma {:induction false} HostsReflectHistory(history: seq<Op>, h: string, d: Client)
    ensures h in Replay(history).hosts && Replay(history).hosts[h] == d
            <==> exists i: nat :: HoldsHost(history, h, d, i)
  {
    if history != [] {
      var before, op := history[..|history| - 1], history[|history| - 1];
      HostsReflectHistory(before, h, d);
      assert history == before + [op];
      if op == Added(d) && FullHost(d) == h {
        assert HoldsHost(history, h, d, |before|);
      } else if Displaces(op, h, d) {
        forall i: nat ensures !HoldsHost(history, h, d, i) {
        }
      } else {
        HoldsHostKept(before, op, h, d);
      }
    }
  }

  lemma HoldsHostKept(before: seq<Op>, op: Op, h: string, d: Client)
    requires !Displaces(op, h, d)
    ensures (exists i: nat :: HoldsHost(before + [op], h, d, i)) <==> (exists i: nat :: HoldsHost(before, h, d, i))
  {
    var history := before + [op];
    if i: nat :| HoldsHost(before, h, d, i) {
      assert HoldsHost(history, h, d, i);
    }
    if i: nat :| HoldsHost(history, h, d, i) {
      assert i < |before|;
      forall j | i < j < |before| ensures !Displaces(before[j], h, d) {
        assert history[j] == before[j];
      }
      assert HoldsHost(before, h, d, i);
    }
  }

  /** The id map is determined by the history: an id is there exactly when the last operation on
      it was an addition. */
  lemma {:induction false} ClientsReflectHistory(history: seq<Op>, id: ClientId, d: Client)
    ensures id in Replay(history).clients && Replay(history).clients[id] == d
            <==> exists i: nat :: HoldsId(history, id, d, i)
  {
    if history != [] {
      var before, op := history[..|history| - 1], history[|history| - 1];
      ClientsReflectHistory(before, id, d);
      assert history == before + [op];
      if op == Added(d) && d.id == id {
        assert HoldsId(history, id, d, |before|);
      } else if op.client.id == id {
        forall i: nat ensures !HoldsId(history, id, d, i) {
        }
      } else {
        HoldsIdKept(before, op, id, d);
      }
    }
  }

  lemma HoldsIdKept(before: seq<Op>, op: Op, id: ClientId, d: Client)
    requires op.client.id != id
    ensures (exists i: nat :: HoldsId(before + [op], id, d, i)) <==> (exists i: nat :: HoldsId(before, id, d, i))
  {
    var history := before + [op];
    if i: nat :| HoldsId(before, id, d, i) {
      assert HoldsId(history, id, d, i);
    }
    if i: nat :| HoldsId(history, id, d, i) {
      assert i < |before|;
      forall j | i < j < |before| ensures before[j].client.id != id {
        assert history[j] == before[j];
      }
      assert HoldsId(before, id, d, i);
    }
  }

  /** Each entry sits under its own id and its own full host. */
  ghost predicate Keyed(r: Registry) {
    && (forall id :: id in r.clients ==> r.clients[id].id == id)
    && (forall h :: h in r.hosts ==> FullHost(r.hosts[h]) == h)
  }

  lemma {:induction false} ReplayKeyed(history: seq<Op>)
    ensures Keyed(Replay(history))
  {
    if history != [] {
      ReplayKeyed(history[..|history| - 1]);
    }
  }

  /** A removal never takes away another client's host. */
  lemma RemovalSparesOthers(r: Registry, c: Client, h: string)
    requires h in r.hosts && r.hosts[h].id != c.id
    ensures h in RemoveFrom(r, c).hosts && RemoveFrom(r, c).hosts[h] == r.hosts[h]
  {
  }

  // ----- the registry itself -----

  class Connections {
    var clients: map<ClientId, Client>
    var hosts: map<string, Client>
    var closed: set<nat>          // channels on which `close_channel` was called
    ghost var history: seq<Op>

    ghost predicate Valid()
      reads this
    {
      Contents() == Replay(history)
    }

    ghost function Contents(): Registry
      reads this
    {
      Registry(clients, hosts)
    }

    constructor ()
      ensures Valid() && history == [] && Contents() == NOBODY && closed == {}
    {
      clients, hosts, closed, history := map[], map[], {}, [];
    }

    method Add(c: Client)
      requires Valid()
      modifies this
      ensures Valid() && history == old(history) + [Added(c)]
      ensures Contents() == AddTo(old(Contents()), c) && closed == old(closed)
    {
      clients := clients[c.id := c];
      hosts := hosts[FullHost(c) := c];
      history := history + [Added(c)];
    }

    method Remove(c: Client)
      requires Valid()
      modifies this
      ensures Valid() && history == old(history) + [Removed(c)]
      ensures Contents() == RemoveFrom(old(Contents()), c) && closed == old(closed) + {c.tx}
    {
      closed := closed + {c.tx};
      var full := FullHost(c);
      if full in hosts && hosts[full].id == c.id {
        hosts := hosts - {full};
      }
      clients := clients - {c.id};
      history := history + [Removed(c)];
    }

    method Get(id: ClientId) returns (found: Option<Client>)
      requires Valid()
      ensures found.Some? ==> exists i: nat :: HoldsId(history, id, found.value, i)
      ensures found.None? ==> forall d, i: nat :: !HoldsId(history, id, d, i)
    {
      found := if id in clients then Some(clients[id]) else None;
      if found.Some? {
        ClientsReflectHistory(history, id, found.value);
      } else {
        forall d, i: nat ensures !HoldsId(history, id, d, i) {
          ClientsReflectHistory(history, id, d);
        }
      }
    }

    method FindByHost(h: string) returns (found: Option<Client>)
      requires Valid()
      ensures found.Some? ==> exists i: nat :: HoldsHost(history, h, found.value, i)
      ensures found.None? ==> forall d, i: nat :: !HoldsHost(history, h, d, i)
    {
      found := if h in hosts then Some(hosts[h]) else None;
      if found.Some? {
        HostsReflectHistory(history, h, found.value);
      } else {
        forall d, i: nat ensures !HoldsHost(history, h, d, i) {
          HostsReflectHistory(history, h, d);
        }
      }
    }

    /** Scans the id map in an order nobody chooses. */
    method FindWildcard(domain: string) returns (found: Option<Client>)
      requires Valid()
      ensures WildcardScan(Contents(), domain, found)
    {
      ReplayKeyed(history);
      var rest := clients.Keys;
      while rest != {}
        invariant rest <= clients.Keys
        invariant forall id :: id in clients && id !in rest ==> !IsWildcardFor(clients[id], domain)
        decreases |rest|
      {
        var id :| id in rest;
        if IsWildcardFor(clients[id], domain) {
          return Some(clients[id]);
        }
        rest := rest - {id};
      }
      return None;
    }
  }
}
