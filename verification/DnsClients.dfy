/** Sharing of DNS clients between name servers (dns/resolver.go, dns/util.go). */
module DnsClients {
  import opened Options

  datatype NameServer = NameServer(
    net: string,
    addr: string,
    proxyAdapter: Option<nat>,
    proxyName: string,
    params: map<string, string>,
    preferH3: bool)

  datatype Route = Route(adapter: Option<nat>, name: string)

  /** A connection to a server, with everything its constructor keeps. */
  datatype Transport =
    | TLS(addr: string, route: Route, skipCertVerify: bool, nameCertVerify: string, disableReuse: bool)
    | HTTPS(addr: string, route: Route, skipCertVerify: bool, nameCertVerify: string, offerH3: bool, onlyH3: bool)
    | QUIC(addr: string, route: Route, skipCertVerify: bool, nameCertVerify: string)
    | DHCP(name: string)
    | System
    | Tailscale(name: string)
    | EasyTier(name: string)
    | RCode(name: string)
    | Plain(addr: string, route: Route, tcp: bool)

  type Prefix = nat

  /** A raw client is one connection object; the other two wrap a client. */
  datatype Client =
    | Raw(id: nat, transport: Transport)
    | WithSubnet(inner: Client, prefix: Prefix, overrides: bool)
    | WithDisabled(inner: Client, types: set<nat>)

  /** The library parsers that wrapper parameters go through, and the known record types. */
  datatype Parsing = Parsing(
    prefix: string -> Option<Prefix>,
    address: string -> Option<Prefix>,
    number: string -> Option<nat>,
    known: nat -> bool)

  const TYPE_A := 1
  const TYPE_AAAA := 28
  const QTYPE_PREFIX := "disable-qtype-"

  function Param(params: map<string, string>, key: string): string {
    if key in params then params[key] else ""
  }

  predicate HasQtypePrefix(key: string) {
    QTYPE_PREFIX <= key
  }

  predicate IsDisableTypesParam(key: string) {
    key == "disable-ipv4" || key == "disable-ipv6" || HasQtypePrefix(key)
  }

  predicate IsEdns0SubnetParam(key: string) {
    key == "ecs" || key == "ecs-override"
  }

  predicate IsWrapperOnlyParam(key: string) {
    IsDisableTypesParam(key) || IsEdns0SubnetParam(key)
  }

  // ----- when two name servers may share a connection -----

  predicate ParamsCovered(a: map<string, string>, b: map<string, string>) {
    forall k | k in a && !IsWrapperOnlyParam(k) :: k in b && b[k] == a[k]
  }

  predicate TransportEqual(a: NameServer, b: NameServer) {
    && a.net == b.net && a.addr == b.addr && a.proxyAdapter == b.proxyAdapter && a.proxyName == b.proxyName
    && a.preferH3 == b.preferH3 && ParamsCovered(a.params, b.params) && ParamsCovered(b.params, a.params)
  }

  lemma TransportEqualIsEquivalence(a: NameServer, b: NameServer, c: NameServer)
    ensures TransportEqual(a, a)
    ensures TransportEqual(a, b) ==> TransportEqual(b, a)
    ensures TransportEqual(a, b) && TransportEqual(b, c) ==> TransportEqual(a, c)
  {
  }

  /** What transform builds for a name server, before wrapping. */
  function TransportOf(ns: NameServer): Transport {
    var route := Route(ns.proxyAdapter, ns.proxyName);
    var skip := Param(ns.params, "skip-cert-verify") == "true";
    var name := Param(ns.params, "name-cert-verify");
    if ns.net == "tls" then TLS(ns.addr, route, skip, name, Param(ns.params, "disable-reuse") == "true")
    else if ns.net == "https" then
      var onlyH3 := Param(ns.params, "h3") == "true";
      HTTPS(ns.addr, route, skip, name, ns.preferH3 && !onlyH3, onlyH3)
    else if ns.net == "dhcp" then DHCP(ns.addr)
    else if ns.net == "system" then System
    else if ns.net == "tailscale" then Tailscale(ns.addr)
    else if ns.net == "easytier" then EasyTier(ns.addr)
    else if ns.net == "rcode" then RCode(ns.addr)
    else if ns.net == "quic" then QUIC(ns.addr, route, skip, name)
    else Plain(ns.addr, route, "tcp" <= ns.net)
  }

  lemma SameParam(a: NameServer, b: NameServer, key: string)
    requires TransportEqual(a, b) && !IsWrapperOnlyParam(key)
    ensures Param(a.params, key) == Param(b.params, key)
  {
    if key in a.params { assert b.params[key] == a.params[key]; }
    if key in b.params { assert a.params[key] == b.params[key]; }
  }

  /** Name servers that are transportEqual get the same connection: no constructor reads a wrapper parameter. */
  lemma TransportEqualIsEnough(a: NameServer, b: NameServer)
    requires TransportEqual(a, b)
    ensures TransportOf(a) == TransportOf(b)
  {
    assert "skip-cert-verify"[0] == 's' && "name-cert-verify"[0] == 'n' && "h3"[0] == 'h';
    assert "disable-reuse"[8] == 'r';
    SameParam(a, b, "skip-cert-verify");
    SameParam(a, b, "name-cert-verify");
    SameParam(a, b, "disable-reuse");
    SameParam(a, b, "h3");
  }

  /** Present with the value "true". */
  predicate Flag(params: map<string, string>, key: string) {
    key in params && params[key] == "true"
  }

  /** What the connection to a name server must be: its kind by the network, every unlisted one being plain DNS; and
      the address, route, certificate checks and options that the server asks for. */
  ghost predicate ConnectsTo(ns: NameServer, t: Transport) {
    && (t.TLS? <==> ns.net == "tls") && (t.HTTPS? <==> ns.net == "https") && (t.QUIC? <==> ns.net == "quic")
    && (t.DHCP? <==> ns.net == "dhcp") && (t.System? <==> ns.net == "system") && (t.RCode? <==> ns.net == "rcode")
    && (t.Tailscale? <==> ns.net == "tailscale") && (t.EasyTier? <==> ns.net == "easytier")
    && (t.DHCP? || t.Tailscale? || t.EasyTier? || t.RCode? ==> t.name == ns.addr)
    && (t.TLS? || t.HTTPS? || t.QUIC? || t.Plain? ==>
          t.addr == ns.addr && t.route.adapter == ns.proxyAdapter && t.route.name == ns.proxyName)
    && (t.TLS? || t.HTTPS? || t.QUIC? ==>
          && (t.skipCertVerify <==> Flag(ns.params, "skip-cert-verify"))
          && t.nameCertVerify == if "name-cert-verify" in ns.params then ns.params["name-cert-verify"] else "")
    && (t.TLS? ==> (t.disableReuse <==> Flag(ns.params, "disable-reuse")))
    && (t.HTTPS? ==>
          && (t.onlyH3 <==> Flag(ns.params, "h3"))
          && (t.offerH3 <==> ns.preferH3 && !Flag(ns.params, "h3")))
    && (t.Plain? ==> (t.tcp <==> "tcp" <= ns.net))
  }

  lemma DistinctNets()
    ensures |"tls"| == 3 && |"https"| == 5 && |"dhcp"| == 4 && |"system"| == 6 && |"tailscale"| == 9
    ensures |"easytier"| == 8 && |"rcode"| == 5 && |"quic"| == 4
    ensures "https"[0] != "rcode"[0] && "dhcp"[0] != "quic"[0]
  {
  }

  lemma TransportConnects(ns: NameServer)
    ensures ConnectsTo(ns, TransportOf(ns))
  {
    DistinctNets();
  }

  /** A parameter that only concerns the wrappers. */
  predicate ForWrappers(key: string) {
    key in {"ecs", "ecs-override", "disable-ipv4", "disable-ipv6"} || "disable-qtype-" <= key
  }

  predicate SameAt(a: map<string, string>, b: map<string, string>, key: string) {
    (key in a <==> key in b) && (key in a && key in b ==> a[key] == b[key])
  }

  /** Two name servers may share a connection exactly if they agree on everything but parameters for the wrappers. */
  lemma TransportEqualExactly(a: NameServer, b: NameServer)
    ensures TransportEqual(a, b) <==>
      && a.net == b.net && a.addr == b.addr && a.proxyAdapter == b.proxyAdapter && a.proxyName == b.proxyName
      && a.preferH3 == b.preferH3 && forall k: string | !ForWrappers(k) :: SameAt(a.params, b.params, k)
  {
    assert forall k: string :: ForWrappers(k) <==> IsWrapperOnlyParam(k);
  }

  // ----- wrapping -----

  function SubnetOf(p: Parsing, params: map<string, string>): Option<Prefix> {
    var ecs := Param(params, "ecs");
    if ecs == "" then None
    else if p.prefix(ecs).Some? then p.prefix(ecs)
    else p.address(ecs)
  }

  function DisabledTypes(p: Parsing, params: map<string, string>): set<nat> {
    (if Param(params, "disable-ipv4") == "true" then {TYPE_A} else {})
    + (if Param(params, "disable-ipv6") == "true" then {TYPE_AAAA} else {})
    + NamedTypes(p, params)
  }

  function NamedTypes(p: Parsing, params: map<string, string>): set<nat> {
    set key | key in params && HasQtypePrefix(key) && params[key] == "true" && NamedType(p, key).Some? :: NamedType(p, key).value
  }

  function NamedType(p: Parsing, key: string): Option<nat>
    requires HasQtypePrefix(key)
  {
    var number := p.number(key[|QTYPE_PREFIX|..]);
    if number.Some? && p.known(number.value) then number else None
  }

  function WrapSubnet(p: Parsing, c: Client, params: map<string, string>): Client {
    var subnet := SubnetOf(p, params);
    if subnet.Some? then WithSubnet(c, subnet.value, Param(params, "ecs-override") == "true") else c
  }

  function WrapDisabled(p: Parsing, c: Client, params: map<string, string>): Client {
    var types := DisabledTypes(p, params);
    if types != {} then WithDisabled(c, types) else c
  }

  function Wrap(p: Parsing, c: Client, params: map<string, string>): Client {
    WrapDisabled(p, WrapSubnet(p, c, params), params)
  }

  /** The query types that a client refuses, and the subnet that it attaches. */
  ghost predicate Refuses(c: Client, qtype: nat) {
    c.WithDisabled? && qtype in c.types
  }

  ghost function Attached(c: Client): Option<(Prefix, bool)> {
    match c
    case WithDisabled(inner, _) => if inner.WithSubnet? then Some((inner.prefix, inner.overrides)) else None
    case WithSubnet(_, prefix, overrides) => Some((prefix, overrides))
    case Raw(_, _) => None
  }

  /** At most one layer for the subnet, and around it at most one for disabled types. */
  ghost predicate Layered(c: Client) {
    match c
    case Raw(_, _) => true
    case WithSubnet(inner, _, _) => inner.Raw?
    case WithDisabled(inner, _) => inner.Raw? || (inner.WithSubnet? && inner.inner.Raw?)
  }

  /** A parameter of its own disables this query type. */
  ghost predicate DisabledByKey(p: Parsing, params: map<string, string>, qtype: nat) {
    exists key :: "disable-qtype-" <= key && Flag(params, key) && p.number(key[14..]) == Some(qtype) && p.known(qtype)
  }

  /** What the parameters ask of the wrappers. */
  ghost predicate WrappedFor(p: Parsing, params: map<string, string>, c: Client) {
    && Layered(c)
    && (forall qtype: nat :: Refuses(c, qtype) <==>
          || (qtype == 1 && Flag(params, "disable-ipv4"))
          || (qtype == 28 && Flag(params, "disable-ipv6"))
          || DisabledByKey(p, params, qtype))
    && (Attached(c).Some? <==> "ecs" in params && params["ecs"] != ""
                               && (p.prefix(params["ecs"]).Some? || p.address(params["ecs"]).Some?))
    && (Attached(c).Some? ==>
          && Attached(c).value.0 == (if p.prefix(params["ecs"]).Some? then p.prefix(params["ecs"]) else p.address(params["ecs"])).value
          && (Attached(c).value.1 <==> Flag(params, "ecs-override")))
  }

  lemma NamedTypesByKey(p: Parsing, params: map<string, string>, qtype: nat)
    ensures qtype in NamedTypes(p, params) <==> DisabledByKey(p, params, qtype)
  {
    assert |QTYPE_PREFIX| == 14;
    if DisabledByKey(p, params, qtype) {
      var key :| "disable-qtype-" <= key && Flag(params, key) && p.number(key[14..]) == Some(qtype) && p.known(qtype);
      assert NamedType(p, key) == Some(qtype);
    }
    if qtype in NamedTypes(p, params) {
      var key :| key in params && HasQtypePrefix(key) && params[key] == "true" && NamedType(p, key).Some? && NamedType(p, key).value == qtype;
      assert "disable-qtype-" <= key && Flag(params, key) && p.number(key[14..]) == Some(qtype) && p.known(qtype);
    }
  }

  lemma RawIsWrapped(p: Parsing, id: nat, transport: Transport, params: map<string, string>)
    ensures WrappedFor(p, params, Wrap(p, Raw(id, transport), params))
  {
    var c := Wrap(p, Raw(id, transport), params);
    forall qtype: nat
      ensures Refuses(c, qtype) <==> qtype in DisabledTypes(p, params)
      ensures qtype in DisabledTypes(p, params) <==>
        || (qtype == 1 && Flag(params, "disable-ipv4"))
        || (qtype == 28 && Flag(params, "disable-ipv6"))
        || DisabledByKey(p, params, qtype)
    {
      NamedTypesByKey(p, params, qtype);
    }
  }

  function Peel(c: Client): (r: Client)
    ensures r.Raw?
  {
    match c
    case Raw(_, _) => c
    case WithSubnet(inner, _, _) => Peel(inner)
    case WithDisabled(inner, _) => Peel(inner)
  }

  function RawId(c: Client): nat {
    Peel(c).id
  }

  method RewrapClient(p: Parsing, client: Client, params: map<string, string>) returns (r: Client)
    ensures r == Wrap(p, Peel(client), params)
  {
    r := client;
    while !r.Raw?
      invariant Peel(r) == Peel(client)
      decreases r
    {
      r := r.inner;
    }
    r := WrapDisabled(p, WrapSubnet(p, r, params), params);
  }

  /** Re-wrapping leaves no trace of earlier wrapping. */
  lemma RewrapAbsorbs(p: Parsing, c: Client, earlier: map<string, string>, later: map<string, string>)
    ensures Wrap(p, Peel(Wrap(p, c, earlier)), later) == Wrap(p, Peel(c), later)
  {
    PeelWrap(p, c, earlier);
  }

  lemma PeelWrap(p: Parsing, c: Client, params: map<string, string>)
    ensures Peel(Wrap(p, c, params)) == Peel(c)
  {
    var inner := WrapSubnet(p, c, params);
    assert Peel(inner) == Peel(c);
    assert Peel(WrapDisabled(p, inner, params)) == Peel(inner);
  }

  /** What building from scratch gives, up to the identity of the connection. */
  function Fresh(p: Parsing, ns: NameServer, id: nat): Client {
    Wrap(p, Raw(id, TransportOf(ns)), ns.params)
  }

  lemma FreshId(p: Parsing, ns: NameServer, id: nat)
    ensures RawId(Fresh(p, ns, id)) == id
  {
    PeelWrap(p, Raw(id, TransportOf(ns)), ns.params);
  }

  // ----- the cache of NewResolver -----

  datatype Entry = Entry(server: NameServer, client: Client)

  /** The client is what its server gets when built from scratch, on a connection of its own class. */
  predicate EntryGood(p: Parsing, e: Entry, bound: nat) {
    RawId(e.client) < bound && e.client == Fresh(p, e.server, RawId(e.client))
  }

  predicate SharedExactly(a: Entry, b: Entry) {
    RawId(a.client) == RawId(b.client) <==> TransportEqual(a.server, b.server)
  }

  predicate Good(p: Parsing, cache: seq<Entry>, bound: nat) {
    && (forall i | 0 <= i < |cache| :: EntryGood(p, cache[i], bound))
    && (forall i, j | 0 <= i < |cache| && 0 <= j < |cache| :: SharedExactly(cache[i], cache[j]))
  }

  /** `client` stands in the cache for `server`. */
  predicate Cached(cache: seq<Entry>, server: NameServer, client: Client) {
    Entry(server, client) in cache
  }

  lemma AppendGood(p: Parsing, cache: seq<Entry>, bound: nat, e: Entry, bound': nat)
    requires Good(p, cache, bound) && bound <= bound' && EntryGood(p, e, bound')
    requires forall i | 0 <= i < |cache| :: SharedExactly(cache[i], e)
    ensures Good(p, cache + [e], bound')
  {
    var longer := cache + [e];
    forall i | 0 <= i < |longer| ensures EntryGood(p, longer[i], bound') {
      assert i < |cache| ==> EntryGood(p, cache[i], bound);
    }
    forall i, j | 0 <= i < |longer| && 0 <= j < |longer| ensures SharedExactly(longer[i], longer[j]) {
      TransportEqualIsEquivalence(longer[i].server, longer[j].server, e.server);
      TransportEqualIsEquivalence(longer[j].server, longer[i].server, e.server);
      assert i < |cache| ==> SharedExactly(cache[i], e);
      assert j < |cache| ==> SharedExactly(cache[j], e);
    }
  }

  /** An entry re-wrapped from the connection of a transportEqual one. */
  lemma ReusedGood(p: Parsing, cache: seq<Entry>, bound: nat, k: nat, ns: NameServer)
    requires Good(p, cache, bound) && k < |cache| && TransportEqual(cache[k].server, ns)
    ensures Good(p, cache + [Entry(ns, Wrap(p, Peel(cache[k].client), ns.params))], bound)
  {
    var client := cache[k].client;
    var e := Entry(ns, Wrap(p, Peel(client), ns.params));
    assert EntryGood(p, cache[k], bound);
    PeelWrap(p, Raw(RawId(client), TransportOf(cache[k].server)), cache[k].server.params);
    TransportEqualIsEnough(cache[k].server, ns);
    PeelWrap(p, Peel(client), ns.params);
    forall i | 0 <= i < |cache| ensures SharedExactly(cache[i], e) {
      assert SharedExactly(cache[i], cache[k]);
      TransportEqualIsEquivalence(cache[i].server, cache[k].server, ns);
      TransportEqualIsEquivalence(cache[k].server, ns, cache[i].server);
      TransportEqualIsEquivalence(ns, cache[i].server, cache[k].server);
      TransportEqualIsEquivalence(cache[i].server, ns, cache[k].server);
    }
    AppendGood(p, cache, bound, e, bound);
  }

  lemma BuiltGood(p: Parsing, cache: seq<Entry>, bound: nat, ns: NameServer)
    requires Good(p, cache, bound) && forall i | 0 <= i < |cache| :: !TransportEqual(cache[i].server, ns)
    ensures Good(p, cache + [Entry(ns, Fresh(p, ns, bound))], bound + 1)
  {
    var e := Entry(ns, Fresh(p, ns, bound));
    FreshId(p, ns, bound);
    forall i | 0 <= i < |cache| ensures SharedExactly(cache[i], e) {
      assert EntryGood(p, cache[i], bound);
    }
    AppendGood(p, cache, bound, e, bound + 1);
  }

  /** What the callers of cacheTransform rely on: clients like fresh ones, sharing exactly where they may. */
  predicate Refines(p: Parsing, servers: seq<NameServer>, clients: seq<Client>) {
    && |clients| == |servers|
    && (forall i | 0 <= i < |servers| :: clients[i] == Fresh(p, servers[i], RawId(clients[i])))
    && (forall i, j | 0 <= i < |servers| && 0 <= j < |servers| ::
          RawId(clients[i]) == RawId(clients[j]) <==> TransportEqual(servers[i], servers[j]))
  }

  /** Each client connects to its server and is wrapped as that asks for, said without reference to how it is built. */
  ghost predicate AsAsked(p: Parsing, servers: seq<NameServer>, clients: seq<Client>) {
    && |clients| == |servers|
    && forall i | 0 <= i < |servers| ::
         ConnectsTo(servers[i], Peel(clients[i]).transport) && WrappedFor(p, servers[i].params, clients[i])
  }

  lemma RefinesIsAsAsked(p: Parsing, servers: seq<NameServer>, clients: seq<Client>)
    requires Refines(p, servers, clients)
    ensures AsAsked(p, servers, clients)
  {
    forall i | 0 <= i < |servers|
      ensures ConnectsTo(servers[i], Peel(clients[i]).transport) && WrappedFor(p, servers[i].params, clients[i])
    {
      var id := RawId(clients[i]);
      TransportConnects(servers[i]);
      PeelWrap(p, Raw(id, TransportOf(servers[i])), servers[i].params);
      RawIsWrapped(p, id, TransportOf(servers[i]), servers[i].params);
    }
  }

  predicate AllCached(cache: seq<Entry>, servers: seq<NameServer>, clients: seq<Client>) {
    |clients| == |servers| && forall i | 0 <= i < |servers| :: Cached(cache, servers[i], clients[i])
  }

  lemma CachedRefines(p: Parsing, cache: seq<Entry>, bound: nat, servers: seq<NameServer>, clients: seq<Client>)
    requires Good(p, cache, bound) && AllCached(cache, servers, clients)
    ensures Refines(p, servers, clients)
  {
    forall i | 0 <= i < |servers| ensures clients[i] == Fresh(p, servers[i], RawId(clients[i])) {
      var k :| 0 <= k < |cache| && cache[k] == Entry(servers[i], clients[i]);
      assert EntryGood(p, cache[k], bound);
    }
    forall i, j | 0 <= i < |servers| && 0 <= j < |servers|
      ensures RawId(clients[i]) == RawId(clients[j]) <==> TransportEqual(servers[i], servers[j])
    {
      var k :| 0 <= k < |cache| && cache[k] == Entry(servers[i], clients[i]);
      var l :| 0 <= l < |cache| && cache[l] == Entry(servers[j], clients[j]);
      assert SharedExactly(cache[k], cache[l]);
    }
  }

  function Flat<T>(lists: seq<seq<T>>): seq<T> {
    if lists == [] then [] else Flat(lists[..|lists| - 1]) + lists[|lists| - 1]
  }

  /** The client cache that one NewResolver call threads through all its server lists. */
  class Builder {
    const parsing: Parsing
    var nameServerCache: seq<Entry>
    var nextId: nat

    ghost predicate Valid()
      reads this
    {
      Good(parsing, nameServerCache, nextId)
    }

    constructor (parsing: Parsing)
      ensures Valid() && this.parsing == parsing && nameServerCache == []
    {
      this.parsing := parsing;
      nameServerCache := [];
      nextId := 0;
    }

    /** Looks for an exact match, and on the way for the first reusable connection. */
    method Scan(ns: NameServer) returns (exact: Option<Client>, reusable: Option<nat>)
      ensures exact.Some? ==> Cached(nameServerCache, ns, exact.value)
      ensures exact.None? && reusable.Some? ==>
        reusable.value < |nameServerCache| && TransportEqual(nameServerCache[reusable.value].server, ns)
      ensures exact.None? && reusable.None? ==>
        forall i | 0 <= i < |nameServerCache| :: !TransportEqual(nameServerCache[i].server, ns)
    {
      exact, reusable := None, None;
      for k := 0 to |nameServerCache|
        invariant reusable.Some? ==> reusable.value < k && TransportEqual(nameServerCache[reusable.value].server, ns)
        invariant reusable.None? ==> forall i | 0 <= i < k :: !TransportEqual(nameServerCache[i].server, ns)
      {
        var nsc := nameServerCache[k];
        if nsc.server == ns {
          return Some(nsc.client), None;
        }
        if reusable.None? && TransportEqual(nsc.server, ns) {
          reusable := Some(k);
        }
      }
    }

    method TransformOne(ns: NameServer) returns (client: Client)
      requires Valid()
      modifies this
      ensures Valid() && old(nameServerCache) <= nameServerCache && Cached(nameServerCache, ns, client)
    {
      var exact, reusable := Scan(ns);
      if exact.Some? {
        return exact.value;
      }
      if reusable.Some? {
        client := RewrapClient(parsing, nameServerCache[reusable.value].client, ns.params);
        ReusedGood(parsing, nameServerCache, nextId, reusable.value, ns);
      } else {
        client := RewrapClient(parsing, Raw(nextId, TransportOf(ns)), ns.params);
        BuiltGood(parsing, nameServerCache, nextId, ns);
        nextId := nextId + 1;
      }
      nameServerCache := nameServerCache + [Entry(ns, client)];
      assert nameServerCache[|nameServerCache| - 1] == Entry(ns, client);
    }

    method CacheTransform(servers: seq<NameServer>) returns (result: seq<Client>)
      requires Valid()
      modifies this
      ensures Valid() && old(nameServerCache) <= nameServerCache
      ensures AllCached(nameServerCache, servers, result) && Refines(parsing, servers, result)
      ensures AsAsked(parsing, servers, result)
    {
      result := [];
      for i := 0 to |servers|
        invariant Valid() && old(nameServerCache) <= nameServerCache
        invariant AllCached(nameServerCache, servers[..i], result)
      {
        ghost var before := nameServerCache;
        var client := TransformOne(servers[i]);
        CachedLonger(before, nameServerCache, servers[..i], result);
        result := result + [client];
        assert servers[..i + 1] == servers[..i] + [servers[i]];
      }
      assert servers[..|servers|] == servers;
      CachedRefines(parsing, nameServerCache, nextId, servers, result);
      RefinesIsAsAsked(parsing, servers, result);
    }

    /** Every list of a configuration, one after the other: sharing is exact across lists too. */
    method TransformAll(lists: seq<seq<NameServer>>) returns (results: seq<seq<Client>>)
      requires Valid()
      modifies this
      ensures Valid() && |results| == |lists|
      ensures Refines(parsing, Flat(lists), Flat(results)) && AsAsked(parsing, Flat(lists), Flat(results))
    {
      results := [];
      for i := 0 to |lists|
        invariant Valid() && |results| == i
        invariant AllCached(nameServerCache, Flat(lists[..i]), Flat(results))
      {
        ghost var before := nameServerCache;
        var result := CacheTransform(lists[i]);
        CachedLonger(before, nameServerCache, Flat(lists[..i]), Flat(results));
        results := results + [result];
        assert lists[..i + 1][..i] == lists[..i] && results[..i] == results[..|results| - 1];
        assert Flat(results) == Flat(results[..i]) + result;
      }
      assert lists[..|lists|] == lists;
      CachedRefines(parsing, nameServerCache, nextId, Flat(lists), Flat(results));
      RefinesIsAsAsked(parsing, Flat(lists), Flat(results));
    }
  }

  lemma CachedLonger(shorter: seq<Entry>, longer: seq<Entry>, servers: seq<NameServer>, clients: seq<Client>)
    requires shorter <= longer && AllCached(shorter, servers, clients)
    ensures AllCached(longer, servers, clients)
  {
    forall i | 0 <= i < |servers| ensures Cached(longer, servers[i], clients[i]) {
      assert Cached(shorter, servers[i], clients[i]);
    }
  }
}
