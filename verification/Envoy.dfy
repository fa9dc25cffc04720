/** The part of the Envoy v2 API that the control plane emits, with the meaning its
    documentation gives it: which resources load, and where a connection ends up. */
module Envoy {
  import opened MeshTypes
  import opened Text

  datatype SocketAddress = SocketAddress(address: string, port: uint32)

  datatype Route = Route(prefix: string, cluster: string)

  datatype VirtualHost = VirtualHost(name: string, domains: seq<string>, routes: seq<Route>)

  datatype RouteConfiguration = RouteConfiguration(name: string, virtualHosts: seq<VirtualHost>)

  datatype NetworkFilter =
    | TcpProxy(name: string, statPrefix: string, cluster: string)
    | HttpConnectionManager(name: string, statPrefix: string, accessLogPath: string,
                            routeConfig: RouteConfiguration, httpFilters: seq<string>)

  /** No destination port means no FilterChainMatch at all. */
  datatype FilterChain = FilterChain(destinationPort: Option<uint32>, filters: seq<NetworkFilter>)

  datatype Listener = Listener(name: string, address: SocketAddress, listenerFilters: seq<string>,
                               filterChains: seq<FilterChain>)

  datatype DiscoveryType = StaticAddress | StrictDns | LogicalDns | Eds | OriginalDst

  datatype EnvoyCluster = EnvoyCluster(name: string, connectTimeoutSeconds: nat, discovery: DiscoveryType,
                                       hosts: seq<SocketAddress>, ipv4Only: bool)

  // ---- Snapshots ----

  /** A versioned group of resources per type. Endpoints and routes stay empty. */
  datatype Snapshot = Snapshot(version: nat, clusters: map<string, EnvoyCluster>,
                               listeners: map<string, Listener>)

  /** `IndexResourcesByName`: the last of several resources of one name wins. */
  function IndexByName<T>(items: seq<T>, nameOf: T -> string): (m: map<string, T>)
    ensures forall n :: n in m <==> exists i :: 0 <= i < |items| && nameOf(items[i]) == n
    ensures forall n :: n in m ==> m[n] in items && nameOf(m[n]) == n
  {
    if items == [] then map[]
    else
      var last := |items| - 1;
      IndexByName(items[..last], nameOf)[nameOf(items[last]) := items[last]]
  }

  lemma IndexOneMore<T>(items: seq<T>, nameOf: T -> string, last: T)
    ensures IndexByName(items + [last], nameOf) == IndexByName(items, nameOf)[nameOf(last) := last]
  {
    assert (items + [last])[..|items|] == items;
  }

  /** A resource that no later one shares its name with is the one that is kept. */
  lemma {:induction false} LastOfNameWins<T>(items: seq<T>, nameOf: T -> string, item: T, later: seq<T>)
    requires forall x :: x in later ==> nameOf(x) != nameOf(item)
    ensures var m := IndexByName(items + [item] + later, nameOf);
            nameOf(item) in m && m[nameOf(item)] == item
  {
    hide IndexByName;
    if later == [] {
      assert items + [item] + later == items + [item];
      IndexOneMore(items, nameOf, item);
    } else {
      var last := |later| - 1;
      LastOfNameWins(items, nameOf, item, later[..last]);
      assert items + [item] + later == items + [item] + later[..last] + [later[last]];
      IndexOneMore(items + [item] + later[..last], nameOf, later[last]);
    }
  }

  function ClusterName(c: EnvoyCluster): string { c.name }

  function ListenerName(l: Listener): string { l.name }

  function NewSnapshot(version: nat, clusters: seq<EnvoyCluster>, listeners: seq<Listener>): Snapshot {
    Snapshot(version, IndexByName(clusters, ClusterName), IndexByName(listeners, ListenerName))
  }

  // ---- Domains of virtual hosts ----

  datatype DomainPattern =
    | Exact(name: string)
    | SuffixWildcard(suffix: string)
    | PrefixWildcard(prefix: string)
    | AnyHost

  function ParseDomain(d: string): DomainPattern {
    if d == "*" then AnyHost
    else if |d| > 0 && d[0] == '*' then SuffixWildcard(d[1..])
    else if |d| > 0 && d[|d| - 1] == '*' then PrefixWildcard(d[..|d| - 1])
    else Exact(d)
  }

  predicate Lists(v: VirtualHost, p: DomainPattern) {
    exists i :: 0 <= i < |v.domains| && ParseDomain(v.domains[i]) == p
  }

  function FindHost(vhosts: seq<VirtualHost>, p: DomainPattern): (r: Option<VirtualHost>)
    ensures r.Some? ==> r.value in vhosts && Lists(r.value, p)
    ensures r.None? ==> forall v :: v in vhosts ==> !Lists(v, p)
  {
    if vhosts == [] then None
    else if Lists(vhosts[0], p) then Some(vhosts[0])
    else FindHost(vhosts[1..], p)
  }

  /** Tries the wildcards for the host's last n, n-1, ..., 1 characters: longest first. */
  function LongestSuffix(vhosts: seq<VirtualHost>, host: string, n: nat): Option<VirtualHost>
    requires n <= |host|
  {
    if n == 0 then None
    else
      var found := FindHost(vhosts, SuffixWildcard(host[|host| - n..]));
      if found.Some? then found else LongestSuffix(vhosts, host, n - 1)
  }

  function LongestPrefix(vhosts: seq<VirtualHost>, host: string, n: nat): Option<VirtualHost>
    requires n <= |host|
  {
    if n == 0 then None
    else
      var found := FindHost(vhosts, PrefixWildcard(host[..n]));
      if found.Some? then found else LongestPrefix(vhosts, host, n - 1)
  }

  /** A wildcard stands for at least one character. */
  function LongestWildcard(host: string): nat {
    if host == "" then 0 else |host| - 1
  }

  /** The documented search order: exact, suffix wildcards, prefix wildcards, `*`. */
  function SelectVirtualHost(vhosts: seq<VirtualHost>, host: string): Option<VirtualHost> {
    var exact := FindHost(vhosts, Exact(host));
    if exact.Some? then exact else
    var suffix := LongestSuffix(vhosts, host, LongestWildcard(host));
    if suffix.Some? then suffix else
    var prefix := LongestPrefix(vhosts, host, LongestWildcard(host));
    if prefix.Some? then prefix else
    FindHost(vhosts, AnyHost)
  }

  /** The first route whose prefix matches. */
  function SelectRoute(routes: seq<Route>, path: string): Option<Route> {
    if routes == [] then None
    else if routes[0].prefix <= path then Some(routes[0])
    else SelectRoute(routes[1..], path)
  }

  // ---- IP addresses and DNS ----

  /** Four decimal numbers below 256, without leading zeros. */
  predicate IsIpv4(a: string) {
    var parts := Split(a, '.');
    |parts| == 4 && forall i :: 0 <= i < 4 ==> exists n :: 0 <= n < 256 && parts[i] == Decimal(n)
  }

  predicate IsHexDigit(c: char) { '0' <= c <= '9' || 'a' <= c <= 'f' || 'A' <= c <= 'F' }

  predicate IsHextet(s: string) { 1 <= |s| <= 4 && forall i :: 0 <= i < |s| ==> IsHexDigit(s[i]) }

  /** How many 16-bit groups a colon-separated list stands for; its last entry may be an IPv4 address, which
      stands for two (section 2.2 of RFC 4291). */
  function GroupsOf(a: string, ipv4Tail: bool): Option<nat> {
    if a == "" then Some(0)
    else
      var parts := Split(a, ':');
      var last := |parts| - 1;
      if exists i :: 0 <= i < last && !IsHextet(parts[i]) then None
      else if IsHextet(parts[last]) then Some(last + 1)
      else if ipv4Tail && IsIpv4(parts[last]) then Some(last + 2)
      else None
  }

  /** Eight groups, or fewer with one `::` for the missing ones. */
  predicate IsIpv6(a: string) {
    || GroupsOf(a, true) == Some(8)
    || exists i :: 0 <= i <= |a| - 2 && a[i..i + 2] == "::"
                   && GroupsOf(a[..i], false).Some? && GroupsOf(a[i + 2..], true).Some?
                   && GroupsOf(a[..i], false).value + GroupsOf(a[i + 2..], true).value <= 7
  }

  predicate IsIpAddress(a: string) { IsIpv4(a) || IsIpv6(a) }

  /** What DNS answers for a name, in each address family. */
  datatype Dns = Dns(ipv4: string -> seq<string>, ipv6: string -> seq<string>)

  function Resolved(dns: Dns, ipv4Only: bool, host: string): seq<string> {
    if IsIpAddress(host) then [host]
    else if ipv4Only || dns.ipv6(host) == [] then dns.ipv4(host)
    else dns.ipv6(host)
  }

  /** The addresses connections to a cluster may go to: STRICT_DNS uses every answer, LOGICAL_DNS one. */
  function Endpoints(c: EnvoyCluster, dns: Dns): set<SocketAddress> {
    match c.discovery
    case StaticAddress => set a | a in c.hosts :: a
    case StrictDns => set a, ip | a in c.hosts && ip in Resolved(dns, c.ipv4Only, a.address) :: SocketAddress(ip, a.port)
    case LogicalDns =>
      if c.hosts == [] || Resolved(dns, c.ipv4Only, c.hosts[0].address) == [] then {}
      else {SocketAddress(Resolved(dns, c.ipv4Only, c.hosts[0].address)[0], c.hosts[0].port)}
    case _ => {}
  }

  /** Whoever writes a letter beyond f, or anything else an address has no use for, means a host name. */
  lemma HostNamesAreNoAddresses(a: string, c: char)
    requires c in a && !IsHexDigit(c) && c != '.' && c != ':'
    ensures !IsIpAddress(a)
  {
    NotIpv4(a, c);
    NotGroups(a, true, c);
    forall i | 0 <= i <= |a| - 2 && a[i..i + 2] == "::"
      ensures GroupsOf(a[..i], false).None? || GroupsOf(a[i + 2..], true).None?
    {
      assert a == a[..i] + "::" + a[i + 2..];
      if c in a[..i] {
        NotGroups(a[..i], false, c);
      } else {
        NotGroups(a[i + 2..], true, c);
      }
    }
  }

  lemma NotIpv4(a: string, c: char)
    requires c in a && !('0' <= c <= '9') && c != '.'
    ensures !IsIpv4(a)
  {
    JoinOfSplit(a, '.');
    InSomePart(Split(a, '.'), '.', c);
  }

  lemma NotGroups(a: string, ipv4Tail: bool, c: char)
    requires c in a && !IsHexDigit(c) && c != '.' && c != ':'
    ensures GroupsOf(a, ipv4Tail).None?
  {
    JoinOfSplit(a, ':');
    var parts := Split(a, ':');
    InSomePart(parts, ':', c);
    var i :| 0 <= i < |parts| && c in parts[i];
    assert !IsHextet(parts[i]);
    if i == |parts| - 1 {
      NotIpv4(parts[i], c);
    }
  }

  // ---- Serving a connection ----

  /** A connection of the workload, redirected by iptables to `redirectedTo`. */
  datatype Connection = Connection(redirectedTo: uint32, originalPort: uint32, host: string, path: string)

  datatype Outcome =
    | Unloadable                              // the snapshot is refused
    | Refused                                 // nothing listens or no filter chain applies
    | Closed                                  // proxied to a cluster that does not exist
    | NotFound                                // HTTP 404
    | Upstream(addresses: seq<SocketAddress>) // forwarded to one of these

  /** The most specific chain for a port; a chain without a match is the fallback. */
  function SelectChain(chains: seq<FilterChain>, wanted: Option<uint32>): Option<FilterChain> {
    if chains == [] then None
    else if chains[0].destinationPort == wanted then Some(chains[0])
    else SelectChain(chains[1..], wanted)
  }

  function ChainFor(chains: seq<FilterChain>, port: uint32): Option<FilterChain> {
    var specific := SelectChain(chains, Some(port));
    if specific.Some? then specific else SelectChain(chains, None)
  }

  function Forward(clusters: map<string, EnvoyCluster>, name: string, missing: Outcome): Outcome {
    if name in clusters then Upstream(clusters[name].hosts) else missing
  }

  /** The first network filter is terminal. */
  function ServeChain(chain: FilterChain, clusters: map<string, EnvoyCluster>, c: Connection): Outcome {
    if chain.filters == [] then Refused
    else
      match chain.filters[0]
      case TcpProxy(_, _, cluster) => Forward(clusters, cluster, Closed)
      case HttpConnectionManager(_, _, _, routes, httpFilters) =>
        if "envoy.router" !in httpFilters then NotFound
        else
          var vhost := SelectVirtualHost(routes.virtualHosts, c.host);
          if vhost.None? then NotFound
          else
            var route := SelectRoute(vhost.value.routes, c.path);
            if route.None? then NotFound else Forward(clusters, route.value.cluster, NotFound)
  }

  /** The port filter chains see: the original one only if a listener filter restores it. */
  function DestinationPort(l: Listener, c: Connection): uint32 {
    if "envoy.listener.original_dst" in l.listenerFilters then c.originalPort else c.redirectedTo
  }

  function ServeListener(l: Listener, clusters: map<string, EnvoyCluster>, c: Connection): Outcome {
    var chain := ChainFor(l.filterChains, DestinationPort(l, c));
    if chain.None? then Refused else ServeChain(chain.value, clusters, c)
  }

  ghost predicate ListensFor(s: Snapshot, c: Connection, l: Listener) {
    l in s.listeners.Values && l.address.port == c.redirectedTo
  }

  /** What a proxy that holds the snapshot does with a connection. */
  ghost function Serve(s: Snapshot, c: Connection): Outcome {
    if !Loads(s) then Unloadable
    else if exists l :: ListensFor(s, c, l) then
      var l :| ListensFor(s, c, l);
      ServeListener(l, s.clusters, c)
    else Refused
  }

  // ---- Validation ----

  predicate AddressLoads(a: SocketAddress) { a.address != "" && a.port <= 65535 }

  ghost predicate ClusterLoads(c: EnvoyCluster) {
    c.name != "" && c.connectTimeoutSeconds > 0 && (forall a :: a in c.hosts ==> AddressLoads(a)) && DiscoveryLoads(c)
  }

  /** The discovery type decides what the hosts may be: addresses for a static cluster, names or addresses where
      DNS is asked. The other types need settings of their own, which are never emitted. */
  ghost predicate DiscoveryLoads(c: EnvoyCluster) {
    match c.discovery
    case StaticAddress => forall a :: a in c.hosts ==> IsIpAddress(a.address)
    case StrictDns => true
    case LogicalDns => |c.hosts| == 1
    case Eds => false
    case OriginalDst => false
  }

  predicate IsDomain(vhosts: seq<VirtualHost>, i: nat, j: nat, d: string) {
    i < |vhosts| && j < |vhosts[i].domains| && vhosts[i].domains[j] == d
  }

  /** No domain may be listed twice in one route table. */
  ghost predicate DomainsUnique(vhosts: seq<VirtualHost>) {
    forall i, j, k, l, d ::
      IsDomain(vhosts, i, j, d) && IsDomain(vhosts, k, l, d) ==> i == k && j == l
  }

  /** An inline route table is checked against the known clusters. */
  ghost predicate VirtualHostLoads(v: VirtualHost, known: set<string>) {
    && v.name != ""
    && v.domains != []
    && forall r :: r in v.routes ==> r.cluster != "" && r.cluster in known
  }

  ghost predicate FilterLoads(f: NetworkFilter, known: set<string>) {
    match f
    case TcpProxy(name, stat, _) => name != "" && stat != ""
    case HttpConnectionManager(name, stat, _, routes, _) =>
      && name != "" && stat != ""
      && DomainsUnique(routes.virtualHosts)
      && forall v :: v in routes.virtualHosts ==> VirtualHostLoads(v, known)
  }

  ghost predicate ChainLoads(chain: FilterChain, known: set<string>) {
    && (chain.destinationPort.Some? ==> 1 <= chain.destinationPort.value <= 65535)
    && forall f :: f in chain.filters ==> FilterLoads(f, known)
  }

  ghost predicate ListenerLoads(l: Listener, known: set<string>) {
    && AddressLoads(l.address)
    && l.filterChains != []
    && (forall i, j :: 0 <= i < j < |l.filterChains| ==>
          l.filterChains[i].destinationPort != l.filterChains[j].destinationPort)
    && forall chain :: chain in l.filterChains ==> ChainLoads(chain, known)
  }

  ghost predicate Loads(s: Snapshot) {
    && (forall n :: n in s.clusters ==> ClusterLoads(s.clusters[n]))
    && (forall n :: n in s.listeners ==> ListenerLoads(s.listeners[n], s.clusters.Keys))
  }
}
