/** `buildListeners` and `buildClusters`: the routing language compiled to Envoy resources. */
module Compiler {
  import opened MeshTypes
  import opened Envoy
  import opened Text

  const BLACK_HOLE := "BlackHoleCluster"

  function VirtualHostName(port: uint32, i: nat): string {
    "http-" + FormatInt(port) + "-" + FormatInt(i)
  }

  function HttpStatPrefix(port: uint32): string { "http-" + FormatInt(port) }

  function TcpStatPrefix(port: uint32): string { "tcp-" + FormatInt(port) }

  function BlackHoleChain(): FilterChain {
    FilterChain(None, [TcpProxy("envoy.tcp_proxy", BLACK_HOLE, BLACK_HOLE)])
  }

  function CompileHttp(port: uint32, i: nat, h: Http): VirtualHost {
    VirtualHost(VirtualHostName(port, i), h.domains, [Route("/", h.cluster)])
  }

  function CompileHttps(port: uint32, http: seq<Http>): seq<VirtualHost> {
    seq(|http|, i requires 0 <= i < |http| => CompileHttp(port, i, http[i]))
  }

  function HttpFilter(port: uint32, vhosts: seq<VirtualHost>): NetworkFilter {
    HttpConnectionManager("envoy.http_connection_manager", HttpStatPrefix(port), "/dev/stdout",
                          RouteConfiguration("http-route-" + FormatInt(port), vhosts), ["envoy.router"])
  }

  function CompileFilter(f: Filter): FilterChain {
    FilterChain(Some(f.port),
                [if |f.http| > 0 then HttpFilter(f.port, CompileHttps(f.port, f.http))
                 else TcpProxy("envoy.tcp_proxy", TcpStatPrefix(f.port), f.tcp.cluster)])
  }

  function CompileFilters(filters: seq<Filter>): seq<FilterChain> {
    [BlackHoleChain()] + seq(|filters|, i requires 0 <= i < |filters| => CompileFilter(filters[i]))
  }

  function VirtualListener(chains: seq<FilterChain>): Listener {
    Listener("virtual", SocketAddress("0.0.0.0", 15001), ["envoy.listener.original_dst"], chains)
  }

  function CompileCluster(c: Cluster): EnvoyCluster {
    EnvoyCluster(c.name, 10, StrictDns, [SocketAddress(c.host, c.port)], true)
  }

  function CompileClusters(clusters: seq<Cluster>): seq<EnvoyCluster> {
    seq(|clusters|, i requires 0 <= i < |clusters| => CompileCluster(clusters[i]))
  }

  /** The snapshot that `update` stores for every pod a rule selects. */
  function CompileRule(version: nat, rule: Rule): (s: Snapshot)
    ensures s.version == version
  {
    NewSnapshot(version, CompileClusters(rule.clusters), [VirtualListener(CompileFilters(rule.filters))])
  }

  method BuildListeners(filters: seq<Filter>) returns (listeners: seq<Listener>)
    ensures listeners == [VirtualListener(CompileFilters(filters))]
  {
    var chains := [BlackHoleChain()];
    for n := 0 to |filters|
      invariant chains == CompileFilters(filters[..n])
    {
      var filter := filters[n];
      var chain := FilterChain(Some(filter.port), []);
      if |filter.http| > 0 {
        var vhosts: seq<VirtualHost> := [];
        for i := 0 to |filter.http|
          invariant vhosts == CompileHttps(filter.port, filter.http[..i])
        {
          var v := filter.http[i];
          vhosts := vhosts + [VirtualHost(VirtualHostName(filter.port, i), v.domains, [Route("/", v.cluster)])];
        }
        assert filter.http[..|filter.http|] == filter.http;
        chain := chain.(filters := [HttpFilter(filter.port, vhosts)]);
      } else {
        chain := chain.(filters := [TcpProxy("envoy.tcp_proxy", TcpStatPrefix(filter.port), filter.tcp.cluster)]);
      }
      chains := chains + [chain];
    }
    assert filters[..|filters|] == filters;
    listeners := [VirtualListener(chains)];
  }

  method BuildClusters(clusters: seq<Cluster>) returns (envoyClusters: seq<EnvoyCluster>)
    ensures envoyClusters == CompileClusters(clusters)
    ensures |envoyClusters| == |clusters|
    ensures forall i :: 0 <= i < |clusters| ==>
              && envoyClusters[i].name == clusters[i].name
              && envoyClusters[i].hosts == [SocketAddress(clusters[i].host, clusters[i].port)]
              && envoyClusters[i].discovery == StrictDns && envoyClusters[i].ipv4Only
              && envoyClusters[i].connectTimeoutSeconds == 10
  {
    envoyClusters := [];
    for n := 0 to |clusters|
      invariant envoyClusters == CompileClusters(clusters[..n])
    {
      var c := clusters[n];
      envoyClusters := envoyClusters
        + [EnvoyCluster(c.name, 10, StrictDns, [SocketAddress(c.host, c.port)], true)];
    }
    assert clusters[..|clusters|] == clusters;
  }

  // ---- What is emitted, field by field ----

  /** A declared cluster stands for every IPv4 address its host name resolves to, each at the declared port. */
  lemma ClusterEndpoints(c: Cluster, dns: Dns, a: SocketAddress)
    ensures a in Endpoints(CompileCluster(c), dns)
            <==> a.port == c.port
                 && if IsIpAddress(c.host) then a.address == c.host else a.address in dns.ipv4(c.host)
  {
    hide IsIpAddress;
    assert CompileCluster(c).hosts[0] == SocketAddress(c.host, c.port);
  }

  /** Only a cluster type that asks DNS takes a host name. */
  lemma HostNamesNeedDns(c: Cluster, discovery: DiscoveryType, letter: char)
    requires letter in c.host && !IsHexDigit(letter) && letter != '.' && letter != ':'
    requires ClusterLoads(CompileCluster(c))
    ensures ClusterLoads(CompileCluster(c).(discovery := discovery)) <==> discovery == StrictDns || discovery == LogicalDns
  {
    HostNamesAreNoAddresses(c.host, letter);
    assert CompileCluster(c).hosts[0].address == c.host;
    hide IsIpAddress;
  }

  predicate IsTcpProxy(f: NetworkFilter, stat: string, cluster: string) {
    f.TcpProxy? && f.name == "envoy.tcp_proxy" && f.statPrefix == stat && f.cluster == cluster
  }

  /** The listener takes every redirected connection, restores the original port, and has one chain without a match for
      the black hole and one chain per filter for the filter's port. */
  lemma EmittedListener(filters: seq<Filter>, n: nat)
    requires n < |filters|
    ensures var l, f := VirtualListener(CompileFilters(filters)), filters[n];
            && l.name == "virtual" && l.address.address == "0.0.0.0" && l.address.port == 15001
            && l.listenerFilters == ["envoy.listener.original_dst"]
            && |l.filterChains| == |filters| + 1
            && l.filterChains[0].destinationPort == None && |l.filterChains[0].filters| == 1
            && IsTcpProxy(l.filterChains[0].filters[0], "BlackHoleCluster", "BlackHoleCluster")
            && l.filterChains[n + 1].destinationPort == Some(f.port) && |l.filterChains[n + 1].filters| == 1
            && (f.http == [] ==>
                  IsTcpProxy(l.filterChains[n + 1].filters[0], "tcp-" + FormatInt(f.port), f.tcp.cluster))
            && (f.http != [] ==> IsHttpManager(l.filterChains[n + 1].filters[0], f))
  {
  }

  /** One virtual host per HTTP entry, with its domains, that sends every path to its cluster. */
  predicate IsHttpManager(m: NetworkFilter, f: Filter) {
    && m.HttpConnectionManager? && m.name == "envoy.http_connection_manager"
    && m.statPrefix == "http-" + FormatInt(f.port) && m.accessLogPath == "/dev/stdout" && m.httpFilters == ["envoy.router"]
    && m.routeConfig.name == "http-route-" + FormatInt(f.port)
    && |m.routeConfig.virtualHosts| == |f.http|
    && forall i :: 0 <= i < |f.http| ==>
         var v := m.routeConfig.virtualHosts[i];
         && v.name == "http-" + FormatInt(f.port) + "-" + FormatInt(i)
         && v.domains == f.http[i].domains
         && |v.routes| == 1 && v.routes[0].prefix == "/" && v.routes[0].cluster == f.http[i].cluster
  }

  // ---- Generated names ----

  lemma FormatIntHasNoDash(n: nat)
    ensures '-' !in FormatInt(n)
  {
    assert forall i :: 0 <= i < |Decimal(n)| ==> Decimal(n)[i] != '-';
  }

  /** `http-<port>-<i>` determines port and index. */
  lemma VirtualHostNameInjective(p: uint32, i: nat, q: uint32, j: nat)
    requires VirtualHostName(p, i) == VirtualHostName(q, j)
    ensures p == q && i == j
  {
    FormatIntHasNoDash(p);
    FormatIntHasNoDash(q);
    var a := VirtualHostName(p, i)[5..];
    assert a == FormatInt(p) + ['-'] + FormatInt(i);
    assert a == FormatInt(q) + ['-'] + FormatInt(j);
    SplitHalves(FormatInt(p), FormatInt(i), FormatInt(q), FormatInt(j), '-');
    FormatIntInjective(p, q);
    FormatIntInjective(i, j);
  }

  ghost predicate HasStatPrefix(chain: FilterChain, stat: string) {
    exists f :: f in chain.filters && f.statPrefix == stat
  }

  /** Chains for different ports, and the black hole, report under different names,
      and virtual hosts of one listener never share a name. */
  lemma GeneratedNamesDistinct(f: Filter, g: Filter, stat: string)
    requires HasStatPrefix(CompileFilter(f), stat)
    ensures HasStatPrefix(CompileFilter(g), stat) ==> f.port == g.port && (|f.http| > 0 <==> |g.http| > 0)
    ensures !HasStatPrefix(BlackHoleChain(), stat)
    ensures forall i, j :: 0 <= i < |f.http| && 0 <= j < |g.http|
              && CompileHttps(f.port, f.http)[i].name == CompileHttps(g.port, g.http)[j].name
              ==> f.port == g.port && i == j
  {
    assert stat == if |f.http| > 0 then HttpStatPrefix(f.port) else TcpStatPrefix(f.port);
    assert stat[0] == 'h' || stat[0] == 't';
    assert BLACK_HOLE[0] == 'B';
    if HasStatPrefix(CompileFilter(g), stat) {
      assert stat == if |g.http| > 0 then HttpStatPrefix(g.port) else TcpStatPrefix(g.port);
      assert HttpStatPrefix(f.port)[0] == 'h' && TcpStatPrefix(f.port)[0] == 't';
      assert HttpStatPrefix(g.port)[0] == 'h' && TcpStatPrefix(g.port)[0] == 't';
      assert HttpStatPrefix(f.port)[5..] == FormatInt(f.port) && TcpStatPrefix(f.port)[4..] == FormatInt(f.port);
      assert HttpStatPrefix(g.port)[5..] == FormatInt(g.port) && TcpStatPrefix(g.port)[4..] == FormatInt(g.port);
      FormatIntInjective(f.port, g.port);
    }
    forall i, j | 0 <= i < |f.http| && 0 <= j < |g.http|
                  && CompileHttps(f.port, f.http)[i].name == CompileHttps(g.port, g.http)[j].name
      ensures f.port == g.port && i == j
    {
      VirtualHostNameInjective(f.port, i, g.port, j);
    }
  }
}
