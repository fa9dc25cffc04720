/** What a rule of the routing language means, independent of Envoy's search algorithms and of
    the order in which filters and domains are written, and the proof that compiling keeps it. */
module Routing {
  import opened MeshTypes
  import opened Envoy
  import opened Compiler

  // ---- Meaning of the domains of a filter ----

  predicate StarInFront(d: string) { |d| > 1 && d[0] == '*' }

  predicate StarBehind(d: string) { |d| > 1 && d[0] != '*' && d[|d| - 1] == '*' }

  predicate IsJoined(host: string, front: string, back: string) { host == front + back }

  /** Something, and then s. */
  ghost predicate EndsIn(host: string, s: string) { exists a :: a != "" && IsJoined(host, a, s) }

  /** s, and then something. */
  ghost predicate StartsWith(host: string, s: string) { exists a :: a != "" && IsJoined(host, s, a) }

  /** What a user means by a domain: a star at one end stands for one or more characters, `*` alone for any
      host, and everything else for itself. */
  ghost predicate Matches(d: string, host: string) {
    if d == "*" then true
    else if StarInFront(d) then EndsIn(host, d[1..])
    else if StarBehind(d) then StartsWith(host, d[..|d| - 1])
    else host == d
  }

  /** Plain domains come first, then stars in front, then stars behind, then `*`. */
  function Precedence(d: string): nat {
    if d == "*" then 0 else if StarInFront(d) then 2 else if StarBehind(d) then 1 else 3
  }

  /** Among domains of one kind the longer one is more specific. */
  predicate Beats(d: string, e: string) {
    Precedence(d) > Precedence(e) || (Precedence(d) == Precedence(e) && |d| > |e|)
  }

  /** A domain together with the cluster it is bound to. */
  type Binding = (string, string)

  predicate Binds(http: seq<Http>, i: nat, j: nat, d: string) {
    i < |http| && j < |http[i].domains| && http[i].domains[j] == d
  }

  ghost predicate HasBinding(http: seq<Http>, b: Binding) {
    exists i: nat, j: nat :: Binds(http, i, j, b.0) && http[i].cluster == b.1
  }

  ghost predicate Winner(http: seq<Http>, host: string, b: Binding) {
    && HasBinding(http, b)
    && Matches(b.0, host)
    && forall c :: HasBinding(http, c) && Matches(c.0, host) ==> c == b || Beats(b.0, c.0)
  }

  /** The cluster of the most specific binding that covers the host. */
  ghost function HostMeaning(http: seq<Http>, host: string): Option<string> {
    if exists b :: Winner(http, host, b) then
      var b :| Winner(http, host, b);
      Some(b.1)
    else None
  }

  lemma WinnerUnique(http: seq<Http>, host: string, b: Binding, c: Binding)
    requires Winner(http, host, b) && Winner(http, host, c)
    ensures b == c
  {
  }

  // ---- Meaning of a rule ----

  /** The last declaration of a name counts. */
  function Declared(clusters: seq<Cluster>, name: string): (r: Option<Cluster>)
    ensures r.Some? ==> r.value in clusters && r.value.name == name
    ensures r.None? ==> forall c :: c in clusters ==> c.name != name
  {
    if clusters == [] then None
    else if clusters[|clusters| - 1].name == name then Some(clusters[|clusters| - 1])
    else Declared(clusters[..|clusters| - 1], name)
  }

  function Reach(clusters: seq<Cluster>, name: string, missing: Outcome): Outcome {
    match Declared(clusters, name)
    case Some(c) => Upstream([SocketAddress(c.host, c.port)])
    case None => missing
  }

  function FilterAt(filters: seq<Filter>, port: uint32): (r: Option<Filter>)
    ensures r.Some? ==> r.value in filters && r.value.port == port
    ensures r.None? ==> forall f :: f in filters ==> f.port != port
  {
    if filters == [] then None
    else if filters[0].port == port then Some(filters[0])
    else FilterAt(filters[1..], port)
  }

  predicate Listed(rule: Rule, port: uint32) {
    exists f :: f in rule.filters && f.port == port
  }

  ghost function FilterMeaning(f: Filter, clusters: seq<Cluster>, host: string): Outcome {
    if f.http == [] then Reach(clusters, f.tcp.cluster, Closed)
    else
      match HostMeaning(f.http, host)
      case Some(cluster) => Reach(clusters, cluster, NotFound)
      case None => NotFound
  }

  /** Listed ports go where their filter says, every other port goes nowhere. */
  ghost function Meaning(rule: Rule, c: Connection): Outcome {
    if !Loadable(rule) then Unloadable
    else
      match FilterAt(rule.filters, c.originalPort)
      case Some(f) => FilterMeaning(f, rule.clusters, c.host)
      case None => Closed
  }

  // ---- Rules a proxy accepts ----

  ghost predicate DomainsDistinct(http: seq<Http>) {
    forall i, j, k, l, d :: Binds(http, i, j, d) && Binds(http, k, l, d) ==> i == k && j == l
  }

  ghost predicate HttpLoadable(http: seq<Http>, clusters: seq<Cluster>) {
    && DomainsDistinct(http)
    && forall h :: h in http ==> h.domains != [] && Declared(clusters, h.cluster).Some?
  }

  predicate ClusterLoadable(c: Cluster) { c.name != "" && c.host != "" && c.port <= 65535 }

  ghost predicate FilterLoadable(f: Filter, clusters: seq<Cluster>) {
    1 <= f.port <= 65535 && HttpLoadable(f.http, clusters)
  }

  predicate PortsDistinct(filters: seq<Filter>) {
    forall i, j :: 0 <= i < j < |filters| ==> filters[i].port != filters[j].port
  }

  /** Overridden declarations are not looked at. */
  predicate ClustersLoadable(clusters: seq<Cluster>) {
    forall c :: c in clusters && Declared(clusters, c.name) == Some(c) ==> ClusterLoadable(c)
  }

  ghost predicate Loadable(rule: Rule) {
    && PortsDistinct(rule.filters)
    && (forall f :: f in rule.filters ==> FilterLoadable(f, rule.clusters))
    && ClustersLoadable(rule.clusters)
  }

  /** A connection the sidecar's iptables rules send to the proxy, with an absolute path. */
  predicate Intercepted(c: Connection) {
    c.redirectedTo == 15001 && "/" <= c.path
  }

  // ---- Clusters of the snapshot ----

  lemma {:induction false} IndexedClusters(clusters: seq<Cluster>, name: string)
    ensures var m := IndexByName(CompileClusters(clusters), ClusterName);
            && (name in m <==> Declared(clusters, name).Some?)
            && (name in m ==> m[name] == CompileCluster(Declared(clusters, name).value))
  {
    if clusters != [] {
      var last := |clusters| - 1;
      IndexedClusters(clusters[..last], name);
      assert CompileClusters(clusters)[..last] == CompileClusters(clusters[..last]);
    }
  }

  lemma SnapshotParts(version: nat, rule: Rule)
    ensures var s := CompileRule(version, rule);
            && s.listeners == map["virtual" := VirtualListener(CompileFilters(rule.filters))]
            && (forall n :: n in s.clusters <==> Declared(rule.clusters, n).Some?)
            && (forall n :: n in s.clusters ==> s.clusters[n] == CompileCluster(Declared(rule.clusters, n).value)
                                                && s.clusters[n].name == n)
  {
    forall n ensures var m := IndexByName(CompileClusters(rule.clusters), ClusterName);
                     && (n in m <==> Declared(rule.clusters, n).Some?)
                     && (n in m ==> m[n] == CompileCluster(Declared(rule.clusters, n).value))
    {
      IndexedClusters(rule.clusters, n);
    }
    var l := VirtualListener(CompileFilters(rule.filters));
    assert [l][..0] == [];
  }

  lemma ForwardReaches(version: nat, rule: Rule, name: string, missing: Outcome)
    ensures Forward(CompileRule(version, rule).clusters, name, missing) == Reach(rule.clusters, name, missing)
  {
    SnapshotParts(version, rule);
  }

  // ---- Acceptance ----

  lemma DomainsAgree(port: uint32, http: seq<Http>)
    ensures DomainsUnique(CompileHttps(port, http)) <==> DomainsDistinct(http)
  {
    var vhosts := CompileHttps(port, http);
    assert forall i: nat, j: nat, d :: IsDomain(vhosts, i, j, d) <==> Binds(http, i, j, d);
  }

  lemma HttpAgrees(port: uint32, http: seq<Http>, clusters: seq<Cluster>, known: set<string>)
    requires forall n :: n in known <==> Declared(clusters, n).Some?
    requires "" !in known
    ensures FilterLoads(HttpFilter(port, CompileHttps(port, http)), known) <==> HttpLoadable(http, clusters)
  {
    var vhosts := CompileHttps(port, http);
    DomainsAgree(port, http);
    if FilterLoads(HttpFilter(port, vhosts), known) {
      forall h | h in http ensures h.domains != [] && Declared(clusters, h.cluster).Some? {
        var i :| 0 <= i < |http| && http[i] == h;
        assert vhosts[i] in vhosts && vhosts[i].routes[0] in vhosts[i].routes;
      }
    }
    if HttpLoadable(http, clusters) {
      forall v | v in vhosts ensures VirtualHostLoads(v, known) {
        var i :| 0 <= i < |vhosts| && vhosts[i] == v;
        assert http[i] in http;
        assert VirtualHostName(port, i)[0] == 'h';
      }
      assert HttpStatPrefix(port)[0] == 'h';
    }
  }

  lemma FilterAgrees(f: Filter, clusters: seq<Cluster>, known: set<string>)
    requires forall n :: n in known <==> Declared(clusters, n).Some?
    requires "" !in known
    ensures ChainLoads(CompileFilter(f), known) <==> FilterLoadable(f, clusters)
  {
    var chain := CompileFilter(f);
    assert chain.filters[0] in chain.filters;
    assert TcpStatPrefix(f.port)[0] == 't';
    if f.http != [] {
      HttpAgrees(f.port, f.http, clusters, known);
    }
  }

  lemma ClusterAgrees(c: Cluster)
    ensures ClusterLoads(CompileCluster(c)) <==> ClusterLoadable(c)
  {
    var e := CompileCluster(c);
    assert e.hosts[0] in e.hosts;
  }

  lemma ClustersAgree(version: nat, rule: Rule)
    ensures var m := CompileRule(version, rule).clusters;
            (forall n :: n in m ==> ClusterLoads(m[n])) <==> ClustersLoadable(rule.clusters)
  {
    var m := CompileRule(version, rule).clusters;
    SnapshotParts(version, rule);
    forall n | n in m ensures ClusterLoads(m[n]) <==> ClusterLoadable(Declared(rule.clusters, n).value) {
      ClusterAgrees(Declared(rule.clusters, n).value);
    }
    if forall n :: n in m ==> ClusterLoads(m[n]) {
      forall c | c in rule.clusters && Declared(rule.clusters, c.name) == Some(c) ensures ClusterLoadable(c) {
        assert c.name in m;
      }
    }
    if ClustersLoadable(rule.clusters) {
      forall n | n in m ensures ClusterLoads(m[n]) {
        assert Declared(rule.clusters, n).value in rule.clusters;
      }
    }
  }

  lemma ChainsOf(filters: seq<Filter>)
    ensures var chains := CompileFilters(filters);
            && |chains| == |filters| + 1 && chains[0] == BlackHoleChain()
            && forall i :: 0 <= i < |filters| ==> chains[i + 1] == CompileFilter(filters[i])
  {
    hide CompileFilter, BlackHoleChain;
  }

  lemma PortsAgree(filters: seq<Filter>)
    ensures var chains := CompileFilters(filters);
            (forall i, j :: 0 <= i < j < |chains| ==> chains[i].destinationPort != chains[j].destinationPort)
            <==> PortsDistinct(filters)
  {
    var chains := CompileFilters(filters);
    ChainsOf(filters);
    if forall i, j :: 0 <= i < j < |chains| ==> chains[i].destinationPort != chains[j].destinationPort {
      forall i, j | 0 <= i < j < |filters| ensures filters[i].port != filters[j].port {
        assert chains[i + 1].destinationPort != chains[j + 1].destinationPort;
      }
    }
  }

  lemma FiltersAgree(filters: seq<Filter>, clusters: seq<Cluster>, known: set<string>)
    requires forall n :: n in known <==> Declared(clusters, n).Some?
    requires "" !in known
    ensures (forall chain :: chain in CompileFilters(filters) ==> ChainLoads(chain, known))
            <==> (forall f :: f in filters ==> FilterLoadable(f, clusters))
  {
    var chains := CompileFilters(filters);
    ChainsOf(filters);
    forall f: Filter ensures ChainLoads(CompileFilter(f), known) <==> FilterLoadable(f, clusters) {
      FilterAgrees(f, clusters, known);
    }
    assert ChainLoads(BlackHoleChain(), known);
    if forall chain :: chain in chains ==> ChainLoads(chain, known) {
      forall f | f in filters ensures FilterLoadable(f, clusters) {
        var i :| 0 <= i < |filters| && filters[i] == f;
        assert chains[i + 1] in chains;
      }
    }
    if forall f :: f in filters ==> FilterLoadable(f, clusters) {
      forall chain | chain in chains ensures ChainLoads(chain, known) {
        var i :| 0 <= i < |chains| && chains[i] == chain;
        if i > 0 {
          assert filters[i - 1] in filters && chain == CompileFilter(filters[i - 1]);
        }
      }
    }
  }

  /** A proxy accepts the compiled rule exactly if the rule is loadable. */
  lemma AcceptedIffLoadable(version: nat, rule: Rule)
    ensures Loads(CompileRule(version, rule)) <==> Loadable(rule)
  {
    var s := CompileRule(version, rule);
    SnapshotParts(version, rule);
    ClustersAgree(version, rule);
    PortsAgree(rule.filters);
    if forall n :: n in s.clusters ==> ClusterLoads(s.clusters[n]) {
      var known := s.clusters.Keys;
      FiltersAgree(rule.filters, rule.clusters, known);
      ChainsOf(rule.filters);
      assert "virtual" in s.listeners;
      assert Loads(s) <==> ListenerLoads(s.listeners["virtual"], known);
    }
  }

  predicate OnlyOfItsName(clusters: seq<Cluster>, c: Cluster) {
    c in clusters && forall d :: d in clusters && d.name == c.name ==> d == c
  }

  /** Each of these alone makes a proxy refuse a rule. */
  lemma RefusedRules(version: nat, rule: Rule, f: Filter, h: Http, c: Cluster, i: nat, j: nat)
    ensures i < j < |rule.filters| && rule.filters[i].port == rule.filters[j].port ==> !Loads(CompileRule(version, rule))
    ensures f in rule.filters && (f.port == 0 || f.port > 65535) ==> !Loads(CompileRule(version, rule))
    ensures f in rule.filters && h in f.http && h.domains == [] ==> !Loads(CompileRule(version, rule))
    ensures f in rule.filters && h in f.http && (forall d :: d in rule.clusters ==> d.name != h.cluster) ==>
              !Loads(CompileRule(version, rule))
    ensures f in rule.filters && h in f.http && i < j < |h.domains| && h.domains[i] == h.domains[j] ==>
              !Loads(CompileRule(version, rule))
    ensures (c.name == "" || c.host == "" || c.port > 65535) && OnlyOfItsName(rule.clusters, c) ==>
              !Loads(CompileRule(version, rule))
  {
    AcceptedIffLoadable(version, rule);
    if f in rule.filters && h in f.http && i < j < |h.domains| && h.domains[i] == h.domains[j] {
      var k :| 0 <= k < |f.http| && f.http[k] == h;
      assert Binds(f.http, k, i, h.domains[i]) && Binds(f.http, k, j, h.domains[i]);
    }
  }

  // ---- How Envoy's patterns rank ----

  predicate Covers(p: DomainPattern, host: string) {
    match p
    case Exact(name) => name == host
    case SuffixWildcard(s) => |s| < |host| && host[|host| - |s|..] == s
    case PrefixWildcard(s) => |s| < |host| && host[..|s|] == s
    case AnyHost => true
  }

  function Tier(p: DomainPattern): nat {
    match p
    case Exact(_) => 3
    case SuffixWildcard(_) => 2
    case PrefixWildcard(_) => 1
    case AnyHost => 0
  }

  function Width(p: DomainPattern): nat {
    match p
    case Exact(s) => |s|
    case SuffixWildcard(s) => |s|
    case PrefixWildcard(s) => |s|
    case AnyHost => 0
  }

  /** The more specific kind of pattern wins, among equals the longer one. */
  predicate Outranks(p: DomainPattern, q: DomainPattern) {
    Tier(p) > Tier(q) || (Tier(p) == Tier(q) && Width(p) > Width(q))
  }

  /** Reading a domain as a pattern gives what its owner means. */
  lemma MatchesIsCovers(d: string, host: string)
    ensures Matches(d, host) <==> Covers(ParseDomain(d), host)
  {
    if StarInFront(d) {
      var s := d[1..];
      if Covers(ParseDomain(d), host) {
        assert IsJoined(host, host[..|host| - |s|], s);
      }
    } else if StarBehind(d) {
      var s := d[..|d| - 1];
      if Covers(ParseDomain(d), host) {
        assert IsJoined(host, s, host[|s|..]);
      }
    }
  }

  lemma BeatsIsOutranks(d: string, e: string)
    ensures Beats(d, e) <==> Outranks(ParseDomain(d), ParseDomain(e))
  {
  }

  /** Domains on the text itself: which hosts each of the four kinds covers. */
  lemma DomainsCover(s: string, host: string)
    ensures s != "" ==> (Covers(ParseDomain("*" + s), host) <==> |s| < |host| && host[|host| - |s|..] == s)
    ensures s != "" && s[0] != '*' ==> (Covers(ParseDomain(s + "*"), host) <==> |s| < |host| && s <= host)
    ensures Covers(ParseDomain("*"), host)
    ensures s == "" || (s[0] != '*' && s[|s| - 1] != '*') ==> (Covers(ParseDomain(s), host) <==> host == s)
  {
    assert ("*" + s)[1..] == s && (s + "*")[..|s|] == s;
  }

  // ---- Virtual host search finds the most specific pattern ----

  lemma ParseDomainInjective(d: string, e: string)
    requires ParseDomain(d) == ParseDomain(e)
    ensures d == e
  {
    match ParseDomain(d)
    case SuffixWildcard(s) => assert d == "*" + s == e;
    case PrefixWildcard(s) => assert d == s + "*" == e;
    case Exact(_) =>
    case AnyHost =>
  }

  lemma WildcardsNotEmpty(d: string)
    ensures ParseDomain(d).SuffixWildcard? ==> ParseDomain(d).suffix != ""
    ensures ParseDomain(d).PrefixWildcard? ==> ParseDomain(d).prefix != ""
  {
  }

  /** Some virtual host lists a pattern that covers the host. */
  ghost predicate Candidate(vhosts: seq<VirtualHost>, host: string, v: VirtualHost, p: DomainPattern) {
    v in vhosts && Lists(v, p) && Covers(p, host)
  }

  ghost predicate SuffixCandidate(vhosts: seq<VirtualHost>, host: string, n: nat, v: VirtualHost, p: DomainPattern) {
    p.SuffixWildcard? && 1 <= |p.suffix| <= n && Candidate(vhosts, host, v, p)
  }

  ghost predicate PrefixCandidate(vhosts: seq<VirtualHost>, host: string, n: nat, v: VirtualHost, p: DomainPattern) {
    p.PrefixWildcard? && 1 <= |p.prefix| <= n && Candidate(vhosts, host, v, p)
  }

  lemma {:induction false} LongestSuffixFinds(vhosts: seq<VirtualHost>, host: string, n: nat)
    returns (p: DomainPattern)
    requires n < |host| || n == 0
    ensures var r := LongestSuffix(vhosts, host, n);
            if r.None? then forall w, q :: !SuffixCandidate(vhosts, host, n, w, q)
            else SuffixCandidate(vhosts, host, n, r.value, p)
                 && forall w, q :: SuffixCandidate(vhosts, host, n, w, q) ==> Width(q) <= Width(p)
  {
    p := AnyHost;
    if n > 0 {
      p := SuffixWildcard(host[|host| - n..]);
      if FindHost(vhosts, p).None? {
        forall w, q | SuffixCandidate(vhosts, host, n, w, q) ensures SuffixCandidate(vhosts, host, n - 1, w, q) {
          assert |q.suffix| == n ==> q == p;
        }
        p := LongestSuffixFinds(vhosts, host, n - 1);
      }
    }
  }

  lemma {:induction false} LongestPrefixFinds(vhosts: seq<VirtualHost>, host: string, n: nat)
    returns (p: DomainPattern)
    requires n < |host| || n == 0
    ensures var r := LongestPrefix(vhosts, host, n);
            if r.None? then forall w, q :: !PrefixCandidate(vhosts, host, n, w, q)
            else PrefixCandidate(vhosts, host, n, r.value, p)
                 && forall w, q :: PrefixCandidate(vhosts, host, n, w, q) ==> Width(q) <= Width(p)
  {
    p := AnyHost;
    if n > 0 {
      p := PrefixWildcard(host[..n]);
      if FindHost(vhosts, p).None? {
        forall w, q | PrefixCandidate(vhosts, host, n, w, q) ensures PrefixCandidate(vhosts, host, n - 1, w, q) {
          assert |q.prefix| == n ==> q == p;
        }
        p := LongestPrefixFinds(vhosts, host, n - 1);
      }
    }
  }

  lemma WildcardCandidates(vhosts: seq<VirtualHost>, host: string, v: VirtualHost, p: DomainPattern)
    requires Candidate(vhosts, host, v, p)
    ensures p.SuffixWildcard? ==> SuffixCandidate(vhosts, host, LongestWildcard(host), v, p)
    ensures p.PrefixWildcard? ==> PrefixCandidate(vhosts, host, LongestWildcard(host), v, p)
  {
    var i :| 0 <= i < |v.domains| && ParseDomain(v.domains[i]) == p;
    WildcardsNotEmpty(v.domains[i]);
  }

  /** The tiered search returns a host with a most specific covering pattern, if there is any. */
  lemma SearchFindsMostSpecific(vhosts: seq<VirtualHost>, host: string) returns (p: DomainPattern)
    ensures var r := SelectVirtualHost(vhosts, host);
            if r.None? then forall w, q :: !Candidate(vhosts, host, w, q)
            else Candidate(vhosts, host, r.value, p)
                 && forall w, q :: Candidate(vhosts, host, w, q) ==> !Outranks(q, p)
  {
    var n := LongestWildcard(host);
    var ps := LongestSuffixFinds(vhosts, host, n);
    var pp := LongestPrefixFinds(vhosts, host, n);
    p := if FindHost(vhosts, Exact(host)).Some? then Exact(host)
         else if LongestSuffix(vhosts, host, n).Some? then ps
         else if LongestPrefix(vhosts, host, n).Some? then pp
         else AnyHost;
    forall w, q | Candidate(vhosts, host, w, q) ensures SelectVirtualHost(vhosts, host).Some? && !Outranks(q, p) {
      WildcardCandidates(vhosts, host, w, q);
    }
  }

  /** Some virtual host lists a domain that matches the host. */
  predicate ListsDomain(v: VirtualHost, d: string) { d in v.domains }

  /** The search on the domains as they are written: it finds a virtual host exactly if some listed domain matches,
      and then one whose domain no other matching domain beats. */
  lemma SearchOnDomains(vhosts: seq<VirtualHost>, host: string) returns (d: string)
    ensures var r := SelectVirtualHost(vhosts, host);
            if r.None? then forall w, e :: w in vhosts && ListsDomain(w, e) ==> !Matches(e, host)
            else r.value in vhosts && ListsDomain(r.value, d) && Matches(d, host)
                 && forall w, e :: w in vhosts && ListsDomain(w, e) && Matches(e, host) ==> !Beats(e, d)
  {
    var p := SearchFindsMostSpecific(vhosts, host);
    var r := SelectVirtualHost(vhosts, host);
    d := "";
    if r.Some? {
      var i :| 0 <= i < |r.value.domains| && ParseDomain(r.value.domains[i]) == p;
      d := r.value.domains[i];
      MatchesIsCovers(d, host);
    }
    forall w, e | w in vhosts && ListsDomain(w, e) && Matches(e, host)
      ensures r.Some? && !Beats(e, d)
    {
      MatchesIsCovers(e, host);
      BeatsIsOutranks(e, d);
      var i :| 0 <= i < |w.domains| && w.domains[i] == e;
      assert Lists(w, ParseDomain(e));
      assert Candidate(vhosts, host, w, ParseDomain(e));
    }
  }

  /** Two patterns of equal rank that cover the same host are the same pattern. */
  lemma PatternsDoNotTie(p: DomainPattern, q: DomainPattern, host: string)
    requires Covers(p, host) && Covers(q, host)
    requires !Outranks(p, q) && !Outranks(q, p)
    ensures p == q
  {
  }

  lemma ListedIsBound(port: uint32, http: seq<Http>, v: VirtualHost, d: string) returns (b: Binding)
    requires v in CompileHttps(port, http) && ListsDomain(v, d)
    ensures HasBinding(http, b) && b.0 == d && v.routes == [Route("/", b.1)]
  {
    var vhosts := CompileHttps(port, http);
    var i :| 0 <= i < |vhosts| && vhosts[i] == v;
    var j :| 0 <= j < |v.domains| && v.domains[j] == d;
    b := (d, http[i].cluster);
    assert Binds(http, i, j, d);
  }

  lemma BoundIsListed(port: uint32, http: seq<Http>, b: Binding) returns (v: VirtualHost)
    requires HasBinding(http, b)
    ensures v in CompileHttps(port, http) && ListsDomain(v, b.0)
  {
    var i: nat, j: nat :| Binds(http, i, j, b.0) && http[i].cluster == b.1;
    v := CompileHttps(port, http)[i];
    assert v.domains[j] == b.0;
  }

  /** The search order on the characters of the domains: the host itself first, then the longest domain with a star
      in front, then the longest with a star behind, and `*` only when nothing else matches. */
  lemma SearchOrder(vhosts: seq<VirtualHost>, host: string, w: VirtualHost, e: string) returns (d: string)
    requires w in vhosts && ListsDomain(w, e) && Matches(e, host)
    ensures var r := SelectVirtualHost(vhosts, host);
            && r.Some? && r.value in vhosts && ListsDomain(r.value, d) && Matches(d, host)
            && (e == host && (host == "" || (host[0] != '*' && host[|host| - 1] != '*')) ==> d == host)
            && (|e| > 1 && e[0] == '*' ==> d == host || (|d| >= |e| && d[0] == '*'))
            && (|e| > 1 && e[|e| - 1] == '*' && e[0] != '*' ==>
                  d == host || (|d| > 1 && d[0] == '*') || (|d| >= |e| && d[|d| - 1] == '*'))
  {
    d := SearchOnDomains(vhosts, host);
  }

  /** Matching domains that do not beat each other are the same. */
  lemma NoTies(d: string, e: string, host: string)
    requires Matches(d, host) && Matches(e, host)
    requires !Beats(d, e) && !Beats(e, d)
    ensures d == e
  {
    MatchesIsCovers(d, host);
    MatchesIsCovers(e, host);
    BeatsIsOutranks(d, e);
    BeatsIsOutranks(e, d);
    PatternsDoNotTie(ParseDomain(d), ParseDomain(e), host);
    ParseDomainInjective(d, e);
  }

  /** The virtual host Envoy selects routes to the cluster the domains mean. */
  lemma VirtualHostsMean(port: uint32, http: seq<Http>, host: string)
    requires DomainsDistinct(http)
    ensures var r := SelectVirtualHost(CompileHttps(port, http), host);
            match HostMeaning(http, host)
            case None => r.None?
            case Some(cluster) => r.Some? && r.value.routes == [Route("/", cluster)]
  {
    hide Matches, Beats;
    var vhosts := CompileHttps(port, http);
    var d := SearchOnDomains(vhosts, host);
    var r := SelectVirtualHost(vhosts, host);
    if r.None? {
      forall b ensures !Winner(http, host, b) {
        if Winner(http, host, b) {
          var v := BoundIsListed(port, http, b);
        }
      }
    } else {
      var b := ListedIsBound(port, http, r.value, d);
      forall c | HasBinding(http, c) && Matches(c.0, host)
        ensures c == b || Beats(d, c.0)
      {
        var v := BoundIsListed(port, http, c);
        if !Beats(d, c.0) {
          NoTies(d, c.0, host);
        }
      }
      assert Winner(http, host, b);
      forall c | Winner(http, host, c) ensures c == b {
        WinnerUnique(http, host, b, c);
      }
    }
  }

  // ---- Chain selection ----

  lemma {:induction false} SelectChainFinds(chains: seq<FilterChain>, i: nat)
    requires i < |chains|
    requires forall j :: 0 <= j < i ==> chains[j].destinationPort != chains[i].destinationPort
    ensures SelectChain(chains, chains[i].destinationPort) == Some(chains[i])
  {
    if i > 0 {
      SelectChainFinds(chains[1..], i - 1);
    }
  }

  lemma {:induction false} SelectChainMisses(chains: seq<FilterChain>, wanted: Option<uint32>)
    requires forall j :: 0 <= j < |chains| ==> chains[j].destinationPort != wanted
    ensures SelectChain(chains, wanted) == None
  {
    if chains != [] {
      SelectChainMisses(chains[1..], wanted);
    }
  }

  lemma ChainForListed(filters: seq<Filter>, i: nat)
    requires PortsDistinct(filters) && i < |filters|
    ensures ChainFor(CompileFilters(filters), filters[i].port) == Some(CompileFilter(filters[i]))
  {
    var chains := CompileFilters(filters);
    ChainsOf(filters);
    forall j | 0 <= j < i + 1 ensures chains[j].destinationPort != chains[i + 1].destinationPort {
      assert j > 0 ==> chains[j].destinationPort == Some(filters[j - 1].port);
    }
    SelectChainFinds(chains, i + 1);
  }

  lemma ChainForUnlisted(filters: seq<Filter>, port: uint32)
    requires forall f :: f in filters ==> f.port != port
    ensures ChainFor(CompileFilters(filters), port) == Some(BlackHoleChain())
  {
    var chains := CompileFilters(filters);
    ChainsOf(filters);
    forall j | 0 <= j < |chains| ensures chains[j].destinationPort != Some(port) {
      assert j > 0 ==> chains[j].destinationPort == Some(filters[j - 1].port) && filters[j - 1] in filters;
    }
    SelectChainMisses(chains, Some(port));
    SelectChainFinds(chains, 0);
  }

  /** The black hole comes first in the list and is still only the fallback. */
  lemma ChainForPort(filters: seq<Filter>, port: uint32)
    requires PortsDistinct(filters)
    ensures var r := ChainFor(CompileFilters(filters), port);
            match FilterAt(filters, port)
            case Some(f) => r == Some(CompileFilter(f))
            case None => r == Some(BlackHoleChain())
  {
    match FilterAt(filters, port)
    case Some(f) =>
      var i :| 0 <= i < |filters| && filters[i] == f;
      ChainForListed(filters, i);
    case None =>
      ChainForUnlisted(filters, port);
  }

  // ---- Preservation ----

  lemma FilterServed(version: nat, rule: Rule, f: Filter, c: Connection)
    requires Intercepted(c) && DomainsDistinct(f.http)
    ensures ServeChain(CompileFilter(f), CompileRule(version, rule).clusters, c) == FilterMeaning(f, rule.clusters, c.host)
  {
    var clusters := CompileRule(version, rule).clusters;
    if f.http == [] {
      ForwardReaches(version, rule, f.tcp.cluster, Closed);
    } else {
      VirtualHostsMean(f.port, f.http, c.host);
      if HostMeaning(f.http, c.host).Some? {
        var cluster := HostMeaning(f.http, c.host).value;
        assert SelectRoute([Route("/", cluster)], c.path) == Some(Route("/", cluster));
        ForwardReaches(version, rule, cluster, NotFound);
      }
    }
  }

  /** Where the compiled rule sends a connection, for every rule. */
  lemma CompiledServes(version: nat, rule: Rule, c: Connection)
    requires Intercepted(c)
    ensures Serve(CompileRule(version, rule), c) ==
            if Loadable(rule) && FilterAt(rule.filters, c.originalPort).None?
            then Reach(rule.clusters, BLACK_HOLE, Closed)
            else Meaning(rule, c)
  {
    var s := CompileRule(version, rule);
    AcceptedIffLoadable(version, rule);
    if Loadable(rule) {
      SnapshotParts(version, rule);
      var virtual := VirtualListener(CompileFilters(rule.filters));
      assert "virtual" in s.listeners && s.listeners["virtual"] == virtual;
      assert ListensFor(s, c, virtual);
      assert Serve(s, c) == ServeListener(virtual, s.clusters, c);
      ChainForPort(rule.filters, c.originalPort);
      match FilterAt(rule.filters, c.originalPort)
      case Some(f) => FilterServed(version, rule, f, c);
      case None => ForwardReaches(version, rule, BLACK_HOLE, Closed);
    }
  }

  /** Compilation preserves meaning on every rule and connection, except when a rule declares
      a cluster with the black hole's name and the connection goes to a port it does not list. */
  lemma CompilationPreservesRouting(version: nat, rule: Rule, c: Connection)
    requires Intercepted(c)
    ensures Serve(CompileRule(version, rule), c) == Meaning(rule, c)
            <==> !Loadable(rule) || Listed(rule, c.originalPort) || Declared(rule.clusters, BLACK_HOLE).None?
  {
    CompiledServes(version, rule, c);
  }

  /** The exception is real: a rule that a proxy accepts, and a connection the black hole should have had. */
  lemma DeclaredBlackHoleLeaks(version: nat)
    ensures var rule, c := Rule(map[], [], [Cluster(BLACK_HOLE, "h", 80)]), Connection(15001, 80, "x", "/");
            && Loadable(rule) && Intercepted(c)
            && Serve(CompileRule(version, rule), c) == Upstream([SocketAddress("h", 80)]) && Meaning(rule, c) == Closed
  {
    var rule, c := Rule(map[], [], [Cluster(BLACK_HOLE, "h", 80)]), Connection(15001, 80, "x", "/");
    assert Loadable(rule);
    CompiledServes(version, rule, c);
  }

  // ---- Where connections go, on the rule's own fields ----

  lemma ReachesOnly(clusters: seq<Cluster>, d: Cluster, missing: Outcome)
    requires OnlyOfItsName(clusters, d)
    ensures Reach(clusters, d.name, missing) == Upstream([SocketAddress(d.host, d.port)])
  {
  }

  /** A port with a TCP cluster only: to the declared address, or closed if nothing is declared under that name. */
  lemma TcpConnections(version: nat, rule: Rule, f: Filter, c: Connection, d: Cluster)
    requires Loadable(rule) && Intercepted(c) && f in rule.filters && f.port == c.originalPort && f.http == []
    ensures OnlyOfItsName(rule.clusters, d) && d.name == f.tcp.cluster ==>
              Serve(CompileRule(version, rule), c) == Upstream([SocketAddress(d.host, d.port)])
    ensures (forall e :: e in rule.clusters ==> e.name != f.tcp.cluster) ==> Serve(CompileRule(version, rule), c) == Closed
  {
    FilterAtUnique(rule.filters, f);
    CompiledServes(version, rule, c);
    if OnlyOfItsName(rule.clusters, d) && d.name == f.tcp.cluster {
      ReachesOnly(rule.clusters, d, Closed);
    }
    hide Serve, CompileRule, Loadable;
  }

  /** A port with HTTP entries: to the cluster of the entry whose domain matches the host and beats every other matching
      one, and nowhere (404) if none matches. */
  lemma HttpConnections(version: nat, rule: Rule, f: Filter, c: Connection, h: Http, domain: string, d: Cluster)
    requires Loadable(rule) && Intercepted(c) && f in rule.filters && f.port == c.originalPort && f.http != []
    ensures h in f.http && domain in h.domains && Matches(domain, c.host)
            && (forall g, e :: g in f.http && ListsHttp(g, e) && Matches(e, c.host) && e != domain ==> Beats(domain, e))
            && OnlyOfItsName(rule.clusters, d) && d.name == h.cluster
            ==> Serve(CompileRule(version, rule), c) == Upstream([SocketAddress(d.host, d.port)])
    ensures (forall g, e :: g in f.http && ListsHttp(g, e) ==> !Matches(e, c.host)) ==>
              Serve(CompileRule(version, rule), c) == NotFound
  {
    FilterAtUnique(rule.filters, f);
    CompiledServes(version, rule, c);
    hide Matches, Beats, Serve, CompileRule;
    if h in f.http && domain in h.domains && Matches(domain, c.host)
       && (forall g, e :: g in f.http && ListsHttp(g, e) && Matches(e, c.host) && e != domain ==> Beats(domain, e))
       && OnlyOfItsName(rule.clusters, d) && d.name == h.cluster {
      BestDomainWins(f.http, c.host, h, domain);
      ReachesOnly(rule.clusters, d, NotFound);
    }
    if forall g, e :: g in f.http && ListsHttp(g, e) ==> !Matches(e, c.host) {
      forall b ensures !Winner(f.http, c.host, b) {
        if HasBinding(f.http, b) {
          var i: nat, j: nat :| Binds(f.http, i, j, b.0) && f.http[i].cluster == b.1;
          assert ListsHttp(f.http[i], b.0);
        }
      }
    }
  }

  predicate ListsHttp(h: Http, domain: string) { domain in h.domains }

  lemma BestDomainWins(http: seq<Http>, host: string, h: Http, domain: string)
    requires DomainsDistinct(http) && h in http && domain in h.domains && Matches(domain, host)
    requires forall g, e :: g in http && ListsHttp(g, e) && Matches(e, host) && e != domain ==> Beats(domain, e)
    ensures HostMeaning(http, host) == Some(h.cluster)
  {
    hide Matches, Beats;
    var i :| 0 <= i < |http| && http[i] == h;
    var j :| 0 <= j < |h.domains| && h.domains[j] == domain;
    var b := (domain, h.cluster);
    assert Binds(http, i, j, domain);
    forall c | HasBinding(http, c) && Matches(c.0, host) ensures c == b || Beats(domain, c.0) {
      var k: nat, l: nat :| Binds(http, k, l, c.0) && http[k].cluster == c.1;
      assert ListsHttp(http[k], c.0);
    }
    assert Winner(http, host, b);
    forall c | Winner(http, host, c) ensures c == b {
      WinnerUnique(http, host, b, c);
    }
  }

  /** A port the rule does not list: nowhere, unless the rule declares a cluster under the black hole's name. */
  lemma UnlistedConnections(version: nat, rule: Rule, c: Connection)
    requires Loadable(rule) && Intercepted(c) && forall f :: f in rule.filters ==> f.port != c.originalPort
    requires forall d :: d in rule.clusters ==> d.name != "BlackHoleCluster"
    ensures Serve(CompileRule(version, rule), c) == Closed
  {
    CompiledServes(version, rule, c);
    hide Serve, CompileRule, Loadable;
  }

  /** HTTP entries override the TCP cluster of the same filter, whatever it is. */
  lemma HttpOverridesTcp(version: nat, rule: Rule, k: nat, tcp: Tcp, c: Connection)
    requires Intercepted(c)
    requires k < |rule.filters| && rule.filters[k].http != []
    ensures Serve(CompileRule(version, rule), c)
            == Serve(CompileRule(version, rule.(filters := rule.filters[k := rule.filters[k].(tcp := tcp)])), c)
  {
    var f := rule.filters[k];
    var g := f.(tcp := tcp);
    assert CompileFilter(f) == CompileFilter(g);
    assert CompileFilters(rule.filters) == CompileFilters(rule.filters[k := g]);
  }

  // ---- Order does not matter ----

  predicate Inverse(n: nat, to: seq<nat>, from: seq<nat>) {
    && |to| == |from| == n
    && (forall k :: 0 <= k < n ==> to[k] < n && from[k] < n)
    && (forall k :: 0 <= k < n ==> from[to[k]] == k && to[from[k]] == k)
  }

  /** `b` is `a` rearranged: position k of `b` holds what `a` holds at `from[k]`. */
  ghost predicate Rearranges<T>(a: seq<T>, b: seq<T>, to: seq<nat>, from: seq<nat>) {
    && |a| == |b| && Inverse(|a|, to, from)
    && (forall k :: 0 <= k < |b| ==> b[k] == a[from[k]])
  }

  ghost predicate Shuffled<T>(a: seq<T>, b: seq<T>) {
    exists to, from :: Rearranges(a, b, to, from)
  }

  /** Same port and TCP cluster, HTTP entries in any order. */
  ghost predicate SameFilter(f: Filter, g: Filter) {
    f.port == g.port && f.tcp == g.tcp && Shuffled(f.http, g.http)
  }

  ghost predicate SameFiltersBy(fs: seq<Filter>, gs: seq<Filter>, to: seq<nat>, from: seq<nat>) {
    && |fs| == |gs| && Inverse(|fs|, to, from)
    && forall k :: 0 <= k < |gs| ==> SameFilter(fs[from[k]], gs[k])
  }

  /** Filters in any order, each with its HTTP entries in any order. */
  ghost predicate SameFilters(fs: seq<Filter>, gs: seq<Filter>) {
    exists to, from :: SameFiltersBy(fs, gs, to, from)
  }

  lemma ShuffledBack<T>(a: seq<T>, b: seq<T>)
    requires Shuffled(a, b)
    ensures Shuffled(b, a)
  {
    var to, from :| Rearranges(a, b, to, from);
    forall k | 0 <= k < |a| ensures a[k] == b[to[k]] {
      assert b[to[k]] == a[from[to[k]]];
    }
    assert Rearranges(b, a, from, to);
  }

  lemma SameFiltersBack(fs: seq<Filter>, gs: seq<Filter>)
    requires SameFilters(fs, gs)
    ensures SameFilters(gs, fs)
  {
    var to, from :| SameFiltersBy(fs, gs, to, from);
    forall k | 0 <= k < |fs| ensures SameFilter(gs[to[k]], fs[k]) {
      assert SameFilter(fs[from[to[k]]], gs[to[k]]);
      ShuffledBack(fs[k].http, gs[to[k]].http);
    }
    assert SameFiltersBy(gs, fs, from, to);
  }

  lemma ShuffledBindings(a: seq<Http>, b: seq<Http>, x: Binding)
    requires Shuffled(a, b) && HasBinding(a, x)
    ensures HasBinding(b, x)
  {
    var to, from :| Rearranges(a, b, to, from);
    var i: nat, j: nat :| Binds(a, i, j, x.0) && a[i].cluster == x.1;
    assert b[to[i]] == a[from[to[i]]] == a[i];
    assert Binds(b, to[i], j, x.0);
  }

  lemma ShuffledHttpMeaning(a: seq<Http>, b: seq<Http>, host: string)
    requires Shuffled(a, b)
    ensures HostMeaning(a, host) == HostMeaning(b, host)
  {
    ShuffledBack(a, b);
    forall x: Binding ensures HasBinding(a, x) <==> HasBinding(b, x) {
      if HasBinding(a, x) { ShuffledBindings(a, b, x); }
      if HasBinding(b, x) { ShuffledBindings(b, a, x); }
    }
    forall x ensures Winner(a, host, x) <==> Winner(b, host, x) {
    }
    forall x, y | Winner(a, host, x) && Winner(b, host, y) ensures x == y {
      WinnerUnique(a, host, x, y);
    }
  }

  lemma ShuffledDomains(a: seq<Http>, b: seq<Http>)
    requires Shuffled(a, b) && DomainsDistinct(a)
    ensures DomainsDistinct(b)
  {
    var to, from :| Rearranges(a, b, to, from);
    forall i: nat, j: nat, k: nat, l: nat, d | Binds(b, i, j, d) && Binds(b, k, l, d) ensures i == k && j == l {
      assert Binds(a, from[i], j, d);
      assert Binds(a, from[k], l, d);
      assert to[from[i]] == i && to[from[k]] == k;
    }
  }

  lemma ShuffledMembers<T>(a: seq<T>, b: seq<T>)
    requires Shuffled(a, b)
    ensures forall x :: x in b ==> x in a
  {
    var to, from :| Rearranges(a, b, to, from);
  }

  lemma ShuffledHttpLoadable(a: seq<Http>, b: seq<Http>, clusters: seq<Cluster>)
    requires Shuffled(a, b) && HttpLoadable(a, clusters)
    ensures HttpLoadable(b, clusters)
  {
    ShuffledDomains(a, b);
    ShuffledMembers(a, b);
  }

  lemma SameFilterLoadable(f: Filter, g: Filter, clusters: seq<Cluster>)
    requires SameFilter(f, g)
    ensures FilterLoadable(f, clusters) <==> FilterLoadable(g, clusters)
  {
    ShuffledBack(f.http, g.http);
    if HttpLoadable(f.http, clusters) { ShuffledHttpLoadable(f.http, g.http, clusters); }
    if HttpLoadable(g.http, clusters) { ShuffledHttpLoadable(g.http, f.http, clusters); }
  }

  lemma SameFilterMeaning(f: Filter, g: Filter, clusters: seq<Cluster>, host: string)
    requires SameFilter(f, g)
    ensures FilterMeaning(f, clusters, host) == FilterMeaning(g, clusters, host)
  {
    ShuffledHttpMeaning(f.http, g.http, host);
  }

  /** Different positions come from different positions. */
  lemma InverseApart(n: nat, to: seq<nat>, from: seq<nat>, i: nat, j: nat)
    requires Inverse(n, to, from) && i < n && j < n
    ensures |from| == n && from[i] < n && from[j] < n
    ensures i != j ==> from[i] != from[j]
  {
    assert to[from[i]] == i && to[from[j]] == j;
  }

  lemma PortsApart(filters: seq<Filter>, i: nat, j: nat)
    requires PortsDistinct(filters) && i < |filters| && j < |filters| && i != j
    ensures filters[i].port != filters[j].port
  {
    assert i < j || j < i;
  }

  lemma SamePorts(fs: seq<Filter>, gs: seq<Filter>)
    requires SameFilters(fs, gs) && PortsDistinct(fs)
    ensures PortsDistinct(gs)
  {
    hide Shuffled, Inverse;
    var to, from :| SameFiltersBy(fs, gs, to, from);
    assert Inverse(|fs|, to, from) && |fs| == |gs|;
    forall i, j | 0 <= i < j < |gs| ensures gs[i].port != gs[j].port {
      InverseApart(|fs|, to, from, i, j);
      assert SameFilter(fs[from[i]], gs[i]) && SameFilter(fs[from[j]], gs[j]);
      PortsApart(fs, from[i], from[j]);
    }
  }

  lemma FilterAtUnique(filters: seq<Filter>, f: Filter)
    requires PortsDistinct(filters) && f in filters
    ensures FilterAt(filters, f.port) == Some(f)
  {
  }

  lemma SameFilterIn(fs: seq<Filter>, gs: seq<Filter>, g: Filter) returns (f: Filter)
    requires SameFilters(fs, gs) && g in gs
    ensures f in fs && SameFilter(f, g)
  {
    var to, from :| SameFiltersBy(fs, gs, to, from);
    var k :| 0 <= k < |gs| && gs[k] == g;
    f := fs[from[k]];
  }

  lemma SameFiltersLoadable(rule: Rule, other: Rule)
    requires rule.clusters == other.clusters && SameFilters(rule.filters, other.filters)
    requires Loadable(rule)
    ensures Loadable(other)
  {
    SamePorts(rule.filters, other.filters);
    forall g | g in other.filters ensures FilterLoadable(g, other.clusters) {
      var f := SameFilterIn(rule.filters, other.filters, g);
      SameFilterLoadable(f, g, other.clusters);
    }
  }

  /** The filter of a port is the same filter, and unlisted ports stay unlisted. */
  lemma SameFilterAt(fs: seq<Filter>, gs: seq<Filter>, port: uint32)
    requires SameFilters(fs, gs) && PortsDistinct(fs)
    ensures match FilterAt(fs, port)
            case Some(f) => FilterAt(gs, port).Some? && SameFilter(f, FilterAt(gs, port).value)
            case None => FilterAt(gs, port).None?
  {
    match FilterAt(gs, port)
    case Some(g) =>
      var f := SameFilterIn(fs, gs, g);
      FilterAtUnique(fs, f);
    case None =>
      SameFiltersBack(fs, gs);
      if FilterAt(fs, port).Some? {
        var g := SameFilterIn(gs, fs, FilterAt(fs, port).value);
      }
  }

  /** Reordering filters and HTTP entries changes names in the snapshot but not where any
      connection goes, nor whether a proxy accepts it. */
  lemma RoutingIsOrderIndependent(version: nat, rule: Rule, version': nat, other: Rule, c: Connection)
    requires rule.clusters == other.clusters && SameFilters(rule.filters, other.filters)
    requires Intercepted(c)
    ensures Serve(CompileRule(version, rule), c) == Serve(CompileRule(version', other), c)
  {
    CompiledServes(version, rule, c);
    CompiledServes(version', other, c);
    SameFiltersBack(rule.filters, other.filters);
    if Loadable(other) { SameFiltersLoadable(other, rule); }
    if Loadable(rule) {
      SameFiltersLoadable(rule, other);
      SameFilterAt(rule.filters, other.filters, c.originalPort);
      match FilterAt(rule.filters, c.originalPort)
      case Some(f) =>
        SameFilterMeaning(f, FilterAt(other.filters, c.originalPort).value, rule.clusters, c.host);
      case None =>
    }
  }
}
