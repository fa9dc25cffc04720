/** From a configuration to where a pod's proxy sends connections. */
module EndToEnd {
  import opened MeshTypes
  import opened Envoy
  import opened Compiler
  import opened Keys
  import opened Layers
  import opened Publisher
  import opened Routing
  import opened PublishRuns
  import opened Confluence

  /** What the control plane serves a proxy that connects with its node id. */
  function ProxySnapshot(cache: Snapshots, podIp: string, podName: string): Option<Snapshot> {
    match NodeKey(BuildNodeId(podIp, podName))
    case Some(key) => if key in cache then Some(cache[key]) else None
    case None => None
  }

  /** Rule k is the last one whose `match` selects the pod's own labels. */
  ghost predicate OwnRule(c: Configuration, pod: Pod, k: nat) {
    && k < |c.rules| && Selects(c.rules[k].matchLabels, pod.labels)
    && forall j :: k < j < |c.rules| ==> !Selects(c.rules[j].matchLabels, pod.labels)
  }

  /** Snapshots are kept by pod name alone. Pods that share the name, in other namespaces,
      do no harm as long as their labels are among the pod's. */
  predicate NameIsOwn(pods: set<Pod>, pod: Pod) {
    forall q :: q in pods && q.name == pod.name ==> Selects(q.labels, pod.labels)
  }

  ghost predicate AlwaysOwnRule(pods: set<Pod>, pod: Pod) {
    forall c, k: nat :: LastMatch(c, pods, pod.name, k) <==> OwnRule(c, pod, k)
  }

  /** Every configuration reaches the pod by its own labels exactly if its name is its own. */
  lemma OwnLabelsDecideIff(pods: set<Pod>, pod: Pod)
    requires pod in pods
    ensures AlwaysOwnRule(pods, pod) <==> NameIsOwn(pods, pod)
  {
    if NameIsOwn(pods, pod) {
      forall rule ensures pod.name in MatchedNames(rule, pods) <==> Selects(rule.matchLabels, pod.labels) {
      }
    }
    if AlwaysOwnRule(pods, pod) {
      forall q | q in pods && q.name == pod.name ensures Selects(q.labels, pod.labels) {
        var probe := Configuration("", "", 0, [Rule(q.labels, [], [])]);
        assert pod.name in MatchedNames(probe.rules[0], pods);
        assert LastMatch(probe, pods, pod.name, 0);
        assert OwnRule(probe, pod, 0);
      }
    }
  }

  /** The proxy is handed the entry kept under its pod's name. */
  lemma ProxyReadsItsKey(cache: Snapshots, podIp: string, podName: string)
    requires '@' !in podIp && '@' !in podName
    ensures ProxySnapshot(cache, podIp, podName) == if podName in cache then Some(cache[podName]) else None
  {
    NodeIdRoundTrip(podIp, podName);
  }

  lemma OwnEntry(cache: Snapshots, store: map<string, Configuration>, pods: set<Pod>, obj: Configuration, pod: Pod, k: nat)
    requires pod in pods && NameIsOwn(pods, pod) && Resolve(store, obj).Some?
    ensures var c, after := Resolve(store, obj).value, Updated(cache, store, pods, obj);
            && (OwnRule(c, pod, k) ==> pod.name in after && after[pod.name] == CompileRule(c.resourceVersion, c.rules[k]))
            && ((forall j: nat :: !OwnRule(c, pod, j)) ==>
                  (pod.name in after <==> pod.name in cache) && (pod.name in cache ==> after[pod.name] == cache[pod.name]))
  {
    hide CompileRule, Updated, Resolve;
    var c := Resolve(store, obj).value;
    OwnLabelsDecideIff(pods, pod);
    UpdateMeaning(cache, store, pods, obj, pod.name);
    assert OwnRule(c, pod, k) ==> LastMatch(c, pods, pod.name, k);
    if Matched(c, pods, pod.name) {
      var j: nat :| LastMatch(c, pods, pod.name, j)
                    && Updated(cache, store, pods, obj)[pod.name] == CompileRule(c.resourceVersion, c.rules[j]);
      assert OwnRule(c, pod, j);
    }
  }

  /** One update makes the proxy of every pod route by the last rule that selects the pod; a pod
      that no rule selects keeps what it had. */
  lemma ProxyRoutesByItsRule(cache: Snapshots, store: map<string, Configuration>, pods: set<Pod>, obj: Configuration,
                             pod: Pod, podIp: string, k: nat, conn: Connection)
    requires pod in pods && NameIsOwn(pods, pod)
    requires '@' !in podIp && '@' !in pod.name
    requires Resolve(store, obj).Some? && Intercepted(conn)
    ensures var c, after := Resolve(store, obj).value, Updated(cache, store, pods, obj);
            var served := ProxySnapshot(after, podIp, pod.name);
            && (OwnRule(c, pod, k) ==>
                  && served.Some? && served.value.version == c.resourceVersion
                  && (Serve(served.value, conn) == Meaning(c.rules[k], conn)
                      <==> !Loadable(c.rules[k]) || Listed(c.rules[k], conn.originalPort)
                           || Declared(c.rules[k].clusters, BLACK_HOLE).None?))
            && ((forall j: nat :: !OwnRule(c, pod, j)) ==> served == ProxySnapshot(cache, podIp, pod.name))
  {
    hide CompileRule, Meaning, Loadable, Serve, Updated, Resolve, ProxySnapshot;
    var c := Resolve(store, obj).value;
    ProxyReadsItsKey(cache, podIp, pod.name);
    ProxyReadsItsKey(Updated(cache, store, pods, obj), podIp, pod.name);
    OwnEntry(cache, store, pods, obj, pod, k);
    if OwnRule(c, pod, k) {
      CompilationPreservesRouting(c.resourceVersion, c.rules[k], conn);
    }
  }

  /** The last layer that matches decides what a configuration publishes for a name. */
  lemma PublishedIsLastMatch(c: Configuration, pods: set<Pod>, n: string, k: nat)
    requires LastMatch(c, pods, n, k)
    ensures n in Published(c, pods) && Published(c, pods)[n] == CompileRule(c.resourceVersion, c.rules[k])
  {
    hide CompileRule;
    var layers := RuleLayers(c, pods);
    assert Matched(c, pods, n);
    MatchedIsNamed(c, pods, n);
    LastLayerUnique(layers, n, k, LastIndex(layers, n));
  }

  /** In every run of the server, with whatever events, that has come to rest, the proxy of every pod that
      some configuration selects routes by the last rule of the stored version that selects it. */
  lemma SettledProxyRoutesByItsRule(w: World, es: seq<Event>, key: string, pod: Pod, podIp: string, k: nat, conn: Connection)
    requires PublishRuns.Initial(w) && FixedPods(es) && ValidKeys(es) && Disjoint(w, es) && Settled(w, es)
    requires key in Run(w, es).value.store && OwnRule(Run(w, es).value.store[key], pod, k)
    requires pod in w.pods && NameIsOwn(w.pods, pod)
    requires '@' !in podIp && '@' !in pod.name && Intercepted(conn)
    ensures var c := Run(w, es).value.store[key];
            var served := ProxySnapshot(Run(w, es).value.snapshots, podIp, pod.name);
            && served.Some? && served.value.version == c.resourceVersion
            && (Serve(served.value, conn) == Meaning(c.rules[k], conn)
                <==> !Loadable(c.rules[k]) || Listed(c.rules[k], conn.originalPort)
                     || Declared(c.rules[k].clusters, BLACK_HOLE).None?)
  {
    assert Run(w, es).Some?;
    hide CompileRule, Meaning, Loadable, Serve, ProxySnapshot, Run, Settled, Disjoint, Published;
    var c := Run(w, es).value.store[key];
    OwnLabelsDecideIff(w.pods, pod);
    assert LastMatch(c, w.pods, pod.name, k);
    assert Matched(c, w.pods, pod.name);
    SettledServesCurrent(w, es, key, pod.name);
    PublishedIsLastMatch(c, w.pods, pod.name, k);
    ProxyReadsItsKey(Run(w, es).value.snapshots, podIp, pod.name);
    CompilationPreservesRouting(c.resourceVersion, c.rules[k], conn);
  }
}
