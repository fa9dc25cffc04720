/** `server.update`: publishing the compiled rules of a configuration for the pods they match. */
module Publisher {
  import opened MeshTypes
  import opened Envoy
  import opened Compiler
  import opened Keys
  import opened Layers

  type Snapshots = map<string, Snapshot>

  function MatchedNames(rule: Rule, pods: set<Pod>): set<string> {
    set p | p in pods && Selects(rule.matchLabels, p.labels) :: p.name
  }

  function RuleLayer(version: nat, rule: Rule, pods: set<Pod>): Layer<Snapshot> {
    Layer(MatchedNames(rule, pods), CompileRule(version, rule))
  }

  function RuleLayers(c: Configuration, pods: set<Pod>): (layers: seq<Layer<Snapshot>>)
    ensures |layers| == |c.rules|
  {
    seq(|c.rules|, i requires 0 <= i < |c.rules| => RuleLayer(c.resourceVersion, c.rules[i], pods))
  }

  /** Every matched name with the snapshot of the last rule that matches it. */
  function Published(c: Configuration, pods: set<Pod>): Snapshots {
    Top(RuleLayers(c, pods))
  }

  /** What a handler finds for the object it was called with: it trusts only the lister. */
  function Resolve(store: map<string, Configuration>, obj: Configuration): Option<Configuration> {
    match LookupOf(MetaNamespaceKey(obj.namespace, obj.name))
    case Some(key) => if key in store then Some(store[key]) else None
    case None => None
  }

  function Updated(cache: Snapshots, store: map<string, Configuration>, pods: set<Pod>, obj: Configuration): Snapshots {
    match Resolve(store, obj)
    case Some(c) => cache + Published(c, pods)
    case None => cache
  }

  function PodNames(pods: seq<Pod>): set<string> {
    set p | p in pods :: p.name
  }

  lemma PodNamesOneMore(pods: seq<Pod>, i: nat)
    requires i < |pods|
    ensures PodNames(pods[..i + 1]) == PodNames(pods[..i]) + {pods[i].name}
  {
    assert pods[..i + 1] == pods[..i] + [pods[i]];
  }

  method BuildSnapshot(version: nat, rule: Rule) returns (snapshot: Snapshot)
    ensures snapshot == CompileRule(version, rule)
  {
    var clusters := BuildClusters(rule.clusters);
    var listeners := BuildListeners(rule.filters);
    snapshot := NewSnapshot(version, clusters, listeners);
  }

  /** The server's informer stores and its snapshot cache. */
  class Server {
    var configurations: map<string, Configuration>
    var podStore: map<string, Pod>
    var snapshots: Snapshots

    constructor ()
      ensures configurations == map[] && podStore == map[] && snapshots == map[]
    {
      configurations, podStore, snapshots := map[], map[], map[];
    }

    /** The lister walks the store in no particular order. */
    method ListPods(want: Labels) returns (pods: seq<Pod>)
      ensures forall p :: p in pods <==> p in podStore.Values && Selects(want, p.labels)
    {
      pods := [];
      var left := podStore.Keys;
      while left != {}
        invariant left <= podStore.Keys
        invariant forall p :: p in pods <==>
                                exists k :: k in podStore && k !in left && podStore[k] == p && Selects(want, p.labels)
        decreases left
      {
        var k :| k in left;
        left := left - {k};
        if Selects(want, podStore[k].labels) {
          pods := pods + [podStore[k]];
        }
      }
    }

    /** The inner loop over the pods of one rule. */
    method PublishRule(version: nat, rule: Rule)
      modifies this`snapshots
      ensures snapshots == StoreAll(old(snapshots), MatchedNames(rule, podStore.Values), CompileRule(version, rule))
    {
      var listed := ListPods(rule.matchLabels);
      StoreNothing(old(snapshots), CompileRule(version, rule));
      for i := 0 to |listed|
        invariant snapshots == StoreAll(old(snapshots), PodNames(listed[..i]), CompileRule(version, rule))
      {
        var snapshot := BuildSnapshot(version, rule);
        PodNamesOneMore(listed, i);
        StoreOneMore(old(snapshots), PodNames(listed[..i]), listed[i].name, snapshot);
        snapshots := snapshots[listed[i].name := snapshot];
      }
      assert listed[..|listed|] == listed;
      assert PodNames(listed) == MatchedNames(rule, podStore.Values);
    }

    method Update(obj: Configuration)
      modifies this`snapshots
      ensures snapshots == Updated(old(snapshots), configurations, podStore.Values, obj)
    {
      var key := MetaNamespaceKey(obj.namespace, obj.name);
      var split := SplitMetaNamespaceKey(key);
      if split.None? {
        return;
      }
      var lookup := ListerKey(split.value.0, split.value.1);
      if lookup !in configurations {
        return;
      }
      var original := configurations[lookup];
      ghost var layers := RuleLayers(original, podStore.Values);
      for r := 0 to |original.rules|
        invariant snapshots == Overlay(old(snapshots), layers[..r])
      {
        PublishRule(original.resourceVersion, original.rules[r]);
        assert layers[..r + 1][..r] == layers[..r];
      }
      assert layers[..|layers|] == layers;
      OverlayIsTop(old(snapshots), layers);
    }
  }

  // ---- One update ----

  /** Rule k is the last one that matches a pod of this name. */
  ghost predicate LastMatch(c: Configuration, pods: set<Pod>, n: string, k: nat) {
    && k < |c.rules| && n in MatchedNames(c.rules[k], pods)
    && forall j :: k < j < |c.rules| ==> n !in MatchedNames(c.rules[j], pods)
  }

  ghost predicate Matched(c: Configuration, pods: set<Pod>, n: string) {
    exists k :: 0 <= k < |c.rules| && n in MatchedNames(c.rules[k], pods)
  }

  lemma MatchedIsNamed(c: Configuration, pods: set<Pod>, n: string)
    ensures Matched(c, pods, n) <==> n in Published(c, pods)
    ensures forall k: nat :: LastMatch(c, pods, n, k) <==> LastLayer(RuleLayers(c, pods), n, k)
  {
    var layers := RuleLayers(c, pods);
    assert forall k :: 0 <= k < |layers| ==> layers[k].names == MatchedNames(c.rules[k], pods);
    assert Matched(c, pods, n) <==> Named(layers, n);
  }

  /** After an update every matched name holds the compiled form of the last rule that matches it,
      every other entry is untouched, none disappears, and updating again changes nothing. */
  lemma UpdateMeaning(cache: Snapshots, store: map<string, Configuration>, pods: set<Pod>, obj: Configuration, n: string)
    ensures var after := Updated(cache, store, pods, obj);
            && cache.Keys <= after.Keys
            && Updated(after, store, pods, obj) == after
            && match Resolve(store, obj)
               case None => after == cache
               case Some(c) =>
                 && (Matched(c, pods, n) ==> n in after && exists k: nat ::
                       LastMatch(c, pods, n, k) && after[n] == CompileRule(c.resourceVersion, c.rules[k]))
                 && (!Matched(c, pods, n) ==> (n in after <==> n in cache) && (n in cache ==> after[n] == cache[n]))
  {
    match Resolve(store, obj)
    case None =>
    case Some(c) =>
      var layers := RuleLayers(c, pods);
      MatchedIsNamed(c, pods, n);
      OverlayMeaning(cache, layers, n);
      if Matched(c, pods, n) {
        assert LastLayer(layers, n, LastIndex(layers, n));
      }
  }

  /** Two configurations may be processed in either order exactly if they publish the same
      snapshot for every name both match. */
  lemma PublishCommutesIff(cache: Snapshots, a: Configuration, b: Configuration, pods: set<Pod>)
    ensures var pa, pb := Published(a, pods), Published(b, pods);
            (cache + pa) + pb == (cache + pb) + pa
            <==> forall n :: n in pa && n in pb ==> pa[n] == pb[n]
  {
    OverlayCommutesIff(cache, Published(a, pods), Published(b, pods));
  }

  /** Without that agreement the order shows: two configurations that match the same pod. */
  lemma OverlapIsOrderDependent(cache: Snapshots, pod: Pod)
    ensures var rule := Rule(map[], [], []);
            var a, b := Configuration("ns", "a", 1, [rule]), Configuration("ns", "b", 2, [rule]);
            (cache + Published(a, {pod})) + Published(b, {pod}) != (cache + Published(b, {pod})) + Published(a, {pod})
  {
    hide CompileRule;
    var rule := Rule(map[], [], []);
    var a, b := Configuration("ns", "a", 1, [rule]), Configuration("ns", "b", 2, [rule]);
    assert pod.name in MatchedNames(rule, {pod});
    assert LastMatch(a, {pod}, pod.name, 0) && LastMatch(b, {pod}, pod.name, 0);
    MatchedIsNamed(a, {pod}, pod.name);
    MatchedIsNamed(b, {pod}, pod.name);
    LastLayerUnique(RuleLayers(a, {pod}), pod.name, 0, LastIndex(RuleLayers(a, {pod}), pod.name));
    LastLayerUnique(RuleLayers(b, {pod}), pod.name, 0, LastIndex(RuleLayers(b, {pod}), pod.name));
    assert Published(a, {pod})[pod.name].version == 1 && Published(b, {pod})[pod.name].version == 2;
    PublishCommutesIff(cache, a, b, {pod});
  }
}
