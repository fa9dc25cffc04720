/** How objects and proxies are named: `namespace/name` keys of informer caches and work queues,
    and `ip@pod` node ids. */
module Keys {
  import opened MeshTypes
  import opened Text

  /** `cache.MetaNamespaceKeyFunc`, also the key under which an informer stores an object. */
  function MetaNamespaceKey(namespace: string, name: string): string {
    if namespace != "" then namespace + "/" + name else name
  }

  /** `cache.SplitMetaNamespaceKey`; None is the "unexpected key format" error. */
  function SplitMetaNamespaceKey(key: string): Option<(string, string)> {
    var parts := Split(key, '/');
    if |parts| == 1 then Some(("", parts[0]))
    else if |parts| == 2 then Some((parts[0], parts[1]))
    else None
  }

  /** The key a namespaced lister's `Get(name)` looks up. */
  function ListerKey(namespace: string, name: string): string {
    namespace + "/" + name
  }

  predicate SlashFree(s: string) { '/' !in s }

  /** Names as the API server admits them for namespaced objects. */
  predicate ValidName(namespace: string, name: string) {
    namespace != "" && SlashFree(namespace) && SlashFree(name)
  }

  /** Where a handler that was given `key` looks. */
  function LookupOf(key: string): Option<string> {
    match SplitMetaNamespaceKey(key)
    case Some((namespace, name)) => Some(ListerKey(namespace, name))
    case None => None
  }

  /** A key leads back to the entry stored under it exactly if it has one slash. */
  lemma LookupFindsKeyIff(key: string)
    ensures LookupOf(key) == Some(key) <==> |Split(key, '/')| == 2
  {
    JoinOfSplit(key, '/');
    var parts := Split(key, '/');
    if |parts| == 2 {
      assert Join(parts, '/') == parts[0] + ['/'] + Join(parts[1..], '/');
      assert parts[0] + ['/'] == parts[0] + "/";
    } else if |parts| == 1 {
      assert |"" + "/" + parts[0]| == |key| + 1;
    }
  }

  lemma ValidKeySplits(namespace: string, name: string)
    requires ValidName(namespace, name)
    ensures Split(MetaNamespaceKey(namespace, name), '/') == [namespace, name]
  {
    SplitAtFirst(namespace, name, '/');
    SplitNoSeparator(name, '/');
    assert namespace + ['/'] + name == namespace + "/" + name;
  }

  /** Enqueue, split and look up: the handler addresses the object the event was about. */
  lemma KeyRoundTrip(namespace: string, name: string)
    requires ValidName(namespace, name)
    ensures SplitMetaNamespaceKey(MetaNamespaceKey(namespace, name)) == Some((namespace, name))
    ensures LookupOf(MetaNamespaceKey(namespace, name)) == Some(MetaNamespaceKey(namespace, name))
  {
    ValidKeySplits(namespace, name);
  }

  /** For slash-free names the round trip works exactly for namespaced objects: an object
      without a namespace is stored as `name` but looked up as `/name`. */
  lemma KeyRoundTripIff(namespace: string, name: string)
    requires SlashFree(namespace) && SlashFree(name)
    ensures LookupOf(MetaNamespaceKey(namespace, name)) == Some(MetaNamespaceKey(namespace, name))
            <==> namespace != ""
  {
    if namespace != "" {
      KeyRoundTrip(namespace, name);
    } else {
      SplitNoSeparator(name, '/');
      LookupFindsKeyIff(name);
    }
  }

  /** Different objects never share a key. */
  lemma KeysInjective(ns1: string, n1: string, ns2: string, n2: string)
    requires ValidName(ns1, n1) && ValidName(ns2, n2)
    requires MetaNamespaceKey(ns1, n1) == MetaNamespaceKey(ns2, n2)
    ensures ns1 == ns2 && n1 == n2
  {
    ValidKeySplits(ns1, n1);
    ValidKeySplits(ns2, n2);
    assert [ns1, n1][0] == [ns2, n2][0] && [ns1, n1][1] == [ns2, n2][1];
  }

  /** What a key says: the namespace, a slash, the name. */
  lemma KeyText(namespace: string, name: string)
    requires ValidName(namespace, name)
    ensures MetaNamespaceKey(namespace, name) == ListerKey(namespace, name) == namespace + "/" + name
    ensures SplitMetaNamespaceKey(namespace + "/" + name) == Some((namespace, name))
    ensures forall more :: SplitMetaNamespaceKey(namespace + "/" + name + "/" + more) == None
  {
    KeyRoundTrip(namespace, name);
    forall more ensures SplitMetaNamespaceKey(namespace + "/" + name + "/" + more) == None {
      assert namespace + "/" + name + "/" + more == (namespace + "/" + name) + ['/'] + more;
      SplitConcat(namespace + "/" + name, more, '/');
      ValidKeySplits(namespace, name);
    }
  }

  // ---- Node ids ----

  /** `buildNodeId`: what a proxy calls itself. */
  function BuildNodeId(podIp: string, podName: string): string {
    podIp + "@" + podName
  }

  /** `server.ID`: the snapshot key for a node id; None is the index panic without `@`. */
  function NodeKey(nodeId: string): Option<string> {
    var parts := Split(nodeId, '@');
    if |parts| >= 2 then Some(parts[1]) else None
  }

  /** What a node id says: the address, an `@`, the pod name; without an `@` there is no answer. */
  lemma NodeIdText(podIp: string, podName: string)
    requires '@' !in podIp && '@' !in podName
    ensures BuildNodeId(podIp, podName) == podIp + "@" + podName
    ensures NodeKey(podIp + "@" + podName) == Some(podName) && NodeKey(podName) == None
  {
    NodeIdRoundTrip(podIp, podName);
    SplitNoSeparator(podName, '@');
  }

  /** A proxy is found under its pod name exactly if the name has no `@`, whenever the
      address has none; with an `@` in the address the name no longer matters. */
  lemma NodeIdRoundTrip(podIp: string, podName: string)
    ensures '@' !in podIp ==> (NodeKey(BuildNodeId(podIp, podName)) == Some(podName) <==> '@' !in podName)
    ensures '@' in podIp ==> NodeKey(BuildNodeId(podIp, podName)) == NodeKey(podIp)
  {
    var id := BuildNodeId(podIp, podName);
    assert id == podIp + ['@'] + podName;
    if '@' !in podIp {
      SplitAtFirst(podIp, podName, '@');
      var parts := Split(podName, '@');
      if '@' !in podName {
        SplitNoSeparator(podName, '@');
      }
    } else {
      var parts := Split(podIp, '@');
      JoinOfSplit(podIp, '@');
      SplitConcat(podIp, podName, '@');
    }
  }
}
