/** Whole runs of the discovery server: informer stores change at any time, also between two
    rules of one update, while a single handler goroutine processes configurations. */
module PublishRuns {
  import opened MeshTypes
  import opened Compiler
  import opened Keys
  import opened Layers
  import opened Publisher

  /** A configuration as the lister returned it, under the key it was stored at. */
  datatype Read = Read(key: string, config: Configuration)

  /** One rule of the configuration of read `read`, stored for the pods listed at that moment. */
  datatype Write = Write(read: nat, version: nat, rule: Rule, pods: set<Pod>)

  /** An update in progress: the rules before `next` are published. */
  datatype Active = Active(config: Configuration, next: nat)

  datatype World = World(
    store: map<string, Configuration>,
    pods: set<Pod>,
    snapshots: Snapshots,
    active: Option<Active>,
    seen: seq<Read>,
    writes: seq<Write>)

  datatype Event =
    | StoreChanged(config: Configuration)
    | StoreRemoved(key: string)
    | PodsChanged(pods: set<Pod>)
    | Begin(obj: Configuration)     // an add, update or resync event; obj may be outdated
    | PublishNext
    | Finish

  function KeyOf(c: Configuration): string { MetaNamespaceKey(c.namespace, c.name) }

  predicate Enabled(w: World, e: Event) {
    match e
    case StoreChanged(c) => true
    case StoreRemoved(_) => true
    case PodsChanged(_) => true
    case Begin(_) => w.active.None?
    case PublishNext => w.active.Some? && w.active.value.next < |w.active.value.config.rules|
    case Finish => w.active.Some? && w.active.value.next == |w.active.value.config.rules|
  }

  function Step(w: World, e: Event): World
    requires Enabled(w, e)
    requires e.PublishNext? ==> |w.seen| > 0
  {
    match e
    case StoreChanged(c) => w.(store := w.store[KeyOf(c) := c])
    case StoreRemoved(key) => w.(store := w.store - {key})
    case PodsChanged(pods) => w.(pods := pods)
    case Begin(obj) =>
      (match Resolve(w.store, obj)
       case None => w
       case Some(c) => w.(active := Some(Active(c, 0)), seen := w.seen + [Read(KeyOf(obj), c)]))
    case PublishNext =>
      var a := w.active.value;
      var rule := a.config.rules[a.next];
      w.(snapshots := StoreAll(w.snapshots, MatchedNames(rule, w.pods), CompileRule(a.config.resourceVersion, rule)),
         active := Some(a.(next := a.next + 1)),
         writes := w.writes + [Write(|w.seen| - 1, a.config.resourceVersion, rule, w.pods)])
    case Finish => w.(active := None)
  }

  /** Before the first event. */
  predicate Initial(w: World) {
    w.store == map[] && w.snapshots == map[] && w.active == None && w.seen == [] && w.writes == []
  }

  /** The update in progress works on the latest read. */
  predicate Coherent(w: World) {
    w.active.Some? ==>
      |w.seen| > 0 && w.seen[|w.seen| - 1].config == w.active.value.config
      && w.active.value.next <= |w.active.value.config.rules|
  }

  lemma StepCoherent(w: World, e: Event)
    requires Coherent(w) && Enabled(w, e)
    ensures Coherent(Step(w, e))
  {
  }

  /** The world after a sequence of events, None if one of them was not possible. */
  function Run(w: World, es: seq<Event>): (r: Option<World>)
    requires Coherent(w)
    ensures r.Some? ==> Coherent(r.value)
  {
    if es == [] then Some(w)
    else
      var last := |es| - 1;
      var before := Run(w, es[..last]);
      if before.Some? && Enabled(before.value, es[last]) then
        StepCoherent(before.value, es[last]);
        Some(Step(before.value, es[last]))
      else None
  }

  lemma RunPrefix(w: World, es: seq<Event>, i: nat)
    requires Coherent(w) && i <= |es| && Run(w, es).Some?
    ensures Run(w, es[..i]).Some?
    ensures i < |es| ==> Enabled(Run(w, es[..i]).value, es[i])
                         && Run(w, es[..i + 1]) == Some(Step(Run(w, es[..i]).value, es[i]))
  {
    if i == |es| {
      assert es[..i] == es;
    } else {
      assert es[..i + 1][..i] == es[..i];
      if i + 1 == |es| {
        assert es[..i + 1] == es;
      } else {
        assert es[..|es| - 1][..i] == es[..i] && es[..|es| - 1][..i + 1] == es[..i + 1];
        RunPrefix(w, es[..|es| - 1], i);
      }
    }
  }

  // ---- Provenance ----

  predicate Names(x: Write, n: string) {
    n in MatchedNames(x.rule, x.pods)
  }

  /** Write m is the latest one for the name and explains its snapshot. */
  ghost predicate Explains(w: World, m: nat, n: string) {
    && m < |w.writes| && Names(w.writes[m], n)
    && n in w.snapshots && w.snapshots[n] == CompileRule(w.writes[m].version, w.writes[m].rule)
    && forall j :: m < j < |w.writes| ==> !Names(w.writes[j], n)
  }

  /** The write published a rule of the configuration it names as read. */
  predicate FromRead(w: World, x: Write) {
    && x.read < |w.seen|
    && x.version == w.seen[x.read].config.resourceVersion
    && x.rule in w.seen[x.read].config.rules
  }

  ghost predicate Explained(w: World) {
    && (forall x :: x in w.writes ==> FromRead(w, x))
    && (forall n :: n in w.snapshots ==> exists m: nat :: Explains(w, m, n))
  }

  lemma PublishKeepsExplained(w: World, n: string)
    requires Coherent(w) && Explained(w) && Enabled(w, PublishNext)
    requires n in Step(w, PublishNext).snapshots
    ensures exists m: nat :: Explains(Step(w, PublishNext), m, n)
  {
    hide CompileRule;
    var w' := Step(w, PublishNext);
    var m: nat := |w.writes|;
    if Names(w'.writes[m], n) {
      assert Explains(w', m, n);
    } else {
      m :| Explains(w, m, n);
      assert Explains(w', m, n);
    }
  }

  lemma StepExplained(w: World, e: Event)
    requires Coherent(w) && Explained(w) && Enabled(w, e)
    ensures Explained(Step(w, e))
  {
    var w' := Step(w, e);
    forall n | n in w'.snapshots ensures exists m: nat :: Explains(w', m, n) {
      if e.PublishNext? {
        PublishKeepsExplained(w, n);
      } else {
        var m: nat :| Explains(w, m, n);
        assert Explains(w', m, n);
      }
    }
  }

  lemma {:induction false} RunExplained(w: World, es: seq<Event>)
    requires Coherent(w) && Explained(w) && Run(w, es).Some?
    ensures Explained(Run(w, es).value)
  {
    if es != [] {
      RunExplained(w, es[..|es| - 1]);
      StepExplained(Run(w, es[..|es| - 1]).value, es[|es| - 1]);
    }
  }

  /** The configuration was in the informer store at some time of the run. */
  ghost predicate Stored(w: World, es: seq<Event>, key: string, c: Configuration) {
    (key in w.store && w.store[key] == c) || (StoreChanged(c) in es && KeyOf(c) == key)
  }

  lemma {:induction false} ReadsWereStored(w: World, es: seq<Event>)
    requires Coherent(w) && w.seen == [] && Run(w, es).Some?
    requires forall key :: key in w.store ==> KeyOf(w.store[key]) == key
    ensures var r := Run(w, es).value;
            && (forall key :: key in r.store ==> Stored(w, es, key, r.store[key]) && KeyOf(r.store[key]) == key)
            && (forall i :: 0 <= i < |r.seen| ==> Stored(w, es, KeyOf(r.seen[i].config), r.seen[i].config))
  {
    hide CompileRule;
    if es != [] {
      var init := es[..|es| - 1];
      ReadsWereStored(w, init);
      assert forall e :: e in init ==> e in es;
      assert es[|es| - 1] in es;
    }
  }

  /** Event i published this rule of this configuration for the pods the informer held just then. */
  ghost predicate PublishedAt(w: World, es: seq<Event>, i: nat, c: Configuration, rule: Rule, pods: set<Pod>)
    requires Coherent(w)
  {
    && i < |es| && es[i].PublishNext? && Run(w, es[..i]).Some?
    && var b := Run(w, es[..i]).value;
       && b.pods == pods && b.active.Some? && b.active.value.config == c
       && b.active.value.next < |c.rules| && c.rules[b.active.value.next] == rule
  }

  /** Every write was made at one moment of the run, by the update that worked on its read. */
  lemma {:induction false} WriteMoment(w: World, es: seq<Event>, m: nat) returns (i: nat)
    requires Initial(w) && Run(w, es).Some? && m < |Run(w, es).value.writes|
    ensures var r := Run(w, es).value;
            && r.writes[m].read < |r.seen|
            && PublishedAt(w, es, i, r.seen[r.writes[m].read].config, r.writes[m].rule, r.writes[m].pods)
  {
    hide CompileRule;
    var last := |es| - 1;
    var init := es[..last];
    var before := Run(w, init).value;
    StepExtends(before, es[last]);
    if m < |before.writes| {
      i := WriteMoment(w, init, m);
      assert init[..i] == es[..i];
    } else {
      i := last;
    }
  }

  /** Every snapshot ever served was stored by one event of the run: it is the compiled form of a rule of
      a configuration version that was read from the lister and really stored there, it carries that version,
      and the informer then held a pod of that name whose labels the rule selects. */
  lemma SnapshotProvenance(w: World, es: seq<Event>, n: string)
    returns (i: nat, c: Configuration, rule: Rule, pods: set<Pod>, pod: Pod)
    requires Initial(w) && Run(w, es).Some? && n in Run(w, es).value.snapshots
    ensures Stored(w, es, KeyOf(c), c) && exists k :: 0 <= k < |Run(w, es).value.seen| && Run(w, es).value.seen[k].config == c
    ensures PublishedAt(w, es, i, c, rule, pods)
    ensures pod in pods && pod.name == n && Selects(rule.matchLabels, pod.labels)
    ensures Run(w, es).value.snapshots[n] == CompileRule(c.resourceVersion, rule)
  {
    var r := Run(w, es).value;
    RunExplained(w, es);
    ReadsWereStored(w, es);
    var m: nat :| Explains(r, m, n);
    var x := r.writes[m];
    assert FromRead(r, x);
    i := WriteMoment(w, es, m);
    c, rule, pods := r.seen[x.read].config, x.rule, x.pods;
    pod :| pod in x.pods && Selects(x.rule.matchLabels, pod.labels) && pod.name == n;
  }

  // ---- Versions never go back ----

  /** The informer never replaces a stored version by an older one. */
  ghost predicate VersionsAdvance(w: World, es: seq<Event>) {
    es == [] ||
    (var init := es[..|es| - 1];
     && VersionsAdvance(w, init)
     && (es[|es| - 1].StoreChanged? ==>
           var c := es[|es| - 1].config;
           forall d :: Stored(w, init, KeyOf(c), d) ==> d.resourceVersion <= c.resourceVersion))
  }

  lemma {:induction false} StoreHoldsNewest(w: World, es: seq<Event>, key: string, d: Configuration)
    requires Initial(w) && Coherent(w) && Run(w, es).Some? && VersionsAdvance(w, es)
    requires key in Run(w, es).value.store && Stored(w, es, key, d)
    ensures d.resourceVersion <= Run(w, es).value.store[key].resourceVersion
  {
    var last := |es| - 1;
    var init := es[..last];
    var before := Run(w, init).value;
    assert es == init + [es[last]];
    if es[last].StoreChanged? && KeyOf(es[last].config) == key {
      assert d == es[last].config || Stored(w, init, key, d);
    } else {
      assert Stored(w, init, key, d);
      StoreHoldsNewest(w, init, key, d);
    }
  }

  ghost predicate ReadsAdvance(r: World) {
    forall i, j :: 0 <= i < j < |r.seen| && KeyOf(r.seen[i].config) == KeyOf(r.seen[j].config) ==>
      r.seen[i].config.resourceVersion <= r.seen[j].config.resourceVersion
  }

  lemma {:induction false} RunReadsAdvance(w: World, es: seq<Event>)
    requires Initial(w) && Coherent(w) && Run(w, es).Some? && VersionsAdvance(w, es)
    ensures ReadsAdvance(Run(w, es).value)
  {
    if es != [] {
      var last := |es| - 1;
      var init := es[..last];
      var before, after := Run(w, init).value, Run(w, es).value;
      RunReadsAdvance(w, init);
      ReadsWereStored(w, init);
      if es[last].Begin? && Resolve(before.store, es[last].obj).Some? {
        var c := Resolve(before.store, es[last].obj).value;
        assert after.seen == before.seen + [Read(KeyOf(es[last].obj), c)];
        forall i | 0 <= i < |before.seen| && KeyOf(before.seen[i].config) == KeyOf(c)
          ensures before.seen[i].config.resourceVersion <= c.resourceVersion
        {
          StoreHoldsNewest(w, init, KeyOf(c), before.seen[i].config);
        }
      }
    }
  }

  /** Writes follow the order of the reads they come from. */
  predicate WritesInOrder(w: World) {
    && (forall i, j :: 0 <= i < j < |w.writes| ==> w.writes[i].read <= w.writes[j].read)
    && (forall i :: 0 <= i < |w.writes| ==> w.writes[i].read < |w.seen|)
  }

  lemma {:induction false} RunWritesInOrder(w: World, es: seq<Event>)
    requires Coherent(w) && WritesInOrder(w) && Run(w, es).Some?
    ensures WritesInOrder(Run(w, es).value)
  {
    hide CompileRule;
    if es != [] {
      RunWritesInOrder(w, es[..|es| - 1]);
    }
  }

  /** Logs and published names only grow. */
  predicate Extends(early: World, late: World) {
    early.writes <= late.writes && early.seen <= late.seen && early.snapshots.Keys <= late.snapshots.Keys
  }

  lemma StepExtends(w: World, e: Event)
    requires Coherent(w) && Enabled(w, e)
    ensures Extends(w, Step(w, e))
  {
    hide CompileRule;
  }

  lemma {:induction false} RunExtends(w: World, es: seq<Event>, i: nat)
    requires Coherent(w) && Run(w, es).Some? && i <= |es| && Run(w, es[..i]).Some?
    ensures Extends(Run(w, es[..i]).value, Run(w, es).value)
  {
    hide CompileRule, Step;
    if i == |es| {
      assert es[..i] == es;
    } else {
      var last := |es| - 1;
      assert es[..last][..i] == es[..i];
      RunExtends(w, es[..last], i);
      StepExtends(Run(w, es[..last]).value, es[last]);
    }
  }

  /** The latest write for a name only gets later, and later writes come from later reads. */
  lemma LaterIsNewer(early: World, late: World, n: string, key: string)
    requires Extends(early, late) && Explained(early) && Explained(late) && n in early.snapshots
    requires WritesInOrder(late) && ReadsAdvance(late)
    requires forall x :: x in late.writes && Names(x, n) ==>
               x.read < |late.seen| && KeyOf(late.seen[x.read].config) == key
    ensures n in late.snapshots && early.snapshots[n].version <= late.snapshots[n].version
  {
    hide CompileRule, Names, KeyOf;
    var a: nat :| Explains(early, a, n);
    var b: nat :| Explains(late, b, n);
    var x, y := late.writes[a], late.writes[b];
    assert x == early.writes[a];
    assert FromRead(late, x) && FromRead(late, y);
    assert a <= b && x.read <= y.read;
    assert KeyOf(late.seen[x.read].config) == KeyOf(late.seen[y.read].config);
    assert x.version <= y.version;
  }

  /** If only one configuration is ever published for a pod name, the version served to that
      pod never goes backwards. */
  lemma VersionsNeverGoBack(w: World, es: seq<Event>, i: nat, n: string, key: string)
    requires Initial(w) && Run(w, es).Some? && VersionsAdvance(w, es)
    requires i <= |es| && Run(w, es[..i]).Some? && n in Run(w, es[..i]).value.snapshots
    requires forall x :: x in Run(w, es).value.writes && Names(x, n) ==>
               x.read < |Run(w, es).value.seen| && KeyOf(Run(w, es).value.seen[x.read].config) == key
    ensures n in Run(w, es).value.snapshots
    ensures Run(w, es[..i]).value.snapshots[n].version <= Run(w, es).value.snapshots[n].version
  {
    hide CompileRule, Run, Step, Enabled;
    var early, late := Run(w, es[..i]).value, Run(w, es).value;
    RunExtends(w, es, i);
    RunWritesInOrder(w, es);
    RunExplained(w, es[..i]);
    RunExplained(w, es);
    RunReadsAdvance(w, es);
    hide Coherent, Initial, VersionsAdvance;
    LaterIsNewer(early, late, n, key);
  }

  lemma RunOneMore(w: World, es: seq<Event>, e: Event)
    requires Coherent(w) && Run(w, es).Some? && Enabled(Run(w, es).value, e)
    ensures Run(w, es + [e]) == Some(Step(Run(w, es).value, e))
  {
    assert (es + [e])[..|es|] == es;
  }

  lemma EmptyRun(w: World)
    requires Coherent(w)
    ensures Run(w, []) == Some(w)
  {
  }

  /** Store a configuration with one rule, handle it, and the pod it selects is served its version. */
  lemma PublishOnce(w: World, es: seq<Event>, c: Configuration, pod: Pod) returns (fs: seq<Event>)
    requires Coherent(w) && Run(w, es).Some? && Run(w, es).value.active.None? && Run(w, es).value.pods == {pod}
    requires ValidName(c.namespace, c.name) && |c.rules| == 1 && Selects(c.rules[0].matchLabels, pod.labels)
    ensures es <= fs && Run(w, fs).Some? && Run(w, fs).value.active.None? && Run(w, fs).value.pods == {pod}
    ensures pod.name in Run(w, fs).value.snapshots
            && Run(w, fs).value.snapshots[pod.name].version == c.resourceVersion
  {
    hide CompileRule, Run;
    KeyRoundTrip(c.namespace, c.name);
    fs := es;
    RunOneMore(w, fs, StoreChanged(c));
    fs := fs + [StoreChanged(c)];
    RunOneMore(w, fs, Begin(c));
    fs := fs + [Begin(c)];
    RunOneMore(w, fs, PublishNext);
    fs := fs + [PublishNext];
    assert pod.name in MatchedNames(c.rules[0], {pod});
    RunOneMore(w, fs, Finish);
    fs := fs + [Finish];
  }

  /** The informer's order is needed: if the store goes back from one version to an older one, and both
      are handled, then so does what the pod is served. */
  lemma OlderStoreGoesBack(w: World, pod: Pod, older: Configuration, newer: Configuration)
    returns (es: seq<Event>, i: nat)
    requires Initial(w) && w.pods == {pod}
    requires ValidName(newer.namespace, newer.name) && older.namespace == newer.namespace && older.name == newer.name
    requires older.resourceVersion < newer.resourceVersion
    requires |older.rules| == |newer.rules| == 1
    requires Selects(older.rules[0].matchLabels, pod.labels) && Selects(newer.rules[0].matchLabels, pod.labels)
    ensures Run(w, es).Some? && i <= |es| && Run(w, es[..i]).Some?
    ensures pod.name in Run(w, es[..i]).value.snapshots && pod.name in Run(w, es).value.snapshots
    ensures Run(w, es).value.snapshots[pod.name].version < Run(w, es[..i]).value.snapshots[pod.name].version
  {
    hide CompileRule, Run, Step;
    EmptyRun(w);
    var a := PublishOnce(w, [], newer, pod);
    var b := PublishOnce(w, a, older, pod);
    es, i := b, |a|;
    assert es[..i] == a;
  }
}
