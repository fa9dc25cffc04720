/** With a fixed set of pods, the snapshots served in the end depend only on the final
    configurations, not on the order, repetition or interleaving of the events. */
module Confluence {
  import opened MeshTypes
  import opened Envoy
  import opened Compiler
  import opened Keys
  import opened Layers
  import opened Publisher
  import opened PublishRuns

  /** What is left of an update in progress. */
  function Rest(a: Active): Configuration
    requires a.next <= |a.config.rules|
  {
    a.config.(rules := a.config.rules[a.next..])
  }

  /** The snapshots once the update in progress has finished. */
  function Pending(w: World): Snapshots
    requires Coherent(w)
  {
    match w.active
    case None => w.snapshots
    case Some(a) => w.snapshots + Published(Rest(a), w.pods)
  }

  lemma PublishNextPending(w: World)
    requires Coherent(w) && Enabled(w, PublishNext)
    ensures Coherent(Step(w, PublishNext)) && Pending(Step(w, PublishNext)) == Pending(w)
  {
    hide CompileRule, Top, StoreAll, MatchedNames;
    StepCoherent(w, PublishNext);
    var a := w.active.value;
    var w' := Step(w, PublishNext);
    var first := RuleLayer(a.config.resourceVersion, a.config.rules[a.next], w.pods);
    var rest := RuleLayers(Rest(a.(next := a.next + 1)), w.pods);
    assert RuleLayers(Rest(a), w.pods) == [first] + rest;
    StoreFirst(w.snapshots, first, rest);
  }

  /** Fine-grained runs refine atomic updates: only the begin of an update changes what is pending,
      and it changes it as one whole update would. */
  lemma StepPending(w: World, e: Event)
    requires Coherent(w) && Enabled(w, e) && !e.PodsChanged?
    ensures Coherent(Step(w, e))
    ensures Pending(Step(w, e)) == if e.Begin? then Updated(Pending(w), w.store, w.pods, e.obj) else Pending(w)
  {
    StepCoherent(w, e);
    match e
    case PublishNext => PublishNextPending(w);
    case Begin(obj) =>
      if Resolve(w.store, obj).Some? {
        var c := Resolve(w.store, obj).value;
        assert c.rules[0..] == c.rules;
        assert Rest(Active(c, 0)) == c;
      }
    case Finish =>
      assert RuleLayers(Rest(w.active.value), w.pods) == [];
      assert Top<Snapshot>([]) == map[];
    case _ =>
  }

  ghost predicate FixedPods(es: seq<Event>) {
    forall e :: e in es ==> !e.PodsChanged?
  }

  lemma {:induction false} RunKeepsPods(w: World, es: seq<Event>)
    requires Coherent(w) && Run(w, es).Some? && FixedPods(es)
    ensures Run(w, es).value.pods == w.pods
  {
    if es != [] {
      RunKeepsPods(w, es[..|es| - 1]);
    }
  }

  /** Event p handles the configuration with this key and its key is not touched afterwards. */
  ghost predicate LastHandling(w: World, es: seq<Event>, key: string, p: nat)
    requires Coherent(w)
  {
    && p < |es| && es[p].Begin? && KeyOf(es[p].obj) == key
    && forall q :: p < q < |es| ==> !Touches(es[q], key)
  }

  predicate Touches(e: Event, key: string) {
    (e.StoreChanged? && KeyOf(e.config) == key) || (e.StoreRemoved? && e.key == key)
  }

  /** Versions of different configurations never match the same pod name. */
  ghost predicate Disjoint(w: World, es: seq<Event>) {
    forall j, k, c, d, n :: Stored(w, es, j, c) && Stored(w, es, k, d) && Matched(c, w.pods, n) && Matched(d, w.pods, n)
      ==> j == k
  }

  predicate ValidKeys(es: seq<Event>) {
    forall e :: e in es ==>
      && (e.StoreChanged? ==> ValidName(e.config.namespace, e.config.name))
      && (e.Begin? ==> ValidName(e.obj.namespace, e.obj.name))
  }

  lemma ResolveValid(store: map<string, Configuration>, obj: Configuration)
    requires ValidName(obj.namespace, obj.name)
    ensures Resolve(store, obj) == if KeyOf(obj) in store then Some(store[KeyOf(obj)]) else None
  {
    KeyRoundTrip(obj.namespace, obj.name);
  }

  lemma StepKeepsStored(w: World, e: Event, key: string)
    requires Coherent(w) && Enabled(w, e) && !Touches(e, key)
    ensures key in Step(w, e).store <==> key in w.store
    ensures key in w.store ==> Step(w, e).store[key] == w.store[key]
  {
    hide CompileRule;
  }

  lemma {:induction false} StoreKeeps(w: World, es: seq<Event>, key: string, p: nat)
    requires Coherent(w) && Run(w, es).Some? && p <= |es| && Run(w, es[..p]).Some?
    requires forall q :: p <= q < |es| ==> !Touches(es[q], key)
    ensures key in Run(w, es).value.store <==> key in Run(w, es[..p]).value.store
    ensures key in Run(w, es).value.store ==> Run(w, es).value.store[key] == Run(w, es[..p]).value.store[key]
  {
    hide CompileRule;
    if p == |es| {
      assert es[..p] == es;
    } else {
      var last := |es| - 1;
      assert es[..last][..p] == es[..p];
      StoreKeeps(w, es[..last], key, p);
      StepKeepsStored(Run(w, es[..last]).value, es[last], key);
      hide Step, Enabled, Coherent;
    }
  }

  /** Once a configuration was handled after its last change, its snapshots stay pending. */
  lemma {:induction false} StaysPending(w: World, es: seq<Event>, key: string, p: nat, n: string)
    requires Initial(w) && Run(w, es).Some? && FixedPods(es) && ValidKeys(es) && Disjoint(w, es)
    requires LastHandling(w, es, key, p) && key in Run(w, es).value.store
    requires Matched(Run(w, es).value.store[key], w.pods, n)
    ensures n in Published(Run(w, es).value.store[key], w.pods) && n in Pending(Run(w, es).value)
    ensures Pending(Run(w, es).value)[n] == Published(Run(w, es).value.store[key], w.pods)[n]
  {
    hide CompileRule, Top, Step;
    var last := |es| - 1;
    var init := es[..last];
    var e := es[last];
    var before, after := Run(w, init).value, Run(w, es).value;
    var c := after.store[key];
    RunKeepsPods(w, init);
    RunKeepsPods(w, es);
    StepPending(before, e);
    StoreKeeps(w, es, key, last) by { if p < last { assert !Touches(es[last], key); } }
    MatchedIsNamed(c, w.pods, n);
    if e.Begin? {
      ResolveValid(before.store, e.obj);
    }
    if p < last {
      assert forall x :: x in init ==> x in es;
      DisjointPrefix(w, es, last);
      assert LastHandling(w, init, key, p);
      StaysPending(w, init, key, p, n);
      if e.Begin? && KeyOf(e.obj) in before.store && KeyOf(e.obj) != key {
        var d := before.store[KeyOf(e.obj)];
        ReadsWereStored(w, init);
        MatchedIsNamed(d, w.pods, n);
        assert Stored(w, es, KeyOf(e.obj), d) && Stored(w, es, key, c);
      }
    }
  }

  lemma DisjointPrefix(w: World, es: seq<Event>, i: nat)
    requires i <= |es| && Disjoint(w, es)
    ensures Disjoint(w, es[..i])
  {
    forall key, c | Stored(w, es[..i], key, c) ensures Stored(w, es, key, c) {
    }
  }

  /** The run has come to rest: no update is in progress and every configuration still in
      the store was handled after its last change. */
  ghost predicate Settled(w: World, es: seq<Event>)
    requires Coherent(w)
  {
    && Run(w, es).Some? && Run(w, es).value.active.None?
    && forall key :: key in Run(w, es).value.store ==> exists p: nat :: LastHandling(w, es, key, p)
  }

  /** Then every currently matched pod name is served what its current configuration publishes. */
  lemma SettledServesCurrent(w: World, es: seq<Event>, key: string, n: string)
    requires Initial(w) && FixedPods(es) && ValidKeys(es) && Disjoint(w, es) && Settled(w, es)
    requires key in Run(w, es).value.store && Matched(Run(w, es).value.store[key], w.pods, n)
    ensures n in Published(Run(w, es).value.store[key], w.pods) && n in Run(w, es).value.snapshots
    ensures Run(w, es).value.snapshots[n] == Published(Run(w, es).value.store[key], w.pods)[n]
  {
    hide CompileRule, Top, Step;
    var p: nat :| LastHandling(w, es, key, p);
    StaysPending(w, es, key, p, n);
  }

  /** Two runs that end with the same configurations serve the same snapshots, whatever their events. */
  lemma PublishingIsConfluent(w: World, es: seq<Event>, v: World, fs: seq<Event>, key: string, n: string)
    requires Initial(w) && FixedPods(es) && ValidKeys(es) && Disjoint(w, es) && Settled(w, es)
    requires Initial(v) && FixedPods(fs) && ValidKeys(fs) && Disjoint(v, fs) && Settled(v, fs)
    requires w.pods == v.pods && Run(w, es).value.store == Run(v, fs).value.store
    requires key in Run(w, es).value.store && Matched(Run(w, es).value.store[key], w.pods, n)
    ensures n in Run(w, es).value.snapshots && n in Run(v, fs).value.snapshots
    ensures Run(w, es).value.snapshots[n] == Run(v, fs).value.snapshots[n]
  {
    SettledServesCurrent(w, es, key, n);
    SettledServesCurrent(v, fs, key, n);
  }
}
