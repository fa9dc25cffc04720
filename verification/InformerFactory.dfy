/** The shared informer factory: a memo table behind a lock, and informers that start once. */
module InformerFactory {

  type TypeName = string
  type Duration = int

  // ---- What one call does ----

  /** `launched` counts the goroutines started, by type and the informer they run. */
  datatype Factory<I(==)> = Factory(
    defaultResync: Duration, customResync: map<TypeName, Duration>,
    informers: map<TypeName, I>, started: map<TypeName, bool>, launched: multiset<(TypeName, I)>)

  function New<I(==)>(defaultResync: Duration, customResync: map<TypeName, Duration>): Factory<I> {
    Factory(defaultResync, customResync, map[], map[], multiset{})
  }

  function ResyncFor<I(==)>(f: Factory<I>, t: TypeName): Duration {
    if t in f.customResync then f.customResync[t] else f.defaultResync
  }

  /** `InformerFor`. */
  function Requested<I(==)>(f: Factory<I>, t: TypeName, make: Duration -> I): Factory<I> {
    if t in f.informers then f else f.(informers := f.informers[t := make(ResyncFor(f, t))])
  }

  predicate IsStarted<I(==)>(f: Factory<I>, t: TypeName) {
    t in f.started && f.started[t]
  }

  function Waiting<I(==)>(f: Factory<I>): set<TypeName> {
    set t | t in f.informers && !IsStarted(f, t)
  }

  function Launches<I(==)>(f: Factory<I>, ts: set<TypeName>): set<(TypeName, I)>
    requires ts <= f.informers.Keys
  {
    set t | t in ts :: (t, f.informers[t])
  }

  function Marked(started: map<TypeName, bool>, ts: set<TypeName>): map<TypeName, bool> {
    started + map t | t in ts :: true
  }

  /** `Start`. */
  function Started<I(==)>(f: Factory<I>): Factory<I> {
    f.(started := Marked(f.started, Waiting(f)),
       launched := f.launched + multiset(Launches(f, Waiting(f))))
  }

  /** `WaitForCacheSync`, when waiting for an informer ends with `answer`. */
  function Synced<I(==)>(f: Factory<I>, answer: I -> bool): map<TypeName, bool> {
    map t | t in f.informers && IsStarted(f, t) :: answer(f.informers[t])
  }

  // ---- Sequences of calls ----

  datatype Call<!I> = Request(t: TypeName, make: Duration -> I) | Start | Wait(answer: I -> bool)

  function Step<I(==)>(f: Factory<I>, call: Call<I>): Factory<I> {
    match call
    case Request(t, make) => Requested(f, t, make)
    case Start => Started(f)
    case Wait(_) => f
  }

  function After<I(==)>(f: Factory<I>, calls: seq<Call<I>>): Factory<I> {
    if calls == [] then f else Step(After(f, calls[..|calls| - 1]), calls[|calls| - 1])
  }

  // ---- The same, read off the history of calls ----

  predicate RequestsAt<I>(calls: seq<Call<I>>, i: nat, t: TypeName) {
    i < |calls| && calls[i].Request? && calls[i].t == t
  }

  predicate StartsAt<I>(calls: seq<Call<I>>, i: nat) {
    i < |calls| && calls[i].Start?
  }

  ghost predicate EverRequested<I>(calls: seq<Call<I>>, t: TypeName) {
    exists i: nat :: RequestsAt(calls, i, t)
  }

  /** Some `Start` came after a request for `t`. */
  ghost predicate EverStarted<I>(calls: seq<Call<I>>, t: TypeName) {
    exists i: nat, k: nat :: RequestsAt(calls, i, t) && StartsAt(calls, k) && i < k
  }

  ghost predicate IsFirstRequest<I>(calls: seq<Call<I>>, i: nat, t: TypeName) {
    RequestsAt(calls, i, t) && forall k: nat :: k < i ==> !RequestsAt(calls, k, t)
  }

  lemma {:induction false} RequestExtends<I>(calls: seq<Call<I>>, call: Call<I>, t: TypeName)
    ensures EverRequested(calls + [call], t) <==> EverRequested(calls, t) || (call.Request? && call.t == t)
    ensures EverStarted(calls + [call], t) <==> EverStarted(calls, t) || (call.Start? && EverRequested(calls, t))
  {
    var all, n := calls + [call], |calls|;
    if EverRequested(calls, t) {
      var i: nat :| RequestsAt(calls, i, t);
      assert RequestsAt(all, i, t);
      if call.Start? {
        assert StartsAt(all, n);
      }
    }
    if call.Request? && call.t == t {
      assert RequestsAt(all, n, t);
    }
    if EverRequested(all, t) {
      var i: nat :| RequestsAt(all, i, t);
      assert i < n ==> RequestsAt(calls, i, t);
    }
    if EverStarted(calls, t) {
      var i: nat, k: nat :| RequestsAt(calls, i, t) && StartsAt(calls, k) && i < k;
      assert RequestsAt(all, i, t) && StartsAt(all, k);
    }
    if EverStarted(all, t) {
      var i: nat, k: nat :| RequestsAt(all, i, t) && StartsAt(all, k) && i < k;
      assert RequestsAt(calls, i, t);
      assert k < n ==> StartsAt(calls, k);
    }
  }

  /** One call, seen from one type. */
  lemma StepOnType<I>(f: Factory<I>, call: Call<I>, t: TypeName)
    ensures var g := Step(f, call);
            && g.customResync == f.customResync && g.defaultResync == f.defaultResync
            && (t in g.informers <==> t in f.informers || (call.Request? && call.t == t))
            && (t in f.informers ==> g.informers[t] == f.informers[t])
            && (t !in f.informers && t in g.informers ==> g.informers[t] == call.make(ResyncFor(f, t)))
            && (IsStarted(g, t) <==> IsStarted(f, t) || (call.Start? && t in f.informers))
  {
  }

  /** A factory's tables say exactly what its history of calls says. */
  lemma {:induction false} HistoryDecides<I>(
      defaultResync: Duration, customResync: map<TypeName, Duration>, calls: seq<Call<I>>, t: TypeName)
    ensures var f := After(New(defaultResync, customResync), calls);
            && f.customResync == customResync && f.defaultResync == defaultResync
            && (t in f.informers <==> EverRequested(calls, t))
            && (IsStarted(f, t) <==> EverStarted(calls, t))
  {
    if calls == [] {
    } else {
      hide EverRequested, EverStarted, Step, IsStarted;
      var earlier := calls[..|calls| - 1];
      StepOnType(After(New(defaultResync, customResync), earlier), calls[|calls| - 1], t);
      HistoryDecides(defaultResync, customResync, earlier, t);
      RequestExtends(earlier, calls[|calls| - 1], t);
      assert calls == earlier + [calls[|calls| - 1]];
    }
  }

  /** The informer kept for a type is the one its first request made, with the type's own resync
      period if there is one: later requests make nothing. */
  lemma {:induction false} FirstRequestDecides<I>(
      defaultResync: Duration, customResync: map<TypeName, Duration>, calls: seq<Call<I>>, t: TypeName, i: nat)
    requires IsFirstRequest(calls, i, t)
    ensures var f := After(New(defaultResync, customResync), calls);
            && t in f.informers
            && f.informers[t] == calls[i].make(if t in customResync then customResync[t] else defaultResync)
  {
    hide Step;
    var n := |calls|;
    var earlier := calls[..n - 1];
    StepOnType(After(New(defaultResync, customResync), earlier), calls[n - 1], t);
    HistoryDecides(defaultResync, customResync, earlier, t);
    if i < n - 1 {
      assert RequestsAt(earlier, i, t);
      assert forall k: nat :: RequestsAt(earlier, k, t) ==> RequestsAt(calls, k, t);
      FirstRequestDecides(defaultResync, customResync, earlier, t, i);
    } else {
      assert forall k: nat :: RequestsAt(earlier, k, t) ==> RequestsAt(calls, k, t);
    }
  }

  /** Any two requests for a type, anywhere in any history, return the same informer. */
  lemma {:induction false} SameInformer<I>(f: Factory<I>, calls: seq<Call<I>>, t: TypeName, i: nat, j: nat)
    requires i <= j && RequestsAt(calls, i, t) && RequestsAt(calls, j, t)
    ensures var first, second := After(f, calls[..i + 1]), After(f, calls[..j + 1]);
            t in first.informers && t in second.informers && first.informers[t] == second.informers[t]
  {
    assert calls[..i + 1][..i] == calls[..i];
    KeepsInformer(f, calls, t, i, j);
  }

  lemma {:induction false} KeepsInformer<I>(f: Factory<I>, calls: seq<Call<I>>, t: TypeName, i: nat, j: nat)
    requires i <= j < |calls| && t in After(f, calls[..i + 1]).informers
    ensures var later := After(f, calls[..j + 1]);
            t in later.informers && later.informers[t] == After(f, calls[..i + 1]).informers[t]
    decreases j
  {
    if i < j {
      hide Step;
      KeepsInformer(f, calls, t, i, j - 1);
      StepOnType(After(f, calls[..j]), calls[j], t);
      assert calls[..j + 1][..j] == calls[..j];
    }
  }

  // ---- Start once ----

  ghost predicate Sound<I>(f: Factory<I>) {
    && (forall t :: t in f.started ==> t in f.informers && f.started[t])
    && f.launched == multiset(Launches(f, f.informers.Keys - Waiting(f)))
  }

  lemma LaunchesAdd<I>(f: Factory<I>, a: set<TypeName>, b: set<TypeName>)
    requires a <= f.informers.Keys && b <= f.informers.Keys && a !! b
    ensures multiset(Launches(f, a + b)) == multiset(Launches(f, a)) + multiset(Launches(f, b))
  {
    assert Launches(f, a) !! Launches(f, b);
    assert Launches(f, a + b) == Launches(f, a) + Launches(f, b);
  }

  lemma LaunchesNone<I>(f: Factory<I>)
    ensures Launches(f, {}) == {}
  {
  }

  lemma LaunchesOne<I>(f: Factory<I>, t: TypeName)
    requires t in f.informers
    ensures multiset(Launches(f, {t})) == multiset{(t, f.informers[t])}
  {
    assert Launches(f, {t}) == {(t, f.informers[t])};
  }

  lemma MarkedNone(started: map<TypeName, bool>)
    ensures Marked(started, {}) == started
  {
  }

  lemma MarkedOne(started: map<TypeName, bool>, ts: set<TypeName>, t: TypeName)
    ensures Marked(started, ts)[t := true] == Marked(started, ts + {t})
    ensures forall u :: u !in ts ==> (u in Marked(started, ts) <==> u in started)
    ensures forall u :: u !in ts && u in started ==> Marked(started, ts)[u] == started[u]
  {
  }

  lemma StartKeepsSound<I>(f: Factory<I>)
    requires Sound(f)
    ensures Sound(Started(f)) && Waiting(Started(f)) == {}
  {
    var g, before := Started(f), f.informers.Keys - Waiting(f);
    LaunchesAdd(f, before, Waiting(f));
    assert before + Waiting(f) == f.informers.Keys == g.informers.Keys - Waiting(g);
    assert Launches(g, g.informers.Keys) == Launches(f, f.informers.Keys);
  }

  lemma RequestKeepsSound<I>(f: Factory<I>, t: TypeName, make: Duration -> I)
    requires Sound(f)
    ensures Sound(Requested(f, t, make))
  {
    var g := Requested(f, t, make);
    assert g.informers.Keys - Waiting(g) == f.informers.Keys - Waiting(f);
    assert Launches(g, g.informers.Keys - Waiting(g)) == Launches(f, f.informers.Keys - Waiting(f));
  }

  /** Whatever the calls, started types are registered types, and exactly the started ones have been
      launched: each once, with the informer that is handed out for it. */
  lemma {:induction false} LaunchedOnce<I>(
      defaultResync: Duration, customResync: map<TypeName, Duration>, calls: seq<Call<I>>)
    ensures Sound(After(New(defaultResync, customResync), calls))
    ensures var f := After(New(defaultResync, customResync), calls);
            forall t, x :: f.launched[(t, x)] == if IsStarted(f, t) && t in f.informers && f.informers[t] == x then 1 else 0
  {
    var f := After(New(defaultResync, customResync), calls);
    if calls == [] {
      assert Launches(f, {}) == {};
    } else {
      var g := After(New(defaultResync, customResync), calls[..|calls| - 1]);
      LaunchedOnce(defaultResync, customResync, calls[..|calls| - 1]);
      match calls[|calls| - 1]
      case Request(t, make) => RequestKeepsSound(g, t, make);
      case Start => StartKeepsSound(g);
      case Wait(_) =>
    }
    var running := Launches(f, f.informers.Keys - Waiting(f));
    forall t, x
      ensures f.launched[(t, x)] == if IsStarted(f, t) && t in f.informers && f.informers[t] == x then 1 else 0
    {
      assert (t, x) in running <==> t in f.informers.Keys - Waiting(f) && f.informers[t] == x;
    }
  }

  /** `WaitForCacheSync` reports the types some `Start` has covered, and no others: a type first
      requested after the last `Start` is neither run nor waited for. */
  lemma WaitReportsStarted<I>(
      defaultResync: Duration, customResync: map<TypeName, Duration>, calls: seq<Call<I>>, answer: I -> bool, t: TypeName)
    ensures var reported := Synced(After(New(defaultResync, customResync), calls), answer);
            && (t in reported <==> EverStarted(calls, t))
            && (t in reported ==> reported[t] == answer(After(New(defaultResync, customResync), calls).informers[t]))
  {
    HistoryDecides(defaultResync, customResync, calls, t);
    LaunchedOnce(defaultResync, customResync, calls);
  }

  // ---- The factory itself ----

  class SharedInformerFactory<I(==)> {
    const defaultResync: Duration
    var customResync: map<TypeName, Duration>
    var informers: map<TypeName, I>
    var startedInformers: map<TypeName, bool>
    var launched: multiset<(TypeName, I)>

    ghost function Model(): Factory<I>
      reads this
    {
      Factory(defaultResync, customResync, informers, startedInformers, launched)
    }

    constructor (defaultResync: Duration)
      ensures Model() == New(defaultResync, map[])
    {
      this.defaultResync := defaultResync;
      customResync, informers, startedInformers, launched := map[], map[], map[], multiset{};
    }

    /** The keys are objects; only their types matter, and the map is walked in no fixed order.
        Of several objects of one type, any may win. */
    method WithCustomResyncConfig<Obj(==)>(config: map<Obj, Duration>, typeOf: Obj -> TypeName)
      modifies this`customResync
      ensures customResync.Keys == old(customResync).Keys + set k | k in config :: typeOf(k)
      ensures forall t :: t in customResync ==>
                if exists k :: k in config && typeOf(k) == t
                then exists k :: k in config && typeOf(k) == t && customResync[t] == config[k]
                else t in old(customResync) && customResync[t] == old(customResync)[t]
    {
      var left := config.Keys;
      while left != {}
        invariant left <= config.Keys
        invariant customResync.Keys == old(customResync).Keys + set k | k in config.Keys - left :: typeOf(k)
        invariant forall t :: t in customResync ==>
                    if exists k :: k in config.Keys - left && typeOf(k) == t
                    then exists k :: k in config && typeOf(k) == t && customResync[t] == config[k]
                    else t in old(customResync) && customResync[t] == old(customResync)[t]
        decreases left
      {
        var k :| k in left;
        left := left - {k};
        customResync := customResync[typeOf(k) := config[k]];
      }
    }

    method InformerFor(t: TypeName, make: Duration -> I) returns (informer: I)
      modifies this`informers
      ensures Model() == Requested(old(Model()), t, make)
      ensures t in informers && informer == informers[t]
    {
      if t in informers {
        return informers[t];
      }
      var resyncPeriod := defaultResync;
      if t in customResync {
        resyncPeriod := customResync[t];
      }
      informer := make(resyncPeriod);
      informers := informers[t := informer];
    }

    method Start()
      modifies this`startedInformers, this`launched
      ensures Model() == Started(old(Model()))
    {
      hide Launches, Marked;
      ghost var was, done := Model(), {};
      LaunchesNone(was);
      MarkedNone(was.started);
      var left := informers.Keys;
      while left != {}
        invariant left <= informers.Keys && done == Waiting(was) - left
        invariant startedInformers == Marked(was.started, done)
        invariant launched == was.launched + multiset(Launches(was, done))
        decreases left
      {
        var t :| t in left;
        left := left - {t};
        MarkedOne(was.started, done, t);
        if !(t in startedInformers && startedInformers[t]) {
          LaunchesAdd(was, done, {t});
          LaunchesOne(was, t);
          launched := launched + multiset{(t, informers[t])};
          startedInformers := startedInformers[t := true];
          done := done + {t};
        }
      }
      assert done == Waiting(was);
    }

    method WaitForCacheSync(answer: I -> bool) returns (res: map<TypeName, bool>)
      ensures res == Synced(Model(), answer)
    {
      var waited: map<TypeName, I> := map[];
      var left := informers.Keys;
      while left != {}
        invariant left <= informers.Keys
        invariant waited == map t | t in informers && t !in left && IsStarted(Model(), t) :: informers[t]
        decreases left
      {
        var t :| t in left;
        left := left - {t};
        if t in startedInformers && startedInformers[t] {
          waited := waited[t := informers[t]];
        }
      }
      res := map[];
      left := waited.Keys;
      while left != {}
        invariant left <= waited.Keys
        invariant res == map t | t in waited && t !in left :: answer(waited[t])
        decreases left
      {
        var t :| t in left;
        left := left - {t};
        res := res[t := answer(waited[t])];
      }
    }
  }
}
