/** Who holds which work item, and which events lead to which reconciles. */
module ReconcilerAccounting {
  import opened MeshTypes
  import opened Builders
  import opened Keys
  import opened WorkQueue
  import opened Reconciler
  import opened ReconcilerSafety

  // ---- Get, Forget and Done of each worker ----

  /** Where the log says a worker is between Get and Done. */
  datatype Track =
    | Free
    | Held(item: string)
    | Ended(item: string, ok: bool)
    | ForgotItem(item: string)
    | Broken

  function TrackEntry(t: Track, e: Entry, w: nat): Track {
    match e
    case Got(v, item) => if v != w then t else if t == Free then Held(item) else Broken
    case Finished(v, job, ok, _) => if v != w then t else if t == Held(job.item) then Ended(job.item, ok) else Broken
    case Forgot(v, item) => if v != w then t else if t == Ended(item, true) then ForgotItem(item) else Broken
    case DidDone(v, item) =>
      if v != w then t else if t == Ended(item, false) || t == ForgotItem(item) then Free else Broken
    case _ => t
  }

  function TrackLog(log: seq<Entry>, w: nat): Track {
    if log == [] then Free else TrackEntry(TrackLog(log[..|log| - 1], w), log[|log| - 1], w)
  }

  function TrackOf(p: Phase): Track {
    match p
    case Idle => Free
    case Stopped => Free
    case Returned(job, ok) => Ended(job.item, ok)
    case Forgotten(job) => ForgotItem(job.item)
    case _ => Held(p.job.item)
  }

  ghost predicate Accounted(s: State) {
    forall w: nat :: w < |s.workers| ==> TrackLog(s.log, w) == TrackOf(s.workers[w])
  }

  lemma TrackSnoc(log: seq<Entry>, e: Entry, w: nat)
    ensures TrackLog(log + [e], w) == TrackEntry(TrackLog(log, w), e, w)
  {
    assert (log + [e])[..|log|] == log;
  }

  lemma TrackOther(t: Track, e: Entry, w: nat)
    requires (e.Got? || e.Finished? || e.Forgot? || e.DidDone?) && e.worker != w
    ensures TrackEntry(t, e, w) == t
  {
  }

  lemma MoveAccounted(s: State, w: nat, p: Phase, e: Entry)
    requires Accounted(s) && w < |s.workers|
    requires e.Got? || e.Finished? || e.Forgot? || e.DidDone?
    requires e.worker == w && TrackEntry(TrackOf(s.workers[w]), e, w) == TrackOf(p)
    ensures Accounted(Log(Goto(s, w, p), e))
  {
    hide TrackLog, TrackEntry, TrackOf;
    forall v: nat | v < |s.workers| ensures TrackLog(s.log + [e], v) == TrackOf(s.workers[w := p][v]) {
      TrackSnoc(s.log, e, v);
      if v != w {
        TrackOther(TrackLog(s.log, v), e, v);
      }
    }
  }

  lemma CreationAccounted(s: State, e: Entry)
    requires Accounted(s) && (e.CreatedDeployment? || e.CreatedK8sService?)
    ensures Accounted(Log(s, e))
  {
    forall v: nat | v < |s.workers| ensures TrackLog(s.log + [e], v) == TrackOf(s.workers[v]) {
      TrackSnoc(s.log, e, v);
    }
  }

  lemma FinishAccounted(s: State, w: nat, job: Job, ok: bool, found: Option<Service>)
    requires Accounted(s) && w < |s.workers| && TrackOf(s.workers[w]) == Held(job.item)
    ensures Accounted(Finish(s, w, job, ok, found))
  {
    MoveAccounted(s, w, Returned(job, ok), Finished(w, job, ok, found));
  }

  lemma GotoAccounted(s: State, w: nat, p: Phase)
    requires Accounted(s) && w < |s.workers| && TrackOf(s.workers[w]) == TrackOf(p)
    ensures Accounted(Goto(s, w, p))
  {
  }

  lemma StoreAccounted(s: State, service: Service, fault: Fault)
    requires Accounted(s) && s.history != []
    ensures Accounted(StoreDeployment(s, service, fault)) && Accounted(StoreK8sService(s, service, fault))
  {
    var api, key := Current(s), ServiceKey(service);
    var d := api.(deployments := api.deployments[key := BuildDeployment(service)]);
    var k := api.(k8sServices := api.k8sServices[key := BuildK8sService(service)]);
    CreationAccounted(Commit(s, d), CreatedDeployment(service));
    CreationAccounted(Commit(s, k), CreatedK8sService(service));
  }

  lemma AfterDeploymentAccounted(s: State, w: nat, job: Job, service: Service)
    requires Accounted(s) && w < |s.workers| && TrackOf(s.workers[w]) == Held(job.item)
    ensures Accounted(AfterDeployment(s, w, job, service))
  {
    FinishAccounted(s, w, job, true, Some(service));
    GotoAccounted(s, w, ListingK8sService(job, service));
  }

  lemma CreatingAccounted(s: State, w: nat, job: Job, service: Service, fault: Fault)
    requires Accounted(s) && s.history != [] && w < |s.workers| && TrackOf(s.workers[w]) == Held(job.item)
    ensures var s' := StoreDeployment(s, service, fault);
            Accounted(AfterDeployment(s', w, job, service)) && Accounted(Finish(s', w, job, false, Some(service)))
    ensures forall ok :: Accounted(Finish(StoreK8sService(s, service, fault), w, job, ok, Some(service)))
  {
    hide StoreDeployment, StoreK8sService, Finish, Accounted, AfterDeployment;
    StoreAccounted(s, service, fault);
    var d, k := StoreDeployment(s, service, fault), StoreK8sService(s, service, fault);
    AfterDeploymentAccounted(d, w, job, service);
    FinishAccounted(d, w, job, false, Some(service));
    FinishAccounted(k, w, job, true, Some(service));
    FinishAccounted(k, w, job, false, Some(service));
  }

  lemma TakeItemAccounted(s: State, w: nat)
    requires Inv(s) && w < |s.workers| && s.workers[w].Idle? && CanGet(s.queue) && Accounted(s)
    ensures Accounted(TakeItem(s, w))
  {
    hide Accounted, Taken;
    GotoAccounted(s, w, Stopped);
    if !MustStop(s.queue) {
      var item := s.queue.queue[0];
      QueueAccounted(s, Taken(s.queue));
      MoveAccounted(s.(queue := Taken(s.queue)), w, Reading(Job(item, |s.log|)), Got(w, item));
    }
  }

  lemma ReadServiceAccounted(s: State, w: nat, job: Job, fault: Fault)
    requires Inv(s) && w < |s.workers| && s.workers[w] == Reading(job) && Accounted(s)
    ensures Accounted(ReadService(s, w, job, fault))
  {
    hide Accounted, Finish, LookupOf;
    FinishAccounted(s, w, job, true, None);
    FinishAccounted(s, w, job, false, None);
    forall service: Service ensures Accounted(Goto(s, w, ListingDeployment(job, service))) {
      GotoAccounted(s, w, ListingDeployment(job, service));
    }
  }

  lemma ListingAccounted(s: State, w: nat, fault: Fault)
    requires Inv(s) && Enabled(s, Work(w, fault)) && Accounted(s)
    requires s.workers[w].ListingDeployment? || s.workers[w].ListingK8sService?
    ensures Accounted(WorkerStep(s, w, fault))
  {
    var job, service := s.workers[w].job, s.workers[w].service;
    hide Inv, Finish, Accounted, AfterDeployment, ListerKey;
    FinishAccounted(s, w, job, false, Some(service));
    FinishAccounted(s, w, job, true, Some(service));
    AfterDeploymentAccounted(s, w, job, service);
    GotoAccounted(s, w, CreatingDeployment(job, service));
    GotoAccounted(s, w, CreatingK8sService(job, service));
  }

  lemma StoringAccounted(s: State, w: nat, fault: Fault)
    requires Inv(s) && Enabled(s, Work(w, fault)) && Accounted(s)
    requires s.workers[w].CreatingDeployment? || s.workers[w].CreatingK8sService?
    ensures Accounted(WorkerStep(s, w, fault))
  {
    assert s.history != [];
    hide Inv, StoreDeployment, StoreK8sService, Finish, Accounted, AfterDeployment, ServiceKey, Succeeds;
    CreatingAccounted(s, w, s.workers[w].job, s.workers[w].service, fault);
  }

  lemma WorkAccounted(s: State, w: nat, fault: Fault)
    requires Inv(s) && Enabled(s, Work(w, fault)) && Accounted(s)
    ensures Accounted(WorkerStep(s, w, fault))
  {
    PhaseOf(s, w);
    hide Inv, Accounted, TakeItem, ReadService, GiveBack, CanGet;
    var p := s.workers[w];
    if p.ListingDeployment? || p.ListingK8sService? {
      ListingAccounted(s, w, fault);
    } else if HasService(p) {
      StoringAccounted(s, w, fault);
    } else if p.Idle? {
      TakeItemAccounted(s, w);
    } else if p.Reading? {
      ReadServiceAccounted(s, w, p.job, fault);
    } else if p.Returned? && p.ok {
      MoveAccounted(s, w, Forgotten(p.job), Forgot(w, p.job.item));
    } else {
      GiveBackAccounted(s, w, p.job);
    }
  }

  lemma QueueAccounted(s: State, q: QueueState)
    requires Accounted(s)
    ensures Accounted(s.(queue := q))
  {
  }

  lemma GiveBackAccounted(s: State, w: nat, job: Job)
    requires Inv(s) && Accounted(s) && w < |s.workers| && job.item in s.queue.processing
    requires s.workers[w] == Forgotten(job) || s.workers[w] == Returned(job, false)
    ensures Accounted(GiveBack(s, w, job))
  {
    hide Released;
    QueueAccounted(s, Released(s.queue, job.item));
    MoveAccounted(s.(queue := Released(s.queue, job.item)), w, Idle, DidDone(w, job.item));
  }

  /** On every path each Get is followed by exactly one result and one Done of the same item, and
      Forget comes in between exactly when reconcile returned no error. */
  lemma {:induction false} WorkIsAccounted(ss: seq<State>, ls: seq<Step>, i: nat)
    requires IsRun(ss, ls) && i < |ss| && Initial(ss[0])
    ensures Accounted(ss[i])
  {
    if i > 0 {
      WorkIsAccounted(ss, ls, i - 1);
      if ls[i - 1].Work? {
        WorkAccounted(ss[i - 1], ls[i - 1].worker, ls[i - 1].fault);
      } else {
        hide Accounted;
        EnvironmentAccounted(ss[i - 1], ls[i - 1]);
      }
    }
  }

  lemma EnvironmentAccounted(s: State, l: Step)
    requires Inv(s) && Enabled(s, l) && !l.Work? && Accounted(s)
    ensures Accounted(Next(s, l))
  {
  }

  function CountOf(log: seq<Entry>, w: nat): (c: (int, int, int, int)) {
    if log == [] then (0, 0, 0, 0)
    else
      var (gets, dones, forgets, successes) := CountOf(log[..|log| - 1], w);
      match log[|log| - 1]
      case Got(v, _) => (if v == w then gets + 1 else gets, dones, forgets, successes)
      case DidDone(v, _) => (gets, if v == w then dones + 1 else dones, forgets, successes)
      case Forgot(v, _) => (gets, dones, if v == w then forgets + 1 else forgets, successes)
      case Finished(v, _, ok, _) => (gets, dones, forgets, if v == w && ok then successes + 1 else successes)
      case _ => (gets, dones, forgets, successes)
  }

  /** In numbers: Done is called as often as Get and Forget as often as reconcile succeeded,
      except for the item the worker has in hand. */
  lemma {:induction false} CountsMatch(log: seq<Entry>, w: nat)
    requires TrackLog(log, w) != Broken
    ensures var (gets, dones, forgets, successes) := CountOf(log, w);
            && gets == dones + (if TrackLog(log, w) == Free then 0 else 1)
            && successes == forgets + (if TrackLog(log, w).Ended? && TrackLog(log, w).ok then 1 else 0)
  {
    if log != [] {
      CountsMatch(log[..|log| - 1], w);
    }
  }

  /** In every run, for every worker. */
  lemma RunCountsMatch(ss: seq<State>, ls: seq<Step>, i: nat, w: nat)
    requires IsRun(ss, ls) && i < |ss| && Initial(ss[0]) && w < |ss[i].workers|
    ensures var (gets, dones, forgets, successes) := CountOf(ss[i].log, w);
            && gets == dones + (if HeldBy(ss[i].workers[w]).Some? then 1 else 0)
            && successes == forgets + (if ss[i].workers[w].Returned? && ss[i].workers[w].ok then 1 else 0)
  {
    WorkIsAccounted(ss, ls, i);
    CountsMatch(ss[i].log, w);
  }

  // ---- No more items in processing than workers ----

  lemma {:induction false} HeldBound(ws: seq<Phase>, items: set<string>)
    requires forall x :: x in items ==> exists w :: 0 <= w < |ws| && HeldBy(ws[w]) == Some(x)
    ensures |items| <= |ws|
  {
    if ws == [] {
      assert forall x :: x !in items;
    } else {
      var last := |ws| - 1;
      var rest := if HeldBy(ws[last]).Some? then items - {HeldBy(ws[last]).value} else items;
      forall x | x in rest ensures exists w :: 0 <= w < last && HeldBy(ws[..last][w]) == Some(x) {
        var w :| 0 <= w < |ws| && HeldBy(ws[w]) == Some(x);
        assert ws[..last][w] == ws[w];
      }
      HeldBound(ws[..last], rest);
      assert HeldBy(ws[last]).Some? ==> items <= rest + {HeldBy(ws[last]).value};
    }
  }

  /** In every run different workers never work on the same key. */
  lemma WorkersExclusive(ss: seq<State>, ls: seq<Step>, i: nat, v: nat, w: nat)
    requires IsRun(ss, ls) && i < |ss|
    requires v < |ss[i].workers| && w < |ss[i].workers| && v != w && HeldBy(ss[i].workers[v]).Some?
    ensures HeldBy(ss[i].workers[v]) != HeldBy(ss[i].workers[w])
  {
    RunInv(ss, ls, i);
  }

  /** In every run no more items are in processing than there are workers. */
  lemma ProcessingIsBounded(ss: seq<State>, ls: seq<Step>, i: nat)
    requires IsRun(ss, ls) && i < |ss|
    ensures |ss[i].queue.processing| <= |ss[i].workers|
  {
    RunInv(ss, ls, i);
    HeldBound(ss[i].workers, ss[i].queue.processing);
  }

  // ---- Events are not lost ----

  /** The log has a Get of the item at position n or later. */
  ghost predicate GotSince(s: State, n: nat, item: string) {
    exists k :: n <= k < |s.log| && s.log[k].Got? && s.log[k].item == item
  }

  lemma GotSinceGrows(s: State, s': State, n: nat, item: string)
    requires s.log <= s'.log && GotSince(s, n, item)
    ensures GotSince(s', n, item)
  {
    var k :| n <= k < |s.log| && s.log[k].Got? && s.log[k].item == item;
    assert s'.log[k] == s.log[k];
  }

  lemma NextKeepsDirty(s: State, l: Step, item: string)
    requires Inv(s) && Enabled(s, l) && item in s.queue.dirty
    ensures item in Next(s, l).queue.dirty || GotSince(Next(s, l), |s.log|, item)
  {
    var s' := Next(s, l);
    if l.Work? {
      var w := l.worker;
      if s.workers[w].Idle? && !MustStop(s.queue) && s.queue.queue[0] == item {
        assert s'.log[|s.log|] == Got(w, item);
      } else {
        WorkKeepsDirty(s, w, l.fault, item);
      }
    }
  }

  lemma WorkKeepsDirty(s: State, w: nat, fault: Fault, item: string)
    requires Inv(s) && Enabled(s, Work(w, fault)) && item in s.queue.dirty
    requires s.workers[w].Idle? && !MustStop(s.queue) ==> s.queue.queue[0] != item
    ensures item in WorkerStep(s, w, fault).queue.dirty
  {
    if HasService(s.workers[w]) {
      ServiceWorkKeepsQueue(s, w, fault);
    } else {
      hide Inv, Taken, Released, LookupOf;
    }
  }

  lemma ServiceWorkKeepsQueue(s: State, w: nat, fault: Fault)
    requires Inv(s) && Enabled(s, Work(w, fault)) && HasService(s.workers[w])
    ensures WorkerStep(s, w, fault).queue == s.queue
  {
    hide Inv, StoreDeployment, StoreK8sService, ServiceKey, ListerKey, NeedsK8sService, Succeeds;
  }

  lemma {:induction false} DirtyUntilTaken(ss: seq<State>, ls: seq<Step>, i: nat, j: nat, item: string)
    requires IsRun(ss, ls) && i <= j < |ss| && item in ss[i].queue.dirty
    ensures ss[i].log <= ss[j].log
    ensures item in ss[j].queue.dirty || GotSince(ss[j], |ss[i].log|, item)
  {
    hide Next, Inv, Enabled;
    if i < j {
      DirtyUntilTaken(ss, ls, i, j - 1, item);
      var s := ss[j - 1];
      NextGrows(s, ls[j - 1]);
      if item in s.queue.dirty {
        NextKeepsDirty(s, ls[j - 1], item);
      } else {
        GotSinceGrows(s, ss[j], |ss[i].log|, item);
      }
    }
  }

  /** An event that arrives before shutdown, even while its key is being reconciled, is followed by
      another Get of that key before the queue can drain. */
  lemma NotifiedIsTakenAgain(ss: seq<State>, ls: seq<Step>, i: nat, j: nat, key: string)
    requires IsRun(ss, ls) && i < |ls| && ls[i] == Notify(key) && !ss[i].queue.shuttingDown
    requires i < j < |ss| && ss[j].queue.queue == [] && key !in ss[j].queue.processing
    ensures GotSince(ss[j], |ss[i].log|, key)
  {
    DirtyUntilTaken(ss, ls, i + 1, j, key);
    RunInv(ss, ls, j);
    assert key !in ss[j].queue.queue;
  }

  // ---- Only events lead to reconciles ----

  predicate Untracked(q: QueueState, item: string) { item !in q.dirty && item !in q.processing }

  /** What a worker adds to the log besides Get. */
  ghost predicate NoGets(s: State, s': State) {
    s.log <= s'.log && forall k :: |s.log| <= k < |s'.log| ==> !s'.log[k].Got?
  }

  lemma FinishNoGets(s: State, s': State, w: nat, job: Job, found: Option<Service>)
    requires NoGets(s, s') && w < |s'.workers|
    ensures forall ok :: NoGets(s, Finish(s', w, job, ok, found))
  {
    forall ok: bool ensures NoGets(s, Finish(s', w, job, ok, found)) {
    }
  }

  lemma StoreNoGets(s: State, service: Service, fault: Fault)
    requires s.history != []
    ensures NoGets(s, StoreDeployment(s, service, fault)) && NoGets(s, StoreK8sService(s, service, fault))
  {
    hide BuildDeployment, BuildK8sService, ServiceKey;
  }

  lemma WorkGets(s: State, w: nat, fault: Fault)
    requires Inv(s) && Enabled(s, Work(w, fault)) && !s.workers[w].Idle?
    ensures NoGets(s, WorkerStep(s, w, fault))
  {
    hide StoreDeployment, StoreK8sService, Finish, LookupOf, ListerKey, NeedsK8sService, Released;
    if s.workers[w].Reading? {
      FinishNoGets(s, s, w, s.workers[w].job, None);
    } else if HasService(s.workers[w]) {
      var job, service := s.workers[w].job, s.workers[w].service;
      StoreNoGets(s, service, fault);
      FinishNoGets(s, s, w, job, Some(service));
      FinishNoGets(s, StoreDeployment(s, service, fault), w, job, Some(service));
      FinishNoGets(s, StoreK8sService(s, service, fault), w, job, Some(service));
    }
  }

  lemma OtherWorkUntracks(s: State, w: nat, fault: Fault, item: string)
    requires Inv(s) && Enabled(s, Work(w, fault)) && Untracked(s.queue, item)
    requires !s.workers[w].Idle? && !HasService(s.workers[w])
    ensures Untracked(WorkerStep(s, w, fault).queue, item)
  {
    PhaseOf(s, w);
    assert WellFormed(s.queue);
    hide Inv, LookupOf, Finish;
    ReadingKeepsQueue(s, w, fault);
  }

  lemma ReadingKeepsQueue(s: State, w: nat, fault: Fault)
    requires Inv(s) && Enabled(s, Work(w, fault))
    ensures s.workers[w].Reading? ==> WorkerStep(s, w, fault).queue == s.queue
  {
    hide Inv, LookupOf;
  }

  lemma WorkKeepsUntracked(s: State, w: nat, fault: Fault, item: string)
    requires Inv(s) && Enabled(s, Work(w, fault)) && Untracked(s.queue, item)
    ensures Untracked(WorkerStep(s, w, fault).queue, item)
    ensures !GotSince(WorkerStep(s, w, fault), |s.log|, item)
  {
    if s.workers[w].Idle? {
      assert WellFormed(s.queue);
      hide Inv, Taken;
      if !MustStop(s.queue) {
        assert s.queue.queue[0] in s.queue.queue;
      }
    } else {
      WorkGets(s, w, fault);
      if HasService(s.workers[w]) {
        ServiceWorkKeepsQueue(s, w, fault);
        hide WorkerStep, Inv;
      } else {
        OtherWorkUntracks(s, w, fault, item);
        hide WorkerStep, Inv;
      }
    }
  }

  lemma NextKeepsUntracked(s: State, l: Step, item: string)
    requires Inv(s) && Enabled(s, l) && Untracked(s.queue, item) && l != Notify(item)
    ensures Untracked(Next(s, l).queue, item) && !GotSince(Next(s, l), |s.log|, item)
  {
    if l.Work? {
      WorkKeepsUntracked(s, l.worker, l.fault, item);
      hide WorkerStep, Untracked;
    } else {
      NextGrows(s, l);
      hide ValidHistory, ViewsInRange, Exclusive, ItemsAreServices;
    }
  }

  /** A key nobody tracks is not touched again before the next event for it. */
  lemma {:induction false} OnlyEventsRetry(ss: seq<State>, ls: seq<Step>, i: nat, j: nat, item: string)
    requires IsRun(ss, ls) && i <= j < |ss| && Untracked(ss[i].queue, item)
    requires forall k :: i <= k < j ==> ls[k] != Notify(item)
    ensures Untracked(ss[j].queue, item) && ss[i].log <= ss[j].log && !GotSince(ss[j], |ss[i].log|, item)
  {
    if i < j {
      hide Inv, Next, WorkerStep, Enabled, Untracked;
      OnlyEventsRetry(ss, ls, i, j - 1, item);
      var s, l := ss[j - 1], ls[j - 1];
      NextGrows(s, l);
      NextKeepsUntracked(s, l, item);
      assert forall k :: 0 <= k < |s.log| ==> ss[j].log[k] == s.log[k];
    }
  }

  /** A failed reconcile is neither put back nor retried: unlike what the comment in the source
      promises, only a new event for the key leads to another attempt. */
  lemma FailureIsNotRetried(ss: seq<State>, ls: seq<Step>, i: nat, j: nat, w: nat, job: Job, fault: Fault)
    requires IsRun(ss, ls) && i < |ls| && ls[i] == Work(w, fault)
    requires ss[i].workers[w] == Returned(job, false) && job.item !in ss[i].queue.dirty
    requires i < j < |ss| && forall k :: i < k < j ==> ls[k] != Notify(job.item)
    ensures Untracked(ss[j].queue, job.item) && !GotSince(ss[j], |ss[i + 1].log|, job.item)
  {
    assert Untracked(ss[i + 1].queue, job.item);
    OnlyEventsRetry(ss, ls, i + 1, j, job.item);
  }

  // ---- First in, first out ----

  function GotCount(log: seq<Entry>): nat {
    if log == [] then 0 else GotCount(log[..|log| - 1]) + if log[|log| - 1].Got? then 1 else 0
  }

  lemma {:induction false} NoGetsCount(s: State, s': State, n: nat)
    requires NoGets(s, s') && |s.log| <= n <= |s'.log|
    ensures GotCount(s'.log[..n]) == GotCount(s.log)
  {
    if n == |s.log| {
      assert s'.log[..n] == s.log;
    } else {
      NoGetsCount(s, s', n - 1);
      assert s'.log[..n][..n - 1] == s'.log[..n - 1];
    }
  }

  /** A step takes the head of the queue, or at most adds at its end. */
  ghost predicate QueueMoves(s: State, s': State) {
    || (s.queue.queue != [] && s.queue.queue == [s.queue.queue[0]] + s'.queue.queue
        && exists w :: s'.log == s.log + [Got(w, s.queue.queue[0])])
    || (s.queue.queue <= s'.queue.queue && NoGets(s, s'))
  }

  lemma NextMovesQueue(s: State, l: Step)
    requires Inv(s) && Enabled(s, l)
    ensures QueueMoves(s, Next(s, l))
  {
    if !l.Work? {
      NextGrows(s, l);
      hide ValidHistory, Exclusive, ItemsAreServices, ViewsInRange;
    } else if s.workers[l.worker].Idle? {
      assert WellFormed(s.queue);
      hide Inv, Taken;
      if !MustStop(s.queue) {
        assert Next(s, l).log == s.log + [Got(l.worker, s.queue.queue[0])];
      }
    } else {
      WorkGets(s, l.worker, l.fault);
      WorkAddsAtEnd(s, l.worker, l.fault);
      hide WorkerStep, Inv, NoGets;
    }
  }

  lemma WorkAddsAtEnd(s: State, w: nat, fault: Fault)
    requires Inv(s) && Enabled(s, Work(w, fault)) && !s.workers[w].Idle?
    ensures s.queue.queue <= WorkerStep(s, w, fault).queue.queue
  {
    if HasService(s.workers[w]) {
      ServiceWorkKeepsQueue(s, w, fault);
    } else {
      PhaseOf(s, w);
      assert WellFormed(s.queue);
      ReadingKeepsQueue(s, w, fault);
      hide Inv, Released, ReadService;
    }
  }

  /** Items are taken in the order they were queued: while one still waits, exactly those ahead of it have been taken,
      one by each Get, so it waits for no more Gets than there were items ahead of it. */
  lemma {:induction false} TakenInOrder(ss: seq<State>, ls: seq<Step>, i: nat, j: nat, p: nat, item: string)
    requires IsRun(ss, ls) && i <= j < |ss| && p < |ss[i].queue.queue| && ss[i].queue.queue[p] == item
    ensures GotCount(ss[i].log) <= GotCount(ss[j].log) && ss[i].log <= ss[j].log
    ensures var gets := GotCount(ss[j].log) - GotCount(ss[i].log);
            if gets <= p then p - gets < |ss[j].queue.queue| && ss[j].queue.queue[p - gets] == item
            else GotSince(ss[j], |ss[i].log|, item)
  {
    hide Next, Inv, Enabled;
    if i < j {
      TakenInOrder(ss, ls, i, j - 1, p, item);
      NextMovesQueue(ss[j - 1], ls[j - 1]);
      NextGrows(ss[j - 1], ls[j - 1]);
      OrderKept(ss[i], ss[j - 1], ss[j], p, item);
    }
  }

  lemma OrderKept(first: State, s: State, s': State, p: nat, item: string)
    requires first.log <= s.log <= s'.log && QueueMoves(s, s') && GotCount(first.log) <= GotCount(s.log)
    requires var gets := GotCount(s.log) - GotCount(first.log);
             if gets <= p then p - gets < |s.queue.queue| && s.queue.queue[p - gets] == item
             else GotSince(s, |first.log|, item)
    ensures GotCount(first.log) <= GotCount(s'.log)
    ensures var gets := GotCount(s'.log) - GotCount(first.log);
            if gets <= p then p - gets < |s'.queue.queue| && s'.queue.queue[p - gets] == item
            else GotSince(s', |first.log|, item)
  {
    if s.queue.queue <= s'.queue.queue && NoGets(s, s') {
      NoGetsCount(s, s', |s'.log|);
      assert s'.log[..|s'.log|] == s'.log;
    } else {
      assert s'.log[..|s.log|] == s.log && s'.log[|s.log|].Got?;
      assert GotCount(s'.log) == GotCount(s.log) + 1;
      assert s'.log[|s.log|].item == s.queue.queue[0];
    }
    if GotSince(s, |first.log|, item) {
      GotSinceGrows(s, s', |first.log|, item);
    }
  }
}
