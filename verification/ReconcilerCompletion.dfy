/** Once outside writers have stopped and the caches have caught up, one error-free reconcile of every
    service leaves no required child missing. */
module ReconcilerCompletion {
  import opened MeshTypes
  import opened Builders
  import opened Keys
  import opened WorkQueue
  import opened Reconciler
  import opened ReconcilerSafety
  import opened ReconcilerConvergence

  // ---- Caches that have caught up ----

  /** Jobs that began before position n of the log do not count. */
  predicate HoldsCurrent(p: Phase, services: map<string, Service>, n: nat) {
    HasService(p) && n <= p.job.began ==> ServiceKey(p.service) in services && services[ServiceKey(p.service)] == p.service
  }

  /** The service cache shows the current services, and what workers hold for jobs begun since is current too. */
  ghost predicate CaughtUp(s: State, n: nat) {
    s.history != []
    && (forall i :: s.views.services <= i < |s.history| ==> s.history[i].services == Current(s).services)
    && (forall w :: 0 <= w < |s.workers| ==> HoldsCurrent(s.workers[w], Current(s).services, n))
  }

  /** What the child caches show still exists. */
  ghost predicate NoPhantoms(s: State) {
    s.history != []
    && (forall i :: s.views.deployments <= i < |s.history| ==>
          s.history[i].deployments.Keys <= Current(s).deployments.Keys)
    && (forall i :: s.views.k8sServices <= i < |s.history| ==>
          s.history[i].k8sServices.Keys <= Current(s).k8sServices.Keys)
  }

  predicate Complete(service: Service, api: Api) {
    && ServiceKey(service) in api.deployments
    && (service.spec.container.ports != [] || service.spec.gateway.Some? ==> ServiceKey(service) in api.k8sServices)
  }

  predicate PhaseProgress(p: Phase, api: Api, n: nat) {
    PastDeployment(p) && n <= p.job.began ==> ServiceKey(p.service) in api.deployments
  }

  /** A successful reconcile begun at n or later left its service complete, or the service is gone. */
  predicate EntryProgress(e: Entry, api: Api, n: nat) {
    e.Finished? && e.ok && n <= e.job.began ==>
      match e.found
      case None => e.job.item !in api.services
      case Some(service) => e.job.item == ServiceKey(service) && Complete(service, api)
                            && e.job.item in api.services && api.services[e.job.item] == service
  }

  ghost predicate LogProgress(log: seq<Entry>, api: Api, n: nat) {
    forall k :: n <= k < |log| ==> EntryProgress(log[k], api, n)
  }

  ghost predicate PhasesProgress(ws: seq<Phase>, api: Api, n: nat) {
    forall w :: 0 <= w < |ws| ==> PhaseProgress(ws[w], api, n)
  }

  ghost predicate Progress(s: State, n: nat) {
    s.history != [] && LogProgress(s.log, Current(s), n) && PhasesProgress(s.workers, Current(s), n)
  }

  /** The same services and no fewer children. */
  predicate Ahead(a: Api, b: Api) {
    b.services == a.services && a.deployments.Keys <= b.deployments.Keys && a.k8sServices.Keys <= b.k8sServices.Keys
  }

  lemma CommitProgress(s: State, api: Api, n: nat)
    requires Progress(s, n) && Ahead(Current(s), api)
    ensures Progress(Commit(s, api), n)
  {
    hide NeedsK8sService, ServiceKey;
    forall k | n <= k < |s.log| ensures EntryProgress(s.log[k], api, n) {
      assert EntryProgress(s.log[k], Current(s), n);
    }
  }

  lemma LogsProgress(s: State, e: Entry, n: nat)
    requires Progress(s, n) && EntryProgress(e, Current(s), n)
    ensures Progress(Log(s, e), n)
  {
  }

  lemma GotoProgress(s: State, w: nat, p: Phase, n: nat)
    requires Progress(s, n) && w < |s.workers| && PhaseProgress(p, Current(s), n)
    ensures Progress(Goto(s, w, p), n)
  {
  }

  lemma FinishProgress(s: State, w: nat, job: Job, ok: bool, found: Option<Service>, n: nat)
    requires Progress(s, n) && w < |s.workers| && EntryProgress(Finished(w, job, ok, found), Current(s), n)
    ensures Progress(Finish(s, w, job, ok, found), n)
  {
    hide EntryProgress;
    GotoProgress(s, w, Returned(job, ok), n);
    LogsProgress(Goto(s, w, Returned(job, ok)), Finished(w, job, ok, found), n);
  }

  lemma StoreProgress(s: State, service: Service, fault: Fault, n: nat)
    requires s.history != [] && Progress(s, n)
    ensures Progress(StoreDeployment(s, service, fault), n) && Progress(StoreK8sService(s, service, fault), n)
    ensures Ahead(Current(s), Current(StoreDeployment(s, service, fault)))
    ensures Ahead(Current(s), Current(StoreK8sService(s, service, fault)))
    ensures Succeeds(ServiceKey(service) in Current(s).deployments, fault) ==>
              ServiceKey(service) in Current(StoreDeployment(s, service, fault)).deployments
    ensures Succeeds(ServiceKey(service) in Current(s).k8sServices, fault) ==>
              ServiceKey(service) in Current(StoreK8sService(s, service, fault)).k8sServices
  {
    hide BuildDeployment, BuildK8sService, Progress;
    var api, key := Current(s), ServiceKey(service);
    var d := api.(deployments := api.deployments[key := BuildDeployment(service)]);
    var k := api.(k8sServices := api.k8sServices[key := BuildK8sService(service)]);
    CommitProgress(s, d, n);
    CommitProgress(s, k, n);
    LogsProgress(Commit(s, d), CreatedDeployment(service), n);
    LogsProgress(Commit(s, k), CreatedK8sService(service), n);
  }

  /** The job is about the current version of a current service. */
  ghost predicate Holds(s: State, job: Job, service: Service) {
    s.history != [] && job.item == ServiceKey(service)
    && job.item in Current(s).services && Current(s).services[job.item] == service
  }

  lemma AfterDeploymentProgress(s: State, w: nat, job: Job, service: Service, n: nat)
    requires Progress(s, n) && w < |s.workers| && (n <= job.began ==> Holds(s, job, service))
    requires n <= job.began ==> ServiceKey(service) in Current(s).deployments
    ensures Progress(AfterDeployment(s, w, job, service), n)
  {
    hide ServiceKey, Progress;
    if NeedsK8sService(service) {
      GotoProgress(s, w, ListingK8sService(job, service), n);
    } else {
      FinishProgress(s, w, job, true, Some(service), n);
    }
  }

  lemma HoldsService(s: State, w: nat, n: nat)
    requires Inv(s) && CaughtUp(s, n) && w < |s.workers| && HasService(s.workers[w])
    ensures n <= s.workers[w].job.began ==> Holds(s, s.workers[w].job, s.workers[w].service)
    ensures s.workers[w].job.item == ServiceKey(s.workers[w].service)
  {
    PhaseOf(s, w);
  }

  lemma ReadServiceProgress(s: State, w: nat, job: Job, fault: Fault, n: nat)
    requires Inv(s) && CaughtUp(s, n) && Progress(s, n) && w < |s.workers| && s.workers[w] == Reading(job)
    ensures Progress(ReadService(s, w, job, fault), n)
  {
    hide Progress, Finish, LookupOf;
    assert HeldBy(s.workers[w]) == Some(job.item) && WasService(s, job.item);
    WasServiceKey(s, job.item);
    FinishProgress(s, w, job, false, None, n);
    if job.item in Current(s).services {
      GotoProgress(s, w, ListingDeployment(job, Current(s).services[job.item]), n);
    } else {
      FinishProgress(s, w, job, true, None, n);
    }
  }

  lemma ListingDeploymentProgress(s: State, w: nat, job: Job, service: Service, fault: Fault, n: nat)
    requires Inv(s) && CaughtUp(s, n) && NoPhantoms(s) && Progress(s, n)
    requires w < |s.workers| && s.workers[w] == ListingDeployment(job, service)
    ensures Progress(WorkerStep(s, w, fault), n)
  {
    hide Progress, Finish, ServiceKey, NeedsK8sService, AfterDeployment;
    HoldsService(s, w, n);
    ChildKeys(s, w);
    FinishProgress(s, w, job, false, Some(service), n);
    GotoProgress(s, w, CreatingDeployment(job, service), n);
    if n <= job.began ==> ServiceKey(service) in Current(s).deployments {
      AfterDeploymentProgress(s, w, job, service, n);
    }
  }

  lemma CreatingDeploymentProgress(s: State, w: nat, job: Job, service: Service, fault: Fault, n: nat)
    requires Inv(s) && CaughtUp(s, n) && Progress(s, n)
    requires w < |s.workers| && s.workers[w] == CreatingDeployment(job, service)
    ensures Progress(WorkerStep(s, w, fault), n)
  {
    hide Progress, Finish, ServiceKey, NeedsK8sService, AfterDeployment, StoreDeployment;
    HoldsService(s, w, n);
    StoreProgress(s, service, fault, n);
    var s' := StoreDeployment(s, service, fault);
    FinishProgress(s', w, job, false, Some(service), n);
    if Succeeds(ServiceKey(service) in Current(s).deployments, fault) {
      AfterDeploymentProgress(s', w, job, service, n);
    }
  }

  lemma PastProgress(s: State, w: nat, n: nat)
    requires Progress(s, n) && w < |s.workers|
    ensures PhaseProgress(s.workers[w], Current(s), n)
  {
  }

  lemma ListingK8sServiceProgress(s: State, w: nat, job: Job, service: Service, fault: Fault, n: nat)
    requires Inv(s) && CaughtUp(s, n) && NoPhantoms(s) && Progress(s, n)
    requires w < |s.workers| && s.workers[w] == ListingK8sService(job, service)
    ensures Progress(WorkerStep(s, w, fault), n)
  {
    hide Progress, Finish, ServiceKey, NeedsK8sService;
    HoldsService(s, w, n);
    ChildKeys(s, w);
    PastProgress(s, w, n);
    FinishProgress(s, w, job, false, Some(service), n);
    GotoProgress(s, w, CreatingK8sService(job, service), n);
    if n <= job.began ==> ServiceKey(service) in Current(s).k8sServices {
      FinishProgress(s, w, job, true, Some(service), n);
    }
  }

  lemma CreatingK8sServiceProgress(s: State, w: nat, job: Job, service: Service, fault: Fault, n: nat)
    requires Inv(s) && CaughtUp(s, n) && Progress(s, n)
    requires w < |s.workers| && s.workers[w] == CreatingK8sService(job, service)
    ensures Progress(WorkerStep(s, w, fault), n)
  {
    hide Progress, Finish, ServiceKey, NeedsK8sService, StoreK8sService;
    HoldsService(s, w, n);
    PastProgress(s, w, n);
    StoreProgress(s, service, fault, n);
    var s' := StoreK8sService(s, service, fault);
    var ok := Succeeds(ServiceKey(service) in Current(s).k8sServices, fault);
    FinishProgress(s', w, job, ok, Some(service), n);
  }

  lemma WorkProgress(s: State, w: nat, fault: Fault, n: nat)
    requires Inv(s) && CaughtUp(s, n) && NoPhantoms(s) && Progress(s, n) && Enabled(s, Work(w, fault))
    ensures Progress(WorkerStep(s, w, fault), n)
  {
    hide Finish, Taken, Released, Current, NoPhantoms, CaughtUp;
    match s.workers[w]
    case Reading(job) => ReadServiceProgress(s, w, job, fault, n);
    case ListingDeployment(job, service) => ListingDeploymentProgress(s, w, job, service, fault, n);
    case CreatingDeployment(job, service) => CreatingDeploymentProgress(s, w, job, service, fault, n);
    case ListingK8sService(job, service) => ListingK8sServiceProgress(s, w, job, service, fault, n);
    case CreatingK8sService(job, service) => CreatingK8sServiceProgress(s, w, job, service, fault, n);
    case _ => BookkeepingProgress(s, w, fault, n);
  }

  lemma SameProgress(s: State, s': State, n: nat)
    requires Progress(s, n) && s'.history == s.history && s'.workers == s.workers && s'.log == s.log
    ensures Progress(s', n)
  {
  }

  lemma GiveBackProgress(s: State, w: nat, job: Job, n: nat)
    requires Inv(s) && Progress(s, n) && w < |s.workers| && job.item in s.queue.processing
    ensures Progress(GiveBack(s, w, job), n)
  {
    assert WellFormed(s.queue);
    hide Inv, Progress, Released, WellFormed;
    var s' := s.(queue := Released(s.queue, job.item));
    SameProgress(s, s', n);
    GotoProgress(s', w, Idle, n);
    LogsProgress(Goto(s', w, Idle), DidDone(w, job.item), n);
  }

  lemma TakeItemProgress(s: State, w: nat, n: nat)
    requires Inv(s) && Progress(s, n) && w < |s.workers| && CanGet(s.queue)
    ensures Progress(TakeItem(s, w), n)
  {
    assert WellFormed(s.queue);
    hide Inv, Progress, Taken, WellFormed;
    if MustStop(s.queue) {
      GotoProgress(s, w, Stopped, n);
    } else {
      var item, s' := s.queue.queue[0], s.(queue := Taken(s.queue));
      SameProgress(s, s', n);
      GotoProgress(s', w, Reading(Job(item, |s.log|)), n);
      LogsProgress(Goto(s', w, Reading(Job(item, |s.log|))), Got(w, item), n);
    }
  }

  lemma BookkeepingProgress(s: State, w: nat, fault: Fault, n: nat)
    requires Inv(s) && Progress(s, n) && Enabled(s, Work(w, fault))
    requires s.workers[w].Idle? || s.workers[w].Returned? || s.workers[w].Forgotten?
    ensures Progress(WorkerStep(s, w, fault), n)
  {
    PhaseOf(s, w);
    hide Inv, Progress, TakeItem, GiveBack, CanGet;
    if s.workers[w].Idle? {
      TakeItemProgress(s, w, n);
    } else {
      var job := s.workers[w].job;
      GiveBackProgress(s, w, job, n);
      GotoProgress(s, w, Forgotten(job), n);
      LogsProgress(Goto(s, w, Forgotten(job)), Forgot(w, job.item), n);
    }
  }

  lemma AheadKeeps(s: State, s': State, n: nat)
    requires s.history != [] && CaughtUp(s, n) && NoPhantoms(s) && Grows(s, s')
    requires Ahead(Current(s), Current(s'))
    requires forall w :: 0 <= w < |s'.workers| ==> HoldsCurrent(s'.workers[w], Current(s').services, n)
    ensures CaughtUp(s', n) && NoPhantoms(s')
  {
    hide HoldsCurrent;
    assert forall i :: 0 <= i < |s.history| ==> s'.history[i] == s.history[i];
  }

  lemma WorkAhead(s: State, w: nat, fault: Fault)
    requires Inv(s) && Enabled(s, Work(w, fault))
    ensures var s' := Next(s, Work(w, fault));
            s'.history != [] && Ahead(Current(s), Current(s'))
  {
    hide BuildDeployment, BuildK8sService, WorkerStep, ServiceKey;
    WorkOnlyCreates(s, w, fault);
  }

  lemma WorkHoldsCurrent(s: State, w: nat, fault: Fault, n: nat)
    requires Inv(s) && CaughtUp(s, n) && Enabled(s, Work(w, fault))
    ensures var ws := WorkerStep(s, w, fault).workers;
            |ws| == |s.workers| && forall v :: 0 <= v < |ws| ==> HoldsCurrent(ws[v], Current(s).services, n)
  {
    hide WorkerStep;
    var services := Current(s).services;
    WorkPhase(s, w, fault);
    assert HoldsCurrent(s.workers[w], services, n);
    assert s.history[s.views.services].services == services;
    assert forall key :: key in services ==> ValidService(key, services[key]);
  }

  lemma QuietStaysCaughtUp(s: State, l: Step, n: nat)
    requires Inv(s) && Enabled(s, l) && Quiet(l) && CaughtUp(s, n) && NoPhantoms(s)
    ensures CaughtUp(Next(s, l), n) && NoPhantoms(Next(s, l))
    ensures Current(Next(s, l)).services == Current(s).services
  {
    NextGrows(s, l);
    if l.Work? {
      hide WorkerStep, CaughtUp, NoPhantoms, Inv;
      WorkAhead(s, l.worker, l.fault);
      WorkHoldsCurrent(s, l.worker, l.fault, n);
      AheadKeeps(s, Next(s, l), n);
    } else {
      QuietKeepsHistory(s, l);
      AheadKeeps(s, Next(s, l), n);
    }
  }

  lemma {:induction false} QuietProgress(ss: seq<State>, ls: seq<Step>, i: nat, j: nat)
    requires IsRun(ss, ls) && i <= j < |ss| && (forall k :: i <= k < j ==> Quiet(ls[k]))
    requires Inv(ss[i]) && CaughtUp(ss[i], |ss[i].log|) && NoPhantoms(ss[i])
    ensures Inv(ss[j]) && CaughtUp(ss[j], |ss[i].log|) && NoPhantoms(ss[j]) && Progress(ss[j], |ss[i].log|)
    ensures Current(ss[j]).services == Current(ss[i]).services && ss[i].log <= ss[j].log
  {
    var n := |ss[i].log|;
    if i == j {
      StartProgress(ss[i]);
    } else {
      QuietProgress(ss, ls, i, j - 1);
      var s, l := ss[j - 1], ls[j - 1];
      NextKeepsInv(s, l);
      NextGrows(s, l);
      QuietStaysCaughtUp(s, l, n);
      hide Inv, CaughtUp, NoPhantoms, Progress, WorkerStep, Enabled;
      if l.Work? {
        WorkProgress(s, l.worker, l.fault, n);
      } else {
        QuietKeepsProgress(s, l, n);
      }
    }
  }

  lemma QuietKeepsProgress(s: State, l: Step, n: nat)
    requires Inv(s) && Enabled(s, l) && Quiet(l) && !l.Work? && Progress(s, n)
    ensures Progress(Next(s, l), n)
  {
    hide ServiceKey, NeedsK8sService;
  }

  /** Reconciles begun before now are not judged. */
  lemma StartProgress(s: State)
    requires Inv(s)
    ensures Progress(s, |s.log|)
  {
    forall w: nat | w < |s.workers| ensures PhaseProgress(s.workers[w], Current(s), |s.log|) {
      PhaseOf(s, w);
    }
  }

  /** The log shows a successful reconcile of the key that began at position n or later. */
  ghost predicate ReconciledSince(s: State, n: nat, key: string) {
    exists k :: n <= k < |s.log| && s.log[k].Finished? && s.log[k].ok
                && s.log[k].job.item == key && n <= s.log[k].job.began
  }

  // ---- In terms of how far the caches have come ----

  /** All three caches show version h of the API server or a later one. */
  predicate CachesReach(s: State, h: int) {
    h <= s.views.services && h <= s.views.deployments && h <= s.views.k8sServices
  }

  /** Since outside writers stopped, every version has the current services and no child the current one lacks. */
  lemma {:induction false} QuietVersions(ss: seq<State>, ls: seq<Step>, i: nat, j: nat)
    requires IsRun(ss, ls) && i <= j < |ss| && (forall k :: i <= k < j ==> Quiet(ls[k]))
    ensures Inv(ss[j]) && ss[i].history != [] && ss[i].history <= ss[j].history
    ensures forall v :: |ss[i].history| - 1 <= v < |ss[j].history| ==> Ahead(ss[j].history[v], Current(ss[j]))
  {
    hide Inv, Next, Enabled, Quiet, Ahead;
    RunInv(ss, ls, j);
    if i < j {
      var s, l := ss[j - 1], ls[j - 1];
      QuietVersions(ss, ls, i, j - 1);
      QuietIsAhead(s, l);
      forall v | |ss[i].history| - 1 <= v < |ss[j].history| ensures Ahead(ss[j].history[v], Current(ss[j])) {
        if v < |s.history| {
          assert ss[j].history[v] == s.history[v];
          AheadTransitive(s.history[v], Current(s), Current(ss[j]));
        } else {
          AheadSelf(Current(ss[j]));
        }
      }
    } else {
      HasHistory(ss[j]);
      AheadSelf(Current(ss[j]));
    }
  }

  lemma HasHistory(s: State)
    requires Inv(s)
    ensures s.history != []
  {
  }

  lemma AheadTransitive(a: Api, b: Api, c: Api)
    requires Ahead(a, b) && Ahead(b, c)
    ensures Ahead(a, c)
  {
  }

  lemma AheadSelf(a: Api)
    ensures Ahead(a, a)
  {
  }

  lemma QuietIsAhead(s: State, l: Step)
    requires Inv(s) && Enabled(s, l) && Quiet(l) && Inv(Next(s, l))
    ensures Ahead(Current(s), Current(Next(s, l)))
    ensures s.history <= Next(s, l).history && |Next(s, l).history| <= |s.history| + 1
  {
    hide Inv;
    NextGrows(s, l);
    if l.Work? {
      WorkAhead(s, l.worker, l.fault);
    } else {
      QuietKeepsHistory(s, l);
    }
  }

  /** Caches that have reached the last outside write have caught up, for all jobs that begin from now on,
      and show no child that has been deleted. */
  lemma ReachingIsCatchingUp(ss: seq<State>, ls: seq<Step>, i: nat, m: nat)
    requires IsRun(ss, ls) && i <= m < |ss| && (forall k :: i <= k < m ==> Quiet(ls[k]))
    requires CachesReach(ss[m], |ss[i].history| - 1)
    ensures Inv(ss[m]) && CaughtUp(ss[m], |ss[m].log|) && NoPhantoms(ss[m])
  {
    QuietVersions(ss, ls, i, m);
    var s := ss[m];
    forall w: nat | w < |s.workers| ensures HoldsCurrent(s.workers[w], Current(s).services, |s.log|) {
      PhaseOf(s, w);
    }
    assert forall v :: |ss[i].history| - 1 <= v < |s.history| ==> Ahead(s.history[v], Current(s));
    hide Inv, HoldsCurrent;
  }

  /** When nobody else has written since version h of the API server, and all caches show version h or later, then
      from there on one error-free reconcile of every service leaves no required child missing. */
  lemma ReconciledMeansComplete(ss: seq<State>, ls: seq<Step>, i: nat, m: nat, j: nat)
    requires IsRun(ss, ls) && i <= m <= j < |ss| && (forall k :: i <= k < j ==> Quiet(ls[k]))
    requires CachesReach(ss[m], |ss[i].history| - 1)
    requires ss[j].history != []
             && forall key :: key in Current(ss[j]).services ==> ReconciledSince(ss[j], |ss[m].log|, key)
    ensures Missing(Current(ss[j])) == 0
    ensures forall key :: key in Current(ss[j]).services ==>
              var api := Current(ss[j]);
              var spec := api.services[key].spec;
              key in api.deployments && (spec.container.ports != [] || spec.gateway.Some? ==> key in api.k8sServices)
  {
    hide ServiceKey;
    ReachingIsCatchingUp(ss, ls, i, m);
    QuietProgress(ss, ls, m, j);
    var s, n := ss[j], |ss[m].log|;
    var api := Current(s);
    forall key | key in api.services
      ensures var spec := api.services[key].spec;
              key in api.deployments && (spec.container.ports != [] || spec.gateway.Some? ==> key in api.k8sServices)
    {
      var k :| n <= k < |s.log| && s.log[k].Finished? && s.log[k].ok
               && s.log[k].job.item == key && n <= s.log[k].job.began;
      assert EntryProgress(s.log[k], api, n);
    }
    assert WantDeployments(api) - api.deployments.Keys == {};
    assert WantK8sServices(api) - api.k8sServices.Keys == {};
  }

  lemma CaughtUpConverges(s: State, w: nat, fault: Fault, n: nat)
    requires Inv(s) && CaughtUp(s, n) && Enabled(s, Work(w, fault))
    requires JobOf(s.workers[w]).Some? ==> n <= JobOf(s.workers[w]).value.began
    ensures var s' := WorkerStep(s, w, fault);
            s'.history == s.history || (s'.history != [] && Missing(Current(s')) < Missing(Current(s)))
  {
    hide Missing, WorkerStep;
    ReconcilingConverges(s, w, fault);
    assert Next(s, Work(w, fault)) == WorkerStep(s, w, fault);
    if WorkerStep(s, w, fault).history != s.history {
      WorkCreatesWanted(s, w, fault);
      HoldsService(s, w, n);
      PhaseOf(s, w);
      hide Inv, CaughtUp, ServiceKey, NeedsK8sService, Observed;
    }
  }

  /** And every step of a job that began since then strictly lowers the number of missing required children
      or leaves the API server as it is. */
  lemma CaughtUpStepsConverge(ss: seq<State>, ls: seq<Step>, i: nat, m: nat, j: nat, w: nat, fault: Fault)
    requires IsRun(ss, ls) && i <= m <= j < |ls| && (forall k :: i <= k < j ==> Quiet(ls[k]))
    requires CachesReach(ss[m], |ss[i].history| - 1) && ls[j] == Work(w, fault)
    requires JobOf(ss[j].workers[w]).Some? ==> |ss[m].log| <= JobOf(ss[j].workers[w]).value.began
    ensures ss[j + 1].history == ss[j].history
            || (ss[j + 1].history != [] && Missing(Current(ss[j + 1])) < Missing(Current(ss[j])))
  {
    hide Missing, WorkerStep, Inv, CaughtUp, NoPhantoms, Progress;
    ReachingIsCatchingUp(ss, ls, i, m);
    QuietProgress(ss, ls, m, j);
    CaughtUpConverges(ss[j], w, fault, |ss[m].log|);
  }
}
