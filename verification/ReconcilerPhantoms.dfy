/** Exactly when a reconcile that reports success has left its service without a child: a cache still showed a
    child that was gone. For one reconcile on its own and for every interleaving, with runs where it happens. */
module ReconcilerPhantoms {
  import opened MeshTypes
  import opened Builders
  import opened Keys
  import opened WorkQueue
  import opened Reconciler
  import opened ReconcilerSafety
  import opened ReconcilerConvergence
  import opened ReconcilerCompletion
  import SoloReconcile

  /** The cache shows a Deployment that the API server no longer has. */
  ghost predicate PhantomDeployment(s: State, key: string) {
    && s.views.deployments < |s.history| && key in s.history[s.views.deployments].deployments
    && key !in Current(s).deployments
  }

  ghost predicate PhantomK8sService(s: State, key: string) {
    && s.views.k8sServices < |s.history| && key in s.history[s.views.k8sServices].k8sServices
    && key !in Current(s).k8sServices
  }

  // ---- One reconcile on its own ----

  predicate CompleteIn(s: Service, c: SoloReconcile.Children) {
    && ServiceKey(s) in c.deployments
    && (s.spec.container.ports != [] || s.spec.gateway.Some? ==> ServiceKey(s) in c.k8sServices)
  }

  /** A reconcile that succeeds leaves its service complete exactly if no cache showed a missing child. */
  lemma SuccessIsCompleteIff(c: SoloReconcile.Children, caches: SoloReconcile.Caches, s: Service, faults: SoloReconcile.Faults)
    requires ValidName(s.namespace, s.name)
    requires SoloReconcile.ReconcileService(c, caches, s, faults).ok
    ensures CompleteIn(s, SoloReconcile.ReconcileService(c, caches, s, faults).children)
            <==> (ServiceKey(s) in caches.deployments ==> ServiceKey(s) in c.deployments)
                 && (NeedsK8sService(s) && ServiceKey(s) in caches.k8sServices ==> ServiceKey(s) in c.k8sServices)
  {
    var d, k := BuildDeployment(s), BuildK8sService(s);
    assert MetaNamespaceKey(d.namespace, d.name) == MetaNamespaceKey(k.namespace, k.name) == ServiceKey(s);
    assert ListerKey(s.namespace, DeploymentName(s)) == ListerKey(s.namespace, K8sServiceName(s)) == ServiceKey(s);
    hide BuildDeployment, BuildK8sService, ServiceKey, ListerKey, MetaNamespaceKey, NeedsK8sService;
  }

  /** A reconcile that has returned successfully has left the service complete exactly if neither cache showed
      a phantom in the state it started from. */
  ghost predicate SuccessIsComplete(s: State, last: State, w: nat, service: Service) {
    && w < |last.workers| && last.workers[w].Returned? && last.history != []
    && (last.workers[w].ok ==>
          (Complete(service, Current(last))
           <==> !PhantomDeployment(s, ServiceKey(service))
                && (NeedsK8sService(service) ==> !PhantomK8sService(s, ServiceKey(service)))))
  }

  /** The same for a worker of the system that is left alone from its first listing on. */
  lemma SoloSuccessIsCompleteIff(s: State, w: nat, job: Job, service: Service, faults: SoloReconcile.Faults)
    requires Inv(s) && w < |s.workers| && s.workers[w] == ListingDeployment(job, service)
    ensures var ss := SoloReconcile.SoloRun(s, w, faults);
            SuccessIsComplete(s, ss[|ss| - 1], w, service)
  {
    hide SoloReconcile.SoloRun, SoloReconcile.Ended, SoloReconcile.RemainingFrom, SuccessIsComplete, Inv;
    SoloReconcile.SoloRunComputes(s, w, faults);
    var ss := SoloReconcile.SoloRun(s, w, faults);
    EndedIsComplete(s, ss[|ss| - 1], w, job, service, faults);
  }

  lemma EndedIsComplete(s: State, last: State, w: nat, job: Job, service: Service, faults: SoloReconcile.Faults)
    requires Inv(s) && w < |s.workers| && s.workers[w] == ListingDeployment(job, service)
    requires SoloReconcile.Ended(last, w, Some(job), SoloReconcile.RemainingFrom(s, w, faults))
    ensures SuccessIsComplete(s, last, w, service)
  {
    PhaseOf(s, w);
    var c, caches := SoloReconcile.ChildrenOf(Current(s)), SoloReconcile.CachesOf(s);
    var r := SoloReconcile.ReconcileService(c, caches, service, faults);
    assert SoloReconcile.RemainingFrom(s, w, faults) == r;
    if r.ok {
      SuccessIsCompleteIff(c, caches, service, faults);
    }
    hide SoloReconcile.ReconcileService, SoloReconcile.RemainingFrom, ServiceKey, NeedsK8sService, ValidHistory, Exclusive,
      ItemsAreServices, WellFormed;
  }

  lemma CreatedUnlessCached(c: SoloReconcile.Children, caches: SoloReconcile.Caches, s: Service, faults: SoloReconcile.Faults)
    requires ValidName(s.namespace, s.name) && ServiceKey(s) !in c.deployments
    requires faults.listDeployment.NoFault? && faults.createDeployment.NoFault?
    ensures ServiceKey(s) in SoloReconcile.ReconcileService(c, caches, s, faults).children.deployments
            <==> ServiceKey(s) !in caches.deployments
  {
    var d := BuildDeployment(s);
    assert MetaNamespaceKey(d.namespace, d.name) == ServiceKey(s) == ListerKey(s.namespace, DeploymentName(s));
    hide BuildDeployment, BuildK8sService, ServiceKey, ListerKey, MetaNamespaceKey, NeedsK8sService;
  }

  /** A cache that still shows a deleted Deployment makes the whole reconcile skip its creation: left alone, and
      with no failing call, the reconcile ends with the Deployment in place exactly if the cache did not show it. */
  lemma StaleCacheSkipsCreation(s: State, w: nat, job: Job, service: Service, faults: SoloReconcile.Faults)
    requires Inv(s) && w < |s.workers| && s.workers[w] == ListingDeployment(job, service)
    requires ServiceKey(service) !in Current(s).deployments
    requires faults.listDeployment.NoFault? && faults.createDeployment.NoFault?
    ensures var ss := SoloReconcile.SoloRun(s, w, faults);
            var last := ss[|ss| - 1];
            last.history != []
            && (ServiceKey(service) in Current(last).deployments
                <==> ServiceKey(service) !in s.history[s.views.deployments].deployments)
  {
    SoloReconcile.SoloRunComputes(s, w, faults);
    PhaseOf(s, w);
    var c, caches := SoloReconcile.ChildrenOf(Current(s)), SoloReconcile.CachesOf(s);
    assert SoloReconcile.RemainingFrom(s, w, faults) == SoloReconcile.ReconcileService(c, caches, service, faults);
    CreatedUnlessCached(c, caches, service, faults);
    hide SoloReconcile.SoloRun, SoloReconcile.ReconcileService, SoloReconcile.RemainingFrom, ServiceKey, Inv;
  }

  // ---- Any interleaving ----

  /** Creating a child of one service leaves the keys of all others alone. */
  lemma CreationLeavesOthers(a: Api, b: Api, service: Service, key: string)
    requires CreatesDeployment(a, b, service) || CreatesK8sService(a, b, service)
    requires key != ServiceKey(service)
    ensures key in b.deployments <==> key in a.deployments
    ensures key in b.k8sServices <==> key in a.k8sServices
  {
    hide ServiceKey, BuildDeployment, BuildK8sService;
  }

  lemma HeldApart(s: State, v: nat, w: nat)
    requires Inv(s) && v < |s.workers| && w < |s.workers| && v != w && HeldBy(s.workers[w]).Some?
    ensures HeldBy(s.workers[v]) != HeldBy(s.workers[w])
    ensures HasService(s.workers[v]) ==> s.workers[v].job.item == ServiceKey(s.workers[v].service)
    ensures s.history != []
  {
    PhaseOf(s, v);
  }

  lemma OtherWorkLeavesKey(s: State, v: nat, fault: Fault, w: nat, key: string)
    requires Inv(s) && Enabled(s, Work(v, fault)) && w < |s.workers| && HeldBy(s.workers[w]) == Some(key) && v != w
    ensures var s' := WorkerStep(s, v, fault);
            && w < |s'.workers| && s'.workers[w] == s.workers[w] && s'.history != []
            && (key in Current(s').deployments <==> key in Current(s).deployments)
            && (key in Current(s').k8sServices <==> key in Current(s).k8sServices)
  {
    hide Inv, WorkerStep, ServiceKey, NeedsK8sService, CreatesDeployment, CreatesK8sService, Observed, ValidName;
    WorkMovesOne(s, v, fault);
    HeldApart(s, v, w);
    WorkOnlyCreates(s, v, fault);
    assert Next(s, Work(v, fault)) == WorkerStep(s, v, fault);
    if WorkerStep(s, v, fault).history != s.history {
      CreationLeavesOthers(Current(s), Current(WorkerStep(s, v, fault)), s.workers[v].service, key);
    }
  }

  /** While a worker holds a key, nobody else's step creates a child under it. */
  lemma OthersLeaveKey(s: State, l: Step, w: nat, key: string)
    requires Inv(s) && Enabled(s, l) && Quiet(l) && w < |s.workers| && HeldBy(s.workers[w]) == Some(key)
    requires l.Work? ==> l.worker != w
    ensures var s' := Next(s, l);
            && w < |s'.workers| && s'.workers[w] == s.workers[w] && s'.history != []
            && (key in Current(s').deployments <==> key in Current(s).deployments)
            && (key in Current(s').k8sServices <==> key in Current(s).k8sServices)
  {
    if l.Work? {
      OtherWorkLeavesKey(s, l.worker, l.fault, w, key);
      hide Inv, WorkerStep;
    } else {
      QuietKeepsHistory(s, l);
      hide ValidHistory, Exclusive, ItemsAreServices, WellFormed;
    }
  }

  /** The worker no longer has the job, and will not get it again. */
  predicate PastJob(p: Phase, job: Job) {
    JobOf(p).None? || JobOf(p).value.began > job.began
  }

  /** What the listing of the Deployment has settled for the rest of the job. */
  ghost predicate DeploymentSettled(s: State, w: nat, job: Job, service: Service, phantom: bool) {
    && w < |s.workers| && s.history != [] && job.began < |s.log|
    && if JobOf(s.workers[w]) != Some(job) then PastJob(s.workers[w], job)
       else DeploymentPhase(s.workers[w], service, phantom, ServiceKey(service) in Current(s).deployments)
  }

  predicate DeploymentPhase(p: Phase, service: Service, phantom: bool, present: bool) {
    match p
    case CreatingDeployment(_, held) => held == service && !phantom
    case ListingK8sService(_, held) => held == service && (present <==> !phantom)
    case CreatingK8sService(_, held) => held == service && (present <==> !phantom)
    case Returned(_, ok) => ok ==> (present <==> !phantom)
    case Forgotten(_) => present <==> !phantom
    case _ => false
  }

  /** What the listing of the K8s Service has settled. */
  ghost predicate K8sServiceSettled(s: State, w: nat, job: Job, service: Service, phantom: bool) {
    && w < |s.workers| && s.history != [] && job.began < |s.log|
    && if JobOf(s.workers[w]) != Some(job) then PastJob(s.workers[w], job)
       else K8sServicePhase(s.workers[w], service, phantom, ServiceKey(service) in Current(s).k8sServices)
  }

  predicate K8sServicePhase(p: Phase, service: Service, phantom: bool, present: bool) {
    match p
    case CreatingK8sService(_, held) => held == service && !phantom
    case Returned(_, ok) => ok ==> (present <==> !phantom)
    case Forgotten(_) => present <==> !phantom
    case _ => false
  }

  /** A worker keeps its job, drops it, or takes a new one that begins now. */
  lemma WorkJob(s: State, w: nat, fault: Fault)
    requires Inv(s) && Enabled(s, Work(w, fault))
    ensures var s' := WorkerStep(s, w, fault);
            && w < |s'.workers| && |s.log| <= |s'.log|
            && (JobOf(s'.workers[w]) == JobOf(s.workers[w]) || JobOf(s'.workers[w]).None?
                || (s.workers[w].Idle? && JobOf(s'.workers[w]).value.began == |s.log|))
  {
    hide Inv, StoreDeployment, StoreK8sService, LookupOf, ServiceKey, ListerKey, Taken, Released, NeedsK8sService,
      MustStop, Succeeds, CanGet;
    WorkGrows(s, w, fault);
    if HasService(s.workers[w]) {
      AfterDeploymentJob(s, w, s.workers[w].job, s.workers[w].service);
    }
  }

  lemma AfterDeploymentJob(s: State, w: nat, job: Job, service: Service)
    requires w < |s.workers|
    ensures var s' := AfterDeployment(s, w, job, service);
            w < |s'.workers| && JobOf(s'.workers[w]) == Some(job)
  {
    hide NeedsK8sService;
  }

  lemma FailureSettles(s: State, w: nat, job: Job, service: Service, phantom: bool)
    requires w < |s.workers| && s.history != [] && job.began < |s.log|
    ensures DeploymentSettled(Finish(s, w, job, false, Some(service)), w, job, service, phantom)
    ensures K8sServiceSettled(Finish(s, w, job, false, Some(service)), w, job, service, phantom)
  {
    hide ServiceKey;
  }

  lemma SuccessSettles(s: State, w: nat, job: Job, service: Service, phantom: bool)
    requires w < |s.workers| && s.history != [] && job.began < |s.log|
    ensures (ServiceKey(service) in Current(s).deployments <==> !phantom) ==>
              DeploymentSettled(AfterDeployment(s, w, job, service), w, job, service, phantom)
              && DeploymentSettled(Finish(s, w, job, true, Some(service)), w, job, service, phantom)
    ensures (ServiceKey(service) in Current(s).k8sServices <==> !phantom) ==>
              K8sServiceSettled(Finish(s, w, job, true, Some(service)), w, job, service, phantom)
  {
    hide ServiceKey, NeedsK8sService;
  }

  /** What creating does to the keys. */
  lemma StoreKeys(s: State, service: Service, fault: Fault)
    requires s.history != []
    ensures var d, k := StoreDeployment(s, service, fault), StoreK8sService(s, service, fault);
            && |s.log| <= |d.log| && |s.log| <= |k.log|
            && Current(d).k8sServices == Current(s).k8sServices && Current(k).deployments == Current(s).deployments
            && (Succeeds(ServiceKey(service) in Current(s).deployments, fault) ==> ServiceKey(service) in Current(d).deployments)
            && (Succeeds(ServiceKey(service) in Current(s).k8sServices, fault) ==> ServiceKey(service) in Current(k).k8sServices)
  {
    hide BuildDeployment, BuildK8sService, ServiceKey;
  }

  lemma CreatingKeepsSettled(s: State, w: nat, fault: Fault, job: Job, service: Service, phantom: bool)
    requires Inv(s) && w < |s.workers| && s.workers[w] == CreatingDeployment(job, service)
    requires DeploymentSettled(s, w, job, service, phantom)
    ensures DeploymentSettled(WorkerStep(s, w, fault), w, job, service, phantom)
  {
    var d := StoreDeployment(s, service, fault);
    StoreKeys(s, service, fault);
    hide Inv, ServiceKey, NeedsK8sService, StoreDeployment, AfterDeployment, Finish;
    assert job.began < |s.log| && !phantom;
    hide DeploymentSettled;
    FailureSettles(d, w, job, service, phantom);
    SuccessSettles(d, w, job, service, phantom);
  }

  lemma ListingKeepsSettled(s: State, w: nat, fault: Fault, job: Job, service: Service, phantom: bool)
    requires Inv(s) && w < |s.workers| && s.workers[w] == ListingK8sService(job, service)
    requires DeploymentSettled(s, w, job, service, phantom)
    ensures DeploymentSettled(WorkerStep(s, w, fault), w, job, service, phantom)
  {
    hide Inv, ServiceKey, ListerKey, NeedsK8sService, Finish;
    FailureSettles(s, w, job, service, phantom);
    SuccessSettles(s, w, job, service, phantom);
  }

  lemma CreatingK8sKeepsSettled(s: State, w: nat, fault: Fault, job: Job, service: Service, phantom: bool)
    requires Inv(s) && w < |s.workers| && s.workers[w] == CreatingK8sService(job, service)
    requires DeploymentSettled(s, w, job, service, phantom)
    ensures DeploymentSettled(WorkerStep(s, w, fault), w, job, service, phantom)
  {
    var k := StoreK8sService(s, service, fault);
    StoreKeys(s, service, fault);
    hide Inv, ServiceKey, ListerKey, NeedsK8sService, StoreK8sService, Finish;
    assert job.began < |s.log| && (ServiceKey(service) in Current(k).deployments <==> !phantom);
    hide DeploymentSettled;
    FailureSettles(k, w, job, service, phantom);
    SuccessSettles(k, w, job, service, phantom);
  }

  /** A job that is past stays past. */
  lemma OwnStepPast(s: State, w: nat, fault: Fault, job: Job)
    requires Inv(s) && Enabled(s, Work(w, fault)) && PastJob(s.workers[w], job) && job.began < |s.log|
    ensures var s' := WorkerStep(s, w, fault);
            && w < |s'.workers| && s'.history != [] && job.began < |s'.log| && JobOf(s'.workers[w]) != Some(job)
            && PastJob(s'.workers[w], job)
  {
    assert s.history != [];
    hide Inv, WorkerStep;
    WorkJob(s, w, fault);
    WorkGrows(s, w, fault);
  }

  /** Once reconcile has returned, the job only gets given back. */
  lemma OwnStepReturned(s: State, w: nat, fault: Fault)
    requires Inv(s) && Enabled(s, Work(w, fault)) && (s.workers[w].Returned? || s.workers[w].Forgotten?)
    ensures var p, s' := s.workers[w], WorkerStep(s, w, fault);
            && s'.history == s.history && |s.log| <= |s'.log| && w < |s'.workers|
            && s'.workers[w] == if p.Returned? && p.ok then Forgotten(p.job) else Idle
  {
    hide Inv, Released;
  }

  /** The worker's own steps keep what its listing has settled. */
  lemma OwnStepDeployment(s: State, w: nat, fault: Fault, job: Job, service: Service, phantom: bool)
    requires Inv(s) && Enabled(s, Work(w, fault)) && DeploymentSettled(s, w, job, service, phantom)
    ensures DeploymentSettled(WorkerStep(s, w, fault), w, job, service, phantom)
  {
    hide Inv, WorkerStep, ServiceKey;
    var p := s.workers[w];
    if JobOf(p) != Some(job) {
      OwnStepPast(s, w, fault, job);
    } else if p.CreatingDeployment? {
      CreatingKeepsSettled(s, w, fault, job, service, phantom);
    } else if p.ListingK8sService? {
      ListingKeepsSettled(s, w, fault, job, service, phantom);
    } else if p.CreatingK8sService? {
      CreatingK8sKeepsSettled(s, w, fault, job, service, phantom);
    } else {
      OwnStepReturned(s, w, fault);
    }
  }

  lemma CreatingSettlesK8s(s: State, w: nat, fault: Fault, job: Job, service: Service, phantom: bool)
    requires Inv(s) && w < |s.workers| && s.workers[w] == CreatingK8sService(job, service)
    requires K8sServiceSettled(s, w, job, service, phantom)
    ensures K8sServiceSettled(WorkerStep(s, w, fault), w, job, service, phantom)
  {
    var k := StoreK8sService(s, service, fault);
    StoreKeys(s, service, fault);
    hide Inv, ServiceKey, StoreK8sService, Finish;
    assert job.began < |s.log| && !phantom;
    hide K8sServiceSettled;
    FailureSettles(k, w, job, service, phantom);
    SuccessSettles(k, w, job, service, phantom);
  }

  lemma OwnStepK8sService(s: State, w: nat, fault: Fault, job: Job, service: Service, phantom: bool)
    requires Inv(s) && Enabled(s, Work(w, fault)) && K8sServiceSettled(s, w, job, service, phantom)
    ensures K8sServiceSettled(WorkerStep(s, w, fault), w, job, service, phantom)
  {
    hide Inv, WorkerStep, ServiceKey;
    var p := s.workers[w];
    if JobOf(p) != Some(job) {
      OwnStepPast(s, w, fault, job);
    } else if p.CreatingK8sService? {
      CreatingSettlesK8s(s, w, fault, job, service, phantom);
    } else {
      OwnStepReturned(s, w, fault);
    }
  }

  /** The listing itself settles whether the Deployment will be there. */
  lemma ListingSettlesDeployment(s: State, w: nat, fault: Fault, job: Job, service: Service)
    requires Inv(s) && w < |s.workers| && s.workers[w] == ListingDeployment(job, service)
    ensures DeploymentSettled(WorkerStep(s, w, fault), w, job, service, PhantomDeployment(s, ServiceKey(service)))
  {
    var phantom := PhantomDeployment(s, ServiceKey(service));
    ChildKeys(s, w);
    PhaseOf(s, w);
    assert ViewsInRange(s);
    FailureSettles(s, w, job, service, phantom);
    SuccessSettles(s, w, job, service, phantom);
    hide Inv, ServiceKey, ListerKey, NeedsK8sService, Finish, AfterDeployment;
  }

  lemma ListingSettlesK8sService(s: State, w: nat, fault: Fault, job: Job, service: Service)
    requires Inv(s) && w < |s.workers| && s.workers[w] == ListingK8sService(job, service)
    ensures K8sServiceSettled(WorkerStep(s, w, fault), w, job, service, PhantomK8sService(s, ServiceKey(service)))
  {
    var phantom := PhantomK8sService(s, ServiceKey(service));
    ChildKeys(s, w);
    PhaseOf(s, w);
    assert ViewsInRange(s);
    FailureSettles(s, w, job, service, phantom);
    SuccessSettles(s, w, job, service, phantom);
    hide Inv, ServiceKey, ListerKey, NeedsK8sService, Finish;
  }

  /** Steps of all kinds keep it. */
  lemma NextKeepsSettled(s: State, l: Step, w: nat, job: Job, service: Service, phantom: bool)
    requires Inv(s) && Enabled(s, l) && Quiet(l) && job.item == ServiceKey(service)
    ensures DeploymentSettled(s, w, job, service, phantom) ==> DeploymentSettled(Next(s, l), w, job, service, phantom)
    ensures K8sServiceSettled(s, w, job, service, phantom) ==> K8sServiceSettled(Next(s, l), w, job, service, phantom)
  {
    if l.Work? && l.worker == w {
      hide Inv, DeploymentSettled, K8sServiceSettled, WorkerStep;
      if DeploymentSettled(s, w, job, service, phantom) {
        OwnStepDeployment(s, w, l.fault, job, service, phantom);
      }
      if K8sServiceSettled(s, w, job, service, phantom) {
        OwnStepK8sService(s, w, l.fault, job, service, phantom);
      }
    } else {
      OtherStepKeepsSettled(s, l, w, job, service, phantom);
    }
  }

  lemma OtherStepKeepsSettled(s: State, l: Step, w: nat, job: Job, service: Service, phantom: bool)
    requires Inv(s) && Enabled(s, l) && Quiet(l) && job.item == ServiceKey(service)
    requires !(l.Work? && l.worker == w)
    ensures DeploymentSettled(s, w, job, service, phantom) ==> DeploymentSettled(Next(s, l), w, job, service, phantom)
    ensures K8sServiceSettled(s, w, job, service, phantom) ==> K8sServiceSettled(Next(s, l), w, job, service, phantom)
  {
    NextGrows(s, l);
    if w < |s.workers| {
      OthersLeaveWorker(s, l, w);
      if HeldBy(s.workers[w]) == Some(ServiceKey(service)) {
        OthersLeaveKey(s, l, w, ServiceKey(service));
      }
    }
    hide Inv, Next, Enabled, Quiet, ServiceKey;
  }

  lemma OthersLeaveWorker(s: State, l: Step, w: nat)
    requires Inv(s) && Enabled(s, l) && Quiet(l) && w < |s.workers| && !(l.Work? && l.worker == w)
    ensures var s' := Next(s, l);
            w < |s'.workers| && s'.history != []
            && (s'.workers[w] == s.workers[w] || (JobOf(s.workers[w]).None? && JobOf(s'.workers[w]).None?))
  {
    NextKeepsInv(s, l);
    if l.Work? {
      WorkMovesOne(s, l.worker, l.fault);
      hide WorkerStep;
    } else {
      hide ValidHistory, Exclusive, ItemsAreServices, WellFormed;
    }
  }

  lemma {:induction false} StaysSettled(ss: seq<State>, ls: seq<Step>, d: nat, t: nat, w: nat, job: Job, service: Service,
                                        phantom: bool)
    requires IsRun(ss, ls) && d <= t < |ss| && (forall k :: d <= k < t ==> Quiet(ls[k])) && job.item == ServiceKey(service)
    ensures DeploymentSettled(ss[d], w, job, service, phantom) ==> DeploymentSettled(ss[t], w, job, service, phantom)
    ensures K8sServiceSettled(ss[d], w, job, service, phantom) ==> K8sServiceSettled(ss[t], w, job, service, phantom)
  {
    hide Inv, Next, Enabled, Quiet, DeploymentSettled, K8sServiceSettled, ServiceKey;
    if d < t {
      StaysSettled(ss, ls, d, t - 1, w, job, service, phantom);
      NextKeepsSettled(ss[t - 1], ls[t - 1], w, job, service, phantom);
    }
  }

  /** Whatever other workers do in between: when a job has reported success and nobody else has written since it
      listed its service's children, the service is complete exactly if neither listing saw a phantom. */
  lemma InterleavedSuccessIsCompleteIff(ss: seq<State>, ls: seq<Step>, d: nat, e: nat, t: nat, w: nat, job: Job, service: Service)
    requires IsRun(ss, ls) && d < t < |ss| && (forall k :: d <= k < t ==> Quiet(ls[k]))
    requires w < |ss[d].workers| && ss[d].workers[w] == ListingDeployment(job, service)
    requires ls[d].Work? && ls[d].worker == w
    requires NeedsK8sService(service) ==>
               d < e < t && w < |ss[e].workers| && ss[e].workers[w] == ListingK8sService(job, service)
               && ls[e].Work? && ls[e].worker == w
    requires w < |ss[t].workers| && ss[t].workers[w] == Returned(job, true) && ss[t].history != []
    ensures Complete(service, Current(ss[t]))
            <==> !PhantomDeployment(ss[d], ServiceKey(service))
                 && (NeedsK8sService(service) ==> !PhantomK8sService(ss[e], ServiceKey(service)))
  {
    PhaseOf(ss[d], w);
    hide Inv, Enabled, Quiet, WorkerStep, ServiceKey, NeedsK8sService, PhantomDeployment, PhantomK8sService;
    ListingSettlesDeployment(ss[d], w, ls[d].fault, job, service);
    StaysSettled(ss, ls, d + 1, t, w, job, service, PhantomDeployment(ss[d], ServiceKey(service)));
    if NeedsK8sService(service) {
      ListingSettlesK8sService(ss[e], w, ls[e].fault, job, service);
      StaysSettled(ss, ls, e + 1, t, w, job, service, PhantomK8sService(ss[e], ServiceKey(service)));
    }
  }
}
