/** What no interleaving of workers, stale caches, failures and outside writers can break. */
module ReconcilerSafety {
  import opened MeshTypes
  import opened Builders
  import opened Keys
  import opened WorkQueue
  import opened Reconciler

  // ---- Workers only ever create ----

  ghost predicate CreatesDeployment(a: Api, b: Api, service: Service) {
    ServiceKey(service) !in a.deployments
    && b == a.(deployments := a.deployments[ServiceKey(service) := BuildDeployment(service)])
  }

  ghost predicate CreatesK8sService(a: Api, b: Api, service: Service) {
    ServiceKey(service) !in a.k8sServices
    && b == a.(k8sServices := a.k8sServices[ServiceKey(service) := BuildK8sService(service)])
  }

  lemma StoreOnlyCreates(s: State, service: Service, fault: Fault)
    requires s.history != []
    ensures var d, k := StoreDeployment(s, service, fault), StoreK8sService(s, service, fault);
            && (d.history == s.history
                || (|d.history| == |s.history| + 1 && d.history[..|s.history|] == s.history
                    && CreatesDeployment(Current(s), Current(d), service)))
            && (k.history == s.history
                || (|k.history| == |s.history| + 1 && k.history[..|s.history|] == s.history
                    && CreatesK8sService(Current(s), Current(k), service)))
  {
    hide BuildDeployment, BuildK8sService, ServiceKey;
  }

  lemma ServiceWorkHistory(s: State, w: nat, fault: Fault)
    requires Inv(s) && Enabled(s, Work(w, fault)) && HasService(s.workers[w])
    ensures var s', service := WorkerStep(s, w, fault), s.workers[w].service;
            && s'.history in {s.history, StoreDeployment(s, service, fault).history, StoreK8sService(s, service, fault).history}
            && Observed(s, service)
  {
    PhaseOf(s, w);
    hide Inv, ListerKey, ServiceKey, NeedsK8sService, StoreDeployment, StoreK8sService, Observed, ValidName, Succeeds;
  }

  lemma ServiceWorkOnlyCreates(s: State, w: nat, fault: Fault)
    requires Inv(s) && Enabled(s, Work(w, fault)) && HasService(s.workers[w])
    ensures var s' := WorkerStep(s, w, fault);
            && Observed(s, s.workers[w].service)
            && (s'.history == s.history
                || (|s'.history| == |s.history| + 1 && s'.history[..|s.history|] == s.history
                    && (CreatesDeployment(Current(s), Current(s'), s.workers[w].service)
                        || CreatesK8sService(Current(s), Current(s'), s.workers[w].service))))
  {
    ServiceWorkHistory(s, w, fault);
    StoreOnlyCreates(s, s.workers[w].service, fault);
    hide Inv, WorkerStep, StoreDeployment, StoreK8sService, CreatesDeployment, CreatesK8sService, Observed;
  }

  lemma OtherWorkKeepsHistory(s: State, w: nat, fault: Fault)
    requires Inv(s) && Enabled(s, Work(w, fault)) && !HasService(s.workers[w])
    ensures WorkerStep(s, w, fault).history == s.history
  {
    hide Inv, LookupOf, Taken, Released;
  }

  /** A worker step leaves the API server alone or adds one missing child of the service it holds. */
  lemma WorkOnlyCreates(s: State, w: nat, fault: Fault)
    requires Inv(s) && Enabled(s, Work(w, fault))
    ensures var s' := Next(s, Work(w, fault));
            s'.history == s.history
            || (|s'.history| == |s.history| + 1 && s'.history[..|s.history|] == s.history
                && HasService(s.workers[w]) && Observed(s, s.workers[w].service)
                && (CreatesDeployment(Current(s), Current(s'), s.workers[w].service)
                    || CreatesK8sService(Current(s), Current(s'), s.workers[w].service)))
  {
    hide Inv, WorkerStep, CreatesDeployment, CreatesK8sService, Observed;
    if HasService(s.workers[w]) {
      ServiceWorkOnlyCreates(s, w, fault);
    } else {
      OtherWorkKeepsHistory(s, w, fault);
    }
  }

  ghost predicate Keeps<V>(a: map<string, V>, b: map<string, V>) {
    forall k :: k in a ==> k in b && b[k] == a[k]
  }

  /** No worker step changes or removes an existing child, or touches a Service. */
  lemma WorkKeepsChildren(s: State, w: nat, fault: Fault)
    requires Inv(s) && Enabled(s, Work(w, fault))
    ensures var s' := Next(s, Work(w, fault));
            && s'.history != [] && Current(s').services == Current(s).services
            && Keeps(Current(s).deployments, Current(s').deployments)
            && Keeps(Current(s).k8sServices, Current(s').k8sServices)
  {
    hide BuildDeployment, BuildK8sService, Next;
    WorkOnlyCreates(s, w, fault);
  }

  // ---- Children are what the builders make of an observed service ----

  ghost predicate DeploymentBuilt(s: State, key: string, d: Deployment) {
    exists service :: Observed(s, service) && ServiceKey(service) == key && d == BuildDeployment(service)
  }

  ghost predicate K8sServiceBuilt(s: State, key: string, k: K8sService) {
    exists service :: Observed(s, service) && ServiceKey(service) == key && k == BuildK8sService(service)
  }

  /** Every child is what the builder makes of an observed service, or somebody else put it there. */
  ghost predicate Explained(s: State, ls: seq<Step>, api: Api) {
    && (forall key :: key in api.deployments ==>
          DeploymentBuilt(s, key, api.deployments[key]) || PutDeployment(key, api.deployments[key]) in ls)
    && (forall key :: key in api.k8sServices ==>
          K8sServiceBuilt(s, key, api.k8sServices[key]) || PutK8sService(key, api.k8sServices[key]) in ls)
  }

  predicate PutsChild(l: Step) { l.PutDeployment? || l.PutK8sService? }

  /** Histories and logs only get longer and caches never turn back. */
  ghost predicate Grows(s: State, s': State) {
    && s.history <= s'.history && |s'.history| <= |s.history| + 1
    && s.log <= s'.log
    && |s'.workers| == |s.workers|
    && s.views.services <= s'.views.services
    && s.views.deployments <= s'.views.deployments
    && s.views.k8sServices <= s'.views.k8sServices
  }

  lemma NextGrows(s: State, l: Step)
    requires Inv(s) && Enabled(s, l)
    ensures Grows(s, Next(s, l))
    ensures !l.Work? ==> Next(s, l).log == s.log
  {
    if l.Work? {
      WorkGrows(s, l.worker, l.fault);
    } else {
      hide WorkerStep, Inv, ServiceKey;
    }
  }

  lemma FinishGrows(s: State, s0: State, w: nat, job: Job, ok: bool, found: Option<Service>)
    requires Grows(s0, s) && w < |s.workers|
    ensures Grows(s0, Finish(s, w, job, ok, found))
  {
  }

  lemma FinishesGrow(s: State, s0: State, w: nat, job: Job, found: Option<Service>)
    requires Grows(s0, s) && w < |s.workers|
    ensures forall ok :: Grows(s0, Finish(s, w, job, ok, found))
  {
    FinishGrows(s, s0, w, job, true, found);
    FinishGrows(s, s0, w, job, false, found);
  }

  lemma WorkGrows(s: State, w: nat, fault: Fault)
    requires Inv(s) && Enabled(s, Work(w, fault))
    ensures Grows(s, WorkerStep(s, w, fault))
  {
    hide Finish, BuildDeployment, BuildK8sService, LookupOf, ServiceKey, ListerKey, Taken, Released, NeedsK8sService,
      ValidHistory, Exclusive, ItemsAreServices;
    if s.workers[w].Reading? {
      FinishesGrow(s, s, w, s.workers[w].job, None);
    } else if HasService(s.workers[w]) {
      var job, service := s.workers[w].job, s.workers[w].service;
      var d, k := StoreDeployment(s, service, fault), StoreK8sService(s, service, fault);
      FinishesGrow(s, s, w, job, Some(service));
      FinishesGrow(d, s, w, job, Some(service));
      FinishesGrow(k, s, w, job, Some(service));
    }
  }

  lemma ExplainedGrows(s: State, s': State, ls: seq<Step>, l: Step, api: Api)
    requires s.history <= s'.history && |s.log| <= |s'.log| && Explained(s, ls, api)
    ensures Explained(s', ls + [l], api)
  {
    hide BuildDeployment, BuildK8sService;
    ObservedGrows(s, s');
    forall key | key in api.deployments && DeploymentBuilt(s, key, api.deployments[key])
      ensures DeploymentBuilt(s', key, api.deployments[key]) {
    }
    forall key | key in api.k8sServices && K8sServiceBuilt(s, key, api.k8sServices[key])
      ensures K8sServiceBuilt(s', key, api.k8sServices[key]) {
    }
  }

  lemma CreationExplained(s: State, ls: seq<Step>, a: Api, b: Api, service: Service)
    requires Observed(s, service) && Explained(s, ls, a)
    requires CreatesDeployment(a, b, service) || CreatesK8sService(a, b, service)
    ensures Explained(s, ls, b)
  {
    hide BuildDeployment, BuildK8sService;
    var key := ServiceKey(service);
    assert DeploymentBuilt(s, key, BuildDeployment(service));
    assert K8sServiceBuilt(s, key, BuildK8sService(service));
  }

  lemma NextExplained(s: State, ls: seq<Step>, l: Step)
    requires Inv(s) && Enabled(s, l) && Explained(s, ls, Current(s))
    ensures Inv(Next(s, l)) && Explained(Next(s, l), ls + [l], Current(Next(s, l)))
  {
    hide BuildDeployment, BuildK8sService, Explained, WorkerStep;
    NextKeepsInv(s, l);
    NextGrows(s, l);
    var s' := Next(s, l);
    if l.Work? {
      WorkOnlyCreates(s, l.worker, l.fault);
      if s'.history != s.history {
        CreationExplained(s, ls, Current(s), Current(s'), s.workers[l.worker].service);
      }
      ExplainedGrows(s, s', ls, l, Current(s'));
    } else {
      ExplainedGrows(s, s', ls, l, Current(s));
      EnvironmentExplained(s, s', ls, l);
    }
  }

  lemma EnvironmentExplained(s: State, s': State, ls: seq<Step>, l: Step)
    requires Inv(s) && Enabled(s, l) && !l.Work? && s' == Next(s, l) && s'.history != []
    requires Explained(s', ls + [l], Current(s))
    ensures Explained(s', ls + [l], Current(s'))
  {
    hide Inv, BuildDeployment, BuildK8sService, DeploymentBuilt, K8sServiceBuilt;
    assert l in ls + [l];
  }

  lemma NothingToExplain(s: State, ls: seq<Step>)
    requires Initial(s)
    ensures Explained(s, ls, Current(s)) && Inv(s)
  {
    InitialInv(s);
  }

  /** In every run, every child in every version of the API server is exactly what the builder makes of
      some version of its service that the API server really held, or an outside writer put it there. */
  lemma {:induction false} ChildrenHaveOrigin(ss: seq<State>, ls: seq<Step>, i: nat)
    requires IsRun(ss, ls) && i < |ss| && Initial(ss[0])
    ensures Inv(ss[i]) && Explained(ss[i], ls[..i], Current(ss[i]))
  {
    hide Inv, Explained, Next, Enabled, Initial;
    if i == 0 {
      NothingToExplain(ss[0], ls[..0]);
    } else {
      ChildrenHaveOrigin(ss, ls, i - 1);
      NextExplained(ss[i - 1], ls[..i - 1], ls[i - 1]);
      assert ls[..i] == ls[..i - 1] + [ls[i - 1]];
    }
  }

  /** So as long as only the controller writes children, all of them come from the builders. */
  lemma ChildrenAreBuilt(ss: seq<State>, ls: seq<Step>, i: nat)
    requires IsRun(ss, ls) && i < |ss| && Initial(ss[0])
    requires forall j :: 0 <= j < i ==> !PutsChild(ls[j])
    ensures Inv(ss[i])
    ensures forall key :: key in Current(ss[i]).deployments ==>
              DeploymentBuilt(ss[i], key, Current(ss[i]).deployments[key])
    ensures forall key :: key in Current(ss[i]).k8sServices ==>
              K8sServiceBuilt(ss[i], key, Current(ss[i]).k8sServices[key])
  {
    hide BuildDeployment, BuildK8sService, DeploymentBuilt, K8sServiceBuilt, Inv;
    ChildrenHaveOrigin(ss, ls, i);
    assert forall l :: l in ls[..i] ==> !PutsChild(l);
  }

  // ---- A K8s Service never comes without its Deployment ----

  /** No Deployment has disappeared. */
  ghost predicate DeploymentsKept(history: seq<Api>) {
    history != [] && forall i :: 0 <= i < |history| ==>
      history[i].deployments.Keys <= history[|history| - 1].deployments.Keys
  }

  ghost predicate PhasesPast(ws: seq<Phase>, keys: set<string>) {
    forall w :: 0 <= w < |ws| && PastDeployment(ws[w]) ==> ServiceKey(ws[w].service) in keys
  }

  ghost predicate LogPast(log: seq<Entry>, keys: set<string>) {
    forall i :: 0 <= i < |log| && log[i].CreatedK8sService? ==> ServiceKey(log[i].service) in keys
  }

  ghost predicate DeploymentsFirst(s: State) {
    && DeploymentsKept(s.history)
    && PhasesPast(s.workers, Current(s).deployments.Keys)
    && LogPast(s.log, Current(s).deployments.Keys)
  }

  lemma ChildKeys(s: State, w: nat)
    requires Inv(s) && w < |s.workers| && HasService(s.workers[w])
    ensures var service := s.workers[w].service;
            ListerKey(service.namespace, DeploymentName(service)) == ServiceKey(service)
            && ListerKey(service.namespace, K8sServiceName(service)) == ServiceKey(service)
  {
    PhaseOf(s, w);
  }

  lemma GotoFirst(s: State, w: nat, p: Phase)
    requires DeploymentsFirst(s) && w < |s.workers|
    requires PastDeployment(p) ==> ServiceKey(p.service) in Current(s).deployments
    ensures DeploymentsFirst(Goto(s, w, p))
  {
  }

  lemma LogFirst(s: State, e: Entry)
    requires DeploymentsFirst(s)
    requires e.CreatedK8sService? ==> ServiceKey(e.service) in Current(s).deployments
    ensures DeploymentsFirst(Log(s, e))
  {
  }

  lemma FinishFirst(s: State, w: nat, job: Job, ok: bool, found: Option<Service>)
    requires DeploymentsFirst(s) && w < |s.workers|
    ensures DeploymentsFirst(Finish(s, w, job, ok, found))
  {
    GotoFirst(s, w, Returned(job, ok));
    LogFirst(Goto(s, w, Returned(job, ok)), Finished(w, job, ok, found));
  }

  lemma AfterDeploymentFirst(s: State, w: nat, job: Job, service: Service)
    requires DeploymentsFirst(s) && w < |s.workers| && ServiceKey(service) in Current(s).deployments
    ensures DeploymentsFirst(AfterDeployment(s, w, job, service))
  {
    hide NeedsK8sService;
    FinishFirst(s, w, job, true, Some(service));
    GotoFirst(s, w, ListingK8sService(job, service));
  }

  lemma CommitFirst(s: State, api: Api)
    requires DeploymentsFirst(s) && Current(s).deployments.Keys <= api.deployments.Keys
    ensures DeploymentsFirst(Commit(s, api))
  {
    var s' := Commit(s, api);
    assert forall i :: 0 <= i < |s.history| ==> s'.history[i] == s.history[i];
  }

  lemma StoreFirst(s: State, service: Service, fault: Fault)
    requires DeploymentsFirst(s)
    ensures DeploymentsFirst(StoreDeployment(s, service, fault))
    ensures Succeeds(ServiceKey(service) in Current(s).deployments, fault) ==>
              ServiceKey(service) in Current(StoreDeployment(s, service, fault)).deployments
    ensures ServiceKey(service) in Current(s).deployments ==> DeploymentsFirst(StoreK8sService(s, service, fault))
  {
    hide BuildDeployment, BuildK8sService;
    var api, key := Current(s), ServiceKey(service);
    var d := api.(deployments := api.deployments[key := BuildDeployment(service)]);
    var k := api.(k8sServices := api.k8sServices[key := BuildK8sService(service)]);
    CommitFirst(s, d);
    CommitFirst(s, k);
    LogFirst(Commit(s, d), CreatedDeployment(service));
    if key in api.deployments {
      LogFirst(Commit(s, k), CreatedK8sService(service));
    }
  }

  lemma CreatingDeploymentFirst(s: State, w: nat, job: Job, service: Service, fault: Fault)
    requires Inv(s) && DeploymentsFirst(s) && w < |s.workers| && s.workers[w] == CreatingDeployment(job, service)
    ensures DeploymentsFirst(WorkerStep(s, w, fault))
  {
    hide StoreDeployment, AfterDeployment, Finish, DeploymentsFirst, ServiceKey;
    var s' := StoreDeployment(s, service, fault);
    StoreFirst(s, service, fault);
    if Succeeds(ServiceKey(service) in Current(s).deployments, fault) {
      AfterDeploymentFirst(s', w, job, service);
    } else {
      FinishFirst(s', w, job, false, Some(service));
    }
  }

  lemma WorkDeploymentsFirst(s: State, w: nat, fault: Fault)
    requires Inv(s) && Enabled(s, Work(w, fault)) && DeploymentsFirst(s)
    ensures DeploymentsFirst(WorkerStep(s, w, fault))
  {
    hide DeploymentsFirst, StoreK8sService, StoreDeployment, AfterDeployment, Finish, LookupOf, BuildDeployment, BuildK8sService;
    match s.workers[w]
    case Idle => TakeItemFirst(s, w);
    case Reading(job) => ReadServiceFirst(s, w, job, fault);
    case ListingDeployment(job, service) =>
      if ListerKey(service.namespace, DeploymentName(service)) in s.history[s.views.deployments].deployments {
        ListingDeploymentFirst(s, w, job, service);
      }
      FinishFirst(s, w, job, false, Some(service));
      GotoFirst(s, w, CreatingDeployment(job, service));
    case CreatingDeployment(job, service) => CreatingDeploymentFirst(s, w, job, service, fault);
    case ListingK8sService(job, service) =>
      FinishFirst(s, w, job, false, Some(service));
      FinishFirst(s, w, job, true, Some(service));
      PastFirst(s, w);
      GotoFirst(s, w, CreatingK8sService(job, service));
    case CreatingK8sService(job, service) =>
      PastFirst(s, w);
      StoreFirst(s, service, fault);
      var ok := Succeeds(ServiceKey(service) in Current(s).k8sServices, fault);
      FinishFirst(StoreK8sService(s, service, fault), w, job, ok, Some(service));
    case Returned(job, ok) =>
      GotoFirst(s, w, Forgotten(job));
      LogFirst(Goto(s, w, Forgotten(job)), Forgot(w, job.item));
      GiveBackFirst(s, w, job);
    case Forgotten(job) => GiveBackFirst(s, w, job);
  }

  lemma PastFirst(s: State, w: nat)
    requires DeploymentsFirst(s) && w < |s.workers| && PastDeployment(s.workers[w])
    ensures ServiceKey(s.workers[w].service) in Current(s).deployments
  {
  }

  lemma TakeItemFirst(s: State, w: nat)
    requires Inv(s) && w < |s.workers| && CanGet(s.queue) && DeploymentsFirst(s)
    ensures DeploymentsFirst(TakeItem(s, w))
  {
  }

  lemma GiveBackFirst(s: State, w: nat, job: Job)
    requires Inv(s) && w < |s.workers| && DeploymentsFirst(s)
    requires job.item in s.queue.processing
    ensures DeploymentsFirst(GiveBack(s, w, job))
  {
    hide Inv, Released;
    GotoFirst(s, w, Idle);
    LogFirst(Goto(s, w, Idle), DidDone(w, job.item));
  }

  lemma ReadServiceFirst(s: State, w: nat, job: Job, fault: Fault)
    requires Inv(s) && w < |s.workers| && DeploymentsFirst(s)
    ensures DeploymentsFirst(ReadService(s, w, job, fault))
  {
    hide DeploymentsFirst, Finish, LookupOf;
    FinishFirst(s, w, job, true, None);
    FinishFirst(s, w, job, false, None);
    forall service {
      GotoFirst(s, w, ListingDeployment(job, service));
    }
  }

  /** Without deletions, a Deployment in the cache is still there. */
  lemma CachedDeploymentExists(s: State, key: string)
    requires Inv(s) && DeploymentsFirst(s) && key in s.history[s.views.deployments].deployments
    ensures key in Current(s).deployments
  {
    hide ValidHistory, Exclusive, ItemsAreServices, WellFormed, PhasesPast, LogPast;
  }

  lemma ListingDeploymentFirst(s: State, w: nat, job: Job, service: Service)
    requires Inv(s) && DeploymentsFirst(s) && w < |s.workers| && s.workers[w] == ListingDeployment(job, service)
    requires ListerKey(service.namespace, DeploymentName(service)) in s.history[s.views.deployments].deployments
    ensures DeploymentsFirst(AfterDeployment(s, w, job, service))
  {
    hide Inv, DeploymentsFirst, AfterDeployment, ListerKey, ServiceKey, DeploymentName;
    ChildKeys(s, w);
    CachedDeploymentExists(s, ListerKey(service.namespace, DeploymentName(service)));
    AfterDeploymentFirst(s, w, job, service);
  }

  lemma EnvironmentFirst(s: State, l: Step)
    requires Inv(s) && Enabled(s, l) && !l.Work? && !l.DropDeployment? && DeploymentsFirst(s)
    ensures DeploymentsFirst(Next(s, l))
  {
    var s' := Next(s, l);
    match l
    case Restart(w) => GotoFirst(s, w, Idle);
    case PutService(_) => CommitFirst(s, s'.history[|s.history|]);
    case DropService(_) => CommitFirst(s, s'.history[|s.history|]);
    case PutDeployment(_, _) => CommitFirst(s, s'.history[|s.history|]);
    case PutK8sService(_, _) => CommitFirst(s, s'.history[|s.history|]);
    case DropK8sService(_) => CommitFirst(s, s'.history[|s.history|]);
    case _ =>
  }

  /** Unless somebody deletes Deployments, every K8s Service the controller ever created
      has a Deployment of the same namespace and name. */
  lemma {:induction false} K8sServicesHaveDeployments(ss: seq<State>, ls: seq<Step>, i: nat)
    requires IsRun(ss, ls) && i < |ss| && Initial(ss[0])
    requires forall j :: 0 <= j < i ==> !ls[j].DropDeployment?
    ensures DeploymentsFirst(ss[i])
  {
    if i > 0 {
      K8sServicesHaveDeployments(ss, ls, i - 1);
      if ls[i - 1].Work? {
        WorkDeploymentsFirst(ss[i - 1], ls[i - 1].worker, ls[i - 1].fault);
      } else {
        EnvironmentFirst(ss[i - 1], ls[i - 1]);
      }
    }
  }
}
