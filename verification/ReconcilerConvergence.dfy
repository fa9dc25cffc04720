/** What happens once users stop changing services and children. */
module ReconcilerConvergence {
  import opened MeshTypes
  import opened Builders
  import opened Keys
  import opened WorkQueue
  import opened Reconciler
  import opened ReconcilerSafety

  /** Only the controller and the informers still move. */
  predicate Quiet(l: Step) {
    l.Work? || l.Restart? || l.Notify? || l.SyncServices? || l.SyncDeployments? || l.SyncK8sServices? || l.Shutdown?
  }

  // ---- Ranking measure ----

  /** Children wanted under these keys that are missing. */
  function Gap(api: Api, deployments: set<string>, k8sServices: set<string>): nat {
    |deployments - api.deployments.Keys| + |k8sServices - api.k8sServices.Keys|
  }

  /** The service asks for nothing outside these keys. */
  predicate AsksWithin(service: Service, deployments: set<string>, k8sServices: set<string>) {
    ServiceKey(service) in deployments && (NeedsK8sService(service) ==> ServiceKey(service) in k8sServices)
  }

  ghost predicate ApiWithin(api: Api, deployments: set<string>, k8sServices: set<string>) {
    forall key :: key in api.services ==> AsksWithin(api.services[key], deployments, k8sServices)
  }

  predicate PhaseWithin(p: Phase, deployments: set<string>, k8sServices: set<string>) {
    HasService(p) ==> AsksWithin(p.service, deployments, k8sServices)
  }

  /** Everything the controller can still see or holds asks for nothing outside these keys. */
  ghost predicate Within(s: State, deployments: set<string>, k8sServices: set<string>) {
    && (forall i :: s.views.services <= i < |s.history| ==> ApiWithin(s.history[i], deployments, k8sServices))
    && (forall w :: 0 <= w < |s.workers| ==> PhaseWithin(s.workers[w], deployments, k8sServices))
  }

  lemma OneLessMissing(want: set<string>, have: set<string>, key: string)
    requires key in want && key !in have
    ensures |want - have| == |want - (have + {key})| + 1
  {
    assert want - have == (want - (have + {key})) + {key};
  }

  lemma DeploymentClosesGap(a: Api, b: Api, service: Service, deployments: set<string>, k8sServices: set<string>)
    requires ServiceKey(service) in deployments && CreatesDeployment(a, b, service)
    ensures Gap(b, deployments, k8sServices) + 1 == Gap(a, deployments, k8sServices)
  {
    hide BuildDeployment, BuildK8sService, ServiceKey;
    var key := ServiceKey(service);
    assert b.deployments.Keys == a.deployments.Keys + {key};
    OneLessMissing(deployments, a.deployments.Keys, key);
  }

  lemma K8sServiceClosesGap(a: Api, b: Api, service: Service, deployments: set<string>, k8sServices: set<string>)
    requires ServiceKey(service) in k8sServices && CreatesK8sService(a, b, service)
    ensures Gap(b, deployments, k8sServices) + 1 == Gap(a, deployments, k8sServices)
  {
    hide BuildDeployment, BuildK8sService, ServiceKey;
    var key := ServiceKey(service);
    assert b.k8sServices.Keys == a.k8sServices.Keys + {key};
    OneLessMissing(k8sServices, a.k8sServices.Keys, key);
  }

  /** Each worker step leaves the API server unchanged or closes the gap by one. */
  lemma WorkClosesGap(s: State, w: nat, fault: Fault, deployments: set<string>, k8sServices: set<string>)
    requires Inv(s) && Enabled(s, Work(w, fault)) && Within(s, deployments, k8sServices)
    ensures var s' := Next(s, Work(w, fault));
            s'.history == s.history
            || (|s'.history| == |s.history| + 1
                && Gap(Current(s'), deployments, k8sServices) + 1 == Gap(Current(s), deployments, k8sServices))
  {
    hide BuildDeployment, BuildK8sService, LookupOf;
    WorkOnlyCreates(s, w, fault);
    var s' := Next(s, Work(w, fault));
    if s'.history != s.history {
      WorkCreatesWanted(s, w, fault);
      var p := s.workers[w];
      assert PhaseWithin(p, deployments, k8sServices);
      PhaseOf(s, w);
      if p.CreatingDeployment? {
        DeploymentClosesGap(Current(s), Current(s'), p.service, deployments, k8sServices);
      } else {
        K8sServiceClosesGap(Current(s), Current(s'), p.service, deployments, k8sServices);
      }
    }
  }

  lemma WorkCreatesWanted(s: State, w: nat, fault: Fault)
    requires Inv(s) && Enabled(s, Work(w, fault)) && Next(s, Work(w, fault)).history != s.history
    ensures s.workers[w].CreatingDeployment? || s.workers[w].CreatingK8sService?
    ensures s.workers[w].CreatingDeployment? ==>
              CreatesDeployment(Current(s), Current(Next(s, Work(w, fault))), s.workers[w].service)
    ensures s.workers[w].CreatingK8sService? ==>
              CreatesK8sService(Current(s), Current(Next(s, Work(w, fault))), s.workers[w].service)
  {
    WorkOnlyCreates(s, w, fault);
    if HasService(s.workers[w]) {
      CreatingStores(s, w, fault);
      StoreOnlyCreates(s, s.workers[w].service, fault);
      hide Inv, WorkerStep, StoreDeployment, StoreK8sService, CreatesDeployment, CreatesK8sService, Observed;
    }
  }

  lemma CreatingStores(s: State, w: nat, fault: Fault)
    requires Inv(s) && Enabled(s, Work(w, fault)) && HasService(s.workers[w])
    ensures var p, h := s.workers[w], WorkerStep(s, w, fault).history;
            h == if p.CreatingDeployment? then StoreDeployment(s, p.service, fault).history
                 else if p.CreatingK8sService? then StoreK8sService(s, p.service, fault).history
                 else s.history
  {
    hide Inv, StoreDeployment, StoreK8sService, ServiceKey, ListerKey, NeedsK8sService, Succeeds;
  }

  lemma WorkWithin(s: State, w: nat, fault: Fault, deployments: set<string>, k8sServices: set<string>)
    requires Inv(s) && Enabled(s, Work(w, fault)) && Within(s, deployments, k8sServices)
    ensures Within(Next(s, Work(w, fault)), deployments, k8sServices)
  {
    hide BuildDeployment, BuildK8sService, WorkerStep, ServiceKey, AsksWithin;
    WorkOnlyCreates(s, w, fault);
    NextGrows(s, Work(w, fault));
    PhaseStaysWithin(s, w, fault, deployments, k8sServices);
    var s' := Next(s, Work(w, fault));
    forall i | s'.views.services <= i < |s'.history| ensures ApiWithin(s'.history[i], deployments, k8sServices) {
      if i < |s.history| {
        assert s'.history[i] == s.history[i];
      } else {
        assert s'.history[i].services == s.history[|s.history| - 1].services;
        assert ApiWithin(s.history[|s.history| - 1], deployments, k8sServices);
      }
    }
  }

  /** A worker goes on with the service it holds or takes one from the service cache. */
  ghost predicate SameServiceOrRead(s: State, p: Phase, p': Phase) {
    HasService(p') ==>
      if HasService(p) then p'.service == p.service && p'.job == p.job
      else s.views.services < |s.history| && p'.service in s.history[s.views.services].services.Values
  }

  lemma WorkMovesOne(s: State, w: nat, fault: Fault)
    requires Inv(s) && Enabled(s, Work(w, fault))
    ensures var ws := WorkerStep(s, w, fault).workers;
            |ws| == |s.workers| && ws == s.workers[w := ws[w]]
  {
    hide Inv, StoreDeployment, StoreK8sService, LookupOf, ServiceKey, ListerKey, Taken, Released, NeedsK8sService,
      MustStop, Succeeds, CanGet;
  }

  lemma WorkKeepsService(s: State, w: nat, fault: Fault)
    requires Inv(s) && Enabled(s, Work(w, fault)) && HasService(s.workers[w])
    requires w < |WorkerStep(s, w, fault).workers|
    ensures SameServiceOrRead(s, s.workers[w], WorkerStep(s, w, fault).workers[w])
  {
    hide Inv, StoreDeployment, StoreK8sService, LookupOf, ServiceKey, ListerKey, NeedsK8sService, Succeeds;
  }

  lemma WorkReadsService(s: State, w: nat, fault: Fault)
    requires Inv(s) && Enabled(s, Work(w, fault)) && !HasService(s.workers[w])
    requires w < |WorkerStep(s, w, fault).workers|
    ensures SameServiceOrRead(s, s.workers[w], WorkerStep(s, w, fault).workers[w])
  {
    assert ViewsInRange(s);
    hide Inv, LookupOf, Taken, Released, MustStop;
  }

  lemma WorkPhase(s: State, w: nat, fault: Fault)
    requires Inv(s) && Enabled(s, Work(w, fault))
    ensures var ws := WorkerStep(s, w, fault).workers;
            |ws| == |s.workers| && ws == s.workers[w := ws[w]] && SameServiceOrRead(s, s.workers[w], ws[w])
  {
    hide Inv, WorkerStep, SameServiceOrRead;
    WorkMovesOne(s, w, fault);
    if HasService(s.workers[w]) {
      WorkKeepsService(s, w, fault);
    } else {
      WorkReadsService(s, w, fault);
    }
  }

  lemma PhaseStaysWithin(s: State, w: nat, fault: Fault, deployments: set<string>, k8sServices: set<string>)
    requires Inv(s) && Enabled(s, Work(w, fault)) && Within(s, deployments, k8sServices)
    ensures var ws := WorkerStep(s, w, fault).workers;
            |ws| == |s.workers| && forall v :: 0 <= v < |ws| ==> PhaseWithin(ws[v], deployments, k8sServices)
  {
    hide WorkerStep, AsksWithin;
    WorkPhase(s, w, fault);
    assert PhaseWithin(s.workers[w], deployments, k8sServices);
    assert ApiWithin(s.history[s.views.services], deployments, k8sServices);
  }

  lemma QuietWithin(s: State, l: Step, deployments: set<string>, k8sServices: set<string>)
    requires Inv(s) && Enabled(s, l) && Quiet(l) && Within(s, deployments, k8sServices)
    ensures Within(Next(s, l), deployments, k8sServices)
  {
    if l.Work? {
      WorkWithin(s, l.worker, l.fault, deployments, k8sServices);
    } else {
      hide AsksWithin, Inv;
    }
  }

  /** Over a quiet stretch every write to the API server closes the gap by one, so the number of
      writes is exactly what the gap lost and never more than the gap was. */
  lemma {:induction false} WritesAreBounded(ss: seq<State>, ls: seq<Step>, i: nat, j: nat,
                                            deployments: set<string>, k8sServices: set<string>)
    requires IsRun(ss, ls) && i <= j < |ss| && (forall k :: i <= k < j ==> Quiet(ls[k]))
    requires Inv(ss[i]) && Within(ss[i], deployments, k8sServices)
    ensures Inv(ss[j]) && Within(ss[j], deployments, k8sServices)
    ensures |ss[j].history| + Gap(Current(ss[j]), deployments, k8sServices)
            == |ss[i].history| + Gap(Current(ss[i]), deployments, k8sServices)
  {
    hide Inv, Within, Next, Gap;
    if i < j {
      WritesAreBounded(ss, ls, i, j - 1, deployments, k8sServices);
      var s, l := ss[j - 1], ls[j - 1];
      NextKeepsInv(s, l);
      QuietWithin(s, l, deployments, k8sServices);
      if l.Work? {
        WorkClosesGap(s, l.worker, l.fault, deployments, k8sServices);
      } else {
        QuietKeepsHistory(s, l);
      }
    }
  }

  lemma QuietKeepsHistory(s: State, l: Step)
    requires Inv(s) && Enabled(s, l) && Quiet(l) && !l.Work?
    ensures Next(s, l).history == s.history
  {
  }

  // ---- All services ever seen bound the work ----

  function SeenKeys(history: seq<Api>): (keys: set<string>)
    ensures forall i, key :: 0 <= i < |history| && key in history[i].services ==> key in keys
  {
    if history == [] then {} else SeenKeys(history[..|history| - 1]) + history[|history| - 1].services.Keys
  }

  /** Whatever the caches still show, no more children can be created than services were ever seen. */
  lemma SeenServicesBound(s: State)
    requires Inv(s)
    ensures Within(s, SeenKeys(s.history), SeenKeys(s.history))
  {
    var keys := SeenKeys(s.history);
    forall i | s.views.services <= i < |s.history| ensures ApiWithin(s.history[i], keys, keys) {
      forall key | key in s.history[i].services ensures AsksWithin(s.history[i].services[key], keys, keys) {
        assert ValidService(key, s.history[i].services[key]);
      }
    }
    forall w | 0 <= w < |s.workers| ensures PhaseWithin(s.workers[w], keys, keys) {
      PhaseOf(s, w);
    }
  }

  // ---- Missing children of the current services ----

  ghost function WantDeployments(api: Api): set<string> { api.services.Keys }

  /** A service needs a K8s Service when its container has ports or it is a gateway. */
  ghost function WantK8sServices(api: Api): set<string> {
    set key | key in api.services
              && (api.services[key].spec.container.ports != [] || api.services[key].spec.gateway.Some?)
  }

  ghost function Missing(api: Api): nat { Gap(api, WantDeployments(api), WantK8sServices(api)) }

  /** The worker is about to create a child that is required now. */
  predicate WantsChild(p: Phase, api: Api) {
    && (p.CreatingDeployment? || p.CreatingK8sService?)
    && ServiceKey(p.service) in api.services
    && (p.CreatingK8sService? ==>
          var spec := api.services[ServiceKey(p.service)].spec;
          spec.container.ports != [] || spec.gateway.Some?)
  }

  lemma OneMorePresent(want: set<string>, have: set<string>, key: string)
    requires key !in have
    ensures |want - have| == |want - (have + {key})| + if key in want then 1 else 0
  {
    if key in want {
      OneLessMissing(want, have, key);
    } else {
      assert want - (have + {key}) == want - have;
    }
  }

  lemma DeploymentKeys(a: Api, b: Api, service: Service)
    requires CreatesDeployment(a, b, service)
    ensures ServiceKey(service) !in a.deployments && b.deployments.Keys == a.deployments.Keys + {ServiceKey(service)}
    ensures b.services == a.services && b.k8sServices == a.k8sServices
  {
    hide BuildDeployment, ServiceKey;
  }

  lemma K8sServiceKeys(a: Api, b: Api, service: Service)
    requires CreatesK8sService(a, b, service)
    ensures ServiceKey(service) !in a.k8sServices && b.k8sServices.Keys == a.k8sServices.Keys + {ServiceKey(service)}
    ensures b.services == a.services && b.deployments == a.deployments
  {
    hide BuildK8sService, ServiceKey;
  }

  lemma DeploymentChangesMissing(a: Api, b: Api, service: Service)
    requires CreatesDeployment(a, b, service)
    ensures Missing(a) == Missing(b) + if ServiceKey(service) in a.services then 1 else 0
  {
    hide CreatesDeployment, ServiceKey, WantK8sServices;
    DeploymentKeys(a, b, service);
    OnlyServicesMatter(a, b);
    OneMorePresent(WantDeployments(a), a.deployments.Keys, ServiceKey(service));
  }

  lemma K8sServiceChangesMissing(a: Api, b: Api, service: Service)
    requires CreatesK8sService(a, b, service)
    ensures Missing(a) == Missing(b) + if ServiceKey(service) in WantK8sServices(a) then 1 else 0
  {
    hide CreatesK8sService, ServiceKey, WantK8sServices;
    K8sServiceKeys(a, b, service);
    OnlyServicesMatter(a, b);
    OneMorePresent(WantK8sServices(a), a.k8sServices.Keys, ServiceKey(service));
  }

  lemma OnlyServicesMatter(a: Api, b: Api)
    requires a.services == b.services
    ensures WantDeployments(a) == WantDeployments(b) && WantK8sServices(a) == WantK8sServices(b)
  {
  }

  /** In every state, however stale the caches: a worker step leaves the API server as it is, or adds one child,
      and then the number of missing required children goes down by one exactly if that child is required now. */
  lemma ReconcilingConverges(s: State, w: nat, fault: Fault)
    requires Inv(s) && Enabled(s, Work(w, fault))
    ensures var s' := Next(s, Work(w, fault));
            s'.history == s.history
            || (|s'.history| == |s.history| + 1 && Current(s').services == Current(s).services
                && Missing(Current(s)) == Missing(Current(s')) + if WantsChild(s.workers[w], Current(s)) then 1 else 0)
  {
    hide BuildDeployment, BuildK8sService, LookupOf, WorkerStep, Missing;
    WorkOnlyCreates(s, w, fault);
    var s' := Next(s, Work(w, fault));
    if s'.history != s.history {
      WorkCreatesWanted(s, w, fault);
      var p := s.workers[w];
      if p.CreatingDeployment? {
        DeploymentChangesMissing(Current(s), Current(s'), p.service);
      } else {
        K8sServiceChangesMissing(Current(s), Current(s'), p.service);
      }
    }
  }
}
