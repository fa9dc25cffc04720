/** One reconcile that runs without interruption, as a function; it is one run of the concurrent system. */
module SoloReconcile {
  import opened MeshTypes
  import opened Builders
  import opened Keys
  import opened Text
  import opened WorkQueue
  import opened Reconciler
  import opened ReconcilerSafety

  datatype Children = Children(deployments: map<string, Deployment>, k8sServices: map<string, K8sService>)

  /** What the three listers answer. */
  datatype Caches = Caches(services: map<string, Service>, deployments: set<string>, k8sServices: set<string>)

  /** Which of the calls of one reconcile fail. */
  datatype Faults = Faults(service: Fault, listDeployment: Fault, createDeployment: Fault,
                           listK8sService: Fault, createK8sService: Fault)

  datatype Result = Result(children: Children, ok: bool)

  function CreateDeployment(c: Children, d: Deployment, fault: Fault): Result {
    var key := MetaNamespaceKey(d.namespace, d.name);
    Result(if Stores(key in c.deployments, fault) then c.(deployments := c.deployments[key := d]) else c,
           Succeeds(key in c.deployments, fault))
  }

  function CreateK8sService(c: Children, k: K8sService, fault: Fault): Result {
    var key := MetaNamespaceKey(k.namespace, k.name);
    Result(if Stores(key in c.k8sServices, fault) then c.(k8sServices := c.k8sServices[key := k]) else c,
           Succeeds(key in c.k8sServices, fault))
  }

  function ReconcileDeployment(c: Children, caches: Caches, s: Service, faults: Faults): Result {
    if faults.listDeployment.ListerFails? then Result(c, false)
    else if ListerKey(s.namespace, DeploymentName(s)) in caches.deployments then Result(c, true)
    else CreateDeployment(c, BuildDeployment(s), faults.createDeployment)
  }

  function ReconcileK8sService(c: Children, caches: Caches, s: Service, faults: Faults): Result {
    if faults.listK8sService.ListerFails? then Result(c, false)
    else if ListerKey(s.namespace, K8sServiceName(s)) in caches.k8sServices then Result(c, true)
    else CreateK8sService(c, BuildK8sService(s), faults.createK8sService)
  }

  function ReconcileService(c: Children, caches: Caches, s: Service, faults: Faults): Result {
    var r := ReconcileDeployment(c, caches, s, faults);
    if r.ok && NeedsK8sService(s) then ReconcileK8sService(r.children, caches, s, faults) else r
  }

  function Reconcile(c: Children, caches: Caches, key: string, faults: Faults): Result {
    match LookupOf(key)
    case None => Result(c, true)
    case Some(lookup) =>
      if faults.service.ListerFails? then Result(c, false)
      else if lookup !in caches.services then Result(c, true)
      else ReconcileService(c, caches, caches.services[lookup], faults)
  }

  /** The Deployment builder's write to the service does not reach the K8s Service. */
  lemma SameK8sReconcile(c: Children, caches: Caches, s: Service, faults: Faults)
    ensures ReconcileK8sService(c, caches, NameContainer(s), faults) == ReconcileK8sService(c, caches, s, faults)
  {
    NameContainerInvisible(s);
  }

  // ---- What a reconcile decides, in terms of the service's own fields ----

  /** A child is there, or gets created: its listing answers and either shows it or the creation succeeds. */
  predicate Provides(cached: bool, present: bool, listing: Fault, creation: Fault) {
    !listing.ListerFails? && (cached || (!present && !creation.CreateFails? && !creation.ReplyLost?))
  }

  /** A child is created: it was not listed, was not there, and the call arrived, whether or not its reply did. */
  predicate Creates(cached: bool, present: bool, listing: Fault, creation: Fault) {
    !listing.ListerFails? && !cached && !present && !creation.CreateFails?
  }

  /** The Deployment comes first; a K8s Service only if the container has ports or there is a gateway, and only after
      the Deployment is provided. */
  lemma ReconcileDecides(c: Children, caches: Caches, s: Service, faults: Faults)
    requires ValidName(s.namespace, s.name)
    ensures var r, key := ReconcileService(c, caches, s, faults), s.namespace + "/" + s.name;
            var first := Provides(key in caches.deployments, key in c.deployments, faults.listDeployment, faults.createDeployment);
            var second := Provides(key in caches.k8sServices, key in c.k8sServices, faults.listK8sService, faults.createK8sService);
            var asks := s.spec.container.ports != [] || s.spec.gateway.Some?;
            && (r.ok <==> first && (asks ==> second))
            && r.children.deployments ==
               (if Creates(key in caches.deployments, key in c.deployments, faults.listDeployment, faults.createDeployment)
                then c.deployments[key := BuildDeployment(s)] else c.deployments)
            && r.children.k8sServices ==
               (if first && asks
                   && Creates(key in caches.k8sServices, key in c.k8sServices, faults.listK8sService, faults.createK8sService)
                then c.k8sServices[key := BuildK8sService(s)] else c.k8sServices)
  {
    var d, k := BuildDeployment(s), BuildK8sService(s);
    assert MetaNamespaceKey(d.namespace, d.name) == MetaNamespaceKey(k.namespace, k.name) == s.namespace + "/" + s.name;
    assert ListerKey(s.namespace, DeploymentName(s)) == ListerKey(s.namespace, K8sServiceName(s)) == s.namespace + "/" + s.name;
    hide BuildDeployment, BuildK8sService, MetaNamespaceKey, ListerKey;
  }

  /** A service that has no children yet gets its Deployment, and a K8s Service exactly if its container has ports or
      it is a gateway. */
  lemma FreshServiceGetsChildren(c: Children, caches: Caches, s: Service, faults: Faults)
    requires ValidName(s.namespace, s.name)
    requires faults == Faults(NoFault, NoFault, NoFault, NoFault, NoFault)
    requires var key := s.namespace + "/" + s.name;
             && key in caches.services && caches.services[key] == s
             && key !in caches.deployments && key !in caches.k8sServices && key !in c.deployments && key !in c.k8sServices
    ensures var key := s.namespace + "/" + s.name;
            var r := Reconcile(c, caches, key, faults);
            && r.ok && key in r.children.deployments
            && (key in r.children.k8sServices <==> |s.spec.container.ports| > 0 || s.spec.gateway.Some?)
  {
    KeyRoundTrip(s.namespace, s.name);
    ReconcileDecides(c, caches, s, faults);
    hide LookupOf, ReconcileService;
  }

  /** Without a service to work on nothing is stored: a key that cannot be read and a service that is gone are no
      errors, a failing lister is. */
  lemma NothingToReconcile(c: Children, caches: Caches, key: string, faults: Faults)
    ensures |Split(key, '/')| > 2 ==> Reconcile(c, caches, key, faults) == Result(c, true)
    ensures |Split(key, '/')| == 2 && faults.service.ListerFails? ==> Reconcile(c, caches, key, faults) == Result(c, false)
    ensures |Split(key, '/')| == 2 && !faults.service.ListerFails? && key !in caches.services ==>
              Reconcile(c, caches, key, faults) == Result(c, true)
  {
    LookupFindsKeyIff(key);
  }

  // ---- The same as steps of a single worker ----

  function ChildrenOf(api: Api): Children { Children(api.deployments, api.k8sServices) }

  function CachesOf(s: State): Caches
    requires s.views.services < |s.history| && s.views.deployments < |s.history| && s.views.k8sServices < |s.history|
  {
    Caches(s.history[s.views.services].services, s.history[s.views.deployments].deployments.Keys,
           s.history[s.views.k8sServices].k8sServices.Keys)
  }

  function FaultAt(p: Phase, faults: Faults): Fault {
    match p
    case Reading(_) => faults.service
    case ListingDeployment(_, _) => faults.listDeployment
    case CreatingDeployment(_, _) => faults.createDeployment
    case ListingK8sService(_, _) => faults.listK8sService
    case CreatingK8sService(_, _) => faults.createK8sService
    case _ => NoFault
  }

  predicate Busy(p: Phase) { p.Reading? || HasService(p) }

  function StepsLeft(p: Phase): nat {
    match p
    case Reading(_) => 5
    case ListingDeployment(_, _) => 4
    case CreatingDeployment(_, _) => 3
    case ListingK8sService(_, _) => 2
    case CreatingK8sService(_, _) => 1
    case _ => 0
  }

  /** What is left to do from each phase on. */
  function Remaining(c: Children, caches: Caches, p: Phase, faults: Faults): Result {
    match p
    case Reading(job) => Reconcile(c, caches, job.item, faults)
    case ListingDeployment(_, service) => ReconcileService(c, caches, service, faults)
    case CreatingDeployment(_, service) =>
      var r := CreateDeployment(c, BuildDeployment(service), faults.createDeployment);
      if r.ok && NeedsK8sService(service) then ReconcileK8sService(r.children, caches, service, faults) else r
    case ListingK8sService(_, service) => ReconcileK8sService(c, caches, service, faults)
    case CreatingK8sService(_, service) => CreateK8sService(c, BuildK8sService(service), faults.createK8sService)
    case Returned(_, ok) => Result(c, ok)
    case _ => Result(c, true)
  }

  /** The states of a worker that is scheduled until its reconcile returns. */
  ghost function SoloRun(s: State, w: nat, faults: Faults): (ss: seq<State>)
    requires Inv(s) && w < |s.workers|
    ensures |ss| >= 1 && ss[0] == s
    decreases StepsLeft(s.workers[w])
  {
    if !Busy(s.workers[w]) then [s]
    else
      var fault := FaultAt(s.workers[w], faults);
      var next := Next(s, Work(w, fault));
      NextKeepsInv(s, Work(w, fault));
      WorkAdvances(s, w, fault);
      [s] + SoloRun(next, w, faults)
  }

  lemma WorkAdvances(s: State, w: nat, fault: Fault)
    requires Inv(s) && Enabled(s, Work(w, fault)) && Busy(s.workers[w])
    ensures var s' := WorkerStep(s, w, fault);
            |s'.workers| == |s.workers| && StepsLeft(s'.workers[w]) < StepsLeft(s.workers[w])
            && (Busy(s'.workers[w]) || s'.workers[w].Returned?)
            && JobOf(s'.workers[w]) == JobOf(s.workers[w])
  {
    hide Inv, StoreDeployment, StoreK8sService, LookupOf, ServiceKey, ListerKey, NeedsK8sService, Succeeds;
  }

  /** Storing in the state is creating in the function. */
  lemma StoreIsCreate(s: State, service: Service, fault: Fault)
    requires s.history != []
    ensures var r := CreateDeployment(ChildrenOf(Current(s)), BuildDeployment(service), fault);
            r == Result(ChildrenOf(Current(StoreDeployment(s, service, fault))),
                        Succeeds(ServiceKey(service) in Current(s).deployments, fault))
    ensures var r := CreateK8sService(ChildrenOf(Current(s)), BuildK8sService(service), fault);
            r == Result(ChildrenOf(Current(StoreK8sService(s, service, fault))),
                        Succeeds(ServiceKey(service) in Current(s).k8sServices, fault))
  {
    var d, k := BuildDeployment(service), BuildK8sService(service);
    assert MetaNamespaceKey(d.namespace, d.name) == ServiceKey(service);
    assert MetaNamespaceKey(k.namespace, k.name) == ServiceKey(service);
    hide BuildDeployment, BuildK8sService;
  }

  lemma WorkKeepsViews(s: State, w: nat, fault: Fault)
    requires Inv(s) && Enabled(s, Work(w, fault))
    ensures WorkerStep(s, w, fault).views == s.views
  {
    hide StoreDeployment, StoreK8sService, LookupOf, ServiceKey, ListerKey, NeedsK8sService, ValidHistory, Exclusive,
      ItemsAreServices, Taken, Released;
  }

  lemma SameCaches(s: State, s': State)
    requires ViewsInRange(s) && s.history <= s'.history && s'.views == s.views
    ensures ViewsInRange(s') && CachesOf(s') == CachesOf(s)
  {
    assert forall i :: 0 <= i < |s.history| ==> s'.history[i] == s.history[i];
  }

  /** The caches do not move while a worker runs. */
  lemma WorkKeepsCaches(s: State, w: nat, fault: Fault)
    requires Inv(s) && Enabled(s, Work(w, fault))
    ensures ViewsInRange(WorkerStep(s, w, fault)) && CachesOf(WorkerStep(s, w, fault)) == CachesOf(s)
  {
    WorkGrows(s, w, fault);
    WorkKeepsViews(s, w, fault);
    hide WorkerStep;
    SameCaches(s, WorkerStep(s, w, fault));
  }

  /** With the same caches, what is left to do from the second state on gives what it gave from the first. */
  ghost predicate DoesNextPart(s: State, s': State, w: nat, faults: Faults) {
    && ViewsInRange(s) && w < |s.workers| && w < |s'.workers| && s'.history != []
    && Remaining(ChildrenOf(Current(s')), CachesOf(s), s'.workers[w], faults)
       == Remaining(ChildrenOf(Current(s)), CachesOf(s), s.workers[w], faults)
  }

  lemma SoloListing(s: State, w: nat, faults: Faults)
    requires Inv(s) && w < |s.workers|
    requires s.workers[w].Reading? || s.workers[w].ListingDeployment? || s.workers[w].ListingK8sService?
    ensures DoesNextPart(s, WorkerStep(s, w, FaultAt(s.workers[w], faults)), w, faults)
  {
    hide LookupOf, NeedsK8sService, ListerKey, CreateDeployment, CreateK8sService, BuildDeployment, BuildK8sService,
      ValidHistory, Exclusive, ItemsAreServices;
  }

  lemma SoloAfterDeployment(s: State, w: nat, job: Job, service: Service, ok: bool, c: Children, caches: Caches, faults: Faults)
    requires w < |s.workers|
    ensures var t := if ok then AfterDeployment(s, w, job, service) else Finish(s, w, job, false, Some(service));
            && w < |t.workers| && t.history == s.history
            && Remaining(c, caches, t.workers[w], faults)
               == if ok && NeedsK8sService(service) then ReconcileK8sService(c, caches, service, faults) else Result(c, ok)
  {
    hide NeedsK8sService, ReconcileK8sService;
  }

  lemma SoloCreatingDeployment(s: State, w: nat, job: Job, service: Service, faults: Faults)
    requires Inv(s) && w < |s.workers| && s.workers[w] == CreatingDeployment(job, service)
    ensures DoesNextPart(s, WorkerStep(s, w, faults.createDeployment), w, faults)
  {
    var caches := CachesOf(s);
    var s' := StoreDeployment(s, service, faults.createDeployment);
    var ok := Succeeds(ServiceKey(service) in Current(s).deployments, faults.createDeployment);
    StoreIsCreate(s, service, faults.createDeployment);
    hide Inv, NeedsK8sService, ReconcileK8sService, CreateDeployment, StoreDeployment, BuildDeployment, ServiceKey, CachesOf,
      AfterDeployment, Finish;
    SoloAfterDeployment(s', w, job, service, ok, ChildrenOf(Current(s')), caches, faults);
  }

  lemma SoloCreatingK8sService(s: State, w: nat, job: Job, service: Service, faults: Faults)
    requires Inv(s) && w < |s.workers| && s.workers[w] == CreatingK8sService(job, service)
    ensures DoesNextPart(s, WorkerStep(s, w, faults.createK8sService), w, faults)
  {
    assert ViewsInRange(s);
    var k, caches := StoreK8sService(s, service, faults.createK8sService), CachesOf(s);
    var ok := Succeeds(ServiceKey(service) in Current(s).k8sServices, faults.createK8sService);
    StoreIsCreate(s, service, faults.createK8sService);
    hide Inv, CreateK8sService, StoreK8sService, BuildK8sService, ServiceKey, CachesOf, Succeeds, Finish;
    FinishRemains(k, w, job, service, ok, ChildrenOf(Current(k)), caches, faults);
  }

  lemma FinishRemains(s: State, w: nat, job: Job, service: Service, ok: bool, c: Children, caches: Caches, faults: Faults)
    requires w < |s.workers|
    ensures var t := Finish(s, w, job, ok, Some(service));
            && w < |t.workers| && t.history == s.history && Remaining(c, caches, t.workers[w], faults) == Result(c, ok)
  {
  }

  /** Every step of the solo run does the next part of the function. */
  lemma SoloStep(s: State, w: nat, faults: Faults)
    requires Inv(s) && w < |s.workers| && Busy(s.workers[w])
    ensures DoesNextPart(s, WorkerStep(s, w, FaultAt(s.workers[w], faults)), w, faults)
  {
    var p := s.workers[w];
    hide Inv, WorkerStep, DoesNextPart;
    if p.CreatingDeployment? {
      SoloCreatingDeployment(s, w, p.job, p.service, faults);
    } else if p.CreatingK8sService? {
      SoloCreatingK8sService(s, w, p.job, p.service, faults);
    } else {
      SoloListing(s, w, faults);
    }
  }

  /** The reconcile has returned, with these children stored and this success. */
  ghost predicate Ended(s: State, w: nat, job: Option<Job>, r: Result) {
    && Inv(s) && w < |s.workers| && s.history != [] && s.workers[w].Returned? && JobOf(s.workers[w]) == job
    && Result(ChildrenOf(Current(s)), s.workers[w].ok) == r
  }

  /** What is left to do for a worker in this state. */
  ghost function RemainingFrom(s: State, w: nat, faults: Faults): Result
    requires Inv(s) && w < |s.workers|
  {
    Remaining(ChildrenOf(Current(s)), CachesOf(s), s.workers[w], faults)
  }

  lemma SoloStepRemains(s: State, w: nat, faults: Faults)
    requires Inv(s) && w < |s.workers| && Busy(s.workers[w])
    ensures var s' := Next(s, Work(w, FaultAt(s.workers[w], faults)));
            && Inv(s') && w < |s'.workers| && JobOf(s'.workers[w]) == JobOf(s.workers[w])
            && RemainingFrom(s', w, faults) == RemainingFrom(s, w, faults)
            && StepsLeft(s'.workers[w]) < StepsLeft(s.workers[w])
            && (Busy(s'.workers[w]) || s'.workers[w].Returned?)
  {
    var fault := FaultAt(s.workers[w], faults);
    NextKeepsInv(s, Work(w, fault));
    SoloStep(s, w, faults);
    WorkAdvances(s, w, fault);
    WorkKeepsCaches(s, w, fault);
    hide Inv, WorkerStep, Remaining, CachesOf;
  }

  lemma ReturnedHasEnded(s: State, w: nat, faults: Faults)
    requires Inv(s) && w < |s.workers| && s.workers[w].Returned?
    ensures Ended(s, w, JobOf(s.workers[w]), RemainingFrom(s, w, faults))
  {
    hide ValidHistory, Exclusive, ItemsAreServices, WellFormed;
  }

  /** Left alone, a worker of the concurrent system computes exactly the function: same children,
      same success. */
  lemma {:induction false} SoloRunComputes(s: State, w: nat, faults: Faults)
    requires Inv(s) && w < |s.workers| && Busy(s.workers[w])
    ensures var ss := SoloRun(s, w, faults);
            Ended(ss[|ss| - 1], w, JobOf(s.workers[w]), RemainingFrom(s, w, faults))
    decreases StepsLeft(s.workers[w])
  {
    hide Inv, Next, WorkerStep, RemainingFrom, Ended;
    var s' := Next(s, Work(w, FaultAt(s.workers[w], faults)));
    SoloStepRemains(s, w, faults);
    if Busy(s'.workers[w]) {
      SoloRunComputes(s', w, faults);
    } else {
      ReturnedHasEnded(s', w, faults);
    }
  }
}
