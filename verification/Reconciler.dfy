/** The controller as a concurrent system: N workers, a work queue, lagging informer caches and
    an API server that others write to as well. One step is one queue, lister or API operation. */
module Reconciler {
  import opened MeshTypes
  import opened Builders
  import opened Keys
  import opened WorkQueue

  // ---- State ----

  /** What the API server holds, under `namespace/name`. */
  datatype Api = Api(
    services: map<string, Service>,
    deployments: map<string, Deployment>,
    k8sServices: map<string, K8sService>)

  /** How far each informer cache has followed the history of the API server. */
  datatype Views = Views(services: nat, deployments: nat, k8sServices: nat)

  /** A reconcile that took its item from the queue when the log had length `began`. */
  datatype Job = Job(item: string, began: nat)

  datatype Phase =
    | Idle
    | Stopped                                            // the queue told the worker to stop
    | Reading(job: Job)                                  // about to read the service lister
    | ListingDeployment(job: Job, service: Service)
    | CreatingDeployment(job: Job, service: Service)
    | ListingK8sService(job: Job, service: Service)
    | CreatingK8sService(job: Job, service: Service)
    | Returned(job: Job, ok: bool)                       // reconcile has returned
    | Forgotten(job: Job)                                // Forget done, the deferred Done is next

  datatype Entry =
    | Got(worker: nat, item: string)
    | Finished(worker: nat, job: Job, ok: bool, found: Option<Service>)
    | Forgot(worker: nat, item: string)
    | DidDone(worker: nat, item: string)
    | CreatedDeployment(service: Service)
    | CreatedK8sService(service: Service)

  datatype State = State(
    history: seq<Api>,
    views: Views,
    queue: QueueState,
    workers: seq<Phase>,
    log: seq<Entry>)

  function ServiceKey(s: Service): string { MetaNamespaceKey(s.namespace, s.name) }

  function Current(s: State): Api
    requires s.history != []
  {
    s.history[|s.history| - 1]
  }

  function JobOf(p: Phase): Option<Job> {
    if p.Idle? || p.Stopped? then None else Some(p.job)
  }

  function HeldBy(p: Phase): Option<string> {
    if p.Idle? || p.Stopped? then None else Some(p.job.item)
  }

  predicate HasService(p: Phase) {
    p.ListingDeployment? || p.CreatingDeployment? || p.ListingK8sService? || p.CreatingK8sService?
  }

  // ---- Invariant of every reachable state ----

  ghost predicate ViewsInRange(s: State) {
    && s.views.services < |s.history| && s.views.deployments < |s.history| && s.views.k8sServices < |s.history|
  }

  predicate ValidService(key: string, service: Service) {
    ValidName(service.namespace, service.name) && key == ServiceKey(service)
  }

  /** Some version of the API server held this service. */
  ghost predicate Observed(s: State, service: Service) {
    exists i :: 0 <= i < |s.history| && ServiceKey(service) in s.history[i].services
                && s.history[i].services[ServiceKey(service)] == service
  }

  ghost predicate WasService(s: State, key: string) {
    exists i :: 0 <= i < |s.history| && key in s.history[i].services
  }

  ghost predicate ValidHistory(s: State) {
    forall i, key :: 0 <= i < |s.history| && key in s.history[i].services ==>
      ValidService(key, s.history[i].services[key])
  }

  /** Each item in processing is held by exactly one worker. */
  ghost predicate Exclusive(ws: seq<Phase>, processing: set<string>) {
    && (forall w :: 0 <= w < |ws| && HeldBy(ws[w]).Some? ==> HeldBy(ws[w]).value in processing)
    && (forall v, w :: 0 <= v < w < |ws| && HeldBy(ws[v]).Some? ==> HeldBy(ws[v]) != HeldBy(ws[w]))
    && (forall x :: x in processing ==> exists w :: 0 <= w < |ws| && HeldBy(ws[w]) == Some(x))
  }

  /** The Deployment of the service has been seen or created. */
  predicate PastDeployment(p: Phase) { p.ListingK8sService? || p.CreatingK8sService? }

  /** A worker works on the service its item names, and on a K8s Service only if one is needed;
      its job began in the past. */
  ghost predicate PhaseValid(s: State, p: Phase) {
    && (JobOf(p).Some? ==> JobOf(p).value.began < |s.log|)
    && (HasService(p) ==> Observed(s, p.service) && p.job.item == ServiceKey(p.service)
                          && ValidName(p.service.namespace, p.service.name))
    && (PastDeployment(p) ==> NeedsK8sService(p.service))
  }

  ghost predicate ItemsAreServices(s: State) {
    && (forall x :: x in s.queue.dirty || x in s.queue.processing ==> WasService(s, x))
    && (forall w :: 0 <= w < |s.workers| ==> PhaseValid(s, s.workers[w]))
  }

  ghost predicate Inv(s: State) {
    && s.history != [] && ViewsInRange(s) && ValidHistory(s)
    && WellFormed(s.queue) && Exclusive(s.workers, s.queue.processing) && ItemsAreServices(s)
  }

  predicate Initial(s: State) {
    && |s.history| == 1 && s.history[0] == Api(map[], map[], map[]) && s.views == Views(0, 0, 0)
    && s.queue == EMPTY_QUEUE && s.log == []
    && forall w :: 0 <= w < |s.workers| ==> s.workers[w] == Idle
  }

  // ---- Steps ----

  /** What can go wrong outside the controller. */
  datatype Fault = NoFault | ListerFails | CreateFails | ReplyLost

  datatype Step =
    | Work(worker: nat, fault: Fault)       // the next operation of one worker
    | Restart(worker: nat)                  // wait.Until starts the loop again
    | Notify(key: string)                   // an add, update or resync event of the service informer
    | SyncServices(to: nat) | SyncDeployments(to: nat) | SyncK8sServices(to: nat)
    | PutService(service: Service) | DropService(key: string)
    | PutDeployment(key: string, deployment: Deployment) | DropDeployment(key: string)
    | PutK8sService(key: string, k8sService: K8sService) | DropK8sService(key: string)
    | Shutdown

  ghost predicate Enabled(s: State, l: Step)
    requires Inv(s)
  {
    match l
    case Work(w, _) => w < |s.workers| && !s.workers[w].Stopped? && (s.workers[w].Idle? ==> CanGet(s.queue))
    case Restart(w) => w < |s.workers| && s.workers[w].Stopped?
    case Notify(key) => exists i :: 0 <= i <= s.views.services && key in s.history[i].services
    case SyncServices(i) => s.views.services <= i < |s.history|
    case SyncDeployments(i) => s.views.deployments <= i < |s.history|
    case SyncK8sServices(i) => s.views.k8sServices <= i < |s.history|
    case PutService(service) => ValidName(service.namespace, service.name)
    case _ => true
  }

  function Commit(s: State, api: Api): State { s.(history := s.history + [api]) }

  function Goto(s: State, w: nat, p: Phase): State
    requires w < |s.workers|
  {
    s.(workers := s.workers[w := p])
  }

  function Log(s: State, e: Entry): State { s.(log := s.log + [e]) }

  function Finish(s: State, w: nat, job: Job, ok: bool, found: Option<Service>): State
    requires w < |s.workers|
  {
    Log(Goto(s, w, Returned(job, ok)), Finished(w, job, ok, found))
  }

  /** After the Deployment: a K8s Service only if something is exposed. */
  function AfterDeployment(s: State, w: nat, job: Job, service: Service): State
    requires w < |s.workers|
  {
    if NeedsK8sService(service) then Goto(s, w, ListingK8sService(job, service))
    else Finish(s, w, job, true, Some(service))
  }

  /** Create refuses existing objects; the object may be stored although the reply is lost. */
  function Stores(present: bool, fault: Fault): bool { !present && fault != CreateFails }

  function Succeeds(present: bool, fault: Fault): bool { !present && fault != CreateFails && fault != ReplyLost }

  function StoreDeployment(s: State, service: Service, fault: Fault): (r: State)
    requires s.history != []
    ensures r.workers == s.workers && r.views == s.views && r.queue == s.queue && r.history != []
  {
    var api, key := Current(s), ServiceKey(service);
    if Stores(key in api.deployments, fault) then
      Log(Commit(s, api.(deployments := api.deployments[key := BuildDeployment(service)])), CreatedDeployment(service))
    else s
  }

  function StoreK8sService(s: State, service: Service, fault: Fault): (r: State)
    requires s.history != []
    ensures r.workers == s.workers && r.views == s.views && r.queue == s.queue && r.history != []
  {
    var api, key := Current(s), ServiceKey(service);
    if Stores(key in api.k8sServices, fault) then
      Log(Commit(s, api.(k8sServices := api.k8sServices[key := BuildK8sService(service)])), CreatedK8sService(service))
    else s
  }

  function TakeItem(s: State, w: nat): State
    requires Inv(s) && w < |s.workers| && CanGet(s.queue)
  {
    if MustStop(s.queue) then Goto(s, w, Stopped)
    else
      var item := s.queue.queue[0];
      Log(Goto(s.(queue := Taken(s.queue)), w, Reading(Job(item, |s.log|))), Got(w, item))
  }

  function ReadService(s: State, w: nat, job: Job, fault: Fault): State
    requires Inv(s) && w < |s.workers|
  {
    match LookupOf(job.item)
    case None => Finish(s, w, job, true, None)
    case Some(key) =>
      var services := s.history[s.views.services].services;
      if fault.ListerFails? then Finish(s, w, job, false, None)
      else if key !in services then Finish(s, w, job, true, None)
      else Goto(s, w, ListingDeployment(job, services[key]))
  }

  function GiveBack(s: State, w: nat, job: Job): State
    requires Inv(s) && w < |s.workers| && job.item in s.queue.processing
  {
    Log(Goto(s.(queue := Released(s.queue, job.item)), w, Idle), DidDone(w, job.item))
  }

  function WorkerStep(s: State, w: nat, fault: Fault): State
    requires Inv(s) && Enabled(s, Work(w, fault))
  {
    match s.workers[w]
    case Idle => TakeItem(s, w)
    case Reading(job) => ReadService(s, w, job, fault)
    case ListingDeployment(job, service) =>
      if fault.ListerFails? then Finish(s, w, job, false, Some(service))
      else if ListerKey(service.namespace, DeploymentName(service)) in s.history[s.views.deployments].deployments
      then AfterDeployment(s, w, job, service)
      else Goto(s, w, CreatingDeployment(job, service))
    case CreatingDeployment(job, service) =>
      var ok := Succeeds(ServiceKey(service) in Current(s).deployments, fault);
      var s' := StoreDeployment(s, service, fault);
      if ok then AfterDeployment(s', w, job, service) else Finish(s', w, job, false, Some(service))
    case ListingK8sService(job, service) =>
      if fault.ListerFails? then Finish(s, w, job, false, Some(service))
      else if ListerKey(service.namespace, K8sServiceName(service)) in s.history[s.views.k8sServices].k8sServices
      then Finish(s, w, job, true, Some(service))
      else Goto(s, w, CreatingK8sService(job, service))
    case CreatingK8sService(job, service) =>
      var ok := Succeeds(ServiceKey(service) in Current(s).k8sServices, fault);
      Finish(StoreK8sService(s, service, fault), w, job, ok, Some(service))
    case Returned(job, ok) =>
      if ok then Log(Goto(s, w, Forgotten(job)), Forgot(w, job.item)) else GiveBack(s, w, job)
    case Forgotten(job) => GiveBack(s, w, job)
  }

  function Next(s: State, l: Step): State
    requires Inv(s) && Enabled(s, l)
  {
    var api := Current(s);
    match l
    case Work(w, fault) => WorkerStep(s, w, fault)
    case Restart(w) => Goto(s, w, Idle)
    case Notify(key) => s.(queue := Added(s.queue, key))
    case SyncServices(i) => s.(views := s.views.(services := i))
    case SyncDeployments(i) => s.(views := s.views.(deployments := i))
    case SyncK8sServices(i) => s.(views := s.views.(k8sServices := i))
    case PutService(service) => Commit(s, api.(services := api.services[ServiceKey(service) := service]))
    case DropService(key) => Commit(s, api.(services := api.services - {key}))
    case PutDeployment(key, d) => Commit(s, api.(deployments := api.deployments[key := d]))
    case DropDeployment(key) => Commit(s, api.(deployments := api.deployments - {key}))
    case PutK8sService(key, k) => Commit(s, api.(k8sServices := api.k8sServices[key := k]))
    case DropK8sService(key) => Commit(s, api.(k8sServices := api.k8sServices - {key}))
    case Shutdown => s.(queue := Closed(s.queue))
  }

  /** States and the steps between them. Asking for Inv at every state excludes nothing,
      here and where a lemma names the last one: see NextKeepsInv and RunInv. */
  ghost predicate IsRun(ss: seq<State>, ls: seq<Step>) {
    && |ss| == |ls| + 1
    && Inv(ss[0])
    && forall i :: 0 <= i < |ls| ==> Inv(ss[i]) && Enabled(ss[i], ls[i]) && ss[i + 1] == Next(ss[i], ls[i])
  }

  // ---- The invariant is kept ----

  lemma InitialInv(s: State)
    requires Initial(s)
    ensures Inv(s)
  {
  }

  lemma ObservedGrows(s: State, s': State)
    requires s.history <= s'.history && |s.log| <= |s'.log|
    ensures forall service :: Observed(s, service) ==> Observed(s', service)
    ensures forall key :: WasService(s, key) ==> WasService(s', key)
    ensures forall p :: PhaseValid(s, p) ==> PhaseValid(s', p)
  {
    assert forall i :: 0 <= i < |s.history| ==> s'.history[i] == s.history[i];
  }

  lemma GotoExclusive(ws: seq<Phase>, processing: set<string>, w: nat, p: Phase)
    requires Exclusive(ws, processing) && w < |ws| && HeldBy(p) == HeldBy(ws[w])
    ensures Exclusive(ws[w := p], processing)
  {
    var ws' := ws[w := p];
    assert forall v :: 0 <= v < |ws| ==> HeldBy(ws'[v]) == HeldBy(ws[v]);
  }

  lemma TakeExclusive(ws: seq<Phase>, processing: set<string>, w: nat, p: Phase, x: string)
    requires Exclusive(ws, processing) && w < |ws| && HeldBy(ws[w]).None? && HeldBy(p) == Some(x) && x !in processing
    ensures Exclusive(ws[w := p], processing + {x})
  {
    var ws' := ws[w := p];
    assert forall v :: 0 <= v < |ws| && v != w ==> HeldBy(ws'[v]) == HeldBy(ws[v]);
    assert HeldBy(ws'[w]) == Some(x);
    forall y | y in processing + {x} ensures exists v :: 0 <= v < |ws'| && HeldBy(ws'[v]) == Some(y) {
      if y != x {
        var v :| 0 <= v < |ws| && HeldBy(ws[v]) == Some(y);
        assert HeldBy(ws'[v]) == Some(y);
      }
    }
  }

  lemma GiveBackExclusive(ws: seq<Phase>, processing: set<string>, w: nat, x: string)
    requires Exclusive(ws, processing) && w < |ws| && HeldBy(ws[w]) == Some(x)
    ensures Exclusive(ws[w := Idle], processing - {x})
  {
    var ws' := ws[w := Idle];
    assert forall v :: 0 <= v < |ws| && v != w ==> HeldBy(ws'[v]) == HeldBy(ws[v]) && HeldBy(ws[v]) != Some(x);
    forall y | y in processing - {x} ensures exists v :: 0 <= v < |ws'| && HeldBy(ws'[v]) == Some(y) {
      var v :| 0 <= v < |ws| && HeldBy(ws[v]) == Some(y);
      assert HeldBy(ws'[v]) == Some(y);
    }
  }

  lemma GotoInv(s: State, w: nat, p: Phase)
    requires Inv(s) && w < |s.workers| && HeldBy(p) == HeldBy(s.workers[w]) && PhaseValid(s, p)
    ensures Inv(Goto(s, w, p))
  {
    GotoExclusive(s.workers, s.queue.processing, w, p);
    ObservedGrows(s, Goto(s, w, p));
  }

  lemma LogInv(s: State, e: Entry)
    requires Inv(s)
    ensures Inv(Log(s, e))
  {
    ObservedGrows(s, Log(s, e));
  }

  lemma FinishInv(s: State, w: nat, job: Job, ok: bool, found: Option<Service>)
    requires Inv(s) && w < |s.workers| && JobOf(s.workers[w]) == Some(job)
    ensures Inv(Finish(s, w, job, ok, found))
  {
    PhaseOf(s, w);
    GotoInv(s, w, Returned(job, ok));
    LogInv(Goto(s, w, Returned(job, ok)), Finished(w, job, ok, found));
  }

  lemma AfterDeploymentInv(s: State, w: nat, job: Job, service: Service)
    requires Inv(s) && w < |s.workers| && JobOf(s.workers[w]) == Some(job)
    requires PhaseValid(s, CreatingDeployment(job, service))
    ensures Inv(AfterDeployment(s, w, job, service))
  {
    if NeedsK8sService(service) {
      GotoInv(s, w, ListingK8sService(job, service));
    } else {
      FinishInv(s, w, job, true, Some(service));
    }
  }

  lemma CommitInv(s: State, api: Api)
    requires Inv(s)
    requires forall key :: key in api.services ==> ValidService(key, api.services[key])
    ensures Inv(Commit(s, api))
  {
    var s' := Commit(s, api);
    ObservedGrows(s, s');
    assert forall i :: 0 <= i < |s.history| ==> s'.history[i] == s.history[i];
  }

  lemma CommitLogInv(s: State, api: Api, e: Entry)
    requires Inv(s) && api.services == Current(s).services
    ensures Inv(Log(Commit(s, api), e)) && s.history <= Log(Commit(s, api), e).history
  {
    assert forall k :: k in api.services ==> ValidService(k, api.services[k]);
    hide Inv, ValidService;
    CommitInv(s, api);
    LogInv(Commit(s, api), e);
  }

  lemma StoreInv(s: State, service: Service, fault: Fault)
    requires Inv(s)
    ensures Inv(StoreDeployment(s, service, fault)) && Inv(StoreK8sService(s, service, fault))
    ensures s.history <= StoreDeployment(s, service, fault).history
    ensures s.history <= StoreK8sService(s, service, fault).history
  {
    var api, key := Current(s), ServiceKey(service);
    hide Inv, ServiceKey, BuildDeployment, BuildK8sService;
    CommitLogInv(s, api.(deployments := api.deployments[key := BuildDeployment(service)]), CreatedDeployment(service));
    CommitLogInv(s, api.(k8sServices := api.k8sServices[key := BuildK8sService(service)]), CreatedK8sService(service));
  }

  lemma TakeItemInv(s: State, w: nat)
    requires Inv(s) && w < |s.workers| && s.workers[w].Idle? && CanGet(s.queue)
    ensures Inv(TakeItem(s, w))
  {
    if MustStop(s.queue) {
      GotoInv(s, w, Stopped);
    } else {
      var item := s.queue.queue[0];
      var p := Reading(Job(item, |s.log|));
      assert item in s.queue.queue;
      TakeExclusive(s.workers, s.queue.processing, w, p, item);
      ObservedGrows(s, TakeItem(s, w));
    }
  }

  lemma GiveBackInv(s: State, w: nat, job: Job)
    requires Inv(s) && w < |s.workers| && HeldBy(s.workers[w]) == Some(job.item) && job.item in s.queue.processing
    ensures Inv(GiveBack(s, w, job))
  {
    GiveBackExclusive(s.workers, s.queue.processing, w, job.item);
    ObservedGrows(s, GiveBack(s, w, job));
  }

  lemma ReadServiceInv(s: State, w: nat, job: Job, fault: Fault)
    requires Inv(s) && w < |s.workers| && s.workers[w] == Reading(job)
    ensures Inv(ReadService(s, w, job, fault))
  {
    FinishInv(s, w, job, true, None);
    FinishInv(s, w, job, false, None);
    assert HeldBy(s.workers[w]) == Some(job.item) && WasService(s, job.item);
    WasServiceKey(s, job.item);
    var services := s.history[s.views.services].services;
    if job.item in services {
      assert Observed(s, services[job.item]);
      GotoInv(s, w, ListingDeployment(job, services[job.item]));
    }
  }

  /** The items of the queue lead back to the services they were made from. */
  lemma WasServiceKey(s: State, key: string)
    requires ValidHistory(s) && WasService(s, key)
    ensures LookupOf(key) == Some(key)
  {
    var i :| 0 <= i < |s.history| && key in s.history[i].services;
    var service := s.history[i].services[key];
    KeyRoundTrip(service.namespace, service.name);
  }

  lemma WorkerStepInv(s: State, w: nat, fault: Fault)
    requires Inv(s) && Enabled(s, Work(w, fault))
    ensures Inv(WorkerStep(s, w, fault))
  {
    hide Inv, Finish, AfterDeployment, StoreDeployment, StoreK8sService, TakeItem, GiveBack, ReadService, LookupOf;
    match s.workers[w]
    case Idle => TakeItemInv(s, w);
    case Reading(job) => ReadServiceInv(s, w, job, fault);
    case ListingDeployment(job, service) =>
      PhaseOf(s, w);
      FinishInv(s, w, job, false, Some(service));
      AfterDeploymentInv(s, w, job, service);
      GotoInv(s, w, CreatingDeployment(job, service));
    case CreatingDeployment(job, service) =>
      CreatingDeploymentInv(s, w, job, service, fault);
    case ListingK8sService(job, service) =>
      PhaseOf(s, w);
      FinishInv(s, w, job, false, Some(service));
      FinishInv(s, w, job, true, Some(service));
      GotoInv(s, w, CreatingK8sService(job, service));
    case CreatingK8sService(job, service) =>
      CreatingK8sServiceInv(s, w, job, service, fault);
    case Returned(job, ok) =>
      PhaseOf(s, w);
      GiveBackInv(s, w, job);
      GotoInv(s, w, Forgotten(job));
      LogInv(Goto(s, w, Forgotten(job)), Forgot(w, job.item));
    case Forgotten(job) =>
      PhaseOf(s, w);
      GiveBackInv(s, w, job);
  }

  lemma PhaseOf(s: State, w: nat)
    requires Inv(s) && w < |s.workers|
    ensures PhaseValid(s, s.workers[w])
    ensures HeldBy(s.workers[w]).Some? ==> HeldBy(s.workers[w]).value in s.queue.processing
  {
  }

  lemma CreatingDeploymentInv(s: State, w: nat, job: Job, service: Service, fault: Fault)
    requires Inv(s) && w < |s.workers| && s.workers[w] == CreatingDeployment(job, service)
    ensures var s' := StoreDeployment(s, service, fault);
            Inv(AfterDeployment(s', w, job, service)) && Inv(Finish(s', w, job, false, Some(service)))
  {
    var s' := StoreDeployment(s, service, fault);
    StoreInv(s, service, fault);
    ObservedGrows(s, s');
    assert PhaseValid(s, s.workers[w]);
    AfterDeploymentInv(s', w, job, service);
    FinishInv(s', w, job, false, Some(service));
  }

  lemma CreatingK8sServiceInv(s: State, w: nat, job: Job, service: Service, fault: Fault)
    requires Inv(s) && w < |s.workers| && s.workers[w] == CreatingK8sService(job, service)
    ensures forall ok :: Inv(Finish(StoreK8sService(s, service, fault), w, job, ok, Some(service)))
  {
    var s' := StoreK8sService(s, service, fault);
    StoreInv(s, service, fault);
    FinishInv(s', w, job, true, Some(service));
    FinishInv(s', w, job, false, Some(service));
  }

  lemma NotifyInv(s: State, key: string)
    requires Inv(s) && Enabled(s, Notify(key))
    ensures Inv(Next(s, Notify(key)))
  {
    ObservedGrows(s, Next(s, Notify(key)));
  }

  lemma ShutdownInv(s: State)
    requires Inv(s)
    ensures Inv(Next(s, Shutdown))
  {
    ObservedGrows(s, Next(s, Shutdown));
  }

  lemma SyncInv(s: State, views: Views)
    requires Inv(s) && ViewsInRange(s.(views := views))
    ensures Inv(s.(views := views))
  {
    ObservedGrows(s, s.(views := views));
  }

  lemma ValidCurrent(s: State)
    requires Inv(s)
    ensures forall key :: key in Current(s).services ==> ValidService(key, Current(s).services[key])
    ensures s.history != [] && ViewsInRange(s)
  {
  }

  lemma EnvironmentStepInv(s: State, l: Step)
    requires Inv(s) && Enabled(s, l) && !l.Work?
    ensures Inv(Next(s, l))
  {
    ValidCurrent(s);
    hide Inv;
    var api := Current(s);
    match l
    case Restart(w) => GotoInv(s, w, Idle);
    case Notify(key) => NotifyInv(s, key);
    case SyncServices(i) => SyncInv(s, s.views.(services := i));
    case SyncDeployments(i) => SyncInv(s, s.views.(deployments := i));
    case SyncK8sServices(i) => SyncInv(s, s.views.(k8sServices := i));
    case PutService(service) => CommitInv(s, api.(services := api.services[ServiceKey(service) := service]));
    case DropService(key) => CommitInv(s, api.(services := api.services - {key}));
    case PutDeployment(key, d) => CommitInv(s, api.(deployments := api.deployments[key := d]));
    case DropDeployment(key) => CommitInv(s, api.(deployments := api.deployments - {key}));
    case PutK8sService(key, k) => CommitInv(s, api.(k8sServices := api.k8sServices[key := k]));
    case DropK8sService(key) => CommitInv(s, api.(k8sServices := api.k8sServices - {key}));
    case Shutdown => ShutdownInv(s);
  }

  /** Every step of every worker and of the environment keeps the invariant. */
  lemma NextKeepsInv(s: State, l: Step)
    requires Inv(s) && Enabled(s, l)
    ensures Inv(Next(s, l))
  {
    if l.Work? {
      WorkerStepInv(s, l.worker, l.fault);
    } else {
      EnvironmentStepInv(s, l);
    }
  }

  lemma RunInv(ss: seq<State>, ls: seq<Step>, i: nat)
    requires IsRun(ss, ls) && i < |ss|
    ensures Inv(ss[i])
  {
    if i > 0 {
      NextKeepsInv(ss[i - 1], ls[i - 1]);
    }
  }
}
