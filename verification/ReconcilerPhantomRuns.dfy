/** Runs from the first state on in which every service is reconciled without an error and a required child is
    missing all the same: one for each of the three caches that lags behind the last outside write. */
module ReconcilerPhantomRuns {
  import opened MeshTypes
  import opened Builders
  import opened Keys
  import opened WorkQueue
  import opened Reconciler
  import opened ReconcilerSafety
  import opened ReconcilerConvergence
  import opened ReconcilerCompletion

  predicate QuietFrom(ls: seq<Step>, i: nat) {
    forall k :: i <= k < |ls| ==> Quiet(ls[k])
  }

  /** Nobody else writes from state i on, every service is reconciled without an error after it,
      and yet one required child is missing in the end. */
  ghost predicate EndsIncomplete(ss: seq<State>, ls: seq<Step>, i: nat) {
    && IsRun(ss, ls) && Initial(ss[0]) && i < |ls|
    && QuietFrom(ls, i)
    && var last := ss[|ls|];
       && last.history != [] && last.workers != []
       && (forall key :: key in Current(last).services ==> ReconciledSince(last, |ss[i].log|, key))
       && Missing(Current(last)) == 1
  }

  /** A run whose last state is s. */
  ghost predicate EndsIn(ss: seq<State>, ls: seq<Step>, s: State) {
    IsRun(ss, ls) && Inv(s) && ss[|ls|] == s
  }

  lemma OneMoreStep(ss: seq<State>, ls: seq<Step>, s: State, l: Step)
    returns (ss': seq<State>, ls': seq<Step>, s': State)
    requires Inv(s) && EndsIn(ss, ls, s) && Enabled(s, l)
    ensures s' == Next(s, l) && Inv(s') && ss' == ss + [s'] && ls' == ls + [l] && EndsIn(ss', ls', s')
  {
    hide Inv, Enabled, Next;
    s' := Next(s, l);
    ss', ls' := ss + [s'], ls + [l];
    NextKeepsInv(s, l);
  }

  const EMPTY_API := Api(map[], map[], map[])

  /** One idle worker, nothing stored. */
  const START := State([EMPTY_API], Views(0, 0, 0), EMPTY_QUEUE, [Idle], [])

  lemma StartIsRun()
    ensures EndsIn([START], [], START) && Initial(START) && Inv(START)
  {
    InitialInv(START);
  }

  // ---- The parts the runs share ----

  /** Just before its service is listed: nothing is queued or logged, and the service cache shows the service. */
  ghost predicate Ready(s: State, key: string, service: Service) {
    && ViewsInRange(s) && s.queue == EMPTY_QUEUE && s.workers == [Idle] && s.log == []
    && key in s.history[s.views.services].services && s.history[s.views.services].services[key] == service
  }

  function Listed(s: State, key: string, service: Service): State {
    s.(queue := QueueState([], {}, {key}, false), workers := [ListingDeployment(Job(key, 0), service)], log := [Got(0, key)])
  }

  lemma NotifyStep(s: State, key: string, service: Service)
    requires Inv(s) && Ready(s, key, service)
    ensures Enabled(s, Notify(key)) && Next(s, Notify(key)) == s.(queue := QueueState([key], {key}, {}, false))
  {
    hide Inv;
  }

  lemma TakeStep(s: State, key: string)
    requires Inv(s) && s.queue == QueueState([key], {key}, {}, false) && s.workers == [Idle] && s.log == []
    ensures Enabled(s, Work(0, NoFault))
    ensures Next(s, Work(0, NoFault))
            == s.(queue := QueueState([], {}, {key}, false), workers := [Reading(Job(key, 0))], log := [Got(0, key)])
  {
    hide ValidHistory, Exclusive, ItemsAreServices;
  }

  lemma ReadStep(s: State, key: string, service: Service)
    requires Inv(s) && s.workers == [Reading(Job(key, 0))] && LookupOf(key) == Some(key)
    requires key in s.history[s.views.services].services && s.history[s.views.services].services[key] == service
    ensures Enabled(s, Work(0, NoFault))
    ensures Next(s, Work(0, NoFault)) == s.(workers := [ListingDeployment(Job(key, 0), service)])
  {
    hide ValidHistory, Exclusive, ItemsAreServices, WellFormed, LookupOf;
  }

  /** An event, a Get and a read of the service cache. */
  lemma ReachListing(ss: seq<State>, ls: seq<Step>, s: State, key: string, service: Service)
    returns (ss': seq<State>, ls': seq<Step>)
    requires EndsIn(ss, ls, s) && Inv(s) && Ready(s, key, service) && ValidName(service.namespace, service.name)
    requires key == ServiceKey(service)
    ensures ss <= ss' && ls < ls' && QuietFrom(ls', |ls|)
    ensures Inv(Listed(s, key, service)) && EndsIn(ss', ls', Listed(s, key, service))
  {
    hide Inv, Next, Enabled, EndsIn, ServiceKey, LookupOf, Ready, ValidName;
    KeyLooksUp(service);
    NotifyStep(s, key, service);
    ReadyParts(s, key, service);
    var queued, taken, listed;
    ss', ls', queued := OneMoreStep(ss, ls, s, Notify(key));
    TakeStep(queued, key);
    ss', ls', taken := OneMoreStep(ss', ls', queued, Work(0, NoFault));
    ReadStep(taken, key, service);
    ss', ls', listed := OneMoreStep(ss', ls', taken, Work(0, NoFault));
  }

  lemma KeyLooksUp(service: Service)
    requires ValidName(service.namespace, service.name)
    ensures LookupOf(ServiceKey(service)) == Some(ServiceKey(service))
  {
    KeyRoundTrip(service.namespace, service.name);
  }

  lemma ReadyParts(s: State, key: string, service: Service)
    requires Ready(s, key, service)
    ensures s.queue == EMPTY_QUEUE && s.workers == [Idle] && s.log == []
    ensures s.views.services < |s.history|
    ensures key in s.history[s.views.services].services && s.history[s.views.services].services[key] == service
  {
  }

  lemma ListStep(s: State, job: Job, service: Service)
    requires Inv(s) && s.workers == [ListingDeployment(job, service)]
    ensures Enabled(s, Work(0, NoFault))
    ensures Next(s, Work(0, NoFault)) ==
            if ServiceKey(service) in s.history[s.views.deployments].deployments then AfterDeployment(s, 0, job, service)
            else Goto(s, 0, CreatingDeployment(job, service))
  {
    ChildKeys(s, 0);
    hide Inv, ServiceKey, ListerKey, AfterDeployment;
  }

  lemma CreateStep(s: State, job: Job, service: Service)
    requires Inv(s) && s.workers == [CreatingDeployment(job, service)] && ServiceKey(service) !in Current(s).deployments
    ensures Enabled(s, Work(0, NoFault))
    ensures Next(s, Work(0, NoFault)) == AfterDeployment(StoreDeployment(s, service, NoFault), 0, job, service)
  {
    hide Inv, ServiceKey, AfterDeployment, StoreDeployment;
  }

  lemma ListK8sStep(s: State, job: Job, service: Service)
    requires Inv(s) && s.workers == [ListingK8sService(job, service)]
    requires ServiceKey(service) in s.history[s.views.k8sServices].k8sServices
    ensures Enabled(s, Work(0, NoFault))
    ensures Next(s, Work(0, NoFault)) == Finish(s, 0, job, true, Some(service))
  {
    ChildKeys(s, 0);
    hide Inv, ServiceKey, ListerKey, Finish;
  }

  /** After the listing, the Deployment is created: it was neither cached nor there. */
  lemma ReachCreated(ss: seq<State>, ls: seq<Step>, s: State, key: string, service: Service)
    returns (ss': seq<State>, ls': seq<Step>)
    requires EndsIn(ss, ls, s) && Inv(s) && Ready(s, key, service) && ValidName(service.namespace, service.name)
    requires key == ServiceKey(service) && key !in Current(s).deployments
    requires key !in s.history[s.views.deployments].deployments
    ensures ss <= ss' && ls < ls' && QuietFrom(ls', |ls|)
    ensures Inv(Created(s, key, service)) && EndsIn(ss', ls', Created(s, key, service))
  {
    hide Inv, Next, Enabled, EndsIn, Ready, ServiceKey, AfterDeployment, StoreDeployment;
    ss', ls' := ReachListing(ss, ls, s, key, service);
    var listed, creating, done := Listed(s, key, service), s, s;
    ListStep(listed, Job(key, 0), service);
    ss', ls', creating := OneMoreStep(ss', ls', listed, Work(0, NoFault));
    assert creating.workers == [CreatingDeployment(Job(key, 0), service)];
    CreateStep(creating, Job(key, 0), service);
    ss', ls', done := OneMoreStep(ss', ls', creating, Work(0, NoFault));
  }

  function Stored(s: State, key: string, service: Service): State
    requires s.history != []
  {
    StoreDeployment(Listed(s, key, service).(workers := [CreatingDeployment(Job(key, 0), service)]), service, NoFault)
  }

  function Created(s: State, key: string, service: Service): State
    requires s.history != []
  {
    AfterDeployment(Stored(s, key, service), 0, Job(key, 0), service)
  }

  lemma CreatedParts(s: State, key: string, service: Service)
    requires s.history != [] && key == ServiceKey(service) && key !in Current(s).deployments
    ensures var done := Created(s, key, service);
            && done.views == s.views && s.history < done.history && |done.history| == |s.history| + 1
            && key in Current(done).deployments
            && Current(done).services == Current(s).services && Current(done).k8sServices == Current(s).k8sServices
            && (NeedsK8sService(service) ==> done.workers == [ListingK8sService(Job(key, 0), service)])
            && (!NeedsK8sService(service) ==> done.workers != [] && done.log != []
                                              && done.log[|done.log| - 1] == Finished(0, Job(key, 0), true, Some(service)))
  {
    hide BuildDeployment, NeedsK8sService, ServiceKey;
  }

  function Skipped(s: State, key: string, service: Service): State {
    AfterDeployment(Listed(s, key, service), 0, Job(key, 0), service)
  }

  /** The cache shows a Deployment: none is created. */
  lemma ReachSkipped(ss: seq<State>, ls: seq<Step>, s: State, key: string, service: Service)
    returns (ss': seq<State>, ls': seq<Step>)
    requires EndsIn(ss, ls, s) && Inv(s) && Ready(s, key, service) && ValidName(service.namespace, service.name)
    requires key == ServiceKey(service) && key in s.history[s.views.deployments].deployments
    ensures ss <= ss' && ls < ls' && QuietFrom(ls', |ls|)
    ensures EndsIn(ss', ls', Skipped(s, key, service))
  {
    hide Inv, Next, Enabled, EndsIn, Ready, ServiceKey, AfterDeployment;
    ss', ls' := ReachListing(ss, ls, s, key, service);
    var listed, skipped := Listed(s, key, service), s;
    ListStep(listed, Job(key, 0), service);
    ss', ls', skipped := OneMoreStep(ss', ls', listed, Work(0, NoFault));
  }

  lemma SkippedParts(s: State, key: string, service: Service)
    requires !NeedsK8sService(service)
    ensures var done := Skipped(s, key, service);
            && done.history == s.history && done.workers != [] && done.log != []
            && done.log[|done.log| - 1] == Finished(0, Job(key, 0), true, Some(service))
  {
  }

  /** The only service lacks one of the children it asks for. */
  predicate LacksOne(api: Api, key: string, service: Service) {
    && api.services == map[key := service]
    && if key in api.deployments then NeedsK8sService(service) && key !in api.k8sServices
       else NeedsK8sService(service) ==> key in api.k8sServices
  }

  lemma LacksOneMissesOne(api: Api, key: string, service: Service)
    requires LacksOne(api, key, service)
    ensures Missing(api) == 1
  {
    var needs := NeedsK8sService(service);
    assert needs == (service.spec.container.ports != [] || service.spec.gateway.Some?);
    hide NeedsK8sService, Gap;
    assert WantDeployments(api) == {key} && WantK8sServices(api) == if needs then {key} else {};
    GapOfOne(api, key, needs);
  }

  lemma GapOfOne(api: Api, key: string, needs: bool)
    requires if key in api.deployments then needs && key !in api.k8sServices else needs ==> key in api.k8sServices
    ensures Gap(api, {key}, if needs then {key} else {}) == 1
  {
    var d, k := {key} - api.deployments.Keys, (if needs then {key} else {}) - api.k8sServices.Keys;
    assert d == if key in api.deployments then {} else {key};
    assert k == if needs && key !in api.k8sServices then {key} else {};
  }

  /** A run that goes on with quiet steps to the success of its only service, and to one of its children missing. */
  lemma SuccessIsIncomplete(ss0: seq<State>, ls0: seq<Step>, s0: State, ss: seq<State>, ls: seq<Step>, last: State,
                            key: string, service: Service)
    requires EndsIn(ss0, ls0, s0) && Initial(ss0[0]) && s0.log == []
    requires EndsIn(ss, ls, last) && ss0 <= ss && ls0 < ls && QuietFrom(ls, |ls0|)
    requires last.history != [] && last.workers != [] && LacksOne(Current(last), key, service)
    requires last.log != [] && var e := last.log[|last.log| - 1]; e.Finished? && e.ok && e.job == Job(key, 0)
    ensures EndsIncomplete(ss, ls, |ls0|) && ss[|ls0|] == s0
  {
    hide Inv, Enabled, Next, Initial, Quiet, Missing;
    var k := |last.log| - 1;
    assert last.log[k].Finished? && last.log[k].ok && last.log[k].job.item == key;
    assert ReconciledSince(last, 0, key);
    LacksOneMissesOne(Current(last), key, service);
  }

  // ---- Each cache has to reach the last outside write ----

  /** Only the Deployment cache is one version behind: it shows a Deployment that has just been deleted. */
  lemma DeploymentCacheMustReach(service: Service) returns (ss: seq<State>, ls: seq<Step>, i: nat)
    requires ValidName(service.namespace, service.name) && !NeedsK8sService(service)
    ensures EndsIncomplete(ss, ls, i)
    ensures var h := |ss[i].history| - 1;
            ss[i].views.services == ss[i].views.k8sServices == h && ss[i].views.deployments == h - 1
  {
    var key, d := ServiceKey(service), BuildDeployment(service);
    var ss0, ls0, s0 := DeletedDeployment(service, d);
    hide Inv, Next, Enabled, EndsIn, EndsIncomplete, NeedsK8sService, ServiceKey, BuildDeployment, Skipped;
    i := |ls0|;
    ss, ls := ReachSkipped(ss0, ls0, s0, key, service);
    SkippedParts(s0, key, service);
    SuccessIsIncomplete(ss0, ls0, s0, ss, ls, Skipped(s0, key, service), key, service);
  }

  lemma DeletedDeployment(service: Service, d: Deployment) returns (ss: seq<State>, ls: seq<Step>, s: State)
    requires ValidName(service.namespace, service.name)
    ensures EndsIn(ss, ls, s) && Initial(ss[0]) && Inv(s)
    ensures var key := ServiceKey(service);
            && |s.history| == 4 && s.views == Views(3, 2, 3) && Ready(s, key, service)
            && Current(s).services == map[key := service]
            && Current(s).deployments == map[] && Current(s).k8sServices == map[]
            && key in s.history[2].deployments
  {
    var key := ServiceKey(service);
    StartIsRun();
    hide Inv, ServiceKey, EndsIn;
    s := START;
    ss, ls, s := OneMoreStep([START], [], s, PutService(service));
    ss, ls, s := OneMoreStep(ss, ls, s, PutDeployment(key, d));
    ss, ls, s := OneMoreStep(ss, ls, s, SyncDeployments(2));
    ss, ls, s := OneMoreStep(ss, ls, s, DropDeployment(key));
    ss, ls, s := OneMoreStep(ss, ls, s, SyncServices(3));
    ss, ls, s := OneMoreStep(ss, ls, s, SyncK8sServices(3));
  }

  /** Only the K8s Service cache is one version behind. */
  lemma K8sServiceCacheMustReach(service: Service) returns (ss: seq<State>, ls: seq<Step>, i: nat)
    requires ValidName(service.namespace, service.name) && NeedsK8sService(service)
    ensures EndsIncomplete(ss, ls, i)
    ensures var h := |ss[i].history| - 1;
            ss[i].views.services == ss[i].views.deployments == h && ss[i].views.k8sServices == h - 1
  {
    var key, k := ServiceKey(service), BuildK8sService(service);
    var ss0, ls0, s0 := DeletedK8sService(service, k);
    hide Inv, Next, Enabled, EndsIn, EndsIncomplete, NeedsK8sService, ServiceKey, BuildDeployment, BuildK8sService, Created, Skipped;
    i := |ls0|;
    ss, ls := ReachCreated(ss0, ls0, s0, key, service);
    var done := Created(s0, key, service);
    CreatedParts(s0, key, service);
    ListK8sStep(done, Job(key, 0), service);
    var last;
    ss, ls, last := OneMoreStep(ss, ls, done, Work(0, NoFault));
    SuccessIsIncomplete(ss0, ls0, s0, ss, ls, last, key, service);
  }

  lemma DeletedK8sService(service: Service, k: K8sService) returns (ss: seq<State>, ls: seq<Step>, s: State)
    requires ValidName(service.namespace, service.name)
    ensures EndsIn(ss, ls, s) && Initial(ss[0]) && Inv(s)
    ensures var key := ServiceKey(service);
            && |s.history| == 4 && s.views == Views(3, 3, 2) && Ready(s, key, service)
            && Current(s).services == map[key := service]
            && Current(s).deployments == map[] && Current(s).k8sServices == map[]
            && key in s.history[2].k8sServices
  {
    var key := ServiceKey(service);
    StartIsRun();
    hide Inv, ServiceKey, EndsIn;
    s := START;
    ss, ls, s := OneMoreStep([START], [], s, PutService(service));
    ss, ls, s := OneMoreStep(ss, ls, s, PutK8sService(key, k));
    ss, ls, s := OneMoreStep(ss, ls, s, SyncK8sServices(2));
    ss, ls, s := OneMoreStep(ss, ls, s, DropK8sService(key));
    ss, ls, s := OneMoreStep(ss, ls, s, SyncServices(3));
    ss, ls, s := OneMoreStep(ss, ls, s, SyncDeployments(3));
  }

  /** Only the service cache is one version behind: it shows the service before it asked for a K8s Service. */
  lemma ServiceCacheMustReach(older: Service, newer: Service) returns (ss: seq<State>, ls: seq<Step>, i: nat)
    requires ValidName(older.namespace, older.name) && ServiceKey(older) == ServiceKey(newer)
    requires ValidName(newer.namespace, newer.name) && !NeedsK8sService(older) && NeedsK8sService(newer)
    ensures EndsIncomplete(ss, ls, i)
    ensures var h := |ss[i].history| - 1;
            ss[i].views.deployments == ss[i].views.k8sServices == h && ss[i].views.services == h - 1
  {
    var key := ServiceKey(older);
    var ss0, ls0, s0 := ChangedService(older, newer);
    hide Inv, Next, Enabled, EndsIn, EndsIncomplete, NeedsK8sService, ServiceKey, BuildDeployment, BuildK8sService, Created, Skipped;
    i := |ls0|;
    ss, ls := ReachCreated(ss0, ls0, s0, key, older);
    var done := Created(s0, key, older);
    CreatedParts(s0, key, older);
    SuccessIsIncomplete(ss0, ls0, s0, ss, ls, done, key, newer);
  }

  lemma ChangedService(older: Service, newer: Service) returns (ss: seq<State>, ls: seq<Step>, s: State)
    requires ValidName(older.namespace, older.name) && ServiceKey(older) == ServiceKey(newer)
    requires ValidName(newer.namespace, newer.name)
    ensures EndsIn(ss, ls, s) && Initial(ss[0]) && Inv(s)
    ensures var key := ServiceKey(older);
            && |s.history| == 3 && s.views == Views(1, 2, 2) && Ready(s, key, older)
            && Current(s) == Api(map[key := newer], map[], map[])
  {
    StartIsRun();
    hide Inv, ServiceKey, EndsIn;
    s := START;
    ss, ls, s := OneMoreStep([START], [], s, PutService(older));
    ss, ls, s := OneMoreStep(ss, ls, s, SyncServices(1));
    ss, ls, s := OneMoreStep(ss, ls, s, PutService(newer));
    ss, ls, s := OneMoreStep(ss, ls, s, SyncDeployments(2));
    ss, ls, s := OneMoreStep(ss, ls, s, SyncK8sServices(2));
  }
}
