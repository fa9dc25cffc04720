# lite-mesh control plane: model and proofs

lite-mesh is a small Kubernetes control plane. Users write *Services* and *Configurations*. A controller
creates a Deployment and a Kubernetes Service for every Service; a discovery server compiles the rules of every
Configuration to Envoy listeners and clusters and keeps one snapshot per pod name. This project models that
system in Dafny and proves what users of it rely on.

## How the model is built

| file | what it models |
|---|---|
| `MeshTypes`, `Text`, `Keys` | the API objects as values; `strings.Split`, `%d`; object keys and node ids |
| `Envoy` | the target: what a proxy accepts and where it sends a connection, from the documented v2 API messages |
| `Compiler`, `Routing` | `buildListeners` and `buildClusters`; the meaning of the source language; preservation |
| `Layers`, `Publisher` | `update` as a nested loop over a keyed cache, and the map it computes |
| `PublishRuns`, `Confluence` | whole runs of the server, one rule per step, with informers changing in between |
| `EndToEnd` | from a Configuration to the connections of one pod's proxy |
| `Builders` | labels, Deployment and K8s Service as values |
| `WorkQueue` | client-go's de-duplicating queue |
| `Reconciler`, `ReconcilerSafety`, `ReconcilerAccounting`, `ReconcilerConvergence` | N workers, stale caches, failing calls and outside writers as a step system |
| `ReconcilerCompletion`, `ReconcilerPhantoms`, `ReconcilerPhantomRuns` | when successful reconciles leave nothing missing, exactly when one does not, and runs in which it does not |
| `SoloReconcile`, `Controller` | one reconcile as a function, and the controller's own code over heap objects |
| `ServiceObjects`, `ConfigurationObjects` | the Go objects with their pointers, slices and maps, and their deep copies |
| `InformerFactory` | the shared informer factory |

Functions specify, methods do. Each method that follows a loop or an in-place write of the source is proved equal to
a function; the lemmas are about the functions. In the same way the heap methods of `Controller` compute the functions of
`SoloReconcile`, and those are what one worker of the concurrent system does when it runs alone.

## What a reader should know

* **Where the code and its comments disagree.** The comment at `pkg/controller/controller.go:98-103` says a
  failed item is put back after a back-off. The code does not do that: it neither forgets nor re-adds the key. The model
  follows the code; `ReconcilerAccounting.FailureIsNotRetried` states the consequence.
* **The routing theorem has an exact condition.** A compiled rule can differ from its source meaning in one way: the
  rule declares a cluster named `BlackHoleCluster` itself and the connection goes to a port the rule does not list.
  `Routing.CompilationPreservesRouting` is an if-and-only-if, and `Routing.DeclaredBlackHoleLeaks` an instance. Rules a proxy would reject (equal or zero ports, repeated
  domains, undeclared HTTP clusters, unusable addresses) mean `Unloadable` on both sides; `Routing.AcceptedIffLoadable`
  says which these are.
* **Two configurations that match the same pod.** The order in which they are processed then shows.
  `Publisher.PublishCommutesIff` gives the condition, `Publisher.OverlapIsOrderDependent` an instance.
  A configuration that stops matching a pod leaves its snapshot in the cache.
* **Snapshots are keyed by pod name without a namespace.** `EndToEnd.OwnLabelsDecideIff` says exactly when
  that does no harm.
* **Stale caches.** A reconcile that reports success can leave a required child missing: a cache may still show a
  child that is gone. `ReconcilerPhantoms.InterleavedSuccessIsCompleteIff` gives the exact condition for every
  interleaving. In terms of the caches: once all three have reached the last outside write, one error-free reconcile per
  service is enough (`ReconcilerCompletion.ReconciledMeansComplete`), and for each of the three there is a run from the first
  state on in which that cache alone lags by one version and a child is missing in the end (`ReconcilerPhantomRuns`).
* **Definitions shared by both sides.** Where a theorem relates two things defined through the same function, a separate
  lemma says what that function computes on the raw fields: `Routing.DomainsCover` and `SearchOrder` for domains,
  `Builders.DeploymentContents` and `K8sServiceContents` for children, `SoloReconcile.ReconcileDecides` for a reconcile,
  `Compiler.EmittedListener` and `ClusterEndpoints` for the emitted resources, `Text.DecimalReadsBack` for printed numbers.
* **Keys.** The key round trip holds exactly for objects that have a namespace.

## Model

| member | source | states |
|---|---|---|
| Text.Split | pkg/xds/server.go:73 | splitting yields at least one part and no part contains the separator |
| Text.JoinOfSplit | pkg/xds/server.go:73 | joining what was split gives the text back |
| Text.SplitOfJoin | vendor/k8s.io/client-go/tools/cache/store.go:96 | splitting what was joined gives separator-free parts back |
| Text.DecimalReadsBack | pkg/xds/server.go:151 | reading the printed digits as a decimal number gives the number back, and no leading zero is printed |
| Text.FormatIntInjective | pkg/xds/server.go:151 | `%d` prints different integers differently, signs included |
| Text.FormatIntReadsBack | pkg/controller/resource.go:128 | reading the printed digits, with their sign, gives the number back |
| Envoy.IndexByName | vendor/github.com/envoyproxy/go-control-plane/pkg/cache/snapshot.go:32-38 | the index has exactly the names of the resources, each with a resource of that name |
| Envoy.LastOfNameWins | vendor/github.com/envoyproxy/go-control-plane/pkg/cache/snapshot.go:32-38 | of several resources of one name the last one is the one kept |
| Compiler.BuildListeners | pkg/xds/server.go:116-243 | the nested append loops produce the one virtual listener whose chains are the black hole and one chain per filter, in order |
| Compiler.BuildClusters | pkg/xds/server.go:245-273 | one cluster per declared cluster, in order, each of type STRICT_DNS over IPv4 with the declared name, host and port and a ten-second timeout |
| Compiler.ClusterEndpoints | vendor/github.com/envoyproxy/go-control-plane/envoy/api/v2/cds.pb.go:146-154 | an emitted cluster stands for every IPv4 address its host resolves to, each at the declared port |
| Compiler.HostNamesNeedDns | vendor/github.com/envoyproxy/go-control-plane/envoy/api/v2/core/address.pb.go:115-118 | with a host name in it, the emitted cluster is one a proxy accepts only for the types that ask DNS |
| Compiler.EmittedListener | pkg/xds/server.go:119-242 | the listener field by field: name, address, original-destination filter, the black hole chain, and per filter its port and either a TCP proxy to its cluster or one virtual host per HTTP entry with its domains and cluster |
| Compiler.VirtualHostNameInjective | pkg/xds/server.go:151 | `http-<port>-<i>` determines port and index |
| Compiler.GeneratedNamesDistinct | pkg/xds/server.go:125-210 | stat prefixes of different ports, of http and tcp, and of the black hole never collide, nor do virtual host names |
| Routing.AcceptedIffLoadable | vendor/github.com/envoyproxy/go-control-plane/envoy/api/v2/route/route.pb.go:171-187 | a proxy accepts the compiled rule if and only if the source rule has distinct ports in range, distinct domains, declared HTTP clusters and usable addresses |
| Routing.RefusedRules | vendor/github.com/envoyproxy/go-control-plane/envoy/api/v2/route/route.pb.go:185-186 | equal ports, a port out of range, an HTTP entry without domains or with an undeclared cluster, a domain written twice, and a cluster without a name, a host or a valid port each make a proxy refuse the rule |
| Routing.DomainsCover | vendor/github.com/envoyproxy/go-control-plane/envoy/api/v2/route/route.pb.go:175-184 | which hosts a domain covers, on its characters: a star in front stands for one or more characters before the rest, a star behind for one or more after it, `*` for any host, and everything else for itself |
| Routing.SearchFindsMostSpecific | vendor/github.com/envoyproxy/go-control-plane/envoy/api/v2/route/route.pb.go:174-186 | the documented search order (exact, longest suffix, longest prefix, any) finds a most specific pattern covering the host, and finds none only if no pattern covers it |
| Routing.SearchOnDomains | vendor/github.com/envoyproxy/go-control-plane/envoy/api/v2/route/route.pb.go:174-186 | on the domains as written: the search finds a virtual host exactly if some listed domain matches, and then one whose domain no other matching domain beats |
| Routing.SearchOrder | vendor/github.com/envoyproxy/go-control-plane/envoy/api/v2/route/route.pb.go:174-186 | in particular the host itself comes first, then the longest domain with a star in front, then the longest with a star behind, then `*` |
| Routing.VirtualHostsMean | pkg/xds/server.go:147-170 | the virtual host chosen for a host routes to the cluster of the most specific domain among the filter's HTTP entries |
| Routing.ChainForPort | pkg/xds/server.go:119-220 | a listed port selects its own filter's chain and every other port the black hole's, although that comes first in the list |
| Routing.CompiledServes | pkg/xds/server.go:116-273 | where the compiled rule sends any intercepted connection, for every rule |
| Routing.CompilationPreservesRouting | pkg/xds/server.go:116-273 | the compiled rule sends a connection exactly where the source rule says, if and only if the rule is not loadable, or lists the port, or declares no cluster with the black hole's name |
| Routing.DeclaredBlackHoleLeaks | pkg/xds/server.go:121-135 | the exception is real: a rule a proxy accepts and an intercepted connection to an unlisted port that reaches the declared cluster instead of nothing |
| Routing.TcpConnections | pkg/xds/server.go:204-217 | on the rule's fields: a listed port without HTTP entries leads to the host and port of the cluster declared under its TCP cluster's name, and is closed if there is none |
| Routing.HttpConnections | pkg/xds/server.go:145-201 | a listed port with HTTP entries leads to the host and port of the cluster of the entry whose domain matches the host and beats every other matching one, and answers 404 if no domain matches |
| Routing.UnlistedConnections | pkg/xds/server.go:121-135 | every other port is closed, unless a cluster takes the black hole's name |
| Routing.HttpOverridesTcp | pkg/xds/server.go:145-218 | with HTTP entries present the TCP cluster of the filter makes no difference to any connection |
| Routing.RoutingIsOrderIndependent | pkg/xds/server.go:137-220 | permuting filters, and HTTP entries inside them, changes neither acceptance nor the destination of any connection |
| Keys.LookupFindsKeyIff | vendor/k8s.io/client-go/tools/cache/store.go:95-107 | a key leads the handler back to the entry stored under it if and only if it has exactly one slash |
| Keys.KeyRoundTrip | pkg/controller/controller.go:74-82 | enqueue, split and lister lookup address the object the event was about |
| Keys.KeyRoundTripIff | pkg/client/listers/mesh/v1alpha1/service.go:85-94 | for slash-free names the round trip works if and only if the namespace is not empty |
| Keys.KeysInjective | vendor/k8s.io/client-go/tools/cache/store.go:76-88 | different objects never share a key |
| Keys.KeyText | vendor/k8s.io/client-go/tools/cache/store.go:76-107 | a key is the namespace, a slash and the name, and reads back as these; a further slash makes it unreadable |
| Keys.NodeIdText | pkg/xds/server.go:70-74 | a node id is the address, an `@` and the pod name; the server reads the pod name, and has no answer without an `@` |
| Keys.NodeIdRoundTrip | cmd/envoy-bootstrap/envoy-bootstrap.go:83-85 | the server finds the pod name in the printed node id if and only if that name has no `@`, for addresses without one |
| Layers.OverlayIsTop | pkg/xds/server.go:95-113 | overwriting layer by layer equals adding the map of topmost values |
| Layers.OverlayCommutesIff | pkg/xds/server.go:95-113 | two maps can be stored in either order if and only if they agree where they overlap |
| Publisher.Server.ListPods | pkg/xds/server.go:96 | walking the pod store in any order lists exactly the pods the match selects |
| Publisher.Server.PublishRule | pkg/xds/server.go:100-112 | whatever the listing order, exactly the matched pod names get the rule's snapshot |
| Publisher.Server.Update | pkg/xds/server.go:76-114 | the nested loop computes the declarative map, also for bad keys and objects that are gone |
| Publisher.BuildSnapshot | pkg/xds/server.go:102-107 | the snapshot of a rule at a resource version |
| Publisher.UpdateMeaning | pkg/xds/server.go:76-114 | after an update each matched name holds the compiled last matching rule, all other entries are untouched, none disappears, and updating again changes nothing |
| Publisher.PublishCommutesIff | pkg/xds/server.go:95-113 | two configurations may be processed in either order if and only if they publish equal snapshots for every common name |
| Publisher.OverlapIsOrderDependent | pkg/xds/server.go:95-113 | an instance where the order shows |
| PublishRuns.WriteMoment | pkg/xds/server.go:95-113 | every stored snapshot was stored by one event of the run, with the rule of the configuration in progress and the pods the informer held just then |
| PublishRuns.SnapshotProvenance | pkg/xds/server.go:89-108 | in every run each served snapshot is the compiled form of one rule of one configuration version that was read from the lister and really stored there, carries that version, and was stored by an event of the run at which the informer held a pod of that name whose labels the rule selects |
| PublishRuns.VersionsNeverGoBack | pkg/xds/server.go:89-108 | for a name touched by one configuration only, the served version never goes backwards, provided the informer never puts an older version back |
| PublishRuns.OlderStoreGoesBack | pkg/xds/server.go:89-108 | that proviso is needed: a run in which the store goes back from one version to an older one and so does what the pod is served |
| Confluence.StepPending | pkg/xds/server.go:76-114 | rule-by-rule runs refine atomic updates: only the begin of an update changes the snapshots that are pending |
| Confluence.StaysPending | pkg/xds/server.go:76-114 | once a configuration was handled after its last change its snapshots stay, whatever other events follow |
| Confluence.SettledServesCurrent | pkg/xds/server.go:49-54 | at rest every currently matched pod name is served what its current configuration publishes |
| Confluence.PublishingIsConfluent | pkg/xds/server.go:49-54 | two runs with different, repeated or reordered events that end with the same configurations serve the same snapshots |
| EndToEnd.OwnLabelsDecideIff | pkg/xds/server.go:108 | every configuration reaches a pod by the pod's own labels if and only if pods that share its name carry no label it does not carry |
| EndToEnd.ProxyRoutesByItsRule | pkg/xds/server.go:70-114 | after one update the proxy of a pod, found by its node id, routes by the last rule that selects the pod; unselected pods keep what they had |
| EndToEnd.SettledProxyRoutesByItsRule | pkg/xds/server.go:49-114 | in every run that has come to rest, the proxy of each pod some stored configuration selects routes by the last rule of that configuration that selects it |
| Builders.NameContainerInvisible | pkg/controller/resource.go:16-18 | the in-place write to the container name changes nothing that is built afterwards |
| Builders.DeploymentContents | pkg/controller/resource.go:16-118 | a gateway's Deployment has the proxy alone, any other service's has the user's container beside it, with its image, arguments and ports and its name or the service's; namespace, name, replicas and labels are the service's |
| Builders.ProxyArguments | pkg/controller/resource.go:22-61 | the proxy gets every flag with the user's value, or the default where there is none |
| Builders.OwnedByService | pkg/controller/meta.go:31-37 | both children are owned by the service, by name and kind |
| Builders.K8sServiceContents | pkg/controller/resource.go:121-159 | a gateway exposes its own ports, any other service its container's, in order, over TCP and under the names `tcp-<port>` |
| Builders.SelectorsCoherent | pkg/controller/resource.go:67-82 | Deployment selector, pod labels and K8s Service selector are one map with the user's labels winning, also on `app`; that the label loop yields that map in any order is Controller.CreateLabelMap |
| Builders.CrossSelectionIff | pkg/controller/meta.go:18-29 | when exactly one service's selector reaches another service's pods |
| Builders.DifferentNamesDoNotCross | pkg/controller/meta.go:18-29 | services with different names and no `app` label of their own never select each other's pods |
| Builders.PortNamesDistinct | pkg/controller/resource.go:123-143 | the K8s port list keeps order and count and two entries share a name only for equal ports |
| WorkQueue.Added | vendor/k8s.io/client-go/util/workqueue/queue.go:87-107 | an item joins at the end of the queue or is remembered while processed, at most once; nothing changes for other items, and nothing at all after shutdown |
| WorkQueue.Taken | vendor/k8s.io/client-go/util/workqueue/queue.go:120-139 | exactly the head leaves the queue and goes from dirty to processing, every other item stays where it was, and the queue stays well formed |
| WorkQueue.Released | vendor/k8s.io/client-go/util/workqueue/queue.go:144-156 | the item leaves processing and is queued exactly if it was added meanwhile; every other item stays where it was |
| WorkQueue.Queue.Add | vendor/k8s.io/client-go/util/workqueue/queue.go:87-107 | the method on the queue's fields is the specified step |
| WorkQueue.Queue.Get | vendor/k8s.io/client-go/util/workqueue/queue.go:120-139 | the same; shutdown is reported only once the queue is drained |
| WorkQueue.Queue.Done | vendor/k8s.io/client-go/util/workqueue/queue.go:144-156 | the same |
| WorkQueue.Queue.ShutDown | vendor/k8s.io/client-go/util/workqueue/queue.go:160-165 | the same |
| Reconciler.InitialInv | pkg/controller/controller.go:33-57 | the system starts in the invariant |
| Reconciler.NextKeepsInv | pkg/controller/controller.go:89-202 | every step of every worker and of the environment keeps the system invariant, so that items lead back to services, workers hold different items and each works on an observed service |
| ReconcilerSafety.WorkOnlyCreates | pkg/controller/controller.go:141-202 | a worker step leaves the API server alone or adds one missing child of a service that was really observed, as the builder makes it |
| ReconcilerSafety.WorkKeepsChildren | pkg/controller/controller.go:171-202 | no worker step changes or removes an existing child, or touches a Service |
| ReconcilerSafety.ChildrenHaveOrigin | pkg/controller/resource.go:12-159 | in every run, every child in every version of the API server is the builder applied to some observed version of its service, or was put there by an outside write of that run |
| ReconcilerSafety.ChildrenAreBuilt | pkg/controller/resource.go:12-159 | so with no outside writes of children all of them come from the builders |
| ReconcilerSafety.K8sServicesHaveDeployments | pkg/controller/controller.go:159-168 | without deletions of Deployments, every K8s Service the controller ever created has a Deployment of the same namespace and name |
| ReconcilerAccounting.WorkIsAccounted | pkg/controller/controller.go:89-139 | on every path each Get is followed by exactly one result and one Done of the same item, and Forget comes exactly after success |
| ReconcilerAccounting.RunCountsMatch | pkg/controller/controller.go:89-139 | in every run a worker has called Done once per Get, except for the item in hand, and Forget once per successful reconcile |
| ReconcilerAccounting.WorkersExclusive | pkg/controller/controller.go:59-72 | in every run no two workers hold the same key |
| ReconcilerAccounting.ProcessingIsBounded | pkg/controller/controller.go:59-72 | in every run no more items are in processing than there are workers, however many these are |
| ReconcilerAccounting.DirtyUntilTaken | vendor/k8s.io/client-go/util/workqueue/queue.go:87-156 | a due key stays due until some worker takes it, over every stretch of every run |
| ReconcilerAccounting.NotifiedIsTakenAgain | pkg/controller/controller.go:74-82 | an event that arrives before shutdown, even while its key is reconciled, is followed by another Get of that key before the queue can run dry |
| ReconcilerAccounting.TakenInOrder | vendor/k8s.io/client-go/util/workqueue/queue.go:87-139 | over every run items are taken in the order they were queued: one waits for exactly as many Gets as there were items ahead of it |
| ReconcilerAccounting.OnlyEventsRetry | pkg/controller/controller.go:121-131 | a key neither queued nor held is not reconciled again before the next event for it |
| ReconcilerAccounting.FailureIsNotRetried | pkg/controller/controller.go:98-139 | after a failed reconcile the key is not attempted again without a new event |
| ReconcilerConvergence.WorkClosesGap | pkg/controller/controller.go:141-202 | each worker step leaves the API server unchanged or lowers the number of missing wanted children by one |
| ReconcilerConvergence.WritesAreBounded | pkg/controller/controller.go:141-202 | over any quiet stretch the number of writes equals what the gap lost |
| ReconcilerConvergence.SeenServicesBound | pkg/controller/controller.go:141-202 | nothing the controller can still see or holds asks for children outside the keys of services ever seen, so the bound on writes applies from every reachable state |
| ReconcilerConvergence.ReconcilingConverges | pkg/controller/controller.go:141-202 | in every state, however stale the caches, a worker step leaves the API server as it is or adds one child, and the number of missing required children then goes down by one exactly if that child is required now |
| ReconcilerCompletion.ReachingIsCatchingUp | pkg/controller/controller.go:141-202 | once outside writers have stopped and all three caches have reached their last write, the caches show the current services and no deleted child, and every job that begins from then on works on a current service |
| ReconcilerCompletion.ReconciledMeansComplete | pkg/controller/controller.go:141-202 | from then on, one error-free reconcile of every service leaves every Deployment in place, and a K8s Service for every service whose container has ports or that is a gateway, whatever older jobs still do |
| ReconcilerCompletion.CaughtUpStepsConverge | pkg/controller/controller.go:141-202 | and every step of a job begun since then strictly lowers the number of missing required children or leaves the API server as it is |
| ReconcilerPhantoms.SuccessIsCompleteIff | pkg/controller/controller.go:159-202 | a reconcile that succeeds leaves its service complete if and only if no cache showed a child that was missing |
| ReconcilerPhantoms.SoloSuccessIsCompleteIff | pkg/controller/controller.go:159-202 | the same for the states a worker left alone goes through |
| ReconcilerPhantoms.StaleCacheSkipsCreation | pkg/controller/controller.go:173-185 | with no failing call, the whole reconcile ends with a missing Deployment created if and only if the cache did not show it |
| ReconcilerPhantoms.InterleavedSuccessIsCompleteIff | pkg/controller/controller.go:141-202 | whatever the other workers do in between: a job that reports success has left its service complete if and only if neither of its two listings showed a child that was gone just then |
| ReconcilerPhantomRuns.DeploymentCacheMustReach | pkg/controller/controller.go:173-185 | for every service a run from the first state on in which only the Deployment cache lags, the service is reconciled without error, and its Deployment is missing in the end |
| ReconcilerPhantomRuns.K8sServiceCacheMustReach | pkg/controller/controller.go:190-200 | the same for the K8s Service cache and the K8s Service |
| ReconcilerPhantomRuns.ServiceCacheMustReach | pkg/controller/controller.go:148-168 | the same for the service cache: a service that has just come to ask for a K8s Service does not get one |
| SoloReconcile.SameK8sReconcile | pkg/controller/controller.go:159-168 | the Deployment builder's write to the service does not reach the K8s Service |
| SoloReconcile.ReconcileDecides | pkg/controller/controller.go:159-202 | exactly when a reconcile succeeds and what it stores, from what is cached, what is there and which calls fail: the Deployment first, then a K8s Service if the container has ports or there is a gateway |
| SoloReconcile.FreshServiceGetsChildren | pkg/controller/controller.go:141-169 | with no failing call a service without children gets a Deployment, and a K8s Service if and only if its container has ports or it is a gateway |
| SoloReconcile.NothingToReconcile | pkg/controller/controller.go:143-155 | a malformed key and a service that is gone store nothing and are no errors; a failing lister is one |
| SoloReconcile.SoloRunComputes | pkg/controller/controller.go:141-169 | a worker that runs alone computes the reconcile function: same children, same success, for every failure of every call |
| ServiceObjects.CopyMap | pkg/apis/mesh/v1alpha1/zz_generated.deepcopy.go:189-197 | walking the map in any order makes a fresh map with the same entries |
| ServiceObjects.CopySlice | pkg/apis/mesh/v1alpha1/zz_generated.deepcopy.go:166-175 | a fresh slice with the same elements; nil stays nil and empty stays empty |
| ServiceObjects.ServiceObject.DeepCopy | pkg/apis/mesh/v1alpha1/zz_generated.deepcopy.go:224-294 | an equal value whose own cells are all fresh while the Gateway pointer is shared |
| ServiceObjects.ImageShowsFields | pkg/apis/mesh/v1alpha1/service_types.go:33-63 | the value compared before and after a copy shows every field, nil kept apart from empty |
| ServiceObjects.ValueShowsFields | pkg/apis/mesh/v1alpha1/service_types.go:33-63 | the value the builders see shows every field, with nil read as empty |
| ServiceObjects.CopyAndScribble | pkg/apis/mesh/v1alpha1/zz_generated.deepcopy.go:224-294 | whatever code does that may write to every own cell of a deep copy, the original keeps its value, gateway included |
| ServiceObjects.CopyAndWriteGateway | pkg/apis/mesh/v1alpha1/zz_generated.deepcopy.go:285-294 | the gateway is the exception: what is written through the copy's pointer shows in the original |
| ConfigurationObjects.CopyHttps | pkg/apis/mesh/v1alpha1/zz_generated.deepcopy.go:144-176 | fresh entries and domain slices, equal values, nil kept |
| ConfigurationObjects.CopyFilters | pkg/apis/mesh/v1alpha1/zz_generated.deepcopy.go:144-156 | the same one level up |
| ConfigurationObjects.CopyRules | pkg/apis/mesh/v1alpha1/zz_generated.deepcopy.go:105-115 | every rule copied: all cells fresh, all values equal to those before the copy |
| ConfigurationObjects.ConfigurationObject.DeepCopy | pkg/apis/mesh/v1alpha1/zz_generated.deepcopy.go:44-61 | an equal Configuration, nil and empty kept apart, none of whose cells existed before |
| ConfigurationObjects.ImageShowsFields | pkg/apis/mesh/v1alpha1/configuration_types.go:28-66 | the value compared before and after a copy shows every field of the object, and its list of rules one by one |
| ConfigurationObjects.RuleImageShows | pkg/apis/mesh/v1alpha1/configuration_types.go:40-44 | so does the value of a rule, and of its list of filters |
| ConfigurationObjects.FilterImageShows | pkg/apis/mesh/v1alpha1/configuration_types.go:46-50 | so does the value of a filter, and of its list of HTTP entries |
| ConfigurationObjects.HttpImageShows | pkg/apis/mesh/v1alpha1/configuration_types.go:52-55 | so does the value of an HTTP entry, down to the domains |
| ConfigurationObjects.CopyAndScribble | pkg/apis/mesh/v1alpha1/zz_generated.deepcopy.go:44-61 | whatever code does that may write to every cell of a deep copy, at any depth, the original keeps its value and its cells |
| Controller.CreateLabelMap | pkg/controller/meta.go:18-25 | the loop over the user's labels, in any order, makes a fresh map in which they win |
| Controller.CreateServiceDeployment | pkg/controller/resource.go:12-119 | the Deployment the value builder specifies; of the service only the container's name changes, and only if it was empty |
| Controller.Ports | pkg/apis/mesh/v1alpha1/service_types.go:65-71 | the container's ports in order |
| Controller.CreateServicePorts | pkg/controller/resource.go:126-142 | one named port per port, in order |
| Controller.CreateServiceK8sService | pkg/controller/resource.go:121-159 | the K8s Service the value builder specifies, made of fresh cells |
| Controller.ServiceController.Enqueue | pkg/controller/controller.go:74-82 | adds exactly the object's key |
| Controller.ServiceController.ReconcileDeployment | pkg/controller/controller.go:171-186 | stores and returns what the function says; writes only the container of the copy |
| Controller.ServiceController.ReconcileK8sService | pkg/controller/controller.go:188-202 | stores and returns what the function says |
| Controller.ServiceController.Reconcile | pkg/controller/controller.go:141-169 | a whole reconcile stores and returns what the function says, writes to nothing but the API server, and shows it only fresh cells |
| Controller.ServiceController.ReconcileIsolated | pkg/controller/controller.go:148-167 | every service object that existed before keeps its value, Gateway included, and none of its cells reaches the API server |
| Controller.ServiceController.ProcessNextWorkItem | pkg/controller/controller.go:89-139 | one Get, one reconcile, Forget exactly on success, and Done on every path |
| InformerFactory.HistoryDecides | pkg/client/informers/externalversions/factory.go:92-166 | after any sequence of calls a type is registered if and only if it was requested, and started if and only if a Start came after a request for it |
| InformerFactory.FirstRequestDecides | pkg/client/informers/externalversions/factory.go:147-166 | the informer kept is the one the first request made, with the custom resync period of its type or else the default one |
| InformerFactory.SameInformer | pkg/client/informers/externalversions/factory.go:147-166 | any two requests for a type return the same informer |
| InformerFactory.StartKeepsSound | pkg/client/informers/externalversions/factory.go:111-121 | after Start no registered type is left waiting, and launches stay one per started type |
| InformerFactory.LaunchedOnce | pkg/client/informers/externalversions/factory.go:111-121 | in any history exactly the started types have been launched, each once, with the informer that is handed out for it |
| InformerFactory.WaitReportsStarted | pkg/client/informers/externalversions/factory.go:124-143 | waiting reports exactly the types some Start has covered |
| InformerFactory.SharedInformerFactory.InformerFor | pkg/client/informers/externalversions/factory.go:147-166 | the method on the tables is the specified step and returns the kept informer |
| InformerFactory.SharedInformerFactory.Start | pkg/client/informers/externalversions/factory.go:111-121 | the same, in whatever order the map is walked |
| InformerFactory.SharedInformerFactory.WaitForCacheSync | pkg/client/informers/externalversions/factory.go:124-143 | the same for the reported map |
| InformerFactory.SharedInformerFactory.WithCustomResyncConfig | pkg/client/informers/externalversions/factory.go:53-60 | each configured type gets the period of some object of that type, all other entries stay |

## Left out

- `MessageToStruct` and jsonpb: the embedding of filter configurations is taken as an identity that succeeds.
- gRPC serving, the snapshot cache's watches and `Start` of the server: a snapshot is what is stored under the node's key.
- Other matching criteria of listeners and routes, TLS, endpoints: the control plane never emits them. A proxy that rejects a snapshot is modelled as not loading it; keeping an earlier accepted one is not.
- Rules with equal filter ports: the documented API gives such listeners no meaning, so they count as not loadable.
- Case folding and port suffixes of host names: hosts are compared as they are.
- Label syntax: selectors are map inclusion, as for valid label values; the fallback of `SelectorFromSet` for invalid ones is not modelled.
- `resourceVersion` is a number so that versions can be compared; the code only copies it.
- PublishRuns.SnapshotProvenance: writing the snapshots of one rule is one step, so informer events fall between rules and not between two pods of one rule.
- PublishRuns.VersionsNeverGoBack: assumes that the informer never replaces a stored version by an older one; the code relies on it too.
- ReconcilerAccounting.NotifiedIsTakenAgain: states that the key stays due until some worker takes it; that a worker is eventually scheduled is a matter of the Go scheduler and is not stated.
- ReconcilerCompletion.ReconciledMeansComplete: convergence is stated by a measure and by error-free reconciles having happened, not as "eventually".
- WorkQueue.Queue.Get: blocking is modelled as the caller knowing that something can be returned.
- The rate limiter, back-off and clocks: `Forget` is recorded and has no other effect; a resync is an event that may come at any time.
- Items of the queue that are not strings: `enqueue` is the only producer and adds strings.
- Pod-spec literals (init container, environment, annotations, security context) and container fields other than name, image, arguments and ports.
- Label keys of ObjectMeta other than the label map, and the object kinds and UIDs of owner references.
- ServiceObjects.ServiceObject.DeepCopy: of ObjectMeta only the label map is a nested cell.
- ConfigurationObjects.ConfigurationObject.DeepCopy: likewise.
- `ConfigurationList` and `ServiceList` copies: a loop over the copies proved here.
- Options other than `WithCustomResyncConfig`, and the generated clientset, scheme and per-type informers: thin wrappers.
- `main` functions, flags, signals, process launching, template rendering.
