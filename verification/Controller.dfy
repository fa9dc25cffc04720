/** The controller's own code, step by step over heap objects: it may only touch what it created. */
module Controller {
  import opened MeshTypes
  import opened Builders
  import opened Keys
  import opened WorkQueue
  import opened Reconciler
  import opened SoloReconcile
  import opened ServiceObjects

  // ---- Objects handed to the API server ----

  class DeploymentObject {
    const namespace: string
    const name: string
    const labels: StringMap
    const owner: OwnerReference
    const replicas: Int32Box?
    const selector: StringMap
    const templateLabels: StringMap
    const containers: seq<ContainerStruct>

    constructor (namespace: string, name: string, labels: StringMap, owner: OwnerReference, replicas: Int32Box?,
                 selector: StringMap, templateLabels: StringMap, containers: seq<ContainerStruct>)
      ensures this.namespace == namespace && this.name == name && this.labels == labels && this.owner == owner
      ensures this.replicas == replicas && this.selector == selector && this.templateLabels == templateLabels
      ensures this.containers == containers
    {
      this.namespace, this.name, this.labels, this.owner := namespace, name, labels, owner;
      this.replicas, this.selector, this.templateLabels := replicas, selector, templateLabels;
      this.containers := containers;
    }

    function Cells(): set<object> {
      {this, labels, selector, templateLabels} + Cell(replicas) + SeqCells(containers)
    }

    function Value(): Deployment
      reads Cells()
    {
      Deployment(namespace, name, labels.entries, owner, BoxImage(replicas), selector.entries, templateLabels.entries,
                 ContainerValues(containers))
    }
  }

  function SeqCells(cs: seq<ContainerStruct>): set<object> {
    (set i | 0 <= i < |cs| && cs[i].args != null :: cs[i].args as object)
    + (set i | 0 <= i < |cs| && cs[i].ports != null :: cs[i].ports as object)
  }

  function ContainerValues(cs: seq<ContainerStruct>): (values: seq<Container>)
    reads SeqCells(cs)
    ensures |values| == |cs|
  {
    seq(|cs|, i requires 0 <= i < |cs| reads SeqCells(cs) =>
      assert ContainerCells(cs[i]) <= SeqCells(cs);
      ContainerValue(ContainerImageOf(cs[i])))
  }

  class K8sServiceObject {
    const namespace: string
    const name: string
    const labels: StringMap
    const owner: OwnerReference
    const ports: array<ServicePort>
    const selector: StringMap

    constructor (namespace: string, name: string, labels: StringMap, owner: OwnerReference,
                 ports: array<ServicePort>, selector: StringMap)
      ensures this.namespace == namespace && this.name == name && this.labels == labels && this.owner == owner
      ensures this.ports == ports && this.selector == selector
    {
      this.namespace, this.name, this.labels, this.owner := namespace, name, labels, owner;
      this.ports, this.selector := ports, selector;
    }

    function Cells(): set<object> { {this, labels, ports, selector} }

    function Value(): K8sService
      reads Cells()
    {
      K8sService(namespace, name, labels.entries, owner, ports[..], selector.entries)
    }
  }

  /** The API server is remote: it keeps values. The cells it was shown are recorded. */
  class ApiClient {
    var deployments: map<string, Deployment>
    var k8sServices: map<string, K8sService>
    ghost var shown: set<object>

    constructor ()
      ensures Stored() == Children(map[], map[]) && shown == {}
    {
      deployments, k8sServices, shown := map[], map[], {};
    }

    function Stored(): Children
      reads this
    {
      Children(deployments, k8sServices)
    }

    method CreateDeployment(d: DeploymentObject, fault: Fault) returns (ok: bool)
      modifies this
      ensures Result(Stored(), ok) == SoloReconcile.CreateDeployment(old(Stored()), old(d.Value()), fault)
      ensures shown == old(shown) + d.Cells()
    {
      var key := MetaNamespaceKey(d.namespace, d.name);
      ok := Succeeds(key in deployments, fault);
      if Stores(key in deployments, fault) {
        deployments := deployments[key := d.Value()];
      }
      shown := shown + d.Cells();
    }

    method CreateK8sService(k: K8sServiceObject, fault: Fault) returns (ok: bool)
      modifies this
      ensures Result(Stored(), ok) == SoloReconcile.CreateK8sService(old(Stored()), old(k.Value()), fault)
      ensures shown == old(shown) + k.Cells()
    {
      var key := MetaNamespaceKey(k.namespace, k.name);
      ok := Succeeds(key in k8sServices, fault);
      if Stores(key in k8sServices, fault) {
        k8sServices := k8sServices[key := k.Value()];
      }
      shown := shown + k.Cells();
    }
  }

  // ---- Builders ----

  method CreateLabelMap(service: ServiceObject, ghost v: Service) returns (m: StringMap)
    requires service.Value() == v
    ensures fresh(m) && m.entries == CreateLabels(v) && service.Value() == v
  {
    m := new StringMap(map["app" := service.name]);
    if service.labels != null {
      var from := service.labels;
      var left := from.entries.Keys;
      while left != {}
        invariant left <= from.entries.Keys
        invariant m.entries == map["app" := service.name] + (map k | k in from.entries && k !in left :: from.entries[k])
        decreases left
      {
        var k :| k in left;
        left := left - {k};
        m.entries := m.entries[k := from.entries[k]];
      }
    }
  }

  method CreateProxyContainer(service: ServiceObject) returns (c: ContainerStruct)
    ensures fresh(ContainerCells(c))
    ensures ContainerValue(ContainerImageOf(c)) == ProxyContainer(service.Value())
  {
    var v := service.Value();
    var args := new string[14] [
      "--bootstrapTemplate", "/etc/conf/envoy-bootstrap-template.yaml",
      "--bootstrapConfig", "/etc/conf/envoy-bootstrap.yaml",
      "--envoyBinary", "/usr/local/bin/envoy",
      "--logLevel", EnvoyLogLevel(v),
      "--serviceCluster", service.name,
      "--discoveryAddress", EnvoyDiscoveryAddress(v),
      "--discoveryPort", EnvoyDiscoveryPort(v)];
    c := ContainerStruct("envoy-proxy", "mirage20/lite-mesh-envoy-bootstrap", args, null);
    assert args[..] == ProxyContainer(v).args;
  }

  /** The proxy, and the user's container unless the service is a gateway. */
  method CreateContainers(service: ServiceObject, ghost v: Service) returns (containers: seq<ContainerStruct>)
    requires service.Value() == v && NameContainer(v) == v
    ensures ContainerValues(containers) == Containers(v) && service.Value() == v
    ensures fresh(SeqCells(containers) - ContainerCells(service.container))
  {
    var proxy := CreateProxyContainer(service);
    containers := [proxy];
    if service.gateway == null {
      containers := containers + [service.container];
    }
  }

  /** Builds the Deployment and, on the way, gives an unnamed container the service's name. */
  method CreateServiceDeployment(service: ServiceObject, ghost v: Service) returns (d: DeploymentObject)
    requires service.Value() == v
    modifies service`container
    ensures d.Value() == BuildDeployment(v)
    ensures service.Value() == NameContainer(v)
    ensures service.OwnCells() == old(service.OwnCells())
    ensures fresh(d.Cells() - Cell(service.replicas) - ContainerCells(service.container))
  {
    if |service.container.name| == 0 {
      service.container := service.container.(name := service.name);
    }
    assert service.Value() == NameContainer(v);
    NameContainerInvisible(v);
    d := AssembleDeployment(service, NameContainer(v));
  }

  lemma DeploymentValue(d: DeploymentObject, v: Service)
    requires d.namespace == v.namespace && d.name == DeploymentName(v) && d.owner == CreateServiceOwnerRef(v)
    requires d.labels.entries == d.selector.entries == d.templateLabels.entries == CreateLabels(v)
    requires BoxImage(d.replicas) == v.spec.replicas
    requires ContainerValues(d.containers) == Containers(v)
    ensures d.Value() == BuildDeployment(v)
  {
  }

  method AssembleDeployment(service: ServiceObject, ghost v: Service) returns (d: DeploymentObject)
    requires service.Value() == v && NameContainer(v) == v
    ensures d.Value() == BuildDeployment(v) && service.Value() == v
    ensures fresh(d.Cells() - Cell(service.replicas) - ContainerCells(service.container))
  {
    hide Containers, ContainerValue, ContainerValues, CreateLabels, NameContainer, BuildDeployment;
    var labels := CreateLabelMap(service, v);
    var selector := CreateLabelMap(service, v);
    var templateLabels := CreateLabelMap(service, v);
    var owner := CreateServiceOwnerRef(service.Value());
    var containers := CreateContainers(service, v);
    d := new DeploymentObject(service.namespace, service.name, labels, owner, service.replicas,
                              selector, templateLabels, containers);
    DeploymentValue(d, v);
  }

  /** `service.Spec.Ports()` */
  method Ports(container: ContainerStruct) returns (ports: seq<int32>)
    ensures ports == ContainerValue(ContainerImageOf(container)).ports
  {
    ports := [];
    if container.ports != null {
      for i := 0 to container.ports.Length
        invariant ports == container.ports[..i]
      {
        ports := ports + [container.ports[i]];
      }
    }
  }

  method CreateServicePorts(ports: seq<int32>) returns (servicePorts: seq<ServicePort>)
    ensures servicePorts == ServicePorts(ports)
  {
    servicePorts := [];
    for i := 0 to |ports|
      invariant servicePorts == ServicePorts(ports[..i])
    {
      servicePorts := servicePorts + [ServicePortFor(ports[i])];
    }
    assert ports[..|ports|] == ports;
  }

  method CreateServiceK8sService(service: ServiceObject) returns (k: K8sServiceObject)
    ensures k.Value() == BuildK8sService(service.Value())
    ensures fresh(k.Cells())
  {
    var v := service.Value();
    var servicePorts: seq<ServicePort>;
    if service.gateway != null {
      var ports := if service.gateway.ports == null then [] else service.gateway.ports[..];
      servicePorts := CreateServicePorts(ports);
    } else {
      var ports := Ports(service.container);
      servicePorts := CreateServicePorts(ports);
    }
    var labels := CreateLabelMap(service, v);
    var selector := CreateLabelMap(service, v);
    var portArray := new ServicePort[|servicePorts|](i requires 0 <= i < |servicePorts| => servicePorts[i]);
    assert portArray[..] == servicePorts;
    k := new K8sServiceObject(service.namespace, K8sServiceName(v), labels, CreateServiceOwnerRef(v), portArray, selector);
  }

  // ---- Reconcile ----

  lemma ClientIsNoCell(client: ApiClient, s: ServiceObject)
    ensures client as object !in s.OwnCells() + s.GatewayCells() && client as object != s
  {
  }

  class ServiceController {
    const client: ApiClient
    const workqueue: Queue
    /** The informer caches behind the three listers. */
    var serviceCache: map<string, ServiceObject>
    var deploymentCache: set<string>
    var k8sServiceCache: set<string>
    /** Items the rate limiter was told to forget. */
    var forgotten: seq<string>

    constructor (client: ApiClient, workqueue: Queue)
      ensures this.client == client && this.workqueue == workqueue
      ensures serviceCache == map[] && deploymentCache == {} && k8sServiceCache == {} && forgotten == []
    {
      this.client, this.workqueue := client, workqueue;
      serviceCache, deploymentCache, k8sServiceCache, forgotten := map[], {}, {}, [];
    }

    method Enqueue(obj: ServiceObject)
      requires workqueue.Valid()
      modifies workqueue
      ensures workqueue.Valid()
      ensures workqueue.View() == Added(old(workqueue.View()), MetaNamespaceKey(obj.namespace, obj.name))
    {
      workqueue.Add(MetaNamespaceKey(obj.namespace, obj.name));
    }

    /** `Create(CreateServiceDeployment(service))` */
    method SubmitDeployment(service: ServiceObject, ghost v: Service, fault: Fault) returns (ok: bool)
      requires service.Value() == v && client as object != service
      modifies service`container, client
      ensures Result(client.Stored(), ok) == SoloReconcile.CreateDeployment(old(client.Stored()), BuildDeployment(v), fault)
      ensures service.Value() == NameContainer(v)
      ensures service.OwnCells() == old(service.OwnCells())
      ensures fresh(client.shown - old(client.shown) - old(service.OwnCells() - {service}))
    {
      hide BuildDeployment, NameContainer, SoloReconcile.CreateDeployment, ServiceValue, ContainerImageOf, MapImage, BoxImage,
        SliceImage;
      var d := CreateServiceDeployment(service, v);
      ok := client.CreateDeployment(d, fault);
    }

    /** The copy may be written to, the lister's object may not. */
    method ReconcileDeployment(service: ServiceObject, ghost v: Service, ghost caches: Caches, faults: Faults)
      returns (ok: bool)
      requires service.Value() == v && caches.deployments == deploymentCache
      requires client as object != service
      modifies service`container, client
      ensures Result(client.Stored(), ok) == SoloReconcile.ReconcileDeployment(old(client.Stored()), caches, v, faults)
      ensures service.Value() == v || service.Value() == NameContainer(v)
      ensures service.OwnCells() == old(service.OwnCells())
      ensures fresh(client.shown - old(client.shown) - old(service.OwnCells() - {service}))
    {
      hide BuildDeployment, NameContainer, SoloReconcile.CreateDeployment;
      if faults.listDeployment.ListerFails? {
        return false;
      }
      if ListerKey(service.namespace, service.name) in deploymentCache {
        return true;
      }
      ok := SubmitDeployment(service, v, faults.createDeployment);
    }

    method ReconcileK8sService(service: ServiceObject, ghost v: Service, ghost caches: Caches, faults: Faults)
      returns (ok: bool)
      requires service.Value() == v && caches.k8sServices == k8sServiceCache
      requires client as object != service
      modifies client
      ensures Result(client.Stored(), ok) == SoloReconcile.ReconcileK8sService(old(client.Stored()), caches, v, faults)
      ensures fresh(client.shown - old(client.shown))
    {
      if faults.listK8sService.ListerFails? {
        return false;
      }
      if ListerKey(service.namespace, service.name) in k8sServiceCache {
        return true;
      }
      var k := CreateServiceK8sService(service);
      ok := client.CreateK8sService(k, faults.createK8sService);
    }

    /** A whole reconcile: what it stores and whether it succeeds is the function of SoloReconcile, it
        writes to nothing but the API server, and it shows the API server only cells it made itself. */
    method Reconcile(key: string, ghost caches: Caches, faults: Faults) returns (ok: bool)
      requires caches.services.Keys == serviceCache.Keys
      requires forall k :: k in serviceCache ==> caches.services[k] == serviceCache[k].Value()
      requires caches.deployments == deploymentCache && caches.k8sServices == k8sServiceCache
      modifies client
      ensures Result(client.Stored(), ok) == SoloReconcile.Reconcile(old(client.Stored()), caches, key, faults)
      ensures fresh(client.shown - old(client.shown))
    {
      hide SplitMetaNamespaceKey, ListerKey, SoloReconcile.ReconcileService, ServiceValue;
      var split := SplitMetaNamespaceKey(key);
      if split.None? {
        return true;
      }
      if faults.service.ListerFails? {
        return false;
      }
      var lookup := ListerKey(split.value.0, split.value.1);
      if lookup !in serviceCache {
        return true;
      }
      var serviceOriginal := serviceCache[lookup];
      ghost var v := serviceOriginal.Value();
      var service := serviceOriginal.DeepCopy();
      ok := ReconcileService(service, v, caches, faults);
    }

    /** So nothing that can be reached from the lister's objects, or from any service object that
        existed before, changes or is shown to the API server. */
    method ReconcileIsolated(key: string, ghost caches: Caches, faults: Faults, ghost existing: ServiceObject)
      returns (ok: bool)
      requires caches.services.Keys == serviceCache.Keys
      requires forall k :: k in serviceCache ==> caches.services[k] == serviceCache[k].Value()
      requires caches.deployments == deploymentCache && caches.k8sServices == k8sServiceCache
      modifies client
      ensures Result(client.Stored(), ok) == SoloReconcile.Reconcile(old(client.Stored()), caches, key, faults)
      ensures existing.Image() == old(existing.Image())
      ensures (existing.OwnCells() + existing.GatewayCells()) * (client.shown - old(client.shown)) == {}
    {
      hide SoloReconcile.Reconcile, MapImage, BoxImage, SliceImage, ContainerImageOf, ServiceValue;
      ClientIsNoCell(client, existing);
      ok := Reconcile(key, caches, faults);
    }

    method ReconcileService(service: ServiceObject, ghost v: Service, ghost caches: Caches, faults: Faults)
      returns (ok: bool)
      requires service.Value() == v && client as object != service
      requires caches.deployments == deploymentCache && caches.k8sServices == k8sServiceCache
      modifies service`container, client
      ensures Result(client.Stored(), ok) == SoloReconcile.ReconcileService(old(client.Stored()), caches, v, faults)
      ensures fresh(client.shown - old(client.shown) - old(service.OwnCells() - {service}))
    {
      hide BuildDeployment, BuildK8sService, NameContainer, SoloReconcile.ReconcileDeployment, SoloReconcile.ReconcileK8sService;
      NameContainerInvisible(v);
      ok := ReconcileDeployment(service, v, caches, faults);
      if !ok {
        return;
      }
      var ports := Ports(service.container);
      if |ports| > 0 || service.gateway != null {
        SameK8sReconcile(client.Stored(), caches, v, faults);
        ok := ReconcileK8sService(service, service.Value(), caches, faults);
      }
    }

    /** One turn of a worker's loop; false means the queue told it to stop. */
    method ProcessNextWorkItem(ghost caches: Caches, faults: Faults) returns (more: bool)
      requires workqueue.Valid() && CanGet(workqueue.View())
      requires caches.services.Keys == serviceCache.Keys
      requires forall k :: k in serviceCache ==> caches.services[k] == serviceCache[k].Value()
      requires caches.deployments == deploymentCache && caches.k8sServices == k8sServiceCache
      modifies workqueue, client, this`forgotten
      ensures workqueue.Valid() && more == !MustStop(old(workqueue.View()))
      ensures !more ==> workqueue.View() == old(workqueue.View()) && client.Stored() == old(client.Stored())
                        && forgotten == old(forgotten)
      ensures more ==>
                var item := old(workqueue.queue)[0];
                var r := SoloReconcile.Reconcile(old(client.Stored()), caches, item, faults);
                && workqueue.View() == Released(Taken(old(workqueue.View())), item)
                && client.Stored() == r.children
                && forgotten == old(forgotten) + if r.ok then [item] else []
      ensures fresh(client.shown - old(client.shown))
    {
      var item, shutdown := workqueue.Get();
      if shutdown {
        return false;
      }
      hide SoloReconcile.Reconcile, Taken, Released, WellFormed;
      var ok := Reconcile(item, caches, faults);
      if ok {
        forgotten := forgotten + [item];
      }
      workqueue.Done(item);
      more := true;
    }
  }
}
