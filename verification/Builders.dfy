/** What the controller creates for a service: a Deployment and a Kubernetes Service, as values. */
module Builders {
  import opened MeshTypes
  import opened Text

  datatype OwnerReference = OwnerReference(group: string, version: string, kind: string, name: string)

  datatype Deployment = Deployment(
    namespace: string, name: string, labels: Labels, owner: OwnerReference,
    replicas: Option<int32>, selector: Labels, templateLabels: Labels, containers: seq<Container>)

  datatype ServicePort = ServicePort(name: string, protocol: string, port: int32, targetPort: int32)

  datatype K8sService = K8sService(
    namespace: string, name: string, labels: Labels, owner: OwnerReference,
    ports: seq<ServicePort>, selector: Labels)

  function DeploymentName(s: Service): string { s.name }

  function K8sServiceName(s: Service): string { s.name }

  /** User labels win, also on the key `app`. */
  function CreateLabels(s: Service): Labels {
    map["app" := s.name] + s.labels
  }

  function CreateServiceOwnerRef(s: Service): OwnerReference {
    OwnerReference("mesh.lite.io", "v1alpha1", "Service", s.name)
  }

  function OrDefault(value: string, default: string): string {
    if |value| > 0 then value else default
  }

  function EnvoyLogLevel(s: Service): string { OrDefault(s.spec.envoy.logLevel, "info") }

  function EnvoyDiscoveryAddress(s: Service): string { OrDefault(s.spec.envoy.discoveryAddress, "10.100.5.46") }

  function EnvoyDiscoveryPort(s: Service): string { OrDefault(s.spec.envoy.discoveryPort, "9000") }

  function ProxyContainer(s: Service): Container {
    Container("envoy-proxy", "mirage20/lite-mesh-envoy-bootstrap",
              ["--bootstrapTemplate", "/etc/conf/envoy-bootstrap-template.yaml",
               "--bootstrapConfig", "/etc/conf/envoy-bootstrap.yaml",
               "--envoyBinary", "/usr/local/bin/envoy",
               "--logLevel", EnvoyLogLevel(s),
               "--serviceCluster", s.name,
               "--discoveryAddress", EnvoyDiscoveryAddress(s),
               "--discoveryPort", EnvoyDiscoveryPort(s)],
              [])
  }

  /** The write to `Container.Name` that building a Deployment leaves behind. */
  function NameContainer(s: Service): Service {
    s.(spec := s.spec.(container := s.spec.container.(name := OrDefault(s.spec.container.name, s.name))))
  }

  /** The proxy, and the user's container unless the service is a gateway. */
  function Containers(s: Service): seq<Container> {
    [ProxyContainer(s)] + if s.spec.gateway.None? then [NameContainer(s).spec.container] else []
  }

  function BuildDeployment(s: Service): Deployment {
    Deployment(s.namespace, DeploymentName(s), CreateLabels(s), CreateServiceOwnerRef(s),
               s.spec.replicas, CreateLabels(s), CreateLabels(s),
               Containers(s))
  }

  function ServicePortFor(p: int32): ServicePort {
    ServicePort("tcp-" + FormatInt(p), "TCP", p, p)
  }

  function ServicePorts(ports: seq<int32>): seq<ServicePort> {
    seq(|ports|, i requires 0 <= i < |ports| => ServicePortFor(ports[i]))
  }

  /** A gateway exposes its own ports, any other service its container's. */
  function ExposedPorts(s: Service): seq<int32> {
    if s.spec.gateway.Some? then s.spec.gateway.value.ports else s.spec.container.ports
  }

  function BuildK8sService(s: Service): K8sService {
    K8sService(s.namespace, K8sServiceName(s), CreateLabels(s), CreateServiceOwnerRef(s),
               ServicePorts(ExposedPorts(s)), CreateLabels(s))
  }

  /** `len(service.Spec.Ports()) > 0 || service.Spec.Gateway != nil` */
  predicate NeedsK8sService(s: Service) {
    |s.spec.container.ports| > 0 || s.spec.gateway.Some?
  }

  // ---- Properties of what is built ----

  /** The in-place write is invisible to everything built afterwards. */
  lemma NameContainerInvisible(s: Service)
    ensures BuildDeployment(NameContainer(s)) == BuildDeployment(s)
    ensures BuildK8sService(NameContainer(s)) == BuildK8sService(s)
    ensures NeedsK8sService(NameContainer(s)) <==> NeedsK8sService(s)
    ensures NameContainer(NameContainer(s)) == NameContainer(s)
  {
    assert ProxyContainer(NameContainer(s)) == ProxyContainer(s);
  }

  /** Whether the workload selector of `a` selects the pods of `b`. */
  predicate SelectsPodsOf(a: Service, b: Service) {
    Selects(BuildDeployment(a).selector, BuildDeployment(b).templateLabels)
  }

  /** Deployment and K8s Service agree on which pods they mean, and mean their own. */
  lemma SelectorsCoherent(s: Service)
    ensures BuildDeployment(s).selector == BuildDeployment(s).templateLabels == BuildK8sService(s).selector
    ensures SelectsPodsOf(s, s)
    ensures BuildDeployment(s).selector["app"] == if "app" in s.labels then s.labels["app"] else s.name
    ensures forall k :: k in s.labels ==> k in BuildDeployment(s).selector && BuildDeployment(s).selector[k] == s.labels[k]
  {
  }

  /** The value of the label `app` on everything created for a service. */
  function AppOf(s: Service): string {
    if "app" in s.labels then s.labels["app"] else s.name
  }

  /** One service's selector reaches another's pods exactly if their `app` values agree and
      the other labels are included. */
  lemma CrossSelectionIff(a: Service, b: Service)
    ensures SelectsPodsOf(a, b) <==>
            AppOf(a) == AppOf(b) && forall k :: k in a.labels && k != "app" ==> k in b.labels && b.labels[k] == a.labels[k]
  {
    var want, have := CreateLabels(a), CreateLabels(b);
    assert want["app"] == AppOf(a) && have["app"] == AppOf(b);
    if SelectsPodsOf(a, b) {
      forall k | k in a.labels && k != "app" ensures k in b.labels && b.labels[k] == a.labels[k] {
        assert k in want && want[k] == a.labels[k];
      }
    }
  }

  /** So services with different names and no `app` label of their own never select each other's pods. */
  lemma DifferentNamesDoNotCross(a: Service, b: Service)
    requires a.name != b.name && "app" !in a.labels && "app" !in b.labels
    ensures !SelectsPodsOf(a, b) && !Selects(BuildK8sService(a).selector, BuildDeployment(b).templateLabels)
  {
    CrossSelectionIff(a, b);
  }

  /** A flag and the value that follows it; flags and values take turns. */
  predicate FlagAt(args: seq<string>, i: nat, flag: string, value: string) {
    i + 1 < |args| && i % 2 == 0 && args[i] == flag && args[i + 1] == value
  }

  predicate HasFlag(args: seq<string>, flag: string, value: string) {
    exists i :: 0 <= i < |args| && FlagAt(args, i, flag, value)
  }

  /** The proxy is told the service's name and where its control plane is, by the user or by default. */
  lemma ProxyArguments(s: Service)
    ensures var args, envoy := BuildDeployment(s).containers[0].args, s.spec.envoy;
            && HasFlag(args, "--bootstrapTemplate", "/etc/conf/envoy-bootstrap-template.yaml")
            && HasFlag(args, "--bootstrapConfig", "/etc/conf/envoy-bootstrap.yaml")
            && HasFlag(args, "--envoyBinary", "/usr/local/bin/envoy")
            && HasFlag(args, "--logLevel", if envoy.logLevel == "" then "info" else envoy.logLevel)
            && HasFlag(args, "--serviceCluster", s.name)
            && HasFlag(args, "--discoveryAddress", if envoy.discoveryAddress == "" then "10.100.5.46" else envoy.discoveryAddress)
            && HasFlag(args, "--discoveryPort", if envoy.discoveryPort == "" then "9000" else envoy.discoveryPort)
            && |args| == 14
  {
    var args := ProxyContainer(s).args;
    assert BuildDeployment(s).containers[0].args == args;
    assert FlagAt(args, 0, "--bootstrapTemplate", args[1]) && FlagAt(args, 2, "--bootstrapConfig", args[3]);
    assert FlagAt(args, 4, "--envoyBinary", args[5]) && FlagAt(args, 6, "--logLevel", args[7]);
    assert FlagAt(args, 8, "--serviceCluster", args[9]);
    assert FlagAt(args, 10, "--discoveryAddress", args[11]) && FlagAt(args, 12, "--discoveryPort", args[13]);
  }

  /** What a Deployment holds, in terms of the service alone: a gateway is a proxy and nothing else, any other
      service has the user's container beside it. */
  lemma DeploymentContents(s: Service)
    ensures var d, user := BuildDeployment(s), s.spec.container;
            && d.namespace == s.namespace && d.name == s.name && d.replicas == s.spec.replicas
            && d.labels == d.selector == d.templateLabels && d.labels.Keys == s.labels.Keys + {"app"}
            && |d.containers| == (if s.spec.gateway.Some? then 1 else 2)
            && d.containers[0].name == "envoy-proxy" && d.containers[0].image == "mirage20/lite-mesh-envoy-bootstrap"
            && d.containers[0].ports == []
            && (s.spec.gateway.None? ==>
                  && d.containers[1].image == user.image && d.containers[1].args == user.args
                  && d.containers[1].ports == user.ports
                  && d.containers[1].name == if user.name == "" then s.name else user.name)
  {
  }

  /** The owner of both children is the service, of the kind the API group defines. */
  lemma OwnedByService(s: Service)
    ensures var d, k := BuildDeployment(s).owner, BuildK8sService(s).owner;
            d == k && d.name == s.name && d.kind == "Service" && d.group == "mesh.lite.io" && d.version == "v1alpha1"
  {
  }

  /** What a K8s Service holds, in terms of the service alone: a gateway exposes its own ports, any other service
      its container's, in order. */
  lemma K8sServiceContents(s: Service)
    ensures var k := BuildK8sService(s);
            var ports := if s.spec.gateway.Some? then s.spec.gateway.value.ports else s.spec.container.ports;
            && k.namespace == s.namespace && k.name == s.name
            && k.labels == k.selector && k.selector.Keys == s.labels.Keys + {"app"}
            && |k.ports| == |ports|
            && forall i :: 0 <= i < |ports| ==>
                 && k.ports[i].port == ports[i] && k.ports[i].targetPort == ports[i]
                 && k.ports[i].protocol == "TCP" && k.ports[i].name == "tcp-" + FormatInt(ports[i])
  {
  }

  /** The K8s port list keeps order and count, and two entries share a name only for equal ports. */
  lemma PortNamesDistinct(s: Service, i: nat, j: nat)
    requires i < |BuildK8sService(s).ports| && j < |BuildK8sService(s).ports|
    ensures var ports := if s.spec.gateway.Some? then s.spec.gateway.value.ports else s.spec.container.ports;
            && |BuildK8sService(s).ports| == |ports|
            && BuildK8sService(s).ports[i].port == BuildK8sService(s).ports[i].targetPort == ports[i]
            && (BuildK8sService(s).ports[i].name == BuildK8sService(s).ports[j].name <==> ports[i] == ports[j])
  {
    var p, q := BuildK8sService(s).ports[i], BuildK8sService(s).ports[j];
    if p.name == q.name {
      assert p.name[4..] == FormatInt(p.port) && q.name[4..] == FormatInt(q.port);
      FormatIntInjective(p.port, q.port);
    }
  }
}
