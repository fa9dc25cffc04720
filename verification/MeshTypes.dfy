/** The API objects of the mesh as values: configurations, services and the pods and labels
    they refer to. Nil slices and maps are empty here; ServiceObjects and ConfigurationObjects keep
    them apart. */
module MeshTypes {

  datatype Option<+T> = None | Some(value: T)

  type uint32 = n: nat | n < 0x1_0000_0000
  type int32 = n: int | -0x8000_0000 <= n < 0x8000_0000

  type Labels = map<string, string>

  // ---- Configuration ----

  datatype Http = Http(domains: seq<string>, cluster: string)

  datatype Tcp = Tcp(cluster: string)

  datatype Filter = Filter(port: uint32, http: seq<Http>, tcp: Tcp)

  datatype Cluster = Cluster(name: string, host: string, port: uint32)

  datatype Rule = Rule(matchLabels: Labels, filters: seq<Filter>, clusters: seq<Cluster>)

  /** `resourceVersion` is a number here: newer versions are larger. */
  datatype Configuration = Configuration(
    namespace: string, name: string, resourceVersion: nat, rules: seq<Rule>)

  // ---- Service ----

  datatype Container = Container(name: string, image: string, args: seq<string>, ports: seq<int32>)

  datatype Envoy = Envoy(logLevel: string, discoveryAddress: string, discoveryPort: string)

  datatype Gateway = Gateway(ports: seq<int32>)

  datatype ServiceSpec = ServiceSpec(
    replicas: Option<int32>, gateway: Option<Gateway>, container: Container, envoy: Envoy)

  datatype Service = Service(namespace: string, name: string, labels: Labels, spec: ServiceSpec)

  // ---- Pods and selectors ----

  datatype Pod = Pod(namespace: string, name: string, labels: Labels)

  /** `labels.SelectorFromSet(want).Matches(have)` for valid label values: map inclusion.
      The empty selector matches everything. */
  predicate Selects(want: Labels, have: Labels) {
    forall k :: k in want ==> k in have && have[k] == want[k]
  }
}
