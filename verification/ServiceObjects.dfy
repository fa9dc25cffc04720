/** Services as the heap objects the controller passes around: pointers, maps and slices may be nil
    and may be shared. Deep copy, and what writing to a copy can and cannot change. */
module ServiceObjects {
  import opened MeshTypes

  /** A Go map. */
  class StringMap {
    var entries: map<string, string>

    constructor (entries: map<string, string>)
      ensures this.entries == entries
    {
      this.entries := entries;
    }
  }

  /** A `*int32`. */
  class Int32Box {
    var value: int32

    constructor (value: int32)
      ensures this.value == value
    {
      this.value := value;
    }
  }

  class GatewayObject {
    var ports: array?<int32>

    constructor (ports: array?<int32>)
      ensures this.ports == ports
    {
      this.ports := ports;
    }
  }

  /** A struct value; copying it copies the slice headers only. */
  datatype ContainerStruct = ContainerStruct(name: string, image: string, args: array?<string>, ports: array?<int32>)

  // ---- Values behind the pointers, nil kept apart from empty ----

  datatype ContainerImage = ContainerImage(
    name: string, image: string, args: Option<seq<string>>, ports: Option<seq<int32>>)

  datatype ServiceImage = ServiceImage(
    namespace: string, name: string, labels: Option<Labels>, replicas: Option<int32>,
    gateway: Option<Option<seq<int32>>>, container: ContainerImage, envoy: Envoy)

  function SliceImage<T>(a: array?<T>): Option<seq<T>>
    reads a
  {
    if a == null then None else Some(a[..])
  }

  function MapImage(m: StringMap?): Option<Labels>
    reads m
  {
    if m == null then None else Some(m.entries)
  }

  function BoxImage(b: Int32Box?): Option<int32>
    reads b
  {
    if b == null then None else Some(b.value)
  }

  function ContainerImageOf(c: ContainerStruct): ContainerImage
    reads c.args, c.ports
  {
    ContainerImage(c.name, c.image, SliceImage(c.args), SliceImage(c.ports))
  }

  function Cell(o: object?): set<object> { if o == null then {} else {o} }

  function ContainerCells(c: ContainerStruct): set<object> { Cell(c.args) + Cell(c.ports) }

  function OrEmpty<T>(s: Option<seq<T>>): seq<T> { if s.Some? then s.value else [] }

  /** Nil and empty make no difference to the builders. */
  function ContainerValue(c: ContainerImage): Container {
    Container(c.name, c.image, OrEmpty(c.args), OrEmpty(c.ports))
  }

  function ServiceValue(s: ServiceImage): Service {
    Service(s.namespace, s.name, if s.labels.Some? then s.labels.value else map[],
            ServiceSpec(s.replicas,
                        if s.gateway.Some? then Some(Gateway(OrEmpty(s.gateway.value))) else None,
                        ContainerValue(s.container), s.envoy))
  }

  class ServiceObject {
    var namespace: string
    var name: string
    var labels: StringMap?
    var replicas: Int32Box?
    var gateway: GatewayObject?
    var container: ContainerStruct
    var envoy: Envoy

    constructor (namespace: string, name: string, labels: StringMap?, replicas: Int32Box?,
                 gateway: GatewayObject?, container: ContainerStruct, envoy: Envoy)
      ensures this.namespace == namespace && this.name == name && this.labels == labels
      ensures this.replicas == replicas && this.gateway == gateway
      ensures this.container == container && this.envoy == envoy
    {
      this.namespace, this.name, this.labels := namespace, name, labels;
      this.replicas, this.gateway := replicas, gateway;
      this.container, this.envoy := container, envoy;
    }

    /** The cells that belong to the object alone after a deep copy. */
    function OwnCells(): set<object>
      reads this
    {
      {this} + Cell(labels) + Cell(replicas) + ContainerCells(container)
    }

    /** The gateway and its ports, which a deep copy shares. */
    function GatewayCells(): set<object>
      reads this, gateway
    {
      if gateway == null then {} else {gateway} + Cell(gateway.ports)
    }

    function Image(): ServiceImage
      reads this, gateway, OwnCells(), GatewayCells()
    {
      ServiceImage(namespace, name, MapImage(labels), BoxImage(replicas),
                   if gateway == null then None else Some(SliceImage(gateway.ports)),
                   ContainerImageOf(container), envoy)
    }

    function Value(): Service
      reads this, gateway, OwnCells(), GatewayCells()
    {
      ServiceValue(Image())
    }

    /** `DeepCopyInto` on a new object. ServiceSpec's copy leaves the Gateway pointer as it is. */
    method DeepCopy() returns (out: ServiceObject)
      ensures fresh(out.OwnCells())
      ensures out.gateway == gateway
      ensures out.Image() == Image()
    {
      var labelsCopy: StringMap? := null;
      if labels != null {
        labelsCopy := CopyMap(labels);
      }
      var replicasCopy: Int32Box? := null;
      if replicas != null {
        replicasCopy := new Int32Box(replicas.value);
      }
      var containerCopy := CopyContainer(container);
      out := new ServiceObject(namespace, name, labelsCopy, replicasCopy, gateway, containerCopy, envoy);
    }
  }

  method CopyMap(m: StringMap) returns (out: StringMap)
    ensures fresh(out) && out.entries == m.entries
  {
    out := new StringMap(map[]);
    var left := m.entries.Keys;
    while left != {}
      invariant left <= m.entries.Keys
      invariant fresh(out)
      invariant out.entries == map k | k in m.entries && k !in left :: m.entries[k]
      decreases left
    {
      var k :| k in left;
      left := left - {k};
      out.entries := out.entries[k := m.entries[k]];
    }
  }

  method CopySlice<T>(a: array?<T>) returns (out: array?<T>)
    ensures out != null ==> fresh(out)
    ensures SliceImage(out) == SliceImage(a)
  {
    if a == null {
      out := null;
    } else {
      out := new T[a.Length](i requires 0 <= i < a.Length reads a => a[i]);
      assert out[..] == a[..];
    }
  }

  method CopyContainer(c: ContainerStruct) returns (out: ContainerStruct)
    ensures fresh(ContainerCells(out))
    ensures ContainerImageOf(out) == ContainerImageOf(c)
  {
    var args := CopySlice(c.args);
    var ports := CopySlice(c.ports);
    out := c.(args := args, ports := ports);
  }

  /** The image of a Service shows every field, nil kept apart from empty. */
  lemma ImageShowsFields(s: ServiceObject)
    ensures var image := s.Image();
            && image.namespace == s.namespace && image.name == s.name && image.envoy == s.envoy
            && (image.labels == None <==> s.labels == null) && (s.labels != null ==> image.labels == Some(s.labels.entries))
            && (image.replicas == None <==> s.replicas == null) && (s.replicas != null ==> image.replicas == Some(s.replicas.value))
            && (image.gateway == None <==> s.gateway == null)
            && (s.gateway != null ==> (image.gateway.value == None <==> s.gateway.ports == null))
            && (s.gateway != null && s.gateway.ports != null ==> image.gateway.value == Some(s.gateway.ports[..]))
            && image.container.name == s.container.name && image.container.image == s.container.image
            && (image.container.args == None <==> s.container.args == null)
            && (s.container.args != null ==> image.container.args == Some(s.container.args[..]))
            && (image.container.ports == None <==> s.container.ports == null)
            && (s.container.ports != null ==> image.container.ports == Some(s.container.ports[..]))
  {
  }

  /** The builders read the service from its fields; a nil slice or map is an empty one. */
  lemma ValueShowsFields(s: ServiceObject)
    ensures var v := s.Value();
            && v.namespace == s.namespace && v.name == s.name && v.spec.envoy == s.envoy
            && v.labels == (if s.labels == null then map[] else s.labels.entries)
            && v.spec.replicas == (if s.replicas == null then None else Some(s.replicas.value))
            && (v.spec.gateway.Some? <==> s.gateway != null)
            && (s.gateway != null ==>
                  v.spec.gateway.value.ports == if s.gateway.ports == null then [] else s.gateway.ports[..])
            && v.spec.container.name == s.container.name && v.spec.container.image == s.container.image
            && v.spec.container.args == (if s.container.args == null then [] else s.container.args[..])
            && v.spec.container.ports == (if s.container.ports == null then [] else s.container.ports[..])
  {
  }

  // ---- Writing to the copy ----

  /** Some code that owns the object: all a caller knows is that it may write to the object's own cells. */
  method Scribble(s: ServiceObject)
    modifies s.OwnCells()
  {
    if s.labels != null {
      s.labels.entries := map[];
    }
    if s.container.args != null && s.container.args.Length > 0 {
      s.container.args[0] := "";
    }
    s.name, s.container := "", s.container.(name := "");
  }

  /** Whatever such code does to a deep copy, the original does not show it, gateway included. */
  method CopyAndScribble(original: ServiceObject) returns (copy: ServiceObject)
    ensures fresh(copy)
    ensures original.Image() == old(original.Image())
  {
    copy := original.DeepCopy();
    Scribble(copy);
  }

  /** The gateway is not among the copy's own cells: what is written through it does show. */
  method CopyAndWriteGateway(original: ServiceObject, ports: array?<int32>) returns (copy: ServiceObject)
    requires original.gateway != null
    modifies original.gateway
    ensures fresh(copy) && copy.gateway == original.gateway
    ensures original.Image().gateway == Some(SliceImage(ports))
  {
    copy := original.DeepCopy();
    copy.gateway.ports := ports;
  }
}
