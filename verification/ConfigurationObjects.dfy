/** Deep copy of a Configuration: three levels of slices of structs, with maps and slices inside. */
module ConfigurationObjects {
  import opened MeshTypes
  import opened ServiceObjects

  // ---- Struct values; copying one copies pointers and slice headers ----

  datatype HttpStruct = HttpStruct(domains: array?<string>, cluster: string)

  datatype FilterStruct = FilterStruct(port: uint32, http: array?<HttpStruct>, tcp: Tcp)

  datatype RuleStruct = RuleStruct(matchLabels: StringMap?, filters: array?<FilterStruct>, clusters: array?<Cluster>)

  // ---- What they stand for, nil kept apart from empty ----

  datatype HttpImage = HttpImage(domains: Option<seq<string>>, cluster: string)

  datatype FilterImage = FilterImage(port: uint32, http: Option<seq<HttpImage>>, tcp: Tcp)

  datatype RuleImage = RuleImage(matchLabels: Option<Labels>, filters: Option<seq<FilterImage>>, clusters: Option<seq<Cluster>>)

  // ---- HTTP entries ----

  function HttpImageOf(h: HttpStruct): HttpImage
    reads h.domains
  {
    HttpImage(SliceImage(h.domains), h.cluster)
  }

  function HttpCells(hs: seq<HttpStruct>): set<object> {
    set i | 0 <= i < |hs| && hs[i].domains != null :: hs[i].domains as object
  }

  function HttpImages(hs: seq<HttpStruct>): (images: seq<HttpImage>)
    reads HttpCells(hs)
    ensures |images| == |hs|
  {
    seq(|hs|, i requires 0 <= i < |hs| reads HttpCells(hs) => HttpImageOf(hs[i]))
  }

  // ---- Filters ----

  /** Every cell that can be reached from a filter. */
  function FilterCells(f: FilterStruct): set<object>
    reads f.http
  {
    if f.http == null then {} else {f.http} + HttpCells(f.http[..])
  }

  function FilterImageOf(f: FilterStruct): FilterImage
    reads f.http, FilterCells(f)
  {
    FilterImage(f.port, if f.http == null then None else Some(HttpImages(f.http[..])), f.tcp)
  }

  function FilterArrays(fs: seq<FilterStruct>): set<object> {
    set i | 0 <= i < |fs| && fs[i].http != null :: fs[i].http as object
  }

  function FiltersCells(fs: seq<FilterStruct>): set<object>
    reads FilterArrays(fs)
  {
    set i, o | 0 <= i < |fs| && o in FilterCells(fs[i]) :: o
  }

  function FilterImages(fs: seq<FilterStruct>): (images: seq<FilterImage>)
    reads FilterArrays(fs), FiltersCells(fs)
    ensures |images| == |fs|
  {
    seq(|fs|, i requires 0 <= i < |fs| reads FilterArrays(fs), FiltersCells(fs) => FilterImageOf(fs[i]))
  }

  // ---- Rules ----

  function RuleArrays(r: RuleStruct): set<object>
    reads r.filters
  {
    if r.filters == null then {} else {r.filters} + FilterArrays(r.filters[..])
  }

  /** Every cell that can be reached from a rule. */
  function RuleCells(r: RuleStruct): set<object>
    reads r.filters, RuleArrays(r)
  {
    Cell(r.matchLabels) + Cell(r.clusters) + RuleArrays(r)
    + if r.filters == null then {} else FiltersCells(r.filters[..])
  }

  function RuleImageOf(r: RuleStruct): RuleImage
    reads r.filters, RuleArrays(r), RuleCells(r)
  {
    RuleImage(MapImage(r.matchLabels), if r.filters == null then None else Some(FilterImages(r.filters[..])),
              SliceImage(r.clusters))
  }

  // ---- Copies ----

  method CopyHttps(a: array?<HttpStruct>) returns (out: array?<HttpStruct>)
    ensures (out == null) == (a == null)
    ensures out != null ==> fresh(out) && fresh(HttpCells(out[..])) && HttpImages(out[..]) == HttpImages(a[..])
  {
    if a == null {
      return null;
    }
    out := new HttpStruct[a.Length](_ => HttpStruct(null, ""));
    for i := 0 to a.Length
      invariant fresh(out) && out.Length == a.Length
      invariant forall k :: 0 <= k < i ==> out[k].domains != null ==> fresh(out[k].domains)
      invariant forall k :: 0 <= k < i ==> HttpImageOf(out[k]) == HttpImageOf(a[k])
      invariant forall k :: 0 <= k < a.Length ==> a[k] == old(a[k])
    {
      var domains := CopySlice(a[i].domains);
      out[i] := HttpStruct(domains, a[i].cluster);
    }
  }

  method CopyFilter(f: FilterStruct) returns (out: FilterStruct)
    ensures fresh(FilterCells(out))
    ensures FilterImageOf(out) == FilterImageOf(f)
  {
    var http := CopyHttps(f.http);
    out := f.(http := http);
  }

  /** Writing elsewhere changes neither what filters reach nor what they stand for. */
  twostate lemma FiltersAreFramed(fs: seq<FilterStruct>)
    requires forall f, o :: f in fs && o in old(FilterCells(f)) ==> unchanged(o)
    ensures forall f :: f in fs ==> FilterCells(f) == old(FilterCells(f)) && FilterImageOf(f) == old(FilterImageOf(f))
  {
    forall f | f in fs
      ensures FilterCells(f) == old(FilterCells(f)) && FilterImageOf(f) == old(FilterImageOf(f))
    {
      if f.http != null {
        assert f.http in old(FilterCells(f));
      }
    }
  }

  /** One step of the loop over the filters. */
  method CopyFilterInto(f: FilterStruct, out: array<FilterStruct>, i: nat)
    requires i < out.Length && out !in FilterCells(f)
    modifies out
    ensures out[..] == old(out[..])[i := out[i]]
    ensures fresh(FilterCells(out[i])) && out !in FilterCells(out[i])
    ensures FilterImageOf(out[i]) == old(FilterImageOf(f))
  {
    assert allocated(FilterCells(f));
    var copy := CopyFilter(f);
    assert allocated(FilterCells(copy));
    FiltersAreFramed([f]);
    label Copied:
    out[i] := copy;
    FiltersAreFramed@Copied([copy]);
  }

  lemma ArraysAreCells(fs: seq<FilterStruct>)
    ensures FilterArrays(fs) <= FiltersCells(fs)
  {
    forall i | 0 <= i < |fs| && fs[i].http != null
      ensures fs[i].http as object in FiltersCells(fs)
    {
      assert fs[i].http in FilterCells(fs[i]);
    }
  }

  method CopyFilters(a: array?<FilterStruct>) returns (out: array?<FilterStruct>)
    ensures (out == null) == (a == null)
    ensures out != null ==> fresh(out) && fresh(FilterArrays(out[..])) && fresh(FiltersCells(out[..]))
    ensures out != null ==> FilterImages(out[..]) == FilterImages(a[..])
  {
    if a == null {
      return null;
    }
    out := new FilterStruct[a.Length](_ => FilterStruct(0, null, Tcp("")));
    CopyEachFilter(a, out);
    ArraysAreCells(out[..]);
    FiltersAreFramed(a[..]);
  }

  method CopyEachFilter(a: array<FilterStruct>, out: array<FilterStruct>)
    requires out.Length == a.Length && out != a && forall f :: f in a[..] ==> out !in FilterCells(f)
    modifies out
    ensures a[..] == old(a[..])
    ensures forall f :: f in out[..] ==> fresh(FilterCells(f))
    ensures forall k :: 0 <= k < a.Length ==> FilterImageOf(out[k]) == old(FilterImageOf(a[k]))
  {
    hide FilterImageOf, FilterCells;
    ghost var copied: seq<FilterStruct>, cells: set<object> := [], {};
    for i := 0 to a.Length
      invariant fresh(cells) && out !in cells
      invariant |copied| == i && out[..i] == copied
      invariant forall f :: f in copied ==> FilterCells(f) <= cells
      invariant forall k :: 0 <= k < i ==> FilterImageOf(copied[k]) == old(FilterImageOf(a[k]))
      invariant a[..] == old(a[..])
    {
      label Before:
      assert old(allocated(FilterCells(a[i])));
      FiltersAreFramed([a[i]]);
      CopyFilterInto(a[i], out, i);
      FiltersAreFramed@Before(copied);
      copied, cells := copied + [out[i]], cells + FilterCells(out[i]);
    }
  }

  /** Writing elsewhere changes neither what a rule reaches nor what it stands for. */
  twostate lemma RuleIsFramed(r: RuleStruct)
    requires forall o :: o in old(RuleCells(r)) ==> unchanged(o)
    ensures RuleArrays(r) == old(RuleArrays(r)) && RuleCells(r) == old(RuleCells(r))
    ensures RuleImageOf(r) == old(RuleImageOf(r))
  {
    if r.filters != null {
      assert r.filters in old(RuleCells(r));
      assert unchanged(r.filters);
    }
    assert RuleArrays(r) == old(RuleArrays(r));
    assert forall o :: o in old(RuleArrays(r)) ==> o in old(RuleCells(r));
    assert RuleCells(r) == old(RuleCells(r));
  }

  /** A rule whose parts are equal, one by one, is equal. */
  lemma RuleFromParts(out: RuleStruct, r: RuleStruct)
    requires MapImage(out.matchLabels) == MapImage(r.matchLabels)
    requires SliceImage(out.clusters) == SliceImage(r.clusters)
    requires (out.filters == null) == (r.filters == null)
    requires r.filters != null ==> FilterImages(out.filters[..]) == FilterImages(r.filters[..])
    ensures RuleImageOf(out) == RuleImageOf(r)
  {
  }

  /** What a rule reaches, part by part. */
  lemma CellsFromParts(r: RuleStruct, o: object)
    requires o in RuleCells(r)
    ensures o in Cell(r.matchLabels) || o in Cell(r.clusters) || o == r.filters
            || (r.filters != null && (o in FilterArrays(r.filters[..]) || o in FiltersCells(r.filters[..])))
  {
  }

  method CopyRule(r: RuleStruct) returns (out: RuleStruct)
    ensures fresh(RuleCells(out))
    ensures RuleImageOf(out) == RuleImageOf(r)
  {
    hide RuleCells, RuleImageOf, FilterImages, FiltersCells, FilterArrays;
    var matchLabels: StringMap? := null;
    if r.matchLabels != null {
      matchLabels := CopyMap(r.matchLabels);
    }
    var clusters := CopySlice(r.clusters);
    var filters := CopyFilters(r.filters);
    out := RuleStruct(matchLabels, filters, clusters);
    RuleFromParts(out, r);
    forall o | o in RuleCells(out)
      ensures fresh(o)
    {
      CellsFromParts(out, o);
    }
  }

  /** Nor what a list of rules reaches and stands for. */
  twostate lemma RulesAreFramed(rs: seq<RuleStruct>)
    requires forall r, o :: r in rs && o in old(RuleCells(r)) ==> unchanged(o)
    ensures forall r :: r in rs ==> RuleCells(r) == old(RuleCells(r)) && RuleImageOf(r) == old(RuleImageOf(r))
  {
    hide RuleCells, RuleImageOf;
    forall r | r in rs
      ensures RuleCells(r) == old(RuleCells(r)) && RuleImageOf(r) == old(RuleImageOf(r))
    {
      assert forall o :: o in old(RuleCells(r)) ==> unchanged(o);
      RuleIsFramed(r);
    }
  }

  /** One step of the loop over the rules. */
  method CopyRuleInto(r: RuleStruct, out: array<RuleStruct>, i: nat)
    requires i < out.Length && out !in RuleCells(r)
    modifies out
    ensures out[..] == old(out[..])[i := out[i]]
    ensures fresh(RuleCells(out[i])) && out !in RuleCells(out[i])
    ensures RuleImageOf(out[i]) == old(RuleImageOf(r))
  {
    hide RuleImageOf, RuleCells;
    assert allocated(RuleCells(r));
    var copy := CopyRule(r);
    assert allocated(RuleCells(copy));
    RuleIsFramed(r);
    label Copied:
    out[i] := copy;
    RuleIsFramed@Copied(copy);
  }

  method CopyRules(a: array?<RuleStruct>) returns (out: array?<RuleStruct>)
    ensures (out == null) == (a == null)
    ensures out != null ==> fresh(out) && out.Length == a.Length
    ensures out != null ==> forall k :: 0 <= k < a.Length ==>
              fresh(RuleCells(out[k])) && RuleImageOf(out[k]) == old(RuleImageOf(a[k]))
  {
    if a == null {
      return null;
    }
    hide RuleImageOf, RuleCells;
    out := new RuleStruct[a.Length](_ => RuleStruct(null, null, null));
    ghost var copied: seq<RuleStruct>, cells: set<object> := [], {};
    for i := 0 to a.Length
      invariant fresh(out) && out.Length == a.Length
      invariant fresh(cells) && out !in cells
      invariant |copied| == i && out[..i] == copied
      invariant forall r :: r in copied ==> RuleCells(r) <= cells
      invariant forall k :: 0 <= k < i ==> RuleImageOf(copied[k]) == old(RuleImageOf(a[k]))
      invariant a[..] == old(a[..])
    {
      label Before:
      assert old(allocated(RuleCells(a[i])));
      RuleIsFramed(a[i]);
      CopyRuleInto(a[i], out, i);
      RulesAreFramed@Before(copied);
      copied, cells := copied + [out[i]], cells + RuleCells(out[i]);
    }
  }

  // ---- Configurations ----

  datatype ConfigurationImage = ConfigurationImage(
    namespace: string, name: string, resourceVersion: nat, labels: Option<Labels>, rules: Option<seq<RuleImage>>)

  function RuleHeads(rs: seq<RuleStruct>): set<object> {
    set i | 0 <= i < |rs| && rs[i].filters != null :: rs[i].filters as object
  }

  function RulesArrays(rs: seq<RuleStruct>): set<object>
    reads RuleHeads(rs)
  {
    set i, o | 0 <= i < |rs| && o in RuleArrays(rs[i]) :: o
  }

  function RulesCells(rs: seq<RuleStruct>): set<object>
    reads RuleHeads(rs), RulesArrays(rs)
  {
    set i, o | 0 <= i < |rs| && o in RuleCells(rs[i]) :: o
  }

  function RuleImages(rs: seq<RuleStruct>): (images: seq<RuleImage>)
    reads RuleHeads(rs), RulesArrays(rs), RulesCells(rs)
    ensures |images| == |rs|
  {
    seq(|rs|, i requires 0 <= i < |rs| reads RuleHeads(rs), RulesArrays(rs), RulesCells(rs) => RuleImageOf(rs[i]))
  }

  function RuleList(a: array?<RuleStruct>): seq<RuleStruct>
    reads a
  {
    if a == null then [] else a[..]
  }

  /** Every cell that can be reached from a configuration's spec. */
  function SpecCells(a: array?<RuleStruct>): set<object>
    reads a, RuleHeads(RuleList(a)), RulesArrays(RuleList(a))
  {
    Cell(a) + RulesCells(RuleList(a))
  }

  function SpecImage(a: array?<RuleStruct>): Option<seq<RuleImage>>
    reads a, RuleHeads(RuleList(a)), RulesArrays(RuleList(a)), RulesCells(RuleList(a))
  {
    if a == null then None else Some(RuleImages(a[..]))
  }

  /** Writing elsewhere changes neither what a spec reaches nor what it stands for. */
  twostate lemma SpecIsFramed(a: array?<RuleStruct>)
    requires forall o :: o in old(SpecCells(a)) ==> unchanged(o)
    ensures RuleList(a) == old(RuleList(a)) && SpecCells(a) == old(SpecCells(a)) && SpecImage(a) == old(SpecImage(a))
  {
    hide RuleCells, RuleImageOf, RuleArrays;
    assert a != null ==> a in old(SpecCells(a));
    var list := RuleList(a);
    assert forall r :: r in list ==> old(RuleCells(r)) <= old(RulesCells(list)) <= old(SpecCells(a));
    RulesAreFramed(list);
    assert RulesCells(list) == old(RulesCells(list));
    assert forall k :: 0 <= k < |list| ==> RuleImageOf(list[k]) == old(RuleImageOf(list[k]));
    assert RuleImages(list) == old(RuleImages(list));
  }

  method CopySpec(a: array?<RuleStruct>) returns (out: array?<RuleStruct>)
    ensures fresh(SpecCells(out))
    ensures SpecImage(out) == old(SpecImage(a))
  {
    hide RuleCells, RuleImageOf, RuleArrays;
    out := CopyRules(a);
    if a != null {
      ghost var was := old(RuleImages(a[..]));
      forall k | 0 <= k < a.Length
        ensures RuleImages(out[..])[k] == was[k]
      {
        assert was[k] == old(RuleImageOf(a[k]));
      }
      assert RuleImages(out[..]) == was;
    }
  }

  class ConfigurationObject {
    var namespace: string
    var name: string
    var resourceVersion: nat
    var labels: StringMap?
    var rules: array?<RuleStruct>

    constructor (namespace: string, name: string, resourceVersion: nat, labels: StringMap?, rules: array?<RuleStruct>)
      ensures this.namespace == namespace && this.name == name && this.resourceVersion == resourceVersion
      ensures this.labels == labels && this.rules == rules
    {
      this.namespace, this.name, this.resourceVersion := namespace, name, resourceVersion;
      this.labels, this.rules := labels, rules;
    }

    /** Every cell that can be reached from the object. */
    function Cells(): set<object>
      reads this, rules, RuleHeads(RuleList(rules)), RulesArrays(RuleList(rules))
    {
      {this} + Cell(labels) + SpecCells(rules)
    }

    function Image(): ConfigurationImage
      reads this, rules, labels, RuleHeads(RuleList(rules)), RulesArrays(RuleList(rules)), RulesCells(RuleList(rules))
    {
      ConfigurationImage(namespace, name, resourceVersion, MapImage(labels), SpecImage(rules))
    }

    method DeepCopy() returns (out: ConfigurationObject)
      ensures fresh(out.Cells())
      ensures out.Image() == old(Image())
    {
      hide SpecCells, SpecImage;
      assert allocated(SpecCells(rules));
      var labelsCopy: StringMap? := null;
      if labels != null {
        labelsCopy := CopyMap(labels);
      }
      SpecIsFramed(rules);
      var rulesCopy := CopySpec(rules);
      assert allocated(SpecCells(rulesCopy));
      label Copied:
      out := new ConfigurationObject(namespace, name, resourceVersion, labelsCopy, rulesCopy);
      SpecIsFramed@Copied(rulesCopy);
    }
  }

  // ---- Images show every field ----

  predicate ShowsSlice<T(==)>(image: Option<seq<T>>, a: array?<T>)
    reads a
  {
    (image == None <==> a == null) && (a != null ==> image == Some(a[..]))
  }

  lemma HttpImageShows(h: HttpStruct)
    ensures HttpImageOf(h).cluster == h.cluster && ShowsSlice(HttpImageOf(h).domains, h.domains)
  {
  }

  lemma FilterImageShows(f: FilterStruct)
    ensures var image := FilterImageOf(f);
            && image.port == f.port && image.tcp.cluster == f.tcp.cluster && (image.http == None <==> f.http == null)
            && (f.http != null ==> |image.http.value| == f.http.Length
                                   && forall k :: 0 <= k < f.http.Length ==> image.http.value[k] == HttpImageOf(f.http[k]))
  {
  }

  lemma RuleImageShows(r: RuleStruct)
    ensures var image := RuleImageOf(r);
            && (image.matchLabels == None <==> r.matchLabels == null)
            && (r.matchLabels != null ==> image.matchLabels == Some(r.matchLabels.entries))
            && ShowsSlice(image.clusters, r.clusters) && (image.filters == None <==> r.filters == null)
            && (r.filters != null ==>
                  |image.filters.value| == r.filters.Length
                  && forall j :: 0 <= j < r.filters.Length ==> image.filters.value[j] == FilterImageOf(r.filters[j]))
  {
    hide FilterImageOf;
  }

  /** The image of a Configuration shows every field down to the last domain, so equal images mean equal fields. */
  lemma ImageShowsFields(c: ConfigurationObject)
    ensures var image := c.Image();
            && image.namespace == c.namespace && image.name == c.name && image.resourceVersion == c.resourceVersion
            && (image.labels == None <==> c.labels == null) && (c.labels != null ==> image.labels == Some(c.labels.entries))
            && (image.rules == None <==> c.rules == null)
            && (c.rules != null ==>
                  |image.rules.value| == c.rules.Length
                  && forall i :: 0 <= i < c.rules.Length ==> image.rules.value[i] == RuleImageOf(c.rules[i]))
  {
    hide RuleImageOf, RuleCells;
  }

  // ---- Writing to the copy ----

  /** Some code that owns the object: all a caller knows is that it may write to every cell of it. */
  method Scribble(c: ConfigurationObject)
    modifies c.Cells()
  {
    if c.labels != null {
      c.labels.entries := map[];
    }
    if c.rules != null && c.rules.Length > 0 {
      c.rules[0] := RuleStruct(null, null, null);
    }
    c.name, c.resourceVersion := "", 0;
  }

  /** Whatever such code does to a deep copy, at any depth, the original does not show it. */
  method CopyAndScribble(original: ConfigurationObject) returns (copy: ConfigurationObject)
    ensures fresh(copy)
    ensures original.Image() == old(original.Image()) && original.Cells() == old(original.Cells())
  {
    hide SpecCells, SpecImage;
    assert allocated(original.Cells()) && allocated(SpecCells(original.rules));
    copy := original.DeepCopy();
    Scribble(copy);
    SpecIsFramed(original.rules);
  }
}
