/** Laying values over a keyed cache, one set of names after the other. */
module Layers {

  datatype Layer<V> = Layer(names: set<string>, value: V)

  function StoreAll<V>(cache: map<string, V>, names: set<string>, v: V): map<string, V> {
    cache + (map n | n in names :: v)
  }

  lemma StoreNothing<V>(cache: map<string, V>, v: V)
    ensures StoreAll(cache, {}, v) == cache
  {
  }

  lemma StoreOneMore<V>(cache: map<string, V>, names: set<string>, n: string, v: V)
    ensures StoreAll(cache, names, v)[n := v] == StoreAll(cache, names + {n}, v)
  {
  }

  /** The layers one after the other, each overwriting what the earlier ones stored. */
  function Overlay<V>(cache: map<string, V>, layers: seq<Layer<V>>): map<string, V> {
    if layers == [] then cache
    else
      var last := layers[|layers| - 1];
      StoreAll(Overlay(cache, layers[..|layers| - 1]), last.names, last.value)
  }

  ghost predicate Named<V>(layers: seq<Layer<V>>, n: string) {
    exists k :: 0 <= k < |layers| && n in layers[k].names
  }

  /** Layer k is the last one that holds the name. */
  predicate LastLayer<V>(layers: seq<Layer<V>>, n: string, k: nat) {
    && k < |layers| && n in layers[k].names
    && forall j :: k < j < |layers| ==> n !in layers[j].names
  }

  function Names<V>(layers: seq<Layer<V>>): (names: set<string>)
    ensures forall n :: n in names <==> Named(layers, n)
  {
    if layers == [] then {} else
      var init := layers[..|layers| - 1];
      assert forall n :: Named(layers, n) <==> Named(init, n) || n in layers[|layers| - 1].names by {
        assert forall n, k :: 0 <= k < |init| && n in init[k].names ==> n in layers[k].names;
      }
      Names(init) + layers[|layers| - 1].names
  }

  function LastIndex<V>(layers: seq<Layer<V>>, n: string): (k: nat)
    requires n in Names(layers)
    ensures LastLayer(layers, n, k)
  {
    var last := |layers| - 1;
    if n in layers[last].names then last else LastIndex(layers[..last], n)
  }

  lemma LastLayerUnique<V>(layers: seq<Layer<V>>, n: string, j: nat, k: nat)
    requires LastLayer(layers, n, j) && LastLayer(layers, n, k)
    ensures j == k
  {
  }

  /** Every name with the value of the last layer that holds it. */
  function Top<V>(layers: seq<Layer<V>>): map<string, V> {
    map n | n in Names(layers) :: layers[LastIndex(layers, n)].value
  }

  lemma TopOfMore<V>(layers: seq<Layer<V>>, last: Layer<V>)
    ensures Top(layers + [last]) == Top(layers) + (map n | n in last.names :: last.value)
  {
    var all := layers + [last];
    assert all[..|layers|] == layers;
    assert Names(all) == Names(layers) + last.names;
    forall n | n in Names(all) && n !in last.names ensures Top(all)[n] == Top(layers)[n] {
      assert all[|all| - 1] == last;
      assert LastIndex(all, n) == LastIndex(layers, n);
    }
  }

  /** Overwriting layer by layer leaves exactly the topmost values over the old cache. */
  lemma {:induction false} OverlayIsTop<V>(cache: map<string, V>, layers: seq<Layer<V>>)
    ensures Overlay(cache, layers) == cache + Top(layers)
  {
    if layers == [] {
      assert Top(layers) == map[];
    } else {
      var last := |layers| - 1;
      OverlayIsTop(cache, layers[..last]);
      assert layers == layers[..last] + [layers[last]];
      TopOfMore(layers[..last], layers[last]);
      AddAssociative(cache, Top(layers[..last]), map n | n in layers[last].names :: layers[last].value);
    }
  }

  /** The first layer can be stored right away. */
  lemma {:induction false} StoreFirst<V>(cache: map<string, V>, first: Layer<V>, rest: seq<Layer<V>>)
    ensures cache + Top([first] + rest) == StoreAll(cache, first.names, first.value) + Top(rest)
  {
    var all := [first] + rest;
    if rest == [] {
      assert all == [] + [first];
      TopOfMore([], first);
      assert Top<V>([]) == map[];
    } else {
      var last := |rest| - 1;
      var top := map n | n in rest[last].names :: rest[last].value;
      StoreFirst(cache, first, rest[..last]);
      assert all == ([first] + rest[..last]) + [rest[last]];
      assert rest == rest[..last] + [rest[last]];
      TopOfMore([first] + rest[..last], rest[last]);
      TopOfMore(rest[..last], rest[last]);
      AddAssociative(cache, Top([first] + rest[..last]), top);
      AddAssociative(StoreAll(cache, first.names, first.value), Top(rest[..last]), top);
    }
  }

  lemma AddAssociative<V>(a: map<string, V>, b: map<string, V>, c: map<string, V>)
    ensures (a + b) + c == a + (b + c)
  {
  }

  lemma OverlayMeaning<V>(cache: map<string, V>, layers: seq<Layer<V>>, n: string)
    ensures var after := cache + Top(layers);
            && (forall k: nat :: LastLayer(layers, n, k) ==> n in after && after[n] == layers[k].value)
            && (!Named(layers, n) ==> (n in after <==> n in cache) && (n in cache ==> after[n] == cache[n]))
            && cache.Keys <= after.Keys
            && after + Top(layers) == after
  {
    forall k: nat | LastLayer(layers, n, k) ensures n in Names(layers) && LastIndex(layers, n) == k {
      LastLayerUnique(layers, n, k, LastIndex(layers, n));
    }
  }

  /** Two maps can be laid over a cache in either order exactly if they agree where they overlap. */
  lemma OverlayCommutesIff<V>(cache: map<string, V>, a: map<string, V>, b: map<string, V>)
    ensures (cache + a) + b == (cache + b) + a <==> forall n :: n in a && n in b ==> a[n] == b[n]
  {
    var ab, ba := (cache + a) + b, (cache + b) + a;
    if ab == ba {
      forall n | n in a && n in b ensures a[n] == b[n] {
        assert ab[n] == b[n];
        assert ba[n] == a[n];
      }
    }
    assert ab.Keys == ba.Keys;
  }
}
