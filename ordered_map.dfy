// A JavaScript `Map`: a dictionary whose iteration order is the order in
// which keys were first inserted; setting an existing key keeps its place.
module OrderedMap {
  import opened Wrappers
  import opened Seqs

  datatype OMap<K, V> = OMap(keys: seq<K>, m: map<K, V>)

  ghost predicate Valid<K, V>(o: OMap<K, V>)
  {
    Distinct(o.keys) && o.m.Keys == Elems(o.keys)
  }

  function Empty<K, V>(): (r: OMap<K, V>)
    ensures Valid(r) && r.m == map[] && r.keys == []
  {
    OMap([], map[])
  }

  /** `map.set(k, v)`. */
  function Put<K, V>(o: OMap<K, V>, k: K, v: V): (r: OMap<K, V>)
    requires Valid(o)
    ensures Valid(r)
    ensures r.m == o.m[k := v]
    ensures r.keys == if k in o.m then o.keys else o.keys + [k]
  {
    if k in o.m then OMap(o.keys, o.m[k := v]) else OMap(o.keys + [k], o.m[k := v])
  }

  /** `map.get(k)`. */
  function Get<K, V>(o: OMap<K, V>, k: K): Option<V>
  {
    if k in o.m then Some(o.m[k]) else None
  }

  /** `if (!map.has(k)) map.set(k, v)`. */
  function PutNew<K, V>(o: OMap<K, V>, k: K, v: V): (r: OMap<K, V>)
    requires Valid(o)
    ensures Valid(r)
    ensures k in o.m ==> r == o
    ensures k !in o.m ==> r.m == o.m[k := v] && r.keys == o.keys + [k]
  {
    if k in o.m then o else Put(o, k, v)
  }

  /** `for (const [k, v] of entries) map.set(k, v)`: the last value set wins. */
  function PutAll<K, V>(o: OMap<K, V>, kvs: seq<(K, V)>): (r: OMap<K, V>)
    requires Valid(o)
    ensures Valid(r)
    decreases |kvs|
  {
    if kvs == [] then o else Put(PutAll(o, kvs[..|kvs| - 1]), kvs[|kvs| - 1].0, kvs[|kvs| - 1].1)
  }

  /** Entries set only when their key is still absent: the first value wins. */
  function PutNewAll<K, V>(o: OMap<K, V>, kvs: seq<(K, V)>): (r: OMap<K, V>)
    requires Valid(o)
    ensures Valid(r)
    decreases |kvs|
  {
    if kvs == [] then o else PutNew(PutNewAll(o, kvs[..|kvs| - 1]), kvs[|kvs| - 1].0, kvs[|kvs| - 1].1)
  }

  lemma PutAllSnoc<K, V>(o: OMap<K, V>, kvs: seq<(K, V)>, k: K, v: V)
    requires Valid(o)
    ensures PutAll(o, kvs + [(k, v)]) == Put(PutAll(o, kvs), k, v)
  {
    assert (kvs + [(k, v)])[..|kvs|] == kvs;
  }

  lemma PutNewAllSnoc<K, V>(o: OMap<K, V>, kvs: seq<(K, V)>, k: K, v: V)
    requires Valid(o)
    ensures PutNewAll(o, kvs + [(k, v)]) == PutNew(PutNewAll(o, kvs), k, v)
  {
    assert (kvs + [(k, v)])[..|kvs|] == kvs;
  }

  /** Three `if (!has) set` steps in a row. */
  lemma PutNewAllThree<K, V>(o: OMap<K, V>, k0: K, v0: V, k1: K, v1: V, k2: K, v2: V)
    requires Valid(o)
    ensures PutNewAll(o, [(k0, v0), (k1, v1), (k2, v2)]) == PutNew(PutNew(PutNew(o, k0, v0), k1, v1), k2, v2)
  {
    PutNewAllSnoc(o, [], k0, v0);
    assert [] + [(k0, v0)] == [(k0, v0)];
    PutNewAllSnoc(o, [(k0, v0)], k1, v1);
    assert [(k0, v0)] + [(k1, v1)] == [(k0, v0), (k1, v1)];
    PutNewAllSnoc(o, [(k0, v0), (k1, v1)], k2, v2);
    assert [(k0, v0), (k1, v1)] + [(k2, v2)] == [(k0, v0), (k1, v1), (k2, v2)];
  }

  lemma {:induction false} PutNewAllConcat<K, V>(o: OMap<K, V>, a: seq<(K, V)>, b: seq<(K, V)>)
    requires Valid(o)
    ensures PutNewAll(o, a + b) == PutNewAll(PutNewAll(o, a), b)
    decreases |b|
  {
    if b == [] {
      assert a + b == a;
    } else {
      var b' := b[..|b| - 1];
      assert (a + b)[..|a + b| - 1] == a + b';
      assert (a + b)[|a + b| - 1] == b[|b| - 1];
      PutNewAllConcat(o, a, b');
    }
  }

  /** After setting the absent entries, a key is present exactly when it was
   *  or some entry has it; a key that was absent holds the value of the
   *  first entry with it. */
  lemma {:induction false} PutNewAllFirstWins<K, V>(o: OMap<K, V>, kvs: seq<(K, V)>, k: K)
    requires Valid(o)
    ensures k in PutNewAll(o, kvs).m <==> k in o.m || exists i :: 0 <= i < |kvs| && kvs[i].0 == k
    ensures k in o.m ==> PutNewAll(o, kvs).m[k] == o.m[k]
    ensures forall i :: 0 <= i < |kvs| && kvs[i].0 == k && k !in o.m && (forall j :: 0 <= j < i ==> kvs[j].0 != k)
              ==> PutNewAll(o, kvs).m[k] == kvs[i].1
    decreases |kvs|
  {
    if kvs != [] {
      var init := kvs[..|kvs| - 1];
      PutNewAllFirstWins(o, init, k);
      if exists i :: 0 <= i < |kvs| && kvs[i].0 == k {
        var i :| 0 <= i < |kvs| && kvs[i].0 == k;
        if i < |init| {
          assert init[i].0 == k;
        }
      }
      if exists i :: 0 <= i < |init| && init[i].0 == k {
        var i :| 0 <= i < |init| && init[i].0 == k;
        assert kvs[i].0 == k;
      }
      forall i | 0 <= i < |kvs| && kvs[i].0 == k && k !in o.m && (forall j :: 0 <= j < i ==> kvs[j].0 != k)
        ensures PutNewAll(o, kvs).m[k] == kvs[i].1
      {
        if i < |init| {
          assert init[i] == kvs[i];
          assert forall j :: 0 <= j < i ==> init[j] == kvs[j];
        } else {
          assert forall j :: 0 <= j < |init| ==> init[j] == kvs[j];
        }
      }
    }
  }

  /** The entries a loop sets while it `continue`s past some inputs. */
  function PutCollected<S, K, V>(xs: seq<S>, f: S -> Option<(K, V)>): (r: OMap<K, V>)
    ensures Valid(r)
  {
    PutAll(Empty(), Collect(xs, f))
  }

  predicate HasKey<S, K(==), V>(f: S -> Option<(K, V)>, x: S, k: K)
  {
    f(x).Some? && f(x).value.0 == k
  }

  /** A key is present exactly when some input yields an entry for it. */
  lemma {:induction false} PutCollectedKeys<S, K, V>(xs: seq<S>, f: S -> Option<(K, V)>, k: K)
    ensures k in PutCollected(xs, f).m <==> SomeHasKey(xs, f, k)
    decreases |xs|
  {
    if xs != [] {
      var n := |xs| - 1;
      var init := xs[..n];
      PutCollectedKeys(init, f, k);
      PutCollectedSnoc(xs, f, n);
      assert xs[..n + 1] == xs;
      SomeHasKeySnoc(xs, f, k);
    }
  }

  /** Some input yields an entry for `k`. */
  predicate SomeHasKey<S, K(==), V>(xs: seq<S>, f: S -> Option<(K, V)>, k: K)
  {
    exists i :: 0 <= i < |xs| && HasKey(f, xs[i], k)
  }

  lemma SomeHasKeySnoc<S, K, V>(xs: seq<S>, f: S -> Option<(K, V)>, k: K)
    requires xs != []
    ensures SomeHasKey(xs, f, k) <==> SomeHasKey(xs[..|xs| - 1], f, k) || HasKey(f, xs[|xs| - 1], k)
  {
    var n := |xs| - 1;
    var init := xs[..n];
    if SomeHasKey(init, f, k) {
      var i :| 0 <= i < |init| && HasKey(f, init[i], k);
      assert xs[i] == init[i];
    }
    if !HasKey(f, xs[n], k) && SomeHasKey(xs, f, k) {
      var i :| 0 <= i < |xs| && HasKey(f, xs[i], k);
      assert init[i] == xs[i];
    }
  }

  /** A present key holds the value of the last input yielding an entry for it. */
  lemma {:induction false} PutCollectedLastWins<S, K, V>(xs: seq<S>, f: S -> Option<(K, V)>, k: K)
    requires k in PutCollected(xs, f).m
    ensures exists i :: (0 <= i < |xs| && f(xs[i]) == Some((k, PutCollected(xs, f).m[k]))
      && forall j :: i < j < |xs| ==> !HasKey(f, xs[j], k))
    decreases |xs|
  {
    var n := |xs| - 1;
    var init := xs[..n];
    PutCollectedSnoc(xs, f, n);
    assert xs[..n + 1] == xs;
    if !HasKey(f, xs[n], k) {
      PutCollectedLastWins(init, f, k);
      var i :| 0 <= i < |init| && f(init[i]) == Some((k, PutCollected(init, f).m[k]))
        && forall j :: i < j < |init| ==> !HasKey(f, init[j], k);
      assert xs[i] == init[i];
      forall j | i < j < |xs| ensures !HasKey(f, xs[j], k) {
        if j < n {
          assert xs[j] == init[j];
        }
      }
    }
  }

  /** One more input of a `continue`-ing loop: its entry, if any, is set. */
  lemma PutCollectedSnoc<S, K, V>(xs: seq<S>, f: S -> Option<(K, V)>, i: nat)
    requires i < |xs|
    ensures PutCollected(xs[..i + 1], f) ==
      if f(xs[i]).Some? then Put(PutCollected(xs[..i], f), f(xs[i]).value.0, f(xs[i]).value.1)
      else PutCollected(xs[..i], f)
  {
    CollectSnoc(xs, f, i);
    if f(xs[i]).Some? {
      var e := f(xs[i]).value;
      assert Collect(xs[..i + 1], f) == Collect(xs[..i], f) + [(e.0, e.1)];
      PutAllSnoc(Empty(), Collect(xs[..i], f), e.0, e.1);
    } else {
      assert Collect(xs[..i + 1], f) == Collect(xs[..i], f);
    }
  }

  /** Three `if (!map.has(k)) map.set(k, v)` steps in a row. */
  lemma PutNewThree<K, V>(o: OMap<K, V>, k0: K, v0: V, k1: K, v1: V, k2: K, v2: V, k: K)
    requires Valid(o)
    ensures k in PutNewAll(o, [(k0, v0), (k1, v1), (k2, v2)]).m <==> k in o.m || k == k0 || k == k1 || k == k2
    ensures k in o.m ==> PutNewAll(o, [(k0, v0), (k1, v1), (k2, v2)]).m[k] == o.m[k]
    ensures k !in o.m ==> var r := PutNewAll(o, [(k0, v0), (k1, v1), (k2, v2)]);
      (k == k0 ==> r.m[k] == v0) && (k != k0 && k == k1 ==> r.m[k] == v1)
      && (k != k0 && k != k1 && k == k2 ==> r.m[k] == v2)
  {
    var e := [(k0, v0), (k1, v1), (k2, v2)];
    assert e[..2] == [(k0, v0), (k1, v1)];
    assert e[..2][..1] == [(k0, v0)];
    assert e[..2][..1][..0] == [];
    var o1 := PutNew(o, k0, v0);
    var o2 := PutNew(o1, k1, v1);
    assert PutNewAll(o, e[..2][..1]) == o1;
    assert PutNewAll(o, e[..2]) == o2;
    assert PutNewAll(o, e) == PutNew(o2, k2, v2);
  }

  /** `for (const x of xs) for (const [k, v] of f(x)) if (!map.has(k)) map.set(k, v)`. */
  function PutNewEach<S, K, V>(o: OMap<K, V>, xs: seq<S>, f: S -> seq<(K, V)>): (r: OMap<K, V>)
    requires Valid(o)
    ensures Valid(r)
    decreases |xs|
  {
    if xs == [] then o else PutNewAll(PutNewEach(o, xs[..|xs| - 1], f), f(xs[|xs| - 1]))
  }

  /** Whether item `x`'s own entries would set key `k`. */
  predicate Offers<S, K(==), V>(f: S -> seq<(K, V)>, x: S, k: K)
  {
    k in PutNewAll(Empty(), f(x)).m
  }

  /** For a key still absent, setting absent entries acts as on an empty map. */
  lemma {:induction false} PutNewAllOver<K, V>(t: OMap<K, V>, kvs: seq<(K, V)>, k: K)
    requires Valid(t) && k !in t.m
    ensures k in PutNewAll(t, kvs).m <==> k in PutNewAll(Empty(), kvs).m
    ensures k in PutNewAll(t, kvs).m ==> PutNewAll(t, kvs).m[k] == PutNewAll(Empty(), kvs).m[k]
    decreases |kvs|
  {
    if kvs != [] {
      PutNewAllOver(t, kvs[..|kvs| - 1], k);
    }
  }

  /** Over items, a key is set exactly when it was present or some item
   *  offers it; a present key keeps its value. */
  lemma {:induction false} PutNewEachKeys<S, K, V>(o: OMap<K, V>, xs: seq<S>, f: S -> seq<(K, V)>, k: K)
    requires Valid(o)
    ensures k in PutNewEach(o, xs, f).m <==> k in o.m || SomeOffers(xs, f, k)
    ensures k in o.m ==> PutNewEach(o, xs, f).m[k] == o.m[k]
    decreases |xs|
  {
    if xs != [] {
      var n := |xs| - 1;
      var init := xs[..n];
      var t := PutNewEach(o, init, f);
      PutNewEachKeys(o, init, f, k);
      PutNewAllFirstWins(t, f(xs[n]), k);
      if k !in t.m {
        PutNewAllOver(t, f(xs[n]), k);
      }
      OfferedSnoc(xs, f, k);
    }
  }

  /** Some item of `xs` offers `k`. */
  predicate SomeOffers<S, K(==), V>(xs: seq<S>, f: S -> seq<(K, V)>, k: K)
  {
    exists i :: 0 <= i < |xs| && Offers(f, xs[i], k)
  }

  lemma OfferedSnoc<S, K, V>(xs: seq<S>, f: S -> seq<(K, V)>, k: K)
    requires xs != []
    ensures SomeOffers(xs, f, k) <==> SomeOffers(xs[..|xs| - 1], f, k) || Offers(f, xs[|xs| - 1], k)
  {
    var n := |xs| - 1;
    var init := xs[..n];
    if SomeOffers(xs, f, k) {
      var i :| 0 <= i < |xs| && Offers(f, xs[i], k);
      if i < n {
        assert init[i] == xs[i];
      }
    }
    if SomeOffers(init, f, k) {
      var i :| 0 <= i < n && Offers(f, init[i], k);
      assert xs[i] == init[i];
    }
  }

  /** A key that was absent holds what the first item offering it offers. */
  lemma {:induction false} PutNewEachFirstValue<S, K, V>(o: OMap<K, V>, xs: seq<S>, f: S -> seq<(K, V)>, k: K, i: nat)
    requires Valid(o) && k !in o.m
    requires i < |xs| && Offers(f, xs[i], k) && forall j :: 0 <= j < i ==> !Offers(f, xs[j], k)
    ensures k in PutNewEach(o, xs, f).m && PutNewEach(o, xs, f).m[k] == PutNewAll(Empty(), f(xs[i])).m[k]
    decreases |xs|
  {
    PutNewEachKeys(o, xs, f, k);
    var n := |xs| - 1;
    var init := xs[..n];
    var t := PutNewEach(o, init, f);
    PutNewAllFirstWins(t, f(xs[n]), k);
    if i < n {
      assert init[i] == xs[i];
      assert forall j :: 0 <= j < i ==> init[j] == xs[j];
      PutNewEachFirstValue(o, init, f, k, i);
      PutNewEachKeys(o, init, f, k);
    } else {
      PutNewEachKeys(o, init, f, k);
      assert forall j :: 0 <= j < n ==> init[j] == xs[j];
      assert k !in t.m;
      PutNewAllOver(t, f(xs[n]), k);
    }
  }

  /** `map.values()`, in key order. */
  function Values<K, V>(o: OMap<K, V>): (r: seq<V>)
    requires Valid(o)
    ensures |r| == |o.keys| && forall i :: 0 <= i < |o.keys| ==> r[i] == o.m[o.keys[i]]
  {
    seq(|o.keys|, i requires 0 <= i < |o.keys| => o.m[o.keys[i]])
  }

  lemma ValuesMembership<K, V>(o: OMap<K, V>, v: V)
    requires Valid(o)
    ensures v in Values(o) <==> exists k :: k in o.m && o.m[k] == v
  {
    var vs := Values(o);
    if v in vs {
      var i :| 0 <= i < |vs| && vs[i] == v;
      assert o.keys[i] in o.m;
    }
    if exists k :: k in o.m && o.m[k] == v {
      var k :| k in o.m && o.m[k] == v;
      var i :| 0 <= i < |o.keys| && o.keys[i] == k;
      assert vs[i] == v;
    }
  }
}
