// Counters: `Counter()` / `defaultdict(int)` in Python and
// `counts[k] = (counts[k] || 0) + 1` in TypeScript.
module Tally {
  import opened Seqs

  function Lookup<K>(m: map<K, nat>, k: K): nat
  {
    if k in m then m[k] else 0
  }

  function Increment<K>(m: map<K, nat>, k: K): map<K, nat>
  {
    m[k := Lookup(m, k) + 1]
  }

  /** One increment per element of `ks`, in order. */
  function CountKeys<K>(ks: seq<K>): map<K, nat>
    decreases |ks|
  {
    if ks == [] then map[] else Increment(CountKeys(ks[..|ks| - 1]), ks[|ks| - 1])
  }

  lemma CountKeysSnoc<K>(ks: seq<K>, k: K)
    ensures CountKeys(ks + [k]) == Increment(CountKeys(ks), k)
  {
    assert (ks + [k])[..|ks|] == ks;
  }

  /** The counter holds exactly the multiplicity of every key. */
  lemma {:induction false} CountKeysIsMultiplicity<K>(ks: seq<K>)
    ensures forall k :: k in CountKeys(ks) <==> k in multiset(ks)
    ensures forall k :: Lookup(CountKeys(ks), k) == multiset(ks)[k]
    decreases |ks|
  {
    if ks != [] {
      var init := ks[..|ks| - 1];
      CountKeysIsMultiplicity(init);
      assert ks == init + [ks[|ks| - 1]];
      assert multiset(ks) == multiset(init) + multiset{ks[|ks| - 1]};
    }
  }

  // ---------------------------------------------------------------- totals

  ghost function Pick<K>(m: map<K, nat>): K
    requires m != map[]
  {
    var k :| k in m; k
  }

  /** Sum of all counts. */
  ghost function SumMap<K>(m: map<K, nat>): nat
    decreases |m.Keys|
  {
    if m == map[] then 0
    else
      var k := Pick(m);
      assert (m - {k}).Keys == m.Keys - {k};
      m[k] + SumMap(m - {k})
  }

  lemma {:induction false} SumMapRemove<K>(m: map<K, nat>, k: K)
    requires k in m
    ensures SumMap(m) == m[k] + SumMap(m - {k})
    decreases |m.Keys|
  {
    var j := Pick(m);
    if j != k {
      assert (m - {j}).Keys == m.Keys - {j};
      assert (m - {k}).Keys == m.Keys - {k};
      SumMapRemove(m - {j}, k);
      SumMapRemove(m - {k}, j);
      assert m - {j} - {k} == m - {k} - {j};
    }
  }

  lemma SumMapIncrement<K>(m: map<K, nat>, k: K)
    ensures SumMap(Increment(m, k)) == SumMap(m) + 1
  {
    var m' := Increment(m, k);
    SumMapRemove(m', k);
    assert m' - {k} == m - {k};
    if k in m {
      SumMapRemove(m, k);
    } else {
      assert m - {k} == m;
    }
  }

  /** A counter built from `ks` sums to `|ks|`. */
  lemma {:induction false} SumCountKeys<K>(ks: seq<K>)
    ensures SumMap(CountKeys(ks)) == |ks|
    decreases |ks|
  {
    if ks != [] {
      SumCountKeys(ks[..|ks| - 1]);
      SumMapIncrement(CountKeys(ks[..|ks| - 1]), ks[|ks| - 1]);
    }
  }

  /** Sum of the counts of the keys listed in `ks` (a zero-filled table). */
  function SumOver<K>(m: map<K, nat>, ks: seq<K>): nat
    decreases |ks|
  {
    if ks == [] then 0 else SumOver(m, ks[..|ks| - 1]) + Lookup(m, ks[|ks| - 1])
  }

  lemma {:induction false} SumOverAgree<K>(m: map<K, nat>, m': map<K, nat>, ks: seq<K>)
    requires forall i :: 0 <= i < |ks| ==> Lookup(m, ks[i]) == Lookup(m', ks[i])
    ensures SumOver(m, ks) == SumOver(m', ks)
    decreases |ks|
  {
    if ks != [] {
      SumOverAgree(m, m', ks[..|ks| - 1]);
    }
  }

  /** A table listing every key of a counter once shows all of its counts. */
  lemma {:induction false} SumOverKeys<K>(m: map<K, nat>, ks: seq<K>)
    requires Distinct(ks)
    requires forall k :: k in m ==> k in ks
    ensures SumOver(m, ks) == SumMap(m)
    decreases |ks|
  {
    if ks == [] {
      assert m == map[];
    } else {
      var init := ks[..|ks| - 1];
      var k := ks[|ks| - 1];
      var m' := m - {k};
      assert k !in init;
      SumOverAgree(m, m', init);
      assert forall j :: j in m' ==> j in init by {
        forall j | j in m' ensures j in init {
          assert j in ks && j != k;
          var i :| 0 <= i < |ks| && ks[i] == j;
          assert init[i] == j;
        }
      }
      SumOverKeys(m', init);
      if k in m {
        SumMapRemove(m, k);
      } else {
        assert m' == m;
      }
    }
  }

  /** The counter read out for a fixed list of keys, missing keys as 0. */
  function Table<K>(m: map<K, nat>, ks: seq<K>): (t: seq<(K, nat)>)
    ensures |t| == |ks|
  {
    seq(|ks|, i requires 0 <= i < |ks| => (ks[i], Lookup(m, ks[i])))
  }

  function TableTotal<K>(t: seq<(K, nat)>): nat
    decreases |t|
  {
    if t == [] then 0 else TableTotal(t[..|t| - 1]) + t[|t| - 1].1
  }

  lemma {:induction false} TableTotalIsSumOver<K>(m: map<K, nat>, ks: seq<K>)
    ensures TableTotal(Table(m, ks)) == SumOver(m, ks)
    decreases |ks|
  {
    if ks != [] {
      var init := ks[..|ks| - 1];
      TableTotalIsSumOver(m, init);
      assert Table(m, ks)[..|ks| - 1] == Table(m, init);
    }
  }

  /** Key-wise sum of two counters. */
  function Merge<K>(x: map<K, nat>, y: map<K, nat>): map<K, nat>
  {
    map k | k in x.Keys + y.Keys :: Lookup(x, k) + Lookup(y, k)
  }

  /** Counting two batches one after the other is counting them together. */
  lemma CountKeysConcat<K>(a: seq<K>, b: seq<K>)
    ensures CountKeys(a + b) == Merge(CountKeys(a), CountKeys(b))
  {
    CountKeysIsMultiplicity(a);
    CountKeysIsMultiplicity(b);
    CountKeysIsMultiplicity(a + b);
    assert multiset(a + b) == multiset(a) + multiset(b);
    var l, r := CountKeys(a + b), Merge(CountKeys(a), CountKeys(b));
    assert forall k :: k in l <==> k in r;
    forall k | k in l ensures k in r && l[k] == r[k] {
      assert Lookup(l, k) == l[k];
    }
  }

  // ---------------------------------------------------------------- per-session tags

  /** One increment for each tag of a session's tag set. */
  function AddOnce<K>(m: map<K, nat>, tags: seq<K>): map<K, nat>
    decreases |tags|
  {
    if tags == [] then m else Increment(AddOnce(m, tags[..|tags| - 1]), tags[|tags| - 1])
  }

  lemma {:induction false} AddOnceLookup<K>(m: map<K, nat>, tags: seq<K>, t: K)
    requires Distinct(tags)
    ensures Lookup(AddOnce(m, tags), t) == Lookup(m, t) + (if t in tags then 1 else 0)
    decreases |tags|
  {
    if tags != [] {
      var init := tags[..|tags| - 1];
      AddOnceLookup(m, init, t);
      assert t in tags <==> t in init || t == tags[|tags| - 1];
      assert t == tags[|tags| - 1] ==> t !in init;
    }
  }

  /** The whole-run tag counter: every session adds one per tag it has. */
  function TagTally<K>(sessions: seq<seq<K>>): map<K, nat>
    decreases |sessions|
  {
    if sessions == [] then map[] else AddOnce(TagTally(sessions[..|sessions| - 1]), sessions[|sessions| - 1])
  }

  lemma TagTallySnoc<K>(sessions: seq<seq<K>>, tags: seq<K>)
    ensures TagTally(sessions + [tags]) == AddOnce(TagTally(sessions), tags)
  {
    assert (sessions + [tags])[..|sessions|] == sessions;
  }

  /** Number of sessions whose tag set holds `t`. */
  function SessionsWith<K(==)>(sessions: seq<seq<K>>, t: K): nat
    decreases |sessions|
  {
    if sessions == [] then 0
    else SessionsWith(sessions[..|sessions| - 1], t) + (if t in sessions[|sessions| - 1] then 1 else 0)
  }

  /** Each tag is counted once per session that mentions it, never more. */
  lemma {:induction false} TagTallyCountsSessions<K>(sessions: seq<seq<K>>, t: K)
    requires forall i :: 0 <= i < |sessions| ==> Distinct(sessions[i])
    ensures Lookup(TagTally(sessions), t) == SessionsWith(sessions, t) <= |sessions|
    decreases |sessions|
  {
    if sessions != [] {
      TagTallyCountsSessions(sessions[..|sessions| - 1], t);
      AddOnceLookup(TagTally(sessions[..|sessions| - 1]), sessions[|sessions| - 1], t);
    }
  }
}
