// Sequence helpers: flattening, order-preserving filters, prefixes
// (`slice(0, n)` / `[:n]`) and distinctness.
module Seqs {
  import opened Wrappers

  function Flatten<T>(ss: seq<seq<T>>): seq<T>
    decreases |ss|
  {
    if ss == [] then [] else Flatten(ss[..|ss| - 1]) + ss[|ss| - 1]
  }

  lemma {:induction false} FlattenConcat<T>(a: seq<seq<T>>, b: seq<seq<T>>)
    ensures Flatten(a + b) == Flatten(a) + Flatten(b)
    decreases |b|
  {
    if b == [] {
      assert a + b == a;
    } else {
      var b' := b[..|b| - 1];
      assert (a + b)[..|a + b| - 1] == a + b';
      assert (a + b)[|a + b| - 1] == b[|b| - 1];
      FlattenConcat(a, b');
      assert Flatten(a + b) == Flatten(a + b') + b[|b| - 1];
      assert Flatten(b) == Flatten(b') + b[|b| - 1];
      assert Flatten(a + b) == (Flatten(a) + Flatten(b')) + b[|b| - 1];
    }
  }

  lemma FlattenSnoc<T>(ss: seq<seq<T>>, s: seq<T>)
    ensures Flatten(ss + [s]) == Flatten(ss) + s
  {
    assert (ss + [s])[..|ss|] == ss;
  }

  lemma PrefixSnoc<T>(s: seq<T>, i: nat)
    requires i < |s|
    ensures s[..i + 1] == s[..i] + [s[i]]
  {
  }

  lemma FlattenPrepend<T>(s: seq<T>, ss: seq<seq<T>>)
    ensures Flatten([s] + ss) == s + Flatten(ss)
  {
    FlattenConcat([s], ss);
    assert Flatten([s]) == Flatten([s][..0]) + s;
  }

  /** An element of the concatenation lies in one of the pieces, and every
   *  element of a piece is in the concatenation. */
  lemma {:induction false} FlattenMembership<T>(ss: seq<seq<T>>, x: T)
    ensures x in Flatten(ss) <==> exists i :: 0 <= i < |ss| && x in ss[i]
    decreases |ss|
  {
    if ss != [] {
      var n := |ss| - 1;
      FlattenMembership(ss[..n], x);
      if exists i :: 0 <= i < |ss| && x in ss[i] {
        var i :| 0 <= i < |ss| && x in ss[i];
        if i < n {
          assert ss[..n][i] == ss[i];
        }
      }
      if exists i :: 0 <= i < n && x in ss[..n][i] {
        var i :| 0 <= i < n && x in ss[..n][i];
        assert ss[i] == ss[..n][i];
      }
    }
  }

  /** The elements of `s` satisfying `p`, in their original order. */
  function Filter<T>(s: seq<T>, p: T -> bool): (r: seq<T>)
    ensures |r| <= |s|
    ensures forall x :: x in r ==> x in s && p(x)
    decreases |s|
  {
    if s == [] then []
    else
      var init := Filter(s[..|s| - 1], p);
      assert forall x :: x in s[..|s| - 1] ==> x in s;
      init + (if p(s[|s| - 1]) then [s[|s| - 1]] else [])
  }

  lemma {:induction false} FilterComplete<T>(s: seq<T>, p: T -> bool, x: T)
    requires x in s && p(x)
    ensures x in Filter(s, p)
    decreases |s|
  {
    if s[|s| - 1] != x {
      assert x in s[..|s| - 1];
      FilterComplete(s[..|s| - 1], p, x);
    }
  }

  lemma {:induction false} FilterConcat<T>(a: seq<T>, b: seq<T>, p: T -> bool)
    ensures Filter(a + b, p) == Filter(a, p) + Filter(b, p)
    decreases |b|
  {
    if b == [] {
      assert a + b == a;
    } else {
      var b' := b[..|b| - 1];
      assert (a + b)[..|a + b| - 1] == a + b';
      assert (a + b)[|a + b| - 1] == b[|b| - 1];
      FilterConcat(a, b', p);
      var last := if p(b[|b| - 1]) then [b[|b| - 1]] else [];
      assert Filter(a + b, p) == Filter(a + b', p) + last;
      assert Filter(b, p) == Filter(b', p) + last;
      assert Filter(a + b, p) == (Filter(a, p) + Filter(b', p)) + last;
    }
  }

  lemma FilterSingle<T>(x: T, p: T -> bool)
    ensures Filter([x], p) == if p(x) then [x] else []
  {
    assert [x][..0] == [];
  }

  lemma FilterSnoc<T>(s: seq<T>, p: T -> bool, i: nat)
    requires i < |s|
    ensures Filter(s[..i + 1], p) == Filter(s[..i], p) + if p(s[i]) then [s[i]] else []
  {
    assert s[..i + 1][..i] == s[..i];
  }

  lemma {:induction false} FilterKeepsDistinct<T>(s: seq<T>, p: T -> bool)
    requires Distinct(s)
    ensures Distinct(Filter(s, p))
    decreases |s|
  {
    if s != [] {
      var init := s[..|s| - 1];
      assert Distinct(init);
      FilterKeepsDistinct(init, p);
      assert s[|s| - 1] !in init;
    }
  }

  /** Splitting by a predicate and by its negation accounts for every element. */
  lemma {:induction false} FilterComplementLength<T>(s: seq<T>, p: T -> bool, q: T -> bool)
    requires forall x :: q(x) == !p(x)
    ensures |Filter(s, p)| + |Filter(s, q)| == |s|
    decreases |s|
  {
    if s != [] {
      FilterComplementLength(s[..|s| - 1], p, q);
    }
  }

  /** Number of elements satisfying `p`. */
  function Count<T>(s: seq<T>, p: T -> bool): nat
  {
    |Filter(s, p)|
  }

  lemma CountSnoc<T>(s: seq<T>, x: T, p: T -> bool)
    ensures Count(s + [x], p) == Count(s, p) + if p(x) then 1 else 0
  {
    FilterConcat(s, [x], p);
    FilterSingle(x, p);
  }

  /** `s.slice(0, n)` / `s[:n]`. */
  function Take<T>(s: seq<T>, n: nat): (r: seq<T>)
    ensures |r| == if |s| <= n then |s| else n
    ensures r == s[..|r|]
  {
    if |s| <= n then s else s[..n]
  }

  /** `f` applied to every element, in order. */
  function MapSeq<S, T>(xs: seq<S>, f: S -> T): (r: seq<T>)
    ensures |r| == |xs|
  {
    seq(|xs|, i requires 0 <= i < |xs| => f(xs[i]))
  }

  lemma MapSeqSnoc<S, T>(xs: seq<S>, f: S -> T, i: nat)
    requires i < |xs|
    ensures MapSeq(xs[..i + 1], f) == MapSeq(xs[..i], f) + [f(xs[i])]
  {
  }

  /** The results of `f` that are present, in order: a loop that pushes a
   *  record for some of its inputs and `continue`s past the others. */
  function Collect<S, L>(xs: seq<S>, f: S -> Option<L>): (r: seq<L>)
    ensures |r| <= |xs|
    decreases |xs|
  {
    if xs == [] then []
    else
      var init := Collect(xs[..|xs| - 1], f);
      match f(xs[|xs| - 1])
      case None => init
      case Some(l) => init + [l]
  }

  lemma CollectSnoc<S, L>(xs: seq<S>, f: S -> Option<L>, i: nat)
    requires i < |xs|
    ensures Collect(xs[..i + 1], f) == Collect(xs[..i], f) + (if f(xs[i]).Some? then [f(xs[i]).value] else [])
  {
    assert xs[..i + 1][..i] == xs[..i];
  }

  /** `CollectSnoc` for a record `o` already computed from the last input. */
  lemma CollectSnocWith<S, L>(xs: seq<S>, f: S -> Option<L>, i: nat, o: Option<L>)
    requires i < |xs| && o == f(xs[i])
    ensures Collect(xs[..i + 1], f) == Collect(xs[..i], f) + (if o.Some? then [o.value] else [])
  {
    CollectSnoc(xs, f, i);
  }

  /** Every collected record comes from some input, and every input with a
   *  record contributes it. */
  lemma {:induction false} CollectMembership<S, L>(xs: seq<S>, f: S -> Option<L>, l: L)
    ensures l in Collect(xs, f) <==> exists i :: 0 <= i < |xs| && f(xs[i]) == Some(l)
    decreases |xs|
  {
    if xs != [] {
      var init := xs[..|xs| - 1];
      CollectMembership(init, f, l);
      if exists i :: 0 <= i < |xs| && f(xs[i]) == Some(l) {
        var i :| 0 <= i < |xs| && f(xs[i]) == Some(l);
        if i < |init| {
          assert init[i] == xs[i];
        }
      }
      if exists i :: 0 <= i < |init| && f(init[i]) == Some(l) {
        var i :| 0 <= i < |init| && f(init[i]) == Some(l);
        assert xs[i] == init[i];
      }
    }
  }

  /** `for (const x of xs) set.add(x)` on an insertion-ordered set kept as
   *  the sequence of its elements. */
  function AddNew<T(==)>(d: seq<T>, xs: seq<T>): seq<T>
    decreases |xs|
  {
    if xs == [] then d
    else
      var r := AddNew(d, xs[..|xs| - 1]);
      if xs[|xs| - 1] in r then r else r + [xs[|xs| - 1]]
  }

  lemma {:induction false} AddNewMembership<T>(d: seq<T>, xs: seq<T>, x: T)
    ensures x in AddNew(d, xs) <==> x in d || x in xs
    decreases |xs|
  {
    if xs != [] {
      var init := xs[..|xs| - 1];
      AddNewMembership(d, init, x);
      assert xs == init + [xs[|xs| - 1]];
    }
  }

  /** Adding never duplicates an element, and what was there stays in front. */
  lemma {:induction false} AddNewDistinct<T>(d: seq<T>, xs: seq<T>)
    requires Distinct(d)
    ensures Distinct(AddNew(d, xs))
    ensures |AddNew(d, xs)| >= |d| && AddNew(d, xs)[..|d|] == d
    decreases |xs|
  {
    if xs != [] {
      AddNewDistinct(d, xs[..|xs| - 1]);
    }
  }

  lemma {:induction false} AddNewConcat<T>(d: seq<T>, a: seq<T>, b: seq<T>)
    ensures AddNew(d, a + b) == AddNew(AddNew(d, a), b)
    decreases |b|
  {
    if b == [] {
      assert a + b == a;
    } else {
      var b' := b[..|b| - 1];
      assert (a + b)[..|a + b| - 1] == a + b';
      assert (a + b)[|a + b| - 1] == b[|b| - 1];
      AddNewConcat(d, a, b');
    }
  }

  predicate Distinct<T(==)>(s: seq<T>)
  {
    forall i, j :: 0 <= i < j < |s| ==> s[i] != s[j]
  }

  function Elems<T>(s: seq<T>): set<T>
  {
    set x | x in s
  }
}
