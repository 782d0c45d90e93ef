// Stable sorting by a lexicographic integer key. Python's `list.sort(key=…)`
// and `sorted(…)` on tuples and strings, and the ES2019 `Array.prototype.sort`
// with a subtracting comparator, are all stable sorts by such a key.
module Sorting {
  import opened Seqs

  /** Lexicographic order on integer sequences (a proper prefix is smaller). */
  predicate LexLe(a: seq<int>, b: seq<int>)
    decreases |a|
  {
    a == [] || (b != [] && (a[0] < b[0] || (a[0] == b[0] && LexLe(a[1..], b[1..]))))
  }

  lemma {:induction false} LexLeTotal(a: seq<int>, b: seq<int>)
    ensures LexLe(a, b) || LexLe(b, a)
    decreases |a|
  {
    if a != [] && b != [] && a[0] == b[0] {
      LexLeTotal(a[1..], b[1..]);
    }
  }

  lemma {:induction false} LexLeTransitive(a: seq<int>, b: seq<int>, c: seq<int>)
    requires LexLe(a, b) && LexLe(b, c)
    ensures LexLe(a, c)
    decreases |a|
  {
    if a != [] && a[0] == b[0] && b[0] == c[0] {
      LexLeTransitive(a[1..], b[1..], c[1..]);
    }
  }

  /** Every element's key is at most its successor's. */
  predicate SortedBy<T>(s: seq<T>, key: T -> seq<int>)
  {
    forall i :: 0 <= i < |s| - 1 ==> LexLe(key(s[i]), key(s[i + 1]))
  }

  /** Insert `x` before the first element whose key is at least its own. */
  function Insert<T>(x: T, s: seq<T>, key: T -> seq<int>): (r: seq<T>)
    ensures multiset(r) == multiset(s) + multiset{x}
    decreases |s|
  {
    if s == [] || LexLe(key(x), key(s[0])) then [x] + s
    else
      var rest := Insert(x, s[1..], key);
      assert s == [s[0]] + s[1..];
      [s[0]] + rest
  }

  lemma {:induction false} InsertSorted<T>(x: T, s: seq<T>, key: T -> seq<int>)
    requires SortedBy(s, key)
    ensures Insert(x, s, key) != []
    ensures SortedBy(Insert(x, s, key), key)
    ensures Insert(x, s, key)[0] == x || (s != [] && Insert(x, s, key)[0] == s[0])
    decreases |s|
  {
    if s != [] && !LexLe(key(x), key(s[0])) {
      LexLeTotal(key(x), key(s[0]));
      var t := s[1..];
      assert SortedBy(t, key) by {
        forall i | 0 <= i < |t| - 1 ensures LexLe(key(t[i]), key(t[i + 1])) {
          assert t[i] == s[i + 1] && t[i + 1] == s[i + 2];
        }
      }
      InsertSorted(x, t, key);
      var r := Insert(x, t, key);
      assert LexLe(key(s[0]), key(r[0]));
      assert Insert(x, s, key) == [s[0]] + r;
    }
  }

  /** The stable sort of `s` by `key`: equal keys keep their input order. */
  function SortBy<T>(s: seq<T>, key: T -> seq<int>): (r: seq<T>)
    ensures multiset(r) == multiset(s)
    decreases |s|
  {
    if s == [] then []
    else
      var rest := SortBy(s[1..], key);
      assert s == [s[0]] + s[1..];
      Insert(s[0], rest, key)
  }

  lemma {:induction false} SortBySorted<T>(s: seq<T>, key: T -> seq<int>)
    ensures SortedBy(SortBy(s, key), key)
    decreases |s|
  {
    if s != [] {
      SortBySorted(s[1..], key);
      InsertSorted(s[0], SortBy(s[1..], key), key);
    }
  }

  lemma {:induction false} LexLeReflexive(a: seq<int>)
    ensures LexLe(a, a)
    decreases |a|
  {
    if a != [] {
      LexLeReflexive(a[1..]);
    }
  }

  /** The elements whose key is `k`. */
  function KeyIs<T>(key: T -> seq<int>, k: seq<int>): T -> bool
  {
    (y: T) => key(y) == k
  }

  lemma FilterCons<T>(x: T, s: seq<T>, p: T -> bool)
    ensures Filter([x] + s, p) == (if p(x) then [x] else []) + Filter(s, p)
  {
    FilterConcat([x], s, p);
    FilterSingle(x, p);
  }

  /** Insertion goes in front of every element with the same key, and
   *  keeps the order of the others: among the elements of any one key,
   *  `x` comes first and the rest keep their order. */
  lemma {:induction false} InsertStable<T>(x: T, s: seq<T>, key: T -> seq<int>, k: seq<int>)
    ensures Filter(Insert(x, s, key), KeyIs(key, k))
            == (if key(x) == k then [x] else []) + Filter(s, KeyIs(key, k))
    decreases |s|
  {
    if s == [] || LexLe(key(x), key(s[0])) {
      InsertFront(x, s, key, k);
    } else {
      LexLeReflexive(key(x));
      InsertStable(x, s[1..], key, k);
      assert Insert(x, s, key) == [s[0]] + Insert(x, s[1..], key);
      var p := KeyIs(key, k);
      assert p(s[0]) == (key(s[0]) == k) && p(x) == (key(x) == k);
      FilterSkip(s[0], s[1..], Insert(x, s[1..], key), if key(x) == k then [x] else [], p);
      assert s == [s[0]] + s[1..];
    }
  }

  lemma InsertFront<T>(x: T, s: seq<T>, key: T -> seq<int>, k: seq<int>)
    requires s == [] || LexLe(key(x), key(s[0]))
    ensures Filter(Insert(x, s, key), KeyIs(key, k))
            == (if key(x) == k then [x] else []) + Filter(s, KeyIs(key, k))
  {
    var p := KeyIs(key, k);
    assert p(x) == (key(x) == k);
    assert Insert(x, s, key) == [x] + s;
    FilterCons(x, s, p);
  }

  /** Passing an element that `p` drops, or passing any element when
   *  nothing is kept ahead of it, commutes with filtering. */
  lemma FilterSkip<T>(a: T, t: seq<T>, rest: seq<T>, xs: seq<T>, p: T -> bool)
    requires !p(a) || xs == []
    requires Filter(rest, p) == xs + Filter(t, p)
    ensures Filter([a] + rest, p) == xs + Filter([a] + t, p)
  {
    FilterCons(a, rest, p);
    FilterCons(a, t, p);
    if p(a) {
      assert xs == [];
      assert Filter(rest, p) == Filter(t, p);
      assert Filter([a] + rest, p) == [a] + Filter(rest, p);
      assert Filter([a] + t, p) == [a] + Filter(t, p);
    } else {
      assert Filter([a] + rest, p) == Filter(rest, p);
      assert Filter([a] + t, p) == Filter(t, p);
    }
  }

  /** `SortBy` is stable: the elements of every key keep their input order. */
  lemma {:induction false} SortByStable<T>(s: seq<T>, key: T -> seq<int>, k: seq<int>)
    ensures Filter(SortBy(s, key), KeyIs(key, k)) == Filter(s, KeyIs(key, k))
    decreases |s|
  {
    if s != [] {
      SortByStable(s[1..], key, k);
      InsertStable(s[0], SortBy(s[1..], key), key, k);
      FilterCons(s[0], s[1..], KeyIs(key, k));
      assert s == [s[0]] + s[1..];
    }
  }

  lemma SortByLength<T>(s: seq<T>, key: T -> seq<int>)
    ensures |SortBy(s, key)| == |s|
  {
    assert |multiset(SortBy(s, key))| == |multiset(s)|;
  }

  /** Python and JavaScript compare strings code unit by code unit. */
  function CharCodes(s: string): seq<int>
  {
    seq(|s|, i requires 0 <= i < |s| => s[i] as int)
  }
}
