/**
 * The JavaScript array operations both record stores are built from:
 * `find`, `filter`, `some`, the `map(x => matches(x) ? v : x)` update and
 * a stable `sort` by a numeric key.
 */
module Lists {
  import opened Wrappers

  /** `n` copies of `x`, as `'='.repeat(n)` builds a string. */
  function Repeat<T>(x: T, n: nat): (r: seq<T>)
    ensures |r| == n && forall i :: 0 <= i < n ==> r[i] == x
  {
    seq(n, _ => x)
  }

  /** `s.find(p)`: the first element satisfying `p`, or `undefined`. */
  function Find<T>(s: seq<T>, p: T -> bool): (r: Option<T>)
    ensures r.None? <==> forall i :: 0 <= i < |s| ==> !p(s[i])
    ensures r.Some? ==> exists i :: 0 <= i < |s| && s[i] == r.value && p(s[i]) && forall j :: 0 <= j < i ==> !p(s[j])
  {
    if s == [] then None
    else if p(s[0]) then Some(s[0])
    else
      var r := Find(s[1..], p);
      assert r.Some? ==> exists i :: 1 <= i < |s| && s[i] == r.value && p(s[i]) && forall j :: 1 <= j < i ==> !p(s[j]);
      r
  }

  /** Appending an element changes what `find` returns only when nothing before it matched. */
  lemma {:induction false} FindAppend<T>(s: seq<T>, x: T, p: T -> bool)
    ensures Find(s + [x], p) == if Find(s, p).Some? then Find(s, p) else if p(x) then Some(x) else None
    decreases |s|
  {
    if s != [] {
      assert (s + [x])[1..] == s[1..] + [x];
      FindAppend(s[1..], x, p);
    }
  }

  /** `s.filter(p)`: the elements satisfying `p`, in their original order. */
  function Filter<T>(s: seq<T>, p: T -> bool): (r: seq<T>)
    ensures |r| <= |s|
    ensures forall x :: x in r ==> x in s && p(x)
    ensures forall x :: x in s && p(x) ==> x in r
  {
    if s == [] then [] else (if p(s[0]) then [s[0]] else []) + Filter(s[1..], p)
  }

  /** Filtering distributes over concatenation, so it keeps the relative order of what it keeps. */
  lemma {:induction false} FilterAppend<T>(a: seq<T>, b: seq<T>, p: T -> bool)
    ensures Filter(a + b, p) == Filter(a, p) + Filter(b, p)
    decreases |a|
  {
    if a == [] {
      assert a + b == b;
    } else {
      assert (a + b)[1..] == a[1..] + b;
      FilterAppend(a[1..], b, p);
    }
  }

  /** `s.some(p)`. */
  function Any<T>(s: seq<T>, p: T -> bool): (r: bool)
    ensures r <==> exists i :: 0 <= i < |s| && p(s[i])
  {
    if s == [] then false
    else if p(s[0]) then true
    else
      var r := Any(s[1..], p);
      assert r <==> exists i :: 1 <= i < |s| && p(s[i]);
      r
  }

  /**
   * `s.map(x => p(x) ? v : x)`: every element satisfying `p` is replaced by
   * `v`, the others and the length are kept.
   */
  function ReplaceWhere<T>(s: seq<T>, p: T -> bool, v: T): (r: seq<T>)
    ensures |r| == |s|
    ensures forall i :: 0 <= i < |s| && !p(s[i]) ==> r[i] == s[i]
    ensures forall i :: 0 <= i < |s| && p(s[i]) ==> r[i] == v
  {
    seq(|s|, i requires 0 <= i < |s| => if p(s[i]) then v else s[i])
  }

  /** `s.reduce((a, b) => a + b, 0)`: the sum of the elements. */
  function Sum(s: seq<int>): int {
    if s == [] then 0 else Sum(s[..|s| - 1]) + s[|s| - 1]
  }

  /** Elements within `lo..hi` sum to between n·lo and n·hi. */
  lemma {:induction false} SumBounds(s: seq<int>, lo: int, hi: int)
    requires forall i :: 0 <= i < |s| ==> lo <= s[i] <= hi
    ensures |s| * lo <= Sum(s) <= |s| * hi
  {
    if s != [] {
      SumBounds(s[..|s| - 1], lo, hi);
    }
  }

  /** Keys never increase along `s`. */
  predicate Descending<T>(s: seq<T>, key: T -> int) {
    forall i, j :: 0 <= i < j < |s| ==> key(s[i]) >= key(s[j])
  }

  /**
   * Puts `x` into a list already in descending key order, after every
   * element whose key is at least `key(x)`.
   */
  function InsertDescending<T>(s: seq<T>, x: T, key: T -> int): (r: seq<T>)
    requires Descending(s, key)
    ensures Descending(r, key)
    ensures multiset(r) == multiset(s) + multiset{x}
  {
    if s == [] || key(s[|s| - 1]) >= key(x) then
      DescendingSnoc(s, x, key);
      s + [x]
    else
      var n := |s| - 1;
      var front := InsertDescending(s[..n], x, key);
      assert s == s[..n] + [s[n]];
      KeysAtLeast(front, s[..n] + [x], key, key(s[n]));
      DescendingSnoc(front, s[n], key);
      front + [s[n]]
  }

  /** A descending list stays descending with an element no larger than all of it at the end. */
  lemma DescendingSnoc<T>(s: seq<T>, y: T, key: T -> int)
    requires Descending(s, key)
    requires forall i :: 0 <= i < |s| ==> key(s[i]) >= key(y)
    ensures Descending(s + [y], key)
  {
  }

  /** Rearranging a list whose keys are all at least `bound` keeps them so. */
  lemma KeysAtLeast<T>(t: seq<T>, u: seq<T>, key: T -> int, bound: int)
    requires multiset(t) == multiset(u)
    requires forall i :: 0 <= i < |u| ==> key(u[i]) >= bound
    ensures forall i :: 0 <= i < |t| ==> key(t[i]) >= bound
  {
    forall i | 0 <= i < |t|
      ensures key(t[i]) >= bound
    {
      assert t[i] in multiset(u);
      var j :| 0 <= j < |u| && u[j] == t[i];
    }
  }

  /**
   * `s.sort((a, b) => key(b) - key(a))`: the same elements, in descending key
   * order. Elements with equal keys keep their relative order, as the
   * language's `sort` is stable (`SortKeepsTies`).
   */
  function SortDescending<T>(s: seq<T>, key: T -> int): (r: seq<T>)
    ensures Descending(r, key)
    ensures multiset(r) == multiset(s)
  {
    if s == [] then []
    else
      var n := |s| - 1;
      assert s == s[..n] + [s[n]];
      InsertDescending(SortDescending(s[..n], key), s[n], key)
  }

  /** Holds of the elements whose key is `v`. */
  function HasKey<T>(key: T -> int, v: int): T -> bool {
    x => key(x) == v
  }

  /**
   * Inserting `x` puts it after every element with its key, and keeps the
   * order of the elements with any one key.
   */
  lemma {:induction false} InsertKeepsTies<T>(s: seq<T>, x: T, key: T -> int, v: int)
    requires Descending(s, key)
    ensures Filter(InsertDescending(s, x, key), HasKey(key, v))
            == Filter(s, HasKey(key, v)) + Filter([x], HasKey(key, v))
    decreases |s|
  {
    var p := HasKey(key, v);
    if s == [] || key(s[|s| - 1]) >= key(x) {
      FilterAppend(s, [x], p);
    } else {
      var n := |s| - 1;
      assert s == s[..n] + [s[n]];
      assert Descending(s[..n], key);
      var front := InsertDescending(s[..n], x, key);
      assert InsertDescending(s, x, key) == front + [s[n]];
      InsertKeepsTies(s[..n], x, key, v);
      FilterAppend(front, [s[n]], p);
      FilterAppend(s[..n], [s[n]], p);
      FilterOne(x, p);
      FilterOne(s[n], p);
      calc {
        Filter(InsertDescending(s, x, key), p);
        Filter(front, p) + Filter([s[n]], p);
        Filter(s[..n], p) + Filter([x], p) + Filter([s[n]], p);
        { SwapEmpty(Filter(s[..n], p), Filter([x], p), Filter([s[n]], p)); }
        Filter(s[..n], p) + Filter([s[n]], p) + Filter([x], p);
        Filter(s, p) + Filter([x], p);
      }
    }
  }

  lemma SwapEmpty<T>(a: seq<T>, b: seq<T>, c: seq<T>)
    requires b == [] || c == []
    ensures a + b + c == a + c + b
  {
    if b == [] {
      assert a + b == a;
    } else {
      assert a + c == a;
    }
  }

  lemma FilterOne<T>(y: T, p: T -> bool)
    ensures Filter([y], p) == if p(y) then [y] else []
  {
    assert [y][1..] == [];
  }

  /**
   * The sort is stable: for every key, the elements with that key come out
   * in the order they had in `s`.
   */
  lemma {:induction false} SortKeepsTies<T>(s: seq<T>, key: T -> int, v: int)
    ensures Filter(SortDescending(s, key), HasKey(key, v)) == Filter(s, HasKey(key, v))
    decreases |s|
  {
    if s != [] {
      var n := |s| - 1;
      assert s == s[..n] + [s[n]];
      SortKeepsTies(s[..n], key, v);
      InsertKeepsTies(SortDescending(s[..n], key), s[n], key, v);
      FilterAppend(s[..n], [s[n]], HasKey(key, v));
    }
  }

  /** An element whose key exceeds every key already in the list goes first. */
  lemma {:induction false} InsertNewest<T>(s: seq<T>, x: T, key: T -> int)
    requires Descending(s, key)
    requires forall i :: 0 <= i < |s| ==> key(s[i]) < key(x)
    ensures InsertDescending(s, x, key) == [x] + s
  {
    if s != [] {
      var n := |s| - 1;
      assert Descending(s[..n], key);
      InsertNewest(s[..n], x, key);
    }
  }

  /** Appending an element to a list sorts as inserting it into the sorted list. */
  lemma SortAppend<T>(s: seq<T>, x: T, key: T -> int)
    ensures SortDescending(s + [x], key) == InsertDescending(SortDescending(s, key), x, key)
  {
    assert (s + [x])[..|s|] == s;
  }
}
