/** The array operations of the runtime the model relies on:
    `Array.prototype.filter`, the stable `Array.prototype.sort` with a
    comparator of the form `(a, b) => key(b) - key(a)` (largest key first), and
    `slice(0, n)`. */
module Lists {

  /** `filter`: the elements satisfying `keep`, in their order. */
  function Filter<T(!new)>(s: seq<T>, keep: T -> bool): (r: seq<T>)
    ensures |r| <= |s|
    ensures forall x :: x in r <==> x in s && keep(x)
  {
    if s == [] then []
    else
      assert forall x :: x in s <==> x == s[0] || x in s[1..];
      (if keep(s[0]) then [s[0]] else []) + Filter(s[1..], keep)
  }

  /** Filtering with a narrower condition after a wider one is filtering with
      the narrower condition alone. */
  lemma {:induction false} FilterNarrow<T(!new)>(s: seq<T>, wider: T -> bool, keep: T -> bool)
    requires forall x :: keep(x) ==> wider(x)
    ensures Filter(Filter(s, wider), keep) == Filter(s, keep)
  {
    if s != [] {
      FilterNarrow(s[1..], wider, keep);
      var rest := Filter(s[1..], wider);
      if wider(s[0]) {
        assert Filter(s, wider) == [s[0]] + rest;
        assert ([s[0]] + rest)[1..] == rest;
        assert Filter([s[0]] + rest, keep) == (if keep(s[0]) then [s[0]] else []) + Filter(rest, keep);
      } else {
        assert !keep(s[0]);
        assert Filter(s, wider) == rest;
      }
    }
  }

  /** `map(x => sel(x) ? f(x) : x)`: the elements selected by `sel` are
      replaced by their image under `f`; the others stay as they are, in place. */
  function MapWhere<T>(s: seq<T>, sel: T -> bool, f: T -> T): (r: seq<T>)
    ensures |r| == |s|
    ensures forall i :: 0 <= i < |s| ==> r[i] == if sel(s[i]) then f(s[i]) else s[i]
  {
    if s == [] then []
    else [if sel(s[0]) then f(s[0]) else s[0]] + MapWhere(s[1..], sel, f)
  }

  /** Filtering after a conditional map that moves every selected element out
      of `keep` is filtering out the selected elements. */
  lemma {:induction false} FilterAfterMapWhere<T(!new)>(s: seq<T>, sel: T -> bool, f: T -> T, keep: T -> bool,
                                                        keepUnselected: T -> bool)
    requires forall x :: sel(x) ==> !keep(f(x))
    requires forall x :: keepUnselected(x) == (keep(x) && !sel(x))
    ensures Filter(MapWhere(s, sel, f), keep) == Filter(s, keepUnselected)
  {
    if s != [] {
      FilterAfterMapWhere(s[1..], sel, f, keep, keepUnselected);
      var m := MapWhere(s, sel, f);
      assert m[1..] == MapWhere(s[1..], sel, f);
    }
  }

  /** Applying an idempotent update twice to the same selection is applying it once. */
  lemma MapWhereIdempotent<T>(s: seq<T>, sel: T -> bool, f: T -> T)
    requires forall x :: sel(x) ==> sel(f(x)) && f(f(x)) == f(x)
    ensures MapWhere(MapWhere(s, sel, f), sel, f) == MapWhere(s, sel, f)
  {
  }

  /** Nothing passes a test no element meets. */
  lemma {:induction false} FilterNone<T(!new)>(s: seq<T>, keep: T -> bool)
    requires forall x :: x in s ==> !keep(x)
    ensures Filter(s, keep) == []
  {
    if s != [] {
      assert s[0] in s;
      FilterNone(s[1..], keep);
    }
  }

  /** Regrouping a concatenation. Stated once for all element types, so that
      using it on text compares no characters. */
  lemma ConcatAssoc<T>(a: seq<T>, b: seq<T>, c: seq<T>, d: seq<T>)
    ensures a + (b + c + d) == a + b + c + d
    ensures a + b + (c + d) == a + b + c + d
  {
  }

  /** Non-increasing by `key`. */
  predicate SortedDesc<T>(s: seq<T>, key: T -> int)
  {
    forall i, j :: 0 <= i < j < |s| ==> key(s[i]) >= key(s[j])
  }

  /** The tail of a sorted sequence is sorted. */
  lemma SortedTail<T>(s: seq<T>, key: T -> int)
    requires s != [] && SortedDesc(s, key)
    ensures SortedDesc(s[1..], key)
  {
    forall i, j | 0 <= i < j < |s[1..]| ensures key(s[1..][i]) >= key(s[1..][j]) {
      assert s[1..][i] == s[i + 1] && s[1..][j] == s[j + 1];
    }
  }

  /** A head no smaller than any element of a sorted sequence extends it. */
  lemma SortedCons<T>(h: T, s: seq<T>, key: T -> int)
    requires SortedDesc(s, key)
    requires forall y :: y in multiset(s) ==> key(h) >= key(y)
    ensures SortedDesc([h] + s, key)
  {
    var r := [h] + s;
    forall i, j | 0 <= i < j < |r| ensures key(r[i]) >= key(r[j]) {
      assert r[j] == s[j - 1];
      assert s[j - 1] in multiset(s);
      if i > 0 {
        assert r[i] == s[i - 1];
      }
    }
  }

  /** The head of a sorted sequence bounds every element of its tail. */
  lemma HeadBoundsTail<T>(s: seq<T>, key: T -> int)
    requires s != [] && SortedDesc(s, key)
    ensures forall y :: y in multiset(s[1..]) ==> key(s[0]) >= key(y)
  {
    forall y | y in multiset(s[1..]) ensures key(s[0]) >= key(y) {
      var j :| 0 <= j < |s[1..]| && s[1..][j] == y;
      assert s[j + 1] == y;
    }
  }

  /** Inserts `x` before the first element with a key not above its own, so
      that `x` stays ahead of the equal keys that came after it in the input. */
  function InsertDesc<T>(x: T, s: seq<T>, key: T -> int): (r: seq<T>)
    requires SortedDesc(s, key)
    ensures multiset(r) == multiset(s) + multiset{x}
    ensures SortedDesc(r, key)
  {
    if s == [] || key(x) >= key(s[0]) then
      assert SortedDesc([x] + s, key) by {
        if s != [] {
          HeadBoundsTail(s, key);
          assert s == [s[0]] + s[1..];
        }
        SortedCons(x, s, key);
      }
      [x] + s
    else
      SortedTail(s, key);
      var rest := InsertDesc(x, s[1..], key);
      assert s == [s[0]] + s[1..];
      HeadBoundsTail(s, key);
      SortedCons(s[0], rest, key);
      [s[0]] + rest
  }

  /** Stable insertion sort, largest key first. */
  function SortDesc<T>(s: seq<T>, key: T -> int): (r: seq<T>)
    ensures multiset(r) == multiset(s)
    ensures SortedDesc(r, key)
  {
    if s == [] then []
    else
      assert s == [s[0]] + s[1..];
      InsertDesc(s[0], SortDesc(s[1..], key), key)
  }

  /** `slice(0, n)`: the first `n` elements, or all of them when there are fewer. */
  function Take<T>(s: seq<T>, n: nat): (r: seq<T>)
    ensures |r| == if |s| <= n then |s| else n
    ensures r == s[..|r|]
  {
    if |s| <= n then s else s[..n]
  }

  /** Sorting and keeping the first `n` keeps the `n` largest keys: the kept
      items are sorted, come from the input, and every input item left out has
      a key no larger than that of any item kept. */
  lemma TopByKey<T>(s: seq<T>, key: T -> int, n: nat)
    ensures var kept := Take(SortDesc(s, key), n);
      && |kept| == (if |s| <= n then |s| else n)
      && SortedDesc(kept, key)
      && multiset(kept) <= multiset(s)
      && forall x, y :: x in multiset(s) - multiset(kept) && y in kept ==> key(x) <= key(y)
  {
    var r := SortDesc(s, key);
    var kept := Take(r, n);
    var dropped := r[|kept|..];
    assert r == kept + dropped;
    assert SortedDesc(kept, key) by {
      forall i, j | 0 <= i < j < |kept| ensures key(kept[i]) >= key(kept[j]) {
        assert kept[i] == r[i] && kept[j] == r[j];
      }
    }
    assert multiset(r) == multiset(kept) + multiset(dropped);
    assert multiset(s) - multiset(kept) == multiset(dropped);
    forall x, y | x in multiset(s) - multiset(kept) && y in kept ensures key(x) <= key(y) {
      assert x in multiset(dropped);
      var i :| 0 <= i < |dropped| && dropped[i] == x;
      var j :| 0 <= j < |kept| && kept[j] == y;
      assert r[|kept| + i] == x && r[j] == y;
    }
  }
}
