/**
 * The `ORDER BY <column> ASC|DESC` step of the database engine, as a stable
 * insertion sort of a sequence of rows by a sort key.  NULL sorts lowest, so
 * it comes first ascending and last descending; text compares by code point.
 */
module Ordering {

  /** The value a row holds in the ORDER BY column. */
  datatype SortKey = KNull | KInt(i: int) | KText(t: string)

  /** Lexicographic order on code points. */
  predicate TextLe(a: string, b: string)
    decreases |a|
  {
    |a| == 0 || (|b| > 0 && (a[0] < b[0] || (a[0] == b[0] && TextLe(a[1..], b[1..]))))
  }

  lemma {:induction false} TextLeTotal(a: string, b: string)
    ensures TextLe(a, b) || TextLe(b, a)
    decreases |a|
  {
    if |a| > 0 && |b| > 0 && a[0] == b[0] {
      TextLeTotal(a[1..], b[1..]);
    }
  }

  lemma {:induction false} TextLeTransitive(a: string, b: string, c: string)
    requires TextLe(a, b) && TextLe(b, c)
    ensures TextLe(a, c)
    decreases |a|
  {
    if |a| > 0 && a[0] == b[0] && b[0] == c[0] {
      TextLeTransitive(a[1..], b[1..], c[1..]);
    }
  }

  /** The ascending order on keys: NULL, then integers, then text. */
  predicate KeyLe(a: SortKey, b: SortKey) {
    match (a, b)
    case (KNull, _) => true
    case (_, KNull) => false
    case (KInt(x), KInt(y)) => x <= y
    case (KInt(_), KText(_)) => true
    case (KText(_), KInt(_)) => false
    case (KText(x), KText(y)) => TextLe(x, y)
  }

  /** `a` may precede `b` in the requested direction. */
  predicate Before(a: SortKey, b: SortKey, desc: bool) {
    if desc then KeyLe(b, a) else KeyLe(a, b)
  }

  lemma BeforeTotal(a: SortKey, b: SortKey, desc: bool)
    ensures Before(a, b, desc) || Before(b, a, desc)
  {
    if a.KText? && b.KText? {
      TextLeTotal(a.t, b.t);
    }
  }

  lemma BeforeTransitive(a: SortKey, b: SortKey, c: SortKey, desc: bool)
    requires Before(a, b, desc) && Before(b, c, desc)
    ensures Before(a, c, desc)
  {
    if a.KText? && b.KText? && c.KText? {
      if desc {
        TextLeTransitive(c.t, b.t, a.t);
      } else {
        TextLeTransitive(a.t, b.t, c.t);
      }
    }
  }

  lemma {:induction false} TextLeAntisymmetric(a: string, b: string)
    requires TextLe(a, b) && TextLe(b, a)
    ensures a == b
    decreases |a|
  {
    if |a| > 0 {
      TextLeAntisymmetric(a[1..], b[1..]);
      assert a == [a[0]] + a[1..] && b == [b[0]] + b[1..];
    }
  }

  /** Two keys that may each precede the other are the same key. */
  lemma BeforeAntisymmetric(a: SortKey, b: SortKey, desc: bool)
    requires Before(a, b, desc) && Before(b, a, desc)
    ensures a == b
  {
    if a.KText? && b.KText? {
      TextLeAntisymmetric(a.t, b.t);
    }
  }

  /** Every earlier row may precede every later row. */
  ghost predicate Sorted<T>(xs: seq<T>, key: T -> SortKey, desc: bool) {
    forall i, j :: 0 <= i < j < |xs| ==> Before(key(xs[i]), key(xs[j]), desc)
  }

  /** Places `x` in front of the first row it may precede. */
  function Insert<T>(x: T, xs: seq<T>, key: T -> SortKey, desc: bool): seq<T> {
    if |xs| == 0 then [x]
    else if Before(key(x), key(xs[0]), desc) then [x] + xs
    else [xs[0]] + Insert(x, xs[1..], key, desc)
  }

  /** Inserting adds exactly that row. */
  lemma {:induction false} InsertPermutes<T>(x: T, xs: seq<T>, key: T -> SortKey, desc: bool)
    ensures multiset(Insert(x, xs, key, desc)) == multiset(xs) + multiset{x}
  {
    if |xs| > 0 && !Before(key(x), key(xs[0]), desc) {
      InsertPermutes(x, xs[1..], key, desc);
      assert xs == [xs[0]] + xs[1..];
    }
  }

  /** Inserting into a sorted sequence keeps it sorted. */
  lemma {:induction false} InsertSorted<T>(x: T, xs: seq<T>, key: T -> SortKey, desc: bool)
    requires Sorted(xs, key, desc)
    ensures Sorted(Insert(x, xs, key, desc), key, desc)
  {
    if |xs| > 0 {
      if Before(key(x), key(xs[0]), desc) {
        InsertFront(x, xs, key, desc);
      } else {
        InsertSorted(x, xs[1..], key, desc);
        InsertPermutes(x, xs[1..], key, desc);
        InsertBehind(x, xs, Insert(x, xs[1..], key, desc), key, desc);
      }
    }
  }

  lemma InsertFront<T>(x: T, xs: seq<T>, key: T -> SortKey, desc: bool)
    requires Sorted(xs, key, desc) && |xs| > 0
    requires Before(key(x), key(xs[0]), desc)
    ensures Sorted([x] + xs, key, desc)
  {
    var r := [x] + xs;
    forall i, j | 0 <= i < j < |r|
      ensures Before(key(r[i]), key(r[j]), desc)
    {
      if i == 0 && j > 1 {
        BeforeTransitive(key(x), key(xs[0]), key(xs[j - 1]), desc);
      }
    }
  }

  lemma InsertBehind<T>(x: T, xs: seq<T>, rest: seq<T>, key: T -> SortKey, desc: bool)
    requires Sorted(xs, key, desc) && |xs| > 0
    requires !Before(key(x), key(xs[0]), desc)
    requires multiset(rest) == multiset(xs[1..]) + multiset{x}
    requires Sorted(rest, key, desc)
    ensures Sorted([xs[0]] + rest, key, desc)
  {
    BeforeTotal(key(x), key(xs[0]), desc);
    var r := [xs[0]] + rest;
    forall i, j | 0 <= i < j < |r|
      ensures Before(key(r[i]), key(r[j]), desc)
    {
      if i == 0 {
        var y := rest[j - 1];
        assert y in multiset(rest);
        if y != x {
          assert y in multiset(xs[1..]);
          var m :| 0 <= m < |xs[1..]| && xs[1..][m] == y;
          assert xs[m + 1] == y;
        }
      }
    }
  }

  /** The engine's ORDER BY: a permutation of the rows that is sorted by `key`. */
  function Sort<T>(xs: seq<T>, key: T -> SortKey, desc: bool): seq<T> {
    if |xs| == 0 then [] else Insert(xs[0], Sort(xs[1..], key, desc), key, desc)
  }

  /** The sort returns the same rows, as many as it was given, sorted by `key`. */
  lemma {:induction false} SortIsSortedPermutation<T>(xs: seq<T>, key: T -> SortKey, desc: bool)
    ensures multiset(Sort(xs, key, desc)) == multiset(xs)
    ensures |Sort(xs, key, desc)| == |xs|
    ensures Sorted(Sort(xs, key, desc), key, desc)
  {
    if |xs| > 0 {
      var rest := Sort(xs[1..], key, desc);
      SortIsSortedPermutation(xs[1..], key, desc);
      InsertPermutes(xs[0], rest, key, desc);
      InsertSorted(xs[0], rest, key, desc);
      assert xs == [xs[0]] + xs[1..];
    }
    assert |multiset(Sort(xs, key, desc))| == |Sort(xs, key, desc)|;
  }

  /** No two different rows share a sort key: ORDER BY then leaves no tie
      for the engine to break. */
  ghost predicate TieFree<T>(xs: seq<T>, key: T -> SortKey) {
    forall a, b :: a in xs && b in xs && key(a) == key(b) ==> a == b
  }

  /** Without ties there is only one sorted order of a multiset of rows. */
  lemma {:induction false} SortedUnique<T>(ys: seq<T>, zs: seq<T>, key: T -> SortKey, desc: bool)
    requires multiset(ys) == multiset(zs)
    requires Sorted(ys, key, desc) && Sorted(zs, key, desc)
    requires TieFree(ys, key)
    ensures ys == zs
    decreases |ys|
  {
    if |ys| > 0 {
      SameHead(ys, zs, key, desc);
      SameTail(ys, zs);
      TieFreeTail(ys, key);
      SortedUnique(ys[1..], zs[1..], key, desc);
      assert ys == [ys[0]] + ys[1..] && zs == [zs[0]] + zs[1..];
    }
  }

  lemma SameHead<T>(ys: seq<T>, zs: seq<T>, key: T -> SortKey, desc: bool)
    requires multiset(ys) == multiset(zs) && |ys| > 0
    requires Sorted(ys, key, desc) && Sorted(zs, key, desc)
    requires TieFree(ys, key)
    ensures |zs| > 0 && ys[0] == zs[0]
  {
    assert ys[0] in multiset(zs);
    var y, z := ys[0], zs[0];
    assert z in multiset(ys);
    FirstPrecedes(ys, z, key, desc);
    FirstPrecedes(zs, y, key, desc);
    BeforeAntisymmetric(key(y), key(z), desc);
  }

  lemma SameTail<T>(ys: seq<T>, zs: seq<T>)
    requires multiset(ys) == multiset(zs) && |ys| > 0 && |zs| > 0 && ys[0] == zs[0]
    ensures multiset(ys[1..]) == multiset(zs[1..])
  {
    assert ys == [ys[0]] + ys[1..] && zs == [zs[0]] + zs[1..];
    assert multiset(ys[1..]) == multiset(ys) - multiset{ys[0]};
    assert multiset(zs[1..]) == multiset(zs) - multiset{zs[0]};
  }

  lemma TieFreeTail<T>(ys: seq<T>, key: T -> SortKey)
    requires TieFree(ys, key) && |ys| > 0
    ensures TieFree(ys[1..], key)
  {
    forall a | a in ys[1..]
      ensures a in ys
    {
    }
  }

  /** The first row of a sorted sequence may precede every row in it. */
  lemma FirstPrecedes<T>(xs: seq<T>, x: T, key: T -> SortKey, desc: bool)
    requires Sorted(xs, key, desc) && x in xs
    ensures Before(key(xs[0]), key(x), desc)
  {
    var m :| 0 <= m < |xs| && xs[m] == x;
    if m == 0 {
      BeforeTotal(key(x), key(x), desc);
    }
  }

  /** So without ties any sorted permutation of the rows, whichever order
      the engine picks among equal keys, is `Sort`'s. */
  lemma SortIsUnique<T>(xs: seq<T>, ys: seq<T>, key: T -> SortKey, desc: bool)
    requires multiset(ys) == multiset(xs) && Sorted(ys, key, desc)
    requires TieFree(xs, key)
    ensures ys == Sort(xs, key, desc)
  {
    SortIsSortedPermutation(xs, key, desc);
    assert TieFree(ys, key) by {
      forall a | a in ys
        ensures a in xs
      {
        assert a in multiset(ys);
      }
    }
    SortedUnique(ys, Sort(xs, key, desc), key, desc);
  }
}
