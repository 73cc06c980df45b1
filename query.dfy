/** Query results as sequences: the ORM's `filter`, `count`, `Sum`,
    `distinct` and `get` become folds over the rows of a table, in the
    table's order. */
module Query {

  /** `queryset.filter(p)`: the rows satisfying `p`, in order. */
  function Filter<T(!new)>(s: seq<T>, p: T -> bool): (r: seq<T>)
    ensures |r| <= |s|
    ensures forall x :: x in r <==> x in s && p(x)
    ensures forall i :: 0 <= i < |r| ==> p(r[i])
    decreases |s|
  {
    if |s| == 0 then []
    else if p(s[0]) then [s[0]] + Filter(s[1..], p)
    else Filter(s[1..], p)
  }

  /** `Sum(f)` over the rows (an empty sum is 0, which the callers'
      `or Decimal('0.00')` also produce). */
  function SumOf<T>(s: seq<T>, f: T -> int): int
    decreases |s|
  {
    if |s| == 0 then 0 else f(s[0]) + SumOf(s[1..], f)
  }

  /** `[f(x) for x in s]` */
  function Map<T, U>(s: seq<T>, f: T -> U): (r: seq<U>)
    ensures |r| == |s|
    ensures forall i :: 0 <= i < |s| ==> r[i] == f(s[i])
  {
    seq(|s|, i requires 0 <= i < |s| => f(s[i]))
  }

  predicate NoDuplicates<T(==)>(s: seq<T>) {
    forall i, j :: 0 <= i < j < |s| ==> s[i] != s[j]
  }

  /** SQL `DISTINCT`: every value once, at its first position. */
  function Dedup<T(==,!new)>(s: seq<T>): (r: seq<T>)
    ensures |r| <= |s|
    ensures forall x :: x in r <==> x in s
    ensures NoDuplicates(r)
    decreases |s|
  {
    if |s| == 0 then []
    else
      var init := Dedup(s[..|s| - 1]);
      var last := s[|s| - 1];
      assert forall x :: x in s <==> x in s[..|s| - 1] || x == last;
      if last in init then init else init + [last]
  }

  /** Outcome of `Model.objects.get(...)`. */
  datatype Lookup<T> = NotFound | Found(value: T) | Multiple

  /** `get`: `DoesNotExist` when no row matches, `MultipleObjectsReturned`
      when two or more do. */
  function GetWhere<T(!new)>(s: seq<T>, p: T -> bool): (r: Lookup<T>)
    ensures r.NotFound? <==> forall x :: x in s ==> !p(x)
    ensures r.Found? ==> r.value in s && p(r.value) && |Filter(s, p)| == 1
    ensures r.Multiple? <==> |Filter(s, p)| >= 2
  {
    var f := Filter(s, p);
    if |f| == 0 then
      assert forall x :: x in s && p(x) ==> x in f;
      NotFound
    else if |f| == 1 then
      assert f[0] in f;
      Found(f[0])
    else
      assert f[0] in f;
      Multiple
  }

  // ---------------------------------------------------------------------
  // Lemmas
  // ---------------------------------------------------------------------

  /** A stronger filter keeps at most as many rows. */
  lemma {:induction false} FilterMonotone<T(!new)>(s: seq<T>, p: T -> bool, q: T -> bool)
    requires forall x :: x in s && p(x) ==> q(x)
    ensures |Filter(s, p)| <= |Filter(s, q)|
    decreases |s|
  {
    if |s| > 0 {
      assert forall x :: x in s[1..] ==> x in s;
      FilterMonotone(s[1..], p, q);
    }
  }

  /** Filtering by a predicate every row satisfies keeps every row. */
  lemma {:induction false} FilterAll<T(!new)>(s: seq<T>, p: T -> bool)
    requires forall x :: x in s ==> p(x)
    ensures Filter(s, p) == s
    decreases |s|
  {
    if |s| > 0 {
      assert forall x :: x in s[1..] ==> x in s;
      FilterAll(s[1..], p);
      assert s == [s[0]] + s[1..];
    }
  }

  /** A filter nothing passes is empty. */
  lemma {:induction false} FilterNone<T(!new)>(s: seq<T>, p: T -> bool)
    requires forall x :: x in s ==> !p(x)
    ensures Filter(s, p) == []
    decreases |s|
  {
    if |s| > 0 {
      assert forall x :: x in s[1..] ==> x in s;
      FilterNone(s[1..], p);
    }
  }

  /** A sum of non-negative terms is non-negative. */
  lemma {:induction false} SumOfNonNegative<T>(s: seq<T>, f: T -> int)
    requires forall x :: x in s ==> f(x) >= 0
    ensures SumOf(s, f) >= 0
    decreases |s|
  {
    if |s| > 0 {
      assert forall x :: x in s[1..] ==> x in s;
      SumOfNonNegative(s[1..], f);
    }
  }

  /** A sum of `n` equal terms `v` is `n * v`. */
  lemma {:induction false} SumOfConstant<T>(s: seq<T>, f: T -> int, v: int)
    requires forall x :: x in s ==> f(x) == v
    ensures SumOf(s, f) == |s| * v
    decreases |s|
  {
    if |s| > 0 {
      assert forall x :: x in s[1..] ==> x in s;
      SumOfConstant(s[1..], f, v);
    }
  }

  /** Terms bounded below and above give a sum bounded by `n` times the
      bounds. */
  lemma {:induction false} SumOfBounds<T>(s: seq<T>, f: T -> int, lo: int, hi: int)
    requires forall x :: x in s ==> lo <= f(x) <= hi
    ensures |s| * lo <= SumOf(s, f) <= |s| * hi
    decreases |s|
  {
    if |s| > 0 {
      assert forall x :: x in s[1..] ==> x in s;
      SumOfBounds(s[1..], f, lo, hi);
      MulSucc(|s[1..]|, lo);
      MulSucc(|s[1..]|, hi);
    }
  }

  lemma MulSucc(n: int, x: int)
    ensures (n + 1) * x == n * x + x
  {
  }

  /** Adding one row at the end adds its term. */
  lemma {:induction false} SumOfSnoc<T>(s: seq<T>, f: T -> int, x: T)
    ensures SumOf(s + [x], f) == SumOf(s, f) + f(x)
    decreases |s|
  {
    if |s| == 0 {
      assert s + [x] == [x];
    } else {
      assert (s + [x])[1..] == s[1..] + [x];
      SumOfSnoc(s[1..], f, x);
    }
  }

  /** The SQL join that precedes `DISTINCT` may repeat a row; after it,
      a row repeated any number of times appears once. */
  lemma {:induction false} DedupConstant<T(!new)>(s: seq<T>, x: T)
    requires |s| > 0 && forall y :: y in s ==> y == x
    ensures Dedup(s) == [x]
    decreases |s|
  {
    if |s| == 1 {
      assert s[..0] == [];
      assert s[0] in s;
    } else {
      var init := s[..|s| - 1];
      assert forall i :: 0 <= i < |init| ==> init[i] == s[i];
      assert forall y :: y in init ==> y in s;
      DedupConstant(init, x);
      assert s[|s| - 1] in s;
    }
  }
}
