/**
 Vocabulary shared by the other modules: optional values, sequences without
 repetition, subsequences, and the stable sort that JavaScript's `toSorted` performs.
 */
module Basics {

  datatype Option<+T> = None | Some(value: T)

  datatype Result<+T, +E> = Ok(value: T) | Err(error: E)

  ghost predicate Distinct<T>(xs: seq<T>) {
    forall i, j :: 0 <= i < j < |xs| ==> xs[i] != xs[j]
  }

  function ToSet<T>(xs: seq<T>): set<T> {
    set x | x in xs
  }

  function Filter<T(!new)>(keep: T -> bool, xs: seq<T>): (ys: seq<T>)
    ensures forall x :: x in ys <==> x in xs && keep(x)
    ensures |ys| <= |xs|
  {
    if xs == [] then [] else (if keep(xs[0]) then [xs[0]] else []) + Filter(keep, xs[1..])
  }

  function Map<T, U>(f: T -> U, xs: seq<T>): (ys: seq<U>)
    ensures |ys| == |xs| && forall i :: 0 <= i < |xs| ==> ys[i] == f(xs[i])
  {
    seq(|xs|, i requires 0 <= i < |xs| => f(xs[i]))
  }

  lemma {:induction false} DistinctCardinality<T>(xs: seq<T>)
    requires Distinct(xs)
    ensures |ToSet(xs)| == |xs|
  {
    if xs != [] {
      DistinctCardinality(xs[1..]);
      assert ToSet(xs) == {xs[0]} + ToSet(xs[1..]);
      assert xs[0] !in xs[1..];
    } else {
      assert ToSet(xs) == {};
    }
  }

  lemma {:induction false} CardinalityBound<T>(xs: seq<T>)
    ensures |ToSet(xs)| <= |xs|
    ensures |ToSet(xs)| == |xs| ==> Distinct(xs)
  {
    if xs != [] {
      CardinalityBound(xs[1..]);
      assert ToSet(xs) == {xs[0]} + ToSet(xs[1..]);
      if |ToSet(xs)| == |xs| {
        assert xs[0] !in ToSet(xs[1..]);
        assert forall j :: 0 < j < |xs| ==> xs[j] == xs[1..][j - 1];
      }
    } else {
      assert ToSet(xs) == {};
    }
  }

  lemma DistinctConstant<T(!new)>(xs: seq<T>, x: T)
    requires Distinct(xs) && forall y :: y in xs ==> y == x
    ensures |xs| <= 1
  {
    DistinctCardinality(xs);
    SubsetCardinality(ToSet(xs), {x});
  }

  lemma SubsetCardinality<T>(a: set<T>, b: set<T>)
    requires a <= b
    ensures |a| <= |b|
    ensures |a| == |b| ==> a == b
  {
    assert b == a + (b - a);
    assert |b| == |a| + |b - a|;
  }

  // ----- Folds -----

  ghost function FlatMap<T, U>(f: T -> seq<U>, xs: seq<T>): seq<U> {
    if xs == [] then [] else f(xs[0]) + FlatMap(f, xs[1..])
  }

  lemma {:induction false} FlatMapAppend<T, U>(f: T -> seq<U>, xs: seq<T>, ys: seq<T>)
    ensures FlatMap(f, xs + ys) == FlatMap(f, xs) + FlatMap(f, ys)
  {
    if xs == [] {
      assert xs + ys == ys;
    } else {
      FlatMapAppend(f, xs[1..], ys);
      assert (xs + ys)[1..] == xs[1..] + ys && (xs + ys)[0] == xs[0];
      assert f(xs[0]) + (FlatMap(f, xs[1..]) + FlatMap(f, ys)) == FlatMap(f, xs) + FlatMap(f, ys);
    }
  }

  lemma SwapParts<T>(xs: seq<T>, ys: seq<T>, zs: seq<T>)
    ensures multiset(xs + (ys + zs)) == multiset(xs + (zs + ys))
  {
    assert multiset(ys + zs) == multiset(zs + ys);
  }

  function Total<T>(f: T -> nat, xs: seq<T>): nat {
    if xs == [] then 0 else f(xs[0]) + Total(f, xs[1..])
  }

  lemma {:induction false} TotalAppend<T>(f: T -> nat, xs: seq<T>, ys: seq<T>)
    ensures Total(f, xs + ys) == Total(f, xs) + Total(f, ys)
  {
    if xs == [] {
      assert xs + ys == ys;
    } else {
      TotalAppend(f, xs[1..], ys);
      assert (xs + ys)[1..] == xs[1..] + ys;
    }
  }

  lemma {:induction false} MapAppend<T, U>(f: T -> U, xs: seq<T>, ys: seq<T>)
    ensures Map(f, xs + ys) == Map(f, xs) + Map(f, ys)
  {
  }

  // ----- Subsequences -----

  /** `xs` is what remains of `ys` after some elements are struck out. */
  ghost predicate Subsequence<T>(xs: seq<T>, ys: seq<T>) {
    xs == [] || (ys != [] && ((xs[0] == ys[0] && Subsequence(xs[1..], ys[1..])) || Subsequence(xs, ys[1..])))
  }

  lemma {:induction false} SubsequenceRefl<T>(xs: seq<T>)
    ensures Subsequence(xs, xs)
  {
    if xs != [] {
      SubsequenceRefl(xs[1..]);
    }
  }

  lemma {:induction false} SubsequenceTrans<T>(xs: seq<T>, ys: seq<T>, zs: seq<T>)
    requires Subsequence(xs, ys) && Subsequence(ys, zs)
    ensures Subsequence(xs, zs)
    decreases |ys| + |zs|
  {
    if xs != [] {
      if ys[0] == zs[0] && Subsequence(ys[1..], zs[1..]) {
        if xs[0] == ys[0] && Subsequence(xs[1..], ys[1..]) {
          SubsequenceTrans(xs[1..], ys[1..], zs[1..]);
        } else {
          SubsequenceTrans(xs, ys[1..], zs[1..]);
        }
      } else {
        SubsequenceTrans(xs, ys, zs[1..]);
      }
    }
  }

  lemma {:induction false} SpliceIsSubsequence<T>(xs: seq<T>, i: nat, n: nat)
    requires i + n <= |xs|
    ensures Subsequence(xs[..i] + xs[i + n..], xs)
    decreases i + n
  {
    if i > 0 {
      assert (xs[..i] + xs[i + n..])[1..] == xs[1..][..i - 1] + xs[1..][i - 1 + n..];
      SpliceIsSubsequence(xs[1..], i - 1, n);
    } else if n > 0 {
      SpliceIsSubsequence(xs[1..], 0, n - 1);
      assert xs[..0] + xs[n..] == xs[1..][..0] + xs[1..][n - 1..];
    } else {
      assert xs[..0] + xs[0..] == xs;
      SubsequenceRefl(xs);
    }
  }

  /** `x` is the one element of its list that is kept, and stands there once. */
  ghost predicate OnlyOne<T(!new)>(keep: T -> bool, xs: seq<T>, x: T) {
    exists i :: 0 <= i < |xs| && xs[i] == x && keep(x) && forall j :: 0 <= j < |xs| && keep(xs[j]) ==> j == i
  }

  lemma FilterNone<T(!new)>(keep: T -> bool, xs: seq<T>)
    ensures Filter(keep, xs) == [] <==> forall i :: 0 <= i < |xs| ==> !keep(xs[i])
  {
    var ys := Filter(keep, xs);
    if ys != [] { assert ys[0] in ys; }
    forall i | 0 <= i < |xs| && keep(xs[i]) ensures ys != [] { assert xs[i] in xs && xs[i] in ys; }
  }

  lemma {:induction false} FilterSingle<T(!new)>(keep: T -> bool, xs: seq<T>, x: T)
    ensures Filter(keep, xs) == [x] <==> OnlyOne(keep, xs, x)
  {
    if xs != [] {
      FilterSingle(keep, xs[1..], x);
      FilterNone(keep, xs[1..]);
      if OnlyOne(keep, xs, x) {
        var i :| 0 <= i < |xs| && xs[i] == x && keep(x) && forall j :: 0 <= j < |xs| && keep(xs[j]) ==> j == i;
        if i > 0 { OnlyOneBehind(keep, xs, x, i); }
      }
      if Filter(keep, xs) == [x] { SingleIsOnly(keep, xs, x); }
    }
  }

  lemma OnlyOneBehind<T(!new)>(keep: T -> bool, xs: seq<T>, x: T, i: nat)
    requires 0 < i < |xs| && xs[i] == x && keep(x) && forall j :: 0 <= j < |xs| && keep(xs[j]) ==> j == i
    ensures !keep(xs[0]) && OnlyOne(keep, xs[1..], x)
  {
    assert xs[1..][i - 1] == x;
  }

  lemma SingleIsOnly<T(!new)>(keep: T -> bool, xs: seq<T>, x: T)
    requires xs != [] && Filter(keep, xs) == [x] && (Filter(keep, xs[1..]) == [x] ==> OnlyOne(keep, xs[1..], x))
    ensures OnlyOne(keep, xs, x)
  {
    FilterNone(keep, xs[1..]);
    assert forall j :: 0 < j < |xs| ==> xs[j] == xs[1..][j - 1];
    if keep(xs[0]) {
      assert Filter(keep, xs) == [xs[0]] + Filter(keep, xs[1..]);
      assert xs[0] == x && Filter(keep, xs[1..]) == [];
    } else {
      var i :| 0 <= i < |xs[1..]| && xs[1..][i] == x && keep(x) && forall j :: 0 <= j < |xs[1..]| && keep(xs[1..][j]) ==> j == i;
      assert xs[i + 1] == x;
    }
  }

  lemma {:induction false} FilterIsSubsequence<T(!new)>(keep: T -> bool, xs: seq<T>)
    ensures Subsequence(Filter(keep, xs), xs)
  {
    if xs != [] {
      FilterIsSubsequence(keep, xs[1..]);
      if keep(xs[0]) {
        assert Filter(keep, xs)[1..] == Filter(keep, xs[1..]);
      } else {
        assert Filter(keep, xs) == Filter(keep, xs[1..]);
      }
    }
  }

  lemma {:induction false} FilterCounts<T(!new)>(keep: T -> bool, xs: seq<T>, x: T)
    ensures multiset(Filter(keep, xs))[x] == if keep(x) then multiset(xs)[x] else 0
  {
    if xs != [] {
      FilterCounts(keep, xs[1..], x);
      assert xs == [xs[0]] + xs[1..];
    }
  }

  // ----- Stable sorting by a total preorder -----

  ghost predicate TotalPreorder<T(!new)>(le: (T, T) -> bool) {
    && (forall a, b :: le(a, b) || le(b, a))
    && (forall a, b, c :: le(a, b) && le(b, c) ==> le(a, c))
  }

  ghost predicate SortedBy<T>(le: (T, T) -> bool, xs: seq<T>) {
    forall i, j :: 0 <= i < j < |xs| ==> le(xs[i], xs[j])
  }

  function Insert<T>(le: (T, T) -> bool, x: T, ys: seq<T>): (r: seq<T>)
    ensures multiset(r) == multiset{x} + multiset(ys)
    ensures |r| == |ys| + 1
  {
    if ys == [] then [x]
    else if le(x, ys[0]) then [x] + ys
    else
      assert ys == [ys[0]] + ys[1..];
      [ys[0]] + Insert(le, x, ys[1..])
  }

  /** Inserting from the right keeps elements that compare equal in their original order. */
  function Sort<T>(le: (T, T) -> bool, xs: seq<T>): (r: seq<T>)
    ensures multiset(r) == multiset(xs)
    ensures |r| == |xs|
  {
    if xs == [] then []
    else
      assert xs == [xs[0]] + xs[1..];
      Insert(le, xs[0], Sort(le, xs[1..]))
  }

  lemma {:induction false} InsertSorted<T(!new)>(le: (T, T) -> bool, x: T, ys: seq<T>)
    requires TotalPreorder(le) && SortedBy(le, ys)
    ensures SortedBy(le, Insert(le, x, ys))
  {
    if ys != [] && !le(x, ys[0]) {
      InsertSorted(le, x, ys[1..]);
      var r := Insert(le, x, ys[1..]);
      forall j | 0 <= j < |r| ensures le(ys[0], r[j]) {
        assert r[j] in multiset(r);
        if r[j] != x {
          assert r[j] in multiset(ys[1..]);
          assert r[j] in ys[1..];
        }
      }
    }
  }

  lemma {:induction false} SortSorted<T(!new)>(le: (T, T) -> bool, xs: seq<T>)
    requires TotalPreorder(le)
    ensures SortedBy(le, Sort(le, xs))
  {
    if xs != [] {
      SortSorted(le, xs[1..]);
      InsertSorted(le, xs[0], Sort(le, xs[1..]));
    }
  }

  lemma {:induction false} FilterSorted<T(!new)>(le: (T, T) -> bool, keep: T -> bool, xs: seq<T>)
    requires SortedBy(le, xs)
    ensures SortedBy(le, Filter(keep, xs))
  {
    if xs != [] {
      FilterSorted(le, keep, xs[1..]);
      var rest := Filter(keep, xs[1..]);
      forall j | 0 <= j < |rest| ensures le(xs[0], rest[j]) {
        assert rest[j] in xs[1..];
      }
    }
  }

  /** The order of strings by code units, as `<` and `sort` compare them. */
  predicate LexLe(a: string, b: string) {
    a == [] || (b != [] && (a[0] < b[0] || (a[0] == b[0] && LexLe(a[1..], b[1..]))))
  }

  lemma {:induction false} LexTotal(a: string, b: string)
    ensures LexLe(a, b) || LexLe(b, a)
    ensures LexLe(a, b) && LexLe(b, a) ==> a == b
  {
    if a != [] && b != [] {
      LexTotal(a[1..], b[1..]);
      assert a == [a[0]] + a[1..] && b == [b[0]] + b[1..];
    }
  }

  lemma {:induction false} LexTransitive(a: string, b: string, c: string)
    requires LexLe(a, b) && LexLe(b, c)
    ensures LexLe(a, c)
  {
    if a != [] {
      if a[0] == b[0] && b[0] == c[0] {
        LexTransitive(a[1..], b[1..], c[1..]);
      }
    }
  }

  lemma LexIsPreorder()
    ensures TotalPreorder(LexLe)
  {
    forall a, b ensures LexLe(a, b) || LexLe(b, a) { LexTotal(a, b); }
    forall a, b, c | LexLe(a, b) && LexLe(b, c) ensures LexLe(a, c) { LexTransitive(a, b, c); }
  }

  lemma SameElements<T(!new)>(xs: seq<T>, ys: seq<T>)
    requires multiset(xs) == multiset(ys)
    ensures |xs| == |ys|
    ensures forall x :: x in xs <==> x in ys
  {
    assert |multiset(xs)| == |multiset(ys)|;
    forall x ensures x in xs <==> x in ys {
      assert x in xs <==> x in multiset(xs);
      assert x in ys <==> x in multiset(ys);
    }
  }
}
