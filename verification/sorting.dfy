/** Go's sort.Slice over a copied slice, as a stable insertion sort, and the facts callers rely on. */
module Sorting {

  /** Byte-wise string order, as Go's < on strings. */
  predicate LexLess(a: string, b: string) {
    if |a| == 0 || |b| == 0 then |a| < |b|
    else a[0] < b[0] || (a[0] == b[0] && LexLess(a[1..], b[1..]))
  }

  lemma {:induction false} LexTransitive(a: string, b: string, c: string)
    requires !LexLess(b, a) && !LexLess(c, b)
    ensures !LexLess(c, a)
  {
    if |a| != 0 && |b| != 0 && |c| != 0 && a[0] == b[0] == c[0] {
      LexTransitive(a[1..], b[1..], c[1..]);
    }
  }

  lemma {:induction false} LexTotal(a: string, b: string)
    requires !LexLess(a, b) && !LexLess(b, a)
    ensures a == b
  {
    if |a| != 0 && |b| != 0 {
      LexTotal(a[1..], b[1..]);
      assert a == [a[0]] + a[1..] && b == [b[0]] + b[1..];
    }
  }

  lemma {:induction false} LexAsymmetric(a: string, b: string)
    requires LexLess(a, b)
    ensures !LexLess(b, a)
  {
    if |a| != 0 && |b| != 0 && a[0] == b[0] {
      LexAsymmetric(a[1..], b[1..]);
    }
  }

  /** less orders the values: "not less" is transitive and less is asymmetric. */
  ghost predicate Ordering<T(!new)>(less: (T, T) -> bool) {
    && (forall a, b :: less(a, b) ==> !less(b, a))
    && (forall a, b, c :: !less(b, a) && !less(c, b) ==> !less(c, a))
  }

  ghost predicate Sorted<T>(s: seq<T>, less: (T, T) -> bool) {
    forall i, j :: 0 <= i < j < |s| ==> !less(s[j], s[i])
  }

  function Insert<T>(s: seq<T>, x: T, less: (T, T) -> bool): (r: seq<T>)
    ensures multiset(r) == multiset(s) + multiset{x}
  {
    if |s| == 0 || !less(x, s[|s| - 1]) then s + [x]
    else
      assert s == s[..|s| - 1] + [s[|s| - 1]];
      Insert(s[..|s| - 1], x, less) + [s[|s| - 1]]
  }

  function Sort<T>(s: seq<T>, less: (T, T) -> bool): (r: seq<T>)
    ensures multiset(r) == multiset(s)
    ensures |r| == |s|
  {
    if |s| == 0 then s
    else
      assert s == s[..|s| - 1] + [s[|s| - 1]];
      var r := Insert(Sort(s[..|s| - 1], less), s[|s| - 1], less);
      assert |multiset(r)| == |multiset(s)|;
      r
  }

  lemma {:induction false} InsertSorts<T(!new)>(s: seq<T>, x: T, less: (T, T) -> bool)
    requires Ordering(less) && Sorted(s, less)
    ensures Sorted(Insert(s, x, less), less)
  {
    if |s| != 0 {
      var last := s[|s| - 1];
      if less(x, last) {
        var front := Insert(s[..|s| - 1], x, less);
        InsertSorts(s[..|s| - 1], x, less);
        forall i | 0 <= i < |front|
          ensures !less(last, front[i])
        {
          assert front[i] in multiset(front);
          assert front[i] in s[..|s| - 1] || front[i] == x;
        }
      } else {
        forall i | 0 <= i < |s|
          ensures !less(x, s[i])
        {
          assert i < |s| - 1 ==> !less(last, s[i]);
        }
      }
    }
  }

  lemma {:induction false} SortSorts<T(!new)>(s: seq<T>, less: (T, T) -> bool)
    requires Ordering(less)
    ensures Sorted(Sort(s, less), less)
  {
    if |s| != 0 {
      SortSorts(s[..|s| - 1], less);
      InsertSorts(Sort(s[..|s| - 1], less), s[|s| - 1], less);
    }
  }

  /** Sorting leaves a sorted sequence alone. */
  lemma {:induction false} SortFixesSorted<T>(s: seq<T>, less: (T, T) -> bool)
    requires Sorted(s, less)
    ensures Sort(s, less) == s
  {
    hide Sort, Insert, Sorted;
    if |s| == 0 {
      EmptyIsSorted(s, less);
    } else {
      FrontIsSorted(s, less);
      SortFixesSorted(s[..|s| - 1], less);
      LastStays(s, less);
      SortUnfolds(s, less);
    }
  }

  lemma EmptyIsSorted<T>(s: seq<T>, less: (T, T) -> bool)
    requires |s| == 0
    ensures Sort(s, less) == s
  {
  }

  lemma FrontIsSorted<T>(s: seq<T>, less: (T, T) -> bool)
    requires Sorted(s, less) && s != []
    ensures Sorted(s[..|s| - 1], less) && (|s| > 1 ==> !less(s[|s| - 1], s[|s| - 2]))
  {
  }

  lemma SortUnfolds<T>(s: seq<T>, less: (T, T) -> bool)
    requires s != []
    ensures Sort(s, less) == Insert(Sort(s[..|s| - 1], less), s[|s| - 1], less)
  {
    hide Insert;
  }

  lemma LastStays<T>(s: seq<T>, less: (T, T) -> bool)
    requires s != [] && (|s| > 1 ==> !less(s[|s| - 1], s[|s| - 2]))
    ensures Insert(s[..|s| - 1], s[|s| - 1], less) == s
  {
    assert s == s[..|s| - 1] + [s[|s| - 1]];
  }

  /** Two sorted arrangements of the same values agree, as long as ties are between equal values. */
  lemma {:induction false} SortedUnique<T(!new)>(s: seq<T>, t: seq<T>, less: (T, T) -> bool)
    requires Ordering(less) && Sorted(s, less) && Sorted(t, less)
    requires multiset(s) == multiset(t)
    requires forall a, b :: a in s && b in s && !less(a, b) && !less(b, a) ==> a == b
    ensures s == t
  {
    assert |s| == |multiset(s)| == |multiset(t)| == |t|;
    if |s| != 0 {
      FirstIsLeast(s, t, less);
      FirstIsLeast(t, s, less);
      assert s[0] == t[0] && s[0] in s;
      WithoutFirst(s);
      WithoutFirst(t);
      TailIsSorted(s, less);
      TailIsSorted(t, less);
      hide Ordering, Sorted;
      SortedUnique(s[1..], t[1..], less);
    }
  }

  lemma FirstIsLeast<T>(s: seq<T>, t: seq<T>, less: (T, T) -> bool)
    requires Sorted(s, less) && multiset(s) == multiset(t) && s != [] && t != [] && !less(s[0], s[0])
    ensures t[0] in s && !less(t[0], s[0])
  {
    assert t[0] in multiset(t);
    var i :| 0 <= i < |s| && s[i] == t[0];
  }

  lemma WithoutFirst<T>(s: seq<T>)
    requires s != []
    ensures s == [s[0]] + s[1..] && multiset(s[1..]) == multiset(s) - multiset{s[0]} && forall x :: x in s[1..] ==> x in s
  {
    assert s == [s[0]] + s[1..];
  }

  lemma TailIsSorted<T>(s: seq<T>, less: (T, T) -> bool)
    requires Sorted(s, less) && s != []
    ensures Sorted(s[1..], less)
  {
  }
}
