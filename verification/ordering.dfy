/** Orders used by the screens' `.sort(...)` calls: a stable insertion sort over any
    total preorder, and a lexicographic string order that agrees with JavaScript's `<`
    on text inside the Basic Multilingual Plane, such as ISO dates and clock labels. */
module Ordering {
  import opened Seqs

  /** `le` is total and transitive: a comparator `.sort` can use consistently. */
  ghost predicate TotalPreorder<T(!new)>(le: (T, T) -> bool) {
    && (forall a, b :: le(a, b) || le(b, a))
    && (forall a, b, c :: le(a, b) && le(b, c) ==> le(a, c))
  }

  ghost predicate Sorted<T>(s: seq<T>, le: (T, T) -> bool) {
    forall i, j :: 0 <= i < j < |s| ==> le(s[i], s[j])
  }

  /** Inserts `x` before the first element it does not come after. */
  function Insert<T(!new)>(x: T, s: seq<T>, le: (T, T) -> bool): (r: seq<T>)
    requires TotalPreorder(le)
    requires Sorted(s, le)
    ensures |r| == |s| + 1
    ensures multiset(r) == multiset(s) + multiset{x}
    ensures forall y :: y in r <==> y == x || y in s
    ensures Sorted(r, le)
  {
    if |s| == 0 then [x]
    else if le(x, s[0]) then [x] + s
    else
      var rest := Insert(x, s[1..], le);
      assert s == [s[0]] + s[1..];
      assert forall y :: y in rest ==> le(s[0], y) by {
        assert le(s[0], x);
        assert forall k :: 1 <= k < |s| ==> le(s[0], s[k]);
      }
      [s[0]] + rest
  }

  /** A stable sort: `s.sort(cmp)` with `le(a, b)` meaning `cmp(a, b) <= 0`. The
      result holds the same elements with the same multiplicities, in `le` order. */
  function Sort<T(!new)>(s: seq<T>, le: (T, T) -> bool): (r: seq<T>)
    requires TotalPreorder(le)
    ensures |r| == |s|
    ensures multiset(r) == multiset(s)
    ensures Sorted(r, le)
  {
    if |s| == 0 then []
    else
      assert s == [s[0]] + s[1..];
      Insert(s[0], Sort(s[1..], le), le)
  }

  /** Lexicographic comparison of code points, a proper prefix coming first. This is
      JavaScript's `a < b` for strings inside the Basic Multilingual Plane, where code
      points and UTF-16 code units coincide; beyond it JavaScript compares surrogate code
      units and the two orders can differ. */
  predicate TextLt(a: string, b: string)
    decreases |a|
  {
    if |b| == 0 then false
    else if |a| == 0 then true
    else if a[0] != b[0] then a[0] < b[0]
    else TextLt(a[1..], b[1..])
  }

  /** The non-strict form `!(b < a)`. */
  predicate TextLe(a: string, b: string) {
    !TextLt(b, a)
  }

  lemma {:induction false} TextLtIrreflexive(a: string)
    ensures !TextLt(a, a)
  {
    if |a| > 0 {
      TextLtIrreflexive(a[1..]);
    }
  }

  lemma {:induction false} TextLtTransitive(a: string, b: string, c: string)
    requires TextLt(a, b) && TextLt(b, c)
    ensures TextLt(a, c)
  {
    if |a| > 0 && a[0] == b[0] && b[0] == c[0] {
      TextLtTransitive(a[1..], b[1..], c[1..]);
    }
  }

  lemma {:induction false} TextLtTrichotomy(a: string, b: string)
    ensures TextLt(a, b) || a == b || TextLt(b, a)
  {
    if |a| > 0 && |b| > 0 && a[0] == b[0] {
      TextLtTrichotomy(a[1..], b[1..]);
      if a[1..] == b[1..] {
        assert a == [a[0]] + a[1..] && b == [b[0]] + b[1..];
      }
    }
  }

  /** `TextLe` is a total preorder (indeed a total order) on strings. */
  lemma TextLeTotalPreorder()
    ensures forall a, b :: TextLe(a, b) || TextLe(b, a)
    ensures forall a, b, c :: TextLe(a, b) && TextLe(b, c) ==> TextLe(a, c)
  {
    forall a, b ensures TextLe(a, b) || TextLe(b, a) {
      if TextLt(b, a) && TextLt(a, b) {
        TextLtTransitive(a, b, a);
        TextLtIrreflexive(a);
      }
    }
    forall a, b, c | TextLe(a, b) && TextLe(b, c) ensures TextLe(a, c) {
      if TextLt(c, a) {
        TextLtTrichotomy(a, b);
        if TextLt(a, b) {
          TextLtTransitive(c, a, b);
        }
      }
    }
  }

  /** Sorting neither adds nor drops an element. */
  lemma SortKeepsMembers<T(!new)>(s: seq<T>, le: (T, T) -> bool)
    requires TotalPreorder(le)
    ensures forall x :: x in Sort(s, le) <==> x in s
  {
    var r := Sort(s, le);
    assert forall x :: x in r <==> x in multiset(r);
    assert forall x :: x in s <==> x in multiset(s);
  }

  /** The first `n` elements of a sorted list are sorted and come from the list. */
  lemma TakeOfSorted<T>(s: seq<T>, n: nat, le: (T, T) -> bool)
    requires Sorted(s, le)
    ensures Sorted(Take(s, n), le)
    ensures forall x :: x in Take(s, n) ==> x in s
  {
    var r := Take(s, n);
    forall x | x in r ensures x in s {
      var i :| 0 <= i < |r| && r[i] == x;
      assert s[i] == x;
    }
  }

  /** Cutting a sorted list to its first `n` elements hides nothing that comes strictly
      before a shown element: every copy of such an element is shown. */
  lemma TakeOfSortedHidesOnlyLater<T>(s: seq<T>, n: nat, le: (T, T) -> bool, x: T, i: nat)
    requires Sorted(s, le)
    requires i < |Take(s, n)| && !le(Take(s, n)[i], x)
    ensures multiset(Take(s, n))[x] == multiset(s)[x]
  {
    var r := Take(s, n);
    var rest := s[|r|..];
    assert s == r + rest;
    assert x !in rest by {
      forall j | 0 <= j < |rest| ensures rest[j] != x {
        assert rest[j] == s[|r| + j] && r[i] == s[i];
      }
    }
    assert multiset(s) == multiset(r) + multiset(rest);
  }

  /** `s.filter(p).sort(cmp).slice(0, n)`: the elements passing `p`, ordered by `le`, cut
      to the first `n`. It holds `n` of them, or all when there are fewer; each comes
      from `s` and passes `p`; and an element passing `p` that comes strictly before a
      shown one is shown with every copy it has in `s`. */
  function TopN<T(!new)>(s: seq<T>, p: T -> bool, le: (T, T) -> bool, n: nat): (r: seq<T>)
    requires TotalPreorder(le)
    ensures |r| == if Count(s, p) < n then Count(s, p) else n
    ensures multiset(r) <= multiset(s)
    ensures forall x :: x in r ==> x in s && p(x)
    ensures Sorted(r, le)
    ensures forall x, i :: x in s && p(x) && 0 <= i < |r| && !le(r[i], x) ==>
      x in r && multiset(r)[x] == multiset(s)[x]
  {
    var picked := Filter(s, p);
    var sorted := Sort(picked, le);
    var r := Take(sorted, n);
    assert |r| == if Count(s, p) < n then Count(s, p) else n by {
      CountIsFilterLength(s, p);
    }
    assert multiset(r) <= multiset(s) by {
      FilterSubmultiset(s, p);
      TakeSubmultiset(sorted, n);
    }
    SortKeepsMembers(picked, le);
    TakeOfSorted(sorted, n, le);
    forall x, i | x in s && p(x) && 0 <= i < |r| && !le(r[i], x)
      ensures x in r && multiset(r)[x] == multiset(s)[x]
    {
      FilterMultiset(s, p);
      assert multiset(sorted)[x] == multiset(s)[x];
      TakeOfSortedHidesOnlyLater(sorted, n, le, x, i);
      assert x in multiset(s);
    }
    r
  }

  /** The pointwise form of the last clause of `TopN`, for callers that instantiate it
      at one element. */
  lemma TopNKeepsCopies<T(!new)>(s: seq<T>, p: T -> bool, le: (T, T) -> bool, n: nat, x: T, i: nat)
    requires TotalPreorder(le)
    requires x in s && p(x)
    requires i < |TopN(s, p, le, n)| && !le(TopN(s, p, le, n)[i], x)
    ensures x in TopN(s, p, le, n)
    ensures multiset(TopN(s, p, le, n))[x] == multiset(s)[x]
  {
  }
}
