/** Order-preserving list operations shared by every screen: `Array.prototype.filter`,
    a filtered `.length`, and `.slice(0, n)`. */
module Seqs {

  /** `r` is an order-preserving subsequence of `s`: `r` can be obtained from `s`
      by deleting elements. */
  ghost predicate Subseq<T>(r: seq<T>, s: seq<T>)
    decreases |s|
  {
    if |r| == 0 then true
    else if |s| == 0 then false
    else (r[0] == s[0] && Subseq(r[1..], s[1..])) || Subseq(r, s[1..])
  }

  /** `s.filter(p)`: keeps, in order and with their multiplicity, exactly the elements
      that satisfy `p`. */
  function Filter<T(!new)>(s: seq<T>, p: T -> bool): (r: seq<T>)
    ensures |r| <= |s|
    ensures forall i :: 0 <= i < |r| ==> p(r[i])
    ensures forall x :: x in r <==> x in s && p(x)
  {
    if |s| == 0 then []
    else
      assert s == [s[0]] + s[1..];
      if p(s[0]) then [s[0]] + Filter(s[1..], p) else Filter(s[1..], p)
  }

  /** Filtering keeps each passing element as many times as it occurs. */
  lemma {:induction false} FilterMultiset<T(!new)>(s: seq<T>, p: T -> bool)
    ensures forall x :: multiset(Filter(s, p))[x] == if p(x) then multiset(s)[x] else 0
  {
    if |s| > 0 {
      FilterMultiset(s[1..], p);
      assert s == [s[0]] + s[1..];
    }
  }

  /** Filtering only deletes: the result keeps the input's order. */
  lemma {:induction false} FilterIsSubseq<T(!new)>(s: seq<T>, p: T -> bool)
    ensures Subseq(Filter(s, p), s)
  {
    if |s| > 0 {
      FilterIsSubseq(s[1..], p);
      var r := Filter(s, p);
      if p(s[0]) {
        assert r[0] == s[0] && r[1..] == Filter(s[1..], p);
      }
    }
  }

  /** `s.filter(p).length`, computed without building the list. */
  function Count<T>(s: seq<T>, p: T -> bool): (n: nat)
    ensures n <= |s|
    ensures n == 0 <==> forall i :: 0 <= i < |s| ==> !p(s[i])
  {
    if |s| == 0 then 0 else (if p(s[0]) then 1 else 0) + Count(s[1..], p)
  }

  /** `s.slice(0, n)`: the first `n` elements, or all of them when there are fewer. */
  function Take<T>(s: seq<T>, n: nat): (r: seq<T>)
    ensures |r| == if |s| < n then |s| else n
    ensures r == s[..|r|]
  {
    if |s| <= n then s else s[..n]
  }

  /** Counting with `p` agrees with the length of the list filtered by `p`. */
  lemma {:induction false} CountIsFilterLength<T(!new)>(s: seq<T>, p: T -> bool)
    ensures Count(s, p) == |Filter(s, p)|
  {
    if |s| > 0 {
      CountIsFilterLength(s[1..], p);
    }
  }

  /** Filtering keeps everything when every element passes. */
  lemma {:induction false} FilterKeepsAll<T(!new)>(s: seq<T>, p: T -> bool)
    requires forall i :: 0 <= i < |s| ==> p(s[i])
    ensures Filter(s, p) == s
  {
    if |s| > 0 {
      FilterKeepsAll(s[1..], p);
      assert s == [s[0]] + s[1..];
    }
  }

  /** A filtered list holds no element more often than the list it came from. */
  lemma FilterSubmultiset<T(!new)>(s: seq<T>, p: T -> bool)
    ensures multiset(Filter(s, p)) <= multiset(s)
  {
    FilterMultiset(s, p);
  }

  /** A prefix holds no element more often than the whole list. */
  lemma TakeSubmultiset<T>(s: seq<T>, n: nat)
    ensures multiset(Take(s, n)) <= multiset(s)
  {
    var r := Take(s, n);
    assert s == r + s[|r|..];
    assert multiset(s) == multiset(r) + multiset(s[|r|..]);
  }

  /** Two predicates that never hold together count no more than the whole list. */
  lemma {:induction false} DisjointCountsBounded<T>(s: seq<T>, p: T -> bool, q: T -> bool)
    requires forall i :: 0 <= i < |s| ==> !(p(s[i]) && q(s[i]))
    ensures Count(s, p) + Count(s, q) <= |s|
  {
    if |s| > 0 {
      DisjointCountsBounded(s[1..], p, q);
    }
  }

  /** Filtering a non-empty list: the head, if it passes, then the filtered tail. */
  lemma FilterCons<T(!new)>(s: seq<T>, p: T -> bool)
    requires |s| > 0
    ensures Filter(s, p) == (if p(s[0]) then [s[0]] else []) + Filter(s[1..], p)
  {
  }

  lemma Associative<T>(a: seq<T>, b: seq<T>, c: seq<T>)
    ensures a + (b + c) == (a + b) + c
  {
  }

  /** Filtering a list with one more element at the end. */
  lemma {:induction false} FilterSnoc<T(!new)>(s: seq<T>, x: T, p: T -> bool)
    ensures Filter(s + [x], p) == Filter(s, p) + (if p(x) then [x] else [])
  {
    var tail := if p(x) then [x] else [];
    if |s| > 0 {
      var t := s + [x];
      var head := if p(s[0]) then [s[0]] else [];
      assert t[0] == s[0];
      assert t[1..] == s[1..] + [x];
      FilterCons(t, p);
      FilterCons(s, p);
      FilterSnoc(s[1..], x, p);
      var rest := Filter(s[1..], p);
      assert Filter(t, p) == head + (rest + tail);
      Associative(head, rest, tail);
    } else {
      assert s + [x] == [x];
      FilterCons([x], p);
      assert [x][1..] == [];
    }
  }

  /** Lists on which `p` agrees position by position have the same count. */
  lemma {:induction false} CountPointwise<T>(s: seq<T>, t: seq<T>, p: T -> bool)
    requires |s| == |t|
    requires forall i :: 0 <= i < |s| ==> p(s[i]) == p(t[i])
    ensures Count(s, p) == Count(t, p)
  {
    if |s| > 0 {
      CountPointwise(s[1..], t[1..], p);
    }
  }

  /** When exactly one of `p` and `q` holds of each element, the two filtered lists
      together are as long as the list. */
  lemma {:induction false} ComplementaryFilters<T(!new)>(s: seq<T>, p: T -> bool, q: T -> bool)
    requires forall i :: 0 <= i < |s| ==> p(s[i]) != q(s[i])
    ensures |Filter(s, p)| + |Filter(s, q)| == |s|
  {
    if |s| > 0 {
      ComplementaryFilters(s[1..], p, q);
    }
  }

  /** The length of a filtered list grows by one exactly when the last element passes. */
  lemma FilterLengthSnoc<T(!new)>(s: seq<T>, p: T -> bool)
    requires |s| > 0
    ensures |Filter(s, p)| == |Filter(s[..|s| - 1], p)| + (if p(s[|s| - 1]) then 1 else 0)
  {
    assert s == s[..|s| - 1] + [s[|s| - 1]];
    FilterSnoc(s[..|s| - 1], s[|s| - 1], p);
  }

  /** Every list is a subsequence of itself. */
  lemma {:induction false} SubseqRefl<T>(s: seq<T>)
    ensures Subseq(s, s)
  {
    if |s| > 0 {
      SubseqRefl(s[1..]);
    }
  }
}
