/** Order-preserving sequence combinators and their algebra. */
module Seqs {

  /** The elements of `s` that satisfy `p`, in their original order. */
  function Filter<T>(s: seq<T>, p: T -> bool): (r: seq<T>)
    ensures |r| <= |s|
    ensures forall i :: 0 <= i < |r| ==> r[i] in s && p(r[i])
    ensures forall i :: 0 <= i < |s| && p(s[i]) ==> s[i] in r
  {
    if |s| == 0 then []
    else if p(s[0]) then [s[0]] + Filter(s[1..], p)
    else Filter(s[1..], p)
  }

  /** `f` applied to every element of `s`, in order. */
  function Map<T, U>(s: seq<T>, f: T -> U): (r: seq<U>)
    ensures |r| == |s|
    ensures forall i :: 0 <= i < |s| ==> r[i] == f(s[i])
  {
    if |s| == 0 then [] else [f(s[0])] + Map(s[1..], f)
  }

  /** One step of `Filter`: the head is kept exactly when it satisfies `p`. */
  lemma FilterCons<T>(x: T, s: seq<T>, p: T -> bool)
    ensures Filter([x] + s, p) == (if p(x) then [x] else []) + Filter(s, p)
  {
    assert ([x] + s)[1..] == s;
  }

  lemma {:induction false} FilterConcat<T>(a: seq<T>, b: seq<T>, p: T -> bool)
    ensures Filter(a + b, p) == Filter(a, p) + Filter(b, p)
  {
    if |a| == 0 {
      assert a + b == b;
    } else {
      assert (a + b)[0] == a[0];
      assert (a + b)[1..] == a[1..] + b;
      FilterConcat(a[1..], b, p);
    }
  }

  /** Filtering by a predicate that holds of every element keeps everything. */
  lemma {:induction false} FilterAll<T>(s: seq<T>, p: T -> bool)
    requires forall x :: x in s ==> p(x)
    ensures Filter(s, p) == s
  {
    if |s| > 0 {
      assert forall x :: x in s[1..] ==> x in s;
      FilterAll(s[1..], p);
    }
  }

  /** Filtering by a predicate that holds of no element keeps nothing. */
  lemma {:induction false} FilterNone<T>(s: seq<T>, p: T -> bool)
    requires forall x :: x in s ==> !p(x)
    ensures Filter(s, p) == []
  {
    if |s| > 0 {
      assert forall x :: x in s[1..] ==> x in s;
      FilterNone(s[1..], p);
    }
  }

  /** Two predicates that agree on the elements of `s` filter it alike. */
  lemma {:induction false} FilterCongruent<T>(s: seq<T>, p: T -> bool, q: T -> bool)
    requires forall x :: x in s ==> p(x) == q(x)
    ensures Filter(s, p) == Filter(s, q)
  {
    if |s| > 0 {
      assert forall x :: x in s[1..] ==> x in s;
      FilterCongruent(s[1..], p, q);
    }
  }

  /**
   * When `p` splits into the disjoint cases `q` and `r` on the elements of
   * `s`, the `p`-elements are, as a multiset, the `q`- and `r`-elements.
   */
  lemma {:induction false} FilterPartition<T>(s: seq<T>, p: T -> bool, q: T -> bool, r: T -> bool)
    requires forall x :: x in s ==> (p(x) <==> q(x) || r(x)) && !(q(x) && r(x))
    ensures multiset(Filter(s, p)) == multiset(Filter(s, q)) + multiset(Filter(s, r))
  {
    if |s| > 0 {
      assert forall x :: x in s[1..] ==> x in s;
      FilterPartition(s[1..], p, q, r);
    }
  }

  lemma {:induction false} MapConcat<T, U>(a: seq<T>, b: seq<T>, f: T -> U)
    ensures Map(a + b, f) == Map(a, f) + Map(b, f)
  {
    assert |Map(a + b, f)| == |Map(a, f) + Map(b, f)|;
    assert forall i :: 0 <= i < |a| + |b| ==> Map(a + b, f)[i] == (Map(a, f) + Map(b, f))[i];
  }

  /** Mapping a function over two permutations of each other gives permutations. */
  lemma {:induction false} MapMultiset<T, U>(s: seq<T>, t: seq<T>, f: T -> U)
    requires multiset(s) == multiset(t)
    ensures multiset(Map(s, f)) == multiset(Map(t, f))
    decreases |s|
  {
    if |s| > 0 {
      assert s[0] in multiset(t);
      var j :| 0 <= j < |t| && t[j] == s[0];
      PermutationTail(s, t, j);
      MapMultiset(s[1..], t[..j] + t[j + 1..], f);
      MapMultisetStep(s, t, j, f);
    } else {
      assert |t| == |multiset(t)| == |multiset(s)| == 0;
    }
  }

  /** Matching heads extend a permutation of the mapped tails to the whole sequences. */
  lemma MapMultisetStep<T, U>(s: seq<T>, t: seq<T>, j: nat, f: T -> U)
    requires 0 < |s| && j < |t| && t[j] == s[0]
    requires multiset(Map(s[1..], f)) == multiset(Map(t[..j] + t[j + 1..], f))
    ensures multiset(Map(s, f)) == multiset(Map(t, f))
  {
    SplitAt(t, j);
    SplitAt(s, 0);
    MapRemove(t[..j], s[0], t[j + 1..], f);
    MapRemove([], s[0], s[1..], f);
  }

  /** A sequence is its prefix, the element at `j`, and its suffix. */
  lemma SplitAt<T>(t: seq<T>, j: nat)
    requires j < |t|
    ensures t == t[..j] + ([t[j]] + t[j + 1..])
  {
    assert t[j..] == [t[j]] + t[j + 1..];
  }

  /** Matching the head of one permutation in the other leaves permutations behind. */
  lemma PermutationTail<T>(s: seq<T>, t: seq<T>, j: nat)
    requires multiset(s) == multiset(t)
    requires 0 < |s| && j < |t| && t[j] == s[0]
    ensures multiset(s[1..]) == multiset(t[..j] + t[j + 1..])
  {
    MultisetRemove(t, j);
    assert s == [s[0]] + s[1..];
  }

  /** Dropping the element at `j` removes one copy of it from the multiset. */
  lemma MultisetRemove<T>(t: seq<T>, j: nat)
    requires j < |t|
    ensures multiset(t[..j] + t[j + 1..]) == multiset(t) - multiset{t[j]}
  {
    assert t == t[..j] + [t[j]] + t[j + 1..];
  }

  /** Mapping after dropping the element at `j` drops exactly its image. */
  lemma MapRemove<T, U>(a: seq<T>, x: T, b: seq<T>, f: T -> U)
    ensures multiset(Map(a + ([x] + b), f)) == multiset(Map(a + b, f)) + multiset{f(x)}
  {
    MapConcat(a, [x] + b, f);
    MapConcat([x], b, f);
    MapConcat(a, b, f);
    assert Map([x], f) == [f(x)];
  }
}
