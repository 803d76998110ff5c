/** Array.prototype.filter over a sequence, and what it means for a result to
    be "the elements that pass, in their original order". */
module Arrays {

  /** Array.prototype.filter: the elements of `s` for which `keep` holds,
      visited from left to right. */
  function Filter<T>(s: seq<T>, keep: T -> bool): (r: seq<T>)
    ensures |r| <= |s|
    ensures forall x :: x in r ==> x in s && keep(x)
  {
    if s == [] then []
    else if keep(s[0]) then [s[0]] + Filter(s[1..], keep)
    else Filter(s[1..], keep)
  }

  /** `r` is obtained from `s` by deleting some of its elements: nothing is
      added and the order is kept. */
  ghost predicate IsSubsequence<T>(r: seq<T>, s: seq<T>) {
    if s == [] then r == []
    else IsSubsequence(r, s[1..]) || (r != [] && r[0] == s[0] && IsSubsequence(r[1..], s[1..]))
  }

  /** `r` lists exactly the elements of `s` that pass `keep`, each as often as
      in `s`, in the order of `s`. */
  ghost predicate SelectsInOrder<T(!new)>(r: seq<T>, s: seq<T>, keep: T -> bool) {
    IsSubsequence(r, s) &&
    (forall x :: x in r ==> keep(x)) &&
    (forall x :: keep(x) ==> multiset(r)[x] == multiset(s)[x])
  }

  /** A subsequence never holds an element more often than the sequence. */
  lemma {:induction false} SubsequenceMultiset<T>(r: seq<T>, s: seq<T>)
    requires IsSubsequence(r, s)
    ensures multiset(r) <= multiset(s)
  {
    if s != [] {
      assert s == [s[0]] + s[1..];
      if IsSubsequence(r, s[1..]) {
        SubsequenceMultiset(r, s[1..]);
      } else {
        SubsequenceMultiset(r[1..], s[1..]);
        assert r == [r[0]] + r[1..];
      }
    }
  }

  /** Filter selects exactly the passing elements, in order. */
  lemma {:induction false} FilterSelects<T(!new)>(s: seq<T>, keep: T -> bool)
    ensures SelectsInOrder(Filter(s, keep), s, keep)
  {
    if s != [] {
      FilterSelects(s[1..], keep);
      var rest := Filter(s[1..], keep);
      assert s == [s[0]] + s[1..];
      if keep(s[0]) {
        assert ([s[0]] + rest)[1..] == rest;
      }
    }
  }

  /** Filter is the only selection of the passing elements in order: any `r`
      that selects them equals Filter's result. */
  lemma {:induction false} SelectsUnique<T(!new)>(r: seq<T>, s: seq<T>, keep: T -> bool)
    requires SelectsInOrder(r, s, keep)
    ensures r == Filter(s, keep)
  {
    if s == [] {
    } else {
      var a := s[0];
      assert s == [a] + s[1..];
      if r != [] {
        assert r[0] in r;
      }
      if keep(a) && r != [] && r[0] == a && IsSubsequence(r[1..], s[1..]) {
        assert r == [a] + r[1..];
        forall x | x in r[1..] ensures keep(x) {
          assert x in r;
        }
        forall x | keep(x) ensures multiset(r[1..])[x] == multiset(s[1..])[x] {
        }
        SelectsUnique(r[1..], s[1..], keep);
      } else if keep(a) {
        SubsequenceMultiset(r, s[1..]);
        assert false;
      } else {
        forall x | keep(x) ensures multiset(r)[x] == multiset(s[1..])[x] {
          assert x != a;
        }
        SelectsUnique(r, s[1..], keep);
      }
    }
  }

  /** An element of `s` is kept exactly when it passes. */
  lemma {:induction false} FilterMembership<T>(s: seq<T>, keep: T -> bool, x: T)
    requires x in s
    ensures x in Filter(s, keep) <==> keep(x)
  {
    if s[0] != x {
      FilterMembership(s[1..], keep, x);
    }
  }

  /** When every element passes, filtering changes nothing. */
  lemma {:induction false} FilterKeepsAll<T>(s: seq<T>, keep: T -> bool)
    requires forall x :: x in s ==> keep(x)
    ensures Filter(s, keep) == s
  {
    if s != [] {
      FilterKeepsAll(s[1..], keep);
    }
  }

  /** Filtering twice is filtering once by both tests. */
  lemma {:induction false} FilterFusion<T>(s: seq<T>, p: T -> bool, q: T -> bool, pq: T -> bool)
    requires forall x :: pq(x) == (p(x) && q(x))
    ensures Filter(Filter(s, p), q) == Filter(s, pq)
  {
    if s != [] {
      FilterFusion(s[1..], p, q, pq);
      if p(s[0]) {
        assert Filter(s, p) == [s[0]] + Filter(s[1..], p);
        assert ([s[0]] + Filter(s[1..], p))[1..] == Filter(s[1..], p);
      }
    }
  }

  /** Filtering by two tests that agree everywhere gives the same result. */
  lemma {:induction false} FilterSameTest<T>(s: seq<T>, p: T -> bool, q: T -> bool)
    requires forall x :: p(x) == q(x)
    ensures Filter(s, p) == Filter(s, q)
  {
    if s != [] {
      FilterSameTest(s[1..], p, q);
    }
  }
}
