/**
 * `Array.prototype.filter` over immutable sequences, and the laws the pages'
 * views and counters depend on.
 */
module Seqs {

  /** `s.filter(p)`: the elements of `s` that satisfy `p`, in their original order. */
  function Filter<T>(s: seq<T>, p: T -> bool): (r: seq<T>)
    ensures |r| <= |s|
    ensures forall k :: 0 <= k < |r| ==> p(r[k])
  {
    if s == [] then [] else (if p(s[0]) then [s[0]] else []) + Filter(s[1..], p)
  }

  /** Every element that satisfies `p` survives the filter. */
  lemma {:induction false} FilterKeepsMatch<T>(s: seq<T>, p: T -> bool, k: nat)
    requires k < |s| && p(s[k])
    ensures s[k] in Filter(s, p)
  {
    if k > 0 {
      FilterKeepsMatch(s[1..], p, k - 1);
    }
  }

  /** The positions, from `from` on, of the elements of `s` that satisfy `p`, in increasing order. */
  function Selected<T>(s: seq<T>, p: T -> bool, from: nat): (ix: seq<nat>)
    requires from <= |s|
    ensures forall k :: 0 <= k < |ix| ==> from <= ix[k] < |s|
    ensures forall k, l :: 0 <= k < l < |ix| ==> ix[k] < ix[l]
    ensures forall i :: from <= i < |s| ==> (i in ix <==> p(s[i]))
    decreases |s| - from
  {
    if from == |s| then [] else (if p(s[from]) then [from] else []) + Selected(s, p, from + 1)
  }

  /**
   * The filter result is exactly the selection of `s` at the increasing
   * positions Selected(s, p, 0): a subsequence of `s`, order kept, that
   * misses no element satisfying `p`.
   */
  lemma FilterIsSelection<T>(s: seq<T>, p: T -> bool)
    ensures |Filter(s, p)| == |Selected(s, p, 0)|
    ensures forall k :: 0 <= k < |Filter(s, p)| ==> Filter(s, p)[k] == s[Selected(s, p, 0)[k]]
  {
    FilterSuffixIsSelection(s, p, 0);
  }

  lemma {:induction false} FilterSuffixIsSelection<T>(s: seq<T>, p: T -> bool, from: nat)
    requires from <= |s|
    ensures |Filter(s[from..], p)| == |Selected(s, p, from)|
    ensures forall k :: 0 <= k < |Filter(s[from..], p)| ==> Filter(s[from..], p)[k] == s[Selected(s, p, from)[k]]
    decreases |s| - from
  {
    if from < |s| {
      assert s[from..][1..] == s[from + 1..];
      FilterSuffixIsSelection(s, p, from + 1);
    }
  }

  /**
   * Two complementary predicates split a sequence: the two filters share no
   * element, and together they hold every element exactly as often as `s` does.
   */
  lemma FilterPartition<T>(s: seq<T>, p: T -> bool, q: T -> bool)
    requires forall x :: q(x) == !p(x)
    ensures multiset(Filter(s, p)) + multiset(Filter(s, q)) == multiset(s)
    ensures |Filter(s, p)| + |Filter(s, q)| == |s|
    ensures forall k :: 0 <= k < |Filter(s, p)| ==> Filter(s, p)[k] !in Filter(s, q)
  {
    FilterSplitsMultiset(s, p, q);
    assert |multiset(Filter(s, p)) + multiset(Filter(s, q))| == |multiset(s)|;
  }

  lemma {:induction false} FilterSplitsMultiset<T>(s: seq<T>, p: T -> bool, q: T -> bool)
    requires forall x :: q(x) == !p(x)
    ensures multiset(Filter(s, p)) + multiset(Filter(s, q)) == multiset(s)
  {
    if s != [] {
      var x, tail := s[0], s[1..];
      FilterSplitsMultiset(tail, p, q);
      assert s == [x] + tail;
      assert multiset(s) == multiset{x} + multiset(tail);
      var fp, fq := Filter(tail, p), Filter(tail, q);
      if p(x) {
        assert Filter(s, p) == [x] + fp;
        assert multiset(Filter(s, p)) == multiset{x} + multiset(fp);
        assert !q(x);
        assert Filter(s, q) == fq;
      } else {
        assert q(x);
        assert Filter(s, p) == fp;
        assert Filter(s, q) == [x] + fq;
        assert multiset(Filter(s, q)) == multiset{x} + multiset(fq);
      }
    }
  }

  /** Two complementary predicates split the length of a sequence. */
  lemma {:induction false} FilterSplitsLength<T>(s: seq<T>, p: T -> bool, q: T -> bool)
    requires forall x :: q(x) == !p(x)
    ensures |Filter(s, p)| + |Filter(s, q)| == |s|
  {
    if s != [] {
      FilterSplitsLength(s[1..], p, q);
    }
  }

  /** Three predicates of which every element satisfies exactly one split a sequence three ways. */
  lemma {:induction false} FilterPartition3<T>(s: seq<T>, p: T -> bool, q: T -> bool, r: T -> bool)
    requires forall x :: (p(x) || q(x) || r(x)) && !(p(x) && q(x)) && !(p(x) && r(x)) && !(q(x) && r(x))
    ensures |Filter(s, p)| + |Filter(s, q)| + |Filter(s, r)| == |s|
  {
    if s != [] {
      FilterPartition3(s[1..], p, q, r);
    }
  }
}
