/**
 * Order-preserving filtering, the one list operation the pages apply over
 * and over (`Array.prototype.filter`), and the subsequence relation that
 * says what it preserves; also prefixes and reversal.
 */
module Seqs {

  /** `s.filter(p)`: the elements of `s` satisfying `p`, in their original order. */
  function Filter<T>(s: seq<T>, p: T -> bool): (r: seq<T>)
    ensures |r| <= |s|
    ensures forall i :: 0 <= i < |r| ==> p(r[i])
  {
    if s == [] then [] else (if p(s[0]) then [s[0]] else []) + Filter(s[1..], p)
  }

  /** `r` is obtained from `s` by deleting elements, keeping the order of the rest. */
  ghost predicate SubsequenceOf<T>(r: seq<T>, s: seq<T>)
    decreases |s|
  {
    r == [] || (s != [] && ((r[0] == s[0] && SubsequenceOf(r[1..], s[1..])) || SubsequenceOf(r, s[1..])))
  }

  lemma {:induction false} FilterIsSubsequence<T>(s: seq<T>, p: T -> bool)
    ensures SubsequenceOf(Filter(s, p), s)
    decreases |s|
  {
    if s != [] {
      FilterIsSubsequence(s[1..], p);
      var r := Filter(s, p);
      if p(s[0]) {
        assert r == [s[0]] + Filter(s[1..], p);
        assert r[0] == s[0] && r[1..] == Filter(s[1..], p);
      } else {
        assert r == Filter(s[1..], p);
      }
    }
  }

  lemma {:induction false} FilterMembership<T>(s: seq<T>, p: T -> bool, x: T)
    ensures x in Filter(s, p) <==> x in s && p(x)
    decreases |s|
  {
    if s != [] {
      FilterMembership(s[1..], p, x);
      assert s == [s[0]] + s[1..];
    }
  }

  lemma {:induction false} FilterAll<T>(s: seq<T>, p: T -> bool)
    requires forall i :: 0 <= i < |s| ==> p(s[i])
    ensures Filter(s, p) == s
    decreases |s|
  {
    if s != [] {
      FilterAll(s[1..], p);
    }
  }

  lemma {:induction false} FilterConcat<T>(a: seq<T>, b: seq<T>, p: T -> bool)
    ensures Filter(a + b, p) == Filter(a, p) + Filter(b, p)
    decreases |a|
  {
    if a != [] {
      assert (a + b)[0] == a[0] && (a + b)[1..] == a[1..] + b;
      FilterConcat(a[1..], b, p);
      assert Filter(a + b, p) == (if p(a[0]) then [a[0]] else []) + Filter(a[1..] + b, p);
    } else {
      assert a + b == b;
    }
  }

  /** The indices below `k` whose element of `s` satisfies `p`. */
  ghost function Positions<T>(s: seq<T>, p: T -> bool, k: nat): set<int>
    requires k <= |s|
  {
    set i | 0 <= i < k && p(s[i])
  }

  /** Filtering keeps one element per index of the first `k` whose element satisfies `p`. */
  lemma {:induction false} FilterCountsIndices<T>(s: seq<T>, p: T -> bool, k: nat)
    requires k <= |s|
    ensures |Filter(s[..k], p)| == |Positions(s, p, k)|
    decreases k
  {
    if k == 0 {
      assert Positions(s, p, k) == {};
    } else {
      FilterCountsIndices(s, p, k - 1);
      assert s[..k] == s[..k - 1] + [s[k - 1]];
      FilterConcat(s[..k - 1], [s[k - 1]], p);
      assert [s[k - 1]][1..] == [];
      if p(s[k - 1]) {
        assert Positions(s, p, k) == Positions(s, p, k - 1) + {k - 1};
      } else {
        assert Positions(s, p, k) == Positions(s, p, k - 1);
      }
    }
  }

  /** Filtering with predicates that agree on every element gives the same list. */
  lemma {:induction false} FilterCongruent<T>(s: seq<T>, p: T -> bool, q: T -> bool)
    requires forall i :: 0 <= i < |s| ==> p(s[i]) == q(s[i])
    ensures Filter(s, p) == Filter(s, q)
    decreases |s|
  {
    if s != [] {
      FilterCongruent(s[1..], p, q);
    }
  }

  /** Two filters applied one after the other give the same list in either order. */
  lemma {:induction false} FilterCommute<T>(s: seq<T>, p: T -> bool, q: T -> bool)
    ensures Filter(Filter(s, p), q) == Filter(Filter(s, q), p)
    decreases |s|
  {
    if s != [] {
      FilterCommute(s[1..], p, q);
      var hp := if p(s[0]) then [s[0]] else [];
      var hq := if q(s[0]) then [s[0]] else [];
      FilterConcat(hp, Filter(s[1..], p), q);
      FilterConcat(hq, Filter(s[1..], q), p);
      assert Filter(hp, q) == Filter(hq, p) by {
        if p(s[0]) && q(s[0]) {
          assert Filter(hp, q) == [s[0]] + Filter([], q);
          assert Filter(hq, p) == [s[0]] + Filter([], p);
        } else if p(s[0]) {
          assert Filter(hp, q) == Filter([], q);
        } else if q(s[0]) {
          assert Filter(hq, p) == Filter([], p);
        }
      }
    }
  }

  /** `s.slice(0, k)`: the first `k` elements, or all of `s`. */
  function Take<T>(s: seq<T>, k: nat): (r: seq<T>)
    ensures |r| == if k <= |s| then k else |s|
    ensures forall i :: 0 <= i < |r| ==> r[i] == s[i]
  {
    if k <= |s| then s[..k] else s
  }

  /** A kept element sits in the filtered list at the count of kept elements before it. */
  lemma FilterPosition<T>(s: seq<T>, p: T -> bool, i: nat)
    requires i < |s| && p(s[i])
    ensures |Filter(s[..i], p)| < |Filter(s, p)|
    ensures Filter(s, p)[|Filter(s[..i], p)|] == s[i]
  {
    assert s == s[..i] + ([s[i]] + s[i + 1..]);
    FilterConcat(s[..i], [s[i]] + s[i + 1..], p);
    FilterConcat([s[i]], s[i + 1..], p);
    assert Filter([s[i]], p) == [s[i]] + Filter([], p);
  }

  /** Conversely, every element of the filtered list comes from a kept position of `s`. */
  lemma {:induction false} FilterSource<T>(s: seq<T>, p: T -> bool, j: nat) returns (i: nat)
    requires j < |Filter(s, p)|
    ensures i < |s| && p(s[i])
    ensures |Filter(s[..i], p)| == j && Filter(s, p)[j] == s[i]
    decreases |s|
  {
    var head := if p(s[0]) then [s[0]] else [];
    assert Filter(s, p) == head + Filter(s[1..], p);
    if p(s[0]) && j == 0 {
      i := 0;
      assert s[..0] == [];
    } else {
      var k := ForwardIndex(s, p, j);
      var i' := FilterSource(s[1..], p, k);
      i := i' + 1;
      assert s[..i] == [s[0]] + s[1..][..i'];
      FilterConcat([s[0]], s[1..][..i'], p);
      assert Filter([s[0]], p) == head + Filter([], p);
    }
  }

  /** The index in the tail's filtered list that index `j` of the whole filtered list refers to. */
  function ForwardIndex<T>(s: seq<T>, p: T -> bool, j: nat): (k: nat)
    requires s != [] && j < |Filter(s, p)| && !(p(s[0]) && j == 0)
    ensures k < |Filter(s[1..], p)|
    ensures Filter(s, p)[j] == Filter(s[1..], p)[k]
    ensures j == k + (if p(s[0]) then 1 else 0)
  {
    assert Filter(s, p) == (if p(s[0]) then [s[0]] else []) + Filter(s[1..], p);
    if p(s[0]) then j - 1 else j
  }

  /** `s` back to front. */
  function Reverse<T>(s: seq<T>): (r: seq<T>)
    ensures |r| == |s|
  {
    if s == [] then [] else Reverse(s[1..]) + [s[0]]
  }

  lemma {:induction false} ReverseAt<T>(s: seq<T>, i: nat)
    requires i < |s|
    ensures Reverse(s)[i] == s[|s| - 1 - i]
  {
    if i < |s| - 1 {
      ReverseAt(s[1..], i);
    }
  }

  lemma ReverseInvolutive<T>(s: seq<T>)
    ensures Reverse(Reverse(s)) == s
  {
    forall i | 0 <= i < |s| ensures Reverse(Reverse(s))[i] == s[i] {
      ReverseAt(Reverse(s), i);
      ReverseAt(s, |s| - 1 - i);
    }
  }
}
