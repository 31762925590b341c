/** `Array.prototype.filter` and what it guarantees: the result holds exactly the
    elements that pass the test, each at a position given by how many kept
    elements precede it, so the original order is kept. */
module SeqFilter {

  /** The elements of `s` that satisfy `p`, in their original order. */
  function Filter<T>(s: seq<T>, p: T -> bool): (r: seq<T>)
    ensures |r| <= |s|
    ensures forall k :: 0 <= k < |r| ==> p(r[k])
    decreases |s|
  {
    if s == [] then []
    else Filter(s[..|s| - 1], p) + (if p(s[|s| - 1]) then [s[|s| - 1]] else [])
  }

  /** The position that a kept element `s[i]` takes in `Filter(s, p)`. */
  function Rank<T>(s: seq<T>, p: T -> bool, i: nat): nat
    requires i <= |s|
  {
    |Filter(s[..i], p)|
  }

  /** Filtering a prefix gives a prefix of the filtered sequence. */
  lemma {:induction false} FilterPrefix<T>(s: seq<T>, p: T -> bool, j: nat)
    requires j <= |s|
    ensures Filter(s[..j], p) <= Filter(s, p)
    decreases |s|
  {
    if j == |s| {
      assert s[..j] == s;
    } else {
      var s' := s[..|s| - 1];
      FilterPrefix(s', p, j);
      assert s'[..j] == s[..j];
    }
  }

  /** Filtering one more element appends it exactly when it passes. */
  lemma FilterSnoc<T>(s: seq<T>, p: T -> bool, i: nat)
    requires i < |s|
    ensures Filter(s[..i + 1], p) == Filter(s[..i], p) + (if p(s[i]) then [s[i]] else [])
  {
    assert s[..i + 1][..i] == s[..i];
  }

  /** Every element that passes appears in the result, at its rank. */
  lemma FilterKeeps<T>(s: seq<T>, p: T -> bool, i: nat)
    requires i < |s| && p(s[i])
    ensures Rank(s, p, i) < |Filter(s, p)|
    ensures Filter(s, p)[Rank(s, p, i)] == s[i]
  {
    FilterSnoc(s, p, i);
    FilterPrefix(s, p, i + 1);
  }

  /** Two kept elements stay in the order they had. */
  lemma RankIncreases<T>(s: seq<T>, p: T -> bool, i: nat, j: nat)
    requires i < j <= |s| && p(s[i])
    ensures Rank(s, p, i) < Rank(s, p, j)
  {
    FilterSnoc(s, p, i);
    FilterPrefix(s[..j], p, i + 1);
    assert s[..j][..i + 1] == s[..i + 1];
  }

  /** Every element of the result is a kept element of `s`, at its rank. */
  lemma {:induction false} FilterOnlyKept<T>(s: seq<T>, p: T -> bool, k: nat)
    requires k < |Filter(s, p)|
    ensures exists i :: 0 <= i < |s| && p(s[i]) && Rank(s, p, i) == k && Filter(s, p)[k] == s[i]
    decreases |s|
  {
    var s' := s[..|s| - 1];
    if k < |Filter(s', p)| {
      FilterOnlyKept(s', p, k);
      var i :| 0 <= i < |s'| && p(s'[i]) && Rank(s', p, i) == k && Filter(s', p)[k] == s'[i];
      assert s'[..i] == s[..i];
      assert p(s[i]) && Rank(s, p, i) == k && Filter(s, p)[k] == s[i];
    } else {
      var i := |s| - 1;
      assert s[..i] == s';
      assert p(s[i]) && Rank(s, p, i) == k && Filter(s, p)[k] == s[i];
    }
  }

  /** Filtering distributes over concatenation. */
  lemma {:induction false} FilterAppend<T>(a: seq<T>, b: seq<T>, p: T -> bool)
    ensures Filter(a + b, p) == Filter(a, p) + Filter(b, p)
    decreases |b|
  {
    if b == [] {
      assert a + b == a;
    } else {
      var b', x := b[..|b| - 1], b[|b| - 1];
      FilterAppend(a, b', p);
      var tail := if p(x) then [x] else [];
      assert (a + b)[..|a + b| - 1] == a + b';
      assert (a + b)[|a + b| - 1] == x;
      assert Filter(a + b, p) == Filter(a + b', p) + tail;
      assert Filter(b, p) == Filter(b', p) + tail;
    }
  }

  /** The conjunction of two tests. */
  function Both<T>(p: T -> bool, q: T -> bool): T -> bool {
    x => p(x) && q(x)
  }

  /** Filtering twice is filtering once by both tests. */
  lemma {:induction false} FilterFilter<T>(s: seq<T>, p: T -> bool, q: T -> bool)
    ensures Filter(Filter(s, p), q) == Filter(s, Both(p, q))
    decreases |s|
  {
    if s != [] {
      var s' := s[..|s| - 1];
      var x := s[|s| - 1];
      FilterFilter(s', p, q);
      FilterAppend(Filter(s', p), if p(x) then [x] else [], q);
      if p(x) {
        assert Filter([x], q) == Filter([], q) + (if q(x) then [x] else []);
      }
    }
  }
}
