/**
 * Sums and the ascending sorted copy shared by the statistics and report code.
 * Numbers are `real`: the model has no floating-point rounding.
 */
module Numbers {

  /** Left-to-right sum, the way `reduce((a, b) => a + b, 0)` and Python's `sum` add up. */
  function Total(xs: seq<real>): (t: real)
    decreases |xs|
  {
    if xs == [] then 0.0 else Total(xs[..|xs| - 1]) + xs[|xs| - 1]
  }

  /** Summing a concatenation is summing the parts. */
  lemma {:induction false} TotalAppend(a: seq<real>, b: seq<real>)
    ensures Total(a + b) == Total(a) + Total(b)
    decreases |b|
  {
    if b == [] {
      assert a + b == a;
    } else {
      var b' := b[..|b| - 1];
      assert (a + b)[..|a + b| - 1] == a + b';
      TotalAppend(a, b');
    }
  }

  /** A sum of non-negative terms is non-negative. */
  lemma {:induction false} TotalNonNegative(xs: seq<real>)
    requires forall i :: 0 <= i < |xs| ==> xs[i] >= 0.0
    ensures Total(xs) >= 0.0
    decreases |xs|
  {
    if xs != [] {
      TotalNonNegative(xs[..|xs| - 1]);
    }
  }

  ghost predicate Sorted(s: seq<real>)
  {
    forall i, j :: 0 <= i < j < |s| ==> s[i] <= s[j]
  }

  lemma SortedTail(s: seq<real>)
    requires Sorted(s) && |s| > 0
    ensures Sorted(s[1..])
  {
  }

  /** An element no greater than the head of an ascending sequence can go in front of it. */
  lemma SortedCons(a: real, t: seq<real>)
    requires Sorted(t) && (|t| > 0 ==> a <= t[0])
    ensures Sorted([a] + t)
  {
    var r := [a] + t;
    forall i, j | 0 <= i < j < |r|
      ensures r[i] <= r[j]
    {
      if i == 0 {
        assert r[j] == t[j - 1] && t[0] <= t[j - 1];
      } else {
        assert r[i] == t[i - 1] && r[j] == t[j - 1];
      }
    }
  }

  /** Puts `x` into its place in an ascending sequence. */
  function Insert(x: real, s: seq<real>): (r: seq<real>)
    requires Sorted(s)
    ensures Sorted(r)
    ensures |r| == |s| + 1 && r[0] == (if s == [] || x <= s[0] then x else s[0])
    decreases |s|
  {
    if s == [] then [x]
    else if x <= s[0] then
      SortedCons(x, s);
      [x] + s
    else
      SortedTail(s);
      var rest := Insert(x, s[1..]);
      SortedCons(s[0], rest);
      [s[0]] + rest
  }

  /** Inserting adds exactly `x` to the elements. */
  lemma {:induction false} InsertAddsOne(x: real, s: seq<real>)
    requires Sorted(s)
    ensures multiset(Insert(x, s)) == multiset(s) + multiset{x}
    decreases |s|
  {
    if s != [] && x > s[0] {
      SortedTail(s);
      InsertAddsOne(x, s[1..]);
      assert s == [s[0]] + s[1..];
    }
  }

  /**
   * The ascending copy that `[...values].sort((a, b) => a - b)` and Python's
   * `statistics.median` work on; the argument itself is a value and stays as it is.
   */
  function SortedCopy(s: seq<real>): (r: seq<real>)
    ensures Sorted(r)
    ensures multiset(r) == multiset(s)
    decreases |s|
  {
    if s == [] then []
    else
      assert s == [s[0]] + s[1..];
      InsertAddsOne(s[0], SortedCopy(s[1..]));
      Insert(s[0], SortedCopy(s[1..]))
  }

  /** The head of an ascending sequence is below every element. */
  lemma HeadIsLeast(s: seq<real>, v: real)
    requires Sorted(s) && v in s
    ensures s[0] <= v
  {
    var j :| 0 <= j < |s| && s[j] == v;
    assert s[0] <= s[j];
  }

  /** Two ascending sequences with the same elements are the same sequence. */
  lemma {:induction false} SortedUnique(a: seq<real>, b: seq<real>)
    requires Sorted(a) && Sorted(b)
    requires multiset(a) == multiset(b)
    ensures a == b
    decreases |a|
  {
    if a == [] {
      assert |b| == |multiset(b)| == 0;
    } else {
      assert |b| == |multiset(b)| == |multiset(a)| == |a|;
      assert a[0] in multiset(b) && b[0] in multiset(a);
      HeadIsLeast(b, a[0]);
      HeadIsLeast(a, b[0]);
      assert a[0] == b[0];
      assert a == [a[0]] + a[1..];
      assert b == [b[0]] + b[1..];
      assert multiset(a) == multiset{a[0]} + multiset(a[1..]);
      assert multiset(b) == multiset{b[0]} + multiset(b[1..]);
      forall z ensures multiset(a[1..])[z] == multiset(b[1..])[z] {
        assert multiset(a)[z] == multiset{a[0]}[z] + multiset(a[1..])[z];
        assert multiset(b)[z] == multiset{b[0]}[z] + multiset(b[1..])[z];
      }
      assert multiset(a[1..]) == multiset(b[1..]);
      SortedUnique(a[1..], b[1..]);
    }
  }

  /** Sorting a sequence that is already ascending gives it back. */
  lemma SortedCopyOfSorted(s: seq<real>)
    requires Sorted(s)
    ensures SortedCopy(s) == s
  {
    SortedUnique(SortedCopy(s), s);
  }

  /** Python's `min`: the smallest element. */
  function Min(xs: seq<real>): (r: real)
    requires |xs| > 0
    ensures r in xs
    ensures forall v :: v in xs ==> r <= v
    decreases |xs|
  {
    if |xs| == 1 then xs[0]
    else
      var m := Min(xs[1..]);
      assert xs == [xs[0]] + xs[1..];
      if xs[0] <= m then xs[0] else m
  }

  /** Python's `max`: the largest element. */
  function Max(xs: seq<real>): (r: real)
    requires |xs| > 0
    ensures r in xs
    ensures forall v :: v in xs ==> v <= r
    decreases |xs|
  {
    if |xs| == 1 then xs[0]
    else
      var m := Max(xs[1..]);
      assert xs == [xs[0]] + xs[1..];
      if xs[0] >= m then xs[0] else m
  }

  /** The last element of an ascending sequence is above every element. */
  lemma LastIsGreatest(s: seq<real>, v: real)
    requires Sorted(s) && v in s
    ensures s[|s| - 1] >= v
  {
    var j :| 0 <= j < |s| && s[j] == v;
    assert s[j] <= s[|s| - 1];
  }

  /** The ends of an ascending arrangement of `xs` are the minimum and the maximum of `xs`. */
  lemma SortedEnds(t: seq<real>, xs: seq<real>)
    requires |xs| > 0
    requires Sorted(t) && multiset(t) == multiset(xs)
    ensures |t| == |xs|
    ensures t[0] == Min(xs)
    ensures t[|t| - 1] == Max(xs)
  {
    assert |t| == |multiset(t)| == |multiset(xs)| == |xs|;
    var lo, hi := t[0], t[|t| - 1];
    assert lo in multiset(t) && hi in multiset(t);
    assert lo in xs && hi in xs;
    var mn, mx := Min(xs), Max(xs);
    assert mn in multiset(xs) && mx in multiset(xs);
    HeadIsLeast(t, mn);
    LastIsGreatest(t, mx);
  }
}
