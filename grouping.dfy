/**
 * Grouping by a string key in order of first appearance, as the report code does
 * with a plain object (`if (!g[k]) g[k] = {registros: 0, ...}; g[k].registros++`)
 * or a Python dict (`if k not in g: g[k] = 0; g[k] += 1`), and the sums over the groups.
 */
module Grouping {
  import opened Numbers

  /** The keys in order of first appearance and how many records each key has. */
  datatype Counted = Counted(order: seq<string>, counts: map<string, nat>)

  ghost predicate Distinct(s: seq<string>)
  {
    forall i, j :: 0 <= i < j < |s| ==> s[i] != s[j]
  }

  /** One step of the counting loop: a new key is appended with count 1, a known one is bumped. */
  function CountStep(c: Counted, k: string): Counted
  {
    if k in c.counts then Counted(c.order, c.counts[k := c.counts[k] + 1])
    else Counted(c.order + [k], c.counts[k := 1])
  }

  /** The groups the counting loop has built after seeing `keys`, left to right. */
  function CountBy(keys: seq<string>): (c: Counted)
    ensures |c.order| <= |keys|
    decreases |keys|
  {
    if keys == [] then Counted([], map[])
    else CountStep(CountBy(keys[..|keys| - 1]), keys[|keys| - 1])
  }

  /** The groups are the distinct keys, each listed once, and each of them has a count. */
  lemma {:induction false} CountByGroups(keys: seq<string>)
    ensures Distinct(CountBy(keys).order)
    ensures forall k {:trigger k in CountBy(keys).order} :: k in CountBy(keys).order <==> k in keys
    ensures forall k {:trigger k in CountBy(keys).counts} :: k in CountBy(keys).counts <==> k in keys
    decreases |keys|
  {
    if keys != [] {
      var prefix, k := keys[..|keys| - 1], keys[|keys| - 1];
      assert keys == prefix + [k];
      assert forall j :: j in keys <==> j in prefix || j == k;
      CountByGroups(prefix);
      var c := CountBy(prefix);
      assert CountBy(keys) == CountStep(c, k);
      assert k in c.order <==> k in c.counts;
    }
  }

  /** Each group's count is the number of times its key occurs. */
  lemma {:induction false} CountIsOccurrences(keys: seq<string>, k: string)
    ensures k in CountBy(keys).counts ==> CountBy(keys).counts[k] == multiset(keys)[k]
    decreases |keys|
  {
    if keys != [] {
      var prefix, last := keys[..|keys| - 1], keys[|keys| - 1];
      assert keys == prefix + [last];
      assert multiset(keys) == multiset(prefix) + multiset{last};
      CountByGroups(prefix);
      CountIsOccurrences(prefix, k);
    }
  }

  /** One step of an amount accumulator: `g[k].area += x` after `g[k]` was created at 0. */
  function AddStep(m: map<string, real>, k: string, x: real): map<string, real>
  {
    if k in m then m[k := m[k] + x] else m[k := 0.0 + x]
  }

  /** The amounts `xs[i]` whose key `keys[i]` is `k`, in order. */
  function AmountsOf(keys: seq<string>, xs: seq<real>, k: string): seq<real>
    requires |keys| == |xs|
    decreases |keys|
  {
    if keys == [] then []
    else
      var rest := AmountsOf(keys[..|keys| - 1], xs[..|xs| - 1], k);
      if keys[|keys| - 1] == k then rest + [xs[|xs| - 1]] else rest
  }

  /** The per-key amount totals the accumulating loop has built after seeing the pairs (keys[i], xs[i]). */
  function AmountBy(keys: seq<string>, xs: seq<real>): (m: map<string, real>)
    requires |keys| == |xs|
    ensures |m| <= |keys|
    decreases |keys|
  {
    if keys == [] then map[]
    else AddStep(AmountBy(keys[..|keys| - 1], xs[..|xs| - 1]), keys[|keys| - 1], xs[|xs| - 1])
  }

  /** The accumulating loop has a total for exactly the keys it has seen. */
  lemma {:induction false} AmountByKeys(keys: seq<string>, xs: seq<real>)
    requires |keys| == |xs|
    ensures forall k {:trigger k in AmountBy(keys, xs)} :: k in AmountBy(keys, xs) <==> k in keys
    decreases |keys|
  {
    if keys != [] {
      var prefix, k := keys[..|keys| - 1], keys[|keys| - 1];
      assert keys == prefix + [k];
      assert forall j :: j in keys <==> j in prefix || j == k;
      AmountByKeys(prefix, xs[..|xs| - 1]);
    }
  }

  /** Extending the keys seen by one more key is one more counting step. */
  lemma CountByPrefixStep(keys: seq<string>, n: nat)
    requires n < |keys|
    ensures CountBy(keys[..n + 1]) == CountStep(CountBy(keys[..n]), keys[n])
  {
    assert keys[..n + 1][..n] == keys[..n];
  }

  /** Extending the pairs seen by one more pair is one more accumulating step. */
  lemma AmountByPrefixStep(keys: seq<string>, xs: seq<real>, n: nat)
    requires |keys| == |xs| && n < |keys|
    ensures AmountBy(keys[..n + 1], xs[..n + 1]) == AddStep(AmountBy(keys[..n], xs[..n]), keys[n], xs[n])
  {
    assert keys[..n + 1][..n] == keys[..n];
    assert xs[..n + 1][..n] == xs[..n];
  }

  /**
   * The counting loop's body, as the report code writes it: a key `k` not seen
   * yet is appended to the order and starts at 0, then its count is bumped.
   * After it, the groups are those of one more key.
   */
  lemma CountLoopStep(keys: seq<string>, n: nat, order: seq<string>, counts: map<string, nat>, k: string)
    requires n < |keys| && k == keys[n]
    requires Counted(order, counts) == CountBy(keys[..n])
    ensures k in counts ==> Counted(order, counts[k := counts[k] + 1]) == CountBy(keys[..n + 1])
    ensures k !in counts ==>
      Counted(order + [k], counts[k := 0][k := counts[k := 0][k] + 1]) == CountBy(keys[..n + 1])
  {
    CountByPrefixStep(keys, n);
    if k !in counts {
      assert counts[k := 0][k := counts[k := 0][k] + 1] == counts[k := 1];
    }
  }

  /** The counting and the accumulating loop create the same groups. */
  lemma SameGroups(keys: seq<string>, xs: seq<real>)
    requires |keys| == |xs|
    ensures CountBy(keys).counts.Keys == AmountBy(keys, xs).Keys
  {
    CountByGroups(keys);
    AmountByKeys(keys, xs);
  }

  /** Each group's amount is the sum of the amounts of exactly the records with that key. */
  lemma {:induction false} AmountByIsPerKeyTotal(keys: seq<string>, xs: seq<real>, k: string)
    requires |keys| == |xs|
    ensures k in AmountBy(keys, xs) ==> AmountBy(keys, xs)[k] == Total(AmountsOf(keys, xs, k))
    decreases |keys|
  {
    if keys != [] {
      var prefix, last, x := keys[..|keys| - 1], keys[|keys| - 1], xs[|xs| - 1];
      var xs' := xs[..|xs| - 1];
      var m := AmountBy(prefix, xs');
      AmountByIsPerKeyTotal(prefix, xs', k);
      AmountByKeys(prefix, xs');
      if last == k && k !in m {
        NoAmountsWithoutKey(prefix, xs', k);
        assert AmountsOf(keys, xs, k) == [x];
        assert Total([x]) == Total([]) + x;
      }
    }
  }

  lemma {:induction false} NoAmountsWithoutKey(keys: seq<string>, xs: seq<real>, k: string)
    requires |keys| == |xs| && k !in keys
    ensures AmountsOf(keys, xs, k) == []
    decreases |keys|
  {
    if keys != [] {
      assert keys == keys[..|keys| - 1] + [keys[|keys| - 1]];
      NoAmountsWithoutKey(keys[..|keys| - 1], xs[..|xs| - 1], k);
    }
  }

  /** The value at a key, or a default for a key that is absent. */
  function Get<V>(m: map<string, V>, k: string, default: V): V
  {
    if k in m then m[k] else default
  }

  /** Sum of the counts of the keys in `order`. */
  function SumCounts(order: seq<string>, counts: map<string, nat>): nat
    decreases |order|
  {
    if order == [] then 0
    else SumCounts(order[..|order| - 1], counts) + Get(counts, order[|order| - 1], 0)
  }

  /** Sum of the amounts of the keys in `order`, left to right. */
  function SumAmounts(order: seq<string>, m: map<string, real>): real
    decreases |order|
  {
    if order == [] then 0.0
    else SumAmounts(order[..|order| - 1], m) + Get(m, order[|order| - 1], 0.0)
  }

  lemma {:induction false} SumCountsFrame(order: seq<string>, c1: map<string, nat>, c2: map<string, nat>)
    requires forall k :: k in order ==> k in c1 && k in c2 && c1[k] == c2[k]
    ensures SumCounts(order, c1) == SumCounts(order, c2)
    decreases |order|
  {
    if order != [] {
      SumCountsFrame(order[..|order| - 1], c1, c2);
    }
  }

  lemma {:induction false} SumCountsBump(order: seq<string>, c: map<string, nat>, k: string)
    requires Distinct(order)
    requires forall x :: x in order ==> x in c
    requires k in order && k in c
    ensures SumCounts(order, c[k := c[k] + 1]) == SumCounts(order, c) + 1
    decreases |order|
  {
    var prefix, last := order[..|order| - 1], order[|order| - 1];
    if last == k {
      assert k !in prefix;
      SumCountsFrame(prefix, c, c[k := c[k] + 1]);
    } else {
      assert k in prefix;
      SumCountsBump(prefix, c, k);
    }
  }

  lemma {:induction false} SumAmountsFrame(order: seq<string>, m1: map<string, real>, m2: map<string, real>)
    requires forall k :: k in order ==> k in m1 && k in m2 && m1[k] == m2[k]
    ensures SumAmounts(order, m1) == SumAmounts(order, m2)
    decreases |order|
  {
    if order != [] {
      SumAmountsFrame(order[..|order| - 1], m1, m2);
    }
  }

  lemma {:induction false} SumAmountsBump(order: seq<string>, m: map<string, real>, k: string, x: real)
    requires Distinct(order)
    requires forall y :: y in order ==> y in m
    requires k in order && k in m
    ensures SumAmounts(order, m[k := m[k] + x]) == SumAmounts(order, m) + x
    decreases |order|
  {
    var prefix, last := order[..|order| - 1], order[|order| - 1];
    if last == k {
      assert k !in prefix;
      SumAmountsFrame(prefix, m, m[k := m[k] + x]);
    } else {
      assert k in prefix;
      SumAmountsBump(prefix, m, k, x);
    }
  }

  /** A new group with count 1 adds 1 to the sum of the counts. */
  lemma SumCountsNewKey(order: seq<string>, c: map<string, nat>, k: string)
    requires k !in order
    requires forall y :: y in order ==> y in c
    ensures SumCounts(order + [k], c[k := 1]) == SumCounts(order, c) + 1
  {
    SumCountsFrame(order, c, c[k := 1]);
    assert (order + [k])[..|order|] == order;
  }

  /** A new group holding the amount `x` adds `x` to the sum of the amounts. */
  lemma SumAmountsNewKey(order: seq<string>, m: map<string, real>, k: string, x: real)
    requires k !in order
    requires forall y :: y in order ==> y in m
    ensures SumAmounts(order + [k], m[k := 0.0 + x]) == SumAmounts(order, m) + x
  {
    SumAmountsFrame(order, m, m[k := 0.0 + x]);
    assert (order + [k])[..|order|] == order;
  }

  /** The group counts add up to the number of records. */
  lemma {:induction false} CountsConserved(keys: seq<string>)
    ensures SumCounts(CountBy(keys).order, CountBy(keys).counts) == |keys|
    decreases |keys|
  {
    if keys != [] {
      var prefix, k := keys[..|keys| - 1], keys[|keys| - 1];
      var c := CountBy(prefix);
      CountByGroups(prefix);
      CountsConserved(prefix);
      if k in c.counts {
        assert CountBy(keys) == Counted(c.order, c.counts[k := c.counts[k] + 1]);
        SumCountsBump(c.order, c.counts, k);
      } else {
        assert CountBy(keys) == Counted(c.order + [k], c.counts[k := 1]);
        SumCountsNewKey(c.order, c.counts, k);
      }
    }
  }

  /** The group amounts add up to the overall total. */
  lemma {:induction false} AmountsConserved(keys: seq<string>, xs: seq<real>)
    requires |keys| == |xs|
    ensures SumAmounts(CountBy(keys).order, AmountBy(keys, xs)) == Total(xs)
    decreases |keys|
  {
    if keys != [] {
      var prefix, k := keys[..|keys| - 1], keys[|keys| - 1];
      var xs', x := xs[..|xs| - 1], xs[|xs| - 1];
      var c := CountBy(prefix);
      var m := AmountBy(prefix, xs');
      CountByGroups(prefix);
      AmountByKeys(prefix, xs');
      AmountsConserved(prefix, xs');
      assert Total(xs) == Total(xs') + x;
      if k in c.counts {
        assert CountBy(keys).order == c.order;
        assert AmountBy(keys, xs) == m[k := m[k] + x];
        SumAmountsBump(c.order, m, k, x);
      } else {
        assert CountBy(keys).order == c.order + [k];
        assert AmountBy(keys, xs) == m[k := 0.0 + x];
        SumAmountsNewKey(c.order, m, k, x);
      }
    }
  }

  /** A group's share of the total, in percent, with 0 in place of a division by a total that is not positive. */
  function Percent(part: real, total: real): (p: real)
    ensures total > 0.0 ==> p * total == part * 100.0
    ensures total <= 0.0 ==> p == 0.0
  {
    if total > 0.0 then part / total * 100.0 else 0.0
  }

  /** Sum of the shares of the keys in `order`. */
  function SumPercents(order: seq<string>, m: map<string, real>, total: real): real
    decreases |order|
  {
    if order == [] then 0.0
    else SumPercents(order[..|order| - 1], m, total) + Percent(Get(m, order[|order| - 1], 0.0), total)
  }

  lemma {:induction false} SumPercentsScaled(order: seq<string>, m: map<string, real>, total: real)
    ensures total > 0.0 ==> SumPercents(order, m, total) == SumAmounts(order, m) / total * 100.0
    ensures total <= 0.0 ==> SumPercents(order, m, total) == 0.0
    decreases |order|
  {
    if order != [] {
      var prefix := order[..|order| - 1];
      SumPercentsScaled(prefix, m, total);
      if total > 0.0 {
        SharesAdd(SumAmounts(prefix, m), Get(m, order[|order| - 1], 0.0), total);
      }
    }
  }

  lemma SharesAdd(a: real, b: real, total: real)
    requires total > 0.0
    ensures a / total * 100.0 + b / total * 100.0 == (a + b) / total * 100.0
  {
  }

  /**
   * The shares of all groups add up to 100 when the total is positive, and are all 0 otherwise.
   */
  lemma PercentagesSumTo100(keys: seq<string>, xs: seq<real>)
    requires |keys| == |xs|
    requires Total(xs) > 0.0
    ensures SumPercents(CountBy(keys).order, AmountBy(keys, xs), Total(xs)) == 100.0
  {
    var c, m, total := CountBy(keys), AmountBy(keys, xs), Total(xs);
    AmountsConserved(keys, xs);
    SumPercentsScaled(c.order, m, total);
    WholeIsHundredPercent(SumPercents(c.order, m, total), total);
  }

  lemma WholeIsHundredPercent(s: real, total: real)
    requires total > 0.0 && s == total / total * 100.0
    ensures s == 100.0
  {
  }

  lemma {:induction false} DistinctCardinality(s: seq<string>)
    requires Distinct(s)
    ensures |set k | k in s| == |s|
    decreases |s|
  {
    if s != [] {
      var prefix := s[..|s| - 1];
      DistinctCardinality(prefix);
      assert (set k | k in s) == (set k | k in prefix) + {s[|s| - 1]};
    }
  }

  /** The number of groups is the number of distinct keys (what `new Set(keys).size` reports). */
  lemma GroupCountIsDistinctKeys(keys: seq<string>)
    ensures |CountBy(keys).order| == |set k | k in keys|
  {
    var c := CountBy(keys);
    CountByGroups(keys);
    DistinctCardinality(c.order);
    assert (set k | k in c.order) == (set k | k in keys);
  }
}
