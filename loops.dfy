/**
 * The loop demonstration, `processLoops` (script.js): the values from a start to an
 * end value in fixed steps, split into even and odd numbers, and their sum.
 */
module Loops {
  import opened Wrappers

  /**
   * `parseInt(field) || default`: a field that does not parse (None) or parses
   * to 0 falls back to the default.
   */
  function LoopInput(raw: Option<int>, default: int): (v: int)
    ensures raw.Some? && raw.value != 0 ==> v == raw.value
    ensures raw.None? || raw.value == 0 ==> v == default
  {
    if raw.Some? && raw.value != 0 then raw.value else default
  }

  /** The loop runs forever when it starts at or below the end and the step does not move upwards. */
  predicate Terminates(start: int, end: int, step: int)
  {
    start > end || step > 0
  }

  /** The values `start, start + step, ...` that do not exceed `end`. */
  function Arith(start: int, end: int, step: int): (s: seq<int>)
    requires Terminates(start, end, step)
    ensures s == [] <==> start > end
    ensures forall x :: x in s ==> start <= x <= end
    decreases if start > end then 0 else end - start + 1
  {
    if start > end then [] else [start] + Arith(start + step, end, step)
  }

  function Evens(s: seq<int>): (r: seq<int>)
    ensures forall x :: x in r <==> x in s && x % 2 == 0
    ensures |r| <= |s|
  {
    if s == [] then [] else if s[0] % 2 == 0 then [s[0]] + Evens(s[1..]) else Evens(s[1..])
  }

  function Odds(s: seq<int>): (r: seq<int>)
    ensures forall x :: x in r <==> x in s && x % 2 != 0
    ensures |r| <= |s|
  {
    if s == [] then [] else if s[0] % 2 != 0 then [s[0]] + Odds(s[1..]) else Odds(s[1..])
  }

  function SumInts(s: seq<int>): (r: int)
    ensures (forall i | 0 <= i < |s| :: s[i] >= 0) ==> r >= 0
    ensures (forall i | 0 <= i < |s| :: s[i] <= 0) ==> r <= 0
  {
    if s == [] then 0 else SumInts(s[..|s| - 1]) + s[|s| - 1]
  }

  /** Filtering distributes over concatenation. */
  lemma {:induction false} FiltersAppend(a: seq<int>, b: seq<int>)
    ensures Evens(a + b) == Evens(a) + Evens(b)
    ensures Odds(a + b) == Odds(a) + Odds(b)
    decreases |a|
  {
    if a == [] {
      assert a + b == b;
    } else {
      assert (a + b)[0] == a[0];
      assert (a + b)[1..] == a[1..] + b;
      FiltersAppend(a[1..], b);
    }
  }

  /** Every value lands in exactly one of the two lists: together they are a rearrangement of the sequence. */
  lemma {:induction false} EvensOddsPartition(s: seq<int>)
    ensures multiset(Evens(s)) + multiset(Odds(s)) == multiset(s)
    ensures |Evens(s)| + |Odds(s)| == |s|
    decreases |s|
  {
    if s != [] {
      EvensOddsPartition(s[1..]);
      assert s == [s[0]] + s[1..];
    }
  }

  /** The k-th value is `start + k * step`, and no value exceeds the end. */
  lemma {:induction false} ArithElements(start: int, end: int, step: int)
    requires step > 0
    ensures forall k :: 0 <= k < |Arith(start, end, step)| ==>
      Arith(start, end, step)[k] == start + k * step && Arith(start, end, step)[k] <= end
    decreases if start > end then 0 else end - start + 1
  {
    if start <= end {
      var s := Arith(start, end, step);
      var rest := Arith(start + step, end, step);
      ArithElements(start + step, end, step);
      forall k | 0 <= k < |s|
        ensures s[k] == start + k * step && s[k] <= end
      {
        if k > 0 {
          assert s[k] == rest[k - 1];
          assert rest[k - 1] == start + step + (k - 1) * step && rest[k - 1] <= end;
          assert step + (k - 1) * step == k * step;
        }
      }
    }
  }

  /** The loop stops at the last value not above the end: one more step would pass it. */
  lemma {:induction false} ArithIsMaximal(start: int, end: int, step: int)
    requires step > 0 && start <= end
    ensures var s := Arith(start, end, step);
      |s| > 0 && s[0] == start && s[|s| - 1] <= end < s[|s| - 1] + step
    decreases end - start + 1
  {
    var s, rest := Arith(start, end, step), Arith(start + step, end, step);
    assert s == [start] + rest;
    if start + step <= end {
      ArithIsMaximal(start + step, end, step);
      assert s[|s| - 1] == rest[|rest| - 1];
    } else {
      assert rest == [];
    }
  }

  /** The sums of the two lists add up to the sum of the sequence. */
  lemma {:induction false} SumSplits(s: seq<int>)
    ensures SumInts(Evens(s)) + SumInts(Odds(s)) == SumInts(s)
    decreases |s|
  {
    if s != [] {
      var prefix, last := s[..|s| - 1], s[|s| - 1];
      assert s == prefix + [last];
      FiltersAppend(prefix, [last]);
      SumSplits(prefix);
      SumAppend(Evens(prefix), Evens([last]));
      SumAppend(Odds(prefix), Odds([last]));
    }
  }

  lemma {:induction false} SumAppend(a: seq<int>, b: seq<int>)
    ensures SumInts(a + b) == SumInts(a) + SumInts(b)
    decreases |b|
  {
    if b == [] {
      assert a + b == a;
    } else {
      assert (a + b)[..|a + b| - 1] == a + b[..|b| - 1];
      SumAppend(a, b[..|b| - 1]);
    }
  }

  /** A value not above the end is the first of its sequence, and the next value starts the rest. */
  lemma ArithStep(i: int, end: int, step: int)
    requires Terminates(i, end, step) && i <= end
    ensures |Arith(i, end, step)| > 0 && Arith(i, end, step)[0] == i
    ensures Terminates(i + step, end, step) && Arith(i, end, step)[1..] == Arith(i + step, end, step)
  {
  }

  /**
   * The body of the loop of `processLoops`: pushes the value, adds it to the sum
   * and files it as even or odd by `i % 2 === 0`.
   */
  method Registrar(sequence: seq<int>, evenNumbers: seq<int>, oddNumbers: seq<int>, sum: int, i: int)
    returns (sequence': seq<int>, evenNumbers': seq<int>, oddNumbers': seq<int>, sum': int)
    requires evenNumbers == Evens(sequence) && oddNumbers == Odds(sequence) && sum == SumInts(sequence)
    ensures sequence' == sequence + [i]
    ensures evenNumbers' == Evens(sequence') && oddNumbers' == Odds(sequence')
    ensures sum' == SumInts(sequence')
  {
    FiltersAppend(sequence, [i]);
    assert SumInts(sequence + [i]) == sum + i by {
      assert (sequence + [i])[..|sequence|] == sequence;
    }
    sequence' := sequence + [i];
    sum' := sum + i;
    evenNumbers', oddNumbers' := evenNumbers, oddNumbers;
    if i % 2 == 0 {
      evenNumbers' := evenNumbers + [i];
    } else {
      oddNumbers' := oddNumbers + [i];
    }
  }

  /** The loop of `processLoops`: the values from `start` in steps of `step` while they do not exceed `end`. */
  method ProcessLoops(start: int, end: int, step: int) returns (sequence: seq<int>, evenNumbers: seq<int>, oddNumbers: seq<int>, sum: int)
    requires Terminates(start, end, step)
    ensures sequence == Arith(start, end, step)
    ensures evenNumbers == Evens(sequence) && oddNumbers == Odds(sequence)
    ensures sum == SumInts(sequence)
  {
    sequence, evenNumbers, oddNumbers, sum := [], [], [], 0;
    var i := start;
    ghost var rest := Arith(start, end, step);
    while i <= end
      invariant Terminates(i, end, step) && rest == Arith(i, end, step)
      invariant sequence + rest == Arith(start, end, step)
      invariant evenNumbers == Evens(sequence) && oddNumbers == Odds(sequence)
      invariant sum == SumInts(sequence)
      decreases end - i + 1
    {
      ArithStep(i, end, step);
      assert (sequence + [i]) + rest[1..] == sequence + rest by {
        assert rest == [i] + rest[1..];
      }
      rest := rest[1..];
      sequence, evenNumbers, oddNumbers, sum := Registrar(sequence, evenNumbers, oddNumbers, sum, i);
      i := i + step;
    }
  }
}
