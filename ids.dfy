/**
 * The id rule both record stores use: a new record gets `length + 1` of its
 * collection, and deleting removes a record without renumbering the others.
 * The lemmas show when the rule keeps ids unique and when it repeats one.
 */
module IdRule {

  /** The ids after appending one record with id `length + 1`. */
  function AppendId(ids: seq<int>): (r: seq<int>)
    ensures |r| == |ids| + 1 && r[..|ids|] == ids
    ensures r[|ids|] == |ids| + 1
  {
    ids + [|ids| + 1]
  }

  /** The ids after deleting the record at position `i`. */
  function RemoveIdAt(ids: seq<int>, i: nat): (r: seq<int>)
    requires i < |ids|
    ensures |r| == |ids| - 1
    ensures forall j :: 0 <= j < i ==> r[j] == ids[j]
    ensures forall j :: i <= j < |r| ==> r[j] == ids[j + 1]
  {
    ids[..i] + ids[i + 1..]
  }

  ghost predicate Unique(ids: seq<int>)
  {
    forall i, j :: 0 <= i < j < |ids| ==> ids[i] != ids[j]
  }

  /** The ids 1, 2, ..., n of a collection that has only ever grown. */
  function Consecutive(n: nat): (r: seq<int>)
    ensures |r| == n
    decreases n
  {
    if n == 0 then [] else Consecutive(n - 1) + [n]
  }

  lemma {:induction false} ConsecutiveAt(n: nat, i: nat)
    requires i < n
    ensures Consecutive(n)[i] == i + 1
    decreases n
  {
    if i < n - 1 {
      ConsecutiveAt(n - 1, i);
    }
  }

  /** Appending to a collection that has only grown keeps the ids 1..n+1. */
  lemma AppendKeepsConsecutive(n: nat)
    ensures AppendId(Consecutive(n)) == Consecutive(n + 1)
  {
  }

  /** Appending repeats an id exactly when `length + 1` is already taken (or ids were repeated before). */
  lemma AppendUniqueIff(ids: seq<int>)
    ensures Unique(AppendId(ids)) <==> Unique(ids) && |ids| + 1 !in ids
  {
    var r := AppendId(ids);
    assert forall i :: 0 <= i < |ids| ==> r[i] == ids[i];
    if |ids| + 1 in ids {
      var k :| 0 <= k < |ids| && ids[k] == |ids| + 1;
      assert r[k] == r[|ids|];
    }
  }

  /**
   * In a collection with ids 1..n, deleting a record and then adding one leaves
   * the ids unique exactly when the deleted record was the last one; any other
   * deletion makes the new record take the id of the current last record.
   */
  lemma DeleteThenAppend(n: nat, i: nat)
    requires i < n
    ensures Unique(AppendId(RemoveIdAt(Consecutive(n), i))) <==> i == n - 1
  {
    var ids := Consecutive(n);
    var after := RemoveIdAt(ids, i);
    var r := AppendId(after);
    if i == n - 1 {
      assert after == Consecutive(n - 1);
      assert r == Consecutive(n);
      forall a, b | 0 <= a < b < n ensures r[a] != r[b] {
        ConsecutiveAt(n, a);
        ConsecutiveAt(n, b);
      }
    } else {
      ConsecutiveAt(n, n - 1);
      assert r[n - 2] == ids[n - 1] == n;
      assert r[n - 1] == n;
    }
  }
}
