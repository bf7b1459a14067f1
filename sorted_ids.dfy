/** The row order of the poll store's queries: `ORDER BY option_id ASC`
    lists the keys of a table as a strictly ascending sequence. */
module SortedIds {

  predicate Ascending(ids: seq<int>) {
    forall i, j :: 0 <= i < j < |ids| ==> ids[i] < ids[j]
  }

  /** The smallest element of a non-empty finite set of integers. */
  ghost function Least(s: set<int>): (m: int)
    requires s != {}
    ensures m in s
    ensures forall y :: y in s ==> m <= y
  {
    assert (forall y :: y !in s) ==> s == {};
    var x :| x in s;
    if s == {x} then x
    else
      var m := Least(s - {x});
      assert forall y :: y in s ==> y == x || y in s - {x};
      if x < m then x else m
  }

  /** The elements of `s` in ascending order, each exactly once
      (SortedKeysComplete: none is missing). */
  ghost function SortedKeys(s: set<int>): (ids: seq<int>)
    ensures |ids| == |s|
    ensures Ascending(ids)
    ensures forall i :: 0 <= i < |ids| ==> ids[i] in s
    decreases s
  {
    if s == {} then []
    else
      var m := Least(s);
      var rest := SortedKeys(s - {m});
      assert forall i :: 0 <= i < |rest| ==> m < rest[i];
      [m] + rest
  }

  lemma {:induction false} SortedKeysComplete(s: set<int>)
    ensures forall k :: k in s ==> k in SortedKeys(s)
    decreases s
  {
    if s != {} {
      var m := Least(s);
      SortedKeysComplete(s - {m});
      assert SortedKeys(s) == [m] + SortedKeys(s - {m});
    }
  }

  /** The head of an ascending sequence is its least element, and the tail
      holds every other element. */
  lemma {:induction false} AscendingHeadTail(a: seq<int>)
    requires Ascending(a) && a != []
    ensures forall k :: k in a ==> a[0] <= k
    ensures forall k :: k in a[1..] <==> k in a && k != a[0]
  {
    forall k | k in a
      ensures a[0] <= k
    {
      var i :| 0 <= i < |a| && a[i] == k;
    }
    forall k | k in a[1..]
      ensures k in a && k != a[0]
    {
      var i :| 0 <= i < |a[1..]| && a[1..][i] == k;
      assert a[0] < a[i + 1];
    }
    forall k | k in a && k != a[0]
      ensures k in a[1..]
    {
      var i :| 0 <= i < |a| && a[i] == k;
      assert a[1..][i - 1] == k;
    }
  }

  /** Two ascending sequences with the same elements are equal: the order
      `ORDER BY` produces is the only one. */
  lemma {:induction false} AscendingUnique(a: seq<int>, b: seq<int>)
    requires Ascending(a) && Ascending(b)
    requires forall k :: k in a <==> k in b
    ensures a == b
    decreases |a|
  {
    assert a == [] <==> b == [] by {
      assert a != [] ==> a[0] in a;
      assert b != [] ==> b[0] in b;
    }
    if a != [] {
      AscendingHeadTail(a);
      AscendingHeadTail(b);
      assert a[0] == b[0] by {
        assert a[0] in b && b[0] in a;
      }
      AscendingUnique(a[1..], b[1..]);
      assert a == [a[0]] + a[1..] && b == [b[0]] + b[1..];
    }
  }

  /** The ids `1, 2, ..., n`. */
  function IdRange(n: nat): (ids: seq<int>)
    ensures |ids| == n
    ensures forall i :: 0 <= i < n ==> ids[i] == i + 1
  {
    seq(n, i => i + 1)
  }

  /** Listing a set whose elements are exactly `1..n`, in order, gives
      `1, 2, ..., n`. */
  lemma {:induction false} SortedKeysOfRange(s: set<int>, n: nat)
    requires forall id :: id in s <==> 1 <= id <= n
    ensures SortedKeys(s) == IdRange(n)
  {
    var ids := SortedKeys(s);
    SortedKeysComplete(s);
    forall k
      ensures k in ids <==> k in IdRange(n)
    {
      if 1 <= k <= n {
        assert IdRange(n)[k - 1] == k;
      }
    }
    AscendingUnique(ids, IdRange(n));
  }
}
