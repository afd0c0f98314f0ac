/** The bubble sort used for hands, in place on the first tiles of a buffer. */
module Sorting {
  import opened Tiles

  ghost predicate SwappedAt(a: seq<int>, b: seq<int>, j: nat)
    requires j + 1 < |a|
  {
    b == a[j := a[j + 1]][j + 1 := a[j]]
  }

  lemma ExchangeKeepsTiles(a: seq<int>, b: seq<int>, j: nat, max: nat)
    requires j + 1 < max <= |a| && SwappedAt(a, b, j)
    ensures multiset(b[..max]) == multiset(a[..max]) && b[max..] == a[max..]
  {
  }

  /** One pass: the largest tile of the prefix ends up last. */
  method BubblePass(a: array<int>, max: nat)
    requires 0 < max <= a.Length
    modifies a
    ensures multiset(a[..max]) == old(multiset(a[..max])) && a[max..] == old(a[max..])
    ensures forall k :: 0 <= k < max ==> a[k] <= a[max - 1]
  {
    var j := 0;
    while j < max - 1
      invariant j < max
      invariant multiset(a[..max]) == old(multiset(a[..max])) && a[max..] == old(a[max..])
      invariant forall k :: 0 <= k < j ==> a[k] <= a[j]
    {
      if a[j] > a[j + 1] {
        ghost var was := a[..];
        a[j], a[j + 1] := a[j + 1], a[j];
        ExchangeKeepsTiles(was, a[..], j, max);
        assert a[..][..max] == a[..max] && was[..max] == was[..][..max] && a[..][max..] == a[max..];
      }
      j := j + 1;
    }
  }

  /** The tiles from `m` on are in place. */
  ghost predicate Settled(a: seq<int>, m: nat) {
    m <= |a| && Sorted(a[m..]) && forall k, q :: 0 <= k < m <= q < |a| ==> a[k] <= a[q]
  }

  lemma SettleOne(a: seq<int>, b: seq<int>, m: nat)
    requires 0 < m <= |a| == |b| && Settled(a, m)
    requires b[m..] == a[m..] && multiset(b[..m]) == multiset(a[..m])
    requires forall k :: 0 <= k < m ==> b[k] <= b[m - 1]
    ensures Settled(b, m - 1) && multiset(b) == multiset(a)
  {
    forall k, q | 0 <= k < m <= q < |b| ensures b[k] <= b[q] {
      assert b[..m][k] in multiset(b[..m]);
      assert b[k] in a[..m];
      assert b[m..][q - m] == a[m..][q - m];
    }
    var s := b[m - 1..];
    forall i, j | 0 <= i <= j < |s| ensures s[i] <= s[j] {
      if i > 0 { assert b[m..][i - 1] <= b[m..][j - 1]; }
    }
    assert a == a[..m] + a[m..] && b == b[..m] + b[m..];
  }

  /** Sorts the first `max` tiles and leaves the rest. */
  method BubbleSort(a: array<int>, max: nat)
    requires max <= a.Length
    modifies a
    ensures Sorted(a[..max]) && multiset(a[..max]) == old(multiset(a[..max]))
    ensures forall k :: max <= k < a.Length ==> a[k] == old(a[k])
  {
    var i := 0;
    while i < max
      invariant i <= max
      invariant Settled(a[..max], max - i)
      invariant multiset(a[..max]) == old(multiset(a[..max])) && a[max..] == old(a[max..])
    {
      ghost var was := a[..];
      BubblePass(a, max - i);
      Prefixes(was, a[..], max - i, max);
      SettleOne(was[..max], a[..max], max - i);
      i := i + 1;
    }
    TailKept(old(a[..]), a[..], max);
  }

  lemma TailKept(a: seq<int>, b: seq<int>, max: nat)
    requires max <= |a| == |b| && a[max..] == b[max..]
    ensures forall k :: max <= k < |a| ==> a[k] == b[k]
  {
  }

  lemma Prefixes(a: seq<int>, b: seq<int>, m: nat, max: nat)
    requires m <= max <= |a| == |b| && b[m..] == a[m..] && multiset(b[..m]) == multiset(a[..m])
    ensures b[..max][m..] == a[..max][m..] && b[max..] == a[max..]
    ensures multiset(b[..max][..m]) == multiset(a[..max][..m])
  {
    assert b[..max][m..] == b[m..][..max - m] && a[..max][m..] == a[m..][..max - m];
    assert b[max..] == b[m..][max - m..] && a[max..] == a[m..][max - m..];
    assert b[..max][..m] == b[..m] && a[..max][..m] == a[..m];
  }
}
