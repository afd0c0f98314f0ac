/** The tile codes of the game and sorted hands of tiles. */
module Tiles {

  /** Characters 1-9, circles 11-19, bamboos 21-29, winds 31-34, dragons 41-43. */
  predicate IsSuitTile(t: int) {
    1 <= t <= 9 || 11 <= t <= 19 || 21 <= t <= 29 || 31 <= t <= 34 || 41 <= t <= 43
  }

  predicate IsFlower(t: int) {
    51 <= t <= 58
  }

  ghost predicate AllSuitTiles(s: seq<int>) {
    forall k :: 0 <= k < |s| ==> IsSuitTile(s[k])
  }

  ghost predicate Sorted(s: seq<int>) {
    forall i, j :: 0 <= i <= j < |s| ==> s[i] <= s[j]
  }

  lemma SmallestFirst(a: seq<int>, t: int)
    requires Sorted(a) && t in multiset(a)
    ensures a != [] && a[0] <= t
  {
  }

  lemma TailBag(a: seq<int>)
    requires a != []
    ensures multiset(a) == multiset(a[1..]) + multiset{a[0]}
  {
    assert a == [a[0]] + a[1..];
  }

  /** A sorted hand is determined by its tiles. */
  lemma {:induction false} SortedUnique(a: seq<int>, b: seq<int>)
    requires Sorted(a) && Sorted(b)
    requires multiset(a) == multiset(b)
    ensures a == b
  {
    if a == [] {
      assert |multiset(b)| == 0;
    } else {
      TailBag(a);
      SmallestFirst(b, a[0]);
      TailBag(b);
      SmallestFirst(a, b[0]);
      Cancel(multiset(a[1..]), multiset(b[1..]), multiset{a[0]});
      SortedUnique(a[1..], b[1..]);
      assert a == [a[0]] + a[1..] && b == [b[0]] + b[1..];
    }
  }

  lemma Cancel(a: multiset<int>, b: multiset<int>, c: multiset<int>)
    requires a + c == b + c
    ensures a == b
  {
    assert a == (a + c) - c;
    assert b == (b + c) - c;
  }
}
