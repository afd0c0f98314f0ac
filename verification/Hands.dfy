/** A seat's hand, searched and edited in place. Below `num` the tiles are sorted; entry `num` is
    the extra tile of a player about to throw. */
module Hands {
  import opened Tiles
  import opened Sorting

  // ----- What the edits do to the buffer -----

  /** The first place of a tile among the first `num`, or `num`. */
  function First(s: seq<int>, num: nat, t: int): (i: nat)
    requires num <= |s|
    ensures i <= num && (i < num ==> s[i] == t)
    ensures forall k :: 0 <= k < i ==> s[k] != t
    ensures i == num <==> t !in s[..num]
  {
    FirstFrom(s, num, t, 0)
  }

  function FirstFrom(s: seq<int>, num: nat, t: int, i: nat): (r: nat)
    requires i <= num <= |s| && forall k :: 0 <= k < i ==> s[k] != t
    ensures i <= r <= num && (r < num ==> s[r] == t)
    ensures forall k :: 0 <= k < r ==> s[k] != t
    decreases num - i
  {
    if i == num || s[i] == t then i else FirstFrom(s, num, t, i + 1)
  }

  /** Eating: each of the two tiles is found and overwritten from the end of the hand. */
  function EatEdit(s: seq<int>, num: nat, a: int, b: int): (r: seq<int>)
    requires 2 <= num < |s|
    ensures |r| == |s|
  {
    var s1 := s[First(s, num, a) := s[num - 1]];
    s1[First(s1, num, b) := s1[num - 2]]
  }

  /** Two neighbouring places are overwritten from the end of the hand. */
  function OverwriteTwo(s: seq<int>, n: nat, i: nat): (r: seq<int>)
    requires 2 <= n <= |s| && i + 1 < |s|
    ensures |r| == |s|
  {
    var s1 := s[i := s[n - 1]];
    s1[i + 1 := s1[n - 2]]
  }

  function OverwriteThree(s: seq<int>, n: nat, i: nat): (r: seq<int>)
    requires 3 <= n <= |s| && i + 2 < |s|
    ensures |r| == |s|
  {
    OverwriteTwo(s[i := s[n - 1]], n - 1, i + 1)
  }

  /** Ponging: the first copy and its neighbour are overwritten. */
  function PongEdit(s: seq<int>, num: nat, c: int): (r: seq<int>)
    requires 2 <= num && num + 1 < |s|
    ensures |r| == |s|
  {
    var i := First(s, num, c);
    if i == num then s else OverwriteTwo(s, num, i)
  }

  /** The kang loop, which goes on after a match. */
  function KangSweep(s: seq<int>, num: nat, c: int, i: nat): (r: seq<int>)
    requires 3 <= num && num + 2 <= |s| && i <= num
    ensures |r| == |s|
    decreases num - i
  {
    if i == num then s
    else if s[i] == c then KangSweep(OverwriteThree(s, num, i), num, c, i + 1)
    else KangSweep(s, num, c, i + 1)
  }

  // ----- The edits remove exactly the claimed tiles -----

  lemma DropLast(s: seq<int>, n: nat)
    requires 0 < n <= |s|
    ensures multiset(s[..n]) == multiset(s[..n - 1]) + multiset{s[n - 1]}
  {
    assert s[..n] == s[..n - 1] + [s[n - 1]];
  }

  lemma Overwrite(s: seq<int>, n: nat, p: nat, v: int)
    requires n <= |s| && p < |s|
    ensures p < n ==> multiset(s[p := v][..n]) == multiset(s[..n]) - multiset{s[p]} + multiset{v}
    ensures p < n ==> s[p] in multiset(s[..n])
    ensures p >= n ==> s[p := v][..n] == s[..n]
  {
  }

  /** Overwriting a tile below `n` with the last one, and dropping the last one. */
  lemma ReplaceByLast(s: seq<int>, n: nat, p: nat)
    requires 0 < n <= |s| && p < n
    ensures multiset(s[..n]) == multiset(s[p := s[n - 1]][..n - 1]) + multiset{s[p]}
  {
    DropLast(s, n);
    Overwrite(s, n - 1, p, s[n - 1]);
    if p < n - 1 {
      Swap(multiset(s[..n - 1]), s[p], s[n - 1]);
    }
  }

  lemma Swap(m: multiset<int>, a: int, b: int)
    requires a in m
    ensures m - multiset{a} + multiset{b} + multiset{a} == m + multiset{b}
  {
  }

  lemma PlusTwice(m: multiset<int>, a: int, b: int)
    ensures m + multiset{b} + multiset{a} == m + multiset{a, b}
  {
  }

  /** Both tiles go and nothing else does, wherever they stand and even when a tile moved from
      the end is the next one looked for. */
  lemma EatEditExact(s: seq<int>, num: nat, a: int, b: int)
    requires 2 <= num < |s| && a != b && a in s[..num] && b in s[..num]
    ensures multiset(s[..num]) == multiset(EatEdit(s, num, a, b)[..num - 2]) + multiset{a, b}
  {
    var p := First(s, num, a);
    var s1 := s[p := s[num - 1]];
    ReplaceByLast(s, num, p);
    StillThere(s, num, p, b);
    EatSecond(s1, num, p, a, b, multiset(s[..num]));
  }

  lemma EatSecond(s1: seq<int>, num: nat, p: nat, a: int, b: int, m: multiset<int>)
    requires 2 <= num < |s1| && p < num && s1[p] == s1[num - 1] && b in s1[..num]
    requires p == num - 1 ==> s1[p] != b
    requires m == multiset(s1[..num - 1]) + multiset{a}
    ensures m == multiset(s1[First(s1, num, b) := s1[num - 2]][..num - 2]) + multiset{a, b}
  {
    var q := First(s1, num, b);
    ReplaceByLast(s1, num - 1, q);
    PlusTwice(multiset(s1[q := s1[num - 2]][..num - 2]), a, b);
  }

  lemma StillThere(s: seq<int>, num: nat, p: nat, b: int)
    requires 0 < num <= |s| && p < num && s[p] != b && b in s[..num]
    ensures b in s[p := s[num - 1]][..num]
  {
    var k :| 0 <= k < num && s[..num][k] == b;
    assert s[p := s[num - 1]][..num][k] == b;
  }

  /** One copy of `c` goes: from place `q`, or from the end when `q` is already dropped. */
  lemma RemoveOne(s: seq<int>, n: nat, q: nat, c: int)
    requires 0 < n <= |s| && q < |s|
    requires if q < n then s[q] == c else s[n - 1] == c
    ensures multiset(s[..n]) == multiset(s[q := s[n - 1]][..n - 1]) + multiset{c}
  {
    if q < n {
      ReplaceByLast(s, n, q);
    } else {
      DropLast(s, n);
      assert s[q := s[n - 1]][..n - 1] == s[..n - 1];
    }
  }

  ghost predicate Run(s: seq<int>, num: nat, c: int, i: nat, k: nat) {
    i + k <= num <= |s| && forall j :: i <= j < i + k ==> s[j] == c
  }

  lemma OverwriteTwoExact(s: seq<int>, n: nat, c: int, i: nat)
    requires 2 <= n <= |s| && i < n && i + 1 < |s| && s[i] == c
    requires if i + 1 < n then s[i + 1] == c else s[n - 2] == c
    ensures multiset(s[..n]) == multiset(OverwriteTwo(s, n, i)[..n - 2]) + multiset{c, c}
  {
    var s1 := s[i := s[n - 1]];
    RemoveOne(s, n, i, c);
    RemoveOne(s1, n - 1, i + 1, c);
    PlusTwice(multiset(OverwriteTwo(s, n, i)[..n - 2]), c, c);
  }

  lemma PongEditExact(s: seq<int>, num: nat, c: int)
    requires 2 <= num && num + 1 < |s| && Run(s, num, c, First(s, num, c), 2)
    ensures multiset(s[..num]) == multiset(PongEdit(s, num, c)[..num - 2]) + multiset{c, c}
  {
    OverwriteTwoExact(s, num, c, First(s, num, c));
  }

  lemma OverwriteThreeExact(s: seq<int>, num: nat, c: int, i: nat)
    requires 3 <= num && num + 2 <= |s| && i + 3 <= num && s[i] == c && s[i + 1] == c && s[i + 2] == c
    ensures multiset(s[..num]) == multiset(OverwriteThree(s, num, i)[..num - 3]) + multiset{c, c, c}
  {
    var s1 := s[i := s[num - 1]];
    var r := OverwriteTwo(s1, num - 1, i + 1);
    FirstStep(s, s1, num, c, i);
    LaterSteps(s1, r, num, c, i);
    ThreeFromTwo(multiset(s[..num]), multiset(s1[..num - 1]), multiset(r[..num - 3]), c);
  }

  lemma FirstStep(s: seq<int>, s1: seq<int>, num: nat, c: int, i: nat)
    requires 3 <= num && num + 2 <= |s| && i + 3 <= num && s[i] == c && s[i + 1] == c && s[i + 2] == c
    requires s1 == s[i := s[num - 1]]
    ensures multiset(s[..num]) == multiset(s1[..num - 1]) + multiset{c}
    ensures s1[i + 1] == c && if i + 2 < num - 1 then s1[i + 2] == c else s1[num - 3] == c
  {
    RemoveOne(s, num, i, c);
  }

  lemma LaterSteps(s1: seq<int>, r: seq<int>, num: nat, c: int, i: nat)
    requires 3 <= num && num + 2 <= |s1| && i + 3 <= num
    requires s1[i + 1] == c && if i + 2 < num - 1 then s1[i + 2] == c else s1[num - 3] == c
    requires r == OverwriteTwo(s1, num - 1, i + 1)
    ensures multiset(s1[..num - 1]) == multiset(r[..num - 3]) + multiset{c, c}
  {
    OverwriteTwoExact(s1, num - 1, c, i + 1);
  }

  lemma ThreeFromTwo(m: multiset<int>, m1: multiset<int>, r: multiset<int>, c: int)
    requires m == m1 + multiset{c} && m1 == r + multiset{c, c}
    ensures m == r + multiset{c, c, c}
  {
  }

  lemma {:induction false} SweepTail(s: seq<int>, num: nat, c: int, i: nat)
    requires 3 <= num && num + 2 <= |s| && i <= num
    requires forall k :: i <= k < num - 3 ==> s[k] != c
    ensures KangSweep(s, num, c, i)[..num - 3] == s[..num - 3]
    decreases num - i
  {
    if i < num {
      if s[i] == c {
        assert OverwriteThree(s, num, i)[..num - 3] == s[..num - 3];
        SweepTail(OverwriteThree(s, num, i), num, c, i + 1);
      } else {
        SweepTail(s, num, c, i + 1);
      }
    }
  }

  lemma {:induction false} SweepStart(s: seq<int>, num: nat, c: int, i: nat, j: nat)
    requires 3 <= num && num + 2 <= |s| && i <= j <= num
    requires forall k :: i <= k < j ==> s[k] != c
    ensures KangSweep(s, num, c, i) == KangSweep(s, num, c, j)
    decreases j - i
  {
    if i < j { SweepStart(s, num, c, i + 1, j); }
  }

  /** With exactly three copies below `num`, the loop removes them although it does not stop. */
  lemma KangSweepExact(s: seq<int>, num: nat, c: int)
    requires 3 <= num && num + 2 <= |s| && Run(s, num, c, First(s, num, c), 3)
    requires multiset(s[..num])[c] == 3
    ensures multiset(s[..num]) == multiset(KangSweep(s, num, c, 0)[..num - 3]) + multiset{c, c, c}
  {
    var i := First(s, num, c);
    SweepStart(s, num, c, 0, i);
    OverwriteThreeExact(s, num, c, i);
    var t := OverwriteThree(s, num, i);
    assert c !in multiset(t[..num - 3]);
    forall k | 0 <= k < num - 3 ensures t[k] != c {
      assert t[..num - 3][k] in multiset(t[..num - 3]);
    }
    SweepTail(t, num, c, i + 1);
  }

  /** While the last tile is another one, every copy the loop meets is overwritten by it. */
  lemma {:induction false} SweepClears(s: seq<int>, num: nat, c: int, i: nat)
    requires 3 <= num && num + 2 <= |s| && i <= num - 3 && s[num - 1] != c
    requires forall k :: 0 <= k < i ==> s[k] != c
    ensures forall k :: 0 <= k < num - 3 ==> KangSweep(s, num, c, i)[k] != c
    decreases num - i
  {
    if i < num - 3 {
      SweepClears(if s[i] == c then OverwriteThree(s, num, i) else s, num, c, i + 1);
    } else {
      SweepRest(s, num, c, i);
    }
  }

  /** From place `num - 3` on the loop does not touch the tiles below. */
  lemma {:induction false} SweepRest(s: seq<int>, num: nat, c: int, i: nat)
    requires 3 <= num && num + 2 <= |s| && num - 3 <= i <= num
    ensures KangSweep(s, num, c, i)[..num - 3] == s[..num - 3]
    decreases num - i
  {
    if i < num {
      var t := if s[i] == c then OverwriteThree(s, num, i) else s;
      SweepRest(t, num, c, i + 1);
      assert t[..num - 3] == s[..num - 3];
    }
  }

  /** When the copies stand at the end, the loop writes copies over copies. */
  lemma {:induction false} SweepSame(s: seq<int>, num: nat, c: int, i: nat, a: nat)
    requires 3 <= num && num + 2 <= |s| && i <= num && a <= num - 3
    requires forall k :: 0 <= k < num ==> (s[k] == c <==> a <= k)
    ensures KangSweep(s, num, c, i)[..num] == s[..num]
    decreases num - i
  {
    if i < num {
      var t := if s[i] == c then OverwriteThree(s, num, i) else s;
      assert t[..num] == s[..num];
      assert forall k :: 0 <= k < num ==> t[..num][k] == t[k] && s[..num][k] == s[k];
      SweepSame(t, num, c, i + 1, a);
    }
  }

  /** The loop leaves a hand with three copies fewer. */
  ghost predicate SweepsThree(s: seq<int>, num: nat, c: int)
    requires 3 <= num && num + 2 <= |s|
  {
    multiset(s[..num]) == multiset(KangSweep(s, num, c, 0)[..num - 3]) + multiset{c, c, c}
  }

  lemma CopiesLast(s: seq<int>, num: nat, c: int)
    requires 3 <= num && num + 2 <= |s| && Sorted(s[..num]) && multiset(s[..num])[c] >= 3 && s[num - 1] == c
    ensures SweepsThree(s, num, c)
  {
    var i := First(s, num, c);
    CopiesAdjacent(s, num, c, 3);
    forall k | i <= k < num ensures s[k] == c {
      assert s[..num][i] <= s[..num][k] <= s[..num][num - 1];
    }
    SweepSame(s, num, c, 0, i);
    var r := KangSweep(s, num, c, 0);
    assert r[..num - 3] == r[..num][..num - 3] == s[..num][..num - 3] == s[..num - 3];
    assert s[..num] == s[..num - 3] + [c, c, c];
  }

  lemma CopiesLost(s: seq<int>, num: nat, c: int)
    requires 3 <= num && num + 2 <= |s| && multiset(s[..num])[c] > 3 && s[num - 1] != c
    ensures !SweepsThree(s, num, c)
  {
    SweepClears(s, num, c, 0);
    var r := KangSweep(s, num, c, 0)[..num - 3];
    assert c !in r;
    assert multiset(r)[c] == 0;
  }

  /** In a sorted hand with at least three copies the loop takes out exactly three of them if and only
      if there are exactly three or the copies stand at the end; otherwise a fourth is lost as well. */
  lemma KangSweepExactly(s: seq<int>, num: nat, c: int)
    requires 3 <= num && num + 2 <= |s| && Sorted(s[..num]) && multiset(s[..num])[c] >= 3
    ensures multiset(s[..num]) == multiset(KangSweep(s, num, c, 0)[..num - 3]) + multiset{c, c, c}
            <==> multiset(s[..num])[c] == 3 || s[num - 1] == c
  {
    if s[num - 1] == c {
      CopiesLast(s, num, c);
    } else if multiset(s[..num])[c] == 3 {
      CopiesAdjacent(s, num, c, 3);
      KangSweepExact(s, num, c);
    } else {
      CopiesLost(s, num, c);
    }
  }

  // ----- A seat -----

  /** A meld on the table: its kind code and its tiles. */
  datatype OutCard = OutCard(kind: int, tiles: seq<int>)

  predicate IsPongOf(m: OutCard, c: int) {
    m.kind == 2 && m.tiles != [] && m.tiles[0] == c
  }

  /** The place of the first pong of a tile, or the number of melds. */
  function FindPong(melds: seq<OutCard>, c: int): (i: nat)
    ensures i <= |melds|
    ensures forall j :: 0 <= j < i ==> !IsPongOf(melds[j], c)
    ensures i < |melds| ==> IsPongOf(melds[i], c)
  {
    if melds == [] then 0
    else
      var last := |melds| - 1;
      var i := FindPong(melds[..last], c);
      if i < last then i else if IsPongOf(melds[last], c) then last else last + 1
  }

  /** Whether one of the first two tiles shown is `c`. */
  predicate Shows(m: OutCard, c: int) {
    |m.tiles| >= 2 && (m.tiles[0] == c || m.tiles[1] == c)
  }

  /** The owner's search for the pong to add to: the first meld that shows the tile. */
  function FindShown(melds: seq<OutCard>, c: int): (i: nat)
    ensures i <= |melds|
    ensures forall j :: 0 <= j < i ==> !Shows(melds[j], c)
    ensures i < |melds| ==> Shows(melds[i], c)
  {
    if melds == [] then 0
    else
      var last := |melds| - 1;
      var i := FindShown(melds[..last], c);
      if i < last then i else if Shows(melds[last], c) then last else last + 1
  }

  /** What is known of one seat: its buffer, the number of sorted tiles, and its melds. */
  class Pool {
    const card: array<int>
    const flower: array<bool>
    var num: nat
    var outCard: seq<OutCard>

    /** Room for the extra tile, and for the kang loop to run past it; each meld took three
        tiles out of the hand. */
    ghost predicate Valid()
      reads this
    {
      card.Length == 20 && flower.Length == 8 && num + 3 * |outCard| == 16
    }

    ghost function Tiles(n: nat): multiset<int>
      requires n <= card.Length
      reads this, card
    {
      multiset(card[..n])
    }

    constructor ()
      ensures Valid() && num == 16 && outCard == [] && fresh(card) && fresh(flower)
    {
      card := new int[20](_ => 0);
      flower := new bool[8](_ => false);
      num, outCard := 16, [];
    }

    ghost predicate SortedHand()
      requires Valid()
      reads this, card
    {
      Sorted(card[..num])
    }

    /** The first place of a tile, or -1; a search for tile 0 answers 0. */
    method SearchCard(t: int) returns (i: int)
      requires Valid()
      ensures t == 0 ==> i == 0
      ensures t != 0 && i < 0 ==> t !in card[..num]
      ensures t != 0 && i >= 0 ==> i < num && i == First(card[..], num, t) && t in card[..num]
    {
      if t == 0 { return 0; }
      i := 0;
      while i < num
        invariant 0 <= i <= num && t !in card[..i]
      {
        if card[i] == t {
          FirstIs(card[..], num, t, i);
          return;
        }
        i := i + 1;
      }
      i := -1;
    }

    /** 1: three copies in the hand; 2: the owner of the drawn tile shows a pong of it. */
    method CheckKang(t: int, isOwner: bool) returns (kang: int)
      requires Valid() && SortedHand()
      ensures kang in {0, 1, 2}
      ensures kang == 1 <==> t != 0 && multiset(card[..num])[t] >= 3
      ensures kang == 2 <==> t != 0 && multiset(card[..num])[t] < 3 && isOwner && FindPong(outCard, t) < |outCard|
    {
      kang := 0;
      if t == 0 { return; }
      var i := 0;
      while i < num as int - 2
        invariant 0 <= i && kang == 0 && NoRun(card[..], num, t, i, 3)
      {
        if card[i] == t && card[i + 1] == t && card[i + 2] == t {
          AdjacentCopies(card[..], num, t, 3, i);
          return 1;
        }
        assert card[..][i] == card[i] && card[..][i + 1] == card[i + 1] && card[..][i + 2] == card[i + 2];
        i := i + 1;
      }
      NoRunFewCopies(card[..], num, t, i, 3);
      i := 0;
      while i < |outCard|
        invariant 0 <= i <= |outCard| && kang == 0
        invariant isOwner ==> i <= FindPong(outCard, t)
      {
        if IsPongOf(outCard[i], t) && isOwner {
          return 2;
        }
        i := i + 1;
      }
    }

    method CheckPong(t: int) returns (pong: bool)
      requires Valid() && SortedHand()
      ensures pong <==> t != 0 && multiset(card[..num])[t] >= 2
    {
      if t == 0 { return false; }
      var i := 0;
      while i < num as int - 1
        invariant 0 <= i && NoRun(card[..], num, t, i, 2)
      {
        if card[i] == t && card[i + 1] == t {
          AdjacentCopies(card[..], num, t, 2, i);
          return true;
        }
        assert card[..][i] == card[i] && card[..][i + 1] == card[i + 1];
        i := i + 1;
      }
      NoRunFewCopies(card[..], num, t, i, 2);
      return false;
    }

    // ----- Changing the hand -----

    /** A drawn tile stands after the sorted ones. */
    method Draw(t: int)
      requires Valid()
      modifies card
      ensures card[..] == old(card[..])[num := t]
    {
      card[num] := t;
    }

    /** The owner throws tile `index`; the extra tile takes its place. */
    method Throw(index: nat) returns (t: int)
      requires Valid() && index <= num
      modifies card
      ensures t == old(card[index]) && SortedHand()
      ensures old(Tiles(num + 1)) == Tiles(num) + multiset{t}
    {
      t := card[index];
      RemoveOne(card[..], num + 1, index, t);
      ghost var was := card[..];
      card[index] := card[num];
      assert card[..] == was[index := was[num]];
      BubbleSort(card, num);
    }

    /** The host's copy of a throw: the extra tile overwrites entry `i`. */
    method MirrorThrow(i: nat)
      requires Valid() && i < card.Length
      modifies card
      ensures SortedHand()
      ensures Tiles(num) == multiset(old(card[..])[i := old(card[num])][..num])
    {
      ghost var was := card[..];
      card[i] := card[num];
      assert card[..] == was[i := was[num]];
      BubbleSort(card, num);
    }

    method Record(kind: int, tiles: seq<int>)
      requires num >= 3
      modifies `num, `outCard
      ensures num == old(num) - 3 && outCard == old(outCard) + [OutCard(kind, tiles)]
    {
      num := num - 3;
      outCard := outCard + [OutCard(kind, tiles)];
    }

    method OverwritePong(c: int)
      requires Valid() && 2 <= num
      modifies card
      ensures card[..] == PongEdit(old(card[..]), num, c)
    {
      ghost var was := card[..];
      var i := 0;
      while i < num
        invariant 0 <= i <= First(was, num, c) && card[..] == was
      {
        if card[i] == c {
          card[i] := card[num - 1];
          card[i + 1] := card[num - 2];
          assert card[..] == OverwriteTwo(was, num, i);
          return;
        }
        i := i + 1;
      }
    }

    /** Sorts the hand, with the extra tile for its owner and without it for the host. */
    method SortHand(own: bool)
      requires Valid()
      modifies card
      ensures Tiles(num + 1) == old(Tiles(num + 1)) && SortedHand() && (own ==> Sorted(card[..num + 1]))
    {
      var max := if own then num + 1 else num;
      BubbleSort(card, max);
      SortedPart(old(card[..]), card[..], num, max);
    }

    /** Takes two copies of a discard out of the hand. The owner of the hand sorts the extra tile
        in with the others; the host's copy does not. */
    method ClaimPong(c: int, own: bool)
      requires Valid() && SortedHand() && Tiles(num)[c] >= 2
      modifies this, card
      ensures Valid() && num == old(num) - 3 && outCard == old(outCard) + [OutCard(2, [c, c, c])]
      ensures old(Tiles(num)) == Tiles(num + 1) + multiset{c, c}
      ensures SortedHand() && (own ==> Sorted(card[..num + 1]))
    {
      SizeOfCount(card[..num], c, 2);
      PongExact(card[..], num, c);
      OverwritePong(c);
      Record(2, [c, c, c]);
      SortHand(own);
    }

    /** The owner's loop, which does not stop after the match. */
    method SweepKang(c: int)
      requires Valid() && 3 <= num
      modifies card
      ensures card[..] == KangSweep(old(card[..]), num, c, 0)
    {
      ghost var was := card[..];
      var i := 0;
      while i < num
        invariant 0 <= i <= num
        invariant KangSweep(card[..], num, c, i) == KangSweep(was, num, c, 0)
      {
        ghost var before := card[..];
        if card[i] == c {
          card[i] := card[num - 1];
          card[i + 1] := card[num - 2];
          card[i + 2] := card[num - 3];
          assert card[..] == OverwriteThree(before, num, i);
        }
        i := i + 1;
      }
    }

    /** The host's loop, which stops after the match. */
    method OverwriteKang(c: int)
      requires Valid() && 3 <= num
      modifies card
      ensures var was := old(card[..]);
              card[..] == if First(was, num, c) == num then was else OverwriteThree(was, num, First(was, num, c))
    {
      ghost var was := card[..];
      var i := 0;
      while i < num
        invariant 0 <= i <= First(was, num, c) && card[..] == was
      {
        if card[i] == c {
          card[i] := card[num - 1];
          card[i + 1] := card[num - 2];
          card[i + 2] := card[num - 3];
          assert card[..] == OverwriteThree(was, num, i);
          return;
        }
        i := i + 1;
      }
    }

    /** Takes three copies out of the hand, for a claimed (3) or a concealed kang (11). Right when
        the hand holds exactly three below `num`; the hand is then sorted and waits for a tile. */
    method ClaimKang(c: int, kind: int, own: bool)
      requires Valid() && SortedHand() && Tiles(num)[c] == 3
      modifies this, card
      ensures Valid() && num == old(num) - 3 && outCard == old(outCard) + [OutCard(kind, [c, c, c, c])]
      ensures old(Tiles(num)) == Tiles(num) + multiset{c, c, c}
      ensures SortedHand()
    {
      KangExact(card[..], num, c);
      if own {
        ClaimOwnKang(c, kind);
      } else {
        OverwriteKang(c);
        Record(kind, [c, c, c, c]);
        BubbleSort(card, num);
      }
    }

    /** The owner's side of it, on any hand: what its loop leaves below the new `num` is sorted. */
    method ClaimOwnKang(c: int, kind: int)
      requires Valid() && 3 <= num
      modifies this, card
      ensures Valid() && num == old(num) - 3 && outCard == old(outCard) + [OutCard(kind, [c, c, c, c])]
      ensures Tiles(num) == multiset(KangSweep(old(card[..]), old(num), c, 0)[..old(num) - 3])
      ensures SortedHand()
    {
      ghost var was := card[..];
      SweepKang(c);
      Record(kind, [c, c, c, c]);
      assert card[..num] == KangSweep(was, old(num), c, 0)[..num];
      BubbleSort(card, num);
    }

    /** A drawn tile joins the pong of it. */
    method ClaimAddedKang(c: int)
      requires Valid()
      requires FindPong(outCard, c) < |outCard|
      modifies `outCard
      ensures Valid() && FindPong(old(outCard), c) < |old(outCard)|
      ensures outCard == old(outCard)[FindPong(old(outCard), c) := OutCard(12, [c, c, c, c])]
    {
      var i := 0;
      while !IsPongOf(outCard[i], c)
        invariant 0 <= i < |outCard| && i <= FindPong(outCard, c) < |outCard|
        decreases |outCard| - i
      {
        i := i + 1;
      }
      outCard := outCard[i := OutCard(12, [c, c, c, c])];
    }

    /** The owner adds the drawn tile to the first meld that shows it, keeping the three tiles of its
        own record. */
    method AddOwnKang(c: int)
      requires Valid()
      modifies `outCard
      ensures Valid() && var i, was := FindShown(old(outCard), c), old(outCard);
                         outCard == if i < |was| then was[i := was[i].(kind := 12)] else was
    {
      var i := 0;
      while i < |outCard| && !Shows(outCard[i], c)
        invariant 0 <= i <= FindShown(outCard, c)
      {
        i := i + 1;
      }
      if i < |outCard| {
        outCard := outCard[i := outCard[i].(kind := 12)];
      }
    }

    /** A flower is shown: it is no tile of the hand, and the next tile drawn takes its place. */
    method ShowFlower(c: int)
      requires Valid() && IsFlower(c)
      modifies flower
      ensures flower[..] == old(flower[..])[c - 51 := true]
    {
      ghost var was := flower[..];
      flower[c - 51] := true;
      assert flower[..] == was[c - 51 := true];
    }

    /** Takes two different tiles out of the hand, in the order they are searched for. */
    method OverwriteEat(a: int, b: int)
      requires Valid() && 2 <= num && a != 0 && b != 0 && a != b
      requires a in card[..num] && b in card[..num]
      modifies card
      ensures card[..] == EatEdit(old(card[..]), num, a, b)
    {
      ghost var was := card[..];
      var p := SearchCard(a);
      card[p] := card[num - 1];
      assert card[..] == was[p := was[num - 1]];
      StillThere(was, num, p, b);
      ghost var s1 := card[..];
      var q := SearchCard(b);
      card[q] := card[num - 2];
      assert card[..] == s1[q := s1[num - 2]];
    }

    method ClaimEat(a: int, b: int, kind: int, shown: seq<int>, own: bool)
      requires Valid() && a != 0 && b != 0 && a != b && a in card[..num] && b in card[..num]
      modifies this, card
      ensures Valid() && num == old(num) - 3 && outCard == old(outCard) + [OutCard(kind, shown)]
      ensures old(Tiles(num)) == Tiles(num + 1) + multiset{a, b}
      ensures SortedHand() && (own ==> Sorted(card[..num + 1]))
    {
      TwoTiles(card[..num], a, b);
      EatEditExact(card[..], num, a, b);
      OverwriteEat(a, b);
      Record(kind, shown);
      SortHand(own);
    }
  }

  lemma TwoTiles(s: seq<int>, a: int, b: int)
    requires a != b && a in s && b in s
    ensures |s| >= 2
  {
  }

  lemma KangExact(s: seq<int>, num: nat, c: int)
    requires num + 2 <= |s| && Sorted(s[..num]) && multiset(s[..num])[c] == 3
    ensures 3 <= num && First(s, num, c) < num
    ensures multiset(s[..num]) == multiset(KangSweep(s, num, c, 0)[..num - 3]) + multiset{c, c, c}
    ensures multiset(s[..num]) == multiset(OverwriteThree(s, num, First(s, num, c))[..num - 3]) + multiset{c, c, c}
  {
    SizeOfCount(s[..num], c, 3);
    CopiesAdjacent(s, num, c, 3);
    KangSweepExact(s, num, c);
    OverwriteThreeExact(s, num, c, First(s, num, c));
  }

  lemma SortedPart(a: seq<int>, b: seq<int>, num: nat, max: nat)
    requires num < |a| == |b| && (max == num || max == num + 1)
    requires Sorted(b[..max]) && multiset(b[..max]) == multiset(a[..max])
    requires forall k :: max <= k < |a| ==> b[k] == a[k]
    ensures multiset(b[..num + 1]) == multiset(a[..num + 1]) && Sorted(b[..num])
  {
    DropLast(a, num + 1);
    DropLast(b, num + 1);
    assert forall k :: 0 <= k < num ==> b[..max][k] == b[..num][k];
  }

  lemma PongExact(s: seq<int>, num: nat, c: int)
    requires num + 1 < |s| && Sorted(s[..num]) && multiset(s[..num])[c] >= 2
    ensures 2 <= num && multiset(s[..num]) == multiset(PongEdit(s, num, c)[..num - 2]) + multiset{c, c}
  {
    SizeOfCount(s[..num], c, 2);
    CopiesAdjacent(s, num, c, 2);
    PongEditExact(s, num, c);
  }

  lemma SizeOfCount(s: seq<int>, c: int, k: nat)
    requires multiset(s)[c] >= k
    ensures |s| >= k
  {
  }

  lemma FirstIs(s: seq<int>, num: nat, t: int, i: nat)
    requires i < num <= |s| && s[i] == t && t !in s[..i]
    ensures First(s, num, t) == i && t in s[..num]
  {
  }

  /** Copies next to each other are copies. */
  lemma {:induction false} AdjacentCopies(s: seq<int>, num: nat, t: int, k: nat, i: nat)
    requires Run(s, num, t, i, k)
    ensures multiset(s[..num])[t] >= k
  {
    if k > 0 {
      if i + k == num {
        AdjacentCopies(s, num - 1, t, k - 1, i);
        DropLast(s, num);
      } else {
        AdjacentCopies(s, num - 1, t, k, i);
        DropLast(s, num);
      }
    }
  }

  /** In a sorted hand all copies of a tile stand together, so counting finds the same as looking
      at neighbours. */
  lemma {:induction false} CopiesTogether(s: seq<int>, t: int)
    requires Sorted(s)
    ensures var i := First(s, |s|, t); Run(s, |s|, t, i, multiset(s)[t])
  {
    if s != [] {
      var r := s[..|s| - 1];
      assert s == r + [s[|s| - 1]];
      assert Sorted(r);
      CopiesTogether(r, t);
      FirstInPrefix(s, t);
    }
  }

  lemma FirstInPrefix(s: seq<int>, t: int)
    requires s != []
    ensures var r := s[..|s| - 1];
            First(s, |s|, t) == if First(r, |r|, t) < |r| then First(r, |r|, t)
                                else if s[|s| - 1] == t then |s| - 1 else |s|
  {
  }

  lemma CopiesAdjacent(s: seq<int>, num: nat, t: int, k: nat)
    requires num <= |s| && Sorted(s[..num]) && multiset(s[..num])[t] >= k > 0
    ensures Run(s, num, t, First(s, num, t), k)
  {
    var h := s[..num];
    CopiesTogether(h, t);
    FirstOfPrefix(s, num, t);
    forall j | First(s, num, t) <= j < First(s, num, t) + k ensures s[j] == t {
      assert h[j] == t;
    }
  }

  ghost predicate NoRun(s: seq<int>, num: nat, t: int, i: nat, k: nat) {
    forall j: nat :: j < i ==> !Run(s, num, t, j, k)
  }

  lemma NoRunFewCopies(s: seq<int>, num: nat, t: int, i: nat, k: nat)
    requires num <= |s| && Sorted(s[..num]) && k > 0 && i + k >= num + 1 && NoRun(s, num, t, i, k)
    ensures multiset(s[..num])[t] < k
  {
    if multiset(s[..num])[t] >= k {
      CopiesAdjacent(s, num, t, k);
    }
  }

  lemma FirstOfPrefix(s: seq<int>, num: nat, t: int)
    requires num <= |s|
    ensures First(s[..num], num, t) == First(s, num, t)
  {
  }
}
