/** A hand whose extra tile has been sorted in with the others, as the host's is when it deals. */
module OpeningHand {
  import opened Tiles
  import opened Hands

  // ----- The tiles in order -----

  function Repeated(x: int, n: nat): (s: seq<int>)
    ensures |s| == n && forall k :: 0 <= k < n ==> s[k] == x
  {
    seq(n, _ => x)
  }

  /** The tiles with codes from `x` on, in ascending order. */
  function TilesFrom(m: multiset<int>, x: int): seq<int>
    decreases |m|, 59 - x
  {
    if x > 58 then [] else Repeated(x, m[x]) + TilesFrom(m, x + 1)
  }

  function SortedTiles(m: multiset<int>): seq<int> {
    TilesFrom(m, 1)
  }

  lemma {:induction false} RepeatedCount(x: int, n: nat, y: int)
    ensures multiset(Repeated(x, n))[y] == if y == x then n else 0
    decreases n
  {
    if n > 0 {
      assert Repeated(x, n) == Repeated(x, n - 1) + [x];
      RepeatedCount(x, n - 1, y);
    }
  }

  lemma {:induction false} TilesFromCount(m: multiset<int>, x: int, y: int)
    ensures multiset(TilesFrom(m, x))[y] == if x <= y <= 58 then m[y] else 0
    decreases 59 - x
  {
    if x <= 58 {
      RepeatedCount(x, m[x], y);
      TilesFromCount(m, x + 1, y);
    }
  }

  lemma {:induction false} TilesFromSorted(m: multiset<int>, x: int)
    ensures Sorted(TilesFrom(m, x)) && forall k :: 0 <= k < |TilesFrom(m, x)| ==> x <= TilesFrom(m, x)[k]
    decreases 59 - x
  {
    if x <= 58 { TilesFromSorted(m, x + 1); }
  }

  lemma OrderedTiles(m: multiset<int>)
    requires forall y :: y in m ==> 1 <= y <= 58
    ensures multiset(SortedTiles(m)) == m
  {
    forall y ensures multiset(SortedTiles(m))[y] == m[y] { TilesFromCount(m, 1, y); }
  }

  /** A hand of tiles put in order. */
  lemma InOrder(m: multiset<int>)
    requires forall y :: y in m ==> 1 <= y <= 58
    ensures Sorted(SortedTiles(m)) && multiset(SortedTiles(m)) == m && |SortedTiles(m)| == |m|
  {
    TilesFromSorted(m, 1);
    OrderedTiles(m);
    SizeOf(SortedTiles(m), m);
  }

  lemma SizeOf(s: seq<int>, m: multiset<int>)
    requires multiset(s) == m
    ensures |s| == |m|
  {
  }

  lemma OrderOf(s: seq<int>)
    requires Sorted(s) && forall y :: y in multiset(s) ==> 1 <= y <= 58
    ensures SortedTiles(multiset(s)) == s
  {
    InOrder(multiset(s));
    SortedUnique(SortedTiles(multiset(s)), s);
  }

  // ----- The kang loop on such a hand -----

  /** The tiles the owner's kang loop leaves below the new `num`, from a buffer of `num + 1` sorted
      tiles. Its two entries after those are never looked at. */
  function SweptTiles(s: seq<int>, c: int): seq<int> {
    if |s| < 4 then [] else KangSweep(s + [0, 0], |s| - 1, c, 0)[..|s| - 4]
  }

  /** When the loop takes exactly the four copies of `c` out of `num + 1` sorted tiles: the last tile is
      one, or the last two are equal and no copies and the tiles that would be lost are equal to the ones
      that would be doubled. */
  predicate RightKang(s: seq<int>, num: nat, c: int)
    requires 4 <= num < |s|
  {
    || s[num] == c
    || (&& s[num - 1] != c && s[num - 1] == s[num]
        && var p := First(s, num, c);
           p + 7 < num ==> s[p + 4] == s[num - 3] && s[p + 5] == s[num - 2])
  }

  /** Only the tiles below `num` matter to the loop. */
  lemma {:induction false} SweepBelow(s: seq<int>, r: seq<int>, num: nat, c: int, i: nat)
    requires 3 <= num && num + 2 <= |s| && num + 2 <= |r| && i <= num && s[..num] == r[..num]
    ensures KangSweep(s, num, c, i)[..num] == KangSweep(r, num, c, i)[..num]
    decreases num - i
  {
    if i < num {
      assert s[i] == s[..num][i] == r[..num][i] == r[i];
      if s[i] == c {
        SameOverwrite(s, r, num, i);
        SweepBelow(OverwriteThree(s, num, i), OverwriteThree(r, num, i), num, c, i + 1);
      } else {
        SweepBelow(s, r, num, c, i + 1);
      }
    }
  }

  lemma SameOverwrite(s: seq<int>, r: seq<int>, num: nat, i: nat)
    requires 3 <= num && num + 2 <= |s| && num + 2 <= |r| && i < num && s[..num] == r[..num]
    ensures OverwriteThree(s, num, i)[..num] == OverwriteThree(r, num, i)[..num]
  {
    assert forall k :: 0 <= k < num ==> s[k] == s[..num][k] == r[..num][k] == r[k];
  }

  /** The four copies stand together. */
  lemma FourTogether(s: seq<int>, num: nat, c: int)
    requires 4 <= num < |s| && Sorted(s[..num + 1]) && multiset(s[..num + 1])[c] == 4 && s[num] != c
    ensures multiset(s[..num])[c] == 4 && Run(s, num, c, First(s, num, c), 4)
    ensures forall k :: First(s, num, c) + 4 <= k <= num ==> s[k] != c
  {
    DropLast(s, num + 1);
    SortedPrefix(s, num);
    CopiesAdjacent(s, num, c, 4);
    var p := First(s, num, c);
    forall k | p + 4 <= k < num ensures s[k] != c { if s[k] == c { FiveCopies(s, num, c, p, k); } }
  }

  lemma SortedPrefix(s: seq<int>, num: nat)
    requires num < |s| && Sorted(s[..num + 1])
    ensures Sorted(s[..num])
  {
    forall i, j | 0 <= i <= j < num ensures s[..num][i] <= s[..num][j] {
      assert s[..num + 1][i] <= s[..num + 1][j];
    }
  }

  lemma FiveCopies(s: seq<int>, num: nat, c: int, p: nat, k: nat)
    requires num <= |s| && Run(s, num, c, p, 4) && p + 4 <= k < num && s[k] == c
    ensures multiset(s[..num])[c] >= 5
  {
    assert s[..num] == s[..p] + [c, c, c, c] + s[p + 4..k] + [c] + s[k + 1..num];
  }

  /** What the loop leaves when neither of the last two tiles is a copy. */
  function Left(s: seq<int>, num: nat, p: nat): seq<int>
    requires p + 5 <= num < |s|
  {
    var x, y, z := s[num - 1], s[num - 2], s[num - 3];
    s[..p] + (if p + 5 == num then [x, x] else if p + 6 == num then [x, y, x] else if p + 7 == num then [x, y, z, x]
              else if p + 8 == num then [x, y, z, x, y] else [x, y, z, x, y, z] + s[p + 6..num - 3])
  }

  lemma LoopLeaves(s: seq<int>, num: nat, c: int)
    requires 5 <= num && num + 2 <= |s| && Run(s, num, c, First(s, num, c), 4)
    requires forall k :: First(s, num, c) + 4 <= k < num ==> s[k] != c
    requires s[num - 1] != c
    ensures First(s, num, c) + 5 <= num && KangSweep(s, num, c, 0)[..num - 3] == Left(s, num, First(s, num, c))
  {
    var p := First(s, num, c);
    SweepStart(s, num, c, 0, p);
    var t := OverwriteThree(s, num, p);
    var i := if p + 5 == num then p + 1 else if p + 6 == num then p + 2 else p + 3;
    FirstPass(s, num, c, p, i);
    SweepStart(t, num, c, p + 1, i);
    SecondPass(t, num, c, i);
    TwicePassed(s, num, p, i);
  }

  /** After the first copies are overwritten the next one stands at `i`. */
  lemma FirstPass(s: seq<int>, num: nat, c: int, p: nat, i: nat)
    requires 5 <= num && num + 2 <= |s| && Run(s, num, c, p, 4) && p + 5 <= num
    requires forall k :: p + 4 <= k < num ==> s[k] != c
    requires i == if p + 5 == num then p + 1 else if p + 6 == num then p + 2 else p + 3
    ensures var t := OverwriteThree(s, num, p);
            t[i] == c && t[num - 1] != c && (i + 5 < num ==> t[num - 2] != c && t[num - 3] != c)
            && (i + 5 == num ==> t[num - 2] != c)
            && (forall k :: p < k < i ==> t[k] != c) && forall k :: i < k < num - 3 ==> t[k] != c
  {
  }

  lemma TwicePassed(s: seq<int>, num: nat, p: nat, i: nat)
    requires 5 <= num && num + 2 <= |s| && p + 5 <= num
    requires i == if p + 5 == num then p + 1 else if p + 6 == num then p + 2 else p + 3
    ensures OverwriteThree(OverwriteThree(s, num, p), num, i)[..num - 3] == Left(s, num, p)
  {
  }

  /** The last copy below `num - 3` is overwritten, and then there is none. */
  lemma SecondPass(t: seq<int>, num: nat, c: int, i: nat)
    requires 3 <= num && num + 2 <= |t| && i + 3 < num && t[i] == c && t[num - 1] != c
    requires forall k :: i < k < num - 3 ==> t[k] != c
    requires i + 5 < num ==> t[num - 2] != c && t[num - 3] != c
    requires i + 5 == num ==> t[num - 2] != c
    ensures KangSweep(t, num, c, i)[..num - 3] == OverwriteThree(t, num, i)[..num - 3]
  {
    SweepTail(OverwriteThree(t, num, i), num, c, i + 1);
  }

  /** Three tiles at the end of a sorted hand are three others exactly when they match one by one. */
  lemma SameThree(a: int, b: int, z: int, y: int, x: int, w: int)
    requires a <= b <= z <= y <= x <= w
    ensures multiset{x, y, z} == multiset{a, b, w} <==> x == w && z == a && y == b
  {
    if multiset{x, y, z} == multiset{a, b, w} {
      assert w in multiset{x, y, z};
      Cancel(multiset{y, z}, multiset{a, b}, multiset{x});
      assert y in multiset{a, b} && z in multiset{a, b} && a in multiset{y, z} && b in multiset{y, z};
    }
  }

  lemma TailTiles(s: seq<int>, num: nat, p: nat)
    requires p + 9 <= num < |s|
    ensures multiset(s[p + 4..num + 1]) == multiset{s[p + 4], s[p + 5], s[num]}
            + (multiset(s[p + 6..num - 3]) + multiset{s[num - 1], s[num - 2], s[num - 3]})
  {
    var front, mid, back, last := s[p + 4..p + 6], s[p + 6..num - 3], s[num - 3..num], s[num..num + 1];
    assert s[p + 4..num + 1] == front + mid + back + last;
    Around(mid, front, back, last);
    assert front + last == [s[p + 4], s[p + 5], s[num]] && back == [s[num - 3], s[num - 2], s[num - 1]];
    ThreeTiles(s[p + 4], s[p + 5], s[num]);
    ThreeTiles(s[num - 3], s[num - 2], s[num - 1]);
  }

  lemma Around(mid: seq<int>, front: seq<int>, back: seq<int>, last: seq<int>)
    ensures multiset(front + mid + back + last) == multiset(front + last) + (multiset(mid) + multiset(back))
  {
    Joined(front + mid + back, last);
    Joined(front + mid, back);
    Joined(front, mid);
    Joined(front, last);
    Regroup(multiset(mid), multiset(front), multiset(back), multiset(last));
  }

  lemma Joined(a: seq<int>, b: seq<int>)
    ensures multiset(a + b) == multiset(a) + multiset(b)
  {
  }

  lemma ThreeTiles(a: int, b: int, c: int)
    ensures multiset([a, b, c]) == multiset{a, b, c} == multiset{c, b, a}
  {
  }

  lemma Regroup(m: multiset<int>, a: multiset<int>, t: multiset<int>, w: multiset<int>)
    ensures a + m + (t + w) == (a + w) + (m + t)
  {
  }

  /** The tiles that stand after the copies, against what the loop puts in their place. */
  lemma TailMatches(s: seq<int>, num: nat, p: nat)
    requires p + 5 <= num && num < |s| && Sorted(s[..num + 1])
    ensures multiset(Left(s, num, p)[p..]) == multiset(s[p + 4..num + 1])
            <==> s[num - 1] == s[num] && (p + 7 < num ==> s[p + 4] == s[num - 3] && s[p + 5] == s[num - 2])
  {
    if p + 8 < num {
      LongTail(s, num, p);
    } else if p + 8 == num {
      MiddleTail(s, num, p);
    } else {
      ShortTail(s, num, p);
    }
  }

  lemma ShortTail(s: seq<int>, num: nat, p: nat)
    requires p + 5 <= num <= p + 7 && num < |s|
    ensures multiset(Left(s, num, p)[p..]) == multiset(s[p + 4..num + 1]) <==> s[num - 1] == s[num]
  {
    var back := Left(s, num, p)[p..num - 4];
    LeftEnd(s, num, p);
    assert Left(s, num, p)[p..] == back + [s[num - 1]];
    assert s[p + 4..num + 1] == s[p + 4..num] + [s[num]];
    Backwards(s, num, p);
    Joined(back, [s[num - 1]]);
    Joined(s[p + 4..num], [s[num]]);
    OneMore(multiset(back), s[num - 1], s[num]);
  }

  lemma LeftEnd(s: seq<int>, num: nat, p: nat)
    requires p + 5 <= num <= p + 7 && num < |s|
    ensures |Left(s, num, p)| == num - 3 && Left(s, num, p)[num - 4] == s[num - 1]
  {
  }

  lemma Backwards(s: seq<int>, num: nat, p: nat)
    requires p + 5 <= num <= p + 7 && num < |s|
    ensures multiset(Left(s, num, p)[p..num - 4]) == multiset(s[p + 4..num])
  {
    var back, mid := Left(s, num, p)[p..num - 4], s[p + 4..num];
    if p + 5 == num {
      assert back == mid;
    } else if p + 6 == num {
      assert mid == [s[num - 2], s[num - 1]] && back == [s[num - 1], s[num - 2]];
    } else {
      assert mid == [s[num - 3], s[num - 2], s[num - 1]] && back == [s[num - 1], s[num - 2], s[num - 3]];
      ThreeTiles(s[num - 3], s[num - 2], s[num - 1]);
      ThreeTiles(s[num - 1], s[num - 2], s[num - 3]);
    }
  }

  lemma MiddleTail(s: seq<int>, num: nat, p: nat)
    requires p + 8 == num < |s| && Sorted(s[..num + 1])
    ensures multiset(Left(s, num, p)[p..]) == multiset(s[p + 4..num + 1])
            <==> s[num - 1] == s[num] && s[p + 4] == s[num - 3] && s[p + 5] == s[num - 2]
  {
    var w, x, y, z := s[num], s[num - 1], s[num - 2], s[num - 3];
    MiddleLeft(s, num, p);
    FiveTiles(s, p + 4);
    Ascending(s, num, p + 4, num - 3);
    Ascending(s, num, num - 3, num - 2);
    Ascending(s, num, num - 2, num - 1);
    Ascending(s, num, num - 1, num);
    SameTwo(s[p + 4], y, x, w);
    AddedTo(multiset{x, y}, multiset{s[p + 4], w}, multiset{x, y, z});
  }

  lemma MiddleLeft(s: seq<int>, num: nat, p: nat)
    requires p + 8 == num < |s|
    ensures multiset(Left(s, num, p)[p..])
            == multiset{s[num - 1], s[num - 2]} + multiset{s[num - 1], s[num - 2], s[num - 3]}
  {
    var left := Left(s, num, p)[p..];
    assert left == left[..3] + left[3..];
    Joined(left[..3], left[3..]);
    FirstThree(left, s[num - 1], s[num - 2], s[num - 3]);
    TwoTiles(s[num - 1], s[num - 2]);
  }

  lemma FirstThree(left: seq<int>, x: int, y: int, z: int)
    requires left == [x, y, z, x, y]
    ensures multiset(left[..3]) == multiset{x, y, z} && left[3..] == [x, y]
  {
    assert left[..3] == [x, y, z];
    ThreeTiles(x, y, z);
  }

  lemma FiveTiles(s: seq<int>, i: nat)
    requires i + 5 <= |s|
    ensures multiset(s[i..i + 5]) == multiset{s[i], s[i + 4]} + multiset{s[i + 3], s[i + 2], s[i + 1]}
  {
    ThreeParts(s, i, i + 1, i + 4, i + 5);
    OneTile(s, i);
    OneTile(s, i + 4);
    ThreeOf(s, i + 1);
    Ends(multiset{s[i + 3], s[i + 2], s[i + 1]}, s[i], s[i + 4]);
  }

  lemma ThreeParts(s: seq<int>, a: nat, b: nat, c: nat, d: nat)
    requires a <= b <= c <= d <= |s|
    ensures multiset(s[a..d]) == multiset(s[a..b]) + (multiset(s[b..c]) + multiset(s[c..d]))
  {
    assert s[a..d] == s[a..b] + (s[b..c] + s[c..d]);
    Joined(s[a..b], s[b..c] + s[c..d]);
    Joined(s[b..c], s[c..d]);
  }

  lemma OneTile(s: seq<int>, i: nat)
    requires i < |s|
    ensures multiset(s[i..i + 1]) == multiset{s[i]}
  {
    assert s[i..i + 1] == [s[i]];
  }

  lemma ThreeOf(s: seq<int>, i: nat)
    requires i + 3 <= |s|
    ensures multiset(s[i..i + 3]) == multiset{s[i + 2], s[i + 1], s[i]}
  {
    assert s[i..i + 3] == [s[i], s[i + 1], s[i + 2]];
    ThreeTiles(s[i], s[i + 1], s[i + 2]);
  }

  lemma Ends(m: multiset<int>, a: int, w: int)
    ensures multiset{a} + (m + multiset{w}) == multiset{a, w} + m
  {
  }

  lemma Ascending(s: seq<int>, num: nat, i: nat, j: nat)
    requires i <= j <= num < |s| && Sorted(s[..num + 1])
    ensures s[i] <= s[j]
  {
    assert s[..num + 1][i] <= s[..num + 1][j];
  }

  lemma OneMore(m: multiset<int>, x: int, w: int)
    ensures m + multiset{x} == m + multiset{w} <==> x == w
  {
    if m + multiset{x} == m + multiset{w} { assert (m + multiset{x})[w] == m[w] + 1; }
  }

  lemma TwoTiles(x: int, y: int)
    ensures multiset([x, y]) == multiset{x, y}
  {
  }

  lemma SameTwo(a: int, y: int, x: int, w: int)
    requires a <= y <= x <= w
    ensures multiset{x, y} == multiset{a, w} <==> x == w && a == y
  {
    if multiset{x, y} == multiset{a, w} {
      assert w in multiset{x, y} && a in multiset{x, y} && x in multiset{a, w} && y in multiset{a, w};
    }
  }

  lemma LongTail(s: seq<int>, num: nat, p: nat)
    requires p + 9 <= num < |s| && Sorted(s[..num + 1])
    ensures multiset(Left(s, num, p)[p..]) == multiset(s[p + 4..num + 1])
            <==> s[num - 1] == s[num] && s[p + 4] == s[num - 3] && s[p + 5] == s[num - 2]
  {
    var w, x, y, z := s[num], s[num - 1], s[num - 2], s[num - 3];
    var mid := s[p + 6..num - 3];
    assert Left(s, num, p)[p..] == [x, y, z, x, y, z] + mid;
    TwiceThree(mid, x, y, z);
    TailTiles(s, num, p);
    Ascending(s, num, p + 4, p + 5);
    Ascending(s, num, p + 5, num - 3);
    Ascending(s, num, num - 3, num - 2);
    Ascending(s, num, num - 2, num - 1);
    Ascending(s, num, num - 1, num);
    SameThree(s[p + 4], s[p + 5], z, y, x, w);
    AddedTo(multiset{x, y, z}, multiset{s[p + 4], s[p + 5], w}, multiset(mid) + multiset{x, y, z});
  }

  lemma AddedTo(a: multiset<int>, b: multiset<int>, m: multiset<int>)
    ensures a + m == b + m <==> a == b
  {
    if a + m == b + m { Cancel(a, b, m); }
  }

  lemma TwiceThree(mid: seq<int>, x: int, y: int, z: int)
    ensures multiset([x, y, z, x, y, z] + mid) == multiset{x, y, z} + (multiset(mid) + multiset{x, y, z})
  {
  }

  /** With four copies among `num + 1` sorted tiles the owner's kang loop takes out exactly these four if and
      only if the hand is right for it; otherwise other tiles are lost. */
  lemma SortedKangExactly(s: seq<int>, num: nat, c: int)
    requires 5 <= num && num + 2 <= |s| && Sorted(s[..num + 1]) && multiset(s[..num + 1])[c] == 4
    ensures multiset(s[..num + 1]) == multiset(KangSweep(s, num, c, 0)[..num - 3]) + multiset{c, c, c, c}
            <==> RightKang(s, num, c)
  {
    var r := KangSweep(s, num, c, 0)[..num - 3];
    DropLast(s, num + 1);
    SortedPrefix(s, num);
    if s[num] == c {
      ThreeThenOne(s, num, c);
    } else if s[num - 1] == c {
      FourTogether(s, num, c);
      CopiesLast(s, num, c);
      LastMatters(multiset(s[..num]), multiset(r), c, s[num]);
    } else {
      FourTogether(s, num, c);
      LoopLeaves(s, num, c);
      var p := First(s, num, c);
      TailMatches(s, num, p);
      FourFromMiddle(s, num, c, p);
    }
  }

  lemma ThreeThenOne(s: seq<int>, num: nat, c: int)
    requires 5 <= num && num + 2 <= |s| && Sorted(s[..num + 1]) && multiset(s[..num + 1])[c] == 4 && s[num] == c
    ensures multiset(s[..num + 1]) == multiset(KangSweep(s, num, c, 0)[..num - 3]) + multiset{c, c, c, c}
  {
    DropLast(s, num + 1);
    SortedPrefix(s, num);
    CopiesAdjacent(s, num, c, 3);
    assert s[..num + 1][First(s, num, c)] <= s[..num + 1][num - 1] <= s[..num + 1][num];
    CopiesLast(s, num, c);
  }

  lemma LastMatters(m: multiset<int>, r: multiset<int>, c: int, w: int)
    requires m == r + multiset{c, c, c} && w != c
    ensures m + multiset{w} != r + multiset{c, c, c, c}
  {
    assert (m + multiset{w})[w] == m[w] + 1;
    assert (r + multiset{c, c, c, c})[w] == m[w];
  }

  lemma FourFromMiddle(s: seq<int>, num: nat, c: int, p: nat)
    requires p + 5 <= num < |s| && Run(s, num, c, p, 4)
    ensures multiset(s[..num + 1]) == multiset(Left(s, num, p)) + multiset{c, c, c, c}
            <==> multiset(Left(s, num, p)[p..]) == multiset(s[p + 4..num + 1])
  {
    var left, tail := Left(s, num, p)[p..], s[p + 4..num + 1];
    assert s[..num + 1] == s[..p] + [c, c, c, c] + tail;
    assert Left(s, num, p) == s[..p] + left;
    Swap(s[..p], left, tail, c);
  }

  lemma Swap(a: seq<int>, left: seq<int>, tail: seq<int>, c: int)
    ensures multiset(a + [c, c, c, c] + tail) == multiset(a + left) + multiset{c, c, c, c} <==> multiset(left) == multiset(tail)
  {
    var m := multiset(a) + multiset{c, c, c, c};
    assert multiset(a + [c, c, c, c] + tail) == multiset(tail) + m;
    assert multiset(a + left) + multiset{c, c, c, c} == multiset(left) + m;
    AddedTo(multiset(tail), multiset(left), m);
  }

  lemma {:induction false} FirstInFront(s: seq<int>, rest: seq<int>, num: nat, c: int)
    requires num <= |s|
    ensures First(s + rest, num, c) == First(s, num, c)
  {
    var i := First(s, num, c);
    if i < num {
      FirstIs(s + rest, num, c, i);
    } else {
      assert (s + rest)[..num] == s[..num];
    }
  }

  /** The same for the tiles of a hand in order. */
  lemma SweptExactly(s: seq<int>, c: int)
    requires 6 <= |s| && Sorted(s) && multiset(s)[c] == 4
    ensures |SweptTiles(s, c)| == |s| - 4
    ensures multiset(s) == multiset(SweptTiles(s, c)) + multiset{c, c, c, c} <==> RightKang(s, |s| - 1, c)
  {
    var b, num := s + [0, 0], |s| - 1;
    assert b[..num + 1] == s;
    SortedKangExactly(b, num, c);
    FirstInFront(s, [0, 0], num, c);
  }
}
