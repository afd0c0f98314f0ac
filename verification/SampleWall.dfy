/** One wall, tile by tile: four hands, the tiles of a long round, and sixteen more. */
module SampleWall {
  import opened Deck

  // `n` is the number of copies of a suit tile, a variable as in `Deck.Copies`.

  function FirstHand(n: nat): seq<int> {
    Copies(1, 4, n)
  }

  function SecondHand(n: nat): seq<int> {
    [5, 5, 5] + Copies(6, 8, n) + [9]
  }

  function ThirdHand(n: nat): seq<int> {
    [9, 9, 9] + Copies(11, 13, n) + [14]
  }

  function FourthHand(n: nat): seq<int> {
    [14, 14, 14] + Copies(15, 17, n) + [18]
  }

  function Middle(n: nat): seq<int> {
    [18, 18, 18] + Copies(19, 19, n) + Copies(21, 29, n) + Copies(31, 34, n) + Copies(41, 41, n)
  }

  function Last(n: nat): seq<int> {
    Copies(42, 43, n) + Copies(51, 58, 1)
  }

  function FourHands(n: nat): seq<int> {
    FirstHand(n) + SecondHand(n) + ThirdHand(n) + FourthHand(n)
  }

  function Wall(n: nat): seq<int> {
    FourHands(n) + [5] + Middle(n) + Last(n)
  }

  lemma Sizes(n: nat)
    requires n == 4
    ensures |FirstHand(n)| == |SecondHand(n)| == |ThirdHand(n)| == |FourthHand(n)| == 16
    ensures |Middle(n)| == 63 && |Last(n)| == 16 && |Wall(n)| == 144
  {
    CopiesSize(1, 4, n);
    CopiesSize(6, 8, n);
    CopiesSize(11, 13, n);
    CopiesSize(15, 17, n);
    CopiesSize(19, 19, n);
    CopiesSize(21, 29, n);
    CopiesSize(31, 34, n);
    CopiesSize(41, 41, n);
    CopiesSize(42, 43, n);
    CopiesSize(51, 58, 1);
  }

  function Among(x: int, low: int, high: int, n: nat): nat {
    if low <= x <= high then n else 0
  }

  lemma FirstCount(n: nat, x: int)
    ensures multiset(FirstHand(n))[x] == Among(x, 1, 4, n)
  {
    CopiesCount(1, 4, n, x);
  }

  lemma MixedCount(a: int, low: int, high: int, b: int, n: nat, x: int)
    ensures multiset([a, a, a] + Copies(low, high, n) + [b])[x] == Among(x, a, a, 3) + Among(x, low, high, n) + Among(x, b, b, 1)
  {
    CopiesCount(low, high, n, x);
  }

  lemma FiveParts(a: seq<int>, b: seq<int>, c: seq<int>, d: seq<int>, e: seq<int>, x: int)
    ensures multiset(a + b + c + d + e)[x] == multiset(a)[x] + multiset(b)[x] + multiset(c)[x] + multiset(d)[x] + multiset(e)[x]
  {
  }

  lemma MiddleCount(n: nat, x: int)
    ensures multiset(Middle(n))[x]
            == Among(x, 18, 18, 3) + Among(x, 19, 19, n) + Among(x, 21, 29, n) + Among(x, 31, 34, n) + Among(x, 41, 41, n)
  {
    CopiesCount(19, 19, n, x);
    CopiesCount(21, 29, n, x);
    CopiesCount(31, 34, n, x);
    CopiesCount(41, 41, n, x);
    FiveParts([18, 18, 18], Copies(19, 19, n), Copies(21, 29, n), Copies(31, 34, n), Copies(41, 41, n), x);
  }

  lemma LastCount(n: nat, x: int)
    ensures multiset(Last(n))[x] == Among(x, 42, 43, n) + Among(x, 51, 58, 1)
  {
    CopiesCount(42, 43, n, x);
    CopiesCount(51, 58, 1, x);
  }

  lemma HandsCount(n: nat, x: int)
    requires n == 4
    ensures multiset(FourHands(n))[x]
            == Among(x, 1, 4, n) + Among(x, 5, 5, 3) + Among(x, 6, 9, n)
               + Among(x, 11, 14, n) + Among(x, 15, 17, n) + Among(x, 18, 18, 1)
  {
    FirstCount(n, x);
    MixedCount(5, 6, 8, 9, n, x);
    MixedCount(9, 11, 13, 14, n, x);
    MixedCount(14, 15, 17, 18, n, x);
  }

  lemma FourParts(a: seq<int>, t: int, b: seq<int>, c: seq<int>, x: int)
    ensures multiset(a + [t] + b + c)[x] == multiset(a)[x] + Among(x, t, t, 1) + multiset(b)[x] + multiset(c)[x]
  {
  }

  lemma AllCodes(x: int, n: nat)
    requires n == 4
    ensures Among(x, 1, 4, n) + Among(x, 5, 5, 3) + Among(x, 6, 9, n)
               + Among(x, 11, 14, n) + Among(x, 15, 17, n) + Among(x, 18, 18, 1)
            + Among(x, 5, 5, 1)
            + Among(x, 18, 18, 3) + Among(x, 19, 19, n) + Among(x, 21, 29, n) + Among(x, 31, 34, n) + Among(x, 41, 41, n)
            + Among(x, 42, 43, n) + Among(x, 51, 58, 1)
            == CodeCount(x)
  {
  }

  lemma PartsCount(n: nat, x: int, a: seq<int>, b: seq<int>, c: seq<int>)
    requires n == 4 && a == FourHands(n) && b == Middle(n) && c == Last(n)
    ensures multiset(a + [5] + b + c)[x]
            == Among(x, 1, 4, n) + Among(x, 5, 5, 3) + Among(x, 6, 9, n)
               + Among(x, 11, 14, n) + Among(x, 15, 17, n) + Among(x, 18, 18, 1)
               + Among(x, 5, 5, 1)
               + Among(x, 18, 18, 3) + Among(x, 19, 19, n) + Among(x, 21, 29, n) + Among(x, 31, 34, n) + Among(x, 41, 41, n)
               + Among(x, 42, 43, n) + Among(x, 51, 58, 1)
  {
    HandsCount(n, x);
    MiddleCount(n, x);
    LastCount(n, x);
    FourParts(a, 5, b, c, x);
  }

  lemma WallCount(n: nat, x: int)
    requires n == 4
    ensures multiset(Wall(n))[x] == CodeCount(x)
  {
    PartsCount(n, x, FourHands(n), Middle(n), Last(n));
    AllCodes(x, n);
  }

  lemma WallIsDeck(n: nat)
    requires n == 4
    ensures IsDeck(multiset(Wall(n)))
  {
    Sizes(n);
    forall x ensures multiset(Wall(n))[x] == CodeCount(x) { WallCount(n, x); }
  }
}
