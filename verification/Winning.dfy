/** When a hand wins, and what the first path of each suit decides about it. */
module Winning {
  import opened Tiles
  import opened Melds
  import opened Search

  ghost predicate IsSplit(s: seq<Meld>, m: multiset<int>, pairs: nat) {
    AllLegal(s) && PairCount(s) == pairs && TilesOf(s) == m
  }

  /** The tiles divide into triplets, in-suit straights and this many pairs. */
  ghost predicate Splits(m: multiset<int>, pairs: nat) {
    exists s :: IsSplit(s, m, pairs)
  }

  /** The tiles divide into triplets, in-suit straights and exactly one pair. */
  ghost predicate Wins(hand: seq<int>) {
    Splits(multiset(hand), 1)
  }

  // ----- One suit -----

  /** 1: no tiles, 2: no pair, 3: one pair, 4: more than one pair. */
  function PathType(p: seq<Meld>): int {
    if p == [] then 1 else if PairCount(p) == 0 then 2 else if PairCount(p) == 1 then 3 else 4
  }

  /** The type the search records for a suit: that of the first path, or 0 when there is none. */
  ghost function FirstType(m: multiset<int>): int {
    if Paths(m, []) == [] then 0 else PathType(Paths(m, [])[0])
  }

  ghost predicate OnlySuitTiles(m: multiset<int>) {
    forall t :: t in m ==> IsSuitTile(t)
  }

  /** A listed path is a legal split of the suit. */
  lemma ListedPath(m: multiset<int>, p: seq<Meld>)
    requires OnlySuitTiles(m) && p in Paths(m, [])
    ensures TilesOf(p) == m && AllLegal(p)
    ensures |m| == 3 * |p| - PairCount(p)
    ensures Splits(m, PairCount(p))
  {
    PathsSound(m, [], p);
    PathsLegal(m, [], p);
    SizeOfSplit(p);
    SplitWitness(p);
  }

  /** For a suit that should hold no pair, looking at the first path is exact. */
  lemma PairlessSuit(m: multiset<int>)
    requires OnlySuitTiles(m)
    ensures Splits(m, 0) <==> FirstType(m) in {1, 2}
  {
    if Splits(m, 0) {
      var s :| IsSplit(s, m, 0);
      FirstPathPairless(m, [], s);
    } else if Paths(m, []) != [] {
      ListedPath(m, Paths(m, [])[0]);
    }
  }

  /** For a suit that should hold the pair, a first path with one pair is enough, and a one-pair
      split forces the first path to have one pair or at least four. */
  lemma PairSuit(m: multiset<int>)
    requires OnlySuitTiles(m)
    ensures FirstType(m) == 3 ==> Splits(m, 1)
    ensures Splits(m, 1) ==> FirstType(m) in {3, 4}
    ensures Splits(m, 1) && FirstType(m) == 4 ==> PairCount(Paths(m, [])[0]) >= 4 && |m| >= 8
  {
    if Paths(m, []) != [] {
      ListedPath(m, Paths(m, [])[0]);
    }
    if Splits(m, 1) {
      var s :| IsSplit(s, m, 1);
      SizeOfSplit(s);
      var q := PathsComplete(m, [], s);
      var p := Paths(m, [])[0];
      PairsAreMelds(p);
      PairsModThree(|s|, |p|, PairCount(p));
    }
  }

  lemma PairsModThree(a: nat, b: nat, k: nat)
    requires 3 * a - 1 == 3 * b - k && k <= b
    ensures k == 1 || (k >= 4 && 3 * b - k >= 8)
  {
  }

  lemma {:induction false} PairsAreMelds(s: seq<Meld>)
    ensures PairCount(s) <= |s|
  {
    if s != [] { PairsAreMelds(s[1..]); }
  }

  // ----- The hand by suits -----

  predicate InSuit(t: int, suit: nat) {
    suit * 10 < t < suit * 10 + 10
  }

  function SuitTiles(hand: seq<int>, suit: nat): seq<int> {
    if hand == [] then []
    else (if InSuit(hand[0], suit) then [hand[0]] else []) + SuitTiles(hand[1..], suit)
  }

  function SuitMelds(s: seq<Meld>, suit: nat): seq<Meld> {
    if s == [] then []
    else (if InSuit(s[0].lead, suit) then [s[0]] else []) + SuitMelds(s[1..], suit)
  }

  ghost function SuitBag(hand: seq<int>, suit: nat): multiset<int> {
    multiset(SuitTiles(hand, suit))
  }

  ghost function SuitType(hand: seq<int>, suit: nat): int {
    FirstType(SuitBag(hand, suit))
  }

  lemma {:induction false} SuitTilesCount(hand: seq<int>, suit: nat, t: int)
    ensures SuitBag(hand, suit)[t] == if InSuit(t, suit) then multiset(hand)[t] else 0
  {
    if hand != [] {
      assert hand == [hand[0]] + hand[1..];
      SuitTilesCount(hand[1..], suit, t);
    }
  }

  lemma {:induction false} AllOfSuit(s: seq<int>, suit: nat)
    requires forall k :: 0 <= k < |s| ==> InSuit(s[k], suit)
    ensures SuitTiles(s, suit) == s
  {
    if s != [] {
      assert InSuit(s[0], suit);
      AllOfSuit(s[1..], suit);
    }
  }

  lemma SuitBagLegal(hand: seq<int>, suit: nat)
    requires AllSuitTiles(hand)
    ensures OnlySuitTiles(SuitBag(hand, suit))
  {
    forall t | t in SuitBag(hand, suit) ensures IsSuitTile(t) {
      SuitTilesCount(hand, suit, t);
      assert t in hand;
    }
  }

  lemma LegalMeldInSuit(m: Meld, t: int, suit: nat)
    requires LegalMeld(m) && t in MeldTiles(m)
    ensures InSuit(t, suit) <==> InSuit(m.lead, suit)
  {
    assert IsSuitTile(MeldTiles(m)[0]);
    if m.kind == Straight {
      assert IsSuitTile(MeldTiles(m)[1]) && IsSuitTile(MeldTiles(m)[2]);
    }
  }

  lemma LegalMeldCount(m: Meld, t: int, suit: nat)
    requires LegalMeld(m)
    ensures InSuit(t, suit) != InSuit(m.lead, suit) ==> multiset(MeldTiles(m))[t] == 0
  {
    if t in multiset(MeldTiles(m)) {
      assert t in MeldTiles(m);
      LegalMeldInSuit(m, t, suit);
    }
  }

  lemma {:induction false} SuitMeldsCount(s: seq<Meld>, suit: nat, t: int)
    requires AllLegal(s)
    ensures TilesOf(SuitMelds(s, suit))[t] == if InSuit(t, suit) then TilesOf(s)[t] else 0
  {
    if s != [] {
      var rest := SuitMelds(s[1..], suit);
      SuitMeldsCount(s[1..], suit, t);
      LegalMeldCount(s[0], t, suit);
      assert ([s[0]] + rest)[1..] == rest && [] + rest == rest;
    }
  }

  lemma {:induction false} SuitMeldsLegal(s: seq<Meld>, suit: nat)
    requires AllLegal(s)
    ensures AllLegal(SuitMelds(s, suit))
  {
    if s != [] { SuitMeldsLegal(s[1..], suit); }
  }

  lemma PairsPrepend(m: Meld, r: seq<Meld>)
    ensures PairCount([m] + r) == (if m.kind == Pair then 1 else 0) + PairCount(r)
    ensures PairCount([] + r) == PairCount(r)
  {
    assert ([m] + r)[1..] == r && [] + r == r;
  }

  lemma {:induction false} NoPairsBySuit(s: seq<Meld>, suit: nat)
    requires PairCount(s) == 0
    ensures PairCount(SuitMelds(s, suit)) == 0
  {
    if s != [] {
      NoPairsBySuit(s[1..], suit);
      PairsPrepend(s[0], SuitMelds(s[1..], suit));
    }
  }

  lemma {:induction false} PairInOneSuit(s: seq<Meld>) returns (p: nat)
    requires AllLegal(s) && PairCount(s) == 1
    ensures p < 5
    ensures forall i: nat :: PairCount(SuitMelds(s, i)) == if i == p then 1 else 0
  {
    if s[0].kind == Pair {
      assert IsSuitTile(MeldTiles(s[0])[0]);
      p := s[0].lead / 10;
    } else {
      p := PairInOneSuit(s[1..]);
    }
    forall i: nat ensures PairCount(SuitMelds(s, i)) == if i == p then 1 else 0 {
      if s[0].kind == Pair { NoPairsBySuit(s[1..], i); }
      PairsPrepend(s[0], SuitMelds(s[1..], i));
      assert InSuit(s[0].lead, i) ==> i == s[0].lead / 10;
    }
  }

  lemma SuitOfSplit(hand: seq<int>, s: seq<Meld>, suit: nat)
    requires AllLegal(s) && TilesOf(s) == multiset(hand)
    ensures TilesOf(SuitMelds(s, suit)) == SuitBag(hand, suit)
    ensures Splits(SuitBag(hand, suit), PairCount(SuitMelds(s, suit)))
  {
    forall t ensures TilesOf(SuitMelds(s, suit))[t] == SuitBag(hand, suit)[t] {
      SuitMeldsCount(s, suit, t);
      SuitTilesCount(hand, suit, t);
    }
    assert TilesOf(SuitMelds(s, suit)) == SuitBag(hand, suit);
    SuitMeldsLegal(s, suit);
    SplitWitness(SuitMelds(s, suit));
  }

  ghost function FirstSuits(hand: seq<int>, n: nat): multiset<int> {
    if n == 0 then multiset{} else FirstSuits(hand, n - 1) + SuitBag(hand, n - 1)
  }

  predicate BelowSuit(t: int, n: nat)
  {
    n > 0 && (InSuit(t, n - 1) || BelowSuit(t, n - 1))
  }

  lemma {:induction false} BelowSuitBound(t: int, n: nat)
    ensures BelowSuit(t, n) ==> t < 10 * n
  {
    if n > 0 { BelowSuitBound(t, n - 1); }
  }

  lemma {:induction false} FirstSuitsCount(hand: seq<int>, n: nat, t: int)
    ensures FirstSuits(hand, n)[t] == if BelowSuit(t, n) then multiset(hand)[t] else 0
  {
    if n != 0 {
      FirstSuitsCount(hand, n - 1, t);
      SuitTilesCount(hand, n - 1, t);
      BelowSuitBound(t, n - 1);
    }
  }

  lemma SuitTileBelow(t: int)
    requires IsSuitTile(t)
    ensures BelowSuit(t, 5)
  {
    assert InSuit(t, 4) || InSuit(t, 3) || InSuit(t, 2) || InSuit(t, 1) || InSuit(t, 0);
    assert BelowSuit(t, 1) <== InSuit(t, 0);
    assert BelowSuit(t, 2) <== BelowSuit(t, 1) || InSuit(t, 1);
    assert BelowSuit(t, 3) <== BelowSuit(t, 2) || InSuit(t, 2);
    assert BelowSuit(t, 4) <== BelowSuit(t, 3) || InSuit(t, 3);
  }

  lemma HandBySuits(hand: seq<int>)
    requires AllSuitTiles(hand)
    ensures FirstSuits(hand, 5) == multiset(hand)
  {
    forall t ensures multiset(hand)[t] == FirstSuits(hand, 5)[t] {
      FirstSuitsCount(hand, 5, t);
      if t in multiset(hand) {
        assert t in hand;
        SuitTileBelow(t);
      }
    }
  }

  lemma SplitWitness(s: seq<Meld>)
    requires AllLegal(s)
    ensures Splits(TilesOf(s), PairCount(s))
  {
    assert IsSplit(s, TilesOf(s), PairCount(s));
  }

  lemma JoinSplits(s: seq<Meld>, a: multiset<int>, i: nat, r: seq<Meld>, b: multiset<int>, j: nat)
    requires IsSplit(s, a, i) && IsSplit(r, b, j)
    ensures IsSplit(s + r, a + b, i + j)
  {
    SplitConcat(s, r);
    assert AllLegal(s + r);
  }

  lemma ConcatSplits(a: multiset<int>, b: multiset<int>, i: nat, j: nat)
    requires Splits(a, i) && Splits(b, j)
    ensures Splits(a + b, i + j)
  {
    var s :| IsSplit(s, a, i);
    var r :| IsSplit(r, b, j);
    JoinSplits(s, a, i, r, b, j);
  }

  // ----- The decision -----

  /** What `check_make` answers: one suit's first path has one pair, the others have none. */
  ghost predicate Makes(hand: seq<int>) {
    exists p :: 0 <= p < 5 && PairOnlyIn(hand, p)
  }

  ghost predicate PairOnlyIn(hand: seq<int>, p: nat) {
    SuitType(hand, p) == 3 && forall i: nat :: i < 5 && i != p ==> SuitType(hand, i) in {1, 2}
  }

  /** No suit's first path has several pairs: the guard of the branch that gives up. */
  ghost predicate NoCrowdedSuit(hand: seq<int>) {
    forall i: nat :: i < 5 ==> SuitType(hand, i) != 4
  }

  lemma SuitSplit(hand: seq<int>, p: nat, i: nat)
    requires AllSuitTiles(hand) && PairOnlyIn(hand, p) && i < 5
    ensures Splits(SuitBag(hand, i), if i == p then 1 else 0)
  {
    SuitBagLegal(hand, i);
    if i == p {
      PairSuit(SuitBag(hand, i));
    } else {
      assert SuitType(hand, i) in {1, 2};
      PairlessSuit(SuitBag(hand, i));
    }
  }

  lemma {:induction false} FirstSuitsSplit(hand: seq<int>, p: nat, n: nat)
    requires AllSuitTiles(hand) && PairOnlyIn(hand, p) && n <= 5
    ensures Splits(FirstSuits(hand, n), if p < n then 1 else 0)
  {
    if n == 0 {
      SplitWitness([]);
    } else {
      FirstSuitsSplit(hand, p, n - 1);
      SuitSplit(hand, p, n - 1);
      ConcatSplits(FirstSuits(hand, n - 1), SuitBag(hand, n - 1),
                   if p < n - 1 then 1 else 0, if n - 1 == p then 1 else 0);
    }
  }

  lemma MakesIsSound(hand: seq<int>)
    requires AllSuitTiles(hand) && Makes(hand)
    ensures Wins(hand) && |hand| % 3 == 2
  {
    var p :| 0 <= p < 5 && PairOnlyIn(hand, p);
    FirstSuitsSplit(hand, p, 5);
    HandBySuits(hand);
    WinningSize(hand);
  }

  lemma WinningSize(hand: seq<int>)
    requires Wins(hand)
    ensures |hand| % 3 == 2
  {
    var s :| IsSplit(s, multiset(hand), 1);
    SizeOfSplit(s);
    SizeModThree(|hand|, |s|);
  }

  lemma SizeModThree(n: nat, a: nat)
    requires n == 3 * a - 1
    ensures n % 3 == 2
  {
  }

  lemma SuitTypesOfWin(hand: seq<int>, s: seq<Meld>, i: nat)
    requires AllSuitTiles(hand) && AllLegal(s) && TilesOf(s) == multiset(hand)
    ensures PairCount(SuitMelds(s, i)) == 0 ==> SuitType(hand, i) in {1, 2}
    ensures PairCount(SuitMelds(s, i)) == 1 ==> SuitType(hand, i) in {3, 4}
  {
    SuitOfSplit(hand, s, i);
    SuitBagLegal(hand, i);
    PairlessSuit(SuitBag(hand, i));
    PairSuit(SuitBag(hand, i));
  }

  /** `check_make` says yes exactly for the winning hands in which no suit's first path has more
      than one pair. */
  lemma MakesExactly(hand: seq<int>)
    requires AllSuitTiles(hand)
    ensures Makes(hand) <==> Wins(hand) && NoCrowdedSuit(hand)
  {
    if Makes(hand) {
      MakesIsSound(hand);
    }
    if Wins(hand) && NoCrowdedSuit(hand) {
      var s :| IsSplit(s, multiset(hand), 1);
      var p := PairInOneSuit(s);
      forall i: nat | i < 5 ensures if i == p then SuitType(hand, i) == 3 else SuitType(hand, i) in {1, 2} {
        SuitTypesOfWin(hand, s, i);
      }
      assert PairOnlyIn(hand, p);
    }
  }

  /** The answer does not depend on the order of the tiles. */
  lemma MakesByTiles(a: seq<int>, b: seq<int>)
    requires multiset(a) == multiset(b)
    ensures Makes(a) <==> Makes(b)
  {
    forall i: nat ensures SuitType(a, i) == SuitType(b, i) {
      forall t ensures SuitBag(a, i)[t] == SuitBag(b, i)[t] {
        SuitTilesCount(a, i, t);
        SuitTilesCount(b, i, t);
      }
      assert SuitBag(a, i) == SuitBag(b, i);
    }
    assert forall p: nat :: p < 5 ==> (PairOnlyIn(a, p) <==> PairOnlyIn(b, p));
  }

  /** The search never reaches a flower, so a hand that waits for a tile does not win on one. */
  lemma FlowerNeverMakes(hand: seq<int>, f: int)
    requires AllSuitTiles(hand) && IsFlower(f) && |hand| % 3 == 1
    ensures !Makes(hand + [f])
  {
    forall i: nat | i < 5 ensures SuitType(hand + [f], i) == SuitType(hand, i) {
      forall t ensures SuitBag(hand + [f], i)[t] == SuitBag(hand, i)[t] {
        SuitTilesCount(hand + [f], i, t);
        SuitTilesCount(hand, i, t);
      }
      assert SuitBag(hand + [f], i) == SuitBag(hand, i);
    }
    if Makes(hand + [f]) {
      assert forall p: nat :: p < 5 ==> (PairOnlyIn(hand + [f], p) <==> PairOnlyIn(hand, p));
      MakesIsSound(hand);
      assert false;
    }
  }
}
