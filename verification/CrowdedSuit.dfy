/** A winning hand that `check_make` turns down: 11 123 234 456 456 in one suit. Its first path is
    111 22 33 444 55 66. */
module CrowdedSuit {
  import opened Tiles
  import opened Melds
  import opened Search
  import opened Winning

  /** How many copies of each tile, from some first tile upwards. */
  datatype Counts = Nil | Cons(n: nat, rest: Counts)

  function Length(c: Counts): nat {
    match c case Nil => 0 case Cons(_, r) => 1 + Length(r)
  }

  function Copies(c: Counts): nat {
    match c case Nil => 0 case Cons(n, _) => n
  }

  function Hand(c: Counts, x: int): seq<int>
    decreases Length(c), Copies(c)
  {
    match c
    case Nil => []
    case Cons(n, r) => if n == 0 then Hand(r, x + 1) else [x] + Hand(Cons(n - 1, r), x)
  }

  ghost function Bag(c: Counts, x: int): multiset<int> {
    match c case Nil => multiset{} case Cons(n, r) => Bag(r, x + 1)[x := n]
  }

  lemma {:induction false} BagBounds(c: Counts, x: int, t: int)
    requires t in Bag(c, x)
    ensures x <= t
  {
    match c
    case Nil =>
    case Cons(n, r) => if t != x { BagBounds(r, x + 1, t); }
  }

  lemma BagPlusOne(n: nat, r: Counts, x: int)
    ensures Bag(Cons(n + 1, r), x) == multiset{x} + Bag(Cons(n, r), x)
  {
  }

  lemma {:induction false} HandBag(c: Counts, x: int)
    ensures multiset(Hand(c, x)) == Bag(c, x)
    decreases Length(c), Copies(c)
  {
    match c
    case Nil =>
    case Cons(n, r) =>
      if n == 0 {
        HandBag(r, x + 1);
        if x in Bag(r, x + 1) { BagBounds(r, x + 1, x); }
        assert Bag(r, x + 1)[x := 0] == Bag(r, x + 1);
      } else {
        HandBag(Cons(n - 1, r), x);
        BagPlusOne(n - 1, r, x);
      }
  }

  /** The counts after a straight from the first tile, or Nil when there is none. */
  function AfterStraight(c: Counts): (r: Counts)
    ensures r.Cons? ==> c.Cons? && Length(r) == Length(c) && r.n == c.n - 1
  {
    match c
    case Cons(a, Cons(b, Cons(d, r))) =>
      assert Length(c) == 1 + Length(c.rest) && Length(c.rest) == 1 + Length(c.rest.rest);
      if a > 0 && b > 0 && d > 0 then
        var s := Cons(b - 1, Cons(d - 1, r));
        assert Length(s) == 1 + Length(s.rest);
        Cons(a - 1, s)
      else Nil
    case _ => Nil
  }

  lemma BagUnfold(n: nat, r: Counts, x: int)
    ensures Bag(Cons(n, r), x) == Bag(r, x + 1)[x := n]
  {
  }

  lemma ThreeUpdates(m: multiset<int>, x: int, a: nat, b: nat, d: nat)
    requires a > 0 && b > 0 && d > 0
    ensures m[x + 2 := d][x + 1 := b][x := a]
            == multiset{x, x + 1, x + 2} + m[x + 2 := d - 1][x + 1 := b - 1][x := a - 1]
  {
  }

  lemma StraightCounts(c: Counts, x: int)
    requires AfterStraight(c).Cons?
    ensures Bag(c, x) == multiset(MeldTiles(Meld(Straight, x))) + Bag(AfterStraight(c), x)
  {
    StraightBag(x);
    var Cons(a, Cons(b, Cons(d, r))) := c;
    BagUnfold(a, c.rest, x); BagUnfold(b, c.rest.rest, x + 1); BagUnfold(d, r, x + 2);
    BagUnfold(d - 1, r, x + 2);
    BagUnfold(b - 1, Cons(d - 1, r), x + 1);
    BagUnfold(a - 1, Cons(b - 1, Cons(d - 1, r)), x);
    ThreeUpdates(Bag(r, x + 3), x, a, b, d);
  }

  lemma SameCounts(n: nat, r: Counts, x: int, k: nat)
    requires k <= n
    ensures Bag(Cons(n, r), x) == multiset{}[x := k] + Bag(Cons(n - k, r), x)
  {
  }

  lemma PairBag(x: int)
    ensures multiset(MeldTiles(Meld(Pair, x))) == multiset{}[x := 2]
  {
  }

  lemma BagOfZero(r: Counts, x: int)
    ensures Bag(Cons(0, r), x) == Bag(r, x + 1)
  {
    if x in Bag(r, x + 1) { BagBounds(r, x + 1, x); }
  }

  // ----- The first path -----

  /** The pairs on the first path, or -1 when there is no path. */
  function FirstPairs(c: Counts): int
    decreases Length(c), Copies(c)
  {
    match c
    case Nil => 0
    case Cons(n, r) =>
      if n == 0 then FirstPairs(r)
      else
        var three := if n >= 3 then FirstPairs(Cons(n - 3, r)) else -1;
        if three >= 0 then three
        else
          var straight := if AfterStraight(c).Cons? then FirstPairs(AfterStraight(c)) else -1;
          if straight >= 0 then straight
          else if n == 2 && FirstPairs(Cons(0, r)) >= 0 then FirstPairs(Cons(0, r)) + 1
          else -1
  }

  /** `FirstPairs` is about the first path of the search. */
  ghost predicate FirstPathHas(m: multiset<int>, up: seq<Meld>, pairs: int) {
    if pairs < 0 then Paths(m, up) == []
    else Paths(m, up) != [] && PairCount(Paths(m, up)[0]) == PairCount(up) + pairs
  }

  ghost predicate FirstBelowHas(m: multiset<int>, meld: Meld, up: seq<Meld>, pairs: int) {
    if pairs < 0 then Below(m, meld, up) == []
    else Below(m, meld, up) != [] && PairCount(Below(m, meld, up)[0]) == PairCount(up) + pairs
  }

  lemma BelowHas(m: multiset<int>, meld: Meld, up: seq<Meld>, rest: multiset<int>, pairs: int)
    requires Offered(m, meld) && m == multiset(MeldTiles(meld)) + rest
    requires FirstPathHas(rest, [meld] + up, pairs)
    ensures FirstBelowHas(m, meld, up, if pairs >= 0 && meld.kind == Pair then pairs + 1 else pairs)
  {
    TakeUnique(m, meld, rest);
    PairsPrepend(meld, up);
  }

  lemma FirstOfThree(m: multiset<int>, up: seq<Meld>, x: int, three: int, straight: int, pair: int)
    requires m != multiset{} && Lead(m) == x
    requires FirstBelowHas(m, Meld(Three, x), up, three)
    requires FirstBelowHas(m, Meld(Straight, x), up, straight)
    requires FirstBelowHas(m, Meld(Pair, x), up, pair)
    ensures FirstPathHas(m, up, if three >= 0 then three else if straight >= 0 then straight else pair)
  {
  }

  lemma LeadOfBag(n: nat, r: Counts, x: int)
    requires n > 0
    ensures Bag(Cons(n, r), x) != multiset{} && Lead(Bag(Cons(n, r), x)) == x
  {
    var m := Bag(Cons(n, r), x);
    assert m[x] == n;
    BagBounds(Cons(n, r), x, Lead(m));
  }

  lemma StraightOnBag(c: Counts, x: int)
    requires c.Cons? && c.n > 0 && x + Length(c) <= 30
    ensures Offered(Bag(c, x), Meld(Straight, x)) <==> AfterStraight(c).Cons?
  {
    var m := Bag(c, x);
    BagUnfold(c.n, c.rest, x);
    if c.rest.Cons? {
      BagUnfold(c.rest.n, c.rest.rest, x + 1);
      if c.rest.rest.Cons? {
        BagUnfold(c.rest.rest.n, c.rest.rest.rest, x + 2);
        assert Length(c) == 1 + Length(c.rest) && Length(c.rest) == 1 + Length(c.rest.rest);
      }
    }
  }

  lemma FirstPathOf(c: Counts, x: int, up: seq<Meld>)
    requires x + Length(c) <= 30
    ensures FirstPathHas(Bag(c, x), up, FirstPairs(c))
    decreases Length(c), Copies(c)
  {
    match c
    case Nil =>
    case Cons(n, r) =>
      if n == 0 {
        BagOfZero(r, x);
        FirstPathOf(r, x + 1, up);
      } else {
        LeadOfBag(n, r, x);
        var three := FirstByThree(n, r, x, up);
        var straight := FirstByStraight(c, x, up);
        var pair := FirstByPair(n, r, x, up);
        FirstOfThree(Bag(c, x), up, x, three, straight, pair);
      }
  }

  lemma FirstByThree(n: nat, r: Counts, x: int, up: seq<Meld>) returns (pairs: int)
    requires x + 1 + Length(r) <= 30
    ensures pairs == if n >= 3 then FirstPairs(Cons(n - 3, r)) else -1
    ensures FirstBelowHas(Bag(Cons(n, r), x), Meld(Three, x), up, pairs)
    decreases 1 + Length(r), n, 0
  {
    var m, meld := Bag(Cons(n, r), x), Meld(Three, x);
    pairs := -1;
    if n >= 3 {
      pairs := FirstPairs(Cons(n - 3, r));
      FirstPathOf(Cons(n - 3, r), x, [meld] + up);
      SameCounts(n, r, x, 3);
      ThreeBag(x);
      BelowHas(m, meld, up, Bag(Cons(n - 3, r), x), pairs);
    }
  }

  lemma FirstByPair(n: nat, r: Counts, x: int, up: seq<Meld>) returns (pairs: int)
    requires x + 1 + Length(r) <= 30
    ensures pairs == if n == 2 && FirstPairs(Cons(0, r)) >= 0 then FirstPairs(Cons(0, r)) + 1 else -1
    ensures FirstBelowHas(Bag(Cons(n, r), x), Meld(Pair, x), up, pairs)
    decreases 1 + Length(r), n, 0
  {
    var m, meld := Bag(Cons(n, r), x), Meld(Pair, x);
    pairs := -1;
    if n == 2 {
      FirstPathOf(Cons(0, r), x, [meld] + up);
      SameCounts(n, r, x, 2);
      PairBag(x);
      BelowHas(m, meld, up, Bag(Cons(0, r), x), FirstPairs(Cons(0, r)));
      if FirstPairs(Cons(0, r)) >= 0 { pairs := FirstPairs(Cons(0, r)) + 1; }
    }
  }

  lemma FirstByStraight(c: Counts, x: int, up: seq<Meld>) returns (pairs: int)
    requires c.Cons? && c.n > 0 && x + Length(c) <= 30
    ensures pairs == if AfterStraight(c).Cons? then FirstPairs(AfterStraight(c)) else -1
    ensures FirstBelowHas(Bag(c, x), Meld(Straight, x), up, pairs)
    decreases Length(c), Copies(c), 0
  {
    var m, meld := Bag(c, x), Meld(Straight, x);
    StraightOnBag(c, x);
    pairs := -1;
    if AfterStraight(c).Cons? {
      pairs := FirstPairs(AfterStraight(c));
      FirstPathOf(AfterStraight(c), x, [meld] + up);
      StraightCounts(c, x);
      BelowHas(m, meld, up, Bag(AfterStraight(c), x), pairs);
    }
  }

  // ----- The hand -----

  const HAND := [1, 1, 1, 2, 2, 3, 3, 4, 4, 4, 5, 5, 6, 6]

  lemma HandPairs()
    ensures FirstPairs(Cons(3, Cons(2, Cons(2, Cons(3, Cons(2, Cons(2, Nil))))))) == 4
  {
  }

  lemma HandTiles()
    ensures Hand(Cons(3, Cons(2, Cons(2, Cons(3, Cons(2, Cons(2, Nil)))))), 1) == HAND
    ensures Length(Cons(3, Cons(2, Cons(2, Cons(3, Cons(2, Cons(2, Nil))))))) == 6
  {
  }

  function MeldCount(m: Meld, t: int): nat {
    match m.kind
    case Three => if t == m.lead then 3 else 0
    case Straight => if m.lead <= t <= m.lead + 2 then 1 else 0
    case Pair => if t == m.lead then 2 else 0
  }

  function CountIn(s: seq<Meld>, t: int): nat {
    if s == [] then 0 else MeldCount(s[0], t) + CountIn(s[1..], t)
  }

  function CountOf(c: Counts, x: int, t: int): nat {
    match c case Nil => 0 case Cons(n, r) => if t == x then n else CountOf(r, x + 1, t)
  }

  lemma MeldCounted(m: Meld, t: int)
    ensures multiset(MeldTiles(m))[t] == MeldCount(m, t)
  {
  }

  lemma {:induction false} SplitCounted(s: seq<Meld>, t: int)
    ensures TilesOf(s)[t] == CountIn(s, t)
  {
    if s != [] {
      MeldCounted(s[0], t);
      SplitCounted(s[1..], t);
    }
  }

  lemma {:induction false} BagCounted(c: Counts, x: int, t: int)
    ensures Bag(c, x)[t] == CountOf(c, x, t)
  {
    match c
    case Nil =>
    case Cons(_, r) => BagCounted(r, x + 1, t);
  }

  const SPLIT := [Meld(Pair, 1), Meld(Straight, 1), Meld(Straight, 2), Meld(Straight, 4), Meld(Straight, 4)]

  lemma CountCons(m: Meld, s: seq<Meld>, t: int)
    ensures CountIn([m] + s, t) == MeldCount(m, t) + CountIn(s, t)
    ensures PairCount([m] + s) == (if m.kind == Pair then 1 else 0) + PairCount(s)
  {
  }

  lemma SplitCount(t: int)
    ensures CountIn(SPLIT, t) == MeldCount(Meld(Pair, 1), t) + MeldCount(Meld(Straight, 1), t)
                                 + MeldCount(Meld(Straight, 2), t) + 2 * MeldCount(Meld(Straight, 4), t)
    ensures PairCount(SPLIT) == 1
  {
    var s5: seq<Meld> := [];
    var s4 := [Meld(Straight, 4)] + s5;
    var s3 := [Meld(Straight, 4)] + s4;
    var s2 := [Meld(Straight, 2)] + s3;
    var s1 := [Meld(Straight, 1)] + s2;
    CountCons(Meld(Straight, 4), s5, t);
    CountCons(Meld(Straight, 4), s4, t);
    CountCons(Meld(Straight, 2), s3, t);
    CountCons(Meld(Straight, 1), s2, t);
    CountCons(Meld(Pair, 1), s1, t);
    assert SPLIT == [Meld(Pair, 1)] + s1;
  }

  lemma HandCount(t: int)
    ensures CountOf(Cons(3, Cons(2, Cons(2, Cons(3, Cons(2, Cons(2, Nil)))))), 1, t)
            == if t == 1 || t == 4 then 3 else if t == 2 || t == 3 || t == 5 || t == 6 then 2 else 0
  {
    var c5 := Cons(2, Nil);
    var c4 := Cons(2, c5);
    var c3 := Cons(3, c4);
    CountStep(2, Nil, 6, t); CountStep(2, c5, 5, t); CountStep(3, c4, 4, t);
    CountStep(2, c3, 3, t); CountStep(2, Cons(2, c3), 2, t); CountStep(3, Cons(2, Cons(2, c3)), 1, t);
  }

  lemma CountStep(n: nat, r: Counts, x: int, t: int)
    ensures CountOf(Cons(n, r), x, t) == if t == x then n else CountOf(r, x + 1, t)
  {
  }

  /** 11 123 234 456 456. */
  lemma SplitOfHand(s: seq<Meld>, c: Counts)
    requires AllLegal(s) && PairCount(s) == 1
    requires forall t :: CountIn(s, t) == CountOf(c, 1, t)
    ensures Splits(Bag(c, 1), 1)
  {
    forall t ensures TilesOf(s)[t] == Bag(c, 1)[t] {
      SplitCounted(s, t);
      BagCounted(c, 1, t);
    }
    assert IsSplit(s, Bag(c, 1), 1);
  }

  lemma HandSplits()
    ensures Splits(Bag(Cons(3, Cons(2, Cons(2, Cons(3, Cons(2, Cons(2, Nil)))))), 1), 1)
  {
    forall t ensures CountIn(SPLIT, t) == CountOf(Cons(3, Cons(2, Cons(2, Cons(3, Cons(2, Cons(2, Nil)))))), 1, t) {
      SplitCount(t);
      HandCount(t);
    }
    SplitCount(0);
    SplitOfHand(SPLIT, Cons(3, Cons(2, Cons(2, Cons(3, Cons(2, Cons(2, Nil)))))));
  }

  lemma HandInSuit()
    ensures forall k :: 0 <= k < |HAND| ==> InSuit(HAND[k], 0)
  {
  }

  lemma TheCounts() returns (c: Counts)
    ensures Hand(c, 1) == HAND && Length(c) == 6
    ensures FirstPairs(c) == 4 && Splits(Bag(c, 1), 1)
  {
    HandTiles();
    HandPairs();
    HandSplits();
    c := Cons(3, Cons(2, Cons(2, Cons(3, Cons(2, Cons(2, Nil))))));
  }

  lemma Crowded(hand: seq<int>, c: Counts)
    requires forall k :: 0 <= k < |hand| ==> InSuit(hand[k], 0)
    requires Hand(c, 1) == hand && Length(c) == 6
    requires FirstPairs(c) == 4 && Splits(Bag(c, 1), 1)
    ensures AllSuitTiles(hand) && Wins(hand) && !Makes(hand)
  {
    HandBag(c, 1);
    AllOfSuit(hand, 0);
    FirstPathOf(c, 1, []);
    assert SuitType(hand, 0) == 4;
    assert AllSuitTiles(hand) by {
      forall k | 0 <= k < |hand| ensures IsSuitTile(hand[k]) { assert InSuit(hand[k], 0); }
    }
    MakesExactly(hand);
  }

  /** The converse of soundness fails: this hand wins and `check_make` says no. */
  lemma WinTurnedDown()
    ensures AllSuitTiles(HAND) && Wins(HAND) && !Makes(HAND)
  {
    var c := TheCounts();
    HandInSuit();
    Crowded(HAND, c);
  }
}
