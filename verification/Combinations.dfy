/** What the list of combinations means: each entry is a winning division of the whole hand, and
    every winning division is an entry. */
module Combinations {
  import opened Tiles
  import opened Melds
  import opened Search
  import opened Winning
  import opened SuitSearch
  import opened CheckMake
  import Settlement

  /** The number of pairs of a valid path is fixed by the size of its suit. */
  lemma ValidPathPairs(m: multiset<int>, p: seq<Meld>, q: seq<Meld>)
    requires OnlySuitTiles(m) && p in Paths(m, []) && q in Paths(m, [])
    requires ValidType(PathType(p)) && ValidType(PathType(q))
    ensures PairCount(p) == PairCount(q) && IsSplit(p, m, PairCount(q))
  {
    ListedPath(m, p);
    ListedPath(m, q);
    SamePairs(|p|, PairCount(p), |q|, PairCount(q));
  }

  lemma SamePairs(a: nat, i: nat, b: nat, j: nat)
    requires 3 * a - i == 3 * b - j && i <= 1 && j <= 1
    ensures i == j
  {
  }

  lemma ComponentAt(hand: seq<int>, suit: nat, k: nat)
    requires suit < 5 && k < |ComponentsOf(hand)[suit]|
    ensures k < |Paths(SuitBag(hand, suit), [])|
    ensures ComponentsOf(hand)[suit][k] == ComponentOf(Paths(SuitBag(hand, suit), [])[k])
  {
  }

  /** In a hand `check_make` accepts, any valid component of a suit has that suit's share of the pair. */
  lemma AnyValidComponent(hand: seq<int>, p: nat, suit: nat, k: nat)
    requires AllSuitTiles(hand) && PairOnlyIn(hand, p) && suit < 5
    requires k < |ComponentsOf(hand)[suit]| && ValidType(ComponentsOf(hand)[suit][k].kind)
    ensures IsSplit(ComponentsOf(hand)[suit][k].melds, SuitBag(hand, suit), if suit == p then 1 else 0)
  {
    var m := SuitBag(hand, suit);
    SuitBagLegal(hand, suit);
    ComponentAt(hand, suit, k);
    ComponentAt(hand, suit, 0);
    assert SuitType(hand, suit) in {1, 2, 3};
    ValidPathPairs(m, Paths(m, [])[k], Paths(m, [])[0]);
  }

  ghost predicate Accepted(hand: seq<int>) {
    AllSuitTiles(hand) && Makes(hand)
  }

  lemma FirstIsValid(hand: seq<int>, suit: nat)
    requires Accepted(hand) && suit < 5
    ensures ComponentsOf(hand)[suit] != [] && ValidType(ComponentsOf(hand)[suit][0].kind)
  {
    var p :| 0 <= p < 5 && PairOnlyIn(hand, p);
    assert SuitType(hand, suit) in {1, 2, 3};
    ComponentAt(hand, suit, 0);
  }

  /** A component of a suit is a legal division of that suit's tiles. */
  lemma ComponentSplits(hand: seq<int>, suit: nat, k: nat)
    requires AllSuitTiles(hand) && suit < 5 && k < |ComponentsOf(hand)[suit]|
    ensures var s := ComponentsOf(hand)[suit][k].melds; IsSplit(s, SuitBag(hand, suit), PairCount(s))
  {
    SuitBagLegal(hand, suit);
    ComponentAt(hand, suit, k);
    ListedPath(SuitBag(hand, suit), Paths(SuitBag(hand, suit), [])[k]);
  }

  /** Any mixture of components is a legal division of the whole hand. */
  lemma CombinationSplits(hand: seq<int>, a: nat, b: nat, d: nat)
    requires AllSuitTiles(hand) && Choice(ComponentsOf(hand), a, b, d)
    ensures var s := Combine(ComponentsOf(hand), a, b, d); IsSplit(s, multiset(hand), PairCount(s))
  {
    var c: seq<seq<Component>> := ComponentsOf(hand);
    ComponentSplits(hand, 0, a);
    ComponentSplits(hand, 1, b);
    ComponentSplits(hand, 2, d);
    ComponentSplits(hand, 3, 0);
    ComponentSplits(hand, 4, 0);
    JoinParts(hand, c[0][a].melds, c[1][b].melds, c[2][d].melds, c[3][0].melds, c[4][0].melds);
  }

  ghost predicate IsPart(hand: seq<int>, n: nat, s: seq<Meld>) {
    IsSplit(s, FirstSuits(hand, n), PairCount(s))
  }

  lemma JoinPart(hand: seq<int>, n: nat, s: seq<Meld>, r: seq<Meld>)
    requires IsPart(hand, n, s) && IsSplit(r, SuitBag(hand, n), PairCount(r))
    ensures IsPart(hand, n + 1, s + r)
  {
    JoinSplits(s, FirstSuits(hand, n), PairCount(s), r, SuitBag(hand, n), PairCount(r));
  }

  lemma JoinParts(hand: seq<int>, s0: seq<Meld>, s1: seq<Meld>, s2: seq<Meld>, s3: seq<Meld>, s4: seq<Meld>)
    requires AllSuitTiles(hand)
    requires IsSplit(s0, SuitBag(hand, 0), PairCount(s0)) && IsSplit(s1, SuitBag(hand, 1), PairCount(s1))
    requires IsSplit(s2, SuitBag(hand, 2), PairCount(s2)) && IsSplit(s3, SuitBag(hand, 3), PairCount(s3))
    requires IsSplit(s4, SuitBag(hand, 4), PairCount(s4))
    ensures var s := s0 + s1 + s2 + s3 + s4; IsSplit(s, multiset(hand), PairCount(s))
  {
    JoinPart(hand, 0, [], s0);
    assert [] + s0 == s0;
    JoinPart(hand, 1, s0, s1);
    JoinPart(hand, 2, s0 + s1, s2);
    JoinPart(hand, 3, s0 + s1 + s2, s3);
    JoinPart(hand, 4, s0 + s1 + s2 + s3, s4);
    HandBySuits(hand);
  }

  lemma PairsOfParts(s0: seq<Meld>, s1: seq<Meld>, s2: seq<Meld>, s3: seq<Meld>, s4: seq<Meld>)
    ensures PairCount(s0 + s1 + s2 + s3 + s4) == PairCount(s0) + PairCount(s1) + PairCount(s2) + PairCount(s3) + PairCount(s4)
  {
    SplitConcat(s0 + s1 + s2 + s3, s4);
    SplitConcat(s0 + s1 + s2, s3);
    SplitConcat(s0 + s1, s2);
    SplitConcat(s0, s1);
  }

  lemma ShareOfPair(hand: seq<int>, p: nat, suit: nat, k: nat)
    requires AllSuitTiles(hand) && PairOnlyIn(hand, p) && suit < 5
    requires k < |ComponentsOf(hand)[suit]| && ValidType(ComponentsOf(hand)[suit][k].kind)
    ensures PairCount(ComponentsOf(hand)[suit][k].melds) == if suit == p then 1 else 0
  {
    AnyValidComponent(hand, p, suit, k);
  }

  lemma OnePairOfFive(p: nat, n0: nat, n1: nat, n2: nat, n3: nat, n4: nat)
    requires p < 5
    requires n0 == (if p == 0 then 1 else 0) && n1 == (if p == 1 then 1 else 0) && n2 == (if p == 2 then 1 else 0)
    requires n3 == (if p == 3 then 1 else 0) && n4 == (if p == 4 then 1 else 0)
    ensures n0 + n1 + n2 + n3 + n4 == 1
  {
  }

  lemma OnePairChosen(hand: seq<int>, p: nat, a: nat, b: nat, d: nat)
    requires AllSuitTiles(hand) && PairOnlyIn(hand, p) && p < 5 && Choice(ComponentsOf(hand), a, b, d)
    requires ValidType(ComponentsOf(hand)[3][0].kind) && ValidType(ComponentsOf(hand)[4][0].kind)
    ensures PairCount(Combine(ComponentsOf(hand), a, b, d)) == 1
  {
    var c: seq<seq<Component>> := ComponentsOf(hand);
    ShareOfPair(hand, p, 0, a);
    ShareOfPair(hand, p, 1, b);
    ShareOfPair(hand, p, 2, d);
    ShareOfPair(hand, p, 3, 0);
    ShareOfPair(hand, p, 4, 0);
    OnePairOfFive(p, PairCount(c[0][a].melds), PairCount(c[1][b].melds), PairCount(c[2][d].melds),
                  PairCount(c[3][0].melds), PairCount(c[4][0].melds));
    PairsOfParts(c[0][a].melds, c[1][b].melds, c[2][d].melds, c[3][0].melds, c[4][0].melds);
  }

  lemma AcceptedOnePair(hand: seq<int>, a: nat, b: nat, d: nat)
    requires Accepted(hand) && Choice(ComponentsOf(hand), a, b, d)
    ensures PairCount(Combine(ComponentsOf(hand), a, b, d)) == 1
  {
    var p: nat :| p < 5 && PairOnlyIn(hand, p);
    FirstIsValid(hand, 3);
    FirstIsValid(hand, 4);
    OnePairChosen(hand, p, a, b, d);
  }

  /** After a yes, mixing valid components freely gives a division with exactly one pair. */
  lemma CombinationIsWin(hand: seq<int>, a: nat, b: nat, d: nat)
    requires Accepted(hand) && Choice(ComponentsOf(hand), a, b, d)
    ensures IsSplit(Combine(ComponentsOf(hand), a, b, d), multiset(hand), 1)
  {
    AcceptedOnePair(hand, a, b, d);
    CombinationSplits(hand, a, b, d);
  }

  // ----- Every win is listed -----

  lemma {:induction false} HonourPaths(m: multiset<int>, up: seq<Meld>)
    requires forall t :: t in m ==> t > 30
    ensures |Paths(m, up)| <= 1
    decreases |m|
  {
    if m != multiset{} {
      var x := Lead(m);
      forall k: Kind | Offered(m, Meld(k, x)) ensures |Below(m, Meld(k, x), up)| <= 1 {
        TakeRest(m, Meld(k, x));
        HonourPaths(Take(m, Meld(k, x)), [Meld(k, x)] + up);
      }
      assert Below(m, Meld(Straight, x), up) == [];
      if m[x] >= 3 { assert Below(m, Meld(Pair, x), up) == []; } else { assert Below(m, Meld(Three, x), up) == []; }
    }
  }

  /** A suit's part of a winning division is one of its valid components. */
  lemma SuitPartListed(hand: seq<int>, s: seq<Meld>, suit: nat) returns (k: nat)
    requires AllSuitTiles(hand) && suit < 5 && IsSplit(s, multiset(hand), 1)
    ensures k < |ComponentsOf(hand)[suit]| && ValidType(ComponentsOf(hand)[suit][k].kind)
    ensures multiset(ComponentsOf(hand)[suit][k].melds) == multiset(SuitMelds(s, suit))
    ensures suit >= 3 ==> k == 0
  {
    var m, part := SuitBag(hand, suit), SuitMelds(s, suit);
    SuitOfSplit(hand, s, suit);
    SuitMeldsLegal(s, suit);
    var i := PairInOneSuit(s);
    var p := PathsComplete(m, [], part);
    k :| 0 <= k < |Paths(m, [])| && Paths(m, [])[k] == p;
    ComponentAt(hand, suit, k);
    assert multiset(p) == multiset(part);
    SuitBagLegal(hand, suit);
    ListedPath(m, p);
    SizeOfSplit(part);
    assert |multiset(p)| == |p| && |multiset(part)| == |part|;
    if suit >= 3 {
      forall t | t in m ensures t > 30 {
        SuitTilesCount(hand, suit, t);
      }
      HonourPaths(m, []);
    }
  }

  function InSuitCount(s: seq<Meld>, suit: nat, m: Meld): nat {
    multiset(SuitMelds(s, suit))[m]
  }

  lemma HeadCount(s: seq<Meld>, suit: nat, m: Meld)
    requires s != []
    ensures InSuitCount(s, suit, m) == (if InSuit(s[0].lead, suit) && s[0] == m then 1 else 0) + InSuitCount(s[1..], suit, m)
  {
  }

  function SuitBit(t: int, suit: nat): nat {
    if InSuit(t, suit) then 1 else 0
  }

  lemma OneSuit(t: int)
    requires IsSuitTile(t)
    ensures SuitBit(t, 0) + SuitBit(t, 1) + SuitBit(t, 2) + SuitBit(t, 3) + SuitBit(t, 4) == 1
  {
  }

  function AllSuitsCount(s: seq<Meld>, m: Meld): nat {
    InSuitCount(s, 0, m) + InSuitCount(s, 1, m) + InSuitCount(s, 2, m) + InSuitCount(s, 3, m) + InSuitCount(s, 4, m)
  }

  lemma AllSuitsHead(s: seq<Meld>, m: Meld)
    requires s != [] && IsSuitTile(s[0].lead)
    ensures AllSuitsCount(s, m) == (if s[0] == m then 1 else 0) + AllSuitsCount(s[1..], m)
  {
    OneSuit(s[0].lead);
    HeadCount(s, 0, m);
    HeadCount(s, 1, m);
    HeadCount(s, 2, m);
    HeadCount(s, 3, m);
    HeadCount(s, 4, m);
  }

  lemma {:induction false} MeldsBySuit(s: seq<Meld>, m: Meld)
    requires AllLegal(s)
    ensures multiset(s)[m] == AllSuitsCount(s, m)
  {
    if s != [] {
      assert s == [s[0]] + s[1..];
      assert IsSuitTile(MeldTiles(s[0])[0]);
      MeldsBySuit(s[1..], m);
      AllSuitsHead(s, m);
    }
  }

  lemma FiveParts(s0: seq<Meld>, s1: seq<Meld>, s2: seq<Meld>, s3: seq<Meld>, s4: seq<Meld>, m: Meld)
    ensures multiset(s0 + s1 + s2 + s3 + s4)[m]
            == multiset(s0)[m] + multiset(s1)[m] + multiset(s2)[m] + multiset(s3)[m] + multiset(s4)[m]
  {
  }

  lemma SameMelds(s: seq<Meld>, s0: seq<Meld>, s1: seq<Meld>, s2: seq<Meld>, s3: seq<Meld>, s4: seq<Meld>)
    requires AllLegal(s)
    requires multiset(s0) == multiset(SuitMelds(s, 0)) && multiset(s1) == multiset(SuitMelds(s, 1))
    requires multiset(s2) == multiset(SuitMelds(s, 2)) && multiset(s3) == multiset(SuitMelds(s, 3))
    requires multiset(s4) == multiset(SuitMelds(s, 4))
    ensures multiset(s0 + s1 + s2 + s3 + s4) == multiset(s)
  {
    forall m ensures multiset(s0 + s1 + s2 + s3 + s4)[m] == multiset(s)[m] {
      MeldsBySuit(s, m);
      FiveParts(s0, s1, s2, s3, s4, m);
    }
  }

  /** Every division of a hand with exactly one pair is listed, up to order, whether or not
      `check_make` accepts the hand. */
  lemma WinIsCombination(hand: seq<int>, s: seq<Meld>) returns (a: nat, b: nat, d: nat)
    requires AllSuitTiles(hand) && IsSplit(s, multiset(hand), 1)
    ensures Choice(ComponentsOf(hand), a, b, d)
    ensures multiset(Combine(ComponentsOf(hand), a, b, d)) == multiset(s)
  {
    var c: seq<seq<Component>> := ComponentsOf(hand);
    a := SuitPartListed(hand, s, 0);
    b := SuitPartListed(hand, s, 1);
    d := SuitPartListed(hand, s, 2);
    var e := SuitPartListed(hand, s, 3);
    var f := SuitPartListed(hand, s, 4);
    SameMelds(s, c[0][a].melds, c[1][b].melds, c[2][d].melds, c[3][0].melds, c[4][0].melds);
  }

  lemma EveryWinListed(hand: seq<int>, combs: seq<seq<Meld>>, s: seq<Meld>) returns (k: nat)
    requires AllSuitTiles(hand) && IsProduct(ComponentsOf(hand), combs)
    requires IsSplit(s, multiset(hand), 1)
    ensures k < |combs| && multiset(combs[k]) == multiset(s)
  {
    var a, b, d := WinIsCombination(hand, s);
    var comb := Combine(ComponentsOf(hand), a, b, d);
    assert Combined(ComponentsOf(hand), comb);
    k :| 0 <= k < |combs| && combs[k] == comb;
  }

  lemma {:induction false} SamePairCount(s: seq<Meld>, r: seq<Meld>)
    requires multiset(s) == multiset(r)
    ensures PairCount(s) == PairCount(r)
  {
    if s == [] {
      assert |multiset(r)| == 0;
    } else {
      assert s == [s[0]] + s[1..];
      assert s[0] in multiset(s);
      var k :| 0 <= k < |r| && r[k] == s[0];
      assert r == r[..k] + [r[k]] + r[k + 1..];
      OneLess(s[0], multiset(s[1..]), multiset(r[..k] + r[k + 1..]), multiset(s));
      SamePairCount(s[1..], r[..k] + r[k + 1..]);
      MovePair(r[..k], r[k], r[k + 1..]);
    }
  }

  lemma OneLess(m: Meld, a: multiset<Meld>, b: multiset<Meld>, all: multiset<Meld>)
    requires multiset{m} + a == all && multiset{m} + b == all
    ensures a == b
  {
    assert a == all - multiset{m} && b == all - multiset{m};
  }

  lemma MovePair(a: seq<Meld>, m: Meld, b: seq<Meld>)
    ensures PairCount(a + [m] + b) == (if m.kind == Pair then 1 else 0) + PairCount(a + b)
  {
    SplitConcat(a + [m], b);
    SplitConcat(a, [m]);
    SplitConcat(a, b);
    assert [m][1..] == [];
  }

  /** A hand wins exactly when the list of combinations has an entry with exactly one pair. */
  lemma WinsExactlyWhenListed(hand: seq<int>)
    requires AllSuitTiles(hand)
    ensures Wins(hand) <==> exists a, b, d ::
              Choice(ComponentsOf(hand), a, b, d) && PairCount(Combine(ComponentsOf(hand), a, b, d)) == 1
  {
    if Wins(hand) {
      var s :| IsSplit(s, multiset(hand), 1);
      var a, b, d := WinIsCombination(hand, s);
      SamePairCount(s, Combine(ComponentsOf(hand), a, b, d));
    }
    if a, b, d :| Choice(ComponentsOf(hand), a, b, d) && PairCount(Combine(ComponentsOf(hand), a, b, d)) == 1 {
      CombinationSplits(hand, a, b, d);
    }
  }

  // ----- The reading settled on -----

  /** What the tai of a reading add up to. */
  datatype Tai = Tai(of: seq<Meld> -> int)

  lemma AcceptedLists(hand: seq<int>, combs: seq<seq<Meld>>)
    requires Accepted(hand) && IsProduct(ComponentsOf(hand), combs)
    ensures combs != [] && forall k :: 0 <= k < |combs| ==> IsSplit(combs[k], multiset(hand), 1)
  {
    MakesIsSound(hand);
    var s :| IsSplit(s, multiset(hand), 1);
    var k := EveryWinListed(hand, combs, s);
    forall k | 0 <= k < |combs| ensures IsSplit(combs[k], multiset(hand), 1) {
      assert combs[k] in combs;
      var a, b, d :| Choice(ComponentsOf(hand), a, b, d) && combs[k] == Combine(ComponentsOf(hand), a, b, d);
      CombinationIsWin(hand, a, b, d);
    }
  }

  /** Every combination is scored, and the first of the highest score is picked. */
  method PickReading(combs: seq<seq<Meld>>, tai: Tai) returns (best: seq<Meld>)
    requires combs != []
    ensures best in combs && forall r :: r in combs ==> tai.of(r) <= tai.of(best)
  {
    var taiSum: seq<int> := [];
    var i := 0;
    while i < |combs|
      invariant i == |taiSum| <= |combs| && forall k :: 0 <= k < i ==> taiSum[k] == tai.of(combs[k])
    {
      taiSum := taiSum + [tai.of(combs[i])];
      i := i + 1;
    }
    var k := Settlement.PickBest(taiSum);
    best := combs[k];
    forall r | r in combs ensures tai.of(r) <= tai.of(best) {
      var j :| 0 <= j < |combs| && combs[j] == r;
      assert taiSum[j] <= taiSum[k];
    }
  }

  /** No division of the hand with one pair beats a reading that beats the whole list: some listed
      order of its melds scores no higher. */
  ghost predicate Beats(hand: seq<int>, combs: seq<seq<Meld>>, tai: Tai, best: seq<Meld>) {
    forall s :: IsSplit(s, multiset(hand), 1) ==>
      exists r :: r in combs && multiset(r) == multiset(s) && tai.of(r) <= tai.of(best)
  }

  lemma BestBeats(hand: seq<int>, combs: seq<seq<Meld>>, tai: Tai, best: seq<Meld>)
    requires AllSuitTiles(hand) && IsProduct(ComponentsOf(hand), combs)
    requires forall r :: r in combs ==> tai.of(r) <= tai.of(best)
    ensures Beats(hand, combs, tai, best)
  {
    forall s | IsSplit(s, multiset(hand), 1)
      ensures exists r :: r in combs && multiset(r) == multiset(s) && tai.of(r) <= tai.of(best)
    {
      var k := EveryWinListed(hand, combs, s);
      assert combs[k] in combs;
    }
  }

  lemma InList(hand: seq<int>, combs: seq<seq<Meld>>, best: seq<Meld>)
    requires forall k :: 0 <= k < |combs| ==> IsSplit(combs[k], multiset(hand), 1)
    requires best in combs
    ensures IsSplit(best, multiset(hand), 1)
  {
  }

  lemma HonoursListed(hand: seq<int>)
    requires Accepted(hand)
    ensures ComponentsOf(hand)[3] != [] && ComponentsOf(hand)[4] != []
  {
    FirstIsValid(hand, 3);
    FirstIsValid(hand, 4);
  }

  /** From the check to the reading that is paid for: after a yes it is a division of the hand with
      exactly one pair, and no such division beats it. `tai` stands for the sum of all tai. */
  method BestReading(w: WinCheck, hand: seq<int>, card: int, tai: Tai) returns (make: bool, best: seq<Meld>)
    requires |hand| <= 16 && AllSuitTiles(hand + [card])
    modifies w
    ensures make <==> Wins(hand + [card]) && NoCrowdedSuit(hand + [card])
    ensures make ==> IsSplit(best, multiset(hand + [card]), 1) && Beats(hand + [card], w.cardComb, tai, best)
  {
    best := [];
    make := w.CheckMake(hand, card);
    MakesExactly(hand + [card]);
    if make {
      HonoursListed(hand + [card]);
      w.FullCheck();
      AcceptedLists(hand + [card], w.cardComb);
      best := PickReading(w.cardComb, tai);
      InList(hand + [card], w.cardComb, best);
      BestBeats(hand + [card], w.cardComb, tai, best);
    }
  }
}
