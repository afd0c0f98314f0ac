/** The scores for triplets of winds and dragons. */
module Scoring {
  import opened Melds

  /** A meld shown on the table: eaten, ponged or konged. */
  datatype Shown = Eat(first: int) | Pong(tile: int) | Kang(tile: int)

  function ShownTiles(m: Shown): seq<int> {
    match m
    case Eat(x) => [x, x + 1, x + 2]
    case Pong(x) => [x, x, x]
    case Kang(x) => [x, x, x, x]
  }

  /** An eaten straight lies in a numbered suit. */
  predicate LegalShown(m: Shown) {
    m.Eat? ==> m.first + 2 < 30
  }

  function Copies(s: seq<int>, t: int): nat {
    if s == [] then 0 else (if s[0] == t then 1 else 0) + Copies(s[1..], t)
  }

  function ShownCopies(shown: seq<Shown>, t: int): nat {
    if shown == [] then 0 else Copies(ShownTiles(shown[0]), t) + ShownCopies(shown[1..], t)
  }

  /** What `exist_card` counts: copies in the hand and in the melds shown. */
  method ExistCard(hand: seq<int>, shown: seq<Shown>, card: int) returns (exist: nat)
    ensures exist == multiset(hand)[card] + ShownCopies(shown, card)
  {
    exist := 0;
    var i := 0;
    while i < |hand|
      invariant i <= |hand| && exist == multiset(hand[..i])[card]
    {
      assert hand[..i + 1] == hand[..i] + [hand[i]];
      if hand[i] == card { exist := exist + 1; }
      i := i + 1;
    }
    assert hand[..i] == hand;
    i := 0;
    while i < |shown|
      invariant i <= |shown|
      invariant exist + ShownCopies(shown[i..], card) == multiset(hand)[card] + ShownCopies(shown, card)
    {
      var tiles, j := ShownTiles(shown[i]), 0;
      ghost var before := exist;
      while j < |tiles|
        invariant j <= |tiles| && exist + Copies(tiles[j..], card) == before + Copies(tiles, card)
      {
        if tiles[j] == card { exist := exist + 1; }
        assert tiles[j..][1..] == tiles[j + 1..];
        j := j + 1;
      }
      assert shown[i..][1..] == shown[i + 1..];
      i := i + 1;
    }
  }

  // ----- Triplets held -----

  /** A triplet or kang of `t`, in the hand's division or shown. */
  ghost predicate HoldsTriplet(split: seq<Meld>, shown: seq<Shown>, t: int) {
    Meld(Three, t) in split || Pong(t) in shown || Kang(t) in shown
  }

  ghost predicate HoldsPair(split: seq<Meld>, t: int) {
    Meld(Pair, t) in split
  }

  ghost function Held(split: seq<Meld>, shown: seq<Shown>, t: int): nat {
    TilesOf(split)[t] + ShownCopies(shown, t)
  }

  lemma {:induction false} HonourInSplit(split: seq<Meld>, t: int)
    requires AllLegal(split) && t > 30
    ensures TilesOf(split)[t] == 3 * multiset(split)[Meld(Three, t)] + 2 * multiset(split)[Meld(Pair, t)]
  {
    if split != [] {
      HeadOfSplit(split);
      HonourInSplit(split[1..], t);
      HonourMeld(split[0], t);
    }
  }

  lemma HonourMeld(m: Meld, t: int)
    requires LegalMeld(m) && t > 30
    ensures multiset(MeldTiles(m))[t] == if m == Meld(Three, t) then 3 else if m == Meld(Pair, t) then 2 else 0
  {
  }

  lemma {:induction false} HonourShown(shown: seq<Shown>, t: int)
    requires forall k :: 0 <= k < |shown| && shown[k].Eat? ==> shown[k].first + 2 < t
    ensures ShownCopies(shown, t) >= 3 <==> Pong(t) in shown || Kang(t) in shown
    ensures ShownCopies(shown, t) == 0 || ShownCopies(shown, t) >= 3
  {
    if shown != [] {
      HonourShown(shown[1..], t);
      OneShown(shown[0], t);
    }
  }

  lemma OneShown(m: Shown, t: int)
    requires m.Eat? ==> m.first + 2 < t
    ensures Copies(ShownTiles(m), t) == if m == Pong(t) then 3 else if m == Kang(t) then 4 else 0
  {
    var s := ShownTiles(m);
    assert Copies(s, t) == (if s[0] == t then 1 else 0) + Copies(s[1..], t);
    assert Copies(s[1..], t) == (if s[1] == t then 1 else 0) + Copies(s[2..], t) by { assert s[1..][1..] == s[2..]; }
    assert Copies(s[2..], t) == (if s[2] == t then 1 else 0) + Copies(s[3..], t) by { assert s[2..][1..] == s[3..]; }
    if m.Kang? {
      assert s[3..] == [m.tile] && s[3..][1..] == [];
    } else {
      assert s[3..] == [];
    }
  }

  /** A winning hand: one pair in the division, and legal melds shown. */
  ghost predicate WinningHand(split: seq<Meld>, shown: seq<Shown>) {
    && AllLegal(split) && PairCount(split) == 1
    && forall k :: 0 <= k < |shown| ==> LegalShown(shown[k])
  }

  /** The counts compared by the scoring rules tell triplets and pairs apart. */
  lemma CountsTell(split: seq<Meld>, shown: seq<Shown>, t: int)
    requires WinningHand(split, shown) && t > 30
    ensures Held(split, shown, t) >= 3 <==> HoldsTriplet(split, shown, t)
    ensures Held(split, shown, t) >= 2 <==> HoldsTriplet(split, shown, t) || HoldsPair(split, t)
  {
    HonourInSplit(split, t);
    HonourShown(shown, t);
    PairsCounted(split, Meld(Pair, t));
  }

  /** There is only one pair. */
  lemma {:induction false} OnlyPair(split: seq<Meld>, a: int, b: int)
    requires PairCount(split) <= 1 && HoldsPair(split, a) && HoldsPair(split, b)
    ensures a == b
  {
    if split[0].kind == Pair {
      OnlyFirst(split, a);
      OnlyFirst(split, b);
    } else {
      OnlyPair(split[1..], a, b);
    }
  }

  lemma OnlyFirst(split: seq<Meld>, a: int)
    requires PairCount(split) <= 1 && HoldsPair(split, a) && split[0].kind == Pair
    ensures split[0] == Meld(Pair, a)
  {
    if split[0] != Meld(Pair, a) {
      PairsCounted(split[1..], Meld(Pair, a));
    }
  }

  // ----- Values -----

  function Bit(b: bool): nat {
    if b then 1 else 0
  }

  /** Big three dragons, small three dragons, or one point for each triplet. */
  function DragonValue(triplets: nat, pair: bool): nat {
    if triplets == 3 then 8 else if triplets == 2 && pair then 4 else triplets
  }

  /** Big four winds, small four winds, or one point for each triplet of the round wind or of the
      seat's own wind. */
  function WindValue(triplets: nat, pair: bool, points: nat): nat {
    if triplets == 4 then 16 else if triplets == 3 && pair then 8 else points
  }

  ghost function DragonTriplets(split: seq<Meld>, shown: seq<Shown>): nat {
    Bit(HoldsTriplet(split, shown, 41)) + Bit(HoldsTriplet(split, shown, 42)) + Bit(HoldsTriplet(split, shown, 43))
  }

  /** The pair is a dragon held in no triplet. */
  ghost predicate PairAmong(split: seq<Meld>, shown: seq<Shown>, lo: int, hi: int) {
    exists t :: lo <= t <= hi && HoldsPair(split, t) && !HoldsTriplet(split, shown, t)
  }

  ghost function WindTriplets(split: seq<Meld>, shown: seq<Shown>): nat {
    Bit(HoldsTriplet(split, shown, 31)) + Bit(HoldsTriplet(split, shown, 32))
    + Bit(HoldsTriplet(split, shown, 33)) + Bit(HoldsTriplet(split, shown, 34))
  }

  /** Points for one wind, `i` from 1 for east to 4 for north. */
  ghost function WindPoints(split: seq<Meld>, shown: seq<Shown>, roundWind: int, doorWind: int, i: int): nat {
    if HoldsTriplet(split, shown, 30 + i) then Bit(roundWind == i) + Bit(doorWind == i) else 0
  }

  ghost function AllWindPoints(split: seq<Meld>, shown: seq<Shown>, roundWind: int, doorWind: int): nat {
    WindPoints(split, shown, roundWind, doorWind, 1) + WindPoints(split, shown, roundWind, doorWind, 2)
    + WindPoints(split, shown, roundWind, doorWind, 3) + WindPoints(split, shown, roundWind, doorWind, 4)
  }

  /** The same by comparing counts, as the scoring rules do. */
  function DragonsByCount(a: nat, b: nat, c: nat): nat {
    if a >= 3 && b >= 3 && c >= 3 then 8
    else if a >= 2 && b >= 2 && c >= 2 then 4
    else Bit(a >= 3) + Bit(b >= 3) + Bit(c >= 3)
  }

  function WindsByCount(a: nat, b: nat, c: nat, d: nat, points: nat): nat {
    if a >= 3 && b >= 3 && c >= 3 && d >= 3 then 16
    else if a >= 2 && b >= 2 && c >= 2 && d >= 2 then 8
    else points
  }

  /** Exactly two copies of an honour are the pair, and only one honour can be that. */
  lemma PairByCount(split: seq<Meld>, shown: seq<Shown>, lo: int, hi: int)
    requires WinningHand(split, shown) && lo > 30
    ensures PairAmong(split, shown, lo, hi) <==> exists t :: lo <= t <= hi && Held(split, shown, t) == 2
    ensures forall t, u :: lo <= t < u <= hi ==> !(Held(split, shown, t) == 2 && Held(split, shown, u) == 2)
  {
    forall t | lo <= t <= hi
      ensures Held(split, shown, t) == 2 <==> HoldsPair(split, t) && !HoldsTriplet(split, shown, t)
    {
      CountsTell(split, shown, t);
    }
    forall t, u | lo <= t < u <= hi ensures !(Held(split, shown, t) == 2 && Held(split, shown, u) == 2) {
      if HoldsPair(split, t) && HoldsPair(split, u) { OnlyPair(split, t, u); }
    }
  }

  lemma ThreeCounts(a: nat, b: nat, c: nat, pair: bool)
    requires pair <==> a == 2 || b == 2 || c == 2
    requires !(a == 2 && b == 2) && !(a == 2 && c == 2) && !(b == 2 && c == 2)
    ensures DragonsByCount(a, b, c) == DragonValue(Bit(a >= 3) + Bit(b >= 3) + Bit(c >= 3), pair)
  {
  }

  lemma FourCounts(a: nat, b: nat, c: nat, d: nat, pair: bool, points: nat)
    requires pair <==> a == 2 || b == 2 || c == 2 || d == 2
    requires !(a == 2 && b == 2) && !(a == 2 && c == 2) && !(a == 2 && d == 2)
    requires !(b == 2 && c == 2) && !(b == 2 && d == 2) && !(c == 2 && d == 2)
    ensures WindsByCount(a, b, c, d, points)
            == WindValue(Bit(a >= 3) + Bit(b >= 3) + Bit(c >= 3) + Bit(d >= 3), pair, points)
  {
  }

  /** In a one-pair hand, at least two of each dragon means two triplets and the third as triplet or
      pair; so comparing counts gives the value of the triplets and the pair. */
  lemma DragonsByTriplets(split: seq<Meld>, shown: seq<Shown>)
    requires WinningHand(split, shown)
    ensures DragonsByCount(Held(split, shown, 41), Held(split, shown, 42), Held(split, shown, 43))
            == DragonValue(DragonTriplets(split, shown), PairAmong(split, shown, 41, 43))
  {
    CountsTell(split, shown, 41); CountsTell(split, shown, 42); CountsTell(split, shown, 43);
    PairByCount(split, shown, 41, 43);
    ThreeCounts(Held(split, shown, 41), Held(split, shown, 42), Held(split, shown, 43), PairAmong(split, shown, 41, 43));
  }

  lemma WindTripletsByCount(split: seq<Meld>, shown: seq<Shown>)
    requires WinningHand(split, shown)
    ensures WindTriplets(split, shown) == Bit(Held(split, shown, 31) >= 3) + Bit(Held(split, shown, 32) >= 3)
                                          + Bit(Held(split, shown, 33) >= 3) + Bit(Held(split, shown, 34) >= 3)
  {
    CountsTell(split, shown, 31); CountsTell(split, shown, 32);
    CountsTell(split, shown, 33); CountsTell(split, shown, 34);
  }

  lemma WindPairByCount(split: seq<Meld>, shown: seq<Shown>)
    requires WinningHand(split, shown)
    ensures var a, b := Held(split, shown, 31), Held(split, shown, 32);
            var c, d := Held(split, shown, 33), Held(split, shown, 34);
            && (PairAmong(split, shown, 31, 34) <==> a == 2 || b == 2 || c == 2 || d == 2)
            && !(a == 2 && b == 2) && !(a == 2 && c == 2) && !(a == 2 && d == 2)
            && !(b == 2 && c == 2) && !(b == 2 && d == 2) && !(c == 2 && d == 2)
  {
    PairByCount(split, shown, 31, 34);
    if PairAmong(split, shown, 31, 34) {
      var t :| 31 <= t <= 34 && Held(split, shown, t) == 2;
      assert t == 31 || t == 32 || t == 33 || t == 34;
    }
  }

  lemma WindsByTriplets(split: seq<Meld>, shown: seq<Shown>, points: nat)
    requires WinningHand(split, shown)
    ensures WindsByCount(Held(split, shown, 31), Held(split, shown, 32), Held(split, shown, 33), Held(split, shown, 34), points)
            == WindValue(WindTriplets(split, shown), PairAmong(split, shown, 31, 34), points)
  {
    WindTripletsByCount(split, shown);
    WindPairByCount(split, shown);
    FourCounts(Held(split, shown, 31), Held(split, shown, 32), Held(split, shown, 33), Held(split, shown, 34),
               PairAmong(split, shown, 31, 34), points);
  }

  function PointsByCount(held: nat, roundWind: int, doorWind: int, i: int): nat {
    if held >= 3 then Bit(roundWind == i) + Bit(doorWind == i) else 0
  }

  lemma WindPointsByCount(split: seq<Meld>, shown: seq<Shown>, roundWind: int, doorWind: int, i: int)
    requires WinningHand(split, shown) && 1 <= i <= 4
    ensures WindPoints(split, shown, roundWind, doorWind, i)
            == PointsByCount(Held(split, shown, 30 + i), roundWind, doorWind, i)
  {
    CountsTell(split, shown, 30 + i);
  }

  lemma AllPointsByCount(split: seq<Meld>, shown: seq<Shown>, roundWind: int, doorWind: int)
    requires WinningHand(split, shown)
    ensures AllWindPoints(split, shown, roundWind, doorWind)
            == PointsByCount(Held(split, shown, 31), roundWind, doorWind, 1)
               + PointsByCount(Held(split, shown, 32), roundWind, doorWind, 2)
               + PointsByCount(Held(split, shown, 33), roundWind, doorWind, 3)
               + PointsByCount(Held(split, shown, 34), roundWind, doorWind, 4)
  {
    WindPointsByCount(split, shown, roundWind, doorWind, 1);
    WindPointsByCount(split, shown, roundWind, doorWind, 2);
    WindPointsByCount(split, shown, roundWind, doorWind, 3);
    WindPointsByCount(split, shown, roundWind, doorWind, 4);
  }

  // ----- The score table of one reading -----

  function DragonSum(s: seq<int>): int
    requires |s| == 100
  {
    s[13] + s[14] + s[15] + s[37] + s[40]
  }

  const WIND_TAI := {9, 10, 11, 12, 17, 18, 19, 20, 41, 47}

  function WindSum(s: seq<int>): int
    requires |s| == 100
  {
    s[9] + s[10] + s[11] + s[12] + s[17] + s[18] + s[19] + s[20] + s[41] + s[47]
  }

  class Tally {
    const score: array<int>

    constructor ()
      ensures fresh(score) && score.Length == 100 && forall k :: 0 <= k < 100 ==> score[k] == 0
    {
      score := new int[100](_ => 0);
    }

    /** Tai 13 to 15, 37 and 40: dragon triplets, small and big three dragons. */
    method CheckDragons(hand: seq<int>, shown: seq<Shown>, ghost split: seq<Meld>)
      requires score.Length == 100 && score[13] == score[14] == score[15] == score[37] == score[40] == 0
      requires WinningHand(split, shown) && TilesOf(split) == multiset(hand)
      modifies score
      ensures DragonSum(score[..]) == DragonValue(DragonTriplets(split, shown), PairAmong(split, shown, 41, 43))
      ensures var red, white, green := Held(split, shown, 41), Held(split, shown, 42), Held(split, shown, 43);
              && score[13] == (if red >= 3 && (white < 2 || green < 2) then 1 else 0)
              && score[14] == (if white >= 3 && (red < 2 || green < 2) then 1 else 0)
              && score[15] == (if green >= 3 && (red < 2 || white < 2) then 1 else 0)
              && score[37] == (if red >= 2 && white >= 2 && green >= 2 && (red == 2 || white == 2 || green == 2) then 4 else 0)
              && score[40] == if red >= 3 && white >= 3 && green >= 3 then 8 else 0
      ensures forall k :: 0 <= k < 100 && k !in {13, 14, 15, 37, 40} ==> score[k] == old(score[k])
    {
      var red := ExistCard(hand, shown, 41);
      var white := ExistCard(hand, shown, 42);
      var green := ExistCard(hand, shown, 43);
      ScoreDragons(red, white, green);
      DragonsByTriplets(split, shown);
    }

    method ScoreDragons(red: nat, white: nat, green: nat)
      requires score.Length == 100 && score[13] == score[14] == score[15] == score[37] == score[40] == 0
      modifies score
      ensures DragonSum(score[..]) == DragonsByCount(red, white, green)
      ensures score[13] == (if red >= 3 && (white < 2 || green < 2) then 1 else 0)
      ensures score[14] == (if white >= 3 && (red < 2 || green < 2) then 1 else 0)
      ensures score[15] == (if green >= 3 && (red < 2 || white < 2) then 1 else 0)
      ensures score[37] == if red >= 2 && white >= 2 && green >= 2 && (red == 2 || white == 2 || green == 2) then 4 else 0
      ensures score[40] == if red >= 3 && white >= 3 && green >= 3 then 8 else 0
      ensures forall k :: 0 <= k < 100 && k !in {13, 14, 15, 37, 40} ==> score[k] == old(score[k])
    {
      if red >= 3 { score[13] := 1; }
      if white >= 3 { score[14] := 1; }
      if green >= 3 { score[15] := 1; }
      if red >= 2 && white >= 2 && green >= 2 {
        score[37] := 4;
        score[13], score[14], score[15] := 0, 0, 0;
      }
      if red >= 3 && white >= 3 && green >= 3 {
        score[40] := 8;
        score[13], score[14], score[15], score[37] := 0, 0, 0, 0;
      }
    }

    /** One of tai 9 to 12, or 17 to 20 when the wind is both the round's and the seat's. */
    method CheckWind(i: int, held: nat, roundWind: int, doorWind: int)
      requires score.Length == 100 && 1 <= i <= 4 && score[8 + i] == score[16 + i] == 0
      modifies score
      ensures score[8 + i] + score[16 + i] == PointsByCount(held, roundWind, doorWind, i)
      ensures score[8 + i] == if held >= 3 && (roundWind == i) != (doorWind == i) then 1 else 0
      ensures score[16 + i] == if held >= 3 && roundWind == i == doorWind then 2 else 0
      ensures forall k :: 0 <= k < 100 && k != 8 + i && k != 16 + i ==> score[k] == old(score[k])
    {
      if held >= 3 {
        if roundWind == i { score[8 + i] := score[8 + i] + 1; }
        if doorWind == i { score[8 + i] := score[8 + i] + 1; }
      }
      if score[8 + i] == 2 {
        score[16 + i] := 2;
        score[8 + i] := 0;
      }
    }

    method ClearWinds()
      requires score.Length == 100
      modifies score
      ensures forall k :: 0 <= k < 100 ==> score[k] == if 9 <= k <= 12 || 17 <= k <= 20 then 0 else old(score[k])
    {
      score[9], score[10], score[11], score[12] := 0, 0, 0, 0;
      score[17], score[18], score[19], score[20] := 0, 0, 0, 0;
    }

    /** Tai 9 to 12, 17 to 20, 41 and 47: wind triplets, small and big four winds. */
    method CheckWinds(hand: seq<int>, shown: seq<Shown>, roundWind: int, doorWind: int, ghost split: seq<Meld>)
      requires score.Length == 100 && forall k :: k in WIND_TAI ==> score[k] == 0
      requires WinningHand(split, shown) && TilesOf(split) == multiset(hand)
      modifies score
      ensures WindSum(score[..]) == WindValue(WindTriplets(split, shown), PairAmong(split, shown, 31, 34),
                                              AllWindPoints(split, shown, roundWind, doorWind))
      ensures var east, south := Held(split, shown, 31), Held(split, shown, 32);
              var west, north := Held(split, shown, 33), Held(split, shown, 34);
              var all := east >= 2 && south >= 2 && west >= 2 && north >= 2;
              var big := east >= 3 && south >= 3 && west >= 3 && north >= 3;
              && score[41] == (if all && !big then 8 else 0) && score[47] == (if big then 16 else 0)
              && score[9] == Bit(!all && east >= 3 && (roundWind == 1) != (doorWind == 1))
              && score[10] == Bit(!all && south >= 3 && (roundWind == 2) != (doorWind == 2))
              && score[11] == Bit(!all && west >= 3 && (roundWind == 3) != (doorWind == 3))
              && score[12] == Bit(!all && north >= 3 && (roundWind == 4) != (doorWind == 4))
              && score[17] == (if !all && east >= 3 && roundWind == doorWind == 1 then 2 else 0)
              && score[18] == (if !all && south >= 3 && roundWind == doorWind == 2 then 2 else 0)
              && score[19] == (if !all && west >= 3 && roundWind == doorWind == 3 then 2 else 0)
              && score[20] == if !all && north >= 3 && roundWind == doorWind == 4 then 2 else 0
      ensures forall k :: 0 <= k < 100 && k !in WIND_TAI ==> score[k] == old(score[k])
    {
      var east := ExistCard(hand, shown, 31);
      var south := ExistCard(hand, shown, 32);
      var west := ExistCard(hand, shown, 33);
      var north := ExistCard(hand, shown, 34);
      AllPointsByCount(split, shown, roundWind, doorWind);
      ScoreWinds(east, south, west, north, roundWind, doorWind, AllWindPoints(split, shown, roundWind, doorWind));
      WindsByTriplets(split, shown, AllWindPoints(split, shown, roundWind, doorWind));
    }

    method ScoreWinds(east: nat, south: nat, west: nat, north: nat, roundWind: int, doorWind: int, ghost points: nat)
      requires score.Length == 100 && forall k :: k in WIND_TAI ==> score[k] == 0
      requires points == PointsByCount(east, roundWind, doorWind, 1) + PointsByCount(south, roundWind, doorWind, 2)
                         + PointsByCount(west, roundWind, doorWind, 3) + PointsByCount(north, roundWind, doorWind, 4)
      modifies score
      ensures WindSum(score[..]) == WindsByCount(east, south, west, north, points)
      ensures var all := east >= 2 && south >= 2 && west >= 2 && north >= 2;
              var big := east >= 3 && south >= 3 && west >= 3 && north >= 3;
              && score[41] == (if all && !big then 8 else 0) && score[47] == (if big then 16 else 0)
              && score[9] == Bit(!all && east >= 3 && (roundWind == 1) != (doorWind == 1))
              && score[10] == Bit(!all && south >= 3 && (roundWind == 2) != (doorWind == 2))
              && score[11] == Bit(!all && west >= 3 && (roundWind == 3) != (doorWind == 3))
              && score[12] == Bit(!all && north >= 3 && (roundWind == 4) != (doorWind == 4))
              && score[17] == (if !all && east >= 3 && roundWind == doorWind == 1 then 2 else 0)
              && score[18] == (if !all && south >= 3 && roundWind == doorWind == 2 then 2 else 0)
              && score[19] == (if !all && west >= 3 && roundWind == doorWind == 3 then 2 else 0)
              && score[20] == if !all && north >= 3 && roundWind == doorWind == 4 then 2 else 0
      ensures forall k :: 0 <= k < 100 && k !in WIND_TAI ==> score[k] == old(score[k])
    {
      EachWind(east, south, west, north, roundWind, doorWind);
      FourWinds(east, south, west, north, points);
    }

    method EachWind(east: nat, south: nat, west: nat, north: nat, roundWind: int, doorWind: int)
      requires score.Length == 100 && forall k :: k in WIND_TAI ==> score[k] == 0
      modifies score
      ensures score[41] == score[47] == 0
      ensures score[9] == (if east >= 3 && (roundWind == 1) != (doorWind == 1) then 1 else 0)
      ensures score[10] == (if south >= 3 && (roundWind == 2) != (doorWind == 2) then 1 else 0)
      ensures score[11] == (if west >= 3 && (roundWind == 3) != (doorWind == 3) then 1 else 0)
      ensures score[12] == (if north >= 3 && (roundWind == 4) != (doorWind == 4) then 1 else 0)
      ensures score[17] == (if east >= 3 && roundWind == doorWind == 1 then 2 else 0)
      ensures score[18] == (if south >= 3 && roundWind == doorWind == 2 then 2 else 0)
      ensures score[19] == (if west >= 3 && roundWind == doorWind == 3 then 2 else 0)
      ensures score[20] == (if north >= 3 && roundWind == doorWind == 4 then 2 else 0)
      ensures WindSum(score[..]) == PointsByCount(east, roundWind, doorWind, 1) + PointsByCount(south, roundWind, doorWind, 2)
              + PointsByCount(west, roundWind, doorWind, 3) + PointsByCount(north, roundWind, doorWind, 4)
      ensures forall k :: 0 <= k < 100 && k !in WIND_TAI ==> score[k] == old(score[k])
    {
      CheckWind(1, east, roundWind, doorWind);
      CheckWind(2, south, roundWind, doorWind);
      CheckWind(3, west, roundWind, doorWind);
      CheckWind(4, north, roundWind, doorWind);
    }

    method FourWinds(east: nat, south: nat, west: nat, north: nat, ghost points: nat)
      requires score.Length == 100 && score[41] == score[47] == 0 && WindSum(score[..]) == points
      modifies score
      ensures WindSum(score[..]) == WindsByCount(east, south, west, north, points)
      ensures score[47] == if east >= 3 && south >= 3 && west >= 3 && north >= 3 then 16 else 0
      ensures var all := east >= 2 && south >= 2 && west >= 2 && north >= 2;
              && score[41] == (if all && (east == 2 || south == 2 || west == 2 || north == 2) then 8 else 0)
              && forall k :: 9 <= k <= 12 || 17 <= k <= 20 ==> score[k] == if all then 0 else old(score[k])
      ensures forall k :: 0 <= k < 100 && k !in WIND_TAI ==> score[k] == old(score[k])
    {
      if east >= 2 && south >= 2 && west >= 2 && north >= 2 {
        score[41] := 8;
        ClearWinds();
      }
      if east >= 3 && south >= 3 && west >= 3 && north >= 3 {
        score[47] := 16;
        ClearWinds();
        score[41] := 0;
      }
    }
  }
}
