/** Eating a discard: who may, which straights are offered, and how the choice travels. */
module Eating {
  import opened Tiles
  import opened Hands

  /** A straight of a numbered suit that starts at `start` and uses the discard `t`, with the
      other two tiles in the hand. */
  predicate Eats(hand: multiset<int>, t: int, start: int) {
    && 1 <= t <= 29 && start <= t <= start + 2 && 1 <= start % 10 <= 7
    && forall u :: start <= u <= start + 2 && u != t ==> u in hand
  }

  lemma EatsByCase(hand: multiset<int>, t: int, start: int)
    requires IsSuitTile(t) && t < 30
    ensures Eats(hand, t, start)
            <==> || (start == t - 2 && t % 10 >= 3 && t - 2 in hand && t - 1 in hand)
                 || (start == t - 1 && 2 <= t % 10 <= 8 && t - 1 in hand && t + 1 in hand)
                 || (start == t && t % 10 <= 7 && t + 1 in hand && t + 2 in hand)
  {
  }

  /** Whether a seat may eat: the next seat, when some straight is open to it. */
  method CheckEat(p: Pool, isNext: bool, t: int) returns (eat: bool)
    requires p.Valid()
    requires IsSuitTile(t) || IsFlower(t)
    ensures eat <==> isNext && exists start :: Eats(multiset(p.card[..p.num]), t, start)
  {
    eat := false;
    if !isNext { return; }
    if t < 1 || t > 29 { return; }
    var below2 := p.SearchCard(t - 2);
    var below1 := p.SearchCard(t - 1);
    var above1 := p.SearchCard(t + 1);
    var above2 := p.SearchCard(t + 2);
    var j := t % 10;
    if j == 1 {
      if above1 >= 0 && above2 >= 0 { eat := true; }
    } else if j == 2 {
      if below1 >= 0 && above1 >= 0 { eat := true; }
      if above1 >= 0 && above2 >= 0 { eat := true; }
    } else if 3 <= j <= 7 {
      if below2 >= 0 && below1 >= 0 { eat := true; }
      if below1 >= 0 && above1 >= 0 { eat := true; }
      if above1 >= 0 && above2 >= 0 { eat := true; }
    } else if j == 8 {
      if below2 >= 0 && below1 >= 0 { eat := true; }
      if below1 >= 0 && above1 >= 0 { eat := true; }
    } else if j == 9 {
      if below2 >= 0 && below1 >= 0 { eat := true; }
    }
    SomeEats(multiset(p.card[..p.num]), t);
  }

  lemma SomeEats(hand: multiset<int>, t: int)
    requires IsSuitTile(t) && t < 30
    ensures (exists start :: Eats(hand, t, start))
            <==> Eats(hand, t, t - 2) || Eats(hand, t, t - 1) || Eats(hand, t, t)
    ensures Eats(hand, t, t - 2) <==> t % 10 >= 3 && t - 2 in hand && t - 1 in hand
    ensures Eats(hand, t, t - 1) <==> 2 <= t % 10 <= 8 && t - 1 in hand && t + 1 in hand
    ensures Eats(hand, t, t) <==> t % 10 <= 7 && t + 1 in hand && t + 2 in hand
  {
    EatsByCase(hand, t, t - 2);
    EatsByCase(hand, t, t - 1);
    EatsByCase(hand, t, t);
  }

  /** The starts offered to the player, in ascending order: exactly the straights it can eat. */
  method EatChoices(p: Pool, t: int) returns (eatPool: seq<int>)
    requires p.Valid() && IsSuitTile(t) && t < 30
    ensures forall start :: start in eatPool <==> Eats(multiset(p.card[..p.num]), t, start)
    ensures forall i, j :: 0 <= i < j < |eatPool| ==> eatPool[i] < eatPool[j]
  {
    var low, middle, high := OpenStraights(p, t);
    eatPool := if low then [t - 2] else [];
    eatPool := if middle then eatPool + [t - 1] else eatPool;
    eatPool := if high then eatPool + [t] else eatPool;
    Offered(multiset(p.card[..p.num]), t, low, middle, high, eatPool);
  }

  /** The straights with the discard as last, middle and first tile. */
  method OpenStraights(p: Pool, t: int) returns (low: bool, middle: bool, high: bool)
    requires p.Valid() && IsSuitTile(t) && t < 30
    ensures var hand := multiset(p.card[..p.num]);
            (low <==> t % 10 >= 3 && t - 2 in hand && t - 1 in hand)
            && (middle <==> 2 <= t % 10 <= 8 && t - 1 in hand && t + 1 in hand)
            && (high <==> t % 10 <= 7 && t + 1 in hand && t + 2 in hand)
  {
    low, middle, high := false, false, false;
    if t % 10 >= 3 { low := BothHeld(p, t - 2, t - 1); }
    if t % 10 >= 2 && t % 10 <= 8 { middle := BothHeld(p, t - 1, t + 1); }
    if t % 10 <= 7 { high := BothHeld(p, t + 1, t + 2); }
  }

  method BothHeld(p: Pool, a: int, b: int) returns (both: bool)
    requires p.Valid() && a != 0 && b != 0
    ensures both <==> a in multiset(p.card[..p.num]) && b in multiset(p.card[..p.num])
  {
    var i := p.SearchCard(a);
    if i < 0 { return false; }
    var j := p.SearchCard(b);
    both := j >= 0;
  }

  lemma Offered(hand: multiset<int>, t: int, low: bool, middle: bool, high: bool, pool: seq<int>)
    requires IsSuitTile(t) && t < 30
    requires low <==> t % 10 >= 3 && t - 2 in hand && t - 1 in hand
    requires middle <==> 2 <= t % 10 <= 8 && t - 1 in hand && t + 1 in hand
    requires high <==> t % 10 <= 7 && t + 1 in hand && t + 2 in hand
    requires pool == var a := if low then [t - 2] else [];
                     var b := if middle then a + [t - 1] else a;
                     if high then b + [t] else b
    ensures forall start :: start in pool <==> Eats(hand, t, start)
    ensures forall i, j :: 0 <= i < j < |pool| ==> pool[i] < pool[j]
  {
    SomeEats(hand, t);
    OnlyTheseStarts(hand, t);
    assert forall start :: start in pool <==> (low && start == t - 2) || (middle && start == t - 1) || (high && start == t);
  }

  lemma OnlyTheseStarts(hand: multiset<int>, t: int)
    ensures forall start :: Eats(hand, t, start) ==> start in {t - 2, t - 1, t}
  {
  }

  // ----- The code sent to the host -----

  function EatCode(t: int, start: int): int {
    t - start + 7
  }

  /** The two tiles a code takes from the hand, in the order they are searched for. */
  function Wanted(code: int, t: int): (int, int)
    requires 7 <= code <= 9
  {
    if code == 7 then (t + 1, t + 2) else if code == 8 then (t - 1, t + 1) else (t - 1, t - 2)
  }

  /** The meld a code records, the discard in the middle. */
  function Recorded(code: int, t: int): seq<int>
    requires 7 <= code <= 9
  {
    if code == 7 then [t + 1, t, t + 2] else if code == 8 then [t - 1, t, t + 1] else [t - 2, t, t - 1]
  }

  /** The code decodes to the straight that was chosen: the tiles wanted are its other two, and the
      meld recorded is the whole straight. */
  lemma CodeIsStraight(hand: multiset<int>, t: int, start: int)
    requires Eats(hand, t, start)
    ensures var code := EatCode(t, start);
            7 <= code <= 9
            && {Wanted(code, t).0, Wanted(code, t).1, t} == {start, start + 1, start + 2}
            && Wanted(code, t).0 in hand && Wanted(code, t).1 in hand && Wanted(code, t).0 != Wanted(code, t).1
    ensures multiset(Recorded(EatCode(t, start), t)) == multiset{start, start + 1, start + 2}
  {
    RecordedTiles(start);
    if start == t {
      assert start + 1 in hand && start + 2 in hand;
    } else if start == t - 1 {
      assert start in hand && start + 2 in hand;
    } else {
      assert start in hand && start + 1 in hand;
    }
  }

  lemma RecordedTiles(start: int)
    ensures multiset(Recorded(7, start)) == multiset(Recorded(8, start + 1)) == multiset(Recorded(9, start + 2))
            == multiset{start, start + 1, start + 2}
  {
  }

  /** The meld is made of the discard and the two tiles taken. */
  lemma RecordedFromWanted(code: int, t: int)
    requires 7 <= code <= 9
    ensures multiset(Recorded(code, t)) == multiset{Wanted(code, t).0, Wanted(code, t).1} + multiset{t}
  {
  }

  /** Owner and host search for the two tiles of code 9 in opposite orders; the same tiles go. */
  method ClaimByCode(p: Pool, code: int, t: int, own: bool)
    requires p.Valid() && 7 <= code <= 9 && IsSuitTile(t)
    requires Wanted(code, t).0 in p.card[..p.num] && Wanted(code, t).1 in p.card[..p.num]
    requires Wanted(code, t).0 != 0 && Wanted(code, t).1 != 0
    modifies p, p.card
    ensures p.Valid() && p.num == old(p.num) - 3
    ensures p.outCard == old(p.outCard) + [OutCard(code, Recorded(code, t))]
    ensures old(p.Tiles(p.num)) == p.Tiles(p.num + 1) + multiset{Wanted(code, t).0, Wanted(code, t).1}
    ensures p.SortedHand() && (own ==> Sorted(p.card[..p.num + 1]))
  {
    var a, b := Wanted(code, t).0, Wanted(code, t).1;
    var shown := Recorded(code, t);
    if !own {
      a, b := shown[0], shown[2];
    }
    p.ClaimEat(a, b, code, shown, own);
  }
}
