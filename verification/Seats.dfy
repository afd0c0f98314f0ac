/** One seat as the host sees it, what it may claim, and what a claim does to it. */
module Seats {
  import opened Tiles
  import opened Winning
  import opened Hands
  import opened Eating
  import opened OpeningHand

  /** The tile drawn last: it stands after the sorted tiles, or has been sorted in with them. */
  datatype Extra = NoTile | Drawn(tile: int) | SortedIn(tile: int)

  /** The sorted tiles of a hand, the tile drawn beside them, the melds on the table and the flowers
      shown. Right after a pong or an eat the tile to be thrown is one of `hand`. */
  datatype Seat = Seat(hand: multiset<int>, extra: Extra, melds: seq<OutCard>, flowers: multiset<int>)

  function ExtraBag(e: Extra): multiset<int> {
    if e == NoTile then multiset{} else multiset{e.tile}
  }

  function InHand(s: Seat): multiset<int> {
    s.hand + ExtraBag(s.extra)
  }

  function MeldBag(melds: seq<OutCard>): multiset<int> {
    if melds == [] then multiset{}
    else MeldBag(melds[..|melds| - 1]) + multiset(melds[|melds| - 1].tiles)
  }

  /** Every tile in front of a seat. */
  function Bag(s: Seat): multiset<int> {
    InHand(s) + MeldBag(s.melds) + s.flowers
  }

  ghost predicate SuitTilesOnly(m: multiset<int>) {
    forall x :: x in m ==> IsSuitTile(x)
  }

  /** 2: a pong, 3, 11, 12: four of a kind, 7 to 9: a straight. */
  ghost predicate LegalOut(m: OutCard) {
    && m.tiles != [] && IsSuitTile(m.tiles[0])
    && match m.kind
       case 2 => m.tiles == Pong(m.tiles[0])
       case 3 => m.tiles == Four(m.tiles[0])
       case 11 => m.tiles == Four(m.tiles[0])
       case 12 => m.tiles == Four(m.tiles[0])
       case _ => 7 <= m.kind <= 9 && exists c :: IsEaten(m, c)
  }

  /** A straight of a numbered suit, shown with the eaten tile in the middle. */
  predicate IsEaten(m: OutCard, c: int)
    requires 7 <= m.kind <= 9
  {
    m.tiles == Recorded(m.kind, c) && 1 <= c <= 29 && 1 <= (c + 7 - m.kind) % 10 <= 7
  }

  function Pong(c: int): seq<int> {
    [c, c, c]
  }

  function Four(c: int): seq<int> {
    [c, c, c, c]
  }

  ghost predicate LegalMelds(melds: seq<OutCard>) {
    forall i :: 0 <= i < |melds| ==> LegalOut(melds[i])
  }

  // ----- What a seat may claim -----

  /** The answers open to a seat. The kang entry is 1 for three copies in the hand and 2 for a pong
      on the table that a drawn tile may join. */
  datatype Flags = Flags(eat: bool, pong: bool, kang: int, make: bool)

  const NONE := Flags(false, false, 0, false)

  predicate AnyFlag(f: Flags) {
    f.eat || f.pong || f.kang != 0 || f.make
  }

  /** What `check_make` answers for these tiles, in whatever order they lie. */
  ghost predicate MakesTiles(m: multiset<int>) {
    exists hand :: multiset(hand) == m && Makes(hand)
  }

  ghost function KangFlag(s: Seat, c: int, isOwner: bool): int {
    if s.hand[c] >= 3 then 1
    else if isOwner && FindPong(s.melds, c) < |s.melds| then 2
    else 0
  }

  /** The flags of a seat for a discard. */
  ghost function ClaimFlags(s: Seat, c: int, isNext: bool): Flags {
    Flags(isNext && exists start :: Eats(s.hand, c, start), s.hand[c] >= 2, KangFlag(s, c, false),
          MakesTiles(s.hand + multiset{c}))
  }

  /** The flags of a seat for the tile it has drawn. */
  ghost function DrawFlags(s: Seat, c: int): Flags {
    Flags(false, false, KangFlag(s, c, true), MakesTiles(s.hand + multiset{c}))
  }

  /** The answers that go with a set of flags: 0 pass, 2 pong, 3 kang, 4 win, 7 to 9 eat. */
  ghost predicate Allowed(s: Seat, c: int, f: Flags, answer: int) {
    || answer == 0
    || (answer == 2 && f.pong)
    || (answer == 3 && f.kang != 0)
    || (answer == 4 && f.make)
    || (7 <= answer <= 9 && f.eat && Eats(s.hand, c, c + 7 - answer))
  }

  // ----- What a claim does -----

  /** The tiles a claim takes out of the hand. */
  function TakenBy(code: int, c: int): multiset<int>
    requires code in {2, 3, 7, 8, 9, 11}
  {
    if code == 2 then multiset{c, c}
    else if code == 3 || code == 11 then multiset{c, c, c}
    else multiset{Wanted(code, c).0, Wanted(code, c).1}
  }

  function MeldOf(code: int, c: int): OutCard
    requires code in {2, 3, 7, 8, 9, 11}
  {
    OutCard(code, if code == 2 then Pong(c) else if code == 3 || code == 11 then Four(c) else Recorded(code, c))
  }

  /** A claim of a discard (2, 3, 7 to 9), or a concealed kang of the drawn tile (11). */
  function Claim(s: Seat, code: int, c: int): Seat
    requires code in {2, 3, 7, 8, 9, 11}
  {
    s.(hand := s.hand - TakenBy(code, c), extra := NoTile, melds := s.melds + [MeldOf(code, c)])
  }

  /** A concealed kang by the owner's loop. From a hand with the drawn tile sorted in the loop takes what
      it takes. */
  function OwnKang(s: Seat, c: int): Seat {
    if s.extra.SortedIn? then
      s.(hand := multiset(SweptTiles(SortedTiles(InHand(s)), c)), extra := NoTile, melds := s.melds + [MeldOf(11, c)])
    else
      Claim(s, 11, c)
  }

  /** When the loop takes exactly the four copies. */
  predicate TakesFour(s: Seat, c: int) {
    s.extra.SortedIn? ==> var tiles := SortedTiles(InHand(s)); |tiles| >= 6 && RightKang(tiles, |tiles| - 1, c)
  }

  /** The drawn tile joins the pong of it (12). */
  function JoinPong(s: Seat, c: int): Seat {
    var i := FindPong(s.melds, c);
    if i < |s.melds| then s.(extra := NoTile, melds := s.melds[i := OutCard(12, Four(c))]) else s
  }

  /** The tiles a pong or a kang takes from the hand and shows. */
  lemma CopiesClaimed(s: Seat, c: int)
    ensures Claim(s, 2, c) == Seat(s.hand - multiset{c, c}, NoTile, s.melds + [OutCard(2, [c, c, c])], s.flowers)
    ensures Claim(s, 3, c) == Seat(s.hand - multiset{c, c, c}, NoTile, s.melds + [OutCard(3, [c, c, c, c])], s.flowers)
    ensures Claim(s, 11, c) == Seat(s.hand - multiset{c, c, c}, NoTile, s.melds + [OutCard(11, [c, c, c, c])], s.flowers)
  {
  }

  /** An eaten straight is shown with the discard in the middle. */
  lemma StraightClaimed(s: Seat, code: int, c: int)
    requires 7 <= code <= 9
    ensures Claim(s, code, c).melds == s.melds + [if code == 7 then OutCard(7, [c + 1, c, c + 2])
                                                  else if code == 8 then OutCard(8, [c - 1, c, c + 1])
                                                  else OutCard(9, [c - 2, c, c - 1])]
    ensures code == 7 ==> Claim(s, code, c).hand == s.hand - multiset{c + 1, c + 2}
    ensures code == 8 ==> Claim(s, code, c).hand == s.hand - multiset{c - 1, c + 1}
    ensures code == 9 ==> Claim(s, code, c).hand == s.hand - multiset{c - 2, c - 1}
    ensures Claim(s, code, c).extra == NoTile && Claim(s, code, c).flowers == s.flowers
  {
    assert multiset{c - 1, c - 2} == multiset{c - 2, c - 1};
  }

  // ----- Tiles are neither made nor lost -----

  lemma MeldBagAppend(melds: seq<OutCard>, m: OutCard)
    ensures MeldBag(melds + [m]) == MeldBag(melds) + multiset(m.tiles)
  {
  }

  lemma {:induction false} MeldBagReplace(melds: seq<OutCard>, i: nat, m: OutCard)
    requires i < |melds|
    ensures MeldBag(melds[i := m]) + multiset(melds[i].tiles) == MeldBag(melds) + multiset(m.tiles)
  {
    var last := |melds| - 1;
    if i < last {
      var before := melds[..last];
      MeldBagReplace(before, i, m);
      assert melds[i := m][..last] == before[i := m];
      Swap(MeldBag(before[i := m]), multiset(melds[i].tiles), MeldBag(before), multiset(m.tiles), multiset(melds[last].tiles));
    } else {
      assert melds[i := m][..last] == melds[..last];
      Swap(MeldBag(melds[..last]), multiset{}, MeldBag(melds[..last]), multiset{}, multiset(m.tiles));
    }
  }

  lemma Swap(a: multiset<int>, x: multiset<int>, b: multiset<int>, y: multiset<int>, z: multiset<int>)
    requires a + x == b + y
    ensures (a + z) + x == (b + z) + y
  {
    forall t ensures ((a + z) + x)[t] == ((b + z) + y)[t] {
      assert (a + x)[t] == (b + y)[t];
    }
  }

  lemma {:induction false} MeldInBag(melds: seq<OutCard>, i: nat)
    requires i < |melds|
    ensures multiset(melds[i].tiles) <= MeldBag(melds)
  {
    var last := |melds| - 1;
    if i < last { MeldInBag(melds[..last], i); }
  }

  lemma LastMeldCount(melds: seq<OutCard>, c: int)
    requires melds != []
    ensures MeldBag(melds)[c] == MeldBag(melds[..|melds| - 1])[c] + multiset(melds[|melds| - 1].tiles)[c]
  {
  }

  /** Two melds hold their tiles side by side. */
  lemma {:induction false} TwoMelds(melds: seq<OutCard>, i: nat, j: nat, c: int)
    requires i < j < |melds|
    ensures multiset(melds[i].tiles)[c] + multiset(melds[j].tiles)[c] <= MeldBag(melds)[c]
  {
    var last := |melds| - 1;
    LastMeldCount(melds, c);
    if j < last {
      TwoMelds(melds[..last], i, j, c);
    } else {
      MeldInBag(melds[..last], i);
    }
  }

  lemma TakenThere(s: Seat, code: int, c: int)
    requires code in {2, 3, 11}
    requires IsSuitTile(c) && s.hand[c] >= if code == 2 then 2 else 3
    ensures TakenBy(code, c) <= s.hand && |TakenBy(code, c)| == if code == 2 then 2 else 3
    ensures multiset(MeldOf(code, c).tiles) == TakenBy(code, c) + multiset{c}
    ensures LegalOut(MeldOf(code, c))
  {
    if code == 2 { PairIn(s.hand, c); } else { TripleIn(s.hand, c); }
  }

  lemma PairIn(h: multiset<int>, c: int)
    requires h[c] >= 2
    ensures multiset{c, c} <= h && |multiset{c, c}| == 2 && multiset(Pong(c)) == multiset{c, c} + multiset{c}
  {
  }

  lemma TripleIn(h: multiset<int>, c: int)
    requires h[c] >= 3
    ensures multiset{c, c, c} <= h && |multiset{c, c, c}| == 3 && multiset(Four(c)) == multiset{c, c, c} + multiset{c}
  {
  }

  lemma WantedHeld(h: multiset<int>, code: int, c: int)
    requires 7 <= code <= 9 && Eats(h, c, c + 7 - code)
    ensures Wanted(code, c).0 in h && Wanted(code, c).1 in h && Wanted(code, c).0 != Wanted(code, c).1
  {
  }

  lemma EatenThere(s: Seat, code: int, c: int)
    requires 7 <= code <= 9 && Eats(s.hand, c, c + 7 - code)
    ensures TakenBy(code, c) <= s.hand && |TakenBy(code, c)| == 2
    ensures multiset(MeldOf(code, c).tiles) == TakenBy(code, c) + multiset{c}
    ensures LegalOut(MeldOf(code, c))
  {
    WantedHeld(s.hand, code, c);
    TwoDifferent(s.hand, Wanted(code, c).0, Wanted(code, c).1);
    RecordedFromWanted(code, c);
    EatenLegal(code, c);
  }

  lemma EatenLegal(code: int, c: int)
    requires 7 <= code <= 9 && 1 <= c <= 29 && 1 <= (c + 7 - code) % 10 <= 7
    ensures LegalOut(MeldOf(code, c))
  {
    SuitOfStraight(c + 7 - code);
    assert IsEaten(MeldOf(code, c), c);
  }

  lemma SuitOfStraight(start: int)
    requires -1 <= start <= 29 && 1 <= start % 10 <= 7
    ensures IsSuitTile(start) && IsSuitTile(start + 1)
  {
  }

  lemma TwoDifferent(h: multiset<int>, a: int, b: int)
    requires a != b && a in h && b in h
    ensures multiset{a, b} <= h && |multiset{a, b}| == 2
  {
  }

  /** A claim of a discard puts exactly that tile more in front of the seat; a concealed kang uses
      the drawn one. */
  lemma ClaimBag(s: Seat, code: int, c: int)
    requires code in {2, 3, 7, 8, 9, 11} && TakenBy(code, c) <= s.hand
    requires multiset(MeldOf(code, c).tiles) == TakenBy(code, c) + multiset{c}
    ensures Bag(Claim(s, code, c)) + ExtraBag(s.extra) == Bag(s) + multiset{c}
    ensures |Claim(s, code, c).hand| == |s.hand| - |TakenBy(code, c)|
  {
    MeldBagAppend(s.melds, MeldOf(code, c));
    ClaimSum(s.hand, s.hand - TakenBy(code, c), TakenBy(code, c), MeldBag(s.melds), s.flowers, ExtraBag(s.extra), c);
  }

  lemma ClaimSum(hand: multiset<int>, rest: multiset<int>, taken: multiset<int>, melds: multiset<int>,
                 flowers: multiset<int>, extra: multiset<int>, c: int)
    requires taken <= hand && rest == hand - taken
    ensures (rest + multiset{}) + (melds + (taken + multiset{c})) + flowers + extra
            == (hand + extra) + melds + flowers + multiset{c}
    ensures |rest| == |hand| - |taken|
  {
  }

  lemma DrawnKangBag(s: Seat, c: int)
    requires s.extra == Drawn(c) && s.hand[c] == 3
    ensures Bag(OwnKang(s, c)) == Bag(s) && |OwnKang(s, c).hand| == |s.hand| - 3
  {
    TripleIn(s.hand, c);
    ClaimBag(s, 11, c);
    Cancel(Bag(Claim(s, 11, c)), Bag(s), multiset{c});
  }

  /** A concealed kang of a tile that is sorted in, with three copies beside it. */
  ghost predicate SortedFour(s: Seat, c: int) {
    SuitTilesOnly(s.hand) && IsSuitTile(c) && s.extra == SortedIn(c) && s.hand[c] == 3 && |s.hand| >= 5
  }

  lemma OneMoreTile(h: multiset<int>, c: int)
    requires SuitTilesOnly(h) && IsSuitTile(c) && h[c] == 3
    ensures (forall y :: y in h + multiset{c} ==> 1 <= y <= 58) && |h + multiset{c}| == |h| + 1 && (h + multiset{c})[c] == 4
  {
  }

  lemma TilesInOrder(s: Seat, c: int)
    requires SortedFour(s, c)
    ensures var tiles := SortedTiles(InHand(s));
            Sorted(tiles) && multiset(tiles) == s.hand + multiset{c} && |tiles| == |s.hand| + 1 && multiset(tiles)[c] == 4
  {
    OneMoreTile(s.hand, c);
    InOrder(s.hand + multiset{c});
    assert InHand(s) == s.hand + multiset{c};
  }

  lemma SweptBag(tiles: seq<int>, c: int)
    requires Sorted(tiles) && |tiles| >= 6 && multiset(tiles)[c] == 4
    ensures |multiset(SweptTiles(tiles, c))| == |tiles| - 4
    ensures multiset(tiles) == multiset(SweptTiles(tiles, c)) + multiset{c, c, c, c} <==> RightKang(tiles, |tiles| - 1, c)
  {
    SweptExactly(tiles, c);
  }

  lemma SweptIs(s: Seat, c: int, tiles: seq<int>)
    requires s.extra == SortedIn(c) && tiles == SortedTiles(InHand(s)) && |tiles| >= 6
    ensures OwnKang(s, c).hand == multiset(SweptTiles(tiles, c))
    ensures TakesFour(s, c) <==> RightKang(tiles, |tiles| - 1, c)
  {
  }

  lemma SweptHand(s: Seat, c: int)
    requires SortedFour(s, c)
    ensures |OwnKang(s, c).hand| == |s.hand| - 3
    ensures s.hand + multiset{c} == OwnKang(s, c).hand + multiset{c, c, c, c} <==> TakesFour(s, c)
  {
    var tiles := SortedTiles(InHand(s));
    TilesInOrder(s, c);
    SweptBag(tiles, c);
    SweptIs(s, c, tiles);
  }

  lemma SortedKangBag(s: Seat, c: int)
    requires SortedFour(s, c)
    ensures |OwnKang(s, c).hand| == |s.hand| - 3
    ensures Bag(OwnKang(s, c)) == Bag(s) <==> TakesFour(s, c)
    ensures TakesFour(s, c) ==> OwnKang(s, c).hand <= s.hand
  {
    var left := OwnKang(s, c).hand;
    SweptHand(s, c);
    if TakesFour(s, c) { FourOut(left, s.hand, c); }
    SortedKangParts(s, c, left);
    KangSum(left, s.hand, MeldBag(s.melds), s.flowers, c);
  }

  lemma SortedKangParts(s: Seat, c: int, left: multiset<int>)
    requires s.extra == SortedIn(c) && left == OwnKang(s, c).hand
    ensures Bag(OwnKang(s, c)) == (left + multiset{}) + (MeldBag(s.melds) + multiset(Four(c))) + s.flowers
    ensures Bag(s) == (s.hand + multiset{c}) + MeldBag(s.melds) + s.flowers
  {
    MeldBagAppend(s.melds, MeldOf(11, c));
  }

  lemma KangSum(left: multiset<int>, hand: multiset<int>, melds: multiset<int>, flowers: multiset<int>, c: int)
    ensures (left + multiset{}) + (melds + multiset(Four(c))) + flowers == (hand + multiset{c}) + melds + flowers
            <==> hand + multiset{c} == left + multiset{c, c, c, c}
  {
    FourTiles(c);
    var rest := melds + flowers;
    assert (left + multiset{}) + (melds + multiset(Four(c))) + flowers == (left + multiset{c, c, c, c}) + rest;
    assert (hand + multiset{c}) + melds + flowers == (hand + multiset{c}) + rest;
    AddedTo(left + multiset{c, c, c, c}, hand + multiset{c}, rest);
  }

  lemma FourTiles(c: int)
    ensures multiset(Four(c)) == multiset{c, c, c, c}
  {
  }

  lemma FourOut(left: multiset<int>, hand: multiset<int>, c: int)
    requires hand + multiset{c} == left + multiset{c, c, c, c}
    ensures left <= hand
  {
    forall x ensures left[x] <= hand[x] { assert (hand + multiset{c})[x] == (left + multiset{c, c, c, c})[x]; }
  }

  lemma JoinBag(s: Seat, c: int)
    requires LegalMelds(s.melds) && FindPong(s.melds, c) < |s.melds| && s.extra == Drawn(c)
    ensures Bag(JoinPong(s, c)) == Bag(s)
  {
    var i := FindPong(s.melds, c);
    MeldBagReplace(s.melds, i, OutCard(12, Four(c)));
    JoinSum(MeldBag(s.melds[i := OutCard(12, Four(c))]), MeldBag(s.melds), c);
    AddExtra(s.hand, MeldBag(s.melds), s.flowers, c);
  }

  lemma JoinSum(joined: multiset<int>, melds: multiset<int>, c: int)
    requires joined + multiset(Pong(c)) == melds + multiset(Four(c))
    ensures joined == melds + multiset{c}
  {
    assert Four(c) == Pong(c) + [c];
    forall x ensures joined[x] == (melds + multiset{c})[x] {
      assert (joined + multiset(Pong(c)))[x] == (melds + multiset(Four(c)))[x];
    }
  }

  lemma AddExtra(hand: multiset<int>, melds: multiset<int>, flowers: multiset<int>, c: int)
    ensures (hand + multiset{}) + (melds + multiset{c}) + flowers == (hand + multiset{c}) + melds + flowers
  {
  }

  lemma {:induction false} MeldBagSize(melds: seq<OutCard>)
    requires LegalMelds(melds)
    ensures |MeldBag(melds)| >= 3 * |melds|
  {
    if melds != [] {
      MeldBagSize(melds[..|melds| - 1]);
      LegalOutSize(melds[|melds| - 1]);
    }
  }

  lemma LegalOutSize(m: OutCard)
    requires LegalOut(m)
    ensures |multiset(m.tiles)| >= 3
  {
  }
}
