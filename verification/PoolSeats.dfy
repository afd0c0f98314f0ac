/** The host's buffer of a seat does what the seat of the round does. */
module PoolSeats {
  import opened Tiles
  import opened Hands
  import opened Eating
  import opened OpeningHand
  import opened CheckMake
  import opened Seats
  import opened Round
  import opened Phases
  import Replica

  /** A sorted hand waiting for a tile. */
  ghost predicate Waits(p: Pool, s: Seat)
    reads p, p.card
  {
    p.Valid() && p.SortedHand() && s.hand == p.Tiles(p.num) && s.extra == NoTile && s.melds == p.outCard
  }

  /** A sorted hand with the drawn tile after it. */
  ghost predicate HoldsExtra(p: Pool, s: Seat)
    reads p, p.card
  {
    p.Valid() && p.SortedHand() && s.hand == p.Tiles(p.num) && s.extra == Drawn(p.card[p.num]) && s.melds == p.outCard
  }

  /** A hand after a pong or an eat: one of its tiles is to be thrown. */
  ghost predicate HasClaimed(p: Pool, s: Seat)
    reads p, p.card
  {
    p.Valid() && p.SortedHand() && s.hand == p.Tiles(p.num + 1) && s.extra == NoTile && s.melds == p.outCard
  }

  /** A hand with the drawn tile sorted in. */
  ghost predicate HoldsSorted(p: Pool, s: Seat)
    reads p, p.card
  {
    p.Valid() && Sorted(p.card[..p.num + 1]) && InHand(s) == p.Tiles(p.num + 1) && s.extra.SortedIn? && s.melds == p.outCard
  }

  lemma HandPlayable(hand: seq<int>, c: int)
    requires SuitTilesOnly(multiset(hand)) && Playable(c)
    ensures AllPlayable(hand + [c])
  {
  }

  method CheckWin(p: Pool, w: WinCheck, c: int) returns (make: bool)
    requires p.Valid() && SuitTilesOnly(p.Tiles(p.num)) && Playable(c)
    modifies w`component
    ensures make <==> MakesTiles(p.Tiles(p.num) + multiset{c})
  {
    HandPlayable(p.card[..p.num], c);
    make := w.CheckMake(p.card[..p.num], c);
    MakesWith(p.card[..p.num], c);
  }

  /** All that a seat may answer about a discard. */
  method CheckCard(p: Pool, w: WinCheck, c: int, isNext: bool, ghost s: Seat) returns (f: Flags)
    requires Waits(p, s) && SuitTilesOnly(s.hand) && IsSuitTile(c)
    modifies w`component
    ensures f == ClaimFlags(s, c, isNext)
  {
    var eat := CheckEat(p, isNext, c);
    var pong := p.CheckPong(c);
    var kang := p.CheckKang(c, false);
    var make := CheckWin(p, w, c);
    f := Flags(eat, pong, kang, make);
  }

  /** All that the owner may answer about the tile it drew. */
  method CheckDrawn(p: Pool, w: WinCheck, c: int, ghost s: Seat) returns (f: Flags)
    requires (Waits(p, s) || HoldsExtra(p, s)) && SuitTilesOnly(s.hand) && Playable(c)
    modifies w`component
    ensures f == DrawFlags(s, c)
  {
    var kang := p.CheckKang(c, true);
    var make := CheckWin(p, w, c);
    f := Flags(false, false, kang, make);
  }

  method TakeTile(p: Pool, c: int, ghost s: Seat)
    requires Waits(p, s)
    modifies p.card
    ensures HoldsExtra(p, s.(extra := Drawn(c)))
  {
    ghost var was := p.card[..];
    p.Draw(c);
    assert p.card[..p.num] == was[..p.num];
  }

  method ThrowAway(p: Pool, index: nat, ghost s: Seat) returns (t: int)
    requires (HoldsExtra(p, s) || HasClaimed(p, s) || HoldsSorted(p, s)) && index <= p.num
    modifies p.card
    ensures t in InHand(s) && t == old(p.card[index]) && Waits(p, Without(s, t))
  {
    ghost var was := p.card[..];
    HeldTiles(p, s);
    assert was[..p.num + 1][index] == was[index];
    t := p.Throw(index);
    assert InHand(s) - multiset{t} == p.Tiles(p.num);
  }

  lemma HeldTiles(p: Pool, s: Seat)
    requires HoldsExtra(p, s) || HasClaimed(p, s) || HoldsSorted(p, s)
    ensures InHand(s) == multiset(p.card[..][..p.num + 1])
  {
    AllInPlay(p.card[..], p.num);
    assert p.card[..][..p.num + 1] == p.card[..p.num + 1] && p.card[..][..p.num] == p.card[..p.num];
  }

  /** The host's copy of another seat's throw does what the round says of the seat exactly when the
      entry it overwrites holds the thrown tile. */
  method MirrorThrowAway(p: Pool, slot: nat, t: int, ghost s: Seat)
    requires (HoldsExtra(p, s) || HasClaimed(p, s)) && slot < 20 && t in InHand(s)
    modifies p.card
    ensures Waits(p, Without(s, t)) <==> Replica.Removed(old(Replica.HandOf(p)), slot) == t
  {
    ghost var m := Replica.HandOf(p);
    HandInPlay(p, s);
    p.MirrorThrow(slot);
    Replica.MirrorLoses(m, Replica.HandOf(p), slot);
    OneThrown(InHand(s), p.Tiles(p.num), t, Replica.Removed(m, slot));
  }

  lemma OneThrown(all: multiset<int>, rest: multiset<int>, t: int, r: int)
    requires t in all && all == rest + multiset{r}
    ensures all - multiset{t} == rest <==> r == t
  {
    assert all == (all - multiset{t}) + multiset{t};
    if r != t { Replica.DifferentSums(rest, t, r); }
  }

  lemma HandInPlay(p: Pool, s: Seat)
    requires HoldsExtra(p, s) || HasClaimed(p, s)
    ensures InHand(s) == Replica.InPlay(Replica.HandOf(p), true)
  {
    HeldTiles(p, s);
  }

  /** A flower is put down and the hand waits for the next tile. */
  method PutDownFlower(p: Pool, c: int, ghost s: Seat)
    requires HoldsExtra(p, s) && s.extra == Drawn(c) && IsFlower(c)
    modifies p.flower
    ensures Waits(p, Show(s, c)) && p.flower[..] == old(p.flower[..])[c - 51 := true]
  {
    p.ShowFlower(c);
  }

  lemma AllInPlay(card: seq<int>, num: nat)
    requires num < |card|
    ensures multiset(card[..num + 1]) == multiset(card[..num]) + multiset{card[num]}
  {
    assert card[..num + 1] == card[..num] + [card[num]];
  }

  /** At the opening the host sorts the dealt tile in with its hand. */
  method SortTileIn(p: Pool, ghost s: Seat)
    requires HoldsExtra(p, s)
    modifies p.card
    ensures HoldsSorted(p, s.(extra := SortedIn(s.extra.tile)))
  {
    AllInPlay(p.card[..], p.num);
    assert p.card[..][..p.num + 1] == p.card[..p.num + 1] && p.card[..][..p.num] == p.card[..p.num];
    p.SortHand(true);
  }

  /** A kang of that tile does to the buffer what the round says of the seat, right or wrong. */
  method KangSortedIn(p: Pool, c: int, ghost s: Seat)
    requires HoldsSorted(p, s) && 3 <= p.num && SuitTilesOnly(s.hand) && IsSuitTile(s.extra.tile)
    modifies p, p.card
    ensures Waits(p, OwnKang(s, c))
  {
    assert p.card[..][..p.num + 1] == p.card[..p.num + 1];
    LeftOfKang(p.card[..], p.num, c, s);
    p.ClaimOwnKang(c, 11);
  }

  lemma LeftOfKang(card: seq<int>, num: nat, c: int, s: Seat)
    requires |card| == 20 && 3 <= num <= 16 && Sorted(card[..num + 1]) && InHand(s) == multiset(card[..num + 1])
    requires s.extra.SortedIn? && SuitTilesOnly(s.hand) && IsSuitTile(s.extra.tile)
    ensures multiset(KangSweep(card, num, c, 0)[..num - 3]) == OwnKang(s, c).hand
  {
    SweptBuffer(card, num, c);
    InSuits(s);
    OrderOf(card[..num + 1]);
  }

  lemma InSuits(s: Seat)
    requires SuitTilesOnly(s.hand) && s.extra != NoTile && IsSuitTile(s.extra.tile)
    ensures forall y :: y in InHand(s) ==> 1 <= y <= 58
  {
  }

  /** The loop on the buffer leaves what it leaves of the tiles in play alone. */
  lemma SweptBuffer(card: seq<int>, num: nat, c: int)
    requires |card| == 20 && 3 <= num <= 16
    ensures KangSweep(card, num, c, 0)[..num - 3] == SweptTiles(card[..num + 1], c)
  {
    var b := card[..num + 1] + [0, 0];
    assert b[..num] == card[..num];
    SweepBelow(card, b, num, c, 0);
    assert KangSweep(card, num, c, 0)[..num - 3] == KangSweep(card, num, c, 0)[..num][..num - 3];
    assert KangSweep(b, num, c, 0)[..num - 3] == KangSweep(b, num, c, 0)[..num][..num - 3];
  }

  method PongDiscard(p: Pool, c: int, own: bool, ghost s: Seat)
    requires Waits(p, s) && s.hand[c] >= 2
    modifies p, p.card
    ensures HasClaimed(p, Claim(s, 2, c))
  {
    p.ClaimPong(c, own);
    Took(s.hand, p.Tiles(p.num + 1), TakenBy(2, c));
  }

  lemma Took(hand: multiset<int>, rest: multiset<int>, taken: multiset<int>)
    requires hand == rest + taken
    ensures rest == hand - taken
  {
  }

  /** A kang of a discard (3), or of three copies and the drawn tile (11). */
  method KangTile(p: Pool, c: int, code: int, own: bool, ghost s: Seat)
    requires code == 3 || code == 11
    requires if code == 3 then Waits(p, s) else HoldsExtra(p, s)
    requires s.hand[c] == 3
    modifies p, p.card
    ensures Waits(p, Claim(s, code, c))
  {
    p.ClaimKang(c, code, own);
    Took(s.hand, p.Tiles(p.num), TakenBy(code, c));
  }

  lemma EatReady(p: Pool, code: int, c: int)
    requires p.Valid() && 7 <= code <= 9 && Eats(p.Tiles(p.num), c, c + 7 - code)
    ensures Wanted(code, c).0 in p.card[..p.num] && Wanted(code, c).1 in p.card[..p.num]
    ensures Wanted(code, c).0 != 0 && Wanted(code, c).1 != 0
  {
    WantedHeld(p.Tiles(p.num), code, c);
  }

  method EatDiscard(p: Pool, c: int, code: int, own: bool, ghost s: Seat)
    requires Waits(p, s) && IsSuitTile(c) && 7 <= code <= 9 && Eats(s.hand, c, c + 7 - code)
    modifies p, p.card
    ensures HasClaimed(p, Claim(s, code, c))
  {
    EatReady(p, code, c);
    EatClaim(s, code, c);
    ClaimByCode(p, code, c, own);
    Took(s.hand, p.Tiles(p.num + 1), TakenBy(code, c));
  }

  lemma EatClaim(s: Seat, code: int, c: int)
    requires 7 <= code <= 9
    ensures var (a, b) := Wanted(code, c);
            Claim(s, code, c) == s.(hand := s.hand - multiset{a, b}, extra := NoTile,
                                    melds := s.melds + [OutCard(code, Recorded(code, c))])
    ensures TakenBy(code, c) == multiset{Wanted(code, c).0, Wanted(code, c).1}
  {
  }

  method AddToPong(p: Pool, c: int, ghost s: Seat)
    requires HoldsExtra(p, s) && FindPong(s.melds, c) < |s.melds|
    modifies p
    ensures Waits(p, JoinPong(s, c))
  {
    p.ClaimAddedKang(c);
  }
}
