/** What comes of the answers: a claim, a win, or the next seat's turn. */
module RoundClaims {
  import opened Tiles
  import opened Hands
  import opened Eating
  import opened Seats
  import opened Arbitration
  import opened Table
  import opened Round
  import opened Phases
  import opened RoundSafety

  ghost predicate Claimable(s: Seat, code: int, c: int) {
    && IsSuitTile(c)
    && match code
       case 2 => s.hand[c] >= 2
       case 3 => s.hand[c] >= 3
       case 11 => s.hand[c] >= 3
       case _ => 7 <= code <= 9 && Eats(s.hand, c, c + 7 - code)
  }

  lemma ClaimMeld(s: Seat, code: int, c: int)
    requires Claimable(s, code, c)
    ensures TakenBy(code, c) <= s.hand && |TakenBy(code, c)| == if code == 3 || code == 11 then 3 else 2
    ensures multiset(MeldOf(code, c).tiles) == TakenBy(code, c) + multiset{c}
    ensures LegalOut(MeldOf(code, c))
  {
    if 7 <= code <= 9 { EatenThere(s, code, c); } else { TakenThere(s, code, c); }
  }

  lemma ClaimOk(s: Seat, code: int, c: int)
    requires SeatOk(s) && Claimable(s, code, c)
    ensures SeatOk(Claim(s, code, c))
  {
    ClaimMeld(s, code, c);
    AppendLegal(s.melds, MeldOf(code, c));
  }

  lemma AppendLegal(melds: seq<OutCard>, m: OutCard)
    requires LegalMelds(melds) && LegalOut(m)
    ensures LegalMelds(melds + [m])
  {
  }

  lemma ClaimKeepsSeat(s: Seat, code: int, c: int)
    requires SeatOk(s) && Claimable(s, code, c)
    ensures SeatOk(Claim(s, code, c)) && Claim(s, code, c).extra == NoTile
    ensures Bag(Claim(s, code, c)) + ExtraBag(s.extra) == Bag(s) + multiset{c}
    ensures Size(Claim(s, code, c)) == |s.hand| + 3 * |s.melds| + if code == 3 || code == 11 then 0 else 1
  {
    ClaimOk(s, code, c);
    ClaimMeld(s, code, c);
    ClaimBag(s, code, c);
    ClaimSize(s, code, c);
  }

  lemma ClaimSize(s: Seat, code: int, c: int)
    requires code in {2, 3, 7, 8, 9, 11}
    requires |Claim(s, code, c).hand| == |s.hand| - if code == 3 || code == 11 then 3 else 2
    ensures Size(Claim(s, code, c)) == |s.hand| + 3 * |s.melds| + if code == 3 || code == 11 then 0 else 1
  {
  }

  lemma RestAfterPop(t: State, u: State, c: int, a: multiset<int>, b: multiset<int>)
    requires t.point <= |t.wall| && u.wall == t.wall && u.point == t.point && u.burned == t.burned
    requires t.discards != [] && t.discards[|t.discards| - 1] == c && u.discards == Popped(t.discards)
    requires a == b + multiset{c}
    ensures a + RestBag(u) == b + RestBag(t)
  {
    PopStep(t.discards);
  }

  lemma ClaimOfDiscard(s: Seat, code: int, c: int)
    requires Claimable(s, code, c) && s.extra == NoTile
    ensures Bag(Claim(s, code, c)) == Bag(s) + multiset{c}
  {
    ClaimMeld(s, code, c);
    ClaimBag(s, code, c);
    assert Bag(Claim(s, code, c)) + multiset{} == Bag(Claim(s, code, c));
  }

  lemma TakenDiscard(t: State, k: nat, code: int)
    requires Shape(t) && IsSeat(k) && code in {2, 3, 7, 8, 9}
    ensures var u := TakeDiscard(t, k, code);
            u.seats == t.seats[k := Claim(t.seats[k], code, t.current)] && u.seats[k] == Claim(t.seats[k], code, t.current)
            && u.discards == Popped(t.discards) && u.burned == t.burned && u.turn == k
            && u.mode == t.mode[k := if code == 3 then Get else Throw]
  {
  }

  lemma TakeDiscardConserves(t: State, deck: multiset<int>, k: nat, code: int)
    requires Conserves(t, deck) && IsSeat(k) && code in {2, 3, 7, 8, 9}
    requires t.discards != [] && t.discards[|t.discards| - 1] == t.current
    requires t.seats[k].extra == NoTile && Claimable(t.seats[k], code, t.current)
    ensures Conserves(TakeDiscard(t, k, code), deck)
  {
    var s, c := t.seats[k], t.current;
    TakenDiscard(t, k, code);
    assert SeatOk(s);
    ClaimOk(s, code, c);
    ClaimOfDiscard(s, code, c);
    RestAfterPop(t, TakeDiscard(t, k, code), c, Bag(Claim(s, code, c)), Bag(s));
    SeatConserves(t, TakeDiscard(t, k, code), deck, k);
  }

  /** All seats wait with sixteen tiles: what a discard is claimed from. */
  ghost predicate AllWait(t: State)
    requires Shape(t)
  {
    OnlyMode(t, 0, Wait) && Sizes(t, 0) && NoExtra(t, 0)
  }

  lemma ModeAfter(t: State, u: State, k: nat, before: nat, m: Mode)
    requires Shape(t) && Shape(u) && IsSeat(k) && (exists old1 :: OnlyMode(t, before, old1)) && (before == 0 || before == k)
    requires u.mode == t.mode[k := m]
    ensures OnlyMode(u, k, m)
  {
  }

  lemma TakeDiscardPhase(t: State, k: nat, code: int)
    requires Shape(t) && AllWait(t) && IsSeat(k) && code in {2, 3, 7, 8, 9}
    requires SeatOk(t.seats[k]) && Claimable(t.seats[k], code, t.current)
    ensures TakeDiscard(t, k, code).seats[k].extra == NoTile
    ensures OnlyMode(TakeDiscard(t, k, code), k, if code == 3 then Get else Throw)
    ensures var h := if code == 3 then 0 else k; Sizes(TakeDiscard(t, k, code), h) && NoExtra(TakeDiscard(t, k, code), h)
  {
    var u := TakeDiscard(t, k, code);
    ClaimKeepsSeat(t.seats[k], code, t.current);
    WaitSize(t, k);
    SeatsAfter(t, u, k, 0, if code == 3 then 0 else k);
    ModeAfter(t, u, k, 0, if code == 3 then Get else Throw);
  }

  lemma WaitSize(t: State, k: nat)
    requires Shape(t) && AllWait(t) && IsSeat(k)
    ensures |t.seats[k].hand| + 3 * |t.seats[k].melds| == 16
  {
  }

  // ----- Kangs of a drawn tile -----

  lemma ConcealedKang(t: State, k: nat)
    requires Shape(t) && IsSeat(k) && t.turn == k && t.current in t.seats[k].hand
    ensures var u := TakeKang(t, k);
            u.seats == t.seats[k := OwnKang(t.seats[k], t.current)] && u.seats[k] == OwnKang(t.seats[k], t.current)
            && RestBag(u) == RestBag(t) && u.mode == t.mode[k := Get] && u.turn == k
  {
  }

  lemma KangLegal(s: Seat, c: int)
    requires SeatOk(s) && IsSuitTile(c) && OwnKang(s, c).hand <= s.hand
    ensures SeatOk(OwnKang(s, c))
  {
    AppendLegal(s.melds, MeldOf(11, c));
  }

  /** The seat that declares a concealed kang of the tile it drew, with three copies beside it. */
  ghost predicate HoldsFour(s: Seat, c: int) {
    SeatOk(s) && HasDrawn(s, c) && s.hand[c] == 3 && (s.extra.SortedIn? ==> |s.hand| >= 5)
  }

  lemma OwnKangBag(s: Seat, c: int)
    requires HoldsFour(s, c)
    ensures Bag(OwnKang(s, c)) == Bag(s) <==> TakesFour(s, c)
    ensures TakesFour(s, c) ==> SeatOk(OwnKang(s, c))
    ensures OwnKang(s, c).extra == NoTile && |OwnKang(s, c).hand| == |s.hand| - 3
    ensures Size(OwnKang(s, c)) == |s.hand| + 3 * |s.melds|
  {
    if s.extra.SortedIn? {
      SortedKangBag(s, c);
    } else {
      DrawnKangBag(s, c);
    }
    if TakesFour(s, c) { KangLegal(s, c); }
  }

  /** A concealed kang keeps the tiles exactly when the owner's loop takes the four copies. */
  lemma ConcealedConserves(t: State, deck: multiset<int>, k: nat)
    requires Conserves(t, deck) && IsSeat(k) && t.turn == k && HoldsFour(t.seats[k], t.current)
    ensures Conserves(TakeKang(t, k), deck) <==> TakesFour(t.seats[k], t.current)
  {
    ConcealedKang(t, k);
    OwnKangBag(t.seats[k], t.current);
    if TakesFour(t.seats[k], t.current) {
      SameSeatConserves(t, TakeKang(t, k), deck, k);
    } else if Conserves(TakeKang(t, k), deck) {
      OtherSeatLoses(t, TakeKang(t, k), k);
    }
  }

  lemma BagsDiffer(after: multiset<int>, before: multiset<int>, new1: multiset<int>, old1: multiset<int>, rest: multiset<int>)
    requires after + old1 == before + new1 && new1 != old1
    ensures after + rest != before + rest
  {
    if after + rest == before + rest {
      Cancel(after, before, rest);
      assert new1 + before == before + new1 && old1 + before == after + old1;
      Cancel(new1, old1, before);
    }
  }

  /** When one seat's tiles alone change, the table does not hold the same tiles. */
  lemma OtherSeatLoses(t: State, u: State, k: nat)
    requires Shape(t) && Shape(u) && IsSeat(k) && u.seats == t.seats[k := u.seats[k]] && RestBag(u) == RestBag(t)
    requires Bag(u.seats[k]) != Bag(t.seats[k])
    ensures Total(u) != Total(t)
  {
    SeatsBagUpdate(t.seats, k, u.seats[k]);
    BagsDiffer(SeatsBag(u.seats), SeatsBag(t.seats), Bag(u.seats[k]), Bag(t.seats[k]), RestBag(t));
  }

  lemma HeldKangPhase(t: State, u: State, k: nat)
    requires Shape(t) && Shape(u) && IsSeat(k) && OnlyMode(t, k, Throw) && Sizes(t, k) && NoExtra(t, k)
    requires Size(u.seats[k]) == 16 && u.seats[k].extra == NoTile
    requires u.seats == t.seats[k := u.seats[k]] && u.mode == t.mode[k := Get]
    ensures OnlyMode(u, k, Get) && Sizes(u, 0) && NoExtra(u, 0)
  {
    SeatsAfter(t, u, k, k, 0);
  }

  /** Beside the drawn tile there are at most three copies in the hand. */
  lemma ThreeBeside(t: State, deck: multiset<int>, k: nat)
    requires Conserves(t, deck) && IsSeat(k) && t.seats[k].extra != NoTile && t.seats[k].extra.tile == t.current
    ensures t.seats[k].hand[t.current] <= 3
  {
    InBag(t.seats[k], t.current);
    FourCopies(t, deck, k, k, t.current);
  }

  /** A pong of the drawn tile leaves no copy in the hand. */
  lemma NoneLeft(t: State, deck: multiset<int>, k: nat)
    requires Conserves(t, deck) && IsSeat(k) && t.seats[k].extra == Drawn(t.current)
    requires FindPong(t.seats[k].melds, t.current) < |t.seats[k].melds|
    ensures t.current !in t.seats[k].hand
    ensures MeldBag(t.seats[k].melds)[t.current] == 3
  {
    var s, c := t.seats[k], t.current;
    var i := FindPong(s.melds, c);
    assert SeatOk(s);
    MeldInBag(s.melds, i);
    PongCount(s.melds[i], c);
    FourCopies(t, deck, k, k, c);
    InBag(s, c);
  }

  lemma PongCount(m: OutCard, c: int)
    requires LegalOut(m) && IsPongOf(m, c)
    ensures multiset(m.tiles)[c] == 3
  {
  }

  lemma InBag(s: Seat, c: int)
    requires s.extra != NoTile && s.extra.tile == c
    ensures Bag(s)[c] >= s.hand[c] + 1 + MeldBag(s.melds)[c]
  {
  }

  lemma JoinKeepsSeat(s: Seat, c: int)
    requires SeatOk(s) && IsSuitTile(c) && s.extra == Drawn(c) && FindPong(s.melds, c) < |s.melds|
    ensures SeatOk(JoinPong(s, c)) && JoinPong(s, c).extra == NoTile
    ensures Bag(JoinPong(s, c)) == Bag(s) && Size(JoinPong(s, c)) == Size(s) - 1
  {
    JoinBag(s, c);
    ReplaceLegal(s.melds, FindPong(s.melds, c), c);
  }

  lemma ReplaceLegal(melds: seq<OutCard>, i: nat, c: int)
    requires LegalMelds(melds) && i < |melds| && IsSuitTile(c)
    ensures LegalMelds(melds[i := OutCard(12, Four(c))])
  {
    assert LegalOut(OutCard(12, Four(c)));
  }

  lemma AddedKang(t: State, k: nat)
    requires Shape(t) && IsSeat(k) && t.current !in t.seats[k].hand
    ensures var u := TakeKang(t, k);
            u.seats == t.seats[k := JoinPong(t.seats[k], t.current)] && u.seats[k] == JoinPong(t.seats[k], t.current)
            && RestBag(u) == RestBag(t) && u.mode == t.mode[k := Get] && u.turn == k && u.owner == k
  {
  }

  lemma AddedConserves(t: State, deck: multiset<int>, k: nat)
    requires Conserves(t, deck) && IsSeat(k) && IsSuitTile(t.current) && t.seats[k].extra == Drawn(t.current)
    requires FindPong(t.seats[k].melds, t.current) < |t.seats[k].melds|
    ensures Conserves(TakeKang(t, k), deck)
  {
    NoneLeft(t, deck, k);
    AddedKang(t, k);
    assert SeatOk(t.seats[k]);
    JoinKeepsSeat(t.seats[k], t.current);
    SameSeatConserves(t, TakeKang(t, k), deck, k);
  }

  lemma SameSeatConserves(t: State, u: State, deck: multiset<int>, k: nat)
    requires Conserves(t, deck) && SameWall(t, u) && IsSeat(k)
    requires u.seats == t.seats[k := u.seats[k]] && SeatOk(u.seats[k])
    requires Bag(u.seats[k]) == Bag(t.seats[k]) && RestBag(u) == RestBag(t)
    ensures Conserves(u, deck)
  {
    SeatConserves(t, u, deck, k);
  }

  lemma OnlyPongShows(melds: seq<OutCard>, i: nat, c: int)
    requires LegalMelds(melds) && i < |melds| && IsPongOf(melds[i], c) && MeldBag(melds)[c] == 3
    ensures Shows(melds[i], c) && forall j :: 0 <= j < |melds| && j != i ==> !Shows(melds[j], c)
  {
    assert LegalOut(melds[i]);
    PongCount(melds[i], c);
    forall j | 0 <= j < |melds| && j != i ensures !Shows(melds[j], c) {
      if Shows(melds[j], c) {
        assert c in melds[j].tiles;
        if j < i { TwoMelds(melds, j, i, c); } else { TwoMelds(melds, i, j, c); }
      }
    }
  }

  /** No other meld can show the tile, so the owner, who looks at every meld, finds the same pong as
      the host, who looks at pongs only. */
  lemma OwnerFindsPong(t: State, deck: multiset<int>, k: nat)
    requires Conserves(t, deck) && IsSeat(k) && t.seats[k].extra == Drawn(t.current)
    requires FindPong(t.seats[k].melds, t.current) < |t.seats[k].melds|
    ensures FindShown(t.seats[k].melds, t.current) == FindPong(t.seats[k].melds, t.current)
  {
    NoneLeft(t, deck, k);
    assert SeatOk(t.seats[k]);
    OnlyPongShows(t.seats[k].melds, FindPong(t.seats[k].melds, t.current), t.current);
  }
}
