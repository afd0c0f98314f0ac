/** The phases of a round, and that every event leads from one phase to another. */
module Phases {
  import opened Tiles
  import opened Winning
  import opened Hands
  import opened Seats
  import opened Arbitration
  import opened Table

  ghost predicate Sizes(t: State, holder: nat)
    requires Shape(t)
  {
    forall i :: IsSeat(i) ==> Size(t.seats[i]) == if i == holder then 17 else 16
  }

  /** Only seat `holder` may have a drawn tile. */
  ghost predicate NoExtra(t: State, holder: nat)
    requires Shape(t)
  {
    forall i :: IsSeat(i) && i != holder ==> t.seats[i].extra == NoTile
  }

  ghost predicate OnlyMode(t: State, s: nat, m: Mode)
    requires Shape(t)
  {
    forall i :: IsSeat(i) ==> t.mode[i] == if i == s then m else Wait
  }

  /** No seat but `s` is asked or has answered. */
  ghost predicate Unasked(t: State, s: nat)
    requires Shape(t)
  {
    forall i :: IsSeat(i) && i != s ==> !t.inCheck[i] && !t.told[i] && t.checkFor[i] == 0
  }

  ghost predicate Idle(t: State) {
    !t.checkOn && !t.nextRequest
  }

  /** A tile of a suit was drawn last; a hand in which it is sorted in has no melds yet. */
  ghost predicate HasDrawn(s: Seat, c: int) {
    s.extra != NoTile && s.extra.tile == c && IsSuitTile(c) && (s.extra.SortedIn? ==> s.melds == [])
  }

  /** The seat whose turn it is has a tile to throw. */
  ghost predicate Holding(t: State)
    requires Shape(t)
  {
    && Idle(t) && !t.sendRequest && t.owner == t.turn
    && OnlyMode(t, t.turn, Throw) && Sizes(t, t.turn) && NoExtra(t, t.turn) && Unasked(t, 0)
    && (t.seats[t.turn].extra != NoTile ==> HasDrawn(t.seats[t.turn], t.seats[t.turn].extra.tile))
  }

  /** The seat whose turn it is holds the tile it drew, and no other seat is involved. */
  ghost predicate HoldsDrawn(t: State)
    requires Shape(t)
  {
    && !t.nextRequest && !t.sendRequest && t.getting && t.owner == t.turn
    && OnlyMode(t, t.turn, Throw) && Sizes(t, t.turn) && NoExtra(t, t.turn) && Unasked(t, t.turn)
    && HasDrawn(t.seats[t.turn], t.current)
    && t.told[t.turn] == t.inCheck[t.turn]
  }

  /** The seat that drew a tile may declare a kang or a win. */
  ghost predicate Deciding(t: State)
    requires Shape(t)
  {
    var seat := t.seats[t.turn];
    && t.checkOn && HoldsDrawn(t) && t.flags[t.turn] == DrawFlags(seat, t.current)
    && Allowed(seat, t.current, t.flags[t.turn], t.checkFor[t.turn])
    && (t.inCheck[t.turn] ==> t.checkFor[t.turn] == 0)
  }

  /** What a seat may answer about a discard is what its hand allows. */
  ghost predicate AskedRightly(t: State, i: nat)
    requires Shape(t) && IsSeat(i)
  {
    && t.flags[i] == ClaimFlags(t.seats[i], t.current, i == NextSeat(t.turn))
    && Allowed(t.seats[i], t.current, t.flags[i], t.checkFor[i])
    && (t.inCheck[i] ==> t.checkFor[i] == 0) && t.told[i] == t.inCheck[i]
  }

  /** A tile has been thrown and the other seats may claim it. */
  ghost predicate Window(t: State)
    requires Shape(t)
  {
    && t.checkOn && !t.nextOn && !t.nextRequest && !t.sendOn && !t.sendRequest && !t.getting && t.owner == t.turn
    && OnlyMode(t, 0, Wait) && Sizes(t, 0) && NoExtra(t, 0)
    && t.discards != [] && t.discards[|t.discards| - 1] == t.current && IsSuitTile(t.current)
    && !t.inCheck[t.turn] && !t.told[t.turn] && t.checkFor[t.turn] == 0
    && forall i :: IsSeat(i) && i != t.turn ==> AskedRightly(t, i)
  }

  /** The seat whose turn it is has been told to draw. */
  ghost predicate Getting(t: State)
    requires Shape(t)
  {
    && Idle(t) && !t.sendRequest && t.sendOn
    && OnlyMode(t, t.turn, Get) && Sizes(t, 0) && NoExtra(t, 0) && Unasked(t, 0)
  }

  /** Its player has asked the host for a tile. */
  ghost predicate Requested(t: State)
    requires Shape(t)
  {
    && Idle(t) && t.sendRequest && t.sendOn && t.turn != 1
    && OnlyMode(t, 0, Wait) && Sizes(t, 0) && NoExtra(t, 0) && Unasked(t, 0)
  }

  /** Its player has been sent a flower and has not shown it yet. */
  ghost predicate Flowering(t: State)
    requires Shape(t)
  {
    && Idle(t) && !t.sendRequest && t.sendOn && t.turn != 1
    && OnlyMode(t, 0, Wait) && Sizes(t, t.turn) && NoExtra(t, t.turn) && Unasked(t, 0)
    && t.seats[t.turn].extra.Drawn? && IsFlower(t.seats[t.turn].extra.tile)
  }

  /** The turn is about to pass: only inside the loop. */
  ghost predicate Passing(t: State)
    requires Shape(t)
  {
    && !t.checkOn && t.nextRequest && t.nextOn && t.sendOn && !t.sendRequest
    && OnlyMode(t, 0, Wait) && Sizes(t, 0) && NoExtra(t, 0) && Unasked(t, 0)
  }

  /** A finished round: after an exhausted wall the request for the next player stays up. */
  ghost predicate Over(t: State)
    requires Shape(t)
  {
    && t.outcome != Playing && (forall i :: IsSeat(i) ==> 16 <= Size(t.seats[i]) <= 17)
    && (t.nextRequest <==> t.outcome == Exhausted) && t.nextOn && !t.checkOn && !t.sendRequest
  }

  ghost predicate InPhase(t: State)
    requires Shape(t)
  {
    || (t.outcome == Playing && (Holding(t) || Deciding(t) || Window(t) || Getting(t) || Requested(t) || Flowering(t)))
    || Over(t)
  }

  ghost predicate Inv(t: State, deck: multiset<int>) {
    Conserves(t, deck) && InPhase(t)
  }

  // ----- Flags of a drawn tile -----

  lemma Arranged(m: multiset<int>) returns (hand: seq<int>)
    ensures multiset(hand) == m
    decreases |m|
  {
    if m == multiset{} {
      hand := [];
    } else {
      assert (forall y :: m[y] == 0) ==> m == multiset{};
      var y :| y in m;
      var rest := Arranged(m - multiset{y});
      hand := rest + [y];
      assert m == (m - multiset{y}) + multiset{y};
    }
  }

  lemma MakesTilesOf(hand: seq<int>)
    ensures MakesTiles(multiset(hand)) <==> Makes(hand)
  {
    if MakesTiles(multiset(hand)) {
      var h :| multiset(h) == multiset(hand) && Makes(h);
      MakesByTiles(h, hand);
    }
  }

  lemma MakesWith(hand: seq<int>, c: int)
    ensures MakesTiles(multiset(hand) + multiset{c}) <==> Makes(hand + [c])
  {
    MakesTilesOf(hand + [c]);
    assert multiset(hand + [c]) == multiset(hand) + multiset{c};
  }

  /** A flower is never offered a kang or a win, so the seat is not asked about it. */
  lemma NoFlagsForFlower(s: Seat, f: int)
    requires SeatOk(s) && IsFlower(f) && |s.hand| % 3 == 1
    ensures DrawFlags(s, f) == NONE
  {
    var hand := Arranged(s.hand);
    assert forall k :: 0 <= k < |hand| ==> hand[k] in s.hand;
    FlowerNeverMakes(hand, f);
    MakesWith(hand, f);
    assert s.hand[f] == 0;
    NoPongOfFlower(s.melds, f);
  }

  lemma NoPongOfFlower(melds: seq<OutCard>, f: int)
    requires LegalMelds(melds) && IsFlower(f)
    ensures FindPong(melds, f) == |melds|
  {
  }
}
