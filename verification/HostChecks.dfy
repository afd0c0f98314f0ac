/** The host's procedures together with the checks they make of the buffers of the hands. */
module HostChecks {
  import opened Tiles
  import opened Hands
  import opened Eating
  import opened CheckMake
  import opened Seats
  import opened Arbitration
  import opened Table
  import opened Round
  import opened Phases
  import opened PoolSeats
  import Host

  /** The buffer of a seat that waits for a tile. */
  ghost predicate Ready(p: Pool, s: Seat)
    reads p, p.card
  {
    Waits(p, s) && SuitTilesOnly(s.hand)
  }

  /** The checks of one seat after seat `s` has thrown `c`; the thrower keeps its flags. */
  method CheckOne(h: Host.Host, p: Pool, w: WinCheck, s: nat, c: int, i: nat) returns (f: Flags)
    requires h.Valid() && IsSeat(s) && IsSuitTile(c) && IsSeat(i) && (i != s ==> Ready(p, h.seats[i]))
    modifies w`component
    ensures f == FlagsAfterThrow(h.Record(), s, c)[i]
  {
    if i == s {
      f := h.flags[i];
    } else {
      f := CheckCard(p, w, c, i == NextSeat(h.turn), h.seats[i]);
    }
  }

  method CheckOthers(h: Host.Host, pools: seq<Pool>, w: WinCheck, s: nat, c: int) returns (f: seq<Flags>)
    requires h.Valid() && IsSeat(s) && IsSuitTile(c) && |pools| == 5
    requires forall i :: IsSeat(i) && i != s ==> Ready(pools[i], h.seats[i])
    modifies w`component
    ensures f == FlagsAfterThrow(h.Record(), s, c)
  {
    f := [h.flags[0]];
    ghost var all := FlagsAfterThrow(h.Record(), s, c);
    while |f| <= 4
      invariant 1 <= |f| <= 5 && forall k :: 0 <= k < |f| ==> f[k] == all[k]
    {
      var one := CheckOne(h, pools[|f|], w, s, c, |f|);
      f := f + [one];
    }
  }

  /** A seat has something to answer about a discard when it may eat it, holds two copies of it, or
      wins with it. */
  lemma SeatAsked(s: Seat, c: int, isNext: bool)
    ensures AnyFlag(ClaimFlags(s, c, isNext))
            <==> (isNext && exists start :: Eats(s.hand, c, start)) || s.hand[c] >= 2 || MakesTiles(s.hand + multiset{c})
  {
  }

  lemma ThrowAsks(t: State, s: nat, c: int, i: nat)
    requires Shape(t) && IsSeat(s) && IsSeat(i) && i != s
    ensures var u := Throws(t, s, c);
            && u.flags[i] == ClaimFlags(t.seats[i], c, i == t.turn % 4 + 1)
            && u.inCheck[i] == AnyFlag(u.flags[i]) && u.told[i] == (t.told[i] || u.inCheck[i])
  {
  }

  lemma OthersAsked(t: State, s: nat, c: int)
    requires Shape(t) && IsSeat(s)
    ensures var u := Throws(t, s, c);
            forall i :: IsSeat(i) && i != s ==>
              && u.flags[i] == ClaimFlags(t.seats[i], c, i == t.turn % 4 + 1)
              && (u.inCheck[i] <==> || (i == t.turn % 4 + 1 && exists start :: Eats(t.seats[i].hand, c, start))
                                    || t.seats[i].hand[c] >= 2 || MakesTiles(t.seats[i].hand + multiset{c}))
              && (u.told[i] <==> t.told[i] || u.inCheck[i])
  {
    var u := Throws(t, s, c);
    forall i | IsSeat(i) && i != s
      ensures u.flags[i] == ClaimFlags(t.seats[i], c, i == t.turn % 4 + 1)
      ensures u.inCheck[i] == AnyFlag(ClaimFlags(t.seats[i], c, i == t.turn % 4 + 1))
      ensures u.told[i] == (t.told[i] || u.inCheck[i])
      ensures u.inCheck[i] <==> || (i == t.turn % 4 + 1 && exists start :: Eats(t.seats[i].hand, c, start))
                                || t.seats[i].hand[c] >= 2 || MakesTiles(t.seats[i].hand + multiset{c})
    {
      ThrowAsks(t, s, c, i);
      SeatAsked(t.seats[i], c, i == t.turn % 4 + 1);
    }
  }

  /** A tile is thrown, and the hands of the other seats are checked. */
  method ThrowCard(h: Host.Host, pools: seq<Pool>, w: WinCheck, s: nat, c: int)
    requires h.Valid() && IsSeat(s) && IsSuitTile(c) && !h.inCheck[0] && |pools| == 5
    requires forall i :: IsSeat(i) && i != s ==> Ready(pools[i], h.seats[i])
    modifies h, h.mode, h.flags, h.inCheck, h.told, w`component
    ensures h.Record() == Throws(old(h.Record()), s, c)
    ensures forall i :: IsSeat(i) && i != s ==>
              var hand := h.seats[i].hand;
              && (h.flags[i].eat <==> i == h.turn % 4 + 1 && exists start :: Eats(hand, c, start))
              && (h.flags[i].pong <==> hand[c] >= 2)
              && h.flags[i].kang == (if hand[c] >= 3 then 1 else 0)
              && (h.flags[i].make <==> MakesTiles(hand + multiset{c}))
    ensures forall i :: IsSeat(i) && i != s ==>
              var hand := h.seats[i].hand;
              && (h.inCheck[i] <==> || (i == h.turn % 4 + 1 && exists start :: Eats(hand, c, start))
                                    || hand[c] >= 2 || MakesTiles(hand + multiset{c}))
              && (h.told[i] <==> old(h.told[i]) || h.inCheck[i])
    ensures h.inCheck[s] == (s != 1 && old(h.inCheck[s])) && h.told[s] == old(h.told[s]) && h.flags[s] == old(h.flags[s])
    ensures h.seats == old(h.seats[s := h.seats[s].(hand := InHand(h.seats[s]) - multiset{c}, extra := NoTile)])
    ensures h.discards == old(h.discards) + [c] && h.current == c && h.mode[..] == old(h.mode[..][s := Wait])
    ensures h.checkOn && !h.sendOn && !h.nextOn && !h.getting
    ensures h.wall == old(h.wall) && h.point == old(h.point) && h.burned == old(h.burned) && h.turn == old(h.turn)
  {
    ghost var t := h.Record();
    var f := CheckOthers(h, pools, w, s, c);
    h.ThrowCard(s, c, f);
    OthersAsked(t, s, c);
  }

  /** The owner of a drawn tile is asked when three copies in the hand, a pong on the table, or a
      winning hand goes with it. */
  lemma OwnerAsked(s: Seat, c: int)
    ensures var ponged := exists j :: 0 <= j < |s.melds| && IsPongOf(s.melds[j], c);
            && DrawFlags(s, c).kang == (if s.hand[c] >= 3 then 1 else if ponged then 2 else 0)
            && (AnyFlag(DrawFlags(s, c)) <==> s.hand[c] >= 3 || ponged || MakesTiles(s.hand + multiset{c}))
  {
    if FindPong(s.melds, c) < |s.melds| { assert IsPongOf(s.melds[FindPong(s.melds, c)], c); }
  }

  /** The host's own flower is shown, the next tile burned, and the host draws again. */
  lemma FlowerLeaves(t: State, c: int)
    requires Shape(t) && t.point + 1 < |t.wall| && IsFlower(c)
    ensures HostTakes(t, c)
            == t.(point := t.point + 2, burned := t.burned + multiset{t.wall[t.point + 1]}, current := c, owner := 1,
                  seats := t.seats[1 := t.seats[1].(extra := NoTile, flowers := t.seats[1].flowers + multiset{c})],
                  mode := t.mode[1 := Get], getting := true)
  {
  }

  /** Any other tile stays with the host. */
  lemma TileLeaves(t: State, c: int)
    requires Shape(t) && t.point < |t.wall| && !IsFlower(c)
    ensures HostTakes(t, c)
            == t.(point := t.point + 1, current := c, owner := 1, seats := t.seats[1 := t.seats[1].(extra := Drawn(c))],
                  mode := t.mode[1 := Throw], getting := true)
  {
  }

  lemma AskLeaves(t: State, s: nat, f: Flags)
    requires Shape(t) && IsSeat(s)
    ensures AskOwner(t, s, f)
            == t.(flags := t.flags[s := f], inCheck := t.inCheck[s := AnyFlag(f)], told := t.told[s := t.told[s] || AnyFlag(f)],
                  checkOn := t.checkOn || AnyFlag(f), getting := t.getting || AnyFlag(f))
  {
  }

  /** The host draws, and its own hand is checked. */
  method DrawCard(h: Host.Host, p: Pool, w: WinCheck)
    requires h.Valid() && h.point < |h.wall| && (IsFlower(h.wall[h.point]) ==> h.point + 1 < |h.wall|)
    requires Playable(h.wall[h.point]) && Ready(p, h.seats[1])
    modifies h, h.mode, h.flags, h.inCheck, h.told, w`component
    ensures h.Record() == HostDraw(old(h.Record()))
    ensures var c := old(h.wall[h.point]);
            && h.current == c && h.owner == 1 && h.turn == old(h.turn) && h.wall == old(h.wall) && h.discards == old(h.discards)
            && (IsFlower(c) ==>
                  && h.point == old(h.point) + 2 && h.burned == old(h.burned) + multiset{old(h.wall[h.point + 1])}
                  && h.seats == old(h.seats[1 := h.seats[1].(extra := NoTile, flowers := h.seats[1].flowers + multiset{c})])
                  && h.mode[..] == old(h.mode[..][1 := Get]))
            && (!IsFlower(c) ==>
                  && h.point == old(h.point) + 1 && h.burned == old(h.burned)
                  && h.seats == old(h.seats[1 := h.seats[1].(extra := Drawn(c))])
                  && h.mode[..] == old(h.mode[..][1 := Throw]))
    ensures h.inCheck[..] == old(h.inCheck[..])[1 := h.inCheck[1]] && h.told[..] == old(h.told[..])[1 := h.told[1]]
    ensures var seat, c := old(h.seats[1]), old(h.wall[h.point]);
            var ponged := exists j :: 0 <= j < |seat.melds| && IsPongOf(seat.melds[j], c);
            && h.flags[1].kang == (if seat.hand[c] >= 3 then 1 else if ponged then 2 else 0)
            && (h.flags[1].make <==> MakesTiles(seat.hand + multiset{c}))
            && (h.inCheck[1] <==> seat.hand[c] >= 3 || ponged || MakesTiles(seat.hand + multiset{c}))
            && (h.told[1] <==> old(h.told[1]) || h.inCheck[1]) && (h.checkOn <==> old(h.checkOn) || h.inCheck[1])
    ensures h.getting
  {
    ghost var t := h.Record();
    var f := CheckDrawn(p, w, h.wall[h.point], h.seats[1]);
    h.DrawCard(f);
    ghost var c := t.wall[t.point];
    if IsFlower(c) { FlowerLeaves(t, c); } else { TileLeaves(t, c); }
    AskLeaves(HostTakes(t, c), 1, f);
    OwnerAsked(t.seats[1], t.wall[t.point]);
  }

  /** A tile is sent out, and the hand of the player it goes to is checked. */
  method SendOneCard(h: Host.Host, p: Pool, w: WinCheck)
    requires h.Valid() && h.point < |h.wall| && Playable(h.wall[h.point]) && Ready(p, h.seats[h.turn])
    modifies h, h.mode, h.flags, h.inCheck, h.told, w`component
    ensures h.Record() == SendCard(old(h.Record()))
    ensures var c := old(h.wall[h.point]);
            && h.current == c && h.owner == h.turn == old(h.turn) && h.wall == old(h.wall) && h.point == old(h.point) + 1
            && h.discards == old(h.discards) && h.burned == old(h.burned) && !h.sendRequest
            && h.seats == old(h.seats[h.turn := h.seats[h.turn].(extra := Drawn(c))])
            && h.mode[..] == old(h.mode[..])[h.turn := if IsFlower(c) then Wait else Throw]
    ensures h.inCheck[..] == old(h.inCheck[..])[h.turn := h.inCheck[h.turn]]
    ensures h.told[..] == old(h.told[..])[h.turn := h.told[h.turn]]
    ensures var seat, c := old(h.seats[h.turn]), old(h.wall[h.point]);
            var ponged := exists j :: 0 <= j < |seat.melds| && IsPongOf(seat.melds[j], c);
            && h.flags[h.turn].kang == (if seat.hand[c] >= 3 then 1 else if ponged then 2 else 0)
            && (h.flags[h.turn].make <==> MakesTiles(seat.hand + multiset{c}))
            && (h.inCheck[h.turn] <==> seat.hand[c] >= 3 || ponged || MakesTiles(seat.hand + multiset{c}))
            && (h.told[h.turn] <==> old(h.told[h.turn]) || h.inCheck[h.turn])
            && (h.checkOn <==> old(h.checkOn) || h.inCheck[h.turn])
    ensures h.getting <==> old(h.getting) || h.inCheck[h.turn]
  {
    ghost var t := h.Record();
    var f := CheckDrawn(p, w, h.wall[h.point], h.seats[h.turn]);
    h.SendOneCard(f);
    OwnerAsked(t.seats[t.turn], t.wall[t.point]);
  }

  /** A request is pending only while no claim is open and the turn stays where it is. */
  lemma RequestAlone(t: State)
    requires Shape(t) && InPhase(t) && t.sendRequest
    ensures !t.checkOn && !t.nextRequest && t.sendOn && CheckPart(t) == t && NextPart(t) == t
  {
  }

  /** One turn of the loop after the messages. */
  method TurnLoop(h: Host.Host, p: Pool, w: WinCheck)
    requires h.Valid() && InPhase(h.Record())
    requires h.sendRequest ==> h.point < |h.wall| && Playable(h.wall[h.point]) && Ready(p, h.seats[h.turn])
    modifies h, h.mode, h.flags, h.inCheck, h.told, h.checkFor, w`component
    ensures h.Record() == LoopStep(old(h.Record()))
    ensures h.point == old(h.point) + (if old(h.sendRequest && h.sendOn) then 1 else 0)
    ensures !h.sendRequest && h.wall == old(h.wall) && h.burned == old(h.burned)
  {
    h.CloseWindow();
    h.NextPlayer();
    if old(h.sendRequest) { RequestAlone(old(h.Record())); }
    if h.sendRequest && h.sendOn {
      SendOneCard(h, p, w);
    }
  }
}
