/** From the deal to the first throw, and what an exhausted wall leaves behind. */
module NewRound {
  import opened Tiles
  import opened Deck
  import opened Seats
  import opened OpeningHand
  import opened Arbitration
  import opened Table
  import opened Round
  import opened Phases
  import opened RoundSafety
  import opened RoundLoop
  import opened RoundRuns
  import Deal
  import Shuffle

  /** What a deal leaves: the wall and how far it is used, the sorted hands, the dealer's extra tile
      and the flowers shown. */
  datatype Dealt = Dealt(wall: seq<int>, point: nat, rows: seq<seq<int>>, extra: int, flowers: seq<multiset<int>>, dealer: nat)

  /** What the deal guarantees. */
  ghost predicate FullyDealt(d: Dealt) {
    && |d.wall| == 144 && 65 <= d.point <= 73 && |d.rows| == 5 && |d.flowers| == 5 && IsSeat(d.dealer)
    && IsDeck(multiset(d.wall)) && !IsFlower(d.extra)
    && (forall i :: IsSeat(i) ==> |d.rows[i]| == 16 && Deal.NoFlower(d.rows[i]))
    && Deal.RowsBag(d.rows) + multiset{d.extra} + Deal.FlowersBag(d.flowers) + multiset(d.wall[d.point..]) == multiset(d.wall)
  }

  /** A seat after the deal. The host sorts the extra tile in when it deals; its copy of another dealer's
      hand has it after the others. */
  function SeatDealt(d: Dealt, i: nat): Seat
    requires |d.rows| == 5 && |d.flowers| == 5 && i < 5
  {
    var extra := if i != d.dealer then NoTile else if i == 1 then SortedIn(d.extra) else Drawn(d.extra);
    Seat(multiset(d.rows[i]), extra, [], d.flowers[i])
  }

  /** The table after `opening` and the deal. The questions and answers of the last round are
      cleared; the requests and permissions of the loop are left as they were. */
  function Laid(t: State, d: Dealt): State
    requires |d.rows| == 5 && |d.flowers| == 5 && IsSeat(d.dealer)
  {
    t.(wall := d.wall, point := d.point, seats := seq(5, i requires 0 <= i < 5 => SeatDealt(d, i)),
       discards := [], burned := multiset{}, turn := d.dealer, owner := d.dealer, current := d.extra,
       mode := WAITING[d.dealer := Throw], inCheck := NONE_ASKED, told := NONE_ASKED,
       checkFor := NO_ANSWER,
       checkOn := false, getting := false, outcome := Playing)
  }

  const NONE_ASKED := [false, false, false, false, false]

  /** What the dealer may declare at the opening. */
  ghost function OpeningFlags(d: Dealt): Flags
    requires |d.rows| == 5 && |d.flowers| == 5 && IsSeat(d.dealer)
  {
    DrawFlags(SeatDealt(d, d.dealer), d.extra)
  }

  /** The dealer's extra tile is looked at last. Its seat is marked, and the question is shown to the
      host's player, whoever is dealer. */
  ghost function Opened(t: State, d: Dealt): State
    requires |d.rows| == 5 && |d.flowers| == 5 && IsSeat(d.dealer) && d.point <= |d.wall| && |t.flags| == 5
  {
    Tell(Mark(Laid(t, d), d.dealer, OpeningFlags(d)), 1, AnyFlag(OpeningFlags(d)))
  }

  lemma RowTiles(d: Dealt, i: nat, x: int)
    requires FullyDealt(d) && IsSeat(i) && x in multiset(d.rows[i])
    ensures IsSuitTile(x)
  {
    Deal.OneRow(d.rows, i, d.rows[i]);
    assert x in Deal.RowsBag(d.rows) + multiset{d.extra} + Deal.FlowersBag(d.flowers) + multiset(d.wall[d.point..]);
    assert multiset(d.wall)[x] == CodeCount(x);
    assert x in d.rows[i];
  }

  lemma ExtraTile(d: Dealt)
    requires FullyDealt(d)
    ensures IsSuitTile(d.extra)
  {
    assert d.extra in Deal.RowsBag(d.rows) + multiset{d.extra} + Deal.FlowersBag(d.flowers) + multiset(d.wall[d.point..]);
    assert multiset(d.wall)[d.extra] == CodeCount(d.extra);
  }

  lemma SeatOfRow(d: Dealt, i: nat)
    requires FullyDealt(d) && IsSeat(i)
    ensures SeatOk(SeatDealt(d, i)) && Size(SeatDealt(d, i)) == if i == d.dealer then 17 else 16
    ensures Bag(SeatDealt(d, i)) == multiset(d.rows[i]) + (if i == d.dealer then multiset{d.extra} else multiset{}) + d.flowers[i]
  {
    forall x | x in multiset(d.rows[i]) ensures IsSuitTile(x) { RowTiles(d, i, x); }
  }

  /** Every seat has its own sixteen tiles and the stretch of wall its flowers were replaced from, the
      stretches in the order of seats from the dealer. */
  ghost predicate DealtInTurn(d: Dealt, cuts: seq<nat>)
    requires FullyDealt(d)
  {
    && Deal.InOrder(cuts, d.wall) && cuts[4] == d.point
    && forall s :: IsSeat(s) ==> Deal.OwnTiles(d.wall, d.dealer, cuts, s, d.rows[s], d.flowers[s], d.extra)
  }

  lemma SameStretch(wall: seq<int>, mj: seq<int>, a: nat, b: nat)
    requires 144 <= |mj| && wall == mj[..144] && a <= b <= 144
    ensures wall[a..b] == mj[a..b]
  {
  }

  lemma OwnOnWall(wall: seq<int>, mj: seq<int>, dealer: nat, cuts: seq<nat>, s: nat, row: seq<int>, flowers: multiset<int>,
                  c: int)
    requires 144 <= |mj| && wall == mj[..144] && IsSeat(dealer) && IsSeat(s) && Deal.InOrder(cuts, mj) && cuts[4] <= 144
    requires Deal.OwnTiles(mj, dealer, cuts, s, row, flowers, c)
    ensures Deal.OwnTiles(wall, dealer, cuts, s, row, flowers, c)
  {
    var turn := (s - dealer) % 4;
    SameStretch(wall, mj, 16 * (s - 1), 16 * s);
    SameStretch(wall, mj, cuts[turn], cuts[turn + 1]);
    SameStretch(wall, mj, 64, cuts[0]);
  }

  /** Everything in front of a seat at the opening is its own. */
  lemma SeatInTurn(t: State, d: Dealt, cuts: seq<nat>, s: nat)
    requires FullyDealt(d) && DealtInTurn(d, cuts) && IsSeat(s) && |t.flags| == 5
    ensures Bag(Opened(t, d).seats[s]) == Deal.DealtTo(d.wall, d.dealer, cuts, s)
  {
    SeatOfRow(d, s);
    assert Deal.OwnTiles(d.wall, d.dealer, cuts, s, d.rows[s], d.flowers[s], d.extra);
    assert Opened(t, d).seats[s] == SeatDealt(d, s);
  }

  lemma WallDealt(mj: seq<int>, point: nat, rows: seq<seq<int>>, c: int, flowers: seq<multiset<int>>, dealer: nat, cuts: seq<nat>)
    requires 144 <= |mj| && IsDeck(multiset(mj[..144])) && IsSeat(dealer)
    requires Deal.Ended(mj, dealer, cuts, rows, flowers, c) && cuts[4] == point
    requires forall i :: IsSeat(i) ==> |rows[i]| == 16
    requires Deal.AllThere(mj, point, rows, flowers, c)
    ensures var d := Dealt(mj[..144], point, rows, c, flowers, dealer); FullyDealt(d) && DealtInTurn(d, cuts)
  {
    var wall := mj[..144];
    assert mj[point..144] == wall[point..];
    forall s | IsSeat(s) ensures Deal.OwnTiles(wall, dealer, cuts, s, rows[s], flowers[s], c) {
      OwnOnWall(wall, mj, dealer, cuts, s, rows[s], flowers[s], c);
    }
  }

  /** The deal carried out by the host's own procedure, read off its buffers. */
  method DealRound(p: Deal.Pools, dealer: nat)
    returns (ghost d: Dealt, point: nat, ghost cuts: seq<nat>)
    requires p.Valid() && IsSeat(dealer) && IsDeck(multiset(p.mj[..Deal.WALL]))
    modifies p`point, p`flowers, p.card
    ensures p.Valid() && point == p.point == d.point && d.dealer == dealer
    ensures FullyDealt(d) && d.wall == p.mj[..Deal.WALL] && d.rows == p.Rows() && d.extra == p.card[dealer][16]
    ensures d.flowers == p.flowers && DealtInTurn(d, cuts)
  {
    cuts := p.OpenDeal(dealer);
    point := p.point;
    d := ReadDeal(p, dealer, cuts);
  }

  lemma ReadDeal(p: Deal.Pools, dealer: nat, cuts: seq<nat>) returns (d: Dealt)
    requires p.mj.Length == 150 && |p.card| == 5 && forall i :: 0 <= i < 5 ==> p.card[i].Length == 20
    requires IsSeat(dealer) && IsDeck(multiset(p.mj[..Deal.WALL]))
    requires Deal.AllThere(p.mj[..], p.point, p.Rows(), p.flowers, p.card[dealer][16])
    requires Deal.Ended(p.mj[..], dealer, cuts, p.Rows(), p.flowers, p.card[dealer][16]) && cuts[4] == p.point
    ensures d == Dealt(p.mj[..Deal.WALL], p.point, p.Rows(), p.card[dealer][16], p.flowers, dealer)
    ensures FullyDealt(d) && DealtInTurn(d, cuts)
  {
    var mj, rows, c := p.mj[..], p.Rows(), p.card[dealer][16];
    assert p.mj[..144] == mj[..144];
    d := Dealt(mj[..144], p.point, rows, c, p.flowers, dealer);
    WallDealt(mj, p.point, rows, c, p.flowers, dealer, cuts);
  }

  /** The wall is shuffled from the tile table and dealt from: whatever the random choices, the round
      starts from a full deal. */
  method ShuffleAndDeal(p: Deal.Pools, dealer: nat, all: seq<int>, choices: seq<nat>)
    returns (ghost d: Dealt, point: nat, ghost cuts: seq<nat>)
    requires p.Valid() && IsSeat(dealer) && |all| == 144 && IsDeck(multiset(all))
    requires |choices| == 144 && Shuffle.InRange(choices, 144)
    modifies p`point, p`flowers, p.card, p.mj
    ensures p.Valid() && FullyDealt(d) && d.dealer == dealer && point == p.point == d.point
    ensures d.wall == p.mj[..Deal.WALL] && d.rows == p.Rows() && d.extra == p.card[dealer][16] && d.flowers == p.flowers
    ensures DealtInTurn(d, cuts)
  {
    forall k | 0 <= k < |all| ensures all[k] != 0 { NoBlankTile(all, k); }
    Shuffle.GenerateCard(p.mj, all, choices);
    d, point, cuts := DealRound(p, dealer);
  }

  lemma DealtSum(a: multiset<int>, b: multiset<int>, c: multiset<int>, e: multiset<int>, e1: multiset<int>, e2: multiset<int>,
                 e3: multiset<int>, e4: multiset<int>, f1: multiset<int>, f2: multiset<int>, f3: multiset<int>, f4: multiset<int>,
                 x: multiset<int>, x1: multiset<int>)
    requires e1 + e2 + e3 + e4 == x
    ensures (a + e1 + f1) + (b + e2 + f2) + (c + e3 + f3) + (e + e4 + f4) + x1 == (a + b + c + e) + x + (f1 + f2 + f3 + f4) + x1
  {
  }

  function ExtraAt(d: Dealt, i: nat): multiset<int> {
    if i == d.dealer then multiset{d.extra} else multiset{}
  }

  lemma ExtraOnce(d: Dealt)
    requires IsSeat(d.dealer)
    ensures ExtraAt(d, 1) + ExtraAt(d, 2) + ExtraAt(d, 3) + ExtraAt(d, 4) == multiset{d.extra}
  {
  }

  lemma DealtTotal(d: Dealt, seats: seq<Seat>)
    requires FullyDealt(d) && |seats| == 5 && forall i :: IsSeat(i) ==> seats[i] == SeatDealt(d, i)
    ensures SeatsBag(seats) + multiset(d.wall[d.point..]) == multiset(d.wall)
  {
    forall i | IsSeat(i) ensures Bag(seats[i]) == multiset(d.rows[i]) + ExtraAt(d, i) + d.flowers[i] { SeatOfRow(d, i); }
    ExtraOnce(d);
    BagsOfSeats(d, seats);
  }

  lemma BagsOfSeats(d: Dealt, seats: seq<Seat>)
    requires |seats| == |d.rows| == |d.flowers| == 5 && d.point <= |d.wall|
    requires forall i :: IsSeat(i) ==> Bag(seats[i]) == multiset(d.rows[i]) + ExtraAt(d, i) + d.flowers[i]
    requires ExtraAt(d, 1) + ExtraAt(d, 2) + ExtraAt(d, 3) + ExtraAt(d, 4) == multiset{d.extra}
    ensures SeatsBag(seats) + multiset(d.wall[d.point..])
            == Deal.RowsBag(d.rows) + multiset{d.extra} + Deal.FlowersBag(d.flowers) + multiset(d.wall[d.point..])
  {
    DealtSum(multiset(d.rows[1]), multiset(d.rows[2]), multiset(d.rows[3]), multiset(d.rows[4]),
             ExtraAt(d, 1), ExtraAt(d, 2), ExtraAt(d, 3), ExtraAt(d, 4), d.flowers[1], d.flowers[2], d.flowers[3], d.flowers[4],
             multiset{d.extra}, multiset(d.wall[d.point..]));
  }

  /** The table at the opening: the hands and flowers of the deal, the dealer to throw, and a question to
      the dealer when its extra tile makes a fourth copy or a winning hand. */
  lemma OpenedTable(t: State, d: Dealt)
    requires FullyDealt(d) && |t.flags| == 5
    ensures var u := Opened(t, d); var row := multiset(d.rows[d.dealer]);
            var asked := row[d.extra] >= 3 || MakesTiles(row + multiset{d.extra});
            && u.turn == u.owner == d.dealer && u.current == d.extra && u.discards == [] && u.outcome == Playing
            && u.checkOn == asked && u.getting == asked
            && forall i :: IsSeat(i) ==>
                 && u.seats[i].hand == multiset(d.rows[i]) && u.seats[i].flowers == d.flowers[i] && u.seats[i].melds == []
                 && u.seats[i].extra == (if i != d.dealer then NoTile else if i == 1 then SortedIn(d.extra) else Drawn(d.extra))
                 && u.mode[i] == (if i == d.dealer then Throw else Wait) && u.checkFor[i] == 0
                 && (u.inCheck[i] <==> i == d.dealer && asked) && (u.told[i] <==> i == 1 && asked)
  {
    OpeningAsks(d);
  }

  lemma OpeningAsks(d: Dealt)
    requires FullyDealt(d)
    ensures var row := multiset(d.rows[d.dealer]);
            AnyFlag(OpeningFlags(d)) <==> row[d.extra] >= 3 || MakesTiles(row + multiset{d.extra})
  {
  }

  /** The table opened after a deal holds exactly the deck. */
  lemma OpenedConserves(t: State, d: Dealt)
    requires FullyDealt(d) && |t.flags| == 5
    ensures Conserves(Opened(t, d), multiset(d.wall))
  {
    var u := Opened(t, d);
    forall i | IsSeat(i) ensures SeatOk(u.seats[i]) { SeatOfRow(d, i); }
    DealtTotal(d, u.seats);
    NoOther(SeatsBag(u.seats), RestBag(u), multiset(d.wall[d.point..]));
  }

  lemma NoOther(a: multiset<int>, r: multiset<int>, w: multiset<int>)
    requires r == multiset([]) + multiset{} + w
    ensures a + r == a + w
  {
  }

  lemma LaidSizes(t: State, d: Dealt)
    requires FullyDealt(d) && |t.flags| == 5
    ensures Sizes(Laid(t, d), d.dealer) && NoExtra(Laid(t, d), d.dealer)
  {
    var u := Laid(t, d);
    forall i | IsSeat(i)
      ensures Size(u.seats[i]) == (if i == d.dealer then 17 else 16) && (i != d.dealer ==> u.seats[i].extra == NoTile)
    {
      assert u.seats[i] == SeatDealt(d, i);
      SeatOfRow(d, i);
    }
  }

  lemma LaidIdle(t: State, d: Dealt)
    requires FullyDealt(d) && |t.flags| == 5 && !t.nextRequest && !t.sendRequest
    ensures var u := Laid(t, d);
            Idle(u) && !u.sendRequest && u.owner == u.turn == d.dealer && OnlyMode(u, d.dealer, Throw) && Unasked(u, 0)
  {
  }

  lemma LaidHolds(t: State, d: Dealt)
    requires FullyDealt(d) && |t.flags| == 5 && !t.nextRequest && !t.sendRequest
    ensures Holding(Laid(t, d))
  {
    LaidIdle(t, d);
    LaidSizes(t, d);
    ExtraTile(d);
  }

  lemma NoPhaseWithRequest(u: State)
    requires Shape(u) && u.outcome == Playing && u.mode[u.turn] == Throw && (u.nextRequest || u.sendRequest)
    ensures !InPhase(u)
  {
  }

  lemma NoPhaseUntold(u: State)
    requires Shape(u) && u.outcome == Playing && u.mode[u.turn] == Throw && u.inCheck[u.turn] && !u.told[u.turn]
    ensures !InPhase(u)
  {
  }

  /** The dealer is not marked, or it is the host that is asked. */
  ghost predicate AsksDealer(d: Dealt)
    requires |d.rows| == 5 && |d.flowers| == 5 && IsSeat(d.dealer)
  {
    d.dealer == 1 || !AnyFlag(OpeningFlags(d))
  }

  lemma OpenedAsOwner(t: State, d: Dealt)
    requires FullyDealt(d) && |t.flags| == 5 && AsksDealer(d)
    ensures Opened(t, d) == AskOwner(Laid(t, d), d.dealer, OpeningFlags(d))
  {
    assert NONE_ASKED[1 := false] == NONE_ASKED[d.dealer := false];
  }

  lemma OpenedPhase(t: State, d: Dealt)
    requires FullyDealt(d) && |t.flags| == 5
    ensures InPhase(Opened(t, d)) <==> !t.nextRequest && !t.sendRequest && AsksDealer(d)
  {
    if t.nextRequest || t.sendRequest {
      NoPhaseWithRequest(Opened(t, d));
    } else if AsksDealer(d) {
      LaidHolds(t, d);
      OpenedAsOwner(t, d);
      AskOwnerPhase(Laid(t, d), d.dealer);
    } else {
      NoPhaseUntold(Opened(t, d));
    }
  }

  /** A round starts in one of its phases exactly when no request is left over and the dealer is the
      host or has nothing to declare: only the host is asked at the opening. After a finished round a
      request is left over exactly when the wall ran out: it is dropped only when a player does draw. */
  lemma NextRoundStarts(t: State, d: Dealt)
    requires |t.flags| == 5 && FullyDealt(d)
    ensures Inv(Opened(t, d), multiset(d.wall))
            <==> !t.nextRequest && !t.sendRequest && (d.dealer == 1 || !AnyFlag(DrawFlags(SeatDealt(d, d.dealer), d.extra)))
    ensures Shape(t) && Over(t) ==> (!t.nextRequest && !t.sendRequest <==> t.outcome != Exhausted)
  {
    OpenedConserves(t, d);
    OpenedPhase(t, d);
  }

  // ----- The kang at the opening -----

  /** The dealer's tiles in order, as they lie in the host's buffer after the opening. */
  function DealerTiles(d: Dealt): seq<int>
    requires |d.rows| == 5 && IsSeat(d.dealer)
  {
    SortedTiles(multiset(d.rows[d.dealer]) + multiset{d.extra})
  }

  lemma DealerCodes(d: Dealt, y: int)
    requires FullyDealt(d) && y in multiset(d.rows[d.dealer]) + multiset{d.extra}
    ensures 1 <= y <= 58
  {
    if y == d.extra { ExtraTile(d); } else { RowTiles(d, d.dealer, y); }
  }

  lemma SeventeenTiles(d: Dealt)
    requires FullyDealt(d)
    ensures |DealerTiles(d)| == 17 && Sorted(DealerTiles(d))
    ensures multiset(DealerTiles(d)) == multiset(d.rows[d.dealer]) + multiset{d.extra}
  {
    var m := multiset(d.rows[d.dealer]) + multiset{d.extra};
    forall y | y in m ensures 1 <= y <= 58 { DealerCodes(d, y); }
    InOrder(m);
  }

  /** The host deals itself a kang, and its hand is not right for its kang loop. */
  ghost predicate WrongOpening(d: Dealt)
    requires FullyDealt(d)
  {
    SeventeenTiles(d);
    d.dealer == 1 && multiset(d.rows[1])[d.extra] >= 3 && !RightKang(DealerTiles(d), 16, d.extra)
  }

  lemma DealerSeat(t: State, d: Dealt)
    requires FullyDealt(d) && |t.flags| == 5
    ensures Opened(t, d).seats[d.dealer] == SeatDealt(d, d.dealer)
    ensures Opened(t, d).turn == d.dealer && Opened(t, d).current == d.extra
  {
  }

  lemma WrongSeat(d: Dealt)
    requires FullyDealt(d)
    ensures var s := SeatDealt(d, d.dealer); s.hand[d.extra] >= 3 && !TakesFour(s, d.extra) <==> WrongOpening(d)
  {
    var s := SeatDealt(d, d.dealer);
    SeventeenTiles(d);
    assert SortedTiles(InHand(s)) == DealerTiles(d);
    assert s.hand[d.extra] == multiset(d.rows[d.dealer])[d.extra];
  }

  lemma OpenedWrong(t: State, d: Dealt)
    requires FullyDealt(d) && |t.flags| == 5
    ensures Shape(Opened(t, d)) && (WrongKang(Opened(t, d)) <==> WrongOpening(d))
  {
    DealerSeat(t, d);
    WrongSeat(d);
  }

  lemma OpenedDecides(t: State, d: Dealt)
    requires FullyDealt(d) && |t.flags| == 5 && !t.nextRequest && !t.sendRequest && AsksDealer(d) && AnyFlag(OpeningFlags(d))
    ensures var u := Opened(t, d); Shape(u) && u.outcome == Playing && Deciding(u) && u.inCheck[u.turn]
  {
    LaidHolds(t, d);
    OpenedAsOwner(t, d);
    AskOwnerPhase(Laid(t, d), d.dealer);
  }

  lemma OpenedEndangered(t: State, d: Dealt)
    requires FullyDealt(d) && |t.flags| == 5 && !t.nextRequest && !t.sendRequest && AsksDealer(d)
    ensures Endangered(Opened(t, d)) <==> WrongOpening(d)
  {
    OpenedWrong(t, d);
    if AnyFlag(OpeningFlags(d)) {
      OpenedDecides(t, d);
    } else {
      assert !Opened(t, d).checkOn;
    }
  }

  /** A round that starts in one of its phases keeps all tiles in every run if and only if the host has not
      dealt itself a kang on such a hand. */
  lemma RoundKeepsExactly(t: State, d: Dealt)
    requires FullyDealt(d) && |t.flags| == 5 && Inv(Opened(t, d), multiset(d.wall))
    ensures RunsKeep(Opened(t, d), multiset(d.wall)) <==> !WrongOpening(d)
  {
    NextRoundStarts(t, d);
    OpenedEndangered(t, d);
    RunsKeepExactly(Opened(t, d), multiset(d.wall));
  }

  // ----- The exhausted wall -----

  lemma LoopSkips(o: State)
    requires Shape(o) && o.outcome == Playing && o.nextRequest && o.nextOn && !o.sendRequest && 144 - o.point > 16
    requires (o.checkOn ==> StillAsked(o)) && o.mode[o.turn] == Throw
    ensures var u := LoopStep(o); var k := NextSeat(o.turn);
            u.outcome == Playing && u.turn == k && u.mode[o.turn] == Throw && u.mode[k] == Get
  {
  }

  lemma OneActs(u: State, i: nat, k: nat)
    requires Shape(u) && u.outcome == Playing && IsSeat(i) && IsSeat(k) && i != k && u.mode[i] == Throw && u.mode[k] == Get
    ensures !InPhase(u)
  {
  }

  /** After an exhausted wall the loop takes the turn away from the new dealer, who still has to throw,
      and lets the next seat draw as well. */
  lemma ExhaustedSkipsDealer(t: State, d: Dealt)
    requires Shape(t) && Over(t) && t.outcome == Exhausted && FullyDealt(d)
    ensures var u := LoopStep(Opened(t, d)); var k := NextSeat(d.dealer);
            u.turn == k && u.mode[d.dealer] == Throw && u.mode[k] == Get && !InPhase(u)
  {
    LoopSkips(Opened(t, d));
    OneActs(LoopStep(Opened(t, d)), d.dealer, NextSeat(d.dealer));
  }

  /** From the tile table to the first throw: for any random numbers the round starts in one of its
      phases exactly when no request is left over and the opening question reaches the dealer, and
      then every run keeps all tiles exactly when the host has not dealt itself a kang it gets wrong. */
  method StartRound(p: Deal.Pools, dealer: nat, choices: seq<nat>, ghost t: State)
    returns (ghost d: Dealt, point: nat, ghost cuts: seq<nat>)
    requires p.Valid() && IsSeat(dealer) && |choices| == 144 && Shuffle.InRange(choices, 144) && |t.flags| == 5
    modifies p`point, p`flowers, p.card, p.mj
    ensures FullyDealt(d) && d.dealer == dealer && point == p.point == d.point && DealtInTurn(d, cuts)
    ensures Inv(Opened(t, d), multiset(d.wall))
            <==> !t.nextRequest && !t.sendRequest && (dealer == 1 || !AnyFlag(DrawFlags(SeatDealt(d, dealer), d.extra)))
    ensures Inv(Opened(t, d), multiset(d.wall)) ==> (RunsKeep(Opened(t, d), multiset(d.wall)) <==> !WrongOpening(d))
  {
    var all := TileTable();
    d, point, cuts := ShuffleAndDeal(p, dealer, all, choices);
    NextRoundStarts(t, d);
    if Inv(Opened(t, d), multiset(d.wall)) { RoundKeepsExactly(t, d); }
  }

  // ----- The question at the opening -----

  /** A seat is marked as being asked and its player has not been shown the question; at most that
      player has a tile to throw. */
  ghost predicate Unheard(t: State, s: nat) {
    && Shape(t) && IsSeat(s) && t.outcome == Playing && t.checkOn && t.inCheck[s] && !t.told[s]
    && !t.nextRequest && !t.sendRequest
    && (forall i :: IsSeat(i) ==> t.mode[i] == Wait || (i == s && t.mode[i] == Throw))
    && forall i :: IsSeat(i) ==> t.seats[i].extra.Drawn? ==> !IsFlower(t.seats[i].extra.tile)
  }

  /** The tile has been thrown, and the seat is still marked. */
  ghost predicate Stuck(t: State, s: nat) {
    Unheard(t, s) && OnlyMode(t, 0, Wait) && t.discards != []
  }

  /** Nothing but answers of other seats can follow, and nothing moves. */
  lemma StuckStays(t: State, s: nat, e: Event)
    requires Stuck(t, s) && Enabled(t, e)
    ensures e == Loop || (e.Answer? && e.seat != s)
    ensures Stuck(Step(t, e), s) && Step(t, e).seats == t.seats && Step(t, e).turn == t.turn && Step(t, e).point == t.point
  {
    StuckEvents(t, s, e);
    if e == Loop { LoopIdles(t); }
  }

  lemma StuckEvents(t: State, s: nat, e: Event)
    requires Stuck(t, s) && Enabled(t, e)
    ensures e == Loop || (e.Answer? && e.seat != s)
  {
  }

  lemma ThrowLeavesMark(t: State, s: nat, c: int)
    requires Unheard(t, s)
    ensures Stuck(Throws(t, s, c), s) <==> s != 1
  {
  }

  /** Marked at a seat other than the host's, it stays so through the throw and everything else. */
  lemma UnheardStays(t: State, s: nat, e: Event)
    requires Unheard(t, s) && s != 1 && Enabled(t, e)
    ensures Unheard(Step(t, e), s) && Step(t, e).point == t.point
  {
    match e
    case Loop => LoopIdles(t);
    case ThrowTile(k, c) => ThrowLeavesMark(t, s, c);
    case _ =>
  }

  lemma {:induction false} UnheardForever(t: State, s: nat, es: seq<Event>, u: State)
    requires Unheard(t, s) && s != 1 && Runs(t, es, u)
    ensures Unheard(u, s) && u.point == t.point
    decreases |es|
  {
    if es != [] {
      UnheardStays(t, s, es[0]);
      UnheardForever(Step(t, es[0]), s, es[1..], u);
    }
  }

  lemma OpenedUnheard(t: State, d: Dealt)
    requires FullyDealt(d) && |t.flags| == 5 && !t.nextRequest && !t.sendRequest
    ensures Unheard(Opened(t, d), d.dealer) <==> !AsksDealer(d)
  {
    ExtraTile(d);
  }

  /** A round that opens with an unasked dealer never draws another tile and never ends. */
  lemma UnaskedRoundStalls(t: State, d: Dealt, es: seq<Event>, u: State)
    requires FullyDealt(d) && |t.flags| == 5 && !t.nextRequest && !t.sendRequest
    requires d.dealer != 1 && AnyFlag(DrawFlags(SeatDealt(d, d.dealer), d.extra))
    requires Runs(Opened(t, d), es, u)
    ensures Unheard(u, d.dealer) && u.outcome == Playing && u.point == d.point
  {
    OpenedUnheard(t, d);
    UnheardForever(Opened(t, d), d.dealer, es, u);
  }

  /** The dealer's first throw is never resolved exactly when the dealer is not the host and there was
      something to ask: at the opening the question is put to the host, whoever is dealer. */
  lemma UnaskedDealerStalls(t: State, d: Dealt, c: int)
    requires FullyDealt(d) && |t.flags| == 5 && !t.nextRequest && !t.sendRequest
    ensures Stuck(Throws(Opened(t, d), d.dealer, c), d.dealer)
            <==> d.dealer != 1 && AnyFlag(DrawFlags(SeatDealt(d, d.dealer), d.extra))
  {
    OpenedUnheard(t, d);
    if AnyFlag(OpeningFlags(d)) && d.dealer != 1 { ThrowLeavesMark(Opened(t, d), d.dealer, c); }
  }
}
