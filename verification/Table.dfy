/** The table the host keeps during a round, and its tiles. */
module Table {
  import opened Tiles
  import opened Deck
  import opened Seats
  import opened Arbitration

  /** What a seat's player can do: wait, draw a tile, or throw one. */
  datatype Mode = Wait | Get | Throw

  datatype Outcome = Playing | Won(seat: nat) | Exhausted

  /** The host's record. The per-seat sequences have five entries, entry 0 unused; the host sits at
      seat 1. `inCheck` marks the seats whose answer the host waits for, `told` those whose player has been
      shown the question. `burned` holds the tiles drawn after a flower of the host's own, which are stored
      nowhere. */
  datatype State = State(
    wall: seq<int>, point: nat, seats: seq<Seat>, discards: seq<int>, burned: multiset<int>,
    turn: nat, owner: nat, current: int,
    mode: seq<Mode>, flags: seq<Flags>, inCheck: seq<bool>, told: seq<bool>, checkFor: seq<int>,
    checkOn: bool, nextOn: bool, nextRequest: bool, sendOn: bool, sendRequest: bool, getting: bool,
    outcome: Outcome)

  ghost predicate Shape(t: State) {
    && |t.seats| == |t.mode| == |t.flags| == |t.inCheck| == |t.told| == |t.checkFor| == 5
    && IsSeat(t.turn) && IsSeat(t.owner)
    && t.point <= |t.wall|
  }

  function SeatsBag(seats: seq<Seat>): multiset<int>
    requires |seats| == 5
  {
    Bag(seats[1]) + Bag(seats[2]) + Bag(seats[3]) + Bag(seats[4])
  }

  /** The tiles that are not in front of a seat. */
  function RestBag(t: State): multiset<int>
    requires t.point <= |t.wall|
  {
    multiset(t.discards) + t.burned + multiset(t.wall[t.point..])
  }

  /** Every tile of the round. */
  function Total(t: State): multiset<int>
    requires |t.seats| == 5 && t.point <= |t.wall|
  {
    SeatsBag(t.seats) + RestBag(t)
  }

  // ----- Moving tiles -----

  lemma SeatsBagUpdate(seats: seq<Seat>, s: nat, x: Seat)
    requires |seats| == 5 && IsSeat(s)
    ensures SeatsBag(seats[s := x]) + Bag(seats[s]) == SeatsBag(seats) + Bag(x)
  {
    if s == 1 {
      SwapFirst(Bag(seats[1]), Bag(x), Bag(seats[2]), Bag(seats[3]), Bag(seats[4]));
    } else if s == 2 {
      SwapSecond(Bag(seats[2]), Bag(x), Bag(seats[1]), Bag(seats[3]), Bag(seats[4]));
    } else if s == 3 {
      SwapThird(Bag(seats[3]), Bag(x), Bag(seats[1]), Bag(seats[2]), Bag(seats[4]));
    } else {
      SwapFourth(Bag(seats[4]), Bag(x), Bag(seats[1]), Bag(seats[2]), Bag(seats[3]));
    }
  }

  lemma SwapFirst(o: multiset<int>, n: multiset<int>, a: multiset<int>, b: multiset<int>, c: multiset<int>)
    ensures (n + a + b + c) + o == (o + a + b + c) + n
  {
  }

  lemma SwapSecond(o: multiset<int>, n: multiset<int>, a: multiset<int>, b: multiset<int>, c: multiset<int>)
    ensures (a + n + b + c) + o == (a + o + b + c) + n
  {
  }

  lemma SwapThird(o: multiset<int>, n: multiset<int>, a: multiset<int>, b: multiset<int>, c: multiset<int>)
    ensures (a + b + n + c) + o == (a + b + o + c) + n
  {
  }

  lemma SwapFourth(o: multiset<int>, n: multiset<int>, a: multiset<int>, b: multiset<int>, c: multiset<int>)
    ensures (a + b + c + n) + o == (a + b + c + o) + n
  {
  }

  /** When a seat gains what the rest of the table loses, nothing is lost. */
  lemma MoveTiles(t: State, u: State, s: nat)
    requires |t.seats| == 5 && IsSeat(s) && t.point <= |t.wall| && u.point <= |u.wall|
    requires |u.seats| == 5 && u.seats == t.seats[s := u.seats[s]]
    requires Bag(u.seats[s]) + RestBag(u) == Bag(t.seats[s]) + RestBag(t)
    ensures Total(u) == Total(t)
  {
    SeatsBagUpdate(t.seats, s, u.seats[s]);
    MoveSum(SeatsBag(u.seats), Bag(t.seats[s]), SeatsBag(t.seats), Bag(u.seats[s]), RestBag(t), RestBag(u));
  }

  lemma MoveSum(after: multiset<int>, old1: multiset<int>, before: multiset<int>, new1: multiset<int>,
                rest: multiset<int>, rest1: multiset<int>)
    requires after + old1 == before + new1 && new1 + rest1 == old1 + rest
    ensures after + rest1 == before + rest
  {
    forall x ensures (after + rest1)[x] == (before + rest)[x] {
      assert (after + old1)[x] == (before + new1)[x];
      assert (new1 + rest1)[x] == (old1 + rest)[x];
    }
  }

  lemma WallStep(wall: seq<int>, point: nat)
    requires point < |wall|
    ensures multiset(wall[point..]) == multiset{wall[point]} + multiset(wall[point + 1..])
  {
    assert wall[point..] == [wall[point]] + wall[point + 1..];
  }

  lemma PopStep(discards: seq<int>)
    requires discards != []
    ensures multiset(discards) == multiset(discards[..|discards| - 1]) + multiset{discards[|discards| - 1]}
  {
    assert discards == discards[..|discards| - 1] + [discards[|discards| - 1]];
  }

  // ----- What conservation gives -----

  ghost predicate SeatOk(s: Seat) {
    SuitTilesOnly(s.hand) && LegalMelds(s.melds)
  }

  /** Sixteen tiles, each meld counting as three, and one more for a seat that has to throw. */
  function Size(s: Seat): int {
    |s.hand| + |ExtraBag(s.extra)| + 3 * |s.melds|
  }

  /** No tile has been made or lost since the wall was built. */
  ghost predicate Conserves(t: State, deck: multiset<int>) {
    && Shape(t) && IsDeck(deck) && |t.wall| == 144 && Total(t) == deck
    && (forall i :: IsSeat(i) ==> SeatOk(t.seats[i]))
  }

  /** The two tables hold the same tiles in the same places. */
  ghost predicate SameTiles(t: State, u: State) {
    Shape(u) && u.wall == t.wall && u.point == t.point && u.seats == t.seats && u.discards == t.discards && u.burned == t.burned
  }

  lemma SameTilesConserve(t: State, u: State, deck: multiset<int>)
    requires Conserves(t, deck) && SameTiles(t, u)
    ensures Conserves(u, deck)
  {
  }

  lemma TileOnWall(t: State, deck: multiset<int>)
    requires Conserves(t, deck) && t.point < |t.wall|
    ensures IsSuitTile(t.wall[t.point]) || IsFlower(t.wall[t.point])
  {
    var c := t.wall[t.point];
    WallStep(t.wall, t.point);
    assert Total(t)[c] > 0;
    assert deck[c] == CodeCount(c);
  }

  function SeatCount(t: State, i: nat, x: int): nat
    requires |t.seats| == 5 && IsSeat(i)
  {
    Bag(t.seats[i])[x]
  }

  lemma TableCount(t: State, deck: multiset<int>, x: int)
    requires Conserves(t, deck)
    ensures SeatCount(t, 1, x) + SeatCount(t, 2, x) + SeatCount(t, 3, x) + SeatCount(t, 4, x) + RestBag(t)[x] == CodeCount(x)
  {
  }

  lemma TwoSeats(t: State, r: nat, s: nat, k: nat, c: int)
    requires |t.seats| == 5 && IsSeat(s) && IsSeat(k)
    requires SeatCount(t, 1, c) + SeatCount(t, 2, c) + SeatCount(t, 3, c) + SeatCount(t, 4, c) + r <= 4
    ensures SeatCount(t, s, c) + (if s == k then 0 else SeatCount(t, k, c)) + r <= 4
  {
    assert s == 1 || s == 2 || s == 3 || s == 4;
    assert k == 1 || k == 2 || k == 3 || k == 4;
  }

  /** At most four copies of a tile are in play. */
  lemma FourCopies(t: State, deck: multiset<int>, s: nat, k: nat, c: int)
    requires Conserves(t, deck) && IsSeat(s) && IsSeat(k)
    ensures SeatCount(t, s, c) + (if s == k then 0 else SeatCount(t, k, c)) + RestBag(t)[c] <= 4
  {
    TableCount(t, deck, c);
    TwoSeats(t, RestBag(t)[c], s, k, c);
  }

  lemma SeatSize(s: Seat)
    requires SeatOk(s)
    ensures |Bag(s)| >= Size(s)
  {
    MeldBagSize(s.melds);
  }

  /** The discards never outgrow their grid of 6 by 17. */
  lemma DiscardsFit(t: State, deck: multiset<int>)
    requires Conserves(t, deck) && forall i :: IsSeat(i) ==> Size(t.seats[i]) >= 16
    ensures |t.discards| <= 80 && (|t.wall| - t.point) + |t.discards| <= 80
  {
    SeatSize(t.seats[1]);
    SeatSize(t.seats[2]);
    SeatSize(t.seats[3]);
    SeatSize(t.seats[4]);
    assert |Total(t)| == |Bag(t.seats[1])| + |Bag(t.seats[2])| + |Bag(t.seats[3])| + |Bag(t.seats[4])| + |RestBag(t)|;
  }
}
