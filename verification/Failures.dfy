/** Inputs and states for which the code does not do what it is for. */
module Failures {
  import opened Tiles
  import opened Deck
  import opened Arbitration
  import opened Seats
  import opened Table
  import opened Round
  import opened Phases
  import opened RoundClaims
  import opened RoundWindow
  import opened RoundOutcome
  import opened NewRound
  import Deal
  import Hands
  import Replica
  import RoundRuns
  import Lobby
  import SampleWall

  // ----- The kang loop -----

  lemma {:induction false} CopiesSorted(low: int, high: int, n: nat)
    ensures Sorted(Copies(low, high, n)) && forall k :: 0 <= k < |Copies(low, high, n)| ==> low <= Copies(low, high, n)[k] <= high
    decreases high - low
  {
    if low <= high { CopiesSorted(low + 1, high, n); }
  }

  /** A sorted hand of four ones, twos, threes and fours: the kang loop loses the fourth one. */
  lemma FourthCopyLost(n: nat) returns (s: seq<int>)
    requires n == 4
    ensures |s| == 20 && s[..16] == Copies(1, 4, n) && Sorted(s[..16]) && multiset(s[..16])[1] == 4
    ensures !Hands.SweepsThree(s, 16, 1)
  {
    CopiesSize(1, 4, n);
    CopiesSorted(1, 4, n);
    CopiesCount(1, 4, n, 1);
    s := Copies(1, 4, n) + [0, 0, 0, 0];
    assert s[..16] == Copies(1, 4, n);
    LastIsFour(n);
    Hands.KangSweepExactly(s, 16, 1);
  }

  lemma LastIsFour(n: nat)
    requires n == 4
    ensures |Copies(1, 4, n)| == 16 && Copies(1, 4, n)[15] != 1
  {
    CopiesSize(1, 4, n);
    CopiesSize(2, 4, n);
    CopiesSorted(2, 4, n);
    assert Copies(1, 4, n)[15] == Copies(2, 4, n)[11];
  }

  // ----- The host's copy of a throw -----

  const FIFTEEN := [2, 3, 4, 5, 6, 7, 8, 9, 11, 12, 13, 14, 15, 16, 17]

  function Buffer(first: seq<int>, extra: int): Replica.Hand {
    Replica.Hand(16, first + [extra, 0, 0, 0])
  }

  lemma FirstSixteen(s: seq<int>, extra: int)
    requires |s| == 16
    ensures Buffer(s, extra).card[..16] == s && Buffer(s, extra).card[..17] == s + [extra] && |Buffer(s, extra).card| == 20
    ensures Buffer(s, extra).card[16] == extra && Buffer(s, extra).card[0] == s[0]
  {
  }

  lemma EntryZero(a: int, mid: seq<int>, b: int, h: Replica.Hand, m: Replica.Hand)
    requires |mid| == 15 && Sorted([a] + mid) && Sorted(mid + [b]) && a != b
    requires h == Buffer([a] + mid, b) && m == Buffer(mid + [b], b)
    ensures Replica.Agree(h, h, true) && Replica.Thrown(h, h, b) && Replica.MirrorThrown(h, m, 0)
    ensures h.card[..h.num] != m.card[..m.num]
  {
    FirstSixteen([a] + mid, b);
    FirstSixteen(mid + [b], b);
    assert multiset(([a] + mid) + [b]) == multiset([a] + mid) + multiset{b};
    assert h.card[0 := b][..16] == [b] + mid;
    assert multiset([b] + mid) == multiset(mid + [b]);
    assert ([a] + mid)[0] == a;
    Replica.MirrorThrowExactly(h, h, h, m, b, 0);
  }

  /** Owner and host agree, the owner throws its extra tile, and the host overwrites entry 0. */
  lemma CopiesPart() returns (h: Replica.Hand, m: Replica.Hand)
    ensures Replica.Agree(h, h, true) && Replica.Thrown(h, h, 18) && Replica.MirrorThrown(h, m, 0)
    ensures h.card[..h.num] != m.card[..m.num]
  {
    h, m := Buffer([1] + FIFTEEN, 18), Buffer(FIFTEEN + [18], 18);
    EntryZero(1, FIFTEEN, 18, h, m);
  }

  // ----- A second join -----

  // Slots 1 and 2 lead tables, slot 3 joins them.

  const START := Lobby.State([0, 0, 0, 0], [0, 0, 0, 0], [0, 0, 0, 0], ["", "", "", ""])
  const FIRST_NAMED := START.(name := ["", "a", "", ""])
  const FIRST_IN := FIRST_NAMED.(login := [0, 2, 0, 0])
  const BOTH_NAMED := FIRST_IN.(name := ["", "a", "b", ""])
  const BOTH_IN := BOTH_NAMED.(login := [0, 2, 2, 0])
  const ONE_OPEN := BOTH_IN.(serv := [0, 1, 0, 0])
  const TWO_OPEN := BOTH_IN.(serv := [0, 1, 1, 0])
  const SEATED := BOTH_IN.(serv := [0, 2, 1, 0], join := [0, 0, 0, 1])

  ghost predicate LeadsTo(s: Lobby.State, e: Lobby.Event, u: Lobby.State) {
    Lobby.Sized(s) && Lobby.Obeys(s, e) && Lobby.Handle(s, e) == u
  }

  lemma NamesGiven()
    ensures LeadsTo(START, Lobby.SetName(1, "a"), FIRST_NAMED)
    ensures LeadsTo(FIRST_NAMED, Lobby.Welcome(1), FIRST_IN)
    ensures LeadsTo(FIRST_IN, Lobby.SetName(2, "b"), BOTH_NAMED)
    ensures LeadsTo(BOTH_NAMED, Lobby.Welcome(2), BOTH_IN)
  {
  }

  lemma NobodySent(join: seq<int>, t: int)
    requires forall k :: 0 <= k < |join| ==> join[k] != t
    ensures Lobby.Dismiss(join, t) == join
  {
  }

  lemma FirstOpens()
    ensures LeadsTo(BOTH_IN, Lobby.Open(1, true), ONE_OPEN)
  {
    NobodySent([0, 0, 0, 0], 1);
  }

  lemma SecondOpens()
    ensures LeadsTo(ONE_OPEN, Lobby.Open(2, true), TWO_OPEN)
  {
    NobodySent([0, 0, 0, 0], 2);
  }

  lemma ThirdJoins()
    ensures LeadsTo(TWO_OPEN, Lobby.Join(3, "a", true), SEATED)
  {
    assert Lobby.FindTable(TWO_OPEN, "a", 1) == 1;
  }

  lemma JoinsAgain()
    ensures Lobby.Sized(SEATED) && Lobby.Handle(SEATED, Lobby.Join(3, "b", true)) == Lobby.JoinTable(SEATED, 3, 2)
  {
    assert "b" != "a";
    assert Lobby.FindTable(SEATED, "b", 2) == 2;
    assert Lobby.FindTable(SEATED, "b", 1) == 2;
  }

  lemma Then(s: Lobby.State, e: Lobby.Event, u: Lobby.State, es: seq<Lobby.Event>, r: Lobby.State)
    returns (more: seq<Lobby.Event>)
    requires LeadsTo(s, e, u) && Lobby.Reaches(u, es, r)
    ensures Lobby.Reaches(s, more, r)
  {
    more := [e] + es;
    assert more[1..] == es;
  }

  lemma SeatedReached() returns (es: seq<Lobby.Event>)
    ensures Lobby.Reaches(START, es, SEATED)
  {
    NamesGiven();
    FirstOpens();
    SecondOpens();
    ThirdJoins();
    es := Then(TWO_OPEN, Lobby.Join(3, "a", true), SEATED, [], SEATED);
    es := Then(ONE_OPEN, Lobby.Open(2, true), TWO_OPEN, es, SEATED);
    es := Then(BOTH_IN, Lobby.Open(1, true), ONE_OPEN, es, SEATED);
    es := Then(BOTH_NAMED, Lobby.Welcome(2), BOTH_IN, es, SEATED);
    es := Then(FIRST_IN, Lobby.SetName(2, "b"), BOTH_NAMED, es, SEATED);
    es := Then(FIRST_NAMED, Lobby.Welcome(1), FIRST_IN, es, SEATED);
    es := Then(START, Lobby.SetName(1, "a"), FIRST_NAMED, es, SEATED);
  }

  /** From the start, two tables are opened and a third player joins one of them; when it then joins the
      other without leaving, the counts are wrong. */
  lemma SecondJoin() returns (es: seq<Lobby.Event>)
    ensures Lobby.Counted(START) && Lobby.Reaches(START, es, SEATED)
    ensures Lobby.Sized(SEATED) && !Lobby.Counted(Lobby.Handle(SEATED, Lobby.Join(3, "b", true)))
  {
    Lobby.StartCounted(START);
    es := SeatedReached();
    Lobby.RunCounted(START, es, SEATED);
    JoinsAgain();
    Lobby.JoinCountedExactly(SEATED, 3, 2);
  }

  // ----- The opening -----

  function SampleRows(n: nat): seq<seq<int>> {
    [[], SampleWall.FirstHand(n), SampleWall.SecondHand(n), SampleWall.ThirdHand(n), SampleWall.FourthHand(n)]
  }

  const NO_FLOWERS: seq<multiset<int>> := [multiset{}, multiset{}, multiset{}, multiset{}, multiset{}]

  /** The second seat deals and is dealt three fives and a fourth. */
  function SampleDeal(n: nat): Dealt {
    Dealt(SampleWall.Wall(n), 65, SampleRows(n), 5, NO_FLOWERS, 2)
  }

  lemma SuitTileOfMix(a: int, low: int, high: int, b: int, n: nat, x: int)
    requires IsSuitTile(a) && IsSuitTile(b) && 1 <= low <= high <= 19 && low / 10 == high / 10 && low % 10 > 0
    requires x in multiset([a, a, a] + Copies(low, high, n) + [b])
    ensures IsSuitTile(x)
  {
    SampleWall.MixedCount(a, low, high, b, n, x);
  }

  lemma SuitHands(n: nat, i: nat, x: int)
    requires n == 4 && IsSeat(i) && x in multiset(SampleRows(n)[i])
    ensures IsSuitTile(x)
  {
    if i == 1 {
      SampleWall.FirstCount(n, x);
    } else if i == 2 {
      SuitTileOfMix(5, 6, 8, 9, n, x);
    } else if i == 3 {
      SuitTileOfMix(9, 11, 13, 14, n, x);
    } else {
      SuitTileOfMix(14, 15, 17, 18, n, x);
    }
  }

  /** The tiles of the hands, one more tile, and the rest are the whole. */
  lemma DealtBag(r: seq<seq<int>>, t: int, rest: seq<int>)
    requires |r| == 5
    ensures Deal.RowsBag(r) + multiset{t} + Deal.FlowersBag(NO_FLOWERS) + multiset(rest)
            == multiset(r[1] + r[2] + r[3] + r[4] + [t] + rest)
  {
  }

  lemma WallOfRows(n: nat)
    requires n == 4
    ensures |SampleWall.Wall(n)| == 144
    ensures SampleWall.Wall(n) == SampleWall.FourHands(n) + [5] + SampleWall.Wall(n)[65..]
  {
    SampleWall.Sizes(n);
    var w, h := SampleWall.Wall(n), SampleWall.FourHands(n) + [5];
    assert |h| == 65 && w[..65] == h;
    assert w == w[..65] + w[65..];
  }

  lemma CleanRow(n: nat, i: nat)
    requires n == 4 && IsSeat(i)
    ensures |SampleRows(n)[i]| == 16 && Deal.NoFlower(SampleRows(n)[i])
  {
    SampleWall.Sizes(n);
    forall k | 0 <= k < |SampleRows(n)[i]| ensures !IsFlower(SampleRows(n)[i][k]) {
      SuitHands(n, i, SampleRows(n)[i][k]);
    }
  }

  lemma DealConserves(n: nat)
    requires n == 4
    ensures |SampleWall.Wall(n)| == 144
    ensures Deal.RowsBag(SampleRows(n)) + multiset{5} + Deal.FlowersBag(NO_FLOWERS) + multiset(SampleWall.Wall(n)[65..])
            == multiset(SampleWall.Wall(n))
  {
    WallOfRows(n);
    DealtBag(SampleRows(n), 5, SampleWall.Wall(n)[65..]);
  }

  /** What a deal of `rows` and the extra tile `t` from the wall `w` takes. */
  ghost predicate DealtFrom(w: seq<int>, rows: seq<seq<int>>, t: int) {
    && |w| == 144 && IsDeck(multiset(w)) && RowsClean(rows) && !IsFlower(t)
    && Deal.RowsBag(rows) + multiset{t} + Deal.FlowersBag(NO_FLOWERS) + multiset(w[65..]) == multiset(w)
  }

  lemma SampleDealt(n: nat)
    requires n == 4
    ensures DealtFrom(SampleWall.Wall(n), SampleRows(n), 5)
  {
    SampleWall.WallIsDeck(n);
    DealConserves(n);
    AllRowsClean(n);
  }

  lemma DealIsFull(n: nat)
    requires n == 4
    ensures FullyDealt(SampleDeal(n))
  {
    SampleDealt(n);
    FullFrom(SampleWall.Wall(n), SampleRows(n), 5, 2);
  }

  ghost predicate RowsClean(rows: seq<seq<int>>) {
    |rows| == 5 && forall i :: IsSeat(i) ==> |rows[i]| == 16 && Deal.NoFlower(rows[i])
  }

  lemma AllRowsClean(n: nat)
    requires n == 4
    ensures RowsClean(SampleRows(n))
  {
    forall i | IsSeat(i) ensures |SampleRows(n)[i]| == 16 && Deal.NoFlower(SampleRows(n)[i]) { CleanRow(n, i); }
  }

  lemma FullFrom(w: seq<int>, rows: seq<seq<int>>, t: int, dealer: nat)
    requires DealtFrom(w, rows, t) && IsSeat(dealer)
    ensures FullyDealt(Dealt(w, 65, rows, t, NO_FLOWERS, dealer))
  {
  }

  lemma ThreeFives(n: nat)
    requires n == 4
    ensures OpeningFlags(SampleDeal(n)).kang == 1
  {
    SampleWall.MixedCount(5, 6, 8, 9, n, 5);
  }

  lemma AnyDealStalls(d: Dealt, t: State, c: int)
    requires FullyDealt(d) && d.dealer == 2 && OpeningFlags(d).kang == 1 && Shape(t) && Over(t) && t.outcome != Exhausted
    ensures !Inv(Opened(t, d), multiset(d.wall)) && Stuck(Throws(Opened(t, d), 2, c), 2)
  {
    NextRoundStarts(t, d);
    UnaskedDealerStalls(t, d, c);
  }

  /** A legal deal in which the second seat deals and may declare a kang at once. */
  lemma StallDealt(n: nat) returns (d: Dealt)
    requires n == 4
    ensures FullyDealt(d) && d.dealer == 2 && OpeningFlags(d).kang == 1
  {
    d := SampleDeal(n);
    DealIsFull(n);
    ThreeFives(n);
  }

  /** After it the round stalls at its first throw, whatever the tile. */
  lemma OpeningStalls(n: nat, t: State) returns (d: Dealt)
    requires n == 4 && Shape(t) && Over(t) && t.outcome != Exhausted
    ensures FullyDealt(d) && d.dealer == 2 && OpeningFlags(d).kang == 1
    ensures !Inv(Opened(t, d), multiset(d.wall)) && forall c :: Stuck(Throws(Opened(t, d), 2, c), 2)
  {
    d := StallDealt(n);
    forall c ensures Stuck(Throws(Opened(t, d), 2, c), 2) { AnyDealStalls(d, t, c); }
    AnyDealStalls(d, t, 5);
  }

  // ----- The kang at the opening -----

  /** The first hand with its extra tile exchanged for one of its own. */
  function ExchangedWall(row: seq<int>, r: seq<seq<int>>, t: int, rest: seq<int>): seq<int>
    requires |r| == 5
  {
    row + r[2] + r[3] + r[4] + [t] + rest
  }

  lemma ExchangedBag(w: seq<int>, r: seq<seq<int>>, e: int, row: seq<int>, t: int)
    requires DealtFrom(w, r, e) && multiset(row) + multiset{t} == multiset(r[1]) + multiset{e}
    ensures multiset(ExchangedWall(row, r, t, w[65..])) == multiset(w)
  {
    DealtBag(r, e, w[65..]);
    SameButRow(row, r[1], r, t, e, w[65..]);
  }

  lemma SameButRow(row: seq<int>, was: seq<int>, r: seq<seq<int>>, t: int, e: int, rest: seq<int>)
    requires |r| == 5 && multiset(row) + multiset{t} == multiset(was) + multiset{e}
    ensures multiset(ExchangedWall(row, r, t, rest)) == multiset(ExchangedWall(was, r, e, rest))
  {
    var others := r[2] + r[3] + r[4];
    assert ExchangedWall(row, r, t, rest) == row + others + [t] + rest;
    assert ExchangedWall(was, r, e, rest) == was + others + [e] + rest;
    SwappedRow(row, was, t, e, others, rest);
  }

  lemma ExchangedRows(r: seq<seq<int>>, row: seq<int>, t: int, rest: seq<int>)
    requires |r| == 5
    ensures Deal.RowsBag(r[1 := row]) + multiset{t} + Deal.FlowersBag(NO_FLOWERS) + multiset(rest)
            == multiset(ExchangedWall(row, r, t, rest))
  {
    DealtBag(r[1 := row], t, rest);
  }

  lemma SwappedRow(a: seq<int>, b: seq<int>, t: int, e: int, others: seq<int>, rest: seq<int>)
    requires multiset(a) + multiset{t} == multiset(b) + multiset{e}
    ensures multiset(a + others + [t] + rest) == multiset(b + others + [e] + rest)
  {
    RowAndTile(a, t, others, rest);
    RowAndTile(b, e, others, rest);
  }

  lemma RowAndTile(a: seq<int>, t: int, others: seq<int>, rest: seq<int>)
    ensures multiset(a + others + [t] + rest) == (multiset(a) + multiset{t}) + (multiset(others) + multiset(rest))
  {
  }

  lemma ExchangedDealt(w: seq<int>, r: seq<seq<int>>, e: int, row: seq<int>, t: int)
    requires DealtFrom(w, r, e) && multiset(row) + multiset{t} == multiset(r[1]) + multiset{e}
    requires |row| == 16 && Deal.NoFlower(row) && !IsFlower(t)
    ensures DealtFrom(ExchangedWall(row, r, t, w[65..]), r[1 := row], t)
  {
    ExchangedBag(w, r, e, row, t);
    ExchangedRows(r, row, t, w[65..]);
    ExchangedSize(row, r, t, w[65..]);
  }

  lemma ExchangedSize(row: seq<int>, r: seq<seq<int>>, t: int, rest: seq<int>)
    requires |row| == 16 && RowsClean(r)
    ensures |ExchangedWall(row, r, t, rest)| == 65 + |rest| && ExchangedWall(row, r, t, rest)[65..] == rest
  {
  }

  /** Three ones, four twos, threes and fours, and a five. */
  function KangHand(n: nat): seq<int> {
    [1, 1, 1] + Copies(2, 4, n) + [5]
  }

  lemma KangHandClean(n: nat)
    requires n == 4
    ensures |KangHand(n)| == 16 && Deal.NoFlower(KangHand(n))
  {
    CopiesSize(2, 4, n);
    CopiesSorted(2, 4, n);
  }

  lemma KangHandTiles(n: nat)
    requires n == 4
    ensures multiset(KangHand(n)) + multiset{1} == multiset(Copies(1, 4, n)) + multiset{5}
  {
    forall x ensures (multiset(KangHand(n)) + multiset{1})[x] == (multiset(Copies(1, 4, n)) + multiset{5})[x] {
      KangHandCount(n, x);
    }
  }

  lemma KangHandCount(n: nat, x: int)
    requires n == 4
    ensures multiset(KangHand(n))[x] + SampleWall.Among(x, 1, 1, 1) == multiset(Copies(1, 4, n))[x] + SampleWall.Among(x, 5, 5, 1)
  {
    SampleWall.MixedCount(1, 2, 4, 5, n, x);
    CopiesCount(1, 4, n, x);
  }

  /** The host deals itself these and a fourth one. */
  function KangDeal(n: nat, rest: seq<int>): Dealt {
    Dealt(ExchangedWall(KangHand(n), SampleRows(n), 1, rest), 65, SampleRows(n)[1 := KangHand(n)], 1, NO_FLOWERS, 1)
  }

  lemma KangDealt(n: nat, w: seq<int>)
    requires n == 4 && DealtFrom(w, SampleRows(n), 5)
    ensures FullyDealt(KangDeal(n, w[65..]))
  {
    KangHandTiles(n);
    KangHandClean(n);
    ExchangedDealt(w, SampleRows(n), 5, KangHand(n), 1);
    FullFrom(ExchangedWall(KangHand(n), SampleRows(n), 1, w[65..]), SampleRows(n)[1 := KangHand(n)], 1, 1);
  }

  lemma KangDealFull(n: nat) returns (rest: seq<int>)
    requires n == 4
    ensures FullyDealt(KangDeal(n, rest))
  {
    SampleDealt(n);
    rest := SampleWall.Wall(n)[65..];
    KangDealt(n, SampleWall.Wall(n));
  }

  lemma OnesToFive(n: nat)
    requires n == 4
    ensures var s := Copies(1, 4, n) + [5]; Sorted(s) && |s| == 17 && s[16] == 5 && s[15] <= 4
  {
    CopiesSize(1, 4, n);
    CopiesSorted(1, 4, n);
  }

  lemma KangDealTiles(n: nat, d: Dealt)
    requires n == 4 && FullyDealt(d) && d.dealer == 1 && d.rows[1] == KangHand(n) && d.extra == 1
    ensures DealerTiles(d) == Copies(1, 4, n) + [5]
  {
    KangHandTiles(n);
    OnesToFive(n);
    SeventeenTiles(d);
    assert multiset(Copies(1, 4, n) + [5]) == multiset(Copies(1, 4, n)) + multiset{5};
    SortedUnique(DealerTiles(d), Copies(1, 4, n) + [5]);
  }

  lemma ThreeOnes(n: nat)
    requires n == 4
    ensures multiset(KangHand(n))[1] == 3
  {
    KangHandCount(n, 1);
    CopiesCount(1, 4, n, 1);
  }

  lemma KangDealWrong(n: nat, d: Dealt)
    requires n == 4 && FullyDealt(d) && d.dealer == 1 && d.rows[1] == KangHand(n) && d.extra == 1
    ensures WrongOpening(d)
  {
    KangDealTiles(n, d);
    OnesToFive(n);
    ThreeOnes(n);
  }

  /** The host answers kang, and the loop carries it out. */
  lemma KangLoses(t: State, d: Dealt)
    requires FullyDealt(d) && WrongOpening(d) && |t.flags| == 5 && !t.nextRequest && !t.sendRequest
    ensures var o := Opened(t, d);
            Shape(o) && Inv(o, multiset(d.wall)) && Enabled(o, Answer(1, 3)) && Enabled(Step(o, Answer(1, 3)), Loop)
            && !Conserves(Step(Step(o, Answer(1, 3)), Loop), multiset(d.wall))
  {
    var o := Opened(t, d);
    NextRoundStarts(t, d);
    OpenedDecides(t, d);
    OpenedEndangered(t, d);
    RoundRuns.KangDeclared(o, multiset(d.wall));
    RoundRuns.DeclaredMisses(Answers(o, 1, 3), multiset(d.wall));
  }

  /** Whatever came before, a legal deal after which an opening kang loses tiles. */
  lemma OpeningKangLoses(n: nat, t: State) returns (d: Dealt)
    requires n == 4 && |t.flags| == 5 && !t.nextRequest && !t.sendRequest
    ensures FullyDealt(d) && d.dealer == 1 && d.rows[1] == KangHand(n) && d.extra == 1
    ensures var o := Opened(t, d);
            Shape(o) && Inv(o, multiset(d.wall)) && Enabled(o, Answer(1, 3)) && Enabled(Step(o, Answer(1, 3)), Loop)
            && !Conserves(Step(Step(o, Answer(1, 3)), Loop), multiset(d.wall))
  {
    var rest := KangDealFull(n);
    d := KangDeal(n, rest);
    KangDealWrong(n, d);
    KangLoses(t, d);
  }

  // ----- The end of the wall -----

  function SampleSeat(n: nat, i: nat): Seat
    requires i < 5
  {
    Seat(multiset(SampleRows(n)[i]), NoTile, [], multiset{})
  }

  /** Sixty-four tiles have been thrown, the last one by the host, and everybody has passed. */
  ghost function LateTable(n: nat): State {
    State(SampleWall.Wall(n), 128, seq(5, i requires 0 <= i < 5 => SampleSeat(n, i)), [5] + SampleWall.Middle(n), multiset{},
          1, 1, 41, WAITING, seq(5, i requires 0 <= i < 5 => ClaimFlags(SampleSeat(n, i), 41, i == 2)),
          NONE_ASKED, NONE_ASKED, NO_ANSWER, true, false, false, false, false, false, Playing)
  }

  lemma LastThrown(n: nat)
    requires n == 4
    ensures ([5] + SampleWall.Middle(n))[63] == 41
  {
    SampleWall.Sizes(n);
    var last := Copies(41, 41, n);
    CopiesSize(41, 41, n);
    CopiesCount(41, 41, n, last[3]);
    assert last[3] in multiset(last);
    assert ([5] + SampleWall.Middle(n))[63] == last[3];
  }

  lemma LateRest(n: nat)
    requires n == 4
    ensures |SampleWall.Wall(n)| == 144 && SampleWall.Wall(n)[128..] == SampleWall.Last(n)
  {
    SampleWall.Sizes(n);
    var w := SampleWall.Wall(n);
    var before := SampleWall.FourHands(n) + [5] + SampleWall.Middle(n);
    assert |before| == 128 && w == before + SampleWall.Last(n);
  }

  lemma SampleBag(n: nat, i: nat)
    requires n == 4 && IsSeat(i)
    ensures SeatOk(SampleSeat(n, i)) && Size(SampleSeat(n, i)) == 16 && Bag(SampleSeat(n, i)) == multiset(SampleRows(n)[i])
  {
    CleanRow(n, i);
    forall x | x in multiset(SampleRows(n)[i]) ensures IsSuitTile(x) { SuitHands(n, i, x); }
  }

  lemma LateBag(r: seq<seq<int>>, t: int, b: seq<int>, c: seq<int>)
    requires |r| == 5
    ensures multiset(r[1]) + multiset(r[2]) + multiset(r[3]) + multiset(r[4]) + (multiset([t] + b) + multiset{} + multiset(c))
            == multiset(r[1] + r[2] + r[3] + r[4] + [t] + b + c)
  {
  }

  lemma LateDeck(t: State, deck: multiset<int>, r: seq<seq<int>>, b: seq<int>, c: seq<int>)
    requires Shape(t) && IsDeck(deck) && |t.wall| == 144 && |r| == 5
    requires forall i :: IsSeat(i) ==> SeatOk(t.seats[i]) && Bag(t.seats[i]) == multiset(r[i])
    requires t.discards == [5] + b && t.burned == multiset{} && t.wall[t.point..] == c
    requires deck == multiset(r[1] + r[2] + r[3] + r[4] + [5] + b + c)
    ensures Conserves(t, deck)
  {
    LateBag(r, 5, b, c);
  }

  lemma LateShape(n: nat, t: State)
    requires n == 4 && t == LateTable(n)
    ensures Shape(t) && |t.wall| == 144 && t.wall == SampleWall.Wall(n) && t.wall[t.point..] == SampleWall.Last(n)
    ensures t.discards == [5] + SampleWall.Middle(n) && t.burned == multiset{}
    ensures forall i :: IsSeat(i) ==> t.seats[i] == SampleSeat(n, i)
  {
    LateRest(n);
  }

  lemma LateConserves(n: nat, t: State)
    requires n == 4 && t == LateTable(n)
    ensures Conserves(t, multiset(SampleWall.Wall(n)))
  {
    LateShape(n, t);
    SampleWall.WallIsDeck(n);
    forall i | IsSeat(i) ensures SeatOk(t.seats[i]) && Bag(t.seats[i]) == multiset(SampleRows(n)[i]) { SampleBag(n, i); }
    LateDeck(t, multiset(SampleWall.Wall(n)), SampleRows(n), SampleWall.Middle(n), SampleWall.Last(n));
  }

  lemma LateWaits(n: nat, t: State)
    requires n == 4 && t == LateTable(n)
    ensures Shape(t) && AllWait(t)
  {
    LateRest(n);
    forall i | IsSeat(i) ensures Size(t.seats[i]) == 16 { SampleBag(n, i); }
  }

  /** Everybody has passed. */
  lemma AllPassed(t: State)
    requires Shape(t) && AllWait(t) && t.checkOn && !t.nextOn && !t.nextRequest && !t.sendOn && !t.sendRequest && !t.getting
    requires t.owner == t.turn && t.inCheck == t.told == NONE_ASKED && t.checkFor == NO_ANSWER
    requires t.discards != [] && t.discards[|t.discards| - 1] == t.current && IsSuitTile(t.current)
    requires forall i :: IsSeat(i) && i != t.turn ==> t.flags[i] == ClaimFlags(t.seats[i], t.current, i == NextSeat(t.turn))
    ensures Window(t) && !StillAsked(t)
  {
    forall i | IsSeat(i) && i != t.turn ensures AskedRightly(t, i) {
      assert t.checkFor[i] == 0 && !t.inCheck[i] && !t.told[i];
    }
  }

  lemma NobodyWants(owner: nat)
    requires IsSeat(owner)
    ensures Decide(NO_ANSWER, owner) == Nobody
  {
    DecideSettles(NO_ANSWER, owner);
  }

  lemma LateWindow(n: nat, t: State)
    requires n == 4 && t == LateTable(n)
    ensures Shape(t) && Window(t) && !StillAsked(t) && VerdictOf(t) == Nobody
  {
    LateWaits(n, t);
    LastThrown(n);
    SampleWall.Sizes(n);
    AllPassed(t);
    NobodyWants(1);
  }

  lemma PassAtTheEnd(t: State, d: Dealt)
    requires Answered(t, multiset(t.wall)) && VerdictOf(t) == Nobody && 144 - t.point <= 16 && FullyDealt(d)
    ensures LoopStep(t).outcome == Exhausted
    ensures var u := LoopStep(Opened(LoopStep(t), d)); var k := NextSeat(d.dealer);
            u.turn == k && u.mode[d.dealer] == Throw && u.mode[k] == Get
  {
    WindowResolves(t, multiset(t.wall));
    RoundRuns.LoopAfterPass(t, multiset(t.wall));
    ExhaustedSkipsDealer(LoopStep(t), d);
  }

  lemma LateTableAnswered(n: nat) returns (t: State)
    requires n == 4
    ensures Answered(t, multiset(t.wall)) && VerdictOf(t) == Nobody && t.point == 128
  {
    t := LateTable(n);
    LateConserves(n, t);
    LateWindow(n, t);
  }

  /** A table of the invariant at which the loop finds the wall exhausted; after any deal the next round
      then gives two seats something to do at once. */
  lemma WallEnds(n: nat, d: Dealt) returns (t: State, u: State)
    requires n == 4 && FullyDealt(d)
    ensures Inv(t, multiset(t.wall)) && Enabled(t, Loop) && u == Step(t, Loop) && u.outcome == Exhausted
    ensures Shape(u) && Enabled(Opened(u, d), Loop)
    ensures var v := Step(Opened(u, d), Loop); var k := NextSeat(d.dealer);
            v.turn == k && v.mode[d.dealer] == Throw && v.mode[k] == Get
  {
    t := LateTableAnswered(n);
    PassAtTheEnd(t, d);
    u := LoopStep(t);
  }
}
