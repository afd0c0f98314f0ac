/** Who gets a tile when several seats answer: the order of seats and of claims. */
module Arbitration {

  predicate IsSeat(i: int) {
    1 <= i <= 4
  }

  /** The seat after `i` when all four are taken. */
  function NextSeat(i: nat): (k: nat)
    requires IsSeat(i)
    ensures IsSeat(k)
  {
    if i == 4 then 1 else i + 1
  }

  /** How many seats after `from` the seat `i` comes: 1 to 4, `from` itself last. */
  function Distance(from: nat, i: nat): (d: int)
    requires IsSeat(from) && IsSeat(i)
    ensures 1 <= d <= 4
  {
    if i > from then i - from else i - from + 4
  }

  // ----- Seats of which some are empty -----

  /** `table` holds the player at each seat, 0 for an empty one. */
  ghost predicate Seated(table: seq<nat>) {
    |table| == 5 && (table[1] != 0 || table[2] != 0 || table[3] != 0 || table[4] != 0)
  }

  /** How far the next taken seat is. */
  ghost function Gap(table: seq<nat>, i: nat): nat
    requires Seated(table) && IsSeat(i)
  {
    var a := NextSeat(i);
    var b := NextSeat(a);
    if table[a] != 0 then 1 else if table[b] != 0 then 2 else if table[NextSeat(b)] != 0 then 3 else 4
  }

  /** The next taken seat: the recursion ends because some seat is taken. */
  function NextTurn(table: seq<nat>, current: nat): (k: nat)
    requires Seated(table) && IsSeat(current)
    ensures IsSeat(k) && table[k] != 0
    decreases Gap(table, current)
  {
    var k := NextSeat(current);
    if table[k] != 0 then k else NextTurn(table, k)
  }

  lemma NextTurnWhenFull(table: seq<nat>, i: nat)
    requires Seated(table) && IsSeat(i) && forall k :: IsSeat(k) ==> table[k] != 0
    ensures NextTurn(table, i) == NextSeat(i)
  {
  }

  function One(b: bool): nat {
    if b then 1 else 0
  }

  /** How many of the first `d` seats after `from` are taken. */
  ghost function TakenWithin(table: seq<nat>, from: nat, d: nat): nat
    requires Seated(table) && IsSeat(from)
  {
    var a := NextSeat(from);
    var b := NextSeat(a);
    var c := NextSeat(b);
    One(d >= 1 && table[a] != 0) + One(d >= 2 && table[b] != 0) + One(d >= 3 && table[c] != 0) + One(d >= 4 && table[from] != 0)
  }

  ghost function Taken(table: seq<nat>): nat
    requires Seated(table)
  {
    TakenWithin(table, 1, 4)
  }

  ghost function Rank(table: seq<nat>, from: nat, i: nat): nat
    requires Seated(table) && IsSeat(from) && IsSeat(i)
  {
    TakenWithin(table, from, Distance(from, i))
  }

  /** The seat reached by asking for the next turn `n` times. */
  function Turns(table: seq<nat>, from: nat, n: nat): (k: nat)
    requires Seated(table) && IsSeat(from)
    ensures IsSeat(k)
  {
    if n == 0 then from else NextTurn(table, Turns(table, from, n - 1))
  }

  lemma NextTurnUnfolded(table: seq<nat>, i: nat)
    requires Seated(table) && IsSeat(i)
    ensures var a := NextSeat(i); var b := NextSeat(a); var c := NextSeat(b);
            NextTurn(table, i) == if table[a] != 0 then a else if table[b] != 0 then b else if table[c] != 0 then c else i
  {
    var a := NextSeat(i);
    var b := NextSeat(a);
    var c := NextSeat(b);
    if table[a] == 0 {
      assert NextTurn(table, i) == NextTurn(table, a);
      if table[b] == 0 {
        assert NextTurn(table, a) == NextTurn(table, b);
        if table[c] == 0 {
          assert NextTurn(table, b) == NextTurn(table, c);
        }
      }
    }
  }

  lemma TakenFrom(table: seq<nat>, from: nat)
    requires Seated(table) && IsSeat(from)
    ensures TakenWithin(table, from, 4) == Taken(table)
  {
  }

  lemma RankAfterFirst(table: seq<nat>, from: nat)
    requires Seated(table) && IsSeat(from) && table[NextSeat(from)] != 0 && Rank(table, from, NextSeat(from)) < Taken(table)
    ensures Rank(table, from, NextTurn(table, NextSeat(from))) == 2
  {
    TakenFrom(table, from);
    NextTurnUnfolded(table, NextSeat(from));
  }

  lemma RankAfterSecond(table: seq<nat>, from: nat, i: nat)
    requires Seated(table) && IsSeat(from) && i == NextSeat(NextSeat(from))
    requires table[i] != 0 && Rank(table, from, i) < Taken(table)
    ensures Rank(table, from, NextTurn(table, i)) == Rank(table, from, i) + 1
  {
    TakenFrom(table, from);
    NextTurnUnfolded(table, i);
  }

  /** From a taken seat the next turn is the next one in the round. */
  lemma RankOfNext(table: seq<nat>, from: nat, i: nat)
    requires Seated(table) && IsSeat(from) && IsSeat(i)
    requires table[i] != 0 && Rank(table, from, i) < Taken(table)
    ensures Rank(table, from, NextTurn(table, i)) == Rank(table, from, i) + 1
  {
    TakenFrom(table, from);
    if i == NextSeat(from) {
      RankAfterFirst(table, from);
    } else if i == NextSeat(NextSeat(from)) {
      RankAfterSecond(table, from, i);
    } else {
      NextTurnUnfolded(table, i);
    }
  }

  lemma RankOfFirst(table: seq<nat>, from: nat)
    requires Seated(table) && IsSeat(from)
    ensures Rank(table, from, NextTurn(table, from)) == 1 <= Taken(table)
  {
    NextTurnUnfolded(table, from);
  }

  lemma {:induction false} RankOfTurns(table: seq<nat>, from: nat, n: nat)
    requires Seated(table) && IsSeat(from) && 1 <= n <= Taken(table)
    ensures table[Turns(table, from, n)] != 0 && Rank(table, from, Turns(table, from, n)) == n
  {
    if n == 1 {
      assert Turns(table, from, 0) == from;
      RankOfFirst(table, from);
    } else {
      RankOfTurns(table, from, n - 1);
      RankOfNext(table, from, Turns(table, from, n - 1));
    }
  }

  lemma RankTellsSeats(table: seq<nat>, from: nat, i: nat, k: nat)
    requires Seated(table) && IsSeat(from) && IsSeat(i) && IsSeat(k) && table[i] != 0 && table[k] != 0
    ensures 1 <= Rank(table, from, i) <= Taken(table)
    ensures Rank(table, from, i) == Rank(table, from, k) ==> i == k
  {
  }

  /** Going on to the next turn as often as there are players visits every taken seat exactly once. */
  lemma EverySeatOnce(table: seq<nat>, from: nat, i: nat, n: nat)
    requires Seated(table) && IsSeat(from) && IsSeat(i) && table[i] != 0 && 1 <= n <= Taken(table)
    ensures 1 <= Rank(table, from, i) <= Taken(table)
    ensures Turns(table, from, n) == i <==> n == Rank(table, from, i)
  {
    RankTellsSeats(table, from, i, i);
    RankOfTurns(table, from, n);
    RankOfTurns(table, from, Rank(table, from, i));
    RankTellsSeats(table, from, i, Turns(table, from, Rank(table, from, i)));
  }

  // ----- One answer per seat -----

  /** The answers: 0 pass, 2 pong, 3 kang, 4 win, 7 to 9 eat. */
  datatype Verdict = Win(seat: nat) | Kang(seat: nat) | Pong(seat: nat) | Eat(seat: nat, code: int) | Nobody

  predicate IsEat(a: int) {
    7 <= a <= 9
  }

  ghost predicate NoneAnswers(checkFor: seq<int>, a: int)
    requires |checkFor| == 5
  {
    forall i :: IsSeat(i) ==> checkFor[i] != a
  }

  ghost predicate NoEater(checkFor: seq<int>)
    requires |checkFor| == 5
  {
    forall i :: IsSeat(i) ==> !IsEat(checkFor[i])
  }

  /** The one action taken on a set of answers: a win goes before a kang, a kang before a pong, a
      pong before an eat; of several winners the first after the owner of the tile. */
  ghost predicate Settles(checkFor: seq<int>, owner: nat, v: Verdict)
    requires |checkFor| == 5 && IsSeat(owner)
  {
    match v
    case Win(w) => IsSeat(w) && checkFor[w] == 4
      && forall i :: IsSeat(i) && checkFor[i] == 4 ==> Distance(owner, w) <= Distance(owner, i)
    case Kang(k) => IsSeat(k) && checkFor[k] == 3 && NoneAnswers(checkFor, 4)
    case Pong(k) => IsSeat(k) && checkFor[k] == 2 && NoneAnswers(checkFor, 4) && NoneAnswers(checkFor, 3)
    case Eat(k, code) => IsSeat(k) && IsEat(code) && checkFor[k] == code && NoneAnswers(checkFor, 4) && NoneAnswers(checkFor, 3)
      && NoneAnswers(checkFor, 2)
    case Nobody => NoneAnswers(checkFor, 4) && NoneAnswers(checkFor, 3) && NoneAnswers(checkFor, 2) && NoEater(checkFor)
  }

  /** At most one seat answers kang, at most one pong, at most one eat. */
  ghost predicate OneClaimEach(checkFor: seq<int>)
    requires |checkFor| == 5
  {
    forall i, k :: IsSeat(i) && IsSeat(k) && i != k ==>
      !(checkFor[i] == 3 && checkFor[k] == 3) && !(checkFor[i] == 2 && checkFor[k] == 2)
      && !(IsEat(checkFor[i]) && IsEat(checkFor[k]))
  }

  /** The answers then leave only one possible action, in whatever order the seats are looked at. */
  lemma VerdictUnique(checkFor: seq<int>, owner: nat, v: Verdict, w: Verdict)
    requires |checkFor| == 5 && IsSeat(owner) && OneClaimEach(checkFor)
    requires Settles(checkFor, owner, v) && Settles(checkFor, owner, w)
    ensures v == w
  {
  }

  /** The lowest seat with a given answer, or 5. */
  function Lowest(checkFor: seq<int>, a: int, i: nat): (k: nat)
    requires |checkFor| == 5 && 1 <= i <= 5
    ensures i <= k <= 5 && (k < 5 ==> checkFor[k] == a)
    ensures forall j :: i <= j < k ==> checkFor[j] != a
    decreases 5 - i
  {
    if i == 5 then 5 else if checkFor[i] == a then i else Lowest(checkFor, a, i + 1)
  }

  function LowestEater(checkFor: seq<int>, i: nat): (k: nat)
    requires |checkFor| == 5 && 1 <= i <= 5
    ensures i <= k <= 5 && (k < 5 ==> IsEat(checkFor[k]))
    ensures forall j :: i <= j < k ==> !IsEat(checkFor[j])
    decreases 5 - i
  {
    if i == 5 then 5 else if IsEat(checkFor[i]) then i else LowestEater(checkFor, i + 1)
  }

  /** The first winner after a seat, looking at `n` more seats, or 0. */
  function NearestWin(checkFor: seq<int>, from: nat, n: nat): (k: nat)
    requires |checkFor| == 5 && IsSeat(from)
    ensures k != 0 ==> IsSeat(k) && checkFor[k] == 4
    decreases n
  {
    if n == 0 then 0
    else if checkFor[NextSeat(from)] == 4 then NextSeat(from)
    else NearestWin(checkFor, NextSeat(from), n - 1)
  }

  lemma NearestWinIsNearest(checkFor: seq<int>, owner: nat)
    requires |checkFor| == 5 && IsSeat(owner)
    ensures var w := NearestWin(checkFor, owner, 4);
            if w == 0 then NoneAnswers(checkFor, 4) else Settles(checkFor, owner, Win(w))
  {
    var a := NextSeat(owner);
    var b := NextSeat(a);
    var c := NextSeat(b);
    assert NextSeat(c) == owner;
    assert NearestWin(checkFor, c, 1) == if checkFor[owner] == 4 then owner else 0;
    assert NearestWin(checkFor, b, 2) == if checkFor[c] == 4 then c else NearestWin(checkFor, c, 1);
    assert NearestWin(checkFor, a, 3) == if checkFor[b] == 4 then b else NearestWin(checkFor, b, 2);
  }

  predicate Proper(v: Verdict) {
    (v.Kang? || v.Pong? || v.Eat? || v.Win? ==> IsSeat(v.seat)) && (v.Eat? ==> IsEat(v.code))
  }

  /** The action `compare_check` takes. */
  function Decide(checkFor: seq<int>, owner: nat): (v: Verdict)
    requires |checkFor| == 5 && IsSeat(owner)
    ensures Proper(v)
  {
    var w := NearestWin(checkFor, owner, 4);
    if w != 0 then Win(w)
    else if Lowest(checkFor, 3, 1) < 5 then Kang(Lowest(checkFor, 3, 1))
    else if Lowest(checkFor, 2, 1) < 5 then Pong(Lowest(checkFor, 2, 1))
    else if LowestEater(checkFor, 1) < 5 then Eat(LowestEater(checkFor, 1), checkFor[LowestEater(checkFor, 1)])
    else Nobody
  }

  lemma DecideSettles(checkFor: seq<int>, owner: nat)
    requires |checkFor| == 5 && IsSeat(owner)
    ensures Settles(checkFor, owner, Decide(checkFor, owner))
  {
    NearestWinIsNearest(checkFor, owner);
  }

  lemma NearestCount(from: nat, i: nat)
    requires IsSeat(from) && IsSeat(i)
    ensures Distance(from, i) - 1 == (i - from - 1) % 4
  {
  }

  /** A win answered by any seat goes first, the nearest after the owner; then the lowest seat with a
      kang, with a pong, with an eat. */
  lemma DecideRanks(checkFor: seq<int>, owner: nat)
    requires |checkFor| == 5 && IsSeat(owner)
    ensures var v := Decide(checkFor, owner);
            && (forall i :: IsSeat(i) && checkFor[i] == 4 ==> v.Win? && (v.seat - owner - 1) % 4 <= (i - owner - 1) % 4)
            && (forall i :: IsSeat(i) && checkFor[i] == 3 ==> v.Win? || (v.Kang? && v.seat <= i))
            && (forall i :: IsSeat(i) && checkFor[i] == 2 ==> v.Win? || v.Kang? || (v.Pong? && v.seat <= i))
            && (forall i :: IsSeat(i) && 7 <= checkFor[i] <= 9 ==> v.Win? || v.Kang? || v.Pong? || (v.Eat? && v.seat <= i))
    ensures match Decide(checkFor, owner)
            case Win(w) => IsSeat(w) && checkFor[w] == 4
            case Kang(k) => IsSeat(k) && checkFor[k] == 3
            case Pong(k) => IsSeat(k) && checkFor[k] == 2
            case Eat(k, code) => IsSeat(k) && checkFor[k] == code && 7 <= code <= 9
            case Nobody => true
  {
    DecideSettles(checkFor, owner);
    var v := Decide(checkFor, owner);
    if v.Win? {
      NearestCount(owner, v.seat);
      forall i | IsSeat(i) && checkFor[i] == 4 ensures (v.seat - owner - 1) % 4 <= (i - owner - 1) % 4 {
        NearestCount(owner, i);
      }
    }
  }
}
