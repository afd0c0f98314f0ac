/** The claim window: what becomes of a thrown tile. */
module RoundWindow {
  import opened Eating
  import opened Hands
  import opened Seats
  import opened Arbitration
  import opened Table
  import opened Round
  import opened Phases
  import opened RoundClaims
  import opened RoundLoop

  /** What an answer says about the hand of the seat that gives it. */
  lemma AnswerMeans(t: State, i: nat)
    requires Shape(t) && Window(t) && IsSeat(i)
    ensures var a := t.checkFor[i]; var h := t.seats[i].hand;
            || a == 0
            || (a == 2 && h[t.current] >= 2)
            || (a == 3 && h[t.current] >= 3)
            || (a == 4 && MakesTiles(h + multiset{t.current}))
            || (7 <= a <= 9 && i == NextSeat(t.turn) && Eats(h, t.current, t.current + 7 - a))
    ensures t.checkFor[i] != 0 ==> i != t.turn
  {
  }

  /** What the player at a seat that has been asked about a discard may answer, from its hand. */
  lemma MayAnswer(t: State, s: nat, a: int)
    requires Shape(t) && t.outcome == Playing && Window(t) && IsSeat(s) && t.told[s]
    ensures Enabled(t, Answer(s, a))
            <==> || a == 0
                 || (a == 2 && t.seats[s].hand[t.current] >= 2)
                 || (a == 3 && t.seats[s].hand[t.current] >= 3)
                 || (a == 4 && MakesTiles(t.seats[s].hand + multiset{t.current}))
                 || (7 <= a <= 9 && s == t.turn % 4 + 1 && Eats(t.seats[s].hand, t.current, t.current + 7 - a))
  {
    WindowFlags(t, s);
    AnswerEnabled(t, s, a);
    ClaimAllowed(t.seats[s], t.current, s == t.turn % 4 + 1, a);
  }

  lemma WindowFlags(t: State, s: nat)
    requires Shape(t) && Window(t) && IsSeat(s) && t.told[s]
    ensures t.flags[s] == ClaimFlags(t.seats[s], t.current, s == t.turn % 4 + 1)
  {
    NextByCount(t.turn);
    assert s != t.turn;
    assert AskedRightly(t, s);
  }

  lemma NextByCount(i: nat)
    requires IsSeat(i)
    ensures NextSeat(i) == i % 4 + 1
  {
  }

  lemma AnswerEnabled(t: State, s: nat, a: int)
    requires Shape(t) && t.outcome == Playing && IsSeat(s) && t.told[s]
    ensures Enabled(t, Answer(s, a)) <==> Allowed(t.seats[s], t.current, t.flags[s], a)
  {
  }

  lemma ClaimAllowed(s: Seat, c: int, isNext: bool, a: int)
    ensures Allowed(s, c, ClaimFlags(s, c, isNext), a)
            <==> || a == 0
                 || (a == 2 && s.hand[c] >= 2)
                 || (a == 3 && s.hand[c] >= 3)
                 || (a == 4 && MakesTiles(s.hand + multiset{c}))
                 || (7 <= a <= 9 && isNext && Eats(s.hand, c, c + 7 - a))
  {
  }

  /** What the player that drew a tile may declare with it. */
  lemma MayDeclare(t: State, a: int)
    requires Shape(t) && t.outcome == Playing && Deciding(t) && t.told[t.turn]
    ensures var seat, c := t.seats[t.turn], t.current;
            Enabled(t, Answer(t.turn, a))
            <==> || a == 0
                 || (a == 3 && (seat.hand[c] >= 3 || exists j :: 0 <= j < |seat.melds| && IsPongOf(seat.melds[j], c)))
                 || (a == 4 && MakesTiles(seat.hand + multiset{c}))
  {
    var seat, c := t.seats[t.turn], t.current;
    if FindPong(seat.melds, c) < |seat.melds| { assert IsPongOf(seat.melds[FindPong(seat.melds, c)], c); }
  }

  lemma DiscardInRest(t: State)
    requires t.point <= |t.wall| && t.discards != []
    ensures RestBag(t)[t.discards[|t.discards| - 1]] >= 1
  {
  }

  lemma HandInBag(s: Seat, c: int)
    ensures Bag(s)[c] >= s.hand[c]
  {
  }

  /** Two copies in one hand and the tile on the table leave at most one for everybody else. */
  lemma OneClaimant(t: State, deck: multiset<int>, i: nat, k: nat)
    requires Conserves(t, deck) && IsSeat(i) && IsSeat(k)
    requires t.discards != [] && t.discards[|t.discards| - 1] == t.current
    requires t.seats[i].hand[t.current] >= 2 && t.seats[k].hand[t.current] >= 2
    ensures i == k
  {
    HandInBag(t.seats[i], t.current);
    HandInBag(t.seats[k], t.current);
    DiscardInRest(t);
    FourCopies(t, deck, i, k, t.current);
  }

  /** The hand that makes a kang of the discard holds exactly three copies. */
  lemma ExactlyThree(t: State, deck: multiset<int>, i: nat)
    requires Conserves(t, deck) && IsSeat(i)
    requires t.discards != [] && t.discards[|t.discards| - 1] == t.current
    requires t.seats[i].hand[t.current] >= 3
    ensures t.seats[i].hand[t.current] == 3
  {
    HandInBag(t.seats[i], t.current);
    DiscardInRest(t);
    FourCopies(t, deck, i, i, t.current);
  }

  /** So does the hand that declares a concealed kang of the tile it drew: the copies beside the drawn
      tile are exactly three, which is what the kang loops need. */
  lemma ExactlyThreeDrawn(t: State, deck: multiset<int>)
    requires Conserves(t, deck) && Deciding(t) && t.flags[t.turn].kang == 1
    ensures t.seats[t.turn].hand[t.current] == 3
  {
    ThreeBeside(t, deck, t.turn);
  }

  /** At most one seat is asked about a pong or a kang of a discard, and only the next seat about
      eating it. */
  lemma OneSeatAsked(t: State, deck: multiset<int>, i: nat, k: nat)
    requires Conserves(t, deck) && Window(t) && IsSeat(i) && IsSeat(k) && i != t.turn && k != t.turn
    ensures t.flags[i].eat ==> i == NextSeat(t.turn)
    ensures (t.flags[i].pong || t.flags[i].kang != 0) && (t.flags[k].pong || t.flags[k].kang != 0) ==> i == k
  {
    assert AskedRightly(t, i) && AskedRightly(t, k);
    if (t.flags[i].pong || t.flags[i].kang != 0) && (t.flags[k].pong || t.flags[k].kang != 0) {
      OneClaimant(t, deck, i, k);
    }
  }

  /** At most one seat answers kang, one pong and one eat, so the answers settle on one action. */
  lemma ClaimsDiffer(t: State, deck: multiset<int>)
    requires Conserves(t, deck) && Window(t)
    ensures OneClaimEach(t.checkFor)
    ensures forall i, k :: IsSeat(i) && IsSeat(k) && t.checkFor[i] in {2, 3} && t.checkFor[k] in {2, 3} ==> i == k
  {
    forall i, k | IsSeat(i) && IsSeat(k) && i != k
      ensures !(t.checkFor[i] in {2, 3} && t.checkFor[k] in {2, 3}) && !(IsEat(t.checkFor[i]) && IsEat(t.checkFor[k]))
    {
      AnswerMeans(t, i);
      AnswerMeans(t, k);
      if t.checkFor[i] in {2, 3} && t.checkFor[k] in {2, 3} {
        OneClaimant(t, deck, i, k);
      }
    }
  }

  // ----- The window closes -----

  /** All answers about a discard are in. */
  ghost predicate AllIn(t: State) {
    Shape(t) && t.outcome == Playing && Window(t) && !StillAsked(t)
  }

  ghost predicate Answered(t: State, deck: multiset<int>) {
    Conserves(t, deck) && AllIn(t)
  }

  /** The claim that is carried out is one the claimer's hand allows. */
  ghost predicate Grants(t: State, v: Verdict)
    requires Shape(t)
  {
    match v
    case Win(w) => IsSeat(w) && w != t.turn && MakesTiles(t.seats[w].hand + multiset{t.current})
    case Kang(k) => IsSeat(k) && k != t.turn && Claimable(t.seats[k], 3, t.current)
    case Pong(k) => IsSeat(k) && k != t.turn && Claimable(t.seats[k], 2, t.current)
    case Eat(k, code) => IsEat(code) && k == NextSeat(t.turn) && Claimable(t.seats[k], code, t.current)
    case Nobody => true
  }

  lemma VerdictGranted(t: State)
    requires Shape(t) && Window(t)
    ensures Settles(t.checkFor, t.owner, Decide(t.checkFor, t.owner)) && Grants(t, Decide(t.checkFor, t.owner))
  {
    DecideSettles(t.checkFor, t.owner);
    var v := Decide(t.checkFor, t.owner);
    if !v.Nobody? { AnswerMeans(t, v.seat); }
  }

  /** The table once all have answered, whatever the answers are. */
  ghost predicate AllSet(t: State)
    requires Shape(t)
  {
    && AllWait(t) && !t.checkOn && t.nextOn && t.sendOn && !t.sendRequest && t.outcome == Playing
    && forall i :: IsSeat(i) ==> !t.inCheck[i] && !t.told[i]
  }

  lemma ThenThrows(u: State, s: nat)
    requires Shape(u) && u.turn == s && u.owner == s && !u.checkOn && !u.sendRequest && u.seats[s].extra == NoTile
    requires OnlyMode(u, s, Throw) && Sizes(u, s) && NoExtra(u, s) && forall i :: IsSeat(i) ==> !u.inCheck[i] && !u.told[i]
    ensures Holding(Finish(u, false))
  {
  }

  lemma AfterTake(t: State, k: nat, code: int)
    requires Shape(t) && AllSet(t) && IsSeat(k) && code in {2, 3, 7, 8, 9}
    requires SeatOk(t.seats[k]) && Claimable(t.seats[k], code, t.current)
    ensures var u := Finish(TakeDiscard(t, k, code), false);
            u.outcome == Playing && u.turn == k && if code == 3 then Getting(u) else Holding(u)
  {
    TakeDiscardPhase(t, k, code);
    var u := TakeDiscard(t, k, code);
    if code == 3 { GetAfter(u, k); } else { ThenThrows(u, k); }
  }

  lemma NobodyClaims(t: State)
    requires Shape(t) && AllSet(t) && !t.getting && Decide(t.checkFor, t.owner) == Nobody
    ensures Passing(Compare(t)) && Compare(t) == Finish(t, true)
  {
  }

  lemma SomeoneWins(t: State, w: nat)
    requires Shape(t) && AllSet(t) && Decide(t.checkFor, t.owner) == Win(w)
    ensures Over(Compare(t)) && Compare(t).outcome == Won(w) && Compare(t).seats == t.seats
  {
  }

  /** The code under which a verdict takes the discard. */
  function ClaimCode(v: Verdict): int
    requires v.Kang? || v.Pong? || v.Eat?
  {
    if v.Kang? then 3 else if v.Pong? then 2 else v.code
  }

  lemma ClaimVerdict(t: State, v: Verdict)
    requires Shape(t) && v == Decide(t.checkFor, t.owner) && Grants(t, v) && (v.Kang? || v.Pong? || v.Eat?)
    ensures Compare(t) == Finish(TakeDiscard(t, v.seat, ClaimCode(v)), false)
  {
  }

  lemma WindowSet(t: State)
    requires AllIn(t)
    ensures AllSet(Closed(t)) && !Closed(t).getting && CheckPart(t) == Compare(Closed(t))
  {
    forall i | IsSeat(i) ensures !t.inCheck[i] && !t.told[i] { NotTold(t, i); }
  }

  lemma NotTold(t: State, i: nat)
    requires Shape(t) && Window(t) && IsSeat(i) && !t.inCheck[i]
    ensures !t.told[i]
  {
  }

  lemma GrantedWhenClosed(t: State)
    requires Shape(t) && Window(t)
    ensures Grants(Closed(t), Decide(t.checkFor, t.owner))
  {
    VerdictGranted(t);
  }

  /** The verdict on a fully answered discard. */
  function VerdictOf(t: State): Verdict
    requires Shape(t)
  {
    Decide(t.checkFor, t.owner)
  }

  lemma WindowWin(t: State, deck: multiset<int>)
    requires Answered(t, deck) && VerdictOf(t).Win?
    ensures var u := CheckPart(t); Conserves(u, deck) && Over(u) && u.outcome == Won(VerdictOf(t).seat)
  {
    WindowSet(t);
    SomeoneWins(Closed(t), VerdictOf(t).seat);
    SameTilesConserve(t, Closed(t), deck);
    CompareConserves(Closed(t), deck);
  }

  lemma ClaimConserves(t: State, deck: multiset<int>, v: Verdict)
    requires Conserves(t, deck) && AllSet(t) && Grants(t, v) && (v.Kang? || v.Pong? || v.Eat?)
    requires t.discards != [] && t.discards[|t.discards| - 1] == t.current
    ensures Conserves(Finish(TakeDiscard(t, v.seat, ClaimCode(v)), false), deck)
  {
    TakeDiscardConserves(t, deck, v.seat, ClaimCode(v));
    SameTilesConserve(TakeDiscard(t, v.seat, ClaimCode(v)), Finish(TakeDiscard(t, v.seat, ClaimCode(v)), false), deck);
  }

  lemma ClaimPhase(t: State, v: Verdict)
    requires Shape(t) && AllSet(t) && Grants(t, v) && (v.Kang? || v.Pong? || v.Eat?) && SeatOk(t.seats[v.seat])
    ensures var u := Finish(TakeDiscard(t, v.seat, ClaimCode(v)), false);
            u.outcome == Playing && u.turn == v.seat && if v.Kang? then Getting(u) else Holding(u)
  {
    AfterTake(t, v.seat, ClaimCode(v));
  }

  lemma WindowClaim(t: State, deck: multiset<int>)
    requires Answered(t, deck) && (VerdictOf(t).Kang? || VerdictOf(t).Pong? || VerdictOf(t).Eat?)
    ensures var u := CheckPart(t); var v := VerdictOf(t);
            Conserves(u, deck) && u.outcome == Playing && u.turn == v.seat && v.seat != t.turn
            && u == Finish(TakeDiscard(Closed(t), v.seat, ClaimCode(v)), false)
            && if v.Kang? then Getting(u) else Holding(u)
  {
    WindowSet(t);
    GrantedWhenClosed(t);
    ClaimVerdict(Closed(t), VerdictOf(t));
    SameTilesConserve(t, Closed(t), deck);
    ClosedClaim(Closed(t), deck, VerdictOf(t));
  }

  lemma ClosedClaim(t: State, deck: multiset<int>, v: Verdict)
    requires Conserves(t, deck) && AllSet(t) && Grants(t, v) && (v.Kang? || v.Pong? || v.Eat?)
    requires t.discards != [] && t.discards[|t.discards| - 1] == t.current
    ensures var u := Finish(TakeDiscard(t, v.seat, ClaimCode(v)), false);
            Conserves(u, deck) && u.outcome == Playing && u.turn == v.seat && v.seat != t.turn
            && if v.Kang? then Getting(u) else Holding(u)
  {
    assert SeatOk(t.seats[v.seat]);
    ClaimPhase(t, v);
    ClaimConserves(t, deck, v);
  }

  lemma WindowPass(t: State, deck: multiset<int>)
    requires Answered(t, deck) && VerdictOf(t).Nobody?
    ensures var u := CheckPart(t);
            Conserves(u, deck) && u.outcome == Playing && Passing(u) && u == Finish(Closed(t), true)
  {
    WindowSet(t);
    NobodyClaims(Closed(t));
    SameTilesConserve(t, Closed(t), deck);
    SameTilesConserve(Closed(t), Finish(Closed(t), true), deck);
  }

  lemma NextDraws(u: State)
    requires Shape(u) && Passing(u) && 144 - u.point > 16
    ensures Getting(NextPart(u)) && NextPart(u).turn == NextSeat(u.turn)
  {
  }

  lemma WallRunsOut(u: State)
    requires Shape(u) && Passing(u) && 144 - u.point <= 16
    ensures Over(NextPart(u)) && NextPart(u).outcome == Exhausted
  {
  }

  /** Nobody wants the tile: the next seat draws, and only while more than sixteen tiles are left. */
  lemma TurnPasses(u: State, deck: multiset<int>)
    requires Conserves(u, deck) && u.outcome == Playing && Passing(u)
    ensures var w := NextPart(u);
            Conserves(w, deck) && SendPart(w) == w
            && if 144 - u.point > 16 then w.outcome == Playing && Getting(w) && w.turn == NextSeat(u.turn)
               else w.outcome == Exhausted && Over(w)
  {
    SameTilesConserve(u, NextPart(u), deck);
    if 144 - u.point > 16 { NextDraws(u); } else { WallRunsOut(u); }
  }
}
