/** One turn of the event loop keeps the tiles and leads from phase to phase. */
module RoundLoop {
  import opened Hands
  import opened Seats
  import opened Arbitration
  import opened Table
  import opened Round
  import opened Phases
  import opened RoundClaims

  // ----- The owner's own answer -----

  lemma OwnAnswers(t: State)
    requires Shape(t) && Deciding(t)
    ensures t.checkFor[t.turn] in {0, 3, 4}
    ensures t.checkFor[t.turn] == 3 ==> t.flags[t.turn].kang != 0
  {
  }

  /** With one seat asked, its answer is the verdict. */
  lemma OneAnswer(checkFor: seq<int>, s: nat)
    requires |checkFor| == 5 && IsSeat(s) && checkFor[s] in {0, 3, 4}
    requires forall i :: IsSeat(i) && i != s ==> checkFor[i] == 0
    ensures Decide(checkFor, s) == if checkFor[s] == 4 then Win(s) else if checkFor[s] == 3 then Kang(s) else Nobody
  {
  }

  lemma CompareConserves(t: State, deck: multiset<int>)
    requires Shape(t) && Conserves(Act(t, Decide(t.checkFor, t.owner)), deck)
    ensures Conserves(Compare(t), deck)
  {
  }

  /** The kang flag of a drawn tile means three copies in the hand, or a pong of it and none. */
  lemma KangOfDrawn(t: State, deck: multiset<int>)
    requires Conserves(t, deck) && Deciding(t) && t.flags[t.turn].kang != 0
    ensures HoldsDrawn(t)
    ensures var s := t.seats[t.turn];
            s.hand[t.current] >= 3 || (t.current !in s.hand && FindPong(s.melds, t.current) < |s.melds|)
  {
    if t.seats[t.turn].hand[t.current] < 3 { NoneLeft(t, deck, t.turn); }
  }

  /** The seat has taken the drawn tile into a kang and is to draw again. */
  ghost predicate KangTaken(t: State, u: State)
    requires Shape(t) && Shape(u)
  {
    OnlyMode(u, t.turn, Get) && Sizes(u, 0) && NoExtra(u, 0) && u.turn == t.turn
  }

  lemma ConcealedPhase(t: State, u: State)
    requires Shape(t) && Shape(u) && HoldsDrawn(t) && HoldsFour(t.seats[t.turn], t.current)
    requires u.seats == t.seats[t.turn := OwnKang(t.seats[t.turn], t.current)] && u.mode == t.mode[t.turn := Get]
    requires u.turn == t.turn
    ensures KangTaken(t, u)
  {
    OwnKangBag(t.seats[t.turn], t.current);
    HeldKangPhase(t, u, t.turn);
  }

  lemma FourHeld(t: State, deck: multiset<int>)
    requires Conserves(t, deck) && HoldsDrawn(t) && t.seats[t.turn].hand[t.current] >= 3
    ensures HoldsFour(t.seats[t.turn], t.current)
  {
    assert SeatOk(t.seats[t.turn]);
    ThreeBeside(t, deck, t.turn);
  }

  lemma OwnConcealed(t: State, deck: multiset<int>)
    requires Conserves(t, deck) && HoldsDrawn(t) && t.seats[t.turn].hand[t.current] >= 3
    ensures Conserves(TakeKang(t, t.turn), deck) <==> TakesFour(t.seats[t.turn], t.current)
    ensures KangTaken(t, TakeKang(t, t.turn))
  {
    FourHeld(t, deck);
    ConcealedKang(t, t.turn);
    ConcealedPhase(t, TakeKang(t, t.turn));
    ConcealedConserves(t, deck, t.turn);
  }

  lemma AddedPhase(t: State, u: State)
    requires Shape(t) && Shape(u) && HoldsDrawn(t) && SeatOk(t.seats[t.turn])
    requires FindPong(t.seats[t.turn].melds, t.current) < |t.seats[t.turn].melds|
    requires u.seats == t.seats[t.turn := JoinPong(t.seats[t.turn], t.current)] && u.mode == t.mode[t.turn := Get]
    requires u.turn == t.turn
    ensures KangTaken(t, u)
  {
    JoinKeepsSeat(t.seats[t.turn], t.current);
    HeldKangPhase(t, u, t.turn);
  }

  lemma OwnAdded(t: State, deck: multiset<int>)
    requires Conserves(t, deck) && HoldsDrawn(t) && t.current !in t.seats[t.turn].hand
    requires FindPong(t.seats[t.turn].melds, t.current) < |t.seats[t.turn].melds|
    ensures Conserves(TakeKang(t, t.turn), deck) && KangTaken(t, TakeKang(t, t.turn))
  {
    assert SeatOk(t.seats[t.turn]);
    AddedKang(t, t.turn);
    AddedPhase(t, TakeKang(t, t.turn));
    AddedConserves(t, deck, t.turn);
  }

  /** The kang that the owner's loop would carry out on a hand that is not right for it. */
  ghost predicate WrongKang(t: State)
    requires Shape(t)
  {
    t.seats[t.turn].hand[t.current] >= 3 && !TakesFour(t.seats[t.turn], t.current)
  }

  lemma OwnKangKeeps(t: State, deck: multiset<int>)
    requires Conserves(t, deck) && Deciding(t) && t.flags[t.turn].kang != 0
    ensures Conserves(TakeKang(Closed(t), t.turn), deck) <==> !WrongKang(t)
    ensures KangTaken(t, TakeKang(Closed(t), t.turn))
  {
    KangOfDrawn(t, deck);
    SameTilesConserve(t, Closed(t), deck);
    ClosedHolds(t);
    if t.seats[t.turn].hand[t.current] >= 3 { OwnConcealed(Closed(t), deck); } else { OwnAdded(Closed(t), deck); }
  }

  lemma ClosedHolds(t: State)
    requires Shape(t) && HoldsDrawn(t)
    ensures HoldsDrawn(Closed(t)) && Closed(t).turn == t.turn && Closed(t).current == t.current
  {
  }

  /** The owner of a drawn tile has answered. */
  ghost predicate Decides(t: State) {
    Shape(t) && t.outcome == Playing && Deciding(t) && !StillAsked(t)
  }

  ghost predicate Decided(t: State, deck: multiset<int>) {
    Conserves(t, deck) && Decides(t)
  }

  lemma OwnVerdict(t: State)
    requires Decides(t)
    ensures CheckPart(t) == Compare(Closed(t)) && t.checkFor[t.turn] in {0, 3, 4} && HoldsDrawn(t)
    ensures Decide(t.checkFor, t.owner)
            == if t.checkFor[t.turn] == 4 then Win(t.turn) else if t.checkFor[t.turn] == 3 then Kang(t.turn) else Nobody
  {
    OwnAnswers(t);
    OneAnswer(t.checkFor, t.turn);
  }

  lemma OwnWin(t: State)
    requires Shape(t) && t.outcome == Playing && HoldsDrawn(t) && Decide(t.checkFor, t.owner) == Win(t.turn)
    ensures Over(Compare(Closed(t))) && Compare(Closed(t)).outcome == Won(t.turn)
  {
  }

  lemma OwnPass(t: State)
    requires Shape(t) && HoldsDrawn(t) && !StillAsked(t)
    ensures Holding(Finish(Closed(t), false))
  {
  }

  /** With a seat told to draw and nobody asked, the loop goes on to the draw. */
  lemma GetAfter(u: State, s: nat)
    requires Shape(u) && u.turn == s && !u.checkOn && u.sendOn && !u.sendRequest
    requires OnlyMode(u, s, Get) && Sizes(u, 0) && NoExtra(u, 0) && forall i :: IsSeat(i) ==> !u.inCheck[i] && !u.told[i]
    ensures Getting(Finish(u, false))
  {
  }

  lemma OwnKangLoop(t: State, deck: multiset<int>)
    requires Decided(t, deck) && t.checkFor[t.turn] == 3
    ensures Conserves(TakeKang(Closed(t), t.turn), deck) <==> !WrongKang(t)
    ensures Getting(Finish(TakeKang(Closed(t), t.turn), false))
  {
    OwnAnswers(t);
    OwnKangKeeps(t, deck);
    GetAfter(TakeKang(Closed(t), t.turn), t.turn);
  }

  lemma KangVerdict(t: State)
    requires Shape(t) && Decide(t.checkFor, t.owner) == Kang(t.turn)
    ensures Compare(t) == Finish(TakeKang(t, t.turn), false)
  {
  }

  lemma PassVerdict(t: State)
    requires Shape(t) && Decide(t.checkFor, t.owner) == Nobody && t.getting
    ensures Compare(t) == Finish(t, false)
  {
  }

  /** The owner of a drawn tile wins. */
  lemma DecidingWins(t: State, deck: multiset<int>)
    requires Decided(t, deck) && t.checkFor[t.turn] == 4
    ensures Conserves(CheckPart(t), deck) && CheckPart(t).outcome == Won(t.turn) && Over(CheckPart(t))
  {
    OwnVerdict(t);
    OwnWin(t);
    SameTilesConserve(t, Closed(t), deck);
    CompareConserves(Closed(t), deck);
  }

  /** It takes another tile for a kang. */
  lemma DecidingKangs(t: State, deck: multiset<int>)
    requires Decided(t, deck) && t.checkFor[t.turn] == 3
    ensures Conserves(CheckPart(t), deck) <==> !WrongKang(t)
    ensures CheckPart(t).outcome == Playing && Getting(CheckPart(t))
  {
    OwnVerdict(t);
    OwnKangLoop(t, deck);
    KangVerdict(Closed(t));
    FinishConserves(TakeKang(Closed(t), t.turn), deck);
  }

  lemma FinishConserves(u: State, deck: multiset<int>)
    requires Shape(u)
    ensures Conserves(Finish(u, false), deck) <==> Conserves(u, deck)
  {
    if Conserves(u, deck) { SameTilesConserve(u, Finish(u, false), deck); }
    if Conserves(Finish(u, false), deck) { SameTilesConserve(Finish(u, false), u, deck); }
  }

  /** It goes on to throw. */
  lemma DecidingPasses(t: State, deck: multiset<int>)
    requires Decided(t, deck) && t.checkFor[t.turn] == 0
    ensures Conserves(CheckPart(t), deck) && CheckPart(t).outcome == Playing && Holding(CheckPart(t))
  {
    OwnVerdict(t);
    OwnPass(t);
    PassVerdict(Closed(t));
    SameTilesConserve(t, Closed(t), deck);
    SameTilesConserve(Closed(t), Finish(Closed(t), false), deck);
  }
}
