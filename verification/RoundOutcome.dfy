/** What follows a throw, and that a round neither stalls nor goes on for ever. */
module RoundOutcome {
  import opened Tiles
  import opened Seats
  import opened Arbitration
  import opened Table
  import opened Round
  import opened Phases
  import opened RoundSafety
  import opened RoundWindow
  import opened RoundRuns

  // ----- The claim window -----

  /** While a seat is still asked about a discard, only answers come in, and nothing moves. */
  lemma WindowHolds(t: State, e: Event)
    requires Shape(t) && t.outcome == Playing && Window(t) && Enabled(t, e) && (e == Loop ==> StillAsked(t))
    ensures e == Loop || e.Answer?
    ensures var u := Step(t, e);
            Window(u) && u.turn == t.turn && u.wall == t.wall && u.point == t.point
            && u.seats == t.seats && u.discards == t.discards && u.current == t.current
  {
    match e
    case Loop => LoopIdles(t);
    case Answer(s, a) => AnswerClaim(t, s, a);
    case _ =>
  }

  /** The order in which two seats answer makes no difference. */
  lemma AnswersCommute(t: State, i: nat, a: int, k: nat, b: int)
    requires Shape(t) && IsSeat(i) && IsSeat(k) && i != k
    ensures Answers(Answers(t, i, a), k, b) == Answers(Answers(t, k, b), i, a)
  {
  }

  /** What the table may look like once all answers about a discard are in. */
  ghost predicate Follows(t: State, u: State, v: Verdict)
    requires Shape(t) && Shape(u) && Proper(v)
  {
    if v.Win? then u.outcome == Won(v.seat) && u.seats == t.seats && u.discards == t.discards
    else if v.Nobody? then
      u.seats == t.seats && u.discards == t.discards
      && if 144 - u.point > 16 then u.outcome == Playing && Getting(u) && u.turn == NextSeat(t.turn) else u.outcome == Exhausted
    else
      u.outcome == Playing && u.turn == v.seat && u.discards == Popped(t.discards)
      && u.seats == t.seats[v.seat := Claim(t.seats[v.seat], ClaimCode(v), t.current)]
      && if v.Kang? then Getting(u) else Holding(u)
  }

  /** A discard ends in exactly one of: a win, one claim by another seat that its hand allows, the
      next seat's draw while more than sixteen tiles are left, or the end of the wall. No tile
      leaves the wall for it, and the answers admit no other verdict. */
  lemma WindowResolves(t: State, deck: multiset<int>)
    requires Answered(t, deck)
    ensures SameWall(t, LoopStep(t)) && Grants(t, VerdictOf(t)) && Follows(t, LoopStep(t), VerdictOf(t))
    ensures forall v :: Settles(t.checkFor, t.turn, v) <==> v == VerdictOf(t)
  {
    VerdictGranted(t);
    OnlyVerdict(t, deck);
    if VerdictOf(t).Nobody? {
      PassFollows(t, deck);
    } else if VerdictOf(t).Win? {
      WinFollows(t, deck);
    } else {
      ClaimFollows(t, deck);
    }
  }

  lemma OnlyVerdict(t: State, deck: multiset<int>)
    requires Answered(t, deck)
    ensures forall v :: Settles(t.checkFor, t.turn, v) <==> v == VerdictOf(t)
  {
    DecideSettles(t.checkFor, t.owner);
    ClaimsDiffer(t, deck);
    forall v | Settles(t.checkFor, t.turn, v) ensures v == VerdictOf(t) {
      VerdictUnique(t.checkFor, t.turn, v, VerdictOf(t));
    }
  }

  lemma PassFollows(t: State, deck: multiset<int>)
    requires Answered(t, deck) && VerdictOf(t).Nobody?
    ensures SameWall(t, LoopStep(t)) && Follows(t, LoopStep(t), VerdictOf(t))
  {
    LoopAfterPass(t, deck);
    WindowPass(t, deck);
    TurnPasses(CheckPart(t), deck);
  }

  lemma WinFollows(t: State, deck: multiset<int>)
    requires Answered(t, deck) && VerdictOf(t).Win?
    ensures SameWall(t, LoopStep(t)) && Follows(t, LoopStep(t), VerdictOf(t))
  {
    LoopAfterClaims(t, deck);
    WindowSet(t);
  }

  lemma ClaimFollows(t: State, deck: multiset<int>)
    requires Answered(t, deck) && (VerdictOf(t).Kang? || VerdictOf(t).Pong? || VerdictOf(t).Eat?)
    ensures SameWall(t, LoopStep(t)) && Follows(t, LoopStep(t), VerdictOf(t))
  {
    LoopAfterClaims(t, deck);
    WindowClaim(t, deck);
  }

  // ----- No stall -----

  lemma SomeTile(t: State)
    requires Shape(t) && Holding(t)
    ensures exists c :: c in InHand(t.seats[t.turn])
  {
    var s := t.seats[t.turn];
    assert Size(s) == 17;
    assert |InHand(s)| == 17 - 3 * |s.melds|;
    assert (forall c :: InHand(s)[c] == 0) ==> InHand(s) == multiset{};
  }

  lemma HolderThrows(t: State)
    requires Shape(t) && t.outcome == Playing && Holding(t)
    ensures exists e :: Enabled(t, e) && Step(t, e) != t
  {
    SomeTile(t);
    var c :| c in InHand(t.seats[t.turn]);
    var e := ThrowTile(t.turn, c);
    assert Enabled(t, e);
    assert Throws(t, t.turn, c).checkOn;
  }

  /** The host is to draw, or a player's request is to be served, and the wall cannot supply the tile. */
  ghost predicate Starved(t: State)
    requires Shape(t)
  {
    || (Getting(t) && t.turn == 1 && (t.point == |t.wall| || (IsFlower(t.wall[t.point]) && t.point + 1 == |t.wall|)))
    || (Requested(t) && t.point == |t.wall|)
  }

  lemma GetterDraws(t: State)
    requires Shape(t) && t.outcome == Playing && Getting(t) && !Starved(t)
    ensures exists e :: Enabled(t, e) && Step(t, e) != t
  {
    if t.turn == 1 {
      assert Enabled(t, DrawTile) && HostDraw(t).point > t.point;
    } else {
      assert Enabled(t, Ask(t.turn)) && AskCard(t, t.turn).sendRequest;
    }
  }

  lemma RequestServed(t: State)
    requires Shape(t) && t.outcome == Playing && Requested(t) && t.point < |t.wall|
    ensures exists e :: Enabled(t, e) && Step(t, e) != t
  {
    LoopSends(t);
    assert Enabled(t, Loop) && LoopStep(t).point == t.point + 1;
  }

  lemma FlowerIsShown(t: State)
    requires Shape(t) && t.outcome == Playing && Flowering(t)
    ensures exists e :: Enabled(t, e) && Step(t, e) != t
  {
    assert Enabled(t, ShowFlower(t.turn)) && FlowerShown(t, t.turn).sendRequest;
  }

  lemma NothingHappens(t: State, e: Event)
    requires Shape(t) && t.outcome == Playing && Starved(t) && Enabled(t, e)
    ensures Step(t, e) == t
  {
    if e == Loop { LoopIdles(t); }
  }

  /** While a round is played, some event can happen that changes the table, except when the host or the
      player to be served needs a tile that the wall does not have. */
  lemma AlwaysAnEvent(t: State, deck: multiset<int>)
    requires Inv(t, deck) && t.outcome == Playing
    ensures (exists e :: Enabled(t, e) && Step(t, e) != t) <==> !Starved(t)
  {
    if Starved(t) {
      forall e | Enabled(t, e) ensures Step(t, e) == t { NothingHappens(t, e); }
    } else if Holding(t) {
      HolderThrows(t);
    } else if Getting(t) {
      GetterDraws(t);
    } else if Requested(t) {
      RequestServed(t);
    } else if Flowering(t) {
      FlowerIsShown(t);
    } else {
      ToldWhenAsked(t);
      AskedOrAnswered(t);
    }
  }

  lemma ToldWhenAsked(t: State)
    requires Shape(t) && (Deciding(t) || Window(t))
    ensures forall i :: IsSeat(i) && t.inCheck[i] ==> t.told[i]
  {
    forall i | IsSeat(i) && t.inCheck[i] ensures t.told[i] {
      if Window(t) && i != t.turn { assert AskedRightly(t, i); }
    }
  }

  lemma AnswerChanges(t: State, i: nat)
    requires Shape(t) && t.outcome == Playing && IsSeat(i) && t.inCheck[i] && t.told[i]
    ensures Enabled(t, Answer(i, 0)) && Step(t, Answer(i, 0)) != t
  {
  }

  lemma LoopChanges(t: State)
    requires Shape(t) && t.outcome == Playing && t.checkOn && !t.sendRequest && !StillAsked(t)
    ensures Enabled(t, Loop) && Step(t, Loop) != t
  {
  }

  lemma AskedOrAnswered(t: State)
    requires Shape(t) && t.outcome == Playing && t.checkOn && !t.sendRequest
    requires forall i :: IsSeat(i) && t.inCheck[i] ==> t.told[i]
    ensures exists e :: Enabled(t, e) && Step(t, e) != t
  {
    if t.inCheck[1] { AnswerChanges(t, 1); }
    else if t.inCheck[2] { AnswerChanges(t, 2); }
    else if t.inCheck[3] { AnswerChanges(t, 3); }
    else if t.inCheck[4] { AnswerChanges(t, 4); }
    else { LoopChanges(t); }
  }
}
