/** Whole rounds: what holds after every run, and what the claim window guarantees. */
module RoundRuns {
  import opened Tiles
  import opened Deck
  import opened Arbitration
  import opened Table
  import opened Round
  import opened Phases
  import opened RoundSafety
  import opened RoundLoop
  import opened RoundWindow

  // ----- One turn of the loop -----

  lemma NothingToDo(u: State)
    requires Shape(u) && !u.nextRequest && !u.sendRequest
    ensures SendPart(NextPart(u)) == u
  {
  }

  lemma LoopIdles(t: State)
    requires Shape(t) && !t.nextRequest && !t.sendRequest && (t.checkOn ==> StillAsked(t))
    ensures LoopStep(t) == t
  {
  }

  lemma LoopSends(t: State)
    requires Shape(t) && Requested(t) && t.point < |t.wall|
    ensures LoopStep(t) == SendCard(t)
  {
  }

  /** A kang is about to be carried out that does not take the four copies. */
  ghost predicate Misses(t: State)
    requires Shape(t)
  {
    Decides(t) && t.checkFor[t.turn] == 3 && WrongKang(t)
  }

  lemma LoopAfterDecision(t: State, deck: multiset<int>)
    requires Decided(t, deck)
    ensures Inv(LoopStep(t), deck) <==> !Misses(t)
    ensures LoopStep(t) == CheckPart(t) && Shape(LoopStep(t)) && InPhase(LoopStep(t))
  {
    OwnVerdict(t);
    if t.checkFor[t.turn] == 4 {
      DecidingWins(t, deck);
    } else if t.checkFor[t.turn] == 3 {
      DecidingKangs(t, deck);
    } else {
      DecidingPasses(t, deck);
    }
    NothingToDo(CheckPart(t));
  }

  lemma LoopAfterClaims(t: State, deck: multiset<int>)
    requires Answered(t, deck) && !VerdictOf(t).Nobody?
    ensures Inv(LoopStep(t), deck) && LoopStep(t) == CheckPart(t)
  {
    if VerdictOf(t).Win? { WindowWin(t, deck); } else { WindowClaim(t, deck); }
    NothingToDo(CheckPart(t));
  }

  lemma LoopAfterPass(t: State, deck: multiset<int>)
    requires Answered(t, deck) && VerdictOf(t).Nobody?
    ensures Inv(LoopStep(t), deck) && LoopStep(t) == NextPart(CheckPart(t))
  {
    WindowPass(t, deck);
    TurnPasses(CheckPart(t), deck);
  }

  /** A turn of the loop sends a tile, closes a window, or changes nothing. */
  lemma LoopCases(t: State)
    requires Shape(t) && t.outcome == Playing && (t.sendRequest ==> t.point < |t.wall|) && InPhase(t)
    ensures Requested(t) || Decides(t) || AllIn(t) || LoopStep(t) == t
  {
    if !Requested(t) && !(t.checkOn && !StillAsked(t)) { LoopIdles(t); }
  }

  lemma LoopKeeps(t: State, deck: multiset<int>)
    requires Inv(t, deck) && t.outcome == Playing && (t.sendRequest ==> t.point < |t.wall|)
    ensures Inv(LoopStep(t), deck) <==> !Misses(t)
  {
    LoopCases(t);
    if Requested(t) {
      LoopSends(t);
      SendKeeps(t, deck);
    } else if Decides(t) {
      LoopAfterDecision(t, deck);
    } else if AllIn(t) {
      if VerdictOf(t).Nobody? { LoopAfterPass(t, deck); } else { LoopAfterClaims(t, deck); }
    }
  }

  lemma SendKeeps(t: State, deck: multiset<int>)
    requires Conserves(t, deck) && t.outcome == Playing && Requested(t) && t.point < |t.wall|
    ensures Inv(SendCard(t), deck)
  {
    SendConserves(t, deck);
    TileOnWall(t, deck);
    assert SeatOk(t.seats[t.turn]);
    if IsFlower(t.wall[t.point]) { SendsFlower(t); } else { SendsTile(t); }
  }

  // ----- Every event -----

  lemma DrawKeeps(t: State, deck: multiset<int>)
    requires Inv(t, deck) && Enabled(t, DrawTile)
    ensures Inv(HostDraw(t), deck)
  {
    WhoDraws(t, 1);
    HostDrawConserves(t, deck);
    TileOnWall(t, deck);
    assert SeatOk(t.seats[1]);
    if IsFlower(t.wall[t.point]) { HostDrawsFlower(t); } else { HostDrawsTile(t); }
  }

  lemma ThrowKeeps(t: State, deck: multiset<int>, s: nat, c: int)
    requires Inv(t, deck) && Enabled(t, ThrowTile(s, c))
    ensures Inv(Throws(t, s, c), deck)
  {
    WhoThrows(t, s);
    ThrowConserves(t, deck, s, c);
    assert SeatOk(t.seats[s]);
    ThrowPhase(t, s, c);
  }

  lemma AnswerPhases(t: State, s: nat, a: int)
    requires Shape(t) && InPhase(t) && Enabled(t, Answer(s, a))
    ensures InPhase(Answers(t, s, a))
  {
    WhoAnswers(t, s);
    if t.turn == s { AnswerOwn(t, s, a); } else { AnswerClaim(t, s, a); }
  }

  lemma AskPhases(t: State, s: nat)
    requires Shape(t) && InPhase(t) && Enabled(t, Ask(s))
    ensures InPhase(AskCard(t, s))
  {
    WhoDraws(t, s);
    AskPhase(t, s);
  }

  lemma SameTilesKeep(t: State, u: State, deck: multiset<int>)
    requires Conserves(t, deck) && SameTiles(t, u) && InPhase(u)
    ensures Inv(u, deck)
  {
    SameTilesConserve(t, u, deck);
  }

  lemma FlowerKeeps(t: State, deck: multiset<int>, s: nat)
    requires Inv(t, deck) && Enabled(t, ShowFlower(s))
    ensures Inv(Step(t, ShowFlower(s)), deck)
  {
    WhoShows(t, s);
    FlowerConserves(t, deck, s);
    FlowerPhase(t, s);
  }

  /** Every event keeps all tiles and leads into one of the phases, except one: the turn of the loop that
      carries out a kang at the opening on a hand that is not right for the owner's loop. */
  lemma StepKeeps(t: State, deck: multiset<int>, e: Event)
    requires Inv(t, deck) && Enabled(t, e)
    ensures Inv(Step(t, e), deck) <==> !(e == Loop && Misses(t))
  {
    match e
    case DrawTile => DrawKeeps(t, deck);
    case Ask(s) => AskPhases(t, s); SameTilesKeep(t, AskCard(t, s), deck);
    case ShowFlower(s) => FlowerKeeps(t, deck, s);
    case ThrowTile(s, c) => ThrowKeeps(t, deck, s, c);
    case Answer(s, a) => AnswerPhases(t, s, a); SameTilesKeep(t, Answers(t, s, a), deck);
    case Loop => LoopKeeps(t, deck);
  }

  // ----- Runs -----

  ghost predicate Runs(t: State, es: seq<Event>, u: State)
    decreases |es|
  {
    if es == [] then u == t
    else Shape(t) && Enabled(t, es[0]) && Runs(Step(t, es[0]), es[1..], u)
  }

  /** The opening kang can still go wrong: it is asked about or declared, and the hand is not right for
      the owner's loop. */
  ghost predicate Endangered(t: State) {
    && Shape(t) && t.outcome == Playing && Deciding(t) && WrongKang(t)
    && (t.inCheck[t.turn] || t.checkFor[t.turn] == 3)
  }

  lemma ComparedOff(u: State)
    requires Shape(u) && !u.checkOn
    ensures !Compare(u).checkOn
  {
  }

  lemma NoKangAfterLoop(t: State)
    requires Shape(t) && t.checkOn && !t.sendRequest && !StillAsked(t)
    ensures !LoopStep(t).checkOn
  {
    ComparedOff(Closed(t));
    var c := CheckPart(t);
    assert !c.checkOn && !c.sendRequest;
    assert !NextPart(c).checkOn && !NextPart(c).sendRequest;
  }

  lemma DrawnIsSafe(u: State)
    requires Shape(u) && !u.seats[u.turn].extra.SortedIn?
    ensures !Endangered(u)
  {
  }

  lemma LoopStaysSafe(t: State)
    requires Shape(t) && InPhase(t) && Enabled(t, Loop) && !Endangered(t)
    ensures !Endangered(LoopStep(t))
  {
    LoopCases(t);
    if Requested(t) {
      LoopSends(t);
      DrawnIsSafe(SendCard(t));
    } else if Decides(t) || AllIn(t) {
      NoKangAfterLoop(t);
    }
  }

  lemma AnswerStaysSafe(t: State, s: nat, a: int)
    requires Shape(t) && InPhase(t) && Enabled(t, Answer(s, a)) && !Endangered(t)
    ensures !Endangered(Answers(t, s, a))
  {
    WhoAnswers(t, s);
  }

  lemma StaysSafe(t: State, e: Event)
    requires Shape(t) && InPhase(t) && Enabled(t, e) && !Endangered(t)
    ensures !Endangered(Step(t, e)) && !(e == Loop && Misses(t))
  {
    match e
    case DrawTile => WhoDraws(t, 1); DrawnIsSafe(HostDraw(t));
    case Ask(s) => WhoDraws(t, s);
    case ShowFlower(s) => WhoShows(t, s);
    case ThrowTile(s, c) => WhoThrows(t, s);
    case Answer(s, a) => AnswerStaysSafe(t, s, a);
    case Loop => LoopStaysSafe(t);
  }

  lemma {:induction false} RunKeeps(t: State, es: seq<Event>, u: State, deck: multiset<int>)
    requires Inv(t, deck) && !Endangered(t) && Runs(t, es, u)
    ensures Inv(u, deck) && !Endangered(u)
    decreases |es|
  {
    if es != [] {
      StepKeeps(t, deck, es[0]);
      StaysSafe(t, es[0]);
      RunKeeps(Step(t, es[0]), es[1..], u, deck);
    }
  }

  lemma KangDeclared(t: State, deck: multiset<int>)
    requires Inv(t, deck) && Endangered(t) && t.inCheck[t.turn]
    ensures Enabled(t, Answer(t.turn, 3))
    ensures var u := Answers(t, t.turn, 3); Inv(u, deck) && Endangered(u) && !u.inCheck[u.turn]
  {
    AnswerOwn(t, t.turn, 3);
    SameTilesKeep(t, Answers(t, t.turn, 3), deck);
  }

  lemma DeclaredMisses(t: State, deck: multiset<int>)
    requires Inv(t, deck) && Endangered(t) && !t.inCheck[t.turn]
    ensures Enabled(t, Loop) && !Inv(LoopStep(t), deck) && !Conserves(LoopStep(t), deck)
  {
    LoopAfterDecision(t, deck);
  }

  lemma OneEvent(t: State, e: Event)
    requires Shape(t) && Enabled(t, e)
    ensures Runs(t, [e], Step(t, e))
  {
    assert [e][1..] == [];
  }

  lemma TwoEvents(t: State, e: Event, f: Event)
    requires Shape(t) && Enabled(t, e) && Shape(Step(t, e)) && Enabled(Step(t, e), f)
    ensures Runs(t, [e, f], Step(Step(t, e), f))
  {
    OneEvent(Step(t, e), f);
    assert [e, f][1..] == [f];
  }

  lemma RunLosesTiles(t: State, deck: multiset<int>) returns (es: seq<Event>, u: State)
    requires Inv(t, deck) && Endangered(t)
    ensures Runs(t, es, u) && !Inv(u, deck)
  {
    if t.inCheck[t.turn] {
      KangDeclared(t, deck);
      DeclaredMisses(Answers(t, t.turn, 3), deck);
      TwoEvents(t, Answer(t.turn, 3), Loop);
      es, u := [Answer(t.turn, 3), Loop], LoopStep(Answers(t, t.turn, 3));
    } else {
      DeclaredMisses(t, deck);
      OneEvent(t, Loop);
      es, u := [Loop], LoopStep(t);
    }
  }

  ghost predicate RunsKeep(t: State, deck: multiset<int>) {
    forall es, u :: Runs(t, es, u) ==> Inv(u, deck)
  }

  /** Every run keeps the tiles and the phases if and only if no kang that the owner's loop would get wrong
      is still open. */
  lemma RunsKeepExactly(t: State, deck: multiset<int>)
    requires Inv(t, deck)
    ensures RunsKeep(t, deck) <==> !Endangered(t)
  {
    if Endangered(t) {
      var es, u := RunLosesTiles(t, deck);
      assert !RunsKeep(t, deck);
    } else {
      SafeRunsKeep(t, deck);
    }
  }

  lemma SafeRunsKeep(t: State, deck: multiset<int>)
    requires Inv(t, deck) && !Endangered(t)
    ensures RunsKeep(t, deck)
  {
    forall es, u | Runs(t, es, u) ensures Inv(u, deck) { RunKeeps(t, es, u, deck); }
  }

  lemma HandSizes(t: State)
    requires Shape(t) && InPhase(t)
    ensures forall i :: IsSeat(i) ==> Size(t.seats[i]) >= 16
  {
  }

  /** After any run every code has exactly its copies among hands, melds, flowers, discards, burned
      tiles and the wall: four of a suit tile, one of a flower. */
  lemma RunConserves(t: State, es: seq<Event>, u: State, deck: multiset<int>, x: int)
    requires Inv(t, deck) && !Endangered(t) && Runs(t, es, u)
    ensures Shape(u)
    ensures SeatCount(u, 1, x) + SeatCount(u, 2, x) + SeatCount(u, 3, x) + SeatCount(u, 4, x) + RestBag(u)[x] == CodeCount(x)
  {
    RunKeeps(t, es, u, deck);
    TableCount(u, deck, x);
  }

  /** After any run the discards fit in their grid of 6 rows of 17. */
  lemma RunDiscardsFit(t: State, es: seq<Event>, u: State, deck: multiset<int>)
    requires Inv(t, deck) && !Endangered(t) && Runs(t, es, u)
    ensures |u.discards| <= 80 < 6 * 17
  {
    RunKeeps(t, es, u, deck);
    HandSizes(u);
    DiscardsFit(u, deck);
  }
}
