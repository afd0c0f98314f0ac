/** A round comes to an end: every event that changes the table uses something up. */
module RoundEnds {
  import opened Seats
  import opened Arbitration
  import opened Table
  import opened Round
  import opened Phases
  import opened RoundSafety
  import opened RoundLoop
  import opened RoundWindow
  import opened RoundRuns
  import opened RoundOutcome

  function MeldTotal(seats: seq<Seat>): nat
    requires |seats| == 5
  {
    |seats[1].melds| + |seats[2].melds| + |seats[3].melds| + |seats[4].melds|
  }

  function AskedCount(t: State): nat
    requires |t.inCheck| == 5
  {
    One(t.inCheck[1]) + One(t.inCheck[2]) + One(t.inCheck[3]) + One(t.inCheck[4])
  }

  /** How far the play of one drawn or claimed tile has come: lower is later. */
  ghost function Stage(t: State): nat
    requires Shape(t)
  {
    if t.outcome != Playing then 0
    else if t.sendRequest then 1
    else if t.checkOn then if t.mode[t.turn] == Throw then 10 + One(t.inCheck[t.turn]) else 4 + AskedCount(t)
    else if t.mode[t.turn] == Throw then 9
    else if t.mode[t.turn] == Get then 2
    else 3
  }

  /** What is left to do: tiles to draw, melds to claim, and the rest of the tile in play. */
  ghost function Remaining(t: State): int
    requires Shape(t)
  {
    12 * (144 - t.point) + 12 * (20 - MeldTotal(t.seats)) + Stage(t)
  }

  lemma FewMelds(t: State)
    requires Shape(t) && InPhase(t)
    ensures MeldTotal(t.seats) <= 20
  {
    forall i | IsSeat(i) ensures |t.seats[i].melds| <= 5 {
      assert Size(t.seats[i]) <= 17;
    }
  }

  // ----- Stages of the phases -----

  lemma StageOfPhase(t: State)
    requires Shape(t) && t.outcome == Playing
    ensures Holding(t) ==> Stage(t) == 9
    ensures Deciding(t) ==> Stage(t) == 10 + One(t.inCheck[t.turn])
    ensures Getting(t) ==> Stage(t) == 2
    ensures Requested(t) ==> Stage(t) == 1
    ensures Flowering(t) ==> Stage(t) == 3
  {
  }

  lemma StageOfWindow(t: State)
    requires Shape(t) && t.outcome == Playing && Window(t)
    ensures Stage(t) == 4 + AskedCount(t) <= 7
  {
  }

  lemma StageBound(t: State)
    requires Shape(t)
    ensures Stage(t) <= 11
  {
  }

  lemma MeldsAfter(seats: seq<Seat>, s: nat, x: Seat)
    requires |seats| == 5 && IsSeat(s)
    ensures MeldTotal(seats[s := x]) == MeldTotal(seats) + |x.melds| - |seats[s].melds|
  {
  }

  // ----- Every event -----

  lemma DrawProgress(t: State)
    requires Shape(t) && InPhase(t) && Enabled(t, DrawTile)
    ensures Remaining(HostDraw(t)) < Remaining(t)
  {
    WhoDraws(t, 1);
    StageOfPhase(t);
    StageBound(HostDraw(t));
    MeldsAfter(t.seats, 1, HostDraw(t).seats[1]);
  }

  lemma SendProgress(t: State)
    requires Shape(t) && t.outcome == Playing && Requested(t) && t.point < |t.wall|
    ensures Remaining(SendCard(t)) < Remaining(t)
  {
    StageOfPhase(t);
    StageBound(SendCard(t));
    MeldsAfter(t.seats, t.turn, SendCard(t).seats[t.turn]);
  }

  lemma AskProgress(t: State, s: nat)
    requires Shape(t) && InPhase(t) && Enabled(t, Ask(s))
    ensures Remaining(AskCard(t, s)) < Remaining(t)
  {
    WhoDraws(t, s);
    StageOfPhase(t);
  }

  lemma ShowProgress(t: State, s: nat)
    requires Shape(t) && InPhase(t) && Enabled(t, ShowFlower(s))
    ensures Remaining(FlowerShown(t, s)) < Remaining(t)
  {
    WhoShows(t, s);
    StageOfPhase(t);
    MeldsAfter(t.seats, s, FlowerShown(t, s).seats[s]);
  }

  lemma ThrowProgress(t: State, s: nat, c: int)
    requires Shape(t) && InPhase(t) && Enabled(t, ThrowTile(s, c)) && SeatOk(t.seats[s])
    ensures Remaining(Throws(t, s, c)) < Remaining(t)
  {
    WhoThrows(t, s);
    StageOfPhase(t);
    ThrowPhase(t, s, c);
    StageOfWindow(Throws(t, s, c));
    MeldsAfter(t.seats, s, Throws(t, s, c).seats[s]);
  }

  lemma ClaimAnswered(t: State, s: nat, a: int)
    requires Shape(t) && t.outcome == Playing && Window(t) && IsSeat(s) && s != t.turn && t.inCheck[s]
    requires Allowed(t.seats[s], t.current, t.flags[s], a)
    ensures Stage(Answers(t, s, a)) < Stage(t)
  {
  }

  lemma OwnAnswered(t: State, a: int)
    requires Shape(t) && t.outcome == Playing && HoldsDrawn(t) && t.checkOn && t.inCheck[t.turn]
    ensures Stage(Answers(t, t.turn, a)) < Stage(t)
  {
  }

  lemma AnswerProgress(t: State, s: nat, a: int)
    requires Shape(t) && InPhase(t) && Enabled(t, Answer(s, a))
    ensures Remaining(Answers(t, s, a)) < Remaining(t)
  {
    WhoAnswers(t, s);
    if Deciding(t) { OwnAnswered(t, a); } else { ClaimAnswered(t, s, a); }
  }

  lemma KangMelds(t: State, k: nat)
    requires Shape(t) && IsSeat(k) && t.turn == k
    ensures MeldTotal(TakeKang(t, k).seats) >= MeldTotal(t.seats)
  {
    var s, c := t.seats[k], t.current;
    if c in s.hand {
      assert TakeKang(t, k).seats == t.seats[k := OwnKang(s, c)];
      MeldsAfter(t.seats, k, OwnKang(s, c));
    } else {
      assert TakeKang(t, k).seats == t.seats[k := JoinPong(s, c)];
      MeldsAfter(t.seats, k, JoinPong(s, c));
    }
  }

  lemma KangProgress(t: State, deck: multiset<int>)
    requires Decided(t, deck) && t.checkFor[t.turn] == 3
    ensures Remaining(CheckPart(t)) < Remaining(t)
  {
    OwnVerdict(t);
    StageOfPhase(t);
    OwnKangLoop(t, deck);
    KangVerdict(Closed(t));
    StageOfPhase(CheckPart(t));
    KangMelds(Closed(t), t.turn);
  }

  lemma PassedProgress(t: State)
    requires Decides(t) && t.checkFor[t.turn] == 0
    ensures Remaining(CheckPart(t)) < Remaining(t)
  {
    OwnVerdict(t);
    StageOfPhase(t);
    OwnPass(t);
    PassVerdict(Closed(t));
    StageOfPhase(CheckPart(t));
  }

  lemma WonProgress(t: State)
    requires Decides(t) && t.checkFor[t.turn] == 4
    ensures Remaining(CheckPart(t)) < Remaining(t)
  {
    OwnVerdict(t);
    StageOfPhase(t);
  }

  lemma DecisionProgress(t: State, deck: multiset<int>)
    requires Decided(t, deck)
    ensures Remaining(CheckPart(t)) < Remaining(t)
  {
    OwnVerdict(t);
    if t.checkFor[t.turn] == 4 {
      WonProgress(t);
    } else if t.checkFor[t.turn] == 3 {
      KangProgress(t, deck);
    } else {
      PassedProgress(t);
    }
  }

  lemma ClaimProgress(t: State, deck: multiset<int>)
    requires Answered(t, deck)
    ensures Remaining(LoopStep(t)) < Remaining(t)
  {
    StageOfWindow(t);
    StageBound(LoopStep(t));
    WindowResolves(t, deck);
    if VerdictOf(t).Win? {
    } else if VerdictOf(t).Nobody? {
      PassProgress(t, deck);
    } else {
      var v := VerdictOf(t);
      StageOfPhase(LoopStep(t));
      MeldsAfter(t.seats, v.seat, Claim(t.seats[v.seat], ClaimCode(v), t.current));
    }
  }

  lemma PassProgress(t: State, deck: multiset<int>)
    requires Answered(t, deck) && VerdictOf(t).Nobody?
    ensures Stage(LoopStep(t)) <= 2
  {
    WindowResolves(t, deck);
    if LoopStep(t).outcome == Playing { StageOfPhase(LoopStep(t)); }
  }

  lemma LoopProgress(t: State, deck: multiset<int>)
    requires Inv(t, deck) && t.outcome == Playing && (t.sendRequest ==> t.point < |t.wall|) && LoopStep(t) != t
    ensures Remaining(LoopStep(t)) < Remaining(t)
  {
    LoopCases(t);
    if Requested(t) {
      LoopSends(t);
      SendProgress(t);
    } else if Decides(t) {
      LoopAfterDecision(t, deck);
      DecisionProgress(t, deck);
    } else {
      ClaimProgress(t, deck);
    }
  }

  /** Every event that changes the table uses something up. */
  lemma StepProgress(t: State, deck: multiset<int>, e: Event)
    requires Inv(t, deck) && Enabled(t, e) && Step(t, e) != t
    ensures Shape(Step(t, e)) && Remaining(Step(t, e)) < Remaining(t)
  {
    match e
    case DrawTile => DrawProgress(t);
    case Ask(s) => AskProgress(t, s);
    case ShowFlower(s) => ShowProgress(t, s);
    case ThrowTile(s, c) => ThrowProgress(t, s, c);
    case Answer(s, a) => AnswerProgress(t, s, a);
    case Loop => LoopProgress(t, deck);
  }

  /** A run none of whose events leaves the table as it was. */
  ghost predicate Effective(t: State, es: seq<Event>, u: State)
    requires Runs(t, es, u)
    decreases |es|
  {
    es == [] || (Step(t, es[0]) != t && Effective(Step(t, es[0]), es[1..], u))
  }

  lemma {:induction false} RunUsesUp(t: State, es: seq<Event>, u: State, deck: multiset<int>)
    requires Inv(t, deck) && !Endangered(t) && Runs(t, es, u) && Effective(t, es, u)
    ensures Shape(u) && |es| + Remaining(u) <= Remaining(t)
    decreases |es|
  {
    if es != [] {
      StepProgress(t, deck, es[0]);
      StepKeeps(t, deck, es[0]);
      StaysSafe(t, es[0]);
      RunUsesUp(Step(t, es[0]), es[1..], u, deck);
    }
  }

  /** No round has more than 1979 events that change the table. */
  lemma RoundIsFinite(t: State, es: seq<Event>, u: State, deck: multiset<int>)
    requires Inv(t, deck) && !Endangered(t) && Runs(t, es, u) && Effective(t, es, u)
    ensures |es| <= 1979
  {
    RunUsesUp(t, es, u, deck);
    RunKeeps(t, es, u, deck);
    FewMelds(u);
    StageBound(t);
  }
}
