/** A round as the host runs it: the messages it handles and the turns of its event loop. */
module Round {
  import opened Tiles
  import opened Seats
  import opened Arbitration
  import opened Table

  /** What reaches the host: its own player draws; another player asks for a tile, shows the flower
      it was sent, throws, or answers; and one turn of the loop after the messages. */
  datatype Event =
    | DrawTile
    | Ask(seat: nat)
    | ShowFlower(seat: nat)
    | ThrowTile(seat: nat, tile: int)
    | Answer(seat: nat, answer: int)
    | Loop

  const WAITING := [Wait, Wait, Wait, Wait, Wait]
  const NO_ANSWER := [0, 0, 0, 0, 0]

  // ----- Drawing -----

  /** Marks a seat as asked about the tile it drew, when there is something to ask. */
  function Mark(t: State, s: nat, f: Flags): State
    requires Shape(t) && IsSeat(s)
  {
    t.(flags := t.flags[s := f], inCheck := t.inCheck[s := AnyFlag(f)],
       checkOn := t.checkOn || AnyFlag(f), getting := t.getting || AnyFlag(f))
  }

  /** Shows the question to the player at a seat. */
  function Tell(t: State, s: nat, ask: bool): State
    requires Shape(t) && IsSeat(s)
  {
    t.(told := t.told[s := t.told[s] || ask])
  }

  function AskOwner(t: State, s: nat, f: Flags): (u: State)
    requires Shape(t) && IsSeat(s)
    ensures SameTiles(t, u)
  {
    Tell(Mark(t, s, f), s, AnyFlag(f))
  }

  function Show(s: Seat, c: int): Seat {
    s.(extra := NoTile, flowers := s.flowers + multiset{c})
  }

  /** The next tile of the wall goes to a seat. */
  function DrawnFor(t: State, s: nat, c: int): State {
    t.(current := c, owner := s, point := t.point + 1)
  }

  /** A seat holds `x` and is to do `m`. */
  function Placed(t: State, s: nat, x: Seat, m: Mode): (u: State)
    requires Shape(t) && IsSeat(s)
    ensures Shape(u)
  {
    t.(seats := t.seats[s := x], mode := t.mode[s := m])
  }

  /** The tile drawn by the host itself stays with it. */
  function HostKeeps(t: State, c: int): (u: State)
    requires Shape(t) && t.point < |t.wall|
    ensures Shape(u)
  {
    Placed(DrawnFor(t, 1, c), 1, t.seats[1].(extra := Drawn(c)), Throw).(getting := true)
  }

  /** The next tile of the wall leaves it for good. */
  function Burnt(t: State): State
    requires t.point < |t.wall|
  {
    t.(burned := t.burned + multiset{t.wall[t.point]}, point := t.point + 1)
  }

  /** A flower is shown at once, one more tile is burned, and the host draws again. */
  function HostBurns(t: State, c: int): (u: State)
    requires Shape(t) && t.point + 1 < |t.wall|
    ensures Shape(u)
  {
    Burnt(Placed(DrawnFor(t, 1, c), 1, Show(t.seats[1], c), Get)).(getting := true)
  }

  function HostTakes(t: State, c: int): (u: State)
    requires Shape(t) && t.point < |t.wall| && (IsFlower(c) ==> t.point + 1 < |t.wall|)
    ensures Shape(u)
  {
    if IsFlower(c) then HostBurns(t, c) else HostKeeps(t, c)
  }

  ghost function HostDraw(t: State): (u: State)
    requires Shape(t) && t.point < |t.wall|
    requires IsFlower(t.wall[t.point]) ==> t.point + 1 < |t.wall|
  {
    AskOwner(HostTakes(t, t.wall[t.point]), 1, DrawFlags(t.seats[1], t.wall[t.point]))
  }

  /** A tile goes to the player whose turn it is. A flower leaves that player waiting for the next. */
  function Sent(t: State, c: int): State
    requires Shape(t) && t.point < |t.wall|
  {
    Placed(DrawnFor(t, t.turn, c), t.turn, t.seats[t.turn].(extra := Drawn(c)), if IsFlower(c) then Wait else Throw)
      .(sendRequest := false)
  }

  ghost function SendCard(t: State): (u: State)
    requires Shape(t) && t.point < |t.wall|
    ensures Shape(u)
  {
    var c := t.wall[t.point];
    AskOwner(Sent(t, c), t.turn, DrawFlags(t.seats[t.turn], c))
  }

  function AskCard(t: State, s: nat): (u: State)
    requires Shape(t) && IsSeat(s)
    ensures SameTiles(t, u)
  {
    t.(mode := t.mode[s := Wait], sendRequest := true)
  }

  function FlowerShown(t: State, s: nat): State
    requires Shape(t) && IsSeat(s) && t.seats[s].extra.Drawn?
  {
    t.(seats := t.seats[s := Show(t.seats[s], t.seats[s].extra.tile)], sendRequest := true)
  }

  // ----- Throwing -----

  function Without(s: Seat, c: int): Seat {
    s.(hand := InHand(s) - multiset{c}, extra := NoTile)
  }

  /** The flags after a throw: every other seat is checked, the thrower's are left alone. */
  ghost function FlagsAfterThrow(t: State, s: nat, c: int): seq<Flags>
    requires Shape(t) && IsSeat(s)
  {
    seq(5, i requires 0 <= i < 5 =>
      if IsSeat(i) && i != s then ClaimFlags(t.seats[i], c, i == NextSeat(t.turn)) else t.flags[i])
  }

  /** A tile leaves the hand for the table, and the window for claims opens. */
  function Thrown(t: State, s: nat, c: int): State
    requires Shape(t) && IsSeat(s)
  {
    t.(seats := t.seats[s := Without(t.seats[s], c)], discards := t.discards + [c], current := c, mode := t.mode[s := Wait],
       checkOn := true, nextOn := false, sendOn := false, getting := false)
  }

  predicate AskedNow(s: nat, flags: seq<Flags>, i: nat)
    requires |flags| == 5 && i < 5
  {
    IsSeat(i) && i != s && AnyFlag(flags[i])
  }

  /** The other seats are asked about it. The thrower's own entry is cleared only when the host throws. */
  function AskOthers(t: State, s: nat, flags: seq<Flags>): State
    requires Shape(t) && IsSeat(s) && |flags| == 5
  {
    t.(flags := flags,
       inCheck := seq(5, i requires 0 <= i < 5 => if i == s then s != 1 && t.inCheck[s] else AskedNow(s, flags, i)),
       told := seq(5, i requires 0 <= i < 5 => t.told[i] || AskedNow(s, flags, i)))
  }

  /** The host's record of the seat is taken to lose the tile that was thrown. For the host's own
      throw this is so; its copy of another seat's hand does it exactly when the entry it overwrites
      holds that tile. */
  ghost function Throws(t: State, s: nat, c: int): (u: State)
    requires Shape(t) && IsSeat(s)
  {
    AskOthers(Thrown(t, s, c), s, FlagsAfterThrow(t, s, c))
  }

  function Answers(t: State, s: nat, a: int): (u: State)
    requires Shape(t) && IsSeat(s)
    ensures SameTiles(t, u)
  {
    t.(inCheck := t.inCheck[s := false], told := t.told[s := false], checkFor := t.checkFor[s := a])
  }

  // ----- The loop -----

  /** Comparing answers and passing the turn on touch neither the wall nor a player's request. */
  ghost predicate SameWall(t: State, u: State) {
    Shape(u) && u.wall == t.wall && u.point == t.point && u.burned == t.burned && u.sendRequest == t.sendRequest
  }

  /** A claim leaves the questions and the other seats' play alone. */
  ghost predicate SamePlay(t: State, u: State) {
    && u.inCheck == t.inCheck && u.told == t.told && u.outcome == t.outcome
    && u.checkOn == t.checkOn && u.nextOn == t.nextOn && u.sendOn == t.sendOn
  }

  function Popped(discards: seq<int>): seq<int> {
    if discards == [] then [] else discards[..|discards| - 1]
  }

  /** A seat takes the discard (2, 3, 7 to 9); the tile leaves the grid. */
  function TakeDiscard(t: State, k: nat, code: int): (u: State)
    requires Shape(t) && IsSeat(k) && code in {2, 3, 7, 8, 9}
    ensures SameWall(t, u) && SamePlay(t, u)
  {
    Placed(t, k, Claim(t.seats[k], code, t.current), if code == 3 then Get else Throw)
      .(owner := k, turn := k, discards := Popped(t.discards))
  }

  /** A kang: of the discard, of three copies and the drawn tile, or of a pong and the drawn tile. */
  function TakeKang(t: State, k: nat): (u: State)
    requires Shape(t) && IsSeat(k)
    ensures SameWall(t, u) && SamePlay(t, u)
  {
    if t.current in t.seats[k].hand then
      if t.turn == k then
        t.(owner := k, seats := t.seats[k := OwnKang(t.seats[k], t.current)], mode := t.mode[k := Get])
      else TakeDiscard(t, k, 3)
    else t.(owner := k, turn := k, seats := t.seats[k := JoinPong(t.seats[k], t.current)], mode := t.mode[k := Get])
  }

  function Act(t: State, v: Verdict): (u: State)
    requires Shape(t) && Proper(v)
    ensures SameWall(t, u)
  {
    match v
    case Win(w) => t.(outcome := Won(w), mode := WAITING)
    case Kang(k) => TakeKang(t, k)
    case Pong(k) => TakeDiscard(t, k, 2)
    case Eat(k, code) => TakeDiscard(t, k, code)
    case Nobody => t
  }

  function Finish(t: State, request: bool): (u: State)
    ensures Shape(t) ==> SameTiles(t, u)
  {
    t.(nextRequest := request, checkFor := NO_ANSWER, getting := false)
  }

  /** The answers are compared; when nobody claims anything after a throw, the next player is asked
      for. */
  function Compare(t: State): (u: State)
    requires Shape(t)
    ensures SameWall(t, u)
  {
    var v := Decide(t.checkFor, t.owner);
    Finish(Act(t, v), v.Nobody? && !t.getting)
  }

  /** A win ends the round for every seat and moves no tile; without a claim nothing is done. */
  lemma WinActs(t: State, w: nat)
    requires Shape(t) && IsSeat(w)
    ensures Act(t, Win(w)) == t.(outcome := Won(w), mode := [Wait, Wait, Wait, Wait, Wait])
    ensures Act(t, Nobody) == t
  {
  }

  /** A pong or an eat takes the last tile of the grid; its seat has the turn and is to throw. */
  lemma ClaimActs(t: State, v: Verdict)
    requires Shape(t) && Proper(v) && (v.Pong? || v.Eat?)
    ensures Act(t, v)
            == t.(owner := v.seat, turn := v.seat, mode := t.mode[v.seat := Throw],
                  discards := if t.discards == [] then [] else t.discards[..|t.discards| - 1],
                  seats := t.seats[v.seat := Claim(t.seats[v.seat], if v.Pong? then 2 else v.code, t.current)])
  {
  }

  /** A kang gives its seat the turn, to draw again. It takes the last tile of the grid unless the tile was
      drawn. */
  lemma KangActs(t: State, k: nat)
    requires Shape(t) && IsSeat(k)
    ensures var c, s := t.current, t.seats[k];
            var fromGrid := c in s.hand && t.turn != k;
            Act(t, Kang(k))
            == t.(owner := k, turn := k, discards := if fromGrid then Popped(t.discards) else t.discards,
                  mode := t.mode[k := Get],
                  seats := t.seats[k := if c !in s.hand then JoinPong(s, c)
                                        else if fromGrid then Claim(s, 3, c)
                                        else OwnKang(s, c)])
  {
  }

  /** Only when nobody claims a discard does the next player draw; the answers are cleared either way. */
  lemma AnswersUsed(t: State)
    requires Shape(t)
    ensures Compare(t) == Act(t, Decide(t.checkFor, t.owner)).(checkFor := [0, 0, 0, 0, 0], getting := false,
              nextRequest := !t.getting && forall i :: IsSeat(i) ==> t.checkFor[i] !in {2, 3, 4, 7, 8, 9})
  {
    DecideRanks(t.checkFor, t.owner);
  }

  predicate StillAsked(t: State)
    requires |t.inCheck| == 5
  {
    t.inCheck[1] || t.inCheck[2] || t.inCheck[3] || t.inCheck[4]
  }

  function Closed(t: State): (u: State)
    ensures Shape(t) ==> SameTiles(t, u)
  {
    t.(checkOn := false, nextOn := true, sendOn := true)
  }

  /** The first part of the loop: once every answer is in, the answers are compared. */
  function CheckPart(t: State): (u: State)
    requires Shape(t)
    ensures SameWall(t, u)
  {
    if t.checkOn && !StillAsked(t) then Compare(Closed(t)) else t
  }

  /** The second part: the next seat may draw, unless only sixteen tiles are left. */
  function NextPart(t: State): (u: State)
    requires Shape(t)
    ensures SameWall(t, u) && SameTiles(t, u)
  {
    if t.nextRequest && t.nextOn then
      if 144 - t.point <= 16 then t.(outcome := Exhausted)
      else t.(turn := NextSeat(t.turn), mode := t.mode[NextSeat(t.turn) := Get], nextRequest := false)
    else t
  }

  /** The window closes when the last answer is in, and not before. */
  lemma WindowCloses(t: State)
    requires Shape(t)
    ensures CheckPart(t) == if t.checkOn && forall i :: IsSeat(i) ==> !t.inCheck[i]
                            then Compare(t.(checkOn := false, nextOn := true, sendOn := true)) else t
  {
  }

  /** The next seat is asked to draw while more than sixteen tiles are left; after that the round is over. */
  lemma TurnGoesRound(t: State)
    requires Shape(t) && t.nextRequest && t.nextOn
    ensures var next := t.turn % 4 + 1;
            NextPart(t) == if t.point < 128 then t.(turn := next, mode := t.mode[next := Get], nextRequest := false)
                           else t.(outcome := Exhausted)
  {
  }

  ghost function SendPart(t: State): (u: State)
    requires Shape(t) && (t.sendRequest ==> t.point < |t.wall|)
    ensures Shape(u)
  {
    if t.sendRequest && t.sendOn then SendCard(t) else t
  }

  ghost function LoopStep(t: State): (u: State)
    requires Shape(t) && (t.sendRequest ==> t.point < |t.wall|)
    ensures Shape(u)
  {
    SendPart(NextPart(CheckPart(t)))
  }

  /** When the host can handle an event. A player that has been shown a question answers it before
      throwing, and between its answer and its throw the loop turns; a player that has not been shown
      one throws, even when its seat is marked. */
  ghost predicate Enabled(t: State, e: Event)
    requires Shape(t)
  {
    t.outcome == Playing
    && match e
       case DrawTile => t.mode[1] == Get && t.point < |t.wall| && (IsFlower(t.wall[t.point]) ==> t.point + 1 < |t.wall|)
       case Ask(s) => IsSeat(s) && s != 1 && t.mode[s] == Get
       case ShowFlower(s) => IsSeat(s) && s != 1 && t.seats[s].extra.Drawn? && IsFlower(t.seats[s].extra.tile)
       case ThrowTile(s, c) => && IsSeat(s) && t.mode[s] == Throw && !t.told[s] && (t.checkOn ==> t.inCheck[s])
                               && c in InHand(t.seats[s])
       case Answer(s, a) => IsSeat(s) && t.told[s] && Allowed(t.seats[s], t.current, t.flags[s], a)
       case Loop => t.sendRequest ==> t.point < |t.wall|
  }

  ghost function Step(t: State, e: Event): State
    requires Shape(t) && Enabled(t, e)
  {
    match e
    case DrawTile => HostDraw(t)
    case Ask(s) => AskCard(t, s)
    case ShowFlower(s) => FlowerShown(t, s)
    case ThrowTile(s, c) => Throws(t, s, c)
    case Answer(s, a) => Answers(t, s, a)
    case Loop => LoopStep(t)
  }
}
