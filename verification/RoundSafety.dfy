/** Every event of a round keeps its tiles and its phases. */
module RoundSafety {
  import opened Tiles
  import opened Seats
  import opened Arbitration
  import opened Table
  import opened Round
  import opened Phases

  // ----- Reading the phase off an event -----

  lemma WhoDraws(t: State, s: nat)
    requires Shape(t) && InPhase(t) && t.outcome == Playing && IsSeat(s) && t.mode[s] == Get
    ensures Getting(t) && t.turn == s
  {
  }

  lemma WhoThrows(t: State, s: nat)
    requires Shape(t) && InPhase(t) && t.outcome == Playing && IsSeat(s) && t.mode[s] == Throw
    requires !t.told[s] && (t.checkOn ==> t.inCheck[s])
    ensures Holding(t) && t.turn == s
  {
  }

  lemma WhoAnswers(t: State, s: nat)
    requires Shape(t) && InPhase(t) && t.outcome == Playing && IsSeat(s) && t.told[s]
    ensures t.inCheck[s] && ((Deciding(t) && t.turn == s) || (Window(t) && t.turn != s))
  {
  }

  lemma WhoShows(t: State, s: nat)
    requires Shape(t) && InPhase(t) && t.outcome == Playing && IsSeat(s)
    requires t.seats[s].extra.Drawn? && IsFlower(t.seats[s].extra.tile)
    ensures Flowering(t) && t.turn == s
  {
  }

  // ----- What a player may do -----

  /** The player whose turn it is may throw any tile of its hand, the drawn one included; nobody else may. */
  lemma MayThrow(t: State, s: nat, c: int)
    requires Shape(t) && t.outcome == Playing && Holding(t) && IsSeat(s)
    ensures Enabled(t, ThrowTile(s, c)) <==> s == t.turn && (c in t.seats[s].hand || t.seats[s].extra in {Drawn(c), SortedIn(c)})
  {
  }

  /** The player told to draw may do so, the host while the wall supplies its tile, another by asking. */
  lemma MayDraw(t: State, s: nat)
    requires Shape(t) && t.outcome == Playing && Getting(t) && IsSeat(s)
    ensures Enabled(t, DrawTile)
            <==> t.turn == 1 && t.point < |t.wall| && (51 <= t.wall[t.point] <= 58 ==> t.point + 1 < |t.wall|)
    ensures Enabled(t, Ask(s)) <==> s == t.turn && s != 1
  {
  }

  /** The player that was sent a flower may show it. */
  lemma MayShow(t: State, s: nat)
    requires Shape(t) && t.outcome == Playing && Flowering(t) && IsSeat(s)
    ensures Enabled(t, ShowFlower(s)) <==> s == t.turn
  {
  }

  // ----- Drawing -----

  lemma DrawBag(s: Seat, c: int)
    requires s.extra == NoTile
    ensures Bag(s.(extra := Drawn(c))) == Bag(s) + multiset{c}
    ensures Bag(Show(s, c)) == Bag(s) + multiset{c}
    ensures Size(s.(extra := Drawn(c))) == Size(s) + 1 && Size(Show(s, c)) == Size(s)
  {
  }

  lemma RestAfterDraw(t: State, n: multiset<int>, c: int, u: State)
    requires t.point < |t.wall| && c == t.wall[t.point]
    requires u.wall == t.wall && u.point == t.point + 1 && u.discards == t.discards && u.burned == t.burned
    ensures n + multiset{c} + RestBag(u) == n + RestBag(t)
  {
    WallStep(t.wall, t.point);
  }

  lemma RestAfterTwo(t: State, n: multiset<int>, c: int, u: State)
    requires t.point + 1 < |t.wall| && c == t.wall[t.point]
    requires u.wall == t.wall && u.point == t.point + 2 && u.discards == t.discards
    requires u.burned == t.burned + multiset{t.wall[t.point + 1]}
    ensures n + multiset{c} + RestBag(u) == n + RestBag(t)
  {
    WallStep(t.wall, t.point);
    WallStep(t.wall, t.point + 1);
  }

  /** One seat's tiles change together with the rest of the table. */
  lemma SeatConserves(t: State, u: State, deck: multiset<int>, s: nat)
    requires Conserves(t, deck) && Shape(u) && IsSeat(s) && u.wall == t.wall
    requires u.seats == t.seats[s := u.seats[s]] && SeatOk(u.seats[s])
    requires Bag(u.seats[s]) + RestBag(u) == Bag(t.seats[s]) + RestBag(t)
    ensures Conserves(u, deck)
  {
    MoveTiles(t, u, s);
    forall i | IsSeat(i) ensures SeatOk(u.seats[i]) {
      if i != s { assert u.seats[i] == t.seats[i]; }
    }
  }

  lemma BurnsConserves(t: State, deck: multiset<int>)
    requires Conserves(t, deck) && t.seats[1].extra == NoTile && t.point + 1 < |t.wall|
    ensures Conserves(HostBurns(t, t.wall[t.point]), deck)
  {
    var c := t.wall[t.point];
    var u := HostBurns(t, c);
    DrawBag(t.seats[1], c);
    assert SeatOk(t.seats[1]);
    RestAfterTwo(t, Bag(t.seats[1]), c, u);
    SeatConserves(t, u, deck, 1);
  }

  lemma KeepsConserves(t: State, deck: multiset<int>)
    requires Conserves(t, deck) && t.seats[1].extra == NoTile && t.point < |t.wall|
    ensures Conserves(HostKeeps(t, t.wall[t.point]), deck)
  {
    var c := t.wall[t.point];
    var u := HostKeeps(t, c);
    DrawBag(t.seats[1], c);
    assert SeatOk(t.seats[1]);
    RestAfterDraw(t, Bag(t.seats[1]), c, u);
    SeatConserves(t, u, deck, 1);
  }

  lemma HostDrawConserves(t: State, deck: multiset<int>)
    requires Conserves(t, deck) && t.seats[1].extra == NoTile && t.point < |t.wall|
    requires IsFlower(t.wall[t.point]) ==> t.point + 1 < |t.wall|
    ensures Conserves(HostDraw(t), deck)
  {
    if IsFlower(t.wall[t.point]) {
      BurnsConserves(t, deck);
      SameTilesConserve(HostBurns(t, t.wall[t.point]), HostDraw(t), deck);
    } else {
      KeepsConserves(t, deck);
      SameTilesConserve(HostKeeps(t, t.wall[t.point]), HostDraw(t), deck);
    }
  }

  lemma SizeModThree(s: Seat)
    requires Size(s) == 16 && s.extra == NoTile
    ensures |s.hand| % 3 == 1
  {
  }

  /** The sizes and drawn tiles after one seat has changed. */
  lemma SeatsAfter(t: State, u: State, s: nat, before: nat, after: nat)
    requires Shape(t) && Shape(u) && IsSeat(s) && Sizes(t, before) && NoExtra(t, before)
    requires u.seats == t.seats[s := u.seats[s]] && (before == 0 || before == s) && (after == 0 || after == s)
    requires Size(u.seats[s]) == if s == after then 17 else 16
    requires s != after ==> u.seats[s].extra == NoTile
    ensures Sizes(u, after) && NoExtra(u, after)
  {
    forall i | IsSeat(i)
      ensures Size(u.seats[i]) == (if i == after then 17 else 16) && (i != after ==> u.seats[i].extra == NoTile)
    {
      if i != s { assert u.seats[i] == t.seats[i]; }
    }
  }

  /** After the owner of a new tile has been looked at, it is asked or holds the tile. */
  lemma AskOwnerPhase(v: State, s: nat)
    requires Shape(v) && Holding(v) && v.turn == s && HasDrawn(v.seats[s], v.current)
    ensures var f := DrawFlags(v.seats[s], v.current);
            if AnyFlag(f) then Deciding(AskOwner(v, s, f)) else Holding(AskOwner(v, s, f))
  {
  }

  lemma HostKeepsPhase(t: State)
    requires Shape(t) && Getting(t) && t.turn == 1 && t.point < |t.wall| && IsSuitTile(t.wall[t.point])
    ensures Holding(HostKeeps(t, t.wall[t.point]))
  {
  }

  lemma HostBurnsPhase(t: State)
    requires Shape(t) && Getting(t) && t.turn == 1 && t.point + 1 < |t.wall|
    ensures Getting(HostBurns(t, t.wall[t.point]))
  {
    var c := t.wall[t.point];
    BurnsSizes(t, c);
    assert HostBurns(t, c).mode == t.mode[1 := Get];
  }

  lemma NoQuestionKeepsGetting(t: State)
    requires Shape(t) && Getting(t) && t.turn == 1
    ensures Getting(AskOwner(t, 1, NONE))
  {
  }

  lemma BurnsSizes(t: State, c: int)
    requires Shape(t) && Sizes(t, 0) && NoExtra(t, 0) && t.point + 1 < |t.wall|
    ensures Sizes(HostBurns(t, c), 0) && NoExtra(HostBurns(t, c), 0)
  {
  }

  /** A flower makes the host draw again. */
  lemma HostDrawsFlower(t: State)
    requires Shape(t) && Getting(t) && t.turn == 1 && t.point + 1 < |t.wall| && IsFlower(t.wall[t.point]) && SeatOk(t.seats[1])
    ensures Getting(HostDraw(t))
  {
    SizeModThree(t.seats[1]);
    NoFlagsForFlower(t.seats[1], t.wall[t.point]);
    HostBurnsPhase(t);
    NoQuestionKeepsGetting(HostBurns(t, t.wall[t.point]));
  }

  /** Any other tile is the host's to throw. */
  lemma HostDrawsTile(t: State)
    requires Shape(t) && Getting(t) && t.turn == 1 && t.point < |t.wall| && IsSuitTile(t.wall[t.point])
    ensures Holding(HostDraw(t)) || Deciding(HostDraw(t))
  {
    HostKeepsPhase(t);
    AskOwnerPhase(HostKeeps(t, t.wall[t.point]), 1);
  }

  lemma SendConserves(t: State, deck: multiset<int>)
    requires Conserves(t, deck) && t.seats[t.turn].extra == NoTile && t.point < |t.wall|
    ensures Conserves(SendCard(t), deck)
  {
    var c := t.wall[t.point];
    var u := SendCard(t);
    DrawBag(t.seats[t.turn], c);
    assert SeatOk(t.seats[t.turn]);
    RestAfterDraw(t, Bag(t.seats[t.turn]), c, u);
    SeatConserves(t, u, deck, t.turn);
  }

  lemma SentSizes(t: State, c: int)
    requires Shape(t) && Sizes(t, 0) && NoExtra(t, 0) && t.point < |t.wall|
    ensures Sizes(Sent(t, c), t.turn) && NoExtra(Sent(t, c), t.turn)
  {
    DrawBag(t.seats[t.turn], c);
    SeatsAfter(t, Sent(t, c), t.turn, 0, t.turn);
  }

  lemma SentFlower(t: State, c: int)
    requires Shape(t) && Requested(t) && t.point < |t.wall| && IsFlower(c)
    ensures Flowering(AskOwner(Sent(t, c), t.turn, NONE))
  {
    SentSizes(t, c);
  }

  lemma SentTile(t: State, c: int)
    requires Shape(t) && Requested(t) && t.point < |t.wall| && IsSuitTile(c)
    ensures Holding(Sent(t, c))
  {
    SentSizes(t, c);
  }

  /** A flower that is sent out has to be shown. */
  lemma SendsFlower(t: State)
    requires Shape(t) && Requested(t) && t.point < |t.wall| && IsFlower(t.wall[t.point]) && SeatOk(t.seats[t.turn])
    ensures Flowering(SendCard(t))
  {
    SentFlower(t, t.wall[t.point]);
    SizeModThree(t.seats[t.turn]);
    NoFlagsForFlower(t.seats[t.turn], t.wall[t.point]);
  }

  /** Any other tile is the player's to throw. */
  lemma SendsTile(t: State)
    requires Shape(t) && Requested(t) && t.point < |t.wall| && IsSuitTile(t.wall[t.point])
    ensures Holding(SendCard(t)) || Deciding(SendCard(t))
  {
    SentTile(t, t.wall[t.point]);
    AskOwnerPhase(Sent(t, t.wall[t.point]), t.turn);
  }

  lemma AskPhase(t: State, s: nat)
    requires Shape(t) && Getting(t) && t.turn == s != 1
    ensures Requested(AskCard(t, s))
  {
  }

  lemma ShowBag(s: Seat)
    requires s.extra.Drawn?
    ensures Bag(Show(s, s.extra.tile)) == Bag(s) && Size(Show(s, s.extra.tile)) == Size(s) - 1
  {
  }

  lemma FlowerConserves(t: State, deck: multiset<int>, s: nat)
    requires Conserves(t, deck) && IsSeat(s) && t.seats[s].extra.Drawn?
    ensures Conserves(FlowerShown(t, s), deck)
  {
    ShowBag(t.seats[s]);
    assert SeatOk(t.seats[s]);
    SeatConserves(t, FlowerShown(t, s), deck, s);
  }

  lemma FlowerPhase(t: State, s: nat)
    requires Shape(t) && Flowering(t) && t.turn == s
    ensures Requested(FlowerShown(t, s))
  {
  }

  // ----- Throwing and answering -----

  lemma ThrowBag(s: Seat, c: int)
    requires SeatOk(s) && c in InHand(s) && (s.extra != NoTile ==> IsSuitTile(s.extra.tile))
    ensures Bag(Without(s, c)) + multiset{c} == Bag(s) && Size(Without(s, c)) == Size(s) - 1
    ensures SeatOk(Without(s, c)) && IsSuitTile(c)
  {
  }

  lemma RestAfterThrow(t: State, u: State, c: int, a: multiset<int>, b: multiset<int>)
    requires t.point <= |t.wall| && u.wall == t.wall && u.point == t.point && u.burned == t.burned
    requires u.discards == t.discards + [c] && a + multiset{c} == b
    ensures a + RestBag(u) == b + RestBag(t)
  {
  }

  lemma ThrowConserves(t: State, deck: multiset<int>, s: nat, c: int)
    requires Conserves(t, deck) && Holding(t) && t.turn == s && c in InHand(t.seats[s])
    ensures Conserves(Throws(t, s, c), deck)
  {
    var u := Throws(t, s, c);
    assert SeatOk(t.seats[s]);
    ThrowBag(t.seats[s], c);
    RestAfterThrow(t, u, c, Bag(u.seats[s]), Bag(t.seats[s]));
    SeatConserves(t, u, deck, s);
  }

  lemma ThrowAsks(t: State, s: nat, c: int)
    requires Shape(t) && Holding(t) && t.turn == s
    ensures var u := Throws(t, s, c);
            forall i :: IsSeat(i) && i != s ==> AskedRightly(u, i)
  {
  }

  lemma ThrowPhase(t: State, s: nat, c: int)
    requires Shape(t) && Holding(t) && t.turn == s && SeatOk(t.seats[s]) && c in InHand(t.seats[s])
    ensures Window(Throws(t, s, c))
  {
    var u := Throws(t, s, c);
    ThrowBag(t.seats[s], c);
    SeatsAfter(t, u, s, s, 0);
    ThrowAsks(t, s, c);
  }

  lemma AnswerOwn(t: State, s: nat, a: int)
    requires Shape(t) && Deciding(t) && t.turn == s && Allowed(t.seats[s], t.current, t.flags[s], a)
    ensures Deciding(Answers(t, s, a))
  {
  }

  lemma AnswerClaim(t: State, s: nat, a: int)
    requires Shape(t) && Window(t) && IsSeat(s) && t.turn != s && Allowed(t.seats[s], t.current, t.flags[s], a)
    ensures Window(Answers(t, s, a))
  {
  }
}
