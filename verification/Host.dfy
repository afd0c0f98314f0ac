/** The host's procedures on its own variables, each against the step of the round it carries out. */
module Host {
  import opened Tiles
  import opened Seats
  import opened Arbitration
  import opened Table
  import opened Round

  class Host {
    var wall: seq<int>
    var point: nat
    var seats: seq<Seat>
    var discards: seq<int>
    var burned: multiset<int>
    var turn: nat
    var owner: nat
    var current: int
    const mode: array<Mode>
    const flags: array<Flags>
    const inCheck: array<bool>
    const told: array<bool>
    const checkFor: array<int>
    var checkOn: bool
    var nextOn: bool
    var nextRequest: bool
    var sendOn: bool
    var sendRequest: bool
    var getting: bool
    var outcome: Outcome

    ghost function Repr(): set<object> {
      {this, mode, flags, inCheck, told, checkFor}
    }

    ghost function Record(): State
      reads Repr()
    {
      State(wall, point, seats, discards, burned, turn, owner, current, mode[..], flags[..], inCheck[..], told[..],
            checkFor[..], checkOn, nextOn, nextRequest, sendOn, sendRequest, getting, outcome)
    }

    ghost predicate Valid()
      reads Repr()
    {
      told != inCheck && Shape(Record())
    }

    // ----- Comparing the answers -----

    method FindWinner() returns (w: nat)
      requires Valid()
      ensures w == NearestWin(checkFor[..], owner, 4)
    {
      var i, j := owner, 1;
      while j <= 4
        invariant 1 <= j <= 5 && IsSeat(i)
        invariant NearestWin(checkFor[..], owner, 4) == NearestWin(checkFor[..], i, 5 - j)
      {
        i := NextSeat(i);
        if checkFor[i] == 4 { return i; }
        j := j + 1;
      }
      w := 0;
    }

    method FindClaim(a: int) returns (k: nat)
      requires Valid()
      ensures k == Lowest(checkFor[..], a, 1)
    {
      k := 1;
      while k <= 4
        invariant 1 <= k <= 5 && Lowest(checkFor[..], a, 1) == Lowest(checkFor[..], a, k)
      {
        if checkFor[k] == a { return; }
        k := k + 1;
      }
    }

    method FindEater() returns (k: nat)
      requires Valid()
      ensures k == LowestEater(checkFor[..], 1)
    {
      k := 1;
      while k <= 4
        invariant 1 <= k <= 5 && LowestEater(checkFor[..], 1) == LowestEater(checkFor[..], k)
      {
        if checkFor[k] >= 7 && checkFor[k] <= 9 { return; }
        k := k + 1;
      }
    }

    method ClearAnswers()
      requires Valid()
      modifies checkFor
      ensures checkFor[..] == NO_ANSWER
    {
      checkFor[0] := 0;
      var i := 1;
      while i <= 4
        invariant 1 <= i <= 5 && forall k :: 0 <= k < i ==> checkFor[k] == 0
      {
        checkFor[i] := 0;
        i := i + 1;
      }
    }

    method SetMode(k: nat, m: Mode)
      requires Valid() && IsSeat(k)
      modifies mode
      ensures Record() == old(Record()).(mode := old(mode[..])[k := m])
    {
      mode[k] := m;
      assert mode[..] == old(mode[..])[k := m];
    }

    /** The last tile leaves the grid of discards. */
    method PopDiscard()
      requires Valid()
      modifies `discards
      ensures Record() == old(Record()).(discards := Popped(old(discards)))
    {
      if |discards| > 0 { discards := discards[..|discards| - 1]; }
    }

    /** A seat takes the discard. */
    method ClaimDiscard(k: nat, code: int)
      requires Valid() && IsSeat(k) && code in {2, 3, 7, 8, 9}
      modifies this, mode
      ensures Record() == TakeDiscard(old(Record()), k, code)
      ensures owner == turn == k && discards == (if old(discards) == [] then [] else old(discards[..|discards| - 1]))
      ensures mode[..] == old(mode[..][k := if code == 3 then Get else Throw])
      ensures forall i :: 0 <= i < 5 && i != k ==> seats[i] == old(seats[i])
      ensures seats[k] == Claim(old(seats[k]), code, old(current))
    {
      SetSeat(k, Claim(seats[k], code, current), if code == 3 then Get else Throw);
      PopDiscard();
      owner := k;
      turn := k;
    }

    method ClaimKang(k: nat)
      requires Valid() && IsSeat(k)
      modifies this, mode
      ensures Record() == TakeKang(old(Record()), k)
      ensures owner == turn == k && mode[..] == old(mode[..][k := Get])
      ensures forall i :: 0 <= i < 5 && i != k ==> seats[i] == old(seats[i])
      ensures var s, c := old(seats[k]), old(current);
              && (c in s.hand && old(turn) == k ==> seats[k] == OwnKang(s, c) && discards == old(discards))
              && (c in s.hand && old(turn) != k ==>
                    && seats[k] == Claim(s, 3, c)
                    && discards == (if old(discards) == [] then [] else old(discards[..|discards| - 1])))
              && (c !in s.hand ==> seats[k] == JoinPong(s, c) && discards == old(discards))
    {
      if current in seats[k].hand {
        if turn == k {
          KangOf(k, OwnKang(seats[k], current));
        } else {
          ClaimDiscard(k, 3);
        }
      } else {
        KangOf(k, JoinPong(seats[k], current));
        turn := k;
      }
    }

    /** A kang with the drawn tile: the seat holds `x` then and draws again. */
    method KangOf(k: nat, x: Seat)
      requires Valid() && IsSeat(k)
      modifies `owner, `seats, mode
      ensures Record() == Placed(old(Record()), k, x, Get).(owner := k)
    {
      owner := k;
      SetSeat(k, x, Get);
    }

    method DeclareWin(w: nat)
      requires Valid()
      modifies `outcome, mode
      ensures Record() == old(Record()).(outcome := Won(w), mode := WAITING)
    {
      outcome := Won(w);
      mode[0] := Wait;
      var i := 1;
      while i <= 4
        invariant 1 <= i <= 5 && outcome == Won(w) && forall k :: 0 <= k < i ==> mode[k] == Wait
      {
        mode[i] := Wait;
        i := i + 1;
      }
      assert mode[..] == WAITING;
    }

    /** One pass over the winners, then over each kind of claim; the first that is found counts and the
        others are forgotten. */
    method FindVerdict() returns (v: Verdict)
      requires Valid()
      ensures v == Decide(checkFor[..], owner)
    {
      var w := FindWinner();
      if w != 0 { return Win(w); }
      var k := FindClaim(3);
      if k <= 4 { return Verdict.Kang(k); }
      k := FindClaim(2);
      if k <= 4 { return Verdict.Pong(k); }
      k := FindEater();
      if k <= 4 { return Eat(k, checkFor[k]); }
      v := Nobody;
    }

    method CarryOut(v: Verdict)
      requires Valid() && Proper(v)
      modifies this, mode
      ensures Record() == Act(old(Record()), v)
    {
      match v {
        case Win(w) => DeclareWin(w);
        case Kang(k) => ClaimKang(k);
        case Pong(k) => ClaimDiscard(k, 2);
        case Eat(k, code) => ClaimDiscard(k, code);
        case Nobody =>
      }
    }

    method CompareCheck()
      requires Valid()
      modifies this, mode, checkFor
      ensures Record() == Compare(old(Record()))
    {
      var v := FindVerdict();
      var request := v.Nobody? && !getting;
      CarryOut(v);
      ghost var acted := Record();
      ClearAnswers();
      nextRequest := request;
      getting := false;
      assert Record() == Finish(acted, request);
    }

    // ----- The loop -----

    method StillChecking() returns (asked: bool)
      requires Valid()
      ensures asked == StillAsked(Record())
    {
      var i := 1;
      while i <= 4
        invariant 1 <= i <= 5 && forall k :: 1 <= k < i ==> !inCheck[k]
      {
        if inCheck[i] { return true; }
        i := i + 1;
      }
      asked := false;
    }

    method CloseWindow()
      requires Valid()
      modifies this, mode, checkFor
      ensures Record() == CheckPart(old(Record()))
    {
      if checkOn {
        var asked := StillChecking();
        if !asked {
          checkOn := false;
          nextOn := true;
          sendOn := true;
          assert Record() == Closed(old(Record()));
          CompareCheck();
        }
      }
    }

    method NextPlayer()
      requires Valid()
      modifies this, mode
      ensures Record() == NextPart(old(Record()))
      ensures old(nextRequest && nextOn) && point < 128 ==>
                turn == old(turn) % 4 + 1 && mode[..] == old(mode[..])[turn := Get] && !nextRequest && outcome == old(outcome)
      ensures old(nextRequest && nextOn) && point >= 128 ==>
                outcome == Exhausted && turn == old(turn) && mode[..] == old(mode[..])
      ensures !old(nextRequest && nextOn) ==> Record() == old(Record())
    {
      if nextRequest && nextOn {
        if 144 - point <= 16 {
          outcome := Exhausted;
        } else {
          turn := NextSeat(turn);
          SetMode(turn, Get);
          nextRequest := false;
        }
      }
    }

    /** The owner of a new tile is asked when there is anything to ask; `f` is what the checks of its
        hand answer. */
    method AskAboutTile(s: nat, f: Flags)
      requires Valid() && IsSeat(s)
      modifies this, flags, inCheck, told
      ensures Record() == AskOwner(old(Record()), s, f)
    {
      flags[s] := f;
      inCheck[s] := false;
      if f.eat || f.pong || f.kang != 0 || f.make {
        getting := true;
        inCheck[s] := true;
        checkOn := true;
        told[s] := true;
      }
      assert flags[..] == old(flags[..])[s := f];
      assert told[..] == old(told[..])[s := old(told[s]) || AnyFlag(f)];
      assert inCheck[..] == old(inCheck[..])[s := AnyFlag(f)];
    }

    method StoreSent(c: int)
      requires Valid() && point < |wall| && c == wall[point]
      modifies this, mode
      ensures Record() == Sent(old(Record()), c)
    {
      TakeNext(turn, c);
      SetSeat(turn, seats[turn].(extra := Drawn(c)), if IsFlower(c) then Wait else Throw);
      sendRequest := false;
    }

    method TakeNext(s: nat, c: int)
      requires Valid() && point < |wall| && IsSeat(s)
      modifies `current, `owner, `point
      ensures Record() == DrawnFor(old(Record()), s, c)
    {
      current := c;
      owner := s;
      point := point + 1;
    }

    method SetSeat(s: nat, x: Seat, m: Mode)
      requires Valid() && IsSeat(s)
      modifies `seats, mode
      ensures Record() == Placed(old(Record()), s, x, m)
    {
      seats := seats[s := x];
      mode[s] := m;
      assert mode[..] == old(mode[..])[s := m];
    }

    method KeepDrawn(c: int)
      requires Valid() && point < |wall|
      modifies this, mode
      ensures Record() == HostKeeps(old(Record()), c)
    {
      TakeNext(1, c);
      SetSeat(1, seats[1].(extra := Drawn(c)), Throw);
      getting := true;
    }

    /** The host's own flower: the tile drawn to replace it is not stored. */
    method BurnNext(c: int)
      requires Valid() && point + 1 < |wall|
      modifies this, mode
      ensures Record() == HostBurns(old(Record()), c)
    {
      TakeNext(1, c);
      SetSeat(1, Show(seats[1], c), Get);
      BurnTop();
      getting := true;
    }

    method BurnTop()
      requires Valid() && point < |wall|
      modifies `burned, `point
      ensures Record() == Burnt(old(Record()))
    {
      burned := burned + multiset{wall[point]};
      point := point + 1;
    }

    method DrawCard(f: Flags)
      requires Valid() && point < |wall| && (IsFlower(wall[point]) ==> point + 1 < |wall|)
      requires f == DrawFlags(seats[1], wall[point])
      modifies this, mode, flags, inCheck, told
      ensures Record() == HostDraw(old(Record()))
    {
      var c := wall[point];
      if IsFlower(c) { BurnNext(c); } else { KeepDrawn(c); }
      AskAboutTile(1, f);
    }

    method SendOneCard(f: Flags)
      requires Valid() && point < |wall| && f == DrawFlags(seats[turn], wall[point])
      modifies this, mode, flags, inCheck, told
      ensures Record() == SendCard(old(Record()))
    {
      StoreSent(wall[point]);
      AskAboutTile(turn, f);
    }

    // ----- Messages -----

    method AnswerCheck(s: nat, a: int)
      requires Valid() && IsSeat(s)
      modifies inCheck, told, checkFor
      ensures Record() == Answers(old(Record()), s, a)
      ensures !inCheck[s] && !told[s] && checkFor[s] == a
      ensures forall i :: 0 <= i < 5 && i != s ==>
                inCheck[i] == old(inCheck[i]) && told[i] == old(told[i]) && checkFor[i] == old(checkFor[i])
    {
      inCheck[s] := false;
      told[s] := false;
      checkFor[s] := a;
      assert told[..] == old(told[..])[s := false];
      assert inCheck[..] == old(inCheck[..])[s := false] && checkFor[..] == old(checkFor[..])[s := a];
    }

    /** A player asks for a tile: the request waits for the loop. */
    method RequestCard(s: nat)
      requires Valid() && IsSeat(s)
      modifies `sendRequest, mode
      ensures Record() == AskCard(old(Record()), s)
      ensures sendRequest && mode[..] == old(mode[..])[s := Wait]
    {
      SetMode(s, Wait);
      sendRequest := true;
    }

    /** A player shows the flower it was sent: it lies with its flowers, and another tile is due. */
    method ShowFlower(s: nat)
      requires Valid() && IsSeat(s) && seats[s].extra.Drawn?
      modifies `seats, `sendRequest
      ensures Record() == FlowerShown(old(Record()), s)
      ensures sendRequest && forall i :: 0 <= i < 5 && i != s ==> seats[i] == old(seats[i])
      ensures var was := old(seats[s]);
              seats[s] == was.(extra := NoTile, flowers := was.flowers + multiset{was.extra.tile})
    {
      seats := seats[s := Show(seats[s], seats[s].extra.tile)];
      sendRequest := true;
    }

    /** Every other seat is checked; `f` holds what the checks of their hands answer. */
    method SetClaims(s: nat, f: seq<Flags>)
      requires Valid() && IsSeat(s) && |f| == 5
      modifies flags
      ensures forall i :: 0 <= i < 5 ==> flags[i] == if IsSeat(i) && i != s then f[i] else old(flags[i])
    {
      var i := 1;
      while i <= 4
        invariant 1 <= i <= 5
        invariant forall k :: 0 <= k < 5 ==> flags[k] == if 1 <= k < i && k != s then f[k] else old(flags[k])
      {
        if i != s { flags[i] := f[i]; }
        i := i + 1;
      }
    }

    /** One seat is marked, and its player shown the question, when there is something to ask. */
    method AskSeat(i: nat)
      requires Valid() && IsSeat(i)
      modifies inCheck, told
      ensures forall k :: 0 <= k < 5 ==> inCheck[k] == if k == i then AnyFlag(flags[i]) else old(inCheck[k])
      ensures forall k :: 0 <= k < 5 ==> told[k] == (old(told[k]) || (k == i && AnyFlag(flags[i])))
    {
      if AnyFlag(flags[i]) {
        inCheck[i] := true;
        told[i] := true;
      } else {
        inCheck[i] := false;
      }
    }

    /** The players of the other seats are asked, the host's own last. */
    method AskClaims(s: nat)
      requires Valid() && IsSeat(s) && !inCheck[0]
      modifies inCheck, told
      ensures forall k :: 0 <= k < 5 ==> inCheck[k] == if k == s then s != 1 && old(inCheck[s]) else AskedNow(s, flags[..], k)
      ensures forall k :: 0 <= k < 5 ==> told[k] == (old(told[k]) || AskedNow(s, flags[..], k))
    {
      AskRemote(s);
      if s != 1 { AskSeat(1); } else { inCheck[1] := false; }
    }

    method AskRemote(s: nat)
      requires Valid() && IsSeat(s)
      modifies inCheck, told
      ensures forall k :: 0 <= k < 5 ==> inCheck[k] == if k < 2 || k == s then old(inCheck[k]) else AskedNow(s, flags[..], k)
      ensures forall k :: 0 <= k < 5 ==> told[k] == (old(told[k]) || (k >= 2 && AskedNow(s, flags[..], k)))
    {
      var i: nat := 2;
      while i <= 4
        invariant 2 <= i <= 5
        invariant forall k :: 0 <= k < 5 ==>
                    inCheck[k] == if k < 2 || k == s || k >= i then old(inCheck[k]) else AskedNow(s, flags[..], k)
        invariant forall k :: 0 <= k < 5 ==> told[k] == (old(told[k]) || (2 <= k < i && AskedNow(s, flags[..], k)))
      {
        if i != s { AskSeat(i); }
        i := i + 1;
      }
    }

    method StoreThrow(s: nat, c: int)
      requires Valid() && IsSeat(s)
      modifies this, mode
      ensures Record() == Thrown(old(Record()), s, c)
    {
      SetMode(s, Wait);
      getting := false;
      current := c;
      discards := discards + [c];
      seats := seats[s := Without(seats[s], c)];
      checkOn := true;
      sendOn := false;
      nextOn := false;
    }

    method AskOtherSeats(s: nat, f: seq<Flags>)
      requires Valid() && IsSeat(s) && !inCheck[0] && |f| == 5 && f[0] == flags[0] && f[s] == flags[s]
      modifies flags, inCheck, told
      ensures Record() == AskOthers(old(Record()), s, f)
    {
      SetClaims(s, f);
      assert flags[..] == f;
      AskClaims(s);
      assert inCheck[..] == AskOthers(old(Record()), s, f).inCheck;
      assert told[..] == AskOthers(old(Record()), s, f).told;
    }

    /** A tile is thrown: the window for claims opens. `f` holds what the checks of the other hands
        answer. */
    method ThrowCard(s: nat, c: int, f: seq<Flags>)
      requires Valid() && IsSeat(s) && !inCheck[0] && f == FlagsAfterThrow(Record(), s, c)
      modifies this, mode, flags, inCheck, told
      ensures Record() == Throws(old(Record()), s, c)
    {
      StoreThrow(s, c);
      AskOtherSeats(s, f);
    }
  }
}
