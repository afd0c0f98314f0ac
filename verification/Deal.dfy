/** The deal: sixteen tiles for every seat, one more for the dealer, and the flowers replaced. */
module Deal {
  import opened Tiles
  import opened Deck
  import opened Sorting
  import opened Arbitration

  const WALL := 144

  function FlowerCount(m: multiset<int>): nat {
    FlowersFrom(m, 51)
  }

  /** How many of the tiles are flowers with a code from `x` on. */
  function FlowersFrom(m: multiset<int>, x: int): nat
    decreases |m|, 59 - x
  {
    if x > 58 then 0 else m[x] + FlowersFrom(m, x + 1)
  }

  lemma {:induction false} FlowersFromAdds(a: multiset<int>, b: multiset<int>, x: int)
    ensures FlowersFrom(a + b, x) == FlowersFrom(a, x) + FlowersFrom(b, x)
    decreases 59 - x
  {
    if x <= 58 { FlowersFromAdds(a, b, x + 1); }
  }

  lemma FlowerCountAdds(a: multiset<int>, b: multiset<int>)
    ensures FlowerCount(a + b) == FlowerCount(a) + FlowerCount(b)
  {
    FlowersFromAdds(a, b, 51);
  }

  lemma {:induction false} FlowersFromOne(c: int, x: int)
    requires x >= 51
    ensures FlowersFrom(multiset{c}, x) == if x <= c <= 58 then 1 else 0
    decreases 59 - x
  {
    if x <= 58 { FlowersFromOne(c, x + 1); }
  }

  lemma FlowerCountOne(c: int)
    ensures FlowerCount(multiset{c}) == if IsFlower(c) then 1 else 0
  {
    FlowersFromOne(c, 51);
  }

  /** What is left of the wall. */
  ghost function Rest(wall: seq<int>, point: nat): multiset<int>
    requires point <= WALL <= |wall|
  {
    multiset(wall[point..WALL])
  }

  lemma NextTile(wall: seq<int>, point: nat)
    requires point < WALL <= |wall|
    ensures Rest(wall, point) == multiset{wall[point]} + Rest(wall, point + 1)
  {
    assert wall[point..WALL] == [wall[point]] + wall[point + 1..WALL];
  }

  ghost predicate NoFlower(s: seq<int>) {
    forall k :: 0 <= k < |s| ==> !IsFlower(s[k])
  }

  /** Looks at one tile of a hand; a flower is shown and the next tile of the wall takes its place. */
  method CheckBeginFlower(card: array<int>, mj: array<int>, point: nat, position: nat)
    returns (again: bool, next: nat)
    requires position < card.Length && card != mj && point <= WALL <= mj.Length
    requires IsFlower(card[position]) ==> point < WALL
    modifies card
    ensures again <==> old(IsFlower(card[position]))
    ensures next == if again then point + 1 else point
    ensures card[..] == old(if IsFlower(card[position]) then card[..][position := mj[point]] else card[..])
  {
    ghost var was := card[..];
    if card[position] <= 58 && card[position] >= 51 {
      card[position] := mj[point];
      assert card[..] == was[position := mj[point]];
      return true, point + 1;
    }
    assert card[..] == was;
    return false, point;
  }

  ghost function FlowersAhead(wall: seq<int>, point: nat, hand: multiset<int>): nat
    requires point <= WALL <= |wall|
  {
    FlowerCount(Rest(wall, point)) + FlowerCount(hand)
  }

  /** The tiles `before` have become the tiles `after` while the wall was drawn from `start` to
      `point`: nothing is lost, one tile has been drawn for every flower shown, and the wall is long
      enough for all the flowers still to come. */
  ghost predicate Exchanged(wall: seq<int>, start: nat, point: nat, before: multiset<int>, after: multiset<int>,
                            shown: multiset<int>) {
    && start <= point <= WALL <= |wall| && point == start + |shown| && FlowerCount(shown) == |shown|
    && after + shown + Rest(wall, point) == before + Rest(wall, start)
    && point + FlowersAhead(wall, point, after) <= WALL
  }

  lemma NothingExchanged(wall: seq<int>, start: nat, hand: multiset<int>)
    requires start <= WALL <= |wall| && start + FlowersAhead(wall, start, hand) <= WALL
    ensures Exchanged(wall, start, start, hand, hand, multiset{})
  {
  }

  // ----- One flower -----

  lemma ExchangeOne(wall: seq<int>, start: nat, point: nat, before: multiset<int>, c: int, shown: multiset<int>)
    requires Exchanged(wall, start, point, before, multiset{c}, shown) && IsFlower(c)
    ensures point < WALL && Exchanged(wall, start, point + 1, before, multiset{wall[point]}, shown + multiset{c})
    ensures FlowersAhead(wall, point + 1, multiset{wall[point]}) < FlowersAhead(wall, point, multiset{c})
  {
    FlowerCountOne(c);
    NextTile(wall, point);
    FlowerCountAdds(multiset{wall[point]}, Rest(wall, point + 1));
    ShownMore(shown, c);
    Turned(c, wall[point], shown, Rest(wall, point + 1), before + Rest(wall, start));
  }

  lemma Turned(c: int, d: int, shown: multiset<int>, left1: multiset<int>, all: multiset<int>)
    requires multiset{c} + shown + (multiset{d} + left1) == all
    ensures multiset{d} + (shown + multiset{c}) + left1 == all
  {
  }

  lemma ShownMore(shown: multiset<int>, c: int)
    requires FlowerCount(shown) == |shown| && IsFlower(c)
    ensures FlowerCount(shown + multiset{c}) == |shown + multiset{c}| == |shown| + 1
  {
    FlowerCountAdds(shown, multiset{c});
    FlowerCountOne(c);
  }

  // ----- Part of the tiles at a time -----

  /** Exchanging a part `a` of the tiles for `b` exchanges the whole. */
  lemma ExchangePart(wall: seq<int>, start: nat, mid: nat, point: nat, before: multiset<int>, whole: multiset<int>,
                     after: multiset<int>, a: multiset<int>, b: multiset<int>, shown: multiset<int>, more: multiset<int>)
    requires Exchanged(wall, start, mid, before, whole, shown) && Exchanged(wall, mid, point, a, b, more)
    requires after + a == whole + b
    ensures Exchanged(wall, start, point, before, after, shown + more)
  {
    PartSum(whole, shown, Rest(wall, mid), before + Rest(wall, start), b, more, Rest(wall, point), a, after);
    FlowerCountAdds(shown, more);
    PartCount(whole, Rest(wall, mid), b, more, Rest(wall, point), a, after);
  }

  lemma PartSum(whole: multiset<int>, shown: multiset<int>, mid: multiset<int>, all: multiset<int>, b: multiset<int>,
                more: multiset<int>, left: multiset<int>, a: multiset<int>, after: multiset<int>)
    requires whole + shown + mid == all && b + more + left == a + mid && after + a == whole + b
    ensures after + (shown + more) + left == all
  {
    forall x ensures (after + (shown + more) + left)[x] == all[x] {
      assert (whole + shown + mid)[x] == all[x];
      assert (b + more + left)[x] == (a + mid)[x];
      assert (after + a)[x] == (whole + b)[x];
    }
  }

  lemma PartCount(whole: multiset<int>, mid: multiset<int>, b: multiset<int>, more: multiset<int>, left: multiset<int>,
                  a: multiset<int>, after: multiset<int>)
    requires b + more + left == a + mid && after + a == whole + b
    ensures FlowerCount(more) + FlowerCount(left) + FlowerCount(after) == FlowerCount(mid) + FlowerCount(whole)
  {
    FlowerCountAdds(b + more, left);
    FlowerCountAdds(b, more);
    FlowerCountAdds(a, mid);
    FlowerCountAdds(after, a);
    FlowerCountAdds(whole, b);
  }

  lemma PartAhead(wall: seq<int>, point: nat, whole: multiset<int>, a: multiset<int>)
    requires point <= WALL <= |wall| && a <= whole
    ensures FlowersAhead(wall, point, a) <= FlowersAhead(wall, point, whole)
  {
    assert whole == (whole - a) + a;
    FlowerCountAdds(whole - a, a);
  }

  // ----- The messages -----

  /** What the owner of a hand is told of a flower replaced in it. */
  datatype Change = Change(position: nat, tile: int)

  /** A buffer after the changes of such messages. */
  function Applied(card: seq<int>, sent: seq<Change>): (r: seq<int>)
    ensures |r| == |card|
  {
    if sent == [] then card
    else
      var before := Applied(card, sent[..|sent| - 1]);
      var last := sent[|sent| - 1];
      if last.position < |card| then before[last.position := last.tile] else before
  }

  lemma AppliedOne(card: seq<int>, sent: seq<Change>, j: nat, t: int)
    requires j < |card|
    ensures Applied(card, sent + [Change(j, t)]) == Applied(card, sent)[j := t]
  {
    assert (sent + [Change(j, t)])[..|sent|] == sent;
  }

  lemma {:induction false} AppliedThen(card: seq<int>, a: seq<Change>, b: seq<Change>)
    ensures Applied(card, a + b) == Applied(Applied(card, a), b)
    decreases |b|
  {
    if b == [] {
      assert a + b == a;
    } else {
      assert (a + b)[..|a + b| - 1] == a + b[..|b| - 1];
      AppliedThen(card, a, b[..|b| - 1]);
    }
  }

  /** Tiles behind the ones looked at make no difference. */
  lemma {:induction false} AppliedInFront(a: seq<int>, b: seq<int>, n: nat, sent: seq<Change>)
    requires n <= |a| == |b| && a[..n] == b[..n]
    ensures Applied(a, sent)[..n] == Applied(b, sent)[..n]
    decreases |sent|
  {
    if sent != [] {
      AppliedInFront(a, b, n, sent[..|sent| - 1]);
      var last := sent[|sent| - 1];
      SameUpdate(Applied(a, sent[..|sent| - 1]), Applied(b, sent[..|sent| - 1]), n, last.position, last.tile);
    }
  }

  lemma SameUpdate(a: seq<int>, b: seq<int>, n: nat, j: nat, t: int)
    requires n <= |a| == |b| && a[..n] == b[..n]
    ensures j < |a| ==> a[j := t][..n] == b[j := t][..n]
  {
    assert forall k :: 0 <= k < n ==> a[k] == a[..n][k] == b[..n][k] == b[k];
  }

  // ----- A slot -----

  /** Replaces flowers in one slot until a suit tile lies there. The flowers still to come, in the
      slot and on the wall, are what ends the loop. The owner of the hand is told each new tile. */
  method FillSlot(card: array<int>, mj: array<int>, start: nat, j: nat)
    returns (point: nat, shown: multiset<int>, sent: seq<Change>)
    requires j < card.Length && card != mj && start <= WALL <= mj.Length
    requires start + FlowersAhead(mj[..], start, multiset{card[j]}) <= WALL
    modifies card
    ensures !IsFlower(card[j]) && card[..] == old(card[..])[j := card[j]]
    ensures Exchanged(mj[..], start, point, multiset{old(card[j])}, multiset{card[j]}, shown)
    ensures card[..] == Applied(old(card[..]), sent)
  {
    point, shown, sent := start, multiset{}, [];
    ghost var wall, was := mj[..], card[..];
    NothingExchanged(wall, start, multiset{was[j]});
    var again := true;
    while again
      invariant mj[..] == wall && card[..] == was[j := card[j]]
      invariant Exchanged(wall, start, point, multiset{was[j]}, multiset{card[j]}, shown)
      invariant !again ==> !IsFlower(card[j])
      invariant card[..] == Applied(was, sent)
      decreases FlowersAhead(wall, point, multiset{card[j]}) + if again then 1 else 0
    {
      var c := card[j];
      if IsFlower(c) { ExchangeOne(wall, start, point, multiset{was[j]}, c, shown); }
      again, point := CheckBeginFlower(card, mj, point, j);
      if again {
        shown := shown + multiset{c};
        AppliedOne(was, sent, j, card[j]);
        sent := sent + [Change(j, card[j])];
      }
    }
  }

  // ----- A hand -----

  lemma SlotOfHand(h: seq<int>, n: nat, j: nat, x: int)
    requires j < n <= |h|
    ensures multiset(h[j := x][..n]) + multiset{h[j]} == multiset(h[..n]) + multiset{x}
    ensures multiset{h[j]} <= multiset(h[..n])
  {
  }

  lemma ExchangeThen(wall: seq<int>, start: nat, mid: nat, point: nat, before: multiset<int>, whole: multiset<int>,
                     after: multiset<int>, shown: multiset<int>, more: multiset<int>)
    requires Exchanged(wall, start, mid, before, whole, shown) && Exchanged(wall, mid, point, whole, after, more)
    ensures Exchanged(wall, start, point, before, after, shown + more)
  {
    ExchangePart(wall, start, mid, point, before, whole, after, whole, after, shown, more);
  }

  lemma SlotExchanges(wall: seq<int>, start: nat, point: nat, h: seq<int>, j: nat, x: int, shown: multiset<int>)
    requires j < 16 <= |h| && start <= WALL <= |wall| && start + FlowersAhead(wall, start, multiset(h[..16])) <= WALL
    requires Exchanged(wall, start, point, multiset{h[j]}, multiset{x}, shown)
    ensures Exchanged(wall, start, point, multiset(h[..16]), multiset(h[j := x][..16]), shown)
  {
    SlotOfHand(h, 16, j, x);
    NothingExchanged(wall, start, multiset(h[..16]));
    ExchangePart(wall, start, start, point, multiset(h[..16]), multiset(h[..16]), multiset(h[j := x][..16]),
                 multiset{h[j]}, multiset{x}, multiset{}, shown);
    assert multiset{} + shown == shown;
  }

  lemma SlotAhead(wall: seq<int>, point: nat, h: seq<int>, j: nat)
    requires j < 16 <= |h| && point <= WALL <= |wall| && point + FlowersAhead(wall, point, multiset(h[..16])) <= WALL
    ensures point + FlowersAhead(wall, point, multiset{h[j]}) <= WALL
  {
    SlotOfHand(h, 16, j, h[j]);
    PartAhead(wall, point, multiset(h[..16]), multiset{h[j]});
  }

  /** The slots of a hand one after the other. */
  method FillSlots(card: array<int>, mj: array<int>, start: nat)
    returns (point: nat, shown: multiset<int>, sent: seq<Change>)
    requires card.Length == 20 && card != mj && start <= WALL <= mj.Length
    requires start + FlowersAhead(mj[..], start, multiset(card[..16])) <= WALL
    modifies card
    ensures NoFlower(card[..16]) && card[16..] == old(card[16..])
    ensures Exchanged(mj[..], start, point, multiset(old(card[..16])), multiset(card[..16]), shown)
    ensures card[..] == Applied(old(card[..]), sent)
  {
    point, shown, sent := start, multiset{}, [];
    ghost var wall, was := mj[..], card[..];
    NothingExchanged(wall, start, multiset(card[..16]));
    var j: nat := 0;
    while j < 16
      invariant j <= 16 && mj[..] == wall && card[16..] == was[16..] && NoFlower(card[..j])
      invariant Exchanged(wall, start, point, multiset(was[..16]), multiset(card[..16]), shown)
      invariant card[..] == Applied(was, sent)
    {
      ghost var h, mid := card[..], point;
      SlotAhead(wall, mid, h, j);
      var more: multiset<int>;
      var told: seq<Change>;
      point, more, told := FillSlot(card, mj, point, j);
      AppliedThen(was, sent, told);
      sent := sent + told;
      SlotExchanges(wall, mid, point, h, j, card[j], more);
      ExchangeThen(wall, start, mid, point, multiset(was[..16]), multiset(h[..16]), multiset(card[..16]), shown, more);
      shown := shown + more;
      j := j + 1;
    }
  }

  /** Replaces the flowers of a hand and sorts it. */
  method FillHand(card: array<int>, mj: array<int>, start: nat)
    returns (point: nat, shown: multiset<int>, sent: seq<Change>)
    requires card.Length == 20 && card != mj && start <= WALL <= mj.Length
    requires start + FlowersAhead(mj[..], start, multiset(card[..16])) <= WALL
    modifies card
    ensures NoFlower(card[..16]) && Sorted(card[..16])
    ensures forall k :: 16 <= k < 20 ==> card[k] == old(card[k])
    ensures Exchanged(mj[..], start, point, multiset(old(card[..16])), multiset(card[..16]), shown)
    ensures multiset(card[..16]) == multiset(Applied(old(card[..]), sent)[..16])
    ensures card[16] == Applied(old(card[..]), sent)[16]
  {
    ghost var was := card[..];
    point, shown, sent := FillSlots(card, mj, start);
    ghost var filled := card[..];
    assert filled[..16] == card[..16];
    BubbleSort(card, 16);
    SortKeepsNoFlower(filled[..16], card[..16]);
    SameTail(was, filled, card[..]);
  }

  lemma SameTail(a: seq<int>, b: seq<int>, c: seq<int>)
    requires |a| == |b| == |c| == 20 && b[16..] == a[16..] && forall k :: 16 <= k < 20 ==> c[k] == b[k]
    ensures forall k :: 16 <= k < 20 ==> c[k] == a[k]
  {
  }

  lemma SortKeepsNoFlower(a: seq<int>, b: seq<int>)
    requires NoFlower(a) && multiset(a) == multiset(b)
    ensures NoFlower(b)
  {
    forall k | 0 <= k < |b| ensures !IsFlower(b[k]) {
      assert b[k] in multiset(b);
      assert b[k] in a;
    }
  }

  // ----- All four hands -----

  function RowsBag(rows: seq<seq<int>>): multiset<int>
    requires |rows| == 5
  {
    multiset(rows[1]) + multiset(rows[2]) + multiset(rows[3]) + multiset(rows[4])
  }

  function FlowersBag(flowers: seq<multiset<int>>): multiset<int>
    requires |flowers| == 5
  {
    flowers[1] + flowers[2] + flowers[3] + flowers[4]
  }

  lemma OneRow(rows: seq<seq<int>>, s: nat, x: seq<int>)
    requires |rows| == 5 && IsSeat(s)
    ensures RowsBag(rows[s := x]) + multiset(rows[s]) == RowsBag(rows) + multiset(x)
    ensures multiset(rows[s]) <= RowsBag(rows)
  {
  }

  lemma MoreFlowers(flowers: seq<multiset<int>>, s: nat, more: multiset<int>)
    requires |flowers| == 5 && IsSeat(s)
    ensures FlowersBag(flowers[s := flowers[s] + more]) == FlowersBag(flowers) + more
  {
  }

  /** The wall has room for every flower that can turn up during the deal. */
  lemma RoomForFlowers(wall: seq<int>, hands: multiset<int>)
    requires WALL <= |wall| && IsDeck(multiset(wall[..WALL]))
    requires hands + Rest(wall, 65) == multiset(wall[..WALL])
    ensures 65 + FlowersAhead(wall, 65, hands) == 73
  {
    FlowerCountAdds(hands, Rest(wall, 65));
    DeckFlowers(multiset(wall[..WALL]));
  }

  lemma {:induction false} DeckFlowersFrom(deck: multiset<int>, x: int)
    requires IsDeck(deck) && 51 <= x <= 59
    ensures FlowersFrom(deck, x) == 59 - x
    decreases 59 - x
  {
    if x <= 58 {
      assert deck[x] == CodeCount(x);
      DeckFlowersFrom(deck, x + 1);
    }
  }

  lemma DeckFlowers(deck: multiset<int>)
    requires IsDeck(deck)
    ensures FlowerCount(deck) == 8
  {
    DeckFlowersFrom(deck, 51);
  }

  lemma NextSixteen(wall: seq<int>, point: nat)
    requires point + 16 <= |wall|
    ensures multiset(wall[..point]) + multiset(wall[point..point + 16]) == multiset(wall[..point + 16])
  {
    assert wall[..point + 16] == wall[..point] + wall[point..point + 16];
  }

  /** Sixteen tiles in a row for one seat. */
  method DealHand(card: array<int>, mj: array<int>, start: nat) returns (point: nat)
    requires card.Length == 20 && card != mj && start + 16 <= mj.Length
    modifies card
    ensures point == start + 16 && Sorted(card[..16])
    ensures multiset(card[..16]) == multiset(mj[start..start + 16])
  {
    point := start;
    var i: nat := 0;
    while i < 16
      invariant i <= 16 && point == start + i && card[..i] == mj[start..start + i]
    {
      card[i] := mj[point];
      point := point + 1;
      i := i + 1;
    }
    BubbleSort(card, 16);
  }

  /** The flowers of a row have been replaced from the wall between `a` and `b`, and lie beside it. */
  ghost predicate RowFilled(wall: seq<int>, a: nat, b: nat, row: seq<int>, shown: multiset<int>, filled: seq<int>,
                            flowers: multiset<int>) {
    && a <= b <= |wall| && NoFlower(filled) && Sorted(filled) && shown <= flowers
    && multiset(filled) + flowers == multiset(row) + shown + multiset(wall[a..b])
  }

  /** What a hand holds and has shown is what it held and had shown, and the tiles drawn for it. */
  lemma Drew(wall: seq<int>, start: nat, point: nat, before: multiset<int>, after: multiset<int>, more: multiset<int>,
             shown: multiset<int>)
    requires Exchanged(wall, start, point, before, after, more)
    ensures after + (shown + more) == before + shown + multiset(wall[start..point])
  {
    assert wall[start..WALL] == wall[start..point] + wall[point..WALL];
    forall x ensures (after + (shown + more))[x] == (before + shown + multiset(wall[start..point]))[x] {
      assert (after + more + Rest(wall, point))[x] == (before + Rest(wall, start))[x];
    }
  }

  /** The flowers of seat `s` have been replaced from the wall between `start` and `point`; the other seats
      hold and show what they did, and the deal as a whole is still right. */
  ghost predicate SeatFilled(wall: seq<int>, start: nat, point: nat, rows: seq<seq<int>>, shown: seq<multiset<int>>,
                             filled: seq<seq<int>>, flowers: seq<multiset<int>>, s: nat, c: int, before: multiset<int>) {
    && |rows| == |shown| == |filled| == |flowers| == 5 && IsSeat(s)
    && (forall k :: 0 <= k < 5 && k != s ==> filled[k] == rows[k] && flowers[k] == shown[k])
    && RowFilled(wall, start, point, rows[s], shown[s], filled[s], flowers[s])
    && Dealing(wall, point, filled, c, flowers, before)
  }

  lemma RowSeatFilled(wall: seq<int>, start: nat, point: nat, rows: seq<seq<int>>, s: nat, x: seq<int>, c: int,
                      shown: seq<multiset<int>>, more: multiset<int>, before: multiset<int>)
    requires Dealing(wall, start, rows, c, shown, before) && IsSeat(s) && NoFlower(x) && Sorted(x)
    requires Exchanged(wall, start, point, multiset(rows[s]), multiset(x), more)
    ensures SeatFilled(wall, start, point, rows, shown, rows[s := x], shown[s := shown[s] + more], s, c, before)
  {
    RowExchanged(wall, start, point, rows, s, x, c, shown, more, before);
    Drew(wall, start, point, multiset(rows[s]), multiset(x), more, shown[s]);
  }

  method FillRow(hand: array<int>, mj: array<int>, start: nat, shown: seq<multiset<int>>, s: nat,
                 ghost rows: seq<seq<int>>, ghost c: int, ghost before: multiset<int>)
    returns (point: nat, flowers: seq<multiset<int>>)
    requires hand.Length == 20 && hand != mj && WALL <= mj.Length && IsSeat(s)
    requires Dealing(mj[..], start, rows, c, shown, before) && rows[s] == hand[..16]
    modifies hand
    ensures hand[16] == old(hand[16]) && |flowers| == 5 && flowers == shown[s := flowers[s]]
    ensures SeatFilled(mj[..], start, point, rows, shown, rows[s := hand[..16]], flowers, s, c, before)
  {
    ghost var wall := mj[..];
    RowAhead(wall, start, rows, s, c, shown, before);
    var more: multiset<int>;
    var sent: seq<Change>;
    point, more, sent := FillHand(hand, mj, start);
    flowers := shown[s := shown[s] + more];
    RowSeatFilled(wall, start, point, rows, s, hand[..16], c, shown, more, before);
  }

  /** How many turns after the dealer a seat comes. */
  function Behind(dealer: nat, s: nat): nat
    requires IsSeat(dealer) && IsSeat(s)
  {
    if s >= dealer then s - dealer else s + 4 - dealer
  }

  lemma BehindNext(dealer: nat, s: nat)
    requires IsSeat(dealer) && IsSeat(s)
    ensures Behind(dealer, s) < 3 ==> Behind(dealer, NextSeat(s)) == Behind(dealer, s) + 1
    ensures forall k :: IsSeat(k) && Behind(dealer, k) == Behind(dealer, s) ==> k == s
  {
  }

  /** The first `i` seats from the dealer on have had their flowers replaced, each from the stretch of wall
      after the one of the seat before; the others hold what they held. */
  ghost predicate Filled(wall: seq<int>, dealer: nat, i: nat, cuts: seq<nat>, rows: seq<seq<int>>, shown: seq<multiset<int>>,
                         filled: seq<seq<int>>, flowers: seq<multiset<int>>)
    requires IsSeat(dealer)
  {
    && i <= 4 && |cuts| == i + 1 && |rows| == |shown| == |filled| == |flowers| == 5
    && forall s :: IsSeat(s) ==>
         var b := Behind(dealer, s);
         if b < i then RowFilled(wall, cuts[b], cuts[b + 1], rows[s], shown[s], filled[s], flowers[s])
         else filled[s] == rows[s] && flowers[s] == shown[s]
  }

  lemma FilledOne(wall: seq<int>, dealer: nat, i: nat, cuts: seq<nat>, rows: seq<seq<int>>, shown: seq<multiset<int>>,
                  was: seq<seq<int>>, were: seq<multiset<int>>, s: nat, point: nat,
                  filled: seq<seq<int>>, flowers: seq<multiset<int>>, c: int, before: multiset<int>)
    requires IsSeat(dealer) && IsSeat(s) && Filled(wall, dealer, i, cuts, rows, shown, was, were)
    requires i < 4 && Behind(dealer, s) == i
    requires SeatFilled(wall, cuts[i], point, was, were, filled, flowers, s, c, before)
    ensures Filled(wall, dealer, i + 1, cuts + [point], rows, shown, filled, flowers)
  {
    var more := cuts + [point];
    forall k | IsSeat(k)
      ensures var b := Behind(dealer, k);
              if b < i + 1 then RowFilled(wall, more[b], more[b + 1], rows[k], shown[k], filled[k], flowers[k])
              else filled[k] == rows[k] && flowers[k] == shown[k]
    {
      BehindNext(dealer, k);
    }
  }

  /** Five points in order on the wall after the tiles dealt. */
  ghost predicate InOrder(cuts: seq<nat>, wall: seq<int>) {
    |cuts| == 5 && 65 <= cuts[0] <= cuts[1] <= cuts[2] <= cuts[3] <= cuts[4] <= |wall|
  }

  /** The tiles a seat is dealt: its own sixteen, the stretch of wall its flowers are replaced from, and for
      the dealer the extra tile with what replaces it. */
  ghost function DealtTo(wall: seq<int>, dealer: nat, cuts: seq<nat>, s: nat): multiset<int>
    requires IsSeat(dealer) && IsSeat(s) && InOrder(cuts, wall)
  {
    var turn := (s - dealer) % 4;
    multiset(wall[16 * (s - 1)..16 * s]) + multiset(wall[cuts[turn]..cuts[turn + 1]])
    + if s == dealer then multiset(wall[64..cuts[0]]) else multiset{}
  }

  /** A seat holds, or has shown, the tiles it was dealt. */
  ghost predicate OwnTiles(wall: seq<int>, dealer: nat, cuts: seq<nat>, s: nat, row: seq<int>, flowers: multiset<int>, c: int)
    requires IsSeat(dealer) && IsSeat(s) && InOrder(cuts, wall)
  {
    multiset(row) + (if s == dealer then multiset{c} else multiset{}) + flowers == DealtTo(wall, dealer, cuts, s)
  }

  lemma RowHolds(wall: seq<int>, dealer: nat, cuts: seq<nat>, s: nat, row: seq<int>, shown: multiset<int>, filled: seq<int>,
                 flowers: multiset<int>, c: int)
    requires IsSeat(dealer) && IsSeat(s) && InOrder(cuts, wall)
    requires multiset(row) == multiset(wall[16 * (s - 1)..16 * s])
    requires var turn := (s - dealer) % 4; RowFilled(wall, cuts[turn], cuts[turn + 1], row, shown, filled, flowers)
    requires if s == dealer then multiset{c} + shown == multiset(wall[64..cuts[0]]) else shown == multiset{}
    ensures OwnTiles(wall, dealer, cuts, s, filled, flowers, c)
  {
    var turn := (s - dealer) % 4;
    var drawn := multiset(wall[cuts[turn]..cuts[turn + 1]]);
    if s == dealer {
      WithExtra(multiset(filled), flowers, multiset(row), shown, drawn, multiset{c}, multiset(wall[64..cuts[0]]));
    } else {
      WithExtra(multiset(filled), flowers, multiset(row), shown, drawn, multiset{}, multiset{});
    }
  }

  lemma TurnBehind(dealer: nat, s: nat)
    requires IsSeat(dealer) && IsSeat(s)
    ensures (s - dealer) % 4 == Behind(dealer, s) < 4
  {
  }

  /** Every seat has its sixteen tiles. */
  ghost predicate SixteenEach(wall: seq<int>, rows: seq<seq<int>>) {
    && |rows| == 5 && 64 <= |wall| && RowsBag(rows) == multiset(wall[..64])
    && forall s :: IsSeat(s) ==> multiset(rows[s]) == multiset(wall[16 * (s - 1)..16 * s])
  }

  /** Sixteen tiles lie at every seat and the dealer has its extra tile, with what it replaced beside it. */
  ghost predicate Started(wall: seq<int>, dealer: nat, point: nat, rows: seq<seq<int>>, shown: seq<multiset<int>>, c: int) {
    && IsSeat(dealer) && |rows| == |shown| == 5 && 65 <= point <= |wall| && !IsFlower(c)
    && SixteenEach(wall, rows) && multiset{c} + shown[dealer] == multiset(wall[64..point])
    && forall s :: IsSeat(s) && s != dealer ==> shown[s] == multiset{}
  }

  /** All seats have been dealt their tiles and hold no flowers. */
  ghost predicate Ended(wall: seq<int>, dealer: nat, cuts: seq<nat>, rows: seq<seq<int>>, flowers: seq<multiset<int>>, c: int) {
    && IsSeat(dealer) && |rows| == |flowers| == 5 && InOrder(cuts, wall) && !IsFlower(c)
    && forall s :: IsSeat(s) ==>
         NoFlower(rows[s]) && Sorted(rows[s]) && OwnTiles(wall, dealer, cuts, s, rows[s], flowers[s], c)
  }

  lemma ExtraDrew(wall: seq<int>, point: nat, c: int, d: int, shown: multiset<int>)
    requires Exchanged(wall, 65, point, multiset{c}, multiset{d}, shown) && c == wall[64]
    ensures multiset{d} + shown == multiset(wall[64..point])
  {
    Drew(wall, 65, point, multiset{c}, multiset{d}, shown, multiset{});
    assert multiset{} + shown == shown && multiset{c} + multiset{} == multiset{c};
    assert wall[64..point] == [c] + wall[65..point];
  }

  lemma ExtraRoom(wall: seq<int>, hands: multiset<int>)
    requires WALL <= |wall| && IsDeck(multiset(wall[..WALL])) && hands == multiset(wall[..64])
    ensures hands + multiset{wall[64]} + Rest(wall, 65) == multiset(wall[..WALL])
    ensures 65 + FlowersAhead(wall, 65, hands + multiset{wall[64]}) <= WALL
    ensures 65 + FlowersAhead(wall, 65, multiset{wall[64]}) <= WALL
  {
    AllDealt(wall, hands, wall[64]);
    RoomForFlowers(wall, hands + multiset{wall[64]});
    ExtraAhead(wall, hands, wall[64]);
  }

  lemma ExtraDealt(wall: seq<int>, point: nat, rows: seq<seq<int>>, d: int, shown: multiset<int>, dealer: nat)
    requires WALL <= |wall| && SixteenEach(wall, rows) && IsSeat(dealer) && !IsFlower(d)
    requires 65 + FlowersAhead(wall, 65, RowsBag(rows) + multiset{wall[64]}) <= WALL
    requires Exchanged(wall, 65, point, multiset{wall[64]}, multiset{d}, shown)
    ensures Dealing(wall, point, rows, d, NONE_SHOWN[dealer := shown], RowsBag(rows) + multiset{wall[64]})
    ensures Started(wall, dealer, point, rows, NONE_SHOWN[dealer := shown], d)
  {
    ExtraExchanged(wall, point, rows, wall[64], d, shown, dealer);
    ExtraDrew(wall, point, wall[64], d, shown);
  }

  lemma EachHolds(wall: seq<int>, dealer: nat, cuts: seq<nat>, rows: seq<seq<int>>, shown: seq<multiset<int>>,
                  filled: seq<seq<int>>, flowers: seq<multiset<int>>, c: int)
    requires IsSeat(dealer) && Filled(wall, dealer, 4, cuts, rows, shown, filled, flowers)
    requires Started(wall, dealer, cuts[0], rows, shown, c)
    ensures Ended(wall, dealer, cuts, filled, flowers, c)
  {
    CutsInOrder(wall, dealer, cuts, rows, shown, filled, flowers);
    forall s | IsSeat(s)
      ensures NoFlower(filled[s]) && Sorted(filled[s]) && OwnTiles(wall, dealer, cuts, s, filled[s], flowers[s], c)
    {
      TurnBehind(dealer, s);
      RowHolds(wall, dealer, cuts, s, rows[s], shown[s], filled[s], flowers[s], c);
    }
  }

  lemma CutsInOrder(wall: seq<int>, dealer: nat, cuts: seq<nat>, rows: seq<seq<int>>, shown: seq<multiset<int>>,
                    filled: seq<seq<int>>, flowers: seq<multiset<int>>)
    requires IsSeat(dealer) && Filled(wall, dealer, 4, cuts, rows, shown, filled, flowers) && 65 <= cuts[0]
    ensures InOrder(cuts, wall)
  {
    assert Behind(dealer, dealer) == 0;
    assert Behind(dealer, NextSeat(dealer)) == 1;
    assert Behind(dealer, NextSeat(NextSeat(dealer))) == 2;
    assert Behind(dealer, NextSeat(NextSeat(NextSeat(dealer)))) == 3;
  }

  lemma WithExtra(held: multiset<int>, flowers: multiset<int>, row: multiset<int>, shown: multiset<int>, drawn: multiset<int>,
                  c: multiset<int>, extra: multiset<int>)
    requires held + flowers == row + shown + drawn && c + shown == extra
    ensures held + c + flowers == row + drawn + extra
  {
    forall x ensures (held + c + flowers)[x] == (row + drawn + extra)[x] {
      assert (held + flowers)[x] == (row + shown + drawn)[x];
      assert (c + shown)[x] == extra[x];
    }
  }

  /** The host's buffers: the wall, a hand for each seat, and the flowers each seat has shown. */
  class Pools {
    const mj: array<int>
    const card: seq<array<int>>
    var point: nat
    var flowers: seq<multiset<int>>

    ghost predicate Valid()
      reads this
    {
      && mj.Length == 150 && |card| == 5 && |flowers| == 5
      && (forall i :: 0 <= i < 5 ==> card[i].Length == 20 && card[i] != mj)
      && (forall i, j :: 0 <= i < j < 5 ==> card[i] != card[j])
    }

    ghost function Rows(): (rows: seq<seq<int>>)
      requires |card| == 5 && forall i :: 0 <= i < 5 ==> card[i].Length == 20
      reads card
      ensures |rows| == 5 && forall i :: 0 <= i < 5 ==> |rows[i]| == 16 && rows[i] == card[i][..16]
    {
      [card[0][..16], card[1][..16], card[2][..16], card[3][..16], card[4][..16]]
    }

    lemma OnlyRow(s: nat, rows: seq<seq<int>>)
      requires Valid() && IsSeat(s) && |rows| == 5
      requires forall i :: 0 <= i < 5 && i != s ==> card[i][..16] == rows[i]
      ensures Rows() == rows[s := card[s][..16]]
    {
    }

    /** Every seat gets sixteen tiles. */
    method DealAll()
      requires Valid()
      modifies this`point, card
      ensures Valid() && point == 64 && SixteenEach(mj[..], Rows())
    {
      point := 0;
      var j: nat := 1;
      while j <= 4
        invariant 1 <= j <= 5 && Valid() && point == 16 * (j - 1) && mj[..] == old(mj[..])
        invariant forall i :: 1 <= i < j ==> multiset(card[i][..16]) == multiset(mj[16 * (i - 1)..16 * i])
      {
        point := DealHand(card[j], mj, point);
        j := j + 1;
      }
      FourHands(mj[..], Rows());
    }

    /** The flowers of one seat are replaced. */
    method FillSeat(s: nat, ghost c: int, ghost before: multiset<int>)
      requires Valid() && IsSeat(s) && Dealing(mj[..], point, Rows(), c, flowers, before)
      modifies this`point, this`flowers, card[s]
      ensures Valid() && SeatFilled(mj[..], old(point), point, old(Rows()), old(flowers), Rows(), flowers, s, c, before)
      ensures forall k :: 0 <= k < 5 ==> card[k][16] == old(card[k][16])
    {
      ghost var rows := Rows();
      point, flowers := FillRow(card[s], mj, point, flowers, s, rows, c, before);
      OnlyRow(s, rows);
    }

    /** The flowers of all seats are replaced, the dealer's first; `cuts` says where on the wall each
        seat's replacements start. */
    method FillAll(dealer: nat, ghost before: multiset<int>) returns (ghost cuts: seq<nat>)
      requires Valid() && IsSeat(dealer) && Dealing(mj[..], point, Rows(), card[dealer][16], flowers, before)
      modifies this`point, this`flowers, card
      ensures Valid() && Dealing(mj[..], point, Rows(), card[dealer][16], flowers, before)
      ensures card[dealer][16] == old(card[dealer][16])
      ensures Filled(mj[..], dealer, 4, cuts, old(Rows()), old(flowers), Rows(), flowers)
      ensures cuts[0] == old(point) && cuts[4] == point
    {
      var sit := dealer;
      var i: nat := 0;
      ghost var c, rows, shown := card[dealer][16], Rows(), flowers;
      cuts := [point];
      while i < 4
        invariant i <= 4 && Valid() && IsSeat(sit) && mj[..] == old(mj[..])
        invariant Dealing(mj[..], point, Rows(), c, flowers, before) && card[dealer][16] == c
        invariant i < 4 ==> Behind(dealer, sit) == i
        invariant Filled(mj[..], dealer, i, cuts, rows, shown, Rows(), flowers)
        invariant cuts[0] == old(point) && cuts[i] == point
      {
        ghost var was, were := Rows(), flowers;
        FillSeat(sit, c, before);
        FilledOne(mj[..], dealer, i, cuts, rows, shown, was, were, sit, point, Rows(), flowers, c, before);
        cuts := cuts + [point];
        BehindNext(dealer, sit);
        sit := NextSeat(sit);
        i := i + 1;
      }
    }

    /** The whole deal. Afterwards no hand holds a flower, and for every flower shown one more tile
        has left the wall than the sixty-five dealt. */
    method OpenDeal(dealer: nat) returns (ghost cuts: seq<nat>)
      requires Valid() && IsSeat(dealer) && IsDeck(multiset(mj[..WALL]))
      modifies this`point, this`flowers, card
      ensures Valid() && AllThere(mj[..], point, Rows(), flowers, card[dealer][16])
      ensures Ended(mj[..], dealer, cuts, Rows(), flowers, card[dealer][16]) && cuts[4] == point
    {
      DealAll();
      ghost var before := DealExtra(dealer);
      ghost var wall, rows, shown := mj[..], Rows(), flowers;
      cuts := FillAll(dealer, before);
      ghost var filled, c := Rows(), card[dealer][16];
      EachHolds(wall, dealer, cuts, rows, shown, filled, flowers, c);
      Complete(wall, point, filled, c, flowers, before);
    }

    /** The dealer's extra tile, replaced while it is a flower. */
    method DealExtra(dealer: nat) returns (ghost before: multiset<int>)
      requires Valid() && IsSeat(dealer) && IsDeck(multiset(mj[..WALL])) && point == 64
      requires SixteenEach(mj[..], Rows())
      modifies this`point, this`flowers, card[dealer]
      ensures Valid() && Dealing(mj[..], point, Rows(), card[dealer][16], flowers, before)
      ensures before + Rest(mj[..], 65) == multiset(mj[..WALL])
      ensures Started(mj[..], dealer, point, Rows(), flowers, card[dealer][16])
    {
      ghost var wall, rows := mj[..], Rows();
      ExtraRoom(wall, RowsBag(rows));
      before := RowsBag(rows) + multiset{wall[64]};
      var shown := DrawExtra(dealer);
      flowers := NONE_SHOWN[dealer := shown];
      ExtraDealt(wall, point, rows, card[dealer][16], shown, dealer);
    }

    method DrawExtra(dealer: nat) returns (shown: multiset<int>)
      requires Valid() && IsSeat(dealer) && point == 64 && 65 + FlowersAhead(mj[..], 65, multiset{mj[64]}) <= WALL
      modifies this`point, card[dealer]
      ensures Valid() && Rows() == old(Rows()) && !IsFlower(card[dealer][16])
      ensures Exchanged(mj[..], 65, point, multiset{mj[64]}, multiset{card[dealer][16]}, shown)
    {
      ghost var rows := Rows();
      card[dealer][16] := mj[point];
      point := point + 1;
      var sent: seq<Change>;
      point, shown, sent := FillSlot(card[dealer], mj, point, 16);
      assert Rows() == rows;
    }
  }

  /** How far the deal has come: `c` is the dealer's extra tile. */
  ghost predicate Dealing(wall: seq<int>, point: nat, rows: seq<seq<int>>, c: int, flowers: seq<multiset<int>>,
                          before: multiset<int>) {
    |rows| == 5 && |flowers| == 5 && Exchanged(wall, 65, point, before, RowsBag(rows) + multiset{c}, FlowersBag(flowers))
  }

  lemma ExtraExchanged(wall: seq<int>, point: nat, rows: seq<seq<int>>, c: int, d: int, shown: multiset<int>, s: nat)
    requires WALL <= |wall| && |rows| == 5 && IsSeat(s)
    requires 65 + FlowersAhead(wall, 65, RowsBag(rows) + multiset{c}) <= WALL
    requires Exchanged(wall, 65, point, multiset{c}, multiset{d}, shown)
    ensures Dealing(wall, point, rows, d, NONE_SHOWN[s := shown], RowsBag(rows) + multiset{c})
  {
    var before := RowsBag(rows) + multiset{c};
    NothingExchanged(wall, 65, before);
    SwapOne(RowsBag(rows), c, d);
    ExchangePart(wall, 65, 65, point, before, before, RowsBag(rows) + multiset{d}, multiset{c}, multiset{d}, multiset{}, shown);
    MoreFlowers(NONE_SHOWN, s, shown);
    assert FlowersBag(NONE_SHOWN) == multiset{} && multiset{} + shown == shown;
  }

  lemma SwapOne(m: multiset<int>, c: int, d: int)
    ensures (m + multiset{d}) + multiset{c} == (m + multiset{c}) + multiset{d}
  {
  }

  const NONE_SHOWN: seq<multiset<int>> := [multiset{}, multiset{}, multiset{}, multiset{}, multiset{}]

  lemma RowExchanged(wall: seq<int>, mid: nat, point: nat, rows: seq<seq<int>>, s: nat, x: seq<int>, c: int,
                     flowers: seq<multiset<int>>, more: multiset<int>, before: multiset<int>)
    requires Dealing(wall, mid, rows, c, flowers, before) && IsSeat(s)
    requires Exchanged(wall, mid, point, multiset(rows[s]), multiset(x), more)
    ensures Dealing(wall, point, rows[s := x], c, flowers[s := flowers[s] + more], before)
  {
    OneRow(rows, s, x);
    AddBoth(RowsBag(rows[s := x]), multiset(rows[s]), RowsBag(rows), multiset(x), c);
    ExchangePart(wall, 65, mid, point, before, RowsBag(rows) + multiset{c}, RowsBag(rows[s := x]) + multiset{c},
                 multiset(rows[s]), multiset(x), FlowersBag(flowers), more);
    MoreFlowers(flowers, s, more);
  }

  lemma AddBoth(a: multiset<int>, x: multiset<int>, b: multiset<int>, y: multiset<int>, c: int)
    requires a + x == b + y
    ensures (a + multiset{c}) + x == (b + multiset{c}) + y
  {
    forall t ensures ((a + multiset{c}) + x)[t] == ((b + multiset{c}) + y)[t] {
      assert (a + x)[t] == (b + y)[t];
    }
  }

  lemma RowAhead(wall: seq<int>, point: nat, rows: seq<seq<int>>, s: nat, c: int, flowers: seq<multiset<int>>,
                 before: multiset<int>)
    requires Dealing(wall, point, rows, c, flowers, before) && IsSeat(s)
    ensures point + FlowersAhead(wall, point, multiset(rows[s])) <= WALL
  {
    OneRow(rows, s, rows[s]);
    PartAhead(wall, point, RowsBag(rows) + multiset{c}, multiset(rows[s]));
  }

  lemma FourHands(wall: seq<int>, rows: seq<seq<int>>)
    requires 64 <= |wall| && |rows| == 5
    requires forall i :: 1 <= i < 5 ==> multiset(rows[i]) == multiset(wall[16 * (i - 1)..16 * i])
    ensures RowsBag(rows) == multiset(wall[..64])
  {
    NextSixteen(wall, 0);
    NextSixteen(wall, 16);
    NextSixteen(wall, 32);
    NextSixteen(wall, 48);
    assert multiset(rows[1]) == multiset(wall[0..16]) && multiset(rows[2]) == multiset(wall[16..32]);
    assert multiset(rows[3]) == multiset(wall[32..48]) && multiset(rows[4]) == multiset(wall[48..64]);
    assert multiset(wall[..0]) == multiset{};
  }

  lemma AllDealt(wall: seq<int>, hands: multiset<int>, c: int)
    requires WALL <= |wall| && hands == multiset(wall[..64]) && c == wall[64]
    ensures hands + multiset{c} + Rest(wall, 65) == multiset(wall[..WALL])
  {
    assert wall[..WALL] == wall[..64] + [wall[64]] + wall[65..WALL];
  }

  lemma ExtraAhead(wall: seq<int>, hands: multiset<int>, c: int)
    requires WALL <= |wall| && 65 + FlowersAhead(wall, 65, hands + multiset{c}) <= WALL
    ensures 65 + FlowersAhead(wall, 65, multiset{c}) <= WALL
  {
    PartAhead(wall, 65, hands + multiset{c}, multiset{c});
  }

  /** No tile is lost in the deal, and for every flower shown one more tile has left the wall than the
      sixty-five dealt. */
  ghost predicate AllThere(wall: seq<int>, point: nat, rows: seq<seq<int>>, flowers: seq<multiset<int>>, c: int) {
    && |rows| == |flowers| == 5 && point == 65 + |FlowersBag(flowers)| <= 73 && WALL <= |wall|
    && RowsBag(rows) + multiset{c} + FlowersBag(flowers) + Rest(wall, point) == multiset(wall[..WALL])
  }

  lemma Complete(wall: seq<int>, point: nat, rows: seq<seq<int>>, c: int, flowers: seq<multiset<int>>, before: multiset<int>)
    requires Dealing(wall, point, rows, c, flowers, before) && before + Rest(wall, 65) == multiset(wall[..WALL])
    requires IsDeck(multiset(wall[..WALL]))
    ensures AllThere(wall, point, rows, flowers, c)
  {
    var all := RowsBag(rows) + multiset{c} + FlowersBag(flowers) + Rest(wall, point);
    FlowerCountAdds(RowsBag(rows) + multiset{c} + FlowersBag(flowers), Rest(wall, point));
    FlowerCountAdds(RowsBag(rows) + multiset{c}, FlowersBag(flowers));
    DeckFlowers(all);
  }
}
