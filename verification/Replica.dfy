/** The host's copy of a seat's hand against the owner's own. */
module Replica {
  import opened Tiles
  import opened Hands
  import opened Eating

  datatype Hand = Hand(num: nat, card: seq<int>)

  /** The tiles in play: the sorted ones, and the extra one when there is one. */
  ghost function InPlay(h: Hand, extra: bool): multiset<int>
    requires h.num < |h.card|
  {
    multiset(h.card[..if extra then h.num + 1 else h.num])
  }

  ghost predicate Fits(h: Hand) {
    |h.card| == 20 && h.num <= 16
  }

  /** Owner and host hold the same tiles; with no extra tile their sorted hands are identical. */
  ghost predicate Agree(o: Hand, m: Hand, extra: bool) {
    && Fits(o) && Fits(m) && o.num == m.num
    && InPlay(o, extra) == InPlay(m, extra)
    && (!extra ==> Sorted(o.card[..o.num]) && Sorted(m.card[..m.num]))
  }

  lemma AgreeMeansEqual(o: Hand, m: Hand)
    requires Agree(o, m, false)
    ensures o.card[..o.num] == m.card[..m.num]
  {
    SortedUnique(o.card[..o.num], m.card[..m.num]);
  }

  /** A tile is drawn, thrown, two tiles go to a pong or an eat, three to a kang, or the drawn tile is
      put down: a flower, or the fourth tile of a pong. */
  datatype Event =
    | Draw(tile: int)
    | Throw(index: nat, slot: nat)
    | Take(first: int, second: int)
    | Kang(tile: int)
    | Drop

  // ----- What an event does to each side -----

  ghost predicate Drawn(h: Hand, g: Hand, t: int)
    requires Fits(h)
  {
    g.num == h.num && g.card == h.card[h.num := t]
  }

  ghost predicate Taken(h: Hand, g: Hand, taken: multiset<int>)
    requires Fits(h)
  {
    Fits(g) && g.num + 3 == h.num && InPlay(h, false) == InPlay(g, true) + taken
  }

  ghost predicate Konged(h: Hand, g: Hand, c: int)
    requires Fits(h)
  {
    && Fits(g) && g.num + 3 == h.num && Sorted(g.card[..g.num])
    && InPlay(h, false) == InPlay(g, false) + multiset{c, c, c}
  }

  ghost predicate Thrown(h: Hand, g: Hand, t: int)
    requires Fits(h)
  {
    && Fits(g) && g.num == h.num && Sorted(g.card[..g.num])
    && InPlay(h, true) == InPlay(g, false) + multiset{t}
  }

  /** The host overwrites entry `slot` of its copy. */
  ghost predicate MirrorThrown(h: Hand, g: Hand, slot: nat)
    requires Fits(h) && slot < 20
  {
    && Fits(g) && g.num == h.num && Sorted(g.card[..g.num])
    && InPlay(g, false) == multiset(h.card[slot := h.card[h.num]][..h.num])
  }

  /** The tile that leaves the host's copy. */
  function Removed(m: Hand, slot: nat): int
    requires |m.card| == 20 && m.num < 20 && slot < 20
  {
    if slot < m.num then m.card[slot] else m.card[m.num]
  }

  lemma MirrorLoses(m: Hand, g: Hand, slot: nat)
    requires Fits(m) && slot < 20 && MirrorThrown(m, g, slot)
    ensures InPlay(m, true) == InPlay(g, false) + multiset{Removed(m, slot)}
  {
    if slot < m.num {
      ReplaceByLast(m.card, m.num + 1, slot);
    } else {
      DropLast(m.card, m.num + 1);
      assert m.card[slot := m.card[m.num]][..m.num] == m.card[..m.num];
    }
  }

  /** After a throw the two hands are equal exactly when the entry the host overwrites holds the
      thrown tile. */
  lemma MirrorThrowExactly(o: Hand, m: Hand, o': Hand, m': Hand, t: int, slot: nat)
    requires Agree(o, m, true) && slot < 20 && Thrown(o, o', t) && MirrorThrown(m, m', slot)
    ensures o'.card[..o'.num] == m'.card[..m'.num] <==> Removed(m, slot) == t
    ensures Removed(m, slot) == t ==> Agree(o', m', false)
  {
    MirrorLoses(m, m', slot);
    var r := Removed(m, slot);
    if r == t {
      Cancel(InPlay(o', false), InPlay(m', false), multiset{t});
      SortedUnique(o'.card[..o'.num], m'.card[..m'.num]);
    } else if o'.card[..o'.num] == m'.card[..m'.num] {
      DifferentSums(InPlay(o', false), t, r);
    }
  }

  lemma DifferentSums(a: multiset<int>, t: int, r: int)
    requires t != r
    ensures a + multiset{t} != a + multiset{r}
  {
    assert (a + multiset{t})[t] == a[t] + 1;
    assert (a + multiset{r})[t] == a[t];
  }

  /** The entry found by searching the host's sorted tiles, or entry `num`, is a right one. */
  lemma SearchedSlotWorks(o: Hand, m: Hand, index: nat)
    requires Agree(o, m, true) && index <= o.num
    ensures Removed(m, First(m.card, m.num, o.card[index])) == o.card[index]
  {
    var t := o.card[index];
    assert o.card[..o.num + 1][index] == t;
    assert t in InPlay(o, true);
    DropLast(m.card, m.num + 1);
    assert t in multiset(m.card[..m.num]) || t == m.card[m.num];
  }

  // ----- One event on both sides -----

  ghost predicate Step(o: Hand, m: Hand, extra: bool, e: Event, o': Hand, m': Hand, extra': bool)
    requires Fits(o) && Fits(m)
  {
    match e
    case Draw(t) => !extra && extra' && Drawn(o, o', t) && Drawn(m, m', t)
    case Throw(index, slot) =>
      && extra && !extra' && index <= o.num && slot < 20
      && Thrown(o, o', o.card[index]) && MirrorThrown(m, m', slot)
    case Take(a, b) => !extra && extra' && Taken(o, o', multiset{a, b}) && Taken(m, m', multiset{a, b})
    case Kang(c) => !extra' && Konged(o, o', c) && Konged(m, m', c)
    case Drop => extra && !extra' && o' == o && m' == m
  }

  /** The host overwrites an entry that holds the thrown tile. */
  ghost predicate RightSlot(o: Hand, m: Hand, e: Event)
    requires Fits(o) && Fits(m)
  {
    e.Throw? && e.index <= o.num && e.slot < 20 ==> Removed(m, e.slot) == o.card[e.index]
  }

  /** Beside a tile just drawn the two sides hold the same sorted tiles. */
  ghost predicate SameBelow(o: Hand, m: Hand)
    requires Fits(o) && Fits(m)
  {
    InPlay(o, false) == InPlay(m, false) && Sorted(o.card[..o.num]) && Sorted(m.card[..m.num])
  }

  lemma StepKeepsAgreement(o: Hand, m: Hand, extra: bool, e: Event, o': Hand, m': Hand, extra': bool)
    requires Agree(o, m, extra) && Step(o, m, extra, e, o', m', extra') && RightSlot(o, m, e)
    requires e.Kang? || e.Drop? ==> SameBelow(o, m)
    ensures Agree(o', m', extra')
    ensures e.Draw? ==> SameBelow(o', m')
  {
    match e
    case Draw(t) =>
      DropLast(o'.card, o.num + 1);
      DropLast(m'.card, m.num + 1);
      assert o'.card[..o.num] == o.card[..o.num] && m'.card[..m.num] == m.card[..m.num];
    case Throw(index, slot) => MirrorThrowExactly(o, m, o', m', o.card[index], slot);
    case Take(a, b) => Cancel(InPlay(o', true), InPlay(m', true), multiset{a, b});
    case Kang(c) => Cancel(InPlay(o', false), InPlay(m', false), multiset{c, c, c});
    case Drop =>
  }

  // ----- Whole rounds -----

  datatype Moment = Moment(owner: Hand, mirror: Hand, extra: bool, drawn: bool)

  /** A history of one seat: each moment follows from the one before by an event, a kang of an
      extra tile, a flower and a tile added to a pong only follow a draw, and the host always
      overwrites a right entry. */
  ghost predicate History(ms: seq<Moment>, es: seq<Event>) {
    && |ms| == |es| + 1
    && (forall k :: 0 <= k < |ms| ==> Fits(ms[k].owner) && Fits(ms[k].mirror))
    && forall k :: 0 <= k < |es| ==>
         && Step(ms[k].owner, ms[k].mirror, ms[k].extra, es[k], ms[k + 1].owner, ms[k + 1].mirror, ms[k + 1].extra)
         && RightSlot(ms[k].owner, ms[k].mirror, es[k])
         && (ms[k + 1].drawn <==> es[k].Draw?)
         && ((es[k].Kang? || es[k].Drop?) && ms[k].extra ==> ms[k].drawn)
  }

  /** In every history owner and host agree after each event, and whenever the hand has no extra
      tile, in particular after each throw, the two sorted hands are identical. */
  lemma {:induction false} HistoryAgrees(ms: seq<Moment>, es: seq<Event>, k: nat)
    requires History(ms, es) && k < |ms|
    requires Agree(ms[0].owner, ms[0].mirror, ms[0].extra) && !ms[0].drawn
    ensures Agree(ms[k].owner, ms[k].mirror, ms[k].extra)
    ensures ms[k].drawn ==> SameBelow(ms[k].owner, ms[k].mirror)
    ensures !ms[k].extra ==> ms[k].owner.card[..ms[k].owner.num] == ms[k].mirror.card[..ms[k].mirror.num]
  {
    if k > 0 {
      HistoryAgrees(ms, es, k - 1);
      StepKeepsAgreement(ms[k - 1].owner, ms[k - 1].mirror, ms[k - 1].extra, es[k - 1],
                         ms[k].owner, ms[k].mirror, ms[k].extra);
    }
    if !ms[k].extra {
      AgreeMeansEqual(ms[k].owner, ms[k].mirror);
    }
  }

  // ----- The code on both sides -----

  ghost function HandOf(p: Pool): Hand
    reads p, p.card
  {
    Hand(p.num, p.card[..])
  }

  ghost predicate Pair(o: Pool, m: Pool)
    reads o, m
  {
    o != m && o.card != m.card && o.Valid() && m.Valid()
  }

  method DrawBoth(o: Pool, m: Pool, t: int)
    requires Pair(o, m)
    modifies o.card, m.card
    ensures Step(old(HandOf(o)), old(HandOf(m)), false, Draw(t), HandOf(o), HandOf(m), true)
  {
    o.Draw(t);
    m.Draw(t);
  }

  method ThrowBoth(o: Pool, m: Pool, index: nat, slot: nat)
    requires Pair(o, m) && index <= o.num && slot < 20
    modifies o.card, m.card
    ensures Step(old(HandOf(o)), old(HandOf(m)), true, Throw(index, slot), HandOf(o), HandOf(m), false)
  {
    var t := o.Throw(index);
    m.MirrorThrow(slot);
  }

  method PongBoth(o: Pool, m: Pool, c: int)
    requires Pair(o, m) && o.SortedHand() && m.SortedHand()
    requires o.Tiles(o.num)[c] >= 2 && m.Tiles(m.num)[c] >= 2
    modifies o, m, o.card, m.card
    ensures Step(old(HandOf(o)), old(HandOf(m)), false, Take(c, c), HandOf(o), HandOf(m), true)
  {
    TakePong(o, c, true);
    TakePong(m, c, false);
  }

  method TakePong(p: Pool, c: int, own: bool)
    requires p.Valid() && p.SortedHand() && p.Tiles(p.num)[c] >= 2
    modifies p, p.card
    ensures p.Valid() && Taken(old(HandOf(p)), HandOf(p), multiset{c, c})
  {
    p.ClaimPong(c, own);
  }

  ghost predicate CanEat(p: Pool, code: int, t: int)
    requires 7 <= code <= 9 && p.Valid()
    reads p, p.card
  {
    && Wanted(code, t).0 != 0 && Wanted(code, t).0 in p.card[..p.num]
    && Wanted(code, t).1 != 0 && Wanted(code, t).1 in p.card[..p.num]
  }

  method EatBoth(o: Pool, m: Pool, code: int, t: int)
    requires Pair(o, m) && 7 <= code <= 9 && IsSuitTile(t)
    requires CanEat(o, code, t) && CanEat(m, code, t)
    modifies o, m, o.card, m.card
    ensures Step(old(HandOf(o)), old(HandOf(m)), false, Take(Wanted(code, t).0, Wanted(code, t).1),
                 HandOf(o), HandOf(m), true)
  {
    ClaimByCode(o, code, t, true);
    ClaimByCode(m, code, t, false);
  }

  method KangBoth(o: Pool, m: Pool, c: int, kind: int)
    requires Pair(o, m) && o.SortedHand() && m.SortedHand()
    requires o.Tiles(o.num)[c] == 3 && m.Tiles(m.num)[c] == 3
    modifies o, m, o.card, m.card
    ensures Step(old(HandOf(o)), old(HandOf(m)), kind == 11, Kang(c), HandOf(o), HandOf(m), false)
  {
    o.ClaimKang(c, kind, true);
    m.ClaimKang(c, kind, false);
  }

  /** A tile added to a pong: the owner marks the first meld that shows it, the host the first pong of
      it; the hands stay as they are. */
  method AddedKangBoth(o: Pool, m: Pool, c: int)
    requires Pair(o, m) && FindPong(m.outCard, c) < |m.outCard|
    modifies o`outCard, m`outCard
    ensures Step(old(HandOf(o)), old(HandOf(m)), true, Drop, HandOf(o), HandOf(m), false)
    ensures m.outCard == old(m.outCard)[FindPong(old(m.outCard), c) := OutCard(12, [c, c, c, c])]
    ensures var i, was := FindShown(old(o.outCard), c), old(o.outCard);
            o.outCard == if i < |was| then was[i := was[i].(kind := 12)] else was
  {
    o.AddOwnKang(c);
    m.ClaimAddedKang(c);
  }

  /** A flower: both sides mark it as shown, and the hands stay as they are. */
  method FlowerBoth(o: Pool, m: Pool, c: int)
    requires Pair(o, m) && o.flower != m.flower && IsFlower(c)
    modifies o.flower, m.flower
    ensures Step(old(HandOf(o)), old(HandOf(m)), true, Drop, HandOf(o), HandOf(m), false)
    ensures o.flower[..] == old(o.flower[..])[c - 51 := true] && m.flower[..] == old(m.flower[..])[c - 51 := true]
  {
    o.ShowFlower(c);
    m.ShowFlower(c);
  }
}
