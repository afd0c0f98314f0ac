/** The end of a round: the best reading of the hand, the payments, and who deals next. */
module Settlement {

  /** Whose turn it is to deal, the round wind, and how often the dealer has stayed. */
  datatype Seatings = Seatings(dealer: int, wind: int, cont: nat)

  ghost predicate InOrder(r: Seatings) {
    1 <= r.dealer <= 4 && 1 <= r.wind <= 4
  }

  // ----- The best reading -----

  /** The first reading of the highest score. */
  method PickBest(taiSum: seq<int>) returns (best: nat)
    requires taiSum != []
    ensures best < |taiSum|
    ensures forall k :: 0 <= k < |taiSum| ==> taiSum[k] <= taiSum[best]
    ensures forall k :: 0 <= k < best ==> taiSum[k] < taiSum[best]
  {
    best := 0;
    var maxSum, i := taiSum[0], 0;
    while i < |taiSum|
      invariant i <= |taiSum| && best < |taiSum| && maxSum == taiSum[best] && (best < i || best == 0)
      invariant forall k :: 0 <= k < i ==> taiSum[k] <= maxSum
      invariant forall k :: 0 <= k < best ==> taiSum[k] < maxSum
    {
      if taiSum[i] > maxSum {
        best, maxSum := i, taiSum[i];
      }
      i := i + 1;
    }
  }

  // ----- Payments -----

  /** Tai 0 and 52, which the dealer's own win carries. */
  function DealerTai(r: Seatings, sit: int): nat {
    (if r.dealer == sit then 1 else 0) + if r.cont != 0 && r.dealer == sit then 2 * r.cont else 0
  }

  /** What one player pays for a win of `taiSum`; the dealer pays a surcharge. */
  function Payment(r: Seatings, base: int, tai: int, taiSum: int, payer: int): int {
    if payer == r.dealer then base + (taiSum + 1 + r.cont * 2) * tai else base + taiSum * tai
  }

  /** What seat `i` hands over: on a self-drawn win the three others pay, otherwise only the one
      who discarded does. */
  function PaidBy(r: Seatings, base: int, tai: int, taiSum: int, sit: int, owner: int, i: int): int {
    if i == sit || (sit != owner && i != owner) then 0 else Payment(r, base, tai, taiSum, i)
  }

  function Change(r: Seatings, base: int, tai: int, taiSum: int, sit: int, owner: int, i: int): int {
    if i == sit then Collected(r, base, tai, taiSum, sit, owner, 5) else -PaidBy(r, base, tai, taiSum, sit, owner, i)
  }

  /** What has been collected from the seats before `i`. */
  function Collected(r: Seatings, base: int, tai: int, taiSum: int, sit: int, owner: int, i: nat): int {
    if i <= 1 then 0
    else Collected(r, base, tai, taiSum, sit, owner, i - 1) + PaidBy(r, base, tai, taiSum, sit, owner, i - 1)
  }

  /** The money changes of seats 1 to 4 (entry 0 is not used). */
  function Changes(r: Seatings, base: int, tai: int, taiSum: int, sit: int, owner: int): (c: seq<int>)
    ensures |c| == 5
  {
    [0, Change(r, base, tai, taiSum, sit, owner, 1), Change(r, base, tai, taiSum, sit, owner, 2),
     Change(r, base, tai, taiSum, sit, owner, 3), Change(r, base, tai, taiSum, sit, owner, 4)]
  }

  function Total(m: seq<int>): int
    requires |m| == 5
  {
    m[1] + m[2] + m[3] + m[4]
  }

  /** No money appears or disappears. */
  lemma ChangesSumToZero(r: Seatings, base: int, tai: int, taiSum: int, sit: int, owner: int)
    requires 1 <= sit <= 4 && 1 <= owner <= 4
    ensures Total(Changes(r, base, tai, taiSum, sit, owner)) == 0
  {
    CollectedSum(r, base, tai, taiSum, sit, owner);
    assert PaidBy(r, base, tai, taiSum, sit, owner, sit) == 0;
  }

  lemma CollectedSum(r: Seatings, base: int, tai: int, taiSum: int, sit: int, owner: int)
    ensures Collected(r, base, tai, taiSum, sit, owner, 5)
            == PaidBy(r, base, tai, taiSum, sit, owner, 1) + PaidBy(r, base, tai, taiSum, sit, owner, 2)
               + PaidBy(r, base, tai, taiSum, sit, owner, 3) + PaidBy(r, base, tai, taiSum, sit, owner, 4)
  {
    assert Collected(r, base, tai, taiSum, sit, owner, 2) == PaidBy(r, base, tai, taiSum, sit, owner, 1);
    assert Collected(r, base, tai, taiSum, sit, owner, 3)
           == Collected(r, base, tai, taiSum, sit, owner, 2) + PaidBy(r, base, tai, taiSum, sit, owner, 2);
    assert Collected(r, base, tai, taiSum, sit, owner, 4)
           == Collected(r, base, tai, taiSum, sit, owner, 3) + PaidBy(r, base, tai, taiSum, sit, owner, 3);
  }

  lemma FromAll(r: Seatings, base: int, tai: int, taiSum: int, sit: int, c: seq<int>)
    requires 1 <= sit <= 4 && |c| == 5 && c[0] == 0 && c[sit] == Collected(r, base, tai, taiSum, sit, sit, 5)
    requires forall k :: 1 <= k < 5 && k != sit ==> c[k] == -PaidBy(r, base, tai, taiSum, sit, sit, k)
    ensures c == Changes(r, base, tai, taiSum, sit, sit)
  {
    forall k | 1 <= k < 5 ensures c[k] == Change(r, base, tai, taiSum, sit, sit, k) {}
  }

  /** The discarder pays alone, a self-drawn win is paid by the three others, and the dealer pays the
      surcharge. */
  lemma WhoPays(r: Seatings, base: int, tai: int, taiSum: int, sit: int, owner: int)
    requires 1 <= sit <= 4 && 1 <= owner <= 4
    ensures var c := Changes(r, base, tai, taiSum, sit, owner);
            && Total(c) == 0
            && (sit != owner ==>
                  && (forall i :: 1 <= i <= 4 && i != sit && i != owner ==> c[i] == 0)
                  && c[sit] == -c[owner] == base + (taiSum + if owner == r.dealer then 1 + 2 * r.cont else 0) * tai)
            && (sit == owner ==> forall i :: 1 <= i <= 4 && i != sit ==>
                  c[i] == -(base + (taiSum + if i == r.dealer then 1 + 2 * r.cont else 0) * tai))
  {
    ChangesSumToZero(r, base, tai, taiSum, sit, owner);
  }

  /** Between the dealer and another seat the same amount changes hands whichever of them wins. */
  lemma SameSurcharge(r: Seatings, base: int, tai: int, pattern: nat, dealer: int, other: int)
    requires r.dealer == dealer != other
    ensures Payment(r, base, tai, pattern + DealerTai(r, dealer), other)
            == Payment(r, base, tai, pattern + DealerTai(r, other), dealer)
            == base + (pattern + 1 + 2 * r.cont) * tai
  {
  }

  // ----- Dealer and wind -----

  function AfterWin(r: Seatings, sit: int): Seatings {
    if sit == r.dealer then r.(cont := r.cont + 1)
    else if r.dealer < 4 then Seatings(r.dealer + 1, r.wind, 0)
    else Seatings(1, if r.wind < 4 then r.wind + 1 else 1, 0)
  }

  /** The wall ran out: the dealer stays. */
  function AfterDraw(r: Seatings): Seatings {
    r.(cont := r.cont + 1)
  }

  /** The place in the cycle of sixteen dealers. */
  function Place(r: Seatings): int {
    (r.wind - 1) * 4 + r.dealer - 1
  }

  lemma PlaceAfterWin(r: Seatings, sit: int)
    requires InOrder(r)
    ensures InOrder(AfterWin(r, sit)) && 0 <= Place(r) < 16
    ensures Place(AfterWin(r, sit)) == if sit == r.dealer then Place(r) else (Place(r) + 1) % 16
  {
  }

  // ----- Whole games -----

  datatype Outcome = Win(sit: int, owner: int, pattern: nat) | WallEmpty

  ghost predicate Possible(o: Outcome) {
    o.Win? ==> 1 <= o.sit <= 4 && 1 <= o.owner <= 4
  }

  datatype Game = Game(seatings: Seatings, money: seq<int>)

  function Plus(a: seq<int>, b: seq<int>): (c: seq<int>)
    requires |a| == |b|
    ensures |c| == |a|
  {
    seq(|a|, i requires 0 <= i < |a| => a[i] + b[i])
  }

  function Play(g: Game, base: int, tai: int, o: Outcome): (h: Game)
    requires |g.money| == 5
    ensures |h.money| == 5
  {
    match o
    case WallEmpty => g.(seatings := AfterDraw(g.seatings))
    case Win(sit, owner, pattern) =>
      var r := g.seatings;
      Game(AfterWin(r, sit), Plus(g.money, Changes(r, base, tai, pattern + DealerTai(r, sit), sit, owner)))
  }

  function PlayAll(g: Game, base: int, tai: int, os: seq<Outcome>): (h: Game)
    requires |g.money| == 5
    ensures |h.money| == 5
    decreases |os|
  {
    if os == [] then g else PlayAll(Play(g, base, tai, os[0]), base, tai, os[1..])
  }

  /** How often the deal passes on. */
  function Passes(g: Game, base: int, tai: int, os: seq<Outcome>): nat
    requires |g.money| == 5
    decreases |os|
  {
    if os == [] then 0
    else (if os[0].Win? && os[0].sit != g.seatings.dealer then 1 else 0)
         + Passes(Play(g, base, tai, os[0]), base, tai, os[1..])
  }

  lemma PlusTotal(a: seq<int>, b: seq<int>)
    requires |a| == |b| == 5
    ensures Total(Plus(a, b)) == Total(a) + Total(b)
  {
  }

  lemma ModShift(a: int, k: nat)
    requires 0 <= a < 16
    ensures ((a + 1) % 16 + k) % 16 == (a + (1 + k)) % 16
  {
  }

  lemma PlayKept(g: Game, base: int, tai: int, o: Outcome)
    requires |g.money| == 5 && InOrder(g.seatings) && Possible(o)
    ensures var h := Play(g, base, tai, o);
            Total(h.money) == Total(g.money) && InOrder(h.seatings) && 0 <= Place(g.seatings) < 16
    ensures Place(Play(g, base, tai, o).seatings)
            == if o.Win? && o.sit != g.seatings.dealer then (Place(g.seatings) + 1) % 16 else Place(g.seatings)
  {
    if o.Win? {
      var r := g.seatings;
      var taiSum := o.pattern + DealerTai(r, o.sit);
      ChangesSumToZero(r, base, tai, taiSum, o.sit, o.owner);
      PlusTotal(g.money, Changes(r, base, tai, taiSum, o.sit, o.owner));
      PlaceAfterWin(r, o.sit);
    }
  }

  /** Over any game the money at the table is constant, dealer and wind stay in order, and the
      deal goes round in a cycle of sixteen. */
  lemma {:induction false} GameKept(g: Game, base: int, tai: int, os: seq<Outcome>)
    requires |g.money| == 5 && InOrder(g.seatings)
    requires forall k :: 0 <= k < |os| ==> Possible(os[k])
    ensures var h := PlayAll(g, base, tai, os);
            Total(h.money) == Total(g.money) && InOrder(h.seatings)
            && Place(h.seatings) == (Place(g.seatings) + Passes(g, base, tai, os)) % 16
    decreases |os|
  {
    if os == [] {
      assert 0 <= Place(g.seatings) < 16;
    } else {
      PlayKept(g, base, tai, os[0]);
      var h := Play(g, base, tai, os[0]);
      GameKept(h, base, tai, os[1..]);
      ModShift(Place(g.seatings), Passes(h, base, tai, os[1..]));
    }
  }

  /** While the deal does not pass on, every round adds one to the count of repeated deals; the round
      that passes it on sets the count to 0. */
  lemma {:induction false} StaysCounted(g: Game, base: int, tai: int, os: seq<Outcome>, last: Outcome)
    requires |g.money| == 5 && Passes(g, base, tai, os) == 0
    ensures var h := PlayAll(g, base, tai, os);
            && h.seatings == Seatings(g.seatings.dealer, g.seatings.wind, g.seatings.cont + |os|)
            && (last.Win? && last.sit != g.seatings.dealer <==> Passes(h, base, tai, [last]) == 1)
            && (Passes(h, base, tai, [last]) == 1 ==> Play(h, base, tai, last).seatings.cont == 0)
    decreases |os|
  {
    if os == [] {
      assert Passes(Play(g, base, tai, last), base, tai, [last][1..]) == 0;
    } else {
      StaysCounted(Play(g, base, tai, os[0]), base, tai, os[1..], last);
    }
  }

  // ----- The table's own state -----

  class TableInfo {
    var dealer: int
    var wind: int
    var contDealer: nat
    const baseValue: int
    const taiValue: int
    const money: array<int>

    ghost predicate Valid()
      reads this, money
    {
      money.Length == 5 && InOrder(Seatings(dealer, wind, contDealer))
    }

    ghost function Value(): Game
      reads this, money
    {
      Game(Seatings(dealer, wind, contDealer), money[..])
    }

    constructor (base: int, tai: int)
      ensures Valid() && Value().seatings == Seatings(1, 1, 0) && fresh(money)
      ensures baseValue == base && taiValue == tai
    {
      dealer, wind, contDealer := 1, 1, 0;
      baseValue, taiValue := base, tai;
      money := new int[5](_ => 0);
    }

    method AmountDue(i: int, taiSum: int) returns (x: int)
      ensures x == Payment(Seatings(dealer, wind, contDealer), baseValue, taiValue, taiSum, i)
    {
      if i == dealer {
        x := baseValue + (taiSum + 1 + contDealer * 2) * taiValue;
      } else {
        x := baseValue + taiSum * taiValue;
      }
    }

    /** Works out who pays what. */
    method Pay(sit: int, owner: int, taiSum: int) returns (change: array<int>)
      requires Valid() && 1 <= sit <= 4 && 1 <= owner <= 4
      ensures fresh(change)
      ensures change[..] == Changes(Seatings(dealer, wind, contDealer), baseValue, taiValue, taiSum, sit, owner)
      ensures change[0] == 0 && change[1] + change[2] + change[3] + change[4] == 0
      ensures sit != owner ==>
                && (forall i :: 1 <= i <= 4 && i != sit && i != owner ==> change[i] == 0)
                && change[sit] == -change[owner]
                   == baseValue + (taiSum + if owner == dealer then 1 + 2 * contDealer else 0) * taiValue
      ensures sit == owner ==> forall i :: 1 <= i <= 4 && i != sit ==>
                change[i] == -(baseValue + (taiSum + if i == dealer then 1 + 2 * contDealer else 0) * taiValue)
    {
      WhoPays(Seatings(dealer, wind, contDealer), baseValue, taiValue, taiSum, sit, owner);
      if sit == owner {
        change := CollectFromAll(sit, taiSum);
      } else {
        change := CollectFromOne(sit, owner, taiSum);
      }
      assert forall i :: 0 <= i < 5 ==> change[i] == change[..][i];
    }

    method CollectFromOne(sit: int, owner: int, taiSum: int) returns (change: array<int>)
      requires Valid() && 1 <= sit <= 4 && 1 <= owner <= 4 && sit != owner
      ensures fresh(change)
      ensures change[..] == Changes(Seatings(dealer, wind, contDealer), baseValue, taiValue, taiSum, sit, owner)
    {
      change := new int[5](_ => 0);
      var x := AmountDue(owner, taiSum);
      change[owner] := -x;
      change[sit] := change[sit] + -change[owner];
      CollectedSum(Seatings(dealer, wind, contDealer), baseValue, taiValue, taiSum, sit, owner);
    }

    method CollectFromAll(sit: int, taiSum: int) returns (change: array<int>)
      requires Valid() && 1 <= sit <= 4
      ensures fresh(change)
      ensures change[..] == Changes(Seatings(dealer, wind, contDealer), baseValue, taiValue, taiSum, sit, sit)
    {
      ghost var r := Seatings(dealer, wind, contDealer);
      change := new int[5](_ => 0);
      var i := 1;
      while i <= 4
        invariant 1 <= i <= 5 && change.Length == 5 && change[0] == 0
        invariant forall k :: 1 <= k < i && k != sit ==> change[k] == -PaidBy(r, baseValue, taiValue, taiSum, sit, sit, k)
        invariant forall k :: i <= k <= 4 && k != sit ==> change[k] == 0
        invariant change[sit] == Collected(r, baseValue, taiValue, taiSum, sit, sit, i)
      {
        if i != sit {
          var x := AmountDue(i, taiSum);
          change[i] := -x;
          change[sit] := change[sit] + -change[i];
        }
        i := i + 1;
      }
      FromAll(r, baseValue, taiValue, taiSum, sit, change[..]);
    }

    method AddMoney(change: array<int>)
      requires Valid() && change.Length == 5 && change != money && change[0] == 0
      modifies money
      ensures money[..] == Plus(old(money[..]), change[..])
    {
      var i := 1;
      while i <= 4
        invariant 1 <= i <= 5 && money[0] == old(money[0])
        invariant forall k :: 1 <= k < i ==> money[k] == old(money[k]) + change[k]
        invariant forall k :: i <= k <= 4 ==> money[k] == old(money[k])
      {
        money[i] := money[i] + change[i];
        i := i + 1;
      }
    }

    /** The deal passes on unless the dealer won. */
    method PassDeal(sit: int)
      requires Valid()
      modifies `dealer, `wind, `contDealer
      ensures Seatings(dealer, wind, contDealer) == AfterWin(old(Seatings(dealer, wind, contDealer)), sit)
      ensures Valid()
      ensures sit == old(dealer) ==> dealer == old(dealer) && wind == old(wind) && contDealer == old(contDealer) + 1
      ensures sit != old(dealer) ==> contDealer == 0 && dealer == old(dealer) % 4 + 1
                                     && wind == if old(dealer) == 4 then old(wind) % 4 + 1 else old(wind)
    {
      if sit != dealer {
        dealer := dealer + 1;
        contDealer := 0;
        if dealer == 5 {
          dealer := 1;
          wind := wind + 1;
          if wind == 5 { wind := 1; }
        }
      } else {
        contDealer := contDealer + 1;
      }
    }

    /** The wall ran out: the dealer stays and no money moves. */
    method KeepDeal()
      requires Valid()
      modifies `contDealer
      ensures Valid() && Value() == old(Play(Value(), baseValue, taiValue, WallEmpty))
      ensures contDealer == old(contDealer) + 1
    {
      contDealer := contDealer + 1;
    }

    /** Settles a win: the payments are made and the deal passes on or stays. */
    method ProcessMake(sit: int, owner: int, pattern: nat)
      requires Valid() && 1 <= sit <= 4 && 1 <= owner <= 4
      modifies `dealer, `wind, `contDealer, money
      ensures Valid() && Value() == old(Play(Value(), baseValue, taiValue, Win(sit, owner, pattern)))
      ensures money[1] + money[2] + money[3] + money[4] == old(money[1] + money[2] + money[3] + money[4])
      ensures sit != owner ==>
                && (forall i :: 1 <= i <= 4 && i != sit && i != owner ==> money[i] == old(money[i]))
                && money[sit] - old(money[sit]) == old(money[owner]) - money[owner]
                   == baseValue + (pattern + if old(dealer) in {sit, owner} then 1 + 2 * old(contDealer) else 0) * taiValue
      ensures sit == owner ==> forall i :: 1 <= i <= 4 && i != sit ==>
                old(money[i]) - money[i]
                == baseValue + (pattern + if old(dealer) in {sit, i} then 1 + 2 * old(contDealer) else 0) * taiValue
      ensures contDealer == if sit == old(dealer) then old(contDealer) + 1 else 0
      ensures dealer == if sit == old(dealer) then old(dealer) else old(dealer) % 4 + 1
      ensures wind == if sit != old(dealer) && old(dealer) == 4 then old(wind) % 4 + 1 else old(wind)
    {
      var taiSum := pattern + DealerTai(Seatings(dealer, wind, contDealer), sit);
      var change := Pay(sit, owner, taiSum);
      AddMoney(change);
      PassDeal(sit);
    }
  }
}
