/** `check_make` and `full_check`: deciding a win and listing every way to read it. */
module CheckMake {
  import opened Tiles
  import opened Melds
  import opened Search
  import opened Sorting
  import opened SuitSearch
  import opened Winning

  predicate Playable(t: int) {
    IsSuitTile(t) || IsFlower(t)
  }

  ghost predicate AllPlayable(s: seq<int>) {
    forall k :: 0 <= k < |s| ==> Playable(s[k])
  }

  /** The components recorded for a hand, suit by suit. */
  ghost function ComponentsOf(hand: seq<int>): seq<seq<Component>> {
    seq(5, i requires 0 <= i < 5 => Typed(Paths(SuitBag(hand, i), [])))
  }

  ghost predicate SplitsAt(s: seq<int>, j: nat, bound: int) {
    j <= |s| && (forall k :: 0 <= k < j ==> s[k] < bound) && (forall k :: j <= k < |s| ==> bound < s[k])
  }

  lemma {:induction false} NoneInSuit(s: seq<int>, suit: nat)
    requires forall k :: 0 <= k < |s| ==> !InSuit(s[k], suit)
    ensures SuitTiles(s, suit) == []
  {
    if s != [] { NoneInSuit(s[1..], suit); }
  }

  lemma {:induction false} SuitTilesConcat(a: seq<int>, b: seq<int>, suit: nat)
    ensures SuitTiles(a + b, suit) == SuitTiles(a, suit) + SuitTiles(b, suit)
  {
    if a == [] {
      assert a + b == b;
    } else {
      assert (a + b)[1..] == a[1..] + b;
      SuitTilesConcat(a[1..], b, suit);
    }
  }

  lemma SuitSlice(s: seq<int>, suit: nat, a: nat, b: nat)
    requires a <= b <= |s|
    requires forall k :: 0 <= k < |s| ==> (InSuit(s[k], suit) <==> a <= k < b)
    ensures SuitTiles(s, suit) == s[a..b]
  {
    assert s == s[..a] + s[a..b] + s[b..];
    SuitTilesConcat(s[..a] + s[a..b], s[b..], suit);
    SuitTilesConcat(s[..a], s[a..b], suit);
    NoneInSuit(s[..a], suit);
    NoneInSuit(s[b..], suit);
    AllOfSuit(s[a..b], suit);
  }

  lemma SameSuitBag(a: seq<int>, b: seq<int>, suit: nat)
    requires multiset(a) == multiset(b)
    ensures SuitBag(a, suit) == SuitBag(b, suit)
  {
    forall t ensures SuitBag(a, suit)[t] == SuitBag(b, suit)[t] {
      SuitTilesCount(a, suit, t);
      SuitTilesCount(b, suit, t);
    }
  }

  class WinCheck {
    var component: seq<seq<Component>>
    var cardComb: seq<seq<Meld>>

    constructor ()
    {
      component, cardComb := [], [];
    }

    /** Copies a path from its last meld upwards and works out its type. */
    static method ListPath(chain: seq<Meld>) returns (c: Component)
      requires chain != []
      ensures c == ComponentOf(chain)
    {
      var kind, i := 2, 0;
      while i < |chain|
        invariant i <= |chain|
        invariant kind == if PairCount(chain[..i]) == 0 then 2 else if PairCount(chain[..i]) == 1 then 3 else 4
      {
        PairsSoFar(chain, i);
        if chain[i].kind == Pair {
          kind := if kind >= 3 then 4 else 3;
        }
        i := i + 1;
      }
      assert chain[..|chain|] == chain;
      c := Component(kind, chain);
    }

    /** Visits the tree in preorder and records a component at every end node. */
    method PreTrav(t: Tree, suit: nat)
      requires suit < |component|
      modifies `component
      ensures |component| == |old(component)| && component[suit] == old(component)[suit] + Listed(t)
      ensures forall i :: 0 <= i < |component| && i != suit ==> component[i] == old(component)[i]
      decreases t
    {
      if t.Node? {
        ghost var before, head := component[suit], [];
        if t.end {
          var c := Component(1, []); // no card in this suit
          if t.chain != [] {
            c := ListPath(t.chain);
          }
          component := component[suit := component[suit] + [c]];
          head := [c];
        }
        PreTrav(t.three, suit);
        PreTrav(t.straight, suit);
        PreTrav(t.pair, suit);
        Appended(before, head, Listed(t.three), Listed(t.straight), Listed(t.pair));
        assert component[suit] == before + head + Listed(t.three) + Listed(t.straight) + Listed(t.pair) by {
          assert before + [] == before;
        }
      }
    }

    /** Lists the ways to divide one suit. */
    method SearchSuit(tiles: seq<int>, suit: nat)
      requires suit < |component| && component[suit] == []
      requires Sorted(tiles) && |tiles| < 20 && forall k :: 0 <= k < |tiles| ==> tiles[k] > 0
      modifies `component
      ensures component == old(component)[suit := Typed(Paths(multiset(tiles), []))]
    {
      var t := SuitTree(tiles);
      PreTrav(t, suit);
      ListedTree(multiset(tiles), []);
      assert component[suit] == Listed(t);
    }

    method SuitTree(tiles: seq<int>) returns (t: Tree)
      requires Sorted(tiles) && |tiles| < 20 && forall k :: 0 <= k < |tiles| ==> tiles[k] > 0
      ensures t == TreeOf(multiset(tiles), [])
    {
      var cards := new CardInfo(tiles);
      AllLess(multiset(tiles));
      t := cards.BuildTree([]);
    }

    method CopyHand(hand: seq<int>, card: int) returns (buf: array<int>)
      requires |hand| <= 16
      ensures fresh(buf) && buf.Length == 20
      ensures buf[..|hand| + 1] == hand + [card] && buf[|hand| + 1] == 0
    {
      buf := new int[20](_ => 0);
      var i := 0;
      while i < |hand|
        invariant i <= |hand| && buf[..i] == hand[..i]
        invariant forall k :: i <= k < 20 ==> buf[k] == 0
      {
        buf[i] := hand[i];
        i := i + 1;
      }
      buf[i] := card;
    }

    /** The hand and the card, sorted and closed by a 0. */
    method FillBuffer(hand: seq<int>, card: int) returns (buf: array<int>)
      requires |hand| <= 16
      ensures fresh(buf) && buf.Length == 20 && buf[|hand| + 1] == 0
      ensures Sorted(buf[..|hand| + 1]) && multiset(buf[..|hand| + 1]) == multiset(hand + [card])
    {
      buf := CopyHand(hand, card);
      BubbleSort(buf, |hand| + 1);
    }

    ghost predicate Searched(hand: seq<int>, suits: nat)
      reads this
    {
      && |component| == 5
      && (forall i :: 0 <= i < suits && i < 5 ==> component[i] == Typed(Paths(SuitBag(hand, i), [])))
      && (forall i :: suits <= i < 5 ==> component[i] == [])
    }

    /** Looks at the first component of each suit. */
    method Decide() returns (make: bool)
      requires |component| == 5
      ensures make <==> OnePairAmong(FirstKinds(component))
    {
      ghost var kinds := FirstKinds(component);
      var pair := 0;
      ghost var p, q := 0, 0;
      var i := 0;
      while i < 5
        invariant i <= 5 && |kinds| == 5
        invariant forall k :: 0 <= k < i ==> kinds[k] !in {0, 4}
        invariant Threes(kinds, i, pair, p, q)
      {
        var kind := if component[i] == [] then 0 else component[i][0].kind;
        assert kind == kinds[i];
        if kind == 0 || kind == 4 {
          return false;
        }
        if kind == 3 {
          if pair == 0 { p := i; } else if pair == 1 { q := i; }
          pair := pair + 1;
        }
        i := i + 1;
      }
      make := pair == 1;
    }

    method CheckMake(hand: seq<int>, card: int) returns (make: bool)
      requires |hand| <= 16 && AllPlayable(hand + [card])
      modifies `component
      ensures component == ComponentsOf(hand + [card])
      ensures make <==> Makes(hand + [card])
    {
      var buf := FillBuffer(hand, card);
      ghost var sorted := buf[..|hand| + 1];
      component := [[], [], [], [], []];
      var j := 0;
      var suit := 0;
      StartOfHand(hand + [card], sorted);
      while suit < 5
        invariant suit <= 5 && SplitsAt(sorted, j, suit * 10) && AllPlayable(sorted)
        invariant buf[..|hand| + 1] == sorted && buf[|hand| + 1] == 0
        invariant Searched(sorted, suit)
        decreases 5 - suit
      {
        var tiles: seq<int>;
        tiles, j := SuitRun(buf, sorted, j, suit);
        SearchSuit(tiles, suit);
        suit := suit + 1;
      }
      SameComponents(hand + [card], sorted);
      make := Decide();
      DecisionIsMakes(hand + [card]);
    }

    /** Cuts the next suit out of the sorted buffer. */
    method SuitRun(buf: array<int>, ghost sorted: seq<int>, start: nat, suit: nat) returns (tiles: seq<int>, j: nat)
      requires |sorted| <= 17 && buf.Length == 20 && buf[..|sorted|] == sorted && buf[|sorted|] == 0
      requires Sorted(sorted) && AllPlayable(sorted) && suit < 5 && SplitsAt(sorted, start, suit * 10)
      ensures tiles == SuitTiles(sorted, suit) && Sorted(tiles) && |tiles| < 20
      ensures forall k :: 0 <= k < |tiles| ==> tiles[k] > 0
      ensures SplitsAt(sorted, j, suit * 10 + 10)
    {
      j := start;
      while j - start < 20 && buf[j] < suit * 10 + 10 && buf[j] > suit * 10
        invariant start <= j <= |sorted|
        invariant forall k :: start <= k < j ==> InSuit(sorted[k], suit)
        decreases |sorted| - j
      {
        assert j < |sorted| && buf[j] == sorted[j];
        j := j + 1;
      }
      tiles := buf[start..j];
      SliceOfPrefix(buf[..], |sorted|, start, j);
      RunIsSuit(sorted, start, j, suit);
    }

    /** Lists every way to put together valid divisions of the suits, in the order of the nested loops;
        honours have at most one. */
    method FullCheck()
      requires |component| == 5 && component[3] != [] && component[4] != []
      modifies `cardComb
      ensures cardComb == Products(component, 0)
      ensures IsProduct(component, cardComb)
    {
      cardComb := [];
      var a := 0;
      while a < |component[0]|
        invariant a <= |component[0]|
        invariant cardComb + Products(component, a) == Products(component, 0)
      {
        if ValidType(component[0][a].kind) {
          CombineFirst(a);
        }
        a := a + 1;
      }
      CombinationsAreProduct(component);
    }

    method CombineFirst(a: nat)
      requires |component| == 5 && component[3] != [] && component[4] != [] && a < |component[0]|
      modifies `cardComb
      ensures cardComb == old(cardComb) + WithFirst(component, a, 0)
    {
      var b := 0;
      while b < |component[1]|
        invariant b <= |component[1]|
        invariant cardComb + WithFirst(component, a, b) == old(cardComb) + WithFirst(component, a, 0)
      {
        if ValidType(component[1][b].kind) {
          CombineSecond(a, b);
        }
        b := b + 1;
      }
    }

    method CombineSecond(a: nat, b: nat)
      requires |component| == 5 && component[3] != [] && component[4] != [] && a < |component[0]| && b < |component[1]|
      modifies `cardComb
      ensures cardComb == old(cardComb) + WithSecond(component, a, b, 0)
    {
      var d := 0;
      while d < |component[2]|
        invariant d <= |component[2]|
        invariant cardComb + WithSecond(component, a, b, d) == old(cardComb) + WithSecond(component, a, b, 0)
      {
        if ValidType(component[2][d].kind) {
          cardComb := cardComb + [Combine(component, a, b, d)];
        }
        d := d + 1;
      }
    }
  }

  predicate ValidType(kind: int) {
    kind == 1 || kind == 2 || kind == 3
  }

  ghost predicate Choice(c: seq<seq<Component>>, a: nat, b: nat, d: nat) {
    && |c| == 5 && c[3] != [] && c[4] != []
    && a < |c[0]| && ValidType(c[0][a].kind)
    && b < |c[1]| && ValidType(c[1][b].kind)
    && d < |c[2]| && ValidType(c[2][d].kind)
  }

  function Combine(c: seq<seq<Component>>, a: nat, b: nat, d: nat): seq<Meld>
    requires |c| == 5 && a < |c[0]| && b < |c[1]| && d < |c[2]| && c[3] != [] && c[4] != []
  {
    c[0][a].melds + c[1][b].melds + c[2][d].melds + c[3][0].melds + c[4][0].melds
  }

  /** The combinations with component `a` of the first suit and `b` of the second, from component `d`
      of the third on. */
  function WithSecond(c: seq<seq<Component>>, a: nat, b: nat, d: nat): seq<seq<Meld>>
    requires |c| == 5 && a < |c[0]| && b < |c[1]| && d <= |c[2]| && c[3] != [] && c[4] != []
    decreases |c[2]| - d
  {
    if d == |c[2]| then []
    else (if ValidType(c[2][d].kind) then [Combine(c, a, b, d)] else []) + WithSecond(c, a, b, d + 1)
  }

  function WithFirst(c: seq<seq<Component>>, a: nat, b: nat): seq<seq<Meld>>
    requires |c| == 5 && a < |c[0]| && b <= |c[1]| && c[3] != [] && c[4] != []
    decreases |c[1]| - b
  {
    if b == |c[1]| then []
    else (if ValidType(c[1][b].kind) then WithSecond(c, a, b, 0) else []) + WithFirst(c, a, b + 1)
  }

  function Products(c: seq<seq<Component>>, a: nat): seq<seq<Meld>>
    requires |c| == 5 && a <= |c[0]| && c[3] != [] && c[4] != []
    decreases |c[0]| - a
  {
    if a == |c[0]| then []
    else (if ValidType(c[0][a].kind) then WithFirst(c, a, 0) else []) + Products(c, a + 1)
  }

  ghost predicate Combined(c: seq<seq<Component>>, comb: seq<Meld>) {
    exists a, b, d :: Choice(c, a, b, d) && comb == Combine(c, a, b, d)
  }

  /** The list holds exactly the combinations of one valid component a suit. */
  ghost predicate IsProduct(c: seq<seq<Component>>, combs: seq<seq<Meld>>) {
    forall comb :: comb in combs <==> Combined(c, comb)
  }

  lemma InEither(here: seq<seq<Meld>>, rest: seq<seq<Meld>>, comb: seq<Meld>)
    ensures comb in here + rest <==> comb in here || comb in rest
  {
  }

  ghost predicate AtThird(c: seq<seq<Component>>, a: nat, b: nat, z: nat, comb: seq<Meld>)
    requires |c| == 5 && a < |c[0]| && b < |c[1]| && c[3] != [] && c[4] != []
  {
    z < |c[2]| && ValidType(c[2][z].kind) && comb == Combine(c, a, b, z)
  }

  ghost predicate AtSecond(c: seq<seq<Component>>, a: nat, y: nat, comb: seq<Meld>)
    requires |c| == 5 && a < |c[0]| && c[3] != [] && c[4] != []
  {
    y < |c[1]| && ValidType(c[1][y].kind) && comb in WithSecond(c, a, y, 0)
  }

  ghost predicate AtFirst(c: seq<seq<Component>>, x: nat, comb: seq<Meld>)
    requires |c| == 5 && c[3] != [] && c[4] != []
  {
    x < |c[0]| && ValidType(c[0][x].kind) && comb in WithFirst(c, x, 0)
  }

  lemma {:induction false} InWithSecond(c: seq<seq<Component>>, a: nat, b: nat, d: nat, comb: seq<Meld>)
    requires |c| == 5 && a < |c[0]| && b < |c[1]| && d <= |c[2]| && c[3] != [] && c[4] != []
    ensures comb in WithSecond(c, a, b, d) <==> exists z: nat :: d <= z && AtThird(c, a, b, z, comb)
    decreases |c[2]| - d
  {
    if d < |c[2]| {
      InWithSecond(c, a, b, d + 1, comb);
      InEither(if ValidType(c[2][d].kind) then [Combine(c, a, b, d)] else [], WithSecond(c, a, b, d + 1), comb);
      assert comb in WithSecond(c, a, b, d) <==> AtThird(c, a, b, d, comb) || comb in WithSecond(c, a, b, d + 1);
    }
  }

  lemma {:induction false} InWithFirst(c: seq<seq<Component>>, a: nat, b: nat, comb: seq<Meld>)
    requires |c| == 5 && a < |c[0]| && b <= |c[1]| && c[3] != [] && c[4] != []
    ensures comb in WithFirst(c, a, b) <==> exists y: nat :: b <= y && AtSecond(c, a, y, comb)
    decreases |c[1]| - b
  {
    if b < |c[1]| {
      InWithFirst(c, a, b + 1, comb);
      InEither(if ValidType(c[1][b].kind) then WithSecond(c, a, b, 0) else [], WithFirst(c, a, b + 1), comb);
      assert comb in WithFirst(c, a, b) <==> AtSecond(c, a, b, comb) || comb in WithFirst(c, a, b + 1);
    }
  }

  lemma {:induction false} InProducts(c: seq<seq<Component>>, a: nat, comb: seq<Meld>)
    requires |c| == 5 && a <= |c[0]| && c[3] != [] && c[4] != []
    ensures comb in Products(c, a) <==> exists x: nat :: a <= x && AtFirst(c, x, comb)
    decreases |c[0]| - a
  {
    if a < |c[0]| {
      InProducts(c, a + 1, comb);
      InEither(if ValidType(c[0][a].kind) then WithFirst(c, a, 0) else [], Products(c, a + 1), comb);
      assert comb in Products(c, a) <==> AtFirst(c, a, comb) || comb in Products(c, a + 1);
    }
  }

  lemma ListedIsChosen(c: seq<seq<Component>>, comb: seq<Meld>)
    requires |c| == 5 && c[3] != [] && c[4] != [] && comb in Products(c, 0)
    ensures Combined(c, comb)
  {
    InProducts(c, 0, comb);
    var x: nat :| AtFirst(c, x, comb);
    InWithFirst(c, x, 0, comb);
    var y: nat :| AtSecond(c, x, y, comb);
    InWithSecond(c, x, y, 0, comb);
    var z: nat :| AtThird(c, x, y, z, comb);
    assert Choice(c, x, y, z);
  }

  lemma ChosenIsListed(c: seq<seq<Component>>, x: nat, y: nat, z: nat)
    requires Choice(c, x, y, z)
    ensures Combine(c, x, y, z) in Products(c, 0)
  {
    var comb := Combine(c, x, y, z);
    assert AtThird(c, x, y, z, comb);
    InWithSecond(c, x, y, 0, comb);
    assert AtSecond(c, x, y, comb);
    InWithFirst(c, x, 0, comb);
    assert AtFirst(c, x, comb);
    InProducts(c, 0, comb);
  }

  lemma CombinationsAreProduct(c: seq<seq<Component>>)
    requires |c| == 5 && c[3] != [] && c[4] != []
    ensures IsProduct(c, Products(c, 0))
  {
    forall comb ensures comb in Products(c, 0) <==> Combined(c, comb) {
      if comb in Products(c, 0) { ListedIsChosen(c, comb); }
      if Combined(c, comb) {
        var x, y, z :| Choice(c, x, y, z) && comb == Combine(c, x, y, z);
        ChosenIsListed(c, x, y, z);
      }
    }
  }

  /** The code recorded for a set of a combination: 10 for two tiles, 2 for equal ones, else 1. */
  function SetCode(tiles: seq<int>): int
    requires |tiles| >= 2
  {
    if |tiles| == 2 then 10 else if tiles[0] == tiles[1] then 2 else 1
  }

  /** The code tells the kind of the set. */
  lemma SetCodeTellsKind(m: Meld)
    ensures |MeldTiles(m)| >= 2
    ensures SetCode(MeldTiles(m)) == match m.kind case Three => 2 case Straight => 1 case Pair => 10
  {
  }

  lemma PairsSoFar(chain: seq<Meld>, i: nat)
    requires i < |chain|
    ensures PairCount(chain[..i + 1]) == PairCount(chain[..i]) + if chain[i].kind == Pair then 1 else 0
  {
    assert chain[..i + 1] == chain[..i] + [chain[i]];
    SplitConcat(chain[..i], [chain[i]]);
    assert [chain[i]][1..] == [];
  }

  ghost function FirstKinds(component: seq<seq<Component>>): seq<int> {
    seq(|component|, i requires 0 <= i < |component| => if component[i] == [] then 0 else component[i][0].kind)
  }

  ghost predicate OnePairAmong(kinds: seq<int>) {
    && (forall k :: 0 <= k < |kinds| ==> kinds[k] !in {0, 4})
    && exists p :: 0 <= p < |kinds| && kinds[p] == 3 && forall k :: 0 <= k < |kinds| && k != p ==> kinds[k] != 3
  }

  /** `pair` of the first `i` suits have one pair; `p` and `q` are the first two of them. */
  ghost predicate Threes(kinds: seq<int>, i: nat, pair: int, p: nat, q: nat)
    requires i <= |kinds|
  {
    if pair <= 0 then pair == 0 && forall k :: 0 <= k < i ==> kinds[k] != 3
    else if pair == 1 then p < i && kinds[p] == 3 && forall k :: 0 <= k < i && k != p ==> kinds[k] != 3
    else p < q < i && kinds[p] == 3 && kinds[q] == 3
  }

  lemma KindsAreTypes(hand: seq<int>)
    ensures var kinds := FirstKinds(ComponentsOf(hand));
            |kinds| == 5 && forall i: nat :: i < 5 ==> kinds[i] == SuitType(hand, i) && kinds[i] in {0, 1, 2, 3, 4}
  {
  }

  lemma OnePairMakes(hand: seq<int>, kinds: seq<int>)
    requires |kinds| == 5 && forall i: nat :: i < 5 ==> kinds[i] == SuitType(hand, i) && kinds[i] in {0, 1, 2, 3, 4}
    ensures OnePairAmong(kinds) <==> Makes(hand)
  {
    if OnePairAmong(kinds) {
      var p: nat :| p < |kinds| && kinds[p] == 3 && forall k :: 0 <= k < |kinds| && k != p ==> kinds[k] != 3;
      assert PairOnlyIn(hand, p);
    }
    if Makes(hand) {
      var p: nat :| p < 5 && PairOnlyIn(hand, p);
      forall k | 0 <= k < 5 ensures kinds[k] !in {0, 4} && (k != p ==> kinds[k] != 3) {
        assert kinds[k] == SuitType(hand, k);
      }
      assert kinds[p] == 3;
    }
  }

  lemma DecisionIsMakes(hand: seq<int>)
    ensures OnePairAmong(FirstKinds(ComponentsOf(hand))) <==> Makes(hand)
  {
    KindsAreTypes(hand);
    OnePairMakes(hand, FirstKinds(ComponentsOf(hand)));
  }

  lemma SliceOfPrefix<T>(s: seq<T>, n: nat, a: nat, b: nat)
    requires a <= b <= n <= |s|
    ensures s[a..b] == s[..n][a..b]
  {
  }

  lemma StartOfHand(hand: seq<int>, sorted: seq<int>)
    requires AllPlayable(hand) && multiset(sorted) == multiset(hand)
    ensures AllPlayable(sorted) && SplitsAt(sorted, 0, 0)
  {
    forall k | 0 <= k < |sorted| ensures Playable(sorted[k]) {
      assert sorted[k] in multiset(sorted);
      assert sorted[k] in hand;
    }
  }

  lemma RunIsSuit(s: seq<int>, start: nat, j: nat, suit: nat)
    requires Sorted(s) && AllPlayable(s) && suit < 5 && SplitsAt(s, start, suit * 10) && start <= j <= |s|
    requires forall k :: start <= k < j ==> InSuit(s[k], suit)
    requires j == |s| || !InSuit(s[j], suit)
    ensures SplitsAt(s, j, suit * 10 + 10) && SuitTiles(s, suit) == s[start..j]
  {
    forall k | j <= k < |s| ensures suit * 10 + 10 < s[k] {
      assert s[j] <= s[k] && Playable(s[k]) && Playable(s[j]);
    }
    SuitSlice(s, suit, start, j);
  }

  lemma SameComponents(a: seq<int>, b: seq<int>)
    requires multiset(a) == multiset(b)
    ensures ComponentsOf(a) == ComponentsOf(b)
  {
    forall i | 0 <= i < 5 ensures ComponentsOf(a)[i] == ComponentsOf(b)[i] {
      SameSuitBag(a, b, i);
    }
  }

  lemma Appended<T>(s: seq<T>, a: seq<T>, b: seq<T>, c: seq<T>, d: seq<T>)
    ensures s + a + b + c + d == s + (a + (b + c + d))
    ensures [] + (b + c + d) == b + c + d
    ensures s + [] == s
  {
  }

  lemma AllLess(m: multiset<int>)
    ensures m - TilesOf([]) == m && TilesOf([]) <= m
  {
  }
}
