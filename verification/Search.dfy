/** What the winning-hand search lists for one suit, and what those lists mean. */
module Search {
  import opened Tiles
  import opened Melds

  ghost predicate IsSmallest(m: multiset<int>, x: int) {
    x in m && forall t :: t in m ==> x <= t
  }

  /** The smallest tile left: the one the search must use next. */
  ghost function Lead(m: multiset<int>): (x: int)
    requires m != multiset{}
    ensures IsSmallest(m, x)
    decreases |m|
  {
    assert (forall y :: m[y] == 0) ==> m == multiset{};
    var y :| y in m;
    var rest := m - multiset{y};
    assert forall t :: t in m ==> t == y || t in rest;
    if rest == multiset{} || y < Lead(rest) then y else Lead(rest)
  }

  /** Whether the search tries a meld of this kind on the smallest tile `x`. The bound on a straight
      keeps it out of the honour suits; a pair is not tried while three copies are left. */
  ghost predicate Offered(m: multiset<int>, meld: Meld) {
    var x := meld.lead;
    match meld.kind
    case Three => m[x] >= 3
    case Straight => x in m && x + 1 in m && x + 2 in m && x + 3 < 31
    case Pair => m[x] == 2
  }

  ghost function Take(m: multiset<int>, meld: Meld): multiset<int> {
    m - multiset(MeldTiles(meld))
  }

  lemma TakeRest(m: multiset<int>, meld: Meld)
    requires Offered(m, meld)
    ensures m == Take(m, meld) + multiset(MeldTiles(meld))
    ensures |Take(m, meld)| == |m| - |MeldTiles(meld)|
  {
  }

  /** The complete paths below a node that still has the tiles `m` to place, in preorder.
      `up` is the node's chain of melds, latest first. */
  ghost function Paths(m: multiset<int>, up: seq<Meld>): seq<seq<Meld>>
    decreases |m|, 1
  {
    if m == multiset{} then [up]
    else
      var x := Lead(m);
      Below(m, Meld(Three, x), up) + Below(m, Meld(Straight, x), up) + Below(m, Meld(Pair, x), up)
  }

  ghost function Below(m: multiset<int>, meld: Meld, up: seq<Meld>): seq<seq<Meld>>
    decreases |m|, 0
  {
    if !Offered(m, meld) then []
    else
      assert |Take(m, meld)| < |m| by { TakeRest(m, meld); }
      Paths(Take(m, meld), [meld] + up)
  }

  lemma {:induction false} PathsSound(m: multiset<int>, up: seq<Meld>, p: seq<Meld>)
    requires p in Paths(m, up)
    ensures TilesOf(p) == m + TilesOf(up)
    decreases |m|, 1
  {
    if m != multiset{} {
      var x := Lead(m);
      forall k: Kind | p in Below(m, Meld(k, x), up)
        ensures TilesOf(p) == m + TilesOf(up)
      {
        BelowSound(m, Meld(k, x), up, p);
      }
    }
  }

  lemma {:induction false} BelowSound(m: multiset<int>, meld: Meld, up: seq<Meld>, p: seq<Meld>)
    requires p in Below(m, meld, up)
    ensures TilesOf(p) == m + TilesOf(up)
    decreases |m|, 0
  {
    TakeRest(m, meld);
    PathsSound(Take(m, meld), [meld] + up, p);
    assert ([meld] + up)[1..] == up;
  }

  lemma {:induction false} PathsLegal(m: multiset<int>, up: seq<Meld>, p: seq<Meld>)
    requires p in Paths(m, up)
    requires AllLegal(up) && forall t :: t in m ==> IsSuitTile(t)
    ensures AllLegal(p)
    decreases |m|, 1
  {
    if m != multiset{} {
      var x := Lead(m);
      forall k: Kind | p in Below(m, Meld(k, x), up)
        ensures AllLegal(p)
      {
        BelowLegal(m, Meld(k, x), up, p);
      }
    }
  }

  lemma {:induction false} BelowLegal(m: multiset<int>, meld: Meld, up: seq<Meld>, p: seq<Meld>)
    requires p in Below(m, meld, up)
    requires AllLegal(up) && forall t :: t in m ==> IsSuitTile(t)
    ensures AllLegal(p)
    decreases |m|, 0
  {
    TakeRest(m, meld);
    OfferedLegal(m, meld);
    TakeLegal(m, multiset(MeldTiles(meld)));
    PrependLegal(meld, up);
    PathsLegal(Take(m, meld), [meld] + up, p);
  }

  lemma TakeLegal(m: multiset<int>, b: multiset<int>)
    requires forall t :: t in m ==> IsSuitTile(t)
    ensures forall t :: t in m - b ==> IsSuitTile(t)
  {
  }

  lemma PrependLegal(meld: Meld, up: seq<Meld>)
    requires LegalMeld(meld) && AllLegal(up)
    ensures AllLegal([meld] + up)
  {
  }

  lemma OfferedLegal(m: multiset<int>, meld: Meld)
    requires Offered(m, meld) && forall t :: t in m ==> IsSuitTile(t)
    ensures LegalMeld(meld)
  {
  }

  // ----- Completeness -----

  lemma MeldOnLead(split: seq<Meld>, x: int) returns (meld: Meld)
    requires x in TilesOf(split) && LeadsFrom(split, x)
    ensures meld in split && meld.lead == x
  {
    meld := MeldHolding(split, x);
    LeadWithin(meld, x);
  }

  lemma LeadWithin(meld: Meld, t: int)
    requires t in MeldTiles(meld)
    ensures meld.lead <= t
  {
  }

  /** A split with at most one pair has a meld on the smallest tile that the search tries. A pair
      is needed only when exactly two copies are left, so the pruning of pairs loses nothing. */
  lemma OfferedMeld(m: multiset<int>, split: seq<Meld>) returns (meld: Meld)
    requires m != multiset{} && TilesOf(split) == m
    requires AllLegal(split) && PairCount(split) <= 1
    ensures meld in split && meld.lead == Lead(m) && Offered(m, meld)
  {
    var x := Lead(m);
    LeadsFromTiles(split, x);
    LeadCount(split, x);
    if Meld(Three, x) in split {
      meld := Meld(Three, x);
    } else if Meld(Straight, x) in split {
      meld := Meld(Straight, x);
      StraightOffered(m, split, x);
    } else {
      meld := MeldOnLead(split, x);
      PairsCounted(split, Meld(Pair, x));
    }
  }

  lemma StraightOffered(m: multiset<int>, split: seq<Meld>, x: int)
    requires TilesOf(split) == m && AllLegal(split) && Meld(Straight, x) in split
    ensures Offered(m, Meld(Straight, x))
  {
    var s := Meld(Straight, x);
    MeldTilesInSplit(split, s);
    assert x in MeldTiles(s) && MeldTiles(s)[1] == x + 1 && MeldTiles(s)[2] == x + 2;
    assert x in multiset(MeldTiles(s)) && x + 1 in multiset(MeldTiles(s)) && x + 2 in multiset(MeldTiles(s));
    assert LegalMeld(s);
  }

  lemma BelowListed(m: multiset<int>, meld: Meld, up: seq<Meld>, p: seq<Meld>)
    requires m != multiset{} && meld.lead == Lead(m) && p in Below(m, meld, up)
    ensures p in Paths(m, up)
  {
    var x := Lead(m);
    var a, b, c := Below(m, Meld(Three, x), up), Below(m, Meld(Straight, x), up), Below(m, Meld(Pair, x), up);
    assert Paths(m, up) == a + b + c;
    match meld.kind
    case Three => assert p in a;
    case Straight => assert p in b;
    case Pair => assert p in c;
  }

  lemma Reorder(p: multiset<Meld>, s: multiset<Meld>, r: multiset<Meld>, meld: Meld, up: seq<Meld>)
    requires p == r + multiset([meld] + up) && s == r + multiset{meld}
    ensures p == s + multiset(up)
  {
  }

  /** Taking an offered meld out of a split leaves a split of the rest. */
  lemma TakeFromSplit(m: multiset<int>, split: seq<Meld>) returns (meld: Meld, rest: seq<Meld>)
    requires m != multiset{} && TilesOf(split) == m && AllLegal(split) && PairCount(split) <= 1
    ensures meld.lead == Lead(m) && Offered(m, meld) && |Take(m, meld)| < |m|
    ensures TilesOf(rest) == Take(m, meld) && AllLegal(rest) && PairCount(rest) <= 1
    ensures multiset(split) == multiset(rest) + multiset{meld}
  {
    meld := OfferedMeld(m, split);
    rest := Without(split, meld);
    WithoutMelds(split, meld);
    WithoutTiles(split, meld);
    WithoutLegal(split, meld);
    TakeRest(m, meld);
    TakeUnique(m, meld, TilesOf(rest));
  }

  /** Every split with at most one pair is listed, up to the order of its melds. */
  lemma {:induction false} PathsComplete(m: multiset<int>, up: seq<Meld>, split: seq<Meld>)
    returns (p: seq<Meld>)
    requires TilesOf(split) == m && AllLegal(split) && PairCount(split) <= 1
    ensures p in Paths(m, up)
    ensures multiset(p) == multiset(split) + multiset(up)
    decreases |m|
  {
    if m == multiset{} {
      SizeOfSplit(split);
      p := up;
    } else {
      var meld, rest := TakeFromSplit(m, split);
      p := PathsComplete(Take(m, meld), [meld] + up, rest);
      BelowListed(m, meld, up, p);
      Reorder(multiset(p), multiset(split), multiset(rest), meld, up);
    }
  }

  // ----- The first path -----

  lemma {:induction false} AtLeastThree(split: seq<Meld>, meld: Meld)
    requires multiset(split)[meld] >= 3
    ensures meld in split && meld in Without(split, meld)
    ensures meld in Without(Without(split, meld), meld)
  {
    WithoutMelds(split, meld);
    WithoutMelds(Without(split, meld), meld);
  }

  lemma StraightBag(x: int)
    ensures multiset(MeldTiles(Meld(Straight, x))) == multiset{x, x + 1, x + 2}
  {
  }

  lemma ThreeBag(x: int)
    ensures multiset(MeldTiles(Meld(Three, x))) == multiset{}[x := 3]
  {
  }

  lemma ThreeStraights(x: int)
    ensures var s := multiset(MeldTiles(Meld(Straight, x)));
            s + s + s == multiset(MeldTiles(Meld(Three, x))) + multiset(MeldTiles(Meld(Three, x + 1)))
                         + multiset(MeldTiles(Meld(Three, x + 2)))
  {
    StraightBag(x);
    ThreeBag(x); ThreeBag(x + 1); ThreeBag(x + 2);
  }

  lemma TripletsOfStraight(x: int)
    requires LegalMeld(Meld(Straight, x))
    ensures LegalMeld(Meld(Three, x + 1)) && LegalMeld(Meld(Three, x + 2))
  {
    var s := MeldTiles(Meld(Straight, x));
    assert s[1] == x + 1 && s[2] == x + 2;
  }

  lemma WithoutAll(split: seq<Meld>, meld: Meld)
    requires meld in split && AllLegal(split) && meld.kind != Pair
    ensures TilesOf(split) == TilesOf(Without(split, meld)) + multiset(MeldTiles(meld))
    ensures PairCount(Without(split, meld)) == PairCount(split) && AllLegal(Without(split, meld))
  {
    WithoutTiles(split, meld);
    WithoutLegal(split, meld);
  }

  lemma PrependMeld(b: Meld, s: seq<Meld>)
    requires LegalMeld(b) && AllLegal(s) && b.kind != Pair
    ensures AllLegal([b] + s) && PairCount([b] + s) == PairCount(s)
    ensures TilesOf([b] + s) == multiset(MeldTiles(b)) + TilesOf(s)
  {
  }

  /** The exchange: three equal straights from `x` hold the same tiles as three triplets. */
  lemma ExchangeStraights(m: multiset<int>, split: seq<Meld>, x: int) returns (rest: seq<Meld>)
    requires TilesOf(split) == m && AllLegal(split) && PairCount(split) == 0
    requires multiset(split)[Meld(Straight, x)] >= 3
    ensures m == TilesOf(rest) + multiset(MeldTiles(Meld(Three, x)))
    ensures AllLegal(rest) && PairCount(rest) == 0
  {
    var s := Meld(Straight, x);
    AtLeastThree(split, s);
    var s1 := Without(split, s);
    var s2 := Without(s1, s);
    var s3 := Without(s2, s);
    WithoutAll(split, s);
    WithoutAll(s1, s);
    WithoutAll(s2, s);
    var b, c := Meld(Three, x + 1), Meld(Three, x + 2);
    rest := [b] + ([c] + s3);
    TripletsOfStraight(x);
    PrependMeld(c, s3);
    PrependMeld(b, [c] + s3);
    ThreeStraights(x);
    Regroup(m, TilesOf(s1), TilesOf(s2), TilesOf(s3), multiset(MeldTiles(s)),
            multiset(MeldTiles(Meld(Three, x))), multiset(MeldTiles(b)), multiset(MeldTiles(c)));
  }

  lemma Regroup(m: multiset<int>, m1: multiset<int>, m2: multiset<int>, m3: multiset<int>,
                s: multiset<int>, a: multiset<int>, b: multiset<int>, c: multiset<int>)
    requires m == m1 + s && m1 == m2 + s && m2 == m3 + s && s + s + s == a + b + c
    ensures m == b + (c + m3) + a
  {
    assert m == m3 + (s + s + s);
  }

  lemma TakeUnique(m: multiset<int>, meld: Meld, rest: multiset<int>)
    requires m == rest + multiset(MeldTiles(meld))
    ensures Take(m, meld) == rest
  {
  }

  lemma NoPairIn(split: seq<Meld>, meld: Meld)
    requires PairCount(split) == 0 && meld in split
    ensures meld.kind != Pair
  {
  }

  /** Taking the first kind of meld the search tries on the smallest tile leaves tiles that still
      split without a pair. */
  lemma FirstChoiceKeepsPairless(m: multiset<int>, split: seq<Meld>) returns (meld: Meld, rest: seq<Meld>)
    requires m != multiset{} && TilesOf(split) == m
    requires AllLegal(split) && PairCount(split) == 0
    ensures meld.lead == Lead(m) && meld.kind != Pair && Offered(m, meld)
    ensures meld.kind == Straight ==> !Offered(m, Meld(Three, Lead(m)))
    ensures TilesOf(rest) == Take(m, meld) && AllLegal(rest) && PairCount(rest) == 0
  {
    var x := Lead(m);
    LeadsFromTiles(split, x);
    LeadCount(split, x);
    PairsCounted(split, Meld(Pair, x));
    meld := Meld(Three, x);
    if m[x] >= 3 && meld !in split {
      rest := ExchangeStraights(m, split, x);
    } else {
      if meld !in split { meld := OfferedMeld(m, split); NoPairIn(split, meld); }
      WithoutAll(split, meld);
      rest := Without(split, meld);
    }
    TakeUnique(m, meld, TilesOf(rest));
  }

  lemma FirstBelow(m: multiset<int>, meld: Meld, up: seq<Meld>)
    requires m != multiset{} && meld.lead == Lead(m) && meld.kind != Pair && |Below(m, meld, up)| > 0
    requires meld.kind == Straight ==> !Offered(m, Meld(Three, meld.lead))
    ensures |Paths(m, up)| > 0 && Paths(m, up)[0] == Below(m, meld, up)[0]
  {
  }

  /** If some split has no pair, the first path listed has none either. */
  lemma {:induction false} FirstPathPairless(m: multiset<int>, up: seq<Meld>, split: seq<Meld>)
    requires TilesOf(split) == m && AllLegal(split) && PairCount(split) == 0
    ensures |Paths(m, up)| > 0 && PairCount(Paths(m, up)[0]) == PairCount(up)
    decreases |m|
  {
    if m != multiset{} {
      var meld, rest := FirstChoiceKeepsPairless(m, split);
      TakeRest(m, meld);
      FirstPathPairless(Take(m, meld), [meld] + up, rest);
      assert ([meld] + up)[1..] == up;
      FirstBelow(m, meld, up);
    }
  }
}
