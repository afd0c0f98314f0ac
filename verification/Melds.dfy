/** Melds, and splits of a set of tiles into melds. */
module Melds {
  import opened Tiles

  datatype Kind = Three | Straight | Pair

  /** A meld is named by its smallest tile. */
  datatype Meld = Meld(kind: Kind, lead: int)

  function MeldTiles(m: Meld): seq<int> {
    match m.kind
    case Three => [m.lead, m.lead, m.lead]
    case Straight => [m.lead, m.lead + 1, m.lead + 2]
    case Pair => [m.lead, m.lead]
  }

  /** All the tiles are real, and a straight stays inside one numbered suit. */
  predicate LegalMeld(m: Meld) {
    && (forall k :: 0 <= k < |MeldTiles(m)| ==> IsSuitTile(MeldTiles(m)[k]))
    && (m.kind == Straight ==> m.lead < 30)
  }

  ghost predicate AllLegal(ms: seq<Meld>) {
    forall k :: 0 <= k < |ms| ==> LegalMeld(ms[k])
  }

  ghost function TilesOf(ms: seq<Meld>): multiset<int> {
    if ms == [] then multiset{} else multiset(MeldTiles(ms[0])) + TilesOf(ms[1..])
  }

  function PairCount(ms: seq<Meld>): nat {
    if ms == [] then 0 else (if ms[0].kind == Pair then 1 else 0) + PairCount(ms[1..])
  }

  /** Three tiles a meld, and two for a pair. */
  lemma {:induction false} SizeOfSplit(ms: seq<Meld>)
    ensures |TilesOf(ms)| == 3 * |ms| - PairCount(ms)
  {
    if ms != [] {
      SizeOfSplit(ms[1..]);
    }
  }

  lemma {:induction false} SplitConcat(a: seq<Meld>, b: seq<Meld>)
    ensures TilesOf(a + b) == TilesOf(a) + TilesOf(b)
    ensures PairCount(a + b) == PairCount(a) + PairCount(b)
  {
    if a == [] {
      assert a + b == b;
    } else {
      assert (a + b)[1..] == a[1..] + b;
      SplitConcat(a[1..], b);
    }
  }

  /** The split without its first meld `m`. */
  ghost function Without(ms: seq<Meld>, m: Meld): (r: seq<Meld>)
    requires m in ms
    ensures |r| == |ms| - 1
  {
    if ms[0] == m then ms[1..] else [ms[0]] + Without(ms[1..], m)
  }

  lemma {:induction false} WithoutMelds(ms: seq<Meld>, m: Meld)
    requires m in ms
    ensures multiset(ms) == multiset(Without(ms, m)) + multiset{m}
  {
    assert ms == [ms[0]] + ms[1..];
    if ms[0] != m {
      WithoutMelds(ms[1..], m);
    }
  }

  lemma {:induction false} WithoutTiles(ms: seq<Meld>, m: Meld)
    requires m in ms
    ensures TilesOf(ms) == TilesOf(Without(ms, m)) + multiset(MeldTiles(m))
    ensures PairCount(ms) == PairCount(Without(ms, m)) + (if m.kind == Pair then 1 else 0)
  {
    if ms[0] != m {
      WithoutTiles(ms[1..], m);
      var r := Without(ms[1..], m);
      assert ([ms[0]] + r)[1..] == r;
    }
  }

  lemma {:induction false} WithoutLegal(ms: seq<Meld>, m: Meld)
    requires m in ms && AllLegal(ms)
    ensures AllLegal(Without(ms, m))
  {
    if ms[0] != m {
      assert AllLegal(ms[1..]) by {
        forall k | 0 <= k < |ms[1..]| ensures LegalMeld(ms[1..][k]) {
          assert ms[1..][k] == ms[k + 1];
        }
      }
      WithoutLegal(ms[1..], m);
    }
  }

  /** Every tile of a split lies in one of its melds. */
  lemma {:induction false} MeldHolding(ms: seq<Meld>, t: int) returns (m: Meld)
    requires t in TilesOf(ms)
    ensures m in ms && t in MeldTiles(m)
  {
    if t in MeldTiles(ms[0]) {
      m := ms[0];
    } else {
      m := MeldHolding(ms[1..], t);
    }
  }

  lemma {:induction false} MeldTilesInSplit(ms: seq<Meld>, m: Meld)
    requires m in ms
    ensures multiset(MeldTiles(m)) <= TilesOf(ms)
  {
    if m != ms[0] {
      MeldTilesInSplit(ms[1..], m);
    }
  }

  lemma HeadOfSplit(ms: seq<Meld>)
    requires ms != []
    ensures multiset(ms) == multiset{ms[0]} + multiset(ms[1..])
  {
    assert ms == [ms[0]] + ms[1..];
  }

  lemma LeadOfMeld(ms: seq<Meld>, m: Meld)
    requires m in ms
    ensures m.lead in TilesOf(ms)
  {
  }

  ghost predicate LeadsFrom(ms: seq<Meld>, x: int) {
    forall k :: 0 <= k < |ms| ==> x <= ms[k].lead
  }

  lemma LeadsFromTiles(ms: seq<Meld>, x: int)
    requires forall t :: t in TilesOf(ms) ==> x <= t
    ensures LeadsFrom(ms, x)
  {
    forall k | 0 <= k < |ms| ensures x <= ms[k].lead {
      LeadOfMeld(ms, ms[k]);
    }
  }

  /** Copies of the smallest tile come only from melds that start with it. */
  lemma {:induction false} LeadCount(ms: seq<Meld>, x: int)
    requires LeadsFrom(ms, x)
    ensures TilesOf(ms)[x] == 3 * multiset(ms)[Meld(Three, x)] + multiset(ms)[Meld(Straight, x)]
                              + 2 * multiset(ms)[Meld(Pair, x)]
  {
    if ms != [] {
      assert LeadsFrom(ms[1..], x);
      LeadCount(ms[1..], x);
      OneMeldLead(ms[0], x);
      HeadOfSplit(ms);
    }
  }

  lemma OneMeldLead(m: Meld, x: int)
    requires x <= m.lead
    ensures multiset(MeldTiles(m))[x] == if m.lead != x then 0
                                         else if m.kind == Three then 3
                                         else if m.kind == Straight then 1 else 2
  {
  }

  lemma {:induction false} PairsCounted(ms: seq<Meld>, m: Meld)
    requires m.kind == Pair
    ensures multiset(ms)[m] <= PairCount(ms)
  {
    if ms != [] {
      HeadOfSplit(ms);
      PairsCounted(ms[1..], m);
    }
  }
}
