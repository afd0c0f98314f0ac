/** The search tree of one suit, built by marking tiles in a shared table, and read in preorder. */
module SuitSearch {
  import opened Tiles
  import opened Melds
  import opened Search
  import opened Winning

  /** A node is a chain of melds up to the root, latest first, with a branch for each meld tried. */
  datatype Tree = Null | Node(chain: seq<Meld>, end: bool, three: Tree, straight: Tree, pair: Tree)

  /** One listed division of the suit, with its type. */
  datatype Component = Component(kind: int, melds: seq<Meld>)

  // ----- The table of tiles -----

  /** The tiles not marked as chosen. */
  ghost function Rest(info: seq<int>, flag: seq<bool>): multiset<int>
    requires |info| == |flag|
  {
    if info == [] then multiset{}
    else
      var k := |info| - 1;
      Rest(info[..k], flag[..k]) + (if flag[k] then multiset{info[k]} else multiset{})
  }

  lemma {:induction false} RestAt(info: seq<int>, flag: seq<bool>, q: nat)
    requires |info| == |flag| && q < |info| && flag[q]
    ensures info[q] in Rest(info, flag)
    ensures Rest(info, flag) == Rest(info, flag[q := false]) + multiset{info[q]}
  {
    var k := |info| - 1;
    if q < k {
      RestAt(info[..k], flag[..k], q);
      assert flag[q := false][..k] == flag[..k][q := false];
    } else {
      assert flag[q := false][..k] == flag[..k];
    }
  }

  lemma {:induction false} RestHolds(info: seq<int>, flag: seq<bool>, t: int) returns (q: nat)
    requires |info| == |flag| && t in Rest(info, flag)
    ensures q < |info| && flag[q] && info[q] == t
  {
    var k := |info| - 1;
    if flag[k] && info[k] == t {
      q := k;
    } else {
      q := RestHolds(info[..k], flag[..k], t);
    }
  }

  lemma {:induction false} RestOfAll(info: seq<int>, flag: seq<bool>)
    requires |info| == |flag| && forall q :: 0 <= q < |flag| ==> flag[q]
    ensures Rest(info, flag) == multiset(info)
  {
    if info != [] {
      var k := |info| - 1;
      RestOfAll(info[..k], flag[..k]);
      assert info == info[..k] + [info[k]];
    }
  }

  /** In the first `i` entries the run `lead`, `lead + 1`, ... got to length `j` and no further. */
  ghost predicate Reached(nums: seq<int>, was: seq<bool>, lead: int, i: nat, j: nat)
    requires |was| == |nums| && i <= |nums|
  {
    && (forall t :: lead <= t < lead + j ==> t in Rest(nums, was))
    && (forall k :: 0 <= k < i && was[k] ==> nums[k] != lead + j)
  }

  lemma ExtendRun(nums: seq<int>, was: seq<bool>, lead: int, i: nat, j: nat)
    requires |was| == |nums| && i < |nums| && Sorted(nums)
    requires Reached(nums, was, lead, i, j) && was[i] && nums[i] == lead + j
    ensures Reached(nums, was, lead, i + 1, j + 1)
  {
    RestAt(nums, was, i);
    forall k | 0 <= k < i + 1 && was[k] ensures nums[k] != lead + j + 1 { assert nums[k] <= nums[i]; }
  }

  lemma RunFound(nums: seq<int>, was: seq<bool>, lead: int, i: nat)
    requires |was| == |nums| && i <= |nums| && Reached(nums, was, lead, i, 3) && lead + 3 < 31
    ensures Offered(Rest(nums, was), Meld(Straight, lead))
  {
    assert lead in Rest(nums, was) && lead + 1 in Rest(nums, was) && lead + 2 in Rest(nums, was);
  }

  lemma EndOfRun(nums: seq<int>, was: seq<bool>, lead: int, j: nat)
    requires |was| == |nums| && Reached(nums, was, lead, |nums|, j)
    ensures lead + j !in Rest(nums, was)
  {
    if lead + j in Rest(nums, was) {
      var q := RestHolds(nums, was, lead + j);
      assert false;
    }
  }

  class CardInfo {
    const info: array<int>
    const flag: array<bool>
    const n: nat

    /** The tiles, in order, closed by a 0. */
    ghost predicate Valid()
      reads this, info
    {
      && info.Length == flag.Length && n < info.Length
      && Sorted(info[..n]) && (forall k :: 0 <= k < n ==> info[k] > 0) && info[n] == 0
    }

    ghost function All(): multiset<int>
      requires Valid()
      reads this, info
    {
      multiset(info[..n])
    }

    ghost function Left(): multiset<int>
      requires Valid()
      reads this, info, flag
    {
      Rest(info[..n], flag[..n])
    }

    constructor (suitTiles: seq<int>)
      requires Sorted(suitTiles) && forall k :: 0 <= k < |suitTiles| ==> suitTiles[k] > 0
      requires |suitTiles| < 20
      ensures Valid() && All() == multiset(suitTiles) && fresh(info) && fresh(flag)
    {
      info := new int[20](_ => 0);
      flag := new bool[20](_ => true);
      n := |suitTiles|;
      new;
      for k := 0 to |suitTiles|
        invariant n == |suitTiles| && info.Length == flag.Length == 20 && fresh(info) && fresh(flag)
        invariant info[..k] == suitTiles[..k]
        invariant forall q :: k <= q < 20 ==> info[q] == 0
      {
        info[k] := suitTiles[k];
      }
      assert info[..n] == suitTiles;
    }

    method Reset()
      requires Valid()
      modifies flag
      ensures Left() == All()
    {
      var i := 0;
      while info[i] != 0
        invariant i <= n
        invariant forall q :: 0 <= q < i ==> flag[q]
        decreases n - i
      {
        flag[i] := true;
        i := i + 1;
      }
      RestOfAll(info[..n], flag[..n]);
    }

    /** Marks entry `j` as chosen. */
    method Choose(j: nat)
      requires Valid() && j < n && flag[j]
      modifies flag
      ensures !flag[j] && forall k :: 0 <= k < flag.Length && k != j ==> flag[k] == old(flag[k])
      ensures info[j] in old(Left()) && old(Left()) == Left() + multiset{info[j]}
    {
      RestAt(info[..n], flag[..n], j);
      flag[j] := false;
      assert flag[..n] == old(flag[..n])[j := false];
    }

    lemma LeftHolds(t: int) returns (q: nat)
      requires Valid() && t in Left()
      ensures q < n && flag[q] && info[q] == t
    {
      q := RestHolds(info[..n], flag[..n], t);
    }

    /** `i` tiles of `d` are marked, and the rest of `d` lies at entry `j` or beyond. */
    ghost predicate Marking(start: multiset<int>, d: seq<int>, i: nat, j: nat)
      reads this, info, flag
    {
      && Valid() && j <= n && i < |d|
      && start == Left() + multiset(d[..i]) && multiset(d[i..]) <= Left()
      && forall k :: 0 <= k < j && flag[k] ==> info[k] < d[i]
    }

    /** Marks the tiles of one meld, in one pass over the table. */
    method MarkMeld(d: seq<int>)
      requires Valid() && d != [] && Sorted(d) && multiset(d) <= Left()
      modifies flag
      ensures old(Left()) == Left() + multiset(d)
    {
      ghost var start := Left();
      var i, j := 0, 0;
      StartMarking(d);
      while info[j] != 0
        invariant Marking(start, d, i, j)
        decreases n - j
      {
        NextAhead(d, i, j);
        if d[i] == info[j] && flag[j] {
          MarkTile(start, d, i, j);
          i := i + 1;
          if i == |d| { return; }
        } else {
          SkipTile(start, d, i, j);
        }
        j := j + 1;
      }
      NextAhead(d, i, j);
      assert false;
    }

    lemma StartMarking(d: seq<int>)
      requires Valid() && d != [] && multiset(d) <= Left()
      ensures Marking(Left(), d, 0, 0)
    {
    }

    lemma SkipTile(start: multiset<int>, d: seq<int>, i: nat, j: nat)
      requires Marking(start, d, i, j) && j < n && info[j] <= d[i] && !(flag[j] && info[j] == d[i])
      ensures Marking(start, d, i, j + 1)
    {
    }

    method MarkTile(ghost start: multiset<int>, d: seq<int>, i: nat, j: nat)
      requires Marking(start, d, i, j) && Sorted(d) && j < n && flag[j] && info[j] == d[i]
      modifies flag
      ensures i + 1 < |d| ==> Marking(start, d, i + 1, j + 1)
      ensures i + 1 == |d| ==> start == Left() + multiset(d)
    {
      ghost var before := Left();
      Choose(j);
      ChooseStep(start, before, Left(), d, i);
      if i + 1 < |d| {
        StillBehind(d, i, j);
      } else {
        assert d[..i + 1] == d;
      }
    }

    lemma StillBehind(d: seq<int>, i: nat, j: nat)
      requires Valid() && Sorted(d) && i + 1 < |d| && j < n && !flag[j]
      requires forall k :: 0 <= k < j && flag[k] ==> info[k] < d[i]
      ensures forall k :: 0 <= k < j + 1 && flag[k] ==> info[k] < d[i + 1]
    {
    }

    /** The tile wanted next is still ahead of the scan. */
    lemma NextAhead(d: seq<int>, i: nat, j: nat)
      requires Valid() && i < |d| && j <= n && multiset(d[i..]) <= Left()
      requires forall k :: 0 <= k < j && flag[k] ==> info[k] < d[i]
      ensures j < n && info[j] <= d[i]
    {
      Upcoming(d, i);
      var q := LeftHolds(d[i]);
      assert info[..n][j] <= info[..n][q];
    }

    /** Marks the melds of a node and of the nodes above it. */
    method MarkCard(chain: seq<Meld>)
      requires Valid() && TilesOf(chain) <= Left()
      modifies flag
      ensures old(Left()) == Left() + TilesOf(chain)
      decreases |chain|
    {
      if chain != [] {
        ghost var start, b, c := Left(), multiset(MeldTiles(chain[0])), TilesOf(chain[1..]);
        SortedMeld(chain[0]);
        PartFits(start, b, c);
        MarkMeld(MeldTiles(chain[0]));
        SubCancel(c, Left(), b);
        MarkCard(chain[1..]);
      }
    }

    /** The first tile not marked, or 0. */
    method FindLead() returns (lead: int)
      requires Valid()
      ensures lead == 0 <==> Left() == multiset{}
      ensures lead != 0 ==> lead == Lead(Left())
    {
      lead := 0;
      var i := 0;
      while info[i] != 0
        invariant i <= n && lead == 0
        invariant forall k :: 0 <= k < i ==> !flag[k]
        decreases n - i
      {
        if flag[i] {
          lead := info[i];
          RestAt(info[..n], flag[..n], i);
          FirstIsLead(i);
          return;
        }
        i := i + 1;
      }
      if Left() != multiset{} {
        var q := LeftHolds(Lead(Left()));
        assert false;
      }
    }

    lemma FirstIsLead(i: nat)
      requires Valid() && i < n && flag[i] && forall k :: 0 <= k < i ==> !flag[k]
      requires info[i] in Left()
      ensures Left() != multiset{} && Lead(Left()) == info[i]
    {
      var q := LeftHolds(Lead(Left()));
      assert info[..n][i] <= info[..n][q];
    }

    /** Takes up to `want` copies of one tile. */
    method TakeCopies(lead: int, want: nat) returns (found: bool)
      requires Valid() && want > 0
      modifies flag
      ensures found <==> old(Left())[lead] >= want
    {
      var i, j := 0, 0;
      while info[i] != 0
        invariant i <= n && j < want
        invariant old(Left())[lead] == Left()[lead] + j
        invariant forall k :: 0 <= k < i && info[k] == lead ==> !flag[k]
        decreases n - i
      {
        if flag[i] && info[i] == lead {
          j := j + 1;
          Choose(i);
        }
        if j == want { return true; }
        i := i + 1;
      }
      if lead in Left() {
        var q := LeftHolds(lead);
        assert false;
      }
      return false;
    }

    /** Takes `lead`, `lead + 1` and `lead + 2`, one copy each. */
    method TakeStraight(lead: int) returns (found: bool)
      requires Valid() && lead in Left()
      modifies flag
      ensures found <==> Offered(old(Left()), Meld(Straight, lead))
    {
      ghost var nums, was := info[..n], flag[..n];
      var i, j := 0, 0;
      while info[i] != 0
        invariant i <= n && (j >= 3 ==> lead + 3 >= 31)
        invariant Reached(nums, was, lead, i, j)
        invariant forall k :: i <= k < n ==> flag[k] == was[k]
        decreases n - i
      {
        if flag[i] && info[i] == lead + j {
          ExtendRun(nums, was, lead, i, j);
          flag[i] := false;
          j := j + 1;
        }
        if j == 3 && lead + j < 31 {
          RunFound(nums, was, lead, i + 1);
          return true;
        }
        i := i + 1;
      }
      EndOfRun(nums, was, lead, j);
      return false;
    }

    /** The node under the given chain, with everything below it. */
    method BuildTree(chain: seq<Meld>) returns (t: Tree)
      requires Valid() && TilesOf(chain) <= All()
      modifies flag
      ensures t == TreeOf(All() - TilesOf(chain), chain)
      decreases |All() - TilesOf(chain)|, 2
    {
      ghost var m := All() - TilesOf(chain);
      var straight, pair := Null, Null;
      var end, three := MakeThree(chain);
      if !end {
        straight := MakeStraight(chain);
      }
      if !end && three.Null? { // a pair only where there is no triplet
        pair := MakePair(chain);
      }
      PairsPruned(m, chain);
      t := Node(chain, end, three, straight, pair);
    }

    /** Marks everything above the next node, and finds the tile it must use. */
    method StartNode(chain: seq<Meld>) returns (lead: int)
      requires Valid() && TilesOf(chain) <= All()
      modifies flag
      ensures Left() == All() - TilesOf(chain)
      ensures lead == 0 <==> Left() == multiset{}
      ensures lead != 0 ==> lead == Lead(Left())
    {
      Reset();
      MarkCard(chain);
      SumLess(All(), Left(), TilesOf(chain));
      lead := FindLead();
    }

    method MakeThree(chain: seq<Meld>) returns (end: bool, p: Tree)
      requires Valid() && TilesOf(chain) <= All()
      modifies flag
      ensures end <==> All() - TilesOf(chain) == multiset{}
      ensures p == LeadBranch(All() - TilesOf(chain), Three, chain)
      decreases |All() - TilesOf(chain)|, 1
    {
      var lead := StartNode(chain);
      end, p := lead == 0, Null;
      if !end {
        var found := TakeCopies(lead, 3);
        if found {
          GrowChain(All(), chain, Meld(Three, lead));
          p := BuildTree([Meld(Three, lead)] + chain);
        }
      }
    }

    method MakeStraight(chain: seq<Meld>) returns (p: Tree)
      requires Valid() && TilesOf(chain) <= All()
      modifies flag
      ensures p == LeadBranch(All() - TilesOf(chain), Straight, chain)
      decreases |All() - TilesOf(chain)|, 1
    {
      var lead := StartNode(chain);
      p := Null;
      if lead != 0 {
        var found := TakeStraight(lead);
        if found {
          GrowChain(All(), chain, Meld(Straight, lead));
          p := BuildTree([Meld(Straight, lead)] + chain);
        }
      }
    }

    method MakePair(chain: seq<Meld>) returns (p: Tree)
      requires Valid() && TilesOf(chain) <= All()
      requires LeadBranch(All() - TilesOf(chain), Three, chain) == Null
      modifies flag
      ensures p == LeadBranch(All() - TilesOf(chain), Pair, chain)
      decreases |All() - TilesOf(chain)|, 1
    {
      var lead := StartNode(chain);
      p := Null;
      if lead != 0 {
        var found := TakeCopies(lead, 2);
        if found {
          GrowChain(All(), chain, Meld(Pair, lead));
          p := BuildTree([Meld(Pair, lead)] + chain);
        }
      }
    }
  }

  // ----- The tree and the list read from it -----

  ghost function TreeOf(m: multiset<int>, chain: seq<Meld>): (t: Tree)
    ensures t.Node?
    decreases |m|, 2
  {
    Node(chain, m == multiset{}, LeadBranch(m, Three, chain), LeadBranch(m, Straight, chain), LeadBranch(m, Pair, chain))
  }

  /** The branch for one kind of meld on the smallest tile left. */
  ghost function LeadBranch(m: multiset<int>, kind: Kind, chain: seq<Meld>): Tree
    decreases |m|, 1
  {
    if m == multiset{} || !Offered(m, Meld(kind, Lead(m))) then Null
    else
      var meld := Meld(kind, Lead(m));
      assert |Take(m, meld)| < |m| by { TakeRest(m, meld); }
      TreeOf(Take(m, meld), [meld] + chain)
  }

  lemma PairsPruned(m: multiset<int>, chain: seq<Meld>)
    ensures LeadBranch(m, Three, chain).Node? ==> LeadBranch(m, Pair, chain) == Null
    ensures m == multiset{} ==> LeadBranch(m, Straight, chain) == LeadBranch(m, Pair, chain) == Null
    ensures TreeOf(m, chain) == Node(chain, m == multiset{}, LeadBranch(m, Three, chain),
                                     LeadBranch(m, Straight, chain), LeadBranch(m, Pair, chain))
  {
  }

  lemma SumLess(a: multiset<int>, b: multiset<int>, c: multiset<int>)
    requires a == b + c
    ensures b == a - c
  {
  }

  lemma GrowChain(all: multiset<int>, chain: seq<Meld>, meld: Meld)
    requires TilesOf(chain) <= all && Offered(all - TilesOf(chain), meld)
    ensures TilesOf([meld] + chain) <= all
    ensures all - TilesOf([meld] + chain) == Take(all - TilesOf(chain), meld)
    ensures |Take(all - TilesOf(chain), meld)| < |all - TilesOf(chain)|
  {
    assert ([meld] + chain)[1..] == chain;
    TakeRest(all - TilesOf(chain), meld);
    SubSub(all, TilesOf(chain), multiset(MeldTiles(meld)));
  }

  lemma SubSub(a: multiset<int>, b: multiset<int>, c: multiset<int>)
    requires b <= a && c <= a - b
    ensures c + b <= a && a - (c + b) == (a - b) - c
  {
  }

  lemma ChooseStep(start: multiset<int>, before: multiset<int>, after: multiset<int>, d: seq<int>, i: nat)
    requires i < |d| && start == before + multiset(d[..i]) && multiset(d[i..]) <= before
    requires before == after + multiset{d[i]}
    ensures start == after + multiset(d[..i + 1]) && multiset(d[i + 1..]) <= after
  {
    Upcoming(d, i);
    SubCancel(multiset(d[i + 1..]), after, multiset{d[i]});
  }

  lemma SortedMeld(m: Meld)
    ensures Sorted(MeldTiles(m))
  {
  }

  lemma PartFits(a: multiset<int>, b: multiset<int>, c: multiset<int>)
    requires b + c <= a
    ensures b <= a
  {
  }

  lemma SubCancel(a: multiset<int>, b: multiset<int>, c: multiset<int>)
    requires c + a <= b + c
    ensures a <= b
  {
    forall t ensures a[t] <= b[t] {
      assert (c + a)[t] <= (b + c)[t];
    }
  }

  lemma Upcoming(d: seq<int>, i: nat)
    requires i < |d|
    ensures d[i] in multiset(d[i..])
    ensures multiset(d[i..]) == multiset{d[i]} + multiset(d[i + 1..])
    ensures multiset(d[..i + 1]) == multiset(d[..i]) + multiset{d[i]}
  {
    assert d[i..] == [d[i]] + d[i + 1..];
    assert d[..i + 1] == d[..i] + [d[i]];
  }

  // ----- Reading the tree -----

  function ComponentOf(p: seq<Meld>): Component {
    Component(PathType(p), p)
  }

  /** The end nodes in preorder. */
  function Listed(t: Tree): seq<Component> {
    match t
    case Null => []
    case Node(chain, end, three, straight, pair) =>
      var below := Listed(three) + Listed(straight) + Listed(pair);
      if end then [ComponentOf(chain)] + below else below
  }

  function Typed(ps: seq<seq<Meld>>): seq<Component> {
    seq(|ps|, k requires 0 <= k < |ps| => ComponentOf(ps[k]))
  }

  lemma TypedConcat(a: seq<seq<Meld>>, b: seq<seq<Meld>>, c: seq<seq<Meld>>)
    ensures Typed(a + b + c) == Typed(a) + Typed(b) + Typed(c)
  {
  }

  lemma ListedEnd(chain: seq<Meld>)
    ensures Listed(Node(chain, true, Null, Null, Null)) == [ComponentOf(chain)]
  {
  }

  lemma ListedInner(chain: seq<Meld>, a: Tree, b: Tree, c: Tree)
    ensures Listed(Node(chain, false, a, b, c)) == Listed(a) + Listed(b) + Listed(c)
  {
  }

  /** The list read from the tree of a suit is the list of its paths. */
  lemma {:induction false} ListedTree(m: multiset<int>, chain: seq<Meld>)
    ensures Listed(TreeOf(m, chain)) == Typed(Paths(m, chain))
    decreases |m|, 2
  {
    if m == multiset{} {
      ListedEnd(chain);
    } else {
      var x := Lead(m);
      ListedBranch(m, Three, chain);
      ListedBranch(m, Straight, chain);
      ListedBranch(m, Pair, chain);
      ListedInner(chain, LeadBranch(m, Three, chain), LeadBranch(m, Straight, chain), LeadBranch(m, Pair, chain));
      TypedConcat(Below(m, Meld(Three, x), chain), Below(m, Meld(Straight, x), chain), Below(m, Meld(Pair, x), chain));
    }
  }

  lemma {:induction false} ListedBranch(m: multiset<int>, kind: Kind, chain: seq<Meld>)
    requires m != multiset{}
    ensures Listed(LeadBranch(m, kind, chain)) == Typed(Below(m, Meld(kind, Lead(m)), chain))
    decreases |m|, 1
  {
    var meld := Meld(kind, Lead(m));
    if Offered(m, meld) {
      TakeRest(m, meld);
      ListedTree(Take(m, meld), [meld] + chain);
    }
  }
}
