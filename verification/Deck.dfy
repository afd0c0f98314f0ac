/** The table of 144 tiles the wall is shuffled from. */
module Deck {
  import opened Tiles

  /** How many tiles of a code the game has. */
  function CodeCount(x: int): nat {
    if IsSuitTile(x) then 4 else if IsFlower(x) then 1 else 0
  }

  /** Four of every suit tile and one of every flower, 144 in all. */
  ghost predicate IsDeck(m: multiset<int>) {
    |m| == 144 && forall x :: m[x] == CodeCount(x)
  }

  /** `n` copies of each code from `low` to `high`, in ascending order. A deck has four of a suit tile;
      `n` stays a variable in what is proved of it because with the number itself the solver would write
      out the whole table. */
  function Copies(low: int, high: int, n: nat): seq<int>
    decreases n, high - low
  {
    if low > high then [] else seq(n, _ => low) + Copies(low + 1, high, n)
  }

  /** The tile table in its own order, with `n` copies of every suit tile. */
  function AllCard(n: nat): seq<int> {
    Copies(1, 9, n) + Copies(11, 19, n) + Copies(21, 29, n) + Copies(31, 34, n) + Copies(41, 43, n) + Copies(51, 58, 1)
  }

  lemma {:induction false} Repeated(t: int, x: int, n: nat)
    ensures multiset(seq(n, _ => t))[x] == if x == t then n else 0
  {
    if n > 0 {
      Repeated(t, x, n - 1);
      assert seq(n, _ => t) == seq(n - 1, _ => t) + [t];
    }
  }

  lemma CopiesUnfold(low: int, high: int, n: nat, x: int)
    requires low <= high
    ensures multiset(Copies(low, high, n))[x] == (if x == low then n else 0) + multiset(Copies(low + 1, high, n))[x]
    ensures |Copies(low, high, n)| == n + |Copies(low + 1, high, n)|
  {
    Repeated(low, x, n);
  }

  lemma {:induction false} CopiesCount(low: int, high: int, n: nat, x: int)
    ensures multiset(Copies(low, high, n))[x] == if low <= x <= high then n else 0
    decreases high - low
  {
    if low <= high {
      CopiesUnfold(low, high, n, x);
      CopiesCount(low + 1, high, n, x);
    }
  }

  lemma {:induction false} CopiesSize(low: int, high: int, n: nat)
    requires low <= high + 1 && (n == 4 || n == 1)
    ensures |Copies(low, high, n)| == if n == 4 then 4 * (high + 1 - low) else high + 1 - low
    decreases high - low
  {
    if low <= high {
      CopiesUnfold(low, high, n, 0);
      CopiesSize(low + 1, high, n);
    }
  }

  lemma AllCardCount(n: nat, x: int)
    requires n == 4
    ensures multiset(AllCard(n))[x] == CodeCount(x)
  {
    CopiesCount(1, 9, n, x);
    CopiesCount(11, 19, n, x);
    CopiesCount(21, 29, n, x);
    CopiesCount(31, 34, n, x);
    CopiesCount(41, 43, n, x);
    CopiesCount(51, 58, 1, x);
  }

  lemma AllCardSize(n: nat)
    requires n == 4
    ensures |AllCard(n)| == 144
  {
  }

  /** The tile table is the deck. */
  lemma AllCardIsDeck(n: nat)
    requires n == 4
    ensures IsDeck(multiset(AllCard(n)))
  {
    AllCardSize(n);
    forall x ensures multiset(AllCard(n))[x] == CodeCount(x) {
      AllCardCount(n, x);
    }
  }

  /** No tile of a deck has the code the wall buffer uses for an empty slot. */
  lemma NoBlankTile(all: seq<int>, k: nat)
    requires IsDeck(multiset(all)) && k < |all|
    ensures all[k] != 0
  {
    assert all[k] in multiset(all);
  }

  /** The table as the shuffle gets it. */
  method TileTable() returns (all: seq<int>)
    ensures |all| == 144 && IsDeck(multiset(all))
  {
    AllCardIsDeck(4);
    all := AllCard(4);
  }
}
