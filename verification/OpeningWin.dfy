/** A win by the host at the opening, whose extra tile has been sorted in with its hand. */
module OpeningWin {
  import opened Hands
  import opened OpeningHand
  import opened Winning
  import Scoring

  /** A win is settled on the tiles below `num` and the tile that was drawn. With the drawn one sorted in
      these are the tiles of the hand if and only if it came to stand last. */
  lemma SortedInWin(s: seq<int>, num: nat, c: int)
    requires num < |s|
    ensures multiset(s[..num] + [c]) == multiset(s[..num + 1]) <==> s[num] == c
  {
    DropLast(s, num + 1);
    assert multiset(s[..num] + [c]) == multiset(s[..num]) + multiset{c};
    OneMore(multiset(s[..num]), c, s[num]);
  }

  /** A hand with one copy of an honour does not win. */
  lemma LonelyHonour(hand: seq<int>, t: int)
    requires t > 30 && multiset(hand)[t] == 1
    ensures !Wins(hand)
  {
    if Wins(hand) {
      var s :| IsSplit(s, multiset(hand), 1);
      Scoring.HonourInSplit(s, t);
    }
  }

  /** When the host's tile `c` has been sorted in with its hand and the pair is of an honour that stands
      last, the tiles the win is settled on do not win. */
  lemma OpeningWinMisread(s: seq<int>, c: int)
    requires s != [] && s[|s| - 1] > 30 && multiset(s)[s[|s| - 1]] == 2 && c != s[|s| - 1]
    ensures !Wins(s[..|s| - 1] + [c])
  {
    var t, below := s[|s| - 1], s[..|s| - 1];
    assert s == below + [t];
    assert multiset(below + [c])[t] == multiset(below)[t];
    LonelyHonour(below + [c], t);
  }
}
