# A verified model of QKMJ

QKMJ is a Taiwanese mahjong with sixteen tiles a hand. One client hosts a table: it shuffles the wall,
deals, sends tiles out, opens a window for claims after every throw, compares the answers and keeps a
copy of every hand. The other clients edit their own hands. A lobby server counts who sits where.

This project models the parts of QKMJ in which something can go subtly wrong, and proves what they
promise, or exactly when they keep the promise.

* **The winning hand.** `Search` and `Winning` define what the pruned, leftmost search of `chkmake.c`
  lists. `SuitSearch` and `CheckMake` carry the search out on the table of marks, as the source does,
  and are proved equal to that definition. The search lists every division with at most one pair, an
  exchange of three equal straights for three triplets makes the first path of a pair-free suit
  pair-free, and `check_make`, which looks at first paths only, is right except for one kind of hand.
* **The round.** `Table`, `Round` and `Phases` are the host's record, its steps and the phases it goes
  through; `Host` holds the host's procedures, with their loops, proved equal to the steps, and
  `HostChecks` joins them to the checks of the hands. From a table in one of the phases every event keeps
  all 144 tiles and the phases, with one exception: a kang that the host declares at the opening can lose
  tiles, and `OpeningHand` says exactly when. A throw ends in exactly one of four ways, a round stalls
  only when the wall cannot supply the next tile, and it is finite. `Shuffle`, `Deck`, `Deal` and
  `NewRound` lead up to it and say which rounds open in a phase and which of them keep their tiles.
* **The hands.** `Hands` and `Eating` hold the edits of a hand in its buffer; `PoolSeats` ties them to
  the steps of the round; `Replica` compares the host's copy with the owner's hand over whole rounds, and
  `DealCopies` starts them off equal.
* **Scores and money** (`Scoring`, `Settlement`), **frames on a byte stream** (`Framing`) and **the
  lobby's head counts** (`Lobby`).

The invariant of a round is reached: `NewRound.StartRound` goes from the tile table through shuffle and deal to
the opened table, for any random numbers, and says exactly when that table satisfies the invariant and when
every run from it keeps all tiles.

One hypothesis runs through the round: the host's record of a seat loses the tile that was thrown. For the
host's own throw this is proved (`PoolSeats.ThrowAway`); for its copy of another seat's hand
`PoolSeats.MirrorThrowAway` says exactly when it is so.

Tiles are numbered as in the source: suits 1-9, 11-19, 21-29, winds 31-34, dragons 41-43, flowers 51-58.
The code of the repository is authoritative. Where it falls short of what it is for, the code is kept,
an input or state that shows it is given, and the condition under which it is right is proved:

* `check_make` looks only at the first path of each suit and gives up when that path has several pairs
  (qkmjclient/chkmake.c:385). `CrowdedSuit.WinTurnedDown` is a winning hand it turns down;
  `Winning.MakesExactly` says which hands it accepts.
* The host looks for a thrown tile in its copy with a loop that declares its own `i`, and then overwrites
  the entry of an outer `i` that was never set (qkmjclient/message.c:378-380). In `Failures.CopiesPart` the
  copies part; `Replica.MirrorThrowExactly` says for which entry they still agree.
* The owner's kang loop has no `break` (qkmjclient/checkscr.c:318-324). `Failures.FourthCopyLost` is a hand
  in which it loses a fourth copy; `Hands.KangSweepExactly` says when it removes three copies;
  `RoundWindow.ExactlyThree` and `RoundWindow.ExactlyThreeDrawn` show that a kang of a discard or of a
  tile drawn beside the hand meets the condition.
* A host that deals sorts its seventeenth tile in with the others before it may declare a kang
  (qkmjclient/qkmj.c:659), and the same loop then runs over that hand. `OpeningHand.SortedKangExactly` says for
  which hands it takes the four copies, `NewRound.RoundKeepsExactly` that all runs of a round keep their
  tiles exactly when the host has not dealt itself another one, and `Failures.OpeningKangLoses` is a deal
  that loses tiles.
* A win by the host on the seventeen tiles it dealt itself is settled on the sixteen that come first in order
  and the extra one once more (qkmjclient/checkscr.c:115). `OpeningWin.SortedInWin` says when these are its
  tiles; `OpeningWin.OpeningWinMisread` gives hands for which they do not win, such as triplets of 1 to 5
  and a pair of 43 with a 1 dealt last.
* When the wall runs out, the request for the next player is not dropped (qkmjclient/qkmj.c:977-1002).
  `Failures.WallEnds` is a table at which that happens; `NewRound.NextRoundStarts` and
  `NewRound.ExhaustedSkipsDealer` show what it does to the next round.
* At the opening the question about the dealer's extra tile is always put to the host
  (qkmjclient/qkmj.c:627-637). `Failures.OpeningStalls` is a deal after which a dealer at another seat is
  marked and never asked; `NewRound.UnaskedDealerStalls` says which deals those are, and
  `NewRound.UnaskedRoundStalls` that such a round draws no further tile and never ends.
* Joining a table while seated elsewhere breaks the head counts (qkmjserver/mjgps.c:1019-1021), as in the
  run of `Failures.SecondJoin`; `Lobby.JoinCountedExactly` gives the condition, which the client checks
  (qkmjclient/command.c:203).
* A write that fails leaves the start of a frame on the connection (qkmjclient/protocol.c:65-78), and callers
  go on sending. `Framing.Exchange` shows what is received when a sender stops there, and
  `Framing.CutFrameJoins` when the next message is still received as sent.

## Model

| member | source | states |
|---|---|---|
| Search.PathsSound | qkmjclient/chkmake.c:131-143 | Every root-to-end path of the search tree holds exactly the tiles of the suit |
| Search.PathsLegal | qkmjclient/chkmake.c:131-143 | Its melds are triplets, straights inside one numbered suit, and pairs |
| Search.OfferedMeld | qkmjclient/chkmake.c:133-140 | In a split with at most one pair some meld on the smallest tile is one the search tries, although it tries no pair while three copies are left |
| Search.PathsComplete | qkmjclient/chkmake.c:131-310 | Every split of a suit with at most one pair appears on some path, as a multiset of melds, in spite of the pruning |
| Search.ExchangeStraights | qkmjclient/chkmake.c:131-143 | A pair-free split in which three copies of the smallest tile start equal straights can be exchanged for one with triplets |
| Search.FirstChoiceKeepsPairless | qkmjclient/chkmake.c:131-143 | The first kind of meld tried on the smallest tile leaves tiles that still split without a pair |
| Search.FirstPathPairless | qkmjclient/chkmake.c:131-143 | If a suit splits without a pair, the first path in preorder (triplet, straight, pair) has no pair |
| SuitSearch.CardInfo.MarkCard | qkmjclient/chkmake.c:145-163 | Marking walks up from a node and marks exactly the tiles of the melds on its path; the tiles left are the suit minus those |
| SuitSearch.CardInfo.FindLead | qkmjclient/chkmake.c:165-174 | The tile the next meld must use is the smallest one not marked, or 0 when all are |
| SuitSearch.CardInfo.TakeCopies | qkmjclient/chkmake.c:183-206 | A triplet or pair is found exactly when enough unmarked copies of the smallest tile are left |
| SuitSearch.CardInfo.TakeStraight | qkmjclient/chkmake.c:216-238 | A straight is found exactly when the two following tiles are left unmarked |
| SuitSearch.CardInfo.BuildTree | qkmjclient/chkmake.c:131-143 | The recursion on the table of marks ends and builds the tree whose end nodes are the paths |
| SuitSearch.ListedTree | qkmjclient/chkmake.c:291-310 | Reading the tree in preorder yields the paths in their order |
| CheckMake.WinCheck.ListPath | qkmjclient/chkmake.c:273-289 | Copying a path from its end upwards yields its melds and its type (1 empty, 2 no pair, 3 one pair, 4 more) |
| CheckMake.WinCheck.PreTrav | qkmjclient/chkmake.c:291-310 | The traversal appends one component for each end node, in preorder, and changes no other suit |
| CheckMake.WinCheck.FillBuffer | qkmjclient/chkmake.c:330-341 | The buffer is the hand and the card, sorted, closed by 0 |
| CheckMake.WinCheck.SuitRun | qkmjclient/chkmake.c:351-361 | The cut of the sorted buffer for a suit is exactly that suit's tiles |
| CheckMake.WinCheck.CheckMake | qkmjclient/chkmake.c:324-399 | On every hand with a card, in any order, flowers included, the procedure records the paths of each suit and says yes exactly when one suit's first path has one pair and the others have none |
| Winning.PairlessSuit | qkmjclient/chkmake.c:372-394 | For a suit without the pair, the first path is enough: it is pair-free exactly when some split is |
| Winning.PairSuit | qkmjclient/chkmake.c:372-394 | For the suit with the pair, a one-pair first path is enough, and the only other possibility is a first path with at least four pairs |
| Winning.MakesIsSound | qkmjclient/chkmake.c:324-399 | A yes means the tiles divide into triplets, in-suit straights and exactly one pair, and number 2 modulo 3 |
| Winning.MakesExactly | qkmjclient/chkmake.c:370-394 | The answer is yes if and only if the hand wins and no suit's first path has more than one pair |
| Winning.MakesByTiles | qkmjclient/chkmake.c:330-341 | The answer depends on the tiles only, not on their order |
| Winning.FlowerNeverMakes | qkmjclient/chkmake.c:351-369 | A hand that waits for a tile never wins on a flower, so a drawn flower raises no question |
| CrowdedSuit.FirstPathOf | qkmjclient/chkmake.c:131-143 | For a suit given by its counts, the number of pairs on the first path, computed without the search tree |
| CrowdedSuit.WinTurnedDown | qkmjclient/chkmake.c:372-394 | The hand 1 1 1 2 2 3 3 4 4 4 5 5 6 6 wins and is turned down |
| Combinations.ValidPathPairs | qkmjclient/chkmake.c:401-407 | Two valid paths of the same suit have the same number of pairs |
| Combinations.CombinationSplits | qkmjclient/chkmake.c:409-453 | Whatever the answer, any mixture of valid components divides the hand, with the pairs it shows |
| Combinations.CombinationIsWin | qkmjclient/chkmake.c:409-453 | After a yes, any mixture of valid components is a full division of the hand with exactly one pair |
| Combinations.EveryWinListed | qkmjclient/chkmake.c:409-453 | Whatever the answer, every division of the hand with exactly one pair is among the combinations, up to order |
| Combinations.WinsExactlyWhenListed | qkmjclient/chkmake.c:409-453 | A hand of suit tiles wins if and only if some combination of its components has exactly one pair; that holds of the hands `check_make` turns down, too |
| CheckMake.WinCheck.FullCheck | qkmjclient/chkmake.c:409-453 | The nested loops list every choice of valid components of the three numbered suits once, in order, joined with the first ones of the honours |
| CheckMake.CombinationsAreProduct | qkmjclient/chkmake.c:409-453 | That list holds exactly the products of valid components |
| CheckMake.SetCodeTellsKind | qkmjclient/chkmake.c:425-437 | The code computed from the tiles of a set tells triplet, straight and pair apart |
| Scoring.ExistCard | qkmjclient/chkmake.c:465-481 | The count of a tile over hand and melds |
| Scoring.CountsTell | qkmjclient/chkmake.c:465-481 | In a winning hand a count of three or more means a triplet of the honour and a count of two its pair |
| Scoring.DragonsByTriplets | qkmjclient/chkmake.c:1010-1044 | Comparing counts gives the value of the dragon triplets held: small three dragons is two triplets and the pair, and nothing is counted twice |
| Scoring.WindsByTriplets | qkmjclient/chkmake.c:1046-1058 | The same for big and small four winds: three triplets and the pair |
| Scoring.Tally.CheckDragons | qkmjclient/chkmake.c:688-701 | In a winning hand tai 13 to 15, 37 and 40 are those of the copies held in hand and melds, and sum to the value of the dragon triplets held and of the pair |
| Scoring.Tally.CheckWinds | qkmjclient/chkmake.c:637-686 | In a winning hand tai 9 to 12, 17 to 20, 41 and 47 are those of the copies held, and sum to the value of the wind triplets held, of the pair, and of the round and seat winds |
| Scoring.Tally.ScoreDragons | qkmjclient/chkmake.c:1010-1044 | For any three counts, what each of tai 13 to 15, 37 and 40 holds: the triplets one by one unless all three have two copies, then small three dragons, or big ones alone when all have three |
| Scoring.Tally.FourWinds | qkmjclient/chkmake.c:1160-1174 | For any four counts tai 41 and 47 are set for small or big four winds, never both, and clear tai 9 to 12 and 17 to 20; otherwise those stay |
| Scoring.Tally.EachWind | qkmjclient/chkmake.c:637-686 | For any four counts, what each of tai 9 to 12 and 17 to 20 holds: one for a triplet of the round wind or of the seat's wind, two in the other entry when it is both |
| Settlement.PickBest | qkmjclient/checkscr.c:118-125 | The reading settled on is listed, of maximal score, and the first such |
| Combinations.BestReading | qkmjclient/checkscr.c:112-125 | From the check through the list to the pick: a yes exactly for the accepted hands, and the reading settled on is a division of the hand with one pair that no listed one outscores |
| OpeningWin.SortedInWin | qkmjclient/checkscr.c:114-115 | With the extra tile sorted in, the tiles a win is settled on are those of the hand if and only if that tile came to stand last |
| OpeningWin.OpeningWinMisread | qkmjclient/checkscr.c:114-115 | If the pair is of an honour that stands last and another tile was dealt last, they do not win |
| Settlement.ChangesSumToZero | qkmjclient/checkscr.c:213-241 | The money changes of a round sum to zero |
| Settlement.SameSurcharge | qkmjclient/checkscr.c:213-241 | Between the dealer and another seat the same amount changes hands whichever of them wins |
| Settlement.TableInfo.Pay | qkmjclient/checkscr.c:213-241 | On a discard only the seat that threw it pays, on a self-drawn win each of the three others does; the dealer pays the surcharge, everyone else base and tai; and the winner gets exactly what is paid |
| Settlement.TableInfo.ProcessMake | qkmjclient/checkscr.c:213-288 | After a win each seat's money has changed by what it pays, with the surcharge of a dealer who wins or pays; a dealer's win adds one to the count of repeated deals, any other sets it to 0 and passes the deal on, with the wind after seat 4 |
| Settlement.TableInfo.KeepDeal | qkmjclient/qkmj.c:977-985 | An exhausted wall adds one to that count and moves no money |
| Settlement.GameKept | qkmjclient/checkscr.c:266-288 | Over any game total money is constant, dealer and wind stay within 1 to 4, and the deal goes round in a cycle of sixteen |
| Settlement.StaysCounted | qkmjclient/checkscr.c:277-288 | While the deal does not pass on, the count of repeated deals is the number of rounds played, and the round that passes it on sets it to 0 |
| Shuffle.SlotsDistinct | qkmjclient/card.c:33-47 | The inner scan always finds an empty slot and no slot is used twice |
| Shuffle.ChoicesOfSlots | qkmjclient/card.c:33-47 | The random numbers can be read back from the placement |
| Shuffle.SlotsOfChoices | qkmjclient/card.c:33-47 | Every placement comes from some random numbers, for any number of tiles |
| Shuffle.SlotPassesOver | qkmjclient/card.c:33-47 | Each tile goes to the empty slot that has as many empty ones before it as its random number says |
| Shuffle.GenerateCard | qkmjclient/card.c:25-48 | The wall is a permutation of the tile table, tile by tile in the slots the numbers choose |
| Deck.AllCardIsDeck | qkmjclient/card.c:13-21 | The tile table has 144 tiles: four of every suit tile, one of every flower |
| Deck.TileTable | qkmjclient/card.c:13-21 | The table the shuffle starts from is the deck |
| Deal.CheckBeginFlower | qkmjclient/check.c:129-156 | A flower in the slot is replaced by the next tile of the wall, and only a flower is |
| Deal.FillSlot | qkmjclient/check.c:129-156 | The repeated exchange ends with a suit tile, after one wall tile for each flower shown; nothing is lost and the wall is long enough |
| Deal.FillHand | qkmjclient/qkmj.c:596-602 | A hand is left sorted and without flowers, and the exchange loses no tile |
| Deal.FillRow | qkmjclient/check.c:129-156 | The flowers of a hand lie with the flowers of its own seat: what the seat holds and shows is what it held and showed and the tiles drawn for it, and no other seat shows more |
| Deal.Pools.FillSeat | qkmjclient/qkmj.c:592-602 | The same for the host's buffers: the other hands are not touched |
| Deal.Pools.FillAll | qkmjclient/qkmj.c:592-602 | The loop over the seats, starting at the dealer, reaches all four hands, and each draws the stretch of wall after that of the seat before |
| Deal.Pools.OpenDeal | qkmjclient/qkmj.c:524-603 | The deal ends with no flower in any hand; every seat's hand and flowers are its own sixteen tiles and the stretch of wall drawn for it in its turn, the dealer's with the extra tile and what replaced it; the used part of the wall is 65 plus the flowers shown, and hands, flowers and remaining wall are the deck |
| DealCopies.DealBoth | qkmjclient/message.c:729-738 | Owner and host have the same sixteen tiles in the same order |
| DealCopies.ExtraBoth | qkmjclient/check.c:129-156 | So they do after the extra tile and its replacements |
| DealCopies.FillBoth | qkmjclient/check.c:129-156 | After the owner has carried out the changes it is told and both have sorted, the host's copy agrees with the owner's hand, the dealer's with its extra tile |
| NewRound.ShuffleAndDeal | qkmjclient/qkmj.c:524-603 | Whatever the random numbers, shuffle and deal produce such a deal |
| Hands.EatEditExact | qkmjclient/checkscr.c:353-391 | Overwriting the two eaten tiles from the end of the hand removes exactly them, wherever they stand and even when a tile moved from the end is the next one looked for |
| Hands.PongEditExact | qkmjclient/checkscr.c:302-315 | Overwriting a copy and its neighbour removes exactly two copies |
| Hands.KangSweepExact | qkmjclient/checkscr.c:316-330 | With exactly three copies the loop without `break` removes them and nothing else |
| Hands.KangSweepExactly | qkmjclient/checkscr.c:318-324 | In a sorted hand with at least three copies the loop removes exactly three if and only if there are three or the last tile is a copy |
| Failures.FourthCopyLost | qkmjclient/checkscr.c:318-324 | A sorted hand with four ones, of which the loop removes all |
| OpeningHand.SortedKangExactly | qkmjclient/checkscr.c:318-324 | Over sorted tiles with four copies and the last tile at `num`, the loop takes exactly the four if and only if the last tile is a copy, or the last two are equal and no copies and the two behind the copies, if there are that many, equal the two before the last two |
| Hands.OverwriteThreeExact | qkmjclient/message.c:545-556 | The host's loop with `break` removes three copies of a sorted hand |
| Hands.CopiesTogether | qkmjclient/check.c:47-53 | In a sorted hand the copies of a tile stand together, so looking at neighbours counts them |
| Hands.Pool.SearchCard | qkmjclient/check.c:25-31 | The search finds the first place, -1 means the tile is absent, and tile 0 is answered with 0 |
| Hands.Pool.CheckKang | qkmjclient/check.c:33-63 | 1 exactly for three copies in the hand, 2 exactly for the owner's own pong of the tile and fewer copies |
| Hands.Pool.CheckPong | qkmjclient/check.c:65-73 | True exactly for two copies |
| Hands.Pool.Throw | qkmjclient/input.c:117-124 | The thrown tile leaves and the rest, with the extra tile, is sorted |
| Hands.Pool.ClaimPong | qkmjclient/checkscr.c:302-315 | On the owner's and on the host's side two copies leave, `num + 3 * melds` stays 16, and the hand is sorted |
| Hands.Pool.ClaimKang | qkmjclient/checkscr.c:316-335 | On both sides three copies leave and the hand is sorted, given exactly three |
| Hands.Pool.ClaimOwnKang | qkmjclient/checkscr.c:316-335 | On any hand the owner's side of a kang leaves sorted what its loop leaves, and records the meld |
| Hands.Pool.ClaimAddedKang | qkmjclient/message.c:490-498 | The first pong of the tile becomes a kang; no other meld changes |
| Hands.Pool.AddOwnKang | qkmjclient/checkscr.c:336-352 | The owner's first meld showing the tile becomes a kang; without one nothing changes |
| Hands.Pool.ClaimEat | qkmjclient/message.c:557-566 | The two tiles leave, the meld is recorded, the hand is sorted |
| Eating.CheckEat | qkmjclient/check.c:75-119 | True exactly for the next seat and some in-suit straight through the discard with its other two tiles in hand |
| Eating.EatChoices | qkmjclient/input.c:319-340 | The choices offered are exactly those straights, in ascending order |
| Eating.CodeIsStraight | qkmjclient/checkscr.c:353-391 | The code sent for a choice decodes to the same straight: the tiles taken are its other two and the meld recorded is the straight |
| Eating.ClaimByCode | qkmjclient/message.c:557-566 | Owner and host take the same two tiles, although they search for them in different orders |
| Replica.MirrorThrowExactly | qkmjclient/message.c:378-381 | After a throw the host's copy equals the owner's hand if and only if the entry it overwrites holds the thrown tile |
| Replica.SearchedSlotWorks | qkmjclient/message.c:378-381 | The entry a search would give is such an entry |
| Failures.CopiesPart | qkmjclient/message.c:378-381 | Two agreeing hands and an entry after which they differ |
| Replica.HistoryAgrees | qkmjclient/message.c:534-567 | With such entries, in every history of draws, throws, claims, flowers shown and tiles added to a pong both sides hold the same tiles, and identical sorted hands after every throw |
| Replica.DrawBoth | qkmjclient/qkmj.c:245-251 | The two pieces of code for a draw keep the agreement |
| Replica.PongBoth | qkmjclient/checkscr.c:301-315 | So do those for a pong |
| Replica.EatBoth | qkmjclient/checkscr.c:353-391 | So do those for an eat |
| Replica.KangBoth | qkmjclient/checkscr.c:316-335 | So do those for a kang |
| Replica.AddedKangBoth | qkmjclient/message.c:490-498 | So do those for a tile added to a pong |
| Replica.FlowerBoth | qkmjclient/checkscr.c:565-570 | So do those for a flower shown |
| Replica.ThrowBoth | qkmjclient/input.c:117-124 | So do those for a throw, given a right entry |
| PoolSeats.CheckCard | qkmjclient/check.c:121-127 | The checks on the buffers give exactly the claims the round allows a seat |
| PoolSeats.CheckDrawn | qkmjclient/qkmj.c:296-298 | So do the checks of a drawn tile |
| PoolSeats.TakeTile | qkmjclient/qkmj.c:201-202 | The buffer edit for a drawn tile does what the round says of the seat |
| PoolSeats.SortTileIn | qkmjclient/qkmj.c:657-659 | So does the sort of the dealt tile into the hand |
| PoolSeats.PutDownFlower | qkmjclient/checkscr.c:565-570 | So does that for a flower shown |
| PoolSeats.ThrowAway | qkmjclient/input.c:117-124 | The buffer edit for a throw does what the round says of the seat |
| PoolSeats.MirrorThrowAway | qkmjclient/message.c:378-381 | The host's edit of its copy does what the round says of the seat if and only if the entry it overwrites holds the thrown tile |
| PoolSeats.PongDiscard | qkmjclient/message.c:535-544 | So does that for a pong |
| PoolSeats.KangTile | qkmjclient/message.c:545-556 | So does that for a kang, which needs exactly three copies |
| PoolSeats.KangSortedIn | qkmjclient/checkscr.c:316-335 | So does that for a kang at the opening, right or wrong |
| PoolSeats.EatDiscard | qkmjclient/message.c:557-566 | So does that for an eat |
| PoolSeats.AddToPong | qkmjclient/message.c:490-498 | So does that for a pong turned into a kang |
| Arbitration.EverySeatOnce | qkmjclient/qkmj.c:372-377 | Going on to the next turn as often as there are players reaches every taken seat exactly once, whichever seats are empty |
| Arbitration.NextTurnWhenFull | qkmjclient/qkmj.c:372-377 | With four players the next turn is the next seat, as the round assumes |
| Arbitration.VerdictUnique | qkmjclient/check.c:227-358 | When no two seats make the same kind of claim, the answers admit one action, in whatever order seats are scanned |
| Arbitration.DecideSettles | qkmjclient/check.c:231-353 | The scan takes a win before a kang before a pong before an eat, and the nearest winner after the owner of the tile |
| Arbitration.DecideRanks | qkmjclient/check.c:231-353 | From the answers alone: any win goes first, the nearest after the owner; then the lowest seat with a kang, with a pong, with an eat |
| Host.Host.FindVerdict | qkmjclient/check.c:231-353 | The four loops find that action |
| Host.Host.CompareCheck | qkmjclient/check.c:227-358 | The whole comparison is the step of the round that the next six rows describe |
| Round.AnswersUsed | qkmjclient/check.c:355-358 | The answers are cleared, and the next player is asked for exactly when nobody claimed anything and the tile was thrown |
| Round.WinActs | qkmjclient/check.c:231-249 | A win ends the round for every seat and moves no tile; without a claim nothing is done |
| Round.ClaimActs | qkmjclient/check.c:299-351 | A pong or an eat takes the last tile of the grid; its seat has turn and ownership and is to throw |
| Round.KangActs | qkmjclient/check.c:251-297 | A kang gives its seat the turn, to draw again; which of the three kinds it is, and only that of a discard takes a tile from the grid |
| Seats.CopiesClaimed | qkmjclient/checkscr.c:301-335 | A pong takes two copies from the hand and shows three, a kang takes three and shows four |
| Seats.StraightClaimed | qkmjclient/checkscr.c:353-391 | An eat takes the other two tiles of the straight and shows the discard between them |
| Host.Host.ClaimDiscard | qkmjclient/check.c:299-351 | The claimer gets turn and ownership, the discard leaves the grid, and the claimer throws, or draws after a kang |
| Host.Host.ClaimKang | qkmjclient/check.c:251-297 | Which of the three kangs is carried out |
| Host.Host.AnswerCheck | qkmjclient/message.c:430-433 | An answer clears the seat's question and records what it claims, and nothing else |
| Host.Host.RequestCard | qkmjclient/message.c:320-322 | A player's request for a tile waits for the loop, and the player waits |
| Host.Host.ShowFlower | qkmjclient/message.c:454-463 | The flower lies with the flowers of its own seat, the hand is as before, and another tile is due |
| Host.Host.NextPlayer | qkmjclient/qkmj.c:977-1006 | With more than sixteen tiles left the next seat is to draw; otherwise the wall is exhausted and nothing else changes |
| HostChecks.ThrowCard | qkmjclient/message.c:371-415 | After a throw another seat is asked, and its player told, exactly when it is the next seat and some straight with the tile is open to it, or it holds two copies, or it wins with the tile; its flags say which; the tile leaves the hand for the grid and the permissions are withdrawn |
| HostChecks.DrawCard | qkmjclient/input.c:129-194 | The host's own draw: a flower is shown, one more tile leaves the wall unstored and the host draws again; any other tile stays beside its hand. It is asked exactly when it holds three copies, has a pong of the tile, or wins with it |
| HostChecks.SendOneCard | qkmjclient/qkmj.c:245-325 | The next tile of the wall goes beside the hand of the player whose turn it is, who throws, or shows it when it is a flower, and is asked exactly when it holds three copies, has a pong of it, or wins with it |
| HostChecks.TurnLoop | qkmjclient/qkmj.c:965-1010 | In every phase one turn of the loop is closing the window, passing the turn and sending a tile, each under its own permission; a tile leaves the wall exactly when one was requested |
| Round.WindowCloses | qkmjclient/qkmj.c:965-976 | The window closes when the last answer is in, and not before |
| Round.TurnGoesRound | qkmjclient/qkmj.c:977-1006 | The turn goes to the next seat while the wall has more than sixteen tiles |
| Round.CheckPart | qkmjclient/qkmj.c:965-976 | Comparing answers touches neither wall nor a player's request for a tile |
| Seats.ClaimBag | qkmjclient/checkscr.c:297-407 | A claim puts exactly the claimed tile more in front of the seat |
| Table.FourCopies | qkmjclient/card.c:13-21 | At most four copies of a tile are in front of two seats, on the table and on the wall together |
| Table.DiscardsFit | qkmjclient/qkmj.c:226-243 | There are never more than 80 discards, fewer than the grid of 6 by 17 holds |
| RoundSafety.HostDrawConserves | qkmjclient/check.c:158-205 | The host's draw loses no tile, counting the burned ones |
| RoundSafety.SendConserves | qkmjclient/qkmj.c:245-325 | Neither does sending a tile |
| RoundSafety.ThrowPhase | qkmjclient/message.c:371-415 | A throw opens the window: all seats hold sixteen tiles and each other seat is asked what its hand allows |
| RoundSafety.MayThrow | qkmjclient/input.c:205-275 | The player whose turn it is may throw any tile of its hand, the drawn one included, and nobody else may |
| RoundSafety.MayDraw | qkmjclient/input.c:129-194 | The player told to draw may, the host while the wall supplies its tile and another by asking; nobody else may |
| RoundSafety.MayShow | qkmjclient/check.c:158-205 | So may the player that was sent a flower show it |
| RoundClaims.TakeDiscardConserves | qkmjclient/checkscr.c:297-407 | A pong, an eat or a kang of a discard loses no tile |
| RoundClaims.ConcealedConserves | qkmjclient/checkscr.c:316-335 | A concealed kang loses no tile if and only if the owner's loop takes the four copies, which it does unless the drawn tile was sorted in |
| RoundClaims.AddedConserves | qkmjclient/checkscr.c:336-352 | Neither does a tile added to a pong |
| RoundClaims.OwnerFindsPong | qkmjclient/checkscr.c:338-343 | The owner's search among all melds finds the same pong as the host's, because no other meld can show the tile |
| RoundWindow.OneSeatAsked | qkmjclient/check.c:65-127 | For a discard at most one seat is flagged pong or kang, and only the next seat eat |
| RoundWindow.ClaimsDiffer | qkmjclient/check.c:121-127 | So no two seats make the same kind of claim |
| RoundWindow.ExactlyThree | qkmjclient/checkscr.c:316-324 | A hand that takes a discard for a kang holds exactly three copies |
| RoundWindow.ExactlyThreeDrawn | qkmjclient/checkscr.c:316-324 | So does a hand that declares a concealed kang of the tile it drew |
| RoundWindow.MayAnswer | qkmjclient/check.c:121-127 | The player at a seat that has been asked about a discard may answer a claim exactly when its hand has the tiles for it, and may always pass |
| RoundWindow.MayDeclare | qkmjclient/qkmj.c:296-325 | So may the player that drew a tile declare a kang or a win with it |
| RoundRuns.StepKeeps | qkmjclient/qkmj.c:965-1010 | From a table in one of its phases every message and every turn of the loop keeps the deck and leads to a phase if and only if it is not the turn that carries out a kang at the opening on a hand that is not right for it |
| RoundRuns.RunKeeps | qkmjclient/qkmj.c:965-1010 | So, while no such kang is open, every table reached satisfies the invariant: one deck, sixteen tiles a seat with melds counted as three, seventeen for the one who throws |
| RoundRuns.RunsKeepExactly | qkmjclient/qkmj.c:965-1010 | All runs from a table keep the invariant if and only if no such kang is open |
| RoundRuns.RunConserves | qkmjclient/card.c:13-21 | After any such run each code has exactly its copies among hands, melds, flowers, discards, burned tiles and wall |
| RoundRuns.RunDiscardsFit | qkmjclient/qkmj.c:226-243 | After any such run the discards fit their grid |
| RoundOutcome.WindowHolds | qkmjclient/qkmj.c:965-976 | While a seat is still asked about a discard only answers come in, and wall, turn, hands and discards stay as they are |
| RoundOutcome.AnswersCommute | qkmjclient/message.c:430-433 | The order in which answers arrive makes no difference |
| RoundOutcome.WindowResolves | qkmjclient/check.c:227-358 | A discard ends in exactly one of a win, one claim that the claimer's hand allows, the next seat's draw with more than sixteen tiles left, or the end of the wall; the wall is not touched and the answers admit no other outcome |
| RoundOutcome.AlwaysAnEvent | qkmjclient/qkmj.c:965-1010 | While a round is played, in every table in a phase some event that changes the table can happen if and only if the host or the player to be served does not need a tile that the wall cannot supply |
| RoundEnds.StepProgress | qkmjclient/qkmj.c:965-1010 | Every event that changes the table lowers a measure of tiles to draw, melds to claim and stages of play |
| RoundEnds.RoundIsFinite | qkmjclient/qkmj.c:965-1010 | No such run has more than 1979 of these events |
| NewRound.OpenedConserves | qkmjclient/qkmj.c:444-472 | The table opened after a deal holds exactly the deck |
| NewRound.SeatInTurn | qkmjclient/qkmj.c:524-603 | On the opened table everything in front of a seat is what the wall dealt to it |
| NewRound.OpenedTable | qkmjclient/qkmj.c:444-472 | The opened table: hands and flowers of the deal, the dealer to throw, and one seat marked exactly when the dealer's extra tile makes a fourth copy or a winning hand |
| NewRound.NextRoundStarts | qkmjclient/qkmj.c:977-1002 | A round, the first or a later one, starts in one of its phases if and only if no request is left over and the dealer is the host or has nothing to declare; after a finished round a request is left over exactly when the wall ran out |
| NewRound.RoundKeepsExactly | qkmjclient/qkmj.c:657-661 | All runs of a round that starts so keep its tiles if and only if the host has not dealt itself a kang on a hand that is not right for its loop |
| Failures.OpeningKangLoses | qkmjclient/qkmj.c:657-661 | A legal deal after which the host answers kang and the table no longer holds the deck |
| NewRound.StartRound | qkmjclient/qkmj.c:524-661 | Both from the tile table on, whatever the random numbers |
| NewRound.ExhaustedSkipsDealer | qkmjclient/qkmj.c:977-1006 | After an exhausted wall the first turn of the loop lets the next seat draw while the new dealer still has to throw |
| Failures.WallEnds | qkmjclient/qkmj.c:977-1006 | A table of the invariant at which the wall runs out, after which in the next round two seats are to act at once |
| NewRound.UnaskedDealerStalls | qkmjclient/qkmj.c:618-639 | The dealer's first throw is never resolved if and only if the dealer is at another seat and there was something to ask |
| NewRound.StuckStays | qkmjclient/message.c:390-407 | After such a throw only turns of the loop that change nothing and answers of other seats can follow |
| NewRound.UnaskedRoundStalls | qkmjclient/qkmj.c:965-976 | In every run from such an opening no tile leaves the wall and the round does not end |
| Failures.OpeningStalls | qkmjclient/qkmj.c:618-639 | A legal deal with three copies of the extra tile at the second seat, after which every first throw stalls |
| Framing.SendFrame | qkmjclient/protocol.c:51-92 | Only frames of fewer than 65535 bytes are written, whole and closed by NUL however the writes are cut, unless a write fails; then a start of the frame is, and the result says so |
| Framing.RecvFrame | qkmjclient/protocol.c:101-198 | For any arrival of the bytes the first frame is returned exactly, nothing after its NUL is consumed, and the buffer is not overrun |
| Framing.EncodeInjective | qkmjclient/protocol.c:51-92 | The bytes sent determine the sequence of messages |
| Framing.Exchange | qkmjclient/protocol.c:118-168 | The messages sent before a write fails are received as sent, in order, and nothing of the one cut off; every length the sender accepts the receiver accepts |
| Framing.CutFrameJoins | qkmjclient/protocol.c:60-88 | After a failed write the next message is received as sent if and only if nothing of the failed one was written |
| Lobby.OpenCounted | qkmjserver/mjgps.c:1032-1058 | Opening a table keeps every open table's count at its leader and those joined, at most four |
| Lobby.LeaveCounted | qkmjserver/mjgps.c:1166-1178 | So does leaving |
| Lobby.CloseCounted | qkmjserver/mjgps.c:710-726 | So does a closed connection, with players left behind that still name the slot |
| Lobby.JoinCountedExactly | qkmjserver/mjgps.c:995-1031 | Joining keeps the counts if and only if the player sits at no open table and does not join its own |
| Failures.SecondJoin | qkmjserver/mjgps.c:1019-1021 | A run from the start of the server after which a second join leaves the counts wrong |
| Lobby.RunCounted | qkmjserver/mjgps.c:981-1178 | Over any run of clients that join only when they may, the counts are right |
| Lobby.Gps.DetachPlayer | qkmjserver/mjgps.c:716-717 | A player is taken off the count of its table if that table is open, and no other entry changes |
| Lobby.Gps.HandleOpen | qkmjserver/mjgps.c:1045-1058 | The slot leads a table of one, it is taken off the count of the table it sat at, and everyone who joined the slot is sent away |
| Lobby.Gps.HandleLeave | qkmjserver/mjgps.c:1166-1178 | A leader's leave ends its table and sends everyone at it away; any other player's takes one off the count of its table; no other entry changes |
| Lobby.Gps.HandleClose | qkmjserver/mjgps.c:710-726 | The slot is cleared and its player taken off the count of its table; no other slot changes |
| Lobby.Gps.HandleJoin | qkmjserver/mjgps.c:995-1031 | With fewer than four at the first open table led by that name the player sits there, counted once, and leads none; a full table, no table or a refusal change nothing |
| Lobby.Gps.ListTable | qkmjserver/mjgps.c:167-200 | The tables listed are exactly the open ones, those with a free seat when asked for, each once and in order; the branch for a count above four is never taken |

## Left out

- Drawing, cursors, colours, key handling apart from the eat choice, chat, commands: they decide nothing about the game.
- Sockets, `select`, interrupted calls and the contents of JSON: frames are opaque bytes, messages are events, and a connection hands over any positive number of bytes or is closed, and takes any positive number or fails, which stands for a time-out as well. A time-out of the receiver is not modelled.
- Passwords, the database, logs, news, administration and duplicate logins: no invariant that holds of them is needed here.
- The AI player, which answers and throws within one turn of the loop; typing ahead at the host's keyboard can do the same. In the model a seat that is asked answers, and the loop turns, before it throws; for a pass the two orders lead to the same table.
- Latency between host and clients: a message is handled when it is sent, except that a player's request for a tile, a flower it has to show and its answers are separate events.
- Play with fewer than four seats: only `NextTurn` and what is proved of it allow empty seats.
- Draws past the end of the wall: flower and kang replacements are drawn without a look at the number of tiles left, and the model lets a tile be drawn only while there is one.
- A flower as the dealer's extra tile is handled by the deal alone, not once more by the client that is sent it. MSG_FLOWER is sent with a seat and a tile and read under other names; the model takes what the sender means.
- The owner's own record of a pong turned into a kang keeps three tiles where the host's has four (`Hands.Pool.AddOwnKang`, `Hands.Pool.ClaimAddedKang`); the round records four.
- Cheat mode and the message MSG_NEXT_REQUEST, which nobody sends.
- All tai except winds, dragons and the dealer's; tai 24 changes the buffer that later checks read.
- The capacities of the lists of components and combinations, for which sequences stand, and the heap nodes of the search tree with their links to the father: the tree is a value and the path to a node is passed down.
- The width of money and scores: unbounded integers.
- Host.Host: works on each seat's tiles as a multiset; the buffers behind it are those of `Hands.Pool`, tied to it in `PoolSeats`.
- HostChecks.ThrowCard: the host's record of the thrower's hand loses the tile thrown; for a seat other than the host's that is the condition of `PoolSeats.MirrorThrowAway`.
- HostChecks.TurnLoop: an answer that gives the turn to another seat leaves the buffers to the edits in `PoolSeats`; the buffer handed in is that of the seat a tile is sent to.
- RoundRuns.StepKeeps: for the host's copy of a hand it rests on the same condition; so do `RunKeeps` and what follows from it.
- RoundRuns.RunKeeps: starts from a table in a phase; of the rounds that open outside them, those of an unasked dealer are the subject of `NewRound.UnaskedRoundStalls`, and those after an exhausted wall are followed for one turn of the loop only. After an opening kang that lost tiles nothing is promised of the rest of the round.
- RoundRuns.RunConserves: as `RunKeeps`.
- RoundRuns.RunDiscardsFit: as `RunKeeps`.
- RoundEnds.RoundIsFinite: as `RunKeeps`.
- Framing.RecvFrame: a frame too long for the buffer may be returned cut off, as in the source; the contract promises the whole frame only within the limit.
- RoundOutcome.AlwaysAnEvent: does not say that players do act.
