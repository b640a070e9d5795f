# Poker engine model

A Dafny model of the five-card poker engine in `2-poker/`. It covers:

- the deck: built suit by suit, shuffled by Fisher-Yates swaps, drawn from its end;
- the card dealer and the player, who draw cards one at a time;
- the hand, which sorts itself by rank and classifies its cards into one of nine combinations;
- the match, which plays rounds: it shuffles, deals to every player, evaluates every hand, picks the winner and updates the winner's score and straight-flush streak flag.

There is one module per source file:

| module | file | form |
|---|---|---|
| `Cards` (cards.dfy) | Card.ts, HandCombination.ts, and the rank and suit enumerations | datatypes |
| `Decks` (deck.dfy) | Deck.ts | class `Deck` with a `seq<Card>` field |
| `CardDealer` (card_dealer.dfy) | CardDealer.ts | method with a loop |
| `Hands` (hand.dfy) | Hand.ts | class `Hand`, with specification functions for the pure predicates |
| `Players` (player.dfy) | Player.ts | class `Player` |
| `PokerGame` (poker.dfy) | Poker.ts | class `Poker`, with specification functions for the winner loop and the scoring |

Two further modules hold the properties:

- `HandProperties` (hand_properties.dfy): what each reported combination means, and that the classification does not depend on the order of the cards.
- `PokerProperties` (poker_properties.dfy): the priority table, what the winner loop guarantees, how the streak score grows, the two rounds of the straight-flush test (both with the hands the test means and with the hands the code builds), and the shape of the starting deck.

Arrays the source mutates in place (the deck's cards, a hand's cards) are `seq` fields that the methods reassign. Fields the source never reassigns are `const`. Throwing is modelled as an error result:

- `Draw` on an empty deck fails with `DeckIsEmpty`.
- `Play` with no players fails with `NoPlayers`. The source hits a `TypeError` there when it reads `playerCombinations[0].player`.

Whatever the source has changed before the throw stays changed in the model too. For example, when the deck runs out mid-deal, the cards drawn so far stay in the hands.

Where the code and its surrounding description differ, the model follows the code:

- The deck is never refilled: each round reshuffles what is left (`Poker.ts:31`).
- `dealHand` appends to the hand and never clears it (`Player.ts:18`).
- An empty or one-card hand is vacuously a flush and a straight, so it is reported as STRAIGHT_FLUSH.
- `Player.ts` declares its hand as `Card[]`, but `Poker.ts:65` calls `getCards()` on it. The modelled player therefore holds a `Hand`.
- `Player.ts` lacks members that `Poker.ts` calls. The model adds them: `evaluateHand` (`Poker.ts:44`) and `increaseScore`, `doublePoints`, `getPreviousMatchStraightFlush` and `setPreviousMatchStraightFlush` (`Poker.ts:81-88`). The score and the flag are fields. The test's `cardsAmount()` is `Player.CardsAmount`.
- Rank.ts and Suit.ts are not part of this model:
  - The rank order, ACE lowest to KING highest, is taken from the table at `Hand.ts:113-127`.
  - The suit order CLUBS, DIAMONDS, HEARTS, SPADES is taken for `Object.values(Suit)`, as the test lists the suits.

## Model

| member | source | states |
|---|---|---|
| Cards.Ordinal | 2-poker/Hand.ts:113-127 | each rank's index in declaration order is below 13, and the rank table holds the rank at that index (ACE lowest, KING highest) |
| Cards.SuitIndex | 2-poker/Poker.ts:18 | each suit's index is below 4, and the suit table holds the suit at that index |
| Cards.OrdinalBijective | 2-poker/Hand.ts:26-27 | looking up a rank's index (`indexOf`) inverts the rank table |
| Decks.Swap | 2-poker/Deck.ts:13 | the destructuring swap exchanges the two entries, keeps every other entry, the length and the multiset |
| Decks.TakeFromTop | 2-poker/Deck.ts:18 | n successive pops take exactly n cards |
| Decks.TakeFromTopStep | 2-poker/Deck.ts:18 | one more pop adds the next card from the end behind those already taken |
| Decks.TakeFromTopPermutation | 2-poker/Deck.ts:18 | the popped cards plus the cards left are exactly the cards before popping |
| Decks.TakeFromTopDistinct | 2-poker/Deck.ts:18 | on a deck without duplicates, successive pops never return the same card twice, and no popped card is still in the deck |
| Decks.Deck.Create | 2-poker/Deck.ts:4-8 | the deck holds exactly the given cards |
| Decks.Deck.Shuffle | 2-poker/Deck.ts:10-15 | for any choice of j in [0, i] at each step, the shuffled deck has the same length and the same multiset of cards; a deck of 0 or 1 cards is unchanged |
| Decks.Deck.Draw | 2-poker/Deck.ts:17-21 | a non-empty deck yields its last card and keeps all the others in order; an empty deck fails with "Deck is empty" |
| CardDealer.Deal | 2-poker/CardDealer.ts:5-14 | with at least n cards: returns the last n cards in draw order, and the deck keeps its first |deck|-n cards (n = 0 leaves it as it was), so the dealt cards plus the deck left are a permutation of the deck before; with fewer: fails with "Deck is empty" and the deck is left empty, because draw throws before the `if (card)` guard could skip anything |
| CardDealer.DealNeverRepeats | 2-poker/CardDealer.ts:7-13 | from a deck without duplicates, no two dealt cards are equal and no dealt card stays in the deck |
| Hands.InsertByRank | 2-poker/Hand.ts:25-29 | inserting a card into a list sorted by rank keeps it sorted, adds exactly that card, and leaves the first card to be either the new card or the old first card |
| Hands.SortByRank | 2-poker/Hand.ts:25-29 | the rank-comparator sort yields a permutation sorted ascending by rank ordinal |
| Hands.RankCounts | 2-poker/Hand.ts:113-127 | the rank-count table has one entry for each of the 13 ranks |
| Hands.HasStraight | 2-poker/Hand.ts:86-95 | the loop with an early return answers true exactly when each adjacent pair of ordinals rises by one |
| Hands.CountByRank | 2-poker/Hand.ts:112-134 | the table built by incrementing one entry per card holds, for each rank, the number of cards of that rank, and its entries sum to the number of cards |
| Hands.CountAppend | 2-poker/Hand.ts:129-131 | one more card adds one to its rank's count and nothing to the other ranks' counts |
| Hands.CountsAppend | 2-poker/Hand.ts:129-131 | one more card increments exactly the table entry of its rank |
| Hands.CountsSumToSize | 2-poker/Hand.ts:112-134 | the counts of the table add up to the number of cards |
| Hands.HasFlush | 2-poker/Hand.ts:82-84 | comparing every card's suit with the first card's holds exactly when any two cards share a suit |
| Hands.Consecutive | 2-poker/Hand.ts:86-95 | a hand of fewer than two cards passes; a passing hand has no two adjacent cards of the same rank |
| Hands.HasFourOfAKind | 2-poker/Hand.ts:70-73 | the table holds a 4 exactly when some rank is held four times |
| Hands.HasFullHouse | 2-poker/Hand.ts:75-80 | the table holds a 3 and a 2 exactly when some rank is held three times and some rank twice |
| Hands.HasThreeOfAKind | 2-poker/Hand.ts:97-100 | the table holds a 3 exactly when some rank is held three times |
| Hands.HasTwoPairs | 2-poker/Hand.ts:102-105 | the table holds the value 2 twice exactly when exactly two ranks are held twice |
| Hands.HasOnePair | 2-poker/Hand.ts:107-110 | the table holds a 2 exactly when some rank is held twice |
| Hands.TableHolds | 2-poker/Hand.ts:112-134 | a value appears in the rank table exactly when some rank is held that many times |
| Hands.RanksHeld | 2-poker/Hand.ts:102-105 | the number of table entries equal to v is the number of ranks held v times |
| Hands.OccurrencesAre | 2-poker/Hand.ts:104 | the number of entries of the table equal to v (what the filter's length counts) is the number of positions holding v |
| Hands.Classify | 2-poker/Hand.ts:31-63 | the reported combination's own test holds of the cards |
| Hands.Hand.Create | 2-poker/Hand.ts:6-10 | the hand holds exactly the given cards |
| Hands.Hand.Add | 2-poker/Hand.ts:12-14 | the card is appended and the earlier cards are kept |
| Hands.Hand.Evaluate | 2-poker/Hand.ts:24-64 | the cards are left sorted by rank and are a permutation of the cards before the call; the result is the first of the nine tests, from straight flush down to high card, that holds of the sorted cards |
| HandProperties.ConsecutiveClimbs | 2-poker/Hand.ts:86-95 | along a run that passes hasStraight, the ordinal at position j is the ordinal at position i plus j-i |
| HandProperties.RepeatedRankIsNoStraight | 2-poker/Hand.ts:86-95 | two positions with the same rank make hasStraight false, so evaluate reports neither STRAIGHT nor STRAIGHT_FLUSH |
| HandProperties.StraightFlushExactly | 2-poker/Hand.ts:66-95 | evaluate reports STRAIGHT_FLUSH if and only if every card has the first card's suit and every adjacent pair of ordinals rises by one |
| HandProperties.ShortHandIsStraightFlush | 2-poker/Hand.ts:82-95 | an empty or one-card hand is reported as STRAIGHT_FLUSH |
| HandProperties.TwoPairShape | 2-poker/Hand.ts:31-57 | TWO_PAIR is reported only when exactly two ranks are held twice, no rank is held three or four times, and the cards are neither a flush nor a straight |
| HandProperties.CountBySuit | 2-poker/Hand.ts:129-131 | a rank's count is the number of copies of the four cards of that rank |
| HandProperties.CountAtLeastTwo | 2-poker/Hand.ts:129-131 | two different cards of one rank make that rank's count at least 2 |
| HandProperties.CountPermutation | 2-poker/Hand.ts:129-131 | reordering the cards changes no rank count |
| HandProperties.CountPositive | 2-poker/Hand.ts:129-131 | a positive count means some card has that rank |
| HandProperties.CountZero | 2-poker/Hand.ts:129-131 | a rank no card has counts zero |
| HandProperties.StraightHoldsEachRankOnce | 2-poker/Hand.ts:86-95 | cards that pass hasStraight hold each rank at most once |
| HandProperties.HeldTwiceIsNoStraight | 2-poker/Hand.ts:86-95 | a rank counted twice makes hasStraight false, so evaluate reports neither STRAIGHT nor STRAIGHT_FLUSH |
| HandProperties.SortedRanksUnique | 2-poker/Hand.ts:25-29 | two sorted hands with the same count for every rank have the same length and the same rank at every position |
| HandProperties.FlushMeansOneSuit | 2-poker/Hand.ts:82-84 | hasFlush holds if and only if any two cards of the hand share a suit |
| HandProperties.FlushPermutation | 2-poker/Hand.ts:82-84 | reordering the cards does not change hasFlush |
| HandProperties.ConsecutiveByRanks | 2-poker/Hand.ts:86-95 | hasStraight depends only on the ranks, position by position |
| HandProperties.SameCardsSameShape | 2-poker/Hand.ts:66-110 | sorted hands holding the same cards have the same count table and the same flush and straight answers |
| HandProperties.ClassifyDependsOnlyOnCards | 2-poker/Hand.ts:24-64 | once sorted, hands holding the same multiset of cards, dealt in any order, are reported as the same combination |
| Players.Player.Create | 2-poker/Player.ts:7-13 | the player has the given name, score 0, an empty fresh hand and no straight-flush streak |
| Players.Player.DealHand | 2-poker/Player.ts:15-20 | the old hand is kept as a prefix and the drawn cards follow it in draw order. With at least n cards in the deck, exactly n are appended, the deck shrinks by n and the call passes. With fewer, the deck is emptied into the hand and the call fails with "Deck is empty". Name, score and flag are untouched |
| Players.Player.EvaluateHand | 2-poker/Poker.ts:44 | delegates to the hand: its cards end up sorted and are a permutation of the cards before, and the result is their classification |
| Players.Player.IncreaseScore | 2-poker/Poker.ts:81 | the score grows by one; the flag is kept |
| Players.Player.DoublePoints | 2-poker/Poker.ts:86 | the score doubles; the flag is kept |
| Players.Player.SetPreviousMatchStraightFlush | 2-poker/Poker.ts:88 | the flag takes the given value; the score is kept |
| PokerGame.Priority | 2-poker/Poker.ts:96-106 | priorities run from 0 to 8; STRAIGHT_FLUSH alone has 8 and HIGH_CARD alone has 0 |
| PokerGame.Overtakes | 2-poker/Poker.ts:60-74 | a player takes the lead only with a priority at least the leader's, and never from an identical standing |
| PokerGame.Rewarded | 2-poker/Poker.ts:78-88 | the winner always gains points: the new score is s+1 or 2(s+1) |
| PokerGame.LeaderAmong | 2-poker/Poker.ts:49-76 | after the loop has looked at the first k players, the leader is one of them |
| PokerGame.Winner | 2-poker/Poker.ts:49-76 | the winner is one of the players |
| PokerGame.FullDeck | 2-poker/Poker.ts:17-22 | the deck create builds has 4 x 13 cards |
| PokerGame.PooledAppend | 2-poker/Player.ts:18 | appending cards to one player's hand adds exactly those cards to the cards held by all players |
| PokerGame.PooledPermutation | 2-poker/Hand.ts:25 | sorting each hand in place leaves the cards held by all players unchanged |
| PokerGame.Poker.constructor | 2-poker/Poker.ts:10-14 | the match holds the given players, number of cards and deck |
| PokerGame.Poker.Create | 2-poker/Poker.ts:16-28 | the deck is fresh and holds the 52-card suit-major deck; there is one fresh player per name, in input order, each with that name, score 0, an empty hand of its own and no streak |
| PokerGame.Poker.BuildDeck | 2-poker/Poker.ts:17-22 | the nested loops push exactly the suit-major sequence of every suit-rank pair |
| PokerGame.Poker.Play | 2-poker/Poker.ts:30-90 | No card is lost or invented: the deck and the hands together hold the same cards. The round succeeds exactly when there is a player and the deck holds players x cardsAmount cards; otherwise it fails with "Deck is empty" or, with no players, at the read of the first combination. On success, each hand has grown by cardsAmount, kept its old cards and ends sorted. The deck has shrunk by players x cardsAmount. The result is the winner of the evaluated hands. Only the winner's score and flag change, by the scoring rule |
| PokerGame.Poker.ShuffleAndDeal | 2-poker/Poker.ts:31-36 | shuffling and then dealing loses no card, and passes exactly when the deck holds enough cards for every player; on a pass each hand has grown by cardsAmount and the deck has shrunk accordingly |
| PokerGame.Poker.Resolve | 2-poker/Poker.ts:43-89 | every hand ends sorted, as a permutation of its cards; with no players it fails; otherwise the winner is the winner of the standings and only its score and flag change, by the scoring rule |
| PokerGame.Poker.Award | 2-poker/Poker.ts:78-88 | the winner's score and flag follow the scoring rule; no hand, and no other player's score or flag, changes |
| PokerGame.Poker.DealHands | 2-poker/Poker.ts:34-36 | dealing to every player in turn loses no card; it passes exactly when the deck holds players x cardsAmount cards, and then each hand has grown by cardsAmount |
| PokerGame.Poker.DealTo | 2-poker/Poker.ts:35 | dealing to one player moves cards from the deck to that hand, losing none, and passes exactly when the deck holds cardsAmount cards |
| PokerGame.Poker.EvaluateHands | 2-poker/Poker.ts:39-46 | every hand ends sorted, as a permutation of the same size, and the collected standings are each player's classification and sorted cards, in player order; no score or flag changes |
| PokerGame.Poker.SelectWinner | 2-poker/Poker.ts:49-76 | the index loop with its leader and winning combination computes the winner of the standings |
| PokerProperties.PriorityInjective | 2-poker/Poker.ts:96-106 | two combinations have the same priority if and only if they are the same combination |
| PokerProperties.ClassifyIsHighestHolding | 2-poker/Hand.ts:31-63 | evaluate reports a combination if and only if its test holds and no test of a higher priority holds; so a flush that is also a straight is never reported as FLUSH or STRAIGHT |
| PokerProperties.LeaderHasTopPriority | 2-poker/Poker.ts:53-62 | after k players, the leader's priority is at least each of theirs |
| PokerProperties.TopCardStep | 2-poker/Poker.ts:63-74 | one step of the loop keeps the highest last card, among the leader's combination, with the leader |
| PokerProperties.LeaderHasTopCard | 2-poker/Poker.ts:63-74 | after k players, those with the leader's combination and a non-empty hand have a last card no higher than the leader's |
| PokerProperties.TieStep | 2-poker/Poker.ts:60-74 | a player who takes the lead strictly beats every earlier player, so no earlier player ties the new leader |
| PokerProperties.LeaderIsEarliestOfItsTie | 2-poker/Poker.ts:60-74 | no player before the leader has the same combination and the same last rank: on a full tie the earliest player keeps the win |
| PokerProperties.WinnerIsBest | 2-poker/Poker.ts:53-76 | the winner's priority is the highest; among players with its combination and non-empty hands its last card is the highest; and no earlier player ties it fully |
| PokerProperties.WinnerHoldsHighestCard | 2-poker/Poker.ts:63-74 | among players whose hands are sorted and who hold the winner's combination, no card ranks above the winner's highest card |
| PokerProperties.TopRankIsHighest | 2-poker/Poker.ts:68-69 | on a sorted hand the last card has the highest rank, so the tie-break compares highest cards |
| PokerProperties.RewardedShape | 2-poker/Poker.ts:78-88 | scoring always gains points; the score doubles, to 2(s+1), exactly when the previous win and this one are both straight flushes, and is s+1 otherwise; the flag becomes "this win was a straight flush" |
| PokerProperties.StreakScoreClosedForm | 2-poker/Poker.ts:81-88 | scoring n straight-flush wins in a row from a fresh player (score 0, flag unset), carrying the score and the flag from each win to the next, gives 3 x 2^(n-1) - 2 points with the flag set: 1, 4, 10, 22, ... |
| PokerProperties.SharedRankIsNoStraightFlush | 2-poker/Hand.ts:86-95 | a hand holding two different cards of one rank is, in any sorted order, neither STRAIGHT nor STRAIGHT_FLUSH |
| PokerProperties.SevenToJackShape | 2-poker/play-poker.spec.ts:24-37 | seven to jack of one suit is sorted, a flush and consecutive |
| PokerProperties.RunIsStraightFlush | 2-poker/play-poker.spec.ts:24-37 | seven to jack of one suit, dealt in any order, is reported as STRAIGHT_FLUSH once sorted |
| PokerProperties.StraightFlushTestFirstRound | 2-poker/play-poker.spec.ts:64-67 | with the pair of kings against the diamond straight flush, the second player wins and goes from 0 to 1 point with the flag set |
| PokerProperties.StraightFlushTestSecondRound | 2-poker/play-poker.spec.ts:69-72 | with hands replaced by the pair of fives and the clubs straight flush, the second player wins again and goes from 1 point to 4 (the test's intent; see Findings) |
| PokerProperties.CountConcat | 2-poker/Player.ts:18 | the count of a rank in two hands put together is the sum of their counts |
| PokerProperties.CountOfTwoHands | 2-poker/Player.ts:18 | a hand holding the cards of two five-card hands, in any order, counts each rank as the two hands together |
| PokerProperties.KingsAndFivesCounts | 2-poker/play-poker.spec.ts:69 | the round-one pair of kings plus the pair of fives holds kings and fives twice and no rank more often |
| PokerProperties.TwoRunsCounts | 2-poker/play-poker.spec.ts:69 | both seven-to-jack runs held together hold seven to jack twice and no other rank |
| PokerProperties.TwoPairTable | 2-poker/Hand.ts:31-63 | no flush, no straight, fives and kings twice and nothing more often is TWO_PAIR |
| PokerProperties.PairTable | 2-poker/Hand.ts:31-63 | no flush, no straight, five ranks twice and nothing more often is PAIR, not TWO_PAIR |
| PokerProperties.KingsAndFivesIsTwoPair | 2-poker/play-poker.spec.ts:69 | kings and fives held together, in any order, are TWO_PAIR |
| PokerProperties.TwoRunsIsPair | 2-poker/play-poker.spec.ts:69 | both runs held together, in any order, are PAIR |
| PokerProperties.StraightFlushTestSecondRoundAsWritten | 2-poker/play-poker.spec.ts:69-72 | with each round-two hand holding its round-one cards plus five new ones, the first player's two pairs beat the second player's pair: the first player wins, going from 0 to 1 point, and the second player stays at 1 |
| PokerProperties.DeckPosition | 2-poker/Poker.ts:17-22 | every card has a position below 52 in the suit-major deck |
| PokerProperties.FullDeckHoldsEveryCardOnce | 2-poker/Poker.ts:17-23 | the deck create builds holds 52 cards, has each suit-rank pair at its suit-major position, and holds no card twice |

## Findings

| source | as written | input that shows it | evidently intended | confidence | as-written member | corrected member |
|---|---|---|---|---|---|---|
| 2-poker/play-poker.spec.ts:69-72 | `dealHand` appends (`Player.ts:18`), so in round two each hand holds ten cards: its sorted round-one hand plus five new ones | the test's hands: the pair of kings and the diamond run in round one, then the pair of fives and the clubs run; player 1 holds kings and fives (TWO_PAIR) and player 2 both runs (PAIR, no flush, no straight), so player 1 wins and player 2 stays at 1 point | each round deals a fresh five-card hand, so player 2 wins with a straight flush and reaches 4 points | not executed | PokerProperties.StraightFlushTestSecondRoundAsWritten | PokerProperties.StraightFlushTestSecondRound |

## Left out

- `Math.random` and `Math.floor` in `shuffle`: the index j is an arbitrary choice in [0, i]. Uniformity of the shuffle is not modelled.
- `Array.prototype.sort`: modelled as an insertion sort by rank ordinal. Only "sorted and a permutation" is relied on. The order among equal ranks (sort stability) is not modelled.
- `cardsAmount`: a natural number. Negative or fractional JavaScript numbers are not modelled.
- PokerGame.Poker.SelectWinner: the source compares raw `Rank` values with `>` at `Poker.ts:70`. Rank.ts is not part of this model, so the comparison is modelled as a comparison of rank ordinals. If the enumeration holds strings, JavaScript would compare them alphabetically instead.
- PokerGame.Poker.BuildDeck: the 52-card deck and the ordinal comparison above cannot both hold for one Rank.ts. With a string enumeration `>` is alphabetical. With a numeric enumeration, `Object.values(Rank)` at `Poker.ts:19` also yields the 13 member names, so `create` would push 104 entries. The model takes 13 ranks compared by ordinal.
- PokerGame.Rewarded: the score is an unbounded natural number. JavaScript numbers are doubles, so by `StreakScoreClosedForm` scores stop being exact above 2^53, after about 52 straight-flush wins in a row. Rounding is not modelled.
- Rank.ts and Suit.ts are not part of this model. The orders used are stated above.
- The Jest mocking in `play-poker.spec.ts`: the test replaces `CardDealer.deal`, which `play` never calls. The straight-flush lemmas therefore state what a round does when the players hold the test's hands. They do not model the mocked call sequence.
- PokerProperties.StraightFlushTestSecondRound: its round-two hands are only the five new cards. Under the modelled `dealHand`, which appends, that state is not reachable; `StraightFlushTestSecondRoundAsWritten` states the reachable round (see Findings).
- The first test (two players, 5 cards each) is covered by the contract of `PokerGame.Poker.Play`: each hand grows by `cardsAmount` when the deck holds enough cards. There is no separate lemma.
- The getters `getHand`, `getScore`, `getName`, `getCards`, `getCardsAmount`, `getPreviousMatchStraightFlush`, the player's `cardsAmount` and `Poker.getPlayers` are plain field reads with no contract of their own. `Poker.getPlayers` is the `players` field itself.
- The `{ winner, players }` object that `play` returns: the winner is returned as an index into the players.
- In-place updates of JavaScript arrays are modelled as reassignment of `seq` fields. Aliasing of a hand's array through `getCards()` is not modelled.
- `1-roll-die/`: a separate die-rolling example, unrelated to the poker engine.
