/** Properties of a round of play: what the priority table orders, what the
    winner loop guarantees about the winner, how the score and the streak
    flag evolve, and the shape of the deck a match starts from. */
module PokerProperties {
  import opened Cards
  import opened Decks
  import opened Hands
  import opened PokerGame
  import HandProperties

  /** COMBINATION_PRIORITY is injective: equal priorities mean equal
      combinations, which is why the tie test compares combinations. */
  lemma PriorityInjective(a: Combination, b: Combination)
    ensures Priority(a) == Priority(b) <==> a == b
  {
  }

  /** Precedence of evaluate: the reported combination is the one whose
      pattern holds and whose priority is above every other pattern that
      holds. In particular a flush that is also a straight is reported as
      neither FLUSH nor STRAIGHT. */
  lemma ClassifyIsHighestHolding(s: seq<Card>, c: Combination)
    ensures Classify(s) == c <==>
      Holds(s, c) && forall c' :: Priority(c') > Priority(c) ==> !Holds(s, c')
  {
    if Classify(s) == c {
      forall c' | Priority(c') > Priority(c) ensures !Holds(s, c') {
        match c'
        case StraightFlush =>
        case FourOfAKind =>
        case FullHouse =>
        case Flush =>
        case Straight =>
        case ThreeOfAKind =>
        case TwoPair =>
        case Pair =>
        case HighCard =>
      }
    } else if Holds(s, c) {
      var d := Classify(s);
      assert Holds(s, d);
      assert Priority(d) > Priority(c) by {
        if Priority(d) < Priority(c) {
          match c
          case StraightFlush =>
          case FourOfAKind =>
          case FullHouse =>
          case Flush =>
          case Straight =>
          case ThreeOfAKind =>
          case TwoPair =>
          case Pair =>
          case HighCard =>
        }
        PriorityInjective(c, d);
      }
    }
  }

  /** After the loop has seen the first `k` players, the leader's priority is
      at least that of each of them. */
  lemma {:induction false} LeaderHasTopPriority(st: seq<Standing>, k: nat)
    requires 0 < k <= |st|
    ensures forall i :: 0 <= i < k ==>
      Priority(st[i].combination) <= Priority(st[LeaderAmong(st, k)].combination)
  {
    if k > 1 {
      LeaderHasTopPriority(st, k - 1);
    }
  }

  /** Whether, among the first `k` players, every one with the combination
      of player `w` and a non-empty hand has a last card no higher than the
      last card of `w`. */
  ghost predicate HighestCardAmong(st: seq<Standing>, k: nat, w: nat)
    requires k <= |st| && w < |st|
  {
    forall i :: (0 <= i < k && st[i].combination == st[w].combination
      && st[i].cards != [] && st[w].cards != []) ==>
      TopRank(st[i].cards) <= TopRank(st[w].cards)
  }

  /** One step of the winner loop keeps the highest card with the leader. */
  lemma TopCardStep(st: seq<Standing>, k: nat, w: nat)
    requires 1 < k <= |st| && w < k - 1
    requires forall i :: 0 <= i < k - 1 ==> Priority(st[i].combination) <= Priority(st[w].combination)
    requires HighestCardAmong(st, k - 1, w)
    ensures HighestCardAmong(st, k, if Overtakes(st[k - 1], st[w]) then k - 1 else w)
  {
    if Priority(st[k - 1].combination) > Priority(st[w].combination) {
      forall i | 0 <= i < k - 1 ensures st[i].combination != st[k - 1].combination {
        assert Priority(st[i].combination) <= Priority(st[w].combination);
      }
    }
  }

  /** Among the first `k` players, those with the leader's combination and a
      non-empty hand have a last card no higher than the leader's. */
  lemma {:induction false} LeaderHasTopCard(st: seq<Standing>, k: nat)
    requires 0 < k <= |st|
    ensures HighestCardAmong(st, k, LeaderAmong(st, k))
  {
    if k > 1 {
      LeaderHasTopCard(st, k - 1);
      LeaderHasTopPriority(st, k - 1);
      TopCardStep(st, k, LeaderAmong(st, k - 1));
    }
  }

  /** Whether no player before `w` ties it fully: same combination, both
      hands non-empty and the same last rank. */
  ghost predicate NoEarlierTie(st: seq<Standing>, w: nat)
    requires w < |st|
  {
    forall i :: 0 <= i < w ==>
      !(st[i].combination == st[w].combination
        && st[i].cards != [] && st[w].cards != []
        && TopRank(st[i].cards) == TopRank(st[w].cards))
  }

  /** A player who takes the lead beats every earlier player strictly, so
      none of them ties the new leader. */
  lemma TieStep(st: seq<Standing>, k: nat, w: nat)
    requires 1 < k <= |st| && w < k - 1
    requires forall i :: 0 <= i < k - 1 ==> Priority(st[i].combination) <= Priority(st[w].combination)
    requires HighestCardAmong(st, k - 1, w) && NoEarlierTie(st, w)
    ensures NoEarlierTie(st, if Overtakes(st[k - 1], st[w]) then k - 1 else w)
  {
    if Overtakes(st[k - 1], st[w]) {
      forall i | 0 <= i < k - 1 && st[i].combination == st[k - 1].combination
        ensures Priority(st[k - 1].combination) == Priority(st[w].combination)
      {
        assert Priority(st[i].combination) <= Priority(st[w].combination);
      }
    }
  }

  /** Only strict improvements replace the leader, so no player before the
      leader ties it fully. */
  lemma {:induction false} LeaderIsEarliestOfItsTie(st: seq<Standing>, k: nat)
    requires 0 < k <= |st|
    ensures NoEarlierTie(st, LeaderAmong(st, k))
  {
    if k > 1 {
      LeaderIsEarliestOfItsTie(st, k - 1);
      LeaderHasTopPriority(st, k - 1);
      LeaderHasTopCard(st, k - 1);
      TieStep(st, k, LeaderAmong(st, k - 1));
    }
  }

  /** The round's winner: its priority is the highest, among the players
      with its combination and a card it holds the highest last card, and no
      earlier player ties it fully. */
  lemma WinnerIsBest(st: seq<Standing>)
    requires st != []
    ensures var w := Winner(st);
      (forall i :: 0 <= i < |st| ==> Priority(st[i].combination) <= Priority(st[w].combination))
      && (forall i :: (0 <= i < |st| && st[i].combination == st[w].combination
            && st[i].cards != [] && st[w].cards != []) ==>
            TopRank(st[i].cards) <= TopRank(st[w].cards))
      && (forall i :: 0 <= i < w ==>
            !(st[i].combination == st[w].combination
              && st[i].cards != [] && st[w].cards != []
              && TopRank(st[i].cards) == TopRank(st[w].cards)))
  {
    LeaderHasTopPriority(st, |st|);
    LeaderHasTopCard(st, |st|);
    LeaderIsEarliestOfItsTie(st, |st|);
    assert HighestCardAmong(st, |st|, Winner(st));
    assert NoEarlierTie(st, Winner(st));
  }

  /** On a sorted hand the last card has the highest rank, so the tie-break
      compares the players' highest cards. */
  lemma TopRankIsHighest(cards: seq<Card>)
    requires cards != [] && SortedByRank(cards)
    ensures forall i :: 0 <= i < |cards| ==> Rk(cards[i]) <= TopRank(cards)
  {
  }

  /** When every hand is sorted, as evaluate leaves it, no player with the
      winner's combination holds any card ranked above the winner's highest
      card. */
  lemma WinnerHoldsHighestCard(st: seq<Standing>)
    requires st != [] && forall i :: 0 <= i < |st| ==> SortedByRank(st[i].cards)
    ensures var w := Winner(st);
      forall i, k :: (0 <= i < |st| && st[i].combination == st[w].combination
        && st[w].cards != [] && 0 <= k < |st[i].cards|) ==>
        Rk(st[i].cards[k]) <= TopRank(st[w].cards)
  {
    WinnerIsBest(st);
    forall i | 0 <= i < |st| && st[i].cards != [] {
      TopRankIsHighest(st[i].cards);
    }
  }

  /** Scoring always gains at least one point and never loses any; the
      doubling happens only on a second straight flush in a row, and the flag
      then records whether this win was a straight flush. */
  lemma RewardedShape(score: nat, previousStraightFlush: bool, combination: Combination)
    ensures var (s, f) := Rewarded(score, previousStraightFlush, combination);
      s > score
      && (f <==> combination == StraightFlush)
      && (s == 2 * (score + 1) <==> previousStraightFlush && combination == StraightFlush)
      && (s != 2 * (score + 1) ==> s == score + 1)
  {
  }

  /** Score and flag of a fresh player (score 0, no streak) after `n`
      straight-flush wins in a row, each scored by the scoring rule. */
  function Streak(n: nat): (nat, bool)
  {
    if n == 0 then (0, false) else Rewarded(Streak(n - 1).0, Streak(n - 1).1, StraightFlush)
  }

  function Pow2(n: nat): (p: nat)
    ensures p >= 1
  {
    if n == 0 then 1 else 2 * Pow2(n - 1)
  }

  /** A streak of `n >= 1` straight-flush wins gives 3 * 2^(n-1) - 2 points:
      1, 4, 10, 22, ...; the flag stays set throughout. */
  lemma {:induction false} StreakScoreClosedForm(n: nat)
    requires n >= 1
    ensures Streak(n) == (3 * Pow2(n - 1) - 2, true)
  {
    if n > 1 {
      StreakScoreClosedForm(n - 1);
    }
  }

  /** The hands of the straight-flush test, as dealt: a pair of kings, a
      straight flush from seven to jack in diamonds, a pair of fives, and the
      same straight flush in clubs. */
  predicate IsKingsPair(h: seq<Card>)
  {
    |h| == 5 && h[0] == Card(Clubs, King) && h[1] == Card(Hearts, Jack) && h[2] == Card(Spades, Two)
    && h[3] == Card(Spades, Three) && h[4] == Card(Diamonds, King)
  }

  predicate IsFivePair(h: seq<Card>)
  {
    |h| == 5 && h[0] == Card(Spades, Queen) && h[1] == Card(Hearts, Five) && h[2] == Card(Spades, Nine)
    && h[3] == Card(Spades, Five) && h[4] == Card(Diamonds, Ten)
  }

  predicate IsSevenToJack(h: seq<Card>, suit: Suit)
  {
    |h| == 5 && h[0] == Card(suit, Seven) && h[1] == Card(suit, Eight) && h[2] == Card(suit, Nine)
    && h[3] == Card(suit, Ten) && h[4] == Card(suit, Jack)
  }

  /** Two different cards of one rank in a hand rule out a straight flush,
      whichever order evaluate sorts them into. */
  lemma SharedRankIsNoStraightFlush(h: seq<Card>, a: seq<Card>, x: Card, y: Card)
    requires multiset(a) == multiset(h) && x in h && y in h && x != y && x.rank == y.rank
    ensures Classify(a) != StraightFlush && Classify(a) != Straight
  {
    assert x in multiset(a) && y in multiset(a);
    HandProperties.CountAtLeastTwo(a, x, y);
    HandProperties.HeldTwiceIsNoStraight(a, x.rank);
  }

  /** Seven to jack of one suit, in that order, is sorted, of one suit and
      consecutive. */
  lemma SevenToJackShape(h: seq<Card>, suit: Suit)
    requires IsSevenToJack(h, suit)
    ensures SortedByRank(h) && HasFlush(h) && Consecutive(h)
  {
  }

  /** Evaluate reports a straight flush for seven to jack of one suit,
      whichever order the cards were dealt in. */
  lemma RunIsStraightFlush(h: seq<Card>, suit: Suit, a: seq<Card>)
    requires IsSevenToJack(h, suit) && SortedByRank(a) && multiset(a) == multiset(h)
    ensures Classify(a) == StraightFlush
  {
    SevenToJackShape(h, suit);
    HandProperties.SameCardsSameShape(a, h);
  }

  /** The first round of the straight-flush test: against the pair of kings
      the diamond straight flush wins, and its holder, with no earlier
      straight-flush win, goes from 0 to 1 point with the flag set. */
  lemma StraightFlushTestFirstRound(h1: seq<Card>, h2: seq<Card>, a1: seq<Card>, b1: seq<Card>)
    requires IsKingsPair(h1) && IsSevenToJack(h2, Diamonds)
    requires SortedByRank(a1) && multiset(a1) == multiset(h1)
    requires SortedByRank(b1) && multiset(b1) == multiset(h2)
    ensures var first := [Standing(Classify(a1), a1), Standing(Classify(b1), b1)];
      Winner(first) == 1 && Rewarded(0, false, first[1].combination) == (1, true)
  {
    SharedRankIsNoStraightFlush(h1, a1, h1[0], h1[4]);
    RunIsStraightFlush(h2, Diamonds, b1);
  }

  /** The second round of the straight-flush test: against the pair of fives
      the clubs straight flush wins again, and the same player, holding 1
      point and the flag, goes to (1 + 1) * 2 = 4 points. */
  lemma StraightFlushTestSecondRound(h3: seq<Card>, h4: seq<Card>, a2: seq<Card>, b2: seq<Card>)
    requires IsFivePair(h3) && IsSevenToJack(h4, Clubs)
    requires SortedByRank(a2) && multiset(a2) == multiset(h3)
    requires SortedByRank(b2) && multiset(b2) == multiset(h4)
    ensures var second := [Standing(Classify(a2), a2), Standing(Classify(b2), b2)];
      Winner(second) == 1 && Rewarded(1, true, second[1].combination) == (4, true)
  {
    SharedRankIsNoStraightFlush(h3, a2, h3[1], h3[3]);
    RunIsStraightFlush(h4, Clubs, b2);
  }

  /** Counting over two hands put together adds up the counts. */
  lemma {:induction false} CountConcat(a: seq<Card>, b: seq<Card>, r: Rank)
    ensures Count(a + b, r) == Count(a, r) + Count(b, r)
  {
    if a != [] {
      assert (a + b)[1..] == a[1..] + b;
      CountConcat(a[1..], b, r);
    } else {
      assert a + b == b;
    }
  }

  /** The count of a rank in five cards, card by card. */
  lemma CountFive(h: seq<Card>, r: Rank)
    requires |h| == 5
    ensures Count(h, r) == (if h[0].rank == r then 1 else 0) + (if h[1].rank == r then 1 else 0)
      + (if h[2].rank == r then 1 else 0) + (if h[3].rank == r then 1 else 0)
      + (if h[4].rank == r then 1 else 0)
  {
    assert h[0..] == h && h[5..] == [];
    CountStep(h, 0, r);
    CountStep(h, 1, r);
    CountStep(h, 2, r);
    CountStep(h, 3, r);
    CountStep(h, 4, r);
  }

  /** Counting from card `k` on is counting card `k`, then the rest. */
  lemma CountStep(s: seq<Card>, k: nat, r: Rank)
    requires k < |s|
    ensures Count(s[k..], r) == (if s[k].rank == r then 1 else 0) + Count(s[k + 1..], r)
  {
    assert s[k..][1..] == s[k + 1..];
  }

  /** The count of a rank in a hand holding the cards of two five-card
      hands. */
  lemma CountOfTwoHands(p: seq<Card>, h: seq<Card>, g: seq<Card>)
    requires |h| == 5 && |g| == 5 && multiset(p) == multiset(h + g)
    ensures forall r :: Count(p, r) == Count(h, r) + Count(g, r)
  {
    HandProperties.CountPermutation(p, h + g);
    forall r ensures Count(p, r) == Count(h, r) + Count(g, r) {
      CountConcat(h, g, r);
    }
  }

  /** How often each rank occurs among kings and fives held together: kings
      and fives twice; two, three, nine, ten, jack and queen once. */
  function KingsAndFives(r: Rank): nat
  {
    match r
    case Five | King => 2
    case Two | Three | Nine | Ten | Jack | Queen => 1
    case _ => 0
  }

  /** How often each rank occurs among both runs held together: seven to
      jack twice. */
  function TwoRuns(r: Rank): nat
  {
    match r
    case Seven | Eight | Nine | Ten | Jack => 2
    case _ => 0
  }

  /** The counts of a hand holding the pair of kings and the pair of fives. */
  lemma KingsAndFivesCounts(p: seq<Card>, h: seq<Card>, g: seq<Card>)
    requires IsKingsPair(h) && IsFivePair(g) && multiset(p) == multiset(h + g)
    ensures forall r :: Count(p, r) == KingsAndFives(r)
  {
    CountOfTwoHands(p, h, g);
    forall r ensures Count(h, r) + Count(g, r) == KingsAndFives(r) {
      CountFive(h, r);
      CountFive(g, r);
    }
  }

  /** The counts of a hand holding both runs. */
  lemma TwoRunsCounts(p: seq<Card>, h: seq<Card>, g: seq<Card>)
    requires IsSevenToJack(h, Diamonds) && IsSevenToJack(g, Clubs) && multiset(p) == multiset(h + g)
    ensures forall r :: Count(p, r) == TwoRuns(r)
  {
    CountOfTwoHands(p, h, g);
    forall r ensures Count(h, r) + Count(g, r) == TwoRuns(r) {
      CountFive(h, r);
      CountFive(g, r);
    }
  }

  /** Kings and fives held together are two pairs: two ranks held twice, no
      rank more often, and two suits. */
  lemma KingsAndFivesIsTwoPair(p: seq<Card>, h: seq<Card>, g: seq<Card>)
    requires IsKingsPair(h) && IsFivePair(g) && multiset(p) == multiset(h + g)
    ensures Classify(p) == TwoPair
  {
    assert h[0] in multiset(h + g) && h[1] in multiset(h + g) && h[4] in multiset(h + g);
    HandProperties.FlushMeansOneSuit(p);
    HandProperties.CountAtLeastTwo(p, h[0], h[4]);
    HandProperties.HeldTwiceIsNoStraight(p, King);
    KingsAndFivesCounts(p, h, g);
    TwoPairTable(p);
  }

  /** A hand with neither flush nor straight holding fives and kings twice
      and no rank more often is two pairs. */
  lemma TwoPairTable(p: seq<Card>)
    requires !HasFlush(p) && !Consecutive(p)
    requires forall r :: Count(p, r) == KingsAndFives(r)
    ensures Classify(p) == TwoPair
  {
    assert Count(p, King) == 2;
    forall i | 0 <= i < RankCount
      ensures i in RanksHeldTimes(p, 2) <==> i == 4 || i == 12
    {
      OrdinalBijective(i);
    }
    assert RanksHeldTimes(p, 2) == {4, 12};
  }

  /** Both runs held together are a pair: five ranks are held twice (too
      many for two pairs), in two suits, with no rank held more often. */
  lemma TwoRunsIsPair(p: seq<Card>, h: seq<Card>, g: seq<Card>)
    requires IsSevenToJack(h, Diamonds) && IsSevenToJack(g, Clubs) && multiset(p) == multiset(h + g)
    ensures Classify(p) == Pair
  {
    assert h[0] in multiset(h + g) && g[0] in multiset(h + g);
    HandProperties.FlushMeansOneSuit(p);
    HandProperties.CountAtLeastTwo(p, h[0], g[0]);
    HandProperties.HeldTwiceIsNoStraight(p, Seven);
    TwoRunsCounts(p, h, g);
    PairTable(p);
  }

  /** A hand with neither flush nor straight holding five ranks twice and
      no rank more often is a pair: too many pairs for two pairs. */
  lemma PairTable(p: seq<Card>)
    requires !HasFlush(p) && !Consecutive(p)
    requires forall r :: Count(p, r) == TwoRuns(r)
    ensures Classify(p) == Pair
  {
    assert Count(p, Seven) == 2;
    forall i | 0 <= i < RankCount
      ensures i in RanksHeldTimes(p, 2) <==> 6 <= i <= 10
    {
      OrdinalBijective(i);
    }
    assert RanksHeldTimes(p, 2) == {6, 7, 8, 9, 10};
  }

  /** The second round of the straight-flush test as the code plays it. Each
      hand keeps its first-round cards and receives five more, so player 1
      (`p1`) holds the pair of kings and the pair of fives, and player 2
      (`p2`) both runs, each sorted by evaluate. Player 1's two pairs beat
      player 2's pair: player 1 wins and goes from 0 to 1 point, and player 2
      stays at 1 point instead of reaching 4. */
  lemma StraightFlushTestSecondRoundAsWritten(h1: seq<Card>, h2: seq<Card>, h3: seq<Card>, h4: seq<Card>, p1: seq<Card>, p2: seq<Card>)
    requires IsKingsPair(h1) && IsSevenToJack(h2, Diamonds)
    requires IsFivePair(h3) && IsSevenToJack(h4, Clubs)
    requires SortedByRank(p1) && multiset(p1) == multiset(h1 + h3)
    requires SortedByRank(p2) && multiset(p2) == multiset(h2 + h4)
    ensures var second := [Standing(Classify(p1), p1), Standing(Classify(p2), p2)];
      second[0].combination == TwoPair && second[1].combination == Pair
      && Winner(second) == 0 && Rewarded(0, false, second[0].combination) == (1, false)
  {
    KingsAndFivesIsTwoPair(p1, h1, h3);
    TwoRunsIsPair(p2, h2, h4);
  }

  /** The position of card `c` in the deck create builds. */
  function DeckPosition(c: Card): (k: nat)
    ensures k < |Suits| * RankCount
  {
    RankCount * SuitIndex(c.suit) + Ordinal(c.rank)
  }

  lemma SuitIndexOfSuits(k: nat)
    requires k < |Suits|
    ensures SuitIndex(Suits[k]) == k
  {
  }

  /** The deck create builds holds 4 x 13 = 52 cards, has every suit-rank
      pair at its suit-major position, and holds no card twice. */
  lemma FullDeckHoldsEveryCardOnce()
    ensures |FullDeck()| == 52
    ensures forall c: Card :: FullDeck()[DeckPosition(c)] == c
    ensures Distinct(FullDeck())
  {
    var d := FullDeck();
    forall c: Card ensures d[DeckPosition(c)] == c {
      var k := DeckPosition(c);
      assert k / RankCount == SuitIndex(c.suit) && k % RankCount == Ordinal(c.rank);
    }
    forall i, j | 0 <= i < j < |d| ensures d[i] != d[j] {
      SuitIndexOfSuits(i / RankCount);
      SuitIndexOfSuits(j / RankCount);
      OrdinalBijective(i % RankCount);
      OrdinalBijective(j % RankCount);
    }
  }
}
