/** The match engine: builds the 52-card deck and the players, and plays
    rounds (shuffle, deal, evaluate, pick the winner, score). */
module PokerGame {
  import opened Cards
  import opened Decks
  import opened Hands
  import opened Players

  /** COMBINATION_PRIORITY: straight flush 8 down to high card 0. Only a
      straight flush has the top priority and only a high card the bottom. */
  function Priority(c: Combination): (p: nat)
    ensures p <= 8
    ensures p == 8 <==> c == StraightFlush
    ensures p == 0 <==> c == HighCard
  {
    match c
    case StraightFlush => 8
    case FourOfAKind => 7
    case FullHouse => 6
    case Flush => 5
    case Straight => 4
    case ThreeOfAKind => 3
    case TwoPair => 2
    case Pair => 1
    case HighCard => 0
  }

  /** What the winner loop looks at for one player: the combination evaluate
      reported, and the hand's cards as evaluate left them (sorted). */
  datatype Standing = Standing(combination: Combination, cards: seq<Card>)

  /** The ordinal of the last card, the highest after sorting. */
  function TopRank(cards: seq<Card>): nat
    requires cards != []
  {
    Rk(cards[|cards| - 1])
  }

  /** Whether `challenger` replaces `leader` as the current winner: a strictly
      higher priority, or the same combination and a strictly higher last
      card when both hands hold cards. A challenger never overtakes with a
      lower priority, and never overtakes an identical standing. */
  function Overtakes(challenger: Standing, leader: Standing): (b: bool)
    ensures b ==> Priority(challenger.combination) >= Priority(leader.combination)
    ensures challenger == leader ==> !b
  {
    Priority(challenger.combination) > Priority(leader.combination)
    || (challenger.combination == leader.combination
        && |leader.cards| > 0 && |challenger.cards| > 0
        && TopRank(challenger.cards) > TopRank(leader.cards))
  }

  /** The winner after the loop has looked at the first `k` players. */
  function LeaderAmong(standings: seq<Standing>, k: nat): (w: nat)
    requires 0 < k <= |standings|
    ensures w < k
  {
    if k == 1 then
      0
    else
      var w := LeaderAmong(standings, k - 1);
      if Overtakes(standings[k - 1], standings[w]) then k - 1 else w
  }

  /** The index of the round's winner. */
  function Winner(standings: seq<Standing>): (w: nat)
    requires standings != []
    ensures w < |standings|
  {
    LeaderAmong(standings, |standings|)
  }

  /** The winner's score and streak flag after a round won with
      `combination`: one more point, doubled when the previous win was also a
      straight flush; the flag then records whether this win was one. The
      score always grows, to s + 1 or 2(s + 1). */
  function Rewarded(score: nat, previousStraightFlush: bool, combination: Combination): (r: (nat, bool))
    ensures r.0 > score
    ensures r.0 == score + 1 || r.0 == 2 * (score + 1)
  {
    var isStraightFlush := combination == StraightFlush;
    var increased := score + 1;
    (if previousStraightFlush && isStraightFlush then 2 * increased else increased, isStraightFlush)
  }

  /** The deck create builds: for each suit in turn, every rank in order. */
  function FullDeck(): (d: seq<Card>)
    ensures |d| == |Suits| * RankCount
  {
    seq(|Suits| * RankCount, i requires 0 <= i < |Suits| * RankCount => Card(Suits[i / RankCount], Ranks[i % RankCount]))
  }

  /** All the cards of a sequence of hands. */
  function Pooled(hands: seq<seq<Card>>): multiset<Card>
  {
    if hands == [] then multiset{} else multiset(hands[0]) + Pooled(hands[1..])
  }

  /** Appending cards to one hand adds exactly those cards to the pool. */
  lemma {:induction false} PooledAppend(hands: seq<seq<Card>>, i: nat, t: seq<Card>)
    requires i < |hands|
    ensures Pooled(hands[i := hands[i] + t]) == Pooled(hands) + multiset(t)
  {
    var h' := hands[i := hands[i] + t];
    if i > 0 {
      assert h'[0] == hands[0];
      assert h'[1..] == hands[1..][i - 1 := hands[1..][i - 1] + t];
      PooledAppend(hands[1..], i - 1, t);
    } else {
      assert h'[1..] == hands[1..];
    }
  }

  /** Reordering cards within hands leaves the pool as it is. */
  lemma {:induction false} PooledPermutation(a: seq<seq<Card>>, b: seq<seq<Card>>)
    requires |a| == |b| && forall i :: 0 <= i < |a| ==> multiset(a[i]) == multiset(b[i])
    ensures Pooled(a) == Pooled(b)
  {
    if a != [] {
      PooledPermutation(a[1..], b[1..]);
    }
  }

  lemma {:induction false} ProductMonotone(a: nat, b: nat, n: nat)
    requires a <= b
    ensures a * n <= b * n
    decreases b - a
  {
    if a < b {
      ProductMonotone(a, b - 1, n);
      assert b * n == (b - 1) * n + n;
    }
  }

  class Poker {
    const players: seq<Player>
    const cardsAmount: nat
    const deck: Deck

    constructor (players: seq<Player>, cardsAmount: nat, deck: Deck)
      ensures this.players == players && this.cardsAmount == cardsAmount && this.deck == deck
    {
      this.players := players;
      this.cardsAmount := cardsAmount;
      this.deck := deck;
    }

    /** Players are distinct objects with hands of their own. */
    ghost predicate Valid()
    {
      forall i, j :: 0 <= i < |players| && 0 <= j < |players| && i != j ==>
        players[i] != players[j] && players[i].hand != players[j].hand
    }

    ghost function PlayerSet(): set<Player>
    {
      set i | 0 <= i < |players| :: players[i]
    }

    ghost function HandSet(): set<Hand>
    {
      set i | 0 <= i < |players| :: players[i].hand
    }

    /** The cards of every player's hand, in player order. */
    ghost function HandCards(): (h: seq<seq<Card>>)
      reads HandSet()
      ensures |h| == |players|
      ensures forall i :: 0 <= i < |players| ==> h[i] == players[i].hand.cards
    {
      seq(|players|, i requires 0 <= i < |players| reads HandSet() => players[i].hand.cards)
    }

    /** Every card of the match: the deck's and the hands'. */
    ghost function AllCards(): multiset<Card>
      reads deck, HandSet()
    {
      multiset(deck.cards) + Pooled(HandCards())
    }

    /** The standings the winner loop sees once every hand is evaluated. */
    ghost function Standings(): (st: seq<Standing>)
      reads HandSet()
      ensures |st| == |players|
    {
      seq(|players|, i requires 0 <= i < |players| reads HandSet() =>
        Standing(Classify(players[i].hand.cards), players[i].hand.cards))
    }

    /** Poker.create: the 52-card deck, and one fresh player per name. */
    static method Create(names: seq<string>, cardsAmount: nat) returns (poker: Poker)
      ensures poker.Valid() && poker.cardsAmount == cardsAmount
      ensures fresh(poker.deck) && poker.deck.cards == FullDeck()
      ensures |poker.players| == |names|
      ensures forall i :: 0 <= i < |names| ==>
        fresh(poker.players[i]) && fresh(poker.players[i].hand)
        && poker.players[i].name == names[i] && poker.players[i].score == 0
        && !poker.players[i].previousMatchStraightFlush && poker.players[i].hand.cards == []
    {
      var pokerDeck := BuildDeck();
      var deck := new Deck.Create(pokerDeck);
      var playersWithScore: seq<Player> := [];
      for i := 0 to |names|
        invariant |playersWithScore| == i
        invariant forall j :: 0 <= j < i ==>
          fresh(playersWithScore[j]) && fresh(playersWithScore[j].hand)
          && playersWithScore[j].name == names[j] && playersWithScore[j].score == 0
          && !playersWithScore[j].previousMatchStraightFlush && playersWithScore[j].hand.cards == []
        invariant forall j, k :: 0 <= j < i && 0 <= k < i && j != k ==>
          playersWithScore[j] != playersWithScore[k] && playersWithScore[j].hand != playersWithScore[k].hand
        invariant deck.cards == pokerDeck
      {
        var player := new Player.Create(names[i]);
        playersWithScore := playersWithScore + [player];
      }
      poker := new Poker(playersWithScore, cardsAmount, deck);
    }

    /** The nested loops of create: every suit, and within it every rank. */
    static method BuildDeck() returns (pokerDeck: seq<Card>)
      ensures pokerDeck == FullDeck()
    {
      pokerDeck := [];
      for s := 0 to |Suits|
        invariant pokerDeck == FullDeck()[..s * RankCount]
      {
        for r := 0 to RankCount
          invariant pokerDeck == FullDeck()[..s * RankCount + r]
        {
          pokerDeck := pokerDeck + [Card(Suits[s], Ranks[r])];
        }
      }
    }

    /** One round: shuffle, deal, evaluate, pick the winner and score it.
        The deck is not refilled, and dealing appends to each hand. */
    method Play() returns (r: Result<nat>)
      requires Valid()
      modifies deck, PlayerSet(), HandSet()
      ensures AllCards() == old(AllCards())
      ensures r.Success? <==> 0 < |players| && |players| * cardsAmount <= old(|deck.cards|)
      ensures r.Failure? ==> r.error == if |players| * cardsAmount <= old(|deck.cards|) then NoPlayers else DeckIsEmpty
      ensures r.Success? ==> |deck.cards| == old(|deck.cards|) - |players| * cardsAmount
      ensures r.Success? ==> forall i :: 0 <= i < |players| ==>
        |players[i].hand.cards| == old(|players[i].hand.cards|) + cardsAmount
        && multiset(old(players[i].hand.cards)) <= multiset(players[i].hand.cards)
        && SortedByRank(players[i].hand.cards)
      ensures r.Success? ==> r.value == Winner(Standings())
      ensures r.Success? ==>
        (players[r.value].score, players[r.value].previousMatchStraightFlush) ==
        Rewarded(old(players[r.value].score), old(players[r.value].previousMatchStraightFlush),
                 Standings()[r.value].combination)
      ensures forall i :: 0 <= i < |players| && (r.Failure? || i != r.value) ==>
        players[i].score == old(players[i].score)
        && players[i].previousMatchStraightFlush == old(players[i].previousMatchStraightFlush)
    {
      var dealt := ShuffleAndDeal();
      if dealt.Fail? {
        return Failure(dealt.error);
      }
      ghost var dealtCards := HandCards();
      r := Resolve();
      PooledPermutation(dealtCards, HandCards());
    }

    /** The first two steps of play: shuffle the deck, then deal. */
    method ShuffleAndDeal() returns (o: Outcome)
      requires Valid()
      modifies deck, HandSet()
      ensures AllCards() == old(AllCards())
      ensures o == if |players| * cardsAmount <= old(|deck.cards|) then Pass else Fail(DeckIsEmpty)
      ensures o.Pass? ==> |deck.cards| == old(|deck.cards|) - |players| * cardsAmount
      ensures o.Pass? ==> forall i :: 0 <= i < |players| ==>
        |players[i].hand.cards| == old(|players[i].hand.cards|) + cardsAmount
        && multiset(old(players[i].hand.cards)) <= multiset(players[i].hand.cards)
    {
      deck.Shuffle();
      assert AllCards() == old(AllCards());
      o := DealHands();
    }

    /** What play does once the cards are dealt: evaluate every hand, pick
        the winner (there must be a first player to start from) and score it. */
    method Resolve() returns (r: Result<nat>)
      requires Valid()
      modifies PlayerSet(), HandSet()
      ensures r.Success? <==> 0 < |players|
      ensures r.Failure? ==> r.error == NoPlayers
      ensures forall i :: 0 <= i < |players| ==>
        multiset(players[i].hand.cards) == old(multiset(players[i].hand.cards))
        && |players[i].hand.cards| == old(|players[i].hand.cards|)
        && SortedByRank(players[i].hand.cards)
      ensures r.Success? ==> r.value == Winner(Standings())
      ensures r.Success? ==>
        (players[r.value].score, players[r.value].previousMatchStraightFlush) ==
        Rewarded(old(players[r.value].score), old(players[r.value].previousMatchStraightFlush),
                 Standings()[r.value].combination)
      ensures forall i :: 0 <= i < |players| && (r.Failure? || i != r.value) ==>
        players[i].score == old(players[i].score)
        && players[i].previousMatchStraightFlush == old(players[i].previousMatchStraightFlush)
    {
      var standings := EvaluateHands();
      if |players| == 0 {
        return Failure(NoPlayers);
      }
      var winner := SelectWinner(standings);
      Award(winner, standings[winner].combination);
      return Success(winner);
    }

    /** The scoring step of play: one point, doubled on a second straight
        flush win in a row; then the flag records this win's combination. */
    method Award(winner: nat, combination: Combination)
      requires Valid() && winner < |players|
      modifies players[winner]
      ensures Standings() == old(Standings())
      ensures forall i :: 0 <= i < |players| ==> players[i].hand.cards == old(players[i].hand.cards)
      ensures (players[winner].score, players[winner].previousMatchStraightFlush) ==
        Rewarded(old(players[winner].score), old(players[winner].previousMatchStraightFlush), combination)
      ensures forall i :: 0 <= i < |players| && i != winner ==>
        players[i].score == old(players[i].score)
        && players[i].previousMatchStraightFlush == old(players[i].previousMatchStraightFlush)
    {
      var player := players[winner];
      var isStraightFlush := combination == StraightFlush;
      player.IncreaseScore();
      if player.GetPreviousMatchStraightFlush() && isStraightFlush {
        player.DoublePoints();
      }
      player.SetPreviousMatchStraightFlush(isStraightFlush);
    }

    /** The dealing step of play: each player in turn draws `cardsAmount`
        cards onto the hand. */
    method DealHands() returns (o: Outcome)
      requires Valid()
      modifies deck, HandSet()
      ensures AllCards() == old(AllCards())
      ensures o == if |players| * cardsAmount <= old(|deck.cards|) then Pass else Fail(DeckIsEmpty)
      ensures o.Pass? ==> |deck.cards| == old(|deck.cards|) - |players| * cardsAmount
      ensures o.Pass? ==> forall i :: 0 <= i < |players| ==>
        |players[i].hand.cards| == old(|players[i].hand.cards|) + cardsAmount
        && multiset(old(players[i].hand.cards)) <= multiset(players[i].hand.cards)
    {
      ghost var size := |deck.cards|;
      for i := 0 to |players|
        invariant AllCards() == old(AllCards())
        invariant i * cardsAmount <= size && |deck.cards| == size - i * cardsAmount
        invariant forall j :: 0 <= j < i ==>
          |players[j].hand.cards| == old(|players[j].hand.cards|) + cardsAmount
          && multiset(old(players[j].hand.cards)) <= multiset(players[j].hand.cards)
        invariant forall j :: i <= j < |players| ==> players[j].hand.cards == old(players[j].hand.cards)
      {
        var dealt := DealTo(i);
        assert (i + 1) * cardsAmount == i * cardsAmount + cardsAmount;
        if dealt.Fail? {
          ProductMonotone(i + 1, |players|, cardsAmount);
          return dealt;
        }
      }
      return Pass;
    }

    /** Deals to the player at `i`; every card stays either in the deck or in
        a hand. */
    method DealTo(i: nat) returns (o: Outcome)
      requires Valid() && i < |players|
      modifies deck, players[i].hand
      ensures AllCards() == old(AllCards())
      ensures o == if cardsAmount <= old(|deck.cards|) then Pass else Fail(DeckIsEmpty)
      ensures o.Pass? ==> |deck.cards| == old(|deck.cards|) - cardsAmount
      ensures |deck.cards| <= old(|deck.cards|)
      ensures |players[i].hand.cards| == old(|players[i].hand.cards|) + old(|deck.cards|) - |deck.cards|
      ensures multiset(old(players[i].hand.cards)) <= multiset(players[i].hand.cards)
    {
      ghost var hands := HandCards();
      ghost var d := deck.cards;
      o := players[i].DealHand(deck, cardsAmount);
      ghost var m := if cardsAmount <= |d| then cardsAmount else |d|;
      ghost var t := TakeFromTop(d, m);
      assert HandCards() == hands[i := hands[i] + t];
      PooledAppend(hands, i, t);
      TakeFromTopPermutation(d, m);
    }

    /** The evaluation step of play: each hand is sorted and classified. */
    method EvaluateHands() returns (standings: seq<Standing>)
      requires Valid()
      modifies HandSet()
      ensures standings == Standings()
      ensures forall i :: 0 <= i < |players| ==>
        standings[i] == Standing(Classify(players[i].hand.cards), players[i].hand.cards)
        && SortedByRank(players[i].hand.cards)
        && multiset(players[i].hand.cards) == old(multiset(players[i].hand.cards))
        && |players[i].hand.cards| == old(|players[i].hand.cards|)
      ensures forall i :: 0 <= i < |players| ==>
        players[i].score == old(players[i].score)
        && players[i].previousMatchStraightFlush == old(players[i].previousMatchStraightFlush)
    {
      standings := [];
      for i := 0 to |players|
        invariant |standings| == i
        invariant forall j :: 0 <= j < i ==>
          standings[j] == Standing(Classify(players[j].hand.cards), players[j].hand.cards)
          && SortedByRank(players[j].hand.cards)
          && multiset(players[j].hand.cards) == old(multiset(players[j].hand.cards))
          && |players[j].hand.cards| == old(|players[j].hand.cards|)
        invariant forall j :: i <= j < |players| ==> players[j].hand.cards == old(players[j].hand.cards)
      {
        assert forall j :: 0 <= j < |players| && j != i ==> players[j].hand != players[i].hand;
        var combination := players[i].EvaluateHand();
        standings := standings + [Standing(combination, players[i].hand.GetCards())];
      }
    }

    /** The winner loop of play: the first player leads, and a later player
        takes the lead only by overtaking the current leader. */
    static method SelectWinner(standings: seq<Standing>) returns (winner: nat)
      requires standings != []
      ensures winner < |standings| && winner == Winner(standings)
    {
      winner := 0;
      var winningCombination := standings[0].combination;
      for index := 1 to |standings|
        invariant winner == LeaderAmong(standings, index)
        invariant winningCombination == standings[winner].combination
      {
        var combination := standings[index].combination;
        if Priority(combination) > Priority(winningCombination) {
          winner := index;
          winningCombination := combination;
        } else if combination == winningCombination {
          var winnerCards := standings[winner].cards;
          var otherCards := standings[index].cards;
          if |winnerCards| > 0 && |otherCards| > 0 {
            if Rk(otherCards[|otherCards| - 1]) > Rk(winnerCards[|winnerCards| - 1]) {
              winner := index;
              winningCombination := combination;
            }
          }
        }
      }
    }
  }
}
