/** A player: a name, a running score, a hand, and the flag recording whether
    the player's last win was with a straight flush. */
module Players {
  import opened Cards
  import opened Decks
  import opened Hands

  class Player {
    const name: string
    var score: nat
    var previousMatchStraightFlush: bool
    const hand: Hand

    /** Player.create: the given name, score 0, an empty hand, no streak. */
    constructor Create(name: string)
      ensures this.name == name && score == 0 && !previousMatchStraightFlush
      ensures fresh(hand) && hand.cards == []
    {
      this.name := name;
      score := 0;
      previousMatchStraightFlush := false;
      hand := new Hand.Create([]);
    }

    /** Draws `cardsAmount` cards from the deck and appends each to the hand
        as it is drawn; the existing hand is kept as a prefix. When the deck
        runs out, the cards drawn so far stay in the hand, the deck is left
        empty and the deal fails. */
    method DealHand(deck: Deck, cardsAmount: nat) returns (o: Outcome)
      modifies hand, deck
      ensures var d := old(deck.cards);
        var m := if cardsAmount <= |d| then cardsAmount else |d|;
        hand.cards == old(hand.cards) + TakeFromTop(d, m) && deck.cards == d[..|d| - m]
      ensures o == if cardsAmount <= old(|deck.cards|) then Pass else Fail(DeckIsEmpty)
    {
      ghost var d := deck.cards;
      ghost var h := hand.cards;
      for i := 0 to cardsAmount
        invariant i <= |d|
        invariant hand.cards == h + TakeFromTop(d, i)
        invariant deck.cards == d[..|d| - i]
      {
        var card := deck.Draw();
        if card.Failure? {
          return Fail(card.error);
        }
        TakeFromTopStep(d, i);
        hand.Add(card.value);
      }
      return Pass;
    }

    function GetHand(): Hand
    {
      hand
    }

    function GetScore(): nat
      reads this
    {
      score
    }

    function GetName(): string
    {
      name
    }

    /** The number of cards in the hand. */
    function CardsAmount(): nat
      reads hand
    {
      |hand.cards|
    }

    /** Classifies the hand through Hand.evaluate, which sorts it in place. */
    method EvaluateHand() returns (c: Combination)
      modifies hand
      ensures SortedByRank(hand.cards) && multiset(hand.cards) == old(multiset(hand.cards))
      ensures c == Classify(hand.cards)
    {
      c := hand.Evaluate();
    }

    method IncreaseScore()
      modifies this
      ensures score == old(score) + 1
      ensures previousMatchStraightFlush == old(previousMatchStraightFlush)
    {
      score := score + 1;
    }

    method DoublePoints()
      modifies this
      ensures score == 2 * old(score)
      ensures previousMatchStraightFlush == old(previousMatchStraightFlush)
    {
      score := 2 * score;
    }

    function GetPreviousMatchStraightFlush(): bool
      reads this
    {
      previousMatchStraightFlush
    }

    method SetPreviousMatchStraightFlush(value: bool)
      modifies this
      ensures previousMatchStraightFlush == value && score == old(score)
    {
      previousMatchStraightFlush := value;
    }
  }
}
