/** CardDealer.deal: draws a number of cards from a deck into a new list. */
module CardDealer {
  import opened Cards
  import opened Decks

  /** Draws `cardsAmount` cards, one at a time, from the end of `deck`. With
      too few cards the draw that finds the deck empty fails; the cards drawn
      before it are lost with the local list and the deck is left empty. */
  method Deal(cardsAmount: nat, deck: Deck) returns (r: Result<seq<Card>>)
    modifies deck
    ensures var d := old(deck.cards);
      if cardsAmount <= |d| then
        r == Success(TakeFromTop(d, cardsAmount)) && deck.cards == d[..|d| - cardsAmount]
      else
        r == Failure(DeckIsEmpty) && deck.cards == []
    ensures r.Success? ==> multiset(r.value) + multiset(deck.cards) == multiset(old(deck.cards))
  {
    ghost var d := deck.cards;
    var cards := [];
    for i := 0 to cardsAmount
      invariant i <= |d|
      invariant cards == TakeFromTop(d, i)
      invariant deck.cards == d[..|d| - i]
    {
      var card := deck.Draw();
      if card.Failure? {
        return Failure(card.error);
      }
      TakeFromTopStep(d, i);
      cards := cards + [card.value];
    }
    TakeFromTopPermutation(d, cardsAmount);
    return Success(cards);
  }

  /** Dealing from a deck without duplicates never hands out the same card
      twice, and no dealt card stays in the deck. */
  lemma DealNeverRepeats(d: seq<Card>, cardsAmount: nat, i: nat, j: nat)
    requires cardsAmount <= |d| && Distinct(d)
    requires i < j < cardsAmount
    ensures TakeFromTop(d, cardsAmount)[i] != TakeFromTop(d, cardsAmount)[j]
    ensures TakeFromTop(d, cardsAmount)[i] !in d[..|d| - cardsAmount]
  {
    TakeFromTopDistinct(d, cardsAmount);
  }
}
