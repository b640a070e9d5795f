/** The deck: an ordered, mutable sequence of cards that is shuffled in place
    and drawn from its end. */
module Decks {
  import opened Cards

  /** No card occurs twice in `s`. */
  ghost predicate Distinct(s: seq<Card>)
  {
    forall i, j :: 0 <= i < j < |s| ==> s[i] != s[j]
  }

  /** `s` with the elements at `i` and `j` exchanged. */
  function Swap(s: seq<Card>, i: nat, j: nat): (r: seq<Card>)
    requires i < |s| && j < |s|
    ensures |r| == |s| && r[i] == s[j] && r[j] == s[i]
    ensures forall k :: 0 <= k < |s| && k != i && k != j ==> r[k] == s[k]
    ensures multiset(r) == multiset(s)
  {
    s[i := s[j]][j := s[i]]
  }

  /** The cards that `n` successive draws take from the end of `d`, in the
      order they are drawn. */
  function TakeFromTop(d: seq<Card>, n: nat): (r: seq<Card>)
    requires n <= |d|
    ensures |r| == n
  {
    seq(n, k requires 0 <= k < n => d[|d| - 1 - k])
  }

  /** One more draw appends the card below the ones already taken. */
  lemma TakeFromTopStep(d: seq<Card>, n: nat)
    requires n < |d|
    ensures TakeFromTop(d, n + 1) == TakeFromTop(d, n) + [d[|d| - 1 - n]]
  {
    assert TakeFromTop(d, n + 1) == TakeFromTop(d, n) + [d[|d| - 1 - n]] by {
      var a, b := TakeFromTop(d, n + 1), TakeFromTop(d, n) + [d[|d| - 1 - n]];
      assert |a| == |b|;
      assert forall k :: 0 <= k < |a| ==> a[k] == b[k];
    }
  }

  /** Moving a card from the end of one sequence to the end of another
      keeps the combined multiset. */
  lemma MoveLast(a: seq<Card>, b: seq<Card>, c: Card)
    ensures multiset(a + [c]) + multiset(b) == multiset(a) + multiset(b + [c])
  {
  }

  /** The cards taken and the cards left behind together are exactly the
      cards of the deck before the draws. */
  lemma {:induction false} TakeFromTopPermutation(d: seq<Card>, n: nat)
    requires n <= |d|
    ensures multiset(TakeFromTop(d, n)) + multiset(d[..|d| - n]) == multiset(d)
    decreases n
  {
    if n > 0 {
      var card := d[|d| - n];
      TakeFromTopPermutation(d, n - 1);
      TakeFromTopStep(d, n - 1);
      var taken, rest := TakeFromTop(d, n - 1), d[..|d| - n];
      assert d[..|d| - (n - 1)] == rest + [card];
      calc {
        multiset(TakeFromTop(d, n)) + multiset(rest);
        multiset(taken + [card]) + multiset(rest);
        { MoveLast(taken, rest, card); }
        multiset(taken) + multiset(rest + [card]);
        multiset(taken) + multiset(d[..|d| - (n - 1)]);
      }
    } else {
      assert d[..|d|] == d;
    }
  }

  /** On a deck without duplicates, the drawn cards are pairwise different and
      none of them is still in the deck. */
  lemma TakeFromTopDistinct(d: seq<Card>, n: nat)
    requires n <= |d| && Distinct(d)
    ensures Distinct(TakeFromTop(d, n))
    ensures forall c :: c in TakeFromTop(d, n) ==> c !in d[..|d| - n]
  {
    var t := TakeFromTop(d, n);
    forall c | c in t ensures c !in d[..|d| - n] {
      var k :| 0 <= k < n && t[k] == c;
      assert d[|d| - 1 - k] == c;
    }
  }

  class Deck {
    var cards: seq<Card>

    /** Deck.create: wraps the given cards, last card on top. */
    constructor Create(cards: seq<Card>)
      ensures this.cards == cards
    {
      this.cards := cards;
    }

    /** Fisher-Yates: for i from the last index down to 1, exchange the card
        at i with the card at some index j in [0, i]. The random index is an
        arbitrary choice in that range. */
    method Shuffle()
      modifies this
      ensures |cards| == old(|cards|)
      ensures multiset(cards) == old(multiset(cards))
      ensures old(|cards|) <= 1 ==> cards == old(cards)
    {
      var i := |cards| - 1;
      while i > 0
        invariant i < |cards| == old(|cards|)
        invariant multiset(cards) == old(multiset(cards))
        invariant old(|cards|) <= 1 ==> cards == old(cards)
      {
        var j :| 0 <= j <= i;
        cards := Swap(cards, i, j);
        i := i - 1;
      }
    }

    /** Removes and returns the last card; fails with "Deck is empty" when
        there is none. */
    method Draw() returns (r: Result<Card>)
      modifies this
      ensures old(cards) == [] ==> r == Failure(DeckIsEmpty) && cards == []
      ensures old(cards) != [] ==>
        r == Success(old(cards)[|old(cards)| - 1]) && cards == old(cards)[..|old(cards)| - 1]
    {
      if cards == [] {
        return Failure(DeckIsEmpty);
      }
      var card := cards[|cards| - 1];
      cards := cards[..|cards| - 1];
      return Success(card);
    }
  }
}
