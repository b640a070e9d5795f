/** Value types of the poker engine: suits, ranks, cards, hand combinations,
    and the errors the engine raises. */
module Cards {

  datatype Suit = Clubs | Diamonds | Hearts | Spades

  /** Ranks in declaration order: ACE is the lowest rank, KING the highest. */
  datatype Rank = Ace | Two | Three | Four | Five | Six | Seven | Eight | Nine | Ten | Jack | Queen | King

  datatype Card = Card(suit: Suit, rank: Rank)

  datatype Combination =
    | StraightFlush | FourOfAKind | FullHouse | Flush | Straight
    | ThreeOfAKind | TwoPair | Pair | HighCard

  /** The errors the engine throws: drawing from an empty deck, and reading
      the first player's combination when there are no players. */
  datatype Error = DeckIsEmpty | NoPlayers

  datatype Result<+T> = Success(value: T) | Failure(error: Error)

  datatype Outcome = Pass | Fail(error: Error)

  const RankCount := 13

  /** Every suit, in the order the 52-card deck is built. */
  const Suits: seq<Suit> := [Clubs, Diamonds, Hearts, Spades]

  /** Every rank, in declaration order; the index of a rank is its ordinal. */
  const Ranks: seq<Rank> := [Ace, Two, Three, Four, Five, Six, Seven, Eight, Nine, Ten, Jack, Queen, King]

  /** Position of a rank in the declaration order. */
  function Ordinal(r: Rank): (n: nat)
    ensures n < RankCount && Ranks[n] == r
  {
    match r
    case Ace => 0
    case Two => 1
    case Three => 2
    case Four => 3
    case Five => 4
    case Six => 5
    case Seven => 6
    case Eight => 7
    case Nine => 8
    case Ten => 9
    case Jack => 10
    case Queen => 11
    case King => 12
  }

  /** Position of a suit in the order the deck is built. */
  function SuitIndex(s: Suit): (n: nat)
    ensures n < |Suits| && Suits[n] == s
  {
    match s
    case Clubs => 0
    case Diamonds => 1
    case Hearts => 2
    case Spades => 3
  }

  /** The ordinal of a card's rank. */
  function Rk(c: Card): nat
  {
    Ordinal(c.rank)
  }

  /** The ordinal table is a bijection between ranks and 0..12. */
  lemma OrdinalBijective(i: nat)
    requires i < RankCount
    ensures Ordinal(Ranks[i]) == i
  {
  }
}
