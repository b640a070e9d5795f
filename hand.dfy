/** A player's hand and its classification into one of the nine poker
    combinations. */
module Hands {
  import opened Cards

  /** Ascending by rank ordinal; the suit plays no part in the order. */
  ghost predicate SortedByRank(s: seq<Card>)
  {
    forall i, j :: 0 <= i < j < |s| ==> Rk(s[i]) <= Rk(s[j])
  }

  /** Inserts `c` into the sorted `s` before the first card of equal or
      higher rank. */
  function InsertByRank(c: Card, s: seq<Card>): (r: seq<Card>)
    requires SortedByRank(s)
    ensures SortedByRank(r)
    ensures multiset(r) == multiset(s) + multiset{c}
    ensures |r| == |s| + 1 && (r[0] == c || (s != [] && r[0] == s[0]))
  {
    if s == [] || Rk(c) <= Rk(s[0]) then
      [c] + s
    else
      var rest := InsertByRank(c, s[1..]);
      assert s == [s[0]] + s[1..];
      assert Rk(s[0]) <= Rk(rest[0]);
      [s[0]] + rest
  }

  /** The ascending sort that evaluate performs on the hand's cards. */
  function SortByRank(s: seq<Card>): (r: seq<Card>)
    ensures SortedByRank(r)
    ensures multiset(r) == multiset(s)
  {
    if s == [] then
      []
    else
      assert s == [s[0]] + s[1..];
      InsertByRank(s[0], SortByRank(s[1..]))
  }

  /** Number of cards of rank `r` in `s`. */
  function Count(s: seq<Card>, r: Rank): nat
  {
    if s == [] then 0 else (if s[0].rank == r then 1 else 0) + Count(s[1..], r)
  }

  /** The table countByRank builds: one entry per rank, in rank order. */
  function RankCounts(s: seq<Card>): (t: seq<nat>)
    ensures |t| == RankCount
  {
    seq(RankCount, i requires 0 <= i < RankCount => Count(s, Ranks[i]))
  }

  function Sum(t: seq<nat>): nat
  {
    if t == [] then 0 else t[0] + Sum(t[1..])
  }

  /** hasFlush: every card has the suit of the first card (vacuously true of
      an empty hand), which is to say all cards share one suit. */
  function HasFlush(s: seq<Card>): (b: bool)
    ensures b <==> forall i, j :: 0 <= i < |s| && 0 <= j < |s| ==> s[i].suit == s[j].suit
  {
    forall i :: 0 <= i < |s| ==> s[i].suit == s[0].suit
  }

  /** Every adjacent pair has consecutive rank ordinals; what hasStraight
      checks of the sorted cards. Fewer than two cards pass vacuously. */
  function Consecutive(s: seq<Card>): (b: bool)
    ensures |s| <= 1 ==> b
    ensures b ==> forall i :: 0 <= i < |s| - 1 ==> s[i].rank != s[i + 1].rank
  {
    forall i :: 0 <= i < |s| - 1 ==> Rk(s[i]) + 1 == Rk(s[i + 1])
  }

  /** hasFourOfAKind: the rank table holds a 4, that is, some rank is held
      four times. */
  function HasFourOfAKind(s: seq<Card>): (b: bool)
    ensures b <==> exists r :: Count(s, r) == 4
  {
    TableHolds(s, 4);
    4 in RankCounts(s)
  }

  /** hasFullHouse: the rank table holds a 3 and a 2. */
  function HasFullHouse(s: seq<Card>): (b: bool)
    ensures b <==> (exists r :: Count(s, r) == 3) && (exists r :: Count(s, r) == 2)
  {
    TableHolds(s, 3);
    TableHolds(s, 2);
    3 in RankCounts(s) && 2 in RankCounts(s)
  }

  /** hasThreeOfAKind: the rank table holds a 3. */
  function HasThreeOfAKind(s: seq<Card>): (b: bool)
    ensures b <==> exists r :: Count(s, r) == 3
  {
    TableHolds(s, 3);
    3 in RankCounts(s)
  }

  /** hasTwoPairs: exactly two entries of the rank table equal 2, that is,
      exactly two ranks are held twice. */
  function HasTwoPairs(s: seq<Card>): (b: bool)
    ensures b <==> |RanksHeldTimes(s, 2)| == 2
  {
    RanksHeld(s, 2);
    multiset(RankCounts(s))[2] == 2
  }

  /** hasOnePair: the rank table holds a 2. */
  function HasOnePair(s: seq<Card>): (b: bool)
    ensures b <==> exists r :: Count(s, r) == 2
  {
    TableHolds(s, 2);
    2 in RankCounts(s)
  }

  /** The table holds a value exactly when some rank is held that many
      times. */
  lemma TableHolds(s: seq<Card>, v: nat)
    ensures v in RankCounts(s) <==> exists r :: Count(s, r) == v
  {
    var counts := RankCounts(s);
    assert forall r :: counts[Ordinal(r)] == Count(s, r);
    if v in counts {
      var i :| 0 <= i < |counts| && counts[i] == v;
      assert Count(s, Ranks[i]) == v;
    }
  }

  /** The ordinals of the ranks held exactly `v` times. */
  ghost function RanksHeldTimes(s: seq<Card>, v: nat): set<nat>
  {
    set i | 0 <= i < RankCount && Count(s, Ranks[i]) == v
  }

  /** The positions of `t` holding `v`. */
  ghost function Positions(t: seq<nat>, v: nat): set<nat>
  {
    set k | 0 <= k < |t| && t[k] == v
  }

  /** The number of table entries equal to `v` is the number of ranks held
      `v` times. */
  lemma RanksHeld(s: seq<Card>, v: nat)
    ensures multiset(RankCounts(s))[v] == |RanksHeldTimes(s, v)|
  {
    OccurrencesAre(RankCounts(s), v);
    assert Positions(RankCounts(s), v) == RanksHeldTimes(s, v);
  }

  /** How often a value occurs in a sequence is the number of positions
      holding it. */
  lemma {:induction false} OccurrencesAre(t: seq<nat>, v: nat)
    ensures multiset(t)[v] == |Positions(t, v)|
  {
    if t != [] {
      var u, x := t[..|t| - 1], t[|t| - 1];
      assert t == u + [x];
      OccurrencesAre(u, v);
      if x == v {
        assert Positions(t, v) == Positions(u, v) + {|u|};
      } else {
        assert Positions(t, v) == Positions(u, v);
      }
    }
  }

  /** Whether the pattern of combination `c` is present in the sorted cards `s`. */
  predicate Holds(s: seq<Card>, c: Combination)
  {
    match c
    case StraightFlush => HasFlush(s) && Consecutive(s)
    case FourOfAKind => HasFourOfAKind(s)
    case FullHouse => HasFullHouse(s)
    case Flush => HasFlush(s)
    case Straight => Consecutive(s)
    case ThreeOfAKind => HasThreeOfAKind(s)
    case TwoPair => HasTwoPairs(s)
    case Pair => HasOnePair(s)
    case HighCard => true
  }

  /** The combination evaluate reports for the sorted cards `s`: the first
      pattern that holds, tested from straight flush down to high card. The
      reported pattern is always present. */
  function Classify(s: seq<Card>): (c: Combination)
    ensures Holds(s, c)
  {
    if HasFlush(s) && Consecutive(s) then StraightFlush
    else if HasFourOfAKind(s) then FourOfAKind
    else if HasFullHouse(s) then FullHouse
    else if HasFlush(s) then Flush
    else if Consecutive(s) then Straight
    else if HasThreeOfAKind(s) then ThreeOfAKind
    else if HasTwoPairs(s) then TwoPair
    else if HasOnePair(s) then Pair
    else HighCard
  }

  /** hasStraight: walks the adjacent pairs and stops at the first gap. */
  method HasStraight(cards: seq<Card>) returns (b: bool)
    ensures b <==> Consecutive(cards)
  {
    var i := 0;
    while i < |cards| - 1
      invariant 0 <= i && (i == 0 || i < |cards|)
      invariant forall k :: 0 <= k < i ==> Rk(cards[k]) + 1 == Rk(cards[k + 1])
    {
      var rankA := Rk(cards[i]);
      var rankB := Rk(cards[i + 1]);
      if rankA + 1 != rankB {
        return false;
      }
      i := i + 1;
    }
    return true;
  }

  /** countByRank: a table of 13 zeros, incremented once per card. */
  method CountByRank(cards: seq<Card>) returns (counts: seq<nat>)
    ensures counts == RankCounts(cards)
      && (forall r :: counts[Ordinal(r)] == Count(cards, r))
      && Sum(counts) == |cards|
  {
    counts := [0, 0, 0, 0, 0, 0, 0, 0, 0, 0, 0, 0, 0];
    assert counts == RankCounts([]);
    for i := 0 to |cards|
      invariant counts == RankCounts(cards[..i])
    {
      var k := Ordinal(cards[i].rank);
      CountsAppend(cards[..i], cards[i]);
      assert cards[..i + 1] == cards[..i] + [cards[i]];
      counts := counts[k := counts[k] + 1];
    }
    assert cards[..|cards|] == cards;
    CountsSumToSize(cards);
  }

  lemma {:induction false} CountAppend(s: seq<Card>, c: Card, r: Rank)
    ensures Count(s + [c], r) == Count(s, r) + (if c.rank == r then 1 else 0)
  {
    if s != [] {
      assert (s + [c])[1..] == s[1..] + [c];
      CountAppend(s[1..], c, r);
    }
  }

  /** Adding a card increments exactly the table entry of its rank. */
  lemma CountsAppend(s: seq<Card>, c: Card)
    ensures RankCounts(s + [c]) == RankCounts(s)[Ordinal(c.rank) := RankCounts(s)[Ordinal(c.rank)] + 1]
  {
    forall i | 0 <= i < RankCount
      ensures RankCounts(s + [c])[i] == RankCounts(s)[Ordinal(c.rank) := RankCounts(s)[Ordinal(c.rank)] + 1][i]
    {
      CountAppend(s, c, Ranks[i]);
    }
  }

  lemma {:induction false} SumIncrement(t: seq<nat>, k: nat)
    requires k < |t|
    ensures Sum(t[k := t[k] + 1]) == Sum(t) + 1
  {
    if k > 0 {
      assert t[k := t[k] + 1][1..] == t[1..][k - 1 := t[k] + 1];
      SumIncrement(t[1..], k - 1);
    }
  }

  lemma {:induction false} SumOfZeros(t: seq<nat>)
    requires forall i :: 0 <= i < |t| ==> t[i] == 0
    ensures Sum(t) == 0
  {
    if t != [] {
      SumOfZeros(t[1..]);
    }
  }

  /** The counts of the table add up to the number of cards. */
  lemma {:induction false} CountsSumToSize(s: seq<Card>)
    ensures Sum(RankCounts(s)) == |s|
  {
    if s == [] {
      SumOfZeros(RankCounts(s));
    } else {
      var t := RankCounts(s[1..]);
      var k := Ordinal(s[0].rank);
      CountsSumToSize(s[1..]);
      assert RankCounts(s) == t[k := t[k] + 1];
      SumIncrement(t, k);
    }
  }

  class Hand {
    var cards: seq<Card>

    /** Hand.create: a hand holding the given cards. */
    constructor Create(cards: seq<Card>)
      ensures this.cards == cards
    {
      this.cards := cards;
    }

    /** Appends one card. */
    method Add(card: Card)
      modifies this
      ensures cards == old(cards) + [card]
    {
      cards := cards + [card];
    }

    function GetCardsAmount(): nat
      reads this
    {
      |cards|
    }

    function GetCards(): seq<Card>
      reads this
    {
      cards
    }

    /** Sorts the cards in place by rank and reports the highest-priority
        combination they form. */
    method Evaluate() returns (c: Combination)
      modifies this
      ensures SortedByRank(cards) && multiset(cards) == old(multiset(cards))
      ensures c == Classify(cards)
    {
      cards := SortByRank(cards);
      var straight := HasStraight(cards);
      if HasFlush(cards) && straight {
        return StraightFlush;
      }
      if HasFourOfAKind(cards) {
        return FourOfAKind;
      }
      if HasFullHouse(cards) {
        return FullHouse;
      }
      if HasFlush(cards) {
        return Flush;
      }
      if straight {
        return Straight;
      }
      if HasThreeOfAKind(cards) {
        return ThreeOfAKind;
      }
      if HasTwoPairs(cards) {
        return TwoPair;
      }
      if HasOnePair(cards) {
        return Pair;
      }
      return HighCard;
    }
  }
}
