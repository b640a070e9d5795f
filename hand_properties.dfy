/** Properties of hand classification: what each reported combination means,
    and that the answer depends only on which cards the hand holds. */
module HandProperties {
  import opened Cards
  import opened Hands

  /** Along a consecutive run the ordinal climbs by exactly one per position. */
  lemma {:induction false} ConsecutiveClimbs(s: seq<Card>, i: nat, j: nat)
    requires Consecutive(s) && i <= j < |s|
    ensures Rk(s[j]) == Rk(s[i]) + (j - i)
    decreases j - i
  {
    if i < j {
      ConsecutiveClimbs(s, i, j - 1);
    }
  }

  /** Two cards of the same rank rule out a straight: evaluate then reports
      neither STRAIGHT nor STRAIGHT_FLUSH. */
  lemma RepeatedRankIsNoStraight(s: seq<Card>, i: nat, j: nat)
    requires i < j < |s| && s[i].rank == s[j].rank
    ensures !Consecutive(s)
    ensures Classify(s) != StraightFlush && Classify(s) != Straight
  {
    if Consecutive(s) {
      ConsecutiveClimbs(s, i, j);
    }
  }

  /** STRAIGHT_FLUSH is reported exactly when every card has the first card's
      suit and every adjacent pair of ordinals differs by one. */
  lemma StraightFlushExactly(s: seq<Card>)
    ensures Classify(s) == StraightFlush <==>
      (forall i :: 0 <= i < |s| ==> s[i].suit == s[0].suit) &&
      (forall i :: 0 <= i < |s| - 1 ==> Rk(s[i]) + 1 == Rk(s[i + 1]))
  {
  }

  /** An empty or one-card hand is vacuously a flush and a straight. */
  lemma ShortHandIsStraightFlush(s: seq<Card>)
    requires |s| <= 1
    ensures Classify(s) == StraightFlush
  {
  }

  /** TWO_PAIR means: exactly two ranks are held twice, no rank three or four
      times, and the cards are neither a flush nor a straight. */
  lemma TwoPairShape(s: seq<Card>)
    requires Classify(s) == TwoPair
    ensures multiset(RankCounts(s))[2] == 2
    ensures forall r :: Count(s, r) != 3 && Count(s, r) != 4
    ensures !HasFlush(s) && !Consecutive(s)
  {
    forall r ensures Count(s, r) != 3 && Count(s, r) != 4 {
      assert RankCounts(s)[Ordinal(r)] == Count(s, r);
    }
  }

  /** The number of cards of a rank is the number of copies of the four cards
      of that rank. */
  lemma {:induction false} CountBySuit(s: seq<Card>, r: Rank)
    ensures Count(s, r) == multiset(s)[Card(Clubs, r)] + multiset(s)[Card(Diamonds, r)]
                         + multiset(s)[Card(Hearts, r)] + multiset(s)[Card(Spades, r)]
  {
    if s != [] {
      var c, t := s[0], s[1..];
      assert s == [c] + t;
      assert forall x :: multiset(s)[x] == multiset(t)[x] + (if x == c then 1 else 0);
      CountBySuit(t, r);
      if c.rank == r {
        match c.suit
        case Clubs => assert c == Card(Clubs, r);
        case Diamonds => assert c == Card(Diamonds, r);
        case Hearts => assert c == Card(Hearts, r);
        case Spades => assert c == Card(Spades, r);
      }
    }
  }

  /** Two different cards of one rank make that rank's count at least 2. */
  lemma CountAtLeastTwo(s: seq<Card>, x: Card, y: Card)
    requires x in multiset(s) && y in multiset(s) && x != y && x.rank == y.rank
    ensures Count(s, x.rank) >= 2
  {
    var m := multiset(s);
    CountBySuit(s, x.rank);
    assert m[Card(x.suit, x.rank)] >= 1 && m[Card(y.suit, x.rank)] >= 1;
    assert x.suit != y.suit;
  }

  /** Reordering the cards changes no rank count. */
  lemma CountPermutation(a: seq<Card>, b: seq<Card>)
    requires multiset(a) == multiset(b)
    ensures forall r :: Count(a, r) == Count(b, r)
  {
    forall r ensures Count(a, r) == Count(b, r) {
      CountBySuit(a, r);
      CountBySuit(b, r);
    }
  }

  lemma {:induction false} CountPositive(s: seq<Card>, r: Rank)
    requires Count(s, r) > 0
    ensures exists j :: 0 <= j < |s| && s[j].rank == r
  {
    if s[0].rank != r {
      CountPositive(s[1..], r);
      var j :| 0 <= j < |s[1..]| && s[1..][j].rank == r;
      assert s[j + 1].rank == r;
    }
  }

  lemma {:induction false} CountZero(s: seq<Card>, r: Rank)
    requires forall j :: 0 <= j < |s| ==> s[j].rank != r
    ensures Count(s, r) == 0
  {
    if s != [] {
      CountZero(s[1..], r);
    }
  }

  /** A straight holds each rank at most once. */
  lemma {:induction false} StraightHoldsEachRankOnce(s: seq<Card>)
    requires Consecutive(s)
    ensures forall r :: Count(s, r) <= 1
  {
    if s != [] {
      StraightHoldsEachRankOnce(s[1..]);
      forall j | 1 <= j < |s| ensures s[j].rank != s[0].rank {
        ConsecutiveClimbs(s, 0, j);
      }
      CountZero(s[1..], s[0].rank);
    }
  }

  /** A rank held twice rules out a straight, and so STRAIGHT and
      STRAIGHT_FLUSH. */
  lemma HeldTwiceIsNoStraight(s: seq<Card>, r: Rank)
    requires Count(s, r) >= 2
    ensures !Consecutive(s)
    ensures Classify(s) != StraightFlush && Classify(s) != Straight
  {
    if Consecutive(s) {
      StraightHoldsEachRankOnce(s);
    }
  }

  /** Two hands sorted by rank with the same count for every rank have the
      same rank at every position; in particular the same last (highest) card. */
  lemma {:induction false} SortedRanksUnique(a: seq<Card>, b: seq<Card>)
    requires SortedByRank(a) && SortedByRank(b)
    requires forall r :: Count(a, r) == Count(b, r)
    ensures |a| == |b|
    ensures forall i :: 0 <= i < |a| ==> a[i].rank == b[i].rank
    decreases |a|
  {
    assert RankCounts(a) == RankCounts(b) by {
      forall i | 0 <= i < RankCount ensures RankCounts(a)[i] == RankCounts(b)[i] {
        assert Count(a, Ranks[i]) == Count(b, Ranks[i]);
      }
    }
    CountsSumToSize(a);
    CountsSumToSize(b);
    if a != [] {
      CountPositive(b, a[0].rank);
      CountPositive(a, b[0].rank);
      assert Rk(a[0]) == Rk(b[0]);
      assert a[0].rank == Ranks[Rk(a[0])] == b[0].rank;
      forall r ensures Count(a[1..], r) == Count(b[1..], r) {
        assert Count(a, r) == Count(b, r);
      }
      SortedRanksUnique(a[1..], b[1..]);
      forall i | 0 < i < |a| ensures a[i].rank == b[i].rank {
        assert a[1..][i - 1].rank == b[1..][i - 1].rank;
      }
    }
  }

  /** A hand is a flush exactly when any two of its cards share a suit. */
  lemma FlushMeansOneSuit(s: seq<Card>)
    ensures HasFlush(s) <==> forall x, y :: x in s && y in s ==> x.suit == y.suit
  {
    if HasFlush(s) {
      forall x, y | x in s && y in s ensures x.suit == y.suit {
        var i :| 0 <= i < |s| && s[i] == x;
        var j :| 0 <= j < |s| && s[j] == y;
      }
    }
  }

  /** Reordering the cards does not change whether they form a flush. */
  lemma FlushPermutation(a: seq<Card>, b: seq<Card>)
    requires multiset(a) == multiset(b)
    ensures HasFlush(a) <==> HasFlush(b)
  {
    FlushMeansOneSuit(a);
    FlushMeansOneSuit(b);
    assert forall x :: x in a <==> x in multiset(b);
  }

  /** Whether cards are consecutive depends only on their ranks, position by
      position. */
  lemma ConsecutiveByRanks(a: seq<Card>, b: seq<Card>)
    requires |a| == |b| && forall i :: 0 <= i < |a| ==> a[i].rank == b[i].rank
    ensures Consecutive(a) <==> Consecutive(b)
  {
  }

  /** Sorted hands holding the same cards have the same rank table and the
      same answers to the flush and straight tests. */
  lemma SameCardsSameShape(a: seq<Card>, b: seq<Card>)
    requires SortedByRank(a) && SortedByRank(b)
    requires multiset(a) == multiset(b)
    ensures RankCounts(a) == RankCounts(b)
    ensures HasFlush(a) == HasFlush(b) && Consecutive(a) == Consecutive(b)
  {
    CountPermutation(a, b);
    SortedRanksUnique(a, b);
    assert RankCounts(a) == RankCounts(b);
    FlushPermutation(a, b);
    ConsecutiveByRanks(a, b);
  }

  /** The classification of a sorted hand depends only on the multiset of its
      cards: hands holding the same cards, dealt in any order, are reported as
      the same combination once evaluate has sorted them. */
  lemma ClassifyDependsOnlyOnCards(a: seq<Card>, b: seq<Card>)
    requires SortedByRank(a) && SortedByRank(b)
    requires multiset(a) == multiset(b)
    ensures Classify(a) == Classify(b)
  {
    SameCardsSameShape(a, b);
  }
}
