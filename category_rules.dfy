// When `evaluate7CardsFast` returns each category, stated on the rank and
// suit histograms independently of the dispatch: straight flush, then quads,
// full house, flush, straight, trips, two pair, pair and high card, each
// taken exactly when every stronger one is absent.

module CategoryRules {
  import opened Cards
  import opened HandEval
  import opened HandFacts

  /** Some rank is held exactly `c` times. */
  predicate HasCount(rc: seq<int>, c: int)
    requires |rc| == 13
  {
    exists r :: 0 <= r < 13 && rc[r] == c
  }

  /** Two different ranks are each held exactly twice. */
  predicate HasTwoPairs(rc: seq<int>)
    requires |rc| == 13
  {
    exists p, q :: 0 <= q < p < 13 && rc[p] == 2 && rc[q] == 2
  }

  /** No straight flush, no quads, and no full house under the code's rule
      (a triple together with a rank held exactly twice). */
  predicate BelowFullHouse(cards: seq<int>)
    requires ValidCodes(cards)
  {
    var rc := RankCounts(cards);
    NoStraightFlush(cards) && !HasCount(rc, 4) && !(HasCount(rc, 3) && HasCount(rc, 2))
  }

  /** Below a full house, with no flush suit and no straight. */
  predicate BelowStraight(cards: seq<int>)
    requires ValidCodes(cards)
  {
    BelowFullHouse(cards) && FlushSuit(cards) == -1 && GetStraightHighRank(RankMask(cards)) == -1
  }

  /** The descending pair scan: the first pair found exists exactly when some
      rank is held twice, and a second one exactly when two ranks are. */
  lemma PairSearch(rc: seq<int>)
    requires |rc| == 13
    ensures var pair1 := HighestIn(rc, 2, 0, 13);
      var pair2 := if pair1 == -1 then -1 else HighestIn(rc, 2, 0, pair1);
      && (pair1 != -1 <==> HasCount(rc, 2))
      && (pair1 != -1 && pair2 != -1 <==> HasTwoPairs(rc))
  {
    var pair1 := HighestIn(rc, 2, 0, 13);
    HighestInIsHighest(rc, 2, 0, 13);
    if pair1 != -1 {
      HighestInIsHighest(rc, 2, 0, pair1);
      var pair2 := HighestIn(rc, 2, 0, pair1);
      if pair2 != -1 {
        assert rc[pair1] == 2 && rc[pair2] == 2 && pair2 < pair1;
      }
      if HasTwoPairs(rc) {
        var p, q :| 0 <= q < p < 13 && rc[p] == 2 && rc[q] == 2;
        assert q < pair1;
      }
    }
  }

  /** The dispatch below the straight flush: a category of at most 6 exactly
      below a full house, and then the one `LowHand` chooses. */
  lemma LowDispatch(cards: seq<int>)
    requires ValidCodes(cards)
    ensures var rc := RankCounts(cards);
      var trip, pair1 := HighestIn(rc, 3, 0, 13), HighestIn(rc, 2, 0, 13);
      var pair2 := if pair1 == -1 then -1 else HighestIn(rc, 2, 0, pair1);
      && (HandOf(cards).category <= 6 <==> BelowFullHouse(cards))
      && (BelowFullHouse(cards) ==> HandOf(cards) == LowHand(cards, FlushSuit(cards), rc, trip, pair1, pair2))
      && (trip != -1 <==> HasCount(rc, 3))
      && (pair1 != -1 <==> HasCount(rc, 2))
      && (pair1 != -1 && pair2 != -1 <==> HasTwoPairs(rc))
  {
    var rc := RankCounts(cards);
    HighestInIsHighest(rc, 4, 0, 13);
    HighestInIsHighest(rc, 3, 0, 13);
    PairSearch(rc);
  }

  /** A straight flush is returned exactly when the flush suit's ranks hold a
      straight. */
  lemma StraightFlushRule(cards: seq<int>)
    requires ValidCodes(cards)
    ensures CategoryOf(HandOf(cards).category) == Some(StraightFlush) <==> !NoStraightFlush(cards)
    ensures !NoStraightFlush(cards) ==>
      HandOf(cards).ranks == [GetStraightHighRank(SuitMask(cards, FlushSuit(cards)))]
  {
  }

  /** A flush is returned exactly below a full house when some suit holds
      five cards. */
  lemma FlushRule(cards: seq<int>)
    requires ValidCodes(cards)
    ensures CategoryOf(HandOf(cards).category) == Some(Flush) <==>
      BelowFullHouse(cards) && FlushSuit(cards) != -1
  {
    LowDispatch(cards);
  }

  /** A straight is returned exactly below a full house, with no flush suit,
      when the ranks hold a straight. */
  lemma StraightRule(cards: seq<int>)
    requires ValidCodes(cards)
    ensures CategoryOf(HandOf(cards).category) == Some(Straight) <==>
      BelowFullHouse(cards) && FlushSuit(cards) == -1 && GetStraightHighRank(RankMask(cards)) != -1
  {
    LowDispatch(cards);
  }

  /** Three of a kind is returned exactly below a straight when some rank is
      held three times (a second triple included). */
  lemma TripsRule(cards: seq<int>)
    requires ValidCodes(cards)
    ensures CategoryOf(HandOf(cards).category) == Some(ThreeOfAKind) <==>
      BelowStraight(cards) && HasCount(RankCounts(cards), 3)
  {
    LowDispatch(cards);
  }

  /** Two pair is returned exactly below a straight, with no triple, when two
      ranks are each held exactly twice. */
  lemma TwoPairRule(cards: seq<int>)
    requires ValidCodes(cards)
    ensures var rc := RankCounts(cards);
      CategoryOf(HandOf(cards).category) == Some(TwoPair) <==>
        BelowStraight(cards) && !HasCount(rc, 3) && HasTwoPairs(rc)
  {
    LowDispatch(cards);
  }

  /** One pair is returned exactly below a straight, with no triple, when
      exactly one rank is held twice. */
  lemma OnePairRule(cards: seq<int>)
    requires ValidCodes(cards)
    ensures var rc := RankCounts(cards);
      CategoryOf(HandOf(cards).category) == Some(OnePair) <==>
        BelowStraight(cards) && !HasCount(rc, 3) && HasCount(rc, 2) && !HasTwoPairs(rc)
  {
    LowDispatch(cards);
  }

  /** High card is returned exactly below a straight when no rank is held
      three times or twice. */
  lemma HighCardRule(cards: seq<int>)
    requires ValidCodes(cards)
    ensures var rc := RankCounts(cards);
      CategoryOf(HandOf(cards).category) == Some(HighCard) <==>
        BelowStraight(cards) && !HasCount(rc, 3) && !HasCount(rc, 2)
  {
    LowDispatch(cards);
  }
}
