// What the evaluator guarantees about its result: the rank-group searches
// find the highest qualifying ranks, kickers are the top ranks in descending
// order, every packed field fits in four bits on seven distinct cards (so the
// top field of the score is the category), and the full-house rule with its
// two-triples case.

module HandFacts {
  import opened Cards
  import opened ScoreEncoding
  import opened HandEval

  // ------------------------------------------------ the rank-group searches

  /** `HighestIn` finds the highest index holding `c`, and -1 only when no
      index in the range holds it. */
  lemma {:induction false} HighestInIsHighest(rc: seq<int>, c: int, lo: int, hi: int)
    requires 0 <= lo <= hi <= |rc|
    ensures var h := HighestIn(rc, c, lo, hi);
      && (h == -1 <==> forall x :: lo <= x < hi ==> rc[x] != c)
      && (h != -1 ==> lo <= h < hi && rc[h] == c && forall x :: h < x < hi ==> rc[x] != c)
    decreases hi - lo
  {
    if lo < hi && rc[hi - 1] != c {
      HighestInIsHighest(rc, c, lo, hi - 1);
    }
  }

  /** Whether index x qualifies for a kicker search. */
  predicate Qualifies(rc: seq<int>, m: int, excl: set<int>, x: int)
    requires 0 <= x < |rc|
  {
    rc[x] >= m && x !in excl
  }

  /** `TopBelow` lists qualifying indices only, strictly descending, and no
      qualifying index is skipped in favour of a lower one: any qualifying
      index left out lies below every listed one, and is left out only
      because `n` indices were already found. */
  ghost predicate IsTopList(rc: seq<int>, m: int, excl: set<int>, n: nat, hi: int, ks: seq<int>)
    requires 0 <= hi <= |rc|
  {
    && (forall i :: 0 <= i < |ks| ==> 0 <= ks[i] < hi && Qualifies(rc, m, excl, ks[i]))
    && (forall i, j :: 0 <= i < j < |ks| ==> ks[i] > ks[j])
    && (forall x :: 0 <= x < hi && Qualifies(rc, m, excl, x) && x !in ks ==>
          |ks| == n && forall i :: 0 <= i < |ks| ==> ks[i] > x)
  }

  lemma {:induction false} TopBelowIsTop(rc: seq<int>, m: int, excl: set<int>, n: nat, hi: int)
    requires 0 <= hi <= |rc|
    ensures IsTopList(rc, m, excl, n, hi, TopBelow(rc, m, excl, n, hi))
  {
    TopBelowQualifies(rc, m, excl, n, hi);
    TopBelowComplete(rc, m, excl, n, hi);
  }

  /** Every listed index qualifies, lies below `hi`, and the list descends. */
  lemma {:induction false} TopBelowQualifies(rc: seq<int>, m: int, excl: set<int>, n: nat, hi: int)
    requires 0 <= hi <= |rc|
    ensures forall i :: 0 <= i < |TopBelow(rc, m, excl, n, hi)| ==>
      0 <= TopBelow(rc, m, excl, n, hi)[i] < hi && Qualifies(rc, m, excl, TopBelow(rc, m, excl, n, hi)[i])
    ensures forall i, j :: 0 <= i < j < |TopBelow(rc, m, excl, n, hi)| ==>
      TopBelow(rc, m, excl, n, hi)[i] > TopBelow(rc, m, excl, n, hi)[j]
  {
    if n > 0 && hi > 0 {
      if Qualifies(rc, m, excl, hi - 1) {
        TopBelowQualifies(rc, m, excl, n - 1, hi - 1);
        assert TopBelow(rc, m, excl, n, hi) == [hi - 1] + TopBelow(rc, m, excl, n - 1, hi - 1);
      } else {
        TopBelowQualifies(rc, m, excl, n, hi - 1);
        assert TopBelow(rc, m, excl, n, hi) == TopBelow(rc, m, excl, n, hi - 1);
      }
    }
  }

  /** A qualifying index left out lies below every listed one, and is left
      out only because `n` indices were already found. */
  lemma {:induction false} TopBelowComplete(rc: seq<int>, m: int, excl: set<int>, n: nat, hi: int)
    requires 0 <= hi <= |rc|
    ensures forall x :: 0 <= x < hi && Qualifies(rc, m, excl, x) && x !in TopBelow(rc, m, excl, n, hi) ==>
      |TopBelow(rc, m, excl, n, hi)| == n && forall i :: 0 <= i < |TopBelow(rc, m, excl, n, hi)| ==> TopBelow(rc, m, excl, n, hi)[i] > x
  {
    if n > 0 && hi > 0 {
      var ks := TopBelow(rc, m, excl, n, hi);
      if Qualifies(rc, m, excl, hi - 1) {
        TopBelowComplete(rc, m, excl, n - 1, hi - 1);
        TopBelowQualifies(rc, m, excl, n - 1, hi - 1);
        var rest := TopBelow(rc, m, excl, n - 1, hi - 1);
        assert ks == [hi - 1] + rest;
        forall x | 0 <= x < hi && Qualifies(rc, m, excl, x) && x !in ks
          ensures |ks| == n && forall i :: 0 <= i < |ks| ==> ks[i] > x
        {
          assert x != hi - 1 && x !in rest;
          forall i | 0 <= i < |ks| ensures ks[i] > x {
            if i > 0 { assert ks[i] == rest[i - 1]; }
          }
        }
      } else {
        TopBelowComplete(rc, m, excl, n, hi - 1);
        assert ks == TopBelow(rc, m, excl, n, hi - 1);
      }
    }
  }

  /** The same for `SuitTop`: the highest ranks held in suit s. */
  lemma {:induction false} SuitTopIsTop(cards: seq<int>, s: int, n: nat, hi: int)
    requires 0 <= hi <= 13
    ensures forall i :: 0 <= i < |SuitTop(cards, s, n, hi)| ==> 0 <= SuitTop(cards, s, n, hi)[i] < hi
    ensures forall i :: 0 <= i < |SuitTop(cards, s, n, hi)| ==> s * 13 + SuitTop(cards, s, n, hi)[i] in cards
    ensures forall i, j :: 0 <= i < j < |SuitTop(cards, s, n, hi)| ==> SuitTop(cards, s, n, hi)[i] > SuitTop(cards, s, n, hi)[j]
    ensures forall x :: 0 <= x < hi && s * 13 + x in cards && x !in SuitTop(cards, s, n, hi) ==>
      |SuitTop(cards, s, n, hi)| == n && forall i :: 0 <= i < n ==> SuitTop(cards, s, n, hi)[i] > x
  {
    if n > 0 && hi > 0 {
      if s * 13 + hi - 1 in cards {
        SuitTopIsTop(cards, s, n - 1, hi - 1);
        assert SuitTop(cards, s, n, hi) == [hi - 1] + SuitTop(cards, s, n - 1, hi - 1);
      } else {
        SuitTopIsTop(cards, s, n, hi - 1);
        assert SuitTop(cards, s, n, hi) == SuitTop(cards, s, n, hi - 1);
      }
    }
  }

  // ---------------------------------------------------------------- counting

  /** Number of qualifying indices below `hi`. */
  function NumQualifying(rc: seq<int>, m: int, excl: set<int>, hi: int): (k: nat)
    requires 0 <= hi <= |rc|
    ensures k <= hi
  {
    if hi == 0 then 0
    else NumQualifying(rc, m, excl, hi - 1) + (if Qualifies(rc, m, excl, hi - 1) then 1 else 0)
  }

  /** A kicker search finds `n` indices, or all qualifying ones if fewer. */
  lemma {:induction false} TopBelowLength(rc: seq<int>, m: int, excl: set<int>, n: nat, hi: int)
    requires 0 <= hi <= |rc|
    ensures |TopBelow(rc, m, excl, n, hi)| ==
      if NumQualifying(rc, m, excl, hi) < n then NumQualifying(rc, m, excl, hi) else n
  {
    if n > 0 && hi > 0 {
      if Qualifies(rc, m, excl, hi - 1) {
        TopBelowLength(rc, m, excl, n - 1, hi - 1);
      } else {
        TopBelowLength(rc, m, excl, n, hi - 1);
      }
    }
  }

  /** Sum of the counts below `hi`, leaving out the indices in `excl`. */
  function Sum(rc: seq<int>, excl: set<int>, hi: int): int
    requires 0 <= hi <= |rc|
  {
    if hi == 0 then 0
    else Sum(rc, excl, hi - 1) + (if hi - 1 in excl then 0 else rc[hi - 1])
  }

  /** Leaving out one more index takes its count off the sum. */
  lemma {:induction false} SumExclude(rc: seq<int>, excl: set<int>, x: int, hi: int)
    requires 0 <= hi <= |rc| && 0 <= x && x !in excl
    ensures Sum(rc, excl, hi) == Sum(rc, excl + {x}, hi) + (if x < hi then rc[x] else 0)
  {
    if hi > 0 {
      SumExclude(rc, excl, x, hi - 1);
    }
  }

  /** When every count is between 0 and B, the sum is at most B per index
      with a non-zero count. */
  lemma {:induction false} SumBound(rc: seq<int>, excl: set<int>, hi: int, b: nat)
    requires 0 <= hi <= |rc|
    requires forall x :: 0 <= x < hi && x !in excl ==> 0 <= rc[x] <= b
    ensures Sum(rc, excl, hi) <= b * NumQualifying(rc, 1, excl, hi)
  {
    if hi > 0 {
      SumBound(rc, excl, hi - 1, b);
      var k := NumQualifying(rc, 1, excl, hi - 1);
      if Qualifies(rc, 1, excl, hi - 1) {
        assert b * (k + 1) == b * k + b;
      }
    }
  }

  /** Adding one card of rank index x adds one to the sum of the histogram. */
  lemma {:induction false} SumAddOne(rc1: seq<int>, rc2: seq<int>, x: int, hi: int)
    requires |rc1| == |rc2| && 0 <= hi <= |rc1|
    requires forall r :: 0 <= r < |rc1| ==> rc2[r] == rc1[r] + (if r == x then 1 else 0)
    ensures Sum(rc2, {}, hi) == Sum(rc1, {}, hi) + (if 0 <= x < hi then 1 else 0)
  {
    if hi > 0 {
      SumAddOne(rc1, rc2, x, hi - 1);
    }
  }

  /** The rank histogram of valid codes sums to the number of cards. */
  lemma {:induction false} RankCountsSum(cards: seq<int>)
    requires ValidCodes(cards)
    ensures Sum(RankCounts(cards), {}, 13) == |cards|
  {
    if |cards| > 0 {
      var init := cards[..|cards| - 1];
      assert ValidCodes(init) by {
        forall i | 0 <= i < |init| ensures 0 <= init[i] < 52 {
          assert init[i] == cards[i];
        }
      }
      RankCountsSum(init);
      var c := cards[|cards| - 1];
      assert 0 <= c < 52;
      SumAddOne(RankCounts(init), RankCounts(cards), c % 13, 13);
    } else {
      SumZero(RankCounts(cards), 13);
    }
  }

  lemma {:induction false} SumZero(rc: seq<int>, hi: int)
    requires 0 <= hi <= |rc| && forall r :: 0 <= r < |rc| ==> rc[r] == 0
    ensures Sum(rc, {}, hi) == 0
  {
    if hi > 0 {
      SumZero(rc, hi - 1);
    }
  }

  /** Occurrences of code x. */
  function Occ(cards: seq<int>, x: int): nat
  {
    if |cards| == 0 then 0
    else Occ(cards[..|cards| - 1], x) + (if cards[|cards| - 1] == x then 1 else 0)
  }

  lemma {:induction false} OccAbsent(cards: seq<int>, x: int)
    requires x !in cards
    ensures Occ(cards, x) == 0
  {
    if |cards| > 0 {
      var init := cards[..|cards| - 1];
      assert forall i :: 0 <= i < |init| ==> init[i] == cards[i];
      OccAbsent(init, x);
    }
  }

  /** In distinct cards a code occurs at most once. */
  lemma {:induction false} OccDistinct(cards: seq<int>, x: int)
    requires Distinct(cards)
    ensures Occ(cards, x) <= 1
  {
    if |cards| > 0 {
      var n := |cards|;
      var init := cards[..n - 1];
      assert Distinct(init) by {
        forall i, j | 0 <= i < j < |init| ensures init[i] != init[j] {
          assert init[i] == cards[i] && init[j] == cards[j];
        }
      }
      OccDistinct(init, x);
      if cards[n - 1] == x {
        assert x !in init by {
          forall i | 0 <= i < |init| ensures init[i] != x {
            assert init[i] == cards[i];
          }
        }
        OccAbsent(init, x);
      }
    }
  }

  /** The count of rank index r is the number of its four codes present. */
  lemma {:induction false} RankCountByCodes(cards: seq<int>, r: int)
    requires ValidCodes(cards) && 0 <= r < 13
    ensures RankCount(cards, r) == Occ(cards, r) + Occ(cards, r + 13) + Occ(cards, r + 26) + Occ(cards, r + 39)
  {
    if |cards| > 0 {
      var init := cards[..|cards| - 1];
      assert ValidCodes(init) by {
        forall i | 0 <= i < |init| ensures 0 <= init[i] < 52 {
          assert init[i] == cards[i];
        }
      }
      RankCountByCodes(init, r);
      var c := cards[|cards| - 1];
      assert 0 <= c < 52;
    }
  }

  /** Distinct cards hold at most four of a rank. */
  lemma RankCountAtMost4(cards: seq<int>, r: int)
    requires ValidCodes(cards) && Distinct(cards) && 0 <= r < 13
    ensures RankCount(cards, r) <= 4
  {
    RankCountByCodes(cards, r);
    OccDistinct(cards, r);
    OccDistinct(cards, r + 13);
    OccDistinct(cards, r + 26);
    OccDistinct(cards, r + 39);
  }

  /** On distinct valid cards every rank count is 0..4 and the counts add up
      to the number of cards. */
  lemma HistogramFacts(cards: seq<int>)
    requires ValidCodes(cards) && Distinct(cards)
    ensures forall r :: 0 <= r < 13 ==> 0 <= RankCounts(cards)[r] <= 4
    ensures Sum(RankCounts(cards), {}, 13) == |cards|
  {
    forall r | 0 <= r < 13 ensures RankCounts(cards)[r] <= 4 {
      RankCountAtMost4(cards, r);
    }
    RankCountsSum(cards);
  }

  // ------------------------------------------------ kickers on seven cards

  /** Seven cards with a triple and no pair or quad leave two kickers. */
  lemma TripsKickers(rc: seq<int>, trip: int)
    requires |rc| == 13 && Sum(rc, {}, 13) == 7
    requires forall x :: 0 <= x < 13 ==> 0 <= rc[x] <= 4 && rc[x] != 4 && rc[x] != 2
    requires 0 <= trip < 13 && rc[trip] == 3
    ensures |TopBelow(rc, 1, {trip}, 2, |rc|)| == 2
  {
    SumExclude(rc, {}, trip, 13);
    assert {} + {trip} == {trip};
    SumBound(rc, {trip}, 13, 3);
    TopBelowLength(rc, 1, {trip}, 2, 13);
  }

  /** Seven cards with two pairs and no triple or quad leave a kicker. */
  lemma TwoPairKicker(rc: seq<int>, p1: int, p2: int)
    requires |rc| == 13 && Sum(rc, {}, 13) == 7
    requires forall x :: 0 <= x < 13 ==> 0 <= rc[x] <= 4 && rc[x] != 4 && rc[x] != 3
    requires 0 <= p2 < p1 < 13 && rc[p1] == 2 && rc[p2] == 2
    ensures |TopBelow(rc, 1, {p1, p2}, 1, |rc|)| == 1
  {
    SumExclude(rc, {}, p1, 13);
    assert {} + {p1} == {p1};
    SumExclude(rc, {p1}, p2, 13);
    assert {p1} + {p2} == {p1, p2};
    SumBound(rc, {p1, p2}, 13, 2);
    TopBelowLength(rc, 1, {p1, p2}, 1, 13);
  }

  /** Seven cards with exactly one pair leave three kickers. */
  lemma PairKickers(rc: seq<int>, p: int)
    requires |rc| == 13 && Sum(rc, {}, 13) == 7
    requires forall x :: 0 <= x < 13 && x != p ==> 0 <= rc[x] <= 1
    requires 0 <= p < 13 && rc[p] == 2
    ensures |TopBelow(rc, 1, {p}, 3, |rc|)| == 3
  {
    SumExclude(rc, {}, p, 13);
    assert {} + {p} == {p};
    SumBound(rc, {p}, 13, 1);
    TopBelowLength(rc, 1, {p}, 3, 13);
  }

  /** Every rank in a kicker list is a rank index 0..12. */
  lemma KickerRange(rc: seq<int>, m: int, excl: set<int>, n: nat)
    requires |rc| == 13
    ensures forall i :: 0 <= i < |TopBelow(rc, m, excl, n, |rc|)| ==> 0 <= TopBelow(rc, m, excl, n, |rc|)[i] < 13
  {
    TopBelowIsTop(rc, m, excl, n, |rc|);
  }

  // ------------------------------------------------ the packed fields fit

  /** The fields of `LowHand` fit in four bits when the histogram is that of
      seven cards with no quad and no full house. */
  lemma LowHandFieldsFit(cards: seq<int>, fs: int, rc: seq<int>, trip: int, pair1: int, pair2: int)
    requires |rc| == 13 && Sum(rc, {}, 13) == 7
    requires forall x :: 0 <= x < 13 ==> 0 <= rc[x] <= 4 && rc[x] != 4
    requires trip == HighestIn(rc, 3, 0, |rc|) && pair1 == HighestIn(rc, 2, 0, |rc|)
    requires pair2 == (if pair1 == -1 then -1 else HighestIn(rc, 2, 0, pair1))
    requires !(trip != -1 && (pair1 != -1 || pair2 != -1))
    ensures var h := LowHand(cards, fs, rc, trip, pair1, pair2); FieldsFit(h.category, h.ranks)
  {
    HighestInIsHighest(rc, 3, 0, 13);
    HighestInIsHighest(rc, 2, 0, 13);
    var straight := GetStraightHighRank(RankMask(cards));
    if fs != -1 {
      var ks := SuitTop(cards, fs, 5, 13);
      SuitTopIsTop(cards, fs, 5, 13);
      var p := Pad(Plus2(ks), 5, 0);
      assert forall i :: 0 <= i < |p| ==> 0 <= p[i] < 16 by {
        forall i | 0 <= i < |p| ensures 0 <= p[i] < 16 {
          assert |Plus2(ks)| == |ks|;
          if i < |ks| {
            assert 0 <= ks[i] < 13;
            assert p[i] == Plus2(ks)[i] == ks[i] + 2;
          } else {
            assert p[i] == 0;
          }
        }
      }
    } else if straight != -1 {
    } else if trip != -1 {
      TripsKickers(rc, trip);
      KickerRange(rc, 1, {trip}, 2);
    } else if pair1 != -1 && pair2 != -1 {
      HighestInIsHighest(rc, 2, 0, pair1);
      TwoPairKicker(rc, pair1, pair2);
      KickerRange(rc, 1, {pair1, pair2}, 1);
    } else if pair1 != -1 {
      HighestInIsHighest(rc, 2, 0, pair1);
      PairKickers(rc, pair1);
      KickerRange(rc, 1, {pair1}, 3);
    } else {
      KickerRange(rc, 1, {}, 5);
    }
  }

  lemma GroupHandFieldsFit(cards: seq<int>, fs: int, rc: seq<int>)
    requires |rc| == 13 && Sum(rc, {}, 13) == 7
    requires forall x :: 0 <= x < 13 ==> 0 <= rc[x] <= 4
    ensures var h := GroupHand(cards, fs, rc); FieldsFit(h.category, h.ranks)
  {
    var quad := HighestIn(rc, 4, 0, |rc|);
    HighestInIsHighest(rc, 4, 0, 13);
    if quad != -1 {
      KickerRange(rc, 1, {quad}, 1);
    } else {
      var trip := HighestIn(rc, 3, 0, |rc|);
      var pair1 := HighestIn(rc, 2, 0, |rc|);
      var pair2 := if pair1 == -1 then -1 else HighestIn(rc, 2, 0, pair1);
      if trip != -1 && (pair1 != -1 || pair2 != -1) {
        KickerRange(rc, 2, {trip}, 1);
      } else {
        LowHandFieldsFit(cards, fs, rc, trip, pair1, pair2);
      }
    }
  }

  /** On seven distinct cards every field handed to `encodeScoreFast` fits in
      four bits. */
  lemma HandFieldsFit(cards: seq<int>)
    requires |cards| == 7 && ValidCodes(cards) && Distinct(cards)
    ensures FieldsFit(HandOf(cards).category, HandOf(cards).ranks)
  {
    var fs := FlushSuit(cards);
    var sf := if fs != -1 then GetStraightHighRank(SuitMask(cards, fs)) else -1;
    if sf == -1 {
      HistogramFacts(cards);
      GroupHandFieldsFit(cards, fs, RankCounts(cards));
    }
  }

  /** On seven distinct cards `score >> 20` is the hand's category, a
      `HandCategory` score, and the score is below 2^24. */
  lemma ScoreCategory(cards: seq<int>)
    requires |cards| == 7 && ValidCodes(cards) && Distinct(cards)
    ensures HandScore(cards) / 0x10_0000 == HandOf(cards).category
    ensures 0 <= HandScore(cards) < 0x100_0000
    ensures CategoryOf(HandScore(cards) / 0x10_0000).Some?
    ensures CategoryOf(HandScore(cards) / 0x10_0000).value.Score() == HandOf(cards).category
  {
    HandFieldsFit(cards);
    EncodeCategory(HandOf(cards).category, HandOf(cards).ranks);
  }

  /** Comparing two seven-card scores compares the hands field by field:
      category first, then the ranks in the order the evaluator packs them. */
  lemma ScoreComparesHands(a: seq<int>, b: seq<int>)
    requires |a| == 7 && ValidCodes(a) && Distinct(a)
    requires |b| == 7 && ValidCodes(b) && Distinct(b)
    ensures var ha, hb := HandOf(a), HandOf(b);
      && (HandScore(a) < HandScore(b) <==> LexLess(Fields(ha.category, ha.ranks), Fields(hb.category, hb.ranks)))
      && (HandScore(a) == HandScore(b) <==> Fields(ha.category, ha.ranks) == Fields(hb.category, hb.ranks))
      && (ha.category < hb.category ==> HandScore(a) < HandScore(b))
  {
    var ha, hb := HandOf(a), HandOf(b);
    HandFieldsFit(a);
    HandFieldsFit(b);
    EncodeOrder(ha.category, ha.ranks, hb.category, hb.ranks);
    if ha.category < hb.category {
      CategoryDominates(ha.category, ha.ranks, hb.category, hb.ranks);
    }
  }

  // ------------------------------------------------ more counting

  /** Each counted index contributes at least one to the sum. */
  lemma {:induction false} NumQualifyingAtMostSum(rc: seq<int>, excl: set<int>, hi: int)
    requires 0 <= hi <= |rc|
    requires forall x :: 0 <= x < hi && x !in excl ==> 0 <= rc[x]
    ensures NumQualifying(rc, 1, excl, hi) <= Sum(rc, excl, hi)
  {
    if hi > 0 {
      NumQualifyingAtMostSum(rc, excl, hi - 1);
    }
  }

  /** A single count is at most the sum of non-negative counts. */
  lemma {:induction false} CountAtMostSum(rc: seq<int>, excl: set<int>, hi: int, x: int)
    requires 0 <= x < hi <= |rc| && x !in excl
    requires forall y :: 0 <= y < hi && y !in excl ==> 0 <= rc[y]
    ensures rc[x] <= Sum(rc, excl, hi)
  {
    if x < hi - 1 {
      CountAtMostSum(rc, excl, hi - 1, x);
    } else {
      SumNonNegative(rc, excl, hi - 1);
    }
  }

  lemma {:induction false} SumNonNegative(rc: seq<int>, excl: set<int>, hi: int)
    requires 0 <= hi <= |rc|
    requires forall y :: 0 <= y < hi && y !in excl ==> 0 <= rc[y]
    ensures 0 <= Sum(rc, excl, hi)
  {
    if hi > 0 {
      SumNonNegative(rc, excl, hi - 1);
    }
  }

  /** Two different qualifying indices make the count at least two. */
  lemma {:induction false} NumQualifyingTwo(rc: seq<int>, m: int, excl: set<int>, hi: int, x: int, y: int)
    requires 0 <= x < hi <= |rc| && 0 <= y < hi && x != y
    requires Qualifies(rc, m, excl, x) && Qualifies(rc, m, excl, y)
    ensures NumQualifying(rc, m, excl, hi) >= 2
  {
    if x != hi - 1 && y != hi - 1 {
      NumQualifyingTwo(rc, m, excl, hi - 1, x, y);
    } else {
      var z := if x == hi - 1 then y else x;
      NumQualifyingOne(rc, m, excl, hi - 1, z);
    }
  }

  lemma {:induction false} NumQualifyingOne(rc: seq<int>, m: int, excl: set<int>, hi: int, x: int)
    requires 0 <= x < hi <= |rc| && Qualifies(rc, m, excl, x)
    ensures NumQualifying(rc, m, excl, hi) >= 1
  {
    if x != hi - 1 {
      NumQualifyingOne(rc, m, excl, hi - 1, x);
    }
  }

  /** Leaving out one more index takes it off the count. */
  lemma {:induction false} NumQualifyingExclude(rc: seq<int>, m: int, excl: set<int>, x: int, hi: int)
    requires 0 <= hi <= |rc| && 0 <= x < |rc| && x !in excl
    ensures NumQualifying(rc, m, excl, hi) ==
      NumQualifying(rc, m, excl + {x}, hi) + (if x < hi && rc[x] >= m then 1 else 0)
  {
    if hi > 0 {
      NumQualifyingExclude(rc, m, excl, x, hi - 1);
    }
  }

  /** A rank in the rank mask is held by some card. */
  lemma {:induction false} RankMaskPresent(cards: seq<int>, x: int)
    requires x in RankMask(cards)
    ensures RankCount(cards, x) >= 1
  {
    if |cards| > 0 && cards[|cards| - 1] % 13 != x {
      RankMaskPresent(cards[..|cards| - 1], x);
    }
  }

  /** Occurrences of the codes 13s .. 13s + hi - 1 of suit s. */
  function SuitRow(cards: seq<int>, s: int, hi: int): nat
    requires 0 <= hi
  {
    if hi == 0 then 0 else SuitRow(cards, s, hi - 1) + Occ(cards, s * 13 + hi - 1)
  }

  lemma {:induction false} SuitRowSnoc(cards: seq<int>, s: int, hi: int)
    requires |cards| > 0 && 0 <= hi <= 13 && 0 <= cards[|cards| - 1] < 52
    ensures var c := cards[|cards| - 1];
      SuitRow(cards, s, hi) == SuitRow(cards[..|cards| - 1], s, hi) + (if c / 13 == s && c % 13 < hi then 1 else 0)
  {
    if hi > 0 {
      SuitRowSnoc(cards, s, hi - 1);
    }
  }

  /** The suit count is the number of codes of that suit present. */
  lemma {:induction false} SuitCountByCodes(cards: seq<int>, s: int)
    requires ValidCodes(cards)
    ensures SuitCount(cards, s) == SuitRow(cards, s, 13)
  {
    if |cards| > 0 {
      var init := cards[..|cards| - 1];
      assert ValidCodes(init) by {
        forall i | 0 <= i < |init| ensures 0 <= init[i] < 52 {
          assert init[i] == cards[i];
        }
      }
      SuitCountByCodes(init, s);
      SuitRowSnoc(cards, s, 13);
    } else {
      SuitRowEmpty(cards, s, 13);
    }
  }

  lemma {:induction false} SuitRowEmpty(cards: seq<int>, s: int, hi: int)
    requires |cards| == 0 && 0 <= hi
    ensures SuitRow(cards, s, hi) == 0
  {
    if hi > 0 {
      SuitRowEmpty(cards, s, hi - 1);
    }
  }

  /** Each present code of suit s has its own rank, so a suit holds at most
      as many cards as there are ranks present. */
  lemma {:induction false} SuitRowAtMostRanks(cards: seq<int>, s: int, hi: int)
    requires ValidCodes(cards) && Distinct(cards) && 0 <= s < 4 && 0 <= hi <= 13
    ensures SuitRow(cards, s, hi) <= NumQualifying(RankCounts(cards), 1, {}, hi)
  {
    if hi > 0 {
      SuitRowAtMostRanks(cards, s, hi - 1);
      var r := hi - 1;
      OccDistinct(cards, s * 13 + r);
      RankCountByCodes(cards, r);
      assert Occ(cards, s * 13 + r) <= RankCount(cards, r);
    }
  }

  lemma SuitCountAtMostRanks(cards: seq<int>, s: int)
    requires ValidCodes(cards) && Distinct(cards) && 0 <= s < 4
    ensures SuitCount(cards, s) <= NumQualifying(RankCounts(cards), 1, {}, 13)
  {
    SuitCountByCodes(cards, s);
    SuitRowAtMostRanks(cards, s, 13);
  }

  // ------------------------------------------------ the full-house rule

  /** No straight flush: there is no flush suit, or its ranks hold no
      straight. */
  predicate NoStraightFlush(cards: seq<int>)
  {
    FlushSuit(cards) == -1 || GetStraightHighRank(SuitMask(cards, FlushSuit(cards))) == -1
  }

  /** Four of a kind is returned exactly when there is no straight flush and
      some rank is held four times. */
  lemma QuadsRule(cards: seq<int>)
    requires ValidCodes(cards)
    ensures var rc := RankCounts(cards);
      CategoryOf(HandOf(cards).category) == Some(FourOfAKind) <==>
        NoStraightFlush(cards) && exists r :: 0 <= r < 13 && rc[r] == 4
  {
    HighestInIsHighest(RankCounts(cards), 4, 0, 13);
  }

  /** The ranks of a four of a kind: the quad, then the kicker, which is the
      highest other rank held, or 1 (a missing kicker, -1 + 2) when there is
      none. */
  lemma QuadsKicker(cards: seq<int>)
    requires ValidCodes(cards)
    ensures var rc, h := RankCounts(cards), HandOf(cards);
      h.category == 8 ==>
        var q, k := h.ranks[0] - 2, h.ranks[1] - 2;
        && 0 <= q < 13 && rc[q] == 4
        && (k == -1 || (0 <= k < 13 && k != q && rc[k] >= 1))
        && forall x :: k < x < 13 && x != q ==> rc[x] < 1
  {
    var rc := RankCounts(cards);
    HighestInIsHighest(rc, 4, 0, 13);
    var quad := HighestIn(rc, 4, 0, |rc|);
    if NoStraightFlush(cards) && quad != -1 {
      var ks := TopBelow(rc, 1, {quad}, 1, |rc|);
      TopBelowIsTop(rc, 1, {quad}, 1, |rc|);
      var k := if |ks| == 1 then ks[0] else -1;
      assert forall i :: 0 <= i < |ks| ==> 0 <= ks[i] < |rc| && Qualifies(rc, 1, {quad}, ks[i]);
      assert |ks| == 1 ==> Qualifies(rc, 1, {quad}, ks[0]);
      assert HandOf(cards) == Hand(8, [quad + 2] + Plus2(Pad(ks, 1, -1)));
      assert HandOf(cards).ranks[1] == k + 2;
      forall x | k < x < 13 && x != quad ensures rc[x] < 1 {
        if rc[x] >= 1 {
          assert Qualifies(rc, 1, {quad}, x);
        }
      }
    }
  }

  /** A full house is returned exactly when there is no straight flush, no
      quad, a triple, and a rank held exactly twice. */
  lemma FullHouseRule(cards: seq<int>)
    requires ValidCodes(cards)
    ensures var rc := RankCounts(cards);
      CategoryOf(HandOf(cards).category) == Some(FullHouse) <==>
        && NoStraightFlush(cards)
        && (forall r :: 0 <= r < 13 ==> rc[r] != 4)
        && (exists r :: 0 <= r < 13 && rc[r] == 3)
        && (exists r :: 0 <= r < 13 && rc[r] == 2)
  {
    var rc := RankCounts(cards);
    HighestInIsHighest(rc, 4, 0, 13);
    HighestInIsHighest(rc, 3, 0, 13);
    HighestInIsHighest(rc, 2, 0, 13);
  }

  /** The ranks of a full house: the highest triple, then the highest other
      rank held at least twice. */
  lemma FullHouseSlots(cards: seq<int>)
    requires ValidCodes(cards)
    ensures var rc, h := RankCounts(cards), HandOf(cards);
      h.category == 7 ==>
        var t, p := h.ranks[0] - 2, h.ranks[1] - 2;
        && 0 <= t < 13 && rc[t] == 3 && (forall x :: t < x < 13 ==> rc[x] != 3)
        && 0 <= p < 13 && p != t && rc[p] >= 2
        && (forall x :: p < x < 13 && x != t ==> rc[x] < 2)
  {
    var rc := RankCounts(cards);
    HighestInIsHighest(rc, 4, 0, 13);
    HighestInIsHighest(rc, 3, 0, 13);
    HighestInIsHighest(rc, 2, 0, 13);
    var quad := HighestIn(rc, 4, 0, |rc|);
    var trip := HighestIn(rc, 3, 0, |rc|);
    var pair1 := HighestIn(rc, 2, 0, |rc|);
    if NoStraightFlush(cards) && quad == -1 && trip != -1 && pair1 != -1 {
      var ks := TopBelow(rc, 2, {trip}, 1, |rc|);
      TopBelowIsTop(rc, 2, {trip}, 1, |rc|);
      assert Qualifies(rc, 2, {trip}, pair1);
      assert |ks| == 1;
      assert HandOf(cards) == Hand(7, [trip + 2] + Plus2(Pad(ks, 1, pair1)));
      assert HandOf(cards).ranks[1] == ks[0] + 2;
      forall x | ks[0] < x < 13 && x != trip ensures rc[x] < 2 {
        if rc[x] >= 2 {
          assert Qualifies(rc, 2, {trip}, x);
        }
      }
    }
  }

  /** With two triples among seven cards, the one other card is the only
      rank besides them, and at most three ranks are held in all. */
  lemma TwoTriplesCounts(cards: seq<int>, t1: int, t2: int)
    requires |cards| == 7 && ValidCodes(cards) && Distinct(cards)
    requires 0 <= t2 < t1 < 13 && RankCounts(cards)[t1] == 3 && RankCounts(cards)[t2] == 3
    ensures forall x :: 0 <= x < 13 && x != t1 && x != t2 ==> 0 <= RankCounts(cards)[x] <= 1
    ensures NumQualifying(RankCounts(cards), 1, {t1, t2}, 13) <= 1
    ensures NumQualifying(RankCounts(cards), 1, {}, 13) <= 3
  {
    var rc := RankCounts(cards);
    HistogramFacts(cards);
    SumExclude(rc, {}, t1, 13);
    assert {} + {t1} == {t1};
    SumExclude(rc, {t1}, t2, 13);
    assert {t1} + {t2} == {t1, t2};
    assert Sum(rc, {t1, t2}, 13) == 1;
    forall x | 0 <= x < 13 && x != t1 && x != t2 ensures rc[x] <= 1 {
      CountAtMostSum(rc, {t1, t2}, 13, x);
    }
    NumQualifyingAtMostSum(rc, {t1, t2}, 13);
    NumQualifyingExclude(rc, 1, {}, t1, 13);
    NumQualifyingExclude(rc, 1, {t1}, t2, 13);
  }

  /** Two triples among seven distinct cards leave every suit with at most
      three cards: no flush. */
  lemma TwoTriplesNoFlush(cards: seq<int>, t1: int, t2: int)
    requires |cards| == 7 && ValidCodes(cards) && Distinct(cards)
    requires 0 <= t2 < t1 < 13 && RankCounts(cards)[t1] == 3 && RankCounts(cards)[t2] == 3
    ensures FlushSuit(cards) == -1
  {
    TwoTriplesCounts(cards, t1, t2);
    forall s | 0 <= s < 4 ensures SuitCount(cards, s) < 5 {
      SuitCountAtMostRanks(cards, s);
    }
  }

  /** Two triples among seven cards hold three ranks at most: no straight. */
  lemma TwoTriplesNoStraight(cards: seq<int>, t1: int, t2: int)
    requires |cards| == 7 && ValidCodes(cards) && Distinct(cards)
    requires 0 <= t2 < t1 < 13 && RankCounts(cards)[t1] == 3 && RankCounts(cards)[t2] == 3
    ensures GetStraightHighRank(RankMask(cards)) == -1
  {
    var rc := RankCounts(cards);
    TwoTriplesCounts(cards, t1, t2);
    var mask := RankMask(cards);
    forall x, y | x in mask && y in mask && 0 <= x < 13 && 0 <= y < 13 && x != y && x !in {t1, t2} && y !in {t1, t2}
      ensures false
    {
      RankMaskPresent(cards, x);
      RankMaskPresent(cards, y);
      NumQualifyingTwo(rc, 1, {t1, t2}, 13, x, y);
    }
    assert !(12 in mask && 0 in mask && 1 in mask && 2 in mask && 3 in mask);
    assert !Wheel(mask);
    forall j | 4 <= j <= 12 ensures !RunAt(mask, j) {
      assert !(j in mask && j - 1 in mask && j - 2 in mask && j - 3 in mask && j - 4 in mask);
    }
  }

  /** Two triples in seven distinct cards: no flush and no straight is
      possible, there is no pair, so the hand falls through to three of a
      kind on the higher triple, and the lower triple becomes a kicker. */
  lemma TwoTriplesAreTrips(cards: seq<int>, t1: int, t2: int)
    requires |cards| == 7 && ValidCodes(cards) && Distinct(cards)
    requires 0 <= t2 < t1 < 13 && RankCounts(cards)[t1] == 3 && RankCounts(cards)[t2] == 3
    ensures CategoryOf(HandOf(cards).category) == Some(ThreeOfAKind)
    ensures HandOf(cards).ranks[0] == t1 + 2
    ensures t2 + 2 in HandOf(cards).ranks[1..]
  {
    var rc := RankCounts(cards);
    TwoTriplesHand(cards, t1, t2);
    TwoTriplesCounts(cards, t1, t2);
    TwoTriplesKickers(rc, t1, t2);
    TripsWithKicker(HandOf(cards), t1, t2, TopBelow(rc, 1, {t1}, 2, 13));
  }

  /** A three-of-a-kind hand whose kicker list holds `t2` carries `t2 + 2`
      after its trips rank. */
  lemma TripsWithKicker(h: Hand, t1: int, t2: int, ks: seq<int>)
    requires h == Hand(4, [t1 + 2] + Pad(Plus2(ks), 2, -1)) && t2 in ks
    ensures CategoryOf(h.category) == Some(ThreeOfAKind)
    ensures h.ranks[0] == t1 + 2
    ensures t2 + 2 in h.ranks[1..]
  {
    var i :| 0 <= i < |ks| && ks[i] == t2;
    assert h.ranks[1..][i] == t2 + 2;
  }

  /** The dispatch on two triples reaches the three-of-a-kind branch. */
  lemma TwoTriplesHand(cards: seq<int>, t1: int, t2: int)
    requires |cards| == 7 && ValidCodes(cards) && Distinct(cards)
    requires 0 <= t2 < t1 < 13 && RankCounts(cards)[t1] == 3 && RankCounts(cards)[t2] == 3
    ensures HandOf(cards) == Hand(4, [t1 + 2] + Pad(Plus2(TopBelow(RankCounts(cards), 1, {t1}, 2, 13)), 2, -1))
  {
    var rc := RankCounts(cards);
    TwoTriplesCounts(cards, t1, t2);
    TwoTriplesNoFlush(cards, t1, t2);
    TwoTriplesNoStraight(cards, t1, t2);
    HighestInIsHighest(rc, 4, 0, 13);
    HighestInIsHighest(rc, 3, 0, 13);
    HighestInIsHighest(rc, 2, 0, 13);
    assert HighestIn(rc, 4, 0, |rc|) == -1;
    assert HighestIn(rc, 3, 0, |rc|) == t1;
    assert HighestIn(rc, 2, 0, |rc|) == -1;
  }

  lemma TwoTriplesKickers(rc: seq<int>, t1: int, t2: int)
    requires |rc| == 13 && 0 <= t2 < t1 < 13 && rc[t2] == 3
    requires NumQualifying(rc, 1, {t1, t2}, 13) <= 1
    ensures t2 in TopBelow(rc, 1, {t1}, 2, |rc|)
  {
    var ks := TopBelow(rc, 1, {t1}, 2, |rc|);
    TopBelowIsTop(rc, 1, {t1}, 2, |rc|);
    assert Qualifies(rc, 1, {t1}, t2);
    if t2 !in ks {
      assert |ks| == 2 && ks[0] > ks[1] > t2;
      assert Qualifies(rc, 1, {t1}, ks[0]) && Qualifies(rc, 1, {t1}, ks[1]);
      NumQualifyingTwo(rc, 1, {t1, t2}, 13, ks[0], ks[1]);
      assert false;
    }
  }
}
