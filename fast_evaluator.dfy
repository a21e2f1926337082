// `evaluate7CardsFast` as the source runs it: histogram arrays filled by an
// index loop, a descending scan for rank groups, and kicker loops that stop as
// soon as enough ranks are found. Each loop is one method below, proved
// against the functions of HandEval.

module FastEvaluator {
  import opened ScoreEncoding
  import opened HandEval

  /** The first loop: rank and suit histograms and the rank-presence mask. */
  method CountCards(cards: array<int>) returns (rankCounts: array<int>, suitCounts: array<int>, rankBitMask: Mask)
    requires ValidCodes(cards[..])
    ensures fresh(rankCounts) && fresh(suitCounts)
    ensures rankCounts.Length == 13 && rankCounts[..] == RankCounts(cards[..])
    ensures suitCounts.Length == 4 && forall s :: 0 <= s < 4 ==> suitCounts[s] == SuitCount(cards[..], s)
    ensures rankBitMask == RankMask(cards[..])
  {
    rankCounts := new int[13](_ => 0);
    suitCounts := new int[4](_ => 0);
    rankBitMask := {};
    var i := 0;
    while i < cards.Length
      invariant 0 <= i <= cards.Length
      invariant forall r :: 0 <= r < 13 ==> rankCounts[r] == RankCount(cards[..i], r)
      invariant forall s :: 0 <= s < 4 ==> suitCounts[s] == SuitCount(cards[..i], s)
      invariant rankBitMask == RankMask(cards[..i])
    {
      var c := cards[i];
      assert 0 <= c < 52;
      var r := c % 13;
      var s := c / 13;
      assert cards[..i + 1][..i] == cards[..i];
      rankCounts[r] := rankCounts[r] + 1;
      suitCounts[s] := suitCounts[s] + 1;
      rankBitMask := rankBitMask + {r};
      i := i + 1;
    }
    assert cards[..i] == cards[..];
  }

  /** The first suit with five or more cards, or -1. */
  method FindFlushSuit(suitCounts: array<int>, ghost cs: seq<int>) returns (flushSuit: int)
    requires suitCounts.Length == 4
    requires forall s :: 0 <= s < 4 ==> suitCounts[s] == SuitCount(cs, s)
    ensures flushSuit == FlushSuit(cs)
  {
    flushSuit := -1;
    var i := 0;
    while i < 4
      invariant 0 <= i <= 4
      invariant forall s :: 0 <= s < i ==> suitCounts[s] < 5
    {
      if suitCounts[i] >= 5 {
        flushSuit := i;
        return;
      }
      i := i + 1;
    }
  }

  /** The rank-presence mask of the flush suit. */
  method FlushRankMask(cards: array<int>, flushSuit: int) returns (flushRankMask: Mask)
    ensures flushRankMask == SuitMask(cards[..], flushSuit)
  {
    flushRankMask := {};
    var i := 0;
    while i < cards.Length
      invariant 0 <= i <= cards.Length
      invariant flushRankMask == SuitMask(cards[..i], flushSuit)
    {
      var c := cards[i];
      assert cards[..i + 1][..i] == cards[..i];
      if c / 13 == flushSuit {
        flushRankMask := flushRankMask + {c % 13};
      }
      i := i + 1;
    }
    assert cards[..i] == cards[..];
  }

  /** The descending scan for quads, the highest triple and the two highest
      pairs; it stops at the first quad. */
  method ScanGroups(rankCounts: array<int>) returns (quadRank: int, tripRank: int, pair1: int, pair2: int)
    requires rankCounts.Length == 13
    ensures quadRank == HighestIn(rankCounts[..], 4, 0, rankCounts.Length)
    ensures quadRank == -1 ==>
      && tripRank == HighestIn(rankCounts[..], 3, 0, rankCounts.Length)
      && pair1 == HighestIn(rankCounts[..], 2, 0, rankCounts.Length)
      && pair2 == (if pair1 == -1 then -1 else HighestIn(rankCounts[..], 2, 0, pair1))
  {
    ghost var rc := rankCounts[..];
    quadRank, tripRank, pair1, pair2 := -1, -1, -1, -1;
    var r := 12;
    while r >= 0
      invariant -1 <= r <= 12
      invariant quadRank == -1
      invariant HighestIn(rc, 4, 0, |rc|) == HighestIn(rc, 4, 0, r + 1)
      invariant tripRank == -1 ==> HighestIn(rc, 3, 0, |rc|) == HighestIn(rc, 3, 0, r + 1)
      invariant tripRank != -1 ==> tripRank == HighestIn(rc, 3, 0, |rc|)
      invariant pair1 == -1 ==> pair2 == -1 && HighestIn(rc, 2, 0, |rc|) == HighestIn(rc, 2, 0, r + 1)
      invariant pair1 != -1 ==> r < pair1 < |rc| && pair1 == HighestIn(rc, 2, 0, |rc|)
      invariant pair1 != -1 && pair2 == -1 ==> HighestIn(rc, 2, 0, pair1) == HighestIn(rc, 2, 0, r + 1)
      invariant pair2 != -1 ==> pair1 != -1 && pair2 == HighestIn(rc, 2, 0, pair1)
    {
      var count := rankCounts[r];
      if count == 4 {
        quadRank := r;
        return;
      } else if count == 3 {
        if tripRank == -1 {
          tripRank := r;
        }
      } else if count == 2 {
        if pair1 == -1 {
          pair1 := r;
        } else if pair2 == -1 {
          pair2 := r;
        }
      }
      r := r - 1;
    }
  }

  /** The kicker loops: the `n` highest rank indices, descending, whose count
      is at least `minCount` and that are not excluded. */
  method TopRanks(rankCounts: array<int>, minCount: int, excl: set<int>, n: nat) returns (ks: seq<int>)
    requires rankCounts.Length == 13
    ensures ks == TopBelow(rankCounts[..], minCount, excl, n, rankCounts.Length)
  {
    ghost var rc := rankCounts[..];
    ks := [];
    var r := 12;
    while r >= 0 && |ks| < n
      invariant -1 <= r <= 12 && |ks| <= n
      invariant ks + TopBelow(rc, minCount, excl, n - |ks|, r + 1) == TopBelow(rc, minCount, excl, n, |rc|)
    {
      if r !in excl && rankCounts[r] >= minCount {
        ks := ks + [r];
      }
      r := r - 1;
    }
  }

  /** The inner search of the flush-kicker loop: is the card of this suit and
      rank among the cards? */
  method HasRankInSuit(cards: array<int>, flushSuit: int, r: int) returns (found: bool)
    requires ValidCodes(cards[..]) && 0 <= r < 13
    ensures found <==> flushSuit * 13 + r in cards[..]
  {
    found := false;
    var i := 0;
    while i < cards.Length
      invariant 0 <= i <= cards.Length
      invariant flushSuit * 13 + r !in cards[..i]
    {
      var c := cards[i];
      if c / 13 == flushSuit && c % 13 == r {
        found := true;
        return;
      }
      assert cards[..i + 1] == cards[..i] + [c];
      i := i + 1;
    }
    assert cards[..i] == cards[..];
  }

  /** The five highest ranks of the flush suit, as rank values, in a
      zero-initialised array of five. */
  method FlushKickers(cards: array<int>, flushSuit: int) returns (flushKickers: array<int>)
    requires ValidCodes(cards[..])
    ensures fresh(flushKickers)
    ensures flushKickers[..] == Pad(Plus2(SuitTop(cards[..], flushSuit, 5, 13)), 5, 0)
  {
    ghost var cs := cards[..];
    ghost var top := SuitTop(cs, flushSuit, 5, 13);
    ghost var ks: seq<int> := [];
    flushKickers := new int[5](_ => 0);
    var idx := 0;
    var r := 12;
    while r >= 0 && idx < 5
      invariant -1 <= r <= 12 && 0 <= idx <= 5 && |ks| == idx
      invariant ks + SuitTop(cs, flushSuit, 5 - idx, r + 1) == top
      invariant flushKickers[..] == Pad(Plus2(ks), 5, 0)
    {
      var hasRankInSuit := HasRankInSuit(cards, flushSuit, r);
      SuitTopStep(cs, flushSuit, 5 - idx, r, ks, top);
      if hasRankInSuit {
        PadPlus2Snoc(ks, r, 5, 0);
        flushKickers[idx] := r + 2;
        ks := ks + [r];
        idx := idx + 1;
      }
      r := r - 1;
    }
  }

  /** One step of the descending scan: rank `r` joins the list when the
      suit holds it. */
  lemma SuitTopStep(cs: seq<int>, s: int, n: nat, r: int, ks: seq<int>, top: seq<int>)
    requires 0 <= r <= 12 && n > 0 && ks + SuitTop(cs, s, n, r + 1) == top
    ensures s * 13 + r in cs ==> (ks + [r]) + SuitTop(cs, s, n - 1, r) == top
    ensures s * 13 + r !in cs ==> ks + SuitTop(cs, s, n, r) == top
  {
    if s * 13 + r in cs {
      assert SuitTop(cs, s, n, r + 1) == [r] + SuitTop(cs, s, n - 1, r);
      assert (ks + [r]) + SuitTop(cs, s, n - 1, r) == ks + ([r] + SuitTop(cs, s, n - 1, r));
    }
  }

  /** Writing slot |ks| of a padded array is padding one more element. */
  lemma PadPlus2Snoc(ks: seq<int>, r: int, n: nat, fill: int)
    requires |ks| < n
    ensures Pad(Plus2(ks), n, fill)[|ks| := r + 2] == Pad(Plus2(ks + [r]), n, fill)
  {
  }

  /** A single kicker slot holds the rank found, or the fallback. */
  lemma Plus2PadOne(ks: seq<int>, fallback: int)
    requires |ks| <= 1
    ensures Plus2(Pad(ks, 1, fallback)) == [(if |ks| == 1 then ks[0] else fallback) + 2]
  {
  }

  /** `evaluate7CardsFast`: the packed score of the hand. */
  method Evaluate7CardsFast(cards: array<int>) returns (score: int)
    requires ValidCodes(cards[..])
    ensures score == HandScore(cards[..])
  {
    var rankCounts, suitCounts, rankBitMask := CountCards(cards);
    var flushSuit := FindFlushSuit(suitCounts, cards[..]);

    // straight flush
    if flushSuit != -1 {
      var flushRankMask := FlushRankMask(cards, flushSuit);
      var sfRank := GetStraightHighRank(flushRankMask);
      if sfRank != -1 {
        score := EncodeScoreFast(9, [sfRank]);
        return;
      }
    }
    score := EvaluateGroups(cards, rankCounts, rankBitMask, flushSuit);
  }

  /** Everything after the straight-flush test: the group scan and the
      remaining categories in dispatch order. */
  method EvaluateGroups(cards: array<int>, rankCounts: array<int>, rankBitMask: Mask, flushSuit: int)
    returns (score: int)
    requires ValidCodes(cards[..])
    requires rankCounts.Length == 13
    requires rankBitMask == RankMask(cards[..])
    ensures var h := GroupHand(cards[..], flushSuit, rankCounts[..]); score == Encode(h.category, h.ranks)
  {
    var quadRank, tripRank, pair1, pair2 := ScanGroups(rankCounts);

    // four of a kind
    if quadRank != -1 {
      var ks := TopRanks(rankCounts, 1, {quadRank}, 1);
      var kicker := if |ks| == 1 then ks[0] else -1;
      Plus2PadOne(ks, -1);
      assert GroupHand(cards[..], flushSuit, rankCounts[..]) == Hand(8, [quadRank + 2, kicker + 2]);
      score := EncodeScoreFast(8, [quadRank + 2, kicker + 2]);
      return;
    }

    // full house: a triple and a rank of count exactly two
    if tripRank != -1 && (pair1 != -1 || pair2 != -1) {
      var ps := TopRanks(rankCounts, 2, {tripRank}, 1);
      var p := if |ps| == 1 then ps[0] else pair1;
      Plus2PadOne(ps, pair1);
      assert GroupHand(cards[..], flushSuit, rankCounts[..]) == Hand(7, [tripRank + 2, p + 2]);
      score := EncodeScoreFast(7, [tripRank + 2, p + 2]);
      return;
    }

    score := EvaluateLow(cards, rankCounts, rankBitMask, flushSuit, tripRank, pair1, pair2);
  }

  /** Flush, straight, three of a kind, two pair, one pair and high card, for
      hands with no straight flush, no quad and no full house. */
  method EvaluateLow(cards: array<int>, rankCounts: array<int>, rankBitMask: Mask, flushSuit: int,
                     tripRank: int, pair1: int, pair2: int)
    returns (score: int)
    requires ValidCodes(cards[..])
    requires rankCounts.Length == 13
    requires rankBitMask == RankMask(cards[..])
    ensures var h := LowHand(cards[..], flushSuit, rankCounts[..], tripRank, pair1, pair2);
      score == Encode(h.category, h.ranks)
  {
    // flush
    if flushSuit != -1 {
      var flushKickers := FlushKickers(cards, flushSuit);
      score := EncodeScoreFast(6, flushKickers[..]);
      return;
    }

    // straight
    var straightRank := GetStraightHighRank(rankBitMask);
    if straightRank != -1 {
      score := EncodeScoreFast(5, [straightRank]);
      return;
    }

    // three of a kind
    if tripRank != -1 {
      var ks := TopRanks(rankCounts, 1, {tripRank}, 2);
      score := EncodeScoreFast(4, [tripRank + 2] + Pad(Plus2(ks), 2, -1));
      return;
    }

    // two pair
    if pair1 != -1 && pair2 != -1 {
      var ks := TopRanks(rankCounts, 1, {pair1, pair2}, 1);
      score := EncodeScoreFast(3, [pair1 + 2, pair2 + 2] + Pad(Plus2(ks), 1, -1));
      return;
    }

    // one pair
    if pair1 != -1 {
      var ks := TopRanks(rankCounts, 1, {pair1}, 3);
      score := EncodeScoreFast(2, [pair1 + 2] + Pad(Plus2(ks), 3, -1));
      return;
    }

    // high card: the five highest ranks in a zero-initialised array of five
    var ks := TopRanks(rankCounts, 1, {}, 5);
    score := EncodeScoreFast(1, Pad(Plus2(ks), 5, 0));
  }
}
