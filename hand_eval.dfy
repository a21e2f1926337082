// What `evaluate7CardsFast` computes, stated as functions over the card codes:
// histograms, rank bit masks, straight detection, and the category dispatch
// with the arguments it hands to `encodeScoreFast`.

module HandEval {
  import opened ScoreEncoding

  /** Card codes are 0..51: rank index `code % 13` (0 = deuce, 12 = ace) and
      suit `code / 13`. */
  predicate ValidCodes(cards: seq<int>)
  {
    forall i :: 0 <= i < |cards| ==> 0 <= cards[i] < 52
  }

  predicate Distinct(cards: seq<int>)
  {
    forall i, j :: 0 <= i < j < |cards| ==> cards[i] != cards[j]
  }

  // ---------------------------------------------------------------- histograms

  /** Number of cards whose rank index is `r`. */
  function RankCount(cards: seq<int>, r: int): nat
  {
    if |cards| == 0 then 0
    else RankCount(cards[..|cards| - 1], r) + (if cards[|cards| - 1] % 13 == r then 1 else 0)
  }

  /** Number of cards of suit `s`. */
  function SuitCount(cards: seq<int>, s: int): nat
  {
    if |cards| == 0 then 0
    else SuitCount(cards[..|cards| - 1], s) + (if cards[|cards| - 1] / 13 == s then 1 else 0)
  }

  /** The 13-bucket rank histogram. */
  function RankCounts(cards: seq<int>): (rc: seq<int>)
    ensures |rc| == 13
  {
    seq(13, r => RankCount(cards, r))
  }

  /** The first suit (in suit order) holding at least five cards, or -1. */
  function FlushSuit(cards: seq<int>): (fs: int)
    ensures -1 <= fs < 4
    ensures fs != -1 ==> SuitCount(cards, fs) >= 5 && forall s :: 0 <= s < fs ==> SuitCount(cards, s) < 5
    ensures fs == -1 ==> forall s :: 0 <= s < 4 ==> SuitCount(cards, s) < 5
  {
    if SuitCount(cards, 0) >= 5 then 0
    else if SuitCount(cards, 1) >= 5 then 1
    else if SuitCount(cards, 2) >= 5 then 2
    else if SuitCount(cards, 3) >= 5 then 3
    else -1
  }

  // ---------------------------------------------------------------- bit masks

  // A 13-bit rank mask is modelled as the set of its set bits: `mask |= 1 << r`
  // adds r, and `(mask & m) == m` is `m <= mask`.
  type Mask = set<int>

  /** The rank-presence mask over all cards. */
  function RankMask(cards: seq<int>): (m: Mask)
    ensures forall r :: r in m <==> exists i :: 0 <= i < |cards| && cards[i] % 13 == r
  {
    if |cards| == 0 then {}
    else RankMask(cards[..|cards| - 1]) + {cards[|cards| - 1] % 13}
  }

  /** The rank-presence mask of the cards of suit `s`. */
  function SuitMask(cards: seq<int>, s: int): (m: Mask)
    ensures forall r :: r in m <==> exists i :: 0 <= i < |cards| && cards[i] / 13 == s && cards[i] % 13 == r
  {
    if |cards| == 0 then {}
    else
      var c := cards[|cards| - 1];
      SuitMask(cards[..|cards| - 1], s) + (if c / 13 == s then {c % 13} else {})
  }

  // ---------------------------------------------------------------- straights

  /** `(1 << i) | (1 << (i-1)) | ... | (1 << (i-4))`: five consecutive ranks
      topped by rank index i. */
  function RunMask(i: int): Mask
  {
    {i, i - 1, i - 2, i - 3, i - 4}
  }

  /** `0x100F`: ace, 2, 3, 4 and 5. */
  const WheelMask: Mask := {12, 0, 1, 2, 3}

  predicate RunAt(mask: Mask, i: int)
  {
    RunMask(i) <= mask
  }

  predicate Wheel(mask: Mask)
  {
    WheelMask <= mask
  }

  /** The loop of `getStraightHighRank` from index i downwards, then the wheel. */
  function StraightFrom(mask: Mask, i: int): (h: int)
    requires 3 <= i <= 12
    ensures h == -1 || 5 <= h <= i + 2
    ensures h >= 6 ==> RunAt(mask, h - 2) && forall j :: h - 2 < j <= i ==> !RunAt(mask, j)
    ensures h == 5 ==> Wheel(mask) && forall j :: 4 <= j <= i ==> !RunAt(mask, j)
    ensures h == -1 ==> !Wheel(mask) && forall j :: 4 <= j <= i ==> !RunAt(mask, j)
    decreases i
  {
    if i < 4 then
      if WheelMask <= mask then 5 else -1
    else if RunMask(i) <= mask then i + 2
    else StraightFrom(mask, i - 1)
  }

  /** `getStraightHighRank`: the rank value (5..14) topping the highest
      straight in the mask, the wheel counting as 5-high only when no other
      straight exists; -1 when there is none. */
  function GetStraightHighRank(mask: Mask): (h: int)
    ensures h == -1 || 5 <= h <= 14
    ensures h >= 6 ==> RunAt(mask, h - 2) && forall j :: h - 2 < j <= 12 ==> !RunAt(mask, j)
    ensures h == 5 ==> Wheel(mask) && forall j :: 4 <= j <= 12 ==> !RunAt(mask, j)
    ensures h == -1 <==> !Wheel(mask) && forall j :: 4 <= j <= 12 ==> !RunAt(mask, j)
  {
    StraightFrom(mask, 12)
  }

  // ------------------------------------------------------- rank group search

  /** The highest index x in [lo, hi) with rc[x] == c, or -1. */
  function HighestIn(rc: seq<int>, c: int, lo: int, hi: int): (h: int)
    requires 0 <= lo <= hi <= |rc|
    ensures h == -1 || (lo <= h < hi && rc[h] == c)
    decreases hi - lo
  {
    if lo == hi then -1
    else if rc[hi - 1] == c then hi - 1
    else HighestIn(rc, c, lo, hi - 1)
  }

  /** The highest `n` indices below `hi`, in descending order, whose count is
      at least `m` and that are not in `excl`. */
  function TopBelow(rc: seq<int>, m: int, excl: set<int>, n: nat, hi: int): (ks: seq<int>)
    requires 0 <= hi <= |rc|
    ensures |ks| <= n
  {
    if n == 0 || hi == 0 then []
    else if rc[hi - 1] >= m && hi - 1 !in excl then [hi - 1] + TopBelow(rc, m, excl, n - 1, hi - 1)
    else TopBelow(rc, m, excl, n, hi - 1)
  }

  /** The highest `n` rank indices below `hi`, in descending order, held in
      suit `s`. */
  function SuitTop(cards: seq<int>, s: int, n: nat, hi: int): (ks: seq<int>)
    requires 0 <= hi <= 13
    ensures |ks| <= n
  {
    if n == 0 || hi == 0 then []
    else if s * 13 + hi - 1 in cards then [hi - 1] + SuitTop(cards, s, n - 1, hi - 1)
    else SuitTop(cards, s, n, hi - 1)
  }

  /** Rank index to rank value (`r + 2`). */
  function Plus2(ks: seq<int>): (vs: seq<int>)
    ensures |vs| == |ks| && forall i :: 0 <= i < |ks| ==> vs[i] == ks[i] + 2
  {
    seq(|ks|, i requires 0 <= i < |ks| => ks[i] + 2)
  }

  /** `ks` extended to length `n` with `fill`: what a fixed set of kicker
      variables or a fixed-size array holds when fewer ranks were found. */
  function Pad(ks: seq<int>, n: nat, fill: int): (p: seq<int>)
    ensures |p| == if |ks| >= n then |ks| else n
    ensures forall i :: 0 <= i < |ks| ==> p[i] == ks[i]
    ensures forall i :: |ks| <= i < |p| ==> p[i] == fill
  {
    if |ks| >= n then ks else ks + seq(n - |ks|, _ => fill)
  }

  // ---------------------------------------------------------------- dispatch

  /** The arguments of the `encodeScoreFast` call: a category code and the
      ranks packed after it. */
  datatype Hand = Hand(category: int, ranks: seq<int>)

  /** The category dispatch of `evaluate7CardsFast`, in its order: straight
      flush, quads, full house, flush, straight, trips, two pair, pair,
      high card. */
  function HandOf(cards: seq<int>): (h: Hand)
    requires ValidCodes(cards)
    ensures 1 <= h.category <= 9 && |h.ranks| <= 5
  {
    var fs := FlushSuit(cards);
    var sf := if fs != -1 then GetStraightHighRank(SuitMask(cards, fs)) else -1;
    if sf != -1 then Hand(9, [sf])
    else GroupHand(cards, fs, RankCounts(cards))
  }

  /** The dispatch after the straight-flush test, given the rank histogram:
      quads, full house, then the categories of `LowHand`. */
  function GroupHand(cards: seq<int>, fs: int, rc: seq<int>): (h: Hand)
    requires |rc| == 13
    ensures 1 <= h.category <= 8 && |h.ranks| <= 5
  {
    var quad := HighestIn(rc, 4, 0, |rc|);
    if quad != -1 then
      Hand(8, [quad + 2] + Plus2(Pad(TopBelow(rc, 1, {quad}, 1, |rc|), 1, -1)))
    else
      var trip := HighestIn(rc, 3, 0, |rc|);
      var pair1 := HighestIn(rc, 2, 0, |rc|);
      var pair2 := if pair1 == -1 then -1 else HighestIn(rc, 2, 0, pair1);
      if trip != -1 && (pair1 != -1 || pair2 != -1) then
        Hand(7, [trip + 2] + Plus2(Pad(TopBelow(rc, 2, {trip}, 1, |rc|), 1, pair1)))
      else LowHand(cards, fs, rc, trip, pair1, pair2)
  }

  /** The dispatch when there is no straight flush, no quad and no full
      house: flush, straight, trips, two pair, pair, high card. */
  function LowHand(cards: seq<int>, fs: int, rc: seq<int>, trip: int, pair1: int, pair2: int): (h: Hand)
    requires |rc| == 13
    ensures 1 <= h.category <= 6 && |h.ranks| <= 5
  {
    var straight := GetStraightHighRank(RankMask(cards));
    if fs != -1 then Hand(6, Pad(Plus2(SuitTop(cards, fs, 5, 13)), 5, 0))
    else if straight != -1 then Hand(5, [straight])
    else if trip != -1 then
      Hand(4, [trip + 2] + Pad(Plus2(TopBelow(rc, 1, {trip}, 2, |rc|)), 2, -1))
    else if pair1 != -1 && pair2 != -1 then
      Hand(3, [pair1 + 2, pair2 + 2] + Pad(Plus2(TopBelow(rc, 1, {pair1, pair2}, 1, |rc|)), 1, -1))
    else if pair1 != -1 then
      Hand(2, [pair1 + 2] + Pad(Plus2(TopBelow(rc, 1, {pair1}, 3, |rc|)), 3, -1))
    else
      Hand(1, Pad(Plus2(TopBelow(rc, 1, {}, 5, |rc|)), 5, 0))
  }

  /** The `long` that `evaluate7CardsFast` returns. */
  function HandScore(cards: seq<int>): int
    requires ValidCodes(cards)
  {
    var h := HandOf(cards);
    Encode(h.category, h.ranks)
  }
}
