// The draw and board-texture detectors and the implied-odds scale that the
// strategy report derives from the hero's hand and the board. The hash sets,
// hash maps and sorted lists the detectors build are modelled by the sets,
// counts and ascending sequences they hold.

module Features {
  import opened Cards

  /** The number of cards of suit `s`. */
  function SuitCount(cards: seq<Card>, s: Suit): (n: nat)
    ensures n <= |cards|
  {
    if |cards| == 0 then 0
    else SuitCount(cards[..|cards| - 1], s) + (if cards[|cards| - 1].suit == s then 1 else 0)
  }

  /** The number of cards whose rank has value `v`. */
  function RankValueCount(cards: seq<Card>, v: int): (n: nat)
    ensures n <= |cards|
    ensures n == 0 <==> forall i :: 0 <= i < |cards| ==> cards[i].rank.Value() != v
  {
    if |cards| == 0 then 0
    else RankValueCount(cards[..|cards| - 1], v) + (if cards[|cards| - 1].rank.Value() == v then 1 else 0)
  }

  /** The set of rank values of `cards`. */
  function RankValues(cards: seq<Card>): (vs: set<int>)
    ensures forall v :: v in vs ==> 2 <= v <= 14
    ensures forall i :: 0 <= i < |cards| ==> cards[i].rank.Value() in vs
  {
    set c | c in cards :: c.rank.Value()
  }

  /** The lowest value a rank takes: an ace playing low counts as 1. */
  const LowestRank: int := 1

  /** The members of `vs` from `lo` up to 14 in ascending order: what sorting
      the list of a set of rank values (all in 1..14) yields. */
  function Ascending(vs: set<int>, lo: int): (sq: seq<int>)
    requires lo >= 1
    ensures |sq| <= 15 - lo || lo > 14
    decreases 15 - lo
  {
    if lo > 14 then []
    else (if lo in vs then [lo] else []) + Ascending(vs, lo + 1)
  }

  /** `Ascending` holds exactly the members of `vs` in `lo..14`. */
  lemma {:induction false} AscendingMembers(vs: set<int>, lo: int)
    requires lo >= 1
    ensures forall x :: x in Ascending(vs, lo) <==> lo <= x <= 14 && x in vs
    decreases 15 - lo
  {
    if lo <= 14 {
      AscendingMembers(vs, lo + 1);
    }
  }

  /** Strictly increasing. */
  ghost predicate Increasing(sq: seq<int>)
  {
    forall i, j :: 0 <= i < j < |sq| ==> sq[i] < sq[j]
  }

  /** Every entry of `Ascending(vs, lo)` is at least `lo`. */
  lemma {:induction false} AscendingAbove(vs: set<int>, lo: int)
    requires lo >= 1
    ensures forall k :: 0 <= k < |Ascending(vs, lo)| ==> Ascending(vs, lo)[k] >= lo
    decreases 15 - lo
  {
    if lo <= 14 {
      AscendingAbove(vs, lo + 1);
    }
  }

  /** `Ascending` is strictly increasing. */
  lemma {:induction false} AscendingStrict(vs: set<int>, lo: int)
    requires lo >= 1
    ensures Increasing(Ascending(vs, lo))
    decreases 15 - lo
  {
    if lo <= 14 {
      AscendingStrict(vs, lo + 1);
      AscendingAbove(vs, lo + 1);
      var tail := Ascending(vs, lo + 1);
      if lo in vs {
        assert Ascending(vs, lo) == [lo] + tail;
        ConsStrict(lo, tail);
      } else {
        assert tail == Ascending(vs, lo);
      }
    }
  }

  /** A value below every entry of a strictly increasing sequence extends it
      at the front. */
  lemma ConsStrict(x: int, tail: seq<int>)
    requires forall k :: 0 <= k < |tail| ==> tail[k] > x
    requires Increasing(tail)
    ensures Increasing([x] + tail)
  {
    var sq := [x] + tail;
    forall i, j | 0 <= i < j < |sq|
      ensures sq[i] < sq[j]
    {
      assert sq[j] == tail[j - 1];
      if i >= 1 {
        assert sq[i] == tail[i - 1];
      }
    }
  }

  /** Some `width` consecutive entries of `sq` span at most 4 (the
      `for (i = 0; i <= size - width; i++)` scans of the detectors). */
  predicate HasWindow(sq: seq<int>, width: nat)
    requires width >= 1
  {
    exists i, j :: 0 <= i < |sq| && 0 <= j < |sq| && j == i + width - 1 && sq[j] - sq[i] <= 4
  }

  /** `isPairOnBoard`'s scan: `seen` holds the rank values added to the set so
      far, and the scan stops at the first value that is already there. */
  predicate RepeatsFrom(board: seq<Card>, seen: set<int>)
    decreases |board|
  {
    if |board| == 0 then false
    else if board[0].rank.Value() in seen then true
    else RepeatsFrom(board[1..], seen + {board[0].rank.Value()})
  }

  /** `isPairOnBoard`: some rank value occurs twice on the board. */
  predicate IsPairOnBoard(board: seq<Card>)
  {
    RepeatsFrom(board, {})
  }

  /** The scan finds a repeat exactly when a card repeats a value seen earlier
      or two cards of the rest share a value. */
  lemma {:induction false} RepeatsFromIff(board: seq<Card>, seen: set<int>)
    ensures RepeatsFrom(board, seen) <==>
      (exists i :: 0 <= i < |board| && board[i].rank.Value() in seen) ||
      (exists i, j :: 0 <= i < j < |board| && board[i].rank.Value() == board[j].rank.Value())
    decreases |board|
  {
    if |board| > 0 {
      var v := board[0].rank.Value();
      if v !in seen {
        RepeatsFromIff(board[1..], seen + {v});
        var rest := board[1..];
        if RepeatsFrom(board, seen) {
          if i :| 0 <= i < |rest| && rest[i].rank.Value() in seen + {v} {
            if rest[i].rank.Value() == v {
              assert board[0].rank.Value() == board[i + 1].rank.Value();
            } else {
              assert board[i + 1].rank.Value() in seen;
            }
          } else {
            var i, j :| 0 <= i < j < |rest| && rest[i].rank.Value() == rest[j].rank.Value();
            assert board[i + 1].rank.Value() == board[j + 1].rank.Value();
          }
        } else {
          forall i | 0 <= i < |board|
            ensures board[i].rank.Value() !in seen
          {
            if i > 0 { assert board[i] == rest[i - 1]; }
          }
          forall i, j | 0 <= i < j < |board|
            ensures board[i].rank.Value() != board[j].rank.Value()
          {
            assert board[j] == rest[j - 1];
            if i > 0 { assert board[i] == rest[i - 1]; }
          }
        }
      }
    }
  }

  /** `isPairOnBoard` holds exactly when two board cards share a rank value. */
  lemma {:induction false} PairOnBoardIff(board: seq<Card>)
    ensures IsPairOnBoard(board) <==>
      exists i, j :: 0 <= i < j < |board| && board[i].rank.Value() == board[j].rank.Value()
  {
    RepeatsFromIff(board, {});
  }

  /** `isFlushDraw`: among hand and board some suit has exactly four cards. */
  predicate IsFlushDraw(myHand: seq<Card>, board: seq<Card>)
  {
    var all := myHand + board;
    SuitCount(all, Hearts) == 4 || SuitCount(all, Diamonds) == 4 ||
    SuitCount(all, Clubs) == 4 || SuitCount(all, Spades) == 4
  }

  /** The four suit counts add up to the number of cards. */
  lemma {:induction false} SuitCountsSum(cards: seq<Card>)
    ensures SuitCount(cards, Hearts) + SuitCount(cards, Diamonds) +
            SuitCount(cards, Clubs) + SuitCount(cards, Spades) == |cards|
  {
    if |cards| > 0 {
      SuitCountsSum(cards[..|cards| - 1]);
    }
  }

  /** Exactly four of the cards share a suit. */
  ghost predicate SuitOfFour(cards: seq<Card>)
  {
    exists s: Suit :: SuitCount(cards, s) == 4
  }

  /** A flush draw is a suit with exactly four cards, whichever suit it is. */
  lemma {:induction false} FlushDrawIff(myHand: seq<Card>, board: seq<Card>)
    ensures IsFlushDraw(myHand, board) <==> SuitOfFour(myHand + board)
  {
    var all := myHand + board;
    if SuitOfFour(all) {
      var s: Suit :| SuitCount(all, s) == 4;
      match s
      case Hearts => case Diamonds => case Clubs => case Spades =>
    }
  }

  /** With at most seven cards, a made flush (five or more of one suit) leaves
      no room for four of another suit, so it is not reported as a draw. */
  lemma {:induction false} MadeFlushIsNoDraw(myHand: seq<Card>, board: seq<Card>, s: Suit)
    requires |myHand + board| <= 7
    requires SuitCount(myHand + board, s) >= 5
    ensures !IsFlushDraw(myHand, board)
  {
    SuitCountsSum(myHand + board);
  }

  /** The rank values with an ace also counted as 1. */
  function WithLowAce(vs: set<int>): (ws: set<int>)
    ensures ws == vs || (14 in vs && ws == vs + {1})
    ensures 1 in ws <==> 1 in vs || 14 in vs
  {
    if 14 in vs then vs + {1} else vs
  }

  /** `isStraightDraw`: four distinct rank values of hand and board, the ace
      also counting as 1, lie within a span of 4. */
  predicate IsStraightDraw(myHand: seq<Card>, board: seq<Card>)
  {
    HasWindow(Ascending(WithLowAce(RankValues(myHand + board)), LowestRank), 4)
  }

  /** In a strictly ascending sequence the smaller of two entries comes first. */
  lemma {:induction false} IndexOrder(sq: seq<int>, p: int, q: int)
    requires Increasing(sq)
    requires 0 <= p < |sq| && 0 <= q < |sq| && sq[p] < sq[q]
    ensures p < q
  {
  }

  /** Four distinct members of `vs` lie within a span of 4. */
  ghost predicate FourWithinSpan(vs: set<int>)
  {
    exists a, b, c, d :: a in vs && b in vs && c in vs && d in vs &&
                         a < b < c < d && d - a <= 4
  }

  /** Three distinct members of `vs` lie within a span of 4. */
  ghost predicate ThreeWithinSpan(vs: set<int>)
  {
    exists a, b, c :: a in vs && b in vs && c in vs && a < b < c && c - a <= 4
  }

  /** A window of four entries yields four members within a span of 4. */
  lemma {:induction false} WindowMembersFour(sq: seq<int>) returns (a: int, b: int, c: int, d: int)
    requires Increasing(sq)
    requires HasWindow(sq, 4)
    ensures a in sq && b in sq && c in sq && d in sq && a < b < c < d && d - a <= 4
  {
    var i, j :| 0 <= i < |sq| && 0 <= j < |sq| && j == i + 3 && sq[j] - sq[i] <= 4;
    a, b, c, d := sq[i], sq[i + 1], sq[i + 2], sq[i + 3];
  }

  /** Four members within a span of 4 lie in a window of four entries: in a
      strictly ascending sequence nothing fits between them but themselves. */
  lemma {:induction false} MembersWindowFour(sq: seq<int>, a: int, b: int, c: int, d: int)
    requires Increasing(sq)
    requires a in sq && b in sq && c in sq && d in sq && a < b < c < d && d - a <= 4
    ensures HasWindow(sq, 4)
  {
    var ia :| 0 <= ia < |sq| && sq[ia] == a;
    var ib :| 0 <= ib < |sq| && sq[ib] == b;
    var ic :| 0 <= ic < |sq| && sq[ic] == c;
    var id :| 0 <= id < |sq| && sq[id] == d;
    IndexOrder(sq, ia, ib);
    IndexOrder(sq, ib, ic);
    IndexOrder(sq, ic, id);
    if ia + 3 < id {
      assert sq[ia + 3] < sq[id];
    }
    assert 0 <= ia < |sq| && 0 <= ia + 3 < |sq| && sq[ia + 3] - sq[ia] <= 4;
  }

  /** A window of three entries yields three members within a span of 4. */
  lemma {:induction false} WindowMembersThree(sq: seq<int>) returns (a: int, b: int, c: int)
    requires Increasing(sq)
    requires HasWindow(sq, 3)
    ensures a in sq && b in sq && c in sq && a < b < c && c - a <= 4
  {
    var i, j :| 0 <= i < |sq| && 0 <= j < |sq| && j == i + 2 && sq[j] - sq[i] <= 4;
    a, b, c := sq[i], sq[i + 1], sq[i + 2];
  }

  /** Three members within a span of 4 lie in a window of three entries. */
  lemma {:induction false} MembersWindowThree(sq: seq<int>, a: int, b: int, c: int)
    requires Increasing(sq)
    requires a in sq && b in sq && c in sq && a < b < c && c - a <= 4
    ensures HasWindow(sq, 3)
  {
    var ia :| 0 <= ia < |sq| && sq[ia] == a;
    var ib :| 0 <= ib < |sq| && sq[ib] == b;
    var ic :| 0 <= ic < |sq| && sq[ic] == c;
    IndexOrder(sq, ia, ib);
    IndexOrder(sq, ib, ic);
    if ia + 2 < ic {
      assert sq[ia + 2] < sq[ic];
    }
    assert 0 <= ia < |sq| && 0 <= ia + 2 < |sq| && sq[ia + 2] - sq[ia] <= 4;
  }

  /** Sorting a set of values in `lo..14` and scanning for four in a
      row within a span of 4 finds exactly four members within a span of 4. */
  lemma {:induction false} WindowOfFour(vs: set<int>, lo: int)
    requires 1 <= lo
    requires forall v :: v in vs ==> lo <= v <= 14
    ensures HasWindow(Ascending(vs, lo), 4) <==>
      FourWithinSpan(vs)
  {
    var sq := Ascending(vs, lo);
    AscendingMembers(vs, lo);
    AscendingStrict(vs, lo);
    if HasWindow(sq, 4) {
      var a, b, c, d := WindowMembersFour(sq);
      assert a in vs && b in vs && c in vs && d in vs;
    }
    forall a, b, c, d | a in vs && b in vs && c in vs && d in vs && a < b < c < d && d - a <= 4
      ensures HasWindow(sq, 4)
    {
      assert a in sq && b in sq && c in sq && d in sq;
      MembersWindowFour(sq, a, b, c, d);
    }
  }

  /** The same for three in a row. */
  lemma {:induction false} WindowOfThree(vs: set<int>, lo: int)
    requires 1 <= lo
    requires forall v :: v in vs ==> lo <= v <= 14
    ensures HasWindow(Ascending(vs, lo), 3) <==>
      ThreeWithinSpan(vs)
  {
    var sq := Ascending(vs, lo);
    AscendingMembers(vs, lo);
    AscendingStrict(vs, lo);
    if HasWindow(sq, 3) {
      var a, b, c := WindowMembersThree(sq);
      assert a in vs && b in vs && c in vs;
    }
    forall a, b, c | a in vs && b in vs && c in vs && a < b < c && c - a <= 4
      ensures HasWindow(sq, 3)
    {
      assert a in sq && b in sq && c in sq;
      MembersWindowThree(sq, a, b, c);
    }
  }

  /** A straight draw is four distinct rank values, an ace counting both as
      14 and as 1, within a span of 4. */
  lemma {:induction false} StraightDrawIff(myHand: seq<Card>, board: seq<Card>)
    ensures var vs := WithLowAce(RankValues(myHand + board));
      IsStraightDraw(myHand, board) <==>
      FourWithinSpan(vs)
  {
    WindowOfFour(WithLowAce(RankValues(myHand + board)), LowestRank);
  }

  /** Ace, deuce, trey and four among hand and board make a straight draw:
      the ace plays low. */
  lemma {:induction false} WheelDraw(myHand: seq<Card>, board: seq<Card>, a: Card, b: Card, c: Card, d: Card)
    requires a in myHand + board && b in myHand + board
    requires c in myHand + board && d in myHand + board
    requires a.rank == Ace && b.rank == Two && c.rank == Three && d.rank == Four
    ensures IsStraightDraw(myHand, board)
  {
    var all := myHand + board;
    var vs := WithLowAce(RankValues(all));
    assert 14 in RankValues(all) && 2 in vs && 3 in vs && 4 in vs;
    assert 1 in vs;
    StraightDrawIff(myHand, board);
  }

  /** `isSetMining`: a pocket pair none of whose rank is on the board. The
      hand must hold two cards, as `myHand.get(1)` demands. */
  predicate IsSetMining(myHand: seq<Card>, board: seq<Card>)
    requires |myHand| >= 2
  {
    myHand[0].rank == myHand[1].rank && RankValueCount(board, myHand[0].rank.Value()) == 0
  }

  /** Set mining is a pocket pair whose rank no board card shares. */
  lemma {:induction false} SetMiningIff(myHand: seq<Card>, board: seq<Card>)
    requires |myHand| >= 2
    ensures IsSetMining(myHand, board) <==>
      myHand[0].rank == myHand[1].rank &&
      forall i :: 0 <= i < |board| ==> board[i].rank != myHand[0].rank
  {
    if myHand[0].rank == myHand[1].rank {
      if RankValueCount(board, myHand[0].rank.Value()) != 0 {
        var i :| 0 <= i < |board| && board[i].rank.Value() == myHand[0].rank.Value();
        RankValueInjective(board[i].rank, myHand[0].rank);
      }
    }
  }

  /** Equal rank values mean equal ranks. */
  lemma {:induction false} RankValueInjective(p: Rank, q: Rank)
    requires p.Value() == q.Value()
    ensures p == q
  {
  }

  /** `checkBoardTexture`: a board of three or more cards is wet when three
      cards share a suit, or when three distinct rank values lie within a
      span of 4 (here the ace counts only as 14). */
  predicate CheckBoardTexture(board: seq<Card>)
  {
    if |board| < 3 then false
    else if SuitCount(board, Hearts) >= 3 || SuitCount(board, Diamonds) >= 3 ||
            SuitCount(board, Clubs) >= 3 || SuitCount(board, Spades) >= 3 then true
    else HasWindow(Ascending(RankValues(board), LowestRank), 3)
  }

  /** Three board cards share a suit. */
  ghost predicate SuitOfThree(board: seq<Card>)
  {
    exists s: Suit :: SuitCount(board, s) >= 3
  }

  /** The per-suit scan finds three of a suit exactly when some suit has three. */
  lemma {:induction false} SuitOfThreeIff(board: seq<Card>)
    ensures SuitOfThree(board) <==>
      SuitCount(board, Hearts) >= 3 || SuitCount(board, Diamonds) >= 3 ||
      SuitCount(board, Clubs) >= 3 || SuitCount(board, Spades) >= 3
  {
    if SuitOfThree(board) {
      var s: Suit :| SuitCount(board, s) >= 3;
      match s
      case Hearts => case Diamonds => case Clubs => case Spades =>
    }
  }

  /** A wet board: three or more cards, and either three of a suit or three
      distinct rank values within a span of 4. */
  lemma {:induction false} BoardTextureIff(board: seq<Card>)
    ensures CheckBoardTexture(board) <==>
      |board| >= 3 && (SuitOfThree(board) || ThreeWithinSpan(RankValues(board)))
  {
    ConnectedIff(board);
    SuitOfThreeIff(board);
  }

  /** The sorted-and-deduplicated scan of the board's rank values finds three
      in a row within a span of 4 exactly when three distinct values lie
      within a span of 4. */
  lemma {:induction false} ConnectedIff(board: seq<Card>)
    ensures HasWindow(Ascending(RankValues(board), LowestRank), 3) <==>
            ThreeWithinSpan(RankValues(board))
  {
    WindowOfThree(RankValues(board), LowestRank);
  }

  /** On the board the ace plays only high: a board of ace, deuce and trey
      (and nothing else) is wet only through its suits, although the same
      ranks in a hand make a wheel draw. */
  lemma {:induction false} AceOnlyHighOnBoard(board: seq<Card>)
    requires RankValues(board) == {2, 3, 14}
    ensures !ThreeWithinSpan(RankValues(board))
    ensures ThreeWithinSpan(WithLowAce(RankValues(board)))
    ensures CheckBoardTexture(board) <==> |board| >= 3 && SuitOfThree(board)
  {
    BoardTextureIff(board);
    assert 1 in WithLowAce(RankValues(board));
  }

  /** `calculateImpliedOddsScale`: a priority table (set mining, then flush
      plus straight draw, flush draw, straight draw, nothing), halved on the
      turn and zero once the board is complete. */
  function ImpliedOddsScale(isSetMining: bool, isFlushDraw: bool, isStraightDraw: bool,
                            boardSize: int): (scale: real)
    ensures boardSize >= 5 ==> scale == 0.0
    ensures boardSize < 4 ==> 0.1 <= scale <= 1.0
    ensures boardSize == 4 ==> 0.05 <= scale <= 0.5
    ensures isSetMining && boardSize < 4 ==> scale == 0.9
  {
    if boardSize >= 5 then 0.0
    else
      var scale :=
        if isSetMining then 0.9
        else if isFlushDraw && isStraightDraw then 1.0
        else if isFlushDraw then 0.8
        else if isStraightDraw then 0.7
        else 0.1;
      if boardSize == 4 then scale * 0.5 else scale
  }

  /** On the turn the scale is half the scale with fewer board cards. */
  lemma {:induction false} TurnHalvesScale(m: bool, f: bool, s: bool, earlier: int)
    requires earlier < 4
    ensures ImpliedOddsScale(m, f, s, 4) == ImpliedOddsScale(m, f, s, earlier) * 0.5
  {
  }

  /** Without a set-mining hand, more draws never lower the scale. */
  lemma {:induction false} ScaleMonotoneInDraws(f1: bool, s1: bool, f2: bool, s2: bool, boardSize: int)
    requires f1 ==> f2
    requires s1 ==> s2
    ensures ImpliedOddsScale(false, f1, s1, boardSize) <= ImpliedOddsScale(false, f2, s2, boardSize)
  {
  }
}
