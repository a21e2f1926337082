// What `calculateWinRateFast` computes, stated as functions: the compacted
// deck of unused codes, the partial Fisher-Yates shuffle driven by the
// random draws, the classification of one trial, and the win and tie tallies
// over all trials. The random source is a parameter: `draws[t][j]` is the
// value `random.nextInt(deckSize - j)` returns in trial t.

module Simulation {
  import opened Cards
  import opened HandEval

  /** `SIMULATION_COUNT`. */
  const SimulationCount: nat := 5000

  datatype Outcome = Win | Tie | Loss

  /** `toIntArray`: each card's code `suit * 13 + (rank - 2)`. */
  function Codes(cards: seq<Card>): (ks: seq<int>)
    ensures |ks| == |cards| && ValidCodes(ks)
    ensures forall i :: 0 <= i < |cards| ==> CardOf(ks[i]) == Some(cards[i])
  {
    seq(|cards|, i requires 0 <= i < |cards| => CodeRoundTrip(cards[i], 0); Code(cards[i]))
  }

  // ------------------------------------------------------------- the deck

  /** `usedCards`: a code is marked when it is among the hand's or the
      board's codes. */
  function Marked(codes: seq<int>): (used: seq<bool>)
    ensures |used| == 52
  {
    seq(52, i => i in codes)
  }

  /** The codes below `hi` not marked used, in ascending order. */
  function Undealt(used: seq<bool>, hi: int): (d: seq<int>)
    requires 0 <= hi <= |used|
    ensures |d| <= hi
  {
    if hi == 0 then []
    else Undealt(used, hi - 1) + (if used[hi - 1] then [] else [hi - 1])
  }

  /** The `deck` buffer after set-up: the unused codes, then the zeros it was
      allocated with. */
  function InitialDeck(used: seq<bool>): (d: seq<int>)
    requires |used| == 52
    ensures |d| == 52
  {
    var u := Undealt(used, 52);
    u + seq(52 - |u|, _ => 0)
  }

  // ------------------------------------------------------------ the shuffle

  /** The draws of one trial are in range: `nextInt(deckSize - j)` returns a
      value in [0, deckSize - j) for every slot j shuffled. */
  predicate DrawsFit(offsets: seq<int>, deckSize: int, n: int)
  {
    n <= |offsets| && forall j :: 0 <= j < n ==> 0 <= offsets[j] < deckSize - j
  }

  /** Exchange of two positions. */
  function Swap(d: seq<int>, i: int, j: int): (e: seq<int>)
    requires 0 <= i < |d| && 0 <= j < |d|
    ensures |e| == |d|
  {
    d[i := d[j]][j := d[i]]
  }

  /** The deck after the first `n` slots were shuffled: slot j is exchanged
      with slot `j + offsets[j]`. */
  function Shuffled(d: seq<int>, deckSize: int, offsets: seq<int>, n: int): (e: seq<int>)
    requires n <= deckSize <= |d| && 0 <= deckSize && DrawsFit(offsets, deckSize, n)
    ensures |e| == |d|
    decreases n
  {
    if n <= 0 then d
    else Swap(Shuffled(d, deckSize, offsets, n - 1), n - 1, n - 1 + offsets[n - 1])
  }

  // ------------------------------------------------------------- the trials

  /** The inputs of one simulation: the hero's codes, the known board's
      codes, the number of opponents and the random draws of every trial. */
  datatype Sim = Sim(hand: seq<int>, board: seq<int>, numOpponents: int, draws: seq<seq<int>>)

  /** `deckSize` after set-up. */
  function DeckSize(s: Sim): (n: int)
    ensures 0 <= n <= 52
  {
    |Undealt(Marked(s.hand + s.board), 52)|
  }

  /** `cardsToDealBoard`. */
  function ToDeal(s: Sim): int
  {
    5 - |s.board|
  }

  /** `cardsNeeded`. */
  function Needed(s: Sim): int
  {
    ToDeal(s) + s.numOpponents * 2
  }

  /** A value of Java's 32-bit `int`. */
  predicate FitsInt(x: int)
  {
    -0x8000_0000 <= x < 0x8000_0000
  }

  /** `numOpponents * 2` and `cardsNeeded` are computed in `int` without
      wrapping around. */
  predicate NeededFitsInt(s: Sim)
  {
    FitsInt(s.numOpponents * 2) && FitsInt(Needed(s))
  }

  /** The inputs on which the source throws: `nextInt(0)` once the shuffle
      runs past the deck, a board too long for `currentBoard`, or a hand
      without two cards. */
  predicate Fails(s: Sim)
  {
    Needed(s) > DeckSize(s) || |s.board| > 5 || |s.hand| < 2
  }

  predicate DrawsInRange(s: Sim)
  {
    forall t :: 0 <= t < |s.draws| ==> DrawsFit(s.draws[t], DeckSize(s), Needed(s))
  }

  predicate WellFormed(s: Sim)
  {
    ValidCodes(s.hand) && ValidCodes(s.board) && !Fails(s) && DrawsInRange(s)
  }

  /** The deck after t trials: each trial shuffles the deck the previous one
      left behind. */
  function DeckAt(s: Sim, t: int): (d: seq<int>)
    requires WellFormed(s) && 0 <= t <= |s.draws|
    ensures |d| == 52 && ValidCodes(d)
  {
    if t == 0 then InitialDeckValid(Marked(s.hand + s.board)); InitialDeck(Marked(s.hand + s.board))
    else
      var d := DeckAt(s, t - 1);
      ShuffledValid(d, DeckSize(s), s.draws[t - 1], Needed(s));
      Shuffled(d, DeckSize(s), s.draws[t - 1], Needed(s))
  }

  /** `currentBoard`: the known board, completed from the top of the deck. */
  function FullBoard(s: Sim, deck: seq<int>): (b: seq<int>)
    requires |s.board| <= 5 && |deck| == 52
    ensures |b| == 5
  {
    s.board + deck[..ToDeal(s)]
  }

  /** Opponent k's score: the next two deck cards after the board's and
      those of the k opponents before, with the board. */
  function OpponentScore(deck: seq<int>, toDeal: int, k: int, board: seq<int>): int
    requires ValidCodes(deck) && ValidCodes(board) && 0 <= toDeal && 0 <= k
    requires toDeal + 2 * k + 1 < |deck|
  {
    var cards := [deck[toDeal + 2 * k], deck[toDeal + 2 * k + 1]] + board;
    assert ValidCodes(cards);
    HandScore(cards)
  }

  /** The scores of all opponents, in seat order. */
  function OpponentScores(deck: seq<int>, toDeal: int, n: int, board: seq<int>): (scores: seq<int>)
    requires ValidCodes(deck) && ValidCodes(board) && 0 <= toDeal
    requires n <= 0 || toDeal + 2 * n <= |deck|
    ensures |scores| == if n <= 0 then 0 else n
  {
    if n <= 0 then []
    else seq(n, k requires 0 <= k < n => OpponentScore(deck, toDeal, k, board))
  }

  /** A trial is lost when some opponent scores higher, tied when none does
      and some opponent scores the same, and won otherwise. */
  function Classify(hero: int, opponents: seq<int>): (o: Outcome)
    ensures o == Win <==> forall k :: 0 <= k < |opponents| ==> opponents[k] < hero
    ensures o == Tie <==> (forall k :: 0 <= k < |opponents| ==> opponents[k] <= hero) &&
                          exists k :: 0 <= k < |opponents| && opponents[k] == hero
  {
    if exists k :: 0 <= k < |opponents| && opponents[k] > hero then Loss
    else if exists k :: 0 <= k < |opponents| && opponents[k] == hero then Tie
    else Win
  }

  /** The outcome of a trial played on `deck`. */
  function TrialOutcome(s: Sim, deck: seq<int>): Outcome
    requires WellFormed(s) && |deck| == 52 && ValidCodes(deck)
  {
    var board := FullBoard(s, deck);
    assert ValidCodes(board);
    Classify(HandScore([s.hand[0], s.hand[1]] + board),
             OpponentScores(deck, ToDeal(s), s.numOpponents, board))
  }

  /** The number of the first t trials with outcome o. */
  function Tally(s: Sim, t: int, o: Outcome): (c: nat)
    requires WellFormed(s) && 0 <= t <= |s.draws|
    ensures c <= t
  {
    if t == 0 then 0
    else Tally(s, t - 1, o) + (if TrialOutcome(s, DeckAt(s, t)) == o then 1 else 0)
  }

  /** `(wins + 0.5 * ties) / SIMULATION_COUNT`, which lies in [0, 1] when
      wins and ties together are at most the number of trials. */
  function Equity(wins: int, ties: int): (e: real)
    ensures 0 <= wins && 0 <= ties && wins + ties <= SimulationCount ==> 0.0 <= e <= 1.0
  {
    (wins as real + 0.5 * ties as real) / SimulationCount as real
  }

  // ----------------------------------------------------------------- lemmas

  /** The completed board, and the hero's seven cards, are valid codes. */
  lemma FullBoardValid(s: Sim, deck: seq<int>)
    requires WellFormed(s) && |deck| == 52 && ValidCodes(deck)
    ensures ValidCodes(FullBoard(s, deck))
    ensures ValidCodes([s.hand[0], s.hand[1]] + FullBoard(s, deck))
  {
    var b := FullBoard(s, deck);
    forall k | 0 <= k < 5 ensures 0 <= b[k] < 52 {
      if k < |s.board| {
        assert b[k] == s.board[k];
      } else {
        assert b[k] == deck[k - |s.board|];
      }
    }
  }

  lemma InitialDeckValid(used: seq<bool>)
    requires |used| == 52
    ensures ValidCodes(InitialDeck(used))
  {
    var u := Undealt(used, 52);
    UndealtIsAscending(used, 52);
    assert InitialDeck(used) == u + seq(52 - |u|, _ => 0);
  }

  lemma {:induction false} ShuffledValid(d: seq<int>, deckSize: int, offsets: seq<int>, n: int)
    requires n <= deckSize <= |d| && 0 <= deckSize && DrawsFit(offsets, deckSize, n)
    requires ValidCodes(d)
    ensures ValidCodes(Shuffled(d, deckSize, offsets, n))
    decreases n
  {
    if n > 0 {
      ShuffledValid(d, deckSize, offsets, n - 1);
    }
  }

  /** The deck after set-up lists the unused codes below hi, ascending. */
  lemma {:induction false} UndealtIsAscending(used: seq<bool>, hi: int)
    requires 0 <= hi <= |used|
    ensures forall i :: 0 <= i < |Undealt(used, hi)| ==> 0 <= Undealt(used, hi)[i] < hi
    ensures forall i, j :: 0 <= i < j < |Undealt(used, hi)| ==> Undealt(used, hi)[i] < Undealt(used, hi)[j]
  {
    if hi > 0 {
      UndealtIsAscending(used, hi - 1);
    }
  }

  /** A code below hi is listed exactly when it is not marked. */
  lemma {:induction false} UndealtMembers(used: seq<bool>, hi: int)
    requires 0 <= hi <= |used|
    ensures forall x :: x in Undealt(used, hi) <==> 0 <= x < hi && !used[x]
  {
    if hi > 0 {
      UndealtMembers(used, hi - 1);
      UndealtIsAscending(used, hi - 1);
    }
  }

  /** The number of marked codes below hi. */
  function NumMarked(used: seq<bool>, hi: int): nat
    requires 0 <= hi <= |used|
  {
    if hi == 0 then 0 else NumMarked(used, hi - 1) + (if used[hi - 1] then 1 else 0)
  }

  lemma {:induction false} UndealtLength(used: seq<bool>, hi: int)
    requires 0 <= hi <= |used|
    ensures |Undealt(used, hi)| == hi - NumMarked(used, hi)
  {
    if hi > 0 {
      UndealtLength(used, hi - 1);
    }
  }

  /** Marked codes below hi are exactly the codes below hi that occur. */
  lemma {:induction false} NumMarkedIsDistinctCount(codes: seq<int>, hi: int)
    requires 0 <= hi <= 52
    ensures NumMarked(Marked(codes), hi) == |set x | x in codes && 0 <= x < hi|
  {
    var below := set x | x in codes && 0 <= x < hi;
    if hi == 0 {
      assert below == {};
    } else {
      NumMarkedIsDistinctCount(codes, hi - 1);
      var prev := set x | x in codes && 0 <= x < hi - 1;
      if hi - 1 in codes {
        assert below == prev + {hi - 1};
      } else {
        assert below == prev;
      }
    }
  }

  /** After set-up, `deck[0..deckSize)` holds exactly the codes absent from
      hand and board, in ascending order, and `deckSize` is 52 less the
      number of distinct codes used. */
  lemma DeckSetUp(s: Sim)
    requires ValidCodes(s.hand) && ValidCodes(s.board)
    ensures var d, n := InitialDeck(Marked(s.hand + s.board)), DeckSize(s);
      && (forall x :: x in d[..n] <==> 0 <= x < 52 && x !in s.hand && x !in s.board)
      && (forall i, j :: 0 <= i < j < n ==> d[i] < d[j])
      && n == 52 - |set x | x in s.hand + s.board|
  {
    var codes := s.hand + s.board;
    var used := Marked(codes);
    UndealtIsAscending(used, 52);
    UndealtMembers(used, 52);
    var u := Undealt(used, 52);
    assert InitialDeck(used)[..|u|] == u;
    UndealtLength(used, 52);
    NumMarkedIsDistinctCount(codes, 52);
    assert (set x | x in codes && 0 <= x < 52) == (set x | x in codes);
  }

  /** One exchange permutes the deck's first `k` slots. */
  lemma SwapPermutes(d: seq<int>, i: int, j: int, k: int)
    requires 0 <= i < k && 0 <= j < k && k <= |d|
    ensures multiset(Swap(d, i, j)[..k]) == multiset(d[..k])
  {
    var e := Swap(d, i, j);
    assert e[..k] == d[..k][i := d[j]][j := d[i]];
  }

  /** One exchange keeps what lies past both slots. */
  lemma SwapKeepsRest(d: seq<int>, i: int, j: int, k: int)
    requires 0 <= i < k && 0 <= j < k && k <= |d|
    ensures Swap(d, i, j)[k..] == d[k..]
  {
  }

  /** The partial shuffle leaves `deck[0..deckSize)` a permutation of its
      prior contents and the rest of the buffer untouched. */
  lemma ShuffledPermutes(d: seq<int>, deckSize: int, offsets: seq<int>, n: int)
    requires n <= deckSize <= |d| && 0 <= deckSize && DrawsFit(offsets, deckSize, n)
    ensures multiset(Shuffled(d, deckSize, offsets, n)[..deckSize]) == multiset(d[..deckSize])
    ensures Shuffled(d, deckSize, offsets, n)[deckSize..] == d[deckSize..]
  {
    ShuffledPermutesFront(d, deckSize, offsets, n);
    ShuffledKeepsRest(d, deckSize, offsets, n);
  }

  lemma {:induction false} ShuffledPermutesFront(d: seq<int>, deckSize: int, offsets: seq<int>, n: int)
    requires n <= deckSize <= |d| && 0 <= deckSize && DrawsFit(offsets, deckSize, n)
    ensures multiset(Shuffled(d, deckSize, offsets, n)[..deckSize]) == multiset(d[..deckSize])
    decreases n
  {
    if n > 0 {
      assert DrawsFit(offsets, deckSize, n - 1);
      ShuffledPermutesFront(d, deckSize, offsets, n - 1);
      var e := Shuffled(d, deckSize, offsets, n - 1);
      var r := n - 1 + offsets[n - 1];
      assert Shuffled(d, deckSize, offsets, n) == Swap(e, n - 1, r);
      SwapPermutes(e, n - 1, r, deckSize);
    }
  }

  lemma {:induction false} ShuffledKeepsRest(d: seq<int>, deckSize: int, offsets: seq<int>, n: int)
    requires n <= deckSize <= |d| && 0 <= deckSize && DrawsFit(offsets, deckSize, n)
    ensures Shuffled(d, deckSize, offsets, n)[deckSize..] == d[deckSize..]
    decreases n
  {
    if n > 0 {
      assert DrawsFit(offsets, deckSize, n - 1);
      ShuffledKeepsRest(d, deckSize, offsets, n - 1);
      var e := Shuffled(d, deckSize, offsets, n - 1);
      var r := n - 1 + offsets[n - 1];
      SwapKeepsRest(e, n - 1, r, deckSize);
    }
  }

  /** Every trial's deck is a permutation of the deck after set-up. */
  lemma {:induction false} DeckAtPermutes(s: Sim, t: int)
    requires WellFormed(s) && 0 <= t <= |s.draws|
    ensures var d0 := InitialDeck(Marked(s.hand + s.board));
      multiset(DeckAt(s, t)[..DeckSize(s)]) == multiset(d0[..DeckSize(s)]) &&
      DeckAt(s, t)[DeckSize(s)..] == d0[DeckSize(s)..]
  {
    if t > 0 {
      DeckAtPermutes(s, t - 1);
      var prev := DeckAt(s, t - 1);
      ShuffledPermutes(prev, DeckSize(s), s.draws[t - 1], Needed(s));
      assert DeckAt(s, t) == Shuffled(prev, DeckSize(s), s.draws[t - 1], Needed(s));
    }
  }

  lemma MultisetDistinct(a: seq<int>, b: seq<int>)
    requires multiset(a) == multiset(b)
    requires forall i, j :: 0 <= i < j < |a| ==> a[i] != a[j]
    ensures forall i, j :: 0 <= i < j < |b| ==> b[i] != b[j]
  {
    forall i, j | 0 <= i < j < |b| ensures b[i] != b[j] {
      if b[i] == b[j] {
        var x := b[i];
        assert b == b[..i] + [x] + b[i + 1..j] + [x] + b[j + 1..];
        assert multiset(b)[x] >= 2;
        MultisetAtMostOne(a, x);
        assert false;
      }
    }
  }

  lemma {:induction false} MultisetAtMostOne(a: seq<int>, x: int)
    requires forall i, j :: 0 <= i < j < |a| ==> a[i] != a[j]
    ensures multiset(a)[x] <= 1
  {
    if |a| > 0 {
      var init := a[..|a| - 1];
      assert a == init + [a[|a| - 1]];
      MultisetAtMostOne(init, x);
      if a[|a| - 1] == x {
        assert x !in init;
      }
    }
  }

  /** Every undealt slot of the deck holds a card absent from hand and board. */
  lemma {:induction false} DeckAtUnused(s: Sim, t: int)
    requires WellFormed(s) && 0 <= t <= |s.draws|
    ensures var d := DeckAt(s, t);
      forall i :: 0 <= i < DeckSize(s) ==> d[i] !in s.hand && d[i] !in s.board
  {
    var n := DeckSize(s);
    var d0 := InitialDeck(Marked(s.hand + s.board));
    var d := DeckAt(s, t);
    DeckSetUp(s);
    DeckAtPermutes(s, t);
    forall i | 0 <= i < n ensures d[i] !in s.hand && d[i] !in s.board {
      assert d[..n][i] == d[i];
      SameMultisetSameMembers(d[..n], d0[..n], d[i]);
    }
  }

  lemma SameMultisetSameMembers(a: seq<int>, b: seq<int>, x: int)
    requires multiset(a) == multiset(b)
    requires x in a
    ensures x in b
  {
    assert x in multiset(a);
  }

  /** The undealt slots of the deck hold distinct cards. */
  lemma {:induction false} DeckAtDistinct(s: Sim, t: int)
    requires WellFormed(s) && 0 <= t <= |s.draws|
    ensures var d := DeckAt(s, t);
      forall i, j :: 0 <= i < j < DeckSize(s) ==> d[i] != d[j]
  {
    var n := DeckSize(s);
    var d0 := InitialDeck(Marked(s.hand + s.board));
    var d := DeckAt(s, t);
    DeckSetUp(s);
    DeckAtPermutes(s, t);
    MultisetDistinct(d0[..n], d[..n]);
    forall i, j | 0 <= i < j < n ensures d[i] != d[j] {
      assert d[..n][i] == d[i] && d[..n][j] == d[j];
    }
  }

  /** Every card dealt in any trial (to the board or to an opponent) is a code
      absent from the hand and the board, and no code is dealt twice. */
  lemma {:induction false} DealtCardsAreUnused(s: Sim, t: int)
    requires WellFormed(s) && 0 <= t <= |s.draws|
    ensures var d := DeckAt(s, t);
      && (forall i :: 0 <= i < Needed(s) ==> d[i] !in s.hand && d[i] !in s.board)
      && (forall i, j :: 0 <= i < j < Needed(s) ==> d[i] != d[j])
  {
    DeckAtUnused(s, t);
    DeckAtDistinct(s, t);
  }

  /** Wins and ties never exceed the number of trials. */
  lemma {:induction false} TallyBound(s: Sim, t: int)
    requires WellFormed(s) && 0 <= t <= |s.draws|
    ensures Tally(s, t, Win) + Tally(s, t, Tie) <= t
  {
    if t > 0 {
      TallyBound(s, t - 1);
    }
  }
}
