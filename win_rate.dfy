// `calculateWinRateFast` as the array code it is: mark the used codes,
// compact the unused ones into `deck`, and run the trials, each a partial
// Fisher-Yates shuffle, a board completion, the hero's evaluation and the
// opponents' evaluations with an early exit on a loss. Each phase is one
// method proved against the functions of `Simulation`.

module WinRate {
  import opened Cards
  import opened HandEval
  import opened FastEvaluator
  import opened Simulation

  /** `toIntArray`. */
  method ToIntArray(cards: seq<Card>) returns (arr: array<int>)
    ensures fresh(arr) && arr[..] == Codes(cards)
  {
    arr := new int[|cards|];
    var i := 0;
    while i < |cards|
      invariant 0 <= i <= |cards|
      invariant arr[..i] == Codes(cards)[..i]
    {
      var c := cards[i];
      var r := c.rank.Value() - 2;
      var s := c.suit.Ordinal();
      arr[i] := s * 13 + r;
      assert arr[i] == Code(c) by {
        assert Code(c) % 13 == r && Code(c) / 13 == s;
      }
      i := i + 1;
    }
  }

  /** `usedCards[c] = true` for every code of the hand and the board. */
  method MarkUsed(myHand: array<int>, knownBoard: array<int>) returns (usedCards: array<bool>)
    requires ValidCodes(myHand[..]) && ValidCodes(knownBoard[..])
    ensures fresh(usedCards) && usedCards[..] == Marked(myHand[..] + knownBoard[..])
  {
    usedCards := new bool[52](_ => false);
    for i := 0 to myHand.Length
      invariant usedCards.Length == 52
      invariant forall x :: 0 <= x < 52 ==> (usedCards[x] <==> x in myHand[..i])
    {
      usedCards[myHand[i]] := true;
      assert myHand[..i + 1] == myHand[..i] + [myHand[i]];
    }
    assert myHand[..myHand.Length] == myHand[..];
    for i := 0 to knownBoard.Length
      invariant forall x :: 0 <= x < 52 ==> (usedCards[x] <==> x in myHand[..] || x in knownBoard[..i])
    {
      usedCards[knownBoard[i]] := true;
      assert knownBoard[..i + 1] == knownBoard[..i] + [knownBoard[i]];
    }
    assert knownBoard[..knownBoard.Length] == knownBoard[..];
  }

  /** `deck[deckSize++] = i` for every unmarked code i, in order. */
  method BuildDeck(usedCards: array<bool>) returns (deck: array<int>, deckSize: int)
    requires usedCards.Length == 52
    ensures fresh(deck) && deck[..] == InitialDeck(usedCards[..])
    ensures deckSize == |Undealt(usedCards[..], 52)|
  {
    deck := new int[52](_ => 0);
    deckSize := 0;
    for i := 0 to 52
      invariant deckSize == |Undealt(usedCards[..], i)|
      invariant deck[..deckSize] == Undealt(usedCards[..], i)
      invariant forall k :: deckSize <= k < 52 ==> deck[k] == 0
    {
      if !usedCards[i] {
        deck[deckSize] := i;
        deckSize := deckSize + 1;
      }
    }
    assert deck[..] == deck[..deckSize] + deck[deckSize..];
  }

  /** The swap loop of one trial: `r = j + nextInt(deckSize - j)`, then
      `deck[j]` and `deck[r]` are exchanged. */
  method PartialShuffle(deck: array<int>, deckSize: int, cardsNeeded: int, offsets: seq<int>)
    requires cardsNeeded <= deckSize <= deck.Length && 0 <= deckSize
    requires DrawsFit(offsets, deckSize, cardsNeeded)
    modifies deck
    ensures deck[..] == Shuffled(old(deck[..]), deckSize, offsets, cardsNeeded)
  {
    var j := 0;
    while j < cardsNeeded
      invariant 0 <= j && (j <= cardsNeeded || j == 0)
      invariant deck[..] == Shuffled(old(deck[..]), deckSize, offsets, j)
    {
      var r := j + offsets[j];
      var temp := deck[r];
      deck[r] := deck[j];
      deck[j] := temp;
      j := j + 1;
    }
  }

  /** `currentBoard`: the known cards, then `cardsToDealBoard` cards from
      the top of the deck. */
  method DealBoard(knownBoard: array<int>, deck: array<int>, currentBoard: array<int>)
    requires knownBoard.Length <= 5 && deck.Length == 52 && currentBoard.Length == 5
    requires currentBoard != knownBoard
    modifies currentBoard
    ensures currentBoard[..] == knownBoard[..] + deck[..5 - knownBoard.Length]
  {
    var knownBoardSize := knownBoard.Length;
    var cardsToDealBoard := 5 - knownBoardSize;
    for k := 0 to knownBoardSize
      invariant forall j :: 0 <= j < k ==> currentBoard[j] == knownBoard[j]
    {
      currentBoard[k] := knownBoard[k];
    }
    var deckIndex := 0;
    for k := 0 to cardsToDealBoard
      invariant deckIndex == k
      invariant forall j :: 0 <= j < knownBoardSize ==> currentBoard[j] == knownBoard[j]
      invariant forall j :: knownBoardSize <= j < knownBoardSize + k ==> currentBoard[j] == deck[j - knownBoardSize]
    {
      currentBoard[knownBoardSize + k] := deck[deckIndex];
      deckIndex := deckIndex + 1;
    }
    ConcatByIndex(currentBoard[..], knownBoard[..], deck[..cardsToDealBoard]);
  }

  /** A sequence that agrees index by index with `a + b` is `a + b`. */
  lemma ConcatByIndex(s: seq<int>, a: seq<int>, b: seq<int>)
    requires |s| == |a| + |b|
    requires forall j :: 0 <= j < |a| ==> s[j] == a[j]
    requires forall j :: |a| <= j < |s| ==> s[j] == b[j - |a|]
    ensures s == a + b
  {
  }

  /** `System.arraycopy(currentBoard, 0, hand, 2, 5)` after the two hole
      cards. */
  method Assemble(hand: array<int>, a: int, b: int, currentBoard: array<int>)
    requires hand.Length == 7 && currentBoard.Length == 5 && hand != currentBoard
    modifies hand
    ensures hand[..] == [a, b] + currentBoard[..]
  {
    hand[0] := a;
    hand[1] := b;
    forall i | 0 <= i < 5 {
      hand[i + 2] := currentBoard[i];
    }
  }

  /** One opponent: the two deck cards at `deckIndex` and the board. */
  method ScoreOpponent(currentBoard: array<int>, deck: array<int>, deckIndex: int, opHand: array<int>,
                       ghost toDeal: int, ghost op: int)
    returns (opScore: int)
    requires currentBoard.Length == 5 && deck.Length == 52 && opHand.Length == 7
    requires opHand != currentBoard && opHand != deck
    requires ValidCodes(currentBoard[..]) && ValidCodes(deck[..])
    requires 0 <= toDeal && 0 <= op && deckIndex == toDeal + 2 * op && deckIndex + 1 < 52
    modifies opHand
    ensures opScore == OpponentScore(deck[..], toDeal, op, currentBoard[..])
  {
    Assemble(opHand, deck[deckIndex], deck[deckIndex + 1], currentBoard);
    opScore := Evaluate7CardsFast(opHand);
  }

  /** The opponent loop: each opponent takes the next two deck cards; the
      loop stops at the first one who outscores the hero, and remembers
      whether any opponent tied. */
  method ScoreOpponents(currentBoard: array<int>, deck: array<int>, cardsToDealBoard: int,
                        numOpponents: int, opHand: array<int>, myScore: int)
    returns (iWin: bool, isTie: bool)
    requires currentBoard.Length == 5 && deck.Length == 52 && opHand.Length == 7
    requires opHand != currentBoard && opHand != deck
    requires ValidCodes(currentBoard[..]) && ValidCodes(deck[..])
    requires 0 <= cardsToDealBoard && (numOpponents <= 0 || cardsToDealBoard + 2 * numOpponents <= 52)
    modifies opHand
    ensures var opponents := OpponentScores(deck[..], cardsToDealBoard, numOpponents, currentBoard[..]);
      && (iWin <==> forall k :: 0 <= k < |opponents| ==> opponents[k] <= myScore)
      && (iWin ==> (isTie <==> myScore in opponents))
  {
    ghost var board := currentBoard[..];
    ghost var opponents := OpponentScores(deck[..], cardsToDealBoard, numOpponents, board);
    iWin := true;
    isTie := false;
    var deckIndex := cardsToDealBoard;
    var op := 0;
    while op < numOpponents
      invariant 0 <= op && (op <= numOpponents || op == 0)
      invariant deckIndex == cardsToDealBoard + 2 * op
      invariant currentBoard[..] == board && deck[..] == old(deck[..])
      invariant iWin && forall k :: 0 <= k < op ==> opponents[k] <= myScore
      invariant isTie <==> myScore in opponents[..op]
    {
      var opScore := ScoreOpponent(currentBoard, deck, deckIndex, opHand, cardsToDealBoard, op);
      deckIndex := deckIndex + 2;
      assert opponents[op] == opScore;
      if opScore > myScore {
        iWin := false;
        break;
      } else if opScore == myScore {
        isTie := true;
      }
      MemberExtends(opponents, op, myScore);
      AtMostExtends(opponents, op, myScore);
      op := op + 1;
    }
    if iWin {
      assert opponents[..|opponents|] == opponents;
    }
  }

  /** One trial after the shuffle: the hero's score against the opponents'. */
  method PlayTrial(myHand: array<int>, currentBoard: array<int>, deck: array<int>, cardsToDealBoard: int,
                   numOpponents: int, combinedHand: array<int>, opHand: array<int>)
    returns (outcome: Outcome)
    requires myHand.Length >= 2 && currentBoard.Length == 5 && deck.Length == 52
    requires combinedHand.Length == 7 && opHand.Length == 7
    requires combinedHand != currentBoard && opHand != currentBoard && combinedHand != opHand
    requires myHand != combinedHand && myHand != opHand && deck != combinedHand && deck != opHand
    requires ValidCodes(currentBoard[..]) && ValidCodes(deck[..])
    requires ValidCodes([myHand[0], myHand[1]] + currentBoard[..])
    requires 0 <= cardsToDealBoard && (numOpponents <= 0 || cardsToDealBoard + 2 * numOpponents <= 52)
    modifies combinedHand, opHand
    ensures outcome == Classify(HandScore([myHand[0], myHand[1]] + currentBoard[..]),
                                OpponentScores(deck[..], cardsToDealBoard, numOpponents, currentBoard[..]))
  {
    Assemble(combinedHand, myHand[0], myHand[1], currentBoard);
    var myScore := Evaluate7CardsFast(combinedHand);
    var iWin, isTie := ScoreOpponents(currentBoard, deck, cardsToDealBoard, numOpponents, opHand, myScore);
    if !iWin {
      outcome := Loss;
    } else if isTie {
      outcome := Tie;
    } else {
      outcome := Win;
    }
  }

  /** A trial on the shuffled deck, stated as `TrialOutcome`. */
  method PlayOnDeck(ghost s: Sim, myHand: array<int>, currentBoard: array<int>, deck: array<int>,
                    cardsToDealBoard: int, numOpponents: int, combinedHand: array<int>, opHand: array<int>)
    returns (outcome: Outcome)
    requires WellFormed(s) && myHand[..] == s.hand
    requires cardsToDealBoard == ToDeal(s) && numOpponents == s.numOpponents
    requires deck.Length == 52 && ValidCodes(deck[..]) && currentBoard[..] == FullBoard(s, deck[..])
    requires currentBoard.Length == 5 && combinedHand.Length == 7 && opHand.Length == 7
    requires currentBoard != myHand && combinedHand != myHand && opHand != myHand
    requires currentBoard != deck && combinedHand != deck && opHand != deck
    requires currentBoard != combinedHand && currentBoard != opHand && combinedHand != opHand
    modifies combinedHand, opHand
    ensures outcome == TrialOutcome(s, deck[..])
  {
    FullBoardValid(s, deck[..]);
    ghost var b := currentBoard[..];
    assert [myHand[0], myHand[1]] + b == [s.hand[0], s.hand[1]] + b;
    outcome := PlayTrial(myHand, currentBoard, deck, cardsToDealBoard, numOpponents, combinedHand, opHand);
  }

  /** Trial i: shuffle, complete the board, play. */
  method RunTrial(ghost s: Sim, ghost i: int, myHand: array<int>, knownBoard: array<int>, deck: array<int>,
                  deckSize: int, cardsNeeded: int, numOpponents: int, offsets: seq<int>,
                  currentBoard: array<int>, combinedHand: array<int>, opHand: array<int>)
    returns (outcome: Outcome)
    requires WellFormed(s) && 0 <= i < |s.draws| && offsets == s.draws[i]
    requires myHand[..] == s.hand && knownBoard[..] == s.board
    requires deck.Length == 52 && deck[..] == DeckAt(s, i)
    requires deckSize == DeckSize(s) && cardsNeeded == Needed(s) && numOpponents == s.numOpponents
    requires currentBoard.Length == 5 && combinedHand.Length == 7 && opHand.Length == 7
    requires currentBoard != myHand && combinedHand != myHand && opHand != myHand
    requires currentBoard != knownBoard && combinedHand != knownBoard && opHand != knownBoard
    requires currentBoard != deck && combinedHand != deck && opHand != deck
    requires currentBoard != combinedHand && currentBoard != opHand && combinedHand != opHand
    requires myHand != deck && knownBoard != deck
    modifies deck, currentBoard, combinedHand, opHand
    ensures deck[..] == DeckAt(s, i + 1)
    ensures outcome == TrialOutcome(s, DeckAt(s, i + 1))
  {
    PartialShuffle(deck, deckSize, cardsNeeded, offsets);
    assert deck[..] == DeckAt(s, i + 1);
    DealBoard(knownBoard, deck, currentBoard);
    outcome := PlayOnDeck(s, myHand, currentBoard, deck, 5 - knownBoard.Length, numOpponents, combinedHand, opHand);
  }

  lemma MemberExtends(scores: seq<int>, op: int, x: int)
    requires 0 <= op < |scores|
    ensures x in scores[..op + 1] <==> x in scores[..op] || scores[op] == x
  {
    assert scores[..op + 1] == scores[..op] + [scores[op]];
  }

  lemma AtMostExtends(scores: seq<int>, op: int, bound: int)
    requires 0 <= op < |scores| && scores[op] <= bound
    requires forall k :: 0 <= k < op ==> scores[k] <= bound
    ensures forall k :: 0 <= k < op + 1 ==> scores[k] <= bound
  {
  }

  /** The set-up: the codes of hand and board, the marks, and the deck of
      unused codes. */
  method SetUp(myHandObj: seq<Card>, boardObj: seq<Card>)
    returns (myHand: array<int>, knownBoard: array<int>, deck: array<int>, deckSize: int)
    ensures fresh(myHand) && fresh(knownBoard) && fresh(deck)
    ensures myHand != knownBoard && myHand != deck && knownBoard != deck
    ensures myHand[..] == Codes(myHandObj) && knownBoard[..] == Codes(boardObj)
    ensures deck[..] == InitialDeck(Marked(Codes(myHandObj) + Codes(boardObj)))
    ensures deckSize == |Undealt(Marked(Codes(myHandObj) + Codes(boardObj)), 52)|
  {
    myHand := ToIntArray(myHandObj);
    knownBoard := ToIntArray(boardObj);
    var usedCards := MarkUsed(myHand, knownBoard);
    deck, deckSize := BuildDeck(usedCards);
  }

  /** The trial loop: counts the trials won outright and the trials tied. */
  method RunTrials(ghost s: Sim, myHand: array<int>, knownBoard: array<int>, deck: array<int>,
                   deckSize: int, cardsNeeded: int, numOpponents: int, draws: seq<seq<int>>)
    returns (wins: int, ties: int)
    requires WellFormed(s) && draws == s.draws && |draws| == SimulationCount
    requires myHand[..] == s.hand && knownBoard[..] == s.board
    requires deck.Length == 52 && deck[..] == DeckAt(s, 0)
    requires deckSize == DeckSize(s) && cardsNeeded == Needed(s) && numOpponents == s.numOpponents
    requires myHand != deck && knownBoard != deck
    modifies deck
    ensures wins == Tally(s, SimulationCount, Win) && ties == Tally(s, SimulationCount, Tie)
  {
    var currentBoard := new int[5];
    var combinedHand := new int[7];
    var opHand := new int[7];
    wins := 0;
    ties := 0;
    for i := 0 to SimulationCount
      invariant deck[..] == DeckAt(s, i)
      invariant myHand[..] == s.hand && knownBoard[..] == s.board
      invariant wins == Tally(s, i, Win) && ties == Tally(s, i, Tie)
    {
      wins, ties := CountTrial(s, i, myHand, knownBoard, deck, deckSize, cardsNeeded, numOpponents, draws[i],
                               currentBoard, combinedHand, opHand, wins, ties);
    }
  }

  /** Trial `i` of the loop: play it and add its outcome to the counts. */
  method CountTrial(ghost s: Sim, ghost i: int, myHand: array<int>, knownBoard: array<int>, deck: array<int>,
                    deckSize: int, cardsNeeded: int, numOpponents: int, offsets: seq<int>,
                    currentBoard: array<int>, combinedHand: array<int>, opHand: array<int>,
                    wins0: int, ties0: int)
    returns (wins: int, ties: int)
    requires WellFormed(s) && 0 <= i < |s.draws| && offsets == s.draws[i]
    requires myHand[..] == s.hand && knownBoard[..] == s.board
    requires deck.Length == 52 && deck[..] == DeckAt(s, i)
    requires deckSize == DeckSize(s) && cardsNeeded == Needed(s) && numOpponents == s.numOpponents
    requires currentBoard.Length == 5 && combinedHand.Length == 7 && opHand.Length == 7
    requires currentBoard != myHand && combinedHand != myHand && opHand != myHand
    requires currentBoard != knownBoard && combinedHand != knownBoard && opHand != knownBoard
    requires currentBoard != deck && combinedHand != deck && opHand != deck
    requires currentBoard != combinedHand && currentBoard != opHand && combinedHand != opHand
    requires myHand != deck && knownBoard != deck
    requires wins0 == Tally(s, i, Win) && ties0 == Tally(s, i, Tie)
    modifies deck, currentBoard, combinedHand, opHand
    ensures deck[..] == DeckAt(s, i + 1)
    ensures wins == Tally(s, i + 1, Win) && ties == Tally(s, i + 1, Tie)
  {
    var outcome := RunTrial(s, i, myHand, knownBoard, deck, deckSize, cardsNeeded, numOpponents, offsets,
                            currentBoard, combinedHand, opHand);
    wins, ties := wins0, ties0;
    if outcome == Win {
      wins := wins + 1;
    } else if outcome == Tie {
      ties := ties + 1;
    }
  }

  /** `calculateWinRateFast`: `None` where the source throws, otherwise the
      equity `(wins + 0.5 * ties) / SIMULATION_COUNT` of the trials the draws
      determine, which lies in [0, 1]. Only inputs on which `cardsNeeded`
      does not wrap around are covered. */
  method CalculateWinRateFast(myHandObj: seq<Card>, boardObj: seq<Card>, numOpponents: int, draws: seq<seq<int>>)
    returns (r: Option<real>)
    requires |draws| == SimulationCount
    requires NeededFitsInt(Sim(Codes(myHandObj), Codes(boardObj), numOpponents, draws))
    requires var s := Sim(Codes(myHandObj), Codes(boardObj), numOpponents, draws);
      !Fails(s) ==> DrawsInRange(s)
    ensures var s := Sim(Codes(myHandObj), Codes(boardObj), numOpponents, draws);
      && (r.None? <==> Fails(s))
      && (r.Some? ==> WellFormed(s) && r.value == Equity(Tally(s, SimulationCount, Win), Tally(s, SimulationCount, Tie)))
    ensures r.Some? ==> 0.0 <= r.value <= 1.0
  {
    ghost var s := Sim(Codes(myHandObj), Codes(boardObj), numOpponents, draws);
    var myHand, knownBoard, deck, deckSize := SetUp(myHandObj, boardObj);
    var knownBoardSize := knownBoard.Length;
    var cardsToDealBoard := 5 - knownBoardSize;
    var cardsNeeded := cardsToDealBoard + numOpponents * 2;
    if cardsNeeded > deckSize || knownBoardSize > 5 || myHand.Length < 2 {
      return None;
    }
    assert WellFormed(s);
    var wins, ties := RunTrials(s, myHand, knownBoard, deck, deckSize, cardsNeeded, numOpponents, draws);
    TallyBound(s, SimulationCount);
    r := Some((wins as real + 0.5 * ties as real) / SimulationCount as real);
  }
}
