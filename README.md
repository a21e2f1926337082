# Texas Hold'em calculator core in Dafny

This project models the poker engine of an Android Texas Hold'em advisor:

- **Card values.** The `Card` value object compares by rank only. The `HandCategory` enum scores the hand categories 1..9.
- **7-card evaluator** (`TexasHoldemCalUtil`):
  - cards are coded as `suit * 13 + (rank - 2)`;
  - one pass builds a rank histogram, a suit histogram and a rank bit mask;
  - the category is then resolved in a fixed priority;
  - the result is packed into one score by `encodeScoreFast`, four bits per field, so that integer order is poker order.
- **Monte Carlo equity simulator.** It works on arrays:
  - it marks the used codes and compacts the undealt ones into a dense deck;
  - each trial runs a partial Fisher–Yates shuffle, completes the board and scores the hero and every opponent;
  - it counts wins and ties and returns `(wins + ties / 2) / 5000`.
- **Feature predicates and the strategy.** These are the flush-draw, straight-draw, set-mining, paired-board and board-texture predicates, the implied-odds table, the SPR and pot-odds guards, and the bet-sizing decision tree `calculateBetStrategy` with its two `calculateSizing` helpers.

Modules, one per file:

- `Cards` (cards.dfy): ranks, suits, cards, their comparison, printing and integer codes, and the hand categories.
- `ScoreEncoding` (score_encoding.dfy): `encodeScoreFast`, its value as a base-16 number and its order-preservation lemma.
- `HandEval` (hand_eval.dfy): `evaluate7CardsFast` as a function of the card codes (`HandOf`, `HandScore`), and `getStraightHighRank`.
- `FastEvaluator` (fast_evaluator.dfy): the evaluator as imperative code on arrays, proved equal to `HandScore`.
- `HandFacts` (hand_facts.dfy): what the evaluator's result means — the quads and full-house rules, the kicker choice, the score range, the comparison, and the 3-3-1 behaviour.
- `CategoryRules` (category_rules.dfy): for each of the categories 9, 6, 5, 4, 3, 2 and 1, the exact condition on the histograms under which the evaluator returns it.
- `Simulation` (simulation.dfy): the simulator as a specification, covering the deck after every trial, each trial's outcome, the tallies and the equity, with lemmas about them.
- `WinRate` (win_rate.dfy): `calculateWinRateFast` and `toIntArray` as imperative code on arrays, proved against `Simulation`.
- `Features` (features.dfy): the feature predicates and the implied-odds scale.
- `Strategy` (strategy.dfy): the SPR and pot-odds ratios, the sizing helpers and `calculateBetStrategy`.

The random number generator of the simulator becomes a supplied sequence of draws, one per trial. Draw `j` of a trial picks a swap partner `r` with `j <= r < deckSize`. The `Math.random() > 0.6` semi-bluff trigger becomes a boolean parameter.

Where the code and its comments disagree, the model follows the code:

- **3-3-1 ranks.** The comments at TexasHoldemCalUtil.java:481-487 suggest a second triple can act as the pair of a full house. The code only takes pairs from ranks with count exactly 2 (lines 463-465), and the full-house branch needs such a pair (line 484). Two triples plus a single card therefore evaluate as three of a kind (`HandFacts.TwoTriplesAreTrips`).
- **"Cost > 0".** The comment calls the facing-a-bet branch of `calculateBetStrategy` "Cost > 0". The code's test is `costToCall == 0`, so a negative cost also takes that branch. The model's `costToCall != 0.0` follows the code.

## Model

| member | source | states |
|---|---|---|
| Cards.RankOf | app/src/main/java/com/example/yolov5tfliteandroid/utils/TexasHoldemCalUtil.java:624 | a rank exists exactly for values 2..14, and its value is the argument (the inverse of `getValue`) |
| Cards.SuitOf | app/src/main/java/com/example/yolov5tfliteandroid/utils/TexasHoldemCalUtil.java:625 | a suit exists exactly for ordinals 0..3, and its ordinal is the argument |
| Cards.CompareTo | app/src/main/java/com/example/yolov5tfliteandroid/model/Card.java:21-23 | the result is -1, 0 or 1, and its sign is that of the difference of the two rank values, in both directions |
| Cards.CompareIgnoresSuit | app/src/main/java/com/example/yolov5tfliteandroid/model/Card.java:22 | two cards of the same rank compare equal whatever their suits |
| Cards.CompareAntisymmetric | app/src/main/java/com/example/yolov5tfliteandroid/model/Card.java:22 | `compareTo(a, b) == -compareTo(b, a)` |
| Cards.CompareTransitive | app/src/main/java/com/example/yolov5tfliteandroid/model/Card.java:22 | the orders `< 0` and `<= 0` of `compareTo` are transitive |
| Cards.ToString | app/src/main/java/com/example/yolov5tfliteandroid/model/Card.java:16-18 | two characters: the first letter of the rank name, then the first letter of the suit name |
| Cards.ToStringKeepsSuit | app/src/main/java/com/example/yolov5tfliteandroid/model/Card.java:17 | the second character identifies the suit (equal exactly when the suits are equal) |
| Cards.ToStringConflatesRanks | app/src/main/java/com/example/yolov5tfliteandroid/model/Card.java:17 | TWO, THREE and TEN of the same suit print the same string, so `toString` is not injective |
| Cards.Code | app/src/main/java/com/example/yolov5tfliteandroid/utils/TexasHoldemCalUtil.java:618-630 | a card's code lies in 0..51; code mod 13 is rank value minus 2 and code div 13 is the suit ordinal |
| Cards.CardOf | app/src/main/java/com/example/yolov5tfliteandroid/utils/TexasHoldemCalUtil.java:416-419 | a code decodes to a card exactly when it lies in 0..51 |
| Cards.CodeRoundTrip | app/src/main/java/com/example/yolov5tfliteandroid/utils/TexasHoldemCalUtil.java:618-630 | decoding a card's code gives the card back, and encoding the card decoded from any code in 0..51 gives the code back |
| Cards.CodeInjective | app/src/main/java/com/example/yolov5tfliteandroid/utils/TexasHoldemCalUtil.java:624-627 | distinct cards have distinct codes |
| Cards.HandCategory.Score | app/src/main/java/com/example/yolov5tfliteandroid/enums/HandCategory.java:7-18 | every category's score lies in 1..9 |
| Cards.CategoryOf | app/src/main/java/com/example/yolov5tfliteandroid/enums/HandCategory.java:7-8 | a category exists exactly for codes 1..9, and its score is the code |
| Cards.CategoryScoresOrdered | app/src/main/java/com/example/yolov5tfliteandroid/enums/HandCategory.java:7-8 | in declaration order the scores are 1..9, every category is listed, and distinct categories have distinct scores |
| Cards.CategoryRoundTrip | app/src/main/java/com/example/yolov5tfliteandroid/enums/HandCategory.java:12-18 | the category with a category's score is that category |
| ScoreEncoding.EncodeScoreFast | app/src/main/java/com/example/yolov5tfliteandroid/utils/TexasHoldemCalUtil.java:611-616 | the shift-and-add loop followed by the zero-fill shift computes the base-16 number whose digits are the category, the kickers and then zeros up to six fields |
| ScoreEncoding.ShiftIsZeroFill | app/src/main/java/com/example/yolov5tfliteandroid/utils/TexasHoldemCalUtil.java:615 | shifting left by `4 * n` appends `n` zero digits |
| ScoreEncoding.EncodeCategory | app/src/main/java/com/example/yolov5tfliteandroid/utils/TexasHoldemCalUtil.java:611-616 | with fields in 0..15 and at most five kickers, `score >> 20` is the category and the score lies in [0, 2^24) |
| ScoreEncoding.HornerOrder | app/src/main/java/com/example/yolov5tfliteandroid/utils/TexasHoldemCalUtil.java:613 | for equal-length digit strings, numeric order is lexicographic order, and equal numbers mean equal digits |
| ScoreEncoding.EncodeOrder | app/src/main/java/com/example/yolov5tfliteandroid/utils/TexasHoldemCalUtil.java:611-616 | comparing two scores compares (category, k1..k5) lexicographically (zero-filled), and equal scores mean equal fields |
| ScoreEncoding.CategoryDominates | app/src/main/java/com/example/yolov5tfliteandroid/utils/TexasHoldemCalUtil.java:611-616 | a lower category always scores below a higher one, whatever the kickers |
| HandEval.FlushSuit | app/src/main/java/com/example/yolov5tfliteandroid/utils/TexasHoldemCalUtil.java:424-432 | the lowest suit with at least five cards, or -1 when no suit has five |
| HandEval.GetStraightHighRank | app/src/main/java/com/example/yolov5tfliteandroid/utils/TexasHoldemCalUtil.java:585-609 | -1 or 5..14; a result of 6 or more is `i+2` for the highest five-bit run i..i-4 (i from 12 down to 4); 5 means the wheel 0x100F with no such run; -1 exactly when there is neither |
| HandEval.Pad | app/src/main/java/com/example/yolov5tfliteandroid/utils/TexasHoldemCalUtil.java:501-519 | keeps the given entries and fills the remaining slots up to `n` with the fill value |
| HandEval.RankMask | app/src/main/java/com/example/yolov5tfliteandroid/utils/TexasHoldemCalUtil.java:416-422 | a rank index is in the mask exactly when some card has it (`mask \|= 1 << rank`) |
| HandEval.SuitMask | app/src/main/java/com/example/yolov5tfliteandroid/utils/TexasHoldemCalUtil.java:436-442 | a rank index is in the suit's mask exactly when some card of that suit has it |
| HandEval.RankCounts | app/src/main/java/com/example/yolov5tfliteandroid/utils/TexasHoldemCalUtil.java:416-422 | the histogram has 13 buckets; `HandFacts.RankCountsSum` shows it counts every card once |
| HandEval.HandScore | app/src/main/java/com/example/yolov5tfliteandroid/utils/TexasHoldemCalUtil.java:408-583 | the score of the hand `HandOf` finds, packed as `encodeScoreFast` packs it; its range and order are the lemmas `HandFacts.ScoreCategory` and `HandFacts.ScoreComparesHands`, and `FastEvaluator.Evaluate7CardsFast` computes it |
| HandEval.HandOf | app/src/main/java/com/example/yolov5tfliteandroid/utils/TexasHoldemCalUtil.java:424-583 | the category dispatch yields a category in 1..9 with at most five ranks after it; which category it yields is stated by the `CategoryRules` lemmas and `HandFacts.QuadsRule` and `HandFacts.FullHouseRule` |
| HandEval.GroupHand | app/src/main/java/com/example/yolov5tfliteandroid/utils/TexasHoldemCalUtil.java:470-497 | after the straight-flush test the category is at most 8 (quads) |
| HandEval.LowHand | app/src/main/java/com/example/yolov5tfliteandroid/utils/TexasHoldemCalUtil.java:499-583 | below a full house the category is at most 6 (flush); `CategoryRules.LowDispatch` shows that `HandOf` reaches it exactly below a full house |
| FastEvaluator.CountCards | app/src/main/java/com/example/yolov5tfliteandroid/utils/TexasHoldemCalUtil.java:410-422 | the loop leaves the 13-bucket rank histogram, the 4-bucket suit histogram and the set of present ranks of the cards |
| FastEvaluator.FindFlushSuit | app/src/main/java/com/example/yolov5tfliteandroid/utils/TexasHoldemCalUtil.java:424-432 | the early-exit loop finds the flush suit of the hand |
| FastEvaluator.FlushRankMask | app/src/main/java/com/example/yolov5tfliteandroid/utils/TexasHoldemCalUtil.java:436-442 | the loop collects the ranks held in the flush suit |
| FastEvaluator.ScanGroups | app/src/main/java/com/example/yolov5tfliteandroid/utils/TexasHoldemCalUtil.java:448-468 | the descending scan finds the highest rank with four; with no quad, the highest triple and the two highest ranks with exactly two |
| FastEvaluator.TopRanks | app/src/main/java/com/example/yolov5tfliteandroid/utils/TexasHoldemCalUtil.java:529-583 | the kicker loops collect the `n` highest ranks with the required count outside the excluded ranks |
| FastEvaluator.HasRankInSuit | app/src/main/java/com/example/yolov5tfliteandroid/utils/TexasHoldemCalUtil.java:507-513 | the inner search finds a card exactly when the card of that rank and suit is held |
| FastEvaluator.FlushKickers | app/src/main/java/com/example/yolov5tfliteandroid/utils/TexasHoldemCalUtil.java:499-520 | the array holds the five highest ranks of the flush suit, descending, plus 2 |
| FastEvaluator.Evaluate7CardsFast | app/src/main/java/com/example/yolov5tfliteandroid/utils/TexasHoldemCalUtil.java:408-583 | the array code returns exactly `HandScore` of the cards |
| FastEvaluator.EvaluateGroups | app/src/main/java/com/example/yolov5tfliteandroid/utils/TexasHoldemCalUtil.java:448-497 | the quads and full-house branches return the encoding of `GroupHand` |
| FastEvaluator.EvaluateLow | app/src/main/java/com/example/yolov5tfliteandroid/utils/TexasHoldemCalUtil.java:499-583 | the flush, straight, trips, two-pair, pair and high-card branches return the encoding of `LowHand` |
| HandFacts.HighestInIsHighest | app/src/main/java/com/example/yolov5tfliteandroid/utils/TexasHoldemCalUtil.java:455-467 | the scan result has the count, and no higher rank in the range does; -1 means no rank has it |
| HandFacts.TopBelowIsTop | app/src/main/java/com/example/yolov5tfliteandroid/utils/TexasHoldemCalUtil.java:529-583 | the kicker list is strictly descending, holds only qualifying ranks, and every qualifying rank left out lies below all of a full list |
| HandFacts.SuitTopIsTop | app/src/main/java/com/example/yolov5tfliteandroid/utils/TexasHoldemCalUtil.java:499-520 | the flush kickers are held in the suit, strictly descending, and any held rank of the suit left out lies below all five |
| HandFacts.TopBelowLength | app/src/main/java/com/example/yolov5tfliteandroid/utils/TexasHoldemCalUtil.java:529-583 | the kicker list has `min(n, number of qualifying ranks)` entries |
| HandFacts.RankCountsSum | app/src/main/java/com/example/yolov5tfliteandroid/utils/TexasHoldemCalUtil.java:416-422 | the histogram counts every card once |
| HandFacts.HistogramFacts | app/src/main/java/com/example/yolov5tfliteandroid/utils/TexasHoldemCalUtil.java:416-422 | on distinct codes every rank count lies in 0..4, and the counts add up to the number of cards |
| HandFacts.SuitCountAtMostRanks | app/src/main/java/com/example/yolov5tfliteandroid/utils/TexasHoldemCalUtil.java:499-520 | on distinct codes a suit has no more cards than there are distinct ranks, so a flush always has five kickers |
| HandFacts.HandFieldsFit | app/src/main/java/com/example/yolov5tfliteandroid/utils/TexasHoldemCalUtil.java:444-581 | on 7 distinct codes every field passed to `encodeScoreFast` lies in 0..15, and there are at most five kickers |
| HandFacts.ScoreCategory | app/src/main/java/com/example/yolov5tfliteandroid/utils/TexasHoldemCalUtil.java:444-581 | on 7 distinct codes `score >> 20` is the category, a `HandCategory` score in 1..9, and the score lies in [0, 2^24) |
| HandFacts.ScoreComparesHands | app/src/main/java/com/example/yolov5tfliteandroid/utils/TexasHoldemCalUtil.java:408-616 | comparing two hands' scores is comparing their (category, ranks) fields lexicographically; equal scores mean equal fields; a higher category always wins |
| HandFacts.QuadsRule | app/src/main/java/com/example/yolov5tfliteandroid/utils/TexasHoldemCalUtil.java:434-480 | four of a kind is returned exactly when there is no straight flush and some rank is held four times |
| HandFacts.QuadsKicker | app/src/main/java/com/example/yolov5tfliteandroid/utils/TexasHoldemCalUtil.java:470-480 | the quad rank is held four times, and the one kicker is the highest other rank held (or the -1 placeholder) |
| HandFacts.FullHouseRule | app/src/main/java/com/example/yolov5tfliteandroid/utils/TexasHoldemCalUtil.java:456-497 | a full house is returned exactly when there is no straight flush, no quad, some triple, and some rank held exactly twice |
| HandFacts.FullHouseSlots | app/src/main/java/com/example/yolov5tfliteandroid/utils/TexasHoldemCalUtil.java:482-497 | the full house is the highest triple, then the highest other rank held at least twice |
| HandFacts.TwoTriplesAreTrips | app/src/main/java/com/example/yolov5tfliteandroid/utils/TexasHoldemCalUtil.java:456-542 | seven distinct cards with two triples evaluate as three of a kind of the higher triple, with the lower triple's rank among the kickers |
| HandFacts.TwoTriplesNoFlush | app/src/main/java/com/example/yolov5tfliteandroid/utils/TexasHoldemCalUtil.java:424-432 | a 3-3-1 hand has no flush suit |
| HandFacts.TwoTriplesNoStraight | app/src/main/java/com/example/yolov5tfliteandroid/utils/TexasHoldemCalUtil.java:522-526 | a 3-3-1 hand has no straight |
| CategoryRules.PairSearch | app/src/main/java/com/example/yolov5tfliteandroid/utils/TexasHoldemCalUtil.java:455-467 | the descending scan finds a first pair exactly when some rank is held exactly twice, and a second one exactly when two ranks are |
| CategoryRules.LowDispatch | app/src/main/java/com/example/yolov5tfliteandroid/utils/TexasHoldemCalUtil.java:448-583 | the category is at most 6 exactly below a full house, and there the result is `LowHand` of the scanned trip and pairs; the scan finds a trip exactly when some rank is held three times |
| CategoryRules.StraightFlushRule | app/src/main/java/com/example/yolov5tfliteandroid/utils/TexasHoldemCalUtil.java:434-446 | a straight flush is returned exactly when the flush suit's ranks hold a straight, with that straight's high rank as its one field |
| CategoryRules.FlushRule | app/src/main/java/com/example/yolov5tfliteandroid/utils/TexasHoldemCalUtil.java:499-520 | a flush is returned exactly below a full house when some suit holds five cards |
| CategoryRules.StraightRule | app/src/main/java/com/example/yolov5tfliteandroid/utils/TexasHoldemCalUtil.java:522-526 | a straight is returned exactly below a full house, with no flush suit, when the rank mask holds a straight |
| CategoryRules.TripsRule | app/src/main/java/com/example/yolov5tfliteandroid/utils/TexasHoldemCalUtil.java:529-542 | three of a kind is returned exactly below a straight when some rank is held three times |
| CategoryRules.TwoPairRule | app/src/main/java/com/example/yolov5tfliteandroid/utils/TexasHoldemCalUtil.java:544-554 | two pair is returned exactly below a straight, with no triple, when two ranks are each held exactly twice |
| CategoryRules.OnePairRule | app/src/main/java/com/example/yolov5tfliteandroid/utils/TexasHoldemCalUtil.java:556-570 | one pair is returned exactly below a straight, with no triple, when exactly one rank is held exactly twice |
| CategoryRules.HighCardRule | app/src/main/java/com/example/yolov5tfliteandroid/utils/TexasHoldemCalUtil.java:572-583 | high card is returned exactly below a straight when no rank is held three times or twice |
| Simulation.Fails | app/src/main/java/com/example/yolov5tfliteandroid/utils/TexasHoldemCalUtil.java:339-367 | the inputs on which the method throws: more cards needed than the deck holds, a board over five cards, or fewer than two hole cards; `WinRate.CalculateWinRateFast` returns no result exactly on them |
| Simulation.Shuffled | app/src/main/java/com/example/yolov5tfliteandroid/utils/TexasHoldemCalUtil.java:345-350 | the first `n` steps of the partial Fisher–Yates shuffle keep the deck's length; `Simulation.ShuffledPermutes` shows they permute its prefix |
| Simulation.DeckAt | app/src/main/java/com/example/yolov5tfliteandroid/utils/TexasHoldemCalUtil.java:342-350 | the deck after `t` trials is 52 valid codes; `Simulation.DeckAtPermutes` and `Simulation.DeckAtDistinct` show its prefix stays the undealt cards |
| Simulation.Classify | app/src/main/java/com/example/yolov5tfliteandroid/utils/TexasHoldemCalUtil.java:371-395 | a trial is won exactly when every opponent scores below the hero, and tied exactly when none scores above and some scores the same |
| Simulation.TrialOutcome | app/src/main/java/com/example/yolov5tfliteandroid/utils/TexasHoldemCalUtil.java:352-395 | the outcome of the trial on a deck: the hero's seven-card score classified against each opponent's; `WinRate.PlayOnDeck` is proved to compute it |
| Simulation.Tally | app/src/main/java/com/example/yolov5tfliteandroid/utils/TexasHoldemCalUtil.java:392-395 | the number of the first `t` trials with a given outcome is at most `t`; `Simulation.TallyBound` bounds wins plus ties the same way |
| Simulation.Equity | app/src/main/java/com/example/yolov5tfliteandroid/utils/TexasHoldemCalUtil.java:399 | `(wins + 0.5 * ties) / 5000` lies in [0, 1] whenever wins and ties are non-negative and add up to at most 5000 |
| Simulation.Codes | app/src/main/java/com/example/yolov5tfliteandroid/utils/TexasHoldemCalUtil.java:618-630 | the codes of a card list decode back to the cards, one per card |
| Simulation.InitialDeck | app/src/main/java/com/example/yolov5tfliteandroid/utils/TexasHoldemCalUtil.java:320-326 | the compacted deck buffer has 52 slots |
| Simulation.DeckSetUp | app/src/main/java/com/example/yolov5tfliteandroid/utils/TexasHoldemCalUtil.java:315-326 | `deck[0..deckSize)` holds exactly the codes absent from hand and board, ascending, and `deckSize` is 52 minus the number of distinct used codes |
| Simulation.UndealtMembers | app/src/main/java/com/example/yolov5tfliteandroid/utils/TexasHoldemCalUtil.java:320-326 | a code is in the compacted prefix exactly when it is below the bound and unmarked |
| Simulation.UndealtLength | app/src/main/java/com/example/yolov5tfliteandroid/utils/TexasHoldemCalUtil.java:320-326 | the compacted prefix has one slot per unmarked code |
| Simulation.NumMarkedIsDistinctCount | app/src/main/java/com/example/yolov5tfliteandroid/utils/TexasHoldemCalUtil.java:315-317 | the number of marked slots is the number of distinct used codes |
| Simulation.SwapPermutes | app/src/main/java/com/example/yolov5tfliteandroid/utils/TexasHoldemCalUtil.java:347-349 | one swap inside the deck prefix permutes the prefix |
| Simulation.ShuffledPermutes | app/src/main/java/com/example/yolov5tfliteandroid/utils/TexasHoldemCalUtil.java:345-350 | the partial shuffle leaves `deck[0..deckSize)` a permutation of its prior contents and the slots past `deckSize` unchanged |
| Simulation.DeckAtPermutes | app/src/main/java/com/example/yolov5tfliteandroid/utils/TexasHoldemCalUtil.java:342-350 | after any number of trials the deck prefix is a permutation of the initial undealt codes and the rest is untouched |
| Simulation.DeckAtDistinct | app/src/main/java/com/example/yolov5tfliteandroid/utils/TexasHoldemCalUtil.java:342-350 | after any number of trials the deck prefix has no repeated code |
| Simulation.DealtCardsAreUnused | app/src/main/java/com/example/yolov5tfliteandroid/utils/TexasHoldemCalUtil.java:356-390 | every card a trial deals to the board or to an opponent is absent from hand and board, and none is dealt twice |
| Simulation.TallyBound | app/src/main/java/com/example/yolov5tfliteandroid/utils/TexasHoldemCalUtil.java:392-395 | wins plus ties never exceed the number of trials played |
| WinRate.ToIntArray | app/src/main/java/com/example/yolov5tfliteandroid/utils/TexasHoldemCalUtil.java:618-630 | the fresh array holds the codes of the cards, in order |
| WinRate.MarkUsed | app/src/main/java/com/example/yolov5tfliteandroid/utils/TexasHoldemCalUtil.java:315-317 | `usedCards[c]` is set exactly for the codes in hand or board |
| WinRate.BuildDeck | app/src/main/java/com/example/yolov5tfliteandroid/utils/TexasHoldemCalUtil.java:320-326 | the fresh deck is the compacted undealt codes and `deckSize` their number |
| WinRate.PartialShuffle | app/src/main/java/com/example/yolov5tfliteandroid/utils/TexasHoldemCalUtil.java:345-350 | the in-place swap loop leaves the deck as the specification's shuffle of its old contents under the supplied draws |
| WinRate.DealBoard | app/src/main/java/com/example/yolov5tfliteandroid/utils/TexasHoldemCalUtil.java:356-362 | the board buffer becomes the known board followed by as many leading deck cards as the known board is short of five |
| WinRate.Assemble | app/src/main/java/com/example/yolov5tfliteandroid/utils/TexasHoldemCalUtil.java:366-380 | the seven-card buffer holds the two hole cards and then the board |
| WinRate.ScoreOpponent | app/src/main/java/com/example/yolov5tfliteandroid/utils/TexasHoldemCalUtil.java:377-382 | opponent `k` is scored on deck cards `toDeal + 2k` and `toDeal + 2k + 1` with the board |
| WinRate.ScoreOpponents | app/src/main/java/com/example/yolov5tfliteandroid/utils/TexasHoldemCalUtil.java:371-390 | the short-circuiting loop reports a win exactly when no opponent scores higher, and then a tie exactly when some opponent scores the same |
| WinRate.PlayTrial | app/src/main/java/com/example/yolov5tfliteandroid/utils/TexasHoldemCalUtil.java:364-395 | a trial's outcome is the classification of the hero's score against every opponent's score |
| WinRate.PlayOnDeck | app/src/main/java/com/example/yolov5tfliteandroid/utils/TexasHoldemCalUtil.java:364-395 | a trial played on the shuffled deck's completed board has exactly the specification's `TrialOutcome` |
| WinRate.RunTrial | app/src/main/java/com/example/yolov5tfliteandroid/utils/TexasHoldemCalUtil.java:343-395 | one trial advances the deck to the specification's next deck and returns that trial's outcome |
| WinRate.CountTrial | app/src/main/java/com/example/yolov5tfliteandroid/utils/TexasHoldemCalUtil.java:343-395 | one trial and its tally update keep the counters equal to the specification's tallies |
| WinRate.SetUp | app/src/main/java/com/example/yolov5tfliteandroid/utils/TexasHoldemCalUtil.java:311-331 | hand, board and deck are fresh distinct arrays holding the codes and the compacted undealt deck |
| WinRate.RunTrials | app/src/main/java/com/example/yolov5tfliteandroid/utils/TexasHoldemCalUtil.java:342-396 | after 5000 trials `wins` and `ties` are the specification's tallies |
| WinRate.CalculateWinRateFast | app/src/main/java/com/example/yolov5tfliteandroid/utils/TexasHoldemCalUtil.java:309-399 | on inputs where `cardsNeeded` fits in an `int`: no result exactly where the code throws; otherwise the equity of the trials the draws determine, which lies in [0, 1] |
| Features.SuitCount | app/src/main/java/com/example/yolov5tfliteandroid/utils/TexasHoldemCalUtil.java:646-651 | a suit's count is at most the number of cards |
| Features.RankValueCount | app/src/main/java/com/example/yolov5tfliteandroid/utils/TexasHoldemCalUtil.java:678-681 | a rank value's count is zero exactly when no card has that value |
| Features.RankValues | app/src/main/java/com/example/yolov5tfliteandroid/utils/TexasHoldemCalUtil.java:661-662 | the set of rank values contains every card's value and only values in 2..14 |
| Features.AscendingMembers | app/src/main/java/com/example/yolov5tfliteandroid/utils/TexasHoldemCalUtil.java:665-666 | the sorted list holds exactly the set's values in range |
| Features.AscendingStrict | app/src/main/java/com/example/yolov5tfliteandroid/utils/TexasHoldemCalUtil.java:665-666 | the sorted list of a set is strictly increasing |
| Features.IsPairOnBoard | app/src/main/java/com/example/yolov5tfliteandroid/utils/TexasHoldemCalUtil.java:635-641 | the `HashSet` scan over the board; `Features.PairOnBoardIff` shows it holds exactly when two board cards share a rank value |
| Features.IsFlushDraw | app/src/main/java/com/example/yolov5tfliteandroid/utils/TexasHoldemCalUtil.java:643-656 | the suit-count test on hand plus board; `Features.FlushDrawIff` shows it holds exactly when some suit is held exactly four times |
| Features.IsStraightDraw | app/src/main/java/com/example/yolov5tfliteandroid/utils/TexasHoldemCalUtil.java:658-673 | the four-card window test on the sorted values with a low ace; `Features.StraightDrawIff` characterises it |
| Features.IsSetMining | app/src/main/java/com/example/yolov5tfliteandroid/utils/TexasHoldemCalUtil.java:675-683 | a pocket pair whose rank value no board card shares; `Features.SetMiningIff` states it on the cards |
| Features.CheckBoardTexture | app/src/main/java/com/example/yolov5tfliteandroid/utils/TexasHoldemCalUtil.java:263-292 | a board of three or more cards that is suited three times or has a three-card window; `Features.BoardTextureIff` characterises it |
| Features.PairOnBoardIff | app/src/main/java/com/example/yolov5tfliteandroid/utils/TexasHoldemCalUtil.java:635-641 | the board is paired exactly when two of its cards share a rank value |
| Features.RepeatsFromIff | app/src/main/java/com/example/yolov5tfliteandroid/utils/TexasHoldemCalUtil.java:636-640 | the scan with `seen` stops exactly when a card repeats a seen value or two cards share a value |
| Features.FlushDrawIff | app/src/main/java/com/example/yolov5tfliteandroid/utils/TexasHoldemCalUtil.java:643-656 | a flush draw is exactly some suit held exactly four times among hand and board |
| Features.MadeFlushIsNoDraw | app/src/main/java/com/example/yolov5tfliteandroid/utils/TexasHoldemCalUtil.java:643-656 | with at most seven cards, a made flush (five of a suit) is not a flush draw |
| Features.WithLowAce | app/src/main/java/com/example/yolov5tfliteandroid/utils/TexasHoldemCalUtil.java:663 | an ace adds the value 1 and nothing else is added |
| Features.StraightDrawIff | app/src/main/java/com/example/yolov5tfliteandroid/utils/TexasHoldemCalUtil.java:658-673 | a straight draw is exactly four distinct values (an ace counting also as 1) spanning at most 4 |
| Features.WheelDraw | app/src/main/java/com/example/yolov5tfliteandroid/utils/TexasHoldemCalUtil.java:661-673 | A-2-3-4 among hand and board is a straight draw |
| Features.SetMiningIff | app/src/main/java/com/example/yolov5tfliteandroid/utils/TexasHoldemCalUtil.java:675-683 | set mining is exactly a pocket pair whose rank is absent from the board |
| Features.SuitOfThreeIff | app/src/main/java/com/example/yolov5tfliteandroid/utils/TexasHoldemCalUtil.java:266-268 | some suit count is at least 3 exactly when one of the four suits has three cards on the board |
| Features.BoardTextureIff | app/src/main/java/com/example/yolov5tfliteandroid/utils/TexasHoldemCalUtil.java:263-292 | a wet board is exactly a board of at least three cards with three of a suit or three distinct values spanning at most 4 |
| Features.ConnectedIff | app/src/main/java/com/example/yolov5tfliteandroid/utils/TexasHoldemCalUtil.java:273-289 | the window test on the sorted values is exactly three distinct values spanning at most 4 |
| Features.AceOnlyHighOnBoard | app/src/main/java/com/example/yolov5tfliteandroid/utils/TexasHoldemCalUtil.java:273-289 | unlike the straight-draw test, the texture test does not count an ace as 1: A-2-3 is not connected |
| Features.ImpliedOddsScale | app/src/main/java/com/example/yolov5tfliteandroid/utils/TexasHoldemCalUtil.java:294-303 | 0 on the river, in [0.1, 1] before the turn and in [0.05, 0.5] on the turn; 0.9 for set mining before the turn |
| Features.TurnHalvesScale | app/src/main/java/com/example/yolov5tfliteandroid/utils/TexasHoldemCalUtil.java:294-303 | on the turn the scale is half its value on an earlier street |
| Features.ScaleMonotoneInDraws | app/src/main/java/com/example/yolov5tfliteandroid/utils/TexasHoldemCalUtil.java:294-303 | without set mining, adding a flush or straight draw never lowers the scale |
| Strategy.Divide | app/src/main/java/com/example/yolov5tfliteandroid/utils/TexasHoldemCalUtil.java:84 | dividing a nonzero double is finite exactly for a nonzero divisor (the quotient times the divisor is the dividend) and plus infinity exactly for a zero divisor and a positive dividend |
| Strategy.Spr | app/src/main/java/com/example/yolov5tfliteandroid/utils/TexasHoldemCalUtil.java:52 | with a positive pot the SPR times the pot is the stack; otherwise it is 0; it is never negative for a non-negative stack |
| Strategy.PotOdds | app/src/main/java/com/example/yolov5tfliteandroid/utils/TexasHoldemCalUtil.java:84 | 0 with nothing to call; otherwise the cost's share of pot plus cost, in (0, 1] for a non-negative pot, and plus infinity when pot plus cost is zero |
| Strategy.SizeByRatio | app/src/main/java/com/example/yolov5tfliteandroid/utils/TexasHoldemCalUtil.java:243-247 | the bet is the pot share capped at the stack: at most each, and equal to one of them |
| Strategy.SizeToTarget | app/src/main/java/com/example/yolov5tfliteandroid/utils/TexasHoldemCalUtil.java:250-253 | the bet is the target capped at the stack, ignoring the first two arguments |
| Strategy.IsNutHand | app/src/main/java/com/example/yolov5tfliteandroid/utils/TexasHoldemCalUtil.java:128 | a nut hand is raw equity above 85%; `Strategy.OpeningShare`, `Strategy.OpenAction` and `Strategy.RespondToBet` use it |
| Strategy.IsStrongHand | app/src/main/java/com/example/yolov5tfliteandroid/utils/TexasHoldemCalUtil.java:129 | a strong hand is raw equity above 65%; used by the same members |
| Strategy.IsDrawHand | app/src/main/java/com/example/yolov5tfliteandroid/utils/TexasHoldemCalUtil.java:130 | a drawing hand is raw equity below 40% with adjusted equity above 45%; used by the same members |
| Strategy.ValueRaise | app/src/main/java/com/example/yolov5tfliteandroid/utils/TexasHoldemCalUtil.java:177-184 | a value raise facing a bet needs positive EV and a nut hand, or a strong hand on a wet board; `Strategy.RespondToBet` raises on it |
| Strategy.SemiBluffRaise | app/src/main/java/com/example/yolov5tfliteandroid/utils/TexasHoldemCalUtil.java:177-196 | a semi-bluff needs positive EV, no value raise, a draw, SPR above 5 and the random trigger; `Strategy.RespondToBet` raises on it |
| Strategy.SpeculativeCall | app/src/main/java/com/example/yolov5tfliteandroid/utils/TexasHoldemCalUtil.java:210-214 | with non-positive EV, pot odds below 15% and adjusted equity above 20% still call; `Strategy.RespondToBet` calls on it |
| Strategy.OpeningShare | app/src/main/java/com/example/yolov5tfliteandroid/utils/TexasHoldemCalUtil.java:134-166 | an opening bet is between 33% and 75% of the pot |
| Strategy.RaiseTotal | app/src/main/java/com/example/yolov5tfliteandroid/utils/TexasHoldemCalUtil.java:189-191 | the raise total is the larger of the share-based total and a minimum raise on top of the call |
| Strategy.OpenAction | app/src/main/java/com/example/yolov5tfliteandroid/utils/TexasHoldemCalUtil.java:133-171 | with no bet to call: check/fold exactly when the hand is neither strong nor a draw with SPR above 3, otherwise a bet of the pot share capped at the stack |
| Strategy.RespondToBet | app/src/main/java/com/example/yolov5tfliteandroid/utils/TexasHoldemCalUtil.java:173-221 | facing a bet: raise exactly for a value raise or a triggered semi-bluff, sized to the raise total capped at the stack; fold exactly for non-positive EV without the speculative pot-odds call; otherwise call |
| Strategy.CalculateBetStrategy | app/src/main/java/com/example/yolov5tfliteandroid/utils/TexasHoldemCalUtil.java:122-240 | a RAISE stays below the stack and every ALL_IN is the stack; unopened pots never call or fold and never take the 40% rewrite; facing a bet, raises past 40% of the stack become all-in, and calls and folds are characterised exactly |

## Left out

- Report assembly in `analyzeAndDecide` (TexasHoldemCalUtil.java:44-111) is left out. This covers the string building, the timing with `System.currentTimeMillis` and the `getSprDescription` labels. They are presentation and clock I/O. Only the SPR guard (line 52) and the pot-odds guard (line 84) are modelled.
- The adjusted win rate and EV (TexasHoldemCalUtil.java:81-83) are inputs of `Strategy.CalculateBetStrategy`, not computed. They are single floating-point products.
- Randomness is not modelled. The `Random` draws of the shuffle become the `draws` parameter of `WinRate.CalculateWinRateFast`. `Math.random() > 0.6` becomes the `bluffTrigger` parameter. Statistical properties of the equity estimate are out of scope.
- Doubles are modelled as `real`, so IEEE rounding is not modelled. The exception is division by zero: `Strategy.Divide` returns an infinity there, as Java does.
- `MASTER_DECK_INT` and its static initialiser (TexasHoldemCalUtil.java:25-31) are never used and are left out.
- `Rank.java`, `Suit.java` and `Action.java` are not part of this model. `Cards.Rank`, `Cards.Suit` and `Strategy.Action` assume these things:
  - the usual constant names;
  - rank values 2..14;
  - suit ordinals in the order Hearts, Diamonds, Clubs, Spades.
- `DecisionResult` and `DecisionResult.toString` are left out. They are a record and formatting.
- `Card.getRank` and `Card.getSuit` are the field selectors of the `Cards.Card` datatype. They return the constructor arguments by construction, so they have no member of their own.
- Library collections are modelled as mathematical ones. The feature predicates' `HashSet`, `HashMap`, `ArrayList` and `Collections.sort` become sets, counts and the sorted sequence `Features.Ascending`. The evaluator's `int` bit masks become sets of rank indices.
- Exceptions are not modelled individually. `calculateWinRateFast` throws in three cases:
  - `nextInt` gets a non-positive bound when more cards are needed than remain;
  - a board of more than five cards overflows `currentBoard`;
  - a hand with fewer than two cards fails `myHand[0]` or `myHand[1]`.
  On inputs where `cardsNeeded` fits in an `int`, `WinRate.CalculateWinRateFast` returns `None` in exactly these cases, without distinguishing them.
- WinRate.CalculateWinRateFast: the 32-bit wrap-around of `cardsToDealBoard + numOpponents * 2` (TexasHoldemCalUtil.java:339) is not modelled. The method requires `Simulation.NeededFitsInt`, so inputs on which either sum leaves the `int` range are not covered. On them Java's value differs from the mathematical one. With `numOpponents = -2^30 - 1` and a full board, Java's `cardsNeeded` wraps to `2^31 - 2` and the shuffle throws, while the unbounded sum is negative. With `numOpponents = -2^31`, Java's `numOpponents * 2` wraps to 0 and the shuffle swaps `cardsToDealBoard` cards.
- Features.IsSetMining: requires at least two hand cards. On fewer, the source throws when it reads `myHand.get(1)`.
- Java `long` overflow is not modelled. Every score is below 2^24 (`HandFacts.ScoreCategory`), so it cannot occur.
- HandFacts kicker lemmas: the kicker slots are stated category by category only for quads and full house (`HandFacts.QuadsKicker`, `HandFacts.FullHouseSlots`). For flush, trips, two pair, pair and high card, the kickers are the lists `HandEval.TopBelow` and `HandEval.SuitTop`. Their top-`n` property is proved once, generically (`HandFacts.TopBelowIsTop`, `HandFacts.SuitTopIsTop`), not restated per category.
- The evaluator is specified on any valid code sequence. The score's range and comparison lemmas assume seven distinct codes, which is what the simulator passes.
