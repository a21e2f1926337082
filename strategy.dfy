// The bet-sizing decision tree of the strategy advisor, its two sizing
// helpers, and the guarded stack-to-pot and pot-odds ratios the report
// computes before it. Amounts and rates are doubles in the program and
// reals here; the random semi-bluff draw is a boolean parameter.

module Strategy {
  import opened Cards

  /** The advisor's actions. The enum's source file is not part of this
      model; these are the constants the decision tree uses. */
  datatype Action = Fold | CheckFold | Call | Raise | AllIn

  /** `BetStrategy`, a plain record. `betType` is `None` where the program
      leaves the field null. */
  datatype BetStrategy = BetStrategy(action: Action, amount: real,
                                     betType: Option<string>, reason: string)

  /** A quotient of doubles whose numerator is not zero: finite, or an
      infinity when the denominator is zero (Java does not throw there). */
  datatype Quotient = Finite(value: real) | PlusInfinity | MinusInfinity

  /** `a / b` on doubles, for a nonzero `a`. */
  function Divide(a: real, b: real): (q: Quotient)
    requires a != 0.0
    ensures q.Finite? <==> b != 0.0
    ensures q.Finite? ==> q.value * b == a
    ensures q.PlusInfinity? <==> b == 0.0 && a > 0.0
  {
    if b == 0.0 then (if a > 0.0 then PlusInfinity else MinusInfinity)
    else Finite(a / b)
  }

  /** `q < bound` on doubles: no finite bound exceeds plus infinity, every
      one exceeds minus infinity. */
  predicate Below(q: Quotient, bound: real)
  {
    match q
    case Finite(v) => v < bound
    case PlusInfinity => false
    case MinusInfinity => true
  }

  /** Stack-to-pot ratio, zero when the pot is not positive. */
  function Spr(potSize: real, myStack: real): (spr: real)
    ensures potSize > 0.0 ==> spr * potSize == myStack
    ensures potSize <= 0.0 ==> spr == 0.0
    ensures myStack >= 0.0 ==> spr >= 0.0
  {
    if potSize > 0.0 then myStack / potSize else 0.0
  }

  /** The pot odds of the report: the share of the pot after calling that
      the call costs, zero when there is nothing to call. */
  function PotOdds(potSize: real, costToCall: real): (odds: Quotient)
    ensures costToCall <= 0.0 ==> odds == Finite(0.0)
    ensures costToCall > 0.0 && odds.Finite? ==> odds.value * (potSize + costToCall) == costToCall
    ensures costToCall > 0.0 && potSize >= 0.0 ==> odds.Finite? && 0.0 < odds.value <= 1.0
    ensures costToCall > 0.0 && potSize + costToCall == 0.0 ==> odds == PlusInfinity
  {
    if costToCall > 0.0 then Divide(costToCall, potSize + costToCall) else Finite(0.0)
  }

  /** `calculateSizing(pot, ratio, stack)`: the share `ratio` of the pot,
      capped at the stack. */
  function SizeByRatio(pot: real, ratio: real, stack: real): (amount: real)
    ensures amount <= stack && amount <= pot * ratio
    ensures amount == stack || amount == pot * ratio
  {
    var target := pot * ratio;
    if target >= stack then stack else target
  }

  /** `calculateSizing(placeholder, p2, stack, target)`: the target, capped
      at the stack; the first two arguments are ignored. */
  function SizeToTarget(placeholder: real, p2: real, stack: real, target: real): (amount: real)
    ensures amount <= stack && amount <= target
    ensures amount == stack || amount == target
  {
    if target >= stack then stack else target
  }

  /** A nut hand: raw equity above 85%. */
  predicate IsNutHand(rawWinRate: real) { rawWinRate > 0.85 }

  /** A strong hand: raw equity above 65%. */
  predicate IsStrongHand(rawWinRate: real) { rawWinRate > 0.65 }

  /** A drawing hand: weak now (raw equity under 40%) but above 45% once the
      implied odds are added. */
  predicate IsDrawHand(rawWinRate: real, adjWinRate: real)
  {
    adjWinRate > 0.45 && rawWinRate < 0.4
  }

  /** The pot share bet into an unopened pot: 75% or 33% with a nut hand
      (wet or dry board), 66% or 50% with a strong one, 50% on a draw. */
  function OpeningShare(rawWinRate: real, isWetBoard: bool): (share: real)
    ensures 0.33 <= share <= 0.75
  {
    if IsNutHand(rawWinRate) then (if isWetBoard then 0.75 else 0.33)
    else if IsStrongHand(rawWinRate) then (if isWetBoard then 0.66 else 0.5)
    else 0.5
  }

  /** The total a raise facing a bet aims for: the call plus `share` of the
      pot after calling, at least a minimum raise on top of the call. */
  function RaiseTotal(potSize: real, costToCall: real, minRaise: real, share: real): (total: real)
    ensures total >= minRaise + costToCall
    ensures total >= (potSize + costToCall) * share + costToCall
    ensures total == minRaise + costToCall || total == (potSize + costToCall) * share + costToCall
  {
    var total := (potSize + costToCall) * share + costToCall;
    if total < minRaise + costToCall then minRaise + costToCall else total
  }

  /** Scenario A of `calculateBetStrategy`, nobody has bet: bet a share of
      the pot with a strong hand, or with a draw when the stack is deep
      enough; otherwise check/fold. */
  method OpenAction(rawWinRate: real, adjWinRate: real, potSize: real, myStack: real,
                    isWetBoard: bool, spr: real)
    returns (action: Action, amount: real, betType: Option<string>, reason: string)
    ensures action in {CheckFold, Raise}
    ensures action == CheckFold <==>
      !IsStrongHand(rawWinRate) && !(IsDrawHand(rawWinRate, adjWinRate) && spr > 3.0)
    ensures action == CheckFold ==> amount == 0.0 && betType == None
    ensures action == Raise ==>
      amount == SizeByRatio(potSize, OpeningShare(rawWinRate, isWetBoard), myStack)
  {
    var isNutHand := rawWinRate > 0.85;
    var isStrongHand := rawWinRate > 0.65;
    var isDrawHand := adjWinRate > 0.45 && rawWinRate < 0.4;
    amount := 0.0;
    betType := None;
    if isNutHand {
      if isWetBoard {
        action := Raise;
        amount := SizeByRatio(potSize, 0.75, myStack);
        betType := Some("Value/Protection");
        reason := "Nut hand on wet board, bet big to charge draws.";
      } else {
        action := Raise;
        amount := SizeByRatio(potSize, 0.33, myStack);
        betType := Some("Value/Trap");
        reason := "Nut hand on dry board, small bet to induce action.";
      }
    } else if isStrongHand {
      action := Raise;
      var sizeRatio := if isWetBoard then 0.66 else 0.5;
      amount := SizeByRatio(potSize, sizeRatio, myStack);
      betType := Some("Value");
      reason := "Strong hand, extracting value.";
    } else if isDrawHand {
      if spr > 3.0 {
        action := Raise;
        amount := SizeByRatio(potSize, 0.5, myStack);
        betType := Some("Semi-Bluff");
        reason := "Good draw, betting to fold out better hands or build pot.";
      } else {
        action := CheckFold;
        reason := "Draw hand but stack too shallow for bluff.";
      }
    } else {
      action := CheckFold;
      reason := "Weak hand, check/fold.";
    }
  }

  /** A value raise facing a bet: positive EV with a nut hand, or with a
      strong hand on a wet board. */
  predicate ValueRaise(rawWinRate: real, ev: real, isWetBoard: bool)
  {
    ev > 0.0 && (IsNutHand(rawWinRate) || (IsStrongHand(rawWinRate) && isWetBoard))
  }

  /** A semi-bluff raise facing a bet: positive EV, no value raise, a draw,
      a stack deeper than five pots and the random trigger. */
  predicate SemiBluffRaise(rawWinRate: real, adjWinRate: real, ev: real, isWetBoard: bool,
                           spr: real, bluffTrigger: bool)
  {
    ev > 0.0 && !(IsNutHand(rawWinRate) || (IsStrongHand(rawWinRate) && isWetBoard)) &&
    IsDrawHand(rawWinRate, adjWinRate) && spr > 5.0 && bluffTrigger
  }

  /** A speculative call facing a bet: negative EV, but pot odds under 15%
      and adjusted equity above 20%. */
  predicate SpeculativeCall(adjWinRate: real, ev: real, potSize: real, costToCall: real)
    requires costToCall != 0.0
  {
    ev <= 0.0 && Below(Divide(costToCall, potSize + costToCall), 0.15) && adjWinRate > 0.2
  }

  /** Scenario B of `calculateBetStrategy`, facing a bet, before the
      commitment rewrite: raise for value or as a semi-bluff, call with
      positive EV or good pot odds, fold otherwise. */
  method RespondToBet(rawWinRate: real, adjWinRate: real, ev: real, potSize: real,
                      costToCall: real, myStack: real, minRaise: real, isWetBoard: bool,
                      spr: real, bluffTrigger: bool)
    returns (action: Action, amount: real, betType: Option<string>, reason: string)
    requires costToCall != 0.0
    ensures action in {Fold, Call, Raise}
    ensures action != Raise ==> amount == 0.0 && betType == None
    ensures ValueRaise(rawWinRate, ev, isWetBoard) ==>
      action == Raise &&
      amount == SizeToTarget(0.0, 0.0, myStack, RaiseTotal(potSize, costToCall, minRaise, 0.5))
    ensures SemiBluffRaise(rawWinRate, adjWinRate, ev, isWetBoard, spr, bluffTrigger) ==>
      action == Raise &&
      amount == SizeToTarget(0.0, 0.0, myStack, RaiseTotal(potSize, costToCall, minRaise, 0.4))
    ensures action == Raise <==>
      ValueRaise(rawWinRate, ev, isWetBoard) ||
      SemiBluffRaise(rawWinRate, adjWinRate, ev, isWetBoard, spr, bluffTrigger)
    ensures action == Fold <==> ev <= 0.0 && !SpeculativeCall(adjWinRate, ev, potSize, costToCall)
  {
    var isNutHand := rawWinRate > 0.85;
    var isStrongHand := rawWinRate > 0.65;
    var isDrawHand := adjWinRate > 0.45 && rawWinRate < 0.4;
    amount := 0.0;
    betType := None;
    if ev > 0.0 {
      if isNutHand || (isStrongHand && isWetBoard) {
        action := Raise;
        var raiseTotal := (potSize + costToCall) * 0.5 + costToCall;
        if raiseTotal < minRaise + costToCall {
          raiseTotal := minRaise + costToCall;
        }
        amount := SizeToTarget(0.0, 0.0, myStack, raiseTotal);
        betType := Some("Value Raise");
        reason := "Re-raising for value and protection.";
      } else if isDrawHand && spr > 5.0 && bluffTrigger {
        action := Raise;
        var raiseTotal := (potSize + costToCall) * 0.4 + costToCall;
        if raiseTotal < minRaise + costToCall {
          raiseTotal := minRaise + costToCall;
        }
        amount := SizeToTarget(0.0, 0.0, myStack, raiseTotal);
        betType := Some("Semi-Bluff Raise");
        reason := "Aggressive play with strong draw.";
      } else {
        action := Call;
        reason := "Positive EV, calling to keep opponent in or see river.";
      }
    } else {
      var potOdds := Divide(costToCall, potSize + costToCall);
      if Below(potOdds, 0.15) && adjWinRate > 0.2 {
        action := Call;
        reason := "Speculative call due to excellent pot odds.";
      } else {
        action := Fold;
        reason := "Negative EV, folding.";
      }
    }
  }

  /** `calculateBetStrategy`. The fields of the record are set branch by
      branch, then two rewrites follow: facing a bet, a raise of more than
      40% of the stack becomes an all-in; and any raise reaching the stack
      becomes an all-in for exactly the stack. `bluffTrigger` stands for
      `Math.random() > 0.6`. */
  method CalculateBetStrategy(rawWinRate: real, adjWinRate: real, ev: real,
                              potSize: real, costToCall: real, myStack: real,
                              minRaise: real, isWetBoard: bool, spr: real,
                              bluffTrigger: bool)
    returns (s: BetStrategy)
    // The stack clamp: a raise stays below the stack, an all-in is the stack.
    ensures s.action == Raise ==> s.amount < myStack
    ensures s.action == AllIn ==> s.amount == myStack
    ensures s.action in {Fold, CheckFold, Call} ==> s.amount == 0.0 && s.betType == None
    // Unopened pot: never a call or a fold; check/fold exactly for a hand
    // that is not strong and not a draw with a deep enough stack.
    ensures costToCall == 0.0 ==> s.action in {CheckFold, Raise, AllIn}
    ensures costToCall == 0.0 ==>
      (s.action == CheckFold <==>
       !IsStrongHand(rawWinRate) && !(IsDrawHand(rawWinRate, adjWinRate) && spr > 3.0))
    // Unopened pot: a bet is the pot share capped at the stack, with no
    // 40%-of-stack rewrite.
    ensures costToCall == 0.0 && s.action != CheckFold ==>
      var bet := potSize * OpeningShare(rawWinRate, isWetBoard);
      (bet < myStack ==> s.action == Raise && s.amount == bet) &&
      (bet >= myStack ==> s.action == AllIn)
    // Facing a bet: never a check.
    ensures costToCall != 0.0 ==> s.action in {Fold, Call, Raise, AllIn}
    // Facing a bet: a value raise, or a semi-bluff when the draw, the stack
    // depth and the random trigger all allow it, aims at its raise total;
    // past 40% of the stack or at the stack it becomes an all-in.
    ensures costToCall != 0.0 && ValueRaise(rawWinRate, ev, isWetBoard) ==>
      var total := RaiseTotal(potSize, costToCall, minRaise, 0.5);
      (total < myStack && total <= myStack * 0.4 ==> s.action == Raise && s.amount == total) &&
      (total >= myStack || total > myStack * 0.4 ==> s.action == AllIn)
    ensures costToCall != 0.0 &&
            SemiBluffRaise(rawWinRate, adjWinRate, ev, isWetBoard, spr, bluffTrigger) ==>
      var total := RaiseTotal(potSize, costToCall, minRaise, 0.4);
      (total < myStack && total <= myStack * 0.4 ==> s.action == Raise && s.amount == total) &&
      (total >= myStack || total > myStack * 0.4 ==> s.action == AllIn)
    // Facing a bet: a raise is at least a minimum raise on top of the call
    // and at most 40% of the stack.
    ensures costToCall != 0.0 && s.action == Raise ==>
      minRaise + costToCall <= s.amount <= myStack * 0.4
    // Facing a bet: calls and folds.
    ensures costToCall != 0.0 ==>
      (s.action == Call <==>
        (ev > 0.0 && !ValueRaise(rawWinRate, ev, isWetBoard) &&
         !SemiBluffRaise(rawWinRate, adjWinRate, ev, isWetBoard, spr, bluffTrigger)) ||
        SpeculativeCall(adjWinRate, ev, potSize, costToCall))
    ensures costToCall != 0.0 ==>
      (s.action == Fold <==> ev <= 0.0 && !SpeculativeCall(adjWinRate, ev, potSize, costToCall))
  {
    var action: Action;
    var amount: real;
    var betType: Option<string>;
    var reason: string;
    if costToCall == 0.0 {
      action, amount, betType, reason :=
        OpenAction(rawWinRate, adjWinRate, potSize, myStack, isWetBoard, spr);
    } else {
      action, amount, betType, reason :=
        RespondToBet(rawWinRate, adjWinRate, ev, potSize, costToCall, myStack, minRaise,
                     isWetBoard, spr, bluffTrigger);

      if action == Raise && amount > myStack * 0.4 {
        action := AllIn;
        amount := myStack;
        reason := reason + " (Committed, All-in)";
      }
    }

    if action == Raise {
      if amount >= myStack {
        action := AllIn;
        amount := myStack;
      }
    }

    s := BetStrategy(action, amount, betType, reason);
  }
}
