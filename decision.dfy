/**
 * The decision heuristics: the strategy table, the tier choice, the
 * bet/check decision, pot odds and the pot-odds correction of the bet size,
 * and the gate that withholds a recommendation before the flop.
 * Decimal quantities are exact reals.
 */
module Decision {
  import opened Common
  import opened Cards
  import opened HandStrength

  /** One row of the strategy table: the value-bet threshold and the bluff frequency. */
  datatype Strategy = Strategy(valueBet: real, bluff: real)

  /** GTO_STRATEGY_TABLE, keyed by bet multiplier. */
  const GTO_STRATEGY_TABLE: map<real, Strategy> := StrategyTable()

  function StrategyTable(): map<real, Strategy> {
    map[
      0.25 := Strategy(0.83, 0.17),
      0.50 := Strategy(0.75, 0.25),
      0.66 := Strategy(0.72, 0.28),
      1.00 := Strategy(0.67, 0.33),
      1.50 := Strategy(0.62, 0.38),
      2.00 := Strategy(0.60, 0.40)
    ]
  }

  /** What gtoHelper returns: the bet multiplier and the two thresholds. */
  datatype Thresholds = Thresholds(betMultiplier: real, bluffThreshold: real, valueBetThreshold: real)

  /**
   * gtoHelper: strength above 0.5 uses the 2.00 row, above 0.3 the 1.50 row,
   * otherwise the 1.00 row; the bluff threshold is bluff frequency plus value threshold.
   */
  function GtoHelper(handStrength: real): (t: Thresholds)
    ensures t.betMultiplier in GTO_STRATEGY_TABLE
    ensures t.valueBetThreshold == GTO_STRATEGY_TABLE[t.betMultiplier].valueBet
    ensures t.bluffThreshold == GTO_STRATEGY_TABLE[t.betMultiplier].bluff + t.valueBetThreshold
    ensures t.bluffThreshold > t.valueBetThreshold
    ensures 0.60 <= t.valueBetThreshold <= 0.67
    ensures t.betMultiplier == 2.00 <==> handStrength > 0.5
    ensures t.betMultiplier == 1.50 <==> 0.3 < handStrength <= 0.5
    ensures t.betMultiplier == 1.00 <==> handStrength <= 0.3
  {
    var multiplier := if handStrength > 0.5 then 2.00 else if handStrength > 0.3 then 1.50 else 1.00;
    var strategy := GTO_STRATEGY_TABLE[multiplier];
    Thresholds(multiplier, strategy.bluff + strategy.valueBet, strategy.valueBet)
  }

  /** A stronger hand never gets a smaller multiplier or a higher value-bet threshold. */
  lemma GtoHelperMonotone(weaker: real, stronger: real)
    requires weaker <= stronger
    ensures GtoHelper(weaker).betMultiplier <= GtoHelper(stronger).betMultiplier
    ensures GtoHelper(weaker).valueBetThreshold >= GtoHelper(stronger).valueBetThreshold
  {
  }

  datatype GtoAction = Bet | Bluff | CheckFold

  /** An action with its suggested size. */
  datatype Suggestion = Suggestion(action: GtoAction, betSize: real)

  /**
   * gto_decision. Because the bluff threshold always lies above the value-bet
   * threshold, the bluff branch is dead, and only the top tier can clear its
   * own threshold: the decision is a bet exactly when the strength exceeds 0.60.
   */
  function GtoDecision(handStrength: real, potSize: int): (d: Suggestion)
    ensures d.action != Bluff
    ensures d.action == Bet <==> handStrength > 0.60
    ensures d.action == Bet ==> d.betSize == MaxReal(2.0 * potSize as real, MINIMUM_BET as real)
    ensures d.action == Bet ==> d.betSize >= MINIMUM_BET as real
    ensures d.action == CheckFold ==> d.betSize == 0.0
  {
    var t := GtoHelper(handStrength);
    if handStrength > t.valueBetThreshold then
      Suggestion(Bet, MaxReal(potSize as real * t.betMultiplier, MINIMUM_BET as real))
    else if handStrength > t.bluffThreshold then
      Suggestion(Bluff, MaxReal(potSize as real * t.betMultiplier, MINIMUM_BET as real))
    else
      Suggestion(CheckFold, 0.0)
  }

  /** calculate_pot_odds: pot / call, or -1 when there is nothing to call. */
  function CalculatePotOdds(callAmount: int, potSize: int): (odds: real)
    ensures callAmount == 0 ==> odds == -1.0
    ensures callAmount != 0 ==> odds * (callAmount as real) == potSize as real
  {
    if callAmount == 0 then -1.0 else (potSize as real) / (callAmount as real)
  }

  /**
   * adjust_bet_for_pot_odds. A free call leaves the bet alone; a hand below the
   * pot odds bets at most the call; a hand above twice the pot odds bets up to
   * one and a half times as much, capped at the pot; both adjusted sizes are
   * floored at the minimum bet.
   */
  function AdjustBetForPotOdds(betSize: real, handStrength: real, potSize: int, callAmount: int): (adjusted: real)
    ensures callAmount == 0 ==> adjusted == betSize
    ensures callAmount != 0 && handStrength < CalculatePotOdds(callAmount, potSize) ==>
              && MINIMUM_BET as real <= adjusted
              && adjusted <= MaxReal(callAmount as real, MINIMUM_BET as real)
              && adjusted <= MaxReal(betSize, MINIMUM_BET as real)
              && adjusted >= MinReal(betSize, callAmount as real)
              && (adjusted == MINIMUM_BET as real || adjusted == betSize || adjusted == callAmount as real)
    ensures callAmount != 0 && CalculatePotOdds(callAmount, potSize) <= handStrength
            && handStrength > CalculatePotOdds(callAmount, potSize) * 2.0 ==>
              && MINIMUM_BET as real <= adjusted
              && adjusted <= MaxReal(potSize as real, MINIMUM_BET as real)
              && adjusted <= MaxReal(1.5 * betSize, MINIMUM_BET as real)
              && adjusted >= MinReal(1.5 * betSize, potSize as real)
              && (adjusted == MINIMUM_BET as real || adjusted == 1.5 * betSize || adjusted == potSize as real)
    ensures callAmount != 0 && CalculatePotOdds(callAmount, potSize) <= handStrength
            && handStrength <= CalculatePotOdds(callAmount, potSize) * 2.0 ==>
              adjusted == betSize
  {
    var potOdds := CalculatePotOdds(callAmount, potSize);
    if callAmount == 0 then betSize
    else if handStrength < potOdds then MaxReal(MinReal(betSize, callAmount as real), MINIMUM_BET as real)
    else if handStrength > potOdds * 2.0 then MaxReal(MinReal(betSize * 1.5, potSize as real), MINIMUM_BET as real)
    else betSize
  }

  /**
   * With a positive call and pot, "strength below the pot odds" means that
   * strength times the call is below the pot.
   */
  lemma PotOddsMeaning(handStrength: real, potSize: int, callAmount: int)
    requires callAmount > 0
    ensures handStrength < CalculatePotOdds(callAmount, potSize)
            <==> handStrength * (callAmount as real) < potSize as real
  {
    var odds := CalculatePotOdds(callAmount, potSize);
    var c := callAmount as real;
    if handStrength < odds {
      assert handStrength * c < odds * c;
    } else {
      assert handStrength * c >= odds * c;
    }
  }

  /**
   * A check/fold decision carries bet size 0, yet when the hand is below the
   * pot odds of a positive call the correction turns it into the minimum bet.
   */
  lemma CheckFoldBecomesMinimumBet(handStrength: real, potSize: int, callAmount: int)
    requires callAmount > 0 && handStrength <= 0.60
    requires handStrength < CalculatePotOdds(callAmount, potSize)
    ensures GtoDecision(handStrength, potSize).action == CheckFold
    ensures AdjustBetForPotOdds(GtoDecision(handStrength, potSize).betSize, handStrength, potSize, callAmount)
            == MINIMUM_BET as real
  {
  }

  /**
   * The recommendation part of player_gto_guidance: with fewer than three
   * board cards there is none; otherwise the decision for the strength of
   * hand plus board, its size corrected for pot odds against the current bet.
   */
  method PlayerGtoGuidance(myHand: seq<Card>, communityCards: seq<Card>, currentBet: int, potSize: int, rank: Ranker)
    returns (advice: Option<Suggestion>)
    requires |communityCards| >= 3 ==> |myHand| + |communityCards| >= 5
    ensures advice.None? <==> |communityCards| < 3
    ensures advice.Some? ==>
              var strength := HandStrengthOf(myHand + communityCards, rank).value;
              && advice.value.action == (if strength > 0.60 then Bet else CheckFold)
              && advice.value.betSize
                 == AdjustBetForPotOdds(GtoDecision(strength, potSize).betSize, strength, potSize, currentBet)
  {
    if |communityCards| >= 3 {
      var handStrength := EvaluateHandStrength(myHand + communityCards, rank);
      var decision := GtoDecision(handStrength.value, potSize);
      var suggestedBetSize := AdjustBetForPotOdds(decision.betSize, handStrength.value, potSize, currentBet);
      advice := Some(Suggestion(decision.action, suggestedBetSize));
    } else {
      advice := None;
    }
  }
}
