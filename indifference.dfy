/** The indifference calculator: pot odds and the bluff/value split of a bet
    (calculateGtoFrequencies in utils/pokerMath.ts). Numbers are exact reals. */
module Indifference {
  import opened PokerTypes

  /** The money the caller must win back per unit of a full call is the
      bet over the final pot; the bettor bluffs exactly that often. The only
      input the source cannot handle is a final pot of zero (a division by
      zero), which is what the precondition excludes. */
  function CalculateGtoFrequencies(pot: real, bet: real): (r: SimulationResult)
    requires pot + 2.0 * bet != 0.0
    ensures r.potOdds == r.requiredEquity == r.optimalBluffFreq
    ensures r.optimalBluffFreq + r.optimalValueFreq == 1.0
    // the caller's break-even equity times the pot after the call is the call
    ensures r.requiredEquity * (pot + 2.0 * bet) == bet
  {
    var callAmount := bet;
    var totalPotAfterBet := pot + bet;
    var totalPotAfterCall := totalPotAfterBet + callAmount;
    var requiredEquity := callAmount / totalPotAfterCall;
    var optimalBluffFreq := requiredEquity;
    var optimalValueFreq := 1.0 - optimalBluffFreq;
    SimulationResult(requiredEquity, requiredEquity, optimalBluffFreq, optimalValueFreq)
  }

  /** Facing the computed mix, calling wins pot + bet as often as the bettor
      bluffs and loses the call as often as the bettor has value: the caller
      is indifferent (calling has an expected profit of zero). */
  lemma CallerIsIndifferent(pot: real, bet: real)
    requires pot + 2.0 * bet != 0.0
    ensures var r := CalculateGtoFrequencies(pot, bet);
      r.optimalBluffFreq * (pot + bet) - r.optimalValueFreq * bet == 0.0
  {
    var r := CalculateGtoFrequencies(pot, bet);
    var b := r.optimalBluffFreq;
    calc {
      b * (pot + bet) - (1.0 - b) * bet;
      b * (pot + 2.0 * bet) - bet;
      0.0;
    }
  }

  /** The indifference condition has exactly one solution, so the computed
      bluff frequency is the only one that makes the caller indifferent. */
  lemma IndifferenceDeterminesBluff(pot: real, bet: real, b: real)
    requires pot + 2.0 * bet != 0.0
    requires b * (pot + bet) - (1.0 - b) * bet == 0.0
    ensures b == CalculateGtoFrequencies(pot, bet).optimalBluffFreq
  {
    var r := CalculateGtoFrequencies(pot, bet);
    var q := r.optimalBluffFreq;
    assert b * (pot + 2.0 * bet) == bet;
    assert (b - q) * (pot + 2.0 * bet) == 0.0;
  }

  /** For a real pot and a real bet the bettor bluffs less than half the time
      and value-bets more than half the time. */
  lemma BluffFrequencyBounds(pot: real, bet: real)
    requires pot > 0.0 && bet > 0.0
    ensures var r := CalculateGtoFrequencies(pot, bet);
      0.0 < r.optimalBluffFreq < 0.5 && 0.5 < r.optimalValueFreq < 1.0
  {
    var r := CalculateGtoFrequencies(pot, bet);
    var b := r.optimalBluffFreq;
    var total := pot + 2.0 * bet;
    assert b * total == bet;
  }

  /** With the pot fixed, a larger bet asks for a larger bluff frequency. */
  lemma BluffGrowsWithBet(pot: real, bet1: real, bet2: real)
    requires pot > 0.0 && 0.0 <= bet1 < bet2
    ensures CalculateGtoFrequencies(pot, bet1).optimalBluffFreq
          < CalculateGtoFrequencies(pot, bet2).optimalBluffFreq
  {
    var b1 := CalculateGtoFrequencies(pot, bet1).optimalBluffFreq;
    var b2 := CalculateGtoFrequencies(pot, bet2).optimalBluffFreq;
    var t1, t2 := pot + 2.0 * bet1, pot + 2.0 * bet2;
    assert b1 * t1 == bet1 && b2 * t2 == bet2;
    // bet1 * t2 < bet2 * t1, because pot * bet1 < pot * bet2
    assert bet1 * t2 - bet2 * t1 == pot * (bet1 - bet2);
    assert pot * (bet1 - bet2) < 0.0;
    assert t1 * t2 > 0.0;
    assert (b1 - b2) * (t1 * t2) == bet1 * t2 - bet2 * t1;
    NegativeFactor(b1 - b2, t1 * t2);
  }

  lemma NegativeFactor(x: real, p: real)
    requires p > 0.0 && x * p < 0.0
    ensures x < 0.0
  {
  }

  /** A check (bet 0) needs no equity to call. */
  lemma NoBetNoEquity(pot: real)
    requires pot != 0.0
    ensures CalculateGtoFrequencies(pot, 0.0).requiredEquity == 0.0
    ensures CalculateGtoFrequencies(pot, 0.0).optimalValueFreq == 1.0
  {
  }

  /** A half-pot bet into 100: the caller needs 25% and the bettor bluffs 25%. */
  lemma HalfPotExample()
    ensures CalculateGtoFrequencies(100.0, 50.0)
         == SimulationResult(0.25, 0.25, 0.25, 0.75)
  {
  }
}
