/**
 The two calculators of the "Risk Management Toolkit", over exact reals.

 The position-size calculator turns a portfolio size, a risk percentage, an
 entry price and a stop-loss price into the amount of money at risk, the share
 count whose loss at the stop is exactly that amount, and the money invested.
 It refuses a stop-loss that is not below the entry price.

 The stop-loss calculator places a stop a given percentage below the current
 price and a take-profit target above it, at the chosen multiple of that
 distance.
 */
module RiskManagement {

  /** Outcome of the position-size calculator. */
  datatype Sizing =
    | Ok(shares: real, positionValue: real, riskAmount: real)
    | InvalidStopLoss

  /** Outcome of the stop-loss calculator; the risk-reward ratio is echoed back. */
  datatype Exits = Exits(stopLoss: real, takeProfit: real, riskReward: real)

  /** The choices the risk-reward selectbox offers. */
  const RiskRewardChoices: set<real> := {1.5, 2.0, 2.5, 3.0, 3.5}

  /** The values the position-size widgets admit: a whole-euro portfolio of at
      least 1000, a risk slider from 0.5 to 5 per cent, and entry and stop
      prices of at least 1. */
  predicate PositionWidgetInputs(portfolio: int, riskPercent: real, entry: real, stop: real)
  {
    && 1000 <= portfolio
    && 0.5 <= riskPercent <= 5.0
    && 1.0 <= entry
    && 1.0 <= stop
  }

  /** The values the stop-loss widgets admit: a distance slider from 1 to 10
      per cent and one of the offered risk-reward ratios. The current-price
      input has no lower bound. */
  predicate ExitWidgetInputs(stopPercent: real, riskReward: real)
  {
    && 1.0 <= stopPercent <= 10.0
    && riskReward in RiskRewardChoices
  }

  /** The default values of the two calculators' inputs lie inside the
      widget ranges: 25000, 2 %, 100 and 95 for the position, and 5 % with
      ratio 1.5 for the exits (the selectbox starts on its first option). */
  lemma DefaultsAreWidgetInputs()
    ensures PositionWidgetInputs(25000, 2.0, 100.0, 95.0)
    ensures ExitWidgetInputs(5.0, 1.5)
    ensures !ExitWidgetInputs(5.0, 4.0) && !ExitWidgetInputs(0.5, 2.0)
  {
  }

  /** Money put at risk: the given percentage of the portfolio. */
  function RiskAmount(portfolio: int, riskPercent: real): (amount: real)
    ensures amount * 100.0 == portfolio as real * riskPercent
    ensures portfolio > 0 && riskPercent > 0.0 ==> amount > 0.0
  {
    portfolio as real * (riskPercent / 100.0)
  }

  /** The position-size calculator. The share count is the one whose loss
      between entry and stop equals the risk amount; the position value is
      what those shares cost at the entry price. */
  function PositionSize(portfolio: int, riskPercent: real, entry: real, stop: real): (r: Sizing)
    ensures r.InvalidStopLoss? <==> entry <= stop
    ensures r.Ok? ==> r.riskAmount * 100.0 == portfolio as real * riskPercent
    ensures r.Ok? ==> r.shares * (entry - stop) == r.riskAmount
    ensures r.Ok? ==> r.positionValue * (entry - stop) == r.riskAmount * entry
  {
    var riskAmount := RiskAmount(portfolio, riskPercent);
    var lossPerShare := entry - stop;
    if lossPerShare > 0.0 then
      var shares := riskAmount / lossPerShare;
      Ok(shares, shares * entry, riskAmount)
    else
      InvalidStopLoss
  }

  /** The stop-loss calculator. The stop lies the given percentage of the
      current price below it; the target lies `riskReward` times that
      distance above it. */
  function StopLossTakeProfit(current: real, stopPercent: real, riskReward: real): (r: Exits)
    ensures (current - r.stopLoss) * 100.0 == current * stopPercent
    ensures r.takeProfit - current == riskReward * (current - r.stopLoss)
    ensures r.riskReward == riskReward
  {
    var stopLoss := current * (1.0 - stopPercent / 100.0);
    var lossPerShare := current - stopLoss;
    Exits(stopLoss, current + lossPerShare * riskReward, riskReward)
  }

  /** With a positive portfolio and risk, any stop strictly below the entry
      gives a positive share count, and hitting the stop loses exactly the
      risk amount: shares times entry minus shares times stop. */
  lemma RiskIdentity(portfolio: int, riskPercent: real, entry: real, stop: real)
    requires portfolio > 0 && riskPercent > 0.0 && entry > stop
    ensures PositionSize(portfolio, riskPercent, entry, stop).Ok?
    ensures PositionSize(portfolio, riskPercent, entry, stop).shares > 0.0
    ensures
      var r := PositionSize(portfolio, riskPercent, entry, stop);
      r.shares * entry - r.shares * stop == r.riskAmount
  {
    var r := PositionSize(portfolio, riskPercent, entry, stop);
    assert r.shares * (entry - stop) == r.riskAmount;
  }

  /** The share count is the only number of shares whose loss at the stop is
      the risk amount, so the calculator inverts "shares times loss per share". */
  lemma SharesUnique(portfolio: int, riskPercent: real, entry: real, stop: real, shares: real)
    requires entry > stop
    requires shares * (entry - stop) == RiskAmount(portfolio, riskPercent)
    ensures PositionSize(portfolio, riskPercent, entry, stop) == Ok(shares, shares * entry, RiskAmount(portfolio, riskPercent))
  {
    var r := PositionSize(portfolio, riskPercent, entry, stop);
    assert (r.shares - shares) * (entry - stop) == 0.0;
  }

  /** Every input the widgets admit yields either the refusal or a position
      whose shares, value and risk are all positive. */
  lemma WidgetPositionsArePositive(portfolio: int, riskPercent: real, entry: real, stop: real)
    requires PositionWidgetInputs(portfolio, riskPercent, entry, stop)
    ensures
      var r := PositionSize(portfolio, riskPercent, entry, stop);
      r.Ok? ==> r.shares > 0.0 && r.positionValue > 0.0 && r.riskAmount > 0.0
  {
    var r := PositionSize(portfolio, riskPercent, entry, stop);
    if r.Ok? {
      RiskIdentity(portfolio, riskPercent, entry, stop);
    }
  }

  /** Moving the stop further from the entry never buys more shares. */
  lemma WiderStopFewerShares(portfolio: int, riskPercent: real, entry: real, stop1: real, stop2: real)
    requires portfolio > 0 && riskPercent > 0.0
    requires stop1 <= stop2 < entry
    ensures PositionSize(portfolio, riskPercent, entry, stop1).shares
         <= PositionSize(portfolio, riskPercent, entry, stop2).shares
  {
    var r1 := PositionSize(portfolio, riskPercent, entry, stop1);
    var r2 := PositionSize(portfolio, riskPercent, entry, stop2);
    RiskIdentity(portfolio, riskPercent, entry, stop1);
    var l1, l2 := entry - stop1, entry - stop2;
    NonNegProduct(r1.shares, l1 - l2);
    assert (r2.shares - r1.shares) * l2 == r1.shares * (l1 - l2);
    NonNegFactor(r2.shares - r1.shares, l2);
  }

  /** Raising the risk percentage never buys fewer shares, for any portfolio
      that is not negative. */
  lemma MoreRiskMoreShares(portfolio: int, risk1: real, risk2: real, entry: real, stop: real)
    requires portfolio >= 0 && risk1 <= risk2 && entry > stop
    ensures PositionSize(portfolio, risk1, entry, stop).shares
         <= PositionSize(portfolio, risk2, entry, stop).shares
  {
    var r1 := PositionSize(portfolio, risk1, entry, stop);
    var r2 := PositionSize(portfolio, risk2, entry, stop);
    assert r1.riskAmount <= r2.riskAmount by {
      var p := portfolio as real;
      NonNegProduct(p, risk2 - risk1);
      assert (r2.riskAmount - r1.riskAmount) * 100.0 == p * (risk2 - risk1);
    }
    assert (r2.shares - r1.shares) * (entry - stop) == r2.riskAmount - r1.riskAmount;
    NonNegFactor(r2.shares - r1.shares, entry - stop);
  }

  /** A product of two non-negative reals is non-negative. */
  lemma NonNegProduct(x: real, y: real)
    requires 0.0 <= x && 0.0 <= y
    ensures 0.0 <= x * y
  {
  }

  /** A real whose product with a positive real is non-negative is itself non-negative. */
  lemma NonNegFactor(x: real, y: real)
    requires 0.0 < y && 0.0 <= x * y
    ensures 0.0 <= x
  {
  }

  /** The stop-loss calculator's prices are ordered whenever the current price
      is positive and the distance lies strictly between 0 and 100 per cent:
      0 < stop < current < target for every positive ratio. */
  lemma ExitsOrdered(current: real, stopPercent: real, riskReward: real)
    requires current > 0.0 && 0.0 < stopPercent < 100.0 && riskReward > 0.0
    ensures 0.0 < StopLossTakeProfit(current, stopPercent, riskReward).stopLoss < current
    ensures current < StopLossTakeProfit(current, stopPercent, riskReward).takeProfit
  {
    var r := StopLossTakeProfit(current, stopPercent, riskReward);
    assert current - r.stopLoss == current * (stopPercent / 100.0);
  }

  /** Every slider distance and every offered ratio give an ordered stop and
      target once the current price is positive. */
  lemma WidgetExitsOrdered(current: real, stopPercent: real, riskReward: real)
    requires current > 0.0 && ExitWidgetInputs(stopPercent, riskReward)
    ensures 0.0 < StopLossTakeProfit(current, stopPercent, riskReward).stopLoss < current
    ensures current < StopLossTakeProfit(current, stopPercent, riskReward).takeProfit
  {
    ExitsOrdered(current, stopPercent, riskReward);
  }

  /** The current-price input has no lower bound; for a negative price the
      same formulas put the stop above the price and the target below it. */
  lemma NegativePriceInvertsExits(current: real, stopPercent: real, riskReward: real)
    requires current < 0.0 && ExitWidgetInputs(stopPercent, riskReward)
    ensures current < StopLossTakeProfit(current, stopPercent, riskReward).stopLoss
    ensures StopLossTakeProfit(current, stopPercent, riskReward).takeProfit < current
  {
    var r := StopLossTakeProfit(current, stopPercent, riskReward);
    assert current - r.stopLoss == current * (stopPercent / 100.0);
  }

  /** The distance and the ratio can be read back from the prices the
      stop-loss calculator produces. */
  lemma ExitsRecoverInputs(current: real, stopPercent: real, riskReward: real)
    requires current != 0.0 && stopPercent != 0.0
    ensures
      var r := StopLossTakeProfit(current, stopPercent, riskReward);
      && (current - r.stopLoss) * 100.0 / current == stopPercent
      && (r.takeProfit - current) / (current - r.stopLoss) == riskReward
  {
    var r := StopLossTakeProfit(current, stopPercent, riskReward);
    assert current - r.stopLoss == current * stopPercent / 100.0;
  }

  /** Sizing a trade entered at the current price with the stop the stop-loss
      calculator proposes: the position is accepted, and the money invested is
      the portfolio times the ratio of risk percentage to stop distance. */
  lemma SizingAtProposedStop(portfolio: int, riskPercent: real, current: real, stopPercent: real, riskReward: real)
    requires current > 0.0 && 0.0 < stopPercent < 100.0
    ensures
      var stop := StopLossTakeProfit(current, stopPercent, riskReward).stopLoss;
      var r := PositionSize(portfolio, riskPercent, current, stop);
      r.Ok? && r.positionValue * stopPercent == portfolio as real * riskPercent
  {
    var stop := StopLossTakeProfit(current, stopPercent, riskReward).stopLoss;
    ExitsOrdered(current, stopPercent, 1.0);
    var r := PositionSize(portfolio, riskPercent, current, stop);
    assert (current - stop) * 100.0 == current * stopPercent;
    assert r.positionValue * (current - stop) == r.riskAmount * current;
  }

  /** The dashboard's default position inputs: 2 % of 25000 is 500 at risk, a
      5-euro stop distance buys 100 shares, an investment of 10000. */
  lemma DefaultPosition()
    ensures PositionSize(25000, 2.0, 100.0, 95.0) == Ok(100.0, 10000.0, 500.0)
  {
  }

  /** An entry below the stop is refused. */
  lemma EntryBelowStopRefused()
    ensures PositionSize(25000, 2.0, 90.0, 95.0) == InvalidStopLoss
  {
  }

  /** The dashboard's default exit inputs: 5 % below 150 is 142.5, and one
      and a half times that 7.5 distance above 150 is 161.25. */
  lemma DefaultExits()
    ensures StopLossTakeProfit(150.0, 5.0, 1.5) == Exits(142.5, 161.25, 1.5)
  {
  }

  /** A worked example with ratio 2: 5 % below 150 is 142.5, and twice that
      7.5 distance above 150 is 165. */
  lemma ExitsExample()
    ensures StopLossTakeProfit(150.0, 5.0, 2.0) == Exits(142.5, 165.0, 2.0)
  {
  }
}
