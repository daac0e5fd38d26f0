/**
 The indicator labels of the "Technical Analysis" panel: an RSI reading, a MACD
 reading and a volatility figure are each sorted into a status, and RSI and MACD
 also get a colour. The panel displays only the statuses; the two colours are
 computed but never shown.
 */
module TechnicalAnalysis {
  import opened DailyOpportunities

  /** Status of a relative-strength-index reading. */
  datatype RsiStatus = Oversold | Neutral | Overbought

  /** Status of a MACD reading. */
  datatype MacdStatus = Bearish | Neutral | Bullish

  /** Position of an RSI status on the scale Oversold < Neutral < Overbought. */
  function RsiRank(s: RsiStatus): nat
  {
    match s
    case Oversold => 0
    case Neutral => 1
    case Overbought => 2
  }

  /** Position of a MACD status on the scale Bearish < Neutral < Bullish. */
  function MacdRank(s: MacdStatus): nat
  {
    match s
    case Bearish => 0
    case Neutral => 1
    case Bullish => 2
  }

  /** Status of an integer RSI reading: below 30 Oversold, above 70 Overbought,
      30 to 70 inclusive Neutral. */
  function RsiStatusOf(rsi: int): (s: RsiStatus)
    ensures s == Oversold <==> rsi < 30
    ensures s == Overbought <==> 70 < rsi
    ensures s == RsiStatus.Neutral <==> 30 <= rsi <= 70
  {
    if rsi < 30 then Oversold
    else if rsi > 70 then Overbought
    else RsiStatus.Neutral
  }

  /** Colour of an RSI reading, decided by the same two thresholds as its status. */
  function RsiColour(rsi: int): (c: Colour)
    ensures c == Red <==> rsi < 30
    ensures c == Green <==> 70 < rsi
    ensures c == Orange <==> 30 <= rsi <= 70
  {
    if rsi < 30 then Red
    else if rsi > 70 then Green
    else Orange
  }

  /** Status of a MACD reading: above 0.5 Bullish, below -0.5 Bearish, in between
      (both ends included) Neutral. */
  function MacdStatusOf(macd: real): (s: MacdStatus)
    ensures s == Bullish <==> 0.5 < macd
    ensures s == Bearish <==> macd < -0.5
    ensures s == MacdStatus.Neutral <==> -0.5 <= macd <= 0.5
  {
    if macd > 0.5 then Bullish
    else if macd < -0.5 then Bearish
    else MacdStatus.Neutral
  }

  /** Colour of a MACD reading, decided by the same two thresholds as its status. */
  function MacdColour(macd: real): (c: Colour)
    ensures c == Green <==> 0.5 < macd
    ensures c == Red <==> macd < -0.5
    ensures c == Orange <==> -0.5 <= macd <= 0.5
  {
    if macd > 0.5 then Green
    else if macd < -0.5 then Red
    else Orange
  }

  /** Volatility status of the indicator panel: above 20 High, below 15 Low,
      15 to 20 inclusive Medium. */
  function VolatilityStatus(volatility: real): (level: RiskLevel)
    ensures level == High <==> 20.0 < volatility
    ensures level == Low <==> volatility < 15.0
    ensures level == Medium <==> 15.0 <= volatility <= 20.0
  {
    if volatility > 20.0 then High
    else if volatility < 15.0 then Low
    else Medium
  }

  /** The colour of an RSI reading is a function of its status alone:
      Oversold is Red, Neutral Orange, Overbought Green. */
  lemma RsiColourFollowsStatus(rsi: int)
    ensures RsiColour(rsi) == Red <==> RsiStatusOf(rsi) == Oversold
    ensures RsiColour(rsi) == Orange <==> RsiStatusOf(rsi) == RsiStatus.Neutral
    ensures RsiColour(rsi) == Green <==> RsiStatusOf(rsi) == Overbought
  {
  }

  /** The colour of a MACD reading is a function of its status alone:
      Bearish is Red, Neutral Orange, Bullish Green. */
  lemma MacdColourFollowsStatus(macd: real)
    ensures MacdColour(macd) == Red <==> MacdStatusOf(macd) == Bearish
    ensures MacdColour(macd) == Orange <==> MacdStatusOf(macd) == MacdStatus.Neutral
    ensures MacdColour(macd) == Green <==> MacdStatusOf(macd) == Bullish
  {
  }

  /** A higher RSI never gets a lower status. */
  lemma RsiStatusMonotone(r1: int, r2: int)
    requires r1 <= r2
    ensures RsiRank(RsiStatusOf(r1)) <= RsiRank(RsiStatusOf(r2))
  {
  }

  /** A higher MACD never gets a lower status. */
  lemma MacdStatusMonotone(m1: real, m2: real)
    requires m1 <= m2
    ensures MacdRank(MacdStatusOf(m1)) <= MacdRank(MacdStatusOf(m2))
  {
  }

  /** A higher volatility never gets a lower status in the indicator panel. */
  lemma VolatilityStatusMonotone(v1: real, v2: real)
    requires v1 <= v2
    ensures LevelRank(VolatilityStatus(v1)) <= LevelRank(VolatilityStatus(v2))
  {
  }

  /** The two volatility labellers of the dashboard agree on every figure
      except exactly 20, which the opportunities table calls High and the
      indicator panel calls Medium. */
  lemma VolatilityLabellersDisagreeOnlyAtTwenty(v: real)
    ensures VolatilityRisk(v) != VolatilityStatus(v) <==> v == 20.0
    ensures v == 20.0 ==> VolatilityRisk(v) == High && VolatilityStatus(v) == Medium
  {
  }

  /** Every RSI the panel simulates (an integer from 30 to 69) is Neutral, so
      the Oversold and Overbought statuses are never shown. */
  lemma SimulatedRsiIsNeutral(rsi: int)
    requires 30 <= rsi < 70
    ensures RsiStatusOf(rsi) == RsiStatus.Neutral
    ensures RsiColour(rsi) == Orange
  {
  }
}
