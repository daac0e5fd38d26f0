/**
 The threshold labels of the "Daily Opportunities" table: each stock's simulated
 volatility becomes a risk level, the risk level becomes a colour, and the
 simulated confidence score becomes a colour of its own.
 */
module DailyOpportunities {

  /** The three risk levels a volatility figure is sorted into. */
  datatype RiskLevel = Low | Medium | High

  /** The three display colours the dashboard uses for every traffic-light label. */
  datatype Colour = Green | Orange | Red

  /** Position of a risk level on the scale Low < Medium < High. */
  function LevelRank(level: RiskLevel): nat
  {
    match level
    case Low => 0
    case Medium => 1
    case High => 2
  }

  /** Position of a colour on the scale Red < Orange < Green (bad to good). */
  function ColourRank(c: Colour): nat
  {
    match c
    case Red => 0
    case Orange => 1
    case Green => 2
  }

  /** Risk level of a volatility percentage as the opportunities table labels it:
      below 15 is Low, below 20 is Medium, everything else High. */
  function VolatilityRisk(volatility: real): (level: RiskLevel)
    ensures level == Low <==> volatility < 15.0
    ensures level == Medium <==> 15.0 <= volatility < 20.0
    ensures level == High <==> 20.0 <= volatility
  {
    if volatility < 15.0 then Low
    else if volatility < 20.0 then Medium
    else High
  }

  /** Colour shown next to a risk level. */
  function RiskColour(level: RiskLevel): (c: Colour)
    ensures ColourRank(c) + LevelRank(level) == 2
  {
    if level == Low then Green
    else if level == Medium then Orange
    else Red
  }

  /** Colour of a confidence score: 80 and above is Green, 70 to 79 Orange, below 70 Red. */
  function ConfidenceColour(confidence: int): (c: Colour)
    ensures c == Green <==> 80 <= confidence
    ensures c == Orange <==> 70 <= confidence < 80
    ensures c == Red <==> confidence < 70
  {
    if confidence >= 80 then Green
    else if confidence >= 70 then Orange
    else Red
  }

  /** A higher volatility never gets a lower risk level. */
  lemma VolatilityRiskMonotone(v1: real, v2: real)
    requires v1 <= v2
    ensures LevelRank(VolatilityRisk(v1)) <= LevelRank(VolatilityRisk(v2))
  {
  }

  /** The risk colour only gets worse as volatility rises: composing the two
      labels of the table is antitone on the colour scale. */
  lemma VolatilityColourAntitone(v1: real, v2: real)
    requires v1 <= v2
    ensures ColourRank(RiskColour(VolatilityRisk(v2))) <= ColourRank(RiskColour(VolatilityRisk(v1)))
  {
    VolatilityRiskMonotone(v1, v2);
  }

  /** A higher confidence score never gets a worse colour. */
  lemma ConfidenceColourMonotone(c1: int, c2: int)
    requires c1 <= c2
    ensures ColourRank(ConfidenceColour(c1)) <= ColourRank(ConfidenceColour(c2))
  {
  }

  /** On the simulated confidence scores (integers 60 to 94) the colour is
      decided by band: 60 to 69 Red, 70 to 79 Orange, 80 to 94 Green. */
  lemma ConfidenceBands(confidence: int)
    requires 60 <= confidence < 95
    ensures ConfidenceColour(confidence) == Red <==> confidence <= 69
    ensures ConfidenceColour(confidence) == Orange <==> 70 <= confidence <= 79
    ensures ConfidenceColour(confidence) == Green <==> 80 <= confidence <= 94
  {
  }

  /** The simulated confidence scores reach every colour at both ends of its band. */
  lemma ConfidenceBandEnds()
    ensures ConfidenceColour(60) == Red && ConfidenceColour(69) == Red
    ensures ConfidenceColour(70) == Orange && ConfidenceColour(79) == Orange
    ensures ConfidenceColour(80) == Green && ConfidenceColour(94) == Green
  {
  }
}
