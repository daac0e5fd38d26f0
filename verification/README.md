# German trade dashboard: calculators and threshold labels

The dashboard (`app.py`) is a single Streamlit page. Almost all of it draws
widgets, charts and randomly simulated market figures. This project models the
part that holds logic, as pure functions over exact `real`:

- **Risk Management Toolkit** (module `RiskManagement`). The position-size
  calculator takes a portfolio size, a risk percentage, an entry price and a
  stop-loss price. It returns the money at risk, the share count and the
  position value, or `InvalidStopLoss` when the stop is not below the entry.
  The stop-loss calculator takes a current price, a stop distance in per cent
  and a risk-reward ratio. It returns a stop-loss price and a take-profit price.
- **Daily Opportunities** (module `DailyOpportunities`). A volatility figure
  becomes a risk level (Low/Medium/High) and that level becomes a colour. A
  confidence score becomes a colour.
- **Technical Analysis** (module `TechnicalAnalysis`). An RSI reading and a MACD
  reading each become a status and a colour; only the statuses are displayed,
  the colours are computed and never used. A volatility figure becomes a
  status, using slightly different boundaries from the opportunities table.

Both calculators are total functions, as in the source. The only guard the
code has is `loss_per_share > 0`. Claims that need signs or ranges are stated
as lemmas whose `requires` are either the widget ranges or a simple
sufficient hypothesis. The widget ranges are written out as
`PositionWidgetInputs` and `ExitWidgetInputs`. The portfolio input is a whole
number, because its `number_input` has integer bounds and step, so it is an
`int` here.

The stop-loss calculator only makes sense for a positive current price, but
the current-price input at `app.py:235` has no lower bound. The model follows
the code: the function accepts every price. `NegativePriceInvertsExits` shows
that for a negative price the stop lands above the price and the target below it.

## Model

| member | source | states |
|---|---|---|
| RiskManagement.PositionWidgetInputs | app.py:213-216 | the position inputs the widgets admit: integer portfolio from 1000, risk 0.5 to 5 %, entry and stop from 1 |
| RiskManagement.ExitWidgetInputs | app.py:236-237 | the exit inputs the widgets admit: distance 1 to 10 %, ratio one of 1.5, 2.0, 2.5, 3.0, 3.5 |
| RiskManagement.DefaultsAreWidgetInputs | app.py:213-237 | the default inputs of both calculators, with ratio 1.5 as the selectbox's first option, lie inside the widget ranges, and a ratio outside the offered list or a distance below 1 % lies outside them |
| RiskManagement.RiskAmount | app.py:219 | the money at risk is the risk percentage of the portfolio; it is positive when both are |
| RiskManagement.PositionSize | app.py:218-230 | refused exactly when the stop is not below the entry; otherwise shares times loss per share is the risk amount, the risk is the given percentage of the portfolio, and the position value times the loss per share is the risk times the entry |
| RiskManagement.StopLossTakeProfit | app.py:239-241 | the stop lies the given percentage of the current price below it, the target lies the ratio times that distance above it, and the ratio is echoed |
| RiskManagement.RiskIdentity | app.py:219-223 | with positive portfolio and risk and the stop below the entry, the share count is positive and hitting the stop loses exactly the risk amount |
| RiskManagement.SharesUnique | app.py:222-224 | any share count whose loss at the stop equals the risk amount is the one the calculator returns, with its position value |
| RiskManagement.WidgetPositionsArePositive | app.py:213-224 | for every input the widgets admit, an accepted position has positive shares, value and risk |
| RiskManagement.WiderStopFewerShares | app.py:220-223 | moving the stop further below the entry never increases the share count |
| RiskManagement.MoreRiskMoreShares | app.py:219-223 | raising the risk percentage never decreases the share count |
| RiskManagement.ExitsOrdered | app.py:239-241 | for a positive price, a distance strictly between 0 and 100 per cent and a positive ratio: 0 < stop < current < target |
| RiskManagement.WidgetExitsOrdered | app.py:235-241 | every slider distance and every offered ratio give 0 < stop < current < target for a positive price |
| RiskManagement.NegativePriceInvertsExits | app.py:235-241 | for a negative current price, which the input allows, the stop is above the price and the target below it |
| RiskManagement.ExitsRecoverInputs | app.py:239-241 | the distance percentage and the risk-reward ratio can be read back from the stop and target prices |
| RiskManagement.SizingAtProposedStop | app.py:218-241 | entering at the current price with the proposed stop is accepted, and the position value times the distance equals the portfolio times the risk percentage |
| RiskManagement.DefaultPosition | app.py:213-224 | the default inputs 25000, 2 %, 100, 95 give 100 shares, 10000 invested and 500 at risk |
| RiskManagement.EntryBelowStopRefused | app.py:220-230 | an entry of 90 with a stop of 95 is refused |
| RiskManagement.DefaultExits | app.py:235-241 | the default inputs, price 150, distance 5 % and ratio 1.5 (the selectbox's first option), give stop 142.5 and target 161.25 |
| RiskManagement.ExitsExample | app.py:239-241 | price 150, distance 5 %, ratio 2 give stop 142.5 and target 165 |
| DailyOpportunities.VolatilityRisk | app.py:106 | Low exactly below 15, Medium exactly from 15 up to but not including 20, High exactly from 20 |
| DailyOpportunities.RiskColour | app.py:107 | the colour mirrors the level: Low is Green, Medium Orange, High Red |
| DailyOpportunities.ConfidenceColour | app.py:114 | Green exactly from 80, Orange exactly from 70 to below 80, Red exactly below 70 |
| DailyOpportunities.VolatilityRiskMonotone | app.py:106 | a higher volatility never gets a lower risk level |
| DailyOpportunities.VolatilityColourAntitone | app.py:106-107 | a higher volatility never gets a better risk colour |
| DailyOpportunities.ConfidenceColourMonotone | app.py:114 | a higher confidence never gets a worse colour |
| DailyOpportunities.ConfidenceBands | app.py:113-114 | on the simulated scores 60 to 94 the colour is Red exactly for 60-69, Orange exactly for 70-79 and Green exactly for 80-94 |
| DailyOpportunities.ConfidenceBandEnds | app.py:113-114 | the simulated scores reach Red, Orange and Green, each at both ends of its band |
| TechnicalAnalysis.RsiStatusOf | app.py:185 | Oversold exactly below 30, Overbought exactly above 70, Neutral exactly from 30 to 70 |
| TechnicalAnalysis.RsiColour | app.py:186 | Red exactly below 30, Green exactly above 70, Orange exactly from 30 to 70 |
| TechnicalAnalysis.MacdStatusOf | app.py:192 | Bullish exactly above 0.5, Bearish exactly below -0.5, Neutral exactly from -0.5 to 0.5 |
| TechnicalAnalysis.MacdColour | app.py:193 | Green exactly above 0.5, Red exactly below -0.5, Orange exactly from -0.5 to 0.5 |
| TechnicalAnalysis.VolatilityStatus | app.py:198 | High exactly above 20, Low exactly below 15, Medium exactly from 15 to 20 inclusive |
| TechnicalAnalysis.RsiColourFollowsStatus | app.py:185-186 | the RSI colour is determined by its status: Oversold Red, Neutral Orange, Overbought Green |
| TechnicalAnalysis.MacdColourFollowsStatus | app.py:192-193 | the MACD colour is determined by its status: Bearish Red, Neutral Orange, Bullish Green |
| TechnicalAnalysis.RsiStatusMonotone | app.py:185 | a higher RSI never gets a lower status |
| TechnicalAnalysis.MacdStatusMonotone | app.py:192 | a higher MACD never gets a lower status |
| TechnicalAnalysis.VolatilityStatusMonotone | app.py:198 | a higher volatility never gets a lower status |
| TechnicalAnalysis.VolatilityLabellersDisagreeOnlyAtTwenty | app.py:198 | the panel's volatility status differs from the opportunities table's risk level exactly at 20, where the table says High and the panel Medium |
| TechnicalAnalysis.SimulatedRsiIsNeutral | app.py:184-186 | every simulated RSI (integers 30 to 69) is Neutral and Orange |

## Left out

- Streamlit widgets, layout, metrics, buttons and session state (`app.py:9-66`, `87-105`, `108-113`, `115-122`, `206-217`, `243-248`). They are presentation. The widget ranges appear only as the predicates `PositionWidgetInputs` and `ExitWidgetInputs`.
- Random data generation with `np.random.*`. It is non-deterministic simulation. Its ranges appear only as the hypotheses of `ConfidenceBands` and `SimulatedRsiIsNeutral` and as the sample points of `ConfidenceBandEnds`.
- The price chart, the `cumprod` price path and the rolling 20- and 50-day means (`app.py:136-177`). These are library calls over simulated float series.
- The colour of the daily change (`app.py:101`), a one-threshold rule of the same kind as the confidence colour: left out because it only colours a randomly generated figure.
- The random trend choice (`app.py:202`), the unused `yfinance` import, the compliance text and the timestamp. None of them carries logic beyond display.
- IEEE double rounding and display formatting (`:.0f`, `:,.2f`). Every formula is over exact reals. The share count is therefore fractional, as the code computes it before formatting.
- The risk amount the code computes before the stop-loss check is not shown on the error path, so `InvalidStopLoss` carries no values.
- RiskManagement.PositionWidgetInputs: states the bounds of the risk slider, not its 0.5 step, because no lemma depends on the step.
- RiskManagement.ExitWidgetInputs: states the bounds of the distance slider, not its 0.5 step, because no lemma depends on the step.
