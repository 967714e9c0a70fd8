# Memecoin profit calculator — a Dafny model

This project models the logic of a browser calculator that tells a trader what price rise a
memecoin trade needs to reach a target profit after fees, and what the trade then returns
after slippage. Arithmetic is over Dafny's exact `real`, not IEEE floats.

- `ProfitEngine` (`profit_engine.dfy`): `calculateProfit` — the platform fee (1% of the
  investment), the flat priority and bribery fees used as entered, the sell price that reaches
  the target after fees, the required increase, the price after slippage, the slippage impact
  and the profit. The result is absent while the SOL price is null or zero.
- `Calculator` (`calculator.dfy`): the component's state and starting values, the investment
  field's change handler, the USD/SOL toggle and the SOL→USD conversion of `formatValue`.
- `SlippageInput` (`slippage_input.dfy`): the Low/Medium/High impact tier, the sign label of
  the slider value and of the preset buttons, and the presets against the slider range.
- `NumberFormat` (`format_number.dfy`): the threshold chain of `formatNumber` — which form
  (B, M, K, exponential, plain) a number gets and the value it is scaled to.
- `SolanaPrice` (`solana_price.dfy`): the price hook as a state machine over
  (price, loading, error, retryCount), with the start of a fetch attempt, its outcome and
  `retry()` as transitions.
- `Wrappers` (`wrappers.dfy`) and `RealMath` (`real_math.dfy`): `Option` and `Abs`.

Modelling decisions:

- The code has no guard for a zero investment: it divides by it and gets NaN or Infinity for
  the required increase, while every other figure is still computed. The model keeps that
  shape: `requiredIncrease` is an `Option<real>` that is `None` exactly when the investment is
  zero, and all other fields are always computed. A negative investment (a typed "-5") is
  computed mechanically, as in the code.
- Fees are used as entered. There is no minimum-fee floor and no rounding of the required
  increase that depends on its size: the code only renders it with two decimals, which is
  left out.
- `!solPrice` is true for null and for 0, so both give no result (`IsTruthy`). `formatValue`
  tests `solPrice !== null` instead, so a zero price counts as present there; that is modelled
  as written.
- `Number.parseFloat` is not modelled: its result is an input, `None` standing for NaN.
- A fetch attempt is two events: `Begin` sets loading and clears the error; `Settle` applies the
  outcome of the request (network failure, HTTP failure, or a payload whose `solana.usd` may be
  missing or zero) and ends loading. `FetchPrice` is one whole attempt, `Begin` then `Settle`.

## Model

| member | source | states |
|---|---|---|
| ProfitEngine.Compute | src/components/MemecoinCalculator.tsx:55-78 | the platform fee is 1% of the investment, the flat fees pass through, total fees are the sum of the breakdown, the expected sell price is the target amount plus total fees, the actual price is the expected one plus the slippage share of it, profit is actual minus investment and fees, and the required increase exists exactly for a non-zero investment and is the percentage rise from the investment to the expected price |
| ProfitEngine.CalculateProfit | src/components/MemecoinCalculator.tsx:52-53 | a result is produced exactly when the price is neither null nor zero |
| ProfitEngine.PriceValueIrrelevant | src/components/MemecoinCalculator.tsx:53-78 | any two non-zero prices give the same result: the price only gates the calculation |
| ProfitEngine.RequiredIncreaseDecomposition | src/components/MemecoinCalculator.tsx:57-62 | for a non-zero investment the required increase is target + 1 + (priority + bribery) / investment × 100 |
| ProfitEngine.RequiredIncreaseLowerBound | src/components/MemecoinCalculator.tsx:55-62 | with a positive investment and non-negative fees the required increase is at least target + 1, strictly more when a flat fee is paid |
| ProfitEngine.RequiredIncreaseTracksTarget | src/components/MemecoinCalculator.tsx:60-62 | changing the target moves the required increase by exactly the same amount, so it is strictly increasing in the target |
| ProfitEngine.SlippageSign | src/components/MemecoinCalculator.tsx:63-77 | zero slippage gives zero impact and actual = expected; for a positive expected price the impact has the sign of the slippage and actual > expected iff slippage > 0 |
| ProfitEngine.ExpectedSellPricePositive | src/components/MemecoinCalculator.tsx:57-61 | a positive investment, a target above -100% and non-negative fees give a positive expected sell price |
| ProfitEngine.FeesCancelOutOfProfit | src/components/MemecoinCalculator.tsx:59-64 | profit is the target gain on the investment plus the slippage impact; with zero slippage it is exactly investment × target / 100 |
| ProfitEngine.DefaultExample | src/components/MemecoinCalculator.tsx:55-78 | for 1 SOL, a 25% target, fees 0.001/0.001 and no slippage: platform 0.01, total fees 0.012, expected and actual 1.262, required increase 26.2, profit 0.25, impact 0 |
| ProfitEngine.NegativeSlippageExample | src/components/MemecoinCalculator.tsx:63-64 | the same inputs with -10% slippage give actual 1.1358, impact -0.1262, profit 0.1238 |
| Calculator.InitialStateResult | src/components/MemecoinCalculator.tsx:17-24 | the starting state feeds the engine the default inputs, giving expected 1.262, required increase 26.2 and profit 0.25 at any known price |
| Calculator.HandleInvestmentChange | src/components/MemecoinCalculator.tsx:36-50 | the typed text is kept; a number typed in USD with a truthy price becomes the SOL amount worth that many dollars; any other number is taken as SOL; an empty field gives 0; other unparseable text keeps the investment; nothing else changes |
| Calculator.FormatValue | src/components/MemecoinCalculator.tsx:91-97 | an amount is shown in USD (times the price) exactly when USD is selected and a price is present, otherwise unchanged in SOL |
| Calculator.ConversionRoundTrip | src/components/MemecoinCalculator.tsx:42-43 | converting USD→SOL→USD or SOL→USD→SOL at a non-zero price is the identity |
| Calculator.TypedAmountIsShownBack | src/components/MemecoinCalculator.tsx:40-46 | a number typed in either currency at a non-zero price is then shown as exactly that number in that currency |
| Calculator.ToggleCurrency | src/components/MemecoinCalculator.tsx:171 | the toggle always changes the currency |
| Calculator.ToggleTwiceIsIdentity | src/components/MemecoinCalculator.tsx:171 | toggling twice returns the original currency |
| Calculator.ToggleTwiceKeepsDisplay | src/components/MemecoinCalculator.tsx:171 | toggling twice changes neither the state nor how any amount is shown |
| SlippageInput.GetSlippageImpact | src/components/SlippageInput.tsx:15-20 | Low (text "Low", green) iff abs ≤ 10, Medium (yellow) iff 10 < abs ≤ 50, High (red) iff abs > 50 |
| SlippageInput.ImpactSymmetric | src/components/SlippageInput.tsx:16-19 | a slippage and its negation get the same tier |
| SlippageInput.ImpactMonotone | src/components/SlippageInput.tsx:16-19 | a larger magnitude never gets a lower tier |
| SlippageInput.SliderLabel | src/components/SlippageInput.tsx:54-55 | the "+" prefix and the green colour appear iff the slippage is ≥ 0, red and no sign otherwise |
| SlippageInput.PresetLabel | src/components/SlippageInput.tsx:66-70 | a preset's label has "+" iff it is ≥ 0; its colour is red below 0, green above 0, plain at 0 |
| SlippageInput.PresetAndSliderLabelsAgree | src/components/SlippageInput.tsx:54-70 | a preset button and the slider label have the same "+" prefix for every value and the same colour for every non-zero value; at zero the slider is green and the button plain |
| SlippageInput.PresetsClassified | src/components/SlippageInput.tsx:13-50 | every preset lies in the slider range [-100, 100]; ±50 are Medium, ±10 and 0 are Low, none is High |
| NumberFormat.FormatNumber | src/lib/formatNumber.ts:1-18 | B iff abs ≥ 1e9, M iff 1e6 ≤ abs < 1e9, K iff 1e3 ≤ abs < 1e6, exponential iff abs < 1e-6, plain otherwise; the suffix is "B", "M", "K" in those ranges and empty below 1e3; the scaled value times the form's divisor is the number |
| NumberFormat.FormatSymmetric | src/lib/formatNumber.ts:2-17 | a number and its negation get the same form and opposite scaled values |
| NumberFormat.ScaledMagnitude | src/lib/formatNumber.ts:2-9 | with K or M the scaled magnitude lies in [1, 1000); with B it is ≥ 1 |
| NumberFormat.FormMonotone | src/lib/formatNumber.ts:2-17 | a larger magnitude never gets a form meant for smaller numbers |
| SolanaPrice.OutcomeError | src/lib/use-solana-price.ts:26-34 | an outcome raises no error exactly when it is a payload with a non-zero `usd` |
| SolanaPrice.FetchPrice | src/lib/use-solana-price.ts:14-54 | every whole attempt ends not loading; a set price stays set; when an error remains recorded the price is unchanged and one more failure is counted |
| SolanaPrice.SuccessfulFetch | src/lib/use-solana-price.ts:36-38 | a non-zero `usd` becomes the price, the error is cleared and the count reset, loading ends |
| SolanaPrice.FailedFetch | src/lib/use-solana-price.ts:39-52 | on failure with count ≥ 2 the price becomes 165 and the error is cleared; with count < 2 the error is recorded, the count grows by one and the price is kept |
| SolanaPrice.InvalidPayloadIsFailure | src/lib/use-solana-price.ts:26-34 | a payload with a missing or zero `usd` leads to the same price, count, loading flag and error presence as a failed request |
| SolanaPrice.Retry | src/lib/use-solana-price.ts:70 | `retry()` sets the count to 0 and changes nothing else |
| SolanaPrice.RefreshInterval | src/lib/use-solana-price.ts:59-61 | 5000 ms exactly when an error is recorded and the count is below 3, otherwise 60000 ms |
| SolanaPrice.StepKeepsConsistent | src/lib/use-solana-price.ts:16-50 | every transition keeps the count at most 2 and any set price non-zero |
| SolanaPrice.RunKeepsConsistent | src/lib/use-solana-price.ts:16-50 | so does every sequence of attempt starts, outcomes and retries |
| SolanaPrice.PriceNeverCleared | src/lib/use-solana-price.ts:36-50 | once a price is set no sequence of events makes it null again |
| SolanaPrice.BeginAttempt | src/lib/use-solana-price.ts:14-17 | an attempt starts loading with the error cleared and changes nothing else |
| SolanaPrice.SettleAttempt | src/lib/use-solana-price.ts:32-52 | a non-zero `usd` becomes the price with the error cleared and the count reset to 0; a failure at count ≥ 2 sets the price to 165, clears the error and keeps the count; a failure below 2 records the error, adds one to the count and keeps the price; loading always ends |
| SolanaPrice.SettleIsWholeAttempt | src/lib/use-solana-price.ts:14-54 | applying an outcome has the same effect whether or not the attempt's start came first, so the settle step is the whole attempt |
| SolanaPrice.LoadingIffLastAttemptOpen | src/lib/use-solana-price.ts:16-52 | after any sequence of events the hook is loading iff the last start-or-outcome event is a start, or there is none and it was loading before |
| SolanaPrice.LoadingFromStart | src/lib/use-solana-price.ts:9-52 | from the start the hook is loading iff every outcome so far was followed by a later attempt start; the first outcome to arrive ends loading even while another attempt is pending |
| SolanaPrice.ReachableInterval | src/lib/use-solana-price.ts:44-61 | in every reachable state the count is below 3, so the 5000 ms period is chosen exactly when an error is recorded |
| SolanaPrice.ThirdFailureAdoptsFallback | src/lib/use-solana-price.ts:44-50 | from a zero count two failures keep the price and record the error; a third adopts 165 with the error cleared |

## Left out

- IEEE-754 behaviour: NaN and Infinity from the division by a zero investment (modelled as an
  absent required increase) and rounding error; a NaN price is not modelled.
- Text rendering: `toFixed`, `toLocaleString` and `toExponential`, including the two-decimal
  rendering of the required increase, the `$`/`◎` prefixes and the effect that rewrites the
  investment text when the currency, investment or price changes.
- `Number.parseFloat` and `Number(...)`: their results are inputs to the model.
- The target, fee and slippage setters are plain assignments with no logic and are not modelled.
- The network request, JSON decoding, logging, `setInterval`/`clearInterval`, React effect
  re-runs, overlapping fetches and the `retryCount` captured by the fetch closure: the model
  applies each outcome to the current state, one at a time.
- SolanaPrice.ReachableInterval: the bound of the count below 3 holds because the model applies
  each outcome to the current count; in the program overlapping attempts read a stale captured
  count and can push it to 3, so the `retryCount < 3` test is not dead there as it is here.
- Loading and error screens, JSX layout, sliders, buttons and the price proxy route.
