/** The calculator component's own state: the display currency, the investment in SOL with
    the text the user typed for it, the target, the fees and the slippage. Modelled here are
    the investment field's change handler, the currency toggle and the SOL/USD conversion used
    to show amounts; the rendering of amounts as text is not. */
module Calculator {
  import opened Wrappers
  import opened ProfitEngine

  datatype Currency = USD | SOL

  datatype CalculatorState = CalculatorState(
    displayCurrency: Currency,
    investmentSol: real,
    targetProfit: real,
    fees: Fees,
    slippage: real,
    displayInvestmentValue: string)
  {
    /** The numbers the profit engine is given. */
    function Inputs(): TradeInputs {
      TradeInputs(investmentSol, targetProfit, fees, slippage)
    }
  }

  /** The state the component starts in. */
  function InitialState(): CalculatorState {
    CalculatorState(USD, 1.0, 25.0, Fees(0.001, 0.001), 0.0, "1")
  }

  /** An amount in SOL expressed in USD at the given price. */
  function SolToUsd(sol: real, solPrice: real): real {
    sol * solPrice
  }

  /** An amount in USD expressed in SOL at the given non-zero price. */
  function UsdToSol(usd: real, solPrice: real): real
    requires solPrice != 0.0
  {
    usd / solPrice
  }

  /** Converting either way and back gives the amount started from. */
  lemma ConversionRoundTrip(amount: real, solPrice: real)
    requires solPrice != 0.0
    ensures SolToUsd(UsdToSol(amount, solPrice), solPrice) == amount
    ensures UsdToSol(SolToUsd(amount, solPrice), solPrice) == amount
  {
  }

  /** The currency button flips between USD and SOL. */
  function ToggleCurrency(c: Currency): (r: Currency)
    ensures r != c
  {
    if c == USD then SOL else USD
  }

  lemma ToggleTwiceIsIdentity(c: Currency)
    ensures ToggleCurrency(ToggleCurrency(c)) == c
  {
  }

  /** An amount as shown to the user, before it is turned into text. */
  datatype Displayed = InUsd(usd: real) | InSol(sol: real)

  /** `formatValue`: amounts are shown in USD when that is the display currency and a price
      is present (a zero price counts as present here), in SOL otherwise. */
  function FormatValue(sol: real, currency: Currency, solPrice: Option<real>): (d: Displayed)
    ensures d.InUsd? <==> currency == USD && solPrice.Some?
    ensures d.InUsd? ==> d.usd == SolToUsd(sol, solPrice.value)
    ensures d.InSol? ==> d.sol == sol
  {
    if currency == USD && solPrice.Some? then InUsd(SolToUsd(sol, solPrice.value)) else InSol(sol)
  }

  /** `handleInvestmentChange`: the typed text is always kept for display; a number typed in
      USD with a truthy price is converted to SOL, any other number is taken as SOL, an empty
      field means zero and other unreadable text leaves the investment alone. `parsed` is the
      result of `parseFloat` on `value`, None for NaN. Nothing but the investment and its text
      changes. */
  function HandleInvestmentChange(s: CalculatorState, value: string, parsed: Option<real>, solPrice: Option<real>)
    : (r: CalculatorState)
    ensures r.displayInvestmentValue == value
    ensures r.(investmentSol := s.investmentSol, displayInvestmentValue := s.displayInvestmentValue) == s
    ensures parsed.None? && value == "" ==> r.investmentSol == 0.0
    ensures parsed.None? && value != "" ==> r.investmentSol == s.investmentSol
    ensures parsed.Some? && s.displayCurrency == USD && IsTruthy(solPrice) ==>
              SolToUsd(r.investmentSol, solPrice.value) == parsed.value
    ensures parsed.Some? && !(s.displayCurrency == USD && IsTruthy(solPrice)) ==>
              r.investmentSol == parsed.value
  {
    var typed := s.(displayInvestmentValue := value);
    if parsed.Some? then
      if s.displayCurrency == USD && IsTruthy(solPrice) then
        typed.(investmentSol := UsdToSol(parsed.value, solPrice.value))
      else
        typed.(investmentSol := parsed.value)
    else if value == "" then
      typed.(investmentSol := 0.0)
    else
      typed
  }

  /** Whatever number is typed, in either currency, the investment is then shown as exactly
      that number in the currency it was typed in. */
  lemma TypedAmountIsShownBack(s: CalculatorState, value: string, v: real, solPrice: real)
    requires solPrice != 0.0
    ensures FormatValue(HandleInvestmentChange(s, value, Some(v), Some(solPrice)).investmentSol,
                        s.displayCurrency, Some(solPrice))
            == (if s.displayCurrency == USD then InUsd(v) else InSol(v))
  {
    if s.displayCurrency == USD {
      ConversionRoundTrip(v, solPrice);
    }
  }

  /** Toggling the currency twice changes neither the state nor how any amount is shown. */
  lemma ToggleTwiceKeepsDisplay(s: CalculatorState, sol: real, solPrice: Option<real>)
    ensures s.(displayCurrency := ToggleCurrency(ToggleCurrency(s.displayCurrency))) == s
    ensures FormatValue(sol, ToggleCurrency(ToggleCurrency(s.displayCurrency)), solPrice)
            == FormatValue(sol, s.displayCurrency, solPrice)
  {
    ToggleTwiceIsIdentity(s.displayCurrency);
  }

  /** The calculator as first shown gives the worked example at any known price. */
  lemma InitialStateResult(solPrice: real)
    requires solPrice != 0.0
    ensures InitialState().Inputs() == DefaultInputs()
    ensures CalculateProfit(InitialState().Inputs(), Some(solPrice)).Some?
    ensures CalculateProfit(InitialState().Inputs(), Some(solPrice)).value.expectedSellPrice == 1.262
    ensures CalculateProfit(InitialState().Inputs(), Some(solPrice)).value.requiredIncrease == Some(26.2)
    ensures CalculateProfit(InitialState().Inputs(), Some(solPrice)).value.actualProfit == 0.25
  {
    DefaultExample(solPrice);
  }
}
