/** The profit engine of the memecoin calculator. From an investment in SOL, a target profit
    percentage, two flat fees and a slippage percentage it derives the sell price that reaches
    the target after fees, the price actually obtained after slippage, and the resulting profit.
    All amounts are in SOL and all rates in percent; arithmetic is exact (`real`). */
module ProfitEngine {
  import opened Wrappers

  /** The platform keeps one percent of the investment. */
  const PlatformFeePercentage: real := 1.0

  /** Flat per-trade fees chosen by the user, in SOL; used as entered, with no floor. */
  datatype Fees = Fees(priority: real, bribery: real)

  /** The calculator's numeric inputs. */
  datatype TradeInputs = TradeInputs(investmentSol: real, targetProfit: real, fees: Fees, slippage: real)

  datatype FeeBreakdown = FeeBreakdown(platform: real, priority: real, bribery: real)
  {
    function Total(): real { platform + priority + bribery }
  }

  /** What one calculation yields. `requiredIncrease` is None where the source divides
      by a zero investment (JavaScript produces NaN or Infinity there). */
  datatype ProfitResult = ProfitResult(
    requiredIncrease: Option<real>,
    expectedSellPrice: real,
    actualSellPrice: real,
    actualProfit: real,
    totalFees: real,
    feeBreakdown: FeeBreakdown,
    slippageImpact: real)

  /** JavaScript truthiness of the nullable SOL price: null and 0 are falsy. */
  predicate IsTruthy(price: Option<real>) {
    price.Some? && price.value != 0.0
  }

  /** The calculation proper, once a price is known. */
  function Compute(inp: TradeInputs): (r: ProfitResult)
    ensures r.feeBreakdown.platform * 100.0 == inp.investmentSol * PlatformFeePercentage
    ensures r.feeBreakdown.priority == inp.fees.priority && r.feeBreakdown.bribery == inp.fees.bribery
    ensures r.totalFees == r.feeBreakdown.Total()
    ensures r.expectedSellPrice - r.totalFees == inp.investmentSol * (1.0 + inp.targetProfit / 100.0)
    ensures r.actualSellPrice == r.expectedSellPrice + r.slippageImpact
    ensures r.slippageImpact == r.expectedSellPrice * inp.slippage / 100.0
    ensures r.actualProfit == r.actualSellPrice - inp.investmentSol - r.totalFees
    ensures r.requiredIncrease.Some? <==> inp.investmentSol != 0.0
    ensures r.requiredIncrease.Some? ==>
              inp.investmentSol * (1.0 + r.requiredIncrease.value / 100.0) == r.expectedSellPrice
  {
    var investmentSol := inp.investmentSol;
    var priorityFeeInSol := inp.fees.priority;
    var briberyFeeInSol := inp.fees.bribery;
    var platformFeeInSol := (investmentSol * PlatformFeePercentage) / 100.0;
    var totalFeesInSol := platformFeeInSol + priorityFeeInSol + briberyFeeInSol;
    var targetAmountInSol := investmentSol * (1.0 + inp.targetProfit / 100.0);
    var requiredSellPriceInSol := targetAmountInSol + totalFeesInSol;
    var requiredIncrease :=
      if investmentSol == 0.0 then None
      else Some(((requiredSellPriceInSol - investmentSol) / investmentSol) * 100.0);
    var actualSellPriceInSol := requiredSellPriceInSol * (1.0 + inp.slippage / 100.0);
    var actualProfitInSol := actualSellPriceInSol - investmentSol - totalFeesInSol;
    ProfitResult(
      requiredIncrease,
      requiredSellPriceInSol,
      actualSellPriceInSol,
      actualProfitInSol,
      totalFeesInSol,
      FeeBreakdown(platformFeeInSol, priorityFeeInSol, briberyFeeInSol),
      actualSellPriceInSol - requiredSellPriceInSol)
  }

  /** `calculateProfit`: no result while the price is null or zero, a full result otherwise. */
  function CalculateProfit(inp: TradeInputs, solPrice: Option<real>): (r: Option<ProfitResult>)
    ensures r.Some? <==> IsTruthy(solPrice)
    ensures r.Some? ==> r.value == Compute(inp)
  {
    if !IsTruthy(solPrice) then None else Some(Compute(inp))
  }

  /** The result depends on the price only through whether it is truthy, so a fallback price
      and a live price of any value give the same figures. */
  lemma PriceValueIrrelevant(inp: TradeInputs, p1: real, p2: real)
    requires p1 != 0.0 && p2 != 0.0
    ensures CalculateProfit(inp, Some(p1)) == CalculateProfit(inp, Some(p2)) == Some(Compute(inp))
  {
  }

  /** The required increase is the target plus the platform percentage plus the flat fees
      expressed as a percentage of the investment. */
  lemma RequiredIncreaseDecomposition(inp: TradeInputs)
    requires inp.investmentSol != 0.0
    ensures Compute(inp).requiredIncrease
            == Some(inp.targetProfit + PlatformFeePercentage
                    + (inp.fees.priority + inp.fees.bribery) / inp.investmentSol * 100.0)
  {
    var r := Compute(inp);
    var i := inp.investmentSol;
    var flat := inp.fees.priority + inp.fees.bribery;
    assert r.expectedSellPrice - i == i * inp.targetProfit / 100.0 + i / 100.0 + flat;
    var q := (r.expectedSellPrice - i) / i;
    var x := inp.targetProfit / 100.0 + 1.0 / 100.0 + flat / i;
    assert flat / i * i == flat;
    assert x * i == r.expectedSellPrice - i;
    assert q * i == x * i;
    assert (q - x) * i == 0.0;
  }

  /** With a positive investment and non-negative fees the required increase is at least the
      target plus the one percent platform fee, strictly more when a flat fee is paid. */
  lemma RequiredIncreaseLowerBound(inp: TradeInputs)
    requires inp.investmentSol > 0.0
    requires inp.fees.priority >= 0.0 && inp.fees.bribery >= 0.0
    ensures Compute(inp).requiredIncrease.Some?
    ensures Compute(inp).requiredIncrease.value >= inp.targetProfit + PlatformFeePercentage
    ensures inp.fees.priority + inp.fees.bribery > 0.0 ==>
              Compute(inp).requiredIncrease.value > inp.targetProfit + PlatformFeePercentage
  {
    RequiredIncreaseDecomposition(inp);
    var flat := inp.fees.priority + inp.fees.bribery;
    assert flat / inp.investmentSol >= 0.0;
    if flat > 0.0 {
      assert flat / inp.investmentSol > 0.0;
    }
  }

  /** Changing only the target moves the required increase by exactly the same amount,
      so it is strictly increasing in the target. */
  lemma RequiredIncreaseTracksTarget(inp: TradeInputs, target: real)
    requires inp.investmentSol != 0.0
    ensures Compute(inp.(targetProfit := target)).requiredIncrease.Some?
    ensures Compute(inp.(targetProfit := target)).requiredIncrease.value
            - Compute(inp).requiredIncrease.value == target - inp.targetProfit
    ensures inp.targetProfit < target ==>
              Compute(inp).requiredIncrease.value < Compute(inp.(targetProfit := target)).requiredIncrease.value
  {
    RequiredIncreaseDecomposition(inp);
    RequiredIncreaseDecomposition(inp.(targetProfit := target));
  }

  /** Slippage moves the actual sell price away from the expected one in its own direction:
      no slippage leaves it unchanged, and for a positive expected price the impact has the
      sign of the slippage. */
  lemma SlippageSign(inp: TradeInputs)
    ensures inp.slippage == 0.0 ==>
              Compute(inp).slippageImpact == 0.0 && Compute(inp).actualSellPrice == Compute(inp).expectedSellPrice
    ensures Compute(inp).expectedSellPrice > 0.0 ==>
              (Compute(inp).slippageImpact > 0.0 <==> inp.slippage > 0.0) &&
              (Compute(inp).slippageImpact < 0.0 <==> inp.slippage < 0.0) &&
              (Compute(inp).actualSellPrice > Compute(inp).expectedSellPrice <==> inp.slippage > 0.0)
  {
    var r := Compute(inp);
    if r.expectedSellPrice > 0.0 {
      if inp.slippage > 0.0 {
        assert r.expectedSellPrice * inp.slippage > 0.0;
      } else if inp.slippage < 0.0 {
        assert r.expectedSellPrice * inp.slippage < 0.0;
      } else {
        assert r.expectedSellPrice * inp.slippage == 0.0;
      }
    }
  }

  /** A positive investment with a target above -100% and non-negative fees asks for a
      positive sell price, so the sign rule of `SlippageSign` applies. */
  lemma ExpectedSellPricePositive(inp: TradeInputs)
    requires inp.investmentSol > 0.0 && inp.targetProfit > -100.0
    requires inp.fees.priority >= 0.0 && inp.fees.bribery >= 0.0
    ensures Compute(inp).expectedSellPrice > 0.0
  {
    var r := Compute(inp);
    var growth := 1.0 + inp.targetProfit / 100.0;
    assert growth > 0.0;
    MulPositive(inp.investmentSol, growth);
    assert r.totalFees >= 0.0;
    assert r.expectedSellPrice == inp.investmentSol * growth + r.totalFees;
  }

  lemma MulPositive(a: real, b: real)
    requires a > 0.0 && b > 0.0
    ensures a * b > 0.0
  {
  }

  /** Fees cancel out of the profit: what remains is the target gain on the investment plus the
      slippage impact, and without slippage exactly the target percentage of the investment. */
  lemma FeesCancelOutOfProfit(inp: TradeInputs)
    ensures Compute(inp).actualProfit == inp.investmentSol * inp.targetProfit / 100.0 + Compute(inp).slippageImpact
    ensures inp.slippage == 0.0 ==> Compute(inp).actualProfit == inp.investmentSol * inp.targetProfit / 100.0
  {
  }

  /** The calculator's starting inputs: 1 SOL, a 25% target, 0.001 SOL for each flat fee and
      no slippage. */
  function DefaultInputs(): TradeInputs {
    TradeInputs(1.0, 25.0, Fees(0.001, 0.001), 0.0)
  }

  /** The worked example for the starting inputs. */
  lemma DefaultExample(solPrice: real)
    requires solPrice != 0.0
    ensures CalculateProfit(DefaultInputs(), Some(solPrice)) == Some(ProfitResult(
              Some(26.2), 1.262, 1.262, 0.25, 0.012, FeeBreakdown(0.01, 0.001, 0.001), 0.0))
  {
  }

  /** The starting inputs with a slippage of -10%. */
  lemma NegativeSlippageExample()
    ensures Compute(DefaultInputs().(slippage := -10.0)).actualSellPrice == 1.1358
    ensures Compute(DefaultInputs().(slippage := -10.0)).slippageImpact == -0.1262
    ensures Compute(DefaultInputs().(slippage := -10.0)).actualProfit == 0.1238
  {
  }
}
