/** The monthly operations of the always-monthly engine in
    back/core/strategies.py: appreciation, loan amortisation and rent
    collection, the operating-deficit test, refinancing, and the purchase
    loop with its choice between cash and leverage. */
module Operations {
  import opened Wrappers
  import opened Numerics
  import opened Sums
  import opened Amortization
  import opened Investment
  import opened Labels
  import opened Config
  import opened Engine

  function ValueOf(p: Property): real { p.currentValue }
  function LoanOf(p: Property): real { p.loan }
  function FlowOf(p: Property): real { p.monthlyCashflow }
  function CostBasisOf(p: Property): real { p.costBasis }

  function TotalValue(props: seq<Property>): real { SumBy(props, ValueOf) }
  function TotalDebt(props: seq<Property>): real { SumBy(props, LoanOf) }
  function TotalCashflow(props: seq<Property>): real { SumBy(props, FlowOf) }
  function TotalCashInvested(props: seq<Property>): real { SumBy(props, CostBasisOf) }

  // ---------------------------------------------------------------------
  // Appreciation

  /** The monthly growth factor of every property's value. */
  function MonthlyFactor(base: PropertyInvestment): real {
    1.0 + base.financing.appreciationRate / 12.0
  }

  function Grow(p: Property, factor: real): Property {
    p.(currentValue := p.currentValue * factor, monthsOwned := p.monthsOwned + 1)
  }

  /** `_apply_appreciation`: every value grows by the factor and every
      property ages one month; nothing else changes. */
  function Appreciate(props: seq<Property>, factor: real): (r: seq<Property>)
    ensures |r| == |props|
    ensures forall i :: 0 <= i < |r| ==>
      && r[i].currentValue == props[i].currentValue * factor
      && r[i].monthsOwned == props[i].monthsOwned + 1
      && r[i].(currentValue := props[i].currentValue, monthsOwned := props[i].monthsOwned) == props[i]
  {
    seq(|props|, i requires 0 <= i < |props| => Grow(props[i], factor))
  }

  /** The portfolio's total value grows by exactly the monthly factor. */
  lemma AppreciationScalesTotalValue(props: seq<Property>, factor: real)
    ensures TotalValue(Appreciate(props, factor)) == TotalValue(props) * factor
  {
    SumByScale(props, Appreciate(props, factor), ValueOf, ValueOf, factor);
  }

  // ---------------------------------------------------------------------
  // Amortisation and rent

  /** The loan update of `_apply_monthly_operations`: when there is a loan
      and a payment, a month's interest accrues and the payment is taken
      off, the loan stopping at zero; otherwise the loan is left alone. */
  function AmortiseStep(loan: real, payment: real, monthlyRate: real): (l: real)
    ensures loan > 0.0 && payment > 0.0 ==> l == Max0(loan * (1.0 + monthlyRate) - payment)
    ensures !(loan > 0.0 && payment > 0.0) ==> l == loan
  {
    if loan > 0.0 && payment > 0.0 then
      var interest := loan * monthlyRate;
      var principal := if payment - interest <= loan then payment - interest else loan;
      Max0(loan - principal)
    else loan
  }

  /** k months of `AmortiseStep`. */
  function AmortiseN(loan: real, payment: real, monthlyRate: real, k: nat): real {
    if k == 0 then loan else AmortiseStep(AmortiseN(loan, payment, monthlyRate, k - 1), payment, monthlyRate)
  }

  /** As long as the reference balance stays positive, the engine's loan
      follows it month by month; in particular a level payment that leaves
      the balance positive until the last month pays the loan off to zero. */
  lemma {:induction false} AmortisationFollowsSchedule(loan: real, payment: real, monthlyRate: real, k: nat)
    requires payment > 0.0
    requires forall j: nat :: j < k ==> Balance(loan, monthlyRate, payment, j) > 0.0
    requires Balance(loan, monthlyRate, payment, k) >= 0.0
    ensures AmortiseN(loan, payment, monthlyRate, k) == Balance(loan, monthlyRate, payment, k)
  {
    if k > 0 {
      var b := Balance(loan, monthlyRate, payment, k - 1);
      assert b > 0.0;
      AmortisationFollowsSchedule(loan, payment, monthlyRate, k - 1);
      StepOnSchedule(b, payment, monthlyRate, Balance(loan, monthlyRate, payment, k));
    }
  }

  /** A month of amortisation on a positive balance that the payment does
      not overshoot is the reference month. */
  lemma StepOnSchedule(b: real, payment: real, monthlyRate: real, b': real)
    requires b > 0.0 && payment > 0.0 && b' == b * (1.0 + monthlyRate) - payment && b' >= 0.0
    ensures AmortiseStep(b, payment, monthlyRate) == b'
  {
  }

  /** A property's monthly cash flow: vacancy-adjusted rent less a twelfth of
      the annual expenses less the bond payment. */
  function PropertyFlow(base: PropertyInvestment, p: Property): real {
    p.annualRent / 12.0 * (1.0 - base.operating.vacancyRate) - p.annualExpenses / 12.0 - p.payment
  }

  function Operate(base: PropertyInvestment, p: Property): Property {
    p.(loan := AmortiseStep(p.loan, p.payment, EngineRate(base) / 12.0),
       monthlyCashflow := PropertyFlow(base, p))
  }

  /** `_apply_monthly_operations`: each loan is amortised, each property's
      cash flow is recorded, and the cash moves by their sum. */
  function MonthlyOperations(base: PropertyInvestment, pf: Portfolio): (r: Portfolio)
    ensures |r.properties| == |pf.properties|
    ensures r.counter == pf.counter && r.injected == pf.injected
    ensures forall i :: 0 <= i < |r.properties| ==>
      && r.properties[i].monthlyCashflow == PropertyFlow(base, pf.properties[i])
      && r.properties[i].loan == AmortiseStep(pf.properties[i].loan, pf.properties[i].payment, EngineRate(base) / 12.0)
      && r.properties[i].(loan := pf.properties[i].loan, monthlyCashflow := pf.properties[i].monthlyCashflow)
         == pf.properties[i]
    ensures r.cash - pf.cash == TotalCashflow(r.properties)
  {
    var props := seq(|pf.properties|, i requires 0 <= i < |pf.properties| => Operate(base, pf.properties[i]));
    Portfolio(props, pf.cash + TotalCashflow(props), pf.counter, pf.injected)
  }

  /** Amortisation never leaves a loan negative and never raises a loan
      whose payment covers its interest. */
  lemma AmortiseBounds(loan: real, payment: real, monthlyRate: real)
    requires loan >= 0.0
    ensures AmortiseStep(loan, payment, monthlyRate) >= 0.0
    ensures payment >= loan * monthlyRate ==> AmortiseStep(loan, payment, monthlyRate) <= loan
  {
  }

  // ---------------------------------------------------------------------
  // Operating deficit

  /** How far gross rent falls short of expenses and the bond payment. */
  function Shortfall(p: Property): real {
    Max0(p.annualExpenses / 12.0 + p.payment - p.annualRent / 12.0)
  }

  /** `_calculate_monthly_operating_deficit`: the sum of the positive
      shortfalls, measured on gross rent. */
  function Deficit(props: seq<Property>): (d: real)
    ensures d >= 0.0
  {
    SumByNonNegative(props, Shortfall);
    SumBy(props, Shortfall)
  }

  /** There is no deficit exactly when every property's gross rent covers its
      expenses and bond payment. */
  lemma DeficitZeroIff(props: seq<Property>)
    ensures Deficit(props) == 0.0 <==>
      forall i :: 0 <= i < |props| ==> props[i].annualRent / 12.0 >= props[i].annualExpenses / 12.0 + props[i].payment
  {
    SumByZeroIff(props, Shortfall);
  }

  /** The run stops when there is a deficit the cash cannot cover. */
  predicate DeficitEndsRun(props: seq<Property>, cash: real) {
    Deficit(props) > 0.0 && cash < Deficit(props)
  }

  // ---------------------------------------------------------------------
  // Refinancing

  /** The refinancing cadence in months. */
  function RefinanceInterval(cfg: StrategyConfig): int {
    Trunc(cfg.refinanceFrequencyYears * 12.0)
  }

  /** `_should_refinance`: a global cadence, on months divisible by the
      interval (a zero interval raises, so callers exclude it). */
  predicate ShouldRefinance(cfg: StrategyConfig, month: int)
    requires RefinanceInterval(cfg) != 0
  {
    month % RefinanceInterval(cfg) == 0
  }

  /** With an interval of n months, refinancing happens on every n-th month
      and on no month in between. */
  lemma RefinanceCadence(cfg: StrategyConfig, k: int, j: int)
    requires RefinanceInterval(cfg) > 0
    requires 0 <= j < RefinanceInterval(cfg)
    ensures ShouldRefinance(cfg, k * RefinanceInterval(cfg) + j) <==> j == 0
  {
    ModMultiplePlus(k, RefinanceInterval(cfg), j);
  }

  /** `RefinancingEvent`. */
  datatype RefinancingEvent = RefinancingEvent(
    propertyId: nat,
    propertyValue: real,
    oldLoan: real,
    newLoan: real,
    cashExtracted: real,
    newLtv: real)

  function ExtractedOf(e: RefinancingEvent): real { e.cashExtracted }

  /** The smallest extraction worth refinancing for. */
  const MinExtraction: real := 10000.0

  /** The loan-to-value ratio refinancing draws up to: 60% when unset. */
  function TargetLtv(base: PropertyInvestment): real {
    OrDefault(base.strategy.targetRefinanceLtv, 0.6)
  }

  /** A leveraged property with a positive value whose loan can grow by more
      than the minimum extraction. */
  predicate Refinances(p: Property, target: real) {
    && p.financingLabel != CashLabel
    && p.currentValue > 0.0
    && Max0(p.currentValue * target - p.loan) > MinExtraction
  }

  function RefinanceProperty(base: PropertyInvestment, p: Property, target: real): Property
    requires EnginePaymentDefined(base)
  {
    if Refinances(p, target) then
      var newLoan := p.currentValue * target;
      p.(loan := newLoan, payment := EnginePayment(base, newLoan))
    else p
  }

  /** The ledger after `_apply_refinancing`: each refinanced property's loan
      is reset to the target share of its value, with a fresh payment over a
      full term; every other property is untouched. */
  function RefinanceLedger(base: PropertyInvestment, props: seq<Property>, target: real): (r: seq<Property>)
    requires EnginePaymentDefined(base)
    ensures |r| == |props|
    ensures forall i :: 0 <= i < |r| ==>
      if Refinances(props[i], target) then
        && r[i].loan == props[i].currentValue * target
        && r[i].loan > props[i].loan + MinExtraction
        && r[i].payment == EnginePayment(base, r[i].loan)
        && r[i].(loan := props[i].loan, payment := props[i].payment) == props[i]
      else r[i] == props[i]
  {
    seq(|props|, i requires 0 <= i < |props| => RefinanceProperty(base, props[i], target))
  }

  /** The events of `_apply_refinancing`, one per refinanced property in
      ledger order. */
  function RefinanceEvents(props: seq<Property>, target: real): (r: seq<RefinancingEvent>)
    ensures |r| <= |props|
    ensures forall i :: 0 <= i < |r| ==> r[i].cashExtracted > MinExtraction && r[i].newLtv == target
    decreases |props|
  {
    if |props| == 0 then []
    else
      var p := props[0];
      var rest := RefinanceEvents(props[1..], target);
      if Refinances(p, target) then [RefinanceEvent(p, target)] + rest
      else rest
  }

  /** The event recorded for one refinanced property: the loan moves to the
      target share of the value and the difference is the cash taken out. */
  function RefinanceEvent(p: Property, target: real): (e: RefinancingEvent)
    requires Refinances(p, target)
    ensures e.propertyId == p.id && e.oldLoan == p.loan && e.newLoan == p.currentValue * target
    ensures e.cashExtracted == e.newLoan - e.oldLoan > MinExtraction
    ensures e.newLtv == target
  {
    var newLoan := p.currentValue * target;
    RefinancingEvent(p.id, p.currentValue, p.loan, newLoan, Max0(newLoan - p.loan), target)
  }

  /** Refinancing turns equity into cash and nothing else: the cash extracted
      equals the debt added, so cash less debt is unchanged. */
  lemma {:induction false} RefinanceConservesNetPosition(base: PropertyInvestment, props: seq<Property>,
                                                         target: real)
    requires EnginePaymentDefined(base)
    ensures SumBy(RefinanceEvents(props, target), ExtractedOf)
         == TotalDebt(RefinanceLedger(base, props, target)) - TotalDebt(props)
    decreases |props|
  {
    if |props| > 0 {
      var p := props[0];
      var ledger := RefinanceLedger(base, props, target);
      var events := RefinanceEvents(props, target);
      var rest := RefinanceEvents(props[1..], target);
      RefinanceConservesNetPosition(base, props[1..], target);
      assert RefinanceLedger(base, props[1..], target) == ledger[1..];
      assert TotalDebt(ledger) == ledger[0].loan + TotalDebt(ledger[1..]);
      assert TotalDebt(props) == p.loan + TotalDebt(props[1..]);
      if Refinances(p, target) {
        assert events[1..] == rest;
        assert SumBy(events, ExtractedOf) == ledger[0].loan - p.loan + SumBy(rest, ExtractedOf);
      } else {
        assert events == rest;
        assert ledger[0] == p;
      }
    }
  }

  // ---------------------------------------------------------------------
  // Choosing and buying the next property

  predicate IsLeveraged(p: Property) {
    p.financingLabel != CashLabel
  }

  function LeveragedCount(props: seq<Property>): (n: nat)
    ensures n <= |props|
  {
    CountIf(props, IsLeveraged)
  }

  /** `_should_use_leverage_for_next_property`: cash-only never leverages,
      leveraged always does; a mixed strategy follows the first-property type
      on an empty ledger and otherwise leverages when the leverage share lags
      its target by strictly more than the cash share lags its own (a tie
      buys for cash). */
  predicate ShouldLeverage(cfg: StrategyConfig, props: seq<Property>) {
    match cfg.kind
    case CashOnly => false
    case LeveragedOnly => true
    case Mixed =>
      if |props| == 0 then cfg.firstPropertyType == FirstLeveraged
      else
        var n := |props| as real;
        var leveraged := LeveragedCount(props);
        var cash := |props| - leveraged;
        cfg.leveragedPropertyRatio - leveraged as real / n > cfg.cashPropertyRatio - cash as real / n
  }

  /** When the two targets sum to one (as the mixed factory enforces) the rule
      is: leverage exactly when the leveraged share is below its target. */
  lemma MixedLeveragesBelowTarget(cfg: StrategyConfig, props: seq<Property>)
    requires cfg.kind == Mixed && |props| > 0
    requires cfg.leveragedPropertyRatio + cfg.cashPropertyRatio == 1.0
    ensures ShouldLeverage(cfg, props)
        <==> (LeveragedCount(props) as real) / (|props| as real) < cfg.leveragedPropertyRatio
  {
    var n := |props| as real;
    var l := LeveragedCount(props) as real;
    assert n > 0.0;
    assert (|props| - LeveragedCount(props)) as real == n - l;
    assert (n - l) / n == n / n - l / n;
  }

  /** The cheapest property the strategy can buy; a purchase never costs
      less. */
  function MinUnitCost(base: PropertyInvestment, cfg: StrategyConfig): (m: real)
    ensures forall lev: bool :: (lev ==> cfg.kind != CashOnly) && (!lev ==> cfg.kind != LeveragedOnly)
                                ==> m <= UnitCost(base, cfg, lev)
  {
    match cfg.kind
    case CashOnly => UnitCost(base, cfg, false)
    case LeveragedOnly => UnitCost(base, cfg, true)
    case Mixed =>
      if UnitCost(base, cfg, true) <= UnitCost(base, cfg, false) then UnitCost(base, cfg, true)
      else UnitCost(base, cfg, false)
  }

  predicate Reinvests(base: PropertyInvestment, cfg: StrategyConfig) {
    Ready(base, cfg) && cfg.enableReinvestment
  }

  /** What a property the engine buys looks like: a cash property carries
      no loan, and only a strategy that may leverage buys leveraged ones,
      labelled with the configured ratio. */
  predicate Fresh(base: PropertyInvestment, cfg: StrategyConfig, p: Property) {
    && (p.financingLabel == CashLabel ==> p.loan == 0.0)
    && (p.financingLabel == CashLabel || (p.financingLabel == LeverageLabel(cfg) && cfg.kind != CashOnly))
    && p.annualRent == AnnualRentalIncome(base.operating)
    && p.annualExpenses == EngineAnnualExpenses(base.operating)
  }

  datatype ReinvestOutcome = ReinvestOutcome(portfolio: Portfolio, purchases: seq<Purchase>)

  function CashRequiredOf(p: Purchase): real { p.cashRequired }

  /** `_apply_reinvestment`: keep buying the property the strategy picks
      next while the cash covers it. The new properties are appended with
      consecutive ids, the cash falls by what they cost, and the loop stops
      exactly when the next pick is unaffordable. */
  function Reinvest(base: PropertyInvestment, cfg: StrategyConfig, pf: Portfolio): (r: ReinvestOutcome)
    requires Reinvests(base, cfg)
    ensures |r.portfolio.properties| == |pf.properties| + |r.purchases|
    ensures r.portfolio.properties[..|pf.properties|] == pf.properties
    ensures r.portfolio.counter == pf.counter + |r.purchases| && r.portfolio.injected == pf.injected
    ensures r.portfolio.cash == pf.cash - SumBy(r.purchases, CashRequiredOf)
    ensures r.portfolio.cash < UnitCost(base, cfg, ShouldLeverage(cfg, r.portfolio.properties))
    ensures pf.cash >= 0.0 || |r.purchases| > 0 ==> r.portfolio.cash >= 0.0
    decreases Budget(pf.cash, MinUnitCost(base, cfg))
  {
    var leverage := ShouldLeverage(cfg, pf.properties);
    var cost := UnitCost(base, cfg, leverage);
    if pf.cash >= cost then
      var p := NewProperty(base, cfg, pf.counter, leverage, cost);
      BudgetDecreases(pf.cash, cost, MinUnitCost(base, cfg));
      var rest := Reinvest(base, cfg, Portfolio(pf.properties + [p], pf.cash - cost, pf.counter + 1, pf.injected));
      var purchases := [PurchaseOf(p, cost)] + rest.purchases;
      assert rest.portfolio.properties[..|pf.properties|] == pf.properties by {
        assert rest.portfolio.properties[..|pf.properties| + 1][..|pf.properties|] == pf.properties;
      }
      assert purchases[1..] == rest.purchases;
      ReinvestOutcome(rest.portfolio, purchases)
    else
      ReinvestOutcome(pf, [])
  }

  /** The i-th purchase of `r`, made from `pf`, is a fresh property whose id
      continues the counter and whose cost basis is the cash it took. */
  predicate PurchaseIsFresh(base: PropertyInvestment, cfg: StrategyConfig, pf: Portfolio,
                            r: ReinvestOutcome, i: nat)
    requires i < |r.purchases| && |r.portfolio.properties| == |pf.properties| + |r.purchases|
  {
    && r.purchases[i].propertyId == pf.counter + i
    && r.portfolio.properties[|pf.properties| + i].id == pf.counter + i
    && r.portfolio.properties[|pf.properties| + i].costBasis == r.purchases[i].cashRequired
    && Fresh(base, cfg, r.portfolio.properties[|pf.properties| + i])
  }

  /** The i-th purchase of `r` follows the loop's rule: the financing is the
      one `ShouldLeverage` picks for the ledger as it stood before it, the
      cash it took is that choice's unit cost, the cash left before it
      covered that cost, and the property is the one `NewProperty` builds. */
  predicate PurchaseFollowsRule(base: PropertyInvestment, cfg: StrategyConfig, pf: Portfolio,
                                r: ReinvestOutcome, i: nat)
    requires Ready(base, cfg)
    requires i < |r.purchases| && |r.portfolio.properties| == |pf.properties| + |r.purchases|
  {
    var leverage := ShouldLeverage(cfg, r.portfolio.properties[..|pf.properties| + i]);
    var cost := UnitCost(base, cfg, leverage);
    && r.purchases[i].cashRequired == cost
    && pf.cash - SumBy(r.purchases[..i], CashRequiredOf) >= cost
    && r.portfolio.properties[|pf.properties| + i] == NewProperty(base, cfg, pf.counter + i, leverage, cost)
    && r.purchases[i] == PurchaseOf(r.portfolio.properties[|pf.properties| + i], cost)
  }

  predicate AllPurchasesFresh(base: PropertyInvestment, cfg: StrategyConfig, pf: Portfolio, r: ReinvestOutcome)
    requires Ready(base, cfg)
  {
    && |r.portfolio.properties| == |pf.properties| + |r.purchases|
    && forall i: nat :: i < |r.purchases| ==>
         PurchaseIsFresh(base, cfg, pf, r, i) && PurchaseFollowsRule(base, cfg, pf, r, i)
  }

  /** A fresh purchase by the rule from `pf`, followed by purchases from the
      portfolio after it that are all fresh and by the rule. */
  predicate ConsFresh(base: PropertyInvestment, cfg: StrategyConfig, pf: Portfolio, p: Property, cost: real,
                      rest: ReinvestOutcome)
  {
    && Ready(base, cfg) && Fresh(base, cfg, p)
    && cost == UnitCost(base, cfg, ShouldLeverage(cfg, pf.properties)) && pf.cash >= cost
    && p == NewProperty(base, cfg, pf.counter, ShouldLeverage(cfg, pf.properties), cost)
    && |rest.portfolio.properties| > |pf.properties|
    && rest.portfolio.properties[..|pf.properties| + 1] == pf.properties + [p]
    && AllPurchasesFresh(base, cfg, Portfolio(pf.properties + [p], pf.cash - cost, pf.counter + 1, pf.injected), rest)
  }

  lemma ConsFreshHead(base: PropertyInvestment, cfg: StrategyConfig, pf: Portfolio, p: Property, cost: real,
                      rest: ReinvestOutcome)
    requires ConsFresh(base, cfg, pf, p, cost, rest)
    ensures var r := ReinvestOutcome(rest.portfolio, [PurchaseOf(p, cost)] + rest.purchases);
            && |r.portfolio.properties| == |pf.properties| + |r.purchases|
            && PurchaseIsFresh(base, cfg, pf, r, 0) && PurchaseFollowsRule(base, cfg, pf, r, 0)
  {
    var r := ReinvestOutcome(rest.portfolio, [PurchaseOf(p, cost)] + rest.purchases);
    assert r.portfolio.properties[|pf.properties|] == (pf.properties + [p])[|pf.properties|];
    assert r.portfolio.properties[..|pf.properties|] == pf.properties by {
      assert r.portfolio.properties[..|pf.properties|] == (pf.properties + [p])[..|pf.properties|];
    }
    assert r.purchases[..0] == [];
  }

  lemma ConsFreshTail(base: PropertyInvestment, cfg: StrategyConfig, pf: Portfolio, p: Property, cost: real,
                      rest: ReinvestOutcome, i: nat)
    requires ConsFresh(base, cfg, pf, p, cost, rest)
    requires 0 < i <= |rest.purchases|
    ensures var r := ReinvestOutcome(rest.portfolio, [PurchaseOf(p, cost)] + rest.purchases);
            && |r.portfolio.properties| == |pf.properties| + |r.purchases|
            && PurchaseIsFresh(base, cfg, pf, r, i) && PurchaseFollowsRule(base, cfg, pf, r, i)
  {
    var next := Portfolio(pf.properties + [p], pf.cash - cost, pf.counter + 1, pf.injected);
    var r := ReinvestOutcome(rest.portfolio, [PurchaseOf(p, cost)] + rest.purchases);
    assert PurchaseIsFresh(base, cfg, next, rest, i - 1);
    assert PurchaseFollowsRule(base, cfg, next, rest, i - 1);
    assert r.purchases[i] == rest.purchases[i - 1];
    assert r.purchases[..i] == [PurchaseOf(p, cost)] + rest.purchases[..i - 1];
    assert r.purchases[..i][1..] == rest.purchases[..i - 1];
  }

  /** One purchase in front of purchases that are all fresh. */
  lemma ConsFreshPurchase(base: PropertyInvestment, cfg: StrategyConfig, pf: Portfolio, p: Property,
                          cost: real, rest: ReinvestOutcome)
    requires ConsFresh(base, cfg, pf, p, cost, rest)
    ensures AllPurchasesFresh(base, cfg, pf, ReinvestOutcome(rest.portfolio, [PurchaseOf(p, cost)] + rest.purchases))
  {
    var r := ReinvestOutcome(rest.portfolio, [PurchaseOf(p, cost)] + rest.purchases);
    ConsFreshHead(base, cfg, pf, p, cost, rest);
    forall i: nat | 0 < i < |r.purchases|
      ensures PurchaseIsFresh(base, cfg, pf, r, i) && PurchaseFollowsRule(base, cfg, pf, r, i)
    {
      ConsFreshTail(base, cfg, pf, p, cost, rest, i);
    }
  }

  /** Every purchase of `Reinvest` is a fresh property whose id continues the
      counter and whose cost basis is the cash it took. */
  lemma {:induction false} ReinvestBuysFresh(base: PropertyInvestment, cfg: StrategyConfig, pf: Portfolio)
    requires Reinvests(base, cfg)
    ensures AllPurchasesFresh(base, cfg, pf, Reinvest(base, cfg, pf))
    decreases Budget(pf.cash, MinUnitCost(base, cfg))
  {
    var leverage := ShouldLeverage(cfg, pf.properties);
    var cost := UnitCost(base, cfg, leverage);
    if pf.cash >= cost {
      var p := NewProperty(base, cfg, pf.counter, leverage, cost);
      assert Fresh(base, cfg, p) by { EncodedIsNotCash(cfg.leverageRatio); }
      BudgetDecreases(pf.cash, cost, MinUnitCost(base, cfg));
      var next := Portfolio(pf.properties + [p], pf.cash - cost, pf.counter + 1, pf.injected);
      ReinvestBuysFresh(base, cfg, next);
      var rest := Reinvest(base, cfg, next);
      assert rest.portfolio.properties[..|pf.properties| + 1] == pf.properties + [p];
      ConsFreshPurchase(base, cfg, pf, p, cost, rest);
    }
  }
}
