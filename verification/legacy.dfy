/** The legacy simulator of the root strategies.py: a second engine that
    steps at the tracking granularity (a month or a year per period),
    refinances each property on its own clock, prices new purchases at the
    ledger's mean value and stops on negative cash. It shares the profile
    arithmetic and the configuration enums with the always-monthly engine
    but none of its operations. */
module Legacy {
  import opened Wrappers
  import opened Numerics
  import opened Sums
  import opened Amortization
  import opened Investment
  import opened Config
  import opened Injections
  import opened Engine

  /** The legacy `StrategyConfig`: the horizon is in years. */
  datatype LegacyConfig = LegacyConfig(
    kind: StrategyKind,
    leverageRatio: real,
    leveragedPropertyRatio: real,
    cashPropertyRatio: real,
    firstPropertyType: FirstPropertyType,
    enableRefinancing: bool,
    refinanceFrequencyYears: real,
    enableReinvestment: bool,
    tracking: Tracking,
    simulationYears: int,
    injections: seq<InjectionRule>)

  /** The legacy `PropertyData`: no label, but a purchase period, the last
      refinancing period and the principal repaid so far. */
  datatype LProperty = LProperty(
    id: nat,
    purchasePrice: real,
    currentValue: real,
    loan: real,
    originalLoan: real,
    payment: real,
    monthlyCashflow: real,
    purchasePeriod: int,
    lastRefinance: Option<int>,
    principalPaid: real)

  /** The portfolio dictionary with its financing counters; `counter` is the
      simulator's `property_counter`. */
  datatype LPortfolio = LPortfolio(
    properties: seq<LProperty>,
    cash: real,
    cashInvested: real,
    injected: real,
    leveragedCount: nat,
    cashCount: nat,
    counter: nat)

  datatype LRefinancing = LRefinancing(
    period: int, propertyId: nat, oldLoan: real, newLoan: real, cashExtracted: real, newLtv: real,
    valueAtRefinance: real)

  /** A purchase; the financing is recorded as whether it was leveraged. */
  datatype LPurchase = LPurchase(
    period: int, propertyId: nat, purchasePrice: real, cashRequired: real, loan: real, leveraged: bool)

  datatype LInjection = LInjection(period: int, amount: real, source: Cadence, totalToDate: real)

  // ---------------------------------------------------------------------
  // Horizon

  /** Twelve periods a year under monthly tracking, one under yearly. */
  function PeriodsPerYear(cfg: LegacyConfig): (n: int)
    ensures n == 1 || n == 12
  {
    if cfg.tracking == MonthlyTracking then 12 else 1
  }

  /** The number of periods simulated. */
  function TotalPeriods(cfg: LegacyConfig): (n: int)
    ensures cfg.tracking == MonthlyTracking ==> n == 12 * cfg.simulationYears
    ensures cfg.tracking == YearlyTracking ==> n == cfg.simulationYears
  {
    if cfg.tracking == MonthlyTracking then cfg.simulationYears * 12 else cfg.simulationYears
  }

  /** How many months of cash flow one period carries. */
  function Multiplier(cfg: LegacyConfig): (m: real)
    ensures m * PeriodsPerYear(cfg) as real == 12.0
  {
    if PeriodsPerYear(cfg) == 12 then 1.0 else 12.0
  }

  /** The growth factor of one period. */
  function PeriodFactor(base: PropertyInvestment, cfg: LegacyConfig): real {
    1.0 + base.financing.appreciationRate / PeriodsPerYear(cfg) as real
  }

  // ---------------------------------------------------------------------
  // Payments and cash flow

  /** Rent after vacancy less the profile's expenses, before any bond. */
  function BaseCashflow(base: PropertyInvestment): (r: real)
    ensures MonthlyBondPayment(base).Ok? ==>
      r == MonthlyCashflow(base).value + PaymentOrZero(MonthlyBondPayment(base).value)
  {
    EffectiveMonthlyRental(base.operating) - TotalMonthlyExpenses(base.operating)
  }

  /** The payment of a purchased property: the rate and term fall back to
      10.5% and 20 years, yet a missing rate or term still raises. The
      fallback turns a zero rate into 10.5%, so the zero-rate branch of the
      source is dead and is not modelled. */
  function PurchasePayment(base: PropertyInvestment, loan: real): (r: Result<real, PaymentError>)
    ensures loan <= 0.0 ==> r == Ok(0.0)
    ensures loan > 0.0 && (base.financing.interestRate.None? || base.financing.loanTermYears.None?)
            ==> r == Err(MissingRateOrTerm)
    ensures loan > 0.0 && r.Ok? ==>
      Balance(loan, EngineRate(base) / 12.0, r.value, EngineTermYears(base) * 12) == 0.0
  {
    if loan > 0.0 then
      var monthly := EngineRate(base) / 12.0;
      var n := EngineTermYears(base) * 12;
      if base.financing.interestRate.None? || base.financing.loanTermYears.None? then Err(MissingRateOrTerm)
      else
        var r := Annuity(loan, monthly, n);
        if r.Ok? then AnnuityRepaysLoan(loan, monthly, n); r else r
    else Ok(0.0)
  }

  /** The payment after refinancing: the profile's own rate and term, with
      no fallback; a missing rate or term raises. */
  function RefinancePayment(base: PropertyInvestment, loan: real): (r: Result<real, PaymentError>)
    ensures base.financing.interestRate.None? || base.financing.loanTermYears.None? ==> r == Err(MissingRateOrTerm)
    ensures r.Ok? ==>
      Balance(loan, base.financing.interestRate.value / 12.0, r.value, base.financing.loanTermYears.value * 12) == 0.0
  {
    if base.financing.interestRate.None? || base.financing.loanTermYears.None? then Err(MissingRateOrTerm)
    else
      var monthly := base.financing.interestRate.value / 12.0;
      var n := base.financing.loanTermYears.value * 12;
      var r := Annuity(loan, monthly, n);
      if r.Ok? then AnnuityRepaysLoan(loan, monthly, n); r else r
  }

  /** Whether the purchase payment formula can be evaluated; it does not
      depend on the loan. */
  predicate PurchasePaymentDefined(base: PropertyInvestment) {
    PurchasePayment(base, 1.0).Ok?
  }

  predicate RefinancePaymentDefined(base: PropertyInvestment) {
    RefinancePayment(base, 1.0).Ok?
  }

  lemma PaymentsDefinedForEveryLoan(base: PropertyInvestment, loan: real)
    ensures PurchasePaymentDefined(base) ==> PurchasePayment(base, loan).Ok?
    ensures RefinancePaymentDefined(base) ==> RefinancePayment(base, loan).Ok?
  {
  }

  // ---------------------------------------------------------------------
  // Initialisation

  /** The deep-copied profile of the first property: set to the strategy's
      financing; a cash purchase registers no bond and borrows nothing. */
  function FirstProfile(base: PropertyInvestment, cfg: LegacyConfig): (f: PropertyInvestment)
    ensures FirstLeverages(cfg) ==> f.financing.financingType == Leveraged && f.financing.ltvRatio == cfg.leverageRatio
    ensures !FirstLeverages(cfg) ==>
      f.financing.financingType == Cash && f.financing.ltvRatio == 0.0 && f.acquisitionCosts.bondRegistration == 0.0
    ensures f.operating == base.operating && f.strategy == base.strategy
  {
    if FirstLeverages(cfg) then
      base.(financing := base.financing.(financingType := Leveraged, ltvRatio := cfg.leverageRatio))
    else
      base.(financing := base.financing.(financingType := Cash, ltvRatio := 0.0),
            acquisitionCosts := base.acquisitionCosts.(bondRegistration := 0.0))
  }

  predicate FirstLeverages(cfg: LegacyConfig) {
    cfg.kind == LeveragedOnly || (cfg.kind == Mixed && cfg.firstPropertyType == FirstLeveraged)
  }

  // ---------------------------------------------------------------------
  // One period: appreciation, principal and rent

  function Appreciate(props: seq<LProperty>, factor: real): (r: seq<LProperty>)
    ensures |r| == |props|
    ensures forall i :: 0 <= i < |r| ==>
      r[i].currentValue == props[i].currentValue * factor
      && r[i].(currentValue := props[i].currentValue) == props[i]
  {
    seq(|props|, i requires 0 <= i < |props| => props[i].(currentValue := props[i].currentValue * factor))
  }

  /** The simplified principal step: one per cent of the payment per month
      of the period comes off a positive loan, never below zero. */
  function RepayPrincipal(p: LProperty, multiplier: real): (q: LProperty)
    requires multiplier > 0.0
    ensures p.loan > 0.0 && p.payment > 0.0 ==>
      && q.loan == Max0(p.loan - p.payment * 0.01 * multiplier)
      && q.principalPaid == p.principalPaid + p.payment * 0.01 * multiplier
    ensures !(p.loan > 0.0 && p.payment > 0.0) ==> q == p
    ensures q.(loan := p.loan, principalPaid := p.principalPaid) == p
    ensures p.loan >= 0.0 ==> 0.0 <= q.loan <= p.loan
  {
    if p.loan > 0.0 && p.payment > 0.0 then
      var principal := p.payment * 0.01 * multiplier;
      p.(loan := Max0(p.loan - principal), principalPaid := p.principalPaid + principal)
    else p
  }

  function FlowOf(p: LProperty): real { p.monthlyCashflow }
  function ValueOf(p: LProperty): real { p.currentValue }
  function LoanOf(p: LProperty): real { p.loan }
  function PaymentOf(p: LProperty): real { p.payment }

  /** `_apply_principal_payments_and_rent`: every property's cash flow for
      the period is collected and every loan takes its principal step. */
  function PrincipalAndRent(pf: LPortfolio, multiplier: real): (r: LPortfolio)
    requires multiplier > 0.0
    ensures |r.properties| == |pf.properties|
    ensures forall i :: 0 <= i < |r.properties| ==> r.properties[i] == RepayPrincipal(pf.properties[i], multiplier)
    ensures r.(properties := pf.properties, cash := pf.cash) == pf
  {
    var props := seq(|pf.properties|, i requires 0 <= i < |pf.properties| => RepayPrincipal(pf.properties[i], multiplier));
    pf.(properties := props, cash := pf.cash + SumBy(pf.properties, FlowOf) * multiplier)
  }

  /** The cash moves by the period's cash flows and the cash flows
      themselves are untouched by the principal step. */
  lemma PrincipalAndRentCash(pf: LPortfolio, multiplier: real)
    requires multiplier > 0.0
    ensures var r := PrincipalAndRent(pf, multiplier);
      && r.cash - pf.cash == SumBy(r.properties, FlowOf) * multiplier
      && SumBy(r.properties, FlowOf) == SumBy(pf.properties, FlowOf)
  {
    var r := PrincipalAndRent(pf, multiplier);
    SumByPointwise(r.properties, pf.properties, FlowOf, FlowOf);
  }

  // ---------------------------------------------------------------------
  // Injections

  /** `_should_inject_capital` with granularity: the window and the one-time
      rule are those of the monthly engine; under yearly tracking monthly,
      quarterly and yearly rules fire every period of the window and a
      five-yearly rule every fifth. */
  function LegacyFires(rule: InjectionRule, p: int, periodsPerYear: int): bool {
    if p < rule.start then false
    else if HasEnd(rule) && p > rule.end.value then false
    else
      match rule.cadence
      case OneTime =>
        if HasListedPeriods(rule) then p in rule.periods.value else p == rule.start
      case Monthly => true
      case Quarterly => if periodsPerYear == 12 then (p - rule.start) % 3 == 0 else true
      case Yearly => if periodsPerYear == 12 then (p - rule.start) % 12 == 0 else true
      case FiveYearly =>
        if periodsPerYear == 12 then (p - rule.start) % 60 == 0 else (p - rule.start) % 5 == 0
  }

  /** Under monthly tracking the legacy rule is the monthly engine's. */
  lemma MonthlyFiringAgrees(rule: InjectionRule, p: int)
    ensures LegacyFires(rule, p, 12) == Fires(rule, p)
  {
  }

  /** Under yearly tracking every recurring rule but the five-yearly one
      fires in every period of its window. */
  lemma YearlyFiring(rule: InjectionRule, p: int)
    requires rule.cadence != OneTime
    ensures rule.cadence != FiveYearly ==> (LegacyFires(rule, p, 1) <==> InWindow(rule, p))
    ensures rule.cadence == FiveYearly ==>
      (LegacyFires(rule, p, 1) <==> InWindow(rule, p) && (p - rule.start) % 5 == 0)
  {
  }

  function LegacyFiring(rules: seq<InjectionRule>, p: int, periodsPerYear: int): seq<InjectionRule>
    decreases |rules|
  {
    if |rules| == 0 then []
    else if LegacyFires(rules[0], p, periodsPerYear) then [rules[0]] + LegacyFiring(rules[1..], p, periodsPerYear)
    else LegacyFiring(rules[1..], p, periodsPerYear)
  }

  datatype LInjectionOutcome = LInjectionOutcome(cash: real, injected: real, events: seq<LInjection>)

  /** `_apply_additional_capital_injections`: each firing rule in list order
      adds its amount to the cash and to the cumulative total and records
      one event carrying the new total. */
  function ApplyInjections(rules: seq<InjectionRule>, p: int, periodsPerYear: int, cash: real, injected: real)
    : LInjectionOutcome
    decreases |rules|
  {
    if |rules| == 0 then LInjectionOutcome(cash, injected, [])
    else
      var rule := rules[0];
      if LegacyFires(rule, p, periodsPerYear) then
        var rest := ApplyInjections(rules[1..], p, periodsPerYear, cash + rule.amount, injected + rule.amount);
        LInjectionOutcome(rest.cash, rest.injected,
                          [LInjection(p, rule.amount, rule.cadence, injected + rule.amount)] + rest.events)
      else ApplyInjections(rules[1..], p, periodsPerYear, cash, injected)
  }

  /** Cash and the cumulative total both rise by the total of the firing
      rules, with one event per firing rule. */
  lemma {:induction false} InjectionAccounting(rules: seq<InjectionRule>, p: int, periodsPerYear: int,
                                               cash: real, injected: real)
    ensures var r := ApplyInjections(rules, p, periodsPerYear, cash, injected);
      var fired := LegacyFiring(rules, p, periodsPerYear);
      && r.cash - cash == SumBy(fired, RuleAmount)
      && r.injected - injected == SumBy(fired, RuleAmount)
      && |r.events| == |fired|
    decreases |rules|
  {
    if |rules| > 0 {
      var rule := rules[0];
      if LegacyFires(rule, p, periodsPerYear) {
        InjectionAccounting(rules[1..], p, periodsPerYear, cash + rule.amount, injected + rule.amount);
        var fired := LegacyFiring(rules, p, periodsPerYear);
        assert fired[1..] == LegacyFiring(rules[1..], p, periodsPerYear);
      } else {
        InjectionAccounting(rules[1..], p, periodsPerYear, cash, injected);
      }
    }
  }

  // ---------------------------------------------------------------------
  // Refinancing

  /** The period a property's refinancing clock starts from: its last
      refinancing, or its purchase when there was none (or it was period
      0). */
  function ClockStart(p: LProperty): int {
    if p.lastRefinance.Some? && p.lastRefinance.value != 0 then p.lastRefinance.value else p.purchasePeriod
  }

  /** A property refinances in `period` when it has a loan, its clock has
      run for the interval, and the loan at the strategy's ratio of its
      value exceeds the current loan. */
  predicate Refinances(cfg: LegacyConfig, p: LProperty, period: int) {
    && p.loan != 0.0
    && (period - ClockStart(p)) as real >= cfg.refinanceFrequencyYears * PeriodsPerYear(cfg) as real
    && p.currentValue * cfg.leverageRatio - p.loan > 0.0
  }

  datatype RefinanceStep = RefinanceStep(property: LProperty, event: Option<LRefinancing>)

  /** One property's turn in `_apply_refinancing`. */
  function RefinanceOne(base: PropertyInvestment, cfg: LegacyConfig, p: LProperty, period: int): (r: RefinanceStep)
    requires Refinances(cfg, p, period) ==> RefinancePaymentDefined(base)
    ensures r.event.Some? <==> Refinances(cfg, p, period)
    ensures r.event.None? ==> r.property == p
    ensures r.event.Some? ==>
      && r.property.loan == p.currentValue * cfg.leverageRatio > p.loan
      && r.property.lastRefinance == Some(period)
      && r.property.monthlyCashflow == BaseCashflow(base) - r.property.payment
      && r.event.value.cashExtracted == r.property.loan - p.loan
      && r.property.(loan := p.loan, lastRefinance := p.lastRefinance, payment := p.payment,
                     monthlyCashflow := p.monthlyCashflow) == p
  {
    if Refinances(cfg, p, period) then
      var newLoan := p.currentValue * cfg.leverageRatio;
      PaymentsDefinedForEveryLoan(base, newLoan);
      var payment := if newLoan > 0.0 then RefinancePayment(base, newLoan).value else p.payment;
      var q := p.(loan := newLoan, lastRefinance := Some(period), payment := payment,
                  monthlyCashflow := BaseCashflow(base) - payment);
      RefinanceStep(q, Some(LRefinancing(period, p.id, p.loan, newLoan, newLoan - p.loan, cfg.leverageRatio,
                                         p.currentValue)))
    else RefinanceStep(p, None)
  }

  function ExtractedOf(e: LRefinancing): real { e.cashExtracted }

  datatype LedgerRefinancing = LedgerRefinancing(properties: seq<LProperty>, events: seq<LRefinancing>)

  /** `_apply_refinancing` over the ledger in order. */
  function RefinanceLedger(base: PropertyInvestment, cfg: LegacyConfig, props: seq<LProperty>, period: int)
    : (r: LedgerRefinancing)
    requires forall i :: 0 <= i < |props| && Refinances(cfg, props[i], period) ==> RefinancePaymentDefined(base)
    ensures |r.properties| == |props|
    ensures forall i :: 0 <= i < |props| ==> r.properties[i] == RefinanceOne(base, cfg, props[i], period).property
    decreases |props|
  {
    if |props| == 0 then LedgerRefinancing([], [])
    else
      var s := RefinanceOne(base, cfg, props[0], period);
      var rest := RefinanceLedger(base, cfg, props[1..], period);
      var events := if s.event.Some? then [s.event.value] + rest.events else rest.events;
      LedgerRefinancing([s.property] + rest.properties, events)
  }

  /** The cash extracted is exactly the debt added. */
  lemma {:induction false} RefinancingExtractsAddedDebt(base: PropertyInvestment, cfg: LegacyConfig,
                                                        props: seq<LProperty>, period: int)
    requires forall i :: 0 <= i < |props| && Refinances(cfg, props[i], period) ==> RefinancePaymentDefined(base)
    ensures var r := RefinanceLedger(base, cfg, props, period);
      SumBy(r.events, ExtractedOf) == SumBy(r.properties, LoanOf) - SumBy(props, LoanOf)
    decreases |props|
  {
    if |props| > 0 {
      RefinancingExtractsAddedDebt(base, cfg, props[1..], period);
      var r := RefinanceLedger(base, cfg, props, period);
      var s := RefinanceOne(base, cfg, props[0], period);
      var rest := RefinanceLedger(base, cfg, props[1..], period);
      assert r.properties[1..] == rest.properties;
      if s.event.Some? {
        assert r.events[1..] == rest.events;
      }
    }
  }

  // ---------------------------------------------------------------------
  // Financing choice

  /** `_should_use_leverage_for_next_property`: below the leveraged target
      buy leveraged, else below the cash target buy cash, else leverage when
      its room is at least the cash room (ties go to leverage). */
  predicate LegacyShouldLeverage(cfg: LegacyConfig, n: nat, leveraged: nat, cash: nat) {
    match cfg.kind
    case CashOnly => false
    case LeveragedOnly => true
    case Mixed =>
      if n == 0 then cfg.firstPropertyType == FirstLeveraged
      else
        var lf := leveraged as real / n as real;
        var cf := cash as real / n as real;
        if lf < cfg.leveragedPropertyRatio then true
        else if cf < cfg.cashPropertyRatio then false
        else cfg.leveragedPropertyRatio - lf >= cfg.cashPropertyRatio - cf
  }

  /** With targets summing to one and counts summing to the ledger size, the
      mixed rule leverages exactly when the leveraged share is at most its
      target. */
  lemma MixedLeveragesUpToTarget(cfg: LegacyConfig, n: nat, leveraged: nat, cash: nat)
    requires cfg.kind == Mixed && n > 0 && leveraged + cash == n
    requires cfg.leveragedPropertyRatio + cfg.cashPropertyRatio == 1.0
    ensures LegacyShouldLeverage(cfg, n, leveraged, cash) <==> leveraged as real / n as real <= cfg.leveragedPropertyRatio
  {
    SharesSumToOne(n as real, leveraged as real, cash as real);
  }

  lemma SharesSumToOne(n: real, a: real, b: real)
    requires n > 0.0 && a + b == n
    ensures b / n == 1.0 - a / n
  {
    assert b == n - a;
    assert (n - a) / n == n / n - a / n;
  }

  // ---------------------------------------------------------------------
  // Acquisition

  /** The price a new property is bought at: the mean current value of the
      ledger, or the base price when it is empty. */
  function MarketPrice(base: PropertyInvestment, props: seq<LProperty>): real {
    if |props| == 0 then base.acquisitionCosts.purchasePrice
    else SumBy(props, ValueOf) / |props| as real
  }

  /** Buying at the market price leaves the market price where it was. */
  lemma MarketPriceUnchanged(base: PropertyInvestment, props: seq<LProperty>, p: LProperty)
    requires p.currentValue == MarketPrice(base, props)
    ensures MarketPrice(base, props + [p]) == MarketPrice(base, props)
  {
    var m := MarketPrice(base, props);
    SumByAppend(props, [p], ValueOf);
    assert SumBy([p], ValueOf) == m by {
      assert [p][1..] == [];
    }
    if |props| > 0 {
      var n := |props| as real;
      var s := SumBy(props, ValueOf);
      assert s == m * n;
      assert (s + m) == m * (n + 1.0);
    }
  }

  /** The cash a purchase at `market` needs: the down payment plus duty,
      conveyancing, furnishing and (when leveraged) bond registration, each
      scaled by the market's ratio to the base price. */
  function LegacyCost(base: PropertyInvestment, cfg: LegacyConfig, market: real, leverage: bool): real
    requires base.acquisitionCosts.purchasePrice != 0.0
  {
    var c := base.acquisitionCosts;
    var ratio := market / c.purchasePrice;
    var bond := if leverage then c.bondRegistration * ratio else 0.0;
    var loan := if leverage then market * cfg.leverageRatio else 0.0;
    (market - loan) + c.transferDuty * ratio + c.conveyancingFees * ratio + bond + OrZero(c.furnishingCost) * ratio
  }

  /** At the base price the purchase cost is the profile's initial cash
      figure for the first property's financing, and at any other price it
      scales in proportion. */
  lemma LegacyCostScales(base: PropertyInvestment, cfg: LegacyConfig, market: real, leverage: bool)
    requires base.acquisitionCosts.purchasePrice != 0.0
    ensures LegacyCost(base, cfg, market, leverage)
         == market / base.acquisitionCosts.purchasePrice
            * LegacyCost(base, cfg, base.acquisitionCosts.purchasePrice, leverage)
    ensures var f := base.financing.(financingType := if leverage then Leveraged else Cash,
                                     ltvRatio := if leverage then cfg.leverageRatio else 0.0);
            var c := if leverage then base.acquisitionCosts else base.acquisitionCosts.(bondRegistration := 0.0);
            LegacyCost(base, cfg, base.acquisitionCosts.purchasePrice, leverage)
              == InitialCashRequired(base.(financing := f, acquisitionCosts := c))
  {
    var c := base.acquisitionCosts;
    var k := market / c.purchasePrice;
    assert market == k * c.purchasePrice;
    assert c.purchasePrice / c.purchasePrice == 1.0;
  }

  /** Preconditions of the purchase loop: a positive base price, values
      that stay positive, and a positive cost for every kind the strategy
      may buy (without which the loop never ends). */
  predicate Buys(base: PropertyInvestment, cfg: LegacyConfig) {
    && cfg.enableReinvestment
    && base.acquisitionCosts.purchasePrice > 0.0
    && PeriodFactor(base, cfg) > 0.0
    && (cfg.kind != CashOnly ==>
          LegacyCost(base, cfg, base.acquisitionCosts.purchasePrice, true) > 0.0 && PurchasePaymentDefined(base))
    && (cfg.kind != LeveragedOnly ==> LegacyCost(base, cfg, base.acquisitionCosts.purchasePrice, false) > 0.0)
  }

  /** The cheaper of the kinds the strategy may buy. */
  function MinCost(base: PropertyInvestment, cfg: LegacyConfig, market: real): (m: real)
    requires base.acquisitionCosts.purchasePrice != 0.0
    ensures forall lev: bool :: (lev ==> cfg.kind != CashOnly) && (!lev ==> cfg.kind != LeveragedOnly)
                                ==> m <= LegacyCost(base, cfg, market, lev)
  {
    match cfg.kind
    case CashOnly => LegacyCost(base, cfg, market, false)
    case LeveragedOnly => LegacyCost(base, cfg, market, true)
    case Mixed =>
      var a := LegacyCost(base, cfg, market, true);
      var b := LegacyCost(base, cfg, market, false);
      if a <= b then a else b
  }

  lemma MinCostPositive(base: PropertyInvestment, cfg: LegacyConfig, market: real)
    requires Buys(base, cfg) && market > 0.0
    ensures MinCost(base, cfg, market) > 0.0
  {
    var k := market / base.acquisitionCosts.purchasePrice;
    assert k > 0.0;
    LegacyCostScales(base, cfg, market, true);
    LegacyCostScales(base, cfg, market, false);
  }

  /** The property bought at `market` in `period`. */
  function NewProperty(base: PropertyInvestment, cfg: LegacyConfig, id: nat, market: real, leverage: bool,
                       period: int): (p: LProperty)
    requires leverage ==> PurchasePaymentDefined(base)
    ensures p.id == id && p.purchasePrice == market && p.currentValue == market
    ensures p.loan == p.originalLoan == (if leverage then market * cfg.leverageRatio else 0.0)
    ensures p.monthlyCashflow == BaseCashflow(base) - p.payment
    ensures p.purchasePeriod == period && p.lastRefinance.None? && p.principalPaid == 0.0
  {
    var loan := if leverage then market * cfg.leverageRatio else 0.0;
    PaymentsDefinedForEveryLoan(base, loan);
    var payment := PurchasePayment(base, loan).value;
    LProperty(id, market, market, loan, loan, payment, BaseCashflow(base) - payment, period, None, 0.0)
  }

  /** After a purchase: buying stops when the ledger's monthly cash flow is
      negative and the cash covers less than six months of it. */
  predicate CoverTooShort(pf: LPortfolio) {
    var total := SumBy(pf.properties, FlowOf);
    total < 0.0 && pf.cash / Abs(total) < 6.0
  }

  function CostOf(p: LPurchase): real { p.cashRequired }

  datatype BuyOutcome = BuyOutcome(portfolio: LPortfolio, purchases: seq<LPurchase>)

  /** The portfolio after buying `p` for `cost` in cash: the property is
      appended, the cash moves into cash invested, and the counters
      advance. */
  function AfterPurchase(pf: LPortfolio, p: LProperty, cost: real, leverage: bool): (r: LPortfolio)
    ensures r.properties == pf.properties + [p]
    ensures r.cash + cost == pf.cash && r.cashInvested == pf.cashInvested + cost && r.injected == pf.injected
    ensures r.counter == pf.counter + 1 && r.leveragedCount + r.cashCount == pf.leveragedCount + pf.cashCount + 1
    ensures r.leveragedCount == pf.leveragedCount + (if leverage then 1 else 0)
  {
    LPortfolio(pf.properties + [p], pf.cash - cost, pf.cashInvested + cost, pf.injected,
               if leverage then pf.leveragedCount + 1 else pf.leveragedCount,
               if leverage then pf.cashCount else pf.cashCount + 1,
               pf.counter + 1)
  }

  /** `_try_buy_new_properties` at a fixed market price: buy the kind the
      mix calls for while the cash covers it, until the cover check stops
      the loop. */
  function BuyProperties(base: PropertyInvestment, cfg: LegacyConfig, pf: LPortfolio, period: int, market: real)
    : (r: BuyOutcome)
    requires Buys(base, cfg) && market > 0.0 && market == MarketPrice(base, pf.properties)
    ensures |r.portfolio.properties| == |pf.properties| + |r.purchases|
    ensures r.portfolio.properties[..|pf.properties|] == pf.properties
    ensures r.portfolio.counter == pf.counter + |r.purchases|
    ensures r.portfolio.leveragedCount + r.portfolio.cashCount == pf.leveragedCount + pf.cashCount + |r.purchases|
    ensures r.portfolio.cash == pf.cash - SumBy(r.purchases, CostOf)
    ensures r.portfolio.cashInvested == pf.cashInvested + SumBy(r.purchases, CostOf)
    ensures r.portfolio.injected == pf.injected
    ensures |r.purchases| > 0 ==> r.portfolio.cash >= 0.0
    ensures |r.purchases| == 0 ==> r.portfolio == pf
    decreases Budget(pf.cash, MinCost(base, cfg, market))
  {
    MinCostPositive(base, cfg, market);
    var leverage := LegacyShouldLeverage(cfg, |pf.properties|, pf.leveragedCount, pf.cashCount);
    var cost := LegacyCost(base, cfg, market, leverage);
    if pf.cash >= cost then
      var p := NewProperty(base, cfg, pf.counter, market, leverage, period);
      var next := AfterPurchase(pf, p, cost, leverage);
      var purchase := LPurchase(period, pf.counter, market, cost, p.loan, leverage);
      MarketPriceUnchanged(base, pf.properties, p);
      if CoverTooShort(next) then
        assert [purchase][1..] == [];
        BuyOutcome(next, [purchase])
      else
        BudgetDecreases(pf.cash, cost, MinCost(base, cfg, market));
        var rest := BuyProperties(base, cfg, next, period, market);
        var purchases := [purchase] + rest.purchases;
        assert purchases[1..] == rest.purchases;
        assert rest.portfolio.properties[..|pf.properties|] == pf.properties by {
          assert rest.portfolio.properties[..|pf.properties| + 1][..|pf.properties|] == pf.properties;
        }
        BuyOutcome(rest.portfolio, purchases)
    else
      BuyOutcome(pf, [])
  }

  /** The loop's exit condition on its final state. */
  predicate Stopped(base: PropertyInvestment, cfg: LegacyConfig, market: real, r: BuyOutcome)
    requires base.acquisitionCosts.purchasePrice != 0.0
  {
    var q := r.portfolio;
    || q.cash < LegacyCost(base, cfg, market, LegacyShouldLeverage(cfg, |q.properties|, q.leveragedCount, q.cashCount))
    || (|r.purchases| > 0 && CoverTooShort(q))
  }

  /** Why buying stopped: the next pick was unaffordable, or the last
      purchase left less than six months of cover. */
  lemma {:induction false} BuyingStops(base: PropertyInvestment, cfg: LegacyConfig, pf: LPortfolio, period: int,
                                       market: real)
    requires Buys(base, cfg) && market > 0.0 && market == MarketPrice(base, pf.properties)
    ensures Stopped(base, cfg, market, BuyProperties(base, cfg, pf, period, market))
    decreases Budget(pf.cash, MinCost(base, cfg, market))
  {
    MinCostPositive(base, cfg, market);
    var leverage := LegacyShouldLeverage(cfg, |pf.properties|, pf.leveragedCount, pf.cashCount);
    var cost := LegacyCost(base, cfg, market, leverage);
    if pf.cash >= cost {
      var p := NewProperty(base, cfg, pf.counter, market, leverage, period);
      var next := AfterPurchase(pf, p, cost, leverage);
      MarketPriceUnchanged(base, pf.properties, p);
      if !CoverTooShort(next) {
        BudgetDecreases(pf.cash, cost, MinCost(base, cfg, market));
        BuyingStops(base, cfg, next, period, market);
        var rest := BuyProperties(base, cfg, next, period, market);
        assert BuyProperties(base, cfg, pf, period, market).portfolio == rest.portfolio;
      }
    }
  }

  // ---------------------------------------------------------------------
  // The purchase loop, purchase by purchase

  function LeveragedOf(p: LPurchase): bool { p.leveraged }

  /** The loop's state before the i-th purchase of `r`, rebuilt from `pf`
      and the purchases before it. */
  function StateBefore(pf: LPortfolio, r: BuyOutcome, i: nat): LPortfolio
    requires i <= |r.purchases| && |r.portfolio.properties| == |pf.properties| + |r.purchases|
  {
    var bought := r.purchases[..i];
    var leveraged := CountIf(bought, LeveragedOf);
    LPortfolio(r.portfolio.properties[..|pf.properties| + i],
               pf.cash - SumBy(bought, CostOf), pf.cashInvested + SumBy(bought, CostOf), pf.injected,
               pf.leveragedCount + leveraged, pf.cashCount + (i - leveraged), pf.counter + i)
  }

  /** The i-th purchase of `r` is the one the loop makes from the state
      before it: the financing `LegacyShouldLeverage` picks for that state's
      counts, at that state's market price, paid for by its cash, and,
      unless it is the last, it left at least six months of cover. */
  predicate PurchaseFollowsRule(base: PropertyInvestment, cfg: LegacyConfig, pf: LPortfolio, period: int,
                                market: real, r: BuyOutcome, i: nat)
    requires Buys(base, cfg)
    requires i < |r.purchases| && |r.portfolio.properties| == |pf.properties| + |r.purchases|
  {
    var q := StateBefore(pf, r, i);
    var leverage := LegacyShouldLeverage(cfg, |q.properties|, q.leveragedCount, q.cashCount);
    var cost := LegacyCost(base, cfg, market, leverage);
    var p := NewProperty(base, cfg, pf.counter + i, market, leverage, period);
    && market == MarketPrice(base, q.properties)
    && q.cash >= cost
    && r.portfolio.properties[|pf.properties| + i] == p
    && r.purchases[i] == LPurchase(period, pf.counter + i, market, cost, p.loan, leverage)
    && (i + 1 < |r.purchases| ==> !CoverTooShort(StateBefore(pf, r, i + 1)))
  }

  /** Every purchase of `r` follows the rule, and the final portfolio is the
      state after the last of them. */
  predicate BoughtByRule(base: PropertyInvestment, cfg: LegacyConfig, pf: LPortfolio, period: int,
                         market: real, r: BuyOutcome)
    requires Buys(base, cfg)
  {
    && |r.portfolio.properties| == |pf.properties| + |r.purchases|
    && r.portfolio.properties[..|pf.properties|] == pf.properties
    && r.portfolio == StateBefore(pf, r, |r.purchases|)
    && forall i: nat :: i < |r.purchases| ==> PurchaseFollowsRule(base, cfg, pf, period, market, r, i)
  }

  /** No purchases: the state before "the end" is the starting portfolio. */
  lemma NothingBoughtByRule(base: PropertyInvestment, cfg: LegacyConfig, pf: LPortfolio, period: int,
                            market: real)
    requires Buys(base, cfg)
    ensures BoughtByRule(base, cfg, pf, period, market, BuyOutcome(pf, []))
  {
    var r := BuyOutcome(pf, []);
    assert r.purchases[..0] == [];
    assert pf.properties[..|pf.properties|] == pf.properties;
  }

  /** The state before purchase j + 1 of a run that starts with one
      purchase is the state before purchase j of the rest of the run. */
  lemma StateBeforeShift(pf: LPortfolio, p: LProperty, cost: real, leverage: bool, purchase: LPurchase,
                         rest: BuyOutcome, j: nat)
    requires purchase.cashRequired == cost && purchase.leveraged == leverage
    requires |rest.portfolio.properties| == |pf.properties| + 1 + |rest.purchases| && j <= |rest.purchases|
    ensures var r := BuyOutcome(rest.portfolio, [purchase] + rest.purchases);
            StateBefore(pf, r, j + 1) == StateBefore(AfterPurchase(pf, p, cost, leverage), rest, j)
  {
    var r := BuyOutcome(rest.portfolio, [purchase] + rest.purchases);
    var bought := r.purchases[..j + 1];
    assert bought[1..] == rest.purchases[..j];
    assert SumBy(bought, CostOf) == cost + SumBy(rest.purchases[..j], CostOf);
    assert CountIf(bought, LeveragedOf) == (if leverage then 1 else 0) + CountIf(rest.purchases[..j], LeveragedOf);
  }

  /** A purchase by the rule from `pf`, followed by a run from the state
      after it that was bought by the rule. */
  predicate ConsByRule(base: PropertyInvestment, cfg: LegacyConfig, pf: LPortfolio, period: int, market: real,
                       leverage: bool, cost: real, p: LProperty, rest: BuyOutcome)
  {
    && Buys(base, cfg) && market == MarketPrice(base, pf.properties)
    && leverage == LegacyShouldLeverage(cfg, |pf.properties|, pf.leveragedCount, pf.cashCount)
    && cost == LegacyCost(base, cfg, market, leverage) && pf.cash >= cost
    && p == NewProperty(base, cfg, pf.counter, market, leverage, period)
    && (|rest.purchases| > 0 ==> !CoverTooShort(AfterPurchase(pf, p, cost, leverage)))
    && BoughtByRule(base, cfg, AfterPurchase(pf, p, cost, leverage), period, market, rest)
  }

  function Consed(pf: LPortfolio, period: int, market: real, leverage: bool, cost: real, p: LProperty,
                  rest: BuyOutcome): BuyOutcome
  {
    BuyOutcome(rest.portfolio, [LPurchase(period, pf.counter, market, cost, p.loan, leverage)] + rest.purchases)
  }

  lemma ConsHeadByRule(base: PropertyInvestment, cfg: LegacyConfig, pf: LPortfolio, period: int, market: real,
                       leverage: bool, cost: real, p: LProperty, rest: BuyOutcome)
    requires ConsByRule(base, cfg, pf, period, market, leverage, cost, p, rest)
    ensures var r := Consed(pf, period, market, leverage, cost, p, rest);
            && |r.portfolio.properties| == |pf.properties| + |r.purchases|
            && r.portfolio.properties[..|pf.properties|] == pf.properties
            && PurchaseFollowsRule(base, cfg, pf, period, market, r, 0)
  {
    var next := AfterPurchase(pf, p, cost, leverage);
    var purchase := LPurchase(period, pf.counter, market, cost, p.loan, leverage);
    var r := Consed(pf, period, market, leverage, cost, p, rest);
    assert r.portfolio.properties[..|pf.properties|] == pf.properties by {
      assert r.portfolio.properties[..|pf.properties| + 1] == next.properties;
      assert next.properties[..|pf.properties|] == pf.properties;
    }
    assert StateBefore(pf, r, 0) == pf by {
      assert r.purchases[..0] == [];
    }
    assert r.portfolio.properties[|pf.properties|] == next.properties[|pf.properties|];
    if 1 < |r.purchases| {
      StateBeforeShift(pf, p, cost, leverage, purchase, rest, 0);
      assert rest.purchases[..0] == [];
      assert rest.portfolio.properties[..|next.properties|] == next.properties;
    }
  }

  lemma ConsTailByRule(base: PropertyInvestment, cfg: LegacyConfig, pf: LPortfolio, period: int, market: real,
                       leverage: bool, cost: real, p: LProperty, rest: BuyOutcome, i: nat)
    requires ConsByRule(base, cfg, pf, period, market, leverage, cost, p, rest)
    requires 0 < i <= |rest.purchases|
    ensures var r := Consed(pf, period, market, leverage, cost, p, rest);
            && |r.portfolio.properties| == |pf.properties| + |r.purchases|
            && PurchaseFollowsRule(base, cfg, pf, period, market, r, i)
  {
    var next := AfterPurchase(pf, p, cost, leverage);
    var purchase := LPurchase(period, pf.counter, market, cost, p.loan, leverage);
    assert PurchaseFollowsRule(base, cfg, next, period, market, rest, i - 1);
    StateBeforeShift(pf, p, cost, leverage, purchase, rest, i - 1);
    if i < |rest.purchases| {
      StateBeforeShift(pf, p, cost, leverage, purchase, rest, i);
    }
  }

  /** One purchase by the rule in front of a run bought by the rule. */
  lemma ConsBoughtByRule(base: PropertyInvestment, cfg: LegacyConfig, pf: LPortfolio, period: int, market: real,
                         leverage: bool, cost: real, p: LProperty, rest: BuyOutcome)
    requires ConsByRule(base, cfg, pf, period, market, leverage, cost, p, rest)
    ensures BoughtByRule(base, cfg, pf, period, market, Consed(pf, period, market, leverage, cost, p, rest))
  {
    var r := Consed(pf, period, market, leverage, cost, p, rest);
    var purchase := LPurchase(period, pf.counter, market, cost, p.loan, leverage);
    ConsHeadByRule(base, cfg, pf, period, market, leverage, cost, p, rest);
    StateBeforeShift(pf, p, cost, leverage, purchase, rest, |rest.purchases|);
    forall i: nat | 0 < i < |r.purchases| ensures PurchaseFollowsRule(base, cfg, pf, period, market, r, i) {
      ConsTailByRule(base, cfg, pf, period, market, leverage, cost, p, rest, i);
    }
  }

  /** Every purchase `BuyProperties` makes is the one the loop's rule picks
      from the state before it, and every purchase but the last left the
      cover check passing. */
  lemma {:induction false} BuyPropertiesFollowRule(base: PropertyInvestment, cfg: LegacyConfig, pf: LPortfolio,
                                                   period: int, market: real)
    requires Buys(base, cfg) && market > 0.0 && market == MarketPrice(base, pf.properties)
    ensures BoughtByRule(base, cfg, pf, period, market, BuyProperties(base, cfg, pf, period, market))
    decreases Budget(pf.cash, MinCost(base, cfg, market))
  {
    MinCostPositive(base, cfg, market);
    var leverage := LegacyShouldLeverage(cfg, |pf.properties|, pf.leveragedCount, pf.cashCount);
    var cost := LegacyCost(base, cfg, market, leverage);
    if pf.cash >= cost {
      var p := NewProperty(base, cfg, pf.counter, market, leverage, period);
      var next := AfterPurchase(pf, p, cost, leverage);
      var purchase := LPurchase(period, pf.counter, market, cost, p.loan, leverage);
      MarketPriceUnchanged(base, pf.properties, p);
      if CoverTooShort(next) {
        NothingBoughtByRule(base, cfg, next, period, market);
        ConsBoughtByRule(base, cfg, pf, period, market, leverage, cost, p, BuyOutcome(next, []));
        assert [purchase] + [] == [purchase];
      } else {
        BudgetDecreases(pf.cash, cost, MinCost(base, cfg, market));
        BuyPropertiesFollowRule(base, cfg, next, period, market);
        ConsBoughtByRule(base, cfg, pf, period, market, leverage, cost, p, BuyProperties(base, cfg, next, period, market));
      }
    } else {
      NothingBoughtByRule(base, cfg, pf, period, market);
    }
  }
}
