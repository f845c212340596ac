/** The legacy simulator's run: its yield figures, its snapshots, one
    period of the loop in `simulate`, and the whole run with the facts it
    keeps. */
module LegacyRun {
  import opened Wrappers
  import opened Numerics
  import opened Sums
  import opened Investment
  import opened Config
  import Injections
  import Yields
  import opened Legacy

  // ---------------------------------------------------------------------
  // Yields

  /** The legacy `PropertyYields`, with the annual money figures. */
  datatype LYields = LYields(
    propertyId: nat,
    period: int,
    rentalYield: real,
    netRentalYield: real,
    cashOnCashReturn: real,
    totalReturnYield: real,
    annualRentalIncome: real,
    annualExpenses: real,
    annualCashflow: real,
    cashInvested: real,
    capitalGrowth: real)

  /** `_calculate_cash_invested`: the base profile's furnished cost, less
      its loan when the profile is leveraged; the same for every property. */
  function LegacyCashInvested(base: PropertyInvestment): (c: real)
    ensures c == InitialCashRequired(base)
  {
    var a := base.acquisitionCosts;
    var total := a.purchasePrice + a.transferDuty + a.conveyancingFees + a.bondRegistration
                 + (if a.furnishingCost.Some? then a.furnishingCost.value else 0.0);
    if base.financing.financingType == Cash then total
    else total - a.purchasePrice * base.financing.ltvRatio
  }

  /** The annual expenses of `_calculate_property_yields`, item by item:
      twelve months of every monthly expense, the management fee taken on
      the vacancy-adjusted annual rent. */
  function LegacyAnnualExpenses(o: OperatingParameters): (e: real)
    ensures e == 12.0 * TotalMonthlyExpenses(o)
  {
    var effective := o.monthlyRentalIncome * 12.0 * (1.0 - o.vacancyRate);
    o.monthlyLevies * 12.0 + effective * o.managementFeeRate + o.monthlyInsurance * 12.0
      + o.monthlyMaintenanceReserve * 12.0
      + (if o.monthlyFurnishingRepairCosts.Some? then o.monthlyFurnishingRepairCosts.value else 0.0) * 12.0
  }

  /** Annualised growth since purchase: `(value / price) ** (1 / years) - 1`
      once the property has been held, through `rpow`; 0 before. */
  function LegacyGrowth(p: LProperty, period: int, periodsPerYear: int, rpow: (real, real) -> real): (g: real)
    requires period - p.purchasePeriod > 0 ==> p.purchasePrice != 0.0
    ensures period <= p.purchasePeriod ==> g == 0.0
    ensures period > p.purchasePeriod && periodsPerYear == 1 ==>
      g + 1.0 == rpow(p.currentValue / p.purchasePrice, 1.0 / (period - p.purchasePeriod) as real)
  {
    var held := period - p.purchasePeriod;
    var years := if periodsPerYear == 12 then held as real / 12.0 else held as real;
    if held > 0 && years > 0.0 then rpow(p.currentValue / p.purchasePrice, 1.0 / years) - 1.0 else 0.0
  }

  /** `_calculate_property_yields`: the base profile's rent and expenses
      annualised, the property's own debt service, yields on its current
      value (0 when that is not positive), the cash-on-cash return on the
      profile's cash invested (0 when that is not positive) and annualised
      growth. */
  function LegacyPropertyYields(base: PropertyInvestment, p: LProperty, period: int, periodsPerYear: int,
                                rpow: (real, real) -> real): (y: LYields)
    requires period - p.purchasePeriod > 0 ==> p.purchasePrice != 0.0
    ensures y.propertyId == p.id && y.period == period
    ensures y.annualRentalIncome == 12.0 * EffectiveMonthlyRental(base.operating)
    ensures y.annualExpenses == 12.0 * TotalMonthlyExpenses(base.operating)
    ensures y.annualCashflow == 12.0 * (BaseCashflow(base) - (if p.payment > 0.0 then p.payment else 0.0))
    ensures y.cashInvested == InitialCashRequired(base)
    ensures y.rentalYield == Yields.OnValue(y.annualRentalIncome, p.currentValue)
    ensures y.netRentalYield == Yields.OnValue(y.annualRentalIncome - y.annualExpenses, p.currentValue)
    ensures y.cashOnCashReturn == Yields.OnValue(y.annualCashflow, y.cashInvested)
    ensures y.capitalGrowth == LegacyGrowth(p, period, periodsPerYear, rpow)
    ensures y.totalReturnYield == y.netRentalYield + y.capitalGrowth
  {
    var o := base.operating;
    var invested := LegacyCashInvested(base);
    var effective := o.monthlyRentalIncome * 12.0 * (1.0 - o.vacancyRate);
    var expenses := LegacyAnnualExpenses(o);
    var debt := if p.payment > 0.0 then p.payment * 12.0 else 0.0;
    var cashflow := effective - expenses - debt;
    var net := Yields.OnValue(effective - expenses, p.currentValue);
    var growth := LegacyGrowth(p, period, periodsPerYear, rpow);
    LYields(p.id, period, Yields.OnValue(effective, p.currentValue), net, Yields.OnValue(cashflow, invested),
            net + growth, effective, expenses, cashflow, invested, growth)
  }

  /** `_calculate_annual_yields`: under yearly tracking one entry per
      property; under monthly tracking the boundary test falls through to
      the final branch, so no yields are reported at all. */
  function LegacyAnnualYields(base: PropertyInvestment, props: seq<LProperty>, period: int, periodsPerYear: int,
                              rpow: (real, real) -> real): (r: seq<LYields>)
    requires periodsPerYear == 1 ==> forall i :: 0 <= i < |props| ==> props[i].purchasePrice != 0.0
    ensures periodsPerYear != 1 ==> r == []
    ensures periodsPerYear == 1 ==> |r| == |props|
    ensures periodsPerYear == 1 ==>
      forall i :: 0 <= i < |r| ==> r[i] == LegacyPropertyYields(base, props[i], period, 1, rpow)
  {
    if periodsPerYear == 12 && period % 12 != 0 then []
    else if periodsPerYear == 1 then
      seq(|props|, i requires 0 <= i < |props| => LegacyPropertyYields(base, props[i], period, 1, rpow))
    else []
  }

  // ---------------------------------------------------------------------
  // Snapshots

  /** Why the simulator stopped: the first property was unaffordable, or the
      cash went negative after the period's cash flows and injections. */
  datatype LegacyEndReason = InsufficientInitialCapital | InsufficientOperatingCash(period: int)

  /** The legacy `SimulationSnapshot`. */
  datatype LSnapshot = LSnapshot(
    period: int,
    cash: real,
    cashInvested: real,
    injected: real,
    numProperties: nat,
    totalValue: real,
    totalDebt: real,
    totalEquity: real,
    monthlyRentalIncome: real,
    monthlyOperatingExpenses: real,
    monthlyDebtService: real,
    monthlyNetCashflow: real,
    annualCashflow: real,
    properties: seq<LProperty>,
    refinancings: seq<LRefinancing>,
    purchases: seq<LPurchase>,
    injections: seq<LInjection>,
    propertyYields: seq<LYields>,
    ended: bool,
    endReason: Option<LegacyEndReason>)

  /** The snapshot of an unaffordable first property: the untouched budget,
      no properties, flagged as ended. */
  function FailureSnapshot(base: PropertyInvestment): (s: LSnapshot)
    ensures s.period == 0 && s.numProperties == 0 && s.properties == []
    ensures s.cash == base.strategy.availableInvestmentAmount && s.cashInvested == 0.0 && s.injected == 0.0
    ensures s.ended && s.endReason == Some(InsufficientInitialCapital)
  {
    LSnapshot(0, base.strategy.availableInvestmentAmount, 0.0, 0.0, 0, 0.0, 0.0, 0.0, 0.0, 0.0, 0.0, 0.0, 0.0,
              [], [], [], [], [], true, Some(InsufficientInitialCapital))
  }

  /** `_create_detailed_snapshot` of a running portfolio. */
  function MakeSnapshot(base: PropertyInvestment, pf: LPortfolio, period: int, refinancings: seq<LRefinancing>,
                        purchases: seq<LPurchase>, injections: seq<LInjection>, ys: seq<LYields>): (s: LSnapshot)
    ensures s.period == period && s.properties == pf.properties && s.numProperties == |pf.properties|
    ensures s.cash == pf.cash && s.cashInvested == pf.cashInvested && s.injected == pf.injected
    ensures s.totalEquity + s.totalDebt == s.totalValue
    ensures s.annualCashflow == 12.0 * s.monthlyNetCashflow
    ensures s.refinancings == refinancings && s.purchases == purchases && s.injections == injections
    ensures s.propertyYields == ys
    ensures !s.ended && s.endReason.None?
  {
    var n := |pf.properties|;
    var value := SumBy(pf.properties, ValueOf);
    var debt := SumBy(pf.properties, LoanOf);
    var net := SumBy(pf.properties, FlowOf);
    LSnapshot(period, pf.cash, pf.cashInvested, pf.injected, n, value, debt, value - debt,
              n as real * base.operating.monthlyRentalIncome,
              n as real * TotalMonthlyExpenses(base.operating),
              SumBy(pf.properties, PaymentOf), net, net * 12.0,
              pf.properties, refinancings, purchases, injections, ys, false, None)
  }

  // ---------------------------------------------------------------------
  // Ledger invariant

  /** What every property of the ledger satisfies: its price is the base
      price or positive, its value is positive whenever the strategy buys,
      a cash-only ledger carries no debt, and its cash flow is the base
      cash flow less its own payment. */
  predicate PropertyOK(base: PropertyInvestment, cfg: LegacyConfig, p: LProperty) {
    && (p.purchasePrice == base.acquisitionCosts.purchasePrice || p.purchasePrice > 0.0)
    && (Buys(base, cfg) ==> p.currentValue > 0.0)
    && (cfg.kind == CashOnly ==> p.loan == 0.0)
    && p.monthlyCashflow == BaseCashflow(base) - p.payment
  }

  predicate PropertiesOK(base: PropertyInvestment, cfg: LegacyConfig, props: seq<LProperty>) {
    forall i :: 0 <= i < |props| ==> props[i].id == i && PropertyOK(base, cfg, props[i])
  }

  /** Ids are positions, the counter is the ledger size and the financing
      counts add up to it. */
  predicate LedgerOK(base: PropertyInvestment, cfg: LegacyConfig, pf: LPortfolio) {
    && pf.counter == |pf.properties|
    && pf.leveragedCount + pf.cashCount == |pf.properties|
    && PropertiesOK(base, cfg, pf.properties)
  }

  /** The inputs on which the simulator neither raises nor loops: the first
      property's bond payment evaluates, refinancing can price its payment,
      buying has a positive base price, positive values and a positive cost
      for every kind it may buy, and yearly yields can divide by the price. */
  predicate LegacyReady(base: PropertyInvestment, cfg: LegacyConfig) {
    && (FirstLeverages(cfg) ==> MonthlyBondPayment(FirstProfile(base, cfg)).Ok?)
    && (cfg.enableRefinancing && cfg.kind != CashOnly ==> RefinancePaymentDefined(base))
    && (cfg.enableReinvestment ==> Buys(base, cfg))
    && (cfg.tracking == YearlyTracking ==> base.acquisitionCosts.purchasePrice != 0.0)
  }

  // ---------------------------------------------------------------------
  // Initialisation

  /** The cash the first property needs. */
  function InitialNeed(base: PropertyInvestment, cfg: LegacyConfig): real {
    InitialCashRequired(FirstProfile(base, cfg))
  }

  /** `_initialize_portfolio` when the first property is affordable. */
  function InitialPortfolio(base: PropertyInvestment, cfg: LegacyConfig): (pf: LPortfolio)
    requires LegacyReady(base, cfg)
    requires InitialNeed(base, cfg) <= base.strategy.availableInvestmentAmount
    ensures |pf.properties| == 1 && pf.properties[0].purchasePeriod == 0
    ensures pf.properties[0].currentValue == base.acquisitionCosts.purchasePrice
    ensures pf.cash == base.strategy.availableInvestmentAmount - InitialNeed(base, cfg) >= 0.0
    ensures pf.cashInvested == InitialNeed(base, cfg) && pf.injected == 0.0
    ensures FirstLeverages(cfg) <==> pf.leveragedCount == 1
    ensures LedgerOK(base, cfg, pf)
  {
    var f := FirstProfile(base, cfg);
    var price := base.acquisitionCosts.purchasePrice;
    var leverage := FirstLeverages(cfg);
    var loan := if leverage then price * cfg.leverageRatio else 0.0;
    var payment := if leverage then PaymentOrZero(MonthlyBondPayment(f).value) else 0.0;
    var p := LProperty(0, price, price, loan, loan, payment, MonthlyCashflow(f).value, 0, None, 0.0);
    LPortfolio([p], base.strategy.availableInvestmentAmount - InitialNeed(base, cfg), InitialNeed(base, cfg), 0.0,
               if leverage then 1 else 0, if leverage then 0 else 1, 1)
  }

  // ---------------------------------------------------------------------
  // One period

  /** Appreciation, then the principal step and the period's rent. */
  function Operate(base: PropertyInvestment, cfg: LegacyConfig, pf: LPortfolio): LPortfolio {
    PrincipalAndRent(pf.(properties := Appreciate(pf.properties, PeriodFactor(base, cfg))), Multiplier(cfg))
  }

  lemma OperateKeepsLedger(base: PropertyInvestment, cfg: LegacyConfig, pf: LPortfolio)
    requires LegacyReady(base, cfg) && LedgerOK(base, cfg, pf)
    ensures var r := Operate(base, cfg, pf);
      LedgerOK(base, cfg, r) && r.cashInvested == pf.cashInvested && r.injected == pf.injected
  {
    var r := Operate(base, cfg, pf);
    var a := Appreciate(pf.properties, PeriodFactor(base, cfg));
    forall i | 0 <= i < |r.properties|
      ensures r.properties[i].id == i && PropertyOK(base, cfg, r.properties[i])
    {
      assert PropertyOK(base, cfg, pf.properties[i]);
      if Buys(base, cfg) {
        assert a[i].currentValue > 0.0 by {
          assert a[i].currentValue == pf.properties[i].currentValue * PeriodFactor(base, cfg);
        }
      }
      assert r.properties[i] == RepayPrincipal(a[i], Multiplier(cfg));
    }
  }

  datatype Injected = Injected(portfolio: LPortfolio, events: seq<LInjection>)

  function Inject(cfg: LegacyConfig, pf: LPortfolio, period: int): (r: Injected)
    ensures r.portfolio.(cash := pf.cash, injected := pf.injected) == pf
  {
    var o := ApplyInjections(cfg.injections, period, PeriodsPerYear(cfg), pf.cash, pf.injected);
    Injected(pf.(cash := o.cash, injected := o.injected), o.events)
  }

  datatype Refinanced = Refinanced(portfolio: LPortfolio, events: seq<LRefinancing>)

  /** `_apply_refinancing` when it is enabled: the ledger is refinanced and
      the extracted cash is added. */
  function Refinance(base: PropertyInvestment, cfg: LegacyConfig, pf: LPortfolio, period: int): (r: Refinanced)
    requires LegacyReady(base, cfg) && LedgerOK(base, cfg, pf)
    ensures !cfg.enableRefinancing ==> r == Refinanced(pf, [])
    ensures r.portfolio.cash == pf.cash + SumBy(r.events, ExtractedOf)
    ensures r.portfolio.(properties := pf.properties, cash := pf.cash) == pf
    ensures |r.portfolio.properties| == |pf.properties|
  {
    if cfg.enableRefinancing then
      assert forall i :: 0 <= i < |pf.properties| && Refinances(cfg, pf.properties[i], period)
                         ==> RefinancePaymentDefined(base) by {
        forall i | 0 <= i < |pf.properties| && Refinances(cfg, pf.properties[i], period)
          ensures RefinancePaymentDefined(base)
        {
          assert PropertyOK(base, cfg, pf.properties[i]);
        }
      }
      var l := RefinanceLedger(base, cfg, pf.properties, period);
      Refinanced(pf.(properties := l.properties, cash := pf.cash + SumBy(l.events, ExtractedOf)), l.events)
    else Refinanced(pf, [])
  }

  predicate AllExtractCash(events: seq<LRefinancing>) {
    forall j :: 0 <= j < |events| ==> events[j].cashExtracted > 0.0
  }

  /** Every refinancing event extracts a positive amount. */
  lemma {:induction false} RefinanceEventsPositive(base: PropertyInvestment, cfg: LegacyConfig,
                                                   props: seq<LProperty>, period: int)
    requires forall i :: 0 <= i < |props| && Refinances(cfg, props[i], period) ==> RefinancePaymentDefined(base)
    ensures AllExtractCash(RefinanceLedger(base, cfg, props, period).events)
    decreases |props|
  {
    if |props| > 0 {
      RefinanceEventsPositive(base, cfg, props[1..], period);
      var r := RefinanceLedger(base, cfg, props, period);
      var one := RefinanceOne(base, cfg, props[0], period);
      var rest := RefinanceLedger(base, cfg, props[1..], period);
      assert AllExtractCash(rest.events);
      if one.event.Some? {
        assert r.events == [one.event.value] + rest.events;
        assert one.event.value.cashExtracted > 0.0;
      } else {
        assert r.events == rest.events;
      }
    }
  }

  lemma RefinanceKeepsLedger(base: PropertyInvestment, cfg: LegacyConfig, pf: LPortfolio, period: int)
    requires LegacyReady(base, cfg) && LedgerOK(base, cfg, pf)
    ensures var r := Refinance(base, cfg, pf, period);
      LedgerOK(base, cfg, r.portfolio) && r.portfolio.cash >= pf.cash
  {
    var r := Refinance(base, cfg, pf, period);
    if cfg.enableRefinancing {
      forall i | 0 <= i < |pf.properties| && Refinances(cfg, pf.properties[i], period)
        ensures RefinancePaymentDefined(base)
      {
        assert PropertyOK(base, cfg, pf.properties[i]);
      }
      forall i | 0 <= i < |r.portfolio.properties|
        ensures r.portfolio.properties[i].id == i && PropertyOK(base, cfg, r.portfolio.properties[i])
      {
        assert PropertyOK(base, cfg, pf.properties[i]);
      }
      RefinanceEventsPositive(base, cfg, pf.properties, period);
      assert r.events == RefinanceLedger(base, cfg, pf.properties, period).events;
      forall j | 0 <= j < |r.events| ensures ExtractedOf(r.events[j]) >= 0.0 {
        assert r.events[j].cashExtracted > 0.0;
      }
      SumByNonNegative(r.events, ExtractedOf);
    }
  }

  /** The market price is positive once values are. */
  lemma {:induction false} MarketPricePositive(base: PropertyInvestment, cfg: LegacyConfig, props: seq<LProperty>)
    requires Buys(base, cfg) && PropertiesOK(base, cfg, props)
    ensures MarketPrice(base, props) > 0.0
  {
    if |props| > 0 {
      assert PropertyOK(base, cfg, props[0]);
      forall i | 0 <= i < |props[1..]| ensures ValueOf(props[1..][i]) >= 0.0 {
        assert PropertyOK(base, cfg, props[i + 1]);
      }
      SumByNonNegative(props[1..], ValueOf);
    }
  }

  /** `_try_buy_new_properties` when reinvestment is on. */
  function Reinvest(base: PropertyInvestment, cfg: LegacyConfig, pf: LPortfolio, period: int): (r: BuyOutcome)
    requires LegacyReady(base, cfg) && LedgerOK(base, cfg, pf)
    ensures !cfg.enableReinvestment ==> r == BuyOutcome(pf, [])
  {
    if cfg.enableReinvestment then
      MarketPricePositive(base, cfg, pf.properties);
      BuyProperties(base, cfg, pf, period, MarketPrice(base, pf.properties))
    else BuyOutcome(pf, [])
  }

  /** Appending a property with the next id that satisfies the invariant
      keeps the ledger invariant. */
  lemma PurchaseKeepsLedger(base: PropertyInvestment, cfg: LegacyConfig, pf: LPortfolio, p: LProperty,
                            cost: real, leverage: bool)
    requires LedgerOK(base, cfg, pf) && p.id == pf.counter && PropertyOK(base, cfg, p)
    ensures LedgerOK(base, cfg, AfterPurchase(pf, p, cost, leverage))
  {
    var next := AfterPurchase(pf, p, cost, leverage);
    forall i | 0 <= i < |next.properties|
      ensures next.properties[i].id == i && PropertyOK(base, cfg, next.properties[i])
    {
      if i < |pf.properties| {
        assert next.properties[i] == pf.properties[i];
      }
    }
  }

  /** Purchases keep the ledger invariant and leave the cash non-negative
      when there are any. */
  lemma {:induction false} BuyKeepsLedger(base: PropertyInvestment, cfg: LegacyConfig, pf: LPortfolio, period: int,
                                          market: real)
    requires Buys(base, cfg) && market > 0.0 && market == MarketPrice(base, pf.properties)
    requires LedgerOK(base, cfg, pf)
    ensures LedgerOK(base, cfg, BuyProperties(base, cfg, pf, period, market).portfolio)
    decreases Budget(pf.cash, MinCost(base, cfg, market))
  {
    MinCostPositive(base, cfg, market);
    var leverage := LegacyShouldLeverage(cfg, |pf.properties|, pf.leveragedCount, pf.cashCount);
    var cost := LegacyCost(base, cfg, market, leverage);
    if pf.cash >= cost {
      var p := NewProperty(base, cfg, pf.counter, market, leverage, period);
      var next := AfterPurchase(pf, p, cost, leverage);
      MarketPriceUnchanged(base, pf.properties, p);
      PurchaseKeepsLedger(base, cfg, pf, p, cost, leverage);
      if !CoverTooShort(next) {
        BudgetDecreases(pf.cash, cost, MinCost(base, cfg, market));
        BuyKeepsLedger(base, cfg, next, period, market);
        var rest := BuyProperties(base, cfg, next, period, market);
        assert BuyProperties(base, cfg, pf, period, market).portfolio == rest.portfolio;
      }
    }
  }

  lemma ReinvestKeepsLedger(base: PropertyInvestment, cfg: LegacyConfig, pf: LPortfolio, period: int)
    requires LegacyReady(base, cfg) && LedgerOK(base, cfg, pf) && pf.cash >= 0.0
    ensures var r := Reinvest(base, cfg, pf, period);
      && LedgerOK(base, cfg, r.portfolio)
      && r.portfolio.cash >= 0.0
      && r.portfolio.cash + r.portfolio.cashInvested == pf.cash + pf.cashInvested
      && r.portfolio.injected == pf.injected
  {
    if cfg.enableReinvestment {
      MarketPricePositive(base, cfg, pf.properties);
      BuyKeepsLedger(base, cfg, pf, period, MarketPrice(base, pf.properties));
    }
  }

  datatype LStep = LStep(portfolio: LPortfolio, snapshot: LSnapshot)

  /** The cash after the period's cash flows and injections, which decides
      whether the run goes on. */
  function CashAfterInjections(base: PropertyInvestment, cfg: LegacyConfig, pf: LPortfolio, period: int): real {
    Inject(cfg, Operate(base, cfg, pf), period).portfolio.cash
  }

  /** One iteration of the loop in `simulate`: `None` when the cash after
      the period's cash flows and injections is negative (the run ends
      without a snapshot for this period). */
  function Step(base: PropertyInvestment, cfg: LegacyConfig, pf: LPortfolio, period: int,
                rpow: (real, real) -> real): (r: Option<LStep>)
    requires LegacyReady(base, cfg) && LedgerOK(base, cfg, pf)
    ensures r.None? <==> CashAfterInjections(base, cfg, pf, period) < 0.0
    ensures r.Some? ==>
      && r.value.snapshot.period == period
      && r.value.snapshot.properties == r.value.portfolio.properties
      && !r.value.snapshot.ended
  {
    OperateKeepsLedger(base, cfg, pf);
    var operated := Operate(base, cfg, pf);
    var injected := Inject(cfg, operated, period);
    if injected.portfolio.cash < 0.0 then None
    else
      var refinanced := Refinance(base, cfg, injected.portfolio, period);
      RefinanceKeepsLedger(base, cfg, injected.portfolio, period);
      var bought := Reinvest(base, cfg, refinanced.portfolio, period);
      ReinvestKeepsLedger(base, cfg, refinanced.portfolio, period);
      var pf' := bought.portfolio;
      assert PeriodsPerYear(cfg) == 1 ==> forall i :: 0 <= i < |pf'.properties| ==> pf'.properties[i].purchasePrice != 0.0
      by {
        forall i | 0 <= i < |pf'.properties| ensures PropertyOK(base, cfg, pf'.properties[i]) { }
      }
      var ys := LegacyAnnualYields(base, pf'.properties, period, PeriodsPerYear(cfg), rpow);
      Some(LStep(pf', MakeSnapshot(base, pf', period, refinanced.events, bought.purchases, injected.events, ys)))
  }

  /** Operating moves the cash by the ledger's cash flow for the period. */
  lemma OperateCash(base: PropertyInvestment, cfg: LegacyConfig, pf: LPortfolio)
    ensures var r := Operate(base, cfg, pf);
      && r.cash == pf.cash + SumBy(pf.properties, FlowOf) * Multiplier(cfg)
      && r.cashInvested == pf.cashInvested && r.injected == pf.injected
  {
    var appreciated := pf.(properties := Appreciate(pf.properties, PeriodFactor(base, cfg)));
    PrincipalAndRentCash(appreciated, Multiplier(cfg));
    SumByPointwise(appreciated.properties, pf.properties, FlowOf, FlowOf);
  }

  /** The total of the injections that fire in `period`. */
  function FiredIn(cfg: LegacyConfig, period: int): real {
    SumBy(LegacyFiring(cfg.injections, period, PeriodsPerYear(cfg)), Injections.RuleAmount)
  }

  /** Injections move the cash and the cumulative total by the same
      amount. */
  lemma InjectCash(cfg: LegacyConfig, pf: LPortfolio, period: int)
    ensures var r := Inject(cfg, pf, period).portfolio;
      var fired := FiredIn(cfg, period);
      r.cash == pf.cash + fired && r.injected == pf.injected + fired
  {
    InjectionAccounting(cfg.injections, period, PeriodsPerYear(cfg), pf.cash, pf.injected);
  }

  /** What a completed period keeps: the ledger invariant, a non-negative
      cash balance, the purchases appended to the ledger, and cash plus
      cash invested moving only by cash flows, injections and
      refinancing. */
  lemma StepFacts(base: PropertyInvestment, cfg: LegacyConfig, pf: LPortfolio, period: int,
                  rpow: (real, real) -> real)
    requires LegacyReady(base, cfg) && LedgerOK(base, cfg, pf)
    requires Step(base, cfg, pf, period, rpow).Some?
    ensures var s := Step(base, cfg, pf, period, rpow).value;
      && LedgerOK(base, cfg, s.portfolio)
      && s.snapshot.cash >= 0.0
      && |s.portfolio.properties| == |pf.properties| + |s.snapshot.purchases|
      && s.portfolio.injected - pf.injected
         == FiredIn(cfg, period)
      && s.portfolio.cash + s.portfolio.cashInvested
         == pf.cash + pf.cashInvested + SumBy(pf.properties, FlowOf) * Multiplier(cfg)
            + FiredIn(cfg, period)
            + SumBy(s.snapshot.refinancings, ExtractedOf)
  {
    OperateKeepsLedger(base, cfg, pf);
    OperateCash(base, cfg, pf);
    var operated := Operate(base, cfg, pf);
    var injected := Inject(cfg, operated, period);
    InjectCash(cfg, operated, period);
    RefinanceKeepsLedger(base, cfg, injected.portfolio, period);
    var refinanced := Refinance(base, cfg, injected.portfolio, period);
    ReinvestKeepsLedger(base, cfg, refinanced.portfolio, period);
    var bought := Reinvest(base, cfg, refinanced.portfolio, period);
    var s := Step(base, cfg, pf, period, rpow).value;
    assert s.portfolio == bought.portfolio;
    assert s.snapshot.refinancings == refinanced.events;
    assert s.snapshot.purchases == bought.purchases;
  }

  // ---------------------------------------------------------------------
  // The run

  /** The snapshots the simulator returns, and why it stopped if it
      stopped early. */
  datatype LegacyOutcome = LegacyOutcome(snapshots: seq<LSnapshot>, endReason: Option<LegacyEndReason>)

  function PeriodsLeft(cfg: LegacyConfig, period: int): nat {
    if TotalPeriods(cfg) - period + 1 > 0 then TotalPeriods(cfg) - period + 1 else 0
  }

  /** The loop of `simulate` from `period` on. */
  function RunFrom(base: PropertyInvestment, cfg: LegacyConfig, pf: LPortfolio, period: int,
                   rpow: (real, real) -> real): (r: LegacyOutcome)
    requires LegacyReady(base, cfg) && LedgerOK(base, cfg, pf)
    decreases PeriodsLeft(cfg, period)
  {
    if period > TotalPeriods(cfg) then LegacyOutcome([], None)
    else
      match Step(base, cfg, pf, period, rpow)
      case None => LegacyOutcome([], Some(InsufficientOperatingCash(period)))
      case Some(s) =>
        StepFacts(base, cfg, pf, period, rpow);
        var rest := RunFrom(base, cfg, s.portfolio, period + 1, rpow);
        LegacyOutcome([s.snapshot] + rest.snapshots, rest.endReason)
  }

  /** `simulate`: the unaffordable case yields the single failure snapshot;
      otherwise the period-0 snapshot (no events, no yields) is followed by
      the loop. */
  function LegacySimulate(base: PropertyInvestment, cfg: LegacyConfig, rpow: (real, real) -> real)
    : (r: LegacyOutcome)
    requires LegacyReady(base, cfg)
    ensures |r.snapshots| >= 1 && r.snapshots[0].period == 0
    ensures InitialNeed(base, cfg) > base.strategy.availableInvestmentAmount
            ==> r == LegacyOutcome([FailureSnapshot(base)], Some(InsufficientInitialCapital))
  {
    if InitialNeed(base, cfg) > base.strategy.availableInvestmentAmount then
      LegacyOutcome([FailureSnapshot(base)], Some(InsufficientInitialCapital))
    else
      var pf := InitialPortfolio(base, cfg);
      var rest := RunFrom(base, cfg, pf, 1, rpow);
      LegacyOutcome([MakeSnapshot(base, pf, 0, [], [], [], [])] + rest.snapshots, rest.endReason)
  }

  // ---------------------------------------------------------------------
  // Facts about the run

  /** With every cash flow the base cash flow less its payment, the
      ledger's cash flow is the base cash flow per property less the debt
      service. */
  lemma {:induction false} FlowsAreBaseLessPayments(base: PropertyInvestment, props: seq<LProperty>)
    requires forall i :: 0 <= i < |props| ==> props[i].monthlyCashflow == BaseCashflow(base) - props[i].payment
    ensures SumBy(props, FlowOf) == |props| as real * BaseCashflow(base) - SumBy(props, PaymentOf)
    decreases |props|
  {
    if |props| > 0 {
      FlowsAreBaseLessPayments(base, props[1..]);
    }
  }

  /** A snapshot's columns reconcile: the net cash flow is the rent after
      vacancy less operating expenses less debt service. */
  lemma SnapshotReconciles(base: PropertyInvestment, cfg: LegacyConfig, pf: LPortfolio, period: int,
                           refinancings: seq<LRefinancing>, purchases: seq<LPurchase>,
                           injections: seq<LInjection>, ys: seq<LYields>)
    requires PropertiesOK(base, cfg, pf.properties)
    ensures var s := MakeSnapshot(base, pf, period, refinancings, purchases, injections, ys);
      s.monthlyNetCashflow
        == s.monthlyRentalIncome * (1.0 - base.operating.vacancyRate) - s.monthlyOperatingExpenses
           - s.monthlyDebtService
  {
    var props := pf.properties;
    forall i | 0 <= i < |props| ensures props[i].monthlyCashflow == BaseCashflow(base) - props[i].payment {
      assert PropertyOK(base, cfg, props[i]);
    }
    FlowsAreBaseLessPayments(base, props);
    var n := |props| as real;
    var o := base.operating;
    assert n * (o.monthlyRentalIncome * (1.0 - o.vacancyRate)) == (n * o.monthlyRentalIncome) * (1.0 - o.vacancyRate);
  }

  /** The additional capital injected in periods 1 through `period`. */
  function InjectedThrough(cfg: LegacyConfig, period: int): real
    decreases if period > 0 then period else 0
  {
    if period <= 0 then 0.0
    else InjectedThrough(cfg, period - 1)
         + FiredIn(cfg, period)
  }

  /** What every snapshot of a started run shows: not flagged, cash not
      negative, ids that are positions, reconciled columns, no yields under
      monthly tracking. */
  predicate SnapshotOK(base: PropertyInvestment, cfg: LegacyConfig, s: LSnapshot) {
    && !s.ended && s.endReason.None?
    && s.cash >= 0.0
    && s.numProperties == |s.properties|
    && (forall i :: 0 <= i < |s.properties| ==> s.properties[i].id == i)
    && s.monthlyNetCashflow
       == s.monthlyRentalIncome * (1.0 - base.operating.vacancyRate) - s.monthlyOperatingExpenses
          - s.monthlyDebtService
    && (cfg.tracking == MonthlyTracking ==> s.propertyYields == [])
  }

  predicate AllOK(base: PropertyInvestment, cfg: LegacyConfig, r: seq<LSnapshot>) {
    forall i :: 0 <= i < |r| ==> SnapshotOK(base, cfg, r[i])
  }

  predicate PeriodsFrom(r: seq<LSnapshot>, period: int) {
    forall i :: 0 <= i < |r| ==> r[i].period == period + i
  }

  /** A completed period's snapshot of its portfolio. */
  lemma StepSnapshot(base: PropertyInvestment, cfg: LegacyConfig, pf: LPortfolio, period: int,
                     rpow: (real, real) -> real)
    requires LegacyReady(base, cfg) && LedgerOK(base, cfg, pf)
    requires Step(base, cfg, pf, period, rpow).Some?
    ensures var s := Step(base, cfg, pf, period, rpow).value;
      && s.snapshot == MakeSnapshot(base, s.portfolio, period, s.snapshot.refinancings, s.snapshot.purchases,
                                    s.snapshot.injections, s.snapshot.propertyYields)
      && (cfg.tracking == MonthlyTracking ==> s.snapshot.propertyYields == [])
  {
    OperateKeepsLedger(base, cfg, pf);
    var injected := Inject(cfg, Operate(base, cfg, pf), period);
    RefinanceKeepsLedger(base, cfg, injected.portfolio, period);
    var refinanced := Refinance(base, cfg, injected.portfolio, period);
    ReinvestKeepsLedger(base, cfg, refinanced.portfolio, period);
    var bought := Reinvest(base, cfg, refinanced.portfolio, period);
    var s := Step(base, cfg, pf, period, rpow).value;
    assert s.portfolio == bought.portfolio;
    var ys := LegacyAnnualYields(base, bought.portfolio.properties, period, PeriodsPerYear(cfg), rpow);
    assert s.snapshot == MakeSnapshot(base, bought.portfolio, period, refinanced.events, bought.purchases,
                                      injected.events, ys);
  }

  /** The snapshot of a sound portfolio with non-negative cash is sound. */
  lemma SnapshotOfSoundPortfolio(base: PropertyInvestment, cfg: LegacyConfig, pf: LPortfolio, period: int,
                                 refinancings: seq<LRefinancing>, purchases: seq<LPurchase>,
                                 injections: seq<LInjection>, ys: seq<LYields>)
    requires LedgerOK(base, cfg, pf) && pf.cash >= 0.0
    requires cfg.tracking == MonthlyTracking ==> ys == []
    ensures SnapshotOK(base, cfg, MakeSnapshot(base, pf, period, refinancings, purchases, injections, ys))
  {
    SnapshotReconciles(base, cfg, pf, period, refinancings, purchases, injections, ys);
  }

  lemma StepOK(base: PropertyInvestment, cfg: LegacyConfig, pf: LPortfolio, period: int, rpow: (real, real) -> real)
    requires LegacyReady(base, cfg) && LedgerOK(base, cfg, pf)
    requires Step(base, cfg, pf, period, rpow).Some?
    ensures SnapshotOK(base, cfg, Step(base, cfg, pf, period, rpow).value.snapshot)
  {
    StepFacts(base, cfg, pf, period, rpow);
    StepSnapshot(base, cfg, pf, period, rpow);
    var s := Step(base, cfg, pf, period, rpow).value;
    SnapshotOfSoundPortfolio(base, cfg, s.portfolio, period, s.snapshot.refinancings, s.snapshot.purchases,
                             s.snapshot.injections, s.snapshot.propertyYields);
  }

  /** One unfolding of the loop: a completed period contributes its
      snapshot ahead of the rest of the run. */
  lemma RunFromUnfold(base: PropertyInvestment, cfg: LegacyConfig, pf: LPortfolio, period: int,
                      rpow: (real, real) -> real)
    requires LegacyReady(base, cfg) && LedgerOK(base, cfg, pf) && period <= TotalPeriods(cfg)
    requires Step(base, cfg, pf, period, rpow).Some?
    ensures var m := Step(base, cfg, pf, period, rpow).value;
      && LedgerOK(base, cfg, m.portfolio)
      && var rest := RunFrom(base, cfg, m.portfolio, period + 1, rpow);
         RunFrom(base, cfg, pf, period, rpow) == LegacyOutcome([m.snapshot] + rest.snapshots, rest.endReason)
  {
    StepFacts(base, cfg, pf, period, rpow);
  }

  lemma SoundCons(base: PropertyInvestment, cfg: LegacyConfig, s: LSnapshot, rest: seq<LSnapshot>)
    requires SnapshotOK(base, cfg, s) && AllOK(base, cfg, rest)
    ensures AllOK(base, cfg, [s] + rest)
  {
    var r := [s] + rest;
    forall i | 1 <= i < |r| ensures r[i] == rest[i - 1] { }
  }

  lemma PeriodsCons(s: LSnapshot, rest: seq<LSnapshot>, period: int)
    requires s.period == period && PeriodsFrom(rest, period + 1)
    ensures PeriodsFrom([s] + rest, period)
  {
    var r := [s] + rest;
    forall i | 1 <= i < |r| ensures r[i] == rest[i - 1] { }
  }

  /** The loop stops past the horizon, and on a period whose cash went
      negative, which it records as the end reason. */
  lemma RunFromStops(base: PropertyInvestment, cfg: LegacyConfig, pf: LPortfolio, period: int,
                     rpow: (real, real) -> real)
    requires LegacyReady(base, cfg) && LedgerOK(base, cfg, pf)
    ensures period > TotalPeriods(cfg) ==> RunFrom(base, cfg, pf, period, rpow) == LegacyOutcome([], None)
    ensures period <= TotalPeriods(cfg) && Step(base, cfg, pf, period, rpow).None? ==>
      RunFrom(base, cfg, pf, period, rpow) == LegacyOutcome([], Some(InsufficientOperatingCash(period)))
  {
  }

  /** The periods from `period` on are consecutive. */
  lemma {:induction false} RunFromPeriods(base: PropertyInvestment, cfg: LegacyConfig, pf: LPortfolio, period: int,
                                          rpow: (real, real) -> real)
    requires LegacyReady(base, cfg) && LedgerOK(base, cfg, pf)
    ensures PeriodsFrom(RunFrom(base, cfg, pf, period, rpow).snapshots, period)
    decreases PeriodsLeft(cfg, period)
  {
    RunFromStops(base, cfg, pf, period, rpow);
    if period <= TotalPeriods(cfg) {
      var m := Step(base, cfg, pf, period, rpow);
      if m.Some? {
        StepFacts(base, cfg, pf, period, rpow);
        RunFromPeriods(base, cfg, m.value.portfolio, period + 1, rpow);
        PeriodsStep(base, cfg, pf, period, rpow);
      }
    }
  }

  lemma PeriodsStep(base: PropertyInvestment, cfg: LegacyConfig, pf: LPortfolio, period: int,
                    rpow: (real, real) -> real)
    requires LegacyReady(base, cfg) && LedgerOK(base, cfg, pf) && period <= TotalPeriods(cfg)
    requires Step(base, cfg, pf, period, rpow).Some?
    requires var m := Step(base, cfg, pf, period, rpow).value;
      LedgerOK(base, cfg, m.portfolio)
      && PeriodsFrom(RunFrom(base, cfg, m.portfolio, period + 1, rpow).snapshots, period + 1)
    ensures PeriodsFrom(RunFrom(base, cfg, pf, period, rpow).snapshots, period)
  {
    var m := Step(base, cfg, pf, period, rpow).value;
    RunFromUnfold(base, cfg, pf, period, rpow);
    PeriodsCons(m.snapshot, RunFrom(base, cfg, m.portfolio, period + 1, rpow).snapshots, period);
  }

  /** How a run of `n` periods left may end: with every period recorded,
      or early at the period after the last snapshot. */
  predicate LengthOK(cfg: LegacyConfig, r: LegacyOutcome, period: int) {
    && |r.snapshots| <= PeriodsLeft(cfg, period)
    && (r.endReason.None? ==> |r.snapshots| == PeriodsLeft(cfg, period))
    && (r.endReason.Some? ==>
          && r.endReason == Some(InsufficientOperatingCash(period + |r.snapshots|))
          && period + |r.snapshots| <= TotalPeriods(cfg))
  }

  lemma LengthCons(cfg: LegacyConfig, s: LSnapshot, rest: LegacyOutcome, period: int)
    requires period <= TotalPeriods(cfg) && LengthOK(cfg, rest, period + 1)
    ensures LengthOK(cfg, LegacyOutcome([s] + rest.snapshots, rest.endReason), period)
  {
    assert PeriodsLeft(cfg, period) == PeriodsLeft(cfg, period + 1) + 1;
  }

  /** No more snapshots than periods left, and an early end exactly when
      the cash of the period after the last snapshot went negative. */
  lemma {:induction false} RunFromLength(base: PropertyInvestment, cfg: LegacyConfig, pf: LPortfolio, period: int,
                                         rpow: (real, real) -> real)
    requires LegacyReady(base, cfg) && LedgerOK(base, cfg, pf)
    ensures LengthOK(cfg, RunFrom(base, cfg, pf, period, rpow), period)
    decreases PeriodsLeft(cfg, period)
  {
    RunFromStops(base, cfg, pf, period, rpow);
    if period <= TotalPeriods(cfg) {
      var m := Step(base, cfg, pf, period, rpow);
      if m.Some? {
        StepFacts(base, cfg, pf, period, rpow);
        RunFromLength(base, cfg, m.value.portfolio, period + 1, rpow);
        LengthStep(base, cfg, pf, period, rpow);
      }
    }
  }

  lemma LengthStep(base: PropertyInvestment, cfg: LegacyConfig, pf: LPortfolio, period: int,
                   rpow: (real, real) -> real)
    requires LegacyReady(base, cfg) && LedgerOK(base, cfg, pf) && period <= TotalPeriods(cfg)
    requires Step(base, cfg, pf, period, rpow).Some?
    requires var m := Step(base, cfg, pf, period, rpow).value;
      LedgerOK(base, cfg, m.portfolio)
      && LengthOK(cfg, RunFrom(base, cfg, m.portfolio, period + 1, rpow), period + 1)
    ensures LengthOK(cfg, RunFrom(base, cfg, pf, period, rpow), period)
  {
    var m := Step(base, cfg, pf, period, rpow).value;
    RunFromUnfold(base, cfg, pf, period, rpow);
    LengthCons(cfg, m.snapshot, RunFrom(base, cfg, m.portfolio, period + 1, rpow), period);
  }

  /** Every snapshot from `period` on is sound. */
  lemma {:induction false} RunFromSound(base: PropertyInvestment, cfg: LegacyConfig, pf: LPortfolio, period: int,
                                        rpow: (real, real) -> real)
    requires LegacyReady(base, cfg) && LedgerOK(base, cfg, pf)
    ensures AllOK(base, cfg, RunFrom(base, cfg, pf, period, rpow).snapshots)
    decreases PeriodsLeft(cfg, period)
  {
    RunFromStops(base, cfg, pf, period, rpow);
    if period <= TotalPeriods(cfg) {
      var m := Step(base, cfg, pf, period, rpow);
      if m.Some? {
        StepFacts(base, cfg, pf, period, rpow);
        RunFromSound(base, cfg, m.value.portfolio, period + 1, rpow);
        SoundStep(base, cfg, pf, period, rpow);
      }
    }
  }

  lemma SoundStep(base: PropertyInvestment, cfg: LegacyConfig, pf: LPortfolio, period: int,
                  rpow: (real, real) -> real)
    requires LegacyReady(base, cfg) && LedgerOK(base, cfg, pf) && period <= TotalPeriods(cfg)
    requires Step(base, cfg, pf, period, rpow).Some?
    requires var m := Step(base, cfg, pf, period, rpow).value;
      LedgerOK(base, cfg, m.portfolio)
      && AllOK(base, cfg, RunFrom(base, cfg, m.portfolio, period + 1, rpow).snapshots)
    ensures AllOK(base, cfg, RunFrom(base, cfg, pf, period, rpow).snapshots)
  {
    var m := Step(base, cfg, pf, period, rpow).value;
    RunFromUnfold(base, cfg, pf, period, rpow);
    StepOK(base, cfg, pf, period, rpow);
    SoundCons(base, cfg, m.snapshot, RunFrom(base, cfg, m.portfolio, period + 1, rpow).snapshots);
  }

  /** Each snapshot's cumulative injections are the previous snapshot's
      (or `prev` for the first) plus the injections of its own period. */
  predicate InjectionSteps(r: seq<LSnapshot>, cfg: LegacyConfig, prev: real) {
    && (|r| > 0 ==> r[0].injected == prev + FiredIn(cfg, r[0].period))
    && forall i :: 0 < i < |r| ==> r[i].injected == r[i - 1].injected + FiredIn(cfg, r[i].period)
  }

  lemma InjectionStepsCons(s: LSnapshot, rest: seq<LSnapshot>, cfg: LegacyConfig, prev: real)
    requires s.injected == prev + FiredIn(cfg, s.period) && InjectionSteps(rest, cfg, s.injected)
    ensures InjectionSteps([s] + rest, cfg, prev)
  {
    var r := [s] + rest;
    assert r[0] == s;
    forall i | 0 < i < |r| ensures r[i].injected == r[i - 1].injected + FiredIn(cfg, r[i].period) {
      assert r[i] == rest[i - 1];
      if i > 1 {
        assert r[i - 1] == rest[i - 2];
      }
    }
  }

  /** A completed period's snapshot adds the period's injections to the
      running total. */
  lemma StepInjected(base: PropertyInvestment, cfg: LegacyConfig, pf: LPortfolio, period: int,
                     rpow: (real, real) -> real)
    requires LegacyReady(base, cfg) && LedgerOK(base, cfg, pf)
    requires Step(base, cfg, pf, period, rpow).Some?
    ensures var s := Step(base, cfg, pf, period, rpow).value.snapshot;
      s.injected == pf.injected + FiredIn(cfg, s.period)
  {
    StepFacts(base, cfg, pf, period, rpow);
    StepSnapshot(base, cfg, pf, period, rpow);
  }

  /** Each completed period adds that period's injections to the running
      total. */
  lemma {:induction false} RunFromInjected(base: PropertyInvestment, cfg: LegacyConfig, pf: LPortfolio, period: int,
                                           rpow: (real, real) -> real)
    requires LegacyReady(base, cfg) && LedgerOK(base, cfg, pf)
    ensures InjectionSteps(RunFrom(base, cfg, pf, period, rpow).snapshots, cfg, pf.injected)
    decreases PeriodsLeft(cfg, period)
  {
    RunFromStops(base, cfg, pf, period, rpow);
    if period <= TotalPeriods(cfg) {
      var m := Step(base, cfg, pf, period, rpow);
      if m.Some? {
        StepFacts(base, cfg, pf, period, rpow);
        RunFromInjected(base, cfg, m.value.portfolio, period + 1, rpow);
        InjectedStep(base, cfg, pf, period, rpow);
      }
    }
  }

  /** The inductive step of `RunFromInjected`: a completed period followed
      by a run whose totals step correctly. */
  lemma InjectedStep(base: PropertyInvestment, cfg: LegacyConfig, pf: LPortfolio, period: int,
                     rpow: (real, real) -> real)
    requires LegacyReady(base, cfg) && LedgerOK(base, cfg, pf) && period <= TotalPeriods(cfg)
    requires Step(base, cfg, pf, period, rpow).Some?
    requires var m := Step(base, cfg, pf, period, rpow).value;
      LedgerOK(base, cfg, m.portfolio)
      && InjectionSteps(RunFrom(base, cfg, m.portfolio, period + 1, rpow).snapshots, cfg, m.snapshot.injected)
    ensures InjectionSteps(RunFrom(base, cfg, pf, period, rpow).snapshots, cfg, pf.injected)
  {
    var m := Step(base, cfg, pf, period, rpow).value;
    RunFromUnfold(base, cfg, pf, period, rpow);
    StepInjected(base, cfg, pf, period, rpow);
    InjectionStepsCons(m.snapshot, RunFrom(base, cfg, m.portfolio, period + 1, rpow).snapshots, cfg, pf.injected);
  }

  /** Period by period increments starting from zero at period 0 add up to
      the cumulative injections through each period. */
  lemma {:induction false} StepsAccumulate(r: seq<LSnapshot>, cfg: LegacyConfig, i: nat)
    requires |r| >= 1 && r[0].injected == 0.0
    requires PeriodsFrom(r, 0) && InjectionSteps(r[1..], cfg, 0.0)
    requires i < |r|
    ensures r[i].injected == InjectedThrough(cfg, i)
  {
    if i > 0 {
      StepsAccumulate(r, cfg, i - 1);
      var t := r[1..];
      assert t[i - 1] == r[i] && r[i].period == i;
      if i > 1 {
        assert t[i - 2] == r[i - 1];
      }
    }
  }

  /** `simulate` unfolded: the failure snapshot alone, or the period-0
      snapshot of the initial portfolio ahead of the loop. */
  lemma LegacySimulateUnfold(base: PropertyInvestment, cfg: LegacyConfig, rpow: (real, real) -> real)
    requires LegacyReady(base, cfg)
    ensures InitialNeed(base, cfg) <= base.strategy.availableInvestmentAmount ==>
      var pf := InitialPortfolio(base, cfg);
      var rest := RunFrom(base, cfg, pf, 1, rpow);
      && LedgerOK(base, cfg, pf)
      && LegacySimulate(base, cfg, rpow)
         == LegacyOutcome([MakeSnapshot(base, pf, 0, [], [], [], [])] + rest.snapshots, rest.endReason)
  {
  }

  /** The whole legacy run: consecutive periods from 0, at most one more
      snapshot than periods, and an early end of a started run only for
      negative operating cash, recorded for the period after the last
      snapshot. */
  lemma LegacySimulatePeriods(base: PropertyInvestment, cfg: LegacyConfig, rpow: (real, real) -> real)
    requires LegacyReady(base, cfg)
    ensures var r := LegacySimulate(base, cfg, rpow);
      && PeriodsFrom(r.snapshots, 0)
      && |r.snapshots| <= PeriodsLeft(cfg, 1) + 1
      && (InitialNeed(base, cfg) <= base.strategy.availableInvestmentAmount ==>
            && (r.endReason.None? ==> |r.snapshots| == PeriodsLeft(cfg, 1) + 1)
            && (r.endReason.Some? ==> r.endReason == Some(InsufficientOperatingCash(|r.snapshots|))))
  {
    LegacySimulateUnfold(base, cfg, rpow);
    if InitialNeed(base, cfg) <= base.strategy.availableInvestmentAmount {
      var pf := InitialPortfolio(base, cfg);
      RunFromPeriods(base, cfg, pf, 1, rpow);
      RunFromLength(base, cfg, pf, 1, rpow);
      PeriodsCons(MakeSnapshot(base, pf, 0, [], [], [], []), RunFrom(base, cfg, pf, 1, rpow).snapshots, 0);
    }
  }

  /** In a started run every snapshot is sound: none is flagged, the cash
      is never negative, the columns reconcile, monthly tracking reports no
      yields, and the injections to date are all the firings so far. */
  lemma LegacySimulateSound(base: PropertyInvestment, cfg: LegacyConfig, rpow: (real, real) -> real)
    requires LegacyReady(base, cfg)
    requires InitialNeed(base, cfg) <= base.strategy.availableInvestmentAmount
    ensures AllOK(base, cfg, LegacySimulate(base, cfg, rpow).snapshots)
  {
    LegacySimulateUnfold(base, cfg, rpow);
    var pf := InitialPortfolio(base, cfg);
    SnapshotOfSoundPortfolio(base, cfg, pf, 0, [], [], [], []);
    RunFromSound(base, cfg, pf, 1, rpow);
    SoundCons(base, cfg, MakeSnapshot(base, pf, 0, [], [], [], []), RunFrom(base, cfg, pf, 1, rpow).snapshots);
  }

  /** The first snapshot is flagged exactly when the first property is
      unaffordable. */
  lemma FirstSnapshotFlagged(base: PropertyInvestment, cfg: LegacyConfig, rpow: (real, real) -> real)
    requires LegacyReady(base, cfg)
    ensures LegacySimulate(base, cfg, rpow).snapshots[0].ended
            <==> InitialNeed(base, cfg) > base.strategy.availableInvestmentAmount
  {
    if InitialNeed(base, cfg) <= base.strategy.availableInvestmentAmount {
      LegacySimulateSound(base, cfg, rpow);
      assert SnapshotOK(base, cfg, LegacySimulate(base, cfg, rpow).snapshots[0]);
    }
  }

  /** Only a run whose first property was unaffordable carries a flagged
      snapshot, and then it is the only one and holds no property. */
  lemma OnlyFailureIsFlagged(base: PropertyInvestment, cfg: LegacyConfig, rpow: (real, real) -> real, i: int)
    requires LegacyReady(base, cfg)
    requires 0 <= i < |LegacySimulate(base, cfg, rpow).snapshots|
    requires LegacySimulate(base, cfg, rpow).snapshots[i].ended
    ensures InitialNeed(base, cfg) > base.strategy.availableInvestmentAmount
    ensures i == 0 && |LegacySimulate(base, cfg, rpow).snapshots| == 1
    ensures LegacySimulate(base, cfg, rpow).snapshots[0].numProperties == 0
  {
    if InitialNeed(base, cfg) <= base.strategy.availableInvestmentAmount {
      LegacySimulateSound(base, cfg, rpow);
      assert false;
    }
  }

  /** Under monthly tracking no snapshot reports yields. */
  lemma MonthlyRunHasNoYields(base: PropertyInvestment, cfg: LegacyConfig, rpow: (real, real) -> real, i: int)
    requires LegacyReady(base, cfg) && cfg.tracking == MonthlyTracking
    requires 0 <= i < |LegacySimulate(base, cfg, rpow).snapshots|
    ensures LegacySimulate(base, cfg, rpow).snapshots[i].propertyYields == []
  {
    if InitialNeed(base, cfg) <= base.strategy.availableInvestmentAmount {
      LegacySimulateSound(base, cfg, rpow);
      assert SnapshotOK(base, cfg, LegacySimulate(base, cfg, rpow).snapshots[i]);
    }
  }

  /** Snapshot i reports the additional capital injected in periods 1
      through i. */
  lemma InjectionsAccumulate(base: PropertyInvestment, cfg: LegacyConfig, rpow: (real, real) -> real)
    requires LegacyReady(base, cfg)
    ensures var r := LegacySimulate(base, cfg, rpow).snapshots;
      forall i :: 0 <= i < |r| ==> r[i].injected == InjectedThrough(cfg, i)
  {
    var r := LegacySimulate(base, cfg, rpow).snapshots;
    LegacySimulateUnfold(base, cfg, rpow);
    LegacySimulatePeriods(base, cfg, rpow);
    if InitialNeed(base, cfg) <= base.strategy.availableInvestmentAmount {
      var pf := InitialPortfolio(base, cfg);
      RunFromInjected(base, cfg, pf, 1, rpow);
      assert r[1..] == RunFrom(base, cfg, pf, 1, rpow).snapshots;
    } else {
      assert r[1..] == [];
    }
    forall i | 0 <= i < |r| ensures r[i].injected == InjectedThrough(cfg, i) {
      StepsAccumulate(r, cfg, i);
    }
  }
}
