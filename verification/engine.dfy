/** The always-monthly portfolio engine of back/core/strategies.py: the
    per-property record it keeps, the loan terms and cost figures it derives
    from the base investment profile, and the purchase of the first property. */
module Engine {
  import opened Wrappers
  import opened Numerics
  import opened Amortization
  import opened Investment
  import opened Labels
  import opened Config

  /** `PropertyData`; `financingLabel` is "cash" or "<n>%_leverage". */
  datatype Property = Property(
    id: nat,
    purchasePrice: real,
    currentValue: real,
    loan: real,
    payment: real,
    financingLabel: string,
    monthsOwned: nat,
    annualRent: real,
    annualExpenses: real,
    monthlyCashflow: real,
    costBasis: real)

  /** `PropertyPurchase`. */
  datatype Purchase = Purchase(
    propertyId: nat,
    purchasePrice: real,
    cashRequired: real,
    financingLabel: string,
    loan: real)

  /** The portfolio dictionary: the ledger, the cash on hand, the next
      property id and the cumulative additional capital. */
  datatype Portfolio = Portfolio(properties: seq<Property>, cash: real, counter: nat, injected: real)

  /** The two ways a run stops early. */
  datatype EndReason =
    | FirstPropertyUnaffordable(needed: real, available: real)
    | OperatingDeficit(deficit: real, available: real)

  /** The annual rate the engine lends at: a missing or zero rate is 10.5%. */
  function EngineRate(base: PropertyInvestment): real {
    OrDefault(base.financing.interestRate, 0.105)
  }

  /** The term the engine lends over: a missing or zero term is 20 years. */
  function EngineTermYears(base: PropertyInvestment): (t: nat)
    ensures t >= 1
    ensures base.financing.loanTermYears.Some? && base.financing.loanTermYears.value != 0
            ==> t == base.financing.loanTermYears.value
  {
    if base.financing.loanTermYears.None? || base.financing.loanTermYears.value == 0 then 20
    else base.financing.loanTermYears.value
  }

  /** The one engine rate for which the payment formula divides by zero:
      a monthly rate of -2 makes (1 + r)^n equal 1 for every even n. */
  predicate EnginePaymentDefined(base: PropertyInvestment) {
    EngineRate(base) != -24.0
  }

  /** `_calculate_monthly_payment`: nothing for a non-positive loan, else the
      level payment that pays the loan off over the engine's term at the
      engine's rate. */
  function EnginePayment(base: PropertyInvestment, loan: real): (p: real)
    requires EnginePaymentDefined(base)
    ensures loan <= 0.0 ==> p == 0.0
    ensures loan > 0.0 ==>
      Balance(loan, EngineRate(base) / 12.0, p, 12 * EngineTermYears(base)) == 0.0
  {
    if loan <= 0.0 then 0.0
    else
      var r := EngineRate(base) / 12.0;
      var n := 12 * EngineTermYears(base);
      AnnuityDefined(loan, r, n);
      AnnuityRepaysLoan(loan, r, n);
      Annuity(loan, r, n).value
  }

  /** `_calculate_annual_expenses`: unlike the profile's own figure, the
      management fee is charged on the gross rent, so the annual total exceeds
      twelve months of the profile's expenses by the fee on the vacant share. */
  function EngineAnnualExpenses(o: OperatingParameters): (r: real)
    ensures r == 12.0 * TotalMonthlyExpenses(o) + AnnualRentalIncome(o) * o.vacancyRate * o.managementFeeRate
  {
    var fee := AnnualRentalIncome(o) * o.managementFeeRate;
    assert fee == 12.0 * MonthlyManagementFee(o) + AnnualRentalIncome(o) * o.vacancyRate * o.managementFeeRate by {
      assert MonthlyManagementFee(o) == o.monthlyRentalIncome * (1.0 - o.vacancyRate) * o.managementFeeRate;
    }
    o.monthlyLevies * 12.0 + fee + o.monthlyInsurance * 12.0
      + o.monthlyMaintenanceReserve * 12.0 + OrZero(o.monthlyFurnishingRepairCosts) * 12.0
  }

  /** `_calculate_monthly_cashflow`: the base property's cash flow with the fee
      on the gross rent, so it falls short of the profile's own monthly cash
      flow by the fee on the vacant share of the rent. */
  function BaseMonthlyCashflow(base: PropertyInvestment): (r: real)
    requires MonthlyBondPayment(base).Ok?
    ensures r == MonthlyCashflow(base).value
                 - base.operating.monthlyRentalIncome * base.operating.vacancyRate * base.operating.managementFeeRate
  {
    var o := base.operating;
    var expenses := o.monthlyLevies + o.monthlyRentalIncome * o.managementFeeRate + o.monthlyInsurance
                    + o.monthlyMaintenanceReserve + OrZero(o.monthlyFurnishingRepairCosts);
    assert o.monthlyRentalIncome * o.managementFeeRate
        == MonthlyManagementFee(o) + o.monthlyRentalIncome * o.vacancyRate * o.managementFeeRate by {
      assert MonthlyManagementFee(o) == o.monthlyRentalIncome * (1.0 - o.vacancyRate) * o.managementFeeRate;
    }
    EffectiveMonthlyRental(o) - expenses - PaymentOrZero(MonthlyBondPayment(base).value)
  }

  /** Everything the engine needs of its inputs to run without raising: the
      base profile's bond payment is computable, the engine's own payment
      formula is defined, a refinancing cadence is at least one month, and
      (when reinvesting) every property the strategy may buy costs something,
      without which the purchase loop never ends. */
  predicate Ready(base: PropertyInvestment, cfg: StrategyConfig) {
    && MonthlyBondPayment(base).Ok?
    && EnginePaymentDefined(base)
    && (cfg.enableRefinancing ==> Trunc(cfg.refinanceFrequencyYears * 12.0) != 0)
    && (cfg.enableReinvestment && cfg.kind != CashOnly ==> UnitCost(base, cfg, true) > 0.0)
    && (cfg.enableReinvestment && cfg.kind != LeveragedOnly ==> UnitCost(base, cfg, false) > 0.0)
  }

  /** The label of a leveraged property: the whole percentage of the
      configured loan-to-value ratio. */
  function LeverageLabel(cfg: StrategyConfig): string {
    EncodeLeverage(cfg.leverageRatio)
  }

  function LabelFor(cfg: StrategyConfig, leverage: bool): string {
    if leverage then LeverageLabel(cfg) else CashLabel
  }

  function LoanFor(base: PropertyInvestment, cfg: StrategyConfig, leverage: bool): real {
    if leverage then base.acquisitionCosts.purchasePrice * cfg.leverageRatio else 0.0
  }

  /** Whether the first property is bought with a loan. */
  predicate FirstIsLeveraged(cfg: StrategyConfig) {
    cfg.kind == LeveragedOnly || (cfg.kind == Mixed && cfg.firstPropertyType == FirstLeveraged)
  }

  /** Cash needed for the first property: a cash purchase pays the whole
      furnished cost, bond registration included; a leveraged one pays the
      furnished cost less the loan. */
  function FirstCashRequired(base: PropertyInvestment, cfg: StrategyConfig): (r: real)
    ensures !FirstIsLeveraged(cfg) ==> r == TotalFurnishedCost(base.acquisitionCosts)
    ensures FirstIsLeveraged(cfg) ==>
      r + LoanFor(base, cfg, true) == TotalFurnishedCost(base.acquisitionCosts)
  {
    var c := base.acquisitionCosts;
    if !FirstIsLeveraged(cfg) then
      TotalUnfurnishedCost(c) + OrZero(c.furnishingCost)
    else
      c.purchasePrice * (1.0 - cfg.leverageRatio) + c.transferDuty + c.conveyancingFees
        + c.bondRegistration + OrZero(c.furnishingCost)
  }

  /** Cash needed for each later property: the furnished cost less the loan
      when leveraged, and less the bond registration (no bond is registered)
      when bought for cash. The source scales every cost by a price ratio
      that is fixed at 1. */
  function UnitCost(base: PropertyInvestment, cfg: StrategyConfig, leverage: bool): (r: real)
    ensures leverage ==> r + LoanFor(base, cfg, true) == TotalFurnishedCost(base.acquisitionCosts)
    ensures !leverage ==>
      r + base.acquisitionCosts.bondRegistration == TotalFurnishedCost(base.acquisitionCosts)
  {
    var c := base.acquisitionCosts;
    var furnishing := OrZero(c.furnishingCost);
    if leverage then
      c.purchasePrice * (1.0 - cfg.leverageRatio) + c.transferDuty + c.conveyancingFees + c.bondRegistration
        + furnishing
    else
      c.purchasePrice + c.transferDuty + c.conveyancingFees + furnishing
  }

  /** The first property costs what a later one of the same financing costs,
      except that a first cash property also pays the bond registration. */
  lemma FirstPropertyCost(base: PropertyInvestment, cfg: StrategyConfig)
    ensures FirstIsLeveraged(cfg) ==> FirstCashRequired(base, cfg) == UnitCost(base, cfg, true)
    ensures !FirstIsLeveraged(cfg) ==>
      FirstCashRequired(base, cfg) == UnitCost(base, cfg, false) + base.acquisitionCosts.bondRegistration
  {
  }

  /** The engine's first-property figure agrees with the profile's own
      `initial_cash_required` once the profile is set to the strategy's
      financing and loan-to-value ratio. */
  lemma FirstCashMatchesProfile(base: PropertyInvestment, cfg: StrategyConfig)
    ensures var f := base.financing.(financingType := if FirstIsLeveraged(cfg) then Leveraged else Cash,
                                     ltvRatio := cfg.leverageRatio);
            FirstCashRequired(base, cfg) == InitialCashRequired(base.(financing := f))
  {
  }

  /** A property bought now on the base profile's terms. */
  function NewProperty(base: PropertyInvestment, cfg: StrategyConfig, id: nat, leverage: bool,
                       costBasis: real): (p: Property)
    requires MonthlyBondPayment(base).Ok? && EnginePaymentDefined(base)
    ensures p.id == id && p.costBasis == costBasis && p.monthsOwned == 0
    ensures p.purchasePrice == p.currentValue == base.acquisitionCosts.purchasePrice
    ensures p.loan == LoanFor(base, cfg, leverage) && p.financingLabel == LabelFor(cfg, leverage)
    ensures p.payment == EnginePayment(base, p.loan)
    ensures p.annualRent == AnnualRentalIncome(base.operating)
    ensures p.annualExpenses == EngineAnnualExpenses(base.operating)
    ensures p.monthlyCashflow == BaseMonthlyCashflow(base)
  {
    var loan := LoanFor(base, cfg, leverage);
    Property(id, base.acquisitionCosts.purchasePrice, base.acquisitionCosts.purchasePrice, loan,
             EnginePayment(base, loan), LabelFor(cfg, leverage), 0,
             AnnualRentalIncome(base.operating), EngineAnnualExpenses(base.operating),
             BaseMonthlyCashflow(base), costBasis)
  }

  function PurchaseOf(p: Property, cashRequired: real): Purchase {
    Purchase(p.id, p.purchasePrice, cashRequired, p.financingLabel, p.loan)
  }

  /** The outcome of `_initialize_portfolio` with the period-0 purchase
      event, and the reason the run ends at once when the first property is
      unaffordable. */
  datatype Start = Start(portfolio: Portfolio, purchases: seq<Purchase>, failure: Option<EndReason>)

  /** `_initialize_portfolio`: buy the first property when the available
      amount covers it; otherwise start with nothing and end the run. */
  function Initialize(base: PropertyInvestment, cfg: StrategyConfig): (s: Start)
    requires MonthlyBondPayment(base).Ok? && EnginePaymentDefined(base)
    ensures var available := base.strategy.availableInvestmentAmount;
            s.failure.Some? <==> available < FirstCashRequired(base, cfg)
    ensures s.failure.Some? ==>
      && s.portfolio == Portfolio([], base.strategy.availableInvestmentAmount, 0, 0.0)
      && s.purchases == []
      && s.failure.value == FirstPropertyUnaffordable(FirstCashRequired(base, cfg),
                                                      base.strategy.availableInvestmentAmount)
    ensures s.failure.None? ==>
      && |s.portfolio.properties| == 1 && s.portfolio.counter == 1 && s.portfolio.injected == 0.0
      && s.portfolio.cash + FirstCashRequired(base, cfg) == base.strategy.availableInvestmentAmount
      && s.portfolio.cash >= 0.0
      && s.portfolio.properties[0].id == 0
      && s.portfolio.properties[0].costBasis == FirstCashRequired(base, cfg)
      && s.portfolio.properties[0].financingLabel == LabelFor(cfg, FirstIsLeveraged(cfg))
      && s.portfolio.properties == [NewProperty(base, cfg, 0, FirstIsLeveraged(cfg), FirstCashRequired(base, cfg))]
      && s.purchases == [PurchaseOf(s.portfolio.properties[0], FirstCashRequired(base, cfg))]
  {
    var needed := FirstCashRequired(base, cfg);
    var available := base.strategy.availableInvestmentAmount;
    if available < needed then
      Start(Portfolio([], available, 0, 0.0), [], Some(FirstPropertyUnaffordable(needed, available)))
    else
      var first := NewProperty(base, cfg, 0, FirstIsLeveraged(cfg), needed);
      Start(Portfolio([first], available - needed, 1, 0.0), [PurchaseOf(first, needed)], None)
  }
}
