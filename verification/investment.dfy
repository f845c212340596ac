/** The investment profile of back/core/main.py: acquisition costs, financing
    and operating parameters, the validation done at construction, and the
    derived figures (cash needed up front, the bond payment, the base monthly
    cash flow). */
module Investment {
  import opened Wrappers
  import opened Numerics
  import opened Amortization

  datatype FinancingType = Cash | Leveraged

  datatype RefineFrequency = Never | Annually | BiAnnually | QuarterlyRefinance

  datatype AcquisitionCosts = AcquisitionCosts(
    purchasePrice: real,
    transferDuty: real,
    conveyancingFees: real,
    bondRegistration: real,        // 0 for cash purchases
    furnishingCost: Option<real>)

  function TotalUnfurnishedCost(c: AcquisitionCosts): (r: real)
    ensures r - c.purchasePrice == c.transferDuty + c.conveyancingFees + c.bondRegistration
  {
    c.purchasePrice + c.transferDuty + c.conveyancingFees + c.bondRegistration
  }

  /** The furnished total exceeds the unfurnished one by exactly the
      furnishing cost, which counts as 0 when absent. */
  function TotalFurnishedCost(c: AcquisitionCosts): (r: real)
    ensures r - TotalUnfurnishedCost(c) == OrZero(c.furnishingCost)
    ensures c.furnishingCost.None? ==> r == TotalUnfurnishedCost(c)
  {
    TotalUnfurnishedCost(c) + OrZero(c.furnishingCost)
  }

  datatype FinancingParameters = FinancingParameters(
    ltvRatio: real,
    financingType: FinancingType,
    appreciationRate: real,        // annual
    interestRate: Option<real>,    // annual, leveraged purchases only
    loanTermYears: Option<nat>)

  datatype OperatingParameters = OperatingParameters(
    monthlyRentalIncome: real,
    vacancyRate: real,
    monthlyLevies: real,
    managementFeeRate: real,
    monthlyInsurance: real,
    monthlyMaintenanceReserve: real,
    monthlyFurnishingRepairCosts: Option<real>)

  /** Rent net of vacancy: the vacant share of the gross rent is lost. */
  function EffectiveMonthlyRental(o: OperatingParameters): (r: real)
    ensures o.monthlyRentalIncome - r == o.monthlyRentalIncome * o.vacancyRate
  {
    o.monthlyRentalIncome * (1.0 - o.vacancyRate)
  }

  /** The management fee is charged on the vacancy-adjusted rent: the fee on
      the gross rent less the fee on its vacant share, so never more than
      the fee on the gross rent when the rates are proper fractions. */
  function MonthlyManagementFee(o: OperatingParameters): (r: real)
    ensures r + o.monthlyRentalIncome * o.vacancyRate * o.managementFeeRate
         == o.monthlyRentalIncome * o.managementFeeRate
    ensures o.vacancyRate == 0.0 ==> r == o.monthlyRentalIncome * o.managementFeeRate
    ensures o.monthlyRentalIncome >= 0.0 && 0.0 <= o.vacancyRate <= 1.0 && o.managementFeeRate >= 0.0
            ==> 0.0 <= r <= o.monthlyRentalIncome * o.managementFeeRate
  {
    FeeOnShare(o.monthlyRentalIncome, 1.0 - o.vacancyRate, o.managementFeeRate);
    EffectiveMonthlyRental(o) * o.managementFeeRate
  }

  /** A fee on a share of the rent lies between zero and the fee on all of it. */
  lemma FeeOnShare(rent: real, share: real, rate: real)
    ensures rent >= 0.0 && 0.0 <= share <= 1.0 && rate >= 0.0 ==>
      0.0 <= rent * share * rate <= rent * rate
  {
    if rent >= 0.0 && 0.0 <= share <= 1.0 && rate >= 0.0 {
      var a := rent * share;
      assert 0.0 <= a <= rent;
      assert (rent - a) * rate >= 0.0;
    }
  }

  function TotalMonthlyExpenses(o: OperatingParameters): (r: real)
    ensures r - MonthlyManagementFee(o) - OrZero(o.monthlyFurnishingRepairCosts)
         == o.monthlyLevies + o.monthlyInsurance + o.monthlyMaintenanceReserve
  {
    o.monthlyLevies + MonthlyManagementFee(o) + o.monthlyInsurance
      + o.monthlyMaintenanceReserve + OrZero(o.monthlyFurnishingRepairCosts)
  }

  /** Annual rent before vacancy. */
  function AnnualRentalIncome(o: OperatingParameters): (r: real)
    ensures r / 12.0 == o.monthlyRentalIncome
  {
    o.monthlyRentalIncome * 12.0
  }

  datatype InvestmentStrategy = InvestmentStrategy(
    availableInvestmentAmount: real,
    reinvestCashflow: bool,
    enableRefinancing: bool,
    refinanceFrequency: RefineFrequency,
    targetRefinanceLtv: Option<real>)

  datatype PropertyInvestment = PropertyInvestment(
    acquisitionCosts: AcquisitionCosts,
    financing: FinancingParameters,
    operating: OperatingParameters,
    strategy: InvestmentStrategy)

  /** The ValueErrors raised by `__post_init__`. */
  datatype ConfigError = MissingInterestRate | ZeroBondRegistration | MissingRefinanceLtv

  /** A profile is well formed when none of the three rejected cases holds. */
  predicate WellFormed(inv: PropertyInvestment) {
    && (inv.financing.financingType == Leveraged ==> inv.financing.interestRate.Some?)
    && (inv.financing.financingType == Leveraged ==> inv.acquisitionCosts.bondRegistration != 0.0)
    && (inv.strategy.enableRefinancing ==> inv.strategy.targetRefinanceLtv.Some?)
  }

  /** Construction with validation; the checks run in the source's order, so
      the first failing one names the error. */
  function NewPropertyInvestment(c: AcquisitionCosts, f: FinancingParameters,
                                 o: OperatingParameters, s: InvestmentStrategy)
    : (r: Result<PropertyInvestment, ConfigError>)
    ensures r.Ok? <==> WellFormed(PropertyInvestment(c, f, o, s))
    ensures r.Ok? ==> r.value == PropertyInvestment(c, f, o, s)
    ensures r == Err(MissingInterestRate) <==> f.financingType == Leveraged && f.interestRate.None?
    ensures r == Err(ZeroBondRegistration) <==>
      f.financingType == Leveraged && f.interestRate.Some? && c.bondRegistration == 0.0
    ensures r == Err(MissingRefinanceLtv) <==>
      !(f.financingType == Leveraged && (f.interestRate.None? || c.bondRegistration == 0.0))
      && s.enableRefinancing && s.targetRefinanceLtv.None?
  {
    if f.financingType == Leveraged && f.interestRate.None? then Err(MissingInterestRate)
    else if f.financingType == Leveraged && c.bondRegistration == 0.0 then Err(ZeroBondRegistration)
    else if s.enableRefinancing && s.targetRefinanceLtv.None? then Err(MissingRefinanceLtv)
    else Ok(PropertyInvestment(c, f, o, s))
  }

  function LoanAmount(inv: PropertyInvestment): real {
    inv.acquisitionCosts.purchasePrice * inv.financing.ltvRatio
  }

  /** Cash needed up front: the whole furnished cost for a cash purchase; for
      a leveraged one the loan covers part of the price, so own cash plus the
      loan is exactly the furnished cost. */
  function InitialCashRequired(inv: PropertyInvestment): (r: real)
    ensures inv.financing.financingType == Cash ==> r == TotalFurnishedCost(inv.acquisitionCosts)
    ensures inv.financing.financingType == Leveraged ==>
      r + LoanAmount(inv) == TotalFurnishedCost(inv.acquisitionCosts)
  {
    if inv.financing.financingType == Cash then TotalFurnishedCost(inv.acquisitionCosts)
    else TotalFurnishedCost(inv.acquisitionCosts) - LoanAmount(inv)
  }

  /** The monthly bond payment: absent for a cash purchase, an error when the
      rate or term is missing or the formula divides by zero, else the
      payment that pays the loan off over the term. */
  function MonthlyBondPayment(inv: PropertyInvestment): (r: Result<Option<real>, PaymentError>)
    ensures inv.financing.financingType == Cash ==> r == Ok(None)
    ensures inv.financing.financingType == Leveraged
            && (inv.financing.interestRate.None? || inv.financing.loanTermYears.None?)
            ==> r == Err(MissingRateOrTerm)
    ensures r.Ok? && r.value.Some? ==>
      Balance(LoanAmount(inv), inv.financing.interestRate.value / 12.0, r.value.value,
              inv.financing.loanTermYears.value * 12) == 0.0
    ensures inv.financing.financingType == Leveraged && inv.financing.interestRate == Some(0.0)
            && inv.financing.loanTermYears.Some? && inv.financing.loanTermYears.value > 0
            ==> r.Ok? && r.value.Some?
                && r.value.value * (12 * inv.financing.loanTermYears.value) as real == LoanAmount(inv)
    ensures inv.financing.financingType == Leveraged && r.Ok? ==> r.value.Some?
    ensures inv.financing.financingType == Leveraged
            && inv.financing.interestRate.Some? && inv.financing.interestRate.value != 0.0
            && inv.financing.loanTermYears.Some?
            ==> (r.Ok? <==> Pow(1.0 + inv.financing.interestRate.value / 12.0,
                                inv.financing.loanTermYears.value * 12) != 1.0)
    ensures inv.financing.interestRate.Some? && inv.financing.loanTermYears.Some? && r.Err?
            ==> r.error == DivisionByZero
  {
    if inv.financing.financingType == Cash then Ok(None)
    else if inv.financing.interestRate.None? || inv.financing.loanTermYears.None? then
      Err(MissingRateOrTerm)
    else
      var rate := inv.financing.interestRate.value / 12.0;
      var n := inv.financing.loanTermYears.value * 12;
      match Annuity(LoanAmount(inv), rate, n)
      case Ok(p) =>
        AnnuityRepaysLoan(LoanAmount(inv), rate, n);
        Ok(Some(p))
      case Err(e) => Err(e)
  }

  /** `self.monthly_bond_payment or 0`. */
  function PaymentOrZero(p: Option<real>): real {
    if p.Some? then p.value else 0.0
  }

  /** Effective rent less expenses, less the bond payment when there is one
      (a `None` or zero payment subtracts nothing). Fails when the payment
      does. */
  function MonthlyCashflow(inv: PropertyInvestment): (r: Result<real, PaymentError>)
    ensures r.Ok? <==> MonthlyBondPayment(inv).Ok?
    ensures r.Ok? ==> r.value + PaymentOrZero(MonthlyBondPayment(inv).value)
                      == EffectiveMonthlyRental(inv.operating) - TotalMonthlyExpenses(inv.operating)
    ensures inv.financing.financingType == Cash ==>
      r == Ok(EffectiveMonthlyRental(inv.operating) - TotalMonthlyExpenses(inv.operating))
  {
    match MonthlyBondPayment(inv)
    case Err(e) => Err(e)
    case Ok(payment) =>
      var cashflow := EffectiveMonthlyRental(inv.operating) - TotalMonthlyExpenses(inv.operating);
      if payment.Some? && payment.value != 0.0 then Ok(cashflow - payment.value) else Ok(cashflow)
  }
}
