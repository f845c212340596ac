/** Strategy configuration of the always-monthly engine in
    back/core/strategies.py: the closed enumerations, the capital injection
    rule, the strategy record and its three factories. */
module Config {
  import opened Wrappers

  datatype StrategyKind = CashOnly | LeveragedOnly | Mixed

  datatype Tracking = MonthlyTracking | YearlyTracking

  datatype FirstPropertyType = FirstCash | FirstLeveraged

  /** `AdditionalCapitalFrequency`; also the `source` of an injection event. */
  datatype Cadence = Monthly | Quarterly | Yearly | FiveYearly | OneTime

  /** `AdditionalCapitalInjection`: `end` of `None` or 0 is unbounded, and
      `periods` of `None` or `[]` means "at `start`". */
  datatype InjectionRule = InjectionRule(
    amount: real,
    cadence: Cadence,
    start: int,
    end: Option<int>,
    periods: Option<seq<int>>)

  /** `StrategyConfig`; an absent injection list is the empty sequence. */
  datatype StrategyConfig = StrategyConfig(
    kind: StrategyKind,
    simulationMonths: int,
    leverageRatio: real,
    cashRatio: real,
    leveragedPropertyRatio: real,
    cashPropertyRatio: real,
    firstPropertyType: FirstPropertyType,
    enableRefinancing: bool,
    refinanceFrequencyYears: real,
    enableReinvestment: bool,
    tracking: Tracking,
    injections: seq<InjectionRule>)

  /** `create_cash_strategy`: never leverages, never refinances. */
  function CashStrategy(months: int, reinvestment: bool, tracking: Tracking,
                        injections: seq<InjectionRule>): (c: StrategyConfig)
    ensures c.kind == CashOnly && c.simulationMonths == months
    ensures c.leverageRatio == 0.0 && c.cashPropertyRatio == 1.0 && c.leveragedPropertyRatio == 0.0
    ensures !c.enableRefinancing && c.enableReinvestment == reinvestment
    ensures c.tracking == tracking && c.injections == injections
  {
    StrategyConfig(CashOnly, months, 0.0, 1.0, 0.0, 1.0, FirstCash, false, 1.0,
                   reinvestment, tracking, injections)
  }

  /** `create_leveraged_strategy`: every property leveraged at `leverageRatio`. */
  function LeveragedStrategy(months: int, leverageRatio: real, refinancing: bool,
                             refinanceYears: real, reinvestment: bool, tracking: Tracking,
                             injections: seq<InjectionRule>): (c: StrategyConfig)
    ensures c.kind == LeveragedOnly && c.firstPropertyType == FirstLeveraged
    ensures c.leverageRatio == leverageRatio && c.cashRatio + leverageRatio == 1.0
    ensures c.leveragedPropertyRatio == 1.0 && c.cashPropertyRatio == 0.0
    ensures c.enableRefinancing == refinancing && c.refinanceFrequencyYears == refinanceYears
    ensures c.enableReinvestment == reinvestment && c.tracking == tracking
    ensures c.simulationMonths == months && c.injections == injections
  {
    StrategyConfig(LeveragedOnly, months, leverageRatio, 1.0 - leverageRatio, 1.0, 0.0,
                   FirstLeveraged, refinancing, refinanceYears, reinvestment, tracking, injections)
  }

  datatype RatioError = RatiosDoNotSumToOne(total: real)

  /** `create_mixed_strategy`: the two property-count targets must add up to
      one, otherwise construction fails. */
  function MixedStrategy(months: int, leveragedPropertyRatio: real, cashPropertyRatio: real,
                         leverageRatio: real, first: FirstPropertyType, refinancing: bool,
                         refinanceYears: real, reinvestment: bool, tracking: Tracking,
                         injections: seq<InjectionRule>): (r: Result<StrategyConfig, RatioError>)
    ensures r.Ok? <==> leveragedPropertyRatio + cashPropertyRatio == 1.0
    ensures r.Err? ==> r.error.total == leveragedPropertyRatio + cashPropertyRatio
    ensures r.Ok? ==> r.value.kind == Mixed && r.value.firstPropertyType == first
    ensures r.Ok? ==> r.value.leveragedPropertyRatio == leveragedPropertyRatio
    ensures r.Ok? ==> r.value.leveragedPropertyRatio + r.value.cashPropertyRatio == 1.0
    ensures r.Ok? ==> r.value.leverageRatio == leverageRatio && r.value.cashRatio + leverageRatio == 1.0
    ensures r.Ok? ==> r.value.enableRefinancing == refinancing
    ensures r.Ok? ==> r.value.refinanceFrequencyYears == refinanceYears
    ensures r.Ok? ==> r.value.enableReinvestment == reinvestment && r.value.tracking == tracking
    ensures r.Ok? ==> r.value.simulationMonths == months && r.value.injections == injections
  {
    if leveragedPropertyRatio + cashPropertyRatio != 1.0 then
      Err(RatiosDoNotSumToOne(leveragedPropertyRatio + cashPropertyRatio))
    else
      Ok(StrategyConfig(Mixed, months, leverageRatio, 1.0 - leverageRatio, leveragedPropertyRatio,
                        cashPropertyRatio, first, refinancing, refinanceYears, reinvestment,
                        tracking, injections))
  }
}
