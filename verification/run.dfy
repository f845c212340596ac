/** The month-by-month run of the always-monthly engine in
    back/core/strategies.py: the snapshot of each month, one month's step,
    the whole run, and what holds of every run. */
module Run {
  import opened Wrappers
  import opened Numerics
  import opened Sums
  import opened Investment
  import opened Labels
  import opened Config
  import opened Injections
  import opened Engine
  import opened Operations
  import opened Yields

  /** `SimulationSnapshot`. Monthly snapshots carry no portfolio yields. */
  datatype Snapshot = Snapshot(
    period: int,
    properties: seq<Property>,
    totalValue: real,
    totalDebt: real,
    totalEquity: real,
    cash: real,
    monthlyCashflow: real,
    annualCashflow: real,
    totalCashInvested: real,
    injected: real,
    refinancings: seq<RefinancingEvent>,
    purchases: seq<Purchase>,
    injections: seq<InjectionEvent>,
    propertyYields: seq<PropertyYields>,
    portfolioYields: Option<PortfolioYields>,
    ended: bool,
    endReason: Option<EndReason>)

  /** The periods per year handed to the yield routines. */
  function PeriodsPerYear(t: Tracking): int {
    if t == YearlyTracking then 1 else 12
  }

  // ---------------------------------------------------------------------
  // Ledger invariant

  /** Property i has id i and is a property the engine buys. */
  predicate LedgerOK(base: PropertyInvestment, cfg: StrategyConfig, props: seq<Property>) {
    forall i :: 0 <= i < |props| ==> props[i].id == i && Fresh(base, cfg, props[i])
  }

  /** The ledger invariant, and the next id is the number of properties. */
  predicate Consistent(base: PropertyInvestment, cfg: StrategyConfig, pf: Portfolio) {
    pf.counter == |pf.properties| && LedgerOK(base, cfg, pf.properties)
  }

  /** Every label the engine writes can be read back by the yield code. */
  lemma FreshParses(base: PropertyInvestment, cfg: StrategyConfig, props: seq<Property>)
    requires LedgerOK(base, cfg, props)
    ensures forall i :: 0 <= i < |props| ==> LabelParses(props[i])
  {
    DecodeEncode(cfg.leverageRatio);
  }

  // ---------------------------------------------------------------------
  // Yields and snapshots

  /** `_calculate_annual_yields`: under yearly tracking (one period a year)
      every property's yields; under monthly tracking nothing, in every
      month, since both of its branches return the empty list. */
  function AnnualYields(props: seq<Property>, period: int, periodsPerYear: int,
                        rpow: (real, real) -> real): seq<PropertyYields>
    requires forall i :: 0 <= i < |props| ==> LabelParses(props[i])
  {
    if periodsPerYear == 12 && period % 12 != 0 then []
    else if periodsPerYear == 1 then
      seq(|props|, i requires 0 <= i < |props| => PropertyYieldsOf(props[i], rpow))
    else []
  }

  /** Yields are produced exactly when there is one period a year and a
      property to report on, one entry per property in ledger order. */
  lemma AnnualYieldsOnlyYearly(props: seq<Property>, period: int, periodsPerYear: int,
                               rpow: (real, real) -> real)
    requires forall i :: 0 <= i < |props| ==> LabelParses(props[i])
    ensures AnnualYields(props, period, periodsPerYear, rpow) != [] <==> periodsPerYear == 1 && |props| > 0
    ensures periodsPerYear == 1 ==>
      && |AnnualYields(props, period, periodsPerYear, rpow)| == |props|
      && forall i :: 0 <= i < |props| ==>
           AnnualYields(props, period, periodsPerYear, rpow)[i].propertyId == props[i].id
  {
    if periodsPerYear == 1 && |props| > 0 {
      assert AnnualYields(props, period, periodsPerYear, rpow)[0] == PropertyYieldsOf(props[0], rpow);
    }
  }

  /** The snapshot's per-property yields are those of its ledger, one per
      property in ledger order. */
  predicate ReportsLedgerYields(s: Snapshot, rpow: (real, real) -> real) {
    && (forall i :: 0 <= i < |s.properties| ==> LabelParses(s.properties[i]))
    && |s.propertyYields| == |s.properties|
    && forall i :: 0 <= i < |s.properties| ==> s.propertyYields[i] == PropertyYieldsOf(s.properties[i], rpow)
  }

  /** `_create_detailed_snapshot`: the totals of the ledger, the events of
      the month, and the yields (portfolio yields only under yearly
      tracking). */
  function MakeSnapshot(base: PropertyInvestment, cfg: StrategyConfig, pf: Portfolio, period: int,
                        refinancings: seq<RefinancingEvent>, purchases: seq<Purchase>,
                        injections: seq<InjectionEvent>, ended: bool, endReason: Option<EndReason>,
                        rpow: (real, real) -> real): (s: Snapshot)
    requires MonthlyBondPayment(base).Ok?
    requires forall i :: 0 <= i < |pf.properties| ==> LabelParses(pf.properties[i])
    ensures s.period == period && s.properties == pf.properties
    ensures s.cash == pf.cash && s.injected == pf.injected
    ensures s.refinancings == refinancings && s.purchases == purchases && s.injections == injections
    ensures s.ended == ended && s.endReason == endReason
    ensures s.totalValue == TotalValue(pf.properties) && s.totalDebt == TotalDebt(pf.properties)
    ensures s.totalEquity + s.totalDebt == s.totalValue
    ensures s.annualCashflow == 12.0 * s.monthlyCashflow && s.monthlyCashflow == TotalCashflow(pf.properties)
    ensures s.totalCashInvested == TotalCashInvested(pf.properties)
    ensures cfg.tracking == MonthlyTracking ==> s.propertyYields == [] && s.portfolioYields.None?
    ensures cfg.tracking == YearlyTracking ==>
      && ReportsLedgerYields(s, rpow)
      && s.portfolioYields == Some(PortfolioYieldsOf(base, pf.properties, period, rpow))
  {
    var props := pf.properties;
    var ppy := PeriodsPerYear(cfg.tracking);
    var perProperty := AnnualYields(props, period, ppy, rpow);
    AnnualYieldsOnlyYearly(props, period, ppy, rpow);
    var portfolioYields := PortfolioYieldsOf(base, props, period, rpow);
    var value := TotalValue(props);
    var debt := TotalDebt(props);
    var monthly := TotalCashflow(props);
    Snapshot(period, props, value, debt, value - debt, pf.cash, monthly, monthly * 12.0,
             TotalCashInvested(props), pf.injected, refinancings, purchases, injections, perProperty,
             if cfg.tracking == YearlyTracking then Some(portfolioYields) else None,
             ended, endReason)
  }

  // ---------------------------------------------------------------------
  // One month

  datatype Refinancing = Refinancing(portfolio: Portfolio, events: seq<RefinancingEvent>)

  /** `_apply_refinancing` on the whole portfolio: the ledger is refinanced
      and the cash rises by what was extracted. */
  function ApplyRefinancing(base: PropertyInvestment, pf: Portfolio): (r: Refinancing)
    requires EnginePaymentDefined(base)
    ensures r.portfolio.counter == pf.counter && r.portfolio.injected == pf.injected
    ensures |r.portfolio.properties| == |pf.properties|
    ensures r.portfolio.cash - pf.cash == SumBy(r.events, ExtractedOf)
  {
    var target := TargetLtv(base);
    var events := RefinanceEvents(pf.properties, target);
    Refinancing(Portfolio(RefinanceLedger(base, pf.properties, target), pf.cash + SumBy(events, ExtractedOf),
                          pf.counter, pf.injected),
                events)
  }

  /** Refinancing leaves cash less debt where it was. */
  lemma RefinancingKeepsNetCash(base: PropertyInvestment, pf: Portfolio)
    requires EnginePaymentDefined(base)
    ensures var r := ApplyRefinancing(base, pf).portfolio;
            r.cash - TotalDebt(r.properties) == pf.cash - TotalDebt(pf.properties)
  {
    RefinanceConservesNetPosition(base, pf.properties, TargetLtv(base));
  }

  /** Refinancing keeps the ledger invariant: only loans and payments of
      leveraged properties change. */
  lemma RefinancingKeepsLedger(base: PropertyInvestment, cfg: StrategyConfig, pf: Portfolio)
    requires EnginePaymentDefined(base) && Consistent(base, cfg, pf)
    ensures Consistent(base, cfg, ApplyRefinancing(base, pf).portfolio)
  {
    var target := TargetLtv(base);
    var props := RefinanceLedger(base, pf.properties, target);
    forall i | 0 <= i < |props| ensures props[i].id == i && Fresh(base, cfg, props[i]) {
      assert Fresh(base, cfg, pf.properties[i]);
    }
  }

  /** The portfolio before injections: aged, appreciated and operated. */
  function Operated(base: PropertyInvestment, pf: Portfolio): Portfolio {
    MonthlyOperations(base, pf.(properties := Appreciate(pf.properties, MonthlyFactor(base))))
  }

  lemma OperatedKeepsLedger(base: PropertyInvestment, cfg: StrategyConfig, pf: Portfolio)
    requires Consistent(base, cfg, pf)
    ensures Consistent(base, cfg, Operated(base, pf))
  {
    var grown := Appreciate(pf.properties, MonthlyFactor(base));
    var props := Operated(base, pf).properties;
    forall i | 0 <= i < |props| ensures props[i].id == i && Fresh(base, cfg, props[i]) {
      assert Fresh(base, cfg, pf.properties[i]);
      assert grown[i].financingLabel == pf.properties[i].financingLabel;
      assert grown[i].loan == pf.properties[i].loan;
    }
  }

  /** Injections of the month applied to the operated portfolio. */
  function Injected(cfg: StrategyConfig, pf: Portfolio, month: int): (r: Portfolio)
    ensures r.properties == pf.properties && r.counter == pf.counter
  {
    var inj := ApplyInjections(cfg.injections, month, pf.cash, pf.injected);
    pf.(cash := inj.cash, injected := inj.injected)
  }

  /** What one month leaves behind: the portfolio and its snapshot. */
  datatype Month = Month(portfolio: Portfolio, snapshot: Snapshot)

  /** One iteration of `_run_monthly_simulation`: appreciate, operate, add
      the injections, test the operating deficit, then refinance on the
      cadence and reinvest, both only while the run goes on, and record the
      snapshot. A deficit the cash cannot cover ends the run, and its month
      is still recorded. */
  function Step(base: PropertyInvestment, cfg: StrategyConfig, pf: Portfolio, month: int,
                rpow: (real, real) -> real): (m: Month)
    requires Ready(base, cfg) && Consistent(base, cfg, pf)
    ensures m.snapshot.period == month && m.snapshot.properties == m.portfolio.properties
    ensures m.snapshot.cash == m.portfolio.cash && m.snapshot.injected == m.portfolio.injected
    ensures m.snapshot.ended ==> m.snapshot.refinancings == [] && m.snapshot.purchases == []
    ensures m.snapshot.ended <==> m.snapshot.endReason.Some?
    ensures m.snapshot.ended ==>
      && m.snapshot.endReason.value.OperatingDeficit?
      && m.snapshot.endReason.value.deficit > 0.0
      && m.snapshot.endReason.value.available < m.snapshot.endReason.value.deficit
  {
    var operated := Operated(base, pf);
    OperatedKeepsLedger(base, cfg, pf);
    var injected := Injected(cfg, operated, month);
    var inj := ApplyInjections(cfg.injections, month, operated.cash, operated.injected);
    var ends := DeficitEndsRun(injected.properties, injected.cash);
    var refi := if cfg.enableRefinancing && !ends && ShouldRefinance(cfg, month)
                then ApplyRefinancing(base, injected)
                else Refinancing(injected, []);
    RefinancingKeepsLedger(base, cfg, injected);
    var bought := if cfg.enableReinvestment && !ends
                  then Reinvest(base, cfg, refi.portfolio)
                  else ReinvestOutcome(refi.portfolio, []);
    ReinvestKeepsLedger(base, cfg, refi.portfolio);
    FreshParses(base, cfg, bought.portfolio.properties);
    var reason := if ends then Some(OperatingDeficit(Deficit(injected.properties), injected.cash)) else None;
    Month(bought.portfolio,
          MakeSnapshot(base, cfg, bought.portfolio, month, refi.events, bought.purchases, inj.events,
                       ends, reason, rpow))
  }

  /** Reinvestment keeps the ledger invariant. */
  lemma ReinvestKeepsLedger(base: PropertyInvestment, cfg: StrategyConfig, pf: Portfolio)
    requires Consistent(base, cfg, pf)
    ensures Reinvests(base, cfg) ==> Consistent(base, cfg, Reinvest(base, cfg, pf).portfolio)
  {
    if Reinvests(base, cfg) {
      var r := Reinvest(base, cfg, pf);
      ReinvestBuysFresh(base, cfg, pf);
      var n := |pf.properties|;
      forall i | 0 <= i < |r.portfolio.properties|
        ensures r.portfolio.properties[i].id == i && Fresh(base, cfg, r.portfolio.properties[i])
      {
        if i < n {
          assert r.portfolio.properties[i] == r.portfolio.properties[..n][i];
        } else {
          assert PurchaseIsFresh(base, cfg, pf, r, i - n);
        }
      }
    }
  }

  /** One month keeps the ledger invariant, adds the month's injections to
      the cumulative counter, and grows the ledger by the month's
      purchases. */
  lemma StepFacts(base: PropertyInvestment, cfg: StrategyConfig, pf: Portfolio, month: int,
                  rpow: (real, real) -> real)
    requires Ready(base, cfg) && Consistent(base, cfg, pf)
    ensures var m := Step(base, cfg, pf, month, rpow);
      && Consistent(base, cfg, m.portfolio)
      && m.portfolio.injected == pf.injected + FiredTotal(cfg.injections, month)
      && |m.portfolio.properties| == |pf.properties| + |m.snapshot.purchases|
  {
    var operated := Operated(base, pf);
    OperatedKeepsLedger(base, cfg, pf);
    InjectionAccounting(cfg.injections, month, operated.cash, operated.injected);
    var injected := Injected(cfg, operated, month);
    RefinancingKeepsLedger(base, cfg, injected);
    var ends := DeficitEndsRun(injected.properties, injected.cash);
    var refi := if cfg.enableRefinancing && !ends && ShouldRefinance(cfg, month)
                then ApplyRefinancing(base, injected)
                else Refinancing(injected, []);
    ReinvestKeepsLedger(base, cfg, refi.portfolio);
  }

  /** Where one month's cash goes: the operated cash flows, the injections
      and the refinancing extractions come in, the purchases go out. */
  lemma StepCash(base: PropertyInvestment, cfg: StrategyConfig, pf: Portfolio, month: int,
                 rpow: (real, real) -> real)
    requires Ready(base, cfg) && Consistent(base, cfg, pf)
    ensures var m := Step(base, cfg, pf, month, rpow);
      m.portfolio.cash == pf.cash + TotalCashflow(Operated(base, pf).properties)
                          + FiredTotal(cfg.injections, month)
                          + SumBy(m.snapshot.refinancings, ExtractedOf)
                          - SumBy(m.snapshot.purchases, CashRequiredOf)
  {
    var operated := Operated(base, pf);
    OperatedKeepsLedger(base, cfg, pf);
    InjectionAccounting(cfg.injections, month, operated.cash, operated.injected);
  }

  /** A month ends the run exactly when, after the injections, there is an
      operating deficit the cash cannot cover; the ended month records no
      refinancing and no purchase. */
  lemma StepEndsOnDeficit(base: PropertyInvestment, cfg: StrategyConfig, pf: Portfolio, month: int,
                          rpow: (real, real) -> real)
    requires Ready(base, cfg) && Consistent(base, cfg, pf)
    ensures var after := Injected(cfg, Operated(base, pf), month);
            var m := Step(base, cfg, pf, month, rpow);
            && (m.snapshot.ended <==> Deficit(after.properties) > 0.0 && after.cash < Deficit(after.properties))
            && (m.snapshot.ended ==> m.snapshot.refinancings == [] && m.snapshot.purchases == [])
  {
    OperatedKeepsLedger(base, cfg, pf);
  }

  // ---------------------------------------------------------------------
  // The run

  /** How many months remain from `month` through the last month. */
  function MonthsLeft(cfg: StrategyConfig, month: int): nat {
    if month <= cfg.simulationMonths then cfg.simulationMonths - month + 1 else 0
  }

  /** The months from `month` on, stopping after the month that ends the
      run. */
  function RunFrom(base: PropertyInvestment, cfg: StrategyConfig, pf: Portfolio, month: int,
                   rpow: (real, real) -> real): (r: seq<Snapshot>)
    requires Ready(base, cfg) && Consistent(base, cfg, pf)
    decreases MonthsLeft(cfg, month)
  {
    if month > cfg.simulationMonths then []
    else
      var m := Step(base, cfg, pf, month, rpow);
      StepFacts(base, cfg, pf, month, rpow);
      if m.snapshot.ended then [m.snapshot]
      else [m.snapshot] + RunFrom(base, cfg, m.portfolio, month + 1, rpow)
  }

  /** One unfolding of the loop: nothing past the last month; otherwise the
      month's snapshot, followed by the rest of the run unless it ended the
      run. */
  lemma RunFromUnfold(base: PropertyInvestment, cfg: StrategyConfig, pf: Portfolio, month: int,
                      rpow: (real, real) -> real)
    requires Ready(base, cfg) && Consistent(base, cfg, pf)
    ensures month > cfg.simulationMonths ==> RunFrom(base, cfg, pf, month, rpow) == []
    ensures month <= cfg.simulationMonths ==>
      var m := Step(base, cfg, pf, month, rpow);
      && Consistent(base, cfg, m.portfolio)
      && RunFrom(base, cfg, pf, month, rpow)
         == if m.snapshot.ended then [m.snapshot] else [m.snapshot] + RunFrom(base, cfg, m.portfolio, month + 1, rpow)
  {
    if month <= cfg.simulationMonths {
      StepFacts(base, cfg, pf, month, rpow);
    }
  }

  /** `simulate`: the period-0 snapshot after buying the first property,
      then the months of the run; if the first property is unaffordable the
      period-0 snapshot is flagged and is the whole run. */
  function Simulate(base: PropertyInvestment, cfg: StrategyConfig, rpow: (real, real) -> real)
    : (r: seq<Snapshot>)
    requires Ready(base, cfg)
    ensures |r| >= 1 && r[0].period == 0
  {
    var s := Initialize(base, cfg);
    InitializeConsistent(base, cfg);
    FreshParses(base, cfg, s.portfolio.properties);
    var first := MakeSnapshot(base, cfg, s.portfolio, 0, [], s.purchases, [], s.failure.Some?, s.failure, rpow);
    if s.failure.Some? then [first] else [first] + RunFrom(base, cfg, s.portfolio, 1, rpow)
  }

  lemma InitializeConsistent(base: PropertyInvestment, cfg: StrategyConfig)
    requires MonthlyBondPayment(base).Ok? && EnginePaymentDefined(base)
    ensures Consistent(base, cfg, Initialize(base, cfg).portfolio)
  {
    EncodedIsNotCash(cfg.leverageRatio);
  }

  // ---------------------------------------------------------------------
  // What holds of every run

  /** What every recorded snapshot satisfies: the ledger invariant, the
      totals of its ledger, and yields only under yearly tracking. */
  predicate Recorded(base: PropertyInvestment, cfg: StrategyConfig, s: Snapshot, rpow: (real, real) -> real)
    requires MonthlyBondPayment(base).Ok?
  {
    && LedgerOK(base, cfg, s.properties)
    && s.totalValue == TotalValue(s.properties)
    && s.totalDebt == TotalDebt(s.properties)
    && s.totalEquity + s.totalDebt == s.totalValue
    && s.annualCashflow == 12.0 * s.monthlyCashflow
    && (cfg.tracking == MonthlyTracking ==> s.propertyYields == [] && s.portfolioYields.None?)
    && (cfg.tracking == YearlyTracking ==>
         && ReportsLedgerYields(s, rpow)
         && s.portfolioYields == Some(PortfolioYieldsOf(base, s.properties, s.period, rpow)))
    && (s.ended <==> s.endReason.Some?)
  }

  /** A month that ends the run does so for a deficit the cash cannot
      cover. */
  predicate EndsForDeficit(s: Snapshot) {
    s.ended ==>
      && s.endReason.Some?
      && s.endReason.value.OperatingDeficit?
      && s.endReason.value.deficit > 0.0
      && s.endReason.value.available < s.endReason.value.deficit
  }

  lemma StepRecorded(base: PropertyInvestment, cfg: StrategyConfig, pf: Portfolio, month: int,
                     rpow: (real, real) -> real)
    requires Ready(base, cfg) && Consistent(base, cfg, pf)
    ensures Recorded(base, cfg, Step(base, cfg, pf, month, rpow).snapshot, rpow)
    ensures EndsForDeficit(Step(base, cfg, pf, month, rpow).snapshot)
  {
    StepFacts(base, cfg, pf, month, rpow);
  }

  /** Consecutive periods from `month`. */
  predicate PeriodsFrom(r: seq<Snapshot>, month: int) {
    forall i :: 0 <= i < |r| ==> r[i].period == month + i
  }

  /** No snapshot before the last is flagged as ending the run. */
  predicate EndedOnlyLast(r: seq<Snapshot>) {
    forall i :: 0 <= i < |r| - 1 ==> !r[i].ended
  }

  predicate AllRecorded(base: PropertyInvestment, cfg: StrategyConfig, r: seq<Snapshot>, rpow: (real, real) -> real)
    requires MonthlyBondPayment(base).Ok?
  {
    forall i :: 0 <= i < |r| ==> Recorded(base, cfg, r[i], rpow)
  }

  predicate AllEndForDeficit(r: seq<Snapshot>) {
    forall i :: 0 <= i < |r| ==> EndsForDeficit(r[i])
  }

  lemma ShapeCons(s: Snapshot, rest: seq<Snapshot>, month: int)
    requires s.period == month && !s.ended
    requires PeriodsFrom(rest, month + 1) && EndedOnlyLast(rest)
    ensures PeriodsFrom([s] + rest, month) && EndedOnlyLast([s] + rest)
  {
    var r := [s] + rest;
    forall i | 1 <= i < |r| ensures r[i] == rest[i - 1] { }
  }

  lemma RecordedCons(base: PropertyInvestment, cfg: StrategyConfig, s: Snapshot, rest: seq<Snapshot>,
                     rpow: (real, real) -> real)
    requires MonthlyBondPayment(base).Ok?
    requires Recorded(base, cfg, s, rpow) && EndsForDeficit(s)
    requires AllRecorded(base, cfg, rest, rpow) && AllEndForDeficit(rest)
    ensures AllRecorded(base, cfg, [s] + rest, rpow) && AllEndForDeficit([s] + rest)
  {
    var r := [s] + rest;
    forall i | 1 <= i < |r| ensures r[i] == rest[i - 1] { }
  }

  /** The shape of the months from `month` on: consecutive periods, no
      more than the months left, no flagged month before the last, and a
      short run only when its last month is flagged. */
  predicate ShapeOK(cfg: StrategyConfig, r: seq<Snapshot>, month: int) {
    && |r| <= MonthsLeft(cfg, month)
    && PeriodsFrom(r, month) && EndedOnlyLast(r)
    && (|r| < MonthsLeft(cfg, month) ==> |r| > 0 && r[|r| - 1].ended)
  }

  lemma {:induction false} RunFromShape(base: PropertyInvestment, cfg: StrategyConfig, pf: Portfolio, month: int,
                                        rpow: (real, real) -> real)
    requires Ready(base, cfg) && Consistent(base, cfg, pf)
    ensures ShapeOK(cfg, RunFrom(base, cfg, pf, month, rpow), month)
    decreases MonthsLeft(cfg, month)
  {
    RunFromPast(base, cfg, pf, month, rpow);
    if month <= cfg.simulationMonths {
      var m := Step(base, cfg, pf, month, rpow);
      StepFacts(base, cfg, pf, month, rpow);
      if !m.snapshot.ended {
        RunFromShape(base, cfg, m.portfolio, month + 1, rpow);
      }
      ShapeStep(base, cfg, pf, month, rpow);
    }
  }

  /** The inductive step of `RunFromShape`. */
  lemma ShapeStep(base: PropertyInvestment, cfg: StrategyConfig, pf: Portfolio, month: int,
                  rpow: (real, real) -> real)
    requires Ready(base, cfg) && Consistent(base, cfg, pf) && month <= cfg.simulationMonths
    requires var m := Step(base, cfg, pf, month, rpow);
      && Consistent(base, cfg, m.portfolio)
      && (!m.snapshot.ended ==> ShapeOK(cfg, RunFrom(base, cfg, m.portfolio, month + 1, rpow), month + 1))
    ensures ShapeOK(cfg, RunFrom(base, cfg, pf, month, rpow), month)
  {
    var m := Step(base, cfg, pf, month, rpow);
    RunFromUnfold(base, cfg, pf, month, rpow);
    if !m.snapshot.ended {
      ShapeCons(m.snapshot, RunFrom(base, cfg, m.portfolio, month + 1, rpow), month);
    }
  }

  /** Every snapshot from `month` on is recorded, and any that ends the run
      ends it for an uncovered deficit. */
  lemma {:induction false} RunFromRecorded(base: PropertyInvestment, cfg: StrategyConfig, pf: Portfolio, month: int,
                                           rpow: (real, real) -> real)
    requires Ready(base, cfg) && Consistent(base, cfg, pf)
    ensures var r := RunFrom(base, cfg, pf, month, rpow);
      AllRecorded(base, cfg, r, rpow) && AllEndForDeficit(r)
    decreases MonthsLeft(cfg, month)
  {
    RunFromPast(base, cfg, pf, month, rpow);
    if month <= cfg.simulationMonths {
      var m := Step(base, cfg, pf, month, rpow);
      StepFacts(base, cfg, pf, month, rpow);
      if !m.snapshot.ended {
        RunFromRecorded(base, cfg, m.portfolio, month + 1, rpow);
      }
      RecordedStep(base, cfg, pf, month, rpow);
    }
  }

  /** The inductive step of `RunFromRecorded`. */
  lemma RecordedStep(base: PropertyInvestment, cfg: StrategyConfig, pf: Portfolio, month: int,
                     rpow: (real, real) -> real)
    requires Ready(base, cfg) && Consistent(base, cfg, pf) && month <= cfg.simulationMonths
    requires var m := Step(base, cfg, pf, month, rpow);
      && Consistent(base, cfg, m.portfolio)
      && (!m.snapshot.ended ==>
            var rest := RunFrom(base, cfg, m.portfolio, month + 1, rpow);
            AllRecorded(base, cfg, rest, rpow) && AllEndForDeficit(rest))
    ensures var r := RunFrom(base, cfg, pf, month, rpow);
      AllRecorded(base, cfg, r, rpow) && AllEndForDeficit(r)
  {
    var m := Step(base, cfg, pf, month, rpow);
    RunFromUnfold(base, cfg, pf, month, rpow);
    StepRecorded(base, cfg, pf, month, rpow);
    if !m.snapshot.ended {
      RecordedCons(base, cfg, m.snapshot, RunFrom(base, cfg, m.portfolio, month + 1, rpow), rpow);
    } else {
      RecordedCons(base, cfg, m.snapshot, [], rpow);
    }
  }

  /** The cumulative additional capital after `month` months: every
      injection that fired in months 1 through `month`. */
  function InjectedThrough(rules: seq<InjectionRule>, month: int): real
    decreases if month > 0 then month else 0
  {
    if month <= 0 then 0.0 else InjectedThrough(rules, month - 1) + FiredTotal(rules, month)
  }

  /** Each snapshot's cumulative injections are the previous snapshot's
      (or `prev` for the first) plus the injections of its own month. */
  predicate InjectionSteps(r: seq<Snapshot>, rules: seq<InjectionRule>, prev: real) {
    && (|r| > 0 ==> r[0].injected == prev + FiredTotal(rules, r[0].period))
    && forall i :: 0 < i < |r| ==> r[i].injected == r[i - 1].injected + FiredTotal(rules, r[i].period)
  }

  lemma InjectionStepsCons(s: Snapshot, rest: seq<Snapshot>, rules: seq<InjectionRule>, prev: real)
    requires s.injected == prev + FiredTotal(rules, s.period) && InjectionSteps(rest, rules, s.injected)
    ensures InjectionSteps([s] + rest, rules, prev)
  {
    var r := [s] + rest;
    assert r[0] == s;
    forall i | 0 < i < |r| ensures r[i].injected == r[i - 1].injected + FiredTotal(rules, r[i].period) {
      assert r[i] == rest[i - 1];
      if i > 1 {
        assert r[i - 1] == rest[i - 2];
      }
    }
  }

  /** Each month adds that month's injections to the running total. */
  lemma {:induction false} RunFromInjected(base: PropertyInvestment, cfg: StrategyConfig, pf: Portfolio, month: int,
                                           rpow: (real, real) -> real)
    requires Ready(base, cfg) && Consistent(base, cfg, pf)
    ensures InjectionSteps(RunFrom(base, cfg, pf, month, rpow), cfg.injections, pf.injected)
    decreases MonthsLeft(cfg, month)
  {
    RunFromUnfold(base, cfg, pf, month, rpow);
    if month <= cfg.simulationMonths {
      var m := Step(base, cfg, pf, month, rpow);
      StepFacts(base, cfg, pf, month, rpow);
      if !m.snapshot.ended {
        RunFromInjected(base, cfg, m.portfolio, month + 1, rpow);
        InjectionStepsCons(m.snapshot, RunFrom(base, cfg, m.portfolio, month + 1, rpow), cfg.injections, pf.injected);
      }
    }
  }

  /** Month by month increments starting from zero at period 0 add up to
      the cumulative injections through each period. */
  lemma {:induction false} StepsAccumulate(r: seq<Snapshot>, rules: seq<InjectionRule>, i: nat)
    requires |r| >= 1 && r[0].injected == 0.0
    requires PeriodsFrom(r, 0) && InjectionSteps(r[1..], rules, 0.0)
    requires i < |r|
    ensures r[i].injected == InjectedThrough(rules, i)
  {
    if i > 0 {
      StepsAccumulate(r, rules, i - 1);
      var t := r[1..];
      assert t[i - 1] == r[i] && r[i].period == i;
      if i > 1 {
        assert t[i - 2] == r[i - 1];
      }
    }
  }

  /** Each snapshot's ledger is the previous one's (or `n` properties for
      the first) plus the purchases it records. */
  predicate GrowsByPurchases(r: seq<Snapshot>, n: nat) {
    && (|r| > 0 ==> |r[0].properties| == n + |r[0].purchases|)
    && forall i :: 0 < i < |r| ==> |r[i].properties| == |r[i - 1].properties| + |r[i].purchases|
  }

  lemma GrowsCons(s: Snapshot, rest: seq<Snapshot>, n: nat)
    requires |s.properties| == n + |s.purchases| && GrowsByPurchases(rest, |s.properties|)
    ensures GrowsByPurchases([s] + rest, n)
  {
    var r := [s] + rest;
    forall i | 0 < i < |r| ensures |r[i].properties| == |r[i - 1].properties| + |r[i].purchases| {
      assert r[i] == rest[i - 1];
      if i > 1 {
        assert r[i - 1] == rest[i - 2];
      }
    }
  }

  /** Nothing is recorded past the last month. */
  lemma RunFromPast(base: PropertyInvestment, cfg: StrategyConfig, pf: Portfolio, month: int,
                    rpow: (real, real) -> real)
    requires Ready(base, cfg) && Consistent(base, cfg, pf)
    ensures month > cfg.simulationMonths ==> RunFrom(base, cfg, pf, month, rpow) == []
  {
  }

  lemma {:induction false} RunFromGrowth(base: PropertyInvestment, cfg: StrategyConfig, pf: Portfolio, month: int,
                                         rpow: (real, real) -> real)
    requires Ready(base, cfg) && Consistent(base, cfg, pf)
    ensures GrowsByPurchases(RunFrom(base, cfg, pf, month, rpow), |pf.properties|)
    decreases MonthsLeft(cfg, month)
  {
    RunFromPast(base, cfg, pf, month, rpow);
    if month <= cfg.simulationMonths {
      var m := Step(base, cfg, pf, month, rpow);
      StepFacts(base, cfg, pf, month, rpow);
      if !m.snapshot.ended {
        RunFromGrowth(base, cfg, m.portfolio, month + 1, rpow);
      }
      GrowthStep(base, cfg, pf, month, rpow);
    }
  }

  /** The inductive step of `RunFromGrowth`. */
  lemma GrowthStep(base: PropertyInvestment, cfg: StrategyConfig, pf: Portfolio, month: int,
                   rpow: (real, real) -> real)
    requires Ready(base, cfg) && Consistent(base, cfg, pf) && month <= cfg.simulationMonths
    requires var m := Step(base, cfg, pf, month, rpow);
      && Consistent(base, cfg, m.portfolio)
      && (!m.snapshot.ended ==>
            GrowsByPurchases(RunFrom(base, cfg, m.portfolio, month + 1, rpow), |m.portfolio.properties|))
    ensures GrowsByPurchases(RunFrom(base, cfg, pf, month, rpow), |pf.properties|)
  {
    var m := Step(base, cfg, pf, month, rpow);
    StepFacts(base, cfg, pf, month, rpow);
    RunFromUnfold(base, cfg, pf, month, rpow);
    if !m.snapshot.ended {
      GrowsCons(m.snapshot, RunFrom(base, cfg, m.portfolio, month + 1, rpow), |pf.properties|);
    }
  }

  // ---------------------------------------------------------------------
  // The whole run

  /** The period-0 snapshot of a run. */
  function FirstSnapshot(base: PropertyInvestment, cfg: StrategyConfig, rpow: (real, real) -> real): Snapshot
    requires Ready(base, cfg)
  {
    var s := Initialize(base, cfg);
    InitializeConsistent(base, cfg);
    FreshParses(base, cfg, s.portfolio.properties);
    MakeSnapshot(base, cfg, s.portfolio, 0, [], s.purchases, [], s.failure.Some?, s.failure, rpow)
  }

  lemma SimulateUnfold(base: PropertyInvestment, cfg: StrategyConfig, rpow: (real, real) -> real)
    requires Ready(base, cfg)
    ensures var s := Initialize(base, cfg);
      && Consistent(base, cfg, s.portfolio)
      && Simulate(base, cfg, rpow)[0] == FirstSnapshot(base, cfg, rpow)
      && (s.failure.Some? ==> Simulate(base, cfg, rpow) == [FirstSnapshot(base, cfg, rpow)])
      && (s.failure.None? ==>
           Simulate(base, cfg, rpow) == [FirstSnapshot(base, cfg, rpow)] + RunFrom(base, cfg, s.portfolio, 1, rpow))
  {
    InitializeConsistent(base, cfg);
  }

  /** Snapshot i is month i; there are at most `simulationMonths + 1`; only
      the last can be flagged, and a run cut short ends with a flagged
      snapshot; every snapshot is recorded, and every flagged month after
      period 0 ended for an operating deficit the cash could not cover. */
  lemma SimulateShape(base: PropertyInvestment, cfg: StrategyConfig, rpow: (real, real) -> real)
    requires Ready(base, cfg)
    ensures var r := Simulate(base, cfg, rpow);
      && 1 <= |r| <= MonthsLeft(cfg, 1) + 1
      && PeriodsFrom(r, 0) && EndedOnlyLast(r)
      && (|r| < MonthsLeft(cfg, 1) + 1 ==> r[|r| - 1].ended)
      && AllRecorded(base, cfg, r, rpow)
      && AllEndForDeficit(r[1..])
  {
    var s := Initialize(base, cfg);
    SimulateUnfold(base, cfg, rpow);
    var first := FirstSnapshot(base, cfg, rpow);
    InitializeConsistent(base, cfg);
    if s.failure.None? {
      RunFromShape(base, cfg, s.portfolio, 1, rpow);
      RunFromRecorded(base, cfg, s.portfolio, 1, rpow);
      var rest := RunFrom(base, cfg, s.portfolio, 1, rpow);
      ShapeCons(first, rest, 0);
      RecordedCons(base, cfg, first, rest, rpow);
      assert ([first] + rest)[1..] == rest;
    }
  }

  /** The run ends at once, with a single flagged and empty snapshot
      holding the whole available amount, exactly when the first property
      costs more than is available. */
  lemma UnaffordableFirstProperty(base: PropertyInvestment, cfg: StrategyConfig, rpow: (real, real) -> real)
    requires Ready(base, cfg)
    ensures var r := Simulate(base, cfg, rpow);
      var available := base.strategy.availableInvestmentAmount;
      var needed := FirstCashRequired(base, cfg);
      && (r[0].ended <==> available < needed)
      && (available < needed ==>
           && |r| == 1
           && r[0].properties == [] && r[0].purchases == []
           && r[0].cash == available && r[0].injected == 0.0
           && r[0].endReason == Some(FirstPropertyUnaffordable(needed, available)))
      && (available >= needed ==>
           && |r[0].properties| == 1 && r[0].purchases == [PurchaseOf(r[0].properties[0], needed)]
           && r[0].cash == available - needed)
  {
    SimulateUnfold(base, cfg, rpow);
  }

  /** Every snapshot's ledger numbers its properties in purchase order, and
      every property in it is one the strategy may buy. */
  lemma LedgersAreConsistent(base: PropertyInvestment, cfg: StrategyConfig, rpow: (real, real) -> real)
    requires Ready(base, cfg)
    ensures var r := Simulate(base, cfg, rpow);
      forall i :: 0 <= i < |r| ==> LedgerOK(base, cfg, r[i].properties)
  {
    SimulateShape(base, cfg, rpow);
  }

  /** A recorded snapshot of a cash-only strategy holds only cash
      properties and no debt. */
  lemma CashOnlySnapshot(base: PropertyInvestment, cfg: StrategyConfig, s: Snapshot, rpow: (real, real) -> real)
    requires MonthlyBondPayment(base).Ok? && cfg.kind == CashOnly && Recorded(base, cfg, s, rpow)
    ensures s.totalDebt == 0.0
    ensures forall j :: 0 <= j < |s.properties| ==> s.properties[j].financingLabel == CashLabel
  {
    var props := s.properties;
    assert forall j :: 0 <= j < |props| ==> Fresh(base, cfg, props[j]);
    SumByConstant(props, LoanOf, 0.0);
  }

  /** A cash-only strategy never borrows: every property in every snapshot
      is a cash property and the debt is zero throughout. */
  lemma CashOnlyCarriesNoDebt(base: PropertyInvestment, cfg: StrategyConfig, rpow: (real, real) -> real)
    requires Ready(base, cfg) && cfg.kind == CashOnly
    ensures var r := Simulate(base, cfg, rpow);
      forall i :: 0 <= i < |r| ==>
        && r[i].totalDebt == 0.0
        && forall j :: 0 <= j < |r[i].properties| ==> r[i].properties[j].financingLabel == CashLabel
  {
    var r := Simulate(base, cfg, rpow);
    SimulateShape(base, cfg, rpow);
    forall i | 0 <= i < |r|
      ensures r[i].totalDebt == 0.0
      ensures forall j :: 0 <= j < |r[i].properties| ==> r[i].properties[j].financingLabel == CashLabel
    {
      CashOnlySnapshot(base, cfg, r[i], rpow);
    }
  }

  /** Under monthly tracking no snapshot carries yields of any kind. */
  lemma MonthlyTrackingHasNoYields(base: PropertyInvestment, cfg: StrategyConfig, rpow: (real, real) -> real)
    requires Ready(base, cfg) && cfg.tracking == MonthlyTracking
    ensures var r := Simulate(base, cfg, rpow);
      forall i :: 0 <= i < |r| ==> r[i].propertyYields == [] && r[i].portfolioYields.None?
  {
    var r := Simulate(base, cfg, rpow);
    SimulateShape(base, cfg, rpow);
    forall i | 0 <= i < |r| ensures r[i].propertyYields == [] && r[i].portfolioYields.None? {
      assert Recorded(base, cfg, r[i], rpow);
    }
  }

  /** Under yearly tracking every snapshot reports one yield record per
      property and the portfolio yields of its ledger. */
  lemma YearlyTrackingReportsYields(base: PropertyInvestment, cfg: StrategyConfig, rpow: (real, real) -> real)
    requires Ready(base, cfg) && cfg.tracking == YearlyTracking
    ensures var r := Simulate(base, cfg, rpow);
      forall i :: 0 <= i < |r| ==>
        && ReportsLedgerYields(r[i], rpow)
        && r[i].portfolioYields == Some(PortfolioYieldsOf(base, r[i].properties, i, rpow))
  {
    var r := Simulate(base, cfg, rpow);
    SimulateShape(base, cfg, rpow);
    forall i | 0 <= i < |r|
      ensures ReportsLedgerYields(r[i], rpow)
      ensures r[i].portfolioYields == Some(PortfolioYieldsOf(base, r[i].properties, i, rpow))
    {
      assert Recorded(base, cfg, r[i], rpow);
    }
  }

  /** Why a run stopped: at period 0 because the first property was
      unaffordable, later because of an operating deficit larger than the
      cash on hand. */
  lemma EndReasons(base: PropertyInvestment, cfg: StrategyConfig, rpow: (real, real) -> real)
    requires Ready(base, cfg)
    ensures var r := Simulate(base, cfg, rpow);
      forall i :: 0 <= i < |r| && r[i].ended ==>
        && r[i].endReason.Some?
        && (i == 0 ==> r[i].endReason.value.FirstPropertyUnaffordable?
                       && r[i].endReason.value.available < r[i].endReason.value.needed)
        && (i > 0 ==> r[i].endReason.value.OperatingDeficit?
                      && 0.0 < r[i].endReason.value.deficit
                      && r[i].endReason.value.available < r[i].endReason.value.deficit)
  {
    var r := Simulate(base, cfg, rpow);
    SimulateShape(base, cfg, rpow);
    UnaffordableFirstProperty(base, cfg, rpow);
    forall i | 0 <= i < |r| && r[i].ended
      ensures r[i].endReason.Some?
      ensures i == 0 ==> r[i].endReason.value.FirstPropertyUnaffordable?
                         && r[i].endReason.value.available < r[i].endReason.value.needed
      ensures i > 0 ==> r[i].endReason.value.OperatingDeficit?
                        && 0.0 < r[i].endReason.value.deficit
                        && r[i].endReason.value.available < r[i].endReason.value.deficit
    {
      assert Recorded(base, cfg, r[i], rpow);
      if i > 0 {
        assert r[i] == r[1..][i - 1];
        assert EndsForDeficit(r[1..][i - 1]);
      }
    }
  }

  /** Snapshot i reports the additional capital injected in months 1
      through i. */
  lemma InjectionsAccumulate(base: PropertyInvestment, cfg: StrategyConfig, rpow: (real, real) -> real)
    requires Ready(base, cfg)
    ensures var r := Simulate(base, cfg, rpow);
      forall i :: 0 <= i < |r| ==> r[i].injected == InjectedThrough(cfg.injections, i)
  {
    var r := Simulate(base, cfg, rpow);
    SimulateShape(base, cfg, rpow);
    var s := Initialize(base, cfg);
    SimulateUnfold(base, cfg, rpow);
    assert r[0].injected == 0.0;
    if s.failure.None? {
      RunFromInjected(base, cfg, s.portfolio, 1, rpow);
      assert r[1..] == RunFrom(base, cfg, s.portfolio, 1, rpow);
    }
    forall i | 0 <= i < |r| ensures r[i].injected == InjectedThrough(cfg.injections, i) {
      StepsAccumulate(r, cfg.injections, i);
    }
  }

  /** The ledger grows by exactly the purchases each snapshot records. */
  lemma LedgerGrowsByPurchases(base: PropertyInvestment, cfg: StrategyConfig, rpow: (real, real) -> real)
    requires Ready(base, cfg)
    ensures var r := Simulate(base, cfg, rpow);
      && |r[0].properties| == |r[0].purchases|
      && forall i :: 0 < i < |r| ==> |r[i].properties| == |r[i - 1].properties| + |r[i].purchases|
  {
    var s := Initialize(base, cfg);
    SimulateUnfold(base, cfg, rpow);
    var first := FirstSnapshot(base, cfg, rpow);
    if s.failure.None? {
      RunFromGrowth(base, cfg, s.portfolio, 1, rpow);
      var rest := RunFrom(base, cfg, s.portfolio, 1, rpow);
      var r := [first] + rest;
      forall i | 0 < i < |r| ensures |r[i].properties| == |r[i - 1].properties| + |r[i].purchases| {
        assert r[i] == rest[i - 1];
        if i > 1 {
          assert r[i - 1] == rest[i - 2];
        }
      }
    }
  }
}
