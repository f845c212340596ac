# Property portfolio simulator, modelled in Dafny

PropertyInvestmentCalculator simulates buying, financing and running
buy-to-let properties. An investor starts with an amount of cash and one
property profile: purchase price, acquisition costs, financing terms and
operating costs. A strategy then buys the first property and, month by
month, collects rent, pays expenses and bond instalments, receives
scheduled capital injections, refinances leveraged properties and
reinvests the cash on hand in further properties. Each period ends with a
snapshot of the portfolio and, under yearly tracking, its yields.

This project models three parts of the repository as pure functions on
immutable values, with money as `real`:

- **The investment profile** (`back/core/main.py`). Modelled in modules
  `Investment` and `Amortization`: acquisition cost totals, construction
  validation, initial cash, the annuity bond payment, and the derived rent,
  expense and cash-flow figures.
- **The always-monthly portfolio engine** (`back/core/strategies.py`).
  Modelled in modules `Config`, `Engine`, `Labels`, `Injections`,
  `Operations`, `Yields` and `Run`: the strategy factories, initialisation,
  the monthly step, capital injections, the deficit stop, the global
  refinancing cadence, the financing choice, the greedy purchase loop,
  snapshots, and property and portfolio yields.
- **The legacy simulator** in the root `strategies.py`. Modelled in modules
  `Legacy` and `LegacyRun`, kept separate from the engine because it
  behaves differently:
  - it steps in months or years;
  - it refinances per property on each property's own clock;
  - it prices purchases at the mean value of the ledger;
  - it stops buying when cash covers less than six months of negative
    cash flow;
  - it ends without a snapshot when cash goes negative.

Modules `Wrappers`, `Numerics` and `Sums` hold the shared vocabulary:
results and options, Python's `int()` and `or` on floats, integer powers,
and sums and counts over sequences.

Each operation's contract states what its result means. Examples:

- the annuity payment pays the loan off, against a month-by-month balance
  defined independently;
- a financing label decodes to the ratio truncated to whole percent;
- every cash movement equals the sum of the events that explain it;
- the ledger numbers its properties by position;
- the run has the shape the engine promises.

Whole-run properties are proved by induction over the month loop.

Source behaviour is modelled as written, including its quirks:

- **Mixed-strategy ties.** The engine's mixed choice sends a tie to cash
  (the `>` at `back/core/strategies.py:661`). The legacy rule sends it to
  leverage (the `>=` at `strategies.py:633`).
- **Falsy defaults.** `interest_rate or 0.105` and `loan_term_years or 20`
  treat a zero rate or term as missing. So the engine never takes its
  zero-rate payment branch, while the profile's own formula does.
- **Injection windows.** An `end_period` of 0 is unbounded. An empty
  `specific_periods` list falls back to `start_period`.
- **Deficit versus cash flow.** The deficit check uses gross rent, while
  cash flow uses rent after vacancy.
- **Management fee basis.** The engine charges the fee on gross rent; the
  profile charges it on rent after vacancy.
- **First cash property.** In the engine, a first cash property pays bond
  registration and later cash properties do not.
- **Yields under monthly tracking.** `_calculate_annual_yields` returns an
  empty list at every period, year boundaries included, in both engines
  (its `else` branch). Portfolio yields are attached only under yearly
  tracking.

Money is modelled as exact `real` numbers. Where the source raises an
exception or never terminates, the model states the excluded inputs as a
precondition. The engine uses `Engine.Ready` and the legacy simulator uses
`LegacyRun.LegacyReady`.

All files form one Dafny 4.11 program; verify them together from this
directory with

    dafny verify *.dfy

or, with a resource bound per proof,

    dafny verify --resource-limit 2000000 --verification-time-limit 0 --warn-contradictory-assumptions *.dfy

## Model

| member | source | states |
|---|---|---|
| Investment.TotalUnfurnishedCost | back/core/main.py:30-37 | the unfurnished total exceeds the price by exactly transfer duty, conveyancing and bond registration |
| Investment.TotalFurnishedCost | back/core/main.py:39-41 | furnished minus unfurnished is the furnishing cost, and nothing when there is none |
| Investment.EffectiveMonthlyRental | back/core/main.py:69-72 | the rent lost to vacancy is the gross rent times the vacancy rate |
| Investment.MonthlyManagementFee | back/core/main.py:68-77 | the fee is the fee on the gross rent less the fee on its vacant share; with no vacancy it is the fee on the gross rent; with proper-fraction rates it lies between zero and that fee |
| Investment.TotalMonthlyExpenses | back/core/main.py:79-88 | the total less the management fee and optional furnishing repairs is levies plus insurance plus maintenance |
| Investment.AnnualRentalIncome | back/core/main.py:90-93 | a twelfth of the annual rent is the gross monthly rent, before vacancy |
| Investment.NewPropertyInvestment | back/core/main.py:116-132 | construction succeeds exactly when none of the three rejected cases holds; each error is returned exactly when its check is the first to fail, in the source's order |
| Investment.InitialCashRequired | back/core/main.py:134-144 | a cash purchase needs the furnished total; for a leveraged one the cash plus the loan (price times LTV) is the furnished total |
| Investment.MonthlyBondPayment | back/core/main.py:146-174 | nothing for cash; an error for a missing rate or term; a leveraged success is always a payment; at a nonzero rate the payment exists iff the growth factor over 12·term months is not 1, and the only other error is a division by zero; the payment brings the month-by-month balance to zero after 12·term months; at a zero rate, 12·term payments add up to the loan |
| Investment.MonthlyCashflow | back/core/main.py:176-187 | defined exactly when the bond payment is; the cash flow plus the payment (0 when absent) is rent after vacancy less expenses |
| Amortization.Annuity | back/core/main.py:163-174 | at a zero rate the payment exists iff there is a payment month, and n payments sum to the loan; at a nonzero rate it exists iff the growth factor is not 1; its only error is a division by zero |
| Amortization.BalanceClosedForm | back/core/main.py:170-174 | the reference balance after k payments satisfies r·B = L·r·(1+r)^k − P·((1+r)^k − 1), the identity the annuity formula solves |
| Amortization.BalanceAtZeroRate | back/core/main.py:167-168 | at a zero rate the balance falls by one payment each month |
| Amortization.AnnuityRepaysLoan | back/core/main.py:170-174 | after the n-th annuity payment the month-by-month balance is exactly zero |
| Amortization.AnnuityDefined | back/core/strategies.py:405-413 | the engine's annuity never divides by zero for a nonzero monthly rate other than −2 and at least one payment |
| Numerics.Trunc | back/core/strategies.py:311 | Python's `int()` truncates toward zero: the result has the sign of x and lies within one of it, never beyond it |
| Numerics.TruncIsFloor | back/core/strategies.py:311 | for a non-negative ratio truncation is the floor |
| Numerics.OrDefault | back/core/strategies.py:401-402 | `x or d` is d exactly when x is None or 0.0, and x otherwise |
| Numerics.OrZero | back/core/main.py:41 | `x or 0` is x when present and 0 when None |
| Labels.NatToDecimal | back/core/strategies.py:311 | `str(n)` is a non-empty run of decimal digits |
| Labels.ParseIntToDecimal | back/core/strategies.py:911 | `float()` reads `str(i)` back as i for every integer i |
| Labels.RemoveSuffix | back/core/strategies.py:911 | `replace("%_leverage", "")` on an encoded label removes exactly the suffix |
| Labels.DecodeEncode | back/core/strategies.py:907-911 | decoding the label written for an LTV gives int(100·ltv)/100 |
| Labels.DecodeEncodeBounds | back/core/strategies.py:907-912 | for a non-negative LTV the decoded ratio is floor(100·ltv)/100, above ltv − 0.01 and at most ltv |
| Labels.EncodedIsNotCash | back/core/strategies.py:647 | no leveraged label equals "cash", so the `!= "cash"` tests classify every property correctly |
| Labels.EncodedFacts | back/core/strategies.py:906-911 | a label written for an LTV is not "cash" and reads back as the truncated ratio |
| Config.CashStrategy | back/core/strategies.py:1056-1075 | the cash factory never leverages or refinances: zero LTV and all properties cash |
| Config.LeveragedStrategy | back/core/strategies.py:1078-1101 | the leveraged factory makes every property leveraged, with cash ratio the complement of the LTV |
| Config.MixedStrategy | back/core/strategies.py:1104-1136 | the mixed factory succeeds iff the two property-ratio targets sum to 1, and otherwise reports their total; on success it keeps every argument |
| Engine.EngineTermYears | back/core/strategies.py:402 | the engine's term is at least one year and is the configured term whenever that is truthy |
| Engine.EnginePayment | back/core/strategies.py:396-413 | nothing is paid on a non-positive loan; otherwise the payment clears the loan over the engine term at the engine rate |
| Engine.EngineAnnualExpenses | back/core/strategies.py:666-686 | twelve months of profile expenses plus the fee on the vacant share, because the engine charges the fee on gross rent |
| Engine.BaseMonthlyCashflow | back/core/strategies.py:688-706 | the profile's monthly cash flow less the fee on the vacant share of rent |
| Engine.FirstCashRequired | back/core/strategies.py:330-346 | a cash first property needs the whole furnished cost; a leveraged one needs that cost less its loan |
| Engine.UnitCost | back/core/strategies.py:534-574 | a later leveraged purchase costs the furnished total less the loan; a later cash purchase costs it less bond registration |
| Engine.FirstPropertyCost | back/core/strategies.py:330-346 | the first property costs what a later one of the same financing costs, except that a cash first property also pays bond registration |
| Engine.FirstCashMatchesProfile | back/core/strategies.py:330-346 | the engine's first-property cash is the profile's own initial cash required under the strategy's financing |
| Engine.NewProperty | back/core/strategies.py:598-611 | a bought property starts at its price with no months owned, the strategy's loan and label, and the engine's payment, rent, expenses and cash flow |
| Engine.Initialize | back/core/strategies.py:302-388 | the run fails at once exactly when the first property costs more than is available; otherwise the ledger is exactly the property built for id 0 with the first financing and its cost, the cash is what remains (non-negative), and the purchase is recorded |
| Injections.Interval | back/core/strategies.py:857-870 | every recurring cadence has a gap of at least one month |
| Injections.FiresOnlyInWindow | back/core/strategies.py:838-847 | nothing fires before the start or after a truthy end |
| Injections.RecurringFires | back/core/strategies.py:857-870 | a recurring rule fires iff the month is in the window and a whole number of intervals from the start |
| Injections.RecurringFiringMonths | back/core/strategies.py:857-870 | start + k·interval fires for every k while in the window, and no month between two of those does |
| Injections.MonthlyFiresInWindow | back/core/strategies.py:860-861 | a monthly rule fires in every month of its window and no other |
| Injections.OneTimeListedFiring | back/core/strategies.py:849-852 | a one-time rule with a non-empty list fires exactly at the listed months inside the window |
| Injections.OneTimeFiresOnce | back/core/strategies.py:849-855 | a one-time rule without a list (None or empty) fires in one month at most, its start |
| Injections.FiringRules | back/core/strategies.py:812-815 | the firing rules are the rules that fire in the month, counted exactly |
| Injections.InjectionAccounting | back/core/strategies.py:802-829 | cash and the cumulative counter both rise by exactly the total of the firing rules, with one event per firing rule |
| Injections.InjectionEventsRunningTotals | back/core/strategies.py:812-827 | event j carries the j-th firing rule's amount and cadence and the counter just after that rule |
| Injections.LastEventTotal | back/core/strategies.py:816-826 | the last event's running total is the final counter |
| Injections.InjectionsAreAdditive | back/core/strategies.py:812-827 | applying two rule lists one after the other is applying their concatenation: amounts and events add up |
| Operations.Appreciate | back/core/strategies.py:415-422 | every value is multiplied by the monthly factor and ages by one month; nothing else changes |
| Operations.AppreciationScalesTotalValue | back/core/strategies.py:415-422 | the portfolio's total value grows by exactly the monthly factor |
| Operations.AmortiseStep | back/core/strategies.py:431-439 | a loan with a payment accrues a month's interest, is reduced by the payment and floored at 0; without one it is unchanged |
| Operations.AmortisationFollowsSchedule | back/core/strategies.py:431-439 | while the reference balance stays positive, the engine's loan after k months is that balance |
| Operations.AmortiseBounds | back/core/strategies.py:431-439 | a loan never goes negative, and does not grow when the payment covers the month's interest |
| Operations.MonthlyOperations | back/core/strategies.py:424-454 | every property is amortised and its cash flow recomputed; cash moves by exactly the sum of the new cash flows |
| Operations.Deficit | back/core/strategies.py:456-467 | the operating deficit is never negative |
| Operations.DeficitZeroIff | back/core/strategies.py:456-467 | there is no deficit exactly when every property's gross rent covers its expenses and payment |
| Operations.RefinanceCadence | back/core/strategies.py:469-472 | with a refinancing interval of n months, refinancing happens on exactly every n-th month |
| Operations.RefinanceLedger | back/core/strategies.py:480-521 | exactly the leveraged, positively valued properties that gain more than 10000 have their loan raised to value·LTV and a new payment; the others are untouched |
| Operations.RefinanceEvents | back/core/strategies.py:480-525 | each event extracts more than 10000 at the target LTV, with at most one event per property |
| Operations.RefinanceEvent | back/core/strategies.py:483-516 | the event records the old loan and the new loan value·LTV, and the new loan is larger than the old by the amount extracted |
| Operations.RefinanceConservesNetPosition | back/core/strategies.py:483-524 | the cash extracted equals the debt added |
| Operations.MixedLeveragesBelowTarget | back/core/strategies.py:640-664 | with targets summing to 1 the mixed rule leverages iff the leveraged share is below its target, so a tie goes to cash |
| Numerics.BudgetDecreases | back/core/strategies.py:533-629 | each purchase lowers the number of cheapest properties the cash could still pay for, so the purchase loops of both engines end |
| Operations.Reinvest | back/core/strategies.py:529-631 | purchases extend the ledger and the counter one by one; cash falls by their total cost; on exit cash is below the next candidate's cost; a purchase never leaves cash negative |
| Operations.ReinvestBuysFresh | back/core/strategies.py:529-626 | purchase i is the property built, with the next consecutive id, for the financing `ShouldLeverage` picks on the ledger as it stood before it; it cost that financing's unit cost, which the cash left before it covered; the property is one the strategy may buy |
| Yields.EstimatedCashInvested | back/core/strategies.py:906-915 | a cash property's estimate is its price; a leveraged one's is the down payment at the decoded ratio plus 8% of the price |
| Yields.EstimateFromDecoded | back/core/strategies.py:907-915 | when a label decodes to v, the estimate is price·(1.08 − v) |
| Yields.OnValue | back/core/strategies.py:924-931 | over a positive value the yield times the value is the amount; otherwise the yield is 0 |
| Yields.YearsHeld | back/core/strategies.py:940-942 | the holding period used for growth is always positive |
| Yields.PropertyYieldsOf | back/core/strategies.py:898-960 | rental and net yields times the value are the rent and the net income, or 0 for a non-positive value; cash on cash is over the estimate; total return is net yield plus growth |
| Yields.PortfolioYieldsOf | back/core/strategies.py:962-1053 | an empty portfolio has all-zero yields; otherwise its totals are the ledger sums and its yields are formed from them |
| Yields.YieldsFromTotals | back/core/strategies.py:1003-1039 | each ratio times its positive base gives back its total, and total return is net yield plus growth |
| Yields.SingletonTotals | back/core/strategies.py:984-1001 | a one-property portfolio's totals are that property's own figures |
| Yields.SinglePropertyYieldsAgree | back/core/strategies.py:1009-1013 | for a single property, the portfolio rental and net yields equal that property's own |
| Yields.SinglePropertyGrowthAgrees | back/core/strategies.py:1018-1034 | for a single property held at least a month, the portfolio growth equals that property's own |
| Yields.RentalYieldIsValueWeighted | back/core/strategies.py:1009-1010 | the portfolio rental yield is the value-weighted average of the property rental yields |
| Run.FreshParses | back/core/strategies.py:906-911 | every label the engine writes can be read back by the yield code |
| Run.AnnualYieldsOnlyYearly | back/core/strategies.py:874-896 | property yields are empty under monthly tracking, year boundaries included, and one per property under yearly tracking |
| Run.MakeSnapshot | back/core/strategies.py:717-800 | a snapshot's totals are the ledger sums; equity plus debt is value; annual cash flow is 12 times monthly; yields appear only under yearly tracking, where the i-th property yield record is that of the i-th property of the ledger |
| Run.ApplyRefinancing | back/core/strategies.py:474-527 | refinancing changes only loans and payments, and cash rises by exactly the sum of extractions |
| Run.RefinancingKeepsNetCash | back/core/strategies.py:483-524 | refinancing leaves cash minus debt unchanged |
| Run.RefinancingKeepsLedger | back/core/strategies.py:480-498 | refinancing keeps ids equal to positions and every property one the strategy buys |
| Run.OperatedKeepsLedger | back/core/strategies.py:415-454 | appreciation and monthly operations keep the ledger invariant |
| Run.Injected | back/core/strategies.py:802-829 | injections leave the ledger and the property counter unchanged |
| Run.Step | back/core/strategies.py:236-292 | one month records its period and its ledger; an ended month records no refinancing or purchase, and ends for a deficit the cash cannot cover |
| Run.StepFacts | back/core/strategies.py:244-292 | a month keeps the ledger invariant and adds exactly the month's injections to the running total |
| Run.StepCash | back/core/strategies.py:244-282 | a month's cash is the operated cash plus injections, plus extractions, less purchase costs |
| Run.StepEndsOnDeficit | back/core/strategies.py:256-282 | a month ends the run iff after injections there is a positive deficit larger than the cash; that month refinances and buys nothing |
| Run.ReinvestKeepsLedger | back/core/strategies.py:598-626 | the purchase loop keeps ids equal to positions and the counter equal to the ledger size |
| Run.InitializeConsistent | back/core/strategies.py:362-388 | the starting ledger satisfies the ledger invariant |
| Run.Simulate | back/core/strategies.py:191-294 | a run has at least the period-0 snapshot |
| Run.RunFromShape | back/core/strategies.py:236-268 | from any month on, the periods are consecutive, only the last snapshot can be flagged, and a run cut short ends flagged |
| Run.RunFromRecorded | back/core/strategies.py:236-292 | every snapshot from any month on satisfies the snapshot invariant and ends only for a deficit |
| Run.RunFromInjected | back/core/strategies.py:250-254 | each snapshot adds its month's injections to the previous running total |
| Run.RunFromGrowth | back/core/strategies.py:279-292 | each snapshot's ledger is the previous one plus its purchases |
| Run.SimulateShape | back/core/strategies.py:191-294 | snapshot i is month i; there are at most simulation_months + 1; only the last can be flagged; a run cut short ends flagged; every later flagged month ended for a deficit |
| Run.UnaffordableFirstProperty | back/core/strategies.py:348-360 | the run ends at period 0 iff the first property is unaffordable, leaving one flagged empty snapshot holding the whole amount; otherwise period 0 holds property 0 and the rest of the cash |
| Run.LedgersAreConsistent | back/core/strategies.py:598-626 | in every snapshot property i has id i and is a property the strategy buys |
| Run.CashOnlySnapshot | back/core/strategies.py:636-637 | a snapshot of a cash-only strategy holds only cash properties and no debt |
| Run.CashOnlyCarriesNoDebt | back/core/strategies.py:636-637 | a cash-only run carries no debt in any snapshot |
| Run.MonthlyTrackingHasNoYields | back/core/strategies.py:879-887 | under monthly tracking no snapshot carries property or portfolio yields |
| Run.YearlyTrackingReportsYields | back/core/strategies.py:757-778 | under yearly tracking every snapshot carries the yields of each property of its ledger, in ledger order, and the portfolio yields of its ledger |
| Run.EndReasons | back/core/strategies.py:256-268 | a run stops at period 0 only because the first property is unaffordable, and later only for an operating deficit larger than the cash |
| Run.InjectionsAccumulate | back/core/strategies.py:816-820 | snapshot i reports all capital injected in months 1 through i |
| Run.LedgerGrowsByPurchases | back/core/strategies.py:622-626 | the ledger grows by exactly the purchases each snapshot records |
| Legacy.PeriodsPerYear | strategies.py:189-195 | a year has 12 periods under monthly tracking and 1 under yearly |
| Legacy.TotalPeriods | strategies.py:189-195 | the horizon is 12·years periods under monthly tracking and years under yearly |
| Legacy.Multiplier | strategies.py:345-349 | a period carries as many months of cash flow as make a year over the periods per year |
| Legacy.BaseCashflow | strategies.py:445-450 | the base cash flow is the profile's monthly cash flow plus its bond payment, i.e. before debt |
| Legacy.PurchasePayment | strategies.py:511-536 | nothing is paid on no loan; a missing rate or term raises; otherwise the payment clears the loan over the fallback term at the fallback rate |
| Legacy.RefinancePayment | strategies.py:400-422 | a missing rate or term raises; otherwise the payment clears the new loan at the profile's own rate and term |
| Legacy.FirstProfile | strategies.py:268-294 | the first property's profile takes the strategy's financing: leveraged at the strategy LTV, or cash with no LTV and no bond registration |
| Legacy.Appreciate | strategies.py:331-338 | every value grows by the period's factor and nothing else changes |
| Legacy.RepayPrincipal | strategies.py:358-365 | a loan with a payment falls by 1% of the payment per month of the period, floored at 0, and never rises; only loan and principal paid change |
| Legacy.PrincipalAndRent | strategies.py:340-368 | the principal step is applied to every property, and only the ledger and cash change |
| Legacy.PrincipalAndRentCash | strategies.py:351-368 | cash moves by exactly the ledger's cash flow times the multiplier |
| Legacy.MonthlyFiringAgrees | strategies.py:667-718 | under monthly tracking the legacy injection rule is the engine's |
| Legacy.YearlyFiring | strategies.py:690-718 | under yearly tracking monthly, quarterly and yearly rules fire in every in-window period, and five-yearly ones every fifth period from the start |
| Legacy.InjectionAccounting | strategies.py:635-665 | cash and the cumulative total both rise by exactly the amounts of the firing rules |
| Legacy.RefinanceOne | strategies.py:383-441 | a property refinances iff it has a loan, its clock has run an interval, and value·LTV exceeds the loan; then only loan, clock, payment and cash flow change, and the extraction is the loan increase |
| Legacy.RefinanceLedger | strategies.py:374-443 | every property takes its own refinancing turn, in ledger order |
| Legacy.RefinancingExtractsAddedDebt | strategies.py:391-429 | the cash extracted is exactly the debt added |
| Legacy.MixedLeveragesUpToTarget | strategies.py:598-633 | with targets summing to 1 and the two counts to the ledger size, the legacy rule leverages iff the leveraged share is at most its target, so a tie goes to leverage |
| Legacy.MarketPriceUnchanged | strategies.py:458-467 | buying at the mean value leaves the mean value unchanged |
| Legacy.LegacyCostScales | strategies.py:469-509 | the cost of a purchase scales with the market price, and at the base price it is the profile's initial cash required |
| Legacy.NewProperty | strategies.py:538-553 | a bought property starts at the market price with loan price·LTV, purchase period p, no refinancing and cash flow base less payment |
| Legacy.AfterPurchase | strategies.py:555-581 | a purchase appends the property, moves its cost from cash to cash invested, and bumps exactly one financing count |
| Legacy.BuyProperties | strategies.py:452-596 | purchases extend the ledger; cash falls and cash invested rises by their total cost; the counts stay equal to the ledger size; a purchase never leaves cash negative |
| Legacy.BuyPropertiesFollowRule | strategies.py:452-596 | purchase i is the property built, with the next id, at the market price of the state before it, for the financing `LegacyShouldLeverage` picks from that state's counts; it cost that financing's cost at that price, which the state's cash covered; every purchase but the last left at least six months of cover; the final portfolio is the state after the last purchase |
| Legacy.BuyingStops | strategies.py:583-594 | buying stops only when the next pick is unaffordable or the last purchase left under six months of cover |
| LegacyRun.LegacyCashInvested | strategies.py:844-869 | the cash invested reported per property is the profile's initial cash required |
| LegacyRun.LegacyAnnualExpenses | strategies.py:761-781 | the item-by-item annual expenses are twelve months of the profile's expenses |
| LegacyRun.LegacyGrowth | strategies.py:810-825 | growth is 0 until a period after purchase, and otherwise annualised over the years held |
| LegacyRun.LegacyPropertyYields | strategies.py:745-842 | rent after vacancy and expenses are the profile's; cash flow deducts the payment only when positive; each yield is over the value or cash invested; total return is net plus growth |
| LegacyRun.LegacyAnnualYields | strategies.py:720-743 | yields are empty under monthly tracking and one per property under yearly |
| LegacyRun.FailureSnapshot | strategies.py:882-904 | the failure snapshot is period 0, flagged, empty, and holds the whole available amount |
| LegacyRun.MakeSnapshot | strategies.py:906-951 | equity plus debt is value, annual cash flow is 12 times monthly, and the counts and events are the portfolio's |
| LegacyRun.SnapshotReconciles | strategies.py:913-926 | net cash flow is rent after vacancy less expenses less debt service, per property summed |
| LegacyRun.FlowsAreBaseLessPayments | strategies.py:920-925 | the ledger's cash flow is the base cash flow per property less the total debt service |
| LegacyRun.InitialPortfolio | strategies.py:303-329 | an affordable first property starts the ledger at period 0; cash is the rest of the budget and cash invested is the need; its financing is counted once |
| LegacyRun.OperateKeepsLedger | strategies.py:331-368 | appreciation and the principal step keep the ledger invariant |
| LegacyRun.Inject | strategies.py:635-665 | injections touch only cash and the cumulative total |
| LegacyRun.InjectCash | strategies.py:650-654 | cash and the cumulative total move by the same fired amount |
| LegacyRun.Refinance | strategies.py:231-235 | with refinancing off nothing changes; otherwise cash rises by exactly the extractions and only the ledger and cash change |
| LegacyRun.RefinanceEventsPositive | strategies.py:393-395 | every refinancing event extracts a positive amount |
| LegacyRun.RefinanceKeepsLedger | strategies.py:383-429 | refinancing keeps the ledger invariant |
| LegacyRun.Reinvest | strategies.py:237-240 | with reinvestment off the portfolio is unchanged |
| LegacyRun.PurchaseKeepsLedger | strategies.py:555-568 | appending a property with the next id keeps the ledger invariant and the counts |
| LegacyRun.BuyKeepsLedger | strategies.py:458-596 | the purchase loop keeps the ledger invariant |
| LegacyRun.ReinvestKeepsLedger | strategies.py:452-596 | reinvestment keeps the ledger invariant and cash non-negative |
| LegacyRun.Step | strategies.py:202-261 | a period ends the run, without a snapshot, exactly when the cash after its cash flows and injections is negative; otherwise it records an unflagged snapshot of its ledger |
| LegacyRun.OperateCash | strategies.py:351-368 | operating moves cash by the ledger's cash flow for the period |
| LegacyRun.StepFacts | strategies.py:210-261 | a completed period keeps the ledger invariant and leaves cash non-negative |
| LegacyRun.LegacySimulate | strategies.py:183-263 | a run has a period-0 snapshot, and the failure snapshot alone when the first property is unaffordable |
| LegacyRun.RunFromPeriods | strategies.py:202-261 | snapshots from any period on are consecutive |
| LegacyRun.RunFromLength | strategies.py:202-228 | no more snapshots than periods left, and an early end only for negative cash in the period after the last snapshot |
| LegacyRun.RunFromSound | strategies.py:202-261 | every snapshot from any period on is sound |
| LegacyRun.RunFromInjected | strategies.py:216-220 | each snapshot adds its period's injections to the previous running total |
| LegacyRun.LegacySimulatePeriods | strategies.py:189-263 | periods are consecutive from 0 and at most one more than the horizon; a started run ends early only for negative operating cash |
| LegacyRun.LegacySimulateSound | strategies.py:202-261 | in a started run no snapshot is flagged, cash is never negative, the columns reconcile and monthly tracking reports no yields |
| LegacyRun.FirstSnapshotFlagged | strategies.py:296-301 | the first snapshot is flagged exactly when the first property is unaffordable |
| LegacyRun.OnlyFailureIsFlagged | strategies.py:222-228 | a flagged snapshot occurs only in a run whose first property was unaffordable, and it is the run's only, empty snapshot |
| LegacyRun.MonthlyRunHasNoYields | strategies.py:725-732 | under monthly tracking no snapshot reports yields |
| LegacyRun.InjectionsAccumulate | strategies.py:650-654 | snapshot i reports all capital injected in periods 1 through i |

## Left out

- Engine.Ready: overrequires. It excludes the inputs on which the engine
  raises or never ends, and some on which it does neither:
  - a failing base bond payment, and the one engine rate at which the
    annuity divides by zero. Both are required for every strategy,
    cash-only ones included, and also when the first property is
    unaffordable and the run ends at once, where the source may never
    evaluate them;
  - a refinancing interval that truncates to zero months. Negative
    intervals are allowed and behave like Python's `%`;
  - a non-positive unit cost while reinvesting, on which the Python
    purchase loop never ends.
- Run.Simulate: requires `Engine.Ready`, for the reasons above.
- LegacyRun.LegacyReady: overrequires. It excludes the inputs on which
  the legacy simulator raises or never ends:
  - a first bond payment that cannot be computed;
  - refinancing with a missing rate or term;
  - buying with a non-positive base price, value or cost, or, when the
    strategy may buy leveraged, a purchase payment that cannot be
    computed. These are required whenever reinvestment is on, even in
    runs that never reach a purchase;
  - yearly growth divided by a zero price.
- Yields.PortfolioYieldsOf: states the ratio facts (rental, net and cash
  on cash) on `Yields.YieldsFromTotals`, which it delegates to, rather than
  in its own contract.
- Operations.MixedLeveragesBelowTarget: states the mixed choice only when
  the targets sum to 1, which the mixed factory enforces. Other targets
  follow the same comparison in `ShouldLeverage`.
- Legacy.MixedLeveragesUpToTarget: states the mixed choice only when the
  targets sum to 1. Nothing in the legacy code enforces this, because its
  factories are not valid Python. For other targets the choice is the
  three-way comparison of `Legacy.LegacyShouldLeverage`, which every
  purchase follows by `Legacy.BuyPropertiesFollowRule`.
- Investment.MonthlyBondPayment: the loan term is a `nat`. Python accepts
  a negative `loan_term_years` (back/core/main.py:54), and a negative term
  gives a negative number of payments (back/core/main.py:164) without
  raising. Negative terms are not modelled.
- Engine.EngineTermYears: for the same reason, the negative terms that
  `loan_term_years or 20` passes through unchanged are not modelled.
- Floating point: money is exact `real`, so IEEE rounding, overflow and
  `nan` are not modelled.
- Fractional powers: `(value / price) ** (1 / years)` in the growth yields
  is the parameter `rpow`. No property of it is assumed, and the
  total-return identities do not depend on it.
- Legacy label text: the legacy `f"{ltv:.0%}_leverage"` label on purchase
  events is a flag recording whether the purchase was leveraged, because
  the legacy code never reads it back.
- `float()` syntax: the label parser accepts an optional minus sign and
  decimal digits, the only text the engine writes. Python's other
  `float()` syntaxes are not modelled.
- `cash_flow_12_months`: the engine never records it, so the portfolio
  cash flow always takes the fallback at `back/core/strategies.py:994-998`.
- `_filter_snapshots_by_frequency`: returns every snapshot unchanged, so
  it is not modelled separately.
- End reasons: the formatted `end_reason` strings are datatype tags that
  carry their numbers.
- `deepcopy`: the copies of the ledger and profile are implicit in value
  semantics.
- Dead branch: the engine's zero-rate payment branch cannot be reached,
  because `rate or 0.105` never yields 0. The profile's own zero-rate
  branch is modelled.
- Root `main` module: the legacy simulator imports it, but it is not part
  of this model. The profile functions of `back/core/main.py` stand in for
  it.
- Legacy factories: the strategy factories of the root `strategies.py`
  are syntactically invalid Python, so they are not modelled. Their
  configurations are the legacy `LegacyConfig` values.
- `_calculate_initial_cash_required`: the engine placeholder that returns
  0 is not modelled; nothing in the modelled core calls it.
- Simulator bookkeeping: the simulator's `total_additional_capital`
  attribute is the portfolio's `injected` field.
- Not modelled (input/output):
  - console reporting (`back/core/reports.py` and the report functions);
  - the demo `main()` in `back/core/main.py`;
  - the HTTP API.
