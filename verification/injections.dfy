/** Capital injections of the always-monthly engine: when a rule fires in a
    month (`_should_inject_capital`) and how the firing rules of one month are
    credited (`_apply_additional_capital_injections`). */
module Injections {
  import opened Wrappers
  import opened Sums
  import opened Config

  /** The month gap between firings of a recurring cadence. */
  function Interval(c: Cadence): (n: nat)
    requires c != OneTime
    ensures n >= 1
  {
    match c
    case Monthly => 1
    case Quarterly => 3
    case Yearly => 12
    case FiveYearly => 60
  }

  /** The end bound only applies when truthy: `None` and 0 mean unbounded. */
  predicate HasEnd(rule: InjectionRule) {
    rule.end.Some? && rule.end.value != 0
  }

  predicate InWindow(rule: InjectionRule, p: int) {
    p >= rule.start && !(HasEnd(rule) && p > rule.end.value)
  }

  /** A non-empty explicit list of one-time periods. */
  predicate HasListedPeriods(rule: InjectionRule) {
    rule.periods.Some? && |rule.periods.value| > 0
  }

  /** `_should_inject_capital` for month `p`. */
  function Fires(rule: InjectionRule, p: int): bool {
    if p < rule.start then false
    else if HasEnd(rule) && p > rule.end.value then false
    else
      match rule.cadence
      case OneTime =>
        if HasListedPeriods(rule) then p in rule.periods.value else p == rule.start
      case Monthly => true
      case Quarterly => (p - rule.start) % 3 == 0
      case Yearly => (p - rule.start) % 12 == 0
      case FiveYearly => (p - rule.start) % 60 == 0
  }

  /** Nothing fires outside the window. */
  lemma FiresOnlyInWindow(rule: InjectionRule, p: int)
    ensures Fires(rule, p) ==> InWindow(rule, p)
  {
  }

  /** A recurring rule fires in the in-window months a whole number of
      intervals after its start. */
  lemma RecurringFires(rule: InjectionRule, p: int)
    requires rule.cadence != OneTime
    ensures Fires(rule, p) <==> InWindow(rule, p) && (p - rule.start) % Interval(rule.cadence) == 0
  {
  }

  /** `k` whole intervals and `j` more months leave remainder `j`. */
  lemma RemainderAfterIntervals(c: Cadence, k: nat, j: int)
    requires c != OneTime && 0 <= j < Interval(c)
    ensures (k * Interval(c) + j) % Interval(c) == j
  {
    match c
    case Monthly => assert k * Interval(c) + j == k;
    case Quarterly => assert k * Interval(c) + j == k * 3 + j;
    case Yearly => assert k * Interval(c) + j == k * 12 + j;
    case FiveYearly => assert k * Interval(c) + j == k * 60 + j;
  }

  /** A recurring rule fires exactly at start, start + I, start + 2I, ... while
      inside the window, and at no month in between. */
  lemma RecurringFiringMonths(rule: InjectionRule, k: nat, j: int)
    requires rule.cadence != OneTime
    requires 0 <= j < Interval(rule.cadence)
    ensures Fires(rule, rule.start + k * Interval(rule.cadence) + j)
       <==> j == 0 && InWindow(rule, rule.start + k * Interval(rule.cadence))
  {
    var m := k * Interval(rule.cadence);
    RecurringFires(rule, rule.start + m + j);
    RemainderAfterIntervals(rule.cadence, k, j);
    assert rule.start + m + j - rule.start == m + j;
  }

  /** A monthly rule fires in every in-window month. */
  lemma MonthlyFiresInWindow(rule: InjectionRule, p: int)
    requires rule.cadence == Monthly
    ensures Fires(rule, p) <==> InWindow(rule, p)
  {
  }

  /** A one-time rule with listed periods fires exactly at the listed months
      that lie in the window. */
  lemma OneTimeListedFiring(rule: InjectionRule, p: int)
    requires rule.cadence == OneTime && HasListedPeriods(rule)
    ensures Fires(rule, p) <==> InWindow(rule, p) && p in rule.periods.value
  {
  }

  /** Without a list a one-time rule fires in at most one month, the start. */
  lemma OneTimeFiresOnce(rule: InjectionRule, p: int, q: int)
    requires rule.cadence == OneTime && !HasListedPeriods(rule)
    requires Fires(rule, p) && Fires(rule, q)
    ensures p == q == rule.start
  {
  }

  datatype InjectionEvent = InjectionEvent(amount: real, source: Cadence, totalToDate: real)

  datatype InjectionOutcome = InjectionOutcome(cash: real, injected: real, events: seq<InjectionEvent>)

  /** The rules firing in month `p`, in list order. */
  function FiringRules(rules: seq<InjectionRule>, p: int): (r: seq<InjectionRule>)
    ensures |r| == CountIf(rules, rule => Fires(rule, p))
    ensures forall i :: 0 <= i < |r| ==> Fires(r[i], p) && r[i] in rules
    decreases |rules|
  {
    if |rules| == 0 then []
    else if Fires(rules[0], p) then [rules[0]] + FiringRules(rules[1..], p)
    else FiringRules(rules[1..], p)
  }

  function RuleAmount(rule: InjectionRule): real {
    rule.amount
  }

  /** The total credited in month `p`. */
  function FiredTotal(rules: seq<InjectionRule>, p: int): real {
    SumBy(FiringRules(rules, p), RuleAmount)
  }

  /** Event j records rule j's amount and cadence and the counter after the
      first j + 1 rules, counting from `injected`. */
  predicate RunningTotals(events: seq<InjectionEvent>, fired: seq<InjectionRule>, injected: real) {
    && |events| == |fired|
    && forall j :: 0 <= j < |events| ==>
         && events[j].amount == fired[j].amount
         && events[j].source == fired[j].cadence
         && events[j].totalToDate == injected + SumBy(fired[..j + 1], RuleAmount)
  }

  /** The event of a firing rule ahead of the events of the later rules. */
  lemma ConsEvents(rule: InjectionRule, later: seq<InjectionRule>, laterEvents: seq<InjectionEvent>,
                   injected: real)
    requires RunningTotals(laterEvents, later, injected + rule.amount)
    ensures RunningTotals([InjectionEvent(rule.amount, rule.cadence, injected + rule.amount)] + laterEvents,
                          [rule] + later, injected)
  {
    var events := [InjectionEvent(rule.amount, rule.cadence, injected + rule.amount)] + laterEvents;
    var rules := [rule] + later;
    forall j | 0 <= j < |events|
      ensures events[j].totalToDate == injected + SumBy(rules[..j + 1], RuleAmount)
    {
      assert rules[..j + 1][0] == rule;
      assert rules[..j + 1][1..] == later[..j];
      if j > 0 {
        assert events[j] == laterEvents[j - 1];
        assert later[..j] == later[..(j - 1) + 1];
      }
    }
  }

  /** `_apply_additional_capital_injections`: each firing rule, in order, adds
      its amount to cash and to the cumulative counter and emits one event. */
  function ApplyInjections(rules: seq<InjectionRule>, p: int, cash: real, injected: real)
    : InjectionOutcome
    decreases |rules|
  {
    if |rules| == 0 then InjectionOutcome(cash, injected, [])
    else
      var rule := rules[0];
      if Fires(rule, p) then
        var rest := ApplyInjections(rules[1..], p, cash + rule.amount, injected + rule.amount);
        InjectionOutcome(rest.cash, rest.injected,
                         [InjectionEvent(rule.amount, rule.cadence, injected + rule.amount)] + rest.events)
      else
        ApplyInjections(rules[1..], p, cash, injected)
  }

  /** Cash and the cumulative counter both rise by exactly the total of the
      firing rules, and there is one event per firing rule. */
  lemma {:induction false} InjectionAccounting(rules: seq<InjectionRule>, p: int, cash: real, injected: real)
    ensures var r := ApplyInjections(rules, p, cash, injected);
      && r.cash - cash == FiredTotal(rules, p)
      && r.injected - injected == FiredTotal(rules, p)
      && |r.events| == |FiringRules(rules, p)|
    decreases |rules|
  {
    if |rules| > 0 {
      var rule := rules[0];
      var later := FiringRules(rules[1..], p);
      if Fires(rule, p) {
        InjectionAccounting(rules[1..], p, cash + rule.amount, injected + rule.amount);
        var fired := FiringRules(rules, p);
        assert fired == [rule] + later;
        assert fired[1..] == later;
        assert FiredTotal(rules, p) == rule.amount + FiredTotal(rules[1..], p);
      } else {
        InjectionAccounting(rules[1..], p, cash, injected);
        assert FiringRules(rules, p) == later;
        assert ApplyInjections(rules, p, cash, injected) == ApplyInjections(rules[1..], p, cash, injected);
      }
    }
  }

  /** Event j is the j-th firing rule, and its running total is the counter
      after that rule's addition. */
  lemma {:induction false} InjectionEventsRunningTotals(rules: seq<InjectionRule>, p: int,
                                                        cash: real, injected: real)
    ensures RunningTotals(ApplyInjections(rules, p, cash, injected).events, FiringRules(rules, p), injected)
    decreases |rules|
  {
    if |rules| > 0 {
      var rule := rules[0];
      if Fires(rule, p) {
        InjectionEventsRunningTotals(rules[1..], p, cash + rule.amount, injected + rule.amount);
        var rest := ApplyInjections(rules[1..], p, cash + rule.amount, injected + rule.amount);
        ConsEvents(rule, FiringRules(rules[1..], p), rest.events, injected);
        assert FiringRules(rules, p) == [rule] + FiringRules(rules[1..], p);
      } else {
        InjectionEventsRunningTotals(rules[1..], p, cash, injected);
      }
    }
  }

  /** The last event carries the final cumulative counter. */
  lemma LastEventTotal(rules: seq<InjectionRule>, p: int, cash: real, injected: real)
    ensures var r := ApplyInjections(rules, p, cash, injected);
      |r.events| > 0 ==> r.events[|r.events| - 1].totalToDate == r.injected
  {
    var r := ApplyInjections(rules, p, cash, injected);
    var fired := FiringRules(rules, p);
    InjectionAccounting(rules, p, cash, injected);
    InjectionEventsRunningTotals(rules, p, cash, injected);
    if |r.events| > 0 {
      assert fired[..|r.events|] == fired;
    }
  }

  lemma ConcatAssoc<T>(x: seq<T>, y: seq<T>, z: seq<T>)
    ensures x + (y + z) == (x + y) + z
  {
  }

  /** One step of `ApplyInjections`: the head rule, then the rest. */
  lemma ApplyInjectionsUnfold(rules: seq<InjectionRule>, p: int, cash: real, injected: real)
    requires |rules| > 0
    ensures var d := if Fires(rules[0], p) then rules[0].amount else 0.0;
            var rest := ApplyInjections(rules[1..], p, cash + d, injected + d);
            ApplyInjections(rules, p, cash, injected)
              == InjectionOutcome(rest.cash, rest.injected,
                   (if Fires(rules[0], p)
                    then [InjectionEvent(rules[0].amount, rules[0].cadence, injected + rules[0].amount)]
                    else []) + rest.events)
  {
    if !Fires(rules[0], p) {
      var rest := ApplyInjections(rules[1..], p, cash, injected);
      assert [] + rest.events == rest.events;
    }
  }

  /** Rules are independent: applying a list that is the concatenation of two
      lists is applying the first, then the second from where it left off. */
  lemma {:induction false} InjectionsAreAdditive(first: seq<InjectionRule>, second: seq<InjectionRule>,
                                                 p: int, cash: real, injected: real)
    ensures var a := ApplyInjections(first, p, cash, injected);
            var b := ApplyInjections(second, p, a.cash, a.injected);
            ApplyInjections(first + second, p, cash, injected)
              == InjectionOutcome(b.cash, b.injected, a.events + b.events)
    decreases |first|, 1
  {
    if |first| > 0 {
      var rule := first[0];
      assert (first + second)[0] == rule;
      assert (first + second)[1..] == first[1..] + second;
      ApplyInjectionsUnfold(first, p, cash, injected);
      ApplyInjectionsUnfold(first + second, p, cash, injected);
      if Fires(rule, p) {
        AdditiveStep(first, second, p, cash, injected, rule.amount,
                     [InjectionEvent(rule.amount, rule.cadence, injected + rule.amount)]);
      } else {
        AdditiveStep(first, second, p, cash, injected, 0.0, []);
      }
    } else {
      assert first + second == second;
    }
  }

  /** The inductive step of `InjectionsAreAdditive`, for a head rule that
      adds `d` and emits `e`. */
  lemma AdditiveStep(first: seq<InjectionRule>, second: seq<InjectionRule>, p: int,
                     cash: real, injected: real, d: real, e: seq<InjectionEvent>)
    requires |first| > 0
    requires (first + second)[1..] == first[1..] + second
    requires var a' := ApplyInjections(first[1..], p, cash + d, injected + d);
             ApplyInjections(first, p, cash, injected) == InjectionOutcome(a'.cash, a'.injected, e + a'.events)
    requires var w := ApplyInjections((first + second)[1..], p, cash + d, injected + d);
             ApplyInjections(first + second, p, cash, injected) == InjectionOutcome(w.cash, w.injected, e + w.events)
    ensures var a := ApplyInjections(first, p, cash, injected);
            var b := ApplyInjections(second, p, a.cash, a.injected);
            ApplyInjections(first + second, p, cash, injected)
              == InjectionOutcome(b.cash, b.injected, a.events + b.events)
    decreases |first|, 0
  {
    var a' := ApplyInjections(first[1..], p, cash + d, injected + d);
    var b := ApplyInjections(second, p, a'.cash, a'.injected);
    InjectionsAreAdditive(first[1..], second, p, cash + d, injected + d);
    ConcatAssoc(e, a'.events, b.events);
  }
}
