/**
 Spending caps (src/api/v1.rs, src/db.rs): a request is let through only if its projected
 cost still fits, and it is charged later, possibly in another day or month than the one
 that was checked.
 */
module BudgetCaps {
  import opened Wrappers
  import opened Calendar
  import opened Ledger

  type Budgets = map<string, Budget>

  datatype Governing = Governing(budget: Budget, keyScoped: bool)

  function KeyScope(provider: string, alias: string): string {
    provider + ":" + alias
  }

  /** The budget a request of a key is checked against: its own, else its provider's. */
  function BudgetFor(budgets: Budgets, provider: string, alias: string): Option<Governing> {
    if KeyScope(provider, alias) in budgets then Some(Governing(budgets[KeyScope(provider, alias)], true))
    else if provider in budgets then Some(Governing(budgets[provider], false))
    else None
  }

  predicate Capped(b: Budget) {
    b.monthlyCap.Some? || b.dailyCap.Some?
  }

  /** No month or day of the scope exceeds its cap, and nothing is recorded for the future. */
  ghost predicate CapsHold(rows: seq<Row>, provider: string, scope: Option<string>, budget: Budget, today: Date) {
    && NonNegative(rows)
    && (budget.monthlyCap.Some? ==>
          forall d: Date :: Usage(rows, provider, scope, MonthText(d)) <= budget.monthlyCap.value)
    && (budget.dailyCap.Some? ==>
          forall d: Date :: Usage(rows, provider, scope, DayText(d)) <= budget.dailyCap.value)
    && (forall d: Date :: EarlierMonth(today, d) ==> Usage(rows, provider, scope, MonthText(d)) == 0.0)
    && (forall d: Date :: Before(today, d) ==> Usage(rows, provider, scope, DayText(d)) == 0.0)
  }

  lemma PostIsNonNegative(rows: seq<Row>, c: Charge)
    requires NonNegative(rows) && c.cost >= 0.0
    ensures NonNegative(Post(rows, c))
  {
    UpsertIsNonNegative(rows, c.provider, c.alias, MonthText(c.on), c.cost);
    UpsertIsNonNegative(Upsert(rows, c.provider, c.alias, MonthText(c.on), c.cost), c.provider, c.alias,
                        DayText(c.on), c.cost);
  }

  lemma {:induction false} UpsertIsNonNegative(rows: seq<Row>, p: string, a: string, period: string, cost: real)
    requires NonNegative(rows) && cost >= 0.0
    ensures NonNegative(Upsert(rows, p, a, period, cost))
  {
    if rows != [] && !KeyedBy(rows[0], p, a, period) {
      UpsertIsNonNegative(rows[1..], p, a, period, cost);
    }
  }

  /** A charge whose projected cost passed the check keeps the caps, even when the month or
      the day has changed since the check. */
  lemma CheckedChargeKeepsCaps(rows: seq<Row>, provider: string, scope: Option<string>, budget: Budget,
                               today: Date, month: Date, day: Date, c: Charge, projected: real)
    requires CapsHold(rows, provider, scope, budget, today) && Concerns(c, provider, scope)
    requires NotBefore(month, today) && NotBefore(day, month) && NotBefore(c.on, day)
    requires 0.0 <= c.cost <= projected && WithinBudget(rows, provider, scope, budget, projected, month, day)
    ensures CapsHold(Post(rows, c), provider, scope, budget, c.on)
  {
    PostIsNonNegative(rows, c);
    UsageIsNonNegative(rows, provider, scope, MonthText(month));
    UsageIsNonNegative(rows, provider, scope, DayText(day));
    MonthTextOrder(c.on, month);
    DayTextOrder(c.on, day);
    forall d: Date
      ensures budget.monthlyCap.Some? ==> Usage(Post(rows, c), provider, scope, MonthText(d)) <= budget.monthlyCap.value
      ensures budget.dailyCap.Some? ==> Usage(Post(rows, c), provider, scope, DayText(d)) <= budget.dailyCap.value
      ensures EarlierMonth(c.on, d) ==> Usage(Post(rows, c), provider, scope, MonthText(d)) == 0.0
      ensures Before(c.on, d) ==> Usage(Post(rows, c), provider, scope, DayText(d)) == 0.0
    {
      PostAdds(rows, c, provider, scope, d);
      MonthTextOrder(d, month);
    }
  }

  /** So does a charge of nothing, and one that concerns another provider or key. */
  lemma FreeChargeKeepsCaps(rows: seq<Row>, provider: string, scope: Option<string>, budget: Budget, today: Date,
                            c: Charge)
    requires CapsHold(rows, provider, scope, budget, today) && NotBefore(c.on, today)
    requires c.cost == 0.0 || (c.cost >= 0.0 && !Concerns(c, provider, scope))
    ensures CapsHold(Post(rows, c), provider, scope, budget, c.on)
  {
    PostIsNonNegative(rows, c);
    forall d: Date
      ensures Usage(Post(rows, c), provider, scope, MonthText(d)) == Usage(rows, provider, scope, MonthText(d))
      ensures Usage(Post(rows, c), provider, scope, DayText(d)) == Usage(rows, provider, scope, DayText(d))
    {
      PostAdds(rows, c, provider, scope, d);
    }
  }

  lemma TimeKeepsCaps(rows: seq<Row>, provider: string, scope: Option<string>, budget: Budget, today: Date,
                      later: Date)
    requires CapsHold(rows, provider, scope, budget, today) && NotBefore(later, today)
    ensures CapsHold(rows, provider, scope, budget, later)
  {
  }

  lemma PruningKeepsCaps(rows: seq<Row>, provider: string, scope: Option<string>, budget: Budget, today: Date,
                         cutoff: Date)
    requires CapsHold(rows, provider, scope, budget, today)
    ensures CapsHold(Prune(rows, cutoff), provider, scope, budget, today)
  {
    PruneUsage(rows, cutoff, provider, scope, MonthText(today));
    forall d: Date
      ensures 0.0 <= Usage(Prune(rows, cutoff), provider, scope, MonthText(d)) <= Usage(rows, provider, scope, MonthText(d))
      ensures 0.0 <= Usage(Prune(rows, cutoff), provider, scope, DayText(d)) <= Usage(rows, provider, scope, DayText(d))
    {
      PruneUsage(rows, cutoff, provider, scope, MonthText(d));
      PruneUsage(rows, cutoff, provider, scope, DayText(d));
      UsageIsNonNegative(Prune(rows, cutoff), provider, scope, MonthText(d));
      UsageIsNonNegative(Prune(rows, cutoff), provider, scope, DayText(d));
    }
  }

  lemma KeyScopeIsInjective(provider: string, a: string, b: string)
    ensures KeyScope(provider, a) == KeyScope(provider, b) <==> a == b
  {
    assert KeyScope(provider, a)[|provider| + 1..] == a;
    assert KeyScope(provider, b)[|provider| + 1..] == b;
  }
}
