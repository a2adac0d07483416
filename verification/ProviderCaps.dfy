/**
 When a provider's caps can be relied on (src/api/v1.rs, `budget_for`). A key's own budget
 replaces its provider's instead of adding to it, so what such a key spends is checked
 against nothing but its own caps.
 */
module ProviderCaps {
  import opened Wrappers
  import opened Calendar
  import opened Ledger
  import opened BudgetCaps
  import opened VaultEntries
  import opened Router
  import opened Prices
  import opened Failover
  import opened FailoverBudgets

  /** Whatever the vault holds, the upstream replies and the others do, a request that starts
      within its provider's caps stays within them. */
  ghost predicate CapsSurvive(setting: Setting, budget: Budget) {
    forall world: nat -> Turn, s: Serving, today: Date, n: nat ::
      FairWorld(setting, world, today) && CapsHold(s.rows, setting.provider, None, budget, today) ==>
        CapsHold(After(RoundsOf(setting), world, s, n).s.rows, setting.provider, None, budget, Started(world, today, n))
  }

  /** A cap that no ledger keeps. */
  predicate NegativeCap(b: Budget) {
    (b.monthlyCap.Some? && b.monthlyCap.value < 0.0) || (b.dailyCap.Some? && b.dailyCap.value < 0.0)
  }

  /** The provider has a capped budget and is served; being capped, it does not stream. */
  predicate Budgeted(setting: Setting, budget: Budget) {
    && setting.provider in setting.budgets && setting.budgets[setting.provider] == budget && Capped(budget)
    && setting.provider in setting.config && setting.config[setting.provider].enabled && !setting.request.stream
  }

  // ------------------------------------------------------------------ how they are exceeded

  lemma OneRowUsage(r: Row, provider: string, scope: Option<string>, period: string)
    ensures Usage([r], provider, scope, period) == if Counts(r, provider, scope, period) then r.total else 0.0
  {
  }

  lemma OneRowIsWithin(provider: string, alias: string, budget: Budget, d: Date, month: bool, cap: real)
    requires if month then budget.monthlyCap == Some(cap) else budget.monthlyCap.None? && budget.dailyCap == Some(cap)
    requires cap >= 0.0 && (budget.dailyCap.Some? ==> budget.dailyCap.value >= 0.0)
    ensures CapsHold([Row(provider, alias, if month then MonthText(d) else DayText(d), cap)], provider, None, budget, d)
  {
    var r := Row(provider, alias, if month then MonthText(d) else DayText(d), cap);
    forall o: Date
      ensures Usage([r], provider, None, MonthText(o)) == if month && SameMonth(d, o) then cap else 0.0
      ensures Usage([r], provider, None, DayText(o)) == if !month && d == o then cap else 0.0
    {
      OneRowUsage(r, provider, None, MonthText(o));
      OneRowUsage(r, provider, None, DayText(o));
      MonthTextOrder(d, o);
      DayTextOrder(d, o);
      DayTextOrder(o, d);
    }
  }

  lemma OnlyKeyIsChosen(e: Entry, config: map<string, ProviderConfig>, counter: nat, now: int)
    requires e.provider in config && config[e.provider].enabled && Usable(e, now)
    ensures Select([e], config, counter, e.provider, now).0 == Chosen(e.alias)
  {
    var eligible := Eligible([e], e.provider, now);
    EligibleIsUsable([e], e.provider, now, e);
    forall k | 0 <= k < |eligible|
      ensures eligible[k] == e
    {
      EligibleIsUsable([e], e.provider, now, eligible[k]);
    }
  }

  function Unchanged(rows: seq<Row>): seq<Row> {
    rows
  }

  /** A reply that bills all that the request allows, on one day. */
  function FullBill(setting: Setting, d: Date): Turn {
    Turn(0, 0, d, d, d, true, false, Answer(setting.request.size, CompletionBound(setting.request)),
         Unchanged, Unchanged)
  }

  function OnlyKey(setting: Setting, alias: string, rows: seq<Row>): Serving {
    Serving([Entry(alias, setting.provider, "", 0, true, None, None, None, None)], 0, rows, {}, 503)
  }

  lemma FullBillIsFair(setting: Setting, d: Date)
    ensures Fair(setting, FullBill(setting, d))
  {
  }

  /** A key with an unused budget of its own that has room for the request is charged for it. */
  lemma OwnBudgetIsCharged(setting: Setting, alias: string, rows: seq<Row>, d: Date)
    requires setting.provider in setting.config && setting.config[setting.provider].enabled && !setting.request.stream
    requires KeyScope(setting.provider, alias) in setting.budgets && MostCharged(setting) > 0.0
    requires !LeavesNoRoom(setting.budgets[KeyScope(setting.provider, alias)], MostCharged(setting))
    requires Usage(rows, setting.provider, Some(alias), MonthText(d)) == 0.0
    requires Usage(rows, setting.provider, Some(alias), DayText(d)) == 0.0
    ensures Round(setting, FullBill(setting, d), OnlyKey(setting, alias, rows)).s.rows ==
            Post(rows, Charge(setting.provider, alias, d, MostCharged(setting)))
  {
    OnlyKeyIsChosen(OnlyKey(setting, alias, rows).entries[0], setting.config, 0, 0);
    assert Verdict(setting, rows, alias, d, d).None?;
  }

  /** The provider at its cap, by another key. */
  function Full(provider: string, alias: string, budget: Budget, d: Date): Row
    requires Capped(budget)
  {
    if budget.monthlyCap.Some? then Row(provider, alias + "x", MonthText(d), budget.monthlyCap.value)
    else Row(provider, alias + "x", DayText(d), budget.dailyCap.value)
  }

  lemma FullIsWithin(provider: string, alias: string, budget: Budget, d: Date)
    requires Capped(budget) && !NegativeCap(budget)
    ensures CapsHold([Full(provider, alias, budget, d)], provider, None, budget, d)
    ensures Usage([Full(provider, alias, budget, d)], provider, Some(alias), MonthText(d)) == 0.0
    ensures Usage([Full(provider, alias, budget, d)], provider, Some(alias), DayText(d)) == 0.0
  {
    var r := Full(provider, alias, budget, d);
    OneRowIsWithin(provider, alias + "x", budget, d, budget.monthlyCap.Some?, r.total);
    OneRowUsage(r, provider, Some(alias), MonthText(d));
    OneRowUsage(r, provider, Some(alias), DayText(d));
    assert |alias + "x"| > |alias|;
  }

  lemma FullIsExceeded(provider: string, alias: string, budget: Budget, d: Date, cost: real)
    requires Capped(budget) && cost > 0.0
    ensures !CapsHold(Post([Full(provider, alias, budget, d)], Charge(provider, alias, d, cost)), provider, None, budget, d)
  {
    var r := Full(provider, alias, budget, d);
    OneRowUsage(r, provider, None, r.period);
    PostAdds([r], Charge(provider, alias, d, cost), provider, None, d);
    var after := Post([r], Charge(provider, alias, d, cost));
    assert Usage(after, provider, None, r.period) == r.total + cost;
  }

  lemma OneRoundExceeds(setting: Setting, budget: Budget, alias: string)
    requires Budgeted(setting, budget) && !NegativeCap(budget)
    requires KeyScope(setting.provider, alias) in setting.budgets && MostCharged(setting) > 0.0
    requires !LeavesNoRoom(setting.budgets[KeyScope(setting.provider, alias)], MostCharged(setting))
    ensures !CapsSurvive(setting, budget)
  {
    var d := CivilDate(2000, 1, 1);
    var turn := FullBill(setting, d);
    var world: nat -> Turn := k => turn;
    var s := OnlyKey(setting, alias, [Full(setting.provider, alias, budget, d)]);
    FullBillIsFair(setting, d);
    FullIsWithin(setting.provider, alias, budget, d);
    OwnBudgetIsCharged(setting, alias, s.rows, d);
    FullIsExceeded(setting.provider, alias, budget, d, MostCharged(setting));
    FirstRound(setting, world, s);
    CapsRefuted(setting, budget, world, s, d);
  }

  lemma FirstRound(setting: Setting, world: nat -> Turn, s: Serving)
    ensures After(RoundsOf(setting), world, s, 1) == Round(setting, world(0), s)
  {
    assert After(RoundsOf(setting), world, s, 0) == Again(s);
  }

  lemma CapsRefuted(setting: Setting, budget: Budget, world: nat -> Turn, s: Serving, d: Date)
    requires forall k: nat :: Fair(setting, world(k)) && world(k).month == d && world(k).on == d
    requires CapsHold(s.rows, setting.provider, None, budget, d)
    requires !CapsHold(After(RoundsOf(setting), world, s, 1).s.rows, setting.provider, None, budget, d)
    ensures !CapsSurvive(setting, budget)
  {
    assert FairWorld(setting, world, d);
    assert Started(world, d, 1) == d;
  }

  // ------------------------------------------------------------------ exactly when they hold

  /** A request keeps its provider's caps in every run if and only if no key's own budget lets
      it spend anything. */
  lemma RequestKeepsProviderCapsExactlyWhen(setting: Setting, budget: Budget)
    requires Budgeted(setting, budget) && Sound(setting)
    ensures CapsSurvive(setting, budget) <==> KeysRefuse(setting) || NegativeCap(budget)
  {
    if KeysRefuse(setting) {
      RoundsOfIsTheLoop(setting);
      forall world: nat -> Turn, s: Serving, today: Date, n: nat
        | FairWorld(setting, world, today) && CapsHold(s.rows, setting.provider, None, budget, today)
        ensures CapsHold(After(RoundsOf(setting), world, s, n).s.rows, setting.provider, None, budget,
                         Started(world, today, n))
      {
        RequestKeepsCaps(setting, Limit(setting.provider, None, budget), RoundsOf(setting), world, s, today, n);
      }
    } else if NegativeCap(budget) {
      NothingKeepsNegativeCaps(setting, budget);
    } else {
      var alias :| KeyScope(setting.provider, alias) in setting.budgets
        && !(MostCharged(setting) <= 0.0
             || LeavesNoRoom(setting.budgets[KeyScope(setting.provider, alias)], MostCharged(setting)));
      OneRoundExceeds(setting, budget, alias);
    }
  }

  lemma NothingKeepsNegativeCaps(setting: Setting, budget: Budget)
    requires NegativeCap(budget)
    ensures CapsSurvive(setting, budget)
  {
    forall s: Serving, today: Date
      ensures !CapsHold(s.rows, setting.provider, None, budget, today)
    {
      if NonNegative(s.rows) {
        UsageIsNonNegative(s.rows, setting.provider, None, MonthText(today));
        UsageIsNonNegative(s.rows, setting.provider, None, DayText(today));
      }
    }
  }

  /** The cheapest request that is charged for, where any is. */
  function Cheapest(prices: Option<PriceTable>, least: nat): Request {
    Request(false, true, least, Tokens(if prices.Some? && prices.value.inputPerM == 0.0 then 1 else 0), Absent)
  }

  lemma CheapestIsRefused(setting: Setting, least: nat)
    requires Sound(setting) && least > 0 && KeysRefuse(setting.(request := Cheapest(setting.prices, least)))
    ensures KeysNeverSpend(setting.budgets, setting.provider, setting.prices, least)
  {
    var cheapest := setting.(request := Cheapest(setting.prices, least));
    if !Free(setting.prices) {
      var p := setting.prices.value;
      assert MostCharged(cheapest) == LeastPrice(p, least) by {
        if p.inputPerM == 0.0 {
          assert least as real * p.inputPerM == 0.0;
        }
      }
      assert LeastPrice(p, least) > 0.0 by {
        if p.inputPerM > 0.0 {
          assert least as real * p.inputPerM > 0.0;
        }
      }
    }
  }

  /** A provider's caps hold through every request of at least so many bytes if and only if no
      key of the provider can spend on a budget of its own: the provider costs nothing, or the
      cheapest request is more than each of these budgets. */
  lemma ProviderCapsHoldExactlyWhen(setting: Setting, budget: Budget, least: nat)
    requires Budgeted(setting, budget) && Sound(setting) && least > 0
    ensures (forall r: Request :: r.size >= least && !r.stream ==> CapsSurvive(setting.(request := r), budget))
            <==> KeysNeverSpend(setting.budgets, setting.provider, setting.prices, least) || NegativeCap(budget)
  {
    forall r: Request | r.size >= least && !r.stream
      ensures CapsSurvive(setting.(request := r), budget) <==> KeysRefuse(setting.(request := r)) || NegativeCap(budget)
    {
      RequestKeepsProviderCapsExactlyWhen(setting.(request := r), budget);
    }
    if KeysNeverSpend(setting.budgets, setting.provider, setting.prices, least) {
      forall r: Request | r.size >= least && !r.stream
        ensures KeysRefuse(setting.(request := r))
      {
        NeverSpendMeansRefuse(setting.(request := r), least);
      }
    } else {
      var r := Cheapest(setting.prices, least);
      assert !KeysRefuse(setting.(request := r)) by {
        if KeysRefuse(setting.(request := r)) {
          CheapestIsRefused(setting, least);
        }
      }
      assert r.size >= least && !r.stream;
    }
  }
}
