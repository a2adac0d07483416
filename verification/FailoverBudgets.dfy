/**
 One budgeted request keeps the caps through every key it tries (src/api/v1.rs, src/db.rs),
 as long as nothing else is charged to its provider between a check and the charge that
 follows.
 */
module FailoverBudgets {
  import opened Wrappers
  import opened Calendar
  import opened Ledger
  import opened BudgetCaps
  import opened Router
  import opened Prices
  import opened Failover

  // ------------------------------------------------------------------ what others do

  ghost predicate NoMore(rows: seq<Row>, after: seq<Row>, provider: string) {
    && NonNegative(after)
    && forall alias, period :: Usage(after, provider, alias, period) <= Usage(rows, provider, alias, period)
  }

  /** A change to the ledger that never raises a provider's usage. */
  ghost predicate Harmless(change: seq<Row> -> seq<Row>, provider: string) {
    forall rows :: NonNegative(rows) ==> NoMore(rows, change(rows), provider)
  }

  lemma {:induction false} OtherUpsertIsNoMore(rows: seq<Row>, p: string, a: string, period: string, cost: real,
                                               provider: string)
    requires NonNegative(rows) && cost >= 0.0 && p != provider
    ensures NoMore(rows, Upsert(rows, p, a, period, cost), provider)
  {
    UpsertIsNonNegative(rows, p, a, period, cost);
    forall alias, other
      ensures Usage(Upsert(rows, p, a, period, cost), provider, alias, other) <= Usage(rows, provider, alias, other)
    {
      UpsertAdds(rows, p, a, period, cost, provider, alias, other);
    }
  }

  lemma NoMoreTwice(a: seq<Row>, b: seq<Row>, c: seq<Row>, provider: string)
    requires NoMore(a, b, provider) && NoMore(b, c, provider)
    ensures NoMore(a, c, provider)
  {
  }

  /** A charge of another provider is harmless. */
  lemma OtherChargesAreHarmless(c: Charge, provider: string)
    requires c.provider != provider && c.cost >= 0.0
    ensures Harmless(rows => Post(rows, c), provider)
  {
    var month, day := MonthText(c.on), DayText(c.on);
    forall rows | NonNegative(rows)
      ensures NoMore(rows, Post(rows, c), provider)
    {
      var once := Upsert(rows, c.provider, c.alias, month, c.cost);
      OtherUpsertIsNoMore(rows, c.provider, c.alias, month, c.cost, provider);
      OtherUpsertIsNoMore(once, c.provider, c.alias, day, c.cost, provider);
      NoMoreTwice(rows, once, Post(rows, c), provider);
    }
  }

  /** So is pruning. */
  lemma PruningIsHarmless(cutoff: Date, provider: string)
    ensures Harmless(rows => Prune(rows, cutoff), provider)
  {
    forall rows | NonNegative(rows)
      ensures NoMore(rows, Prune(rows, cutoff), provider)
    {
      PruneUsage(rows, cutoff, provider, None, "");
      forall alias, period
        ensures Usage(Prune(rows, cutoff), provider, alias, period) <= Usage(rows, provider, alias, period)
      {
        PruneUsage(rows, cutoff, provider, alias, period);
      }
    }
  }

  lemma NoMoreKeepsCaps(rows: seq<Row>, after: seq<Row>, provider: string, scope: Option<string>, budget: Budget,
                        today: Date)
    requires CapsHold(rows, provider, scope, budget, today) && NoMore(rows, after, provider)
    ensures CapsHold(after, provider, scope, budget, today)
  {
    forall d: Date
      ensures 0.0 <= Usage(after, provider, scope, MonthText(d)) <= Usage(rows, provider, scope, MonthText(d))
      ensures 0.0 <= Usage(after, provider, scope, DayText(d)) <= Usage(rows, provider, scope, DayText(d))
    {
      UsageIsNonNegative(after, provider, scope, MonthText(d));
      UsageIsNonNegative(after, provider, scope, DayText(d));
    }
  }

  /** A spending limit of a provider, or of one of its keys, and when it is kept. */
  datatype Limit = Limit(provider: string, scope: Option<string>, budget: Budget)

  type Keeping = (seq<Row>, Date) -> bool

  ghost predicate KeepingOf(limit: Limit, kept: Keeping) {
    forall rows, d {:trigger CapsHold(rows, limit.provider, limit.scope, limit.budget, d)} ::
      kept(rows, d) == CapsHold(rows, limit.provider, limit.scope, limit.budget, d)
  }

  lemma KeptOverTime(limit: Limit, kept: Keeping, rows: seq<Row>, d: Date, later: Date)
    requires KeepingOf(limit, kept) && kept(rows, d) && NotBefore(later, d)
    ensures kept(rows, later)
  {
    assert kept(rows, d) == CapsHold(rows, limit.provider, limit.scope, limit.budget, d);
    TimeKeepsCaps(rows, limit.provider, limit.scope, limit.budget, d, later);
  }

  lemma KeptIsNonNegative(limit: Limit, kept: Keeping, rows: seq<Row>, d: Date)
    requires KeepingOf(limit, kept) && kept(rows, d)
    ensures NonNegative(rows)
  {
    assert kept(rows, d) == CapsHold(rows, limit.provider, limit.scope, limit.budget, d);
  }

  lemma KeptByNoMore(limit: Limit, kept: Keeping, rows: seq<Row>, after: seq<Row>, d: Date)
    requires KeepingOf(limit, kept) && kept(rows, d) && NoMore(rows, after, limit.provider)
    ensures kept(after, d)
  {
    assert kept(rows, d) == CapsHold(rows, limit.provider, limit.scope, limit.budget, d);
    NoMoreKeepsCaps(rows, after, limit.provider, limit.scope, limit.budget, d);
  }

  lemma KeptByOthers(limit: Limit, kept: Keeping, rows: seq<Row>, change: seq<Row> -> seq<Row>, d: Date)
    requires KeepingOf(limit, kept) && kept(rows, d) && Harmless(change, limit.provider)
    ensures kept(change(rows), d)
  {
    KeptIsNonNegative(limit, kept, rows, d);
    assert NoMore(rows, change(rows), limit.provider);
    KeptByNoMore(limit, kept, rows, change(rows), d);
  }

  // ------------------------------------------------------------------ what is promised

  /** The most a request can be charged. */
  function MostCharged(setting: Setting): real {
    if setting.prices.Some? then Projected(setting) else 0.0
  }

  /** A budget that refuses even its first request of this price. */
  predicate LeavesNoRoom(b: Budget, price: real) {
    (b.monthlyCap.Some? && b.monthlyCap.value < price) || (b.dailyCap.Some? && b.dailyCap.value < price)
  }

  /** No key's own budget lets the request spend anything. */
  ghost predicate KeysRefuse(setting: Setting) {
    forall alias :: KeyScope(setting.provider, alias) in setting.budgets ==>
                      MostCharged(setting) <= 0.0
                      || LeavesNoRoom(setting.budgets[KeyScope(setting.provider, alias)], MostCharged(setting))
  }

  /** The budget whose caps a scope is promised when a request is served: a key's own, or its
      provider's when none of the provider's keys spends on a budget of its own. */
  ghost predicate Promised(setting: Setting, scope: Option<string>, budget: Budget) {
    match scope
    case Some(alias) =>
      KeyScope(setting.provider, alias) in setting.budgets
      && setting.budgets[KeyScope(setting.provider, alias)] == budget
    case None =>
      setting.provider in setting.budgets && setting.budgets[setting.provider] == budget && KeysRefuse(setting)
  }

  /** The limit is one the budgets promise. */
  ghost predicate Binding(setting: Setting, limit: Limit) {
    limit.provider == setting.provider && Capped(limit.budget) && Promised(setting, limit.scope, limit.budget)
  }

  /** Every capped scope puts its provider's requests behind the gate, which refuses to
      stream. */
  lemma GateCoversCappedScopes(setting: Setting, limit: Limit)
    requires Binding(setting, limit)
    ensures HasUsdBudget(setting.budgets, setting.provider)
  {
  }

  // ------------------------------------------------------------------ all requests

  /** The least that a request of so many bytes or more can be projected to cost, if anything. */
  function LeastPrice(prices: PriceTable, least: nat): real {
    if prices.inputPerM > 0.0 then EstimateCost(prices, least, 0) else EstimateCost(prices, 0, 1)
  }

  predicate Free(prices: Option<PriceTable>) {
    prices.Some? ==> prices.value.inputPerM == 0.0 && prices.value.outputPerM == 0.0
  }

  /** No key's own budget lets any request of so many bytes or more spend anything: nothing
      is charged for, or the smallest price exceeds each of these budgets. */
  ghost predicate KeysNeverSpend(budgets: Budgets, provider: string, prices: Option<PriceTable>, least: nat) {
    forall alias :: KeyScope(provider, alias) in budgets ==>
                      Free(prices) || LeavesNoRoom(budgets[KeyScope(provider, alias)], LeastPrice(prices.value, least))
  }

  lemma SmallestPrice(prices: PriceTable, prompt: nat, completion: nat, least: nat)
    requires prices.inputPerM >= 0.0 && prices.outputPerM >= 0.0 && least <= prompt
    ensures EstimateCost(prices, prompt, completion) <= 0.0
            || EstimateCost(prices, prompt, completion) >= LeastPrice(prices, least)
  {
    if prices.inputPerM > 0.0 {
      CostIsMonotone(prices, least, 0, prompt, completion);
    } else if completion > 0 {
      CostIsMonotone(prices, 0, 1, prompt, completion);
    }
  }

  lemma NeverSpendMeansRefuse(setting: Setting, least: nat)
    requires Sound(setting) && setting.request.size >= least
    requires KeysNeverSpend(setting.budgets, setting.provider, setting.prices, least)
    ensures KeysRefuse(setting)
  {
    if setting.prices.Some? {
      SmallestPrice(setting.prices.value, setting.request.size, CompletionBound(setting.request), least);
    }
  }

  // ------------------------------------------------------------------ one round

  predicate Sound(setting: Setting) {
    setting.prices.Some? ==> setting.prices.value.inputPerM >= 0.0 && setting.prices.value.outputPerM >= 0.0
  }

  /** What the upstream bills costs no more than was projected. */
  predicate BillsWithin(setting: Setting, reply: Reply) {
    reply.Answer? ==> CostOf(setting.prices, reply.prompt, reply.completion) <= MostCharged(setting)
  }

  /** A turn whose clock does not go back and whose upstream bills within the projection. */
  ghost predicate Fair(setting: Setting, turn: Turn) {
    && Harmless(turn.before, setting.provider) && Harmless(turn.during, setting.provider)
    && NotBefore(turn.day, turn.month) && NotBefore(turn.on, turn.day)
    && BillsWithin(setting, turn.reply)
  }

  /** The key's charge fits: it does not count towards the scope, it is nothing, or there is
      room for it. */
  predicate Fits(setting: Setting, rows: seq<Row>, alias: string, limit: Limit, month: Date, day: Date) {
    (limit.scope.Some? && limit.scope.value != alias)
    || MostCharged(setting) <= 0.0
    || WithinBudget(rows, setting.provider, limit.scope, limit.budget, MostCharged(setting), month, day)
  }

  lemma VerdictMeansFits(setting: Setting, rows: seq<Row>, alias: string, limit: Limit, month: Date, day: Date)
    requires Binding(setting, limit) && Verdict(setting, rows, alias, month, day).None? && NonNegative(rows)
    ensures Fits(setting, rows, alias, limit, month, day)
  {
    UsageIsNonNegative(rows, setting.provider, Some(alias), MonthText(month));
    UsageIsNonNegative(rows, setting.provider, Some(alias), DayText(day));
  }

  lemma FitsStays(setting: Setting, rows: seq<Row>, after: seq<Row>, alias: string, limit: Limit, month: Date,
                  day: Date)
    requires Fits(setting, rows, alias, limit, month, day) && NoMore(rows, after, setting.provider)
    ensures Fits(setting, after, alias, limit, month, day)
  {
  }

  lemma CostsAreNonNegative(setting: Setting, prompt: int, completion: int)
    requires Sound(setting)
    ensures CostOf(setting.prices, prompt, completion) >= 0.0
  {
    if setting.prices.Some? {
      CostIsMonotone(setting.prices.value, Clamp(prompt), Clamp(completion), Clamp(prompt), Clamp(completion));
    }
  }

  /** The upstream bills no more tokens than the request has bytes and asked for. */
  predicate TokensWithin(request: Request, reply: Reply) {
    reply.Answer? ==> reply.prompt <= request.size && reply.completion <= CompletionBound(request)
  }

  /** Which is enough for the cost to be within the projection. */
  lemma CostIsProjected(setting: Setting, reply: Reply)
    requires Sound(setting) && TokensWithin(setting.request, reply) && reply.Answer?
    ensures BillsWithin(setting, reply)
    ensures 0.0 <= CostOf(setting.prices, reply.prompt, reply.completion) <= MostCharged(setting)
  {
    if setting.prices.Some? {
      CostIsMonotone(setting.prices.value, Clamp(reply.prompt), Clamp(reply.completion),
                     setting.request.size, CompletionBound(setting.request));
    }
  }

  /** Logging a reply that was allowed for keeps the limit. */
  lemma LogKeeps(setting: Setting, limit: Limit, kept: Keeping, turn: Turn, rows: seq<Row>, alias: string,
                 month: Date, day: Date, today: Date, cost: real)
    requires KeepingOf(limit, kept) && kept(rows, today) && limit.provider == setting.provider
    requires NotBefore(month, today) && NotBefore(day, month) && NotBefore(turn.on, day)
    requires Fits(setting, rows, alias, limit, month, day)
    requires cost == 0.0 || 0.0 <= cost <= MostCharged(setting)
    ensures kept(Logged(rows, turn, setting.provider, alias, cost), turn.on)
  {
    var c := Charge(setting.provider, alias, turn.on, cost);
    KeptOverTime(limit, kept, rows, today, turn.on);
    if turn.logged {
      assert kept(rows, today) == CapsHold(rows, limit.provider, limit.scope, limit.budget, today);
      if cost == 0.0 || !Concerns(c, setting.provider, limit.scope) {
        FreeChargeKeepsCaps(rows, setting.provider, limit.scope, limit.budget, today, c);
      } else {
        CheckedChargeKeepsCaps(rows, setting.provider, limit.scope, limit.budget, today, month, day, c,
                               MostCharged(setting));
      }
    }
  }

  /** What a reply is settled for: its cost if it is an answer that is not streamed. */
  function SettledCost(setting: Setting, turn: Turn): real {
    if turn.reply.Answer? && !setting.request.stream
    then CostOf(setting.prices, turn.reply.prompt, turn.reply.completion) else 0.0
  }

  /** Every attempt that was answered or failed is charged to its own key, once, on the day it
      is logged: an answer at its price, a failure at nothing. */
  lemma AttemptsAreCharged(setting: Setting, turn: Turn, s: Serving, alias: string, scope: Option<string>, d: Date)
    requires turn.logged && !setting.request.stream && !turn.reply.Unreadable?
    ensures var c := Charge(setting.provider, alias, turn.on, SettledCost(setting, turn));
            var after := Settle(setting, turn, s, alias).s.rows;
            && Usage(after, setting.provider, scope, MonthText(d)) ==
               Usage(s.rows, setting.provider, scope, MonthText(d))
               + (if Concerns(c, setting.provider, scope) && SameMonth(turn.on, d) then c.cost else 0.0)
            && Usage(after, setting.provider, scope, DayText(d)) ==
               Usage(s.rows, setting.provider, scope, DayText(d))
               + (if Concerns(c, setting.provider, scope) && turn.on == d then c.cost else 0.0)
  {
    var c := Charge(setting.provider, alias, turn.on, SettledCost(setting, turn));
    assert Settle(setting, turn, s, alias).s.rows == Post(s.rows, c);
    PostAdds(s.rows, c, setting.provider, scope, d);
  }

  lemma SettleLogs(setting: Setting, turn: Turn, s: Serving, alias: string)
    ensures Settle(setting, turn, s, alias).s.rows == s.rows
            || Settle(setting, turn, s, alias).s.rows ==
               Logged(s.rows, turn, setting.provider, alias, SettledCost(setting, turn))
  {
  }

  lemma SettleKeeps(setting: Setting, limit: Limit, kept: Keeping, turn: Turn, s: Serving, alias: string, today: Date)
    requires KeepingOf(limit, kept) && kept(s.rows, today) && limit.provider == setting.provider
    requires NotBefore(turn.month, today) && Fair(setting, turn) && Sound(setting)
    requires Fits(setting, s.rows, alias, limit, turn.month, turn.day)
    ensures kept(Settle(setting, turn, s, alias).s.rows, turn.on)
  {
    SettleLogs(setting, turn, s, alias);
    if turn.reply.Answer? {
      CostsAreNonNegative(setting, turn.reply.prompt, turn.reply.completion);
    }
    KeptOverTime(limit, kept, s.rows, today, turn.on);
    LogKeeps(setting, limit, kept, turn, s.rows, alias, turn.month, turn.day, today, SettledCost(setting, turn));
  }

  lemma AdmittedKeeps(setting: Setting, limit: Limit, kept: Keeping, turn: Turn, rows: seq<Row>, t: Serving,
                      alias: string,
                      today: Date)
    requires KeepingOf(limit, kept) && kept(rows, today) && limit.provider == setting.provider
    requires NotBefore(turn.month, today) && Fair(setting, turn) && Sound(setting)
    requires Fits(setting, rows, alias, limit, turn.month, turn.day) && t.rows == turn.during(rows)
    ensures kept(Settle(setting, turn, t, alias).s.rows, turn.on)
  {
    KeptByOthers(limit, kept, rows, turn.during, today);
    KeptIsNonNegative(limit, kept, rows, today);
    assert NoMore(rows, turn.during(rows), setting.provider);
    FitsStays(setting, rows, turn.during(rows), alias, limit, turn.month, turn.day);
    SettleKeeps(setting, limit, kept, turn, t, alias, today);
  }

  lemma AdmittedFits(setting: Setting, limit: Limit, kept: Keeping, turn: Turn, rows: seq<Row>, alias: string,
                     today: Date)
    requires KeepingOf(limit, kept) && kept(rows, today) && Binding(setting, limit)
    requires Verdict(setting, rows, alias, turn.month, turn.day).None?
    ensures Fits(setting, rows, alias, limit, turn.month, turn.day)
  {
    KeptIsNonNegative(limit, kept, rows, today);
    VerdictMeansFits(setting, rows, alias, limit, turn.month, turn.day);
  }

  lemma TryKeeps(setting: Setting, limit: Limit, kept: Keeping, turn: Turn, s: Serving, alias: string, today: Date)
    requires KeepingOf(limit, kept) && kept(s.rows, today) && Binding(setting, limit)
    requires NotBefore(turn.month, today) && Fair(setting, turn) && Sound(setting)
    ensures kept(Try(setting, turn, s, alias).s.rows, turn.on)
  {
    KeptOverTime(limit, kept, s.rows, today, turn.on);
    if Verdict(setting, s.rows, alias, turn.month, turn.day).None? {
      AdmittedFits(setting, limit, kept, turn, s.rows, alias, today);
      AdmittedKeeps(setting, limit, kept, turn, s.rows,
                    s.(attempted := s.attempted + {alias}, rows := turn.during(s.rows)), alias, today);
    }
  }

  lemma RoundIsATry(setting: Setting, turn: Turn, s: Serving) returns (t: Serving, alias: string)
    ensures t.rows == turn.before(s.rows)
    ensures Round(setting, turn, s).s.rows == t.rows || Round(setting, turn, s) == Try(setting, turn, t, alias)
  {
    var (choice, moves) := Select(s.entries, setting.config, s.counter, setting.provider, turn.at);
    t := s.(rows := turn.before(s.rows), counter := if moves then Advanced(s.counter) else s.counter);
    alias := if choice.Chosen? then choice.alias else "";
  }

  lemma TriedRoundKeeps(setting: Setting, limit: Limit, kept: Keeping, turn: Turn, rows: seq<Row>, t: Serving,
                        alias: string,
                        after: seq<Row>, today: Date)
    requires KeepingOf(limit, kept) && kept(rows, today) && Binding(setting, limit)
    requires NotBefore(turn.month, today) && Fair(setting, turn) && Sound(setting)
    requires t.rows == turn.before(rows) && (after == t.rows || after == Try(setting, turn, t, alias).s.rows)
    ensures kept(after, turn.on)
  {
    KeptByOthers(limit, kept, rows, turn.before, today);
    KeptOverTime(limit, kept, t.rows, today, turn.on);
    TryKeeps(setting, limit, kept, turn, t, alias, today);
  }

  lemma RoundKeeps(setting: Setting, limit: Limit, kept: Keeping, turn: Turn, s: Serving, today: Date)
    requires KeepingOf(limit, kept) && kept(s.rows, today) && Binding(setting, limit)
    requires NotBefore(turn.month, today) && Fair(setting, turn) && Sound(setting)
    ensures kept(Round(setting, turn, s).s.rows, turn.on)
  {
    var t, alias := RoundIsATry(setting, turn, s);
    TriedRoundKeeps(setting, limit, kept, turn, s.rows, t, alias, Round(setting, turn, s).s.rows, today);
  }

  // ------------------------------------------------------------------ whole requests

  /** The latest date before a round. */
  function Started(world: nat -> Turn, today: Date, n: nat): Date {
    if n == 0 then today else world(n - 1).on
  }

  ghost predicate FairWorld(setting: Setting, world: nat -> Turn, today: Date) {
    forall n: nat :: Fair(setting, world(n)) && NotBefore(world(n).month, Started(world, today, n))
  }

  lemma FairThroughout(setting: Setting, world: nat -> Turn, today: Date, n: nat)
    requires FairWorld(setting, world, today)
    ensures Fair(setting, world(n)) && NotBefore(world(n).month, Started(world, today, n))
  {
  }

  /** A round, and the passing of time, keep a limit. */
  ghost predicate RoundKeepsAt(kept: Keeping, round: Rounds, world: nat -> Turn, today: Date, k: nat) {
    forall t: Serving :: kept(t.rows, Started(world, today, k)) ==>
                           kept(t.rows, world(k).on) && kept(round(world(k), t).s.rows, world(k).on)
  }

  lemma KeptByRound(kept: Keeping, round: Rounds, world: nat -> Turn, today: Date, k: nat, t: Serving)
    requires RoundKeepsAt(kept, round, world, today, k) && kept(t.rows, Started(world, today, k))
    ensures kept(t.rows, world(k).on) && kept(round(world(k), t).s.rows, world(k).on)
  {
  }

  /** What every round keeps, the loop keeps. */
  lemma {:induction false} LoopKeeps(kept: Keeping, round: Rounds, world: nat -> Turn, s: Serving, today: Date,
                                     n: nat)
    requires kept(s.rows, today) && forall k: nat :: RoundKeepsAt(kept, round, world, today, k)
    ensures kept(After(round, world, s, n).s.rows, Started(world, today, n))
  {
    if n > 0 {
      LoopKeeps(kept, round, world, s, today, n - 1);
      KeptByRound(kept, round, world, today, n - 1, After(round, world, s, n - 1).s);
    }
  }

  lemma OneMoreRound(setting: Setting, limit: Limit, kept: Keeping, round: Rounds, turn: Turn, s: Serving,
                     today: Date)
    requires LoopOf(setting, round)
    requires KeepingOf(limit, kept) && kept(s.rows, today) && Binding(setting, limit)
    requires NotBefore(turn.month, today) && Fair(setting, turn) && Sound(setting)
    ensures kept(round(turn, s).s.rows, turn.on)
  {
    assert round(turn, s) == Round(setting, turn, s);
    RoundKeeps(setting, limit, kept, turn, s, today);
  }

  lemma EachRoundKeeps(setting: Setting, limit: Limit, kept: Keeping, round: Rounds, world: nat -> Turn, today: Date,
                       k: nat, t: Serving)
    requires LoopOf(setting, round) && KeepingOf(limit, kept) && Binding(setting, limit) && Sound(setting)
    requires FairWorld(setting, world, today) && kept(t.rows, Started(world, today, k))
    ensures kept(t.rows, world(k).on) && kept(round(world(k), t).s.rows, world(k).on)
  {
    FairThroughout(setting, world, today, k);
    KeptOverTime(limit, kept, t.rows, Started(world, today, k), world(k).on);
    OneMoreRound(setting, limit, kept, round, world(k), t, Started(world, today, k));
  }

  lemma RequestKeeps(setting: Setting, limit: Limit, kept: Keeping, round: Rounds, world: nat -> Turn, s: Serving,
                     today: Date, n: nat)
    requires LoopOf(setting, round) && KeepingOf(limit, kept) && Binding(setting, limit) && Sound(setting)
    requires FairWorld(setting, world, today) && kept(s.rows, today)
    ensures kept(After(round, world, s, n).s.rows, Started(world, today, n))
  {
    forall k: nat
      ensures RoundKeepsAt(kept, round, world, today, k)
    {
      forall t: Serving | kept(t.rows, Started(world, today, k))
        ensures kept(t.rows, world(k).on) && kept(round(world(k), t).s.rows, world(k).on)
      {
        EachRoundKeeps(setting, limit, kept, round, world, today, k, t);
      }
    }
    LoopKeeps(kept, round, world, s, today, n);
  }

  /** However many keys a request of a budgeted provider tries, whatever the upstream replies
      and whenever the day or the month ends, no cap is exceeded. */
  lemma RequestKeepsCaps(setting: Setting, limit: Limit, round: Rounds, world: nat -> Turn, s: Serving,
                         today: Date, n: nat)
    requires LoopOf(setting, round) && Binding(setting, limit) && Sound(setting) && FairWorld(setting, world, today)
    requires CapsHold(s.rows, limit.provider, limit.scope, limit.budget, today)
    ensures CapsHold(After(round, world, s, n).s.rows, limit.provider, limit.scope, limit.budget, Started(world, today, n))
  {
    ghost var kept: Keeping := (rows: seq<Row>, d: Date) => CapsHold(rows, limit.provider, limit.scope, limit.budget, d);
    RequestKeeps(setting, limit, kept, round, world, s, today, n);
  }
}
