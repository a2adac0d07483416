/**
 The gateway as it runs (src/api/v1.rs, `proxy`): the loop over the router, the vault's keys
 and the ledger, updated in place. Each method is proved to do what the rounds of the
 failover loop say.
 */
module Gateway {
  import opened Wrappers
  import opened Calendar
  import opened Ledger
  import opened BudgetCaps
  import opened VaultEntries
  import opened Router
  import opened Prices
  import opened Failover
  import opened FailoverGuarantees

  function NextOf(outcome: Option<Outcome>, s: Serving): Next {
    if outcome.Some? then Done(outcome.value, s) else Again(s)
  }

  /** The usage of a month and of a day has changed by what the charge adds to it. */
  predicate BookedAt(before: seq<Row>, after: seq<Row>, c: Charge, provider: string, alias: Option<string>, d: Date) {
    && Usage(after, provider, alias, MonthText(d)) ==
       Usage(before, provider, alias, MonthText(d))
       + (if Concerns(c, provider, alias) && SameMonth(c.on, d) then c.cost else 0.0)
    && Usage(after, provider, alias, DayText(d)) ==
       Usage(before, provider, alias, DayText(d)) + (if Concerns(c, provider, alias) && c.on == d then c.cost else 0.0)
  }

  ghost predicate Booked(before: seq<Row>, after: seq<Row>, c: Charge) {
    forall provider, alias, d: Date :: BookedAt(before, after, c, provider, alias, d)
  }

  lemma PostBooks(rows: seq<Row>, c: Charge)
    ensures Booked(rows, Post(rows, c), c)
  {
    forall provider, alias, d: Date
      ensures BookedAt(rows, Post(rows, c), c, provider, alias, d)
    {
      PostAdds(rows, c, provider, alias, d);
    }
  }

  // ------------------------------------------------------------------ what a budget says

  /** A key spends on its own budget, or else on its provider's. */
  predicate Governs(budgets: Budgets, provider: string, alias: string, scope: Option<string>, budget: Budget) {
    if provider + ":" + alias in budgets then scope == Some(alias) && budget == budgets[provider + ":" + alias]
    else scope == None && provider in budgets && budget == budgets[provider]
  }

  /** What has been spent in the month and on the day leaves room for the request's bytes and
      the tokens it asks for, at their prices. */
  predicate HasRoom(setting: Setting, prices: PriceTable, rows: seq<Row>, scope: Option<string>, budget: Budget,
                    turn: Turn, asked: nat)
  {
    var price := EstimateCost(prices, setting.request.size, asked);
    && (budget.monthlyCap.Some? ==>
          Usage(rows, setting.provider, scope, MonthText(turn.month)) + price <= budget.monthlyCap.value)
    && (budget.dailyCap.Some? ==>
          Usage(rows, setting.provider, scope, DayText(turn.day)) + price <= budget.dailyCap.value)
  }

  /** The refusal that a budget calls for. */
  predicate CallsFor(setting: Setting, rows: seq<Row>, scope: Option<string>, budget: Budget, turn: Turn, asked: nat,
                     refusal: Option<Outcome>)
  {
    if budget.monthlyCap.None? && budget.dailyCap.None? then refusal.None?
    else if setting.prices.None? then refusal == Some(PricingUnknown)
    else if HasRoom(setting, setting.prices.value, rows, scope, budget, turn, asked) then refusal.None?
    else refusal == Some(BudgetExceeded)
  }

  /** The key's budget refuses the request. */
  ghost predicate Refuses(setting: Setting, rows: seq<Row>, alias: string, turn: Turn, refusal: Option<Outcome>) {
    refusal.Some?
    && exists scope, budget, asked: nat {:trigger CallsFor(setting, rows, scope, budget, turn, asked, refusal)} ::
         Governs(setting.budgets, setting.provider, alias, scope, budget) && AsksFor(setting.request, asked)
         && CallsFor(setting, rows, scope, budget, turn, asked, refusal)
  }

  // ------------------------------------------------------------------ what a reply does

  /** What a client is told, or that another key is tried, and the status kept for later. */
  predicate Tells(reply: Reply, stream: bool, alias: string, lastStatus: nat, outcome: Option<Outcome>, status: nat) {
    match reply
    case Answer(_, _) => status == lastStatus && outcome == Some(if stream then Streaming else Answered)
    case Unreadable => status == lastStatus && outcome == Some(if stream then Streaming else AnswerTooLarge)
    case Failure(code, _) =>
      if code == 401 || code == 429 || 500 <= code <= 599 then outcome.None? && status == code
      else outcome == Some(PassedOn(code)) && status == lastStatus
    case Unreachable => status == 502 && outcome == if alias == "local" then Some(LocalUnreachable) else None
  }

  /** What a reply does to the keys: a success takes its key off cooldown and leaves it switched
      on or off as it was, a failure shows as its status says; no other key changes. */
  ghost predicate Shows(reply: Reply, before: seq<Entry>, after: seq<Entry>, alias: string, at: int) {
    match reply
    case Answer(_, _) => OnlyFirstChanged(before, after, alias, (e: Entry) => e.(cooldownUntil := None))
    case Unreadable => OnlyFirstChanged(before, after, alias, (e: Entry) => e.(cooldownUntil := None))
    case Failure(code, retryAfter) => FailureShows(before, after, alias, code, retryAfter, at)
    case Unreachable => FailureShows(before, after, alias, 502, None, at)
  }

  function AtLeastZero(n: int): int {
    if n >= 0 then n else 0
  }

  /** An answer that is not streamed costs its tokens at the price per million; anything else,
      and what has no price, costs nothing. */
  predicate Costs(prices: Option<PriceTable>, stream: bool, reply: Reply, cost: real) {
    if reply.Answer? && !stream && prices.Some? then
      cost * 1000000.0 == AtLeastZero(reply.prompt) as real * prices.value.inputPerM
                          + AtLeastZero(reply.completion) as real * prices.value.outputPerM
    else cost == 0.0
  }

  /** The ledger has been charged what the reply costs, if it is logged. */
  ghost predicate ChargedFor(setting: Setting, turn: Turn, alias: string, before: seq<Row>, after: seq<Row>) {
    exists cost {:trigger Costs(setting.prices, setting.request.stream, turn.reply, cost)} ::
      Costs(setting.prices, setting.request.stream, turn.reply, cost)
      && Booked(before, after, Charge(setting.provider, alias, turn.on, if turn.logged then cost else 0.0))
  }

  lemma NothingBooked(rows: seq<Row>, c: Charge)
    requires c.cost == 0.0
    ensures Booked(rows, rows, c)
  {
  }

  lemma UnchargedFor(setting: Setting, turn: Turn, alias: string, rows: seq<Row>)
    requires setting.request.stream || !turn.reply.Answer?
    ensures ChargedFor(setting, turn, alias, rows, rows)
  {
    assert Costs(setting.prices, setting.request.stream, turn.reply, 0.0);
    NothingBooked(rows, Charge(setting.provider, alias, turn.on, 0.0));
  }

  class Gateway {
    const router: Router
    const budgets: Budgets
    var rows: seq<Row>

    constructor (router: Router, budgets: Budgets)
      ensures this.router == router && this.budgets == budgets && rows == []
    {
      this.router, this.budgets, rows := router, budgets, [];
    }

    /** What a request being served sees of the gateway. */
    function State(provider: string, attempted: set<string>, lastStatus: nat): Serving
      reads this, router, router.vault
    {
      Serving(router.vault.entries, router.CounterOf(provider), rows, attempted, lastStatus)
    }

    /** A logged request raises the usage of its month and of its day by its cost, for its
        provider and its key; a transaction that fails raises neither. */
    method LogTokens(setting: Setting, turn: Turn, alias: string, cost: real)
      modifies this
      ensures rows == Logged(old(rows), turn, setting.provider, alias, cost)
      ensures Booked(old(rows), rows, Charge(setting.provider, alias, turn.on, if turn.logged then cost else 0.0))
    {
      ghost var before, c := rows, Charge(setting.provider, alias, turn.on, cost);
      if turn.logged {
        rows := Post(rows, Charge(setting.provider, alias, turn.on, cost));
        PostBooks(before, c);
      }
    }

    /** Drops the rows of days and months before the cutoff's, and so none that still counts. */
    method PruneLogs(cutoff: Date, today: Date)
      requires NonNegative(rows) && NotBefore(today, cutoff)
      modifies this
      ensures rows == Prune(old(rows), cutoff)
      ensures forall provider, alias ::
                Usage(rows, provider, alias, DayText(today)) == Usage(old(rows), provider, alias, DayText(today))
                && Usage(rows, provider, alias, MonthText(today)) == Usage(old(rows), provider, alias, MonthText(today))
    {
      forall provider, alias
        ensures Usage(Prune(rows, cutoff), provider, alias, DayText(today)) == Usage(rows, provider, alias, DayText(today))
        ensures Usage(Prune(rows, cutoff), provider, alias, MonthText(today)) == Usage(rows, provider, alias, MonthText(today))
      {
        PruneKeepsCurrentPeriods(rows, cutoff, today, provider, alias);
      }
      rows := Prune(rows, cutoff);
    }

    method CheckBudget(setting: Setting, turn: Turn, alias: string) returns (refusal: Option<Outcome>)
      requires setting.budgets == budgets
      ensures refusal == Verdict(setting, rows, alias, turn.month, turn.day)
      ensures forall scope, budget, asked: nat ::
                Governs(budgets, setting.provider, alias, scope, budget) && AsksFor(setting.request, asked) ==>
                  CallsFor(setting, rows, scope, budget, turn, asked, refusal)
      ensures setting.provider + ":" + alias !in budgets && setting.provider !in budgets ==> refusal.None?
      ensures forall r :: Refuses(setting, rows, alias, turn, r) ==> r == refusal
    {
      forall asked: nat | AsksFor(setting.request, asked)
        ensures asked == CompletionBound(setting.request)
      {
        BoundIsWhatIsAsked(setting.request, asked);
      }
      var own := KeyScope(setting.provider, alias);
      var scope: Option<string> := None;
      var budget;
      if own in budgets {
        budget, scope := budgets[own], Some(alias);
      } else if setting.provider in budgets {
        budget := budgets[setting.provider];
      } else {
        return None;
      }
      if budget.monthlyCap.None? && budget.dailyCap.None? {
        return None;
      }
      if setting.prices.None? {
        return Some(PricingUnknown);
      }
      if budget.monthlyCap.Some? {
        var usage := Usage(rows, setting.provider, scope, MonthText(turn.month));
        if usage + Projected(setting) > budget.monthlyCap.value {
          return Some(BudgetExceeded);
        }
      }
      if budget.dailyCap.Some? {
        var usage := Usage(rows, setting.provider, scope, DayText(turn.day));
        if usage + Projected(setting) > budget.dailyCap.value {
          return Some(BudgetExceeded);
        }
      }
      return None;
    }

    /** Acts on the reply to a request sent with a key; no outcome means to try another key. */
    method HandleReply(setting: Setting, turn: Turn, alias: string, ghost attempted: set<string>, lastStatus: nat)
      returns (outcome: Option<Outcome>, status: nat)
      modifies this, router.vault
      ensures NextOf(outcome, State(setting.provider, attempted, status)) ==
              Settle(setting, turn, old(State(setting.provider, attempted, lastStatus)), alias)
      ensures Tells(turn.reply, setting.request.stream, alias, lastStatus, outcome, status)
      ensures Shows(turn.reply, old(router.vault.entries), router.vault.entries, alias, turn.failedAt)
      ensures ChargedFor(setting, turn, alias, old(rows), rows)
    {
      status := lastStatus;
      match turn.reply {
        case Answer(prompt, completion) =>
          router.MarkKeySuccess(alias);
          if setting.request.stream {
            UnchargedFor(setting, turn, alias, rows);
            return Some(Streaming), status;
          }
          var cost := CostOf(setting.prices, prompt, completion);
          assert Costs(setting.prices, setting.request.stream, turn.reply, cost);
          LogTokens(setting, turn, alias, cost);
          return Some(Answered), status;
        case Unreadable =>
          router.MarkKeySuccess(alias);
          UnchargedFor(setting, turn, alias, rows);
          return Some(if setting.request.stream then Streaming else AnswerTooLarge), status;
        case Failure(code, retryAfter) =>
          assert Costs(setting.prices, setting.request.stream, turn.reply, 0.0);
          LogTokens(setting, turn, alias, 0.0);
          if code == 401 || code == 429 || ServerError(code) {
            router.MarkKeyFailed(alias, code, retryAfter, turn.failedAt);
            return None, code;
          }
          return Some(PassedOn(code)), status;
        case Unreachable =>
          assert Costs(setting.prices, setting.request.stream, turn.reply, 0.0);
          LogTokens(setting, turn, alias, 0.0);
          router.MarkKeyFailed(alias, 502, None, turn.failedAt);
          return if alias == "local" then Some(LocalUnreachable) else None, 502;
      }
    }

    /** One attempt with a chosen key that has not been tried. */
    method Attempt(setting: Setting, turn: Turn, alias: string, ghost attempted: set<string>, lastStatus: nat)
      returns (outcome: Option<Outcome>, status: nat)
      requires setting.budgets == budgets && (alias !in attempted || alias == "local")
      modifies this, router.vault
      ensures NextOf(outcome, State(setting.provider, attempted + {alias}, status)) ==
              Try(setting, turn, old(State(setting.provider, attempted, lastStatus)), alias)
      ensures forall refusal :: Refuses(setting, old(rows), alias, turn, refusal) ==>
                outcome == refusal && status == lastStatus
                && rows == old(rows) && router.vault.entries == old(router.vault.entries)
      ensures outcome == Some(Stopped) ==>
                turn.stopped && status == lastStatus
                && rows == old(rows) && router.vault.entries == old(router.vault.entries)
    {
      outcome := CheckBudget(setting, turn, alias);
      if outcome.Some? {
        return outcome, lastStatus;
      }
      if turn.stopped {
        return Some(Stopped), lastStatus;
      }
      rows := turn.during(rows);
      outcome, status := HandleReply(setting, turn, alias, attempted + {alias}, lastStatus);
    }

    /** A pass of the loop. */
    method Pass(setting: Setting, turn: Turn, attempted: set<string>, lastStatus: nat)
      returns (outcome: Option<Outcome>, tried: set<string>, status: nat)
      requires setting.budgets == budgets && setting.config == router.config
      modifies this, router, router.vault
      ensures NextOf(outcome, State(setting.provider, tried, status)) ==
              Round(setting, turn, old(State(setting.provider, attempted, lastStatus)))
    {
      rows := turn.before(rows);
      var choice := router.SelectKey(setting.provider, turn.at);
      if !choice.Chosen? {
        return Some(NoAvailableKey(choice, lastStatus)), attempted, lastStatus;
      }
      if choice.alias in attempted && choice.alias != "local" {
        return Some(KeyCameBack(choice.alias, lastStatus)), attempted, lastStatus;
      }
      tried := attempted + {choice.alias};
      outcome, status := Attempt(setting, turn, choice.alias, attempted, lastStatus);
    }

    /** Serves a request for at most so many rounds; no outcome means that the loop is still
        going. Unless it serves a local alias, more rounds than keys are enough. */
    method Serve(setting: Setting, ghost round: Rounds, world: nat -> Turn, limit: nat)
      returns (outcome: Option<Outcome>, tried: set<string>, status: nat, n: nat)
      requires setting.budgets == budgets && setting.config == router.config && LoopOf(setting, round)
      modifies this, router, router.vault
      ensures n <= limit && (outcome.None? ==> n == limit)
      ensures After(round, world, old(State(setting.provider, {}, 503)), n) ==
              NextOf(outcome, State(setting.provider, tried, status))
      ensures old(NoLocal(setting, router.vault.entries)) ==>
                old(|AliasesOf(router.vault.entries, setting.provider)|) < limit ==> outcome.Some?
    {
      ghost var start := State(setting.provider, {}, 503);
      outcome, tried, status, n := None, {}, 503, 0;
      while n < limit && outcome.None?
        invariant n <= limit
        invariant After(round, world, start, n) == NextOf(outcome, State(setting.provider, tried, status))
      {
        ghost var s := State(setting.provider, tried, status);
        outcome, tried, status := Pass(setting, world(n), tried, status);
        assert round(world(n), s) == Round(setting, world(n), s);
        n := n + 1;
      }
      if NoLocal(setting, start.entries) && outcome.None? {
        EndsInTime(setting, round, world, start, n);
      }
    }

    /** A request as it comes in: refused outright, or served with its token limit filled in. */
    method Proxy(provider: string, request: Request, ghost round: Rounds, world: nat -> Turn, limit: nat)
      returns (outcome: Option<Outcome>, tried: set<string>, status: nat, n: nat)
      requires LoopOf(Limited(Setting(provider, DefaultPrices(provider), router.config, budgets, request)), round)
      modifies this, router, router.vault
      ensures outcome == Some(TokenLimit) <==>
              || (request.maxTokens.Tokens? && request.maxTokens.count > 32768)
              || (request.maxOutputTokens.Tokens? && request.maxOutputTokens.count > 32768)
      ensures outcome == Some(StreamingDisabled) <==>
              outcome != Some(TokenLimit) && HasUsdBudget(budgets, provider) && request.stream
      ensures outcome in {Some(TokenLimit), Some(StreamingDisabled)} ==>
              State(provider, {}, 503) == old(State(provider, {}, 503))
      ensures outcome !in {Some(TokenLimit), Some(StreamingDisabled)} ==>
              After(round, world, old(State(provider, {}, 503)), n) == NextOf(outcome, State(provider, tried, status))
              && n <= limit && (outcome.None? ==> n == limit)
    {
      if OverTokenLimit(request) {
        return Some(TokenLimit), {}, 503, 0;
      }
      if HasUsdBudget(budgets, provider) && request.stream {
        return Some(StreamingDisabled), {}, 503, 0;
      }
      var setting := Limited(Setting(provider, DefaultPrices(provider), router.config, budgets, request));
      ghost var start := State(provider, {}, 503);
      outcome, tried, status, n := Serve(setting, round, world, limit);
      if outcome.Some? {
        EndsAsARoundDoes(setting, round, world, start, n);
      }
    }
  }

  lemma EndsInTime(setting: Setting, round: Rounds, world: nat -> Turn, s: Serving, n: nat)
    requires LoopOf(setting, round) && s.attempted == {} && NoLocal(setting, s.entries)
    requires After(round, world, s, n).Again?
    ensures n <= |AliasesOf(s.entries, setting.provider)|
  {
    EachKeyIsTriedOnce(setting, round, world, s, n);
    SubsetIsNotLarger(After(round, world, s, n).s.attempted, AliasesOf(s.entries, setting.provider));
  }

  lemma RoundIsNotRefusedOutright(setting: Setting, turn: Turn, s: Serving)
    requires Round(setting, turn, s).Done?
    ensures !Round(setting, turn, s).outcome.TokenLimit? && !Round(setting, turn, s).outcome.StreamingDisabled?
  {
  }

  lemma EndsAsARoundDoes(setting: Setting, round: Rounds, world: nat -> Turn, s: Serving, n: nat)
    requires LoopOf(setting, round) && After(round, world, s, n).Done?
    ensures !After(round, world, s, n).outcome.TokenLimit? && !After(round, world, s, n).outcome.StreamingDisabled?
  {
    var m := EndsInSomeRound(round, world, s, n);
    RoundIsNotRefusedOutright(setting, world(m), After(round, world, s, m).s);
  }
}
