/**
 One request through the failover loop of the gateway (src/api/v1.rs, `proxy`): choose a
 key, check its budget, send, charge what the reply cost, mark the key, and try another one
 when the failure is the key's or the server's. A round is one pass of that loop. What the
 rest of the world does in a round (clock readings, other requests' ledger writes, the
 upstream's reply) is a `Turn`.
 */
module Failover {
  import opened Wrappers
  import opened Calendar
  import opened Ledger
  import opened BudgetCaps
  import opened VaultEntries
  import opened Router
  import opened Prices

  /** A field of the request body, read as an unsigned integer. */
  datatype TokenField = Absent | NotANumber | Tokens(count: nat)

  /** `size` is the length of the serialised body, once its token limit has been filled in. */
  datatype Request = Request(stream: bool, embeddings: bool, size: nat, maxTokens: TokenField,
                             maxOutputTokens: TokenField)

  /** `prices` is what the provider is known to charge. */
  datatype Setting = Setting(provider: string, prices: Option<PriceTable>, config: map<string, ProviderConfig>,
                             budgets: Budgets, request: Request)

  datatype Reply =
    | Answer(prompt: int, completion: int)
    | Unreadable
    | Failure(status: nat, retryAfter: Option<nat>)
    | Unreachable

  /** `at` is when a key is chosen, `failedAt` when it is marked; the budget check reads the
      month and the day, the charge is written on `on` if the database takes it. `before` and
      `during` are what others do to the ledger until the check and until the charge.
      `stopped` is a refusal between the check and sending: a rate limit, a token that
      cannot be refreshed, an unsafe address. */
  datatype Turn = Turn(at: int, failedAt: int, month: Date, day: Date, on: Date, logged: bool, stopped: bool,
                       reply: Reply,
                       before: seq<Row> -> seq<Row>, during: seq<Row> -> seq<Row>)

  datatype Outcome =
    | NoAvailableKey(choice: Choice, status: nat)
    | KeyCameBack(alias: string, status: nat)
    | PricingUnknown
    | BudgetExceeded
    | Stopped
    | Streaming
    | Answered
    | AnswerTooLarge
    | PassedOn(status: nat)
    | LocalUnreachable
    | TokenLimit
    | StreamingDisabled

  datatype Serving = Serving(entries: seq<Entry>, counter: Counter, rows: seq<Row>, attempted: set<string>,
                             lastStatus: nat)

  datatype Next = Again(s: Serving) | Done(outcome: Outcome, s: Serving)

  // ------------------------------------------------------------------ before the loop

  predicate StartsWith(s: string, prefix: string) {
    |prefix| <= |s| && s[..|prefix|] == prefix
  }

  predicate HasUsdBudget(budgets: Budgets, provider: string) {
    exists scope :: scope in budgets && (scope == provider || StartsWith(scope, provider + ":")) && Capped(budgets[scope])
  }

  predicate OverTokenLimit(r: Request) {
    (r.maxTokens.Tokens? && r.maxTokens.count > 32768) || (r.maxOutputTokens.Tokens? && r.maxOutputTokens.count > 32768)
  }

  /** A budgeted chat request without a token limit is given one. */
  function Limited(setting: Setting): Setting {
    if HasUsdBudget(setting.budgets, setting.provider) && !setting.request.embeddings && !setting.request.maxTokens.Tokens?
    then setting.(request := setting.request.(maxTokens := Tokens(4096)))
    else setting
  }

  /** A provider is behind the gate exactly when a scope of its own, or of one of its keys, is
      capped. */
  lemma GatedExactlyWhen(budgets: Budgets, provider: string)
    ensures HasUsdBudget(budgets, provider) <==>
            || (provider in budgets && (budgets[provider].monthlyCap.Some? || budgets[provider].dailyCap.Some?))
            || exists alias: string :: provider + ":" + alias in budgets
                                       && (budgets[provider + ":" + alias].monthlyCap.Some?
                                           || budgets[provider + ":" + alias].dailyCap.Some?)
  {
    forall scope | scope in budgets && StartsWith(scope, provider + ":")
      ensures exists alias: string :: scope == provider + ":" + alias
    {
      assert scope == provider + ":" + scope[|provider + ":"|..];
    }
    forall alias: string
      ensures StartsWith(provider + ":" + alias, provider + ":")
    {
      assert (provider + ":" + alias)[..|provider + ":"|] == provider + ":";
    }
  }

  /** Filling in a limit changes nothing else: a budgeted chat request that does not name one
      may have 4096 tokens. */
  lemma OnlyTheLimitIsFilledIn(setting: Setting)
    ensures var field := setting.request.maxTokens;
            var filled := if HasUsdBudget(setting.budgets, setting.provider) && !setting.request.embeddings
                             && !field.Tokens? then Tokens(4096) else field;
            Limited(setting) == setting.(request := setting.request.(maxTokens := filled))
  {
  }

  // ------------------------------------------------------------------ one round

  function CompletionBound(r: Request): nat {
    var field := if r.maxTokens.Absent? then r.maxOutputTokens else r.maxTokens;
    if field.Tokens? then field.count else 0
  }

  /** The tokens a request asks for: its first limit, where that is a number. */
  predicate AsksFor(r: Request, n: nat) {
    match r.maxTokens
    case Tokens(count) => n == count
    case NotANumber => n == 0
    case Absent => if r.maxOutputTokens.Tokens? then n == r.maxOutputTokens.count else n == 0
  }

  lemma BoundIsWhatIsAsked(r: Request, n: nat)
    ensures AsksFor(r, n) <==> n == CompletionBound(r)
  {
  }

  function Projected(setting: Setting): real
    requires setting.prices.Some?
  {
    EstimateCost(setting.prices.value, setting.request.size, CompletionBound(setting.request))
  }

  function Clamp(n: int): nat {
    if n < 0 then 0 else n
  }

  function CostOf(prices: Option<PriceTable>, prompt: int, completion: int): real {
    if prices.None? then 0.0 else EstimateCost(prices.value, Clamp(prompt), Clamp(completion))
  }

  /** Why a key may not be used with its budget, if it may not. */
  function Verdict(setting: Setting, rows: seq<Row>, alias: string, month: Date, day: Date): Option<Outcome> {
    var g := BudgetFor(setting.budgets, setting.provider, alias);
    if g.None? || !Capped(g.value.budget) then None
    else if setting.prices.None? then Some(PricingUnknown)
    else if WithinBudget(rows, setting.provider, if g.value.keyScoped then Some(alias) else None, g.value.budget,
                         Projected(setting), month, day) then None
    else Some(BudgetExceeded)
  }

  function Logged(rows: seq<Row>, turn: Turn, provider: string, alias: string, cost: real): seq<Row> {
    if turn.logged then Post(rows, Charge(provider, alias, turn.on, cost)) else rows
  }

  predicate TriesAnother(status: nat) {
    status == 401 || status == 429 || ServerError(status)
  }

  /** What the reply to a request sent with a key leads to. */
  function Settle(setting: Setting, turn: Turn, s: Serving, alias: string): Next {
    match turn.reply
    case Answer(prompt, completion) =>
      var t := s.(entries := Succeeded(s.entries, alias));
      if setting.request.stream then Done(Streaming, t)
      else Done(Answered, t.(rows := Logged(s.rows, turn, setting.provider, alias,
                                            CostOf(setting.prices, prompt, completion))))
    case Unreadable =>
      Done(if setting.request.stream then Streaming else AnswerTooLarge, s.(entries := Succeeded(s.entries, alias)))
    case Failure(status, retryAfter) =>
      var t := s.(rows := Logged(s.rows, turn, setting.provider, alias, 0.0));
      if TriesAnother(status)
      then Again(t.(entries := Failed(s.entries, alias, status, retryAfter, turn.failedAt), lastStatus := status))
      else Done(PassedOn(status), t)
    case Unreachable =>
      var t := s.(rows := Logged(s.rows, turn, setting.provider, alias, 0.0),
                  entries := Failed(s.entries, alias, 502, None, turn.failedAt), lastStatus := 502);
      if alias == "local" then Done(LocalUnreachable, t) else Again(t)
  }

  /** A round with the key that was chosen. */
  function Try(setting: Setting, turn: Turn, s: Serving, alias: string): Next {
    if alias in s.attempted && alias != "local" then Done(KeyCameBack(alias, s.lastStatus), s)
    else
      var t := s.(attempted := s.attempted + {alias});
      var verdict := Verdict(setting, t.rows, alias, turn.month, turn.day);
      if verdict.Some? then Done(verdict.value, t)
      else if turn.stopped then Done(Stopped, t)
      else Settle(setting, turn, t.(rows := turn.during(t.rows)), alias)
  }

  function Round(setting: Setting, turn: Turn, s: Serving): Next {
    var (choice, moves) := Select(s.entries, setting.config, s.counter, setting.provider, turn.at);
    var t := s.(rows := turn.before(s.rows), counter := if moves then Advanced(s.counter) else s.counter);
    if choice.Chosen? then Try(setting, turn, t, choice.alias) else Done(NoAvailableKey(choice, s.lastStatus), t)
  }

  type Rounds = (Turn, Serving) -> Next

  /** The rounds are those of a setting. */
  ghost predicate LoopOf(setting: Setting, round: Rounds) {
    forall turn, s {:trigger Round(setting, turn, s)} :: round(turn, s) == Round(setting, turn, s)
  }

  function RoundsOf(setting: Setting): Rounds {
    (turn, s) => Round(setting, turn, s)
  }

  lemma RoundsOfIsTheLoop(setting: Setting)
    ensures LoopOf(setting, RoundsOf(setting))
  {
  }

  /** The loop after `n` rounds, unless it has ended before. */
  function After(round: Rounds, world: nat -> Turn, s: Serving, n: nat): Next {
    if n == 0 then Again(s)
    else
      var before := After(round, world, s, n - 1);
      if before.Done? then before else round(world(n - 1), before.s)
  }
}
