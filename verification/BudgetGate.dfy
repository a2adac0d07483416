/**
 Many requests at once (src/api/v1.rs, `proxy`). The check of a budget and the charge that
 follows it are separate steps, with the upstream's reply in between; a request of a
 provider with a capped scope holds one gate from before its first check until it is over
 or abandoned, and may not stream. Proved over every interleaving: no two such requests are
 under way together, what anybody else does meanwhile never raises the provider's usage,
 and no promised cap is ever exceeded.
 */
module BudgetGate {
  import opened Wrappers
  import opened Calendar
  import opened Ledger
  import opened BudgetCaps
  import opened Prices
  import opened Failover
  import opened FailoverBudgets

  type Id = nat

  /** Before the gate; about to choose a key; sent with a key that was checked on a date; and
      relaying a streamed answer in the background. */
  datatype Phase = Waiting | Choosing | Sent(alias: string, month: Date, day: Date) | Relaying(alias: string)

  datatype Task = Task(setting: Setting, phase: Phase)

  /** `today` is the latest date that was read off the clock. */
  datatype State = State(budgets: Budgets, rows: seq<Row>, gate: Option<Id>, tasks: map<Id, Task>, today: Date)

  /** What can happen next: a request comes in, takes its turn, chooses a key and has its
      budget checked, gets a reply, or comes to the end of its stream; one is over or its client
      goes away; the ledger is pruned. The key is any that the router may choose. */
  datatype Event =
    | Arrive(id: Id, setting: Setting)
    | Enter(id: Id)
    | Check(id: Id, alias: string, month: Date, day: Date)
    | Replied(id: Id, turn: Turn)
    | StreamEnds(id: Id, turn: Turn)
    | Leave(id: Id)
    | Pruned(cutoff: Date)

  predicate Budgeted(t: Task) {
    HasUsdBudget(t.setting.budgets, t.setting.provider)
  }

  /** Past the gate, if there is one for it. */
  predicate Gated(t: Task) {
    Budgeted(t) && !t.phase.Waiting?
  }

  /** Dates do not go back, and the upstream of a budgeted provider bills within what was projected. */
  predicate CanHappen(s: State, e: Event) {
    match e
    case Arrive(id, setting) =>
      id !in s.tasks && setting.budgets == s.budgets && setting.prices == DefaultPrices(setting.provider)
      && !OverTokenLimit(setting.request)
    case Enter(id) =>
      id in s.tasks && s.tasks[id].phase.Waiting?
      && (Budgeted(s.tasks[id]) && !s.tasks[id].setting.request.stream ==> s.gate.None?)
    case Check(id, _, month, day) =>
      id in s.tasks && s.tasks[id].phase.Choosing? && NotBefore(month, s.today) && NotBefore(day, month)
    case Replied(id, turn) =>
      id in s.tasks && s.tasks[id].phase.Sent? && NotBefore(turn.on, s.today)
      && (Budgeted(s.tasks[id]) ==> BillsWithin(s.tasks[id].setting, turn.reply))
    case StreamEnds(id, turn) => id in s.tasks && s.tasks[id].phase.Relaying? && NotBefore(turn.on, s.today)
    case Leave(id) => id in s.tasks
    case Pruned(_) => true
  }

  function Now(s: State, id: Id, phase: Phase): State
    requires id in s.tasks
  {
    s.(tasks := s.tasks[id := s.tasks[id].(phase := phase)])
  }

  /** A request that is over gives the gate back, however it ends. */
  function Over(s: State, id: Id): State {
    s.(tasks := s.tasks - {id}, gate := if s.gate == Some(id) then None else s.gate)
  }

  function Admit(s: State, id: Id): State
    requires id in s.tasks
  {
    if !Budgeted(s.tasks[id]) then Now(s, id, Choosing)
    else if s.tasks[id].setting.request.stream then Over(s, id)
    else Now(s, id, Choosing).(gate := Some(id))
  }

  function Settled(s: State, id: Id, turn: Turn): State
    requires id in s.tasks && s.tasks[id].phase.Sent?
  {
    var t := s.tasks[id];
    var next := Settle(t.setting, turn, Serving([], 0, s.rows, {}, 503), t.phase.alias);
    var after := s.(rows := next.s.rows, today := turn.on);
    if next.Again? then Now(after, id, Choosing)
    else if next.outcome.Streaming? then Now(after, id, Relaying(t.phase.alias))
    else Over(after, id)
  }

  /** What a streamed answer is charged at its end. */
  function StreamCost(t: Task, reply: Reply): real {
    if reply.Answer? then CostOf(t.setting.prices, reply.prompt, reply.completion) else 0.0
  }

  function Do(s: State, e: Event): State {
    if !CanHappen(s, e) then s
    else
      match e
      case Arrive(id, setting) => s.(tasks := s.tasks[id := Task(Limited(setting), Waiting)])
      case Enter(id) => Admit(s, id)
      case Check(id, alias, month, day) =>
        if Verdict(s.tasks[id].setting, s.rows, alias, month, day).None?
        then Now(s, id, Sent(alias, month, day)).(today := day)
        else Over(s, id).(today := day)
      case Replied(id, turn) => Settled(s, id, turn)
      case StreamEnds(id, turn) =>
        var t := s.tasks[id];
        Over(s, id).(rows := Logged(s.rows, turn, t.setting.provider, t.phase.alias, StreamCost(t, turn.reply)),
                     today := turn.on)
      case Leave(id) => Over(s, id)
      case Pruned(cutoff) => s.(rows := Prune(s.rows, cutoff))
  }

  /** The state after a whole run; what cannot happen changes nothing. */
  function Run(s: State, events: seq<Event>): State {
    if events == [] then s else Do(Run(s, events[..|events| - 1]), events[|events| - 1])
  }

  // ------------------------------------------------------------------ one at a time

  predicate TaskOk(s: State, id: Id)
    requires id in s.tasks
  {
    var t := s.tasks[id];
    && t.setting.budgets == s.budgets && Sound(t.setting)
    && (Gated(t) ==> s.gate == Some(id) && !t.setting.request.stream && !t.phase.Relaying?)
  }

  predicate GateOk(s: State) {
    s.gate.Some? ==> s.gate.value in s.tasks && Gated(s.tasks[s.gate.value])
  }

  predicate Inv(s: State) {
    GateOk(s) && forall id :: id in s.tasks ==> TaskOk(s, id)
  }

  lemma NowKeepsInv(s: State, id: Id, phase: Phase)
    requires Inv(s) && id in s.tasks && !s.tasks[id].phase.Waiting? && !phase.Waiting?
    requires phase.Relaying? ==> s.tasks[id].setting.request.stream
    ensures Inv(Now(s, id, phase))
  {
    var after := Now(s, id, phase);
    assert TaskOk(s, id);
    assert forall j :: j in s.tasks && j != id ==> TaskOk(s, j) && after.tasks[j] == s.tasks[j];
  }

  lemma OverKeepsInv(s: State, id: Id)
    requires Inv(s) && id in s.tasks
    ensures Inv(Over(s, id))
  {
    var after := Over(s, id);
    assert forall j :: j in after.tasks ==> TaskOk(s, j) && after.tasks[j] == s.tasks[j];
  }

  lemma AdmitKeepsInv(s: State, id: Id)
    requires Inv(s) && CanHappen(s, Enter(id))
    ensures Inv(Admit(s, id))
  {
    assert TaskOk(s, id);
    if Budgeted(s.tasks[id]) && s.tasks[id].setting.request.stream {
      OverKeepsInv(s, id);
    } else {
      var after := Admit(s, id);
      assert forall j :: j in s.tasks && j != id ==> TaskOk(s, j) && after.tasks[j] == s.tasks[j];
    }
  }

  lemma SettledKeepsInv(s: State, id: Id, turn: Turn)
    requires Inv(s) && id in s.tasks && s.tasks[id].phase.Sent?
    ensures Inv(Settled(s, id, turn))
  {
    var t := s.tasks[id];
    var next := Settle(t.setting, turn, Serving([], 0, s.rows, {}, 503), t.phase.alias);
    var after := s.(rows := next.s.rows, today := turn.on);
    RowsAreFree(s, next.s.rows, turn.on);
    if next.Again? {
      NowKeepsInv(after, id, Choosing);
    } else if next.outcome.Streaming? {
      NowKeepsInv(after, id, Relaying(t.phase.alias));
    } else {
      OverKeepsInv(after, id);
    }
  }

  lemma RowsAreFree(s: State, rows: seq<Row>, today: Date)
    requires Inv(s)
    ensures Inv(s.(rows := rows, today := today))
  {
    var after := s.(rows := rows, today := today);
    assert forall j :: j in s.tasks ==> TaskOk(s, j) && after.tasks[j] == s.tasks[j];
  }

  lemma CheckKeepsInv(s: State, id: Id, alias: string, month: Date, day: Date)
    requires Inv(s) && CanHappen(s, Check(id, alias, month, day))
    ensures Inv(Do(s, Check(id, alias, month, day)))
  {
    RowsAreFree(s, s.rows, day);
    var later := s.(today := day);
    if Verdict(s.tasks[id].setting, s.rows, alias, month, day).None? {
      NowKeepsInv(later, id, Sent(alias, month, day));
    } else {
      OverKeepsInv(later, id);
    }
  }

  lemma ArriveKeepsInv(s: State, id: Id, setting: Setting)
    requires Inv(s) && CanHappen(s, Arrive(id, setting))
    ensures Inv(Do(s, Arrive(id, setting)))
  {
    var after := Do(s, Arrive(id, setting));
    assert forall j :: j in s.tasks ==> TaskOk(s, j) && after.tasks[j] == s.tasks[j];
    assert Sound(Limited(setting));
  }

  lemma StepKeepsInv(s: State, e: Event)
    requires Inv(s)
    ensures Inv(Do(s, e))
  {
    if CanHappen(s, e) {
      match e
      case Arrive(id, setting) => ArriveKeepsInv(s, id, setting);
      case Enter(id) => AdmitKeepsInv(s, id);
      case Check(id, alias, month, day) => CheckKeepsInv(s, id, alias, month, day);
      case Replied(id, turn) => SettledKeepsInv(s, id, turn);
      case StreamEnds(id, turn) =>
        RowsAreFree(s, Do(s, e).rows, turn.on);
        OverKeepsInv(s.(rows := Do(s, e).rows, today := turn.on), id);
      case Leave(id) => OverKeepsInv(s, id);
      case Pruned(cutoff) => RowsAreFree(s, Prune(s.rows, cutoff), s.today);
    }
  }

  predicate Initial(s: State) {
    s.gate.None? && s.tasks == map[]
  }

  lemma {:induction false} RunKeepsInv(s: State, events: seq<Event>)
    requires Inv(s)
    ensures Inv(Run(s, events))
  {
    if events != [] {
      RunKeepsInv(s, events[..|events| - 1]);
      StepKeepsInv(Run(s, events[..|events| - 1]), events[|events| - 1]);
    }
  }

  /** Whoever holds the gate can end and give it back, and then a waiting request that may go on
      does, with the gate if it needs one. */
  lemma EveryoneGetsATurn(s: State, id: Id)
    requires Inv(s) && id in s.tasks && s.tasks[id].phase.Waiting?
    requires HasUsdBudget(s.budgets, s.tasks[id].setting.provider) ==> !s.tasks[id].setting.request.stream
    ensures var free := if s.gate.Some? then Do(s, Leave(s.gate.value)) else s;
            var t := Do(free, Enter(id));
            && free.gate.None? && id in t.tasks && t.tasks[id] == Task(s.tasks[id].setting, Choosing)
            && t.gate == if HasUsdBudget(s.budgets, s.tasks[id].setting.provider) then Some(id) else None
  {
    assert TaskOk(s, id);
  }

  /** A streaming request of a budgeted provider is over at once, whoever holds the gate. */
  lemma StreamIsTurnedAway(s: State, id: Id)
    requires Inv(s) && id in s.tasks && s.tasks[id].phase.Waiting?
    requires HasUsdBudget(s.budgets, s.tasks[id].setting.provider) && s.tasks[id].setting.request.stream
    ensures var t := Do(s, Enter(id)); t == s.(tasks := t.tasks) && t.tasks == s.tasks - {id}
  {
    assert TaskOk(s, id);
  }

  /** A request past the gate is sent with every key whose budget check passes, and is over
      with the first that fails. */
  lemma CheckedIsSent(s: State, id: Id, alias: string, month: Date, day: Date)
    requires CanHappen(s, Check(id, alias, month, day))
    ensures var t := Do(s, Check(id, alias, month, day));
            && t.rows == s.rows
            && if Verdict(s.tasks[id].setting, s.rows, alias, month, day).None?
               then t.tasks == s.tasks[id := Task(s.tasks[id].setting, Sent(alias, month, day))] && t.gate == s.gate
               else t.tasks == s.tasks - {id} && t.gate != Some(id)
  {
  }

  /** A streamed answer is relayed and charged nothing yet. */
  lemma StreamIsRelayed(s: State, id: Id, turn: Turn)
    requires CanHappen(s, Replied(id, turn)) && s.tasks[id].setting.request.stream
    requires turn.reply.Answer? || turn.reply.Unreadable?
    ensures var t := Do(s, Replied(id, turn));
            && t.rows == s.rows && id in t.tasks
            && t.tasks[id] == Task(s.tasks[id].setting, Relaying(s.tasks[id].phase.alias))
  {
  }

  /** The tokens of a streamed answer at their prices per million, or nothing. */
  predicate PaysFor(prices: Option<PriceTable>, reply: Reply, cost: real) {
    if reply.Answer? && prices.Some? then
      cost * 1000000.0 == (if reply.prompt < 0 then 0 else reply.prompt) as real * prices.value.inputPerM
                          + (if reply.completion < 0 then 0 else reply.completion) as real * prices.value.outputPerM
    else cost == 0.0
  }

  lemma PaidIsCost(t: Task, reply: Reply, cost: real)
    requires PaysFor(t.setting.prices, reply, cost)
    ensures cost == StreamCost(t, reply)
  {
  }

  lemma StreamEnd(s: State, id: Id, turn: Turn)
    requires CanHappen(s, StreamEnds(id, turn))
    ensures var t, task := Do(s, StreamEnds(id, turn)), s.tasks[id];
            && t.tasks == s.tasks - {id} && t.gate != Some(id)
            && t.rows == Logged(s.rows, turn, task.setting.provider, task.phase.alias, StreamCost(task, turn.reply))
  {
  }

  /** At its end it is charged its tokens, to its own key, and the request is over; and the
      ledger can be pruned at any time. */
  lemma StreamEndsCharged(s: State, id: Id, turn: Turn, cost: real, cutoff: Date)
    requires CanHappen(s, StreamEnds(id, turn)) && PaysFor(s.tasks[id].setting.prices, turn.reply, cost)
    ensures var t := Do(s, StreamEnds(id, turn));
            && t.tasks == s.tasks - {id} && t.gate != Some(id)
            && t.rows == Logged(s.rows, turn, s.tasks[id].setting.provider, s.tasks[id].phase.alias, cost)
    ensures Do(s, Pruned(cutoff)) == s.(rows := Prune(s.rows, cutoff))
  {
    PaidIsCost(s.tasks[id], turn.reply, cost);
    StreamEnd(s, id, turn);
  }

  /** In every reachable state at most one request of all the budgeted providers is past the
      gate, and none of them streams; and the gate is never held by a request that is over. */
  lemma OneAtATime(s: State, events: seq<Event>, a: Id, b: Id)
    requires Initial(s)
    requires var t := Run(s, events).tasks; a in t && b in t && Gated(t[a]) && Gated(t[b])
    ensures a == b && Run(s, events).gate == Some(a)
    ensures !Run(s, events).tasks[a].setting.request.stream && !Run(s, events).tasks[a].phase.Relaying?
  {
    RunKeepsInv(s, events);
    assert TaskOk(Run(s, events), a) && TaskOk(Run(s, events), b);
  }

  lemma GateIsReturned(s: State, events: seq<Event>)
    requires Initial(s) && Run(s, events).gate.Some?
    ensures var end := Run(s, events); end.gate.value in end.tasks && Gated(end.tasks[end.gate.value])
  {
    RunKeepsInv(s, events);
  }

  // ------------------------------------------------------------------ what the others do

  predicate Charges(e: Event) {
    e.Replied? || e.StreamEnds?
  }

  lemma LoggedElsewhere(rows: seq<Row>, turn: Turn, other: string, alias: string, cost: real, provider: string)
    requires NonNegative(rows) && cost >= 0.0 && other != provider
    ensures NoMore(rows, Logged(rows, turn, other, alias, cost), provider)
  {
    if turn.logged {
      var c := Charge(other, alias, turn.on, cost);
      OtherChargesAreHarmless(c, provider);
      assert NoMore(rows, (rows => Post(rows, c))(rows), provider);
    }
  }

  lemma SettledLogs(s: State, id: Id, turn: Turn)
    requires id in s.tasks && s.tasks[id].phase.Sent?
    ensures var t := s.tasks[id];
            Settled(s, id, turn).rows == s.rows
            || Settled(s, id, turn).rows ==
               Logged(s.rows, turn, t.setting.provider, t.phase.alias, SettledCost(t.setting, turn))
  {
    SettleLogs(s.tasks[id].setting, turn, Serving([], 0, s.rows, {}, 503), s.tasks[id].phase.alias);
  }

  /** A step that charges no request of a provider never raises the provider's usage. */
  lemma OnlyItsOwnChargesCount(s: State, e: Event, provider: string)
    requires Inv(s) && NonNegative(s.rows)
    requires CanHappen(s, e) && Charges(e) ==> s.tasks[e.id].setting.provider != provider
    ensures NoMore(s.rows, Do(s, e).rows, provider)
  {
    if CanHappen(s, e) {
      match e
      case Replied(id, turn) =>
        var t := s.tasks[id];
        assert TaskOk(s, id);
        if turn.reply.Answer? {
          CostsAreNonNegative(t.setting, turn.reply.prompt, turn.reply.completion);
        }
        SettledLogs(s, id, turn);
        LoggedElsewhere(s.rows, turn, t.setting.provider, t.phase.alias, SettledCost(t.setting, turn), provider);
      case StreamEnds(id, turn) =>
        var t := s.tasks[id];
        assert TaskOk(s, id);
        if turn.reply.Answer? {
          CostsAreNonNegative(t.setting, turn.reply.prompt, turn.reply.completion);
        }
        LoggedElsewhere(s.rows, turn, t.setting.provider, t.phase.alias, StreamCost(t, turn.reply), provider);
      case Pruned(cutoff) =>
        PruningIsHarmless(cutoff, provider);
        assert NoMore(s.rows, (rows => Prune(rows, cutoff))(s.rows), provider);
      case _ =>
    }
  }

  /** The request a step is about. */
  function Subject(e: Event): Option<Id> {
    if e.Pruned? then None else Some(e.id)
  }

  lemma OthersLeaveItAlone(s: State, e: Event, id: Id)
    requires Inv(s) && id in s.tasks && Gated(s.tasks[id]) && Subject(e) != Some(id)
    ensures id in Do(s, e).tasks && Do(s, e).tasks[id] == s.tasks[id]
  {
  }

  /** While a request of a budgeted provider is past the gate, no step of anybody else raises
      its provider's usage or takes the gate from it: what lies between its check and its
      charge is harmless. */
  lemma OthersAreHarmless(s: State, e: Event, id: Id)
    requires Inv(s) && NonNegative(s.rows)
    requires id in s.tasks && Gated(s.tasks[id]) && Subject(e) != Some(id)
    ensures NoMore(s.rows, Do(s, e).rows, s.tasks[id].setting.provider)
    ensures id in Do(s, e).tasks && Do(s, e).tasks[id] == s.tasks[id] && Do(s, e).gate == Some(id)
  {
    assert TaskOk(s, id);
    if CanHappen(s, e) && Charges(e) {
      assert TaskOk(s, e.id);
    }
    OnlyItsOwnChargesCount(s, e, s.tasks[id].setting.provider);
    OthersLeaveItAlone(s, e, id);
    StepKeepsInv(s, e);
    assert TaskOk(Do(s, e), id);
  }

  predicate AllOthers(events: seq<Event>, id: Id) {
    forall i :: 0 <= i < |events| ==> Subject(events[i]) != Some(id)
  }

  /** Nor does any run of them. */
  lemma {:induction false} OthersStayHarmless(s: State, events: seq<Event>, id: Id)
    requires Inv(s) && NonNegative(s.rows) && id in s.tasks && Gated(s.tasks[id]) && AllOthers(events, id)
    ensures var end := Run(s, events);
            && NoMore(s.rows, end.rows, s.tasks[id].setting.provider)
            && Inv(end) && id in end.tasks && end.tasks[id] == s.tasks[id] && end.gate == Some(id)
  {
    if events == [] {
      assert TaskOk(s, id);
    } else {
      var before := Run(s, events[..|events| - 1]);
      OthersStayHarmless(s, events[..|events| - 1], id);
      OthersAreHarmless(before, events[|events| - 1], id);
      NoMoreTwice(s.rows, before.rows, Run(s, events).rows, s.tasks[id].setting.provider);
      RunKeepsInv(s, events);
    }
  }

  lemma SettleReadsOnlyRows(setting: Setting, turn: Turn, a: Serving, b: Serving, alias: string)
    requires a.rows == b.rows
    ensures var x, y := Settle(setting, turn, a, alias), Settle(setting, turn, b, alias);
            x.s.rows == y.s.rows && x.Done? == y.Done? && (x.Done? ==> x.outcome == y.outcome)
  {
  }

  lemma ReplyIsSettled(s: State, id: Id, turn: Turn, t: Serving)
    requires Inv(s) && CanHappen(s, Replied(id, turn)) && Gated(s.tasks[id]) && t.rows == s.rows
    ensures var next := Settle(s.tasks[id].setting, turn, t, s.tasks[id].phase.alias);
            var after := Do(s, Replied(id, turn));
            && after.rows == next.s.rows
            && (id in after.tasks <==> next.Again?) && (next.Again? ==> after.tasks[id].phase.Choosing?)
  {
    assert TaskOk(s, id);
    SettleReadsOnlyRows(s.tasks[id].setting, turn, t, Serving([], 0, s.rows, {}, 503), s.tasks[id].phase.alias);
  }

  lemma AdmittedTry(setting: Setting, turn: Turn, t: Serving, alias: string)
    requires alias !in t.attempted && !turn.stopped
    requires Verdict(setting, t.rows, alias, turn.month, turn.day).None?
    ensures Try(setting, turn, t, alias) ==
            Settle(setting, turn, t.(attempted := t.attempted + {alias}, rows := turn.during(t.rows)), alias)
  {
  }

  /** One attempt of a request past the gate, with any run of the others between its check
      and its reply, is an attempt of the failover loop, and what the others did to the ledger
      meanwhile raised no usage of its provider. */
  lemma AttemptIsATry(s: State, id: Id, alias: string, turn: Turn, between: seq<Event>, later: State, t: Serving)
    requires Inv(s) && NonNegative(s.rows) && AllOthers(between, id)
    requires CanHappen(s, Check(id, alias, turn.month, turn.day)) && Gated(s.tasks[id])
    requires Verdict(s.tasks[id].setting, s.rows, alias, turn.month, turn.day).None?
    requires later == Run(Do(s, Check(id, alias, turn.month, turn.day)), between) && CanHappen(later, Replied(id, turn))
    requires t.rows == s.rows && alias !in t.attempted && !turn.stopped && turn.during(s.rows) == later.rows
    ensures NoMore(s.rows, turn.during(s.rows), s.tasks[id].setting.provider)
    ensures var after, next := Do(later, Replied(id, turn)), Try(s.tasks[id].setting, turn, t, alias);
            && after.rows == next.s.rows
            && (id in after.tasks <==> next.Again?) && (next.Again? ==> after.tasks[id].phase.Choosing?)
  {
    var checked := Do(s, Check(id, alias, turn.month, turn.day));
    CheckKeepsInv(s, id, alias, turn.month, turn.day);
    assert checked.rows == s.rows && checked.tasks[id] == s.tasks[id].(phase := Sent(alias, turn.month, turn.day));
    OthersStayHarmless(checked, between, id);
    AdmittedTry(s.tasks[id].setting, turn, t, alias);
    ReplyIsSettled(later, id, turn, t.(attempted := t.attempted + {alias}, rows := later.rows));
  }

  // ------------------------------------------------------------------ caps

  /** A check that was passed and is not yet charged for still stands. */
  predicate CheckStands(t: Task, rows: seq<Row>, today: Date, limit: Limit, kept: Keeping) {
    t.phase.Sent? ==>
      && Fits(t.setting, rows, t.phase.alias, limit, t.phase.month, t.phase.day)
      && kept(rows, t.phase.month) && NotBefore(t.phase.day, t.phase.month) && NotBefore(today, t.phase.day)
  }

  ghost predicate TaskKeeps(t: Task, rows: seq<Row>, today: Date, limit: Limit, kept: Keeping) {
    t.setting.provider == limit.provider ==> Binding(t.setting, limit) && CheckStands(t, rows, today, limit, kept)
  }

  ghost predicate LimitInv(s: State, limit: Limit, kept: Keeping) {
    && Inv(s) && kept(s.rows, s.today)
    && forall id :: id in s.tasks ==> TaskKeeps(s.tasks[id], s.rows, s.today, limit, kept)
  }

  lemma TaskStillKeeps(t: Task, rows: seq<Row>, after: seq<Row>, today: Date, later: Date, limit: Limit, kept: Keeping)
    requires KeepingOf(limit, kept) && TaskKeeps(t, rows, today, limit, kept)
    requires NoMore(rows, after, limit.provider) && NotBefore(later, today)
    ensures TaskKeeps(t, after, later, limit, kept)
  {
    if t.setting.provider == limit.provider && t.phase.Sent? {
      FitsStays(t.setting, rows, after, t.phase.alias, limit, t.phase.month, t.phase.day);
      KeptByNoMore(limit, kept, rows, after, t.phase.month);
    }
  }

  lemma CheckedKeeps(t: Task, rows: seq<Row>, today: Date, alias: string, month: Date, day: Date, limit: Limit,
                     kept: Keeping)
    requires KeepingOf(limit, kept) && kept(rows, today) && TaskKeeps(t, rows, today, limit, kept)
    requires NotBefore(month, today) && NotBefore(day, month) && Verdict(t.setting, rows, alias, month, day).None?
    ensures TaskKeeps(t.(phase := Sent(alias, month, day)), rows, day, limit, kept)
  {
    if t.setting.provider == limit.provider {
      KeptOverTime(limit, kept, rows, today, month);
      KeptIsNonNegative(limit, kept, rows, today);
      VerdictMeansFits(t.setting, rows, alias, limit, month, day);
    }
  }

  /** What a step leaves of the request it is about. */
  predicate Follows(s: State, e: Event, id: Id)
    requires id in Do(s, e).tasks
  {
    var after := Do(s, e).tasks[id];
    || (id in s.tasks && after == s.tasks[id])
    || (e.Check? && e.id == id && id in s.tasks && after == s.tasks[id].(phase := Sent(e.alias, e.month, e.day))
        && CanHappen(s, e) && Verdict(after.setting, s.rows, e.alias, e.month, e.day).None?)
    || (e.Arrive? && after == Task(Limited(e.setting), Waiting))
    || (id in s.tasks && after.setting == s.tasks[id].setting && !after.phase.Sent?)
  }

  lemma StepFollows(s: State, e: Event, id: Id)
    requires id in Do(s, e).tasks
    ensures Follows(s, e, id)
  {
  }

  lemma TimeGoesOn(s: State, e: Event)
    ensures NotBefore(Do(s, e).today, s.today)
  {
  }

  /** A request of the limit's provider that arrives has to be one the limit is promised for. */
  ghost predicate Bound(budgets: Budgets, e: Event, limit: Limit) {
    e.Arrive? && e.setting.provider == limit.provider && e.setting.budgets == budgets ==>
      e.setting.prices == DefaultPrices(limit.provider) ==> Binding(Limited(e.setting), limit)
  }

  lemma FollowerKeeps(s: State, e: Event, limit: Limit, kept: Keeping, id: Id)
    requires KeepingOf(limit, kept) && LimitInv(s, limit, kept) && Bound(s.budgets, e, limit)
    requires id in Do(s, e).tasks && NoMore(s.rows, Do(s, e).rows, limit.provider)
    ensures TaskKeeps(Do(s, e).tasks[id], Do(s, e).rows, Do(s, e).today, limit, kept)
  {
    var after := Do(s, e);
    StepFollows(s, e, id);
    TimeGoesOn(s, e);
    if id in s.tasks && after.tasks[id] == s.tasks[id] {
      TaskStillKeeps(s.tasks[id], s.rows, after.rows, s.today, after.today, limit, kept);
    } else if e.Check? {
      CheckedKeeps(s.tasks[id], s.rows, s.today, e.alias, e.month, e.day, limit, kept);
    }
  }

  lemma HarmlessStepKeeps(s: State, e: Event, limit: Limit, kept: Keeping)
    requires KeepingOf(limit, kept) && LimitInv(s, limit, kept) && Bound(s.budgets, e, limit)
    requires NoMore(s.rows, Do(s, e).rows, limit.provider)
    ensures LimitInv(Do(s, e), limit, kept)
  {
    var after := Do(s, e);
    StepKeepsInv(s, e);
    TimeGoesOn(s, e);
    KeptByNoMore(limit, kept, s.rows, after.rows, s.today);
    KeptOverTime(limit, kept, after.rows, s.today, after.today);
    forall id | id in after.tasks
      ensures TaskKeeps(after.tasks[id], after.rows, after.today, limit, kept)
    {
      FollowerKeeps(s, e, limit, kept, id);
    }
  }

  /** The charge that follows a check keeps the limit. */
  lemma ChargeKeeps(t: Task, rows: seq<Row>, today: Date, turn: Turn, limit: Limit, kept: Keeping)
    requires KeepingOf(limit, kept) && TaskKeeps(t, rows, today, limit, kept) && t.phase.Sent?
    requires t.setting.provider == limit.provider && Sound(t.setting) && BillsWithin(t.setting, turn.reply)
    requires kept(rows, today) && NotBefore(turn.on, today)
    ensures kept(Logged(rows, turn, t.setting.provider, t.phase.alias, SettledCost(t.setting, turn)), turn.on)
    ensures kept(rows, turn.on)
  {
    if turn.reply.Answer? {
      CostsAreNonNegative(t.setting, turn.reply.prompt, turn.reply.completion);
    }
    KeptOverTime(limit, kept, rows, today, turn.on);
    LogKeeps(t.setting, limit, kept, turn, rows, t.phase.alias, t.phase.month, t.phase.day, t.phase.month,
             SettledCost(t.setting, turn));
  }

  /** Its request is the only one of the provider past the gate, so no other check stands that
      the charge could upset. */
  lemma ChargeUpsetsNobody(s: State, limit: Limit, kept: Keeping, id: Id, turn: Turn, other: Id)
    requires LimitInv(s, limit, kept) && CanHappen(s, Replied(id, turn))
    requires s.tasks[id].setting.provider == limit.provider
    requires other in Do(s, Replied(id, turn)).tasks
    ensures var after := Do(s, Replied(id, turn));
            TaskKeeps(after.tasks[other], after.rows, after.today, limit, kept)
  {
    var after := Do(s, Replied(id, turn));
    StepFollows(s, Replied(id, turn), other);
    assert TaskOk(s, id) && TaskOk(s, other);
    assert TaskKeeps(s.tasks[id], s.rows, s.today, limit, kept);
    assert TaskKeeps(s.tasks[other], s.rows, s.today, limit, kept);
    if s.tasks[other].setting.provider == limit.provider {
      GateCoversCappedScopes(s.tasks[id].setting, limit);
      GateCoversCappedScopes(s.tasks[other].setting, limit);
      assert other != id ==> s.tasks[other].phase.Waiting?;
    }
  }

  lemma ReplyKeeps(s: State, limit: Limit, kept: Keeping, id: Id, turn: Turn)
    requires KeepingOf(limit, kept) && LimitInv(s, limit, kept) && CanHappen(s, Replied(id, turn))
    requires s.tasks[id].setting.provider == limit.provider
    ensures LimitInv(Do(s, Replied(id, turn)), limit, kept)
  {
    var t, after := s.tasks[id], Do(s, Replied(id, turn));
    assert TaskOk(s, id) && TaskKeeps(t, s.rows, s.today, limit, kept);
    GateCoversCappedScopes(t.setting, limit);
    ChargeKeeps(t, s.rows, s.today, turn, limit, kept);
    SettledLogs(s, id, turn);
    StepKeepsInv(s, Replied(id, turn));
    assert after.today == turn.on && kept(after.rows, turn.on);
    forall other | other in after.tasks
      ensures TaskKeeps(after.tasks[other], after.rows, after.today, limit, kept)
    {
      ChargeUpsetsNobody(s, limit, kept, id, turn, other);
    }
  }

  lemma StepKeepsLimit(s: State, e: Event, limit: Limit, kept: Keeping)
    requires KeepingOf(limit, kept) && LimitInv(s, limit, kept) && Bound(s.budgets, e, limit)
    ensures LimitInv(Do(s, e), limit, kept)
  {
    if CanHappen(s, e) && Charges(e) && s.tasks[e.id].setting.provider == limit.provider {
      assert TaskOk(s, e.id) && TaskKeeps(s.tasks[e.id], s.rows, s.today, limit, kept);
      GateCoversCappedScopes(s.tasks[e.id].setting, limit);
      assert e.Replied?;
      ReplyKeeps(s, limit, kept, e.id, e.turn);
    } else {
      KeptIsNonNegative(limit, kept, s.rows, s.today);
      OnlyItsOwnChargesCount(s, e, limit.provider);
      HarmlessStepKeeps(s, e, limit, kept);
    }
  }

  lemma {:induction false} BudgetsStay(s: State, events: seq<Event>)
    ensures Run(s, events).budgets == s.budgets
  {
    if events != [] {
      BudgetsStay(s, events[..|events| - 1]);
    }
  }

  lemma {:induction false} RunKeepsLimit(s: State, events: seq<Event>, limit: Limit, kept: Keeping)
    requires KeepingOf(limit, kept) && LimitInv(s, limit, kept)
    requires forall i :: 0 <= i < |events| ==> Bound(s.budgets, events[i], limit)
    ensures LimitInv(Run(s, events), limit, kept)
  {
    if events != [] {
      RunKeepsLimit(s, events[..|events| - 1], limit, kept);
      BudgetsStay(s, events[..|events| - 1]);
      StepKeepsLimit(Run(s, events[..|events| - 1]), events[|events| - 1], limit, kept);
    }
  }

  /** The caps a configuration promises: a key's own, or its provider's when no key of the
      provider can spend on a budget of its own. */
  ghost predicate PromisedToAll(budgets: Budgets, limit: Limit, least: nat) {
    && Capped(limit.budget)
    && match limit.scope
       case Some(alias) =>
         KeyScope(limit.provider, alias) in budgets && budgets[KeyScope(limit.provider, alias)] == limit.budget
       case None =>
         limit.provider in budgets && budgets[limit.provider] == limit.budget
         && KeysNeverSpend(budgets, limit.provider, DefaultPrices(limit.provider), least)
  }

  lemma PromisedIsBinding(setting: Setting, limit: Limit, least: nat)
    requires PromisedToAll(setting.budgets, limit, least) && setting.provider == limit.provider
    requires setting.prices == DefaultPrices(setting.provider) && setting.request.size >= least
    ensures Binding(Limited(setting), limit)
  {
    if limit.scope.None? {
      NeverSpendMeansRefuse(Limited(setting), least);
    }
  }

  predicate BigEnough(events: seq<Event>, least: nat) {
    forall i :: 0 <= i < |events| && events[i].Arrive? ==> events[i].setting.request.size >= least
  }

  /** Over every interleaving of any number of requests that starts within a promised cap, no
      month and no day ever exceeds it. */
  lemma CapsHoldOverRuns(s: State, events: seq<Event>, limit: Limit, least: nat)
    requires Initial(s) && PromisedToAll(s.budgets, limit, least) && BigEnough(events, least)
    requires CapsHold(s.rows, limit.provider, limit.scope, limit.budget, s.today)
    ensures var end := Run(s, events);
            CapsHold(end.rows, limit.provider, limit.scope, limit.budget, end.today)
  {
    ghost var kept: Keeping := (rows: seq<Row>, d: Date) => CapsHold(rows, limit.provider, limit.scope, limit.budget, d);
    forall i | 0 <= i < |events|
      ensures Bound(s.budgets, events[i], limit)
    {
      if events[i].Arrive? && events[i].setting.provider == limit.provider && events[i].setting.budgets == s.budgets
         && events[i].setting.prices == DefaultPrices(limit.provider) {
        PromisedIsBinding(events[i].setting, limit, least);
      }
    }
    RunKeepsLimit(s, events, limit, kept);
  }
}
