/**
 Choosing a provider's key and marking keys after a reply (src/router.rs). Keys are ranked
 by priority, those switched off or cooling down are passed over, and a provider may rotate
 through the rest.
 */
module Router {
  import opened Wrappers
  import opened VaultEntries

  datatype ProviderConfig = ProviderConfig(enabled: bool, roundRobin: bool)

  datatype Choice = Chosen(alias: string) | UnknownProvider | DisabledProvider | NoKey

  // ------------------------------------------------------------------ ranking

  predicate Usable(e: Entry, now: int) {
    e.enabled && (e.cooldownUntil.None? || e.cooldownUntil.value < now)
  }

  function Filter(entries: seq<Entry>, keep: Entry -> bool): seq<Entry> {
    if entries == [] then []
    else (if keep(entries[0]) then [entries[0]] else []) + Filter(entries[1..], keep)
  }

  /** Puts an entry in front of those of its own priority. */
  function InsertByPriority(e: Entry, sorted: seq<Entry>): seq<Entry> {
    if sorted == [] || e.priority <= sorted[0].priority then [e] + sorted
    else [sorted[0]] + InsertByPriority(e, sorted[1..])
  }

  function SortByPriority(entries: seq<Entry>): seq<Entry> {
    if entries == [] then [] else InsertByPriority(entries[0], SortByPriority(entries[1..]))
  }

  function KeysOf(entries: seq<Entry>, provider: string): seq<Entry> {
    SortByPriority(Filter(entries, (e: Entry) => e.provider == provider))
  }

  function Eligible(entries: seq<Entry>, provider: string, now: int): seq<Entry> {
    Filter(KeysOf(entries, provider), (e: Entry) => Usable(e, now))
  }

  predicate Sorted(entries: seq<Entry>) {
    forall i, j :: 0 <= i < j < |entries| ==> entries[i].priority <= entries[j].priority
  }

  function OfPriority(entries: seq<Entry>, priority: nat): seq<Entry> {
    Filter(entries, (e: Entry) => e.priority == priority)
  }

  lemma {:induction false} InFilter(entries: seq<Entry>, keep: Entry -> bool, e: Entry)
    ensures e in Filter(entries, keep) <==> e in entries && keep(e)
  {
    if entries != [] {
      InFilter(entries[1..], keep, e);
      assert e in entries <==> e == entries[0] || e in entries[1..];
    }
  }

  lemma {:induction false} InInsert(x: Entry, sorted: seq<Entry>, e: Entry)
    ensures e in InsertByPriority(x, sorted) <==> e == x || e in sorted
  {
    if sorted != [] && x.priority > sorted[0].priority {
      InInsert(x, sorted[1..], e);
      assert e in sorted <==> e == sorted[0] || e in sorted[1..];
    }
  }

  lemma {:induction false} InSort(entries: seq<Entry>, e: Entry)
    ensures e in SortByPriority(entries) <==> e in entries
  {
    if entries != [] {
      InSort(entries[1..], e);
      InInsert(entries[0], SortByPriority(entries[1..]), e);
      assert e in entries <==> e == entries[0] || e in entries[1..];
    }
  }

  lemma {:induction false} InsertIsSorted(x: Entry, sorted: seq<Entry>)
    requires Sorted(sorted)
    ensures Sorted(InsertByPriority(x, sorted))
  {
    if sorted != [] && x.priority > sorted[0].priority {
      var rest := InsertByPriority(x, sorted[1..]);
      InsertIsSorted(x, sorted[1..]);
      forall j | 0 <= j < |rest|
        ensures sorted[0].priority <= rest[j].priority
      {
        InInsert(x, sorted[1..], rest[j]);
      }
    }
  }

  lemma {:induction false} SortIsSorted(entries: seq<Entry>)
    ensures Sorted(SortByPriority(entries))
  {
    if entries != [] {
      SortIsSorted(entries[1..]);
      InsertIsSorted(entries[0], SortByPriority(entries[1..]));
    }
  }

  lemma {:induction false} FilterAfterHead(x: Entry, rest: seq<Entry>, keep: Entry -> bool)
    ensures Filter([x] + rest, keep) == (if keep(x) then [x] else []) + Filter(rest, keep)
  {
  }

  lemma {:induction false} InsertIsStable(x: Entry, sorted: seq<Entry>, priority: nat)
    ensures OfPriority(InsertByPriority(x, sorted), priority) ==
            (if x.priority == priority then [x] else []) + OfPriority(sorted, priority)
  {
    var keep := (e: Entry) => e.priority == priority;
    if sorted == [] || x.priority <= sorted[0].priority {
      FilterAfterHead(x, sorted, keep);
    } else {
      InsertIsStable(x, sorted[1..], priority);
      FilterAfterHead(sorted[0], InsertByPriority(x, sorted[1..]), keep);
    }
  }

  /** Keys of equal priority keep the order they have in the vault, and none is lost or added. */
  lemma {:induction false} SortIsStable(entries: seq<Entry>, priority: nat)
    ensures OfPriority(SortByPriority(entries), priority) == OfPriority(entries, priority)
  {
    if entries != [] {
      SortIsStable(entries[1..], priority);
      InsertIsStable(entries[0], SortByPriority(entries[1..]), priority);
    }
  }

  /** Eligible are exactly the provider's keys that may be used now. */
  lemma EligibleIsUsable(entries: seq<Entry>, provider: string, now: int, e: Entry)
    ensures e in Eligible(entries, provider, now) <==> e in entries && e.provider == provider && Usable(e, now)
  {
    var mine := Filter(entries, (e: Entry) => e.provider == provider);
    InFilter(KeysOf(entries, provider), (e: Entry) => Usable(e, now), e);
    InSort(mine, e);
    InFilter(entries, (e: Entry) => e.provider == provider, e);
  }

  lemma {:induction false} FilterTwice(entries: seq<Entry>, a: Entry -> bool, b: Entry -> bool, both: Entry -> bool)
    requires forall e :: both(e) <==> a(e) && b(e)
    ensures Filter(Filter(entries, a), b) == Filter(entries, both)
  {
    if entries != [] {
      FilterTwice(entries[1..], a, b, both);
      if a(entries[0]) {
        FilterAfterHead(entries[0], Filter(entries[1..], a), b);
      } else {
        assert Filter(entries, a) == Filter(entries[1..], a);
        assert !both(entries[0]);
      }
    }
  }

  /** The eligible keys are sorted by priority, and those of one priority are exactly the
      provider's usable keys of that priority, in vault order. */
  lemma EligibleIsRanked(entries: seq<Entry>, provider: string, now: int, priority: nat)
    ensures Sorted(Eligible(entries, provider, now))
    ensures OfPriority(Eligible(entries, provider, now), priority) ==
            Filter(entries, (e: Entry) => e.provider == provider && Usable(e, now) && e.priority == priority)
  {
    var its, usable := (e: Entry) => e.provider == provider, (e: Entry) => Usable(e, now);
    var ranked := (e: Entry) => e.priority == priority;
    var mine := Filter(entries, its);
    var both := (e: Entry) => Usable(e, now) && e.priority == priority;
    SortIsSorted(mine);
    FilterIsSorted(SortByPriority(mine), usable);
    FilterTwice(SortByPriority(mine), usable, ranked, both);
    FilterTwice(SortByPriority(mine), ranked, usable, both);
    SortIsStable(mine, priority);
    FilterTwice(mine, ranked, usable, both);
    FilterTwice(entries, its, both, (e: Entry) => e.provider == provider && Usable(e, now) && e.priority == priority);
  }

  lemma {:induction false} FilterIsSorted(entries: seq<Entry>, keep: Entry -> bool)
    requires Sorted(entries)
    ensures Sorted(Filter(entries, keep))
  {
    if entries != [] {
      FilterIsSorted(entries[1..], keep);
      var rest := Filter(entries[1..], keep);
      forall j | 0 <= j < |rest|
        ensures entries[0].priority <= rest[j].priority
      {
        InFilter(entries[1..], keep, rest[j]);
      }
    }
  }

  /** The first eligible key has the best priority of all the provider's usable keys. */
  lemma FirstEligibleIsBest(entries: seq<Entry>, provider: string, now: int, e: Entry)
    requires e in entries && e.provider == provider && Usable(e, now)
    ensures Eligible(entries, provider, now) != []
    ensures var first := Eligible(entries, provider, now)[0];
            first in entries && first.provider == provider && Usable(first, now) && first.priority <= e.priority
  {
    EligibleIsUsable(entries, provider, now, e);
    EligibleIsUsable(entries, provider, now, Eligible(entries, provider, now)[0]);
    EligibleIsRanked(entries, provider, now, e.priority);
  }

  // ------------------------------------------------------------------ selection

  const COUNTER_LIMIT: nat := 0x1_0000_0000_0000_0000

  type Counter = c: nat | c < COUNTER_LIMIT

  predicate Keyless(provider: string) {
    provider == "ollama" || provider == "lmstudio"
  }

  function Remainder(count: nat, n: nat): (r: nat)
    requires n > 0
    ensures r < n
  {
    if count < n then count else Remainder(count - n, n)
  }

  function Advanced(counter: Counter): Counter {
    if counter + 1 == COUNTER_LIMIT then 0 else counter + 1
  }

  /** What is chosen, and whether the rotation counter moves on. */
  function Select(entries: seq<Entry>, config: map<string, ProviderConfig>, counter: nat, provider: string, now: int)
    : (Choice, bool)
  {
    if provider !in config then (UnknownProvider, false)
    else if !config[provider].enabled then (DisabledProvider, false)
    else
      var eligible := Eligible(entries, provider, now);
      if eligible == [] then (if Keyless(provider) then Chosen("local") else NoKey, false)
      else if config[provider].roundRobin then (Chosen(eligible[Remainder(counter, |eligible|)].alias), true)
      else (Chosen(eligible[0].alias), false)
  }

  /** Among keys, a choice is always a usable key of the provider; only a keyless provider is
      ever served without one. */
  lemma ChoiceIsUsable(entries: seq<Entry>, config: map<string, ProviderConfig>, counter: nat, provider: string,
                       now: int)
    requires Select(entries, config, counter, provider, now).0.Chosen?
    ensures var alias := Select(entries, config, counter, provider, now).0.alias;
            (Keyless(provider) && alias == "local")
            || exists e :: e in entries && e.alias == alias && e.provider == provider && Usable(e, now)
  {
    var eligible := Eligible(entries, provider, now);
    if eligible != [] {
      var i := if config[provider].roundRobin then Remainder(counter, |eligible|) else 0;
      EligibleIsUsable(entries, provider, now, eligible[i]);
      assert eligible[i] in entries;
    }
  }

  /** A key is refused to a configured, enabled provider exactly when none of its keys is
      usable and it needs one. */
  lemma NoKeyExactlyWhen(entries: seq<Entry>, config: map<string, ProviderConfig>, counter: nat,
                         provider: string, now: int)
    requires provider in config && config[provider].enabled
    ensures Select(entries, config, counter, provider, now).0 == NoKey <==>
            !Keyless(provider) && forall e :: e in entries && e.provider == provider ==> !Usable(e, now)
  {
    var eligible := Eligible(entries, provider, now);
    if eligible == [] {
      forall e | e in entries && e.provider == provider
        ensures !Usable(e, now)
      {
        EligibleIsUsable(entries, provider, now, e);
      }
    } else {
      EligibleIsUsable(entries, provider, now, eligible[0]);
    }
  }

  /** The provider's key is switched on and past its cooldown. */
  predicate MayServe(entries: seq<Entry>, provider: string, now: int, e: Entry) {
    e in entries && e.provider == provider && e.enabled && (e.cooldownUntil.Some? ==> e.cooldownUntil.value < now)
  }

  ghost predicate NoneMayServe(entries: seq<Entry>, provider: string, now: int) {
    forall e :: !MayServe(entries, provider, now, e)
  }

  /** One of the keys that may serve, and without rotation one of the best priority. */
  ghost predicate ServesWell(entries: seq<Entry>, provider: string, now: int, alias: string, best: bool) {
    exists e :: MayServe(entries, provider, now, e) && e.alias == alias && (best ==> NoneIsBetter(entries, provider, now, e))
  }

  ghost predicate NoneIsBetter(entries: seq<Entry>, provider: string, now: int, e: Entry) {
    forall o :: MayServe(entries, provider, now, o) ==> e.priority <= o.priority
  }

  lemma EligibleMayServe(entries: seq<Entry>, provider: string, now: int)
    ensures Eligible(entries, provider, now) == [] <==> NoneMayServe(entries, provider, now)
  {
    var eligible := Eligible(entries, provider, now);
    if eligible != [] {
      EligibleIsUsable(entries, provider, now, eligible[0]);
      assert MayServe(entries, provider, now, eligible[0]);
    }
    forall e | MayServe(entries, provider, now, e)
      ensures eligible != []
    {
      EligibleIsUsable(entries, provider, now, e);
    }
  }

  lemma EligibleServes(entries: seq<Entry>, provider: string, now: int, k: nat)
    requires k < |Eligible(entries, provider, now)|
    ensures ServesWell(entries, provider, now, Eligible(entries, provider, now)[k].alias, k == 0)
  {
    var eligible := Eligible(entries, provider, now);
    EligibleIsUsable(entries, provider, now, eligible[k]);
    assert MayServe(entries, provider, now, eligible[k]);
    if k == 0 {
      forall o | MayServe(entries, provider, now, o)
        ensures eligible[0].priority <= o.priority
      {
        FirstEligibleIsBest(entries, provider, now, o);
      }
      assert NoneIsBetter(entries, provider, now, eligible[0]);
    }
  }

  // ------------------------------------------------------------------ fairness

  /** How many of the `length` selections from a counter value on fall on position `i` of `n`. */
  function Picks(start: nat, length: nat, n: nat, i: nat): nat
    requires n > 0
  {
    if length == 0 then 0
    else Picks(start, length - 1, n, i) + if Remainder(start + (length - 1), n) == i then 1 else 0
  }

  lemma {:induction false} PicksFromNext(start: nat, length: nat, n: nat, i: nat)
    requires n > 0
    ensures Picks(start, length + 1, n, i) ==
            (if Remainder(start, n) == i then 1 else 0) + Picks(start + 1, length, n, i)
  {
    if length > 0 {
      PicksFromNext(start, length - 1, n, i);
    }
  }

  lemma {:induction false} PicksBelow(length: nat, n: nat, i: nat)
    requires n > 0 && length <= n
    ensures Picks(0, length, n, i) == if i < length then 1 else 0
  {
    if length > 0 {
      PicksBelow(length - 1, n, i);
    }
  }

  /** Any round of `n` selections falls on each position once. */
  lemma {:induction false} OneRound(start: nat, n: nat, i: nat)
    requires i < n
    ensures Picks(start, n, n, i) == 1
  {
    if start == 0 {
      PicksBelow(n, n, i);
    } else {
      OneRound(start - 1, n, i);
      PicksFromNext(start - 1, n, n, i);
      assert Remainder(start - 1 + n, n) == Remainder(start - 1, n);
    }
  }

  lemma {:induction false} PicksSplit(start: nat, a: nat, b: nat, n: nat, i: nat)
    requires n > 0
    ensures Picks(start, a + b, n, i) == Picks(start, a, n, i) + Picks(start + a, b, n, i)
  {
    if b > 0 {
      PicksSplit(start, a, b - 1, n, i);
      assert a + b - 1 == a + (b - 1);
    }
  }

  /** `k` times `n`. */
  function Multiple(k: nat, n: nat): nat {
    if k == 0 then 0 else Multiple(k - 1, n) + n
  }

  lemma {:induction false} EachPositionEqually(start: nat, k: nat, n: nat, i: nat)
    requires i < n
    ensures Picks(start, Multiple(k, n), n, i) == k
  {
    if k > 0 {
      EachPositionEqually(start, k - 1, n, i);
      PicksSplit(start, Multiple(k - 1, n), n, n, i);
      OneRound(start + Multiple(k - 1, n), n, i);
    }
  }

  /** The vault and the clock as a selection finds them. */
  datatype Sight = Sight(entries: seq<Entry>, now: int)

  /** How many of the first `length` events of a run are as told. */
  function HowMany(holds: nat -> bool, length: nat): nat {
    if length == 0 then 0 else HowMany(holds, length - 1) + if holds(length - 1) then 1 else 0
  }

  /** A selection leaves the next one its counter. */
  predicate Leaves(at: Sight, config: map<string, ProviderConfig>, provider: string, counter: Counter, next: Counter) {
    next == if Select(at.entries, config, counter, provider, at.now).1 then Advanced(counter) else counter
  }

  predicate LeavesAt(sights: nat -> Sight, config: map<string, ProviderConfig>, provider: string,
                     counters: nat -> Counter, m: nat)
  {
    Leaves(sights(m), config, provider, counters(m), counters(m + 1))
  }

  /** The counters are those that selections leave behind, each going on from the one before. */
  ghost predicate LeftBehind(sights: nat -> Sight, config: map<string, ProviderConfig>, provider: string,
                             counters: nat -> Counter, length: nat)
  {
    forall m: nat :: m < length ==> LeavesAt(sights, config, provider, counters, m)
  }

  predicate ChoosesAt(at: Sight, config: map<string, ProviderConfig>, counter: Counter, provider: string,
                      alias: string)
  {
    Select(at.entries, config, counter, provider, at.now).0 == Chosen(alias)
  }

  /** The selections that choose an alias. */
  function Chooses(sights: nat -> Sight, config: map<string, ProviderConfig>, counters: nat -> Counter,
                   provider: string, alias: string): nat -> bool
  {
    (m: nat) => ChoosesAt(sights(m), config, counters(m), provider, alias)
  }

  /** How often an alias is chosen in `length` selections. */
  function TimesChosen(sights: nat -> Sight, config: map<string, ProviderConfig>, counters: nat -> Counter,
                       provider: string, length: nat, alias: string): nat
  {
    HowMany(Chooses(sights, config, counters, provider, alias), length)
  }

  /** Each of so many selections finds the same eligible keys, in the same order. */
  predicate SameEligible(sights: nat -> Sight, provider: string, length: nat, eligible: seq<Entry>) {
    forall m: nat :: m < length ==> Eligible(sights(m).entries, provider, sights(m).now) == eligible
  }

  lemma PositionIsChosen(at: Sight, config: map<string, ProviderConfig>, counter: Counter, provider: string,
                         eligible: seq<Entry>, i: nat)
    requires provider in config && config[provider].enabled && config[provider].roundRobin
    requires i < |eligible| && UniqueAliases(eligible) && Eligible(at.entries, provider, at.now) == eligible
    ensures ChoosesAt(at, config, counter, provider, eligible[i].alias) <==> Remainder(counter, |eligible|) == i
  {
    var r := Remainder(counter, |eligible|);
    assert r != i ==> eligible[r].alias != eligible[i].alias;
  }

  lemma RotationMoves(at: Sight, config: map<string, ProviderConfig>, counter: Counter, next: Counter,
                      provider: string)
    requires provider in config && config[provider].enabled && config[provider].roundRobin
    requires Eligible(at.entries, provider, at.now) != [] && Leaves(at, config, provider, counter, next)
    requires counter + 1 < COUNTER_LIMIT
    ensures next == counter + 1
  {
  }

  /** Each of the selections moves the counter on by one. */
  lemma {:induction false} CounterMovesOn(sights: nat -> Sight, config: map<string, ProviderConfig>,
                                          counters: nat -> Counter, provider: string, eligible: seq<Entry>,
                                          length: nat, m: nat)
    requires provider in config && config[provider].enabled && config[provider].roundRobin
    requires eligible != [] && SameEligible(sights, provider, length, eligible)
    requires LeftBehind(sights, config, provider, counters, length)
    requires m <= length && counters(0) + m < COUNTER_LIMIT
    ensures counters(m) == counters(0) + m
  {
    if m > 0 {
      CounterMovesOn(sights, config, counters, provider, eligible, length, m - 1);
      assert LeavesAt(sights, config, provider, counters, m - 1);
      RotationMoves(sights(m - 1), config, counters(m - 1), counters(m), provider);
    }
  }

  /** Whether the `m`-th event of a run happens is told by the counter it is at. */
  predicate ByPosition(holds: nat -> bool, start: nat, n: nat, i: nat, m: nat)
    requires n > 0
  {
    holds(m) <==> Remainder(start + m, n) == i
  }

  lemma {:induction false} HowManyPicks(holds: nat -> bool, start: nat, length: nat, n: nat, i: nat)
    requires n > 0 && forall m: nat :: m < length ==> ByPosition(holds, start, n, i, m)
    ensures HowMany(holds, length) == Picks(start, length, n, i)
  {
    if length > 0 {
      HowManyPicks(holds, start, length - 1, n, i);
      assert ByPosition(holds, start, n, i, length - 1);
    }
  }

  lemma ChosenAt(sights: nat -> Sight, config: map<string, ProviderConfig>, counters: nat -> Counter,
                 provider: string, eligible: seq<Entry>, length: nat, i: nat, m: nat)
    requires provider in config && config[provider].enabled && config[provider].roundRobin
    requires i < |eligible| && UniqueAliases(eligible) && SameEligible(sights, provider, length, eligible)
    requires LeftBehind(sights, config, provider, counters, length) && counters(0) + length <= COUNTER_LIMIT
    requires m < length
    ensures ByPosition(Chooses(sights, config, counters, provider, eligible[i].alias), counters(0), |eligible|, i, m)
  {
    CounterMovesOn(sights, config, counters, provider, eligible, length, m);
    PositionIsChosen(sights(m), config, counters(m), provider, eligible, i);
  }

  /** Rotation is fair: while the eligible keys stay the same, whatever else changes in the
      vault and as time passes, and the counter does not wrap, any whole number of rounds, each
      selection going on from the counter the one before it left, chooses each key equally
      often. */
  lemma RotationIsFair(sights: nat -> Sight, config: map<string, ProviderConfig>, counters: nat -> Counter,
                       provider: string, eligible: seq<Entry>, k: nat, i: nat)
    requires provider in config && config[provider].enabled && config[provider].roundRobin
    requires i < |eligible| && UniqueAliases(eligible)
    requires SameEligible(sights, provider, Multiple(k, |eligible|), eligible)
    requires LeftBehind(sights, config, provider, counters, Multiple(k, |eligible|))
    requires counters(0) + Multiple(k, |eligible|) <= COUNTER_LIMIT
    ensures TimesChosen(sights, config, counters, provider, Multiple(k, |eligible|), eligible[i].alias) == k
  {
    var chosen := Chooses(sights, config, counters, provider, eligible[i].alias);
    var length := Multiple(k, |eligible|);
    forall m: nat | m < length
      ensures ByPosition(chosen, counters(0), |eligible|, i, m)
    {
      ChosenAt(sights, config, counters, provider, eligible, length, i, m);
    }
    HowManyPicks(chosen, counters(0), length, |eligible|, i);
    EachPositionEqually(counters(0), k, |eligible|, i);
  }

  // ------------------------------------------------------------------ marking

  predicate ServerError(status: nat) {
    500 <= status <= 599
  }

  /** A count of seconds as the signed width stores it. */
  function AsI64(n: nat): int {
    if n < 0x8000_0000_0000_0000 then n else n - 0x1_0000_0000_0000_0000
  }

  function CooldownSeconds(status: nat, retryAfter: Option<nat>): int {
    if status == 429 then (if retryAfter.Some? then AsI64(retryAfter.value) else 60) else 10
  }

  function Failed(entries: seq<Entry>, alias: string, status: nat, retryAfter: Option<nat>, now: int): seq<Entry> {
    if status == 429 || ServerError(status) then
      Update(entries, alias, (e: Entry) => e.(cooldownUntil := Some(now + CooldownSeconds(status, retryAfter))))
    else if status == 401 then
      Update(entries, alias, (e: Entry) => e.(enabled := false))
    else
      entries
  }

  function Succeeded(entries: seq<Entry>, alias: string): seq<Entry> {
    Update(entries, alias, (e: Entry) => e.(cooldownUntil := None))
  }

  /** A failed key is usable again exactly when it was only cooled down and the clock has gone
      strictly past the cooldown; no other key is affected. */
  lemma FailureTakesKeyOut(entries: seq<Entry>, alias: string, status: nat, retryAfter: Option<nat>, now: int,
                           i: nat, later: int)
    requires i < |entries| && (status == 401 || status == 429 || ServerError(status))
    ensures |Failed(entries, alias, status, retryAfter, now)| == |entries|
    ensures var after := Failed(entries, alias, status, retryAfter, now)[i];
            && after.alias == entries[i].alias && after.provider == entries[i].provider
            && after.priority == entries[i].priority && after.apiKey == entries[i].apiKey
            && (if entries[i].alias == alias && FirstOfAlias(entries, i) then
                  (Usable(after, later) <==>
                   status != 401 && entries[i].enabled && later > now + CooldownSeconds(status, retryAfter))
                else
                  after == entries[i])
  {
    if status == 401 {
      UpdateChangesTheFirst(entries, alias, (e: Entry) => e.(enabled := false), i);
    } else {
      UpdateChangesTheFirst(entries, alias,
                            (e: Entry) => e.(cooldownUntil := Some(now + CooldownSeconds(status, retryAfter))), i);
    }
  }

  /** A success takes its key off cooldown and leaves every other key alone. */
  lemma SuccessRestoresKey(entries: seq<Entry>, alias: string, i: nat, now: int)
    requires i < |entries|
    ensures |Succeeded(entries, alias)| == |entries|
    ensures var after := Succeeded(entries, alias)[i];
            if entries[i].alias == alias && FirstOfAlias(entries, i) then
              after == entries[i].(cooldownUntil := None) && (Usable(after, now) <==> entries[i].enabled)
            else
              after == entries[i]
  {
    UpdateChangesTheFirst(entries, alias, (e: Entry) => e.(cooldownUntil := None), i);
  }

  /** How many seconds a failure keeps a key out; a count of more than 63 bits is taken as the
      negative number that its bits stand for. */
  predicate KeepsOutFor(status: nat, retryAfter: Option<nat>, seconds: int) {
    if status == 429 then
      if retryAfter.None? then seconds == 60
      else if retryAfter.value < 0x8000_0000_0000_0000 then seconds == retryAfter.value
      else seconds == retryAfter.value - 0x1_0000_0000_0000_0000
    else seconds == 10
  }

  /** A failure switches the first key of the alias off, keeps it out for a time or leaves it
      alone, by its status; every other key is as it was. */
  ghost predicate FailureShows(before: seq<Entry>, after: seq<Entry>, alias: string, status: nat,
                               retryAfter: Option<nat>, now: int)
  {
    if status == 401 then OnlyFirstChanged(before, after, alias, (e: Entry) => e.(enabled := false))
    else if status == 429 || 500 <= status <= 599 then
      exists seconds {:trigger KeepsOutFor(status, retryAfter, seconds)} ::
        KeepsOutFor(status, retryAfter, seconds)
        && OnlyFirstChanged(before, after, alias, (e: Entry) => e.(cooldownUntil := Some(now + seconds)))
    else after == before
  }

  lemma FailedShows(entries: seq<Entry>, alias: string, status: nat, retryAfter: Option<nat>, now: int)
    ensures FailureShows(entries, Failed(entries, alias, status, retryAfter, now), alias, status, retryAfter, now)
  {
    if status == 401 {
      UpdateChangesOnlyTheFirst(entries, alias, (e: Entry) => e.(enabled := false));
    } else if status == 429 || ServerError(status) {
      var seconds := CooldownSeconds(status, retryAfter);
      UpdateChangesOnlyTheFirst(entries, alias, (e: Entry) => e.(cooldownUntil := Some(now + seconds)));
      assert KeepsOutFor(status, retryAfter, seconds);
    }
  }

  // ------------------------------------------------------------------ the router

  class Router {
    const vault: KeyRing
    const config: map<string, ProviderConfig>
    var counters: map<string, Counter>

    function CounterOf(provider: string): Counter
      reads this
    {
      if provider in counters then counters[provider] else 0
    }

    constructor (vault: KeyRing, config: map<string, ProviderConfig>)
      ensures this.vault == vault && this.config == config
      ensures forall p :: CounterOf(p) == 0
    {
      this.vault, this.config, this.counters := vault, config, map[];
    }

    /** Refuses exactly the providers it must, otherwise chooses a key that may serve, or the
        local server of a keyless provider. A rotating choice moves the provider's counter on by
        one, around at 2^64; nothing else moves any. */
    method SelectKey(provider: string, now: int) returns (choice: Choice)
      modifies this
      ensures choice == Select(vault.entries, config, old(CounterOf(provider)), provider, now).0
      ensures Leaves(Sight(vault.entries, now), config, provider, old(CounterOf(provider)), CounterOf(provider))
      ensures forall p :: p != provider ==> CounterOf(p) == old(CounterOf(p))
      ensures choice == UnknownProvider <==> provider !in config
      ensures choice == DisabledProvider <==> provider in config && !config[provider].enabled
      ensures choice == NoKey <==>
              && provider in config && config[provider].enabled && provider !in {"ollama", "lmstudio"}
              && NoneMayServe(vault.entries, provider, now)
      ensures choice.Chosen? ==>
                if NoneMayServe(vault.entries, provider, now) then choice.alias == "local"
                else ServesWell(vault.entries, provider, now, choice.alias, !config[provider].roundRobin)
      ensures CounterOf(provider) ==
              if choice.Chosen? && config[provider].roundRobin && !NoneMayServe(vault.entries, provider, now) then
                (if old(CounterOf(provider)) == 0xFFFF_FFFF_FFFF_FFFF then 0 else old(CounterOf(provider)) + 1)
              else old(CounterOf(provider))
    {
      if provider !in config {
        return UnknownProvider;
      }
      if !config[provider].enabled {
        return DisabledProvider;
      }
      var eligible := Eligible(vault.entries, provider, now);
      EligibleMayServe(vault.entries, provider, now);
      if eligible == [] && Keyless(provider) {
        return Chosen("local");
      }
      if eligible == [] {
        return NoKey;
      }
      if config[provider].roundRobin {
        if provider !in counters {
          counters := counters[provider := 0];
        }
        var counter := counters[provider];
        choice := Chosen(eligible[Remainder(counter, |eligible|)].alias);
        EligibleServes(vault.entries, provider, now, Remainder(counter, |eligible|));
        counters := counters[provider := Advanced(counter)];
      } else {
        choice := Chosen(eligible[0].alias);
        EligibleServes(vault.entries, provider, now, 0);
      }
    }

    method CoolDown(alias: string, until: int)
      modifies vault
      ensures vault.entries == Update(old(vault.entries), alias, (e: Entry) => e.(cooldownUntil := Some(until)))
    {
      ghost var before := vault.entries;
      var _ := vault.SetCooldown(alias, Some(until));
      OnlyTheFirstIsAnUpdate(before, vault.entries, alias, (e: Entry) => e.(cooldownUntil := Some(until)));
    }

    method MarkKeyFailed(alias: string, status: nat, retryAfter: Option<nat>, now: int)
      modifies vault
      ensures vault.entries == Failed(old(vault.entries), alias, status, retryAfter, now)
      ensures FailureShows(old(vault.entries), vault.entries, alias, status, retryAfter, now)
    {
      ghost var before := vault.entries;
      FailedShows(before, alias, status, retryAfter, now);
      if status == 429 {
        CoolDown(alias, now + CooldownSeconds(429, retryAfter));
      } else if status == 401 {
        var _ := vault.SetEnabled(alias, false);
        OnlyTheFirstIsAnUpdate(before, vault.entries, alias, (e: Entry) => e.(enabled := false));
      } else if ServerError(status) {
        CoolDown(alias, now + CooldownSeconds(status, retryAfter));
      }
    }

    method MarkKeySuccess(alias: string)
      modifies vault
      ensures vault.entries == Succeeded(old(vault.entries), alias)
      ensures OnlyFirstChanged(old(vault.entries), vault.entries, alias, (e: Entry) => e.(cooldownUntil := None))
    {
      ghost var before := vault.entries;
      var _ := vault.SetCooldown(alias, None);
      OnlyTheFirstIsAnUpdate(before, vault.entries, alias, (e: Entry) => e.(cooldownUntil := None));
    }
  }
}
