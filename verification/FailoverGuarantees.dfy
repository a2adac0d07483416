/**
 What the failover loop promises, whatever the upstream replies and whatever the vault holds:
 exactly when it goes on, that it ends unless it serves a local alias, that it gives up for
 lack of keys only after every usable key was tried, and that it touches no key it did not
 try.
 */
module FailoverGuarantees {
  import opened Wrappers
  import opened Ledger
  import opened VaultEntries
  import opened Router
  import opened Failover

  // ------------------------------------------------------------------ which keys are tried

  function AliasesOf(entries: seq<Entry>, provider: string): set<string> {
    set e | e in entries && e.provider == provider :: e.alias
  }

  /** No key of the provider, nor the provider itself, goes by the alias of a local server. */
  predicate NoLocal(setting: Setting, entries: seq<Entry>) {
    !Keyless(setting.provider) && "local" !in AliasesOf(entries, setting.provider)
  }

  /** The clock never goes back. */
  ghost predicate Forward(world: nat -> Turn) {
    && (forall n: nat :: world(n).at <= world(n).failedAt)
    && (forall i: nat, j: nat :: i < j ==> world(i).failedAt <= world(j).at)
  }

  predicate SameKey(a: Entry, b: Entry) {
    a.alias == b.alias && a.provider == b.provider && a.apiKey == b.apiKey && a.priority == b.priority
  }

  predicate SameKeys(a: seq<Entry>, b: seq<Entry>) {
    |a| == |b| && forall i :: 0 <= i < |a| ==> SameKey(a[i], b[i])
  }

  /** After `n` rounds `n` different keys of the provider were tried, and only they changed. */
  ghost predicate Tracks(setting: Setting, start: seq<Entry>, n: nat, s: Serving) {
    && SameKeys(start, s.entries)
    && (forall i :: 0 <= i < |start| && start[i].alias !in s.attempted ==> s.entries[i] == start[i])
    && s.attempted <= AliasesOf(start, setting.provider)
    && |s.attempted| == n
  }

  lemma SameKeysSameAliases(setting: Setting, a: seq<Entry>, b: seq<Entry>)
    requires SameKeys(a, b)
    ensures AliasesOf(a, setting.provider) == AliasesOf(b, setting.provider)
  {
  }

  predicate HasFailed(turn: Turn) {
    turn.reply.Failure? || turn.reply.Unreachable?
  }

  /** The failure a key is marked with. */
  function FailureStatus(reply: Reply): nat
    requires reply.Failure? || reply.Unreachable?
  {
    if reply.Failure? then reply.status else 502
  }

  function FailureRetry(reply: Reply): Option<nat>
    requires reply.Failure? || reply.Unreachable?
  {
    if reply.Failure? then reply.retryAfter else None
  }

  /** A round leads to another one exactly when it chooses a key that has not been tried, or a
      local server, its budget has room, nothing stops it, and the reply is a failure worth
      another try. */
  predicate GoesOn(setting: Setting, turn: Turn, s: Serving) {
    var choice := Select(s.entries, setting.config, s.counter, setting.provider, turn.at).0;
    && choice.Chosen? && (choice.alias !in s.attempted || choice.alias == "local")
    && Verdict(setting, turn.before(s.rows), choice.alias, turn.month, turn.day).None? && !turn.stopped
    && HasFailed(turn) && TriesAnother(FailureStatus(turn.reply))
    && (turn.reply.Unreachable? ==> choice.alias != "local")
  }

  lemma RoundGoesOnExactlyWhen(setting: Setting, round: Rounds, turn: Turn, s: Serving)
    requires LoopOf(setting, round)
    ensures round(turn, s).Again? <==> GoesOn(setting, turn, s)
    ensures round(turn, s).Again? ==>
              var alias := Select(s.entries, setting.config, s.counter, setting.provider, turn.at).0.alias;
              var t := round(turn, s).s;
              && t.attempted == s.attempted + {alias} && t.lastStatus == FailureStatus(turn.reply)
              && t.entries == Failed(s.entries, alias, FailureStatus(turn.reply), FailureRetry(turn.reply), turn.failedAt)
  {
    assert round(turn, s) == Round(setting, turn, s);
  }

  lemma GivingUpChangesNothing(setting: Setting, turn: Turn, s: Serving)
    ensures var next := Round(setting, turn, s);
            next.Done? && (next.outcome.NoAvailableKey? || next.outcome.KeyCameBack?) ==>
              && next.outcome.status == s.lastStatus
              && next.s == s.(rows := turn.before(s.rows), counter := next.s.counter)
              && (next.outcome.KeyCameBack? ==> next.outcome.alias in s.attempted - {"local"})
  {
  }

  /** A round that chooses no key, or one it has tried, ends the request with the status so
      far, and changes nothing but the rotation. */
  lemma RoundWithoutAKey(setting: Setting, turn: Turn, s: Serving)
    ensures var next := Round(setting, turn, s);
            var known := setting.provider in setting.config;
            && (!known ==> next.Done? && next.outcome == NoAvailableKey(UnknownProvider, s.lastStatus))
            && (known && !setting.config[setting.provider].enabled ==>
                  next.Done? && next.outcome == NoAvailableKey(DisabledProvider, s.lastStatus))
            && (known && setting.config[setting.provider].enabled && setting.provider !in {"ollama", "lmstudio"}
                && NoneMayServe(s.entries, setting.provider, turn.at) ==>
                  next.Done? && next.outcome == NoAvailableKey(NoKey, s.lastStatus))
            && (next.Done? && (next.outcome.NoAvailableKey? || next.outcome.KeyCameBack?) ==>
                  next.outcome.status == s.lastStatus
                  && next.s == s.(rows := turn.before(s.rows), counter := next.s.counter))
            && (next.Done? && next.outcome.KeyCameBack? ==> next.outcome.alias in s.attempted - {"local"})
  {
    EligibleMayServe(s.entries, setting.provider, turn.at);
    GivingUpChangesNothing(setting, turn, s);
  }

  /** The loop is still going after `n` rounds exactly when every one of them led to another. */
  lemma {:induction false} GoesOnExactlyWhile(setting: Setting, round: Rounds, world: nat -> Turn, s: Serving, n: nat)
    requires LoopOf(setting, round)
    ensures After(round, world, s, n).Again? <==> forall k: nat :: k < n ==> GoesOnAt(setting, round, world, s, k)
  {
    if n > 0 {
      GoesOnExactlyWhile(setting, round, world, s, n - 1);
      RoundGoesOnExactlyWhen(setting, round, world(n - 1), After(round, world, s, n - 1).s);
      assert GoesOnAt(setting, round, world, s, n - 1) <==> After(round, world, s, n).Again?;
    }
  }

  ghost predicate GoesOnAt(setting: Setting, round: Rounds, world: nat -> Turn, s: Serving, k: nat) {
    After(round, world, s, k).Again? && GoesOn(setting, world(k), After(round, world, s, k).s)
  }

  // ------------------------------------------------------------------ each key once

  /** What another round means for the one before it. */
  lemma AnotherRound(setting: Setting, round: Rounds, turn: Turn, s: Serving)
    requires LoopOf(setting, round) && NoLocal(setting, s.entries) && round(turn, s).Again?
    ensures var choice := Select(s.entries, setting.config, s.counter, setting.provider, turn.at).0;
            var t := round(turn, s).s;
            && choice.Chosen? && choice.alias in AliasesOf(s.entries, setting.provider) && choice.alias !in s.attempted
            && t.attempted == s.attempted + {choice.alias}
            && HasFailed(turn) && TriesAnother(FailureStatus(turn.reply))
            && t.entries == Failed(s.entries, choice.alias, FailureStatus(turn.reply), FailureRetry(turn.reply), turn.failedAt)
  {
    RoundGoesOnExactlyWhen(setting, round, turn, s);
    ChoiceIsUsable(s.entries, setting.config, s.counter, setting.provider, turn.at);
  }

  lemma FailureKeepsTheOthers(entries: seq<Entry>, alias: string, status: nat, retryAfter: Option<nat>, now: int)
    requires TriesAnother(status)
    ensures SameKeys(entries, Failed(entries, alias, status, retryAfter, now))
    ensures forall i :: 0 <= i < |entries| && entries[i].alias != alias ==>
                          Failed(entries, alias, status, retryAfter, now)[i] == entries[i]
  {
  }

  lemma OneMoreTracked(setting: Setting, start: seq<Entry>, n: nat, s: Serving, alias: string, t: Serving)
    requires Tracks(setting, start, n, s) && alias in AliasesOf(start, setting.provider) && alias !in s.attempted
    requires t.attempted == s.attempted + {alias} && SameKeys(s.entries, t.entries)
    requires forall i :: 0 <= i < |s.entries| && s.entries[i].alias != alias ==> t.entries[i] == s.entries[i]
    ensures Tracks(setting, start, n + 1, t)
  {
  }

  lemma RoundTracks(setting: Setting, round: Rounds, turn: Turn, start: seq<Entry>, n: nat, s: Serving)
    requires LoopOf(setting, round) && NoLocal(setting, start) && Tracks(setting, start, n, s)
    requires round(turn, s).Again?
    ensures Tracks(setting, start, n + 1, round(turn, s).s)
  {
    SameKeysSameAliases(setting, start, s.entries);
    AnotherRound(setting, round, turn, s);
    var alias := Select(s.entries, setting.config, s.counter, setting.provider, turn.at).0.alias;
    FailureKeepsTheOthers(s.entries, alias, FailureStatus(turn.reply), FailureRetry(turn.reply), turn.failedAt);
    OneMoreTracked(setting, start, n, s, alias, round(turn, s).s);
  }

  /** No key is tried twice, and a key that is not tried is left as it was. */
  lemma {:induction false} EachKeyIsTriedOnce(setting: Setting, round: Rounds, world: nat -> Turn, s: Serving, n: nat)
    requires LoopOf(setting, round) && s.attempted == {} && NoLocal(setting, s.entries)
    requires After(round, world, s, n).Again?
    ensures Tracks(setting, s.entries, n, After(round, world, s, n).s)
  {
    if n > 0 {
      EachKeyIsTriedOnce(setting, round, world, s, n - 1);
      RoundTracks(setting, round, world(n - 1), s.entries, n - 1, After(round, world, s, n - 1).s);
    }
  }

  /** The last of several rounds. */
  lemma LastRound(round: Rounds, world: nat -> Turn, s: Serving, n: nat)
    requires n > 0 && After(round, world, s, n).Again?
    ensures After(round, world, s, n - 1).Again?
    ensures After(round, world, s, n) == round(world(n - 1), After(round, world, s, n - 1).s)
  {
  }

  lemma SubsetIsNotLarger(a: set<string>, b: set<string>)
    requires a <= b
    ensures |a| <= |b|
  {
    assert b == a + (b - a);
  }

  /** Whatever the upstream does, the loop ends after at most one round more than the provider
      has keys. */
  lemma EndsWithinItsKeys(setting: Setting, round: Rounds, world: nat -> Turn, s: Serving)
    requires LoopOf(setting, round) && s.attempted == {} && NoLocal(setting, s.entries)
    ensures After(round, world, s, |AliasesOf(s.entries, setting.provider)| + 1).Done?
  {
    var n := |AliasesOf(s.entries, setting.provider)| + 1;
    if After(round, world, s, n).Again? {
      EachKeyIsTriedOnce(setting, round, world, s, n);
      SubsetIsNotLarger(After(round, world, s, n).s.attempted, AliasesOf(s.entries, setting.provider));
    }
  }

  /** The round in which a loop that has ended did so. */
  lemma {:induction false} EndsInSomeRound(round: Rounds, world: nat -> Turn, s: Serving, n: nat) returns (m: nat)
    requires After(round, world, s, n).Done?
    ensures m < n && After(round, world, s, m).Again?
    ensures After(round, world, s, n) == round(world(m), After(round, world, s, m).s)
  {
    if After(round, world, s, n - 1).Done? {
      m := EndsInSomeRound(round, world, s, n - 1);
    } else {
      m := n - 1;
    }
  }

  lemma GivingUpMeansNoneUsable(setting: Setting, round: Rounds, turn: Turn, s: Serving, status: nat)
    requires LoopOf(setting, round) && !Keyless(setting.provider)
    requires round(turn, s).Done? && round(turn, s).outcome == NoAvailableKey(NoKey, status)
    ensures round(turn, s).s.attempted == s.attempted
    ensures forall e :: e in s.entries && e.provider == setting.provider ==> !Usable(e, turn.at)
  {
    assert round(turn, s) == Round(setting, turn, s);
    NoKeyExactlyWhen(s.entries, setting.config, s.counter, setting.provider, turn.at);
  }

  lemma UntriedKeyIsStillUsable(setting: Setting, start: seq<Entry>, n: nat, s: Serving, e: Entry, at: int,
                                later: int)
    requires Tracks(setting, start, n, s) && e in start && Usable(e, at) && at <= later
    ensures e.alias !in s.attempted ==> e in s.entries && Usable(e, later)
  {
  }

  /** It gives up for lack of a key only after trying every key that was usable at its start. */
  lemma GivesUpOnlyAfterEveryKey(setting: Setting, round: Rounds, world: nat -> Turn, s: Serving, n: nat,
                                 status: nat, e: Entry)
    requires LoopOf(setting, round) && s.attempted == {} && NoLocal(setting, s.entries)
    requires Forward(world) && After(round, world, s, n).Done?
    requires After(round, world, s, n).outcome == NoAvailableKey(NoKey, status)
    requires e in s.entries && e.provider == setting.provider && Usable(e, world(0).at)
    ensures e.alias in After(round, world, s, n).s.attempted
  {
    var m := EndsInSomeRound(round, world, s, n);
    EachKeyIsTriedOnce(setting, round, world, s, m);
    GivingUpMeansNoneUsable(setting, round, world(m), After(round, world, s, m).s, status);
    TimeMovesOn(world, m);
    UntriedKeyIsStillUsable(setting, s.entries, m, After(round, world, s, m).s, e, world(0).at, world(m).at);
  }

  lemma TimeMovesOn(world: nat -> Turn, m: nat)
    requires Forward(world)
    ensures world(0).at <= world(m).at
  {
  }

  // ------------------------------------------------------------------ keys that come back

  /** The key that failed in a turn may be used again at a time. */
  predicate Recovered(turn: Turn, later: int) {
    HasFailed(turn) && FailureStatus(turn.reply) != 401
    && later > turn.failedAt + CooldownSeconds(FailureStatus(turn.reply), FailureRetry(turn.reply))
  }

  ghost predicate NoneRecovers(world: nat -> Turn, n: nat, later: int) {
    forall k: nat :: k < n ==> !Recovered(world(k), later)
  }

  /** Marking a key by its alias finds it, if it is one of the provider's that is switched on. */
  predicate LiveKeysComeFirst(entries: seq<Entry>, provider: string) {
    forall i :: 0 <= i < |entries| && entries[i].provider == provider && entries[i].enabled ==> FirstOfAlias(entries, i)
  }

  lemma FailureNeverSwitchesOn(entries: seq<Entry>, alias: string, status: nat, retryAfter: Option<nat>, now: int,
                               i: nat)
    requires i < |entries|
    ensures |Failed(entries, alias, status, retryAfter, now)| == |entries|
    ensures Failed(entries, alias, status, retryAfter, now)[i].enabled ==> entries[i].enabled
  {
  }

  lemma StillComeFirst(entries: seq<Entry>, after: seq<Entry>, provider: string)
    requires LiveKeysComeFirst(entries, provider) && SameKeys(entries, after)
    requires forall i :: 0 <= i < |entries| && after[i].enabled ==> entries[i].enabled
    ensures LiveKeysComeFirst(after, provider)
  {
    forall i | 0 <= i < |after| && after[i].provider == provider && after[i].enabled
      ensures FirstOfAlias(after, i)
    {
      assert SameKey(entries[i], after[i]) && FirstOfAlias(entries, i);
      assert forall j :: 0 <= j < i ==> SameKey(entries[j], after[j]);
    }
  }

  predicate TriedAreOut(entries: seq<Entry>, provider: string, attempted: set<string>, later: int) {
    forall i :: 0 <= i < |entries| && entries[i].provider == provider && entries[i].alias in attempted ==>
                  !Usable(entries[i], later)
  }

  lemma FailureKeepsOut(entries: seq<Entry>, provider: string, attempted: set<string>, alias: string, turn: Turn,
                        later: int)
    requires LiveKeysComeFirst(entries, provider) && TriedAreOut(entries, provider, attempted, later)
    requires HasFailed(turn) && TriesAnother(FailureStatus(turn.reply)) && !Recovered(turn, later)
    ensures var after := Failed(entries, alias, FailureStatus(turn.reply), FailureRetry(turn.reply), turn.failedAt);
            LiveKeysComeFirst(after, provider) && TriedAreOut(after, provider, attempted + {alias}, later)
  {
    var status, retry := FailureStatus(turn.reply), FailureRetry(turn.reply);
    FailureKeepsTheOthers(entries, alias, status, retry, turn.failedAt);
    var after := Failed(entries, alias, status, retry, turn.failedAt);
    forall i | 0 <= i < |entries|
      ensures after[i].enabled ==> entries[i].enabled
      ensures after[i].provider == provider && after[i].alias in attempted + {alias} ==> !Usable(after[i], later)
    {
      FailureNeverSwitchesOn(entries, alias, status, retry, turn.failedAt, i);
      FailureTakesKeyOut(entries, alias, status, retry, turn.failedAt, i, later);
    }
    StillComeFirst(entries, after, provider);
  }

  lemma RoundKeepsTriedOut(setting: Setting, round: Rounds, turn: Turn, s: Serving, later: int)
    requires LoopOf(setting, round) && LiveKeysComeFirst(s.entries, setting.provider) && NoLocal(setting, s.entries)
    requires TriedAreOut(s.entries, setting.provider, s.attempted, later) && round(turn, s).Again? && !Recovered(turn, later)
    ensures var t := round(turn, s).s;
            LiveKeysComeFirst(t.entries, setting.provider) && NoLocal(setting, t.entries)
            && TriedAreOut(t.entries, setting.provider, t.attempted, later)
  {
    AnotherRound(setting, round, turn, s);
    var alias := Select(s.entries, setting.config, s.counter, setting.provider, turn.at).0.alias;
    FailureKeepsOut(s.entries, setting.provider, s.attempted, alias, turn, later);
    FailureKeepsTheOthers(s.entries, alias, FailureStatus(turn.reply), FailureRetry(turn.reply), turn.failedAt);
    SameKeysSameAliases(setting, s.entries, round(turn, s).s.entries);
  }

  lemma {:induction false} TriedKeysStayOut(setting: Setting, round: Rounds, world: nat -> Turn, s: Serving,
                                            n: nat, later: int)
    requires LoopOf(setting, round) && s.attempted == {} && LiveKeysComeFirst(s.entries, setting.provider)
    requires NoLocal(setting, s.entries) && After(round, world, s, n).Again? && NoneRecovers(world, n, later)
    ensures var t := After(round, world, s, n).s;
            LiveKeysComeFirst(t.entries, setting.provider) && NoLocal(setting, t.entries)
            && TriedAreOut(t.entries, setting.provider, t.attempted, later)
  {
    if n > 0 {
      LastRound(round, world, s, n);
      TriedKeysStayOut(setting, round, world, s, n - 1, later);
      RoundKeepsTriedOut(setting, round, world(n - 1), After(round, world, s, n - 1).s, later);
    }
  }

  lemma NoComingBack(setting: Setting, round: Rounds, turn: Turn, s: Serving)
    requires LoopOf(setting, round) && NoLocal(setting, s.entries)
    requires TriedAreOut(s.entries, setting.provider, s.attempted, turn.at) && round(turn, s).Done?
    ensures !round(turn, s).outcome.KeyCameBack?
  {
    assert round(turn, s) == Round(setting, turn, s);
    if Select(s.entries, setting.config, s.counter, setting.provider, turn.at).0.Chosen? {
      ChoiceIsUsable(s.entries, setting.config, s.counter, setting.provider, turn.at);
    }
  }

  /** While no failed key recovers the loop never comes back to a key: a request that gets no
      key has then tried every key that was usable at its start. */
  lemma NoKeyComesBackUnlessRecovered(setting: Setting, round: Rounds, world: nat -> Turn, s: Serving, n: nat)
    requires LoopOf(setting, round) && s.attempted == {} && LiveKeysComeFirst(s.entries, setting.provider)
    requires NoLocal(setting, s.entries)
    requires forall m: nat :: m < n ==> NoneRecovers(world, m, world(m).at)
    requires After(round, world, s, n).Done?
    ensures !After(round, world, s, n).outcome.KeyCameBack?
  {
    var m := EndsInSomeRound(round, world, s, n);
    TriedKeysStayOut(setting, round, world, s, m, world(m).at);
    NoComingBack(setting, round, world(m), After(round, world, s, m).s);
  }

  /** Where another provider's key bears the alias and comes first, the failure is marked on
      that one: the failed key is chosen again at once, and the loop gives up. */
  lemma ForeignAliasComesBack(setting: Setting, turn: Turn, again: Turn, s: Serving)
    requires GoesOn(setting, turn, s) && !setting.config[setting.provider].roundRobin && again.at == turn.at
    requires var alias := Select(s.entries, setting.config, s.counter, setting.provider, turn.at).0.alias;
             alias != "local" && FirstIndex(s.entries, (e: Entry) => e.alias == alias) < |s.entries|
             && s.entries[FirstIndex(s.entries, (e: Entry) => e.alias == alias)].provider != setting.provider
    ensures var alias := Select(s.entries, setting.config, s.counter, setting.provider, turn.at).0.alias;
            Round(setting, turn, s).Again?
            && Round(setting, again, Round(setting, turn, s).s).Done?
            && Round(setting, again, Round(setting, turn, s).s).outcome == KeyCameBack(alias, FailureStatus(turn.reply))
  {
    var alias := Select(s.entries, setting.config, s.counter, setting.provider, turn.at).0.alias;
    var i := FirstIndex(s.entries, (e: Entry) => e.alias == alias);
    var t := Round(setting, turn, s).s;
    assert t.entries == s.entries[i := t.entries[i]];
    UpdateElsewhere(s.entries, i, t.entries[i], setting.provider);
  }

  lemma {:induction false} UpdateElsewhere(entries: seq<Entry>, i: nat, e: Entry, provider: string)
    requires i < |entries| && entries[i].provider != provider && e.provider != provider
    ensures KeysOf(entries[i := e], provider) == KeysOf(entries, provider)
  {
    FilterIgnores(entries, i, e, (x: Entry) => x.provider == provider);
  }

  lemma {:induction false} FilterIgnores(entries: seq<Entry>, i: nat, e: Entry, keep: Entry -> bool)
    requires i < |entries| && !keep(entries[i]) && !keep(e)
    ensures Filter(entries[i := e], keep) == Filter(entries, keep)
  {
    if i == 0 {
      assert entries[0 := e][1..] == entries[1..];
    } else {
      FilterIgnores(entries[1..], i - 1, e, keep);
      assert entries[i := e][1..] == entries[1..][i - 1 := e];
    }
  }

  // ------------------------------------------------------------------ what the client is told

  /** The status of the last failure, or the one the loop starts with. */
  function ReportedStatus(world: nat -> Turn, initial: nat, m: nat): nat {
    if m == 0 || !HasFailed(world(m - 1)) then initial else FailureStatus(world(m - 1).reply)
  }

  lemma StatusSoFar(setting: Setting, round: Rounds, world: nat -> Turn, s: Serving, m: nat)
    requires LoopOf(setting, round) && After(round, world, s, m).Again?
    ensures After(round, world, s, m).s.lastStatus == ReportedStatus(world, s.lastStatus, m)
  {
    if m > 0 {
      LastRound(round, world, s, m);
      RoundGoesOnExactlyWhen(setting, round, world(m - 1), After(round, world, s, m - 1).s);
    }
  }

  lemma OutcomeTellsStatus(setting: Setting, round: Rounds, turn: Turn, s: Serving)
    requires LoopOf(setting, round) && round(turn, s).Done?
    ensures var outcome := round(turn, s).outcome;
            outcome.NoAvailableKey? || outcome.KeyCameBack? ==> outcome.status == s.lastStatus
  {
    assert round(turn, s) == Round(setting, turn, s);
  }

  /** A client that gets no key is told the status of the failure before, in whichever round
      `m` the loop ended. */
  lemma StatusIsTheLastFailure(setting: Setting, round: Rounds, world: nat -> Turn, s: Serving, n: nat) returns (m: nat)
    requires LoopOf(setting, round) && After(round, world, s, n).Done?
    ensures m < n && After(round, world, s, m).Again?
    ensures After(round, world, s, n) == round(world(m), After(round, world, s, m).s)
    ensures var outcome := After(round, world, s, n).outcome;
            outcome.NoAvailableKey? || outcome.KeyCameBack? ==> outcome.status == ReportedStatus(world, s.lastStatus, m)
  {
    m := EndsInSomeRound(round, world, s, n);
    StatusSoFar(setting, round, world, s, m);
    OutcomeTellsStatus(setting, round, world(m), After(round, world, s, m).s);
  }

  // ------------------------------------------------------------------ local servers

  predicate RetriesLocally(setting: Setting, turn: Turn, rows: seq<Row>) {
    Verdict(setting, turn.before(rows), "local", turn.month, turn.day).None?
    && !turn.stopped && turn.reply.Failure? && TriesAnother(turn.reply.status)
  }

  ghost predicate RetriesLocallyAt(setting: Setting, round: Rounds, world: nat -> Turn, s: Serving, k: nat) {
    RetriesLocally(setting, world(k), After(round, world, s, k).s.rows)
  }

  lemma NoOwnKeyNoneEligible(entries: seq<Entry>, provider: string, now: int)
    requires AliasesOf(entries, provider) == {}
    ensures Eligible(entries, provider, now) == []
  {
    var eligible := Eligible(entries, provider, now);
    assert eligible != [] ==> eligible[0].alias in AliasesOf(entries, provider) by {
      if eligible != [] {
        EligibleIsUsable(entries, provider, now, eligible[0]);
      }
    }
  }

  lemma LocalRound(setting: Setting, round: Rounds, turn: Turn, s: Serving)
    requires LoopOf(setting, round) && Keyless(setting.provider) && AliasesOf(s.entries, setting.provider) == {}
    requires setting.provider in setting.config && setting.config[setting.provider].enabled
    ensures round(turn, s).Again? <==> RetriesLocally(setting, turn, s.rows)
    ensures round(turn, s).Again? ==> AliasesOf(round(turn, s).s.entries, setting.provider) == {}
  {
    NoOwnKeyNoneEligible(s.entries, setting.provider, turn.at);
    RoundGoesOnExactlyWhen(setting, round, turn, s);
    if round(turn, s).Again? {
      FailureKeepsTheOthers(s.entries, "local", FailureStatus(turn.reply), FailureRetry(turn.reply), turn.failedAt);
      SameKeysSameAliases(setting, s.entries, round(turn, s).s.entries);
    }
  }

  lemma {:induction false} LocalStaysKeyless(setting: Setting, round: Rounds, world: nat -> Turn, s: Serving, n: nat)
    requires LoopOf(setting, round) && Keyless(setting.provider) && AliasesOf(s.entries, setting.provider) == {}
    requires setting.provider in setting.config && setting.config[setting.provider].enabled
    requires After(round, world, s, n).Again?
    ensures AliasesOf(After(round, world, s, n).s.entries, setting.provider) == {}
  {
    if n > 0 {
      LastRound(round, world, s, n);
      LocalStaysKeyless(setting, round, world, s, n - 1);
      LocalRound(setting, round, world(n - 1), After(round, world, s, n - 1).s);
    }
  }

  /** A provider served without a key of its own escapes the guard against trying twice: with
      any vault, its loop goes on for exactly as long as its budget has room and the local
      server answers with a failure worth another try. */
  lemma {:induction false} LocalRetriesExactlyWhile(setting: Setting, round: Rounds, world: nat -> Turn,
                                                    s: Serving, n: nat)
    requires LoopOf(setting, round) && Keyless(setting.provider) && AliasesOf(s.entries, setting.provider) == {}
    requires setting.provider in setting.config && setting.config[setting.provider].enabled
    ensures After(round, world, s, n).Again? <==>
            forall k: nat :: k < n ==> RetriesLocallyAt(setting, round, world, s, k)
  {
    if n > 0 {
      LocalRetriesExactlyWhile(setting, round, world, s, n - 1);
      if After(round, world, s, n - 1).Again? {
        LocalStaysKeyless(setting, round, world, s, n - 1);
        LocalRound(setting, round, world(n - 1), After(round, world, s, n - 1).s);
        assert RetriesLocallyAt(setting, round, world, s, n - 1) <==> After(round, world, s, n).Again?;
      }
    }
  }

  // ------------------------------------------------------------------ the loop itself

  /** A request goes on for `n` rounds exactly while each of them leads to another. */
  lemma RequestGoesOnExactlyWhile(setting: Setting, world: nat -> Turn, s: Serving, n: nat)
    ensures After(RoundsOf(setting), world, s, n).Again? <==>
            forall k: nat :: k < n ==> GoesOnAt(setting, RoundsOf(setting), world, s, k)
  {
    RoundsOfIsTheLoop(setting);
    GoesOnExactlyWhile(setting, RoundsOf(setting), world, s, n);
  }

  /** A request ends after at most one round more than its provider has keys. */
  lemma RequestEnds(setting: Setting, world: nat -> Turn, s: Serving)
    requires s.attempted == {} && NoLocal(setting, s.entries)
    ensures After(RoundsOf(setting), world, s, |AliasesOf(s.entries, setting.provider)| + 1).Done?
  {
    RoundsOfIsTheLoop(setting);
    EndsWithinItsKeys(setting, RoundsOf(setting), world, s);
  }

  /** A request that gets no key although none has recovered has tried every key that was
      usable at its start. */
  lemma RequestTriesEveryKey(setting: Setting, world: nat -> Turn, s: Serving, n: nat, e: Entry)
    requires s.attempted == {} && NoLocal(setting, s.entries) && LiveKeysComeFirst(s.entries, setting.provider)
    requires Forward(world) && forall m: nat :: m < n ==> NoneRecovers(world, m, world(m).at)
    requires After(RoundsOf(setting), world, s, n).Done?
    requires e in s.entries && e.provider == setting.provider && Usable(e, world(0).at)
    ensures var end := After(RoundsOf(setting), world, s, n);
            && !end.outcome.KeyCameBack?
            && (end.outcome.NoAvailableKey? && end.outcome.choice == NoKey ==> e.alias in end.s.attempted)
  {
    var round := RoundsOf(setting);
    RoundsOfIsTheLoop(setting);
    NoKeyComesBackUnlessRecovered(setting, round, world, s, n);
    var outcome := After(round, world, s, n).outcome;
    if outcome.NoAvailableKey? && outcome.choice == NoKey {
      GivesUpOnlyAfterEveryKey(setting, round, world, s, n, outcome.status, e);
    }
  }
}
