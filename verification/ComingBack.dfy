/**
 Exactly when a request may give up on a key it has tried although others are left
 (src/api/v1.rs, src/router.rs): a key is marked by its alias, and marking finds the first
 entry that bears it. A live key behind another entry of its alias is never marked, so it is
 chosen again.
 */
module ComingBack {
  import opened Wrappers
  import opened Calendar
  import opened Ledger
  import opened BudgetCaps
  import opened VaultEntries
  import opened Router
  import opened Failover
  import opened FailoverGuarantees

  /** As long as no failed key recovers, a request never comes back to a key it has tried. */
  ghost predicate NeverComesBack(setting: Setting, s: Serving) {
    forall world: nat -> Turn, n: nat ::
      (forall m: nat :: m < n ==> NoneRecovers(world, m, world(m).at)) && After(RoundsOf(setting), world, s, n).Done? ==>
        !After(RoundsOf(setting), world, s, n).outcome.KeyCameBack?
  }

  const ANY_DAY: Date := CivilDate(2000, 1, 1)

  /** The budget of each of the provider's keys has room for the request as long as nothing has
      been spent. */
  predicate RoomForAll(setting: Setting, entries: seq<Entry>) {
    forall alias :: alias in AliasesOf(entries, setting.provider) ==>
                      Verdict(setting, [], alias, ANY_DAY, ANY_DAY).None?
  }

  /** So it is without capped budgets. */
  lemma NoBudgetIsRoom(setting: Setting, entries: seq<Entry>)
    requires !HasUsdBudget(setting.budgets, setting.provider)
    ensures RoomForAll(setting, entries)
  {
    forall alias | alias in AliasesOf(entries, setting.provider)
      ensures Verdict(setting, [], alias, ANY_DAY, ANY_DAY).None?
    {
      var scope := KeyScope(setting.provider, alias);
      assert scope[..|setting.provider + ":"|] == setting.provider + ":";
      assert StartsWith(scope, setting.provider + ":");
    }
  }

  predicate Served(setting: Setting) {
    setting.provider in setting.config && setting.config[setting.provider].enabled
  }

  // ------------------------------------------------------------------ a key that is never marked

  /** The entry bears its alias behind another one. */
  predicate Hidden(entries: seq<Entry>, k: nat) {
    k < |entries| && !FirstOfAlias(entries, k)
  }

  lemma FailurePassesOver(entries: seq<Entry>, alias: string, status: nat, retryAfter: Option<nat>, now: int, k: nat)
    requires Hidden(entries, k) && TriesAnother(status)
    ensures var after := Failed(entries, alias, status, retryAfter, now);
            Hidden(after, k) && after[k] == entries[k]
  {
    var after := Failed(entries, alias, status, retryAfter, now);
    FailureKeepsTheOthers(entries, alias, status, retryAfter, now);
    FailureTakesKeyOut(entries, alias, status, retryAfter, now, k, 0);
    var j :| 0 <= j < k && entries[j].alias == entries[k].alias;
    assert SameKey(entries[j], after[j]);
  }

  lemma {:induction false} HiddenStays(setting: Setting, round: Rounds, world: nat -> Turn, s: Serving, n: nat, k: nat)
    requires LoopOf(setting, round) && Hidden(s.entries, k) && After(round, world, s, n).Again?
    ensures var t := After(round, world, s, n).s; Hidden(t.entries, k) && t.entries[k] == s.entries[k]
  {
    if n > 0 {
      var before, turn := After(round, world, s, n - 1).s, world(n - 1);
      LastRound(round, world, s, n);
      HiddenStays(setting, round, world, s, n - 1, k);
      RoundGoesOnExactlyWhen(setting, round, turn, before);
      var alias := Select(before.entries, setting.config, before.counter, setting.provider, turn.at).0.alias;
      FailurePassesOver(before.entries, alias, FailureStatus(turn.reply), FailureRetry(turn.reply), turn.failedAt, k);
    }
  }

  function Nothing(rows: seq<Row>): seq<Row> {
    []
  }

  /** Every key is refused at one moment, on a day on which nothing has been spent. */
  function Refused(at: int): Turn {
    Turn(at, at, ANY_DAY, ANY_DAY, ANY_DAY, false, false, Failure(401, None), Nothing, Nothing)
  }

  /** A round in which some key is usable, and every key that is chosen has room and is
      refused, ends the loop only by coming back. */
  lemma EndsByComingBack(setting: Setting, round: Rounds, at: int, s: Serving, e: Entry)
    requires LoopOf(setting, round) && Served(setting) && NoLocal(setting, s.entries) && RoomForAll(setting, s.entries)
    requires e in s.entries && e.provider == setting.provider && Usable(e, at) && round(Refused(at), s).Done?
    ensures round(Refused(at), s).outcome.KeyCameBack?
  {
    var turn := Refused(at);
    var choice := Select(s.entries, setting.config, s.counter, setting.provider, at).0;
    NoKeyExactlyWhen(s.entries, setting.config, s.counter, setting.provider, at);
    ChoiceIsUsable(s.entries, setting.config, s.counter, setting.provider, at);
    assert choice.alias in AliasesOf(s.entries, setting.provider);
    RoundGoesOnExactlyWhen(setting, round, turn, s);
    assert round(turn, s) == Round(setting, turn, s);
  }

  /** A time at which a key that is switched on may be used. */
  function FreeAt(e: Entry): int {
    if e.cooldownUntil.Some? then e.cooldownUntil.value + 1 else 0
  }

  /** A live key behind another entry of its alias, be that the provider's own or another's, with
      rotation or without: when every key is refused the loop ends by coming back to one. */
  lemma HiddenKeyComesBack(setting: Setting, s: Serving, k: nat) returns (world: nat -> Turn, n: nat)
    requires s.attempted == {} && NoLocal(setting, s.entries) && Served(setting) && RoomForAll(setting, s.entries)
    requires Hidden(s.entries, k) && s.entries[k].provider == setting.provider && s.entries[k].enabled
    ensures forall m: nat :: m < n ==> NoneRecovers(world, m, world(m).at)
    ensures After(RoundsOf(setting), world, s, n).Done? && After(RoundsOf(setting), world, s, n).outcome.KeyCameBack?
  {
    var at := FreeAt(s.entries[k]);
    var round := RoundsOf(setting);
    RoundsOfIsTheLoop(setting);
    world := (m: nat) => Refused(at);
    n := |AliasesOf(s.entries, setting.provider)| + 1;
    EndsWithinItsKeys(setting, round, world, s);
    var m := EndsInSomeRound(round, world, s, n);
    var t := After(round, world, s, m).s;
    HiddenStays(setting, round, world, s, m, k);
    EachKeyIsTriedOnce(setting, round, world, s, m);
    SameKeysSameAliases(setting, s.entries, t.entries);
    EndsByComingBack(setting, round, at, t, t.entries[k]);
  }

  // ------------------------------------------------------------------ exactly when

  /** A request never comes back to a key unless one has recovered, if and only if each live key
      of its provider is the first entry of its alias, or the provider is not served at all. */
  lemma NeverComesBackExactlyWhen(setting: Setting, s: Serving)
    requires s.attempted == {} && NoLocal(setting, s.entries) && RoomForAll(setting, s.entries)
    ensures NeverComesBack(setting, s) <==> LiveKeysComeFirst(s.entries, setting.provider) || !Served(setting)
  {
    if LiveKeysComeFirst(s.entries, setting.provider) || !Served(setting) {
      forall world: nat -> Turn, n: nat | (forall m: nat :: m < n ==> NoneRecovers(world, m, world(m).at))
                                          && After(RoundsOf(setting), world, s, n).Done?
        ensures !After(RoundsOf(setting), world, s, n).outcome.KeyCameBack?
      {
        RoundsOfIsTheLoop(setting);
        if Served(setting) {
          NoKeyComesBackUnlessRecovered(setting, RoundsOf(setting), world, s, n);
        } else {
          NotServed(setting, world, s, n);
        }
      }
    } else {
      var k :| 0 <= k < |s.entries| && s.entries[k].provider == setting.provider && s.entries[k].enabled
        && !FirstOfAlias(s.entries, k);
      var world, n := HiddenKeyComesBack(setting, s, k);
    }
  }

  lemma NotServed(setting: Setting, world: nat -> Turn, s: Serving, n: nat)
    requires !Served(setting) && After(RoundsOf(setting), world, s, n).Done?
    ensures !After(RoundsOf(setting), world, s, n).outcome.KeyCameBack?
  {
    var m := EndsInSomeRound(RoundsOf(setting), world, s, n);
    assert After(RoundsOf(setting), world, s, n) == Round(setting, world(m), After(RoundsOf(setting), world, s, m).s);
  }

  /** Two entries of one alias suffice, the later one the provider's and live; also when both
      are its own. */
  lemma DuplicateComesBack(setting: Setting, s: Serving, i: nat, j: nat)
    requires s.attempted == {} && NoLocal(setting, s.entries) && Served(setting) && RoomForAll(setting, s.entries)
    requires i < j < |s.entries| && s.entries[i].alias == s.entries[j].alias
    requires s.entries[j].provider == setting.provider && s.entries[j].enabled
    ensures !NeverComesBack(setting, s)
  {
    assert !FirstOfAlias(s.entries, j);
    NeverComesBackExactlyWhen(setting, s);
  }
}
