/**
 The credentials held in a loaded vault and the operations that edit them in memory
 (src/vault.rs). Aliases are meant to be unique, because the router's failover
 bookkeeping addresses a key by its alias alone.
 */
module VaultEntries {
  import opened Wrappers

  datatype Entry = Entry(
    alias: string,
    provider: string,
    apiKey: string,
    priority: nat,
    enabled: bool,
    cooldownUntil: Option<int>,
    refreshToken: Option<string>,
    expiresAt: Option<int>,
    oauthProvider: Option<string>)

  /** A freshly signed-in subscription. */
  datatype Credential = Credential(
    provider: string,
    alias: string,
    accessToken: string,
    refreshToken: Option<string>,
    expiresAt: Option<int>,
    oauthProvider: string)

  datatype AddError = EmptyAlias | DuplicateAlias

  // ------------------------------------------------------------------ aliases

  predicate HasAlias(entries: seq<Entry>, alias: string) {
    exists i :: 0 <= i < |entries| && entries[i].alias == alias
  }

  predicate UniqueAliases(entries: seq<Entry>) {
    forall i, j :: 0 <= i < j < |entries| ==> entries[i].alias != entries[j].alias
  }

  /** The position of the first entry a test accepts, or the length when there is none. */
  function FirstIndex(entries: seq<Entry>, test: Entry -> bool): (i: nat)
    ensures i <= |entries|
    ensures i < |entries| ==> test(entries[i])
    ensures forall j :: 0 <= j < i ==> !test(entries[j])
  {
    if entries == [] || test(entries[0]) then 0 else 1 + FirstIndex(entries[1..], test)
  }

  /** The first entry under an alias changed, every other one kept. */
  function Update(entries: seq<Entry>, alias: string, change: Entry -> Entry): (r: seq<Entry>)
    ensures |r| == |entries|
  {
    var i := FirstIndex(entries, (e: Entry) => e.alias == alias);
    if i < |entries| then entries[i := change(entries[i])] else entries
  }

  /** With unique aliases an update touches exactly the entry it names. */
  lemma UpdateTouchesOnlyItsAlias(entries: seq<Entry>, alias: string, change: Entry -> Entry)
    requires UniqueAliases(entries)
    ensures forall i :: 0 <= i < |entries| ==>
              Update(entries, alias, change)[i] == if entries[i].alias == alias then change(entries[i]) else entries[i]
  {
  }

  /** The entry that an operation on an alias finds. */
  predicate FirstOfAlias(entries: seq<Entry>, i: nat)
    requires i < |entries|
  {
    forall j :: 0 <= j < i ==> entries[j].alias != entries[i].alias
  }

  lemma UpdateChangesTheFirst(entries: seq<Entry>, alias: string, change: Entry -> Entry, i: nat)
    requires i < |entries|
    ensures Update(entries, alias, change)[i] ==
            if entries[i].alias == alias && FirstOfAlias(entries, i) then change(entries[i]) else entries[i]
  {
    var k := FirstIndex(entries, (e: Entry) => e.alias == alias);
    assert entries[i].alias == alias ==> k <= i;
  }

  /** A change of the first entry of an alias and of nothing else is an update. */
  lemma OnlyTheFirstIsAnUpdate(entries: seq<Entry>, after: seq<Entry>, alias: string, change: Entry -> Entry)
    requires |after| == |entries|
    requires forall i :: 0 <= i < |entries| ==>
               after[i] == if entries[i].alias == alias && FirstOfAlias(entries, i) then change(entries[i]) else entries[i]
    ensures after == Update(entries, alias, change)
  {
    forall i | 0 <= i < |entries|
      ensures after[i] == Update(entries, alias, change)[i]
    {
      UpdateChangesTheFirst(entries, alias, change, i);
    }
  }

  /** The first entry of the alias has changed, every other one is as it was. */
  predicate OnlyFirstChanged(before: seq<Entry>, after: seq<Entry>, alias: string, change: Entry -> Entry) {
    && |after| == |before|
    && forall i :: 0 <= i < |before| ==>
                     after[i] == if before[i].alias == alias && FirstOfAlias(before, i) then change(before[i]) else before[i]
  }

  lemma UpdateChangesOnlyTheFirst(entries: seq<Entry>, alias: string, change: Entry -> Entry)
    ensures OnlyFirstChanged(entries, Update(entries, alias, change), alias, change)
  {
    forall i | 0 <= i < |entries|
      ensures Update(entries, alias, change)[i] ==
              if entries[i].alias == alias && FirstOfAlias(entries, i) then change(entries[i]) else entries[i]
    {
      UpdateChangesTheFirst(entries, alias, change, i);
    }
  }

  predicate FirstPlainKey(entries: seq<Entry>, alias: string, i: nat)
    requires i < |entries|
  {
    && entries[i].alias == alias && entries[i].oauthProvider == None
    && forall j :: 0 <= j < i ==> entries[j].alias != alias || entries[j].oauthProvider != None
  }

  function Without(entries: seq<Entry>, alias: string): (r: seq<Entry>)
    ensures !HasAlias(r, alias)
    ensures forall e :: e in r ==> e in entries
    ensures !HasAlias(entries, alias) ==> r == entries
    ensures HasAlias(entries, alias) ==> |r| < |entries|
  {
    if entries == [] then []
    else
      var rest := Without(entries[1..], alias);
      assert entries == [entries[0]] + entries[1..];
      assert HasAlias(entries, alias) <==> entries[0].alias == alias || HasAlias(entries[1..], alias);
      if entries[0].alias == alias then rest else [entries[0]] + rest
  }

  function CountOf(entries: seq<Entry>, alias: string): nat {
    if entries == [] then 0 else (if entries[0].alias == alias then 1 else 0) + CountOf(entries[1..], alias)
  }

  /** The positions of a list, in order and without gaps: what is at them, and nothing else, is
      under another alias. */
  predicate OthersAt(entries: seq<Entry>, alias: string, kept: seq<nat>) {
    && (forall k :: 0 <= k < |kept| ==> kept[k] < |entries|)
    && (forall k, m :: 0 <= k < m < |kept| ==> kept[k] < kept[m])
    && (forall i :: 0 <= i < |entries| ==> (i in kept <==> entries[i].alias != alias))
  }

  function Shifted(kept: seq<nat>): seq<nat> {
    seq(|kept|, k requires 0 <= k < |kept| => kept[k] + 1)
  }

  lemma ShiftedOthers(entries: seq<Entry>, alias: string, kept: seq<nat>)
    requires entries != [] && OthersAt(entries[1..], alias, kept)
    ensures OthersAt(entries, alias, (if entries[0].alias == alias then [] else [0]) + Shifted(kept))
  {
    var all := (if entries[0].alias == alias then [] else [0]) + Shifted(kept);
    forall i | 0 <= i < |entries|
      ensures i in all <==> entries[i].alias != alias
    {
      assert 0 in all <==> entries[0].alias != alias;
      if i > 0 {
        assert entries[i] == entries[1..][i - 1];
        assert i in Shifted(kept) <==> i - 1 in kept by {
          if i - 1 in kept {
            var k :| 0 <= k < |kept| && kept[k] == i - 1;
            assert Shifted(kept)[k] == i;
          }
        }
      }
    }
  }

  predicate Selects(r: seq<Entry>, entries: seq<Entry>, kept: seq<nat>) {
    && |r| == |kept|
    && forall k :: 0 <= k < |kept| ==> kept[k] < |entries| && r[k] == entries[kept[k]]
  }

  lemma ShiftedSelects(r: seq<Entry>, entries: seq<Entry>, kept: seq<nat>)
    requires entries != [] && Selects(r, entries[1..], kept)
    ensures Selects(r, entries, Shifted(kept)) && Selects([entries[0]] + r, entries, [0] + Shifted(kept))
  {
  }

  /** What is left without an alias is every entry under another one, in the same order. */
  lemma {:induction false} WithoutIsTheOthers(entries: seq<Entry>, alias: string) returns (kept: seq<nat>)
    ensures OthersAt(entries, alias, kept) && Selects(Without(entries, alias), entries, kept)
  {
    if entries == [] {
      kept := [];
    } else {
      var rest := WithoutIsTheOthers(entries[1..], alias);
      ShiftedOthers(entries, alias, rest);
      ShiftedSelects(Without(entries[1..], alias), entries, rest);
      kept := (if entries[0].alias == alias then [] else [0]) + Shifted(rest);
      assert [] + Shifted(rest) == Shifted(rest);
    }
  }

  lemma {:induction false} WithoutDropsItsCount(entries: seq<Entry>, alias: string)
    ensures |Without(entries, alias)| + CountOf(entries, alias) == |entries|
  {
    if entries != [] {
      WithoutDropsItsCount(entries[1..], alias);
    }
  }

  /** And each of them as often as before. */
  lemma {:induction false} WithoutKeepsCounts(entries: seq<Entry>, alias: string, e: Entry)
    requires e.alias != alias
    ensures multiset(Without(entries, alias))[e] == multiset(entries)[e]
  {
    if entries != [] {
      WithoutKeepsCounts(entries[1..], alias, e);
      assert entries == [entries[0]] + entries[1..];
    }
  }

  ghost predicate AsOften(before: seq<Entry>, after: seq<Entry>, alias: string) {
    forall e: Entry :: e.alias != alias ==> multiset(after)[e] == multiset(before)[e]
  }

  lemma OthersAsOften(entries: seq<Entry>, alias: string)
    ensures AsOften(entries, Without(entries, alias), alias)
  {
    forall e: Entry | e.alias != alias
      ensures multiset(Without(entries, alias))[e] == multiset(entries)[e]
    {
      WithoutKeepsCounts(entries, alias, e);
    }
  }

  lemma WithoutKeepsUnique(entries: seq<Entry>, alias: string)
    requires UniqueAliases(entries)
    ensures UniqueAliases(Without(entries, alias))
  {
    if entries != [] {
      WithoutKeepsUnique(entries[1..], alias);
      var rest := Without(entries[1..], alias);
      forall j | 0 <= j < |rest|
        ensures rest[j].alias != entries[0].alias
      {
        assert rest[j] in entries[1..];
      }
    }
  }

  lemma {:induction false} WithoutUndoesAppend(entries: seq<Entry>, e: Entry)
    requires !HasAlias(entries, e.alias)
    ensures Without(entries + [e], e.alias) == entries
  {
    if entries == [] {
    } else {
      assert entries[0].alias != e.alias;
      assert forall i :: 0 <= i < |entries[1..]| ==> entries[1..][i] == entries[i + 1];
      WithoutUndoesAppend(entries[1..], e);
      assert (entries + [e])[1..] == entries[1..] + [e];
    }
  }

  lemma Removed(entries: seq<Entry>, alias: string) returns (kept: seq<nat>)
    ensures var rest := Without(entries, alias);
            && OthersAt(entries, alias, kept) && Selects(rest, entries, kept) && AsOften(entries, rest, alias)
            && |rest| + CountOf(entries, alias) == |entries| && (|rest| != |entries| <==> HasAlias(entries, alias))
            && (UniqueAliases(entries) ==> UniqueAliases(rest))
  {
    kept := WithoutIsTheOthers(entries, alias);
    WithoutDropsItsCount(entries, alias);
    OthersAsOften(entries, alias);
    if UniqueAliases(entries) {
      WithoutKeepsUnique(entries, alias);
    }
  }

  // ------------------------------------------------------------------ linking a subscription

  function FromCredential(c: Credential): Entry {
    Entry(c.alias, c.provider, c.accessToken, 0, true, None, c.refreshToken, c.expiresAt, Some(c.oauthProvider))
  }

  function Relinked(e: Entry, c: Credential): Entry {
    e.(apiKey := c.accessToken, refreshToken := c.refreshToken, expiresAt := c.expiresAt,
       oauthProvider := Some(c.oauthProvider), enabled := true, cooldownUntil := None)
  }

  predicate LinkedTo(e: Entry, alias: string, provider: string) {
    e.alias == alias && e.provider == provider
  }

  predicate Linked(e: Entry, c: Credential) {
    LinkedTo(e, c.alias, c.provider)
  }

  function Upserted(entries: seq<Entry>, c: Credential): seq<Entry> {
    var i := FirstIndex(entries, (e: Entry) => Linked(e, c));
    if i < |entries| then entries[i := Relinked(entries[i], c)] else entries + [FromCredential(c)]
  }

  /** The alias is taken by a key of another provider. */
  predicate TakenElsewhere(entries: seq<Entry>, c: Credential) {
    exists i :: 0 <= i < |entries| && entries[i].alias == c.alias && entries[i].provider != c.provider
  }

  /** Linking matches an entry on alias and provider together, so it keeps aliases unique
      exactly when no other provider's key already bears the alias. */
  lemma UpsertKeepsUniqueExactlyWhen(entries: seq<Entry>, c: Credential)
    requires UniqueAliases(entries)
    ensures UniqueAliases(Upserted(entries, c)) <==> !TakenElsewhere(entries, c)
  {
    var after := Upserted(entries, c);
    var i := FirstIndex(entries, (e: Entry) => Linked(e, c));
    if TakenElsewhere(entries, c) {
      var k :| 0 <= k < |entries| && entries[k].alias == c.alias && entries[k].provider != c.provider;
      assert i == |entries|;
      assert after[k].alias == after[|entries|].alias;
    } else {
      assert forall j :: 0 <= j < |entries| && entries[j].alias == c.alias ==> Linked(entries[j], c);
      assert forall j :: 0 <= j < |entries| ==> after[j].alias == entries[j].alias;
    }
  }

  /** Linking the same account twice leaves the second tokens and no second entry. */
  lemma RelinkingReplaces(entries: seq<Entry>, c: Credential, d: Credential)
    requires c.alias == d.alias && c.provider == d.provider
    ensures |Upserted(Upserted(entries, c), d)| == |Upserted(entries, c)|
    ensures Upserted(Upserted(entries, c), d) == Upserted(entries, d)
  {
    var i := FirstIndex(entries, (e: Entry) => Linked(e, c));
    var k := FirstIndex(entries, (e: Entry) => Linked(e, d));
    var once := Upserted(entries, c);
    var j := FirstIndex(once, (e: Entry) => Linked(e, d));
    assert forall e: Entry :: Linked(e, c) <==> Linked(e, d);
    assert i == k;
    assert Linked(once[i], d);
    assert forall m :: 0 <= m < i ==> once[m] == entries[m];
    assert forall m :: 0 <= m < i ==> !Linked(entries[m], c);
    assert j == i;
  }

  // ------------------------------------------------------------------ text

  predicate IsWhitespace(c: char) {
    var n := c as int;
    9 <= n <= 13 || n == 0x20 || n == 0x85 || n == 0xA0 || n == 0x1680 || 0x2000 <= n <= 0x200A
    || n == 0x2028 || n == 0x2029 || n == 0x202F || n == 0x205F || n == 0x3000
  }

  /** White space is what Unicode calls so, by code point. */
  lemma WhitespaceIs(c: char)
    ensures IsWhitespace(c) <==>
            c as int in {0x09, 0x0A, 0x0B, 0x0C, 0x0D, 0x20, 0x85, 0xA0, 0x1680, 0x2000, 0x2001, 0x2002, 0x2003, 0x2004,
                         0x2005, 0x2006, 0x2007, 0x2008, 0x2009, 0x200A, 0x2028, 0x2029, 0x202F, 0x205F, 0x3000}
  {
  }

  function TrimStart(s: string): string {
    if s != [] && IsWhitespace(s[0]) then TrimStart(s[1..]) else s
  }

  function TrimEnd(s: string): string {
    if s != [] && IsWhitespace(s[|s| - 1]) then TrimEnd(s[..|s| - 1]) else s
  }

  function Trim(s: string): string {
    TrimEnd(TrimStart(s))
  }

  lemma {:induction false} TrimStartCuts(s: string) returns (i: nat)
    ensures i <= |s| && TrimStart(s) == s[i..] && (forall k :: 0 <= k < i ==> IsWhitespace(s[k]))
    ensures i < |s| ==> !IsWhitespace(s[i])
  {
    i := 0;
    if s != [] && IsWhitespace(s[0]) {
      var m := TrimStartCuts(s[1..]);
      i := m + 1;
      assert forall k :: 0 < k < i ==> s[k] == s[1..][k - 1];
    }
  }

  lemma {:induction false} TrimEndCuts(s: string) returns (j: nat)
    ensures j <= |s| && TrimEnd(s) == s[..j] && (forall k :: j <= k < |s| ==> IsWhitespace(s[k]))
    ensures j > 0 ==> !IsWhitespace(s[j - 1])
  {
    j := |s|;
    if s != [] && IsWhitespace(s[|s| - 1]) {
      j := TrimEndCuts(s[..|s| - 1]);
    }
  }

  /** Trimming cuts off white space at both ends, all of it, and nothing else. */
  lemma TrimIsTheMiddle(s: string) returns (i: nat, j: nat)
    ensures i <= j <= |s| && Trim(s) == s[i..j]
    ensures forall k :: 0 <= k < i || j <= k < |s| ==> IsWhitespace(s[k])
    ensures i < j ==> !IsWhitespace(s[i]) && !IsWhitespace(s[j - 1])
  {
    i := TrimStartCuts(s);
    var m := TrimEndCuts(s[i..]);
    j := i + m;
    assert forall k :: i <= k < |s| ==> s[k] == s[i..][k - i];
  }

  // ------------------------------------------------------------------ the mutable key ring

  /** The `entries` field of a loaded vault. */
  class KeyRing {
    var entries: seq<Entry>

    constructor (entries: seq<Entry>)
      ensures this.entries == entries
    {
      this.entries := entries;
    }

    /** Accepts a key exactly when its trimmed alias is non-empty and unused. */
    method AddKey(provider: string, alias: string, apiKey: string, priority: nat) returns (error: Option<AddError>)
      modifies this
      ensures error.None? <==> Trim(alias) != "" && !HasAlias(old(entries), Trim(alias))
      ensures error == Some(EmptyAlias) <==> Trim(alias) == ""
      ensures error.Some? ==> entries == old(entries)
      ensures error.None? ==>
                Without(entries, Trim(alias)) == old(entries) && |entries| == |old(entries)| + 1
                && entries[|old(entries)|] ==
                   Entry(Trim(alias), provider, apiKey, priority, true, None, None, None, None)
      ensures old(UniqueAliases(entries)) ==> UniqueAliases(entries)
    {
      var name := Trim(alias);
      if name == "" {
        return Some(EmptyAlias);
      }
      if HasAlias(entries, name) {
        return Some(DuplicateAlias);
      }
      var added := Entry(name, provider, apiKey, priority, true, None, None, None, None);
      WithoutUndoesAppend(entries, added);
      entries := entries + [added];
      error := None;
    }

    /** Replaces the first plain key of an alias and nothing else; an alias that is absent or
        belongs only to subscriptions is refused. */
    method ReplaceKey(alias: string, apiKey: string) returns (found: bool)
      modifies this
      ensures found <==> exists i :: 0 <= i < |old(entries)|
                                     && old(entries)[i].alias == alias && old(entries)[i].oauthProvider == None
      ensures |entries| == |old(entries)|
      ensures forall i :: 0 <= i < |entries| ==>
                entries[i] == if FirstPlainKey(old(entries), alias, i)
                              then old(entries)[i].(apiKey := apiKey, enabled := true, cooldownUntil := None)
                              else old(entries)[i]
    {
      var i := FirstIndex(entries, (e: Entry) => e.alias == alias && e.oauthProvider.None?);
      found := i < |entries|;
      if found {
        entries := entries[i := entries[i].(apiKey := apiKey, enabled := true, cooldownUntil := None)];
      }
    }

    /** A linked account takes new tokens, is switched on and off cooldown, and keeps its
        priority; a new one is added behind the others. */
    method UpsertOAuthKey(c: Credential) returns (replaced: bool)
      modifies this
      ensures entries == Upserted(old(entries), c)
      ensures replaced <==> exists i :: 0 <= i < |old(entries)| && LinkedTo(old(entries)[i], c.alias, c.provider)
      ensures |entries| == |old(entries)| + if replaced then 0 else 1
      ensures forall i :: 0 <= i < |old(entries)| ==>
                if LinkedTo(old(entries)[i], c.alias, c.provider)
                   && (forall j :: 0 <= j < i ==> !LinkedTo(old(entries)[j], c.alias, c.provider)) then
                  && entries[i].apiKey == c.accessToken && entries[i].refreshToken == c.refreshToken
                  && entries[i].expiresAt == c.expiresAt && entries[i].oauthProvider == Some(c.oauthProvider)
                  && entries[i].enabled && entries[i].cooldownUntil.None?
                  && entries[i].alias == old(entries)[i].alias && entries[i].provider == old(entries)[i].provider
                  && entries[i].priority == old(entries)[i].priority
                else entries[i] == old(entries)[i]
      ensures !replaced ==>
                entries[|old(entries)|] ==
                Entry(c.alias, c.provider, c.accessToken, 0, true, None, c.refreshToken, c.expiresAt,
                      Some(c.oauthProvider))
      ensures old(UniqueAliases(entries)) ==> (UniqueAliases(entries) <==> !TakenElsewhere(old(entries), c))
    {
      if UniqueAliases(entries) {
        UpsertKeepsUniqueExactlyWhen(entries, c);
      }
      var i := FirstIndex(entries, (e: Entry) => Linked(e, c));
      replaced := i < |entries|;
      entries := if replaced then entries[i := Relinked(entries[i], c)] else entries + [FromCredential(c)];
    }

    /** Every entry of the alias goes; every other one stays, in its order. */
    method RemoveKey(alias: string) returns (found: bool, ghost kept: seq<nat>)
      modifies this
      ensures found <==> HasAlias(old(entries), alias)
      ensures OthersAt(old(entries), alias, kept) && Selects(entries, old(entries), kept)
      ensures |entries| + CountOf(old(entries), alias) == |old(entries)|
      ensures AsOften(old(entries), entries, alias)
      ensures old(UniqueAliases(entries)) ==> UniqueAliases(entries)
    {
      var before := |entries|;
      kept := Removed(entries, alias);
      entries := Without(entries, alias);
      found := |entries| != before;
    }

    /** Switches the first key of an alias on or off, and nothing else. */
    method SetEnabled(alias: string, enabled: bool) returns (found: bool)
      modifies this
      ensures found <==> HasAlias(old(entries), alias)
      ensures |entries| == |old(entries)|
      ensures forall i :: 0 <= i < |entries| ==>
                entries[i] == if old(entries)[i].alias == alias && FirstOfAlias(old(entries), i)
                              then old(entries)[i].(enabled := enabled) else old(entries)[i]
    {
      var i := FirstIndex(entries, (e: Entry) => e.alias == alias);
      found := i < |entries|;
      if found {
        entries := entries[i := entries[i].(enabled := enabled)];
      }
    }

    /** Sets or clears the cooldown of the first key of an alias, and nothing else. */
    method SetCooldown(alias: string, until: Option<int>) returns (found: bool)
      modifies this
      ensures found <==> HasAlias(old(entries), alias)
      ensures |entries| == |old(entries)|
      ensures forall i :: 0 <= i < |entries| ==>
                entries[i] == if old(entries)[i].alias == alias && FirstOfAlias(old(entries), i)
                              then old(entries)[i].(cooldownUntil := until) else old(entries)[i]
    {
      var i := FirstIndex(entries, (e: Entry) => e.alias == alias);
      found := i < |entries|;
      if found {
        entries := entries[i := entries[i].(cooldownUntil := until)];
      }
    }
  }
}
