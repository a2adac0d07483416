# Verification of Skyport's core

A Dafny model of the parts of the Skyport gateway whose correctness spans several steps or
several functions, with proofs of what those parts are for. `dafny verify dfyconfig.toml`
checks all of it.

The project models:

- the encrypted **vault** and its master-key rotation (`VaultProtocol`, `VaultSafety`,
  `VaultRecovery`, `VaultStore`, `VaultEntries`): several processes share one file and two
  credential slots. Load, save and rotation are split at every credential write and at the
  replacement of the file, with a failure or a crash possible at each. `VaultStore` has the
  operations as they update their state in place, each proved to be a run of that protocol;
- **replacing a file** as a whole (`AtomicFile`) and the **configuration file** shared by
  processes (`ConfigFile`);
- the **failover loop** of the proxy with its budget gate (`Router`, `Prices`, `Calendar`,
  `Ledger`, `BudgetCaps`, `Failover`, `FailoverGuarantees`, `ComingBack`,
  `FailoverBudgets`, `ProviderCaps`, `BudgetGate`, `Gateway`). A round of the loop is a function; what the
  clock, the upstream and other requests do in a round is its argument, so the theorems hold
  for all of it. `BudgetGate` interleaves any number of requests, with the lock that
  serialises those of budgeted providers in its state. `Gateway` is the loop over mutable
  state, proved to do those rounds;
- the **sliding-window rate limiter** (`RateLimiter`, `RateBounds`, `RateExactness`), whose
  recorded times may step back because the clock is read before the lock is taken;
- the **streaming translation** (`Json`, `Translate`, `Sse`, `SseChunking`, `ResponsesRelay`,
  `SseLimits`, `StreamAgreement`, `WholeReplies`, `StreamedReplies`, `StreamedUsage`): an incremental parser of server-sent events (sections 9.2.5 and 9.2.6
  of the WHATWG HTML standard, of which the code implements a subset), a printer of frames,
  and a second parser that reads them;
- **sign-in** flows in a shared map (`SignIn`, `OneLogin`), with the PKCE verifier of section 4.5 of
  RFC 7636;
- the **redaction** scanners (`TextPieces`, `TokenRedaction`, `PathRedaction`,
  `KeyRedaction`) and the extraction of **tool activity** from requests (`Activity`).

Some promises do not hold of the code as one might state them. Each of these has the exact
condition, or an input that shows it: linking a subscription keeps aliases unique only when
no other provider's key bears the alias (`UpsertKeepsUniqueExactlyWhen`); a provider's caps
hold only when none of its keys can pay for a request from a budget of its own
(`ProviderCapsHoldExactlyWhen`); a request served by a local server without a key is retried
for as long as that server keeps failing (`LocalRetriesExactlyWhile`), and any request for as
long as `RequestGoesOnExactlyWhile` says; a request may come back to a key it tried, and give
up there, exactly when a live key of its provider stands behind another entry of
its alias, its own or another provider's (`NeverComesBackExactlyWhen`); line ends are normalized
alike for every cut of a stream only when it has no CR CR LF
(`NormalizationIgnoresCutsExactlyWhen`); streamed reasoning agrees with the whole body only
for at most one part (`AnthropicReplyStreams`, `ResponsesReplyStreams`); when times step
back, limits of two and more bound the admissions of a minute less the skew, and not of a
full minute (`MinuteHoldsExactlyWhen`, `FullMinuteFailsUnderSkew`); in the first minute of
the clock only admissions of the same instant count (`ColdClockForgets`); a request repeats
a tool batch when nothing but results was added (`RepeatsExactlyWhen`); a flow signs in twice
exactly when polls of it that go on to complete the login overlap
(`SignsInTwiceExactlyWhenPollsOverlap`).

Some lemmas take a function such as `round`, `kept` or `hidden` together with a predicate
(`LoopOf`, `KeepingOf`, `Hides`) that says it is the modelled function. They say nothing
weaker: the function is only named there so that its definition stays out of proofs that do
not need it.

## Model

| member | source | states |
|---|---|---|
| VaultSafety.AlwaysReadable | src/vault.rs:729-823 | in every world any run of the processes can reach, with a crash or a failed write anywhere in a load, a save or a rotation, the file on disk opens with the current or the previous stored key |
| VaultSafety.StepKeepsInv | src/vault.rs:495-521 | every action of every process keeps the protocol invariant: which slot opens the file, what the lock holder knows at each point, fresh nonces, one version chain, handles that match what they last saw |
| VaultSafety.AdvanceWritesWhole | src/vault.rs:558-568 | a step leaves the file alone or replaces it by exactly the envelope that step is meant to write |
| VaultSafety.NewFingerprintIsCurrent | src/vault.rs:523-536 | a process that comes to hold a new fingerprint holds that of the file on disk, also after a legacy file was resealed |
| VaultSafety.NoLostUpdate | src/vault.rs:770-823 | if a save or a rotation replaces the file, then nothing was written since its process last loaded or wrote it |
| VaultSafety.WriterSeesTheDisk | src/vault.rs:826-856 | a save or a rotation replaces only the exact envelope its handle holds |
| VaultSafety.SuccessfulWritesFormOneChain | src/vault.rs:558-568 | over any run every write but the first was made over exactly the envelope written before it |
| VaultRecovery.LoadRecovers | src/vault.rs:495-521 | from every reachable world one uninterrupted load ends with the current slot holding the file's key, the previous slot empty, and exactly the file's entries; a legacy envelope is resealed with its entries, a current one is not rewritten |
| VaultRecovery.LoadingAgainChangesNothing | src/vault.rs:729-767 | a second load changes neither slot nor the file |
| VaultRecovery.EveryCrashIsRecovered | src/vault.rs:475-521 | after any run and a crash of the lock holder at any point, the next load returns the entries of the last envelope that reached the disk |
| VaultRecovery.LoadCreates | src/vault.rs:366-387 | without a file a load creates an empty vault under the stored or a minted key, and fails only when the slot holds something that is no key |
| VaultRecovery.WriteIsAllOrNothing | src/vault.rs:770-856 | whichever reads and writes of a save or a rotation fail, the next load finds exactly the old entries or exactly the caller's, and the caller's after a reported success |
| VaultRecovery.SaveSucceedsExactlyWhenUnchanged | src/vault.rs:826-861 | without failures a save goes through if and only if the file is still the one last seen; the key comparison refuses nothing that the fingerprint let pass |
| VaultRecovery.RotationRetiresTheOldKey | src/vault.rs:770-823 | a rotation reseals the entries under the minted key, makes it current and leaves no copy of the old key |
| VaultStore.Store.LoadOrCreate | src/vault.rs:729-767 | under every pattern of failures: a finished load leaves the current slot opening the file, an empty previous slot and a handle with exactly the file's entries; a file that opens under neither slot fails the load as undecryptable with every slot, the file and the handles as they were; no load changes the file's entries, and one that could open the file leaves it openable; the whole is the protocol's run of a load |
| VaultStore.Store.DecryptExisting | src/vault.rs:475-521 | a key is found exactly when a slot opens the file, short of failures, and then the current slot holds it and the previous is empty; when no slot opens it nothing changes; the whole is the protocol's run from that point |
| VaultStore.Store.Create | src/vault.rs:373-387 | a vault created is empty and settled under a key in the current slot, and without failures only an invalid slot prevents it; the protocol's run |
| VaultStore.Store.Save | src/vault.rs:826-861 | a finished save puts exactly the handle's entries on disk and in the handle; one over a file that has changed or opens under neither slot fails and leaves everything as it was; the protocol's run of a save |
| VaultStore.Store.RotateMasterKey | src/vault.rs:770-800 | a finished rotation leaves the handle's entries sealed under the minted key, that key current and no previous one; one over a file that has changed or opens under neither slot fails and leaves everything as it was; whatever fails, a file that could be opened still can; the protocol's run |
| VaultStore.Store.Reseal | src/vault.rs:786-823 | park, switch, replace and clean up, in that order, keep the file openable and end settled under the minted key or as failed; the protocol's run |
| VaultStore.Store.Persist | src/vault.rs:558-568 | sealing and replacing puts on disk a whole new version, or leaves the file alone when it fails before taking effect |
| VaultEntries.KeyRing.AddKey | src/vault.rs:863-892 | a key is accepted if and only if its trimmed alias is neither empty nor taken; what it adds is undone by removing the alias, and aliases stay unique |
| VaultEntries.TrimIsTheMiddle | src/vault.rs:863-870 | trimming takes off white space at both ends, all of it and nothing else |
| VaultEntries.KeyRing.ReplaceKey | src/vault.rs:894-908 | the first plain key of the alias, and nothing else, gets the new secret, is enabled and taken off cooldown; found if and only if there is one; duplicate aliases included |
| VaultEntries.KeyRing.UpsertOAuthKey | src/vault.rs:914-957 | whether linking replaced or added; the first entry linked to the account gets the new tokens, is switched on and taken off cooldown and keeps its alias and priority, all others stay; aliases stay unique if and only if no other provider's key bears the alias |
| VaultEntries.UpsertKeepsUniqueExactlyWhen | src/vault.rs:924-927 | linking matches on alias and provider together: it keeps aliases unique if and only if the alias is not taken by another provider |
| VaultEntries.RelinkingReplaces | src/vault.rs:914-957 | linking an account twice leaves the second tokens and no second entry |
| VaultEntries.KeyRing.RemoveKey | src/vault.rs:959-964 | every entry under the alias goes, and what remains is every other one, as often as before and in the same order, at the positions reported |
| VaultEntries.WithoutKeepsCounts | src/vault.rs:959-964 | removing an alias leaves every entry under another one exactly as often as before |
| VaultEntries.KeyRing.SetEnabled | src/vault.rs:965-983 | found if and only if the alias is there; of all entries only the first of that alias changes, and in it only the switch |
| VaultEntries.KeyRing.SetCooldown | src/vault.rs:1026-1033 | found if and only if the alias is there; of all entries only the first of that alias changes, and in it only the cooldown |
| VaultEntries.UpdateTouchesOnlyItsAlias | src/vault.rs:1026-1033 | with unique aliases, an update by alias touches exactly the entry it names |
| AtomicFile.Directory.AtomicWrite | src/vault.rs:580-606 | at every point a crash could leave, the file is whole, old or new, and only one temporary file differs; the new contents are in place exactly when a name was free and nothing before the directory's sync failed, and otherwise the directory is as it was once cleaned up |
| AtomicFile.Directory.CreateTemporary | src/vault.rs:608-642 | a fresh name of the form `.name.tag.tmp`, given up on if and only if 128 candidates are all taken |
| ConfigFile.NoUpdateIsLost | src/config.rs:226-252 | over every interleaving of processes, with saves that fail before or after the replacement, each save that reaches the file overwrites exactly what its process last loaded or saved |
| ConfigFile.SaveSucceedsExactlyWhen | src/config.rs:232-244 | a save succeeds if and only if the file holds what the process last loaded or saved and the write works |
| ConfigFile.Store.Save | src/config.rs:226-252 | the save in place: it goes through exactly when the file is what the handle last saw and the write works, only then does the handle move on, and a file that changed is not touched |
| ConfigFile.Store.Load | src/config.rs:203-224 | a missing file gives the defaults with no fingerprint, an unreadable one nothing, any other its own settings with the missing bundled providers added and the file as fingerprint |
| ConfigFile.MergingKeepsEdits | src/config.rs:217-222 | merging the bundled providers clobbers no edit and adds exactly the missing ones |
| ConfigFile.AddedIsTheFirstBundled | src/config.rs:217-222 | a provider that is added is the one bundled first under its name |
| ConfigFile.EditedIsSaved | src/config.rs:226-252 | what a process edits is what its next save puts into a file that has not changed, and the handles of the others stay |
| ConfigFile.LoadFindsWhatWasSaved | src/config.rs:203-252 | saving and then loading gives back the same settings and fingerprint |
| Router.EligibleIsRanked | src/vault.rs:1010-1018 | eligible keys are sorted by priority, and those of one priority are exactly the provider's usable keys of it, in vault order |
| Router.EligibleIsUsable | src/router.rs:123-136 | a key is eligible if and only if it is the provider's, enabled and past its cooldown |
| Router.FirstEligibleIsBest | src/router.rs:163-165 | without rotation the chosen key is usable and no usable key of the provider has a better priority |
| Router.NoKeyExactlyWhen | src/router.rs:138-151 | a configured provider is refused a key if and only if it needs one and none of its keys is usable |
| Router.ChoiceIsUsable | src/router.rs:104-175 | whatever is chosen is a usable key of that provider, or the local alias of a keyless one |
| Router.RotationIsFair | src/router.rs:153-162 | over the counters that successive rotating selections leave behind, while the eligible keys stay the same and the counter does not wrap, any whole number of rounds chooses each key equally often, whatever else in the vault and the clock changes in between |
| Router.FailureTakesKeyOut | src/router.rs:180-202 | a failed key is usable again if and only if it was not disabled and the clock is strictly past its cooldown; no other key changes |
| Router.SuccessRestoresKey | src/router.rs:205-211 | after a success a key is usable if and only if it is enabled; no other key changes |
| Router.Router.SelectKey | src/router.rs:104-175 | which refusal it is, exactly; a chosen key may serve and, without rotation, none that may has a better priority; a rotating choice moves the provider's counter on by one, back to 0 at 2^64, and nothing else moves any counter |
| Router.Router.MarkKeyFailed | src/router.rs:180-202 | a 429 keeps the first entry of the alias out for the retry-after, read as a signed number, or for 60 seconds, a 401 switches it off, a server error keeps it out for 10 seconds, any other status does nothing; no other entry changes |
| Router.Router.MarkKeySuccess | src/router.rs:205-211 | the first entry of the alias has no cooldown afterwards and is as it was otherwise; no other entry changes |
| Prices.CostIsMonotone | src/providers/mod.rs:78-83 | bounds on the tokens bound the cost |
| Prices.CostIsPerMillion | src/providers/mod.rs:78-83 | a million tokens of a kind cost its list price, and costs add up |
| Calendar.MonthTextOrder | src/db.rs:803-806 | month texts compare as strings exactly as the months do |
| Calendar.DayTextOrder | src/db.rs:803-806 | day texts compare as strings exactly as the dates do, and are never a month's text |
| Calendar.TextsReadBack | src/db.rs:803-806 | the digits of a month's and a day's text are its year, month and day |
| Ledger.PostAdds | src/api/v1.rs:876-897 | a charge adds its cost to its own month and day, of its own provider and key, and to nothing else |
| Ledger.LedgerConserves | src/db.rs:1266-1281 | over any run the usage of a provider or a key in a month or a day is the sum of what was charged to it then |
| Ledger.EveryRowIsItsSum | src/db.rs:1266-1281 | every row holds exactly the sum of its key's charges in its period |
| Ledger.TableStaysKeyed | src/db.rs:1273-1279 | the upsert keeps one row per provider, key and period, and no row is negative |
| Ledger.DaysSumToMonth | src/api/v1.rs:881-894 | the day rows of a month add up to its month row |
| Ledger.ProviderIsSumOfKeys | src/db.rs:1248-1263 | a provider's usage is the sum over its keys |
| Ledger.PruneKeepsCurrentPeriods | src/db.rs:793-817 | pruning with any retention leaves the current day and month alone |
| Ledger.PruneDropsExactlyTheOlder | src/db.rs:803-812 | a row is pruned if and only if its day or month lies before the cutoff's |
| Ledger.PruneDropsTheOutlived | src/db.rs:793-817 | a row is in the pruned table if and only if it was there and its period does not lie before the cutoff's, as often as before |
| BudgetCaps.CheckedChargeKeepsCaps | src/db.rs:1285-1311 | a charge within the projected cost that passed the check keeps the caps, even when the day or the month ends in between |
| BudgetGate.CapsHoldOverRuns | src/api/v1.rs:131-263 | over every interleaving of any number of requests, with check, reply and charge as separate steps, clients that go away and pruning, that starts within a promised cap, no day and no month exceeds it |
| BudgetGate.OneAtATime | src/api/v1.rs:136-169 | in every reachable state at most one request of all budgeted providers is past the gate, it is the one that holds it, and it does not stream |
| BudgetGate.GateIsReturned | src/api/v1.rs:165-169 | a held gate is always held by a request that is still under way past it |
| BudgetGate.EveryoneGetsATurn | src/api/v1.rs:136-169 | the holder of the gate can end and give it back, and then any waiting request that may go on does, holding the gate exactly if its provider is budgeted |
| BudgetGate.StreamIsTurnedAway | src/api/v1.rs:136-169 | a streaming request of a budgeted provider is over at once, whoever holds the gate |
| BudgetGate.StreamEndsCharged | src/api/v1.rs:592-597 | a streamed answer is charged at its end, its tokens at their prices per million, to its own key, and the request is then over |
| BudgetGate.OthersStayHarmless | src/api/v1.rs:165-169 | while a request of a budgeted provider is past the gate, no run of the others raises its provider's usage, ends the request or takes the gate |
| BudgetGate.AttemptIsATry | src/api/v1.rs:172-535 | an attempt past the gate, with any run of the others between its check and its reply, is an attempt of the failover loop, and what the others did meanwhile is harmless to its provider |
| ProviderCaps.RequestKeepsProviderCapsExactlyWhen | src/api/v1.rs:50-60 | a request keeps its provider's caps through every world, vault and ledger if and only if it costs nothing or no key's own budget has room for it; or a cap is negative |
| ProviderCaps.ProviderCapsHoldExactlyWhen | src/api/v1.rs:50-60 | a key's own budget replaces its provider's: the provider's caps hold through all requests if and only if the provider is unpriced or free, or the cheapest request exceeds every key's own budget; or a cap is negative |
| BudgetCaps.PruningKeepsCaps | src/db.rs:793-817 | pruning keeps the caps |
| BudgetCaps.KeyScopeIsInjective | src/api/v1.rs:55-59 | the budget keys of two aliases of one provider coincide only for the same alias |
| FailoverGuarantees.RequestGoesOnExactlyWhile | src/api/v1.rs:176-535 | for any vault, the loop goes on for n rounds if and only if each of them chooses an untried key or the local alias, its budget has room, nothing stops it, and the reply is a failure worth another try |
| FailoverGuarantees.RequestEnds | src/api/v1.rs:172-183 | with any vault, duplicate aliases included, and whatever the upstream replies, the loop ends within one round more than the provider has aliases, unless a key or the provider goes by the alias of a local server |
| FailoverGuarantees.EachKeyIsTriedOnce | src/api/v1.rs:181-183 | after n rounds n different keys of the provider were tried, and every other key is exactly as it was |
| FailoverGuarantees.GivesUpOnlyAfterEveryKey | src/api/v1.rs:177-180 | a loop that ends because no key is available has tried every key that was usable at its start |
| FailoverGuarantees.RequestTriesEveryKey | src/api/v1.rs:177-183 | a request that gets no key, although none has recovered meanwhile, has tried every key that was usable at its start |
| ComingBack.NeverComesBackExactlyWhen | src/api/v1.rs:176-183 | for every vault, with rotation or without: no run without a recovered key comes back to a key it tried if and only if each of the provider's switched-on keys is the first entry of its alias, or the provider is not served; keys whose budgets have room from the start, as without budgets |
| ComingBack.HiddenKeyComesBack | src/router.rs:180-202 | a live key behind another entry of its alias, the provider's own or another's: when every key is refused, the loop ends by coming back to a key it tried |
| ComingBack.DuplicateComesBack | src/router.rs:180-202 | two entries of one alias, the later one a live key of the provider, are enough, also when both are the provider's own |
| FailoverGuarantees.NoKeyComesBackUnlessRecovered | src/api/v1.rs:181-183 | while no failed key's cooldown runs out, the loop never comes back to a key it tried, if each of the provider's switched-on keys is the first entry of its alias, whatever the budgets |
| FailoverGuarantees.ForeignAliasComesBack | src/router.rs:180-202 | an example without rotation: a failed key whose alias another provider's key bears first is chosen again in the very next round, because the failure is marked on that one |
| FailoverGuarantees.StatusIsTheLastFailure | src/api/v1.rs:177-183 | the outcome of a client that gets no key carries the status of the last failure, or the one the loop starts with when there was none |
| FailoverGuarantees.RoundWithoutAKey | src/api/v1.rs:176-183 | which outcome a round without a key to try ends with, for each refusal of the router, and that it changes nothing |
| FailoverGuarantees.LocalRetriesExactlyWhile | src/api/v1.rs:181-183 | with any vault and any budgets, a keyless provider that has no key of its own goes on for n rounds if and only if its budget has room and the local server answers with a failure worth another try in each |
| FailoverBudgets.RequestKeepsCaps | src/api/v1.rs:172-535 | however many keys one request tries, whatever is replied, and whenever the day or the month ends, no promised cap is exceeded, as long as what the others do between check and charge is harmless, which the gate sees to |
| FailoverBudgets.AttemptsAreCharged | src/api/v1.rs:463-528 | every answered or failed attempt is charged once, to its own key and on the day it is logged: an answer at its price, a failure at nothing |
| FailoverBudgets.CostIsProjected | src/api/v1.rs:215-229 | an upstream that bills no more tokens than the request has bytes and asked for bills no more than was projected, and nothing without a price |
| FailoverBudgets.OtherChargesAreHarmless | src/api/v1.rs:876-897 | another provider's charge never raises this provider's usage |
| FailoverBudgets.PruningIsHarmless | src/db.rs:793-817 | pruning never raises any usage |
| Gateway.Gateway.Proxy | src/api/v1.rs:62-169 | a request is refused as over the limit exactly when it asks for more than 32768 tokens under either name, and as streaming exactly when it streams to a budgeted provider within the limit; both leave the state alone; all others are served by the loop |
| Gateway.Gateway.Serve | src/api/v1.rs:172-536 | for any vault, the loop over router, key ring and ledger, updated in place, is in the state its rounds lead to, and ends within a limit above the number of keys unless it serves a local alias |
| Gateway.Gateway.Pass | src/api/v1.rs:176-183 | one pass of the loop in place is one round |
| Gateway.Gateway.LogTokens | src/api/v1.rs:876-900 | the usage of the charge's month and of its day, of its provider and its key, both rise by the cost when it is logged; when the transaction fails no usage changes |
| Gateway.Gateway.PruneLogs | src/db.rs:793-817 | pruning in place leaves the usage of every provider and key in the current day and month alone |
| Gateway.Gateway.CheckBudget | src/api/v1.rs:185-263 | without a budget for the key or its provider nothing is refused; the key's own budget governs, else its provider's; one with a cap refuses a provider without prices as such, and otherwise exactly a request for which the month or the day has no room; the round's verdict |
| Failover.GatedExactlyWhen | src/api/v1.rs:139-151 | a provider is gated exactly when it or one of its keys has a budget with a cap |
| Failover.OnlyTheLimitIsFilledIn | src/api/v1.rs:159-164 | a request that chats with a budgeted provider without a numeric limit is given one of 4096 tokens, and nothing else of any request changes |
| Failover.BoundIsWhatIsAsked | src/api/v1.rs:218-222 | the completion tokens a check projects are what the first limit of the request says, and 0 where that is not a number |
| Gateway.Gateway.HandleReply | src/api/v1.rs:398-535 | each reply gives its own outcome and status; after an answer or an unreadable body the first entry of the key's alias has no cooldown and every other entry is as it was, after a failure worth another try it is marked, after one passed on no entry changes; exactly the answer's cost is charged; the round's settlement |
| RateLimiter.SlidingWindow.CheckAndRecord | src/rate_limiter.rs:37-116 | the announced wait, and an accepted call's reset, is the least whole number of seconds after which the oldest kept admission has left its minute, and 1 for a burst; what remains is the limit less the admissions kept; the deque and the decision are those of the specification |
| RateLimiter.WaitIsLeast | src/rate_limiter.rs:84-116 | the seconds computed from an elapsed time are the least that suffice |
| RateLimiter.SlidingWindow.Discard | src/rate_limiter.rs:46-53 | pruning pops exactly the stale entries at the front |
| RateLimiter.SlidingWindow.CountRecent | src/rate_limiter.rs:55-72 | the entries counted for the burst limit, and the oldest of them |
| RateLimiter.Limiter.CheckGlobal | src/rate_limiter.rs:140-156 | without limits nothing is recorded; otherwise the global window decides |
| RateLimiter.Limiter.CheckScoped | src/rate_limiter.rs:158-178 | a scope's own window decides, and no other window changes |
| RateLimiter.AsU32IsModulo | src/rate_limiter.rs:85 | the count is taken modulo 2^32, as the cast does |
| RateBounds.DecidesLikeFullHistory | src/rate_limiter.rs:43-101 | with times in order, the pruned deque decides every call as a limiter that keeps all admissions and filters them, and holds exactly those of the last minute |
| RateBounds.QueueIsTail | src/rate_limiter.rs:46-53 | the deque is a tail of all admissions, and what it dropped was outdated |
| RateBounds.MinuteBound | src/rate_limiter.rs:84-101 | with times that step back by at most a skew, every closed interval of a minute less the skew holds at most the limit's admissions |
| RateBounds.BurstBound | src/rate_limiter.rs:55-82 | the same for a second and the burst limit, while the 32-bit count of the run does not wrap |
| RateBounds.NeverWrapsWhen | src/rate_limiter.rs:57-63 | under a minute limit, or with at most 2^32 calls, the count never wraps |
| RateExactness.MinuteHoldsExactlyWhen | src/rate_limiter.rs:43-101 | every run with times that step back by at most a skew admits at most the limit in every closed interval of a length if and only if the limit is zero, or the length is at most a minute less the skew, or at most a minute for a limit of one |
| RateExactness.BurstHoldsExactlyWhen | src/rate_limiter.rs:55-82 | the same for the burst limit and a second |
| RateExactness.FullMinuteFailsUnderSkew | src/rate_limiter.rs:153-155 | the full minute is bounded if and only if there is no skew or the limit is at most one |
| RateExactness.ColdClockCountsOneInstant | src/rate_limiter.rs:43-44 | within a minute of the clock's origin and with times in order, a call is judged by the admissions of its own instant alone |
| RateExactness.ColdClockForgets | src/rate_limiter.rs:43-44 | so there the minute limit rejects a call if and only if the admissions at the very same instant have reached it |
| RateBounds.WaitsAreBounded | src/rate_limiter.rs:84-97 | every announced wait is between one second and a minute |
| RateBounds.WaitingIsEnough | src/rate_limiter.rs:84-97 | with times that step back by at most a skew, a call later than the announced wait and the skew, with no admission in between and fixed limits, is admitted if and only if the limit is not zero |
| Sse.ReplaceCrLf | src/api/v1.rs:572 | the left-to-right replacement of CR LF is the normalization of the specification |
| Sse.TranslateStream | src/api/v1.rs:558-597 | the chunk loop in place yields, logs and gives up as feeding the chunks one by one does; with the rows on usage and limits below this says what is logged and when it gives up |
| Sse.UsageIsRead | src/api/v1.rs:918-939 | the prompt tokens are the first of the three names of a payload's usage that holds a 64-bit number, else 0, the completion tokens likewise, each under its own names, wherever the payload keeps its usage |
| Sse.LinesReadBack | src/api/v1.rs:573-578 | lines written with LF or with CR LF are read back as they were, the last one also without a line end |
| SseLimits.GivesUpExactlyWhen | src/api/v1.rs:563-594 | a reading loop gives up on a chunk exactly when it is a transport error or makes the buffer longer than 1,048,576 bytes; what was sent and counted stands |
| SseLimits.BufferIsBounded | src/api/v1.rs:566-571 | the buffer never holds more than that |
| SseLimits.ShortIsReadThrough | src/api/v1.rs:563-594 | a text of at most that many bytes without transport errors is read through, however it is cut |
| StreamedUsage.LoopCountsUsage | src/api/v1.rs:563-594 | what the loop logs is the largest prompt count and the largest completion count of the events it has read, over any cut |
| StreamedUsage.AnthropicUsage | src/api/v1.rs:563-594 | a streamed Anthropic reply is logged with the output tokens of its closing event |
| StreamedUsage.ResponsesUsage | src/api/v1.rs:632-664 | a streamed Responses reply is logged with the input and output tokens of its own usage |
| SseChunking.NormalizationIgnoresCutsExactlyWhen | src/api/v1.rs:572 | normalizing chunk by chunk is independent of the cuts if and only if the text has no CR CR LF |
| SseChunking.ChunkingDoesNotMatter | src/api/v1.rs:563-594 | two cuts of the same text give the same translated events, end of stream and usage maxima, as long as neither outgrows the buffer and there is no CR CR LF |
| SseChunking.LoopDrainsTheWhole | src/api/v1.rs:573-591 | the loop over any cut reaches what draining the whole text at once reaches |
| ResponsesRelay.TranslateResponseStream | src/api/v1.rs:1065-1100 | the re-reading loop in place emits what the specification of its frames says |
| ResponsesRelay.ClientGetsUpstreamDeltas | src/api/v1.rs:1059-1100 | translating, printing and re-reading a stream gives the client one opening event, exactly the upstream's text deltas in order up to the terminating event, and one closing event |
| ResponsesRelay.RelayOfPrinted | src/api/v1.rs:1076-1095 | re-reading printed frames, cut anywhere, gives exactly their contents |
| StreamedReplies.AnthropicReplyStreams | src/api/v1.rs:563-594 | the translating loop, over any cut into chunks of the text of a streamed Anthropic reply, with events that translate to nothing anywhere in it, gives the client the content and finish reason of the whole body, and its reasoning if and only if it has at most one thinking block |
| StreamedReplies.ResponsesReplyStreams | src/api/v1.rs:632-664 | the same for a Responses reply and its reasoning summaries |
| StreamedReplies.LoopGivesChunks | src/api/v1.rs:563-594 | the loop over any cut of a text yields exactly the chunks of the JSON events in its data lines, however many a server-sent event has, each such group to its end, up to the one in which the stream ends |
| StreamedReplies.GroupsAsChunks | src/api/v1.rs:573-591 | when only the last data line of a group can end the stream, how the data lines are grouped does not matter |
| StreamAgreement.QuietEventsDoNotMatter | src/providers/translate.rs:100-128 | events that translate to nothing change nothing, wherever they stand |
| StreamAgreement.AnthropicStreamAgrees | src/providers/translate.rs:51-128 | the events of an Anthropic reply, its texts cut anywhere and quiet events anywhere among them, translate to the content and finish reason of the whole body, and to its reasoning if and only if it has at most one thinking block |
| StreamAgreement.ResponsesStreamAgrees | src/providers/translate.rs:284-367 | the same for a Responses reply and its reasoning summaries |
| StreamAgreement.SeparatorShows | src/providers/translate.rs:64-73 | the separator of the whole-body form shows if and only if there is something to separate |
| Translate.ChunkContents | src/providers/translate.rs:370-401 | only a text chunk carries content, only a reasoning chunk reasoning, only a final chunk a finish reason |
| Translate.FinishMeans | src/providers/translate.rs:51-98 | a reply is cut short exactly when its upstream says so: `max_tokens`, or the status `incomplete` |
| WholeReplies.AnthropicReplyIs | src/providers/translate.rs:51-98 | the content of an Anthropic reply is its text blocks one after another, its reasoning its thinking blocks on separate lines, blocks of other types left out |
| WholeReplies.ResponsesReplyIs | src/providers/translate.rs:284-335 | the content of a Responses reply is the output texts of its messages one after another, its reasoning the summaries of its reasoning items on separate lines, other items left out |
| WholeReplies.AnthropicReports | src/providers/translate.rs:100-128 | the final chunk reports the output tokens of the message_delta event, if they are a number of 64 bits |
| WholeReplies.ResponsesReports | src/providers/translate.rs:337-368 | the same of a completed response |
| SignIn.OneVerifierOneOutcome | src/api/oauth.rs:838-886 | over every interleaving of connects, callbacks, polls, expiry and eviction: a verifier is handed out at most once, to its own provider and within 900 seconds; an outcome is stored at most once and only after that; never both are present; the map holds at most 65 flows |
| SignIn.LoginsUseTheFlowsTokens | src/api/oauth.rs:332-350 | whoever signs in with a browser flow does so with the tokens that flow's own callback stored |
| SignIn.GoneIsGone | src/api/oauth.rs:638-642 | with unique flow ids a flow that was dropped, evicted or has expired never comes back |
| SignIn.OthersDoNotInterfere | src/api/oauth.rs:838-886 | a pending flow is changed by no event about another one, short of eviction |
| SignIn.NoLateLogin | src/api/oauth.rs:274-303 | once a flow is gone and no poll of it is under way, nobody signs in with it any more |
| OneLogin.SignsInTwiceExactlyWhenPollsOverlap | src/api/oauth.rs:278-360 | over every run, polls abandoned or still under way included, a flow has signed in more than once if and only if at some moment two polls of it were under way that both went on to complete the login |
| OneLogin.SerialPollsSignInOnce | src/api/oauth.rs:278-360 | polls of a flow that come one after the other complete at most one login |
| OneLogin.OverlappingPollsBothSignIn | src/api/oauth.rs:283-346 | in any state with a signed-in flow, two polls that read it before either acts both complete the login |
| SignIn.SessionMap.Insert | src/api/oauth.rs:625-636 | the new flow is there; a map of more than 64 flows drops sixteen first, whichever they are, any other drops none, and whoever is not dropped stays as it was; never more than 65 |
| SignIn.SessionMap.TakeBrowserCallback | src/api/oauth.rs:838-862 | the verifier and the provider of the flow are handed out exactly while it still holds the verifier and 900 seconds have not passed, and the verifier is then gone; a flow whose time is up is dropped; no other flow changes |
| SignIn.SessionMap.StoreBrowserOutcome | src/api/oauth.rs:870-886 | the outcome is stored exactly in a browser flow that holds neither verifier nor outcome; nothing else changes |
| SignIn.SessionMap.Drop | src/api/oauth.rs:638-642 | that flow is gone and every other flow is as it was |
| SignIn.PollShows | src/api/oauth.rs:274-360 | what an uninterrupted poll comes to, by kind of flow, age and outcome or answer: a flow whose time is up or that was refused is dropped without a login, one with tokens is dropped and signs in with them, any other stays; nothing else changes |
| TokenRedaction.TokensAreGone | src/tools/mod.rs:153-206 | the output holds no listed prefix, in any ASCII case, at any place |
| TokenRedaction.TokenRedactionIsIdempotent | src/tools/mod.rs:153-206 | redacting tokens twice is redacting them once |
| TokenRedaction.OnlyTokensAreRemoved | src/tools/mod.rs:177-206 | cut into pieces, the input is what was kept and what was removed, and the output what was kept with marks for the rest, in order |
| TokenRedaction.WholeTokensAreRemoved | src/tools/mod.rs:192-202 | every piece removed is a prefix and the token characters after it, as far as they go |
| TokenRedaction.RedactPrefixedTokens | src/tools/mod.rs:153-206 | afterwards none of the twenty prefixes occurs at any place in any ASCII case; the cursor loop, which looks for the leftmost of all prefixes each time, computes that redaction |
| TokenRedaction.TokenIsHiddenWhole | src/tools/mod.rs:153-206 | one of those prefixes and the letters, digits and `_-./+=` after it become one mark, and the rest of the line is redacted as if it stood alone |
| TokenRedaction.FindFirst | src/tools/mod.rs:181-188 | the leftmost occurrence of any prefix, and of several at one place the first listed |
| PathRedaction.PathsAreGone | src/tools/mod.rs:252-300 | no position of the output passes the path test |
| PathRedaction.PathRedactionIsIdempotent | src/tools/mod.rs:252-300 | hiding paths twice is hiding them once |
| PathRedaction.OnlyPathsAreRemoved | src/tools/mod.rs:275-299 | everything outside the paths removed survives, in order |
| PathRedaction.WholePathsAreRemoved | src/tools/mod.rs:276-292 | every piece removed is the start of a path and characters that do not end one, up to a character that does |
| PathRedaction.RedactAbsolutePaths | src/tools/mod.rs:252-300 | afterwards no drive path, and no network or Unix path at the start or after white space, a quote, an opening bracket or `=`, begins at any place; the loop over cursor and index computes that redaction |
| PathRedaction.Measure | src/tools/mod.rs:258-282 | the path test at a position, which looks back at the byte before it, is the test of the specification |
| KeyRedaction.KeyBodyLeavesNoTrace | src/tools/mod.rs:227-250 | the output does not depend on a private key's body: one mark stands for everything between its first and its last line |
| KeyRedaction.UnfinishedKeyHidesTheRest | src/tools/mod.rs:232-241 | a key without an end hides everything after its first line |
| KeyRedaction.RedactLines | src/tools/mod.rs:227-250 | the loop over lines and its flag compute that redaction |
| Activity.NoBatchTwice | src/activity.rs:507-535 | in a conversation whose requests each add a turn, no message is extracted by two requests |
| Activity.RepeatsExactlyWhen | src/activity.rs:511-535 | a later request repeats part of an earlier one's batch if and only if only further results of the same calls, or nothing, was added |
| Activity.BatchIsNewest | src/activity.rs:511-535 | no tool call and no turn follows the first message of the batch |
| Activity.BatchStartsExactlyAt | src/activity.rs:511-535 | a batch starts at a message if and only if no turn of the user or the assistant and no tool call follows it, and it calls a tool or, in a request without any call, is a last message that is a result |
| Activity.MessagesTell | src/activity.rs:486-590 | an action is extracted from some messages if and only if one of them has a named call, among its calls or its parts, or a result that is read as it |
| Activity.MessagesInOrder | src/activity.rs:486-590 | the actions of earlier messages come first |
| Activity.CallsBeforePartsBeforeResult | src/activity.rs:534-590 | within a message its calls come first, then the calls among its parts, then its result, each at most once |
| Activity.ExtractActions | src/activity.rs:486-590 | what is extracted is a prefix of the batch's actions in order, all of them or exactly 32 |

## Left out

- VaultSafety.AlwaysReadable: encryption is ideal. An envelope opens exactly under the key it was sealed with and with the associated data its version calls for, nonces are never reused, and a fingerprint is the envelope itself.
- VaultRecovery.WriteIsAllOrNothing: a read that fails is a failure of the step it belongs to; the steps between two writes are not told apart.
- VaultStore.Store.Save: the associated data, permissions, symbolic links, the lock file and the zeroing of keys are not modelled; holding the lock is.
- VaultEntries.KeyRing.AddKey: fields that only travel with an entry (account metadata) are left out.
- AtomicFile.Directory.AtomicWrite: the rename is one step; permissions, symbolic-link checks and the Windows replacement call are not modelled.
- ConfigFile.NoUpdateIsLost: the fingerprint is the contents. The shared snapshot that `set_utility_config` saves without the lock is not covered.
- Router.Router.MarkKeyFailed: the vault is not saved here, and a retry-after so large that the date overflows, where the program panics, is not modelled.
- Router.RotationIsFair: stated for a counter that does not wrap past its 64 bits.
- Router.Router.SelectKey: base address, wire format and the secret that come with a choice are left out, and so is the resolution of model names.
- FailoverGuarantees.RequestEnds: nobody else edits the vault during a request. Under other writers that keep adding keys there is no bound.
- ComingBack.NeverComesBackExactlyWhen: stated for keys whose budgets have room for the request while nothing is spent; a budget that refuses a key ends the request before it can come back. The provider has no key under the alias of a local server, which the program exempts.
- FailoverBudgets.RequestKeepsCaps: one request against what the others do; BudgetGate has many at once. Money is in exact reals where the program uses 64-bit floats. The configuration is fixed, dates never go back, and the upstream bills no more than was projected.
- BudgetGate.CapsHoldOverRuns: which key is chosen is left open, and so are the vault and the limit on concurrent requests. Requests have at least some number of bytes, which only matters for a provider's own caps, and the budgets do not change while requests are under way.
- ProviderCaps.ProviderCapsHoldExactlyWhen: stated for a provider that is switched on, and for requests that do not stream, as those of a capped provider cannot.
- Gateway.Gateway.Serve: stops after a given number of rounds, because a local server that keeps failing keeps the program's loop going without end.
- Gateway.Gateway.Proxy: the global rate limit, the limit on concurrent requests and the checks of the model name come before it. The scoped rate limit, token refresh and address checks are one refusal between the budget check and sending; addresses, headers and the translation of requests are left out.
- Gateway.Gateway.HandleReply: an answer that is streamed is charged when its stream ends, which never happens for a budgeted provider.
- RateBounds.BurstBound: stated for runs in which the count of the recent entries stays below 2^32, because the program's count wraps there; NeverWrapsWhen says when it does.
- RateExactness.ColdClockForgets: stated for times in order.
- RateBounds.DecidesLikeFullHistory: stated for a clock at least a minute past its origin.
- SseChunking.ChunkingDoesNotMatter: chunks are text cut at code points; the lossy decoding of bytes cut inside one is not modelled.
- ResponsesRelay.ClientGetsUpstreamDeltas: stated for a stream without transport errors or oversized events. JSON text is a parameter, a printer without line breaks and a parser that reads it back.
- StreamedReplies.LoopGivesChunks: stated for a text without CR CR LF that does not outgrow the buffer.
- StreamedReplies.AnthropicReplyStreams: stated for streams whose closing event is the last data line of its server-sent event, as the upstreams send it.
- StreamAgreement.AnthropicStreamAgrees: Gemini streams, whose events may carry several parts, are left out, as are ids, models and usage of the whole body.
- StreamedUsage.AnthropicUsage: stated for streams in which no event besides the reply's own carries usage. The input tokens that the upstream nests in its opening event are not found there by the program, so 0 prompt tokens are logged.
- StreamedUsage.ResponsesUsage: stated for streams in which no event besides the closing one carries usage.
- SignIn.OneVerifierOneOutcome: flow ids are unique, which the program gets from random ids.
- TokenRedaction.TokensAreGone: the redaction of bearer tokens and of likely assignments is left out; the first adds a bracket when run on its own output.
- KeyRedaction.RedactLines: what is done to lines outside keys is a parameter, and cutting text into lines and joining them is left out.
- Activity.ExtractActions: how one call or result becomes an action is a parameter.
- HTTP, sockets, scheduling, the credential store, SQL and its engine, the dashboard, the command line and the provider catalogue.
