# Verified models of the wallet's stateful controllers

This project models the protocols inside the wallet's controllers in Dafny and proves what they keep over arbitrary
runs: arbitrary orders of calls, timers, microtasks, settled promises, failed writes and clock ticks.

Every component is modelled twice. A `class` has the fields of the source's class and methods that follow the source's
statements; the code between two `await`s is one method. Each method's contract equates the new state with a function on
state values (`View() == StepFunction(old(View()), ...)`). An `Event` of a component is one such atomic step, `Step`
takes one and `Run` takes a sequence of them, so a lemma about `Run` is a statement about every interleaving. An event that
cannot happen in a state leaves it alone. Where the source keeps something only in the event loop (queued microtasks,
live timers, promises in flight), the model's state has a field for it.

| File | Component | Main results |
|---|---|---|
| `RecurringTimeouts.dfy` | the interval that never overlaps itself | the loop never dies and never doubles, exactly unless one misuse happens; nothing begins after a stop; disowned executions stay disowned |
| `Keystores.dfy`, `KeystoreVaults.dfy`, `KeystoreSeeds.dfy`, `KeystoreRuns.dfy` | main key, secrets, payloads, migration from AES-CTR to AES-GCM | every run that keeps its main key holds what a vault without cryptography holds, wherever the writes of a migration stop, and cannot be told from the vault's own run where its searches for added seeds end as meant; exactly when they do not, when a seed is misread, and when a first secret loses what is stored |
| `ThrottledEmitters.dfy` | throttled updates | no request is lost; delivery within a window; spacing; coalescing |
| `StatusLocks.dfy` | the `withStatus` lock | exclusive mode excludes whatever is thrown; with concurrent calls, accepting one at SUCCESS is the one way in which exclusion by name is lost |
| `DomainsPersisters.dfy` | coalesced persistence | idle storage is current; any number of requests during a write cost one more |
| `ReverseLookups.dfy` | reverse lookups of names | one lookup per address; success and failure windows; exactly when a known name survives |
| `ContractNames.dfy` | debounced batches of contract names | progress; a name is loading exactly while it is at one place; no early retry |
| `AutoLogin.dfy` | sign-in policies | whatever may be signed silently was consented to and not revoked; signing then checking, until the last consent ends |
| `ExternalOps.dfy`, `ExternalOpsRuns.dfy`, `ExternalOpsReads.dfy`, `ExternalOpsLosses.dfy` | external against internal operations | no duplicate external operations; exactly when those of a completed status update stay apart, left-over tasks and reads from storage included; exactly when a duplicate outlives an update |
| `SentToHistory.dfy` | the index of recipients | the fast answer is the scan of the whole history |
| `Hints.dfy` | learned assets | eviction of the oldest tokens, and exactly when of collectibles; what waits to be learned |
| `RecentDapps.dfy` | recently opened apps | the list is the first 20 of the reversed, deduplicated history |
| `HdPaths.dfy` | derivation paths | printing and parsing agree; indices determine the path |
| `Wrappers.dfy`, `Sequences.dfy` | absent values; list operations | filter, find, deduplicate and stable sort, with their laws |

## What the proofs found

Where a promised property is false of the code, the code is modelled as it is, a lemma shows the failure, and the exact
condition is proved:

- An interval started with `allowOverlap` but without `runImmediately` can get a second timer while an execution owns its
  promise; this is the only step that breaks the loop (`StepKeepsInvIff`), and a run from a new interval reaches it
  (`DoublingIsReached`). Callers that always pair the two options never see it (`DisciplinedRunsNeverDouble`).
- `getSavedSeed` reads the passphrase of a seed that is not migrated yet with the counter restarted, while it was
  encrypted with the counter running on; it is right exactly when the keystream repeats (`OldPassphraseMisread`,
  `SeedReadsAsMeantIff`). For any list of seeds, `SeedAppendedIff` and `OldSeedMissedIff` say exactly when adding a seed
  that is stored already stores it again, and `AddSeedAgreesIff` when adding one does what it is meant to. The migration
  reads it correctly (`MigratedReadsTrue`).
- Adding a secret to a locked keystore without secrets generates a new main key even if something is stored under the old
  one. `AddSecretKeepsIff` gives the exact condition; in every run from a fresh keystore it is a check before the call
  (`FreshRunOrphanedIff`), and `LastSecretLost` is such a run that loses a private key.
- A keystore that becomes ready adds both lists of waiting keys at once; the external keys are lost exactly when it is
  unlocked and lacks a waiting internal one (`WaitingExternalKeyStoredIff`).
- An old secret without a MAC rejects no password (`WrongSecretRejectedIff`).
- `withStatus` accepts a call while the previous one of that name still shows SUCCESS and does not check again after its
  wait, so with `allowConcurrentActions` two bodies of one name can run. This is the one way they can (`ExclusionLostIff`,
  `ConcurrentModeExcludes`), and a run reaches it (`TwoBodiesAreReached`). A body that throws a primitive makes the error
  handler itself throw and leaves the status at ERROR for good, but costs no exclusion (`PrimitiveWedges`,
  `WedgedForever`, `WedgedIsReached`).
- When the name service of highest priority answers, the names known of the services that failed beside it are erased and
  no failure is noted (`FailureOfOneServiceErases`, `NameOfOneServiceIsLost`); `NameSurvivesIff` is the exact condition.
- A reply that is JSON but no object leaves the names of its batch loading for ever (`ReplyClearsIff`,
  `LostNamesLoadForever`); a clock that is set back strands a request (`ClockSetBackStrands`).
- A status update in which one task throws leaves the duplicates of what its other tasks finalized, exactly then, and no
  later update looks at those again (`DuplicateOutlivesUpdateIff`, `FailedUpdateLeavesDuplicate`). Its other tasks run on and may still change the
  transaction id of what a later update finalizes (`LooseTaskIsReached`).
- The external operations are read back from storage whenever they are shown. A read in flight undoes a clean-up that ends
  before it (`StaleReadIsReached`). What an update finalized stays apart from the external operations exactly if no
  left-over task can change its id and no copy that shares an id with it can be read back (`FinalizedStaySeparateIff`).
- A revocation asked for while another one is in progress is refused (`RevocationTakesEffectIff`).
- Waiting tokens are looked up by their canonical address but stored as given: a text that is not canonical is stored
  again each time and is never removed (`AddingKeepsDistinctIff`, `LowerCaseIsStoredTwice`, `UncanonicalWaitsForever`).
- The comment on learned collectibles says the oldest go first; the code does not sort them, so the newest may go
  (`NftsMayForgetTheNewest`). `NftsEvictTheOldestIff` says exactly when the oldest do.
- With a clock that is set back the getter of recent apps reorders the list (`ClockSetBackReorders`).
- Levels of a path from 2^31 on collide with hardened ones (`LargeLevelsCollide`).

## Model

| member | source | states |
|---|---|---|
| RecurringTimeouts.RecurringTimeout.DoStop | src/classes/recurringTimeout/recurringTimeout.ts:95-100 | a stop opens a new session and clears running, the scheduled start, the promise and the live timer; a pending start's options survive |
| RecurringTimeouts.RecurringTimeout.DoRestart | src/classes/recurringTimeout/recurringTimeout.ts:102-107 | a restart opens a new session, resets, and queues a start of that session |
| RecurringTimeouts.RecurringTimeout.DoScheduleStart | src/classes/recurringTimeout/recurringTimeout.ts:133-148 | a start while running does nothing; several in one tick merge their options and queue one microtask |
| RecurringTimeouts.RecurringTimeout.DoReset | src/classes/recurringTimeout/recurringTimeout.ts:170-178 | the reset state, with the timer in `#timeoutId` cancelled |
| RecurringTimeouts.RecurringTimeout.StartMicrotask | src/classes/recurringTimeout/recurringTimeout.ts:145-167 | a microtask of an older session does nothing; one of the present session starts the loop as the merged options say |
| RecurringTimeouts.RecurringTimeout.Loop | src/classes/recurringTimeout/recurringTimeout.ts:109-115 | an execution is counted, `fn` makes its synchronous calls on the interval, and only then the promise is stored |
| RecurringTimeouts.RecurringTimeout.FinishLoop | src/classes/recurringTimeout/recurringTimeout.ts:116-130 | a settled execution reports its error if a promise is stored, and reschedules only while it is the latest |
| RecurringTimeouts.BeginLoopKeeps | src/classes/recurringTimeout/recurringTimeout.ts:109-131 | whatever starts, stops and restarts `fn` makes on its own interval, beginning an execution keeps the invariant |
| RecurringTimeouts.MicrotaskKeeps | src/classes/recurringTimeout/recurringTimeout.ts:145-167 | every start microtask but the doubling one keeps one driver of the loop |
| RecurringTimeouts.SettleKeeps | src/classes/recurringTimeout/recurringTimeout.ts:116-130 | settling hands the loop over from the execution to exactly one timer, or drops it when stopped |
| RecurringTimeouts.StepKeepsInvIff | src/classes/recurringTimeout/recurringTimeout.ts:145-167 | a step keeps the invariant if and only if it is not a start that finds a promise, allows overlap and does not run immediately; after that one two timers live |
| RecurringTimeouts.DoublingIsReached | src/classes/recurringTimeout/recurringTimeout.ts:95-167 | a run from a new interval reaches such a start, and then two timers: `fn` stops its interval, and while it still runs a start allows overlap without running immediately |
| RecurringTimeouts.LoopNeverDiesNorDoubles | src/classes/recurringTimeout/recurringTimeout.ts:95-178 | in every run without the doubling step: at most one timer, held in `#timeoutId` and only while running; running means exactly one of a timer or an owning latest execution; one microtask of the present session iff a start is scheduled, which excludes running; executions in flight began in different sessions |
| RecurringTimeouts.DisciplinedRunsNeverDouble | src/classes/recurringTimeout/recurringTimeout.ts:133-148 | callers, `fn` included, that pair `allowOverlap` with `runImmediately` never reach the doubling step |
| RecurringTimeouts.NoExecutionBeginsWhileStopped | src/classes/recurringTimeout/recurringTimeout.ts:95-100 | between a stop and the next start or restart no execution begins, whatever was queued or in flight |
| RecurringTimeouts.StopLeavesStopped | src/classes/recurringTimeout/recurringTimeout.ts:95-100 | a stop in any reachable state leaves no timer, no promise and no scheduled start |
| RecurringTimeouts.DisownedSettlesSilently | src/classes/recurringTimeout/recurringTimeout.ts:123-130 | an execution that does not own the promise changes nothing the loop depends on when it settles |
| RecurringTimeouts.DisownedForever | src/classes/recurringTimeout/recurringTimeout.ts:109-168 | once disowned, an execution never owns the promise again in any run |
| Keystores.XorIsLawful | src/libs/keystore/keystore.ts:121-171 | exclusive or, with which AES-CTR masks, satisfies the laws the keystore proofs assume of the mask |
| Keystores.CtrTwice | src/libs/keystore/keystore.ts:121-171 | AES-CTR decryption undoes encryption at any counter offset |
| Keystores.Keystore.UnlockWithSecret | src/controllers/keystore/keystore.ts:233-437 | each way an unlock ends, an unauthenticated old secret included, and the state after it: main key set, message cleared or set, secret and payloads migrated as far as the writes got |
| Keystores.Keystore.MigrateEverything | src/controllers/keystore/keystore.ts:485-510 | keys and seeds are re-encrypted one by one, those that fail stay as they are, and they are written only if something changed |
| Keystores.Keystore.PersistMigratedKeystoreData | src/controllers/keystore/keystore.ts:512-535 | secrets, keys and seeds are written in this order; memory and storage after any number of successful writes |
| Keystores.Keystore.AddSecretNow | src/controllers/keystore/keystore.ts:541-609 | duplicate and locked cases; else the secret wraps the main key, generated only if there is none, and waiting keys are added |
| Keystores.Keystore.RemoveSecretNow | src/controllers/keystore/keystore.ts:619-631 | the secret is removed from memory and storage, or reported missing |
| Keystores.Keystore.ChangeKeystorePassword | src/controllers/keystore/keystore.ts:1241-1272 | unlock with the old password, remove it, add the new one; each failing step ends the change there |
| Keystores.Keystore.AddInternalKeys | src/controllers/keystore/keystore.ts:917-975 | keys wait until the keystore is ready; then one of each private key, not yet stored, is encrypted and appended |
| Keystores.Keystore.StoreNewKeys | src/controllers/keystore/keystore.ts:935-975 | the keys not in the list as it was taken are encrypted and stored behind that list, whatever was stored since |
| Keystores.Keystore.AddKeysExternallyStored | src/controllers/keystore/keystore.ts:860-907 | external keys wait until the keystore is ready; then new ones are appended once |
| Keystores.Keystore.SetReady | src/controllers/keystore/keystore.ts:214-223 | becoming ready starts adding both lists of waiting keys; the internal addition took the list of keys before and stores it after the external one |
| Keystores.Keystore.RemoveStoredKey | src/controllers/keystore/keystore.ts:981-1006 | an unlocked keystore removes exactly the key of that address and type |
| Keystores.Keystore.FindStoredSeed | src/controllers/keystore/keystore.ts:439-452 | the first stored seed with that phrase and passphrase, or the first failure to read one |
| Keystores.Keystore.AddSeedNow | src/controllers/keystore/keystore.ts:725-767 | a valid phrase not stored yet is encrypted and appended |
| Keystores.Keystore.SavedSeedById | src/controllers/keystore/keystore.ts:1200-1239 | what reading a stored seed returns, old payload or new |
| Keystores.Keystore.PrivateKey | src/controllers/keystore/keystore.ts:1104-1115 | what reading a private key returns, old payload or new |
| Keystores.Keystore.constructor | src/controllers/keystore/keystore.ts:156-194 | a loaded keystore is locked and holds what storage holds |
| Keystores.Keystore.LockNow | src/controllers/keystore/keystore.ts:196-200 | locking forgets the main key and nothing else |
| Keystores.Keystore.DeleteStoredSeed | src/controllers/keystore/keystore.ts:835-842 | the seed of that id is removed |
| KeystoreVaults.MigrateKeysKeeps | src/libs/keystore/keystore.ts:230-321 | migrating stored keys, some of them failing, changes no private key |
| KeystoreVaults.MigrateSeedsKeeps | src/libs/keystore/keystore.ts:179-200 | migrating stored seeds, some of them failing, changes no entropy and no passphrase |
| KeystoreVaults.MigrateSecretsKeeps | src/controllers/keystore/keystore.ts:461-477 | migrating one secret leaves every secret wrapping the same main key |
| KeystoreVaults.MigrateAllKeeps | src/controllers/keystore/keystore.ts:485-535 | wherever the three writes of a migration stop, memory and storage still hold the same secrets, keys and seeds |
| KeystoreVaults.UnlockRefines | src/controllers/keystore/keystore.ts:233-332 | an unlock does to the keystore what it does to the vault, with the same outcome, in every mixture of formats |
| KeystoreVaults.AddSecretRefines | src/controllers/keystore/keystore.ts:541-609 | adding a secret, under the main key it leaves in force, does the same to both |
| KeystoreVaults.RemoveSecretRefines | src/controllers/keystore/keystore.ts:619-631 | removing a secret does the same to both |
| KeystoreVaults.ChangePasswordRefines | src/controllers/keystore/keystore.ts:1241-1272 | changing the password does the same to both |
| KeystoreVaults.AddKeysRefines | src/controllers/keystore/keystore.ts:917-975 | adding keys does the same to both |
| KeystoreVaults.AddExternalKeysRefines | src/controllers/keystore/keystore.ts:860-907 | adding external keys does the same to both |
| KeystoreVaults.RemoveKeyRefines | src/controllers/keystore/keystore.ts:981-1006 | removing a key does the same to both |
| KeystoreVaults.DeleteSeedRefines | src/controllers/keystore/keystore.ts:835-842 | deleting a seed does the same to both |
| KeystoreVaults.PrivateKeyAgrees | src/controllers/keystore/keystore.ts:1104-1115 | a private key reads as the vault holds it, migrated or not |
| KeystoreVaults.AddSeedKeeps | src/controllers/keystore/keystore.ts:725-767 | adding a seed to any matching keystore changes nothing or appends exactly that seed |
| KeystoreVaults.SeedReadsAsMeantIff | src/controllers/keystore/keystore.ts:1200-1239 | a stored seed reads as what it means if and only if it is migrated, no phrase, or an old phrase in the usual spelling whose passphrase, if any, sits where the keystream repeats |
| KeystoreVaults.SavedSeedAgreesIff | src/controllers/keystore/keystore.ts:1200-1239 | what is read for an id agrees with the vault if and only if the one entry read is of those kinds |
| KeystoreVaults.MigratedReadsTrue | src/libs/keystore/keystore.ts:179-200 | a seed whose migration does not fail reads as what it means |
| KeystoreRuns.StepRefinesIff | src/controllers/keystore/keystore.ts:233-1006 | a step leaves memory and storage holding what the vault holds, an added seed in both or in neither, if and only if it is not a first secret that orphans what is stored; it does what the vault does, outcome included, if and only if besides the searches for a seed it adds agree |
| KeystoreRuns.RunRefines | src/controllers/keystore/keystore.ts:233-1006 | in every run without an orphaning step, any mixture of unmigrated seeds included, all secrets unwrap to one main key, the key in memory is that key or none, and every payload keeps its meaning |
| KeystoreRuns.RunIsTheVaults | src/controllers/keystore/keystore.ts:233-1006 | where besides every search for an added seed ends as meant, what is held and all outcomes are those of the vault's own run |
| KeystoreRuns.EverySecretOpensEveryKey | src/controllers/keystore/keystore.ts:270-332 | after any such run, whichever secret is used next, it unlocks and every private key reads as the vault holds it |
| KeystoreRuns.EverySecretReadsEverySeed | src/controllers/keystore/keystore.ts:270-332 | after any such run, an unlock whose migration succeeds leaves every stored seed, with its passphrase, readable as the vault holds it, whatever earlier migrations left undone |
| KeystoreRuns.WrongSecretChangesNothing | src/controllers/keystore/keystore.ts:338-437 | a wrong secret changes nothing but the message shown |
| KeystoreRuns.WrongSecretRejectedIff | src/controllers/keystore/keystore.ts:338-437 | a wrong secret is rejected if and only if the stored one carries a MAC or a tag |
| KeystoreRuns.PasswordChanged | src/controllers/keystore/keystore.ts:1241-1272 | after a password change exactly the new password opens the keystore, to the same main key |
| KeystoreSeeds.OldPassphraseMisread | src/controllers/keystore/keystore.ts:1200-1239 | an unmigrated passphrase reads right if and only if the keystream repeats at its offset; migration gets it right |
| KeystoreSeeds.SeedAppendedIff | src/controllers/keystore/keystore.ts:725-767 | for every list of seeds, adding one appends it if and only if no entry is no phrase, is that seed and reads as what it means, or is mistaken for it |
| KeystoreSeeds.VaultSeedAppendedIff | src/controllers/keystore/keystore.ts:439-452 | as meant, a seed is appended if and only if it is not stored already and no entry is no phrase |
| KeystoreSeeds.OldSeedMissedIff | src/controllers/keystore/keystore.ts:439-452 | the search misses a stored unmigrated seed if and only if the keystream does not repeat at its passphrase |
| KeystoreSeeds.AddSeedEnds | src/controllers/keystore/keystore.ts:725-767 | adding a seed appends it, passes over it or reports an entry that is no phrase, as the first entry its search finds says |
| KeystoreSeeds.VaultAddSeedEnds | src/controllers/keystore/keystore.ts:725-767 | and as it is meant to: by the first entry that is that seed or no phrase |
| KeystoreSeeds.AddSeedAgreesIff | src/controllers/keystore/keystore.ts:725-767 | adding a seed has the effect and the outcome that are meant if and only if the search as it is and as it is meant first find the same kind of entry, or both none |
| KeystoreSeeds.SearchesOfTrueSeedsAgree | src/controllers/keystore/keystore.ts:439-452 | which is so where every stored seed reads as what it means |
| KeystoreRuns.AddSecretKeepsIff | src/controllers/keystore/keystore.ts:541-609 | for every matching keystore, adding a secret keeps what is stored, under the main key then in force, if and only if it does not orphan it |
| KeystoreRuns.OrphanedIff | src/controllers/keystore/keystore.ts:541-609 | a keystore with an identity or a migrated payload is orphaned if and only if it is locked, has no secrets, and the generated main key differs |
| KeystoreRuns.FreshRunOrphanedIff | src/controllers/keystore/keystore.ts:541-609 | in every run from a fresh keystore, what is stored is orphaned if and only if the keystore is locked, has no secrets, and its identity is not the generated main key |
| KeystoreRuns.OldKeyMovesIff | src/controllers/keystore/keystore.ts:541-609 | an unmigrated private key is lost under another main key if and only if the two keystreams differ on it |
| KeystoreRuns.LastSecretLost | src/controllers/keystore/keystore.ts:541-631 | a run from a fresh keystore: a secret, a key, the removal of the secret, a lock and a new secret leave the key unreadable |
| KeystoreRuns.WaitingExternalKeyStoredIff | src/controllers/keystore/keystore.ts:214-223 | a waiting external key is stored when the keystore becomes ready if and only if it is locked or has every waiting internal key already |
| ThrottledEmitters.EventEmitter.EmitThrottled | src/controllers/eventEmitter/eventEmitter.ts:143-162 | immediate, leading and deferred emission |
| ThrottledEmitters.EventEmitter.WindowCallback | src/controllers/eventEmitter/eventEmitter.ts:119-131 | the end of a window emits and opens the next one, or closes |
| ThrottledEmitters.EventEmitter.BeginForceEmit | src/controllers/eventEmitter/eventEmitter.ts:94-99 | a forced update clears the window and waits one millisecond |
| ThrottledEmitters.EventEmitter.EndForceEmit | src/controllers/eventEmitter/eventEmitter.ts:101-103 | and then emits with the force flag |
| ThrottledEmitters.EventEmitter.Propagate | src/controllers/eventEmitter/eventEmitter.ts:190-194 | a propagated update clears the window and emits in the same tick |
| ThrottledEmitters.RunLosesNothing | src/controllers/eventEmitter/eventEmitter.ts:94-162 | in every run an undelivered request has a live window with a trailing update, or a forced emission on its way |
| ThrottledEmitters.EveryRequestIsDeliveredInTime | src/controllers/eventEmitter/eventEmitter.ts:119-162 | with punctual timers no emission comes later than one window (and a millisecond if forced updates mix in) after a request it delivers, and none stays pending longer |
| ThrottledEmitters.ThrottledEmissionsAreSpaced | src/controllers/eventEmitter/eventEmitter.ts:119-162 | in throttled-only runs with one interval consecutive emissions are at least that far apart, however late the timers |
| ThrottledEmitters.WindowCoalesces | src/controllers/eventEmitter/eventEmitter.ts:119-162 | any number of throttled requests in an open window cause exactly one emission at its end; none cause none |
| StatusLocks.Controller.WithStatus | src/controllers/eventEmitter/eventEmitter.ts:225-266 | which calls are refused, which wait at SUCCESS and which begin loading |
| StatusLocks.Controller.AfterBody | src/controllers/eventEmitter/eventEmitter.ts:269-289 | each way the wrapped function ends, and the status it leaves |
| StatusLocks.StepKeepsOnePerNameIff | src/controllers/eventEmitter/eventEmitter.ts:225-293 | exclusion by name survives a step, thrown primitives included, if and only if it accepts no call at SUCCESS |
| StatusLocks.AcceptingAtSuccessAllowsTwoBodies | src/controllers/eventEmitter/eventEmitter.ts:262-270 | after a call accepted at SUCCESS two bodies of that name can be in flight |
| StatusLocks.TwoBodiesAreReached | src/controllers/eventEmitter/eventEmitter.ts:225-293 | a run of three concurrent calls of one name ends with two bodies in flight |
| StatusLocks.ConcurrentModeExcludes | src/controllers/eventEmitter/eventEmitter.ts:225-293 | in every run that accepts no call at SUCCESS, concurrent calls and thrown primitives included, no two bodies of one name are in flight |
| StatusLocks.ExclusionLostIff | src/controllers/eventEmitter/eventEmitter.ts:225-293 | in a run without such an acceptance so far, a step accepts a call at SUCCESS if and only if from then on, without another one, two bodies of one name can be in flight |
| StatusLocks.RunKeepsExclusive | src/controllers/eventEmitter/eventEmitter.ts:225-293 | in exclusive mode every run, thrown primitives included, keeps one holder and a record of walks |
| StatusLocks.ExclusiveModeExcludes | src/controllers/eventEmitter/eventEmitter.ts:225-293 | in exclusive mode, whatever the bodies throw, at most one body is in flight, at most one status is not INITIAL, and calls walk LOADING, SUCCESS or ERROR, INITIAL one after the other |
| StatusLocks.PrimitiveWedges | src/controllers/eventEmitter/eventEmitter.ts:274-289 | a primitive thrown by the body leaves its status at ERROR with no call to set it back |
| StatusLocks.WedgedForever | src/controllers/eventEmitter/eventEmitter.ts:237-260 | and from then on every exclusive call is refused, in every run |
| StatusLocks.WedgedIsReached | src/controllers/eventEmitter/eventEmitter.ts:237-289 | a run of one exclusive call whose body throws a primitive ends so |
| DomainsPersisters.Persister.PersistDomains | src/controllers/domains/domains.ts:235-244 | a request during a write is remembered, else a write of the present state starts |
| DomainsPersisters.Persister.AfterWrite | src/controllers/domains/domains.ts:245-255 | the end of a write, failed or not, starts the remembered one |
| DomainsPersisters.IdleStorageIsCurrent | src/controllers/domains/domains.ts:235-255 | in every run at most one write is in flight, and idle storage after a success is no older than the last request |
| DomainsPersisters.RequestsCoalesce | src/controllers/domains/domains.ts:235-255 | any number of requests during a write cost exactly one further write, of the state at its end; none cost none |
| ReverseLookups.DomainsController.BatchReverseLookup | src/controllers/domains/domains.ts:311-343 | a batch starts one lookup for what needs one and waits for all in flight for its addresses |
| ReverseLookups.DomainsController.ReverseLookup | src/controllers/domains/domains.ts:475-502 | a single lookup joins the one in flight, respects the privacy mode, and else starts one |
| ReverseLookups.DomainsController.NeedLookup | src/controllers/domains/domains.ts:529-547 | the addresses past their time to live that are neither loading nor promised |
| ReverseLookups.DomainsController.FinishLookup | src/controllers/domains/domains.ts:562-673 | the cache after the replies of the services were merged and entered address by address, and the addresses loading no more |
| ReverseLookups.DomainsController.MergeReplies | src/controllers/domains/domains.ts:584-617 | an address fails if the service of highest priority fails or says nothing; else every service has its name recorded, null for those that failed |
| ReverseLookups.DomainsController.SetLookupFailure | src/controllers/domains/domains.ts:549-557 | a failure marks the entry of an address resolved once and replaces any other |
| ReverseLookups.DomainsController.SaveResolvedDomain | src/controllers/domains/domains.ts:441-473 | a name resolved forwards joins the names of its address |
| ReverseLookups.RunKeepsInv | src/controllers/domains/domains.ts:311-673 | every run keeps promises, batches, loading addresses and cache in step |
| ReverseLookups.OneLookupPerAddress | src/controllers/domains/domains.ts:311-343 | in every run no address is in two lookups, and the loading addresses are without duplicates and exactly those of the unfinished batches |
| ReverseLookups.NoLookupStartsInsideItsWindow | src/controllers/domains/domains.ts:520-547 | in every run no lookup starts within 15 minutes of the address's last success or 5 of its last failure |
| ReverseLookups.NamesAfterArrival | src/controllers/domains/domains.ts:549-664 | where the service of highest priority failed the names are kept and the failure is noted, elsewhere exactly what the services recorded replaces them, and no other address is touched |
| ReverseLookups.NameSurvivesIff | src/controllers/domains/domains.ts:584-657 | a known name of a service survives an arrival if and only if the address was not asked for, its lookup failed as a whole, or that service answered the same name |
| ReverseLookups.FailureOfOneServiceErases | src/controllers/domains/domains.ts:609-657 | a service that fails beside one of higher priority that answers loses its name, and no retry follows for 15 minutes |
| ReverseLookups.NameOfOneServiceIsLost | src/controllers/domains/domains.ts:311-657 | a run reaches such a loss |
| ReverseLookups.NobodyReturnsEarly | src/controllers/domains/domains.ts:311-343 | a batch request leaves each of its stale addresses in a lookup its caller can wait for |
| ContractNames.ContractNamesController.AskForName | src/controllers/contractNames/contractNames.ts:188-224 | a request is skipped or marked loading, queued, and scheduled if the last scheduling is old enough |
| ContractNames.ContractNamesController.ShouldSkipGetName | src/controllers/contractNames/contractNames.ts:171-186 | known, loading, pending and recently failed names are not asked for |
| ContractNames.ContractNamesController.BeginBatch | src/controllers/contractNames/contractNames.ts:89-97 | a fired timer moves everything pending into one batch |
| ContractNames.ContractNamesController.FinishBatch | src/controllers/contractNames/contractNames.ts:99-169 | the entries after each kind of reply |
| ContractNames.EveryRunMakesProgress | src/controllers/contractNames/contractNames.ts:89-224 | in every run what is pending has a timer due within the debounce time, and a name is loading exactly while one request for it is at one place |
| ContractNames.AskMakesProgressIff | src/controllers/contractNames/contractNames.ts:198-223 | a request leaves the pending list with a timer if and only if it was skipped, a timer lives, or the last scheduling is at least the debounce time old |
| ContractNames.ClockSetBackStrands | src/controllers/contractNames/contractNames.ts:208-211 | a clock that is set back strands a request |
| ContractNames.ReplyClearsIff | src/controllers/contractNames/contractNames.ts:99-169 | a reply ends the loading of its whole batch if and only if it is not JSON other than an object |
| ContractNames.LostNamesLoadForever | src/controllers/contractNames/contractNames.ts:128-186 | the names of a batch with such a reply stay loading in every run |
| ContractNames.NothingLoadsWhenIdle | src/controllers/contractNames/contractNames.ts:89-224 | with nothing pending and no batch out no name is loading |
| ContractNames.FoundNamesStay | src/controllers/contractNames/contractNames.ts:145-186 | a name that was found is never overwritten, in any run |
| ContractNames.NoRetryInsideItsWindow | src/controllers/contractNames/contractNames.ts:106-186 | no run asks again within two minutes of a failed request or an hour of an answer without the name |
| ContractNames.FetchesAreSpaced | src/controllers/contractNames/contractNames.ts:208-215 | in every run live timers are due at least the debounce time apart |
| AutoLogin.AutoLoginController.OnSiweMessageSigned | src/controllers/autoLogin/autoLogin.ts:374-396 | without consent nothing changes; with it the returned policy is stored and allows the message |
| AutoLogin.AutoLoginController.CreateOrUpdatePolicyFromSiwe | src/controllers/autoLogin/autoLogin.ts:239-292 | the first covering policy is updated, or a new one is appended |
| AutoLogin.AutoLoginController.Ask | src/controllers/autoLogin/autoLogin.ts:340-372 | a revocation is accepted if none is in progress, and refused else |
| AutoLogin.AutoLoginController.RunRevocation | src/controllers/autoLogin/autoLogin.ts:343-371 | the body of the accepted revocation |
| AutoLogin.AutoLoginController.RevokeOne | src/controllers/autoLogin/autoLogin.ts:343-351 | the policies of that domain and prefix leave the account's list |
| AutoLogin.AutoLoginController.RevokeAllPoliciesForDomain | src/controllers/autoLogin/autoLogin.ts:359-369 | and the list of every account |
| AutoLogin.RunKeepsCover | src/controllers/autoLogin/autoLogin.ts:239-372 | in every run no earlier policy's prefix covers a later one of the same domain |
| AutoLogin.RevocationRemovesAtMostOne | src/controllers/autoLogin/autoLogin.ts:340-354 | after any run a revocation removes at most one policy, exactly the one it names |
| AutoLogin.RevocationTakesEffectIff | src/controllers/autoLogin/autoLogin.ts:340-372 | a revocation asked for removes its policy if and only if none was in progress, or the one accepted before concerns the policy as well |
| AutoLogin.RunKeepsSources | src/controllers/autoLogin/autoLogin.ts:239-372 | in every run each chain, resource and expiry of a policy was granted by a consented message below its prefix, not revoked since |
| AutoLogin.ActiveWasAuthorized | src/controllers/autoLogin/autoLogin.ts:294-338 | in every run a message that may be signed silently has its chain and all its resources from consented messages of its account and domain below one prefix not revoked since, within a granted time |
| AutoLogin.RevokedIsNotAuthorized | src/controllers/autoLogin/autoLogin.ts:340-354 | right after a revocation nothing is granted through that prefix |
| AutoLogin.PoliciesOnlyGrow | src/controllers/autoLogin/autoLogin.ts:274-289 | in every run a policy's chains and resources are only added to until it is revoked |
| AutoLogin.RecordAnswers | src/controllers/autoLogin/autoLogin.ts:239-292 | after a consent the first covering policy is the one made or updated, and it allows the message |
| AutoLogin.StatusOfAnswered | src/controllers/autoLogin/autoLogin.ts:294-338 | the status of such a message for every kind of account |
| AutoLogin.SignedIsValidUntilExpiry | src/controllers/autoLogin/autoLogin.ts:239-338 | until its policy is revoked, a consented message is known, and valid exactly until the time agreed in the last consent recorded in that policy is over, whatever else is signed or revoked |
| ExternalOps.ActivityController.Add | src/controllers/activity/activity.ts:714-725 | a new operation goes first and the list is trimmed |
| ExternalOps.ActivityController.HasExistingAccountOpWithTxnId | src/controllers/activity/activity.ts:809-825 | whether a stored operation of the account and chain, internal or external, has the id |
| ExternalOps.ActivityController.BeginNext | src/controllers/activity/activity.ts:770-827 | queued requests are taken one at a time and dropped if the id is known |
| ExternalOps.ActivityController.Finish | src/controllers/activity/activity.ts:905-917 | the check is made again before the operation is stored first, the list trimmed and a write queued |
| ExternalOps.ActivityController.RemoveExternalAccountOpsMatchingInternalOps | src/controllers/activity/activity.ts:622-656 | the lists after the clean-up for each finalized operation, and a write if it removed something |
| ExternalOps.ActivityController.Complete | src/controllers/activity/activity.ts:1431-1437 | an update all of whose tasks have ended cleans up after the operations it finalized |
| ExternalOps.ActivityController.StartWrite | src/controllers/storage/storage.ts:444-454 | a write waits for those before it, and refers to the copy in memory |
| ExternalOps.ActivityController.FilterAccountsOps | src/controllers/activity/activity.ts:455-466 | a read waits for the writes queued before it |
| ExternalOps.ActivityController.TakeAnswer | src/controllers/activity/activity.ts:462-465 | what was read replaces what is in memory |
| ExternalOps.CleanedAllAt | src/controllers/activity/activity.ts:622-656 | the clean-up keeps exactly the external operations that share no id with a finalized one of their key |
| ExternalOps.RunKeepsInv | src/controllers/activity/activity.ts:455-1437 | every run, failed updates and the tasks they leave, reads and writes included, keeps every copy of the external operations free of duplicates, and one update that has not failed for an account |
| ExternalOpsRuns.ExternalsAreDistinct | src/controllers/activity/activity.ts:809-914 | under any interleaving no two external operations of an account and chain share a normalized transaction id |
| ExternalOpsReads.EndStaysSeparateIff | src/controllers/activity/activity.ts:462-656 | for every state that satisfies the invariant, what an update finalized and is stored stays apart in every later run, with or without failing writes, if and only if no task of another update can still change its id and no copy that shares an id with it can be read back |
| ExternalOpsReads.FinalizedStaySeparateIff | src/controllers/activity/activity.ts:462-656 | once an update completes no external operation shares an id with a stored one it finalized, and this holds in every run after it, with or without failing writes, if and only if no task of another update can still change that id and no copy that shares an id with it can be read back |
| ExternalOpsReads.StaysSettled | src/controllers/activity/activity.ts:455-1437 | what is finalized, apart, out of reach of tasks and of every copy that can be read back stays so in every run |
| ExternalOpsReads.ComesBackInSomeRun | src/controllers/activity/activity.ts:462-465 | a copy that can be read back is, in some run |
| ExternalOpsReads.CleanedUpForGood | src/controllers/activity/activity.ts:462-656 | with no read in flight and writes that succeed, a clean-up that removed something cannot be undone by a read |
| ExternalOpsReads.LooseTasksAreLeftOver | src/controllers/activity/activity.ts:1202-1437 | such a task belongs to an update that failed |
| ExternalOpsLosses.LooseTaskIsReached | src/controllers/activity/activity.ts:1202-1295 | a run of two operations and two updates reaches such a task |
| ExternalOpsRuns.CleanupRemovesOnlyDuplicates | src/controllers/activity/activity.ts:622-656 | an external operation is removed if and only if it shares an id with an operation the update finalized |
| ExternalOpsRuns.RequestedIsRecorded | src/controllers/activity/activity.ts:905-914 | a request that ends with the network known leaves its id in the records, and stores nothing if it was there |
| ExternalOpsLosses.DuplicateOutlivesUpdateIff | src/controllers/activity/activity.ts:1202-1437 | a duplicate of an operation an update finalized outlives the update if and only if the update ends by a task that throws, and then no update ever looks at the operation again |
| ExternalOpsLosses.AbandonedForever | src/controllers/activity/activity.ts:1136-1437 | what a failed update had finalized is never looked at again, in any run, so no clean-up removes its duplicate |
| ExternalOpsLosses.FailedUpdateLeavesDuplicate | src/controllers/activity/activity.ts:1136-1437 | a run of two operations, one of which cannot be looked up, leaves a finalized operation and an external one with the same id |
| ExternalOpsLosses.ReadOutlivesCleanUp | src/controllers/activity/activity.ts:462-656 | what a read has when an update completes the clean-up does not reach, and the read puts it back |
| ExternalOpsLosses.StaleReadIsReached | src/controllers/activity/activity.ts:462-1437 | a run of one operation, none of whose tasks throws, reaches that |
| SentToHistory.ActivityController.AddAccountOp | src/controllers/activity/activity.ts:714-730 | the list and the index after an operation was added |
| SentToHistory.ActivityController.RecordRecipient | src/controllers/activity/activity.ts:738-751 | an index entry is the later of what it was and the new time |
| SentToHistory.ActivityController.HasAccountOpsSentTo | src/controllers/activity/activity.ts:365-454 | the answer is that of the index, or the summary of the times a scan of the stored operations meets |
| SentToHistory.ListsHoldTheNewest | src/controllers/activity/activity.ts:102-108 | each list is the newest 1000 of all operations added for its account and chain |
| SentToHistory.IndexIsTheLatest | src/controllers/activity/activity.ts:738-751 | an index entry is the maximum time of all operations ever added that sent to the recipient |
| SentToHistory.AnswersScanTheHistory | src/controllers/activity/activity.ts:365-454 | for every history the date of an answer is that of a scan over everything ever added, and when the recipient counts as found |
| SentToHistory.FastAnswerIsFullScan | src/controllers/activity/activity.ts:377-389 | with real times the answer is exactly the scan over the whole history |
| SentToHistory.FastAnswerIsStoredScan | src/controllers/activity/activity.ts:377-389 | while nothing was trimmed it is exactly the scan over the stored operations |
| SentToHistory.NeverForgets | src/controllers/activity/activity.ts:714-751 | a recipient found once stays found whatever is added and trimmed, and its date never goes back |
| Hints.HintsController.AddTokensToBeLearned | src/controllers/hintsController/hintsController.ts:301-350 | which texts are accepted, and that they are stored as given before the others |
| Hints.HintsController.DoLearnTokens | src/controllers/hintsController/hintsController.ts:553-611 | the learned and the waiting tokens after learning |
| Hints.HintsController.DoLearnNfts | src/controllers/hintsController/hintsController.ts:624-665 | the learned collectibles after learning |
| Hints.TokensAreStamped | src/controllers/hintsController/hintsController.ts:566-577 | every owned token but the zero address is stamped with the present and kept, and no other time changes |
| Hints.TokensEvictTheOldest | src/controllers/hintsController/hintsController.ts:579-606 | of the tokens no longer owned exactly as many as allowed stay, and none that goes is newer than one that stays |
| Hints.NftsKeepTheBound | src/controllers/hintsController/hintsController.ts:647-660 | of the collectibles no longer owned exactly as many as allowed stay |
| Hints.KeptNfts | src/controllers/hintsController/hintsController.ts:636-660 | every owned collectible stays, and of the others the first 20 in the order of insertion |
| Hints.NftsEvictTheOldestIff | src/controllers/hintsController/hintsController.ts:647-660 | no collectible that goes is newer than one that stays if and only if, of those no longer owned, each of the first 20 in the order of insertion is at least as new as every later one |
| Hints.NftsMayForgetTheNewest | src/controllers/hintsController/hintsController.ts:647-660 | with 21 collectibles of one collection and a further one owned, the one seen last goes and the one not seen for longest stays |
| Hints.WaitingAfter | src/controllers/hintsController/hintsController.ts:301-350 | after any step a text waits if and only if it waited and was neither learned nor in error, or was just accepted |
| Hints.WaitsUntilLearnedOrErrored | src/controllers/hintsController/hintsController.ts:458-483 | in every run a waiting token leaves only by being learned or reported in error |
| Hints.UncanonicalWaitsForever | src/controllers/hintsController/hintsController.ts:312-346 | a waiting text that is not canonical never leaves |
| Hints.AddingKeepsDistinctIff | src/controllers/hintsController/hintsController.ts:309-346 | adding makes a duplicate if and only if an accepted text waits already, and such a text is not canonical |
| Hints.CanonicalRunsHaveNoDuplicates | src/controllers/hintsController/hintsController.ts:301-350 | runs that add canonical addresses have no duplicates |
| Hints.LowerCaseIsStoredTwice | src/controllers/hintsController/hintsController.ts:309-346 | a lower-case address added twice is stored twice |
| RecentDapps.DappsController.AddToRecentDapps | src/controllers/dapps/dapps.ts:1116-1129 | an app of the catalog moves to the front of at most 20; others are ignored |
| RecentDapps.DappsController.ClearRecentDapps | src/controllers/dapps/dapps.ts:1131-1139 | the list is emptied |
| RecentDapps.OpeningMovesToFront | src/controllers/dapps/dapps.ts:1122-1125 | filtering, prepending and cutting keep the list the first 20 of the deduplicated reversed history |
| RecentDapps.ListIsLastOpened | src/controllers/dapps/dapps.ts:1116-1139 | in every run the list is the first 20 distinct apps of the history since the last clearing, read backwards |
| RecentDapps.GetterShowsLastOpened | src/controllers/dapps/dapps.ts:249-257 | with a clock that is not set back the getter's sort is the identity: it shows that list without apps that left the catalog |
| RecentDapps.ClockSetBackReorders | src/controllers/dapps/dapps.ts:249-257 | with one that is, the getter shows the app opened earlier first |
| HdPaths.GetHDPathIndices | src/utils/hdPath.ts:14-43 | the loop computes one index a component, appends the index if no placeholder was met, and refuses more than 5 |
| HdPaths.NumberOfDecimal | src/utils/hdPath.ts:3-5 | the decimal text of a number is read back as that number |
| HdPaths.ParseOfPrint | src/utils/hdPath.ts:15-36 | parsing the text of a path gives its indices |
| HdPaths.TemplateText | src/utils/hdPath.ts:3-5 | the text made from a template is that of the path with the index in the placeholder's place |
| HdPaths.ParentIsThePathAbove | src/utils/hdPath.ts:7-9 | the parent of a template is the path above its placeholder |
| HdPaths.IndicesAreThoseOfTheText | src/utils/hdPath.ts:3-43 | for every template with one placeholder and every index, the indices equal the parse of the text made from it, and are refused exactly beyond 5 |
| HdPaths.IndexIsAppended | src/utils/hdPath.ts:37-41 | without a placeholder the index is one more level below the path |
| HdPaths.TemplatesAreInjective | src/utils/hdPath.ts:14-43 | different accounts of a template have different indices |
| HdPaths.IndicesDetermineThePath | src/utils/hdPath.ts:13-36 | for levels below 2^31 two path texts parse to the same indices if and only if the paths are the same |
| HdPaths.LargeLevelsCollide | src/utils/hdPath.ts:13-20 | beyond 2^31 a normal level has the index of a hardened one |
| HdPaths.StandardIsWellFormed | src/consts/derivation.ts:6-6 | the standard template is the text of five levels with one placeholder |
| HdPaths.LedgerIsWellFormed | src/consts/derivation.ts:12-12 | the Ledger template is the text of five levels with one hardened placeholder |
| HdPaths.LegacyIsWellFormed | src/consts/derivation.ts:20-20 | the legacy template is the text of four levels with one placeholder |
| HdPaths.TestnetIsWellFormed | src/consts/derivation.ts:28-28 | the testnet template is the text of five levels with one placeholder |

## Left out

- RecurringTimeouts.LoopNeverDiesNorDoubles: assumes that `fn` returns a promise and does not throw synchronously, and that listeners of reported errors do not call the interval.
- KeystoreRuns.RunRefines: each public operation is one step, except that a migration may stop after any of its writes; two runs of adding keys that overlap (other than the two started when the keystore becomes ready), and a crash inside a password change between removing the old secret and adding the new one, are not modelled.
- KeystoreVaults.UnlockRefines: AES-GCM and the MAC of old secrets are authenticated terms, and keys derived from different secrets differ; a stored secret without a MAC is an unlock of its own in the model but does not occur in a keystore that matches a vault. Tampered data and third-party storage changes are not modelled.
- ThrottledEmitters.RunLosesNothing: listeners do not re-enter the emitter or throw, and `destroy` and subscriptions are not modelled.
- StatusLocks.ExclusiveModeExcludes: statuses are changed by `withStatus` only.
- ReverseLookups.NoLookupStartsInsideItsWindow: the clock is not set back; how each name service ends is a parameter of the arrival, and which services are active is a parameter of the request. Runs begin when the stored domains have been loaded: `init` replaces the cache after it has read them, so a lookup that ends before that is forgotten.
- ContractNames.EveryRunMakesProgress: the clock starts no earlier than the debounce time after zero and is not set back, the case `ClockSetBackStrands` shows.
- AutoLogin.ActiveWasAuthorized: begins with no stored policies; text parsing of messages, the comparison of the request's origin with the domain, and the signing itself are not part of this model. Statuses stand for the awaits of a revocation, and a failed write of one is not told from a successful one.
- ExternalOpsReads.FinalizedStaySeparateIff: a task of an update is its effects on transaction ids and statuses, and may throw until it has its transaction id; which effects the network and the relayer cause is a parameter. Runs begin with empty storage, but `EndStaysSeparateIff` is the same for every state that satisfies the invariant; writes under other keys of storage, which only delay, are left out, and so are removed external data.
- SentToHistory.FastAnswerIsFullScan: begins with an empty history, so not with lists stored by a version that had no index.
- HdPaths.IndicesAreThoseOfTheText: numbers are decimal digits; other spellings the source's number parser takes (hexadecimal, exponents, spaces) do not occur in its templates.
- Labels, metadata and backup flags of keys and seeds, the temporary seed, export and import of keys, and the transfer of a key between two keystores.
- Avatars, expiry, forward resolution and verification of domain names, and the map from names to addresses.
- The filter that hides unhelpful contract names when they are shown.
- The record of domains sent to, and the search for look-alike addresses among recipients.
- Collectibles waiting to be learned, hints gathered from other sources, custom tokens and preferences themselves.
- The catalog of apps, its refresh, permissions and connections.
- Network, storage back ends, hardware devices and the user interface, which appear only as events that succeed, fail or are delayed.
- Balance changes, pagination, filters and signed messages of the activity controller.
- The other controllers: accounts, portfolio, requests, email vault, swap and bridge, gas estimation.
