# Verified model of the durable-orchestration kernel

This project models the parts of the system that carry its guarantees across many
calls, writers and crashes, and proves those guarantees for every input and every
run:

- **Step graphs** (`StepGraph`): Kahn's algorithm, once to accept a step list and once
  to schedule it.
- **Canonical serialization and checksums** (`JsValues`, `CanonicalJson`, `JsonParser`,
  `CanonicalText`, `VersionChecksum`): the stable JSON printer and its exact text, a ghost parser (strings as in section 7 of
  RFC 8259), and the version checksum over a save and a load.
- **Trigger dispatch** (`Glob`, `DispatchLedger`, `DispatchService`, `DispatchRedelivery`,
  `DispatchRetries`, `DispatchOutcomes`, `DispatchProtocol`, `DispatchRefinement`,
  `DispatchLease`): the resource matcher, the
  dispatch ledger with its redrive lease, the service that drives it, redelivery after an
  interruption, the retry bound, what each answer of the sink leads to, concurrent crashing
  drivers that refine the service, and what the lease does not fence.
- **Billing** (`Billing`, `BillingConfluence`, `BillingSettlements`, `BillingStore`): the
  append-only ledger, settlement, versioned pricing, and what rows and balances they leave.
- **Runs** (`RunRecords`, `AutomationStore`, `EventLog`, `EventProjection`, `DeliveryProvider`,
  `Orchestration`, `OrchestrationSafety`, `OrchestrationLaws`, `OrchestrationStages`,
  `OrchestrationProgress`, `OrchestrationRecovery`, `OrchestrationReconcile`,
  `OrchestrationApprovers`, `OrchestrationEndings`): fenced records, the in-memory store
  with its secondary indexes, the event log with its readers, the orchestration of one run
  by any number of workers, and which runs survive a crash.
- **Admission and sanitizing** (`Admission`, `AdmissionProtocol`, `AdmissionCapacity`,
  `AdmissionResults`, `Sanitizer`, `SanitizerPatterns`).

How the model is set up:

- Code that updates objects or loops over variables is a class or a method, proved
  against a function of the old state; the laws are then lemmas about those functions.
- Protocols are state machines. Each call to a store, dispatcher, sink, provider, quota
  store or runner is one atomic step; between two steps of one worker any other worker,
  job, operator or crash may act. Laws quantify over all action sequences.
- SQL tables are maps or sequences, a UNIQUE column is the absence of the key, and an
  `atomic` block is one step. Random ids are parameters (fresh where the source draws a
  random one), clocks are `now` parameters, SHA-256 is a function parameter that is
  injective only where a law says so.
- A thrown error ends the operation: the worker becomes idle (or the method returns a
  failure value) and the state is as the last committed write left it.

Where the code and its own comments disagree, the model follows the code, shows an input
and says exactly when the promise is kept:

- `executionOrder` does not keep the declaration order of independent steps
  (`StepGraph.DeclarationOrderIsNotKept`). A step stands before another exactly when it
  becomes ready earlier, or together and is declared earlier
  (`StepGraph.ScheduledBefore`); the schedule is the declared order exactly when the
  declaration already becomes ready in order (`StepGraph.DeclarationOrderIsKeptExactlyWhen`).
- `globMatch` is not anchored for two or more stars, and for one star the prefix and the
  suffix may overlap (`Glob.OverlapIsAccepted`, `Glob.UnanchoredWitness`);
  `Glob.ExactWithOneStar` and `Glob.ExactWithManyStars` say exactly when it is right.
- A version whose content holds an undefined array slot no longer verifies after a save
  and a load, and only then (`VersionChecksum.SavedVersionVerifies`).
- Reconciling does not resume every interrupted run. Crashes can leave a run behind as
  created, validating, collecting, delivering, or awaiting approval with changes requested
  or an expired request (`OrchestrationRecovery.LeftUnadmitted`, `LeftCollecting`,
  `LeftDelivering`, `LeftAwaiting`); `OrchestrationRecovery.ResumesExactlyWhen` and
  `CompletesExactlyWhen` say exactly which idle runs can still be moved and completed.
- Asking for changes never suspends a run (`OrchestrationLaws.NeverSuspended`).
- A delivery that is in progress is not retried under the same identity
  (`RunRecords.DeliveryCommitsTwice`).
- Delivering an event again after an interrupted delivery does insert dispatches: exactly
  the missing ones (`DispatchRedelivery.RedeliveryCompletes`).
- Finalizing dispatch writes look at the state of the dispatch and not at the lease
  generation (`DispatchLease.RecordLooksAtTheState`), so a superseded driver still records
  its run (`DispatchLease.SupersededDriverRecords`); the exactly-once laws of
  `DispatchProtocol` hold all the same.
- A successful admission does not always hold capacity
  (`AdmissionCapacity.SuccessesWithoutCapacity`);
  `AdmissionCapacity.HoldsCapacityExactlyWhen` says when it does.

## Model

| member | source | states |
|---|---|---|
| `StepGraph.CheckSteps` | packages/vaulltcore-automation/src/version.ts:132-146 | The first pass accepts exactly the lists with non-empty distinct ids whose steps have distinct dependencies other than themselves, and names a real fault otherwise. |
| `StepGraph.BuildTables` | packages/vaulltcore-automation/src/version.ts:147-156 | The in-degree and adjacency tables hold exactly the declared dependencies, or an unknown dependency is reported. |
| `StepGraph.InitialReady` | packages/vaulltcore-automation/src/version.ts:157-159 | The queue starts with the steps that wait for nothing, in declaration order. |
| `StepGraph.Drain` | packages/vaulltcore-automation/src/version.ts:160-166 | The loop ends with each id dequeued at most once, dependencies first, and nothing left behind that was ready. |
| `StepGraph.ReleaseDependents` | packages/vaulltcore-automation/src/version.ts:160-166 | Releasing one dequeued step keeps the in-degree counts true and queues exactly the steps that became ready. |
| `StepGraph.ValidateStepGraph` | packages/vaulltcore-automation/src/version.ts:132-170 | Accepts a list exactly when it is well formed and its graph has no cycle; every refusal names a fault the list really has. |
| `StepGraph.ExecutionOrder` | packages/vaulltcore-automation/src/version.ts:205-233 | On every validated list it returns the schedule: a permutation of the ids, dependencies first, in ready order. |
| `StepGraph.StuckSetHasCycle` | packages/vaulltcore-automation/src/version.ts:167-169 | A non-empty set of steps that each wait for a member of the set contains a cycle. |
| `StepGraph.OrderedIsAcyclic` | packages/vaulltcore-automation/src/version.ts:160-170 | A dependency-first order of all steps rules out every cycle. |
| `StepGraph.DrainedAll` | packages/vaulltcore-automation/src/version.ts:160-170 | The loop dequeued as many ids as there are steps if and only if the graph is acyclic. |
| `StepGraph.ScheduleByDepth` | packages/vaulltcore-automation/src/version.ts:205-233 | A schedule is non-decreasing in dependency depth (longest chain). |
| `StepGraph.ScheduleIsUnique` | packages/vaulltcore-automation/src/version.ts:203-233 | A step list has exactly one schedule, so execution order is deterministic. |
| `StepGraph.ReadyAtIsLastDep` | packages/vaulltcore-automation/src/version.ts:219-232 | A step becomes ready right after its last dependency, before its own place, and at once exactly if it is a root. |
| `StepGraph.ScheduledBefore` | packages/vaulltcore-automation/src/version.ts:203-233 | Of any two steps the one that becomes ready earlier comes first, and of two that become ready together the one declared earlier, and never otherwise. |
| `StepGraph.DeclarationOrderIsKeptExactlyWhen` | packages/vaulltcore-automation/src/version.ts:203-204 | The schedule is the declared order if and only if the declaration has dependencies first and becomes ready in order. |
| `StepGraph.DeclarationOrderIsNotKept` | packages/vaulltcore-automation/src/version.ts:203-204 | Three concrete steps with their schedule, in which the first declared, independent of the second, comes last. |
| `CanonicalJson.SortIsCanonical` | packages/vaulltcore-automation/src/version.ts:31-34 | Sorting member lists with the same elements gives the same list, whatever their order. |
| `CanonicalJson.StableOfNormal` | packages/vaulltcore-automation/src/version.ts:28-36 | A value and its normal form (sorted, without undefined members) print alike. |
| `CanonicalJson.SameIsSameNormal` | packages/vaulltcore-automation/src/version.ts:28-36 | Two values are the same JSON value, up to member order and undefined members, exactly when their normal forms are equal. |
| `JsonParser.StringRoundTrip` | packages/vaulltcore-automation/src/version.ts:29-34 | A quoted string, escapes and lone surrogates included, parses back to itself. |
| `JsonParser.NormalizeIsNormal` | packages/vaulltcore-automation/src/version.ts:28-36 | Normal forms are sorted and hold nothing undefined. |
| `JsonParser.ValueRoundTrip` | packages/vaulltcore-automation/src/version.ts:28-36 | A printed normal value parses back to itself inside any longer text. |
| `JsonParser.PrintThenParse` | packages/vaulltcore-automation/src/version.ts:28-36 | Parsing what was printed recovers the normal form of any value. |
| `JsonParser.StableStringIsCanonical` | packages/vaulltcore-automation/src/version.ts:28-36 | Two values print alike if and only if they are the same JSON value. |
| `JsValues.LessIsByCodeUnit` | packages/vaulltcore-automation/src/version.ts:33 | The sort compares keys code unit by code unit: one precedes another exactly if it is a proper prefix or has the smaller unit at the first difference. |
| `CanonicalText.ObjectsPrintInKeyOrder` | packages/vaulltcore-automation/src/version.ts:31-35 | An object prints as exactly its defined members with their printed values, in ascending order of keys. |
| `CanonicalText.LiteralsSpelledOut` | packages/vaulltcore-automation/src/version.ts:29 | null, numbers JSON has no text for, true and false print as those words. |
| `CanonicalText.PlainStringsPrintAsTheyAre` | packages/vaulltcore-automation/src/version.ts:29-34 | A string without quote, backslash, control unit or lone surrogate prints as itself between quotes. |
| `CanonicalText.SingleUnits` | packages/vaulltcore-automation/src/version.ts:29-34 | Every other unit prints as its short escape or as four lower-case hexadecimal digits that spell it. |
| `CanonicalText.PiecesPrintInTurn` | packages/vaulltcore-automation/src/version.ts:29-34 | A string prints piece by piece as long as no surrogate pair is cut, so the text of every string is fixed. |
| `VersionChecksum.CopyLength` | packages/vaulltcore-automation/src/store-memory.ts:87-102 | A JSON copy prints four characters longer for each undefined array slot. |
| `VersionChecksum.CopyPrintsAlike` | packages/vaulltcore-automation/src/store-memory.ts:87-102 | A JSON copy prints as the original if and only if no array slot is undefined. |
| `VersionChecksum.SavedVersionVerifies` | packages/vaulltcore-automation/src/version.ts:39-49 | A built version that was saved and loaded verifies if its content has no undefined array slot, and, with an injective hash, only then. |
| `VersionChecksum.KeysSpelledOut` | packages/vaulltcore-automation/src/version.ts:39-42 | The checksum covers an object with the definition and the input contract under those names. |
| `VersionChecksum.TamperingIsDetected` | packages/vaulltcore-automation/src/version.ts:44-49 | With an injective hash, a replaced definition or contract verifies if and only if it is the same JSON value. |
| `Glob.SplitThenJoin` | packages/vaulltcore-automation/src/trigger-store.ts:588 | The parts of a pattern, joined with stars, are the pattern, and no part holds a star. |
| `Glob.JoinThenSplit` | packages/vaulltcore-automation/src/trigger-store.ts:588 | No other list of star-free parts joins to the pattern. |
| `Glob.IndexOf` | packages/vaulltcore-automation/src/trigger-store.ts:596-601 | The first occurrence at or after an index, or minus one when there is none. |
| `Glob.GlobMatch` | packages/vaulltcore-automation/src/trigger-store.ts:585-604 | Accepts exactly: equality without a star, prefix and suffix with one, and with more some ordered non-overlapping placement of the non-empty pieces. |
| `Glob.NeverMisses` | packages/vaulltcore-automation/src/trigger-store.ts:585-604 | Every string of the textbook glob language is accepted, for every pattern. |
| `Glob.ExactWithOneStar` | packages/vaulltcore-automation/src/trigger-store.ts:587-593 | With at most one star the matcher agrees with the language exactly when the value is not a one-star match too short to hold prefix and suffix apart. |
| `Glob.OverlapIsAccepted` | packages/vaulltcore-automation/src/trigger-store.ts:589-593 | The pattern a*a accepts the one-letter value a, which is not in its language. |
| `Glob.UnanchoredWitness` | packages/vaulltcore-automation/src/trigger-store.ts:594-603 | For every pattern of two or more stars that does not begin and end with a star there is a value wrongly accepted. |
| `Glob.ExactWithManyStars` | packages/vaulltcore-automation/src/trigger-store.ts:594-603 | With two or more stars the matcher is exact on all values if and only if the pattern begins and ends with a star. |
| `Sanitizer.Sanitize` | packages/vaulltcore-audit/src/sanitizer.ts:37-58 | The procedure that fills fresh arrays and objects computes the sanitizing function, at every depth. |
| `Sanitizer.SanitizedIsClean` | packages/vaulltcore-audit/src/sanitizer.ts:25-58 | The output holds no secret-looking string and no value under a secret name at any level, and its nesting is bounded. |
| `Sanitizer.SanitizeIsIdempotent` | packages/vaulltcore-audit/src/sanitizer.ts:37-58 | Sanitizing twice, as the service and the audit store do, is sanitizing once. |
| `Sanitizer.CleanIsUnchanged` | packages/vaulltcore-audit/src/sanitizer.ts:37-58 | A value with nothing to hide and not nested too deeply passes unchanged. |
| `Sanitizer.PartsAreKept` | packages/vaulltcore-audit/src/sanitizer.ts:42-58 | Down to the depth limit every part not under a secret name is still there, itself sanitized. |
| `Sanitizer.HiddenPartsAreMarked` | packages/vaulltcore-audit/src/sanitizer.ts:42-58 | A secret-looking string and every value under a secret name are replaced by the redaction mark, and what stands at level seventeen by the depth mark. |
| `Sanitizer.PlaceholdersSpelledOut` | packages/vaulltcore-audit/src/sanitizer.ts:43-53 | The two marks, spelled out. |
| `SanitizerPatterns.WordsSpelledOut` | packages/vaulltcore-audit/src/sanitizer.ts:9-21 | The eleven secret words, spelled out. |
| `SanitizerPatterns.SecretKeysMatchAPattern` | packages/vaulltcore-audit/src/sanitizer.ts:9-35 | A key is secret if and only if one of the eleven regular expressions matches it, under the meaning of regular expressions and case aside. |
| `SanitizerPatterns.ApiKeysMatchThePattern` | packages/vaulltcore-audit/src/sanitizer.ts:27 | The API key test is exactly its regular expression. |
| `SanitizerPatterns.SecretValuesMatchThePatterns` | packages/vaulltcore-audit/src/sanitizer.ts:25-30 | A value looks secret if and only if it is sixteen units long and is an API key or an opaque run of thirty-two mixing cases and digits. |
| `Billing.ApplyIsSound` | packages/vaulltcore-billing/src/store.ts:209-555 | Every operation keeps the store sound and only adds to what is recorded. |
| `Billing.LedgerIntegrity` | packages/vaulltcore-billing/src/store.ts:209-555 | After every operation sequence ids and keys are unique, settlements are settled, non-billable or unresolved, settled rows pin the amount and pricing of their entry, and at most one pricing version is active. |
| `Billing.HistoryOnlyGrows` | packages/vaulltcore-billing/src/store.ts:251-316 | The ledger after a history extends the ledger after each prefix, and final settlements stay as they are. |
| `Billing.Origin` | packages/vaulltcore-billing/src/store.ts:350-398 | Following originalEntryId ends at an entry that corrects nothing, within the same scope. |
| `Billing.TotalSplits` | packages/vaulltcore-billing/src/store.ts:431-446 | The signed total of a scope is its charges plus its adjustments. |
| `BillingConfluence.OwedAtFirstResolvable` | packages/vaulltcore-billing/src/store.ts:471-543 | An event owes exactly if some delivery of it is resolvable, and then at the price active at the first one. |
| `BillingConfluence.HistoryAgrees` | packages/vaulltcore-billing/src/store.ts:471-555 | After any history of deliveries, price publications and give-ups the ledger holds one entry per owing event, for what it owes. |
| `BillingConfluence.BalanceIsWhatIsOwed` | packages/vaulltcore-billing/src/store.ts:431-543 | The balance of a scope is the sum of what its distinct events owe. |
| `BillingConfluence.FixedPricesOwed` | packages/vaulltcore-billing/src/store.ts:471-543 | Under one price list exactly the delivered billable events owe, each its price times its quantity. |
| `BillingConfluence.SettlementIsConfluent` | packages/vaulltcore-billing/src/store.ts:471-543 | Histories delivering the same events, in any order and with any repeats, leave equal balances. |
| `BillingSettlements.RowsTellTheHistory` | packages/vaulltcore-billing/src/store.ts:471-555 | Over every history an event has a row exactly if it was delivered: non-billable with its reason, settled for what it owes, or unresolved, as its classification and deliveries call for. |
| `BillingSettlements.DeliveryWrites` | packages/vaulltcore-billing/src/store.ts:482-543 | What one delivery writes on its event's row, and that it writes no other row and none that is final. |
| `BillingSettlements.FinalIsReplayed` | packages/vaulltcore-billing/src/store.ts:482-496 | Delivering a final event again changes nothing and returns its row, the entry that charged it if it was settled, and the duplicate flag. |
| `BillingSettlements.SettlementCharges` | packages/vaulltcore-billing/src/store.ts:513-535 | The entry a settlement appends charges the event's scope and job for the active price times the quantity and names the event and the pricing used. |
| `BillingSettlements.EntriesMoveTheBalanceOnce` | packages/vaulltcore-billing/src/store.ts:251-316 | An entry moves the balance of its scope by its amount the first time its key is used there; a repeat changes nothing, returns the entry on record and says so. |
| `BillingSettlements.AdjustmentsMoveTheBalanceOnce` | packages/vaulltcore-billing/src/store.ts:350-398 | A correction needs an entry of the scope and moves its balance by exactly the amount, once. |
| `BillingStore.SqlBillingStore.CreatePricingVersion` | packages/vaulltcore-billing/src/store.ts:209-230 | Inserts a pricing version, superseding the active one if asked, and keeps the store sound. |
| `BillingStore.SqlBillingStore.SelectActive` | packages/vaulltcore-billing/src/store.ts:233-236 | Finds the one active pricing version, if there is one. |
| `BillingStore.SqlBillingStore.Charge` | packages/vaulltcore-billing/src/store.ts:251-283 | Appends price times quantity under its idempotency key, or returns the entry the key already has. |
| `BillingStore.SqlBillingStore.Adjust` | packages/vaulltcore-billing/src/store.ts:286-316 | Appends a credit as a negated amount, idempotently. |
| `BillingStore.SqlBillingStore.RecordAdjustment` | packages/vaulltcore-billing/src/store.ts:350-398 | Appends a correction only of an entry that exists in the same scope, idempotently. |
| `BillingStore.SqlBillingStore.SettleUsage` | packages/vaulltcore-billing/src/store.ts:471-543 | One delivery settles, parks or replays its event as the settlement function says, keeping the store sound. |
| `BillingStore.SqlBillingStore.MarkUsageUnresolved` | packages/vaulltcore-billing/src/store.ts:546-555 | Parks an event unless it is final. |
| `BillingStore.SqlBillingStore.GetBalance` | packages/vaulltcore-billing/src/store.ts:431-446 | Accumulates the signed total, the charges and the credits; balance is charges minus credits. |
| `DispatchLedger.RunPersists` | packages/vaulltcore-automation/src/trigger-store.ts:375-408 | No dispatch disappears or changes its key, generations never fall, and no key ever has two dispatches. |
| `DispatchLedger.GenerationsGrow` | packages/vaulltcore-automation/src/trigger-store.ts:509-527 | Of two successful claims the later one gets a strictly larger generation. |
| `DispatchLedger.LeaseIsHeld` | packages/vaulltcore-automation/src/trigger-store.ts:509-543 | A claimed lease stays with its owner until it is taken away or another owner claims. |
| `DispatchLedger.OtherOwnerWaits` | packages/vaulltcore-automation/src/trigger-store.ts:509-527 | A different owner claims only after the lease expired, was released or was cleared by a terminal write. |
| `DispatchLedger.LeaseRunsItsTime` | packages/vaulltcore-automation/src/trigger-store.ts:509-536 | A lease lasts until the moment it was last granted or renewed to, and no other owner can claim before, unless it is taken away. |
| `DispatchLedger.SupersededIsPowerless` | packages/vaulltcore-automation/src/trigger-store.ts:530-543 | A superseded generation can neither renew nor clear the lease, ever. |
| `DispatchLedger.FinalStatesAreFinal` | packages/vaulltcore-automation/src/trigger-store.ts:411-472 | Over every driver and operator sequence a row has a run id exactly when its run was created; run_created and rejected are never left, dead_letter only by operator redrive. |
| `DispatchService.SqlTriggerStore.ReserveDispatch` | packages/vaulltcore-automation/src/trigger-store.ts:375-408 | Inserts a fresh dispatch exactly when the key has none, and otherwise returns the one it has. |
| `DispatchService.SqlTriggerStore.TransitionDispatch` | packages/vaulltcore-automation/src/trigger-store.ts:411-437 | The guarded state update, and the row as it stands afterwards. |
| `DispatchService.SqlTriggerStore.MarkRunCreated` | packages/vaulltcore-automation/src/trigger-store.ts:440-447 | Records the run and clears the lease, from matched, admitted or dispatching only. |
| `DispatchService.SqlTriggerStore.MarkRejected` | packages/vaulltcore-automation/src/trigger-store.ts:449-456 | Records a rejection and clears the lease, unless the dispatch is final. |
| `DispatchService.SqlTriggerStore.MarkRetryable` | packages/vaulltcore-automation/src/trigger-store.ts:458-464 | Counts a failed attempt, unless the dispatch is final. |
| `DispatchService.SqlTriggerStore.DeadLetter` | packages/vaulltcore-automation/src/trigger-store.ts:467-473 | Dead-letters a dispatch and clears its lease, unless it is run_created or rejected. |
| `DispatchService.SqlTriggerStore.ClaimRedriveDispatch` | packages/vaulltcore-automation/src/trigger-store.ts:509-527 | Succeeds exactly on a claimable, non-terminal dispatch of the tenant and grants the next generation. |
| `DispatchService.SqlTriggerStore.RenewRedriveLease` | packages/vaulltcore-automation/src/trigger-store.ts:530-536 | Renews exactly for the current generation. |
| `DispatchService.SqlTriggerStore.ReleaseRedriveLease` | packages/vaulltcore-automation/src/trigger-store.ts:539-543 | Clears the lease only for the current generation. |
| `DispatchService.SqlTriggerStore.RedriveDeadLetter` | packages/vaulltcore-automation/src/trigger-store.ts:562-577 | Re-arms a dead letter with its attempts reset, and nothing else. |
| `DispatchService.TriggerDispatchService.DriveDispatch` | packages/vaulltcore-automation/src/dispatch.ts:139-178 | From a dispatch read as it stands: a disabled trigger and a typed denial reject it with their reason, a run is recorded, any other answer costs a second attempt and leaves it retryable; the sink's run is returned if it made one. |
| `DispatchService.DriveTells` | packages/vaulltcore-automation/src/dispatch.ts:139-178 | The same of the ledger function, and that no other dispatch is touched. |
| `DispatchService.TriggerDispatchService.DispatchEvent` | packages/vaulltcore-automation/src/dispatch.ts:101-136 | Reserves and drives each matching trigger once; what is already reserved is left alone. |
| `DispatchService.TriggerDispatchService.Redrive` | packages/vaulltcore-automation/src/dispatch.ts:189-240 | One recovery pass leaves the ledger and the counters as the pass function over the listed dispatches says. |
| `DispatchService.RedeliveryIsNoOp` | packages/vaulltcore-automation/src/dispatch.ts:101-136 | After a delivery that went through all its triggers, delivering the event again changes nothing, whatever happened since and whatever the sink would answer. |
| `DispatchOutcomes.DeniedIsCalledOnce` | packages/vaulltcore-automation/src/dispatch.ts:160-164 | A denied dispatch is rejected with the reason and reaches the sink once, however many passes follow. |
| `DispatchOutcomes.DisabledIsNeverCalled` | packages/vaulltcore-automation/src/dispatch.ts:139-146 | A dispatch of a disabled trigger is rejected without a call, then or later. |
| `DispatchOutcomes.RejectedIsNeverClaimable` | packages/vaulltcore-automation/src/trigger-store.ts:509-516 | A rejected dispatch is never claimable again, whatever drivers and operators do. |
| `DispatchOutcomes.RearmedIsTriedAgain` | packages/vaulltcore-automation/src/trigger-store.ts:562-577 | An operator redrive gives a dead letter its ceil(maxAttempts / 2) calls back. |
| `DispatchOutcomes.CountersCount` | packages/vaulltcore-automation/src/dispatch.ts:189-240 | driven counts the listed dispatches the pass could claim, created those of them that got a run, failed those dead-lettered or without a trigger. |
| `DispatchOutcomes.RedeliveryReports` | packages/vaulltcore-automation/src/dispatch.ts:101-136 | A redelivery reports exactly the runs on record for the event's triggers. |
| `DispatchOutcomes.FreshDispatch` | packages/vaulltcore-automation/src/trigger-store.ts:375-408 | A reserved dispatch starts matched, untried, unclaimed and claimable, at the trigger's revision. |
| `DispatchRedelivery.DeliveryFills` | packages/vaulltcore-automation/src/dispatch.ts:101-136 | On any ledger a delivery leaves every row as it is, adds exactly the event's keys, and keeps keys unique. |
| `DispatchRedelivery.RedeliveryCompletes` | packages/vaulltcore-automation/src/dispatch.ts:101-136 | After a delivery cut off at any trigger, delivering again touches no row, reserves exactly the missing keys once each, and ends with the keys of an uninterrupted delivery. |
| `DispatchRetries.PassOnRow` | packages/vaulltcore-automation/src/dispatch.ts:189-240 | What a pass cut off at any operation leaves of a dispatch whose sink fails: state, attempts and lease owner. |
| `DispatchRetries.CallsAreBounded` | packages/vaulltcore-automation/src/dispatch.ts:189-240 | However the passes crash, a dispatch with a failing sink gets at most maxAttempts sink calls. |
| `DispatchRetries.FullPassesDeadLetter` | packages/vaulltcore-automation/src/dispatch.ts:139-240 | With complete passes it gets exactly min(n, ceil(maxAttempts / 2)) calls in n passes and is dead-lettered by the pass after the last. |
| `DispatchRetries.CrashesReachTheBound` | packages/vaulltcore-automation/src/dispatch.ts:139-178 | Drivers that crash after the call do reach maxAttempts calls, so that bound is tight. |
| `DispatchProtocol.NextIsSafe` | packages/vaulltcore-automation/src/dispatch.ts:101-240 | Every step of every driver, crash, renewal and operator redrive keeps the protocol invariant and undoes nothing. |
| `DispatchProtocol.PastStays` | packages/vaulltcore-automation/src/dispatch.ts:101-240 | Dispatches, sink runs and final states of an execution's prefix are still there at its end. |
| `DispatchProtocol.ExactlyOneRun` | packages/vaulltcore-automation/src/dispatch.ts:101-178 | Over all interleavings a (tenant, event, trigger) has at most one dispatch; a run id is present exactly in run_created, is the sink's one run for the dispatch, never changes and is shared with no other dispatch. |
| `DispatchProtocol.DeadLettersWaitForOperator` | packages/vaulltcore-automation/src/trigger-store.ts:562-577 | In every reachable state a dead letter leaves that state only by an operator redrive of it. |
| `DispatchProtocol.ProtocolIsLedgerRun` | packages/vaulltcore-automation/src/dispatch.ts:101-240 | What any execution leaves in the ledger is one run of ledger operations, so the lease laws hold of it. |
| `DispatchRefinement.EventAlone` | packages/vaulltcore-automation/src/dispatch.ts:101-136 | A protocol driver that nobody interferes with does for a trigger what dispatchEvent does. |
| `DispatchRefinement.PassAlone` | packages/vaulltcore-automation/src/dispatch.ts:189-240 | And for a dispatch it can claim what a recovery pass does. |
| `DispatchLease.RecordLooksAtTheState` | packages/vaulltcore-automation/src/trigger-store.ts:440-447 | In every reachable state recording a created run takes effect if and only if the dispatch is matched, admitted or dispatching, whatever the generation of its writer. |
| `DispatchLease.SupersededDriverRecords` | packages/vaulltcore-automation/src/trigger-store.ts:498-499 | An execution with two claims in which the driver of the first records its run while the second owner holds the lease. |
| `EventLog.ProjectStepEvents` | packages/vaulltcore-automation/src/projection.ts:22-49 | The loop emits the projected kinds numbered consecutively from startSeq. |
| `EventLog.ProjectionGrows` | packages/vaulltcore-automation/src/projection.ts:22-49 | Replaying a longer runner log only adds to the projection. |
| `EventLog.StartedOnce` | packages/vaulltcore-automation/src/projection.ts:22-49 | A step is reported started once, however often its job restarts, and never without a start. |
| `EventProjection.ProjectionKeepsInOrder` | packages/vaulltcore-automation/src/projection.ts:22-49 | The projection is the first start, every assistant message and every completion, each exactly once, in their order, and nothing else. |
| `EventProjection.UninterruptedBatchIsLogged` | packages/vaulltcore-automation/src/service.ts:437-438 | A batch that starts from the next number and is not interrupted is logged whole. |
| `EventProjection.AppendAddsOrDrops` | packages/vaulltcore-automation/src/store-memory.ts:383-389 | An event with the next number is added at the end; one whose number is taken is dropped. |
| `EventLog.Poll` | packages/vaulltcore-control/src/phase2b-routes.ts:469-505 | One poll emits exactly the events past the cursor and moves the cursor to the last of them. |
| `EventLog.LogIsDense` | packages/vaulltcore-automation/src/service.ts:780-788 | Under every interleaving and crash of single appends and batches the log is numbered 1..n, and each follower has emitted exactly the segment between its start and its cursor. |
| `EventLog.LogOnlyGrows` | packages/vaulltcore-automation/src/store-memory.ts:383-395 | Events once in the log keep their place. |
| `RunRecords.FencedHistory` | packages/vaulltcore-automation/src/run.ts:38-120 | For any attempts of any writers the committed statuses walk the table, the version is one plus the commits, and completedAt is set exactly in terminal states. |
| `RunRecords.TableIsThePath` | packages/vaulltcore-automation/src/run.ts:38-56 | Which transitions the table has, and that it has no others: the path forward with its short cuts, failing and cancelling, suspending and resuming. |
| `RunRecords.CommitWrites` | packages/vaulltcore-automation/src/run.ts:108-120 | What a commit writes beside the status: error, times and version. |
| `RunRecords.OneCommitPerVersion` | packages/vaulltcore-automation/src/store-memory.ts:155-162 | Of two commits the later was based on a strictly larger version. |
| `RunRecords.AtMostSevenCommits` | packages/vaulltcore-automation/src/run.ts:38-60 | A run that is never suspended commits at most seven transitions. |
| `RunRecords.DecisionsAgree` | packages/vaulltcore-automation/src/store-memory.ts:285-317 | All decisions that return agree on one terminal outcome, and it is the one on record. |
| `RunRecords.DecisionIsRecorded` | packages/vaulltcore-automation/src/approval.ts:103-123 | A decision on a pending request of the version read is recorded as asked for, with who and when, and changes nothing else. |
| `RunRecords.ExpiryIsRecorded` | packages/vaulltcore-automation/src/approval.ts:125-133 | A request expires exactly if it is pending past its time, and stays as it is otherwise. |
| `RunRecords.DeliveryIsFinal` | packages/vaulltcore-automation/src/store-memory.ts:358-380 | A delivery never leaves delivered or failed. |
| `RunRecords.DeliveryCommitsTwice` | packages/vaulltcore-automation/src/store-memory.ts:358-380 | A delivery identity commits at most twice and starts at most once, so it is not retried. |
| `RunRecords.DeliveryWrites` | packages/vaulltcore-automation/src/store-memory.ts:358-380 | What a delivery transition writes beside its status: attempts, result and error. |
| `AutomationStore.CompositeKeyIsInjective` | packages/vaulltcore-automation/src/store-memory.ts:172-174 | Composite keys of separator-free run ids are equal only for equal parts. |
| `AutomationStore.SeparatorsCollide` | packages/vaulltcore-automation/src/store-memory.ts:172-174 | Run ids with a separator can share a key, so the condition is needed. |
| `AutomationStore.GateLookupIsSearch` | packages/vaulltcore-automation/src/store-memory.ts:251-317 | Lookup by gate finds an approval exactly when a linear search of the primary map would. |
| `AutomationStore.DeliveryLookupIsSearch` | packages/vaulltcore-automation/src/store-memory.ts:324-380 | Lookup by key finds a delivery exactly when a linear search of the primary map would. |
| `AutomationStore.JobLookupIsSearch` | packages/vaulltcore-automation/src/store-memory.ts:197-229 | Lookup by job is a linear search of the mappings if and only if no two steps share a job. |
| `AutomationStore.InMemoryAutomationStore.TransitionRun` | packages/vaulltcore-automation/src/store-memory.ts:155-162 | Commits exactly the fenced transition, or reports not found, fenced or illegal and changes nothing. |
| `AutomationStore.InMemoryAutomationStore.GetInputRevision` | packages/vaulltcore-automation/src/store-memory.ts:134-140 | Returns the revision exactly when it belongs to a run the tenant can see. |
| `AutomationStore.InMemoryAutomationStore.SaveJobMapping` | packages/vaulltcore-automation/src/store-memory.ts:197-205 | A step is mapped once; a second mapping is refused and both maps stay. |
| `AutomationStore.InMemoryAutomationStore.GetJobMappingByJob` | packages/vaulltcore-automation/src/store-memory.ts:223-229 | What it returns is a mapping of that job visible to the tenant, and with distinct jobs it misses none. |
| `AutomationStore.InMemoryAutomationStore.SaveApprovalRequest` | packages/vaulltcore-automation/src/store-memory.ts:251-259 | Refuses a taken id or gate, and keeps index and map in agreement. |
| `AutomationStore.InMemoryAutomationStore.GetApprovalRequestByGate` | packages/vaulltcore-automation/src/store-memory.ts:269-274 | Returns exactly the approval of that run and gate. |
| `AutomationStore.InMemoryAutomationStore.DecideApproval` | packages/vaulltcore-automation/src/store-memory.ts:285-304 | Commits the fenced decision to map and index, or fails and changes nothing. |
| `AutomationStore.InMemoryAutomationStore.ExpireApproval` | packages/vaulltcore-automation/src/store-memory.ts:306-317 | Expires a pending request past its time, in map and index. |
| `AutomationStore.InMemoryAutomationStore.SaveDeliveryAttempt` | packages/vaulltcore-automation/src/store-memory.ts:324-332 | Refuses a taken id or key, and keeps index and map in agreement. |
| `AutomationStore.InMemoryAutomationStore.GetDeliveryAttemptByKey` | packages/vaulltcore-automation/src/store-memory.ts:342-347 | Returns exactly the attempt of that run and key. |
| `AutomationStore.InMemoryAutomationStore.TransitionDelivery` | packages/vaulltcore-automation/src/store-memory.ts:358-380 | Commits the fenced transition to map and index, or fails and changes nothing. |
| `AutomationStore.InMemoryAutomationStore.AppendEvent` | packages/vaulltcore-automation/src/store-memory.ts:383-389 | Appends to the run's log unless the number is taken. |
| `AutomationStore.InMemoryAutomationStore.ListEvents` | packages/vaulltcore-automation/src/store-memory.ts:391-395 | Returns the visible run's events past the cursor, in order. |
| `DeliveryProvider.FakeDeliveryProvider.Deliver` | packages/vaulltcore-automation/src/delivery.ts:138-159 | A delivered key replays its original result without another attempt; otherwise one logged attempt succeeds exactly past the simulated failures, and the log holds one success per delivered key. |
| `DeliveryProvider.FakeDeliveryProvider.FailNext` | packages/vaulltcore-automation/src/delivery.ts:127-131 | The next n attempts will fail, and no failure already promised is lifted. |
| `OrchestrationSafety.DependenciesComeFirst` | packages/vaulltcore-automation/src/service.ts:416-419 | In the order the run is advanced in, a step stands after all it depends on. |
| `OrchestrationSafety.PcStays` | packages/vaulltcore-automation/src/service.ts:400-750 | Whatever durable progress others make, what a worker relies on between two of its calls stays true. |
| `OrchestrationSafety.CommitSound` | packages/vaulltcore-automation/src/store-memory.ts:155-162 | A committed transition moves exactly the run the worker had read, to a status everything around it justifies. |
| `OrchestrationSafety.CreateSound` | packages/vaulltcore-automation/src/service.ts:323-333 | Every step of createRun keeps the durable state sound. |
| `OrchestrationSafety.AdvanceSound` | packages/vaulltcore-automation/src/service.ts:400-470 | Every step of advanceRun up to collecting keeps the durable state sound. |
| `OrchestrationSafety.DispatchStepSound` | packages/vaulltcore-automation/src/service.ts:510-559 | Every step of dispatchStep and of recording its result keeps the durable state sound. |
| `OrchestrationSafety.ApprovalSound` | packages/vaulltcore-automation/src/service.ts:491-498 | Every step of requesting, deciding and following an approval, and of cancelling, keeps the durable state sound. |
| `OrchestrationSafety.DeliverSound` | packages/vaulltcore-automation/src/service.ts:636-690 | Every step of deliverRun and completeRun, lost provider answers included, keeps the durable state sound. |
| `OrchestrationSafety.ReconcileSound` | packages/vaulltcore-automation/src/service.ts:702-750 | Every step of reconcileRun keeps the durable state sound. |
| `OrchestrationLaws.NextSound` | packages/vaulltcore-automation/src/service.ts:277-750 | Every action of the system keeps the invariant and undoes nothing durable. |
| `OrchestrationLaws.NothingIsUndone` | packages/vaulltcore-automation/src/service.ts:400-750 | Over every execution mappings, jobs, final job states, decisions, final deliveries, confirmations and the stored input only grow, and the run only moves to larger versions. |
| `OrchestrationLaws.DependenciesAreDoneFirst` | packages/vaulltcore-automation/src/service.ts:416-467 | In every reachable state a step has a job only if each step it depends on is mapped to a completed job (with a completed row when the dispatcher answers with final states). |
| `OrchestrationLaws.OneJobPerStep` | packages/vaulltcore-automation/src/service.ts:510-559 | A step once mapped is mapped to the same job forever: the dispatcher's only job for it, shared with no other step. |
| `OrchestrationLaws.CompletedRowsStay` | packages/vaulltcore-automation/src/service.ts:436-466 | With final dispatcher answers a step row once completed stays completed, and truthfully so. |
| `OrchestrationLaws.StatusIsJustified` | packages/vaulltcore-automation/src/service.ts:277-750 | Once a run has reached a status, everything the status promises holds then and ever after. |
| `OrchestrationLaws.AdmittedHasInput` | packages/vaulltcore-automation/src/service.ts:323-333 | A run that has reached admitted has its input revision stored. |
| `OrchestrationLaws.DeliveryNeedsApproval` | packages/vaulltcore-automation/src/service.ts:491-498 | If the version requires approval, a run that has reached delivering or completed has an approved request. |
| `OrchestrationApprovers.DeliveredWasApproved` | packages/vaulltcore-automation/src/service.ts:597-619 | By the time a run that requires approval is delivering or completed, a call has approved it. |
| `OrchestrationApprovers.RejectedWasDeclined` | packages/vaulltcore-automation/src/service.ts:619-622 | By the time a run is rejected, a call has rejected it. |
| `OrchestrationLaws.CompletedIsDelivered` | packages/vaulltcore-automation/src/service.ts:636-690 | A completed run has every step done and a delivered attempt whose result the provider confirmed. |
| `OrchestrationLaws.EndsHaveCauses` | packages/vaulltcore-automation/src/service.ts:422-460 | A failed run has a lost step or a failed delivery on record; a rejected run has a declined request. |
| `OrchestrationLaws.NeverSuspended` | packages/vaulltcore-automation/src/service.ts:622-627 | No execution suspends a run; asking for changes is refused by the table. |
| `OrchestrationLaws.RunIsFenced` | packages/vaulltcore-automation/src/service.ts:277-750 | The run's record is a fenced history without suspension, so it commits at most seven times in any execution. |
| `OrchestrationStages.AlwaysStaged` | packages/vaulltcore-automation/src/service.ts:277-690 | In every reachable state a run has no job before it is admitted, no approval request before it is collecting and no delivery attempt before it is delivering. |
| `OrchestrationStages.StaysSound` | packages/vaulltcore-automation/src/service.ts:277-750 | From any sound state every continuation stays sound and undoes nothing durable. |
| `OrchestrationProgress.TakeStep` | packages/vaulltcore-automation/src/service.ts:416-467 | Whatever a crash left of a step (a job without a mapping, a mapping without a row, a stale row), one worker can get it completed if its job is not lost. |
| `OrchestrationProgress.DriveSteps` | packages/vaulltcore-automation/src/service.ts:416-470 | A running run can always be moved, to collecting or to failed, and to collecting whenever no dispatched job is lost. |
| `OrchestrationRecovery.ResumesExactlyWhen` | packages/vaulltcore-automation/src/service.ts:693-750 | In every reachable state with all workers idle, something other than a cancel can change the run if and only if it is absent, admitted, running, or awaiting approval with a pending, approved or declined request. |
| `OrchestrationRecovery.CompletesExactlyWhen` | packages/vaulltcore-automation/src/service.ts:400-690 | In every such state the run can be completed without a cancel if and only if it is completed, absent, admitted or running with no dispatched job lost, or awaiting approval with a pending or approved request. |
| `OrchestrationReconcile.PassRepairs` | packages/vaulltcore-automation/src/service.ts:710-739 | A pass over any list of mapped steps, none of whose calls fails, ends within three steps a mapping: at the first lost step of a run that has not ended, with the rows up to it right, and otherwise with all rows right. |
| `OrchestrationReconcile.ReconcileRepairs` | packages/vaulltcore-automation/src/service.ts:702-749 | From any sound state such a reconciliation leaves every mapped step with the row its job's state means, or fails the run if a step is lost and the run has not ended. |
| `OrchestrationReconcile.ReconcileDrives` | packages/vaulltcore-automation/src/service.ts:741-749 | From every sound idle state an admitted or running run is carried to collecting, or to failed only if a job is lost, by reconciling alone while jobs progress. |
| `OrchestrationEndings.CancelEnds` | packages/vaulltcore-automation/src/service.ts:363-373 | Cancelling cancels any run that has not ended and leaves an ended one alone. |
| `OrchestrationEndings.RequestIsMade` | packages/vaulltcore-automation/src/service.ts:491-496 | A collected run gets one pending request for its gate, with the version's expiry, and awaits approval. |
| `OrchestrationEndings.RequestIsReused` | packages/vaulltcore-automation/src/service.ts:563-566 | A request that is there already is used as it is. |
| `OrchestrationEndings.SuccessfulCallCompletesTheRun` | packages/vaulltcore-automation/src/service.ts:662-669 | A provider call that succeeds records its result, the one already confirmed if there is one, and completes the run. |
| `OrchestrationEndings.FailedCallFailsTheRun` | packages/vaulltcore-automation/src/service.ts:670-681 | A provider call that throws marks the attempt failed with the message and fails the run. |
| `Orchestration.StepStatusFollowsJob` | packages/vaulltcore-automation/src/projection.ts:52-71 | A step is completed or failed exactly when its job is, and pending exactly before its job runs. |
| `OrchestrationRecovery.StrandedForever` | packages/vaulltcore-automation/src/service.ts:409-414 | A run that cannot be moved, with no worker in a position to move it, stays exactly as it is through every cancel-free continuation. |
| `OrchestrationRecovery.LeftUnadmitted` | packages/vaulltcore-automation/src/service.ts:327-333 | Crashes of createRun leave a created and a validating run that nothing but a cancel moves. |
| `OrchestrationRecovery.LeftCollecting` | packages/vaulltcore-automation/src/service.ts:409-470 | For every plan a crash leaves a collecting run that nothing but a cancel moves. |
| `OrchestrationRecovery.LeftAwaiting` | packages/vaulltcore-automation/src/service.ts:622-627 | With approval required, a run awaiting approval is stranded by a request for changes, and by expiry where requests expire. |
| `OrchestrationRecovery.LeftDelivering` | packages/vaulltcore-automation/src/service.ts:636-680 | For every plan a crash leaves a delivering run that nothing but a cancel moves. |
| `OrchestrationRecovery.CanComplete` | packages/vaulltcore-automation/src/service.ts:277-690 | From the start every plan, with or without approval, has an execution that completes its run. |
| `Admission.SlotsDoNotExpire` | packages/vaulltcore-control/src/admission.ts:404-434 | No history sets an expiry, so only a retriable failure makes a slot claimable again. |
| `Admission.ClaimsSerialize` | packages/vaulltcore-control/src/admission.ts:404-450 | Between two winning claims of a slot lies a retriable failure. |
| `Admission.ClaimsAreAnswered` | packages/vaulltcore-control/src/admission.ts:404-434 | Over every history of a slot, which claims win, conflict, replay or are in flight. |
| `Admission.OutcomesAreRecorded` | packages/vaulltcore-control/src/admission.ts:436-451 | What completing and failing record on a slot. |
| `Admission.InMemoryAdmissionIdempotencyRegistry.Claim` | packages/vaulltcore-control/src/admission.ts:404-434 | Answers new, replay, in flight or conflict by the slot's state and fingerprint, and touches no other slot. |
| `Admission.InMemoryAdmissionIdempotencyRegistry.Complete` | packages/vaulltcore-control/src/admission.ts:436-443 | Completes an existing slot with its job and reservation and touches no other slot. |
| `Admission.InMemoryAdmissionIdempotencyRegistry.Fail` | packages/vaulltcore-control/src/admission.ts:444-451 | Fails an existing slot, retriably or not, and touches no other slot. |
| `Admission.InMemoryAdmissionIdempotencyRegistry.Lookup` | packages/vaulltcore-control/src/admission.ts:452-454 | Reads the slot of a tenant and key. |
| `AdmissionProtocol.AdmitSound` | packages/vaulltcore-control/src/admission.ts:220-351 | Every step of admit keeps the invariant, and changes only a slot the caller owns or wins at that step. |
| `AdmissionProtocol.NextSound` | packages/vaulltcore-control/src/admission.ts:220-351 | Every action of callers, crashes, reaper and settlement keeps the invariant and undoes nothing. |
| `AdmissionProtocol.AtMostOneJob` | packages/vaulltcore-control/src/admission.ts:243-338 | Under any interleaving and crash a (tenant, key) creates at most one job. |
| `AdmissionProtocol.SuccessesAgree` | packages/vaulltcore-control/src/admission.ts:250-351 | All successes of a (tenant, key), first or replayed, return the same job and reservation for the same fingerprint, and the job is the key's own. |
| `AdmissionResults.FirstSuccessIsFresh` | packages/vaulltcore-control/src/admission.ts:250-351 | Over every execution the first success of a (tenant, key) is told as fresh and every later one as a replay. |
| `AdmissionResults.ReservationsNameTheirJobs` | packages/vaulltcore-control/src/admission.ts:336-338 | Every success names a reservation that is linked to the very job it returns. |
| `AdmissionResults.FailuresDecideTheKey` | packages/vaulltcore-control/src/admission.ts:283-334 | A recorded quota refusal or failed creation leaves the key open to the next caller; a policy denial closes it. |
| `AdmissionResults.DenialIsFinal` | packages/vaulltcore-control/src/admission.ts:283-290 | A key denied by policy stays closed, with its slot as it is, in every execution. |
| `AdmissionProtocol.FailedCreationReleases` | packages/vaulltcore-control/src/admission.ts:325-334 | When release works, a failed job creation leaves a reservation that has ended and stays ended. |
| `AdmissionProtocol.RetryHoldsNoCapacity` | packages/vaulltcore-control/src/admission.ts:296-334 | A success after a failed creation returns the ended reservation, so it holds no capacity. |
| `AdmissionProtocol.NoReservationIsLeaked` | packages/vaulltcore-control/src/admission.ts:296-338 | When release works, an active reservation belongs to a job or to an admission under way, whoever crashes, unless a call stopped while holding that very reservation. |
| `AdmissionCapacity.HoldsCapacityExactlyWhen` | packages/vaulltcore-control/src/admission.ts:296-338 | A call that reserved and is on its way holds an active reservation if and only if the key had none or an active one when it reserved, and neither reaper nor settlement ended it since. |
| `AdmissionCapacity.SuccessesWithoutCapacity` | packages/vaulltcore-control/src/admission.ts:296-345 | For every request there is an execution that succeeds on a released reservation (a retry) and one that succeeds on an expired one (a first call). |

## Left out

- Step graphs: the source writes Kahn's loop twice, in `validateStepGraph` and in `executionOrder`; the loop is modelled once and both methods use it.
- `validateDefinition` beyond the step graph (artifact, approval and delivery sections): field checks without state.
- Values that JSON cannot hold (functions, symbols, bigint, `toJSON`, a member named `__proto__`) and an undefined value at top level: the value type does not include them.
- Number formatting: a number is carried as its printed text, so the printer's shortest-digits rule is not modelled.
- White space in the parser: the printer never writes any.
- `triggerChecksum`: plain `JSON.stringify`, not canonical.
- Trigger criteria other than the resource pattern, and which trigger revision a redrive uses (the current one, not the pinned one): the matching triggers are a parameter.
- `listStranded` and its ordering by time: a recovery pass takes the listed dispatches as a parameter.
- SQL text, dialects, migrations and `SqlAutomationStore`: the in-memory store has the same contract; SQL additionally makes (run, job) unique.
- Orchestration follows one run. Runs share nothing but the dispatcher, whose step keys hold the run id.
- Durable idempotency of `createRun`: its key map is process memory; the dispatch protocol assumes the sink's documented idempotence instead.
- Prompt substitution, output extraction, artifact content and audit writes: they do not touch the state the laws are about; a throw in any of them is a crash of the worker.
- `deliverRun` called from outside the service: only `advanceRun` and `decideApproval` reach it here.
- `settleAndBill` and the quota counters: the quota store is modelled by the states of its reservations.
- Admission's stale-slot branch is in the step function and shown unreachable as long as jobs persist; runners that delete jobs are not modelled.
- HTTP routes, streaming transport, provider and network adapters, authentication, sessions and connections: plumbing without an invariant of this kind.
- In `AutomationStore`, templates, versions, artifacts and the list operations with their sort by creation time: they would only add easy members.
