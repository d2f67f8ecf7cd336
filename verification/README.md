# AgentOps money protocol: a Dafny model

An agent asks to spend. The guard checks a policy, takes a hold in Redis, inserts a decision and a hold in Postgres, re-checks the kill switches, signs, and records the signature; a worker later settles or fails the decision and anchors it on chain. A treasury lends float to agents and takes it back. All of it happens in concurrent request handlers that may crash between any two statements. This project models that protocol and proves what it guarantees.

`dafny verify dfyconfig.toml` checks everything.

## How the model is built

* **Stores updated in place** are classes: `HoldLedger.HotLedger` (one agent's Redis keys), `GuardTables.GuardStore` (the guard's Postgres rows), `FloatStore.Provisioning` (treasury counters, allocation records, cold ledger), `EpochCache.PolicyStore` and `PolicyCache`, `AuditAnchor.GuardRegistry` (the contract), `ReconcileAttempts.AttemptLog`. Each method is proved to do what a small specification function says.
* **Protocols** are transition systems over those same specification functions. One SQL statement or transaction, one Lua script, one answer from outside is one step. Every call has a program counter; crashes, injected faults and a lock that vanishes are steps of their own. `After(w, acts)` is the world after any sequence of steps, so a lemma about `After` is about every interleaving.
  * `GuardProtocol` has the steps of authorize, reconcile and revoke and the invariant; `GuardRuns` proves that every step keeps it; `GuardTheorems`, `GuardGuarantees`, `GuardReplay`, `GuardRevoke`, `GuardOrphans`, `GuardGates`, `GuardProvenance`, `GuardScenarios` and `GuardOutcomes` draw the conclusions: what is never lost, where every ending comes from, and what a call that nobody disturbs ends with. The invariant is about one decision at a time (a `Slice`: its call, row, Postgres hold and Redis hold), plus what workers know and a fence that a revoke raises.
  * `FloatProtocol`, `FloatRuns`, `FloatTheorems`, `FloatStranding`, `FloatFinality` and `FloatAlone` do the same for deposits, confirms and teardowns; what a call holds in its hands between two scripts is counted as a weight of that call.
  * `EpochCache`, `AuditAnchor` and `ReconcileAttempts` hold a protocol each. `EpochGuarantees` says what the cache means to an editor. `AuditAnchor` lets decisions change in any way that `GuardTheorems.RunAdvances` allows.
* **Pure code** is functions with lemmas: `PolicyCompile`, `JsonText`, `CanonicalJson`, `BalancedObject`, `TokenUnits`, `GraphCompiler`, `GraphReading`, `GraphHydration`, `DecimalText`, `Sequences`, `Sums`.

The bodies of the Lua scripts under `src/redis/lua` are modelled, their string arithmetic included. The unique keys on (org, idempotency key) and (decision, attempt number) are those of `src/db/migrations/0009_casper_guard.sql`.

## Where the code does less than it says

* **A revoke can abort a signed decision.** The comment at `src/engines/casper-guard/policy.ts:581-586` promises that SIGNED decisions are left alone to settle. That holds of every decision that was not RESERVED when the revoke listed (`GuardRevoke.RevokeTouchesOnlyListed`). But the abort's guard is "not terminal" (`store.ts:155-168`), not "still RESERVED", so a decision signed after the listing becomes FAILED_TERMINAL with its signature out (`GuardScenarios.RevokeAbortsSigned`). It happens exactly to listed decisions whose call, still alive, had passed the agent check by the time of the listing; where the revoke matched no agent row, also to those whose call still had that check or the org check before it (`GuardRevoke.AbortsSignedIffMaySign`).
* **A replay ignores the status.** A decision that failed after it was signed keeps answering its key with ALLOW, one that failed before keeps answering `idempotency_in_progress` for ever (`GuardReplay.FailedAnswersForever`, `AbortedIsStillAllowed`).
* **A revoke that matched no agent row stops nothing**; `agentSuspended` is what the caller must check (`GuardScenarios.UnmatchedRevokeStopsNothing`, against `GuardTheorems.RevokeIsAHardStop`).
* **A crash between the Redis reserve and the insert leaves a hold for good.** Any clear call can leave one (`GuardOrphans.CrashLeavesOrphan`), no later step of anyone releases or settles it (`OrphanForever`), and it takes its room in the cap and in the velocity limit at every later time (`OrphanCounts`). A hold without a row comes about in no other way (`GuardGuarantees.OrphanHolds`).
* **`assignPolicy` does not advance the epoch.** A resolve that follows a new assignment sees it if and only if it did not find a fresh blob, or the assignment makes no difference (`EpochGuarantees.AssignmentIsSeenIff`). `TightAssignmentIsIgnored` is a run from an initial world in which a payment of fifty is still admitted after a layer was assigned that allows one.
* **Key order by `localeCompare`** canonicalizes as long as no two distinct keys of one object tie (`CanonicalJson.StableJsonIsExact`); any tie breaks it (`TiesBreakCanonicity`). The intents that reach it have fixed field names after the schema transforms (`src/engines/casper-guard/types.ts`), distinct ASCII words that do not tie, so this is a limit of the function and not of the replay check.
* **A quote id** brings back the quoted trade if and only if neither symbol contains `_` (`TokenUnits.SubmitUsesTheQuotedTrade`).
* **`configToGraph` draws graphs that `validateGraph` rejects** as soon as the flow has a role: agents are attached to the flow, never contained in a fleet (`GraphHydration.HydratedIsValidIffNoRoles`). Compiling them still gives the configuration back.
* **Teardown does not sweep a deposit whose call stopped between raising `float_pending` and its index entry.** Of any world that a run reaches: teardown ends with `float_pending` at zero, and the reserve falls by exactly the agent's old `float_pending`, if and only if no positive deposit of the agent stands there (`FloatStranding.TeardownStrandsNothing`). `CrashStrandsDeposit` is a run that leaves the amount behind.
* **A confirmed anchor row does not put its hash on chain.** It means that the deploy was accepted; the hash is on chain if and only if the chain has executed a deploy for the decision (`AuditAnchor.ConfirmedIsAnchoredOnceRun`). `ConfirmedBeforeExecution` is the run in which it has not yet.

## Model

| member | source | states |
|---|---|---|
| `GuardTheorems.RevokeIsAHardStop` | src/engines/identity/delegation/revoke-agent-delegation.ts:28-40 | once a revoke has returned with the agent suspended, no decision of that agent is signed later in any interleaving, wherever it was inserted relative to the revoke: all that is committed later was committed already |
| `GuardTheorems.OnlySigningCommits` | src/engines/casper-guard/store.ts:133-151 | of all steps of all calls only the guarded mark of the decision's own call, on a RESERVED row, makes a decision committed |
| `GuardTheorems.TerminalForever` | src/engines/casper-guard/store.ts:155-168 | over any run a SETTLED, DENIED, FAILED_TERMINAL or EXPIRED row never changes again |
| `GuardTheorems.RunAdvances` | src/engines/casper-guard/store.ts:123-291 | over any run no row disappears, no identity column changes, no status moves back, no settled or released hold changes |
| `GuardRuns.RunKeeps` | src/engines/casper-guard/policy.ts:123-291 | the coupling of call, row, Postgres hold and Redis hold, the caps, the key uniqueness and the revoke's fence survive every interleaving of authorize, reconcile, revoke, crashes and lost locks |
| `GuardRuns.InitialKeeps` | src/engines/casper-guard/policy.ts:123-291 | the invariant holds of empty stores, with whatever agents, policies and kill switches |
| `GuardProtocol.AuthStepLocal` | src/engines/casper-guard/policy.ts:143-290 | every step of an authorize call keeps its own decision's coupling, undoes no fact others rely on, and touches no other decision |
| `GuardProtocol.LocalKeepsAll` | src/engines/casper-guard/policy.ts:143-290 | a step that moves one decision forward keeps what every reconcile and revoke call in progress relies on |
| `GuardGuarantees.EndToEndCap` | src/engines/casper-guard/policy.ts:177-247 | in every 30-day bucket the amounts of all allowed, not failed decisions of an agent sum to at most its cap, and no 1-hour bucket has more of them than its velocity limit, crashes included |
| `GuardGuarantees.LiveIsHeld` | src/engines/casper-guard/policy.ts:600-615 | a decision that has not failed always has its Redis hold, for its own amount and time |
| `GuardGuarantees.OneDecisionPerKey` | src/engines/casper-guard/policy.ts:136-165 | for any number of calls with one org and key, whatever becomes of the lock: one row at most, one signer call at most, and at most one finished call left a Redis hold |
| `GuardGuarantees.OrphanHolds` | src/engines/casper-guard/policy.ts:211-247 | a Redis hold has no row exactly while its call stands, dead or alive, between reserve and insert or before the compensating release |
| `GuardOrphans.OrphanForever` | src/engines/casper-guard/policy.ts:211-247 | the hold of a call that died between its reserve and its insert, or before its compensating release, is outstanding with its amount and time, and without a row, in every later world |
| `GuardOrphans.OrphanCounts` | src/redis/lua/reserve-with-policy.lua:117-157 | at any later time a payment whose window contains that hold gets through only if the cap has room for both amounts and the velocity limit a second place |
| `GuardOrphans.CrashLeavesOrphan` | src/engines/casper-guard/policy.ts:211-247 | the run that leaves such a hold, for every call that nothing stands in the way of |
| `GuardGuarantees.StoresAgree` | src/engines/casper-guard/store.ts:187-265 | after any run: an in-flight decision has a RESERVED row hold and a live Redis hold of its amount; a SETTLED hold implies a SETTLED decision, a RELEASED one a failed decision; Redis settles only what Postgres settled |
| `GuardGuarantees.ReconcileAgainSettlesBoth` | src/engines/casper-guard/reconcile-worker.ts:288-297 | reconciling a SETTLED decision after any crash, whatever runs beside it: a call that is not itself cut short is done exactly when it has taken its read and then both of its effects, and then both holds are settled |
| `GuardGuarantees.RepairStandsWhereItStepped` | src/engines/casper-guard/reconcile-worker.ts:288-297 | in any interleaving a repairing call stands exactly where its own steps have brought it; nothing else can hold it up or turn it aside |
| `GuardGuarantees.UndisturbedRepairSettlesBoth` | src/engines/casper-guard/reconcile-worker.ts:288-297 | the read, the hot effect and the row effect alone leave both holds settled |
| `GuardReplay.ReplyTellsWhatHappened` | src/engines/casper-guard/policy.ts:438-472 | after any run a replay conflicts exactly with a call of other arguments, is refused exactly when that call was denied, and is allowed exactly when a signature of the signer was recorded |
| `GuardReplay.ReplyStands` | src/engines/casper-guard/policy.ts:438-472 | the answer a replay got is the answer every later replay gets; only "in progress" may become "allowed" |
| `GuardReplay.FailedAnswersForever` | src/engines/casper-guard/policy.ts:453-472 | a failed decision answers its key for ever: ALLOW with its signature if it had one, "in progress" otherwise |
| `GuardReplay.AbortedIsStillAllowed` | src/engines/casper-guard/policy.ts:460-466 | a concrete run after which a FAILED_TERMINAL decision is still answered with ALLOW |
| `GuardScenarios.UndisturbedCallSigns` | src/engines/casper-guard/policy.ts:249-285 | a call whose key is new, with nobody stopped and room under cap, velocity limit and float, ends SIGNED: its row holds its arguments, the signature and each hash in its column, with a RESERVED hold in both stores |
| `GuardOutcomes.SignedIsReconcilable` | src/engines/casper-guard/reconcile-worker.ts:103-131 | in every reached world a signed decision in flight has its signature and both its holds, so a reconcile of it starts from what the next rows assume |
| `GuardOutcomes.SeenSettledSettles` | src/engines/casper-guard/reconcile-worker.ts:153-173 | undisturbed, a payment seen settled ends SETTLED with both holds settled; the transaction and deploy hashes seen are recorded, each in its column, and where none was seen the stored one stays |
| `GuardOutcomes.SeenLostReleases` | src/engines/casper-guard/reconcile-worker.ts:181-226 | one seen expired ends EXPIRED and one seen failed FAILED_TERMINAL, each with the Redis hold gone and the Postgres hold RELEASED |
| `GuardOutcomes.SeenPendingWaits` | src/engines/casper-guard/reconcile-worker.ts:174-180 | one still pending or ambiguous ends EXPIRY_CHECK with both holds as they were |
| `GuardOutcomes.LateFailureReleases` | src/engines/casper-guard/policy.ts:292-318 | one that failed between the reading and the resolving keeps its status, and holds that its failure had not yet given back are given back |
| `GuardOutcomes.LateSettlementSettles` | src/engines/casper-guard/reconcile-worker.ts:288-297 | one that another call settled in the meantime has both its holds settled |
| `GuardOutcomes.LostSettlementIsLeft` | src/engines/casper-guard/reconcile-worker.ts:256-266 | a settlement that another call won leaves the holds to that call |
| `GuardOutcomes.FailedIsNotSettled` | src/engines/casper-guard/reconcile-worker.ts:256-266 | a decision that failed before it could be settled stays failed, and neither hold is settled |
| `GuardOutcomes.ResolvedElsewhereIsLeft` | src/engines/casper-guard/policy.ts:301-304 | a resolver that finds its decision gone, denied or settled gives nothing back |
| `GuardOutcomes.ClosedIsLeftAlone` | src/engines/casper-guard/reconcile-worker.ts:119-128 | a reconcile of a denied or failed decision ends at once and changes nothing |
| `GuardOutcomes.UnsignedThrows` | src/engines/casper-guard/reconcile-worker.ts:103-131 | one of an unknown decision, another agent's or an unsigned one throws before it changes anything |
| `GuardOutcomes.AbortReleasesBoth` | src/engines/casper-guard/policy.ts:600-615 | a revoke's abort of a decision that is not terminal ends with it FAILED_TERMINAL and both holds given back |
| `GuardOutcomes.StumbleFails` | src/engines/casper-guard/policy.ts:249-287 | a stopped org, a suspended agent, or a fault of a check, of the signer or of its mark turns the call to its failure before anything else is written |
| `GuardOutcomes.FailureReleases` | src/engines/casper-guard/policy.ts:600-615 | a failing call ends with its decision FAILED_TERMINAL, both holds given back and its idempotency key free |
| `GuardOutcomes.LostFailureIsLeft` | src/engines/casper-guard/policy.ts:600-608 | one whose decision another call has ended already leaves decision and holds to that call |
| `GuardOutcomes.FailedInsertReleases` | src/engines/casper-guard/policy.ts:211-247 | an insert that throws, or that an index refuses, gives the Redis hold back and leaves no row |
| `GuardOutcomes.SignedCallLeaves` | src/engines/casper-guard/policy.ts:276-290 | a call that has recorded its signature frees its idempotency key and changes nothing else |
| `GuardOutcomes.RefusedIsDenied` | src/engines/casper-guard/policy.ts:163-168 | a call that the policy or the kill switch refuses leaves a DENIED row with its arguments, no hold in either store and no call of the signer |
| `GuardOutcomes.NoRoomIsDenied` | src/engines/casper-guard/policy.ts:177-201 | so does one that the atomic reserve refuses, that is, one without room under cap, velocity limit or float |
| `GuardOutcomes.KnownKeyIsOnlyAnswered` | src/engines/casper-guard/policy.ts:158-162 | a call whose key has a decision already takes the lock, is answered, frees the lock and writes nothing else |
| `GuardOutcomes.LockedKeyIsOnlyAnswered` | src/engines/casper-guard/policy.ts:145-156 | a call whose key is locked is answered and writes nothing |
| `GuardOutcomes.OthersLockIsKept` | src/engines/casper-guard/policy.ts:501-504 | a call whose lock is gone or by now another's finishes without deleting any lock |
| `GuardProvenance.TerminalHasASource` | src/engines/casper-guard/reconcile-worker.ts:153-226 | over every run from empty stores: a decision is SETTLED only if a reconcile of it once saw it settled, EXPIRED only if one saw it expired, and a signed one is FAILED_TERMINAL only if one saw it fail or a revoke aborted it |
| `GuardProvenance.CommittedFailsOnlyIfTold` | src/engines/casper-guard/reconcile-worker.ts:203-226 | so a decision that was committed at any time and is FAILED_TERMINAL later was seen failed by a reconcile or aborted by a revoke |
| `GuardGates.KillSwitchIsAHardStop` | src/engines/casper-guard/policy.ts:249-254 | while an org's kill switch stays on, no decision of it is signed but those whose calls had passed the org check when it went on, in any interleaving |
| `GuardGates.OneCallAtATime` | src/engines/casper-guard/policy.ts:136-165 | as long as the lock of a key does not vanish by itself, at most one call of that org and key is between taking the lock and its end, crashes included |
| `GuardScenarios.UnmatchedRevokeStopsNothing` | src/engines/identity/delegation/revoke-agent-delegation.ts:28-40 | after a revoke that suspended no row, any otherwise clear call of that agent is still signed |
| `GuardScenarios.AbortOverwritesUnlessTerminal` | src/engines/casper-guard/policy.ts:600-615 | one abort step: a listed decision stays as it is if and only if it is terminal already, otherwise it becomes FAILED_TERMINAL; whole runs are the subject of `GuardRevoke` |
| `GuardScenarios.RevokeAbortsSigned` | src/engines/casper-guard/policy.ts:587-598 | a concrete run in which a decision signed after the listing is SIGNED and then made FAILED_TERMINAL by the revoke |
| `GuardRevoke.RevokeTouchesOnlyListed` | src/engines/casper-guard/policy.ts:587-598 | from its listing on, no step of a revoke changes the row, the Postgres hold or any Redis hold of a decision that was not RESERVED then, whatever becomes of that decision in the meantime |
| `GuardRevoke.AbortsSignedIffMaySign` | src/engines/casper-guard/policy.ts:600-615 | some run ends with a decision committed and then made FAILED_TERMINAL by the revoke if and only if it was RESERVED at the listing and its call, alive, had passed the agent check, or, where the revoke suspended nobody, still had a check before it |
| `GuardRevoke.NeverCommitted` | src/engines/casper-guard/policy.ts:249-274 | a decision of a suspended agent whose call has not passed the agent check, or is dead, is not committed in any later world |
| `GuardRevoke.StoppedNeverCommits` | src/engines/casper-guard/policy.ts:249-285 | what a dead call, or one that has turned to its failure or to its unlock, did not commit is committed in no later world |
| `GuardTables.SigningAdvances` | src/engines/casper-guard/store.ts:123-210 | marking signed or settled keeps the identity columns, moves the status forward and, once signed, keeps the signature |
| `GuardTables.FailingAdvances` | src/engines/casper-guard/store.ts:155-185 | marking failed, expired or for an expiry check does so too, and leaves terminal rows alone |
| `GuardTables.GuardStore.MarkCasperGuardDecisionSigned` | src/engines/casper-guard/store.ts:123-151 | the new tables and the answer: only a RESERVED, allowed decision with a RESERVED hold is marked, absent hashes keep the stored ones |
| `GuardTables.GuardStore.MarkCasperGuardDecisionTerminal` | src/engines/casper-guard/store.ts:155-168 | the new tables and the answer: any row that is not terminal is marked |
| `GuardTables.GuardStore.MarkCasperGuardDecisionExpiryCheck` | src/engines/casper-guard/store.ts:170-185 | the new tables and the answer: only signed or broadcasting, allowed rows with a signature |
| `GuardTables.GuardStore.MarkCasperGuardDecisionSettled` | src/engines/casper-guard/store.ts:187-210 | the new tables and the answer: only signed, broadcasting or expiry-checked allowed rows with a signature and a RESERVED hold |
| `GuardTables.GuardStore.SettleCasperGuardHold` | src/engines/casper-guard/store.ts:241-252 | only a RESERVED hold becomes SETTLED, and the answer says whether it did |
| `GuardTables.GuardStore.ReleaseCasperGuardHold` | src/engines/casper-guard/store.ts:254-265 | only a RESERVED hold becomes RELEASED, and the answer says whether it did |
| `GuardTables.GuardStore.CreateCasperGuardDecision` | src/engines/casper-guard/store.ts:267-272 | the insert is refused exactly when the id or the (org, key) pair is taken |
| `GuardTables.GuardStore.CreateCasperGuardDecisionAndHold` | src/engines/casper-guard/store.ts:274-291 | both rows or neither: a refused insert rolls the transaction back |
| `GuardTables.GuardStore.SuspendAgentRow` | src/engines/control/kill-switch.ts:29-38 | only a row of that org is suspended, and the answer says whether one matched |
| `GuardTables.ListForRevoke` | src/engines/casper-guard/store.ts:457-480 | the two lists are exactly the listed rows that are RESERVED, and those that are committed |
| `HoldLedger.HotLedger.ReserveHold` | src/engines/ledger/window.ts:111-130 | the Redis keys before and after stand for the map before and after: a new payment is held, a known one changes nothing, and the four windows, amounts, counter and id sets stay consistent |
| `HoldLedger.HotLedger.JudgeReserve` | src/redis/lua/reserve-with-policy.lua:117-157 | the gates on digit strings decide duplicate, velocity, cap and float exactly as the numbers do, in the script's order, and write nothing |
| `HoldLedger.HotLedger.ReserveHoldWithinPolicy` | src/engines/ledger/window.ts:152-191 | the outcome and the new map are those of the abstract policy reserve |
| `HoldLedger.ReserveAnswers` | src/redis/lua/reserve-with-policy.lua:117-157 | the exact condition of every answer: DUPLICATE for a recorded payment; RESERVED if and only if the holds of the 3600-second bucket and later are fewer than the limit, those of the 2592000-second bucket and later leave room for the amount under the cap, and the float, if checked, covers it beside what is consumed and held; and otherwise the first of these that fails |
| `HoldLedger.OnlyItsBucketsMatter` | src/redis/lua/reserve-with-policy.lua:117-157 | for a payment whose time no hold is after, holds of earlier buckets do not matter: counting and summing since the bucket's start is counting and summing the bucket |
| `HoldLedger.HotLedger.SettleHold` | src/engines/ledger/window.ts:198-212 | an outstanding hold becomes settled, stays in every window, and leaves the reserved counter; anything else changes nothing |
| `HoldLedger.HotLedger.ReleaseHold` | src/engines/ledger/window.ts:219-237 | an outstanding hold disappears from all keys; a settled or unknown one changes nothing |
| `HoldLedger.HotLedger.WindowSum` | src/engines/ledger/window.ts:245-262 | whichever window is asked, the sum is that of the abstract holds since the given time |
| `HoldLedger.HotLedger.FloatFallsShort` | src/redis/lua/reserve-with-policy.lua:142-157 | the string comparison and subtraction decide whether the amount exceeds confirmed minus consumed minus reserved |
| `HoldLedger.HotLedger.MonthTotal` | src/redis/lua/reserve-with-policy.lua:126-133 | the member-by-member addition of digit strings is the sum of the holds in the window |
| `HoldLedger.Keys.HoldWritten` | src/redis/lua/reserve.lua:60-71 | writing a hold keeps the representation valid, counter included, and adds exactly that hold to the map |
| `HoldLedger.Keys.HoldSettled` | src/redis/lua/settle.lua:74-88 | moving an id between the sets and lowering the counter keeps the representation valid and settles exactly that hold |
| `HoldLedger.Keys.HoldRemoved` | src/redis/lua/release.lua:78-98 | the removals keep the representation valid and remove exactly that hold |
| `HoldLedger.Keys.MembersSince` | src/engines/ledger/window.ts:239-262 | the members of a sorted set from a score on are exactly what a sum or count since then ranges over |
| `HoldLedger.Keys.IdSetsDecide` | src/redis/keyspace.ts:26-37 | the two id sets tell for every recorded payment whether it is outstanding or settled |
| `HoldLedger.RunKeepsPolicy` | src/engines/ledger/window.ts:139-191 | over any sequence of reserves, settles and releases no tumbling bucket exceeds the cap or the velocity limit |
| `HoldLedger.EveryRunKeepsPolicy` | src/engines/ledger/window.ts:139-191 | so whatever sequence of scripts filled an agent's keys, cap and velocity limit hold in every bucket |
| `HoldLedger.PolicyReserveIsSolvent` | src/redis/lua/reserve-with-policy.lua:142-157 | a reserve that passed the float gate leaves consumed plus outstanding holds within the confirmed float |
| `HoldLedger.SettledForever` | src/engines/ledger/window.ts:193-237 | settled spend never leaves its window, whatever scripts follow |
| `HoldLedger.ReplayChangesNothing` | src/engines/ledger/window.ts:103-237 | repeating a script, releasing what is settled or settling what is released changes nothing and says so |
| `HoldLedger.SnapshotWindows` | src/engines/ledger/window.ts:23-30 | each of the four boundaries is the multiple of its width that the time falls after |
| `DecimalText.AddDecimal` | src/redis/lua/reserve-with-policy.lua:63-86 | digit-string addition is exact at any length and canonical |
| `DecimalText.BorrowSubtract` | src/redis/lua/reserve-with-policy.lua:90-115 | digit-string subtraction of a smaller number is exact |
| `DecimalText.SubtractDecimal` | src/redis/lua/release.lua:49-76 | the clamped subtraction is exact above zero and zero otherwise |
| `DecimalText.CompareDecimal` | src/redis/lua/reserve-with-policy.lua:45-61 | comparing normalized strings by length and then by character is comparing numbers |
| `DecimalText.Normalize` | src/redis/lua/reserve-with-policy.lua:36-43 | stripping leading zeros keeps the value and gives the canonical numeral |
| `DecimalText.ValueOfPrint` | src/engines/ledger/window.ts:125 | the decimal text that an amount is passed as reads back as that amount |
| `DecimalText.PrintOfValue` | src/engines/ledger/window.ts:258-261 | a canonical numeral read as a number prints as itself, so numbers and canonical numerals correspond one to one |
| `FloatTheorems.AlwaysSolvent` | src/engines/enforcement/allocation-eval.ts:104-121 | over all interleavings of deposits, confirms, teardowns and crashes, committed plus reserved never exceeds the credited deposits nor the budget |
| `FloatTheorems.NeverNegative` | src/engines/provisioning/teardown.ts:116-147 | no counter of the org or of any agent goes below zero |
| `FloatTheorems.CountersAddUp` | src/engines/provisioning/confirm.ts:68-77 | at every step committed is the agents' confirmed float plus what teardowns hold between two decrements, reserved and pending are what in-flight deposits hold, and the cold ledger balances for every id |
| `FloatTheorems.FateIsFinal` | src/engines/provisioning/confirm.ts:13-17 | no allocation is both promoted and cancelled, and the winner stays the winner |
| `FloatFinality.FateFollowsFinality` | src/engines/provisioning/confirm.ts:55-66 | over every run, crashes included: a deposit is promoted, and booked in the cold ledger, only if the chain once answered a process that asked about it that it is final; it is cancelled only if the chain once answered that it is not, or gave no readable answer |
| `FloatAlone.ConfirmAlone` | src/engines/provisioning/confirm.ts:43-96 | a confirm that nobody disturbs does, within six steps of the protocol, to the stores what confirmDeposit is specified to do in one go, with the same answer |
| `FloatAlone.TeardownAlone` | src/engines/provisioning/teardown.ts:78-147 | any run of a teardown's own steps to its end, from any reached world and for any finality answers, comes to what `TeardownAgent` is specified to do, and leaves in float_pending exactly what was stranded before it |
| `FloatAlone.TeardownEnds` | src/engines/provisioning/teardown.ts:78-147 | from wherever it stands there is such a run to its end, whatever the chain answers |
| `FloatAlone.SubmittedDeposit` | src/engines/provisioning/deposit.ts:100-157 | an undisturbed deposit with room that is submitted and funded ends reserved, pending, recorded under its own arguments and listed in its agent's index, as `DepositFor` says |
| `FloatAlone.FailedDeposit` | src/engines/provisioning/deposit.ts:100-131 | one whose submission or funding fails leaves every key as it was |
| `FloatAlone.RefusedDeposit` | src/engines/provisioning/deposit.ts:78-100 | one that the rules deny, or without room below budget or deposits, ends at once and leaves every key as it was |
| `FloatTheorems.HotAndColdAgree` | src/engines/ledger/events.ts:153-186 | when nobody is at work, an agent's confirmed float is its net in the cold ledger, committed is the sum of the agents' floats, and reserved the sum of the PENDING records |
| `FloatRuns.RunKeeps` | src/engines/provisioning/deposit.ts:78-157 | the accounting invariant survives every interleaving, crashes included |
| `FloatRuns.InitialKeeps` | src/engines/provisioning/deposit.ts:78-157 | the accounting invariant holds of empty stores |
| `FloatStore.ReserveIsSolvent` | src/redis/lua/allocation-reserve.lua:25-45 | the script reserves if and only if both ceilings have room, reports the budget first, and leaves both ceilings kept |
| `FloatStore.RecordedPair` | src/engines/ledger/events.ts:153-186 | the pair balances every id, moves the agent's float by the amount in the direction of its kind, and leaves float plus treasury as they were |
| `FloatStore.SweepSweepsOne` | src/engines/provisioning/teardown.ts:98-129 | one turn of the sweep, for any finality answer, resolves its deposit: pending and reserved fall by its amount, confirmed and committed rise by it exactly if it was final, nothing else moves |
| `FloatStore.Provisioning.ReserveAllocation` | src/redis/lua/allocation-reserve.lua:25-45 | the answer 1, 0 or -1 and the new counter are those of the specified reserve |
| `FloatStore.Provisioning.EvaluateAllocation` | src/engines/enforcement/allocation-eval.ts:77-122 | exactly when each verdict is given, and that only an allowed request changes the reserved counter |
| `FloatStore.Provisioning.DepositFor` | src/engines/provisioning/deposit.ts:78-157 | exactly when each outcome is given; every outcome but SUBMITTED leaves all counters as they were; a submitted deposit is pending, indexed, still reserved and within both ceilings |
| `FloatStore.Provisioning.ConfirmAllocation` | src/redis/lua/confirm-allocation.lua:1-15 | single-winner promotion: counters move together, and only from PENDING |
| `FloatStore.Provisioning.CancelAllocation` | src/redis/lua/cancel-allocation.lua:1-15 | single-winner cancel: counters move together, and only from PENDING |
| `FloatStore.Provisioning.ConfirmDeposit` | src/engines/provisioning/confirm.ts:43-96 | the new store and the result for a pending or unknown record and each finality answer |
| `FloatStore.Provisioning.RecordAllocation` | src/engines/ledger/events.ts:153-186 | appends exactly the pair that `RecordedPair` is about |
| `FloatStore.Provisioning.SweepPending` | src/engines/provisioning/teardown.ts:99-128 | one turn of the loop does what `SweepSweepsOne` is about, and says whether this call resolved the deposit |
| `FloatStore.Provisioning.SweepIndex` | src/engines/provisioning/teardown.ts:97-129 | after the loop the index is empty and every figure has moved by the sum over the listed ids, in whatever order they came |
| `FloatStore.Provisioning.TeardownAgent` | src/engines/provisioning/teardown.ts:78-147 | alone, for any finality answers: index and confirmed float end empty, pending and reserved fall by the sum of the indexed deposits, committed by the old confirmed float, withdrawn is that float plus what was promoted; `TeardownStrandsNothing` says what this comes to in a reached world |
| `FloatStranding.TeardownStrandsNothing` | src/engines/provisioning/teardown.ts:93-147 | from every world that a run reaches, for any finality answers: index and confirmed float end empty, committed falls by the old confirmed float, and float_pending ends at what was stranded; so it ends at zero, and reserved falls by exactly the old pending, if and only if no positive deposit stands between its counter and its index entry |
| `FloatStranding.IndexAccountsForPending` | src/engines/provisioning/deposit.ts:132-154 | after any run the index holds only the agent's own deposits and every PENDING record of a finished call, and its sum is float_pending if and only if no positive deposit stands between its counter and its index entry |
| `FloatStranding.RunIndexes` | src/engines/provisioning/teardown.ts:97-129 | at every step of every run, crashes included: index entries and ids being swept belong to finished deposit calls, and what a sweep only tidies is not PENDING |
| `FloatStranding.CrashStrandsDeposit` | src/engines/provisioning/deposit.ts:132-154 | a run: a call that stops right after raising float_pending, then a whole teardown, leaves the amount in float_pending and in the reserve |
| `PolicyCompile.SpendMeansEveryLayer` | src/engines/control/policy-compile.ts:39-53 | the compiled spend policy admits a payment if and only if every layer admits it |
| `PolicyCompile.AllocationMeansEveryLayer` | src/engines/control/policy-compile.ts:55-63 | the compiled allocation policy admits an allocation if and only if every layer admits it |
| `PolicyCompile.CompiledIsGreatest` | src/engines/control/policy-compile.ts:39-53 | a policy narrows the compiled one if and only if it narrows every layer |
| `PolicyCompile.CompiledAllocationIsGreatest` | src/engines/control/policy-compile.ts:55-63 | the same for allocation policies, where a longer cooldown is narrower |
| `PolicyCompile.MoreLayersAdmitLess` | src/engines/control/policy-compile.ts:39-53 | adding layers anywhere never admits a payment that was refused |
| `PolicyCompile.MoreLayersAllocateLess` | src/engines/control/policy-compile.ts:55-63 | adding layers anywhere never admits an allocation that was refused |
| `PolicyCompile.OrderIsIrrelevant` | src/engines/control/policy-compile.ts:39-53 | reordering layers changes neither what is admitted nor any bound |
| `PolicyCompile.AllocationOrderIsIrrelevant` | src/engines/control/policy-compile.ts:55-63 | the same of allocation layers, whose cooldown is a maximum |
| `PolicyCompile.IntersectAll` | src/engines/control/policy-compile.ts:33-37 | keeps exactly the elements of every layer, in the first layer's order; nothing for no layers |
| `PolicyCompile.ReduceMin` | src/engines/control/policy-compile.ts:22-27 | is one of the values and below all of them |
| `PolicyCompile.ReduceMax` | src/engines/control/policy-compile.ts:28-30 | is one of the values and above all of them |
| `EpochCache.NeverBehindTheEdit` | src/engines/enforcement/policy-epoch-guard.ts:41-65 | a resolve that starts after an edit mirrored its epoch serves only the compile of a committed state of that epoch or later, whatever late publishes, evictions and out-of-order bumps interleave |
| `EpochCache.SpendLayersExactly` | src/engines/control/store.ts:247-288 | a spend policy is among the layers if and only if it is the last version of the policy of some spend assignment that reaches the agent |
| `EpochCache.AllocationLayersExactly` | src/engines/control/store.ts:247-288 | the same of allocation policies |
| `EpochCache.CompiledGrants` | src/engines/control/store.ts:247-288 | the effective policy grants a payment or an allocation if and only if the last version under every assignment of that class does |
| `EpochCache.CompiledExists` | src/engines/control/publish.ts:34-50 | there is an effective policy if and only if some assignment brings rules of each class |
| `EpochCache.EditBinds` | src/engines/control/store.ts:290-346 | after an edit of an assigned policy, of either class, the compiled policy grants nothing that the new version refuses |
| `EpochCache.EditIsRead` | src/engines/control/store.ts:247-288 | after an edit an assignment of the policy brings the new version and no other, of either class |
| `EpochCache.RunKeeps` | src/engines/control/epoch.ts:28-50 | over any run blob and served policies are compiles of committed states, the counter is never ahead of Postgres nor behind a mirrored edit, and commits and counter only grow |
| `EpochGuarantees.AssignmentIsSeenIff` | src/engines/control/store.ts:220-236 | an undisturbed resolve after a new assignment answers with the layers as they now are if and only if the blob was not fresh or already equals that compile; a fresh blob is answered as it was |
| `EpochGuarantees.AssignmentIsNotSeen` | src/engines/control/store.ts:220-236 | from any initial world that compiles: after filling the cache and assigning one more spend policy, the policy served still admits the payments that the new layer refuses, while the layers as they now are compile to one that refuses them |
| `EpochGuarantees.TightAssignmentIsIgnored` | src/engines/control/store.ts:220-236 | one such run with its numbers |
| `EpochGuarantees.ResolvesAlone` | src/engines/enforcement/policy-epoch-guard.ts:41-65 | what a resolve without interleaving leaves in blob, counter and answer: fresh, recompiled, or thrown |
| `EpochGuarantees.ServesTheBlobIff` | src/engines/enforcement/policy-epoch-guard.ts:34-65 | such a resolve serves the blob, and changes nothing, if and only if blob and counter are there and the blob's epoch is not below the counter; otherwise it serves the compile of the layers as they are and leaves it in the blob under a counter that has caught up, or throws and changes nothing |
| `EpochGuarantees.RepublishAlone` | src/engines/control/publish.ts:34-50 | a republish without interleaving leaves the compile of the layers in the blob, or the old blob where a class has no layer, and the counter as it was |
| `EpochGuarantees.ServedPolicyBindsTheEdit` | src/engines/control/store.ts:136-171 | whatever interleaves, for payments and for allocations: a resolve that starts after the edit of an assigned policy has mirrored its epoch serves the compile of that commit or a later one, bound by the latest version of the policy there, and by the edit itself while no further version exists |
| `EpochCache.PolicyStore.CreatePolicyVersion` | src/engines/control/store.ts:136-171 | appends the next version under the next number and the next epoch, together |
| `EpochCache.PolicyStore.AssignPolicy` | src/engines/control/store.ts:220-236 | adds the assignment and leaves the epoch alone |
| `EpochCache.PolicyCache.BumpOrgEpoch` | src/redis/lua/epoch-bump.lua:14-19 | the counter becomes the larger of the two, and the answer says whether it advanced |
| `EpochCache.PolicyCache.RecompileAgentPolicy` | src/engines/control/publish.ts:34-50 | publishes the compile of the snapshot; a class without a layer throws and publishes nothing |
| `EpochCache.PolicyCache.ResolveEffectivePolicy` | src/engines/enforcement/policy-epoch-guard.ts:41-65 | alone, it serves a fresh blob untouched, or recompiles and leaves the cache fresh with what it served |
| `AuditAnchor.AnchoringNeverReverts` | src/engines/casper-guard/reconcile-worker.ts:299-352 | over all interleavings of workers, stale takeovers, retries and repeated executions: AnchorImmutable never fires, the counter counts distinct ids, all deploys for a decision carry one hash, a confirmed row's hash is the only one that can be on chain |
| `AuditAnchor.ConfirmedForever` | src/engines/casper-guard/store.ts:399-449 | a confirmed anchor row never changes |
| `AuditAnchor.ConfirmedIsAnchoredOnceRun` | src/engines/casper-guard/store.ts:423-437 | after any run from empty stores: a confirmed row's deploy was accepted, its hash is on chain if and only if the chain has executed a deploy for the decision, and the next execution of it anchors it without a revert |
| `AuditAnchor.AnchoredForever` | contracts/odra-guard-registry/src/lib.rs:25-35 | an anchor on chain keeps its hash in every later world |
| `AuditAnchor.AnchoredIffExecuted` | contracts/odra-guard-registry/src/lib.rs:25-35 | from an empty registry, a decision is on chain exactly when an accepted deploy for it was executed |
| `AuditAnchor.ConfirmedBeforeExecution` | src/engines/casper-guard/reconcile-worker.ts:299-352 | from empty stores, for every settled decision: after one undisturbed pass of a worker the row is confirmed and the hash not on chain, until its deploy is executed |
| `AuditAnchor.TryConfirms` | src/engines/casper-guard/store.ts:399-437 | in any world: where there is no row, a failed one or a stale claim, an undisturbed try ends with the row confirmed under the transaction answered and the deploy submitted |
| `AuditAnchor.FailedTryMayBeRepeated` | src/engines/casper-guard/store.ts:439-449 | a try whose submission fails leaves the row failed, whether or not the network took the deploy, and so open to the next try |
| `AuditAnchor.OthersTryIsLeftAlone` | src/engines/casper-guard/store.ts:399-421 | where another's claim is fresh, or the row is confirmed, a try changes neither rows nor deploys |
| `AuditAnchor.SealedStays` | src/engines/casper-guard/reconcile-worker.ts:379-399 | the hash of a SETTLED decision is the same for ever: every hashed field is frozen |
| `AuditAnchor.AnchorSealsTheDecision` | src/engines/casper-guard/reconcile-worker.ts:379-399 | after any run, what is on chain, in a row or in a deploy for a decision is the digest of that decision as it is now: SETTLED, with its org, agent, amount, intent, policy, outcome, signature and both hashes |
| `AuditAnchor.RunKeeps` | src/engines/casper-guard/reconcile-worker.ts:299-352 | every row, deploy, anchor and worker carries the one hash its decision can have |
| `AuditAnchor.AnchoringIsImmutable` | contracts/odra-guard-registry/src/lib.rs:25-35 | an anchor never changes, a call reverts exactly on a second hash for an id, and the counter stays the number of ids |
| `AuditAnchor.GuardRegistry.AnchorDecision` | contracts/odra-guard-registry/src/lib.rs:25-35 | the contract's method does what `AnchoringIsImmutable` is about |
| `AuditAnchor.GuardRegistry.GetAnchor` | contracts/odra-guard-registry/src/lib.rs:37-39 | the stored hash, and nothing for an unknown id |
| `AuditAnchor.GuardRegistry.TotalAnchored` | contracts/odra-guard-registry/src/lib.rs:41-43 | the number of distinct anchored ids |
| `JsonText.PrintedIsRead` | src/engines/casper-guard/policy.ts:549-556 | a reader of JSON text (RFC 8259, with its own table of escapes) takes from printed text followed by a delimiter exactly the value and leaves the rest |
| `JsonText.PrintRoundTrip` | src/engines/casper-guard/policy.ts:549-556 | reading the printed text of a value gives the value |
| `JsonText.PrintUnique` | src/engines/casper-guard/policy.ts:549-556 | from printed text followed by a delimiter both the value and the rest can be read off |
| `JsonText.PrintInjective` | src/engines/casper-guard/policy.ts:549-556 | two values have one text if and only if they are equal, escapes of section 7 of RFC 8259 included |
| `CanonicalJson.StableJsonIsExact` | src/engines/casper-guard/policy.ts:549-556 | where no two distinct keys of one object tie, two values have one stable text if and only if they are equal up to member order at every depth |
| `CanonicalJson.BrokenIsTotal` | src/engines/casper-guard/policy.ts:552 | breaking the ties of any consistent comparator gives a total order, so sorting by either is the same where nothing ties |
| `CanonicalJson.TiesBreakCanonicity` | src/engines/casper-guard/policy.ts:552 | for any comparator under which two distinct keys tie there are equal objects with different texts |
| `CanonicalJson.ReplayMatchesSameIntent` | src/engines/casper-guard/policy.ts:527-547 | a stored decision matches a repeated call if and only if agent and policy are the same and the intents are equal up to member order, whatever the columns compute from the texts of the intent |
| `BalancedObject.ExtractBalancedJsonObject` | src/lib/casper/cspr-trade.ts:163-195 | on any text: the shortest stretch from the first brace that closes outside strings, and null only if no stretch does |
| `BalancedObject.ObjectCloses` | src/lib/casper/cspr-trade.ts:163-195 | the text of an object closes at its own end and nowhere before, whatever follows |
| `BalancedObject.EmbeddedObjectIsExtracted` | src/lib/casper/cspr-trade.ts:163-195 | after any prefix without a brace and before any suffix, exactly the object is extracted, however it is spaced and escaped |
| `BalancedObject.PrintedObjectIsExtracted` | src/lib/casper/cspr-trade.ts:163-195 | a printed JSON object embedded in prose is extracted as it was printed |
| `TokenUnits.WholeTokensAreExact` | src/lib/casper/cspr-trade.ts:235-243 | for every amount and number of decimals the printed whole-token amount reads back as the same base units |
| `TokenUnits.NoTrailingZeros` | src/lib/casper/cspr-trade.ts:235-243 | there is a point exactly when there is a fraction, and then no bare point and no trailing zero |
| `TokenUnits.SubmitUsesTheQuotedTrade` | src/lib/casper/cspr-trade.ts:515-533 | the swap that submit builds names the quoted tokens and its amount, read at nine decimals, is the quoted amount of base units, if and only if neither symbol contains an underscore |
| `TokenUnits.WholeNumbersArePlain` | src/lib/casper/cspr-trade.ts:235-243 | a whole number of tokens, quoted in base units, is submitted as its numeral |
| `TokenUnits.MissingPartsDefault` | src/lib/casper/cspr-trade.ts:526-533 | an id with fewer parts is read as a swap of CSPR for sCSPR of amount zero, as far as parts are missing |
| `GraphCompiler.ValidateGraph` | src/engines/control/graph-builder/validate.ts:23-134 | the errors are exactly the rules that the graph violates; none if and only if it is valid |
| `GraphReading.RulesAreOfTheGraph` | src/engines/control/graph-builder/validate.ts:38-121 | each rule is violated exactly when the nodes and edges say so: not one ceiling, no fleet, no edge from the first ceiling to the first fleet, an agent with other than one containing edge from a fleet, a trader without an edge to a guardrail for trades, a sub-cap over the first ceiling's maximum |
| `GraphReading.ParentsAreCounted` | src/engines/control/graph-builder/validate.ts:56-65 | the parents of an agent are the edges that contain it and come from a fleet, counted one by one |
| `GraphReading.GuardrailsAreGoverned` | src/engines/control/graph-builder/validate.ts:68-84 | an agent has a guardrail if and only if a governing edge leads from it to an id whose last holder is that guardrail |
| `GraphReading.GuardrailPlaces` | src/engines/control/graph-builder/compiler.ts:83-101 | one for each such edge, in the order of the edges |
| `GraphReading.OneTraderIsValid` | src/engines/control/graph-builder/validate.ts:38-121 | a ceiling over a fleet over a guarded trader is valid if and only if the trader's sub-cap is within the ceiling's maximum |
| `GraphReading.CompilesIff` | src/engines/control/graph-builder/compiler.ts:59-74 | a graph compiles if and only if it has a ceiling and a fleet |
| `GraphReading.RolePerAgent` | src/engines/control/graph-builder/compiler.ts:83-118 | every agent of the graph has its role, in the order of the nodes, with its own name, actions, scope, velocity, guardrails, and its sub-cap as spend cap and per-transaction maximum |
| `GraphReading.HeadOfConfig` | src/engines/control/graph-builder/compiler.ts:67-81 | name and ceiling are those of the first fleet and the first ceiling; the flow is the first flow, or version 1 under the fleet's name |
| `GraphReading.AttachmentPerNode` | src/engines/control/graph-builder/compiler.ts:120-130 | every grant intent and every service rail is carried over, in the order of the nodes |
| `GraphCompiler.ValidGraphsCompile` | src/engines/control/graph-builder/compiler.ts:59-143 | every valid graph compiles, into roles whose caps are within the per-agent maximum and whose traders have a trading guardrail |
| `GraphHydration.ConfigToGraph` | src/engines/control/graph-builder/compiler.ts:146-224 | the nested pushes build the specified nodes and edges |
| `GraphHydration.DrawnExactly` | src/engines/control/graph-builder/compiler.ts:146-224 | the edges of the canvas are exactly: ceiling to fleet to flow, flow to every agent, every agent to each of its guardrails, and to each grant that names its id |
| `GraphHydration.IdsAreSpelled` | src/engines/control/graph-builder/compiler.ts:168-188 | the ids of agents and guardrails, spelled out |
| `GraphHydration.RoundTrip` | src/engines/control/graph-builder/compiler.ts:146-224 | compiling the graph of a coherent configuration gives that configuration back |
| `GraphHydration.CompileHydrateCompile` | src/engines/control/graph-builder/compiler.ts:59-224 | for every graph that compiles, valid or not: compile, hydrate, compile is compile |
| `GraphHydration.HydratedIsValidIffNoRoles` | src/engines/control/graph-builder/validate.ts:48-65 | the drawn graph passes validation if and only if the flow has no role |
| `ReconcileAttempts.AttemptsAreGapFree` | src/engines/casper-guard/reconcile-worker.ts:228-249 | over any interleaving of reconciles, retries and crashes the stored numbers are exactly 1 to n |
| `ReconcileAttempts.AppendedStays` | src/engines/casper-guard/reconcile-worker.ts:228-249 | the number a call appended under is stored for good |
| `ReconcileAttempts.FiveRefusals` | src/engines/casper-guard/reconcile-worker.ts:228-245 | a call that does not crash gives up exactly when its fifth insert is refused, and stands at each retry after as many refusals |
| `ReconcileAttempts.NextAttemptNumber` | src/engines/casper-guard/reconcile-worker.ts:247-249 | is above every number, and one more than the highest or one |
| `ReconcileAttempts.AttemptLog.AppendReconciliationAttempt` | src/engines/casper-guard/reconcile-worker.ts:228-245 | the retry loop alone always appends one unused number, at the second try at the latest |

## Left out

- EndToEndCap: the policy of an agent is fixed during the run, amounts are natural numbers, and the bucket is that of the clock reading the call was given.
- OneDecisionPerKey: a call that crashed between reserve and insert keeps its Redis hold and is not counted as finished; `OrphanHolds` says so exactly.
- PolicyReserveIsSolvent: a statement about the moment of the reserve; nothing modelled writes `consumed`, so lifetime solvency of settled spend is not claimed.
- HotAndColdAgree: stated for worlds in which no call stopped half-way; `CountersAddUp` is the statement that survives crashes.
- NeverBehindTheEdit: about edits that add a version; assignments are covered by `AssignmentIsSeenIff`. The agent's team ancestry is fixed, and the epoch counter is not evicted.
- StableJsonIsExact: the comparator is a parameter, and that the field names of an intent do not tie under it is assumed of ICU; ICU collation itself is not part of this model, nor is the reordering of integer-like keys by the second stringifier (`reconcile-worker.ts:401-413`).
- PrintInjective: a number is the numeral that JSON.stringify writes for it; lone surrogates do not occur in a text.
- AnchoringNeverReverts: the hash function is any function of the hashed fields; collisions play no part. The u64 counter is a natural number.
- ReserveIsSolvent: allocation-reserve.lua compares Lua numbers, which are exact up to 2^53 only; the model uses integers.
- SettleHold: the branch at settle.lua:79-83 for a hold without an amount is dead under the representation invariant and is not written out, nor is the skipped amount in the two sums.
- ValidateGraph: an error carries its rule, agent and numbers, not its wording.
- TeardownAgent: the call on its own; what the two sweeping processes of the protocol do to each other is `CountersAddUp` and `FateIsFinal`. The gateway's reclaim is one step that succeeds.
- ListForRevoke: the SELECT's filter is part of the step that reads the rows, the loop that splits them is modelled here.
- Two teardowns of one agent at the same time, reinstating or retiring an agent after a revoke, and lost commit acknowledgements do not happen in the model.
- The release steps after a failure do not themselves throw; any other I/O error is a fault choice of the step or a crash, followed for the lock by its expiry. Redis expiry times and 64-bit counters are not part of this model.
- The guard's rail, scope, per-transaction and slippage rules are one nondeterministic answer of the policy step in the protocol; what the numeric part of a policy admits is `PolicyCompile`.
- Settlement of user-broadcast transfers through MCP, which ignores whether its own mark succeeded.
- Signing, hashing, key storage, settlement reading and finality are answers from outside; network calls, routes, authentication, rate limits and telemetry are not part of this model.
- The WCSPR sweep and the gateway calls of teardown and deposit appear only as their success or failure.
- Texts that are no row of digits, and the other notations that BigInt reads, are outside the ledger and the token model; callers pass printed bigints.
- Reputation and watermark arithmetic, org seeding, trading-flow attachment and graph deployment.
