# A verified model of the Geth durable approval and effect protocol

Geth is a local agent runtime. It asks its owner to approve one exact sandbox write,
performs it once, verifies it, and keeps a hash-chained journal of everything it did. This
project models the parts where that promise is hard to keep and proves what they guarantee:

- the event journal, the projections folded from it, and the repositories over both;
- the approval, broker and effect protocol, with a crash between any two steps;
- startup recovery of interrupted writes;
- the hash chain and its verification;
- bounded consensus with retries, and call budgets across stages and restarts;
- the canonical JSON codec, action digests, path validation and timestamp texts;
- the memory tables and their search index.

`dafny verify dfyconfig.toml` checks the whole project.

## How the model is laid out

| module | models |
|---|---|
| `Domain`, `TextOrder` | closed vocabularies, the lifecycle graph, text order |
| `Projections`, `Repositories`, `Store`, `Authority` | the reducer, each repository operation as a function on the database value, the class whose methods do the same in place, and what each operation means to its caller |
| `Histories`, `Invariants`, `Replay`, `Growth`, `Lifecycle` | operations as micro steps, the invariants every one of them keeps, theorems over whole histories, and how long a run stays where it ended |
| `Protocol`, `Effects`, `Gates`, `Progress`, `Crashes`, `Races` | the approve flow as a step system, with its two policy decisions and its two budget charges, its safety over every interleaving, what each of its tests decides, how far it gets when undisturbed, what a crash leaves at each stage, what a cancellation and the emergency stop prevent |
| `Recovery`, `Restart`, `Idempotence`, `Blocking`, `RecoveryService` | what recovery submits, theorems about it, exactly when it is idempotent under crashes, exactly when it takes a run down, and the class that runs its loop |
| `Scenario` | one concrete installation from the empty database on, which shows that the assumptions of the theorems about the flow, crashes and recovery hold together |
| `Broker`, `Agreement` | one tool invocation as sequential code over the store, and that the flow of `Protocol` does the same |
| `Chain` | journal rows, their hashes and `verify_rows` |
| `Consensus`, `Boundary`, `Budget` | deliberation and its accounting, the provider boundary over a shared ledger, the budget charge |
| `Json`, `JsonCodec`, `Utf8`, `Actions`, `TimeText` | printer and parser (RFC 8259 sections 2 and 4 to 7), UTF-8, action digests, UTC timestamps (RFC 3339 sections 5.1 and 5.6) |
| `Paths`, `Policy`, `Files` | path validators, policy decisions, the no-overwrite installer and bounded reads |
| `Memory` | memory rows, supersession chains and the full-text index rows |

Conventions. An operation that raises returns its reply and the unchanged database. SHA-256
is a function parameter; each theorem that needs it names the texts on which it must not
collide, so no global injectivity is assumed. Instants are microseconds; `TimeText` proves
that comparing the stored texts is comparing the instants. A repository transaction is one
step, and steps of different processes interleave freely. In `Protocol` a step of the
approve flow is one repository transaction or one file-system call; `Client` steps are all
other repository operations, among them those of recovery, of `deny`, `cancel` and the work
items, and of a failing flow that moves its run to FAILED.

## What the code does that its documentation does not say

- `docs/architecture.md:85` says cancellation wins races through version checks. The
  repository cancel checks neither state nor version, so it overwrites a run that completed
  after the state was tested (`Scenario.CompletedCanBeOverwritten`). A run that is over stays
  as it ended exactly when no cancellation of it is committed afterwards
  (`Lifecycle.EndedUnlessStopped`, `Lifecycle.LegalIffCancelledInTime`).
- `docs/architecture.md:152` has the result and the consumption in one transaction. The
  broker records SUCCEEDED and consumes in two, so a crash between them leaves the approval
  CLAIMED and the run EXECUTING, and recovery does not pick that call up
  (`Crashes.CrashOutsideRunningIsNotSelected`, `Restart.RunLeftAlone`).
- A crash between the link and the unlink leaves the right file under two names; recovery
  refuses it and blocks (`Crashes.CrashBeforeUnlinkIsBlocked`).
- The commit order in `recovery.py` is meant for restart idempotence. An uninterrupted
  recovery reconciles a call with all its authority exactly when every interrupted call of
  its run can be reconciled; then cutting it anywhere and running it again ends the same
  (`Idempotence.CrashRestartIsIdempotent`).
- A crash between the RecoveryBlocked event and the run's transition takes the call out of
  every later selection. Later recoveries still take the run down exactly when some other
  interrupted call of it cannot be reconciled; with none, the run is left as it was
  (`Blocking.BlockCutIsLost`).
- The precommit check makes sure that the budget covers the write, not that it covers the
  read-back, which is a tool call of its own with its own policy decision and charge. With
  one tool call left, which `config.py:34` admits for a whole run, or with no more bytes left
  than the content has, the file is installed and the approval consumed, the read-back is
  refused, and `approve` raises with the run in VERIFYING. An undisturbed flow completes
  exactly when two calls, one byte more than the content, and the content twice over are
  left (`Progress.UndisturbedFlowCompletes`, `Scenario.OneCallStrandsTheRun`).
- `docs/constitution.md:35` lets no effect begin after a stop is observed. A cancellation
  committed before the precommit check keeps the file out for good; committed between the
  check and the link it does not stop the link (`Races.CancellationRace`). The emergency stop
  is no different (`Races.StopRace`).

## Model

| member | source | states |
|---|---|---|
| Domain.LifecycleIsBounded | src/geth_ai/domain/transitions.py:28-81 | Every chain of legal run transitions strictly advances; none is longer than six edges. |
| Domain.EnteredFrom | src/geth_ai/domain/transitions.py:28-81 | Each state is entered exactly from the states named: RECEIVED from none, EXECUTING only from AWAITING_APPROVAL, COMPLETED only from VERIFYING, FAILED from any live state but AWAITING_APPROVAL, BLOCKED from any live state but RECEIVED, CANCELLED from any live state. |
| Domain.CompletionPassesVerification | src/geth_ai/domain/transitions.py:28-81 | On every legal path from RECEIVED, COMPLETED directly follows VERIFYING, and EXECUTING comes after AWAITING_APPROVAL, PLANNING and TRIAGED. |
| Projections.ApplyIgnoresActions | src/geth_ai/persistence/projections.py:32-355 | The reducer never reads the private action columns: on tables that agree elsewhere it raises alike and keeps them in agreement, for every event type. |
| Histories.ExecIsMicros | src/geth_ai/persistence/repositories.py:213-806 | Every repository operation is exactly a list of guarded event appends (a request also retains its action), and one that raises is none. |
| Invariants.InvExec | src/geth_ai/persistence/event_store.py:85-176 | One operation of any kind, committed or raised, keeps journal numbering, replay agreement, run versions and single use of approvals; a checked one keeps the run history legal. |
| Growth.ExecGrows | src/geth_ai/persistence/repositories.py:213-806 | A checked operation only extends the journal, keeps every approval and call binding and every claimant, never revives a cancelled run, and completes a run only if it is that very transition. |
| Replay.ReplayEqualsLive | src/geth_ai/persistence/event_store.py:85-176 | After any history, the tables equal the fold of the journal except for the private action columns; the fold never raises; versions count run-state events; each approval was claimed and consumed at most once. |
| Replay.RebuildRemovesAuthority | src/geth_ai/persistence/projections.py:357-363 | After any history a rebuild succeeds and keeps the journal and all but the action columns; no later operation approves or claims any approval that existed, and approve and claim refuse it ever after. |
| Replay.BarredForever | src/geth_ai/persistence/repositories.py:535-671 | An approval whose exact action is gone stays barred: no event of any later history approves or claims it. |
| Replay.CancelRevokes | src/geth_ai/persistence/repositories.py:249-286 | Cancelling a run succeeds exactly for an existing run with named ids; it sets CANCELLED, revokes exactly the pending and approved approvals of that run and leaves every other one as it was. |
| Replay.CancelMeans | src/geth_ai/persistence/repositories.py:249-286 | A committed cancellation leaves the run row over for the given reason, at its moment and without a lease, each live approval of the run revoked as it was bound, one event for the run and one for each of them, and every other row as it was. |
| Replay.CancellationIsFinal | src/geth_ai/persistence/repositories.py:213-286 | After a committed cancel and any later checked operations the run is still CANCELLED, no transition of it was committed, and none of its approvals was approved or claimed. |
| Replay.TransitionsAreLegal | src/geth_ai/application/orchestrator.py:657-684 | When callers test the edge on the state they then expect, every journalled run transition follows a legal edge from the state at its own commit, under any interleaving. |
| Replay.NoLostUpdate | src/geth_ai/persistence/repositories.py:213-247 | A transition carrying the state and version it read commits only if no state event of that run was committed in between. |
| Lifecycle.EndedUnlessStopped | src/geth_ai/persistence/repositories.py:249-286 | A run in COMPLETED, FAILED or BLOCKED is still there after any checked operations if and only if no cancellation of it was committed meanwhile, that is, if and only if none was submitted by a named actor. |
| Lifecycle.EndedRunStays | src/geth_ai/persistence/repositories.py:213-286 | A run that is over ends in its own state, or in CANCELLED exactly when a cancellation of it was committed since. |
| Lifecycle.LegalIffCancelledInTime | src/geth_ai/domain/transitions.py:28-81 | A run history, cancellations included, follows the lifecycle graph if and only if every committed cancellation found its run not yet terminal. |
| Lifecycle.CancelEdge | src/geth_ai/persistence/repositories.py:249-286 | The unconditional cancel commits on every existing run, and keeps a legal history legal exactly when the run is not over at the commit. |
| Scenario.CompletedCanBeOverwritten | src/geth_ai/application/orchestrator.py:583-602 | COMPLETED is not absorbing: in a run of the protocol from the empty database a cancel that tested the state before the completion overwrites it. |
| Store.Database.ApplyEvent | src/geth_ai/persistence/projections.py:32-355 | The in-place reducer changes the tables to the reducer function's result, or raises and changes nothing. |
| Store.Database.AppendEvent | src/geth_ai/persistence/event_store.py:85-176 | Appending numbers the event in the journal and in its run, folds it, and leaves everything unchanged when it raises. |
| Authority.TransitionMeans | src/geth_ai/persistence/repositories.py:213-247 | A transition succeeds exactly when the run is in the state and at the version the caller expects; it moves that run alone, keeps its owner, objective and start, and leaves one event; a conflict means the run is no longer what was read, and any refusal changes nothing. |
| Store.Database.CancelRunNow | src/geth_ai/persistence/repositories.py:249-286 | Cancelling and revoking row by row in one transaction is the specified cancel, rolled back as a whole when any append raises. |
| Authority.RequestMeans | src/geth_ai/persistence/repositories.py:472-533 | A request succeeds exactly for an action the redactor passes, under a new id and a new nonce; the row is pending, bound to everything requested and holds the exact action, while the event carries the metadata alone. |
| Authority.ApproveMeans | src/geth_ai/persistence/repositories.py:535-564 | Approving succeeds exactly for the owner of a pending, available approval strictly before its expiry; an overdue one expires instead; every other refusal changes nothing. |
| Authority.DenyMeans | src/geth_ai/persistence/repositories.py:566-585 | Denying succeeds exactly for the owner of a pending approval, overdue or not; it is then DENIED by one event; any refusal changes nothing. |
| Authority.WithdrawMeans | src/geth_ai/persistence/repositories.py:587-604 | Cancelling an approval asks for no owner: it succeeds exactly while the approval is pending or approved and revokes it by one event; any refusal changes nothing. |
| Authority.ClaimMeans | src/geth_ai/persistence/repositories.py:606-671 | A claim succeeds exactly on an approved approval strictly before its expiry, presented with its own run, requester, digest and action; a refused one grants nothing and is journalled, unless the approval expired before; it changes no row but that of an approved, overdue approval, which expires. |
| Authority.ConsumeMeans | src/geth_ai/persistence/repositories.py:673-690 | Consuming succeeds exactly on an approval claimed by the caller; it is then consumed, its claimant and its binding unchanged; any refusal changes nothing. |
| Store.Database.ExpireDueNow | src/geth_ai/persistence/repositories.py:692-714 | The loop expires the due rows of the specification, in id order, in one transaction. |
| Authority.ChangeCallMeans | src/geth_ai/persistence/repositories.py:782-806 | A change succeeds for every known call in whatever state; it keeps the identity and stamps start and end only for the upper-case texts of the broker; any refusal changes nothing. |
| Authority.ChangeWorkMeans | src/geth_ai/persistence/repositories.py:422-453 | A change succeeds for every known work item; it takes the new state, and the new lease if one is given, and keeps the rest; any refusal changes nothing. |
| Authority.RecordMeans | src/geth_ai/persistence/projections.py:32-355 | A run, message, work item, call, artifact or budget is recorded exactly under a new key, a usage exactly for a known budget; the one row written holds what was recorded, no other row changes, and a refusal changes nothing. |
| Store.Database.RebuildNow | src/geth_ai/persistence/event_store.py:215-219 | Clearing the tables and folding the journal event by event is the fold of the whole journal, rolled back when it raises. |
| Restart.ExpiryClears | src/geth_ai/persistence/repositories.py:692-714 | Expiry always commits and leaves no pending or approved row due. |
| Effects.NextKeeps | src/geth_ai/application/orchestrator.py:331-549 | The system invariant survives every step: a process's step, any other repository operation, the stop latch, other programs in the sandbox, and a crash anywhere. |
| Effects.AtMostOneEffect | src/geth_ai/tools/broker.py:98-142 | In every interleaving each approval id installs at most one file, and every installed file has exactly the name and content of an action whose digest the bound owner approved and its requester claimed before expiry, with no cancellation committed before the precommit check, which found the action not expired, the run under a lease not over, and room in its budget. |
| Effects.InstalledActionIsTheApprovedOne | src/geth_ai/policy/actions.py:167-172 | Any action with the approved digest is the installed action, where the hash does not collide on the two. |
| Effects.NothingIsOverwritten | src/geth_ai/tools/paths.py:127-197 | No step of the flow removes or changes an entry or a content of the sandbox but its own temporary file, and the target appears exactly in the step that installs it; no database step touches the sandbox. |
| Effects.CompletionCarriesEvidence | src/geth_ai/application/orchestrator.py:331-549 | Every COMPLETED transition in every reachable journal is preceded, in order and for one flow, by approval, EXECUTING, claim, write SUCCEEDED, consumption, VERIFYING, read SUCCEEDED and a VERIFIED artifact; the artifact's digest and length are those of the exact write whose action digest both that approval and that write's call row are bound to. |
| Effects.StoreStaysSound | src/geth_ai/persistence/event_store.py:85-176 | The store's invariants and the legality of run histories hold in every state the protocol reaches. |
| Gates.BeginsExactly | src/geth_ai/application/orchestrator.py:331-340 | A process is loaded exactly for an exact, valid approval of the owner on a run in AWAITING_APPROVAL while the stop is clear, with the action and the run of that approval. |
| Gates.MoveDecides | src/geth_ai/application/orchestrator.py:657-684 | The three transitions of the flow are made exactly while the stop is clear and the run is where each of them starts; the lease is set, or dropped at the end; otherwise the process is gone and nothing else changed. |
| Gates.WriteDecides | src/geth_ai/application/orchestrator.py:690-716 | The first policy decision passes exactly for an exact sandbox write in force on a live run none of whose four counters has reached its limit. |
| Gates.TempDecides | src/geth_ai/tools/paths.py:127-165 | The temporary file is made exactly for a path the file layer accepts and free names, and then holds the content of the action. |
| Gates.CheckDecides | src/geth_ai/application/orchestrator.py:371-390 | The precommit check passes exactly while the stop is clear, the run is not cancelled and under a lease not over, the action is not expired and the budget has room; otherwise the process is gone and its temporary name with it, and nothing else changed. |
| Gates.LinkDecides | src/geth_ai/tools/paths.py:165-197 | The link is made exactly when its name is free; otherwise the process is gone and its temporary name with it. |
| Gates.ReadDecides | src/geth_ai/application/orchestrator.py:431-445 | The second policy decision passes exactly when the read-back action is valid, in force on a live run, and an exact read below one of the two delegated roots. |
| Gates.FetchDecides | src/geth_ai/tools/filesystem.py:117-152 | The read returns exactly the whole content of a file with one name, no longer than asked for, that is UTF-8 text. |
| Gates.ChargeDecides | src/geth_ai/application/orchestrator.py:412-466 | After the write and after the read-back the flow goes on exactly when one call and its bytes can be charged, and after the read-back only if digest, length and redacted text are those approved; the charge is exactly that, and otherwise nothing changed. |
| Gates.StoreDecides | src/geth_ai/application/orchestrator.py:503-514 | The verified file is recorded, as VERIFIED, with the place, digest and length read back and under the call of the write, exactly under a new id; otherwise the process is gone and nothing else changed. |
| Gates.ReadActionMeans | src/geth_ai/application/orchestrator.py:750-778 | The read-back asks for exactly the file written and for no more bytes than it has, or one: a single local read by the verifier, below the sandbox, for the length of a tool timeout; its arguments decode to that path and limit. |
| Progress.UndisturbedFlowCompletes | src/geth_ai/application/orchestrator.py:331-549 | On any clock that keeps to the expiry and the lease, a loaded flow that nobody disturbs completes its run after 22 steps if and only if the budget covers both tool calls; the approved content is readable under its one name if and only if the budget covers the write; the run is left in VERIFYING, its approval consumed, exactly when it covers the write, no other counter is over its limit, and it does not cover both. |
| Progress.HeadroomOpensGates | src/geth_ai/application/orchestrator.py:644-716 | The two policy decisions, the precommit check and the two charges all pass exactly when two calls, more bytes than the content has and the content twice over are left, and no other counter is in the way. |
| Budget.SpendIsConsume | src/geth_ai/application/orchestrator.py:644-657 | The usage the protocol stores for a tool call is what consuming the charge yields, and it is refused exactly when consuming it would be. |
| Crashes.CrashAfterUnlinkIsReconcilable | src/geth_ai/application/recovery.py:209-273 | Whatever the clock, the stop and the budget say: a crash after the temporary name was dropped and before SUCCEEDED leaves a call that recovery can reconcile. |
| Crashes.CrashBeforeUnlinkIsBlocked | src/geth_ai/tools/paths.py:105-197 | A crash while RUNNING and before that, the two-name window included, is blocked as a mismatch. |
| Crashes.CrashOutsideRunningIsNotSelected | src/geth_ai/application/recovery.py:185-207 | A crash between the claim and RUNNING or after SUCCEEDED leaves a call recovery does not select. |
| Races.CancellationRace | src/geth_ai/application/orchestrator.py:371-390 | In every reachable system, once a cancellation is committed no continuation installs a file for the run unless one of its processes already stands between the precommit check and the link; one that does installs its file all the same if the target is free. |
| Races.StopRace | src/geth_ai/application/orchestrator.py:371-390 | In every reachable system, once the stop is set and until it is cleared, no process begins, installs, completes or passes a transition, a policy decision or the precommit check, unless one already stands between the check and the link; that one installs its file all the same if the target is free. |
| Races.HaltedForever | src/geth_ai/tools/paths.py:160-190 | While a run is cancelled and none of its processes is past the check, every step of anybody keeps it so and installs nothing for the run. |
| Crashes.ReachableIsGood | src/geth_ai/application/recovery.py:87-107 | Whatever the protocol did, the database satisfies all that the recovery theorems ask of it. |
| Scenario.OneCallStrandsTheRun | src/geth_ai/application/orchestrator.py:412-441 | A concrete run of the protocol from the empty database with a budget of one tool call installs the file, consumes the approval and ends in VERIFYING with no process left. |
| Scenario.AFlowCompletes | src/geth_ai/application/orchestrator.py:331-549 | A concrete run of the protocol from the empty database reaches COMPLETED with the approved file under its one name. |
| Scenario.ACrashIsReconciled | src/geth_ai/application/recovery.py:87-183 | The same flow, dead right after its write, meets every assumption of the idempotence theorem, and recovery reconciles it. |
| Recovery.InOrder | src/geth_ai/application/recovery.py:185-207 | The selected calls are listed each exactly once. |
| Recovery.First | src/geth_ai/application/recovery.py:194-199 | The listing takes the call with the oldest last sequence first, ties by call id. |
| Recovery.ListedByAge | src/geth_ai/application/recovery.py:194-199 | Of two selected calls the one with the smaller last sequence comes first, ties in the order of their ids. |
| Restart.ScriptShaped | src/geth_ai/application/recovery.py:110-169 | For one call recovery submits only its own block, artifact, state changes, consumption of its own approval and legal moves of its own run; never a completion. |
| Restart.RecoverySubmitsClientSteps | src/geth_ai/application/recovery.py:87-183 | A whole recovery is a list of ordinary checked operations on the selected calls, so the protocol's safety theorems cover it; none of them completes a run. |
| Restart.OwnScript | src/geth_ai/application/recovery.py:275-351 | The writes of one reconciliation keep the call reconcilable after every one of them and end with it SUCCEEDED, consumed, recorded and VERIFYING. |
| Restart.NeverInventsSuccess | src/geth_ai/application/recovery.py:209-273 | A call becomes SUCCEEDED only as the last write for it, and only if the stop was off, the approval was claimed or consumed by its own requester, all digests and lengths agree, the run is active and the observed bytes are the approved ones. |
| Restart.BindExactly | src/geth_ai/application/recovery.py:209-255 | A call is bound exactly when its row, its approval row and the exact action agree on run, tool, digest, requester and policy, the requester claimed the approval, and the action is an exact new write below the sandbox. |
| Restart.RecoveryIsAFixpoint | src/geth_ai/application/recovery.py:87-207 | After any recovery every selected call is SUCCEEDED or blocked, nothing is left to select, and another recovery at the same clock, stop reset or not, appends no event. |
| Restart.RunLeftAlone | src/geth_ai/application/recovery.py:185-207 | A run without a selected call keeps its row and its claimed approvals through any recovery. |
| Blocking.RunEndsExactly | src/geth_ai/application/recovery.py:87-183 | Any number of recoveries take a run down if and only if there was one and some interrupted call of the run could not be reconciled; it is then in BLOCKED, without a lease, where that is legal, and in FAILED from RECEIVED; a run without an interrupted call keeps its very row. |
| Blocking.BlockCutIsLost | src/geth_ai/application/recovery.py:353-378 | Blocking takes the run down. Cut after the RecoveryBlocked event, it is made good by later recoveries, however many, if and only if some other interrupted call of the run cannot be reconciled; with no other one the row stays as it was. |
| Idempotence.OtherScript | src/geth_ai/application/recovery.py:275-351 | Reconciling another call, of another run or of the same one, keeps a call exactly as reconcilable or reconciled as it was, after each of its writes. |
| Idempotence.RecoveryReconciles | src/geth_ai/application/recovery.py:87-183 | A recovery that no hopeless call of the run hinders keeps the call fine throughout and reconciles it. |
| Idempotence.ManyHopeless | src/geth_ai/application/recovery.py:353-378 | A batch that holds a call without active run, authority, exact file or matching artifact ends with that call's run terminal. |
| Idempotence.CrashRestartIsIdempotent | src/geth_ai/application/recovery.py:275-351 | With the stop clear and the exact file in place, recovery reconciles the call if and only if every interrupted call of its run can be reconciled; then a recovery cut after any append and run again ends the same, the approval consumed exactly once. |
| RecoveryService.Service.Commit | src/geth_ai/application/recovery.py:275-351 | The reconciliation's reads and writes, in order, submit exactly the specified operations, also when it raises half way. |
| RecoveryService.Service.Block | src/geth_ai/application/recovery.py:353-378 | Blocking writes one RecoveryBlocked event with the call and the reason, and puts the run in BLOCKED, without a lease, wherever that is legal, in FAILED from RECEIVED; a run that is over stays as it is, and nothing else changes. |
| RecoveryService.Service.RecoverOne | src/geth_ai/application/recovery.py:110-169 | The body of the loop leaves the specified database and reports the call reconciled or blocked as it really is, with the reason that applies. |
| RecoveryService.Service.Recover | src/geth_ai/application/recovery.py:87-183 | The whole loop leaves the specified database; every selected call is reported, and the two totals count the items reconciled and blocked. |
| Broker.Gateway.Invoke | src/geth_ai/tools/broker.py:65-148 | In every ending the store holds exactly a committed beginning of what the invocation set out to submit. The call row says how it ended: UNCERTAIN with the approval still claimed, which recovery takes up; FAILED for an exception of the tool; DENIED or AWAITING_APPROVAL for a refusal, by at most one event; SUCCEEDED with the result and the approval consumed, bracketed in the journal. Only a missing name makes a write raise. |
| Broker.SuccessIsBracketed | src/geth_ai/tools/broker.py:98-142 | The new journal entries of such a success are the claim, at most one proposal, RUNNING, the one SUCCEEDED with the result, and the consumption, in this order and nothing else. |
| Agreement.FlowIsInvocation | src/geth_ai/tools/broker.py:98-142 | The five writes of a process of the step system from claim to consumption are, in order, the operations of the sequential broker. |
| Agreement.ReadBackIsInvocation | src/geth_ai/tools/broker.py:112-142 | The three writes of its read-back are, in order, the operations of a broker invocation that the policy allows outright. |
| Chain.VerifyRows | src/geth_ai/persistence/event_store.py:221-284 | The one-pass loop with its running hash, sequence and per-run counters reports exactly the problems each row has against all rows before it, a payload that does not parse among them. |
| Chain.FaultsExact | src/geth_ai/persistence/event_store.py:221-284 | Each problem of a row is reported exactly for its own reason. |
| Chain.ReportExact | src/geth_ai/persistence/event_store.py:221-284 | The two checkpoint problems are reported exactly when the length or the head differs, and the report gives both as found. |
| Chain.AcceptedIsNumbered | src/geth_ai/persistence/event_store.py:221-284 | In an accepted journal row i has sequence i + 1, its run sequence counts the rows of its run, and it names the hash of the row before it, or the genesis value. |
| Chain.HeadDeterminesJournal | src/geth_ai/persistence/event_store.py:221-284 | Two accepted row sequences with the same head are equal in every column, where the hash separates their contents and never gives the genesis value. |
| Chain.PrefixesAccepted | src/geth_ai/persistence/event_store.py:221-284 | Every prefix of an accepted journal is accepted without a checkpoint. |
| Chain.TruncationNeedsCheckpoint | src/geth_ai/persistence/event_store.py:221-284 | A proper prefix passes without a checkpoint and fails against the retained head and against the retained count. |
| Chain.AppendedIsAccepted | src/geth_ai/persistence/event_store.py:85-176 | A journal built by appending is accepted, whatever is appended. |
| Chain.AppendedRows | src/geth_ai/persistence/event_store.py:85-176 | Appending adds one row for each event, in order, with its columns and the canonical text and hash of its payload, and changes no row. |
| Chain.MaterialDetermines | src/geth_ai/persistence/integrity.py:29-57 | The hash material determines every column it covers. |
| Chain.MaterialKeyed | src/geth_ai/persistence/integrity.py:29-57 | Reading the hashed text back gives each of the ten columns under its own name, and no other name. |
| Consensus.Adjudicate | src/geth_ai/domain/consensus.py:25-53 | PASS exactly when requested, unvetoed, with a non-material critique, no unresolved material dissent and limits kept; REVISE exactly when unvetoed, inside the limits, and asked for or able to remedy an objection; never at the last round or revision. |
| Consensus.RetainedDissent | src/geth_ai/application/consensus.py:317-319 | The retained dissent is every round's dissent, without duplicates, in order of first appearance. |
| Consensus.Coordinator.Complete | src/geth_ai/application/consensus.py:172-198 | A role call returns if and only if some attempt is answered after transient failures alone, no more of them than retries left, each attempt passing the boundary and the limits; the retries spent are those failures. Otherwise it raises at the first attempt that stands in the way. Every attempt is one record. |
| Consensus.Coordinator.Deliberate | src/geth_ai/application/consensus.py:233-355 | It returns if and only if the four calls of each round do; then PASS or ESCALATE, two proposals, one critique and one synthesis a round, each from its own recorded answer, another round exactly after one judged to need a revision while rounds are left, calls equal to four a round plus retries, all limits kept; PASS implies no veto and no open objection. |
| Consensus.Coordinator.RunPipeline | src/geth_ai/application/consensus.py:509-550 | It returns if and only if the deliberation does and, on a pass, three more calls do; the accounting is the ledger's growth and stays within the budget. |
| Boundary.Service.BoundaryCheck | src/geth_ai/application/bootstrap.py:196-237 | A live run's baseline is recorded once per state, also when the call is refused; the check passes exactly below the call, token, retry and wall-time limits measured from it, and then the run's true call count is below its limit. |
| Boundary.Service.Call | src/geth_ai/application/bootstrap.py:196-237 | A provider call is made exactly for a live run below its limits, measured from its baseline, and is then one ledger record; otherwise the ledger is as it was. |
| Boundary.Service.Settle | src/geth_ai/application/orchestrator.py:189-266 | A stage that stays within the limits charges everything the ledger grew by since it began and takes the run on; one past a limit fails the run uncharged. |
| Boundary.Service.Play | src/geth_ai/application/bootstrap.py:196-237 | Over any schedule of runs, stages, calls, charges, failures and restarts on one ledger, no run's provider calls exceed its limit. |
| Budget.Consume | src/geth_ai/domain/models.py:137-152 | A charge succeeds exactly when every counter named exists, every amount is non-negative and no total passes its limit; it adds exactly the amounts. |
| Budget.EachHasItsLimit | src/geth_ai/domain/models.py:107-120 | Each of the ten counters is capped by the limit of its own name, and there are no others. |
| Budget.ChargesAccumulate | src/geth_ai/domain/models.py:107-152 | Charging twice is possible exactly when charging the concatenation at once is. |
| JsonCodec.RoundTrip | src/geth_ai/domain/canonical.py:89-132 | Parsing the printed text of a float-free value gives back its canonical form. |
| JsonCodec.RequireCanonicalExact | src/geth_ai/domain/canonical.py:114-132 | The acceptor takes exactly the texts the printer emits within the depth bound: duplicate keys, floats, white space, other escapes and unsorted keys all fail. |
| JsonCodec.AcceptsPrinted | src/geth_ai/domain/canonical.py:106-132 | What was printed is accepted and decoded to the canonical form. |
| JsonCodec.TextDeterminesValue | src/geth_ai/domain/canonical.py:89-107 | Two float-free values print alike exactly when their canonical forms agree. |
| JsonCodec.InsertionOrderIrrelevant | src/geth_ai/domain/canonical.py:89-107 | The order in which members were inserted never changes the text. |
| JsonCodec.EscapeReads | src/geth_ai/domain/canonical.py:114-132 | Every character is read back from its `\u` escape, in either case of the digits, from a pair of surrogates beyond the basic plane; half a pair is refused. |
| JsonCodec.EscapesLeast | src/geth_ai/domain/canonical.py:89-103 | The printer uses the short escape where there is one, four lower-case hexadecimal digits for other controls, and no escape elsewhere. |
| JsonCodec.BlanksAround | src/geth_ai/domain/canonical.py:114-132 | Blanks before and after a printed value do not matter to the reader. |
| JsonCodec.PutMeans | src/geth_ai/domain/canonical.py:114-132 | A repeated key keeps its place and takes the later value, a new one comes last, and every other member stays. |
| Json.NormalizeExact | src/geth_ai/domain/canonical.py:28-86 | Normalization succeeds exactly on float-free values within the depth bound and leaves them unchanged. |
| Json.DepthExact | src/geth_ai/domain/canonical.py:28-86 | A value nested sixty-four levels below the outermost is accepted, one level more is refused. |
| Utf8.EncodeInjective | src/geth_ai/domain/canonical.py:89-103 | The encoded bytes determine the text. |
| Utf8.ShortestForm | src/geth_ai/domain/canonical.py:89-103 | A character takes as many bytes as its code point needs, and all but the first are continuation bytes. |
| Actions.ActionBytesInjective | src/geth_ai/policy/actions.py:167-172 | Two actions have the same canonical bytes exactly when all their fields agree. |
| Actions.ActionKeyed | src/geth_ai/policy/actions.py:95-172 | Reading the canonical text of an action back gives each field under its own key, the ten limits one level below, and no other key. |
| Actions.DigestBindsAction | src/geth_ai/policy/actions.py:167-172 | Two actions share a digest exactly when all fields agree, where the hash does not collide on the two. |
| Actions.ArgumentHashBinds | src/geth_ai/policy/actions.py:74-92 | Valid actions with one argument hash have the same arguments text and decode to the same write. |
| Actions.ValidExactly | src/geth_ai/policy/actions.py:38-92 | An action is valid exactly when its names are there, its target continues its canonical root component by component, its arguments are a canonical object bound by their hash, it has a life time and a nonce of 16 to 256 characters, and a content digest comes with its length. |
| Actions.WriteArgumentsRoundTrip | src/geth_ai/policy/actions.py:95-160 | Decoding the arguments an action was built from gives back the path and the content. |
| Paths.ValidatorsAgree | src/geth_ai/tools/paths.py:42-65 | Over all strings, the policy's path test plus the sensitivity test accepts exactly what the tool's validator accepts with the root allowed, with the same text and parts. |
| Paths.SensitiveMeans | src/geth_ai/policy/redaction.py:81-99 | Among the paths the policy accepts, exactly those are sensitive whose folded last component is a secret's name, one of whose folded components is a credential directory, or that end in .git/config. |
| Paths.NormalForm | src/geth_ai/tools/paths.py:42-65 | A relative text is its own normal form exactly when it is the root or none of its pieces is empty or a dot. |
| Paths.RelativeExactly | src/geth_ai/policy/engine.py:121-127 | The policy accepts exactly the bare dot and the texts whose pieces between slashes all name something, without NUL and backslash. |
| Paths.AbsoluteExactly | src/geth_ai/policy/actions.py:29-35 | A text is a canonical absolute path exactly when it is one or two slashes followed by named pieces with one slash between them, without NUL. |
| Paths.TargetContained | src/geth_ai/policy/engine.py:121-131 | A target built from a canonical root and an accepted path has the root's components followed by the path's, and no parent step. |
| Policy.DecisionContained | src/geth_ai/policy/engine.py:179-334 | Any decision but DENY implies a target contained in the action's root. |
| Actions.ReadArgumentsRoundTrip | src/geth_ai/application/orchestrator.py:750-779 | Decoding the arguments built for the read-back gives back the path and the byte limit. |
| Policy.ApprovalExactlyForBoundWrites | src/geth_ai/policy/engine.py:134-334 | Approval is asked exactly for an exact, absent-precondition sandbox write bound to its content while nothing stops it and owner, requester, version, life time and tool are those of the context; nothing but a local read is allowed outright. |
| Policy.AllowedExactlyForBoundReads | src/geth_ai/policy/engine.py:134-334 | A call is allowed outright exactly when it is a local read in force, on a root whose components continue those of a delegated one, with just its tool's arguments, a normal and insensitive path, a byte limit within its budget, and no field of a write. |
| Policy.AllowedStaysBelow | src/geth_ai/policy/engine.py:179-236 | Whatever is allowed outright has its target below a delegated root. |
| Policy.DenialNamesAFault | src/geth_ai/policy/engine.py:134-334 | Every denial names a fault that the action really has. |
| TimeText.TextOrderIsTimeOrder | src/geth_ai/persistence/repositories.py:1340-1356 | For years 1 to 9999, comparing two stored texts is comparing the instants. |
| TimeText.ExpiryTestOnTexts | src/geth_ai/persistence/repositories.py:1355-1356 | The expiry test on texts is the one on instants, so approve, claim and expiry agree. |
| TimeText.LeaseCheckIsStrict | src/geth_ai/application/orchestrator.py:376-379 | The lease test that compares two different formats raises exactly when now is strictly after the lease. |
| Files.Parent.WriteAll | src/geth_ai/tools/paths.py:215-221 | For every schedule of short positive writes the loop terminates and returns exactly when the file holds the whole content; otherwise it holds a prefix. |
| Files.Parent.AtomicWriteNew | src/geth_ai/tools/paths.py:127-197 | With any names added or removed by others between any two steps: no existing entry is altered; a normal return or the uncertain outcome installed a target with exactly the content; any other exception means this call did not. Undisturbed it returns exactly for a free target and a passing check, and leaves the target and nothing else; a failure of the last sync makes the outcome uncertain, and nothing else does. |
| Files.LinkCounts | src/geth_ai/tools/paths.py:165-190 | Link then unlink takes the count from one to two to one and ends as a rename would. |
| Files.ReadBounded | src/geth_ai/application/recovery.py:390-402 | For every schedule of short reads the loop returns the whole stream, or nothing exactly when it exceeds the maximum. |
| Memory.StepKeeps | src/geth_ai/persistence/repositories.py:934-1120 | Every accept, correct or forget, committed or raised, keeps index agreement, content rules and chain shape. |
| Memory.ChainsAreWellFormed | src/geth_ai/persistence/repositories.py:997-1071 | After any history a chain of corrections never returns to itself, keeps owner, category and sensitivity, and has no accepted member but its newest. |
| Memory.SupersededOnce | src/geth_ai/persistence/repositories.py:997-1071 | After any history each memory is superseded at most once. |
| Memory.SearchIsExact | src/geth_ai/persistence/repositories.py:1122-1140 | After any history a search finds exactly the owner's accepted memories whose own content matches. |
| Memory.ForgottenIsGone | src/geth_ai/persistence/repositories.py:1073-1120 | A forgotten memory has no content, no provenance and no index row. |
| Memory.AcceptedIsFound | src/geth_ai/persistence/repositories.py:934-995 | Accepting succeeds exactly for acceptable content under a new id; the memory is then found by its owner alone, in exactly the searches its content matches, and every other search result stays; a refusal changes nothing. |
| Memory.CorrectedIsFound | src/geth_ai/persistence/repositories.py:997-1071 | Correcting succeeds exactly for an accepted memory of the owner, acceptable content that names a run, and a new id; the old memory is then superseded and in no search, the new one has the content and names the old one, with its owner, category and sensitivity, and every other search result stays; a refusal changes nothing. |
| Memory.ForgettingRemoves | src/geth_ai/persistence/repositories.py:1073-1120 | Forgetting succeeds exactly for a memory of the owner not yet forgotten; it keeps both hashes, neither content nor provenance, and is in no search; everything else stays; a refusal changes nothing. |
| Memory.NoSecretsAreStored | src/geth_ai/persistence/repositories.py:934-1071 | In every history a stored content is not blank and passes the redactor unchanged, its hashes are its own, and its category is one of the four. |
| Memory.AcceptableExactly | src/geth_ai/persistence/repositories.py:934-995 | Content is acceptable exactly in one of the four categories, when it is not blank, names where it comes from, and passes the redactor unchanged. |
| Memory.Repository.CorrectNow | src/geth_ai/persistence/repositories.py:997-1071 | The correction with its index update is the specified one, with its refusals. |
| Memory.Repository.ForgetNow | src/geth_ai/persistence/repositories.py:1073-1120 | The purge of content, provenance and index rows is the specified one, with its refusals. |

## Left out

- SQLite itself, migrations, WAL, VACUUM and connections: transactions are serializable, roll back as a whole, and keys are unique.
- The redactor, `sanitize_event_payload` and the typed rows behind `Projections`: payloads there are what the reducer sees after both, so a redacted path in a journalled result is not modelled; `Chain` has the row columns and texts, and the two levels are not connected by a theorem.
- Payloads that lack a key or have the wrong type, on which the reducer raises KeyError or TypeError.
- SHA-256, case folding of paths and the redaction patterns: parameters.
- Run-state and call-state texts other than the enumerated ones in upper or lower case, and the case folding of run states.
- `_normalize` on sets, enums, UUIDs, dates and object cycles; Python's limits on recursion and on digits of an integer; strings with lone surrogates, which the printer refuses.
- Subdirectories, symbolic links, inode and parent identity checks, permissions, fsync and Windows paths: `Files` is one flat parent directory with names, contents and link counts.
- The head and tail of `Orchestrator.start_run`, `deny` and `cancel` beyond the repository operations they submit; messages, work-item loops, and the verifier's opinion with its provider calls and their charge, which only fail a run earlier.
- The proposal a broker journals in state DENIED when the policy refuses a call of the flow is a `Client` step; the moments at which the read action is built and judged are one reading of the clock.
- Fresh identifiers, nonces and temporary names are parameters of the steps; the id of the verified artifact is the id of the write call with a suffix, where the code draws a new one.
- Effects.NextKeeps: the expiry branch of `approve`, which moves the run to BLOCKED, and the FAILED transitions after an exception are ordinary `Client` steps and not forced to happen.
- Effects.AtMostOneEffect: the reads inside one precommit check count as one step.
- Progress.UndisturbedFlowCompletes: assumes no file-system error, readings of the clock that keep to the expiry and the lease where the code compares them, and provider charges outside the flow; it shows how far a flow gets alone (`Scenario.AFlowCompletes`), not that every flow is left alone.
- Restart.RecoveryIsAFixpoint, Idempotence.CrashRestartIsIdempotent, Blocking.RunEndsExactly: recovery has verified the journal, and no other process writes between its reads and writes; the cancellation re-reads inside one call are therefore constant.
- Consensus.Coordinator.Deliberate: provider contexts and request texts carry no behaviour and are left out; a timeout is an answer that never arrives.
- Boundary.Service.Play: bounds provider calls only, because a call may overshoot the token limit and retries of action planning are never charged to the durable budget.
- Broker.Gateway.Invoke: the tool registry and argument models are one boolean, whether the binding holds.
- Delegations, child budgets, the tool registry, emergency-latch files, health checks, audit rendering, logging and the command line: presentation, input and output, or easy.
- FTS5 matching and ranking: a predicate on content; only which rows are indexed is modelled.
