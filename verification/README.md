# Controlled recovery of Azure workload identities

When a WorkloadIdentity is deleted and recreated, its retained Azure identity (UAMI) still names the
old instance. A WorkloadIdentityRecovery moves ownership in four persisted steps: it locks the target
in Kubernetes, puts fence tags on the UAMI, commits the new owner, and clears the fence. The state
is spread over the recovery's status, the target's Ready condition, the UAMI's tags and credentials,
and the ServiceAccount. Two controllers act on these objects, and either may stop after any call.

This project models that protocol, the normal reconciler it excludes, and the smaller cores around
them, and proves safety over all runs, convergence, and the exact limit of convergence.

## How it is built

- `OwnershipTags`, `Azure`, `Resources`, `Target`, `ServiceAccounts`, `Election`: the data model and the
  pure decisions.
- `Protocol`: one transition system. A state holds the stores, the control point of the recovery
  worker and the control point of the normal reconciler. An action is one API call of one of
  them, a crash of one of them, or a step of a user or an outsider. A run is any finite sequence.
- `Invariant`, `WorkerReads`, `WorkerWrites`, `TagWrites`, `NormalSteps`, `NormalWrites`, `Safety`: what holds in
  every reachable state, and why.
- `FenceTheorems`, `LockTheorems`, `Runs`, `SafetyTheorems`, `AccountTheorems`, `IdentityTheorems`, `Origin`: the safety results.
- `Verdicts`, `RecoverySteps`, `Vetting`: what every answer makes the two controllers do and what each write changes, from
  the fields and tags alone. `Checks`: over every run, what a reconcile has read before it goes on.
- `Convergence`, `Passes`, `Handover`, `ConvergenceTheorems`, `Deletion`: progress without interference.
- `Stuck`, `Stranding`: where progress is impossible, exactly. `Exclusivity`: where the fence would not hold.
- `RecoveryCalls`, `IdentityClients`, `RecoveryStatus`, `Events`, `Lookup`, `Jitter`: the cores around the protocol.
- `Cluster`, `RecoveryAnswers`, `RecoveryController`, `NormalClient`, `WorkloadIdentityController`: both controllers as
  imperative programs on a mutable cluster. Before each call everybody else may act; after
  each call the reconcile may end. Every call is shown to be one action of `Protocol`, so every
  theorem about runs holds at every point of both programs. A ghost trace says whether anybody
  interfered or a call failed; while it is quiet, the state is exactly what the program's own
  calls compute, so the convergence results hold of the programs too.

`dafny verify dfyconfig.toml` checks everything.

## Assumptions

- One recovery worker (`internal/controller/workloadidentityrecovery_controller.go:488`); normal
  reconciles of one object are serial.
- UIDs are fresh and non-empty, the source of a recovery differs from its target and its spec never
  changes (`api/v1alpha1/workloadidentityrecovery_types.go:57-59`).
- UAMI names and ServiceAccount names are unique by admission
  (`internal/webhook/v1alpha1/workloadidentity_webhook.go:136-160`), so the model follows one UAMI name
  with its one ServiceAccount, and at most one WorkloadIdentity at a time uses it. Recoveries are
  keyed by UID; names are unique among them.
- The operator is the only writer that creates or deletes the UAMI and that edits the tags it gives
  a meaning to (`docs/content/concepts/ownership-and-lifecycle.md:67`). Outsiders may edit every
  other tag, any credential and any ServiceAccount at any time. Finalizers are respected.
- Status and finalizer writes of the normal reconciler carry a version check
  (`internal/controller/workloadidentity_controller.go:624-635`). The recovery's patch of the target has
  none and is one atomic step, which may silently do nothing.
- Reads of recoveries and targets are current.
- A nil tag value is an absent tag; nil Azure properties are empty strings; the digest of the logical
  key is an injective function; the hash behind the jitter is any 32-bit number.
- A failed or refused API call changes nothing. An error that ends a reconcile without a status and a crash
  are the same; an error that the source publishes is published.
- Where a ServiceAccount comes from (`Origin`) is promised while outsiders leave its owner, managed-by and
  created-by labels alone, create accounts without them, and do not delete the account.
- Account UIDs handed out by the API server are non-empty; convergence asks for it.

## What convergence asks of the environment

`Passes.Environment`, at the moment interference ends: the manager is configured and the issuer ready; the
recovery is neither deleted nor failed; its target exists under its name; the UAMI exists with base
ownership and complete properties, matches the plan if there is one, and is at one of the four stages
of this recovery. Up to the owner commit the credentials are a set preflight accepts; from the commit
on they are exact, because the code repairs nothing after it. The ServiceAccount is absent or one that
may be transferred, and after a verified commit it already names the target. Before the start the
target validates and the recovery is elected; after the start the target is locked. Which stage the
UAMI is at follows from the checkpoints (`Passes.ImpliedStage`), so nothing is asked of it twice.

## Where the code and its promise differ

The documentation says that a recovery finishes forward once mutation has begun
(`docs/content/architecture/recovery.md:16`). The code does not always do so. `startRecovery` locks the
target through `patchTargetRecoveryCondition`, which returns success without writing when the target
no longer carries the evidence, and then records MutationStarted. If a normal reconcile one of whose
reads fails publishes its status between the validation and the lock, the evidence is gone, the recovery
has started, and no later step of anybody restores the lock: the recovery stays Blocked for ever, its
finalizer stays on, and every later recovery of that source loses the election to it.
`Stranding.StrandingIsReachable` gives the run, `Stuck.RaceStrands` shows that every recovery about to start is
exposed. The exact condition is the guard of that silent branch at the lock call, before the start
(`Stuck.StartLocksExactly`), and the lock itself after it (`Stuck.CompletesExactlyUnderLock`).

Likewise `Events.EnsureIsNeverHiddenExactly`: the ServiceAccount predicate treats an absent and an empty
client-id annotation alike, while the reconciler does not when Azure reports no client ID.

The documentation asks that nobody else create or change the UAMI
(`docs/content/concepts/ownership-and-lifecycle.md:67`) and does not speak of deleting it. Deletion matters as
much: `Exclusivity.CrossingIsReachable` gives a reachable state from which it would let a normal reconcile
write a credential under a fence.

## Model

| member | source | states |
|---|---|---|
| Safety.ReachableIsSafe | internal/controller/workloadidentityrecovery_controller.go:76-124 | From every initial store, after every finite sequence of calls, crashes, user and outsider actions, the whole protocol invariant holds: records, one started recovery per source, evidence, fence, checkpoints, and what each of the two controllers has in flight |
| Safety.ActionKeeps | internal/controller/workloadidentityrecovery_controller.go:144-188 | Every single action of anybody keeps that invariant |
| WorkerReads.WorkerReadKeeps | internal/controller/workloadidentityrecovery_controller.go:282-406 | Every branch the recovery worker takes on what a call returned leads to a control point whose assertion holds |
| WorkerWrites.WorkerWriteKeeps | internal/azure/workload_identity_recovery.go:102-272 | Every writing call of the recovery worker keeps the global invariant and what a normal reconcile in flight relies on |
| NormalWrites.NormalWriteKeeps | internal/controller/workloadidentity_controller.go:568-635 | Every writing call of the normal reconciler, stale or not, keeps the global invariant and what the recovery worker in flight relies on |
| FenceTheorems.FenceExclusion | internal/azure/workload_identity.go:129-157 | In every run, while recovery markers are on the UAMI, the normal reconciler neither changes the UAMI, the credentials or the ServiceAccount nor has such a call pending |
| SafetyTheorems.FenceRisesAndFallsWithItsRecovery | internal/azure/workload_identity_recovery.go:116-131 | The fence of a recovery appears only with its own MarkInProgress write on an unfenced UAMI and disappears only with its own Finalize write, after its commit checkpoint is persisted |
| SafetyTheorems.EveryWriteIsUnderLock | internal/controller/workloadidentityrecovery_target.go:143-156 | In every run, each Azure or ServiceAccount write of a recovery happens with MutationStarted and a plan persisted and the target carrying its evidence and Ready=False/RecoveryInProgress, and leaves that lock alone |
| SafetyTheorems.OnlyAReleaseUnlocks | internal/controller/workloadidentityrecovery_target.go:158-222 | Nothing but a completed release, or a cancelled release made while no recovery of that source has started, takes a lock away: stale normal writes, edits and deletion requests do not |
| LockTheorems.StartedLockPersists | internal/controller/workloadidentity_controller.go:624-635 | The lock of a started, unfinished recovery survives every action of anybody |
| SafetyTheorems.AtMostOneStarted | internal/controller/workloadidentityrecovery_target.go:95-126 | In every reachable state at most one recovery per previous UID is MutationStarted, however many exist |
| SafetyTheorems.AtMostOneFenced | internal/azure/workload_identity_recovery.go:283-325 | In every reachable state at most one recovery is at stage InProgress or CommittedFenced; it is started, unfinished and holds the lock |
| SafetyTheorems.OwnershipIsAnAuthorisedChain | internal/azure/workload_identity_recovery.go:171-219 | Every change of the owner tag of an existing UAMI goes from exactly the source to exactly the target of one started recovery whose plan names this UAMI by resource ID, client, principal and tenant, under its fence and its lock |
| FenceTheorems.MarkersOtherwise | internal/azure/workload_identity.go:343-384 | Apart from the three tag writes of a recovery, the operator markers change only when the UAMI is created for, or deleted by, the live instance that owns it |
| SafetyTheorems.CommitBeforeFenceFalls | internal/azure/workload_identity_recovery.go:169-272 | While CommitVerified is not persisted, a UAMI that already belongs to the target still carries both fence tags; stage Complete implies CommitVerified, MutationStarted and a plan |
| SafetyTheorems.StatusNeverReverts | internal/controller/workloadidentityrecovery_controller.go:408-452 | Across any further run MutationStarted, CommitVerified, Complete and Failed stay set, the plan never changes, and a started recovery leaves only after it was complete |
| SafetyTheorems.EveryStatusIsWellShaped | internal/controller/workloadidentityrecovery_status.go:43-106 | In every reachable state exactly one condition is True once a patch has landed, Failed excludes MutationStarted, Complete implies CommitVerified implies MutationStarted implies plan and finalizer |
| SafetyTheorems.CredentialsFollowThePlan | internal/azure/workload_identity_recovery.go:133-167 | Whatever a recovery writes to the credentials, at any later time, is exactly the tuple its plan held, under the configured name, and no other credential is touched |
| Checks.EveryReconcileIsVetted | internal/controller/workloadidentityrecovery_controller.go:144-188 | In every run, a recovery reconcile that is past one of its checks (target, identity, credentials, account, election, fence, read-backs) has made that check itself, at a read of its own, and what it read met the check field by field |
| Checks.CommitFollowsItsReads | internal/azure/workload_identity_recovery.go:169-219 | The owner tag changes only after the same reconcile has read the planned identity under its fence, the planned credential, the transferred account as it was left or still none, and the planned credential once more |
| Checks.CheckpointsFollowTheirReads | internal/controller/workloadidentityrecovery_controller.go:190-406 | Each checkpoint is recorded only by a reconcile that has read what it rests on: the plan after exactly the identity, credentials and account it is for; the start after the election; the verified commit after fence, credential, account, new owner and credential; completion after the fallen fence and the credential |
| Vetting.TargetReadDecides | internal/controller/workloadidentityrecovery_target.go:48-93 | In every run the read of the target goes on if and only if the object under the referenced name has the target UID, names the source as evidence and waits for this recovery; otherwise the recovery fails for good before mutation and is blocked after |
| Vetting.TargetIsPatchedExactly | internal/controller/workloadidentityrecovery_target.go:143-222 | The worker changes a WorkloadIdentity only to lock or release its own target, with its evidence and under a reason the call replaces; in every such state Ready then says so at the current generation, and nothing else of the object moves |
| Vetting.TransferIsExact | internal/controller/workloadidentityrecovery_serviceaccount.go:48-147 | In every run a recovery changes a ServiceAccount only from one it may take over to one that is the target's and names the planned identity, keeps everything else on it, and does so started and under the lock |
| RecoverySteps.EntryDecides | internal/controller/workloadidentityrecovery_controller.go:76-124 | Where a reconcile begins, for every record: a live failed recovery rests, an unstarted deleted one can only be cancelled, a complete one is only released |
| RecoverySteps.NextCheckpoint | internal/controller/workloadidentityrecovery_controller.go:144-188 | Over a valid target the persisted checkpoints alone determine the next operation; a missing plan blocks once anything was begun |
| RecoverySteps.StageReadDecides | internal/azure/workload_identity_recovery.go:102-272 | Each read of the UAMI goes on exactly from the planned identity at a stage that the call accepts, and blocks otherwise |
| RecoverySteps.ElectionDecides | internal/controller/workloadidentityrecovery_controller.go:237-280 | The list before the start lets exactly the earliest record of the source lock and fails every other for good; before a cancellation exactly the winner releases |
| RecoverySteps.TransferReadDecides | internal/controller/workloadidentityrecovery_serviceaccount.go:94-147 | The transfer blocks exactly on an account it may not take over, writes one that does not carry everything yet, and leaves one that does when the planned IDs are not empty |
| RecoverySteps.TransferIsReadBack | internal/controller/workloadidentityrecovery_serviceaccount.go:133-147 | An account counts as transferred if and only if the very one taken is read back with all five fields |
| RecoverySteps.TagWritesMean | internal/azure/workload_identity_recovery.go:116-272 | Each of the three tag writes sets or clears its two tags, keeps every other tag of the copy and touches nothing else |
| Target.ValidateIsExact | internal/controller/workloadidentityrecovery_target.go:48-93 | validateRecoveryControllerTarget accepts exactly a target that waits for this recovery |
| Resources.PatchesMean | internal/controller/workloadidentityrecovery_status.go:43-127 | Each status patch sets exactly its own condition and checkpoint |
| Runs.ReachableIsKept | internal/controller/workloadidentityrecovery_controller.go:346-369 | In every reachable state a verified commit has left the source for good and, until completion, its target is locked |
| Passes.ImpliedStage | internal/azure/workload_identity_recovery.go:283-325 | In every reachable store the persisted checkpoints bound the stage: not started means NotStarted, not verified excludes Complete, verified means CommittedFenced or Complete, complete means Complete |
| Passes.ReconcileTakesACheckpoint | internal/controller/workloadidentityrecovery_controller.go:144-188 | In a recoverable environment left alone, each reconcile lowers the number of checkpoints ahead (finalizer, plan, started, commit-verified, complete, released) by exactly one and leaves the environment recoverable |
| ConvergenceTheorems.RecoveryConverges | internal/controller/workloadidentityrecovery_controller.go:76-124 | From every reachable state, with both controllers stopped at any call, at most six reconciles bring the UAMI to stage Complete with exactly the planned credential and release the target; one normal reconcile then makes it Ready with one credential trusting the current issuer |
| Handover.HandoverReachesReady | internal/controller/workloadidentity_controller.go:86-212 | A released target that owns its UAMI, and a new identity without one, reach Ready=True in one undisturbed normal reconcile, with evidence cleared, one exact credential, the UAMI recorded, and a ServiceAccount that carries the labels, the owner, the provenance recorded and the client and tenant of that very UAMI |
| IdentityTheorems.ReachableCarries | internal/azure/workload_identity.go:129-157 | In every run, under interference and with a UAMI found or created alike, the client and tenant that Ensure hands on are those of the UAMI in the store |
| IdentityTheorems.AccountIsToldTheIdentity | internal/controller/workloadidentity_controller.go:373-415 | In every run, once the normal reconciler has read the account and goes on with it, the account as it is, as created or as patched carries the owner, the provenance reported and the client and tenant of the UAMI in the store |
| Handover.DeletionIs | internal/controller/workloadidentity_controller.go:283-312 | One undisturbed reconcile of a deleted, unlocked WorkloadIdentity: its own UAMI goes with its credentials and then the account the operator may delete; a UAMI of an earlier instance stays, with the account; a fenced or foreign UAMI or a missing manager stops everything |
| Verdicts.EnsureReadDecides | internal/azure/workload_identity.go:159-216 | Every answer of the identity read in Ensure from the tags alone: creation, the credential with this UAMI's client and tenant, recovery required with the owner read, recovery in progress, or not ready |
| Verdicts.DetectReadDecides | internal/azure/workload_identity.go:386-419 | With an account of another owner, recovery is required if and only if an unfenced UAMI under the expected ID belongs to this identity and to that very owner |
| Verdicts.DeleteReadDecides | internal/azure/workload_identity.go:266-293 | A deletion removes a UAMI if and only if it is the instance's own, and keeps it for a recovery if and only if it is an earlier instance's |
| Verdicts.EntryDecides | internal/controller/workloadidentity_controller.go:86-122 | A reconcile keeps away exactly from an object in recovery, live or deleted; otherwise the finalizer comes first, and a deletion cleans up exactly under the policy Delete |
| Verdicts.IssuerReadDecides | internal/controller/workloadidentity_controller.go:124-145 | Without a ready issuer the status is left exactly while the object waits for a recovery or is in one |
| Verdicts.CredentialReadDecides | internal/azure/workload_identity.go:218-264 | The credential is left exactly if it already is the trust of this account in this issuer |
| Verdicts.AccountReadDecides | internal/controller/workloadidentity_controller.go:373-415 | An absent account is created, a foreign, ownerless or unknown annotated one is refused, an equipped one is kept when the UAMI has a client ID, and any other is patched in the operator's own keys alone |
| Verdicts.ReadyIsHonest | internal/controller/workloadidentity_controller.go:568-587 | In every run, Ready=True that lands is true at that moment: the UAMI is there, is the instance's own, carries no recovery marker and is the one recorded |
| Verdicts.StatusPatchesMean | internal/controller/workloadidentity_controller.go:568-635 | What each status publishes: Ready, its generation and reason, and evidence only for a recovery required or in progress |
| ServiceAccounts.InspectionIs | internal/controller/workloadidentity_controller.go:417-450 | What an inspection answers, from the status and the labels, for every account and for none |
| Deletion.DeletionFinishesForward | internal/controller/workloadidentityrecovery_controller.go:408-452 | A started recovery under deletion, its target locked, finishes within two reconciles and only then disappears, with the UAMI at stage Complete and the target not locked |
| Deletion.CancelledReconcile | internal/controller/workloadidentityrecovery_controller.go:408-452 | One undisturbed reconcile of a deleted recovery that has not started removes its record, releases the target exactly if it is the elected one, and touches nothing else |
| Stuck.CompletesExactlyUnderLock | internal/controller/workloadidentityrecovery_target.go:186-222 | Over good external resources, a started and unfinished recovery can complete if and only if its target carries the lock |
| Deletion.GoesExactlyUnderLock | internal/controller/workloadidentityrecovery_controller.go:408-452 | Over good external resources, a started and unfinished recovery under deletion can go away if and only if its target carries the lock |
| Stuck.StrandedForever | internal/controller/workloadidentityrecovery_controller.go:144-188 | A recovery that started without the lock never completes and never disappears, whatever anybody does |
| Stuck.StartLocksExactly | internal/controller/workloadidentityrecovery_target.go:186-222 | From the lock call on, whatever others do before the start is recorded, the recovery ends up started, and its target is locked if and only if that call found the target with its evidence and a Ready=False reason it may lock from; otherwise it is stranded |
| Stuck.RaceStrands | internal/controller/workloadidentityrecovery_controller.go:237-280 | Every recovery about to start can be stranded: a normal reconcile whose account read fails between validation and lock drops the evidence, the lock patch silently does nothing, and MutationStarted is recorded all the same |
| Stranding.StrandingIsReachable | internal/controller/workloadidentityrecovery_target.go:186-222 | A concrete run from a fresh installation over a retained UAMI to a stranded recovery |
| Exclusivity.DeletionBreaksExclusion | internal/azure/workload_identity.go:159-216 | The limit of the exclusion: were the UAMI deleted by somebody else while a fence write and an older normal reconcile are in flight, the UAMI would be created anew, fenced, and a normal credential write would go through under that fence |
| Exclusivity.CrossingIsReachable | internal/azure/workload_identity_recovery.go:102-131 | A concrete run reaches such a state |
| Azure.ClassifiersAgree | internal/azure/workload_identity.go:343-384 | Over every tag map, in both directions: RecoveryRequired with the source as evidence if and only if base ownership and stage NotStarted; RecoveryInProgress at a stage of this recovery if and only if that stage is InProgress or CommittedFenced; owned with this recovery as the last if and only if base ownership and stage Complete |
| Azure.ClassifyIsExact | internal/azure/workload_identity.go:343-384 | The four answers of validateUserAssignedIdentityOwnership from the tags alone, over every tag map: RecoveryRequired(p) exactly for an unfenced UAMI with base ownership whose owner p is neither empty nor the instance; Owned exactly for an unfenced one with base ownership and the instance as owner; RecoveryInProgress exactly under both fence tags; OwnershipConflict exactly otherwise |
| Azure.BaseOwnershipIs | internal/azure/workload_identity_recovery.go:352-364 | Base ownership, tag by tag, with the literal values the operator writes; the logical key, a digest in the source, stands as namespace and name |
| Lookup.BaseOwnershipNamesOneIdentity | internal/azure/workload_identity_recovery.go:352-364 | The tags of one UAMI never claim it for two identities: base ownership under two keys makes the keys equal |
| Azure.LoadIsForThePlannedIdentity | internal/azure/workload_identity_recovery.go:534-555 | A stage is loaded only for the identity that was planned: the same resource ID up to case, client, principal and tenant, none empty, with base ownership |
| RecoveryCalls.ReplacedIdentityIsRefused | internal/azure/workload_identity_recovery.go:534-555 | If the resource ID, client, principal or tenant differs from the plan, each of the four calls answers blocked and changes nothing |
| Azure.StagesAreDisjoint | internal/azure/workload_identity_recovery.go:283-325 | The four stages exclude each other and recoveryStage returns a stage exactly when the tags are at it |
| Azure.RepairIsExact | internal/azure/workload_identity_recovery.go:417-508 | CreateOrUpdate of the planned credential yields exactly one exact credential if and only if the set was one that preflight accepts; both sets are given field by field |
| Azure.UpsertThenFind | internal/azure/workload_identity_recovery.go:133-167 | A credential write is read back exactly, and credentials of other names are untouched |
| TagWrites.AfterMark | internal/azure/workload_identity_recovery.go:116-131 | Marking from a copy of the tags read earlier moves the UAMI from NotStarted to exactly InProgress as long as the operator markers have not changed since |
| TagWrites.AfterCommit | internal/azure/workload_identity_recovery.go:197-219 | The owner commit from such a copy moves it from InProgress to exactly CommittedFenced |
| TagWrites.AfterFinalize | internal/azure/workload_identity_recovery.go:250-272 | Clearing the fence from such a copy moves it from CommittedFenced to exactly Complete |
| OwnershipTags.MergeKeepsTheRest | internal/azure/ownership.go:31-45 | A merge has all desired tags and keeps every other tag as it was |
| RecoveryCalls.OneCall | internal/azure/workload_identity_recovery.go:102-272 | One call stays at its stage or moves to the next one, and only the call that aims there moves it; a call at or past its stage writes no tags; a successful call has reached its stage |
| RecoveryCalls.StagesNeverSkip | internal/azure/workload_identity_recovery.go:102-272 | In any sequence of the four calls with arbitrary credential edits in between, the stage never decreases and never skips |
| RecoveryCalls.TagsAreAFunctionOfTheStage | internal/azure/workload_identity_recovery.go:102-272 | After any such sequence the tags are a function of the initial tags and the stage reached alone |
| RecoveryCalls.UnrelatedTagsSurviveAnySequence | internal/azure/ownership.go:31-36 | After any such sequence every tag of somebody else is as it was |
| RecoveryCalls.ForeignMarkersAreLeftAlone | internal/azure/workload_identity_recovery.go:38-60 | A UAMI that is at no stage of the recovery is never written by any sequence of its calls |
| RecoveryCalls.InOrderReachesComplete | internal/azure/workload_identity_recovery.go:102-272 | Mark, credential, commit, finalize from an unfenced source with recoverable credentials always end at Complete with exactly the planned credential |
| IdentityClients.IdentityClients.MarkInProgress | internal/azure/workload_identity_recovery.go:102-131 | Read, update and read-verify in place have exactly the single-step effect; undisturbed, the verification never fails; an identity that differs from the plan in resource ID, client, principal or tenant blocks it and stays as it is |
| IdentityClients.IdentityClients.EnsureFederatedIdentityCredential | internal/azure/workload_identity_recovery.go:133-167 | The same for the credential repair; an identity that differs from the plan in resource ID, client, principal or tenant blocks it and stays as it is |
| IdentityClients.IdentityClients.Commit | internal/azure/workload_identity_recovery.go:171-219 | The same for the owner commit; an identity that differs from the plan in resource ID, client, principal or tenant blocks it and stays as it is |
| IdentityClients.IdentityClients.Finalize | internal/azure/workload_identity_recovery.go:222-272 | The same for clearing the fence, tag by tag; an identity that differs from the plan in resource ID, client, principal or tenant blocks it and stays as it is |
| IdentityClients.IdentityClients.Inspect | internal/azure/workload_identity_recovery.go:62-100 | A plan is returned only if the later operations will load it at the stage the tags are at and the credentials are recoverable; refusal means one of these fails |
| IdentityClients.IdentityClients.LoadAndValidateRecoveryState | internal/azure/workload_identity_recovery.go:38-60 | The stage loaded is the one the protocol uses, or none; one is loaded only if resource ID, client, principal and tenant are those of the plan |
| Election.PrecedesIsStrictTotalOrder | internal/controller/workloadidentityrecovery_target.go:128-141 | recoveryPrecedes is irreflexive, asymmetric, transitive and total on records with distinct UIDs |
| Election.ElectedIsEarliest | internal/controller/workloadidentityrecovery_target.go:95-141 | The elected record is the one created first, and among those created at the same time the one whose UID comes first, among the begun recoveries of the source if there are any and among all of them otherwise; with distinct UIDs the converse holds too |
| Election.StringLessIs | internal/controller/workloadidentityrecovery_target.go:136-140 | The string order: one string is before another if and only if it is a proper prefix or has the smaller character at the first difference |
| Election.RecoveryWinnerForSource | internal/controller/workloadidentityrecovery_target.go:95-126 | The loop answers None exactly for the elected record, whatever the order of the list; the winner it answers is the earliest begun record of the source, or the earliest of all if none has begun, by creation time and then UID |
| Election.ElectedIsUnique | internal/controller/workloadidentityrecovery_target.go:95-126 | The elected record is unique |
| Election.SomeRecordIsElected | internal/controller/workloadidentityrecovery_target.go:95-126 | Every list with a record of the source elects one |
| Election.OnlyOneSeesItselfWin | internal/controller/workloadidentityrecovery_target.go:120-125 | Two distinct records of one source in one list never both see themselves as the winner |
| AccountTheorems.RecordedProvenanceIsKept | internal/controller/workloadidentity_controller.go:525-546 | What an instance has persisted as ServiceAccount provenance never changes while it lives, across crashes, recreations of the account and recoveries |
| AccountTheorems.AdoptedAccountIsNeverDeleted | internal/controller/workloadidentity_controller.go:548-566 | The operator removes a ServiceAccount only in the deletion of a live instance whose relationship is not recorded Adopted, once the UAMI is gone, and after a read in the same deletion of an account made for it: recorded Created, or unrecorded and labelled as created by the operator for this very UID |
| AccountTheorems.DeletionIsDecidedByOrigin | internal/controller/workloadidentity_controller.go:548-566 | The read before the deletion goes on to delete if and only if an account is there that is recorded Created, or without a record carries created-by "true" and the UID of the instance as owner |
| AccountTheorems.DeletionWasDecided | internal/controller/workloadidentity_controller.go:548-566 | In every run, a pending deletion of an account was decided by such a read of its own |
| Origin.OnlyTheOperatorsAccountsAreDeleted | internal/controller/workloadidentity_controller.go:548-566 | In tame runs, with any crashes, failures and stale reconciles, nobody but an outsider removes an account that some instance owns and that the operator did not make |
| Origin.OriginSurvivesTheChain | internal/controller/workloadidentityrecovery_serviceaccount.go:94-147 | Over every run, with any number of recoveries, crashes and interleavings, in which outsiders leave the operator's labels alone and the account stays in existence: an owned account stays owned and keeps its created-by answer, and whichever live instance owns it at the end and has persisted a provenance has persisted Created if and only if the account was made by the operator |
| Origin.ActionKeepsOrigin | internal/controller/workloadidentity_controller.go:373-450 | Each single action keeps the invariant behind it: what is persisted, decided or about to be patched about an owned account agrees with its created-by label, and the recovery's copy is the stored account or one that will not land |
| Events.DroppedTargetUpdateHidesNoVerdict | internal/controller/event_predicates.go:51-99 | An update of the target that the predicate drops leaves the verdict of validateRecoveryControllerTarget unchanged for every admitted recovery |
| Events.EmptyPreviousUidIsHidden | internal/controller/event_predicates.go:70-83 | Without the admission rule on previous UIDs that claim is false: the input that shows it |
| Events.EveryUnlockWakes | internal/controller/event_predicates.go:101-127 | In every run, whatever ends a lock is delivered to the normal reconciler |
| Events.NoReconcileWakesItself | internal/controller/event_predicates.go:34-49 | In every run, a status the normal reconciler publishes wakes it again if and only if it makes the object locked, and that reconcile keeps away: no reconcile feeds itself |
| Events.PrimaryUpdatesDelivered | internal/controller/event_predicates.go:34-127 | The normal reconciler is told of exactly a new spec, the begin of a deletion, the begin of a lock and the end of a recovery |
| Events.TargetUpdatesDelivered | internal/controller/event_predicates.go:51-99 | The recovery controller is told of exactly a new spec, the begin of a deletion, other evidence, and under evidence every change of Ready |
| Events.AccountUpdatesDelivered | internal/controller/event_predicates.go:163-187 | Of a ServiceAccount exactly the begin of a deletion and a change under one of the six keys are delivered |
| Events.LockAndReleaseAreDelivered | internal/controller/event_predicates.go:101-127 | Every lock and release that changes the target is delivered to both controllers |
| Events.DroppedIssuerUpdateHidesNothing | internal/controller/event_predicates.go:147-161 | A dropped issuer update leaves the readiness and URL a reconcile sees unchanged |
| Events.DroppedAccountUpdateHidesNoInspection | internal/controller/event_predicates.go:163-187 | A dropped ServiceAccount update changes no inspection, deletion, recoverability or read-back decision |
| Events.EnsureIsNeverHiddenExactly | internal/controller/event_predicates.go:163-187 | Dropped updates never change the ensure decision for an established account if and only if the managed identity has a client ID |
| Lookup.RecoveriesForWorkloadIdentity | internal/controller/workloadidentityrecovery_target.go:243-281 | The indexed lookup returns exactly what a full scan of live, non-terminal recoveries of the target returns, in order |
| Lookup.IndexIsExact | internal/controller/workloadidentityrecovery_target.go:243-281 | Where no namespace has a slash, the index alone lists exactly the live recoveries of the target, so the filter after it removes nothing |
| Lookup.WatchesIs | internal/controller/workloadidentityrecovery_target.go:243-281 | A recovery is looked up for its own target exactly while it is neither deleted, complete nor failed |
| Lookup.KeyStringIsInjective | internal/controller/workloadidentityrecovery_target.go:274-281 | The namespace/name index key is injective because a namespace has no slash |
| Resources.SubjectNamesOneAccount | internal/controller/workloadidentity_controller.go:701-704 | A token subject names one namespace and account, because neither part has a colon |
| Lookup.SlashesCollide | internal/controller/workloadidentityrecovery_target.go:274-281 | With slashes in namespaces it would not be |
| Lookup.WorkloadIdentitiesForServiceAccount | internal/controller/workloadidentity_controller.go:660-695 | The two indexed lookups together return, without duplicates, exactly the identities of the namespace that match by account name or owner UID |
| Jitter.JitterIsExact | internal/controller/workloadidentity_controller.go:269-281 | For every positive interval whose tenth still fits and every 32-bit hash the machine result is interval + floor(interval/10 * hash / (2^32-1)) |
| Jitter.JitterIsBounded | internal/controller/workloadidentity_controller.go:269-281 | For every interval, positive or not, nothing is refreshed early or more than a tenth late |
| Jitter.NoStepOverflows | internal/controller/workloadidentity_controller.go:276-278 | No uint64 step overflows |
| Jitter.JitterIsMonotone | internal/controller/workloadidentity_controller.go:269-281 | The jittered interval is monotone in the hash |
| Jitter.JitterReachesBothEnds | internal/controller/workloadidentity_controller.go:269-281 | It reaches the interval itself and the interval plus a tenth |
| Jitter.FitsExactly | internal/controller/workloadidentity_controller.go:269-281 | The sum is exact for every hash if and only if the interval and its tenth fit into an int64 together |
| RecoveryStatus.Status.SetRecoveryCondition | internal/controller/workloadidentityrecovery_status.go:129-143 | The list then holds exactly that condition for its type, every other type is untouched, and no type occurs twice |
| RecoveryStatus.Status.ClearRecoveryCondition | internal/controller/workloadidentityrecovery_status.go:145-150 | The type is gone and every other type is untouched |
| RecoveryStatus.Status.Block | internal/controller/workloadidentityrecovery_status.go:43-74 | The four in-place edits amount to the protocol's Blocked patch |
| RecoveryStatus.Status.Fail | internal/controller/workloadidentityrecovery_status.go:76-106 | The four in-place edits amount to the protocol's Failed patch |
| RecoveryStatus.Status.RecordCommitVerified | internal/controller/workloadidentityrecovery_controller.go:346-369 | The edits amount to the protocol's CommitVerified patch |
| RecoveryStatus.Mutated | internal/controller/workloadidentityrecovery_status.go:108-127 | Loading the condition list of a record, running any of the six mutate closures on it in place and storing it back is exactly the protocol's patch of that record |
| RecoveryController.RecoveryReconciler.Reconcile | internal/controller/workloadidentityrecovery_controller.go:76-124 | Wherever it stopped, the reconcile extended the run and no recovery moved back. If nobody interfered and no call failed, the run grew by its own calls alone and the stores are those the protocol computes: one more checkpoint is taken in a recoverable environment, and a deleted recovery is cancelled, taken to its commit, or finished and gone |
| RecoveryController.RecoveryReconciler.ReconcileForward | internal/controller/workloadidentityrecovery_controller.go:144-188 | It ends at the release of a recovery completed under deletion or at rest; undisturbed, the run grew by its calls alone, the state is what they compute, and for a recovery that nobody deletes exactly one more checkpoint is taken |
| RecoveryController.RecoveryReconciler.ReconcileDelete | internal/controller/workloadidentityrecovery_controller.go:408-452 | The record goes away only if during this reconcile its target was released, after completion if it had started, or another recovery of the source had won; undisturbed, it is cancelled, taken to its commit, or finished and gone |
| RecoveryController.RecoveryReconciler.RecoveryWinner | internal/controller/workloadidentityrecovery_target.go:95-126 | The answer over a fresh list is the election of the records at that moment |
| RecoveryController.RecoveryReconciler.StartRecovery | internal/controller/workloadidentityrecovery_controller.go:237-280 | The record ends started exactly if it was elected among the records listed, failed as a duplicate exactly if it was not, or untouched when a call failed |
| RecoveryController.RecoveryReconciler.PreflightRecovery | internal/controller/workloadidentityrecovery_controller.go:190-235 | The only plan ever recorded is the one for the UAMI as it was at one later point of the run, where it had base ownership and a stage of this recovery, and for the issuer that an earlier call of this reconcile answered |
| RecoveryController.RecoveryReconciler.MarkInProgress | internal/azure/workload_identity_recovery.go:102-131 | Success under interference means that the UAMI is at a fenced or later stage of this recovery now |
| RecoveryController.RecoveryReconciler.EnsureFederatedIdentityCredential | internal/azure/workload_identity_recovery.go:133-167 | Success under interference means that the planned credential is the only one now |
| RecoveryController.RecoveryReconciler.Commit | internal/azure/workload_identity_recovery.go:171-219 | Success under interference means that the UAMI is the target's, still fenced by this recovery, with exactly the planned credential |
| RecoveryController.RecoveryReconciler.Finalize | internal/azure/workload_identity_recovery.go:222-272 | Success under interference means that the fence of this recovery is gone and the planned credential is the only one |
| RecoveryController.RecoveryReconciler.TransferServiceAccount | internal/controller/workloadidentityrecovery_serviceaccount.go:94-147 | The UID returned is that of an account that carries the target's fields now |
| RecoveryController.RecoveryReconciler.VerifyServiceAccountForCommit | internal/controller/workloadidentityrecovery_serviceaccount.go:149-177 | Success means that the very account transferred still carries them, or that there is still none |
| RecoveryController.RecoveryReconciler.RecordCommitVerified | internal/controller/workloadidentityrecovery_controller.go:346-369 | A recorded commit means that the source has lost the UAMI and the target is locked |
| Cluster.Cluster.PatchTargetRecoveryCondition | internal/controller/workloadidentityrecovery_target.go:186-222 | The read, the checks and the patch have the effect of one protocol step on stores reached meanwhile, or none |
| Cluster.Cluster.Interfere | internal/controller/workloadidentityrecovery_controller.go:488-488 | The normal reconciler, users and outsiders may act any number of times without moving the recovery worker or its record except to request deletion; a quiet trace means that they did not |
| WorkloadIdentityController.WorkloadIdentityReconciler.Reconcile | internal/controller/workloadidentity_controller.go:86-212 | If nobody interfered and no call failed, the run grew by the reconcile's own calls alone and the stores are those the protocol computes: a released owner and a new identity are Ready with one exact credential and an account that carries the client and tenant of the UAMI, and a deleted identity is gone with exactly what was its own |
| WorkloadIdentityController.WorkloadIdentityReconciler.ReconcileLive | internal/controller/workloadidentity_controller.go:124-212 | Under interference and failures it ends by publishing a status, unless the process dies or the issuer is not ready while a recovery is wanted |
| WorkloadIdentityController.WorkloadIdentityReconciler.InspectAccount | internal/controller/workloadidentity_controller.go:146-186 | Every outcome of the account inspection, a failed read among them, ends in a published status unless the process dies |
| WorkloadIdentityController.WorkloadIdentityReconciler.Ensure | internal/azure/workload_identity.go:129-157 | Success under interference means that the UAMI is the caller's own and carries no recovery marker now, and that what is handed on is its client and its tenant |
| WorkloadIdentityController.WorkloadIdentityReconciler.EnsureUserAssignedIdentity | internal/azure/workload_identity.go:159-216 | The same for the identity alone, found or created: what is handed on is the client and the tenant of the UAMI that is there now |
| WorkloadIdentityController.WorkloadIdentityReconciler.EnsureServiceAccount | internal/controller/workloadidentity_controller.go:373-415 | Every error, a failed read among them, is left to be published; success yields the provenance already persisted, if any, and the UID of the account that is there now, which carries the labels, the owner, that provenance and the client and tenant handed on unless it was changed between the read and the unversioned patch |
| WorkloadIdentityController.WorkloadIdentityReconciler.DeleteAzure | internal/azure/workload_identity.go:266-293 | Success means that the UAMI is gone, or with the recovery-required answer that it is there and belongs to an earlier instance |
| WorkloadIdentityController.WorkloadIdentityReconciler.DeleteServiceAccountIfOwned | internal/controller/workloadidentity_controller.go:548-566 | Success means that the UAMI is gone and that an account still there is not one made for the instance: recorded otherwise, or unrecorded without created-by "true" or with another owner |
| WorkloadIdentityController.WorkloadIdentityReconciler.ReconcileDelete | internal/controller/workloadidentity_controller.go:283-312 | The object goes away only if at some point of this reconcile there was no UAMI and no account made for the instance, or the UAMI was kept for a recovery, or nothing was to be deleted |
| NormalClient.NormalClient.PatchStatus | internal/controller/workloadidentity_controller.go:624-635 | A status patch lands exactly on the version it was computed from |
| NormalClient.NormalClient.PutCredential | internal/azure/workload_identity.go:218-264 | Under interference, the credential write lands on stores the run had reached, and the UAMI carried no recovery marker there |
| NormalClient.NormalClient.PatchServiceAccount | internal/controller/workloadidentity_controller.go:395-415 | The same for the account: the merge patch lands on whatever account has the name, never under a fence |

## Left out

- Targets that use another UAMI name: a recovery of such a target is followed on its own name's stores; here its reads are arbitrary and it never touches this name's stores.
- Stale cache reads of recoveries and targets: outside the claims.
- Resource group creation, Azure clients, paging, retries, requeue times, telemetry, events, messages and condition times.
- Azure errors that a recovery meets: they end its reconcile like a crash, since only the next attempt follows.
- The name check of managed identities before Ensure and Delete: an admitted WorkloadIdentity always passes it.
- The OIDCIssuer controller, webhooks, deletion guards and signing keys: single-branch decisions around the protocol; the issuer is a readiness and a URL that change at will.
- Non-ASCII case folding in resource names: Azure names are ASCII.
- The cryptographic digest and the FNV hash: an injective function and an arbitrary number.
