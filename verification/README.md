# Keycloak operator: the realm sync protocol, verified

A Dafny model of the operator that keeps Keycloak realms in step with Kubernetes custom resources.
The operator collects a Realm and the children that name it into one JSON document, stores it in the
Secret `kc-config-<realm>`, and spawns a Job that applies it. It reports the outcome in the Realm's
status, and holds the finalizer of a deleted child until the Realm has been Ready after the deletion.

`dafny verify dfyconfig.toml` checks everything.

## How the model is built

- **One API call is one step.** `Protocol.Worker` is the Realm reconcile as a state machine: every get,
  list, create, update, delete and status update is a step of its own, and each may succeed, be
  rejected, or take effect while its answer is lost. Between two steps anything else may happen.
- **Runs.** `World` puts any number of Realms together with users, child controllers and Jobs. A run is
  any sequence of enabled actions from an empty cluster; nothing is scheduled and nothing is fair.
  `Runs` proves one invariant for all of them, by rely and guarantee: what each actor does is within
  what every Realm's reconcile tolerates. `Theorems` and `Handshake` draw the conclusions, `Recovery` and
  `Progress` say when a Realm gets Ready again.
- **The code.** `Reconciler`, `Builder`, `Clients`, `Store` and `Base64` hold the methods in the form the
  source has (loops, early returns, fields updated in place), each proved against the function or the
  state machine that the theorems are about.
- **History.** Each Realm carries a log the program does not have: every payload its Secret has held,
  every spec, and a record of each time Ready was written. A Job knows the position in that log at which
  it was created and the position it last read. `log.dirty` is set when the payload in the Secret
  changes and cleared when a Job spawned for it has been recorded in the status.
- **Time** is in nanoseconds and truncated to seconds where the API server truncates.

## What is proved, and where the code falls short

- Behind every Ready of every run stands a Job of that Realm that has completed. It had read the payload
  built in the same reconcile, at any moment it may have read, if and only if the log is not dirty
  (`ReadyIsTruthful`); it never is dirty at a Ready in a run where no call between the Secret rewrite and
  the recording of its Job fails (`FaultFreeRunsAreTruthful`). Otherwise it can be: the Secret is
  rewritten first (operator/internal/wrapper/job_runner.go:109), the Job is created later (:231), and
  when that fails the next reconcile finds the Secret up to date, skips, and observes the previous Job.
  `StaleReady` is such a run. The same happens when no image is configured (:131-134).
- docs/ARCHITECTURE.md:190 promises that a child's object goes only after Keycloak has been updated. When
  the Realm object named by the child exists, a child leaves the namespace only on a Ready written after
  its deletion (`RemovalSafety`), and the build behind that Ready excluded it if and only if the deletion
  did not fall between the listing of the build and the Ready write of the same reconcile
  (`DeletionSafety`). `DeletedTooLate` is a run in which it does.
- The handshake looks up one Realm, by the name the child refers to when it is let go
  (operator/internal/controller/helper.go:96, 121); the builder matches `spec.realmName`
  (operator/internal/wrapper/builder.go:160). Nothing ties the two names, and `realmRef` and `realmName`
  may be edited. Another Realm has been Ready on a payload listing the child exactly if its object did
  not bear its realmName then, or the child has been given another reference since (`UnaskedExactly`).
  If no Realm object bears the name the child refers to, it then goes at once, without any Ready, Job or
  sync: `UnaskedRealm` is such a run for every misnamed object, `EditedReference` one for an edited
  reference. The Realm that is asked gives evidence for the Keycloak realm in which it listed the child
  unless its spec was edited in between (`AskedUnlessEdited`); `RenamedRealm` is a run in which it was.
- In runs in which every Realm object bears its realmName and no child's reference is edited, any Realm
  there is that has ever been Ready on a payload listing a child that was let go is the one that was
  asked, and gave the evidence, for the same Keycloak realm (`SettledRunsAreSafe`). The gap of
  `DeletedTooLate` remains there too.
- Ready with a matching ObservedGeneration speaks about the realm-level fields of the current spec, up to
  omitempty, if and only if the spec fetched by that reconcile and the spec present at its status write
  agree on them (`GenerationTruthful`); the write takes the generation from the newest object
  (operator/internal/controller/realm_controller.go:179), so they need not (`StaleGeneration`). Equal
  generations of the two suffice and are not necessary (`HarmlessEdit`).
- Recovery needs a fixed desired state, a spawning reconcile whose calls succeed, and some later one that
  finds the Job finished and no trigger less than five minutes after the `last-sync` of the rewrite
  (`RunsRecover`); and no answer to a Ready write may be lost, since the error path then writes Failed.
  Any number of reconciles may come between, see the Job running, consume triggers or fail, and between
  any two calls the rest of the cluster acts. A Realm that has recovered lets go of
  every child deleted in an earlier second (`HandshakeProgresses`).
- If Jobs apply in the order of their creation, the payload applied last is the one of the current clean
  Ready (`LastAppliedIsDesired`).
- Healing waits for five minutes past a readable `last-sync`, whatever it says; a time in the future
  holds recovery back that long (`StuckUntilDrift`).
- Truncation of `last-sync` costs one second over any stretch of time, not one per Job: rewrites of one
  payload within W number at most 1 + (W + 1 s) / 300 s (`RewriteRate`).

## Hypotheses

They are in the state machine, not in the code: reads return the current state; one build reads a single
snapshot; the clock is one and moves with every call; the name of a deleted Realm is not used again; a
Realm is deleted only once it has its finalizer; nobody but the operator touches the finalizers and the
config Secrets; a Job ends for good and succeeds only after having read its Secret.

## Model

| member | source | states |
|---|---|---|
| Theorems.ReadyIsTruthful | operator/internal/controller/realm_controller.go:86-182 | in every run, behind every Ready is a Job that this Realm owns and that mounts its Secret, whose first deciding condition is a true Complete; it had read the payload built in that reconcile unless the log was dirty, and not dirty is equivalent to: any moment of reading between the Job's creation and the write gives that payload |
| Theorems.RecordedPayload | operator/internal/wrapper/builder.go:118-385 | the payload that counts as built at a Ready is the builder's result for the spec and the namespace that were read |
| Theorems.FaultFreeRunsAreTruthful | operator/internal/wrapper/job_runner.go:109-236 | without a failure between Secret rewrite and recorded Job, behind every Ready of the run is a completed Job that read the payload of that reconcile's build |
| Theorems.BecomingReadyIsRecorded | operator/internal/controller/realm_controller.go:171-182 | only the status write after an observed, successful completion of an own Job makes a Realm Ready |
| Theorems.ReadyStaysTruthful | operator/internal/controller/realm_controller.go:139-143 | as long as a Realm stays Ready and undirtied, its Secret still holds the payload of the last Ready |
| Theorems.GenerationTruthful | operator/internal/controller/realm_controller.go:178-182 | Ready with ObservedGeneration equal to Generation: the payload has the realm-level fields of the current spec, up to omitempty, exactly if the spec fetched and the spec at the status write agree up to omitempty; equal generations suffice; a completed Job stands behind it |
| Theorems.ReadyExcludesActiveJob | operator/internal/controller/helper.go:36-77 | in every reachable state Ready excludes a tracked Job, and the one condition agrees with Ready |
| Theorems.SilentExitOnlyAfterSpawn | operator/internal/controller/realm_controller.go:156-161 | leaving a missing Job unreported because the status is Ready is possible only in the reconcile that has just spawned it |
| Theorems.ActiveJobExists | operator/internal/controller/realm_controller.go:102-120 | unless outsiders delete Jobs, a tracked Job exists, is owned by its Realm alone and mounts its Secret |
| Theorems.CleanupStaysHome | operator/internal/controller/realm_controller.go:214-257 | no reconcile deletes a running Job, another Realm's Job, or a Job that any Realm tracks |
| Theorems.LastAppliedIsDesired | operator/internal/controller/realm_controller.go:171-182 | while a Realm is Ready and clean, of its Jobs still there and the observed one, applied in the order of their creation, the last has read the payload of that Ready |
| Handshake.DeletionSafety | operator/internal/controller/helper.go:113-132 | every child let go while a Realm object bears the name it refers to has a Ready of that Realm written after its deletion, with a completed Job behind it; the build excluded the child exactly if the deletion did not fall between that build and that write, and then, unless the log was dirty, that Job had read the payload without it; the evidence is permanent |
| Handshake.RemovalSafety | operator/internal/controller/client_controller.go:44-54 | over any run, a child with the finalizer that is no longer there was let go by an approval of its own, with that evidence |
| Handshake.UnaskedExactly | operator/internal/controller/helper.go:117-124 | for every child let go, every other Realm and every Ready of it: its payload lists the child exactly if the Realm object did not bear its realmName then and the child referred to that, or the child referred to this Realm then and does not any more |
| Handshake.AskedUnlessEdited | operator/internal/controller/helper.go:117-129 | the Realm that was asked lists the child and gives its evidence for one and the same realmName unless its spec was edited between the two builds |
| Handshake.ListsExactly | operator/internal/wrapper/builder.go:153-160 | a payload differs from the one without the child exactly if its build saw the child live and referring to the realmName |
| Handshake.UnaskedNeverListed | operator/internal/controller/helper.go:117-124 | in runs in which Realm objects bear their realmName and references are not edited, no Realm but the one named by the child when it is let go has ever been Ready on a payload listing it |
| Handshake.SettledRunsAreSafe | operator/internal/controller/helper.go:113-132 | in such runs any Realm there is that has ever been Ready on a payload listing a child that was let go is the one that was asked, and gave the evidence, for the same Keycloak realm |
| Handshake.BuiltWithout | operator/internal/wrapper/builder.go:153-160 | a child that is being deleted, or names another realm, leaves no trace in the payload: it is the payload of the namespace without that child |
| Theorems.SpawnsBounded | operator/internal/wrapper/job_runner.go:86-126 | over any stretch of any run, with any failures, the Jobs spawned for a Realm in W are at most (m + 1) + W / 299 s for m changes of payload (one more if it begins between a rewrite and its Job) |
| Theorems.SpawnsAreJobs | operator/internal/wrapper/job_runner.go:231-236 | what is counted there is, in every action, the number of Jobs that come into being for that Realm |
| Theorems.ForeignChangesSpawnNothing | operator/internal/wrapper/job_runner.go:86-96 | changes to children of other realms leave a reconcile inside the window without a Secret write and without a Job, whatever its calls are answered |
| Counterexamples.StaleReady | operator/internal/wrapper/job_runner.go:231-233 | a run from an empty cluster that ends Ready for a payload no Job has read, after one rejected Job creation |
| Counterexamples.DeletedTooLate | operator/internal/controller/helper.go:127-129 | a run that lets a child go on a Ready whose payload lists the child |
| Counterexamples.UnaskedRealm | operator/internal/controller/helper.go:121-124 | for every object name but the realmName: a run in which the Realm has applied the child, is never asked, and the child goes with no sync after its deletion |
| Counterexamples.EditedReference | operator/internal/controller/helper.go:121-124 | the same with a Realm that bears its realmName, the child's reference being edited before the deletion |
| Counterexamples.RenamedRealm | operator/internal/controller/helper.go:127-129 | a run in which the evidence is for another realmName than the one under which the child was applied |
| Counterexamples.HarmlessEdit | operator/internal/controller/realm_controller.go:178-182 | a run with different generations fetched and written whose payload still has the fields of the current spec |
| Counterexamples.StaleGeneration | operator/internal/controller/realm_controller.go:178-182 | a run that ends Ready with matching generations and a payload without the fields of the current spec |
| Counterexamples.RejectedRound | operator/internal/wrapper/job_runner.go:109-233 | for every state: if creating the Job fails, the Secret already holds the new payload and a fresh last-sync, and the tracked Job stays |
| Runs.RunKeepsInv | operator/internal/controller/realm_controller.go:40-257 | every run of users, child controllers, Jobs and Realm reconciles keeps the invariant |
| Runs.StepKeepsInv | operator/internal/controller/realm_controller.go:40-257 | every single action keeps it |
| Runs.WorkerGuarantee | operator/internal/controller/realm_controller.go:86-257 | one call of a reconcile touches only its own Realm and Jobs: at most one new Job, its own, and deletions only of Jobs its Realm owns |
| Runs.ActionIsRely | operator/internal/controller/realm_controller.go:86-150 | whatever else happens is within what a reconcile tolerates between two of its calls |
| Runs.SnapshotLasts | operator/internal/wrapper/builder.go:148-330 | which children a build saw live stays readable from their creation and deletion times ever after |
| Runs.NewApproval | operator/internal/controller/helper.go:127-129 | the strict comparison of two truncated times implies that Ready was written after the deletion, and fixes the build it relied on |
| Protocol.WorkerKeepsInv | operator/internal/controller/realm_controller.go:40-204 | whatever the API answers, one call keeps the invariant, with its core: a tracked Job's window holds one payload exactly if the log is not dirty |
| Protocol.StoreSpaced | operator/internal/wrapper/job_runner.go:88-117 | rewriting after drift was seen keeps rewrites of one payload more than five minutes past the last-sync before |
| Protocol.DriftExactly | operator/internal/wrapper/job_runner.go:86-99 | nothing is due exactly if the Secret holds the payload and was synced less than 300 seconds ago |
| Protocol.VictimsExactly | operator/internal/controller/realm_controller.go:223-231 | due for deletion are exactly the owned, untracked Jobs with a true Complete or Failed condition and an age of 600 seconds or more |
| Protocol.DeletedExactly | operator/internal/controller/realm_controller.go:224-237 | deleted are exactly those listed before any of them whose deletion fails |
| Protocol.ReconcileEnds | operator/internal/controller/realm_controller.go:40-204 | no reconcile takes more than ten calls, whatever they are answered |
| Protocol.SteadyAppend | operator/internal/wrapper/job_runner.go:109-123 | a rewrite keeps a window steady exactly if it repeats the payload |
| Interference.RelyKeepsInv | operator/internal/controller/realm_controller.go:86-150 | tolerated interference between two calls keeps the invariant |
| Recovery.Recovers | operator/internal/controller/realm_controller.go:86-204 | from any Secret, status and tracked Job, with tolerated interference between any two calls: with a fixed desired state, a due spawn that succeeds, and a later reconcile that finds its Job finished and had no trigger less than five minutes past the rewrite's last-sync, and with no lost answer to a Ready write, some call up to the end of that reconcile leaves the Realm Ready on a completed Job that read the desired payload |
| Recovery.RunsAreTraces | operator/internal/controller/realm_controller.go:40-204 | the calls of one Realm's reconciles in any run of the cluster are such a sequence with tolerated interference |
| Progress.RunsRecover | operator/internal/controller/realm_controller.go:86-204 | recovery in every stretch of every run of the cluster that meets those conditions |
| Progress.HandshakeProgresses | operator/internal/controller/helper.go:127-129 | when the Realm has so recovered, exactly the finalizer-bearing children deleted in an earlier second may be let go |
| Recovery.ReadyAfterDrift | operator/internal/controller/realm_controller.go:171-203 | the waiting part of it: from the recorded Job to the call that writes Ready |
| Recovery.Waits | operator/internal/controller/realm_controller.go:123-136 | a call that neither finds drift nor writes Ready keeps the tracked Job and the Secret, whatever it is answered |
| Recovery.Spawns | operator/internal/wrapper/job_runner.go:109-236 | drift, Secret, Job and recording, with interference between them, end in a tracked Job that can read nothing but the desired payload |
| Recovery.StuckUntilDrift | operator/internal/wrapper/job_runner.go:88-96 | the wait is needed: a Realm that is not Ready and tracks no Job stays so until a call finds drift |
| Recovery.FirstDrift | operator/internal/wrapper/job_runner.go:86-99 | reconciles that skip or fail leave last-sync alone, so drift is found at the latest by the first comparison five minutes past it |
| Rounds.SpawnRound | operator/internal/wrapper/job_runner.go:101-236 | a round that drifts leaves the Secret rewritten and a new, running, recorded Job of the Realm that mounts it |
| Rounds.ReadyRound | operator/internal/controller/realm_controller.go:171-182 | a round that skips and finds the tracked Job succeeded ends Ready |
| Rounds.QuietRound | operator/internal/wrapper/job_runner.go:86-96 | a round that does not find drift writes nothing to the Secret and spawns nothing, whatever its calls are answered |
| SpawnRate.RewriteRate | operator/internal/wrapper/job_runner.go:88-117 | any run of rewrites with m changes within W is at most (m + 1) + (W + 1 s) / 300 s long, hence at most (m + 1) + W / 299 s |
| SpawnRate.Gaps | operator/internal/wrapper/job_runner.go:88-96 | in whole seconds, rewrites of one payload are 300 s apart each, summed over any stretch |
| SpawnRate.TruncationCostsASecond | operator/internal/wrapper/job_runner.go:117 | two rewrites of one payload can be less than 300 s apart |
| SpawnRate.BacklogBounded | operator/internal/controller/realm_controller.go:223-231 | Jobs of one Realm younger than ten minutes number at most three more than the changes of payload among them |
| SpawnRate.BacklogOfThree | operator/internal/controller/realm_controller.go:214-238 | with a payload constant for ten minutes, a complete cleanup leaves at most three finished Jobs besides the tracked one |
| Reconciler.RealmReconciler.Reconcile | operator/internal/controller/realm_controller.go:40-84 | the code reaches exactly the state the machine reaches, for every sequence of answers; a deleted object loses its finalizer and nothing else happens, a new one gets it and nothing else happens |
| Reconciler.RealmReconciler.Sync | operator/internal/controller/realm_controller.go:86-151 | build, compare, store, spawn, record and the rest follow the machine call by call |
| Reconciler.RealmReconciler.RemoveFinalizer | operator/internal/controller/helper.go:26-34 | the object, whose deletion was requested, goes if the call lands |
| Reconciler.RealmReconciler.AddFinalizer | operator/internal/controller/realm_controller.go:61-64 | the object gets the finalizer and is otherwise unchanged |
| Reconciler.RealmReconciler.SetFailed | operator/internal/controller/realm_controller.go:70-73 | the status says SyncFailed, not ready, with time and generation of the write; the tracked Job and the identifier stay |
| Reconciler.RealmReconciler.AfterSyncRealm | operator/internal/controller/realm_controller.go:112-150 | a trigger is removed and the status left alone; without a tracked Job a Ready object is left alone and any other reported as JobRunning; else the Job decides |
| Reconciler.RealmReconciler.SyncRealm | operator/internal/wrapper/job_runner.go:67-237 | with the payload in place and less than 300 seconds old nothing is written; else the Secret gets the payload and a Job that mounts it is made, unless a call fails |
| Reconciler.RealmReconciler.PutConfig | operator/internal/wrapper/job_runner.go:103-126 | the Secret gets payload and truncated time together, before any Job exists; an error leaves all that or nothing |
| Reconciler.RealmReconciler.CreateJob | operator/internal/wrapper/job_runner.go:146-236 | a Job with the next name, owned by the Realm alone, that mounts the Secret and has not begun; an error leaves that or nothing |
| Reconciler.RealmReconciler.RecordJob | operator/internal/controller/realm_controller.go:102-110 | the newest object says JobRunning, not ready, and tracks the new Job |
| Reconciler.RealmReconciler.RemoveTrigger | operator/internal/controller/realm_controller.go:123-135 | the trigger annotation goes, every other one and the rest of the object stay, and the reconcile ends without observing |
| Reconciler.RealmReconciler.ObserveJob | operator/internal/controller/realm_controller.go:154-204 | the whole new status for a first true Complete (Ready, Synced, nothing tracked), a first true Failed (SyncFailed, the Job tracked), neither (JobRunning), and a Job that is gone (SyncFailed unless Ready) |
| Reconciler.RealmReconciler.ReadConditions | operator/internal/controller/realm_controller.go:171-194 | Succeeded, Broken or Running exactly as the first true Complete or Failed says |
| Reconciler.RealmReconciler.IsOwnedBy | operator/internal/controller/realm_controller.go:240-247 | true exactly if the uid is among the owners |
| Reconciler.RealmReconciler.CleanupTerminalJobs | operator/internal/controller/realm_controller.go:214-238 | goes through the listing and deletes the owned, terminal, untracked Jobs of at least ten minutes, up to the first deletion that fails |
| Reconciler.CompleteCleanup | operator/internal/controller/realm_controller.go:224-237 | if the listing has them all and no deletion fails, exactly those Jobs go |
| Reconciler.CleanupIdempotent | operator/internal/controller/realm_controller.go:214-238 | a second cleanup finds nothing; an aborted one has deleted only members of the set, and one after it ends where a complete one at once would have |
| Reconciler.WritesAreChanges | operator/internal/controller/status_util.go:13-23 | every write of a reconcile to its Realm is one atomic change in the sense of the store |
| Api.VerdictExactly | operator/internal/controller/realm_controller.go:171-194 | a Job succeeded exactly if its first true Complete or Failed condition is a Complete, failed exactly if it is a Failed, and runs exactly if there is none |
| Api.VerdictStable | operator/internal/controller/realm_controller.go:171-194 | a condition added later never changes a verdict already reached |
| Store.NoLostUpdates | operator/internal/controller/status_util.go:13-23 | for every interleaving of any writers and deletion requests the versions are the accepted changes, each with exactly its effect on the version before; a conflict leaves nothing |
| Store.CopyBackIsEffect | operator/internal/controller/helper.go:26-34 | sending back a changed copy of the current version changes only what was meant, with status and the rest on separate endpoints |
| Store.EffectsExactly | operator/internal/controller/helper.go:26-34 | what each change does to an object that is there, and nothing else; the generation counts edits of the spec |
| Store.FreshCopyWins | operator/internal/controller/status_util.go:13-23 | a copy sent right after it was read is committed; one that somebody was faster than is not |
| Store.AnnotationsSurvive | operator/internal/controller/helper.go:94-109 | an annotation is what the last change naming it made it; status writes and finalizers never touch it |
| Store.StatusSurvives | operator/internal/controller/status_util.go:13-23 | no other write changes the status |
| Store.FinalizerSurvives | operator/internal/controller/helper.go:26-34 | a finalizer, and the object with it, stays until somebody removes it |
| Store.CommitWithRetry | operator/internal/controller/helper.go:94-109 | the retry loop commits its change, on top of what the others committed, in the first attempt nobody disturbs; it gives up exactly after five disturbed attempts or when the object is gone |
| Builder.BuildRealmExport | operator/internal/wrapper/builder.go:118-385 | the six loops give exactly the filter and translation of the six listings, or nothing on any failure; every entry is spelt out: credentials of clients, passwords and their default key, executions with and without MFA, config keys of identity providers |
| Builder.BuildIsExport | operator/internal/wrapper/builder.go:118-385 | the same of the function the theorems are about |
| Builder.BuildRest | operator/internal/wrapper/builder.go:234-382 | the same for users, flows and identity providers |
| Builder.CopyConfig | operator/internal/wrapper/builder.go:351-354 | copying a map entry by entry in any order gives the map |
| BuilderLaws.BuildFailsExactly | operator/internal/wrapper/builder.go:118-392 | the build fails exactly if realmName is empty, a live child has no realmRef, or a matching live child needs a Secret that is missing: a confidential client's, a password's (or its key), an identity provider's |
| BuilderLaws.FailsExactly | operator/internal/wrapper/builder.go:153-188 | the same for one listing |
| BuilderLaws.RealmIsolation | operator/internal/wrapper/builder.go:153-188 | children of other realms may change in any way without changing this realm's build |
| BuilderLaws.DeletionRemovesOwnEntry | operator/internal/wrapper/builder.go:154-159 | marking one child deleted removes its own entry and keeps order and value of all others |
| BuilderLaws.DeletionMonotone | operator/internal/wrapper/builder.go:153-382 | deleting any children of any kinds gives the build without them and never breaks one that worked |
| BuilderLaws.LiveChildExported | operator/internal/wrapper/builder.go:160-186 | every live child of the realm has its translation in the export, at the place of its listing position |
| BuilderLaws.BuildIsFilterMap | operator/internal/wrapper/builder.go:148-384 | every entry of a build, kind by kind and in order, is the translation of a live child of that realm, and of no other object; every such child has its entry |
| BuilderLaws.ExportsPartition | operator/internal/wrapper/builder.go:148-384 | over realms with distinct names the export sizes add up to the number of live children that name one of them |
| BuilderLaws.BuildOrderIrrelevant | operator/internal/wrapper/builder.go:148-384 | permuting the listings keeps success and the multiset of entries of every kind |
| Export.PayloadExact | operator/internal/wrapper/builder.go:14-115 | two documents give the same payload if and only if they agree after identifying nil with empty under omitempty |
| Export.MarshalSays | operator/internal/wrapper/builder.go:14-36 | what the payload says under each tag of the document, list by list, and that it says nothing else |
| Export.ClientDocument | operator/internal/wrapper/builder.go:38-52 | what stands under each tag of a client |
| Export.UserDocument | operator/internal/wrapper/builder.go:54-66 | of a user |
| Export.CredentialDocument | operator/internal/wrapper/builder.go:68-72 | of a credential |
| Export.GroupDocument | operator/internal/wrapper/builder.go:74-79 | of a group |
| Export.ScopeDocument | operator/internal/wrapper/builder.go:81-86 | of a client scope |
| Export.FlowDocument | operator/internal/wrapper/builder.go:88-95 | of a flow |
| Export.ExecutionDocument | operator/internal/wrapper/builder.go:97-101 | of an execution |
| Export.IdpDocument | operator/internal/wrapper/builder.go:103-115 | of an identity provider |
| Export.OptionalBoolsStayDistinct | operator/internal/wrapper/builder.go:17-20 | nil, true and false of a `*bool` give different payloads; nil and empty lists do not |
| Export.ClientExact | operator/internal/wrapper/builder.go:38-52 | the same exactness for clients |
| Export.UserExact | operator/internal/wrapper/builder.go:54-72 | for users and their credentials |
| Export.GroupExact | operator/internal/wrapper/builder.go:74-79 | for groups |
| Export.ScopeExact | operator/internal/wrapper/builder.go:81-86 | for client scopes |
| Export.FlowExact | operator/internal/wrapper/builder.go:88-101 | for flows and their executions |
| Export.IdpExact | operator/internal/wrapper/builder.go:103-115 | for identity providers |
| Json.MembersInjective | operator/internal/wrapper/builder.go:14-36 | omitting members loses nothing: the members present give the fields back |
| Json.StructSays | operator/internal/wrapper/builder.go:14-36 | a struct says under each tag what its field gives, and nothing under any other |
| Json.ListDictExact | operator/internal/wrapper/builder.go:62-64 | a map of lists under omitempty: nil and empty maps coincide, nil and empty lists inside do not |
| Clients.ClientReconciler.Reconcile | operator/internal/controller/client_controller.go:36-82 | for every choice of rejected and lost calls: a deleted client goes exactly if it has the finalizer, the check says yes and the removal lands, and otherwise its Realm carries the trigger; a new one is adopted; any other is handed over, JobRunning or SyncFailed, never ready |
| Clients.ClientReconciler.Sync | operator/internal/controller/client_controller.go:84-137 | for every choice of rejected and lost calls, what hinders the hand-over; when nothing does, the credential is there, the Realm carries the trigger, and the status says JobRunning, not ready |
| Clients.ClientReconciler.EnsureCredential | operator/internal/controller/client_controller.go:94-126 | a credential that is there is kept, a missing one created from the random string |
| Clients.CredentialFailsExactly | operator/internal/controller/client_controller.go:93-126 | when a client cannot get its credential; nil publicClient counts as confidential |
| Clients.CredentialNames | operator/internal/controller/client_controller.go:95 | clients with different clientIds have different Secrets |
| Clients.ClientReconciler.IsSafelyDeletedFromRealm | operator/internal/controller/helper.go:113-132 | the three-way answer, an error of the lookup included |
| Clients.ClientReconciler.TriggerRealmSync | operator/internal/controller/helper.go:88-110 | one attempt: if the write lands the named Realm carries the stamp under the trigger annotation, with every other annotation, field and Realm as before; otherwise nothing changes; the retries are those of `Store.CommitWithRetry` |
| Clients.WokenInRuns | operator/internal/controller/helper.go:103-108 | that is the action `Trigger` of the runs |
| Clients.CheckIsSafe | operator/internal/controller/helper.go:113-132 | the check is the one whose consequences over runs are proved |
| Clients.DelegationKeepsSecrets | operator/internal/controller/client_controller.go:93-126 | no existing or concurrently created Secret is overwritten; after success a confidential client has the old credential, or the one just drawn |
| Clients.CredentialsNeverChange | operator/internal/controller/client_controller.go:97-125 | no sequence of delegations, with any failures, changes an existing Secret |
| Clients.EntriesCarryCredentials | operator/internal/wrapper/builder.go:176-186 | every exported confidential client carries the value the application mounts, every public one none |
| Clients.CredentialAgreement | operator/internal/wrapper/builder.go:176-186 | any two builds with any delegations in between agree on the secret of a client |
| Base64.GenerateRandomString | operator/internal/controller/client_controller.go:145-152 | the slice is in range and the result has the asked length over the URL-safe alphabet |
| Base64.KeepsSixBitsPerCharacter | operator/internal/controller/client_controller.go:151-151 | two draws of n bytes give the same text exactly if their first 6n bits agree |
| Base64.EncodeBuffer | operator/internal/controller/client_controller.go:151-151 | the encoder's loop computes unpadded base64url |
| Base64.SymbolAt | operator/internal/controller/client_controller.go:151-151 | every kept character is the symbol of six whole random bits |
| Base64.SymbolTable | operator/internal/controller/client_controller.go:151-151 | the symbol of each of the 64 values, by character code |
| Base64.Vectors | operator/internal/controller/client_controller.go:151-151 | the encoder agrees with vectors of RFC 4648 |

## Left out

- Informer lag and stale reads: every read returns the current state.
- A build reads one snapshot; in the program the six listings and the Secret lookups are separate calls.
- Deleting a Realm before it has its finalizer, reusing the name of a deleted Realm, and garbage collection of what it owned.
- Several namespaces; Job names, which are fresh numbers here; collision of `kc-config-<realm>` with the Secret of a client.
- Outsiders editing the config Secret: only as an arbitrary starting state in `Recovery`.
- The pod spec, environment and pull secrets of the Job, events, logs and message texts.
- JSON bytes: escaping and invalid UTF-8; payloads are trees in which a member is known by the position of its tag.
- The five other child controllers: the Client machine without its Secret step.
- keycloak-config-cli and Keycloak: a Job reads its Secret at some times, then ends. Two Jobs may overlap, so something is said about what was applied last only for Jobs that apply in the order of their creation.
- Admission rules, charts, manifests and scripts.
- Unconditional liveness of finalizer removal: a trigger set again before every reconcile postpones observation for ever.
- Reconciler.RealmReconciler.Reconcile: runs without interference; interleavings are in `World`, on the machine it is proved equal to.
- Handshake.DeletionSafety: gives no evidence when no Realm object bears the name referred to, because the program asks for none; `Handshake.UnaskedExactly` and `Handshake.SettledRunsAreSafe` say what that means.
- The generation of a Realm does not change when its deletion is requested.
- Clients.ClientReconciler.TriggerRealmSync: the retry loop around it is `Store.CommitWithRetry`.
