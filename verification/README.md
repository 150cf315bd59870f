# Quay operator: a verified model

The Quay operator keeps a `QuayRegistry` object and the Kubernetes objects rendered from it in
step. Two controllers work on one registry at the same time, every API call can fail or lose its
answer, the process can die between any two calls, and jobs, deployments and users change the
cluster meanwhile. This project models that and proves what survives every interleaving.

- **Upgrades** (`Protocol`, `MigrationSafety`, `Phases`, `Reports`, `Interleaving`, `Passes`,
  `Convergence`, `Progress`, `Recovery`, `SpecCompletion`, `TerminatingJob`, `Recreation`,
  `Replacement`). A transition system whose steps are single API calls of the main controller, the
  read and the write of the status controller, and everything users, jobs and the cluster may do.
  Safety is an inductive invariant over all runs; convergence is a rank that every working reconcile
  lowers and no waiting one raises, whatever the status controller and users do meanwhile; and every
  reason in the stored status has its cause in the reconcile that wrote it.
- **The controllers' code** (`OperatorLog`, `Reconciler`). Imperative methods over a cluster that
  others touch between any two calls. The cluster keeps a log of the operator's moves, and each method
  says what it adds to it: one reconcile adds exactly the moves prescribed for what it finds. Every
  move is a step of the protocol, so the theorems about runs are theorems about these methods.
- **Status** (`Conditions`, `Checkers`, `Evaluator`, `StatusController`). Condition lists, health
  checks, their staged evaluation, and how the result is glued into the stored status.
- **Keys** (`RandomStrings`, `Credentials`, `KeyHistory`). Generated credentials, where they are
  stored, and what a crash after any applied object leaves behind.
- **Rendering** (`Components`, `CreationOrder`, `Rendering`, `Middleware`, `Containers`, `Images`,
  `PostgresUpgrade`). Defaulting, order of creation, config files, and everything that must not
  depend on how Go walks a map.
- **Cleanup** (`SecretCleanup`). Which old config secrets are deleted, and when.

`Wrappers` and `Strings` hold what all of them share.

## Assumptions

- Reads are linearizable. A failed read ends the reconcile, except where the code goes on: any error
  from reading a job in the apply loop counts as "no such job"
  (controllers/quay/quayregistry_controller.go:1235).
- A status write lands only at the resource version it was read at. Its answer may be lost.
- The operator is replaced by another version only when that is safe: if there is an upgrade job of
  another version, no migration is reported in progress, and the job is finished or the new version
  is the recorded one, as in a rollback. `Replacement.ReplacementIsSafeIff` says that nothing less
  would do.
- A deleted job stays visible as terminating until it is gone, and creating it meanwhile is answered
  with "already exists".
- In `KeyHistory` and `SecretCleanup` nobody but the operator writes the managed-keys secret, the
  config secrets and the deployments. Random strings have their fixed, positive length, and secrets
  of older releases hold all of Clair's credentials or none.
- Kustomize names a generated secret after its contents and the order of its sources.

## What turned out different from the comments

- The comment on the rollout gate says that every running pod has mounted the new secret
  (controllers/quay/quayregistry_controller.go:925-928). The counters do not say that:
  `SecretCleanup.GateOpensOverOldPod`, and `SecretCleanup.GateBalancesPods` for what they do say.
- Cleanup is not held back when workloads are deferred, so a changed configuration can lose the
  secret the running deployment mounts: `SecretCleanup.DeferringCleanupTakesLiveSecret`, with the
  exact condition in `SecretCleanup.DeferringCleanupTakesLiveSecretIff`.
- A job marked for deletion that still has pods is taken for a running one:
  `TerminatingJob.DoomedJobReportedInProgress`, with the exact condition in
  `Phases.StepKeepsLiveIff`.
- A comment says that a job which has succeeded must not be recreated unless it is from the previous
  version (controllers/quay/quayregistry_controller.go:1223-1230). The code goes by the recorded version
  and recreates its own as well: `Recreation.OwnSucceededJobIsRecreated`, with the exact condition in
  `Recreation.SucceededJobIsRecreatedIff`.
- A job that has no pod yet is reported as failed. Without a single failure an upgrade can so be
  begun again any number of times: `Recreation.UpgradeMayNeverEnd`.
- An image override with two `@` is accepted when it has one colon, and marks its own deployment for
  an upgrade: `Images.TwoAtSignsNeverMatch`. A rejected override does so too:
  `Images.RejectedOverrideDemandsUpgrade`.
- Declaring quay unmanaged twice hides its correction: `Components.QuayUnmanagedTwiceGoesUnnoticed`,
  with the exact condition in `Components.AcceptedIffUnchanged`.
- An operator replaced half-way through an upgrade lets the next version take over the old job and
  record itself as migrated: `Replacement.HastyReplacementRun`, with the exact condition in
  `Replacement.ReplacementIsSafeIff`.
- The comparator of the creation order is not an order, so Go's sort promises nothing for it. What is
  needed of it holds all the same, for arrays of any length: `CreationOrder.EnsureCreationOrder`.
- The check of a leftover `RolloutBlocked` condition after cleanup
  (controllers/quay/quayregistry_controller.go:949-964) cannot fire, because the condition was removed
  from that copy before rendering: `Reconciler.QuayRegistryReconciler.ReportRolledOut` holds the check
  and the proof that its branch is dead.

## Model

| member | source | states |
|---|---|---|
| MigrationSafety.VersionAdvancesOnlyAfterItsMigration | controllers/quay/quayregistry_controller.go:120-184 | in every run, `status.currentVersion` changes only to the version of the operator then running, and only after an upgrade job rendered by an operator of that version has succeeded |
| MigrationSafety.RecordedVersionsMigrated | controllers/quay/quayregistry_controller.go:120-184 | at every point of every run the recorded version is the initial one or one whose own job has succeeded before |
| MigrationSafety.MigrationsRunOwnJob | controllers/quay/quayregistry_controller.go:1015-1027 | while the reason is `MigrationsInProgress`, an upgrade job that is present was rendered by the running version |
| MigrationSafety.StepKeepsInv | controllers/quay/quayregistry_controller.go:539-1039 | the inductive invariant: copies of the registry are never newer than the store, a pending write that can still land respects the version rule, and a pass past its upgrade job has a job of its own version |
| MigrationSafety.VersionStep | controllers/quay/quayregistry_controller.go:160-184 | the only step that changes the recorded version is a landing write of the main controller, and the job of that version has succeeded |
| MigrationSafety.DoneMeansSucceeded | controllers/quay/quayregistry_controller.go:160-184 | the history variable of the model records exactly versions whose job succeeded earlier in the run |
| Replacement.ReplacementIsSafeIff | controllers/quay/quayregistry_controller.go:120-184 | replacing the operator by any version, the recorded one included, is safe exactly if no run after it has the new operator watch an upgrade job of another version as its own migration |
| Replacement.SafeIffInvariantKept | controllers/quay/quayregistry_controller.go:120-184 | a replacement keeps the invariant exactly if the upgrade job is of the new version or absent, or no migration is reported in progress and it is finished or the new version is the recorded one |
| Replacement.AtRestIsSafe | controllers/quay/quayregistry_controller.go:120-184 | an operator without an unfinished job and without a migration in progress can be replaced by any version |
| Replacement.OldJobCreditedToNewVersion | controllers/quay/quayregistry_controller.go:160-184 | from every state with an unfinished job of the old operator and no migration reported, a run after the replacement records the new version although none of its jobs has succeeded |
| Replacement.HastyReplacementRun | controllers/quay/quayregistry_controller.go:160-184 | such a run from a fresh start, in which version 3 replaces version 2 between creating its job and reporting it |
| MigrationSafety.QueueHoldsAppJob | controllers/quay/quayregistry_controller.go:862-878 | an upgrade that is not deferred always has the upgrade job among the objects it applies |
| MigrationSafety.QueuedJobs | controllers/quay/quayregistry_controller.go:862-878 | exactly which of the three jobs a pass applies: none while storage or a database is pending, else Quay's for another version or a changed database, and each database's if it is to be upgraded |
| Phases.StepKeepsLiveIff | controllers/quay/quayregistry_controller.go:1221-1266 | from a state where migrations in progress have a live job, a step breaks that if and only if someone else deletes the needed job, or the apply loop finds a job marked for deletion with active pods and leaves it alone |
| Phases.MigrationsInProgressHaveLiveJob | controllers/quay/quayregistry_controller.go:1221-1266 | as long as neither happens, every state of a run that reports migrations in progress has an upgrade job that is present, not being deleted and of the running version; the first such step leaves a needed job that is not live |
| TerminatingJob.DoomedJobReportedInProgress | controllers/quay/quayregistry_controller.go:1235-1266 | a concrete run without any outside deletion that ends with migrations reported in progress on a job being deleted, because a failed read counts as no job and deletion marks are not looked at |
| Recreation.SucceededJobIsRecreatedIff | controllers/quay/quayregistry_controller.go:1221-1266 | the apply loop goes on to delete an upgrade job that has succeeded exactly if it could not read it or the recorded version was not the operator's when the reconcile began, whichever version rendered the job |
| Recreation.OwnSucceededJobIsRecreated | controllers/quay/quayregistry_controller.go:1221-1266 | a concrete run from a fresh start with one crash, after which the operator deletes a job of its own version that has succeeded |
| Recreation.UpgradeMayNeverEnd | controllers/quay/quayregistry_controller.go:160-218 | for every number there is a run from a fresh start in which no call and no job fails, the upgrade job succeeds that often, and the recorded version is never the operator's, because each job is looked at before it has a pod |
| Phases.DatabaseUpgradeEndsWhenJobsAreDone | controllers/quay/quayregistry_controller.go:224-397 | a registry leaves the reasons `PostgresUpgradeInProgress` and `PostgresUpgradeFailed` only at the end of a reconcile that read the job `quay-postgres-upgrade` and the job `clair-postgres-upgrade`, both by name, and found each missing or succeeded |
| Reports.ReasonMeans | controllers/quay/quayregistry_controller.go:120-397 | in every run, whenever the reason of `ComponentsCreated` changes in the store, the reconcile that wrote it has had the cause: for each of the six reasons the job it read by name and how it found it, or which upgrade jobs were in the plan it rendered |
| Reports.PassEndsAsPlanned | controllers/quay/quayregistry_controller.go:979-1027 | in every run, a full pass ends as the plan says that it rendered: pending, it just stops; then the endpoint is written; then with either database job rendered it tells `ComponentsCreated` False for a database upgrade in progress, else at another version False for migrations in progress, else nothing |
| Reports.CreatedReasonHasCause | controllers/quay/quayregistry_controller.go:120-1027 | each change of the stored reason is the landing of a last write, made pending in the same reconcile by the step that told it, with status, reason, message and time |
| Reports.LandingTells | controllers/quay/quayregistry_controller.go:1300-1327 | once such a write lands, the stored registry carries the condition told, and a told upgrade in progress is what later reconciles see |
| Reports.MigrationReadTells | controllers/quay/quayregistry_controller.go:120-218 | what is told of each answer about the upgrade job, condition by condition: missing, running, succeeded, failed, unreadable |
| Reports.DatabaseReadTells | controllers/quay/quayregistry_controller.go:224-397 | what follows each answer about the job of Quay's database and then of Clair's, by name |
| Reports.RolloutTells | controllers/quay/quayregistry_controller.go:1361-1371 | a blocked rollout is told with status True under its reason and message, a finished one with False, and no other condition, version or endpoint changes with it |
| Reports.FailureIsNamed | controllers/quay/quayregistry_controller.go:878-947 | an object that cannot be applied and a cleanup that cannot even be reported are told under reasons of their own, and nothing else is told as failing |
| Reports.ReasonDirects | controllers/quay/quayregistry_controller.go:558-572 | the stored reason alone sends a reconcile to the upgrade job, to the job of Quay's database, or into a full pass |
| Phases.StepKeepsPhase | controllers/quay/quayregistry_controller.go:562-572 | while the controller watches a migration, watches a database upgrade or makes a full pass, the stored reason is the one that sent it there |
| Progress.EveryUpgradeConverges | controllers/quay/quayregistry_controller.go:558-1039 | in any run, from wherever it has come to rest outside a database upgrade: whatever the status controller, users and the cluster do meanwhile, once reconciles have been made whose worth adds up to the rank, which is at most four, the recorded version is the operator's, and stays so while the operator does. A reconcile that meets no failure is worth one, one that waits nothing, one that fails after it began to apply minus one, and anything else minus three |
| Progress.WaitingNeverRaisesRank | controllers/quay/quayregistry_controller.go:766-996 | a reconcile that watches a migration, renders nothing or defers workloads leaves no more to do than there was, whatever goes wrong in it and whatever others do during and after it |
| Progress.StumblingCostsOne | controllers/quay/quayregistry_controller.go:878-910 | whatever a reconcile of a calm registry does, and wherever it fails, it undoes at most one step of the upgrade as long as no upgrade job fails |
| SpecCompletion.SpecIsCompletedAtMostOnce | controllers/quay/quayregistry_controller.go:750-772 | in every run, with stale copies, lost answers and both controllers at work, the operator writes the defaults into the spec at most once more often than the user edits the component list, and not even that if the list was complete at first; so at most once between two edits |
| SpecCompletion.ComponentsHaveTwoWriters | controllers/quay/quayregistry_controller.go:766-772 | the stored component list changes only by an edit of the user or by a landing completion, which defaults exactly the stored list; status writes and stale copies never change it |
| Progress.EveryRoundAdvances | controllers/quay/quayregistry_controller.go:558-1039 | every reconcile of an upgrade that meets no failure, whatever it renders around the job, strictly lowers a rank bounded by four, with steps of the status controller, users and the cluster anywhere in and after it, and with polls after it |
| Progress.InsideRound | controllers/quay/quayregistry_controller.go:558-1039 | what holds at every step of such a reconcile, for each of the ways it can go: watching the job, deleting an old one, creating a new one, the old one being gone in time or not |
| Progress.VersionStays | controllers/quay/quayregistry_controller.go:1015-1027 | without an operator replacement, a recorded version that equals the operator's is never left |
| Progress.LapsConverge | controllers/quay/quayregistry_controller.go:558-1039 | from any settled state, reconciles whose worth adds up to the rank are enough, in any order |
| Recovery.UpgradeConverges | controllers/quay/quayregistry_controller.go:558-1039 | any run outside a database upgrade can go on, over a restart and at most four reconciles that each are worth one, to a state in which the recorded version is the operator's |
| Recovery.RoundCanFinish | controllers/quay/quayregistry_controller.go:558-1039 | the protocol is never stuck: from any point of a reconcile of an upgrade, over current copies, there are moves without a failure to its end |
| Interleaving.StatusStepsStutter | controllers/quay/quayregistry_status_controller.go:41-78 | wherever a step of the status controller falls in a run, it leaves the recorded version, the endpoint, `ComponentsCreated`, `RolloutBlocked`, the jobs and the main controller's state exactly as they were |
| Interleaving.OperatorFieldsHaveOneWriter | controllers/quay/quayregistry_controller.go:1300-1327 | those fields change only by a landing write of the main controller made at the stored resource version |
| Interleaving.LandingNeedsTheLatestCopy | controllers/quay/quayregistry_controller.go:1300-1327 | every change of the stored registry but a user's bumps the resource version by one and is made over the version its writer had read |
| Interleaving.NobodyIsHeldUp | controllers/quay/quayregistry_controller.go:539-1039 | in every state users may edit the spec, the status controller may read and write, the process may die, and jobs may finish or go away; a status write can land exactly over the version it was read at |
| Interleaving.ComponentConditionsHaveOneWriter | controllers/quay/quayregistry_status_controller.go:62-74 | every other condition changes only by a landing write of the status controller |
| Interleaving.ConditionsStayDistinct | apis/quay/v1/quayregistry_types.go:283-296 | in every run a condition list without repeated types stays without them |
| Reconciler.QuayRegistryReconciler.Reconcile | controllers/quay/quayregistry_controller.go:539-1039 | one reconcile, whatever it finds and wherever its API calls fail or others interfere: what it adds to the log of the operator's moves starts with one `Begin`, ends idle, makes in every control state exactly the move prescribed for what was found, and holds no crash |
| OperatorLog.ReconcileActs | controllers/quay/quayregistry_controller.go:539-1039 | such a log has one `Begin`, no crash, and its second entry is what the stored copy and the findings call for: with all checks passed exactly the found plan is rendered, in an order of creation, and otherwise the first failing check decides |
| OperatorLog.FindingsDecide | controllers/quay/quayregistry_controller.go:912-947 | where a reconcile goes on after its apply loop, at a settled registry and after a failure, by what it has found |
| OperatorLog.LogIsReconcile | controllers/quay/quayregistry_controller.go:539-1039 | in a run of the protocol, with anything of others in between, a log that goes on as prescribed from idle to idle is one whole reconcile |
| OperatorLog.LogIsChained | controllers/quay/quayregistry_controller.go:539-1039 | whatever users, jobs and the status controller do in between, each of the operator's moves starts in the control state in which its last one ended |
| OperatorLog.LoggedEventsAreThere | controllers/quay/quayregistry_controller.go:539-1039 | no move of the operator is missing from the log |
| OperatorLog.LogHasNoCrash | controllers/quay/quayregistry_controller.go:539-1039 | a run whose log is prescribed has no crash and no replacement of the operator |
| Reconciler.QuayRegistryReconciler.CheckMigrationStatus | controllers/quay/quayregistry_controller.go:120-218 | the log grows by the read of the job and the write of the verdict on exactly that answer: missing, active, succeeded, failed with or without a message; after an unreadable job nothing is written |
| Reconciler.QuayRegistryReconciler.CheckPostgresUpgradeStatus | controllers/quay/quayregistry_controller.go:224-397 | the jobs `quay-postgres-upgrade` and `clair-postgres-upgrade` are both read and found missing or succeeded, and then the next and last entry of the log is the write of the success report; or one of them was unreadable, running or failed, and the loop stopped there |
| Reconciler.QuayRegistryReconciler.CheckDatabaseJob | controllers/quay/quayregistry_controller.go:240-345 | one database job: it was read and found missing or succeeded, and the next is to be looked at; or not, and the log grows by the verdict on that answer, if there is anything to report |
| Reconciler.QuayRegistryReconciler.CreateOrUpdateObject | controllers/quay/quayregistry_controller.go:1202-1298 | something is done about the object as the next entry of the log, and the three answers, goes on, requeue and failure, each stand for one state of the protocol |
| Reconciler.QuayRegistryReconciler.RunChecks | controllers/quay/quayregistry_controller.go:574-800 | the pass goes on, with nothing logged, exactly if every check before rendering passes; otherwise the next entry is what the first failing check calls for: a report, a return, the spec update with a bundle name, or the spec update with exactly the completed component list |
| Reconciler.QuayRegistryReconciler.CarryOut | controllers/quay/quayregistry_controller.go:750-772 | completing the component list, by defaulting a copy of it and comparing the two: gives up over a kind asked for in vain, then reports invalid overrides, then asks for a spec update, and else passes |
| Reconciler.Cluster.UpdateComponents | controllers/quay/quayregistry_controller.go:766-772 | a landing update of the spec stores the copy that was read with the completed list, and the reconcile is over either way |
| Reconciler.QuayRegistryReconciler.FailCheck | controllers/quay/quayregistry_controller.go:574-800 | the next entry of the log is what this failing check calls for, and the reconcile ends idle |
| Reconciler.QuayRegistryReconciler.ApplyObjects | controllers/quay/quayregistry_controller.go:878-910 | goes through the whole queue in order and then on, or ends idle at the first failure, after reporting it, or requeue; all its moves are the prescribed ones |
| Reconciler.QuayRegistryReconciler.Cleanup | controllers/quay/quayregistry_controller.go:925-947 | a failed deletion is reported on the first copy of the registry; only if that report fails too does the reconcile stop; without a failure it goes on |
| Reconciler.QuayRegistryReconciler.UpdateEndpoint | controllers/quay/quayregistry_controller.go:979-996 | a deferring pass ends here; with the endpoint unchanged the copy is handed on as it is; otherwise the endpoint is written, and the next decision is made on the stored copy |
| Reconciler.QuayRegistryReconciler.Conclude | controllers/quay/quayregistry_controller.go:998-1039 | exactly one move, in the state that tells a database upgrade for either job in the plan, else migrations for another version, and else is the settled registry |
| Reconciler.Cluster.UpdateStatus | controllers/quay/quayregistry_controller.go:1326-1326 | a status write lands only over the resource version it was read at; acknowledged, lost and rejected writes are told apart by what the caller sees |
| Reconciler.QuayRegistryStatusReconciler.Reconcile | controllers/quay/quayregistry_status_controller.go:41-78 | an acknowledged status reconcile stores exactly the evaluated conditions glued into the copy it read, which was the stored one, and leaves Available saying whether anything was reported False |
| Reconciler.ClusterRecordsMigratedVersions | controllers/quay/quayregistry_controller.go:160-184 | in any cluster these controllers have worked on from a fresh start, the version on record is the first one or one migrated to |
| Evaluator.Evaluate | pkg/cmpstatus/evaluator.go:24-127 | the loops with their early ends compute the reference evaluation |
| Evaluator.EvaluationIsExact | pkg/cmpstatus/evaluator.go:24-127 | what a successful evaluation reports: the first nine components' own conditions; quay's own if its six dependencies are True, else that it awaits exactly those that are not, by name; mirror's own if quay's is True, else that it awaits quay |
| Evaluator.FailsIffAskedFails | pkg/cmpstatus/evaluator.go:24-127 | the evaluation fails exactly if a checker fails that is asked; quay is asked only over healthy dependencies, and mirror only over a healthy quay |
| Evaluator.FirstErrorIsReported | pkg/cmpstatus/evaluator.go:24-127 | and then with the error of the first of them |
| Evaluator.AllHealthyIff | pkg/cmpstatus/evaluator.go:24-127 | all eleven checkers answer True exactly if the evaluation succeeds and every condition is True |
| Evaluator.EvaluationIsReport | pkg/cmpstatus/evaluator.go:24-127 | a successful evaluation reports every component exactly once, but for monitoring, whose report may be the zero condition |
| Evaluator.NotReadyIffFalse | pkg/cmpstatus/evaluator.go:66-116 | some condition has the reason `ComponentNotReady` if and only if some condition is False, although pending and failed volume claims have reasons of their own |
| Evaluator.HealthIsStaged | pkg/cmpstatus/evaluator.go:66-116 | quay is reported healthy only over six healthy dependencies, mirror only over a healthy quay |
| Checkers.CheckDatabase | pkg/cmpstatus/database_status.go:23-153 | a database is reported True exactly if its deployment is owned and healthy and its claim, if it has one, is found and not pending; of a pending claim provisioning is reported failed exactly if an event says so; an error exactly if a read fails that is made |
| Checkers.CheckDeployment | pkg/cmpstatus/deploy.go:23-62 | True exactly if some replica is available and the first Available condition is True; any other outcome is False and not ready |
| Checkers.CheckMonitoring | pkg/cmpstatus/monitoring.go:29-123 | the zero condition comes without an error exactly when the rule is there and owned and reading the monitor fails |
| StatusController.AvailableIffNothingFalse | controllers/quay/quayregistry_status_controller.go:100-128 | after a successful status reconcile Available is True exactly if the evaluation returned no False condition, and False exactly otherwise |
| StatusController.HealthyIsAvailable | controllers/quay/quayregistry_status_controller.go:100-128 | all eleven checkers answering True makes the registry available |
| StatusController.AvailableTold | controllers/quay/quayregistry_status_controller.go:100-128 | the whole condition: status, reason and message of the verdict, and its transition time kept for an unchanged verdict and else the first reading of the clock |
| StatusController.OverwriteConditions | controllers/quay/quayregistry_status_controller.go:82-134 | the list in place becomes the merged report, the verdict on Available, and only types of this release |
| StatusController.FindOverwritten | controllers/quay/quayregistry_status_controller.go:86-98 | type by type: what was reported replaces what was there, and every other known type is untouched |
| StatusController.OverwrittenKeepsOperatorConditions | controllers/quay/quayregistry_status_controller.go:82-134 | `ComponentsCreated` and `RolloutBlocked` pass through a status reconcile unchanged |
| StatusController.OverwrittenDistinct | controllers/quay/quayregistry_status_controller.go:82-134 | no repeated types are introduced and no unknown types are left |
| StatusController.TransitionIsRunStart | controllers/quay/quayregistry_status_controller.go:86-98 | over any history of writes by both controllers, a component's transition time is the update time of the first report of its current unbroken run of equal statuses |
| Interleaving.TransitionTimesInRuns | controllers/quay/quayregistry_status_controller.go:62-98 | in every run of both controllers from a fresh start, with lost, rejected and stale writes, the stored transition time of a component is the time of the first landed report of its current unbroken run of equal statuses |
| Conditions.SetCondition | apis/quay/v1/quayregistry_types.go:283-296 | replaces the first condition of the type or appends |
| Conditions.PutInPlace | apis/quay/v1/quayregistry_types.go:283-296 | the first condition of the type is replaced where it stands; without one the new condition comes last |
| Conditions.RemoveCondition | apis/quay/v1/quayregistry_types.go:299-312 | drops every condition of the type and keeps the order of the rest |
| Conditions.GetCondition | apis/quay/v1/quayregistry_types.go:271-279 | finds the first condition of the type |
| Conditions.RemoveUnusedConditions | apis/quay/v1/quayregistry_types.go:981-1011 | keeps exactly the conditions of the listed types, in order |
| Conditions.FindPut | apis/quay/v1/quayregistry_types.go:271-296 | after setting a condition, looking its type up gives it back, and every other type looks as before, on lists with or without repetitions |
| Conditions.FindWithout | apis/quay/v1/quayregistry_types.go:271-312 | after removing a type it is not found, and every other type looks as before |
| Conditions.ValidTypesAreKnown | apis/quay/v1/quayregistry_types.go:982-997 | the table of valid types is complete and contains nothing else |
| Components.EnsureDefaultComponents | apis/quay/v1/quayregistry_types.go:450-536 | fails at the first kind, in the fixed order, that is asked for in vain, with the list as far as it got; otherwise nothing was asked for in vain and the list is the defaulted one |
| Components.DefaultedCoversAll | apis/quay/v1/quayregistry_types.go:499-533 | a defaulted list has every kind; the declared entries come first, in order and unchanged but for quay's; added entries repeat no kind |
| Components.AddedDefault | apis/quay/v1/quayregistry_types.go:486-533 | what an undeclared component becomes, kind by kind: managed but for what this cluster does not support and for TLS under a certificate or key of the user's |
| Components.DefaultsOfNothing | apis/quay/v1/quayregistry_types.go:450-536 | a registry that declares nothing gets the eleven components in their order, all managed where all is supported |
| Components.FailsIff | apis/quay/v1/quayregistry_types.go:487-497 | defaulting fails exactly if routes, object storage or monitoring are missing for a component that the user manages |
| Components.DefaultedManagesQuay | apis/quay/v1/quayregistry_types.go:513-515 | the entry that speaks for quay is managed afterwards |
| Components.NothingUnsupportedIsManaged | apis/quay/v1/quayregistry_types.go:487-497 | what was not asked for in vain is not managed without support after defaulting either |
| Components.DefaultedStays | apis/quay/v1/quayregistry_types.go:450-536 | a second defaulting, in any later context and however far it gets, changes nothing |
| Components.ComponentsMatch | apis/quay/v1/quayregistry_types.go:383-401 | answers whether the lists are equally long and every pair of kind and management of the first occurs in the second |
| Components.MatchIsSameSet | apis/quay/v1/quayregistry_types.go:383-401 | on lists without repeated kinds matching is having the same set of pairs, by counting |
| Components.MatchIsEquivalence | apis/quay/v1/quayregistry_types.go:383-401 | on such lists matching is reflexive, symmetric and transitive |
| Components.MatchTurnsAround | apis/quay/v1/quayregistry_types.go:383-401 | on any lists a match holds the other way round exactly if both have equally many different pairs |
| Components.RepeatedKindsMatchOneWay | apis/quay/v1/quayregistry_types.go:383-401 | a concrete match that does not hold the other way round |
| Components.AcceptedIffUnchanged | controllers/quay/quayregistry_controller.go:750-772 | the defaulted copy is accepted as matching exactly if defaulting changed nothing, or quay was declared unmanaged twice and nothing was missing |
| Components.QuayUnmanagedTwiceGoesUnnoticed | controllers/quay/quayregistry_controller.go:750-772 | concrete lists, in any context, that defaulting changes and that count as matching nevertheless |
| Components.DefaultsWrittenAtMostOnce | controllers/quay/quayregistry_controller.go:766-772 | over any sequence of reconciles, with updates landing or not, the defaults are written at most once until the user edits the list |
| Components.ComponentIsManaged | apis/quay/v1/quayregistry_types.go:404-417 | the first entry of a kind decides, quay is always managed, an undeclared kind is not |
| CreationOrder.EnsureCreationOrder | pkg/kustomize/kustomize.go:178-189 | arrays of any length, in place: a rearrangement with deployments and jobs last, through insertion sort for at most twelve objects, and else through whatever Go's quicksort may do, with any pivot and anything that rearranges inside the two halves; up to twelve objects the order is the reversed others and then the workloads in order |
| CreationOrder.InsertionSort | pkg/kustomize/kustomize.go:178-189 | sinking with this comparator, which is not an order, gives the other objects in reverse followed by the workloads in order |
| CreationOrder.PartialInsertionSort | pkg/kustomize/kustomize.go:178-189 | the attempt to finish with a few shifts keeps the objects, and claims success only over workloads last |
| CreationOrder.Partition | pkg/kustomize/kustomize.go:178-189 | around any pivot, only other objects are left of it and only workloads right of it, and none is lost |
| CreationOrder.OrderedIsPermutation | pkg/kustomize/kustomize.go:178-189 | the order of the insertion sort is a rearrangement of what was rendered |
| CreationOrder.OrderedWorkloadsLast | pkg/kustomize/kustomize.go:178-189 | every object that is not a deployment or job comes before all that are |
| CreationOrder.FilterDeferredWorkloads | controllers/quay/quayregistry_controller.go:1595-1612 | returns the filtered queue, or the queue itself when nothing is deferred |
| CreationOrder.FilteredKeepsOrder | controllers/quay/quayregistry_controller.go:1595-1612 | filtering keeps workloads last and drops exactly the deployments and jobs that are not infrastructure, when workloads are deferred |
| CreationOrder.HeldBack | controllers/quay/quayregistry_controller.go:1585-1612 | what is held back: all deployments and jobs but those of postgres, clair-postgres and redis, and nothing else |
| CreationOrder.QueueMembers | controllers/quay/quayregistry_controller.go:878-878 | what a reconcile walks over, for any order with workloads last: workloads still come last, and exactly the deferred ones are missing |
| Credentials.CheckManagedKeys | controllers/quay/features.go:95-121 | the keys read back are those of the managed-keys secret, else of the first older secret named after it, else none; a failed read is an error |
| Credentials.Inflate | pkg/kustomize/kustomize.go:630-675 | generation of keys in its three places succeeds exactly if every draw that is needed succeeds, leaves the completed keys in the context, and tells whether the database configuration changed |
| Credentials.CompletedValues | pkg/kustomize/kustomize.go:630-675 | key by key where it comes from: the user, else what was read back, else the draw made for that key; the password of Clair's database is `postgres` exactly if one is made up and a root password was read back |
| Credentials.CompletedIff | pkg/kustomize/kustomize.go:358-387 | completion fails exactly if the random source fails for a key that is missing |
| Credentials.ChangedIffUriDiffers | pkg/kustomize/kustomize.go:648-674 | the database counts as changed exactly if the URI rendered differs from the one read back |
| Credentials.EnsureScannerKey | pkg/kustomize/secrets.go:42-51 | Clair's pre-shared key is drawn only for a managed Clair without one |
| Credentials.EnsureDatabaseKeys | pkg/kustomize/kustomize.go:358-387 | Clair's database credentials, from a draw or from the legacy value, and the root password |
| Credentials.CompletedKeeps | pkg/kustomize/kustomize.go:630-675 | each key is what the user sets, else what was stored; only missing keys are made up; Clair's two passwords stay equal |
| Credentials.CompletingIsIdempotent | pkg/kustomize/kustomize.go:630-675 | keys completed once are completed again without any draw and without a change, and the database counts as unchanged |
| KeyHistory.WorkloadsRunOnStoredKeys | controllers/quay/quayregistry_controller.go:878-910 | at the moment any deployment or job is applied, the managed-keys secret holds exactly the keys it was rendered from |
| KeyHistory.PrefixEffect | controllers/quay/quayregistry_controller.go:878-910 | wherever the apply loop stops, either the keys of this reconcile are stored, or neither the secret nor any workload has changed |
| KeyHistory.RoundIsExact | controllers/quay/quayregistry_controller.go:878-910 | wherever a reconcile stops: the secret holds its keys exactly if it got as far as the secret named for them, and every deployment and job it got to runs on them, and no other |
| KeyHistory.StoredKeysAreRead | controllers/quay/features.go:95-121 | a reconcile that cannot read the secret changes nothing; one that finds keys stored goes by them alone |
| KeyHistory.Cluster.Reconcile | controllers/quay/quayregistry_controller.go:612-910 | reading, completing, ordering and applying, with a failure at any object: the keys and workloads afterwards are those of exactly the objects before the failing one, and of that one if its write landed |
| KeyHistory.StoredKeysAreStable | controllers/quay/features.go:95-121 | a key once stored keeps its value through any number of reconciles, crashes and failed draws, unless a user's configuration set it in between, to the value then stored |
| KeyHistory.UnsettableKeysNeverChange | pkg/kustomize/kustomize.go:358-387 | keys no user can set never change once stored |
| KeyHistory.ClairPasswordsAgree | pkg/kustomize/kustomize.go:374-377 | Clair's root and user passwords agree in whatever is stored at any time |
| KeyHistory.NoWorkloadIsLeftBehind | controllers/quay/quayregistry_controller.go:878-910 | every workload was applied at some moment at which the secret held exactly its keys, and each of them is the stored one still, or a user has set the stored one after that moment |
| KeyHistory.AppliedOverStoredKeys | controllers/quay/quayregistry_controller.go:878-910 | for every workload of every history, the moment it was last applied, at which the secret held its keys |
| KeyHistory.LegacyPasswordIff | pkg/kustomize/kustomize.go:358-379 | on a cluster that started without keys, which password is rendered for Clair's database: the stored one once Clair's keys were stored; `postgres` if keys were stored without them before; else the one drawn |
| KeyHistory.LegacyPasswordNeedsClairLeftOut | pkg/kustomize/kustomize.go:358-379 | a registry whose first stored keys included those of a managed Clair database renders the password drawn then for good, and before that each reconcile its own draw |
| KeyHistory.OlderKeysAreTakenOver | controllers/quay/features.go:55-121 | with nothing stored, every key of the first secret of an older release is rendered as it is, unless the user sets it |
| RandomStrings.GenerateRandomString | pkg/kustomize/secrets.go:486-496 | overwrites the random bytes in place: as many letters as bytes, each the letter its byte selects modulo 63 |
| RandomStrings.EveryKeyCanBeDrawn | pkg/kustomize/secrets.go:486-496 | every string over the alphabet is the image of some bytes |
| RandomStrings.UriRoundTrip | pkg/kustomize/secrets.go:311-337 | taking a generated database URI apart gives back the user, the password and the database name it was put together from |
| Credentials.ManagedUriParses | pkg/kustomize/kustomize.go:659-674 | so the managed database is created with the credentials Quay connects with |
| Credentials.ManagedUriText | pkg/kustomize/kustomize.go:659-674 | the generated URI, written out |
| Rendering.InflateConfig | pkg/kustomize/kustomize.go:623-706 | keys are completed while files are written, and the files come out right for the final keys: `DATABASE_SECRET_KEY`, `SECRET_KEY` and `DB_URI` under their names, everything else as the user sets it and only else from the defaults, a key of the user's own kept, the pre-shared key in Clair's file and the URI in the database's, no other file touched, and no key missing that a managed component needs |
| Rendering.FilesAreRight | pkg/kustomize/kustomize.go:623-706 | the same of the files rendered from any keys |
| Rendering.AddDefaults | pkg/kustomize/kustomize.go:677-681 | defaults are filled in without touching what is set, in any order of the map |
| Rendering.SourcesIgnoreMapOrder | pkg/kustomize/kustomize.go:344-401 | the sorted config sources and CA keys are the same for every order of walking the same map |
| Rendering.SortedUnique | pkg/kustomize/kustomize.go:353-397 | a sorted rearrangement is unique, for the byte-wise order of strings |
| Rendering.GeneratedSecretIsStable | pkg/kustomize/kustomize.go:344-401 | once a reconcile's keys are stored, the next one over unchanged inputs generates the same files and the same lists of sources, so the generated name cannot change |
| Middleware.FlattenSecret | pkg/middleware/middleware.go:379-412 | for the order the range happens to take: the folded config, or the first parse error or write to a missing base |
| Middleware.OrderIsImmaterialIffFilesAgree | pkg/middleware/middleware.go:387-404 | every order of the map gives the same secret if and only if config files that set the same field set it to the same value |
| Middleware.FlattenedFields | pkg/middleware/middleware.go:387-411 | a field is what the last file setting it says, else what the base says; exactly the config files are removed and every other file is untouched |
| Middleware.DisjointFilesOverrideBase | pkg/middleware/middleware.go:387-404 | with fields of their own, component files override the base field by field |
| Middleware.FlattenedOk | pkg/middleware/middleware.go:379-412 | whether flattening succeeds does not depend on the order: exactly if all YAML parses and there is a base for any field set |
| Middleware.FlatteningIsIdempotent | pkg/middleware/middleware.go:379-412 | flattening a flattened secret in any order gives it back |
| Middleware.ProcessConfigSecret | pkg/middleware/middleware.go:60-84 | the rendered secret keeps exactly the entries that are not mounted elsewhere |
| Containers.UpsertContainerEnv | pkg/middleware/middleware.go:363-375 | the container's list in place: the first variable of the name replaced, or the new one appended |
| Containers.OverrideEnv | pkg/middleware/middleware.go:91-105 | after the nested loops every container holds its own list with all overrides folded in, in order |
| Containers.LastOverrideWins | pkg/middleware/middleware.go:91-105 | an overridden name ends up with its last override, at its first occurrence |
| Containers.OthersKeepTheirPlace | pkg/middleware/middleware.go:91-105 | no variable moves, and one that is not overridden or repeats an earlier name does not change |
| Containers.OverriddenKeepsNamesUnique | pkg/middleware/middleware.go:91-105 | lists without repeated names stay so |
| Containers.OverriddenGrowsByNewNames | pkg/middleware/middleware.go:91-105 | the list grows by exactly the number of different new names |
| Containers.OverridingIsIdempotent | pkg/middleware/middleware.go:91-105 | applying the same overrides again changes nothing, even with repeated names and overrides |
| Images.ComponentImageFor | pkg/kustomize/kustomize.go:71-88 | one `@` splits off a digest, failing that one `:` a tag, anything else is an error |
| Images.RejoiningGivesTheReferenceBack | pkg/kustomize/kustomize.go:71-88 | joining the parts gives the reference back exactly if something followed its separator |
| Images.OnlyRepositoriesCount | controllers/quay/features.go:575-598 | between a deployed reference and an override, each with a path and a tag or digest, an upgrade is due exactly if their repositories differ |
| Images.RunningTheOverrideNeedsNoUpgrade | controllers/quay/features.go:575-598 | a deployment running an accepted override with a name and at most one `@` is never marked for an upgrade |
| Images.RunningTheOverrideNeedsUpgradeIff | controllers/quay/features.go:575-598 | exactly if it has two `@` or nothing before its separator: for every accepted reference with at most one `@`, a registry's port included, and for those with more without a slash behind the first separator |
| Images.BothCuts | controllers/quay/features.go:575-598 | an accepted reference with several `@` and a name marks its own deployment exactly if what precedes the first `@` and what precedes the colon end in different repositories |
| Images.TwoAtSignsNeverMatch | pkg/kustomize/kustomize.go:76-87 | a concrete accepted override with two `@` that marks its own deployment |
| Images.SlashedSuffixMatches | controllers/quay/features.go:575-598 | a concrete override with two `@` and a slash behind its separator that does match its own deployment |
| Images.RejectedOverrideDemandsUpgrade | controllers/quay/features.go:579-582 | a rejected override marks every deployment whose image has a name |
| PostgresUpgrade.CheckNeedsPostgresUpgrade | controllers/quay/features.go:540-636 | marks the database exactly if it is deployed, readable and of another repository, scales it to no replicas if the update lands, and lets the reconcile go on exactly if it need not be upgraded or no listed pod was running |
| PostgresUpgrade.RenderUpgrades | controllers/quay/quayregistry_controller.go:676-710 | a reconcile that gets to rendering renders the upgrade of each database exactly if it is managed, deployed, readable and of another repository than wanted, and then none of its listed pods was running; it is held up exactly if one of those that are due still runs or cannot be listed |
| PostgresUpgrade.UpgradeComponents | pkg/kustomize/kustomize.go:533-543 | a database's upgrade component is rendered exactly if the database is marked, and scales Clair down exactly if Clair is managed |
| SecretCleanup.LiveSecretSurvives | controllers/quay/quayregistry_controller.go:925-947 | over any history in which cleaning passes do not defer workloads, wherever each pass stops, the secret the live quay-app template mounts exists |
| SecretCleanup.LiveSecretLostIff | controllers/quay/quayregistry_controller.go:862-947 | a pass takes the live secret away exactly if it deferred workloads, went on to clean up, and deleted as far as that secret |
| SecretCleanup.DeferringCleanupTakesLiveSecretIff | controllers/quay/quayregistry_controller.go:862-947 | for a deferring pass that cleans up completely: exactly if the live secret is a rendered one, not the user's bundle, and not the one this pass renders |
| SecretCleanup.DeferringCleanupTakesLiveSecret | controllers/quay/quayregistry_controller.go:862-947 | a concrete namespace and pass, for any two config secret names, in which the live secret is lost |
| SecretCleanup.TwoConfigSecretNames | controllers/quay/quayregistry_controller.go:462-483 | every registry has two such names |
| SecretCleanup.BundleSurvives | controllers/quay/quayregistry_controller.go:477-481 | the bundle named by `spec.configBundleSecret`, as read, survives every pass |
| SecretCleanup.CleanupDeletesExactly | controllers/quay/quayregistry_controller.go:1329-1357 | a complete cleanup deletes exactly the rendered secrets other than the bundle and the current one |
| SecretCleanup.Cluster.Reconcile | controllers/quay/quayregistry_controller.go:816-947 | listing, picking, applying, gating and deleting, with a failure anywhere: exactly the objects before the failing one are applied, and exactly the deletions before the failing one are made, none unless the loop ended and the gate passed |
| SecretCleanup.OutcomeMeans | controllers/quay/quayregistry_controller.go:816-947 | how far a pass applies and deletes for each failure it may meet |
| SecretCleanup.DeletesOnlyBehindTheGate | controllers/quay/quayregistry_controller.go:925-947 | a secret is deleted only after the whole queue was applied, and only if the deployment was read and is missing or fully rolled out at its generation |
| SecretCleanup.GetOldConfigBundleSecrets | controllers/quay/quayregistry_controller.go:462-483 | the secrets with the rendered prefix but for the bundle; a namespace without secrets is an error |
| SecretCleanup.QuayAppDeploymentRolledOut | controllers/quay/quayregistry_controller.go:492-522 | passes for a missing deployment, and for one that is observed at its generation with updated and available pods both as many as desired, which is one if unset |
| SecretCleanup.GateBalancesPods | controllers/quay/quayregistry_controller.go:520-521 | when the gate passes, available pods of older templates are exactly as many as unavailable pods of the new one; in particular there is one of the first kind exactly if there is one of the second |
| SecretCleanup.ServingPodLosesSecretOnlyOverPendingOnes | controllers/quay/quayregistry_controller.go:925-947 | a pass deletes the secret an available old pod mounts only while just as many pods of the new template are unavailable, and at least one is |
| SecretCleanup.GateOpensOverOldPod | controllers/quay/quayregistry_controller.go:520-521 | a concrete rollout in which the gate passes while an old pod serves |
| Components.AcceptedIffUnchangedWhenDistinct | controllers/quay/quayregistry_controller.go:750-772 | for lists without repeated kinds the defaulted copy is accepted exactly if defaulting changed nothing |
| Components.EnsureDefault | apis/quay/v1/quayregistry_types.go:486-533 | one kind: refused if asked for in vain, left alone if declared, put right if it is quay, added otherwise |
| Rendering.ConfigSources | pkg/kustomize/kustomize.go:348-356 | the file sources are the sorted keys of the files, whatever order the map was walked in |
| Rendering.CaCertKeys | pkg/kustomize/kustomize.go:390-397 | the CA keys are exactly the keys with the prefix, sorted |
| Rendering.FieldGroupFor | pkg/kustomize/secrets.go:31-157 | every group but Clair's leaves the context alone; Clair's draws its key if it is missing and fails only with that draw |
| Rendering.AddFieldGroups | pkg/kustomize/kustomize.go:698-706 | after the loop the group of every managed entry is there, rendered from the keys the loop ended with |
| Credentials.EnsureConfigKeys | pkg/kustomize/kustomize.go:630-675 | the three keys of the main config as `Credentials.CompletedValues` says, and whether the database configuration differs from the stored one |
| Credentials.CheckDeprecatedManagedKeys | controllers/quay/features.go:55-91 | the first listed secret named after the managed keys, and no keys if there is none |
| Credentials.DeprecatedIsFirst | controllers/quay/features.go:55-91 | of the listed secrets the first with a fitting name counts, and only that |
| PostgresUpgrade.CheckUpgrades | controllers/quay/quayregistry_controller.go:676-710 | both databases are looked at in order, and the reconcile goes on exactly if neither holds it up |
| SecretCleanup.PreviousSecrets | controllers/quay/quayregistry_controller.go:816-860 | what is up for deletion: old rendered secrets but for the one being rendered |
| SecretCleanup.CurrentConfigSecret | controllers/quay/quayregistry_controller.go:816-828 | finds a rendered config secret among the objects exactly if there is one |
| SecretCleanup.Cluster.CleanupPreviousSecrets | controllers/quay/quayregistry_controller.go:1329-1357 | deletes exactly the secrets before the one that fails, or all, and says whether one failed |
| SecretCleanup.SecretBeforeApp | controllers/quay/quayregistry_controller.go:878-910 | wherever the apply loop stops, a deployment it has applied finds its secret applied |
| SecretCleanup.QuayAppMounts | controllers/quay/quayregistry_controller.go:878-910 | the live secret is the one mounted by the deployment named after the registry, and applying a secret only adds it |
| Reconciler.QuayRegistryReconciler.UpdateWithCondition | controllers/quay/quayregistry_controller.go:1300-1327 | the log grows by the write of the copy with the condition set; a stored copy is handed back only if the write was acknowledged, and is what the cluster holds |
| Reconciler.QuayRegistryReconciler.ReconcileWithCondition | controllers/quay/quayregistry_controller.go:1361-1371 | the log grows by the report with this reason and message on the given copy and by its write, landed or not, and the reconcile is over |
| Reconciler.QuayRegistryReconciler.RecreateJob | controllers/quay/quayregistry_controller.go:1247-1266 | deletes and creates a job, telling an existing one (requeue) from a refusal (failure) |
| Reconciler.QuayRegistryReconciler.ReportRolledOut | controllers/quay/quayregistry_controller.go:966-977 | the log grows by the report of the finished rollout on the copy without the blocking condition and by its write; the reconcile goes on with what was stored or ends. The look for a leftover condition before it never finds one |
| Reconciler.QuayRegistryReconciler.Rollout | controllers/quay/quayregistry_controller.go:862-910 | what was rendered is put into an order of creation, the next entry of the log is the inflation with exactly that plan and order, and the queue applied is the order filtered |
| OperatorLog.FirstFailure | controllers/quay/quayregistry_controller.go:574-800 | the check that decides is the first that this component list does not pass; there is none exactly if all pass |
| OperatorLog.CompletionMeans | controllers/quay/quayregistry_controller.go:750-772 | the four ends that completing the component list can come to, and exactly when |
| Evaluator.EvaluationTypes | pkg/cmpstatus/evaluator.go:24-127 | the eleven conditions belong to the eleven components in a fixed order |

## Left out

- CreationOrder.EnsureCreationOrder: which pivot Go chooses, and how it goes on inside the two halves, is left open beyond twelve objects; every choice is covered, and the exact order is stated only for at most twelve.
- Progress.EveryUpgradeConverges: says nothing about registries in a database upgrade, because a database that was scaled down is normally seen as not initialized in the same pass; only safety is claimed there. A reconcile is looked at from one settled state to the next, in which the upgrade job is over; `Recreation.UpgradeMayNeverEnd` shows that this cannot be left out.
- Images.RunningTheOverrideNeedsUpgradeIff: for references with two `@` and a slash behind the first separator `Images.BothCuts` has the exact condition, in terms of the two names that are compared.
- Reconciler.QuayRegistryReconciler.RunChecks: the checks before rendering (TLS secrets, hostnames, routes, object storage, monitoring, overrides, necessary configuration) are given by their outcome; the completion of the component list is carried out, and the ones on keys and databases are modelled in their own modules.
- Reconciler.QuayRegistryReconciler.CheckPostgresUpgradeStatus: the removal of old database deployments, services and claims after an upgrade is not modelled; owner references are removed only from copies in memory.
- Checkers.CheckDatabase: messages are abbreviated, and of the other health checkers only the shape of their reports is assumed.
- Rendering.InflateConfig: YAML encoding is an injective constructor, field groups are reduced to the key they carry and the settings they take from the cluster, and the TLS profile fields count among the defaults.
- Middleware.FlattenSecret: a secret whose data map was never made is not told apart from an empty one.
- KeyHistory.StoredKeysAreStable: a user's deletion of the managed-keys secret is not modelled.
- SecretCleanup.LiveSecretSurvives: covers the quay-app deployment; jobs and the mirror deployment mount the same secret but are not part of the gate.
- Component secrets list their literal sources in map order (pkg/kustomize/kustomize.go:511-514); their names carry no content hash, so nothing depends on it.
- Deletion of a registry, finalizers, namespace labels and Grafana dashboards.
- The Kustomize engine, server-side apply, HPA conversion, watches and caches.
- TLS certificates and their validation, route probing, hostname discovery, hashing.
- The fields `lastUpdated` and `observedGeneration`, events and logs.
- The remaining steps of Process: affinity, replicas, resources, labels, annotations, volume sizes, routes.
- Wall-clock time is a parameter; its readings are not assumed to grow.
