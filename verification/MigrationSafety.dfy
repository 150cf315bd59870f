/**
 What every run of the upgrade protocol keeps: the recorded version only moves to a version
 whose own upgrade job has succeeded.
 */
module MigrationSafety {
  import opened Wrappers
  import opened Conditions
  import opened CreationOrder
  import opened Protocol
  import StatusController

  // ---- The invariant ----

  /** The copy is not newer than what is stored, and equal to it unless it is stale. */
  predicate CopyOf(q: Registry, reg: Registry) {
    q.rv <= reg.rv && (q.rv == reg.rv ==> q == reg)
  }

  /** The upgrade job, if there is one, was rendered by the running version. */
  predicate OwnJob(w: World) {
    AppUpgrade in w.jobs ==> w.jobs[AppUpgrade].renderedBy == w.op
  }

  predicate JobSane(w: World) {
    AppUpgrade in w.jobs ==>
      var job := w.jobs[AppUpgrade];
      && job.succeeded <= 1
      && (Finished(job) ==> job.active == 0)
      && (!Finished(job) ==> job.renderedBy == w.op || w.reg.currentVersion == w.op)
      && (job.succeeded >= 1 ==> (AppUpgrade, job.renderedBy) in w.done)
  }

  /** What a pending status write may change, should it land. */
  predicate WantOk(w: World, want: Registry) {
    && want.rv <= w.reg.rv
    && (want.rv == w.reg.rv ==>
          && want.components == w.reg.components
          && (want.currentVersion == w.reg.currentVersion
              || (want.currentVersion == w.op && (AppUpgrade, w.op) in w.done))
          && (MigrationsRunning(want) ==> OwnJob(w)))
  }

  predicate IsAppJob(o: KubeObject) {
    IsJob(o) && o.payload == AppUpgrade
  }

  ghost predicate NoAppJob(todo: seq<KubeObject>) {
    forall i | 0 <= i < |todo| :: !IsAppJob(todo[i])
  }

  lemma NoAppJobTail(todo: seq<KubeObject>)
    requires todo != [] && NoAppJob(todo[1..]) && !IsAppJob(todo[0])
    ensures NoAppJob(todo)
  {
    forall i | 0 <= i < |todo| ensures !IsAppJob(todo[i]) {
      if i > 0 { assert todo[1..][i - 1] == todo[i]; }
    }
  }

  /** The copy of the registry the controller works on, if it makes a full pass. */
  function Copy(main: Main): Option<Registry> {
    match main
    case Apply(quay, _, _) => Some(quay)
    case DeleteJob(quay, _, _) => Some(quay)
    case CreateJob(quay, _, _) => Some(quay)
    case ReportCleanup(quay, _, _) => Some(quay)
    case Settle(quay, _) => Some(quay)
    case ReportRollout(_, want) => Some(want)
    case Decide(_, updated) => Some(updated)
    case ReportEndpoint(_, want) => Some(want)
    case Gate(_, updated) => Some(updated)
    case _ => None
  }

  /** A pass over a current copy makes an upgrade that it does not defer. */
  predicate MakesUpgrade(w: World) {
    Copy(w.main).Some? && !Defers(w.main.plan) && Copy(w.main).value.currentVersion != w.op && Copy(w.main).value.rv == w.reg.rv
  }

  /** And it has dealt with the upgrade job. */
  ghost predicate Upgraded(w: World) {
    MakesUpgrade(w) && (w.main.Apply? || w.main.DeleteJob? || w.main.CreateJob? ==> NoAppJob(w.main.todo))
  }

  predicate CopiesOk(w: World) {
    && (HoldsQuay(w.main) ==> CopyOf(w.main.quay, w.reg))
    && (w.main.Decide? || w.main.Gate? || w.main.Finalize? ==> CopyOf(w.main.updated, w.reg))
    && (w.status.Evaluated? ==> CopyOf(w.status.reg, w.reg))
    && (HoldsWant(w.main) ==> WantOk(w, w.main.want))
  }

  ghost predicate Inv(w: World) {
    && JobSane(w)
    && CopiesOk(w)
    && (MigrationsRunning(w.reg) ==> OwnJob(w))
    && (w.main.ReadMigrationJob? ==> MigrationsRunning(w.reg))
    && (Upgraded(w) ==> OwnJob(w))
    && (w.main.ReportEndpoint? || w.main.Gate? ==> !Defers(w.main.plan))
  }

  // ---- Which writes touch the ComponentsCreated condition ----

  lemma BlockedKeepsCreated(quay: Registry, reason: Reason, message: Message, now: Time)
    ensures CreatedReason(Blocked(quay, reason, message, now)) == CreatedReason(quay)
  {
    FindPut(quay.conditions, Condition(RolloutBlocked, True, reason, message, now, now), ComponentsCreated);
  }

  lemma UnblockedKeepsCreated(quay: Registry)
    ensures CreatedReason(Unblocked(quay)) == CreatedReason(quay)
  {
    FindWithout(quay.conditions, RolloutBlocked, ComponentsCreated);
  }

  lemma RolledOutKeepsCreated(quay: Registry, now: Time)
    ensures CreatedReason(RolledOut(quay, now)) == CreatedReason(quay)
  {
    FindWithout(quay.conditions, RolloutBlocked, ComponentsCreated);
    FindPut(Without(quay.conditions, RolloutBlocked),
            Condition(RolloutBlocked, False, ComponentsCreationSuccess, ObjectsApplied, now, now),
            ComponentsCreated);
  }

  lemma WithCreatedSets(quay: Registry, status: ConditionStatus, reason: Reason, message: Message, now: Time)
    ensures CreatedReason(WithCreated(quay, status, reason, message, now)) == Some(reason)
  {
    FindPut(quay.conditions, Condition(ComponentsCreated, status, reason, message, now, now), ComponentsCreated);
  }

  // ---- Preservation, by kind of event ----

  predicate IsJobEvent(e: Event) {
    e.JobPods? || e.JobSucceeds? || e.JobFails? || e.JobMarked? || e.JobGone?
  }

  predicate IsEnvironment(e: Event) {
    IsJobEvent(e) || e.EditSpec? || e.Crash? || e.ReplaceOperator?
  }

  predicate IsStatusEvent(e: Event) {
    e.StatusRead? || e.StatusWrite?
  }

  lemma JobEventKeeps(w: World, e: Event)
    requires Inv(w) && Enabled(w, e) && IsJobEvent(e)
    ensures Inv(Step(w, e))
  {
    var next := JobStep(w, e);
    assert JobSane(next);
    assert OwnJob(w) ==> OwnJob(next);
    assert HoldsWant(w.main) ==> WantOk(next, w.main.want);
  }

  lemma ProcessEventKeeps(w: World, e: Event)
    requires Inv(w) && Enabled(w, e) && (e.EditSpec? || e.Crash? || e.ReplaceOperator?)
    ensures Inv(Step(w, e))
  {
  }

  lemma StatusKeeps(w: World, e: Event)
    requires Inv(w) && Enabled(w, e) && IsStatusEvent(e)
    ensures Inv(Step(w, e))
  {
    if e.StatusWrite? {
      StatusController.OverwrittenKeepsOperatorConditions(w.status.reg.conditions, e.conds, e.now, e.later);
    }
  }

  lemma MigrationVerdictOk(w: World, quay: Registry, now: Time)
    requires JobSane(w) && CopyOf(quay, w.reg) && OwnJob(w)
    ensures var next := MigrationVerdict(quay, Lookup(w.jobs, AppUpgrade), w.op, now);
            next == Idle || (next.LastWrite? && WantOk(w, next.want))
  {
  }

  lemma DatabaseVerdictOk(w: World, quay: Registry, next: nat, now: Time)
    requires CopyOf(quay, w.reg) && next < |DatabaseJobs|
    ensures var step := DatabaseVerdict(quay, next, Lookup(w.jobs, DatabaseJobs[next]), now);
            step == Idle || step == ReadDatabaseJob(quay, next + 1) || (step.LastWrite? && WantOk(w, step.want))
  {
    WithCreatedSets(quay, True, ComponentsCreationSuccess, ComponentsCreatedMessage, now);
    if DatabaseJobs[next] in w.jobs {
      WithCreatedSets(quay, False, PostgresUpgradeFailed,
                      FailureMessage(w.jobs[DatabaseJobs[next]], FailedDatabaseUpgrade), now);
    }
  }

  lemma MigrationReadKeeps(w: World, e: Event)
    requires Inv(w) && Enabled(w, e) && e.ReadJob? && w.main.ReadMigrationJob?
    ensures Inv(Step(w, e))
  {
    MigrationVerdictOk(w, w.main.quay, e.now);
  }

  lemma DatabaseReadKeeps(w: World, e: Event)
    requires Inv(w) && Enabled(w, e) && e.ReadJob? && w.main.ReadDatabaseJob?
    ensures Inv(Step(w, e))
  {
    DatabaseVerdictOk(w, w.main.quay, w.main.next, e.now);
  }

  lemma ApplyReadKeeps(w: World, e: Event)
    requires Inv(w) && Enabled(w, e) && e.ReadJob? && w.main.Apply?
    ensures Inv(Step(w, e))
  {
    var todo := w.main.todo;
    if NoAppJob(todo[1..]) && !IsAppJob(todo[0]) { NoAppJobTail(todo); }
  }

  lemma ReadKeeps(w: World, e: Event)
    requires Inv(w) && Enabled(w, e) && e.ReadJob?
    ensures Inv(Step(w, e))
  {
    match w.main {
      case ReadMigrationJob(_) => MigrationReadKeeps(w, e);
      case ReadDatabaseJob(_, _) => DatabaseReadKeeps(w, e);
      case Apply(_, _, _) => ApplyReadKeeps(w, e);
    }
  }

  lemma RemoveKeeps(w: World, e: Event)
    requires Inv(w) && Enabled(w, e) && e.RemoveJob?
    ensures Inv(Step(w, e))
  {
  }

  lemma AddKeeps(w: World, e: Event)
    requires Inv(w) && Enabled(w, e) && e.AddJob?
    ensures Inv(Step(w, e))
  {
    var todo := w.main.todo;
    if NoAppJob(todo[1..]) && !IsAppJob(todo[0]) { NoAppJobTail(todo); }
  }

  /** An upgrade that is not deferred always has the upgrade job in its queue. */
  lemma QueueHoldsAppJob(plan: Plan, quay: Registry, op: Version, order: seq<KubeObject>)
    requires Renders(plan, quay, op, order) && WorkloadsLast(order) && !Defers(plan) && quay.currentVersion != op
    ensures exists i | 0 <= i < |Queue(plan, order)| :: IsAppJob(Queue(plan, order)[i])
  {
    assert RendersJob(plan, quay, op, AppUpgrade) && AppUpgrade in JobNames;
    var o :| o in order && IsJob(o) && o.payload == AppUpgrade;
    QueueMembers(order, Defers(plan));
    assert o in Queue(plan, order);
  }

  ghost predicate HoldsJob(objs: seq<KubeObject>, name: JobName) {
    exists i | 0 <= i < |objs| :: objs[i].kind == Kind.Job && objs[i].payload == name
  }

  /**
   Exactly which jobs a pass applies. None while anything is pending; else Quay's own for another
   version or a changed database configuration, and each database's if that database is to be
   upgraded.
   */
  lemma QueuedJobs(plan: Plan, quay: Registry, op: Version, order: seq<KubeObject>)
    requires Renders(plan, quay, op, order) && WorkloadsLast(order)
    ensures var queue, ready := Queue(plan, order),
                                (plan.storageManaged ==> plan.storageReady) && plan.databaseReady && plan.clairDatabaseReady;
            && (HoldsJob(queue, AppUpgrade) <==> ready && (quay.currentVersion != op || plan.databaseConfigChanged))
            && (HoldsJob(queue, PostgresUpgrade) <==> ready && plan.postgresUpgrade)
            && (HoldsJob(queue, ClairPostgresUpgrade) <==> ready && plan.clairPostgresUpgrade)
  {
    QueuedJob(plan, quay, op, order, AppUpgrade);
    QueuedJob(plan, quay, op, order, PostgresUpgrade);
    QueuedJob(plan, quay, op, order, ClairPostgresUpgrade);
  }

  lemma QueuedJob(plan: Plan, quay: Registry, op: Version, order: seq<KubeObject>, name: JobName)
    requires Renders(plan, quay, op, order) && WorkloadsLast(order)
    ensures HoldsJob(Queue(plan, order), name) <==> !Defers(plan) && RendersJob(plan, quay, op, name)
  {
    var queue := Queue(plan, order);
    QueueMembers(order, Defers(plan));
    if HoldsJob(queue, name) {
      var i :| 0 <= i < |queue| && queue[i].kind == Kind.Job && queue[i].payload == name;
      assert queue[i] in queue && queue[i] in order && IsJob(queue[i]);
    }
    if !Defers(plan) && RendersJob(plan, quay, op, name) {
      assert name in JobNames;
      var o :| o in order && IsJob(o) && o.payload == name;
      assert o in queue;
    }
  }

  lemma BlockKeeps(w: World, e: Event)
    requires Inv(w) && Enabled(w, e) && (e.Block? || e.CleanupFails?)
    ensures Inv(Step(w, e))
  {
    var quay := w.main.quay;
    if e.CleanupFails? {
      BlockedKeepsCreated(quay, ComponentCreationFailed, e.message, e.now);
    } else {
      BlockedKeepsCreated(quay, e.reason, e.message, e.now);
      BlockedKeepsCreated(Unblocked(quay), e.reason, e.message, e.now);
      UnblockedKeepsCreated(quay);
    }
  }

  lemma InflateKeeps(w: World, e: Event)
    requires Inv(w) && Enabled(w, e) && e.Inflate?
    ensures Inv(Step(w, e))
  {
    if !Defers(e.plan) && w.main.quay.currentVersion != w.op {
      QueueHoldsAppJob(e.plan, w.main.quay, w.op, e.order);
    }
  }

  lemma ApplyKeeps(w: World, e: Event)
    requires Inv(w) && Enabled(w, e) && e.ApplyObject?
    ensures Inv(Step(w, e))
  {
    var todo := w.main.todo;
    if e.ok && NoAppJob(todo[1..]) { NoAppJobTail(todo); }
  }

  lemma PassKeeps(w: World, e: Event)
    requires Inv(w) && Enabled(w, e)
    requires e.Begin? || e.Return? || e.CleanupDone?
    ensures Inv(Step(w, e))
  {
  }

  lemma SpecKeeps(w: World, e: Event)
    requires Inv(w) && Enabled(w, e) && (e.TouchSpec? || e.WriteDefaults?)
    ensures Inv(Step(w, e))
  {
  }

  /** The version gate is the only place that reports migrations as running. */
  lemma VerdictOk(w: World, updated: Registry, plan: Plan, now: Time)
    requires CopyOf(updated, w.reg) && (MigrationsRunning(w.reg) ==> OwnJob(w))
    requires updated.rv == w.reg.rv && updated.currentVersion != w.op ==> OwnJob(w)
    ensures var next := Verdict(updated, plan, w.op, now);
            && (next.LastWrite? ==> WantOk(w, next.want))
            && (next.Finalize? ==> next.updated == updated)
            && (next.LastWrite? || next.Finalize?)
  {
    WithCreatedSets(updated, False, PostgresUpgradeInProgress, RunningDatabaseUpgrade, now);
    WithCreatedSets(updated, False, MigrationsInProgress, RunningMigrations, now);
  }

  lemma SettleKeeps(w: World, e: Event)
    requires Inv(w) && Enabled(w, e) && e.Proceed? && w.main.Settle?
    ensures Inv(Step(w, e))
  {
    RolledOutKeepsCreated(w.main.quay, e.now);
  }

  lemma DecideKeeps(w: World, e: Event)
    requires Inv(w) && Enabled(w, e) && e.Proceed? && w.main.Decide?
    ensures Inv(Step(w, e))
  {
    var plan, updated := w.main.plan, w.main.updated;
    if !Defers(plan) {
      VerdictOk(w, updated, plan, e.now);
    }
    assert CreatedReason(updated.(endpoint := plan.endpoint)) == CreatedReason(updated);
  }

  lemma GateKeeps(w: World, e: Event)
    requires Inv(w) && Enabled(w, e) && e.Proceed? && w.main.Gate?
    ensures Inv(Step(w, e))
  {
    VerdictOk(w, w.main.updated, w.main.plan, e.now);
  }

  lemma ProceedKeeps(w: World, e: Event)
    requires Inv(w) && Enabled(w, e) && e.Proceed?
    ensures Inv(Step(w, e))
  {
    match w.main {
      case Settle(_, _) => SettleKeeps(w, e);
      case Decide(_, _) => DecideKeeps(w, e);
      case Gate(_, _) => GateKeeps(w, e);
    }
  }

  lemma WriteKeeps(w: World, e: Event)
    requires Inv(w) && Enabled(w, e) && e.Write?
    ensures Inv(Step(w, e))
  {
  }

  lemma StepKeepsInv(w: World, e: Event)
    requires Inv(w) && Enabled(w, e)
    ensures Inv(Step(w, e))
  {
    if IsJobEvent(e) {
      JobEventKeeps(w, e);
    } else if IsEnvironment(e) {
      ProcessEventKeeps(w, e);
    } else if IsStatusEvent(e) {
      StatusKeeps(w, e);
    } else if e.ReadJob? {
      ReadKeeps(w, e);
    } else if e.RemoveJob? {
      RemoveKeeps(w, e);
    } else if e.AddJob? {
      AddKeeps(w, e);
    } else if e.Block? || e.CleanupFails? {
      BlockKeeps(w, e);
    } else if e.Inflate? {
      InflateKeeps(w, e);
    } else if e.Proceed? {
      ProceedKeeps(w, e);
    } else if e.Write? {
      WriteKeeps(w, e);
    } else if e.ApplyObject? {
      ApplyKeeps(w, e);
    } else if e.TouchSpec? || e.WriteDefaults? {
      SpecKeeps(w, e);
    } else {
      PassKeeps(w, e);
    }
  }

  // ---- Runs ----

  lemma {:induction false} RunKeepsInv(states: seq<World>, events: seq<Event>, i: nat)
    requires IsRun(states, events) && Inv(states[0]) && i < |states|
    ensures Inv(states[i])
  {
    if i > 0 {
      RunKeepsInv(states, events, i - 1);
      StepKeepsInv(states[i - 1], events[i - 1]);
    }
  }

  /** A registry whose operator has just started and has no jobs. */
  predicate Fresh(w: World) {
    w.jobs == map[] && w.main == Idle && w.status == Resting && w.done == {}
  }

  lemma FreshIsInv(w: World)
    requires Fresh(w)
    ensures Inv(w)
  {
  }

  /** Only the main controller's status writes move the version, and only to its own. */
  lemma VersionStep(w: World, e: Event)
    requires Inv(w) && Enabled(w, e)
    requires Step(w, e).reg.currentVersion != w.reg.currentVersion
    ensures e.Write? && Step(w, e).reg.currentVersion == w.op && (AppUpgrade, w.op) in w.done
  {
  }

  /** The history variable means what it says. */
  lemma {:induction false} DoneMeansSucceeded(states: seq<World>, events: seq<Event>, i: nat, name: JobName, v: Version)
    requires IsRun(states, events) && i < |states|
    requires (name, v) in states[i].done && (name, v) !in states[0].done
    ensures exists j | 0 <= j < i ::
              events[j] == JobSucceeds(name) && name in states[j].jobs && states[j].jobs[name].renderedBy == v
  {
    if i > 0 {
      if (name, v) in states[i - 1].done {
        DoneMeansSucceeded(states, events, i - 1, name, v);
      } else {
        assert Enabled(states[i - 1], events[i - 1]);
        assert events[i - 1] == JobSucceeds(name);
      }
    }
  }

  /**
   In every run, `status.currentVersion` becomes a version only after an upgrade job rendered
   by the operator of that version has succeeded, and only while that operator runs.
   */
  lemma VersionAdvancesOnlyAfterItsMigration(states: seq<World>, events: seq<Event>, i: nat)
    requires IsRun(states, events) && Fresh(states[0]) && i < |events|
    requires states[i + 1].reg.currentVersion != states[i].reg.currentVersion
    ensures states[i + 1].reg.currentVersion == states[i].op
    ensures exists j | 0 <= j < i ::
              && events[j] == JobSucceeds(AppUpgrade) && AppUpgrade in states[j].jobs
              && states[j].jobs[AppUpgrade].renderedBy == states[i + 1].reg.currentVersion
  {
    FreshIsInv(states[0]);
    RunKeepsInv(states, events, i);
    VersionStep(states[i], events[i]);
    DoneMeansSucceeded(states, events, i, AppUpgrade, states[i].op);
  }

  /** At any point of any run the recorded version is the first one, or one whose migration succeeded. */
  lemma {:induction false} RecordedVersionsMigrated(states: seq<World>, events: seq<Event>, i: nat)
    requires IsRun(states, events) && Fresh(states[0]) && i < |states|
    ensures states[i].reg.currentVersion == states[0].reg.currentVersion
         || exists j | 0 <= j < i ::
              && events[j] == JobSucceeds(AppUpgrade) && AppUpgrade in states[j].jobs
              && states[j].jobs[AppUpgrade].renderedBy == states[i].reg.currentVersion
  {
    if i > 0 {
      var last := i - 1;
      if states[i].reg.currentVersion == states[last].reg.currentVersion {
        RecordedVersionsMigrated(states, events, last);
      } else {
        VersionAdvancesOnlyAfterItsMigration(states, events, last);
      }
    }
  }

  /** While migrations are reported in progress, any upgrade job is the running version's own. */
  lemma MigrationsRunOwnJob(states: seq<World>, events: seq<Event>, i: nat)
    requires IsRun(states, events) && Fresh(states[0]) && i < |states|
    requires MigrationsRunning(states[i].reg) && AppUpgrade in states[i].jobs
    ensures states[i].jobs[AppUpgrade].renderedBy == states[i].op
  {
    FreshIsInv(states[0]);
    RunKeepsInv(states, events, i);
  }
}
