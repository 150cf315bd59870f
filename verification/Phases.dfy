/**
 The main controller works in three phases: watching migrations, watching database upgrades,
 or passing over the whole registry. The stored reason says which, for as long as it works.
 */
module Phases {
  import opened Wrappers
  import opened Conditions
  import opened Protocol
  import opened MigrationSafety
  import StatusController

  predicate FullPass(main: Main) {
    !(main.Idle? || main.ReadMigrationJob? || main.ReadDatabaseJob? || main.LastWrite?)
  }

  /** Nothing is running that would keep a full pass from being made. */
  predicate Calm(reg: Registry) {
    !MigrationsRunning(reg) && !PostgresUpgradeRunning(reg)
  }

  /** The clauses of the invariant that `Inv` does not have. */
  ghost predicate InPhase(w: World) {
    && (w.main.ReadMigrationJob? ==> MigrationsRunning(w.reg))
    && (w.main.ReadDatabaseJob? ==> PostgresUpgradeRunning(w.reg))
    && (FullPass(w.main) ==> Calm(w.reg))
    && (w.main.DeleteJob? || w.main.CreateJob? ==> w.main.todo != [] && IsJob(w.main.todo[0]))
    && (FullPass(w.main) && HoldsWant(w.main) && w.main.want.rv == w.reg.rv ==> Calm(w.main.want))
  }

  ghost predicate PhaseInv(w: World) {
    Inv(w) && InPhase(w)
  }

  lemma OutsideKeepsPhase(w: World, e: Event)
    requires CopiesOk(w) && InPhase(w) && Enabled(w, e) && (IsEnvironment(e) || IsStatusEvent(e))
    ensures InPhase(Step(w, e))
  {
    if e.StatusWrite? {
      StatusController.OverwrittenKeepsOperatorConditions(w.status.reg.conditions, e.conds, e.now, e.later);
    }
  }

  lemma CleanupKeepsPhase(w: World, e: Event)
    requires CopiesOk(w) && InPhase(w) && Enabled(w, e) && e.CleanupFails?
    ensures InPhase(Step(w, e))
  {
    BlockedKeepsCreated(w.main.quay, ComponentCreationFailed, e.message, e.now);
  }

  lemma ProceedKeepsPhase(w: World, e: Event)
    requires CopiesOk(w) && InPhase(w) && Enabled(w, e) && e.Proceed?
    ensures InPhase(Step(w, e))
  {
    if w.main.Settle? {
      RolledOutKeepsCreated(w.main.quay, e.now);
    } else {
      assert CreatedReason(w.main.updated.(endpoint := w.main.plan.endpoint)) == CreatedReason(w.main.updated);
    }
  }

  lemma WriteKeepsPhase(w: World, e: Event)
    requires CopiesOk(w) && InPhase(w) && Enabled(w, e) && e.Write?
    ensures InPhase(Step(w, e))
  {
  }

  lemma RestKeepsPhase(w: World, e: Event)
    requires CopiesOk(w) && InPhase(w) && Enabled(w, e)
    requires !IsEnvironment(e) && !IsStatusEvent(e) && !(e.CleanupFails? || e.Proceed? || e.Write?)
    ensures InPhase(Step(w, e))
  {
  }

  lemma StepKeepsPhase(w: World, e: Event)
    requires PhaseInv(w) && Enabled(w, e)
    ensures PhaseInv(Step(w, e))
  {
    StepKeepsInv(w, e);
    if IsEnvironment(e) || IsStatusEvent(e) {
      OutsideKeepsPhase(w, e);
    } else if e.CleanupFails? {
      CleanupKeepsPhase(w, e);
    } else if e.Proceed? {
      ProceedKeepsPhase(w, e);
    } else if e.Write? {
      WriteKeepsPhase(w, e);
    } else {
      RestKeepsPhase(w, e);
    }
  }

  lemma {:induction false} RunKeepsPhase(states: seq<World>, events: seq<Event>, i: nat)
    requires IsRun(states, events) && Fresh(states[0]) && i < |states|
    ensures PhaseInv(states[i])
  {
    if i == 0 {
      FreshIsInv(states[0]);
    } else {
      RunKeepsPhase(states, events, i - 1);
      StepKeepsPhase(states[i - 1], events[i - 1]);
    }
  }

  // ---- Leaving a database upgrade ----

  /** In step `j` the controller read database job `m` and found it missing or succeeded. */
  ghost predicate SawDone(states: seq<World>, events: seq<Event>, j: nat, m: nat)
    requires IsRun(states, events)
  {
    && j < |events| && m < |DatabaseJobs|
    && events[j].ReadJob? && events[j].readable
    && states[j].main.ReadDatabaseJob? && states[j].main.next == m
    && (DatabaseJobs[m] in states[j].jobs ==>
          states[j].jobs[DatabaseJobs[m]].succeeded == 1 && states[j].jobs[DatabaseJobs[m]].active != 1)
  }

  /** The reconcile under way in state `i` began in step `b`. */
  predicate BeganAt(events: seq<Event>, b: nat, i: nat) {
    b < i <= |events| && events[b] == Begin && forall k | b < k < i :: events[k] != Begin
  }

  ghost predicate SawBetween(states: seq<World>, events: seq<Event>, b: nat, i: nat, m: nat)
    requires IsRun(states, events)
  {
    exists j :: b < j < i && SawDone(states, events, j, m)
  }

  /** That reconcile has found the first `n` database jobs missing or succeeded. */
  ghost predicate SawFirst(states: seq<World>, events: seq<Event>, i: nat, n: nat)
    requires IsRun(states, events)
  {
    exists b: nat :: BeganAt(events, b, i) && forall m: nat | m < n :: SawBetween(states, events, b, i, m)
  }

  lemma SawBetweenLater(states: seq<World>, events: seq<Event>, b: nat, i: nat, next: nat, n: nat)
    requires IsRun(states, events) && i < |events| && next == i + 1
    requires forall m: nat | m < n :: SawBetween(states, events, b, i, m)
    ensures forall m: nat | m < n :: SawBetween(states, events, b, next, m)
    ensures b < i && SawDone(states, events, i, n) ==> SawBetween(states, events, b, next, n)
  {
    forall m: nat | m < n ensures SawBetween(states, events, b, next, m) {
      assert SawBetween(states, events, b, i, m);
    }
  }

  lemma SawFirstLater(states: seq<World>, events: seq<Event>, i: nat, n: nat)
    requires IsRun(states, events) && i < |events| && SawFirst(states, events, i, n) && events[i] != Begin
    ensures SawFirst(states, events, i + 1, n)
    ensures SawDone(states, events, i, n) ==> SawFirst(states, events, i + 1, n + 1)
  {
    var b: nat :| BeganAt(events, b, i) && forall m: nat | m < n :: SawBetween(states, events, b, i, m);
    var next := i + 1;
    assert BeganAt(events, b, next);
    SawBetweenLater(states, events, b, i, next, n);
  }

  /** The pending write, should it land, ends a database upgrade. */
  predicate LeavesDatabaseUpgrade(w: World) {
    && w.main.LastWrite? && w.main.want.rv == w.reg.rv
    && PostgresUpgradeRunning(w.reg) && !PostgresUpgradeRunning(w.main.want)
  }

  ghost predicate Watching(states: seq<World>, events: seq<Event>, i: nat)
    requires IsRun(states, events) && i < |states|
  {
    var w := states[i];
    && (w.main.ReadDatabaseJob? ==> w.main.next < |DatabaseJobs| && SawFirst(states, events, i, w.main.next))
    && (LeavesDatabaseUpgrade(w) ==> SawFirst(states, events, i, |DatabaseJobs|))
  }

  /** What one look at a database job leads to. */
  lemma ReadOutcome(w: World, e: Event)
    requires PhaseInv(w) && Enabled(w, e) && e.ReadJob? && w.main.ReadDatabaseJob?
    ensures var next, name := Step(w, e), DatabaseJobs[w.main.next];
            var seen := e.readable && (name in w.jobs ==> w.jobs[name].succeeded == 1 && w.jobs[name].active != 1);
            && (next.main.ReadDatabaseJob? ==> seen && next.main.next == w.main.next + 1 < |DatabaseJobs|)
            && (LeavesDatabaseUpgrade(next) ==> seen && w.main.next + 1 == |DatabaseJobs|)
  {
    var name := DatabaseJobs[w.main.next];
    if name in w.jobs {
      WithCreatedSets(w.main.quay, False, PostgresUpgradeFailed,
                      FailureMessage(w.jobs[name], FailedDatabaseUpgrade), e.now);
    }
  }

  lemma ReadWatches(states: seq<World>, events: seq<Event>, i: nat)
    requires IsRun(states, events) && i < |events| && Watching(states, events, i)
    requires events[i].ReadJob? && states[i].main.ReadDatabaseJob? && PhaseInv(states[i])
    ensures Watching(states, events, i + 1)
  {
    var w, e := states[i], events[i];
    assert Enabled(w, e) && states[i + 1] == Step(w, e);
    SawFirstLater(states, events, i, w.main.next);
    ReadOutcome(w, e);
  }

  /** Away from the database jobs, no step starts to leave a database upgrade. */
  lemma NothingElseLeaves(w: World, e: Event)
    requires PhaseInv(w) && Enabled(w, e) && !(e.ReadJob? && w.main.ReadDatabaseJob?)
    ensures LeavesDatabaseUpgrade(Step(w, e)) ==> LeavesDatabaseUpgrade(w) && e != Begin
    ensures Step(w, e).main.ReadDatabaseJob? ==> e == Begin || Step(w, e).main == w.main
    ensures e == Begin && Step(w, e).main.ReadDatabaseJob? ==> Step(w, e).main.next == 0
  {
    if e.StatusWrite? {
      StatusController.OverwrittenKeepsOperatorConditions(w.status.reg.conditions, e.conds, e.now, e.later);
    }
  }

  lemma StepWatches(states: seq<World>, events: seq<Event>, i: nat)
    requires IsRun(states, events) && Fresh(states[0]) && i < |events| && Watching(states, events, i)
    ensures Watching(states, events, i + 1)
  {
    var w, e := states[i], events[i];
    RunKeepsPhase(states, events, i);
    assert Enabled(w, e) && states[i + 1] == Step(w, e);
    if e.ReadJob? && w.main.ReadDatabaseJob? {
      ReadWatches(states, events, i);
    } else {
      NothingElseLeaves(w, e);
      if e == Begin {
        assert BeganAt(events, i, i + 1);
        assert SawFirst(states, events, i + 1, 0);
      } else {
        if w.main.ReadDatabaseJob? {
          SawFirstLater(states, events, i, w.main.next);
        }
        if LeavesDatabaseUpgrade(w) {
          SawFirstLater(states, events, i, |DatabaseJobs|);
        }
      }
    }
  }

  lemma {:induction false} RunWatches(states: seq<World>, events: seq<Event>, i: nat)
    requires IsRun(states, events) && Fresh(states[0]) && i < |states|
    ensures Watching(states, events, i)
  {
    if i > 0 {
      RunWatches(states, events, i - 1);
      StepWatches(states, events, i - 1);
    }
  }

  /** The controller, watching a database upgrade, looks at this job. */
  predicate LooksAt(w: World, e: Event, name: JobName) {
    e.ReadJob? && w.main.ReadDatabaseJob? && w.main.next < |DatabaseJobs| && JobRead(w.main) == name
  }

  /** And finds it missing or succeeded. */
  predicate ReadDone(w: World, e: Event, name: JobName) {
    LooksAt(w, e, name) && e.readable && (name !in w.jobs || (w.jobs[name].succeeded == 1 && w.jobs[name].active != 1))
  }

  ghost predicate FoundDone(states: seq<World>, events: seq<Event>, from: nat, to: nat, name: JobName) {
    exists j :: from <= j < to && j < |events| && j < |states| && ReadDone(states[j], events[j], name)
  }

  /** The controller could not read the job, or found it running or failed. */
  ghost predicate FoundPending(states: seq<World>, events: seq<Event>, from: nat, to: nat, name: JobName) {
    exists j :: from <= j < to && j < |events| && j < |states| && LooksAt(states[j], events[j], name) && !ReadDone(states[j], events[j], name)
  }

  lemma SawAllMeansBoth(states: seq<World>, events: seq<Event>, b: nat, i: nat)
    requires IsRun(states, events) && forall m: nat | m < |DatabaseJobs| :: SawBetween(states, events, b, i, m)
    ensures FoundDone(states, events, b, i, PostgresUpgrade) && FoundDone(states, events, b, i, ClairPostgresUpgrade)
  {
    assert SawBetween(states, events, b, i, 0) && SawBetween(states, events, b, i, 1);
    var j :| b < j < i && SawDone(states, events, j, 0);
    var k :| b < k < i && SawDone(states, events, k, 1);
    assert ReadDone(states[j], events[j], PostgresUpgrade) && ReadDone(states[k], events[k], ClairPostgresUpgrade);
  }

  /**
   A registry leaves the database-upgrade reasons only at the end of a reconcile that read the
   upgrade jobs of Quay's database and of Clair's, and found each of them missing or succeeded.
   */
  lemma DatabaseUpgradeEndsWhenJobsAreDone(states: seq<World>, events: seq<Event>, i: nat)
    requires IsRun(states, events) && Fresh(states[0]) && i < |events|
    requires CreatedReason(states[i].reg) in {Some(PostgresUpgradeInProgress), Some(PostgresUpgradeFailed)}
    requires CreatedReason(states[i + 1].reg) !in {Some(PostgresUpgradeInProgress), Some(PostgresUpgradeFailed)}
    ensures exists b: nat ::
              && BeganAt(events, b, i)
              && FoundDone(states, events, b, i, PostgresUpgrade) && FoundDone(states, events, b, i, ClairPostgresUpgrade)
  {
    BothAreSeen(states, events, i);
    var b: nat :| BeganAt(events, b, i) && forall m: nat | m < |DatabaseJobs| :: SawBetween(states, events, b, i, m);
    SawAllMeansBoth(states, events, b, i);
  }

  lemma BothAreSeen(states: seq<World>, events: seq<Event>, i: nat)
    requires IsRun(states, events) && Fresh(states[0]) && i < |events|
    requires PostgresUpgradeRunning(states[i].reg) && !PostgresUpgradeRunning(states[i + 1].reg)
    ensures SawFirst(states, events, i, |DatabaseJobs|)
  {
    RunWatches(states, events, i);
    RunKeepsPhase(states, events, i);
    var w, e := states[i], events[i];
    assert Enabled(w, e) && states[i + 1] == Step(w, e);
    if e.StatusWrite? {
      StatusController.OverwrittenKeepsOperatorConditions(w.status.reg.conditions, e.conds, e.now, e.later);
    }
  }

  // ---- Live jobs ----

  /** The upgrade job is there, nobody is deleting it, and the running version rendered it. */
  predicate Live(w: World) {
    AppUpgrade in w.jobs && !w.jobs[AppUpgrade].terminating && w.jobs[AppUpgrade].renderedBy == w.op
  }

  /** Migrations are reported in progress, or this pass is on its way to report them so. */
  ghost predicate NeedsJob(w: World) {
    || MigrationsRunning(w.reg)
    || Upgraded(w)
    || (w.main.LastWrite? && w.main.want.rv == w.reg.rv && MigrationsRunning(w.main.want))
  }

  /** What migrations in progress rely on. */
  ghost predicate LiveInv(w: World) {
    PhaseInv(w) && (NeedsJob(w) ==> Live(w))
  }

  /**
   The code looks at a job's counters and never at its deletion mark. So two things go wrong:
   somebody else deletes the job while it is needed, or the apply loop finds a job that is
   being deleted, takes its active pods for a running job and leaves it alone.
   */
  ghost predicate Endangers(w: World, e: Event) {
    || (NeedsJob(w) && (e == JobMarked(AppUpgrade) || e == JobGone(AppUpgrade)))
    || (e.ReadJob? && TrustsDoomedJob(w, e.readable))
  }

  ghost predicate TrustsDoomedJob(w: World, readable: bool) {
    && readable && w.main.Apply? && w.main.todo != [] && IsAppJob(w.main.todo[0]) && NoAppJob(w.main.todo[1..])
    && !Defers(w.main.plan) && w.main.quay.currentVersion != w.op && w.main.quay.rv == w.reg.rv
    && AppUpgrade in w.jobs && w.jobs[AppUpgrade].terminating && w.jobs[AppUpgrade].active >= 1
  }

  lemma LiveInflate(w: World, e: Event)
    requires LiveInv(w) && Enabled(w, e) && e.Inflate?
    ensures LiveInv(Step(w, e))
  {
    StepKeepsPhase(w, e);
    if !Defers(e.plan) && w.main.quay.currentVersion != w.op {
      QueueHoldsAppJob(e.plan, w.main.quay, w.op, e.order);
    }
  }

  lemma LiveMigrationRead(w: World, e: Event)
    requires LiveInv(w) && Enabled(w, e) && e.ReadJob? && w.main.ReadMigrationJob?
    ensures LiveInv(Step(w, e))
  {
    StepKeepsPhase(w, e);
    WithCreatedSets(w.main.quay, True, ComponentsCreationSuccess, ComponentsCreatedMessage, e.now);
  }

  lemma DatabaseVerdictIsNoMigration(w: World, e: Event)
    requires Enabled(w, e) && e.ReadJob? && w.main.ReadDatabaseJob?
    ensures Step(w, e).main.LastWrite? ==> !MigrationsRunning(Step(w, e).main.want)
  {
    var quay, name := w.main.quay, DatabaseJobs[w.main.next];
    WithCreatedSets(quay, True, ComponentsCreationSuccess, ComponentsCreatedMessage, e.now);
    if name in w.jobs {
      WithCreatedSets(quay, False, PostgresUpgradeFailed, FailureMessage(w.jobs[name], FailedDatabaseUpgrade), e.now);
    }
  }

  lemma LiveDatabaseRead(w: World, e: Event)
    requires LiveInv(w) && Enabled(w, e) && e.ReadJob? && w.main.ReadDatabaseJob?
    ensures LiveInv(Step(w, e))
  {
    StepKeepsPhase(w, e);
    DatabaseVerdictIsNoMigration(w, e);
  }

  lemma LiveApplyRead(w: World, e: Event)
    requires LiveInv(w) && Enabled(w, e) && e.ReadJob? && w.main.Apply?
    ensures LiveInv(Step(w, e)) <==> !Endangers(w, e)
  {
    StepKeepsPhase(w, e);
    var todo := w.main.todo;
    if NoAppJob(todo[1..]) && !IsAppJob(todo[0]) { NoAppJobTail(todo); }
  }

  lemma LiveRead(w: World, e: Event)
    requires LiveInv(w) && Enabled(w, e) && e.ReadJob?
    ensures LiveInv(Step(w, e)) <==> !Endangers(w, e)
  {
    match w.main {
      case ReadMigrationJob(_) => LiveMigrationRead(w, e);
      case ReadDatabaseJob(_, _) => LiveDatabaseRead(w, e);
      case Apply(_, _, _) => LiveApplyRead(w, e);
    }
  }

  lemma LiveApply(w: World, e: Event)
    requires LiveInv(w) && Enabled(w, e) && (e.RemoveJob? || e.AddJob? || e.ApplyObject?)
    ensures LiveInv(Step(w, e))
  {
    StepKeepsPhase(w, e);
    var todo := w.main.todo;
    if NoAppJob(todo[1..]) && !IsAppJob(todo[0]) { NoAppJobTail(todo); }
  }

  lemma LiveBlock(w: World, e: Event)
    requires LiveInv(w) && Enabled(w, e) && (e.Block? || e.CleanupFails?)
    ensures LiveInv(Step(w, e))
  {
    StepKeepsPhase(w, e);
    if e.Block? {
      BlockedKeepsCreated(w.main.quay, e.reason, e.message, e.now);
      BlockedKeepsCreated(Unblocked(w.main.quay), e.reason, e.message, e.now);
      UnblockedKeepsCreated(w.main.quay);
    }
  }

  lemma LiveSettle(w: World, e: Event)
    requires LiveInv(w) && Enabled(w, e) && e.Proceed? && w.main.Settle?
    ensures LiveInv(Step(w, e))
  {
    StepKeepsPhase(w, e);
  }

  lemma DecideNeedsNoMore(w: World, e: Event)
    requires PhaseInv(w) && Enabled(w, e) && e.Proceed? && w.main.Decide?
    ensures NeedsJob(Step(w, e)) ==> NeedsJob(w)
  {
    WithCreatedSets(w.main.updated, False, PostgresUpgradeInProgress, RunningDatabaseUpgrade, e.now);
  }

  lemma LiveDecide(w: World, e: Event)
    requires LiveInv(w) && Enabled(w, e) && e.Proceed? && w.main.Decide?
    ensures LiveInv(Step(w, e))
  {
    StepKeepsPhase(w, e);
    DecideNeedsNoMore(w, e);
  }

  lemma LiveGate(w: World, e: Event)
    requires LiveInv(w) && Enabled(w, e) && e.Proceed? && w.main.Gate?
    ensures LiveInv(Step(w, e))
  {
    StepKeepsPhase(w, e);
    WithCreatedSets(w.main.updated, False, PostgresUpgradeInProgress, RunningDatabaseUpgrade, e.now);
  }

  lemma LiveProceed(w: World, e: Event)
    requires LiveInv(w) && Enabled(w, e) && e.Proceed?
    ensures LiveInv(Step(w, e))
  {
    match w.main {
      case Settle(_, _) => LiveSettle(w, e);
      case Decide(_, _) => LiveDecide(w, e);
      case Gate(_, _) => LiveGate(w, e);
    }
  }

  lemma LiveCluster(w: World, e: Event)
    requires LiveInv(w) && Enabled(w, e) && IsEnvironment(e)
    ensures LiveInv(Step(w, e)) <==> !Endangers(w, e)
  {
    StepKeepsPhase(w, e);
    if IsJobEvent(e) {
      JobEventNeeds(w, e);
    }
  }

  /** What happens to a job changes nothing about whether it is needed. */
  lemma JobEventNeeds(w: World, e: Event)
    requires Enabled(w, e) && IsJobEvent(e)
    ensures NeedsJob(Step(w, e)) <==> NeedsJob(w)
  {
  }

  lemma LiveStatus(w: World, e: Event)
    requires LiveInv(w) && Enabled(w, e) && IsStatusEvent(e)
    ensures LiveInv(Step(w, e))
  {
    StepKeepsPhase(w, e);
    if e.StatusWrite? {
      StatusController.OverwrittenKeepsOperatorConditions(w.status.reg.conditions, e.conds, e.now, e.later);
    }
  }

  lemma LiveRest(w: World, e: Event)
    requires LiveInv(w) && Enabled(w, e)
    requires e.Begin? || e.Return? || e.TouchSpec? || e.WriteDefaults? || e.CleanupDone?
    ensures LiveInv(Step(w, e))
  {
    StepKeepsPhase(w, e);
  }

  lemma LiveWrite(w: World, e: Event)
    requires LiveInv(w) && Enabled(w, e) && e.Write?
    ensures LiveInv(Step(w, e))
  {
    StepKeepsPhase(w, e);
  }

  /** A step takes the job from migrations that need it exactly if it is one of those two. */
  lemma StepKeepsLiveIff(w: World, e: Event)
    requires LiveInv(w) && Enabled(w, e)
    ensures LiveInv(Step(w, e)) <==> !Endangers(w, e)
  {
    if e.Inflate? {
      LiveInflate(w, e);
    } else if e.ReadJob? {
      LiveRead(w, e);
    } else if e.RemoveJob? || e.AddJob? || e.ApplyObject? {
      LiveApply(w, e);
    } else if e.Proceed? {
      LiveProceed(w, e);
    } else if e.Block? || e.CleanupFails? {
      LiveBlock(w, e);
    } else if IsEnvironment(e) {
      LiveCluster(w, e);
    } else if IsStatusEvent(e) {
      LiveStatus(w, e);
    } else if e.Write? {
      LiveWrite(w, e);
    } else {
      LiveRest(w, e);
    }
  }

  /**
   As long as no step endangers it, a registry that reports migrations in progress has a live
   upgrade job of the running version; the first step that does ends that.
   */
  lemma {:induction false} MigrationsInProgressHaveLiveJob(states: seq<World>, events: seq<Event>, i: nat)
    requires IsRun(states, events) && Fresh(states[0]) && Calm(states[0].reg) && i < |states|
    requires forall k | 0 <= k < i :: !Endangers(states[k], events[k])
    ensures LiveInv(states[i])
    ensures MigrationsRunning(states[i].reg) ==> Live(states[i])
    ensures i < |events| && Endangers(states[i], events[i]) ==> NeedsJob(states[i + 1]) && !Live(states[i + 1])
  {
    if i == 0 {
      FreshIsInv(states[0]);
    } else {
      MigrationsInProgressHaveLiveJob(states, events, i - 1);
      StepKeepsLiveIff(states[i - 1], events[i - 1]);
    }
    if i < |events| {
      StepKeepsLiveIff(states[i], events[i]);
      StepKeepsPhase(states[i], events[i]);
    }
  }
}
