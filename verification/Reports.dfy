/**
 What the stored status tells its reader: which condition the main controller writes, and what it
 has seen in that same reconcile when it writes it.
 */
module Reports {
  import opened Wrappers
  import opened Conditions
  import opened Protocol
  import opened MigrationSafety
  import opened Phases
  import Interleaving

  /** The copy carries exactly this condition under its type. */
  predicate Carries(reg: Registry, ctype: ConditionType, status: ConditionStatus, reason: Reason, message: Message, now: Time) {
    Find(reg.conditions, ctype) == Some(Condition(ctype, status, reason, message, now, now))
  }

  /** A last write is pending that says this of the components, over a registry at this version. */
  predicate Tells(main: Main, status: ConditionStatus, reason: Reason, message: Message, now: Time, version: Version) {
    main.LastWrite? && main.want.currentVersion == version
    && Carries(main.want, ComponentsCreated, status, reason, message, now)
  }

  ghost predicate SameExcept(a: Registry, b: Registry, ctype: ConditionType) {
    a.currentVersion == b.currentVersion && a.endpoint == b.endpoint
    && forall t | t != ctype :: Find(a.conditions, t) == Find(b.conditions, t)
  }

  lemma PutCarries(reg: Registry, ctype: ConditionType, status: ConditionStatus, reason: Reason, message: Message, now: Time)
    ensures var r := reg.(conditions := Put(reg.conditions, Condition(ctype, status, reason, message, now, now)));
            Carries(r, ctype, status, reason, message, now) && SameExcept(r, reg, ctype)
  {
    var c := Condition(ctype, status, reason, message, now, now);
    forall t ensures Find(Put(reg.conditions, c), t) == if t == ctype then Some(c) else Find(reg.conditions, t) {
      FindPut(reg.conditions, c, t);
    }
  }

  // ---- Looking at jobs ----

  /** What is made of an answer about the upgrade job. */
  ghost predicate MigrationTold(w: World, e: Event, next: Main)
    requires w.main.ReadMigrationJob? && e.ReadJob?
  {
    var version := w.main.quay.currentVersion;
    if !e.readable then next == Idle
    else if AppUpgrade !in w.jobs then Tells(next, False, MigrationsJobMissing, UpgradeJobNotFound, e.now, version)
    else
      var job := w.jobs[AppUpgrade];
      && (job.active == 1 ==> next == Idle)
      && (job.active != 1 && job.succeeded == 1 ==>
            Tells(next, True, ComponentsCreationSuccess, ComponentsCreatedMessage, e.now, w.op))
      && (job.active != 1 && job.succeeded != 1 ==>
            Tells(next, False, MigrationsFailed, if job.failure.Some? then job.failure.value else FailedMigrations, e.now, version))
  }

  /** What is made of an answer about the job of Quay's database, and then of one about Clair's. */
  ghost predicate DatabaseTold(w: World, e: Event, next: Main)
    requires w.main.ReadDatabaseJob? && e.ReadJob? && w.main.next < |DatabaseJobs|
  {
    var quay, name := w.main.quay, JobRead(w.main);
    && name in {PostgresUpgrade, ClairPostgresUpgrade}
    && if !e.readable then next == Idle
       else if name !in w.jobs || (w.jobs[name].active != 1 && w.jobs[name].succeeded == 1) then
         if name == PostgresUpgrade then next.ReadDatabaseJob? && next.quay == quay && next.next < |DatabaseJobs| && JobRead(next) == ClairPostgresUpgrade
         else Tells(next, True, ComponentsCreationSuccess, ComponentsCreatedMessage, e.now, quay.currentVersion)
       else if w.jobs[name].active == 1 then next == Idle
       else Tells(next, False, PostgresUpgradeFailed,
                  if w.jobs[name].failure.Some? then w.jobs[name].failure.value else FailedDatabaseUpgrade, e.now, quay.currentVersion)
  }

  lemma MigrationReadTells(w: World, e: Event)
    requires Enabled(w, e) && e.ReadJob? && w.main.ReadMigrationJob?
    ensures MigrationTold(w, e, Step(w, e).main)
  {
    var quay := w.main.quay;
    PutCarries(quay, ComponentsCreated, False, MigrationsJobMissing, UpgradeJobNotFound, e.now);
    PutCarries(quay, ComponentsCreated, True, ComponentsCreationSuccess, ComponentsCreatedMessage, e.now);
    if AppUpgrade in w.jobs {
      PutCarries(quay, ComponentsCreated, False, MigrationsFailed, FailureMessage(w.jobs[AppUpgrade], FailedMigrations), e.now);
    }
  }

  lemma DatabaseReadTells(w: World, e: Event)
    requires Enabled(w, e) && e.ReadJob? && w.main.ReadDatabaseJob?
    ensures DatabaseTold(w, e, Step(w, e).main)
  {
    var quay, name := w.main.quay, JobRead(w.main);
    PutCarries(quay, ComponentsCreated, True, ComponentsCreationSuccess, ComponentsCreatedMessage, e.now);
    if name in w.jobs {
      PutCarries(quay, ComponentsCreated, False, PostgresUpgradeFailed, FailureMessage(w.jobs[name], FailedDatabaseUpgrade), e.now);
    }
  }

  // ---- The end of a pass ----

  /** The pass has come to its verdict, and has put the planned endpoint into the status by then. */
  ghost predicate EndTold(op: Version, plan: Plan, updated: Registry, next: Main, now: Time) {
    if plan.postgresUpgrade || plan.clairPostgresUpgrade then
      Tells(next, False, PostgresUpgradeInProgress, RunningDatabaseUpgrade, now, updated.currentVersion)
      && next.want.endpoint == plan.endpoint
    else if updated.currentVersion != op then
      Tells(next, False, MigrationsInProgress, RunningMigrations, now, updated.currentVersion)
      && next.want.endpoint == plan.endpoint
    else next == Finalize(updated) && updated.endpoint == plan.endpoint
  }

  predicate EndpointKept(w: World) {
    && (w.main.ReportEndpoint? ==> w.main.want.endpoint == w.main.plan.endpoint)
    && (w.main.Gate? ==> w.main.updated.endpoint == w.main.plan.endpoint)
  }

  /** Some part of the registry that the rollout needs is not ready yet. */
  predicate Pending(plan: Plan) {
    (plan.storageManaged && !plan.storageReady) || !plan.databaseReady || !plan.clairDatabaseReady
  }

  lemma VerdictTells(op: Version, plan: Plan, updated: Registry, now: Time)
    requires updated.endpoint == plan.endpoint
    ensures EndTold(op, plan, updated, Verdict(updated, plan, op, now), now)
  {
    PutCarries(updated, ComponentsCreated, False, PostgresUpgradeInProgress, RunningDatabaseUpgrade, now);
    PutCarries(updated, ComponentsCreated, False, MigrationsInProgress, RunningMigrations, now);
  }

  lemma EndTells(w: World, e: Event)
    requires Enabled(w, e) && e.Proceed? && EndpointKept(w)
    ensures w.main.Decide? && Pending(w.main.plan) ==> Step(w, e).main == Idle
    ensures w.main.Decide? && !Pending(w.main.plan) && w.main.updated.endpoint != w.main.plan.endpoint ==>
              Step(w, e).main == ReportEndpoint(w.main.plan, w.main.updated.(endpoint := w.main.plan.endpoint))
    ensures w.main.Gate? || (w.main.Decide? && !Pending(w.main.plan) && w.main.updated.endpoint == w.main.plan.endpoint) ==>
              EndTold(w.op, w.main.plan, w.main.updated, Step(w, e).main, e.now)
  {
    if !w.main.Settle? && w.main.updated.endpoint == w.main.plan.endpoint {
      VerdictTells(w.op, w.main.plan, w.main.updated, e.now);
    }
  }

  // ---- Rollouts ----

  /** A blocked rollout is reported under its reason, and a finished one as not blocked; nothing else changes. */
  ghost predicate RolloutTold(w: World, e: Event, next: Main) {
    match e
    case Block(reason, message, now) =>
      && HoldsQuay(w.main) && next.LastWrite?
      && Carries(next.want, RolloutBlocked, True, reason, message, now) && SameExcept(next.want, w.main.quay, RolloutBlocked)
    case CleanupFails(message, now) =>
      && w.main.Apply? && next.ReportCleanup? && next.plan == w.main.plan
      && Carries(next.want, RolloutBlocked, True, ComponentCreationFailed, message, now)
      && SameExcept(next.want, w.main.quay, RolloutBlocked)
    case Proceed(now) =>
      w.main.Settle? ==>
        && next.ReportRollout? && next.plan == w.main.plan
        && Carries(next.want, RolloutBlocked, False, ComponentsCreationSuccess, ObjectsApplied, now)
        && SameExcept(next.want, w.main.quay, RolloutBlocked)
    case _ => true
  }

  lemma WithoutIsSame(reg: Registry)
    ensures SameExcept(Unblocked(reg), reg, RolloutBlocked)
  {
    forall t | t != RolloutBlocked ensures Find(Without(reg.conditions, RolloutBlocked), t) == Find(reg.conditions, t) {
      FindWithout(reg.conditions, RolloutBlocked, t);
    }
  }

  lemma RolloutTells(w: World, e: Event)
    requires Enabled(w, e) && (e.Block? || e.CleanupFails? || e.Proceed?)
    ensures RolloutTold(w, e, Step(w, e).main)
  {
    if HoldsQuay(w.main) {
      var quay := w.main.quay;
      WithoutIsSame(quay);
      match e {
        case Block(reason, message, now) =>
          PutCarries(quay, RolloutBlocked, True, reason, message, now);
          PutCarries(Unblocked(quay), RolloutBlocked, True, reason, message, now);
        case CleanupFails(message, now) =>
          PutCarries(quay, RolloutBlocked, True, ComponentCreationFailed, message, now);
        case Proceed(now) =>
          PutCarries(Unblocked(quay), RolloutBlocked, False, ComponentsCreationSuccess, ObjectsApplied, now);
      }
    }
  }

  /** What goes wrong while objects are applied, and how it will be reported. */
  lemma FailureIsNamed(w: World, e: Event)
    requires Enabled(w, e) && Step(w, e).main.Failing? && !w.main.Failing?
    ensures e == ApplyObject(false) || e.RemoveJob? || e.AddJob? ==>
              Step(w, e).main == Failing(w.main.quay, ComponentCreationFailed, ObjectFailed)
    ensures e.Write? ==> e.outcome != Acked && Step(w, e).main == Failing(w.main.quay, ConfigInvalid, CleanupImpossible)
    ensures e == ApplyObject(false) || e.RemoveJob? || e.AddJob? || e.Write?
  {
  }

  // ---- Over runs ----

  predicate HoldsPlan(main: Main) {
    main.Apply? || main.DeleteJob? || main.CreateJob? || main.ReportCleanup? || main.Settle?
    || main.ReportRollout? || main.Decide? || main.ReportEndpoint? || main.Gate?
  }

  lemma PlanStep(w: World, e: Event)
    requires Enabled(w, e) && e != Begin
    ensures HoldsPlan(Step(w, e).main) ==> if e.Inflate? then Step(w, e).main.plan == e.plan
                                           else HoldsPlan(w.main) && Step(w, e).main.plan == w.main.plan
    ensures Step(w, e).main.Prepare? ==> w.main.Prepare?
    ensures e.Inflate? ==> w.main.Prepare? && !Step(w, e).main.Prepare?
  {
  }

  /** From rendering on, a reconcile goes by the plan it rendered. */
  lemma {:induction false} PlanStays(states: seq<World>, events: seq<Event>, k: nat, i: nat)
    requires IsRun(states, events) && k < i <= |events| && events[k].Inflate?
    requires forall j | k < j < i :: events[j] != Begin
    ensures !states[i].main.Prepare?
    ensures HoldsPlan(states[i].main) ==> states[i].main.plan == events[k].plan
  {
    var last := i - 1;
    assert Enabled(states[last], events[last]) && states[i] == Step(states[last], events[last]);
    PlanStep(states[last], events[last]);
    if k < last {
      PlanStays(states, events, k, last);
    }
  }

  /** And it has rendered it, from the copy it read at its beginning. */
  lemma {:induction false} PlanIsInflated(states: seq<World>, events: seq<Event>, b: nat, i: nat) returns (k: nat)
    requires IsRun(states, events) && BeganAt(events, b, i) && HoldsPlan(states[i].main)
    ensures b < k < i && events[k].Inflate? && events[k].plan == states[i].main.plan
    decreases i
  {
    var last := i - 1;
    assert Enabled(states[last], events[last]) && states[i] == Step(states[last], events[last]);
    if b == last {
      assert false;
    } else {
      PlanStep(states[last], events[last]);
      if events[last].Inflate? {
        k := last;
      } else {
        k := PlanIsInflated(states, events, b, last);
      }
    }
  }

  lemma EndpointStep(w: World, e: Event)
    requires EndpointKept(w) && Enabled(w, e)
    ensures EndpointKept(Step(w, e))
  {
  }

  lemma {:induction false} EndpointsAreKept(states: seq<World>, events: seq<Event>, i: nat)
    requires IsRun(states, events) && Fresh(states[0]) && i < |states|
    ensures EndpointKept(states[i])
  {
    if i > 0 {
      EndpointsAreKept(states, events, i - 1);
      assert Enabled(states[i - 1], events[i - 1]) && states[i] == Step(states[i - 1], events[i - 1]);
      EndpointStep(states[i - 1], events[i - 1]);
    }
  }

  /**
   A pass that gets past its endpoint ends as the plan says that it rendered: with a job of either
   database rendered, the database upgrade is reported in progress, whatever the version;
   otherwise, at another version than the operator's, migrations are; otherwise nothing is.
   */
  lemma PassEndsAsPlanned(states: seq<World>, events: seq<Event>, k: nat, i: nat)
    requires IsRun(states, events) && Fresh(states[0]) && k < i < |events| && events[k].Inflate?
    requires forall j | k < j < i :: events[j] != Begin
    requires events[i].Proceed? && (states[i].main.Decide? || states[i].main.Gate?)
    ensures var next, plan, updated := states[i + 1].main, events[k].plan, states[i].main.updated;
            if states[i].main.Decide? && Pending(plan) then next == Idle
            else if updated.endpoint != plan.endpoint then next == ReportEndpoint(plan, updated.(endpoint := plan.endpoint))
            else EndTold(states[i].op, plan, updated, next, events[i].now)
  {
    PlanStays(states, events, k, i);
    EndpointsAreKept(states, events, i);
    assert Enabled(states[i], events[i]) && states[i + 1] == Step(states[i], events[i]);
    EndTells(states[i], events[i]);
  }

  /** Once a last write lands, the stored registry says what was told. */
  lemma LandingTells(w: World, outcome: Outcome, status: ConditionStatus, reason: Reason, message: Message, now: Time, version: Version)
    requires Enabled(w, Write(outcome)) && outcome != Rejected && Tells(w.main, status, reason, message, now, version)
    ensures var reg := Step(w, Write(outcome)).reg;
            Carries(reg, ComponentsCreated, status, reason, message, now) && reg.currentVersion == version
    ensures reason in {PostgresUpgradeInProgress, PostgresUpgradeFailed} ==> PostgresUpgradeRunning(Step(w, Write(outcome)).reg)
    ensures reason == MigrationsInProgress ==> MigrationsRunning(Step(w, Write(outcome)).reg)
  {
  }

  /** Where the reason sends a reconcile: while a job of an upgrade is awaited, nothing is rendered. */
  lemma ReasonDirects(w: World)
    requires w.main == Idle
    ensures var next := Step(w, Begin).main;
            match CreatedReason(w.reg)
            case Some(MigrationsInProgress) => next == ReadMigrationJob(w.reg)
            case Some(PostgresUpgradeInProgress) => next.ReadDatabaseJob? && next.quay == w.reg && JobRead(next) == PostgresUpgrade
            case Some(PostgresUpgradeFailed) => next.ReadDatabaseJob? && next.quay == w.reg && JobRead(next) == PostgresUpgrade
            case _ => next == Prepare(w.reg)
  {
  }

  // ---- Every reason has its cause ----

  /** The step that made this last write pending saw the reason for it. */
  ghost predicate Explains(w: World, e: Event, next: Main) {
    && next.LastWrite?
    && ((e.ReadJob? && w.main.ReadMigrationJob? && MigrationTold(w, e, next))
        || (e.ReadJob? && w.main.ReadDatabaseJob? && w.main.next < |DatabaseJobs| && DatabaseTold(w, e, next))
        || (e.Proceed? && (w.main.Decide? || w.main.Gate?) && EndTold(w.op, w.main.plan, w.main.updated, next, e.now)))
  }

  lemma RvStep(w: World, e: Event)
    requires Enabled(w, e)
    ensures w.reg.rv <= Step(w, e).reg.rv && (w.reg.rv == Step(w, e).reg.rv ==> Step(w, e).reg == w.reg)
  {
  }

  lemma {:induction false} SameRvSameRegistry(states: seq<World>, events: seq<Event>, k: nat, i: nat)
    requires IsRun(states, events) && k <= i <= |events|
    ensures states[k].reg.rv <= states[i].reg.rv
    ensures states[k].reg.rv == states[i].reg.rv ==> states[k].reg == states[i].reg
    decreases i
  {
    if k < i {
      SameRvSameRegistry(states, events, k, i - 1);
      assert Enabled(states[i - 1], events[i - 1]) && states[i] == Step(states[i - 1], events[i - 1]);
      RvStep(states[i - 1], events[i - 1]);
    }
  }

  lemma {:induction false} HasBegun(states: seq<World>, events: seq<Event>, i: nat) returns (b: nat)
    requires IsRun(states, events) && Fresh(states[0]) && i <= |events| && states[i].main != Idle
    ensures BeganAt(events, b, i)
    decreases i
  {
    var last := i - 1;
    assert Enabled(states[last], events[last]) && states[i] == Step(states[last], events[last]);
    if events[last] == Begin {
      b := last;
    } else {
      b := HasBegun(states, events, last);
    }
  }

  /** A pending write was made pending once in this reconcile. */
  lemma {:induction false} WriteIsEntered(states: seq<World>, events: seq<Event>, b: nat, i: nat) returns (k: nat)
    requires IsRun(states, events) && BeganAt(events, b, i) && HoldsWant(states[i].main)
    ensures b < k < i && states[k + 1].main == states[i].main && states[k].main != states[i].main
    decreases i
  {
    var last := i - 1;
    assert Enabled(states[last], events[last]) && states[i] == Step(states[last], events[last]);
    if b == last {
      assert false;
    } else if states[last].main == states[i].main {
      k := WriteIsEntered(states, events, b, last);
    } else {
      k := last;
    }
  }

  /** Every other write, made over the stored copy, leaves the reason as it is. */
  lemma OthersKeepReason(w: World, e: Event)
    requires CopiesOk(w) && Enabled(w, e) && HoldsWant(Step(w, e).main) && Step(w, e).main != w.main
    requires Step(w, e).main.want.rv == w.reg.rv
    requires !e.ReadJob? && !(e.Proceed? && Step(w, e).main.LastWrite?)
    ensures CreatedReason(Step(w, e).main.want) == CreatedReason(w.reg)
  {
    if HoldsQuay(w.main) {
      RolloutOrBlock(w, e);
    }
  }

  lemma RolloutOrBlock(w: World, e: Event)
    requires Enabled(w, e) && HoldsQuay(w.main) && HoldsWant(Step(w, e).main) && Step(w, e).main != w.main && !e.ReadJob?
    ensures CreatedReason(Step(w, e).main.want) == CreatedReason(w.main.quay) && Step(w, e).main.want.rv == w.main.quay.rv
  {
    if e.Block? || e.CleanupFails? || e.Proceed? {
      RolloutTells(w, e);
      assert ComponentsCreated != RolloutBlocked;
    }
  }

  lemma ReadsAndEndsExplain(w: World, e: Event)
    requires Enabled(w, e) && EndpointKept(w) && Step(w, e).main.LastWrite? && (e.ReadJob? || e.Proceed?)
    ensures Explains(w, e, Step(w, e).main)
  {
    if e.Proceed? {
      EndTells(w, e);
    } else if w.main.ReadMigrationJob? {
      MigrationReadTells(w, e);
    } else {
      DatabaseReadTells(w, e);
    }
  }

  /**
   Whenever the stored reason of `ComponentsCreated` changes, it is told by a last write of the main
   controller for which there was a cause in that same reconcile: what it read of a job, or
   the plan it had rendered.
   */
  lemma CreatedReasonHasCause(states: seq<World>, events: seq<Event>, i: nat) returns (b: nat, k: nat)
    requires IsRun(states, events) && Fresh(states[0]) && i < |events|
    requires CreatedReason(states[i + 1].reg) != CreatedReason(states[i].reg)
    ensures BeganAt(events, b, i) && b < k < i
    ensures states[i].main == states[k + 1].main && Explains(states[k], events[k], states[i].main)
    ensures states[i + 1].reg == Bumped(states[i].main.want)
  {
    Interleaving.OperatorFieldsHaveOneWriter(states, events, i);
    assert Enabled(states[i], events[i]) && states[i + 1] == Step(states[i], events[i]);
    b := HasBegun(states, events, i);
    k := WriteIsEntered(states, events, b, i);
    RunKeepsPhase(states, events, k);
    SameRvSameRegistry(states, events, k, i);
    EndpointsAreKept(states, events, k);
    CauseAt(states, events, k, i);
  }

  lemma CauseAt(states: seq<World>, events: seq<Event>, k: nat, i: nat)
    requires IsRun(states, events) && k < i < |events| && HoldsWant(states[i].main) && Inv(states[k]) && EndpointKept(states[k])
    requires states[k + 1].main == states[i].main && states[k].main != states[i].main
    requires states[i].main.want.rv == states[i].reg.rv && CreatedReason(states[i].main.want) != CreatedReason(states[i].reg)
    requires states[k].reg.rv <= states[i].reg.rv && (states[k].reg.rv == states[i].reg.rv ==> states[k].reg == states[i].reg)
    ensures Explains(states[k], events[k], states[i].main)
  {
    var w, e := states[k], events[k];
    assert Enabled(w, e) && states[k + 1] == Step(w, e);
    PendingIsNotNewer(w, e);
    if e.ReadJob? || (e.Proceed? && Step(w, e).main.LastWrite?) {
      ReadsAndEndsExplain(w, e);
    } else {
      OthersKeepReason(w, e);
    }
  }

  lemma PendingIsNotNewer(w: World, e: Event)
    requires Inv(w) && Enabled(w, e) && HoldsWant(Step(w, e).main) && Step(w, e).main != w.main
    ensures Step(w, e).main.want.rv <= w.reg.rv
  {
  }

  /** An answered read of this job, on behalf of the watch over its upgrade. */
  predicate Reads(w: World, e: Event, name: JobName) {
    && e.ReadJob? && e.readable
    && (w.main.ReadMigrationJob? || (w.main.ReadDatabaseJob? && w.main.next < |DatabaseJobs|)) && JobRead(w.main) == name
  }

  predicate SeenSucceeded(w: World, name: JobName) {
    name in w.jobs && w.jobs[name].active != 1 && w.jobs[name].succeeded == 1
  }

  predicate SeenFailed(w: World, name: JobName) {
    name in w.jobs && w.jobs[name].active != 1 && w.jobs[name].succeeded != 1
  }

  /** What each reason means, by what happened in step `k` of the reconcile that wrote it. */
  predicate Means(reason: Option<Reason>, w: World, e: Event) {
    match reason
    case Some(PostgresUpgradeInProgress) => e.Inflate? && (e.plan.postgresUpgrade || e.plan.clairPostgresUpgrade)
    case Some(MigrationsInProgress) => e.Inflate? && !e.plan.postgresUpgrade && !e.plan.clairPostgresUpgrade
    case Some(MigrationsJobMissing) => Reads(w, e, AppUpgrade) && AppUpgrade !in w.jobs
    case Some(MigrationsFailed) => Reads(w, e, AppUpgrade) && SeenFailed(w, AppUpgrade)
    case Some(PostgresUpgradeFailed) =>
      || (Reads(w, e, PostgresUpgrade) && SeenFailed(w, PostgresUpgrade))
      || (Reads(w, e, ClairPostgresUpgrade) && SeenFailed(w, ClairPostgresUpgrade))
    case Some(ComponentsCreationSuccess) =>
      || (Reads(w, e, AppUpgrade) && SeenSucceeded(w, AppUpgrade))
      || (Reads(w, e, ClairPostgresUpgrade) && (ClairPostgresUpgrade in w.jobs ==> SeenSucceeded(w, ClairPostgresUpgrade)))
    case _ => false
  }

  /** So each reason that is newly stored is backed by a step of the reconcile that stored it. */
  lemma ReasonMeans(states: seq<World>, events: seq<Event>, i: nat) returns (b: nat, k: nat)
    requires IsRun(states, events) && Fresh(states[0]) && i < |events|
    requires CreatedReason(states[i + 1].reg) != CreatedReason(states[i].reg)
    ensures BeganAt(events, b, i) && b < k < i && Means(CreatedReason(states[i + 1].reg), states[k], events[k])
  {
    b, k := CreatedReasonHasCause(states, events, i);
    var reason := CreatedReason(states[i].main.want);
    assert reason == CreatedReason(states[i + 1].reg);
    assert Enabled(states[k], events[k]);
    if events[k].Proceed? {
      assert reason == if states[k].main.plan.postgresUpgrade || states[k].main.plan.clairPostgresUpgrade
                       then Some(PostgresUpgradeInProgress) else Some(MigrationsInProgress);
      var plan := states[k].main.plan;
      assert forall j | b < j < k :: events[j] != Begin;
      k := PlanIsInflated(states, events, b, k);
      assert events[k].plan == plan;
    }
  }
}
