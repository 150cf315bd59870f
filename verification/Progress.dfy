/**
 Every reconcile of an upgrade that meets no failure makes progress: whatever order objects come
 in and whatever the clock says, it lowers `Convergence.Rank`. Reconciles that wait, because
 workloads are deferred, the spec has to be completed first or a check fails, never raise it,
 whatever goes wrong in them, and all others raise it by a bounded amount. Meanwhile the status
 controller reads and writes, users edit the spec and jobs go on. So in any run, reconciles of
 the first kind that outweigh those of the last bring the recorded version to the operator's.
 */
module Progress {
  import opened Wrappers
  import opened Conditions
  import opened CreationOrder
  import opened Protocol
  import opened MigrationSafety
  import opened Phases
  import opened Convergence
  import StatusController

  // ---- Whatever else goes on ----

  function AppJob(w: World): Option<Job> {
    Lookup(w.jobs, AppUpgrade)
  }

  /** As far as an upgrade goes, the copies are the same. */
  predicate SameUpgrade(a: Registry, b: Registry) {
    a.currentVersion == b.currentVersion && CreatedReason(a) == CreatedReason(b)
  }

  /**
   The status controller reads and writes, users edit the spec, and the cluster works on its jobs:
   the upgrade job does not fail, and disappears only if it is being deleted.
   */
  predicate ByOthers(w: World, e: Event) {
    || IsStatusEvent(e) || e.EditSpec?
    || (IsJobEvent(e) &&
          (e.name == AppUpgrade ==>
             e.JobPods? || e.JobSucceeds?
             || (e.JobGone? && AppUpgrade in w.jobs && w.jobs[AppUpgrade].terminating)))
  }

  /** How far the upgrade job may have come since. */
  predicate CameFrom(was: Option<Job>, now: Option<Job>) {
    match was
    case None => now == None
    case Some(j) =>
      || (now == None && j.terminating)
      || (now.Some? && now.value.terminating == j.terminating
          && (Finished(j) ==> now == was)
          && (!Finished(j) && Finished(now.value) ==> now.value.succeeded == 1))
  }

  lemma StatusKeepsUpgrade(w: World, e: Event)
    requires CopiesOk(w) && Enabled(w, e) && IsStatusEvent(e)
    ensures SameUpgrade(Step(w, e).reg, w.reg)
  {
    if e.StatusWrite? {
      StatusController.OverwrittenKeepsOperatorConditions(w.status.reg.conditions, e.conds, e.now, e.later);
    }
  }

  /** None of that touches what a reconcile of an upgrade goes by. */
  lemma OthersStep(w: World, e: Event)
    requires CopiesOk(w) && Enabled(w, e) && ByOthers(w, e)
    ensures var next := Step(w, e);
            && next.op == w.op && next.main == w.main
            && SameUpgrade(next.reg, w.reg) && CameFrom(AppJob(w), AppJob(next))
  {
    if IsStatusEvent(e) {
      StatusKeepsUpgrade(w, e);
    }
  }

  // ---- A reconcile that works ----

  /** The controller's next step, with readable jobs, acknowledged writes and this input. */
  predicate Undisturbed(main: Main, e: Event, input: Input) {
    match main
    case Idle => e == Begin
    case Prepare(_) => e == Inflate(input.plan, input.order)
    case ReadMigrationJob(_) => e.ReadJob? && e.readable
    case ReadDatabaseJob(_, _) => e.ReadJob? && e.readable
    case Apply(_, _, todo) =>
      if todo == [] then e == CleanupDone
      else if IsJob(todo[0]) then e.ReadJob? && e.readable
      else e == ApplyObject(true)
    case DeleteJob(_, _, _) => e == RemoveJob(Acked)
    case CreateJob(_, _, _) => e == AddJob(Acked)
    case Settle(_, _) => e.Proceed?
    case Decide(_, _) => e.Proceed?
    case Gate(_, _) => e.Proceed?
    case Finalize(_) => e == Return
    case Failing(_, _, _) => false
    case _ => e == Write(Acked)
  }

  /** One reconcile, from idle to idle, that meets no failure, with the others' steps in between. */
  ghost predicate IsRound(states: seq<World>, events: seq<Event>, lo: nat, hi: nat, input: Input) {
    && IsRun(states, events) && lo < hi <= |events|
    && states[lo].main == Idle && events[lo] == Begin && states[hi].main == Idle
    && (forall i | lo < i < hi :: states[i].main != Idle)
    && (forall i | lo <= i < hi :: Undisturbed(states[i].main, events[i], input) || ByOthers(states[i], events[i]))
  }

  // ---- Inside a round ----

  /** The upgrade job is as it was found. */
  predicate Untouched(w0: World, w: World) {
    AppJob(w) == AppJob(w0)
  }

  /** The upgrade job is on its way out, or gone. */
  predicate Deleted(w: World) {
    AppJob(w).Some? ==> AppJob(w).value.terminating
  }

  /** There is an upgrade job that nobody deletes and that has not failed. */
  predicate Created(w: World) {
    && AppJob(w).Some? && !AppJob(w).value.terminating
    && (Finished(AppJob(w).value) ==> AppJob(w).value.succeeded == 1)
  }

  /** What the round has left to apply, up to and including the upgrade job. */
  predicate Pending(todo: seq<KubeObject>, input: Input) {
    var queue := input.before + [input.job] + input.later;
    |input.later| < |todo| <= |queue| && todo == queue[|queue| - |todo|..]
  }

  ghost predicate NoJobs(todo: seq<KubeObject>) {
    forall i | 0 <= i < |todo| :: !IsJob(todo[i])
  }

  /** The version written by a look at the job. */
  function Verified(w0: World): Version {
    if AppJob(w0).Some? && AppJob(w0).value.succeeded == 1 then w0.op else w0.reg.currentVersion
  }

  predicate Watched(w0: World, reg: Registry) {
    reg.currentVersion == Verified(w0) && Calm(reg)
  }

  /** What a round has done once it is over. */
  predicate Done(w0: World, w: World) {
    if MigrationsRunning(w0.reg) then Untouched(w0, w) && Watched(w0, w.reg)
    else
      || (Created(w) && w.reg.currentVersion == w0.reg.currentVersion && MigrationsRunning(w.reg))
      || (AppJob(w0).Some? && Deleted(w) && SameUpgrade(w.reg, w0.reg))
  }

  /** A full pass on its way, at the given copy of the registry. */
  predicate Passing(w0: World, input: Input, w: World, quay: Registry, plan: Plan) {
    && Calm(w0.reg) && plan == input.plan
    && SameUpgrade(quay, w0.reg) && SameUpgrade(w.reg, w0.reg)
  }

  /** A pass past its apply loop: the job is there. */
  predicate Reporting(w0: World, input: Input, w: World, plan: Plan, copy: Registry) {
    Calm(w0.reg) && plan == input.plan && Created(w) && copy.currentVersion == w0.reg.currentVersion
  }

  ghost predicate RoundInv(w0: World, input: Input, w: World) {
    w.op == w0.op &&
    match w.main
    case Idle => Done(w0, w)
    case ReadMigrationJob(quay) => MigrationsRunning(w0.reg) && Untouched(w0, w) && SameUpgrade(quay, w0.reg)
    case Prepare(quay) => Passing(w0, input, w, quay, input.plan) && Untouched(w0, w)
    case Apply(quay, plan, todo) =>
      Passing(w0, input, w, quay, plan)
      && ((Untouched(w0, w) && Pending(todo, input)) || (Created(w) && NoJobs(todo)))
    case DeleteJob(quay, plan, todo) =>
      Passing(w0, input, w, quay, plan) && Untouched(w0, w) && todo == [input.job] + input.later
    case CreateJob(quay, plan, todo) =>
      Passing(w0, input, w, quay, plan) && todo == [input.job] + input.later
      && Deleted(w) && (AppJob(w0).None? ==> AppJob(w).None?)
    case Settle(quay, plan) => Reporting(w0, input, w, plan, quay)
    case ReportRollout(plan, want) => Reporting(w0, input, w, plan, want)
    case Decide(plan, updated) => Reporting(w0, input, w, plan, updated)
    case ReportEndpoint(plan, want) => Reporting(w0, input, w, plan, want)
    case Gate(plan, updated) => Reporting(w0, input, w, plan, updated)
    case LastWrite(want) =>
      if MigrationsRunning(w0.reg) then Untouched(w0, w) && Watched(w0, want)
      else Created(w) && want.currentVersion == w0.reg.currentVersion && MigrationsRunning(want)
    case _ => false
  }

  /** Where a round of an upgrade starts. */
  ghost predicate Starts(w0: World, input: Input) {
    Settled(w0) && w0.reg.currentVersion != w0.op && (Calm(w0.reg) ==> Good(input, w0.reg, w0.op))
  }

  lemma BeginInv(w0: World, input: Input)
    requires Starts(w0, input)
    ensures Enabled(w0, Begin) && RoundInv(w0, input, Step(w0, Begin))
  {
  }

  /** What a look at the job makes of a copy of the registry. */
  lemma VerdictIsWatched(w0: World, quay: Registry, now: Time)
    requires quay.currentVersion == w0.reg.currentVersion
    ensures var next := MigrationVerdict(quay, AppJob(w0), w0.op, now);
            next == Idle || (next.LastWrite? && Watched(w0, next.want))
  {
    WithCreatedSets(quay, False, MigrationsJobMissing, UpgradeJobNotFound, now);
    WithCreatedSets(quay, True, ComponentsCreationSuccess, ComponentsCreatedMessage, now);
    assert CreatedReason(WithCreated(quay, True, ComponentsCreationSuccess, ComponentsCreatedMessage, now).(currentVersion := w0.op))
        == CreatedReason(WithCreated(quay, True, ComponentsCreationSuccess, ComponentsCreatedMessage, now));
    if AppJob(w0).Some? {
      WithCreatedSets(quay, False, MigrationsFailed, FailureMessage(AppJob(w0).value, FailedMigrations), now);
    }
  }

  lemma WatchInv(w0: World, input: Input, w: World, e: Event)
    requires Starts(w0, input) && RoundInv(w0, input, w) && Enabled(w, e) && Undisturbed(w.main, e, input)
    requires w.main.ReadMigrationJob?
    ensures RoundInv(w0, input, Step(w, e))
  {
    VerdictIsWatched(w0, w.main.quay, e.now);
  }

  lemma InflateInv(w0: World, input: Input, w: World, e: Event)
    requires Starts(w0, input) && RoundInv(w0, input, w) && Enabled(w, e) && Undisturbed(w.main, e, input)
    requires w.main.Prepare?
    ensures RoundInv(w0, input, Step(w, e))
  {
    var queue := input.before + [input.job] + input.later;
    assert queue[|queue| - |queue|..] == queue;
  }

  lemma PendingStep(todo: seq<KubeObject>, input: Input)
    requires Pending(todo, input) && IsJob(input.job)
    requires forall i | 0 <= i < |input.before| :: !IsJob(input.before[i])
    ensures !IsJob(todo[0]) ==> Pending(todo[1..], input)
    ensures IsJob(todo[0]) ==> todo == [input.job] + input.later
  {
    var queue := input.before + [input.job] + input.later;
    var k := |queue| - |todo|;
    assert todo[0] == queue[k] && todo[1..] == queue[k + 1..];
    if k < |input.before| {
      assert queue[k] == input.before[k];
    } else {
      assert queue[|input.before|..] == [input.job] + input.later;
    }
  }

  lemma ApplyInv(w0: World, input: Input, w: World, e: Event)
    requires Starts(w0, input) && RoundInv(w0, input, w) && Enabled(w, e) && Undisturbed(w.main, e, input)
    requires w.main.Apply?
    ensures RoundInv(w0, input, Step(w, e))
  {
    var todo := w.main.todo;
    if Pending(todo, input) {
      PendingStep(todo, input);
    }
  }

  lemma JobInv(w0: World, input: Input, w: World, e: Event)
    requires Starts(w0, input) && RoundInv(w0, input, w) && Enabled(w, e) && Undisturbed(w.main, e, input)
    requires w.main.DeleteJob? || w.main.CreateJob?
    ensures RoundInv(w0, input, Step(w, e))
  {
    assert ([input.job] + input.later)[1..] == input.later;
  }

  lemma ReportInv(w0: World, input: Input, w: World, e: Event)
    requires Starts(w0, input) && RoundInv(w0, input, w) && Enabled(w, e) && Undisturbed(w.main, e, input)
    requires w.main.Settle? || w.main.ReportRollout? || w.main.ReportEndpoint? || w.main.LastWrite?
    ensures RoundInv(w0, input, Step(w, e))
  {
  }

  lemma GateInv(w0: World, input: Input, w: World, e: Event)
    requires Starts(w0, input) && RoundInv(w0, input, w) && Enabled(w, e) && Undisturbed(w.main, e, input)
    requires w.main.Decide? || w.main.Gate?
    ensures RoundInv(w0, input, Step(w, e))
  {
    WithCreatedSets(w.main.updated, False, MigrationsInProgress, RunningMigrations, e.now);
  }

  lemma OwnStepInv(w0: World, input: Input, w: World, e: Event)
    requires Starts(w0, input) && RoundInv(w0, input, w) && Enabled(w, e) && Undisturbed(w.main, e, input)
    requires w.main != Idle
    ensures RoundInv(w0, input, Step(w, e))
  {
    match w.main {
      case ReadMigrationJob(_) => WatchInv(w0, input, w, e);
      case Prepare(_) => InflateInv(w0, input, w, e);
      case Apply(_, _, _) => ApplyInv(w0, input, w, e);
      case DeleteJob(_, _, _) => JobInv(w0, input, w, e);
      case CreateJob(_, _, _) => JobInv(w0, input, w, e);
      case Decide(_, _) => GateInv(w0, input, w, e);
      case Gate(_, _) => GateInv(w0, input, w, e);
      case _ => ReportInv(w0, input, w, e);
    }
  }

  /** What the others leave alone is all the round relies on. */
  lemma OthersKeepRoundInv(w0: World, input: Input, w: World, next: World)
    requires Settled(w0) && RoundInv(w0, input, w) && w.main != Idle
    requires next.op == w.op && next.main == w.main
    requires SameUpgrade(next.reg, w.reg) && CameFrom(AppJob(w), AppJob(next))
    ensures RoundInv(w0, input, next)
  {
  }

  lemma StepInv(w0: World, input: Input, w: World, e: Event)
    requires Starts(w0, input) && RoundInv(w0, input, w) && w.main != Idle && CopiesOk(w)
    requires Enabled(w, e) && (Undisturbed(w.main, e, input) || ByOthers(w, e))
    ensures RoundInv(w0, input, Step(w, e))
  {
    if ByOthers(w, e) {
      OthersStep(w, e);
      OthersKeepRoundInv(w0, input, w, Step(w, e));
    } else {
      OwnStepInv(w0, input, w, e);
    }
  }

  lemma {:induction false} InsideRound(states: seq<World>, events: seq<Event>, lo: nat, hi: nat, input: Input, i: nat)
    requires IsRound(states, events, lo, hi, input) && Starts(states[lo], input) && lo < i <= hi
    ensures Inv(states[i]) && RoundInv(states[lo], input, states[i])
  {
    var last := i - 1;
    assert Enabled(states[last], events[last]) && states[i] == Step(states[last], events[last]);
    if last == lo {
      BeginInv(states[lo], input);
    } else {
      InsideRound(states, events, lo, hi, input, last);
      StepInv(states[lo], input, states[last], events[last]);
    }
    StepKeepsInv(states[last], events[last]);
  }

  // ---- Between rounds ----

  /** The operator polls: it looks at a job that is running, or cannot read it, and leaves it at that. */
  predicate Polls(w: World, e: Event) {
    || e.Crash?
    || (e == Begin && MigrationsRunning(w.reg))
    || (e.ReadJob? && w.main.ReadMigrationJob?
        && (!e.readable || (AppUpgrade in w.jobs && w.jobs[AppUpgrade].active == 1)))
  }

  /** Nothing happens but that, and what others do. */
  ghost predicate IsSettling(states: seq<World>, events: seq<Event>, lo: nat, hi: nat) {
    && IsRun(states, events) && lo <= hi <= |events|
    && forall i | lo <= i < hi :: ByOthers(states[i], events[i]) || Polls(states[i], events[i])
  }

  /** What has become of `mid`. */
  predicate Since(mid: World, w: World) {
    && w.op == mid.op && (w.main == Idle || w.main.ReadMigrationJob?)
    && SameUpgrade(w.reg, mid.reg) && CameFrom(AppJob(mid), AppJob(w))
  }

  lemma SettlingStep(mid: World, w: World, e: Event)
    requires Inv(w) && Since(mid, w) && Enabled(w, e) && (ByOthers(w, e) || Polls(w, e))
    ensures Since(mid, Step(w, e))
  {
    if ByOthers(w, e) {
      OthersStep(w, e);
    }
  }

  lemma {:induction false} SettlingOutcome(states: seq<World>, events: seq<Event>, lo: nat, hi: nat, i: nat)
    requires IsSettling(states, events, lo, hi) && lo <= i <= hi && Inv(states[lo]) && states[lo].main == Idle
    ensures Inv(states[i]) && Since(states[lo], states[i])
  {
    if i > lo {
      var last := i - 1;
      SettlingOutcome(states, events, lo, hi, last);
      assert Enabled(states[last], events[last]) && states[i] == Step(states[last], events[last]);
      StepKeepsInv(states[last], events[last]);
      SettlingStep(states[lo], states[last], events[last]);
    }
  }

  /** A round over at `mid`, and what becomes of that, bring the end nearer. */
  lemma RankFalls(w0: World, input: Input, mid: World, to: World)
    requires Starts(w0, input) && Done(w0, mid) && mid.op == w0.op
    requires Settled(to) && Since(mid, to)
    ensures Rank(to) < Rank(w0)
  {
  }

  /** Any reconcile of an upgrade that meets no failure lowers the rank, once things have settled. */
  lemma EveryRoundAdvances(states: seq<World>, events: seq<Event>, lo: nat, mid: nat, hi: nat, input: Input)
    requires IsRound(states, events, lo, mid, input) && Starts(states[lo], input)
    requires IsSettling(states, events, mid, hi) && Settled(states[hi])
    ensures Rank(states[hi]) < Rank(states[lo]) && states[hi].op == states[lo].op
  {
    InsideRound(states, events, lo, mid, input, mid);
    SettlingOutcome(states, events, mid, hi, hi);
    RankFalls(states[lo], input, states[mid], states[hi]);
  }

  // ---- Reconciles that wait ----

  /** A step of the main controller, or its end. */
  predicate IsController(e: Event) {
    !IsJobEvent(e) && !IsStatusEvent(e) && !e.EditSpec? && !e.ReplaceOperator?
  }

  /**
   One reconcile that does not touch the jobs: it watches a migration, or it renders nothing, or
   it defers workloads. Its calls may fail in any way, and others may do what they do.
   */
  ghost predicate IsWait(states: seq<World>, events: seq<Event>, lo: nat, hi: nat) {
    && IsRun(states, events) && lo < hi <= |events|
    && states[lo].main == Idle && events[lo] == Begin && states[hi].main == Idle
    && (forall i | lo < i < hi :: states[i].main != Idle)
    && (forall i | lo <= i < hi :: IsController(events[i]) || ByOthers(states[i], events[i]))
    && (forall i | lo <= i < hi && events[i].Inflate? :: Defers(events[i].plan))
  }

  /** The same as far as the upgrade goes, or what a look at the job makes of it. */
  predicate NoWorse(w0: World, reg: Registry) {
    SameUpgrade(reg, w0.reg) || (MigrationsRunning(w0.reg) && Watched(w0, reg))
  }

  ghost predicate WaitInv(w0: World, w: World) {
    && w.op == w0.op && Untouched(w0, w) && NoWorse(w0, w.reg)
    && match w.main
       case Idle => true
       case ReadMigrationJob(quay) => MigrationsRunning(w0.reg) && SameUpgrade(quay, w0.reg)
       case Prepare(quay) => Calm(w0.reg) && SameUpgrade(quay, w0.reg)
       case Apply(quay, plan, todo) => Calm(w0.reg) && SameUpgrade(quay, w0.reg) && Defers(plan) && NoJobs(todo)
       case Failing(quay, _, _) => Calm(w0.reg) && SameUpgrade(quay, w0.reg)
       case ReportCleanup(quay, plan, want) =>
         Calm(w0.reg) && SameUpgrade(quay, w0.reg) && SameUpgrade(want, w0.reg) && Defers(plan)
       case Settle(quay, plan) => Calm(w0.reg) && SameUpgrade(quay, w0.reg) && Defers(plan)
       case ReportRollout(plan, want) => Calm(w0.reg) && SameUpgrade(want, w0.reg) && Defers(plan)
       case Decide(plan, updated) => Calm(w0.reg) && Defers(plan)
       case LastWrite(want) => NoWorse(w0, want)
       case _ => false
  }

  lemma WaitWatchInv(w0: World, w: World, e: Event)
    requires WaitInv(w0, w) && Enabled(w, e) && e.ReadJob?
    ensures WaitInv(w0, Step(w, e))
  {
    VerdictIsWatched(w0, w.main.quay, e.now);
  }

  lemma DeferredQueueHasNoJobs(plan: Plan, quay: Registry, op: Version, order: seq<KubeObject>)
    requires Renders(plan, quay, op, order) && WorkloadsLast(order) && Defers(plan)
    ensures NoJobs(Queue(plan, order))
  {
    QueueMembers(order, true);
    var queue := Queue(plan, order);
    forall i | 0 <= i < |queue| ensures !IsJob(queue[i]) {
      assert queue[i] in queue;
    }
  }

  lemma WaitBlockInv(w0: World, w: World, e: Event)
    requires WaitInv(w0, w) && Enabled(w, e) && (e.Block? || e.CleanupFails?)
    ensures WaitInv(w0, Step(w, e))
  {
    var quay := w.main.quay;
    UnblockedKeepsCreated(quay);
    if e.Block? {
      BlockedKeepsCreated(quay, e.reason, e.message, e.now);
      BlockedKeepsCreated(Unblocked(quay), e.reason, e.message, e.now);
    } else {
      BlockedKeepsCreated(quay, ComponentCreationFailed, e.message, e.now);
    }
  }

  lemma WaitInflateInv(w0: World, w: World, e: Event)
    requires WaitInv(w0, w) && Enabled(w, e) && e.Inflate? && Defers(e.plan)
    ensures WaitInv(w0, Step(w, e))
  {
    DeferredQueueHasNoJobs(e.plan, w.main.quay, w.op, e.order);
  }

  lemma WaitReportInv(w0: World, w: World, e: Event)
    requires WaitInv(w0, w) && w.main != Idle && Enabled(w, e) && (e.Proceed? || e.Write?)
    ensures WaitInv(w0, Step(w, e))
  {
    if w.main.Settle? {
      RolledOutKeepsCreated(w.main.quay, e.now);
    }
  }

  lemma OwnWaitStep(w0: World, w: World, e: Event)
    requires WaitInv(w0, w) && w.main != Idle
    requires Enabled(w, e) && IsController(e) && (e.Inflate? ==> Defers(e.plan))
    ensures WaitInv(w0, Step(w, e))
  {
    if e.Block? || e.CleanupFails? {
      WaitBlockInv(w0, w, e);
    } else if e.Inflate? {
      WaitInflateInv(w0, w, e);
    } else if e.Proceed? || e.Write? {
      WaitReportInv(w0, w, e);
    } else if e.ReadJob? {
      WaitWatchInv(w0, w, e);
    }
  }

  lemma OthersKeepWaitInv(w0: World, w: World, next: World)
    requires Settled(w0) && WaitInv(w0, w)
    requires next.op == w.op && next.main == w.main
    requires SameUpgrade(next.reg, w.reg) && CameFrom(AppJob(w), AppJob(next))
    ensures WaitInv(w0, next)
  {
  }

  lemma WaitStepInv(w0: World, w: World, e: Event)
    requires Settled(w0) && WaitInv(w0, w) && w.main != Idle && CopiesOk(w)
    requires Enabled(w, e) && (IsController(e) || ByOthers(w, e)) && (e.Inflate? ==> Defers(e.plan))
    ensures WaitInv(w0, Step(w, e))
  {
    if ByOthers(w, e) {
      OthersStep(w, e);
      OthersKeepWaitInv(w0, w, Step(w, e));
    } else {
      OwnWaitStep(w0, w, e);
    }
  }

  lemma {:induction false} InsideWait(states: seq<World>, events: seq<Event>, lo: nat, hi: nat, i: nat)
    requires IsWait(states, events, lo, hi) && Settled(states[lo]) && lo < i <= hi
    ensures Inv(states[i]) && WaitInv(states[lo], states[i])
  {
    var last := i - 1;
    assert Enabled(states[last], events[last]) && states[i] == Step(states[last], events[last]);
    if last > lo {
      InsideWait(states, events, lo, hi, last);
      WaitStepInv(states[lo], states[last], events[last]);
    }
    StepKeepsInv(states[last], events[last]);
  }

  lemma NoWorseRank(w0: World, mid: World, to: World)
    requires Settled(w0) && WaitInv(w0, mid) && w0.reg.currentVersion != w0.op
    requires Settled(to) && Since(mid, to)
    ensures Rank(to) <= Rank(w0)
  {
  }

  /** A reconcile that waits costs nothing: once things have settled, no more is left than before. */
  lemma WaitingNeverRaisesRank(states: seq<World>, events: seq<Event>, lo: nat, mid: nat, hi: nat)
    requires IsWait(states, events, lo, mid) && Settled(states[lo]) && states[lo].reg.currentVersion != states[lo].op
    requires IsSettling(states, events, mid, hi) && Settled(states[hi])
    ensures Rank(states[hi]) <= Rank(states[lo]) && states[hi].op == states[lo].op
  {
    InsideWait(states, events, lo, mid, mid);
    SettlingOutcome(states, events, mid, hi, hi);
    NoWorseRank(states[lo], states[mid], states[hi]);
  }

  // ---- Whatever else a reconcile may do ----

  /** Anything may happen to a calm registry, as long as no upgrade job fails. */
  ghost predicate Stumbles(states: seq<World>, events: seq<Event>, lo: nat, hi: nat) {
    && IsRun(states, events) && lo <= hi <= |events| && Calm(states[lo].reg)
    && forall i | lo <= i < hi :: !events[i].ReplaceOperator? && !(events[i].JobFails? && events[i].name == AppUpgrade)
  }

  lemma {:induction false} NoJobFailed(states: seq<World>, events: seq<Event>, lo: nat, hi: nat, i: nat)
    requires Stumbles(states, events, lo, hi) && lo <= i <= hi && AppJob(states[lo]).None?
    ensures AppJob(states[i]).Some? ==> AppJob(states[i]).value.failure.None?
  {
    if i > lo {
      NoJobFailed(states, events, lo, hi, i - 1);
      assert Enabled(states[i - 1], events[i - 1]) && states[i] == Step(states[i - 1], events[i - 1]);
    }
  }

  /** A pass that fails half-way can undo one step, by deleting a job or leaving one unreported. */
  lemma StumblingCostsOne(states: seq<World>, events: seq<Event>, lo: nat, hi: nat)
    requires Stumbles(states, events, lo, hi) && Settled(states[lo]) && Settled(states[hi])
    requires states[lo].reg.currentVersion != states[lo].op
    ensures Rank(states[hi]) <= Rank(states[lo]) + 1
  {
    if AppJob(states[lo]).None? {
      NoJobFailed(states, events, lo, hi, hi);
    }
  }

  // ---- Several reconciles ----

  /** A version once reached is not left again. */
  lemma {:induction false} VersionStays(states: seq<World>, events: seq<Event>, lo: nat, i: nat)
    requires IsRun(states, events) && lo <= i <= |events| && Inv(states[lo])
    requires forall k | lo <= k < i :: !events[k].ReplaceOperator?
    ensures Inv(states[i]) && states[i].op == states[lo].op
    ensures Reached(states[lo]) ==> Reached(states[i])
  {
    if i > lo {
      var last := i - 1;
      VersionStays(states, events, lo, last);
      assert Enabled(states[last], events[last]) && states[i] == Step(states[last], events[last]);
      StepKeepsInv(states[last], events[last]);
      if states[i].reg.currentVersion != states[last].reg.currentVersion {
        VersionStep(states[last], events[last]);
      }
    }
  }

  predicate Reached(w: World) {
    w.reg.currentVersion == w.op
  }

  /** A part of a run: a reconcile, over at `mid`, and what follows it up to `end`. */
  datatype Lap = Lap(mid: nat, end: nat, input: Input)

  /**
   A lap from `at` on. Anything may happen in it but a new operator; as long as the version is
   not reached, things have settled at its end.
   */
  ghost predicate IsLap(states: seq<World>, events: seq<Event>, at: nat, lap: Lap)
    requires IsRun(states, events) && at <= |events|
  {
    && at <= lap.mid <= lap.end <= |events|
    && (forall i | at <= i < lap.end :: !events[i].ReplaceOperator?)
    && (Reached(states[at]) || Settled(states[lap.end]))
  }

  /** The reconcile meets no failure, and its full pass, if it makes one, finds nothing pending. */
  ghost predicate Works(states: seq<World>, events: seq<Event>, at: nat, lap: Lap)
    requires IsRun(states, events) && at <= |events| && IsLap(states, events, at, lap)
  {
    && IsRound(states, events, at, lap.mid, lap.input) && IsSettling(states, events, lap.mid, lap.end)
    && (Calm(states[at].reg) ==> Good(lap.input, states[at].reg, states[at].op))
  }

  ghost predicate Waits(states: seq<World>, events: seq<Event>, at: nat, lap: Lap)
    requires IsRun(states, events) && at <= |events| && IsLap(states, events, at, lap)
  {
    IsWait(states, events, at, lap.mid) && IsSettling(states, events, lap.mid, lap.end)
  }

  /** What a lap is worth: one if it works or nothing is left to do, and less than nothing if it fails. */
  ghost function Worth(states: seq<World>, events: seq<Event>, at: nat, lap: Lap): int
    requires IsRun(states, events) && at <= |events| && IsLap(states, events, at, lap)
  {
    if Reached(states[at]) || Works(states, events, at, lap) then 1
    else if Waits(states, events, at, lap) then 0
    else if Stumbles(states, events, at, lap.end) then -1
    else -3
  }

  ghost predicate AreLaps(states: seq<World>, events: seq<Event>, at: nat, laps: seq<Lap>)
    requires IsRun(states, events) && at <= |events|
    decreases laps
  {
    laps == [] || (IsLap(states, events, at, laps[0]) && AreLaps(states, events, laps[0].end, laps[1..]))
  }

  /** Where the last lap ends. */
  ghost function End(states: seq<World>, events: seq<Event>, at: nat, laps: seq<Lap>): (end: nat)
    requires IsRun(states, events) && at <= |events| && AreLaps(states, events, at, laps)
    ensures at <= end <= |events|
    decreases laps
  {
    if laps == [] then at else End(states, events, laps[0].end, laps[1..])
  }

  ghost function TotalWorth(states: seq<World>, events: seq<Event>, at: nat, laps: seq<Lap>): int
    requires IsRun(states, events) && at <= |events| && AreLaps(states, events, at, laps)
    decreases laps
  {
    if laps == [] then 0
    else Worth(states, events, at, laps[0]) + TotalWorth(states, events, laps[0].end, laps[1..])
  }

  /** The rank falls by what a lap is worth, at least. */
  lemma LapCounts(states: seq<World>, events: seq<Event>, at: nat, lap: Lap)
    requires IsRun(states, events) && at <= |events| && IsLap(states, events, at, lap)
    requires Settled(states[at]) && !Reached(states[at])
    ensures Rank(states[lap.end]) <= Rank(states[at]) - Worth(states, events, at, lap)
  {
    if Works(states, events, at, lap) {
      EveryRoundAdvances(states, events, at, lap.mid, lap.end, lap.input);
    } else if Waits(states, events, at, lap) {
      WaitingNeverRaisesRank(states, events, at, lap.mid, lap.end);
    } else if Stumbles(states, events, at, lap.end) {
      StumblingCostsOne(states, events, at, lap.end);
    }
  }

  /** Laps that are worth the rank of where they start reach the version. */
  lemma {:induction false} LapsConverge(states: seq<World>, events: seq<Event>, at: nat, laps: seq<Lap>)
    requires IsRun(states, events) && at <= |events| && AreLaps(states, events, at, laps) && Inv(states[at])
    requires Reached(states[at]) || (Settled(states[at]) && Rank(states[at]) <= TotalWorth(states, events, at, laps))
    ensures var end := End(states, events, at, laps);
            Inv(states[end]) && Reached(states[end]) && states[end].op == states[at].op
    decreases laps
  {
    if laps != [] {
      var next := laps[0].end;
      VersionStays(states, events, at, next);
      if !Reached(states[at]) {
        LapCounts(states, events, at, laps[0]);
      }
      LapsConverge(states, events, next, laps[1..]);
    }
  }

  /**
   In any run, from wherever it has come to rest outside a database upgrade: once reconciles have
   been made whose worth adds up to the rank, which is at most four, the recorded version is the
   operator's, and it stays so for as long as that operator is not replaced.
   */
  lemma EveryUpgradeConverges(states: seq<World>, events: seq<Event>, at: nat, laps: seq<Lap>, i: nat)
    requires IsRun(states, events) && Fresh(states[0]) && at <= |events|
    requires states[at].main == Idle && !PostgresUpgradeRunning(states[at].reg)
    requires AppUpgrade in states[at].jobs ==>
               Finished(states[at].jobs[AppUpgrade]) && !states[at].jobs[AppUpgrade].terminating
    requires AreLaps(states, events, at, laps) && Rank(states[at]) <= TotalWorth(states, events, at, laps)
    requires End(states, events, at, laps) <= i <= |events|
    requires forall k | End(states, events, at, laps) <= k < i :: !events[k].ReplaceOperator?
    ensures states[i].op == states[at].op && states[i].reg.currentVersion == states[at].op
  {
    FreshIsInv(states[0]);
    RunKeepsInv(states, events, at);
    LapsConverge(states, events, at, laps);
    VersionStays(states, events, End(states, events, at, laps), i);
  }
}
