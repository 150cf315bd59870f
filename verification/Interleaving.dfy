/**
 Two controllers write the same status. Under resource-version checks neither loses what the
 other wrote: each field has one writer in every run.
 */
module Interleaving {
  import opened Wrappers
  import opened Conditions
  import opened Protocol
  import opened MigrationSafety
  import StatusController
  import Components

  const OperatorTypes: set<ConditionType> := {RolloutBlocked, ComponentsCreated}

  /** The two lists differ at most in the main controller's conditions. */
  ghost predicate SameElsewhere(a: seq<Condition>, b: seq<Condition>) {
    forall t | t !in OperatorTypes :: Find(a, t) == Find(b, t)
  }

  /** A pending write of the main controller, should it land, respects the other one's conditions. */
  ghost predicate Respectful(conds: seq<Condition>, was: seq<Condition>) {
    SameElsewhere(conds, was) && (Distinct(was) ==> Distinct(conds))
  }

  /** The write pending in `w`, if it can still land over `was`, respects what is stored there. */
  ghost predicate PendingRespects(w: World, was: Registry) {
    HoldsWant(w.main) && w.main.want.rv == was.rv ==> Respectful(w.main.want.conditions, was.conditions)
  }

  ghost predicate SharedInv(w: World) {
    Inv(w) && PendingRespects(w, w.reg)
  }

  lemma PutRespectful(conds: seq<Condition>, c: Condition)
    requires c.ctype in OperatorTypes
    ensures Respectful(Put(conds, c), conds)
  {
    forall t | t !in OperatorTypes ensures Find(Put(conds, c), t) == Find(conds, t) {
      FindPut(conds, c, t);
    }
    if Distinct(conds) {
      PutDistinct(conds, c);
    }
  }

  lemma UnblockedRespectful(conds: seq<Condition>)
    ensures Respectful(Without(conds, RolloutBlocked), conds)
  {
    forall t | t !in OperatorTypes ensures Find(Without(conds, RolloutBlocked), t) == Find(conds, t) {
      FindWithout(conds, RolloutBlocked, t);
    }
    if Distinct(conds) {
      WithoutDistinct(conds, RolloutBlocked);
    }
  }

  lemma CreatedRespectful(quay: Registry, status: ConditionStatus, reason: Reason, message: Message, now: Time)
    ensures Respectful(WithCreated(quay, status, reason, message, now).conditions, quay.conditions)
  {
    PutRespectful(quay.conditions, Condition(ComponentsCreated, status, reason, message, now, now));
  }

  lemma BlockedRespectful(quay: Registry, reason: Reason, message: Message, now: Time)
    ensures Respectful(Blocked(quay, reason, message, now).conditions, quay.conditions)
    ensures Respectful(Blocked(Unblocked(quay), reason, message, now).conditions, quay.conditions)
  {
    var c := Condition(RolloutBlocked, True, reason, message, now, now);
    PutRespectful(quay.conditions, c);
    UnblockedRespectful(quay.conditions);
    PutRespectful(Without(quay.conditions, RolloutBlocked), c);
  }

  lemma RolledOutRespectful(quay: Registry, now: Time)
    ensures Respectful(RolledOut(quay, now).conditions, quay.conditions)
  {
    UnblockedRespectful(quay.conditions);
    PutRespectful(Without(quay.conditions, RolloutBlocked),
                  Condition(RolloutBlocked, False, ComponentsCreationSuccess,
                            ObjectsApplied, now, now));
  }

  lemma VerdictsRespect(quay: Registry, job: Option<Job>, op: Version, now: Time)
    ensures var next := MigrationVerdict(quay, job, op, now);
            next.LastWrite? ==> Respectful(next.want.conditions, quay.conditions)
    ensures forall i | 0 <= i < |DatabaseJobs| ::
              var next := DatabaseVerdict(quay, i, job, now);
              next.LastWrite? ==> Respectful(next.want.conditions, quay.conditions)
  {
    CreatedRespectful(quay, False, MigrationsJobMissing, UpgradeJobNotFound, now);
    CreatedRespectful(quay, True, ComponentsCreationSuccess, ComponentsCreatedMessage, now);
    if job.Some? {
      CreatedRespectful(quay, False, MigrationsFailed, FailureMessage(job.value, FailedMigrations), now);
      CreatedRespectful(quay, False, PostgresUpgradeFailed, FailureMessage(job.value, FailedDatabaseUpgrade), now);
    }
  }

  lemma BlockRespects(w: World, e: Event)
    requires CopiesOk(w) && Enabled(w, e) && (e.Block? || e.CleanupFails?)
    ensures PendingRespects(Step(w, e), w.reg)
  {
    if e.Block? {
      BlockedRespectful(w.main.quay, e.reason, e.message, e.now);
    } else {
      BlockedRespectful(w.main.quay, ComponentCreationFailed, e.message, e.now);
    }
  }

  lemma MigrationReadRespects(w: World, e: Event)
    requires CopiesOk(w) && Enabled(w, e) && e.ReadJob? && w.main.ReadMigrationJob?
    ensures PendingRespects(Step(w, e), w.reg)
  {
    VerdictsRespect(w.main.quay, Lookup(w.jobs, AppUpgrade), w.op, e.now);
  }

  lemma DatabaseReadRespects(w: World, e: Event)
    requires CopiesOk(w) && Enabled(w, e) && e.ReadJob? && w.main.ReadDatabaseJob?
    ensures PendingRespects(Step(w, e), w.reg)
  {
    VerdictsRespect(w.main.quay, Lookup(w.jobs, DatabaseJobs[w.main.next]), w.op, e.now);
  }

  lemma VerdictRespects(w: World, updated: Registry, plan: Plan, now: Time)
    requires CopyOf(updated, w.reg)
    ensures PendingRespects(w.(main := Verdict(updated, plan, w.op, now)), w.reg)
  {
    CreatedRespectful(updated, False, PostgresUpgradeInProgress, RunningDatabaseUpgrade, now);
    CreatedRespectful(updated, False, MigrationsInProgress, RunningMigrations, now);
  }

  lemma ProceedRespects(w: World, e: Event)
    requires CopiesOk(w) && Enabled(w, e) && e.Proceed?
    ensures PendingRespects(Step(w, e), w.reg)
  {
    match w.main {
      case Settle(quay, _) => RolledOutRespectful(quay, e.now);
      case Decide(plan, updated) => VerdictRespects(w, updated, plan, e.now);
      case Gate(plan, updated) => VerdictRespects(w, updated, plan, e.now);
    }
  }

  /** Other steps leave no new write pending, and a landing write outdates the pending one. */
  lemma OthersRespect(w: World, e: Event)
    requires SharedInv(w) && Enabled(w, e)
    requires !(e.ReadJob? || e.Block? || e.CleanupFails? || e.Proceed?)
    ensures PendingRespects(Step(w, e), Step(w, e).reg)
  {
  }

  lemma StepKeepsSharedInv(w: World, e: Event)
    requires SharedInv(w) && Enabled(w, e)
    ensures SharedInv(Step(w, e))
  {
    StepKeepsInv(w, e);
    if e.ReadJob? {
      match w.main {
        case ReadMigrationJob(_) => MigrationReadRespects(w, e);
        case ReadDatabaseJob(_, _) => DatabaseReadRespects(w, e);
        case Apply(_, _, _) =>
      }
    } else if e.Block? || e.CleanupFails? {
      BlockRespects(w, e);
    } else if e.Proceed? {
      ProceedRespects(w, e);
    } else {
      OthersRespect(w, e);
    }
  }

  lemma {:induction false} RunKeepsSharedInv(states: seq<World>, events: seq<Event>, i: nat)
    requires IsRun(states, events) && Fresh(states[0]) && i < |states|
    ensures SharedInv(states[i])
  {
    if i == 0 {
      FreshIsInv(states[0]);
    } else {
      RunKeepsSharedInv(states, events, i - 1);
      StepKeepsSharedInv(states[i - 1], events[i - 1]);
    }
  }

  // ---- One writer per field ----

  predicate SameOperatorFields(a: Registry, b: Registry) {
    && a.currentVersion == b.currentVersion && a.endpoint == b.endpoint
    && Find(a.conditions, ComponentsCreated) == Find(b.conditions, ComponentsCreated)
    && Find(a.conditions, RolloutBlocked) == Find(b.conditions, RolloutBlocked)
  }

  /**
   Steps of the status controller are stutter steps of the upgrade protocol: wherever they
   fall in a run, they change nothing the main controller wrote or is about to decide on.
   */
  lemma StatusStepsStutter(states: seq<World>, events: seq<Event>, i: nat)
    requires IsRun(states, events) && Fresh(states[0]) && i < |events|
    requires IsStatusEvent(events[i])
    ensures SameOperatorFields(states[i + 1].reg, states[i].reg)
    ensures states[i + 1].(reg := states[i].reg, status := states[i].status) == states[i]
  {
    RunKeepsSharedInv(states, events, i);
    var e, w := events[i], states[i];
    assert Enabled(w, e) && states[i + 1] == Step(w, e);
    if e.StatusWrite? {
      StatusController.OverwrittenKeepsOperatorConditions(w.status.reg.conditions, e.conds, e.now, e.later);
    }
  }

  /**
   Whatever the main controller is doing, it holds nobody up: users edit the spec, the status
   controller reads and writes, the process dies, and jobs that are there go on or go away.
   */
  lemma NobodyIsHeldUp(w: World, components: seq<Components.Component>, conds: seq<Condition>, now: Time, later: Time, name: JobName)
    ensures Enabled(w, EditSpec(components)) && Enabled(w, StatusRead) && Enabled(w, Crash)
    ensures w.status.Evaluated? && Evaluator.IsReport(conds) ==>
              && Enabled(w, StatusWrite(conds, now, later, Rejected))
              && (w.status.reg.rv == w.reg.rv <==> Enabled(w, StatusWrite(conds, now, later, Acked)))
    ensures name in w.jobs ==>
              && Enabled(w, JobMarked(name)) && Enabled(w, JobGone(name))
              && (!Finished(w.jobs[name]) <==> Enabled(w, JobSucceeds(name)))
  {
  }

  /** Whoever writes the registry, status or spec, writes over the version he has read; only users do not. */
  lemma LandingNeedsTheLatestCopy(w: World, e: Event)
    requires Enabled(w, e) && Step(w, e).reg != w.reg && !e.EditSpec?
    ensures e.Write? || e.TouchSpec? || e.WriteDefaults? || e.StatusWrite?
    ensures Step(w, e).reg.rv == w.reg.rv + 1
    ensures e.Write? ==> w.main.want.rv == w.reg.rv
    ensures e.WriteDefaults? || (e.TouchSpec? && w.main.Prepare?) ==> w.main.quay.rv == w.reg.rv
    ensures e.TouchSpec? && !w.main.Prepare? ==> w.main.Finalize? && w.main.updated.rv == w.reg.rv
    ensures e.StatusWrite? ==> w.status.reg.rv == w.reg.rv
  {
  }

  /** Only an acknowledged or lost write of the main controller changes its fields. */
  lemma OperatorFieldsHaveOneWriter(states: seq<World>, events: seq<Event>, i: nat)
    requires IsRun(states, events) && Fresh(states[0]) && i < |events|
    requires !SameOperatorFields(states[i + 1].reg, states[i].reg)
    ensures events[i].Write? && events[i].outcome != Rejected && states[i].main.want.rv == states[i].reg.rv
  {
    RunKeepsSharedInv(states, events, i);
    assert Enabled(states[i], events[i]) && states[i + 1] == Step(states[i], events[i]);
    if IsStatusEvent(events[i]) {
      StatusStepsStutter(states, events, i);
    }
  }

  /** Only a landing write of the status controller changes any other condition. */
  lemma ComponentConditionsHaveOneWriter(states: seq<World>, events: seq<Event>, i: nat)
    requires IsRun(states, events) && Fresh(states[0]) && i < |events|
    requires !SameElsewhere(states[i + 1].reg.conditions, states[i].reg.conditions)
    ensures events[i].StatusWrite? && events[i].outcome != Rejected
  {
    RunKeepsSharedInv(states, events, i);
    assert Enabled(states[i], events[i]) && states[i + 1] == Step(states[i], events[i]);
  }

  lemma StatusWriteKeepsDistinct(w: World, e: Event)
    requires SharedInv(w) && Enabled(w, e) && e.StatusWrite? && Distinct(w.reg.conditions)
    ensures Distinct(Step(w, e).reg.conditions)
  {
    if e.outcome != Rejected {
      StatusController.OverwrittenDistinct(w.status.reg.conditions, e.conds, e.now, e.later);
    }
  }

  lemma StepKeepsDistinct(w: World, e: Event)
    requires SharedInv(w) && Enabled(w, e) && Distinct(w.reg.conditions)
    ensures Distinct(Step(w, e).reg.conditions)
  {
    if e.StatusWrite? {
      StatusWriteKeepsDistinct(w, e);
    }
  }

  /** Condition lists never gain a second condition of a type they have. */
  lemma {:induction false} ConditionsStayDistinct(states: seq<World>, events: seq<Event>, i: nat)
    requires IsRun(states, events) && Fresh(states[0]) && i < |states|
    requires Distinct(states[0].reg.conditions)
    ensures Distinct(states[i].reg.conditions)
  {
    if i > 0 {
      ConditionsStayDistinct(states, events, i - 1);
      RunKeepsSharedInv(states, events, i - 1);
      StepKeepsDistinct(states[i - 1], events[i - 1]);
    }
  }

  // ---- Transition times over runs ----

  predicate LandedReport(e: Event) {
    e.StatusWrite? && e.outcome != Rejected
  }

  /** What the status writes that landed said about a component, oldest first. */
  function SaidBy(events: seq<Event>, t: ConditionType): seq<Condition> {
    if events == [] then []
    else
      var before, e := SaidBy(events[..|events| - 1], t), events[|events| - 1];
      if LandedReport(e) then StatusController.SaidNext(before, StatusController.Evaluated(e.conds, e.now, e.later), t)
      else before
  }

  lemma ReportTracks(w: World, e: Event, said: seq<Condition>, kind: ComponentKind)
    requires SharedInv(w) && Enabled(w, e) && LandedReport(e)
    requires StatusController.Tracks(w.reg.conditions, said, ComponentReady(kind))
    ensures StatusController.Tracks(
              Step(w, e).reg.conditions,
              StatusController.SaidNext(said, StatusController.Evaluated(e.conds, e.now, e.later), ComponentReady(kind)),
              ComponentReady(kind))
  {
    StatusController.EvaluationTracks(w.reg.conditions, said, e.conds, e.now, e.later, kind);
  }

  lemma RunStepTracks(states: seq<World>, events: seq<Event>, i: nat, said: seq<Condition>, kind: ComponentKind)
    requires IsRun(states, events) && Fresh(states[0]) && i < |events|
    requires StatusController.Tracks(states[i].reg.conditions, said, ComponentReady(kind))
    ensures var e := events[i];
            StatusController.Tracks(
              states[i + 1].reg.conditions,
              if LandedReport(e)
              then StatusController.SaidNext(said, StatusController.Evaluated(e.conds, e.now, e.later), ComponentReady(kind))
              else said,
              ComponentReady(kind))
  {
    RunKeepsSharedInv(states, events, i);
    var w, e := states[i], events[i];
    assert Enabled(w, e) && states[i + 1] == Step(w, e);
    if LandedReport(e) {
      ReportTracks(w, e, said, kind);
    } else if !SameElsewhere(states[i + 1].reg.conditions, w.reg.conditions) {
      ComponentConditionsHaveOneWriter(states, events, i);
    } else {
      assert ComponentReady(kind) !in OperatorTypes;
    }
  }

  /**
   In every run, a component's transition time is the update time of the first report of its
   current unbroken run of equal statuses, counting the reports that landed.
   */
  lemma {:induction false} TransitionTimesInRuns(states: seq<World>, events: seq<Event>, i: nat, kind: ComponentKind)
    requires IsRun(states, events) && Fresh(states[0]) && i < |states|
    requires Find(states[0].reg.conditions, ComponentReady(kind)) == None
    ensures StatusController.Tracks(states[i].reg.conditions, SaidBy(events[..i], ComponentReady(kind)), ComponentReady(kind))
  {
    if i > 0 {
      var said := SaidBy(events[..i - 1], ComponentReady(kind));
      TransitionTimesInRuns(states, events, i - 1, kind);
      RunStepTracks(states, events, i - 1, said, kind);
      assert events[..i][..i - 1] == events[..i - 1];
    }
  }
}
