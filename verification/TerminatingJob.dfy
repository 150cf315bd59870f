/**
 The second danger of `Phases.Endangers` is real: a run in which no one but the operator
 touches the job, and one read fails, ends with migrations reported in progress on a job that
 is being deleted.
 */
module TerminatingJob {
  import opened Wrappers
  import opened Conditions
  import opened CreationOrder
  import opened Protocol
  import opened MigrationSafety
  import opened Phases
  import opened Passes

  const UpgradePlan := Plan(false, false, true, true, false, false, false, "")

  const JobObject: KubeObject := KubeObject.Object(Kind.Job, "quay-app-upgrade", "quay-app-upgrade", AppUpgrade)

  const InflateUpgrade := Inflate(UpgradePlan, [JobObject])

  /** An operator of version 2 over a registry of version 1. */
  function Upgrading(jobs: map<JobName, Job>): World {
    World(Registry(0, [], "1", "", []), jobs, "2", Idle, Resting, {})
  }

  lemma InflateUpgradeSteps(w: World)
    requires w.main.Prepare? && w.main.quay.currentVersion != w.op
    ensures Enabled(w, InflateUpgrade)
    ensures Step(w, InflateUpgrade) == w.(main := Apply(w.main.quay, UpgradePlan, [JobObject]))
  {
    var objs := [JobObject];
    assert JobObject in objs;
    assert Renders(UpgradePlan, w.main.quay, w.op, objs);
    FilteredAll(objs);
  }

  /** From an idle operator into the apply loop. */
  lemma EnterLeads(w: World)
    requires w.main == Idle && Calm(w.reg) && w.reg.currentVersion != w.op
    ensures Leads(w, [Begin, InflateUpgrade], w.(main := Apply(w.reg, UpgradePlan, [JobObject])))
  {
    var w1 := w.(main := Prepare(w.reg));
    var w2 := w.(main := Apply(w.reg, UpgradePlan, [JobObject]));
    InflateUpgradeSteps(w1);
    LeadsOne(w, Begin, w1);
    LeadsOne(w1, InflateUpgrade, w2);
    LeadsAppend(w, [Begin], w1, [InflateUpgrade], w2);
    assert [Begin] + [InflateUpgrade] == [Begin, InflateUpgrade];
  }

  lemma RecreateEvents(readable: bool)
    ensures forall e | e in [Begin, InflateUpgrade] + [ReadJob(readable, 0)] + [RemoveJob(Acked), AddJob(Acked)] ::
              !e.JobMarked? && (readable ==> Smooth(e))
  {
  }

  /** From an idle operator through a deletion of the job and an attempt to create it again. */
  lemma RecreatePass(w: World, readable: bool) returns (events: seq<Event>, to: World)
    requires w.main == Idle && Calm(w.reg) && w.reg.currentVersion != w.op
    requires !(readable && AppUpgrade in w.jobs && KeepsJob(w.jobs[AppUpgrade], w.reg, w.op))
    ensures Leads(w, events, to) && forall e | e in events :: !e.JobMarked? && (readable ==> Smooth(e))
    ensures AppUpgrade !in w.jobs ==>
              to == w.(jobs := w.jobs[AppUpgrade := JobState(w.op, 0, 0, None, false)], main := Apply(w.reg, UpgradePlan, []))
    ensures AppUpgrade in w.jobs ==>
              to == w.(jobs := w.jobs[AppUpgrade := w.jobs[AppUpgrade].(terminating := true)])
  {
    var w1 := w.(main := Apply(w.reg, UpgradePlan, [JobObject]));
    var w2 := w.(main := DeleteJob(w.reg, UpgradePlan, [JobObject]));
    to := AddStep(RemoveStep(w2, Acked), Acked);
    EnterLeads(w);
    ReadLeads(w1, readable, 0);
    RecreateLeads(w2);
    var enter, read, recreate := [Begin, InflateUpgrade], [ReadJob(readable, 0)], [RemoveJob(Acked), AddJob(Acked)];
    LeadsAppend(w, enter, w1, read, w2);
    LeadsAppend(w, enter + read, w2, recreate, to);
    events := enter + read + recreate;
    RecreateEvents(readable);
    assert [JobObject][1..] == [];
  }

  /** A pass that takes the job for a running one reports migrations in progress. */
  lemma TrustingPass(w: World) returns (events: seq<Event>, to: World)
    requires w.main == Idle && Calm(w.reg) && w.reg.currentVersion != w.op
    requires AppUpgrade in w.jobs && w.jobs[AppUpgrade].active >= 1
    ensures Leads(w, events, to) && forall e | e in events :: !e.JobMarked?
    ensures MigrationsRunning(to.reg) && to == w.(reg := to.reg)
  {
    var w1 := w.(main := Apply(w.reg, UpgradePlan, [JobObject]));
    var w2 := w.(main := Apply(w.reg, UpgradePlan, []));
    EnterLeads(w);
    ReadLeads(w1, true, 0);
    assert [JobObject][1..] == [];
    var enter, read := [Begin, InflateUpgrade], [ReadJob(true, 0)];
    LeadsAppend(w, enter, w1, read, w2);
    var finish;
    finish, to := FinishLeads(w2, UpgradePlan);
    LeadsAppend(w, enter + read, w2, finish, to);
    events := enter + read + finish;
  }

  lemma DoomedJobReportedInProgress() returns (states: seq<World>, events: seq<Event>)
    ensures IsRun(states, events) && Fresh(states[0]) && Calm(states[0].reg)
    ensures forall e | e in events :: !e.JobMarked?
    ensures MigrationsRunning(states[|events|].reg)
    ensures AppUpgrade in states[|events|].jobs && states[|events|].jobs[AppUpgrade].terminating
  {
    var w := Upgrading(map[]);
    // the first pass creates the job and stops
    var create, w1 := RecreatePass(w, true);
    // the job gets its pod
    var w2 := w1.(main := Idle);
    var started := w2.(jobs := w2.jobs[AppUpgrade := JobState("2", 1, 0, None, false)]);
    LeadsOne(w1, Crash, w2);
    LeadsOne(w2, JobPods(AppUpgrade, 1), started);
    // the second pass cannot read the job and has it deleted
    var delete, doomed := RecreatePass(started, false);
    // the third pass takes it for a running one
    var trust, end := TrustingPass(doomed);
    LeadsAppend(w, create, w1, [Crash], w2);
    LeadsAppend(w, create + [Crash], w2, [JobPods(AppUpgrade, 1)], started);
    LeadsAppend(w, create + [Crash] + [JobPods(AppUpgrade, 1)], started, delete, doomed);
    LeadsAppend(w, create + [Crash] + [JobPods(AppUpgrade, 1)] + delete, doomed, trust, end);
    events := create + [Crash] + [JobPods(AppUpgrade, 1)] + delete + trust;
    states := LeadsIsRun(w, events, end);
  }
}
