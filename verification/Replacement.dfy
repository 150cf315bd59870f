/**
 Replacing the operator by another version while a job of the old one is unfinished or watched.
 The protocol allows only safe replacements; here is what makes them safe, and what the others
 lead to: a job the old operator rendered is credited to the new version.
 */
module Replacement {
  import opened Wrappers
  import opened Conditions
  import opened Protocol
  import opened MigrationSafety
  import opened Phases
  import opened Passes
  import opened TerminatingJob

  /** The world after a replacement at any moment, safe or not. */
  function Replaced(w: World, version: Version): World {
    w.(op := version, main := Idle, status := Resting)
  }

  /** Safe replacements are exactly those that keep the invariant. */
  lemma SafeIffInvariantKept(w: World, version: Version)
    requires Inv(w)
    ensures Inv(Replaced(w, version)) <==> SafeToReplace(w, version)
  {
  }

  /** An operator at rest can be replaced by any version. */
  lemma AtRestIsSafe(w: World, version: Version)
    requires !MigrationsRunning(w.reg) && (AppUpgrade in w.jobs ==> Finished(w.jobs[AppUpgrade]))
    ensures SafeToReplace(w, version)
  {
  }

  /** The operator watches, as its own migration, a job another version has rendered. */
  predicate WatchesForeignJob(w: World) {
    MigrationsRunning(w.reg) && AppUpgrade in w.jobs && w.jobs[AppUpgrade].renderedBy != w.op
  }

  // ---- Where an unsafe replacement leads ----

  lemma JobGoneLeads(w: World, name: JobName) returns (events: seq<Event>, to: World)
    ensures Leads(w, events, to) && to == w.(jobs := w.jobs - {name})
  {
    if name in w.jobs {
      events, to := [JobGone(name)], w.(jobs := w.jobs - {name});
      LeadsOne(w, JobGone(name), to);
    } else {
      events, to := [], w;
      assert w.jobs - {name} == w.jobs;
    }
  }

  lemma DatabaseJobsAreGone(w: World)
    requires w.main == Idle && PostgresUpgradeRunning(w.reg)
    requires PostgresUpgrade !in w.jobs && ClairPostgresUpgrade !in w.jobs
    ensures Leads(w, [Begin, ReadJob(true, 0), ReadJob(true, 0)],
                  w.(main := LastWrite(WithCreated(w.reg, True, ComponentsCreationSuccess, ComponentsCreatedMessage, 0))))
  {
    var want := WithCreated(w.reg, True, ComponentsCreationSuccess, ComponentsCreatedMessage, 0);
    var w1, w2 := w.(main := ReadDatabaseJob(w.reg, 0)), w.(main := ReadDatabaseJob(w.reg, 1));
    LeadsOne(w, Begin, w1);
    LeadsOne(w1, ReadJob(true, 0), w2);
    LeadsOne(w2, ReadJob(true, 0), w.(main := LastWrite(want)));
    LeadsThree(w, Begin, w1, ReadJob(true, 0), w2, ReadJob(true, 0), w.(main := LastWrite(want)));
  }

  /** With no database job around, a reconcile ends a database upgrade. */
  lemma CloseDatabaseUpgrade(w: World) returns (events: seq<Event>, to: World)
    requires w.main == Idle && PostgresUpgradeRunning(w.reg)
    requires PostgresUpgrade !in w.jobs && ClairPostgresUpgrade !in w.jobs
    ensures Leads(w, events, to) && to == w.(reg := to.reg)
    ensures Calm(to.reg) && to.reg.currentVersion == w.reg.currentVersion
  {
    var want := WithCreated(w.reg, True, ComponentsCreationSuccess, ComponentsCreatedMessage, 0);
    var w3 := w.(main := LastWrite(want));
    WithCreatedSets(w.reg, True, ComponentsCreationSuccess, ComponentsCreatedMessage, 0);
    assert CreatedReason(Bumped(want)) == CreatedReason(want);
    to := w.(reg := Bumped(want));
    DatabaseJobsAreGone(w);
    LastWriteLeads(w3, want);
    events := [Begin, ReadJob(true, 0), ReadJob(true, 0)] + [Write(Acked)];
    LeadsAppend(w, [Begin, ReadJob(true, 0), ReadJob(true, 0)], w3, [Write(Acked)], to);
  }

  /** An idle operator that watches no migration can come to be calm, with the upgrade job as it was. */
  lemma CalmDown(w: World) returns (events: seq<Event>, to: World)
    requires w.main == Idle && !MigrationsRunning(w.reg) && AppUpgrade in w.jobs
    ensures Leads(w, events, to) && to.main == Idle && Calm(to.reg)
    ensures to.op == w.op && to.done == w.done && to.reg.currentVersion == w.reg.currentVersion
    ensures AppUpgrade in to.jobs && to.jobs[AppUpgrade] == w.jobs[AppUpgrade]
  {
    if PostgresUpgradeRunning(w.reg) {
      var first, w1 := JobGoneLeads(w, PostgresUpgrade);
      var second, w2 := JobGoneLeads(w1, ClairPostgresUpgrade);
      var third;
      third, to := CloseDatabaseUpgrade(w2);
      LeadsAppend(w, first, w1, second, w2);
      LeadsAppend(w, first + second, w2, third, to);
      events := first + second + third;
    } else {
      events, to := [], w;
    }
  }

  /** The new operator finds an unfinished job of the old one with a pod, and takes it for its own. */
  lemma AdoptsForeignJob(w: World, version: Version) returns (events: seq<Event>, to: World)
    requires w.reg.currentVersion != version && !MigrationsRunning(w.reg)
    requires AppUpgrade in w.jobs && !Finished(w.jobs[AppUpgrade])
    ensures Leads(Replaced(w, version), events, to) && MigrationsRunning(to.reg) && to.main == Idle
    ensures to.op == version && to.done == w.done
    ensures AppUpgrade in to.jobs && to.jobs[AppUpgrade] == w.jobs[AppUpgrade].(active := 1)
  {
    var r := Replaced(w, version);
    var calm, w1 := CalmDown(r);
    var w2 := w1.(jobs := w1.jobs[AppUpgrade := w1.jobs[AppUpgrade].(active := 1)]);
    LeadsOne(w1, JobPods(AppUpgrade, 1), w2);
    assert w2.jobs[AppUpgrade] == w.jobs[AppUpgrade].(active := 1);
    var trust;
    trust, to := TrustingPass(w2);
    LeadsAppend(r, calm, w1, [JobPods(AppUpgrade, 1)], w2);
    LeadsAppend(r, calm + [JobPods(AppUpgrade, 1)], w2, trust, to);
    events := calm + [JobPods(AppUpgrade, 1)] + trust;
  }

  /** Once watched, the foreign job has only to succeed. */
  lemma ForeignJobIsCredited(w: World) returns (events: seq<Event>, to: World)
    requires w.main == Idle && WatchesForeignJob(w) && !Finished(w.jobs[AppUpgrade])
    ensures Leads(w, events, to) && to.op == w.op && to.reg.currentVersion == w.op
    ensures to.done == w.done + {(AppUpgrade, w.jobs[AppUpgrade].renderedBy)}
  {
    var succeeded := JobStep(w, JobSucceeds(AppUpgrade));
    LeadsOne(w, JobSucceeds(AppUpgrade), succeeded);
    var check;
    check, to := CheckLeads(succeeded);
    events := [JobSucceeds(AppUpgrade)] + check;
    LeadsAppend(w, [JobSucceeds(AppUpgrade)], succeeded, check, to);
  }

  /** After an upgrade begun too early, the recorded version is one no job of which ever succeeded. */
  lemma OldJobCreditedToNewVersion(w: World, version: Version) returns (states: seq<World>, events: seq<Event>)
    requires Inv(w) && w.reg.currentVersion != version && !MigrationsRunning(w.reg)
    requires AppUpgrade in w.jobs && !Finished(w.jobs[AppUpgrade]) && w.jobs[AppUpgrade].renderedBy != version
    requires (AppUpgrade, version) !in w.done
    ensures IsRun(states, events) && states[0] == Replaced(w, version)
    ensures states[|events|].reg.currentVersion == version == states[|events|].op
    ensures (AppUpgrade, version) !in states[|events|].done
  {
    var adopt, mid := AdoptsForeignJob(w, version);
    var credit, end := ForeignJobIsCredited(mid);
    LeadsAppend(Replaced(w, version), adopt, mid, credit, end);
    events := adopt + credit;
    states := LeadsIsRun(Replaced(w, version), events, end);
  }

  /** From a fresh start: version 2 begins an upgrade and is replaced by version 3 half-way. */
  lemma HastyReplacementRun() returns (before: seq<World>, early: seq<Event>, after: seq<World>, late: seq<Event>)
    ensures IsRun(before, early) && Fresh(before[0])
    ensures IsRun(after, late) && after[0] == Replaced(before[|early|], "3")
    ensures after[|late|].reg.currentVersion == "3" && (AppUpgrade, "3") !in after[|late|].done
  {
    var w := Upgrading(map[]);
    var create, to := RecreatePass(w, true);
    early := create;
    before := LeadsIsRun(w, create, to);
    FreshIsInv(w);
    RunKeepsInv(before, early, |early|);
    assert to == w.(jobs := to.jobs, main := to.main);
    assert to.jobs == map[][AppUpgrade := JobState("2", 0, 0, None, false)];
    after, late := OldJobCreditedToNewVersion(to, "3");
  }

  // ---- The exact condition ----

  ghost predicate NeverWatchesForeignJob(states: seq<World>) {
    forall i | 0 <= i < |states| :: !WatchesForeignJob(states[i])
  }

  /**
   A replacement, the one that rolls back to the recorded version included, is safe exactly if no
   run after it has the new operator watch a foreign job as its own migration.
   */
  lemma ReplacementIsSafeIff(w: World, version: Version)
    requires Inv(w)
    ensures SafeToReplace(w, version) <==>
            forall states, events | IsRun(states, events) && states[0] == Replaced(w, version) :: NeverWatchesForeignJob(states)
  {
    if SafeToReplace(w, version) {
      forall states, events | IsRun(states, events) && states[0] == Replaced(w, version)
        ensures NeverWatchesForeignJob(states)
      {
        SafeIffInvariantKept(w, version);
        forall i | 0 <= i < |states| ensures !WatchesForeignJob(states[i]) {
          RunKeepsInv(states, events, i);
        }
      }
    } else {
      var states, events := UnsafeReplacementRun(w, version);
      assert IsRun(states, events) && states[0] == Replaced(w, version);
      assert WatchesForeignJob(states[|events|]);
    }
  }

  lemma UnsafeReplacementRun(w: World, version: Version) returns (states: seq<World>, events: seq<Event>)
    requires Inv(w) && !SafeToReplace(w, version)
    ensures IsRun(states, events) && states[0] == Replaced(w, version)
    ensures WatchesForeignJob(states[|events|])
  {
    if MigrationsRunning(w.reg) {
      states, events := [Replaced(w, version)], [];
    } else {
      var to;
      events, to := AdoptsForeignJob(w, version);
      states := LeadsIsRun(Replaced(w, version), events, to);
    }
  }
}
