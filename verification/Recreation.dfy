/**
 When the operator runs its own migrations again. The apply loop means to leave a job alone that
 has succeeded, unless it is from the previous version, but it goes by the recorded version and
 never by the job's. So a success that was not reported in time is thrown away.
 */
module Recreation {
  import opened Wrappers
  import opened Conditions
  import opened Protocol
  import opened MigrationSafety
  import opened Phases
  import opened Passes
  import opened TerminatingJob
  import opened Progress

  // ---- Exactly when ----

  /** The apply loop looks at an upgrade job that has succeeded. */
  predicate FindsSucceeded(w: World, e: Event) {
    && e.ReadJob? && w.main.Apply? && w.main.todo != [] && IsAppJob(w.main.todo[0])
    && AppUpgrade in w.jobs && w.jobs[AppUpgrade].succeeded >= 1
  }

  lemma CopyStep(w: World, e: Event)
    requires Enabled(w, e)
    ensures HoldsQuay(Step(w, e).main) ==>
              if e == Begin then Step(w, e).main.quay == w.reg
              else HoldsQuay(w.main) && Step(w, e).main.quay == w.main.quay
  {
  }

  /** What a reconcile works on, it has read at its beginning. */
  lemma {:induction false} CopyFromTheBeginning(states: seq<World>, events: seq<Event>, b: nat, i: nat)
    requires IsRun(states, events) && BeganAt(events, b, i)
    ensures HoldsQuay(states[i].main) ==> states[i].main.quay == states[b].reg
  {
    var last := i - 1;
    assert Enabled(states[last], events[last]) && states[i] == Step(states[last], events[last]);
    CopyStep(states[last], events[last]);
    if b < last {
      CopyFromTheBeginning(states, events, b, last);
    }
  }

  /**
   A succeeded job is deleted, to be created again, exactly if it could not be read or the
   recorded version was another than the operator's when the reconcile began. Whose job it is
   makes no difference.
   */
  lemma SucceededJobIsRecreatedIff(states: seq<World>, events: seq<Event>, b: nat, i: nat)
    requires IsRun(states, events) && Inv(states[0]) && i < |events|
    requires BeganAt(events, b, i) && FindsSucceeded(states[i], events[i])
    ensures states[i + 1].main.DeleteJob? <==>
            !events[i].readable || states[b].reg.currentVersion != states[i].op
  {
    RunKeepsInv(states, events, i);
    CopyFromTheBeginning(states, events, b, i);
    assert Enabled(states[i], events[i]) && states[i + 1] == Step(states[i], events[i]);
  }

  /** From a fresh start, an operator that crashes once deletes its own succeeded job. */
  lemma OwnSucceededJobIsRecreated() returns (states: seq<World>, events: seq<Event>)
    ensures IsRun(states, events) && Fresh(states[0])
    ensures forall e | e in events :: Smooth(e) || e == Crash
    ensures var end := states[|events|];
            && AppUpgrade in end.jobs && end.jobs[AppUpgrade].succeeded == 1
            && end.jobs[AppUpgrade].renderedBy == end.op && end.jobs[AppUpgrade].terminating
  {
    var w := Upgrading(map[]);
    var create, w1 := RecreatePass(w, true);
    var w2 := w1.(main := Idle);
    var w3 := JobStep(w2, JobSucceeds(AppUpgrade));
    LeadsOne(w1, Crash, w2);
    LeadsOne(w2, JobSucceeds(AppUpgrade), w3);
    var again, end := RecreatePass(w3, true);
    LeadsAppend(w, create, w1, [Crash], w2);
    LeadsAppend(w, create + [Crash], w2, [JobSucceeds(AppUpgrade)], w3);
    LeadsAppend(w, create + [Crash] + [JobSucceeds(AppUpgrade)], w3, again, end);
    events := create + [Crash] + [JobSucceeds(AppUpgrade)] + again;
    states := LeadsIsRun(w, events, end);
  }

  // ---- An upgrade that never ends ----

  /** An upgrade that is to begin. */
  predicate ToUpgrade(w: World) {
    w.main == Idle && Calm(w.reg) && AppUpgrade !in w.jobs && w.reg.currentVersion != w.op
  }

  /** The job is created and reported, and looked at before it has a pod: it counts as failed. */
  lemma EarlyLook(w: World) returns (events: seq<Event>, to: World)
    requires ToUpgrade(w)
    ensures Leads(w, events, to) && forall e | e in events :: Smooth(e)
    ensures to == w.(reg := to.reg, jobs := w.jobs[AppUpgrade := JobState(w.op, 0, 0, None, false)])
    ensures CreatedReason(to.reg) == Some(MigrationsFailed) && to.reg.currentVersion == w.reg.currentVersion
  {
    var create, w1 := RecreatePass(w, true);
    var report, w2 := FinishLeads(w1, UpgradePlan);
    var look;
    look, to := CheckLeads(w2);
    WithCreatedSets(w2.reg, False, MigrationsFailed, FailedMigrations, 0);
    assert CreatedReason(to.reg) == CreatedReason(WithCreated(w2.reg, False, MigrationsFailed, FailedMigrations, 0));
    LeadsAppend(w, create, w1, report, w2);
    LeadsAppend(w, create + report, w2, look, to);
    events := create + report + look;
  }

  /** The job then succeeds all the same, and the next pass deletes it. */
  lemma SuccessIsThrownAway(w: World) returns (events: seq<Event>, to: World)
    requires ToUpgrade(w)
    ensures Leads(w, events, to) && forall e | e in events :: Smooth(e)
    ensures JobSucceeds(AppUpgrade) in events
    ensures ToUpgrade(to) && to.op == w.op && to.reg.currentVersion == w.reg.currentVersion
    ensures (AppUpgrade, w.op) in to.done
  {
    var early, w1 := EarlyLook(w);
    var w2 := JobStep(w1, JobSucceeds(AppUpgrade));
    LeadsOne(w1, JobSucceeds(AppUpgrade), w2);
    var delete, w3 := RecreatePass(w2, true);
    to := JobStep(w3, JobGone(AppUpgrade));
    LeadsOne(w3, JobGone(AppUpgrade), to);
    LeadsAppend(w, early, w1, [JobSucceeds(AppUpgrade)], w2);
    LeadsAppend(w, early + [JobSucceeds(AppUpgrade)], w2, delete, w3);
    events := early + [JobSucceeds(AppUpgrade)] + delete + [JobGone(AppUpgrade)];
    LeadsAppend(w, early + [JobSucceeds(AppUpgrade)] + delete, w3, [JobGone(AppUpgrade)], to);
  }

  function Successes(events: seq<Event>): nat {
    if events == [] then 0 else (if events[0] == JobSucceeds(AppUpgrade) then 1 else 0) + Successes(events[1..])
  }

  lemma {:induction false} SuccessesAppend(a: seq<Event>, b: seq<Event>)
    ensures Successes(a + b) == Successes(a) + Successes(b)
    ensures JobSucceeds(AppUpgrade) in a ==> Successes(a) >= 1
  {
    if a == [] {
      assert a + b == b;
    } else {
      assert (a + b)[1..] == a[1..] + b;
      SuccessesAppend(a[1..], b);
    }
  }

  lemma {:induction false} ThrownAwayManyTimes(w: World, n: nat) returns (events: seq<Event>, to: World)
    requires ToUpgrade(w)
    ensures Leads(w, events, to) && (forall e | e in events :: Smooth(e)) && Successes(events) >= n
    ensures ToUpgrade(to) && to.op == w.op && to.reg.currentVersion == w.reg.currentVersion
    decreases n
  {
    if n == 0 {
      events, to := [], w;
    } else {
      var once, mid := SuccessIsThrownAway(w);
      var more;
      more, to := ThrownAwayManyTimes(mid, n - 1);
      LeadsAppend(w, once, mid, more, to);
      SuccessesAppend(once, more);
      events := once + more;
    }
  }

  /**
   For every `n` there is a run from a fresh start in which nothing fails, not one call and not one
   job, the upgrade job succeeds `n` times, and the recorded version is never the operator's. So
   convergence needs that looks at a job find it running or over.
   */
  lemma UpgradeMayNeverEnd(n: nat) returns (states: seq<World>, events: seq<Event>)
    ensures IsRun(states, events) && Fresh(states[0]) && Successes(events) >= n
    ensures forall e | e in events :: Smooth(e)
    ensures forall i | 0 <= i < |states| :: states[i].op == states[0].op && !Reached(states[i])
  {
    var w := Upgrading(map[]);
    var to;
    events, to := ThrownAwayManyTimes(w, n);
    states := LeadsIsRun(w, events, to);
    FreshIsInv(w);
    forall k | 0 <= k < |events| ensures !events[k].ReplaceOperator? {
      assert events[k] in events;
    }
    forall i | 0 <= i < |states| ensures states[i].op == states[0].op && !Reached(states[i]) {
      VersionStays(states, events, 0, i);
      VersionStays(states, events, i, |events|);
    }
  }
}
