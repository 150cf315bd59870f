/**
 Uninterrupted stretches of the main controller: what a reconcile comes to when its reads
 succeed and its writes are acknowledged.
 */
module Passes {
  import opened Wrappers
  import opened Conditions
  import opened CreationOrder
  import opened Protocol
  import opened MigrationSafety
  import opened Phases

  /** The events happen one after the other, from one world to the other. */
  ghost predicate Leads(from: World, events: seq<Event>, to: World)
    decreases events
  {
    if events == [] then from == to
    else Enabled(from, events[0]) && Leads(Step(from, events[0]), events[1..], to)
  }

  /** A move of the controller that meets no failure, or of a cluster that does its work. */
  predicate Smooth(e: Event) {
    match e
    case JobPods(_, _) => true
    case JobSucceeds(_) => true
    case JobGone(_) => true
    case Begin => true
    case Inflate(_, _) => true
    case ApplyObject(ok) => ok
    case ReadJob(readable, _) => readable
    case RemoveJob(outcome) => outcome == Acked
    case AddJob(outcome) => outcome == Acked
    case CleanupDone => true
    case Proceed(_) => true
    case Write(outcome) => outcome == Acked
    case _ => false
  }

  ghost predicate AllSmooth(events: seq<Event>) {
    forall e | e in events :: Smooth(e)
  }

  lemma SmoothAppend(a: seq<Event>, b: seq<Event>)
    requires AllSmooth(a) && AllSmooth(b)
    ensures AllSmooth(a + b)
  {
  }

  lemma ReportingIsSmooth()
    ensures AllSmooth(Reporting) && AllSmooth([Proceed(0), Write(Acked)])
  {
  }

  lemma LeadsOne(from: World, e: Event, to: World)
    requires Enabled(from, e) && Step(from, e) == to
    ensures Leads(from, [e], to)
  {
    assert [e][1..] == [];
  }

  lemma {:induction false} LeadsAppend(from: World, a: seq<Event>, mid: World, b: seq<Event>, to: World)
    requires Leads(from, a, mid) && Leads(mid, b, to)
    ensures Leads(from, a + b, to)
    decreases a
  {
    if a == [] {
      assert a + b == b;
    } else {
      LeadsAppend(Step(from, a[0]), a[1..], mid, b, to);
      assert (a + b)[1..] == a[1..] + b;
    }
  }

  lemma {:induction false} LeadsIsRun(from: World, events: seq<Event>, to: World) returns (states: seq<World>)
    requires Leads(from, events, to)
    ensures IsRun(states, events) && states[0] == from && states[|events|] == to
    decreases events
  {
    if events == [] {
      states := [from];
    } else {
      var rest := LeadsIsRun(Step(from, events[0]), events[1..], to);
      states := [from] + rest;
      forall i | 0 <= i < |events| ensures Enabled(states[i], events[i]) && states[i + 1] == Step(states[i], events[i]) {
        if i > 0 { assert events[i] == events[1..][i - 1] && states[i] == rest[i - 1]; }
      }
    }
  }

  // ---- The upgrade job inside the apply loop ----

  lemma ReadLeads(w: World, readable: bool, now: Time)
    requires w.main.Apply? && w.main.todo != [] && IsJob(w.main.todo[0])
    ensures Leads(w, [ReadJob(readable, now)],
                  w.(main := AfterRead(w.main, Answer(w.jobs, w.main.todo[0].payload, readable), w.op, now)))
  {
    LeadsOne(w, ReadJob(readable, now),
             w.(main := AfterRead(w.main, Answer(w.jobs, w.main.todo[0].payload, readable), w.op, now)));
  }

  lemma RecreateLeads(w: World)
    requires w.main.DeleteJob? && w.main.todo != []
    ensures Leads(w, [RemoveJob(Acked), AddJob(Acked)], AddStep(RemoveStep(w, Acked), Acked))
  {
    LeadsOne(w, RemoveJob(Acked), RemoveStep(w, Acked));
    LeadsOne(RemoveStep(w, Acked), AddJob(Acked), AddStep(RemoveStep(w, Acked), Acked));
    LeadsAppend(w, [RemoveJob(Acked)], RemoveStep(w, Acked), [AddJob(Acked)], AddStep(RemoveStep(w, Acked), Acked));
    assert [RemoveJob(Acked)] + [AddJob(Acked)] == [RemoveJob(Acked), AddJob(Acked)];
  }

  // ---- From the end of the loop to the last write ----

  const Reporting: seq<Event> := [CleanupDone, Proceed(0), Write(Acked)]

  lemma LeadsThree(from: World, a: Event, w1: World, b: Event, w2: World, c: Event, to: World)
    requires Leads(from, [a], w1) && Leads(w1, [b], w2) && Leads(w2, [c], to)
    ensures Leads(from, [a, b, c], to)
  {
    LeadsAppend(w1, [b], w2, [c], to);
    LeadsAppend(from, [a], w1, [b] + [c], to);
    assert [a] + ([b] + [c]) == [a, b, c];
  }

  lemma SettleLeads(w: World, quay: Registry, plan: Plan)
    requires w.main == Settle(quay, plan)
    ensures Leads(w, [Proceed(0)], w.(main := ReportRollout(plan, RolledOut(quay, 0))))
  {
    LeadsOne(w, Proceed(0), w.(main := ReportRollout(plan, RolledOut(quay, 0))));
  }

  lemma RolloutWriteLeads(w: World, plan: Plan, want: Registry)
    requires w.main == ReportRollout(plan, want) && want.rv == w.reg.rv
    ensures Leads(w, [Write(Acked)], w.(reg := Bumped(want), main := Decide(plan, Bumped(want))))
  {
    LeadsOne(w, Write(Acked), w.(reg := Bumped(want), main := Decide(plan, Bumped(want))));
  }

  lemma ReportLeads(w: World, plan: Plan)
    requires w.main == Apply(w.reg, plan, [])
    ensures Leads(w, Reporting, w.(reg := Bumped(RolledOut(w.reg, 0)), main := Decide(plan, Bumped(RolledOut(w.reg, 0)))))
  {
    var want := RolledOut(w.reg, 0);
    var w1, w2 := w.(main := Settle(w.reg, plan)), w.(main := ReportRollout(plan, want));
    LeadsOne(w, CleanupDone, w1);
    SettleLeads(w1, w.reg, plan);
    RolloutWriteLeads(w2, plan, want);
    LeadsThree(w, CleanupDone, w1, Proceed(0), w2, Write(Acked), w.(reg := Bumped(want), main := Decide(plan, Bumped(want))));
  }

  /** The registry once migrations are reported as running. */
  function InProgress(reg: Registry, plan: Plan): Registry {
    WithCreated(reg.(endpoint := plan.endpoint), False, MigrationsInProgress, RunningMigrations, 0)
  }

  lemma LastWriteLeads(w: World, want: Registry)
    requires w.main == LastWrite(want) && want.rv == w.reg.rv
    ensures Leads(w, [Write(Acked)], w.(reg := Bumped(want), main := Idle))
  {
    LeadsOne(w, Write(Acked), w.(reg := Bumped(want), main := Idle));
  }

  predicate UpgradesVersionOnly(w: World, plan: Plan) {
    !Defers(plan) && !plan.postgresUpgrade && !plan.clairPostgresUpgrade && w.reg.currentVersion != w.op
  }

  /** The endpoint, if it has to be written first. */
  lemma EndpointLeads(w: World, plan: Plan)
    requires w.main == Decide(plan, w.reg) && UpgradesVersionOnly(w, plan) && plan.endpoint != w.reg.endpoint
    ensures var placed := Bumped(w.reg.(endpoint := plan.endpoint));
            Leads(w, [Proceed(0), Write(Acked)], w.(reg := placed, main := Gate(plan, placed)))
  {
    var want := w.reg.(endpoint := plan.endpoint);
    var w1, to := w.(main := ReportEndpoint(plan, want)), w.(reg := Bumped(want), main := Gate(plan, Bumped(want)));
    LeadsOne(w, Proceed(0), w1);
    LeadsOne(w1, Write(Acked), to);
    LeadsAppend(w, [Proceed(0)], w1, [Write(Acked)], to);
    assert [Proceed(0)] + [Write(Acked)] == [Proceed(0), Write(Acked)];
  }

  /** The report, once the endpoint is up to date. */
  lemma VersionGateLeads(w: World, plan: Plan)
    requires w.main == Gate(plan, w.reg) || w.main == Decide(plan, w.reg)
    requires UpgradesVersionOnly(w, plan) && plan.endpoint == w.reg.endpoint
    ensures Leads(w, [Proceed(0), Write(Acked)], w.(reg := Bumped(InProgress(w.reg, plan)), main := Idle))
  {
    var want := InProgress(w.reg, plan);
    assert w.reg.(endpoint := plan.endpoint) == w.reg;
    var w1 := w.(main := LastWrite(want));
    LeadsOne(w, Proceed(0), w1);
    LastWriteLeads(w1, want);
    LeadsAppend(w, [Proceed(0)], w1, [Write(Acked)], w.(reg := Bumped(want), main := Idle));
    assert [Proceed(0)] + [Write(Acked)] == [Proceed(0), Write(Acked)];
  }

  lemma GateLeads(w: World, plan: Plan) returns (events: seq<Event>, to: World)
    requires w.main == Decide(plan, w.reg) && UpgradesVersionOnly(w, plan)
    ensures Leads(w, events, to) && to.main == Idle
    ensures AllSmooth(events)
    ensures to.(reg := w.reg, main := w.main) == w
    ensures to.reg.(rv := 0) == InProgress(w.reg, plan).(rv := 0)
  {
    ReportingIsSmooth();
    SmoothAppend([Proceed(0), Write(Acked)], [Proceed(0), Write(Acked)]);
    if plan.endpoint == w.reg.endpoint {
      VersionGateLeads(w, plan);
      events := [Proceed(0), Write(Acked)];
      to := w.(reg := Bumped(InProgress(w.reg, plan)), main := Idle);
    } else {
      var placed := Bumped(w.reg.(endpoint := plan.endpoint));
      var mid := w.(reg := placed, main := Gate(plan, placed));
      EndpointLeads(w, plan);
      VersionGateLeads(mid, plan);
      events := [Proceed(0), Write(Acked)] + [Proceed(0), Write(Acked)];
      to := w.(reg := Bumped(InProgress(placed, plan)), main := Idle);
      LeadsAppend(w, [Proceed(0), Write(Acked)], mid, [Proceed(0), Write(Acked)], to);
    }
  }

  /** A pass that has handled the upgrade job ends with migrations reported as running. */
  lemma FinishLeads(w: World, plan: Plan) returns (events: seq<Event>, to: World)
    requires w.main == Apply(w.reg, plan, []) && UpgradesVersionOnly(w, plan)
    ensures Leads(w, events, to) && to.main == Idle
    ensures AllSmooth(events)
    ensures to.(reg := w.reg, main := w.main) == w
    ensures to.reg.currentVersion == w.reg.currentVersion && MigrationsRunning(to.reg)
  {
    var reg := Bumped(RolledOut(w.reg, 0));
    var mid := w.(reg := reg, main := Decide(plan, reg));
    ReportLeads(w, plan);
    var more;
    more, to := GateLeads(mid, plan);
    events := Reporting + more;
    ReportingIsSmooth();
    SmoothAppend(Reporting, more);
    LeadsAppend(w, Reporting, mid, more, to);
    WithCreatedSets(reg.(endpoint := plan.endpoint), False, MigrationsInProgress, RunningMigrations, 0);
    assert CreatedReason(to.reg) == CreatedReason(InProgress(reg, plan));
  }

  // ---- Watching a migration ----

  /** A reconcile that finds migrations reported as running looks at the job and reports. */
  lemma CheckLeads(w: World) returns (events: seq<Event>, to: World)
    requires w.main == Idle && MigrationsRunning(w.reg)
    requires MigrationVerdict(w.reg, Lookup(w.jobs, AppUpgrade), w.op, 0).LastWrite?
    ensures Leads(w, events, to)
    ensures to == w.(reg := Bumped(MigrationVerdict(w.reg, Lookup(w.jobs, AppUpgrade), w.op, 0).want))
    ensures AllSmooth(events)
  {
    var verdict := MigrationVerdict(w.reg, Lookup(w.jobs, AppUpgrade), w.op, 0);
    var w1 := w.(main := ReadMigrationJob(w.reg));
    var w2 := w.(main := verdict);
    to := w.(reg := Bumped(verdict.want));
    LeadsOne(w, Begin, w1);
    LeadsOne(w1, ReadJob(true, 0), w2);
    LastWriteLeads(w2, verdict.want);
    events := [Begin, ReadJob(true, 0), Write(Acked)];
    LeadsThree(w, Begin, w1, ReadJob(true, 0), w2, Write(Acked), to);
  }
}
