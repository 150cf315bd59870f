/**
 What the operator's process does, as a log: every move it makes, with its control state before
 and after. And what it has to do: which move is prescribed in which state, given what a
 reconcile finds.
 */
module OperatorLog {
  import opened Wrappers
  import opened Conditions
  import opened CreationOrder
  import opened Protocol
  import opened MigrationSafety
  import Components

  // ---- The log of the operator's process ----

  datatype Entry = Entry(main: Main, event: Event, after: Main)

  /** Every event but those of users, jobs and the status controller; crashes are logged too. */
  predicate IsLogged(e: Event) {
    !IsJobEvent(e) && !IsStatusEvent(e) && !e.EditSpec?
  }

  function Log(states: seq<World>, events: seq<Event>): seq<Entry>
    requires |states| == |events| + 1
    decreases events
  {
    if events == [] then []
    else
      var n := |events| - 1;
      Log(states[..n + 1], events[..n])
      + if IsLogged(events[n]) then [Entry(states[n].main, events[n], states[n + 1].main)] else []
  }

  lemma LogSnoc(states: seq<World>, events: seq<Event>, w: World, e: Event)
    requires |states| == |events| + 1
    ensures Log(states + [w], events + [e])
         == Log(states, events) + if IsLogged(e) then [Entry(states[|events|].main, e, w.main)] else []
  {
    assert (states + [w])[..|events| + 1] == states;
    assert (events + [e])[..|events|] == events;
  }

  /** Each entry starts where the one before it ended, from `from` to `to`. */
  ghost predicate Chained(log: seq<Entry>, from: Main, to: Main) {
    if log == [] then from == to
    else
      && log[0].main == from && log[|log| - 1].after == to
      && forall i | 0 < i < |log| :: log[i].main == log[i - 1].after
  }

  lemma ChainedSnoc(log: seq<Entry>, from: Main, entry: Entry)
    requires Chained(log, from, entry.main)
    ensures Chained(log + [entry], from, entry.after)
  {
  }

  lemma UnloggedKeepsMain(w: World, e: Event)
    requires Enabled(w, e) && !IsLogged(e)
    ensures Step(w, e).main == w.main
  {
  }

  /** The control state moves only by logged events, so the log has no gaps. */
  lemma {:induction false} LogIsChained(states: seq<World>, events: seq<Event>, k: nat)
    requires IsRun(states, events) && k <= |events|
    ensures var early, all := Log(states[..k + 1], events[..k]), Log(states, events);
            early <= all && Chained(all[|early|..], states[k].main, states[|events|].main)
    decreases |events|
  {
    if k == |events| {
      WholeRun(states, events);
    } else {
      var n := |events| - 1;
      var ss, es := states[..n + 1], events[..n];
      RunPrefix(states, events, n);
      LogIsChained(ss, es, k);
      PrefixOfPrefix(states, events, n, k);
      LastIsChained(Log(states[..k + 1], events[..k]), Log(ss, es), states[k].main, states[n], events[n]);
    }
  }

  lemma WholeRun(states: seq<World>, events: seq<Event>)
    requires |states| == |events| + 1
    ensures states[..|events| + 1] == states && events[..|events|] == events
  {
  }

  lemma PrefixOfPrefix(states: seq<World>, events: seq<Event>, n: nat, k: nat)
    requires |states| == |events| + 1 && k <= n <= |events|
    ensures states[..n + 1][..k + 1] == states[..k + 1] && events[..n][..k] == events[..k]
    ensures states[..n + 1][k] == states[k]
  {
  }

  lemma RunPrefix(states: seq<World>, events: seq<Event>, n: nat)
    requires IsRun(states, events) && n < |events|
    ensures IsRun(states[..n + 1], events[..n])
    ensures Enabled(states[n], events[n]) && states[n + 1] == Step(states[n], events[n])
  {
  }

  lemma LastIsChained(early: seq<Entry>, before: seq<Entry>, from: Main, w: World, e: Event)
    requires Enabled(w, e) && early <= before && Chained(before[|early|..], from, w.main)
    ensures var all := before + if IsLogged(e) then [Entry(w.main, e, Step(w, e).main)] else [];
            early <= all && Chained(all[|early|..], from, Step(w, e).main)
  {
    if IsLogged(e) {
      var entry := Entry(w.main, e, Step(w, e).main);
      ChainedSnoc(before[|early|..], from, entry);
      assert (before + [entry])[|early|..] == before[|early|..] + [entry];
    } else {
      UnloggedKeepsMain(w, e);
      assert before + [] == before;
    }
  }

  /** Nothing the process does is missing from the log. */
  lemma {:induction false} LoggedEventsAreThere(states: seq<World>, events: seq<Event>, k: nat, j: nat)
    requires |states| == |events| + 1 && k <= j < |events| && IsLogged(events[j])
    ensures var early, all := Log(states[..k + 1], events[..k]), Log(states, events);
            early <= all && exists i | |early| <= i < |all| :: all[i].event == events[j]
    decreases |events|
  {
    var n := |events| - 1;
    var ss, es := states[..n + 1], events[..n];
    var before, all := Log(ss, es), Log(states, events);
    LogGrows(states, events, k);
    if j == n {
      LogGrows(ss, es, k);
      assert ss[..k + 1] == states[..k + 1] && es[..k] == events[..k];
      assert all[|before|].event == events[j];
    } else {
      LoggedEventsAreThere(ss, es, k, j);
      assert ss[..k + 1] == states[..k + 1] && es[..k] == events[..k];
      var early := Log(states[..k + 1], events[..k]);
      var i :| |early| <= i < |before| && before[i].event == es[j];
      assert all[i] == before[i];
    }
  }

  lemma {:induction false} LogGrows(states: seq<World>, events: seq<Event>, k: nat)
    requires |states| == |events| + 1 && k <= |events|
    ensures Log(states[..k + 1], events[..k]) <= Log(states, events)
    decreases |events|
  {
    if k == |events| {
      assert states[..k + 1] == states && events[..k] == events;
    } else {
      var n := |events| - 1;
      var ss, es := states[..n + 1], events[..n];
      LogGrows(ss, es, k);
      assert ss[..k + 1] == states[..k + 1] && es[..k] == events[..k];
    }
  }

  // ---- What a reconcile has to do ----

  /** What a look at something outside the model may bring up. */
  datatype Problem =
    | Invalid(reason: Reason, message: Message)
    | GiveUp
    | BundleMissing

  /**
   A check that precedes rendering: such a look, or the completion of the component list, which
   the user's overrides may stand in the way of.
   */
  datatype Check =
    | Look(problem: Option<Problem>)
    | Completion(ctx: Components.Context, invalid: Option<Message>)

  datatype CheckResult =
    | Passed
    | Stopped(problem: Problem)
    | SpecIncomplete(ctx: Components.Context, completed: seq<Components.Component>)

  /** Overrides are looked at only once the list could be completed. */
  function ResultOf(check: Check, cs: seq<Components.Component>): CheckResult {
    match check
    case Look(problem) => if problem.Some? then Stopped(problem.value) else Passed
    case Completion(ctx, invalid) =>
      if Components.Fails(ctx, cs) then Stopped(GiveUp)
      else if invalid.Some? then Stopped(Invalid(ComponentOverrideInvalid, invalid.value))
      else if Components.Incomplete(ctx, cs) then SpecIncomplete(ctx, Components.Defaulted(ctx, cs))
      else Passed
  }

  /**
   Completing the list comes to one of four ends: something was asked for in vain, an override is
   invalid, the completed list has to be written, or it is taken for the one there is.
   */
  lemma CompletionMeans(ctx: Components.Context, invalid: Option<Message>, cs: seq<Components.Component>)
    ensures var result, completed := ResultOf(Completion(ctx, invalid), cs), Components.Defaulted(ctx, cs);
            && (result == Stopped(GiveUp) <==> Components.Fails(ctx, cs))
            && (forall m :: result == Stopped(Invalid(ComponentOverrideInvalid, m)) <==> !Components.Fails(ctx, cs) && invalid == Some(m))
            && (result == SpecIncomplete(ctx, completed) <==>
                  !Components.Fails(ctx, cs) && invalid == None && !Components.Matches(cs, completed))
            && (result == Passed <==> !Components.Fails(ctx, cs) && invalid == None && Components.Matches(cs, completed))
  {
  }

  /** What a pass finds when it looks: the checks in order, what it renders, and what then fails. */
  datatype Findings = Findings(
    checks: seq<Check>, plan: Plan, objs: seq<KubeObject>,
    namespaceFailure: bool, cleanupFailure: Option<Message>, hasFinalizer: bool
  )

  ghost predicate PassesBefore(checks: seq<Check>, cs: seq<Components.Component>, n: nat) {
    forall k | 0 <= k < n && k < |checks| :: ResultOf(checks[k], cs) == Passed
  }

  /** The first check that this list does not pass, if there is one. */
  function FirstFailure(checks: seq<Check>, cs: seq<Components.Component>): (r: Option<CheckResult>)
    ensures r.None? <==> PassesBefore(checks, cs, |checks|)
    ensures r.Some? ==> exists i: nat | i < |checks| ::
              ResultOf(checks[i], cs) == r.value != Passed && PassesBefore(checks, cs, i)
  {
    if checks == [] then None
    else if ResultOf(checks[0], cs) != Passed then
      assert PassesBefore(checks, cs, 0);
      Some(ResultOf(checks[0], cs))
    else
      var rest := FirstFailure(checks[1..], cs);
      FirstFailureLater(checks, cs, rest);
      rest
  }

  lemma FirstFailureLater(checks: seq<Check>, cs: seq<Components.Component>, rest: Option<CheckResult>)
    requires checks != [] && ResultOf(checks[0], cs) == Passed
    requires rest.None? <==> PassesBefore(checks[1..], cs, |checks[1..]|)
    requires rest.Some? ==> exists i: nat | i < |checks[1..]| ::
               ResultOf(checks[1..][i], cs) == rest.value != Passed && PassesBefore(checks[1..], cs, i)
    ensures rest.None? <==> PassesBefore(checks, cs, |checks|)
    ensures rest.Some? ==> exists i: nat | i < |checks| ::
              ResultOf(checks[i], cs) == rest.value != Passed && PassesBefore(checks, cs, i)
  {
    var later := checks[1..];
    assert forall k | 0 <= k < |later| :: later[k] == checks[k + 1];
    if rest.Some? {
      var i: nat :| i < |later| && ResultOf(later[i], cs) == rest.value != Passed && PassesBefore(later, cs, i);
      forall k | 0 <= k < i + 1 ensures ResultOf(checks[k], cs) == Passed {
        if k > 0 { assert ResultOf(later[k - 1], cs) == Passed; }
      }
      assert PassesBefore(checks, cs, i + 1) && ResultOf(checks[i + 1], cs) == rest.value;
    } else {
      forall k | 0 <= k < |checks| ensures ResultOf(checks[k], cs) == Passed {
        if k > 0 { assert ResultOf(later[k - 1], cs) == Passed; }
      }
    }
  }

  /** How a pass over this copy of the registry leaves its checks. */
  ghost predicate LeavesChecks(e: Event, quay: Registry, found: Findings, now: Time) {
    match FirstFailure(found.checks, quay.components)
    case Some(Passed) => false
    case None => e.Inflate? && e.plan == found.plan && IsCreationOrder(e.order, found.objs)
    case Some(Stopped(Invalid(reason, message))) => e == Block(reason, message, now)
    case Some(Stopped(GiveUp)) => e == Return
    case Some(Stopped(BundleMissing)) => e.TouchSpec?
    case Some(SpecIncomplete(ctx, _)) => e.WriteDefaults? && e.ctx == ctx
  }

  /** How a pass leaves its apply loop. */
  predicate LeavesLoop(e: Event, found: Findings, now: Time) {
    if found.namespaceFailure then e == Block(MonitoringDependencyError, NamespaceFailed, now)
    else match found.cleanupFailure
      case Some(message) => e == CleanupFails(message, now)
      case None => e == CleanupDone
  }

  /**
   The move to make in each control state, but for how the cluster answers it. None starts
   another reconcile, and none is a crash.
   */
  ghost predicate Prescribed(main: Main, e: Event, found: Findings, now: Time) {
    match main
    case Idle => false
    case Prepare(quay) => LeavesChecks(e, quay, found, now)
    case ReadMigrationJob(_) => e.ReadJob? && e.now == now
    case ReadDatabaseJob(_, _) => e.ReadJob? && e.now == now
    case Apply(_, _, todo) =>
      if todo == [] then LeavesLoop(e, found, now)
      else if IsJob(todo[0]) then e.ReadJob? && e.now == now
      else e.ApplyObject?
    case DeleteJob(_, _, _) => e.RemoveJob?
    case CreateJob(_, _, _) => e.AddJob?
    case Failing(_, reason, message) => e == Block(reason, message, now)
    case Settle(_, _) => e == Proceed(now)
    case Decide(_, _) => e == Proceed(now)
    case Gate(_, _) => e == Proceed(now)
    case Finalize(_) => if found.hasFinalizer then e == Return else e.TouchSpec?
    case _ => e.Write?
  }

  ghost predicate AllPrescribed(log: seq<Entry>, from: nat, found: Findings, now: Time) {
    forall i | from <= i < |log| :: Prescribed(log[i].main, log[i].event, found, now)
  }

  /** What the reconcile under way has found, and from where in the log on it acts on it. */
  datatype Script = Script(start: nat, found: Findings, now: Time)

  /** One reconcile of this copy of the registry, from idle to idle, with nothing left out. */
  ghost predicate IsReconcile(trace: seq<Entry>, quay: Registry, found: Findings, now: Time) {
    && trace != [] && trace[0] == Entry(Idle, Begin, Dispatch(quay))
    && Chained(trace, Idle, Idle)
    && AllPrescribed(trace, 1, found, now)
  }

  /**
   What a reconcile comes to: it begins once, never crashes, and its first move is the one
   prescribed for where the copy it read sends it. So with all checks passed it renders and
   orders exactly what it found, and else it leaves by the first check that failed.
   */
  lemma ReconcileActs(trace: seq<Entry>, quay: Registry, found: Findings, now: Time)
    requires IsReconcile(trace, quay, found, now)
    ensures |trace| >= 2 && trace[1].main == Dispatch(quay)
    ensures Prescribed(Dispatch(quay), trace[1].event, found, now)
    ensures forall i | 0 < i < |trace| :: trace[i].event != Begin && !trace[i].event.Crash? && trace[i].main != Idle
    ensures Dispatch(quay).Prepare? ==> LeavesChecks(trace[1].event, quay, found, now)
  {
    forall i | 0 < i < |trace| ensures trace[i].event != Begin && !trace[i].event.Crash? && trace[i].main != Idle {
      PrescribedIsNoCrash(trace[i].main, trace[i].event, found, now);
    }
  }

  /**
   How a reconcile goes on where it has found something to go by: with everything applied it
   blocks over the namespace or reports a failed cleanup, if there is one to report, and a settled
   registry is given its finalizer if it has none.
   */
  lemma FindingsDecide(trace: seq<Entry>, quay: Registry, found: Findings, now: Time, i: nat)
    requires IsReconcile(trace, quay, found, now) && 0 < i < |trace|
    ensures trace[i].main.Apply? && trace[i].main.todo == [] ==>
              trace[i].event == if found.namespaceFailure then Block(MonitoringDependencyError, NamespaceFailed, now)
                                else if found.cleanupFailure.Some? then CleanupFails(found.cleanupFailure.value, now)
                                else CleanupDone
    ensures trace[i].main.Finalize? && found.hasFinalizer ==> trace[i].event == Return
    ensures trace[i].main.Finalize? && !found.hasFinalizer ==> trace[i].event.TouchSpec?
    ensures trace[i].main.Failing? ==> trace[i].event == Block(trace[i].main.reason, trace[i].main.message, now)
  {
    assert Prescribed(trace[i].main, trace[i].event, found, now);
  }

  lemma PrescribedSnoc(log: seq<Entry>, from: nat, entry: Entry, found: Findings, now: Time)
    requires AllPrescribed(log, from, found, now) && Prescribed(entry.main, entry.event, found, now)
    ensures AllPrescribed(log + [entry], from, found, now)
  {
  }

  lemma RunSnoc(states: seq<World>, events: seq<Event>, e: Event)
    requires IsRun(states, events) && Enabled(states[|events|], e)
    ensures IsRun(states + [Step(states[|events|], e)], events + [e])
  {
  }

  /** A log that goes on with the begin of a reconcile, and then as prescribed. */
  ghost predicate Goes(states: seq<World>, events: seq<Event>, k: nat, quay: Registry, found: Findings, now: Time) {
    && IsRun(states, events) && k <= |events|
    && var early, all := Log(states[..k + 1], events[..k]), Log(states, events);
       && |early| < |all| && all[|early|] == Entry(Idle, Begin, Dispatch(quay))
       && AllPrescribed(all, |early| + 1, found, now)
  }

  /** From idle to idle, that part of the log is one reconcile. */
  lemma LogIsReconcile(states: seq<World>, events: seq<Event>, k: nat, quay: Registry, found: Findings, now: Time)
    requires Goes(states, events, k, quay, found, now) && states[k].main == Idle && states[|events|].main == Idle
    ensures IsReconcile(Log(states, events)[|Log(states[..k + 1], events[..k])|..], quay, found, now)
  {
    var early, all := Log(states[..k + 1], events[..k]), Log(states, events);
    LogIsChained(states, events, k);
    var trace := all[|early|..];
    forall i | 1 <= i < |trace| ensures Prescribed(trace[i].main, trace[i].event, found, now) {
      assert trace[i] == all[|early| + i];
    }
  }

  lemma EntryIsNoCrash(log: seq<Entry>, from: nat, i: nat, found: Findings, now: Time)
    requires from <= i < |log| && log[from].event == Begin && AllPrescribed(log, from + 1, found, now)
    ensures !log[i].event.Crash? && !log[i].event.ReplaceOperator?
  {
    if i > from {
      PrescribedIsNoCrash(log[i].main, log[i].event, found, now);
    }
  }

  /** Nothing that is prescribed is a crash, so there was none. */
  lemma LogHasNoCrash(states: seq<World>, events: seq<Event>, k: nat, quay: Registry, found: Findings, now: Time)
    requires Goes(states, events, k, quay, found, now)
    ensures forall j | k <= j < |events| :: !events[j].Crash? && !events[j].ReplaceOperator?
  {
    var early, all := Log(states[..k + 1], events[..k]), Log(states, events);
    forall j | k <= j < |events| ensures !events[j].Crash? && !events[j].ReplaceOperator? {
      if IsLogged(events[j]) {
        LoggedEventsAreThere(states, events, k, j);
        var i :| |early| <= i < |all| && all[i].event == events[j];
        EntryIsNoCrash(all, |early|, i, found, now);
      }
    }
  }

  lemma PrescribedIsNoCrash(main: Main, e: Event, found: Findings, now: Time)
    requires Prescribed(main, e, found, now)
    ensures !e.Crash? && !e.ReplaceOperator? && e != Begin
  {
  }
}
