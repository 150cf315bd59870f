/**
 The code of the two controllers, running against a cluster that anybody may touch between
 any two API calls. Every method says what it adds to the log of the operator's process: a
 reconcile makes exactly the moves that are prescribed for what it finds, from idle to idle, and
 each is a step of the protocol. So the theorems about runs are theorems about this code.
 */
module Reconciler {
  import opened Wrappers
  import opened Conditions
  import opened CreationOrder
  import opened Protocol
  import opened MigrationSafety
  import opened OperatorLog
  import opened Phases
  import Reports
  import Components
  import Evaluator
  import StatusController

  datatype Creation = Created | AlreadyExists | Refused

  // ---- The cluster ----

  /**
   The API server, with everything that goes on behind it. It also keeps the protocol's view
   of the controllers, the run so far, and the log.
   */
  class Cluster {
    var world: World
    ghost var states: seq<World>
    ghost var events: seq<Event>
    ghost var log: seq<Entry>
    ghost var script: Option<Script>

    /** Whatever happens is a run, and since a script is in force only its moves are made. */
    ghost predicate Valid()
      reads this
    {
      && IsRun(states, events) && states[|events|] == world && log == Log(states, events)
      && (script.Some? ==> AllPrescribed(log, script.value.start, script.value.found, script.value.now))
    }

    /** The script, if there is one, prescribes this move. */
    ghost predicate May(e: Event)
      reads this
    {
      script.Some? && IsLogged(e) ==> Prescribed(world.main, e, script.value.found, script.value.now)
    }

    /** The script in force is for these findings at this time. */
    ghost predicate Follows(found: Findings, now: Time)
      reads this
    {
      script.Some? && script.value.found == found && script.value.now == now
    }

    /** The time is that of the script in force, if there is one. */
    ghost predicate OnTime(now: Time)
      reads this
    {
      script.Some? ==> script.value.now == now
    }

    /** What happened so far stays, and the operator and its script are the same. */
    twostate predicate Continues()
      reads this
    {
      old(states) <= states && old(events) <= events && world.op == old(world.op) && script == old(script)
    }

    constructor (w: World)
      ensures Valid() && world == w && states == [w] && events == [] && log == [] && script.None?
    {
      world, states, events, log, script := w, [w], [], [], None;
    }

    /** From here on, the process acts on these findings. */
    ghost method Follow(found: Findings, now: Time)
      requires Valid()
      modifies this`script
      ensures Valid() && Follows(found, now) && script.value.start == |log|
    {
      script := Some(Script(|log|, found, now));
    }

    ghost method Forget()
      requires Valid()
      modifies this`script
      ensures Valid() && script.None?
    {
      script := None;
    }

    /** One step of the protocol. */
    method Move(e: Event)
      requires Valid() && Enabled(world, e) && May(e)
      modifies this
      ensures Valid() && world == Step(old(world), e) && script == old(script)
      ensures states == old(states) + [world] && events == old(events) + [e]
      ensures log == old(log) + if IsLogged(e) then [Entry(old(world.main), e, world.main)] else []
      ensures !IsLogged(e) ==> log == old(log) && world.main == old(world.main)
    {
      ghost var next := Step(world, e);
      RunSnoc(states, events, e);
      LogSnoc(states, events, next, e);
      if IsLogged(e) {
        ghost var entry := Entry(world.main, e, next.main);
        if script.Some? {
          PrescribedSnoc(log, script.value.start, entry, script.value.found, script.value.now);
        }
        log := log + [entry];
      } else {
        UnloggedKeepsMain(world, e);
      }
      world := Step(world, e);
      states, events := states + [next], events + [e];
    }

    /** Perhaps a step by a user, a job or the status controller. */
    method Happen()
      requires Valid()
      modifies this
      ensures Valid() && Continues() && world.main == old(world.main) && log == old(log)
    {
      var e: Event := *;
      if !IsLogged(e) && Enabled(world, e) {
        Move(e);
      }
    }

    /** What was logged stays logged. */
    twostate lemma Grows()
      requires old(Valid()) && Valid() && Continues()
      ensures old(log) <= log
    {
      LogGrows(states, events, |old(events)|);
      assert states[..|old(events)| + 1] == old(states) && events[..|old(events)|] == old(events);
    }

    /** Any number of steps by users, jobs and the status controller. */
    method Interfere()
      requires Valid()
      modifies this
      ensures Valid() && Continues() && world.main == old(world.main) && log == old(log)
    {
      var n: int := *;
      while n > 0
        invariant Valid() && Continues() && world.main == old(world.main) && log == old(log)
      {
        Happen();
        n := n - 1;
      }
    }

    /** Any number of steps by users, jobs and the main controller. */
    method InterfereWithStatus()
      requires Valid() && script.None?
      modifies this
      ensures Valid() && Continues() && world.status == old(world.status)
    {
      var n: int := *;
      while n > 0
        invariant Valid() && Continues() && world.status == old(world.status)
      {
        var e: Event := *;
        if !(e.Crash? || e.ReplaceOperator? || IsStatusEvent(e)) && Enabled(world, e) {
          Move(e);
        }
        n := n - 1;
      }
    }

    /** The status controller's read. */
    method ReadStatus() returns (reg: Registry)
      requires Valid() && script.None?
      modifies this
      ensures Valid() && Continues() && world.status == Status.Evaluated(reg) && reg == world.reg
      ensures |old(events)| < |events| && events[|events| - 1] == StatusRead
    {
      InterfereWithStatus();
      reg := world.reg;
      Move(StatusRead);
    }

    /** The status controller's write, checked against the resource version it read. */
    method UpdateStatusOf(reg: Registry, conditions: seq<Condition>, conds: seq<Condition>, now: Time, later: Time)
      returns (ok: bool, ghost outcome: Outcome)
      requires Valid() && script.None? && world.status == Status.Evaluated(reg) && Evaluator.IsReport(conds)
      requires conditions == StatusController.Overwritten(reg.conditions, conds, now, later)
      modifies this
      ensures Valid() && Continues() && ok == (outcome == Acked)
      ensures |events| > |old(events)| && events[|events| - 1] == StatusWrite(conds, now, later, outcome)
      ensures ok ==> world.reg == reg.(rv := reg.rv + 1, conditions := conditions)
      ensures ok && Fresh(states[0]) ==> reg == states[|events| - 1].reg
    {
      InterfereWithStatus();
      var answer: Outcome := *;
      if !MayLand(world, reg.rv, answer) {
        answer := Rejected;
      }
      ok := answer == Acked;
      outcome := answer;
      if Fresh(states[0]) {
        FreshIsInv(states[0]);
        RunKeepsInv(states, events, |events|);
      }
      Move(StatusWrite(conds, now, later, answer));
    }

    // ---- API calls of the main controller ----

    method GetRegistry() returns (quay: Registry)
      requires Valid() && script.None? && world.main == Idle
      modifies this
      ensures Valid() && Continues() && quay == world.reg && world.main == Dispatch(quay)
      ensures log == old(log) + [Entry(Idle, Begin, Dispatch(quay))]
    {
      Interfere();
      quay := world.reg;
      Move(Begin);
    }

    /** Rendering and ordering are done; the pass starts to walk over its queue. */
    method Inflated(plan: Plan, order: seq<KubeObject>)
      requires Valid() && world.main.Prepare? && Renders(plan, world.main.quay, world.op, order) && WorkloadsLast(order)
      requires May(Inflate(plan, order))
      modifies this
      ensures Valid() && Continues() && world.main == Apply(old(world.main.quay), plan, Queue(plan, order))
      ensures log == old(log) + [Entry(old(world.main), Inflate(plan, order), world.main)]
    {
      Move(Inflate(plan, order));
    }

    method GetJob(now: Time) returns (answer: Read<Job>)
      requires Valid() && Enabled(world, ReadJob(true, now)) && May(ReadJob(true, now))
      modifies this
      ensures Valid() && Continues()
      ensures world.main == AfterRead(old(world.main), answer, world.op, now)
      ensures log == old(log) + [Entry(old(world.main), ReadJob(!answer.Failed?, now), world.main)]
    {
      Interfere();
      var readable: bool := *;
      answer := Answer(world.jobs, JobRead(world.main), readable);
      Move(ReadJob(readable, now));
    }

    /** The same for a job of a database, with what that read has found. */
    method GetDatabaseJob(quay: Registry, i: nat, now: Time) returns (answer: Read<Job>)
      requires Valid() && i < |DatabaseJobs| && world.main == ReadDatabaseJob(quay, i) && May(ReadJob(true, now))
      modifies this
      ensures Valid() && Continues()
      ensures world.main == AfterRead(old(world.main), answer, world.op, now)
      ensures log == old(log) + [Entry(old(world.main), ReadJob(!answer.Failed?, now), world.main)]
      ensures if IsDone(answer) then FoundDone(states, events, |old(events)|, |events|, DatabaseJobs[i])
              else FoundPending(states, events, |old(events)|, |events|, DatabaseJobs[i])
    {
      Interfere();
      var readable: bool := *;
      answer := Answer(world.jobs, JobRead(world.main), readable);
      ghost var ss, es := states, events;
      Move(ReadJob(readable, now));
      JobLookedAt(ss, es, states, events, |old(events)|, quay, i, answer, now);
    }

    method DeleteJob() returns (ok: bool, ghost outcome: Outcome)
      requires Valid() && world.main.DeleteJob? && world.main.todo != []
      modifies this
      ensures Valid() && Continues() && ok == (outcome == Acked)
      ensures world.main == if ok then Main.CreateJob(old(world.main.quay), old(world.main.plan), old(world.main.todo))
                            else ObjectFailing(old(world.main.quay))
      ensures log == old(log) + [Entry(old(world.main), RemoveJob(outcome), world.main)]
    {
      Interfere();
      var result: Outcome := *;
      ok, outcome := result == Acked, result;
      Move(RemoveJob(result));
    }

    method CreateJob() returns (answer: Creation, ghost outcome: Outcome)
      requires Valid() && world.main.CreateJob? && world.main.todo != []
      modifies this
      ensures Valid() && Continues() && (answer == Refused <==> outcome != Acked)
      ensures world.main == match answer
                            case Created => Apply(old(world.main.quay), old(world.main.plan), old(world.main.todo[1..]))
                            case AlreadyExists => Idle
                            case Refused => ObjectFailing(old(world.main.quay))
      ensures log == old(log) + [Entry(old(world.main), AddJob(outcome), world.main)]
    {
      Interfere();
      var result: Outcome := *;
      answer := if result != Acked then Refused
                else if world.main.todo[0].payload in world.jobs then AlreadyExists
                else Created;
      outcome := result;
      Move(AddJob(result));
    }

    /** Server-side apply of the next object. */
    method Patch() returns (ok: bool)
      requires Valid() && Enabled(world, ApplyObject(true))
      modifies this
      ensures Valid() && Continues()
      ensures world.main == if ok then Apply(old(world.main.quay), old(world.main.plan), old(world.main.todo[1..]))
                            else ObjectFailing(old(world.main.quay))
      ensures log == old(log) + [Entry(old(world.main), ApplyObject(ok), world.main)]
    {
      Interfere();
      ok := *;
      Move(ApplyObject(ok));
    }

    method UpdateStatus(want: Registry) returns (stored: Option<Registry>, ghost outcome: Outcome)
      requires Valid() && HoldsWant(world.main) && world.main.want == want
      modifies this
      ensures Valid() && Continues() && (stored.Some? <==> outcome == Acked)
      ensures world.main == AfterWrite(old(world.main), stored)
      ensures stored.Some? ==> stored.value == want.(rv := want.rv + 1) == world.reg
      ensures log == old(log) + [Entry(old(world.main), Write(outcome), world.main)]
    {
      Interfere();
      var result: Outcome := *;
      if !MayLand(world, want.rv, result) {
        result := Rejected;
      }
      stored, outcome := None, result;
      if result == Acked {
        stored := Some(want.(rv := want.rv + 1));
      }
      Commit(want, result);
    }

    method Commit(want: Registry, outcome: Outcome)
      requires Valid() && HoldsWant(world.main) && world.main.want == want && MayLand(world, want.rv, outcome)
      modifies this
      ensures Valid() && Continues()
      ensures world.main == AfterWrite(old(world.main), if outcome == Acked then Some(want.(rv := want.rv + 1)) else None)
      ensures outcome == Acked ==> world.reg == want.(rv := want.rv + 1)
      ensures log == old(log) + [Entry(old(world.main), Write(outcome), world.main)]
    {
      WriteAnswer(world, want, outcome);
      Move(Write(outcome));
    }

    /** The next decision, which takes no API call. */
    method GoOn(now: Time)
      requires Valid() && OnTime(now) && (world.main.Settle? || world.main.Decide? || world.main.Gate?)
      modifies this
      ensures Valid() && Continues()
      ensures world.main == ProceedStep(old(world), now)
      ensures log == old(log) + [Entry(old(world.main), Proceed(now), world.main)]
    {
      Move(Proceed(now));
    }

    method UpdateSpec(rv: nat) returns (ghost outcome: Outcome)
      requires Valid()
      requires May(TouchSpec(Acked))
      requires (world.main.Prepare? && world.main.quay.rv == rv) || (world.main.Finalize? && world.main.updated.rv == rv)
      modifies this
      ensures Valid() && Continues() && world.main == Idle
      ensures log == old(log) + [Entry(old(world.main), TouchSpec(outcome), Idle)]
    {
      Interfere();
      var result: Outcome := *;
      if !MayLand(world, rv, result) {
        result := Rejected;
      }
      outcome := result;
      Move(TouchSpec(result));
    }

    /** The update of the spec with the completed component list. */
    method UpdateComponents(quay: Registry, ctx: Components.Context, components: seq<Components.Component>)
      returns (ghost outcome: Outcome)
      requires Valid() && world.main == Prepare(quay) && May(WriteDefaults(ctx, Acked))
      requires Components.Incomplete(ctx, quay.components) && components == Components.Defaulted(ctx, quay.components)
      modifies this
      ensures Valid() && Continues() && world.main == Idle
      ensures outcome != Rejected ==> world.reg == quay.(rv := quay.rv + 1, components := components)
      ensures log == old(log) + [Entry(old(world.main), WriteDefaults(ctx, outcome), Idle)]
    {
      Interfere();
      var result: Outcome := *;
      if !MayLand(world, quay.rv, result) {
        result := Rejected;
      }
      outcome := result;
      CommitComponents(quay, ctx, components, result);
    }

    method CommitComponents(quay: Registry, ctx: Components.Context, components: seq<Components.Component>, outcome: Outcome)
      requires Valid() && world.main == Prepare(quay) && May(WriteDefaults(ctx, outcome))
      requires Components.Incomplete(ctx, quay.components) && components == Components.Defaulted(ctx, quay.components)
      requires MayLand(world, quay.rv, outcome)
      modifies this
      ensures Valid() && Continues() && world.main == Idle
      ensures outcome != Rejected ==> world.reg == quay.(rv := quay.rv + 1, components := components)
      ensures log == old(log) + [Entry(old(world.main), WriteDefaults(ctx, outcome), Idle)]
    {
      DefaultsAnswer(world, ctx, outcome);
      Move(WriteDefaults(ctx, outcome));
    }
  }

  // ---- The main controller ----

  class QuayRegistryReconciler {
    const cluster: Cluster

    constructor (cluster: Cluster)
      ensures this.cluster == cluster
    {
      this.cluster := cluster;
    }

    method UpdateWithCondition(
      quay: Registry, ctype: ConditionType, status: ConditionStatus, reason: Reason, message: Message, now: Time
    ) returns (stored: Option<Registry>, ghost outcome: Outcome)
      requires cluster.Valid() && HoldsWant(cluster.world.main)
      requires cluster.world.main.want
            == quay.(conditions := Put(quay.conditions, Condition(ctype, status, reason, message, now, now)))
      modifies cluster
      ensures cluster.Valid() && cluster.Continues() && (stored.Some? <==> outcome == Acked)
      ensures cluster.world.main == AfterWrite(old(cluster.world.main), stored)
      ensures stored.Some? ==> stored.value == old(cluster.world.main.want).(rv := quay.rv + 1) == cluster.world.reg
      ensures cluster.log == old(cluster.log) + [Entry(old(cluster.world.main), Write(outcome), cluster.world.main)]
    {
      var conditions := SetCondition(quay.conditions, Condition(ctype, status, reason, message, now, now));
      stored, outcome := cluster.UpdateStatus(quay.(conditions := conditions));
    }

    /** Reports a blocked rollout on this copy and ends the reconcile. */
    method ReconcileWithCondition(quay: Registry, reason: Reason, message: Message, now: Time) returns (ghost outcome: Outcome)
      requires cluster.Valid() && Enabled(cluster.world, Block(reason, message, now)) && cluster.May(Block(reason, message, now))
      requires BlockBase(cluster.world.main) == quay
      modifies cluster
      ensures cluster.Valid() && cluster.Continues() && cluster.world.main == Idle
      ensures var report := LastWrite(Blocked(quay, reason, message, now));
              cluster.log == old(cluster.log)
                + [Entry(old(cluster.world.main), Block(reason, message, now), report), Entry(report, Write(outcome), Idle)]
    {
      cluster.Move(Block(reason, message, now));
      var _, o := UpdateWithCondition(quay, RolloutBlocked, True, reason, message, now);
      outcome := o;
    }

    /** The verdict on the job as it was read, and nothing else, is written. */
    method CheckMigrationStatus(quay: Registry, now: Time) returns (ghost answer: Read<Job>, ghost outcome: Outcome)
      requires cluster.Valid() && cluster.world.main == ReadMigrationJob(quay) && cluster.May(ReadJob(true, now))
      modifies cluster
      ensures cluster.Valid() && cluster.Continues() && cluster.world.main == Idle
      ensures var verdict := AfterRead(ReadMigrationJob(quay), answer, cluster.world.op, now);
              cluster.log == old(cluster.log)
                + [Entry(ReadMigrationJob(quay), ReadJob(!answer.Failed?, now), verdict)]
                + if verdict == Idle then [] else [Entry(verdict, Write(outcome), Idle)]
    {
      var op := cluster.world.op;
      var existing := cluster.GetJob(now);
      answer, outcome := existing, Rejected;
      match existing {
        case NotFound =>
          var _, o := UpdateWithCondition(quay, ComponentsCreated, False, MigrationsJobMissing, UpgradeJobNotFound, now);
          outcome := o;
        case Failed(_) =>
        case Found(job) =>
          if job.active == 1 {
            return;
          }
          if job.succeeded == 1 {
            var condition := Condition(ComponentsCreated, True, ComponentsCreationSuccess, ComponentsCreatedMessage, now, now);
            var conditions := SetCondition(quay.conditions, condition);
            var _, o := cluster.UpdateStatus(quay.(currentVersion := op, conditions := conditions));
            outcome := o;
            return;
          }
          var message := FailedMigrations;
          if job.failure.Some? {
            message := job.failure.value;
          }
          var _, o := UpdateWithCondition(quay, ComponentsCreated, False, MigrationsFailed, message, now);
          outcome := o;
      }
    }

    /** One round of the loop over the database jobs; answers whether to go on to the next. */
    method CheckDatabaseJob(quay: Registry, i: nat, now: Time)
      returns (proceed: bool, ghost answer: Read<Job>, ghost outcome: Outcome)
      requires cluster.Valid() && i < |DatabaseJobs| && cluster.world.main == ReadDatabaseJob(quay, i)
      requires cluster.May(ReadJob(true, now))
      modifies cluster
      ensures cluster.Valid() && cluster.Continues()
      ensures proceed <==> IsDone(answer)
      ensures cluster.world.main == if proceed then DatabaseVerdict(quay, i, None, now) else Idle
      ensures var verdict := AfterRead(ReadDatabaseJob(quay, i), answer, cluster.world.op, now);
              cluster.log == old(cluster.log)
                + [Entry(ReadDatabaseJob(quay, i), ReadJob(!answer.Failed?, now), verdict)]
                + if proceed || verdict == Idle then [] else [Entry(verdict, Write(outcome), Idle)]
      ensures var n := |old(cluster.events)|;
              if proceed then FoundDone(cluster.states, cluster.events, n, |cluster.events|, DatabaseJobs[i])
              else FoundPending(cluster.states, cluster.events, n, |cluster.events|, DatabaseJobs[i])
    {
      var existing := cluster.GetDatabaseJob(quay, i, now);
      answer, outcome := existing, Rejected;
      ghost var ss, es := cluster.states, cluster.events;
      match existing {
        case NotFound =>
          proceed := true;
        case Failed(_) =>
          proceed := false;
        case Found(job) =>
          proceed := job.active != 1 && job.succeeded == 1;
          if job.active == 1 || job.succeeded == 1 {
            return;
          }
          var message := FailedDatabaseUpgrade;
          if job.failure.Some? {
            message := job.failure.value;
          }
          var _, o := UpdateWithCondition(quay, ComponentsCreated, False, PostgresUpgradeFailed, message, now);
          outcome := o;
          FoundPendingLater(ss, es, cluster.states, cluster.events, |old(cluster.events)|, DatabaseJobs[i]);
      }
    }

    /**
     The jobs are read in order, up to the first that is not done with. If there is none, success is
     written, and nothing else in any case but the verdict on that job.
     */
    method CheckPostgresUpgradeStatus(quay: Registry, now: Time)
      returns (ghost visited: nat, ghost upgraded: bool, ghost outcome: Outcome)
      requires cluster.Valid() && cluster.world.main == ReadDatabaseJob(quay, 0)
      requires cluster.OnTime(now)
      modifies cluster
      ensures cluster.Valid() && cluster.Continues() && cluster.world.main == Idle
      ensures 1 <= visited <= |DatabaseJobs| && Visits(cluster.log, |old(cluster.log)|, quay, visited)
      ensures var n := |old(cluster.log)|;
              if upgraded
              then && visited == |DatabaseJobs| && |cluster.log| == n + visited + 1
                   && cluster.log[n + visited] == Entry(NextVisit(quay, visited, now), Write(outcome), Idle)
              else cluster.log[n + visited - 1].after != NextVisit(quay, visited, now)
      ensures BothLookedAt(cluster.states, cluster.events, |old(cluster.events)|, upgraded)
    {
      outcome := Rejected;
      var proceed;
      proceed, visited := VisitDatabaseJobs(quay, now);
      upgraded := proceed;
      if proceed {
        ghost var ss, es := cluster.states, cluster.events;
        var o := ReportUpgraded(quay, now);
        outcome := o;
        FoundDoneLater(ss, es, cluster.states, cluster.events, |old(cluster.events)|, PostgresUpgrade);
        FoundDoneLater(ss, es, cluster.states, cluster.events, |old(cluster.events)|, ClairPostgresUpgrade);
      }
    }

    /**
     The first `count` database jobs have been visited, logged from `n` on, and found done since step
     `from`; or the last of them has not been.
     */
    ghost predicate Visited(quay: Registry, n: nat, from: nat, count: nat, done: bool, now: Time)
      reads this, cluster
    {
      && 1 <= count <= |DatabaseJobs| && Visits(cluster.log, n, quay, count)
      && (if done then |cluster.log| == n + count && AllFoundDone(cluster.states, cluster.events, from, count)
          else cluster.log[n + count - 1].after != NextVisit(quay, count, now))
      && (!done || count == |DatabaseJobs| ==> BothLookedAt(cluster.states, cluster.events, from, done))
    }

    /** The loop over the database jobs; answers whether it got to its end. */
    method VisitDatabaseJobs(quay: Registry, now: Time) returns (proceed: bool, ghost visited: nat)
      requires cluster.Valid() && cluster.world.main == ReadDatabaseJob(quay, 0)
      requires cluster.OnTime(now)
      modifies cluster
      ensures cluster.Valid() && cluster.Continues()
      ensures cluster.world.main == if proceed then NextVisit(quay, |DatabaseJobs|, now) else Idle
      ensures Visited(quay, |old(cluster.log)|, |old(cluster.events)|, visited, proceed, now)
      ensures proceed ==> visited == |DatabaseJobs|
    {
      ghost var n, from := |cluster.log|, |cluster.events|;
      visited, proceed := 0, true;
      for i := 0 to |DatabaseJobs|
        invariant cluster.Valid() && cluster.Continues() && proceed && visited == i
        invariant i == 0 ==> |cluster.log| == n && |cluster.events| == from
        invariant i > 0 ==> Visited(quay, n, from, i, true, now)
        invariant cluster.world.main == NextVisit(quay, i, now)
      {
        proceed := VisitDatabaseJob(quay, i, n, from, now);
        visited := i + 1;
        if !proceed {
          return;
        }
      }
    }

    method VisitDatabaseJob(quay: Registry, i: nat, ghost n: nat, ghost from: nat, now: Time) returns (proceed: bool)
      requires cluster.Valid() && i < |DatabaseJobs| && cluster.world.main == NextVisit(quay, i, now)
      requires cluster.OnTime(now)
      requires if i == 0 then |cluster.log| == n && |cluster.events| == from else Visited(quay, n, from, i, true, now)
      requires from <= |cluster.events|
      modifies cluster
      ensures cluster.Valid() && cluster.Continues()
      ensures cluster.world.main == if proceed then NextVisit(quay, i + 1, now) else Idle
      ensures Visited(quay, n, from, i + 1, proceed, now)
    {
      ghost var ss, es, logged := cluster.states, cluster.events, cluster.log;
      var next, answer, o := CheckDatabaseJob(quay, i, now);
      proceed := next;
      ghost var verdict := AfterRead(ReadDatabaseJob(quay, i), answer, cluster.world.op, now);
      VisitLogged(logged, Entry(ReadDatabaseJob(quay, i), ReadJob(!answer.Failed?, now), verdict),
                  if proceed || verdict == Idle then [] else [Entry(verdict, Write(o), Idle)], n, quay, i);
      VerdictOrNextVisit(quay, i, answer, cluster.world.op, now);
      VisitedOneMore(ss, es, cluster.states, cluster.events, from, i, proceed);
    }

    method ReportUpgraded(quay: Registry, now: Time) returns (ghost outcome: Outcome)
      requires cluster.Valid()
      requires cluster.world.main == LastWrite(WithCreated(quay, True, ComponentsCreationSuccess, ComponentsCreatedMessage, now))
      modifies cluster
      ensures cluster.Valid() && cluster.Continues() && cluster.world.main == Idle
      ensures cluster.log == old(cluster.log) + [Entry(old(cluster.world.main), Write(outcome), Idle)]
    {
      var condition := Condition(ComponentsCreated, True, ComponentsCreationSuccess, ComponentsCreatedMessage, now, now);
      var conditions := SetCondition(quay.conditions, condition);
      var _, o := cluster.UpdateStatus(quay.(conditions := conditions));
      outcome := o;
    }

    /** Something is always done about the object, and the answer says where that left the controller. */
    method CreateOrUpdateObject(
      obj: KubeObject, quay: Registry, plan: Plan, later: seq<KubeObject>, now: Time
    ) returns (requeue: bool, failed: bool)
      requires cluster.Valid() && cluster.world.main == Apply(quay, plan, [obj] + later)
      requires cluster.OnTime(now)
      modifies cluster
      ensures cluster.Valid() && cluster.Continues()
      ensures |old(cluster.log)| < |cluster.log| && cluster.log[|old(cluster.log)|].main == old(cluster.world.main)
      ensures cluster.world.main
           == if failed then ObjectFailing(quay) else if requeue then Idle else Apply(quay, plan, later)
    {
      assert ([obj] + later)[1..] == later;
      if !obj.kind.Job? {
        var ok := cluster.Patch();
        return false, !ok;
      }
      var existing := cluster.GetJob(now);
      if existing.Found? {
        if existing.value.succeeded >= 1 {
          if quay.currentVersion == cluster.world.op {
            return false, false;
          }
        }
        if existing.value.active >= 1 {
          return false, false;
        }
      }
      label Read:
      requeue, failed := RecreateJob(quay, plan, [obj] + later);
      cluster.Grows@Read();
    }

    /** Deletes the job, whether it is there or not, and creates it anew. */
    method RecreateJob(quay: Registry, plan: Plan, todo: seq<KubeObject>)
      returns (requeue: bool, failed: bool)
      requires cluster.Valid() && todo != [] && cluster.world.main == DeleteJob(quay, plan, todo)
      modifies cluster
      ensures cluster.Valid() && cluster.Continues()
      ensures cluster.world.main
           == if failed then ObjectFailing(quay) else if requeue then Idle else Apply(quay, plan, todo[1..])
    {
      var deleted, _ := cluster.DeleteJob();
      if !deleted {
        return false, true;
      }
      var answer, _ := cluster.CreateJob();
      match answer {
        case AlreadyExists => return true, false;
        case Refused => return false, true;
        case Created => return false, false;
      }
    }

    /** The checks in their order; the first that does not pass ends the reconcile. */
    method RunChecks(quay: Registry, found: Findings, now: Time) returns (proceed: bool)
      requires cluster.Valid() && cluster.world.main == Prepare(quay)
      requires cluster.Follows(found, now)
      modifies cluster
      ensures cluster.Valid() && cluster.Continues()
      ensures proceed <==> FirstFailure(found.checks, quay.components).None?
      ensures cluster.world.main == if proceed then Prepare(quay) else Idle
      ensures proceed ==> cluster.log == old(cluster.log)
      ensures !proceed ==>
                && |old(cluster.log)| < |cluster.log| && cluster.log[|old(cluster.log)|].main == Prepare(quay)
                && LeavesChecks(cluster.log[|old(cluster.log)|].event, quay, found, now)
    {
      var checks := found.checks;
      for i := 0 to |checks|
        invariant unchanged(cluster)
        invariant FirstFailure(checks, quay.components) == FirstFailure(checks[i..], quay.components)
      {
        assert checks[i..][0] == checks[i] && checks[i..][1..] == checks[i + 1..];
        var result := CarryOut(checks[i], quay);
        if result != Passed {
          FailCheck(quay, result, found, now);
          return false;
        }
      }
      return true;
    }

    /** One check; completing the component list works on a copy of it. */
    method CarryOut(check: Check, quay: Registry) returns (result: CheckResult)
      ensures result == ResultOf(check, quay.components)
    {
      match check {
        case Look(problem) =>
          result := if problem.Some? then Stopped(problem.value) else Passed;
        case Completion(ctx, invalid) =>
          var updatedQuay := new Components.QuayRegistry(quay.components);
          var err := Components.EnsureDefaultComponents(ctx, updatedQuay);
          if err.Some? {
            assert Components.AllComponents[Components.Place(err.value)] == err.value;
            return Stopped(GiveUp);
          }
          if invalid.Some? {
            return Stopped(Invalid(ComponentOverrideInvalid, invalid.value));
          }
          var same := Components.ComponentsMatch(quay.components, updatedQuay.components);
          result := if same then Passed else SpecIncomplete(ctx, updatedQuay.components);
      }
    }

    /** What is done about a check that does not pass. */
    method FailCheck(quay: Registry, result: CheckResult, ghost found: Findings, now: Time)
      requires cluster.Valid() && cluster.world.main == Prepare(quay)
      requires cluster.Follows(found, now) && FirstFailure(found.checks, quay.components) == Some(result)
      requires result.SpecIncomplete? ==>
                 && Components.Incomplete(result.ctx, quay.components)
                 && result.completed == Components.Defaulted(result.ctx, quay.components)
      modifies cluster
      ensures cluster.Valid() && cluster.Continues() && cluster.world.main == Idle
      ensures |old(cluster.log)| < |cluster.log| && cluster.log[|old(cluster.log)|].main == Prepare(quay)
      ensures LeavesChecks(cluster.log[|old(cluster.log)|].event, quay, found, now)
    {
      match result {
        case Stopped(Invalid(reason, message)) =>
          var _ := ReconcileWithCondition(quay, reason, message, now);
        case Stopped(GiveUp) =>
          cluster.Move(Return);
        case Stopped(BundleMissing) =>
          var _ := cluster.UpdateSpec(quay.rv);
        case SpecIncomplete(ctx, completed) =>
          var _ := cluster.UpdateComponents(quay, ctx, completed);
      }
    }

    /** The loop over the objects; answers whether the reconcile goes on. */
    method ApplyObjects(quay: Registry, plan: Plan, queue: seq<KubeObject>, now: Time)
      returns (proceed: bool)
      requires cluster.Valid() && cluster.world.main == Apply(quay, plan, queue)
      requires cluster.OnTime(now)
      modifies cluster
      ensures cluster.Valid() && cluster.Continues()
      ensures cluster.world.main == if proceed then Apply(quay, plan, []) else Idle
    {
      for i := 0 to |queue|
        invariant cluster.Valid() && cluster.Continues()
        invariant cluster.world.main == Apply(quay, plan, queue[i..])
      {
        assert queue[i..] == [queue[i]] + queue[i + 1..];
        proceed := ApplyNext(quay, plan, queue[i], queue[i + 1..], now);
        if !proceed {
          return;
        }
      }
      return true;
    }

    /** The body of the loop: a failure is reported, and a requeue ends the reconcile too. */
    method ApplyNext(quay: Registry, plan: Plan, obj: KubeObject, later: seq<KubeObject>, now: Time) returns (proceed: bool)
      requires cluster.Valid() && cluster.world.main == Apply(quay, plan, [obj] + later)
      requires cluster.OnTime(now)
      modifies cluster
      ensures cluster.Valid() && cluster.Continues()
      ensures cluster.world.main == if proceed then Apply(quay, plan, later) else Idle
    {
      var requeue, failed := CreateOrUpdateObject(obj, quay, plan, later, now);
      if failed {
        var _ := ReconcileWithCondition(quay, ComponentCreationFailed, ObjectFailed, now);
      }
      proceed := !failed && !requeue;
    }

    /** Old secrets are deleted here; a failure is reported and the reconcile goes on or stops. */
    method Cleanup(quay: Registry, plan: Plan, found: Findings, now: Time) returns (proceed: bool)
      requires cluster.Valid() && cluster.world.main == Apply(quay, plan, []) && !found.namespaceFailure
      requires cluster.Follows(found, now)
      modifies cluster
      ensures cluster.Valid() && cluster.Continues()
      ensures cluster.world.main == if proceed then Settle(quay, plan) else Idle
      ensures found.cleanupFailure.None? ==> proceed
    {
      if found.cleanupFailure.None? {
        cluster.Move(CleanupDone);
        return true;
      }
      var message := found.cleanupFailure.value;
      cluster.Move(CleanupFails(message, now));
      proceed := ReportCleanupFailure(quay, plan, message, now);
    }

    method ReportCleanupFailure(quay: Registry, plan: Plan, message: Message, now: Time) returns (proceed: bool)
      requires cluster.Valid() && cluster.OnTime(now)
      requires cluster.world.main == ReportCleanup(quay, plan, Blocked(quay, ComponentCreationFailed, message, now))
      modifies cluster
      ensures cluster.Valid() && cluster.Continues()
      ensures cluster.world.main == if proceed then Settle(quay, plan) else Idle
    {
      var stored, _ := UpdateWithCondition(quay, RolloutBlocked, True, ComponentCreationFailed, message, now);
      proceed := stored.Some?;
      if !proceed {
        var _ := ReconcileWithCondition(quay, ConfigInvalid, CleanupImpossible, now);
      }
    }

    /** The look for a condition that a pass left behind. */
    method StillBlocked(conditions: seq<Condition>) returns (blocked: bool)
      ensures var rolloutBlocked := Find(conditions, RolloutBlocked);
              blocked <==> rolloutBlocked.Some? && rolloutBlocked.value.reason == ConfigInvalid && rolloutBlocked.value.status == True
    {
      var rolloutBlocked := GetCondition(conditions, RolloutBlocked);
      if rolloutBlocked.None? {
        return false;
      }
      var invalid := rolloutBlocked.value.reason == ConfigInvalid;
      return invalid && rolloutBlocked.value.status == True;
    }

    /** Objects are applied: the rollout is reported unblocked. */
    method ReportRolledOut(quay: Registry, plan: Plan, now: Time) returns (stored: Option<Registry>, ghost outcome: Outcome)
      requires cluster.Valid() && cluster.world.main == Settle(quay, plan)
      requires cluster.OnTime(now)
      modifies cluster
      ensures cluster.Valid() && cluster.Continues() && (stored.Some? <==> outcome == Acked)
      ensures cluster.world.main == if stored.Some? then Decide(plan, stored.value) else Idle
      ensures var report := ReportRollout(plan, RolledOut(quay, now));
              cluster.log == old(cluster.log)
                + [Entry(Settle(quay, plan), Proceed(now), report), Entry(report, Write(outcome), cluster.world.main)]
    {
      var conditions := RemoveCondition(quay.conditions, RolloutBlocked);
      var blocked := StillBlocked(conditions);
      RemovedIsNotFound(quay.conditions);
      if blocked {
        // would be reported, but the condition was removed from this copy
        assert false;
      }
      cluster.GoOn(now);
      stored, outcome := UpdateWithCondition(quay.(conditions := conditions), RolloutBlocked, False,
                                             ComponentsCreationSuccess, ObjectsApplied, now);
    }

    /** Answers the copy of the registry to go on with, unless the reconcile ends here. */
    method UpdateEndpoint(updated: Registry, plan: Plan, now: Time) returns (next: Option<Registry>)
      requires cluster.Valid() && cluster.world.main == Decide(plan, updated)
      requires cluster.OnTime(now)
      modifies cluster
      ensures cluster.Valid() && cluster.Continues()
      ensures cluster.world.main == if next.Some? then Verdict(next.value, plan, cluster.world.op, now) else Idle
      ensures |old(cluster.log)| < |cluster.log|
      ensures Defers(plan) ==> next.None?
      ensures next.Some? ==> next.value.endpoint == plan.endpoint
      ensures !Defers(plan) && updated.endpoint == plan.endpoint ==> next == Some(updated)
    {
      cluster.GoOn(now);
      if plan.storageManaged && !plan.storageReady {
        return None;
      }
      if !plan.databaseReady || !plan.clairDatabaseReady {
        return None;
      }
      if updated.endpoint == plan.endpoint {
        return Some(updated);
      }
      label Decided:
      next := WriteEndpoint(updated.(endpoint := plan.endpoint), plan, now);
      cluster.Grows@Decided();
    }

    method WriteEndpoint(want: Registry, plan: Plan, now: Time)
      returns (next: Option<Registry>)
      requires cluster.Valid() && cluster.world.main == ReportEndpoint(plan, want)
      requires cluster.OnTime(now) && want.endpoint == plan.endpoint
      modifies cluster
      ensures cluster.Valid() && cluster.Continues()
      ensures next.Some? ==> next.value.endpoint == plan.endpoint
      ensures cluster.world.main == if next.Some? then Verdict(next.value, plan, cluster.world.op, now) else Idle
    {
      var stored, _ := cluster.UpdateStatus(want);
      next := stored;
      if next.Some? {
        cluster.GoOn(now);
      }
    }

    /** Database upgrade first, then migrations; a settled registry may still lack its finalizer. */
    method Conclude(updated: Registry, plan: Plan, found: Findings, now: Time)
      requires cluster.Valid() && cluster.world.main == Verdict(updated, plan, cluster.world.op, now)
      requires cluster.Follows(found, now) && updated.endpoint == plan.endpoint
      modifies cluster
      ensures cluster.Valid() && cluster.Continues() && cluster.world.main == Idle
      ensures |cluster.log| == |old(cluster.log)| + 1
      ensures cluster.log[|old(cluster.log)|].main == Verdict(updated, plan, cluster.world.op, now)
      ensures Reports.EndTold(cluster.world.op, plan, updated, cluster.log[|old(cluster.log)|].main, now)
    {
      Reports.VerdictTells(cluster.world.op, plan, updated, now);
      if plan.postgresUpgrade || plan.clairPostgresUpgrade {
        var _, _ := UpdateWithCondition(updated, ComponentsCreated, False, PostgresUpgradeInProgress, RunningDatabaseUpgrade, now);
        return;
      }
      if updated.currentVersion != cluster.world.op {
        var _, _ := UpdateWithCondition(updated, ComponentsCreated, False, MigrationsInProgress, RunningMigrations, now);
        return;
      }
      if !found.hasFinalizer {
        var _ := cluster.UpdateSpec(updated.rv);
      } else {
        cluster.Move(Return);
      }
    }

    /** Orders the rendered objects and holds back what has to wait. */
    method CreationQueue(plan: Plan, objs: seq<KubeObject>) returns (queue: seq<KubeObject>, order: seq<KubeObject>)
      ensures IsCreationOrder(order, objs) && queue == Queue(plan, order)
    {
      var objects := new KubeObject[|objs|](i requires 0 <= i < |objs| => objs[i]);
      assert objects[..] == objs;
      EnsureCreationOrder(objects);
      order := objects[..];
      var deferWorkloads := (plan.storageManaged && !plan.storageReady) || !plan.databaseReady || !plan.clairDatabaseReady;
      queue := FilterDeferredWorkloads(objects[..], deferWorkloads);
    }

    /** Renders, orders, filters and applies the objects of this pass. */
    method Rollout(quay: Registry, found: Findings, now: Time) returns (proceed: bool, order: seq<KubeObject>)
      requires cluster.Valid() && cluster.world.main == Prepare(quay) && FirstFailure(found.checks, quay.components).None?
      requires Renders(found.plan, quay, cluster.world.op, found.objs)
      requires cluster.Follows(found, now)
      modifies cluster
      ensures cluster.Valid() && cluster.Continues()
      ensures IsCreationOrder(order, found.objs) && |old(cluster.log)| < |cluster.log|
      ensures cluster.log[|old(cluster.log)|]
           == Entry(Prepare(quay), Inflate(found.plan, order), Apply(quay, found.plan, Queue(found.plan, order)))
      ensures cluster.world.main == if proceed then Apply(quay, found.plan, []) else Idle
    {
      var queue;
      queue, order := CreationQueue(found.plan, found.objs);
      RendersInAnyOrder(found.plan, quay, cluster.world.op, order, found.objs);
      cluster.Inflated(found.plan, order);
      label Inflated:
      proceed := ApplyObjects(quay, found.plan, queue, now);
      cluster.Grows@Inflated();
    }

    /** The full pass over a registry that neither migrates nor upgrades a database. */
    method FullPass(quay: Registry, found: Findings, now: Time)
      requires cluster.Valid() && cluster.world.main == Prepare(quay)
      requires Renders(found.plan, quay, cluster.world.op, found.objs)
      requires cluster.Follows(found, now)
      modifies cluster
      ensures cluster.Valid() && cluster.Continues() && cluster.world.main == Idle
    {
      var proceed := RunChecks(quay, found, now);
      if !proceed {
        return;
      }
      var applied, _ := Rollout(quay, found, now);
      if applied {
        AfterRollout(quay, found, now);
      }
    }

    /** What follows the apply loop. */
    method AfterRollout(quay: Registry, found: Findings, now: Time)
      requires cluster.Valid() && cluster.world.main == Apply(quay, found.plan, [])
      requires cluster.Follows(found, now)
      modifies cluster
      ensures cluster.Valid() && cluster.Continues() && cluster.world.main == Idle
    {
      if found.namespaceFailure {
        var conditions := RemoveCondition(quay.conditions, RolloutBlocked);
        var _ := ReconcileWithCondition(quay.(conditions := conditions), MonitoringDependencyError, NamespaceFailed, now);
        return;
      }
      var proceed := Cleanup(quay, found.plan, found, now);
      if proceed {
        Finish(quay, found.plan, found, now);
      }
    }

    method Finish(quay: Registry, plan: Plan, found: Findings, now: Time)
      requires cluster.Valid() && cluster.world.main == Settle(quay, plan)
      requires cluster.Follows(found, now)
      modifies cluster
      ensures cluster.Valid() && cluster.Continues() && cluster.world.main == Idle
    {
      var updated, _ := ReportRolledOut(quay, plan, now);
      if updated.None? {
        return;
      }
      updated := UpdateEndpoint(updated.value, plan, now);
      if updated.Some? {
        Conclude(updated.value, plan, found, now);
      }
    }

    /** Where the copy of the registry sends it. */
    method DispatchOn(quay: Registry, found: Findings, now: Time)
      requires cluster.Valid() && cluster.world.main == Dispatch(quay)
      requires Renders(found.plan, quay, cluster.world.op, found.objs)
      requires cluster.Follows(found, now)
      modifies cluster
      ensures cluster.Valid() && cluster.Continues() && cluster.world.main == Idle
      ensures old(cluster.log) <= cluster.log
    {
      if PostgresUpgradeRunning(quay) {
        var _, _, _ := CheckPostgresUpgradeStatus(quay, now);
      } else if MigrationsRunning(quay) {
        var _, _ := CheckMigrationStatus(quay, now);
      } else {
        FullPass(quay, found, now);
      }
      cluster.Grows();
    }

    /**
     One reconcile, whatever it finds and wherever its API calls fail. It reads the registry,
     and then makes exactly the moves prescribed for what it finds, until it is idle again.
     `look` is what there is to be found, given the copy that was read.
     */
    method Reconcile(look: Registry -> Findings, now: Time) returns (quay: Registry)
      requires cluster.Valid() && cluster.world.main == Idle && cluster.script.None?
      requires Sound(look, cluster.world.op)
      modifies cluster
      ensures cluster.Valid() && cluster.Continues() && cluster.world.main == Idle
      ensures old(cluster.log) <= cluster.log
      ensures IsReconcile(cluster.log[|old(cluster.log)|..], quay, look(quay), now)
      ensures forall j | |old(cluster.events)| <= j < |cluster.events| ::
                !cluster.events[j].Crash? && !cluster.events[j].ReplaceOperator?
    {
      ghost var k, states, events := |cluster.events|, cluster.states, cluster.events;
      quay := cluster.GetRegistry();
      assert Renders(look(quay).plan, quay, cluster.world.op, look(quay).objs);
      cluster.Follow(look(quay), now);
      DispatchOn(quay, look(quay), now);
      assert cluster.states[..k + 1] == states && cluster.events[..k] == events;
      LogIsReconcile(cluster.states, cluster.events, k, quay, look(quay), now);
      LogHasNoCrash(cluster.states, cluster.events, k, quay, look(quay), now);
      cluster.Forget();
    }
  }

  /** The next database job to read, or the report that all are done with. */
  function NextVisit(quay: Registry, i: nat, now: Time): Main {
    if i < |DatabaseJobs| then ReadDatabaseJob(quay, i)
    else LastWrite(WithCreated(quay, True, ComponentsCreationSuccess, ComponentsCreatedMessage, now))
  }

  lemma JobLookedAt(
    ss: seq<World>, es: seq<Event>, states: seq<World>, events: seq<Event>, n: nat, quay: Registry, i: nat, answer: Read<Job>, now: Time
  )
    requires |ss| == |es| + 1 && n <= |es| && ss <= states && events == es + [ReadJob(!answer.Failed?, now)]
    requires i < |DatabaseJobs| && ss[|es|].main == ReadDatabaseJob(quay, i)
    requires answer == Answer(ss[|es|].jobs, DatabaseJobs[i], !answer.Failed?)
    ensures if IsDone(answer) then FoundDone(states, events, n, |events|, DatabaseJobs[i])
            else FoundPending(states, events, n, |events|, DatabaseJobs[i])
  {
    assert LooksAt(states[|es|], events[|es|], DatabaseJobs[i]);
  }

  lemma VisitLogged(before: seq<Entry>, entry: Entry, more: seq<Entry>, n: nat, quay: Registry, i: nat)
    requires |before| == n + i && Visits(before, n, quay, i) && entry.main == ReadDatabaseJob(quay, i)
    ensures Visits(before + [entry] + more, n, quay, i + 1) && (before + [entry] + more)[n + i] == entry
  {
  }

  predicate IsDone(answer: Read<Job>) {
    answer.NotFound? || (answer.Found? && answer.value.active != 1 && answer.value.succeeded == 1)
  }

  ghost predicate AllFoundDone(states: seq<World>, events: seq<Event>, from: nat, count: nat)
    requires count <= |DatabaseJobs|
  {
    forall k | 0 <= k < count :: FoundDone(states, events, from, |events|, DatabaseJobs[k])
  }

  lemma FoundDoneLater(ss: seq<World>, es: seq<Event>, states: seq<World>, events: seq<Event>, from: nat, name: JobName)
    requires ss <= states && es <= events && FoundDone(ss, es, from, |es|, name)
    ensures FoundDone(states, events, from, |events|, name)
  {
    var j :| from <= j < |es| && j < |ss| && ReadDone(ss[j], es[j], name);
    assert ReadDone(states[j], events[j], name);
  }

  lemma FoundPendingLater(ss: seq<World>, es: seq<Event>, states: seq<World>, events: seq<Event>, from: nat, name: JobName)
    requires ss <= states && es <= events && FoundPending(ss, es, from, |es|, name)
    ensures FoundPending(states, events, from, |events|, name)
  {
    var j :| from <= j < |es| && j < |ss| && LooksAt(ss[j], es[j], name) && !ReadDone(ss[j], es[j], name);
    assert LooksAt(states[j], events[j], name) && !ReadDone(states[j], events[j], name);
  }

  /** One more of the database jobs has been looked at. */
  lemma VisitedOneMore(
    ss: seq<World>, es: seq<Event>, states: seq<World>, events: seq<Event>, from: nat, i: nat, done: bool
  )
    requires ss <= states && es <= events && from <= |es| && i < |DatabaseJobs| && AllFoundDone(ss, es, from, i)
    requires if done then FoundDone(states, events, |es|, |events|, DatabaseJobs[i])
             else FoundPending(states, events, |es|, |events|, DatabaseJobs[i])
    ensures if done then AllFoundDone(states, events, from, i + 1) else BothLookedAt(states, events, from, false)
    ensures done && i + 1 == |DatabaseJobs| ==> BothLookedAt(states, events, from, true)
  {
    if done {
      forall k | 0 <= k < i + 1 ensures FoundDone(states, events, from, |events|, DatabaseJobs[k]) {
        if k < i {
          FoundDoneLater(ss, es, states, events, from, DatabaseJobs[k]);
        }
      }
      assert FoundDone(states, events, from, |events|, DatabaseJobs[0]);
      assert i + 1 == |DatabaseJobs| ==> FoundDone(states, events, from, |events|, DatabaseJobs[1]);
    }
  }

  /**
   Since step `from`, the jobs of both databases were found missing or succeeded; or one of them
   was not.
   */
  ghost predicate BothLookedAt(states: seq<World>, events: seq<Event>, from: nat, done: bool) {
    var to := |events|;
    if done then FoundDone(states, events, from, to, PostgresUpgrade) && FoundDone(states, events, from, to, ClairPostgresUpgrade)
    else FoundPending(states, events, from, to, PostgresUpgrade) || FoundPending(states, events, from, to, ClairPostgresUpgrade)
  }

  /** After a look at a database job comes the next exactly if this one is missing or has succeeded. */
  lemma VerdictOrNextVisit(quay: Registry, i: nat, answer: Read<Job>, op: Version, now: Time)
    requires i < |DatabaseJobs|
    ensures AfterRead(ReadDatabaseJob(quay, i), answer, op, now) == NextVisit(quay, i + 1, now)
       <==> IsDone(answer)
  {
    WithCreatedSets(quay, True, ComponentsCreationSuccess, ComponentsCreatedMessage, now);
    if answer.Found? {
      WithCreatedSets(quay, False, PostgresUpgradeFailed, FailureMessage(answer.value, FailedDatabaseUpgrade), now);
    }
  }

  /** From `n` on, the log reads the first database jobs one after the other. */
  ghost predicate Visits(log: seq<Entry>, n: nat, quay: Registry, count: nat) {
    n + count <= |log| && forall k | 0 <= k < count :: log[n + k].main == ReadDatabaseJob(quay, k)
  }

  lemma RemovedIsNotFound(conditions: seq<Condition>)
    ensures Find(Without(conditions, RolloutBlocked), RolloutBlocked) == None
  {
    FindWithout(conditions, RolloutBlocked, RolloutBlocked);
  }

  /** How the API server answers an update of the spec. */
  lemma DefaultsAnswer(w: World, ctx: Components.Context, outcome: Outcome)
    requires w.main.Prepare? && Enabled(w, WriteDefaults(ctx, outcome))
    ensures var quay, next := w.main.quay, Step(w, WriteDefaults(ctx, outcome));
            && next.main == Idle && next.op == w.op
            && (outcome != Rejected ==>
                  next.reg == quay.(rv := quay.rv + 1, components := Components.Defaulted(ctx, quay.components)))
  {
  }

  /** How the API server answers a write. */
  lemma WriteAnswer(w: World, want: Registry, outcome: Outcome)
    requires HoldsWant(w.main) && w.main.want == want && MayLand(w, want.rv, outcome)
    ensures var next := Step(w, Write(outcome));
            if outcome == Acked
            then next.reg == want.(rv := want.rv + 1) && next.main == AfterWrite(w.main, Some(want.(rv := want.rv + 1)))
            else next.main == AfterWrite(w.main, None)
  {
  }

  /** What is found can always be rendered. */
  ghost predicate Sound(look: Registry -> Findings, op: Version) {
    forall quay: Registry :: Renders(look(quay).plan, quay, op, look(quay).objs)
  }

  lemma RendersInAnyOrder(plan: Plan, quay: Registry, op: Version, order: seq<KubeObject>, objs: seq<KubeObject>)
    requires Renders(plan, quay, op, objs) && IsCreationOrder(order, objs)
    ensures Renders(plan, quay, op, order)
  {
    SameMembers(order, objs);
    forall name | name in JobNames && RendersJob(plan, quay, op, name)
      ensures exists o | o in order :: IsJob(o) && o.payload == name
    {
      var o :| o in objs && IsJob(o) && o.payload == name;
      assert o in order;
    }
  }

  // ---- The status controller ----

  class QuayRegistryStatusReconciler {
    const cluster: Cluster

    constructor (cluster: Cluster)
      ensures this.cluster == cluster
    {
      this.cluster := cluster;
    }

    /**
     One status reconcile: what was evaluated is written over the copy that was read, unless
     there was an error. A write that is acknowledged leaves a registry that is Available
     exactly when no component was reported False, with the operator's own fields untouched.
     */
    method Reconcile(answers: Evaluator.Answers, clock: Time, now: Time, later: Time)
      returns (reg: Registry, conds: Result<seq<Condition>, string>, conditions: seq<Condition>, ok: bool, ghost outcome: Outcome)
      requires cluster.Valid() && cluster.script.None? && Evaluator.Plausible(answers)
      modifies cluster
      ensures cluster.Valid() && cluster.Continues()
      ensures conds == Evaluator.Evaluation(answers, clock)
      ensures conds.Ok? ==>
                conditions == StatusController.Overwritten(reg.conditions, conds.value, now, later) && Reflects(conditions, conds.value)
      ensures |old(cluster.events)| < |cluster.events|
      ensures cluster.events[|cluster.events| - 1]
           == if conds.Ok? then StatusWrite(conds.value, now, later, outcome) else StatusRead
      ensures ok <==> conds.Ok? && outcome == Acked
      ensures ok ==> cluster.world.reg == reg.(rv := reg.rv + 1, conditions := conditions)
      ensures ok && Fresh(cluster.states[0]) ==> reg == cluster.states[|cluster.events| - 1].reg
    {
      reg := cluster.ReadStatus();
      conds, conditions := Evaluated(reg.conditions, answers, clock, now, later);
      ok, outcome := WriteBack(reg, conds, conditions, now, later);
    }

    /** Writes what was evaluated, unless that failed. */
    method WriteBack(reg: Registry, conds: Result<seq<Condition>, string>, conditions: seq<Condition>, now: Time, later: Time)
      returns (ok: bool, ghost outcome: Outcome)
      requires cluster.Valid() && cluster.script.None? && cluster.world.status == Status.Evaluated(reg)
      requires cluster.events != [] && cluster.events[|cluster.events| - 1] == StatusRead
      requires conds.Ok? ==>
                 Evaluator.IsReport(conds.value) && conditions == StatusController.Overwritten(reg.conditions, conds.value, now, later)
      modifies cluster
      ensures cluster.Valid() && cluster.Continues()
      ensures cluster.events != [] && cluster.events[|cluster.events| - 1]
           == if conds.Ok? then StatusWrite(conds.value, now, later, outcome) else StatusRead
      ensures ok <==> conds.Ok? && outcome == Acked
      ensures ok ==> cluster.world.reg == reg.(rv := reg.rv + 1, conditions := conditions)
      ensures ok && Fresh(cluster.states[0]) ==> reg == cluster.states[|cluster.events| - 1].reg
    {
      ok, outcome := false, Rejected;
      if conds.Ok? {
        ok, outcome := cluster.UpdateStatusOf(reg, conditions, conds.value, now, later);
      }
    }

    /** Evaluates the components and glues the result into a copy of the status. */
    method Evaluated(existing: seq<Condition>, answers: Evaluator.Answers, clock: Time, now: Time, later: Time)
      returns (conds: Result<seq<Condition>, string>, conditions: seq<Condition>)
      requires Evaluator.Plausible(answers)
      ensures conds == Evaluator.Evaluation(answers, clock)
      ensures conds.Ok? ==>
                && Evaluator.IsReport(conds.value)
                && conditions == StatusController.Overwritten(existing, conds.value, now, later)
                && Reflects(conditions, conds.value)
    {
      conds := Evaluator.Evaluate(answers, clock);
      if conds.Err? {
        return conds, existing;
      }
      Evaluator.EvaluationIsReport(answers, clock);
      StatusController.AvailableIffNothingFalse(existing, answers, clock, now, later);
      var overwritten := new StatusController.Registry(existing);
      StatusController.OverwriteConditions(conds.value, overwritten, now, later);
      conditions := overwritten.conditions;
    }
  }

  /** Available says whether anything was reported as False. */
  predicate Reflects(conditions: seq<Condition>, conds: seq<Condition>) {
    var available := Find(conditions, Available);
    available.Some? && (available.value.status == True <==> !Evaluator.SomeFalse(conds))
  }

  // ---- Whatever the two of them did ----

  /** In any cluster that started fresh, the version on record is one that was migrated to. */
  lemma ClusterRecordsMigratedVersions(cluster: Cluster)
    requires cluster.Valid() && Fresh(cluster.states[0])
    ensures cluster.world.reg.currentVersion == cluster.states[0].reg.currentVersion
         || exists j | 0 <= j < |cluster.events| ::
              && cluster.events[j] == JobSucceeds(AppUpgrade) && AppUpgrade in cluster.states[j].jobs
              && cluster.states[j].jobs[AppUpgrade].renderedBy == cluster.world.reg.currentVersion
  {
    RecordedVersionsMigrated(cluster.states, cluster.events, |cluster.events|);
  }
}
