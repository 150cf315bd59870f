/**
 The upgrade protocol as a transition system: one registry object and its upgrade jobs, the
 main controller stopped between any two API calls, the status controller between its read
 and its write, and a cluster that does as it likes in between.

 `Main` is the main controller's program counter together with what it holds in memory; the
 module `Reconciler` runs the controller's code and checks that it moves this counter
 exactly as `Step` says.
 */
module Protocol {
  import opened Wrappers
  import opened Conditions
  import opened CreationOrder
  import StatusController
  import Evaluator
  import Components

  type Version = string

  /**
   `rv` is the resource version the API server bumps on every write, `components` what the
   protocol needs of the spec; the rest is the status.
   */
  datatype Registry = Registry(
    rv: nat, components: seq<Components.Component>,
    currentVersion: Version, endpoint: string, conditions: seq<Condition>
  )

  function CreatedReason(reg: Registry): Option<Reason> {
    match Find(reg.conditions, ComponentsCreated)
    case None => None
    case Some(c) => Some(c.reason)
  }

  predicate MigrationsRunning(reg: Registry) {
    CreatedReason(reg) == Some(MigrationsInProgress)
  }

  predicate PostgresUpgradeRunning(reg: Registry) {
    CreatedReason(reg) in {Some(PostgresUpgradeInProgress), Some(PostgresUpgradeFailed)}
  }

  // ---- Jobs ----

  /** quay-app-upgrade, quay-postgres-upgrade and clair-postgres-upgrade */
  datatype JobName = AppUpgrade | PostgresUpgrade | ClairPostgresUpgrade

  const JobNames: set<JobName> := {AppUpgrade, PostgresUpgrade, ClairPostgresUpgrade}

  const DatabaseJobs: seq<JobName> := [PostgresUpgrade, ClairPostgresUpgrade]

  /** `failure` is the message of the job's Failed condition. */
  datatype Job = JobState(renderedBy: Version, active: nat, succeeded: nat, failure: Option<Message>, terminating: bool)

  predicate Finished(job: Job) {
    job.succeeded >= 1 || job.failure.Some?
  }

  // ---- What a full pass over the registry decides before it writes ----

  datatype Plan = Plan(
    storageManaged: bool, storageReady: bool,
    databaseReady: bool, clairDatabaseReady: bool,
    databaseConfigChanged: bool,
    postgresUpgrade: bool, clairPostgresUpgrade: bool,
    endpoint: string
  )

  /** The payload of a job object says which job it is. */
  type KubeObject = Object<JobName>

  predicate Defers(plan: Plan) {
    (plan.storageManaged && !plan.storageReady) || !plan.databaseReady || !plan.clairDatabaseReady
  }

  predicate UpgradeOverlay(plan: Plan, quay: Registry, op: Version) {
    quay.currentVersion != op || plan.databaseConfigChanged
  }

  /** The jobs among the rendered objects. */
  predicate RendersJob(plan: Plan, quay: Registry, op: Version, name: JobName) {
    || (name == AppUpgrade && UpgradeOverlay(plan, quay, op) && (!plan.storageManaged || plan.storageReady))
    || (name == PostgresUpgrade && plan.postgresUpgrade)
    || (name == ClairPostgresUpgrade && plan.clairPostgresUpgrade)
  }

  predicate IsJob(o: KubeObject) {
    o.kind.Job?
  }

  /** Jobs carry no infrastructure label. */
  predicate Renders(plan: Plan, quay: Registry, op: Version, objs: seq<KubeObject>) {
    && (forall o | o in objs :: IsJob(o) ==> RendersJob(plan, quay, op, o.payload) && IsDeferrable(o))
    && (forall name | name in JobNames :: RendersJob(plan, quay, op, name) ==>
          exists o | o in objs :: IsJob(o) && o.payload == name)
  }

  /** What a pass walks over, once the objects are in an order of creation. */
  function Queue(plan: Plan, order: seq<KubeObject>): seq<KubeObject> {
    Filtered(order, Defers(plan))
  }

  // ---- Control states ----

  /** `quay` is the copy of the registry this reconcile read first, `updated` a later copy. */
  datatype Main =
    | Idle
    | ReadMigrationJob(quay: Registry)
    | ReadDatabaseJob(quay: Registry, next: nat)
    | Prepare(quay: Registry)
    | Apply(quay: Registry, plan: Plan, todo: seq<KubeObject>)
    | DeleteJob(quay: Registry, plan: Plan, todo: seq<KubeObject>)
    | CreateJob(quay: Registry, plan: Plan, todo: seq<KubeObject>)
    | Failing(quay: Registry, reason: Reason, message: Message)
    | ReportCleanup(quay: Registry, plan: Plan, want: Registry)
    | Settle(quay: Registry, plan: Plan)
    | ReportRollout(plan: Plan, want: Registry)
    | Decide(plan: Plan, updated: Registry)
    | ReportEndpoint(plan: Plan, want: Registry)
    | Gate(plan: Plan, updated: Registry)
    | Finalize(updated: Registry)
    | LastWrite(want: Registry)

  datatype Status = Resting | Evaluated(reg: Registry)

  /** `done` records which version's jobs have succeeded; nothing in the code reads it. */
  datatype World = World(
    reg: Registry,
    jobs: map<JobName, Job>,
    op: Version,
    main: Main,
    status: Status,
    done: set<(JobName, Version)>
  )

  // ---- Events ----

  /** A write landed and was acknowledged, landed unknown to the caller, or did not land. */
  datatype Outcome = Acked | Lost | Rejected

  datatype Event =
    // the cluster and its users
    | EditSpec(components: seq<Components.Component>)
    | JobPods(name: JobName, active: nat)
    | JobSucceeds(name: JobName)
    | JobFails(name: JobName, message: Message)
    | JobMarked(name: JobName)
    | JobGone(name: JobName)
    // the operator's process
    | Crash
    | ReplaceOperator(version: Version)
    // the status controller
    | StatusRead
    | StatusWrite(conds: seq<Condition>, now: Time, later: Time, outcome: Outcome)
    // the main controller
    | Begin
    | Return
    | Block(reason: Reason, message: Message, now: Time)
    | TouchSpec(outcome: Outcome)
    | WriteDefaults(ctx: Components.Context, outcome: Outcome)
    | Inflate(plan: Plan, order: seq<KubeObject>)
    | ApplyObject(ok: bool)
    | ReadJob(readable: bool, now: Time)
    | RemoveJob(outcome: Outcome)
    | AddJob(outcome: Outcome)
    | CleanupFails(message: Message, now: Time)
    | CleanupDone
    | Proceed(now: Time)
    | Write(outcome: Outcome)

  // ---- Steps ----

  function Blocked(quay: Registry, reason: Reason, message: Message, now: Time): Registry {
    quay.(conditions := Put(quay.conditions, Condition(RolloutBlocked, True, reason, message, now, now)))
  }

  function WithCreated(quay: Registry, status: ConditionStatus, reason: Reason, message: Message, now: Time): Registry {
    quay.(conditions := Put(quay.conditions, Condition(ComponentsCreated, status, reason, message, now, now)))
  }

  function Unblocked(quay: Registry): Registry {
    quay.(conditions := Without(quay.conditions, RolloutBlocked))
  }

  function RolledOut(quay: Registry, now: Time): Registry {
    quay.(conditions := Put(Without(quay.conditions, RolloutBlocked),
                            Condition(RolloutBlocked, False, ComponentsCreationSuccess,
                                      ObjectsApplied, now, now)))
  }

  /** Where Reconcile goes after reading the registry. */
  function Dispatch(quay: Registry): Main {
    if PostgresUpgradeRunning(quay) then ReadDatabaseJob(quay, 0)
    else if MigrationsRunning(quay) then ReadMigrationJob(quay)
    else Prepare(quay)
  }

  function FailureMessage(job: Job, fallback: Message): Message {
    if job.failure.Some? then job.failure.value else fallback
  }

  /** The verdict of checkMigrationStatus on the upgrade job, if there is one. */
  function MigrationVerdict(quay: Registry, job: Option<Job>, op: Version, now: Time): Main {
    match job
    case None => LastWrite(WithCreated(quay, False, MigrationsJobMissing, UpgradeJobNotFound, now))
    case Some(j) =>
      if j.active == 1 then Idle
      else if j.succeeded == 1 then
        LastWrite(WithCreated(quay, True, ComponentsCreationSuccess, ComponentsCreatedMessage, now)
                  .(currentVersion := op))
      else LastWrite(WithCreated(quay, False, MigrationsFailed, FailureMessage(j, FailedMigrations), now))
  }

  /** The verdict of checkPostgresUpgradeStatus on one database job. */
  function DatabaseVerdict(quay: Registry, next: nat, job: Option<Job>, now: Time): Main {
    if job.None? || (job.value.active != 1 && job.value.succeeded == 1) then
      if next + 1 < |DatabaseJobs| then ReadDatabaseJob(quay, next + 1)
      else LastWrite(WithCreated(quay, True, ComponentsCreationSuccess, ComponentsCreatedMessage, now))
    else if job.value.active == 1 then Idle
    else LastWrite(WithCreated(quay, False, PostgresUpgradeFailed,
                               FailureMessage(job.value, FailedDatabaseUpgrade), now))
  }

  /** createOrUpdateObject leaves this job alone. */
  predicate KeepsJob(job: Job, quay: Registry, op: Version) {
    (job.succeeded >= 1 && quay.currentVersion == op) || job.active >= 1
  }

  /** The end of Reconcile, once the endpoint is up to date. */
  function Verdict(updated: Registry, plan: Plan, op: Version, now: Time): Main {
    if plan.postgresUpgrade || plan.clairPostgresUpgrade then
      LastWrite(WithCreated(updated, False, PostgresUpgradeInProgress, RunningDatabaseUpgrade, now))
    else if updated.currentVersion != op then
      LastWrite(WithCreated(updated, False, MigrationsInProgress, RunningMigrations, now))
    else Finalize(updated)
  }

  function Lookup(jobs: map<JobName, Job>, name: JobName): Option<Job> {
    if name in jobs then Some(jobs[name]) else None
  }

  predicate HoldsQuay(main: Main) {
    main.ReadMigrationJob? || main.ReadDatabaseJob? || main.Prepare? || main.Apply? || main.DeleteJob?
    || main.CreateJob? || main.Failing? || main.ReportCleanup? || main.Settle?
  }

  predicate HoldsWant(main: Main) {
    main.ReportCleanup? || main.ReportRollout? || main.ReportEndpoint? || main.LastWrite?
  }

  /** A landing write needs the resource version the writer read. */
  predicate MayLand(w: World, rv: nat, outcome: Outcome) {
    outcome == Rejected || rv == w.reg.rv
  }

  predicate Enabled(w: World, e: Event) {
    match e
    case EditSpec(_) => true
    case JobPods(name, _) => name in w.jobs && !Finished(w.jobs[name])
    case JobSucceeds(name) => name in w.jobs && !Finished(w.jobs[name])
    case JobFails(name, _) => name in w.jobs && !Finished(w.jobs[name])
    case JobMarked(name) => name in w.jobs
    case JobGone(name) => name in w.jobs
    case Crash => true
    case ReplaceOperator(version) => SafeToReplace(w, version)
    case StatusRead => true
    case StatusWrite(conds, _, _, outcome) =>
      w.status.Evaluated? && Evaluator.IsReport(conds) && MayLand(w, w.status.reg.rv, outcome)
    case Begin => w.main == Idle
    case Return => w.main.Prepare? || w.main.Finalize?
    case Block(reason, message, _) =>
      w.main.Prepare? || (w.main.Apply? && w.main.todo == [])
      || (w.main.Failing? && w.main.reason == reason && w.main.message == message)
    case TouchSpec(outcome) =>
      (w.main.Prepare? && MayLand(w, w.main.quay.rv, outcome))
      || (w.main.Finalize? && MayLand(w, w.main.updated.rv, outcome))
    case WriteDefaults(ctx, outcome) =>
      w.main.Prepare? && Components.Incomplete(ctx, w.main.quay.components) && MayLand(w, w.main.quay.rv, outcome)
    case Inflate(plan, order) => w.main.Prepare? && Renders(plan, w.main.quay, w.op, order) && WorkloadsLast(order)
    case ApplyObject(_) => w.main.Apply? && w.main.todo != [] && !IsJob(w.main.todo[0])
    case ReadJob(_, _) =>
      w.main.ReadMigrationJob? || (w.main.ReadDatabaseJob? && w.main.next < |DatabaseJobs|)
      || (w.main.Apply? && w.main.todo != [] && IsJob(w.main.todo[0]))
    case RemoveJob(_) => w.main.DeleteJob? && w.main.todo != []
    case AddJob(_) => w.main.CreateJob? && w.main.todo != []
    case CleanupFails(_, _) => w.main.Apply? && w.main.todo == []
    case CleanupDone => w.main.Apply? && w.main.todo == []
    case Proceed(_) => w.main.Settle? || w.main.Decide? || w.main.Gate?
    case Write(outcome) => HoldsWant(w.main) && MayLand(w, w.main.want.rv, outcome)
  }

  /**
   No job of another version is watched, or could be: if there is a job that the new operator did
   not render, no migration is reported in progress, and the job is finished or the new operator
   has nothing to migrate. An operator at rest always meets this.
   */
  predicate SafeToReplace(w: World, version: Version) {
    AppUpgrade in w.jobs && w.jobs[AppUpgrade].renderedBy != version ==>
      && !MigrationsRunning(w.reg)
      && (Finished(w.jobs[AppUpgrade]) || w.reg.currentVersion == version)
  }

  function Bumped(reg: Registry): Registry {
    reg.(rv := reg.rv + 1)
  }

  /** The stored registry after a status write of `want`. */
  function Stored(reg: Registry, want: Registry, outcome: Outcome): Registry {
    if outcome == Rejected then reg else want.(rv := reg.rv + 1)
  }

  function JobStep(w: World, e: Event): World
    requires e.JobPods? || e.JobSucceeds? || e.JobFails? || e.JobMarked? || e.JobGone?
    requires e.name in w.jobs
  {
    var job := w.jobs[e.name];
    match e
    case JobPods(name, active) => w.(jobs := w.jobs[name := job.(active := active)])
    case JobSucceeds(name) =>
      w.(jobs := w.jobs[name := job.(active := 0, succeeded := 1)], done := w.done + {(name, job.renderedBy)})
    case JobFails(name, message) => w.(jobs := w.jobs[name := job.(active := 0, failure := Some(message))])
    case JobMarked(name) => w.(jobs := w.jobs[name := job.(terminating := true)])
    case JobGone(name) => w.(jobs := w.jobs - {name})
  }

  /** What the controller makes of the answer to a read of a job. */
  function AfterRead(main: Main, answer: Read<Job>, op: Version, now: Time): Main
    requires main.ReadMigrationJob? || (main.ReadDatabaseJob? && main.next < |DatabaseJobs|)
             || (main.Apply? && main.todo != [])
  {
    match main
    case ReadMigrationJob(quay) =>
      (match answer
       case Failed(_) => Idle
       case NotFound => MigrationVerdict(quay, None, op, now)
       case Found(job) => MigrationVerdict(quay, Some(job), op, now))
    case ReadDatabaseJob(quay, next) =>
      (match answer
       case Failed(_) => Idle
       case NotFound => DatabaseVerdict(quay, next, None, now)
       case Found(job) => DatabaseVerdict(quay, next, Some(job), now))
    case Apply(quay, plan, todo) =>
      // any error counts as "no such job"
      if answer.Found? && KeepsJob(answer.value, quay, op) then Apply(quay, plan, todo[1..])
      else DeleteJob(quay, plan, todo)
  }

  /** The job a read in this state is about. */
  function JobRead(main: Main): JobName
    requires main.ReadMigrationJob? || (main.ReadDatabaseJob? && main.next < |DatabaseJobs|)
             || (main.Apply? && main.todo != [])
  {
    match main
    case ReadMigrationJob(_) => AppUpgrade
    case ReadDatabaseJob(_, next) => DatabaseJobs[next]
    case Apply(_, _, todo) => todo[0].payload
  }

  function Answer(jobs: map<JobName, Job>, name: JobName, readable: bool): Read<Job> {
    if !readable then Failed("")
    else if name in jobs then Found(jobs[name])
    else NotFound
  }

  /** An object could not be brought about. */
  function ObjectFailing(quay: Registry): Main {
    Failing(quay, ComponentCreationFailed, ObjectFailed)
  }

  /** Foreground deletion marks the job; an error is reported as a blocked rollout. */
  function RemoveStep(w: World, outcome: Outcome): World
    requires w.main.DeleteJob? && w.main.todo != []
  {
    var name := w.main.todo[0].payload;
    var jobs := if outcome != Rejected && name in w.jobs then w.jobs[name := w.jobs[name].(terminating := true)] else w.jobs;
    w.(jobs := jobs,
       main := if outcome == Acked then CreateJob(w.main.quay, w.main.plan, w.main.todo) else ObjectFailing(w.main.quay))
  }

  /** Creating over an existing job, terminating or not, is answered with AlreadyExists. */
  function AddStep(w: World, outcome: Outcome): World
    requires w.main.CreateJob? && w.main.todo != []
  {
    var name := w.main.todo[0].payload;
    var absent := outcome != Rejected && name !in w.jobs;
    w.(jobs := if absent then w.jobs[name := JobState(w.op, 0, 0, None, false)] else w.jobs,
       main := if outcome != Acked then ObjectFailing(w.main.quay)
               else if absent then Apply(w.main.quay, w.main.plan, w.main.todo[1..])
               else Idle)
  }

  /** Where the controller goes after a write; `stored` is what an acknowledged one left behind. */
  function AfterWrite(main: Main, stored: Option<Registry>): Main
    requires HoldsWant(main)
  {
    match main
    case ReportCleanup(quay, plan, _) => if stored.Some? then Settle(quay, plan) else Failing(quay, ConfigInvalid, CleanupImpossible)
    case ReportRollout(plan, _) => if stored.Some? then Decide(plan, stored.value) else Idle
    case ReportEndpoint(plan, _) => if stored.Some? then Gate(plan, stored.value) else Idle
    case LastWrite(_) => Idle
  }

  function WriteStep(w: World, outcome: Outcome): World
    requires HoldsWant(w.main)
  {
    var reg := Stored(w.reg, w.main.want, outcome);
    w.(reg := reg, main := AfterWrite(w.main, if outcome == Acked then Some(reg) else None))
  }

  /** The copy a blocked rollout is reported on: past the loop, one without the old condition. */
  function BlockBase(main: Main): Registry
    requires main.Prepare? || main.Apply? || main.Failing?
  {
    if main.Apply? then Unblocked(main.quay) else main.quay
  }

  function ProceedStep(w: World, now: Time): Main
    requires w.main.Settle? || w.main.Decide? || w.main.Gate?
  {
    match w.main
    case Settle(quay, plan) => ReportRollout(plan, RolledOut(quay, now))
    case Decide(plan, updated) =>
      if Defers(plan) then Idle
      else if plan.endpoint != updated.endpoint then ReportEndpoint(plan, updated.(endpoint := plan.endpoint))
      else Verdict(updated, plan, w.op, now)
    case Gate(plan, updated) => Verdict(updated, plan, w.op, now)
  }

  function Step(w: World, e: Event): World
    requires Enabled(w, e)
  {
    match e
    case EditSpec(components) => w.(reg := Bumped(w.reg).(components := components))
    case JobPods(_, _) => JobStep(w, e)
    case JobSucceeds(_) => JobStep(w, e)
    case JobFails(_, _) => JobStep(w, e)
    case JobMarked(_) => JobStep(w, e)
    case JobGone(_) => JobStep(w, e)
    case Crash => w.(main := Idle, status := Resting)
    case ReplaceOperator(version) => w.(op := version, main := Idle, status := Resting)
    case StatusRead => w.(status := Evaluated(w.reg))
    case StatusWrite(conds, now, later, outcome) =>
      var snapshot := w.status.reg;
      w.(reg := Stored(w.reg, snapshot.(conditions := StatusController.Overwritten(snapshot.conditions, conds, now, later)), outcome),
         status := Resting)
    case Begin => w.(main := Dispatch(w.reg))
    case Return => w.(main := Idle)
    case Block(reason, message, now) =>
      w.(main := LastWrite(Blocked(BlockBase(w.main), reason, message, now)))
    case TouchSpec(outcome) => w.(reg := if outcome == Rejected then w.reg else Bumped(w.reg), main := Idle)
    case WriteDefaults(ctx, outcome) =>
      var complete := w.main.quay.(components := Components.Defaulted(ctx, w.main.quay.components));
      w.(reg := Stored(w.reg, complete, outcome), main := Idle)
    case Inflate(plan, order) => w.(main := Apply(w.main.quay, plan, Queue(plan, order)))
    case ApplyObject(ok) =>
      w.(main := if ok then Apply(w.main.quay, w.main.plan, w.main.todo[1..]) else ObjectFailing(w.main.quay))
    case ReadJob(readable, now) => w.(main := AfterRead(w.main, Answer(w.jobs, JobRead(w.main), readable), w.op, now))
    case RemoveJob(outcome) => RemoveStep(w, outcome)
    case AddJob(outcome) => AddStep(w, outcome)
    case CleanupFails(message, now) =>
      w.(main := ReportCleanup(w.main.quay, w.main.plan, Blocked(w.main.quay, ComponentCreationFailed, message, now)))
    case CleanupDone => w.(main := Settle(w.main.quay, w.main.plan))
    case Proceed(now) => w.(main := ProceedStep(w, now))
    case Write(outcome) => WriteStep(w, outcome)
  }

  // ---- Runs ----

  /** `events[i]` takes `states[i]` to `states[i + 1]`. */
  ghost predicate IsRun(states: seq<World>, events: seq<Event>) {
    && |states| == |events| + 1
    && forall i | 0 <= i < |events| :: Enabled(states[i], events[i]) && states[i + 1] == Step(states[i], events[i])
  }
}
