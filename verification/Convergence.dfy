/**
 How far an upgrade is from its end when nothing is going on, and what a full pass has to find
 for it to come nearer.
 */
module Convergence {
  import opened Wrappers
  import opened Conditions
  import opened CreationOrder
  import opened Protocol
  import opened MigrationSafety
  import opened Phases

  /** Nobody is in the middle of anything: the operator is idle and its job, if any, is over. */
  ghost predicate Settled(w: World) {
    && Inv(w) && w.main == Idle && !PostgresUpgradeRunning(w.reg)
    && (AppUpgrade in w.jobs ==> Finished(w.jobs[AppUpgrade]) && !w.jobs[AppUpgrade].terminating)
  }

  /** How many undisturbed rounds are left. */
  function Rank(w: World): (r: nat)
    ensures r <= 4
  {
    if w.reg.currentVersion == w.op then 0
    else if MigrationsRunning(w.reg) then
      if AppUpgrade !in w.jobs then 3
      else if w.jobs[AppUpgrade].succeeded == 1 then 1
      else 4
    else if AppUpgrade !in w.jobs then 2
    else 3
  }

  /**
   What a full pass finds when nothing is pending: databases and storage are ready, no
   database needs an upgrade, and the upgrade job is the only job rendered.
   */
  datatype Input = Input(plan: Plan, order: seq<KubeObject>, before: seq<KubeObject>, job: KubeObject, later: seq<KubeObject>)

  ghost predicate Good(input: Input, quay: Registry, op: Version) {
    && !Defers(input.plan) && !input.plan.postgresUpgrade && !input.plan.clairPostgresUpgrade
    && Renders(input.plan, quay, op, input.order) && WorkloadsLast(input.order)
    && Queue(input.plan, input.order) == input.before + [input.job] + input.later
    && IsAppJob(input.job)
    && (forall i | 0 <= i < |input.before| :: !IsJob(input.before[i]))
    && (forall i | 0 <= i < |input.later| :: !IsJob(input.later[i]))
  }

  lemma GoodForVersion(input: Input, quay: Registry, other: Registry, op: Version)
    requires Good(input, quay, op) && quay.currentVersion == other.currentVersion
    ensures Good(input, other, op)
  {
    assert forall name :: RendersJob(input.plan, quay, op, name) == RendersJob(input.plan, other, op, name);
    forall name | RendersJob(input.plan, other, op, name)
      ensures exists o | o in input.order :: IsJob(o) && o.payload == name
    {
      assert RendersJob(input.plan, quay, op, name);
    }
  }
}
