/**
 How the status controller glues fresh component conditions into a registry's status
 (controllers/quay/quayregistry_status_controller.go), and what that means over histories.
 */
module StatusController {
  import opened Wrappers
  import opened Conditions
  import opened Evaluator

  /** The part of a `QuayRegistry` object this controller rewrites. */
  class Registry {
    var conditions: seq<Condition>

    constructor (conditions: seq<Condition>)
      ensures this.conditions == conditions
    {
      this.conditions := conditions;
    }
  }

  // ---- What one call computes ----

  /** The reported condition, with the transition time of an unchanged status carried over. */
  function Merged(existing: seq<Condition>, cond: Condition): Condition {
    var current := Find(existing, cond.ctype);
    cond.(lastTransition := if current.Some? && current.value.status == cond.status
                            then current.value.lastTransition else cond.lastUpdate)
  }

  function MergeAll(existing: seq<Condition>, conds: seq<Condition>): seq<Condition>
    decreases conds
  {
    if conds == [] then existing
    else MergeAll(Put(existing, Merged(existing, conds[0])), conds[1..])
  }

  function Availability(existing: seq<Condition>, faulty: bool, now: Time, later: Time): Condition {
    var status := if faulty then False else True;
    var current := Find(existing, Available);
    Condition(Available, status, if faulty then ComponentNotReady else HealthChecksPassing,
              if faulty then SomeUnhealthy else AllHealthy,
              later,
              if current.Some? && current.value.status == status then current.value.lastTransition else now)
  }

  function Overwritten(existing: seq<Condition>, conds: seq<Condition>, now: Time, later: Time): seq<Condition> {
    var merged := MergeAll(existing, conds);
    Known(Put(merged, Availability(merged, SomeNotReady(conds), now, later)))
  }

  /** The loop of `OverwriteConditions`. */
  method MergeConditions(conds: seq<Condition>, reg: Registry) returns (faultySeen: bool)
    modifies reg
    ensures reg.conditions == MergeAll(old(reg.conditions), conds)
    ensures faultySeen == SomeNotReady(conds)
  {
    faultySeen := false;
    for i := 0 to |conds|
      invariant MergeAll(old(reg.conditions), conds) == MergeAll(reg.conditions, conds[i..])
      invariant faultySeen == exists k | 0 <= k < i :: conds[k].reason == ComponentNotReady
    {
      var cond := conds[i];
      var curCond := GetCondition(reg.conditions, cond.ctype);
      cond := cond.(lastTransition := cond.lastUpdate);
      if curCond.Some? && curCond.value.status == cond.status {
        cond := cond.(lastTransition := curCond.value.lastTransition);
      }
      reg.conditions := SetCondition(reg.conditions, cond);
      assert conds[i..][1..] == conds[i + 1..];
      if cond.reason == ComponentNotReady {
        faultySeen := true;
      }
    }
  }

  /** `now` and `later` are the two readings of the clock. */
  method OverwriteConditions(conds: seq<Condition>, reg: Registry, now: Time, later: Time)
    modifies reg
    ensures reg.conditions == Overwritten(old(reg.conditions), conds, now, later)
  {
    var faultySeen := MergeConditions(conds, reg);

    var status, message, reason := True, AllHealthy, HealthChecksPassing;
    if faultySeen {
      status, message, reason := False, SomeUnhealthy, ComponentNotReady;
    }
    var availCond := GetCondition(reg.conditions, Available);
    var transition := now;
    if availCond.Some? && availCond.value.status == status {
      transition := availCond.value.lastTransition;
    }
    var cond := Condition(Available, status, reason, message, later, transition);
    reg.conditions := SetCondition(reg.conditions, cond);
    reg.conditions := RemoveUnusedConditions(reg.conditions);
  }

  // ---- One call, type by type ----

  lemma {:induction false} FindMergeAll(existing: seq<Condition>, conds: seq<Condition>, t: ConditionType)
    requires forall i, j | 0 <= i < j < |conds| :: conds[i].ctype != conds[j].ctype
    ensures Find(MergeAll(existing, conds), t)
         == match Find(conds, t) case None => Find(existing, t) case Some(c) => Some(Merged(existing, c))
    decreases conds
  {
    if conds != [] {
      var next := Merged(existing, conds[0]);
      FindMergeAll(Put(existing, next), conds[1..], t);
      FindPut(existing, next, t);
      match Find(conds[1..], t) {
        case None =>
        case Some(c) =>
          FindPut(existing, next, c.ctype);
          var k :| 0 <= k < |conds[1..]| && conds[1..][k] == c;
          assert conds[0].ctype != conds[k + 1].ctype;
      }
    }
  }

  lemma FindOverwritten(existing: seq<Condition>, conds: seq<Condition>, now: Time, later: Time, t: ConditionType)
    requires IsReport(conds) && IsKnown(t) && t != Available
    ensures Find(Overwritten(existing, conds, now, later), t)
         == match Find(conds, t) case None => Find(existing, t) case Some(c) => Some(Merged(existing, c))
  {
    var merged := MergeAll(existing, conds);
    var available := Availability(merged, SomeNotReady(conds), now, later);
    FindKnown(Put(merged, available), t);
    FindPut(merged, available, t);
    FindMergeAll(existing, conds, t);
  }

  /** A status reconcile leaves the main controller's two conditions exactly as they were. */
  lemma OverwrittenKeepsOperatorConditions(existing: seq<Condition>, conds: seq<Condition>, now: Time, later: Time)
    requires IsReport(conds)
    ensures Find(Overwritten(existing, conds, now, later), ComponentsCreated) == Find(existing, ComponentsCreated)
    ensures Find(Overwritten(existing, conds, now, later), RolloutBlocked) == Find(existing, RolloutBlocked)
  {
    FindOverwritten(existing, conds, now, later, ComponentsCreated);
    FindOverwritten(existing, conds, now, later, RolloutBlocked);
  }

  lemma {:induction false} MergeAllDistinct(existing: seq<Condition>, conds: seq<Condition>)
    requires Distinct(existing)
    ensures Distinct(MergeAll(existing, conds))
    decreases conds
  {
    if conds != [] {
      PutDistinct(existing, Merged(existing, conds[0]));
      MergeAllDistinct(Put(existing, Merged(existing, conds[0])), conds[1..]);
    }
  }

  lemma OverwrittenDistinct(existing: seq<Condition>, conds: seq<Condition>, now: Time, later: Time)
    requires Distinct(existing)
    ensures Distinct(Overwritten(existing, conds, now, later))
    ensures forall c | c in Overwritten(existing, conds, now, later) :: IsKnown(c.ctype)
  {
    var merged := MergeAll(existing, conds);
    var available := Availability(merged, SomeNotReady(conds), now, later);
    MergeAllDistinct(existing, conds);
    PutDistinct(merged, available);
    KnownDistinct(Put(merged, available));
    KnownMembers(Put(merged, available));
  }

  // ---- Available ----

  /**
   After a successful status reconcile the registry is Available exactly when the evaluation
   reported nothing as False, whatever reasons the False conditions carry.
   */
  lemma AvailableIffNothingFalse(existing: seq<Condition>, a: Answers, clock: Time, now: Time, later: Time)
    requires Plausible(a) && Evaluation(a, clock).Ok?
    ensures var conds := Evaluation(a, clock).value;
            var available := Find(Overwritten(existing, conds, now, later), Available);
            available.Some? && (available.value.status == True <==> !SomeFalse(conds))
                            && (available.value.status == False <==> SomeFalse(conds))
  {
    var conds := Evaluation(a, clock).value;
    var merged := MergeAll(existing, conds);
    var available := Availability(merged, SomeNotReady(conds), now, later);
    NotReadyIffFalse(a, clock);
    FindKnown(Put(merged, available), Available);
    FindPut(merged, available, Available);
  }

  /**
   What a status reconcile says of the registry as a whole, and since when. A verdict that stays
   keeps its transition time; a new one is dated at the first reading of the clock.
   */
  lemma AvailableTold(existing: seq<Condition>, conds: seq<Condition>, now: Time, later: Time)
    requires IsReport(conds)
    ensures var was, faulty := Find(existing, Available), exists i | 0 <= i < |conds| :: conds[i].reason == ComponentNotReady;
            var status := if faulty then False else True;
            var reason := if faulty then ComponentNotReady else HealthChecksPassing;
            var message := if faulty then SomeUnhealthy else AllHealthy;
            var since := if was.Some? && was.value.status == status then was.value.lastTransition else now;
            Find(Overwritten(existing, conds, now, later), Available) == Some(Condition(Available, status, reason, message, later, since))
  {
    var merged := MergeAll(existing, conds);
    var available := Availability(merged, SomeNotReady(conds), now, later);
    FindMergeAll(existing, conds, Available);
    FindKnown(Put(merged, available), Available);
    FindPut(merged, available, Available);
  }

  /** All eleven checkers saying True makes the registry available. */
  lemma HealthyIsAvailable(existing: seq<Condition>, a: Answers, clock: Time, now: Time, later: Time)
    requires Plausible(a) && EveryoneTrue(a)
    ensures Evaluation(a, clock).Ok?
    ensures var available := Find(Overwritten(existing, Evaluation(a, clock).value, now, later), Available);
            available.Some? && available.value.status == True && available.value.reason == HealthChecksPassing
            && available.value.message == AllHealthy
  {
    AllHealthyIff(a, clock);
    var conds := Evaluation(a, clock).value;
    EvaluationIsReport(a, clock);
    NotReadyIffFalse(a, clock);
    assert !SomeFalse(conds) && !SomeNotReady(conds);
    AvailableTold(existing, conds, now, later);
  }

  // ---- Transition times over histories ----

  /** A successful write to the status: by this controller, or by the main one. */
  datatype StatusUpdate =
    | Evaluated(conds: seq<Condition>, now: Time, later: Time)
    | Operator(cond: Condition)
    | Unblocked

  predicate ValidUpdate(u: StatusUpdate) {
    match u
    case Evaluated(conds, _, _) => IsReport(conds)
    case Operator(c) => c.ctype in {RolloutBlocked, ComponentsCreated}
    case Unblocked => true
  }

  function Updated(conds: seq<Condition>, u: StatusUpdate): seq<Condition> {
    match u
    case Evaluated(reported, now, later) => Overwritten(conds, reported, now, later)
    case Operator(c) => Put(conds, c)
    case Unblocked => Without(conds, RolloutBlocked)
  }

  function After(conds: seq<Condition>, history: seq<StatusUpdate>): seq<Condition> {
    if history == [] then conds
    else Updated(After(conds, history[..|history| - 1]), history[|history| - 1])
  }

  function SaidNext(before: seq<Condition>, u: StatusUpdate, t: ConditionType): seq<Condition> {
    if u.Evaluated? && Find(u.conds, t).Some? then before + [Find(u.conds, t).value] else before
  }

  /** What the evaluations of a history said about one component, oldest first. */
  function Said(history: seq<StatusUpdate>, t: ConditionType): seq<Condition> {
    if history == [] then []
    else SaidNext(Said(history[..|history| - 1], t), history[|history| - 1], t)
  }

  /** When the last report opened, or continued, its unbroken run of equal statuses. */
  function RunStart(reports: seq<Condition>): Time
    requires reports != []
  {
    var last := |reports| - 1;
    if last > 0 && reports[last].status == reports[last - 1].status then RunStart(reports[..last])
    else reports[last].lastUpdate
  }

  /** A status agrees with the reports so far: the last one, dated back to its run. */
  predicate Tracks(conds: seq<Condition>, said: seq<Condition>, t: ConditionType) {
    Find(conds, t) ==
    if said == [] then None else Some(said[|said| - 1].(lastTransition := RunStart(said)))
  }

  /** The transition time a report ends up with continues the run it belongs to. */
  lemma MergedContinuesRun(before: seq<Condition>, said: seq<Condition>, c: Condition)
    requires Tracks(before, said, c.ctype)
    ensures Merged(before, c) == c.(lastTransition := RunStart(said + [c]))
  {
    assert (said + [c])[..|said|] == said;
  }

  lemma EvaluationTracks(
    before: seq<Condition>, said: seq<Condition>, reported: seq<Condition>, now: Time, later: Time, kind: ComponentKind
  )
    requires IsReport(reported) && Tracks(before, said, ComponentReady(kind))
    ensures var u := Evaluated(reported, now, later);
            Tracks(Updated(before, u), SaidNext(said, u, ComponentReady(kind)), ComponentReady(kind))
  {
    var t := ComponentReady(kind);
    FindOverwritten(before, reported, now, later, t);
    if Find(reported, t).Some? {
      MergedContinuesRun(before, said, Find(reported, t).value);
    }
  }

  lemma UpdateTracks(before: seq<Condition>, said: seq<Condition>, u: StatusUpdate, kind: ComponentKind)
    requires ValidUpdate(u) && Tracks(before, said, ComponentReady(kind))
    ensures Tracks(Updated(before, u), SaidNext(said, u, ComponentReady(kind)), ComponentReady(kind))
  {
    var t := ComponentReady(kind);
    match u
    case Evaluated(reported, now, later) => EvaluationTracks(before, said, reported, now, later, kind);
    case Operator(c) => FindPut(before, c, t);
    case Unblocked => FindWithout(before, RolloutBlocked, t);
  }

  /**
   A component's transition time is the update time of the first report of the current run of
   equal statuses, however writes of the two controllers alternate.
   */
  lemma {:induction false} TransitionIsRunStart(conds: seq<Condition>, history: seq<StatusUpdate>, kind: ComponentKind)
    requires Find(conds, ComponentReady(kind)) == None
    requires forall u | u in history :: ValidUpdate(u)
    ensures Tracks(After(conds, history), Said(history, ComponentReady(kind)), ComponentReady(kind))
  {
    if history != [] {
      var earlier := history[..|history| - 1];
      TransitionIsRunStart(conds, earlier, kind);
      UpdateTracks(After(conds, earlier), Said(earlier, ComponentReady(kind)), history[|history| - 1], kind);
    }
  }
}
