/**
 Health checkers whose answer the status aggregation depends on in detail: deployments
 (pkg/cmpstatus/deploy.go), databases (pkg/cmpstatus/database_status.go) and monitoring
 (pkg/cmpstatus/monitoring.go).
 */
module Checkers {
  import opened Wrappers
  import opened Conditions

  type Checked = Result<Condition, string>

  // ---- What a checker may answer ----

  /** Healthy, or not managed by the operator. */
  predicate Healthy(c: Condition) {
    c.status == True && c.reason in {ComponentIsReady, ComponentUnmanaged}
  }

  /** The answer every checker gives about an unhealthy component, the databases excepted. */
  predicate PlainReport(c: Condition, kind: ComponentKind) {
    c.ctype == ComponentReady(kind) && (Healthy(c) || (c.status == False && c.reason == ComponentNotReady))
  }

  predicate DatabaseReport(c: Condition, kind: ComponentKind) {
    PlainReport(c, kind)
    || (c.ctype == ComponentReady(kind) && c.status == False && c.reason in {PVCPending, PVCProvisioningFailed})
  }

  // ---- Deployments ----

  datatype DeploymentCondition = DeploymentCondition(isAvailable: bool, status: ConditionStatus, message: string)

  datatype Deployment = Deployment(
    name: string,
    owned: bool,
    claims: seq<Option<string>>,
    availableReplicas: nat,
    conditions: seq<DeploymentCondition>
  )

  /** The first condition of type Available. */
  function AvailableCondition(conds: seq<DeploymentCondition>): (r: Option<DeploymentCondition>)
    ensures r.Some? ==> exists i | 0 <= i < |conds| ::
              conds[i] == r.value && r.value.isAvailable && forall j | 0 <= j < i :: !conds[j].isAvailable
    ensures r.None? <==> forall i | 0 <= i < |conds| :: !conds[i].isAvailable
  {
    if conds == [] then None
    else if conds[0].isAvailable then Some(conds[0])
    else
      var rest := AvailableCondition(conds[1..]);
      assert rest.Some? ==> exists i | 0 <= i < |conds| ::
          conds[i] == rest.value && forall j | 0 <= j < i :: !conds[j].isAvailable by {
        if rest.Some? {
          var i :| 0 <= i < |conds[1..]| && conds[1..][i] == rest.value && forall j | 0 <= j < i :: !conds[1..][j].isAvailable;
          assert conds[i + 1] == rest.value && forall j | 0 <= j < i + 1 :: !conds[j].isAvailable;
        }
      }
      rest
  }

  /** A deployment is up when a replica is available and its first Available condition holds. */
  predicate IsUp(dep: Deployment) {
    dep.availableReplicas > 0 && AvailableCondition(dep.conditions).Some?
    && AvailableCondition(dep.conditions).value.status == True
  }

  /** The answer leaves the condition type for the caller to set. */
  function CheckDeployment(dep: Deployment, now: Time): (c: Condition)
    ensures c.status == (if IsUp(dep) then True else False)
    ensures PlainReport(c.(ctype := ComponentReady(Quay)), Quay)
    ensures c.ctype == UnsetType && c.lastUpdate == now
  {
    if dep.availableReplicas == 0 then
      Condition(UnsetType, False, ComponentNotReady, Text("Deployment " + dep.name + " has zero replicas available"), now, 0)
    else
      match AvailableCondition(dep.conditions)
      case None =>
        Condition(UnsetType, False, ComponentNotReady, Text("Available condition not found for " + dep.name), now, 0)
      case Some(cond) =>
        if cond.status != True then
          Condition(UnsetType, False, ComponentNotReady, Text("Deployment " + dep.name + ": " + cond.message), now, 0)
        else
          Condition(UnsetType, True, ComponentIsReady, Text("Deployment " + dep.name + " healthy"), now, 0)
  }

  // ---- Databases ----

  datatype Claim = Claim(name: string, pending: bool)

  datatype ClaimEvent = ClaimEvent(provisioningFailed: bool, message: string)

  /** The first volume of the pod template that is backed by a claim with a name. */
  function ClaimName(claims: seq<Option<string>>): (r: string)
    ensures (exists i | 0 <= i < |claims| :: claims[i] == Some(r) && forall j | 0 <= j < i :: claims[j].None?)
            || (r == "" && forall i | 0 <= i < |claims| :: claims[i].None?)
  {
    if claims == [] then ""
    else if claims[0].Some? then claims[0].value
    else
      var rest := claims[1..];
      assert forall i | 0 <= i < |rest| :: rest[i] == claims[i + 1];
      assert (exists i | 0 <= i < |rest| :: rest[i] == Some(ClaimName(rest)) && forall j | 0 <= j < i :: rest[j].None?) ==>
          exists i | 0 <= i < |claims| :: claims[i] == Some(ClaimName(rest)) && forall j | 0 <= j < i :: claims[j].None? by {
        if i :| 0 <= i < |rest| && rest[i] == Some(ClaimName(rest)) && forall j | 0 <= j < i :: rest[j].None? {
          assert claims[i + 1] == Some(ClaimName(rest)) && forall j | 0 <= j < i + 1 :: claims[j].None?;
        }
      }
      ClaimName(rest)
  }

  function ProvisioningFailure(events: seq<ClaimEvent>): (r: Option<ClaimEvent>)
    ensures r.Some? ==> r.value in events && r.value.provisioningFailed
    ensures r.None? <==> forall e | e in events :: !e.provisioningFailed
  {
    if events == [] then None
    else if events[0].provisioningFailed then Some(events[0])
    else ProvisioningFailure(events[1..])
  }

  /** A database component is healthy when its own deployment is up and its claim, if any, is bound. */
  predicate DatabaseUp(dep: Read<Deployment>, claim: Read<Claim>) {
    dep.Found? && dep.value.owned && IsUp(dep.value)
    && (ClaimName(dep.value.claims) != "" ==> claim.Found? && !claim.value.pending)
  }

  predicate LooksForClaim(dep: Read<Deployment>) {
    dep.Found? && dep.value.owned && ClaimName(dep.value.claims) != ""
  }

  predicate ClaimPending(dep: Read<Deployment>, claim: Read<Claim>) {
    LooksForClaim(dep) && claim.Found? && claim.value.pending
  }

  /**
   `claim` and `events` are what the API server answers if the code gets as far as asking.
   */
  function CheckDatabase(
    kind: ComponentKind, dep: Read<Deployment>, claim: Read<Claim>, events: Result<seq<ClaimEvent>, string>, now: Time
  ): (r: Checked)
    ensures r.Ok? ==> DatabaseReport(r.value, kind) && r.value.lastUpdate == now
    ensures r.Ok? ==> (r.value.status == True <==> DatabaseUp(dep, claim))
    ensures r.Ok? ==> (r.value.reason in {PVCPending, PVCProvisioningFailed} <==> ClaimPending(dep, claim))
    ensures r.Ok? && r.value.reason == PVCProvisioningFailed ==>
              events.Ok? && exists e | e in events.value :: e.provisioningFailed
    ensures r.Ok? && r.value.reason == PVCPending ==> events.Ok? && forall e | e in events.value :: !e.provisioningFailed
    ensures r.Err? <==>
              || dep.Failed? || (LooksForClaim(dep) && claim.Failed?)
              || (ClaimPending(dep, claim) && events.Err?)
  {
    var t := ComponentReady(kind);
    match dep
    case Failed(e) => Err(e)
    case NotFound => Ok(Condition(t, False, ComponentNotReady, Text("deployment not found"), now, 0))
    case Found(d) =>
      if !d.owned then
        Ok(Condition(t, False, ComponentNotReady, Text("deployment not owned by QuayRegistry"), now, 0))
      else if ClaimName(d.claims) == "" then
        Ok(CheckDeployment(d, now).(ctype := t))
      else
        match claim
        case Failed(e) => Err(e)
        case NotFound =>
          Ok(Condition(t, False, ComponentNotReady, Text("PersistentVolumeClaim " + ClaimName(d.claims) + " not found"), now, 0))
        case Found(pvc) =>
          if !pvc.pending then
            Ok(CheckDeployment(d, now).(ctype := t))
          else if events.Err? then
            Err("failed to list events for pvc " + pvc.name + ": " + events.error)
          else
            match ProvisioningFailure(events.value)
            case Some(e) =>
              Ok(Condition(t, False, PVCProvisioningFailed, Text("PVC " + pvc.name + " provisioning failed: " + e.message), now, 0))
            case None =>
              Ok(Condition(t, False, PVCPending, Text("PersistentVolumeClaim " + pvc.name + " is pending"), now, 0))
  }

  // ---- Monitoring ----

  /** Whether the object belongs to the registry. */
  datatype Owned = Owned(owned: bool)

  /**
   A failed read of the ServiceMonitor is answered with the zero condition and no error,
   unlike a failed read of the PrometheusRule.
   */
  function CheckMonitoring(managed: bool, rule: Read<Owned>, monitor: Read<Owned>, now: Time): (r: Checked)
    ensures r.Ok? ==> r.value == ZeroCondition || PlainReport(r.value, Monitoring)
    ensures r == Ok(ZeroCondition) <==> managed && rule.Found? && rule.value.owned && monitor.Failed?
    ensures r.Ok? ==> (r.value.status == True <==>
                         !managed || (rule.Found? && rule.value.owned && monitor.Found? && monitor.value.owned))
  {
    var t := ComponentReady(Monitoring);
    if !managed then Ok(Condition(t, True, ComponentUnmanaged, Text("Monitoring not managed by the operator"), now, 0))
    else
      match rule
      case NotFound => Ok(Condition(t, False, ComponentNotReady, Text("PrometheusRule not found"), now, 0))
      case Failed(e) => Err(e)
      case Found(r) =>
        if !r.owned then Ok(Condition(t, False, ComponentNotReady, Text("PrometheusRule not owned by QuayRegistry"), now, 0))
        else
          match monitor
          case NotFound => Ok(Condition(t, False, ComponentNotReady, Text("ServiceMonitor not found"), now, 0))
          case Failed(_) => Ok(ZeroCondition)
          case Found(m) =>
            if !m.owned then Ok(Condition(t, False, ComponentNotReady, Text("ServiceMonitor not owned by QuayRegistry"), now, 0))
            else Ok(Condition(t, True, ComponentIsReady, Text("ServiceMonitor and PrometheusRules created"), now, 0))
  }
}
