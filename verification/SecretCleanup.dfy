/**
 Old rendered config secrets (controllers/quay/quayregistry_controller.go): which of them a
 reconcile picks, when it dares to delete them, and whether the one Quay runs on is ever among
 them.
 */
module SecretCleanup {
  import opened Strings
  import opened Wrappers
  import opened CreationOrder

  type Name = string

  function Prefix(registry: Name): Name {
    registry + "-quay-config-secret"
  }

  function AppName(registry: Name): Name {
    registry + "-quay-app"
  }

  predicate IsConfigSecretName(registry: Name, name: Name) {
    HasPrefix(name, Prefix(registry))
  }

  // ---- Picking the secrets ----

  function Old(listed: seq<Name>, registry: Name, bundle: Name): seq<Name> {
    if listed == [] then []
    else (if IsConfigSecretName(registry, listed[0]) && listed[0] != bundle then [listed[0]] else [])
         + Old(listed[1..], registry, bundle)
  }

  function Except(names: seq<Name>, current: Name): seq<Name> {
    if names == [] then []
    else (if names[0] != current then [names[0]] else []) + Except(names[1..], current)
  }

  lemma {:induction false} OldMembers(listed: seq<Name>, registry: Name, bundle: Name)
    ensures forall n :: n in Old(listed, registry, bundle) <==> n in listed && IsConfigSecretName(registry, n) && n != bundle
  {
    if listed != [] {
      OldMembers(listed[1..], registry, bundle);
      assert listed == [listed[0]] + listed[1..];
    }
  }

  lemma {:induction false} ExceptMembers(names: seq<Name>, current: Name)
    ensures forall n :: n in Except(names, current) <==> n in names && n != current
  {
    if names != [] {
      ExceptMembers(names[1..], current);
      assert names == [names[0]] + names[1..];
    }
  }

  lemma {:induction false} OldSnoc(listed: seq<Name>, name: Name, registry: Name, bundle: Name)
    ensures Old(listed + [name], registry, bundle)
         == Old(listed, registry, bundle) + if IsConfigSecretName(registry, name) && name != bundle then [name] else []
  {
    if listed == [] {
      assert [] + [name] == [name];
    } else {
      OldSnoc(listed[1..], name, registry, bundle);
      assert (listed + [name])[1..] == listed[1..] + [name];
    }
  }

  /** A namespace without any secret is an error, and not one that counts as "not found". */
  method GetOldConfigBundleSecrets(listed: Result<seq<Name>, string>, registry: Name, bundle: Name)
    returns (r: Result<seq<Name>, string>)
    ensures r.Ok? <==> listed.Ok? && listed.value != []
    ensures r.Ok? ==> r.value == Old(listed.value, registry, bundle)
  {
    if listed.Err? {
      return Err(listed.error);
    }
    var items := listed.value;
    if items == [] {
      return Err("no unused secrets found");
    }
    var oldSecrets := [];
    for i := 0 to |items|
      invariant oldSecrets == Old(items[..i], registry, bundle)
    {
      OldSnoc(items[..i], items[i], registry, bundle);
      assert items[..i + 1] == items[..i] + [items[i]];
      if HasPrefix(items[i], Prefix(registry)) && items[i] != bundle {
        oldSecrets := oldSecrets + [items[i]];
      }
    }
    assert items[..|items|] == items;
    return Ok(oldSecrets);
  }

  /** An object's payload is the config secret it mounts. */
  type Mounting = Object<Name>

  predicate IsConfigSecret(registry: Name, o: Mounting) {
    o.kind.Secret? && IsConfigSecretName(registry, o.name)
  }

  predicate IsQuayApp(registry: Name, o: Mounting) {
    o.kind.Deployment? && o.name == AppName(registry)
  }

  /** Rendering makes one config secret, and the quay-app deployment mounts it. */
  ghost predicate RendersConfig(objs: seq<Mounting>, registry: Name, current: Name) {
    && (exists o | o in objs :: IsConfigSecret(registry, o) && o.name == current)
    && (forall o | o in objs && IsConfigSecret(registry, o) :: o.name == current)
    && (exists o | o in objs :: IsQuayApp(registry, o))
    && (forall o | o in objs && IsQuayApp(registry, o) :: o.payload == current && IsDeferrable(o))
  }

  method CurrentConfigSecret(objs: seq<Mounting>, registry: Name) returns (current: Option<Name>)
    ensures current.None? <==> forall o | o in objs :: !IsConfigSecret(registry, o)
    ensures current.Some? ==> exists o | o in objs :: IsConfigSecret(registry, o) && o.name == current.value
  {
    for i := 0 to |objs|
      invariant forall k | 0 <= k < i :: !IsConfigSecret(registry, objs[k])
    {
      if !objs[i].kind.Secret? {
        continue;
      }
      if HasPrefix(objs[i].name, Prefix(registry)) {
        assert objs[i] in objs && IsConfigSecret(registry, objs[i]);
        return Some(objs[i].name);
      }
    }
    return None;
  }

  lemma {:induction false} ExceptSnoc(names: seq<Name>, name: Name, current: Name)
    ensures Except(names + [name], current) == Except(names, current) + if name != current then [name] else []
  {
    if names == [] {
      assert [] + [name] == [name];
    } else {
      ExceptSnoc(names[1..], name, current);
      assert (names + [name])[1..] == names[1..] + [name];
    }
  }

  method FilterOut(names: seq<Name>, current: Name) returns (filtered: seq<Name>)
    ensures filtered == Except(names, current)
  {
    filtered := [];
    for i := 0 to |names|
      invariant filtered == Except(names[..i], current)
    {
      ExceptSnoc(names[..i], names[i], current);
      assert names[..i + 1] == names[..i] + [names[i]];
      if names[i] != current {
        filtered := filtered + [names[i]];
      }
    }
    assert names[..|names|] == names;
  }

  /** The old secrets but for the one this reconcile renders; none if it is not known which. */
  method PreviousSecrets(listed: seq<Name>, objs: seq<Mounting>, registry: Name, bundle: Name, ghost current: Name)
    returns (r: Option<seq<Name>>)
    requires RendersConfig(objs, registry, current)
    ensures r.None? <==> listed == []
    ensures r.Some? ==> r.value == Except(Old(listed, registry, bundle), current)
  {
    var currentName := CurrentConfigSecret(objs, registry);
    assert currentName == Some(current);
    var previous := GetOldConfigBundleSecrets(Ok(listed), registry, bundle);
    if previous.Err? {
      return None;
    }
    if currentName.None? {
      return Some([]);
    }
    var filtered := FilterOut(previous.value, currentName.value);
    return Some(filtered);
  }

  // ---- The gate ----

  /** The counters of a deployment's status, next to what its spec asks for. */
  datatype Rollout = Rollout(generation: int, observedGeneration: int, replicas: Option<int>, updated: int, available: int)

  method QuayAppDeploymentRolledOut(seen: Read<Rollout>) returns (r: Result<bool, string>)
    ensures r.Err? <==> seen.Failed?
    ensures r.Ok? ==> r.value == GatePasses(seen)
    ensures r.Ok? && seen.Found? ==>
              var d, desired := seen.value, if seen.value.replicas.Some? then seen.value.replicas.value else 1;
              r.value <==> d.observedGeneration >= d.generation && d.updated == desired && d.available == desired
    ensures seen.NotFound? ==> r == Ok(true)
  {
    match seen {
      case NotFound => return Ok(true);
      case Failed(error) => return Err(error);
      case Found(d) =>
        if d.observedGeneration < d.generation {
          return Ok(false);
        }
        var desired := 1;
        if d.replicas.Some? {
          desired := d.replicas.value;
        }
        return Ok(d.updated == desired && d.available == desired);
    }
  }

  function Desired(d: Rollout): int {
    if d.replicas.Some? then d.replicas.value else 1
  }

  predicate GatePasses(seen: Read<Rollout>) {
    match seen
    case NotFound => true
    case Failed(_) => false
    case Found(d) => d.generation <= d.observedGeneration && d.updated == Desired(d) == d.available
  }

  /** A pod of the newest template, or of an older one, and the config secret it mounts. */
  datatype Pod = Pod(isNew: bool, available: bool, mounts: Name)

  predicate Is(pod: Pod, isNew: bool, available: bool) {
    pod.isNew == isNew && pod.available == available
  }

  function CountNew(pods: seq<Pod>): nat {
    if pods == [] then 0 else (if pods[0].isNew then 1 else 0) + CountNew(pods[1..])
  }

  function CountAvailable(pods: seq<Pod>): nat {
    if pods == [] then 0 else (if pods[0].available then 1 else 0) + CountAvailable(pods[1..])
  }

  function CountPods(pods: seq<Pod>, isNew: bool, available: bool): nat {
    if pods == [] then 0 else (if Is(pods[0], isNew, available) then 1 else 0) + CountPods(pods[1..], isNew, available)
  }

  lemma {:induction false} CountersSplit(pods: seq<Pod>)
    ensures CountNew(pods) == CountPods(pods, true, true) + CountPods(pods, true, false)
    ensures CountAvailable(pods) == CountPods(pods, true, true) + CountPods(pods, false, true)
  {
    if pods != [] {
      CountersSplit(pods[1..]);
    }
  }

  lemma {:induction false} CountedOnlyIfThere(pods: seq<Pod>, isNew: bool, available: bool)
    ensures CountPods(pods, isNew, available) == 0 <==> forall pod | pod in pods :: !Is(pod, isNew, available)
  {
    if pods != [] {
      CountedOnlyIfThere(pods[1..], isNew, available);
      assert pods == [pods[0]] + pods[1..];
    }
  }

  /** Unless they are out of date, the counters are those of these pods. */
  predicate Counts(d: Rollout, pods: seq<Pod>) {
    d.generation <= d.observedGeneration ==> d.updated == CountNew(pods) && d.available == CountAvailable(pods)
  }

  /**
   The counter of available pods does not tell old from new: when the gate opens, there are as
   many old pods still serving as there are new ones that are not.
   */
  lemma GateBalancesPods(d: Rollout, pods: seq<Pod>)
    requires Counts(d, pods) && GatePasses(Found(d))
    ensures CountPods(pods, false, true) == CountPods(pods, true, false)
    ensures (exists pod | pod in pods :: Is(pod, false, true)) <==> (exists pod | pod in pods :: Is(pod, true, false))
  {
    CountersSplit(pods);
    CountedOnlyIfThere(pods, false, true);
    CountedOnlyIfThere(pods, true, false);
  }

  /** So it can open over an old pod, with one new pod that is not available yet. */
  lemma GateOpensOverOldPod(old_: Name, new_: Name)
    ensures var pods, d := [Pod(true, false, new_), Pod(false, true, old_)], Rollout(2, 2, Some(1), 1, 1);
            Counts(d, pods) && GatePasses(Found(d)) && exists pod | pod in pods :: Is(pod, false, true)
  {
    var fresh_, stale := Pod(true, false, new_), Pod(false, true, old_);
    var pods := [fresh_, stale];
    assert pods[1..] == [stale] && [stale][1..] == [];
    assert CountNew([stale]) == 0 && CountAvailable([stale]) == 1;
    assert CountNew(pods) == 1 && CountAvailable(pods) == 1;
    assert stale in pods && Is(stale, false, true);
  }

  // ---- A pass and its deletions ----

  /** The config secrets of the namespace, and the one the live quay-app template mounts. */
  datatype Namespace = Namespace(secrets: set<Name>, live: Option<Name>)

  function Applied(ns: Namespace, registry: Name, o: Mounting): Namespace {
    if o.kind.Secret? then ns.(secrets := ns.secrets + {o.name})
    else if IsQuayApp(registry, o) then ns.(live := Some(o.payload))
    else ns
  }

  function AppliedAll(ns: Namespace, registry: Name, objs: seq<Mounting>): Namespace {
    if objs == [] then ns else Applied(AppliedAll(ns, registry, objs[..|objs| - 1]), registry, objs[|objs| - 1])
  }

  function Deleted(ns: Namespace, names: seq<Name>): Namespace {
    if names == [] then ns
    else
      var before := Deleted(ns, names[..|names| - 1]);
      before.(secrets := before.secrets - {names[|names| - 1]})
  }

  /**
   One pass: what it lists, renders, in which order, and defers, how far it applies, the pods
   there are when it looks and what it sees of them, how far it deletes.
   */
  datatype Pass = Pass(
    bundle: Name, listed: seq<Name>, order: seq<Mounting>, current: Name, defers: bool,
    applies: nat, pods: seq<Pod>, seen: Read<Rollout>, deletes: nat
  )

  function Queue(p: Pass): seq<Mounting> {
    Filtered(p.order, p.defers)
  }

  function Previous(p: Pass, registry: Name): seq<Name> {
    Except(Old(p.listed, registry, p.bundle), p.current)
  }

  ghost predicate Possible(ns: Namespace, registry: Name, p: Pass) {
    && RendersConfig(p.order, registry, p.current) && WorkloadsLast(p.order)
    && (p.seen.Found? ==> Counts(p.seen.value, p.pods))
    && (forall n :: n in p.listed <==> n in ns.secrets)
    && p.applies <= |Queue(p)| && p.deletes <= |Previous(p, registry)|
  }

  predicate Cleans(p: Pass) {
    p.applies == |Queue(p)| && GatePasses(p.seen)
  }

  function After(ns: Namespace, registry: Name, p: Pass): Namespace
    requires p.applies <= |Queue(p)| && p.deletes <= |Previous(p, registry)|
  {
    var applied := AppliedAll(ns, registry, Queue(p)[..p.applies]);
    if Cleans(p) then Deleted(applied, Previous(p, registry)[..p.deletes]) else applied
  }

  class Cluster {
    var ns: Namespace

    constructor (ns: Namespace)
      ensures this.ns == ns
    {
      this.ns := ns;
    }

    method Apply(registry: Name, queue: seq<Mounting>, failsAt: nat, lands: bool) returns (ok: bool)
      modifies this
      ensures ns == AppliedAll(old(ns), registry, queue[..StopsAt(|queue|, failsAt, lands)])
      ensures ok <==> |queue| <= failsAt
    {
      for i := 0 to |queue|
        invariant i <= failsAt && ns == AppliedAll(old(ns), registry, queue[..i])
      {
        assert queue[..i + 1][..i] == queue[..i];
        if i == failsAt && !lands {
          return false;
        }
        ns := Applied(ns, registry, queue[i]);
        if i == failsAt {
          return false;
        }
      }
      return true;
    }

    method CleanupPreviousSecrets(previous: seq<Name>, failsAt: nat) returns (ok: bool)
      modifies this
      ensures ns == Deleted(old(ns), previous[..StopsAt(|previous|, failsAt, false)])
      ensures ok <==> failsAt >= |previous|
    {
      for i := 0 to |previous|
        invariant ns == Deleted(old(ns), previous[..i]) && i <= failsAt
      {
        if i == failsAt {
          return false;
        }
        assert previous[..i + 1][..i] == previous[..i];
        ns := ns.(secrets := ns.secrets - {previous[i]});
      }
      return true;
    }

    /** The gate, and the deletions behind it. */
    method CleanUp(p: Pass, previous: seq<Name>, deleteFailsAt: nat)
      modifies this
      ensures ns == if GatePasses(p.seen) then Deleted(old(ns), previous[..StopsAt(|previous|, deleteFailsAt, false)]) else old(ns)
    {
      if previous == [] {
        return;
      }
      var rolledOut := QuayAppDeploymentRolledOut(p.seen);
      if rolledOut.Err? || !rolledOut.value {
        return;
      }
      var _ := CleanupPreviousSecrets(previous, deleteFailsAt);
    }

    /**
     From the listing to the last deletion, over what it rendered, `objs`. How far it applies
     and deletes is settled by the failures it meets and by the gate.
     */
    method Reconcile(registry: Name, p: Pass, objs: seq<Mounting>, failsAt: nat, lands: bool, deleteFailsAt: nat)
      returns (ghost order: seq<Mounting>)
      requires RendersConfig(objs, registry, p.current)
      modifies this
      ensures p.listed != [] ==> IsCreationOrder(order, objs)
      ensures RendersConfig(order, registry, p.current)
      ensures ns == After(old(ns), registry, Outcome(registry, p.(order := order), failsAt, lands, deleteFailsAt))
    {
      order := objs;
      var previous := PreviousSecrets(p.listed, objs, registry, p.bundle, p.current);
      if previous.None? {
        NothingDone(ns, registry, Outcome(registry, p.(order := order), failsAt, lands, deleteFailsAt));
        return;
      }
      var objects := new Mounting[|objs|](i requires 0 <= i < |objs| => objs[i]);
      assert objects[..] == objs;
      EnsureCreationOrder(objects);
      order := objects[..];
      SameMembers(order, objs);
      var queue := FilterDeferredWorkloads(objects[..], p.defers);
      var ok := Apply(registry, queue, failsAt, lands);
      if ok {
        CleanUp(p, previous.value, deleteFailsAt);
      }
    }
  }

  lemma NothingDone(ns: Namespace, registry: Name, p: Pass)
    requires p.applies == 0 && p.deletes == 0
    ensures After(ns, registry, p) == ns
  {
  }

  /**
   The pass as it turns out with these failures: nothing is applied if there is nothing to
   list, and nothing is deleted after an object has failed.
   */
  function Outcome(registry: Name, p: Pass, failsAt: nat, lands: bool, deleteFailsAt: nat): (r: Pass)
    ensures r.applies <= |Queue(r)| && r.deletes <= |Previous(r, registry)|
  {
    var queue, previous := |Queue(p)|, |Previous(p, registry)|;
    if p.listed == [] then p.(applies := 0, deletes := 0)
    else p.(applies := StopsAt(queue, failsAt, lands),
            deletes := if failsAt < queue then 0 else StopsAt(previous, deleteFailsAt, false))
  }

  /**
   A pass without secrets to list does nothing. Any other applies everything before the object that
   fails, and that one if it landed; and only after the last object it deletes, up to the first
   deletion that fails.
   */
  lemma OutcomeMeans(registry: Name, p: Pass, failsAt: nat, lands: bool, deleteFailsAt: nat)
    ensures var r, queue, previous := Outcome(registry, p, failsAt, lands, deleteFailsAt), |Queue(p)|, |Previous(p, registry)|;
            && r == p.(applies := r.applies, deletes := r.deletes)
            && (p.listed == [] ==> r.applies == 0 && r.deletes == 0)
            && (p.listed != [] && queue <= failsAt ==>
                  r.applies == queue && r.deletes == if deleteFailsAt < previous then deleteFailsAt else previous)
            && (p.listed != [] && failsAt < queue ==> r.deletes == 0 && r.applies == failsAt + if lands then 1 else 0)
  {
  }

  /** Nothing is deleted unless the whole queue was applied and the deployment is gone or rolled out. */
  lemma DeletesOnlyBehindTheGate(ns: Namespace, registry: Name, p: Pass, n: Name)
    requires Possible(ns, registry, p) && n in ns.secrets && n !in After(ns, registry, p).secrets
    ensures p.applies == |Queue(p)| && !p.seen.Failed?
    ensures p.seen.Found? ==>
              var d := p.seen.value;
              d.observedGeneration >= d.generation && d.updated == d.available
              && d.available == if d.replicas.Some? then d.replicas.value else 1
  {
    AppliedSecrets(ns, registry, Queue(p)[..p.applies]);
  }

  // ---- Which secrets survive ----

  lemma {:induction false} DeletedSecrets(ns: Namespace, names: seq<Name>)
    ensures Deleted(ns, names).live == ns.live
    ensures forall n :: n in Deleted(ns, names).secrets <==> n in ns.secrets && n !in names
  {
    if names != [] {
      DeletedSecrets(ns, names[..|names| - 1]);
      assert names == names[..|names| - 1] + [names[|names| - 1]];
    }
  }

  lemma {:induction false} AppliedSecrets(ns: Namespace, registry: Name, objs: seq<Mounting>)
    ensures ns.secrets <= AppliedAll(ns, registry, objs).secrets
    ensures forall n :: n in AppliedAll(ns, registry, objs).secrets <==>
              n in ns.secrets || exists o | o in objs :: o.kind.Secret? && o.name == n
  {
    if objs != [] {
      AppliedSecrets(ns, registry, objs[..|objs| - 1]);
      assert objs == objs[..|objs| - 1] + [objs[|objs| - 1]];
    }
  }

  lemma {:induction false} AppliedLive(ns: Namespace, registry: Name, objs: seq<Mounting>, current: Name)
    requires forall o | o in objs && IsQuayApp(registry, o) :: o.payload == current
    ensures AppliedAll(ns, registry, objs).live
         == if exists o | o in objs :: IsQuayApp(registry, o) then Some(current) else ns.live
  {
    if objs != [] {
      AppliedLive(ns, registry, objs[..|objs| - 1], current);
      assert objs == objs[..|objs| - 1] + [objs[|objs| - 1]];
    }
  }

  /** Applying the deployment named after the registry is what makes a secret the live one. */
  lemma QuayAppMounts(ns: Namespace, registry: Name, o: Mounting)
    ensures Applied(ns, registry, o).live
         == if o.kind.Deployment? && o.name == registry + "-quay-app" then Some(o.payload) else ns.live
    ensures Applied(ns, registry, o).secrets == if o.kind.Secret? then ns.secrets + {o.name} else ns.secrets
  {
  }

  lemma QueueMember(p: Pass, o: Mounting)
    requires o in Queue(p)
    ensures o in p.order
  {
    FilteredMembers(p.order, p.defers);
  }

  /** The deployment is in the queue unless workloads are deferred. */
  lemma QueueOf(registry: Name, p: Pass)
    requires RendersConfig(p.order, registry, p.current) && WorkloadsLast(p.order)
    ensures WorkloadsLast(Queue(p)) && forall o | o in Queue(p) :: o in p.order
    ensures exists o | o in Queue(p) :: IsConfigSecret(registry, o) && o.name == p.current
    ensures (exists o | o in Queue(p) :: IsQuayApp(registry, o)) <==> !p.defers
  {
    QueueMembers(p.order, p.defers);
    forall o | o in Queue(p) ensures o in p.order {
      QueueMember(p, o);
    }
    var secret :| secret in p.order && IsConfigSecret(registry, secret) && secret.name == p.current;
    assert secret in Queue(p);
    if !p.defers {
      var app :| app in p.order && IsQuayApp(registry, app);
      assert app in Queue(p);
    }
  }

  lemma SecretBeforeAppInQueue(registry: Name, p: Pass, i: nat)
    requires RendersConfig(p.order, registry, p.current) && WorkloadsLast(p.order) && i < |Queue(p)| && IsQuayApp(registry, Queue(p)[i])
    ensures exists o | o in Queue(p)[..i] :: o.kind.Secret? && o.name == p.current
  {
    var queue := Queue(p);
    QueueOf(registry, p);
    var secret :| secret in queue && IsConfigSecret(registry, secret) && secret.name == p.current;
    var k :| 0 <= k < |queue| && queue[k] == secret;
    assert k < i;
    assert queue[..i][k] == secret;
  }

  lemma SecretBeforeAppInPrefix(registry: Name, p: Pass, app: Mounting)
    requires RendersConfig(p.order, registry, p.current) && WorkloadsLast(p.order) && p.applies <= |Queue(p)|
    requires app in Queue(p)[..p.applies] && IsQuayApp(registry, app)
    ensures exists o | o in Queue(p)[..p.applies] :: o.kind.Secret? && o.name == p.current
  {
    var queue := Queue(p);
    var i :| 0 <= i < p.applies && queue[i] == app;
    SecretBeforeAppInQueue(registry, p, i);
    var secret :| secret in queue[..i] && secret.kind.Secret? && secret.name == p.current;
    assert queue[..i] <= queue[..p.applies];
    assert secret in queue[..p.applies];
  }

  /** Whenever the deployment has been applied, so has the secret it mounts. */
  lemma SecretBeforeApp(ns: Namespace, registry: Name, p: Pass)
    requires RendersConfig(p.order, registry, p.current) && WorkloadsLast(p.order) && p.applies <= |Queue(p)|
    ensures var applied := AppliedAll(ns, registry, Queue(p)[..p.applies]);
            || applied.live == ns.live
            || (!p.defers && applied.live == Some(p.current) && p.current in applied.secrets)
  {
    var done := Queue(p)[..p.applies];
    QueueOf(registry, p);
    assert forall o | o in done :: o in Queue(p);
    AppliedLive(ns, registry, done, p.current);
    AppliedSecrets(ns, registry, done);
    if app :| app in done && IsQuayApp(registry, app) {
      SecretBeforeAppInPrefix(registry, p, app);
    }
  }

  /** A pass that applies everything and does not defer leaves its own secret mounted. */
  lemma FullPassMountsCurrent(ns: Namespace, registry: Name, p: Pass)
    requires RendersConfig(p.order, registry, p.current) && WorkloadsLast(p.order) && !p.defers
    ensures AppliedAll(ns, registry, Queue(p)[..|Queue(p)|]).live == Some(p.current)
  {
    QueueOf(registry, p);
    assert Queue(p)[..|Queue(p)|] == Queue(p);
    AppliedLive(ns, registry, Queue(p), p.current);
  }

  /** The user's own bundle, as this pass read it from the spec, is never deleted. */
  lemma BundleSurvives(ns: Namespace, registry: Name, p: Pass)
    requires Possible(ns, registry, p) && p.bundle in ns.secrets
    ensures p.bundle in After(ns, registry, p).secrets
  {
    var previous := Previous(p, registry);
    AppliedSecrets(ns, registry, Queue(p)[..p.applies]);
    OldMembers(p.listed, registry, p.bundle);
    ExceptMembers(Old(p.listed, registry, p.bundle), p.current);
    DeletedSecrets(AppliedAll(ns, registry, Queue(p)[..p.applies]), previous[..p.deletes]);
    assert forall n | n in previous[..p.deletes] :: n in previous;
  }

  predicate LiveIsThere(ns: Namespace) {
    ns.live.Some? ==> ns.live.value in ns.secrets
  }

  lemma DeferredAppUntouched(ns: Namespace, registry: Name, p: Pass, t: Name)
    requires Possible(ns, registry, p) && p.defers && t in ns.secrets
    ensures AppliedAll(ns, registry, Queue(p)[..p.applies]).live == ns.live
    ensures t in AppliedAll(ns, registry, Queue(p)[..p.applies]).secrets
  {
    var done := Queue(p)[..p.applies];
    QueueOf(registry, p);
    assert forall o | o in done :: o in Queue(p);
    AppliedLive(ns, registry, done, p.current);
    AppliedSecrets(ns, registry, done);
  }

  /**
   Exactly when a pass takes the live template's secret away: it deferred the deployment, went
   on to clean up all the same, and deleted as far as that secret.
   */
  lemma LiveSecretLostIff(ns: Namespace, registry: Name, p: Pass)
    requires Possible(ns, registry, p) && ns.live.Some? && ns.live.value in ns.secrets
    ensures After(ns, registry, p).live.Some?
    ensures !LiveIsThere(After(ns, registry, p)) <==>
            p.defers && Cleans(p) && ns.live.value in Previous(p, registry)[..p.deletes]
  {
    var applied, gone := AppliedAll(ns, registry, Queue(p)[..p.applies]), Previous(p, registry)[..p.deletes];
    SecretBeforeApp(ns, registry, p);
    AppliedSecrets(ns, registry, Queue(p)[..p.applies]);
    DeletedSecrets(applied, gone);
    ExceptMembers(Old(p.listed, registry, p.bundle), p.current);
    assert forall n | n in gone :: n in Previous(p, registry);
    if !p.defers {
      FullPassMountsCurrent(ns, registry, p);
    } else {
      DeferredAppUntouched(ns, registry, p, ns.live.value);
    }
  }

  /** A cleanup that runs to its end deletes these secrets, and only these. */
  lemma CleanupDeletesExactly(ns: Namespace, registry: Name, p: Pass, n: Name)
    requires Possible(ns, registry, p) && Cleans(p) && p.deletes == |Previous(p, registry)| && n in ns.secrets
    ensures n !in After(ns, registry, p).secrets <==>
            HasPrefix(n, registry + "-quay-config-secret") && n != p.bundle && n != p.current
  {
    var previous := Previous(p, registry);
    AppliedSecrets(ns, registry, Queue(p)[..p.applies]);
    assert previous[..p.deletes] == previous;
    DeletedSecrets(AppliedAll(ns, registry, Queue(p)[..p.applies]), previous);
    OldMembers(p.listed, registry, p.bundle);
    ExceptMembers(Old(p.listed, registry, p.bundle), p.current);
  }

  /**
   For a deferring pass that cleans up to the end: Quay's own secret goes if and only if it was
   rendered, is not the user's bundle, and this pass renders a different one.
   */
  lemma DeferringCleanupTakesLiveSecretIff(ns: Namespace, registry: Name, p: Pass)
    requires Possible(ns, registry, p) && ns.live.Some? && ns.live.value in ns.secrets
    requires p.defers && Cleans(p) && p.deletes == |Previous(p, registry)|
    ensures !LiveIsThere(After(ns, registry, p)) <==>
            IsConfigSecretName(registry, ns.live.value) && ns.live.value != p.bundle && ns.live.value != p.current
  {
    var previous := Previous(p, registry);
    LiveSecretLostIff(ns, registry, p);
    assert previous[..p.deletes] == previous;
    OldMembers(p.listed, registry, p.bundle);
    ExceptMembers(Old(p.listed, registry, p.bundle), p.current);
  }

  const DeferringGate := Rollout(1, 1, Some(1), 1, 1)

  /** A registry that runs on the secret `a`, and a deferring pass that renders `b`. */
  function DeferringPass(registry: Name, a: Name, b: Name): Pass {
    Pass("", [a], [Mounting.Object(Secret, b, "", b), Mounting.Object(Deployment, AppName(registry), "quay-app", b)],
         b, true, 1, [Pod(true, true, a)], Found(DeferringGate), 1)
  }

  lemma DeferringPassPicks(registry: Name, a: Name, b: Name)
    requires IsConfigSecretName(registry, a) && IsConfigSecretName(registry, b) && a != b && a != ""
    ensures var p := DeferringPass(registry, a, b);
            Queue(p) == [p.order[0]] && Previous(p, registry) == [a]
  {
    var p := DeferringPass(registry, a, b);
    var secret, app := p.order[0], p.order[1];
    assert p.order == [secret] + [app] && p.order[1..] == [app] && [app][1..] == [] && [a][1..] == [];
    assert IsDeferrable(app) && !IsDeferrable(secret);
    assert Filtered([app], true) == [] + Filtered([], true);
    assert Filtered(p.order, true) == [secret] + Filtered([app], true);
    assert Old([a], registry, "") == [a] + Old([], registry, "");
    assert Except([a], b) == [a] + Except([], b);
  }

  lemma DeferringPassIsPossible(registry: Name, a: Name, b: Name)
    requires IsConfigSecretName(registry, a) && IsConfigSecretName(registry, b) && a != b && a != ""
    ensures Possible(Namespace({a}, Some(a)), registry, DeferringPass(registry, a, b))
  {
    var p := DeferringPass(registry, a, b);
    DeferringPassPicks(registry, a, b);
    assert p.order[0] in p.order && p.order[1] in p.order;
    assert p.pods[1..] == [];
    assert CountNew(p.pods) == 1 && CountAvailable(p.pods) == 1;
  }

  /** Such a pass happens, and deletes the secret Quay runs on. */
  lemma DeferringCleanupTakesLiveSecret(registry: Name, a: Name, b: Name)
    requires IsConfigSecretName(registry, a) && IsConfigSecretName(registry, b) && a != b && a != ""
    ensures var ns, p := Namespace({a}, Some(a)), DeferringPass(registry, a, b);
            && Possible(ns, registry, p) && LiveIsThere(ns) && p.defers
            && !LiveIsThere(After(ns, registry, p))
  {
    DeferringPassPicks(registry, a, b);
    DeferringPassIsPossible(registry, a, b);
    DeferringCleanupTakesLiveSecretIff(Namespace({a}, Some(a)), registry, DeferringPass(registry, a, b));
  }

  /** The two names exist for every registry. */
  lemma TwoConfigSecretNames(registry: Name) returns (a: Name, b: Name)
    ensures IsConfigSecretName(registry, a) && IsConfigSecretName(registry, b) && a != b && a != ""
  {
    var prefix := Prefix(registry);
    a, b := prefix + ['-', 'a'], prefix + ['-', 'b'];
    assert a[..|prefix|] == prefix && b[..|prefix|] == prefix;
    assert a[|prefix| + 1] != b[|prefix| + 1];
  }

  /**
   A pass takes the secret of an old pod that still serves only behind an open gate, and then
   as many new pods are not available yet.
   */
  lemma ServingPodLosesSecretOnlyOverPendingOnes(ns: Namespace, registry: Name, p: Pass, pod: Pod)
    requires Possible(ns, registry, p) && p.seen.Found? && pod in p.pods && Is(pod, false, true)
    requires pod.mounts in ns.secrets && pod.mounts !in After(ns, registry, p).secrets
    ensures Cleans(p) && IsConfigSecretName(registry, pod.mounts) && pod.mounts != p.current
    ensures 1 <= CountPods(p.pods, false, true) == CountPods(p.pods, true, false)
  {
    var applied, gone := AppliedAll(ns, registry, Queue(p)[..p.applies]), Previous(p, registry)[..p.deletes];
    AppliedSecrets(ns, registry, Queue(p)[..p.applies]);
    DeletedSecrets(applied, gone);
    OldMembers(p.listed, registry, p.bundle);
    ExceptMembers(Old(p.listed, registry, p.bundle), p.current);
    assert forall n | n in gone :: n in Previous(p, registry);
    GateBalancesPods(p.seen.value, p.pods);
    CountedOnlyIfThere(p.pods, false, true);
  }

  ghost predicate IsHistory(states: seq<Namespace>, registry: Name, passes: seq<Pass>) {
    && |states| == |passes| + 1
    && forall i | 0 <= i < |passes| :: Possible(states[i], registry, passes[i])
                                      && states[i + 1] == After(states[i], registry, passes[i])
  }

  /**
   Over any history in which cleaning passes do not defer, wherever each of them stops, the
   secret the live quay-app template mounts is there.
   */
  lemma {:induction false} LiveSecretSurvives(states: seq<Namespace>, registry: Name, passes: seq<Pass>, i: nat)
    requires IsHistory(states, registry, passes) && LiveIsThere(states[0]) && i < |states|
    requires forall k | 0 <= k < i :: Cleans(passes[k]) ==> !passes[k].defers
    ensures LiveIsThere(states[i])
  {
    if i > 0 {
      var ns, p := states[i - 1], passes[i - 1];
      LiveSecretSurvives(states, registry, passes, i - 1);
      assert Possible(ns, registry, p) && states[i] == After(ns, registry, p);
      if ns.live.Some? {
        LiveSecretLostIff(ns, registry, p);
      } else {
        FirstLiveIsThere(ns, registry, p);
      }
    }
  }

  lemma FirstLiveIsThere(ns: Namespace, registry: Name, p: Pass)
    requires Possible(ns, registry, p) && ns.live.None?
    ensures LiveIsThere(After(ns, registry, p))
  {
    var applied, gone := AppliedAll(ns, registry, Queue(p)[..p.applies]), Previous(p, registry)[..p.deletes];
    SecretBeforeApp(ns, registry, p);
    DeletedSecrets(applied, gone);
    ExceptMembers(Old(p.listed, registry, p.bundle), p.current);
    assert forall n | n in gone :: n in Previous(p, registry);
  }
}
