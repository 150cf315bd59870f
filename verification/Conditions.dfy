/**
 Status conditions of a `QuayRegistry` and the list operations every controller uses on
 them (apis/quay/v1/quayregistry_types.go). The loops are modelled as loops; `Find`,
 `Put`, `Without` and `Known` say what they compute, and the lemmas say how those four
 interact on any list, with or without repeated types.
 */
module Conditions {
  import opened Wrappers

  datatype ComponentKind =
    | Quay | Postgres | Clair | Redis | HPA | ObjectStorage
    | Route | Mirror | Monitoring | TLS | ClairPostgres

  /** `Other` stands for every type this release does not list, the empty one included. */
  datatype ConditionType =
    | Available | RolloutBlocked | ComponentsCreated
    | ComponentReady(kind: ComponentKind)
    | Other(name: string)

  const UnsetType := Other("")

  datatype ConditionStatus = True | False | Unset

  datatype Reason =
    | ComponentNotReady | ComponentIsReady | ComponentUnmanaged | HealthChecksPassing
    | MigrationsInProgress | MigrationsFailed | MigrationsJobMissing
    | PostgresUpgradeInProgress | PostgresUpgradeFailed
    | ComponentsCreationSuccess | ComponentCreationFailed
    | RouteDependencyError | ObjectStorageDependencyError | MonitoringDependencyError
    | ConfigInvalid | ComponentOverrideInvalid
    | PVCPending | PVCProvisioningFailed
    | NoReason

  type Time = nat

  /** The texts the controllers write, and any other as `Text`. */
  datatype Message =
    | AllHealthy | SomeUnhealthy
    | AwaitingComponents(names: seq<string>) | AwaitingQuayComponent
    | ComponentsCreatedMessage | ObjectsApplied
    | UpgradeJobNotFound | RunningMigrations | FailedMigrations
    | RunningDatabaseUpgrade | FailedDatabaseUpgrade
    | ObjectFailed | NamespaceFailed | CleanupImpossible
    | Text(text: string)

  datatype Condition = Condition(
    ctype: ConditionType,
    status: ConditionStatus,
    reason: Reason,
    message: Message,
    lastUpdate: Time,
    lastTransition: Time
  )

  const ZeroCondition := Condition(UnsetType, Unset, NoReason, Text(""), 0, 0)

  // ---- What the list operations compute ----

  /** The first condition of the given type. */
  function Find(conds: seq<Condition>, t: ConditionType): (r: Option<Condition>)
    ensures r.Some? ==> r.value in conds && r.value.ctype == t
    ensures r.None? <==> forall i | 0 <= i < |conds| :: conds[i].ctype != t
  {
    if conds == [] then None
    else if conds[0].ctype == t then Some(conds[0])
    else Find(conds[1..], t)
  }

  /** Replaces the first condition of `c`'s type, or appends `c`. */
  function Put(conds: seq<Condition>, c: Condition): seq<Condition> {
    if conds == [] then [c]
    else if conds[0].ctype == c.ctype then [c] + conds[1..]
    else [conds[0]] + Put(conds[1..], c)
  }

  function Without(conds: seq<Condition>, t: ConditionType): seq<Condition> {
    if conds == [] then []
    else (if conds[0].ctype != t then [conds[0]] else []) + Without(conds[1..], t)
  }

  /** The types this release still uses. */
  predicate IsKnown(t: ConditionType) {
    !t.Other?
  }

  function Known(conds: seq<Condition>): seq<Condition> {
    if conds == [] then []
    else (if IsKnown(conds[0].ctype) then [conds[0]] else []) + Known(conds[1..])
  }

  /** No type occurs twice. */
  ghost predicate Distinct(conds: seq<Condition>) {
    forall i, j | 0 <= i < j < |conds| :: conds[i].ctype != conds[j].ctype
  }

  // ---- How they interact ----

  lemma {:induction false} FindPut(conds: seq<Condition>, c: Condition, t: ConditionType)
    ensures Find(Put(conds, c), t) == if t == c.ctype then Some(c) else Find(conds, t)
  {
    if conds != [] && conds[0].ctype != c.ctype {
      FindPut(conds[1..], c, t);
      assert Put(conds, c)[1..] == Put(conds[1..], c);
    } else if conds != [] {
      assert Put(conds, c)[1..] == conds[1..];
    }
  }

  /** Setting a condition replaces the first of its type where it stands, or appends. */
  lemma {:induction false} PutInPlace(conds: seq<Condition>, c: Condition, k: nat)
    requires k <= |conds| && (forall j | 0 <= j < k :: conds[j].ctype != c.ctype)
    requires k < |conds| ==> conds[k].ctype == c.ctype
    ensures Put(conds, c) == if k < |conds| then conds[k := c] else conds + [c]
  {
    if k > 0 {
      PutInPlace(conds[1..], c, k - 1);
    }
  }

  lemma {:induction false} FindWithout(conds: seq<Condition>, gone: ConditionType, t: ConditionType)
    ensures Find(Without(conds, gone), t) == if t == gone then None else Find(conds, t)
  {
    if conds != [] {
      FindWithout(conds[1..], gone, t);
      if conds[0].ctype != gone {
        assert Without(conds, gone)[1..] == Without(conds[1..], gone);
      } else {
        assert Without(conds, gone) == Without(conds[1..], gone);
      }
    }
  }

  lemma {:induction false} FindKnown(conds: seq<Condition>, t: ConditionType)
    ensures Find(Known(conds), t) == if IsKnown(t) then Find(conds, t) else None
  {
    if conds != [] {
      FindKnown(conds[1..], t);
      if IsKnown(conds[0].ctype) {
        assert Known(conds)[1..] == Known(conds[1..]);
      } else {
        assert Known(conds) == Known(conds[1..]);
      }
    }
  }

  /** Members of the three results, by type and origin: what the `Distinct` proofs need. */
  lemma {:induction false} PutMembers(conds: seq<Condition>, c: Condition)
    ensures forall x | x in Put(conds, c) :: x == c || x in conds
  {
    if conds != [] && conds[0].ctype != c.ctype {
      PutMembers(conds[1..], c);
    }
  }

  lemma {:induction false} PutDistinct(conds: seq<Condition>, c: Condition)
    requires Distinct(conds)
    ensures Distinct(Put(conds, c))
  {
    if conds != [] && conds[0].ctype != c.ctype {
      var rest := Put(conds[1..], c);
      PutDistinct(conds[1..], c);
      PutMembers(conds[1..], c);
      forall j | 0 <= j < |rest| ensures rest[j].ctype != conds[0].ctype {
        assert rest[j] in rest;
      }
    }
  }

  lemma {:induction false} WithoutMembers(conds: seq<Condition>, t: ConditionType)
    ensures forall x :: x in Without(conds, t) <==> x in conds && x.ctype != t
  {
    if conds != [] {
      WithoutMembers(conds[1..], t);
    }
  }

  lemma {:induction false} WithoutDistinct(conds: seq<Condition>, t: ConditionType)
    requires Distinct(conds)
    ensures Distinct(Without(conds, t))
  {
    if conds != [] {
      var rest := Without(conds[1..], t);
      WithoutDistinct(conds[1..], t);
      WithoutMembers(conds[1..], t);
      forall j | 0 <= j < |rest| ensures rest[j].ctype != conds[0].ctype {
        assert rest[j] in rest;
      }
    }
  }

  lemma {:induction false} KnownMembers(conds: seq<Condition>)
    ensures forall x :: x in Known(conds) <==> x in conds && IsKnown(x.ctype)
  {
    if conds != [] {
      KnownMembers(conds[1..]);
    }
  }

  lemma {:induction false} KnownDistinct(conds: seq<Condition>)
    requires Distinct(conds)
    ensures Distinct(Known(conds))
  {
    if conds != [] {
      var rest := Known(conds[1..]);
      KnownDistinct(conds[1..]);
      KnownMembers(conds[1..]);
      forall j | 0 <= j < |rest| ensures rest[j].ctype != conds[0].ctype {
        assert rest[j] in rest;
      }
    }
  }

  // ---- The loops ----

  method GetCondition(conditions: seq<Condition>, t: ConditionType) returns (r: Option<Condition>)
    ensures r == Find(conditions, t)
  {
    for i := 0 to |conditions|
      invariant Find(conditions, t) == Find(conditions[i..], t)
    {
      if conditions[i].ctype == t {
        return Some(conditions[i]);
      }
      assert conditions[i..][1..] == conditions[i + 1..];
    }
    return None;
  }

  method SetCondition(existing: seq<Condition>, c: Condition) returns (r: seq<Condition>)
    ensures r == Put(existing, c)
  {
    for i := 0 to |existing|
      invariant Put(existing, c) == existing[..i] + Put(existing[i..], c)
    {
      if existing[i].ctype == c.ctype {
        assert existing[..i] + ([c] + existing[i..][1..]) == existing[i := c];
        return existing[i := c];
      }
      assert existing[i..][1..] == existing[i + 1..];
      assert existing[..i + 1] == existing[..i] + [existing[i]];
    }
    return existing + [c];
  }

  method RemoveCondition(conditions: seq<Condition>, t: ConditionType) returns (filtered: seq<Condition>)
    ensures filtered == Without(conditions, t)
  {
    filtered := [];
    for i := 0 to |conditions|
      invariant Without(conditions, t) == filtered + Without(conditions[i..], t)
    {
      assert conditions[i..][1..] == conditions[i + 1..];
      if conditions[i].ctype != t {
        assert filtered + ([conditions[i]] + Without(conditions[i + 1..], t))
            == filtered + [conditions[i]] + Without(conditions[i + 1..], t);
        filtered := filtered + [conditions[i]];
      }
    }
  }

  const ValidConditionTypes: seq<ConditionType> := [
    Available, RolloutBlocked, ComponentsCreated,
    ComponentReady(Quay), ComponentReady(Postgres), ComponentReady(Clair),
    ComponentReady(ClairPostgres), ComponentReady(Redis), ComponentReady(HPA),
    ComponentReady(ObjectStorage), ComponentReady(Route), ComponentReady(Mirror),
    ComponentReady(Monitoring), ComponentReady(TLS)
  ]

  /** The table of valid types has the three of the registry as a whole, one per component, and no other. */
  lemma ValidTypesAreKnown(t: ConditionType)
    ensures t in ValidConditionTypes <==> IsKnown(t)
    ensures IsKnown(t) <==> t.Available? || t.RolloutBlocked? || t.ComponentsCreated? || t.ComponentReady?
  {
    var v := ValidConditionTypes;
    match t
    case Available => assert t == v[0];
    case RolloutBlocked => assert t == v[1];
    case ComponentsCreated => assert t == v[2];
    case Other(_) =>
    case ComponentReady(kind) =>
      match kind
      case Quay => assert t == v[3];
      case Postgres => assert t == v[4];
      case Clair => assert t == v[5];
      case ClairPostgres => assert t == v[6];
      case Redis => assert t == v[7];
      case HPA => assert t == v[8];
      case ObjectStorage => assert t == v[9];
      case Route => assert t == v[10];
      case Mirror => assert t == v[11];
      case Monitoring => assert t == v[12];
      case TLS => assert t == v[13];
  }

  method RemoveUnusedConditions(conditions: seq<Condition>) returns (newconds: seq<Condition>)
    ensures newconds == Known(conditions)
  {
    newconds := [];
    for i := 0 to |conditions|
      invariant Known(conditions) == newconds + Known(conditions[i..])
    {
      assert conditions[i..][1..] == conditions[i + 1..];
      ValidTypesAreKnown(conditions[i].ctype);
      var j := 0;
      while j < |ValidConditionTypes| && conditions[i].ctype != ValidConditionTypes[j]
        invariant 0 <= j <= |ValidConditionTypes|
        invariant conditions[i].ctype !in ValidConditionTypes[..j]
      {
        j := j + 1;
      }
      if j < |ValidConditionTypes| {
        newconds := newconds + [conditions[i]];
      }
    }
  }
}
