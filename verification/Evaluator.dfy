/**
 The staged evaluation of component health (pkg/cmpstatus/evaluator.go): components nothing
 depends on, then those quay depends on, then quay, then mirror.
 */
module Evaluator {
  import opened Wrappers
  import opened Conditions
  import opened Checkers

  /** What the eleven checkers answer if they are asked. */
  datatype Answers = Answers(
    hpa: Checked, route: Checked, monitoring: Checked,
    postgres: Checked, objectStorage: Checked, clair: Checked,
    clairPostgres: Checked, tls: Checked, redis: Checked,
    quay: Checked, mirror: Checked
  ) {
    function Independent(): seq<Checked> {
      [hpa, route, monitoring]
    }

    function Dependencies(): seq<Checked> {
      [postgres, objectStorage, clair, clairPostgres, tls, redis]
    }
  }

  predicate Answered(a: Checked, kind: ComponentKind) {
    a.Ok? ==> PlainReport(a.value, kind)
  }

  /** Every checker keeps to its contract; the databases and monitoring have wider ones. */
  predicate Plausible(a: Answers) {
    && Answered(a.hpa, HPA) && Answered(a.route, Route)
    && (a.monitoring.Ok? ==> a.monitoring.value == ZeroCondition || PlainReport(a.monitoring.value, Monitoring))
    && (a.postgres.Ok? ==> DatabaseReport(a.postgres.value, Postgres))
    && Answered(a.objectStorage, ObjectStorage) && Answered(a.clair, Clair)
    && (a.clairPostgres.Ok? ==> DatabaseReport(a.clairPostgres.value, ClairPostgres))
    && Answered(a.tls, TLS) && Answered(a.redis, Redis)
    && Answered(a.quay, Quay) && Answered(a.mirror, Mirror)
  }

  const DependencyNames: seq<string> := ["postgres", "objectstorage", "clair", "clairpostgres", "tls", "redis"]

  function AwaitingDependencies(failed: seq<string>, now: Time): Condition {
    Condition(ComponentReady(Quay), False, ComponentNotReady, AwaitingComponents(failed), now, 0)
  }

  /** `now` is 0 on the path that leaves the update time unset. */
  function AwaitingQuay(now: Time): Condition {
    Condition(ComponentReady(Mirror), False, ComponentNotReady, AwaitingQuayComponent, now, 0)
  }

  // ---- Reference description ----

  predicate AllOk(answers: seq<Checked>) {
    forall i | 0 <= i < |answers| :: answers[i].Ok?
  }

  function Values(answers: seq<Checked>): (r: seq<Condition>)
    requires AllOk(answers)
    ensures |r| == |answers|
    ensures forall i | 0 <= i < |r| :: r[i] == answers[i].value
  {
    seq(|answers|, i requires 0 <= i < |answers| => answers[i].value)
  }

  function FirstError(answers: seq<Checked>): (r: Option<string>)
    ensures r.None? <==> AllOk(answers)
  {
    if answers == [] then None
    else if answers[0].Err? then Some(answers[0].error)
    else
      assert AllOk(answers) <==> AllOk(answers[1..]) by {
        if AllOk(answers[1..]) {
          forall i | 0 <= i < |answers| ensures answers[i].Ok? {
            if i > 0 { assert answers[1..][i - 1].Ok?; }
          }
        }
      }
      FirstError(answers[1..])
  }

  /** The names, in order, whose condition is not True. */
  function Failed(conds: seq<Condition>, names: seq<string>): (r: seq<string>)
    requires |conds| == |names|
    ensures r == [] <==> forall i | 0 <= i < |conds| :: conds[i].status == True
  {
    if conds == [] then []
    else (if conds[0].status != True then [names[0]] else []) + Failed(conds[1..], names[1..])
  }

  /** The conditions that follow those of the first nine components. */
  function Tail(a: Answers, now: Time): Result<seq<Condition>, string>
    requires AllOk(a.Dependencies())
  {
    var failed := Failed(Values(a.Dependencies()), DependencyNames);
    if failed != [] then Ok([AwaitingDependencies(failed, now), AwaitingQuay(now)])
    else if a.quay.Err? then Err(a.quay.error)
    else if a.quay.value.status != True then Ok([a.quay.value, AwaitingQuay(0)])
    else if a.mirror.Err? then Err(a.mirror.error)
    else Ok([a.quay.value, a.mirror.value])
  }

  function Evaluation(a: Answers, now: Time): Result<seq<Condition>, string> {
    if FirstError(a.Independent()).Some? then Err(FirstError(a.Independent()).value)
    else if FirstError(a.Dependencies()).Some? then Err(FirstError(a.Dependencies()).value)
    else
      match Tail(a, now)
      case Err(e) => Err(e)
      case Ok(tail) => Ok(Values(a.Independent()) + Values(a.Dependencies()) + tail)
  }

  // ---- The loops ----

  lemma ValuesSnoc(answers: seq<Checked>, i: nat)
    requires i < |answers| && AllOk(answers[..i]) && answers[i].Ok?
    ensures AllOk(answers[..i + 1]) && Values(answers[..i + 1]) == Values(answers[..i]) + [answers[i].value]
  {
    assert answers[..i + 1] == answers[..i] + [answers[i]];
  }

  method CheckIndependent(answers: seq<Checked>) returns (r: Result<seq<Condition>, string>)
    ensures FirstError(answers).Some? ==> r == Err(FirstError(answers).value)
    ensures FirstError(answers).None? ==> r == Ok(Values(answers))
  {
    var conds: seq<Condition> := [];
    for i := 0 to |answers|
      invariant AllOk(answers[..i])
      invariant conds == Values(answers[..i])
      invariant FirstError(answers) == FirstError(answers[i..])
    {
      assert answers[i..][1..] == answers[i + 1..];
      if answers[i].Err? {
        return Err(answers[i].error);
      }
      ValuesSnoc(answers, i);
      conds := conds + [answers[i].value];
    }
    assert answers[..|answers|] == answers;
    return Ok(conds);
  }

  method CheckDependencies(answers: seq<Checked>, names: seq<string>)
    returns (r: Result<seq<Condition>, string>, failed: seq<string>)
    requires |answers| == |names|
    ensures FirstError(answers).Some? ==> r == Err(FirstError(answers).value)
    ensures FirstError(answers).None? ==> r == Ok(Values(answers)) && failed == Failed(Values(answers), names)
  {
    var conds: seq<Condition> := [];
    failed := [];
    for i := 0 to |answers|
      invariant AllOk(answers[..i])
      invariant conds == Values(answers[..i])
      invariant failed == Failed(conds, names[..i])
      invariant FirstError(answers) == FirstError(answers[i..])
    {
      assert answers[i..][1..] == answers[i + 1..];
      if answers[i].Err? {
        return Err(answers[i].error), failed;
      }
      var cond := answers[i].value;
      ValuesSnoc(answers, i);
      FailedSnoc(conds, names[..i], cond, names[i]);
      conds := conds + [cond];
      if cond.status != True {
        failed := failed + [names[i]];
      }
      assert names[..i + 1] == names[..i] + [names[i]];
    }
    assert answers[..|answers|] == answers;
    assert names[..|answers|] == names;
    return Ok(conds), failed;
  }

  method Evaluate(a: Answers, now: Time) returns (r: Result<seq<Condition>, string>)
    ensures r == Evaluation(a, now)
  {
    var independent := CheckIndependent(a.Independent());
    if independent.Err? {
      return Err(independent.error);
    }
    var dependencies, failed := CheckDependencies(a.Dependencies(), DependencyNames);
    if dependencies.Err? {
      return Err(dependencies.error);
    }
    var conds := independent.value + dependencies.value;

    if |failed| > 0 {
      return Ok(conds + [AwaitingDependencies(failed, now), AwaitingQuay(now)]);
    }
    if a.quay.Err? {
      return Err(a.quay.error);
    }
    if a.quay.value.status != True {
      return Ok(conds + [a.quay.value, AwaitingQuay(0)]);
    }
    if a.mirror.Err? {
      return Err(a.mirror.error);
    }
    return Ok(conds + [a.quay.value, a.mirror.value]);
  }

  lemma {:induction false} FailedSnoc(conds: seq<Condition>, names: seq<string>, cond: Condition, name: string)
    requires |conds| == |names|
    ensures Failed(conds + [cond], names + [name])
         == Failed(conds, names) + if cond.status != True then [name] else []
  {
    if conds != [] {
      FailedSnoc(conds[1..], names[1..], cond, name);
      assert (conds + [cond])[1..] == conds[1..] + [cond];
      assert (names + [name])[1..] == names[1..] + [name];
    }
  }

  // ---- What the conditions mean together ----

  /** The types a status report may carry: component types, and the unset one at most once. */
  predicate IsReport(conds: seq<Condition>) {
    && (forall i | 0 <= i < |conds| :: conds[i].ctype.ComponentReady? || conds[i] == ZeroCondition)
    && (forall i, j | 0 <= i < j < |conds| :: conds[i].ctype != conds[j].ctype)
  }

  predicate SomeFalse(conds: seq<Condition>) {
    exists i | 0 <= i < |conds| :: conds[i].status == False
  }

  predicate SomeNotReady(conds: seq<Condition>) {
    exists i | 0 <= i < |conds| :: conds[i].reason == ComponentNotReady
  }

  /** Where a successful evaluation reports on each component. */
  function Position(kind: ComponentKind): (i: nat)
    ensures i < 11
  {
    match kind
    case HPA => 0
    case Route => 1
    case Monitoring => 2
    case Postgres => 3
    case ObjectStorage => 4
    case Clair => 5
    case ClairPostgres => 6
    case TLS => 7
    case Redis => 8
    case Quay => 9
    case Mirror => 10
  }

  predicate AllAnswered(a: Answers) {
    a.hpa.Ok? && a.route.Ok? && a.monitoring.Ok? && a.postgres.Ok? && a.objectStorage.Ok?
    && a.clair.Ok? && a.clairPostgres.Ok? && a.tls.Ok? && a.redis.Ok?
  }

  lemma EvaluationShape(a: Answers, now: Time)
    requires Evaluation(a, now).Ok?
    ensures AllAnswered(a) && AllOk(a.Dependencies())
    ensures Tail(a, now).Ok? && |Tail(a, now).value| == 2
    ensures |Values(a.Dependencies())| == 6
    ensures var conds := Evaluation(a, now).value;
            && |conds| == 11
            && conds[0] == a.hpa.value && conds[1] == a.route.value && conds[2] == a.monitoring.value
            && conds[3] == a.postgres.value && conds[4] == a.objectStorage.value && conds[5] == a.clair.value
            && conds[6] == a.clairPostgres.value && conds[7] == a.tls.value && conds[8] == a.redis.value
            && conds[9] == Tail(a, now).value[0] && conds[10] == Tail(a, now).value[1]
            && forall i | 3 <= i < 9 :: conds[i] == Values(a.Dependencies())[i - 3]
  {
    var x, y := a.Independent(), a.Dependencies();
    assert x[0].Ok? && x[1].Ok? && x[2].Ok?;
    assert y[0].Ok? && y[1].Ok? && y[2].Ok? && y[3].Ok? && y[4].Ok? && y[5].Ok?;
  }

  /** The eleven conditions are those of the eleven components, in a fixed order. */
  lemma EvaluationTypes(a: Answers, now: Time)
    requires Plausible(a) && Evaluation(a, now).Ok?
    ensures |Evaluation(a, now).value| == 11
    ensures forall kind :: Evaluation(a, now).value[Position(kind)].ctype == ComponentReady(kind)
                           || (kind == Monitoring && Evaluation(a, now).value[Position(kind)] == ZeroCondition)
  {
    EvaluationShape(a, now);
  }

  function KindAt(i: nat): (kind: ComponentKind)
    requires i < 11
    ensures Position(kind) == i
  {
    if i == 0 then HPA else if i == 1 then Route else if i == 2 then Monitoring
    else if i == 3 then Postgres else if i == 4 then ObjectStorage else if i == 5 then Clair
    else if i == 6 then ClairPostgres else if i == 7 then TLS else if i == 8 then Redis
    else if i == 9 then Quay else Mirror
  }

  /** A successful evaluation reports each type once; only monitoring may be left out. */
  lemma EvaluationIsReport(a: Answers, now: Time)
    requires Plausible(a) && Evaluation(a, now).Ok?
    ensures IsReport(Evaluation(a, now).value)
    ensures forall kind | kind != Monitoring ::
              exists c | c in Evaluation(a, now).value :: c.ctype == ComponentReady(kind)
  {
    EvaluationTypes(a, now);
    var conds := Evaluation(a, now).value;
    forall i | 0 <= i < |conds| ensures conds[i].ctype.ComponentReady? || conds[i] == ZeroCondition {
      assert Position(KindAt(i)) == i;
    }
    forall i, j | 0 <= i < j < |conds| ensures conds[i].ctype != conds[j].ctype {
      assert Position(KindAt(i)) == i && Position(KindAt(j)) == j;
    }
    forall kind | kind != Monitoring ensures exists c | c in conds :: c.ctype == ComponentReady(kind) {
      assert conds[Position(kind)] in conds;
    }
  }

  lemma TailReported(a: Answers, now: Time)
    requires Plausible(a) && AllOk(a.Dependencies()) && Tail(a, now).Ok?
    ensures |Tail(a, now).value| == 2
    ensures PlainReport(Tail(a, now).value[0], Quay) && PlainReport(Tail(a, now).value[1], Mirror)
    ensures (exists i | 0 <= i < 6 :: Values(a.Dependencies())[i].status != True)
              ==> Tail(a, now).value[0].reason == ComponentNotReady
  {
  }

  predicate ReasonsMatch(conds: seq<Condition>) {
    && |conds| == 11
    && (forall i | 0 <= i < 11 :: conds[i].reason == ComponentNotReady ==> conds[i].status == False)
    && (forall i | 0 <= i < 11 :: conds[i].status == False
                                  ==> conds[i].reason == ComponentNotReady || conds[9].reason == ComponentNotReady)
  }

  /** Each component's condition keeps its checker's contract, and quay's mentions failed dependencies. */
  predicate Reported(conds: seq<Condition>) {
    && |conds| == 11
    && (forall kind | kind !in {Monitoring, Postgres, ClairPostgres} :: PlainReport(conds[Position(kind)], kind))
    && (conds[2] == ZeroCondition || PlainReport(conds[2], Monitoring))
    && DatabaseReport(conds[3], Postgres) && DatabaseReport(conds[6], ClairPostgres)
    && (conds[3].status != True || conds[6].status != True ==> conds[9].reason == ComponentNotReady)
  }

  lemma EvaluationReported(a: Answers, now: Time)
    requires Plausible(a) && Evaluation(a, now).Ok?
    ensures Reported(Evaluation(a, now).value)
  {
    EvaluationShape(a, now);
    TailReported(a, now);
    var conds, values := Evaluation(a, now).value, Values(a.Dependencies());
    assert conds[3] == values[0] && conds[6] == values[3];
    assert conds[9].reason == ComponentNotReady || (values[0].status == True && values[3].status == True);
    forall kind | kind !in {Monitoring, Postgres, ClairPostgres} ensures PlainReport(conds[Position(kind)], kind) {
      match kind {
        case HPA => assert conds[0] == a.hpa.value;
        case Route => assert conds[1] == a.route.value;
        case ObjectStorage => assert conds[4] == a.objectStorage.value;
        case Clair => assert conds[5] == a.clair.value;
        case TLS => assert conds[7] == a.tls.value;
        case Redis => assert conds[8] == a.redis.value;
        case Quay =>
        case Mirror =>
      }
    }
  }

  lemma ReportedReasons(conds: seq<Condition>)
    requires Reported(conds)
    ensures ReasonsMatch(conds)
  {
    forall i | 0 <= i < 11
      ensures conds[i].reason == ComponentNotReady ==> conds[i].status == False
      ensures conds[i].status == False ==> conds[i].reason == ComponentNotReady || conds[9].reason == ComponentNotReady
    {
      assert Position(KindAt(i)) == i;
      if KindAt(i) !in {Monitoring, Postgres, ClairPostgres} {
        assert PlainReport(conds[Position(KindAt(i))], KindAt(i));
      }
    }
  }

  /**
   A False condition need not carry the NotReady reason: databases use reasons of their own.
   Some other condition of the same evaluation then carries it, so looking for the reason
   and looking for the status amount to the same.
   */
  lemma NotReadyIffFalse(a: Answers, now: Time)
    requires Plausible(a) && Evaluation(a, now).Ok?
    ensures SomeNotReady(Evaluation(a, now).value) <==> SomeFalse(Evaluation(a, now).value)
  {
    var conds := Evaluation(a, now).value;
    EvaluationReported(a, now);
    ReportedReasons(conds);
    if SomeFalse(conds) {
      var i :| 0 <= i < |conds| && conds[i].status == False;
      assert conds[if conds[i].reason == ComponentNotReady then i else 9].reason == ComponentNotReady;
    }
  }

  /** Quay is only reported healthy over healthy dependencies, and mirror over a healthy quay. */
  lemma HealthIsStaged(a: Answers, now: Time)
    requires Plausible(a) && Evaluation(a, now).Ok?
    ensures |Evaluation(a, now).value| == 11
    ensures var conds := Evaluation(a, now).value;
            conds[Position(Quay)].status == True ==> forall i | 3 <= i < 9 :: conds[i].status == True
    ensures var conds := Evaluation(a, now).value;
            conds[Position(Mirror)].status == True ==> conds[Position(Quay)].status == True
  {
    EvaluationShape(a, now);
  }

  // ---- Exactly what is reported ----

  /** Everything quay depends on is reported healthy. */
  predicate DependenciesTrue(a: Answers) {
    && a.postgres.Ok? && a.postgres.value.status == True
    && a.objectStorage.Ok? && a.objectStorage.value.status == True
    && a.clair.Ok? && a.clair.value.status == True
    && a.clairPostgres.Ok? && a.clairPostgres.value.status == True
    && a.tls.Ok? && a.tls.value.status == True
    && a.redis.Ok? && a.redis.value.status == True
  }

  predicate QuayTrue(a: Answers) {
    DependenciesTrue(a) && a.quay.Ok? && a.quay.value.status == True
  }

  /** The checkers that are asked, in their order; the last two only over healthy ones. */
  function Asked(a: Answers): (asked: seq<Checked>)
    ensures |asked| >= 9
  {
    [a.hpa, a.route, a.monitoring, a.postgres, a.objectStorage, a.clair, a.clairPostgres, a.tls, a.redis]
    + (if DependenciesTrue(a) then [a.quay] else []) + (if QuayTrue(a) then [a.mirror] else [])
  }

  lemma DependenciesFailed(a: Answers)
    requires AllOk(a.Dependencies())
    ensures Failed(Values(a.Dependencies()), DependencyNames) == [] <==> DependenciesTrue(a)
  {
    var d, v := a.Dependencies(), Values(a.Dependencies());
    assert d[0].Ok? && d[1].Ok? && d[2].Ok? && d[3].Ok? && d[4].Ok? && d[5].Ok?;
    assert v[0] == a.postgres.value && v[1] == a.objectStorage.value && v[2] == a.clair.value;
    assert v[3] == a.clairPostgres.value && v[4] == a.tls.value && v[5] == a.redis.value;
  }

  lemma NineOk(a: Answers)
    ensures AllAnswered(a) <==> AllOk(a.Independent()) && AllOk(a.Dependencies())
  {
    var x, y := a.Independent(), a.Dependencies();
    assert AllOk(x) ==> x[0].Ok? && x[1].Ok? && x[2].Ok?;
    assert AllOk(y) ==> y[0].Ok? && y[1].Ok? && y[2].Ok? && y[3].Ok? && y[4].Ok? && y[5].Ok?;
  }

  lemma AskedOk(a: Answers)
    ensures AllOk(Asked(a)) <==> AllAnswered(a) && (DependenciesTrue(a) ==> a.quay.Ok?) && (QuayTrue(a) ==> a.mirror.Ok?)
  {
    var asked := Asked(a);
    assert asked[0] == a.hpa && asked[1] == a.route && asked[2] == a.monitoring && asked[3] == a.postgres
        && asked[4] == a.objectStorage && asked[5] == a.clair && asked[6] == a.clairPostgres && asked[7] == a.tls && asked[8] == a.redis;
    assert DependenciesTrue(a) ==> asked[9] == a.quay;
    assert QuayTrue(a) ==> asked[10] == a.mirror;
  }

  /** The evaluation fails exactly if a checker that is asked does. */
  lemma FailsIffAskedFails(a: Answers, now: Time)
    ensures Evaluation(a, now).Err? <==> !AllOk(Asked(a))
  {
    NineOk(a);
    AskedOk(a);
    if AllOk(a.Dependencies()) {
      DependenciesFailed(a);
    }
  }

  /** And it fails with the error of the first of them. */
  lemma FirstErrorIsReported(a: Answers, now: Time, i: nat)
    requires i < |Asked(a)| && Asked(a)[i].Err? && AllOk(Asked(a)[..i])
    ensures Evaluation(a, now) == Err(Asked(a)[i].error)
  {
    var asked, x, y := Asked(a), a.Independent(), a.Dependencies();
    NineOk(a);
    assert forall k | 0 <= k < i :: asked[..i][k] == asked[k];
    assert forall k | 0 <= k < 3 :: asked[k] == x[k];
    assert forall k | 3 <= k < 9 :: asked[k] == y[k - 3];
    if i < 3 {
      FirstErrorAt(x, i);
    } else if i < 9 {
      assert FirstError(x).None?;
      forall k | 0 <= k < i - 3 ensures y[k].Ok? {
        assert asked[..i][k + 3] == asked[k + 3] == y[k];
      }
      FirstErrorAt(y, i - 3);
    } else {
      assert AllOk(x) && AllOk(y);
      DependenciesFailed(a);
    }
  }

  lemma {:induction false} FirstErrorAt(answers: seq<Checked>, i: nat)
    requires i < |answers| && answers[i].Err? && forall k | 0 <= k < i :: answers[k].Ok?
    ensures FirstError(answers) == Some(answers[i].error)
  {
    if i > 0 {
      FirstErrorAt(answers[1..], i - 1);
    }
  }

  /** The dependency at this place of the message is reported as failed. */
  predicate Names(failed: seq<string>, a: Answers)
    requires AllAnswered(a)
  {
    && ("postgres" in failed <==> a.postgres.value.status != True)
    && ("objectstorage" in failed <==> a.objectStorage.value.status != True)
    && ("clair" in failed <==> a.clair.value.status != True)
    && ("clairpostgres" in failed <==> a.clairPostgres.value.status != True)
    && ("tls" in failed <==> a.tls.value.status != True)
    && ("redis" in failed <==> a.redis.value.status != True)
  }

  lemma {:induction false} FailedMembers(conds: seq<Condition>, names: seq<string>, k: nat)
    requires |conds| == |names| && k < |names| && forall i, j | 0 <= i < j < |names| :: names[i] != names[j]
    ensures names[k] in Failed(conds, names) <==> conds[k].status != True
    ensures forall n | n in Failed(conds, names) :: n in names
  {
    if k > 0 {
      FailedMembers(conds[1..], names[1..], k - 1);
    } else if |names| > 1 {
      FailedMembers(conds[1..], names[1..], 0);
    }
  }

  lemma FailedNames(a: Answers)
    requires AllAnswered(a) && AllOk(a.Dependencies())
    ensures Names(Failed(Values(a.Dependencies()), DependencyNames), a)
  {
    var v := Values(a.Dependencies());
    forall k: nat | k < 6 ensures DependencyNames[k] in Failed(v, DependencyNames) <==> v[k].status != True {
      FailedMembers(v, DependencyNames, k);
    }
    assert DependencyNames[0] == "postgres" && DependencyNames[1] == "objectstorage" && DependencyNames[2] == "clair";
    assert DependencyNames[3] == "clairpostgres" && DependencyNames[4] == "tls" && DependencyNames[5] == "redis";
  }

  /** Quay is what its checker says over healthy dependencies, and else waits for those that are not. */
  predicate QuayReported(a: Answers, c: Condition)
    requires AllAnswered(a)
  {
    if DependenciesTrue(a) then a.quay == Ok(c)
    else
      && c.ctype == ComponentReady(Quay) && c.status == False && c.reason == ComponentNotReady
      && c.message.AwaitingComponents? && Names(c.message.names, a)
  }

  /** Mirror is what its checker says over a healthy quay, and else waits for quay. */
  predicate MirrorReported(a: Answers, c: Condition) {
    if QuayTrue(a) then a.mirror == Ok(c)
    else
      && c.ctype == ComponentReady(Mirror) && c.status == False && c.reason == ComponentNotReady
      && c.message == AwaitingQuayComponent
  }

  /** Exactly what a successful evaluation reports: what each checker says, if it is asked. */
  lemma EvaluationIsExact(a: Answers, now: Time)
    requires Evaluation(a, now).Ok?
    ensures AllAnswered(a) && |Evaluation(a, now).value| == 11
    ensures var c := Evaluation(a, now).value;
            && Ok(c[0]) == a.hpa && Ok(c[1]) == a.route && Ok(c[2]) == a.monitoring
            && Ok(c[3]) == a.postgres && Ok(c[4]) == a.objectStorage && Ok(c[5]) == a.clair
            && Ok(c[6]) == a.clairPostgres && Ok(c[7]) == a.tls && Ok(c[8]) == a.redis
            && QuayReported(a, c[9]) && MirrorReported(a, c[10])
  {
    EvaluationShape(a, now);
    DependenciesFailed(a);
    FailedNames(a);
  }

  predicate EveryoneTrue(a: Answers) {
    && a.hpa.Ok? && a.hpa.value.status == True && a.route.Ok? && a.route.value.status == True
    && a.monitoring.Ok? && a.monitoring.value.status == True
    && QuayTrue(a) && a.mirror.Ok? && a.mirror.value.status == True
  }

  /** A healthy cluster is reported healthy, and nothing else is. */
  lemma AllHealthyIff(a: Answers, now: Time)
    ensures EveryoneTrue(a) <==>
            Evaluation(a, now).Ok? && forall i | 0 <= i < |Evaluation(a, now).value| :: Evaluation(a, now).value[i].status == True
  {
    FailsIffAskedFails(a, now);
    AskedOk(a);
    if Evaluation(a, now).Ok? {
      EvaluationIsExact(a, now);
      var c := Evaluation(a, now).value;
      if forall i | 0 <= i < |c| :: c[i].status == True {
        assert c[0].status == True && c[1].status == True && c[2].status == True && c[9].status == True && c[10].status == True;
      }
      if EveryoneTrue(a) {
        forall i | 0 <= i < 11 ensures c[i].status == True {
          assert Position(KindAt(i)) == i;
        }
      }
    }
  }
}
