/**
 Environment overrides for containers (pkg/middleware/middleware.go): one upsert, and what
 folding it over a list of overrides leaves behind.
 */
module Containers {
  import opened Wrappers

  /** `content` is the value or the reference the variable takes it from. */
  datatype EnvVar = EnvVar(name: string, content: string)

  class Container {
    var env: seq<EnvVar>

    constructor (env: seq<EnvVar>)
      ensures this.env == env
    {
      this.env := env;
    }
  }

  // ---- What the loops compute ----

  function Upsert(env: seq<EnvVar>, v: EnvVar): seq<EnvVar> {
    if env == [] then [v]
    else if env[0].name == v.name then [v] + env[1..]
    else [env[0]] + Upsert(env[1..], v)
  }

  function Overridden(env: seq<EnvVar>, overrides: seq<EnvVar>): seq<EnvVar>
    decreases overrides
  {
    if overrides == [] then env else Overridden(Upsert(env, overrides[0]), overrides[1..])
  }

  method UpsertContainerEnv(container: Container, newv: EnvVar)
    modifies container
    ensures container.env == Upsert(old(container.env), newv)
  {
    for i := 0 to |container.env|
      invariant container.env == old(container.env)
      invariant forall j | 0 <= j < i :: container.env[j].name != newv.name
    {
      if container.env[i].name != newv.name {
        continue;
      }
      assert IndexOf(container.env, newv.name) == i;
      UpsertAt(container.env, newv);
      container.env := container.env[i := newv];
      return;
    }
    UpsertAt(container.env, newv);
    container.env := container.env + [newv];
  }

  /** Every override goes to every container, in the order of the overrides. */
  method OverrideEnv(containers: seq<Container>, overrides: seq<EnvVar>)
    requires forall i, j | 0 <= i < j < |containers| :: containers[i] != containers[j]
    modifies set i | 0 <= i < |containers| :: containers[i]
    ensures forall i | 0 <= i < |containers| :: containers[i].env == Overridden(old(containers[i].env), overrides)
  {
    for k := 0 to |overrides|
      invariant forall i | 0 <= i < |containers| ::
                  Overridden(containers[i].env, overrides[k..]) == Overridden(old(containers[i].env), overrides)
    {
      var oenv := overrides[k];
      assert overrides[k..][0] == oenv && overrides[k..][1..] == overrides[k + 1..];
      for i := 0 to |containers|
        invariant forall j | 0 <= j < i ::
                    Overridden(containers[j].env, overrides[k + 1..]) == Overridden(old(containers[j].env), overrides)
        invariant forall j | i <= j < |containers| ::
                    Overridden(containers[j].env, overrides[k..]) == Overridden(old(containers[j].env), overrides)
      {
        UpsertContainerEnv(containers[i], oenv);
      }
    }
  }

  // ---- Reading the result ----

  /** Position of the first variable of that name, or the length. */
  function IndexOf(env: seq<EnvVar>, name: string): (i: nat)
    ensures i <= |env| && (i < |env| ==> env[i].name == name)
    ensures forall j | 0 <= j < i :: env[j].name != name
  {
    if env == [] || env[0].name == name then 0 else 1 + IndexOf(env[1..], name)
  }

  predicate Names(env: seq<EnvVar>, name: string) {
    exists i | 0 <= i < |env| :: env[i].name == name
  }

  function LastOverride(overrides: seq<EnvVar>, name: string): (v: EnvVar)
    requires Names(overrides, name)
    ensures v in overrides && v.name == name
  {
    if Names(overrides[1..], name) then LastOverride(overrides[1..], name) else overrides[0]
  }

  lemma {:induction false} UpsertAt(env: seq<EnvVar>, v: EnvVar)
    ensures var i := IndexOf(env, v.name);
            Upsert(env, v) == if i < |env| then env[i := v] else env + [v]
  {
    if env != [] && env[0].name != v.name {
      UpsertAt(env[1..], v);
      var i := IndexOf(env[1..], v.name);
      if i < |env| - 1 {
        assert env[i + 1 := v] == [env[0]] + env[1..][i := v];
      } else {
        assert env + [v] == [env[0]] + (env[1..] + [v]);
      }
    }
  }

  /** A variable that is overridden ends up as its last override says. */
  lemma {:induction false} LastOverrideWins(env: seq<EnvVar>, overrides: seq<EnvVar>, name: string)
    requires Names(overrides, name)
    ensures var r := Overridden(env, overrides);
            IndexOf(r, name) < |r| && r[IndexOf(r, name)] == LastOverride(overrides, name)
    decreases overrides
  {
    var o, later := overrides[0], overrides[1..];
    if Names(later, name) {
      LastOverrideWins(Upsert(env, o), later, name);
    } else {
      assert overrides == [o] + later;
      assert o.name == name;
      UpsertAt(env, o);
      var i, r := IndexOf(env, name), Upsert(env, o);
      assert r[i] == o && forall j | 0 <= j < i :: r[j] == env[j];
      assert IndexOf(r, name) == i;
      OthersKeepTheirPlace(r, later, i);
      assert Overridden(env, overrides) == Overridden(r, later);
      FirstStaysFirst(r, later, i);
    }
  }

  /** No variable moves; one that is not overridden, or repeats an earlier name, does not change. */
  lemma {:induction false} OthersKeepTheirPlace(env: seq<EnvVar>, overrides: seq<EnvVar>, i: nat)
    requires i < |env|
    ensures |env| <= |Overridden(env, overrides)|
    ensures Overridden(env, overrides)[i].name == env[i].name
    ensures !Names(overrides, env[i].name) || IndexOf(env, env[i].name) != i ==> Overridden(env, overrides)[i] == env[i]
    decreases overrides
  {
    if overrides != [] {
      var o, later := overrides[0], overrides[1..];
      UpsertAt(env, o);
      var r := Upsert(env, o);
      OthersKeepTheirPlace(r, later, i);
      var n := env[i].name;
      assert Names(later, n) ==> Names(overrides, n) by {
        if Names(later, n) {
          var k :| 0 <= k < |later| && later[k].name == n;
          assert overrides[k + 1].name == n;
        }
      }
      assert o.name == n ==> overrides[0].name == n;
      if IndexOf(env, n) != i {
        assert r[IndexOf(env, n)].name == n;
        assert r[i] == env[i];
      }
    }
  }

  lemma FirstStaysFirst(env: seq<EnvVar>, overrides: seq<EnvVar>, i: nat)
    requires i < |env| && IndexOf(env, env[i].name) == i
    ensures |env| <= |Overridden(env, overrides)|
    ensures IndexOf(Overridden(env, overrides), env[i].name) == i
  {
    var r := Overridden(env, overrides);
    OthersKeepTheirPlace(env, overrides, i);
    forall j | 0 <= j <= i ensures r[j].name == env[j].name {
      OthersKeepTheirPlace(env, overrides, j);
    }
  }

  ghost predicate UniqueNames(env: seq<EnvVar>) {
    forall i, j | 0 <= i < j < |env| :: env[i].name != env[j].name
  }

  lemma {:induction false} OverriddenKeepsNamesUnique(env: seq<EnvVar>, overrides: seq<EnvVar>)
    requires UniqueNames(env)
    ensures UniqueNames(Overridden(env, overrides))
    decreases overrides
  {
    if overrides != [] {
      UpsertAt(env, overrides[0]);
      OverriddenKeepsNamesUnique(Upsert(env, overrides[0]), overrides[1..]);
    }
  }

  function NamesOf(env: seq<EnvVar>): set<string> {
    set v | v in env :: v.name
  }

  function NewNames(env: seq<EnvVar>, overrides: seq<EnvVar>): set<string> {
    NamesOf(overrides) - NamesOf(env)
  }

  lemma NamesOfCons(o: EnvVar, later: seq<EnvVar>)
    ensures NamesOf([o] + later) == NamesOf(later) + {o.name}
  {
    assert o in [o] + later;
  }

  lemma NewNamesStep(env: seq<EnvVar>, o: EnvVar, later: seq<EnvVar>)
    ensures |NewNames(env, [o] + later)| == |NewNames(Upsert(env, o), later)| + if o.name in NamesOf(env) then 0 else 1
  {
    NamesOfCons(o, later);
    UpsertNames(env, o);
    if o.name in NamesOf(env) {
      assert NewNames(env, [o] + later) == NewNames(Upsert(env, o), later);
    } else {
      assert NewNames(env, [o] + later) == NewNames(Upsert(env, o), later) + {o.name};
    }
  }

  /** The list grows by exactly one variable for every name it did not have. */
  lemma {:induction false} OverriddenGrowsByNewNames(env: seq<EnvVar>, overrides: seq<EnvVar>)
    ensures |Overridden(env, overrides)| == |env| + |NewNames(env, overrides)|
    decreases overrides
  {
    if overrides == [] {
      assert NewNames(env, overrides) == {};
    } else {
      var o, later := overrides[0], overrides[1..];
      UpsertAt(env, o);
      UpsertNames(env, o);
      OverriddenGrowsByNewNames(Upsert(env, o), later);
      NewNamesStep(env, o, later);
      assert overrides == [o] + later;
    }
  }

  lemma UpsertNames(env: seq<EnvVar>, v: EnvVar)
    ensures NamesOf(Upsert(env, v)) == NamesOf(env) + {v.name}
    ensures IndexOf(env, v.name) < |env| <==> v.name in NamesOf(env)
  {
    UpsertAt(env, v);
    var i, r := IndexOf(env, v.name), Upsert(env, v);
    if i < |env| {
      assert env[i] in env && v == r[i];
      forall w | w in env ensures w.name in NamesOf(r) {
        var k :| 0 <= k < |env| && env[k] == w;
        assert r[k] in r && r[k].name == w.name;
      }
      assert forall w | w in r :: w == v || w in env;
    }
  }

  lemma {:induction false} NamedAfterwards(env: seq<EnvVar>, overrides: seq<EnvVar>)
    ensures NamesOf(Overridden(env, overrides)) == NamesOf(env) + NamesOf(overrides)
    decreases overrides
  {
    if overrides != [] {
      UpsertNames(env, overrides[0]);
      NamedAfterwards(Upsert(env, overrides[0]), overrides[1..]);
      assert overrides == [overrides[0]] + overrides[1..];
    }
  }

  /** Overriding again changes nothing, repeated names and repeated overrides included. */
  lemma OverridingIsIdempotent(env: seq<EnvVar>, overrides: seq<EnvVar>)
    ensures var r := Overridden(env, overrides); Overridden(r, overrides) == r
  {
    var r := Overridden(env, overrides);
    var again := Overridden(r, overrides);
    OverriddenGrowsByNewNames(r, overrides);
    NamedAfterwards(env, overrides);
    assert NewNames(r, overrides) == {};
    assert |again| == |r|;
    forall i | 0 <= i < |r| ensures again[i] == r[i] {
      var n := r[i].name;
      OthersKeepTheirPlace(r, overrides, i);
      if Names(overrides, n) && IndexOf(r, n) == i {
        LastOverrideWins(env, overrides, n);
        LastOverrideWins(r, overrides, n);
        FirstStaysFirst(r, overrides, i);
      }
    }
  }
}
