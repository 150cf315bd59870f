/**
 The component list of a registry's spec (apis/quay/v1/quayregistry_types.go): comparing two
 lists, and filling in the components the user left out.
 */
module Components {
  import opened Wrappers
  import opened Conditions

  /** `settings` stands for the overrides and the secret reference, which are only carried along. */
  datatype Component = Component(kind: ComponentKind, managed: bool, settings: string)

  /** What the checks before defaulting have found out about the cluster and the user's bundle. */
  datatype Context = Context(
    supportsRoutes: bool, supportsObjectStorage: bool, supportsMonitoring: bool,
    tlsCert: Option<string>, tlsKey: Option<string>
  )

  const AllComponents: seq<ComponentKind> :=
    [Quay, Postgres, Clair, Redis, HPA, ObjectStorage, Route, Mirror, Monitoring, TLS, ClairPostgres]

  /** Every kind has its place in the list, and only one. */
  function Place(kind: ComponentKind): (i: nat)
    ensures i < |AllComponents| && AllComponents[i] == kind
    ensures forall j | 0 <= j < |AllComponents| && AllComponents[j] == kind :: j == i
  {
    match kind
    case Quay => 0
    case Postgres => 1
    case Clair => 2
    case Redis => 3
    case HPA => 4
    case ObjectStorage => 5
    case Route => 6
    case Mirror => 7
    case Monitoring => 8
    case TLS => 9
    case ClairPostgres => 10
  }

  // ---- Looking components up ----

  predicate Declared(cs: seq<Component>, kind: ComponentKind) {
    exists i | 0 <= i < |cs| :: cs[i].kind == kind
  }

  /** The position of the first component of the kind, or the length if there is none. */
  function FirstOf(cs: seq<Component>, kind: ComponentKind): (i: nat)
    ensures i <= |cs| && (i < |cs| ==> cs[i].kind == kind)
    ensures forall j | 0 <= j < i :: cs[j].kind != kind
  {
    if cs == [] then 0
    else if cs[0].kind == kind then 0
    else 1 + FirstOf(cs[1..], kind)
  }

  /** The first component of a kind speaks for it; quay itself is always managed. */
  predicate Managed(cs: seq<Component>, kind: ComponentKind) {
    kind == Quay || (FirstOf(cs, kind) < |cs| && cs[FirstOf(cs, kind)].managed)
  }

  method ComponentIsManaged(cs: seq<Component>, name: ComponentKind) returns (managed: bool)
    ensures managed == Managed(cs, name)
    ensures managed <==>
              name == Quay || exists i | 0 <= i < |cs| ::
                cs[i].kind == name && cs[i].managed && forall j | 0 <= j < i :: cs[j].kind != name
  {
    if name == Quay {
      return true;
    }
    for i := 0 to |cs|
      invariant forall j | 0 <= j < i :: cs[j].kind != name
    {
      if cs[i].kind == name {
        return cs[i].managed;
      }
    }
    return false;
  }

  // ---- Comparing lists ----

  type Pair = (ComponentKind, bool)

  function PairOf(c: Component): Pair {
    (c.kind, c.managed)
  }

  function Pairs(cs: seq<Component>): set<Pair> {
    set i | 0 <= i < |cs| :: PairOf(cs[i])
  }

  ghost predicate DistinctKinds(cs: seq<Component>) {
    forall i, j | 0 <= i < j < |cs| :: cs[i].kind != cs[j].kind
  }

  /** Equally long, and each entry of the first list has its like in the second. */
  predicate Matches(a: seq<Component>, b: seq<Component>) {
    |a| == |b| && Pairs(a) <= Pairs(b)
  }

  method ComponentsMatch(firstComponents: seq<Component>, secondComponents: seq<Component>) returns (same: bool)
    ensures same == Matches(firstComponents, secondComponents)
  {
    if |firstComponents| != |secondComponents| {
      return false;
    }
    for i := 0 to |firstComponents|
      invariant forall k | 0 <= k < i :: PairOf(firstComponents[k]) in Pairs(secondComponents)
    {
      var compA := firstComponents[i];
      var equal := false;
      for j := 0 to |secondComponents|
        invariant equal == (exists k | 0 <= k < j :: PairOf(secondComponents[k]) == PairOf(compA))
      {
        var compB := secondComponents[j];
        if compA.kind == compB.kind && compA.managed == compB.managed {
          equal := true;
          break;
        }
      }
      if !equal {
        assert PairOf(compA) in Pairs(firstComponents) && PairOf(compA) !in Pairs(secondComponents);
        return false;
      }
    }
    return true;
  }

  lemma {:induction false} PairsAreFewer(cs: seq<Component>)
    ensures |Pairs(cs)| <= |cs|
    ensures DistinctKinds(cs) ==> |Pairs(cs)| == |cs|
  {
    if cs != [] {
      var front, last := cs[..|cs| - 1], cs[|cs| - 1];
      PairsAreFewer(front);
      assert Pairs(cs) == Pairs(front) + {PairOf(last)} by {
        assert forall i | 0 <= i < |front| :: front[i] == cs[i];
        assert PairOf(last) in Pairs(cs);
      }
    }
  }

  lemma SubsetOfSameSize<T>(a: set<T>, b: set<T>)
    requires a <= b && |a| == |b|
    ensures a == b
  {
    if x :| x in b && x !in a {
      assert a <= b - {x};
      SubsetNotLarger(a, b - {x});
    }
  }

  lemma {:induction false} SubsetNotLarger<T>(a: set<T>, b: set<T>)
    requires a <= b
    ensures |a| <= |b|
  {
    if a != {} {
      var x :| x in a;
      SubsetNotLarger(a - {x}, b - {x});
    }
  }

  /**
   A match can be turned around exactly when both lists have as many different pairs; with
   repeated kinds it need not be: [quay, quay] matches [quay, redis].
   */
  lemma MatchTurnsAround(a: seq<Component>, b: seq<Component>)
    requires Matches(a, b)
    ensures Matches(b, a) <==> |Pairs(a)| == |Pairs(b)|
  {
    if |Pairs(a)| == |Pairs(b)| {
      SubsetOfSameSize(Pairs(a), Pairs(b));
    }
    assert Matches(b, a) ==> Pairs(a) == Pairs(b);
  }

  lemma RepeatedKindsMatchOneWay()
    ensures var q, r := Component(Quay, true, ""), Component(Redis, true, "");
            Matches([q, q], [q, r]) && !Matches([q, r], [q, q])
  {
    var q, r := Component(Quay, true, ""), Component(Redis, true, "");
    assert [q, r][0] == q && [q, r][1] == r;
    assert PairOf(r) in Pairs([q, r]) && PairOf(q) in Pairs([q, r]);
  }

  /** Without repeated kinds, matching is having the same pairs. */
  lemma MatchIsSameSet(a: seq<Component>, b: seq<Component>)
    requires DistinctKinds(a) && DistinctKinds(b)
    ensures Matches(a, b) <==> Pairs(a) == Pairs(b)
  {
    PairsAreFewer(a);
    PairsAreFewer(b);
    if Matches(a, b) {
      SubsetOfSameSize(Pairs(a), Pairs(b));
    }
  }

  lemma MatchIsEquivalence(a: seq<Component>, b: seq<Component>, c: seq<Component>)
    requires DistinctKinds(a) && DistinctKinds(b) && DistinctKinds(c)
    ensures Matches(a, a)
    ensures Matches(a, b) ==> Matches(b, a)
    ensures Matches(a, b) && Matches(b, c) ==> Matches(a, c)
  {
    MatchIsSameSet(a, b);
    MatchIsSameSet(b, a);
  }

  // ---- Defaulting ----

  predicate Supported(ctx: Context, kind: ComponentKind) {
    match kind
    case Route => ctx.supportsRoutes
    case TLS => ctx.supportsRoutes
    case ObjectStorage => ctx.supportsObjectStorage
    case Monitoring => ctx.supportsMonitoring
    case _ => true
  }

  /** Whether a component nobody declared ends up managed. */
  predicate ManagedByDefault(ctx: Context, kind: ComponentKind) {
    Supported(ctx, kind) && (kind == TLS ==> ctx.tlsCert.None? && ctx.tlsKey.None?)
  }

  function Forced(cs: seq<Component>): seq<Component> {
    var i := FirstOf(cs, Quay);
    if i < |cs| then cs[i := cs[i].(managed := true)] else cs
  }

  function WithDefault(ctx: Context, cs: seq<Component>, kind: ComponentKind): seq<Component> {
    if !Declared(cs, kind) then cs + [Component(kind, ManagedByDefault(ctx, kind), "")]
    else if kind == Quay then Forced(cs)
    else cs
  }

  /** The list once the first `n` kinds have been seen to. */
  function DefaultedUpTo(ctx: Context, cs: seq<Component>, n: nat): seq<Component>
    requires n <= |AllComponents|
  {
    if n == 0 then cs else WithDefault(ctx, DefaultedUpTo(ctx, cs, n - 1), AllComponents[n - 1])
  }

  function Defaulted(ctx: Context, cs: seq<Component>): seq<Component> {
    DefaultedUpTo(ctx, cs, |AllComponents|)
  }

  /** The user asked for something this cluster does not have. */
  predicate AskedInVain(ctx: Context, cs: seq<Component>, kind: ComponentKind) {
    !Supported(ctx, kind) && Managed(cs, kind)
  }

  class QuayRegistry {
    var components: seq<Component>

    constructor (components: seq<Component>)
      ensures this.components == components
    {
      this.components := components;
    }
  }

  /** Defaulting stops at the first kind asked for in vain; the error names it. */
  method EnsureDefaultComponents(ctx: Context, quay: QuayRegistry) returns (err: Option<ComponentKind>)
    modifies quay
    ensures err.None? ==> forall kind :: !AskedInVain(ctx, old(quay.components), kind)
    ensures err.None? ==> quay.components == Defaulted(ctx, old(quay.components))
    ensures err.Some? ==>
              && AskedInVain(ctx, old(quay.components), err.value)
              && (forall j | 0 <= j < Place(err.value) :: !AskedInVain(ctx, old(quay.components), AllComponents[j]))
              && quay.components == DefaultedUpTo(ctx, old(quay.components), Place(err.value))
  {
    for n := 0 to |AllComponents|
      invariant quay.components == DefaultedUpTo(ctx, old(quay.components), n)
      invariant forall j | 0 <= j < n :: !AskedInVain(ctx, old(quay.components), AllComponents[j])
    {
      UntouchedSoFar(ctx, old(quay.components), n);
      var ok := EnsureDefault(ctx, quay, AllComponents[n]);
      if !ok {
        return Some(AllComponents[n]);
      }
    }
    forall kind ensures !AskedInVain(ctx, old(quay.components), kind) {
      assert AllComponents[Place(kind)] == kind;
    }
    return None;
  }

  /** The body of the loop: one kind is checked, looked up and, if nobody declared it, added. */
  method EnsureDefault(ctx: Context, quay: QuayRegistry, cmp: ComponentKind) returns (ok: bool)
    modifies quay
    ensures ok <==> !AskedInVain(ctx, old(quay.components), cmp)
    ensures quay.components == if ok then WithDefault(ctx, old(quay.components), cmp) else old(quay.components)
  {
    var checkExists := cmp in {Route, TLS, ObjectStorage, Monitoring};
    var checkPasses := Supported(ctx, cmp);
    if checkExists {
      var isManaged := ComponentIsManaged(quay.components, cmp);
      if !checkPasses && isManaged {
        return false;
      }
    }
    var found := EnsureDeclared(quay, cmp);
    if !found {
      var managed := !checkExists || checkPasses;
      if cmp == TLS {
        managed := managed && ctx.tlsCert.None? && ctx.tlsKey.None?;
      }
      quay.components := quay.components + [Component(cmp, managed, "")];
    }
    return true;
  }

  /** The inner loop: is the component declared? Quay's own entry is put right on the way. */
  method EnsureDeclared(quay: QuayRegistry, cmp: ComponentKind) returns (found: bool)
    modifies quay
    ensures found == Declared(old(quay.components), cmp)
    ensures quay.components == if found && cmp == Quay then Forced(old(quay.components)) else old(quay.components)
  {
    for i := 0 to |quay.components|
      invariant quay.components == old(quay.components)
      invariant forall j | 0 <= j < i :: quay.components[j].kind != cmp
    {
      if cmp != quay.components[i].kind {
        continue;
      }
      if cmp == Quay {
        assert FirstOf(quay.components, Quay) == i;
        quay.components := quay.components[i := quay.components[i].(managed := true)];
      }
      return true;
    }
    return false;
  }

  // ---- What defaulting does to a list ----

  /** Old entries stay where and as they are, but for quay's; new ones are all of new kinds. */
  ghost predicate Extends(r: seq<Component>, cs: seq<Component>) {
    && |cs| <= |r|
    && (forall i | 0 <= i < |cs| :: r[i] == cs[i] || (i == FirstOf(cs, Quay) && r[i] == cs[i].(managed := true)))
    && (forall i, j | 0 <= i < j < |r| && |cs| <= j :: r[i].kind != r[j].kind)
  }

  lemma WithDefaultExtends(ctx: Context, before: seq<Component>, cs: seq<Component>, kind: ComponentKind)
    requires Extends(before, cs) && (kind == Quay ==> before == cs)
    ensures Extends(WithDefault(ctx, before, kind), cs)
  {
    if !Declared(before, kind) {
      assert forall i | 0 <= i < |before| :: before[i].kind != kind;
    }
  }

  lemma {:induction false} DefaultedUpToExtends(ctx: Context, cs: seq<Component>, n: nat)
    requires n <= |AllComponents|
    ensures Extends(DefaultedUpTo(ctx, cs, n), cs)
  {
    if n > 0 {
      DefaultedUpToExtends(ctx, cs, n - 1);
      assert AllComponents[n - 1] == Quay ==> n - 1 == Place(Quay);
      WithDefaultExtends(ctx, DefaultedUpTo(ctx, cs, n - 1), cs, AllComponents[n - 1]);
    }
  }

  /** The entries of a kind not seen to yet are still the user's. */
  lemma {:induction false} UntouchedSoFar(ctx: Context, cs: seq<Component>, n: nat)
    requires n < |AllComponents|
    ensures var kind := AllComponents[n];
            && Managed(DefaultedUpTo(ctx, cs, n), kind) == Managed(cs, kind)
            && Declared(DefaultedUpTo(ctx, cs, n), kind) == Declared(cs, kind)
  {
    var kind, now := AllComponents[n], DefaultedUpTo(ctx, cs, n);
    DefaultedUpToExtends(ctx, cs, n);
    AddedOnlySeen(ctx, cs, n);
    var i := FirstOf(cs, kind);
    if i < |cs| {
      assert now[i].kind == kind;
      assert forall j | 0 <= j < i :: now[j].kind == cs[j].kind;
      assert FirstOf(now, kind) == i;
    } else {
      assert forall j | 0 <= j < |now| :: now[j].kind != kind by {
        forall j | 0 <= j < |now| ensures now[j].kind != kind {
          if j < |cs| { assert now[j].kind == cs[j].kind; }
        }
      }
    }
  }

  lemma {:induction false} AddedOnlySeen(ctx: Context, cs: seq<Component>, n: nat)
    requires n <= |AllComponents|
    ensures |cs| <= |DefaultedUpTo(ctx, cs, n)|
    ensures forall i | |cs| <= i < |DefaultedUpTo(ctx, cs, n)| ::
              && Place(DefaultedUpTo(ctx, cs, n)[i].kind) < n
              && DefaultedUpTo(ctx, cs, n)[i].managed == ManagedByDefault(ctx, DefaultedUpTo(ctx, cs, n)[i].kind)
    decreases n
  {
    if n > 0 {
      AddedOnlySeen(ctx, cs, n - 1);
      var before, kind := DefaultedUpTo(ctx, cs, n - 1), AllComponents[n - 1];
      if kind == Quay {
        assert n - 1 == Place(Quay) && before == cs;
      }
    }
  }

  lemma {:induction false} SeenAreDeclared(ctx: Context, cs: seq<Component>, n: nat, k: nat)
    requires k < n <= |AllComponents|
    ensures Declared(DefaultedUpTo(ctx, cs, n), AllComponents[k])
  {
    var before, r := DefaultedUpTo(ctx, cs, n - 1), DefaultedUpTo(ctx, cs, n);
    if k < n - 1 {
      SeenAreDeclared(ctx, cs, n - 1, k);
      var i :| 0 <= i < |before| && before[i].kind == AllComponents[k];
      assert r[i].kind == AllComponents[k];
    } else if !Declared(before, AllComponents[k]) {
      assert r[|before|].kind == AllComponents[k];
    } else {
      var i :| 0 <= i < |before| && before[i].kind == AllComponents[k];
      assert r[i].kind == AllComponents[k];
    }
  }

  /**
   A defaulted list has every kind. The user's entries come first, in order and unchanged
   except that quay is managed; what follows repeats no kind.
   */
  lemma DefaultedCoversAll(ctx: Context, cs: seq<Component>)
    ensures Extends(Defaulted(ctx, cs), cs)
    ensures forall kind :: Declared(Defaulted(ctx, cs), kind)
    ensures DistinctKinds(cs) ==> DistinctKinds(Defaulted(ctx, cs))
  {
    var r := Defaulted(ctx, cs);
    DefaultedUpToExtends(ctx, cs, |AllComponents|);
    forall kind ensures Declared(r, kind) {
      SeenAreDeclared(ctx, cs, |AllComponents|, Place(kind));
    }
    if DistinctKinds(cs) {
      forall i, j | 0 <= i < j < |r| ensures r[i].kind != r[j].kind {
        if j < |cs| { assert r[i].kind == cs[i].kind && r[j].kind == cs[j].kind; }
      }
    }
  }

  /** The entry of quay that the operator reads is managed. */
  lemma DefaultedManagesQuay(ctx: Context, cs: seq<Component>)
    ensures var r := Defaulted(ctx, cs);
            FirstOf(r, Quay) < |r| && r[FirstOf(r, Quay)].managed
  {
    QuayUpTo(ctx, cs, |AllComponents|);
  }

  lemma {:induction false} QuayUpTo(ctx: Context, cs: seq<Component>, n: nat)
    requires 1 <= n <= |AllComponents|
    ensures var r := DefaultedUpTo(ctx, cs, n);
            FirstOf(r, Quay) < |r| && r[FirstOf(r, Quay)].managed
  {
    if n == 1 {
      var i, r := FirstOf(cs, Quay), DefaultedUpTo(ctx, cs, 1);
      assert DefaultedUpTo(ctx, cs, 0) == cs && AllComponents[0] == Quay;
      assert i < |cs| ==> Declared(cs, Quay);
      assert r == if i < |cs| then Forced(cs) else cs + [Component(Quay, true, "")];
      assert r[i].kind == Quay && forall j | 0 <= j < i :: r[j].kind == cs[j].kind;
      assert FirstOf(r, Quay) == i;
    } else {
      QuayUpTo(ctx, cs, n - 1);
      var before, r := DefaultedUpTo(ctx, cs, n - 1), DefaultedUpTo(ctx, cs, n);
      assert AllComponents[n - 1] != Quay by { assert Place(Quay) == 0; }
      assert before <= r;
      assert FirstOf(r, Quay) == FirstOf(before, Quay);
    }
  }

  /** A successful defaulting leaves nothing managed that the cluster does not support. */
  lemma NothingUnsupportedIsManaged(ctx: Context, cs: seq<Component>, kind: ComponentKind)
    requires !AskedInVain(ctx, cs, kind)
    ensures !AskedInVain(ctx, Defaulted(ctx, cs), kind)
  {
    var r, i := Defaulted(ctx, cs), FirstOf(cs, kind);
    if !Supported(ctx, kind) {
      DefaultedUpToExtends(ctx, cs, |AllComponents|);
      AddedOnlySeen(ctx, cs, |AllComponents|);
      if i < |cs| {
        assert forall j | 0 <= j < i :: r[j].kind == cs[j].kind;
        assert FirstOf(r, kind) == i;
      } else {
        assert forall j | 0 <= j < |cs| :: r[j].kind == cs[j].kind;
        assert |cs| <= FirstOf(r, kind);
      }
    }
  }

  /**
   What an undeclared component becomes: managed, unless this cluster has no routes, no object
   storage or no monitoring for it, or it is TLS and the user brings a certificate or a key.
   */
  lemma AddedDefault(ctx: Context, cs: seq<Component>, kind: ComponentKind)
    requires !Declared(cs, kind)
    ensures var r, i := Defaulted(ctx, cs), FirstOf(Defaulted(ctx, cs), kind);
            && |cs| <= i < |r| && r[i].kind == kind
            && (r[i].managed <==>
                  && (kind == Route || kind == TLS ==> ctx.supportsRoutes)
                  && (kind == ObjectStorage ==> ctx.supportsObjectStorage)
                  && (kind == Monitoring ==> ctx.supportsMonitoring)
                  && (kind == TLS ==> ctx.tlsCert == None && ctx.tlsKey == None))
  {
    AddedBehind(ctx, cs, kind);
    AddedOnlySeen(ctx, cs, |AllComponents|);
  }

  lemma AddedBehind(ctx: Context, cs: seq<Component>, kind: ComponentKind)
    requires !Declared(cs, kind)
    ensures |cs| <= FirstOf(Defaulted(ctx, cs), kind) < |Defaulted(ctx, cs)|
  {
    var r := Defaulted(ctx, cs);
    DefaultedCoversAll(ctx, cs);
    assert Declared(r, kind);
    assert forall j | 0 <= j < |cs| :: r[j].kind == cs[j].kind != kind;
  }

  /** Defaulting fails exactly if the user manages a component that this cluster does not support. */
  lemma FailsIff(ctx: Context, cs: seq<Component>)
    ensures Fails(ctx, cs) <==>
            || (!ctx.supportsRoutes && (Managed(cs, Route) || Managed(cs, TLS)))
            || (!ctx.supportsObjectStorage && Managed(cs, ObjectStorage))
            || (!ctx.supportsMonitoring && Managed(cs, Monitoring))
  {
    var kinds := [Route, TLS, ObjectStorage, Monitoring];
    assert AllComponents[Place(Route)] == Route && AllComponents[Place(TLS)] == TLS;
    assert AllComponents[Place(ObjectStorage)] == ObjectStorage && AllComponents[Place(Monitoring)] == Monitoring;
    assert AskedInVain(ctx, cs, Route) <==> !ctx.supportsRoutes && Managed(cs, Route);
    if Fails(ctx, cs) {
      var n :| 0 <= n < |AllComponents| && AskedInVain(ctx, cs, AllComponents[n]);
      assert AllComponents[n] in kinds;
    }
  }

  /** A registry that declares nothing, on a cluster that has everything: all eleven, in this order, all managed. */
  lemma DefaultsOfNothing(ctx: Context)
    requires ctx == Context(true, true, true, None, None)
    ensures var r, kinds := Defaulted(ctx, []), [Quay, Postgres, Clair, Redis, HPA, ObjectStorage, Route, Mirror, Monitoring, TLS, ClairPostgres];
            |r| == 11 && forall i | 0 <= i < 11 :: r[i] == Component(kinds[i], true, "")
  {
    AddedInOrder(ctx, 11);
  }

  lemma {:induction false} AddedInOrder(ctx: Context, n: nat)
    requires n <= |AllComponents| && ctx == Context(true, true, true, None, None)
    ensures var r := DefaultedUpTo(ctx, [], n);
            |r| == n && forall i | 0 <= i < n :: r[i] == Component(AllComponents[i], true, "")
  {
    if n > 0 {
      AddedInOrder(ctx, n - 1);
      var before, kind := DefaultedUpTo(ctx, [], n - 1), AllComponents[n - 1];
      assert Place(kind) == n - 1;
      forall i | 0 <= i < |before| ensures before[i].kind != kind {
        assert Place(before[i].kind) == i;
      }
    }
  }

  // ---- Defaulting again ----

  lemma {:induction false} NothingToDefault(ctx: Context, cs: seq<Component>, n: nat)
    requires n <= |AllComponents|
    requires forall kind :: Declared(cs, kind)
    requires FirstOf(cs, Quay) < |cs| && cs[FirstOf(cs, Quay)].managed
    ensures DefaultedUpTo(ctx, cs, n) == cs
  {
    if n > 0 {
      NothingToDefault(ctx, cs, n - 1);
    }
  }

  /** A second defaulting, in whatever context and however far it gets, changes nothing. */
  lemma DefaultedStays(ctx: Context, later: Context, cs: seq<Component>, n: nat)
    requires n <= |AllComponents|
    ensures DefaultedUpTo(later, Defaulted(ctx, cs), n) == Defaulted(ctx, cs)
  {
    DefaultedCoversAll(ctx, cs);
    DefaultedManagesQuay(ctx, cs);
    NothingToDefault(later, Defaulted(ctx, cs), n);
  }

  /** Quay is declared unmanaged twice: the correction of the first entry goes unnoticed. */
  predicate QuayUnmanagedTwice(cs: seq<Component>) {
    var i := FirstOf(cs, Quay);
    i < |cs| && !cs[i].managed && exists j | i < j < |cs| :: cs[j].kind == Quay && !cs[j].managed
  }

  /**
   The defaulted copy is accepted as equal exactly when defaulting changed nothing, unless
   the user declared quay unmanaged twice and left nothing else out.
   */
  lemma AcceptedIffUnchanged(ctx: Context, cs: seq<Component>)
    ensures Matches(cs, Defaulted(ctx, cs)) <==>
            Defaulted(ctx, cs) == cs || (QuayUnmanagedTwice(cs) && |Defaulted(ctx, cs)| == |cs|)
  {
    var r, i := Defaulted(ctx, cs), FirstOf(cs, Quay);
    DefaultedCoversAll(ctx, cs);
    DefaultedManagesQuay(ctx, cs);
    if |r| == |cs| && r != cs {
      assert i < |cs| && r[i] != cs[i] && !cs[i].managed;
      assert FirstOf(r, Quay) == i;
      assert PairOf(cs[i]) in Pairs(cs);
      if Matches(cs, r) {
        var j :| 0 <= j < |r| && PairOf(r[j]) == PairOf(cs[i]);
        assert i < j && r[j] == cs[j];
      }
      if QuayUnmanagedTwice(cs) {
        var j :| i < j < |cs| && cs[j].kind == Quay && !cs[j].managed;
        assert r[j] == cs[j];
        forall k | 0 <= k < |cs| ensures PairOf(cs[k]) in Pairs(r) {
          assert PairOf(r[if k == i then j else k]) in Pairs(r);
        }
      }
    }
  }

  /** The exception exists: the correction of the first of two entries is made and not written. */
  lemma QuayUnmanagedTwiceGoesUnnoticed(ctx: Context)
    ensures var q := Component(Quay, false, "");
            var cs := Defaulted(ctx, [q, q])[0 := q];
            Defaulted(ctx, cs) != cs && Matches(cs, Defaulted(ctx, cs))
  {
    var q := Component(Quay, false, "");
    var full := Defaulted(ctx, [q, q]);
    DefaultedCoversAll(ctx, [q, q]);
    DefaultedManagesQuay(ctx, [q, q]);
    assert FirstOf([q, q], Quay) == 0 && [q, q][1] == q;
    assert full[0].kind == Quay && FirstOf(full, Quay) == 0 && full[1] == q;
    var cs := full[0 := q];
    assert FirstOf(cs, Quay) == 0 && cs[1] == q && QuayUnmanagedTwice(cs);
    AllDeclared(full, cs);
    DefaultedCoversAll(ctx, cs);
    DefaultedManagesQuay(ctx, cs);
    NothingAdded(ctx, cs, |AllComponents|);
    AcceptedIffUnchanged(ctx, cs);
  }

  lemma AllDeclared(full: seq<Component>, cs: seq<Component>)
    requires |full| == |cs| && forall i | 0 <= i < |full| :: full[i].kind == cs[i].kind
    requires forall kind :: Declared(full, kind)
    ensures forall kind :: Declared(cs, kind)
  {
    forall kind ensures Declared(cs, kind) {
      assert Declared(full, kind);
      var i :| 0 <= i < |full| && full[i].kind == kind;
      assert cs[i].kind == kind;
    }
  }

  /** A list with every kind does not grow. */
  lemma {:induction false} NothingAdded(ctx: Context, cs: seq<Component>, n: nat)
    requires n <= |AllComponents| && forall kind :: Declared(cs, kind)
    ensures |DefaultedUpTo(ctx, cs, n)| == |cs|
  {
    if n > 0 {
      NothingAdded(ctx, cs, n - 1);
      DefaultedUpToExtends(ctx, cs, n - 1);
      var before, kind := DefaultedUpTo(ctx, cs, n - 1), AllComponents[n - 1];
      assert Declared(cs, kind);
      var i :| 0 <= i < |cs| && cs[i].kind == kind;
      assert before[i].kind == kind;
    }
  }

  /** For lists without repeated kinds there is no exception. */
  lemma AcceptedIffUnchangedWhenDistinct(ctx: Context, cs: seq<Component>)
    requires DistinctKinds(cs)
    ensures Matches(cs, Defaulted(ctx, cs)) <==> Defaulted(ctx, cs) == cs
  {
    AcceptedIffUnchanged(ctx, cs);
  }

  // ---- How often defaults are written ----

  predicate Fails(ctx: Context, cs: seq<Component>) {
    exists n | 0 <= n < |AllComponents| :: AskedInVain(ctx, cs, AllComponents[n])
  }

  /** The list can be defaulted, and the defaulted copy is told from it. */
  predicate Incomplete(ctx: Context, cs: seq<Component>) {
    !Fails(ctx, cs) && !Matches(cs, Defaulted(ctx, cs))
  }

  /** A list that was defaulted once is never found incomplete again. */
  lemma DefaultedIsComplete(ctx: Context, later: Context, cs: seq<Component>)
    ensures !Incomplete(later, Defaulted(ctx, cs))
  {
    DefaultedStays(ctx, later, cs, |AllComponents|);
  }

  /** One reconcile: what it found out, and whether its update, if any, lands. */
  datatype Attempt = Attempt(ctx: Context, lands: bool)

  /** The defaults are written back to the spec. */
  predicate WritesDefaults(cs: seq<Component>, a: Attempt) {
    Incomplete(a.ctx, cs) && a.lands
  }

  function Writes(cs: seq<Component>, attempts: seq<Attempt>): nat
    decreases attempts
  {
    if attempts == [] then 0
    else if WritesDefaults(cs, attempts[0]) then 1 + Writes(Defaulted(attempts[0].ctx, cs), attempts[1..])
    else Writes(cs, attempts[1..])
  }

  lemma {:induction false} NoWritesAfterDefaulting(ctx: Context, cs: seq<Component>, attempts: seq<Attempt>)
    ensures Writes(Defaulted(ctx, cs), attempts) == 0
  {
    if attempts != [] {
      DefaultedStays(ctx, attempts[0].ctx, cs, |AllComponents|);
      NoWritesAfterDefaulting(ctx, cs, attempts[1..]);
    }
  }

  /** Until the user edits the spec again, the operator writes it at most once. */
  lemma {:induction false} DefaultsWrittenAtMostOnce(cs: seq<Component>, attempts: seq<Attempt>)
    ensures Writes(cs, attempts) <= 1
    decreases attempts
  {
    if attempts != [] {
      if WritesDefaults(cs, attempts[0]) {
        NoWritesAfterDefaulting(attempts[0].ctx, cs, attempts[1..]);
      } else {
        DefaultsWrittenAtMostOnce(cs, attempts[1..]);
      }
    }
  }
}
