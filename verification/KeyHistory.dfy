/**
 Keys over many reconciles, each of which may stop after any object it applies. What is
 rendered in memory is worth nothing until the secret that stores it has been applied, and the
 order of creation sees to it that nothing runs on keys that are not stored.
 */
module KeyHistory {
  import opened Wrappers
  import opened CreationOrder
  import opened Credentials
  import opened Strings

  /** An object carries the keys it was rendered from. */
  type KeyedObject = Object<Keys>

  const ManagedKeysName := "quay-registry-managed-secret-keys"

  /** In the cluster, the names of rendered objects are prefixed with that of the registry. */
  function KeysName(registry: string): string {
    registry + "-" + ManagedKeysName
  }

  /** Objects are told apart by their names without the prefix. */
  predicate IsKeysSecret(o: KeyedObject) {
    o.kind.Secret? && o.name == ManagedKeysName
  }

  /** The managed-keys secret, and the keys every deployment and job was last rendered from. */
  datatype Store = Store(secret: Option<Keys>, workloads: map<string, Keys>)

  function Applied(st: Store, o: KeyedObject): Store {
    if IsKeysSecret(o) then st.(secret := Some(o.payload))
    else if IsWorkload(o) then st.(workloads := st.workloads[o.name := o.payload])
    else st
  }

  function AppliedAll(st: Store, objs: seq<KeyedObject>): Store {
    if objs == [] then st else Applied(AppliedAll(st, objs[..|objs| - 1]), objs[|objs| - 1])
  }

  /** Rendering puts the same keys into everything, the secret that stores them included. */
  ghost predicate RendersFrom(objs: seq<KeyedObject>, keys: Keys) {
    && (forall o | o in objs :: o.payload == keys)
    && (exists o | o in objs :: IsKeysSecret(o))
  }

  // ---- One reconcile ----

  lemma {:induction false} SecretStored(st: Store, objs: seq<KeyedObject>, keys: Keys)
    requires forall o | o in objs :: o.payload == keys
    ensures AppliedAll(st, objs).secret == if exists o | o in objs :: IsKeysSecret(o) then Some(keys) else st.secret
  {
    if objs != [] {
      var before, last := objs[..|objs| - 1], objs[|objs| - 1];
      assert objs == before + [last];
      SecretStored(st, before, keys);
    }
  }

  lemma {:induction false} WorkloadsApplied(st: Store, objs: seq<KeyedObject>, keys: Keys)
    requires forall o | o in objs :: o.payload == keys
    ensures forall name | name in AppliedAll(st, objs).workloads ::
              || (AppliedAll(st, objs).workloads[name] == keys && exists o | o in objs :: IsWorkload(o))
              || (name in st.workloads && AppliedAll(st, objs).workloads[name] == st.workloads[name])
  {
    if objs != [] {
      var before, last := objs[..|objs| - 1], objs[|objs| - 1];
      assert objs == before + [last];
      WorkloadsApplied(st, before, keys);
    }
  }

  /** Up to a workload in the queue, the secret has been applied. */
  lemma SecretComesFirst(order: seq<KeyedObject>, keys: Keys, defers: bool, i: nat)
    requires RendersFrom(order, keys) && WorkloadsLast(order)
    requires i < |Filtered(order, defers)| && IsWorkload(Filtered(order, defers)[i])
    ensures exists o | o in Filtered(order, defers)[..i] :: IsKeysSecret(o)
  {
    var queue := Filtered(order, defers);
    QueueMembers(order, defers);
    var secret :| secret in order && IsKeysSecret(secret);
    assert secret in queue;
    var k :| 0 <= k < |queue| && queue[k] == secret;
    assert k < i;
    assert queue[..i][k] == secret;
  }

  /**
   No workload is ever applied with keys that are not stored: at the moment it is applied, the
   secret holds exactly the keys it was rendered from.
   */
  lemma WorkloadsRunOnStoredKeys(st: Store, order: seq<KeyedObject>, keys: Keys, defers: bool, i: nat)
    requires RendersFrom(order, keys) && WorkloadsLast(order)
    requires i < |Filtered(order, defers)| && IsWorkload(Filtered(order, defers)[i])
    ensures AppliedAll(st, Filtered(order, defers)[..i]).secret == Some(Filtered(order, defers)[i].payload)
  {
    SecretComesFirst(order, keys, defers, i);
    QueuePayloads(order, keys, defers);
    SecretStored(st, Filtered(order, defers)[..i], keys);
  }

  lemma QueuePayloads(order: seq<KeyedObject>, keys: Keys, defers: bool)
    requires RendersFrom(order, keys) && WorkloadsLast(order)
    ensures forall i | 0 <= i < |Filtered(order, defers)| :: Filtered(order, defers)[i].payload == keys
  {
    var queue := Filtered(order, defers);
    QueueMembers(order, defers);
    forall i | 0 <= i < |queue| ensures queue[i].payload == keys {
      assert queue[i] in queue;
    }
  }

  /** Wherever a reconcile stops, it has stored its keys, or it has changed nothing that matters. */
  lemma PrefixEffect(st: Store, order: seq<KeyedObject>, keys: Keys, defers: bool, stop: nat)
    requires RendersFrom(order, keys) && WorkloadsLast(order) && stop <= |Filtered(order, defers)|
    ensures var next := AppliedAll(st, Filtered(order, defers)[..stop]);
            || next == st
            || (next.secret == Some(keys)
                && forall name | name in next.workloads ::
                     next.workloads[name] == keys || (name in st.workloads && next.workloads[name] == st.workloads[name]))
  {
    var queue := Filtered(order, defers);
    var done := queue[..stop];
    QueuePayloads(order, keys, defers);
    SecretStored(st, done, keys);
    WorkloadsApplied(st, done, keys);
    if !exists o | o in done :: IsKeysSecret(o) {
      NoWorkloadYet(order, keys, defers, stop);
      NothingThatMatters(st, done);
    }
  }

  lemma NoWorkloadYet(order: seq<KeyedObject>, keys: Keys, defers: bool, stop: nat)
    requires RendersFrom(order, keys) && WorkloadsLast(order) && stop <= |Filtered(order, defers)|
    requires !exists o | o in Filtered(order, defers)[..stop] :: IsKeysSecret(o)
    ensures forall i | 0 <= i < stop :: !IsWorkload(Filtered(order, defers)[i])
  {
    var queue := Filtered(order, defers);
    forall i | 0 <= i < stop ensures !IsWorkload(queue[i]) {
      assert queue[..i] <= queue[..stop];
      if IsWorkload(queue[i]) {
        SecretComesFirst(order, keys, defers, i);
      }
    }
  }

  lemma {:induction false} NothingThatMatters(st: Store, objs: seq<KeyedObject>)
    requires forall i | 0 <= i < |objs| :: !IsKeysSecret(objs[i]) && !IsWorkload(objs[i])
    ensures AppliedAll(st, objs) == st
  {
    if objs != [] {
      NothingThatMatters(st, objs[..|objs| - 1]);
    }
  }

  // ---- Many reconciles ----

  /**
   What one reconcile meets: answers, configuration, luck, the order its objects are created in,
   and after how many of them it stops.
   */
  datatype Round = Round(
    readable: bool, legacy: seq<NamedKeys>, user: UserConfig, managed: ManagedSet, draws: Draws,
    order: seq<KeyedObject>, defers: bool, stop: nat
  )

  function Answer(st: Store, readable: bool): Read<Keys> {
    if !readable then Failed("")
    else match st.secret
      case None => NotFound
      case Some(keys) => Found(keys)
  }

  /** The keys a reconcile renders from, if it gets to rendering. */
  function Rendered(st: Store, registry: string, r: Round): Option<Keys> {
    var keys := ReadBack(Answer(st, r.readable), Ok(r.legacy), KeysName(registry));
    if keys.None? then None else Completed(keys.value, registry, r.user, r.managed, r.draws)
  }

  function After(st: Store, registry: string, r: Round): Store {
    var queue := Filtered(r.order, r.defers);
    if Rendered(st, registry, r).None? || r.stop > |queue| then st else AppliedAll(st, queue[..r.stop])
  }

  ghost predicate Possible(st: Store, registry: string, r: Round) {
    && Lucky(r.draws)
    && r.stop <= |Filtered(r.order, r.defers)|
    && (Rendered(st, registry, r).Some? ==> RendersFrom(r.order, Rendered(st, registry, r).value) && WorkloadsLast(r.order))
    // no release ever wrote half of Clair's credentials
    && forall i | 0 <= i < |r.legacy| :: ClairWhole(r.legacy[i].keys)
  }

  ghost predicate IsHistory(states: seq<Store>, registry: string, rounds: seq<Round>) {
    && |states| == |rounds| + 1
    && forall i | 0 <= i < |rounds| :: Possible(states[i], registry, rounds[i])
                                      && states[i + 1] == After(states[i], registry, rounds[i])
  }

  /** The imperative reconcile: it reads, completes, orders and applies, as far as it gets. */
  class Cluster {
    var store: Store

    constructor (store: Store)
      ensures this.store == store
    {
      this.store := store;
    }

    /** Applies objects until one fails; a failed one may have landed all the same. */
    method Apply(queue: seq<KeyedObject>, failsAt: nat, lands: bool)
      modifies this
      ensures store == AppliedAll(old(store), queue[..StopsAt(|queue|, failsAt, lands)])
    {
      for i := 0 to |queue|
        invariant i <= failsAt && store == AppliedAll(old(store), queue[..i])
      {
        assert queue[..i + 1][..i] == queue[..i];
        if i == failsAt && !lands {
          return;
        }
        store := Applied(store, queue[i]);
        if i == failsAt {
          return;
        }
      }
    }

    /**
     One reconcile over what it rendered, `objs`. Where it stops is settled by the failure it
     meets: without one it applies everything.
     */
    method Reconcile(registry: string, r: Round, objs: seq<KeyedObject>, failsAt: nat, lands: bool)
      returns (ghost order: seq<KeyedObject>)
      requires Rendered(store, registry, r).Some? ==> RendersFrom(objs, Rendered(store, registry, r).value)
      modifies this
      ensures Rendered(old(store), registry, r).Some? ==>
                IsCreationOrder(order, objs) && RendersFrom(order, Rendered(old(store), registry, r).value)
      ensures store == After(old(store), registry,
                             r.(order := order, stop := StopsAt(|Filtered(order, r.defers)|, failsAt, lands)))
    {
      order := [];
      var ctx := new Context();
      var ok := CheckManagedKeys(ctx, Answer(store, r.readable), Ok(r.legacy), KeysName(registry));
      if !ok {
        return;
      }
      var inflated, _ := Inflate(ctx, registry, r.user, r.managed, r.draws);
      if !inflated {
        return;
      }
      var objects := new KeyedObject[|objs|](i requires 0 <= i < |objs| => objs[i]);
      assert objects[..] == objs;
      EnsureCreationOrder(objects);
      order := objects[..];
      SameMembers(order, objs);
      var queue := FilterDeferredWorkloads(objects[..], r.defers);
      Apply(queue, failsAt, lands);
    }
  }

  // ---- What holds throughout a history ----

  predicate StoreWhole(st: Store) {
    st.secret.Some? ==> ClairWhole(st.secret.value)
  }

  lemma {:induction false} DeprecatedWhole(secrets: seq<NamedKeys>, keysName: string)
    requires forall i | 0 <= i < |secrets| :: ClairWhole(secrets[i].keys)
    ensures ClairWhole(Deprecated(secrets, keysName))
  {
    if secrets != [] {
      DeprecatedWhole(secrets[1..], keysName);
    }
  }

  lemma RenderedKeeps(st: Store, registry: string, r: Round, f: Field)
    requires Possible(st, registry, r) && StoreWhole(st) && Rendered(st, registry, r).Some?
    ensures var k := Rendered(st, registry, r).value;
            && ClairWhole(k)
            && (UserValue(r.user, f) != "" ==> Get(k, f) == UserValue(r.user, f))
            && (UserValue(r.user, f) == "" && st.secret.Some? && Get(st.secret.value, f) != "" ==>
                  Get(k, f) == Get(st.secret.value, f))
  {
    DeprecatedWhole(r.legacy, KeysName(registry));
    var keys := ReadBack(Answer(st, r.readable), Ok(r.legacy), KeysName(registry)).value;
    CompletedKeeps(keys, registry, r.user, r.managed, r.draws, f);
  }

  /** Clair's two database users share one password in whatever was stored, at any time. */
  lemma {:induction false} ClairPasswordsAgree(states: seq<Store>, registry: string, rounds: seq<Round>, i: nat)
    requires IsHistory(states, registry, rounds) && StoreWhole(states[0]) && i < |states|
    ensures StoreWhole(states[i])
  {
    if i > 0 {
      var last := i - 1;
      ClairPasswordsAgree(states, registry, rounds, last);
      RoundEffect(states[last], registry, rounds[last]);
    }
  }

  /** Every workload that was applied runs on these keys, and every other on what it ran on. */
  lemma {:induction false} WorkloadApplied(st: Store, objs: seq<KeyedObject>, keys: Keys, name: string)
    requires forall o | o in objs :: o.payload == keys
    ensures var now := AppliedAll(st, objs).workloads;
            if exists o | o in objs :: (o.kind == Deployment || o.kind == Job) && o.name == name
            then name in now && now[name] == keys
            else (name in now <==> name in st.workloads) && (name in now ==> now[name] == st.workloads[name])
  {
    if objs != [] {
      var before, last := objs[..|objs| - 1], objs[|objs| - 1];
      assert objs == before + [last];
      WorkloadApplied(st, before, keys, name);
    }
  }

  /**
   What a reconcile does, wherever it stops. It stores the keys it rendered if it got as far as the
   secret that is named for them, and it puts them into every deployment and job it got to.
   */
  lemma RoundIsExact(st: Store, registry: string, r: Round, name: string)
    requires Possible(st, registry, r) && Rendered(st, registry, r).Some?
    ensures var done, next, keys := Filtered(r.order, r.defers)[..r.stop], After(st, registry, r), Rendered(st, registry, r).value;
            && next.secret == (if exists o | o in done :: o.kind == Secret && o.name == "quay-registry-managed-secret-keys"
                               then Some(keys) else st.secret)
            && if exists o | o in done :: (o.kind == Deployment || o.kind == Job) && o.name == name
               then name in next.workloads && next.workloads[name] == keys
               else (name in next.workloads <==> name in st.workloads)
                    && (name in next.workloads ==> next.workloads[name] == st.workloads[name])
  {
    var queue, keys := Filtered(r.order, r.defers), Rendered(st, registry, r).value;
    QueuePayloads(r.order, keys, r.defers);
    SecretStored(st, queue[..r.stop], keys);
    WorkloadApplied(st, queue[..r.stop], keys, name);
    assert forall o: KeyedObject :: IsKeysSecret(o) <==> o.kind == Secret && o.name == "quay-registry-managed-secret-keys";
  }

  /** A reconcile that cannot read the secret does nothing; one that can goes by what it finds stored. */
  lemma StoredKeysAreRead(st: Store, registry: string, r: Round)
    ensures !r.readable ==> Rendered(st, registry, r) == None && After(st, registry, r) == st
    ensures r.readable && st.secret.Some? ==>
              Rendered(st, registry, r) == Completed(st.secret.value, registry, r.user, r.managed, r.draws)
  {
  }

  /** A reconcile changes nothing, or it stores the keys it rendered from. */
  lemma RoundEffect(st: Store, registry: string, r: Round)
    requires Possible(st, registry, r) && StoreWhole(st)
    ensures StoreWhole(After(st, registry, r))
    ensures var next, k := After(st, registry, r), Rendered(st, registry, r);
            || next == st
            || (k.Some? && next.secret == k
                && forall name | name in next.workloads ::
                     next.workloads[name] == k.value || (name in st.workloads && next.workloads[name] == st.workloads[name]))
  {
    if Rendered(st, registry, r).Some? {
      PrefixEffect(st, r.order, Rendered(st, registry, r).value, r.defers, r.stop);
      RenderedKeeps(st, registry, r, SecretKey);
    }
  }

  /** Some reconcile from `from` on found the field set by the user, to this value. */
  ghost predicate UserSet(rounds: seq<Round>, from: nat, to: nat, f: Field, value: string) {
    exists m | from <= m < to && m < |rounds| :: UserValue(rounds[m].user, f) == value && value != ""
  }

  /** One field of one reconcile. */
  lemma FieldStep(states: seq<Store>, registry: string, rounds: seq<Round>, i: nat, f: Field)
    requires IsHistory(states, registry, rounds) && i < |rounds| && StoreWhole(states[i])
    requires states[i].secret.Some? && Get(states[i].secret.value, f) != ""
    ensures states[i + 1].secret.Some?
    ensures var was, is_ := Get(states[i].secret.value, f), Get(states[i + 1].secret.value, f);
            is_ != "" && (is_ == was || is_ == UserValue(rounds[i].user, f))
  {
    var st, r := states[i], rounds[i];
    assert Possible(st, registry, r);
    RoundEffect(st, registry, r);
    if After(st, registry, r) != st {
      RenderedKeeps(st, registry, r, f);
    }
  }

  /**
   A key that was ever stored stays what it is for good, through crashes and bad luck, unless
   the user's configuration sets it to something else.
   */
  lemma {:induction false} StoredKeysAreStable(
    states: seq<Store>, registry: string, rounds: seq<Round>, i: nat, j: nat, f: Field
  )
    requires IsHistory(states, registry, rounds) && StoreWhole(states[0]) && i <= j < |states|
    requires states[i].secret.Some? && Get(states[i].secret.value, f) != ""
    ensures states[j].secret.Some? && Get(states[j].secret.value, f) != ""
    ensures var now := Get(states[j].secret.value, f);
            now == Get(states[i].secret.value, f) || UserSet(rounds, i, j, f, now)
    decreases j
  {
    if i < j {
      var last := j - 1;
      StoredKeysAreStable(states, registry, rounds, i, last, f);
      ClairPasswordsAgree(states, registry, rounds, last);
      FieldStep(states, registry, rounds, last, f);
      var before, now := Get(states[last].secret.value, f), Get(states[j].secret.value, f);
      if now == UserValue(rounds[last].user, f) {
        assert UserSet(rounds, i, j, f, now);
      } else if before != Get(states[i].secret.value, f) {
        var m :| i <= m < last && m < |rounds| && UserValue(rounds[m].user, f) == before && before != "";
        assert UserSet(rounds, i, j, f, now);
      }
    }
  }

  /** The keys no user can set, Clair's and the root password among them, are stable outright. */
  lemma UnsettableKeysNeverChange(
    states: seq<Store>, registry: string, rounds: seq<Round>, i: nat, j: nat, f: Field
  )
    requires IsHistory(states, registry, rounds) && StoreWhole(states[0]) && i <= j < |states|
    requires states[i].secret.Some? && Get(states[i].secret.value, f) != ""
    requires f !in {DatabaseSecretKey, SecretKey, DbUri}
    ensures states[j].secret.Some? && Get(states[j].secret.value, f) == Get(states[i].secret.value, f)
  {
    StoredKeysAreStable(states, registry, rounds, i, j, f);
  }

  /** In state `k` the workload ran on these keys and the secret held exactly them. */
  predicate StoredWith(st: Store, name: string, keys: Keys) {
    name in st.workloads && st.workloads[name] == keys && st.secret == Some(keys)
  }

  /** Every workload was applied over a secret that held the keys it runs on. */
  lemma {:induction false} AppliedOverStoredKeys(
    states: seq<Store>, registry: string, rounds: seq<Round>, i: nat, name: string
  ) returns (k: nat)
    requires IsHistory(states, registry, rounds) && StoreWhole(states[0]) && i < |states|
    requires states[0].workloads == map[] && name in states[i].workloads
    ensures k <= i && StoredWith(states[k], name, states[i].workloads[name])
  {
    var last := i - 1;
    var st, r, next := states[last], rounds[last], states[i];
    assert Possible(st, registry, r) && next == After(st, registry, r);
    ClairPasswordsAgree(states, registry, rounds, last);
    RoundEffect(st, registry, r);
    if next.secret == Some(next.workloads[name]) {
      k := i;
    } else {
      k := AppliedOverStoredKeys(states, registry, rounds, last, name);
    }
  }

  /**
   Whatever a running workload was rendered with is still what is stored, or the user has set
   it since it was: no crash leaves a workload behind on keys that are lost.
   */
  lemma NoWorkloadIsLeftBehind(states: seq<Store>, registry: string, rounds: seq<Round>, i: nat, name: string)
    returns (k: nat)
    requires IsHistory(states, registry, rounds) && StoreWhole(states[0]) && i < |states|
    requires states[0].workloads == map[] && name in states[i].workloads
    ensures k <= i && StoredWith(states[k], name, states[i].workloads[name])
    ensures states[i].secret.Some?
    ensures forall f | Get(states[i].workloads[name], f) != "" ::
              var now := Get(states[i].secret.value, f);
              now == Get(states[i].workloads[name], f) || UserSet(rounds, k, i, f, now)
  {
    k := AppliedOverStoredKeys(states, registry, rounds, i, name);
    var keys := states[i].workloads[name];
    OnceStored(states, registry, rounds, k, i);
    forall f | Get(keys, f) != ""
      ensures Get(states[i].secret.value, f) == Get(keys, f) || UserSet(rounds, k, i, f, Get(states[i].secret.value, f))
    {
      StoredKeysAreStable(states, registry, rounds, k, i, f);
    }
  }

  lemma {:induction false} OnceStored(states: seq<Store>, registry: string, rounds: seq<Round>, i: nat, j: nat)
    requires IsHistory(states, registry, rounds) && StoreWhole(states[0]) && i <= j < |states|
    requires states[i].secret.Some?
    ensures states[j].secret.Some?
    decreases j
  {
    if i < j {
      var last := j - 1;
      OnceStored(states, registry, rounds, i, last);
      ClairPasswordsAgree(states, registry, rounds, last);
      assert Possible(states[last], registry, rounds[last]);
      RoundEffect(states[last], registry, rounds[last]);
    }
  }

  // ---- The legacy branch ----

  /** No keys are stored, in the place of this release or of older ones. */
  ghost predicate NeverInstalled(states: seq<Store>, rounds: seq<Round>)
    requires states != []
  {
    states[0].secret.None? && forall i | 0 <= i < |rounds| :: rounds[i].legacy == []
  }

  /** This reconcile is the first to store keys. */
  ghost predicate FirstStores(states: seq<Store>, m: nat) {
    m + 1 < |states| && states[m].secret.None? && states[m + 1].secret.Some?
  }

  /** Some reconcile before `i` stored keys with a managed Clair database. */
  ghost predicate ClairStoredBefore(states: seq<Store>, rounds: seq<Round>, i: nat) {
    exists m | 0 <= m < i :: m < |rounds| && m + 1 < |states| && states[m + 1] != states[m] && rounds[m].managed.clairPostgres
  }

  /** What is stored always has a root password, and Clair's once Clair's database was managed. */
  ghost predicate StoredShape(states: seq<Store>, rounds: seq<Round>, i: nat)
    requires i < |states|
  {
    states[i].secret.Some? ==>
      var k := states[i].secret.value;
      k.dbRootPw != "" && (ClairStoredBefore(states, rounds, i) <==> k.clairDbPassword != "")
  }

  lemma RenderedShape(st: Store, registry: string, r: Round)
    requires Possible(st, registry, r) && StoreWhole(st) && Rendered(st, registry, r).Some? && r.legacy == []
    ensures var k := Rendered(st, registry, r).value;
            && k.dbRootPw != ""
            && (k.clairDbPassword != "" <==>
                  r.managed.clairPostgres || (st.secret.Some? && st.secret.value.clairDbPassword != ""))
  {
  }

  lemma {:induction false} StoredShapeHolds(states: seq<Store>, registry: string, rounds: seq<Round>, i: nat)
    requires IsHistory(states, registry, rounds) && NeverInstalled(states, rounds) && i < |states|
    ensures StoredShape(states, rounds, i) && StoreWhole(states[i])
    ensures states[i].secret.None? ==> !ClairStoredBefore(states, rounds, i)
  {
    if i > 0 {
      var last := i - 1;
      StoredShapeHolds(states, registry, rounds, last);
      var st, r, next := states[last], rounds[last], states[i];
      assert Possible(st, registry, r) && next == After(st, registry, r);
      RoundEffect(st, registry, r);
      if next != st {
        RenderedShape(st, registry, r);
      }
      if ClairStoredBefore(states, rounds, i) && !ClairStoredBefore(states, rounds, last) {
        assert next != st && r.managed.clairPostgres;
      }
    }
  }

  /**
   On a cluster that started without keys, which password a reconcile renders for Clair's database:
   the stored one once there is one, the legacy one if it manages that database only after keys had
   been stored without, and else the one it has drawn.
   */
  lemma LegacyPasswordIff(states: seq<Store>, registry: string, rounds: seq<Round>, i: nat)
    requires IsHistory(states, registry, rounds) && NeverInstalled(states, rounds) && i < |rounds|
    requires Rendered(states[i], registry, rounds[i]).Some?
    ensures var password := Rendered(states[i], registry, rounds[i]).value.clairDbPassword;
            if ClairStoredBefore(states, rounds, i) then
              states[i].secret.Some? && password == states[i].secret.value.clairDbPassword != ""
            else if !rounds[i].managed.clairPostgres then password == ""
            else if states[i].secret.Some? then password == "postgres"
            else Some(password) == rounds[i].draws.clairPassword
  {
    StoredShapeHolds(states, registry, rounds, i);
    var keys := ReadBack(Answer(states[i], rounds[i].readable), Ok(rounds[i].legacy), KeysName(registry)).value;
    CompletedValues(keys, registry, rounds[i].user, rounds[i].managed, rounds[i].draws);
  }

  /**
   So a registry whose first stored keys were Clair's too has one password for good, the one drawn
   then; before, every reconcile renders the one it has drawn itself.
   */
  lemma LegacyPasswordNeedsClairLeftOut(states: seq<Store>, registry: string, rounds: seq<Round>, m: nat, i: nat)
    requires IsHistory(states, registry, rounds) && NeverInstalled(states, rounds) && i < |rounds|
    requires Rendered(states[i], registry, rounds[i]).Some?
    requires FirstStores(states, m) && rounds[m].managed.clairPostgres
    ensures var password := Rendered(states[i], registry, rounds[i]).value.clairDbPassword;
            if i > m then Some(password) == rounds[m].draws.clairPassword
            else if rounds[i].managed.clairPostgres then Some(password) == rounds[i].draws.clairPassword
            else password == ""
  {
    LegacyPasswordIff(states, registry, rounds, i);
    if i <= m {
      NotStoredYet(states, registry, rounds, m, i);
    } else {
      PasswordForGood(states, registry, rounds, m, i);
    }
  }

  lemma NotStoredYet(states: seq<Store>, registry: string, rounds: seq<Round>, m: nat, i: nat)
    requires IsHistory(states, registry, rounds) && NeverInstalled(states, rounds) && FirstStores(states, m) && i <= m
    ensures states[i].secret.None? && !ClairStoredBefore(states, rounds, i)
  {
    if states[i].secret.Some? {
      OnceStored(states, registry, rounds, i, m);
    }
    StoredShapeHolds(states, registry, rounds, i);
  }

  lemma PasswordForGood(states: seq<Store>, registry: string, rounds: seq<Round>, m: nat, i: nat)
    requires IsHistory(states, registry, rounds) && NeverInstalled(states, rounds) && m < i < |states|
    requires FirstStores(states, m) && rounds[m].managed.clairPostgres
    ensures ClairStoredBefore(states, rounds, i)
    ensures states[i].secret.Some? && Some(states[i].secret.value.clairDbPassword) == rounds[m].draws.clairPassword
  {
    FirstPassword(states, registry, rounds, m);
    assert states[m + 1] != states[m];
    UnsettableKeysNeverChange(states, registry, rounds, m + 1, i, ClairDbPassword);
  }

  /** What the first reconcile that stores keys has stored. */
  lemma FirstPassword(states: seq<Store>, registry: string, rounds: seq<Round>, m: nat)
    requires IsHistory(states, registry, rounds) && NeverInstalled(states, rounds)
    requires FirstStores(states, m) && rounds[m].managed.clairPostgres
    ensures states[m + 1].secret.Some? && Some(states[m + 1].secret.value.clairDbPassword) == rounds[m].draws.clairPassword
    ensures states[m + 1].secret.value.clairDbPassword != ""
  {
    assert Possible(states[m], registry, rounds[m]) && states[m + 1] == After(states[m], registry, rounds[m]);
    StoredShapeHolds(states, registry, rounds, m);
    RoundEffect(states[m], registry, rounds[m]);
    LegacyPasswordIff(states, registry, rounds, m);
  }

  // ---- Coming from an older release ----

  /**
   With nothing stored yet, a reconcile takes over the keys of the first secret that an older
   release named after the managed keys, but for what the user sets.
   */
  lemma OlderKeysAreTakenOver(st: Store, registry: string, r: Round, i: nat, f: Field)
    requires Possible(st, registry, r) && st.secret.None? && r.readable && Rendered(st, registry, r).Some?
    requires i < |r.legacy| && Contains(r.legacy[i].name, registry + "-quay-registry-managed-secret-keys")
    requires forall j | 0 <= j < i :: !Contains(r.legacy[j].name, registry + "-quay-registry-managed-secret-keys")
    requires Get(r.legacy[i].keys, f) != "" && UserValue(r.user, f) == ""
    ensures Get(Rendered(st, registry, r).value, f) == Get(r.legacy[i].keys, f)
  {
    assert KeysName(registry) == registry + "-quay-registry-managed-secret-keys";
    DeprecatedIsFirst(r.legacy, KeysName(registry), i);
    CompletedKeeps(r.legacy[i].keys, registry, r.user, r.managed, r.draws, f);
  }
}
