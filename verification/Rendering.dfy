/**
 The contents of the rendered config secret and the order its sources are listed in
 (pkg/kustomize/kustomize.go). Kustomize names the secret after both, so neither may depend on
 how Go happens to walk a map.
 */
module Rendering {
  import opened Conditions
  import opened Components
  import opened Strings
  import opened Wrappers
  import Credentials
  import Middleware

  // ---- sort.Strings ----

  predicate Leq(a: string, b: string) {
    a == "" || (b != "" && (a[0] < b[0] || (a[0] == b[0] && Leq(a[1..], b[1..]))))
  }

  lemma {:induction false} LeqTotal(a: string, b: string)
    ensures Leq(a, b) || Leq(b, a)
    ensures Leq(a, b) && Leq(b, a) ==> a == b
  {
    if a != "" && b != "" && a[0] == b[0] {
      LeqTotal(a[1..], b[1..]);
      assert a == [a[0]] + a[1..] && b == [b[0]] + b[1..];
    }
  }

  lemma {:induction false} LeqTransitive(a: string, b: string, c: string)
    requires Leq(a, b) && Leq(b, c)
    ensures Leq(a, c)
  {
    if a != "" && a[0] == b[0] == c[0] {
      LeqTransitive(a[1..], b[1..], c[1..]);
    }
  }

  ghost predicate Sorted(s: seq<string>) {
    forall i, j | 0 <= i < j < |s| :: Leq(s[i], s[j])
  }

  function Insert(x: string, s: seq<string>): seq<string> {
    if s == [] || Leq(x, s[0]) then [x] + s else [s[0]] + Insert(x, s[1..])
  }

  /** What sort.Strings leaves behind; a sorted rearrangement is all it can be. */
  function Sort(s: seq<string>): seq<string> {
    if s == [] then [] else Insert(s[0], Sort(s[1..]))
  }

  lemma {:induction false} InsertSorts(x: string, s: seq<string>)
    requires Sorted(s)
    ensures Sorted(Insert(x, s)) && multiset(Insert(x, s)) == multiset(s) + multiset{x}
  {
    if s == [] || Leq(x, s[0]) {
      forall j | 0 <= j < |s| ensures Leq(x, s[j]) {
        if j > 0 { LeqTransitive(x, s[0], s[j]); }
      }
    } else {
      var rest := Insert(x, s[1..]);
      InsertSorts(x, s[1..]);
      assert s == [s[0]] + s[1..];
      LeqTotal(x, s[0]);
      forall j | 0 <= j < |rest| ensures Leq(s[0], rest[j]) {
        assert rest[j] in multiset(rest);
        if rest[j] != x {
          assert rest[j] in s[1..];
        }
      }
    }
  }

  lemma {:induction false} SortSorts(s: seq<string>)
    ensures Sorted(Sort(s)) && multiset(Sort(s)) == multiset(s)
  {
    if s != [] {
      SortSorts(s[1..]);
      InsertSorts(s[0], Sort(s[1..]));
      assert s == [s[0]] + s[1..];
    }
  }

  lemma HeadIsLeast(s: seq<string>, x: string)
    requires Sorted(s) && x in s
    ensures Leq(s[0], x)
  {
    LeqTotal(x, x);
  }

  lemma SameHead(a: seq<string>, b: seq<string>)
    requires Sorted(a) && Sorted(b) && multiset(a) == multiset(b) && a != []
    ensures b != [] && a[0] == b[0]
  {
    assert a[0] in multiset(b);
    assert b[0] in multiset(a);
    HeadIsLeast(a, b[0]);
    HeadIsLeast(b, a[0]);
    LeqTotal(a[0], b[0]);
  }

  /** There is only one way to be sorted. */
  lemma {:induction false} SortedUnique(a: seq<string>, b: seq<string>)
    requires Sorted(a) && Sorted(b) && multiset(a) == multiset(b)
    ensures a == b
  {
    if a == [] {
      assert |multiset(b)| == 0;
    } else {
      SameHead(a, b);
      assert a == [a[0]] + a[1..] && b == [b[0]] + b[1..];
      assert multiset(a[1..]) == multiset(a) - multiset{a[0]} == multiset(b[1..]);
      SortedUnique(a[1..], b[1..]);
    }
  }

  // ---- Listing sources ----

  const CaPrefix := "extra_ca_cert_"

  function CaKeys(keys: seq<string>): seq<string> {
    if keys == [] then []
    else (if HasPrefix(keys[0], CaPrefix) then [keys[0]] else []) + CaKeys(keys[1..])
  }

  lemma {:induction false} CaKeysMultiset(keys: seq<string>, key: string)
    ensures multiset(CaKeys(keys))[key] == if HasPrefix(key, CaPrefix) then multiset(keys)[key] else 0
  {
    if keys != [] {
      CaKeysMultiset(keys[1..], key);
      assert keys == [keys[0]] + keys[1..];
    }
  }

  function FileSources(keys: seq<string>): seq<string> {
    if keys == [] then [] else ["bundle/" + keys[0]] + FileSources(keys[1..])
  }

  lemma {:induction false} FileSourcesSnoc(keys: seq<string>, key: string)
    ensures FileSources(keys + [key]) == FileSources(keys) + ["bundle/" + key]
  {
    if keys == [] {
      assert [] + [key] == [key];
    } else {
      FileSourcesSnoc(keys[1..], key);
      assert (keys + [key])[1..] == keys[1..] + [key];
    }
  }

  lemma {:induction false} CaKeysSnoc(keys: seq<string>, key: string)
    ensures CaKeys(keys + [key]) == CaKeys(keys) + if HasPrefix(key, CaPrefix) then [key] else []
  {
    if keys == [] {
      assert [] + [key] == [key];
    } else {
      CaKeysSnoc(keys[1..], key);
      assert (keys + [key])[1..] == keys[1..] + [key];
    }
  }

  /** The config sources, from a walk over the map in this order. */
  method ConfigSources(order: seq<string>) returns (configFiles: seq<string>)
    ensures configFiles == FileSources(Sort(order))
  {
    var configKeys := Sort(order);
    configFiles := [];
    for i := 0 to |configKeys|
      invariant configFiles == FileSources(configKeys[..i])
    {
      FileSourcesSnoc(configKeys[..i], configKeys[i]);
      assert configKeys[..i + 1] == configKeys[..i] + [configKeys[i]];
      configFiles := configFiles + ["bundle/" + configKeys[i]];
    }
    assert configKeys[..|configKeys|] == configKeys;
  }

  /** The names of the user's CA certificates, from another walk, sorted. */
  method CaCertKeys(order: seq<string>) returns (caCertKeys: seq<string>)
    ensures caCertKeys == Sort(CaKeys(order))
  {
    caCertKeys := [];
    for i := 0 to |order|
      invariant caCertKeys == CaKeys(order[..i])
    {
      CaKeysSnoc(order[..i], order[i]);
      assert order[..i + 1] == order[..i] + [order[i]];
      if HasPrefix(order[i], CaPrefix) {
        caCertKeys := caCertKeys + [order[i]];
      }
    }
    assert order[..|order|] == order;
    caCertKeys := Sort(caCertKeys);
  }

  lemma {:induction false} OrdersAreRearrangements(first: seq<string>, second: seq<string>, keys: set<string>)
    requires Middleware.IsOrder(first, keys) && Middleware.IsOrder(second, keys)
    ensures multiset(first) == multiset(second)
  {
    forall key ensures multiset(first)[key] == multiset(second)[key] {
      CountedOnce(first, key);
      CountedOnce(second, key);
    }
  }

  lemma {:induction false} CountedOnce(s: seq<string>, x: string)
    requires forall i, j | 0 <= i < j < |s| :: s[i] != s[j]
    ensures multiset(s)[x] == if x in s then 1 else 0
  {
    if s != [] {
      assert s == [s[0]] + s[1..];
      CountedOnce(s[1..], x);
      if x == s[0] {
        assert forall j | 0 <= j < |s[1..]| :: s[1..][j] == s[j + 1] != x;
      }
    }
  }

  /** Both lists of sources are the same for every way of walking the same map. */
  lemma SourcesIgnoreMapOrder(first: seq<string>, second: seq<string>, keys: set<string>)
    requires Middleware.IsOrder(first, keys) && Middleware.IsOrder(second, keys)
    ensures FileSources(Sort(first)) == FileSources(Sort(second))
    ensures Sort(CaKeys(first)) == Sort(CaKeys(second))
  {
    OrdersAreRearrangements(first, second, keys);
    SortSorts(first);
    SortSorts(second);
    SortedUnique(Sort(first), Sort(second));
    forall key ensures multiset(CaKeys(first))[key] == multiset(CaKeys(second))[key] {
      CaKeysMultiset(first, key);
      CaKeysMultiset(second, key);
    }
    assert multiset(CaKeys(first)) == multiset(CaKeys(second));
    SortSorts(CaKeys(first));
    SortSorts(CaKeys(second));
    SortedUnique(Sort(CaKeys(first)), Sort(CaKeys(second)));
  }

  // ---- The contents ----

  /** A file of the bundle, a config put together by the operator, or a component's field group. */
  datatype Content =
    | Raw(bytes: string)
    | Encoded(config: map<string, string>)
    | FieldGroup(kind: ComponentKind, secret: string, settings: string)

  /** `settings` is everything a field group takes from the cluster; `base` is BaseQuayConfig. */
  datatype Inputs = Inputs(
    bundle: map<string, Content>, userConfig: map<string, string>, base: map<string, string>,
    components: seq<Component>, registry: string, settings: string
  )

  const ConfigFile := "config.yaml"

  function KindName(kind: ComponentKind): string {
    match kind
    case Quay => "quay"
    case Postgres => "postgres"
    case Clair => "clair"
    case Redis => "redis"
    case HPA => "horizontalpodautoscaler"
    case ObjectStorage => "objectstorage"
    case Route => "route"
    case Mirror => "mirror"
    case Monitoring => "monitoring"
    case TLS => "tls"
    case ClairPostgres => "clairpostgres"
  }

  function GroupFile(kind: ComponentKind): string {
    KindName(kind) + ".config.yaml"
  }

  const DatabaseSecretKeyField := "DATABASE_SECRET_KEY"
  const SecretKeyField := "SECRET_KEY"
  const DbUriField := "DB_URI"

  function Setting(config: map<string, string>, field: string): string {
    if field in config then config[field] else ""
  }

  function UserOf(config: map<string, string>): Credentials.UserConfig {
    Credentials.UserConfig(Setting(config, DatabaseSecretKeyField), Setting(config, SecretKeyField), Setting(config, DbUriField))
  }

  predicate HasManaged(cs: seq<Component>, kind: ComponentKind) {
    exists i | 0 <= i < |cs| :: cs[i].kind == kind && cs[i].managed
  }

  /** Clair's key is drawn for any managed entry; the databases go by the first entry of their kind. */
  function ManagedSetOf(cs: seq<Component>): Credentials.ManagedSet {
    Credentials.ManagedSet(Managed(cs, Postgres), HasManaged(cs, Clair), Managed(cs, ClairPostgres))
  }

  function MainConfig(inp: Inputs, keys: Credentials.Keys): map<string, string> {
    inp.base + inp.userConfig[DatabaseSecretKeyField := keys.databaseSecretKey]
                             [SecretKeyField := keys.secretKey][DbUriField := keys.dbUri]
  }

  function GroupOf(kind: ComponentKind, keys: Credentials.Keys, settings: string): Content {
    FieldGroup(kind, if kind == Clair then keys.scannerPsk else if kind == Postgres then keys.dbUri else "", settings)
  }

  function WithGroups(files: map<string, Content>, cs: seq<Component>, keys: Credentials.Keys, settings: string): map<string, Content> {
    if cs == [] then files
    else
      var last := cs[|cs| - 1];
      var before := WithGroups(files, cs[..|cs| - 1], keys, settings);
      if last.managed then before[GroupFile(last.kind) := GroupOf(last.kind, keys, settings)] else before
  }

  /** The files of the config secret before flattening, rendered from these keys. */
  function ConfigFiles(inp: Inputs, keys: Credentials.Keys): map<string, Content> {
    WithGroups(inp.bundle[ConfigFile := Encoded(MainConfig(inp, keys))], inp.components, keys, inp.settings)
  }

  // ---- What is in the files ----

  /** The three keys under their names; else what the user sets, and only else the defaults. */
  ghost predicate ConfigHas(c: map<string, string>, inp: Inputs, keys: Credentials.Keys) {
    && "DATABASE_SECRET_KEY" in c && c["DATABASE_SECRET_KEY"] == keys.databaseSecretKey
    && "SECRET_KEY" in c && c["SECRET_KEY"] == keys.secretKey
    && "DB_URI" in c && c["DB_URI"] == keys.dbUri
    && forall field | field !in {"DATABASE_SECRET_KEY", "SECRET_KEY", "DB_URI"} ::
         && (field in c <==> field in inp.userConfig || field in inp.base)
         && (field in inp.userConfig ==> c[field] == inp.userConfig[field])
         && (field in inp.base && field !in inp.userConfig ==> c[field] == inp.base[field])
  }

  /** A key that the user sets is the user's. */
  predicate UserKeysKept(c: map<string, string>, userConfig: map<string, string>) {
    forall field | field in userConfig && field in ["DATABASE_SECRET_KEY", "SECRET_KEY", "DB_URI"] && userConfig[field] != "" ::
      field in c && c[field] == userConfig[field]
  }

  /** A component's own file: only Clair's carries the pre-shared key, only the database's its URI. */
  predicate IsGroup(content: Content, kind: ComponentKind, keys: Credentials.Keys, settings: string) {
    match kind
    case Clair => content == FieldGroup(Clair, keys.scannerPsk, settings)
    case Postgres => content == FieldGroup(Postgres, keys.dbUri, settings)
    case _ => content == FieldGroup(kind, "", settings)
  }

  ghost predicate FilesHave(files: map<string, Content>, inp: Inputs, keys: Credentials.Keys) {
    && "config.yaml" in files && files["config.yaml"].Encoded? && ConfigHas(files["config.yaml"].config, inp, keys)
    && (HasManaged(inp.components, Clair) ==>
          "clair.config.yaml" in files && files["clair.config.yaml"] == FieldGroup(Clair, keys.scannerPsk, inp.settings))
    && (HasManaged(inp.components, Postgres) ==>
          "postgres.config.yaml" in files && files["postgres.config.yaml"] == FieldGroup(Postgres, keys.dbUri, inp.settings))
    && (forall kind | HasManaged(inp.components, kind) ::
          GroupFile(kind) in files && IsGroup(files[GroupFile(kind)], kind, keys, inp.settings))
    && (forall name | name != "config.yaml" && !(exists kind :: HasManaged(inp.components, kind) && name == GroupFile(kind)) ::
          (name in files <==> name in inp.bundle) && (name in files ==> files[name] == inp.bundle[name]))
  }

  lemma GroupFiles()
    ensures GroupFile(Clair) == "clair.config.yaml" && GroupFile(Postgres) == "postgres.config.yaml"
  {
    assert "clair" + ".config.yaml" == "clair.config.yaml";
    assert "postgres" + ".config.yaml" == "postgres.config.yaml";
  }

  /** The other files with something in them are those of redis, object storage, the route and mirror. */
  lemma OtherGroupFiles()
    ensures GroupFile(Redis) == "redis.config.yaml" && GroupFile(Route) == "route.config.yaml"
    ensures GroupFile(Mirror) == "mirror.config.yaml"
  {
    assert "redis" + ".config.yaml" == "redis.config.yaml";
    assert "route" + ".config.yaml" == "route.config.yaml";
    assert "mirror" + ".config.yaml" == "mirror.config.yaml";
  }

  lemma StorageGroupFile()
    ensures GroupFile(ObjectStorage) == "objectstorage.config.yaml"
  {
    assert "objectstorage" + ".config.yaml" == "objectstorage.config.yaml";
  }

  lemma KindNames(a: ComponentKind, b: ComponentKind)
    ensures |KindName(a)| >= 3 && (KindName(a) == KindName(b) ==> a == b)
  {
    assert KindName(ObjectStorage)[0] == 'o' && KindName(ClairPostgres)[0] == 'c';
    assert KindName(Clair)[0] == 'c' && KindName(Redis)[1] == 'e' && KindName(Route)[1] == 'o';
  }

  lemma FilesDiffer(a: ComponentKind, b: ComponentKind)
    ensures GroupFile(a) != "config.yaml" && (GroupFile(a) == GroupFile(b) ==> a == b)
  {
    KindNames(a, b);
    assert |GroupFile(a)| == |KindName(a)| + 12;
    assert GroupFile(a)[..|GroupFile(a)| - 12] == KindName(a) && GroupFile(b)[..|GroupFile(b)| - 12] == KindName(b);
  }

  lemma HasManagedLast(cs: seq<Component>, kind: ComponentKind)
    requires cs != []
    ensures var last := cs[|cs| - 1];
            HasManaged(cs, kind) <==> HasManaged(cs[..|cs| - 1], kind) || (last.kind == kind && last.managed)
  {
    var front := cs[..|cs| - 1];
    assert forall i | 0 <= i < |front| :: front[i] == cs[i];
    if HasManaged(front, kind) {
      var i :| 0 <= i < |front| && front[i].kind == kind && front[i].managed;
      assert cs[i].kind == kind && cs[i].managed;
    }
    assert cs[|cs| - 1].kind == kind && cs[|cs| - 1].managed ==> HasManaged(cs, kind);
  }

  /** Every managed component has its group in its file, and no other file is touched. */
  lemma {:induction false} GroupsAreThere(
    files: map<string, Content>, cs: seq<Component>, keys: Credentials.Keys, settings: string, kind: ComponentKind, name: string
  )
    ensures var r := WithGroups(files, cs, keys, settings);
            && (HasManaged(cs, kind) ==> GroupFile(kind) in r && IsGroup(r[GroupFile(kind)], kind, keys, settings))
            && (!(exists k :: HasManaged(cs, k) && name == GroupFile(k)) ==>
                  (name in r <==> name in files) && (name in r ==> r[name] == files[name]))
  {
    if cs != [] {
      var last := cs[|cs| - 1];
      GroupsAreThere(files, cs[..|cs| - 1], keys, settings, kind, name);
      HasManagedLast(cs, kind);
      FilesDiffer(last.kind, kind);
      forall k ensures HasManaged(cs[..|cs| - 1], k) ==> HasManaged(cs, k) {
        HasManagedLast(cs, k);
      }
      HasManagedLast(cs, last.kind);
    }
  }

  lemma ConfigIsRight(inp: Inputs, keys: Credentials.Keys)
    ensures ConfigHas(MainConfig(inp, keys), inp, keys)
  {
    var c, u := MainConfig(inp, keys), inp.userConfig[DatabaseSecretKeyField := keys.databaseSecretKey]
                                                     [SecretKeyField := keys.secretKey][DbUriField := keys.dbUri];
    assert c == inp.base + u;
    assert DatabaseSecretKeyField != SecretKeyField && DatabaseSecretKeyField != DbUriField && SecretKeyField != DbUriField by {
      assert |DatabaseSecretKeyField| == 19 && |SecretKeyField| == 10 && |DbUriField| == 6;
    }
  }

  function Start(inp: Inputs, keys: Credentials.Keys): map<string, Content> {
    inp.bundle[ConfigFile := Encoded(MainConfig(inp, keys))]
  }

  lemma GroupFilesAreRight(inp: Inputs, keys: Credentials.Keys)
    ensures forall kind | HasManaged(inp.components, kind) ::
              GroupFile(kind) in ConfigFiles(inp, keys) && IsGroup(ConfigFiles(inp, keys)[GroupFile(kind)], kind, keys, inp.settings)
  {
    forall kind | HasManaged(inp.components, kind)
      ensures GroupFile(kind) in ConfigFiles(inp, keys) && IsGroup(ConfigFiles(inp, keys)[GroupFile(kind)], kind, keys, inp.settings)
    {
      GroupsAreThere(Start(inp, keys), inp.components, keys, inp.settings, kind, "");
    }
  }

  lemma OtherFilesAreRight(inp: Inputs, keys: Credentials.Keys, name: string)
    requires !(exists kind :: HasManaged(inp.components, kind) && name == GroupFile(kind))
    ensures name in ConfigFiles(inp, keys) <==> name in Start(inp, keys)
    ensures name in ConfigFiles(inp, keys) ==> ConfigFiles(inp, keys)[name] == Start(inp, keys)[name]
  {
    GroupsAreThere(Start(inp, keys), inp.components, keys, inp.settings, Quay, name);
  }

  lemma FilesAreRight(inp: Inputs, keys: Credentials.Keys)
    ensures FilesHave(ConfigFiles(inp, keys), inp, keys)
  {
    forall kind ensures GroupFile(kind) != "config.yaml" {
      FilesDiffer(kind, kind);
    }
    OtherFilesAreRight(inp, keys, "config.yaml");
    ConfigIsRight(inp, keys);
    GroupFilesAreRight(inp, keys);
    GroupFiles();
    forall name | name != "config.yaml" && !(exists kind :: HasManaged(inp.components, kind) && name == GroupFile(kind))
      ensures name in ConfigFiles(inp, keys) <==> name in inp.bundle
      ensures name in ConfigFiles(inp, keys) ==> ConfigFiles(inp, keys)[name] == inp.bundle[name]
    {
      OtherFilesAreRight(inp, keys, name);
    }
  }

  /** The loop over BaseQuayConfig, in any order: what is set already stays. */
  method AddDefaults(config: map<string, string>, base: map<string, string>) returns (r: map<string, string>)
    ensures r == base + config
  {
    r := config;
    var left := base.Keys;
    while left != {}
      invariant left <= base.Keys && config.Keys <= r.Keys
      invariant r == (base - left) + config
      decreases |left|
    {
      var field :| field in left;
      if field !in r {
        r := r[field := base[field]];
      }
      left := left - {field};
    }
    assert base - {} == base;
  }

  /** The group of one managed component; Clair's may need its key drawn first. */
  method FieldGroupFor(ctx: Credentials.Context, kind: ComponentKind, managed: Credentials.ManagedSet, draws: Credentials.Draws, settings: string)
    returns (group: Option<Content>)
    requires kind == Clair ==> managed.clair
    modifies ctx
    ensures kind != Clair ==> group.Some? && ctx.keys == old(ctx.keys)
    ensures kind == Clair ==>
              var k := Credentials.WithScannerKey(old(ctx.keys), managed, draws);
              (group.Some? <==> k.Some?) && (k.Some? ==> ctx.keys == k.value)
    ensures group.Some? ==> group.value == GroupOf(kind, ctx.keys, settings)
  {
    if kind == Clair {
      var ok := Credentials.EnsureScannerKey(ctx, managed, draws);
      if !ok {
        return None;
      }
      return Some(FieldGroup(kind, ctx.keys.scannerPsk, settings));
    }
    return Some(FieldGroup(kind, if kind == Postgres then ctx.keys.dbUri else "", settings));
  }

  lemma {:induction false} GroupsOfSameKeys(
    files: map<string, Content>, cs: seq<Component>, a: Credentials.Keys, b: Credentials.Keys, settings: string
  )
    requires a.dbUri == b.dbUri && (HasManaged(cs, Clair) ==> a.scannerPsk == b.scannerPsk)
    ensures WithGroups(files, cs, a, settings) == WithGroups(files, cs, b, settings)
  {
    if cs != [] {
      var front, last := cs[..|cs| - 1], |cs| - 1;
      assert forall i | 0 <= i < |front| :: front[i] == cs[i];
      assert cs[last].kind == Clair && cs[last].managed ==> HasManaged(cs, Clair);
      if HasManaged(front, Clair) {
        var i :| 0 <= i < |front| && front[i].kind == Clair && front[i].managed;
        assert cs[i].kind == Clair && cs[i].managed;
      }
      GroupsOfSameKeys(files, front, a, b, settings);
    }
  }

  lemma HasManagedSnoc(cs: seq<Component>, i: nat)
    requires i < |cs|
    ensures HasManaged(cs[..i + 1], Clair) <==> HasManaged(cs[..i], Clair) || (cs[i].kind == Clair && cs[i].managed)
    ensures HasManaged(cs[..i + 1], Clair) ==> HasManaged(cs, Clair)
  {
    assert cs[..i + 1] == cs[..i] + [cs[i]];
    assert cs[i].kind == Clair && cs[i].managed ==> cs[..i + 1][i].kind == Clair && cs[..i + 1][i].managed;
    if HasManaged(cs[..i], Clair) {
      var k :| 0 <= k < i && cs[..i][k].kind == Clair && cs[..i][k].managed;
      assert cs[..i + 1][k] == cs[k];
    }
  }

  /** The keys after the components seen so far: Clair's is drawn at its first managed entry. */
  function KeysSoFar(keys: Credentials.Keys, cs: seq<Component>, draws: Credentials.Draws): Option<Credentials.Keys> {
    Credentials.WithScannerKey(keys, Credentials.ManagedSet(false, HasManaged(cs, Clair), false), draws)
  }

  lemma KeysSoFarStep(keys: Credentials.Keys, cs: seq<Component>, i: nat, draws: Credentials.Draws)
    requires i < |cs| && Credentials.Lucky(draws) && KeysSoFar(keys, cs[..i], draws).Some?
    ensures KeysSoFar(keys, cs[..i + 1], draws)
         == if cs[i].kind == Clair && cs[i].managed
            then Credentials.WithScannerKey(KeysSoFar(keys, cs[..i], draws).value, ManagedSetOf(cs), draws)
            else KeysSoFar(keys, cs[..i], draws)
  {
    HasManagedSnoc(cs, i);
  }

  lemma GroupsStep(
    files: map<string, Content>, cs: seq<Component>, i: nat, before: Credentials.Keys, now: Credentials.Keys, settings: string
  )
    requires i < |cs| && before.dbUri == now.dbUri && (before.scannerPsk != "" ==> before.scannerPsk == now.scannerPsk)
    requires HasManaged(cs[..i], Clair) ==> before.scannerPsk != ""
    ensures WithGroups(files, cs[..i + 1], now, settings)
         == var groups := WithGroups(files, cs[..i], before, settings);
            if cs[i].managed then groups[GroupFile(cs[i].kind) := GroupOf(cs[i].kind, now, settings)] else groups
  {
    assert cs[..i + 1][..i] == cs[..i];
    GroupsOfSameKeys(files, cs[..i], before, now, settings);
  }

  /** The loop over the components. */
  method AddFieldGroups(ctx: Credentials.Context, inp: Inputs, files: map<string, Content>, draws: Credentials.Draws)
    returns (ok: bool, all: map<string, Content>)
    requires Credentials.Lucky(draws)
    modifies ctx
    ensures var k := Credentials.WithScannerKey(old(ctx.keys), ManagedSetOf(inp.components), draws);
            && (ok <==> k.Some?)
            && (ok ==> ctx.keys == k.value && all == WithGroups(files, inp.components, ctx.keys, inp.settings))
  {
    var cs, managed := inp.components, ManagedSetOf(inp.components);
    all := files;
    for i := 0 to |cs|
      invariant KeysSoFar(old(ctx.keys), cs[..i], draws) == Some(ctx.keys)
      invariant all == WithGroups(files, cs[..i], ctx.keys, inp.settings)
    {
      ghost var before := ctx.keys;
      KeysSoFarStep(old(ctx.keys), cs, i, draws);
      if !cs[i].managed {
        GroupsStep(files, cs, i, before, before, inp.settings);
        continue;
      }
      var group := FieldGroupFor(ctx, cs[i].kind, managed, draws, inp.settings);
      if group.None? {
        return false, all;
      }
      GroupsStep(files, cs, i, before, ctx.keys, inp.settings);
      all := all[GroupFile(cs[i].kind) := group.value];
    }
    assert cs[..|cs|] == cs;
    return true, all;
  }

  method CompleteConfig(inp: Inputs, keys: Credentials.Keys) returns (config: map<string, string>)
    ensures config == MainConfig(inp, keys)
  {
    config := inp.userConfig[DatabaseSecretKeyField := keys.databaseSecretKey];
    config := config[SecretKeyField := keys.secretKey];
    config := config[DbUriField := keys.dbUri];
    config := AddDefaults(config, inp.base);
  }

  /** Keys completed later do not show in a file written earlier. */
  lemma FilesOfFinalKeys(inp: Inputs, a: Credentials.Keys, b: Credentials.Keys, final: Credentials.Keys)
    requires a.databaseSecretKey == final.databaseSecretKey && a.secretKey == final.secretKey && a.dbUri == final.dbUri
    requires b.dbUri == final.dbUri && b.scannerPsk == final.scannerPsk
    ensures WithGroups(inp.bundle[ConfigFile := Encoded(MainConfig(inp, a))], inp.components, b, inp.settings)
         == ConfigFiles(inp, final)
  {
    assert MainConfig(inp, a) == MainConfig(inp, final);
    GroupsOfSameKeys(inp.bundle[ConfigFile := Encoded(MainConfig(inp, a))], inp.components, b, final, inp.settings);
  }

  /** The files, with the keys completed as far as they show in them. */
  method InflateFiles(ctx: Credentials.Context, inp: Inputs, draws: Credentials.Draws)
    returns (ok: bool, files: map<string, Content>, ghost atConfig: Credentials.Keys)
    requires Credentials.Lucky(draws)
    modifies ctx
    ensures var a := Credentials.WithConfigKeys(old(ctx.keys), inp.registry, UserOf(inp.userConfig), ManagedSetOf(inp.components), draws);
            && (ok ==> a == Some(atConfig))
            && (ok <==> a.Some? && Credentials.WithScannerKey(a.value, ManagedSetOf(inp.components), draws).Some?)
            && (ok ==> ctx.keys == Credentials.WithScannerKey(a.value, ManagedSetOf(inp.components), draws).value)
    ensures ok ==> files == WithGroups(inp.bundle[ConfigFile := Encoded(MainConfig(inp, atConfig))], inp.components, ctx.keys, inp.settings)
  {
    files := inp.bundle;
    var generated, _ := Credentials.EnsureConfigKeys(ctx, inp.registry, UserOf(inp.userConfig), ManagedSetOf(inp.components), draws);
    atConfig := ctx.keys;
    if !generated {
      return false, files, atConfig;
    }
    var config := CompleteConfig(inp, ctx.keys);
    ok, files := AddFieldGroups(ctx, inp, files[ConfigFile := Encoded(config)], draws);
  }

  /**
   Inflate up to the sources: keys are completed on the way, and yet every file comes out as if
   rendered from the final ones.
   */
  method InflateConfig(ctx: Credentials.Context, inp: Inputs, draws: Credentials.Draws)
    returns (ok: bool, files: map<string, Content>)
    requires Credentials.Lucky(draws)
    modifies ctx
    ensures ok <==> CompletedFor(old(ctx.keys), inp, draws).Some?
    ensures ok ==> ctx.keys == CompletedFor(old(ctx.keys), inp, draws).value && files == ConfigFiles(inp, ctx.keys)
    ensures ok ==> FilesHave(files, inp, ctx.keys) && UserKeysKept(files["config.yaml"].config, inp.userConfig)
    ensures ok ==> NothingMissing(ctx.keys, inp.components)
  {
    ghost var before := ctx.keys;
    ghost var atConfig;
    ok, files, atConfig := InflateFiles(ctx, inp, draws);
    if !ok {
      return;
    }
    ghost var atGroups := ctx.keys;
    ok := Credentials.EnsureDatabaseKeys(ctx, ManagedSetOf(inp.components), draws);
    if ok {
      FilesOfFinalKeys(inp, atConfig, atGroups, ctx.keys);
      FilesAreRight(inp, ctx.keys);
      KeysAreRight(before, inp, draws, files["config.yaml"].config);
    }
  }

  /** Every managed component finds its keys, and there is no rendering without Quay's own. */
  ghost predicate NothingMissing(keys: Credentials.Keys, cs: seq<Component>) {
    && keys.databaseSecretKey != "" && keys.secretKey != "" && keys.dbRootPw != ""
    && (FirstManaged(cs, Postgres) ==> keys.dbUri != "")
    && (HasManaged(cs, Clair) ==> keys.scannerPsk != "")
    && (FirstManaged(cs, ClairPostgres) ==> keys.clairDbPassword != "")
  }

  ghost predicate FirstManaged(cs: seq<Component>, kind: ComponentKind) {
    exists i | 0 <= i < |cs| :: cs[i].kind == kind && cs[i].managed && forall j | 0 <= j < i :: cs[j].kind != kind
  }

  lemma KeysAreRight(keys: Credentials.Keys, inp: Inputs, draws: Credentials.Draws, c: map<string, string>)
    requires Credentials.Lucky(draws) && CompletedFor(keys, inp, draws).Some?
    requires ConfigHas(c, inp, CompletedFor(keys, inp, draws).value)
    ensures UserKeysKept(c, inp.userConfig) && NothingMissing(CompletedFor(keys, inp, draws).value, inp.components)
  {
    Credentials.CompletedValues(keys, inp.registry, UserOf(inp.userConfig), ManagedSetOf(inp.components), draws);
    var u := UserOf(inp.userConfig);
    assert "DATABASE_SECRET_KEY" in inp.userConfig ==> u.databaseSecretKey == inp.userConfig["DATABASE_SECRET_KEY"];
    assert "SECRET_KEY" in inp.userConfig ==> u.secretKey == inp.userConfig["SECRET_KEY"];
    assert "DB_URI" in inp.userConfig ==> u.dbUri == inp.userConfig["DB_URI"];
  }

  function CompletedFor(keys: Credentials.Keys, inp: Inputs, draws: Credentials.Draws): Option<Credentials.Keys> {
    Credentials.Completed(keys, inp.registry, UserOf(inp.userConfig), ManagedSetOf(inp.components), draws)
  }

  // ---- Two reconciles ----

  /** What Kustomize derives the secret's name from. */
  datatype Generated = Generated(files: map<string, Content>, sources: seq<string>, cas: seq<string>)

  function GeneratedFrom(inp: Inputs, keys: Credentials.Keys, walk: seq<string>, caWalk: seq<string>): Generated {
    Generated(ConfigFiles(inp, keys), FileSources(Sort(walk)), Sort(CaKeys(caWalk)))
  }

  /**
   Once a reconcile's keys are stored, the next one over the same inputs generates the same
   files and lists them in the same order, whatever it would have drawn and however it walks its
   maps; so the secret keeps its name.
   */
  lemma GeneratedSecretIsStable(
    keys: Credentials.Keys, inp: Inputs, draws: Credentials.Draws, later: Credentials.Draws,
    walk: seq<string>, caWalk: seq<string>, walk2: seq<string>, caWalk2: seq<string>
  )
    requires Credentials.ClairWhole(keys) && Credentials.Lucky(draws) && CompletedFor(keys, inp, draws).Some?
    requires keys.clairDbPassword != "" ==> keys.clairDbUser != "" && keys.clairDbName != ""
    requires var names := ConfigFiles(inp, CompletedFor(keys, inp, draws).value).Keys;
             && Middleware.IsOrder(walk, names) && Middleware.IsOrder(caWalk, names)
             && Middleware.IsOrder(walk2, names) && Middleware.IsOrder(caWalk2, names)
    ensures var stored := CompletedFor(keys, inp, draws).value;
            && CompletedFor(stored, inp, later) == Some(stored)
            && GeneratedFrom(inp, stored, walk, caWalk) == GeneratedFrom(inp, stored, walk2, caWalk2)
  {
    var stored := CompletedFor(keys, inp, draws).value;
    var names := ConfigFiles(inp, stored).Keys;
    Credentials.CompletingIsIdempotent(keys, inp.registry, UserOf(inp.userConfig), ManagedSetOf(inp.components), draws, later);
    SourcesIgnoreMapOrder(walk, walk2, names);
    SourcesIgnoreMapOrder(caWalk, caWalk2, names);
  }
}
