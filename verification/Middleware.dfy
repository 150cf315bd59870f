/**
 The rendered config secret (pkg/middleware/middleware.go): every `*.config.yaml` entry is
 folded into `config.yaml`, and what is mounted elsewhere is dropped. Go visits map entries in
 any order it likes; `order` is the one it took.
 */
module Middleware {
  import opened Strings
  import opened Wrappers

  /** What a config says: field by field, values untouched. */
  type Config = map<string, string>

  /** A secret's entry, as YAML sees it: a mapping, nothing at all, or neither. */
  datatype File = Mapping(config: Config) | Null | NotYaml(bytes: string)

  type Bundle = map<string, File>

  /** `WriteToNilMap` is the panic of assigning to a map that was never made. */
  datatype Error = ParseError | WriteToNilMap

  function Unmarshal(file: File): Result<Option<Config>, Error> {
    match file
    case Mapping(config) => Ok(Some(config))
    case Null => Ok(None)
    case NotYaml(_) => Err(ParseError)
  }

  function Marshal(config: Option<Config>): File {
    match config
    case Some(fields) => Mapping(fields)
    case None => Null
  }

  const ConfigKey := "config.yaml"

  predicate IsConfigFile(key: string) {
    Contains(key, ".config.yaml")
  }

  /** An order in which a range over the map may visit its keys. */
  ghost predicate IsOrder(order: seq<string>, keys: set<string>) {
    && (forall key :: key in order <==> key in keys)
    && forall i, j | 0 <= i < j < |order| :: order[i] != order[j]
  }

  // ---- What flattening computes, order by order ----

  /** One entry of the bundle, folded into what there is so far. */
  function Fold(config: Option<Config>, key: string, file: File): Result<Option<Config>, Error> {
    if !IsConfigFile(key) then Ok(config)
    else match file
      case NotYaml(_) => Err(ParseError)
      case Null => Ok(config)
      case Mapping(fields) =>
        if fields == map[] then Ok(config)
        else if config.None? then Err(WriteToNilMap)
        else Ok(Some(config.value + fields))
  }

  function FoldAll(config: Option<Config>, bundle: Bundle, order: seq<string>): Result<Option<Config>, Error>
    requires forall key | key in order :: key in bundle
    decreases order
  {
    if order == [] then Ok(config)
    else
      var next := Fold(config, order[0], bundle[order[0]]);
      if next.Err? then next else FoldAll(next.value, bundle, order[1..])
  }

  function Base(bundle: Bundle): Result<Option<Config>, Error> {
    if ConfigKey in bundle then Unmarshal(bundle[ConfigKey]) else Ok(None)
  }

  function ConfigFiles(bundle: Bundle): set<string> {
    set key | key in bundle && IsConfigFile(key)
  }

  function Flattened(bundle: Bundle, order: seq<string>): Result<Bundle, Error>
    requires forall key | key in order :: key in bundle
  {
    var base := Base(bundle);
    if base.Err? then Err(base.error)
    else
      var config := FoldAll(base.value, bundle, order);
      if config.Err? then Err(config.error)
      else Ok((bundle - ConfigFiles(bundle))[ConfigKey := Marshal(config.value)])
  }

  /** The inner loop: one file's fields, in whatever order. */
  method FoldFields(config: Config, fields: Config) returns (r: Config)
    ensures r == config + fields
  {
    r := config;
    var left := fields.Keys;
    while left != {}
      invariant left <= fields.Keys
      invariant r.Keys == config.Keys + (fields.Keys - left)
      invariant forall key | key in r :: r[key] == if key in fields && key !in left then fields[key] else config[key]
      decreases |left|
    {
      var key :| key in left;
      r := r[key := fields[key]];
      left := left - {key};
    }
  }

  /** The body of the loop, for a config file. */
  method FoldFile(config: Option<Config>, key: string, file: File) returns (r: Result<Option<Config>, Error>)
    requires IsConfigFile(key)
    ensures r == Fold(config, key, file)
  {
    var fields := Unmarshal(file);
    if fields.Err? {
      return Err(fields.error);
    }
    if fields.value.None? || fields.value.value == map[] {
      return Ok(config);
    }
    if config.None? {
      return Err(WriteToNilMap);
    }
    var folded := FoldFields(config.value, fields.value.value);
    return Ok(Some(folded));
  }

  /** The config files among the first `n` keys of the order. */
  function ConfigFilesUpTo(order: seq<string>, n: nat): (r: set<string>)
    requires n <= |order|
    ensures forall key :: key in r <==> key in order[..n] && IsConfigFile(key)
  {
    if n == 0 then {}
    else
      assert order[..n] == order[..n - 1] + [order[n - 1]];
      ConfigFilesUpTo(order, n - 1) + if IsConfigFile(order[n - 1]) then {order[n - 1]} else {}
  }

  lemma ConfigFilesStep(bundle: Bundle, order: seq<string>, i: nat)
    requires i < |order|
    ensures bundle - ConfigFilesUpTo(order, i + 1)
         == if IsConfigFile(order[i]) then (bundle - ConfigFilesUpTo(order, i)) - {order[i]}
            else bundle - ConfigFilesUpTo(order, i)
  {
  }

  lemma AllConfigFiles(bundle: Bundle, order: seq<string>)
    requires IsOrder(order, bundle.Keys)
    ensures ConfigFilesUpTo(order, |order|) == ConfigFiles(bundle)
  {
    assert order[..|order|] == order;
  }

  /** `order` is the order in which the range over the bundle happens to run. */
  method FlattenSecret(bundle: Bundle, order: seq<string>) returns (r: Result<Bundle, Error>)
    requires IsOrder(order, bundle.Keys)
    ensures r == Flattened(bundle, order)
  {
    var flattened := bundle;
    var base := Unmarshal(if ConfigKey in bundle then bundle[ConfigKey] else Null);
    if base.Err? {
      return Err(base.error);
    }
    var flattenedConfig := base.value;
    for i := 0 to |order|
      invariant FoldAll(base.value, bundle, order) == FoldAll(flattenedConfig, bundle, order[i..])
      invariant flattened == bundle - ConfigFilesUpTo(order, i)
    {
      var key := order[i];
      assert order[i..][0] == key && order[i..][1..] == order[i + 1..];
      ConfigFilesStep(bundle, order, i);
      if !IsConfigFile(key) {
        continue;
      }
      var folded := FoldFile(flattenedConfig, key, bundle[key]);
      if folded.Err? {
        return Err(folded.error);
      }
      flattenedConfig := folded.value;
      flattened := flattened - {key};
    }
    AllConfigFiles(bundle, order);
    flattened := flattened[ConfigKey := Marshal(flattenedConfig)];
    return Ok(flattened);
  }

  // ---- What every order agrees on ----

  /** The file is a config file that sets the field. */
  predicate Sets(bundle: Bundle, key: string, field: string) {
    key in bundle && IsConfigFile(key) && bundle[key].Mapping? && field in bundle[key].config
  }

  /** Config files that set the same field set it to the same value, if to no other end. */
  ghost predicate Agree(bundle: Bundle) {
    forall a, b, field | Sets(bundle, a, field) && Sets(bundle, b, field) ::
      bundle[a].config[field] == bundle[b].config[field]
  }

  /** Flattening can go wrong over bad YAML, or over fields with no base config to put them in. */
  ghost predicate Flattens(bundle: Bundle) {
    && Base(bundle).Ok?
    && (forall key | key in bundle && IsConfigFile(key) :: !bundle[key].NotYaml?)
    && (Base(bundle).value.None? ==> forall key, field :: !Sets(bundle, key, field))
  }

  /** The last file of the order that sets a field decides; else the base does. */
  function LastSetter(bundle: Bundle, order: seq<string>, field: string): (r: Option<string>)
    ensures r.Some? ==> r.value in order && Sets(bundle, r.value, field)
    ensures r.None? ==> forall key | key in order :: !Sets(bundle, key, field)
  {
    if order == [] then None
    else if Sets(bundle, order[|order| - 1], field) then Some(order[|order| - 1])
    else LastSetter(bundle, order[..|order| - 1], field)
  }

  lemma {:induction false} FoldSucceeds(config: Option<Config>, bundle: Bundle, order: seq<string>)
    requires forall key | key in order :: key in bundle
    ensures FoldAll(config, bundle, order).Ok? <==>
            && (forall key | key in order && IsConfigFile(key) :: !bundle[key].NotYaml?)
            && (config.None? ==> forall key, field | key in order :: !Sets(bundle, key, field))
    ensures FoldAll(config, bundle, order).Ok? ==> FoldAll(config, bundle, order).value.Some? == config.Some?
    decreases order
  {
    if order != [] {
      var key, next := order[0], Fold(config, order[0], bundle[order[0]]);
      assert order == [key] + order[1..];
      if next.Ok? {
        FoldSucceeds(next.value, bundle, order[1..]);
        if config.None? && IsConfigFile(key) {
          assert forall field :: !Sets(bundle, key, field);
        }
      } else if next.error == WriteToNilMap {
        var field :| field in bundle[key].config;
        assert Sets(bundle, key, field);
      }
    }
  }

  lemma {:induction false} FoldValue(config: Config, bundle: Bundle, order: seq<string>, field: string)
    requires forall key | key in order :: key in bundle
    requires FoldAll(Some(config), bundle, order).Ok? && FoldAll(Some(config), bundle, order).value.Some?
    ensures var r, last := FoldAll(Some(config), bundle, order).value.value, LastSetter(bundle, order, field);
            if last.Some? then field in r && r[field] == bundle[last.value].config[field]
            else (field in r <==> field in config) && (field in r ==> r[field] == config[field])
    decreases order
  {
    if order != [] {
      var next := Fold(Some(config), order[0], bundle[order[0]]).value.value;
      FoldValue(next, bundle, order[1..], field);
      LastSetterOf(bundle, order, field);
    }
  }

  lemma {:induction false} LastSetterOf(bundle: Bundle, order: seq<string>, field: string)
    requires order != []
    ensures LastSetter(bundle, order, field)
         == var later := LastSetter(bundle, order[1..], field);
            if later.Some? then later else if Sets(bundle, order[0], field) then Some(order[0]) else None
  {
    var last := |order| - 1;
    if last == 0 {
      assert order[..last] == [] && order[1..] == [];
    } else {
      assert order[1..][last - 1] == order[last] && order[1..][..last - 1] == order[..last][1..];
      LastSetterOf(bundle, order[..last], field);
    }
  }

  /** Whether flattening works out never depends on the order. */
  lemma FlattenedOk(bundle: Bundle, order: seq<string>)
    requires IsOrder(order, bundle.Keys)
    ensures Flattened(bundle, order).Ok? <==> Flattens(bundle)
  {
    if Base(bundle).Ok? {
      FoldSucceeds(Base(bundle).value, bundle, order);
    }
  }

  /** The fields of a config; a file without a mapping has none. */
  function Fields(file: File): Config {
    if file.Mapping? then file.config else map[]
  }

  /**
   The flattened config: a field is what the last file of the order says that sets it, and what
   the base says if none does. All other entries stay, and all config files are gone.
   */
  lemma FlattenedFields(bundle: Bundle, order: seq<string>, field: string)
    requires IsOrder(order, bundle.Keys) && Flattens(bundle)
    ensures Flattened(bundle, order).Ok?
    ensures var r := Flattened(bundle, order).value;
            && (forall key :: key in r <==> key == "config.yaml" || (key in bundle && !Contains(key, ".config.yaml")))
            && (forall key | key in r && key != ConfigKey :: r[key] == bundle[key])
    ensures var r, last := Fields(Flattened(bundle, order).value[ConfigKey]), LastSetter(bundle, order, field);
            var base := if ConfigKey in bundle then Fields(bundle[ConfigKey]) else map[];
            if last.Some? then field in r && r[field] == bundle[last.value].config[field]
            else (field in r <==> field in base) && (field in r ==> r[field] == base[field])
  {
    FlattenedOk(bundle, order);
    var base := Base(bundle).value;
    FoldSucceeds(base, bundle, order);
    if base.Some? {
      FoldValue(base.value, bundle, order, field);
    }
  }

  lemma SameFields(a: Config, b: Config)
    requires forall field :: (field in a <==> field in b) && (field in a ==> a[field] == b[field])
    ensures a == b
  {
  }

  lemma {:induction false} SetterIsLast(bundle: Bundle, order: seq<string>, key: string, field: string)
    requires key in order && Sets(bundle, key, field)
    ensures LastSetter(bundle, order, field).Some?
  {
    if !Sets(bundle, order[|order| - 1], field) {
      assert order == order[..|order| - 1] + [order[|order| - 1]];
      SetterIsLast(bundle, order[..|order| - 1], key, field);
    }
  }

  lemma FlattenedFieldsAgree(bundle: Bundle, first: seq<string>, second: seq<string>, field: string)
    requires IsOrder(first, bundle.Keys) && IsOrder(second, bundle.Keys)
    requires Agree(bundle) && Flattens(bundle)
    ensures Flattened(bundle, first).Ok? && Flattened(bundle, second).Ok?
    ensures var r, q := Fields(Flattened(bundle, first).value[ConfigKey]), Fields(Flattened(bundle, second).value[ConfigKey]);
            (field in r <==> field in q) && (field in r ==> r[field] == q[field])
  {
    FlattenedFields(bundle, first, field);
    FlattenedFields(bundle, second, field);
    var a, b := LastSetter(bundle, first, field), LastSetter(bundle, second, field);
    if a.Some? {
      SetterIsLast(bundle, second, a.value, field);
    }
    if b.Some? {
      SetterIsLast(bundle, first, b.value, field);
    }
  }

  /** When config files agree, every order gives the same secret. */
  lemma AgreeingFilesFlattenAlike(bundle: Bundle, first: seq<string>, second: seq<string>)
    requires IsOrder(first, bundle.Keys) && IsOrder(second, bundle.Keys)
    requires Agree(bundle) && Flattens(bundle)
    ensures Flattened(bundle, first).Ok? && Flattened(bundle, first) == Flattened(bundle, second)
  {
    FlattenedOk(bundle, first);
    FlattenedOk(bundle, second);
    var r, q := Flattened(bundle, first).value, Flattened(bundle, second).value;
    forall field ensures (field in Fields(r[ConfigKey]) <==> field in Fields(q[ConfigKey]))
                         && (field in Fields(r[ConfigKey]) ==> Fields(r[ConfigKey])[field] == Fields(q[ConfigKey])[field]) {
      FlattenedFieldsAgree(bundle, first, second, field);
    }
    SameFields(Fields(r[ConfigKey]), Fields(q[ConfigKey]));
    var base := Base(bundle).value;
    FoldSucceeds(base, bundle, first);
    FoldSucceeds(base, bundle, second);
    assert r[ConfigKey] == q[ConfigKey];
  }

  /** Any file can come last, and then its fields are the ones that count. */
  lemma LastFileDecides(bundle: Bundle, key: string, field: string) returns (order: seq<string>)
    requires Flattens(bundle) && Sets(bundle, key, field)
    ensures IsOrder(order, bundle.Keys) && Flattened(bundle, order).Ok?
    ensures var r := Fields(Flattened(bundle, order).value[ConfigKey]);
            field in r && r[field] == bundle[key].config[field]
  {
    order := SomeOrder(bundle.Keys - {key}) + [key];
    FlattenedFields(bundle, order, field);
  }

  /** When two of them differ over a field, the order decides which one is heard. */
  lemma DisagreeingFilesDoNot(bundle: Bundle, a: string, b: string, field: string)
    requires Flattens(bundle) && Sets(bundle, a, field) && Sets(bundle, b, field)
    requires bundle[a].config[field] != bundle[b].config[field]
    ensures exists first, second | IsOrder(first, bundle.Keys) && IsOrder(second, bundle.Keys) ::
              Flattened(bundle, first) != Flattened(bundle, second)
  {
    var first := LastFileDecides(bundle, a, field);
    var second := LastFileDecides(bundle, b, field);
    assert Flattened(bundle, first) != Flattened(bundle, second);
  }

  ghost function SomeOrder(keys: set<string>): (order: seq<string>)
    ensures IsOrder(order, keys)
  {
    if keys == {} then []
    else
      var key :| key in keys;
      SomeOrder(keys - {key}) + [key]
  }

  /** The order of the map is immaterial exactly when the config files agree. */
  lemma OrderIsImmaterialIffFilesAgree(bundle: Bundle)
    requires Flattens(bundle)
    ensures Agree(bundle) <==>
            forall first, second | IsOrder(first, bundle.Keys) && IsOrder(second, bundle.Keys) ::
              Flattened(bundle, first) == Flattened(bundle, second)
  {
    if Agree(bundle) {
      forall first, second | IsOrder(first, bundle.Keys) && IsOrder(second, bundle.Keys)
        ensures Flattened(bundle, first) == Flattened(bundle, second)
      {
        AgreeingFilesFlattenAlike(bundle, first, second);
      }
    } else {
      var a, b, field :| Sets(bundle, a, field) && Sets(bundle, b, field)
                         && bundle[a].config[field] != bundle[b].config[field];
      DisagreeingFilesDoNot(bundle, a, b, field);
    }
  }

  /** Component files with fields of their own: the base config, overridden by their union. */
  lemma DisjointFilesOverrideBase(bundle: Bundle, order: seq<string>, key: string, field: string)
    requires IsOrder(order, bundle.Keys) && Flattens(bundle) && Sets(bundle, key, field)
    requires forall a, b, f | Sets(bundle, a, f) && Sets(bundle, b, f) :: a == b
    ensures Flattened(bundle, order).Ok?
    ensures var r := Fields(Flattened(bundle, order).value[ConfigKey]);
            field in r && r[field] == bundle[key].config[field]
  {
    FlattenedFields(bundle, order, field);
    SetterIsLast(bundle, order, key, field);
  }

  lemma ConfigKeyIsNoConfigFile()
    ensures !IsConfigFile(ConfigKey)
  {
    TooShort(ConfigKey, ".config.yaml");
  }

  lemma {:induction false} NothingToFold(config: Option<Config>, bundle: Bundle, order: seq<string>)
    requires forall key | key in order :: key in bundle && !IsConfigFile(key)
    ensures FoldAll(config, bundle, order) == Ok(config)
    decreases order
  {
    if order != [] {
      NothingToFold(config, bundle, order[1..]);
    }
  }

  lemma FlattenedHasOneConfig(bundle: Bundle, order: seq<string>)
    requires IsOrder(order, bundle.Keys) && Flattened(bundle, order).Ok?
    ensures var r := Flattened(bundle, order).value;
            && (forall key | key in r :: !IsConfigFile(key))
            && ConfigKey in r && Unmarshal(r[ConfigKey]).Ok? && Marshal(Unmarshal(r[ConfigKey]).value) == r[ConfigKey]
  {
    ConfigKeyIsNoConfigFile();
  }

  /** Flattening a flattened secret, in any order, gives it back. */
  lemma FlatteningIsIdempotent(bundle: Bundle, order: seq<string>, again: seq<string>)
    requires IsOrder(order, bundle.Keys) && Flattened(bundle, order).Ok?
    requires IsOrder(again, Flattened(bundle, order).value.Keys)
    ensures Flattened(Flattened(bundle, order).value, again) == Flattened(bundle, order)
  {
    FlattenedHasOneConfig(bundle, order);
    OneConfigStays(Flattened(bundle, order).value, again);
  }

  lemma OneConfigStays(r: Bundle, again: seq<string>)
    requires IsOrder(again, r.Keys) && forall key | key in r :: !IsConfigFile(key)
    requires ConfigKey in r && Unmarshal(r[ConfigKey]).Ok? && Marshal(Unmarshal(r[ConfigKey]).value) == r[ConfigKey]
    ensures Flattened(r, again) == Ok(r)
  {
    NothingToFold(Base(r).value, r, again);
    assert r - ConfigFiles(r) == r by {
      assert ConfigFiles(r) == {};
    }
    assert r[ConfigKey := r[ConfigKey]] == r;
  }

  // ---- What is mounted elsewhere ----

  const MountedElsewhere: set<string> := {"ssl.cert", "ssl.key", "clair-ssl.key", "clair-ssl.crt"}

  predicate IsExtraCa(key: string) {
    HasPrefix(key, "extra_ca_cert_")
  }

  /** The entries of the rendered secret that Process does not keep. */
  predicate Dropped(key: string) {
    key in MountedElsewhere || IsExtraCa(key)
  }

  /** The config branch of Process; `caOrder` is the order of its range over what is left. */
  method ProcessConfigSecret(bundle: Bundle, order: seq<string>, caOrder: seq<string>) returns (r: Result<Bundle, Error>)
    requires IsOrder(order, bundle.Keys)
    requires Flattened(bundle, order).Ok? ==> IsOrder(caOrder, Flattened(bundle, order).value.Keys - MountedElsewhere)
    ensures r.Ok? <==> Flattened(bundle, order).Ok?
    ensures r.Ok? ==> r.value == map key | key in Flattened(bundle, order).value && !Dropped(key) :: Flattened(bundle, order).value[key]
    ensures r.Ok? ==> forall key :: key in r.value <==>
              && (key == "config.yaml" || (key in bundle && !Contains(key, ".config.yaml")))
              && key !in ["ssl.cert", "ssl.key", "clair-ssl.key", "clair-ssl.crt"] && !HasPrefix(key, "extra_ca_cert_")
  {
    r := FlattenSecret(bundle, order);
    if r.Err? {
      return;
    }
    var data := r.value - MountedElsewhere;
    ghost var mounted := data;
    for i := 0 to |caOrder|
      invariant forall key :: key in data <==> key in mounted && !(IsExtraCa(key) && key in caOrder[..i])
      invariant forall key | key in data :: data[key] == mounted[key]
    {
      assert caOrder[..i + 1] == caOrder[..i] + [caOrder[i]];
      if IsExtraCa(caOrder[i]) {
        data := data - {caOrder[i]};
      }
    }
    assert caOrder[..|caOrder|] == caOrder;
    return Ok(data);
  }
}
