/**
 The keys a registry lives on: read back at the start of a reconcile (controllers/quay/features.go),
 completed while rendering (pkg/kustomize/kustomize.go, pkg/kustomize/secrets.go), and carried
 by every object rendered from them.
 */
module Credentials {
  import opened Strings
  import opened Wrappers
  import opened RandomStrings

  datatype Keys = Keys(
    databaseSecretKey: string, secretKey: string, dbUri: string, dbRootPw: string, scannerPsk: string,
    clairDbUser: string, clairDbPassword: string, clairDbRootPw: string, clairDbName: string
  )

  const NoKeys := Keys("", "", "", "", "", "", "", "", "")

  datatype Field =
    | DatabaseSecretKey | SecretKey | DbUri | DbRootPw | ScannerPsk
    | ClairDbUser | ClairDbPassword | ClairDbRootPw | ClairDbName

  function Get(k: Keys, f: Field): string {
    match f
    case DatabaseSecretKey => k.databaseSecretKey
    case SecretKey => k.secretKey
    case DbUri => k.dbUri
    case DbRootPw => k.dbRootPw
    case ScannerPsk => k.scannerPsk
    case ClairDbUser => k.clairDbUser
    case ClairDbPassword => k.clairDbPassword
    case ClairDbRootPw => k.clairDbRootPw
    case ClairDbName => k.clairDbName
  }

  class Context {
    var keys: Keys

    constructor ()
      ensures keys == NoKeys
    {
      keys := NoKeys;
    }
  }

  // ---- Reading the keys back ----

  datatype NamedKeys = NamedKeys(name: string, keys: Keys)

  /** The keys of the first secret that is named after the managed keys, as older releases did. */
  function Deprecated(secrets: seq<NamedKeys>, keysName: string): Keys {
    if secrets == [] then NoKeys
    else if Contains(secrets[0].name, keysName) then secrets[0].keys
    else Deprecated(secrets[1..], keysName)
  }

  /** None if the API server fails. */
  function ReadBack(answer: Read<Keys>, listed: Result<seq<NamedKeys>, string>, keysName: string): Option<Keys> {
    match answer
    case Found(keys) => Some(keys)
    case Failed(_) => None
    case NotFound => if listed.Ok? then Some(Deprecated(listed.value, keysName)) else None
  }

  method CheckDeprecatedManagedKeys(ctx: Context, listed: Result<seq<NamedKeys>, string>, keysName: string) returns (ok: bool)
    requires ctx.keys == NoKeys
    modifies ctx
    ensures ok <==> listed.Ok?
    ensures ok ==> ctx.keys == Deprecated(listed.value, keysName)
  {
    if listed.Err? {
      return false;
    }
    var secrets := listed.value;
    for i := 0 to |secrets|
      invariant ctx.keys == NoKeys && Deprecated(secrets, keysName) == Deprecated(secrets[i..], keysName)
    {
      assert secrets[i..][0] == secrets[i] && secrets[i..][1..] == secrets[i + 1..];
      if Contains(secrets[i].name, keysName) {
        ctx.keys := secrets[i].keys;
        return true;
      }
    }
    return true;
  }

  method CheckManagedKeys(ctx: Context, answer: Read<Keys>, listed: Result<seq<NamedKeys>, string>, keysName: string)
    returns (ok: bool)
    requires ctx.keys == NoKeys
    modifies ctx
    ensures ok <==> ReadBack(answer, listed, keysName).Some?
    ensures ok ==> ctx.keys == ReadBack(answer, listed, keysName).value
  {
    match answer {
      case NotFound =>
        ok := CheckDeprecatedManagedKeys(ctx, listed, keysName);
      case Failed(_) =>
        ok := false;
      case Found(keys) =>
        ctx.keys := keys;
        ok := true;
    }
  }

  // ---- Completing them ----

  /** What the user's bundle sets; a field of another type counts as empty, like one left out. */
  datatype UserConfig = UserConfig(databaseSecretKey: string, secretKey: string, dbUri: string)

  function UserValue(u: UserConfig, f: Field): string {
    match f
    case DatabaseSecretKey => u.databaseSecretKey
    case SecretKey => u.secretKey
    case DbUri => u.dbUri
    case _ => ""
  }

  datatype ManagedSet = ManagedSet(postgres: bool, clair: bool, clairPostgres: bool)

  /** What the random source would answer to each request; None if it fails. */
  datatype Draws = Draws(
    databaseSecretKey: Option<string>, secretKey: Option<string>, dbPassword: Option<string>,
    scannerPsk: Option<string>, clairPassword: Option<string>, rootPw: Option<string>
  )

  predicate Drawn(draw: Option<string>) {
    draw.Some? ==> draw.value != ""
  }

  /** Random strings have a fixed, positive length. */
  predicate Lucky(d: Draws) {
    && Drawn(d.databaseSecretKey) && Drawn(d.secretKey) && Drawn(d.dbPassword)
    && Drawn(d.scannerPsk) && Drawn(d.clairPassword) && Drawn(d.rootPw)
  }

  const LegacyPassword := "postgres"

  function DatabaseName(registry: string): string {
    registry + "-quay-database"
  }

  function ManagedUri(registry: string, password: string): (uri: string)
    ensures uri != ""
  {
    Uri(DatabaseName(registry), password, DatabaseName(registry), "5432", DatabaseName(registry))
  }

  function Pick(user: string, kept: string, draw: Option<string>): Option<string> {
    if user != "" then Some(user) else if kept != "" then Some(kept) else draw
  }

  function PickUri(registry: string, user: string, kept: string, managed: bool, draw: Option<string>): Option<string> {
    if user != "" then Some(user)
    else if kept != "" || !managed then Some(kept)
    else if draw.Some? then Some(ManagedUri(registry, draw.value))
    else None
  }

  /** The database configuration differs from the one persisted, so migrations are due. */
  predicate DatabaseChanged(keys: Keys, user: UserConfig, managed: ManagedSet) {
    if user.dbUri != "" then user.dbUri != keys.dbUri else managed.postgres && keys.dbUri == ""
  }

  function WithConfigKeys(keys: Keys, registry: string, user: UserConfig, managed: ManagedSet, draws: Draws): Option<Keys> {
    var databaseSecretKey := Pick(user.databaseSecretKey, keys.databaseSecretKey, draws.databaseSecretKey);
    var secretKey := Pick(user.secretKey, keys.secretKey, draws.secretKey);
    var dbUri := PickUri(registry, user.dbUri, keys.dbUri, managed.postgres, draws.dbPassword);
    if databaseSecretKey.None? || secretKey.None? || dbUri.None? then None
    else Some(keys.(databaseSecretKey := databaseSecretKey.value, secretKey := secretKey.value, dbUri := dbUri.value))
  }

  function WithScannerKey(keys: Keys, managed: ManagedSet, draws: Draws): Option<Keys> {
    if !managed.clair || keys.scannerPsk != "" then Some(keys)
    else if draws.scannerPsk.Some? then Some(keys.(scannerPsk := draws.scannerPsk.value))
    else None
  }

  /** A registry that had a root password but no Clair database is one an older release made. */
  function WithClairKeys(keys: Keys, managed: ManagedSet, draws: Draws): Option<Keys> {
    if !managed.clairPostgres || keys.clairDbPassword != "" then Some(keys)
    else
      var password := if keys.dbRootPw == "" then draws.clairPassword else Some(LegacyPassword);
      if password.None? then None
      else Some(keys.(clairDbPassword := password.value, clairDbRootPw := password.value,
                      clairDbUser := LegacyPassword, clairDbName := LegacyPassword))
  }

  function WithRootPassword(keys: Keys, draws: Draws): Option<Keys> {
    if keys.dbRootPw != "" then Some(keys)
    else if draws.rootPw.Some? then Some(keys.(dbRootPw := draws.rootPw.value))
    else None
  }

  /** The keys everything is rendered from; None if the random source fails. */
  function Completed(keys: Keys, registry: string, user: UserConfig, managed: ManagedSet, draws: Draws): Option<Keys> {
    var a := WithConfigKeys(keys, registry, user, managed, draws);
    if a.None? then None else
    var b := WithScannerKey(a.value, managed, draws);
    if b.None? then None else
    var c := WithClairKeys(b.value, managed, draws);
    if c.None? then None else
    WithRootPassword(c.value, draws)
  }

  /** The first part of Inflate. */
  method EnsureConfigKeys(ctx: Context, registry: string, user: UserConfig, managed: ManagedSet, draws: Draws)
    returns (ok: bool, dbCfgHasChanged: bool)
    modifies ctx
    ensures ok <==> WithConfigKeys(old(ctx.keys), registry, user, managed, draws).Some?
    ensures ok ==> ctx.keys == WithConfigKeys(old(ctx.keys), registry, user, managed, draws).value
    ensures ok ==> dbCfgHasChanged == DatabaseChanged(old(ctx.keys), user, managed)
  {
    dbCfgHasChanged := false;
    if user.databaseSecretKey != "" {
      ctx.keys := ctx.keys.(databaseSecretKey := user.databaseSecretKey);
    } else if ctx.keys.databaseSecretKey == "" {
      if draws.databaseSecretKey.None? {
        return false, dbCfgHasChanged;
      }
      ctx.keys := ctx.keys.(databaseSecretKey := draws.databaseSecretKey.value);
    }
    if user.secretKey != "" {
      ctx.keys := ctx.keys.(secretKey := user.secretKey);
    } else if ctx.keys.secretKey == "" {
      if draws.secretKey.None? {
        return false, dbCfgHasChanged;
      }
      ctx.keys := ctx.keys.(secretKey := draws.secretKey.value);
    }
    if user.dbUri != "" {
      dbCfgHasChanged := user.dbUri != ctx.keys.dbUri;
      ctx.keys := ctx.keys.(dbUri := user.dbUri);
    } else if managed.postgres && ctx.keys.dbUri == "" {
      dbCfgHasChanged := true;
      if draws.dbPassword.None? {
        return false, dbCfgHasChanged;
      }
      ctx.keys := ctx.keys.(dbUri := ManagedUri(registry, draws.dbPassword.value));
    }
    return true, dbCfgHasChanged;
  }

  /** The Clair case of FieldGroupFor. */
  method EnsureScannerKey(ctx: Context, managed: ManagedSet, draws: Draws) returns (ok: bool)
    modifies ctx
    ensures ok <==> WithScannerKey(old(ctx.keys), managed, draws).Some?
    ensures ok ==> ctx.keys == WithScannerKey(old(ctx.keys), managed, draws).value
  {
    if managed.clair && ctx.keys.scannerPsk == "" {
      if draws.scannerPsk.None? {
        return false;
      }
      ctx.keys := ctx.keys.(scannerPsk := draws.scannerPsk.value);
    }
    return true;
  }

  /** The first part of KustomizationFor. */
  method EnsureDatabaseKeys(ctx: Context, managed: ManagedSet, draws: Draws) returns (ok: bool)
    modifies ctx
    ensures var c := WithClairKeys(old(ctx.keys), managed, draws);
            && (ok <==> c.Some? && WithRootPassword(c.value, draws).Some?)
            && (ok ==> ctx.keys == WithRootPassword(c.value, draws).value)
  {
    if managed.clairPostgres && ctx.keys.clairDbPassword == "" {
      if ctx.keys.dbRootPw == "" {
        if draws.clairPassword.None? {
          return false;
        }
        ctx.keys := ctx.keys.(clairDbPassword := draws.clairPassword.value);
      } else {
        ctx.keys := ctx.keys.(clairDbPassword := LegacyPassword);
      }
      ctx.keys := ctx.keys.(clairDbRootPw := ctx.keys.clairDbPassword, clairDbUser := LegacyPassword,
                            clairDbName := LegacyPassword);
    }
    if ctx.keys.dbRootPw == "" {
      if draws.rootPw.None? {
        return false;
      }
      ctx.keys := ctx.keys.(dbRootPw := draws.rootPw.value);
    }
    return true;
  }

  /** All of Inflate that touches keys. */
  method Inflate(ctx: Context, registry: string, user: UserConfig, managed: ManagedSet, draws: Draws)
    returns (ok: bool, dbCfgHasChanged: bool)
    modifies ctx
    ensures ok <==> Completed(old(ctx.keys), registry, user, managed, draws).Some?
    ensures ok ==> ctx.keys == Completed(old(ctx.keys), registry, user, managed, draws).value
    ensures ok ==> dbCfgHasChanged == DatabaseChanged(old(ctx.keys), user, managed)
  {
    ok, dbCfgHasChanged := EnsureConfigKeys(ctx, registry, user, managed, draws);
    if ok {
      ok := EnsureScannerKey(ctx, managed, draws);
    }
    if ok {
      ok := EnsureDatabaseKeys(ctx, managed, draws);
    }
  }

  // ---- Where every key comes from ----

  /** The first that is not empty, else what was drawn. */
  function Source(user: string, kept: string, draw: Option<string>): Option<string> {
    if user != "" then Some(user) else if kept != "" then Some(kept) else draw
  }

  predicate Needs(draw: Option<string>, needed: bool) {
    needed ==> draw.Some?
  }

  /**
   Key by key: what the user says, else what was read back, else what was drawn for that key. The
   password of Clair's database is the legacy one if a root password was read back, for then
   there may be a database that runs on it; its other names are fixed.
   */
  lemma CompletedValues(keys: Keys, registry: string, user: UserConfig, managed: ManagedSet, draws: Draws)
    requires Completed(keys, registry, user, managed, draws).Some?
    ensures var r := Completed(keys, registry, user, managed, draws).value;
            && Some(r.databaseSecretKey) == Source(user.databaseSecretKey, keys.databaseSecretKey, draws.databaseSecretKey)
            && Some(r.secretKey) == Source(user.secretKey, keys.secretKey, draws.secretKey)
            && Some(r.dbRootPw) == Source("", keys.dbRootPw, draws.rootPw)
            && (if managed.clair then Some(r.scannerPsk) == Source("", keys.scannerPsk, draws.scannerPsk)
                else r.scannerPsk == keys.scannerPsk)
    ensures var r := Completed(keys, registry, user, managed, draws).value;
            if user.dbUri != "" then r.dbUri == user.dbUri
            else if keys.dbUri != "" || !managed.postgres then r.dbUri == keys.dbUri
            else draws.dbPassword.Some? && r.dbUri == ManagedUri(registry, draws.dbPassword.value)
    ensures var r := Completed(keys, registry, user, managed, draws).value;
            if keys.clairDbPassword != "" || !managed.clairPostgres then
              && r.clairDbPassword == keys.clairDbPassword && r.clairDbRootPw == keys.clairDbRootPw
              && r.clairDbUser == keys.clairDbUser && r.clairDbName == keys.clairDbName
            else
              && Some(r.clairDbPassword) == (if keys.dbRootPw != "" then Some("postgres") else draws.clairPassword)
              && r.clairDbRootPw == r.clairDbPassword && r.clairDbUser == "postgres" && r.clairDbName == "postgres"
  {
  }

  /** Completing fails exactly if the random source fails for a key that is missing. */
  lemma CompletedIff(keys: Keys, registry: string, user: UserConfig, managed: ManagedSet, draws: Draws)
    ensures Completed(keys, registry, user, managed, draws).Some? <==>
            && Needs(draws.databaseSecretKey, user.databaseSecretKey == "" && keys.databaseSecretKey == "")
            && Needs(draws.secretKey, user.secretKey == "" && keys.secretKey == "")
            && Needs(draws.dbPassword, user.dbUri == "" && keys.dbUri == "" && managed.postgres)
            && Needs(draws.scannerPsk, keys.scannerPsk == "" && managed.clair)
            && Needs(draws.clairPassword, keys.clairDbPassword == "" && managed.clairPostgres && keys.dbRootPw == "")
            && Needs(draws.rootPw, keys.dbRootPw == "")
  {
  }

  /** The database counts as changed exactly if Quay is to connect elsewhere than the keys read back say. */
  lemma ChangedIffUriDiffers(keys: Keys, registry: string, user: UserConfig, managed: ManagedSet, draws: Draws)
    requires Completed(keys, registry, user, managed, draws).Some?
    ensures DatabaseChanged(keys, user, managed) <==> Completed(keys, registry, user, managed, draws).value.dbUri != keys.dbUri
  {
  }

  /** Of the secrets of older releases the first with a fitting name is taken over, and only that. */
  lemma {:induction false} DeprecatedIsFirst(secrets: seq<NamedKeys>, keysName: string, i: nat)
    requires i <= |secrets| && forall j | 0 <= j < i :: !Contains(secrets[j].name, keysName)
    ensures i < |secrets| && Contains(secrets[i].name, keysName) ==> Deprecated(secrets, keysName) == secrets[i].keys
    ensures i == |secrets| ==> Deprecated(secrets, keysName) == NoKeys
  {
    if i > 0 {
      DeprecatedIsFirst(secrets[1..], keysName, i - 1);
    }
  }

  // ---- What completing them keeps ----

  /** Clair's database has all of its credentials or none, and one password for both its users. */
  predicate ClairWhole(k: Keys) {
    && k.clairDbRootPw == k.clairDbPassword
    && (k.clairDbPassword == "" ==> k.clairDbUser == "" && k.clairDbName == "")
  }

  /** A key is what the user says, else what it was; only missing keys are made up. */
  lemma CompletedKeeps(
    keys: Keys, registry: string, user: UserConfig, managed: ManagedSet, draws: Draws, f: Field
  )
    requires ClairWhole(keys) && Lucky(draws) && Completed(keys, registry, user, managed, draws).Some?
    ensures var r := Completed(keys, registry, user, managed, draws).value;
            && (UserValue(user, f) != "" ==> Get(r, f) == UserValue(user, f))
            && (UserValue(user, f) == "" && Get(keys, f) != "" ==> Get(r, f) == Get(keys, f))
            && ClairWhole(r)
  {
  }

  /** Nothing that is needed is missing afterwards. */
  predicate Complete(k: Keys, managed: ManagedSet) {
    && k.databaseSecretKey != "" && k.secretKey != "" && k.dbRootPw != ""
    && (managed.postgres ==> k.dbUri != "")
    && (managed.clair ==> k.scannerPsk != "")
    && (managed.clairPostgres ==> k.clairDbPassword != "" && k.clairDbUser != "" && k.clairDbName != "")
  }

  lemma CompletedIsComplete(keys: Keys, registry: string, user: UserConfig, managed: ManagedSet, draws: Draws)
    requires ClairWhole(keys) && Lucky(draws) && Completed(keys, registry, user, managed, draws).Some?
    requires keys.clairDbPassword != "" ==> keys.clairDbUser != "" && keys.clairDbName != ""
    ensures Complete(Completed(keys, registry, user, managed, draws).value, managed)
  {
  }

  predicate Agrees(k: Keys, user: UserConfig) {
    && (user.databaseSecretKey != "" ==> k.databaseSecretKey == user.databaseSecretKey)
    && (user.secretKey != "" ==> k.secretKey == user.secretKey)
    && (user.dbUri != "" ==> k.dbUri == user.dbUri)
  }

  /**
   Once the keys are complete, a reconcile over the same configuration draws nothing and
   changes nothing: it works with a random source that always fails.
   */
  lemma CompleteKeysStay(keys: Keys, registry: string, user: UserConfig, managed: ManagedSet, draws: Draws)
    requires Complete(keys, managed) && Agrees(keys, user)
    ensures Completed(keys, registry, user, managed, draws) == Some(keys)
    ensures !DatabaseChanged(keys, user, managed)
  {
  }

  /** A second reconcile after one that persisted its keys has nothing left to generate. */
  lemma CompletingIsIdempotent(
    keys: Keys, registry: string, user: UserConfig, managed: ManagedSet, draws: Draws, later: Draws
  )
    requires ClairWhole(keys) && Lucky(draws) && Completed(keys, registry, user, managed, draws).Some?
    requires keys.clairDbPassword != "" ==> keys.clairDbUser != "" && keys.clairDbName != ""
    ensures var r := Completed(keys, registry, user, managed, draws).value;
            Completed(r, registry, user, managed, later) == Some(r) && !DatabaseChanged(r, user, managed)
  {
    var r := Completed(keys, registry, user, managed, draws).value;
    CompletedIsComplete(keys, registry, user, managed, draws);
    forall f ensures UserValue(user, f) != "" ==> Get(r, f) == UserValue(user, f) {
      CompletedKeeps(keys, registry, user, managed, draws, f);
    }
    assert UserValue(user, DatabaseSecretKey) != "" ==> Get(r, DatabaseSecretKey) == user.databaseSecretKey;
    assert UserValue(user, SecretKey) != "" ==> Get(r, SecretKey) == user.secretKey;
    assert UserValue(user, DbUri) != "" ==> Get(r, DbUri) == user.dbUri;
    CompleteKeysStay(r, registry, user, managed, later);
  }

  /** The generated URI, written out. */
  lemma ManagedUriText(registry: string, password: string)
    ensures var name := registry + "-quay-database";
            ManagedUri(registry, password) == "postgresql://" + name + ":" + password + "@" + name + ":5432/" + name
  {
    var name := registry + "-quay-database";
    UriText(name, password, name, "5432", name);
    assert ":" + "5432" + "/" == ":5432/";
    assert ((((("postgresql://" + name) + ":") + password) + "@") + name) + ":5432/" + name
        == ((((("postgresql://" + name) + ":") + password) + "@") + name) + ":" + "5432" + "/" + name;
  }

  /** The generated URI yields the credentials the database deployment is given. */
  lemma ManagedUriParses(registry: string, password: string)
    requires Free(registry, ':') && Free(registry, '/') && Free(registry, '@') && IsKey(password)
    ensures Parse(ManagedUri(registry, password))
         == Some(RandomStrings.Credentials(registry + "-quay-database", password, registry + "-quay-database"))
  {
    var suffix := "-quay-database";
    assert Free(suffix, ':') && Free(suffix, '/') && Free(suffix, '@');
    assert Free("5432", '/') && Free("5432", '@');
    var name := registry + suffix;
    assert Free(name, ':') && Free(name, '/') && Free(name, '@');
    UriRoundTrip(name, password, name, "5432", name);
  }
}
