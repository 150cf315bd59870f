/**
 The gate in front of a database upgrade (controllers/quay/features.go): a database whose
 image is outdated is scaled down, and its upgrade is rendered only once its pods are gone.
 */
module PostgresUpgrade {
  import opened Wrappers
  import opened Conditions
  import Components
  import Images

  datatype Database = QuayDatabase | ClairDatabase

  function ComponentOf(db: Database): ComponentKind {
    match db
    case QuayDatabase => Postgres
    case ClairDatabase => ClairPostgres
  }

  datatype Phase = Pending | Running | Succeeded | Failed | Unknown

  datatype Deployment = Deployment(image: string, replicas: nat, gracePeriod: nat)

  /** What the API server answers about one database in this reconcile. */
  datatype Sight = Sight(readable: bool, updateLands: bool, pods: Result<seq<Phase>, string>)

  /** The default image of a database and the override in force, empty if there is none. */
  datatype Wanted = Wanted(defaultName: string, override: string)

  datatype PerDatabase<T> = PerDatabase(quay: T, clair: T)

  class Context {
    var needsPgUpgrade: bool
    var needsClairPgUpgrade: bool

    constructor ()
      ensures !needsPgUpgrade && !needsClairPgUpgrade
    {
      needsPgUpgrade, needsClairPgUpgrade := false, false;
    }

    predicate Needs(db: Database)
      reads this
    {
      match db
      case QuayDatabase => needsPgUpgrade
      case ClairDatabase => needsClairPgUpgrade
    }
  }

  class Cluster {
    var deployments: map<Database, Deployment>

    constructor (deployments: map<Database, Deployment>)
      ensures this.deployments == deployments
    {
      this.deployments := deployments;
    }
  }

  function Lookup(deployments: map<Database, Deployment>, db: Database): Option<Deployment> {
    if db in deployments then Some(deployments[db]) else None
  }

  /** The database is deployed, can be read, and runs from another repository than wanted. */
  predicate Outdated(deployments: map<Database, Deployment>, db: Database, wanted: Wanted, sight: Sight) {
    sight.readable && OutdatedImage(Lookup(deployments, db), wanted)
  }

  predicate OutdatedImage(deployment: Option<Deployment>, wanted: Wanted) {
    deployment.Some? && Images.NeedsUpgrade(wanted.defaultName, wanted.override, deployment.value.image)
  }

  predicate NoneRunning(pods: seq<Phase>) {
    forall i | 0 <= i < |pods| :: pods[i] != Running
  }

  predicate SeenDown(sight: Sight) {
    sight.pods.Ok? && NoneRunning(sight.pods.value)
  }

  function ScaledDown(d: Deployment): Deployment {
    d.(replicas := 0, gracePeriod := 600)
  }

  /** The image a deployment is compared with; a bad override leaves none. */
  method ExpectedImageName(wanted: Wanted) returns (name: string)
    ensures name == Images.ExpectedName(wanted.defaultName, wanted.override)
  {
    var expected := Images.ComponentImageFor(wanted.defaultName, wanted.override);
    if expected.Err? {
      return "";
    }
    name := expected.value.newName;
    if name == "" {
      name := expected.value.name;
    }
  }

  method CheckNeedsPostgresUpgrade(db: Database, wanted: Wanted, sight: Sight, ctx: Context, cluster: Cluster)
    returns (err: Option<string>, scaledDown: bool)
    modifies ctx, cluster
    ensures ctx.Needs(db) == (old(ctx.Needs(db)) || Outdated(old(cluster.deployments), db, wanted, sight))
    ensures forall d | d != db :: ctx.Needs(d) == old(ctx.Needs(d))
    ensures forall d | d != db :: Lookup(cluster.deployments, d) == Lookup(old(cluster.deployments), d)
    ensures cluster.deployments
         == if Outdated(old(cluster.deployments), db, wanted, sight) && sight.updateLands
            then old(cluster.deployments)[db := ScaledDown(old(cluster.deployments)[db])] else old(cluster.deployments)
    ensures Outdated(old(cluster.deployments), db, wanted, sight) && sight.updateLands ==>
              && db in cluster.deployments && cluster.deployments[db].replicas == 0 && cluster.deployments[db].gracePeriod == 600
              && cluster.deployments[db].image == old(cluster.deployments)[db].image
    ensures !sight.readable || db !in old(cluster.deployments) ==>
              err.None? && scaledDown && ctx.Needs(db) == old(ctx.Needs(db)) && cluster.deployments == old(cluster.deployments)
    ensures (sight.readable && db in old(cluster.deployments)
             && Images.NeedsUpgrade(wanted.defaultName, wanted.override, old(cluster.deployments)[db].image)) ==> ctx.Needs(db)
    ensures err.None? && scaledDown <==> !Outdated(old(cluster.deployments), db, wanted, sight) || SeenDown(sight)
    ensures err.Some? <==> Outdated(old(cluster.deployments), db, wanted, sight) && sight.pods.Err?
  {
    if !sight.readable || db !in cluster.deployments {
      return None, true;
    }
    var deployment := cluster.deployments[db];
    var expectedName := ExpectedImageName(wanted);
    var currentName := Images.ExtractImageName(deployment.image);
    if Images.RepoName(currentName) == Images.RepoName(expectedName) {
      return None, true;
    }
    match db {
      case QuayDatabase => ctx.needsPgUpgrade := true;
      case ClairDatabase => ctx.needsClairPgUpgrade := true;
    }
    if sight.updateLands {
      cluster.deployments := cluster.deployments[db := deployment.(replicas := 0, gracePeriod := 600)];
    }
    if sight.pods.Err? {
      return Some(sight.pods.error), false;
    }
    for i := 0 to |sight.pods.value|
      invariant NoneRunning(sight.pods.value[..i])
    {
      if sight.pods.value[i] == Running {
        return None, false;
      }
      assert sight.pods.value[..i + 1] == sight.pods.value[..i] + [sight.pods.value[i]];
    }
    assert sight.pods.value[..|sight.pods.value|] == sight.pods.value;
    return None, true;
  }

  datatype Verdict = Proceed | Requeue | Block(error: string)

  predicate Upgrades(
    components: seq<Components.Component>, deployments: map<Database, Deployment>, db: Database, wanted: Wanted, sight: Sight
  ) {
    Components.Managed(components, ComponentOf(db)) && Outdated(deployments, db, wanted, sight)
  }

  /** The database is to be upgraded, but its pods still run or could not be listed. */
  predicate HoldsUp(
    components: seq<Components.Component>, deployments: map<Database, Deployment>, db: Database, wanted: Wanted, sight: Sight
  ) {
    Upgrades(components, deployments, db, wanted, sight) && !SeenDown(sight)
  }

  /** Reconcile's look at one database. */
  method CheckDatabase(
    components: seq<Components.Component>, db: Database, wanted: Wanted, sight: Sight, ctx: Context, cluster: Cluster
  ) returns (verdict: Verdict)
    modifies ctx, cluster
    ensures ctx.Needs(db) == (old(ctx.Needs(db)) || Upgrades(components, old(cluster.deployments), db, wanted, sight))
    ensures forall d | d != db :: ctx.Needs(d) == old(ctx.Needs(d))
    ensures forall d | d != db :: Lookup(cluster.deployments, d) == Lookup(old(cluster.deployments), d)
    ensures verdict == Proceed <==> !HoldsUp(components, old(cluster.deployments), db, wanted, sight)
  {
    var check := Components.ComponentIsManaged(components, ComponentOf(db));
    if !check {
      return Proceed;
    }
    var err, scaledDown := CheckNeedsPostgresUpgrade(db, wanted, sight, ctx, cluster);
    if err.Some? {
      return Block(err.value);
    }
    return if scaledDown then Proceed else Requeue;
  }

  /** One reconcile's look at both databases, as far as it gets. */
  method CheckUpgrades(
    components: seq<Components.Component>, wanted: PerDatabase<Wanted>, sights: PerDatabase<Sight>,
    ctx: Context, cluster: Cluster
  ) returns (verdict: Verdict)
    requires !ctx.needsPgUpgrade && !ctx.needsClairPgUpgrade
    modifies ctx, cluster
    ensures verdict == Proceed ==>
              && ctx.needsPgUpgrade == Upgrades(components, old(cluster.deployments), QuayDatabase, wanted.quay, sights.quay)
              && ctx.needsClairPgUpgrade == Upgrades(components, old(cluster.deployments), ClairDatabase, wanted.clair, sights.clair)
    ensures verdict == Proceed <==>
              && !HoldsUp(components, old(cluster.deployments), QuayDatabase, wanted.quay, sights.quay)
              && !HoldsUp(components, old(cluster.deployments), ClairDatabase, wanted.clair, sights.clair)
  {
    ghost var before := cluster.deployments;
    verdict := CheckDatabase(components, QuayDatabase, wanted.quay, sights.quay, ctx, cluster);
    if verdict != Proceed {
      return;
    }
    assert Upgrades(components, cluster.deployments, ClairDatabase, wanted.clair, sights.clair)
        == Upgrades(components, before, ClairDatabase, wanted.clair, sights.clair)
      by { assert Lookup(cluster.deployments, ClairDatabase) == Lookup(before, ClairDatabase); }
    assert ctx.Needs(QuayDatabase) == ctx.needsPgUpgrade && ctx.Needs(ClairDatabase) == ctx.needsClairPgUpgrade;
    verdict := CheckDatabase(components, ClairDatabase, wanted.clair, sights.clair, ctx, cluster);
  }

  // ---- What is rendered for it ----

  datatype UpgradeComponent = PgUpgrade | ClairPgUpgradeScalingClairDown | ClairPgUpgrade

  predicate IsUpgradeOf(c: UpgradeComponent, db: Database) {
    match db
    case QuayDatabase => c == PgUpgrade
    case ClairDatabase => c != PgUpgrade
  }

  predicate Renders(paths: seq<UpgradeComponent>, db: Database) {
    exists i | 0 <= i < |paths| :: IsUpgradeOf(paths[i], db)
  }

  /** The end of KustomizationFor. */
  method UpgradeComponents(components: seq<Components.Component>, ctx: Context) returns (paths: seq<UpgradeComponent>)
    ensures forall db :: Renders(paths, db) <==> ctx.Needs(db)
    ensures ClairPgUpgradeScalingClairDown in paths <==> ctx.needsClairPgUpgrade && Components.Managed(components, Clair)
    ensures PgUpgrade in paths <==> ctx.needsPgUpgrade
    ensures ClairPgUpgrade in paths || ClairPgUpgradeScalingClairDown in paths <==> ctx.needsClairPgUpgrade
    ensures |paths| <= 2
  {
    paths := [];
    if ctx.needsPgUpgrade {
      paths := paths + [PgUpgrade];
      assert IsUpgradeOf(paths[0], QuayDatabase);
    }
    ghost var before := paths;
    if ctx.needsClairPgUpgrade {
      var clairManaged := Components.ComponentIsManaged(components, Clair);
      paths := paths + [if clairManaged then ClairPgUpgradeScalingClairDown else ClairPgUpgrade];
      assert IsUpgradeOf(paths[|before|], ClairDatabase);
      assert forall i | 0 <= i < |before| :: paths[i] == before[i];
    }
  }

  /**
   A reconcile from its checks to its rendering. Unless something holds it up, it renders the
   upgrades of exactly those databases that are managed and outdated; and the listing it made
   of their pods had none running.
   */
  method RenderUpgrades(
    components: seq<Components.Component>, wanted: PerDatabase<Wanted>, sights: PerDatabase<Sight>, cluster: Cluster
  ) returns (paths: Option<seq<UpgradeComponent>>)
    modifies cluster
    ensures paths.Some? ==>
              && Renders(paths.value, QuayDatabase) == Upgrades(components, old(cluster.deployments), QuayDatabase, wanted.quay, sights.quay)
              && Renders(paths.value, ClairDatabase) == Upgrades(components, old(cluster.deployments), ClairDatabase, wanted.clair, sights.clair)
    ensures paths.Some? ==>
              && (PgUpgrade in paths.value <==> IsDue(components, old(cluster.deployments), QuayDatabase, wanted.quay, sights.quay))
              && (ClairPgUpgrade in paths.value || ClairPgUpgradeScalingClairDown in paths.value <==>
                    IsDue(components, old(cluster.deployments), ClairDatabase, wanted.clair, sights.clair))
    ensures paths.None? <==>
              || (IsDue(components, old(cluster.deployments), QuayDatabase, wanted.quay, sights.quay) && !AllDown(sights.quay))
              || (IsDue(components, old(cluster.deployments), ClairDatabase, wanted.clair, sights.clair) && !AllDown(sights.clair))
    ensures paths.Some? && PgUpgrade in paths.value ==>
              sights.quay.pods.Ok? && forall pod | pod in sights.quay.pods.value :: pod != Running
    ensures paths.Some? && (ClairPgUpgrade in paths.value || ClairPgUpgradeScalingClairDown in paths.value) ==>
              sights.clair.pods.Ok? && forall pod | pod in sights.clair.pods.value :: pod != Running
    ensures paths.None? <==>
              || HoldsUp(components, old(cluster.deployments), QuayDatabase, wanted.quay, sights.quay)
              || HoldsUp(components, old(cluster.deployments), ClairDatabase, wanted.clair, sights.clair)
  {
    DueMeans(components, cluster.deployments, QuayDatabase, wanted.quay, sights.quay);
    DueMeans(components, cluster.deployments, ClairDatabase, wanted.clair, sights.clair);
    var ctx := new Context();
    var verdict := CheckUpgrades(components, wanted, sights, ctx, cluster);
    if verdict != Proceed {
      return None;
    }
    assert ctx.Needs(QuayDatabase) == ctx.needsPgUpgrade && ctx.Needs(ClairDatabase) == ctx.needsClairPgUpgrade;
    var rendered := UpgradeComponents(components, ctx);
    return Some(rendered);
  }

  /**
   The database is managed, deployed and can be read, and what it runs is another repository than
   what it should run.
   */
  predicate IsDue(
    components: seq<Components.Component>, deployments: map<Database, Deployment>, db: Database, wanted: Wanted, sight: Sight
  ) {
    var kind := if db == QuayDatabase then Postgres else ClairPostgres;
    && Components.Managed(components, kind) && sight.readable && db in deployments
    && Images.NeedsUpgrade(wanted.defaultName, wanted.override, deployments[db].image)
  }

  lemma DueMeans(
    components: seq<Components.Component>, deployments: map<Database, Deployment>, db: Database, wanted: Wanted, sight: Sight
  )
    ensures Upgrades(components, deployments, db, wanted, sight) <==> IsDue(components, deployments, db, wanted, sight)
    ensures HoldsUp(components, deployments, db, wanted, sight) <==>
            IsDue(components, deployments, db, wanted, sight) && !AllDown(sight)
    ensures SeenDown(sight) <==> AllDown(sight)
  {
    DownMeans(sight);
    if db in deployments {
      SameQuestion(deployments, db, wanted);
    }
  }

  lemma SameQuestion(deployments: map<Database, Deployment>, db: Database, wanted: Wanted)
    requires db in deployments
    ensures OutdatedImage(Lookup(deployments, db), wanted)
       <==> Images.NeedsUpgrade(wanted.defaultName, wanted.override, deployments[db].image)
  {
    assert Lookup(deployments, db) == Some(deployments[db]);
  }

  lemma DownMeans(sight: Sight)
    ensures SeenDown(sight) <==> AllDown(sight)
  {
    if sight.pods.Ok? {
      var pods := sight.pods.value;
      if SeenDown(sight) {
        forall pod | pod in pods ensures pod != Running {
          var i :| 0 <= i < |pods| && pods[i] == pod;
        }
      }
      if AllDown(sight) {
        forall i | 0 <= i < |pods| ensures pods[i] != Running {
          assert pods[i] in pods;
        }
      }
    }
  }

  predicate AllDown(sight: Sight) {
    sight.pods.Ok? && forall pod | pod in sight.pods.value :: pod != Running
  }
}
