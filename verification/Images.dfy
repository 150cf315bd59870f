/**
 Image overrides: splitting a reference into its parts (pkg/kustomize/kustomize.go), and
 deciding from an image's name whether a database needs an upgrade (controllers/quay/features.go).
 */
module Images {
  import opened Wrappers

  // ---- Splitting ----

  function Count(s: string, sep: char): nat {
    if s == "" then 0 else (if s[0] == sep then 1 else 0) + Count(s[1..], sep)
  }

  /** The position of the first `sep`, or the length. */
  function First(s: string, sep: char): (i: nat)
    ensures i <= |s| && (i < |s| ==> s[i] == sep)
    ensures forall j | 0 <= j < i :: s[j] != sep
  {
    if s == "" || s[0] == sep then 0 else 1 + First(s[1..], sep)
  }

  /** strings.Split for a separator of one character. */
  function Split(s: string, sep: char): (parts: seq<string>)
    ensures |parts| >= 1
  {
    if s == "" then [""]
    else
      var rest := Split(s[1..], sep);
      if s[0] == sep then [""] + rest else [[s[0]] + rest[0]] + rest[1..]
  }

  /** The position of the last `sep`, or -1. */
  function LastIndex(s: string, sep: char): (i: int)
    ensures -1 <= i < |s| && (i >= 0 ==> s[i] == sep)
    ensures forall j | i < j < |s| :: s[j] != sep
  {
    if s == "" then -1
    else if s[|s| - 1] == sep then |s| - 1
    else LastIndex(s[..|s| - 1], sep)
  }

  lemma {:induction false} SplitCounts(s: string, sep: char)
    ensures |Split(s, sep)| == Count(s, sep) + 1
    ensures Count(s, sep) == 0 <==> First(s, sep) == |s|
  {
    if s != "" {
      SplitCounts(s[1..], sep);
    }
  }

  lemma {:induction false} SplitHead(s: string, sep: char)
    ensures Split(s, sep)[0] == s[..First(s, sep)]
  {
    if s != "" && s[0] != sep {
      SplitHead(s[1..], sep);
      assert [s[0]] + s[1..][..First(s[1..], sep)] == s[..First(s, sep)];
    }
  }

  lemma {:induction false} SplitJoin(s: string, sep: char)
    requires Count(s, sep) == 1
    ensures |Split(s, sep)| == 2 && s == Split(s, sep)[0] + [sep] + Split(s, sep)[1]
  {
    SplitCounts(s, sep);
    SplitCounts(s[1..], sep);
    assert s == [s[0]] + s[1..];
    if s[0] == sep {
      SplitHead(s[1..], sep);
    } else {
      SplitJoin(s[1..], sep);
      var rest := Split(s[1..], sep);
      assert [s[0]] + (rest[0] + [sep] + rest[1]) == ([s[0]] + rest[0]) + [sep] + rest[1];
    }
  }

  /** What a split is good for: how many parts, the first one, and both of two. */
  lemma SplitParts(s: string, sep: char)
    ensures |Split(s, sep)| == Count(s, sep) + 1
    ensures Split(s, sep)[0] == s[..First(s, sep)]
    ensures Count(s, sep) == 0 <==> First(s, sep) == |s|
    ensures Count(s, sep) == 1 ==> s == Split(s, sep)[0] + [sep] + Split(s, sep)[1]
  {
    SplitCounts(s, sep);
    SplitHead(s, sep);
    if Count(s, sep) == 1 {
      SplitJoin(s, sep);
    }
  }

  lemma FirstOfSome(s: string, sep: char)
    requires Count(s, sep) >= 1
    ensures First(s, sep) < |s|
  {
    SplitParts(s, sep);
  }

  // ---- Overrides ----

  /** A Kustomize image override; empty fields are unset. */
  datatype Image = Image(name: string, newName: string, newTag: string, digest: string)

  /** `image` is the value of the component's environment variable, empty if it is unset. */
  method ComponentImageFor(defaultName: string, image: string) returns (r: Result<Image, string>)
    ensures r == ImageFor(defaultName, image)
  {
    var imageOverride := Image(defaultName, "", "", "");
    if image == "" {
      return Ok(imageOverride);
    }
    SplitParts(image, '@');
    SplitParts(image, ':');
    var byDigest, byTag := Split(image, '@'), Split(image, ':');
    if |byDigest| == 2 {
      imageOverride := imageOverride.(newName := byDigest[0], digest := byDigest[1]);
    } else if |byTag| == 2 {
      imageOverride := imageOverride.(newName := byTag[0], newTag := byTag[1]);
    } else {
      return Err(image);
    }
    return Ok(imageOverride);
  }

  /** One `@` cuts off a digest; failing that, one `:` cuts off a tag. */
  function ImageFor(defaultName: string, image: string): Result<Image, string> {
    if image == "" then Ok(Image(defaultName, "", "", ""))
    else if Count(image, '@') == 1 then
      FirstOfSome(image, '@');
      Ok(Image(defaultName, image[..First(image, '@')], "", image[First(image, '@') + 1..]))
    else if Count(image, ':') == 1 then
      FirstOfSome(image, ':');
      Ok(Image(defaultName, image[..First(image, ':')], image[First(image, ':') + 1..], ""))
    else Err(image)
  }

  /** What Kustomize pulls for an override with a new name and a tag or digest. */
  function Rejoined(image: Image): string {
    if image.digest != "" then image.newName + "@" + image.digest
    else if image.newTag != "" then image.newName + ":" + image.newTag
    else image.newName
  }

  /** Nothing is lost in taking a reference apart, if there is something after its separator. */
  lemma RejoiningGivesTheReferenceBack(defaultName: string, image: string)
    requires image != "" && ImageFor(defaultName, image).Ok?
    ensures var parts := ImageFor(defaultName, image).value;
            Rejoined(parts) == image <==> parts.digest != "" || parts.newTag != ""
  {
    if Count(image, '@') == 1 {
      FirstOfSome(image, '@');
    } else {
      FirstOfSome(image, ':');
    }
  }

  // ---- Which database needs an upgrade ----

  function ExtractImageName(imageName: string): string {
    if |Split(imageName, '@')| > 1 then Split(imageName, '@')[0]
    else if |Split(imageName, ':')| > 1 then Split(imageName, ':')[0]
    else imageName
  }

  /** What follows the last slash. */
  function RepoName(name: string): string {
    name[LastIndex(name, '/') + 1..]
  }

  /** An override that is rejected counts as the empty image. */
  function ExpectedName(defaultName: string, image: string): string {
    match ImageFor(defaultName, image)
    case Err(_) => ""
    case Ok(parts) => if parts.newName == "" then parts.name else parts.newName
  }

  predicate NeedsUpgrade(defaultName: string, image: string, deployed: string) {
    RepoName(ExtractImageName(deployed)) != RepoName(ExpectedName(defaultName, image))
  }

  /**
   A deployment that runs the override itself is not marked for an upgrade, given that the
   override names a repository and has no second `@`.
   */
  lemma RunningTheOverrideNeedsNoUpgrade(defaultName: string, image: string)
    requires image != "" && ImageFor(defaultName, image).Ok?
    requires Count(image, '@') <= 1 && ImageFor(defaultName, image).value.newName != ""
    ensures ExtractImageName(image) == ImageFor(defaultName, image).value.newName
    ensures !NeedsUpgrade(defaultName, image, image)
  {
    SplitParts(image, '@');
    SplitParts(image, ':');
  }

  lemma {:induction false} ConcatLastIndex(s: string, t: string, sep: char)
    requires forall k | 0 <= k < |t| :: t[k] != sep
    ensures LastIndex(s + t, sep) == LastIndex(s, sep)
  {
    if t == "" {
      assert s + t == s;
    } else {
      assert (s + t)[..|s + t| - 1] == s + t[..|t| - 1];
      assert t[|t| - 1] != sep;
      ConcatLastIndex(s, t[..|t| - 1], sep);
    }
  }

  /** Nothing after the first `@` or `:` looks like part of a path. */
  predicate PlainSuffix(image: string) {
    forall k | 0 <= k < |image| && (First(image, '@') <= k || First(image, ':') <= k) :: image[k] != '/'
  }

  /** The default repository is a plain name. */
  predicate PlainDefault(name: string) {
    name != "" && name[|name| - 1] != '/' && First(name, ':') == |name| && First(name, '@') == |name|
  }

  /** Names cut from one reference at different places end in different repositories. */
  lemma CutsDiffer(image: string, i: nat, j: nat)
    requires i < j <= |image| && forall k | i <= k < j :: image[k] != '/'
    ensures RepoName(image[..i]) != RepoName(image[..j])
  {
    assert image[..j] == image[..i] + image[i..j];
    ConcatLastIndex(image[..i], image[i..j], '/');
  }

  /**
   The two conditions are exact, two `@` or nothing before the separator, for every reference
   with at most one `@`, a registry's port included, and for plain ones with more.
   */
  lemma RunningTheOverrideNeedsUpgradeIff(defaultName: string, image: string)
    requires image != "" && ImageFor(defaultName, image).Ok? && PlainDefault(defaultName)
    requires Count(image, '@') >= 2 ==> PlainSuffix(image)
    ensures NeedsUpgrade(defaultName, image, image) <==>
            Count(image, '@') >= 2 || ImageFor(defaultName, image).value.newName == ""
  {
    var at, colon := First(image, '@'), First(image, ':');
    SplitParts(image, '@');
    SplitParts(image, ':');
    if ImageFor(defaultName, image).value.newName == "" {
      assert ExpectedName(defaultName, image) == defaultName;
      EmptyNameNeedsUpgrade(defaultName, image);
    } else if Count(image, '@') <= 1 {
      RunningTheOverrideNeedsNoUpgrade(defaultName, image);
    } else {
      CutsAtSeparatorsDiffer(image);
      assert ExtractImageName(image) == image[..at] && ExpectedName(defaultName, image) == image[..colon];
    }
  }

  lemma CutsAtSeparatorsDiffer(image: string)
    requires PlainSuffix(image) && Count(image, '@') >= 1 && Count(image, ':') >= 1
    ensures RepoName(image[..First(image, '@')]) != RepoName(image[..First(image, ':')])
  {
    var at, colon := First(image, '@'), First(image, ':');
    FirstOfSome(image, '@');
    FirstOfSome(image, ':');
    if at < colon {
      CutsDiffer(image, at, colon);
    } else {
      CutsDiffer(image, colon, at);
    }
  }

  lemma EmptyNameNeedsUpgrade(defaultName: string, image: string)
    requires image != "" && ImageFor(defaultName, image).Ok? && PlainDefault(defaultName)
    requires Count(image, '@') >= 2 ==> PlainSuffix(image)
    requires ImageFor(defaultName, image).value.newName == ""
    ensures RepoName(ExtractImageName(image)) != RepoName(defaultName)
  {
    SplitParts(image, '@');
    SplitParts(image, ':');
    PlainRepo(defaultName);
    if Count(image, '@') >= 2 {
      ColonFirst(image);
    }
  }

  lemma PlainRepo(name: string)
    requires PlainDefault(name)
    ensures RepoName(name) != "" && forall k | 0 <= k < |RepoName(name)| :: RepoName(name)[k] != ':'
  {
  }

  /** Of a reference that starts with a colon, what precedes the first `@` does too. */
  lemma ColonFirst(image: string)
    requires image != "" && image[0] == ':' && Count(image, '@') >= 2 && PlainSuffix(image)
    ensures RepoName(ExtractImageName(image)) != "" && RepoName(ExtractImageName(image))[0] == ':'
  {
    SplitParts(image, '@');
    var name := ExtractImageName(image);
    assert name == image[..First(image, '@')] && First(image, ':') == 0 && name[0] == ':';
    assert forall k | 0 <= k < |name| :: name[k] == image[k] != '/';
    assert LastIndex(name, '/') == -1;
  }

  lemma CountCons(c: char, rest: string, sep: char)
    ensures Count([c] + rest, sep) == (if c == sep then 1 else 0) + Count(rest, sep)
  {
    assert ([c] + rest)[1..] == rest;
  }

  lemma CountOfTwoAtSigns(sep: char)
    ensures Count(TwoAtSigns, sep) == (if sep == 'a' then 1 else 0) + (if sep == '@' then 2 else 0) + (if sep == ':' then 1 else 0)
  {
    assert TwoAtSigns == ['a'] + (['@'] + (['@'] + ([':'] + "")));
    CountCons(':', "", sep);
    CountCons('@', [':'] + "", sep);
    CountCons('@', ['@'] + ([':'] + ""), sep);
    CountCons('a', ['@'] + (['@'] + ([':'] + "")), sep);
  }

  const TwoAtSigns: string := ['a', '@', '@', ':']

  /** Two `@` are accepted if there is one colon, and then the deployment never matches itself. */
  lemma TwoAtSignsNeverMatch(defaultName: string)
    requires PlainDefault(defaultName)
    ensures ImageFor(defaultName, TwoAtSigns).Ok? && NeedsUpgrade(defaultName, TwoAtSigns, TwoAtSigns)
  {
    CountOfTwoAtSigns('@');
    CountOfTwoAtSigns(':');
    assert PlainSuffix(TwoAtSigns);
    RunningTheOverrideNeedsUpgradeIff(defaultName, TwoAtSigns);
  }

  const SlashedSuffix: string := ['q', ':', '/', 'q', '@', '@']

  lemma CountOfSlashedSuffix(sep: char)
    requires sep == '@' || sep == ':'
    ensures Count(SlashedSuffix, sep) == if sep == '@' then 2 else 1
  {
    assert SlashedSuffix == ['q'] + ([':'] + (['/'] + (['q'] + (['@'] + (['@'] + "")))));
    CountCons('@', "", sep);
    CountCons('@', ['@'] + "", sep);
    CountCons('q', ['@'] + (['@'] + ""), sep);
    CountCons('/', ['q'] + (['@'] + (['@'] + "")), sep);
    CountCons(':', ['/'] + (['q'] + (['@'] + (['@'] + ""))), sep);
    CountCons('q', [':'] + (['/'] + (['q'] + (['@'] + (['@'] + "")))), sep);
  }

  lemma FirstOfSlashedSuffix()
    ensures First(SlashedSuffix, ':') == 1 && First(SlashedSuffix, '@') == 4
  {
    CountOfSlashedSuffix(':');
    CountOfSlashedSuffix('@');
    FirstOfSome(SlashedSuffix, ':');
    FirstOfSome(SlashedSuffix, '@');
  }

  /** With several `@` and one colon, the cut at the `@` is compared with the cut at the colon. */
  lemma BothCuts(defaultName: string, image: string)
    requires image != "" && Count(image, '@') >= 2 && Count(image, ':') == 1 && First(image, ':') > 0
    ensures ImageFor(defaultName, image).Ok?
    ensures NeedsUpgrade(defaultName, image, image)
        <==> RepoName(image[..First(image, '@')]) != RepoName(image[..First(image, ':')])
  {
    SplitParts(image, '@');
  }

  /** What follows a last slash at `i`. */
  lemma RepoAfter(name: string, i: int)
    requires -1 <= i < |name| && (i >= 0 ==> name[i] == '/') && forall k | i < k < |name| :: name[k] != '/'
    ensures RepoName(name) == name[i + 1..]
  {
    assert i <= LastIndex(name, '/');
  }

  /** A slash behind the separator can make both cuts end in one repository, in spite of two `@`. */
  lemma SlashedSuffixMatches(defaultName: string)
    ensures ImageFor(defaultName, SlashedSuffix).Ok? && Count(SlashedSuffix, '@') == 2
    ensures !NeedsUpgrade(defaultName, SlashedSuffix, SlashedSuffix)
  {
    CountOfSlashedSuffix('@');
    CountOfSlashedSuffix(':');
    FirstOfSlashedSuffix();
    BothCuts(defaultName, SlashedSuffix);
    RepoAfter(SlashedSuffix[..4], 2);
    RepoAfter(SlashedSuffix[..1], -1);
  }

  /** A reference to an image: where it is, its repository, and what follows that. */
  function Reference(path: string, repo: string, sep: char, suffix: string): string {
    path + "/" + repo + [sep] + suffix
  }

  predicate PlainPart(s: string) {
    forall i | 0 <= i < |s| :: s[i] != ':' && s[i] != '@'
  }

  predicate PlainName(s: string) {
    PlainPart(s) && forall i | 0 <= i < |s| :: s[i] != '/'
  }

  lemma {:induction false} CountAppend(s: string, t: string, sep: char)
    ensures Count(s + t, sep) == Count(s, sep) + Count(t, sep)
  {
    if s == "" {
      assert s + t == t;
    } else {
      CountAppend(s[1..], t, sep);
      assert (s + t)[1..] == s[1..] + t;
    }
  }

  lemma {:induction false} NoneCounted(s: string, sep: char)
    requires forall i | 0 <= i < |s| :: s[i] != sep
    ensures Count(s, sep) == 0
  {
    if s != "" {
      NoneCounted(s[1..], sep);
    }
  }

  lemma {:induction false} FirstIsThere(before: string, sep: char, after: string)
    requires forall i | 0 <= i < |before| :: before[i] != sep
    ensures First(before + [sep] + after, sep) == |before|
  {
    if before != "" {
      FirstIsThere(before[1..], sep, after);
      assert (before + [sep] + after)[1..] == before[1..] + [sep] + after;
    }
  }

  /** The repository of such a reference, by its tag or by its digest. */
  lemma ReferenceParts(path: string, repo: string, sep: char, suffix: string)
    requires PlainPart(path) && PlainName(repo) && (sep == ':' || sep == '@')
    requires forall i | 0 <= i < |suffix| :: suffix[i] != '@' && (sep == ':' ==> suffix[i] != ':')
    ensures var image, name := Reference(path, repo, sep, suffix), path + "/" + repo;
            && Count(image, sep) == 1 && First(image, sep) == |name| && image[..|name|] == name
            && (sep == ':' ==> Count(image, '@') == 0)
  {
    var image, name := Reference(path, repo, sep, suffix), path + "/" + repo;
    assert PlainPart(name);
    assert image == name + [sep] + suffix;
    FirstIsThere(name, sep, suffix);
    CountAppend(name, [sep] + suffix, sep);
    assert name + ([sep] + suffix) == image;
    NoneCounted(name, sep);
    NoneCounted(suffix, sep);
    assert ([sep] + suffix)[1..] == suffix;
    if sep == ':' {
      NoneCounted(image, '@');
    }
  }

  lemma RepoOfPath(path: string, repo: string)
    requires PlainName(repo)
    ensures RepoName(path + "/" + repo) == repo
  {
    var name := path + "/" + repo;
    assert name[|path|] == '/';
    RepoAfter(name, |path|);
  }

  /**
   Of a database deployed from one reference and overridden by another, each with a tag or a digest,
   only the repositories count: not where they are, nor which tag or digest they have.
   */
  lemma OnlyRepositoriesCount(
    defaultName: string, path: string, repo: string, sep: char, suffix: string,
    path2: string, repo2: string, sep2: char, suffix2: string
  )
    requires PlainPart(path) && PlainName(repo) && (sep == ':' || sep == '@')
    requires forall i | 0 <= i < |suffix| :: suffix[i] != '@' && (sep == ':' ==> suffix[i] != ':')
    requires PlainPart(path2) && PlainName(repo2) && (sep2 == ':' || sep2 == '@')
    requires forall i | 0 <= i < |suffix2| :: suffix2[i] != '@' && (sep2 == ':' ==> suffix2[i] != ':')
    ensures NeedsUpgrade(defaultName, Reference(path, repo, sep, suffix), Reference(path2, repo2, sep2, suffix2)) <==> repo != repo2
  {
    var wanted, deployed := Reference(path, repo, sep, suffix), Reference(path2, repo2, sep2, suffix2);
    ReferenceParts(path, repo, sep, suffix);
    ReferenceParts(path2, repo2, sep2, suffix2);
    SplitParts(deployed, '@');
    SplitParts(deployed, ':');
    RepoOfPath(path, repo);
    RepoOfPath(path2, repo2);
    assert ExpectedName(defaultName, wanted) == path + "/" + repo;
    assert ExtractImageName(deployed) == path2 + "/" + repo2;
  }

  /** A rejected override makes every deployment look outdated, if its image has a name at all. */
  lemma RejectedOverrideDemandsUpgrade(defaultName: string, image: string, deployed: string)
    requires ImageFor(defaultName, image).Err?
    ensures NeedsUpgrade(defaultName, image, deployed) <==> RepoName(ExtractImageName(deployed)) != ""
  {
    var repo := RepoName(ExtractImageName(deployed));
    assert LastIndex("", '/') == -1 && RepoName("") == "";
    assert ExpectedName(defaultName, image) == "";
  }
}
