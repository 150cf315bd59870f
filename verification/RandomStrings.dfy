/**
 Random keys (generateRandomString, pkg/kustomize/secrets.go) and the database URI one of them
 goes into: what Inflate writes there is what componentConfigFilesFor reads back out.
 */
module RandomStrings {
  import opened Wrappers

  newtype byte = x: int | 0 <= x < 256

  const LetterCount: byte := 63

  /** The digits, the capitals, the small letters and a dash, in this order. */
  function Letter(i: byte): (c: byte)
    requires i < LetterCount
    ensures IsKeyChar(c as char)
  {
    if i < 10 then '0' as byte + i
    else if i < 36 then 'A' as byte + (i - 10)
    else if i < 62 then 'a' as byte + (i - 36)
    else '-' as byte
  }

  predicate IsKeyChar(c: char) {
    '0' <= c <= '9' || 'A' <= c <= 'Z' || 'a' <= c <= 'z' || c == '-'
  }

  ghost predicate IsKey(s: string) {
    forall i | 0 <= i < |s| :: IsKeyChar(s[i])
  }

  function AsString(bytes: seq<byte>): (s: string)
    ensures |s| == |bytes| && forall i | 0 <= i < |s| :: s[i] == bytes[i] as char
  {
    seq(|bytes|, i requires 0 <= i < |bytes| => bytes[i] as char)
  }

  /** `bytes` is what the random source delivered; it is overwritten letter by letter. */
  method GenerateRandomString(bytes: array<byte>) returns (key: string)
    modifies bytes
    ensures |key| == bytes.Length && IsKey(key)
    ensures forall i | 0 <= i < |key| :: key[i] == Letter(old(bytes[i]) % LetterCount) as char
  {
    for i := 0 to bytes.Length
      invariant forall k | 0 <= k < i :: bytes[k] == Letter(old(bytes[k]) % LetterCount)
      invariant forall k | i <= k < bytes.Length :: bytes[k] == old(bytes[k])
    {
      bytes[i] := Letter(bytes[i] % LetterCount);
    }
    return AsString(bytes[..]);
  }

  /** Every letter can come up: a key is limited in nothing but its alphabet and its length. */
  lemma EveryKeyCanBeDrawn(key: string) returns (bytes: seq<byte>)
    requires IsKey(key)
    ensures |bytes| == |key| && forall i | 0 <= i < |key| :: key[i] == Letter(bytes[i] % LetterCount) as char
  {
    bytes := seq(|key|, i requires 0 <= i < |key| => Place(key[i]));
  }

  function Place(c: char): (i: byte)
    requires IsKeyChar(c)
    ensures i < LetterCount && Letter(i) as char == c
  {
    if '0' <= c <= '9' then c as byte - '0' as byte
    else if 'A' <= c <= 'Z' then c as byte - 'A' as byte + 10
    else if 'a' <= c <= 'z' then c as byte - 'a' as byte + 36
    else 62
  }

  // ---- The URI of the managed database ----

  const Scheme: string := "postgresql"

  function Info(user: string, password: string): string {
    user + [':'] + password
  }

  function Server(host: string, port: string): string {
    host + [':'] + port
  }

  function Uri(user: string, password: string, host: string, port: string, name: string): (uri: string)
    ensures uri != ""
  {
    Scheme + [':'] + (['/', '/'] + (Info(user, password) + ['@'] + Server(host, port) + ['/'] + name))
  }

  lemma UriText(user: string, password: string, host: string, port: string, name: string)
    ensures Uri(user, password, host, port, name)
         == "postgresql://" + user + ":" + password + "@" + host + ":" + port + "/" + name
  {
    assert "postgresql://" == Scheme + [':'] + ['/', '/'];
    var rest := Info(user, password) + ['@'] + Server(host, port) + ['/'] + name;
    assert rest == user + [':'] + password + ['@'] + host + [':'] + port + ['/'] + name;
    assert Uri(user, password, host, port, name) == Scheme + [':'] + ['/', '/'] + rest;
  }

  datatype Credentials = Credentials(user: string, password: string, name: string)

  /** Position of the first `c` at or after `from`, or the length. */
  function IndexFrom(s: string, c: char, from: nat): (i: nat)
    requires from <= |s|
    ensures from <= i <= |s| && (i < |s| ==> s[i] == c)
    ensures forall j | from <= j < i :: s[j] != c
    decreases |s| - from
  {
    if from == |s| || s[from] == c then from else IndexFrom(s, c, from + 1)
  }

  /** Position of the last `c` before `to`, if there is one. */
  function LastBefore(s: string, c: char, to: nat): (i: Option<nat>)
    requires to <= |s|
    ensures i.Some? ==> i.value < to && s[i.value] == c && forall j | i.value < j < to :: s[j] != c
    ensures i.None? ==> forall j | 0 <= j < to :: s[j] != c
  {
    if to == 0 then None
    else if s[to - 1] == c then Some(to - 1)
    else LastBefore(s, c, to - 1)
  }

  /**
   What net/url makes of a URI without escapes, query or fragment: the authority ends at the
   first slash, the user information at the last `@` in it, the user at the first colon.
   */
  function Parse(uri: string): Option<Credentials> {
    var scheme := IndexFrom(uri, ':', 0);
    if scheme + 3 > |uri| || uri[scheme + 1] != '/' || uri[scheme + 2] != '/' then None
    else ParseAuthority(uri[scheme + 3..])
  }

  function ParseAuthority(rest: string): Option<Credentials> {
    var slash := IndexFrom(rest, '/', 0);
    var at := LastBefore(rest, '@', slash);
    if at.None? || slash == |rest| then None
    else Some(ParseUser(rest[..at.value], rest[slash + 1..]))
  }

  function ParseUser(info: string, name: string): Credentials {
    var colon := IndexFrom(info, ':', 0);
    Credentials(info[..colon], if colon < |info| then info[colon + 1..] else "", name)
  }

  predicate Free(s: string, c: char) {
    forall i | 0 <= i < |s| :: s[i] != c
  }

  lemma FirstAt(before: string, c: char, after: string)
    requires Free(before, c)
    ensures IndexFrom(before + [c] + after, c, 0) == |before|
    ensures (before + [c] + after)[..|before|] == before && (before + [c] + after)[|before| + 1..] == after
  {
    var s := before + [c] + after;
    assert s[|before|] == c && forall j | 0 <= j < |before| :: s[j] == before[j];
  }

  lemma LastAt(before: string, c: char, middle: string, after: string)
    requires Free(middle, c)
    ensures LastBefore(before + [c] + middle + after, c, |before| + 1 + |middle|) == Some(|before|)
    ensures (before + [c] + middle + after)[..|before|] == before
  {
    var s := before + [c] + middle + after;
    assert s[|before|] == c && forall j | |before| < j < |before| + 1 + |middle| :: s[j] == middle[j - |before| - 1];
  }

  lemma AuthorityRoundTrip(info: string, server: string, name: string)
    requires Free(info, '/') && Free(server, '/') && Free(server, '@')
    ensures ParseAuthority(info + ['@'] + server + ['/'] + name) == Some(ParseUser(info, name))
  {
    var authority := info + ['@'] + server;
    var rest := authority + ['/'] + name;
    FirstAt(authority, '/', name);
    assert |authority| == |info| + 1 + |server|;
    assert LastBefore(rest, '@', |authority|) == Some(|info|) && rest[..|info|] == info by {
      var tail := ['/'] + name;
      LastAt(info, '@', server, tail);
      assert rest == info + ['@'] + server + tail;
    }
  }

  lemma SchemeRoundTrip(rest: string)
    ensures Parse(Scheme + [':'] + (['/', '/'] + rest)) == ParseAuthority(rest)
  {
    var after := ['/', '/'] + rest;
    var uri := Scheme + [':'] + after;
    assert Free(Scheme, ':');
    FirstAt(Scheme, ':', after);
    assert uri[|Scheme| + 1] == after[0] && uri[|Scheme| + 2] == after[1];
    assert uri[|Scheme| + 3..] == uri[|Scheme| + 1..][2..] == after[2..] == rest;
  }

  lemma UserRoundTrip(user: string, password: string, name: string)
    requires Free(user, ':')
    ensures ParseUser(Info(user, password), name) == Credentials(user, password, name)
  {
    FirstAt(user, ':', password);
  }

  lemma PartsFree(user: string, password: string, host: string, port: string)
    requires Free(user, '/') && IsKey(password)
    requires Free(host, '/') && Free(host, '@') && Free(port, '/') && Free(port, '@')
    ensures Free(Info(user, password), '/') && Free(Server(host, port), '/') && Free(Server(host, port), '@')
  {
  }

  /**
   The credentials the database is created with are the ones Quay connects with, for any
   password the generator can produce.
   */
  lemma UriRoundTrip(user: string, password: string, host: string, port: string, name: string)
    requires Free(user, ':') && Free(user, '/') && IsKey(password)
    requires Free(host, '/') && Free(host, '@') && Free(port, '/') && Free(port, '@')
    ensures Parse(Uri(user, password, host, port, name)) == Some(Credentials(user, password, name))
  {
    PartsFree(user, password, host, port);
    SchemeRoundTrip(Info(user, password) + ['@'] + Server(host, port) + ['/'] + name);
    AuthorityRoundTrip(Info(user, password), Server(host, port), name);
    UserRoundTrip(user, password, name);
  }
}
