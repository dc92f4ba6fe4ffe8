/** Image references: parsing, normalisation, and printing them back. */
module ImageReference {
  import opened Wrappers
  import opened Text

  datatype Reference = Reference(registry: string, repository: string, tag: string, digest: string)

  datatype ParseError = InvalidReference | InvalidDigest | InvalidTag | InvalidRepository | InvalidRegistry

  // ----- the grammar -----

  predicate IsLower(c: char) { 'a' <= c <= 'z' }
  predicate IsUpper(c: char) { 'A' <= c <= 'Z' }
  predicate IsDigit(c: char) { '0' <= c <= '9' }
  predicate IsNameChar(c: char) { IsLower(c) || IsDigit(c) }
  predicate IsSeparator(c: char) { c == '.' || c == '_' || c == '-' }
  predicate IsWord(c: char) { IsLower(c) || IsUpper(c) || IsDigit(c) || c == '_' }
  predicate IsHex(c: char) { IsDigit(c) || 'a' <= c <= 'f' || 'A' <= c <= 'F' }

  /** ^[a-z0-9]+(?:[._-][a-z0-9]+)*$ and at most 255 long */
  predicate NamePart(s: string) {
    0 < |s| <= 255 && IsNameChar(s[0]) && IsNameChar(s[|s| - 1])
    && (forall i | 0 <= i < |s| :: IsNameChar(s[i]) || IsSeparator(s[i]))
    && (forall i, j | 0 <= i < |s| && 0 <= j < |s| && j == i + 1 :: IsNameChar(s[i]) || IsNameChar(s[j]))
  }

  /** ^[A-Za-z0-9_][A-Za-z0-9_.-]{0,127}$ */
  predicate Tag(s: string) {
    0 < |s| <= 128 && IsWord(s[0]) && forall i | 0 <= i < |s| :: IsWord(s[i]) || s[i] == '.' || s[i] == '-'
  }

  /** ^[A-Za-z][A-Za-z0-9_+.-]*:[A-Fa-f0-9]{32,}$ */
  predicate Digest(s: string) {
    var colon := Index(s, ':');
    0 < colon && (IsLower(s[0]) || IsUpper(s[0]))
    && (forall i | 0 <= i < colon :: IsWord(s[i]) || s[i] == '+' || s[i] == '.' || s[i] == '-')
    && |s| - colon - 1 >= 32 && forall i | colon < i < |s| :: IsHex(s[i])
  }

  const FORBIDDEN := {' ', '\t', '\r', '\n', '?', '#'}

  predicate Clean(s: string) { forall i | 0 <= i < |s| :: s[i] !in FORBIDDEN }

  function LowerAscii(c: char): char { if IsUpper(c) then ((c as int) + 32) as char else c }

  predicate IsAscii(c: char) { c < '\U{80}' }

  /** What the proofs need of Unicode's lower-case table: it extends the ASCII one, lower-casing again
      changes nothing, and no other character becomes a space or an ASCII character but a letter. */
  ghost predicate IsLowering(f: char -> char) {
    && (forall c: char | IsAscii(c) :: f(c) == LowerAscii(c))
    && (forall c: char :: f(f(c)) == f(c))
    && (forall c: char | !IsAscii(c) :: IsLower(f(c)) || !IsAscii(f(c)))
    && (forall c: char | IsSpace(f(c)) :: IsSpace(c))
  }

  type Lowering = f: char -> char | IsLowering(f) witness LowerAscii

  function Lower(lower: Lowering, s: string): string {
    seq(|s|, i requires 0 <= i < |s| => lower(s[i]))
  }

  predicate IsRegistryComponent(s: string) { s == "localhost" || '.' in s || ':' in s }

  const DOCKER := "docker.io"
  predicate IsDockerAlias(host: string) { host == "index.docker.io" || host == "registry-1.docker.io" }

  predicate ValidHost(host: string) { Bytes(host) <= 255 && !('.' == Front(host)) && !('.' == Back(host)) }
  function Front(s: string): char { if s == "" then ' ' else s[0] }
  function Back(s: string): char { if s == "" then ' ' else s[|s| - 1] }

  predicate NameParts(parts: seq<string>) { forall i | 0 <= i < |parts| :: NamePart(parts[i]) }

  // ----- parsing -----

  /** The digest behind the first @, if any, and what precedes it. */
  function CutDigest(v: string): (string, Option<string>) {
    var at := Index(v, '@');
    if at < 0 then (v, None) else (v[..at], Some(v[at + 1..]))
  }

  /** The tag behind the last colon, unless a slash follows it. */
  function CutTag(v: string): (string, Option<string>) {
    var colon := LastIndex(v, ':');
    if colon > LastIndex(v, '/') then (v[..colon], Some(v[colon + 1..])) else (v, None)
  }

  /** Registry host and repository components with all defaults filled in. */
  function Resolve(lower: Lowering, parts: seq<string>): (string, seq<string>)
    requires parts != []
  {
    var named := |parts| > 1 && IsRegistryComponent(parts[0]);
    var host0 := if named then Lower(lower, parts[0]) else DOCKER;
    var rest := if named then parts[1..] else parts;
    var host := if IsDockerAlias(host0) then DOCKER else host0;
    (host, if |rest| == 1 && host == DOCKER then ["library"] + rest else rest)
  }

  function OrEmpty(s: Option<string>): string { if s.Some? then s.value else "" }

  function ParsePath(lower: Lowering, path: string, tag: string, digest: string): Result<Reference, ParseError> {
    var (host, parts) := Resolve(lower, Split(path, '/'));
    if !NameParts(parts) then Err(InvalidRepository)
    else if !ValidHost(host) then Err(InvalidRegistry)
    else Ok(Reference(host, Join(parts, '/'), tag, digest))
  }

  function ParseTagged(lower: Lowering, v: string, digest: string): Result<Reference, ParseError> {
    var (path, tag) := CutTag(v);
    if tag.Some? && !Tag(tag.value) then Err(InvalidTag) else ParsePath(lower, path, OrEmpty(tag), digest)
  }

  predicate Acceptable(v: string) { v != "" && !Contains(v, "://") && Clean(v) }

  function Parse(lower: Lowering, input: string): Result<Reference, ParseError> {
    var v := TrimSpace(input);
    if !Acceptable(v) then Err(InvalidReference)
    else
      var (unhashed, digest) := CutDigest(v);
      if digest.Some? && ('@' in digest.value || !Digest(digest.value)) then Err(InvalidDigest)
      else ParseTagged(lower, unhashed, OrEmpty(digest))
  }

  /** The registry part of the parser: reassigns the parts and the host step by step. */
  method ResolveParts(lower: Lowering, split: seq<string>) returns (host: string, parts: seq<string>)
    requires split != []
    ensures (host, parts) == Resolve(lower, split)
  {
    host, parts := DOCKER, split;
    if |parts| > 1 && IsRegistryComponent(parts[0]) {
      host := Lower(lower, parts[0]);
      parts := parts[1..];
    }
    if IsDockerAlias(host) { host := DOCKER; }
    if |parts| == 1 && host == DOCKER { parts := ["library"] + parts; }
  }

  method CheckParts(parts: seq<string>) returns (ok: bool)
    ensures ok == NameParts(parts)
  {
    for i := 0 to |parts|
      invariant forall j | 0 <= j < i :: NamePart(parts[j])
    {
      if !NamePart(parts[i]) { return false; }
    }
    ok := true;
  }

  method ParseRepository(lower: Lowering, value: string, tag: string, digest: string)
    returns (r: Result<Reference, ParseError>)
    ensures r == ParsePath(lower, value, tag, digest)
  {
    var host, parts := ResolveParts(lower, Split(value, '/'));
    var ok := CheckParts(parts);
    if !ok { return Err(InvalidRepository); }
    if !ValidHost(host) { return Err(InvalidRegistry); }
    r := Ok(Reference(host, Join(parts, '/'), tag, digest));
  }

  method ParseTagAndPath(lower: Lowering, unhashed: string, digest: string) returns (r: Result<Reference, ParseError>)
    ensures r == ParseTagged(lower, unhashed, digest)
  {
    var value, tag := unhashed, "";
    var lastSlash, lastColon := LastIndex(value, '/'), LastIndex(value, ':');
    assert CutTag(unhashed)
        == if lastColon > lastSlash then (value[..lastColon], Some(value[lastColon + 1..])) else (value, None);
    if lastColon > lastSlash {
      tag := value[lastColon + 1..];
      value := value[..lastColon];
      if !Tag(tag) { return Err(InvalidTag); }
    }
    r := ParseRepository(lower, value, tag, digest);
  }

  method ParseReference(lower: Lowering, input: string) returns (r: Result<Reference, ParseError>)
    ensures r == Parse(lower, input)
  {
    var value := TrimSpace(input);
    if !Acceptable(value) { return Err(InvalidReference); }
    var digest := "";
    var at := Index(value, '@');
    if at >= 0 {
      var before, after := value[..at], value[at + 1..];
      if '@' in after || !Digest(after) { return Err(InvalidDigest); }
      value, digest := before, after;
    }
    r := ParseTagAndPath(lower, value, digest);
  }

  // ----- printing -----

  /** a and b around the character c. */
  function Around(a: string, c: char, b: string): (s: string)
    ensures |s| == |a| + 1 + |b| && s[|a|] == c && s[..|a|] == a && s[|a| + 1..] == b
    ensures forall k | 0 <= k < |a| :: s[k] == a[k]
    ensures forall k | |a| < k < |s| :: s[k] == b[k - |a| - 1]
  {
    a + [c] + b
  }

  function Path(r: Reference): string { Around(r.registry, '/', r.repository) }
  function Tagged(r: Reference): string { if r.tag == "" then Path(r) else Around(Path(r), ':', r.tag) }

  /** registry/repository[:tag][@digest] */
  function Print(r: Reference): string { if r.digest == "" then Tagged(r) else Around(Tagged(r), '@', r.digest) }

  /** What parsing produces: lower-cased hosts that are recognisable as hosts, no alias of docker.io,
      full repository paths. */
  predicate NormalHost(lower: Lowering, host: string) {
    host != "" && ValidHost(host) && IsRegistryComponent(host) && !IsDockerAlias(host) && Lower(lower, host) == host
    && Clean(host) && '/' !in host && '@' !in host && !IsSpace(host[0])
  }

  predicate Normal(lower: Lowering, r: Reference) {
    && NormalHost(lower, r.registry)
    && NameParts(Split(r.repository, '/'))
    && (r.registry == DOCKER ==> |Split(r.repository, '/')| > 1)
    && (r.tag == "" || Tag(r.tag)) && (r.digest == "" || Digest(r.digest))
  }

  // ----- parsing what was printed -----

  lemma IndexUnique(s: string, c: char, i: nat)
    requires i < |s| && s[i] == c && forall k | 0 <= k < i :: s[k] != c
    ensures Index(s, c) == i
  {
  }

  lemma LastIndexUnique(s: string, c: char, i: nat)
    requires i < |s| && s[i] == c && forall k | i < k < |s| :: s[k] != c
    ensures LastIndex(s, c) == i
  {
  }

  lemma IndexAround(a: string, c: char, b: string)
    requires c !in a
    ensures Index(Around(a, c, b), c) == |a|
  {
    IndexUnique(Around(a, c, b), c, |a|);
  }

  lemma LastIndexAround(a: string, c: char, b: string)
    requires c !in b
    ensures LastIndex(Around(a, c, b), c) == |a|
  {
    LastIndexUnique(Around(a, c, b), c, |a|);
  }

  lemma CharsAround(a: string, c: char, b: string, x: char)
    ensures x in Around(a, c, b) <==> x in a || x == c || x in b
  {
    var s := Around(a, c, b);
    if x in b {
      var k :| 0 <= k < |b| && b[k] == x;
      assert s[|a| + 1 + k] == x;
    }
    if x in a {
      var k :| 0 <= k < |a| && a[k] == x;
      assert s[k] == x;
    }
  }

  lemma NamePartChars(s: string, c: char)
    requires NamePart(s) && c in s
    ensures c !in FORBIDDEN && c != '/' && c != ':' && c != '@' && !IsSpace(c)
  {
  }

  lemma {:induction false} JoinedChars(parts: seq<string>, c: char)
    requires NameParts(parts) && c in Join(parts, '/')
    ensures c !in FORBIDDEN && c != ':' && c != '@' && !IsSpace(c)
  {
    if |parts| == 1 {
      NamePartChars(parts[0], c);
    } else {
      var s := Join(parts, '/');
      assert s == parts[0] + ['/'] + Join(parts[1..], '/');
      if c in parts[0] { NamePartChars(parts[0], c); }
      else if c != '/' { assert c in Join(parts[1..], '/'); JoinedChars(parts[1..], c); }
    }
  }

  predicate NoDoubleSlash(s: string) {
    forall i, j | 0 <= i < |s| && 0 <= j < |s| && j == i + 1 :: s[i] != '/' || s[j] != '/'
  }

  lemma {:induction false} JoinedShape(parts: seq<string>)
    requires parts != [] && NameParts(parts)
    ensures var s := Join(parts, '/'); s != "" && s[0] != '/' && NoDoubleSlash(s)
  {
    NamePartSlashless(parts[0]);
    if |parts| > 1 {
      JoinedShape(parts[1..]);
      assert Join(parts, '/') == parts[0] + ['/'] + Join(parts[1..], '/');
    }
  }

  lemma NamePartSlashless(s: string)
    requires NamePart(s)
    ensures forall i | 0 <= i < |s| :: s[i] != '/'
  {
  }

  /** No character that a reference must not contain, no second slash in a row, no space at the ends. */
  predicate Plain(s: string) {
    StartsPlain(s) && !IsSpace(s[|s| - 1])
  }

  predicate StartsPlain(s: string) {
    s != "" && Clean(s) && NoDoubleSlash(s) && !IsSpace(s[0])
  }

  lemma PlainAround(a: string, c: char, b: string)
    requires StartsPlain(a) && Clean(b) && b != "" && !IsSpace(b[|b| - 1]) && NoDoubleSlash(b) && c !in FORBIDDEN
    requires c == '/' ==> a[|a| - 1] != '/' && b[0] != '/'
    ensures Plain(Around(a, c, b))
  {
  }

  lemma PathShape(lower: Lowering, r: Reference)
    requires Normal(lower, r)
    ensures Plain(Path(r)) && '@' !in Path(r) && ':' !in r.repository
  {
    var parts := Split(r.repository, '/');
    JoinSplit(r.repository, '/');
    JoinedShape(parts);
    forall c | c in r.repository ensures c !in FORBIDDEN && c != ':' && c != '@' && !IsSpace(c) {
      JoinedChars(parts, c);
    }
    PlainAround(r.registry, '/', r.repository);
    CharsAround(r.registry, '/', r.repository, '@');
  }

  lemma TagChars(s: string)
    requires Tag(s)
    ensures forall c | c in s :: c !in FORBIDDEN && c != '/' && c != ':' && c != '@' && !IsSpace(c)
    ensures Clean(s) && NoDoubleSlash(s) && !IsSpace(s[|s| - 1])
  {
  }

  lemma DigestChars(s: string)
    requires Digest(s)
    ensures forall c | c in s :: c !in FORBIDDEN && c != '/' && c != '@' && !IsSpace(c)
    ensures Clean(s) && NoDoubleSlash(s) && !IsSpace(s[|s| - 1])
  {
  }

  lemma PathCuts(lower: Lowering, r: Reference)
    requires Normal(lower, r)
    ensures CutTag(Path(r)) == (Path(r), None)
  {
    PathShape(lower, r);
    var s := Path(r);
    assert forall k | |r.registry| < k < |s| :: s[k] in r.repository;
  }

  lemma TagCuts(path: string, tag: string)
    requires Tag(tag)
    ensures CutTag(Around(path, ':', tag)) == (path, Some(tag))
  {
    TagChars(tag);
    LastIndexAround(path, ':', tag);
    var s := Around(path, ':', tag);
    assert forall k | |path| < k < |s| :: s[k] in tag;
  }

  lemma TaggedCuts(lower: Lowering, r: Reference)
    requires Normal(lower, r)
    ensures CutTag(Tagged(r)) == (Path(r), if r.tag == "" then None else Some(r.tag))
  {
    if r.tag == "" { PathCuts(lower, r); } else { TagCuts(Path(r), r.tag); }
  }

  lemma TaggedShape(lower: Lowering, r: Reference)
    requires Normal(lower, r)
    ensures Plain(Tagged(r)) && '@' !in Tagged(r)
  {
    PathShape(lower, r);
    if r.tag != "" {
      TagChars(r.tag);
      PlainAround(Path(r), ':', r.tag);
      CharsAround(Path(r), ':', r.tag, '@');
    }
  }

  lemma SchemeMarkSlashes(s: string, i: nat)
    requires ContainsAt(s, "://", i)
    ensures i + 2 < |s| && s[i + 1] == '/' && s[i + 2] == '/'
  {
    var mark := s[i..i + 3];
    assert mark == "://" && s[i + 1] == mark[1] && s[i + 2] == mark[2];
  }

  lemma PlainIsAcceptable(s: string)
    requires Plain(s)
    ensures Acceptable(s) && TrimSpace(s) == s
  {
    if i: nat :| i <= |s| && ContainsAt(s, "://", i) { SchemeMarkSlashes(s, i); }
    TrimSpaceTrims(s);
  }

  lemma PrintIsPlain(lower: Lowering, r: Reference)
    requires Normal(lower, r)
    ensures Plain(Print(r))
  {
    TaggedShape(lower, r);
    if r.digest != "" {
      DigestChars(r.digest);
      PlainAround(Tagged(r), '@', r.digest);
    }
  }

  lemma PrintCuts(lower: Lowering, r: Reference)
    requires Normal(lower, r)
    ensures CutDigest(Print(r)) == (Tagged(r), if r.digest == "" then None else Some(r.digest))
  {
    TaggedShape(lower, r);
    if r.digest != "" { IndexAround(Tagged(r), '@', r.digest); }
  }

  lemma PathResolves(lower: Lowering, r: Reference)
    requires Normal(lower, r)
    ensures Resolve(lower, Split(Path(r), '/')) == (r.registry, Split(r.repository, '/'))
  {
    SplitPrefix(r.registry, r.repository, '/');
    assert Split(Path(r), '/')[1..] == Split(r.repository, '/');
  }

  lemma PathParses(lower: Lowering, r: Reference)
    requires Normal(lower, r)
    ensures ParsePath(lower, Path(r), r.tag, r.digest) == Ok(r)
  {
    PathResolves(lower, r);
    JoinSplit(r.repository, '/');
  }

  lemma TaggedParses(lower: Lowering, r: Reference)
    requires Normal(lower, r)
    ensures ParseTagged(lower, Tagged(r), r.digest) == Ok(r)
  {
    TaggedCuts(lower, r);
    PathParses(lower, r);
  }

  lemma PrintParses(lower: Lowering, r: Reference)
    requires Normal(lower, r)
    ensures Parse(lower, Print(r)) == ParseTagged(lower, Tagged(r), r.digest)
  {
    PrintIsPlain(lower, r);
    PlainIsAcceptable(Print(r));
    PrintCuts(lower, r);
    if r.digest != "" { DigestChars(r.digest); }
  }

  /** A reference in normal form is parsed back from its printed form. */
  lemma NormalRoundTrips(lower: Lowering, r: Reference)
    requires Normal(lower, r)
    ensures Parse(lower, Print(r)) == Ok(r)
  {
    PrintParses(lower, r);
    TaggedParses(lower, r);
  }

  // ----- what parsing produces is in normal form -----

  lemma {:induction false} SplitFront(s: string, sep: char)
    ensures Split(s, sep)[0] <= s
  {
    if s != "" && s[0] != sep {
      SplitFront(s[1..], sep);
      assert s == [s[0]] + s[1..];
    }
  }

  lemma LowerFacts(lower: Lowering, s: string)
    ensures Lower(lower, Lower(lower, s)) == Lower(lower, s) && |Lower(lower, s)| == |s|
    ensures forall i | 0 <= i < |s| :: Lower(lower, s)[i] == lower(s[i])
    ensures IsRegistryComponent(s) ==> IsRegistryComponent(Lower(lower, s))
  {
    if '.' in s { var i :| 0 <= i < |s| && s[i] == '.'; assert Lower(lower, s)[i] == '.'; }
    if ':' in s { var i :| 0 <= i < |s| && s[i] == ':'; assert Lower(lower, s)[i] == ':'; }
    if s == "localhost" { LowerKeeps(lower, s); }
  }

  lemma LoweredHost(lower: Lowering, part: string)
    requires part != "" && IsRegistryComponent(part) && Clean(part) && '/' !in part && '@' !in part && !IsSpace(part[0])
    requires ValidHost(Lower(lower, part)) && !IsDockerAlias(Lower(lower, part))
    ensures NormalHost(lower, Lower(lower, part))
  {
    LowerFacts(lower, part);
  }

  lemma LowerKeeps(lower: Lowering, s: string)
    requires forall i | 0 <= i < |s| :: IsAscii(s[i]) && !IsUpper(s[i])
    ensures Lower(lower, s) == s
  {
    forall i | 0 <= i < |s| ensures Lower(lower, s)[i] == s[i] { assert lower(s[i]) == LowerAscii(s[i]); }
  }

  lemma DockerIsNormal(lower: Lowering)
    ensures NormalHost(lower, DOCKER)
  {
    DockerChars();
    LowerKeeps(lower, DOCKER);
  }

  lemma DockerLetters()
    ensures |DOCKER| == 9 && forall i | 0 <= i < |DOCKER| :: IsLower(DOCKER[i]) || DOCKER[i] == '.'
    ensures DOCKER[0] != '.' && DOCKER[8] != '.' && DOCKER[6] == '.'
  {
  }

  lemma PlainLetters(s: string)
    requires s != "" && forall i | 0 <= i < |s| :: IsLower(s[i]) || s[i] == '.'
    ensures (forall i | 0 <= i < |s| :: IsAscii(s[i]) && !IsUpper(s[i])) && Clean(s)
    ensures '/' !in s && '@' !in s && !IsSpace(s[0])
  {
  }

  lemma DockerChars()
    ensures DOCKER != "" && ValidHost(DOCKER) && IsRegistryComponent(DOCKER) && !IsDockerAlias(DOCKER)
    ensures forall i | 0 <= i < |DOCKER| :: IsAscii(DOCKER[i]) && !IsUpper(DOCKER[i])
    ensures Clean(DOCKER) && '/' !in DOCKER && '@' !in DOCKER && !IsSpace(DOCKER[0])
  {
    DockerLetters();
    PlainLetters(DOCKER);
    HostOfNine(DOCKER);
  }

  lemma HostOfNine(host: string)
    requires |host| == 9 && host[0] != '.' && host[8] != '.'
    ensures ValidHost(host) && !IsDockerAlias(host)
  {
    BytesBound(host);
    assert |"index.docker.io"| == 15 && |"registry-1.docker.io"| == 20;
  }

  lemma ResolvedHost(lower: Lowering, parts: seq<string>)
    requires parts != [] && ValidHost(Resolve(lower, parts).0)
    requires |parts| > 1 && parts[0] != "" ==>
      Clean(parts[0]) && '/' !in parts[0] && '@' !in parts[0] && !IsSpace(parts[0][0])
    ensures NormalHost(lower, Resolve(lower, parts).0)
  {
    DockerIsNormal(lower);
    if |parts| > 1 && IsRegistryComponent(parts[0]) && !IsDockerAlias(Lower(lower, parts[0])) {
      LoweredHost(lower, parts[0]);
    }
  }

  lemma ParsedPathIsNormal(lower: Lowering, path: string, tag: string, digest: string)
    requires ParsePath(lower, path, tag, digest).Ok? && Clean(path) && '@' !in path
      && (path != "" ==> !IsSpace(path[0]))
    requires (tag == "" || Tag(tag)) && (digest == "" || Digest(digest))
    ensures Normal(lower, ParsePath(lower, path, tag, digest).value)
  {
    SplitFront(path, '/');
    ResolvedHost(lower, Split(path, '/'));
    ResolvedParts(lower, Split(path, '/'));
  }

  lemma ResolvedParts(lower: Lowering, split: seq<string>)
    requires split != [] && NameParts(Resolve(lower, split).1)
    ensures var (host, parts) := Resolve(lower, split);
      Split(Join(parts, '/'), '/') == parts && (host == DOCKER ==> |parts| > 1)
  {
    var (host, parts) := Resolve(lower, split);
    assert parts != [];
    forall i | 0 <= i < |parts| ensures '/' !in parts[i] { NamePartSlashless(parts[i]); }
    SplitJoin(parts, '/');
  }

  lemma ParsedTaggedIsNormal(lower: Lowering, v: string, digest: string)
    requires ParseTagged(lower, v, digest).Ok? && Clean(v) && '@' !in v && (v != "" ==> !IsSpace(v[0]))
      && (digest == "" || Digest(digest))
    ensures Normal(lower, ParseTagged(lower, v, digest).value)
  {
    var (path, tag) := CutTag(v);
    assert path <= v;
    ParsedPathIsNormal(lower, path, OrEmpty(tag), digest);
  }

  lemma UnhashedFacts(v: string)
    requires Clean(v) && v != "" && !IsSpace(v[0])
    ensures var u := CutDigest(v).0; Clean(u) && '@' !in u && (u != "" ==> !IsSpace(u[0]))
  {
    assert CutDigest(v).0 <= v;
  }

  lemma ParseIsNormal(lower: Lowering, input: string)
    requires Parse(lower, input).Ok?
    ensures Normal(lower, Parse(lower, input).value)
  {
    TrimSpaceTrims(input);
    UnhashedFacts(TrimSpace(input));
    var (unhashed, digest) := CutDigest(TrimSpace(input));
    ParsedTaggedIsNormal(lower, unhashed, OrEmpty(digest));
  }

  /** Printing a parsed reference and parsing it again gives it back: normalisation is idempotent. */
  lemma ParsePrintRoundTrip(lower: Lowering, input: string)
    requires Parse(lower, input).Ok?
    ensures Normal(lower, Parse(lower, input).value)
      && Parse(lower, Print(Parse(lower, input).value)) == Parse(lower, input)
  {
    ParseIsNormal(lower, input);
    NormalRoundTrips(lower, Parse(lower, input).value);
  }

  /** The parser's results are exactly the references in normal form. */
  lemma NormalFormsExactly(lower: Lowering, r: Reference)
    ensures Normal(lower, r) <==> Parse(lower, Print(r)) == Ok(r)
    ensures Normal(lower, r) <==> exists input :: Parse(lower, input) == Ok(r)
  {
    if Normal(lower, r) { NormalRoundTrips(lower, r); }
    if input :| Parse(lower, input) == Ok(r) { ParseIsNormal(lower, input); }
  }

  // ----- the parser in plain terms -----

  /** What is turned away before it is looked at in parts. */
  lemma RefusedOutright(lower: Lowering, input: string)
    ensures Parse(lower, input) == Err(InvalidReference) <==>
      var v := TrimSpace(input);
      || v == "" || Contains(v, "://")
      || ' ' in v || '\t' in v || '\r' in v || '\n' in v || '?' in v || '#' in v
  {
    CleanIs(TrimSpace(input));
  }

  lemma CleanIs(v: string)
    ensures Clean(v) <==> ' ' !in v && '\t' !in v && '\r' !in v && '\n' !in v && '?' !in v && '#' !in v
  {
    if !Clean(v) {
      var i :| 0 <= i < |v| && v[i] in FORBIDDEN;
      assert v[i] in v;
    }
  }

  /** A lone name stands for the library image of that name on docker.io. */
  lemma NameAlone(lower: Lowering, name: string)
    ensures Resolve(lower, [name]) == ("docker.io", ["library", name])
  {
    assert ["library"] + [name] == ["library", name];
  }

  /** Without a host in front, several parts are a path on docker.io. */
  lemma PathAlone(lower: Lowering, parts: seq<string>)
    requires |parts| > 1 && parts[0] != "localhost" && '.' !in parts[0] && ':' !in parts[0]
    ensures Resolve(lower, parts) == ("docker.io", parts)
  {
  }

  /** A host in front is lower-cased; the two aliases of docker.io stand for it, and there a lone name is again
      a library image. */
  lemma HostInFront(lower: Lowering, parts: seq<string>)
    requires |parts| > 1 && (parts[0] == "localhost" || '.' in parts[0] || ':' in parts[0])
    ensures var host := Lower(lower, parts[0]);
      var alias := host == "docker.io" || host == "index.docker.io" || host == "registry-1.docker.io";
      && (!alias ==> Resolve(lower, parts) == (host, parts[1..]))
      && (alias && |parts| == 2 ==> Resolve(lower, parts) == ("docker.io", ["library", parts[1]]))
      && (alias && |parts| > 2 ==> Resolve(lower, parts) == ("docker.io", parts[1..]))
  {
    if |parts| == 2 { assert ["library"] + parts[1..] == ["library", parts[1]]; }
  }

  /** The host of every parsed reference. */
  lemma ParsedHost(lower: Lowering, input: string)
    requires Parse(lower, input).Ok?
    ensures var host := Parse(lower, input).value.registry;
      && 0 < Bytes(host) <= 255 && host[0] != '.' && host[|host| - 1] != '.'
      && (host == "localhost" || '.' in host || ':' in host)
      && host != "index.docker.io" && host != "registry-1.docker.io" && Lower(lower, host) == host
  {
    ParseIsNormal(lower, input);
    BytesBound(Parse(lower, input).value.registry);
  }

  /** From input to result: a lone name that is valid parses, to the library image. */
  lemma LoneNameParses(lower: Lowering, name: string)
    requires NamePart(name)
    ensures Parse(lower, name) == Ok(Reference("docker.io", Join(["library", name], '/'), "", ""))
  {
    NamePartSlashless(name);
    forall c | c in name ensures c !in FORBIDDEN && c != '/' && c != ':' && c != '@' && !IsSpace(c) {
      NamePartChars(name, c);
    }
    PlainIsAcceptable(name);
    SplitWhole(name, '/');
    NoColonNoTag(name);
    LibraryParses(lower, name);
  }

  lemma NoColonNoTag(s: string)
    requires ':' !in s && '@' !in s
    ensures CutTag(s) == (s, None) && CutDigest(s) == (s, None)
  {
  }

  lemma LibraryParses(lower: Lowering, name: string)
    requires NamePart(name) && Split(name, '/') == [name]
    ensures ParsePath(lower, name, "", "") == Ok(Reference("docker.io", Join(["library", name], '/'), "", ""))
  {
    DockerChars();
    NameAlone(lower, name);
    LibraryIsName();
    TwoNames("library", name);
  }

  lemma LibraryIsName()
    ensures NamePart("library")
  {
  }

  lemma TwoNames(a: string, b: string)
    requires NamePart(a) && NamePart(b)
    ensures NameParts([a, b])
  {
  }
}
