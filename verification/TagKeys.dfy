/** The keys under which tag pages are cached, and which queries share one. */
module TagKeys {
  import opened Text
  import opened ImageReference

  const NUL := '\0'
  const MAX_FILTER := 128

  // ----- the key -----

  /** Decimal digits of a positive limit. */
  function Decimal(n: nat): string {
    if n < 10 then [Digit(n)] else Decimal(n / 10) + [Digit(n % 10)]
  }

  function Digit(n: nat): char
    requires n < 10
  {
    ('0' as int + n) as char
  }

  lemma {:induction false} DecimalInjective(m: nat, n: nat)
    requires Decimal(m) == Decimal(n)
    ensures m == n
  {
    var s := Decimal(m);
    assert s[|s| - 1] == Digit(m % 10) == Digit(n % 10);
    if m >= 10 && n >= 10 {
      assert s[..|s| - 1] == Decimal(m / 10) == Decimal(n / 10);
      DecimalInjective(m / 10, n / 10);
    } else {
      DecimalNonempty(m / 10);
      DecimalNonempty(n / 10);
    }
  }

  lemma {:induction false} DecimalNonempty(n: nat)
    ensures Decimal(n) != "" && forall c | c in Decimal(n) :: '0' <= c <= '9'
  {
    if n >= 10 { DecimalNonempty(n / 10); }
  }

  /** What the cache distinguishes: tag and digest of the image are not part of it. */
  datatype Query = Query(registry: string, repository: string, prefix: string, cursor: string, limit: nat)

  function Parts(q: Query): seq<string> { [q.repository, "anonymous", q.prefix, q.cursor, Decimal(q.limit)] }

  function Key(q: Query): string { Join([q.registry] + Parts(q), NUL) }

  lemma JoinCons(first: string, rest: seq<string>)
    requires rest != []
    ensures Join([first] + rest, NUL) == first + [NUL] + Join(rest, NUL)
  {
    assert ([first] + rest)[1..] == rest;
  }

  /** Splitting at NUL what was joined with NUL splits each part. */
  lemma SplitsAdd(first: string, rest: seq<string>)
    requires rest != []
    ensures Split(Join([first] + rest, NUL), NUL) == Split(first, NUL) + Split(Join(rest, NUL), NUL)
  {
    JoinCons(first, rest);
    SplitAppend(first, Join(rest, NUL), NUL);
  }

  lemma OnePart(s: string)
    ensures NUL !in s <==> Split(s, NUL) == [s]
  {
    JoinSplit(s, NUL);
    if NUL !in s { SplitWhole(s, NUL); }
  }

  function FilterParts(q: Query): seq<string> { Split(q.prefix, NUL) + Split(q.cursor, NUL) }

  lemma TailParts(q: Query)
    ensures Split(Join([q.prefix, q.cursor, Decimal(q.limit)], NUL), NUL) == FilterParts(q) + [Decimal(q.limit)]
  {
    DecimalNonempty(q.limit);
    SplitsAdd(q.prefix, [q.cursor, Decimal(q.limit)]);
    SplitsAdd(q.cursor, [Decimal(q.limit)]);
    OnePart(Decimal(q.limit));
  }

  lemma SplitsPlain(first: string, rest: seq<string>)
    requires rest != [] && NUL !in first
    ensures Split(Join([first] + rest, NUL), NUL) == [first] + Split(Join(rest, NUL), NUL)
  {
    SplitsAdd(first, rest);
    OnePart(first);
  }

  lemma HeadParts(q: Query, rest: seq<string>)
    requires NUL !in q.repository && rest != []
    ensures Split(Join([q.repository] + (["anonymous"] + rest), NUL), NUL)
         == [q.repository] + (["anonymous"] + Split(Join(rest, NUL), NUL))
  {
    SplitsPlain(q.repository, ["anonymous"] + rest);
    SplitsPlain("anonymous", rest);
  }

  /** The parts of a key but the limit: those of the registry, the repository, a fixed word, those of the
      prefix, those of the cursor. */
  function Pieces(q: Query): seq<string> {
    Split(q.registry, NUL) + ([q.repository, "anonymous"] + FilterParts(q))
  }

  lemma KeyParts(q: Query)
    requires NUL !in q.repository
    ensures Split(Key(q), NUL) == Pieces(q) + [Decimal(q.limit)]
  {
    var rest := [q.prefix, q.cursor, Decimal(q.limit)];
    SplitsAdd(q.registry, Parts(q));
    HeadParts(q, rest);
    TailParts(q);
    assert Parts(q) == [q.repository] + (["anonymous"] + rest);
  }

  lemma SameTail<T>(a: seq<T>, a': seq<T>, b: seq<T>, b': seq<T>)
    requires a + a' == b + b' && |a'| == |b'|
    ensures a == b && a' == b'
  {
    assert |a| == |b|;
    assert (a + a')[..|a|] == a && (b + b')[..|a|] == b;
    assert (a + a')[|a|..] == a' && (b + b')[|a|..] == b';
  }

  /** Queries have the same key exactly when they have the same pieces and the same limit. */
  lemma SamePieces(p: Query, q: Query)
    requires NUL !in p.repository && NUL !in q.repository
    ensures Key(p) == Key(q) <==> Pieces(p) == Pieces(q) && p.limit == q.limit
  {
    KeyParts(p);
    KeyParts(q);
    JoinSplit(Key(p), NUL);
    JoinSplit(Key(q), NUL);
    if Key(p) == Key(q) {
      SameTail(Pieces(p), [Decimal(p.limit)], Pieces(q), [Decimal(q.limit)]);
      assert [Decimal(p.limit)][0] == [Decimal(q.limit)][0];
      DecimalInjective(p.limit, q.limit);
    }
  }

  // ----- which keys are ambiguous -----

  /** Some image parses to this registry and repository. */
  ghost predicate IsImage(lower: Lowering, registry: string, repository: string) {
    Normal(lower, Reference(registry, repository, "", ""))
  }

  /** Queries the service admits: those of images that parse, with a prefix and a cursor that are not too long. */
  ghost predicate Askable(lower: Lowering, q: Query) {
    IsImage(lower, q.registry, q.repository) && Bytes(q.prefix) <= MAX_FILTER && Bytes(q.cursor) <= MAX_FILTER
  }

  lemma ParsedIsAskable(lower: Lowering, image: string, prefix: string, cursor: string, limit: nat)
    requires Parse(lower, image).Ok? && Bytes(prefix) <= MAX_FILTER && Bytes(cursor) <= MAX_FILTER
    ensures var r := Parse(lower, image).value; Askable(lower, Query(r.registry, r.repository, prefix, cursor, limit))
  {
    ParseIsNormal(lower, image);
  }

  lemma {:induction false} RepositoryHasNoNul(parts: seq<string>)
    requires NameParts(parts)
    ensures NUL !in Join(parts, '/')
  {
    if parts != [] {
      assert NamePart(parts[0]);
      if |parts| > 1 {
        RepositoryHasNoNul(parts[1..]);
        assert Join(parts, '/') == parts[0] + ['/'] + Join(parts[1..], '/');
      }
    }
  }

  lemma AskableRepository(lower: Lowering, q: Query)
    requires Askable(lower, q)
    ensures NUL !in q.repository
  {
    RepositoryHasNoNul(Split(q.repository, '/'));
    JoinSplit(q.repository, '/');
  }

  /** Pieces read as a query: the repository at i, the cursor from j on. */
  function ReadAs(pieces: seq<string>, i: nat, j: nat, limit: nat): Query
    requires i + 2 < j < |pieces|
  {
    Query(Join(pieces[..i], NUL), pieces[i], Join(pieces[i + 2..j], NUL), Join(pieces[j..], NUL), limit)
  }

  ghost predicate Readable(lower: Lowering, pieces: seq<string>, i: nat, j: nat) {
    0 < i && i + 2 < j < |pieces| && pieces[i + 1] == "anonymous" && Askable(lower, ReadAs(pieces, i, j, 0))
  }

  /** Where a query's own repository and cursor are among its pieces. */
  function RepositoryAt(q: Query): nat { |Split(q.registry, NUL)| }
  function CursorAt(q: Query): nat { RepositoryAt(q) + 2 + |Split(q.prefix, NUL)| }

  lemma Slices(a: seq<string>, b: seq<string>, c: seq<string>, d: seq<string>)
    requires |b| == 2
    ensures var all := a + (b + (c + d));
      && all[..|a|] == a && all[|a|] == b[0] && all[|a| + 1] == b[1]
      && all[|a| + 2..|a| + 2 + |c|] == c && all[|a| + 2 + |c|..] == d
  {
  }

  lemma OwnReading(q: Query)
    ensures RepositoryAt(q) > 0 && RepositoryAt(q) + 2 < CursorAt(q) < |Pieces(q)|
    ensures Pieces(q)[RepositoryAt(q) + 1] == "anonymous"
    ensures ReadAs(Pieces(q), RepositoryAt(q), CursorAt(q), q.limit) == q
  {
    Slices(Split(q.registry, NUL), [q.repository, "anonymous"], Split(q.prefix, NUL), Split(q.cursor, NUL));
    JoinSplit(q.registry, NUL);
    JoinSplit(q.prefix, NUL);
    JoinSplit(q.cursor, NUL);
  }

  lemma Rejoined(pieces: seq<string>, i: nat, j: nat)
    requires 0 < i && i + 2 < j < |pieces| && pieces[i + 1] == "anonymous"
    ensures pieces == pieces[..i] + ([pieces[i], "anonymous"] + (pieces[i + 2..j] + pieces[j..]))
  {
  }

  /** A query that is read off NUL-free pieces has just these pieces, and its own places are i and j. */
  lemma ReadHasPieces(pieces: seq<string>, i: nat, j: nat, limit: nat)
    requires 0 < i && i + 2 < j < |pieces| && pieces[i + 1] == "anonymous"
    requires forall k | 0 <= k < |pieces| :: NUL !in pieces[k]
    ensures var p := ReadAs(pieces, i, j, limit); Pieces(p) == pieces && RepositoryAt(p) == i && CursorAt(p) == j
  {
    SplitJoin(pieces[..i], NUL);
    SplitJoin(pieces[i + 2..j], NUL);
    SplitJoin(pieces[j..], NUL);
    Rejoined(pieces, i, j);
  }

  lemma PiecesHaveNoNul(q: Query)
    requires NUL !in q.repository
    ensures forall k | 0 <= k < |Pieces(q)| :: NUL !in Pieces(q)[k]
  {
  }

  /** The pieces can be read as an admissible query in one way only. */
  ghost predicate Clear(lower: Lowering, q: Query) {
    forall i, j | Readable(lower, Pieces(q), i, j) :: i == RepositoryAt(q) && j == CursorAt(q)
  }

  lemma SameKeySame(lower: Lowering, p: Query, q: Query)
    requires Askable(lower, p) && Askable(lower, q) && Key(p) == Key(q) && Clear(lower, q)
    ensures p == q
  {
    AskableRepository(lower, p);
    AskableRepository(lower, q);
    SamePieces(p, q);
    OwnReading(p);
    OwnReading(q);
    assert ReadAs(Pieces(p), RepositoryAt(p), CursorAt(p), 0) == p.(limit := 0);
    assert Readable(lower, Pieces(q), RepositoryAt(p), CursorAt(p));
  }

  /** Another reading is another admissible query with the same key. */
  lemma Impostor(lower: Lowering, q: Query) returns (p: Query)
    requires Askable(lower, q) && !Clear(lower, q)
    ensures Askable(lower, p) && Key(p) == Key(q) && p != q
  {
    var i, j :| Readable(lower, Pieces(q), i, j) && !(i == RepositoryAt(q) && j == CursorAt(q));
    p := ReadAs(Pieces(q), i, j, q.limit);
    assert p == ReadAs(Pieces(q), i, j, 0).(limit := q.limit);
    AskableRepository(lower, q);
    AskableRepository(lower, p);
    PiecesHaveNoNul(q);
    ReadHasPieces(Pieces(q), i, j, q.limit);
    SamePieces(p, q);
  }

  /** Among the queries that the service admits, a key stands for one alone exactly when its pieces can be
      read in one way only. */
  lemma KeyUnambiguous(lower: Lowering, q: Query)
    requires Askable(lower, q)
    ensures (forall p | Askable(lower, p) && Key(p) == Key(q) :: p == q) <==> Clear(lower, q)
  {
    if Clear(lower, q) {
      forall p | Askable(lower, p) && Key(p) == Key(q) ensures p == q { SameKeySame(lower, p, q); }
    } else {
      var p := Impostor(lower, q);
    }
  }

  // ----- ordinary queries -----

  /** Without NUL there are five pieces, and one reading. */
  lemma OrdinaryIsClear(lower: Lowering, q: Query)
    requires NUL !in q.registry && NUL !in q.prefix && NUL !in q.cursor
    ensures Clear(lower, q)
  {
    OnePart(q.registry);
    OnePart(q.prefix);
    OnePart(q.cursor);
  }

  lemma KeyShape(q: Query)
    ensures Key(q) == Join([q.registry, q.repository, "anonymous"] + [q.prefix, q.cursor] + [Decimal(q.limit)], NUL)
  {
    assert [q.registry] + Parts(q)
      == [q.registry, q.repository, "anonymous"] + [q.prefix, q.cursor] + [Decimal(q.limit)];
  }

  /** A joined part may be taken for the parts it was joined from. */
  lemma {:induction false} JoinFlat(before: seq<string>, inner: seq<string>, after: seq<string>)
    requires inner != []
    ensures Join(before + [Join(inner, NUL)] + after, NUL) == Join(before + inner + after, NUL)
  {
    if before != [] {
      JoinFlat(before[1..], inner, after);
      var x, y := before[1..] + [Join(inner, NUL)] + after, before[1..] + inner + after;
      assert before + [Join(inner, NUL)] + after == [before[0]] + x;
      assert before + inner + after == [before[0]] + y;
      JoinCons(before[0], x);
      JoinCons(before[0], y);
    } else {
      JoinFlatFirst(inner, after);
      assert before + [Join(inner, NUL)] + after == [Join(inner, NUL)] + after;
      assert before + inner + after == inner + after;
    }
  }

  lemma {:induction false} JoinFlatFirst(inner: seq<string>, after: seq<string>)
    requires inner != []
    ensures Join([Join(inner, NUL)] + after, NUL) == Join(inner + after, NUL)
  {
    if after == [] {
      assert [Join(inner, NUL)] + after == [Join(inner, NUL)] && inner + after == inner;
    } else if |inner| == 1 {
      assert inner == [inner[0]];
    } else {
      var rest := inner[1..];
      JoinFlatFirst(rest, after);
      JoinCons(Join(rest, NUL), after);
      FrontRest(inner, after);
      JoinCons(inner[0], rest);
      JoinCons(inner[0], rest + after);
      JoinCons(Join(inner, NUL), after);
      JoinAssoc(inner[0], Join(rest, NUL), Join(after, NUL));
    }
  }

  lemma FrontRest(inner: seq<string>, after: seq<string>)
    requires inner != []
    ensures inner == [inner[0]] + inner[1..] && inner + after == [inner[0]] + (inner[1..] + after)
  {
  }

  lemma JoinAssoc(a: string, b: string, c: string)
    ensures (a + [NUL] + b) + [NUL] + c == a + [NUL] + (b + [NUL] + c)
  {
  }

  lemma CutAtNul(s: string) returns (before: string, after: string)
    requires NUL in s
    ensures s == before + [NUL] + after
  {
    var i :| 0 <= i < |s| && s[i] == NUL;
    before, after := s[..i], s[i + 1..];
  }

  function Filter(q: Query): string { q.prefix + [NUL] + q.cursor }

  lemma SameFilterSameKey(p: Query, q: Query)
    requires p.registry == q.registry && p.repository == q.repository && p.limit == q.limit && Filter(p) == Filter(q)
    ensures Key(p) == Key(q)
  {
    FilterJoins(p);
    FilterJoins(q);
  }

  lemma FilterJoins(q: Query)
    ensures Key(q) == Join([q.registry, q.repository, "anonymous"] + [Filter(q)] + [Decimal(q.limit)], NUL)
  {
    KeyShape(q);
    assert Join([q.prefix, q.cursor], NUL) == Filter(q);
    JoinFlat([q.registry, q.repository, "anonymous"], [q.prefix, q.cursor], [Decimal(q.limit)]);
  }

  /** A NUL in the prefix or the cursor lets the border between the two be drawn elsewhere. */
  lemma Redrawn(q: Query) returns (p: Query)
    requires NUL in q.prefix || NUL in q.cursor
    ensures p != q && p == q.(prefix := p.prefix, cursor := p.cursor) && Filter(p) == Filter(q) && Key(p) == Key(q)
  {
    if NUL in q.prefix {
      var x, y := CutAtNul(q.prefix);
      JoinAssoc(x, y, q.cursor);
      p := q.(prefix := x, cursor := y + [NUL] + q.cursor);
      assert |p.prefix| < |q.prefix|;
    } else {
      var x, y := CutAtNul(q.cursor);
      JoinAssoc(q.prefix, x, y);
      p := q.(prefix := q.prefix + [NUL] + x, cursor := y);
      assert |p.cursor| < |q.cursor|;
    }
    SameFilterSameKey(p, q);
  }

  lemma {:induction false} BytesAppend(a: string, b: string)
    ensures Bytes(a + b) == Bytes(a) + Bytes(b)
  {
    if a == "" {
      assert a + b == b;
    } else {
      BytesAppend(a[1..], b);
      assert (a + b)[1..] == a[1..] + b;
    }
  }

  lemma FilterBytes(q: Query)
    ensures Bytes(q.prefix) <= Bytes(Filter(q)) && Bytes(q.cursor) <= Bytes(Filter(q))
  {
    BytesAppend(q.prefix + [NUL], q.cursor);
    BytesAppend(q.prefix, [NUL]);
  }

  lemma ShortFilterAmbiguous(lower: Lowering, q: Query) returns (p: Query)
    requires Askable(lower, q) && Bytes(Filter(q)) <= MAX_FILTER && (NUL in q.prefix || NUL in q.cursor)
    ensures Askable(lower, p) && Key(p) == Key(q) && p != q
  {
    p := Redrawn(q);
    FilterBytes(p);
  }

  /** When prefix and cursor together are short and the registry holds no NUL, the condition is simply that
      neither of them does. */
  lemma ShortIsClear(lower: Lowering, q: Query)
    requires Askable(lower, q) && NUL !in q.registry && Bytes(Filter(q)) <= MAX_FILTER
    ensures Clear(lower, q) <==> NUL !in q.prefix && NUL !in q.cursor
  {
    if NUL !in q.prefix && NUL !in q.cursor {
      OrdinaryIsClear(lower, q);
    } else {
      var p := ShortFilterAmbiguous(lower, q);
      if Clear(lower, q) { SameKeySame(lower, p, q); }
    }
  }

  // ----- a registry can hide another image -----

  lemma NoAlias(host: string)
    requires host != "" && host[0] == 'r' && |host| < 20
    ensures !IsDockerAlias(host) && host != DOCKER
  {
    assert "index.docker.io"[0] == 'i' && |"registry-1.docker.io"| == 20 && DOCKER[0] == 'd';
  }

  lemma HostChars(host: string)
    requires forall i | 0 <= i < |host| :: IsLower(host[i]) || host[i] == '.' || host[i] == NUL
    ensures (forall i | 0 <= i < |host| :: IsAscii(host[i]) && !IsUpper(host[i])) && Clean(host)
    ensures '/' !in host && '@' !in host
  {
  }

  lemma LowerHostIsNormal(lower: Lowering, host: string)
    requires 0 < |host| < 20 && host[0] == 'r' && '.' in host && host[|host| - 1] != '.'
    requires forall i | 0 <= i < |host| :: IsLower(host[i]) || host[i] == '.' || host[i] == NUL
    ensures NormalHost(lower, host) && host != DOCKER
  {
    HostChars(host);
    NoAlias(host);
    LowerKeeps(lower, host);
    BytesBound(host);
  }

  lemma ShortImage(lower: Lowering, host: string, name: string)
    requires NormalHost(lower, host) && host != DOCKER && NamePart(name)
    ensures IsImage(lower, host, name)
  {
    NamePartSlashless(name);
    SplitWhole(name, '/');
  }

  lemma ThreeParts(a: string, b: string, c: string)
    requires NUL !in a && NUL !in b && NUL !in c
    ensures Split(a + [NUL] + (b + [NUL] + c), NUL) == [a, b, c]
  {
    SplitPrefix(a, b + [NUL] + c, NUL);
    SplitPrefix(b, c, NUL);
    SplitWhole(c, NUL);
    assert [a] + ([b] + [c]) == [a, b, c];
  }

  lemma HostsAreNormal(lower: Lowering, host: string)
    requires host == "r.x" || host == "r.x" + [NUL] + ("a" + [NUL] + "anonymous")
    ensures NormalHost(lower, host) && host != DOCKER
  {
    assert |host| == 3 || |host| == 15;
    assert host[1] == '.';
    LowerHostIsNormal(lower, host);
  }

  lemma HiddenIsAskable(lower: Lowering, q: Query)
    requires q == Query("r.x" + [NUL] + ("a" + [NUL] + "anonymous"), "repo", "q", "cur", 25)
    ensures Askable(lower, q) && NUL !in q.prefix && NUL !in q.cursor
  {
    HostsAreNormal(lower, q.registry);
    ShortImage(lower, q.registry, "repo");
    BytesBound("q");
    BytesBound("cur");
  }

  lemma HiddenPieces(q: Query)
    requires q == Query("r.x" + [NUL] + ("a" + [NUL] + "anonymous"), "repo", "q", "cur", 25)
    ensures Pieces(q) == ["r.x", "a", "anonymous", "repo", "anonymous", "q", "cur"]
    ensures RepositoryAt(q) == 3
  {
    ThreeParts("r.x", "a", "anonymous");
    OnePart(q.prefix);
    OnePart(q.cursor);
  }

  lemma HiddenReading(lower: Lowering, pieces: seq<string>)
    requires pieces == ["r.x", "a", "anonymous", "repo", "anonymous", "q", "cur"] && IsImage(lower, "r.x", "a")
    ensures Readable(lower, pieces, 1, 6)
  {
    assert pieces[..1] == ["r.x"] && pieces[6..] == ["cur"] && pieces[3..6] == ["repo", "anonymous", "q"];
    var prefix := Join(["repo", "anonymous", "q"], NUL);
    assert |prefix| == 16;
    BytesBound(prefix);
    BytesBound("cur");
  }

  /** The image "r.x\0a\0anonymous/repo" parses, and hides the image "r.x/a", though neither prefix nor cursor
      holds a NUL. */
  lemma HiddenExample(lower: Lowering) returns (p: Query, q: Query)
    ensures Askable(lower, p) && Askable(lower, q) && Key(p) == Key(q) && p != q
    ensures NUL !in q.prefix && NUL !in q.cursor && !Clear(lower, q)
  {
    q := Query("r.x" + [NUL] + ("a" + [NUL] + "anonymous"), "repo", "q", "cur", 25);
    HiddenIsAskable(lower, q);
    HostsAreNormal(lower, "r.x");
    ShortImage(lower, "r.x", "a");
    HiddenPieces(q);
    HiddenReading(lower, Pieces(q));
    p := Impostor(lower, q);
  }
}
