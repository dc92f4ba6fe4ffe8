/** The operations of Go's strings package that the models need. */
module Text {

  /** unicode.IsSpace */
  predicate IsSpace(c: char) {
    '\t' <= c <= '\r' || c == ' ' || c == '\U{85}' || c == '\U{a0}' || c == '\U{1680}'
    || '\U{2000}' <= c <= '\U{200a}' || c == '\U{2028}' || c == '\U{2029}' || c == '\U{202f}'
    || c == '\U{205f}' || c == '\U{3000}'
  }

  /** The length of the UTF-8 encoding, which is what Go's len counts. */
  function Bytes(s: string): nat {
    if s == "" then 0 else CharBytes(s[0]) + Bytes(s[1..])
  }

  function CharBytes(c: char): nat {
    if c < '\U{80}' then 1 else if c < '\U{800}' then 2 else if c < '\U{10000}' then 3 else 4
  }

  lemma {:induction false} BytesBound(s: string)
    ensures |s| <= Bytes(s) <= 4 * |s|
  {
    if s != "" { BytesBound(s[1..]); }
  }

  function TrimLeft(s: string): string {
    if s != "" && IsSpace(s[0]) then TrimLeft(s[1..]) else s
  }

  function TrimRight(s: string): string {
    if s != "" && IsSpace(s[|s| - 1]) then TrimRight(s[..|s| - 1]) else s
  }

  function TrimSpace(s: string): string { TrimRight(TrimLeft(s)) }

  /** Neither end is white space. */
  predicate Trimmed(s: string) {
    s != "" ==> !IsSpace(s[0]) && !IsSpace(s[|s| - 1])
  }

  lemma {:induction false} TrimRightKeepsFront(s: string)
    ensures TrimRight(s) <= s
    ensures TrimRight(s) != "" ==> !IsSpace(TrimRight(s)[|TrimRight(s)| - 1])
  {
    if s != "" && IsSpace(s[|s| - 1]) { TrimRightKeepsFront(s[..|s| - 1]); }
  }

  lemma {:induction false} TrimLeftCuts(s: string)
    ensures TrimLeft(s) != "" ==> !IsSpace(TrimLeft(s)[0])
    ensures forall c | c in TrimLeft(s) :: c in s
  {
    if s != "" && IsSpace(s[0]) { TrimLeftCuts(s[1..]); }
  }

  lemma TrimSpaceTrims(s: string)
    ensures Trimmed(TrimSpace(s))
    ensures forall c | c in TrimSpace(s) :: c in s
    ensures Trimmed(s) ==> TrimSpace(s) == s
  {
    TrimLeftCuts(s);
    TrimRightKeepsFront(TrimLeft(s));
  }

  lemma {:induction false} TrimLeftToNothing(s: string)
    ensures TrimLeft(s) == "" <==> forall c | c in s :: IsSpace(c)
  {
    if s != "" {
      TrimLeftToNothing(s[1..]);
      assert s == [s[0]] + s[1..];
    }
  }

  lemma TrimsToNothing(s: string)
    ensures TrimSpace(s) == "" <==> forall c | c in s :: IsSpace(c)
  {
    TrimLeftToNothing(s);
    TrimLeftCuts(s);
    var t := TrimLeft(s);
    if t != "" { TrimRightKeepsSome(t); }
  }

  lemma {:induction false} TrimRightKeepsSome(s: string)
    requires s != "" && !IsSpace(s[0])
    ensures TrimRight(s) != ""
  {
    if IsSpace(s[|s| - 1]) { TrimRightKeepsSome(s[..|s| - 1]); }
  }

  /** Among the ASCII characters just these are white space. */
  lemma AsciiSpaces(c: char)
    requires c < '\U{80}'
    ensures IsSpace(c) <==> c in {' ', '\t', '\n', '\U{0b}', '\U{0c}', '\r'}
  {
  }

  lemma TrimsLeadingSpace(s: string)
    requires s != "" && Trimmed(s)
    ensures TrimSpace([' '] + s) == s
  {
    TrimLeftStops([' '], s);
    assert TrimLeft([' ']) == "" && "" + s == s;
    TrimRightKeepsFront(s);
  }

  lemma {:induction false} TrimLeftStops(a: string, b: string)
    requires b != "" && !IsSpace(b[0])
    ensures TrimLeft(a + b) == TrimLeft(a) + b
  {
    if a == "" {
      assert a + b == b;
    } else {
      assert (a + b)[1..] == a[1..] + b && (a + b)[0] == a[0];
      if IsSpace(a[0]) { TrimLeftStops(a[1..], b); }
    }
  }

  lemma {:induction false} TrimRightStops(a: string, b: string)
    requires b != "" && !IsSpace(b[0])
    ensures TrimRight(a + b) == a + TrimRight(b)
  {
    var s, n := a + b, |b| - 1;
    assert s[|s| - 1] == b[n] && s[..|s| - 1] == a + b[..n];
    if IsSpace(b[n]) { TrimRightStops(a, b[..n]); }
  }

  predicate HasPrefix(s: string, prefix: string) { prefix <= s }

  /** strings.Split(s, sep) for a one-character separator. */
  function Split(s: string, sep: char): (parts: seq<string>)
    ensures |parts| > 0
    ensures forall i | 0 <= i < |parts| :: sep !in parts[i]
  {
    if s == "" then [""]
    else
      var rest := Split(s[1..], sep);
      if s[0] == sep then [""] + rest else [[s[0]] + rest[0]] + rest[1..]
  }

  function Join(parts: seq<string>, sep: char): string {
    if parts == [] then "" else if |parts| == 1 then parts[0] else parts[0] + [sep] + Join(parts[1..], sep)
  }

  lemma {:induction false} JoinSplit(s: string, sep: char)
    ensures Join(Split(s, sep), sep) == s
  {
    if s != "" {
      JoinSplit(s[1..], sep);
      var rest := Split(s[1..], sep);
      if s[0] == sep {
        assert Split(s, sep)[1..] == rest;
      } else {
        var parts := Split(s, sep);
        assert parts[1..] == rest[1..];
        assert s == [s[0]] + s[1..];
        if |rest| > 1 { assert Join(parts, sep) == [s[0]] + (rest[0] + [sep] + Join(rest[1..], sep)); }
      }
    }
  }

  lemma {:induction false} SplitPrefix(a: string, rest: string, sep: char)
    requires sep !in a
    ensures Split(a + [sep] + rest, sep) == [a] + Split(rest, sep)
    ensures Split(a, sep) == [a]
  {
    if a == "" {
      assert a + [sep] + rest == [sep] + rest;
    } else {
      SplitPrefix(a[1..], rest, sep);
      var s := a + [sep] + rest;
      assert s[1..] == a[1..] + [sep] + rest && s[0] == a[0];
      assert [a[0]] + a[1..] == a;
      assert Split(s, sep) == [[a[0]] + a[1..]] + Split(rest, sep);
    }
  }

  lemma {:induction false} SplitJoin(parts: seq<string>, sep: char)
    requires parts != [] && forall i | 0 <= i < |parts| :: sep !in parts[i]
    ensures Split(Join(parts, sep), sep) == parts
  {
    if |parts| == 1 {
      SplitPrefix(parts[0], "", sep);
    } else {
      SplitJoin(parts[1..], sep);
      SplitPrefix(parts[0], Join(parts[1..], sep), sep);
      assert Join(parts, sep) == parts[0] + [sep] + Join(parts[1..], sep);
      assert parts == [parts[0]] + parts[1..];
    }
  }

  /** One more character in front of split parts: it starts a part or extends the first. */
  function Prefixed(c: char, parts: seq<string>, sep: char): seq<string>
    requires parts != []
  {
    if c == sep then [""] + parts else [[c] + parts[0]] + parts[1..]
  }

  lemma SplitCons(s: string, sep: char)
    requires s != ""
    ensures Split(s, sep) == Prefixed(s[0], Split(s[1..], sep), sep)
  {
  }

  lemma PrefixedAppend(c: char, parts: seq<string>, tail: seq<string>, sep: char)
    requires parts != []
    ensures Prefixed(c, parts + tail, sep) == Prefixed(c, parts, sep) + tail
  {
  }

  lemma {:induction false} SplitAppend(a: string, b: string, sep: char)
    ensures Split(a + [sep] + b, sep) == Split(a, sep) + Split(b, sep)
  {
    var s := a + [sep] + b;
    SplitCons(s, sep);
    if a == "" {
      assert s[1..] == b;
    } else {
      SplitAppend(a[1..], b, sep);
      assert s[1..] == a[1..] + [sep] + b;
      SplitCons(a, sep);
      PrefixedAppend(a[0], Split(a[1..], sep), Split(b, sep), sep);
    }
  }

  lemma {:induction false} SplitWhole(a: string, sep: char)
    requires sep !in a
    ensures Split(a, sep) == [a]
  {
    SplitPrefix(a, "", sep);
  }

  /** strings.LastIndex for one character; -1 when absent. */
  function LastIndex(s: string, c: char): (i: int)
    ensures -1 <= i < |s|
    ensures i >= 0 ==> s[i] == c
    ensures forall k | i < k < |s| :: s[k] != c
  {
    if s == "" then -1 else if s[|s| - 1] == c then |s| - 1 else LastIndex(s[..|s| - 1], c)
  }

  /** strings.Index for one character; -1 when absent. */
  function Index(s: string, c: char): (i: int)
    ensures -1 <= i < |s|
    ensures i >= 0 ==> s[i] == c
    ensures forall k | 0 <= k < |s| && (i < 0 || k < i) :: s[k] != c
  {
    if s == "" then -1 else if s[0] == c then 0
    else var i := Index(s[1..], c); if i < 0 then -1 else i + 1
  }

  predicate ContainsAt(s: string, sub: string, i: nat) {
    i + |sub| <= |s| && s[i..i + |sub|] == sub
  }

  predicate Contains(s: string, sub: string) {
    exists i: nat | i <= |s| :: ContainsAt(s, sub, i)
  }

  // ----- order and sorting -----

  /** Go's <= on strings. */
  predicate LessEq(a: string, b: string) {
    a == "" || (b != "" && (a[0] < b[0] || (a[0] == b[0] && LessEq(a[1..], b[1..]))))
  }

  lemma {:induction false} LessEqTotal(a: string, b: string)
    ensures LessEq(a, b) || LessEq(b, a)
    ensures LessEq(a, b) && LessEq(b, a) ==> a == b
  {
    if a != "" && b != "" && a[0] == b[0] {
      LessEqTotal(a[1..], b[1..]);
      assert a == [a[0]] + a[1..] && b == [b[0]] + b[1..];
    }
  }

  lemma {:induction false} LessEqTransitive(a: string, b: string, c: string)
    requires LessEq(a, b) && LessEq(b, c)
    ensures LessEq(a, c)
  {
    if a != "" && a[0] == b[0] == c[0] { LessEqTransitive(a[1..], b[1..], c[1..]); }
  }

  ghost predicate IsSorted(s: seq<string>) {
    forall i, j | 0 <= i < j < |s| :: LessEq(s[i], s[j])
  }

  function Insert(x: string, s: seq<string>): seq<string> {
    if s == [] || LessEq(x, s[0]) then [x] + s else [s[0]] + Insert(x, s[1..])
  }

  /** sort.Strings */
  function Sort(s: seq<string>): seq<string> {
    if s == [] then [] else Insert(s[0], Sort(s[1..]))
  }

  lemma {:induction false} InsertAdds(x: string, s: seq<string>)
    ensures multiset(Insert(x, s)) == multiset(s) + multiset{x}
  {
    if s != [] && !LessEq(x, s[0]) {
      InsertAdds(x, s[1..]);
      assert s == [s[0]] + s[1..];
    }
  }

  lemma {:induction false} InsertSorts(x: string, s: seq<string>)
    requires IsSorted(s)
    ensures IsSorted(Insert(x, s))
  {
    if s == [] {
    } else if LessEq(x, s[0]) {
      forall i | 0 <= i < |s| ensures LessEq(x, s[i]) { if i > 0 { LessEqTransitive(x, s[0], s[i]); } }
    } else {
      InsertSorts(x, s[1..]);
      InsertAdds(x, s[1..]);
      LessEqTotal(x, s[0]);
      var rest := Insert(x, s[1..]);
      forall i | 0 <= i < |rest| ensures LessEq(s[0], rest[i]) {
        assert rest[i] in multiset(rest);
        assert rest[i] == x || rest[i] in s[1..];
      }
    }
  }

  lemma {:induction false} SortSorts(s: seq<string>)
    ensures IsSorted(Sort(s)) && multiset(Sort(s)) == multiset(s)
  {
    if s != [] {
      SortSorts(s[1..]);
      InsertSorts(s[0], Sort(s[1..]));
      InsertAdds(s[0], Sort(s[1..]));
      assert s == [s[0]] + s[1..];
    }
  }

  /** There is only one sorted arrangement, so every sorting routine gives this one. */
  lemma {:induction false} SortedIsUnique(a: seq<string>, b: seq<string>)
    requires IsSorted(a) && IsSorted(b) && multiset(a) == multiset(b)
    ensures a == b
  {
    assert |multiset(a)| == |multiset(b)|;
    if a != [] {
      assert a[0] in multiset(b);
      assert b[0] in multiset(a);
      SameLeast(a, b);
      assert a == [a[0]] + a[1..] && b == [b[0]] + b[1..];
      assert multiset(a[1..]) == multiset(a) - multiset{a[0]};
      assert multiset(b[1..]) == multiset(b) - multiset{b[0]};
      SortedIsUnique(a[1..], b[1..]);
    }
  }

  lemma SameLeast(a: seq<string>, b: seq<string>)
    requires IsSorted(a) && IsSorted(b) && a != [] && b != [] && a[0] in b && b[0] in a
    ensures a[0] == b[0]
  {
    var i :| 0 <= i < |b| && b[i] == a[0];
    var j :| 0 <= j < |a| && a[j] == b[0];
    LessEqTotal(a[0], b[0]);
  }
}
