/** Regular expressions as the parser's patterns use them, and what they match. */
module Grammar {
  import opened Wrappers
  import opened Text
  import opened ImageReference

  /** One character of a set, a run of such characters, one thing after another, any number of times. */
  datatype Regex =
    | One(chars: set<char>)
    | Many(chars: set<char>, low: nat, high: Option<nat>)
    | Then(first: Regex, second: Regex)
    | Star(body: Regex)

  ghost predicate Matches(r: Regex, s: string)
    decreases r, |s|
  {
    match r
    case One(chars) => |s| == 1 && s[0] in chars
    case Many(chars, low, high) => low <= |s| && (high.Some? ==> |s| <= high.value) && forall i | 0 <= i < |s| ::
      s[i] in chars
    case Then(first, second) => exists k | 0 <= k <= |s| :: Matches(first, s[..k]) && Matches(second, s[k..])
    case Star(body) => s == "" || exists k | 0 < k <= |s| :: Matches(body, s[..k]) && Matches(r, s[k..])
  }

  const LOWER: set<char> := set c: char | 'a' <= c <= 'z'
  const UPPER: set<char> := set c: char | 'A' <= c <= 'Z'
  const DIGIT: set<char> := set c: char | '0' <= c <= '9'
  const NAME_CHARS: set<char> := LOWER + DIGIT
  const WORD_CHARS: set<char> := LOWER + UPPER + DIGIT + {'_'}
  const HEX: set<char> := DIGIT + (set c: char | 'a' <= c <= 'f') + (set c: char | 'A' <= c <= 'F')

  /** [._-][a-z0-9]+ */
  const SEGMENT := Then(One({'.', '_', '-'}), Many(NAME_CHARS, 1, None))

  /** [a-z0-9]+(?:[._-][a-z0-9]+)* */
  const NAME_PART := Then(Many(NAME_CHARS, 1, None), Star(SEGMENT))

  /** [A-Za-z0-9_][A-Za-z0-9_.-]{0,127} */
  const TAG := Then(One(WORD_CHARS), Many(WORD_CHARS + {'.', '-'}, 0, Some(127)))

  /** [A-Za-z][A-Za-z0-9_+.-]*:[A-Fa-f0-9]{32,} */
  const DIGEST := Then(One(LOWER + UPPER), Then(Many(WORD_CHARS + {'+', '.', '-'}, 0, None), COLON_HEX))
  const COLON_HEX := Then(One({':'}), Many(HEX, 32, None))

  lemma TagMatches(s: string)
    ensures Tag(s) <==> Matches(TAG, s)
  {
    if Tag(s) {
      assert Matches(One(WORD_CHARS), s[..1]) && Matches(Many(WORD_CHARS + {'.', '-'}, 0, Some(127)), s[1..]);
    }
    if Matches(TAG, s) {
      var k :| 0 <= k <= |s| && Matches(One(WORD_CHARS), s[..k])
        && Matches(Many(WORD_CHARS + {'.', '-'}, 0, Some(127)), s[k..]);
      assert s == s[..1] + s[1..];
      forall i | 0 < i < |s| ensures IsWord(s[i]) || s[i] == '.' || s[i] == '-' { assert s[i] == s[k..][i - 1]; }
    }
  }

  lemma ColonHexMatches(s: string)
    ensures Matches(COLON_HEX, s) <==> |s| >= 33 && s[0] == ':' && forall i | 0 < i < |s| :: IsHex(s[i])
  {
    if |s| >= 33 && s[0] == ':' && forall i | 0 < i < |s| :: IsHex(s[i]) {
      assert Matches(One({':'}), s[..1]) && Matches(Many(HEX, 32, None), s[1..]);
    }
    if Matches(COLON_HEX, s) {
      var k :| 0 <= k <= |s| && Matches(One({':'}), s[..k]) && Matches(Many(HEX, 32, None), s[k..]);
      forall i | 0 < i < |s| ensures IsHex(s[i]) { assert s[i] == s[k..][i - 1]; }
    }
  }

  predicate IsAlgorithmChar(c: char) { IsWord(c) || c == '+' || c == '.' || c == '-' }

  lemma AlgorithmMatches(s: string)
    ensures Matches(Then(Many(WORD_CHARS + {'+', '.', '-'}, 0, None), COLON_HEX), s) <==>
      exists k | 0 <= k <= |s| :: (forall i | 0 <= i < k :: IsAlgorithmChar(s[i])) && Matches(COLON_HEX, s[k..])
  {
    var run := Many(WORD_CHARS + {'+', '.', '-'}, 0, None);
    forall k | 0 <= k <= |s| ensures Matches(run, s[..k]) <==> forall i | 0 <= i < k :: IsAlgorithmChar(s[i]) {
      if Matches(run, s[..k]) { forall i | 0 <= i < k ensures IsAlgorithmChar(s[i]) { assert s[..k][i] == s[i]; } }
    }
  }

  lemma DigestMatches(s: string)
    ensures Digest(s) <==> Matches(DIGEST, s)
  {
    if Digest(s) {
      var colon := Index(s, ':');
      var rest := s[1..];
      ColonHexMatches(rest[colon - 1..]);
      assert forall i | 0 <= i < colon - 1 :: IsAlgorithmChar(rest[i]);
      AlgorithmMatches(rest);
      assert Matches(One(LOWER + UPPER), s[..1]);
    }
    if Matches(DIGEST, s) {
      var k :| 0 <= k <= |s| && Matches(One(LOWER + UPPER), s[..k])
        && Matches(Then(Many(WORD_CHARS + {'+', '.', '-'}, 0, None), COLON_HEX), s[k..]);
      var rest := s[1..];
      assert s[k..] == rest;
      AlgorithmMatches(rest);
      var m :| 0 <= m <= |rest| && (forall i | 0 <= i < m :: IsAlgorithmChar(rest[i])) && Matches(COLON_HEX, rest[m..]);
      ColonHexMatches(rest[m..]);
      DigestFrom(s, m + 1);
    }
  }

  lemma DigestFrom(s: string, colon: nat)
    requires 0 < colon && colon + 33 <= |s| && s[colon] == ':' && (IsLower(s[0]) || IsUpper(s[0]))
    requires (forall i | 0 < i < colon :: IsAlgorithmChar(s[i])) && forall i | colon < i < |s| :: IsHex(s[i])
    ensures Digest(s)
  {
    assert forall i | 0 <= i < colon :: s[i] != ':';
    IndexUnique(s, ':', colon);
  }

  // ----- name parts -----

  predicate IsWordRun(s: string) { s != "" && forall i | 0 <= i < |s| :: IsNameChar(s[i]) }

  /** Separators only between name characters, one at a time. */
  predicate NoTwoSeparators(s: string) {
    forall i, j | 0 <= i < |s| && 0 <= j < |s| && j == i + 1 :: IsNameChar(s[i]) || IsNameChar(s[j])
  }

  predicate Tail(s: string) {
    s != "" ==>
      && IsSeparator(s[0]) && IsNameChar(s[|s| - 1]) && NoTwoSeparators(s)
      && forall i | 0 <= i < |s| :: IsNameChar(s[i]) || IsSeparator(s[i])
  }

  lemma SegmentMatches(s: string)
    ensures Matches(SEGMENT, s) <==> |s| > 1 && IsSeparator(s[0]) && IsWordRun(s[1..])
  {
    if |s| > 1 && IsSeparator(s[0]) && IsWordRun(s[1..]) {
      assert Matches(One({'.', '_', '-'}), s[..1]) && Matches(Many(NAME_CHARS, 1, None), s[1..]);
    }
    if Matches(SEGMENT, s) {
      var k :| 0 <= k <= |s| && Matches(One({'.', '_', '-'}), s[..k]) && Matches(Many(NAME_CHARS, 1, None), s[k..]);
      assert s[k..] == s[1..];
    }
  }

  /** The length of the run of name characters at the start. */
  function RunLength(s: string): (n: nat)
    ensures n <= |s| && (n < |s| ==> !IsNameChar(s[n])) && forall i | 0 <= i < n :: IsNameChar(s[i])
  {
    if s == "" || !IsNameChar(s[0]) then 0 else 1 + RunLength(s[1..])
  }

  lemma {:induction false} TailMatches(s: string)
    requires Tail(s)
    ensures Matches(Star(SEGMENT), s)
    decreases |s|
  {
    if s != "" {
      assert |s| > 1 && IsNameChar(s[1]);
      var k := 1 + RunLength(s[1..]);
      assert k > 1 && forall i | 1 <= i < k :: IsNameChar(s[i]) by {
        forall i | 1 <= i < k ensures IsNameChar(s[i]) { assert s[1..][i - 1] == s[i]; }
      }
      assert IsWordRun(s[..k][1..]);
      SegmentMatches(s[..k]);
      RestIsTail(s, k);
      TailMatches(s[k..]);
    }
  }

  lemma RestIsTail(s: string, k: nat)
    requires Tail(s) && 1 < k <= |s| && (k < |s| ==> !IsNameChar(s[k]))
    ensures Tail(s[k..])
  {
  }

  lemma {:induction false} MatchesTail(s: string)
    requires Matches(Star(SEGMENT), s)
    ensures Tail(s)
    decreases |s|
  {
    if s != "" {
      var k :| 0 < k <= |s| && Matches(SEGMENT, s[..k]) && Matches(Star(SEGMENT), s[k..]);
      SegmentMatches(s[..k]);
      MatchesTail(s[k..]);
      TailsJoin(s, k);
    }
  }

  lemma TailsJoin(s: string, k: nat)
    requires 1 < k <= |s| && IsSeparator(s[0]) && IsWordRun(s[..k][1..]) && Tail(s[k..])
    ensures Tail(s)
  {
    forall i | 1 <= i < k ensures IsNameChar(s[i]) { assert s[..k][1..][i - 1] == s[i]; }
    forall i | k <= i < |s| ensures s[i] == s[k..][i - k] { }
    forall i, j | 0 <= i < |s| && 0 <= j < |s| && j == i + 1 ensures IsNameChar(s[i]) || IsNameChar(s[j]) {
      if i >= k { assert IsNameChar(s[k..][i - k]) || IsNameChar(s[k..][j - k]); }
    }
  }

  lemma NamePartMatches(s: string)
    ensures NamePart(s) <==> |s| <= 255 && Matches(NAME_PART, s)
  {
    var run := Many(NAME_CHARS, 1, None);
    if NamePart(s) {
      var k := RunLength(s);
      assert Matches(run, s[..k]);
      assert Tail(s[k..]) by {
        if k < |s| { forall i | k <= i < |s| ensures s[k..][i - k] == s[i] { } }
      }
      TailMatches(s[k..]);
    }
    if |s| <= 255 && Matches(NAME_PART, s) {
      var k :| 0 <= k <= |s| && Matches(run, s[..k]) && Matches(Star(SEGMENT), s[k..]);
      MatchesTail(s[k..]);
      RunThenTail(s, k);
    }
  }

  lemma RunThenTail(s: string, k: nat)
    requires 0 < k <= |s| <= 255 && IsWordRun(s[..k]) && Tail(s[k..])
    ensures NamePart(s)
  {
    forall i | 0 <= i < k ensures IsNameChar(s[i]) { assert s[..k][i] == s[i]; }
    forall i | k <= i < |s| ensures s[i] == s[k..][i - k] { }
    forall i, j | 0 <= i < |s| && 0 <= j < |s| && j == i + 1 ensures IsNameChar(s[i]) || IsNameChar(s[j]) {
      if i >= k { assert IsNameChar(s[k..][i - k]) || IsNameChar(s[k..][j - k]); }
    }
  }
}
