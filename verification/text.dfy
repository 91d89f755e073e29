/** The JavaScript string operations the application relies on, over
    `string` (a sequence of UTF-16 code units is approximated by a sequence
    of `char`). */
module Text {

  /** `s.startsWith(p)`. */
  predicate StartsWith(s: string, p: string)
  {
    |p| <= |s| && s[..|p|] == p
  }

  /** `s.includes(p)`: tries every start position from the left. The empty
      string is included in every string. */
  predicate Includes(s: string, p: string)
    decreases |s|
  {
    StartsWith(s, p) || (|s| > 0 && Includes(s[1..], p))
  }

  /** Reference meaning of an occurrence: `p` sits in `s` at index `i`. */
  ghost predicate OccursAt(s: string, p: string, i: int)
  {
    0 <= i && i + |p| <= |s| && s[i..i + |p|] == p
  }

  /** `Includes` holds exactly when `p` occurs at some index of `s`. */
  lemma {:induction false} IncludesIff(s: string, p: string)
    ensures Includes(s, p) <==> exists i :: OccursAt(s, p, i)
    decreases |s|
  {
    if StartsWith(s, p) {
      assert OccursAt(s, p, 0);
    } else if |s| > 0 {
      IncludesIff(s[1..], p);
      if Includes(s[1..], p) {
        var j :| OccursAt(s[1..], p, j);
        assert s[1..][j..j + |p|] == s[j + 1..j + 1 + |p|];
        assert OccursAt(s, p, j + 1);
      }
      if exists i :: OccursAt(s, p, i) {
        var i :| OccursAt(s, p, i);
        assert i != 0;
        assert s[1..][i - 1..i - 1 + |p|] == s[i..i + |p|];
        assert OccursAt(s[1..], p, i - 1);
      }
    }
  }

  /** A substring of a substring is a substring. */
  lemma IncludesTransitive(a: string, b: string, c: string)
    requires Includes(a, b) && Includes(b, c)
    ensures Includes(a, c)
  {
    IncludesIff(a, b);
    IncludesIff(b, c);
    IncludesIff(a, c);
    var i :| OccursAt(a, b, i);
    var j :| OccursAt(b, c, j);
    forall k | 0 <= k < |c|
      ensures a[i + j + k] == c[k]
    {
      assert c[k] == b[j + k] == a[i + j + k];
    }
    assert a[i + j..i + j + |c|] == c;
    assert OccursAt(a, c, i + j);
  }

  /** A string includes every longer pattern's prefix it includes the pattern of. */
  lemma IncludesPrefixOfPattern(s: string, p: string, q: string)
    requires Includes(s, p + q)
    ensures Includes(s, p)
  {
    assert (p + q)[..|p|] == p;
    assert StartsWith(p + q, p);
    IncludesTransitive(s, p + q, p);
  }

  /** Applies a per-character map to every character (a model of
      `toLowerCase` that ignores context-dependent and length-changing
      mappings). */
  function MapChars(s: string, f: char -> char): string
  {
    seq(|s|, i requires 0 <= i < |s| => f(s[i]))
  }

  /** A per-character map preserves occurrences. */
  lemma IncludesMapChars(s: string, p: string, f: char -> char)
    requires Includes(s, p)
    ensures Includes(MapChars(s, f), MapChars(p, f))
  {
    IncludesIff(s, p);
    var i :| OccursAt(s, p, i);
    var ms, mp := MapChars(s, f), MapChars(p, f);
    assert ms[i..i + |p|] == mp;
    assert OccursAt(ms, mp, i);
    IncludesIff(ms, mp);
  }

  /** `s.replace(/p/g, "")` for a pattern `p` without regular-expression
      metacharacters: matches are found from the left, without overlap, and
      deleted. */
  function RemoveAll(s: string, p: string): (r: string)
    requires |p| > 0
    ensures |r| <= |s|
    ensures !Includes(s, p) ==> r == s
    decreases |s|
  {
    if |s| == 0 then ""
    else if StartsWith(s, p) then RemoveAll(s[|p|..], p)
    else [s[0]] + RemoveAll(s[1..], p)
  }

  /** The Markdown code-fence marker. */
  const Fence: string := "```"

  /** Deleting fences never puts a backtick at the front that was not there. */
  lemma LeadingBacktickSurvives(t: string)
    requires StartsWith(RemoveAll(t, Fence), "`")
    ensures StartsWith(t, "`")
  {
  }

  /** Deleting fences never puts two backticks at the front that were not there. */
  lemma {:induction false} DoubleBacktickSurvives(t: string)
    requires StartsWith(RemoveAll(t, Fence), "``")
    ensures StartsWith(t, "``")
  {
    if !StartsWith(t, Fence) {
      var rest := RemoveAll(t[1..], Fence);
      var r := RemoveAll(t, Fence);
      assert r == [t[0]] + rest;
      assert r[1] == rest[0];
      assert rest[..1] == "`";
      LeadingBacktickSurvives(t[1..]);
    }
  }

  /** After a global deletion of "```" no "```" is left: a run of backticks
      shrinks to its length modulo three. */
  lemma {:induction false} NoFenceAfterRemoval(s: string)
    ensures !Includes(RemoveAll(s, Fence), Fence)
    decreases |s|
  {
    if |s| == 0 {
    } else if StartsWith(s, Fence) {
      NoFenceAfterRemoval(s[|Fence|..]);
    } else {
      var rest := RemoveAll(s[1..], Fence);
      var r := RemoveAll(s, Fence);
      assert r == [s[0]] + rest;
      assert r[1..] == rest;
      NoFenceAfterRemoval(s[1..]);
      if StartsWith(rest, "``") {
        DoubleBacktickSurvives(s[1..]);
        assert s[..3] == [s[0]] + s[1..][..2];
      }
    }
  }

  /** A pattern that occurs in `s` contributes its first character to `s`. */
  lemma IncludesFirstChar(s: string, p: string)
    requires |p| > 0 && Includes(s, p)
    ensures p[0] in s
  {
    IncludesIff(s, p);
    var i :| OccursAt(s, p, i);
    assert s[i] == s[i..i + |p|][0];
  }

  /** Text without backticks has no fence to delete. */
  lemma NoBacktickNoFence(s: string, p: string)
    requires '`' !in s && |p| > 0 && p[0] == '`'
    ensures RemoveAll(s, p) == s
  {
    if Includes(s, p) {
      IncludesFirstChar(s, p);
    }
  }

  /** Deleting the fences of text without backticks followed by one closing
      fence leaves the text. */
  lemma {:induction false} RemoveClosingFence(s: string)
    requires '`' !in s
    ensures RemoveAll(s + Fence, Fence) == s
    decreases |s|
  {
    if |s| == 0 {
      assert s + Fence == Fence;
      assert (s + Fence)[|Fence|..] == "";
    } else {
      assert (s + Fence)[0] == s[0];
      assert (s + Fence)[1..] == s[1..] + Fence;
      RemoveClosingFence(s[1..]);
      assert s == [s[0]] + s[1..];
    }
  }

  /** ECMAScript WhiteSpace and LineTerminator code points: what `trim` removes. */
  predicate IsWhitespace(c: char)
  {
    || c == '\t' || c == '\n' || c == '\U{000B}' || c == '\U{000C}' || c == '\r'
    || c == ' ' || c == '\U{00A0}' || c == '\U{1680}' || ('\U{2000}' <= c <= '\U{200A}')
    || c == '\U{2028}' || c == '\U{2029}' || c == '\U{202F}' || c == '\U{205F}'
    || c == '\U{3000}' || c == '\U{FEFF}'
  }

  ghost predicate AllWhitespace(s: string)
  {
    forall i :: 0 <= i < |s| ==> IsWhitespace(s[i])
  }

  /** Drops leading whitespace. */
  function TrimStart(s: string): (r: string)
    ensures |r| <= |s| && r == s[|s| - |r|..]
    ensures AllWhitespace(s[..|s| - |r|])
    ensures |r| > 0 ==> !IsWhitespace(r[0])
    decreases |s|
  {
    if |s| > 0 && IsWhitespace(s[0]) then TrimStart(s[1..]) else s
  }

  /** Drops trailing whitespace. */
  function TrimEnd(s: string): (r: string)
    ensures |r| <= |s| && r == s[..|r|]
    ensures AllWhitespace(s[|r|..])
    ensures |r| > 0 ==> !IsWhitespace(r[|r| - 1])
    decreases |s|
  {
    if |s| > 0 && IsWhitespace(s[|s| - 1]) then TrimEnd(s[..|s| - 1]) else s
  }

  /** `r` is `s` with the whitespace `s[..k]` and `s[k + |r|..]` cut off. */
  ghost predicate TrimmedAt(s: string, r: string, k: int)
  {
    0 <= k && k + |r| <= |s| && s[k..k + |r|] == r
    && AllWhitespace(s[..k]) && AllWhitespace(s[k + |r|..])
  }

  /** `s.trim()`: the unique slice of `s` that neither starts nor ends with
      whitespace and is surrounded by whitespace only. */
  function Trim(s: string): (r: string)
    ensures |r| > 0 ==> !IsWhitespace(r[0]) && !IsWhitespace(r[|r| - 1])
    ensures exists k :: TrimmedAt(s, r, k)
  {
    var t := TrimStart(s);
    var r := TrimEnd(t);
    var k := |s| - |t|;
    assert s[k..k + |r|] == r;
    assert s[k + |r|..] == t[|r|..];
    assert TrimmedAt(s, r, k);
    r
  }

  /** Trimming twice is trimming once. */
  lemma TrimIdempotent(s: string)
    ensures Trim(Trim(s)) == Trim(s)
  {
    var t := Trim(s);
    assert TrimStart(t) == t;
    assert TrimEnd(t) == t;
  }

  /** `s.split(sep)[0]` for a one-character separator: everything before the
      first `sep`, or all of `s` when there is none. */
  function FirstSegment(s: string, sep: char): (r: string)
    ensures sep !in r
    ensures StartsWith(s, r)
    ensures |r| == |s| || s[|r|] == sep
    decreases |s|
  {
    if |s| == 0 || s[0] == sep then "" else [s[0]] + FirstSegment(s[1..], sep)
  }

  /** The contract of `FirstSegment` determines its result. */
  lemma {:induction false} FirstSegmentUnique(s: string, sep: char, r: string)
    requires sep !in r && StartsWith(s, r) && (|r| == |s| || s[|r|] == sep)
    ensures r == FirstSegment(s, sep)
    decreases |s|
  {
    if |s| > 0 && s[0] != sep {
      assert r[0] == s[0];
      assert s[1..][..|r| - 1] == r[1..];
      FirstSegmentUnique(s[1..], sep, r[1..]);
    }
  }

  function SumLengths(parts: seq<string>): nat
  {
    if |parts| == 0 then 0 else |parts[0]| + SumLengths(parts[1..])
  }

  /** `parts.join(sep)`. */
  function Join(parts: seq<string>, sep: string): (r: string)
    ensures |parts| == 0 ==> r == ""
    ensures |parts| > 0 ==> |r| == SumLengths(parts) + (|parts| - 1) * |sep|
    ensures |parts| > 0 ==> StartsWith(r, parts[0])
  {
    if |parts| == 0 then ""
    else if |parts| == 1 then parts[0]
    else parts[0] + sep + Join(parts[1..], sep)
  }

  /** Joining is built up left to right: one more part adds a separator and
      the part at the end. */
  lemma {:induction false} JoinSnoc(parts: seq<string>, sep: string, x: string)
    requires |parts| > 0
    ensures Join(parts + [x], sep) == Join(parts, sep) + sep + x
    decreases |parts|
  {
    if |parts| == 1 {
      assert parts + [x] == [parts[0], x];
      assert [parts[0], x][1..] == [x];
    } else {
      assert (parts + [x])[1..] == parts[1..] + [x];
      JoinSnoc(parts[1..], sep, x);
    }
  }
}
