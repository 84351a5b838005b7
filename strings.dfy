/** The three JavaScript string operations the recommendation text is built with:
    `Array.prototype.join`, `String.prototype.split` and `String.prototype.trim`. */
module Strings {

  /** `parts.join(sep)`: the empty array joins to the empty string. */
  function Join(parts: seq<string>, sep: string): string
  {
    if |parts| == 0 then ""
    else if |parts| == 1 then parts[0]
    else parts[0] + sep + Join(parts[1..], sep)
  }

  /** `s.split(sep)` for a non-empty separator: occurrences are found left to right without
      overlap, and the result always has at least one piece (`"".split(sep)` is `[""]`). */
  function Split(s: string, sep: string): (r: seq<string>)
    requires |sep| > 0
    ensures |r| > 0
    decreases |s|
  {
    if |s| < |sep| then [s]
    else if s[..|sep|] == sep then [""] + Split(s[|sep|..], sep)
    else
      var rest := Split(s[1..], sep);
      [[s[0]] + rest[0]] + rest[1..]
  }

  /** A piece that does not contain the separator's first character is glued onto the
      first piece of whatever follows it. */
  lemma {:induction false} SplitPrefix(t: string, rest: string, sep: string)
    requires |sep| > 0 && sep[0] !in t
    ensures Split(t + rest, sep) == [t + Split(rest, sep)[0]] + Split(rest, sep)[1..]
    decreases |t|
  {
    var r := Split(rest, sep);
    assert r == [r[0]] + r[1..];
    if t == [] {
      assert t + rest == rest;
      assert t + r[0] == r[0];
    } else {
      var s := t + rest;
      assert s[0] == t[0];
      if |s| < |sep| {
        assert Split(rest, sep) == [rest];
      } else {
        assert s[..|sep|] != sep by { assert s[..|sep|][0] == t[0]; }
        assert s[1..] == t[1..] + rest;
        SplitPrefix(t[1..], rest, sep);
        assert [s[0]] + t[1..] == t;
        assert [s[0]] + (t[1..] + Split(rest, sep)[0]) == t + Split(rest, sep)[0];
      }
    }
  }

  /** Splitting a joined sequence gives the pieces back, provided no piece contains the
      separator's first character. */
  lemma {:induction false} SplitJoin(parts: seq<string>, sep: string)
    requires |sep| > 0 && |parts| > 0
    requires forall k :: 0 <= k < |parts| ==> sep[0] !in parts[k]
    ensures Split(Join(parts, sep), sep) == parts
  {
    if |parts| == 1 {
      SplitPrefix(parts[0], "", sep);
      assert parts[0] + "" == parts[0];
      assert Split("", sep) == [""];
      assert [parts[0]] == parts;
    } else {
      var tail := Join(parts[1..], sep);
      forall k | 0 <= k < |parts[1..]| ensures sep[0] !in parts[1..][k] {
        assert parts[1..][k] == parts[k + 1];
      }
      SplitJoin(parts[1..], sep);
      var u := sep + tail;
      assert u[..|sep|] == sep;
      assert u[|sep|..] == tail;
      assert Split(u, sep) == [""] + parts[1..];
      assert sep[0] !in parts[0];
      SplitPrefix(parts[0], u, sep);
      assert parts[0] + sep + tail == parts[0] + u;
      assert parts[0] + "" == parts[0];
      assert [parts[0]] + parts[1..] == parts;
    }
  }

  /** The characters `String.prototype.trim` removes: ECMAScript's WhiteSpace and
      LineTerminator code points (tab, line tabulation, form feed, space, no-break space,
      the byte order mark, the space separators of Unicode, and LF, CR, LS, PS). */
  const Whitespace: set<char> := {
    ' ', '\t', '\n', '\r', '\U{000B}', '\U{000C}', '\U{00A0}', '\U{1680}',
    '\U{2000}', '\U{2001}', '\U{2002}', '\U{2003}', '\U{2004}', '\U{2005}', '\U{2006}',
    '\U{2007}', '\U{2008}', '\U{2009}', '\U{200A}',
    '\U{2028}', '\U{2029}', '\U{202F}', '\U{205F}', '\U{3000}', '\U{FEFF}'}

  predicate IsWhitespace(c: char)
  {
    c in Whitespace
  }

  /** Neither the first nor the last character is whitespace. */
  predicate NoEdgeWhitespace(s: string)
  {
    s == [] || (!IsWhitespace(s[0]) && !IsWhitespace(s[|s| - 1]))
  }

  /** Every character is whitespace. */
  predicate AllWhitespace(s: string)
  {
    s == [] || (IsWhitespace(s[0]) && AllWhitespace(s[1..]))
  }

  lemma {:induction false} AllWhitespaceConcat(a: string, b: string)
    ensures AllWhitespace(a + b) <==> AllWhitespace(a) && AllWhitespace(b)
  {
    if a != [] {
      assert (a + b)[1..] == a[1..] + b;
      AllWhitespaceConcat(a[1..], b);
    } else {
      assert a + b == b;
    }
  }

  function TrimStart(s: string): (r: string)
    ensures |r| <= |s| && r == s[|s| - |r|..]
    ensures AllWhitespace(s[..|s| - |r|])
    ensures r == [] || !IsWhitespace(r[0])
  {
    if |s| > 0 && IsWhitespace(s[0]) then
      var r := TrimStart(s[1..]);
      assert s[..|s| - |r|] == [s[0]] + s[1..][..|s| - 1 - |r|];
      r
    else s
  }

  function TrimEnd(s: string): (r: string)
    ensures |r| <= |s| && r == s[..|r|]
    ensures AllWhitespace(s[|r|..])
    ensures r == [] || !IsWhitespace(r[|r| - 1])
  {
    if |s| > 0 && IsWhitespace(s[|s| - 1]) then
      var r := TrimEnd(s[..|s| - 1]);
      assert s[|r|..] == s[..|s| - 1][|r|..] + [s[|s| - 1]];
      AllWhitespaceConcat(s[..|s| - 1][|r|..], [s[|s| - 1]]);
      r
    else s
  }

  /** `r` is `s[i..i + |r|]` and everything of `s` outside that infix is whitespace. */
  predicate TrimmedAt(s: string, r: string, i: int)
  {
    0 <= i <= |s| - |r| && r == s[i..i + |r|]
    && AllWhitespace(s[..i]) && AllWhitespace(s[i + |r|..])
  }

  /** `s.trim()`: the infix of `s` that starts and ends with a non-whitespace character,
      everything outside it being whitespace. */
  function Trim(s: string): (r: string)
    ensures NoEdgeWhitespace(r)
    ensures exists i :: TrimmedAt(s, r, i)
  {
    TrimmedInfix(s);
    TrimEnd(TrimStart(s))
  }

  lemma TrimmedInfix(s: string)
    ensures TrimmedAt(s, TrimEnd(TrimStart(s)), |s| - |TrimStart(s)|)
  {
    var front := TrimStart(s);
    InfixOfSuffix(s, front, TrimEnd(front));
  }

  /** A prefix `r` of a suffix `front` of `s`, with whitespace cut off on both sides. */
  lemma InfixOfSuffix(s: string, front: string, r: string)
    requires |front| <= |s| && front == s[|s| - |front|..] && AllWhitespace(s[..|s| - |front|])
    requires |r| <= |front| && r == front[..|r|] && AllWhitespace(front[|r|..])
    ensures TrimmedAt(s, r, |s| - |front|)
  {
    var i := |s| - |front|;
    assert front[..|r|] == s[i..i + |r|];
    assert front[|r|..] == s[i + |r|..];
  }

  /** A string without outer whitespace is its own trim. */
  lemma TrimNoEdge(s: string)
    requires NoEdgeWhitespace(s)
    ensures Trim(s) == s
  {
  }

  /** `` `${a} ${b}`.trim() `` for two strings without outer whitespace: the space is kept
      only when both sides are non-empty. */
  lemma TrimSpaceJoined(a: string, b: string)
    requires NoEdgeWhitespace(a) && NoEdgeWhitespace(b)
    ensures Trim(a + " " + b) == if a == "" then b else if b == "" then a else a + " " + b
  {
    var s := a + " " + b;
    if a == "" && b == "" {
      assert s == " ";
      assert TrimStart(s) == TrimStart(s[1..]);
      assert s[1..] == "";
    } else if a == "" {
      assert s == " " + b && s[1..] == b;
      assert TrimStart(s) == b;
    } else if b == "" {
      assert s == a + " " && s[..|s| - 1] == a;
      assert s[0] == a[0];
      assert TrimStart(s) == s;
      assert TrimEnd(s) == TrimEnd(a);
    } else {
      assert s[0] == a[0] && s[|s| - 1] == b[|b| - 1];
      TrimNoEdge(s);
    }
  }

  /** Joining non-empty strings without outer whitespace gives a string without outer
      whitespace, empty only when there was nothing to join. */
  lemma {:induction false} JoinNoEdge(parts: seq<string>, sep: string)
    requires forall k :: 0 <= k < |parts| ==> parts[k] != "" && NoEdgeWhitespace(parts[k])
    ensures NoEdgeWhitespace(Join(parts, sep))
    ensures Join(parts, sep) == "" <==> parts == []
  {
    if |parts| > 1 {
      var tail := Join(parts[1..], sep);
      forall k | 0 <= k < |parts[1..]|
        ensures parts[1..][k] != "" && NoEdgeWhitespace(parts[1..][k])
      {
        assert parts[1..][k] == parts[k + 1];
      }
      JoinNoEdge(parts[1..], sep);
      var s := parts[0] + sep + tail;
      assert s[0] == parts[0][0];
      assert s[|s| - 1] == tail[|tail| - 1];
    }
  }
}
