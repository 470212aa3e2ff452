/** The pieces of Python's `str` that the service relies on: `strip()`,
    `sep.join(lines)` and, as the inverse of `join`, `s.split(sep)`. */
module PyText {

  /** `c.isspace()`: the characters `str.strip()` removes when called with
      no argument. */
  predicate IsSpace(c: char)
  {
    || ('\t' <= c <= '\r')
    || ('\U{1C}' <= c <= '\U{1F}')
    || c == ' '
    || c == '\U{85}'
    || c == '\U{A0}'
    || c == '\U{1680}'
    || ('\U{2000}' <= c <= '\U{200A}')
    || c == '\U{2028}'
    || c == '\U{2029}'
    || c == '\U{202F}'
    || c == '\U{205F}'
    || c == '\U{3000}'
  }

  ghost predicate AllSpace(s: string)
  {
    forall i :: 0 <= i < |s| ==> IsSpace(s[i])
  }

  /** Neither end of `s` is whitespace. */
  predicate IsStripped(s: string)
  {
    s == [] || (!IsSpace(s[0]) && !IsSpace(s[|s| - 1]))
  }

  /** `s.lstrip()`: the suffix left after dropping every leading space. */
  function TrimStart(s: string): (r: string)
    ensures |r| <= |s|
    ensures r == s[|s| - |r|..]
    ensures AllSpace(s[..|s| - |r|])
    ensures r == [] || !IsSpace(r[0])
  {
    if |s| > 0 && IsSpace(s[0]) then
      var r := TrimStart(s[1..]);
      assert s[..|s| - |r|] == [s[0]] + s[1..][..|s| - 1 - |r|];
      r
    else
      s
  }

  /** `s.rstrip()`: the prefix left after dropping every trailing space. */
  function TrimEnd(s: string): (r: string)
    ensures |r| <= |s|
    ensures r == s[..|r|]
    ensures AllSpace(s[|r|..])
    ensures r == [] || !IsSpace(r[|r| - 1])
  {
    if |s| > 0 && IsSpace(s[|s| - 1]) then
      var r := TrimEnd(s[..|s| - 1]);
      assert s[|r|..] == s[..|s| - 1][|r|..] + [s[|s| - 1]];
      r
    else
      s
  }

  /** Where `Strip(s)` starts inside `s`. */
  function StripStart(s: string): nat
  {
    |s| - |TrimStart(s)|
  }

  /** `s.strip()`: `s` with whitespace removed from both ends.  The result is a
      slice of `s`, everything cut away is whitespace, and neither end of the
      result is whitespace. */
  function Strip(s: string): (r: string)
    ensures StripStart(s) + |r| <= |s|
    ensures r == s[StripStart(s)..StripStart(s) + |r|]
    ensures AllSpace(s[..StripStart(s)])
    ensures AllSpace(s[StripStart(s) + |r|..])
    ensures IsStripped(r)
  {
    var t := TrimStart(s);
    var r := TrimEnd(t);
    assert s[StripStart(s)..] == t;
    assert s[StripStart(s) + |r|..] == t[|r|..];
    r
  }

  lemma {:induction false} TrimStartOfSpacedText(a: string, t: string)
    requires AllSpace(a)
    requires t == [] || !IsSpace(t[0])
    ensures TrimStart(a + t) == t
    decreases |a|
  {
    if |a| > 0 {
      assert (a + t)[1..] == a[1..] + t;
      TrimStartOfSpacedText(a[1..], t);
    } else {
      assert a + t == t;
    }
  }

  lemma {:induction false} TrimEndOfSpacedText(t: string, b: string)
    requires AllSpace(b)
    requires t == [] || !IsSpace(t[|t| - 1])
    ensures TrimEnd(t + b) == t
    decreases |b|
  {
    if |b| > 0 {
      assert (t + b)[..|t + b| - 1] == t + b[..|b| - 1];
      TrimEndOfSpacedText(t, b[..|b| - 1]);
    } else {
      assert t + b == t;
    }
  }

  /** `strip()` is determined by its meaning: whenever `s` is some whitespace,
      then a text with no whitespace at either end, then more whitespace, the
      stripped result is exactly that text. */
  lemma StripUnique(s: string, lead: string, m: string, trail: string)
    requires s == lead + m + trail
    requires AllSpace(lead) && AllSpace(trail)
    requires IsStripped(m)
    ensures Strip(s) == m
  {
    if m == [] {
      assert AllSpace(s);
      TrimStartOfSpacedText(s, []);
      assert s + [] == s;
    } else {
      assert s == lead + (m + trail);
      TrimStartOfSpacedText(lead, m + trail);
      TrimEndOfSpacedText(m, trail);
    }
  }

  /** Stripping twice is stripping once. */
  lemma StripIdempotent(s: string)
    ensures Strip(Strip(s)) == Strip(s)
  {
    var r := Strip(s);
    assert r == [] + r + [];
    StripUnique(r, [], r, []);
  }

  /** `sep.join(lines)` for a one-character separator. */
  function Join(lines: seq<string>, sep: char): (r: string)
    ensures |lines| == 0 ==> r == ""
    ensures |lines| > 0 ==> |r| == TotalLength(lines) + |lines| - 1
  {
    if |lines| == 0 then ""
    else if |lines| == 1 then lines[0]
    else lines[0] + [sep] + Join(lines[1..], sep)
  }

  /** The sum of the lengths of `lines`. */
  function TotalLength(lines: seq<string>): nat
  {
    if |lines| == 0 then 0 else |lines[0]| + TotalLength(lines[1..])
  }

  /** The number of occurrences of `c` in `s`. */
  function Occurrences(s: string, c: char): nat
  {
    multiset(s)[c]
  }

  /** `s.split(sep)`: the pieces between separators, one more than there are
      separators (so `"".split(sep) == [""]`). */
  function Split(s: string, sep: char): (parts: seq<string>)
    ensures |parts| == Occurrences(s, sep) + 1
    decreases |s|
  {
    if |s| == 0 then [""]
    else
      assert s == [s[0]] + s[1..];
      var rest := Split(s[1..], sep);
      if s[0] == sep then [""] + rest
      else [[s[0]] + rest[0]] + rest[1..]
  }

  lemma {:induction false} SplitWithoutSeparator(s: string, sep: char)
    requires sep !in s
    ensures Split(s, sep) == [s]
    decreases |s|
  {
    if |s| > 0 {
      SplitWithoutSeparator(s[1..], sep);
      assert [s[0]] + s[1..] == s;
    }
  }

  lemma {:induction false} SplitAfterLine(line: string, sep: char, rest: string)
    requires sep !in line
    ensures Split(line + [sep] + rest, sep) == [line] + Split(rest, sep)
    decreases |line|
  {
    var s := line + [sep] + rest;
    if |line| == 0 {
      assert s[1..] == rest;
    } else {
      assert s[1..] == line[1..] + [sep] + rest;
      SplitAfterLine(line[1..], sep, rest);
      assert [line[0]] + line[1..] == line;
    }
  }

  /** `split` undoes `join` when no line contains the separator and there is
      at least one line (`"".split(sep)` is `[""]`, not `[]`). */
  lemma {:induction false} SplitJoin(lines: seq<string>, sep: char)
    requires |lines| >= 1
    requires forall i :: 0 <= i < |lines| ==> sep !in lines[i]
    ensures Split(Join(lines, sep), sep) == lines
    decreases |lines|
  {
    if |lines| == 1 {
      SplitWithoutSeparator(lines[0], sep);
    } else {
      SplitJoin(lines[1..], sep);
      SplitAfterLine(lines[0], sep, Join(lines[1..], sep));
      assert [lines[0]] + lines[1..] == lines;
    }
  }

  /** `join` puts a separator between lines and none after the last one. */
  lemma {:induction false} JoinAppend(lines: seq<string>, line: string, sep: char)
    requires |lines| > 0
    ensures Join(lines + [line], sep) == Join(lines, sep) + [sep] + line
    decreases |lines|
  {
    if |lines| > 1 {
      assert (lines + [line])[1..] == lines[1..] + [line];
      JoinAppend(lines[1..], line, sep);
    }
  }
}
