/** Text as lines: split at newlines, join, trim, search. */
module Lines {

  // ---- searching ----

  /** The first place `c` occurs, or -1. */
  function IndexOf(s: string, c: char): (i: int)
    ensures -1 <= i < |s|
    ensures i >= 0 ==> s[i] == c && c !in s[..i]
    ensures i == -1 ==> c !in s
  {
    if s == "" then -1
    else if s[0] == c then 0
    else
      var i := IndexOf(s[1..], c);
      assert s == [s[0]] + s[1..];
      assert i >= 0 ==> s[..i + 1] == [s[0]] + s[1..][..i];
      if i == -1 then -1 else i + 1
  }

  lemma {:induction false} IndexOfIs(s: string, c: char, i: nat)
    requires i < |s| && s[i] == c && c !in s[..i]
    ensures IndexOf(s, c) == i
  {
    if i > 0 {
      assert s[..i] == [s[0]] + s[1..][..i - 1];
      IndexOfIs(s[1..], c, i - 1);
    }
  }

  /** Text after the first `c` does not move it. */
  lemma IndexOfFront(a: string, c: char, rest: string)
    requires c !in a
    ensures IndexOf(a + [c] + rest, c) == |a|
  {
    var s := a + [c] + rest;
    assert s[..|a|] == a;
    IndexOfIs(s, c, |a|);
  }

  // ---- lines ----

  /** The pieces between newlines; a text without one is a single line. */
  function Split(s: string): (lines: seq<string>)
    ensures lines != []
    decreases |s|
  {
    var i := IndexOf(s, '\n');
    if i == -1 then [s] else [s[..i]] + Split(s[i + 1..])
  }

  function Join(lines: seq<string>): string {
    if lines == [] then "" else if |lines| == 1 then lines[0] else lines[0] + "\n" + Join(lines[1..])
  }

  ghost predicate OneLine(s: string) {
    '\n' !in s
  }

  ghost predicate AllOneLine(lines: seq<string>) {
    forall i | 0 <= i < |lines| :: OneLine(lines[i])
  }

  lemma OneLineMore(lines: seq<string>, last: string)
    requires AllOneLine(lines) && OneLine(last)
    ensures AllOneLine(lines + [last]) && |lines + [last]| == |lines| + 1
  {
  }

  lemma SplitOneLine(s: string)
    requires OneLine(s)
    ensures Split(s) == [s]
  {
  }

  /** The first line and what follows it. */
  lemma SplitFirst(a: string, rest: string)
    requires OneLine(a)
    ensures Split(a + "\n" + rest) == [a] + Split(rest)
  {
    var s := a + ['\n'] + rest;
    IndexOfFront(a, '\n', rest);
    assert s[..|a|] == a && s[|a| + 1..] == rest;
  }

  /** A text with a newline is its first line, a newline, and more text. */
  lemma TakeLine(s: string) returns (first: string, more: string)
    requires !OneLine(s)
    ensures OneLine(first) && |more| < |s|
    ensures s == first + "\n" + more && Split(s) == [first] + Split(more)
  {
    var i := IndexOf(s, '\n');
    first, more := s[..i], s[i + 1..];
    assert s == first + "\n" + more;
  }

  lemma {:induction false} SplitGivesLines(s: string)
    ensures AllOneLine(Split(s))
    decreases |s|
  {
    if !OneLine(s) {
      var first, more := TakeLine(s);
      SplitGivesLines(more);
    }
  }

  lemma JoinCons(first: string, rest: seq<string>)
    requires rest != []
    ensures Join([first] + rest) == first + "\n" + Join(rest)
  {
    assert ([first] + rest)[1..] == rest;
  }

  lemma {:induction false} JoinSplit(s: string)
    ensures Join(Split(s)) == s
    decreases |s|
  {
    if OneLine(s) {
      SplitOneLine(s);
    } else {
      var first, more := TakeLine(s);
      hide Split;
      JoinSplit(more);
      JoinCons(first, Split(more));
    }
  }

  /** A line put in front of a text. */
  lemma SplitCons(first: string, more: string, tail: string)
    requires OneLine(first)
    ensures Split(first + "\n" + more + tail) == [first] + Split(more + tail)
  {
    SplitFirst(first, more + tail);
    assert first + "\n" + more + tail == first + "\n" + (more + tail);
  }

  lemma JoinTail(lines: seq<string>)
    requires |lines| > 1
    ensures Join(lines) == lines[0] + "\n" + Join(lines[1..])
    ensures AllOneLine(lines) ==> OneLine(lines[0]) && AllOneLine(lines[1..])
  {
  }

  lemma SplitJoinOne(line: string)
    requires OneLine(line)
    ensures Split(Join([line])) == [line]
  {
    SplitOneLine(line);
  }

  lemma {:induction false} SplitJoin(lines: seq<string>)
    requires lines != [] && AllOneLine(lines)
    ensures Split(Join(lines)) == lines
  {
    if |lines| == 1 {
      assert lines == [lines[0]] && OneLine(lines[0]);
      hide *;
      SplitJoinOne(lines[0]);
    } else {
      var rest := lines[1..];
      hide *;
      JoinTail(lines);
      SplitJoin(rest);
      SplitFirst(lines[0], Join(rest));
      assert [lines[0]] + rest == lines;
    }
  }

  function Front(lines: seq<string>): seq<string>
    requires lines != []
  {
    lines[..|lines| - 1]
  }

  function Last(lines: seq<string>): string
    requires lines != []
  {
    lines[|lines| - 1]
  }

  lemma FrontLastCons(first: string, m: seq<string>, tail: seq<string>)
    requires m != []
    ensures Front([first] + m) + tail == [first] + (Front(m) + tail) && Last([first] + m) == Last(m)
  {
  }

  /** Lines complete in `a` stay; its last piece is continued by `b`. */
  lemma {:induction false} SplitContinued(a: string, b: string)
    ensures Split(a + b) == Front(Split(a)) + Split(Last(Split(a)) + b)
    decreases |a|
  {
    if OneLine(a) {
      SplitOneLine(a);
    } else {
      var first, more := TakeLine(a);
      var m := Split(more);
      hide *;
      SplitContinued(more, b);
      SplitCons(first, more, b);
      FrontLastCons(first, m, Split(Last(m) + b));
    }
  }

  lemma {:induction false} LastIsOneLine(s: string)
    ensures OneLine(Last(Split(s)))
  {
    SplitGivesLines(s);
  }

  /** A newline between two texts separates their lines. */
  lemma SplitAtNewline(a: string, b: string)
    ensures Split(a + "\n" + b) == Split(a) + Split(b)
  {
    var m := Split(a);
    LastIsOneLine(a);
    hide Split;
    SplitContinued(a, "\n" + b);
    SplitFirst(Last(m), b);
    assert Last(m) + ("\n" + b) == Last(m) + "\n" + b && a + ("\n" + b) == a + "\n" + b;
    assert Front(m) + ([Last(m)] + Split(b)) == m + Split(b);
  }

  // ---- trimming ----

  /** White space of Unicode beyond Latin-1, as both languages have it. */
  predicate WideSpace(c: char) {
    || c == '\U{1680}' || '\U{2000}' <= c <= '\U{200A}' || c == '\U{2028}' || c == '\U{2029}'
    || c == '\U{202F}' || c == '\U{205F}' || c == '\U{3000}'
  }

  /** White space of JavaScript: `trim` and `\s`. */
  predicate JsSpace(c: char) {
    '\t' <= c <= '\r' || c == ' ' || c == '\U{A0}' || c == '\U{FEFF}' || WideSpace(c)
  }

  /** White space of Go: `unicode.IsSpace`. */
  predicate GoSpace(c: char) {
    '\t' <= c <= '\r' || c == ' ' || c == '\U{85}' || c == '\U{A0}' || WideSpace(c)
  }

  function TrimLeft(s: string, space: char -> bool): string {
    if s != "" && space(s[0]) then TrimLeft(s[1..], space) else s
  }

  function TrimRight(s: string, space: char -> bool): string {
    if s != "" && space(s[|s| - 1]) then TrimRight(s[..|s| - 1], space) else s
  }

  function Trim(s: string, space: char -> bool): string {
    TrimRight(TrimLeft(s, space), space)
  }

  lemma {:induction false} NothingToTrim(s: string, space: char -> bool)
    requires s == "" || (!space(s[0]) && !space(s[|s| - 1]))
    ensures Trim(s, space) == s
  {
  }

  lemma {:induction false} TrimRightIsPrefix(s: string, space: char -> bool)
    ensures TrimRight(s, space) <= s
    ensures forall i | |TrimRight(s, space)| <= i < |s| :: space(s[i])
    ensures TrimRight(s, space) != "" ==> !space(TrimRight(s, space)[|TrimRight(s, space)| - 1])
    decreases |s|
  {
    if s != "" && space(s[|s| - 1]) {
      TrimRightIsPrefix(s[..|s| - 1], space);
    }
  }

  lemma {:induction false} TrimLeftIsSuffix(s: string, space: char -> bool)
    ensures var t := TrimLeft(s, space); |t| <= |s| && t == s[|s| - |t|..]
    ensures TrimLeft(s, space) != "" ==> !space(TrimLeft(s, space)[0])
    decreases |s|
  {
    if s != "" && space(s[0]) {
      TrimLeftIsSuffix(s[1..], space);
      var t := TrimLeft(s, space);
      assert s[1..][|s| - 1 - |t|..] == s[|s| - |t|..];
    }
  }

  /** What is left has no space at either end, and every character of it was there before. */
  lemma TrimLeavesPlain(s: string, space: char -> bool)
    ensures var t := Trim(s, space);
      && (t != "" ==> !space(t[0]) && !space(t[|t| - 1]))
      && (forall c | c in t :: c in s)
  {
    var m := TrimLeft(s, space);
    TrimLeftIsSuffix(s, space);
    TrimRightIsPrefix(m, space);
    var t := Trim(s, space);
    if t != "" {
      assert t[0] == m[0];
    }
    forall c | c in t ensures c in s {
      var i :| 0 <= i < |t| && t[i] == c;
      assert m[i] == c && s[|s| - |m| + i] == c;
    }
  }

  /** Trimming does not go past a first character that is no space. */
  lemma TrimKeepsFirst(s: string, space: char -> bool)
    requires s != "" && !space(s[0])
    ensures Trim(s, space) != "" && Trim(s, space)[0] == s[0]
  {
    TrimRightIsPrefix(s, space);
    assert TrimRight(s, space) != "";
  }

  /** Trimming on the right stops before text that ends in a character to keep. */
  lemma {:induction false} TrimRightAppend(a: string, b: string, space: char -> bool)
    requires a != "" && !space(a[|a| - 1])
    ensures TrimRight(a + b, space) == a + TrimRight(b, space)
    decreases |b|
  {
    if b == "" {
      assert a + b == a;
    } else if space(b[|b| - 1]) {
      assert (a + b)[..|a + b| - 1] == a + b[..|b| - 1];
      TrimRightAppend(a, b[..|b| - 1], space);
    }
  }

  ghost predicate AllSpace(s: string, space: char -> bool) {
    forall i | 0 <= i < |s| :: space(s[i])
  }

  /** `core` is `s` without the white space at its ends. */
  ghost predicate IsCore(s: string, core: string, space: char -> bool) {
    && (core != "" ==> !space(core[0]) && !space(core[|core| - 1]))
    && exists a, b :: s == a + core + b && AllSpace(a, space) && AllSpace(b, space)
  }

  lemma {:induction false} TrimLeftPast(a: string, s: string, space: char -> bool)
    requires AllSpace(a, space)
    ensures TrimLeft(a + s, space) == TrimLeft(s, space)
  {
    if a == "" {
      assert a + s == s;
    } else {
      assert (a + s)[1..] == a[1..] + s;
      TrimLeftPast(a[1..], s, space);
    }
  }

  lemma {:induction false} TrimRightPast(s: string, b: string, space: char -> bool)
    requires AllSpace(b, space)
    ensures TrimRight(s + b, space) == TrimRight(s, space)
    decreases |b|
  {
    if b == "" {
      assert s + b == s;
    } else {
      assert (s + b)[..|s + b| - 1] == s + b[..|b| - 1];
      TrimRightPast(s, b[..|b| - 1], space);
    }
  }

  lemma {:induction false} TrimLeftTakes(s: string, space: char -> bool)
    ensures var t := TrimLeft(s, space); |t| <= |s| && AllSpace(s[..|s| - |t|], space) && s == s[..|s| - |t|] + t
  {
    if s != "" && space(s[0]) {
      TrimLeftTakes(s[1..], space);
      var t := TrimLeft(s, space);
      assert s[..|s| - |t|] == [s[0]] + s[1..][..|s| - 1 - |t|];
    }
  }

  lemma TrimGivesCore(s: string, space: char -> bool)
    ensures IsCore(s, Trim(s, space), space)
  {
    var m := TrimLeft(s, space);
    TrimLeftTakes(s, space);
    TrimRightIsPrefix(m, space);
    TrimLeavesPlain(s, space);
    hide TrimLeft, TrimRight;
    var core := TrimRight(m, space);
    var a, b := s[..|s| - |m|], m[|core|..];
    assert m == core + b && s == a + core + b;
    assert AllSpace(b, space);
  }

  lemma CoreIsTrimmed(core: string, a: string, b: string, space: char -> bool)
    requires AllSpace(a, space) && AllSpace(b, space) && (core != "" ==> !space(core[0]) && !space(core[|core| - 1]))
    ensures Trim(a + (core + b), space) == core
  {
    TrimLeftPast(a, core + b, space);
    if core == "" {
      assert core + b == b + "";
      TrimLeftPast(b, "", space);
    } else {
      TrimRightPast(core, b, space);
      assert (core + b)[0] == core[0];
    }
  }

  /** Trimming takes off the white space at both ends and nothing else. */
  lemma TrimExactly(s: string, core: string, space: char -> bool)
    ensures Trim(s, space) == core <==> IsCore(s, core, space)
  {
    TrimGivesCore(s, space);
    hide Trim;
    if IsCore(s, core, space) {
      var a, b :| s == a + core + b && AllSpace(a, space) && AllSpace(b, space);
      hide AllSpace;
      assert s == a + (core + b);
      CoreIsTrimmed(core, a, b, space);
    }
  }
}
