/**
 * The `.env` file: written by the daemon (apps/atlasd/routes/config.ts:67-89), read by the launcher
 * (tools/friday-launcher/project.go:347-404). Characters stand for runes; keys and values are text without encoding.
 */
module DotEnv {
  import opened Options
  import opened Lines
  import opened Sequences

  datatype Pair = Pair(key: string, value: string)

  // ---- reading ----

  predicate IsCR(c: char) {
    c == '\r'
  }

  /** One layer of matching quotes around a value is removed. */
  function Unquote(v: string): string {
    if |v| >= 2 && (v[0] == '\'' || v[0] == '"') && v[0] == v[|v| - 1] then v[1..|v| - 1] else v
  }

  /** The value that stands after the equals sign. */
  function ValueOf(raw: string): string {
    Unquote(TrimRight(raw, IsCR))
  }

  predicate Ignored(line: string) {
    var trimmed := Trim(line, GoSpace);
    trimmed == "" || trimmed[0] == '#'
  }

  function ParseLine(line: string): Option<Pair> {
    if Ignored(line) then None
    else
      var eq := IndexOf(line, '=');
      if eq <= 0 then None
      else
        var key := Trim(line[..eq], GoSpace);
        if key == "" then None else Some(Pair(key, ValueOf(line[eq + 1..])))
  }

  function OnePair(p: Option<Pair>): seq<Pair> {
    match p
    case None => []
    case Some(pair) => [pair]
  }

  /** The pairs of some lines, in order. */
  function Parse(lines: seq<string>): seq<Pair> {
    if lines == [] then []
    else
      Parse(lines[..|lines| - 1]) + OnePair(ParseLine(lines[|lines| - 1]))
  }

  function Load(text: string): seq<Pair> {
    Parse(Split(text))
  }

  function Printed(p: Pair): string {
    p.key + "=" + p.value
  }

  lemma ParseLast(lines: seq<string>, last: string)
    ensures Parse(lines + [last]) == Parse(lines) + OnePair(ParseLine(last))
  {
    assert (lines + [last])[..|lines|] == lines;
  }

  lemma {:induction false} ParseAppend(a: seq<string>, b: seq<string>)
    ensures Parse(a + b) == Parse(a) + Parse(b)
    decreases |b|
  {
    if b == [] {
      assert a + b == a;
    } else {
      var b1, last := b[..|b| - 1], b[|b| - 1];
      ParseAppend(a, b1);
      ParseLast(a + b1, last);
      ParseLast(b1, last);
      hide *;
      Regroup(a, b1, [last]);
      assert b == b1 + [last];
      Regroup(Parse(a), Parse(b1), OnePair(ParseLine(last)));
    }
  }

  lemma ParseOne(line: string)
    ensures Parse([line]) == OnePair(ParseLine(line))
  {
    assert [line][..0] == [];
  }

  lemma ParseNext(lines: seq<string>, i: nat)
    requires i < |lines|
    ensures Parse(lines[..i + 1]) == Parse(lines[..i]) + OnePair(ParseLine(lines[i]))
  {
    assert lines[..i + 1][..i] == lines[..i];
  }

  function PrintedAll(pairs: seq<Pair>): seq<string> {
    seq(|pairs|, i requires 0 <= i < |pairs| => Printed(pairs[i]))
  }

  /** The body of the loop: what one line adds to the output. */
  method ReadLine(line: string) returns (out: seq<string>)
    ensures out == PrintedAll(OnePair(ParseLine(line)))
  {
    hide ValueOf, Ignored;
    if Ignored(line) {
      return [];
    }
    var eq := IndexOf(line, '=');
    if eq <= 0 {
      return [];
    }
    var key := Trim(line[..eq], GoSpace);
    if key == "" {
      return [];
    }
    return [key + "=" + ValueOf(line[eq + 1..])];
  }

  lemma PrintedAppend(a: seq<Pair>, b: seq<Pair>)
    ensures PrintedAll(a + b) == PrintedAll(a) + PrintedAll(b)
  {
    hide Printed;
  }

  lemma NothingPrinted()
    ensures PrintedAll(Parse([])) == []
  {
  }

  /** The loop over the lines of the file. */
  method ReadLines(lines: seq<string>) returns (out: seq<string>)
    ensures out == PrintedAll(Parse(lines))
  {
    hide *;
    NothingPrinted();
    out := [];
    var i := 0;
    while i < |lines|
      invariant i <= |lines| && out == PrintedAll(Parse(lines[..i]))
    {
      var more := ReadLine(lines[i]);
      ParseNext(lines, i);
      PrintedAppend(Parse(lines[..i]), OnePair(ParseLine(lines[i])));
      out := out + more;
      i := i + 1;
    }
    assert lines[..|lines|] == lines;
  }

  /** An unreadable file gives nothing; otherwise one `key=value` string per pair, in file order. */
  method LoadDotEnv(data: Option<string>) returns (out: seq<string>)
    ensures out == if data.Some? then PrintedAll(Load(data.value)) else []
  {
    hide Split, Parse, PrintedAll;
    if data.None? {
      return [];
    }
    out := ReadLines(Split(data.value));
  }

  /** The printed strings lose nothing: a loaded key holds no equals sign, so each string splits back in one way. */
  lemma PrintedSplitsBack(line: string)
    requires ParseLine(line).Some?
    ensures var p := ParseLine(line).value; IndexOf(Printed(p), '=') == |p.key| && p.key != ""
  {
    var eq := IndexOf(line, '=');
    TrimLeavesPlain(line[..eq], GoSpace);
    var p := ParseLine(line).value;
    IndexOfFront(p.key, '=', p.value);
  }

  // ---- writing ----

  predicate Special(c: char) {
    JsSpace(c) || c in "#$\"'\\"
  }

  predicate NeedsQuoting(v: string) {
    (exists i | 0 <= i < |v| :: Special(v[i])) || (v != "" && (v[0] == '\'' || v[0] == '"'))
  }

  /** `replaceAll` with a one-character pattern. */
  function ReplaceAll(s: string, c: char, sub: string): string {
    if s == "" then "" else (if s[0] == c then sub else [s[0]]) + ReplaceAll(s[1..], c, sub)
  }

  function Escape(v: string): string {
    ReplaceAll(ReplaceAll(v, '\\', "\\\\"), '"', "\\\"")
  }

  function WrittenValue(v: string): string {
    if !NeedsQuoting(v) then v
    else if '\'' !in v then "'" + v + "'"
    else "\"" + Escape(v) + "\""
  }

  /** The lines written: keys that look like comments are left out. */
  function WrittenLines(vars: seq<Pair>): seq<string> {
    if vars == [] then []
    else
      var rest, p := WrittenLines(vars[..|vars| - 1]), vars[|vars| - 1];
      if p.key != "" && p.key[0] == '#' then rest else rest + [p.key + "=" + WrittenValue(p.value)]
  }

  function Stringify(vars: seq<Pair>): string {
    Join(WrittenLines(vars))
  }

  method StringifyEnv(vars: seq<Pair>) returns (text: string)
    ensures text == Stringify(vars)
  {
    var lines := [];
    var i := 0;
    while i < |vars|
      invariant i <= |vars| && lines == WrittenLines(vars[..i])
    {
      var key, v := vars[i].key, vars[i].value;
      assert vars[..i + 1][..i] == vars[..i];
      i := i + 1;
      if key != "" && key[0] == '#' {
        continue;
      }
      if !NeedsQuoting(v) {
        lines := lines + [key + "=" + v];
        continue;
      }
      if '\'' !in v {
        lines := lines + [key + "=" + ("'" + v + "'")];
        continue;
      }
      var escaped := ReplaceAll(ReplaceAll(v, '\\', "\\\\"), '"', "\\\"");
      lines := lines + [key + "=" + ("\"" + escaped + "\"")];
    }
    assert vars[..|vars|] == vars;
    text := Join(lines);
  }

  // ---- what is read back ----

  predicate Letter(c: char) {
    'A' <= c <= 'Z' || 'a' <= c <= 'z' || c == '_'
  }

  /** `[A-Za-z_][A-Za-z0-9_]*`, the keys the daemon accepts. */
  predicate Identifier(k: string) {
    && k != "" && Letter(k[0])
    && (forall i | 0 <= i < |k| :: Letter(k[i]) || '0' <= k[i] <= '9')
  }

  ghost predicate Accepted(vars: seq<Pair>) {
    forall i | 0 <= i < |vars| :: Identifier(vars[i].key) && OneLine(vars[i].value)
  }

  /** A key that the reader takes as it stands. */
  predicate PlainKey(k: string) {
    && k != "" && '=' !in k && k[0] != '#'
    && !GoSpace(k[0]) && !GoSpace(k[|k| - 1])
  }

  lemma IdentifierIsPlain(k: string)
    requires Identifier(k)
    ensures PlainKey(k) && OneLine(k)
  {
  }

  lemma ParsePlainKey(key: string, raw: string)
    requires PlainKey(key)
    ensures ParseLine(key + "=" + raw) == Some(Pair(key, ValueOf(raw)))
  {
    var line := key + ['='] + raw;
    assert line[0] == key[0];
    TrimKeepsFirst(line, GoSpace);
    IndexOfFront(key, '=', raw);
    NothingToTrim(key, GoSpace);
    assert line[..|key|] == key && line[|key| + 1..] == raw;
  }

  /** What the launcher gets for a value the daemon wrote. */
  function ReadBack(v: string): string {
    if '\'' in v then Escape(v) else v
  }

  /** Quotes put around a text are taken off again. */
  lemma ReadQuoted(quote: char, w: string)
    requires quote == '\'' || quote == '"'
    ensures ValueOf([quote] + w + [quote]) == w
  {
    var q := [quote] + w + [quote];
    assert q[0] == quote && q[|q| - 1] == quote;
    assert q[1..|q| - 1] == w;
  }

  lemma ReadUnquoted(v: string)
    requires !NeedsQuoting(v)
    ensures ValueOf(v) == v && '\'' !in v
  {
    if v != "" {
      assert !Special(v[0]) && !Special(v[|v| - 1]);
    }
  }

  lemma ReadWrittenValue(v: string)
    ensures ValueOf(WrittenValue(v)) == ReadBack(v)
  {
    hide Escape, NeedsQuoting, ValueOf;
    if !NeedsQuoting(v) {
      ReadUnquoted(v);
    } else if '\'' !in v {
      ReadQuoted('\'', v);
    } else {
      ReadQuoted('"', Escape(v));
    }
  }

  lemma {:induction false} ReplaceAllGrows(s: string, c: char, sub: string)
    requires |sub| > 1
    ensures |ReplaceAll(s, c, sub)| >= |s|
    ensures c in s ==> |ReplaceAll(s, c, sub)| > |s|
    ensures c !in s ==> ReplaceAll(s, c, sub) == s
    ensures forall d | d in s && d != c :: d in ReplaceAll(s, c, sub)
    ensures forall d | d in ReplaceAll(s, c, sub) :: d in s || d in sub
  {
    if s != "" {
      ReplaceAllGrows(s[1..], c, sub);
      assert s == [s[0]] + s[1..];
    }
  }

  /** A value with a single quote together with a backslash or a double quote. */
  predicate Tangled(v: string) {
    '\'' in v && ('\\' in v || '"' in v)
  }

  lemma ReadBackIsExact(v: string)
    ensures ReadBack(v) == v <==> !Tangled(v)
  {
    var once := ReplaceAll(v, '\\', "\\\\");
    ReplaceAllGrows(v, '\\', "\\\\");
    ReplaceAllGrows(once, '"', "\\\"");
  }

  lemma EscapeStaysOnOneLine(v: string)
    requires OneLine(v)
    ensures OneLine(Escape(v)) && OneLine(WrittenValue(v))
  {
    var once := ReplaceAll(v, '\\', "\\\\");
    ReplaceAllGrows(v, '\\', "\\\\");
    ReplaceAllGrows(once, '"', "\\\"");
  }

  function AllReadBack(vars: seq<Pair>): seq<Pair> {
    seq(|vars|, i requires 0 <= i < |vars| => Pair(vars[i].key, ReadBack(vars[i].value)))
  }

  lemma ReadWrittenLine(p: Pair)
    requires Identifier(p.key) && OneLine(p.value)
    ensures ParseLine(p.key + "=" + WrittenValue(p.value)) == Some(Pair(p.key, ReadBack(p.value)))
    ensures OneLine(p.key + "=" + WrittenValue(p.value))
  {
    IdentifierIsPlain(p.key);
    ParsePlainKey(p.key, WrittenValue(p.value));
    ReadWrittenValue(p.value);
    EscapeStaysOnOneLine(p.value);
  }

  lemma WrittenLast(vars: seq<Pair>, p: Pair)
    requires Identifier(p.key)
    ensures WrittenLines(vars + [p]) == WrittenLines(vars) + [p.key + "=" + WrittenValue(p.value)]
    ensures AllReadBack(vars + [p]) == AllReadBack(vars) + [Pair(p.key, ReadBack(p.value))]
  {
    assert (vars + [p])[..|vars|] == vars;
  }

  ghost predicate ReadsBack(vars: seq<Pair>) {
    && Parse(WrittenLines(vars)) == AllReadBack(vars)
    && AllOneLine(WrittenLines(vars)) && |WrittenLines(vars)| == |vars|
  }

  lemma ReadsBackMore(vars: seq<Pair>, p: Pair)
    requires ReadsBack(vars) && Identifier(p.key) && OneLine(p.value)
    ensures ReadsBack(vars + [p])
  {
    var last := p.key + "=" + WrittenValue(p.value);
    ReadWrittenLine(p);
    WrittenLast(vars, p);
    hide Parse, ParseLine, WrittenLines, WrittenValue, AllReadBack, ReadBack, AllOneLine, Identifier, OneLine;
    OneLineMore(WrittenLines(vars), last);
    ParseLast(WrittenLines(vars), last);
  }

  lemma AcceptedParts(vars: seq<Pair>, p: Pair)
    requires Accepted(vars + [p])
    ensures Accepted(vars) && Identifier(p.key) && OneLine(p.value)
  {
    hide Identifier, OneLine;
    assert (vars + [p])[|vars|] == p;
    forall i | 0 <= i < |vars| ensures Identifier(vars[i].key) && OneLine(vars[i].value) {
      assert (vars + [p])[i] == vars[i];
    }
  }

  lemma NothingReadsBack()
    ensures ReadsBack([])
  {
  }

  /** Line by line, the launcher reads every accepted pair, in order. */
  lemma {:induction false} ReadWrittenLines(vars: seq<Pair>)
    requires Accepted(vars)
    ensures ReadsBack(vars)
  {
    hide *;
    if vars == [] {
      NothingReadsBack();
    } else {
      var init, p := vars[..|vars| - 1], vars[|vars| - 1];
      assert vars == init + [p];
      AcceptedParts(init, p);
      ReadWrittenLines(init);
      ReadsBackMore(init, p);
    }
  }

  /** What the launcher loads from the file the daemon wrote. */
  lemma LoadStringify(vars: seq<Pair>)
    requires Accepted(vars)
    ensures Load(Stringify(vars)) == AllReadBack(vars)
  {
    ReadWrittenLines(vars);
    var lines := WrittenLines(vars);
    if vars == [] {
      ParseOne("");
    } else {
      hide Split, Join, WrittenLines, Parse;
      SplitJoin(lines);
    }
  }

  /** The round trip holds exactly when no value is tangled. */
  lemma RoundTrip(vars: seq<Pair>)
    requires Accepted(vars)
    ensures Load(Stringify(vars)) == vars <==> forall i | 0 <= i < |vars| :: !Tangled(vars[i].value)
  {
    LoadStringify(vars);
    hide Load, Stringify, ReadBack, Tangled;
    forall i | 0 <= i < |vars| ensures AllReadBack(vars)[i] == vars[i] <==> !Tangled(vars[i].value) {
      ReadBackIsExact(vars[i].value);
    }
    if forall i | 0 <= i < |vars| :: !Tangled(vars[i].value) {
      assert AllReadBack(vars) == vars;
    }
  }

  /** One pair that does not come back: a single quote next to a backslash. */
  lemma TangledValueIsChanged()
    ensures Accepted([Pair("K", "'\\")]) && Load(Stringify([Pair("K", "'\\")])) != [Pair("K", "'\\")]
  {
    var vars := [Pair("K", "'\\")];
    assert Tangled(vars[0].value);
    RoundTrip(vars);
  }

  // ---- what a line defines ----

  /** One pair of equal quotes around a text is taken off. */
  ghost predicate Unquotes(body: string, v: string) {
    if |body| >= 2 && body[0] == body[|body| - 1] && (body[0] == '\'' || body[0] == '"')
    then body == [body[0]] + v + [body[0]] else v == body
  }

  lemma UnquotesExactly(body: string, v: string)
    ensures Unquote(body) == v <==> Unquotes(body, v)
  {
    if |body| >= 2 && body[0] == body[|body| - 1] {
      assert body == [body[0]] + body[1..|body| - 1] + [body[0]];
    }
    if Unquotes(body, v) && v != body {
      assert ([body[0]] + v + [body[0]])[1..|body| - 1] == v;
    }
  }

  /** The value in the text behind the equals sign: carriage returns at the end go, and then one pair of equal quotes.
      */
  ghost predicate Reads(raw: string, v: string) {
    exists body, crs ::
      && raw == body + crs && AllSpace(crs, IsCR)
      && (body != "" ==> body[|body| - 1] != '\r')
      && Unquotes(body, v)
  }

  lemma NotTrimmed(body: string)
    requires body != "" && body[|body| - 1] != '\r'
    ensures TrimRight(body, IsCR) == body
  {
  }

  lemma TrimRightIs(raw: string, body: string, crs: string)
    requires raw == body + crs && AllSpace(crs, IsCR) && (body != "" ==> body[|body| - 1] != '\r')
    ensures TrimRight(raw, IsCR) == body
  {
    TrimRightPast(body, crs, IsCR);
    if body != "" { NotTrimmed(body); }
  }

  lemma ReadsExactly(raw: string, v: string)
    ensures ValueOf(raw) == v <==> Reads(raw, v)
  {
    var body := TrimRight(raw, IsCR);
    TrimRightIsPrefix(raw, IsCR);
    var crs := raw[|body|..];
    assert raw == body + crs && AllSpace(crs, IsCR);
    UnquotesExactly(body, v);
    hide TrimRight, Unquote, Unquotes;
    if Reads(raw, v) {
      var body', crs' :|
        && raw == body' + crs' && AllSpace(crs', IsCR)
        && (body' != "" ==> body'[|body'| - 1] != '\r')
        && Unquotes(body', v);
      hide AllSpace;
      TrimRightIs(raw, body', crs');
    }
  }

  lemma NoLeft(s: string)
    requires s != "" && !GoSpace(s[0])
    ensures TrimLeft(s, GoSpace) == s
  {
  }

  lemma KeyStartsLine(line: string, eq: nat)
    requires eq < |line| && line[eq] == '=' && Trim(line[..eq], GoSpace) != ""
    ensures Trim(line, GoSpace) != "" && Trim(line, GoSpace)[0] == Trim(line[..eq], GoSpace)[0]
  {
    var pre, rest := line[..eq], line[eq..];
    var key := Trim(pre, GoSpace);
    TrimExactly(pre, key, GoSpace);
    hide TrimLeft, TrimRight;
    var a, b :| pre == a + key + b && AllSpace(a, GoSpace) && AllSpace(b, GoSpace);
    assert line == a + (key + b + rest);
    TrimLeftPast(a, key + b + rest, GoSpace);
    TrimKeepsFirst(key + b + rest, GoSpace);
    NoLeft(key + b + rest);
  }

  lemma HoldsEquals(pre: string, raw: string)
    ensures '=' in pre + "=" + raw
  {
    assert (pre + "=" + raw)[|pre|] == '=';
  }

  lemma EmptyCore(key: string)
    ensures Trim("", GoSpace) == key ==> key == ""
  {
  }

  /** Exactly which pair a line defines: what stands before its first equals sign, without white space at the ends, is
      the key, which is not empty and does not begin a comment; what stands behind it is read as the value. */
  lemma LineMeans(line: string, p: Pair)
    ensures ParseLine(line) == Some(p) <==>
      && p.key != "" && p.key[0] != '#'
      && exists pre, raw :: line == pre + "=" + raw && '=' !in pre && IsCore(pre, p.key, GoSpace) && Reads(raw, p.value)
  {
    var eq := IndexOf(line, '=');
    if eq >= 0 {
      var pre, raw := line[..eq], line[eq + 1..];
      assert line == pre + "=" + raw && '=' !in pre;
      TrimExactly(pre, p.key, GoSpace);
      ReadsExactly(raw, p.value);
      if Trim(pre, GoSpace) != "" { KeyStartsLine(line, eq); }
      hide Trim, IsCore, Reads, ValueOf;
      forall pre', raw' | line == pre' + "=" + raw' && '=' !in pre' ensures pre' == pre && raw' == raw {
        assert line == pre' + ['='] + raw';
        IndexOfFront(pre', '=', raw');
      }
      assert eq == 0 ==> pre == "";
      EmptyCore(p.key);
    } else {
      hide Trim, IsCore, Reads, ValueOf;
      forall pre', raw' ensures line != pre' + "=" + raw' {
        HoldsEquals(pre', raw');
      }
    }
  }

  /** Which form a value is written in: as it is, in single quotes, or in double quotes. */
  lemma WrittenForm(v: string)
    ensures var plain := forall c | c in v :: !JsSpace(c) && c != '#' && c != '$' && c != '"' && c != '\'' && c != '\\';
      && (plain ==> WrittenValue(v) == v)
      && (!plain && '\'' !in v ==> WrittenValue(v) == "'" + v + "'")
      && (!plain && '\'' in v ==> WrittenValue(v) == "\"" + Escape(v) + "\"")
  {
    hide Escape, JsSpace;
    if !NeedsQuoting(v) {
      forall c | c in v ensures !Special(c) {
        var i :| 0 <= i < |v| && v[i] == c;
      }
    }
    if i :| 0 <= i < |v| && Special(v[i]) {
      assert v[i] in v;
    }
  }
}
