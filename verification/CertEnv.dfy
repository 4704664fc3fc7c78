/** The launcher's edits of `.env` (tools/friday-launcher/cert_env.go): missing certificate paths, stale URL schemes. */
module CertEnv {
  import opened Options
  import opened Lines
  import opened DotEnv

  // ---- ensureCertEnvFile ----

  /** The paths that the launcher resolves for its certificates. */
  datatype Paths = Paths(s2sCert: string, s2sKey: string, s2sCA: string, tlsCert: string, tlsKey: string)

  function CertEnvKeys(p: Paths): seq<Pair> {
    [Pair("FRIDAY_TLS_CERT", p.s2sCert),
     Pair("FRIDAY_TLS_KEY", p.s2sKey),
     Pair("FRIDAY_TLS_CA", p.s2sCA),
     Pair("FRIDAY_BROWSER_TLS_CERT", p.tlsCert),
     Pair("FRIDAY_BROWSER_TLS_KEY", p.tlsKey),
     Pair("DENO_CERT", p.s2sCA),
     Pair("NODE_EXTRA_CA_CERTS", p.s2sCA)]
  }

  const COMMENT_HEAD := "# launcher-managed cert paths "
  const COMMENT_TAIL := "(managed by friday-launcher; safe to edit)"
  const COMMENT := COMMENT_HEAD + COMMENT_TAIL

  /** The key that a line defines, as the scan for present keys sees it. */
  function KeyOn(line: string): Option<string> {
    if Ignored(line) then None
    else
      var eq := IndexOf(line, '=');
      if eq > 0 then Some(Trim(line[..eq], GoSpace)) else None
  }

  /** The keys that some lines define. */
  function KeysOn(lines: seq<string>): set<string> {
    if lines == [] then {}
    else
      KeysOn(lines[..|lines| - 1]) + match KeyOn(lines[|lines| - 1]) case None => {} case Some(k) => {k}
  }

  /** Of some pairs, those whose key no line defines. */
  function Missing(lines: seq<string>, pairs: seq<Pair>): seq<Pair> {
    if pairs == [] then []
    else
      var rest, p := Missing(lines, pairs[..|pairs| - 1]), pairs[|pairs| - 1];
      if p.key in KeysOn(lines) then rest else rest + [p]
  }

  /** The text kept in front of the appended block, with its separating blank line. */
  function Base(existing: string): string {
    if existing != "" && existing[|existing| - 1] == '\n' then existing else existing + "\n"
  }

  /** The file with lines appended: the old text, a blank line and a comment, the new lines. */
  function Appended(existing: string, comment: string, added: seq<string>): string {
    if existing == "" then Join(added) + "\n"
    else Base(existing) + "\n" + comment + "\n" + Join(added) + "\n"
  }

  /** The file after the call. */
  function Ensured(existing: string, comment: string, keys: seq<Pair>): string {
    var missing := Missing(Split(existing), keys);
    if missing == [] then existing else Appended(existing, comment, PrintedAll(missing))
  }

  /** The scan for keys that are already there. */
  method PresentKeys(existing: string) returns (present: set<string>)
    ensures present == KeysOn(Split(existing))
  {
    present := {};
    var lines := Split(existing);
    hide Split;
    var i := 0;
    while i < |lines|
      invariant i <= |lines| && present == KeysOn(lines[..i])
    {
      var line := lines[i];
      assert lines[..i + 1][..i] == lines[..i];
      if !Ignored(line) {
        var eq := IndexOf(line, '=');
        if eq > 0 {
          present := present + {Trim(line[..eq], GoSpace)};
        }
      }
      i := i + 1;
    }
    assert lines[..|lines|] == lines;
  }

  /** Writing the appended block, piece by piece. */
  method AppendLines(text: string, comment: string, added: seq<string>) returns (out: string)
    ensures out == Appended(text, comment, added)
  {
    out := text;
    if out != "" && out[|out| - 1] != '\n' {
      out := out + "\n";
    }
    if out != "" {
      out := out + "\n" + comment + "\n";
    }
    out := out + Join(added) + "\n";
  }

  /** `ensureCertEnvFile`: a file that cannot be read counts as empty; nothing missing means nothing written. */
  method EnsureCertEnvFile(existing: Option<string>, paths: Paths) returns (written: Option<string>, count: nat)
    ensures var before := existing.GetOr(""); var missing := Missing(Split(before), CertEnvKeys(paths));
      && count == |missing|
      && (written.None? <==> missing == [])
      && written.GetOr(before) == Ensured(before, COMMENT, CertEnvKeys(paths))
  {
    var text := existing.GetOr("");
    var present := PresentKeys(text);
    var keys := CertEnvKeys(paths);
    var toAppend := [];
    var i := 0;
    ghost var lines := Split(text);
    hide CertEnvKeys, Split, KeysOn, KeyOn, Join, Ignored;
    while i < |keys|
      invariant i <= |keys| && toAppend == PrintedAll(Missing(lines, keys[..i]))
    {
      assert keys[..i + 1][..i] == keys[..i];
      if keys[i].key !in present {
        toAppend := toAppend + [keys[i].key + "=" + keys[i].value];
      }
      i := i + 1;
    }
    assert keys[..|keys|] == keys;
    if toAppend == [] {
      return None, 0;
    }
    var out := AppendLines(text, COMMENT, toAppend);
    return Some(out), |toAppend|;
  }

  // ---- what the launcher loads afterwards ----

  lemma PrefixPlus(a: string, b: string, c: string)
    requires a <= b
    ensures a <= b + c
  {
  }

  /** Whatever was in the file stays, at the front. */
  lemma OldTextIsPrefix(existing: string, comment: string, keys: seq<Pair>)
    ensures existing <= Ensured(existing, comment, keys)
  {
    var added := PrintedAll(Missing(Split(existing), keys));
    hide Join, Split, Missing, PrintedAll;
    var b := Base(existing);
    PrefixPlus(existing, b, "\n");
    PrefixPlus(existing, b + "\n", comment);
    PrefixPlus(existing, b + "\n" + comment, "\n");
    PrefixPlus(existing, b + "\n" + comment + "\n", Join(added));
    PrefixPlus(existing, b + "\n" + comment + "\n" + Join(added), "\n");
  }

  /** The lines of a joined text, when the parts may themselves hold newlines. */
  function Flat(parts: seq<string>): seq<string> {
    if parts == [] then [] else Split(parts[0]) + Flat(parts[1..])
  }

  lemma {:induction false} SplitJoined(parts: seq<string>)
    requires parts != []
    ensures Split(Join(parts)) == Flat(parts)
  {
    if |parts| == 1 {
      assert Flat(parts) == Split(parts[0]) + [];
    } else {
      JoinTail(parts);
      SplitAtNewline(parts[0], Join(parts[1..]));
      hide Split;
      SplitJoined(parts[1..]);
    }
  }

  /** A line that defines nothing. */
  ghost predicate Quiet(line: string) {
    OneLine(line) && ParseLine(line) == None && KeyOn(line) == None
  }

  lemma CommentIsQuiet(comment: string)
    requires OneLine(comment) && comment != "" && comment[0] == '#'
    ensures Quiet(comment) && Quiet("")
  {
    TrimKeepsFirst(comment, GoSpace);
  }

  lemma SplitEnded(text: string)
    ensures Split(text + "\n") == Split(text) + [""]
  {
    SplitOneLine("");
    hide Split;
    SplitAtNewline(text, "");
    assert text + "\n" + "" == text + "\n";
  }

  /** What stands before the comment, the comment, the new lines, and the end of the last one. */
  lemma SplitBlock(base: string, comment: string, added: string)
    requires OneLine(comment)
    ensures Split(base + "\n" + comment + "\n" + added + "\n") == Split(base) + [comment] + Split(added) + [""]
  {
    SplitOneLine(comment);
    hide Split;
    var head := base + "\n" + comment;
    SplitAtNewline(base, comment);
    SplitAtNewline(head, added);
    SplitEnded(head + "\n" + added);
  }

  lemma SplitBase(existing: string)
    ensures Split(Base(existing)) == Split(existing) || Split(Base(existing)) == Split(existing) + [""]
  {
    SplitEnded(existing);
  }

  lemma ParseQuiet(lines: seq<string>, quiet: string)
    requires Quiet(quiet)
    ensures Parse(lines + [quiet]) == Parse(lines)
  {
    ParseLast(lines, quiet);
  }

  lemma LoadBase(existing: string)
    requires Quiet("")
    ensures Load(Base(existing)) == Load(existing)
  {
    SplitBase(existing);
    hide Split, Parse, Base, Quiet;
    ParseQuiet(Split(existing), "");
  }

  lemma ParseBlock(base: seq<string>, comment: string, added: seq<string>)
    requires Quiet(comment) && Quiet("")
    ensures Parse(base + [comment] + added + [""]) == Parse(base) + Parse(added)
  {
    hide Parse, Quiet;
    ParseQuiet(base + [comment] + added, "");
    ParseAppend(base + [comment], added);
    ParseQuiet(base, comment);
  }

  /** The old pairs come first, unchanged; the appended lines add theirs. */
  lemma LoadAppended(existing: string, comment: string, added: seq<string>)
    requires added != [] && Quiet(comment) && Quiet("")
    ensures Load(Appended(existing, comment, added)) == Load(existing) + Parse(Flat(added))
  {
    SplitJoined(added);
    if existing == "" {
      SplitOneLine("");
      ParseOne("");
      SplitEnded(Join(added));
      hide Split, Join, Flat, Quiet;
      ParseQuiet(Flat(added), "");
    } else {
      hide Split, Join, Flat, Parse;
      SplitBlock(Base(existing), comment, Join(added));
      hide Quiet;
      ParseBlock(Split(Base(existing)), comment, Flat(added));
      LoadBase(existing);
    }
  }

  lemma TwoOnOneLine(a: string, b: string)
    requires OneLine(a) && OneLine(b)
    ensures OneLine(a + b) && (a != "" ==> (a + b)[0] == a[0])
  {
  }

  lemma HeadOnOneLine()
    ensures OneLine(COMMENT_HEAD) && COMMENT_HEAD != "" && COMMENT_HEAD[0] == '#'
  {
  }

  lemma TailOnOneLine()
    ensures OneLine(COMMENT_TAIL)
  {
  }

  lemma ManagedCommentIsQuiet()
    ensures Quiet(COMMENT) && Quiet("")
  {
    hide OneLine, Quiet;
    HeadOnOneLine();
    TailOnOneLine();
    TwoOnOneLine(COMMENT_HEAD, COMMENT_TAIL);
    CommentIsQuiet(COMMENT_HEAD + COMMENT_TAIL);
  }

  /** Every pair that was loaded before is loaded again, in its place: what an operator wrote wins. */
  lemma OldPairsStay(existing: string, comment: string, keys: seq<Pair>)
    requires Quiet(comment) && Quiet("")
    ensures Load(existing) <= Load(Ensured(existing, comment, keys))
  {
    hide Load, Appended, Missing, Quiet;
    var missing := Missing(Split(existing), keys);
    if missing != [] {
      LoadAppended(existing, comment, PrintedAll(missing));
    }
  }

  /** A value that the reader leaves as it is: no newline, no trailing carriage return, no quotes around it. */
  predicate PlainValue(v: string) {
    && '\n' !in v
    && (v == "" || v[|v| - 1] != '\r')
    && !(|v| >= 2 && (v[0] == '\'' || v[0] == '"') && v[0] == v[|v| - 1])
  }

  lemma PlainValueStays(v: string)
    ensures PlainValue(v) <==> OneLine(v) && ValueOf(v) == v
  {
    TrimRightIsPrefix(v, IsCR);
  }

  ghost predicate PlainKeys(pairs: seq<Pair>) {
    forall i | 0 <= i < |pairs| :: PlainKey(pairs[i].key) && OneLine(pairs[i].key)
  }

  lemma FirstKeysArePlain()
    ensures PlainKey("FRIDAY_TLS_CERT") && OneLine("FRIDAY_TLS_CERT")
    ensures PlainKey("FRIDAY_TLS_KEY") && OneLine("FRIDAY_TLS_KEY")
    ensures PlainKey("FRIDAY_TLS_CA") && OneLine("FRIDAY_TLS_CA")
  {
  }

  lemma MoreKeysArePlain()
    ensures PlainKey("FRIDAY_BROWSER_TLS_CERT") && OneLine("FRIDAY_BROWSER_TLS_CERT")
    ensures PlainKey("FRIDAY_BROWSER_TLS_KEY") && OneLine("FRIDAY_BROWSER_TLS_KEY")
  {
  }

  lemma LastKeysArePlain()
    ensures PlainKey("DENO_CERT") && OneLine("DENO_CERT")
    ensures PlainKey("NODE_EXTRA_CA_CERTS") && OneLine("NODE_EXTRA_CA_CERTS")
  {
  }

  lemma CertKeysArePlain(paths: Paths)
    ensures PlainKeys(CertEnvKeys(paths))
  {
    FirstKeysArePlain();
    MoreKeysArePlain();
    LastKeysArePlain();
    hide PlainKey, OneLine;
  }

  // ---- the pairs that are added ----

  lemma FlatLines(parts: seq<string>)
    ensures AllOneLine(Flat(parts))
    ensures AllOneLine(parts) ==> Flat(parts) == parts
  {
    if parts != [] {
      SplitGivesLines(parts[0]);
      FlatLines(parts[1..]);
      if AllOneLine(parts) {
        SplitOneLine(parts[0]);
        assert AllOneLine(parts[1..]);
        assert [parts[0]] + parts[1..] == parts;
      }
    }
  }

  lemma ParsedOnOneLine(line: string)
    requires OneLine(line) && ParseLine(line).Some?
    ensures OneLine(ParseLine(line).value.value)
  {
    var raw := line[IndexOf(line, '=') + 1..];
    TrimRightIsPrefix(raw, IsCR);
  }

  /** A loaded value never holds a newline. */
  lemma {:induction false} LoadedOnOneLine(lines: seq<string>)
    requires AllOneLine(lines)
    ensures forall i | 0 <= i < |Parse(lines)| :: OneLine(Parse(lines)[i].value)
  {
    if lines != [] {
      var last := lines[|lines| - 1];
      LoadedOnOneLine(lines[..|lines| - 1]);
      hide ParseLine, OneLine;
      if ParseLine(last).Some? {
        assert OneLine(last);
        ParsedOnOneLine(last);
      }
    }
  }

  lemma ParsePrintedLast(pairs: seq<Pair>, p: Pair)
    requires PlainKey(p.key)
    ensures Parse(PrintedAll(pairs + [p])) == Parse(PrintedAll(pairs)) + [Pair(p.key, ValueOf(p.value))]
  {
    ParsePlainKey(p.key, p.value);
    hide ParseLine, PlainKey, Parse;
    ParseLast(PrintedAll(pairs), Printed(p));
    assert PrintedAll(pairs + [p]) == PrintedAll(pairs) + [Printed(p)];
  }

  ghost predicate ReadsAs(pairs: seq<Pair>) {
    && |Parse(PrintedAll(pairs))| == |pairs|
    && forall i | 0 <= i < |pairs| :: Parse(PrintedAll(pairs))[i] == Pair(pairs[i].key, ValueOf(pairs[i].value))
  }

  lemma PlainKeysParts(pairs: seq<Pair>, p: Pair)
    requires PlainKeys(pairs + [p])
    ensures PlainKeys(pairs) && PlainKey(p.key) && OneLine(p.key)
  {
    hide PlainKey, OneLine;
    assert (pairs + [p])[|pairs|] == p;
    forall i | 0 <= i < |pairs| ensures PlainKey(pairs[i].key) && OneLine(pairs[i].key) {
      assert (pairs + [p])[i] == pairs[i];
    }
  }

  lemma ReadsAsMore(pairs: seq<Pair>, p: Pair)
    requires ReadsAs(pairs) && PlainKey(p.key)
    ensures ReadsAs(pairs + [p])
  {
    ParsePrintedLast(pairs, p);
    hide Parse, PrintedAll, ValueOf, PlainKey;
  }

  /** Printed pairs with plain keys are read as the same keys, with what the reader makes of the values. */
  lemma {:induction false} ParsePrinted(pairs: seq<Pair>)
    requires PlainKeys(pairs)
    ensures ReadsAs(pairs)
  {
    hide PlainKeys, PlainKey, OneLine;
    if pairs != [] {
      hide ReadsAs;
      var init, p := pairs[..|pairs| - 1], pairs[|pairs| - 1];
      assert pairs == init + [p];
      PlainKeysParts(init, p);
      ParsePrinted(init);
      ReadsAsMore(init, p);
    }
  }

  lemma OneLineBoth(a: string, b: string)
    ensures OneLine(a + b) <==> OneLine(a) && OneLine(b)
  {
    if OneLine(a + b) {
      forall i | 0 <= i < |b| ensures b[i] != '\n' {
        assert b[i] == (a + b)[|a| + i];
      }
      forall i | 0 <= i < |a| ensures a[i] != '\n' {
        assert a[i] == (a + b)[i];
      }
    }
  }

  lemma PrintedOnOneLine(pairs: seq<Pair>)
    requires PlainKeys(pairs)
    ensures AllOneLine(PrintedAll(pairs)) <==> forall i | 0 <= i < |pairs| :: OneLine(pairs[i].value)
  {
    hide PlainKey;
    forall i | 0 <= i < |pairs| ensures OneLine(PrintedAll(pairs)[i]) <==> OneLine(pairs[i].value) {
      var p := pairs[i];
      assert OneLine(p.key);
      assert OneLine("=");
      OneLineBoth(p.key, "=");
      OneLineBoth(p.key + "=", p.value);
    }
    hide OneLine;
    assert |PrintedAll(pairs)| == |pairs|;
  }

  ghost predicate AllPlain(pairs: seq<Pair>) {
    forall i | 0 <= i < |pairs| :: PlainValue(pairs[i].value)
  }

  /** The appended lines are read back as the very pairs exactly when every value is plain. */
  lemma {:induction false} AddedReadBack(pairs: seq<Pair>)
    requires PlainKeys(pairs)
    ensures Parse(Flat(PrintedAll(pairs))) == pairs <==> AllPlain(pairs)
  {
    var added := PrintedAll(pairs);
    FlatLines(added);
    ParsePrinted(pairs);
    PrintedOnOneLine(pairs);
    LoadedOnOneLine(Flat(added));
    forall i | 0 <= i < |pairs|
      ensures PlainValue(pairs[i].value) <==> OneLine(pairs[i].value) && ValueOf(pairs[i].value) == pairs[i].value
    {
      PlainValueStays(pairs[i].value);
    }
    hide Parse, Flat, PrintedAll, PlainValue, OneLine, ValueOf, PlainKeys, AllOneLine;
    if Parse(Flat(added)) == pairs {
      forall i | 0 <= i < |pairs| ensures PlainValue(pairs[i].value) {
        assert OneLine(Parse(Flat(added))[i].value);
      }
    }
    if AllPlain(pairs) {
      assert Parse(added) == pairs;
    }
  }

  lemma MissingIsPlain(lines: seq<string>, keys: seq<Pair>)
    requires PlainKeys(keys)
    ensures PlainKeys(Missing(lines, keys))
  {
    hide PlainKey, OneLine, KeysOn;
    if keys != [] {
      var init := keys[..|keys| - 1];
      assert PlainKeys(init);
      MissingIsPlain(lines, init);
    }
  }

  lemma SameTail<T>(a: seq<T>, b: seq<T>, c: seq<T>)
    ensures a + b == a + c <==> b == c
  {
    if a + b == a + c {
      assert (a + b)[|a|..] == b && (a + c)[|a|..] == c;
    }
  }

  lemma NothingMissing(existing: string)
    ensures Load(existing) == Load(existing) + [] && AllPlain([])
  {
  }

  /** After the call the file loads as the old pairs followed by the missing ones, exactly when their values are
      plain. */
  lemma LoadEnsured(existing: string, comment: string, keys: seq<Pair>)
    requires Quiet(comment) && Quiet("") && PlainKeys(keys)
    ensures var missing := Missing(Split(existing), keys);
      Load(Ensured(existing, comment, keys)) == Load(existing) + missing <==> AllPlain(missing)
  {
    var missing := Missing(Split(existing), keys);
    MissingIsPlain(Split(existing), keys);
    AddedReadBack(missing);
    hide Load, Appended, Missing, Quiet, Parse, Flat, PlainKeys, AllPlain;
    if missing != [] {
      var before, more := Load(existing), Parse(Flat(PrintedAll(missing)));
      LoadAppended(existing, comment, PrintedAll(missing));
      SameTail(before, more, missing);
    } else {
      hide *;
      NothingMissing(existing);
    }
  }

  // ---- a second call ----

  lemma {:induction false} KeysOnAppend(a: seq<string>, b: seq<string>)
    ensures KeysOn(a + b) == KeysOn(a) + KeysOn(b)
    decreases |b|
  {
    hide KeyOn;
    if b == [] {
      assert a + b == a;
    } else {
      var b1 := b[..|b| - 1];
      KeysOnAppend(a, b1);
      assert (a + b)[..|a + b| - 1] == a + b1;
    }
  }

  lemma KeysOnOne(line: string)
    ensures KeysOn([line]) == match KeyOn(line) case None => {} case Some(k) => {k}
  {
    assert [line][..0] == [];
  }

  lemma HeadDefines(key: string, head: string, rest: seq<string>)
    requires KeyOn(head) == Some(key)
    ensures key in KeysOn([head] + rest)
  {
    hide KeyOn;
    KeysOnAppend([head], rest);
    KeysOnOne(head);
  }

  lemma SplitHead(head: string, first: string, more: string)
    requires OneLine(head) && OneLine(first)
    ensures Split(head + (first + "\n" + more)) == [head + first] + Split(more)
  {
    OneLineBoth(head, first);
    hide Split, OneLine;
    SplitFirst(head + first, more);
    assert head + (first + "\n" + more) == head + first + "\n" + more;
  }

  /** The first line of a printed pair starts like the pair. */
  lemma FirstPrintedLine(p: Pair) returns (first: string, rest: seq<string>)
    requires OneLine(p.key)
    ensures Split(Printed(p)) == [p.key + "=" + first] + rest
  {
    var head := p.key + "=";
    OneLineBoth(p.key, "=");
    if OneLine(p.value) {
      OneLineBoth(head, p.value);
      SplitOneLine(Printed(p));
      first, rest := p.value, [];
    } else {
      var f, more := TakeLine(p.value);
      first, rest := f, Split(more);
      hide Split, OneLine;
      SplitHead(head, first, more);
    }
  }

  lemma KeyOnPrinted(key: string, value: string)
    requires PlainKey(key)
    ensures KeyOn(key + "=" + value) == Some(key)
  {
    ParsePlainKey(key, value);
  }

  /** The first line of a printed pair defines its key, whatever the value holds. */
  lemma PrintedDefines(p: Pair)
    requires PlainKey(p.key) && OneLine(p.key)
    ensures p.key in KeysOn(Split(Printed(p)))
  {
    var first, rest := FirstPrintedLine(p);
    KeyOnPrinted(p.key, first);
    hide *;
    HeadDefines(p.key, p.key + "=" + first, rest);
  }

  lemma {:induction false} FlatDefines(pairs: seq<Pair>, i: nat)
    requires PlainKeys(pairs) && i < |pairs|
    ensures pairs[i].key in KeysOn(Flat(PrintedAll(pairs)))
  {
    hide PlainKey, OneLine, Split, KeysOn;
    var rest := pairs[1..];
    assert PlainKeys(rest);
    assert PrintedAll(pairs)[1..] == PrintedAll(rest);
    KeysOnAppend(Split(Printed(pairs[0])), Flat(PrintedAll(rest)));
    if i == 0 {
      PrintedDefines(pairs[0]);
    } else {
      FlatDefines(rest, i - 1);
    }
  }

  /** Every key is on a line already or among the missing pairs. */
  lemma {:induction false} MissingCovers(lines: seq<string>, keys: seq<Pair>, k: nat)
    requires k < |keys|
    ensures keys[k].key in KeysOn(lines) || exists i | 0 <= i < |Missing(lines, keys)| ::
      Missing(lines, keys)[i] == keys[k]
  {
    var init, p := keys[..|keys| - 1], keys[|keys| - 1];
    if k < |init| {
      MissingCovers(lines, init, k);
      if keys[k].key !in KeysOn(lines) {
        var i :| 0 <= i < |Missing(lines, init)| && Missing(lines, init)[i] == keys[k];
        assert Missing(lines, keys)[i] == keys[k];
      }
    } else if p.key !in KeysOn(lines) {
      assert Missing(lines, keys)[|Missing(lines, keys)| - 1] == p;
    }
  }

  lemma {:induction false} NoneMissing(lines: seq<string>, keys: seq<Pair>)
    requires forall k | 0 <= k < |keys| :: keys[k].key in KeysOn(lines)
    ensures Missing(lines, keys) == []
  {
    hide KeysOn;
    if keys != [] {
      NoneMissing(lines, keys[..|keys| - 1]);
    }
  }

  lemma {:induction false} KeysAfter(existing: string, comment: string, added: seq<string>)
    requires added != [] && Quiet(comment) && Quiet("")
    ensures KeysOn(Split(Appended(existing, comment, added))) >= KeysOn(Split(existing)) + KeysOn(Flat(added))
  {
    SplitJoined(added);
    if existing == "" {
      SplitOneLine("");
      KeysOnOne("");
      SplitEnded(Join(added));
      hide Split, Join, Flat, KeysOn;
      KeysOnAppend(Flat(added), [""]);
    } else {
      var b := Base(existing);
      SplitBase(existing);
      hide Split, Join, Flat, KeysOn, Base;
      SplitBlock(b, comment, Join(added));
      KeysOnAppend(Split(b) + [comment] + Flat(added), [""]);
      KeysOnAppend(Split(b) + [comment], Flat(added));
      KeysOnAppend(Split(b), [comment]);
      KeysOnAppend(Split(existing), [""]);
    }
  }

  /** A second call finds every key, so it writes nothing: also when a value is not plain. */
  lemma EnsureTwice(existing: string, comment: string, keys: seq<Pair>)
    requires Quiet(comment) && Quiet("") && PlainKeys(keys)
    ensures Missing(Split(Ensured(existing, comment, keys)), keys) == []
    ensures Ensured(Ensured(existing, comment, keys), comment, keys) == Ensured(existing, comment, keys)
  {
    var lines := Split(existing);
    var missing := Missing(lines, keys);
    var after := Split(Ensured(existing, comment, keys));
    MissingIsPlain(lines, keys);
    hide Missing, Quiet, Split, PlainKeys, Flat, KeysOn, Appended;
    if missing != [] {
      KeysAfter(existing, comment, PrintedAll(missing));
      forall k | 0 <= k < |keys| ensures keys[k].key in KeysOn(after) {
        MissingCovers(lines, keys, k);
        if keys[k].key !in KeysOn(lines) {
          var i :| 0 <= i < |missing| && missing[i] == keys[k];
          FlatDefines(missing, i);
        }
      }
      NoneMissing(after, keys);
    }
  }

  // ---- missing means not loaded ----

  function KeysOf(pairs: seq<Pair>): set<string> {
    set i | 0 <= i < |pairs| :: pairs[i].key
  }

  lemma KeysOfMore(pairs: seq<Pair>, more: Option<Pair>)
    ensures KeysOf(pairs + OnePair(more)) == KeysOf(pairs) + (if more.Some? then {more.value.key} else {})
  {
    var all := pairs + OnePair(more);
    forall k | k in KeysOf(pairs) ensures k in KeysOf(all) {
      var i :| 0 <= i < |pairs| && pairs[i].key == k;
      assert all[i].key == k;
    }
    if more.Some? {
      assert all[|pairs|] == more.value;
    }
  }

  lemma KeyOnIsParsed(line: string)
    ensures ParseLine(line).Some? ==> KeyOn(line) == Some(ParseLine(line).value.key) && ParseLine(line).value.key != ""
    ensures ParseLine(line).None? ==> KeyOn(line).GetOr("") == ""
  {
  }

  /** The keys found by the scan are those that the launcher loads, apart from a blank one. */
  lemma {:induction false} KeysOnAreLoaded(lines: seq<string>)
    ensures KeysOn(lines) - {""} == KeysOf(Parse(lines))
  {
    if lines != [] {
      var init, last := lines[..|lines| - 1], lines[|lines| - 1];
      KeysOnAreLoaded(init);
      KeyOnIsParsed(last);
      hide KeyOn, ParseLine;
      KeysOfMore(Parse(init), ParseLine(last));
    }
  }

  /** All of it for the launcher's own keys and comment, for any file and any paths. */
  lemma LauncherEnsures(existing: string, paths: Paths)
    ensures var keys := CertEnvKeys(paths); var missing := Missing(Split(existing), keys);
      var out := Ensured(existing, COMMENT, keys);
      && existing <= out && Load(existing) <= Load(out)
      && (Load(out) == Load(existing) + missing <==> AllPlain(missing))
      && Ensured(out, COMMENT, keys) == out
  {
    var keys := CertEnvKeys(paths);
    ManagedCommentIsQuiet();
    CertKeysArePlain(paths);
    hide *;
    OldTextIsPrefix(existing, COMMENT, keys);
    OldPairsStay(existing, COMMENT, keys);
    LoadEnsured(existing, COMMENT, keys);
    EnsureTwice(existing, COMMENT, keys);
  }

  lemma GroupAppended(base: string, comment: string, added: string)
    ensures base + "\n" + comment + "\n" + added + "\n" == base + "\n" + (comment + "\n" + (added + "\n"))
  {
  }

  lemma MiddleLine(base: string, line: string, rest: string)
    requires OneLine(line)
    ensures line in Split(base + "\n" + (line + "\n" + rest))
  {
    SplitAtNewline(base, line + "\n" + rest);
    SplitAtNewline(line, rest);
    SplitOneLine(line);
    hide Split;
    assert line in [line];
  }

  /** Keys added to a file that holds something come under the comment, on a line of its own. */
  lemma CommentIsLine(existing: string, comment: string, keys: seq<Pair>)
    requires existing != "" && OneLine(comment) && Missing(Split(existing), keys) != []
    ensures comment in Split(Ensured(existing, comment, keys))
  {
    hide Split, Join, Base, Missing, OneLine;
    var added := Join(PrintedAll(Missing(Split(existing), keys)));
    GroupAppended(Base(existing), comment, added);
    MiddleLine(Base(existing), comment, added + "\n");
  }
}
