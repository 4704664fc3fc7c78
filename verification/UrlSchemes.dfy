/** Keeping URL schemes in `.env` in line with the TLS state (tools/friday-launcher/cert_env.go:130-288). */
module UrlSchemes {
  import opened Options
  import opened Lines
  import opened DotEnv

  const HTTP := "http://"
  const HTTPS := "https://"

  predicate Listed(key: string) {
    key == "FRIDAYD_URL" || key == "EXTERNAL_DAEMON_URL" || key == "EXTERNAL_TUNNEL_URL" || key == "LINK_SERVICE_URL"
  }

  // ---- loopback hosts ----

  predicate HostIs(rest: string, host: string) {
    rest == host || host + "/" <= rest || host + ":" <= rest
  }

  /** The host part is `localhost`, `127.0.0.1` or, in brackets, `::1`; after the bracket anything may follow. */
  predicate Loopback(rest: string) {
    "[::1]" <= rest || HostIs(rest, "localhost") || HostIs(rest, "127.0.0.1")
  }

  predicate HostEnd(c: char) {
    c == '/' || c == ':'
  }

  /** The host ends at the first slash or colon. */
  method HostLength(rest: string) returns (end: nat)
    ensures end <= |rest| && (forall i | 0 <= i < end :: !HostEnd(rest[i]))
    ensures end < |rest| ==> HostEnd(rest[end])
  {
    end := |rest|;
    var i := 0;
    while i < |rest|
      invariant i <= |rest| == end && forall j | 0 <= j < i :: !HostEnd(rest[j])
    {
      if rest[i] == '/' || rest[i] == ':' {
        end := i;
        break;
      }
      i := i + 1;
    }
  }

  ghost predicate NoHostEnd(host: string) {
    forall i | 0 <= i < |host| :: !HostEnd(host[i])
  }

  lemma HostByLength(rest: string, end: nat, host: string)
    requires end <= |rest| && (forall i | 0 <= i < end :: !HostEnd(rest[i]))
    requires end < |rest| ==> HostEnd(rest[end])
    requires NoHostEnd(host)
    ensures rest[..end] == host <==> HostIs(rest, host)
  {
    if HostIs(rest, host) {
      assert rest[..|host|] == host;
      forall i | 0 <= i < |host| ensures !HostEnd(rest[i]) {
        assert rest[i] == host[i];
      }
      assert |host| < |rest| ==> HostEnd(rest[|host|]);
    }
  }

  lemma NamesHaveNoEnd()
    ensures NoHostEnd("localhost") && NoHostEnd("127.0.0.1")
  {
  }

  lemma ClosedAtFour(rest: string)
    requires "[::1]" <= rest
    ensures IndexOf(rest, ']') == 4 && rest[1..4] == "::1"
  {
    assert rest[..5] == "[::1]";
    IndexOfIs(rest, ']', 4);
  }

  lemma BracketedLoopback(rest: string, end: nat)
    requires "[" <= rest && 0 < end < |rest| && rest[end] == ']' && rest[1..end] == "::1"
    ensures "[::1]" <= rest
  {
  }

  lemma BracketIsNoName(rest: string)
    requires "[" <= rest
    ensures !HostIs(rest, "localhost") && !HostIs(rest, "127.0.0.1")
  {
    assert rest[0] == '[';
  }

  /** The bracketed form: the text up to the first closing bracket is `::1`. */
  lemma Bracketed(rest: string)
    requires "[" <= rest
    ensures Loopback(rest) <==> IndexOf(rest, ']') > 0 && rest[1..IndexOf(rest, ']')] == "::1"
  {
    BracketIsNoName(rest);
    var end := IndexOf(rest, ']');
    hide HostIs;
    if "[::1]" <= rest {
      ClosedAtFour(rest);
    }
    if end > 0 && rest[1..end] == "::1" {
      BracketedLoopback(rest, end);
    }
  }

  lemma NoBracket(rest: string)
    requires !("[" <= rest)
    ensures !("[::1]" <= rest)
  {
  }

  method StartsWithLoopbackHost(rest: string) returns (yes: bool)
    ensures yes <==> Loopback(rest)
  {
    if "[" <= rest {
      Bracketed(rest);
      var end := IndexOf(rest, ']');
      if end > 0 {
        return rest[1..end] == "::1";
      }
      return false;
    }
    var end := HostLength(rest);
    NamesHaveNoEnd();
    HostByLength(rest, end, "localhost");
    HostByLength(rest, end, "127.0.0.1");
    NoBracket(rest);
    var host := rest[..end];
    return host == "localhost" || host == "127.0.0.1";
  }

  // ---- one value ----

  /** The value with its scheme brought in line: only a loopback URL with the other scheme changes. */
  function Swap(value: string, tlsOn: bool): string {
    if tlsOn && HTTP <= value && Loopback(value[7..]) then HTTPS + value[7..]
    else if !tlsOn && HTTPS <= value && Loopback(value[8..]) then HTTP + value[8..]
    else value
  }

  method SwapURLScheme(value: string, tlsOn: bool) returns (result: string, changed: bool)
    ensures result == Swap(value, tlsOn) && (changed <==> Swap(value, tlsOn) != value)
  {
    if tlsOn && HTTP <= value {
      var rest := value[|HTTP|..];
      var loopback := StartsWithLoopbackHost(rest);
      if !loopback {
        return value, false;
      }
      return HTTPS + rest, true;
    }
    if !tlsOn && HTTPS <= value {
      var rest := value[|HTTPS|..];
      var loopback := StartsWithLoopbackHost(rest);
      if !loopback {
        return value, false;
      }
      return HTTP + rest, true;
    }
    return value, false;
  }

  // ---- one line ----

  /** The key and raw value of a line that may be rewritten. */
  function Candidate(line: string): Option<Pair> {
    if Ignored(line) then None
    else
      var eq := IndexOf(line, '=');
      if eq <= 0 then None
      else
        var key := Trim(line[..eq], GoSpace);
        if Listed(key) then Some(Pair(key, line[eq + 1..])) else None
  }

  function RewriteLine(line: string, tlsOn: bool): string {
    match Candidate(line)
    case None => line
    case Some(p) => if Swap(p.value, tlsOn) == p.value then line else p.key + "=" + Swap(p.value, tlsOn)
  }

  function Rewrite(lines: seq<string>, tlsOn: bool): seq<string> {
    seq(|lines|, i requires 0 <= i < |lines| => RewriteLine(lines[i], tlsOn))
  }

  function Changes(lines: seq<string>, tlsOn: bool): nat {
    if lines == [] then 0
    else
      Changes(lines[..|lines| - 1], tlsOn)
        + (if RewriteLine(lines[|lines| - 1], tlsOn) != lines[|lines| - 1] then 1 else 0)
  }

  /** The file after the call. */
  function Migrated(text: string, tlsOn: bool): string {
    Join(Rewrite(Split(text), tlsOn))
  }

  // ---- what a rewritten line is ----

  lemma ListedIsPlain(key: string)
    requires Listed(key)
    ensures PlainKey(key)
  {
  }

  lemma CandidateIsParsed(line: string)
    requires Candidate(line).Some?
    ensures var p := Candidate(line).value; ParseLine(line) == Some(Pair(p.key, ValueOf(p.value))) && Listed(p.key)
    ensures IndexOf(line, '=') >= 0 && Candidate(line).value.value == line[IndexOf(line, '=') + 1..]
  {
  }

  lemma PrintedCandidate(key: string, raw: string)
    requires Listed(key)
    ensures Candidate(key + "=" + raw) == Some(Pair(key, raw))
  {
    ListedIsPlain(key);
    var line := key + ['='] + raw;
    assert line[0] == key[0];
    TrimKeepsFirst(line, GoSpace);
    IndexOfFront(key, '=', raw);
    NothingToTrim(key, GoSpace);
    assert line[..|key|] == key && line[|key| + 1..] == raw;
  }

  /** A rewritten line is again a candidate with the same key, holding the swapped value. */
  lemma RewrittenCandidate(line: string, tlsOn: bool)
    ensures match Candidate(line)
      case None => Candidate(RewriteLine(line, tlsOn)) == None
      case Some(p) => Candidate(RewriteLine(line, tlsOn)) == Some(Pair(p.key, Swap(p.value, tlsOn)))
  {
    if Candidate(line).Some? {
      var p := Candidate(line).value;
      hide Swap;
      if Swap(p.value, tlsOn) != p.value {
        PrintedCandidate(p.key, Swap(p.value, tlsOn));
      }
    }
  }

  // ---- the loop over the file ----

  lemma SwapChangesLine(line: string, p: Pair, tlsOn: bool)
    requires Candidate(line) == Some(p) && Swap(p.value, tlsOn) != p.value
    ensures RewriteLine(line, tlsOn) == p.key + "=" + Swap(p.value, tlsOn) != line
  {
    hide Swap;
    RewrittenCandidate(line, tlsOn);
  }

  /** One line of the loop. */
  method MigrateLine(line: string, tlsOn: bool) returns (result: string, changed: bool)
    ensures result == RewriteLine(line, tlsOn) && (changed <==> result != line)
  {
    if Ignored(line) {
      return line, false;
    }
    var eq := IndexOf(line, '=');
    if eq <= 0 {
      return line, false;
    }
    var key := Trim(line[..eq], GoSpace);
    if !Listed(key) {
      return line, false;
    }
    hide Swap, Listed, Ignored;
    var rewritten, swapped := SwapURLScheme(line[eq + 1..], tlsOn);
    if !swapped {
      return line, false;
    }
    SwapChangesLine(line, Pair(key, line[eq + 1..]), tlsOn);
    return key + "=" + rewritten, true;
  }

  lemma ChangesNext(lines: seq<string>, i: nat, tlsOn: bool)
    requires i < |lines|
    ensures Changes(lines[..i + 1], tlsOn)
      == Changes(lines[..i], tlsOn) + if RewriteLine(lines[i], tlsOn) != lines[i] then 1 else 0
  {
    assert lines[..i + 1][..i] == lines[..i];
  }

  lemma {:induction false} NoChange(lines: seq<string>, tlsOn: bool)
    ensures Changes(lines, tlsOn) == 0 <==> Rewrite(lines, tlsOn) == lines
  {
    hide RewriteLine;
    if lines != [] {
      var init, last := lines[..|lines| - 1], lines[|lines| - 1];
      NoChange(init, tlsOn);
      var r := Rewrite(lines, tlsOn);
      assert r[..|init|] == Rewrite(init, tlsOn) && r[|init|] == RewriteLine(last, tlsOn);
      assert r == Rewrite(init, tlsOn) + [RewriteLine(last, tlsOn)] && lines == init + [last];
      if Rewrite(init, tlsOn) != init {
        assert r != lines;
      }
    }
  }

  /** The lines are rewritten one by one, in place. */
  method MigrateLines(before: seq<string>, tlsOn: bool) returns (lines: seq<string>, migrated: nat)
    ensures lines == Rewrite(before, tlsOn) && migrated == Changes(before, tlsOn)
  {
    hide RewriteLine;
    lines, migrated := before, 0;
    var i := 0;
    while i < |lines|
      invariant i <= |lines| == |before| && migrated == Changes(before[..i], tlsOn)
      invariant forall j | 0 <= j < i :: lines[j] == RewriteLine(before[j], tlsOn)
      invariant forall j | i <= j < |lines| :: lines[j] == before[j]
    {
      var result, changed := MigrateLine(lines[i], tlsOn);
      ChangesNext(before, i, tlsOn);
      if changed {
        lines := lines[i := result];
        migrated := migrated + 1;
      }
      i := i + 1;
    }
    assert before[..|before|] == before;
  }

  /** `migrateStaleURLSchemes` on a file that can be read: written only when some line changed. */
  method MigrateStaleURLSchemes(raw: string, tlsOn: bool) returns (written: Option<string>, migrated: nat)
    ensures migrated == Changes(Split(raw), tlsOn) && (written.None? <==> migrated == 0)
    ensures written.GetOr(raw) == Migrated(raw, tlsOn)
  {
    hide Split, Join, Rewrite, Changes;
    var lines;
    lines, migrated := MigrateLines(Split(raw), tlsOn);
    JoinSplit(raw);
    NoChange(Split(raw), tlsOn);
    if migrated == 0 {
      return None, 0;
    }
    written := Some(Join(lines));
  }

  // ---- the file afterwards ----

  lemma SwapOnOneLine(value: string, tlsOn: bool)
    requires OneLine(value)
    ensures OneLine(Swap(value, tlsOn))
  {
    hide Loopback;
  }

  lemma RewriteOnOneLine(line: string, tlsOn: bool)
    requires OneLine(line)
    ensures OneLine(RewriteLine(line, tlsOn))
  {
    if Candidate(line).Some? {
      var p := Candidate(line).value;
      CandidateIsParsed(line);
      TrimLeavesPlain(line[..IndexOf(line, '=')], GoSpace);
      SwapOnOneLine(p.value, tlsOn);
      hide Swap;
    }
  }

  /** The lines of the new file are the old lines, each rewritten: none is added or lost. */
  lemma MigratedLines(text: string, tlsOn: bool)
    ensures Split(Migrated(text, tlsOn)) == Rewrite(Split(text), tlsOn)
    ensures |Split(Migrated(text, tlsOn))| == |Split(text)|
  {
    var lines := Split(text);
    SplitGivesLines(text);
    hide Split, RewriteLine, OneLine;
    forall i | 0 <= i < |lines| ensures OneLine(Rewrite(lines, tlsOn)[i]) {
      assert OneLine(lines[i]);
      RewriteOnOneLine(lines[i], tlsOn);
    }
    hide Join;
    SplitJoin(Rewrite(lines, tlsOn));
  }

  // ---- repeating it, and switching back ----

  lemma SchemesDiffer(rest: string)
    ensures !(HTTP <= HTTPS + rest) && !(HTTPS <= HTTP + rest)
    ensures (HTTPS + rest)[8..] == rest && (HTTP + rest)[7..] == rest
  {
    assert (HTTPS + rest)[4] == 's' && (HTTP + rest)[4] == ':';
  }

  /** A value in line stays in line. */
  lemma SwapTwice(value: string, tlsOn: bool)
    ensures Swap(Swap(value, tlsOn), tlsOn) == Swap(value, tlsOn)
  {
    hide Loopback;
    if Swap(value, tlsOn) != value {
      SchemesDiffer(value[if tlsOn then 7 else 8..]);
    }
  }

  /** Turning TLS on and off again ends where turning it off ends. */
  lemma SwapBack(value: string)
    ensures Swap(Swap(value, true), false) == Swap(value, false)
  {
    hide Loopback;
    if Swap(value, true) != value {
      SchemesDiffer(value[7..]);
      assert value == HTTP + value[7..];
    }
  }

  lemma RewriteTwice(line: string, tlsOn: bool)
    ensures RewriteLine(RewriteLine(line, tlsOn), tlsOn) == RewriteLine(line, tlsOn)
  {
    RewrittenCandidate(line, tlsOn);
    if Candidate(line).Some? {
      SwapTwice(Candidate(line).value.value, tlsOn);
    }
    hide Candidate, Swap;
  }

  /** For a fixed TLS state a second call changes nothing. */
  lemma MigrateTwice(text: string, tlsOn: bool)
    ensures Migrated(Migrated(text, tlsOn), tlsOn) == Migrated(text, tlsOn)
  {
    MigratedLines(text, tlsOn);
    var lines := Split(text);
    hide Split, Join, RewriteLine;
    forall i | 0 <= i < |lines|
      ensures RewriteLine(Rewrite(lines, tlsOn)[i], tlsOn) == Rewrite(lines, tlsOn)[i]
    {
      RewriteTwice(lines[i], tlsOn);
    }
    assert Rewrite(Rewrite(lines, tlsOn), tlsOn) == Rewrite(lines, tlsOn);
  }

  // ---- what the launcher loads afterwards ----

  lemma LastPiece(a: seq<Pair>, x: Option<Pair>, b: seq<Pair>, y: Option<Pair>)
    requires |a| == |b| && x.Some? == y.Some?
    ensures a + OnePair(x) == b + OnePair(y) <==> a == b && x == y
  {
    var s, t := a + OnePair(x), b + OnePair(y);
    assert s[..|a|] == a && t[..|a|] == b;
    assert x.Some? ==> s[|a|] == x.value && t[|a|] == y.value;
  }

  /** Files whose lines define pairs in the same places load the same exactly when they do so line by line. */
  lemma {:induction false} ParseLineByLine(a: seq<string>, b: seq<string>)
    requires |a| == |b| && forall i | 0 <= i < |a| :: ParseLine(a[i]).Some? == ParseLine(b[i]).Some?
    ensures |Parse(a)| == |Parse(b)|
    ensures Parse(a) == Parse(b) <==> forall i | 0 <= i < |a| :: ParseLine(a[i]) == ParseLine(b[i])
  {
    hide ParseLine;
    if a != [] {
      var n := |a| - 1;
      ParseLineByLine(a[..n], b[..n]);
      LastPiece(Parse(a[..n]), ParseLine(a[n]), Parse(b[..n]), ParseLine(b[n]));
      if Parse(a) == Parse(b) {
        forall i | 0 <= i < |a| ensures ParseLine(a[i]) == ParseLine(b[i]) {
          assert i < n ==> a[..n][i] == a[i] && b[..n][i] == b[i];
        }
      }
    }
  }

  lemma ParseRewritten(line: string, tlsOn: bool)
    ensures match Candidate(line)
      case None => RewriteLine(line, tlsOn) == line
      case Some(p) =>
        && ParseLine(line) == Some(Pair(p.key, ValueOf(p.value))) && Listed(p.key)
        && ParseLine(RewriteLine(line, tlsOn)) == Some(Pair(p.key, ValueOf(Swap(p.value, tlsOn))))
  {
    RewrittenCandidate(line, tlsOn);
    hide Swap;
    if Candidate(line).Some? {
      CandidateIsParsed(line);
      CandidateIsParsed(RewriteLine(line, tlsOn));
    }
  }

  lemma OnThenOffLine(line: string)
    ensures ParseLine(RewriteLine(RewriteLine(line, true), false)) == ParseLine(RewriteLine(line, false))
  {
    RewrittenCandidate(line, true);
    ParseRewritten(line, false);
    ParseRewritten(RewriteLine(line, true), false);
    hide RewriteLine, Swap, Candidate, ParseLine;
    if Candidate(line).Some? {
      SwapBack(Candidate(line).value.value);
    } else {
      ParseRewritten(line, true);
    }
  }

  /** TLS on and then off loads like TLS off alone: whatever started as `http` is `http` again. */
  lemma OnThenOff(text: string)
    ensures Load(Migrated(Migrated(text, true), false)) == Load(Migrated(text, false))
  {
    var lines := Split(text);
    MigratedLines(text, true);
    MigratedLines(text, false);
    MigratedLines(Migrated(text, true), false);
    hide Split, Migrated, RewriteLine, Parse, ParseLine;
    var a, b := Rewrite(Rewrite(lines, true), false), Rewrite(lines, false);
    forall i | 0 <= i < |a| ensures ParseLine(a[i]) == ParseLine(b[i]) {
      OnThenOffLine(lines[i]);
    }
    ParseLineByLine(a, b);
  }

  /** A URL loses only trailing carriage returns when it is loaded. */
  lemma ValueOfURL(scheme: string, rest: string)
    requires scheme == HTTP || scheme == HTTPS
    ensures ValueOf(scheme + rest) == scheme + TrimRight(rest, IsCR)
  {
    assert scheme[|scheme| - 1] == '/' && scheme[0] == 'h';
    TrimRightAppend(scheme, rest, IsCR);
    assert (scheme + TrimRight(rest, IsCR))[0] == 'h';
  }

  lemma SwapIsSeen(value: string, tlsOn: bool)
    requires Swap(value, tlsOn) != value
    ensures ValueOf(Swap(value, tlsOn)) != ValueOf(value)
  {
    hide Loopback;
    var from, to := if tlsOn then HTTP else HTTPS, if tlsOn then HTTPS else HTTP;
    var rest := value[|from|..];
    assert value == from + rest;
    ValueOfURL(from, rest);
    ValueOfURL(to, rest);
  }

  lemma OffIsSeen(line: string)
    ensures ParseLine(RewriteLine(line, false)) == ParseLine(line) <==> RewriteLine(line, false) == line
    ensures ParseLine(RewriteLine(line, false)).Some? == ParseLine(line).Some?
  {
    ParseRewritten(line, false);
    hide ParseLine, Swap;
    if Candidate(line).Some? && Swap(Candidate(line).value.value, false) != Candidate(line).value.value {
      SwapIsSeen(Candidate(line).value.value, false);
    }
  }

  /** A listed key with an `https` loopback URL. */
  predicate HoldsHttps(line: string) {
    var c := Candidate(line);
    c.Some? && HTTPS <= c.value.value && Loopback(c.value.value[8..])
  }

  lemma HoldsHttpsIsTurned(line: string)
    ensures HoldsHttps(line) <==> RewriteLine(line, false) != line
  {
    hide Loopback;
    if HoldsHttps(line) {
      var p := Candidate(line).value;
      SwapChangesLine(line, p, false);
    }
  }

  /** On and off again gives back every loaded pair exactly when no listed key held an `https` loopback URL at first. */
  lemma OnThenOffRestores(text: string)
    ensures Load(Migrated(Migrated(text, true), false)) == Load(text)
      <==> forall i | 0 <= i < |Split(text)| :: !HoldsHttps(Split(text)[i])
  {
    var lines := Split(text);
    OnThenOff(text);
    MigratedLines(text, false);
    hide Split, Migrated, RewriteLine, Parse, ParseLine, HoldsHttps;
    var a := Rewrite(lines, false);
    forall i | 0 <= i < |lines|
      ensures ParseLine(a[i]).Some? == ParseLine(lines[i]).Some?
      ensures ParseLine(a[i]) == ParseLine(lines[i]) <==> !HoldsHttps(lines[i])
    {
      OffIsSeen(lines[i]);
      HoldsHttpsIsTurned(lines[i]);
    }
    ParseLineByLine(a, lines);
  }

  // ---- only loopback values of listed keys change ----

  lemma KeepPrefix(a: string, rest: string)
    requires a <= rest && a != "" && a[|a| - 1] != '\r'
    ensures a <= TrimRight(rest, IsCR)
  {
    assert rest == a + rest[|a|..];
    TrimRightAppend(a, rest[|a|..], IsCR);
  }

  lemma HostTrimmed(rest: string, host: string)
    requires HostIs(rest, host) && host != "" && host[|host| - 1] != '\r'
    ensures HostIs(TrimRight(rest, IsCR), host)
  {
    if host + "/" <= rest {
      KeepPrefix(host + "/", rest);
    } else if host + ":" <= rest {
      KeepPrefix(host + ":", rest);
    }
  }

  lemma LoopbackTrimmed(rest: string)
    requires Loopback(rest)
    ensures Loopback(TrimRight(rest, IsCR))
  {
    if "[::1]" <= rest {
      KeepPrefix("[::1]", rest);
    } else if HostIs(rest, "localhost") {
      HostTrimmed(rest, "localhost");
    } else {
      HostTrimmed(rest, "127.0.0.1");
    }
  }

  /** A swapped raw value is loaded as the swapped loaded value. */
  lemma SwapIsLoaded(value: string, tlsOn: bool)
    requires Swap(value, tlsOn) != value
    ensures ValueOf(Swap(value, tlsOn)) == Swap(ValueOf(value), tlsOn)
  {
    var from, to := if tlsOn then HTTP else HTTPS, if tlsOn then HTTPS else HTTP;
    var rest := value[|from|..];
    LoopbackTrimmed(rest);
    hide Loopback;
    assert value == from + rest;
    ValueOfURL(from, rest);
    ValueOfURL(to, rest);
    var t := TrimRight(rest, IsCR);
    assert (from + t)[|from|..] == t;
    assert from <= from + t;
  }

  /** What may happen to one pair: nothing, or for a listed key the swap of a loopback URL. */
  predicate InLine(before: Pair, after: Pair, tlsOn: bool) {
    after == before || (Listed(before.key) && after == Pair(before.key, Swap(before.value, tlsOn)))
  }

  predicate InLineLine(before: Option<Pair>, after: Option<Pair>, tlsOn: bool) {
    before.Some? == after.Some? && (before.Some? ==> InLine(before.value, after.value, tlsOn))
  }

  lemma RewrittenInLine(line: string, tlsOn: bool)
    ensures InLineLine(ParseLine(line), ParseLine(RewriteLine(line, tlsOn)), tlsOn)
  {
    ParseRewritten(line, tlsOn);
    hide ParseLine, Swap, Listed;
    if Candidate(line).Some? && Swap(Candidate(line).value.value, tlsOn) != Candidate(line).value.value {
      SwapIsLoaded(Candidate(line).value.value, tlsOn);
    }
  }

  ghost predicate AllInLine(before: seq<Pair>, after: seq<Pair>, tlsOn: bool) {
    |before| == |after| && forall i | 0 <= i < |before| :: InLine(before[i], after[i], tlsOn)
  }

  lemma AllInLineMore(a: seq<Pair>, x: Option<Pair>, b: seq<Pair>, y: Option<Pair>, tlsOn: bool)
    requires AllInLine(a, b, tlsOn) && InLineLine(x, y, tlsOn)
    ensures AllInLine(a + OnePair(x), b + OnePair(y), tlsOn)
  {
    hide InLine;
    var s, t := a + OnePair(x), b + OnePair(y);
    assert |s| == |t|;
    forall i | 0 <= i < |s| ensures InLine(s[i], t[i], tlsOn) {
      if i < |a| {
        assert s[i] == a[i] && t[i] == b[i];
      }
    }
  }

  lemma {:induction false} ParseInLine(lines: seq<string>, tlsOn: bool)
    ensures AllInLine(Parse(lines), Parse(Rewrite(lines, tlsOn)), tlsOn)
  {
    hide ParseLine, RewriteLine, InLine, InLineLine;
    if lines != [] {
      var init, last := lines[..|lines| - 1], lines[|lines| - 1];
      var r := Rewrite(lines, tlsOn);
      ParseInLine(init, tlsOn);
      RewrittenInLine(last, tlsOn);
      hide AllInLine;
      assert r[..|r| - 1] == Rewrite(init, tlsOn);
      AllInLineMore(Parse(init), ParseLine(last), Parse(Rewrite(init, tlsOn)), ParseLine(RewriteLine(last, tlsOn)),
        tlsOn);
    }
  }

  /** The file loads with the same keys in the same order; only loopback URLs of listed keys may differ, by their
      scheme. */
  lemma OnlyListedLoopbackChanges(text: string, tlsOn: bool)
    ensures AllInLine(Load(text), Load(Migrated(text, tlsOn)), tlsOn)
  {
    MigratedLines(text, tlsOn);
    hide Split, Migrated, Parse, Rewrite, AllInLine;
    ParseInLine(Split(text), tlsOn);
  }

  // ---- which loaded values are in line afterwards ----

  function WrongScheme(tlsOn: bool): string {
    if tlsOn then HTTP else HTTPS
  }

  /** A loopback URL with the scheme that does not fit the TLS state. */
  predicate WrongURL(value: string, tlsOn: bool) {
    WrongScheme(tlsOn) <= value && Loopback(value[|WrongScheme(tlsOn)|..])
  }

  lemma WrongURLIsSwapped(value: string, tlsOn: bool)
    ensures WrongURL(value, tlsOn) <==> Swap(value, tlsOn) != value
  {
    hide Loopback;
  }

  /** Quotes around such a URL, with carriage returns behind them or not: the raw value starts with the quote. */
  predicate QuotedURL(raw: string, tlsOn: bool) {
    var t := TrimRight(raw, IsCR);
    Unquote(t) != t && WrongURL(Unquote(t), tlsOn)
  }

  /** A URL that ends with the host, and then carriage returns: to the scan they belong to the host. */
  predicate BareWithCR(raw: string, tlsOn: bool) {
    var t := TrimRight(raw, IsCR);
    t != raw && (t == WrongScheme(tlsOn) + "localhost" || t == WrongScheme(tlsOn) + "127.0.0.1")
  }

  predicate Missed(raw: string, tlsOn: bool) {
    QuotedURL(raw, tlsOn) || BareWithCR(raw, tlsOn)
  }

  /** Text that trimming takes off starts with a carriage return. */
  lemma TrimmedTail(s: string) returns (tail: string)
    ensures s == TrimRight(s, IsCR) + tail && (tail != "" ==> tail[0] == '\r')
  {
    TrimRightIsPrefix(s, IsCR);
    tail := s[|TrimRight(s, IsCR)|..];
  }

  lemma HostThenCR(host: string, name: string, tail: string)
    requires tail != "" && tail[0] == '\r'
    requires |host| == |name| && (host == name || (host != "" && host[0] != name[0]))
    ensures !HostIs(host + tail, name)
  {
    var rest := host + tail;
    if host == name {
      assert rest[|name|] == '\r' && (name + "/")[|name|] == '/' && (name + ":")[|name|] == ':';
    } else {
      assert rest[0] == host[0] && (name + "/")[0] == name[0] && (name + ":")[0] == name[0];
    }
  }

  /** A name is loopback, and no longer when a carriage return follows it. */
  lemma NameThenCR(host: string, tail: string)
    requires host == "localhost" || host == "127.0.0.1"
    requires tail != "" && tail[0] == '\r'
    ensures Loopback(host) && !Loopback(host + tail)
  {
    HostThenCR(host, "localhost", tail);
    HostThenCR(host, "127.0.0.1", tail);
    assert (host + tail)[0] == host[0] != '[';
  }

  lemma PrefixGoesOn(a: string, b: string, tail: string)
    ensures a <= b ==> a <= b + tail
  {
  }

  /** What follows does not matter, except behind a bare name. */
  lemma LoopbackGoesOn(rest: string, tail: string)
    requires Loopback(rest) && rest != "localhost" && rest != "127.0.0.1"
    ensures Loopback(rest + tail)
  {
    PrefixGoesOn("[::1]", rest, tail);
    PrefixGoesOn("localhost" + "/", rest, tail);
    PrefixGoesOn("localhost" + ":", rest, tail);
    PrefixGoesOn("127.0.0.1" + "/", rest, tail);
    PrefixGoesOn("127.0.0.1" + ":", rest, tail);
  }

  lemma UnquoteURL(t: string, tlsOn: bool)
    requires WrongScheme(tlsOn) <= t
    ensures Unquote(t) == t
  {
    assert t[0] == WrongScheme(tlsOn)[0] == 'h';
  }

  lemma TailIsThere(raw: string, tail: string)
    requires raw == TrimRight(raw, IsCR) + tail && TrimRight(raw, IsCR) != raw
    ensures tail != ""
  {
    hide TrimRight;
  }

  /** A URL is its scheme and the rest, also with more text behind it. */
  lemma SchemeAndRest(scheme: string, rest: string, tail: string)
    ensures scheme <= scheme + rest && (scheme + rest)[|scheme|..] == rest
    ensures scheme + rest + tail == scheme + (rest + tail)
  {
  }

  lemma WrongURLOf(rest: string, tlsOn: bool)
    ensures WrongURL(WrongScheme(tlsOn) + rest, tlsOn) <==> Loopback(rest)
  {
    SchemeAndRest(WrongScheme(tlsOn), rest, "");
    hide Loopback, WrongScheme;
  }

  lemma BareIsNoURL(raw: string, tlsOn: bool)
    requires BareWithCR(raw, tlsOn)
    ensures !WrongURL(raw, tlsOn) && WrongURL(TrimRight(raw, IsCR), tlsOn)
  {
    var tail := TrimmedTail(raw);
    hide Loopback, TrimRight, WrongURL, WrongScheme;
    var host := if TrimRight(raw, IsCR) == WrongScheme(tlsOn) + "localhost" then "localhost" else "127.0.0.1";
    SchemeAndRest(WrongScheme(tlsOn), host, tail);
    TailIsThere(raw, tail);
    NameThenCR(host, tail);
    WrongURLOf(host, tlsOn);
    WrongURLOf(host + tail, tlsOn);
  }

  /** A swapped value is in line, and is not one of the missed kinds. */
  lemma SwappedIsInLine(raw: string, tlsOn: bool)
    requires WrongURL(raw, tlsOn)
    ensures !WrongURL(ValueOf(Swap(raw, tlsOn)), tlsOn) && !Missed(raw, tlsOn)
  {
    var from, to := WrongScheme(tlsOn), WrongScheme(!tlsOn);
    var rest := raw[|from|..];
    assert raw == from + rest;
    ValueOfURL(from, rest);
    ValueOfURL(to, rest);
    SchemesDiffer(TrimRight(rest, IsCR));
    TrimRightAppend(from, rest, IsCR);
    var t := TrimRight(raw, IsCR);
    assert t == from + TrimRight(rest, IsCR);
    hide Loopback;
    UnquoteURL(t, tlsOn);
    if BareWithCR(raw, tlsOn) {
      BareIsNoURL(raw, tlsOn);
    }
  }

  lemma SchemeTaken(url: string, tlsOn: bool) returns (rest: string)
    requires WrongURL(url, tlsOn)
    ensures url == WrongScheme(tlsOn) + rest && Loopback(rest)
  {
    hide Loopback, WrongScheme;
    rest := url[|WrongScheme(tlsOn)|..];
  }

  /** A raw URL that is not swapped although its trimmed text is one: only a bare name with carriage returns. */
  lemma TrimmedURLIsBare(raw: string, tlsOn: bool)
    requires WrongURL(TrimRight(raw, IsCR), tlsOn) && !WrongURL(raw, tlsOn)
    ensures BareWithCR(raw, tlsOn)
  {
    var tail := TrimmedTail(raw);
    var rest := SchemeTaken(TrimRight(raw, IsCR), tlsOn);
    hide Loopback, TrimRight, WrongURL, WrongScheme;
    SchemeAndRest(WrongScheme(tlsOn), rest, tail);
    WrongURLOf(rest + tail, tlsOn);
    if rest != "localhost" && rest != "127.0.0.1" {
      LoopbackGoesOn(rest, tail);
    }
  }

  /** After the migration the loaded value is a loopback URL with the wrong scheme exactly for the two missed kinds. */
  lemma MissedExactly(raw: string, tlsOn: bool)
    ensures WrongURL(ValueOf(Swap(raw, tlsOn)), tlsOn) <==> Missed(raw, tlsOn)
  {
    WrongURLIsSwapped(raw, tlsOn);
    if WrongURL(raw, tlsOn) {
      SwappedIsInLine(raw, tlsOn);
    } else {
      var t := TrimRight(raw, IsCR);
      hide Loopback, Swap, TrimRight;
      if Unquote(t) == t && WrongURL(t, tlsOn) {
        TrimmedURLIsBare(raw, tlsOn);
      }
      if BareWithCR(raw, tlsOn) {
        BareIsNoURL(raw, tlsOn);
        UnquoteURL(t, tlsOn);
      }
    }
  }

  /** What the launcher loads for a listed key: the value brought in line, unless it is one of the missed kinds. */
  lemma LoadedSwap(raw: string, tlsOn: bool)
    ensures ValueOf(Swap(raw, tlsOn)) == if Missed(raw, tlsOn) then ValueOf(raw) else Swap(ValueOf(raw), tlsOn)
  {
    MissedExactly(raw, tlsOn);
    WrongURLIsSwapped(raw, tlsOn);
    WrongURLIsSwapped(ValueOf(raw), tlsOn);
    if Swap(raw, tlsOn) != raw {
      SwapIsLoaded(raw, tlsOn);
      SwappedIsInLine(raw, tlsOn);
    }
    hide Swap, Missed, ValueOf, WrongURL;
  }

  /** What a line of the old file is loaded as afterwards: a listed loopback URL comes in line unless it is missed. */
  function LoadedLine(line: string, tlsOn: bool): Option<Pair> {
    match Candidate(line)
    case None => ParseLine(line)
    case Some(p) =>
      var value := ValueOf(p.value);
      Some(Pair(p.key, if Missed(p.value, tlsOn) then value else Swap(value, tlsOn)))
  }

  function LoadedLines(lines: seq<string>, tlsOn: bool): seq<Pair> {
    if lines == [] then []
    else LoadedLines(lines[..|lines| - 1], tlsOn) + OnePair(LoadedLine(lines[|lines| - 1], tlsOn))
  }

  lemma LineLoads(line: string, tlsOn: bool)
    ensures ParseLine(RewriteLine(line, tlsOn)) == LoadedLine(line, tlsOn)
  {
    ParseRewritten(line, tlsOn);
    hide ParseLine, RewriteLine, Swap, Missed, ValueOf, Listed;
    if Candidate(line).Some? {
      LoadedSwap(Candidate(line).value.value, tlsOn);
    }
  }

  lemma {:induction false} LinesLoad(lines: seq<string>, tlsOn: bool)
    ensures Parse(Rewrite(lines, tlsOn)) == LoadedLines(lines, tlsOn)
  {
    hide ParseLine, RewriteLine, LoadedLine;
    if lines != [] {
      var init, last := lines[..|lines| - 1], lines[|lines| - 1];
      LinesLoad(init, tlsOn);
      LineLoads(last, tlsOn);
      var r := Rewrite(lines, tlsOn);
      assert r[..|r| - 1] == Rewrite(init, tlsOn) && r[|r| - 1] == RewriteLine(last, tlsOn);
    }
  }

  /** The migrated file loads, line by line, as just said: which pairs change, and to what. */
  lemma MigratedLoads(text: string, tlsOn: bool)
    ensures Load(Migrated(text, tlsOn)) == LoadedLines(Split(text), tlsOn)
  {
    MigratedLines(text, tlsOn);
    hide Split, Migrated, Parse, Rewrite, LoadedLines;
    LinesLoad(Split(text), tlsOn);
  }

  predicate MissedLine(line: string, tlsOn: bool) {
    Candidate(line).Some? && Missed(Candidate(line).value.value, tlsOn)
  }

  /** A listed key does not hold a loopback URL with the wrong scheme. */
  predicate PairInLine(p: Pair, tlsOn: bool) {
    Listed(p.key) ==> !WrongURL(p.value, tlsOn)
  }

  lemma ListedIsCandidate(line: string)
    requires ParseLine(line).Some? && Listed(ParseLine(line).value.key)
    ensures Candidate(line).Some?
  {
    hide Listed;
  }

  /** Line by line: the pair that a rewritten line gives is in line unless the line is missed. */
  lemma LineInLine(line: string, tlsOn: bool)
    ensures (ParseLine(RewriteLine(line, tlsOn)).Some? ==> PairInLine(ParseLine(RewriteLine(line, tlsOn)).value, tlsOn))
      <==> !MissedLine(line, tlsOn)
  {
    ParseRewritten(line, tlsOn);
    hide RewriteLine, Swap, Missed, WrongURL, Listed;
    if Candidate(line).Some? {
      MissedExactly(Candidate(line).value.value, tlsOn);
    } else if ParseLine(line).Some? && Listed(ParseLine(line).value.key) {
      ListedIsCandidate(line);
    }
  }

  ghost predicate PairsInLine(pairs: seq<Pair>, tlsOn: bool) {
    forall i | 0 <= i < |pairs| :: PairInLine(pairs[i], tlsOn)
  }

  lemma PairsInLineMore(pairs: seq<Pair>, p: Option<Pair>, tlsOn: bool)
    ensures PairsInLine(pairs + OnePair(p), tlsOn)
      <==> PairsInLine(pairs, tlsOn) && (p.Some? ==> PairInLine(p.value, tlsOn))
  {
    hide PairInLine;
    var all := pairs + OnePair(p);
    if PairsInLine(all, tlsOn) {
      forall i | 0 <= i < |pairs| ensures PairInLine(pairs[i], tlsOn) {
        assert all[i] == pairs[i];
      }
      assert p.Some? ==> all[|pairs|] == p.value;
    }
  }

  lemma {:induction false} LinesInLine(lines: seq<string>, tlsOn: bool)
    ensures PairsInLine(Parse(Rewrite(lines, tlsOn)), tlsOn)
      <==> forall i | 0 <= i < |lines| :: !MissedLine(lines[i], tlsOn)
  {
    hide ParseLine, RewriteLine, MissedLine, PairInLine;
    if lines != [] {
      var init, last := lines[..|lines| - 1], lines[|lines| - 1];
      LinesInLine(init, tlsOn);
      LineInLine(last, tlsOn);
      hide PairsInLine;
      var r := Rewrite(lines, tlsOn);
      assert r[..|r| - 1] == Rewrite(init, tlsOn) && r[|r| - 1] == RewriteLine(last, tlsOn);
      PairsInLineMore(Parse(Rewrite(init, tlsOn)), ParseLine(RewriteLine(last, tlsOn)), tlsOn);
      assert forall i | 0 <= i < |init| :: lines[i] == init[i];
    }
  }

  /** The file: every listed key loads in line after the migration exactly when no line is missed. */
  lemma MigratedInLine(text: string, tlsOn: bool)
    ensures PairsInLine(Load(Migrated(text, tlsOn)), tlsOn)
      <==> forall i | 0 <= i < |Split(text)| :: !MissedLine(Split(text)[i], tlsOn)
  {
    MigratedLines(text, tlsOn);
    hide Split, Migrated, Parse, Rewrite, PairsInLine, MissedLine;
    LinesInLine(Split(text), tlsOn);
  }

  /** Missed: any loopback URL in quotes, as the daemon writes one that holds a hash sign or a dollar sign. */
  lemma QuotedIsMissed(quote: char, rest: string, tlsOn: bool)
    requires (quote == '\'' || quote == '"') && Loopback(rest)
    ensures var raw := [quote] + (WrongScheme(tlsOn) + rest) + [quote];
      && QuotedURL(raw, tlsOn)
      && Swap(raw, tlsOn) == raw && ValueOf(raw) == WrongScheme(tlsOn) + rest
  {
    var url := WrongScheme(tlsOn) + rest;
    var raw := [quote] + url + [quote];
    ReadQuoted(quote, url);
    hide Loopback, Unquote;
    assert raw[0] == quote && raw[|raw| - 1] == quote;
    assert TrimRight(raw, IsCR) == raw;
    assert url[|WrongScheme(tlsOn)|..] == rest && WrongScheme(tlsOn) <= url;
    assert HTTP[0] == 'h' && HTTPS[0] == 'h';
  }

  lemma {:induction false} AllTrimmed(crs: string)
    requires forall i | 0 <= i < |crs| :: crs[i] == '\r'
    ensures TrimRight(crs, IsCR) == ""
  {
    if crs != "" {
      AllTrimmed(crs[..|crs| - 1]);
    }
  }

  /** Missed: a bare host and any number of carriage returns. */
  lemma BareHostWithCR(host: string, crs: string, tlsOn: bool)
    requires host == "localhost" || host == "127.0.0.1"
    requires crs != "" && forall i | 0 <= i < |crs| :: crs[i] == '\r'
    ensures var raw := WrongScheme(tlsOn) + (host + crs);
      && BareWithCR(raw, tlsOn)
      && Swap(raw, tlsOn) == raw && ValueOf(raw) == WrongScheme(tlsOn) + host
  {
    var from := WrongScheme(tlsOn);
    var raw := from + (host + crs);
    TrimRightAppend(host, crs, IsCR);
    AllTrimmed(crs);
    ValueOfURL(from, host + crs);
    TrimRightAppend(from, host + crs, IsCR);
    assert host + "" == host;
    hide Loopback, TrimRight, ValueOf;
    BareIsNoURL(raw, tlsOn);
    WrongURLIsSwapped(raw, tlsOn);
  }
}
