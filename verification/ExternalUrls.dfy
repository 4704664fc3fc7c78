/**
 * Whether the migration of `.env` leaves URLs of other hosts alone (tools/friday-launcher/cert_env.go:161-164): with
 * the host as section 3.2.2 of RFC 3986 has it, and not as the loopback scan sees it.
 */
module ExternalUrls {
  import opened Options
  import opened Lines
  import opened DotEnv
  import opened UrlSchemes
  import opened UrlHosts

  /** A URL whose host is not loopback. */
  predicate External(url: string) {
    || (HTTP <= url && !LoopbackHost(url[|HTTP|..]))
    || (HTTPS <= url && !LoopbackHost(url[|HTTPS|..]))
  }

  /** User information that looks like a loopback host, in front of a host that is not. */
  predicate Disguised(rest: string) {
    HasUser(rest) && LooksLoopback(User(Authority(rest))) && !NamesLoopback(Behind(rest))
  }

  /** The scan takes an external host for loopback exactly then. */
  lemma TakenForLoopback(rest: string)
    ensures Loopback(rest) && !LoopbackHost(rest) <==> Disguised(rest)
  {
    hide Loopback, LoopbackHost, Authority, HostOf, LooksLoopback, NamesLoopback, Behind;
    if HasUser(rest) {
      ScanWithUser(rest);
      HostBehindUser(rest);
    } else {
      ScanWithoutUser(rest);
      NoUser(rest);
    }
  }

  /** Such a URL with the scheme that does not fit. */
  predicate DisguisedURL(url: string, tlsOn: bool) {
    WrongScheme(tlsOn) <= url && Disguised(url[|WrongScheme(tlsOn)|..])
  }

  lemma OneScheme(url: string)
    ensures !(HTTP <= url && HTTPS <= url)
  {
    if HTTP <= url {
      assert url[4] == ':';
    }
  }

  /** A loaded URL of an external host is swapped exactly when it is disguised. */
  lemma ExternalSwap(url: string, tlsOn: bool)
    ensures External(url) && Swap(url, tlsOn) != url <==> DisguisedURL(url, tlsOn)
  {
    hide Loopback, LoopbackHost, Disguised;
    OneScheme(url);
    if HTTP <= url { TakenForLoopback(url[|HTTP|..]); }
    if HTTPS <= url { TakenForLoopback(url[|HTTPS|..]); }
  }

  /** The value stands in quotes. */
  predicate Quoted(raw: string) {
    Unquote(TrimRight(raw, IsCR)) != TrimRight(raw, IsCR)
  }

  lemma DisguisedIsNotBare(raw: string, tlsOn: bool)
    requires BareWithCR(raw, tlsOn)
    ensures !DisguisedURL(TrimRight(raw, IsCR), tlsOn) && !Quoted(raw)
  {
    var t := TrimRight(raw, IsCR);
    var host := if t == WrongScheme(tlsOn) + "localhost" then "localhost" else "127.0.0.1";
    SchemeAndRest(WrongScheme(tlsOn), host, "");
    NoAtNoUser(host);
    UnquoteURL(t, tlsOn);
    hide HasUser, TrimRight, Unquote, WrongScheme;
  }

  predicate DisguisedLine(line: string, tlsOn: bool) {
    match Candidate(line)
    case None => false
    case Some(p) => !Quoted(p.value) && DisguisedURL(ValueOf(p.value), tlsOn)
  }

  /** A raw value that the swap misses although it loads as a disguised URL stands in quotes. */
  lemma MissedDisguised(raw: string, tlsOn: bool)
    requires DisguisedURL(ValueOf(raw), tlsOn)
    ensures Missed(raw, tlsOn) <==> Quoted(raw)
  {
    ExternalSwap(ValueOf(raw), tlsOn);
    WrongURLIsSwapped(ValueOf(raw), tlsOn);
    if BareWithCR(raw, tlsOn) {
      DisguisedIsNotBare(raw, tlsOn);
    }
    hide DisguisedURL, WrongURL, TrimRight, Unquote, Swap, External, BareWithCR;
  }

  /** An external value that is loaded from a listed line changes exactly when it is disguised and not in quotes. */
  lemma ExternalValueChanges(raw: string, tlsOn: bool)
    ensures External(ValueOf(raw)) && ValueOf(Swap(raw, tlsOn)) != ValueOf(raw)
      <==> !Quoted(raw) && DisguisedURL(ValueOf(raw), tlsOn)
  {
    LoadedSwap(raw, tlsOn);
    ExternalSwap(ValueOf(raw), tlsOn);
    if DisguisedURL(ValueOf(raw), tlsOn) {
      MissedDisguised(raw, tlsOn);
    }
    if Quoted(raw) && Swap(ValueOf(raw), tlsOn) != ValueOf(raw) {
      WrongURLIsSwapped(ValueOf(raw), tlsOn);
      assert QuotedURL(raw, tlsOn);
    }
    hide External, Swap, DisguisedURL, Missed, ValueOf, WrongURL, Unquote, TrimRight;
  }

  /** The pair is that of an external URL, and another one comes in its place. */
  predicate ChangedExternal(before: Option<Pair>, after: Option<Pair>) {
    before.Some? && External(before.value.value) && after != before
  }

  /** The line of an external URL is loaded otherwise afterwards exactly when the URL is disguised and not in quotes. */
  lemma ExternalLineChanges(line: string, tlsOn: bool)
    ensures ChangedExternal(ParseLine(line), ParseLine(RewriteLine(line, tlsOn))) <==> DisguisedLine(line, tlsOn)
  {
    ParseRewritten(line, tlsOn);
    hide ParseLine, RewriteLine, Swap, External, DisguisedURL, Quoted, ValueOf, Listed;
    if Candidate(line).Some? {
      ExternalValueChanges(Candidate(line).value.value, tlsOn);
    }
  }

  /** Pair by pair, external URLs stay as they are. */
  ghost predicate KeepsExternal(before: seq<Pair>, after: seq<Pair>) {
    |before| == |after| && forall i | 0 <= i < |before| :: External(before[i].value) ==> after[i] == before[i]
  }

  lemma KeepsExternalMore(a: seq<Pair>, x: Option<Pair>, b: seq<Pair>, y: Option<Pair>)
    requires |a| == |b| && x.Some? == y.Some?
    ensures KeepsExternal(a + OnePair(x), b + OnePair(y)) <==> KeepsExternal(a, b) && !ChangedExternal(x, y)
  {
    hide External;
    var s, t := a + OnePair(x), b + OnePair(y);
    if KeepsExternal(s, t) {
      forall i | 0 <= i < |a| ensures External(a[i].value) ==> b[i] == a[i] {
        assert s[i] == a[i] && t[i] == b[i];
      }
      assert x.Some? ==> s[|a|] == x.value && t[|a|] == y.value;
    }
  }

  lemma KeepsMore(init: seq<string>, last: string, tlsOn: bool)
    requires |Parse(init)| == |Parse(Rewrite(init, tlsOn))|
    ensures KeepsExternal(Parse(init) + OnePair(ParseLine(last)),
        Parse(Rewrite(init, tlsOn)) + OnePair(ParseLine(RewriteLine(last, tlsOn))))
      <==> KeepsExternal(Parse(init), Parse(Rewrite(init, tlsOn))) && !DisguisedLine(last, tlsOn)
    ensures ParseLine(last).Some? == ParseLine(RewriteLine(last, tlsOn)).Some?
  {
    ExternalLineChanges(last, tlsOn);
    RewrittenInLine(last, tlsOn);
    hide ParseLine, RewriteLine, DisguisedLine, ChangedExternal, KeepsExternal, InLine, Parse, Rewrite;
    KeepsExternalMore(Parse(init), ParseLine(last), Parse(Rewrite(init, tlsOn)), ParseLine(RewriteLine(last, tlsOn)));
  }

  lemma {:induction false} LinesKeepExternal(lines: seq<string>, tlsOn: bool)
    ensures |Parse(lines)| == |Parse(Rewrite(lines, tlsOn))|
    ensures KeepsExternal(Parse(lines), Parse(Rewrite(lines, tlsOn)))
      <==> forall i | 0 <= i < |lines| :: !DisguisedLine(lines[i], tlsOn)
  {
    hide ParseLine, RewriteLine, DisguisedLine;
    if lines != [] {
      var init, last := lines[..|lines| - 1], lines[|lines| - 1];
      LinesKeepExternal(init, tlsOn);
      KeepsMore(init, last, tlsOn);
      hide KeepsExternal;
      var r := Rewrite(lines, tlsOn);
      assert r[..|r| - 1] == Rewrite(init, tlsOn) && r[|r| - 1] == RewriteLine(last, tlsOn);
      assert forall i | 0 <= i < |init| :: lines[i] == init[i];
    }
  }

  /** The file: every URL of an external host loads as before exactly when no listed line holds a disguised one. */
  lemma ExternalStays(text: string, tlsOn: bool)
    ensures KeepsExternal(Load(text), Load(Migrated(text, tlsOn)))
      <==> forall i | 0 <= i < |Split(text)| :: !DisguisedLine(Split(text)[i], tlsOn)
  {
    MigratedLines(text, tlsOn);
    hide Split, Migrated, Parse, Rewrite, KeepsExternal, DisguisedLine;
    LinesKeepExternal(Split(text), tlsOn);
  }

  lemma Downgraded(rest: string)
    requires Loopback(rest)
    ensures Swap(HTTPS + rest, false) == HTTP + rest != HTTPS + rest
  {
    hide Loopback;
    SchemeAndRest(HTTPS, rest, "");
    SchemesDiffer(rest);
  }

  /** A listed URL whose user is `localhost`, of any host that is not loopback, is downgraded when TLS is off. */
  lemma DisguisedIsDowngraded(key: string, password: string, host: string)
    requires Listed(key) && Free(password, EndsAuthority) && '@' !in password && !NamesLoopback(host)
    ensures var rest := "localhost:" + password + "@" + host;
      && !LoopbackHost(rest)
      && RewriteLine(key + "=" + (HTTPS + rest), false) == key + "=" + (HTTP + rest)
  {
    hide Loopback, LoopbackHost, NamesLoopback, Candidate, Listed, Swap, Free;
    var rest := "localhost:" + password + "@" + host;
    UserIsTaken(password, host);
    Downgraded(rest);
    PrintedCandidate(key, HTTPS + rest);
  }
}
