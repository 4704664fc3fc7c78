/**
 * The loopback scan against the host of a URL as section 3.2.2 of RFC 3986 has it
 * (tools/friday-launcher/cert_env.go:248-288): where the two agree, and where not.
 */
module UrlHosts {
  import opened Lines
  import opened UrlSchemes

  /** The text before the first character that stops it. */
  function TakeUntil(s: string, stop: char -> bool): string {
    if s == "" || stop(s[0]) then "" else [s[0]] + TakeUntil(s[1..], stop)
  }

  predicate EndsAuthority(c: char) {
    c == '/' || c == '?' || c == '#'
  }

  predicate IsColon(c: char) {
    c == ':'
  }

  /** What stands between the two slashes and the path, query or fragment. */
  function Authority(rest: string): string {
    TakeUntil(rest, EndsAuthority)
  }

  function HostAndPort(authority: string): string {
    authority[IndexOf(authority, '@') + 1..]
  }

  /** A bracketed literal, or the text before the port. */
  function HostOf(hostAndPort: string): string {
    if "[" <= hostAndPort then
      var end := IndexOf(hostAndPort, ']');
      if end > 0 then hostAndPort[..end + 1] else hostAndPort
    else TakeUntil(hostAndPort, IsColon)
  }

  function Lower(c: char): char {
    if 'A' <= c <= 'Z' then (c as int + 32) as char else c
  }

  function LowerCase(s: string): string {
    seq(|s|, i requires 0 <= i < |s| => Lower(s[i]))
  }

  /** Hosts are compared without regard to case. */
  predicate LoopbackName(host: string) {
    LowerCase(host) == "localhost" || LowerCase(host) == "127.0.0.1" || LowerCase(host) == "[::1]"
  }

  /** The host of the URL is loopback. */
  predicate LoopbackHost(rest: string) {
    LoopbackName(HostOf(HostAndPort(Authority(rest))))
  }

  // ---- prefixes ----

  ghost predicate Free(p: string, stop: char -> bool) {
    forall i | 0 <= i < |p| :: !stop(p[i])
  }

  lemma {:induction false} TakeSplits(s: string, stop: char -> bool)
    ensures var t := TakeUntil(s, stop); t <= s && Free(t, stop) && (|t| < |s| ==> stop(s[|t|]))
  {
    if s != "" && !stop(s[0]) {
      TakeSplits(s[1..], stop);
      assert s == [s[0]] + s[1..];
    }
  }

  lemma SamePlace(p: string, s: string, i: nat)
    requires p <= s && i < |p|
    ensures s[i] == p[i]
  {
  }

  /** A text without stops is a prefix of the whole exactly when it is one of the part before the stop. */
  lemma TakePrefix(p: string, s: string, stop: char -> bool)
    requires Free(p, stop)
    ensures p <= s <==> p <= TakeUntil(s, stop)
  {
    var t := TakeUntil(s, stop);
    TakeSplits(s, stop);
    hide TakeUntil;
    if p <= s {
      assert s[..|p|] == p && t == s[..|t|] && t[..|p|] == s[..|p|];
    }
  }

  /** And it is the whole part exactly when the text ends there or a stop follows. */
  lemma TakeEquals(p: string, s: string, stop: char -> bool)
    requires Free(p, stop)
    ensures TakeUntil(s, stop) == p <==> p <= s && (|s| == |p| || stop(s[|p|]))
  {
    var t := TakeUntil(s, stop);
    TakeSplits(s, stop);
    TakePrefix(p, s, stop);
    hide TakeUntil;
    if p <= s && |t| > |p| {
      SamePlace(t, s, |p|);
    }
  }

  lemma NamesAreFree()
    ensures Free("localhost", EndsAuthority) && Free("localhost", IsColon)
    ensures Free("127.0.0.1", EndsAuthority) && Free("127.0.0.1", IsColon)
    ensures Free("[::1]", EndsAuthority)
  {
  }

  // ---- without user information ----

  /** The name stands at the front, and the text ends there or goes on with one of some characters. */
  predicate NameThen(rest: string, name: string, ok: char -> bool) {
    name <= rest && (|rest| == |name| || ok(rest[|name|]))
  }

  predicate EndsHost(c: char) {
    EndsAuthority(c) || IsColon(c)
  }

  lemma PrefixAnd(rest: string, name: string, c: char)
    ensures name + [c] <= rest <==> name <= rest && |rest| > |name| && rest[|name|] == c
  {
    if name <= rest && |rest| > |name| && rest[|name|] == c {
      assert rest[..|name| + 1] == rest[..|name|] + [c];
    }
    if name + [c] <= rest {
      SamePlace(name + [c], rest, |name|);
      assert rest[..|name|] == (name + [c])[..|name|];
    }
  }

  lemma ScanForName(rest: string, name: string)
    ensures HostIs(rest, name) <==> NameThen(rest, name, HostEnd)
  {
    PrefixAnd(rest, name, '/');
    PrefixAnd(rest, name, ':');
  }

  /** The host before a port, of an authority without user information. */
  lemma HostForName(rest: string, name: string)
    requires name != "" && name[0] != '[' && Free(name, EndsAuthority) && Free(name, IsColon)
    ensures HostOf(Authority(rest)) == name <==> NameThen(rest, name, EndsHost)
  {
    var a := Authority(rest);
    TakePrefix(name, rest, EndsAuthority);
    TakeEquals(name, rest, EndsAuthority);
    TakeEquals(name, a, IsColon);
    TakeSplits(rest, EndsAuthority);
    hide TakeUntil, Free;
    if "[" <= a {
      SamePlace("[", a, 0);
      SamePlace("[", rest, 0);
    }
  }

  lemma LiteralHost(a: string)
    ensures HostOf(a) == "[::1]" <==> "[::1]" <= a
  {
    if "[::1]" <= a {
      ClosedAtFour(a);
      SamePlace("[::1]", a, 0);
      assert a[..5] == "[::1]";
    } else if !("[" <= a) {
      TakeSplits(a, IsColon);
    }
  }

  lemma HostForLiteral(rest: string)
    ensures HostOf(Authority(rest)) == "[::1]" <==> "[::1]" <= rest
  {
    var a := Authority(rest);
    NamesAreFree();
    TakePrefix("[::1]", rest, EndsAuthority);
    hide TakeUntil, Free;
    LiteralHost(a);
  }

  // ---- names in any case ----

  lemma SameWithoutLetters(host: string, name: string)
    requires LowerCase(host) == name && forall i | 0 <= i < |name| :: !('a' <= name[i] <= 'z')
    ensures host == name
  {
    forall i | 0 <= i < |host| ensures host[i] == name[i] {
      assert LowerCase(host)[i] == name[i];
    }
  }

  lemma LowStays(name: string)
    requires forall i | 0 <= i < |name| :: !('A' <= name[i] <= 'Z')
    ensures LowerCase(name) == name
  {
  }

  /** Only the name with letters can be spelled in more than one way. */
  lemma LoopbackNames(host: string)
    ensures LoopbackName(host) <==> LowerCase(host) == "localhost" || host == "127.0.0.1" || host == "[::1]"
  {
    LowStays("127.0.0.1");
    LowStays("[::1]");
    if LowerCase(host) == "127.0.0.1" { SameWithoutLetters(host, "127.0.0.1"); }
    if LowerCase(host) == "[::1]" { SameWithoutLetters(host, "[::1]"); }
    hide LowerCase;
  }

  predicate Letter(c: char) {
    'a' <= Lower(c) <= 'z'
  }

  lemma SpelledOfLetters(h: string)
    requires LowerCase(h) == "localhost"
    ensures |h| == 9 && forall i | 0 <= i < 9 :: Letter(h[i])
  {
    assert |LowerCase(h)| == 9;
    forall i | 0 <= i < 9 ensures Letter(h[i]) {
      assert LowerCase(h)[i] == "localhost"[i];
    }
  }

  lemma SpelledIsFree(h: string)
    requires LowerCase(h) == "localhost"
    ensures |h| == 9 && h[0] != '[' && Free(h, EndsAuthority) && Free(h, IsColon)
  {
    SpelledOfLetters(h);
    hide LowerCase;
  }

  /** `localhost` in any case stands at the front, and the host ends there. */
  predicate SpelledLocalhost(text: string) {
    |text| >= 9 && LowerCase(text[..9]) == "localhost" && NameThen(text, text[..9], EndsHost)
  }

  lemma HostIsSpelled(text: string)
    ensures LowerCase(HostOf(Authority(text))) == "localhost" <==> SpelledLocalhost(text)
  {
    hide LowerCase, HostOf, Authority, EndsHost;
    var host := HostOf(Authority(text));
    if LowerCase(host) == "localhost" {
      SpelledIsFree(host);
      HostForName(text, host);
      assert text[..9] == host;
    }
    if SpelledLocalhost(text) {
      SpelledIsFree(text[..9]);
      HostForName(text, text[..9]);
    }
  }

  /** The text begins with a loopback host. */
  predicate NamesLoopback(text: string) {
    "[::1]" <= text || NameThen(text, "127.0.0.1", EndsHost) || SpelledLocalhost(text)
  }

  /** A text without user information has a loopback host exactly when it begins with one. */
  lemma HostAtFront(text: string)
    ensures LoopbackName(HostOf(Authority(text))) <==> NamesLoopback(text)
  {
    NamesAreFree();
    LoopbackNames(HostOf(Authority(text)));
    HostForName(text, "127.0.0.1");
    HostForLiteral(text);
    HostIsSpelled(text);
    hide HostOf, Authority, LoopbackName, Free, NameThen, SpelledLocalhost;
  }

  // ---- the scan without user information ----

  /** A name that goes straight on with a query or a fragment. */
  predicate QueryAfter(rest: string, name: string) {
    name + "?" <= rest || name + "#" <= rest
  }

  predicate BareBeforeQuery(rest: string) {
    QueryAfter(rest, "localhost") || QueryAfter(rest, "127.0.0.1")
  }

  /** The name `localhost` with an upper-case letter in it. */
  predicate UpperLocalhost(rest: string) {
    SpelledLocalhost(rest) && !("localhost" <= rest)
  }

  lemma EndsApart(rest: string, name: string)
    ensures NameThen(rest, name, EndsHost) <==> NameThen(rest, name, HostEnd) || QueryAfter(rest, name)
    ensures !(NameThen(rest, name, HostEnd) && QueryAfter(rest, name))
  {
    PrefixAnd(rest, name, '?');
    PrefixAnd(rest, name, '#');
  }

  lemma NamesApart(rest: string)
    ensures "localhost" <= rest ==> !("127.0.0.1" <= rest) && !("[::1]" <= rest)
    ensures "127.0.0.1" <= rest ==> !("[::1]" <= rest)
  {
    assert "localhost" <= rest ==> rest[0] == 'l';
    assert "127.0.0.1" <= rest ==> rest[0] == '1';
    assert "[::1]" <= rest ==> rest[0] == '[';
  }

  lemma QueryAfterName(rest: string, name: string)
    requires QueryAfter(rest, name)
    ensures name <= rest && !NameThen(rest, name, HostEnd)
  {
    EndsApart(rest, name);
    PrefixAnd(rest, name, '?');
    PrefixAnd(rest, name, '#');
  }

  lemma SpelledStartsWithLetter(text: string)
    requires SpelledLocalhost(text)
    ensures !("[::1]" <= text) && !("127.0.0.1" <= text)
  {
    SpelledOfLetters(text[..9]);
    hide LowerCase;
    var first := text[0];
    assert text[..9][0] == first && first != '[' && first != '1';
  }

  lemma SpelledLow(text: string)
    requires "localhost" <= text
    ensures SpelledLocalhost(text) <==> NameThen(text, "localhost", EndsHost)
  {
    LowStays("localhost");
    assert text[..9] == "localhost";
    hide LowerCase;
  }

  /** Without user information the scan misses exactly the bare names that a query or fragment follows, and the name
      with an upper-case letter. */
  lemma ScanWithoutUser(rest: string)
    ensures LoopbackName(HostOf(Authority(rest))) <==> Loopback(rest) || BareBeforeQuery(rest) || UpperLocalhost(rest)
    ensures !(Loopback(rest) && (BareBeforeQuery(rest) || UpperLocalhost(rest)))
  {
    HostAtFront(rest);
    ScanForName(rest, "localhost");
    ScanForName(rest, "127.0.0.1");
    EndsApart(rest, "localhost");
    EndsApart(rest, "127.0.0.1");
    if SpelledLocalhost(rest) { SpelledStartsWithLetter(rest); }
    if "localhost" <= rest { SpelledLow(rest); }
    hide HostOf, Authority, QueryAfter, Free, HostIs, LoopbackName, SpelledLocalhost;
    NamesApart(rest);
    if QueryAfter(rest, "localhost") { QueryAfterName(rest, "localhost"); }
    if QueryAfter(rest, "127.0.0.1") { QueryAfterName(rest, "127.0.0.1"); }
  }

  // ---- with user information ----

  /** User information that looks like a loopback host and its port. */
  predicate LooksLoopback(user: string) {
    "[::1]" <= user || "localhost:" <= user || "127.0.0.1:" <= user
  }

  predicate HasUser(rest: string) {
    '@' in Authority(rest)
  }

  function User(text: string): string
    requires '@' in text
  {
    text[..IndexOf(text, '@')]
  }

  /** What stands behind the user information. */
  function Behind(rest: string): string {
    rest[IndexOf(rest, '@') + 1..]
  }

  predicate IsAt(c: char) {
    c == '@'
  }

  lemma PrefixBeforeAt(p: string, a: string)
    requires '@' in a && Free(p, IsAt)
    ensures p <= a <==> p <= User(a)
  {
    var at := IndexOf(a, '@');
    if p <= a {
      assert a[..at][..|p|] == a[..|p|];
    }
    if p <= a[..at] {
      assert a == a[..at] + a[at..];
    }
  }

  /** A text without slash and at sign stands at the front of the URL exactly when it does so in the user
      information. */
  lemma PrefixOfUser(p: string, rest: string)
    requires '@' in Authority(rest) && Free(p, EndsAuthority) && Free(p, IsAt)
    ensures p <= rest <==> p <= User(Authority(rest))
  {
    var a := Authority(rest);
    TakePrefix(p, rest, EndsAuthority);
    hide TakeUntil;
    PrefixBeforeAt(p, a);
  }

  /** With user information a bare name cannot end the URL or stand before a slash. */
  lemma NoBareUser(rest: string, name: string)
    requires '@' in Authority(rest) && Free(name, EndsAuthority) && '@' !in name
    ensures rest != name && !(name + "/" <= rest)
  {
    TakeEquals(name, rest, EndsAuthority);
    PrefixAnd(rest, name, '/');
    hide TakeUntil, Free;
  }

  lemma TextsAreFree()
    ensures Free("localhost" + ":", EndsAuthority) && Free("localhost" + ":", IsAt) && '@' !in "localhost"
    ensures Free("127.0.0.1" + ":", EndsAuthority) && Free("127.0.0.1" + ":", IsAt) && '@' !in "127.0.0.1"
    ensures Free("[::1]", IsAt)
    ensures "localhost" + ":" == "localhost:" && "127.0.0.1" + ":" == "127.0.0.1:"
  {
  }

  /** With user information the scan looks at that, and not at the host. */
  lemma ScanWithUser(rest: string)
    requires HasUser(rest)
    ensures Loopback(rest) <==> LooksLoopback(User(Authority(rest)))
  {
    NamesAreFree();
    TextsAreFree();
    NoBareUser(rest, "localhost");
    NoBareUser(rest, "127.0.0.1");
    PrefixOfUser("localhost" + ":", rest);
    PrefixOfUser("127.0.0.1" + ":", rest);
    PrefixOfUser("[::1]", rest);
    hide Authority, User, Free;
  }

  /** The user information of the authority is that of the whole text. */
  lemma UserOfText(rest: string)
    requires HasUser(rest)
    ensures '@' in rest && IndexOf(rest, '@') == IndexOf(Authority(rest), '@')
    ensures User(Authority(rest)) == User(rest)
  {
    var a := Authority(rest);
    var at := IndexOf(a, '@');
    TakeSplits(rest, EndsAuthority);
    hide TakeUntil;
    assert a == rest[..|a|];
    assert rest[..at] == a[..at];
    IndexOfIs(rest, '@', at);
  }

  lemma {:induction false} TakeBehind(a: string, b: string, stop: char -> bool)
    requires Free(a, stop)
    ensures TakeUntil(a + b, stop) == a + TakeUntil(b, stop)
  {
    if a != "" {
      assert (a + b)[1..] == a[1..] + b;
      TakeBehind(a[1..], b, stop);
    } else {
      assert a + b == b;
    }
  }

  /** Behind the user information stands the rest of the authority. */
  lemma AuthorityBehind(rest: string)
    requires HasUser(rest)
    ensures HostAndPort(Authority(rest)) == Authority(Behind(rest))
  {
    UserOfText(rest);
    var front := rest[..IndexOf(rest, '@') + 1];
    assert rest == front + Behind(rest);
    TakeSplits(rest, EndsAuthority);
    assert Free(front, EndsAuthority) by {
      forall i | 0 <= i < |front| ensures !EndsAuthority(front[i]) {
        assert front[i] == Authority(rest)[i];
      }
    }
    TakeBehind(front, Behind(rest), EndsAuthority);
  }

  /** With user information the host is loopback exactly when the text behind it begins with a loopback host. */
  lemma HostBehindUser(rest: string)
    requires HasUser(rest)
    ensures LoopbackHost(rest) <==> NamesLoopback(Behind(rest))
  {
    AuthorityBehind(rest);
    HostAtFront(Behind(rest));
    hide HostOf, Authority, LoopbackName, Behind, NamesLoopback;
  }

  lemma NoUser(rest: string)
    requires !HasUser(rest)
    ensures LoopbackHost(rest) <==> LoopbackName(HostOf(Authority(rest)))
  {
    var a := Authority(rest);
    hide Authority, HostOf, LoopbackName;
    assert IndexOf(a, '@') == -1 && a[0..] == a;
  }

  /** Where the scan agrees with the host of the URL: without user information, unless a query or fragment follows a
      bare name or the name has an upper-case letter; with user information, when that looks like a loopback host and
      port exactly if the text behind it begins with a loopback host. */
  lemma ScanAgreesExactly(rest: string)
    ensures (Loopback(rest) <==> LoopbackHost(rest)) <==>
      if HasUser(rest) then LooksLoopback(User(Authority(rest))) <==> NamesLoopback(Behind(rest))
      else !BareBeforeQuery(rest) && !UpperLocalhost(rest)
  {
    hide Authority, HostOf, Loopback, LoopbackName, LooksLoopback, NamesLoopback, BareBeforeQuery, UpperLocalhost;
    hide LoopbackHost;
    if HasUser(rest) {
      ScanWithUser(rest);
      HostBehindUser(rest);
    } else {
      ScanWithoutUser(rest);
      NoUser(rest);
    }
  }

  // ---- URLs on which they differ ----

  lemma NoAtNoUser(rest: string)
    requires '@' !in rest
    ensures !HasUser(rest)
  {
    TakeSplits(rest, EndsAuthority);
    hide TakeUntil;
  }

  lemma NoUserBefore(rest: string, name: string)
    requires Authority(rest) == name && '@' !in name
    ensures !HasUser(rest)
  {
  }

  /** A bare name with a query or a fragment behind it. */
  lemma QueryIsMissed(name: string, mark: char, tail: string)
    requires name == "localhost" || name == "127.0.0.1"
    requires mark == '?' || mark == '#'
    ensures LoopbackHost(name + [mark] + tail) && !Loopback(name + [mark] + tail)
  {
    hide LoopbackHost, Loopback, UpperLocalhost, LowerCase, TakeUntil, HostOf, LoopbackName, Free, HasUser;
    var rest := name + [mark] + tail;
    assert name <= rest && rest[|name|] == mark;
    PrefixAnd(rest, name, mark);
    NamesAreFree();
    TakeEquals(name, rest, EndsAuthority);
    NoUserBefore(rest, name);
    NoUser(rest);
    ScanWithoutUser(rest);
  }

  lemma StartsWithName(rest: string, name: string)
    requires |rest| >= 9 && rest[..9] == name
    ensures "localhost" <= rest <==> name == "localhost"
  {
  }

  /** The name spelled with an upper-case letter, with a port or a path behind it or not. */
  lemma UpperCaseIsMissed(name: string, tail: string)
    requires LowerCase(name) == "localhost" && name != "localhost"
    requires (tail != "" ==> EndsHost(tail[0])) && '@' !in tail
    ensures LoopbackHost(name + tail) && !Loopback(name + tail)
  {
    var rest := name + tail;
    SpelledOfLetters(name);
    NoAtNoUser(rest);
    NoUser(rest);
    assert rest[..9] == name;
    hide LowerCase;
    assert SpelledLocalhost(rest);
    StartsWithName(rest, name);
    ScanWithoutUser(rest);
    hide *;
    hide UpperLocalhost;
  }

  lemma CapitalsAreMissed()
    ensures LoopbackHost("LOCALHOST" + ":1") && !Loopback("LOCALHOST" + ":1")
  {
    assert LowerCase("LOCALHOST") == "localhost";
    assert "LOCALHOST"[0] == 'L';
    UpperCaseIsMissed("LOCALHOST", ":1");
    hide *;
  }

  lemma UserInFront(user: string, host: string)
    requires Free(user, EndsAuthority) && '@' !in user
    ensures HasUser(user + "@" + host) && Behind(user + "@" + host) == host
  {
    var front := user + "@";
    assert Free(front, EndsAuthority);
    TakeBehind(front, host, EndsAuthority);
    IndexOfFront(user, '@', host);
    hide TakeUntil;
    assert front[|user|] == '@' && Authority(front + host)[|user|] == '@';
  }

  lemma PortOfName(rest: string)
    requires "localhost:" <= rest
    ensures Loopback(rest)
  {
    assert "localhost" + ":" == "localhost:";
  }

  lemma LongerFree(password: string, stop: char -> bool)
    requires Free(password, stop) && Free("localhost:", stop)
    ensures Free("localhost:" + password, stop)
  {
  }

  /** The user `localhost` of any host that is not loopback. */
  lemma UserIsTaken(password: string, host: string)
    requires Free(password, EndsAuthority) && '@' !in password && !NamesLoopback(host)
    ensures var rest := "localhost:" + password + "@" + host; Loopback(rest) && !LoopbackHost(rest)
  {
    hide NamesLoopback, HasUser, Behind, LoopbackHost, Loopback;
    var user := "localhost:" + password;
    LongerFree(password, EndsAuthority);
    hide Free;
    UserInFront(user, host);
    HostBehindUser(user + "@" + host);
    PortOfName(user + "@" + host);
  }

  lemma SpelledFirst(text: string)
    requires SpelledLocalhost(text)
    ensures Lower(text[0]) == 'l'
  {
    assert LowerCase(text[..9])[0] == Lower(text[0]);
  }

  lemma OtherLetter(text: string)
    requires text != "" && Lower(text[0]) != 'l' && text[0] != '1' && text[0] != '['
    ensures !NamesLoopback(text)
  {
    if SpelledLocalhost(text) {
      SpelledFirst(text);
    }
    hide SpelledLocalhost;
  }

  lemma PasswordOfAnother()
    ensures var rest := "localhost:" + "pw" + "@" + "evil.example"; Loopback(rest) && !LoopbackHost(rest)
  {
    OtherLetter("evil.example");
    UserIsTaken("pw", "evil.example");
    hide *;
  }
}
