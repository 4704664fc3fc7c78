/** Reading a log file from an offset in chunks (apps/atlasd/routes/logs.ts:107-189). Text is one byte per character. */
module LogTail {
  import opened Options
  import opened Lines

  datatype Entry = Entry(timestamp: string, level: string, message: string, details: string)

  /** The query, with the JSON line parser and the lower-casing of levels as any functions. */
  datatype Query = Query(
    since: nat,
    limit: nat,
    levels: set<string>,
    parse: string -> Option<Entry>,
    lower: string -> string)

  /** What one line of the file contributes. */
  function Match(q: Query, line: string): Option<Entry> {
    var trimmed := Trim(line, JsSpace);
    if trimmed == "" then None
    else
      var parsed := q.parse(trimmed);
      if parsed.Some? && q.lower(parsed.value.level) in q.levels then parsed else None
  }

  function Matches(q: Query, lines: seq<string>): seq<Entry> {
    if lines == [] then []
    else
      var rest := Matches(q, lines[..|lines| - 1]);
      match Match(q, lines[|lines| - 1])
      case None => rest
      case Some(e) => rest + [e]
  }

  function First<T>(s: seq<T>, n: nat): seq<T> {
    if |s| <= n then s else s[..n]
  }

  /** Whole-file meaning: the matching lines of everything from the offset on. */
  function Suffix(file: string, since: nat): string {
    if since >= |file| then "" else file[since..]
  }

  function AllMatches(q: Query, text: string): seq<Entry> {
    Matches(q, Split(text))
  }

  lemma {:induction false} MatchesAppend(q: Query, a: seq<string>, b: seq<string>)
    ensures Matches(q, a + b) == Matches(q, a) + Matches(q, b)
    decreases |b|
  {
    if b == [] {
      assert a + b == a;
    } else {
      var b1 := b[..|b| - 1];
      MatchesAppend(q, a, b1);
      assert (a + b)[..|a + b| - 1] == a + b1;
    }
  }

  lemma MatchesOne(q: Query, line: string)
    ensures Matches(q, [line]) == match Match(q, line) case None => [] case Some(e) => [e]
  {
    assert [line][..0] == [];
  }

  /** The inner loop: take matching lines until the limit; `next` is the first line not looked at. */
  method TakeLines(q: Query, lines: seq<string>, before: seq<Entry>) returns (entries: seq<Entry>, next: nat)
    requires |before| < q.limit
    ensures next <= |lines| && entries == before + Matches(q, lines[..next])
    ensures |entries| <= q.limit
    ensures |entries| < q.limit ==> next == |lines|
    ensures |entries| == q.limit ==> next > 0 && |before| + |Matches(q, lines[..next - 1])| < q.limit
  {
    hide Match;
    entries := before;
    next := 0;
    while next < |lines|
      invariant next <= |lines| && entries == before + Matches(q, lines[..next])
      invariant |entries| < q.limit
    {
      var m := Match(q, lines[next]);
      assert lines[..next + 1] == lines[..next] + [lines[next]];
      MatchesAppend(q, lines[..next], [lines[next]]);
      MatchesOne(q, lines[next]);
      next := next + 1;
      assert lines[..next - 1] == lines[..next][..next - 1];
      if m.Some? {
        entries := entries + [m.value];
        if |entries| >= q.limit {
          return;
        }
      }
    }
  }

  /** Reading on: the kept piece and the new bytes give the next lines of the text. */
  lemma ReadOn(text: string, bytes: string, lines: seq<string>, remainder: string)
    requires Split(text) == lines + [remainder]
    ensures Split(text + bytes) == lines + Split(remainder + bytes)
  {
    hide Split;
    SplitContinued(text, bytes);
    assert Front(lines + [remainder]) == lines;
  }

  /** The loop before the limit is reached: every complete line so far is matched, the rest is kept. */
  ghost predicate Reading(q: Query, text: string, lines: seq<string>, remainder: string, entries: seq<Entry>) {
    Split(text) == lines + [remainder] && entries == Matches(q, lines) && |entries| < q.limit
  }

  /** The last of these lines brings the entries up to the limit. */
  ghost predicate Filled(q: Query, taken: seq<string>) {
    taken != [] && |Matches(q, taken)| == q.limit && |Matches(q, taken[..|taken| - 1])| < q.limit
  }

  /** The limit is filled by a line that ends in a newline, and text stands behind it. */
  ghost predicate CutShort(q: Query, text: string) {
    var lines := Split(text);
    exists n :: 0 < n < |lines| && Filled(q, lines[..n]) && !(n == |lines| - 1 && lines[n] == "")
  }

  /** The state in which the limit ends the loop, with `tail` not read. */
  ghost predicate Stopped(q: Query, text: string, tail: string, entries: seq<Entry>, truncated: bool) {
    && |entries| == q.limit
    && entries == First(AllMatches(q, text), q.limit)
    && entries == First(AllMatches(q, text + tail), q.limit)
    && (!truncated ==> entries == AllMatches(q, text + tail))
    && (truncated <==> CutShort(q, text + tail))
  }

  lemma {:induction false} MatchesOfPrefix(q: Query, lines: seq<string>, n: nat, m: nat)
    requires n <= m <= |lines|
    ensures |Matches(q, lines[..n])| <= |Matches(q, lines[..m])|
  {
    assert lines[..m] == lines[..n] + lines[n..m];
    MatchesAppend(q, lines[..n], lines[n..m]);
  }

  lemma {:induction false} FilledOnce(q: Query, lines: seq<string>, n: nat, m: nat)
    requires 0 < n < m <= |lines| && Filled(q, lines[..n])
    ensures !Filled(q, lines[..m])
  {
    hide Matches;
    MatchesOfPrefix(q, lines, n, m - 1);
    assert lines[..m][..m - 1] == lines[..m - 1];
  }

  /** Below the limit nothing was cut short. */
  lemma {:induction false} NotCutShort(q: Query, text: string, lines: seq<string>, remainder: string)
    requires Split(text) == lines + [remainder] && |Matches(q, lines)| < q.limit
    ensures !CutShort(q, text)
  {
    hide Split, Matches;
    var all := lines + [remainder];
    forall n | 0 < n < |all| ensures !Filled(q, all[..n]) {
      assert all[..n] == lines[..n] && lines[..|lines|] == lines;
      MatchesOfPrefix(q, lines, n, |lines|);
    }
  }

  lemma {:induction false} OneOrMore(s: string)
    ensures |Split(s)| >= 1 && (|Split(s)| == 1 && Split(s)[0] == "" <==> s == "")
  {
  }

  lemma {:induction false} FilledDecides(q: Query, text: string, n: nat)
    requires 0 < n < |Split(text)| && Filled(q, Split(text)[..n])
    ensures CutShort(q, text) <==> !(n == |Split(text)| - 1 && Split(text)[n] == "")
  {
    hide Matches, Split;
    var all := Split(text);
    forall m | 0 < m < |all| && Filled(q, all[..m]) ensures m == n {
      if m < n { FilledOnce(q, all, m, n); }
      if n < m { FilledOnce(q, all, n, m); }
    }
    hide Filled;
  }

  lemma {:induction false} CutShortHere(q: Query, text: string, tail: string, lines: seq<string>, whole: seq<string>,
      next: nat, rest: string)
    requires Split(text) == lines + (whole + [rest]) && next <= |whole| && Filled(q, lines + whole[..next])
    ensures CutShort(q, text + tail) <==> next < |whole| || rest != "" || tail != ""
  {
    hide Matches, CutShort;
    var front := lines + whole;
    assert lines + (whole + [rest]) == front + [rest];
    ReadOn(text, tail, front, rest);
    OneOrMore(rest + tail);
    hide Split;
    var n := |lines| + next;
    assert 0 < n;
    assert (front + Split(rest + tail))[..n] == lines + whole[..next];
    hide Filled;
    FilledDecides(q, text + tail, n);
  }

  /** Matches of lines already taken come first, whatever is read later. */
  lemma TakenComeFirst(q: Query, text: string, tail: string, lines: seq<string>, whole: seq<string>, next: nat,
      rest: string)
    requires Split(text) == lines + (whole + [rest]) && next <= |whole|
    ensures Matches(q, lines + whole[..next]) <= AllMatches(q, text + tail)
  {
    hide Split, Matches;
    assert lines + (whole + [rest]) == (lines + whole) + [rest];
    ReadOn(text, tail, lines + whole, rest);
    var taken, later := lines + whole[..next], whole[next..] + Split(rest + tail);
    assert (lines + whole) + Split(rest + tail) == taken + later;
    MatchesAppend(q, taken, later);
  }

  lemma NothingLeft(q: Query, text: string, lines: seq<string>, whole: seq<string>)
    requires Split(text) == lines + (whole + [""])
    ensures AllMatches(q, text) == Matches(q, lines + whole)
  {
    assert lines + (whole + [""]) == lines + whole + [""];
    MatchesAppend(q, lines + whole, [""]);
    MatchesOne(q, "");
  }

  /** Stopping at the limit: the lines taken so far already give the first matches of everything. */
  lemma {:induction false} StopHere(q: Query, text: string, tail: string, lines: seq<string>, whole: seq<string>,
      next: nat, rest: string, entries: seq<Entry>, truncated: bool)
    requires Split(text) == lines + (whole + [rest]) && next <= |whole|
    requires entries == Matches(q, lines + whole[..next]) && Filled(q, lines + whole[..next])
    requires truncated <==> next < |whole| || rest != "" || tail != ""
    ensures Stopped(q, text, tail, entries, truncated)
  {
    hide Split, Matches;
    TakenComeFirst(q, text, "", lines, whole, next, rest);
    TakenComeFirst(q, text, tail, lines, whole, next, rest);
    assert text + "" == text;
    CutShortHere(q, text, tail, lines, whole, next, rest);
    hide CutShort;
    if !truncated {
      assert whole[..next] == whole && text + tail == text;
      hide AllMatches;
      NothingLeft(q, text, lines, whole);
    }
  }

  /** One chunk once its bytes are read: complete lines are looked at, the last piece is kept. */
  method TakeChunk(q: Query, bytes: string, atEnd: bool, ghost lines: seq<string>, remainder: string,
      before: seq<Entry>)
    returns (entries: seq<Entry>, rest: string, truncated: bool, ghost whole: seq<string>, ghost next: nat)
    requires before == Matches(q, lines) && |before| < q.limit
    ensures Split(remainder + bytes) == whole + [rest] && next <= |whole|
    ensures entries == Matches(q, lines + whole[..next]) && |entries| <= q.limit
    ensures |entries| < q.limit ==> !truncated && next == |whole|
    ensures |entries| == q.limit ==> (truncated <==> next < |whole| || rest != "" || !atEnd)
    ensures |entries| == q.limit ==> Filled(q, lines + whole[..next])
  {
    hide Split, Matches;
    var chunkLines := Split(remainder + bytes);
    rest := Last(chunkLines);
    var complete := Front(chunkLines);
    var n;
    entries, n := TakeLines(q, complete, before);
    whole, next := complete, n;
    MatchesAppend(q, lines, whole[..next]);
    if |entries| == q.limit {
      MatchesAppend(q, lines, whole[..n - 1]);
      assert (lines + whole[..n])[..|lines| + n - 1] == lines + whole[..n - 1];
    }
    truncated := |entries| >= q.limit && (n < |complete| || rest != "" || !atEnd);
  }

  /** What one more chunk does to the loop's state. */
  lemma {:induction false} ChunkAdvances(q: Query, text: string, bytes: string, tail: string, lines: seq<string>,
      remainder: string, whole: seq<string>, next: nat, rest: string, entries: seq<Entry>, truncated: bool)
    requires Split(text) == lines + [remainder]
    requires Split(remainder + bytes) == whole + [rest] && next <= |whole|
    requires entries == Matches(q, lines + whole[..next]) && |entries| <= q.limit
    requires |entries| < q.limit ==> !truncated && next == |whole|
    requires |entries| == q.limit ==> (truncated <==> next < |whole| || rest != "" || tail != "")
    requires |entries| == q.limit ==> Filled(q, lines + whole[..next])
    ensures |entries| < q.limit ==> Reading(q, text + bytes, lines + whole, rest, entries)
    ensures |entries| == q.limit ==> Stopped(q, text + bytes, tail, entries, truncated)
  {
    hide Split, Matches, Stopped;
    ReadOn(text, bytes, lines, remainder);
    if |entries| < q.limit {
      assert whole[..next] == whole;
      assert lines + (whole + [rest]) == lines + whole + [rest];
    } else {
      StopHere(q, text + bytes, tail, lines, whole, next, rest, entries, truncated);
    }
  }

  /** A trailing piece without a newline is a line too. */
  method TakeRemainder(q: Query, ghost text: string, ghost lines: seq<string>, remainder: string, before: seq<Entry>)
    returns (entries: seq<Entry>)
    requires Reading(q, text, lines, remainder, before)
    ensures entries == AllMatches(q, text) && |entries| <= q.limit
  {
    entries := before;
    var m := Match(q, remainder);
    MatchesAppend(q, lines, [remainder]);
    MatchesOne(q, remainder);
    if m.Some? {
      entries := entries + [m.value];
    }
  }

  /** Cutting the file at an offset, and at a later one. */
  lemma Cut(file: string, since: nat, offset: nat, later: nat)
    requires since <= offset <= later <= |file|
    ensures file[since..offset] + file[offset..later] == file[since..later]
    ensures file[since..later] + file[later..] == file[since..]
    ensures later < |file| <==> file[later..] != ""
    ensures file[since..|file|] == file[since..]
  {
  }

  /** How the loop may end: the limit was reached, everything was read, or a read returned nothing. */
  ghost predicate Progress(q: Query, file: string, offset: nat, lines: seq<string>, remainder: string,
      entries: seq<Entry>, truncated: bool)
    requires q.since <= offset <= |file|
  {
    && |entries| <= q.limit
    && (|entries| < q.limit ==> !truncated && Reading(q, file[q.since..offset], lines, remainder, entries))
    && (|entries| == q.limit ==> Stopped(q, file[q.since..offset], file[offset..], entries, truncated))
  }

  /** One turn of the loop: read `bytesRead` bytes at the offset and take them. */
  method ReadChunk(q: Query, file: string, offset: nat, bytesRead: nat, ghost lines: seq<string>, remainder: string,
      before: seq<Entry>)
    returns (entries: seq<Entry>, rest: string, truncated: bool, ghost lines': seq<string>)
    requires q.since <= offset && offset + bytesRead <= |file| && |before| < q.limit
    requires Progress(q, file, offset, lines, remainder, before, false)
    ensures Progress(q, file, offset + bytesRead, lines', rest, entries, truncated)
  {
    hide Split, Matches, Stopped;
    ghost var whole, next;
    var later := offset + bytesRead;
    var bytes := file[offset..later];
    Cut(file, q.since, offset, later);
    entries, rest, truncated, whole, next := TakeChunk(q, bytes, later >= |file|, lines, remainder, before);
    ghost var text, tail := file[q.since..offset], file[later..];
    ChunkAdvances(q, text, bytes, tail, lines, remainder, whole, next, rest, entries, truncated);
    lines' := lines + whole;
  }

  lemma BlankMatchesNothing(q: Query)
    ensures AllMatches(q, "") == []
  {
    MatchesOne(q, "");
  }

  lemma StartReading(q: Query, file: string)
    requires q.since <= |file| && q.limit >= 1
    ensures Progress(q, file, q.since, [], "", [], false)
  {
    assert file[q.since..q.since] == "";
    assert Split("") == [] + [""];
  }

  /** After the loop. */
  method Finish(q: Query, file: string, offset: nat, ghost lines: seq<string>, remainder: string, before: seq<Entry>,
      truncated: bool)
    returns (entries: seq<Entry>)
    requires q.since <= offset <= |file|
    requires Progress(q, file, offset, lines, remainder, before, truncated)
    ensures entries == First(AllMatches(q, file[q.since..offset]), q.limit)
    ensures truncated ==> |entries| == q.limit
    ensures |before| == q.limit || offset == |file| ==> entries == First(AllMatches(q, file[q.since..]), q.limit)
    ensures (|before| == q.limit || offset == |file|) && !truncated ==> entries == AllMatches(q, file[q.since..])
    ensures |before| == q.limit || offset == |file| ==> (truncated <==> CutShort(q, file[q.since..]))
  {
    hide AllMatches, CutShort;
    if |before| < q.limit {
      NotCutShort(q, file[q.since..offset], lines, remainder);
    }
    hide Reading;
    entries := before;
    Cut(file, q.since, offset, offset);
    Cut(file, q.since, offset, |file|);
    if |entries| < q.limit {
      entries := TakeRemainder(q, file[q.since..offset], lines, remainder, entries);
    }
  }

  /** The tail handler. `give(k)` is the most the k-th read returns; a read of nothing ends the loop. */
  method Tail(file: string, q: Query, chunkSize: nat, give: nat -> nat)
    returns (entries: seq<Entry>, nextOffset: nat, truncated: bool)
    requires q.limit >= 1 && chunkSize >= 1
    ensures nextOffset <= |file|
    ensures q.since >= |file| ==> entries == [] && nextOffset == |file| && !truncated
    ensures q.since < |file| ==>
      && q.since <= nextOffset
      && entries == First(AllMatches(q, file[q.since..nextOffset]), q.limit)
    ensures truncated ==> |entries| == q.limit
    ensures (forall k :: give(k) >= 1) ==> entries == First(AllMatches(q, Suffix(file, q.since)), q.limit)
    ensures (forall k :: give(k) >= 1) && !truncated ==> entries == AllMatches(q, Suffix(file, q.since))
    ensures (forall k :: give(k) >= 1) ==> (truncated <==> CutShort(q, Suffix(file, q.since)))
  {
    hide Reading, Stopped, Matches, Filled;
    entries, truncated := [], false;
    if q.since >= |file| {
      BlankMatchesNothing(q);
      OneOrMore("");
      return [], |file|, false;
    }
    var currentOffset := q.since;
    var remainder := "";
    ghost var lines: seq<string> := [];
    StartReading(q, file);
    var k := 0;
    var stalled := false;
    while currentOffset < |file| && |entries| < q.limit && !stalled
      invariant q.since <= currentOffset <= |file|
      invariant Progress(q, file, currentOffset, lines, remainder, entries, truncated)
      invariant stalled ==> give(k) == 0
      decreases |file| - currentOffset, !stalled
    {
      var bytesToRead := if chunkSize < |file| - currentOffset then chunkSize else |file| - currentOffset;
      var bytesRead := if give(k) < bytesToRead then give(k) else bytesToRead;
      if bytesRead == 0 {
        stalled := true;
      } else {
        k := k + 1;
        entries, remainder, truncated, lines := ReadChunk(q, file, currentOffset, bytesRead, lines, remainder, entries);
        currentOffset := currentOffset + bytesRead;
      }
    }
    nextOffset := currentOffset;
    entries := Finish(q, file, currentOffset, lines, remainder, entries, truncated);
  }

  // ---- what a line contributes ----

  /** A line contributes an entry exactly when what stands between the white space at its ends is not empty, is parsed
      to that entry, and the level of the entry, in lower case, is asked for. */
  lemma MatchExactly(q: Query, line: string, e: Entry)
    ensures Match(q, line) == Some(e) <==>
      exists core :: IsCore(line, core, JsSpace) && core != "" && q.parse(core) == Some(e)
        && q.lower(e.level) in q.levels
  {
    TrimExactly(line, Trim(line, JsSpace), JsSpace);
    if core :| IsCore(line, core, JsSpace) && core != "" && q.parse(core) == Some(e) {
      TrimExactly(line, core, JsSpace);
    }
    hide Trim, IsCore;
  }

  function OfLevels(q: Query, entries: seq<Entry>, levels: set<string>): seq<Entry> {
    if entries == [] then []
    else
      var rest := OfLevels(q, entries[..|entries| - 1], levels);
      var e := entries[|entries| - 1];
      if q.lower(e.level) in levels then rest + [e] else rest
  }

  /** Asking for fewer levels gives the entries of those levels, in the same order, and no others. */
  lemma {:induction false} LevelsFilter(q: Query, levels: set<string>, lines: seq<string>)
    requires levels <= q.levels
    ensures Matches(q.(levels := levels), lines) == OfLevels(q, Matches(q, lines), levels)
  {
    if lines != [] {
      LevelsFilter(q, levels, lines[..|lines| - 1]);
      hide Trim;
    }
  }

  /** No entry of another level is given. */
  lemma {:induction false} OnlyLevels(q: Query, lines: seq<string>)
    ensures forall e | e in Matches(q, lines) :: q.lower(e.level) in q.levels
  {
    if lines != [] {
      OnlyLevels(q, lines[..|lines| - 1]);
      hide Trim;
    }
  }
}
