/**
 * The configuration hash of the tool cache (apps/atlasd/routes/mcp-tool-cache.ts:72-86): `JSON.stringify` with sorted
 * keys. The text is equal for two configurations exactly when they are equal up to key order and `undefined` members.
 */
module ConfigHash {
  predicate NumChar(c: char) {
    '0' <= c <= '9' || c == '-' || c == '+' || c == '.' || c == 'e'
  }

  /** The text of a JSON number. */
  type NumText = t: string | t != "" && forall i | 0 <= i < |t| :: NumChar(t[i]) witness "0"

  /** A JavaScript value as configurations hold it; `order` is the order in which keys were added. */
  datatype Value =
    | Undefined
    | Null
    | Bool(b: bool)
    | Num(n: NumText)
    | Str(s: string)
    | Arr(items: seq<Value>)
    | Obj(order: seq<string>, members: map<string, Value>)

  /** What a configuration means: no key order, no `undefined` members; `undefined` in an array is `null`. */
  datatype Meaning =
    | MNull
    | MBool(b: bool)
    | MNum(n: NumText)
    | MStr(s: string)
    | MArr(items: seq<Meaning>)
    | MObj(members: map<string, Meaning>)

  function Canon(v: Value): Meaning {
    match v
    case Undefined => MNull
    case Null => MNull
    case Bool(b) => MBool(b)
    case Num(n) => MNum(n)
    case Str(s) => MStr(s)
    case Arr(items) => MArr(seq(|items|, i requires 0 <= i < |items| => Canon(items[i])))
    case Obj(_, members) => MObj(map k | k in members && members[k] != Undefined :: Canon(members[k]))
  }

  // ---- sorted keys ----

  predicate Before(a: string, b: string) {
    a == "" || (b != "" && (a[0] < b[0] || (a[0] == b[0] && Before(a[1..], b[1..]))))
  }

  lemma {:induction false} BeforeTotal(a: string, b: string)
    ensures Before(a, b) || Before(b, a)
    ensures Before(a, b) && Before(b, a) ==> a == b
  {
    if a != "" && b != "" && a[0] == b[0] {
      BeforeTotal(a[1..], b[1..]);
      assert a == [a[0]] + a[1..] && b == [b[0]] + b[1..];
    }
  }

  lemma {:induction false} BeforeTransitive(a: string, b: string, c: string)
    requires Before(a, b) && Before(b, c)
    ensures Before(a, c)
  {
    if a != "" && a[0] == b[0] == c[0] {
      BeforeTransitive(a[1..], b[1..], c[1..]);
    }
  }

  predicate IsLeast(s: set<string>, k: string) {
    k in s && forall j | j in s :: Before(k, j)
  }

  lemma {:induction false} LeastExists(s: set<string>)
    requires s != {}
    ensures exists k :: IsLeast(s, k)
  {
    hide Before;
    var x :| x in s;
    var rest := s - {x};
    BeforeTotal(x, x);
    if rest == {} {
      assert s == {x};
      assert IsLeast(s, x);
    } else {
      LeastExists(rest);
      var k :| IsLeast(rest, k);
      BeforeTotal(x, k);
      if Before(x, k) {
        forall j | j in s ensures Before(x, j) {
          if j != x {
            BeforeTransitive(x, k, j);
          }
        }
        assert IsLeast(s, x);
      } else {
        assert IsLeast(s, k);
      }
    }
  }

  lemma LeastIsUnique(s: set<string>, a: string, b: string)
    requires IsLeast(s, a) && IsLeast(s, b)
    ensures a == b
  {
    BeforeTotal(a, b);
  }

  function Least(s: set<string>): (k: string)
    requires s != {}
    ensures IsLeast(s, k)
  {
    LeastExists(s);
    assert forall a, b | IsLeast(s, a) && IsLeast(s, b) :: a == b by {
      forall a, b | IsLeast(s, a) && IsLeast(s, b) ensures a == b {
        LeastIsUnique(s, a, b);
      }
    }
    var k :| k in s && IsLeast(s, k);
    k
  }

  /** All keys, least first. */
  function Sorted(s: set<string>): (keys: seq<string>)
    ensures forall k :: k in keys <==> k in s
  {
    if s == {} then []
    else
      var k := Least(s);
      [k] + Sorted(s - {k})
  }

  // ---- the text ----

  function Hex(n: int): char
    requires 0 <= n < 16
  {
    if n < 10 then '0' + n as char else 'a' + (n - 10) as char
  }

  function Escape(c: char): string {
    if c == '"' then "\\\""
    else if c == '\\' then "\\\\"
    else if c == '\U{8}' then "\\b"
    else if c == '\U{C}' then "\\f"
    else if c == '\n' then "\\n"
    else if c == '\r' then "\\r"
    else if c == '\t' then "\\t"
    else if c < ' ' then "\\u00" + [Hex(c as int / 16), Hex(c as int % 16)]
    else [c]
  }

  /** The rest of a quoted text, with `rest` after the closing quote. */
  function QuoteTo(s: string, rest: string): string {
    if s == "" then "\"" + rest else Escape(s[0]) + QuoteTo(s[1..], rest)
  }

  /** The text of a value with `rest` behind it. */
  function PrintTo(m: Meaning, rest: string): string
    decreases m, 1, 0
  {
    match m
    case MNull => "null" + rest
    case MBool(b) => (if b then "true" else "false") + rest
    case MNum(n) => n + rest
    case MStr(s) => "\"" + QuoteTo(s, rest)
    case MArr(items) => "[" + (if items == [] then "]" + rest else PrintTo(items[0], ItemsTo(m, 1, rest)))
    case MObj(members) =>
      var keys := Sorted(members.Keys);
      "{" + (if keys == [] then "}" + rest else MemberTo(m, keys[0], MembersTo(m, keys, 1, rest)))
  }

  function ItemsTo(m: Meaning, i: nat, rest: string): string
    requires m.MArr? && i <= |m.items|
    decreases m, 0, |m.items| - i
  {
    if i == |m.items| then "]" + rest else "," + PrintTo(m.items[i], ItemsTo(m, i + 1, rest))
  }

  function MemberTo(m: Meaning, key: string, rest: string): string
    requires m.MObj? && key in m.members
    decreases m, 0, 0
  {
    "\"" + QuoteTo(key, ":" + PrintTo(m.members[key], rest))
  }

  function MembersTo(m: Meaning, keys: seq<string>, i: nat, rest: string): string
    requires m.MObj? && i <= |keys| && forall k | k in keys :: k in m.members
    decreases m, 0, |keys| - i + 1
  {
    if i == |keys| then "}" + rest else "," + MemberTo(m, keys[i], MembersTo(m, keys, i + 1, rest))
  }

  function Hash(config: Value): string {
    PrintTo(Canon(config), "")
  }

  // ---- the text determines the meaning ----

  lemma Cancel(a: string, x: string, y: string)
    requires a + x == a + y
    ensures x == y
  {
    assert (a + x)[|a|..] == x && (a + y)[|a|..] == y;
  }

  lemma EscapeFree(c: char, d: char, x: string, y: string)
    requires Escape(c) + x == Escape(d) + y
    ensures c == d && x == y
  {
    var e, f := Escape(c), Escape(d);
    assert e[0] == (e + x)[0] && f[0] == (f + y)[0];
    if e[0] == '\\' {
      assert e[1] == (e + x)[1] && f[1] == (f + y)[1];
      if e[1] == 'u' {
        assert e[4] == (e + x)[4] && f[4] == (f + y)[4];
        assert e[5] == (e + x)[5] && f[5] == (f + y)[5];
      }
    }
    Cancel(e, x, y);
  }

  lemma QuoteStart(s: string, rest: string)
    ensures QuoteTo(s, rest) != "" && (QuoteTo(s, rest)[0] == '"' <==> s == "")
  {
  }

  lemma {:induction false} QuoteFree(a: string, b: string, x: string, y: string)
    requires QuoteTo(a, x) == QuoteTo(b, y)
    ensures a == b && x == y
  {
    QuoteStart(a, x);
    QuoteStart(b, y);
    hide Escape;
    if a == "" {
      Cancel("\"", x, y);
    } else {
      EscapeFree(a[0], b[0], QuoteTo(a[1..], x), QuoteTo(b[1..], y));
      QuoteFree(a[1..], b[1..], x, y);
      assert a == [a[0]] + a[1..] && b == [b[0]] + b[1..];
    }
  }

  /** What may follow a value: the end, a comma or a closing bracket. */
  predicate Ends(rest: string) {
    rest == "" || rest[0] == ',' || rest[0] == ']' || rest[0] == '}'
  }

  /** The first character of the text, which tells the kind of value. */
  function StartOf(m: Meaning): char {
    match m
    case MNull => 'n'
    case MBool(b) => if b then 't' else 'f'
    case MNum(n) => n[0]
    case MStr(_) => '"'
    case MArr(_) => '['
    case MObj(_) => '{'
  }

  lemma PrintStart(m: Meaning, rest: string)
    ensures PrintTo(m, rest) != "" && PrintTo(m, rest)[0] == StartOf(m)
  {
    hide QuoteTo, ItemsTo, MembersTo, MemberTo, Sorted;
  }

  lemma SameKind(a: Meaning, b: Meaning)
    requires StartOf(a) == StartOf(b)
    ensures (a.MNum? <==> b.MNum?) && (a.MStr? <==> b.MStr?) && (a.MArr? <==> b.MArr?) && (a.MObj? <==> b.MObj?)
    ensures !a.MNum? && !a.MStr? && !a.MArr? && !a.MObj? ==> a == b
    ensures StartOf(a) != ']' && StartOf(a) != '}'
  {
    assert a.MNum? ==> NumChar(a.n[0]);
    assert b.MNum? ==> NumChar(b.n[0]);
  }

  lemma NotLonger(a: NumText, b: NumText, x: string, y: string)
    requires a + x == b + y && Ends(y)
    ensures |a| <= |b|
  {
    var t := b + y;
    assert |t| > |b| ==> t[|b|] == y[0] && !NumChar(t[|b|]);
  }

  lemma NumberFree(a: NumText, b: NumText, x: string, y: string)
    requires a + x == b + y && Ends(x) && Ends(y)
    ensures a == b && x == y
  {
    NotLonger(a, b, x, y);
    NotLonger(b, a, y, x);
    assert (a + x)[..|a|] == a && (b + y)[..|b|] == b;
    Cancel(a, x, y);
  }

  /** Everything but arrays and objects. */
  lemma PlainFree(a: Meaning, b: Meaning, x: string, y: string)
    requires PrintTo(a, x) == PrintTo(b, y) && Ends(x) && Ends(y) && !a.MArr? && !a.MObj?
    ensures a == b && x == y
  {
    PrintStart(a, x);
    PrintStart(b, y);
    SameKind(a, b);
    hide StartOf, ItemsTo, MembersTo, MemberTo, Sorted;
    match a
    case MNum(n) => NumberFree(n, b.n, x, y);
    case MStr(s) =>
      Cancel("\"", QuoteTo(s, x), QuoteTo(b.s, y));
      QuoteFree(s, b.s, x, y);
    case MNull => Cancel("null", x, y);
    case MBool(v) => Cancel(if v then "true" else "false", x, y);
  }

  lemma ItemsEnd(m: Meaning, i: nat, rest: string)
    requires m.MArr? && i <= |m.items|
    ensures Ends(ItemsTo(m, i, rest)) && ItemsTo(m, i, rest) != ""
    ensures ItemsTo(m, i, rest)[0] == ']' <==> i == |m.items|
  {
    hide PrintTo;
  }

  lemma MembersEnd(m: Meaning, keys: seq<string>, i: nat, rest: string)
    requires m.MObj? && i <= |keys| && forall k | k in keys :: k in m.members
    ensures Ends(MembersTo(m, keys, i, rest)) && MembersTo(m, keys, i, rest) != ""
    ensures MembersTo(m, keys, i, rest)[0] == '}' <==> i == |keys|
  {
    hide MemberTo;
  }

  /** The text of a value and what follows it can be told apart in one way only. */
  lemma {:induction false} PrintFree(a: Meaning, b: Meaning, x: string, y: string)
    requires PrintTo(a, x) == PrintTo(b, y) && Ends(x) && Ends(y)
    ensures a == b && x == y
    decreases a, 1, 0
  {
    PrintStart(a, x);
    PrintStart(b, y);
    SameKind(a, b);
    if a.MArr? {
      ArrayFree(a, b, x, y);
    } else if a.MObj? {
      ObjectFree(a, b, x, y);
    } else {
      PlainFree(a, b, x, y);
    }
  }

  lemma ArrayBody(a: Meaning, b: Meaning, x: string, y: string)
    requires PrintTo(a, x) == PrintTo(b, y) && a.MArr? && b.MArr?
    ensures a.items == [] <==> b.items == []
    ensures a.items == [] ==> "]" + x == "]" + y
    ensures a.items != [] ==> PrintTo(a.items[0], ItemsTo(a, 1, x)) == PrintTo(b.items[0], ItemsTo(b, 1, y))
  {
    hide ItemsTo;
    var u := if a.items == [] then "]" + x else PrintTo(a.items[0], ItemsTo(a, 1, x));
    var v := if b.items == [] then "]" + y else PrintTo(b.items[0], ItemsTo(b, 1, y));
    assert PrintTo(a, x) == "[" + u && PrintTo(b, y) == "[" + v;
    Cancel("[", u, v);
    if a.items != [] { PrintStart(a.items[0], ItemsTo(a, 1, x)); SameKind(a.items[0], a.items[0]); }
    if b.items != [] { PrintStart(b.items[0], ItemsTo(b, 1, y)); SameKind(b.items[0], b.items[0]); }
    assert u[0] == v[0];
  }

  /** The first item stands without a comma. */
  lemma {:induction false} ArrayFree(a: Meaning, b: Meaning, x: string, y: string)
    requires PrintTo(a, x) == PrintTo(b, y) && Ends(x) && Ends(y) && a.MArr? && b.MArr?
    ensures a == b && x == y
    decreases a, 0, |a.items| + 1
  {
    ArrayBody(a, b, x, y);
    hide PrintTo;
    if a.items == [] {
      Cancel("]", x, y);
    } else {
      ItemsEnd(a, 1, x);
      ItemsEnd(b, 1, y);
      PrintFree(a.items[0], b.items[0], ItemsTo(a, 1, x), ItemsTo(b, 1, y));
      ItemsFree(a, b, 1, x, y);
      assert a.items == [a.items[0]] + a.items[1..] && b.items == [b.items[0]] + b.items[1..];
    }
  }

  lemma {:induction false} ItemsFree(a: Meaning, b: Meaning, i: nat, x: string, y: string)
    requires a.MArr? && b.MArr? && i <= |a.items| && i <= |b.items|
    requires ItemsTo(a, i, x) == ItemsTo(b, i, y) && Ends(x) && Ends(y)
    ensures a.items[i..] == b.items[i..] && x == y
    decreases a, 0, |a.items| - i
  {
    ItemsEnd(a, i, x);
    ItemsEnd(b, i, y);
    hide PrintTo;
    if i == |a.items| {
      Cancel("]", x, y);
    } else {
      var u, v := ItemsTo(a, i + 1, x), ItemsTo(b, i + 1, y);
      Cancel(",", PrintTo(a.items[i], u), PrintTo(b.items[i], v));
      ItemsEnd(a, i + 1, x);
      ItemsEnd(b, i + 1, y);
      PrintFree(a.items[i], b.items[i], u, v);
      ItemsFree(a, b, i + 1, x, y);
      assert a.items[i..] == [a.items[i]] + a.items[i + 1..] && b.items[i..] == [b.items[i]] + b.items[i + 1..];
    }
  }

  lemma {:induction false} MemberFree(a: Meaning, b: Meaning, k: string, l: string, x: string, y: string)
    requires a.MObj? && b.MObj? && k in a.members && l in b.members
    requires MemberTo(a, k, x) == MemberTo(b, l, y) && Ends(x) && Ends(y)
    ensures k == l && a.members[k] == b.members[l] && x == y
    decreases a, 0, 0
  {
    var u, v := ":" + PrintTo(a.members[k], x), ":" + PrintTo(b.members[l], y);
    Cancel("\"", QuoteTo(k, u), QuoteTo(l, v));
    QuoteFree(k, l, u, v);
    Cancel(":", PrintTo(a.members[k], x), PrintTo(b.members[l], y));
    PrintFree(a.members[k], b.members[l], x, y);
  }

  /** Two lists of members with the same text have the same keys, with the same values. */
  ghost predicate SameMembers(a: Meaning, ka: seq<string>, b: Meaning, kb: seq<string>, i: nat)
    requires a.MObj? && b.MObj?
  {
    && |ka| == |kb|
    && (forall j | i <= j < |ka| :: ka[j] == kb[j] && ka[j] in a.members && kb[j] in b.members)
    && (forall j | i <= j < |ka| :: a.members[ka[j]] == b.members[kb[j]])
  }

  lemma {:induction false} MembersFree(a: Meaning, ka: seq<string>, b: Meaning, kb: seq<string>, i: nat, x: string,
      y: string)
    requires a.MObj? && b.MObj? && i <= |ka| && i <= |kb|
    requires (forall k | k in ka :: k in a.members) && (forall k | k in kb :: k in b.members)
    requires MembersTo(a, ka, i, x) == MembersTo(b, kb, i, y) && Ends(x) && Ends(y)
    ensures SameMembers(a, ka, b, kb, i) && x == y
    decreases a, 0, |ka| - i + 1
  {
    MembersEnd(a, ka, i, x);
    MembersEnd(b, kb, i, y);
    hide MemberTo;
    if i == |ka| {
      Cancel("}", x, y);
    } else {
      var u, v := MembersTo(a, ka, i + 1, x), MembersTo(b, kb, i + 1, y);
      Cancel(",", MemberTo(a, ka[i], u), MemberTo(b, kb[i], v));
      MembersEnd(a, ka, i + 1, x);
      MembersEnd(b, kb, i + 1, y);
      MemberFree(a, b, ka[i], kb[i], u, v);
      MembersFree(a, ka, b, kb, i + 1, x, y);
    }
  }

  lemma ObjectBody(a: Meaning, b: Meaning, x: string, y: string)
    requires PrintTo(a, x) == PrintTo(b, y) && a.MObj? && b.MObj?
    ensures var ka, kb := Sorted(a.members.Keys), Sorted(b.members.Keys);
      && (ka == [] <==> kb == [])
      && (ka == [] ==> "}" + x == "}" + y)
      && (ka != [] ==> MemberTo(a, ka[0], MembersTo(a, ka, 1, x)) == MemberTo(b, kb[0], MembersTo(b, kb, 1, y)))
  {
    hide MembersTo, Sorted;
    var ka, kb := Sorted(a.members.Keys), Sorted(b.members.Keys);
    var u := if ka == [] then "}" + x else MemberTo(a, ka[0], MembersTo(a, ka, 1, x));
    var v := if kb == [] then "}" + y else MemberTo(b, kb[0], MembersTo(b, kb, 1, y));
    assert PrintTo(a, x) == "{" + u && PrintTo(b, y) == "{" + v;
    Cancel("{", u, v);
    assert u[0] == v[0];
  }

  lemma SameMap(a: Meaning, b: Meaning)
    requires a.MObj? && b.MObj? && SameMembers(a, Sorted(a.members.Keys), b, Sorted(b.members.Keys), 0)
    ensures a == b
  {
    hide Sorted;
    var ka, kb := Sorted(a.members.Keys), Sorted(b.members.Keys);
    assert ka == kb;
    forall k | k in a.members ensures k in b.members && a.members[k] == b.members[k] {
      assert k in ka;
    }
    forall k | k in b.members ensures k in a.members {
      assert k in kb;
    }
    assert a.members == b.members;
  }

  /** The first member stands without a comma. */
  lemma {:induction false} SomeMembers(a: Meaning, ka: seq<string>, b: Meaning, kb: seq<string>, x: string, y: string)
    requires a.MObj? && b.MObj? && ka != [] && kb != [] && Ends(x) && Ends(y)
    requires (forall k | k in ka :: k in a.members) && (forall k | k in kb :: k in b.members)
    requires MemberTo(a, ka[0], MembersTo(a, ka, 1, x)) == MemberTo(b, kb[0], MembersTo(b, kb, 1, y))
    ensures SameMembers(a, ka, b, kb, 0) && x == y
    decreases a, 0, |ka| + 2
  {
    MembersEnd(a, ka, 1, x);
    MembersEnd(b, kb, 1, y);
    hide MemberTo, MembersTo, Ends;
    MemberFree(a, b, ka[0], kb[0], MembersTo(a, ka, 1, x), MembersTo(b, kb, 1, y));
    MembersFree(a, ka, b, kb, 1, x, y);
  }

  lemma {:induction false} ObjectMembers(a: Meaning, b: Meaning, x: string, y: string)
    requires PrintTo(a, x) == PrintTo(b, y) && Ends(x) && Ends(y) && a.MObj? && b.MObj?
    ensures SameMembers(a, Sorted(a.members.Keys), b, Sorted(b.members.Keys), 0) && x == y
    decreases a, 0, |Sorted(a.members.Keys)| + 3
  {
    ObjectBody(a, b, x, y);
    hide PrintTo, Sorted, MembersTo, MemberTo, Ends;
    var ka, kb := Sorted(a.members.Keys), Sorted(b.members.Keys);
    if ka == [] {
      Cancel("}", x, y);
    } else {
      hide SameMembers;
      SomeMembers(a, ka, b, kb, x, y);
    }
  }

  lemma {:induction false} ObjectFree(a: Meaning, b: Meaning, x: string, y: string)
    requires PrintTo(a, x) == PrintTo(b, y) && Ends(x) && Ends(y) && a.MObj? && b.MObj?
    ensures a == b && x == y
    decreases a, 0, |Sorted(a.members.Keys)| + 4
  {
    hide *;
    ObjectMembers(a, b, x, y);
    SameMap(a, b);
  }

  /** Two configurations have the same hash exactly when they mean the same. */
  lemma HashIsExact(a: Value, b: Value)
    ensures Hash(a) == Hash(b) <==> Canon(a) == Canon(b)
  {
    hide Canon, PrintTo;
    if Hash(a) == Hash(b) {
      PrintFree(Canon(a), Canon(b), "", "");
    }
  }

  /** Neither the order in which keys were added nor members that are `undefined` change the hash. */
  lemma OrderAndUndefinedDoNotCount(order: seq<string>, order': seq<string>, members: map<string, Value>,
      extra: set<string>)
    requires extra !! members.Keys
    ensures Hash(Obj(order, members)) == Hash(Obj(order', members + map k | k in extra :: Undefined))
  {
    var more := members + map k | k in extra :: Undefined;
    assert Canon(Obj(order, members)).members == Canon(Obj(order', more)).members;
  }

  // ---- equal configurations ----

  /** Equal as JSON sees it: objects by their defined members in any order, lists by their items, `undefined` as
      `null`, and otherwise the same value. */
  ghost predicate SameConfig(a: Value, b: Value)
    decreases a
  {
    match a
    case Obj(_, ma) =>
      && b.Obj?
      && (forall k :: k in ma && ma[k] != Undefined <==> k in b.members && b.members[k] != Undefined)
      && (forall k | k in ma && ma[k] != Undefined :: k in b.members && SameConfig(ma[k], b.members[k]))
    case Arr(ia) => b.Arr? && |ia| == |b.items| && forall i | 0 <= i < |ia| :: SameConfig(ia[i], b.items[i])
    case Undefined => b == Undefined || b == Null
    case Null => b == Undefined || b == Null
    case Bool(x) => b == Bool(x)
    case Num(n) => b == Num(n)
    case Str(s) => b == Str(s)
  }

  /** The keys and members that the meaning of an object keeps. */
  lemma ObjectKeeps(v: Value, k: string)
    requires v.Obj?
    ensures var c := Canon(v).members;
      && (k in c <==> k in v.members && v.members[k] != Undefined)
      && (k in c ==> c[k] == Canon(v.members[k]))
  {
  }

  lemma ObjectsByMember(a: Value, b: Value)
    requires a.Obj? && b.Obj?
    ensures SameConfig(a, b) <==>
      && (forall k :: k in a.members && a.members[k] != Undefined <==> k in b.members && b.members[k] != Undefined)
      && (forall k | k in a.members && a.members[k] != Undefined ::
            k in b.members && SameConfig(a.members[k], b.members[k]))
  {
  }

  lemma MapsByMember(x: map<string, Meaning>, y: map<string, Meaning>)
    ensures x == y <==> (forall k :: k in x <==> k in y) && (forall k | k in x :: k in y && x[k] == y[k])
  {
  }

  lemma ObjectsSame(a: Value, b: Value)
    requires a.Obj? && b.Obj?
    requires forall k | k in a.members && k in b.members ::
      Canon(a.members[k]) == Canon(b.members[k]) <==> SameConfig(a.members[k], b.members[k])
    ensures Canon(a) == Canon(b) <==> SameConfig(a, b)
  {
    var ca, cb := Canon(a).members, Canon(b).members;
    forall k
      ensures (k in ca <==> k in a.members && a.members[k] != Undefined) && (k in ca ==> ca[k] == Canon(a.members[k]))
      ensures (k in cb <==> k in b.members && b.members[k] != Undefined) && (k in cb ==> cb[k] == Canon(b.members[k]))
    {
      ObjectKeeps(a, k);
      ObjectKeeps(b, k);
    }
    assert Canon(a) == MObj(ca) && Canon(b) == MObj(cb);
    hide Canon;
    ObjectsByMember(a, b);
    hide SameConfig;
    MapsByMember(ca, cb);
  }

  lemma ListsSame(a: Value, b: Value)
    requires a.Arr? && b.Arr?
    requires forall i | 0 <= i < |a.items| && i < |b.items| ::
      Canon(a.items[i]) == Canon(b.items[i]) <==> SameConfig(a.items[i], b.items[i])
    ensures Canon(a) == Canon(b) <==> SameConfig(a, b)
  {
    var ca, cb := Canon(a).items, Canon(b).items;
    assert |ca| == |a.items| && |cb| == |b.items|;
    if SameConfig(a, b) { assert ca == cb; }
    if ca == cb {
      forall i | 0 <= i < |a.items| ensures SameConfig(a.items[i], b.items[i]) {
        assert ca[i] == cb[i];
      }
    }
  }

  /** That is what the hashed meaning keeps, and all it keeps. */
  lemma {:induction false} SameExactly(a: Value, b: Value)
    ensures Canon(a) == Canon(b) <==> SameConfig(a, b)
    decreases a
  {
    if a.Obj? && b.Obj? {
      forall k | k in a.members && k in b.members
        ensures Canon(a.members[k]) == Canon(b.members[k]) <==> SameConfig(a.members[k], b.members[k])
      {
        SameExactly(a.members[k], b.members[k]);
      }
      ObjectsSame(a, b);
    } else if a.Arr? && b.Arr? {
      forall i | 0 <= i < |a.items| && i < |b.items|
        ensures Canon(a.items[i]) == Canon(b.items[i]) <==> SameConfig(a.items[i], b.items[i])
      {
        SameExactly(a.items[i], b.items[i]);
      }
      ListsSame(a, b);
    }
  }

  /** Two configurations have the same hash text exactly when they are equal as JSON sees it. */
  lemma HashSeesAll(a: Value, b: Value)
    ensures Hash(a) == Hash(b) <==> SameConfig(a, b)
  {
    HashIsExact(a, b);
    SameExactly(a, b);
    hide Hash, Canon, SameConfig;
  }
}
