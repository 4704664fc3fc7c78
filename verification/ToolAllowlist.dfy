/**
 * Which tools an action sees (packages/fsm-engine/fsm-engine.ts:2299-2345, 2377-2442): the entry list, the servers to
 * connect to, and the filter over what they offer. The bypass flag is off.
 */
module ToolAllowlist {
  import opened Options
  import opened Lines

  const PLATFORM := "atlas-platform"

  datatype Allow = All | Names(names: set<string>)

  /** What the entry list allows: per server, and tool names from any server. */
  datatype Tables = Tables(serverAllow: map<string, Allow>, bare: set<string>)

  /** `server/tool`: a slash after the first character. */
  predicate Qualified(entry: string) {
    IndexOf(entry, '/') > 0
  }

  function ServerOf(entry: string): string
    requires Qualified(entry)
  {
    entry[..IndexOf(entry, '/')]
  }

  function ToolOf(entry: string): string
    requires Qualified(entry)
  {
    entry[IndexOf(entry, '/') + 1..]
  }

  /** One entry more; `configs` are the ids of the configured servers. */
  function Add(t: Tables, configs: set<string>, entry: string): Tables {
    if Qualified(entry) then
      var sid, tn := ServerOf(entry), ToolOf(entry);
      if sid !in t.serverAllow then t.(serverAllow := t.serverAllow[sid := Names({tn})])
      else match t.serverAllow[sid]
        case All => t
        case Names(names) => t.(serverAllow := t.serverAllow[sid := Names(names + {tn})])
    else if entry in configs then t.(serverAllow := t.serverAllow[entry := All])
    else t.(bare := t.bare + {entry})
  }

  function TablesOf(entries: seq<string>, configs: set<string>): Tables {
    if entries == [] then Tables(map[], {})
    else Add(TablesOf(entries[..|entries| - 1], configs), configs, entries[|entries| - 1])
  }

  method ReadEntries(entries: seq<string>, configs: set<string>)
      returns (serverAllow: map<string, Allow>, bare: set<string>)
    ensures Tables(serverAllow, bare) == TablesOf(entries, configs)
  {
    serverAllow, bare := map[], {};
    for i := 0 to |entries|
      invariant Tables(serverAllow, bare) == TablesOf(entries[..i], configs)
    {
      assert entries[..i + 1][..i] == entries[..i];
      var entry := entries[i];
      var slash := IndexOf(entry, '/');
      if slash > 0 {
        var sid, tn := entry[..slash], entry[slash + 1..];
        if sid in serverAllow && serverAllow[sid].All? {
          continue;
        }
        if sid in serverAllow {
          serverAllow := serverAllow[sid := Names(serverAllow[sid].names + {tn})];
        } else {
          serverAllow := serverAllow[sid := Names({tn})];
        }
      } else if entry in configs {
        serverAllow := serverAllow[entry := All];
      } else {
        bare := bare + {entry};
      }
    }
    assert entries[..|entries|] == entries;
  }

  // ---- what the entries mean ----

  predicate NamedBare(entries: seq<string>, configs: set<string>, server: string) {
    server in entries && !Qualified(server) && server in configs
  }

  predicate NamedWithServer(entries: seq<string>, server: string, name: string) {
    server != "" && '/' !in server && server + "/" + name in entries
  }

  predicate NamedAlone(entries: seq<string>, configs: set<string>, name: string) {
    name in entries && !Qualified(name) && name !in configs
  }

  /** The declared meaning of an entry list for one tool of one server. */
  predicate Named(entries: seq<string>, configs: set<string>, server: string, name: string) {
    || NamedBare(entries, configs, server)
    || NamedWithServer(entries, server, name)
    || NamedAlone(entries, configs, name)
  }

  /** The test of the filter, on the tables. */
  predicate Permits(t: Tables, server: string, name: string) {
    || (server in t.serverAllow && (t.serverAllow[server].All? || name in t.serverAllow[server].names))
    || name in t.bare
  }

  lemma QualifiedSplits(entry: string, server: string, name: string)
    ensures Qualified(entry) && ServerOf(entry) == server && ToolOf(entry) == name
      <==> server != "" && '/' !in server && entry == server + "/" + name
  {
    if server != "" && '/' !in server && entry == server + "/" + name {
      IndexOfFront(server, '/', name);
      assert server + ['/'] + name == entry;
      assert entry[..|server|] == server && entry[|server| + 1..] == name;
    }
    if Qualified(entry) {
      var i := IndexOf(entry, '/');
      assert entry == entry[..i] + "/" + entry[i + 1..];
    }
  }

  /** The tables say exactly what the entries say. */
  ghost predicate Faithful(t: Tables, entries: seq<string>, configs: set<string>) {
    && (forall name :: name in t.bare <==> NamedAlone(entries, configs, name))
    && (forall server :: server in t.serverAllow && t.serverAllow[server].All? <==> NamedBare(entries, configs, server))
    && (forall server, name ::
      server in t.serverAllow && t.serverAllow[server].Names? && name in t.serverAllow[server].names <==>
        !NamedBare(entries, configs, server) && NamedWithServer(entries, server, name))
    && (forall server :: server in t.serverAllow ==> t.serverAllow[server].All? || t.serverAllow[server].names != {})
  }

  lemma AddQualified(t: Tables, entries: seq<string>, configs: set<string>, entry: string)
    requires Faithful(t, entries, configs) && Qualified(entry)
    ensures Faithful(Add(t, configs, entry), entries + [entry], configs)
  {
    var sid, tn := ServerOf(entry), ToolOf(entry);
    var u, more := Add(t, configs, entry), entries + [entry];
    forall server, name
      ensures NamedWithServer(more, server, name)
        <==> NamedWithServer(entries, server, name) || (server == sid && name == tn)
    {
      QualifiedSplits(entry, server, name);
    }
    assert forall server :: NamedBare(more, configs, server) <==> NamedBare(entries, configs, server);
    assert forall name :: NamedAlone(more, configs, name) <==> NamedAlone(entries, configs, name);
    hide NamedBare, NamedAlone, NamedWithServer, Qualified;
  }

  lemma AddUnqualified(t: Tables, entries: seq<string>, configs: set<string>, entry: string)
    requires Faithful(t, entries, configs) && !Qualified(entry)
    ensures Faithful(Add(t, configs, entry), entries + [entry], configs)
  {
    var more := entries + [entry];
    forall server, name ensures NamedWithServer(more, server, name) <==> NamedWithServer(entries, server, name) {
      QualifiedSplits(entry, server, name);
    }
    assert forall server ::
        NamedBare(more, configs, server) <==>
          NamedBare(entries, configs, server) || (server == entry && entry in configs);
    assert forall name ::
        NamedAlone(more, configs, name) <==> NamedAlone(entries, configs, name) || (name == entry && entry !in configs);
    hide NamedBare, NamedAlone, NamedWithServer, Qualified;
  }

  lemma {:induction false} TablesAreFaithful(entries: seq<string>, configs: set<string>)
    ensures Faithful(TablesOf(entries, configs), entries, configs)
  {
    if entries != [] {
      var init, last := entries[..|entries| - 1], entries[|entries| - 1];
      TablesAreFaithful(init, configs);
      hide Faithful, Add, Qualified;
      assert entries == init + [last];
      if Qualified(last) {
        AddQualified(TablesOf(init, configs), init, configs, last);
      } else {
        AddUnqualified(TablesOf(init, configs), init, configs, last);
      }
    }
  }

  /** The filter's test is the declared meaning. */
  lemma PermitsIsNamed(entries: seq<string>, configs: set<string>, server: string, name: string)
    ensures Permits(TablesOf(entries, configs), server, name) <==> Named(entries, configs, server, name)
  {
    TablesAreFaithful(entries, configs);
    hide TablesOf, NamedBare, NamedAlone, NamedWithServer;
  }

  lemma SameNames(a: seq<string>, b: seq<string>, configs: set<string>)
    requires forall e :: e in a <==> e in b
    ensures forall name :: NamedAlone(a, configs, name) <==> NamedAlone(b, configs, name)
    ensures forall server :: NamedBare(a, configs, server) <==> NamedBare(b, configs, server)
    ensures forall server, name :: NamedWithServer(a, server, name) <==> NamedWithServer(b, server, name)
  {
    hide Qualified;
    forall server, name ensures NamedWithServer(a, server, name) <==> NamedWithServer(b, server, name) {
      var e := server + "/" + name;
      assert e in a <==> e in b;
    }
  }

  lemma SameAllow(t: Tables, u: Tables, a: seq<string>, b: seq<string>, configs: set<string>, server: string)
    requires Faithful(t, a, configs) && Faithful(u, b, configs) && (forall e :: e in a <==> e in b)
    requires server in t.serverAllow
    ensures server in u.serverAllow && u.serverAllow[server] == t.serverAllow[server]
  {
    SameNames(a, b, configs);
    hide NamedBare, NamedAlone, NamedWithServer;
    if !t.serverAllow[server].All? {
      var name :| name in t.serverAllow[server].names;
      assert name in u.serverAllow[server].names;
      assert t.serverAllow[server].names == u.serverAllow[server].names;
    }
  }

  /** Neither the order of the entries nor repeating them matters: the tables are the same. */
  lemma OrderDoesNotCount(a: seq<string>, b: seq<string>, configs: set<string>)
    requires forall e :: e in a <==> e in b
    ensures TablesOf(a, configs) == TablesOf(b, configs)
  {
    var t, u := TablesOf(a, configs), TablesOf(b, configs);
    TablesAreFaithful(a, configs);
    TablesAreFaithful(b, configs);
    SameNames(a, b, configs);
    forall server | server in t.serverAllow
      ensures server in u.serverAllow && u.serverAllow[server] == t.serverAllow[server]
    {
      SameAllow(t, u, a, b, configs, server);
    }
    forall server | server in u.serverAllow ensures server in t.serverAllow {
      SameAllow(u, t, b, a, configs, server);
    }
    hide TablesOf, NamedBare, NamedAlone, NamedWithServer;
    assert t.serverAllow == u.serverAllow;
    assert t.bare == u.bare;
  }

  // ---- the servers to connect to ----

  function Selected(t: Tables, configs: set<string>): set<string> {
    {PLATFORM} + (if t.bare != {} then configs else t.serverAllow.Keys * configs)
  }

  /** The configured ones among some ids, without replacing the platform server. */
  method AddConfigured(before: set<string>, ids: set<string>, configs: set<string>) returns (servers: set<string>)
    requires PLATFORM in before
    ensures servers == before + ids * configs
  {
    servers := before;
    var left := ids;
    while left != {}
      invariant left <= ids
      invariant forall id :: id in servers <==> id in before || (id in ids && id !in left && id in configs)
      decreases |left|
    {
      var id :| id in left;
      left := left - {id};
      if id in configs && id != PLATFORM {
        servers := servers + {id};
      }
    }
  }

  method SelectServers(serverAllow: map<string, Allow>, bare: set<string>, configs: set<string>)
      returns (servers: set<string>)
    ensures servers == Selected(Tables(serverAllow, bare), configs)
  {
    var ids := if bare != {} then configs else serverAllow.Keys;
    servers := AddConfigured({PLATFORM}, ids, configs);
  }

  /** Every configured server with a tool that the entries allow is connected. */
  lemma SelectedCovers(entries: seq<string>, configs: set<string>, server: string, name: string)
    requires server in configs && Named(entries, configs, server, name)
    ensures server in Selected(TablesOf(entries, configs), configs)
  {
    TablesAreFaithful(entries, configs);
    hide TablesOf, NamedBare, NamedAlone, NamedWithServer;
  }

  /** Without bare tool names no server is connected that the entries do not mention. */
  lemma SelectedIsTight(entries: seq<string>, configs: set<string>, server: string)
    requires TablesOf(entries, configs).bare == {} && server != PLATFORM
      && server in Selected(TablesOf(entries, configs), configs)
    ensures exists name :: Named(entries, configs, server, name)
  {
    TablesAreFaithful(entries, configs);
    var t := TablesOf(entries, configs);
    hide TablesOf, NamedBare, NamedAlone, NamedWithServer;
    if t.serverAllow[server].All? {
      assert Named(entries, configs, server, "");
    } else {
      var name :| name in t.serverAllow[server].names;
      assert Named(entries, configs, server, name);
    }
  }

  // ---- what the servers offer ----

  /** A tool with the server that provides it. */
  datatype Tool = Tool(server: string, body: string)

  /** A connected server with its tools; servers are listed in the order in which they were merged. */
  datatype Server = Server(id: string, tools: map<string, string>)

  /** The flat map of tools: on a collision of names the later server wins. */
  function Merged(connected: seq<Server>): map<string, Tool> {
    if connected == [] then map[]
    else
      var last := connected[|connected| - 1];
      Merged(connected[..|connected| - 1]) + map n | n in last.tools :: Tool(last.id, last.tools[n])
  }

  /** A merged tool comes from a server that has it, and no tool is lost. */
  lemma {:induction false} MergedComesFrom(connected: seq<Server>, n: string)
    ensures n in Merged(connected) <==> exists i | 0 <= i < |connected| :: n in connected[i].tools
    ensures n in Merged(connected) ==>
      exists i | 0 <= i < |connected| :: n in connected[i].tools && Merged(connected)[n].server == connected[i].id
  {
    if connected != [] {
      var init, last := connected[..|connected| - 1], connected[|connected| - 1];
      MergedComesFrom(init, n);
      if n in last.tools {
        assert connected[|connected| - 1] == last;
      } else if n in Merged(init) {
        var i :| 0 <= i < |init| && n in init[i].tools && Merged(init)[n].server == init[i].id;
        assert connected[i] == init[i];
      }
    }
  }

  ghost predicate Connected(connected: seq<Server>, selected: set<string>) {
    && (forall i | 0 <= i < |connected| :: connected[i].id in selected)
    && (forall i, j | 0 <= i < j < |connected| :: connected[i].id != connected[j].id)
  }

  // ---- the filter ----

  /** The names of platform tools, and those of them that actions may use. */
  datatype PlatformTools = PlatformTools(names: set<string>, allowed: set<string>)

  predicate Passes(p: PlatformTools, name: string) {
    name !in p.names || name in p.allowed
  }

  predicate HasNameAllowlist(t: Tables) {
    t.bare != {} || exists s | s in t.serverAllow :: t.serverAllow[s] != All
  }

  /** The names that one server may offer: platform tools are ambient, others need a permit. */
  function NamesOf(t: Tables, server: Server): set<string> {
    set n | n in server.tools && (server.id == PLATFORM || Permits(t, server.id, n))
  }

  function OfferedNames(t: Tables, connected: seq<Server>): set<string> {
    if connected == [] then {}
    else OfferedNames(t, connected[..|connected| - 1]) + NamesOf(t, connected[|connected| - 1])
  }

  function Restrict(tools: map<string, Tool>, names: set<string>): map<string, Tool> {
    map n | n in tools && n in names :: tools[n]
  }

  function Filtered(p: PlatformTools, tools: map<string, Tool>): map<string, Tool> {
    map n | n in tools && Passes(p, n) :: tools[n]
  }

  function Scoped(p: PlatformTools, t: Tables, connected: seq<Server>): map<string, Tool> {
    var filtered := Filtered(p, Merged(connected));
    if HasNameAllowlist(t) then Restrict(filtered, OfferedNames(t, connected)) else filtered
  }

  method FilterPlatform(p: PlatformTools, tools: map<string, Tool>) returns (filtered: map<string, Tool>)
    ensures filtered == Filtered(p, tools)
  {
    filtered := map[];
    var left := tools.Keys;
    while left != {}
      invariant left <= tools.Keys
      invariant filtered == map n | n in tools && n !in left && Passes(p, n) :: tools[n]
      decreases |left|
    {
      var name :| name in left;
      left := left - {name};
      if name !in p.names || name in p.allowed {
        filtered := filtered[name := tools[name]];
      }
    }
  }

  lemma RestrictMore(tools: map<string, Tool>, names: set<string>, n: string)
    ensures Restrict(tools, names + {n}) ==
      if n in tools then Restrict(tools, names)[n := tools[n]] else Restrict(tools, names)
  {
  }

  /** The inner loop, over the names of one server. */
  method ScopeServer(t: Tables, server: Server, filtered: map<string, Tool>, ghost names: set<string>,
      before: map<string, Tool>)
    returns (scoped: map<string, Tool>)
    requires before == Restrict(filtered, names)
    ensures scoped == Restrict(filtered, names + NamesOf(t, server))
  {
    hide Restrict, Permits;
    scoped := before;
    var left := server.tools.Keys;
    ghost var taken := names;
    while left != {}
      invariant left <= server.tools.Keys && scoped == Restrict(filtered, taken)
      invariant taken == names + (NamesOf(t, server) - left)
      decreases |left|
    {
      var name :| name in left;
      left := left - {name};
      if server.id == PLATFORM || Permits(t, server.id, name) {
        RestrictMore(filtered, taken, name);
        taken := taken + {name};
        if name in filtered {
          scoped := scoped[name := filtered[name]];
        }
      }
    }
    assert taken == names + NamesOf(t, server);
  }

  method ScopeTools(p: PlatformTools, t: Tables, connected: seq<Server>) returns (scoped: map<string, Tool>)
    ensures scoped == Scoped(p, t, connected)
  {
    var filtered := FilterPlatform(p, Merged(connected));
    if !HasNameAllowlist(t) {
      return filtered;
    }
    scoped := map[];
    hide NamesOf, Merged, HasNameAllowlist;
    for i := 0 to |connected|
      invariant scoped == Restrict(filtered, OfferedNames(t, connected[..i]))
    {
      scoped := ScopeServer(t, connected[i], filtered, OfferedNames(t, connected[..i]), scoped);
      assert connected[..i + 1][..i] == connected[..i];
    }
    assert connected[..|connected|] == connected;
  }

  /** The whole of it: entries, selection, connection to some of the selected servers, filter. */
  method BuildTools(p: PlatformTools, entries: seq<string>, configs: set<string>, connect: set<string> -> seq<Server>)
    returns (scoped: map<string, Tool>)
    ensures var t := TablesOf(entries, configs); scoped == Scoped(p, t, connect(Selected(t, configs)))
  {
    var serverAllow, bare := ReadEntries(entries, configs);
    var servers := SelectServers(serverAllow, bare, configs);
    scoped := ScopeTools(p, Tables(serverAllow, bare), connect(servers));
  }

  // ---- what is exposed ----

  predicate AllowedOn(entries: seq<string>, configs: set<string>, server: Server, name: string) {
    name in server.tools && (server.id == PLATFORM || Named(entries, configs, server.id, name))
  }

  /** A connected server has the tool, and it is the platform or the entries name the tool. */
  ghost predicate Allowed(entries: seq<string>, configs: set<string>, connected: seq<Server>, name: string) {
    exists i | 0 <= i < |connected| :: AllowedOn(entries, configs, connected[i], name)
  }

  lemma NamesOfIsAllowed(entries: seq<string>, configs: set<string>, server: Server, name: string)
    ensures name in NamesOf(TablesOf(entries, configs), server) <==> AllowedOn(entries, configs, server, name)
  {
    PermitsIsNamed(entries, configs, server.id, name);
    hide TablesOf, Permits, Named;
  }

  lemma {:induction false} OfferedIsAllowed(entries: seq<string>, configs: set<string>, connected: seq<Server>,
      name: string)
    ensures name in OfferedNames(TablesOf(entries, configs), connected) <==> Allowed(entries, configs, connected, name)
  {
    hide TablesOf, NamesOf, AllowedOn;
    if connected != [] {
      var init, last := connected[..|connected| - 1], connected[|connected| - 1];
      OfferedIsAllowed(entries, configs, init, name);
      NamesOfIsAllowed(entries, configs, last, name);
      if Allowed(entries, configs, init, name) {
        var i :| 0 <= i < |init| && AllowedOn(entries, configs, init[i], name);
        assert connected[i] == init[i];
      }
      assert connected[|connected| - 1] == last;
    }
  }

  /** Without a name list every selected server was named bare, so skipping the filter exposes nothing more. */
  lemma UnfilteredAgrees(entries: seq<string>, configs: set<string>, connected: seq<Server>, name: string)
    requires var t := TablesOf(entries, configs); !HasNameAllowlist(t) && Connected(connected, Selected(t, configs))
    requires name in Merged(connected)
    ensures Allowed(entries, configs, connected, name)
  {
    MergedComesFrom(connected, name);
    TablesAreFaithful(entries, configs);
    hide TablesOf, Merged, NamedBare, NamedAlone, NamedWithServer;
    var i :| 0 <= i < |connected| && name in connected[i].tools;
    assert connected[i].id in Selected(TablesOf(entries, configs), configs);
    assert AllowedOn(entries, configs, connected[i], name);
  }

  /** For every entry list: a tool is exposed exactly when it passes the platform filter and is allowed. */
  lemma ExposedExactly(p: PlatformTools, entries: seq<string>, configs: set<string>, connected: seq<Server>,
      name: string)
    requires Connected(connected, Selected(TablesOf(entries, configs), configs))
    ensures name in Scoped(p, TablesOf(entries, configs), connected)
      <==> Passes(p, name) && Allowed(entries, configs, connected, name)
  {
    var t := TablesOf(entries, configs);
    OfferedIsAllowed(entries, configs, connected, name);
    MergedComesFrom(connected, name);
    hide TablesOf, Merged, Passes, Named, Selected, Connected, HasNameAllowlist, OfferedNames;
    if !HasNameAllowlist(t) && name in Merged(connected) {
      UnfilteredAgrees(entries, configs, connected, name);
    }
  }

  // ---- whose tool it is ----

  /** The last connected server that has the tool; on a collision it is the one that supplies it. */
  ghost predicate Supplies(connected: seq<Server>, i: nat, name: string) {
    i < |connected| && name in connected[i].tools && forall j | i < j < |connected| :: name !in connected[j].tools
  }

  /** Every merged tool is that of the last server that has it. */
  lemma {:induction false} MergedFromLast(connected: seq<Server>, name: string) returns (i: nat)
    requires name in Merged(connected)
    ensures Supplies(connected, i, name)
    ensures Merged(connected)[name] == Tool(connected[i].id, connected[i].tools[name])
  {
    var init, last := connected[..|connected| - 1], connected[|connected| - 1];
    if name in last.tools {
      i := |connected| - 1;
    } else {
      i := MergedFromLast(init, name);
      forall j | i < j < |connected| ensures name !in connected[j].tools {
        assert j < |init| ==> init[j] == connected[j];
      }
    }
  }

  lemma OneSupplier(connected: seq<Server>, i: nat, j: nat, name: string)
    requires Supplies(connected, i, name) && Supplies(connected, j, name)
    ensures i == j
  {
  }

  /** The tool that is exposed under `name` belongs to a server that may offer it. */
  ghost predicate FromNamed(p: PlatformTools, entries: seq<string>, configs: set<string>, connected: seq<Server>,
      name: string)
    requires name in Scoped(p, TablesOf(entries, configs), connected)
  {
    var tool := Scoped(p, TablesOf(entries, configs), connected)[name];
    tool.server == PLATFORM || Named(entries, configs, tool.server, name)
  }

  lemma ScopedIsMerged(p: PlatformTools, t: Tables, connected: seq<Server>, n: string)
    requires n in Scoped(p, t, connected)
    ensures n in Merged(connected) && Scoped(p, t, connected)[n] == Merged(connected)[n]
  {
  }

  /** For an exposed name: the tool is a named server's exactly when the last server that has it is allowed to offer
      it. */
  lemma ExposedToolIsNamed(p: PlatformTools, entries: seq<string>, configs: set<string>, connected: seq<Server>,
      name: string, i: nat)
    requires name in Scoped(p, TablesOf(entries, configs), connected) && Supplies(connected, i, name)
    ensures FromNamed(p, entries, configs, connected, name) <==> AllowedOn(entries, configs, connected[i], name)
  {
    ScopedIsMerged(p, TablesOf(entries, configs), connected, name);
    var j := MergedFromLast(connected, name);
    OneSupplier(connected, i, j, name);
    hide Scoped, Merged, TablesOf, Named, Supplies;
  }

  /** An allowed tool is overwritten by that of a later server that is not allowed to offer it. */
  ghost predicate TakenOver(p: PlatformTools, entries: seq<string>, configs: set<string>, connected: seq<Server>,
      name: string, i: nat, j: nat) {
    && i < j < |connected| && Passes(p, name)
    && AllowedOn(entries, configs, connected[i], name)
    && Supplies(connected, j, name) && !AllowedOn(entries, configs, connected[j], name)
  }

  ghost predicate NoTakeover(p: PlatformTools, entries: seq<string>, configs: set<string>, connected: seq<Server>) {
    forall name, i: nat, j: nat :: !TakenOver(p, entries, configs, connected, name, i, j)
  }

  lemma AllowedHas(entries: seq<string>, configs: set<string>, server: Server, name: string)
    requires AllowedOn(entries, configs, server, name)
    ensures name in server.tools
  {
  }

  /** For one exposed name: either its tool is a named server's, or an allowed tool was taken over. */
  lemma NamedOrTakenOver(p: PlatformTools, entries: seq<string>, configs: set<string>, connected: seq<Server>,
      name: string)
    requires Connected(connected, Selected(TablesOf(entries, configs), configs))
    requires name in Scoped(p, TablesOf(entries, configs), connected)
    ensures !FromNamed(p, entries, configs, connected, name) <==>
      exists i: nat, j: nat :: TakenOver(p, entries, configs, connected, name, i, j)
  {
    ExposedExactly(p, entries, configs, connected, name);
    ScopedIsMerged(p, TablesOf(entries, configs), connected, name);
    var last := MergedFromLast(connected, name);
    ExposedToolIsNamed(p, entries, configs, connected, name, last);
    hide FromNamed, Scoped, Merged, TablesOf, Passes, Selected, Connected;
    if !AllowedOn(entries, configs, connected[last], name) {
      var i :| 0 <= i < |connected| && AllowedOn(entries, configs, connected[i], name);
      hide AllowedOn;
      AllowedHas(entries, configs, connected[i], name);
      assert TakenOver(p, entries, configs, connected, name, i, last);
    } else if i: nat, j: nat :| TakenOver(p, entries, configs, connected, name, i, j) {
      hide AllowedOn;
      OneSupplier(connected, j, last, name);
    }
  }

  lemma TakenOverIsExposed(p: PlatformTools, entries: seq<string>, configs: set<string>, connected: seq<Server>,
      name: string, i: nat, j: nat)
    requires Connected(connected, Selected(TablesOf(entries, configs), configs))
    requires TakenOver(p, entries, configs, connected, name, i, j)
    ensures name in Scoped(p, TablesOf(entries, configs), connected)
  {
    ExposedExactly(p, entries, configs, connected, name);
    hide Scoped, TablesOf, Selected, Connected, Passes, AllowedOn;
  }

  /** All exposed tools belong to servers that may offer them exactly when no allowed tool is taken over. */
  lemma ExposedToolsAreNamed(p: PlatformTools, entries: seq<string>, configs: set<string>, connected: seq<Server>)
    requires Connected(connected, Selected(TablesOf(entries, configs), configs))
    ensures (forall name | name in Scoped(p, TablesOf(entries, configs), connected) ::
      FromNamed(p, entries, configs, connected, name))
      <==> NoTakeover(p, entries, configs, connected)
  {
    var scoped := Scoped(p, TablesOf(entries, configs), connected);
    hide FromNamed, Scoped, TablesOf, TakenOver, Selected, Connected;
    forall name | name in scoped
      ensures !FromNamed(p, entries, configs, connected, name) <==>
        exists i: nat, j: nat :: TakenOver(p, entries, configs, connected, name, i, j)
    {
      NamedOrTakenOver(p, entries, configs, connected, name);
    }
    forall name, i: nat, j: nat | TakenOver(p, entries, configs, connected, name, i, j) ensures name in scoped {
      TakenOverIsExposed(p, entries, configs, connected, name, i, j);
    }
  }

  /** In particular when no two servers have a tool of the same name. */
  ghost predicate DisjointNames(connected: seq<Server>) {
    forall i, j | 0 <= i < j < |connected| :: connected[i].tools.Keys !! connected[j].tools.Keys
  }

  lemma DisjointNamesNoTakeover(p: PlatformTools, entries: seq<string>, configs: set<string>, connected: seq<Server>)
    requires DisjointNames(connected)
    ensures NoTakeover(p, entries, configs, connected)
  {
    forall name, i: nat, j: nat ensures !TakenOver(p, entries, configs, connected, name, i, j) {
      assert i < j < |connected| ==> connected[i].tools.Keys !! connected[j].tools.Keys;
    }
  }

  lemma TwoEntries(a: string, b: string, n: string, m: string)
    requires a != "" && b != "" && '/' !in a && '/' !in b
    ensures var entries := [a + "/" + n, b + "/" + m]; var configs := {a, b};
      && (forall server, name ::
        NamedWithServer(entries, server, name) <==> (server == a && name == n) || (server == b && name == m))
      && (forall server :: !NamedBare(entries, configs, server))
      && (forall name :: !NamedAlone(entries, configs, name))
  {
    var entries := [a + "/" + n, b + "/" + m];
    QualifiedSplits(entries[0], a, n);
    QualifiedSplits(entries[1], b, m);
    forall server, name
      ensures NamedWithServer(entries, server, name) <==> (server == a && name == n) || (server == b && name == m)
    {
      QualifiedSplits(entries[0], server, name);
      QualifiedSplits(entries[1], server, name);
    }
  }

  /** The condition can fail: `n` was named for `a` only, but the later server `b` has it too and takes it over. */
  lemma CollisionExposesUnnamedTool(a: string, b: string, n: string, m: string)
    requires a != b && n != m && a != "" && b != "" && '/' !in a && '/' !in b && PLATFORM !in {a, b}
    ensures var entries := [a + "/" + n, b + "/" + m]; var configs := {a, b};
      var connected := [Server(a, map[n := "x"]), Server(b, map[n := "y", m := "z"])];
      && Connected(connected, Selected(TablesOf(entries, configs), configs))
      && TakenOver(PlatformTools({}, {}), entries, configs, connected, n, 0, 1)
      && n in Scoped(PlatformTools({}, {}), TablesOf(entries, configs), connected)
      && !FromNamed(PlatformTools({}, {}), entries, configs, connected, n)
  {
    var entries, configs := [a + "/" + n, b + "/" + m], {a, b};
    TwoEntries(a, b, n, m);
    hide TablesOf, NamedWithServer, NamedBare, NamedAlone, Selected;
    SelectedCovers(entries, configs, a, n);
    SelectedCovers(entries, configs, b, m);
    var connected := [Server(a, map[n := "x"]), Server(b, map[n := "y", m := "z"])];
    assert TakenOver(PlatformTools({}, {}), entries, configs, connected, n, 0, 1);
    hide TakenOver, Scoped, FromNamed, Passes;
    TakenOverIsExposed(PlatformTools({}, {}), entries, configs, connected, n, 0, 1);
    NamedOrTakenOver(PlatformTools({}, {}), entries, configs, connected, n);
  }

  // ---- which servers are connected ----

  /** Some entry is a tool name without a server. */
  ghost predicate SomeNameAlone(entries: seq<string>, configs: set<string>) {
    exists name :: NamedAlone(entries, configs, name)
  }

  ghost predicate Mentioned(entries: seq<string>, configs: set<string>, server: string) {
    NamedBare(entries, configs, server) || exists name :: NamedWithServer(entries, server, name)
  }

  /** The platform is always connected; another server exactly when it is configured and the entries mention it, or
      hold some tool name that may come from anywhere. */
  lemma SelectedExactly(entries: seq<string>, configs: set<string>, server: string)
    ensures server in Selected(TablesOf(entries, configs), configs) <==>
      || server == "atlas-platform"
      || (server in configs && (SomeNameAlone(entries, configs) || Mentioned(entries, configs, server)))
  {
    TablesAreFaithful(entries, configs);
    var t := TablesOf(entries, configs);
    hide TablesOf, NamedBare, NamedAlone, NamedWithServer;
    if name :| name in t.bare {
      assert NamedAlone(entries, configs, name);
    } else if server in t.serverAllow && t.serverAllow[server].Names? {
      var name :| name in t.serverAllow[server].names;
      assert NamedWithServer(entries, server, name);
    }
    if Mentioned(entries, configs, server) && !NamedBare(entries, configs, server) {
      var name :| NamedWithServer(entries, server, name);
      assert server in t.serverAllow;
    }
  }

  // ---- the entries in words ----

  /** No server part: no slash, or only behind an empty first part. */
  predicate NoServerPart(entry: string) {
    '/' !in entry || entry[0] == '/'
  }

  /** One entry allows a tool of a server: `server/tool`, the id of a configured server, or the name of the tool. */
  predicate EntryAllows(entry: string, configs: set<string>, server: string, name: string) {
    || (server != "" && '/' !in server && entry == server + "/" + name)
    || (entry == server && entry in configs && NoServerPart(entry))
    || (entry == name && entry !in configs && NoServerPart(entry))
  }

  lemma NoServerPartMeans(entry: string)
    ensures NoServerPart(entry) <==> !Qualified(entry)
  {
    if NoServerPart(entry) && entry != "" && entry[0] == '/' {
      IndexOfIs(entry, '/', 0);
    }
  }

  lemma NamedInWords(entries: seq<string>, configs: set<string>, server: string, name: string)
    ensures Named(entries, configs, server, name) <==> exists e :: e in entries && EntryAllows(e, configs, server, name)
  {
    forall e ensures NoServerPart(e) <==> !Qualified(e) {
      NoServerPartMeans(e);
    }
    hide NoServerPart, Qualified;
    if NamedBare(entries, configs, server) { assert EntryAllows(server, configs, server, name); }
    if NamedWithServer(entries, server, name) { assert EntryAllows(server + "/" + name, configs, server, name); }
    if NamedAlone(entries, configs, name) { assert EntryAllows(name, configs, server, name); }
  }

  /** A tool name is exposed exactly when it is no platform tool or a permitted one, and some connected server has it
      that is the platform itself or that an entry allows it for. */
  lemma ExposedInWords(p: PlatformTools, entries: seq<string>, configs: set<string>, connected: seq<Server>,
      name: string)
    requires Connected(connected, Selected(TablesOf(entries, configs), configs))
    ensures name in Scoped(p, TablesOf(entries, configs), connected) <==>
      && (name !in p.names || name in p.allowed)
      && exists i ::
        && 0 <= i < |connected| && name in connected[i].tools
        && (connected[i].id == "atlas-platform" ||
            exists e :: e in entries && EntryAllows(e, configs, connected[i].id, name))
  {
    ExposedExactly(p, entries, configs, connected, name);
    forall i | 0 <= i < |connected|
      ensures AllowedOn(entries, configs, connected[i], name) <==>
        && name in connected[i].tools
        && (connected[i].id == "atlas-platform" ||
            exists e :: e in entries && EntryAllows(e, configs, connected[i].id, name))
    {
      NamedInWords(entries, configs, connected[i].id, name);
    }
    hide Scoped, TablesOf, AllowedOn, EntryAllows, Named, Selected, Connected;
  }
}
