/**
 * The MCP tool cache and its probes: background ones (apps/atlasd/routes/mcp-tool-cache.ts:72-126, 198-237), and the
 * foreground ones of the tools route (apps/atlasd/routes/mcp-registry.ts:1085-1095). Starts and ends of both,
 * invalidations, lookups and the clock interleave in any order.
 */
module PrewarmCache {
  import opened Options
  import opened ConfigHash

  const CACHE_TTL_MS := 3600000

  datatype Tool = Tool(name: string, description: Option<string>, inputSchema: Option<string>)

  datatype Entry = Entry(configHash: string, tools: seq<Tool>, cachedAt: int)

  datatype Slot = Slot(configHash: string, marker: nat)

  /** A probe that has not ended. */
  datatype Probe = Probe(server: string, config: Value)

  /** For the proofs: a probe, background or foreground, that found tools. */
  datatype Finished = Finished(server: string, config: Value, tools: seq<Tool>, at: int)

  /**
   * `probes` run in the background, `foreground` for a waiting caller; `begun` holds all background probes that ever
   * started, for the proofs.
   */
  datatype State = State(
    cache: map<string, Entry>,
    inFlight: map<string, Slot>,
    probes: map<nat, Probe>,
    begun: map<nat, Probe>,
    foreground: map<nat, Probe>,
    finished: set<Finished>,
    nextMarker: nat,
    nextForeground: nat,
    now: int)

  // ---- the operations ----

  predicate Expired(e: Entry, now: int) {
    now - e.cachedAt > CACHE_TTL_MS
  }

  function Cached(cache: map<string, Entry>, server: string, config: Value, now: int): Option<seq<Tool>> {
    if server in cache && cache[server].configHash == Hash(config) && !Expired(cache[server], now)
    then Some(cache[server].tools) else None
  }

  /** A lookup drops the entry it finds expired; one for another configuration stays. */
  function AfterLookup(cache: map<string, Entry>, server: string, config: Value, now: int): map<string, Entry> {
    if server in cache && cache[server].configHash == Hash(config) && Expired(cache[server], now)
    then cache - {server} else cache
  }

  function InFlight(inFlight: map<string, Slot>, server: string, config: Value): Option<nat> {
    if server in inFlight && inFlight[server].configHash == Hash(config) then Some(inFlight[server].marker) else None
  }

  /** The probe with this marker clears its own slot, and only its own. */
  function Cleared(inFlight: map<string, Slot>, server: string, marker: nat): map<string, Slot> {
    if server in inFlight && inFlight[server].marker == marker then inFlight - {server} else inFlight
  }

  datatype Step =
    | Prewarm(server: string, config: Value)
    | ProbeFinds(marker: nat, tools: seq<Tool>)
    | ProbeFails(marker: nat)
    | GetTools(server: string, config: Value)
    | ForegroundFinds(number: nat, tools: seq<Tool>)
    | ForegroundFails(number: nat)
    | Invalidate(server: string)
    | Lookup(server: string, config: Value)
    | Wait(ms: nat)

  const START := State(map[], map[], map[], map[], map[], {}, 0, 0, 0)

  function Found(s: State, server: string, config: Value, tools: seq<Tool>): State {
    s.(cache := s.cache[server := Entry(Hash(config), tools, s.now)],
       finished := s.finished + {Finished(server, config, tools, s.now)})
  }

  function Ended(s: State, marker: nat): State
    requires marker in s.probes
  {
    s.(probes := s.probes - {marker}, inFlight := Cleared(s.inFlight, s.probes[marker].server, marker))
  }

  function ForegroundEnded(s: State, number: nat): State {
    s.(foreground := s.foreground - {number})
  }

  /** The state with a new probe that takes the slot of its server. */
  function Begun(s: State, server: string, config: Value): State {
    s.(probes := s.probes[s.nextMarker := Probe(server, config)],
       begun := s.begun[s.nextMarker := Probe(server, config)],
       inFlight := s.inFlight[server := Slot(Hash(config), s.nextMarker)],
       nextMarker := s.nextMarker + 1)
  }

  /** The state with a new probe that a caller waits for; it takes no slot. */
  function Awaited(s: State, server: string, config: Value): State {
    s.(foreground := s.foreground[s.nextForeground := Probe(server, config)], nextForeground := s.nextForeground + 1)
  }

  function LookedUp(s: State, server: string, config: Value): State {
    s.(cache := AfterLookup(s.cache, server, config, s.now))
  }

  /** One step; a probe that ends without tools throws, like one that fails. */
  function Next(s: State, step: Step): State {
    match step
    case Prewarm(server, config) =>
      if InFlight(s.inFlight, server, config).Some? then s
      else if Cached(s.cache, server, config, s.now).Some? then LookedUp(s, server, config)
      else Begun(LookedUp(s, server, config), server, config)
    case ProbeFinds(m, tools) =>
      if m !in s.probes then s
      else if tools == [] then Ended(s, m)
      else Ended(Found(s, s.probes[m].server, s.probes[m].config, tools), m)
    case ProbeFails(m) => if m in s.probes then Ended(s, m) else s
    case GetTools(server, config) =>
      if Cached(s.cache, server, config, s.now).Some? then s
      else if InFlight(s.inFlight, server, config).Some? then LookedUp(s, server, config)
      else Awaited(LookedUp(s, server, config), server, config)
    case ForegroundFinds(k, tools) =>
      if k !in s.foreground then s
      else if tools == [] then ForegroundEnded(s, k)
      else ForegroundEnded(Found(s, s.foreground[k].server, s.foreground[k].config, tools), k)
    case ForegroundFails(k) => ForegroundEnded(s, k)
    case Invalidate(server) => s.(cache := s.cache - {server})
    case Lookup(server, config) => LookedUp(s, server, config)
    case Wait(ms) => s.(now := s.now + ms)
  }

  function RunFrom(s: State, steps: seq<Step>): State {
    if steps == [] then s else Next(RunFrom(s, steps[..|steps| - 1]), steps[|steps| - 1])
  }

  function Run(steps: seq<Step>): State {
    RunFrom(START, steps)
  }

  // ---- the invariant ----

  /** Every slot belongs to a running probe of its server and configuration. */
  ghost predicate SlotsRun(s: State) {
    forall server | server in s.inFlight ::
      var slot := s.inFlight[server];
      slot.marker in s.probes && s.probes[slot.marker].server == server
        && Hash(s.probes[slot.marker].config) == slot.configHash
  }

  ghost predicate IsFrom(e: Entry, server: string, f: Finished) {
    f.server == server && Hash(f.config) == e.configHash && f.tools == e.tools && f.at == e.cachedAt
  }

  /** Every entry comes from a probe that found those tools for that server and configuration then. */
  ghost predicate EntriesFound(s: State) {
    && (forall server | server in s.cache :: exists f | f in s.finished :: IsFrom(s.cache[server], server, f))
    && (forall f | f in s.finished :: f.at <= s.now)
  }

  ghost predicate HoldsSlot(s: State, m: nat)
    requires m in s.probes
  {
    s.probes[m].server in s.inFlight && s.inFlight[s.probes[m].server].marker == m
  }

  /** A later prewarm of the same server was for another configuration. */
  ghost predicate Superseded(s: State, m: nat)
    requires m in s.probes
  {
    exists k :: k in s.begun && k > m && s.begun[k].server == s.probes[m].server
      && Hash(s.begun[k].config) != Hash(s.probes[m].config)
  }

  /** A running probe without a slot has lost it to a later one. */
  ghost predicate SlotsLostToOthers(s: State) {
    && (forall m | m in s.probes :: HoldsSlot(s, m) || Superseded(s, m))
    && (forall m | m in s.probes || m in s.begun :: m < s.nextMarker)
    && (forall k | k in s.foreground :: k < s.nextForeground)
  }

  ghost predicate Inv(s: State) {
    SlotsRun(s) && EntriesFound(s) && SlotsLostToOthers(s)
  }

  lemma EntriesStay(s: State, t: State)
    requires EntriesFound(s) && s.finished == t.finished && s.now <= t.now
    requires forall server | server in t.cache :: server in s.cache && t.cache[server] == s.cache[server]
    ensures EntriesFound(t)
  {
  }

  lemma SlotsStay(s: State, t: State)
    requires SlotsRun(s) && SlotsLostToOthers(s)
    requires s.inFlight == t.inFlight && s.probes == t.probes && s.begun == t.begun && s.nextMarker == t.nextMarker
    requires forall k | k in t.foreground :: k < t.nextForeground
    ensures SlotsRun(t) && SlotsLostToOthers(t)
  {
    hide Hash;
    forall m | m in t.probes ensures HoldsSlot(t, m) || Superseded(t, m) {
      assert HoldsSlot(s, m) || Superseded(s, m);
    }
  }

  lemma FoundKeeps(s: State, server: string, config: Value, tools: seq<Tool>)
    requires Inv(s)
    ensures Inv(Found(s, server, config, tools))
  {
    hide Hash;
    var t := Found(s, server, config, tools);
    SlotsStay(s, t);
    hide SlotsRun, SlotsLostToOthers;
    assert Finished(server, config, tools, s.now) in t.finished;
    assert IsFrom(t.cache[server], server, Finished(server, config, tools, s.now));
    forall other | other in t.cache ensures exists f | f in t.finished :: IsFrom(t.cache[other], other, f) {
      if other != server {
        var f :| f in s.finished && IsFrom(s.cache[other], other, f);
        assert f in t.finished;
      }
    }
  }

  lemma EndedKeeps(s: State, m: nat)
    requires Inv(s) && m in s.probes
    ensures Inv(Ended(s, m))
  {
    hide Hash;
    var t := Ended(s, m);
    EntriesStay(s, t);
    hide EntriesFound;
    forall k | k in t.probes ensures HoldsSlot(t, k) || Superseded(t, k) {
      assert HoldsSlot(s, k) || Superseded(s, k);
    }
  }

  lemma BegunSupersedesOne(s: State, server: string, config: Value, m: nat)
    requires SlotsRun(s) && SlotsLostToOthers(s) && InFlight(s.inFlight, server, config) == None
    requires m in Begun(s, server, config).probes
    ensures var t := Begun(s, server, config); HoldsSlot(t, m) || Superseded(t, m)
  {
    hide Hash;
    var t := Begun(s, server, config);
    if m != s.nextMarker {
      assert t.probes[m] == s.probes[m];
      if HoldsSlot(s, m) {
        assert s.probes[m].server == server ==> t.begun[s.nextMarker].server == s.probes[m].server;
      } else {
        var k :| k in s.begun && k > m && s.begun[k].server == s.probes[m].server
          && Hash(s.begun[k].config) != Hash(s.probes[m].config);
        assert t.begun[k] == s.begun[k];
      }
    }
  }

  /** Who held the slot is superseded by the new probe; whoever had lost its slot before still has. */
  lemma BegunSupersedes(s: State, server: string, config: Value)
    requires SlotsRun(s) && SlotsLostToOthers(s) && InFlight(s.inFlight, server, config) == None
    ensures SlotsRun(Begun(s, server, config)) && SlotsLostToOthers(Begun(s, server, config))
  {
    hide Hash;
    var t := Begun(s, server, config);
    hide Superseded, HoldsSlot;
    forall m | m in t.probes ensures HoldsSlot(t, m) || Superseded(t, m) {
      BegunSupersedesOne(s, server, config, m);
    }
  }

  lemma LookedUpKeeps(s: State, server: string, config: Value)
    requires Inv(s)
    ensures Inv(LookedUp(s, server, config))
  {
    hide Hash;
    EntriesStay(s, LookedUp(s, server, config));
    SlotsStay(s, LookedUp(s, server, config));
    hide SlotsRun, SlotsLostToOthers, EntriesFound;
  }

  lemma BegunKeeps(s: State, server: string, config: Value)
    requires Inv(s) && InFlight(s.inFlight, server, config) == None
    ensures Inv(Begun(s, server, config))
  {
    BegunSupersedes(s, server, config);
    EntriesStay(s, Begun(s, server, config));
    hide SlotsRun, SlotsLostToOthers, EntriesFound, Hash;
  }

  lemma LookedUpFlies(s: State, server: string, config: Value)
    ensures LookedUp(s, server, config).inFlight == s.inFlight
  {
  }

  lemma PrewarmKeeps(s: State, server: string, config: Value)
    requires Inv(s)
    ensures Inv(Next(s, Prewarm(server, config)))
  {
    hide Inv, Begun, LookedUp, InFlight, Cached;
    LookedUpFlies(s, server, config);
    LookedUpKeeps(s, server, config);
    if InFlight(s.inFlight, server, config).None? {
      BegunKeeps(LookedUp(s, server, config), server, config);
    }
  }

  lemma FoundKeepsProbes(s: State, server: string, config: Value, tools: seq<Tool>)
    ensures var t := Found(s, server, config, tools); t.probes == s.probes && t.foreground == s.foreground
  {
  }

  lemma ForegroundEndedKeeps(s: State, k: nat)
    requires Inv(s)
    ensures Inv(ForegroundEnded(s, k))
  {
    EntriesStay(s, ForegroundEnded(s, k));
    SlotsStay(s, ForegroundEnded(s, k));
    hide EntriesFound, SlotsRun;
  }

  lemma ProbeFindsKeeps(s: State, m: nat, tools: seq<Tool>)
    requires Inv(s)
    ensures Inv(Next(s, ProbeFinds(m, tools)))
  {
    hide Inv, Found, Ended;
    if m in s.probes {
      var p := s.probes[m];
      FoundKeeps(s, p.server, p.config, tools);
      FoundKeepsProbes(s, p.server, p.config, tools);
      EndedKeeps(s, m);
      EndedKeeps(Found(s, p.server, p.config, tools), m);
    }
  }

  lemma ForegroundFindsKeeps(s: State, k: nat, tools: seq<Tool>)
    requires Inv(s)
    ensures Inv(Next(s, ForegroundFinds(k, tools)))
  {
    hide Inv, Found, ForegroundEnded;
    ForegroundEndedKeeps(s, k);
    if k in s.foreground {
      var p := s.foreground[k];
      FoundKeeps(s, p.server, p.config, tools);
      ForegroundEndedKeeps(Found(s, p.server, p.config, tools), k);
    }
  }

  lemma AwaitedKeeps(s: State, server: string, config: Value)
    requires Inv(s)
    ensures Inv(Awaited(s, server, config))
  {
    hide Hash;
    EntriesStay(s, Awaited(s, server, config));
    SlotsStay(s, Awaited(s, server, config));
    hide EntriesFound, SlotsRun;
  }

  lemma GetToolsKeeps(s: State, server: string, config: Value)
    requires Inv(s)
    ensures Inv(Next(s, GetTools(server, config)))
  {
    hide Inv, Awaited, LookedUp, InFlight, Cached;
    LookedUpKeeps(s, server, config);
    AwaitedKeeps(LookedUp(s, server, config), server, config);
  }

  lemma StepKeeps(s: State, step: Step)
    requires Inv(s)
    ensures Inv(Next(s, step))
  {
    hide Hash;
    match step
    case Prewarm(server, config) => PrewarmKeeps(s, server, config);
    case ProbeFinds(m, tools) => ProbeFindsKeeps(s, m, tools);
    case ProbeFails(m) => if m in s.probes { EndedKeeps(s, m); } hide Inv;
    case GetTools(server, config) => GetToolsKeeps(s, server, config);
    case ForegroundFinds(k, tools) => ForegroundFindsKeeps(s, k, tools);
    case ForegroundFails(k) => ForegroundEndedKeeps(s, k); hide Inv;
    case _ =>
      EntriesStay(s, Next(s, step));
      SlotsStay(s, Next(s, step));
      hide EntriesFound, SlotsRun, SlotsLostToOthers;
  }

  lemma {:induction false} RunFromKeeps(s: State, steps: seq<Step>)
    requires Inv(s)
    ensures Inv(RunFrom(s, steps))
  {
    hide Inv, Next;
    if steps != [] {
      RunFromKeeps(s, steps[..|steps| - 1]);
      StepKeeps(RunFrom(s, steps[..|steps| - 1]), steps[|steps| - 1]);
    }
  }

  /** In every interleaving slots belong to running probes, entries come from probes that found them, and a running
      probe without a slot was superseded. */
  lemma RunKeeps(steps: seq<Step>)
    ensures Inv(Run(steps)) && SlotsRun(Run(steps)) && EntriesFound(Run(steps)) && SlotsLostToOthers(Run(steps))
  {
    RunFromKeeps(START, steps);
    hide RunFrom, SlotsRun, EntriesFound, SlotsLostToOthers;
  }

  // ---- what it gives ----

  /** A caller that joins a running prewarm joins one for its server and its configuration. */
  lemma JoinedProbeFits(steps: seq<Step>, server: string, config: Value)
    ensures var s := Run(steps); InFlight(s.inFlight, server, config).Some? ==>
      var m := InFlight(s.inFlight, server, config).value;
      m in s.probes && s.probes[m].server == server && Canon(s.probes[m].config) == Canon(config)
  {
    RunKeeps(steps);
    var s := Run(steps);
    hide Run, Hash;
    if InFlight(s.inFlight, server, config).Some? {
      HashIsExact(s.probes[InFlight(s.inFlight, server, config).value].config, config);
    }
  }

  /** Once no probe runs there are no slots left. */
  lemma NoProbeNoSlot(steps: seq<Step>)
    ensures Run(steps).probes == map[] ==> Run(steps).inFlight == map[]
  {
    RunKeeps(steps);
    hide Run, Hash;
  }

  /** A probe whose slot was taken over leaves the slot of its successor alone, however it ends. */
  lemma SupersededLeavesSlot(s: State, m: nat, tools: seq<Tool>)
    requires m in s.probes
    requires s.probes[m].server in s.inFlight && s.inFlight[s.probes[m].server].marker != m
    ensures Next(s, ProbeFinds(m, tools)).inFlight == s.inFlight
    ensures Next(s, ProbeFails(m)).inFlight == s.inFlight
  {
    hide Hash;
  }

  /** And a probe that still holds its slot clears exactly that one. */
  lemma OwnerClearsSlot(steps: seq<Step>, m: nat, tools: seq<Tool>)
    requires var s := Run(steps);
      m in s.probes && exists server :: server in s.inFlight && s.inFlight[server].marker == m
    ensures var s := Run(steps);
      && s.probes[m].server in s.inFlight
      && Next(s, ProbeFinds(m, tools)).inFlight == s.inFlight - {s.probes[m].server}
      && Next(s, ProbeFails(m)).inFlight == s.inFlight - {s.probes[m].server}
  {
    RunKeeps(steps);
    hide Run, Hash;
  }

  /** A hit gives tools that some probe found for that server and an equal configuration, no longer ago than the time
      to live. */
  lemma HitIsFound(steps: seq<Step>, server: string, config: Value)
    ensures var s := Run(steps); var hit := Cached(s.cache, server, config, s.now);
      hit.Some? ==> exists f | f in s.finished ::
        f.server == server && Canon(f.config) == Canon(config) && f.tools == hit.value
          && 0 <= s.now - f.at <= CACHE_TTL_MS
  {
    RunKeeps(steps);
    var s := Run(steps);
    hide Run, Hash;
    if Cached(s.cache, server, config, s.now).Some? {
      var f :| f in s.finished && IsFrom(s.cache[server], server, f);
      HashIsExact(f.config, config);
    }
  }

  /** After a successful probe a lookup hits exactly for an equal configuration and while the entry is young. */
  lemma HitsAfterProbe(s: State, m: nat, tools: seq<Tool>, ms: nat, config: Value)
    requires m in s.probes && tools != []
    ensures var p := s.probes[m]; var t := Next(Next(s, ProbeFinds(m, tools)), Wait(ms));
      Cached(t.cache, p.server, config, t.now) ==
        if Canon(p.config) == Canon(config) && ms <= CACHE_TTL_MS then Some(tools) else None
  {
    hide Hash, Canon;
    var p := s.probes[m];
    HashIsExact(p.config, config);
    var t := Next(Next(s, ProbeFinds(m, tools)), Wait(ms));
    assert t.cache == s.cache[p.server := Entry(Hash(p.config), tools, s.now)] && t.now == s.now + ms;
    hide Next;
  }

  // ---- when an invalidation holds ----

  /** No new probe of the server starts, in the background or in the foreground. */
  predicate NoNewProbe(server: string, steps: seq<Step>) {
    forall i | 0 <= i < |steps| :: !((steps[i].Prewarm? || steps[i].GetTools?) && steps[i].server == server)
  }

  /** A probe of the server runs, in the background or in the foreground. */
  ghost predicate Busy(s: State, server: string) {
    || (exists m :: m in s.probes && s.probes[m].server == server)
    || (exists k :: k in s.foreground && s.foreground[k].server == server)
  }

  ghost predicate Hits(s: State, server: string) {
    exists config :: Cached(s.cache, server, config, s.now).Some?
  }

  /** Some way to go on from `s` without a new probe of the server ends with tools in the cache. */
  ghost predicate ComesBack(s: State, server: string) {
    exists steps :: NoNewProbe(server, steps) && Hits(RunFrom(s, steps), server)
  }

  ghost predicate Idle(s: State, server: string) {
    server !in s.cache && !Busy(s, server)
  }

  lemma IdleLookedUp(s: State, server: string, other: string, config: Value)
    requires Idle(s, server)
    ensures Idle(LookedUp(s, other, config), server)
  {
    hide Hash;
  }

  lemma IdleStarted(s: State, server: string, other: string, config: Value)
    requires Idle(s, server) && other != server
    ensures Idle(Begun(s, other, config), server) && Idle(Awaited(s, other, config), server)
  {
    hide Hash;
  }

  lemma IdleStaysOnStart(s: State, step: Step, server: string)
    requires Idle(s, server) && (step.Prewarm? || step.GetTools?) && step.server != server
    ensures Idle(Next(s, step), server)
  {
    IdleLookedUp(s, server, step.server, step.config);
    IdleStarted(LookedUp(s, step.server, step.config), server, step.server, step.config);
    hide Idle, LookedUp, Begun, Awaited, Cached, InFlight;
  }

  lemma IdleStaysOnEnd(s: State, step: Step, server: string)
    requires Idle(s, server) && (step.ProbeFinds? || step.ProbeFails? || step.ForegroundFinds? || step.ForegroundFails?)
    ensures Idle(Next(s, step), server)
  {
    hide Hash;
  }

  lemma IdleStays(s: State, step: Step, server: string)
    requires Idle(s, server) && NoNewProbe(server, [step])
    ensures Idle(Next(s, step), server)
  {
    assert [step][0] == step;
    match step
    case Prewarm(_, _) => IdleStaysOnStart(s, step, server); hide *;
    case GetTools(_, _) => IdleStaysOnStart(s, step, server); hide *;
    case ProbeFinds(_, _) => IdleStaysOnEnd(s, step, server); hide *;
    case ProbeFails(_) => IdleStaysOnEnd(s, step, server); hide *;
    case ForegroundFinds(_, _) => IdleStaysOnEnd(s, step, server); hide *;
    case ForegroundFails(_) => IdleStaysOnEnd(s, step, server); hide *;
    case _ => hide Hash;
  }

  lemma {:induction false} StaysIdle(s: State, steps: seq<Step>, server: string)
    requires Idle(s, server) && NoNewProbe(server, steps)
    ensures Idle(RunFrom(s, steps), server)
  {
    hide Idle, Next;
    if steps != [] {
      var init, last := steps[..|steps| - 1], steps[|steps| - 1];
      assert NoNewProbe(server, init) && NoNewProbe(server, [last]);
      StaysIdle(s, init, server);
      IdleStays(RunFrom(s, init), last, server);
    }
  }

  lemma OneStep(s: State, step: Step)
    ensures RunFrom(s, [step]) == Next(s, step)
  {
    assert [step][..0] == [];
  }

  /** What the witnesses find. */
  const SOME_TOOLS := [Tool("tool", None, None)]

  /** The step by which the probe `p`, running in the background or in the foreground, ends with tools. */
  predicate EndsFound(s: State, step: Step, p: Probe) {
    || (step.ProbeFinds? && step.marker in s.probes && s.probes[step.marker] == p && step.tools != [])
    || (step.ForegroundFinds? && step.number in s.foreground && s.foreground[step.number] == p && step.tools != [])
  }

  lemma FoundHits(s: State, step: Step, p: Probe)
    requires EndsFound(s, step, p)
    ensures var t := Next(s, step);
      && Cached(t.cache, p.server, p.config, t.now) == Some(step.tools)
      && t.cache[p.server].configHash == Hash(p.config)
  {
    hide Hash;
  }

  lemma BringsBack(s: State, step: Step, p: Probe)
    requires EndsFound(s, step, p)
    ensures ComesBack(Next(s, Invalidate(p.server)), p.server)
  {
    var t := Next(s, Invalidate(p.server));
    OneStep(t, step);
    FoundHits(t, step, p);
    hide Next, RunFrom, Cached;
    var u := RunFrom(t, [step]);
    assert Cached(u.cache, p.server, p.config, u.now).Some?;
    assert NoNewProbe(p.server, [step]) && Hits(u, p.server);
  }

  /** A running probe that ends with tools brings the server back. */
  lemma ProbeBringsBack(s: State, server: string, m: nat)
    requires m in s.probes && s.probes[m].server == server
    ensures ComesBack(Next(s, Invalidate(server)), server)
  {
    BringsBack(s, ProbeFinds(m, SOME_TOOLS), s.probes[m]);
  }

  /** So does a foreground probe. */
  lemma ForegroundBringsBack(s: State, server: string, k: nat)
    requires k in s.foreground && s.foreground[k].server == server
    ensures ComesBack(Next(s, Invalidate(server)), server)
  {
    BringsBack(s, ForegroundFinds(k, SOME_TOOLS), s.foreground[k]);
  }

  lemma IdleMisses(s: State, server: string)
    requires Idle(s, server)
    ensures !Hits(s, server)
  {
  }

  /** Invalidation holds, until somebody starts a new probe, exactly when no probe of the server is running. */
  lemma InvalidationHolds(s: State, server: string)
    ensures !ComesBack(Next(s, Invalidate(server)), server) <==> !Busy(s, server)
  {
    var t := Next(s, Invalidate(server));
    hide RunFrom, Hits, NoNewProbe, Hash;
    if m :| m in s.probes && s.probes[m].server == server {
      ProbeBringsBack(s, server, m);
    } else if k :| k in s.foreground && s.foreground[k].server == server {
      ForegroundBringsBack(s, server, k);
    } else {
      assert Idle(t, server);
      forall steps | NoNewProbe(server, steps) ensures !Hits(RunFrom(t, steps), server) {
        StaysIdle(t, steps, server);
        IdleMisses(RunFrom(t, steps), server);
      }
    }
  }

  // ---- when an equal prewarm is joined ----

  /** A prewarm starts a new probe. */
  predicate Starts(s: State, server: string, config: Value) {
    Next(s, Prewarm(server, config)).nextMarker > s.nextMarker
  }

  /** The slot of the server belongs to a running probe of an equal configuration. */
  ghost predicate SlotServes(s: State, server: string, config: Value) {
    server in s.inFlight && s.inFlight[server].marker in s.probes
    && Canon(s.probes[s.inFlight[server].marker].config) == Canon(config)
  }

  lemma SlotServesInFlight(s: State, server: string, config: Value)
    requires Inv(s)
    ensures SlotServes(s, server, config) <==> InFlight(s.inFlight, server, config).Some?
  {
    hide EntriesFound, SlotsLostToOthers, Hash, Canon;
    if server in s.inFlight {
      HashIsExact(s.probes[s.inFlight[server].marker].config, config);
    }
  }

  lemma HolderIsJoined(s: State, m: nat, config: Value)
    requires SlotsRun(s) && SlotsLostToOthers(s) && m in s.probes && Hash(s.probes[m].config) == Hash(config)
    ensures Superseded(s, m) || InFlight(s.inFlight, s.probes[m].server, config) == Some(m)
  {
    hide Hash, Superseded;
    assert HoldsSlot(s, m) || Superseded(s, m);
  }

  lemma StartsWhen(s: State, server: string, config: Value)
    ensures Starts(s, server, config) <==>
      InFlight(s.inFlight, server, config).None? && Cached(s.cache, server, config, s.now).None?
  {
    hide Hash, Cached, InFlight;
  }

  /** While an equal probe `m` of the server runs, a prewarm starts another exactly when the slot is gone or serves
      another configuration, and no young equal entry is cached. Then `m` was superseded; otherwise it is joined. */
  lemma EqualProbeJoined(steps: seq<Step>, m: nat, config: Value)
    requires var s := Run(steps); m in s.probes && Canon(s.probes[m].config) == Canon(config)
    ensures var s := Run(steps); var server := s.probes[m].server;
      && (Starts(s, server, config) <==> !SlotServes(s, server, config) && Cached(s.cache, server, config, s.now).None?)
      && (Starts(s, server, config) ==> Superseded(s, m))
      && (!Superseded(s, m) ==> InFlight(s.inFlight, server, config) == Some(m))
  {
    RunKeeps(steps);
    hide Run;
    var s := Run(steps);
    var server := s.probes[m].server;
    SlotServesInFlight(s, server, config);
    HashIsExact(s.probes[m].config, config);
    HolderIsJoined(s, m, config);
    StartsWhen(s, server, config);
    hide Inv, SlotsRun, SlotsLostToOthers, EntriesFound, Hash, Canon, SlotServes, Superseded, Starts, InFlight;
  }

  lemma RunMore(steps: seq<Step>, last: Step)
    ensures Run(steps + [last]) == Next(Run(steps), last)
  {
    hide Next;
    assert (steps + [last])[..|steps|] == steps;
  }

  lemma EmptyRun()
    ensures Run([]) == START
  {
  }

  lemma RunThree(a: Step, b: Step, c: Step)
    ensures Run([a, b, c]) == Next(Next(Next(START, a), b), c)
  {
    hide Next;
    RunMore([], a);
    RunMore([a], b);
    RunMore([a, b], c);
    hide Run;
    assert [] + [a] == [a] && [a] + [b] == [a, b] && [a, b] + [c] == [a, b, c];
    EmptyRun();
  }

  /** Two prewarms of one server for different configurations: both run, and the second holds the slot. */
  lemma TwoPrewarms(server: string, a: Value, b: Value)
    requires Canon(a) != Canon(b)
    ensures var s := Next(Next(START, Prewarm(server, a)), Prewarm(server, b));
      && s.probes == map[0 := Probe(server, a), 1 := Probe(server, b)] && s.cache == map[] && s.nextMarker == 2
      && s.inFlight == map[server := Slot(Hash(b), 1)]
  {
    HashIsExact(a, b);
    hide Hash, Canon;
  }

  /** The slot serves another configuration: prewarms alternating between two run the first one twice. */
  lemma SameProbeTwice(server: string, a: Value, b: Value)
    requires Canon(a) != Canon(b)
    ensures var s := Run([Prewarm(server, a), Prewarm(server, b), Prewarm(server, a)]);
      s.probes == map[0 := Probe(server, a), 1 := Probe(server, b), 2 := Probe(server, a)]
  {
    HashIsExact(a, b);
    TwoPrewarms(server, a, b);
    RunThree(Prewarm(server, a), Prewarm(server, b), Prewarm(server, a));
    hide Hash, Canon, Run;
  }

  lemma HolderFails(s: State, server: string, first: Probe, second: Probe, hash: string)
    requires s.probes == map[0 := first, 1 := second] && s.inFlight == map[server := Slot(hash, 1)]
    requires second.server == server
    ensures var t := Next(s, ProbeFails(1)); t == s.(probes := map[0 := first], inFlight := map[])
  {
    assert s.probes - {1} == map[0 := first];
    assert Cleared(s.inFlight, server, 1) == map[];
  }

  lemma SecondFails(server: string, a: Value, b: Value)
    requires Canon(a) != Canon(b)
    ensures var s := Next(Next(Next(START, Prewarm(server, a)), Prewarm(server, b)), ProbeFails(1));
      s.probes == map[0 := Probe(server, a)] && s.cache == map[] && s.nextMarker == 2 && s.inFlight == map[]
  {
    TwoPrewarms(server, a, b);
    var s := Next(Next(START, Prewarm(server, a)), Prewarm(server, b));
    HolderFails(s, server, Probe(server, a), Probe(server, b), Hash(b));
    hide Next, Hash, Canon;
  }

  /** The slot is gone: the successor has already failed. */
  lemma SameProbeAfterFailure(server: string, a: Value, b: Value)
    requires Canon(a) != Canon(b)
    ensures var s := Run([Prewarm(server, a), Prewarm(server, b), ProbeFails(1), Prewarm(server, a)]);
      s.probes == map[0 := Probe(server, a), 2 := Probe(server, a)]
  {
    var three := [Prewarm(server, a), Prewarm(server, b), ProbeFails(1)];
    RunThree(three[0], three[1], three[2]);
    RunMore(three, Prewarm(server, a));
    assert three + [Prewarm(server, a)] == [Prewarm(server, a), Prewarm(server, b), ProbeFails(1), Prewarm(server, a)];
    SecondFails(server, a, b);
    hide Hash, Canon, Run;
  }

  // ---- how long found tools stay visible ----

  /** The server is invalidated, or its tools are asked for under another configuration. */
  predicate Disturbs(step: Step, server: string, config: Value) {
    || step == Invalidate(server)
    || ((step.Prewarm? || step.GetTools?) && step.server == server && Canon(step.config) != Canon(config))
  }

  predicate Undisturbed(server: string, config: Value, steps: seq<Step>) {
    forall i | 0 <= i < |steps| :: !Disturbs(steps[i], server, config)
  }

  /** All running probes of the server, background and foreground, are for this configuration. */
  ghost predicate OnlyFor(s: State, server: string, config: Value) {
    && (forall m | m in s.probes && s.probes[m].server == server :: Canon(s.probes[m].config) == Canon(config))
    && (forall k | k in s.foreground && s.foreground[k].server == server ::
      Canon(s.foreground[k].config) == Canon(config))
  }

  /** Every lookup for `config` within the time to live hits, however the running probes end and whoever asks for the
      same configuration. */
  ghost predicate StaysVisible(s: State, server: string, config: Value) {
    forall steps :: Undisturbed(server, config, steps) && RunFrom(s, steps).now - s.now <= CACHE_TTL_MS ==>
      Cached(RunFrom(s, steps).cache, server, config, RunFrom(s, steps).now).Some?
  }

  /** An entry for `config` written at `since` or later, and only probes of that configuration running. */
  ghost predicate Settled(s: State, server: string, config: Value, since: int) {
    && server in s.cache && s.cache[server].configHash == Hash(config) && since <= s.cache[server].cachedAt <= s.now
    && (forall m | m in s.probes && s.probes[m].server == server :: Hash(s.probes[m].config) == Hash(config))
    && (forall k | k in s.foreground && s.foreground[k].server == server ::
      Hash(s.foreground[k].config) == Hash(config))
  }

  lemma SettledLookedUp(s: State, server: string, config: Value, since: int, asked: string, other: Value)
    requires Settled(s, server, config, since) && s.now - since <= CACHE_TTL_MS
    ensures Settled(LookedUp(s, asked, other), server, config, since)
  {
    hide Hash;
  }

  lemma SettledStarted(s: State, server: string, config: Value, since: int, asked: string, other: Value)
    requires Settled(s, server, config, since) && (asked == server ==> Hash(other) == Hash(config))
    ensures Settled(Begun(s, asked, other), server, config, since)
    ensures Settled(Awaited(s, asked, other), server, config, since)
  {
    hide Hash;
  }

  lemma SettledOnStart(s: State, step: Step, server: string, config: Value, since: int)
    requires Settled(s, server, config, since) && s.now - since <= CACHE_TTL_MS
    requires (step.Prewarm? || step.GetTools?) && (step.server == server ==> Hash(step.config) == Hash(config))
    ensures Settled(Next(s, step), server, config, since)
  {
    SettledLookedUp(s, server, config, since, step.server, step.config);
    SettledStarted(LookedUp(s, step.server, step.config), server, config, since, step.server, step.config);
    hide Settled, LookedUp, Begun, Awaited, Cached, InFlight, Hash;
  }

  lemma SettledOnEnd(s: State, step: Step, server: string, config: Value, since: int)
    requires Settled(s, server, config, since)
    requires step.ProbeFinds? || step.ProbeFails? || step.ForegroundFinds? || step.ForegroundFails?
    ensures Settled(Next(s, step), server, config, since)
  {
    hide Hash;
  }

  lemma TimeGoesOn(s: State, step: Step)
    ensures s.now <= Next(s, step).now
  {
    hide Hash;
  }

  lemma SettledStep(s: State, step: Step, server: string, config: Value, since: int)
    requires Settled(s, server, config, since) && Undisturbed(server, config, [step])
    requires Next(s, step).now - since <= CACHE_TTL_MS
    ensures Settled(Next(s, step), server, config, since)
  {
    assert [step][0] == step;
    match step
    case Prewarm(_, other) =>
      HashIsExact(other, config);
      TimeGoesOn(s, step);
      SettledOnStart(s, step, server, config, since);
      hide Next, Settled;
    case GetTools(_, other) =>
      HashIsExact(other, config);
      TimeGoesOn(s, step);
      SettledOnStart(s, step, server, config, since);
      hide Next, Settled;
    case ProbeFinds(_, _) => SettledOnEnd(s, step, server, config, since); hide *;
    case ProbeFails(_) => SettledOnEnd(s, step, server, config, since); hide *;
    case ForegroundFinds(_, _) => SettledOnEnd(s, step, server, config, since); hide *;
    case ForegroundFails(_) => SettledOnEnd(s, step, server, config, since); hide *;
    case _ => hide Hash;
  }

  lemma {:induction false} SettledRun(s: State, steps: seq<Step>, server: string, config: Value, since: int)
    requires Settled(s, server, config, since) && Undisturbed(server, config, steps)
    requires RunFrom(s, steps).now - since <= CACHE_TTL_MS
    ensures Settled(RunFrom(s, steps), server, config, since)
  {
    hide Settled, Next;
    if steps != [] {
      var init, last := steps[..|steps| - 1], steps[|steps| - 1];
      assert Undisturbed(server, config, init) && Undisturbed(server, config, [last]);
      TimeGoesOn(RunFrom(s, init), last);
      SettledRun(s, init, server, config, since);
      SettledStep(RunFrom(s, init), last, server, config, since);
    }
  }

  lemma SettledIsVisible(s: State, server: string, config: Value)
    requires Settled(s, server, config, s.now)
    ensures StaysVisible(s, server, config)
  {
    forall steps | Undisturbed(server, config, steps) && RunFrom(s, steps).now - s.now <= CACHE_TTL_MS
      ensures Cached(RunFrom(s, steps).cache, server, config, RunFrom(s, steps).now).Some?
    {
      SettledRun(s, steps, server, config, s.now);
      hide RunFrom, Hash;
    }
  }

  lemma EndTakesNoTime(s: State, step: Step)
    requires step.ProbeFinds? || step.ForegroundFinds?
    ensures Next(s, step).now == s.now
  {
    hide Hash;
  }

  lemma OtherProbeHides(s: State, step: Step, p: Probe, config: Value)
    requires EndsFound(s, step, p)
    requires Canon(p.config) != Canon(config)
    ensures var t := Next(s, step); Cached(t.cache, p.server, config, t.now).None?
    ensures !StaysVisible(s, p.server, config)
  {
    OneStep(s, step);
    FoundHits(s, step, p);
    HashIsExact(p.config, config);
    EndTakesNoTime(s, step);
    hide Hash, Canon, RunFrom, Next;
    assert Undisturbed(p.server, config, [step]);
    assert Cached(RunFrom(s, [step]).cache, p.server, config, RunFrom(s, [step]).now).None?;
  }

  lemma NotOnlyFor(s: State, server: string, config: Value)
    requires !OnlyFor(s, server, config)
    ensures !StaysVisible(s, server, config)
  {
    hide Canon, StaysVisible;
    if m :| m in s.probes && s.probes[m].server == server && Canon(s.probes[m].config) != Canon(config) {
      OtherProbeHides(s, ProbeFinds(m, SOME_TOOLS), s.probes[m], config);
    } else {
      var k :| k in s.foreground && s.foreground[k].server == server && Canon(s.foreground[k].config) != Canon(config);
      OtherProbeHides(s, ForegroundFinds(k, SOME_TOOLS), s.foreground[k], config);
    }
  }

  lemma OnlyForByHash(s: State, server: string, config: Value)
    requires OnlyFor(s, server, config)
    ensures forall m | m in s.probes && s.probes[m].server == server :: Hash(s.probes[m].config) == Hash(config)
    ensures forall k | k in s.foreground && s.foreground[k].server == server ::
      Hash(s.foreground[k].config) == Hash(config)
  {
    hide Hash, Canon;
    forall m | m in s.probes && s.probes[m].server == server ensures Hash(s.probes[m].config) == Hash(config) {
      HashIsExact(s.probes[m].config, config);
    }
    forall k | k in s.foreground && s.foreground[k].server == server
      ensures Hash(s.foreground[k].config) == Hash(config)
    {
      HashIsExact(s.foreground[k].config, config);
    }
  }

  /** The entry just written by a probe `p` of state `s`, in either way. */
  lemma JustFound(s: State, step: Step, p: Probe)
    requires EndsFound(s, step, p)
    requires OnlyFor(Next(s, step), p.server, p.config)
    ensures Settled(Next(s, step), p.server, p.config, Next(s, step).now)
  {
    OnlyForByHash(Next(s, step), p.server, p.config);
    hide Hash, Canon, OnlyFor;
  }

  /** The tools that a probe found stay visible for the time to live, unless the server is invalidated or asked for
      under another configuration, exactly when no other probe of the server runs for another configuration: a
      superseded probe that ends last throws them out, and so does a foreground probe that began earlier. */
  lemma FoundToolsStayVisible(s: State, step: Step, p: Probe)
    requires EndsFound(s, step, p)
    ensures var t := Next(s, step); StaysVisible(t, p.server, p.config) <==> OnlyFor(t, p.server, p.config)
  {
    var t := Next(s, step);
    hide Hash, Canon, StaysVisible, Settled, Next, OnlyFor;
    if OnlyFor(t, p.server, p.config) {
      JustFound(s, step, p);
      SettledIsVisible(t, p.server, p.config);
    } else {
      NotOnlyFor(t, p.server, p.config);
    }
  }

  // ---- runs in which it fails ----

  lemma OneRunning(server: string, config: Value)
    ensures Run([Prewarm(server, config)]).probes == map[0 := Probe(server, config)]
    ensures Run([GetTools(server, config)]).foreground == map[0 := Probe(server, config)]
  {
    RunMore([], Prewarm(server, config));
    RunMore([], GetTools(server, config));
    EmptyRun();
    hide Run, Hash;
    assert [] + [Prewarm(server, config)] == [Prewarm(server, config)];
    assert [] + [GetTools(server, config)] == [GetTools(server, config)];
  }

  lemma InvalidatedThenFound(server: string, config: Value, start: Step, end: Step)
    requires EndsFound(Run([start]), end, Probe(server, config))
    ensures var s := Run([start, Invalidate(server), end]); Cached(s.cache, server, config, s.now) == Some(end.tools)
  {
    RunMore([start], Invalidate(server));
    RunMore([start, Invalidate(server)], end);
    assert [start] + [Invalidate(server)] == [start, Invalidate(server)];
    assert [start, Invalidate(server)] + [end] == [start, Invalidate(server), end];
    FoundHits(Next(Run([start]), Invalidate(server)), end, Probe(server, config));
    hide Run, Cached, Hash;
  }

  /** A probe that runs when the server is invalidated puts its tools back, in the background and in the foreground. */
  lemma InvalidatedTooEarly(server: string, config: Value, tools: seq<Tool>)
    requires tools != []
    ensures var s := Run([Prewarm(server, config), Invalidate(server), ProbeFinds(0, tools)]);
      Cached(s.cache, server, config, s.now) == Some(tools)
    ensures var s := Run([GetTools(server, config), Invalidate(server), ForegroundFinds(0, tools)]);
      Cached(s.cache, server, config, s.now) == Some(tools)
  {
    OneRunning(server, config);
    InvalidatedThenFound(server, config, Prewarm(server, config), ProbeFinds(0, tools));
    InvalidatedThenFound(server, config, GetTools(server, config), ForegroundFinds(0, tools));
  }

  lemma EndKeepsOthers(s: State, m: nat, tools: seq<Tool>, k: nat)
    requires k != m && k in s.probes
    ensures k in Next(s, ProbeFinds(m, tools)).probes && Next(s, ProbeFinds(m, tools)).probes[k] == s.probes[k]
    ensures Next(s, ProbeFinds(m, tools)).foreground == s.foreground
  {
    hide Hash;
  }

  /** A superseded background probe that ends last hides the tools of its successor. */
  lemma SupersededEndsLast(server: string, a: Value, b: Value, ta: seq<Tool>, tb: seq<Tool>)
    requires Canon(a) != Canon(b) && ta != [] && tb != []
    ensures var s := Run([Prewarm(server, a), Prewarm(server, b), ProbeFinds(1, tb), ProbeFinds(0, ta)]);
      Cached(s.cache, server, b, s.now).None?
  {
    var three := [Prewarm(server, a), Prewarm(server, b), ProbeFinds(1, tb)];
    RunThree(three[0], three[1], three[2]);
    RunMore(three, ProbeFinds(0, ta));
    assert three + [ProbeFinds(0, ta)]
      == [Prewarm(server, a), Prewarm(server, b), ProbeFinds(1, tb), ProbeFinds(0, ta)];
    TwoPrewarms(server, a, b);
    EndKeepsOthers(Next(Next(START, three[0]), three[1]), 1, tb, 0);
    hide Next, Run, Hash, Canon, Cached;
    OtherProbeHides(Run(three), ProbeFinds(0, ta), Probe(server, a), b);
  }

  lemma ForegroundStays(s: State, step: Step)
    requires step.Prewarm? || step.ProbeFinds?
    ensures Next(s, step).foreground == s.foreground
  {
    hide Hash;
  }

  /** So does a foreground probe for another configuration that began before and ends last. */
  lemma ForegroundEndsLast(server: string, a: Value, b: Value, ta: seq<Tool>, tb: seq<Tool>)
    requires Canon(a) != Canon(b) && ta != [] && tb != []
    ensures var s := Run([GetTools(server, a), Prewarm(server, b), ProbeFinds(0, tb), ForegroundFinds(0, ta)]);
      Cached(s.cache, server, b, s.now).None?
  {
    var three := [GetTools(server, a), Prewarm(server, b), ProbeFinds(0, tb)];
    RunThree(three[0], three[1], three[2]);
    RunMore(three, ForegroundFinds(0, ta));
    assert three + [ForegroundFinds(0, ta)]
        == [GetTools(server, a), Prewarm(server, b), ProbeFinds(0, tb), ForegroundFinds(0, ta)];
    ForegroundStays(Next(START, three[0]), Prewarm(server, b));
    ForegroundStays(Next(Next(START, three[0]), three[1]), ProbeFinds(0, tb));
    assert Next(START, three[0]).foreground == map[0 := Probe(server, a)];
    hide Next, Run, Hash, Canon, Cached;
    OtherProbeHides(Run(three), ForegroundFinds(0, ta), Probe(server, a), b);
  }

  // ---- the module's maps ----

  /** The two maps of the module, edited in place. Markers are numbers, taken in turn. */
  class ToolCache {
    var cache: map<string, Entry>
    var inFlight: map<string, Slot>
    var nextMarker: nat

    constructor ()
      ensures cache == map[] && inFlight == map[] && nextMarker == 0
    {
      cache, inFlight, nextMarker := map[], map[], 0;
    }

    method GetCachedTools(server: string, config: Value, now: int) returns (tools: Option<seq<Tool>>)
      modifies `cache
      ensures tools == Cached(old(cache), server, config, now)
      ensures cache == AfterLookup(old(cache), server, config, now)
    {
      if server !in cache {
        return None;
      }
      var entry := cache[server];
      if entry.configHash != Hash(config) {
        return None;
      }
      if now - entry.cachedAt > CACHE_TTL_MS {
        cache := cache - {server};
        return None;
      }
      return Some(entry.tools);
    }

    method PutCachedTools(server: string, config: Value, tools: seq<Tool>, now: int)
      modifies `cache
      ensures cache == old(cache)[server := Entry(Hash(config), tools, now)]
    {
      cache := cache[server := Entry(Hash(config), tools, now)];
    }

    method InvalidateCache(server: string)
      modifies `cache
      ensures cache == old(cache) - {server}
    {
      cache := cache - {server};
    }

    /** The synchronous part of `prewarmTools`: join a running probe, answer from the cache, or start a probe. */
    method PrewarmTools(server: string, config: Value, now: int) returns (joined: Option<nat>, tools: Option<seq<Tool>>)
      modifies this
      ensures old(InFlight(inFlight, server, config)).Some? ==>
        joined == old(InFlight(inFlight, server, config)) && tools == None && cache == old(cache)
      ensures old(InFlight(inFlight, server, config)).None? ==>
        tools == Cached(old(cache), server, config, now) && cache == AfterLookup(old(cache), server, config, now)
      ensures var starts := old(InFlight(inFlight, server, config)).None? && tools.None?;
        && inFlight == (if starts then old(inFlight)[server := Slot(Hash(config), old(nextMarker))] else old(inFlight))
        && nextMarker == (if starts then old(nextMarker) + 1 else old(nextMarker))
        && (starts ==> joined == Some(old(nextMarker)))
    {
      joined, tools := InFlight(inFlight, server, config), None;
      if joined.Some? {
        return;
      }
      tools := GetCachedTools(server, config, now);
      if tools.Some? {
        return;
      }
      joined := Some(nextMarker);
      inFlight := inFlight[server := Slot(Hash(config), nextMarker)];
      nextMarker := nextMarker + 1;
    }

    /** The end of a probe: tools are stored if there are any, and the slot is cleared if it is still the probe's
        own. */
    method EndProbe(server: string, config: Value, marker: nat, found: seq<Tool>, now: int)
      modifies this
      ensures cache == if found != [] then old(cache)[server := Entry(Hash(config), found, now)] else old(cache)
      ensures inFlight == Cleared(old(inFlight), server, marker) && nextMarker == old(nextMarker)
    {
      if found != [] {
        PutCachedTools(server, config, found, now);
      }
      if server in inFlight && inFlight[server].marker == marker {
        inFlight := inFlight - {server};
      }
    }
  }

  // ---- lookups and requests for tools ----

  /** A lookup drops the entry of the server exactly when it is for an equal configuration and too old. */
  lemma LookupDrops(s: State, server: string, config: Value, cached: Value, tools: seq<Tool>, at: int)
    requires server in s.cache && s.cache[server] == Entry(Hash(cached), tools, at)
    ensures var t := Next(s, Lookup(server, config));
      && (server in t.cache <==> !(SameConfig(cached, config) && s.now - at > 3600000))
      && (server in t.cache ==> t.cache[server] == s.cache[server])
      && (forall other | other != server :: other in t.cache <==> other in s.cache)
      && (forall other | other != server && other in s.cache :: t.cache[other] == s.cache[other])
  {
    HashSeesAll(cached, config);
    hide Hash, SameConfig;
  }

  lemma AsksWhen(s: State, server: string, config: Value)
    requires s.nextForeground !in s.foreground
    ensures var t := Next(s, GetTools(server, config));
      && (t.foreground != s.foreground <==>
            Cached(s.cache, server, config, s.now).None? && InFlight(s.inFlight, server, config).None?)
      && (t.foreground != s.foreground ==> t.foreground == s.foreground[s.nextForeground := Probe(server, config)])
      && t.inFlight == s.inFlight && t.probes == s.probes
  {
    hide Hash, Cached, InFlight, AfterLookup;
    assert s.nextForeground in s.foreground[s.nextForeground := Probe(server, config)];
  }

  /** A request for tools begins a probe of its own exactly when no young equal entry is cached and the slot does not
      serve the configuration; that probe is for what was asked, and takes no slot. */
  lemma RequestProbes(steps: seq<Step>, server: string, config: Value)
    ensures var s := Run(steps); var t := Next(s, GetTools(server, config));
      && (t.foreground != s.foreground <==>
            Cached(s.cache, server, config, s.now).None? && !SlotServes(s, server, config))
      && (t.foreground != s.foreground ==> t.foreground == s.foreground[s.nextForeground := Probe(server, config)])
      && t.inFlight == s.inFlight && t.probes == s.probes
  {
    RunKeeps(steps);
    var s := Run(steps);
    SlotServesInFlight(s, server, config);
    assert s.nextForeground !in s.foreground;
    AsksWhen(s, server, config);
    hide *;
  }
}
