/** What one dequeued signal does to the engine (packages/fsm-engine/fsm-engine.ts:844-1183), said on values. */
module FsmTransaction {
  import opened Options
  import opened Sequences
  import opened FsmDefinition
  import opened SkipChain

  datatype Context = Context(sessionId: string, workspaceId: string, skipStates: seq<StateId>)

  datatype Signal = Signal(
    kind: string,
    data: Option<Record>,
    body: Option<string>,
    headers: Option<map<string, string>>,
    context: Option<Context>)

  datatype Event = Event(name: string, data: Option<Record>)

  type Docs = map<string, Document>
  type Results = map<string, Record>

  datatype StoredDoc = StoredDoc(docType: string, data: Record)
  datatype Store = Store(docs: map<string, StoredDoc>, state: Option<StateId>)

  /** The changes a foreign action can make, each through the function the engine hands it. */
  datatype Edit =
    | StoreOutput(id: string, docType: string, data: Record)
    | SetResult(key: string, data: Record)
    | CreateDoc(doc: Document)
    | UpdateDoc(id: string, data: Record)
    | DeleteDoc(id: string)
    | EmitSignal(signal: Signal)

  /** What a foreign action is shown. */
  datatype Call = Call(action: Action, signal: Signal, state: StateId, input: Option<Record>, docs: Docs,
      results: Results)

  /** `arrivals` are signals sent to the busy engine while the action was awaited. */
  datatype Reply = Reply(edits: seq<Edit>, arrivals: seq<Signal>, throws: bool)

  /** A store call that fails may leave anything behind; a delete that fails is only logged. */
  datatype StoreReply =
    | Saved(arrivals: seq<Signal>, undeleted: set<string>)
    | Broke(arrivals: seq<Signal>, left: Store)

  /** Everything outside the engine: any functions at all. Indices count the calls made so far. */
  datatype Env = Env(
    act: (nat, Call) -> Reply,
    save: nat -> StoreReply,
    valid: (string, Record) -> bool,
    loadFails: bool,
    unreadable: set<string>)

  /** A commit: the state entered, the signals it queued, and how many foreign and store calls came before it. */
  datatype Landing = Landing(state: StateId, callsBefore: nat, savesBefore: nat, emits: seq<Signal>)

  /** The record of a run: signals pushed and dequeued, commits, foreign calls, store calls, skip events sent. */
  datatype Log = Log(
    pushed: seq<Signal>,
    dequeued: seq<Signal>,
    landings: seq<Landing>,
    calls: seq<Call>,
    saves: nat,
    skipEvents: seq<StateId>)

  /** The engine's fields, the store it writes to, and the record of its run. */
  datatype Engine = Engine(
    current: StateId,
    docs: Docs,
    results: Results,
    queue: seq<Signal>,
    processing: bool,
    processed: nat,
    initialized: bool,
    events: seq<Event>,
    store: Store,
    log: Log)

  datatype Failure =
    | InvalidState(state: StateId)
    | SkipFailed(how: Resolution)
    | ActionFailed
    | SeedInvalid(id: string)
    | SaveFailed
    | CascadeLimit

  datatype StepResult = Done(e: Engine, took: bool) | Threw(e: Engine, why: Failure)

  /** The copies a transition works on. */
  datatype Pending = Pending(
    docs: Docs,
    results: Results,
    events: seq<Event>,
    emits: seq<Signal>,
    arrivals: seq<Signal>,
    calls: seq<Call>)

  datatype Work = Work(p: Pending, failed: Option<Failure>)

  const LAST_PREPARE := "__lastPrepare"

  // ---- carried input ----

  predicate IsTextMap(j: Json) {
    j.Object? && forall k | k in j.fields :: j.fields[k].Text?
  }

  /** `PrepareResultSchema` accepts the record and it is not empty. */
  predicate Parses(r: Record) {
    && ("task" in r ==> r["task"].Text?)
    && ("config" in r ==> r["config"].Object?)
    && ("body" in r ==> r["body"].Text?)
    && ("headers" in r ==> IsTextMap(r["headers"]))
    && ("task" in r || "config" in r || "body" in r || "headers" in r)
  }

  /** The input an action gets from a signal's own data. */
  function Payload(data: Record): Json {
    if "payload" in data && (data["payload"].Object? || data["payload"].Array?) then data["payload"]
    else Object(data)
  }

  function SeedInput(sig: Signal): Option<Record> {
    if sig.data.None? then None
    else
      var base: Record := map["config" := Payload(sig.data.value)];
      var withBody := if sig.body.Some? then base["body" := Text(sig.body.value)] else base;
      Some(
        if sig.headers.Some? then
          withBody["headers" := Object(map k | k in sig.headers.value :: Text(sig.headers.value[k]))]
        else withBody)
  }

  /** The input stored by an earlier commit of this drain, if it still parses. */
  function Carried(results: Results): Option<Record> {
    if LAST_PREPARE in results && Parses(results[LAST_PREPARE]) then Some(results[LAST_PREPARE]) else None
  }

  // ---- actions ----

  /** A signal sent from an action inherits the context, and the data when it brings none. */
  function Cascade(parent: Signal, s: Signal): Signal {
    if parent.context.None? then s
    else s.(data := if s.data.Some? then s.data else parent.data, context := parent.context)
  }

  function PutDoc(p: Pending, id: string, d: Document): Pending {
    p.(docs := p.docs[id := d])
  }

  /** One edit; `None` when the engine's own check throws. */
  function ApplyEdit(env: Env, sig: Signal, p: Pending, e: Edit): Option<Pending> {
    match e
    case StoreOutput(id, docType, data) =>
      Some(PutDoc(p, id,
        if id in p.docs then p.docs[id].(data := p.docs[id].data + data) else Document(id, docType, data)))
    case SetResult(key, data) =>
      Some(if key in p.docs then PutDoc(p, key, p.docs[key].(data := data)) else p.(results := p.results[key := data]))
    case CreateDoc(doc) =>
      if doc.id in p.docs || !env.valid(doc.docType, doc.data) then None else Some(PutDoc(p, doc.id, doc))
    case UpdateDoc(id, data) =>
      if id !in p.docs then None
      else
        var merged := p.docs[id].data + data;
        if env.valid(p.docs[id].docType, merged) then Some(PutDoc(p, id, p.docs[id].(data := merged))) else None
    case DeleteDoc(id) => Some(p.(docs := p.docs - {id}))
    case EmitSignal(s) => Some(p.(emits := p.emits + [Cascade(sig, s)]))
  }

  function ApplyEdits(env: Env, sig: Signal, p: Pending, edits: seq<Edit>): Work
    decreases |edits|
  {
    if edits == [] then Work(p, None)
    else
      match ApplyEdit(env, sig, p, edits[0])
      case None => Work(p, Some(ActionFailed))
      case Some(q) => ApplyEdits(env, sig, q, edits[1..])
  }

  function Perform(env: Env, action: Action, sig: Signal, state: StateId, input: Option<Record>, p: Pending): Work {
    match action
    case Emit(event, data) =>
      var q := p.(events := p.events + [Event(event, data)]);
      Work(if event == "" then q
        else q.(emits := q.emits + [Cascade(sig, Signal(event, data, None, None, None))]), None)
    case External(_, _) =>
      var call := Call(action, sig, state, input, p.docs, p.results);
      var reply := env.act(|p.calls|, call);
      var w := ApplyEdits(env, sig, p.(calls := p.calls + [call], arrivals := p.arrivals + reply.arrivals),
        reply.edits);
      if w.failed.None? && reply.throws then w.(failed := Some(ActionFailed)) else w
  }

  function PerformAll(env: Env, actions: seq<Action>, sig: Signal, state: StateId, input: Option<Record>,
      p: Pending): Work
    decreases |actions|
  {
    if actions == [] then Work(p, None)
    else
      var w := Perform(env, actions[0], sig, state, input, p);
      if w.failed.Some? then w else PerformAll(env, actions[1..], sig, state, input, w.p)
  }

  /** The input every action of one list gets: the carried one, else one made from the signal. */
  function InputFor(sig: Signal, results: Results): Option<Record> {
    if Carried(results).Some? then Carried(results) else SeedInput(sig)
  }

  function ExecuteActions(env: Env, actions: seq<Action>, sig: Signal, state: StateId, p: Pending): Work {
    var input := InputFor(sig, p.results);
    var w := PerformAll(env, actions, sig, state, input, p);
    if w.failed.None? && input.Some? then w.(p := w.p.(results := w.p.results[LAST_PREPARE := input.value])) else w
  }

  // ---- the transaction ----

  /** The first listed transition of the handler; later ones are never taken. */
  function Select(def: Definition, state: StateId, kind: string): Option<Transition>
    requires state in def.states
  {
    var on := Handlers(def.states[state]);
    if kind !in on || Transitions(on[kind]) == [] then None else Some(Transitions(on[kind])[0])
  }

  function Skips(sig: Signal): seq<StateId> {
    if sig.context.Some? then sig.context.value.skipStates else []
  }

  /** A state's own documents, added unless one with that id is already there. */
  function SeedMissing(env: Env, docs: seq<Document>, p: Pending): Work
    decreases |docs|
  {
    if docs == [] then Work(p, None)
    else if docs[0].id in p.docs then SeedMissing(env, docs[1..], p)
    else if !env.valid(docs[0].docType, docs[0].data) then Work(p, Some(SeedInvalid(docs[0].id)))
    else SeedMissing(env, docs[1..], PutDoc(p, docs[0].id, docs[0]))
  }

  function StartPending(e: Engine): Pending {
    Pending(e.docs, e.results, [], [], [], e.log.calls)
  }

  /** The target's own documents, then its entry actions. */
  function EnterState(def: Definition, env: Env, sig: Signal, target: StateId, p: Pending): Work {
    if target !in def.states then Work(p, None)
    else
      var w := SeedMissing(env, def.states[target].documents, p);
      if w.failed.Some? || def.states[target].entry.None? then w
      else ExecuteActions(env, def.states[target].entry.value, sig, target, w.p)
  }

  function RunTransition(def: Definition, env: Env, e: Engine, sig: Signal, tr: Transition, target: StateId): Work {
    var p0 := StartPending(e);
    var w1 := if tr.actions == [] then Work(p0, None) else ExecuteActions(env, tr.actions, sig, e.current, p0);
    if w1.failed.Some? then w1 else EnterState(def, env, sig, target, w1.p)
  }

  function Enqueue(e: Engine, more: seq<Signal>): Engine {
    e.(queue := e.queue + more, log := e.log.(pushed := e.log.pushed + more))
  }

  /** A failed transition leaves only what happened outside the copies: signals sent meanwhile, calls made. */
  function Abandon(e: Engine, p: Pending): Engine {
    e.(queue := e.queue + p.arrivals, log := e.log.(pushed := e.log.pushed + p.arrivals, calls := p.calls))
  }

  function Commit(def: Definition, e: Engine, p: Pending, target: StateId): Engine {
    e.(
      docs := p.docs,
      results := if target == def.initial then map[] else p.results,
      current := target,
      events := p.events,
      queue := e.queue + (p.arrivals + p.emits),
      log := e.log.(
        pushed := e.log.pushed + (p.arrivals + p.emits),
        calls := p.calls,
        landings := e.log.landings + [Landing(target, |p.calls|, e.log.saves, p.emits)]))
  }

  function Stored(docs: Docs): map<string, StoredDoc> {
    map id | id in docs :: StoredDoc(docs[id].docType, docs[id].data)
  }

  /** Stored documents whose deletion failed, if it was tried. */
  function LeftOver(stored: map<string, StoredDoc>, undeleted: set<string>): map<string, StoredDoc> {
    map id | id in stored && id in undeleted :: stored[id]
  }

  /** `persistDocuments`: write every document, then delete the stored ids that are gone. */
  function SaveDocs(env: Env, e: Engine): StepResult {
    var e1 := e.(log := e.log.(saves := e.log.saves + 1));
    match env.save(e.log.saves)
    case Broke(arrivals, left) => Threw(Enqueue(e1, arrivals).(store := left), SaveFailed)
    case Saved(arrivals, undeleted) =>
      Done(Enqueue(e1, arrivals).(store := e.store.(docs := LeftOver(e.store.docs, undeleted) + Stored(e.docs))), true)
  }

  function SaveState(env: Env, e: Engine): StepResult {
    var e1 := e.(log := e.log.(saves := e.log.saves + 1));
    match env.save(e.log.saves)
    case Broke(arrivals, left) => Threw(Enqueue(e1, arrivals).(store := left), SaveFailed)
    case Saved(arrivals, _) => Done(Enqueue(e1, arrivals).(store := e.store.(state := Some(e.current))), true)
  }

  function SaveAll(env: Env, e: Engine): StepResult {
    var r := SaveDocs(env, e);
    if r.Threw? then r else SaveState(env, r.e)
  }

  /** Run on copies, then commit and save, or abandon. */
  function Transact(def: Definition, env: Env, e: Engine, sig: Signal, tr: Transition, target: StateId): StepResult {
    var w := RunTransition(def, env, e, sig, tr, target);
    if w.failed.Some? then Threw(Abandon(e, w.p), w.failed.value)
    else SaveAll(env, Commit(def, e, w.p, target))
  }

  /** One signal, already taken off the queue. */
  ghost function Step(def: Definition, env: Env, e: Engine, sig: Signal): StepResult {
    if e.current !in def.states then Threw(e, InvalidState(e.current))
    else
      match Select(def, e.current, sig.kind)
      case None => Done(e, false)
      case Some(tr) =>
        var r := Resolve(def, Skips(sig), tr.target);
        var e1 := if sig.context.Some? then e.(log := e.log.(skipEvents := e.log.skipEvents + r.skipped)) else e;
        if !r.Landed? then Threw(e1, SkipFailed(r))
        else
          Transact(def, env, e1, sig, tr, r.target)
  }

  // ---- what a step keeps ----

  /** Fields that only a commit may change. */
  ghost predicate SameCommitted(a: Engine, b: Engine) {
    a.docs == b.docs && a.results == b.results && a.current == b.current && a.events == b.events &&
    a.store == b.store && a.log.landings == b.log.landings
  }

  /** The signals that others sent while the calls from number `from` on were awaited, in order. */
  function Arrived(env: Env, calls: seq<Call>, from: nat): seq<Signal> {
    if |calls| <= from then []
    else Arrived(env, calls[..|calls| - 1], from) + env.act(|calls| - 1, calls[|calls| - 1]).arrivals
  }

  /** The signals that others sent during the store calls numbered `from` to `to`. */
  function ArrivedInSaves(env: Env, from: nat, to: nat): seq<Signal> {
    if to <= from then [] else ArrivedInSaves(env, from, to - 1) + env.save(to - 1).arrivals
  }

  lemma ArrivedNext(env: Env, calls: seq<Call>, c: Call, from: nat)
    requires from <= |calls|
    ensures Arrived(env, calls + [c], from) == Arrived(env, calls, from) + env.act(|calls|, c).arrivals
  {
    assert (calls + [c])[..|calls|] == calls;
  }

  lemma {:induction false} ArrivedSplit(env: Env, calls: seq<Call>, from: nat, mid: nat)
    requires from <= mid <= |calls|
    ensures Arrived(env, calls, from) == Arrived(env, calls[..mid], from) + Arrived(env, calls, mid)
  {
    if mid == |calls| {
      assert calls[..mid] == calls;
    } else {
      var init := calls[..|calls| - 1];
      ArrivedSplit(env, init, from, mid);
      assert init[..mid] == calls[..mid];
    }
  }

  /** `q` extends the run from `p`: calls only grow, and exactly the signals sent during the new ones arrived. */
  ghost predicate Extends(env: Env, p: Pending, q: Pending) {
    p.calls <= q.calls && q.arrivals == p.arrivals + Arrived(env, q.calls, |p.calls|)
  }

  lemma ExtendsSame(env: Env, p: Pending, q: Pending)
    requires q.calls == p.calls && q.arrivals == p.arrivals
    ensures Extends(env, p, q)
  {
  }

  lemma ExtendsTwice(env: Env, p: Pending, q: Pending, r: Pending)
    requires Extends(env, p, q) && Extends(env, q, r)
    ensures Extends(env, p, r)
  {
    ArrivedSplit(env, r.calls, |p.calls|, |q.calls|);
    assert r.calls[..|q.calls|] == q.calls;
    hide Arrived;
    Regroup(p.arrivals, Arrived(env, q.calls, |p.calls|), Arrived(env, r.calls, |q.calls|));
  }

  lemma {:induction false} EditsExtend(env: Env, sig: Signal, p: Pending, edits: seq<Edit>)
    ensures ApplyEdits(env, sig, p, edits).p.calls == p.calls
    ensures ApplyEdits(env, sig, p, edits).p.arrivals == p.arrivals
    ensures ApplyEdits(env, sig, p, edits).failed in {None, Some(ActionFailed)}
    decreases |edits|
  {
    if edits != [] {
      match ApplyEdit(env, sig, p, edits[0]) {
        case None =>
        case Some(q) => EditsExtend(env, sig, q, edits[1..]);
      }
    }
  }

  lemma CallExtends(env: Env, p: Pending, call: Call, q: Pending)
    requires q.calls == p.calls + [call] && q.arrivals == p.arrivals + env.act(|p.calls|, call).arrivals
    ensures Extends(env, p, q)
  {
    ArrivedNext(env, p.calls, call, |p.calls|);
    assert Arrived(env, p.calls, |p.calls|) == [];
  }

  lemma PerformExtends(env: Env, action: Action, sig: Signal, state: StateId, input: Option<Record>, p: Pending)
    ensures var w := Perform(env, action, sig, state, input, p);
      && Extends(env, p, w.p)
      && (forall k | |p.calls| <= k < |w.p.calls| :: w.p.calls[k].input == input)
      && w.failed in {None, Some(ActionFailed)}
  {
    var w := Perform(env, action, sig, state, input, p);
    hide Extends, ApplyEdits;
    match action {
      case Emit(_, _) => ExtendsSame(env, p, w.p);
      case External(_, _) =>
        var call := Call(action, sig, state, input, p.docs, p.results);
        var reply := env.act(|p.calls|, call);
        EditsExtend(env, sig, p.(calls := p.calls + [call], arrivals := p.arrivals + reply.arrivals), reply.edits);
        CallExtends(env, p, call, w.p);
    }
  }

  lemma CallsGrow(env: Env, p: Pending, q: Pending)
    requires Extends(env, p, q)
    ensures p.calls <= q.calls
  {
  }

  lemma {:induction false} PerformAllExtends(
    env: Env, actions: seq<Action>, sig: Signal, state: StateId, input: Option<Record>, p: Pending)
    ensures var w := PerformAll(env, actions, sig, state, input, p);
      && Extends(env, p, w.p)
      && (forall k | |p.calls| <= k < |w.p.calls| :: w.p.calls[k].input == input)
      && w.failed in {None, Some(ActionFailed)}
    decreases |actions|
  {
    if actions == [] {
      ExtendsSame(env, p, p);
    } else {
      var w := Perform(env, actions[0], sig, state, input, p);
      PerformExtends(env, actions[0], sig, state, input, p);
      hide Perform, Extends;
      if w.failed.None? {
        PerformAllExtends(env, actions[1..], sig, state, input, w.p);
        var v := PerformAll(env, actions[1..], sig, state, input, w.p);
        ExtendsTwice(env, p, w.p, v.p);
        CallsGrow(env, p, w.p);
        CallsGrow(env, w.p, v.p);
      }
    }
  }

  /** Every action of a list sees the same input, and that input is stored when the list succeeds. */
  lemma ExecuteActionsShares(env: Env, actions: seq<Action>, sig: Signal, state: StateId, p: Pending)
    ensures var w := ExecuteActions(env, actions, sig, state, p);
      && Extends(env, p, w.p)
      && (forall k | |p.calls| <= k < |w.p.calls| :: w.p.calls[k].input == InputFor(sig, p.results))
      && (w.failed.None? && InputFor(sig, p.results).Some? ==>
            LAST_PREPARE in w.p.results && w.p.results[LAST_PREPARE] == InputFor(sig, p.results).value)
      && w.failed in {None, Some(ActionFailed)}
  {
    PerformAllExtends(env, actions, sig, state, InputFor(sig, p.results), p);
  }

  lemma {:induction false} SeedMissingKeeps(env: Env, docs: seq<Document>, p: Pending)
    ensures var w := SeedMissing(env, docs, p);
      && w.p == p.(docs := w.p.docs)
      && (w.failed.Some? ==> w.failed.value.SeedInvalid?)
      && (forall id | id in p.docs :: id in w.p.docs && w.p.docs[id] == p.docs[id])
      && (w.failed.None? ==> forall i | 0 <= i < |docs| :: docs[i].id in w.p.docs)
    decreases |docs|
  {
    if docs != [] && (docs[0].id in p.docs || env.valid(docs[0].docType, docs[0].data)) {
      var q := if docs[0].id in p.docs then p else PutDoc(p, docs[0].id, docs[0]);
      SeedMissingKeeps(env, docs[1..], q);
      var w := SeedMissing(env, docs[1..], q);
      forall i | 0 <= i < |docs| && w.failed.None? ensures docs[i].id in w.p.docs {
        if i > 0 {
          assert docs[i] == docs[1..][i - 1];
        } else {
          assert docs[0].id in q.docs;
        }
      }
    }
  }

  lemma EnterStateFailures(def: Definition, env: Env, sig: Signal, target: StateId, p: Pending)
    ensures var w := EnterState(def, env, sig, target, p);
      && Extends(env, p, w.p)
      && (w.failed.Some? ==> w.failed.value.ActionFailed? || w.failed.value.SeedInvalid?)
  {
    ExtendsSame(env, p, p);
    if target in def.states {
      var w := SeedMissing(env, def.states[target].documents, p);
      SeedMissingKeeps(env, def.states[target].documents, p);
      ExtendsSame(env, p, w.p);
      hide Extends, ExecuteActions;
      if w.failed.None? && def.states[target].entry.Some? {
        ExecuteActionsShares(env, def.states[target].entry.value, sig, target, w.p);
        ExtendsTwice(env, p, w.p, ExecuteActions(env, def.states[target].entry.value, sig, target, w.p).p);
      }
    }
  }

  lemma RunTransitionFailures(def: Definition, env: Env, e: Engine, sig: Signal, tr: Transition, target: StateId)
    ensures var w := RunTransition(def, env, e, sig, tr, target);
      && Extends(env, StartPending(e), w.p)
      && (w.failed.Some? ==> w.failed.value.ActionFailed? || w.failed.value.SeedInvalid?)
  {
    var p0 := StartPending(e);
    ExtendsSame(env, p0, p0);
    if tr.actions != [] {
      ExecuteActionsShares(env, tr.actions, sig, e.current, p0);
    }
    hide Extends, ExecuteActions, EnterState;
    var w1 := if tr.actions == [] then Work(p0, None) else ExecuteActions(env, tr.actions, sig, e.current, p0);
    if w1.failed.None? {
      EnterStateFailures(def, env, sig, target, w1.p);
      ExtendsTwice(env, p0, w1.p, EnterState(def, env, sig, target, w1.p).p);
    }
  }

  /** Action number `n` is the first to fail. */
  ghost predicate FailsAt(env: Env, actions: seq<Action>, sig: Signal, state: StateId, input: Option<Record>,
      p: Pending, n: nat)
    requires n < |actions|
  {
    var before := PerformAll(env, actions[..n], sig, state, input, p);
    before.failed.None? && Perform(env, actions[n], sig, state, input, before.p).failed.Some?
  }

  /** A list of actions fails exactly when some action fails after all before it succeeded. */
  lemma {:induction false} FailureHasPosition(env: Env, actions: seq<Action>, sig: Signal, state: StateId,
      input: Option<Record>, p: Pending)
    ensures PerformAll(env, actions, sig, state, input, p).failed.Some? <==>
      exists n | 0 <= n < |actions| :: FailsAt(env, actions, sig, state, input, p, n)
    decreases |actions|
  {
    if actions != [] {
      var w := Perform(env, actions[0], sig, state, input, p);
      var rest := actions[1..];
      if w.failed.Some? {
        assert FailsAt(env, actions, sig, state, input, p, 0);
      } else {
        FailureHasPosition(env, rest, sig, state, input, w.p);
        forall n | 0 <= n < |rest|
          ensures FailsAt(env, rest, sig, state, input, w.p, n) <==> FailsAt(env, actions, sig, state, input, p, n + 1)
        {
          assert actions[..n + 1][1..] == rest[..n] && actions[..n + 1][0] == actions[0];
        }
        if n :| 0 <= n < |rest| && FailsAt(env, rest, sig, state, input, w.p, n) {
          assert FailsAt(env, actions, sig, state, input, p, n + 1);
        }
        if n :| 0 <= n < |actions| && FailsAt(env, actions, sig, state, input, p, n) {
          assert n > 0;
          assert FailsAt(env, rest, sig, state, input, w.p, n - 1);
        }
      }
    }
  }

  /** A skip event is sent for a state exactly when it is skipped; signals without a context skip nothing. */
  lemma NoContextNoSkips(def: Definition, sig: Signal, start: StateId)
    requires sig.context.None?
    ensures Resolve(def, Skips(sig), start) == Landed([], start)
  {
    ResolutionIsUnique(def, [], start, Resolve(def, [], start), Landed([], start));
  }

  /** The step reached its commit. */
  predicate PastActions(r: StepResult) {
    (r.Done? && r.took) || (r.Threw? && r.why.SaveFailed?)
  }

  /** All pending pieces of `p` are in force in `b`, and the step that took them started in `a`. The queue gained the
      signals others sent during the actions, then what the actions emitted, then what others sent during the saves. */
  ghost predicate TakesEffect(def: Definition, env: Env, a: Engine, b: Engine, p: Pending, target: StateId) {
    var more := p.arrivals + p.emits + ArrivedInSaves(env, a.log.saves, b.log.saves);
    && b.docs == p.docs
    && b.results == (if target == def.initial then map[] else p.results)
    && b.current == target
    && b.events == p.events
    && b.queue == a.queue + more && b.log.pushed == a.log.pushed + more
    && b.log.landings == a.log.landings + [Landing(target, |p.calls|, a.log.saves, p.emits)]
    && b.log.calls == p.calls
    && p.arrivals == Arrived(env, p.calls, |a.log.calls|)
    && a.log.saves <= b.log.saves
  }

  /** Nothing that only a commit may change has changed, and nothing the failed transition emitted is queued: the queue
      gained exactly the signals that others sent during the foreign calls of this step. */
  ghost predicate NothingTaken(env: Env, a: Engine, b: Engine) {
    var got := Arrived(env, b.log.calls, |a.log.calls|);
    && SameCommitted(a, b)
    && a.log.calls <= b.log.calls
    && b.queue == a.queue + got && b.log.pushed == a.log.pushed + got
    && b == a.(queue := b.queue,
      log := a.log.(pushed := b.log.pushed, calls := b.log.calls, skipEvents := b.log.skipEvents))
  }

  /** The four ways a step can go. */
  datatype Shape =
    | Ignored
    | Refused(skipped: seq<StateId>, why: Failure)
    | Failed(tr: Transition, skipped: seq<StateId>, target: StateId, p: Pending, why: Failure)
    | Took(tr: Transition, skipped: seq<StateId>, target: StateId, p: Pending)

  function Skipped(e: Engine, skipped: seq<StateId>): Engine {
    e.(log := e.log.(skipEvents := e.log.skipEvents + skipped))
  }

  /** `shape` is the way this step goes, and `r` is where that leads. */
  ghost predicate HasShape(def: Definition, env: Env, e: Engine, sig: Signal, shape: Shape, r: StepResult) {
    match shape
    case Ignored =>
      e.current in def.states && Select(def, e.current, sig.kind).None? && r == Done(e, false)
    case Refused(skipped, why) =>
      && r == Threw(Skipped(e, skipped), why)
      && if e.current !in def.states then skipped == [] && why == InvalidState(e.current)
         else
           && Select(def, e.current, sig.kind).Some?
           && var chain := Resolve(def, Skips(sig), Select(def, e.current, sig.kind).value.target);
              !chain.Landed? && skipped == chain.skipped && why == SkipFailed(chain)
    case Failed(tr, skipped, target, p, why) =>
      && e.current in def.states && Select(def, e.current, sig.kind) == Some(tr)
      && Resolve(def, Skips(sig), tr.target) == Landed(skipped, target)
      && RunTransition(def, env, e, sig, tr, target) == Work(p, Some(why))
      && (why.ActionFailed? || why.SeedInvalid?)
      && Extends(env, StartPending(e), p)
      && r == Threw(Abandon(Skipped(e, skipped), p), why)
    case Took(tr, skipped, target, p) =>
      && e.current in def.states && Select(def, e.current, sig.kind) == Some(tr)
      && Resolve(def, Skips(sig), tr.target) == Landed(skipped, target)
      && RunTransition(def, env, e, sig, tr, target) == Work(p, None)
      && Extends(env, StartPending(e), p)
      && r == SaveAll(env, Commit(def, Skipped(e, skipped), p, target))
  }

  /** The copies do not depend on the skip events already sent. */
  lemma RunIgnoresSkipEvents(def: Definition, env: Env, e: Engine, sig: Signal, tr: Transition, target: StateId,
      sent: seq<StateId>)
    ensures RunTransition(def, env, e.(log := e.log.(skipEvents := sent)), sig, tr, target)
      == RunTransition(def, env, e, sig, tr, target)
  {
  }

  /** A signal without a context sends no skip events, and has none to send. */
  lemma SentSkips(def: Definition, e: Engine, sig: Signal, start: StateId)
    ensures var r := Resolve(def, Skips(sig), start);
      Skipped(e, r.skipped) ==
        if sig.context.Some? then e.(log := e.log.(skipEvents := e.log.skipEvents + r.skipped)) else e
  {
    if sig.context.None? {
      NoContextNoSkips(def, sig, start);
      hide Resolve;
      assert e.log.skipEvents + [] == e.log.skipEvents;
    }
  }

  lemma TransactShape(def: Definition, env: Env, e: Engine, sig: Signal, tr: Transition, skipped: seq<StateId>,
      target: StateId)
    returns (shape: Shape)
    requires e.current in def.states && Select(def, e.current, sig.kind) == Some(tr)
    requires Resolve(def, Skips(sig), tr.target) == Landed(skipped, target)
    ensures HasShape(def, env, e, sig, shape, Transact(def, env, Skipped(e, skipped), sig, tr, target))
  {
    RunIgnoresSkipEvents(def, env, e, sig, tr, target, e.log.skipEvents + skipped);
    RunTransitionFailures(def, env, e, sig, tr, target);
    hide RunTransition, Extends, SaveAll, Commit, Abandon, Resolve, Select;
    var w := RunTransition(def, env, e, sig, tr, target);
    return if w.failed.Some? then Failed(tr, skipped, target, w.p, w.failed.value) else Took(tr, skipped, target, w.p);
  }

  lemma StepShape(def: Definition, env: Env, e: Engine, sig: Signal) returns (shape: Shape)
    ensures HasShape(def, env, e, sig, shape, Step(def, env, e, sig))
  {
    hide Transact, RunTransition, Extends, SaveAll, Commit, Abandon, Resolve;
    if e.current !in def.states {
      assert Skipped(e, []) == e;
      return Refused([], InvalidState(e.current));
    }
    hide Select;
    if Select(def, e.current, sig.kind).None? {
      return Ignored;
    }
    var tr := Select(def, e.current, sig.kind).value;
    var r := Resolve(def, Skips(sig), tr.target);
    SentSkips(def, e, sig, tr.target);
    hide Skipped;
    if !r.Landed? {
      return Refused(r.skipped, SkipFailed(r));
    }
    shape := TransactShape(def, env, e, sig, tr, r.skipped, r.target);
  }

  /** Only the queue, its log, the store and the count of store calls differ, and the queue gained what others sent. */
  ghost predicate StoreMoved(env: Env, a: Engine, b: Engine) {
    var got := ArrivedInSaves(env, a.log.saves, b.log.saves);
    && a.log.saves <= b.log.saves
    && b.queue == a.queue + got && b.log.pushed == a.log.pushed + got
    && b == a.(queue := b.queue, store := b.store, log := a.log.(pushed := b.log.pushed, saves := b.log.saves))
  }

  lemma OneSave(env: Env, n: nat)
    ensures ArrivedInSaves(env, n, n + 1) == env.save(n).arrivals
  {
    assert ArrivedInSaves(env, n, n) == [];
  }

  lemma SaveDocsMoves(env: Env, e: Engine)
    ensures var r := SaveDocs(env, e);
      StoreMoved(env, e, r.e) && (r.Threw? ==> r.why.SaveFailed?) && (r.Done? ==> r.took)
  {
    OneSave(env, e.log.saves);
    hide ArrivedInSaves;
  }

  lemma SaveStateMoves(env: Env, e: Engine)
    ensures var r := SaveState(env, e);
      StoreMoved(env, e, r.e) && (r.Threw? ==> r.why.SaveFailed?) && (r.Done? ==> r.took)
  {
    OneSave(env, e.log.saves);
    hide ArrivedInSaves;
  }

  lemma {:induction false} SavesSplit(env: Env, from: nat, mid: nat, to: nat)
    requires from <= mid <= to
    ensures ArrivedInSaves(env, from, to) == ArrivedInSaves(env, from, mid) + ArrivedInSaves(env, mid, to)
  {
    if mid < to {
      SavesSplit(env, from, mid, to - 1);
    }
  }

  lemma MovesCompose(env: Env, a: Engine, b: Engine, c: Engine)
    requires StoreMoved(env, a, b) && StoreMoved(env, b, c)
    ensures StoreMoved(env, a, c)
  {
    SavesSplit(env, a.log.saves, b.log.saves, c.log.saves);
    hide ArrivedInSaves;
    var x, y := ArrivedInSaves(env, a.log.saves, b.log.saves), ArrivedInSaves(env, b.log.saves, c.log.saves);
    Regroup(a.queue, x, y);
    Regroup(a.log.pushed, x, y);
  }

  lemma SaveAllMoves(env: Env, e: Engine)
    ensures var r := SaveAll(env, e);
      StoreMoved(env, e, r.e) && (r.Threw? ==> r.why.SaveFailed?) && (r.Done? ==> r.took)
  {
    SaveDocsMoves(env, e);
    var r := SaveDocs(env, e);
    hide StoreMoved, SaveDocs, SaveState;
    if r.Done? {
      SaveStateMoves(env, r.e);
      MovesCompose(env, e, r.e, SaveState(env, r.e).e);
    }
  }

  lemma AbandonTakesNothing(env: Env, e: Engine, skipped: seq<StateId>, p: Pending)
    requires Extends(env, StartPending(e), p)
    ensures NothingTaken(env, e, Abandon(Skipped(e, skipped), p))
  {
    assert p.arrivals == Arrived(env, p.calls, |e.log.calls|);
  }

  lemma RefusalTakesNothing(env: Env, e: Engine, skipped: seq<StateId>)
    ensures NothingTaken(env, e, Skipped(e, skipped))
  {
  }

  /** Atomicity, first half: whatever throws before the commit (a bad skip chain, an action at any position,
      an invalid seed document) leaves the committed pieces and the store alone and drops what was emitted; no
      handler changes nothing. A refused chain makes no call, so then the queue is as it was. */
  lemma ThrowTakesNothing(def: Definition, env: Env, e: Engine, sig: Signal)
    ensures var r := Step(def, env, e, sig);
      && (r.Threw? && !r.why.SaveFailed? ==> NothingTaken(env, e, r.e))
      && (r.Threw? && (r.why.SkipFailed? || r.why.InvalidState?)
        ==> r.e.queue == e.queue && r.e.log.calls == e.log.calls)
      && (r.Done? && !r.took ==> r.e == e)
  {
    var shape := StepShape(def, env, e, sig);
    hide Step, NothingTaken, Extends;
    match shape {
      case Ignored =>
      case Refused(skipped, why) => RefusalTakesNothing(env, e, skipped);
      case Failed(tr, skipped, target, p, why) => AbandonTakesNothing(env, e, skipped, p);
      case Took(tr, skipped, target, p) => SaveAllMoves(env, Commit(def, Skipped(e, skipped), p, target));
    }
  }

  lemma CommitTakes(def: Definition, env: Env, e: Engine, skipped: seq<StateId>, p: Pending, target: StateId, b: Engine)
    requires Extends(env, StartPending(e), p)
    requires StoreMoved(env, Commit(def, Skipped(e, skipped), p, target), b)
    ensures TakesEffect(def, env, e, b, p, target)
    ensures b.log.skipEvents == e.log.skipEvents + skipped
  {
    var got := ArrivedInSaves(env, e.log.saves, b.log.saves);
    hide Arrived, ArrivedInSaves;
    assert p.arrivals == [] + Arrived(env, p.calls, |e.log.calls|);
    assert e.queue + (p.arrivals + p.emits) + got == e.queue + (p.arrivals + p.emits + got);
    assert e.log.pushed + (p.arrivals + p.emits) + got == e.log.pushed + (p.arrivals + p.emits + got);
  }

  /** Atomicity, second half: a step that gets past its actions puts every pending piece in force at once,
      whether or not the store calls after the commit succeed. */
  lemma CommitTakesAll(def: Definition, env: Env, e: Engine, sig: Signal)
    returns (tr: Transition, target: StateId, p: Pending, skipped: seq<StateId>)
    requires PastActions(Step(def, env, e, sig))
    ensures HasShape(def, env, e, sig, Took(tr, skipped, target, p), Step(def, env, e, sig))
    ensures TakesEffect(def, env, e, Step(def, env, e, sig).e, p, target)
    ensures IsResolution(def, Skips(sig), tr.target, Landed(skipped, target))
    ensures Step(def, env, e, sig).e.log.skipEvents == e.log.skipEvents + skipped
  {
    var shape := StepShape(def, env, e, sig);
    hide Step, TakesEffect;
    tr, skipped, target, p := shape.tr, shape.skipped, shape.target, shape.p;
    SaveAllMoves(env, Commit(def, Skipped(e, skipped), p, target));
    CommitTakes(def, env, e, skipped, p, target, Step(def, env, e, sig).e);
  }

  /** Where a commit lands. */
  lemma CommitLands(def: Definition, env: Env, e: Engine, sig: Signal) returns (tr: Transition)
    requires PastActions(Step(def, env, e, sig))
    ensures e.current in def.states && Select(def, e.current, sig.kind) == Some(tr)
    ensures var r := Resolve(def, Skips(sig), tr.target); r.Landed? && Step(def, env, e, sig).e.current == r.target
  {
    var target, p, skipped;
    tr, target, p, skipped := CommitTakesAll(def, env, e, sig);
    hide Step, Resolve, Select, RunTransition, SaveAll, IsResolution, Arrived, ArrivedInSaves;
  }

  lemma OtherwiseStays(def: Definition, env: Env, e: Engine, sig: Signal)
    requires !PastActions(Step(def, env, e, sig))
    ensures Step(def, env, e, sig).e.current == e.current
  {
    ThrowTakesNothing(def, env, e, sig);
    hide Step, Arrived;
  }

  lemma SaveAllThrowsSaveFailed(def: Definition, env: Env, e: Engine, s: Shape)
    ensures s.Took? ==>
      var r := SaveAll(env, Commit(def, Skipped(e, s.skipped), s.p, s.target));
        (r.Threw? ==> r.why.SaveFailed?) && (r.Done? ==> r.took)
  {
    if s.Took? {
      SaveAllMoves(env, Commit(def, Skipped(e, s.skipped), s.p, s.target));
    }
  }

  /** A step goes one way only: its shape is determined. */
  lemma ShapeIsUnique(def: Definition, env: Env, e: Engine, sig: Signal, a: Shape, b: Shape, r: StepResult)
    requires HasShape(def, env, e, sig, a, r) && HasShape(def, env, e, sig, b, r)
    ensures a == b
  {
    SaveAllThrowsSaveFailed(def, env, e, a);
    SaveAllThrowsSaveFailed(def, env, e, b);
    hide SaveAll, RunTransition, Resolve, Select, Extends, Commit, Abandon;
  }

  /** The circular error of a step means that the walk from the handler's target over skipped states comes back to
      one. */
  lemma CircularMeansRevisit(def: Definition, env: Env, e: Engine, sig: Signal)
    ensures var r := Step(def, env, e, sig);
      (r.Threw? && r.why.SkipFailed? && r.why.how.Circular?) <==>
        && e.current in def.states && Select(def, e.current, sig.kind).Some?
        && exists chain: seq<StateId>, again: StateId ::
          IsResolution(def, Skips(sig), Select(def, e.current, sig.kind).value.target, Circular(chain, again))
  {
    var shape := StepShape(def, env, e, sig);
    SaveAllThrowsSaveFailed(def, env, e, shape);
    hide Step, IsResolution, SaveAll, RunTransition;
    if e.current in def.states && Select(def, e.current, sig.kind).Some? {
      var start := Select(def, e.current, sig.kind).value.target;
      var r := Resolve(def, Skips(sig), start);
      if chain: seq<StateId>, again: StateId :| IsResolution(def, Skips(sig), start, Circular(chain, again)) {
        ResolutionIsUnique(def, Skips(sig), start, r, Circular(chain, again));
      }
    }
  }
}
