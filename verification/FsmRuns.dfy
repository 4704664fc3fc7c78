/** Whole drains, restarts and runs of the engine (packages/fsm-engine/fsm-engine.ts:579-824). */
module FsmRuns {
  import opened Options
  import opened FsmDefinition
  import opened FsmValidator
  import opened SkipChain
  import opened FsmTransaction

  const MAX_PROCESSED_SIGNALS := 100

  datatype DrainResult = Finished(e: Engine, took: bool, handled: nat) | Aborted(e: Engine, why: Failure)

  datatype SendResult =
    | Queued(e: Engine)
    | Returned(e: Engine, transitionTaken: bool, finalState: StateId, signalsProcessed: nat)
    | Raised(e: Engine, why: Failure)

  // ---- one step, seen from the drain ----

  /** Every signal that was ever pushed is either dequeued or still waits, in order. */
  ghost predicate Conserves(e: Engine) {
    e.log.pushed == e.log.dequeued + e.queue
  }

  /** What a step never touches, and how the logs grow. */
  ghost predicate StepFrame(a: Engine, r: StepResult) {
    var b := r.e;
    && b.log.dequeued == a.log.dequeued && b.processed == a.processed
    && b.processing == a.processing && b.initialized == a.initialized
    && a.queue <= b.queue && b.log.pushed == a.log.pushed + b.queue[|a.queue|..]
    && a.log.calls <= b.log.calls
    && if PastActions(r)
       then |b.log.landings| == |a.log.landings| + 1 && a.log.landings <= b.log.landings
       else b.log.landings == a.log.landings
  }

  lemma AbandonFrame(e: Engine, skipped: seq<StateId>, p: Pending, why: Failure)
    requires e.log.calls <= p.calls && !why.SaveFailed?
    ensures StepFrame(e, Threw(Abandon(Skipped(e, skipped), p), why))
  {
  }

  lemma CommitFrame(def: Definition, env: Env, e: Engine, skipped: seq<StateId>, p: Pending, target: StateId,
      r: StepResult)
    requires Extends(env, StartPending(e), p) && PastActions(r)
    requires StoreMoved(env, Commit(def, Skipped(e, skipped), p, target), r.e)
    ensures StepFrame(e, r)
  {
    hide Arrived, ArrivedInSaves;
    var got := ArrivedInSaves(env, e.log.saves, r.e.log.saves);
    assert r.e.queue[|e.queue|..] == p.arrivals + p.emits + got;
    assert r.e.log.pushed == e.log.pushed + (p.arrivals + p.emits + got);
  }

  lemma SameFrame(e: Engine, r: StepResult)
    requires r.e == e.(log := e.log.(skipEvents := r.e.log.skipEvents)) && !PastActions(r)
    ensures StepFrame(e, r)
  {
  }

  lemma StepKeepsFrame(def: Definition, env: Env, e: Engine, sig: Signal)
    ensures StepFrame(e, Step(def, env, e, sig))
    ensures var r := Step(def, env, e, sig);
      r.Threw? ==> !r.why.CascadeLimit? && (r.why.InvalidState? <==> e.current !in def.states)
  {
    var shape := StepShape(def, env, e, sig);
    var r := Step(def, env, e, sig);
    hide Step, StepFrame;
    match shape {
      case Ignored =>
        SameFrame(e, r);
      case Refused(skipped, why) =>
        SameFrame(e, r);
      case Failed(tr, skipped, target, p, why) =>
        AbandonFrame(e, skipped, p, why);
      case Took(tr, skipped, target, p) =>
        SaveAllMoves(env, Commit(def, Skipped(e, skipped), p, target));
        CommitFrame(def, env, e, skipped, p, target, r);
    }
  }

  // ---- the drain ----

  function Dequeue(e: Engine): Engine
    requires e.queue != []
  {
    e.(queue := e.queue[1..], log := e.log.(dequeued := e.log.dequeued + [e.queue[0]]), processed := e.processed + 1)
  }

  /** The `while` loop of `processQueue`; the counter is tested before it is raised. */
  ghost function DrainLoop(def: Definition, env: Env, e: Engine, took: bool, handled: nat): DrainResult
    decreases MAX_PROCESSED_SIGNALS + 1 - e.processed
  {
    if e.queue == [] then Finished(e, took, handled)
    else if e.processed > MAX_PROCESSED_SIGNALS then Aborted(e.(processed := e.processed + 1), CascadeLimit)
    else
      StepKeepsFrame(def, env, Dequeue(e), e.queue[0]);
      match Step(def, env, Dequeue(e), e.queue[0])
      case Threw(e2, why) => Aborted(e2, why)
      case Done(e2, t) => DrainLoop(def, env, e2, took || t, handled + 1)
  }

  function OpenDrain(e: Engine): Engine {
    e.(processing := true, processed := 0, results := e.results - {LAST_PREPARE})
  }

  function CloseDrain(e: Engine): Engine {
    e.(processing := false)
  }

  function Push(e: Engine, sig: Signal): Engine {
    Enqueue(e, [sig])
  }

  /** `signal()`: queue, and drain unless a drain is already running. */
  ghost function Send(def: Definition, env: Env, e: Engine, sig: Signal): SendResult {
    if e.processing then Queued(Push(e, sig))
    else
      match DrainLoop(def, env, OpenDrain(Push(e, sig)), false, 0)
      case Finished(e2, took, handled) => Returned(CloseDrain(e2), took, e2.current, handled)
      case Aborted(e2, why) => Raised(CloseDrain(e2), why)
  }

  /** How a drain that starts in `a` may end. */
  ghost predicate DrainFrame(a: Engine, took: bool, handled: nat, r: DrainResult) {
    var b := r.e;
    && Conserves(b) && a.log.pushed <= b.log.pushed && a.log.dequeued <= b.log.dequeued
    && a.log.landings <= b.log.landings && a.log.calls <= b.log.calls && b.initialized == a.initialized
    && |b.log.dequeued| - |a.log.dequeued| <= MAX_PROCESSED_SIGNALS + 1 - a.processed
    && (r.Finished? ==>
          && b.queue == []
          && r.handled - handled == |b.log.dequeued| - |a.log.dequeued|
          && (r.took <==> took || |b.log.landings| > |a.log.landings|))
    && (r.Aborted? && r.why.CascadeLimit? ==>
          b.queue != [] && |b.log.dequeued| - |a.log.dequeued| == MAX_PROCESSED_SIGNALS + 1 - a.processed)
  }

  /** One turn of the loop in front of the rest of the drain. */
  lemma TurnThenDrain(a: Engine, took: bool, handled: nat, r: StepResult, last: DrainResult)
    requires Conserves(a) && a.queue != []
    requires StepFrame(Dequeue(a), r) && r.Done?
    requires DrainFrame(r.e, took || r.took, handled + 1, last)
    ensures DrainFrame(a, took, handled, last)
  {
  }

  lemma TurnConserves(a: Engine, r: StepResult)
    requires Conserves(a) && a.queue != [] && StepFrame(Dequeue(a), r)
    ensures Conserves(r.e)
  {
    var e1 := Dequeue(a);
    assert e1.log.dequeued + e1.queue == a.log.pushed;
    assert r.e.log.dequeued + r.e.queue == e1.log.dequeued + (e1.queue + r.e.queue[|e1.queue|..]);
  }

  lemma {:induction false} DrainCounts(def: Definition, env: Env, e: Engine, took: bool, handled: nat)
    requires Conserves(e) && e.processed <= MAX_PROCESSED_SIGNALS + 1
    ensures DrainFrame(e, took, handled, DrainLoop(def, env, e, took, handled))
    decreases MAX_PROCESSED_SIGNALS + 1 - e.processed
  {
    if e.queue != [] && e.processed <= MAX_PROCESSED_SIGNALS {
      var r := Step(def, env, Dequeue(e), e.queue[0]);
      StepKeepsFrame(def, env, Dequeue(e), e.queue[0]);
      TurnConserves(e, r);
      hide Step;
      if r.Done? {
        DrainCounts(def, env, r.e, took || r.took, handled + 1);
        TurnThenDrain(e, took, handled, r, DrainLoop(def, env, r.e, took || r.took, handled + 1));
      }
    }
  }

  // ---- what was pushed ----

  lemma {:induction false} DrainGrows(def: Definition, env: Env, e: Engine, took: bool, handled: nat)
    ensures var r := DrainLoop(def, env, e, took, handled);
      e.log.calls <= r.e.log.calls && e.log.landings <= r.e.log.landings
    decreases MAX_PROCESSED_SIGNALS + 1 - e.processed
  {
    if e.queue != [] && e.processed <= MAX_PROCESSED_SIGNALS {
      var e1 := Dequeue(e);
      StepKeepsFrame(def, env, e1, e.queue[0]);
      var r := Step(def, env, e1, e.queue[0]);
      if r.Done? {
        DrainGrows(def, env, r.e, took || r.took, handled + 1);
      }
    }
  }

  function Upto(calls: seq<Call>, n: nat): seq<Call> {
    if n <= |calls| then calls[..n] else calls
  }

  /** How many store calls came before commit number `i`, or so far when there is none. */
  ghost function SavesAt(log: Log, i: nat): nat {
    if i < |log.landings| then log.landings[i].savesBefore else log.saves
  }

  /** Everything pushed since commit number `i` was to come: per commit the signals that others sent during its actions,
      what it emitted, and what others sent during its saves; at the end those sent during a transition that failed. */
  ghost function PushedSince(env: Env, log: Log, i: nat, callsBefore: nat): seq<Signal>
    decreases |log.landings| - i
  {
    if i >= |log.landings| then Arrived(env, log.calls, callsBefore)
    else
      var l := log.landings[i];
      Arrived(env, Upto(log.calls, l.callsBefore), callsBefore) + l.emits
      + ArrivedInSaves(env, l.savesBefore, SavesAt(log, i + 1))
      + PushedSince(env, log, i + 1, l.callsBefore)
  }

  /** One step: a commit queues arrivals, its own emits, and arrivals of its saves; any other step only arrivals. */
  ghost predicate StepPushes(env: Env, a: Log, b: Log, committed: bool) {
    var got := Arrived(env, b.calls, |a.calls|);
    if committed then
      |b.landings| == |a.landings| + 1 && a.landings <= b.landings
      && var l := b.landings[|a.landings|];
         l.callsBefore == |b.calls| && l.savesBefore == a.saves
         && b.pushed == a.pushed + (got + l.emits + ArrivedInSaves(env, a.saves, b.saves))
    else b.landings == a.landings && b.saves == a.saves && b.pushed == a.pushed + got
  }

  lemma NoNewCalls(env: Env, e: Engine)
    ensures e.log.pushed + Arrived(env, e.log.calls, |e.log.calls|) == e.log.pushed
  {
  }

  lemma StepSends(def: Definition, env: Env, e: Engine, sig: Signal)
    ensures var r := Step(def, env, e, sig); StepPushes(env, e.log, r.e.log, PastActions(r))
  {
    hide Step, Arrived, ArrivedInSaves;
    var r := Step(def, env, e, sig);
    if PastActions(r) {
      var tr, target, p, skipped := CommitTakesAll(def, env, e, sig);
    } else {
      ThrowTakesNothing(def, env, e, sig);
      NoNewCalls(env, e);
    }
  }

  ghost predicate PushesFrom(env: Env, a: Log, b: Log) {
    && a.landings <= b.landings && a.calls <= b.calls
    && b.pushed == a.pushed + PushedSince(env, b, |a.landings|, |a.calls|)
    && SavesAt(b, |a.landings|) == a.saves
  }

  lemma CommitThenRest(env: Env, a: Log, m: Log, b: Log)
    requires a.calls <= m.calls && StepPushes(env, a, m, true) && PushesFrom(env, m, b)
    ensures PushesFrom(env, a, b)
  {
    var i := |a.landings|;
    var l := m.landings[i];
    assert b.landings[i] == l && Upto(b.calls, l.callsBefore) == m.calls;
    hide Arrived, ArrivedInSaves, Upto;
    var x := Arrived(env, m.calls, |a.calls|) + l.emits + ArrivedInSaves(env, a.saves, m.saves);
    var rest := PushedSince(env, b, i + 1, |m.calls|);
    assert PushedSince(env, b, i, |a.calls|) == x + rest;
    hide PushedSince, SavesAt;
    assert a.pushed + x + rest == a.pushed + (x + rest);
  }

  lemma LastCommit(env: Env, a: Log, b: Log)
    requires a.calls <= b.calls && StepPushes(env, a, b, true)
    ensures PushesFrom(env, a, b)
  {
    assert b.pushed + Arrived(env, b.calls, |b.calls|) == b.pushed;
    assert PushedSince(env, b, |b.landings|, |b.calls|) == [];
    CommitThenRest(env, a, b, b);
  }

  lemma NoCommit(env: Env, a: Log, b: Log)
    requires a.calls <= b.calls && StepPushes(env, a, b, false)
    ensures PushesFrom(env, a, b)
  {
  }

  lemma SamePushes(env: Env, log: Log)
    ensures PushesFrom(env, log, log)
  {
    assert log.pushed + Arrived(env, log.calls, |log.calls|) == log.pushed;
  }

  /** Taking a signal off the queue pushes nothing. */
  lemma SameStart(env: Env, a: Log, a': Log, b: Log)
    requires a' == a.(dequeued := a'.dequeued) && PushesFrom(env, a', b)
    ensures PushesFrom(env, a, b)
  {
  }

  /** A turn that ends the drain. */
  lemma TurnPushes(def: Definition, env: Env, e: Engine, r: StepResult)
    requires e.queue != [] && StepFrame(Dequeue(e), r) && StepPushes(env, Dequeue(e).log, r.e.log, PastActions(r))
    ensures PushesFrom(env, e.log, r.e.log)
  {
    hide StepPushes;
    var a := Dequeue(e).log;
    if PastActions(r) { LastCommit(env, a, r.e.log); } else { NoCommit(env, a, r.e.log); }
    SameStart(env, e.log, a, r.e.log);
  }

  /** A turn with the rest of the drain behind it. */
  lemma TurnThenPushes(def: Definition, env: Env, e: Engine, r: StepResult, last: Log)
    requires e.queue != [] && StepFrame(Dequeue(e), r) && StepPushes(env, Dequeue(e).log, r.e.log, PastActions(r))
    requires r.Done? && PushesFrom(env, r.e.log, last)
    requires !r.took ==> r.e == Dequeue(e)
    ensures PushesFrom(env, e.log, last)
  {
    hide StepPushes;
    var a := Dequeue(e).log;
    if r.took { CommitThenRest(env, a, r.e.log, last); }
    SameStart(env, e.log, a, last);
  }

  /** In a drain nothing is pushed but what its commits emitted and what others sent meanwhile, in that order. */
  lemma {:induction false} DrainPushes(def: Definition, env: Env, e: Engine, took: bool, handled: nat)
    ensures PushesFrom(env, e.log, DrainLoop(def, env, e, took, handled).e.log)
    decreases MAX_PROCESSED_SIGNALS + 1 - e.processed
  {
    hide Step, PushesFrom, StepPushes, NothingTaken, Conserves;
    if e.queue == [] || e.processed > MAX_PROCESSED_SIGNALS {
      SamePushes(env, e.log);
    } else {
      var e1 := Dequeue(e);
      var r := Step(def, env, e1, e.queue[0]);
      StepKeepsFrame(def, env, e1, e.queue[0]);
      StepSends(def, env, e1, e.queue[0]);
      ThrowTakesNothing(def, env, e1, e.queue[0]);
      TurnPushes(def, env, e, r);
      if r.Done? {
        DrainPushes(def, env, r.e, took || r.took, handled + 1);
        TurnThenPushes(def, env, e, r, DrainLoop(def, env, r.e, took || r.took, handled + 1).e.log);
      }
    }
  }

  /** Conservation and bound. Signals leave in the order they came, none is lost and none is invented; one
      drain takes at most 101 off the queue whatever is emitted; a normal return left the queue empty and
      reports exactly what happened; the cascade error means 101 were handled and the rest still waits. */
  lemma SendConserves(def: Definition, env: Env, e: Engine, sig: Signal)
    requires Conserves(e)
    ensures var r := Send(def, env, e, sig);
      && Conserves(r.e) && e.log.pushed + [sig] <= r.e.log.pushed && e.log.dequeued <= r.e.log.dequeued
      && (r.Queued? <==> e.processing)
      && (r.Queued? ==> r.e == Push(e, sig))
      && |r.e.log.dequeued| - |e.log.dequeued| <= 101
      && (!r.Queued? ==> !r.e.processing)
      && (r.Returned? ==>
            && r.e.queue == []
            && r.signalsProcessed == |r.e.log.dequeued| - |e.log.dequeued|
            && r.finalState == r.e.current
            && (r.transitionTaken <==> |r.e.log.landings| > |e.log.landings|))
      && (r.Raised? && r.why.CascadeLimit? ==> |r.e.log.dequeued| - |e.log.dequeued| == 101 && r.e.queue != [])
      && (!r.Queued? ==>
            r.e.log.pushed == e.log.pushed + [sig] + PushedSince(env, r.e.log, |e.log.landings|, |e.log.calls|))
  {
    if !e.processing {
      DrainPushes(def, env, OpenDrain(Push(e, sig)), false, 0);
      hide PushedSince, DrainLoop;
      var e1 := OpenDrain(Push(e, sig));
      assert e1.log.pushed == e1.log.dequeued + e1.queue;
      DrainCounts(def, env, e1, false, 0);
    }
  }

  // ---- start and restart ----

  datatype InitResult = Ready(e: Engine) | InitFailed(e: Engine)

  function Fresh(def: Definition, store: Store): Engine {
    Engine(def.initial, map[], map[], [], false, 0, false, [], store, Log([], [], [], [], 0, []))
  }

  /** A new engine over the old store; the logs of the run go on. */
  function Restarted(def: Definition, e: Engine): Engine {
    e.(current := def.initial, docs := map[], results := map[], queue := [], processing := false,
       processed := 0, initialized := false, events := [], log := e.log.(pushed := e.log.dequeued))
  }

  /** Nobody signals an engine that is still starting. */
  function Quiet(env: Env): Env {
    env.(act := (n: nat, c: Call) => env.act(n, c).(arrivals := []), save := (n: nat) => env.save(n).(arrivals := []))
  }

  function Restored(stored: map<string, StoredDoc>, unreadable: set<string>): Docs {
    map id | id in stored && id !in unreadable :: Document(id, stored[id].docType, stored[id].data)
  }

  /** On the first run a state's documents are put in whether or not the id is taken. */
  function SeedAll(env: Env, docs: seq<Document>, p: Pending): Work
    decreases |docs|
  {
    if docs == [] then Work(p, None)
    else if !env.valid(docs[0].docType, docs[0].data) then Work(p, Some(SeedInvalid(docs[0].id)))
    else SeedAll(env, docs[1..], PutDoc(p, docs[0].id, docs[0]))
  }

  const INIT_SIGNAL := Signal("__init__", None, None, None, None)

  /** Seed documents and entry actions of the first state, worked on in place and without carried input. */
  function FirstRun(def: Definition, env: Env, state: StateId, p: Pending): Work {
    if state !in def.states then Work(p, None)
    else
      var w := SeedAll(env, def.states[state].documents, p);
      if w.failed.Some? || def.states[state].entry.None? then w
      else PerformAll(env, def.states[state].entry.value, INIT_SIGNAL, state, None, w.p)
  }

  function InPlace(e: Engine, p: Pending): Engine {
    e.(docs := p.docs, results := p.results, events := p.events,
       queue := e.queue + p.emits, log := e.log.(pushed := e.log.pushed + p.emits, calls := p.calls))
  }

  function FinishInit(env: Env, e: Engine): InitResult {
    match SaveDocs(env, e)
    case Threw(e2, _) => InitFailed(e2)
    case Done(e2, _) => Ready(e2.(initialized := true))
  }

  /** Nothing to restore: run the first state, save the state, then finish. */
  function BeginFirst(def: Definition, env: Env, e: Engine): InitResult {
    var w := FirstRun(def, env, e.current, Pending(e.docs, e.results, e.events, [], [], e.log.calls));
    var e2 := InPlace(e, w.p);
    if w.failed.Some? then InitFailed(e2)
    else
      match SaveState(env, e2)
      case Threw(e3, _) => InitFailed(e3)
      case Done(e3, _) => FinishInit(env, e3)
  }

  predicate StateKnown(def: Definition, store: Store) {
    store.state.Some? && store.state.value in def.states
  }

  /** Restore the documents if there are any; with none and no known state this is the first run. */
  function Resume(def: Definition, env: Env, e: Engine): InitResult {
    if e.store.docs != map[] then FinishInit(env, e.(docs := e.docs + Restored(e.store.docs, env.unreadable)))
    else if StateKnown(def, e.store) then FinishInit(env, e)
    else BeginFirst(def, env, e)
  }

  function Initialize(def: Definition, env: Env, e: Engine): InitResult {
    if e.initialized || env.loadFails then InitFailed(e)
    else
      var quiet := Quiet(env);
      var e1 := if StateKnown(def, e.store) then e.(current := e.store.state.value) else e;
      Resume(def, quiet, e1)
  }

  // ---- runs ----

  /** What the outside does to an idle engine. */
  datatype Input = Signalled(sig: Signal) | Seeded(results: Results) | Restart

  ghost function After(def: Definition, env: Env, e: Engine, input: Input): Engine {
    match input
    case Signalled(sig) => Send(def, env, e, sig).e
    case Seeded(results) => if e.processing then e else e.(results := e.results + results)
    case Restart => Initialize(def, env, Restarted(def, e)).e
  }

  ghost function Run(def: Definition, env: Env, e: Engine, inputs: seq<Input>): Engine
    decreases |inputs|
  {
    if inputs == [] then e else After(def, env, Run(def, env, e, inputs[..|inputs| - 1]), inputs[|inputs| - 1])
  }

  /** The store calls of a quiet start touch the store and the call count, nothing else. */
  ghost predicate OnlyStore(a: Engine, b: Engine) {
    b == a.(store := b.store, log := a.log.(saves := b.log.saves))
  }

  lemma QuietSaves(env: Env, e: Engine)
    ensures OnlyStore(e, SaveDocs(Quiet(env), e).e)
    ensures OnlyStore(e, SaveState(Quiet(env), e).e)
  {
    assert e.queue + [] == e.queue && e.log.pushed + [] == e.log.pushed;
  }

  lemma FinishInitFrame(env: Env, e: Engine)
    ensures var r := FinishInit(Quiet(env), e); OnlyStore(e.(initialized := r.e.initialized), r.e)
  {
    QuietSaves(env, e);
  }

  lemma FirstRunChoosesState(def: Definition, env: Env, e: Engine)
    ensures BeginFirst(def, Quiet(env), e).e.current == e.current
  {
    var quiet := Quiet(env);
    var w := FirstRun(def, quiet, e.current, Pending(e.docs, e.results, e.events, [], [], e.log.calls));
    var e2 := InPlace(e, w.p);
    hide FirstRun, SaveState, SaveDocs, FinishInit;
    QuietSaves(env, e2);
    FinishInitFrame(env, SaveState(quiet, e2).e);
  }

  lemma ResumeChoosesState(def: Definition, env: Env, e: Engine)
    ensures Resume(def, Quiet(env), e).e.current == e.current
  {
    hide BeginFirst, FinishInit, Restored;
    FirstRunChoosesState(def, env, e);
    FinishInitFrame(env, e.(docs := e.docs + Restored(e.store.docs, Quiet(env).unreadable)));
    FinishInitFrame(env, e);
  }

  /** Starting takes the stored state when the definition has it, and else stays where the engine is. */
  lemma InitChoosesState(def: Definition, env: Env, e: Engine)
    ensures var now := Initialize(def, env, e).e.current;
      now == e.current || (StateKnown(def, e.store) && now == e.store.state.value)
    ensures !StateKnown(def, e.store) ==> Initialize(def, env, e).e.current == e.current
  {
    hide Resume;
    ResumeChoosesState(def, env, if StateKnown(def, e.store) then e.(current := e.store.state.value) else e);
  }

  /** What a start does to the record of the run. */
  ghost predicate KeepsLogs(a: Engine, b: Engine) {
    Conserves(b) && b.log.dequeued == a.log.dequeued && b.processing == a.processing && b.log.landings == a.log.landings
  }

  lemma FinishKeepsLogs(env: Env, e: Engine)
    requires Conserves(e)
    ensures KeepsLogs(e, FinishInit(Quiet(env), e).e)
  {
    hide FinishInit;
    FinishInitFrame(env, e);
  }

  lemma FirstRunKeepsLogs(env: Env, e: Engine, p: Pending)
    requires Conserves(e)
    ensures KeepsLogs(e, InPlace(e, p)) && KeepsLogs(e, SaveState(Quiet(env), InPlace(e, p)).e)
  {
    var e2 := InPlace(e, p);
    assert e2.log.pushed == e2.log.dequeued + e2.queue;
    hide SaveState;
    QuietSaves(env, e2);
  }

  lemma BeginKeepsLogs(def: Definition, env: Env, e: Engine)
    requires Conserves(e)
    ensures KeepsLogs(e, BeginFirst(def, Quiet(env), e).e)
  {
    var quiet := Quiet(env);
    var w := FirstRun(def, quiet, e.current, Pending(e.docs, e.results, e.events, [], [], e.log.calls));
    hide FirstRun, SaveState, FinishInit, InPlace;
    FirstRunKeepsLogs(env, e, w.p);
    FinishKeepsLogs(env, SaveState(quiet, InPlace(e, w.p)).e);
  }

  lemma ResumeKeepsLogs(def: Definition, env: Env, e: Engine)
    requires Conserves(e)
    ensures KeepsLogs(e, Resume(def, Quiet(env), e).e)
  {
    hide BeginFirst, FinishInit, Restored;
    BeginKeepsLogs(def, env, e);
    FinishKeepsLogs(env, e.(docs := e.docs + Restored(e.store.docs, Quiet(env).unreadable)));
    FinishKeepsLogs(env, e);
  }

  lemma InitKeepsLogs(def: Definition, env: Env, e: Engine)
    requires Conserves(e)
    ensures Conserves(Initialize(def, env, e).e)
    ensures Initialize(def, env, e).e.log.dequeued == e.log.dequeued
    ensures Initialize(def, env, e).e.processing == e.processing
    ensures Initialize(def, env, e).e.log.landings == e.log.landings
  {
    hide Resume;
    ResumeKeepsLogs(def, env, if StateKnown(def, e.store) then e.(current := e.store.state.value) else e);
  }

  /** Conservation over every run: at any moment the signals pushed since the last start are those dequeued
      and, behind them, those still queued; between inputs no drain is running. A restart forgets the queue. */
  lemma {:induction false} RunConserves(def: Definition, env: Env, store: Store, inputs: seq<Input>)
    ensures var e := Run(def, env, Fresh(def, store), inputs); Conserves(e) && !e.processing
    decreases |inputs|
  {
    if inputs != [] {
      var before := Run(def, env, Fresh(def, store), inputs[..|inputs| - 1]);
      RunConserves(def, env, store, inputs[..|inputs| - 1]);
      match inputs[|inputs| - 1] {
        case Signalled(sig) => SendConserves(def, env, before, sig);
        case Seeded(results) =>
        case Restart => InitKeepsLogs(def, env, Restarted(def, before));
      }
    }
  }

  // ---- safety from validation ----

  /** The engine is at a state of the definition that the validator visited. */
  ghost predicate Safe(def: Definition, e: Engine) {
    e.current in def.states && Reachable(def, e.current)
  }

  ghost predicate SafeTarget(def: Definition, s: StateId) {
    s in def.states && Reachable(def, s)
  }

  lemma HopIsEdge(def: Definition, s: StateId)
    requires Accepted(def) && s in def.states && NextHop(def, s).Hop?
    ensures SafeTarget(def, NextHop(def, s).target)
  {
    var on := def.states[s].on.value;
    var event :| event in on.Keys && |Transitions(on[event])| == 1
      && NextHop(def, s) == Hop(Transitions(on[event])[0].target);
    assert Leads(def.states[s], event, Transitions(on[event])[0].target);
  }

  lemma SelectIsEdge(def: Definition, s: StateId, kind: string)
    requires Accepted(def) && s in def.states && Select(def, s, kind).Some?
    ensures SafeTarget(def, Select(def, s, kind).value.target)
  {
    assert Leads(def.states[s], kind, Transitions(Handlers(def.states[s])[kind])[0].target);
  }

  /** In an accepted definition a skip walk never leaves the visited states. */
  lemma {:induction false} SkipWalkIsSafe(def: Definition, skips: seq<StateId>, start: StateId, chain: seq<StateId>,
      n: nat)
    requires Accepted(def) && SafeTarget(def, start)
    requires SkipWalk(def, skips, start, chain) && n < |chain|
    ensures SafeTarget(def, chain[n])
  {
    if n > 0 {
      SkipWalkIsSafe(def, skips, start, chain, n - 1);
      assert NextHop(def, chain[n - 1]) == Hop(chain[n]);
      HopIsEdge(def, chain[n - 1]);
    }
  }

  lemma LandingIsSafe(def: Definition, skips: seq<StateId>, start: StateId)
    requires Accepted(def) && SafeTarget(def, start)
    requires Resolve(def, skips, start).Landed?
    ensures SafeTarget(def, Resolve(def, skips, start).target)
  {
    var r := Resolve(def, skips, start);
    if r.skipped != [] {
      SkipWalkIsSafe(def, skips, start, r.skipped, |r.skipped| - 1);
      HopIsEdge(def, r.skipped[|r.skipped| - 1]);
    }
  }

  lemma StepIsSafe(def: Definition, env: Env, e: Engine, sig: Signal)
    requires Accepted(def) && Safe(def, e)
    ensures var r := Step(def, env, e, sig);
      && Safe(def, r.e)
      && (r.Threw? ==> !r.why.InvalidState?)
  {
    StepKeepsFrame(def, env, e, sig);
    hide Step, StepFrame, Accepted, Resolve, Select;
    if PastActions(Step(def, env, e, sig)) {
      var tr := CommitLands(def, env, e, sig);
      SelectIsEdge(def, e.current, sig.kind);
      LandingIsSafe(def, Skips(sig), tr.target);
    } else {
      OtherwiseStays(def, env, e, sig);
    }
  }

  lemma {:induction false} DrainIsSafe(def: Definition, env: Env, e: Engine, took: bool, handled: nat)
    requires Accepted(def) && Safe(def, e)
    ensures var r := DrainLoop(def, env, e, took, handled);
      Safe(def, r.e) && (r.Aborted? ==> !r.why.InvalidState?)
    decreases MAX_PROCESSED_SIGNALS + 1 - e.processed
  {
    if e.queue != [] && e.processed <= MAX_PROCESSED_SIGNALS {
      StepIsSafe(def, env, Dequeue(e), e.queue[0]);
      StepKeepsFrame(def, env, Dequeue(e), e.queue[0]);
      var r := Step(def, env, Dequeue(e), e.queue[0]);
      if r.Done? {
        DrainIsSafe(def, env, r.e, took || r.took, handled + 1);
      }
    }
  }

  lemma InitIsSafe(def: Definition, env: Env, e: Engine)
    requires Accepted(def) && Safe(def, e)
    ensures Safe(def, Initialize(def, env, e).e)
  {
    InitChoosesState(def, env, e);
  }

  lemma SendIsSafe(def: Definition, env: Env, e: Engine, sig: Signal)
    requires Accepted(def) && Safe(def, e)
    ensures var r := Send(def, env, e, sig); Safe(def, r.e) && (r.Raised? ==> !r.why.InvalidState?)
  {
    hide DrainLoop, Accepted, Reachable;
    if !e.processing {
      DrainIsSafe(def, env, OpenDrain(Push(e, sig)), false, 0);
    }
  }

  lemma AfterIsSafe(def: Definition, env: Env, e: Engine, input: Input)
    requires Accepted(def) && Safe(def, e)
    requires input.Restart? ==> Safe(def, Restarted(def, e))
    ensures Safe(def, After(def, env, e, input))
  {
    hide Send, Initialize, Accepted, Reachable;
    match input {
      case Signalled(sig) => SendIsSafe(def, env, e, sig);
      case Seeded(results) =>
      case Restart => InitIsSafe(def, env, Restarted(def, e));
    }
  }

  lemma StartIsSafe(def: Definition, store: Store)
    requires Accepted(def)
    ensures Safe(def, Fresh(def, store))
  {
  }

  lemma RestartIsSafe(def: Definition, e: Engine)
    requires Accepted(def)
    ensures Safe(def, Restarted(def, e))
  {
  }

  /** Run safety. For a definition the validator accepts, over any store to start from, any signals, seeds,
      restarts, skips and failures, the engine always stands on a visited state, so the next signal
      cannot raise the invalid-state error. */
  lemma {:induction false} RunIsSafe(def: Definition, env: Env, store: Store, inputs: seq<Input>, next: Signal)
    requires Accepted(def)
    ensures var e := Run(def, env, Fresh(def, store), inputs);
      && Safe(def, e)
      && (Send(def, env, e, next).Raised? ==> !Send(def, env, e, next).why.InvalidState?)
    decreases |inputs|
  {
    StartIsSafe(def, store);
    hide Safe, After, Send, Accepted, Fresh;
    if inputs != [] {
      var before := Run(def, env, Fresh(def, store), inputs[..|inputs| - 1]);
      RunIsSafe(def, env, store, inputs[..|inputs| - 1], next);
      RestartIsSafe(def, before);
      AfterIsSafe(def, env, before, inputs[|inputs| - 1]);
    }
    SendIsSafe(def, env, Run(def, env, Fresh(def, store), inputs), next);
  }
}
