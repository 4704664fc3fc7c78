/** The engine itself: fields updated by methods, each proved against FsmTransaction and FsmRuns
    (packages/fsm-engine/fsm-engine.ts). A thrown error is a returned `Failure`. */
module FsmEngine {
  import opened Options
  import opened Sequences
  import opened FsmDefinition
  import opened SkipChain
  import opened FsmTransaction
  import opened FsmRuns
  import opened FsmRestart

  /** The pending copies that the actions of one transition edit in place. */
  class Transaction {
    var documents: Docs
    var results: Results
    var events: seq<Event>
    var signals: seq<Signal>
    /** Signals that reached the busy engine since the copies were made. */
    ghost var arrivals: seq<Signal>

    constructor (documents: Docs, results: Results, events: seq<Event>)
      ensures this.documents == documents && this.results == results && this.events == events
      ensures signals == [] && arrivals == []
    {
      this.documents := documents;
      this.results := results;
      this.events := events;
      signals := [];
      arrivals := [];
    }
  }

  /** What `signal()` tells its caller. */
  datatype Outcome =
    | WasQueued
    | WasReturned(transitionTaken: bool, finalState: StateId, signalsProcessed: nat)
    | WasRaised(why: Failure)

  function SendOf(o: Outcome, e: Engine): SendResult {
    match o
    case WasQueued => Queued(e)
    case WasReturned(took, final, n) => Returned(e, took, final, n)
    case WasRaised(why) => Raised(e, why)
  }

  lemma PushConserves(a: Engine, b: Engine, sig: FsmTransaction.Signal)
    requires Conserves(a) && b == Push(a, sig)
    ensures Conserves(b)
  {
  }

  /** Take every pending piece where the queue already holds what arrived meanwhile. */
  ghost function Take(def: Definition, a: Engine, p: Pending, target: StateId): Engine {
    a.(docs := p.docs,
       results := if target == def.initial then map[] else p.results,
       current := target,
       events := p.events,
       queue := a.queue + p.emits,
       log := a.log.(pushed := a.log.pushed + p.emits,
         landings := a.log.landings + [Landing(target, |a.log.calls|, a.log.saves, p.emits)]))
  }

  lemma AbandonThenTake(def: Definition, e: Engine, p: Pending, target: StateId)
    ensures Take(def, Abandon(e, p), p, target) == Commit(def, e, p, target)
    ensures Commit(def, e, p, target).docs == p.docs
  {
  }

  lemma WrittenThenPruned(before: map<string, StoredDoc>, docs: Docs, undeleted: set<string>)
    ensures var written := before + Stored(docs);
      written - (written.Keys - docs.Keys - undeleted) == LeftOver(before, undeleted) + Stored(docs)
  {
    assert Stored(docs).Keys == docs.Keys;
  }

  lemma {:induction false} NoArrivals(w: Env, actions: seq<Action>, sig: Signal, state: StateId,
      input: Option<Record>, p: Pending)
    requires forall n, c :: w.act(n, c).arrivals == []
    ensures PerformAll(w, actions, sig, state, input, p).p.arrivals == p.arrivals
    decreases |actions|
  {
    if actions != [] {
      var r := Perform(w, actions[0], sig, state, input, p);
      if actions[0].External? {
        var call := Call(actions[0], sig, state, input, p.docs, p.results);
        var reply := w.act(|p.calls|, call);
        EditsExtend(w, sig, p.(calls := p.calls + [call], arrivals := p.arrivals + reply.arrivals), reply.edits);
      }
      if r.failed.None? {
        NoArrivals(w, actions[1..], sig, state, input, r.p);
      }
    }
  }

  class FSMEngine {
    const def: Definition
    const env: Env
    var currentState: StateId
    var documents: Docs
    var results: Results
    var signalQueue: seq<Signal>
    var processing: bool
    var processedSignalsCount: nat
    var initialized: bool
    var emittedEvents: seq<Event>
    var store: Store
    /** The record of the run. */
    var log: Log

    ghost function Snapshot(): Engine
      reads this
    {
      Engine(currentState, documents, results, signalQueue, processing, processedSignalsCount, initialized,
             emittedEvents, store, log)
    }

    ghost predicate Valid()
      reads this
    {
      WellKeyed(documents) && Conserves(Snapshot())
    }

    constructor (def: Definition, env: Env, store: Store)
      ensures Valid() && this.def == def && this.env == env
      ensures Snapshot() == Fresh(def, store)
    {
      this.def, this.env, this.store := def, env, store;
      currentState := def.initial;
      documents, results, signalQueue, processing := map[], map[], [], false;
      processedSignalsCount, initialized, emittedEvents := 0, false, [];
      log := Log([], [], [], [], 0, []);
    }

    ghost function View(t: Transaction): Pending
      reads t, this`log
    {
      Pending(t.documents, t.results, t.events, t.signals, t.arrivals, log.calls)
    }

    ghost predicate IsResult(r: StepResult, took: bool, failed: Option<Failure>)
      reads this
    {
      r == if failed.Some? then Threw(Snapshot(), failed.value) else Done(Snapshot(), took)
    }

    /** `got` reached the queue and was noted in `t`. */
    twostate predicate Received(t: Transaction, got: seq<Signal>)
      reads t, this`signalQueue, this`log
    {
      && t.arrivals == old(t.arrivals) + got
      && signalQueue == old(signalQueue) + got
      && log == old(log).(pushed := old(log).pushed + got, calls := log.calls)
    }

    method ApplyOne(w: Env, t: Transaction, sig: Signal, e: Edit) returns (ok: bool)
      modifies t
      ensures t.arrivals == old(t.arrivals)
      ensures ok ==> ApplyEdit(w, sig, old(View(t)), e) == Some(View(t))
      ensures !ok ==> ApplyEdit(w, sig, old(View(t)), e) == None && View(t) == old(View(t))
    {
      match e {
        case StoreOutput(id, docType, data) =>
          if id in t.documents {
            t.documents := t.documents[id := t.documents[id].(data := t.documents[id].data + data)];
          } else {
            t.documents := t.documents[id := Document(id, docType, data)];
          }
        case SetResult(key, data) =>
          if key in t.documents {
            t.documents := t.documents[key := t.documents[key].(data := data)];
          } else {
            t.results := t.results[key := data];
          }
        case CreateDoc(doc) =>
          if doc.id in t.documents || !w.valid(doc.docType, doc.data) {
            return false;
          }
          t.documents := t.documents[doc.id := doc];
        case UpdateDoc(id, data) =>
          if id !in t.documents {
            return false;
          }
          var merged := t.documents[id].data + data;
          if !w.valid(t.documents[id].docType, merged) {
            return false;
          }
          t.documents := t.documents[id := t.documents[id].(data := merged)];
        case DeleteDoc(id) =>
          t.documents := t.documents - {id};
        case EmitSignal(s) =>
          t.signals := t.signals + [Cascade(sig, s)];
      }
      return true;
    }

    method ExecuteAction(w: Env, t: Transaction, action: Action, sig: Signal, state: StateId, input: Option<Record>)
      returns (failed: Option<Failure>, ghost got: seq<Signal>)
      modifies t, this`signalQueue, this`log
      ensures Work(View(t), failed) == Perform(w, action, sig, state, input, old(View(t)))
      ensures Received(t, got)
    {
      match action {
        case Emit(event, data) =>
          t.events := t.events + [Event(event, data)];
          if event != "" {
            t.signals := t.signals + [Cascade(sig, FsmTransaction.Signal(event, data, None, None, None))];
          }
          return None, [];
        case External(_, _) =>
          var call := Call(action, sig, state, input, t.documents, t.results);
          var reply := w.act(|log.calls|, call);
          log := log.(calls := log.calls + [call], pushed := log.pushed + reply.arrivals);
          signalQueue := signalQueue + reply.arrivals;
          t.arrivals := t.arrivals + reply.arrivals;
          got := reply.arrivals;
          ghost var start := View(t);
          var i := 0;
          while i < |reply.edits|
            invariant i <= |reply.edits|
            invariant ApplyEdits(w, sig, start, reply.edits) == ApplyEdits(w, sig, View(t), reply.edits[i..])
            invariant Received(t, got)
          {
            var ok := ApplyOne(w, t, sig, reply.edits[i]);
            if !ok {
              return Some(ActionFailed), got;
            }
            assert reply.edits[i..][1..] == reply.edits[i + 1..];
            i := i + 1;
          }
          failed := if reply.throws then Some(ActionFailed) else None;
      }
    }

    method RunAll(w: Env, t: Transaction, actions: seq<Action>, sig: Signal, state: StateId, input: Option<Record>)
      returns (failed: Option<Failure>, ghost got: seq<Signal>)
      modifies t, this`signalQueue, this`log
      ensures Work(View(t), failed) == PerformAll(w, actions, sig, state, input, old(View(t)))
      ensures Received(t, got)
    {
      hide Perform;
      got := [];
      var i := 0;
      while i < |actions|
        invariant i <= |actions|
        invariant PerformAll(w, actions, sig, state, input, old(View(t)))
               == PerformAll(w, actions[i..], sig, state, input, View(t))
        invariant Received(t, got)
      {
        ghost var more;
        failed, more := ExecuteAction(w, t, actions[i], sig, state, input);
        Regroup(old(t.arrivals), got, more);
        Regroup(old(signalQueue), got, more);
        Regroup(old(log).pushed, got, more);
        got := got + more;
        if failed.Some? {
          return;
        }
        assert actions[i..][1..] == actions[i + 1..];
        i := i + 1;
      }
      failed := None;
    }

    /** `executeActions` of a transition: seed the input, run the list, keep the input for later states. */
    method RunActionList(w: Env, t: Transaction, actions: seq<Action>, sig: Signal, state: StateId)
      returns (failed: Option<Failure>, ghost got: seq<Signal>)
      modifies t, this`signalQueue, this`log
      ensures Work(View(t), failed) == ExecuteActions(w, actions, sig, state, old(View(t)))
      ensures Received(t, got)
    {
      var input := Carried(t.results);
      if input.None? {
        input := SeedInput(sig);
      }
      failed, got := RunAll(w, t, actions, sig, state, input);
      if failed.None? && input.Some? {
        t.results := t.results[LAST_PREPARE := input.value];
      }
    }

    method AddMissing(w: Env, t: Transaction, docs: seq<Document>) returns (failed: Option<Failure>)
      modifies t`documents
      ensures Work(View(t), failed) == SeedMissing(w, docs, old(View(t)))
    {
      var i := 0;
      while i < |docs|
        invariant i <= |docs|
        invariant SeedMissing(w, docs, old(View(t))) == SeedMissing(w, docs[i..], View(t))
      {
        assert docs[i..][1..] == docs[i + 1..];
        if docs[i].id !in t.documents {
          if !w.valid(docs[i].docType, docs[i].data) {
            return Some(SeedInvalid(docs[i].id));
          }
          t.documents := t.documents[docs[i].id := docs[i]];
        }
        i := i + 1;
      }
      return None;
    }

    method AddAll(w: Env, t: Transaction, docs: seq<Document>) returns (failed: Option<Failure>)
      modifies t`documents
      ensures Work(View(t), failed) == SeedAll(w, docs, old(View(t)))
    {
      var i := 0;
      while i < |docs|
        invariant i <= |docs|
        invariant SeedAll(w, docs, old(View(t))) == SeedAll(w, docs[i..], View(t))
      {
        assert docs[i..][1..] == docs[i + 1..];
        if !w.valid(docs[i].docType, docs[i].data) {
          return Some(SeedInvalid(docs[i].id));
        }
        t.documents := t.documents[docs[i].id := docs[i]];
        i := i + 1;
      }
      return None;
    }

    method Enter(t: Transaction, sig: Signal, target: StateId) returns (failed: Option<Failure>, ghost got: seq<Signal>)
      modifies t, this`signalQueue, this`log
      ensures Work(View(t), failed) == EnterState(def, env, sig, target, old(View(t)))
      ensures Received(t, got)
    {
      failed, got := None, [];
      if target !in def.states {
        return;
      }
      failed := AddMissing(env, t, def.states[target].documents);
      if failed.Some? || def.states[target].entry.None? {
        return;
      }
      failed, got := RunActionList(env, t, def.states[target].entry.value, sig, target);
    }

    /** Transition actions, then the new state, all on the copies. */
    method RunPending(t: Transaction, sig: Signal, tr: Transition, target: StateId)
      returns (failed: Option<Failure>, ghost got: seq<Signal>)
      requires View(t) == StartPending(Snapshot())
      modifies t, this`signalQueue, this`log
      ensures Work(View(t), failed) == RunTransition(def, env, old(Snapshot()), sig, tr, target)
      ensures Received(t, got)
    {
      hide ExecuteActions, EnterState;
      failed, got := None, [];
      if |tr.actions| > 0 {
        failed, got := RunActionList(env, t, tr.actions, sig, currentState);
      }
      if failed.Some? {
        return;
      }
      ghost var more;
      failed, more := Enter(t, sig, target);
      Regroup(old(t.arrivals), got, more);
      Regroup(old(signalQueue), got, more);
      Regroup(old(log).pushed, got, more);
      got := got + more;
    }

    method WriteDocuments()
      requires WellKeyed(documents)
      modifies this`store
      ensures store == old(store).(docs := old(store).docs + Stored(documents))
    {
      var rest := documents.Keys;
      while rest != {}
        invariant rest <= documents.Keys
        invariant store.state == old(store).state
        invariant store.docs.Keys == old(store).docs.Keys + (documents.Keys - rest)
        invariant forall id | id in documents.Keys - rest ::
            store.docs[id] == StoredDoc(documents[id].docType, documents[id].data)
        invariant forall id | id in old(store).docs.Keys - (documents.Keys - rest) ::
            store.docs[id] == old(store).docs[id]
        decreases rest
      {
        var id :| id in rest;
        var doc := documents[id];
        store := store.(docs := store.docs[doc.id := StoredDoc(doc.docType, doc.data)]);
        rest := rest - {id};
      }
      assert store.docs == old(store).docs + Stored(documents);
    }

    /** Every stored id that memory no longer has goes, except those whose deletion fails. */
    method DeleteStale(undeleted: set<string>)
      modifies this`store
      ensures store == old(store).(docs := old(store).docs - (old(store).docs.Keys - documents.Keys - undeleted))
    {
      var stored := store.docs.Keys;
      while stored != {}
        invariant stored <= old(store).docs.Keys
        invariant store.state == old(store).state
        invariant store.docs.Keys ==
          old(store).docs.Keys - (old(store).docs.Keys - stored - documents.Keys - undeleted)
        invariant forall id | id in store.docs :: store.docs[id] == old(store).docs[id]
        decreases stored
      {
        var id :| id in stored;
        stored := stored - {id};
        if id !in documents && id !in undeleted {
          store := store.(docs := store.docs - {id});
        }
      }
      assert store.docs == old(store).docs - (old(store).docs.Keys - documents.Keys - undeleted);
    }

    method PersistDocuments(w: Env) returns (failed: Option<Failure>)
      requires WellKeyed(documents)
      modifies this`store, this`signalQueue, this`log
      ensures IsResult(SaveDocs(w, old(Snapshot())), true, failed)
    {
      var reply := w.save(log.saves);
      log := log.(saves := log.saves + 1, pushed := log.pushed + reply.arrivals);
      signalQueue := signalQueue + reply.arrivals;
      if reply.Broke? {
        store := reply.left;
        return Some(SaveFailed);
      }
      ghost var before := store.docs;
      WriteDocuments();
      DeleteStale(reply.undeleted);
      WrittenThenPruned(before, documents, reply.undeleted);
      return None;
    }

    method PersistExecutionState(w: Env) returns (failed: Option<Failure>)
      modifies this`store, this`signalQueue, this`log
      ensures IsResult(SaveState(w, old(Snapshot())), true, failed)
    {
      var reply := w.save(log.saves);
      log := log.(saves := log.saves + 1, pushed := log.pushed + reply.arrivals);
      signalQueue := signalQueue + reply.arrivals;
      if reply.Broke? {
        store := reply.left;
        return Some(SaveFailed);
      }
      store := store.(state := Some(currentState));
      return None;
    }

    method PersistAll() returns (failed: Option<Failure>)
      requires WellKeyed(documents)
      modifies this`store, this`signalQueue, this`log
      ensures IsResult(SaveAll(env, old(Snapshot())), true, failed)
    {
      failed := PersistDocuments(env);
      if failed.None? {
        failed := PersistExecutionState(env);
      }
    }

    /** The commit: documents, results, state, events and emitted signals, with nothing in between. */
    method CommitPending(t: Transaction, target: StateId)
      modifies this
      ensures Snapshot() == Take(def, old(Snapshot()), View(t), target)
    {
      documents := t.documents;
      results := if target == def.initial then map[] else t.results;
      currentState := target;
      emittedEvents := t.events;
      signalQueue := signalQueue + t.signals;
      log := log.(pushed := log.pushed + t.signals,
        landings := log.landings + [Landing(target, |log.calls|, log.saves, t.signals)]);
    }

    method RunTransaction(sig: Signal, tr: Transition, target: StateId) returns (took: bool, failed: Option<Failure>)
      requires WellKeyed(documents)
      modifies this
      ensures WellKeyed(documents)
      ensures IsResult(Transact(def, env, old(Snapshot()), sig, tr, target), took, failed)
    {
      ghost var started := Snapshot();
      var t := new Transaction(documents, results, []);
      RunTransitionWellKeyed(def, env, started, sig, tr, target);
      ghost var got;
      took := false;
      failed, got := RunPending(t, sig, tr, target);
      hide RunTransition, SaveAll, Commit;
      assert got == t.arrivals;
      assert Snapshot() == Abandon(started, View(t));
      if failed.None? {
        CommitPending(t, target);
        AbandonThenTake(def, started, View(t), target);
        failed := PersistAll();
        took := failed.None?;
      }
    }

    /** `processSingleSignalInner`: pick the transition, resolve its target, run it. */
    method ProcessSingleSignal(sig: Signal) returns (took: bool, failed: Option<Failure>)
      requires WellKeyed(documents)
      modifies this
      ensures WellKeyed(documents)
      ensures IsResult(Step(def, env, old(Snapshot()), sig), took, failed)
    {
      hide Transact, Resolve, Conserves;
      took, failed := false, None;
      if currentState !in def.states {
        return false, Some(InvalidState(currentState));
      }
      var on := Handlers(def.states[currentState]);
      if sig.kind !in on {
        return;
      }
      var transitions := Transitions(on[sig.kind]);
      if |transitions| == 0 {
        return;
      }
      var tr := transitions[0];
      var skips := if sig.context.Some? then sig.context.value.skipStates else [];
      var r := ResolveTarget(def, skips, tr.target);
      ResolutionIsUnique(def, skips, tr.target, r, Resolve(def, skips, tr.target));
      if sig.context.Some? {
        log := log.(skipEvents := log.skipEvents + r.skipped);
      }
      if !r.Landed? {
        return false, Some(SkipFailed(r));
      }
      took, failed := RunTransaction(sig, tr, r.target);
    }

    /** One turn of the drain: count, shift, process. */
    method ProcessNext() returns (took: bool, failed: Option<Failure>)
      requires WellKeyed(documents) && signalQueue != []
      modifies this
      ensures WellKeyed(documents)
      ensures IsResult(Step(def, env, Dequeue(old(Snapshot())), old(signalQueue)[0]), took, failed)
    {
      hide Step;
      var sig := signalQueue[0];
      ghost var before := Snapshot();
      processedSignalsCount := processedSignalsCount + 1;
      signalQueue := signalQueue[1..];
      log := log.(dequeued := log.dequeued + [sig]);
      assert Snapshot() == Dequeue(before);
      took, failed := ProcessSingleSignal(sig);
    }

    /** The result of a drain, told by the engine it left and what it reported. */
    ghost predicate IsDrained(r: DrainResult, took: bool, handled: nat, failed: Option<Failure>)
      reads this
    {
      r == if failed.Some? then Aborted(Snapshot(), failed.value) else Finished(Snapshot(), took, handled)
    }

    method DrainQueue() returns (took: bool, handled: nat, failed: Option<Failure>)
      requires WellKeyed(documents) && processedSignalsCount == 0
      modifies this
      ensures WellKeyed(documents)
      ensures IsDrained(DrainLoop(def, env, old(Snapshot()), false, 0), took, handled, failed)
    {
      hide Step, Conserves;
      took, handled, failed := false, 0, None;
      while |signalQueue| > 0
        invariant WellKeyed(documents) && processedSignalsCount <= MAX_PROCESSED_SIGNALS + 1
        invariant DrainLoop(def, env, old(Snapshot()), false, 0) == DrainLoop(def, env, Snapshot(), took, handled)
        invariant failed == None
        decreases MAX_PROCESSED_SIGNALS + 1 - processedSignalsCount
      {
        if processedSignalsCount > MAX_PROCESSED_SIGNALS {
          processedSignalsCount := processedSignalsCount + 1;
          failed := Some(CascadeLimit);
          return;
        }
        StepKeepsFrame(def, env, Dequeue(Snapshot()), signalQueue[0]);
        var t;
        t, failed := ProcessNext();
        if failed.Some? {
          return;
        }
        handled := handled + 1;
        took := took || t;
      }
    }

    /** `processQueue`: `processing` is cleared however the drain ends. */
    method ProcessQueue() returns (took: bool, handled: nat, failed: Option<Failure>)
      requires Valid()
      modifies this
      ensures Valid() && !processing
      ensures match DrainLoop(def, env, OpenDrain(old(Snapshot())), false, 0)
        case Finished(e, t, n) => failed == None && took == t && handled == n && Snapshot() == CloseDrain(e)
        case Aborted(e, why) => failed == Some(why) && Snapshot() == CloseDrain(e)
    {
      processing := true;
      processedSignalsCount := 0;
      results := results - {LAST_PREPARE};
      DrainCounts(def, env, Snapshot(), false, 0);
      hide DrainLoop;
      took, handled, failed := DrainQueue();
      processing := false;
    }

    /** `signal()`. A signal sent to a busy engine is queued and nothing else. */
    method Signal(sig: Signal) returns (outcome: Outcome)
      requires Valid()
      modifies this
      ensures Valid()
      ensures SendOf(outcome, Snapshot()) == Send(def, env, old(Snapshot()), sig)
      ensures old(processing) ==> signalQueue == old(signalQueue) + [sig] && documents == old(documents)
      ensures !old(processing) ==> !processing && |log.dequeued| - |old(log).dequeued| <= 101
      ensures outcome.WasReturned? ==>
        signalQueue == [] && outcome.signalsProcessed == |log.dequeued| - |old(log).dequeued|
          && outcome.finalState == currentState
    {
      SendConserves(def, env, Snapshot(), sig);
      hide PushedSince, DrainLoop, WellKeyed;
      signalQueue := signalQueue + [sig];
      log := log.(pushed := log.pushed + [sig]);
      PushConserves(old(Snapshot()), Snapshot(), sig);
      if processing {
        return WasQueued;
      }
      hide Conserves;
      var took, handled, failed := ProcessQueue();
      match failed {
        case Some(why) => outcome := WasRaised(why);
        case None => outcome := WasReturned(took, currentState, handled);
      }
    }

    method RunFirstState(w: Env, t: Transaction) returns (failed: Option<Failure>)
      requires forall n, c :: w.act(n, c).arrivals == []
      requires t.arrivals == []
      modifies t, this`signalQueue, this`log
      ensures Work(View(t), failed) == FirstRun(def, w, currentState, old(View(t)))
      ensures Received(t, [])
    {
      failed := None;
      if currentState in def.states {
        failed := AddAll(w, t, def.states[currentState].documents);
        if failed.None? && def.states[currentState].entry.Some? {
          var entry := def.states[currentState].entry.value;
          NoArrivals(w, entry, INIT_SIGNAL, currentState, None, View(t));
          ghost var got;
          failed, got := RunAll(w, t, entry, INIT_SIGNAL, currentState, None);
        }
      }
    }

    /** First run: seed documents and entry actions, on the live fields. */
    method StartFirstState(w: Env) returns (failed: Option<Failure>)
      requires WellKeyed(documents)
      requires forall n, c :: w.act(n, c).arrivals == []
      modifies this`documents, this`results, this`emittedEvents, this`signalQueue, this`log
      ensures WellKeyed(documents)
      ensures var e := old(Snapshot());
        var r := FirstRun(def, w, e.current, Pending(e.docs, e.results, e.events, [], [], e.log.calls));
        failed == r.failed && Snapshot() == InPlace(e, r.p)
    {
      FirstRunWellKeyed(def, w, currentState, Pending(documents, results, emittedEvents, [], [], log.calls));
      var t := new Transaction(documents, results, emittedEvents);
      hide FirstRun;
      failed := RunFirstState(w, t);
      documents, results, emittedEvents := t.documents, t.results, t.events;
      signalQueue := signalQueue + t.signals;
      log := log.(pushed := log.pushed + t.signals);
    }

    /** The result of a start, told by the engine it left and whether it succeeded. */
    ghost predicate IsStart(r: InitResult, ok: bool)
      reads this
    {
      r == if ok then Ready(Snapshot()) else InitFailed(Snapshot())
    }

    method FinishStart(w: Env) returns (ok: bool)
      requires WellKeyed(documents)
      modifies this`store, this`signalQueue, this`log, this`initialized
      ensures IsStart(FinishInit(w, old(Snapshot())), ok)
    {
      hide SaveDocs;
      var failed := PersistDocuments(w);
      if failed.Some? {
        return false;
      }
      initialized := true;
      return true;
    }

    method StartFresh(w: Env) returns (ok: bool)
      requires WellKeyed(documents)
      requires forall n, c :: w.act(n, c).arrivals == []
      modifies this
      ensures WellKeyed(documents)
      ensures IsStart(BeginFirst(def, w, old(Snapshot())), ok)
    {
      hide FirstRun, SaveState, FinishInit;
      var failed := StartFirstState(w);
      if failed.Some? {
        return false;
      }
      failed := PersistExecutionState(w);
      if failed.Some? {
        return false;
      }
      ok := FinishStart(w);
    }

    /** Restore the documents from the store, or run the first state. */
    method RestoreOrBegin(w: Env, known: bool) returns (ok: bool)
      requires WellKeyed(documents) && known == StateKnown(def, store)
      requires forall n, c :: w.act(n, c).arrivals == []
      modifies this
      ensures WellKeyed(documents)
      ensures IsStart(Resume(def, w, old(Snapshot())), ok)
    {
      hide BeginFirst, FinishInit;
      if store.docs != map[] {
        documents := documents + Restored(store.docs, w.unreadable);
        ok := FinishStart(w);
      } else if known {
        ok := FinishStart(w);
      } else {
        ok := StartFresh(w);
      }
    }

    function QuietEnv(): (w: Env)
      ensures w == Quiet(env)
      ensures forall n, c :: w.act(n, c).arrivals == []
    {
      Quiet(env)
    }

    /** `initialize()`; either way documents are saved at the end. */
    method Initialize() returns (ok: bool)
      requires Valid()
      modifies this
      ensures Valid()
      ensures IsStart(FsmRuns.Initialize(def, env, old(Snapshot())), ok)
    {
      InitKeepsLogs(def, env, Snapshot());
      hide Conserves, Resume;
      if initialized || env.loadFails {
        return false;
      }
      var known := store.state.Some? && store.state.value in def.states;
      currentState := if known then store.state.value else currentState;
      var w := QuietEnv();
      ok := RestoreOrBegin(w, known);
    }
  }
}
