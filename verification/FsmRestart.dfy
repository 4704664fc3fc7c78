/** The store mirrors the engine, and a restart gives it back (packages/fsm-engine/fsm-engine.ts:579-702, 2583-2626). */
module FsmRestart {
  import opened Options
  import opened FsmDefinition
  import opened FsmValidator
  import opened FsmTransaction
  import opened FsmRuns

  /** Every map entry sits under its document's own id. */
  ghost predicate WellKeyed(docs: Docs) {
    forall id | id in docs :: docs[id].id == id
  }

  /** The store holds exactly the documents and the state in memory. */
  ghost predicate Synced(e: Engine) {
    e.store == Store(Stored(e.docs), Some(e.current))
  }

  /** Store calls succeed and documents can be read back. */
  ghost predicate Faithful(env: Env) {
    && (forall n :: env.save(n).Saved? && env.save(n).undeleted == {})
    && !env.loadFails && env.unreadable == {}
  }

  // ---- documents stay under their ids ----

  lemma {:induction false} EditsWellKeyed(env: Env, sig: Signal, p: Pending, edits: seq<Edit>)
    requires WellKeyed(p.docs)
    ensures WellKeyed(ApplyEdits(env, sig, p, edits).p.docs)
    decreases |edits|
  {
    if edits != [] {
      match ApplyEdit(env, sig, p, edits[0]) {
        case None =>
        case Some(q) => EditsWellKeyed(env, sig, q, edits[1..]);
      }
    }
  }

  lemma {:induction false} PerformAllWellKeyed(env: Env, actions: seq<Action>, sig: Signal, state: StateId,
      input: Option<Record>, p: Pending)
    requires WellKeyed(p.docs)
    ensures WellKeyed(PerformAll(env, actions, sig, state, input, p).p.docs)
    decreases |actions|
  {
    if actions != [] {
      var w := Perform(env, actions[0], sig, state, input, p);
      if actions[0].External? {
        var call := Call(actions[0], sig, state, input, p.docs, p.results);
        var reply := env.act(|p.calls|, call);
        EditsWellKeyed(env, sig, p.(calls := p.calls + [call], arrivals := p.arrivals + reply.arrivals), reply.edits);
      }
      if w.failed.None? {
        PerformAllWellKeyed(env, actions[1..], sig, state, input, w.p);
      }
    }
  }

  lemma {:induction false} SeedMissingWellKeyed(env: Env, docs: seq<Document>, p: Pending)
    requires WellKeyed(p.docs)
    ensures WellKeyed(SeedMissing(env, docs, p).p.docs)
    decreases |docs|
  {
    if docs != [] && (docs[0].id in p.docs || env.valid(docs[0].docType, docs[0].data)) {
      SeedMissingWellKeyed(env, docs[1..], if docs[0].id in p.docs then p else PutDoc(p, docs[0].id, docs[0]));
    }
  }

  lemma {:induction false} SeedAllWellKeyed(env: Env, docs: seq<Document>, p: Pending)
    requires WellKeyed(p.docs)
    ensures WellKeyed(SeedAll(env, docs, p).p.docs)
    decreases |docs|
  {
    if docs != [] && env.valid(docs[0].docType, docs[0].data) {
      SeedAllWellKeyed(env, docs[1..], PutDoc(p, docs[0].id, docs[0]));
    }
  }

  lemma RunTransitionWellKeyed(def: Definition, env: Env, e: Engine, sig: Signal, tr: Transition, target: StateId)
    requires WellKeyed(e.docs)
    ensures WellKeyed(RunTransition(def, env, e, sig, tr, target).p.docs)
  {
    var p0 := StartPending(e);
    PerformAllWellKeyed(env, tr.actions, sig, e.current, InputFor(sig, p0.results), p0);
    var w1 := if tr.actions == [] then Work(p0, None) else ExecuteActions(env, tr.actions, sig, e.current, p0);
    if target in def.states {
      SeedMissingWellKeyed(env, def.states[target].documents, w1.p);
      var w2 := SeedMissing(env, def.states[target].documents, w1.p);
      if def.states[target].entry.Some? {
        PerformAllWellKeyed(env, def.states[target].entry.value, sig, target, InputFor(sig, w2.p.results), w2.p);
      }
    }
  }

  // ---- the mirror ----

  lemma SaveAllSyncs(env: Env, e: Engine)
    requires Faithful(env)
    ensures var r := SaveAll(env, e); r.Done? && Synced(r.e) && r.e.docs == e.docs && r.e.current == e.current
  {
    var r := SaveDocs(env, e);
    assert r.e.store.docs == Stored(e.docs);
  }

  /** A commit makes the store agree, whatever it held before; a step without a commit leaves it alone. */
  lemma StepSyncs(def: Definition, env: Env, e: Engine, sig: Signal)
    requires Faithful(env) && WellKeyed(e.docs)
    ensures var r := Step(def, env, e, sig);
      && WellKeyed(r.e.docs)
      && (r.Threw? ==> !r.why.SaveFailed?)
      && (r.Done? && r.took ==> Synced(r.e))
      && (Synced(e) ==> Synced(r.e))
  {
    var shape := StepShape(def, env, e, sig);
    hide Step;
    if shape.Took? {
      RunTransitionWellKeyed(def, env, e, sig, shape.tr, shape.target);
      SaveAllSyncs(env, Commit(def, Skipped(e, shape.skipped), shape.p, shape.target));
    } else {
      ThrowTakesNothing(def, env, e, sig);
    }
  }

  lemma {:induction false} DrainSyncs(def: Definition, env: Env, e: Engine, took: bool, handled: nat)
    requires Faithful(env) && WellKeyed(e.docs)
    ensures var r := DrainLoop(def, env, e, took, handled);
      && WellKeyed(r.e.docs)
      && (Synced(e) || |r.e.log.landings| > |e.log.landings| ==> Synced(r.e))
    decreases MAX_PROCESSED_SIGNALS + 1 - e.processed
  {
    if e.queue != [] && e.processed <= MAX_PROCESSED_SIGNALS {
      StepSyncs(def, env, Dequeue(e), e.queue[0]);
      StepKeepsFrame(def, env, Dequeue(e), e.queue[0]);
      var r := Step(def, env, Dequeue(e), e.queue[0]);
      if r.Done? {
        DrainSyncs(def, env, r.e, took || r.took, handled + 1);
      }
    }
  }

  /** After a signal that committed anything, also when it raised after that, the store holds exactly what is in memory,
      stale ids gone; a signal that committed nothing never spoils that. */
  lemma SendSyncs(def: Definition, env: Env, e: Engine, sig: Signal)
    requires Faithful(env) && WellKeyed(e.docs)
    ensures var r := Send(def, env, e, sig);
      && WellKeyed(r.e.docs)
      && (Synced(e) || |r.e.log.landings| > |e.log.landings| ==> Synced(r.e))
  {
    if !e.processing {
      DrainSyncs(def, env, OpenDrain(Push(e, sig)), false, 0);
      hide DrainLoop;
    }
  }

  lemma FinishInitSyncs(env: Env, e: Engine)
    requires Faithful(env)
    ensures var r := FinishInit(Quiet(env), e);
      && r.Ready?
      && r.e == e.(initialized := true, log := e.log.(saves := e.log.saves + 1),
        store := e.store.(docs := Stored(e.docs)))
  {
    QuietSaves(env, e);
    var quiet := Quiet(env);
    assert quiet.save(e.log.saves) == Saved([], {});
    var r := SaveDocs(quiet, e);
    assert r.e.store.docs == Stored(e.docs);
  }

  lemma StoredRestored(docs: Docs)
    requires WellKeyed(docs)
    ensures Restored(Stored(docs), {}) == docs
  {
  }

  lemma NothingStored(docs: Docs)
    ensures Stored(docs) == map[] ==> docs == map[]
  {
    assert Stored(docs).Keys == docs.Keys;
  }

  /** Restart round trip. A new engine over the store of a mirrored one comes up at the same state with the
      same documents, runs no action and writes nothing new, when that state is in the definition. */
  lemma RestartRoundTrip(def: Definition, env: Env, e: Engine)
    requires Faithful(env) && WellKeyed(e.docs) && Synced(e) && e.current in def.states
    ensures var r := Initialize(def, env, Restarted(def, e));
      && r.Ready?
      && r.e.current == e.current && r.e.docs == e.docs
      && r.e.log.calls == e.log.calls && r.e.log.landings == e.log.landings
      && r.e.results == map[] && r.e.queue == [] && r.e.events == []
      && r.e.store == e.store && Synced(r.e)
  {
    var reborn := Restarted(def, e).(current := e.current);
    NothingStored(e.docs);
    if e.store.docs == map[] {
      FinishInitSyncs(env, reborn);
    } else {
      StoredRestored(e.docs);
      assert map[] + Restored(e.store.docs, {}) == e.docs;
      FinishInitSyncs(env, reborn.(docs := map[] + Restored(e.store.docs, {})));
    }
  }

  /** The condition is needed: a state that is not in the definition is not given back (unless it is the
      initial name, which a new engine takes anyway). */
  lemma RestartNeedsKnownState(def: Definition, env: Env, e: Engine)
    requires Faithful(env) && Synced(e) && e.current !in def.states && e.current != def.initial
    ensures Initialize(def, env, Restarted(def, e)).e.current == def.initial
    ensures Initialize(def, env, Restarted(def, e)).e.current != e.current
  {
    InitChoosesState(def, env, Restarted(def, e));
  }

  // ---- stored documents that cannot be read ----

  /** What is left in the store by a start: every document that could be read, or whose deletion failed. */
  function Surviving(stored: map<string, StoredDoc>, unreadable: set<string>,
      undeleted: set<string>): map<string, StoredDoc> {
    map id | id in stored && (id !in unreadable || id in undeleted) :: stored[id]
  }

  lemma SurvivingIsSaved(stored: map<string, StoredDoc>, unreadable: set<string>, undeleted: set<string>)
    ensures LeftOver(stored, undeleted) + Stored(Restored(stored, unreadable))
      == Surviving(stored, unreadable, undeleted)
  {
  }

  lemma AllSurvive(stored: map<string, StoredDoc>, unreadable: set<string>, undeleted: set<string>)
    ensures Surviving(stored, unreadable, undeleted) == stored
      <==> forall id | id in stored :: id !in unreadable || id in undeleted
  {
    var left := Surviving(stored, unreadable, undeleted);
    if left == stored {
      forall id | id in stored ensures id !in unreadable || id in undeleted {
        assert id in left;
      }
    }
  }

  lemma StartedAs(def: Definition, env: Env, e: Engine)
    requires !e.initialized && !env.loadFails && e.docs == map[] && e.store.docs != map[]
    ensures var state := if StateKnown(def, e.store) then e.store.state.value else e.current;
      Initialize(def, env, e)
        == FinishInit(Quiet(env), e.(current := state, docs := Restored(e.store.docs, env.unreadable)))
  {
    assert map[] + Restored(e.store.docs, env.unreadable) == Restored(e.store.docs, env.unreadable);
    hide FinishInit, BeginFirst, Restored;
  }

  lemma FinishSaves(env: Env, e: Engine)
    requires env.save(e.log.saves).Saved?
    ensures var r := FinishInit(Quiet(env), e);
      && r.Ready? && r.e.docs == e.docs && r.e.current == e.current
      && r.e.store == e.store.(docs := LeftOver(e.store.docs, env.save(e.log.saves).undeleted) + Stored(e.docs))
  {
    assert Quiet(env).save(e.log.saves) == Saved([], env.save(e.log.saves).undeleted);
    hide LeftOver, Stored;
  }

  /** Exactly which documents survive a start of a new engine over a store that holds some: one that cannot be read is
      left out and then deleted as stale, unless that deletion fails. The others stay as they are. */
  lemma StartKeepsReadable(def: Definition, env: Env, e: Engine)
    requires !e.initialized && !env.loadFails && e.docs == map[] && e.store.docs != map[]
    requires env.save(e.log.saves).Saved?
    ensures var r := Initialize(def, env, e);
      && r.Ready?
      && r.e.current == (if StateKnown(def, e.store) then e.store.state.value else e.current)
      && r.e.docs == Restored(e.store.docs, env.unreadable)
      && r.e.store == e.store.(docs := Surviving(e.store.docs, env.unreadable, env.save(e.log.saves).undeleted))
      && (r.e.store == e.store <==>
            forall id | id in e.store.docs :: id !in env.unreadable || id in env.save(e.log.saves).undeleted)
  {
    var state := if StateKnown(def, e.store) then e.store.state.value else e.current;
    StartedAs(def, env, e);
    SurvivingIsSaved(e.store.docs, env.unreadable, env.save(e.log.saves).undeleted);
    AllSurvive(e.store.docs, env.unreadable, env.save(e.log.saves).undeleted);
    FinishSaves(env, e.(current := state, docs := Restored(e.store.docs, env.unreadable)));
    hide Initialize, FinishInit, Restored, Stored, LeftOver, StateKnown, Surviving, Quiet;
  }

  /** Store calls succeed; documents may be unreadable. */
  ghost predicate Storing(env: Env) {
    !env.loadFails && forall n :: env.save(n).Saved? && env.save(n).undeleted == {}
  }

  function Readable(docs: Docs, unreadable: set<string>): Docs {
    map id | id in docs && id !in unreadable :: docs[id]
  }

  lemma ReadableIsRestored(docs: Docs, unreadable: set<string>)
    requires WellKeyed(docs)
    ensures Restored(Stored(docs), unreadable) == Readable(docs, unreadable)
    ensures WellKeyed(Readable(docs, unreadable))
    ensures Surviving(Stored(docs), unreadable, {}) == Stored(Readable(docs, unreadable))
  {
  }

  lemma AllReadable(docs: Docs, unreadable: set<string>)
    ensures Readable(docs, unreadable) == docs <==> forall id | id in docs :: id !in unreadable
  {
    if Readable(docs, unreadable) == docs {
      forall id | id in docs ensures id !in unreadable {
        assert id in Readable(docs, unreadable);
      }
    }
  }

  /** A restart over a mirrored engine's store gives back exactly the documents that can be read, and all of them only
      when every one can; what could not be read does not come back either when it could be read again later. */
  lemma RestartDropsUnreadable(def: Definition, env: Env, later: Env, e: Engine)
    requires Storing(env) && Faithful(later) && WellKeyed(e.docs) && Synced(e) && e.current in def.states
      && e.docs != map[]
    ensures var r := Initialize(def, env, Restarted(def, e));
      && r.Ready? && r.e.current == e.current && r.e.docs == Readable(e.docs, env.unreadable)
      && (r.e.docs == e.docs <==> forall id | id in e.docs :: id !in env.unreadable)
      && WellKeyed(r.e.docs) && Synced(r.e)
      && Initialize(def, later, Restarted(def, r.e)).e.docs == r.e.docs
  {
    NothingStored(e.docs);
    StartKeepsReadable(def, env, Restarted(def, e));
    ReadableIsRestored(e.docs, env.unreadable);
    AllReadable(e.docs, env.unreadable);
    hide Initialize, Stored, Restored, Readable, Surviving, WellKeyed, Faithful;
    RestartRoundTrip(def, later, Initialize(def, env, Restarted(def, e)).e);
  }

  lemma FirstRunWellKeyed(def: Definition, env: Env, state: StateId, p: Pending)
    requires WellKeyed(p.docs)
    ensures WellKeyed(FirstRun(def, env, state, p).p.docs)
  {
    if state in def.states {
      SeedAllWellKeyed(env, def.states[state].documents, p);
      var w := SeedAll(env, def.states[state].documents, p);
      if def.states[state].entry.Some? {
        PerformAllWellKeyed(env, def.states[state].entry.value, INIT_SIGNAL, state, None, w.p);
      }
    }
  }

  /** With documents in the store: they are kept, and the stored state stays as it is. */
  lemma RestoreSyncs(def: Definition, env: Env, e: Engine)
    requires Faithful(env) && e.docs == map[] && e.store.docs != map[]
    ensures var r := Resume(def, Quiet(env), e);
      WellKeyed(r.e.docs) && r.Ready? && (Synced(r.e) <==> e.store.state == Some(e.current))
  {
    FinishInitSyncs(env, e.(docs := e.docs + Restored(e.store.docs, {})));
    hide FinishInit, BeginFirst;
  }

  lemma BeginSyncs(def: Definition, env: Env, e: Engine)
    requires Faithful(env) && WellKeyed(e.docs)
    ensures var r := BeginFirst(def, Quiet(env), e); WellKeyed(r.e.docs) && (r.Ready? ==> Synced(r.e))
  {
    var quiet := Quiet(env);
    var p0 := Pending(e.docs, e.results, e.events, [], [], e.log.calls);
    var w := FirstRun(def, quiet, e.current, p0);
    FirstRunWellKeyed(def, quiet, e.current, p0);
    hide FirstRun;
    var e2 := InPlace(e, w.p);
    QuietSaves(env, e2);
    assert quiet.save(e2.log.saves) == Saved([], {});
    FinishInitSyncs(env, SaveState(quiet, e2).e);
    hide FinishInit;
  }

  /** With an empty store and a known state there is nothing to do; with neither, the first state runs. */
  lemma EmptySyncs(def: Definition, env: Env, e: Engine)
    requires Faithful(env) && e.docs == map[] && e.store.docs == map[]
    requires StateKnown(def, e.store) ==> e.store.state == Some(e.current)
    ensures var r := Resume(def, Quiet(env), e); WellKeyed(r.e.docs) && (r.Ready? ==> Synced(r.e))
  {
    if StateKnown(def, e.store) {
      FinishInitSyncs(env, e);
      hide FinishInit, BeginFirst;
    } else {
      hide StateKnown;
      BeginSyncs(def, env, e);
      hide FinishInit, BeginFirst;
    }
  }

  /** Starting a new engine: the store agrees afterwards exactly when it named a known state, or was empty,
      or already named the initial state. Documents beside an unknown state are kept, the state is not saved. */
  lemma InitSyncs(def: Definition, env: Env, e: Engine)
    requires Faithful(env) && !e.initialized && e.docs == map[] && e.current == def.initial
    ensures var r := Initialize(def, env, e);
      && WellKeyed(r.e.docs)
      && (r.Ready? ==>
            (Synced(r.e) <==> StateKnown(def, e.store) || e.store.docs == map[] || e.store.state == Some(def.initial)))
  {
    var e1 := if StateKnown(def, e.store) then e.(current := e.store.state.value) else e;
    hide Resume, Synced;
    if e.store.docs != map[] {
      RestoreSyncs(def, env, e1);
    } else {
      EmptySyncs(def, env, e1);
    }
  }

  /** An engine that is up, on a visited state, and mirrored. */
  ghost predicate Mirrored(def: Definition, e: Engine) {
    Safe(def, e) && Synced(e) && WellKeyed(e.docs) && !e.processing && Conserves(e)
  }

  lemma RestartMirrors(def: Definition, env: Env, e: Engine)
    requires Faithful(env) && Mirrored(def, e)
    ensures var r := Initialize(def, env, Restarted(def, e));
      && Mirrored(def, r.e)
      && r.Ready? && r.e.current == e.current && r.e.docs == e.docs && r.e.log.calls == e.log.calls
  {
    RestartRoundTrip(def, env, e);
    InitKeepsLogs(def, env, Restarted(def, e));
    hide Initialize, WellKeyed, Reachable;
  }

  lemma AfterMirrors(def: Definition, env: Env, e: Engine, input: Input)
    requires Accepted(def) && Faithful(env) && Mirrored(def, e)
    ensures Mirrored(def, After(def, env, e, input))
  {
    hide Send, Initialize, Accepted, Reachable, WellKeyed;
    match input {
      case Signalled(sig) =>
        SendSyncs(def, env, e, sig);
        SendConserves(def, env, e, sig);
        SendIsSafe(def, env, e, sig);
        hide PushedSince;
      case Seeded(results) =>
      case Restart => RestartMirrors(def, env, e);
    }
  }

  /** Once an engine is up and mirrored, it stays mirrored over every run of signals, seeds and restarts, so a
      restart at any moment gives back its state and documents without running an action. */
  lemma {:induction false} RunThenRestart(def: Definition, env: Env, e: Engine, inputs: seq<Input>)
    requires Accepted(def) && Faithful(env)
    requires Safe(def, e) && Synced(e) && WellKeyed(e.docs) && e.initialized && !e.processing && Conserves(e)
    ensures var last := Run(def, env, e, inputs);
      && Safe(def, last) && Synced(last) && WellKeyed(last.docs) && !last.processing && Conserves(last)
      && var r := Initialize(def, env, Restarted(def, last));
        r.Ready? && r.e.current == last.current && r.e.docs == last.docs && r.e.log.calls == last.log.calls
    decreases |inputs|
  {
    hide Safe, Synced, WellKeyed, Conserves, After, Initialize, Accepted, Restarted, Faithful;
    if inputs != [] {
      RunThenRestart(def, env, e, inputs[..|inputs| - 1]);
      AfterMirrors(def, env, Run(def, env, e, inputs[..|inputs| - 1]), inputs[|inputs| - 1]);
    }
    RestartMirrors(def, env, Run(def, env, e, inputs));
  }
}
