/** What the first run of an engine leaves in memory (packages/fsm-engine/fsm-engine.ts:662-702). */
module FsmStart {
  import opened Options
  import opened Sequences
  import opened FsmDefinition
  import opened FsmTransaction
  import opened FsmSeeds
  import opened FsmEdits
  import opened FsmCommit
  import opened FsmRuns

  // ---- the documents of the first state ----

  predicate AllValid(env: Env, docs: seq<Document>) {
    forall i | 0 <= i < |docs| :: env.valid(docs[i].docType, docs[i].data)
  }

  predicate IsLast(docs: seq<Document>, i: nat)
    requires i < |docs|
  {
    forall j | i < j < |docs| :: docs[j].id != docs[i].id
  }

  /** The last document of every id is put in, whatever was there; other ids stay. */
  ghost predicate LastOnesIn(docs: seq<Document>, before: Docs, after: Docs) {
    && (forall i | 0 <= i < |docs| && IsLast(docs, i) :: docs[i].id in after && after[docs[i].id] == docs[i])
    && (forall id | id in after :: (id in before && after[id] == before[id]) || exists i ::
      0 <= i < |docs| && docs[i].id == id)
    && (forall id | id in before :: id in after)
  }

  lemma LastShift(docs: seq<Document>, i: nat)
    requires 0 < i < |docs| && IsLast(docs, i)
    ensures IsLast(docs[1..], i - 1) && docs[1..][i - 1] == docs[i]
  {
  }

  lemma LastOnesMore(docs: seq<Document>, before: Docs, after: Docs)
    requires docs != [] && LastOnesIn(docs[1..], before[docs[0].id := docs[0]], after)
    ensures LastOnesIn(docs, before, after)
  {
    forall i | 0 <= i < |docs| && IsLast(docs, i) ensures docs[i].id in after && after[docs[i].id] == docs[i] {
      if i > 0 {
        LastShift(docs, i);
      }
    }
    forall id | id in after && !(id in before && after[id] == before[id])
      ensures exists i :: 0 <= i < |docs| && docs[i].id == id
    {
      if id != docs[0].id {
        var i :| 0 <= i < |docs[1..]| && docs[1..][i].id == id;
        assert docs[i + 1].id == id;
      }
    }
  }

  lemma {:induction false} SeedAllPuts(env: Env, docs: seq<Document>, p: Pending)
    ensures var w := SeedAll(env, docs, p);
      && w.p == p.(docs := w.p.docs)
      && (w.failed.None? <==> AllValid(env, docs))
      && (w.failed.None? ==> LastOnesIn(docs, p.docs, w.p.docs))
    decreases |docs|
  {
    if docs != [] && env.valid(docs[0].docType, docs[0].data) {
      var q := PutDoc(p, docs[0].id, docs[0]);
      SeedAllPuts(env, docs[1..], q);
      var w := SeedAll(env, docs[1..], q);
      assert AllValid(env, docs[1..]) <==> AllValid(env, docs) by {
        forall i | 0 <= i < |docs| - 1 ensures docs[1..][i] == docs[i + 1] {
        }
        if AllValid(env, docs[1..]) {
          forall i | 0 <= i < |docs| ensures env.valid(docs[i].docType, docs[i].data) {
            if i > 0 { assert docs[i] == docs[1..][i - 1]; }
          }
        }
      }
      if w.failed.None? {
        LastOnesMore(docs, p.docs, w.p.docs);
      }
    }
  }

  // ---- the first run ----

  /** The first run of the state `s`, from `a`, when its documents are valid: `calls` are those made so far and `b` is
      what is in memory afterwards. */
  ghost predicate FirstRunDid(def: Definition, env: Env, a: Engine, b: Engine, seeded: Docs) {
    var n, entry, calls := |a.log.calls|, EntryOf(def, a.current), b.log.calls;
    && LastOnesIn(SeedsOf(def, a.current), a.docs, seeded)
    && |calls| == n + |Foreign(entry)| && a.log.calls <= calls
    && CallsFor(calls, n, Foreign(entry), INIT_SIGNAL, a.current)
    && Chained(env, calls, n, (seeded, a.results), (b.docs, b.results))
    && b.events == a.events + EventsOf(entry)
    && a.queue <= b.queue && AllSentFor(INIT_SIGNAL, Asked(env, entry, calls, n), b.queue[|a.queue|..])
  }

  ghost predicate FirstRunFailed(def: Definition, env: Env, a: Engine, b: Engine, seeded: Docs) {
    var n, entry, calls := |a.log.calls|, Foreign(EntryOf(def, a.current)), b.log.calls;
    && LastOnesIn(SeedsOf(def, a.current), a.docs, seeded)
    && n < |calls| <= n + |entry| && a.log.calls <= calls
    && CallsFor(calls, n, entry[..|calls| - n], INIT_SIGNAL, a.current)
    && ChainFails(env, calls, n, (seeded, a.results))
    && b.store == a.store
  }

  ghost predicate NoInputs(calls: seq<Call>, n: nat) {
    forall k | n <= k < |calls| :: calls[k].input == None
  }

  ghost function FirstWork(def: Definition, env: Env, e: Engine): Work {
    FirstRun(def, env, e.current, Pending(e.docs, e.results, e.events, [], [], e.log.calls))
  }

  ghost function FirstPending(e: Engine): Pending {
    Pending(e.docs, e.results, e.events, [], [], e.log.calls)
  }

  /** Seed documents first, then the entry actions, if there are any. */
  lemma FirstWorkIs(def: Definition, env: Env, e: Engine)
    ensures var w := SeedAll(env, SeedsOf(def, e.current), FirstPending(e));
      FirstWork(def, env, e)
        == if w.failed.Some? then w else PerformAll(env, EntryOf(def, e.current), INIT_SIGNAL, e.current, None, w.p)
  {
    var w := SeedAll(env, SeedsOf(def, e.current), FirstPending(e));
    if e.current !in def.states {
      assert SeedAll(env, [], FirstPending(e)) == Work(FirstPending(e), None);
    }
    assert PerformAll(env, [], INIT_SIGNAL, e.current, None, w.p) == Work(w.p, None);
  }

  lemma EntryDid(def: Definition, env: Env, e: Engine, p: Pending, w: Work)
    requires p == FirstPending(e).(docs := p.docs) && LastOnesIn(SeedsOf(def, e.current), e.docs, p.docs)
    requires w == PerformAll(env, EntryOf(def, e.current), INIT_SIGNAL, e.current, None, p)
    ensures NoInputs(w.p.calls, |e.log.calls|)
    ensures if w.failed.None? then FirstRunDid(def, env, e, InPlace(e, w.p), p.docs)
      else FirstRunFailed(def, env, e, InPlace(e, w.p), p.docs)
  {
    var entry, s := EntryOf(def, e.current), e.current;
    ListRan(env, entry, INIT_SIGNAL, s, None, p);
    ListChained(env, entry, INIT_SIGNAL, s, None, p);
    PerformAllExtends(env, entry, INIT_SIGNAL, s, None, p);
    hide PerformAll, LastOnesIn, EntryOf, SeedsOf, Foreign, EventsOf, Asked, Extends, CallsFor, NoneThrew, CallLeads;
    hide CallFails, AllSentFor;
    var b := InPlace(e, w.p);
    assert b.log.calls == w.p.calls && b.store == e.store && Held(p) == (p.docs, e.results);
    if w.failed.None? {
      assert w.p.emits[0..] == w.p.emits && (e.queue + w.p.emits)[|e.queue|..] == w.p.emits;
      assert (w.p.docs, w.p.results) == Held(w.p);
      hide Chained;
    }
  }

  lemma FirstRunMeans(def: Definition, env: Env, e: Engine) returns (seeded: Docs)
    ensures var w := FirstWork(def, env, e); var b := InPlace(e, w.p);
      && NoInputs(b.log.calls, |e.log.calls|)
      && (!AllValid(env, SeedsOf(def, e.current)) ==> w.failed.Some? && b.log.calls == e.log.calls)
      && (AllValid(env, SeedsOf(def, e.current)) ==>
            if w.failed.None? then FirstRunDid(def, env, e, b, seeded) else FirstRunFailed(def, env, e, b, seeded))
  {
    FirstWorkIs(def, env, e);
    SeedAllPuts(env, SeedsOf(def, e.current), FirstPending(e));
    var w := SeedAll(env, SeedsOf(def, e.current), FirstPending(e));
    seeded := w.p.docs;
    hide FirstWork, SeedAll, PerformAll, LastOnesIn, SeedsOf, EntryOf, FirstRunDid, FirstRunFailed, AllValid;
    if w.failed.None? {
      EntryDid(def, env, e, w.p, FirstWork(def, env, e));
    }
  }

  ghost function SavedStart(quiet: Env, b: Engine): InitResult {
    var r := SaveState(quiet, b);
    if r.Threw? then InitFailed(r.e) else FinishInit(quiet, r.e)
  }

  lemma StartedOver(def: Definition, env: Env, e: Engine)
    requires !e.initialized && !env.loadFails && e.store.docs == map[] && !StateKnown(def, e.store)
    ensures var quiet := Quiet(env); var w := FirstWork(def, quiet, e); var b := InPlace(e, w.p);
      Initialize(def, env, e) ==
        if w.failed.Some? then InitFailed(b) else SavedStart(quiet, b)
  {
    hide FirstRun, SaveState, FinishInit, InPlace;
  }

  /** What is in memory, without the store. */
  ghost predicate SameMemory(a: Engine, b: Engine) {
    b == a.(store := b.store, initialized := b.initialized, log := a.log.(saves := b.log.saves))
  }

  lemma SavesDecide(env: Env, b: Engine)
    ensures var r := SavedStart(Quiet(env), b);
      && SameMemory(b, r.e)
      && (r.Ready? <==> env.save(b.log.saves).Saved? && env.save(b.log.saves + 1).Saved?)
  {
    var quiet := Quiet(env);
    assert quiet.save(b.log.saves).Saved? <==> env.save(b.log.saves).Saved?;
    assert quiet.save(b.log.saves + 1).Saved? <==> env.save(b.log.saves + 1).Saved?;
    QuietSaves(env, b);
    var r := SaveState(quiet, b);
    FinishInitFrame(env, r.e);
  }

  lemma DidStays(def: Definition, env: Env, e: Engine, b: Engine, c: Engine, seeded: Docs)
    requires SameMemory(b, c) && FirstRunDid(def, env, e, b, seeded)
    ensures FirstRunDid(def, env, e, c, seeded)
  {
    hide LastOnesIn, SeedsOf, EntryOf, Foreign, EventsOf, Asked, AllSentFor, Chained, CallsFor;
  }

  /** The first run of a new engine over a store without documents and without a known state: it comes up only if every
      document of the initial state is valid, and then its memory is what the entry actions made, one call after the
      other, of the last of those documents for each id. Otherwise it made the calls up to the one that failed, or none
      at all, or a store call failed. Entry actions get the signal `__init__` and no input. */
  lemma FirstRunLeaves(def: Definition, env: Env, e: Engine) returns (seeded: Docs)
    requires !e.initialized && !env.loadFails && e.store.docs == map[]
    requires e.store.state.None? || e.store.state.value !in def.states
    ensures var r := Initialize(def, env, e); var quiet := Quiet(env);
      var valid := AllValid(env, SeedsOf(def, e.current));
      var saved := env.save(e.log.saves).Saved? && env.save(e.log.saves + 1).Saved?;
      && NoInputs(r.e.log.calls, |e.log.calls|)
      && (!valid ==> r.InitFailed? && r.e.log.calls == e.log.calls && r.e.store == e.store)
      && (r.Ready? ==> valid && saved && FirstRunDid(def, quiet, e, r.e, seeded))
      && (r.InitFailed? && valid ==>
            FirstRunFailed(def, quiet, e, r.e, seeded) || (!saved && FirstRunDid(def, quiet, e, r.e, seeded)))
  {
    var quiet := Quiet(env);
    seeded := FirstRunMeans(def, quiet, e);
    var w := FirstWork(def, quiet, e);
    var b := InPlace(e, w.p);
    assert AllValid(quiet, SeedsOf(def, e.current)) <==> AllValid(env, SeedsOf(def, e.current));
    assert b.log.saves == e.log.saves && b.store == e.store;
    StartedOver(def, env, e);
    SavesDecide(env, b);
    hide FirstWork, AllValid, SeedsOf, Quiet, Initialize, InPlace, StateKnown, FirstRunDid, FirstRunFailed, SavedStart;
    if w.failed.None? && AllValid(env, SeedsOf(def, e.current)) {
      DidStays(def, quiet, e, b, SavedStart(quiet, b).e, seeded);
    }
  }

  /** A start over stored documents, or at a known state, runs no action: nothing but the documents comes back. */
  lemma RestoredRunsNothing(def: Definition, env: Env, e: Engine)
    requires !e.initialized && !env.loadFails
    requires e.store.docs != map[] || (e.store.state.Some? && e.store.state.value in def.states)
    ensures var r := Initialize(def, env, e).e;
      var known := e.store.state.Some? && e.store.state.value in def.states;
      && r.log.calls == e.log.calls && r.events == e.events && r.results == e.results && r.queue == e.queue
      && r.current == (if known then e.store.state.value else e.current)
      && (forall id | id in r.docs && id !in e.docs :: id in e.store.docs && id !in env.unreadable)
      && (forall id | id in e.store.docs && id !in env.unreadable ::
            id in r.docs && r.docs[id] == Document(id, e.store.docs[id].docType, e.store.docs[id].data))
  {
    var state := if StateKnown(def, e.store) then e.store.state.value else e.current;
    var a := e.(current := state, docs := e.docs + Restored(e.store.docs, env.unreadable));
    assert e.store.docs == map[] ==> a.docs == e.docs;
    FinishInitFrame(env, a);
    hide FinishInit, BeginFirst, StateKnown;
  }
}
