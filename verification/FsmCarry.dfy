/** Input carried from one cascaded signal to the next (packages/fsm-engine/fsm-engine.ts:795, 1131-1179, 1030-1038). */
module FsmCarry {
  import opened Options
  import opened FsmDefinition
  import opened SkipChain
  import opened FsmTransaction
  import opened FsmRuns

  /** Every call made from `from` on was given the input `b`. */
  ghost predicate AllSee(calls: seq<Call>, from: nat, b: Record) {
    forall k | from <= k < |calls| :: calls[k].input == Some(b)
  }

  /** Once an input is carried, a whole transition runs on it and stores it again. */
  lemma TransitionCarries(def: Definition, env: Env, e: Engine, sig: Signal, tr: Transition, target: StateId, b: Record)
    requires Carried(e.results) == Some(b)
    ensures var w := RunTransition(def, env, e, sig, tr, target);
      && e.log.calls <= w.p.calls
      && AllSee(w.p.calls, |e.log.calls|, b)
      && (w.failed.None? ==> Carried(w.p.results) == Some(b))
  {
    var p0 := StartPending(e);
    if tr.actions != [] {
      ExecuteActionsShares(env, tr.actions, sig, e.current, p0);
    }
    var w1 := if tr.actions == [] then Work(p0, None) else ExecuteActions(env, tr.actions, sig, e.current, p0);
    if w1.failed.None? && target in def.states {
      SeedMissingKeeps(env, def.states[target].documents, w1.p);
      var w2 := SeedMissing(env, def.states[target].documents, w1.p);
      if w2.failed.None? && def.states[target].entry.Some? {
        ExecuteActionsShares(env, def.states[target].entry.value, sig, target, w2.p);
      }
    }
  }

  /** Under a carried input a commit either lands on the initial state or leaves the input carried. */
  lemma CommitCarries(def: Definition, env: Env, e: Engine, sig: Signal, b: Record)
    requires Carried(e.results) == Some(b) && PastActions(Step(def, env, e, sig))
    ensures var r := Step(def, env, e, sig);
      && e.log.calls <= r.e.log.calls && AllSee(r.e.log.calls, |e.log.calls|, b)
      && |r.e.log.landings| > |e.log.landings|
      && var l := r.e.log.landings[|e.log.landings|];
         Carried(r.e.results) == Some(b) || (l.state == def.initial && l.callsBefore == |r.e.log.calls|)
  {
    var tr, target, p, skipped := CommitTakesAll(def, env, e, sig);
    hide Step, SaveAll, Resolve, IsResolution, Arrived, ArrivedInSaves;
    TransitionCarries(def, env, e, sig, tr, target, b);
    hide RunTransition, AllSee, Carried;
  }

  lemma FailureCarries(def: Definition, env: Env, e: Engine, sig: Signal, b: Record)
    requires Carried(e.results) == Some(b) && !PastActions(Step(def, env, e, sig))
    ensures var r := Step(def, env, e, sig);
      e.log.calls <= r.e.log.calls && AllSee(r.e.log.calls, |e.log.calls|, b) && Carried(r.e.results) == Some(b)
  {
    var shape := StepShape(def, env, e, sig);
    SaveAllThrowsSaveFailed(def, env, e, shape);
    hide Step, SaveAll, Resolve, Carried, Extends;
    match shape {
      case Failed(tr, skipped, target, p, why) =>
        TransitionCarries(def, env, e, sig, tr, target, b);
        hide RunTransition;
      case _ =>
    }
  }

  /** One step under a carried input: every action sees it, and it stays unless a commit lands on the initial state. */
  lemma StepCarries(def: Definition, env: Env, e: Engine, sig: Signal, b: Record)
    requires Carried(e.results) == Some(b)
    ensures var r := Step(def, env, e, sig);
      && e.log.calls <= r.e.log.calls
      && AllSee(r.e.log.calls, |e.log.calls|, b)
      && (Carried(r.e.results) == Some(b) ||
            (|r.e.log.landings| > |e.log.landings| &&
             r.e.log.landings[|e.log.landings|].state == def.initial
               && r.e.log.landings[|e.log.landings|].callsBefore == |r.e.log.calls|))
  {
    hide Step, Carried, AllSee;
    if PastActions(Step(def, env, e, sig)) {
      CommitCarries(def, env, e, sig, b);
    } else {
      FailureCarries(def, env, e, sig, b);
    }
  }

  /** No commit made since `from` reached the initial state before call number `k`. */
  ghost predicate NotBackBefore(def: Definition, landings: seq<Landing>, from: nat, k: nat) {
    forall i | from <= i < |landings| :: landings[i].state == def.initial ==> landings[i].callsBefore > k
  }

  /** Carried input stability. Within a drain, once an input is carried, every later action sees that same
      input, whatever data the cascaded signals bring, until a commit lands on the initial state. */
  lemma {:induction false} DrainCarries(def: Definition, env: Env, e: Engine, took: bool, handled: nat, b: Record,
      k: nat)
    requires Carried(e.results) == Some(b)
    requires |e.log.calls| <= k < |DrainLoop(def, env, e, took, handled).e.log.calls|
    requires NotBackBefore(def, DrainLoop(def, env, e, took, handled).e.log.landings, |e.log.landings|, k)
    ensures DrainLoop(def, env, e, took, handled).e.log.calls[k].input == Some(b)
    decreases MAX_PROCESSED_SIGNALS + 1 - e.processed
  {
    if e.queue != [] && e.processed <= MAX_PROCESSED_SIGNALS {
      var e1 := Dequeue(e);
      StepKeepsFrame(def, env, e1, e.queue[0]);
      StepCarries(def, env, e1, e.queue[0], b);
      var r := Step(def, env, e1, e.queue[0]);
      if r.Done? {
        DrainGrows(def, env, r.e, took || r.took, handled + 1);
        var last := DrainLoop(def, env, r.e, took || r.took, handled + 1);
        if k < |r.e.log.calls| {
          assert last.e.log.calls[k] == r.e.log.calls[k];
        } else {
          assert last.e.log.landings[..|r.e.log.landings|] == r.e.log.landings;
          DrainCarries(def, env, r.e, took || r.took, handled + 1, b, k);
        }
      }
    }
  }

  /** A new drain starts with nothing carried, so its first signal's actions see that signal's own data. */
  lemma DrainStartsClean(e: Engine, sig: Signal)
    ensures Carried(OpenDrain(Push(e, sig)).results) == None
    ensures InputFor(sig, OpenDrain(Push(e, sig)).results) == SeedInput(sig)
    ensures forall k | k != "__lastPrepare" :: k in OpenDrain(Push(e, sig)).results <==> k in e.results
    ensures forall k | k != "__lastPrepare" && k in e.results :: OpenDrain(Push(e, sig)).results[k] == e.results[k]
  {
  }

  /** A transition runs some action list. */
  predicate RunsActions(def: Definition, tr: Transition, target: StateId) {
    tr.actions != [] || (target in def.states && def.states[target].entry.Some?)
  }

  /** An input made from a signal parses again exactly when its payload is an object. */
  lemma SeedParses(sig: Signal)
    requires sig.data.Some?
    ensures Parses(SeedInput(sig).value) <==> Payload(sig.data.value).Object?
  {
    var r := SeedInput(sig).value;
    assert "task" !in r && "config" in r && r["config"] == Payload(sig.data.value);
    assert "headers" in r ==> IsTextMap(r["headers"]);
  }

  /** What the results carry on to the next signal, once the input made from `sig` is stored. */
  ghost predicate CarriesOn(sig: Signal, results: Results) {
    LAST_PREPARE in results && SeedInput(sig).Some? && results[LAST_PREPARE] == SeedInput(sig).value
  }

  /** Every call was given the input made from `sig`. */
  ghost predicate SeesSeed(calls: seq<Call>, from: nat, sig: Signal) {
    forall k | from <= k < |calls| :: calls[k].input == SeedInput(sig)
  }

  /** With the input of `sig` stored, an action list still runs on the input of `sig`, whether or not it parses. */
  lemma StoredSeedIsInput(sig: Signal, results: Results)
    requires CarriesOn(sig, results) || Carried(results) == None
    ensures InputFor(sig, results) == SeedInput(sig)
  {
    hide SeedInput, Parses;
  }

  lemma ListCarriesOn(env: Env, actions: seq<Action>, sig: Signal, state: StateId, p: Pending)
    requires (CarriesOn(sig, p.results) || Carried(p.results) == None) && sig.data.Some?
    ensures var w := ExecuteActions(env, actions, sig, state, p);
      p.calls <= w.p.calls && SeesSeed(w.p.calls, |p.calls|, sig) && (w.failed.None? ==> CarriesOn(sig, w.p.results))
  {
    StoredSeedIsInput(sig, p.results);
    ExecuteActionsShares(env, actions, sig, state, p);
    CallsGrow(env, p, ExecuteActions(env, actions, sig, state, p).p);
    assert SeedInput(sig).Some?;
    hide ExecuteActions, SeedInput, InputFor, Extends, Carried;
  }

  lemma EnterCarriesOn(def: Definition, env: Env, sig: Signal, target: StateId, p: Pending)
    requires (CarriesOn(sig, p.results) || Carried(p.results) == None) && sig.data.Some?
    ensures var w := EnterState(def, env, sig, target, p);
      && p.calls <= w.p.calls && SeesSeed(w.p.calls, |p.calls|, sig)
      && (w.failed.None? && (CarriesOn(sig, p.results) || (target in def.states && def.states[target].entry.Some?)) ==>
            CarriesOn(sig, w.p.results))
  {
    hide ExecuteActions, CarriesOn, Carried;
    if target in def.states {
      SeedMissingKeeps(env, def.states[target].documents, p);
      hide SeedMissing;
      var w := SeedMissing(env, def.states[target].documents, p);
      if w.failed.None? && def.states[target].entry.Some? {
        ListCarriesOn(env, def.states[target].entry.value, sig, target, w.p);
      }
    }
  }

  lemma SeesSeedTwice(a: seq<Call>, b: seq<Call>, from: nat, sig: Signal)
    requires from <= |a| && a <= b && SeesSeed(a, from, sig) && SeesSeed(b, |a|, sig)
    ensures SeesSeed(b, from, sig)
  {
  }

  /** A first transition runs on its signal's own input throughout and stores it if it runs any actions. */
  lemma TransitionCarriesOn(def: Definition, env: Env, e: Engine, sig: Signal, tr: Transition, target: StateId)
    requires Carried(e.results) == None && sig.data.Some?
    ensures var w := RunTransition(def, env, e, sig, tr, target);
      && SeesSeed(w.p.calls, |e.log.calls|, sig)
      && (w.failed.None? && RunsActions(def, tr, target) ==> CarriesOn(sig, w.p.results))
  {
    var p0 := StartPending(e);
    if tr.actions != [] {
      ListCarriesOn(env, tr.actions, sig, e.current, p0);
    }
    hide ExecuteActions, EnterState, CarriesOn, Carried;
    var w1 := if tr.actions == [] then Work(p0, None) else ExecuteActions(env, tr.actions, sig, e.current, p0);
    if w1.failed.None? {
      EnterCarriesOn(def, env, sig, target, w1.p);
      SeesSeedTwice(w1.p.calls, EnterState(def, env, sig, target, w1.p).p.calls, |e.log.calls|, sig);
    }
  }

  /** What the next signal's actions then see. */
  lemma CarriedToNext(sig: Signal, next: Signal, results: Results)
    requires sig.data.Some? && CarriesOn(sig, results)
    ensures InputFor(next, results) == if Payload(sig.data.value).Object? then SeedInput(sig) else SeedInput(next)
  {
    SeedParses(sig);
    hide SeedInput, Parses, Payload;
  }

  lemma NothingCarried(next: Signal, results: Results)
    requires LAST_PREPARE !in results || Carried(results) == None
    ensures InputFor(next, results) == SeedInput(next)
  {
    hide SeedInput, Parses;
  }

  /** Without an action list the results stay as they were. */
  lemma NoActionsNoResults(def: Definition, env: Env, e: Engine, sig: Signal, tr: Transition, target: StateId)
    requires !RunsActions(def, tr, target)
    ensures RunTransition(def, env, e, sig, tr, target).p.results == e.results
  {
    if target in def.states {
      SeedMissingKeeps(env, def.states[target].documents, StartPending(e));
    }
  }

  /** What the first commit of a drain carries on, for a signal that brings data: that data exactly if its payload is
      an object, some action list ran and the commit did not land on the initial state; otherwise the next signal's
      actions see that signal's own data. An array payload is stored too but never parses again. */
  lemma FirstCommitCarries(def: Definition, env: Env, e: Engine, sig: Signal, next: Signal)
    returns (tr: Transition, target: StateId)
    requires Carried(e.results) == None && sig.data.Some?
    requires PastActions(Step(def, env, e, sig))
    ensures e.current in def.states && Select(def, e.current, sig.kind) == Some(tr)
    ensures var r := Step(def, env, e, sig);
      && r.e.current == target
      && (forall k | |e.log.calls| <= k < |r.e.log.calls| :: r.e.log.calls[k].input == SeedInput(sig))
      && InputFor(next, r.e.results) ==
           if Payload(sig.data.value).Object? && target != def.initial && RunsActions(def, tr, target)
           then SeedInput(sig)
           else SeedInput(next)
  {
    var p, skipped;
    tr, target, p, skipped := CommitTakesAll(def, env, e, sig);
    hide Step, SaveAll, Resolve, IsResolution, Arrived, ArrivedInSaves, Select;
    TransitionCarriesOn(def, env, e, sig, tr, target);
    if RunsActions(def, tr, target) {
      hide RunTransition, SeedInput, Payload, CarriesOn, InputFor, RunsActions;
      if target != def.initial {
        CarriedToNext(sig, next, p.results);
      } else {
        NothingCarried(next, map[]);
      }
    } else {
      NoActionsNoResults(def, env, e, sig, tr, target);
      hide RunTransition, SeedInput, Payload, CarriesOn, InputFor, RunsActions;
      NothingCarried(next, if target == def.initial then map[] else e.results);
    }
  }

  /** The array case happens: two cascaded signals, two different inputs. */
  lemma ArrayPayloadIsLost() returns (first: Signal, second: Signal)
    ensures first.data.Some? && second.data.Some?
    ensures InputFor(second, map[LAST_PREPARE := SeedInput(first).value]) == SeedInput(second)
    ensures SeedInput(second) != SeedInput(first)
  {
    first := Signal("A", Some(map["payload" := Array([])]), None, None, None);
    second := Signal("B", Some(map["x" := Null]), None, None, None);
    SeedParses(first);
    assert SeedInput(first).value["config"] == Array([]);
    assert SeedInput(second).value["config"] == Object(map["x" := Null]);
  }

  /** The input made from a signal: none without data; otherwise its payload, when that is an object or a list, or
      else all its data, with its body and its headers if it has them, and nothing besides. */
  lemma SeedMeans(sig: Signal)
    ensures var r := SeedInput(sig);
      && (r.None? <==> sig.data.None?)
      && (r.Some? ==>
            && r.value.Keys == {"config"} + (if sig.body.Some? then {"body"} else {})
                 + (if sig.headers.Some? then {"headers"} else {})
            && r.value["config"] == (
                 if "payload" in sig.data.value
                   && (sig.data.value["payload"].Object? || sig.data.value["payload"].Array?)
                 then sig.data.value["payload"] else Object(sig.data.value))
            && (sig.body.Some? ==> r.value["body"] == Text(sig.body.value))
            && (sig.headers.Some? ==>
                  && r.value["headers"].Object? && r.value["headers"].fields.Keys == sig.headers.value.Keys
                  && forall h | h in sig.headers.value :: r.value["headers"].fields[h] == Text(sig.headers.value[h])))
  {
  }
}
