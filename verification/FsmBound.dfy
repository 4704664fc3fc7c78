/** The cascade bound is reached: a state that emits the signal it waits for uses up all 101 turns of a drain. */
module FsmBound {
  import opened Options
  import opened FsmDefinition
  import opened SkipChain
  import opened FsmTransaction
  import opened FsmRuns

  const GO := Signal("go", None, None, None, None)

  function Turn(): Transition {
    Transition("s", [Emit("go", None)])
  }

  function Looping(): State {
    State([], None, Some(map["go" := Single(Turn())]), false)
  }

  function Spinner(): Definition {
    Definition("spin", "s", map["s" := Looping()], None)
  }

  /** An environment in which every store call succeeds and nobody else signals. */
  ghost predicate Calm(env: Env) {
    forall n: nat :: env.save(n) == Saved([], {})
  }

  lemma EmitWork(env: Env, p: Pending, input: Option<Record>)
    requires p.events == [] && p.emits == []
    ensures PerformAll(env, [Emit("go", None)], GO, "s", input, p)
      == Work(p.(events := [Event("go", None)], emits := [GO]), None)
  {
    var actions := [Emit("go", None)];
    assert actions[1..] == [];
  }

  /** A carried input is put back where it was. */
  lemma StoredAlready(p: Pending)
    ensures Carried(p.results).Some? ==> p.results[LAST_PREPARE := Carried(p.results).value] == p.results
  {
  }

  lemma TurnWork(env: Env, e: Engine)
    requires e.current == "s" && e.queue == []
    ensures RunTransition(Spinner(), env, e, GO, Turn(), "s")
      == Work(StartPending(e).(events := [Event("go", None)], emits := [GO]), None)
  {
    var p := StartPending(e);
    assert Carried(p.results).Some? || InputFor(GO, p.results) == None;
    EmitWork(env, p, InputFor(GO, p.results));
    StoredAlready(p);
  }

  lemma SavesCalmly(env: Env, e: Engine)
    requires Calm(env)
    ensures var r := SaveAll(env, e);
      && r.Done? && r.took && r.e.current == e.current && r.e.queue == e.queue && r.e.processed == e.processed
      && r.e.log.dequeued == e.log.dequeued
  {
    var e1 := SaveDocs(env, e).e;
    assert e.queue + [] == e.queue && e1.queue + [] == e1.queue;
  }

  lemma OneTurn(env: Env, e: Engine)
    requires Calm(env) && e.current == "s" && e.queue == []
    ensures var r := Step(Spinner(), env, e, GO);
      && r.Done? && r.took && r.e.current == "s" && r.e.queue == [GO]
      && r.e.processed == e.processed && r.e.log.dequeued == e.log.dequeued
  {
    NoContextNoSkips(Spinner(), GO, "s");
    TurnWork(env, e);
    hide RunTransition, Resolve, SaveAll;
    var p := StartPending(e).(events := [Event("go", None)], emits := [GO]);
    SavesCalmly(env, Commit(Spinner(), e, p, "s"));
  }

  lemma {:induction false} Spins(env: Env, e: Engine, took: bool, handled: nat)
    requires Calm(env) && e.current == "s" && e.queue == [GO] && e.processed <= MAX_PROCESSED_SIGNALS + 1
    ensures var r := DrainLoop(Spinner(), env, e, took, handled);
      && r.Aborted? && r.why == CascadeLimit && r.e.queue == [GO]
      && |r.e.log.dequeued| == |e.log.dequeued| + (MAX_PROCESSED_SIGNALS + 1 - e.processed)
    decreases MAX_PROCESSED_SIGNALS + 1 - e.processed
  {
    if e.processed <= MAX_PROCESSED_SIGNALS {
      OneTurn(env, Dequeue(e));
      hide Step;
      var r := Step(Spinner(), env, Dequeue(e), GO);
      Spins(env, r.e, took || r.took, handled + 1);
    }
  }

  /** One signal to the idle spinner: 101 signals are handled, the 102nd raises, and it is still in the queue. */
  lemma BoundIsReached(env: Env, e: Engine)
    requires Calm(env) && e.current == "s" && e.queue == [] && !e.processing
    ensures var r := Send(Spinner(), env, e, GO);
      r.Raised? && r.why == CascadeLimit && |r.e.log.dequeued| == |e.log.dequeued| + 101 && r.e.queue == [GO]
  {
    Spins(env, OpenDrain(Push(e, GO)), false, 0);
    hide DrainLoop;
  }
}
