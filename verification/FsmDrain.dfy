/** A drain told signal by signal (packages/fsm-engine/fsm-engine.ts:704-740, 789-824). */
module FsmDrain {
  import opened Options
  import opened FsmDefinition
  import opened FsmTransaction
  import opened FsmRuns

  /** Signal number `i` of a drain, taken from the front of the queue that `es[i]` holds. */
  ghost function Turn(def: Definition, env: Env, e: Engine): StepResult {
    if e.queue == [] then Done(e, false) else Step(def, env, Dequeue(e), e.queue[0])
  }

  /** The engines between the signals of a drain: each one is what the first signal in the queue of the one before
      leads to, and all signals but perhaps the last one were processed. */
  ghost predicate Turns(def: Definition, env: Env, es: seq<Engine>) {
    && es != []
    && (forall i | 0 <= i < |es| - 1 :: es[i].queue != [] && es[i + 1] == Turn(def, env, es[i]).e)
    && (forall i | 0 <= i < |es| - 2 :: Turn(def, env, es[i]).Done?)
  }

  /** All signals were processed. */
  ghost predicate AllDone(def: Definition, env: Env, es: seq<Engine>) {
    forall i | 0 <= i < |es| - 1 :: Turn(def, env, es[i]).Done?
  }

  ghost predicate SomeTook(def: Definition, env: Env, es: seq<Engine>) {
    exists i :: 0 <= i < |es| - 1 && Turn(def, env, es[i]).Done? && Turn(def, env, es[i]).took
  }

  /** How a drain ended after the signals that `es` tells. */
  ghost predicate EndsAs(def: Definition, env: Env, es: seq<Engine>, took: bool, handled: nat, r: DrainResult)
    requires es != []
  {
    var n := |es| - 1;
    match r
    case Finished(e, t, h) =>
      && e == es[n] && es[n].queue == [] && AllDone(def, env, es)
      && h == handled + n && (t <==> took || SomeTook(def, env, es))
    case Aborted(e, CascadeLimit) =>
      && e == es[n].(processed := es[n].processed + 1) && AllDone(def, env, es)
      && es[n].queue != [] && n == 101 - es[0].processed
    case Aborted(e, why) => n > 0 && Turn(def, env, es[n - 1]) == Threw(e, why) && e == es[n]
  }

  lemma TurnsMore(def: Definition, env: Env, e: Engine, rest: seq<Engine>)
    requires e.queue != [] && Turn(def, env, e).Done? && Turns(def, env, rest) && rest[0] == Turn(def, env, e).e
    ensures var es := [e] + rest;
      && Turns(def, env, es)
      && (AllDone(def, env, rest) ==> AllDone(def, env, es))
      && (SomeTook(def, env, es) <==> Turn(def, env, e).took || SomeTook(def, env, rest))
      && es[|es| - 1] == rest[|rest| - 1] && (|rest| > 1 ==> es[|es| - 2] == rest[|rest| - 2])
  {
    hide Turn;
    var es := [e] + rest;
    forall i | 0 <= i < |es| - 1 ensures es[i] == if i == 0 then e else rest[i - 1] {
    }
    if i :| 0 <= i < |rest| - 1 && Turn(def, env, rest[i]).Done? && Turn(def, env, rest[i]).took {
      assert es[i + 1] == rest[i];
    }
    if SomeTook(def, env, es) && !Turn(def, env, e).took {
      var i :| 0 <= i < |es| - 1 && Turn(def, env, es[i]).Done? && Turn(def, env, es[i]).took;
      assert es[i] == rest[i - 1];
    }
    assert Turn(def, env, e).took ==> es[0] == e;
  }

  lemma EndsMore(def: Definition, env: Env, e: Engine, rest: seq<Engine>, took: bool, handled: nat, r: DrainResult)
    requires e.queue != [] && Turn(def, env, e).Done? && Turns(def, env, rest) && rest[0] == Turn(def, env, e).e
    requires rest[0].processed == e.processed + 1
    requires EndsAs(def, env, rest, took || Turn(def, env, e).took, handled + 1, r)
    ensures EndsAs(def, env, [e] + rest, took, handled, r)
  {
    TurnsMore(def, env, e, rest);
    hide Turn, Turns, AllDone, SomeTook;
  }

  lemma {:induction false} DrainTurns(def: Definition, env: Env, e: Engine, took: bool, handled: nat)
    returns (es: seq<Engine>)
    requires e.processed <= MAX_PROCESSED_SIGNALS + 1
    ensures Turns(def, env, es) && es[0] == e && |es| <= MAX_PROCESSED_SIGNALS + 2 - e.processed
    ensures EndsAs(def, env, es, took, handled, DrainLoop(def, env, e, took, handled))
    decreases MAX_PROCESSED_SIGNALS + 1 - e.processed
  {
    es := [e];
    if e.queue != [] && e.processed <= MAX_PROCESSED_SIGNALS {
      StepKeepsFrame(def, env, Dequeue(e), e.queue[0]);
      var r := Step(def, env, Dequeue(e), e.queue[0]);
      hide Step, StepFrame;
      assert r == Turn(def, env, e);
      if r.Threw? {
        es := [e, r.e];
      } else {
        assert r.e.processed == e.processed + 1;
        var rest := DrainTurns(def, env, r.e, took || r.took, handled + 1);
        TurnsMore(def, env, e, rest);
        EndsMore(def, env, e, rest, took, handled, DrainLoop(def, env, r.e, took || r.took, handled + 1));
        es := [e] + rest;
      }
    }
  }

  lemma SendEnds(def: Definition, env: Env, a: Engine, es: seq<Engine>, r: DrainResult)
    requires a.processed == 0 && Turns(def, env, es) && es[0] == a && EndsAs(def, env, es, false, 0, r)
    ensures var n := |es| - 1; var last := es[n];
      && r.e.docs == last.docs && r.e.current == last.current && r.e.queue == last.queue && r.e.store == last.store
      && (r.Finished? <==> last.queue == [] && AllDone(def, env, es))
      && (r.Finished? ==> r.handled == n && (r.took <==> SomeTook(def, env, es)))
      && (r.Aborted? && AllDone(def, env, es) ==> r.why == CascadeLimit && n == 101 && last.queue != [])
      && (r.Aborted? && !AllDone(def, env, es) ==> n > 0 && Turn(def, env, es[n - 1]) == Threw(last, r.why))
  {
    hide Turn, SomeTook;
    if r.Aborted? && r.why != CascadeLimit {
      assert !AllDone(def, env, es);
    }
  }

  lemma Opened(e: Engine, sig: Signal)
    ensures var a := OpenDrain(Push(e, sig));
      && a.queue == e.queue + [sig] && a.docs == e.docs && a.current == e.current && a.processed == 0
      && a.results == e.results - {LAST_PREPARE}
  {
  }

  lemma SendIsDrain(def: Definition, env: Env, e: Engine, sig: Signal)
    requires !e.processing
    ensures Send(def, env, e, sig) ==
      match DrainLoop(def, env, OpenDrain(Push(e, sig)), false, 0)
      case Finished(f, took, handled) => Returned(CloseDrain(f), took, f.current, handled)
      case Aborted(f, why) => Raised(CloseDrain(f), why)
    ensures forall f :: CloseDrain(f) == f.(processing := false)
  {
    hide DrainLoop;
  }

  /** A signal sent to an idle engine starts with it at the end of the queue and the carried input gone, and then
      processes the queue from the front, at most 101 signals. It returns exactly when the queue ran empty and every
      signal was processed; otherwise it raises what the last signal threw, or the cascade error with signals left. */
  lemma SendTurns(def: Definition, env: Env, e: Engine, sig: Signal) returns (es: seq<Engine>)
    requires !e.processing
    ensures Turns(def, env, es) && |es| <= 102
    ensures es[0].queue == e.queue + [sig] && es[0].docs == e.docs && es[0].current == e.current
    ensures es[0].results == e.results - {LAST_PREPARE}
    ensures var r := Send(def, env, e, sig); var n := |es| - 1; var last := es[n];
      && r.e.docs == last.docs && r.e.current == last.current && r.e.queue == last.queue && r.e.store == last.store
      && (r.Returned? <==> last.queue == [] && AllDone(def, env, es))
      && (r.Returned? ==> r.signalsProcessed == n && (r.transitionTaken <==> SomeTook(def, env, es)))
      && (r.Raised? && AllDone(def, env, es) ==> r.why == CascadeLimit && n == 101 && last.queue != [])
      && (r.Raised? && !AllDone(def, env, es) ==> n > 0 && Turn(def, env, es[n - 1]) == Threw(last, r.why))
  {
    var a := OpenDrain(Push(e, sig));
    es := DrainTurns(def, env, a, false, 0);
    Opened(e, sig);
    hide Turn, DrainLoop, Turns, EndsAs, AllDone, SomeTook, Send, OpenDrain, CloseDrain, Push;
    SendEnds(def, env, a, es, DrainLoop(def, env, a, false, 0));
    SendIsDrain(def, env, e, sig);
  }
}
