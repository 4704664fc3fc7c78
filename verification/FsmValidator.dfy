/** Static checks on a definition (packages/fsm-engine/validator.ts). */
module FsmValidator {
  import opened Options
  import opened FsmDefinition

  datatype Problem =
    | NoInitialState
    | NoFinalState
    | Unreachable(states: seq<StateId>)
    | MissingTarget(state: StateId, event: string, target: StateId)
    | Stuck(states: seq<StateId>)
    | UndefinedDocType(name: string)

  ghost predicate SomeFinal(def: Definition) {
    exists s :: s in def.states && def.states[s].final
  }

  ghost predicate TargetMissing(def: Definition, s: StateId, event: string, target: StateId) {
    s in def.states && Leads(def.states[s], event, target) && target !in def.states
  }

  predicate IsStuck(st: State) {
    !st.final && |Handlers(st)| == 0
  }

  ghost predicate Refers(def: Definition, docType: string) {
    exists s, i :: s in def.states && 0 <= i < |def.states[s].documents| &&
      def.states[s].documents[i].docType == docType
  }

  /** What acceptance means, said without the algorithm. */
  ghost predicate Accepted(def: Definition) {
    && def.initial in def.states
    && SomeFinal(def)
    && (forall s | s in def.states :: Reachable(def, s))
    && (forall s, event, target | s in def.states && Leads(def.states[s], event, target) :: target in def.states)
    && (forall s | s in def.states :: !IsStuck(def.states[s]))
    && (def.documentTypes.Some? ==> forall t | Refers(def, t) :: t in def.documentTypes.value)
  }

  /** The problem is there, and it is reported in full. */
  ghost predicate Holds(def: Definition, p: Problem) {
    match p
    case NoInitialState => def.initial !in def.states
    case NoFinalState => !SomeFinal(def)
    case Unreachable(u) => u != [] && forall s :: s in u <==> s in def.states && !Reachable(def, s)
    case MissingTarget(s, e, t) => TargetMissing(def, s, e, t)
    case Stuck(u) => u != [] && forall s :: s in u <==> s in def.states && IsStuck(def.states[s])
    case UndefinedDocType(t) => def.documentTypes.Some? && Refers(def, t) && t !in def.documentTypes.value
  }

  /** Which check a problem comes from. */
  datatype Kind = KInitial | KFinal | KUnreachable | KMissing | KStuck | KDocType

  function KindOf(p: Problem): Kind {
    match p
    case NoInitialState => KInitial
    case NoFinalState => KFinal
    case Unreachable(_) => KUnreachable
    case MissingTarget(_, _, _) => KMissing
    case Stuck(_) => KStuck
    case UndefinedDocType(_) => KDocType
  }

  /** The two list-valued problems are reported in some order of their states. */
  predicate SameReport(q: Problem, p: Problem) {
    q == p || (q.Unreachable? && p.Unreachable?) || (q.Stuck? && p.Stuck?)
  }

  ghost predicate Reported(errors: seq<Problem>, p: Problem) {
    exists q :: q in errors && SameReport(q, p)
  }

  /** `errors` holds true problems of the kinds `ks` only, and every true problem of those kinds. */
  ghost predicate CompleteForAll(def: Definition, errors: seq<Problem>, ks: set<Kind>) {
    (forall p | p in errors :: Holds(def, p) && KindOf(p) in ks) &&
    (forall p | Holds(def, p) && KindOf(p) in ks :: Reported(errors, p))
  }

  ghost predicate CompleteFor(def: Definition, errors: seq<Problem>, k: Kind) {
    CompleteForAll(def, errors, {k})
  }

  /** Every name the search can meet: the bound on its work. */
  ghost function Universe(def: Definition): set<StateId> {
    {def.initial} +
    set s, event, t | s in def.states && event in Handlers(def.states[s]) &&
      t in Transitions(Handlers(def.states[s])[event]) :: t.target
  }

  lemma EdgeInUniverse(def: Definition, a: StateId, b: StateId)
    requires Edge(def, a, b)
    ensures b in Universe(def)
  {
    var event :| Leads(def.states[a], event, b);
    var ts := Transitions(Handlers(def.states[a])[event]);
    var i :| 0 <= i < |ts| && ts[i].target == b;
    assert ts[i] in ts;
  }

  /** A set that holds the initial state and is closed under edges holds every reachable state. */
  lemma {:induction false} ClosedCovers(def: Definition, visited: set<StateId>, p: seq<StateId>)
    requires Walk(def, p)
    requires def.initial != "" ==> def.initial in visited
    requires forall a, b | a in visited && Edge(def, a, b) && b != "" :: b in visited
    ensures p[|p| - 1] in visited
    decreases |p|
  {
    if |p| > 1 {
      var q := p[..|p| - 1];
      assert Walk(def, q);
      ClosedCovers(def, visited, q);
      assert Edge(def, p[|p| - 2], p[|p| - 1]);
    }
  }

  lemma TargetIsReachable(def: Definition, state: StateId, event: string, j: nat)
    requires state in def.states && Reachable(def, state)
    requires event in Handlers(def.states[state]) && j < |Transitions(Handlers(def.states[state])[event])|
    ensures var target := Transitions(Handlers(def.states[state])[event])[j].target;
      target in Universe(def) && (target != "" ==> Reachable(def, target))
  {
    var target := Transitions(Handlers(def.states[state])[event])[j].target;
    assert Leads(def.states[state], event, target);
    assert Edge(def, state, target);
    EdgeInUniverse(def, state, target);
    if target != "" {
      ReachableStep(def, state, target);
    }
  }

  /** The body of the search for one state: queue each target that is not visited yet. */
  method PushTargets(def: Definition, state: StateId, visited: set<StateId>, queue: seq<StateId>)
    returns (out: seq<StateId>)
    requires state in def.states && Reachable(def, state)
    ensures forall s | s in queue :: s in out
    ensures forall s | s in out :: s in queue || (s in Universe(def) && (s != "" ==> Reachable(def, s)))
    ensures forall b | Edge(def, state, b) :: b in visited || b in out
  {
    hide Universe, Reachable;
    out := queue;
    var handlers := Handlers(def.states[state]);
    var events := handlers.Keys;
    while events != {}
      invariant events <= handlers.Keys
      invariant forall s | s in queue :: s in out
      invariant forall s | s in out :: s in queue || (s in Universe(def) && (s != "" ==> Reachable(def, s)))
      invariant forall e, b | e in handlers.Keys - events && Leads(def.states[state], e, b) :: b in visited || b in out
      decreases events
    {
      var e :| e in events;
      var ts := Transitions(handlers[e]);
      ghost var start := out;
      for j := 0 to |ts|
        invariant forall s | s in start :: s in out
        invariant forall s | s in out :: s in queue || (s in Universe(def) && (s != "" ==> Reachable(def, s)))
        invariant forall k | 0 <= k < j :: ts[k].target in visited || ts[k].target in out
      {
        if ts[j].target !in visited {
          TargetIsReachable(def, state, e, j);
          out := out + [ts[j].target];
        }
      }
      events := events - {e};
    }
  }

  /** Breadth-first search; a name may sit in the queue several times. */
  method CheckReachability(def: Definition) returns (reachable: set<StateId>, unreachable: seq<StateId>)
    ensures forall s :: s in reachable <==> Reachable(def, s)
    ensures forall s :: s in unreachable <==> s in def.states && !Reachable(def, s)
  {
    var visited: set<StateId> := {};
    var queue := [def.initial];
    if def.initial != "" {
      assert Walk(def, [def.initial]);
    }
    while |queue| > 0
      invariant forall s | s in visited :: s != "" && Reachable(def, s) && s in Universe(def)
      invariant forall s | s in queue :: s in Universe(def) && (s != "" ==> Reachable(def, s))
      invariant def.initial == "" || def.initial in visited || def.initial in queue
      invariant forall a, b | a in visited && Edge(def, a, b) && b != "" :: b in visited || b in queue
      decreases Universe(def) - visited, |queue|
    {
      var state := queue[0];
      ghost var was := queue;
      queue := queue[1..];
      assert forall s | s in was :: s == state || s in queue;
      if state == "" || state in visited {
        continue;
      }
      ghost var before := visited;
      visited := visited + {state};
      if state !in def.states || def.states[state].on.None? {
        continue;
      }
      var st := def.states[state];
      queue := PushTargets(def, state, visited, queue);
    }
    forall s ensures s in visited <==> Reachable(def, s) {
      if Reachable(def, s) {
        var p :| Walk(def, p) && p[|p| - 1] == s;
        ClosedCovers(def, visited, p);
      }
    }
    reachable := visited;
    unreachable := [];
    var rest := def.states.Keys;
    while rest != {}
      invariant rest <= def.states.Keys
      invariant forall s :: s in unreachable <==> s in def.states.Keys - rest && s !in visited
      decreases rest
    {
      var s :| s in rest;
      rest := rest - {s};
      if s !in visited {
        unreachable := unreachable + [s];
      }
    }
  }

  /** `p` names one of the first `n` transitions of `state` on `event`, and its target is missing. */
  ghost predicate FoundUpTo(def: Definition, state: StateId, event: string, ts: seq<Transition>, n: nat, p: Problem) {
    p.MissingTarget? && p.state == state && p.event == event && p.target !in def.states &&
    exists k | 0 <= k < n && k < |ts| :: ts[k].target == p.target
  }

  method MissingTargetsOf(def: Definition, state: StateId) returns (errors: seq<Problem>)
    requires state in def.states
    ensures forall p :: p in errors <==> p.MissingTarget? && p.state == state && Holds(def, p)
  {
    errors := [];
    var handlers := Handlers(def.states[state]);
    var events := handlers.Keys;
    while events != {}
      invariant events <= handlers.Keys
      invariant forall p :: p in errors <==>
          p.MissingTarget? && p.state == state && p.event !in events && Holds(def, p)
      decreases events
    {
      var event :| event in events;
      var ts := Transitions(handlers[event]);
      ghost var start := errors;
      for j := 0 to |ts|
        invariant forall p :: p in errors <==> p in start || FoundUpTo(def, state, event, ts, j, p)
      {
        if ts[j].target !in def.states {
          errors := errors + [MissingTarget(state, event, ts[j].target)];
        }
      }
      events := events - {event};
    }
  }

  method MissingTargets(def: Definition) returns (errors: seq<Problem>)
    ensures CompleteFor(def, errors, KMissing)
  {
    errors := [];
    var rest := def.states.Keys;
    while rest != {}
      invariant rest <= def.states.Keys
      invariant forall p :: p in errors <==> p.MissingTarget? && p.state !in rest && Holds(def, p)
      decreases rest
    {
      var s :| s in rest;
      var more := MissingTargetsOf(def, s);
      errors := errors + more;
      rest := rest - {s};
    }
  }

  method StuckStates(def: Definition) returns (stuck: seq<StateId>)
    ensures forall s :: s in stuck <==> s in def.states && IsStuck(def.states[s])
  {
    stuck := [];
    var rest := def.states.Keys;
    while rest != {}
      invariant rest <= def.states.Keys
      invariant forall s :: s in stuck <==> s in def.states.Keys - rest && IsStuck(def.states[s])
      decreases rest
    {
      var s :| s in rest;
      rest := rest - {s};
      if IsStuck(def.states[s]) {
        stuck := stuck + [s];
      }
    }
  }

  /** One of the states in `among` lists a document of type `docType`. */
  ghost predicate RefersAmong(def: Definition, among: set<StateId>, docType: string) {
    exists s, i ::
      s in among && s in def.states && 0 <= i < |def.states[s].documents| &&
      def.states[s].documents[i].docType == docType
  }

  method ReferencedTypes(def: Definition) returns (types: set<string>)
    ensures forall t :: t in types <==> Refers(def, t)
  {
    types := {};
    var rest := def.states.Keys;
    while rest != {}
      invariant rest <= def.states.Keys
      invariant forall t :: t in types <==> RefersAmong(def, def.states.Keys - rest, t)
      decreases rest
    {
      var s :| s in rest;
      ghost var start := types;
      var docs := def.states[s].documents;
      for i := 0 to |docs|
        invariant forall t :: t in types <==> t in start || exists k | 0 <= k < i :: docs[k].docType == t
      {
        types := types + {docs[i].docType};
      }
      rest := rest - {s};
    }
    forall t ensures RefersAmong(def, def.states.Keys, t) <==> Refers(def, t) {
      if Refers(def, t) {
        var s, i :| s in def.states && 0 <= i < |def.states[s].documents| && def.states[s].documents[i].docType == t;
      }
    }
  }

  method UndefinedTypes(def: Definition, types: set<string>, defined: set<string>) returns (errors: seq<Problem>)
    requires def.documentTypes == Some(defined) && forall t :: t in types <==> Refers(def, t)
    ensures CompleteFor(def, errors, KDocType)
  {
    errors := [];
    var rest := types;
    while rest != {}
      invariant rest <= types
      invariant forall p :: p in errors <==> p.UndefinedDocType? && p.name in types - rest - defined
      decreases rest
    {
      var t :| t in rest;
      rest := rest - {t};
      if t !in defined {
        errors := errors + [UndefinedDocType(t)];
      }
    }
  }

  method CutOffStates(def: Definition) returns (errors: seq<Problem>)
    ensures CompleteFor(def, errors, KUnreachable)
  {
    errors := [];
    var _, unreachable := CheckReachability(def);
    if |unreachable| > 0 {
      assert unreachable[0] in unreachable;
      errors := [Unreachable(unreachable)];
    }
    forall p | Holds(def, p) && p.Unreachable? ensures Reported(errors, p) {
      assert p.states[0] in p.states;
      assert errors[0] in errors;
    }
  }

  method DeadStates(def: Definition) returns (errors: seq<Problem>)
    ensures CompleteFor(def, errors, KStuck)
  {
    errors := [];
    var stuck := StuckStates(def);
    if |stuck| > 0 {
      assert stuck[0] in stuck;
      errors := [Stuck(stuck)];
    }
    forall p | Holds(def, p) && p.Stuck? ensures Reported(errors, p) {
      assert p.states[0] in p.states;
      assert errors[0] in errors;
    }
  }

  lemma ReportedInBoth(part: seq<Problem>, a: seq<Problem>, b: seq<Problem>, p: Problem)
    requires (part == a || part == b) && Reported(part, p)
    ensures Reported(a + b, p)
  {
    var q :| q in part && SameReport(q, p);
    assert q in a + b;
  }

  /** Joining complete reports of separate kinds keeps both complete. */
  lemma JoinReports(def: Definition, a: seq<Problem>, b: seq<Problem>, j: set<Kind>, k: Kind)
    requires CompleteForAll(def, a, j) && CompleteFor(def, b, k)
    ensures CompleteForAll(def, a + b, j + {k})
  {
    hide Holds, Reported, KindOf;
    forall p | Holds(def, p) && KindOf(p) in j + {k} ensures Reported(a + b, p) {
      if KindOf(p) == k {
        ReportedInBoth(b, a, b, p);
      } else {
        ReportedInBoth(a, a, b, p);
      }
    }
  }

  method MissingEnds(def: Definition) returns (errors: seq<Problem>)
    ensures CompleteForAll(def, errors, {KInitial, KFinal})
  {
    errors := [];
    if def.initial !in def.states {
      errors := [NoInitialState];
    }
    var hasFinal := exists s | s in def.states :: def.states[s].final;
    if !hasFinal {
      errors := errors + [NoFinalState];
    }
    forall p | Holds(def, p) && KindOf(p) in {KInitial, KFinal} ensures Reported(errors, p) {
      assert p in errors && SameReport(p, p);
    }
  }

  const ALL_KINDS := {KInitial, KFinal, KUnreachable, KMissing, KStuck, KDocType}

  /** Any finite set can be written as a list. */
  lemma {:induction false} Listed(picked: set<StateId>) returns (u: seq<StateId>)
    ensures forall s :: s in u <==> s in picked
    decreases picked
  {
    if picked == {} {
      u := [];
    } else {
      var s :| s in picked;
      var rest := Listed(picked - {s});
      u := [s] + rest;
    }
  }

  lemma ProblemIfRejected(def: Definition) returns (p: Problem)
    requires !Accepted(def)
    ensures Holds(def, p)
  {
    if def.initial !in def.states {
      p := NoInitialState;
    } else if !SomeFinal(def) {
      p := NoFinalState;
    } else if s :| s in def.states && !Reachable(def, s) {
      var u := Listed(set x | x in def.states && !Reachable(def, x));
      assert s in u;
      p := Unreachable(u);
    } else if s, e, t :| s in def.states && Leads(def.states[s], e, t) && t !in def.states {
      p := MissingTarget(s, e, t);
    } else if s :| s in def.states && IsStuck(def.states[s]) {
      var u := Listed(set x | x in def.states && IsStuck(def.states[x]));
      assert s in u;
      p := Stuck(u);
    } else {
      var t :| Refers(def, t) && t !in def.documentTypes.value;
      p := UndefinedDocType(t);
    }
  }

  lemma AcceptedIffNoProblem(def: Definition)
    ensures Accepted(def) <==> forall p :: !Holds(def, p)
  {
    if !Accepted(def) {
      var p := ProblemIfRejected(def);
    } else {
      forall p ensures !Holds(def, p) {
        match p {
          case Unreachable(u) => if u != [] { assert u[0] in u; }
          case Stuck(u) => if u != [] { assert u[0] in u; }
          case _ =>
        }
      }
    }
  }

  lemma ReportDecides(def: Definition, errors: seq<Problem>)
    requires CompleteForAll(def, errors, ALL_KINDS)
    ensures errors == [] <==> Accepted(def)
    ensures forall p | p in errors :: Holds(def, p)
    ensures forall p | Holds(def, p) :: Reported(errors, p)
  {
    forall p | Holds(def, p) ensures Reported(errors, p) {
      assert KindOf(p) in ALL_KINDS;
    }
    AcceptedIffNoProblem(def);
    if errors != [] {
      assert Holds(def, errors[0]);
    }
  }

  method DocTypeProblems(def: Definition) returns (errors: seq<Problem>, warned: bool)
    ensures CompleteFor(def, errors, KDocType)
    ensures warned <==> def.documentTypes.None? && exists t :: Refers(def, t)
  {
    errors, warned := [], false;
    var types := ReferencedTypes(def);
    match def.documentTypes {
      case Some(defined) => errors := UndefinedTypes(def, types, defined);
      case None =>
        warned := |types| > 0;
        assert warned ==> exists t :: t in types;
    }
  }

  /** `validateFSMStructure`: the problems of each check, one after the other. */
  method ValidateStructure(def: Definition) returns (valid: bool, errors: seq<Problem>, warned: bool)
    ensures valid <==> errors == []
    ensures valid <==> Accepted(def)
    ensures forall p | p in errors :: Holds(def, p)
    ensures forall p | Holds(def, p) :: Reported(errors, p)
    ensures warned <==> def.documentTypes.None? && exists t :: Refers(def, t)
  {
    errors := MissingEnds(def);
    var cutOff := CutOffStates(def);
    JoinReports(def, errors, cutOff, {KInitial, KFinal}, KUnreachable);
    errors := errors + cutOff;
    var missing := MissingTargets(def);
    JoinReports(def, errors, missing, {KInitial, KFinal, KUnreachable}, KMissing);
    errors := errors + missing;
    var dead := DeadStates(def);
    JoinReports(def, errors, dead, {KInitial, KFinal, KUnreachable, KMissing}, KStuck);
    errors := errors + dead;
    var undefined;
    undefined, warned := DocTypeProblems(def);
    JoinReports(def, errors, undefined, {KInitial, KFinal, KUnreachable, KMissing, KStuck}, KDocType);
    errors := errors + undefined;
    valid := |errors| == 0;
    ReportDecides(def, errors);
  }

  /** Acceptance promises a way to finish: some final state lies on a walk from the initial one. */
  lemma AcceptedCanFinish(def: Definition)
    requires Accepted(def)
    ensures exists p :: Walk(def, p) && p[|p| - 1] in def.states && def.states[p[|p| - 1]].final
  {
    var f :| f in def.states && def.states[f].final;
    var p :| Walk(def, p) && p[|p| - 1] == f;
  }

  // ---- what a stuck state is ----

  /** An accepted definition has a handler in every state that is not final. */
  lemma AcceptedGoesOn(def: Definition, s: StateId)
    requires Accepted(def) && s in def.states && !def.states[s].final
    ensures def.states[s].on.Some? && exists event :: event in def.states[s].on.value
  {
    assert !IsStuck(def.states[s]);
    var on := def.states[s].on.GetOr(map[]);
    assert |on| > 0 && on.Keys != {};
    var event :| event in on.Keys;
  }

  /** A report of stuck states lists exactly those that are not final and have no handler at all. */
  lemma StuckMeans(def: Definition, u: seq<StateId>)
    ensures Holds(def, Stuck(u)) <==>
      && u != []
      && forall s :: s in u <==>
           s in def.states && !def.states[s].final && (def.states[s].on.None? || def.states[s].on.value == map[])
  {
    forall s | s in def.states
      ensures IsStuck(def.states[s]) <==>
        !def.states[s].final && (def.states[s].on.None? || def.states[s].on.value == map[])
    {
    }
    hide IsStuck;
  }

  /** From `a` the signal `go` leads to `done`; a second transition listed for it leads to `other`. */
  function Forked(other: State): Definition {
    Definition("job", "a", map[
      "a" := State([], None, Some(map["go" := Many([Transition("done", []), Transition("other", [])])]), false),
      "done" := State([], None, None, true),
      "other" := other], None)
  }

  lemma ForkReaches(other: State)
    ensures var def := Forked(other); Reachable(def, "a") && Reachable(def, "done") && Reachable(def, "other")
  {
    var def := Forked(other);
    assert Walk(def, ["a"]) && ["a"][0] == "a";
    var ts := Transitions(Handlers(def.states["a"])["go"]);
    assert ts[0].target == "done" && ts[1].target == "other";
    assert Leads(def.states["a"], "go", "done") && Leads(def.states["a"], "go", "other");
    ReachableStep(def, "a", "done");
    ReachableStep(def, "a", "other");
  }

  /** Final states need no handler: a definition with two of them is accepted, also when one is reached only by a
      transition that is listed second. Once one of them is not final, it is rejected. */
  lemma FinalNeedsNoHandler(final: bool)
    ensures Accepted(Forked(State([], None, None, final))) <==> final
  {
    var other := State([], None, None, final);
    var def := Forked(other);
    ForkReaches(other);
    hide Reachable;
    assert def.states["other"] == other;
    assert def.states["done"].final;
    if final {
      assert |Handlers(def.states["a"])| > 0 by { assert "go" in Handlers(def.states["a"]); }
    } else {
      assert IsStuck(other);
    }
  }

  /** Acceptance in words. */
  lemma AcceptedInWords(def: Definition)
    ensures Accepted(def) <==>
      && def.initial in def.states
      && (exists s :: s in def.states && def.states[s].final)
      && (forall s | s in def.states :: Reachable(def, s))
      && (forall s, event, k | s in def.states && event in Handlers(def.states[s])
            && 0 <= k < |Transitions(Handlers(def.states[s])[event])| ::
            Transitions(Handlers(def.states[s])[event])[k].target in def.states)
      && (forall s | s in def.states && !def.states[s].final ::
        def.states[s].on.Some? && def.states[s].on.value != map[])
      && (def.documentTypes.Some? ==>
            forall s, i | s in def.states && 0 <= i < |def.states[s].documents| ::
              def.states[s].documents[i].docType in def.documentTypes.value)
  {
    hide Reachable;
    if Accepted(def) {
      forall s, event, k | s in def.states && event in Handlers(def.states[s])
          && 0 <= k < |Transitions(Handlers(def.states[s])[event])|
        ensures Transitions(Handlers(def.states[s])[event])[k].target in def.states
      {
        assert Leads(def.states[s], event, Transitions(Handlers(def.states[s])[event])[k].target);
      }
      forall s, i | s in def.states && 0 <= i < |def.states[s].documents| && def.documentTypes.Some?
        ensures def.states[s].documents[i].docType in def.documentTypes.value
      {
        assert Refers(def, def.states[s].documents[i].docType);
      }
      forall s | s in def.states && !def.states[s].final
        ensures def.states[s].on.Some? && def.states[s].on.value != map[]
      {
        AcceptedGoesOn(def, s);
      }
    }
  }

  /** A state that no transition leads to is reached only if it is the initial one, and every other only by a
      transition. */
  lemma ReachedBy(def: Definition, s: StateId)
    ensures Reachable(def, s) <==>
      s != "" && (s == def.initial || exists a :: Reachable(def, a) && Edge(def, a, s))
  {
    if Reachable(def, s) {
      var p :| Walk(def, p) && p[|p| - 1] == s;
      if |p| > 1 {
        var q := p[..|p| - 1];
        assert Walk(def, q) && q[|q| - 1] == p[|p| - 2];
        assert Edge(def, p[|p| - 2], s);
      }
    }
    if s != "" && s == def.initial {
      assert Walk(def, [s]) && [s][0] == s;
    }
    if s != "" && exists a :: Reachable(def, a) && Edge(def, a, s) {
      var a :| Reachable(def, a) && Edge(def, a, s);
      ReachableStep(def, a, s);
    }
  }
}
