/** Resolving the target of a transition through skipped states (packages/fsm-engine/fsm-engine.ts:878-947). */
module SkipChain {
  import opened Options
  import opened FsmDefinition

  datatype StopReason = NoOutgoing | NotOneEvent(events: nat) | Guarded

  /** Where the walk goes from a skipped state, or why it cannot go on. */
  datatype Hop = Hop(target: StateId) | Stop(why: StopReason)

  /** `skipped` lists the states whose skip event was sent, in order. */
  datatype Resolution =
    | Landed(skipped: seq<StateId>, target: StateId)
    | Circular(skipped: seq<StateId>, again: StateId)
    | DeadEnd(skipped: seq<StateId>, why: StopReason)

  predicate Skippable(def: Definition, skips: seq<StateId>, s: StateId) {
    s in skips && s != def.initial && !(s in def.states && def.states[s].final)
  }

  ghost function NextHop(def: Definition, s: StateId): Hop {
    if s !in def.states || def.states[s].on.None? then Stop(NoOutgoing)
    else
      var on := def.states[s].on.value;
      if |on.Keys| != 1 then Stop(NotOneEvent(|on.Keys|))
      else
        var event :| event in on.Keys;
        if event == "" then Stop(NoOutgoing)
        else if |Transitions(on[event])| != 1 then Stop(Guarded)
        else Hop(Transitions(on[event])[0].target)
  }

  /** `chain` walks from `start` over distinct skippable states, each the only successor of the one before. */
  ghost predicate SkipWalk(def: Definition, skips: seq<StateId>, start: StateId, chain: seq<StateId>) {
    && (|chain| > 0 ==> chain[0] == start)
    && (forall i | 0 <= i < |chain| :: Skippable(def, skips, chain[i]))
    && (forall i, j | 0 <= i < j < |chain| :: chain[i] != chain[j])
    && (forall i | 0 <= i < |chain| - 1 :: NextHop(def, chain[i]) == Hop(chain[i + 1]))
  }

  /** The state the walk is at once `chain` has been skipped. */
  ghost predicate Arrives(def: Definition, start: StateId, chain: seq<StateId>, at: StateId) {
    if chain == [] then at == start else NextHop(def, chain[|chain| - 1]) == Hop(at)
  }

  /** What each outcome means: the walk stops at the first state that is not skippable, the first
      one seen before, or the first one without a unique successor. */
  ghost predicate IsResolution(def: Definition, skips: seq<StateId>, start: StateId, r: Resolution) {
    SkipWalk(def, skips, start, r.skipped) &&
    match r
    case Landed(chain, target) => Arrives(def, start, chain, target) && !Skippable(def, skips, target)
    case Circular(chain, again) => chain != [] && Arrives(def, start, chain, again) && again in chain
    case DeadEnd(chain, why) => chain != [] && NextHop(def, chain[|chain| - 1]) == Stop(why)
  }

  /** Two walks from one start agree as far as both go. */
  lemma {:induction false} WalksAgree(def: Definition, skips: seq<StateId>, start: StateId, a: seq<StateId>,
      b: seq<StateId>, n: nat)
    requires SkipWalk(def, skips, start, a) && SkipWalk(def, skips, start, b)
    requires n <= |a| && n <= |b|
    ensures a[..n] == b[..n]
  {
    if n > 1 {
      WalksAgree(def, skips, start, a, b, n - 1);
      assert a[n - 2] == a[..n - 1][n - 2] && b[n - 2] == b[..n - 1][n - 2];
      assert NextHop(def, a[n - 2]) == Hop(a[n - 1]) && NextHop(def, b[n - 2]) == Hop(b[n - 1]);
      assert a[..n] == a[..n - 1] + [a[n - 1]] && b[..n] == b[..n - 1] + [b[n - 1]];
    }
  }

  /** Inside a walk there is one way on, and it leads to a skippable state not seen before. */
  lemma InsideWalk(def: Definition, skips: seq<StateId>, start: StateId, b: seq<StateId>, n: nat)
    requires SkipWalk(def, skips, start, b) && n < |b|
    ensures Skippable(def, skips, b[n]) && b[n] !in b[..n]
    ensures forall t :: Arrives(def, start, b[..n], t) <==> t == b[n]
    ensures n > 0 ==> b[..n][n - 1] == b[n - 1] && NextHop(def, b[n - 1]).Hop?
  {
  }

  lemma ShorterCannotStop(def: Definition, skips: seq<StateId>, start: StateId, short: Resolution, long: Resolution)
    requires IsResolution(def, skips, start, short) && IsResolution(def, skips, start, long)
    ensures |short.skipped| >= |long.skipped|
  {
    var a, b := short.skipped, long.skipped;
    if |a| < |b| {
      WalksAgree(def, skips, start, a, b, |a|);
      assert a == a[..|a|];
      InsideWalk(def, skips, start, b, |a|);
    }
  }

  /** The outcome is determined: a definition, a skip list and a target admit exactly one. */
  lemma ResolutionIsUnique(def: Definition, skips: seq<StateId>, start: StateId, r: Resolution, q: Resolution)
    requires IsResolution(def, skips, start, r) && IsResolution(def, skips, start, q)
    ensures r == q
  {
    ShorterCannotStop(def, skips, start, r, q);
    ShorterCannotStop(def, skips, start, q, r);
    WalksAgree(def, skips, start, r.skipped, q.skipped, |r.skipped|);
    assert r.skipped == q.skipped;
    match r {
      case Landed(c, t) =>
      case Circular(c, again) =>
        var i :| 0 <= i < |c| && c[i] == again;
      case DeadEnd(c, why) =>
    }
    match q {
      case Landed(c, t) =>
      case Circular(c, again) =>
        var i :| 0 <= i < |c| && c[i] == again;
      case DeadEnd(c, why) =>
    }
  }

  lemma {:induction false} DistinctCount(chain: seq<StateId>)
    requires forall i, j | 0 <= i < j < |chain| :: chain[i] != chain[j]
    ensures |set s | s in chain| == |chain|
  {
    if chain != [] {
      var rest := chain[1..];
      DistinctCount(rest);
      assert (set s | s in chain) == {chain[0]} + (set s | s in rest);
      assert chain[0] !in rest;
    }
  }

  lemma {:induction false} SubsetCount(a: set<StateId>, b: set<StateId>)
    requires a <= b
    ensures |a| <= |b|
    decreases a
  {
    if a != {} {
      var x :| x in a;
      SubsetCount(a - {x}, b - {x});
    }
  }

  /** A walk is never longer than the number of distinct names in the skip list. */
  lemma WalkIsShort(def: Definition, skips: seq<StateId>, start: StateId, chain: seq<StateId>)
    requires SkipWalk(def, skips, start, chain)
    ensures |chain| <= |set s | s in skips|
  {
    var names := set s | s in chain;
    DistinctCount(chain);
    var bound := set s | s in skips;
    assert names <= bound;
    SubsetCount(names, bound);
  }

  lemma OnlyMember(on: map<string, Handler>, a: string, b: string)
    requires |on.Keys| == 1 && a in on && b in on
    ensures a == b
  {
    if a != b {
      SubsetCount({a, b}, on.Keys);
    }
  }

  /** One move off a skipped state. */
  method TakeHop(def: Definition, s: StateId) returns (h: Hop)
    ensures h == NextHop(def, s)
  {
    if s !in def.states || def.states[s].on.None? {
      return Stop(NoOutgoing);
    }
    var on := def.states[s].on.value;
    if |on.Keys| != 1 {
      return Stop(NotOneEvent(|on.Keys|));
    }
    var event :| event in on.Keys;
    forall other | other in on ensures other == event {
      OnlyMember(on, event, other);
    }
    if event == "" {
      return Stop(NoOutgoing);
    }
    var ts := Transitions(on[event]);
    if |ts| != 1 {
      return Stop(Guarded);
    }
    return Hop(ts[0].target);
  }

  /** The chain-through loop. */
  method ResolveTarget(def: Definition, skips: seq<StateId>, start: StateId) returns (r: Resolution)
    ensures IsResolution(def, skips, start, r)
    ensures |r.skipped| <= |set s | s in skips|
  {
    hide NextHop;
    var target := start;
    var visited: seq<StateId> := [];
    ghost var names := set s | s in skips;
    while Skippable(def, skips, target)
      invariant SkipWalk(def, skips, start, visited)
      invariant Arrives(def, start, visited, target)
      decreases names - (set s | s in visited)
    {
      if target in visited {
        WalkIsShort(def, skips, start, visited);
        return Circular(visited, target);
      }
      ghost var before := visited;
      visited := visited + [target];
      assert (set s | s in visited) == (set s | s in before) + {target};
      var hop := TakeHop(def, target);
      if hop.Stop? {
        WalkIsShort(def, skips, start, visited);
        return DeadEnd(visited, hop.why);
      }
      target := hop.target;
    }
    WalkIsShort(def, skips, start, visited);
    r := Landed(visited, target);
  }

  ghost function ResolveFrom(def: Definition, skips: seq<StateId>, target: StateId, chain: seq<StateId>): Resolution
    decreases (set s | s in skips) - (set s | s in chain)
  {
    if !Skippable(def, skips, target) then Landed(chain, target)
    else if target in chain then Circular(chain, target)
    else
      assert (set s | s in chain + [target]) == (set s | s in chain) + {target};
      match NextHop(def, target)
      case Stop(why) => DeadEnd(chain + [target], why)
      case Hop(next) => ResolveFrom(def, skips, next, chain + [target])
  }

  lemma {:induction false} ResolveFromIsResolution(def: Definition, skips: seq<StateId>, start: StateId,
      target: StateId, chain: seq<StateId>)
    requires SkipWalk(def, skips, start, chain) && Arrives(def, start, chain, target)
    ensures IsResolution(def, skips, start, ResolveFrom(def, skips, target, chain))
    decreases (set s | s in skips) - (set s | s in chain)
  {
    if Skippable(def, skips, target) && target !in chain {
      var more := chain + [target];
      assert (set s | s in more) == (set s | s in chain) + {target};
      assert SkipWalk(def, skips, start, more);
      match NextHop(def, target) {
        case Stop(why) =>
        case Hop(next) => ResolveFromIsResolution(def, skips, start, next, more);
      }
    }
  }

  /** The one outcome for a definition, a skip list and a first target. */
  ghost function Resolve(def: Definition, skips: seq<StateId>, start: StateId): (r: Resolution)
    ensures IsResolution(def, skips, start, r)
  {
    ResolveFromIsResolution(def, skips, start, start, []);
    ResolveFrom(def, skips, start, [])
  }

  // ---- what an outcome means for the definition ----

  /** A listed state is not skipped when it is the initial one or final. */
  ghost predicate StaysAt(def: Definition, skips: seq<StateId>, s: StateId) {
    s !in skips || s == def.initial || (s in def.states && def.states[s].final)
  }

  /** `s` has one event, with one transition, and that leads to `next`. */
  ghost predicate LeadsOnlyTo(def: Definition, s: StateId, next: StateId) {
    s in def.states && def.states[s].on.Some? &&
    var on := def.states[s].on.value;
    exists event ::
      && event in on && event != "" && on.Keys == {event}
      && |Transitions(on[event])| == 1 && Transitions(on[event])[0].target == next
  }

  ghost predicate CannotGoOn(def: Definition, s: StateId, why: StopReason) {
    var on := if s in def.states then def.states[s].on else None;
    match why
    case NoOutgoing => on.None? || on.value.Keys == {""}
    case NotOneEvent(n) => on.Some? && n == |on.value.Keys| && n != 1
    case Guarded =>
      on.Some? && exists event ::
        && event in on.value && event != "" && on.value.Keys == {event}
        && |Transitions(on.value[event])| != 1
  }

  /** Every state of the path is skipped and leads on to the next one only. */
  ghost predicate SkippedPath(def: Definition, skips: seq<StateId>, path: seq<StateId>) {
    forall i | 0 <= i < |path| - 1 :: !StaysAt(def, skips, path[i]) && LeadsOnlyTo(def, path[i], path[i + 1])
  }

  lemma OneKey(keys: set<string>, key: string)
    requires |keys| == 1 && key in keys
    ensures keys == {key}
  {
    SubsetCount({key}, keys);
    assert |keys - {key}| == 0;
  }

  lemma HopMeans(def: Definition, s: StateId)
    ensures match NextHop(def, s)
      case Hop(next) => LeadsOnlyTo(def, s, next)
      case Stop(why) => CannotGoOn(def, s, why)
  {
    if s in def.states && def.states[s].on.Some? && |def.states[s].on.value.Keys| == 1 {
      var on := def.states[s].on.value;
      forall event | event in on.Keys ensures on.Keys == {event} {
        OneKey(on.Keys, event);
      }
    }
    hide Transitions;
  }

  lemma WalkIsPath(def: Definition, skips: seq<StateId>, start: StateId, chain: seq<StateId>)
    requires SkipWalk(def, skips, start, chain)
    ensures SkippedPath(def, skips, chain)
    ensures chain != [] ==> chain[0] == start && !StaysAt(def, skips, chain[|chain| - 1])
  {
    hide NextHop, LeadsOnlyTo;
    forall i | 0 <= i < |chain| - 1
      ensures !StaysAt(def, skips, chain[i]) && LeadsOnlyTo(def, chain[i], chain[i + 1])
    {
      HopMeans(def, chain[i]);
    }
  }

  /** What the outcome says about the definition. Landing: a path from the first target over states that are all
      skipped, each leading on to the next only, to a state that is not listed, or is initial or final. A circle: such
      a path back into itself. A dead end: its last state cannot go on, for the reason given. */
  lemma ResolutionMeans(def: Definition, skips: seq<StateId>, start: StateId, r: Resolution)
    requires IsResolution(def, skips, start, r)
    ensures match r
      case Landed(chain, target) =>
        (chain + [target])[0] == start && SkippedPath(def, skips, chain + [target]) && StaysAt(def, skips, target)
      case Circular(chain, again) =>
        again in chain && chain[0] == start && SkippedPath(def, skips, chain + [again])
      case DeadEnd(chain, why) =>
        && chain != [] && chain[0] == start && SkippedPath(def, skips, chain)
        && !StaysAt(def, skips, chain[|chain| - 1]) && CannotGoOn(def, chain[|chain| - 1], why)
  {
    var chain := r.skipped;
    WalkIsPath(def, skips, start, chain);
    if chain != [] {
      HopMeans(def, chain[|chain| - 1]);
    }
    hide NextHop, LeadsOnlyTo, CannotGoOn;
  }
}
