/**
 * What a committed transition did, read off the record of the run (packages/fsm-engine/fsm-engine.ts:951-1050,
 * 1185-1310): the foreign calls made, the events and signals it leaves behind, and the documents of the new state.
 */
module FsmCommit {
  import opened Options
  import opened Sequences
  import opened FsmDefinition
  import opened SkipChain
  import opened FsmTransaction
  import opened FsmSeeds
  import opened FsmEdits

  /** The actions that call a system outside the engine, in order. */
  function Foreign(actions: seq<Action>): seq<Action> {
    if actions == [] then []
    else (if actions[0].External? then [actions[0]] else []) + Foreign(actions[1..])
  }

  /** The events of the `emit` actions, in order. */
  function EventsOf(actions: seq<Action>): seq<Event> {
    if actions == [] then []
    else (if actions[0].Emit? then [Event(actions[0].event, actions[0].data)] else []) + EventsOf(actions[1..])
  }

  /** A signal sent on behalf of `sig`: with a context it goes on under that context, with its own data or else those of
      `sig`; without one it goes as it is. */
  predicate SentFor(sig: Signal, s: Signal, sent: Signal) {
    && sent.kind == s.kind && sent.body == s.body && sent.headers == s.headers
    && sent.context == (if sig.context.Some? then sig.context else s.context)
    && sent.data == (if s.data.None? && sig.context.Some? then sig.data else s.data)
  }

  ghost predicate AllSentFor(sig: Signal, asked: seq<Signal>, sent: seq<Signal>) {
    |asked| == |sent| && forall i | 0 <= i < |asked| :: SentFor(sig, asked[i], sent[i])
  }

  /** The signals that some edits ask for. */
  function AskedByEdits(edits: seq<Edit>): seq<Signal> {
    if edits == [] then []
    else (if edits[0].EmitSignal? then [edits[0].signal] else []) + AskedByEdits(edits[1..])
  }

  /** The number of foreign calls an action makes. */
  function CallsOf(a: Action): nat {
    if a.External? then 1 else 0
  }

  /** The signals an action asks for, when call number `n` is its foreign call. */
  function AskedBy(env: Env, a: Action, calls: seq<Call>, n: nat): seq<Signal> {
    match a
    case Emit(event, data) => if event == "" then [] else [Signal(event, data, None, None, None)]
    case External(_, _) => if n < |calls| then AskedByEdits(env.act(n, calls[n]).edits) else []
  }

  /** The signals a list of actions asks for, when its foreign calls are those from number `n` on. */
  function Asked(env: Env, actions: seq<Action>, calls: seq<Call>, n: nat): seq<Signal>
    decreases |actions|
  {
    if actions == [] then []
    else AskedBy(env, actions[0], calls, n) + Asked(env, actions[1..], calls, n + CallsOf(actions[0]))
  }

  /** The calls from number `n` on are those of the foreign actions `made`, for this signal, in this state. */
  ghost predicate CallsFor(calls: seq<Call>, n: nat, made: seq<Action>, sig: Signal, state: StateId) {
    && n + |made| <= |calls|
    && (forall k | 0 <= k < |made| ::
          calls[n + k].action == made[k] && calls[n + k].signal == sig && calls[n + k].state == state)
  }

  ghost predicate NoneThrew(env: Env, calls: seq<Call>, n: nat) {
    forall k | n <= k < |calls| :: !env.act(k, calls[k]).throws
  }

  /** What a list of actions that ran through did to the pending copies. */
  ghost predicate RanThrough(env: Env, actions: seq<Action>, sig: Signal, state: StateId, p: Pending, q: Pending) {
    && p.calls <= q.calls
    && |q.calls| == |p.calls| + |Foreign(actions)|
    && CallsFor(q.calls, |p.calls|, Foreign(actions), sig, state)
    && NoneThrew(env, q.calls, |p.calls|)
    && q.events == p.events + EventsOf(actions)
    && p.emits <= q.emits && AllSentFor(sig, Asked(env, actions, q.calls, |p.calls|), q.emits[|p.emits|..])
  }

  // ---- one action ----

  lemma AllSentForBoth(sig: Signal, a: seq<Signal>, sa: seq<Signal>, b: seq<Signal>, sb: seq<Signal>)
    requires AllSentFor(sig, a, sa) && AllSentFor(sig, b, sb)
    ensures AllSentFor(sig, a + b, sa + sb)
  {
  }

  lemma CascadeIsSent(sig: Signal, s: Signal)
    ensures SentFor(sig, s, Cascade(sig, s))
  {
  }

  lemma {:induction false} EditsSend(env: Env, sig: Signal, p: Pending, edits: seq<Edit>)
    ensures var w := ApplyEdits(env, sig, p, edits);
      && w.p.events == p.events && p.emits <= w.p.emits
      && (w.failed.None? ==> AllSentFor(sig, AskedByEdits(edits), w.p.emits[|p.emits|..]))
    decreases |edits|
  {
    if edits != [] {
      match ApplyEdit(env, sig, p, edits[0]) {
        case None =>
        case Some(q) =>
          EditsSend(env, sig, q, edits[1..]);
          var w := ApplyEdits(env, sig, q, edits[1..]);
          var one := if edits[0].EmitSignal? then [edits[0].signal] else [];
          var sent := if edits[0].EmitSignal? then [Cascade(sig, edits[0].signal)] else [];
          if edits[0].EmitSignal? { CascadeIsSent(sig, edits[0].signal); }
          assert q.emits == p.emits + sent;
          hide ApplyEdit, ApplyEdits, Cascade, SentFor;
          if w.failed.None? {
            assert w.p.emits[|p.emits|..] == sent + w.p.emits[|q.emits|..];
            AllSentForBoth(sig, one, sent, AskedByEdits(edits[1..]), w.p.emits[|q.emits|..]);
          }
      }
    }
  }

  lemma OneAction(env: Env, a: Action, calls: seq<Call>, n: nat)
    ensures Foreign([a]) == (if a.External? then [a] else [])
    ensures EventsOf([a]) == (if a.Emit? then [Event(a.event, a.data)] else [])
    ensures Asked(env, [a], calls, n) == AskedBy(env, a, calls, n)
  {
    assert [a][1..] == [];
    hide AskedBy;
  }

  lemma EmitRanThrough(env: Env, action: Action, sig: Signal, state: StateId, input: Option<Record>, p: Pending)
    requires action.Emit?
    ensures var w := Perform(env, action, sig, state, input, p);
      w.failed.None? && RanThrough(env, [action], sig, state, p, w.p)
  {
    var s := Signal(action.event, action.data, None, None, None);
    CascadeIsSent(sig, s);
    OneAction(env, action, p.calls, |p.calls|);
    hide Cascade, SentFor, Foreign, EventsOf, Asked;
  }

  lemma CallMade(env: Env, action: Action, sig: Signal, state: StateId, input: Option<Record>, p: Pending)
    requires action.External?
    ensures var w := Perform(env, action, sig, state, input, p);
      var call := Call(action, sig, state, input, p.docs, p.results);
      var reply := env.act(|p.calls|, call);
      && w.p.calls == p.calls + [call]
      && (w.failed.None? ==>
            && !reply.throws && w.p.events == p.events && p.emits <= w.p.emits
            && AllSentFor(sig, AskedByEdits(reply.edits), w.p.emits[|p.emits|..]))
  {
    var call := Call(action, sig, state, input, p.docs, p.results);
    var reply := env.act(|p.calls|, call);
    var p1 := p.(calls := p.calls + [call], arrivals := p.arrivals + reply.arrivals);
    EditsExtend(env, sig, p1, reply.edits);
    EditsSend(env, sig, p1, reply.edits);
    hide ApplyEdits, AskedByEdits, AllSentFor;
  }

  lemma OneCall(env: Env, calls: seq<Call>, call: Call)
    ensures CallsFor(calls + [call], |calls|, [call.action], call.signal, call.state)
    ensures !env.act(|calls|, call).throws ==> NoneThrew(env, calls + [call], |calls|)
  {
  }

  lemma CallRanThrough(env: Env, action: Action, sig: Signal, state: StateId, input: Option<Record>, p: Pending)
    requires action.External?
    ensures var w := Perform(env, action, sig, state, input, p);
      && p.calls <= w.p.calls && |w.p.calls| == |p.calls| + 1
      && CallsFor(w.p.calls, |p.calls|, [action], sig, state)
      && (w.failed.None? ==> RanThrough(env, [action], sig, state, p, w.p))
  {
    hide Perform, AskedByEdits, AllSentFor, Foreign, EventsOf, Asked, CallsFor, NoneThrew;
    CallMade(env, action, sig, state, input, p);
    var q := Perform(env, action, sig, state, input, p).p;
    OneAction(env, action, q.calls, |p.calls|);
    OneCall(env, p.calls, Call(action, sig, state, input, p.docs, p.results));
  }

  // ---- a list of actions ----

  lemma {:induction false} SplitForeign(a: seq<Action>, b: seq<Action>)
    ensures Foreign(a + b) == Foreign(a) + Foreign(b)
  {
    if a == [] {
      assert a + b == b;
    } else {
      var head := if a[0].External? then [a[0]] else [];
      SplitForeign(a[1..], b);
      assert (a + b)[1..] == a[1..] + b && (a + b)[0] == a[0];
      Regroup(head, Foreign(a[1..]), Foreign(b));
    }
  }

  lemma {:induction false} SplitEvents(a: seq<Action>, b: seq<Action>)
    ensures EventsOf(a + b) == EventsOf(a) + EventsOf(b)
  {
    if a == [] {
      assert a + b == b;
    } else {
      var head := if a[0].Emit? then [Event(a[0].event, a[0].data)] else [];
      SplitEvents(a[1..], b);
      assert (a + b)[1..] == a[1..] + b && (a + b)[0] == a[0];
      Regroup(head, EventsOf(a[1..]), EventsOf(b));
    }
  }

  lemma ForeignCount(a: seq<Action>)
    requires a != []
    ensures |Foreign(a)| == CallsOf(a[0]) + |Foreign(a[1..])|
  {
  }

  lemma {:induction false} SplitAsked(env: Env, a: seq<Action>, b: seq<Action>, calls: seq<Call>, n: nat)
    ensures Asked(env, a + b, calls, n) == Asked(env, a, calls, n) + Asked(env, b, calls, n + |Foreign(a)|)
    decreases |a|
  {
    hide AskedBy;
    if a == [] {
      assert a + b == b;
    } else {
      var k := CallsOf(a[0]);
      SplitAsked(env, a[1..], b, calls, n + k);
      assert (a + b)[1..] == a[1..] + b && (a + b)[0] == a[0];
      ForeignCount(a);
      hide Foreign;
      Regroup(AskedBy(env, a[0], calls, n), Asked(env, a[1..], calls, n + k), Asked(env, b, calls, n + |Foreign(a)|));
    }
  }

  /** What was asked for does not depend on later calls. */
  lemma {:induction false} AskedStays(env: Env, a: seq<Action>, calls: seq<Call>, more: seq<Call>, n: nat)
    requires calls <= more && n + |Foreign(a)| <= |calls|
    ensures Asked(env, a, calls, n) == Asked(env, a, more, n)
    decreases |a|
  {
    if a != [] {
      ForeignCount(a);
      AskedStays(env, a[1..], calls, more, n + CallsOf(a[0]));
      hide AskedByEdits, Foreign;
    }
  }

  lemma CallsForBoth(q: seq<Call>, r: seq<Call>, n: nat, a: seq<Action>, b: seq<Action>, sig: Signal, state: StateId)
    requires q <= r && |q| == n + |a| && CallsFor(q, n, a, sig, state) && CallsFor(r, |q|, b, sig, state)
    ensures CallsFor(r, n, a + b, sig, state)
  {
    forall k | 0 <= k < |a + b|
      ensures r[n + k].action == (a + b)[k] && r[n + k].signal == sig && r[n + k].state == state
    {
      if k < |a| {
        assert r[n + k] == q[n + k];
      } else {
        assert r[n + k] == r[|q| + (k - |a|)];
      }
    }
  }

  lemma NoneThrewBoth(env: Env, q: seq<Call>, r: seq<Call>, n: nat)
    requires q <= r && NoneThrew(env, q, n) && NoneThrew(env, r, |q|)
    ensures NoneThrew(env, r, n)
  {
    forall k | n <= k < |r| ensures !env.act(k, r[k]).throws {
      if k < |q| { assert r[k] == q[k]; }
    }
  }

  lemma SliceJoin<T>(p: seq<T>, q: seq<T>, r: seq<T>)
    requires p <= q <= r
    ensures r[|p|..] == q[|p|..] + r[|q|..]
  {
  }

  lemma SentBoth(env: Env, a: seq<Action>, b: seq<Action>, sig: Signal, p: Pending, q: Pending, r: Pending)
    requires p.calls <= q.calls <= r.calls && |q.calls| == |p.calls| + |Foreign(a)|
    requires p.emits <= q.emits <= r.emits
    requires AllSentFor(sig, Asked(env, a, q.calls, |p.calls|), q.emits[|p.emits|..])
    requires AllSentFor(sig, Asked(env, b, r.calls, |q.calls|), r.emits[|q.emits|..])
    ensures AllSentFor(sig, Asked(env, a + b, r.calls, |p.calls|), r.emits[|p.emits|..])
  {
    hide Asked, Foreign, AllSentFor;
    SplitAsked(env, a, b, r.calls, |p.calls|);
    AskedStays(env, a, q.calls, r.calls, |p.calls|);
    SliceJoin(p.emits, q.emits, r.emits);
    AllSentForBoth(sig, Asked(env, a, q.calls, |p.calls|), q.emits[|p.emits|..],
      Asked(env, b, r.calls, |q.calls|), r.emits[|q.emits|..]);
  }

  /** Two parts that ran one after the other, for the same signal. */
  lemma RanBoth(env: Env, a: seq<Action>, b: seq<Action>, sig: Signal, state: StateId, p: Pending, q: Pending,
      r: Pending)
    requires RanThrough(env, a, sig, state, p, q) && RanThrough(env, b, sig, state, q, r)
    ensures RanThrough(env, a + b, sig, state, p, r)
  {
    SplitForeign(a, b);
    SplitEvents(a, b);
    CallsForBoth(q.calls, r.calls, |p.calls|, Foreign(a), Foreign(b), sig, state);
    NoneThrewBoth(env, q.calls, r.calls, |p.calls|);
    SentBoth(env, a, b, sig, p, q, r);
    hide Asked, Foreign, EventsOf, AllSentFor, CallsFor, NoneThrew;
    Regroup(p.events, EventsOf(a), EventsOf(b));
  }

  /** A list that fails made the calls of its foreign actions up to the one that failed. */
  ghost predicate RanInto(actions: seq<Action>, sig: Signal, state: StateId, p: Pending, q: Pending) {
    && p.calls <= q.calls
    && |p.calls| < |q.calls| <= |p.calls| + |Foreign(actions)|
    && CallsFor(q.calls, |p.calls|, Foreign(actions)[..|q.calls| - |p.calls|], sig, state)
  }

  lemma RanOneInto(a: Action, rest: seq<Action>, sig: Signal, state: StateId, p: Pending, q: Pending, r: Pending)
    requires p.calls <= q.calls && |q.calls| == |p.calls| + |Foreign([a])|
    requires CallsFor(q.calls, |p.calls|, Foreign([a]), sig, state)
    requires RanInto(rest, sig, state, q, r)
    ensures RanInto([a] + rest, sig, state, p, r)
  {
    SplitForeign([a], rest);
    var made := Foreign(rest)[..|r.calls| - |q.calls|];
    CallsForBoth(q.calls, r.calls, |p.calls|, Foreign([a]), made, sig, state);
    hide Foreign, CallsFor;
    assert (Foreign([a]) + Foreign(rest))[..|r.calls| - |p.calls|] == Foreign([a]) + made;
  }

  lemma FailedCall(a: Action, rest: seq<Action>, sig: Signal, state: StateId, p: Pending, q: Pending)
    requires a.External? && p.calls <= q.calls && |q.calls| == |p.calls| + 1
    requires CallsFor(q.calls, |p.calls|, [a], sig, state)
    ensures RanInto([a] + rest, sig, state, p, q)
  {
    SplitForeign([a], rest);
    assert Foreign([a]) == [a] by { assert [a][1..] == []; }
    hide Foreign;
    assert ([a] + Foreign(rest))[..1] == [a];
  }

  lemma {:induction false} ListRan(env: Env, actions: seq<Action>, sig: Signal, state: StateId, input: Option<Record>,
      p: Pending)
    ensures var w := PerformAll(env, actions, sig, state, input, p);
      && (w.failed.None? ==> RanThrough(env, actions, sig, state, p, w.p))
      && (w.failed.Some? ==> RanInto(actions, sig, state, p, w.p))
    decreases |actions|
  {
    if actions == [] {
      return;
    }
    var a, rest := actions[0], actions[1..];
    var w := Perform(env, a, sig, state, input, p);
    var v := PerformAll(env, rest, sig, state, input, w.p);
    if a.Emit? { EmitRanThrough(env, a, sig, state, input, p); } else { CallRanThrough(env, a, sig, state, input, p); }
    SplitForeign([a], rest);
    OneAction(env, a, p.calls, |p.calls|);
    assert [a] + rest == actions;
    if w.failed.Some? {
      FailedCall(a, rest, sig, state, p, w.p);
      hide Foreign, EventsOf, Asked;
    } else {
      ListRan(env, rest, sig, state, input, w.p);
      hide Perform, Foreign, EventsOf, Asked;
      if v.failed.None? {
        RanBoth(env, [a], rest, sig, state, p, w.p, v.p);
      } else {
        RanOneInto(a, rest, sig, state, p, w.p, v.p);
      }
    }
  }

  // ---- the whole transition ----

  /** The entry actions of a state, none when it has no list. */
  function EntryOf(def: Definition, s: StateId): seq<Action> {
    if s in def.states then def.states[s].entry.GetOr([]) else []
  }

  /** The same results, except for the input a list stores. */
  ghost predicate SameBut(a: Results, b: Results) {
    a - {LAST_PREPARE} == b - {LAST_PREPARE}
  }

  /** A list that ran through, told by its calls; at the end it also stores its input among the results. */
  ghost predicate ListDid(env: Env, actions: seq<Action>, sig: Signal, state: StateId, p: Pending, q: Pending) {
    && RanThrough(env, actions, sig, state, p, q)
    && exists results :: SameBut(results, q.results) && Chained(env, q.calls, |p.calls|, Held(p), (q.docs, results))
  }

  lemma ListExecuted(env: Env, actions: seq<Action>, sig: Signal, state: StateId, p: Pending)
    ensures var w := ExecuteActions(env, actions, sig, state, p);
      w.failed.None? ==> ListDid(env, actions, sig, state, p, w.p)
  {
    var input := InputFor(sig, p.results);
    var w := PerformAll(env, actions, sig, state, input, p);
    ListRan(env, actions, sig, state, input, p);
    ListChained(env, actions, sig, state, input, p);
    hide PerformAll, InputFor, Asked, Foreign, EventsOf, Chained, ChainFails, AllSentFor, CallsFor, NoneThrew;
    if w.failed.None? {
      assert SameBut(w.p.results, ExecuteActions(env, actions, sig, state, p).p.results);
    }
  }

  lemma NothingRan(env: Env, sig: Signal, state: StateId, p: Pending)
    ensures ListDid(env, [], sig, state, p, p)
  {
    assert SameBut(p.results, p.results) && Chained(env, p.calls, |p.calls|, Held(p), (p.docs, p.results));
  }

  /** The target's documents go in first, then its entry actions run. */
  lemma Entered(def: Definition, env: Env, sig: Signal, target: StateId, p: Pending) returns (seeded: Pending)
    requires EnterState(def, env, sig, target, p).failed.None?
    ensures seeded == p.(docs := seeded.docs)
    ensures FirstsValid(env, SeedsOf(def, target), p.docs) && SeededWith(SeedsOf(def, target), p.docs, seeded.docs)
    ensures ListDid(env, EntryOf(def, target), sig, target, seeded, EnterState(def, env, sig, target, p).p)
  {
    hide ExecuteActions, SeededWith, FirstsValid, ListDid;
    NothingRan(env, sig, target, p);
    SeedsPut(env, SeedsOf(def, target), p);
    if target in def.states {
      seeded := SeedMissing(env, def.states[target].documents, p).p;
      NothingRan(env, sig, target, seeded);
      if def.states[target].entry.Some? {
        ListExecuted(env, def.states[target].entry.value, sig, target, seeded);
      }
    } else {
      seeded := p;
    }
  }

  lemma Transitioned(def: Definition, env: Env, e: Engine, sig: Signal, tr: Transition, target: StateId)
    returns (mid: Pending, seeded: Pending)
    requires RunTransition(def, env, e, sig, tr, target).failed.None?
    ensures ListDid(env, tr.actions, sig, e.current, StartPending(e), mid)
    ensures seeded == mid.(docs := seeded.docs)
    ensures FirstsValid(env, SeedsOf(def, target), mid.docs) && SeededWith(SeedsOf(def, target), mid.docs, seeded.docs)
    ensures ListDid(env, EntryOf(def, target), sig, target, seeded, RunTransition(def, env, e, sig, tr, target).p)
  {
    var p0 := StartPending(e);
    hide EnterState, ExecuteActions, ListDid, SeededWith, FirstsValid, EntryOf, SeedsOf;
    NothingRan(env, sig, e.current, p0);
    ListExecuted(env, tr.actions, sig, e.current, p0);
    mid := if tr.actions == [] then p0 else ExecuteActions(env, tr.actions, sig, e.current, p0).p;
    seeded := Entered(def, env, sig, target, mid);
  }

  /** What the record of the run says about a commit of `tr` into `target`, from `a` to `b`. */
  ghost predicate Committed(def: Definition, env: Env, a: Engine, b: Engine, sig: Signal, tr: Transition,
      target: StateId)
  {
    var n, m := |a.log.calls|, |Foreign(tr.actions)|;
    var entry, calls := EntryOf(def, target), b.log.calls;
    && a.log.calls <= calls && |calls| == n + m + |Foreign(entry)|
    && CallsFor(calls, n, Foreign(tr.actions), sig, a.current) && CallsFor(calls, n + m, Foreign(entry), sig, target)
    && NoneThrew(env, calls, n)
    && b.events == EventsOf(tr.actions) + EventsOf(entry)
    && |b.log.landings| == |a.log.landings| + 1
    && AllSentFor(sig, Asked(env, tr.actions + entry, calls, n), b.log.landings[|a.log.landings|].emits)
  }

  /** Documents and results, from the start of the transition to its commit: the edits of its own calls one after the
      other, then the missing documents of the new state, then the edits of the entry actions. */
  ghost predicate CommittedDocs(def: Definition, env: Env, a: Engine, b: Engine, tr: Transition, target: StateId) {
    var n := |a.log.calls|;
    var calls, k := b.log.calls, n + |Foreign(tr.actions)|;
    k <= |calls| && exists mid: Shown, entered: Shown, left: Shown ::
      && Chained(env, calls[..k], n, (a.docs, a.results), mid)
      && FirstsValid(env, SeedsOf(def, target), mid.0) && SeededWith(SeedsOf(def, target), mid.0, entered.0)
      && SameBut(mid.1, entered.1)
      && Chained(env, calls, k, entered, left)
      && b.docs == left.0 && if target == def.initial then b.results == map[] else SameBut(left.1, b.results)
  }

  lemma CallsStay(q: seq<Call>, r: seq<Call>, n: nat, a: seq<Action>, sig: Signal, state: StateId)
    requires q <= r && CallsFor(q, n, a, sig, state)
    ensures CallsFor(r, n, a, sig, state)
  {
    forall k | 0 <= k < |a| ensures r[n + k].action == a[k] && r[n + k].signal == sig && r[n + k].state == state {
      assert r[n + k] == q[n + k];
    }
  }

  lemma CommitsOf(def: Definition, env: Env, e: Engine, p: Pending, mid: Pending, seeded: Pending, b: Engine,
      sig: Signal, tr: Transition, target: StateId)
    requires RanThrough(env, tr.actions, sig, e.current, StartPending(e), mid) && seeded == mid.(docs := seeded.docs)
    requires RanThrough(env, EntryOf(def, target), sig, target, seeded, p)
    requires b.log.calls == p.calls && b.events == p.events
    requires |b.log.landings| == |e.log.landings| + 1 && b.log.landings[|e.log.landings|].emits == p.emits
    ensures Committed(def, env, e, b, sig, tr, target)
  {
    hide EntryOf, Foreign, EventsOf, Asked, AllSentFor;
    NoneThrewBoth(env, mid.calls, p.calls, |e.log.calls|);
    assert mid.emits[0..] == mid.emits && p.emits[0..] == p.emits;
    SentBoth(env, tr.actions, EntryOf(def, target), sig, StartPending(e), seeded, p);
    CallsStay(mid.calls, p.calls, |e.log.calls|, Foreign(tr.actions), sig, e.current);
    hide NoneThrew, CallsFor;
  }

  lemma ListLeft(env: Env, actions: seq<Action>, sig: Signal, state: StateId, p: Pending, q: Pending)
    returns (left: Shown)
    requires ListDid(env, actions, sig, state, p, q)
    ensures p.calls <= q.calls && |q.calls| == |p.calls| + |Foreign(actions)|
    ensures left.0 == q.docs && SameBut(left.1, q.results) && Chained(env, q.calls, |p.calls|, Held(p), left)
  {
    hide Foreign, EventsOf, Asked, AllSentFor, NoneThrew, CallsFor, Chained, SameBut;
    var results :| SameBut(results, q.results) && Chained(env, q.calls, |p.calls|, Held(p), (q.docs, results));
    left := (q.docs, results);
  }

  lemma DocsOf(def: Definition, env: Env, e: Engine, p: Pending, mid: Pending, seeded: Pending, b: Engine,
      sig: Signal, tr: Transition, target: StateId)
    requires ListDid(env, tr.actions, sig, e.current, StartPending(e), mid) && seeded == mid.(docs := seeded.docs)
    requires ListDid(env, EntryOf(def, target), sig, target, seeded, p)
    requires FirstsValid(env, SeedsOf(def, target), mid.docs) && SeededWith(SeedsOf(def, target), mid.docs, seeded.docs)
    requires b.log.calls == p.calls && b.docs == p.docs
    requires b.results == if target == def.initial then map[] else p.results
    ensures CommittedDocs(def, env, e, b, tr, target)
  {
    hide EntryOf, SeedsOf, Foreign, FirstsValid, SeededWith, Chained, ListDid, SameBut;
    var first := ListLeft(env, tr.actions, sig, e.current, StartPending(e), mid);
    var last := ListLeft(env, EntryOf(def, target), sig, target, seeded, p);
    assert p.calls[..|mid.calls|] == mid.calls;
    assert Chained(env, p.calls, |mid.calls|, Held(seeded), last);
  }

  /** What a committed step did: it took the first transition listed for the signal, made the foreign calls of that
      transition's own actions in the old state and then those of the new state's entry actions in the new one, none of
      which threw; its events are those of both lists in order, and it sent what both lists asked for. Before the entry
      actions the first document of every missing id of the new state was put in. */
  lemma CommitDid(def: Definition, env: Env, e: Engine, sig: Signal) returns (tr: Transition, target: StateId)
    requires PastActions(Step(def, env, e, sig))
    ensures e.current in def.states && sig.kind in Handlers(def.states[e.current])
    ensures var listed := Transitions(Handlers(def.states[e.current])[sig.kind]); listed != [] && tr == listed[0]
    ensures var b := Step(def, env, e, sig).e;
      && b.current == target
      && Committed(def, env, e, b, sig, tr, target)
      && CommittedDocs(def, env, e, b, tr, target)
  {
    var p, skipped;
    tr, target, p, skipped := CommitTakesAll(def, env, e, sig);
    hide Step, SaveAll, Resolve, IsResolution, Arrived, ArrivedInSaves, RunTransition, Extends;
    hide RanThrough, FirstsValid, SeededWith, Committed, CommittedDocs, Chained, SeedsOf, EntryOf;
    var mid, seeded := Transitioned(def, env, e, sig, tr, target);
    CommitsOf(def, env, e, p, mid, seeded, Step(def, env, e, sig).e, sig, tr, target);
    DocsOf(def, env, e, p, mid, seeded, Step(def, env, e, sig).e, sig, tr, target);
  }

  /** A step does nothing at all exactly when the state has no transition for the signal. */
  lemma IgnoredExactly(def: Definition, env: Env, e: Engine, sig: Signal)
    ensures var r := Step(def, env, e, sig);
      r.Done? && !r.took <==>
        && e.current in def.states
        && (sig.kind in Handlers(def.states[e.current]) ==>
              Transitions(Handlers(def.states[e.current])[sig.kind]) == [])
  {
    var shape := StepShape(def, env, e, sig);
    hide Step, Resolve, RunTransition, Extends, SaveAll;
    if shape.Took? { SaveAllMoves(env, Commit(def, Skipped(e, shape.skipped), shape.p, shape.target)); }
    hide StoreMoved, Commit, Skipped;
  }

  // ---- a transition that fails ----

  /** What the record says about a transition that threw: an action failed because the last call made threw or asked
      for an edit that is refused, the calls before it being those of the lists in order; or a document that the new
      state brings is not valid, and no entry action ran. */
  ghost predicate FailedAs(def: Definition, env: Env, a: Engine, calls: seq<Call>, sig: Signal, tr: Transition,
      target: StateId, why: Failure)
  {
    var n, own, entry := |a.log.calls|, Foreign(tr.actions), Foreign(EntryOf(def, target));
    && n <= |calls|
    && match why
       case ActionFailed =>
         && n < |calls| && CallFails(env, |calls| - 1, calls[|calls| - 1])
         && if |calls| <= n + |own| then CallsFor(calls, n, own[..|calls| - n], sig, a.current)
            else
              && |calls| <= n + |own| + |entry| && CallsFor(calls, n, own, sig, a.current)
              && CallsFor(calls, n + |own|, entry[..|calls| - n - |own|], sig, target)
       case SeedInvalid(_) =>
         && |calls| == n + |own| && CallsFor(calls, n, own, sig, a.current)
         && exists mid: Shown ::
              Chained(env, calls, n, (a.docs, a.results), mid) && !FirstsValid(env, SeedsOf(def, target), mid.0)
       case _ => false
  }

  lemma ListFailed(env: Env, actions: seq<Action>, sig: Signal, state: StateId, p: Pending)
    ensures var w := ExecuteActions(env, actions, sig, state, p);
      w.failed.Some? ==>
        && RanInto(actions, sig, state, p, w.p) && w.failed == Some(ActionFailed)
        && CallFails(env, |w.p.calls| - 1, w.p.calls[|w.p.calls| - 1])
  {
    var input := InputFor(sig, p.results);
    ListRan(env, actions, sig, state, input, p);
    ListChained(env, actions, sig, state, input, p);
    PerformAllExtends(env, actions, sig, state, input, p);
    hide PerformAll, InputFor, Extends, Chained, Foreign, CallFails, CallLeads, CallsFor, RanThrough;
  }

  lemma OwnFailed(def: Definition, env: Env, e: Engine, sig: Signal, tr: Transition, target: StateId)
    requires tr.actions != [] && ExecuteActions(env, tr.actions, sig, e.current, StartPending(e)).failed.Some?
    ensures var w := ExecuteActions(env, tr.actions, sig, e.current, StartPending(e));
      w.failed.Some? && FailedAs(def, env, e, w.p.calls, sig, tr, target, w.failed.value)
  {
    ListFailed(env, tr.actions, sig, e.current, StartPending(e));
    hide ExecuteActions, Foreign, CallFails, CallsFor, EntryOf, SeedsOf;
  }

  lemma SeedsFailed(def: Definition, env: Env, e: Engine, sig: Signal, tr: Transition, target: StateId, mid: Pending)
    requires ListDid(env, tr.actions, sig, e.current, StartPending(e), mid)
    requires SeedMissing(env, SeedsOf(def, target), mid).failed.Some?
    ensures var w := SeedMissing(env, SeedsOf(def, target), mid);
      w.failed.Some? && FailedAs(def, env, e, w.p.calls, sig, tr, target, w.failed.value)
  {
    SeedsPut(env, SeedsOf(def, target), mid);
    hide SeedMissing, Foreign, CallsFor, EntryOf, SeedsOf, FirstsValid, SeededWith, Chained, SameBut;
    var left := ListLeft(env, tr.actions, sig, e.current, StartPending(e), mid);
    hide AllSentFor, NoneThrew, EventsOf, Asked;
    assert Chained(env, mid.calls, |e.log.calls|, (e.docs, e.results), left);
  }

  lemma EntryFailed(def: Definition, env: Env, e: Engine, sig: Signal, tr: Transition, target: StateId, mid: Pending,
      seeded: Pending)
    requires ListDid(env, tr.actions, sig, e.current, StartPending(e), mid) && seeded == mid.(docs := seeded.docs)
    requires ExecuteActions(env, EntryOf(def, target), sig, target, seeded).failed.Some?
    ensures var w := ExecuteActions(env, EntryOf(def, target), sig, target, seeded);
      w.failed.Some? && FailedAs(def, env, e, w.p.calls, sig, tr, target, w.failed.value)
  {
    ListFailed(env, EntryOf(def, target), sig, target, seeded);
    var w := ExecuteActions(env, EntryOf(def, target), sig, target, seeded);
    hide ExecuteActions, Foreign, EntryOf, SeedsOf, CallFails, Chained, AllSentFor, NoneThrew, EventsOf, Asked, SameBut;
    CallsStay(mid.calls, w.p.calls, |e.log.calls|, Foreign(tr.actions), sig, e.current);
    hide CallsFor;
  }

  lemma TransitionFailed(def: Definition, env: Env, e: Engine, sig: Signal, tr: Transition, target: StateId)
    requires RunTransition(def, env, e, sig, tr, target).failed.Some?
    ensures var w := RunTransition(def, env, e, sig, tr, target);
      w.failed.Some? && FailedAs(def, env, e, w.p.calls, sig, tr, target, w.failed.value)
  {
    var p0 := StartPending(e);
    hide ExecuteActions, SeedMissing, ListDid, FailedAs;
    var w1 := if tr.actions == [] then Work(p0, None) else ExecuteActions(env, tr.actions, sig, e.current, p0);
    if w1.failed.Some? {
      OwnFailed(def, env, e, sig, tr, target);
    } else {
      NothingRan(env, sig, e.current, p0);
      ListExecuted(env, tr.actions, sig, e.current, p0);
      var w2 := SeedMissing(env, SeedsOf(def, target), w1.p);
      SeedsPut(env, SeedsOf(def, target), w1.p);
      hide SeededWith, FirstsValid;
      if w2.failed.Some? {
        SeedsFailed(def, env, e, sig, tr, target, w1.p);
      } else {
        EntryFailed(def, env, e, sig, tr, target, w1.p, w2.p);
      }
    }
  }

  /** A step that threw from a transition: which of its calls was the last, and why it failed. */
  lemma FailureDid(def: Definition, env: Env, e: Engine, sig: Signal) returns (tr: Transition, target: StateId)
    requires var r := Step(def, env, e, sig); r.Threw? && (r.why.ActionFailed? || r.why.SeedInvalid?)
    ensures e.current in def.states && sig.kind in Handlers(def.states[e.current])
    ensures var listed := Transitions(Handlers(def.states[e.current])[sig.kind]); listed != [] && tr == listed[0]
    ensures exists skipped :: IsResolution(def, Skips(sig), tr.target, Landed(skipped, target))
    ensures var r := Step(def, env, e, sig); r.Threw? && FailedAs(def, env, e, r.e.log.calls, sig, tr, target, r.why)
  {
    var shape := StepShape(def, env, e, sig);
    hide Step, SaveAll, IsResolution, RunTransition, Extends, FailedAs, Commit;
    if shape.Took? { SaveAllMoves(env, Commit(def, Skipped(e, shape.skipped), shape.p, shape.target)); }
    tr, target := shape.tr, shape.target;
    TransitionFailed(def, env, e, sig, tr, target);
  }

  /** Through which states a committed step went: those its signal asks to skip, from the listed target on, each
      leading on to the next only, to one that is not to be skipped, or is initial or final. For each a skip event was
      sent. */
  lemma CommitSkipped(def: Definition, env: Env, e: Engine, sig: Signal) returns (tr: Transition, skipped: seq<StateId>)
    requires PastActions(Step(def, env, e, sig))
    ensures e.current in def.states && sig.kind in Handlers(def.states[e.current])
    ensures var listed := Transitions(Handlers(def.states[e.current])[sig.kind]); listed != [] && tr == listed[0]
    ensures var b := Step(def, env, e, sig).e;
      var asked := if sig.context.Some? then sig.context.value.skipStates else [];
      var path := skipped + [b.current];
      && path[0] == tr.target && SkippedPath(def, asked, path) && StaysAt(def, asked, b.current)
      && b.log.skipEvents == e.log.skipEvents + skipped
  {
    var target, p;
    tr, target, p, skipped := CommitTakesAll(def, env, e, sig);
    hide Step, SaveAll, Resolve, IsResolution, Arrived, ArrivedInSaves, RunTransition, Extends;
    ResolutionMeans(def, Skips(sig), tr.target, Landed(skipped, target));
    hide SkippedPath, StaysAt;
  }
}
