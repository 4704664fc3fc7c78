/**
 * What the edits of a foreign action do to the pending documents and results
 * (packages/fsm-engine/fsm-engine.ts:1262-1290, 2507-2580), and when the engine's own checks refuse one.
 */
module FsmEdits {
  import opened Options
  import opened FsmDefinition
  import opened FsmTransaction

  /** The new data of a document: given keys replace old ones, other keys stay. */
  ghost predicate Merges(before: Record, data: Record, after: Record) {
    && (forall k | k in data :: k in after && after[k] == data[k])
    && (forall k | k in before && k !in data :: k in after && after[k] == before[k])
    && (forall k | k in after :: k in before || k in data)
  }

  /** Everything but document `id` is as it was. */
  ghost predicate OthersStay(before: Docs, after: Docs, id: string) {
    && (forall other | other != id :: other in after <==> other in before)
    && (forall other | other in before && other != id :: after[other] == before[other])
  }

  /** An edit that breaks a rule: creating what is there, updating what is not, or writing data that is not valid. */
  ghost predicate Refused(env: Env, docs: Docs, e: Edit) {
    match e
    case CreateDoc(doc) => doc.id in docs || !env.valid(doc.docType, doc.data)
    case UpdateDoc(id, data) =>
      id !in docs || exists merged :: Merges(docs[id].data, data, merged) && !env.valid(docs[id].docType, merged)
    case _ => false
  }

  /** What one accepted edit does. */
  ghost predicate Does(e: Edit, docs: Docs, results: Results, docs': Docs, results': Results) {
    match e
    case StoreOutput(id, docType, data) =>
      && results' == results && OthersStay(docs, docs', id) && id in docs'
      && (id in docs ==>
            && docs'[id].id == docs[id].id && docs'[id].docType == docs[id].docType
            && Merges(docs[id].data, data, docs'[id].data))
      && (id !in docs ==> docs'[id] == Document(id, docType, data))
    case SetResult(key, data) =>
      if key in docs then
        && results' == results && OthersStay(docs, docs', key) && key in docs'
        && docs'[key].id == docs[key].id && docs'[key].docType == docs[key].docType && docs'[key].data == data
      else
        && docs' == docs && key in results' && results'[key] == data
        && (forall k | k != key :: k in results' <==> k in results)
        && (forall k | k != key && k in results :: results'[k] == results[k])
    case CreateDoc(doc) =>
      results' == results && OthersStay(docs, docs', doc.id) && doc.id in docs' && docs'[doc.id] == doc
    case UpdateDoc(id, data) =>
      && results' == results && OthersStay(docs, docs', id) && id in docs && id in docs'
      && docs'[id].id == docs[id].id && docs'[id].docType == docs[id].docType
      && Merges(docs[id].data, data, docs'[id].data)
    case DeleteDoc(id) => results' == results && OthersStay(docs, docs', id) && id !in docs'
    case EmitSignal(_) => docs' == docs && results' == results
  }

  lemma MergesOneWay(before: Record, data: Record, merged: Record)
    requires Merges(before, data, merged)
    ensures merged == before + data
  {
    assert merged.Keys == (before + data).Keys;
  }

  /** An edit is refused exactly when it breaks a rule, and otherwise does what it says. */
  lemma EditMeaning(env: Env, sig: Signal, p: Pending, e: Edit)
    ensures var r := ApplyEdit(env, sig, p, e);
      && (r.None? <==> Refused(env, p.docs, e))
      && (r.Some? ==> Does(e, p.docs, p.results, r.value.docs, r.value.results))
  {
    if e.UpdateDoc? && e.id in p.docs {
      var merged := p.docs[e.id].data + e.data;
      assert Merges(p.docs[e.id].data, e.data, merged);
      forall other | Merges(p.docs[e.id].data, e.data, other) ensures other == merged {
        MergesOneWay(p.docs[e.id].data, e.data, other);
      }
    }
    hide Cascade;
  }

  type Shown = (Docs, Results)

  /** `seen` lists what each edit finds, in order, as far as none is refused. */
  ghost predicate EditsRun(env: Env, edits: seq<Edit>, seen: seq<Shown>) {
    && 1 <= |seen| <= |edits| + 1
    && (forall i | 0 <= i < |seen| - 1 ::
          && !Refused(env, seen[i].0, edits[i])
          && Does(edits[i], seen[i].0, seen[i].1, seen[i + 1].0, seen[i + 1].1))
  }

  /** All edits are accepted, and lead from `before` to `after`. */
  ghost predicate EditsLead(env: Env, edits: seq<Edit>, before: Shown, after: Shown) {
    exists seen: seq<Shown> :: EditsRun(env, edits, seen)
      && |seen| == |edits| + 1 && seen[0] == before && seen[|edits|] == after
  }

  /** The edit that finds the last of `seen` is refused. */
  ghost predicate StopsAfter(env: Env, edits: seq<Edit>, seen: seq<Shown>) {
    1 <= |seen| <= |edits| && Refused(env, seen[|seen| - 1].0, edits[|seen| - 1])
  }

  /** Some edit is refused after all before it were accepted. */
  ghost predicate EditsStop(env: Env, edits: seq<Edit>, before: Shown) {
    exists seen: seq<Shown> :: EditsRun(env, edits, seen) && StopsAfter(env, edits, seen) && seen[0] == before
  }

  lemma NoEdits(env: Env, before: Shown)
    ensures EditsLead(env, [], before, before)
  {
    var seen := [before];
    assert EditsRun(env, [], seen);
  }

  /** The first edit is accepted and leads from `before` to `next`. */
  ghost predicate Begins(env: Env, edits: seq<Edit>, before: Shown, next: Shown) {
    edits != [] && !Refused(env, before.0, edits[0]) && Does(edits[0], before.0, before.1, next.0, next.1)
  }

  lemma RunMore(env: Env, edits: seq<Edit>, before: Shown, seen: seq<Shown>)
    requires edits != [] && EditsRun(env, edits[1..], seen) && Begins(env, edits, before, seen[0])
    ensures EditsRun(env, edits, [before] + seen)
  {
    var all := [before] + seen;
    hide Refused, Does;
    forall i | 0 <= i < |all| - 1
      ensures !Refused(env, all[i].0, edits[i]) && Does(edits[i], all[i].0, all[i].1, all[i + 1].0, all[i + 1].1)
    {
      if i > 0 {
        assert all[i] == seen[i - 1] && all[i + 1] == seen[i] && edits[i] == edits[1..][i - 1];
      }
    }
  }

  lemma LeadsMore(env: Env, edits: seq<Edit>, before: Shown, next: Shown, after: Shown)
    requires Begins(env, edits, before, next) && EditsLead(env, edits[1..], next, after)
    ensures EditsLead(env, edits, before, after)
  {
    hide Refused, Does;
    var seen: seq<Shown> :| EditsRun(env, edits[1..], seen)
      && |seen| == |edits[1..]| + 1 && seen[0] == next && seen[|edits[1..]|] == after;
    RunMore(env, edits, before, seen);
    hide EditsRun;
    var all := [before] + seen;
    assert |all| == |edits| + 1 && all[0] == before && all[|edits|] == after;
  }

  lemma RefusedMore(env: Env, edits: seq<Edit>, before: Shown, seen: seq<Shown>)
    requires edits != [] && StopsAfter(env, edits[1..], seen)
    ensures StopsAfter(env, edits, [before] + seen)
  {
    hide Refused;
    assert edits[1..][|seen| - 1] == edits[|seen|];
  }

  lemma StopsMore(env: Env, edits: seq<Edit>, before: Shown, next: Shown)
    requires Begins(env, edits, before, next) && EditsStop(env, edits[1..], next)
    ensures EditsStop(env, edits, before)
  {
    var seen: seq<Shown> :| EditsRun(env, edits[1..], seen) && StopsAfter(env, edits[1..], seen) && seen[0] == next;
    assert edits != [];
    hide Begins, EditsRun, StopsAfter;
    RunMore(env, edits, before, seen);
    RefusedMore(env, edits, before, seen);
    assert ([before] + seen)[0] == before;
  }

  function Held(p: Pending): Shown {
    (p.docs, p.results)
  }

  /** A list of edits runs to the first that is refused. */
  lemma {:induction false} EditsMeaning(env: Env, sig: Signal, p: Pending, edits: seq<Edit>)
    ensures var w := ApplyEdits(env, sig, p, edits);
      if w.failed.None? then EditsLead(env, edits, (p.docs, p.results), (w.p.docs, w.p.results))
      else EditsStop(env, edits, (p.docs, p.results))
    decreases |edits|
  {
    hide Refused, Does, ApplyEdit;
    if edits == [] {
      NoEdits(env, (p.docs, p.results));
    } else {
      EditMeaning(env, sig, p, edits[0]);
      match ApplyEdit(env, sig, p, edits[0]) {
        case None =>
          var seen := [(p.docs, p.results)];
          assert EditsRun(env, edits, seen);
        case Some(q) =>
          EditsMeaning(env, sig, q, edits[1..]);
          var w := ApplyEdits(env, sig, q, edits[1..]);
          hide ApplyEdits, EditsLead, EditsStop;
          if w.failed.None? {
            LeadsMore(env, edits, Held(p), Held(q), Held(w.p));
          } else {
            StopsMore(env, edits, Held(p), Held(q));
          }
      }
    }
  }

  // ---- between the calls of a list ----

  function ShownTo(c: Call): Shown {
    (c.docs, c.results)
  }

  /** Call number `k` did not throw, and its edits lead to `after`. */
  ghost predicate CallLeads(env: Env, k: nat, c: Call, after: Shown) {
    !env.act(k, c).throws && EditsLead(env, env.act(k, c).edits, ShownTo(c), after)
  }

  /** Call number `k` threw, or asked for an edit that is refused. */
  ghost predicate CallFails(env: Env, k: nat, c: Call) {
    env.act(k, c).throws || EditsStop(env, env.act(k, c).edits, ShownTo(c))
  }

  /** What call number `j` is shown, or what is left when there is none. */
  function ShownAt(calls: seq<Call>, left: Shown, j: nat): Shown {
    if j < |calls| then ShownTo(calls[j]) else left
  }

  /** The first call from `n` on is shown `before`, each next one what the edits of the one before led to, and `left` is
      what the last one led to. */
  ghost predicate Chained(env: Env, calls: seq<Call>, n: nat, before: Shown, left: Shown) {
    && n <= |calls| && ShownAt(calls, left, n) == before
    && (forall j | n <= j < |calls| :: CallLeads(env, j, calls[j], ShownAt(calls, left, j + 1)))
  }

  /** The same for a list whose last call failed. */
  ghost predicate ChainFails(env: Env, calls: seq<Call>, n: nat, before: Shown) {
    && n < |calls| && ShownTo(calls[n]) == before && CallFails(env, |calls| - 1, calls[|calls| - 1])
    && (forall j | n <= j < |calls| - 1 :: CallLeads(env, j, calls[j], ShownTo(calls[j + 1])))
  }

  lemma CallEdits(env: Env, action: Action, sig: Signal, state: StateId, input: Option<Record>, p: Pending)
    requires action.External?
    ensures var w := Perform(env, action, sig, state, input, p);
      var c := Call(action, sig, state, input, p.docs, p.results);
      && w.p.calls == p.calls + [c]
      && if w.failed.None? then CallLeads(env, |p.calls|, c, Held(w.p)) else CallFails(env, |p.calls|, c)
  {
    var c := Call(action, sig, state, input, p.docs, p.results);
    var reply := env.act(|p.calls|, c);
    var p1 := p.(calls := p.calls + [c], arrivals := p.arrivals + reply.arrivals);
    EditsMeaning(env, sig, p1, reply.edits);
    EditsExtend(env, sig, p1, reply.edits);
    hide ApplyEdits, EditsLead, EditsStop;
  }

  lemma ChainStep(env: Env, calls: seq<Call>, c: Call, rest: seq<Call>, mid: Shown, left: Shown)
    requires calls + [c] <= rest && CallLeads(env, |calls|, c, mid) && Chained(env, rest, |calls| + 1, mid, left)
    ensures Chained(env, rest, |calls|, ShownTo(c), left)
  {
    hide CallLeads;
    assert rest[|calls|] == c;
  }

  lemma ChainFailsStep(env: Env, calls: seq<Call>, c: Call, rest: seq<Call>, mid: Shown)
    requires calls + [c] <= rest && CallLeads(env, |calls|, c, mid) && ChainFails(env, rest, |calls| + 1, mid)
    ensures ChainFails(env, rest, |calls|, ShownTo(c))
  {
    hide CallLeads, CallFails;
    assert rest[|calls|] == c;
  }

  lemma ChainFailsAtOnce(env: Env, calls: seq<Call>, c: Call)
    requires CallFails(env, |calls|, c)
    ensures ChainFails(env, calls + [c], |calls|, ShownTo(c))
  {
    hide CallFails;
  }

  /** A list is its first action and, when that succeeds, the rest. */
  lemma FirstThenRest(env: Env, actions: seq<Action>, sig: Signal, state: StateId, input: Option<Record>, p: Pending)
    requires actions != []
    ensures var w := Perform(env, actions[0], sig, state, input, p);
      PerformAll(env, actions, sig, state, input, p)
        == if w.failed.Some? then w else PerformAll(env, actions[1..], sig, state, input, w.p)
  {
    hide Perform;
  }

  ghost predicate WorkChained(env: Env, p: Pending, w: Work) {
    && p.calls <= w.p.calls
    && if w.failed.None? then Chained(env, w.p.calls, |p.calls|, Held(p), Held(w.p))
       else ChainFails(env, w.p.calls, |p.calls|, Held(p))
  }

  lemma CallThenRest(env: Env, p: Pending, c: Call, q: Pending, v: Work)
    requires q.calls == p.calls + [c] && ShownTo(c) == Held(p) && CallLeads(env, |p.calls|, c, Held(q))
    requires WorkChained(env, q, v)
    ensures WorkChained(env, p, v)
  {
    hide Chained, ChainFails, CallLeads;
    if v.failed.None? {
      ChainStep(env, p.calls, c, v.p.calls, Held(q), Held(v.p));
    } else {
      ChainFailsStep(env, p.calls, c, v.p.calls, Held(q));
    }
  }

  /** The calls of a list of actions, from one to the next. */
  lemma {:induction false} ListChained(env: Env, actions: seq<Action>, sig: Signal, state: StateId,
      input: Option<Record>, p: Pending)
    ensures WorkChained(env, p, PerformAll(env, actions, sig, state, input, p))
    decreases |actions|
  {
    if actions == [] {
      return;
    }
    FirstThenRest(env, actions, sig, state, input, p);
    var w := Perform(env, actions[0], sig, state, input, p);
    hide PerformAll;
    if actions[0].Emit? {
      ListChained(env, actions[1..], sig, state, input, w.p);
      hide Chained, ChainFails;
    } else {
      CallEdits(env, actions[0], sig, state, input, p);
      var c := Call(actions[0], sig, state, input, p.docs, p.results);
      hide Perform, CallLeads, CallFails;
      if w.failed.Some? {
        ChainFailsAtOnce(env, p.calls, c);
        hide ChainFails;
      } else {
        ListChained(env, actions[1..], sig, state, input, w.p);
        hide WorkChained;
        CallThenRest(env, p, c, w.p, PerformAll(env, actions[1..], sig, state, input, w.p));
      }
    }
  }
}
