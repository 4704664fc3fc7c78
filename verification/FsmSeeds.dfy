/** The documents that a state brings with it (packages/fsm-engine/fsm-engine.ts:997-1007). */
module FsmSeeds {
  import opened Options
  import opened FsmDefinition
  import opened FsmTransaction

  function SeedsOf(def: Definition, s: StateId): seq<Document> {
    if s in def.states then def.states[s].documents else []
  }

  /** Entry `i` is the first for an id that is not there yet. */
  predicate IsFirst(docs: seq<Document>, before: Docs, i: nat)
    requires i < |docs|
  {
    docs[i].id !in before && forall j | 0 <= j < i :: docs[j].id != docs[i].id
  }

  ghost predicate FirstsValid(env: Env, docs: seq<Document>, before: Docs) {
    forall i | 0 <= i < |docs| && IsFirst(docs, before, i) :: env.valid(docs[i].docType, docs[i].data)
  }

  /** What was there stays, the first document of every other id is put in, and nothing else. */
  ghost predicate SeededWith(docs: seq<Document>, before: Docs, after: Docs) {
    && (forall id | id in before :: id in after && after[id] == before[id])
    && (forall i | 0 <= i < |docs| && IsFirst(docs, before, i) :: docs[i].id in after && after[docs[i].id] == docs[i])
    && (forall id | id in after :: id in before || exists i :: 0 <= i < |docs| && docs[i].id == id)
  }

  lemma FirstsShift(docs: seq<Document>, before: Docs, next: Docs, i: nat)
    requires docs != [] && i < |docs| - 1 && next.Keys == before.Keys + {docs[0].id}
    ensures IsFirst(docs, before, i + 1) <==> IsFirst(docs[1..], next, i)
  {
    if IsFirst(docs[1..], next, i) {
      forall j | 0 <= j < i + 1 ensures docs[j].id != docs[i + 1].id {
        if j > 0 { assert docs[1..][j - 1] == docs[j]; }
      }
    }
    assert docs[1..][i] == docs[i + 1];
    if IsFirst(docs, before, i + 1) {
      forall j | 0 <= j < i ensures docs[1..][j].id != docs[1..][i].id {
        assert docs[1..][j] == docs[j + 1];
      }
    }
  }

  lemma FirstOrRest(docs: seq<Document>, before: Docs, next: Docs, i: nat)
    requires docs != [] && next.Keys == before.Keys + {docs[0].id} && i < |docs| && IsFirst(docs, before, i)
    ensures i == 0 ==> docs[0].id !in before
    ensures i > 0 ==> IsFirst(docs[1..], next, i - 1) && docs[1..][i - 1] == docs[i]
  {
    if i > 0 { FirstsShift(docs, before, next, i - 1); }
  }

  lemma SeedsShift(env: Env, docs: seq<Document>, before: Docs, next: Docs)
    requires docs != [] && next.Keys == before.Keys + {docs[0].id}
    requires docs[0].id in before || env.valid(docs[0].docType, docs[0].data)
    ensures FirstsValid(env, docs, before) <==> FirstsValid(env, docs[1..], next)
  {
    forall i | 0 <= i < |docs| - 1 ensures IsFirst(docs, before, i + 1) <==> IsFirst(docs[1..], next, i) {
      FirstsShift(docs, before, next, i);
    }
    hide IsFirst;
    if FirstsValid(env, docs, before) {
      forall i | 0 <= i < |docs[1..]| && IsFirst(docs[1..], next, i)
        ensures env.valid(docs[1..][i].docType, docs[1..][i].data)
      {
        assert IsFirst(docs, before, i + 1) && docs[1..][i] == docs[i + 1];
      }
    }
    if FirstsValid(env, docs[1..], next) {
      forall i | 0 <= i < |docs| && IsFirst(docs, before, i) ensures env.valid(docs[i].docType, docs[i].data) {
        FirstOrRest(docs, before, next, i);
      }
    }
  }

  lemma SeededMore(docs: seq<Document>, before: Docs, next: Docs, after: Docs)
    requires docs != [] && SeededWith(docs[1..], next, after)
    requires next == if docs[0].id in before then before else before[docs[0].id := docs[0]]
    ensures SeededWith(docs, before, after)
  {
    forall i | 0 <= i < |docs| && IsFirst(docs, before, i) ensures docs[i].id in after && after[docs[i].id] == docs[i] {
      FirstOrRest(docs, before, next, i);
      if i == 0 { assert docs[0].id in next; }
    }
    forall id | id in after && id !in before ensures exists i :: 0 <= i < |docs| && docs[i].id == id {
      if id != docs[0].id {
        var i :| 0 <= i < |docs[1..]| && docs[1..][i].id == id;
        assert docs[i + 1].id == id;
      }
    }
  }

  lemma {:induction false} SeedsPut(env: Env, docs: seq<Document>, p: Pending)
    ensures var w := SeedMissing(env, docs, p);
      && w.p == p.(docs := w.p.docs)
      && (w.failed.None? <==> FirstsValid(env, docs, p.docs))
      && (w.failed.None? ==> SeededWith(docs, p.docs, w.p.docs))
      && (w.failed.Some? ==> w.failed.value.SeedInvalid?)
    decreases |docs|
  {
    if docs == [] {
      return;
    }
    if docs[0].id !in p.docs && !env.valid(docs[0].docType, docs[0].data) {
      assert IsFirst(docs, p.docs, 0);
      return;
    }
    var q := if docs[0].id in p.docs then p else PutDoc(p, docs[0].id, docs[0]);
    SeedsPut(env, docs[1..], q);
    assert q.docs.Keys == p.docs.Keys + {docs[0].id};
    SeedsShift(env, docs, p.docs, q.docs);
    var w := SeedMissing(env, docs[1..], q);
    if w.failed.None? {
      SeededMore(docs, p.docs, q.docs, w.p.docs);
    }
  }

  lemma {:induction false} SeedThere(docs: seq<Document>, before: Docs, after: Docs, i: nat)
    requires SeededWith(docs, before, after) && i < |docs|
    ensures docs[i].id in after
    decreases i
  {
    if docs[i].id !in before && !IsFirst(docs, before, i) {
      var j :| 0 <= j < i && docs[j].id == docs[i].id;
      SeedThere(docs, before, after, j);
    }
  }

  lemma AllSeedsThere(docs: seq<Document>, before: Docs, after: Docs)
    requires SeededWith(docs, before, after)
    ensures forall i | 0 <= i < |docs| :: docs[i].id in after
  {
    forall i | 0 <= i < |docs| ensures docs[i].id in after {
      SeedThere(docs, before, after, i);
    }
  }
}
