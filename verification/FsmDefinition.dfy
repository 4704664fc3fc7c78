/** The data an FSM definition is made of (packages/fsm-engine/types.ts). */
module FsmDefinition {
  import opened Options

  type StateId = string

  datatype Json =
    | Null
    | Bool(b: bool)
    | Number(n: real)
    | Text(s: string)
    | Array(items: seq<Json>)
    | Object(fields: map<string, Json>)

  type Record = map<string, Json>

  datatype Document = Document(id: string, docType: string, data: Record)

  datatype ExternalKind = Llm | Agent | Notification

  /** `emit` is concrete; the other three kinds call systems outside the engine. */
  datatype Action =
    | Emit(event: string, data: Option<Record>)
    | External(kind: ExternalKind, spec: string)

  datatype Transition = Transition(target: StateId, actions: seq<Action>)

  /** `on[event]` holds either one transition or an array of them. */
  datatype Handler = Single(transition: Transition) | Many(transitions: seq<Transition>)

  datatype State = State(
    documents: seq<Document>,
    entry: Option<seq<Action>>,
    on: Option<map<string, Handler>>,
    final: bool)

  datatype Definition = Definition(
    id: string,
    initial: StateId,
    states: map<StateId, State>,
    documentTypes: Option<set<string>>)

  function Transitions(h: Handler): seq<Transition> {
    match h
    case Single(t) => [t]
    case Many(ts) => ts
  }

  function Handlers(s: State): map<string, Handler> {
    s.on.GetOr(map[])
  }

  /** Some transition listed for `event` in `s` leads to `target`. */
  ghost predicate Leads(s: State, event: string, target: StateId) {
    event in Handlers(s) &&
    exists i | 0 <= i < |Transitions(Handlers(s)[event])| ::
      Transitions(Handlers(s)[event])[i].target == target
  }

  /** The validator's edge relation: every listed transition of every handler. */
  ghost predicate Edge(def: Definition, a: StateId, b: StateId) {
    a in def.states && exists event :: Leads(def.states[a], event, b)
  }

  /** A walk along edges from the initial state that uses no empty name. */
  ghost predicate Walk(def: Definition, p: seq<StateId>) {
    |p| > 0 && p[0] == def.initial &&
    (forall i | 0 <= i < |p| :: p[i] != "") &&
    (forall i | 0 <= i < |p| - 1 :: Edge(def, p[i], p[i + 1]))
  }

  ghost predicate Reachable(def: Definition, s: StateId) {
    exists p :: Walk(def, p) && p[|p| - 1] == s
  }

  lemma ReachableStep(def: Definition, a: StateId, b: StateId)
    requires Reachable(def, a) && Edge(def, a, b) && b != ""
    ensures Reachable(def, b)
  {
    var p :| Walk(def, p) && p[|p| - 1] == a;
    var q := p + [b];
    assert Walk(def, q) && q[|q| - 1] == b;
  }
}
