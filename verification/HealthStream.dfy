/**
 * The health stream as a protocol (tools/friday-launcher/healthsvc.go:139-226, 385-424, 505-567): writers change the
 * services under one lock and notify under another, consumers subscribe, drain, send snapshots and wait for ticks.
 * Steps of all of them interleave in any order.
 */
module HealthStream {
  import opened Options
  import opened HealthCache

  /** Where the handler of one stream stands: before the drain, about to take a snapshot, or waiting for a tick. */
  datatype Phase = Draining | Emitting | Waiting

  /** `sent` is the snapshot that the client got last. */
  datatype Consumer = Consumer(phase: Phase, sent: Option<seq<Service>>)

  /** `owing` holds the writers that have left their first lock section with a change and have not notified yet. */
  datatype Hub = Hub(
    services: seq<Service>,
    customReady: Ready,
    subs: map<nat, nat>,
    consumers: map<nat, Consumer>,
    closed: set<nat>,
    owing: set<nat>)

  datatype Step =
    | RecordReady(writer: nat, name: string, ready: bool, now: int)
    | RecordStates(writer: nat, states: seq<Process>, now: int)
    | Notify(writer: nat)
    | Connect(ch: nat)
    | Drain(ch: nat)
    | Emit(ch: nat, written: bool)
    | Take(ch: nat)
    | Disconnect(ch: nat)

  const START := Hub([], map[], map[], map[], {}, {})

  predicate At(h: Hub, ch: nat, phase: Phase) {
    ch in h.consumers && h.consumers[ch].phase == phase
  }

  /** The consumer's part in one step: how many ticks its channel holds, and where it stands. */
  function Put(h: Hub, ch: nat, buffered: nat, c: Consumer): Hub {
    h.(subs := h.subs[ch := buffered], consumers := h.consumers[ch := c])
  }

  /** `Unsubscribe`: out of the set, and the channel is closed. */
  function Leave(h: Hub, ch: nat): Hub {
    h.(subs := h.subs - {ch}, consumers := h.consumers - {ch}, closed := h.closed + {ch})
  }

  function Owes(h: Hub, writer: nat, notify: bool): set<nat> {
    if notify then h.owing + {writer} else h.owing
  }

  /** One step; a step whose thread is elsewhere does nothing. */
  function Next(h: Hub, step: Step): Hub {
    match step
    case RecordReady(w, name, ready, now) =>
      if w in h.owing then h
      else h.(services := AfterVerdict(h.services, h.customReady, name, ready, now),
              customReady := h.customReady[name := ready],
              owing := Owes(h, w, Flips(h.customReady, name, ready)))
    case RecordStates(w, states, now) =>
      if w in h.owing then h
      else h.(services := Updated(h.services, states, h.customReady, now),
              owing := Owes(h, w, UpdateNotifies(h.services, states, h.customReady, now)))
    case Notify(w) =>
      if w in h.owing then h.(subs := AllSent(h.subs), owing := h.owing - {w}) else h
    case Connect(ch) =>
      if ch in h.subs || ch in h.closed || |h.subs| >= MAX_SUBSCRIBERS then h
      else Put(h, ch, 0, Consumer(Draining, None))
    case Drain(ch) =>
      if At(h, ch, Draining) then Put(h, ch, 0, h.consumers[ch].(phase := Emitting)) else h
    case Emit(ch, written) =>
      if !At(h, ch, Emitting) || ch !in h.subs then h
      else if written then Put(h, ch, h.subs[ch], Consumer(Waiting, Some(h.services)))
      else Leave(h, ch)
    case Take(ch) =>
      if At(h, ch, Waiting) && ch in h.subs && h.subs[ch] > 0
      then Put(h, ch, h.subs[ch] - 1, h.consumers[ch].(phase := Emitting))
      else h
    case Disconnect(ch) =>
      if At(h, ch, Waiting) then Leave(h, ch) else h
  }

  function Run(steps: seq<Step>): Hub {
    if steps == [] then START else Next(Run(steps[..|steps| - 1]), steps[|steps| - 1])
  }

  // ---- the invariant ----

  /** The client has the current services, or something is on its way to bring them. */
  ghost predicate WillSee(h: Hub, ch: nat)
    requires ch in h.subs && ch in h.consumers
  {
    || h.consumers[ch].sent == Some(h.services)
    || h.subs[ch] == 1
    || h.consumers[ch].phase != Waiting
    || h.owing != {}
  }

  ghost predicate Inv(h: Hub) {
    && h.subs.Keys == h.consumers.Keys
    && |h.subs| <= MAX_SUBSCRIBERS
    && h.subs.Keys !! h.closed
    && (forall ch | ch in h.subs :: h.subs[ch] <= 1 && WillSee(h, ch))
  }

  lemma RecordReadyKeeps(h: Hub, step: Step)
    requires Inv(h) && step.RecordReady?
    ensures Inv(Next(h, step))
  {
    hide Bumped;
  }

  lemma RecordStatesKeeps(h: Hub, step: Step)
    requires Inv(h) && step.RecordStates?
    ensures Inv(Next(h, step))
  {
    QuietUpdate(h.services, step.states, h.customReady, step.now);
    hide Updated, UpdateNotifies;
  }

  lemma SameSize(subs: map<nat, nat>)
    ensures |AllSent(subs)| == |subs| && AllSent(subs).Keys == subs.Keys
  {
    assert AllSent(subs).Keys == subs.Keys;
    assert |AllSent(subs).Keys| == |AllSent(subs)| && |subs.Keys| == |subs|;
  }

  lemma NotifyKeeps(h: Hub, step: Step)
    requires Inv(h) && step.Notify?
    ensures Inv(Next(h, step))
  {
    SameSize(h.subs);
  }

  lemma ConnectKeeps(h: Hub, step: Step)
    requires Inv(h) && step.Connect?
    ensures Inv(Next(h, step))
  {
  }

  lemma Same(subs: map<nat, nat>, ch: nat, n: nat)
    requires ch in subs
    ensures |subs[ch := n]| == |subs| && |subs - {ch}| < |subs|
  {
    assert subs[ch := n].Keys == subs.Keys;
    assert |subs[ch := n].Keys| == |subs[ch := n]| && |subs.Keys| == |subs|;
    assert (subs - {ch}).Keys == subs.Keys - {ch} && |(subs - {ch}).Keys| == |subs - {ch}|;
  }

  lemma PutKeeps(h: Hub, ch: nat, n: nat, c: Consumer)
    requires Inv(h) && ch in h.subs && n <= 1
    requires c.sent == Some(h.services) || c.phase != Waiting
    ensures Inv(Put(h, ch, n, c))
  {
    Same(h.subs, ch, n);
    hide MAX_SUBSCRIBERS;
  }

  lemma LeaveKeeps(h: Hub, ch: nat)
    requires Inv(h) && ch in h.subs
    ensures Inv(Leave(h, ch))
  {
    Same(h.subs, ch, 0);
    hide MAX_SUBSCRIBERS;
  }

  lemma Registered(h: Hub, ch: nat)
    requires Inv(h)
    ensures ch in h.consumers <==> ch in h.subs
    ensures ch in h.subs ==> h.subs[ch] <= 1
  {
  }

  lemma DrainKeeps(h: Hub, ch: nat)
    requires Inv(h)
    ensures Inv(Next(h, Drain(ch)))
  {
    Registered(h, ch);
    hide Put, Inv;
    if At(h, ch, Draining) {
      PutKeeps(h, ch, 0, h.consumers[ch].(phase := Emitting));
    }
  }

  lemma EmitKeeps(h: Hub, ch: nat, written: bool)
    requires Inv(h)
    ensures Inv(Next(h, Emit(ch, written)))
  {
    Registered(h, ch);
    hide Put, Leave, Inv;
    if ch in h.subs {
      LeaveKeeps(h, ch);
      PutKeeps(h, ch, h.subs[ch], Consumer(Waiting, Some(h.services)));
    }
  }

  lemma TakeKeeps(h: Hub, ch: nat)
    requires Inv(h)
    ensures Inv(Next(h, Take(ch)))
  {
    Registered(h, ch);
    hide Put, Inv;
    if At(h, ch, Waiting) && h.subs[ch] > 0 {
      PutKeeps(h, ch, h.subs[ch] - 1, h.consumers[ch].(phase := Emitting));
    }
  }

  lemma DisconnectKeeps(h: Hub, ch: nat)
    requires Inv(h)
    ensures Inv(Next(h, Disconnect(ch)))
  {
    Registered(h, ch);
    hide Leave, Inv;
    if ch in h.subs {
      LeaveKeeps(h, ch);
    }
  }

  /** Every step of every thread keeps it. */
  lemma StepKeeps(h: Hub, step: Step)
    requires Inv(h)
    ensures Inv(Next(h, step))
  {
    hide Inv, Next;
    match step
    case RecordReady(_, _, _, _) => RecordReadyKeeps(h, step);
    case RecordStates(_, _, _) => RecordStatesKeeps(h, step);
    case Notify(_) => NotifyKeeps(h, step);
    case Connect(_) => ConnectKeeps(h, step);
    case Drain(ch) => DrainKeeps(h, ch);
    case Emit(ch, written) => EmitKeeps(h, ch, written);
    case Take(ch) => TakeKeeps(h, ch);
    case Disconnect(ch) => DisconnectKeeps(h, ch);
  }

  /** No lost wake-up, never more than one tick or a hundred subscribers, no send on a closed channel: in every
      interleaving. */
  lemma {:induction false} NoLostWakeup(steps: seq<Step>)
    ensures Inv(Run(steps))
  {
    if steps != [] {
      NoLostWakeup(steps[..|steps| - 1]);
      StepKeeps(Run(steps[..|steps| - 1]), steps[|steps| - 1]);
      hide Inv, Next;
    }
  }

  // ---- what it is for ----

  ghost predicate Quiet(h: Hub) {
    h.owing == {} && forall ch | ch in h.consumers && ch in h.subs ::
      h.consumers[ch].phase == Waiting && h.subs[ch] == 0
  }

  /** When nothing is under way every client has the current services. */
  lemma QuietMeansCurrent(steps: seq<Step>)
    ensures var h := Run(steps); Quiet(h) ==> forall ch | ch in h.consumers :: h.consumers[ch].sent == Some(h.services)
  {
    NoLostWakeup(steps);
    hide Run;
  }

  /** A client's own next steps, once no writer owes a notification. */
  function CatchUp(h: Hub, ch: nat): Hub {
    Next(Next(Next(Next(h, Drain(ch)), Emit(ch, true)), Take(ch)), Emit(ch, true))
  }

  /** Where the client is after its first two steps: it waits, with the current services sent or a tick to take. */
  lemma FirstHalf(h: Hub, ch: nat)
    requires Inv(h) && ch in h.subs && h.owing == {}
    ensures var k := Next(Next(h, Drain(ch)), Emit(ch, true));
      && ch in k.subs && At(k, ch, Waiting) && k.services == h.services
      && (k.consumers[ch].sent == Some(h.services) || k.subs[ch] > 0)
  {
    hide MAX_SUBSCRIBERS;
  }

  lemma SecondHalf(h: Hub, ch: nat)
    requires ch in h.subs && At(h, ch, Waiting)
    requires h.consumers[ch].sent == Some(h.services) || h.subs[ch] > 0
    ensures var k := Next(Next(h, Take(ch)), Emit(ch, true));
      ch in k.consumers && k.services == h.services && k.consumers[ch].sent == Some(h.services)
  {
  }

  /** Those steps bring it up to date, without help from any other thread. */
  lemma ClientCatchesUp(steps: seq<Step>, ch: nat)
    requires var h := Run(steps); ch in h.subs && h.owing == {}
    ensures var h := Run(steps); var k := CatchUp(h, ch);
      ch in k.consumers && k.services == h.services && k.consumers[ch].sent == Some(h.services)
  {
    NoLostWakeup(steps);
    hide Run, Next, Inv;
    var h := Run(steps);
    FirstHalf(h, ch);
    SecondHalf(Next(Next(h, Drain(ch)), Emit(ch, true)), ch);
  }

  /** Paying the debt leaves one tick in every registered channel, and none of them is closed. */
  lemma NotifyReachesAll(steps: seq<Step>, writer: nat)
    requires writer in Run(steps).owing
    ensures var h := Run(steps); var k := Next(h, Notify(writer));
      k.subs.Keys == h.subs.Keys && (forall ch | ch in k.subs :: k.subs[ch] == 1 && ch !in k.closed)
  {
    NoLostWakeup(steps);
    hide Run;
  }

  // ---- from the writers to the client ----

  /** A client that connects over a free place and a channel not used before is registered, and its first snapshot is
      what the services are then. */
  lemma ConnectedSees(steps: seq<Step>, ch: nat)
    requires var h := Run(steps); ch !in h.subs && ch !in h.closed && |h.subs| < 100
    ensures var h := Run(steps); var k := Next(Next(Next(h, Connect(ch)), Drain(ch)), Emit(ch, true));
      && ch in Next(h, Connect(ch)).subs
      && ch in k.subs && ch in k.consumers && k.consumers[ch].sent == Some(h.services) && k.services == h.services
  {
    hide Run, Inv;
  }

  /** And over a hundred clients, or once its channel was closed, it is turned away. */
  lemma ConnectRefused(h: Hub, ch: nat)
    requires ch !in h.subs
    ensures ch in Next(h, Connect(ch)).subs <==> ch !in h.closed && |h.subs| < 100
  {
  }

  lemma RunTwo(steps: seq<Step>, a: Step, b: Step)
    ensures Run(steps + [a, b]) == Next(Next(Run(steps), a), b)
  {
    hide Next;
    var more, one := steps + [a, b], steps + [a];
    assert more[..|more| - 1] == one && one[..|one| - 1] == steps;
  }

  lemma PollPaid(steps: seq<Step>, writer: nat, states: seq<Process>, now: int)
    requires Run(steps).owing == {}
    ensures var h := Run(steps); var k := Next(Next(h, RecordStates(writer, states, now)), Notify(writer));
      && k == Run(steps + [RecordStates(writer, states, now), Notify(writer)])
      && k.owing == {} && k.subs.Keys == h.subs.Keys
      && k.services == Updated(h.services, states, h.customReady, now) && k.customReady == h.customReady
  {
    hide Updated, UpdateNotifies, Run;
    RunTwo(steps, RecordStates(writer, states, now), Notify(writer));
  }

  /** A poll reaches every client: once its writer has notified, a client's own steps bring it records that say what the
      processes amount to. */
  lemma PollReachesClient(steps: seq<Step>, writer: nat, states: seq<Process>, now: int, ch: nat)
    requires var h := Run(steps); h.owing == {} && ch in h.subs
    requires DistinctNames(states)
    ensures var h := Run(steps);
      var k := CatchUp(Next(Next(h, RecordStates(writer, states, now)), Notify(writer)), ch);
      && ch in k.consumers && k.consumers[ch].sent.Some?
      && AllRecorded(h.services, states, h.customReady, now, k.consumers[ch].sent.value)
  {
    PollPaid(steps, writer, states, now);
    UpdateRecords(Run(steps).services, states, Run(steps).customReady, now);
    ClientCatchesUp(steps + [RecordStates(writer, states, now), Notify(writer)], ch);
    hide Run, Next, AllRecorded, Updated;
  }

  lemma VerdictPaid(steps: seq<Step>, writer: nat, name: string, ready: bool, now: int)
    requires Run(steps).owing == {}
    ensures var h := Run(steps); var k := Next(Next(h, RecordReady(writer, name, ready, now)), Notify(writer));
      && k == Run(steps + [RecordReady(writer, name, ready, now), Notify(writer)])
      && k.owing == {} && k.subs.Keys == h.subs.Keys && k.customReady == h.customReady[name := ready]
  {
    hide AfterVerdict, Run;
    RunTwo(steps, RecordReady(writer, name, ready, now), Notify(writer));
  }

  /** A verdict reaches every client with the next poll: a running process is healthy in what the client gets exactly
      when the verdict on it is good. */
  lemma VerdictReachesClient(steps: seq<Step>, prober: nat, poller: nat, ready: bool, states: seq<Process>, i: nat,
      now: int, later: int, ch: nat)
    requires var h := Run(steps); h.owing == {} && ch in h.subs
    requires DistinctNames(states) && i < |states| && states[i].status == Running
    ensures var h := Run(steps); var name := states[i].name;
      var told := Next(Next(h, RecordReady(prober, name, ready, now)), Notify(prober));
      var k := CatchUp(Next(Next(told, RecordStates(poller, states, later)), Notify(poller)), ch);
      && ch in k.consumers && k.consumers[ch].sent.Some?
      && LookUp(k.consumers[ch].sent.value, name).Some?
      && (LookUp(k.consumers[ch].sent.value, name).value.status == IsHealthy <==> ready)
  {
    var name := states[i].name;
    VerdictPaid(steps, prober, name, ready, now);
    PollReachesClient(steps + [RecordReady(prober, name, ready, now), Notify(prober)], poller, states, later, ch);
    hide Run, Next, LookUp;
  }
}
