/** The launcher's health record (tools/friday-launcher/healthsvc.go): status derivation, updates and the set of
    subscribers. */
module HealthCache {
  import opened Options

  const SUPERVISED_MAX_RESTARTS := 5
  const MAX_SUBSCRIBERS: nat := 100

  datatype ProcessStatus = Pending | Disabled | Scheduled | Error | Completed | Running | Other(word: string)

  datatype Process = Process(name: string, status: ProcessStatus, restarts: int)

  datatype Status = IsPending | IsStarting | IsHealthy | IsFailed

  datatype Service = Service(name: string, status: Status, transitionAt: int)

  type Ready = map<string, bool>

  function DeriveStatus(p: Process, customReady: bool): (s: Status)
    ensures s == IsHealthy <==> p.status == Running && customReady
    ensures s == IsFailed <==> p.status in {Error, Completed} && p.restarts >= SUPERVISED_MAX_RESTARTS
    ensures s == IsPending <==> p.status in {Pending, Disabled, Scheduled}
  {
    match p.status
    case Pending => IsPending
    case Disabled => IsPending
    case Scheduled => IsPending
    case Error => if p.restarts >= SUPERVISED_MAX_RESTARTS then IsFailed else IsStarting
    case Completed => if p.restarts >= SUPERVISED_MAX_RESTARTS then IsFailed else IsStarting
    case Running => if customReady then IsHealthy else IsStarting
    case Other(_) => IsStarting
  }

  /** A service without a verdict counts as not ready. */
  function Derived(p: Process, ready: Ready): Status {
    DeriveStatus(p, p.name in ready && ready[p.name])
  }

  function IndexByName(services: seq<Service>, name: string): (i: int)
    ensures -1 <= i < |services|
    ensures i >= 0 ==> services[i].name == name && forall j | 0 <= j < i :: services[j].name != name
    ensures i == -1 ==> forall j | 0 <= j < |services| :: services[j].name != name
  {
    if services == [] then -1
    else if services[0].name == name then 0
    else
      var i := IndexByName(services[1..], name);
      if i == -1 then -1 else i + 1
  }

  function LookUp(services: seq<Service>, name: string): Option<Service> {
    var i := IndexByName(services, name);
    if i >= 0 then Some(services[i]) else None
  }

  // ---- what an update does to the services ----

  /** One process of the snapshot, once services are known. */
  function Observe(services: seq<Service>, p: Process, ready: Ready, now: int): seq<Service> {
    var i := IndexByName(services, p.name);
    if i < 0 then services + [Service(p.name, Derived(p, ready), now)]
    else if services[i].status != Derived(p, ready)
      then services[i := Service(services[i].name, Derived(p, ready), now)]
    else services
  }

  predicate Shifts(services: seq<Service>, p: Process, ready: Ready) {
    var i := IndexByName(services, p.name);
    i < 0 || services[i].status != Derived(p, ready)
  }

  function ObserveAll(services: seq<Service>, states: seq<Process>, ready: Ready, now: int): seq<Service> {
    if states == [] then services
    else Observe(ObserveAll(services, states[..|states| - 1], ready, now), states[|states| - 1], ready, now)
  }

  predicate AnyShift(services: seq<Service>, states: seq<Process>, ready: Ready, now: int) {
    states != [] &&
    var init := states[..|states| - 1];
    AnyShift(services, init, ready, now) || Shifts(ObserveAll(services, init, ready, now), states[|states| - 1], ready)
  }

  function Seeded(states: seq<Process>, ready: Ready, now: int): seq<Service> {
    seq(|states|, i requires 0 <= i < |states| => Service(states[i].name, Derived(states[i], ready), now))
  }

  function Updated(services: seq<Service>, states: seq<Process>, ready: Ready, now: int): seq<Service> {
    if services == [] then Seeded(states, ready, now) else ObserveAll(services, states, ready, now)
  }

  predicate UpdateNotifies(services: seq<Service>, states: seq<Process>, ready: Ready, now: int) {
    if services == [] then states != [] else AnyShift(services, states, ready, now)
  }

  // ---- and what that means ----

  /** The record a process should have: its old one while the status stands, otherwise a new one from now. */
  function Expected(services: seq<Service>, p: Process, ready: Ready, now: int): Service {
    match LookUp(services, p.name)
    case Some(s) => if s.status == Derived(p, ready) then s else Service(p.name, Derived(p, ready), now)
    case None => Service(p.name, Derived(p, ready), now)
  }

  ghost predicate DistinctNames(states: seq<Process>) {
    forall i, j | 0 <= i < j < |states| :: states[i].name != states[j].name
  }

  ghost predicate Names(states: seq<Process>, name: string) {
    exists i | 0 <= i < |states| :: states[i].name == name
  }

  lemma LookUpIs(services: seq<Service>, i: nat)
    requires i < |services| && forall j | 0 <= j < i :: services[j].name != services[i].name
    ensures LookUp(services, services[i].name) == Some(services[i])
  {
  }

  lemma ObserveLookUp(services: seq<Service>, p: Process, ready: Ready, now: int, name: string)
    ensures LookUp(Observe(services, p, ready, now), name) ==
      if name == p.name then Some(Expected(services, p, ready, now)) else LookUp(services, name)
    ensures Observe(services, p, ready, now) != services <==> Shifts(services, p, ready)
  {
    hide Derived;
    var r := Observe(services, p, ready, now);
    var i := IndexByName(services, name);
    if name == p.name {
      LookUpIs(r, if i < 0 then |services| else i);
    } else if i >= 0 {
      LookUpIs(r, i);
    }
  }

  lemma SameExpectation(a: seq<Service>, b: seq<Service>, p: Process, ready: Ready, now: int)
    requires LookUp(a, p.name) == LookUp(b, p.name)
    ensures Expected(a, p, ready, now) == Expected(b, p, ready, now)
  {
  }

  /** After an update with distinct process names each process has its expected record; other services are untouched. */
  lemma {:induction false} ObserveAllLookUp(services: seq<Service>, states: seq<Process>, ready: Ready, now: int)
    requires DistinctNames(states)
    ensures var r := ObserveAll(services, states, ready, now);
      && (forall i | 0 <= i < |states| :: LookUp(r, states[i].name) == Some(Expected(services, states[i], ready, now)))
      && (forall name :: !Names(states, name) ==> LookUp(r, name) == LookUp(services, name))
  {
    hide Derived, Observe, Expected, LookUp;
    if states != [] {
      var init, p := states[..|states| - 1], states[|states| - 1];
      ObserveAllLookUp(services, init, ready, now);
      var m := ObserveAll(services, init, ready, now);
      var r := Observe(m, p, ready, now);
      assert !Names(init, p.name);
      SameExpectation(m, services, p, ready, now);
      forall i | 0 <= i < |states|
        ensures LookUp(r, states[i].name) == Some(Expected(services, states[i], ready, now))
      {
        ObserveLookUp(m, p, ready, now, states[i].name);
        assert i < |init| ==> init[i] == states[i];
      }
      forall name | !Names(states, name) ensures LookUp(r, name) == LookUp(services, name) {
        assert states[|states| - 1].name != name;
        assert !Names(init, name) by {
          assert forall i | 0 <= i < |init| :: init[i] == states[i];
        }
        ObserveLookUp(m, p, ready, now, name);
      }
    }
  }

  lemma SeededMore(states: seq<Process>, p: Process, ready: Ready, now: int)
    ensures Seeded(states + [p], ready, now) == Seeded(states, ready, now) + [Service(p.name, Derived(p, ready), now)]
  {
    hide Derived;
  }

  lemma SeededHas(states: seq<Process>, ready: Ready, now: int, name: string)
    requires forall i | 0 <= i < |states| :: states[i].name != name
    ensures IndexByName(Seeded(states, ready, now), name) == -1
  {
    hide Derived;
  }

  /** The first observation is the update of an empty cache. */
  lemma {:induction false} SeededIsObserved(states: seq<Process>, ready: Ready, now: int)
    requires DistinctNames(states)
    ensures Seeded(states, ready, now) == ObserveAll([], states, ready, now)
  {
    if states != [] {
      var init, p := states[..|states| - 1], states[|states| - 1];
      SeededIsObserved(init, ready, now);
      SeededMore(init, p, ready, now);
      SeededHas(init, ready, now, p.name);
      hide Derived, Seeded;
      assert states == init + [p];
    }
  }

  /** What `Update` promises: expected records for all processes, no other service touched. */
  lemma UpdateMeaning(services: seq<Service>, states: seq<Process>, ready: Ready, now: int)
    requires DistinctNames(states)
    ensures var r := Updated(services, states, ready, now);
      && (forall i | 0 <= i < |states| :: LookUp(r, states[i].name) == Some(Expected(services, states[i], ready, now)))
      && (forall name :: !Names(states, name) ==> LookUp(r, name) == LookUp(services, name))
  {
    ObserveAllLookUp(services, states, ready, now);
    SeededIsObserved(states, ready, now);
    hide ObserveAll, Seeded, LookUp, Expected;
  }

  /** The record of a process says what its state and the verdict on it amount to; the time is the old one exactly
      when a record with that status was there. */
  ghost predicate Records(services: seq<Service>, p: Process, ready: Ready, now: int, s: Service) {
    var terminal := (p.status == Error || p.status == Completed) && p.restarts >= 5;
    var waiting := p.status == Pending || p.status == Disabled || p.status == Scheduled;
    var well := p.status == Running && p.name in ready && ready[p.name];
    && s.name == p.name
    && (s.status == IsHealthy <==> well)
    && (s.status == IsFailed <==> terminal)
    && (s.status == IsPending <==> waiting)
    && (s.status == IsStarting <==> !well && !terminal && !waiting)
    && match LookUp(services, p.name)
       case Some(prior) => s.transitionAt == if prior.status == s.status then prior.transitionAt else now
       case None => s.transitionAt == now
  }

  /** `after` holds such a record for every process of the snapshot, and its other records are those of `before`. */
  ghost predicate AllRecorded(before: seq<Service>, states: seq<Process>, ready: Ready, now: int, after: seq<Service>) {
    && (forall i | 0 <= i < |states| ::
          LookUp(after, states[i].name).Some?
          && Records(before, states[i], ready, now, LookUp(after, states[i].name).value))
    && (forall name :: !Names(states, name) ==> LookUp(after, name) == LookUp(before, name))
  }

  lemma ExpectedRecords(services: seq<Service>, p: Process, ready: Ready, now: int)
    ensures Records(services, p, ready, now, Expected(services, p, ready, now))
  {
  }

  /** What an update leaves for each process, for distinct names. */
  lemma UpdateRecords(services: seq<Service>, states: seq<Process>, ready: Ready, now: int)
    requires DistinctNames(states)
    ensures AllRecorded(services, states, ready, now, Updated(services, states, ready, now))
  {
    UpdateMeaning(services, states, ready, now);
    hide Updated, LookUp, Records, Expected;
    forall i | 0 <= i < |states| ensures Records(services, states[i], ready, now,
      Expected(services, states[i], ready, now)) {
      ExpectedRecords(services, states[i], ready, now);
    }
  }

  /** Known services keep their places, and new ones are added at the end. */
  lemma {:induction false} RowsStay(services: seq<Service>, states: seq<Process>, ready: Ready, now: int)
    ensures var r := ObserveAll(services, states, ready, now);
      |services| <= |r| && forall i | 0 <= i < |services| :: r[i].name == services[i].name
  {
    if states != [] {
      RowsStay(services, states[..|states| - 1], ready, now);
      hide Derived;
    }
  }

  /** Over a cache that knows none of them, an update lists the services in the order of the snapshot. */
  lemma FirstRows(states: seq<Process>, ready: Ready, now: int)
    ensures var r := Updated([], states, ready, now);
      |r| == |states| && forall i | 0 <= i < |states| :: r[i].name == states[i].name && r[i].transitionAt == now
  {
  }

  lemma {:induction false} NoShift(services: seq<Service>, states: seq<Process>, ready: Ready, now: int)
    ensures !AnyShift(services, states, ready, now) ==> ObserveAll(services, states, ready, now) == services
  {
    if states != [] {
      NoShift(services, states[..|states| - 1], ready, now);
      hide Derived;
    }
  }

  /** No notification means no change. */
  lemma {:induction false} QuietUpdate(services: seq<Service>, states: seq<Process>, ready: Ready, now: int)
    ensures !UpdateNotifies(services, states, ready, now) ==> Updated(services, states, ready, now) == services
  {
    if services != [] {
      NoShift(services, states, ready, now);
    }
  }

  /** With distinct names a notification also means a change. */
  lemma {:induction false} ShiftIsSeen(services: seq<Service>, states: seq<Process>, ready: Ready, now: int)
    requires DistinctNames(states) && AnyShift(services, states, ready, now)
    ensures exists i | 0 <= i < |states| ::
      LookUp(services, states[i].name) != Some(Expected(services, states[i], ready, now))
  {
    var init, p := states[..|states| - 1], states[|states| - 1];
    if AnyShift(services, init, ready, now) {
      ShiftIsSeen(services, init, ready, now);
      var i :| 0 <= i < |init| && LookUp(services, init[i].name) != Some(Expected(services, init[i], ready, now));
      assert states[i] == init[i];
    } else {
      NoShift(services, init, ready, now);
      assert states[|states| - 1] == p;
      hide Derived;
    }
  }

  lemma NotifiesExactly(services: seq<Service>, states: seq<Process>, ready: Ready, now: int)
    requires DistinctNames(states)
    ensures UpdateNotifies(services, states, ready, now) <==> Updated(services, states, ready, now) != services
  {
    QuietUpdate(services, states, ready, now);
    if services != [] && AnyShift(services, states, ready, now) {
      ShiftIsSeen(services, states, ready, now);
      UpdateMeaning(services, states, ready, now);
    }
  }

  // ---- readiness verdicts ----

  predicate Flips(customReady: Ready, name: string, ready: bool) {
    name in customReady && customReady[name] != ready
  }

  /** A flipped verdict restarts the clock of the service, when it is known. */
  function Bumped(services: seq<Service>, name: string, now: int): seq<Service> {
    var i := IndexByName(services, name);
    if i >= 0 then services[i := services[i].(transitionAt := now)] else services
  }

  function AfterVerdict(services: seq<Service>, customReady: Ready, name: string, ready: bool, now: int): seq<Service> {
    if Flips(customReady, name, ready) then Bumped(services, name, now) else services
  }

  /** A verdict touches at most the record of its own service, and there only the time. */
  lemma VerdictTouchesOne(services: seq<Service>, customReady: Ready, name: string, ready: bool, now: int,
      other: string)
    ensures var r := AfterVerdict(services, customReady, name, ready, now);
      LookUp(r, other) ==
        if other == name && name in customReady && customReady[name] != ready && LookUp(services, name).Some?
        then Some(LookUp(services, name).value.(transitionAt := now))
        else LookUp(services, other)
  {
    var i, j := IndexByName(services, name), IndexByName(services, other);
    if Flips(customReady, name, ready) && i >= 0 {
      var r := Bumped(services, name, now);
      assert forall k | 0 <= k < |services| :: r[k].name == services[k].name;
      if j >= 0 {
        LookUpIs(r, j);
      }
    }
  }

  // ---- the cache ----

  /** A non-blocking send on a channel with room for one tick. */
  function Sent(buffered: nat): nat {
    if buffered < 1 then buffered + 1 else buffered
  }

  function AllSent(subs: map<nat, nat>): map<nat, nat> {
    map ch | ch in subs :: Sent(subs[ch])
  }

  /** Channels are numbered; `subs` holds how many ticks each registered one has buffered. */
  class Cache {
    var services: seq<Service>
    var customReady: Ready
    var subs: map<nat, nat>

    constructor ()
      ensures services == [] && customReady == map[] && subs == map[]
    {
      services, customReady, subs := [], map[], map[];
    }

    method NotifySubscribers()
      modifies `subs
      ensures subs == AllSent(old(subs))
    {
      var left := subs.Keys;
      while left != {}
        invariant left <= subs.Keys == old(subs).Keys
        invariant forall ch | ch in subs :: subs[ch] == if ch in left then old(subs)[ch] else Sent(old(subs)[ch])
      {
        var ch :| ch in left;
        left := left - {ch};
        if subs[ch] < 1 {
          subs := subs[ch := subs[ch] + 1];
        }
      }
    }

    /** The first lock section of `SetReady`. */
    method RecordReady(name: string, ready: bool, now: int) returns (notify: bool)
      modifies `services, `customReady
      ensures services == AfterVerdict(old(services), old(customReady), name, ready, now)
      ensures customReady == old(customReady)[name := ready] && notify == Flips(old(customReady), name, ready)
    {
      notify := name in customReady && customReady[name] != ready;
      customReady := customReady[name := ready];
      if notify {
        var i := IndexByName(services, name);
        if i >= 0 {
          services := services[i := services[i].(transitionAt := now)];
        }
      }
    }

    method SetReady(name: string, ready: bool, now: int)
      modifies this
      ensures services == AfterVerdict(old(services), old(customReady), name, ready, now)
      ensures customReady == old(customReady)[name := ready]
      ensures subs == if Flips(old(customReady), name, ready) then AllSent(old(subs)) else old(subs)
    {
      var notify := RecordReady(name, ready, now);
      if notify {
        NotifySubscribers();
      }
    }

    method Seed(states: seq<Process>, now: int)
      modifies `services
      ensures services == Seeded(states, customReady, now)
    {
      services := [];
      for i := 0 to |states|
        invariant services == Seeded(states[..i], customReady, now)
      {
        var p := states[i];
        services := services + [Service(p.name, Derived(p, customReady), now)];
      }
      assert states[..|states|] == states;
    }

    method ObserveOne(p: Process, now: int) returns (changed: bool)
      modifies `services
      ensures services == Observe(old(services), p, customReady, now)
        && changed == Shifts(old(services), p, customReady)
    {
      var derived := Derived(p, customReady);
      var i := IndexByName(services, p.name);
      if i < 0 {
        services := services + [Service(p.name, derived, now)];
        return true;
      }
      if services[i].status != derived {
        services := services[i := Service(services[i].name, derived, now)];
        return true;
      }
      return false;
    }

    /** The first lock section of `Update`. */
    method RecordStates(states: seq<Process>, now: int) returns (changed: bool)
      modifies `services
      ensures services == Updated(old(services), states, customReady, now)
      ensures changed == UpdateNotifies(old(services), states, customReady, now)
    {
      if services == [] {
        Seed(states, now);
        return services != [];
      }
      hide Observe, Shifts;
      changed := false;
      for i := 0 to |states|
        invariant services == ObserveAll(old(services), states[..i], customReady, now)
        invariant changed == AnyShift(old(services), states[..i], customReady, now)
      {
        var shifted := ObserveOne(states[i], now);
        changed := changed || shifted;
        assert states[..i + 1][..i] == states[..i];
      }
      assert states[..|states|] == states;
    }

    method Update(snapshot: Option<seq<Process>>, now: int)
      modifies this
      ensures snapshot.None? ==> services == old(services) && subs == old(subs)
      ensures snapshot.Some? ==> services == Updated(old(services), snapshot.value, customReady, now)
      ensures snapshot.Some? ==>
        subs ==
          if UpdateNotifies(old(services), snapshot.value, customReady, now) then AllSent(old(subs)) else old(subs)
      ensures customReady == old(customReady)
      ensures snapshot.Some? && DistinctNames(snapshot.value) ==>
        AllRecorded(old(services), snapshot.value, customReady, now, services)
    {
      if snapshot.None? {
        return;
      }
      if DistinctNames(snapshot.value) {
        UpdateRecords(services, snapshot.value, customReady, now);
      }
      hide AllRecorded, Updated, UpdateNotifies;
      var changed := RecordStates(snapshot.value, now);
      if changed {
        NotifySubscribers();
      }
    }

    /** `ch` is a new channel; none is registered once the limit is reached. */
    method Subscribe(ch: nat) returns (ok: bool)
      requires ch !in subs
      modifies `subs
      ensures ok == (|old(subs)| < MAX_SUBSCRIBERS)
      ensures subs == if ok then old(subs)[ch := 0] else old(subs)
    {
      if |subs| >= MAX_SUBSCRIBERS {
        return false;
      }
      subs := subs[ch := 0];
      return true;
    }

    /** A second call for the same channel does nothing: `closing` says whether the channel is closed now. */
    method Unsubscribe(ch: nat) returns (closing: bool)
      modifies `subs
      ensures subs == old(subs) - {ch} && closing == (ch in old(subs))
    {
      closing := ch in subs;
      if closing {
        subs := subs - {ch};
      }
    }
  }
}
