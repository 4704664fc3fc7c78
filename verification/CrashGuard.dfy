/** The crash-loop guard of the dev watcher (scripts/dev-watcher.ts:232-249). Times are milliseconds. */
module CrashGuard {
  const CRASH_LOOP_WINDOW_MS := 60_000
  const CRASH_LOOP_MAX_RESPAWNS := 5

  ghost predicate Sorted(s: seq<int>) {
    forall i, j | 0 <= i < j < |s| :: s[i] <= s[j]
  }

  /** The part of a sorted history that lies in the window ending at `now`. */
  function Window(history: seq<int>, now: int): seq<int> {
    if history != [] && history[0] < now - CRASH_LOOP_WINDOW_MS then Window(history[1..], now) else history
  }

  /** A suffix of the rest is a suffix of the whole. */
  lemma SuffixShifts(history: seq<int>, w: seq<int>, now: int)
    requires history != [] && history[0] < now - CRASH_LOOP_WINDOW_MS
    requires var rest := history[1..];
      && |w| <= |rest| && w == rest[|rest| - |w|..]
      && (forall i | 0 <= i < |rest| - |w| :: rest[i] < now - CRASH_LOOP_WINDOW_MS)
      && (forall i | |rest| - |w| <= i < |rest| :: rest[i] >= now - CRASH_LOOP_WINDOW_MS)
    ensures |w| <= |history| && w == history[|history| - |w|..]
    ensures forall i | 0 <= i < |history| - |w| :: history[i] < now - CRASH_LOOP_WINDOW_MS
    ensures forall i | |history| - |w| <= i < |history| :: history[i] >= now - CRASH_LOOP_WINDOW_MS
  {
    forall i | 0 < i < |history| ensures history[i] == history[1..][i - 1] {
    }
  }

  /** The window is a suffix: everything before it is too old, everything in it is not. */
  lemma {:induction false} WindowIsSuffix(history: seq<int>, now: int)
    requires Sorted(history)
    ensures var w := Window(history, now);
      && |w| <= |history| && w == history[|history| - |w|..] && Sorted(w)
      && (forall i | 0 <= i < |history| - |w| :: history[i] < now - CRASH_LOOP_WINDOW_MS)
      && (forall i | |history| - |w| <= i < |history| :: history[i] >= now - CRASH_LOOP_WINDOW_MS)
    decreases |history|
  {
    if history != [] && history[0] < now - CRASH_LOOP_WINDOW_MS {
      WindowIsSuffix(history[1..], now);
      SuffixShifts(history, Window(history, now), now);
    }
  }

  /** Pruning as time goes on loses nothing that pruning at once would keep. */
  lemma {:induction false} WindowTwice(history: seq<int>, earlier: int, now: int)
    requires earlier <= now
    ensures Window(Window(history, earlier), now) == Window(history, now)
    decreases |history|
  {
    if history != [] && history[0] < earlier - CRASH_LOOP_WINDOW_MS {
      WindowTwice(history[1..], earlier, now);
    }
  }

  lemma {:induction false} WindowExtends(history: seq<int>, now: int)
    ensures Window(history + [now], now) == Window(history, now) + [now]
    decreases |history|
  {
    if history != [] {
      assert (history + [now])[1..] == history[1..] + [now];
      WindowExtends(history[1..], now);
    }
  }

  /** The spawns let through when starts are tried at `times`; after a refusal the process is gone. */
  function Spawns(times: seq<int>): seq<int> {
    if times == [] then []
    else
      var before := times[..|times| - 1];
      var done := Spawns(before);
      var now := times[|times| - 1];
      if |done| == |before| && |Window(done, now)| < CRASH_LOOP_MAX_RESPAWNS then done + [now] else done
  }

  /** Six spawns in a row take more than the window. */
  ghost predicate Spread(history: seq<int>) {
    forall i | 0 <= i && i + CRASH_LOOP_MAX_RESPAWNS < |history| ::
      history[i + CRASH_LOOP_MAX_RESPAWNS] - history[i] > CRASH_LOOP_WINDOW_MS
  }

  lemma SpreadExtends(history: seq<int>, now: int)
    requires Sorted(history) && (history != [] ==> history[|history| - 1] <= now)
    requires Spread(history) && |Window(history, now)| < CRASH_LOOP_MAX_RESPAWNS
    ensures Spread(history + [now])
  {
    WindowIsSuffix(history, now);
  }

  /** Whatever the times, on a clock that never runs back the spawns let through are spread out. */
  lemma {:induction false} SpawnsAreSpread(times: seq<int>)
    requires Sorted(times)
    ensures Spawns(times) <= times && Spread(Spawns(times))
    decreases |times|
  {
    if times != [] {
      var before := times[..|times| - 1];
      SpawnsAreSpread(before);
      var done := Spawns(before);
      if |done| == |before| && |Window(done, times[|times| - 1])| < CRASH_LOOP_MAX_RESPAWNS {
        assert done == before;
        SpreadExtends(done, times[|times| - 1]);
        assert done + [times[|times| - 1]] == times;
      }
    }
  }

  lemma SixthIsFar(times: seq<int>, i: nat, j: nat)
    requires Sorted(times) && j < |Spawns(times)| && i + CRASH_LOOP_MAX_RESPAWNS <= j
    ensures Spawns(times)[j] - Spawns(times)[i] > CRASH_LOOP_WINDOW_MS
  {
    SpawnsAreSpread(times);
    assert Spawns(times)[i + CRASH_LOOP_MAX_RESPAWNS] <= Spawns(times)[j];
  }

  /** No closed stretch of the window's length holds more than five spawns: the sixth is always outside. */
  lemma WindowHoldsFive(times: seq<int>, from: int, i: nat, j: nat)
    requires Sorted(times)
    requires i <= j < |Spawns(times)|
    requires from <= Spawns(times)[i] && Spawns(times)[j] <= from + CRASH_LOOP_WINDOW_MS
    ensures j - i + 1 <= CRASH_LOOP_MAX_RESPAWNS
  {
    if i + CRASH_LOOP_MAX_RESPAWNS <= j {
      SixthIsFar(times, i, j);
    }
  }

  /** A start is refused only when the window is full: the fifth spawn back is still inside it. */
  lemma RefusedOnlyWhenFull(history: seq<int>, now: int)
    requires Sorted(history)
    ensures |Window(history, now)| < CRASH_LOOP_MAX_RESPAWNS <==>
      (|history| < CRASH_LOOP_MAX_RESPAWNS || history[|history| - CRASH_LOOP_MAX_RESPAWNS] < now - CRASH_LOOP_WINDOW_MS)
  {
    WindowIsSuffix(history, now);
  }

  /** The supervisor's module-level state. */
  class DevWatcher {
    var recentRespawnsAt: seq<int>
    var shuttingDown: bool
    ghost var history: seq<int>

    /** The list is the history inside the window, seen from the last spawn. */
    ghost predicate Valid()
      reads this
    {
      && Sorted(history) && Spread(history)
      && (history == [] ==> recentRespawnsAt == [])
      && (history != [] ==> recentRespawnsAt == Window(history, history[|history| - 1]))
    }

    constructor ()
      ensures Valid() && history == [] && !shuttingDown
    {
      recentRespawnsAt, shuttingDown, history := [], false, [];
    }

    /** The pruning loop. */
    method Prune(now: int)
      modifies `recentRespawnsAt
      ensures recentRespawnsAt == Window(old(recentRespawnsAt), now)
    {
      while |recentRespawnsAt| > 0
        invariant Window(recentRespawnsAt, now) == Window(old(recentRespawnsAt), now)
      {
        var first := recentRespawnsAt[0];
        if first >= now - CRASH_LOOP_WINDOW_MS {
          break;
        }
        recentRespawnsAt := recentRespawnsAt[1..];
      }
    }

    /** `spawnDaemon` up to the fork; a refusal ends the process. */
    method SpawnDaemon(now: int) returns (spawned: bool)
      requires Valid() && !shuttingDown
      requires history != [] ==> history[|history| - 1] <= now
      modifies this
      ensures spawned <==> |Window(old(history), now)| < CRASH_LOOP_MAX_RESPAWNS
      ensures spawned ==> Valid() && history == old(history) + [now] && !shuttingDown
      ensures !spawned ==> shuttingDown && history == old(history)
    {
      ghost var all := Window(history, now);
      if history != [] {
        WindowTwice(history, history[|history| - 1], now);
      }
      Prune(now);
      assert recentRespawnsAt == all;
      hide Window, Sorted, Spread;
      if |recentRespawnsAt| >= CRASH_LOOP_MAX_RESPAWNS {
        shuttingDown := true;
        return false;
      }
      recentRespawnsAt := recentRespawnsAt + [now];
      SpreadExtends(history, now);
      WindowExtends(history, now);
      history := history + [now];
      return true;
    }
  }
}
