/** The restart budget of a readiness runner (tools/friday-launcher/readiness.go:189-241). */
module Readiness {
  datatype Config = Config(failureMax: nat, restartMax: nat)

  /** The two counters a runner owns. */
  datatype Counters = Counters(consecutiveFail: nat, restartsIssued: nat)

  const START := Counters(0, 0)

  /** How many failures in a row breach: the test comes after the count, so 0 acts as 1. */
  function Threshold(c: Config): (t: nat)
    ensures t >= 1
  {
    if c.failureMax == 0 then 1 else c.failureMax
  }

  /** A failure on top of `s` asks for a restart. */
  predicate Breaches(c: Config, s: Counters) {
    s.consecutiveFail + 1 >= c.failureMax && s.restartsIssued < c.restartMax
  }

  function Probe(c: Config, s: Counters, ok: bool): Counters {
    if ok then s.(consecutiveFail := 0)
    else if Breaches(c, s) then Counters(0, s.restartsIssued + 1)
    else s.(consecutiveFail := s.consecutiveFail + 1)
  }

  /** The counters after a whole sequence of probes (`true` is a success). */
  function After(c: Config, probes: seq<bool>): Counters {
    if probes == [] then START else Probe(c, After(c, probes[..|probes| - 1]), probes[|probes| - 1])
  }

  /** Probe number `i` made the runner ask for a restart. */
  predicate RestartAt(c: Config, probes: seq<bool>, i: nat)
    requires i < |probes|
  {
    !probes[i] && Breaches(c, After(c, probes[..i]))
  }

  function Restarts(c: Config, probes: seq<bool>): nat {
    if probes == [] then 0
    else Restarts(c, probes[..|probes| - 1]) + if RestartAt(c, probes, |probes| - 1) then 1 else 0
  }

  function Failures(probes: seq<bool>): nat {
    if probes == [] then 0 else Failures(probes[..|probes| - 1]) + if probes[|probes| - 1] then 0 else 1
  }

  /** The last `n` probes up to `end` failed and none of them was answered with a restart. */
  ghost predicate Streak(c: Config, probes: seq<bool>, end: nat, n: nat)
    requires end <= |probes|
  {
    n <= end && forall j | end - n <= j < end :: !probes[j] && !RestartAt(c, probes, j)
  }

  /** The failure counter is the length of the longest streak that ends now. */
  lemma {:induction false} CounterIsStreak(c: Config, probes: seq<bool>, n: nat)
    requires n <= |probes|
    ensures Streak(c, probes, n, After(c, probes[..n]).consecutiveFail)
    ensures forall m | m > After(c, probes[..n]).consecutiveFail :: !Streak(c, probes, n, m)
  {
    var s := After(c, probes[..n]).consecutiveFail;
    if n > 0 {
      CounterIsStreak(c, probes, n - 1);
      assert probes[..n][..n - 1] == probes[..n - 1];
      var before := After(c, probes[..n - 1]);
      assert After(c, probes[..n]) == Probe(c, before, probes[n - 1]);
      forall m | m > s ensures !Streak(c, probes, n, m) {
        if Streak(c, probes, n, m) {
          assert !probes[n - 1] && !RestartAt(c, probes, n - 1);
          assert Streak(c, probes, n - 1, m - 1);
        }
      }
    }
  }

  /** Restarts are what the second counter counts; they never exceed the cap. */
  lemma {:induction false} RestartsAreCapped(c: Config, probes: seq<bool>)
    ensures Restarts(c, probes) == After(c, probes).restartsIssued <= c.restartMax
    ensures After(c, probes).restartsIssued < c.restartMax ==> After(c, probes).consecutiveFail < Threshold(c)
    decreases |probes|
  {
    if probes != [] {
      RestartsAreCapped(c, probes[..|probes| - 1]);
    }
  }

  /** Every restart is paid for with a full threshold of failures. */
  lemma {:induction false} RestartsArePaidFor(c: Config, probes: seq<bool>)
    ensures Failures(probes) >= Restarts(c, probes) * Threshold(c) + After(c, probes).consecutiveFail
    decreases |probes|
  {
    if probes != [] {
      var rest := probes[..|probes| - 1];
      RestartsArePaidFor(c, rest);
      RestartsAreCapped(c, rest);
      if RestartAt(c, probes, |rest|) {
        assert (Restarts(c, rest) + 1) * Threshold(c) == Restarts(c, rest) * Threshold(c) + Threshold(c);
      }
    }
  }

  /** When a restart happens: exactly when the cap is not reached and this probe completes a full threshold
      of failures with no success and no restart among the earlier ones. */
  lemma RestartExactlyAfterStreak(c: Config, probes: seq<bool>, i: nat)
    requires i < |probes|
    ensures RestartAt(c, probes, i) <==>
      Restarts(c, probes[..i]) < c.restartMax && !probes[i] && Streak(c, probes, i, Threshold(c) - 1)
  {
    CounterIsStreak(c, probes, i);
    RestartsAreCapped(c, probes[..i]);
    var n := After(c, probes[..i]).consecutiveFail;
    assert Streak(c, probes, i, n);
    assert n >= Threshold(c) - 1 ==> Streak(c, probes, i, Threshold(c) - 1);
  }

  function AllFail(k: nat): seq<bool> {
    seq(k, _ => false)
  }

  /** One more failure, on the counters. */
  lemma OneMoreFailure(c: Config, probes: seq<bool>)
    ensures After(c, probes + [false]) == Probe(c, After(c, probes), false)
    ensures Restarts(c, probes + [false]) == Restarts(c, probes) + if Breaches(c, After(c, probes)) then 1 else 0
  {
    assert (probes + [false])[..|probes|] == probes;
  }

  /** After `k` failures the restarts and, below the cap, the counter are what the division says. */
  ghost predicate Divided(before: nat, left: int, t: nat, k: nat, restarts: nat, fails: nat)
    requires t >= 1
  {
    && restarts == before + (if k / t <= left then k / t else left)
    && (k / t < left ==> fails == k % t)
  }

  lemma TimesAtLeast(d: int, t: nat)
    ensures d >= 1 ==> d * t >= t
    ensures d <= -1 ==> d * t <= -(t as int)
  {
  }

  lemma DivideUnique(k: nat, t: nat, q: nat, r: nat)
    requires t >= 1 && k == q * t + r && r < t
    ensures k / t == q && k % t == r
  {
    var d := k / t - q;
    assert d * t == r - k % t;
    TimesAtLeast(d, t);
  }

  lemma DivideNext(k: nat, t: nat)
    requires k >= 1 && t >= 1
    ensures (k - 1) % t == t - 1 ==> k / t == (k - 1) / t + 1 && k % t == 0
    ensures (k - 1) % t != t - 1 ==> k / t == (k - 1) / t && k % t == (k - 1) % t + 1
  {
    var q, r := (k - 1) / t, (k - 1) % t;
    if r == t - 1 {
      assert q * t + t == (q + 1) * t;
      DivideUnique(k, t, q + 1, 0);
    } else {
      DivideUnique(k, t, q, r + 1);
    }
  }

  lemma DividedNext(before: nat, left: nat, t: nat, k: nat, restarts: nat, fails: nat)
    requires k >= 1 && t >= 1 && Divided(before, left, t, k - 1, restarts, fails)
    ensures var breach := fails + 1 >= t && restarts < before + left;
      Divided(before, left, t, k, restarts + (if breach then 1 else 0), if breach then 0 else fails + 1)
  {
    DivideNext(k, t);
    assert (k - 1) % t < t;
  }

  lemma NothingDivided(before: nat, left: nat, t: nat)
    requires t >= 1
    ensures Divided(before, left, t, 0, before, 0)
  {
  }

  lemma {:induction false} FailuresCount(c: Config, start: seq<bool>, k: nat)
    requires After(c, start).consecutiveFail == 0 && Restarts(c, start) <= c.restartMax
    ensures var now := start + AllFail(k);
      Divided(Restarts(c, start), c.restartMax - Restarts(c, start), Threshold(c), k, Restarts(c, now),
        After(c, now).consecutiveFail)
  {
    hide Divided, After, Restarts;
    if k == 0 {
      assert start + AllFail(0) == start;
      NothingDivided(Restarts(c, start), c.restartMax - Restarts(c, start), Threshold(c));
    } else {
      var shorter := start + AllFail(k - 1);
      FailuresCount(c, start, k - 1);
      OneMoreFailure(c, shorter);
      RestartsAreCapped(c, shorter);
      assert start + AllFail(k) == shorter + [false];
      DividedNext(Restarts(c, start), c.restartMax - Restarts(c, start), Threshold(c), k, Restarts(c, shorter),
        After(c, shorter).consecutiveFail);
    }
  }

  lemma FailuresOnly(c: Config, start: seq<bool>, k: nat)
    requires After(c, start).consecutiveFail == 0
    ensures var left := c.restartMax - Restarts(c, start);
      var full := k / Threshold(c);
      var now := start + AllFail(k);
      && Restarts(c, now) == Restarts(c, start) + (if full <= left then full else left)
      && (full < left ==> After(c, now).consecutiveFail == k % Threshold(c))
  {
    RestartsAreCapped(c, start);
    hide After, Restarts;
    FailuresCount(c, start, k);
  }

  /** A run of `k` failures from a fresh counter asks for min(what the cap leaves, k div threshold) restarts. */
  lemma FreshRunRestarts(c: Config, start: seq<bool>, k: nat)
    requires After(c, start).consecutiveFail == 0
    ensures var left := c.restartMax - Restarts(c, start);
      Restarts(c, start + AllFail(k)) - Restarts(c, start) ==
        if k / Threshold(c) <= left then k / Threshold(c) else left
  {
    FailuresOnly(c, start, k);
  }

  /** The runner: counters owned by its goroutine, and the verdict it last wrote to the health cache. */
  class ReadinessRunner {
    const failureMax: nat
    const restartMax: nat
    var consecutiveFail: nat
    var restartsIssued: nat
    var ready: bool
    ghost var probes: seq<bool>

    ghost function Conf(): Config {
      Config(failureMax, restartMax)
    }

    ghost predicate Valid()
      reads this
    {
      Counters(consecutiveFail, restartsIssued) == After(Conf(), probes)
    }

    constructor (failureMax: nat, restartMax: nat)
      ensures Valid() && probes == [] && Conf() == Config(failureMax, restartMax)
    {
      this.failureMax, this.restartMax := failureMax, restartMax;
      consecutiveFail, restartsIssued, ready, probes := 0, 0, false, [];
    }

    method OnSuccess()
      requires Valid()
      modifies this
      ensures Valid() && probes == old(probes) + [true]
      ensures ready && consecutiveFail == 0 && restartsIssued == old(restartsIssued)
    {
      consecutiveFail := 0;
      ready := true;
      probes := probes + [true];
      assert probes[..|probes| - 1] == old(probes);
    }

    /** `restart` is the call to `RestartProcess`. */
    method OnFailure() returns (restart: bool)
      requires Valid()
      modifies this
      ensures Valid() && probes == old(probes) + [false] && !ready
      ensures restart <==> RestartAt(Conf(), probes, |probes| - 1)
      ensures restartsIssued == old(restartsIssued) + if restart then 1 else 0
      ensures restartsIssued == Restarts(Conf(), probes) <= restartMax
    {
      probes := probes + [false];
      assert probes[..|probes| - 1] == old(probes);
      RestartsAreCapped(Conf(), probes);
      consecutiveFail := consecutiveFail + 1;
      ready := false;
      if consecutiveFail < failureMax {
        return false;
      }
      if restartsIssued >= restartMax {
        return false;
      }
      restartsIssued := restartsIssued + 1;
      consecutiveFail := 0;
      return true;
    }
  }

  /** In plain numbers: with a threshold of at least one, a new runner restarts after every `failureMax` failures
      until the cap is reached. */
  lemma NewRunnerRestarts(c: Config, k: nat)
    requires c.failureMax >= 1
    ensures Restarts(c, AllFail(k)) == if k / c.failureMax <= c.restartMax then k / c.failureMax else c.restartMax
  {
    FreshRunRestarts(c, [], k);
    assert [] + AllFail(k) == AllFail(k);
    assert Restarts(c, []) == 0;
  }
}
