/** The polling interval of `Run` (`bitboxsync/engine_run.go:50-77`, `222-256`). */
module Backoff {

  const MAX_INT64 := 0x7FFF_FFFF_FFFF_FFFF
  const MINUTE := 60_000_000_000

  /** A `time.Duration`: nanoseconds in an int64. */
  type Duration = d: int | -MAX_INT64 - 1 <= d <= MAX_INT64

  function Min(a: int, b: int): int {
    if a <= b then a else b
  }

  function Max(a: int, b: int): int {
    if a <= b then b else a
  }

  function Pow2(n: nat): (p: nat)
    ensures p >= 1
  {
    if n == 0 then 1 else 2 * Pow2(n - 1)
  }

  /** `base` doubled `n` times, but no more than `cap`. */
  function Doubled(base: nat, cap: nat, n: nat): nat {
    Min(base * Pow2(n), cap)
  }

  lemma PowersGrow(base: nat, m: nat, n: nat)
    requires m <= n
    ensures base * Pow2(m) <= base * Pow2(n)
    decreases n - m
  {
    if m < n {
      PowersGrow(base, m + 1, n);
      assert base * Pow2(m + 1) == 2 * (base * Pow2(m));
    }
  }

  /** One more doubling is twice the interval, capped. */
  lemma DoubledOnce(base: nat, cap: nat, n: nat)
    ensures Doubled(base, cap, 0) == Min(base, cap)
    ensures Doubled(base, cap, n + 1) == Min(2 * Doubled(base, cap, n), cap)
  {
    assert base * Pow2(0) == base;
    assert base * Pow2(n + 1) == 2 * (base * Pow2(n));
  }

  /** The doubling loop equals the closed form; the product never leaves an int64. */
  method CappedDoubledInterval(base: Duration, limit: Duration, doublings: int) returns (r: Duration)
    ensures r == if base <= 0 then 0 else Doubled(base, Max(base, limit), Max(doublings, 0))
  {
    if base <= 0 {
      return 0;
    }
    var cap := limit;
    if cap < base {
      cap := base;
    }
    var interval: Duration, i := base, 0;
    while i < doublings
      invariant 0 <= i <= Max(doublings, 0) && base <= interval && interval == base * Pow2(i)
    {
      if interval >= cap || interval > cap / 2 {
        assert base * Pow2(i + 1) == 2 * (base * Pow2(i));
        PowersGrow(base, i + 1, doublings);
        return cap;
      }
      assert base * Pow2(i + 1) == 2 * (base * Pow2(i));
      interval := interval * 2;
      i := i + 1;
    }
    if interval > cap {
      return cap;
    }
    r := interval;
  }

  method BackoffPollInterval(base: Duration, limit: Duration, failures: int) returns (r: Duration)
    ensures base > 0 && failures >= 0 ==> r == Doubled(base, Max(base, limit), failures)
    ensures base <= 0 ==> r == if failures <= 0 then base else 0
  {
    if failures <= 0 {
      assert base * Pow2(0) == base;
      return base;
    }
    r := CappedDoubledInterval(base, limit, failures);
  }

  /** The first three quiet polls keep the foreground cadence, then every three double it. */
  method IdlePollInterval(base: Duration, limit: Duration, idlePolls: nat) returns (r: Duration)
    ensures base > 0 ==> r == Doubled(base, Max(base, limit), idlePolls / 3)
    ensures base > 0 && idlePolls < 3 ==> r == base
  {
    assert base * Pow2(0) == base;
    r := CappedDoubledInterval(base, limit, idlePolls / 3);
  }

  // ---- configuration ---------------------------------------------------------------------------

  /** `Config.withDefaults` for the two intervals. */
  function WithDefaults(poll: Duration, maxPoll: Duration): (r: (Duration, Duration))
    ensures 0 < r.0 <= r.1
    ensures 0 < poll <= maxPoll ==> r == (poll, maxPoll)
    ensures r.0 == if poll <= 0 then 300_000_000_000 else poll
    ensures maxPoll < r.0 ==> r.1 == Max(3_600_000_000_000, r.0)
  {
    var p: Duration := if poll <= 0 then 5 * MINUTE else poll;
    (p, if maxPoll < p then Max(60 * MINUTE, p) else maxPoll)
  }

  // ---- the loop of Run -------------------------------------------------------------------------

  /** What a turn of `Run` reports: a pass with its outcome, or a login that succeeded elsewhere. */
  datatype Turn =
    | Failed
    | Synced(activity: bool, resetOnSuccess: bool, idlePolling: bool)
    | LoginSucceeded

  /** A pass that found nothing to do while the application is idle. */
  predicate Quiet(t: Turn) {
    t.Synced? && !t.activity && !t.resetOnSuccess && t.idlePolling
  }

  /** The failed passes at the end of a history. */
  function TrailingFailures(turns: seq<Turn>): nat {
    if turns == [] || !turns[|turns| - 1].Failed? then 0 else 1 + TrailingFailures(turns[..|turns| - 1])
  }

  /** The quiet passes at the end of a history. */
  function TrailingQuiet(turns: seq<Turn>): nat {
    if turns == [] || !Quiet(turns[|turns| - 1]) then 0 else 1 + TrailingQuiet(turns[..|turns| - 1])
  }

  /** What the interval is after a history of turns: only the failures or the quiet passes at its end
      count, and they never add up. */
  function IntervalAfter(poll: nat, maxPoll: nat, turns: seq<Turn>): nat {
    if TrailingFailures(turns) > 0 then Doubled(poll, maxPoll, TrailingFailures(turns))
    else Doubled(poll, maxPoll, TrailingQuiet(turns) / 3)
  }

  /** The local variables of `Run`. */
  class Poller {
    const poll: Duration
    const maxPoll: Duration
    var interval: Duration
    var failures: nat
    var idlePolls: nat
    ghost var turns: seq<Turn>

    ghost predicate Valid()
      reads this
    {
      && 0 < poll <= maxPoll
      && failures == TrailingFailures(turns) && idlePolls == TrailingQuiet(turns)
      && interval == IntervalAfter(poll, maxPoll, turns)
    }

    constructor (poll: Duration, maxPoll: Duration)
      requires 0 < poll <= maxPoll
      ensures Valid() && turns == [] && this.poll == poll && this.maxPoll == maxPoll && interval == poll
    {
      this.poll, this.maxPoll, interval, failures, idlePolls := poll, maxPoll, poll, 0, 0;
      turns := [];
      new;
      assert poll * Pow2(0) == poll;
    }

    method ResetBackoff()
      requires Valid()
      modifies this
      ensures Valid() && turns == old(turns) + [LoginSucceeded] && interval == poll
    {
      failures := 0;
      idlePolls := 0;
      interval := poll;
      turns := turns + [LoginSucceeded];
      assert poll * Pow2(0) == poll;
    }

    method RecordResult(activity: bool, failed: bool, resetOnSuccess: bool, idlePolling: bool)
      requires Valid()
      modifies this
      ensures Valid()
      ensures turns == old(turns) + [if failed then Failed else Synced(activity, resetOnSuccess, idlePolling)]
    {
      ghost var t := if failed then Failed else Synced(activity, resetOnSuccess, idlePolling);
      assert (turns + [t])[..|turns|] == turns;
      turns := turns + [t];
      assert poll * Pow2(0) == poll;
      if failed {
        failures := failures + 1;
        idlePolls := 0;
        interval := BackoffPollInterval(poll, maxPoll, failures);
        return;
      }
      failures := 0;
      if activity || resetOnSuccess {
        idlePolls := 0;
        interval := poll;
        return;
      }
      if !idlePolling {
        idlePolls := 0;
        interval := poll;
        return;
      }
      idlePolls := idlePolls + 1;
      interval := IdlePollInterval(poll, maxPoll, idlePolls);
    }
  }

  /** What one turn does to the interval: a failure doubles it up to the limit, after anything but a failure starting
      from the poll interval; activity, a requested reset, foreground polling and a login elsewhere reset it, and so
      does the first quiet pass after a failure. */
  lemma IntervalStep(poll: nat, maxPoll: nat, turns: seq<Turn>, t: Turn)
    requires 0 < poll <= maxPoll
    ensures var now, failing := IntervalAfter(poll, maxPoll, turns + [t]), turns != [] && turns[|turns| - 1].Failed?;
      && (t.Failed? ==> now == Min(2 * if failing then IntervalAfter(poll, maxPoll, turns) else poll, maxPoll))
      && (t.LoginSucceeded? ==> now == poll)
      && (t.Synced? && (t.activity || t.resetOnSuccess || !t.idlePolling || failing) ==> now == poll)
  {
    assert (turns + [t])[..|turns|] == turns && (turns + [t])[|turns|] == t;
    DoubledOnce(poll, maxPoll, TrailingFailures(turns));
    DoubledOnce(poll, maxPoll, 0);
    if turns != [] && turns[|turns| - 1].Failed? {
      assert TrailingQuiet(turns) == 0 && TrailingQuiet(turns + [t]) <= 1;
    }
  }

  /** Three quiet passes in a row double the interval, unless a failure came before. */
  lemma ThreeQuietTurns(poll: nat, maxPoll: nat, turns: seq<Turn>)
    requires 0 < poll <= maxPoll && (turns == [] || !turns[|turns| - 1].Failed?)
    ensures var quiet := Synced(false, false, true);
            var now := IntervalAfter(poll, maxPoll, turns + [quiet, quiet, quiet]);
      now == Min(2 * IntervalAfter(poll, maxPoll, turns), maxPoll)
  {
    var quiet := Synced(false, false, true);
    var one := turns + [quiet];
    var two := one + [quiet];
    var three := two + [quiet];
    assert turns + [quiet, quiet, quiet] == three;
    assert three[..|two|] == two && two[..|one|] == one && one[..|turns|] == turns;
    assert Quiet(quiet) && one[|turns|] == two[|one|] == three[|two|] == quiet;
    assert TrailingQuiet(one) == TrailingQuiet(turns) + 1;
    assert TrailingQuiet(two) == TrailingQuiet(one) + 1;
    assert TrailingQuiet(three) == TrailingQuiet(two) + 1;
    DoubledOnce(poll, maxPoll, TrailingQuiet(turns) / 3);
  }

  /** Through every history the interval stays between the two configured ones. */
  lemma IntervalStaysInBounds(poll: nat, maxPoll: nat, turns: seq<Turn>)
    requires 0 < poll <= maxPoll
    ensures poll <= IntervalAfter(poll, maxPoll, turns) <= maxPoll
  {
    PowersGrow(poll, 0, TrailingFailures(turns));
    PowersGrow(poll, 0, TrailingQuiet(turns) / 3);
    assert poll * Pow2(0) == poll;
  }

  /** Failing repeatedly never shortens the interval, and eventually reaches the limit. */
  lemma BackoffReachesLimit(poll: nat, maxPoll: nat, n: nat)
    requires 0 < poll <= maxPoll
    ensures Doubled(poll, maxPoll, n) <= Doubled(poll, maxPoll, n + 1)
    ensures n >= maxPoll ==> Doubled(poll, maxPoll, n) == maxPoll
  {
    PowersGrow(poll, n, n + 1);
    PowerExceeds(n);
    assert poll * Pow2(n) >= Pow2(n);
  }

  lemma PowerExceeds(n: nat)
    ensures Pow2(n) > n
  {
  }
}
