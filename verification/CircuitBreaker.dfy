/**
 The provider circuit breaker (app/rabbitmq/circuit_breaker.py): a timed closed / open / half-open
 machine over a sliding window of failure times that is pruned as it goes.
 */
module CircuitBreaker {

  datatype Mode = CLOSED | OPEN | HALF_OPEN

  datatype Config = Config(failureThreshold: int, successThreshold: int, timeout: int, window: int)

  /** The fields of a breaker. */
  datatype Breaker = Breaker(
    mode: Mode,
    failureCount: int,
    successCount: int,
    lastFailureTime: int,
    openedAt: int,
    timestamps: seq<int>)

  datatype Call = IsOpen(at: int) | Success(at: int) | Failure(at: int)

  const FRESH := Breaker(CLOSED, 0, 0, 0, 0, [])

  /** The failure times strictly after the cutoff, in order. */
  function Keep(ts: seq<int>, cutoff: int): seq<int> {
    if ts == [] then []
    else
      var earlier, t := Keep(ts[..|ts| - 1], cutoff), ts[|ts| - 1];
      if t > cutoff then earlier + [t] else earlier
  }

  function Opened(b: Breaker, now: int): Breaker {
    b.(mode := OPEN, openedAt := now, successCount := 0)
  }

  function Closed(b: Breaker): Breaker {
    b.(mode := CLOSED, failureCount := 0, successCount := 0, timestamps := [])
  }

  /** The breaker after a failure at `now` that left these times in the list. */
  function Failed(cfg: Config, b: Breaker, ts: seq<int>, now: int): Breaker {
    var b1 := b.(timestamps := ts, failureCount := |ts|, lastFailureTime := now);
    if b.mode == HALF_OPEN || (b.mode == CLOSED && |ts| >= cfg.failureThreshold) then Opened(b1, now) else b1
  }

  /** The breaker after one call. */
  function Step(cfg: Config, b: Breaker, call: Call): Breaker {
    match call
    case IsOpen(now) =>
      if b.mode == OPEN && now - b.openedAt >= cfg.timeout then b.(mode := HALF_OPEN, successCount := 0) else b
    case Success(now) =>
      if b.mode == HALF_OPEN then
        if b.successCount + 1 >= cfg.successThreshold then Closed(b) else b.(successCount := b.successCount + 1)
      else if b.mode == CLOSED then b.(timestamps := Keep(b.timestamps, now - cfg.window))
      else b
    case Failure(now) => Failed(cfg, b, Keep(b.timestamps + [now], now - cfg.window), now)
  }

  /** The answer of `is_open`: requests are blocked while the breaker stays open. */
  predicate Blocks(cfg: Config, b: Breaker, call: Call) {
    call.IsOpen? && Step(cfg, b, call).mode == OPEN
  }

  lemma {:induction false} KeepElements(ts: seq<int>, cutoff: int)
    ensures forall t :: multiset(Keep(ts, cutoff))[t] == if t > cutoff then multiset(ts)[t] else 0
  {
    if ts != [] {
      KeepElements(ts[..|ts| - 1], cutoff);
      assert ts == ts[..|ts| - 1] + [ts[|ts| - 1]];
    }
  }

  class CircuitBreaker {
    const config: Config
    var mode: Mode
    var failureCount: int
    var successCount: int
    var lastFailureTime: int
    var openedAt: int
    var timestamps: seq<int>

    function Fields(): Breaker
      reads this
    {
      Breaker(mode, failureCount, successCount, lastFailureTime, openedAt, timestamps)
    }

    constructor (config: Config)
      ensures this.config == config && Fields() == FRESH
    {
      this.config := config;
      mode, failureCount, successCount, lastFailureTime, openedAt, timestamps := CLOSED, 0, 0, 0, 0, [];
    }

    method CheckOpen(now: int) returns (blocked: bool)
      modifies this
      ensures Fields() == Step(config, old(Fields()), IsOpen(now))
      ensures blocked == Blocks(config, old(Fields()), IsOpen(now))
    {
      if mode == CLOSED {
        return false;
      }
      if mode == OPEN {
        if now - openedAt >= config.timeout {
          TransitionToHalfOpen();
          return false;
        }
        return true;
      }
      return false;
    }

    method RecordSuccess(now: int)
      modifies this
      ensures Fields() == Step(config, old(Fields()), Success(now))
    {
      if mode == HALF_OPEN {
        successCount := successCount + 1;
        if successCount >= config.successThreshold {
          TransitionToClosed();
        }
      } else if mode == CLOSED {
        CleanupOldFailures(now);
      }
    }

    method RecordFailure(now: int)
      modifies this
      ensures Fields() == Step(config, old(Fields()), Failure(now))
    {
      timestamps := timestamps + [now];
      CleanupOldFailures(now);
      ghost var kept := timestamps;
      assert kept == Keep(old(timestamps) + [now], now - config.window);
      failureCount := |timestamps|;
      lastFailureTime := now;
      if mode == HALF_OPEN {
        TransitionToOpen(now);
      } else if mode == CLOSED {
        if failureCount >= config.failureThreshold {
          TransitionToOpen(now);
        }
      }
      assert Fields() == Failed(config, old(Fields()), kept, now);
    }

    method TransitionToOpen(now: int)
      modifies this
      ensures Fields() == old(Fields()).(mode := OPEN, openedAt := now, successCount := 0)
    {
      mode := OPEN;
      openedAt := now;
      successCount := 0;
    }

    method TransitionToHalfOpen()
      modifies this
      ensures Fields() == old(Fields()).(mode := HALF_OPEN, successCount := 0)
    {
      mode := HALF_OPEN;
      successCount := 0;
    }

    method TransitionToClosed()
      modifies this
      ensures Fields() == old(Fields()).(mode := CLOSED, failureCount := 0, successCount := 0, timestamps := [])
    {
      mode := CLOSED;
      failureCount := 0;
      successCount := 0;
      timestamps := [];
    }

    method CleanupOldFailures(now: int)
      modifies this`timestamps
      ensures timestamps == Keep(old(timestamps), now - config.window)
      ensures forall t :: multiset(timestamps)[t] == if t > now - config.window then old(multiset(timestamps)[t]) else 0
    {
      var cutoff := now - config.window;
      var kept := [];
      for i := 0 to |timestamps|
        invariant timestamps == old(timestamps)
        invariant kept == Keep(timestamps[..i], cutoff)
      {
        assert timestamps[..i + 1][..i] == timestamps[..i];
        if timestamps[i] > cutoff {
          kept := kept + [timestamps[i]];
        }
      }
      assert timestamps[..|timestamps|] == timestamps;
      KeepElements(timestamps, cutoff);
      timestamps := kept;
    }
  }

  // ---------------------------------------------------------------------------------------------
  // The breaker that never forgets a failure
  // ---------------------------------------------------------------------------------------------

  /** failures holds every failure time since the breaker last closed. */
  datatype Ledger = Ledger(mode: Mode, successes: int, openedAt: int, failures: seq<int>)

  const EMPTY_LEDGER := Ledger(CLOSED, 0, 0, [])

  /** How many of the times lie strictly after the cutoff. */
  function Recent(ts: seq<int>, cutoff: int): nat {
    if ts == [] then 0 else Recent(ts[..|ts| - 1], cutoff) + (if ts[|ts| - 1] > cutoff then 1 else 0)
  }

  /** The ledger after a failure at `now`: all failures so far, and how many of them lie in the window. */
  function LedgerFailed(cfg: Config, l: Ledger, all: seq<int>, recent: nat, now: int): Ledger {
    if l.mode == HALF_OPEN || (l.mode == CLOSED && recent >= cfg.failureThreshold) then Ledger(OPEN, 0, now, all)
    else l.(failures := all)
  }

  function LedgerStep(cfg: Config, l: Ledger, call: Call): Ledger {
    match call
    case IsOpen(now) =>
      if l.mode == OPEN && now - l.openedAt >= cfg.timeout then l.(mode := HALF_OPEN, successes := 0) else l
    case Success(_) =>
      if l.mode != HALF_OPEN then l
      else if l.successes + 1 >= cfg.successThreshold then l.(mode := CLOSED, successes := 0, failures := [])
      else l.(successes := l.successes + 1)
    case Failure(now) =>
      LedgerFailed(cfg, l, l.failures + [now], Recent(l.failures + [now], now - cfg.window), now)
  }

  /** The breaker after the first n calls. */
  function After(cfg: Config, calls: seq<Call>, n: nat): Breaker
    requires n <= |calls|
  {
    if n == 0 then FRESH else Step(cfg, After(cfg, calls, n - 1), calls[n - 1])
  }

  function LedgerAfter(cfg: Config, calls: seq<Call>, n: nat): Ledger
    requires n <= |calls|
  {
    if n == 0 then EMPTY_LEDGER else LedgerStep(cfg, LedgerAfter(cfg, calls, n - 1), calls[n - 1])
  }

  predicate Ordered(calls: seq<Call>) {
    forall i, j :: 0 <= i <= j < |calls| ==> calls[i].at <= calls[j].at
  }

  lemma {:induction false} KeepAgain(ts: seq<int>, early: int, late: int)
    requires early <= late
    ensures Keep(Keep(ts, early), late) == Keep(ts, late)
  {
    if ts != [] {
      KeepAgain(ts[..|ts| - 1], early, late);
      var k, t := Keep(ts[..|ts| - 1], early), ts[|ts| - 1];
      if t > early {
        assert (k + [t])[..|k|] == k;
      }
    }
  }

  lemma KeepSnoc(ts: seq<int>, t: int, cutoff: int)
    ensures Keep(ts + [t], cutoff) == if t > cutoff then Keep(ts, cutoff) + [t] else Keep(ts, cutoff)
    ensures Recent(ts + [t], cutoff) == Recent(ts, cutoff) + (if t > cutoff then 1 else 0)
  {
    assert (ts + [t])[..|ts|] == ts;
  }

  lemma {:induction false} KeepCounts(ts: seq<int>, cutoff: int)
    ensures |Keep(ts, cutoff)| == Recent(ts, cutoff)
  {
    if ts != [] {
      KeepCounts(ts[..|ts| - 1], cutoff);
    }
  }

  /** Same mode, successes and opening time. */
  predicate InStep(b: Breaker, l: Ledger) {
    b.mode == l.mode && b.successCount == l.successes && b.openedAt == l.openedAt
  }

  /** The pruned list is what the ledger holds after the last cutoff, so both take the same decisions. */
  ghost predicate Simulates(b: Breaker, l: Ledger, cutoff: int) {
    InStep(b, l) && b.timestamps == Keep(l.failures, cutoff)
  }

  /**
   Adding a failure to the pruned list and pruning again keeps exactly what the full list has after the later cutoff.
   */
  lemma PruneWithNew(failures: seq<int>, now: int, early: int, late: int)
    requires early <= late
    ensures Keep(Keep(failures, early) + [now], late) == Keep(failures + [now], late)
    ensures |Keep(failures + [now], late)| == Recent(failures + [now], late)
  {
    KeepAgain(failures, early, late);
    KeepSnoc(Keep(failures, early), now, late);
    KeepSnoc(failures, now, late);
    KeepCounts(failures + [now], late);
  }

  /** The decision on a failure depends on the window's count alone. */
  lemma FailedInStep(cfg: Config, b: Breaker, l: Ledger, ts: seq<int>, all: seq<int>, now: int)
    requires InStep(b, l)
    ensures var b', l' := Failed(cfg, b, ts, now), LedgerFailed(cfg, l, all, |ts|, now);
            InStep(b', l') && b'.timestamps == ts && b'.failureCount == |ts| && l'.failures == all
  {
  }

  lemma FailureSimulates(cfg: Config, b: Breaker, l: Ledger, cutoff: int, now: int)
    requires Simulates(b, l, cutoff) && cutoff <= now - cfg.window
    ensures Simulates(Step(cfg, b, Failure(now)), LedgerStep(cfg, l, Failure(now)), now - cfg.window)
    ensures Step(cfg, b, Failure(now)).failureCount == Recent(l.failures + [now], now - cfg.window)
  {
    var late, all := now - cfg.window, l.failures + [now];
    var ts := Keep(b.timestamps + [now], late);
    assert ts == Keep(all, late) && |ts| == Recent(all, late) by {
      PruneWithNew(l.failures, now, cutoff, late);
    }
    FailedInStep(cfg, b, l, ts, all, now);
  }

  lemma SuccessSimulates(cfg: Config, b: Breaker, l: Ledger, cutoff: int, now: int) returns (cutoff': int)
    requires Simulates(b, l, cutoff) && cutoff <= now - cfg.window
    ensures cutoff <= cutoff' <= now - cfg.window
    ensures Simulates(Step(cfg, b, Success(now)), LedgerStep(cfg, l, Success(now)), cutoff')
  {
    if b.mode == CLOSED {
      cutoff' := now - cfg.window;
      KeepAgain(l.failures, cutoff, cutoff');
    } else {
      cutoff' := cutoff;
    }
  }

  lemma CheckSimulates(cfg: Config, b: Breaker, l: Ledger, cutoff: int, now: int)
    requires Simulates(b, l, cutoff)
    ensures Simulates(Step(cfg, b, IsOpen(now)), LedgerStep(cfg, l, IsOpen(now)), cutoff)
  {
  }

  lemma StepSimulates(cfg: Config, b: Breaker, l: Ledger, cutoff: int, call: Call) returns (cutoff': int)
    requires Simulates(b, l, cutoff) && cutoff <= call.at - cfg.window
    ensures cutoff <= cutoff' <= call.at - cfg.window
    ensures Simulates(Step(cfg, b, call), LedgerStep(cfg, l, call), cutoff')
    ensures call.Failure? ==> Step(cfg, b, call).failureCount == Recent(l.failures + [call.at], call.at - cfg.window)
  {
    hide Step, LedgerStep, Simulates, Keep, Recent;
    match call
    case IsOpen(now) =>
      cutoff' := cutoff;
      CheckSimulates(cfg, b, l, cutoff, now);
    case Success(now) =>
      cutoff' := SuccessSimulates(cfg, b, l, cutoff, now);
    case Failure(now) =>
      cutoff' := now - cfg.window;
      FailureSimulates(cfg, b, l, cutoff, now);
  }

  lemma {:induction false} RunSimulates(cfg: Config, calls: seq<Call>, n: nat, now: int) returns (cutoff: int)
    requires Ordered(calls) && n <= |calls| && (n > 0 ==> calls[n - 1].at <= now)
    ensures cutoff <= now - cfg.window
    ensures Simulates(After(cfg, calls, n), LedgerAfter(cfg, calls, n), cutoff)
  {
    if n == 0 {
      cutoff := now - cfg.window;
    } else {
      var c := RunSimulates(cfg, calls, n - 1, calls[n - 1].at);
      cutoff := StepSimulates(cfg, After(cfg, calls, n - 1), LedgerAfter(cfg, calls, n - 1), c, calls[n - 1]);
    }
  }

  /** Breakers in step decide a call alike, and count the same failures in the window. */
  ghost predicate DecideAlike(cfg: Config, b: Breaker, l: Ledger, call: Call) {
    && b.mode == l.mode
    && (Blocks(cfg, b, call) <==> call.IsOpen? && LedgerStep(cfg, l, call).mode == OPEN)
    && Step(cfg, b, call).mode == LedgerStep(cfg, l, call).mode
    && (call.Failure? ==> Step(cfg, b, call).failureCount == Recent(l.failures + [call.at], call.at - cfg.window))
  }

  /** On every call sequence with a clock that does not go back, pruning changes no decision of any call. */
  lemma PruningIsInvisible(cfg: Config, calls: seq<Call>, n: nat)
    requires Ordered(calls) && n < |calls|
    ensures DecideAlike(cfg, After(cfg, calls, n), LedgerAfter(cfg, calls, n), calls[n])
  {
    var b, l, call := After(cfg, calls, n), LedgerAfter(cfg, calls, n), calls[n];
    var cutoff := RunSimulates(cfg, calls, n, call.at);
    var _ := StepSimulates(cfg, b, l, cutoff, call);
    assert Step(cfg, b, call).mode == LedgerStep(cfg, l, call).mode;
  }

  /**
   From CLOSED a failure opens the breaker iff the current window holds the threshold of failures since the last close.
   */
  lemma OpensIffWindowIsFull(cfg: Config, calls: seq<Call>, n: nat)
    requires Ordered(calls) && n < |calls| && calls[n].Failure? && After(cfg, calls, n).mode == CLOSED
    ensures After(cfg, calls, n + 1).mode == OPEN <==>
            Recent(LedgerAfter(cfg, calls, n).failures + [calls[n].at],
                calls[n].at - cfg.window) >= cfg.failureThreshold
  {
    PruningIsInvisible(cfg, calls, n);
  }

  predicate ClosesAt(cfg: Config, calls: seq<Call>, k: nat)
    requires k < |calls|
  {
    After(cfg, calls, k).mode != CLOSED && After(cfg, calls, k + 1).mode == CLOSED
  }

  /** Some call after m and before n has closed the breaker. */
  ghost predicate ClosedBetween(cfg: Config, calls: seq<Call>, m: nat, n: nat)
    requires n <= |calls|
  {
    exists k: nat :: m < k < n && ClosesAt(cfg, calls, k)
  }

  /** The failures among the first n calls that lie after the cutoff and that no close has followed. */
  ghost function FailuresSinceClose(cfg: Config, calls: seq<Call>, n: nat, cutoff: int): set<nat>
    requires n <= |calls|
  {
    set m: nat | m < n && calls[m].Failure? && calls[m].at > cutoff && !ClosedBetween(cfg, calls, m, n)
  }

  lemma OneMoreCall(cfg: Config, calls: seq<Call>, n: nat, cutoff: int)
    requires n < |calls| && (ClosesAt(cfg, calls, n) ==> !calls[n].Failure?)
    ensures FailuresSinceClose(cfg, calls, n + 1, cutoff) ==
            if ClosesAt(cfg, calls, n) then {}
            else FailuresSinceClose(cfg, calls, n, cutoff) +
                 if calls[n].Failure? && calls[n].at > cutoff then {n} else {}
  {
    hide ClosesAt;
    forall m: nat | m < n
      ensures ClosedBetween(cfg, calls, m, n + 1) <==> ClosedBetween(cfg, calls, m, n) || ClosesAt(cfg, calls, n)
    {
      if ClosedBetween(cfg, calls, m, n) {
        var k: nat :| m < k < n && ClosesAt(cfg, calls, k);
      }
    }
    assert !ClosedBetween(cfg, calls, n, n + 1);
  }

  lemma LedgerOneMoreCall(cfg: Config, calls: seq<Call>, n: nat)
    requires Ordered(calls) && n < |calls|
    ensures ClosesAt(cfg, calls, n) ==> !calls[n].Failure?
    ensures LedgerAfter(cfg, calls, n + 1).failures ==
            if ClosesAt(cfg, calls, n) then []
            else LedgerAfter(cfg, calls, n).failures + if calls[n].Failure? then [calls[n].at] else []
  {
    hide Keep, Recent, LedgerAfter, After;
    var _ := RunSimulates(cfg, calls, n, calls[n].at);
    var _ := RunSimulates(cfg, calls, n + 1, calls[n].at);
    AfterOneMore(cfg, calls, n);
  }

  lemma AfterOneMore(cfg: Config, calls: seq<Call>, n: nat)
    requires n < |calls|
    ensures After(cfg, calls, n + 1) == Step(cfg, After(cfg, calls, n), calls[n])
    ensures LedgerAfter(cfg, calls, n + 1) == LedgerStep(cfg, LedgerAfter(cfg, calls, n), calls[n])
  {
  }

  lemma {:induction false} LedgerHoldsThem(cfg: Config, calls: seq<Call>, n: nat, cutoff: int)
    requires Ordered(calls) && n <= |calls|
    ensures Recent(LedgerAfter(cfg, calls, n).failures, cutoff) == |FailuresSinceClose(cfg, calls, n, cutoff)|
  {
    if n == 0 {
      assert FailuresSinceClose(cfg, calls, 0, cutoff) == {};
    } else {
      hide FailuresSinceClose, ClosesAt, LedgerAfter, Recent, Keep, Ordered;
      var failures, call := LedgerAfter(cfg, calls, n - 1).failures, calls[n - 1];
      LedgerHoldsThem(cfg, calls, n - 1, cutoff);
      LedgerOneMoreCall(cfg, calls, n - 1);
      OneMoreCall(cfg, calls, n - 1, cutoff);
      if ClosesAt(cfg, calls, n - 1) {
        NothingRecent(cutoff);
      } else if call.Failure? {
        NotYet(cfg, calls, n - 1, cutoff);
        CountOneMore(failures, call.at, cutoff, FailuresSinceClose(cfg, calls, n - 1, cutoff), n - 1);
      } else {
        assert failures + [] == failures;
        assert FailuresSinceClose(cfg, calls, n - 1, cutoff) + {} == FailuresSinceClose(cfg, calls, n - 1, cutoff);
      }
    }
  }

  lemma CountOneMore(failures: seq<int>, at: int, cutoff: int, before: set<nat>, m: nat)
    requires Recent(failures, cutoff) == |before| && m !in before
    ensures Recent(failures + [at], cutoff) == |before + if at > cutoff then {m} else {}|
  {
    KeepSnoc(failures, at, cutoff);
    assert before + {} == before;
  }

  lemma NothingRecent(cutoff: int)
    ensures Recent([], cutoff) == 0
  {
  }

  lemma NotYet(cfg: Config, calls: seq<Call>, n: nat, cutoff: int)
    requires n <= |calls|
    ensures n !in FailuresSinceClose(cfg, calls, n, cutoff)
  {
  }

  /**
   In terms of the calls: a closed breaker opens on a failure iff, with it, at least the threshold of failures lie in
   the window and after the last close.
   */
  lemma OpensIffEnoughFailures(cfg: Config, calls: seq<Call>, n: nat) returns (recent: set<nat>)
    requires Ordered(calls) && n < |calls| && calls[n].Failure? && After(cfg, calls, n).mode == CLOSED
    ensures forall m: nat :: m in recent <==>
              && m <= n && calls[m].Failure? && calls[m].at > calls[n].at - cfg.window
              && !ClosedBetween(cfg, calls, m, n)
    ensures After(cfg, calls, n + 1).mode == OPEN <==> |recent| >= cfg.failureThreshold
  {
    hide After, LedgerAfter, Recent, Keep;
    var at, cutoff := calls[n].at, calls[n].at - cfg.window;
    var before := FailuresSinceClose(cfg, calls, n, cutoff);
    recent := before + if at > cutoff then {n} else {};
    LedgerHoldsThem(cfg, calls, n, cutoff);
    KeepSnoc(LedgerAfter(cfg, calls, n).failures, at, cutoff);
    OpensIffWindowIsFull(cfg, calls, n);
    assert !ClosedBetween(cfg, calls, n, n);
  }

  // ---------------------------------------------------------------------------------------------
  // Open periods
  // ---------------------------------------------------------------------------------------------

  /** The times at which a run of calls takes the breaker into OPEN. */
  function Openings(cfg: Config, b: Breaker, calls: seq<Call>): seq<int>
    decreases |calls|
  {
    if calls == [] then []
    else
      var b' := Step(cfg, b, calls[0]);
      (if b.mode != OPEN && b'.mode == OPEN then [calls[0].at] else []) + Openings(cfg, b', calls[1..])
  }

  lemma {:induction false} OpeningsAreSpaced(cfg: Config, b: Breaker, calls: seq<Call>)
    requires Ordered(calls)
    ensures var ts := Openings(cfg, b, calls);
            && (forall i :: 0 <= i < |ts| - 1 ==> ts[i + 1] - ts[i] >= cfg.timeout)
            && (b.mode == OPEN && ts != [] ==> ts[0] >= b.openedAt + cfg.timeout)
            && (ts != [] ==> calls != [] && calls[0].at <= ts[0])
    decreases |calls|
  {
    if calls != [] {
      var b', rest := Step(cfg, b, calls[0]), calls[1..];
      OpeningsAreSpaced(cfg, b', rest);
      assert rest != [] ==> calls[0].at <= calls[1].at;
    }
  }

  lemma {:induction false} SpacedTimesSpan(ts: seq<int>, gap: int)
    requires ts != [] && forall i :: 0 <= i < |ts| - 1 ==> ts[i + 1] - ts[i] >= gap
    ensures (|ts| - 1) * gap <= ts[|ts| - 1] - ts[0]
  {
    var n := |ts| - 1;
    if n > 0 {
      SpacedTimesSpan(ts[..n], gap);
      assert n * gap == (n - 1) * gap + gap;
    }
  }

  /** n openings take at least n - 1 timeouts, whatever is called in between. */
  lemma OpeningsAreRare(cfg: Config, b: Breaker, calls: seq<Call>)
    requires Ordered(calls) && Openings(cfg, b, calls) != []
    ensures var ts := Openings(cfg, b, calls);
            (|ts| - 1) * cfg.timeout <= ts[|ts| - 1] - ts[0]
  {
    OpeningsAreSpaced(cfg, b, calls);
    SpacedTimesSpan(Openings(cfg, b, calls), cfg.timeout);
  }

  function RunFrom(cfg: Config, b: Breaker, calls: seq<Call>): Breaker
    decreases |calls|
  {
    if calls == [] then b else RunFrom(cfg, Step(cfg, b, calls[0]), calls[1..])
  }

  /** Until the timeout nothing moves an open breaker: failures do not extend the period and every check blocks. */
  lemma {:induction false} StaysOpenUntilTimeout(cfg: Config, b: Breaker, calls: seq<Call>, call: Call)
    requires b.mode == OPEN && forall i :: 0 <= i < |calls| ==> calls[i].at < b.openedAt + cfg.timeout
    ensures RunFrom(cfg, b, calls).mode == OPEN && RunFrom(cfg, b, calls).openedAt == b.openedAt
    ensures call.IsOpen? ==> (Blocks(cfg, RunFrom(cfg, b, calls), call) <==> call.at < b.openedAt + cfg.timeout)
    decreases |calls|
  {
    if calls != [] {
      StaysOpenUntilTimeout(cfg, Step(cfg, b, calls[0]), calls[1..], call);
    }
  }

  /** HALF_OPEN is no single trial: any number of checks pass, until a success or a failure is recorded. */
  lemma {:induction false} HalfOpenBlocksNothing(cfg: Config, b: Breaker, checks: seq<Call>, check: Call)
    requires b.mode == HALF_OPEN && forall i :: 0 <= i < |checks| ==> checks[i].IsOpen?
    ensures RunFrom(cfg, b, checks) == b && !Blocks(cfg, RunFrom(cfg, b, checks), check)
    decreases |checks|
  {
    if checks != [] {
      HalfOpenBlocksNothing(cfg, Step(cfg, b, checks[0]), checks[1..], check);
    }
  }

  function Failures(n: nat, at: int): seq<Call> {
    if n == 0 then [] else Failures(n - 1, at) + [Failure(at)]
  }

  function Times(n: nat, at: int): seq<int> {
    if n == 0 then [] else Times(n - 1, at) + [at]
  }

  lemma {:induction false} TimesAreKept(n: nat, at: int, cutoff: int)
    requires at > cutoff
    ensures Keep(Times(n, at), cutoff) == Times(n, at) && |Times(n, at)| == n
  {
    if n > 0 {
      TimesAreKept(n - 1, at, cutoff);
      assert Times(n, at)[..|Times(n, at)| - 1] == Times(n - 1, at);
    }
  }

  lemma RunSnoc(cfg: Config, b: Breaker, calls: seq<Call>, call: Call)
    ensures RunFrom(cfg, b, calls + [call]) == Step(cfg, RunFrom(cfg, b, calls), call)
    decreases |calls|
  {
    if calls == [] {
      assert calls + [call] == [call];
    } else {
      assert (calls + [call])[1..] == calls[1..] + [call];
      RunSnoc(cfg, Step(cfg, b, calls[0]), calls[1..], call);
    }
  }

  lemma OneMoreFailure(cfg: Config, b: Breaker, n: nat, at: int)
    requires cfg.window > 0 && n + 1 < cfg.failureThreshold && b.mode == CLOSED && b.timestamps == Times(n, at)
    ensures var b' := Step(cfg, b, Failure(at)); b'.mode == CLOSED && b'.timestamps == Times(n + 1, at)
  {
    hide Keep;
    TimesAreKept(n + 1, at, at - cfg.window);
  }

  /** Fewer failures at once than the threshold are all remembered and leave the breaker closed. */
  lemma {:induction false} FailuresPile(cfg: Config, n: nat, at: int)
    requires cfg.window > 0 && n < cfg.failureThreshold
    ensures var b := RunFrom(cfg, FRESH, Failures(n, at)); b.mode == CLOSED && b.timestamps == Times(n, at)
  {
    if n > 0 {
      hide RunFrom, Step, Keep;
      FailuresPile(cfg, n - 1, at);
      OneMoreFailure(cfg, RunFrom(cfg, FRESH, Failures(n - 1, at)), n - 1, at);
      RunSnoc(cfg, FRESH, Failures(n - 1, at), Failure(at));
    }
  }

  /** A fresh breaker half-opens after a threshold of failures and one check when the timeout is over. */
  lemma HalfOpenIsReachable(cfg: Config, at: int, later: int)
    requires cfg.window > 0 && cfg.failureThreshold > 0 && later >= at + cfg.timeout
    ensures RunFrom(cfg, FRESH, Failures(cfg.failureThreshold, at)).mode == OPEN
    ensures RunFrom(cfg, FRESH, Failures(cfg.failureThreshold, at) + [IsOpen(later)]).mode == HALF_OPEN
  {
    hide RunFrom, Keep;
    var n := cfg.failureThreshold;
    FailuresPile(cfg, n - 1, at);
    TimesAreKept(n, at, at - cfg.window);
    RunSnoc(cfg, FRESH, Failures(n - 1, at), Failure(at));
    RunSnoc(cfg, FRESH, Failures(n, at), IsOpen(later));
  }

  // ---------------------------------------------------------------------------------------------
  // Closing
  // ---------------------------------------------------------------------------------------------

  /** The successes among calls from..to. */
  function Successes(calls: seq<Call>, from: nat, to: nat): nat
    requires from <= to <= |calls|
  {
    if from == to then 0 else Successes(calls, from, to - 1) + (if calls[to - 1].Success? then 1 else 0)
  }

  /** Call i took the breaker from OPEN to HALF_OPEN, and calls i + 1 .. n recorded no failure. */
  ghost predicate HalfOpenSince(cfg: Config, calls: seq<Call>, i: nat, n: nat) {
    && i < n <= |calls|
    && After(cfg, calls, i).mode == OPEN
    && After(cfg, calls, i + 1).mode == HALF_OPEN
    && (forall k :: i < k < n ==> !calls[k].Failure?)
  }

  lemma {:induction false} HalfOpenHistory(cfg: Config, calls: seq<Call>, n: nat) returns (i: nat)
    requires n <= |calls| && After(cfg, calls, n).mode == HALF_OPEN
    ensures HalfOpenSince(cfg, calls, i, n)
    ensures Successes(calls, i + 1, n) == After(cfg, calls, n).successCount
    ensures After(cfg, calls, n).successCount == 0 || After(cfg, calls, n).successCount < cfg.successThreshold
  {
    if After(cfg, calls, n - 1).mode == HALF_OPEN {
      i := HalfOpenHistory(cfg, calls, n - 1);
    } else {
      i := n - 1;
    }
  }

  /**
   The breaker closes only on the success that completes the threshold since it went half-open, with no failure in
   between.
   */
  lemma ClosesAfterSuccesses(cfg: Config, calls: seq<Call>, n: nat) returns (i: nat)
    requires n < |calls| && After(cfg, calls, n).mode != CLOSED && After(cfg, calls, n + 1).mode == CLOSED
    ensures calls[n].Success? && HalfOpenSince(cfg, calls, i, n)
    ensures Successes(calls, i + 1, n + 1) == if cfg.successThreshold < 1 then 1 else cfg.successThreshold
    ensures After(cfg, calls, n + 1).timestamps == []
  {
    i := HalfOpenHistory(cfg, calls, n);
  }
}
