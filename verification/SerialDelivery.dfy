/**
 One notification with one outstanding message, attempted until it is settled: each send task runs to its
 end, and the retry task or, after an exception, the sweep hands it back.
 */
module SerialDelivery {
  import opened Wrappers
  import opened Delivery
  import opened DeliveryTasks

  predicate Settled(n: Note) {
    Has(n.row, DELIVERED) || Has(n.row, DEAD)
  }

  /** One message outstanding and attempts left. */
  predicate Ready(n: Note) {
    && Resting(n) && n.sends == 1 && n.retries == 0
    && n.row.Some? && n.row.value.status in {QUEUED, PENDING, RETRYING}
    && !Spent(n.row.value)
  }

  /** The retry task if one was scheduled, and otherwise the sweep once the row is due. */
  function HandBack(n: Note): Note {
    if !Has(n.row, RETRYING) then n
    else if n.retries > 0 then Two(n, RunRetryTask(true), AckRetry)
    else if n.row.value.nextRetryAt.None? then n
    else Two(n, SweepSelect(n.row.value.nextRetryAt.value), SweepRequeue)
  }

  function HandedBack(n: Note): Note {
    if !Has(n.row, RETRYING) then n
    else if n.retries > 0 then
      n.(row := Some(n.row.value.(status := PENDING)), sends := n.sends + 1, retries := n.retries - 1)
    else n.(sends := n.sends + 1)
  }

  lemma HandBackRun(n: Note)
    requires Has(n.row, RETRYING) && n.retries == 0 ==>
               n.row.value.nextRetryAt.Some? && IsPendingRetry(n.row.value, n.row.value.nextRetryAt.value)
    ensures HandBack(n) == HandedBack(n)
  {
    if Has(n.row, RETRYING) {
      if n.retries == 0 {
        SweepRun(n, n.row.value.nextRetryAt.value);
      } else {
        var row := n.row.value.(status := PENDING);
        assert Next(n, RunRetryTask(true)) == n.(row := Some(row), sends := n.sends + 1);
      }
    }
  }

  /** One round in closed form: the send task, its acknowledgement, and the way back to the queue. */
  function Round(n: Note, b: Behaviour, now: int): Note {
    var sent := AfterSend(n, b, now);
    HandedBack(sent.(sends := Less(sent.sends)))
  }

  lemma RetriesAreDue(n: Note, b: Behaviour, now: int)
    requires Ready(n)
    ensures var row := AfterSend(n, b, now).row;
            Has(row, RETRYING) ==> row.value.nextRetryAt.Some? && IsPendingRetry(row.value, row.value.nextRetryAt.value)
  {
  }

  /** A round is a run of the steps of the interleaved system. */
  lemma RoundIsRun(n: Note, b: Behaviour, now: int)
    requires Ready(n)
    ensures Round(n, b, now) == HandBack(Next(SendRun(n, b, now), AckSend))
  {
    SendIsRun(n, b, now);
    RetriesAreDue(n, b, now);
    var sent := AfterSend(n, b, now);
    var acked := sent.(sends := Less(sent.sends));
    assert Next(sent, AckSend) == acked;
    HandBackRun(acked);
  }

  /** A round settles the row and leaves no message, or leaves it ready with a higher count. */
  lemma RoundAdvances(n: Note, b: Behaviour, now: int)
    requires Ready(n)
    ensures var n', row := Round(n, b, now), n.row.value;
            && n'.row.Some? && n'.row.value.maxRetries == row.maxRetries
            && (if Settled(n') then n'.sends == 0 && n'.retries == 0
                else Ready(n') && n'.row.value.retryCount > row.retryCount)
            && n.calls <= n'.calls <= n.calls + 1
  {
    var sent := AfterSend(n, b, now);
    assert sent.row.value.status in {DELIVERED, DEAD, RETRYING} && sent.sends == 1;
  }

  lemma RoundDelivers(n: Note, b: Behaviour, now: int)
    requires Ready(n) && b.Delivers?
    ensures var n' := Round(n, b, now);
            Has(n'.row, DELIVERED) && n'.calls == n.calls + 1 &&
                n'.log == n.log + [LogLine(Delivered, n.row.value.retryCount + 1)]
  {
  }

  lemma RoundFails(n: Note, now: int)
    requires Ready(n)
    ensures var n', row := Round(n, Fails, now), n.row.value;
            && n'.calls == n.calls + 1 && n'.log == n.log + [LogLine(Failed, row.retryCount + 1)]
            && n'.row.Some? && n'.row.value.retryCount == row.retryCount + 1
            && (if row.retryCount + 1 >= row.maxRetries then Has(n'.row, DEAD)
                else Has(n'.row, PENDING) && n'.row.value.nextRetryAt == Some(now + Delay(row.retryCount + 1)))
  {
  }

  lemma RoundSpec(n: Note, b: Behaviour, now: int)
    requires Ready(n)
    ensures var n', row := Round(n, b, now), n.row.value;
            && n'.row.Some? && n'.row.value.maxRetries == row.maxRetries
            && (if Settled(n') then n'.sends == 0 && n'.retries == 0
                else Ready(n') && n'.row.value.retryCount > row.retryCount)
            && n.calls <= n'.calls <= n.calls + 1
            && (b.Delivers? ==>
                  Has(n'.row, DELIVERED) && n'.calls == n.calls + 1 &&
                      n'.log == n.log + [LogLine(Delivered, row.retryCount + 1)])
            && (b.Fails? ==>
                  && n'.calls == n.calls + 1 && n'.log == n.log + [LogLine(Failed, row.retryCount + 1)]
                  && n'.row.value.retryCount == row.retryCount + 1
                  && (if row.retryCount + 1 >= row.maxRetries then Has(n'.row, DEAD)
                      else Has(n'.row, PENDING) && n'.row.value.nextRetryAt == Some(now + Delay(row.retryCount + 1))))
  {
    RoundAdvances(n, b, now);
    if b.Delivers? {
      RoundDelivers(n, b, now);
    } else if b.Fails? {
      RoundFails(n, now);
    }
  }

  /** Rounds until the row is settled; bs and clock give each round its behaviour and its time. */
  function Drive(n: Note, bs: nat -> Behaviour, clock: nat -> int, k: nat): Note
    decreases if Ready(n) then Limit(n.row.value) - n.row.value.retryCount else 0
  {
    if !Ready(n) then n
    else
      RoundSpec(n, bs(k), clock(k));
      Drive(Round(n, bs(k), clock(k)), bs, clock, k + 1)
  }

  lemma {:induction false} DriveSettles(n: Note, bs: nat -> Behaviour, clock: nat -> int, k: nat)
    requires Ready(n)
    ensures var n' := Drive(n, bs, clock, k);
            Settled(n') && n'.sends == 0 && n'.retries == 0 &&
                n'.calls <= n.calls + Limit(n.row.value) - n.row.value.retryCount
    decreases Limit(n.row.value) - n.row.value.retryCount
  {
    RoundSpec(n, bs(k), clock(k));
    var n' := Round(n, bs(k), clock(k));
    if !Settled(n') {
      DriveSettles(n', bs, clock, k + 1);
    }
  }

  /**
   Whatever the provider answers or raises: at most max(1, m) provider calls, then DELIVERED or DEAD with no message
   left.
   */
  lemma EveryDeliverySettles(m: int, bs: nat -> Behaviour, clock: nat -> int)
    ensures var n := Drive(Launched(m), bs, clock, 0);
            Settled(n) && n.sends == 0 && n.retries == 0 && n.calls <= if m < 1 then 1 else m
  {
    DriveSettles(Launched(m), bs, clock, 0);
  }

  // ---------------------------------------------------------------------------------------------
  // When nothing raises
  // ---------------------------------------------------------------------------------------------

  ghost predicate Calm(bs: nat -> Behaviour) {
    forall k: nat :: bs(k).Delivers? || bs(k).Fails?
  }

  predicate Numbered(log: seq<LogLine>) {
    forall i :: 0 <= i < |log| ==> log[i].attempt == i + 1
  }

  predicate AllFailed(log: seq<LogLine>) {
    forall i :: 0 <= i < |log| ==> log[i].report == Failed
  }

  /** So far only failed attempts, each logged and counted. */
  predicate OnlyFailures(n: Note) {
    n.row.Some? && |n.log| == n.calls == n.row.value.retryCount && Numbered(n.log) && AllFailed(n.log)
  }

  /** The log of a settled row: failures, then a delivery, or failures only up to the limit. */
  predicate FullyLogged(n: Note, limit: nat) {
    && |n.log| == n.calls >= 1 && Numbered(n.log) && AllFailed(n.log[..|n.log| - 1])
    && (Has(n.row, DEAD) ==> n.calls == limit && AllFailed(n.log))
    && (Has(n.row, DELIVERED) ==> n.log[|n.log| - 1].report == Delivered)
  }

  lemma LogOneMore(log: seq<LogLine>, line: LogLine)
    requires Numbered(log) && AllFailed(log) && line.attempt == |log| + 1
    ensures Numbered(log + [line]) && (line.report == Failed ==> AllFailed(log + [line]))
    ensures (log + [line])[..|log|] == log
  {
  }

  lemma CalmRound(n: Note, b: Behaviour, now: int)
    requires Ready(n) && OnlyFailures(n) && (b.Delivers? || b.Fails?)
    ensures var n' := Round(n, b, now);
            if Settled(n') then FullyLogged(n', Limit(n.row.value)) else OnlyFailures(n')
  {
    RoundSpec(n, b, now);
    LogOneMore(n.log, LogLine(if b.Delivers? then Delivered else Failed, n.row.value.retryCount + 1));
  }

  lemma {:induction false} CalmDrive(n: Note, bs: nat -> Behaviour, clock: nat -> int, k: nat)
    requires Ready(n) && OnlyFailures(n) && Calm(bs)
    ensures FullyLogged(Drive(n, bs, clock, k), Limit(n.row.value))
    decreases Limit(n.row.value) - n.row.value.retryCount
  {
    RoundSpec(n, bs(k), clock(k));
    assert bs(k).Delivers? || bs(k).Fails?;
    CalmRound(n, bs(k), clock(k));
    var n' := Round(n, bs(k), clock(k));
    if !Settled(n') {
      CalmDrive(n', bs, clock, k + 1);
    }
  }

  /** If nothing raises, the log numbers the calls 1..k without gaps, and DEAD means exactly max(1, m) failed calls. */
  lemma CalmDeliveryIsLogged(m: int, bs: nat -> Behaviour, clock: nat -> int)
    requires Calm(bs)
    ensures var n := Drive(Launched(m), bs, clock, 0);
            && |n.log| == n.calls >= 1 && Numbered(n.log) && AllFailed(n.log[..|n.log| - 1])
            && (Has(n.row, DEAD) ==> n.calls == (if m < 1 then 1 else m) && AllFailed(n.log))
            && (Has(n.row, DELIVERED) ==> n.log[|n.log| - 1].report == Delivered)
  {
    CalmDrive(Launched(m), bs, clock, 0);
  }

  /** How long the row waits after each round that leaves it ready. */
  function Waits(n: Note, bs: nat -> Behaviour, clock: nat -> int, k: nat): seq<int>
    decreases if Ready(n) then Limit(n.row.value) - n.row.value.retryCount else 0
  {
    if !Ready(n) then []
    else
      RoundSpec(n, bs(k), clock(k));
      var n' := Round(n, bs(k), clock(k));
      if Settled(n') || n'.row.value.nextRetryAt.None? then []
      else [n'.row.value.nextRetryAt.value - clock(k)] + Waits(n', bs, clock, k + 1)
  }

  /** Whatever happens in a round, a row that stays ready waits for its new count's delay. */
  lemma RoundWaits(n: Note, b: Behaviour, now: int)
    requires Ready(n)
    ensures var n' := Round(n, b, now);
            !Settled(n') ==>
              && n'.row.Some? && n'.row.value.nextRetryAt == Some(now + Delay(n'.row.value.retryCount))
              && n'.row.value.retryCount > n.row.value.retryCount
  {
  }

  lemma DelayOrder(m: nat, n: nat)
    requires 1 <= m <= n
    ensures RETRY_DELAY_SCHEDULE[1] <= Delay(m) <= Delay(n) <= RETRY_DELAY_SCHEDULE[4]
  {
  }

  /** The waits lie within these bounds and never decrease. */
  predicate Rising(ws: seq<int>, least: int) {
    && (forall i, j :: 0 <= i <= j < |ws| ==> ws[i] <= ws[j] <= RETRY_DELAY_SCHEDULE[4])
    && (forall i :: 0 <= i < |ws| ==> least <= ws[i])
  }

  /** One round's wait, and then the rest. */
  lemma WaitsUnrolled(n: Note, bs: nat -> Behaviour, clock: nat -> int, k: nat)
    requires Ready(n)
    ensures var n' := Round(n, bs(k), clock(k));
            && (!Settled(n') ==>
                  && n'.row.Some? && Ready(n') && n.row.value.retryCount < n'.row.value.retryCount
                  && n'.row.value.maxRetries == n.row.value.maxRetries)
            && Waits(n, bs, clock, k) == if Settled(n') then []
                else [Delay(n'.row.value.retryCount)] + Waits(n', bs, clock, k + 1)
  {
    hide Round, Limit;
    RoundAdvances(n, bs(k), clock(k));
    RoundWaits(n, bs(k), clock(k));
  }

  lemma RisingCons(least: nat, c: nat, rest: seq<int>)
    requires 1 <= least <= c && Rising(rest, Delay(c + 1))
    ensures Rising([Delay(c)] + rest, Delay(least))
  {
    DelayOrder(least, c);
    DelayOrder(c, c + 1);
  }

  lemma {:induction false} WaitsRise(n: Note, bs: nat -> Behaviour, clock: nat -> int, k: nat)
    requires Ready(n)
    ensures Rising(Waits(n, bs, clock, k), Delay(n.row.value.retryCount + 1))
    decreases Limit(n.row.value) - n.row.value.retryCount
  {
    hide Round;
    WaitsUnrolled(n, bs, clock, k);
    var n' := Round(n, bs(k), clock(k));
    if !Settled(n') {
      WaitsRise(n', bs, clock, k + 1);
      RisingCons(n.row.value.retryCount + 1, n'.row.value.retryCount, Waits(n', bs, clock, k + 1));
    }
  }

  /**
   Whatever the provider answers or raises, the waits never decrease, and the first entry of the schedule is never
   used.
   */
  lemma WaitsNeverDecrease(m: int, bs: nat -> Behaviour, clock: nat -> int)
    ensures Rising(Waits(Launched(m), bs, clock, 0), RETRY_DELAY_SCHEDULE[1])
  {
    WaitsRise(Launched(m), bs, clock, 0);
  }

  /** The delays that follow c failures, one for each further failure. */
  predicate DelaysFrom(ws: seq<int>, c: nat) {
    forall i :: 0 <= i < |ws| ==> ws[i] == Delay(c + 1 + i)
  }

  lemma DelaysCons(c: nat, rest: seq<int>)
    requires DelaysFrom(rest, c + 1)
    ensures DelaysFrom([Delay(c + 1)] + rest, c)
  {
    var ws := [Delay(c + 1)] + rest;
    forall i | 0 <= i < |ws| ensures ws[i] == Delay(c + 1 + i) {
      assert i > 0 ==> ws[i] == rest[i - 1];
    }
  }

  lemma CalmRoundCounts(n: Note, b: Behaviour, now: int)
    requires Ready(n) && (b.Delivers? || b.Fails?)
    ensures var n' := Round(n, b, now);
            && (!Settled(n') ==> n'.row.Some? && n'.row.value.retryCount == n.row.value.retryCount + 1)
            && (b.Fails? ==> (Settled(n') <==> n.row.value.retryCount + 1 >= Limit(n.row.value)))
  {
    RoundSpec(n, b, now);
  }

  /** If nothing raises, wait i is the delay after i + 1 more failures. */
  lemma {:induction false} CalmWaits(n: Note, bs: nat -> Behaviour, clock: nat -> int, k: nat)
    requires Ready(n) && Calm(bs)
    ensures var ws, left := Waits(n, bs, clock, k), Limit(n.row.value) - n.row.value.retryCount;
            && DelaysFrom(ws, n.row.value.retryCount) && |ws| < left
            && ((forall j: nat :: j >= k ==> bs(j).Fails?) ==> |ws| == left - 1)
    decreases Limit(n.row.value) - n.row.value.retryCount
  {
    hide Round;
    assert bs(k).Delivers? || bs(k).Fails?;
    WaitsUnrolled(n, bs, clock, k);
    CalmRoundCounts(n, bs(k), clock(k));
    var n' := Round(n, bs(k), clock(k));
    if !Settled(n') {
      CalmWaits(n', bs, clock, k + 1);
      DelaysCons(n.row.value.retryCount, Waits(n', bs, clock, k + 1));
    }
  }

  function Total(ws: seq<int>): int {
    if ws == [] then 0 else Total(ws[..|ws| - 1]) + ws[|ws| - 1]
  }

  lemma {:induction false} TotalOfDelays(ws: seq<int>)
    requires |ws| >= 4 && forall i :: 0 <= i < |ws| ==> ws[i] == Delay(1 + i)
    ensures Total(ws) == 12000 + 7200 * (|ws| - 4)
  {
    if |ws| == 4 {
      assert ws[..3][..2] == ws[..2] && ws[..2][..1] == ws[..1];
      assert Total(ws[..1]) == 300;
      assert Total(ws[..2]) == 1200;
      assert Total(ws[..3]) == 4800;
    } else {
      TotalOfDelays(ws[..|ws| - 1]);
    }
  }

  /** When every call fails and m >= 5, the waits add up to 12000 + 7200 * (m - 5) seconds. */
  lemma TotalWait(m: int, bs: nat -> Behaviour, clock: nat -> int)
    requires m >= 5 && forall k: nat :: bs(k).Fails?
    ensures Total(Waits(Launched(m), bs, clock, 0)) == 12000 + 7200 * (m - 5)
  {
    CalmWaits(Launched(m), bs, clock, 0);
    TotalOfDelays(Waits(Launched(m), bs, clock, 0));
  }
}
