/**
 The life of one notification (app/celery/tasks.py, app/celery/scheduled_tasks.py,
 app/api/v1/endpoints/notifications.py, app/services/delivery_tracking_service.py, and the row's part of
 an event transaction).

 Handlers, workers, the sweep, managers and provider receipts all act on the same committed row and the
 same task messages. The module is a step system in which every read and every commit is a step of its
 own, a message stays outstanding until it is acknowledged (at-least-once delivery), and a worker may
 raise or stop anywhere. Rows of different notifications share nothing but the lookup of a receipt by
 provider id, so the steps are those of one row.
 */
module Delivery {
  import opened Wrappers

  datatype Status =
    PENDING | QUEUED | PROCESSING | SENT | DELIVERED | FAILED | RETRYING | DEAD | CANCELLED | SKIPPED

  /** The status column of the delivery log, and what a provider receipt reports. */
  datatype Report = Unknown | Queued | Sent | Delivered | Failed | Bounced | Opened | Clicked

  datatype Row = Row(
    status: Status,
    retryCount: nat,
    maxRetries: int,
    nextRetryAt: Option<int>,
    providerId: Option<string>)

  datatype LogLine = LogLine(report: Report, attempt: int)

  /** Seconds before attempt number n + 1, for n failures so far. */
  const RETRY_DELAY_SCHEDULE := [60, 300, 900, 3600, 7200]

  function Delay(n: nat): int {
    RETRY_DELAY_SCHEDULE[if n < |RETRY_DELAY_SCHEDULE| - 1 then n else |RETRY_DELAY_SCHEDULE| - 1]
  }

  // ---------------------------------------------------------------------------------------------
  // What one commit writes
  // ---------------------------------------------------------------------------------------------

  /** seen is the row as the worker read it; row is the row it writes to. */
  function AfterSuccess(row: Row, providerId: Option<string>): Row {
    row.(status := DELIVERED, providerId := providerId)
  }

  function AfterFailure(row: Row, seen: Row, now: int): Row {
    var n := seen.retryCount + 1;
    if n >= seen.maxRetries then row.(status := DEAD, retryCount := n)
    else row.(status := RETRYING, retryCount := n, nextRetryAt := Some(now + Delay(n)))
  }

  /** The exception path: giving up leaves the count as it was. */
  function AfterException(row: Row, seen: Row, now: int): Row {
    var n := seen.retryCount + 1;
    if n >= seen.maxRetries then row.(status := DEAD)
    else row.(status := RETRYING, retryCount := n, nextRetryAt := Some(now + Delay(n)))
  }

  function AfterReceipt(row: Row, report: Report): Row {
    match report
    case Delivered => row.(status := DELIVERED)
    case Failed => row.(status := FAILED)
    case Bounced => row.(status := FAILED)
    case _ => row
  }

  // ---------------------------------------------------------------------------------------------
  // The step system
  // ---------------------------------------------------------------------------------------------

  /** Where a worker is inside one run of the send task. */
  datatype Job =
    | Loaded(seen: Row)     // has read the row; nothing it wrote is committed
    | Handed(seen: Row)     // the provider has been called
    | Requeuing             // committed RETRYING, about to schedule the retry task
    | Raised                // an exception was caught and the session rolled back
    | Reloaded(seen: Row)   // has read the row again in a second session

  datatype Note = Note(
    born: bool,             // the id has been created; ids are never reused
    draft: Option<Row>,     // the row inside its event transaction
    row: Option<Row>,       // the committed row
    log: seq<LogLine>,      // its delivery log
    sends: nat,             // send-task messages outstanding
    retries: nat,           // retry-task messages outstanding
    jobs: map<nat, Job>,    // runs of the send task in progress
    swept: nat,             // times a sweep has selected the row and not yet requeued it
    retrying: nat,          // manual retries between their check and their commit
    cancelling: nat,        // cancellations between their check and their commit
    calls: nat)             // calls made to a provider

  const UNBORN := Note(false, None, None, [], 0, 0, map[], 0, 0, 0, 0)

  datatype Step =
    // the event transaction: build, gate, commit or roll back
    | Build(maxRetries: int, skip: bool)
    | GateQueue
    | GateSkip
    | GateNoUser
    | Commit
    | RollBack
    // one run of the send task
    | Pick(worker: nat)
    | HandOver(worker: nat)
    | Settle(worker: nat, ok: bool, providerId: Option<string>, now: int)
    | ScheduleRetry(worker: nat)
    | Raise(worker: nat)
    | Reload(worker: nat)
    | Recover(worker: nat, now: int)
    | Crash(worker: nat)
    // the broker, the retry task and the sweep
    | AckSend
    | AckRetry
    | RunRetryTask(enqueued: bool)
    | SweepSelect(now: int)
    | SweepRequeue
    // managers; each request checks first and commits when it ends
    | RetryCheck
    | RetryEnqueue
    | RetryCommit
    | RetryDrop
    | CancelCheck
    | CancelCommit
    | CancelDrop
    // a receipt, which takes effect only when its provider id names one row
    | Receive(messageId: string, report: Report, unique: bool)
    | CleanUp

  /** The send task refuses nothing but these two. */
  predicate Refused(status: Status) {
    status == DELIVERED || status == CANCELLED
  }

  predicate IsPendingRetry(row: Row, now: int) {
    row.status == RETRYING && row.nextRetryAt.Some? && row.nextRetryAt.value <= now && row.retryCount < row.maxRetries
  }

  predicate MayCleanUp(status: Status) {
    status == DELIVERED || status == SKIPPED || status == DEAD || status == CANCELLED
  }

  predicate Has(row: Option<Row>, status: Status) {
    row.Some? && row.value.status == status
  }

  function Less(n: nat): nat {
    if n == 0 then 0 else n - 1
  }

  function WithJob(n: Note, w: nat, job: Job): Note {
    n.(jobs := n.jobs[w := job])
  }

  function WithoutJob(n: Note, w: nat): Note {
    n.(jobs := n.jobs - {w})
  }

  /** In the functions below, a step that is not possible in the state leaves it as it is. */
  function NextHandler(n: Note, step: Step): Note {
    match step
    case Build(m, skip) =>
      if n.born then n
      else n.(born := true,
          draft := Some(if skip then Row(SKIPPED, 0, 0, None, None) else Row(PENDING, 0, m, None, None)))
    case GateQueue =>
      if Has(n.draft, PENDING) then n.(draft := Some(n.draft.value.(status := QUEUED)), sends := n.sends + 1) else n
    case GateSkip =>
      if Has(n.draft, PENDING) then n.(draft := Some(n.draft.value.(status := SKIPPED))) else n
    case GateNoUser =>
      if Has(n.draft, PENDING) then n.(draft := Some(n.draft.value.(status := FAILED))) else n
    case Commit =>
      if n.draft.None? || Has(n.draft, PENDING) then n else n.(row := n.draft, log := [], draft := None)
    case RollBack => n.(draft := None)
    case _ => n
  }

  /** A commit whose row is gone fails on its log line's foreign key. */
  function SettleJob(n: Note, w: nat, seen: Row, ok: bool, providerId: Option<string>, now: int): Note {
    if n.row.None? then WithJob(n, w, Raised)
    else if ok then
      WithoutJob(n.(row := Some(AfterSuccess(n.row.value, providerId)),
          log := n.log + [LogLine(Delivered, seen.retryCount + 1)]), w)
    else
      var row := AfterFailure(n.row.value, seen, now);
      var n1 := n.(row := Some(row), log := n.log + [LogLine(Failed, seen.retryCount + 1)]);
      if row.status == DEAD then WithoutJob(n1, w) else WithJob(n1, w, Requeuing)
  }

  function NextWorker(n: Note, step: Step, w: nat): Note {
    if step.Pick? then
      if n.sends == 0 || w in n.jobs || n.row.None? || Refused(n.row.value.status) then n
      else WithJob(n, w, Loaded(n.row.value))
    else if w !in n.jobs then n
    else
      match (step, n.jobs[w])
      case (HandOver(_), Loaded(seen)) => WithJob(n, w, Handed(seen)).(calls := n.calls + 1)
      case (Settle(_, ok, p, now), Handed(seen)) => SettleJob(n, w, seen, ok, p, now)
      case (ScheduleRetry(_), Requeuing) => WithoutJob(n, w).(retries := n.retries + 1)
      case (Raise(_), Loaded(_)) => WithJob(n, w, Raised)
      case (Raise(_), Handed(_)) => WithJob(n, w, Raised)
      case (Raise(_), Requeuing) => WithJob(n, w, Raised)
      case (Reload(_), Raised) => if n.row.None? then WithoutJob(n, w) else WithJob(n, w, Reloaded(n.row.value))
      case (Recover(_, now), Reloaded(seen)) =>
        if n.row.None? then WithoutJob(n, w)
        else WithoutJob(n.(row := Some(AfterException(n.row.value, seen, now))), w)
      case (Crash(_), _) => WithoutJob(n, w)
      case _ => n
  }

  function NextOther(n: Note, step: Step): Note {
    match step
    case AckSend => n.(sends := Less(n.sends))
    case AckRetry => n.(retries := Less(n.retries))
    case RunRetryTask(enqueued) =>
      if n.retries == 0 || n.row.None? then n
      else n.(row := Some(n.row.value.(status := PENDING)), sends := if enqueued then n.sends + 1 else n.sends)
    case SweepSelect(now) =>
      if n.row.None? || !IsPendingRetry(n.row.value, now) then n else n.(swept := n.swept + 1)
    case SweepRequeue =>
      if n.swept == 0 then n else n.(swept := n.swept - 1, sends := n.sends + 1)
    case RetryCheck =>
      if Has(n.row, FAILED) || Has(n.row, DEAD) then n.(retrying := n.retrying + 1) else n
    case RetryEnqueue =>
      if n.retrying == 0 then n else n.(sends := n.sends + 1)
    case RetryCommit =>
      if n.retrying == 0 then n
      else n.(retrying := n.retrying - 1,
              row := if n.row.None? then None else Some(n.row.value.(status := PENDING, retryCount := 0)))
    case RetryDrop => n.(retrying := Less(n.retrying))
    case CancelCheck =>
      if n.row.None? || Has(n.row, DELIVERED) || Has(n.row, SENT) then n else n.(cancelling := n.cancelling + 1)
    case CancelCommit =>
      if n.cancelling == 0 then n
      else n.(cancelling := n.cancelling - 1,
          row := if n.row.None? then None else Some(n.row.value.(status := CANCELLED)))
    case CancelDrop => n.(cancelling := Less(n.cancelling))
    case Receive(messageId, report, unique) =>
      if !unique || n.row.None? || n.row.value.providerId != Some(messageId) then n
      else n.(row := Some(AfterReceipt(n.row.value, report)),
          log := n.log + [LogLine(report, n.row.value.retryCount + 1)])
    case CleanUp =>
      if n.row.None? || !MayCleanUp(n.row.value.status) then n else n.(row := None, log := [])
    case _ => n
  }

  predicate IsHandlerStep(step: Step) {
    step.Build? || step.GateQueue? || step.GateSkip? || step.GateNoUser? || step.Commit? || step.RollBack?
  }

  predicate IsWorkerStep(step: Step) {
    step.Pick? || step.HandOver? || step.Settle? || step.ScheduleRetry? || step.Raise? || step.Reload? ||
        step.Recover? || step.Crash?
  }

  function Next(n: Note, step: Step): Note {
    if IsHandlerStep(step) then NextHandler(n, step)
    else if IsWorkerStep(step) then NextWorker(n, step, step.worker)
    else NextOther(n, step)
  }

  function Run(n: Note, steps: seq<Step>): Note
    decreases |steps|
  {
    if steps == [] then n else Run(Next(n, steps[0]), steps[1..])
  }

  // ---------------------------------------------------------------------------------------------
  // A retrying row is always in reach of the sweep
  // ---------------------------------------------------------------------------------------------

  predicate Sweepable(row: Row) {
    row.status == RETRYING ==> row.nextRetryAt.Some? && 0 < row.retryCount < row.maxRetries
  }

  /** Workers have seen the row's own retry limit, and no row is created once the id's row has gone. */
  predicate RetrySafe(n: Note) {
    && (n.row.Some? ==> n.born && n.draft.None? && Sweepable(n.row.value))
    && (n.draft.Some? ==> n.born && n.jobs == map[] && n.draft.value.status != RETRYING)
    && (!n.born ==> n.jobs == map[])
    && (forall w :: w in n.jobs && n.row.Some? && (n.jobs[w].Loaded? || n.jobs[w].Handed? || n.jobs[w].Reloaded?) ==>
          n.jobs[w].seen.maxRetries == n.row.value.maxRetries)
  }

  lemma HandlerIsRetrySafe(n: Note, step: Step)
    requires RetrySafe(n)
    ensures RetrySafe(NextHandler(n, step))
  {
  }

  lemma WorkerIsRetrySafe(n: Note, step: Step)
    requires RetrySafe(n) && IsWorkerStep(step)
    ensures RetrySafe(NextWorker(n, step, step.worker))
  {
  }

  lemma OtherIsRetrySafe(n: Note, step: Step)
    requires RetrySafe(n)
    ensures RetrySafe(NextOther(n, step))
  {
  }

  lemma StepIsRetrySafe(n: Note, step: Step)
    requires RetrySafe(n)
    ensures RetrySafe(Next(n, step))
  {
    if IsHandlerStep(step) {
      HandlerIsRetrySafe(n, step);
    } else if IsWorkerStep(step) {
      WorkerIsRetrySafe(n, step);
    } else {
      OtherIsRetrySafe(n, step);
    }
  }

  lemma {:induction false} RunIsRetrySafe(n: Note, steps: seq<Step>)
    requires RetrySafe(n)
    ensures RetrySafe(Run(n, steps))
    decreases |steps|
  {
    if steps != [] {
      StepIsRetrySafe(n, steps[0]);
      RunIsRetrySafe(Next(n, steps[0]), steps[1..]);
    }
  }

  /**
   In every reachable state a RETRYING row has its retry time set and a count strictly between 0 and its limit,
   so from that time on it meets the sweep's query, also when the exception path left it with no retry task.
   */
  lemma RetryingIsSweepable(steps: seq<Step>, now: int)
    requires Has(Run(UNBORN, steps).row, RETRYING)
    ensures var row := Run(UNBORN, steps).row.value;
            && row.nextRetryAt.Some? && 0 < row.retryCount < row.maxRetries
            && (IsPendingRetry(row, now) <==> row.nextRetryAt.value <= now)
  {
    RunIsRetrySafe(UNBORN, steps);
  }

  // ---------------------------------------------------------------------------------------------
  // A delivered row has its log line
  // ---------------------------------------------------------------------------------------------

  predicate LogsDelivery(log: seq<LogLine>) {
    exists i :: 0 <= i < |log| && log[i].report == Delivered
  }

  predicate DeliveryLogged(n: Note) {
    && (Has(n.row, DELIVERED) ==> LogsDelivery(n.log))
    && !Has(n.draft, DELIVERED)
  }

  lemma LogsDeliveryGrows(log: seq<LogLine>, line: LogLine)
    requires LogsDelivery(log) || line.report == Delivered
    ensures LogsDelivery(log + [line])
  {
    if LogsDelivery(log) {
      var i :| 0 <= i < |log| && log[i].report == Delivered;
      assert (log + [line])[i].report == Delivered;
    } else {
      assert (log + [line])[|log|].report == Delivered;
    }
  }

  lemma SettleLogsDelivery(n: Note, w: nat, seen: Row, ok: bool, p: Option<string>, now: int)
    requires DeliveryLogged(n)
    ensures DeliveryLogged(SettleJob(n, w, seen, ok, p, now)) && n.log <= SettleJob(n, w, seen, ok, p, now).log
  {
    if ok {
      LogsDeliveryGrows(n.log, LogLine(Delivered, seen.retryCount + 1));
    }
  }

  lemma WorkerLogsDelivery(n: Note, step: Step)
    requires DeliveryLogged(n) && IsWorkerStep(step)
    ensures DeliveryLogged(NextWorker(n, step, step.worker)) && n.log <= NextWorker(n, step, step.worker).log
  {
    if step.Settle? && step.worker in n.jobs && n.jobs[step.worker].Handed? {
      SettleLogsDelivery(n, step.worker, n.jobs[step.worker].seen, step.ok, step.providerId, step.now);
    }
  }

  lemma OtherLogsDelivery(n: Note, step: Step)
    requires DeliveryLogged(n)
    ensures DeliveryLogged(NextOther(n, step)) && (n.log <= NextOther(n, step).log || step == CleanUp)
  {
    if step.Receive? && n.row.Some? {
      var line := LogLine(step.report, n.row.value.retryCount + 1);
      if LogsDelivery(n.log) || step.report == Delivered {
        LogsDeliveryGrows(n.log, line);
      }
    }
  }

  lemma StepLogsDelivery(n: Note, step: Step)
    requires DeliveryLogged(n)
    ensures DeliveryLogged(Next(n, step))
    ensures n.log <= Next(n, step).log || step == CleanUp || step == Commit
  {
    if IsWorkerStep(step) {
      WorkerLogsDelivery(n, step);
    } else if !IsHandlerStep(step) {
      OtherLogsDelivery(n, step);
    }
  }

  /** In every reachable state a DELIVERED row has a Delivered line in its log. */
  lemma {:induction false} DeliveredIsLogged(n: Note, steps: seq<Step>)
    requires DeliveryLogged(n)
    ensures DeliveryLogged(Run(n, steps))
    decreases |steps|
  {
    if steps != [] {
      StepLogsDelivery(n, steps[0]);
      DeliveredIsLogged(Next(n, steps[0]), steps[1..]);
    }
  }

  // ---------------------------------------------------------------------------------------------
  // The row's lock
  // ---------------------------------------------------------------------------------------------

  /** Between its provider call and its commit or rollback a worker holds the lock of the row it marked PROCESSING. */
  predicate Holds(n: Note, w: nat) {
    w in n.jobs && n.jobs[w].Handed?
  }

  predicate NoHolder(n: Note) {
    forall w :: w in n.jobs ==> !n.jobs[w].Handed?
  }

  predicate OneHolder(n: Note) {
    forall v, w :: v in n.jobs && w in n.jobs && n.jobs[v].Handed? && n.jobs[w].Handed? ==> v == w
  }

  /** The steps that must wait for a lock that someone else holds. */
  predicate WritesRow(step: Step) {
    || step.HandOver? || step.Recover? || step.RunRetryTask? || step.RetryEnqueue? || step.RetryCommit?
    || step.CancelCommit? || step.Receive? || step.CleanUp?
  }

  predicate LockFree(n: Note, step: Step) {
    WritesRow(step) ==> NoHolder(n)
  }

  predicate LockFreeRun(n: Note, steps: seq<Step>)
    decreases |steps|
  {
    steps != [] ==> LockFree(n, steps[0]) && LockFreeRun(Next(n, steps[0]), steps[1..])
  }

  lemma StepHasOneHolder(n: Note, step: Step)
    requires OneHolder(n) && LockFree(n, step)
    ensures OneHolder(Next(n, step))
  {
    if IsWorkerStep(step) {
      WorkerHasOneHolder(n, step, step.worker);
    } else {
      assert Next(n, step).jobs == n.jobs;
    }
  }

  /** Only a provider call takes the lock. */
  lemma WorkerHasOneHolder(n: Note, step: Step, w: nat)
    requires OneHolder(n) && LockFree(n, step) && IsWorkerStep(step) && step.worker == w
    ensures OneHolder(NextWorker(n, step, w))
  {
    var jobs' := NextWorker(n, step, w).jobs;
    OthersKeepTheirJobs(n, step, w);
    if Holds(NextWorker(n, step, w), w) && !Holds(n, w) {
      assert step.HandOver? && NoHolder(n);
    }
  }

  lemma OthersKeepTheirJobs(n: Note, step: Step, w: nat)
    requires IsWorkerStep(step) && step.worker == w
    ensures var jobs' := NextWorker(n, step, w).jobs;
            forall v :: v in jobs' && v != w ==> v in n.jobs && jobs'[v] == n.jobs[v]
  {
  }

  lemma {:induction false} LockHasOneHolder(n: Note, steps: seq<Step>)
    requires OneHolder(n) && LockFreeRun(n, steps)
    ensures OneHolder(Run(n, steps))
    decreases |steps|
  {
    if steps != [] {
      StepHasOneHolder(n, steps[0]);
      LockHasOneHolder(Next(n, steps[0]), steps[1..]);
    }
  }

  /** Some run leads to a goal; with `locks`, one that waits for the row's lock wherever the database would. */
  ghost predicate CanReach(n: Note, locks: bool, goal: Note -> bool) {
    exists steps: seq<Step> :: goal(Run(n, steps)) && (locks ==> LockFreeRun(n, steps))
  }

  lemma AlreadyReached(n: Note, locks: bool, goal: Note -> bool)
    requires goal(n)
    ensures CanReach(n, locks, goal)
  {
    assert goal(Run(n, [])) && LockFreeRun(n, []);
  }

  lemma ReachVia(n: Note, step: Step, locks: bool, goal: Note -> bool)
    requires CanReach(Next(n, step), locks, goal) && (locks ==> LockFree(n, step))
    ensures CanReach(n, locks, goal)
  {
    var steps: seq<Step> :| goal(Run(Next(n, step), steps)) && (locks ==> LockFreeRun(Next(n, step), steps));
    assert ([step] + steps)[1..] == steps;
    assert goal(Run(n, [step] + steps));
  }

  lemma {:induction false} LockFreeConcat(n: Note, a: seq<Step>, b: seq<Step>)
    requires LockFreeRun(n, a) && LockFreeRun(Run(n, a), b)
    ensures LockFreeRun(n, a + b)
    decreases |a|
  {
    if a == [] {
      assert a + b == b;
    } else {
      assert (a + b)[1..] == a[1..] + b;
      LockFreeConcat(Next(n, a[0]), a[1..], b);
    }
  }

  /** From wherever the first goal is reached the second can be. */
  lemma ReachOnward(n: Note, locks: bool, first: Note -> bool, second: Note -> bool)
    requires CanReach(n, locks, first) && forall m: Note :: first(m) ==> CanReach(m, locks, second)
    ensures CanReach(n, locks, second)
  {
    var a := ReachedBy(n, locks, first);
    var b := ReachedBy(Run(n, a), locks, second);
    RunConcat(n, a, b);
    if locks {
      LockFreeConcat(n, a, b);
    }
    assert second(Run(n, a + b));
  }

  lemma ReachedBy(n: Note, locks: bool, goal: Note -> bool) returns (steps: seq<Step>)
    requires CanReach(n, locks, goal)
    ensures goal(Run(n, steps)) && (locks ==> LockFreeRun(n, steps))
  {
    steps :| goal(Run(n, steps)) && (locks ==> LockFreeRun(n, steps));
  }

  // ---------------------------------------------------------------------------------------------
  // When a cancellation is final
  // ---------------------------------------------------------------------------------------------

  /** Nothing is left that would write to the row without looking at its status. */
  predicate Quiet(n: Note) {
    n.jobs == map[] && n.retries == 0 && n.retrying == 0 && (n.row.Some? ==> n.row.value.providerId == None)
  }

  predicate CancelledOrGone(n: Note) {
    n.row.None? || Has(n.row, CANCELLED)
  }

  function Undone(): Note -> bool {
    (n: Note) => !CancelledOrGone(n)
  }

  lemma {:induction false} QuietCancelIsFinal(n: Note, steps: seq<Step>)
    requires n.born && n.draft.None? && Quiet(n) && CancelledOrGone(n)
    ensures CancelledOrGone(Run(n, steps)) && Quiet(Run(n, steps))
    decreases |steps|
  {
    if steps != [] {
      QuietCancelIsFinal(Next(n, steps[0]), steps[1..]);
    }
  }

  lemma RunOne(n: Note, a: Step)
    ensures Run(n, [a]) == Next(n, a)
  {
    assert [a][1..] == [];
  }

  lemma RunTwo(n: Note, a: Step, b: Step)
    ensures Run(n, [a, b]) == Next(Next(n, a), b)
  {
    RunOne(Next(n, a), b);
    assert [a, b][1..] == [b];
  }

  lemma {:induction false} RunConcat(n: Note, a: seq<Step>, b: seq<Step>)
    ensures Run(n, a + b) == Run(Run(n, a), b)
    decreases |a|
  {
    if a == [] {
      assert a + b == b;
    } else {
      assert (a + b)[1..] == a[1..] + b;
      RunConcat(Next(n, a[0]), a[1..], b);
    }
  }

  lemma UndoneBy(n: Note, step: Step, locks: bool)
    requires !CancelledOrGone(Next(n, step)) && (locks ==> LockFree(n, step))
    ensures CanReach(n, locks, Undone())
  {
    AlreadyReached(Next(n, step), locks, Undone());
    ReachVia(n, step, locks, Undone());
  }

  /** A worker that has read the row settles it without looking again. */
  lemma LoudCallUndoesCancel(n: Note, w: nat, locks: bool)
    requires Has(n.row, CANCELLED) && w in n.jobs && (n.jobs[w].Handed? || (n.jobs[w].Loaded? && NoHolder(n)))
    ensures CanReach(n, locks, Undone())
  {
    if n.jobs[w].Loaded? {
      UndoneBy(Next(n, HandOver(w)), Settle(w, true, None, 0), locks);
      ReachVia(n, HandOver(w), locks, Undone());
    } else {
      UndoneBy(n, Settle(w, true, None, 0), locks);
    }
  }

  lemma LoudWorkerUndoesCancel(n: Note, w: nat, locks: bool)
    requires Has(n.row, CANCELLED) && w in n.jobs && NoHolder(n)
    ensures CanReach(n, locks, Undone())
  {
    match n.jobs[w]
    case Loaded(_) =>
      LoudCallUndoesCancel(n, w, locks);
    case Requeuing =>
      UndoneBy(Next(n, ScheduleRetry(w)), RunRetryTask(false), locks);
      ReachVia(n, ScheduleRetry(w), locks, Undone());
    case Raised =>
      UndoneBy(Next(n, Reload(w)), Recover(w, 0), locks);
      ReachVia(n, Reload(w), locks, Undone());
    case Reloaded(_) =>
      UndoneBy(n, Recover(w, 0), locks);
  }

  lemma LoudCancelIsUndone(n: Note, locks: bool)
    requires Has(n.row, CANCELLED) && !Quiet(n)
    ensures CanReach(n, locks, Undone())
  {
    if !NoHolder(n) {
      var w :| w in n.jobs && n.jobs[w].Handed?;
      LoudCallUndoesCancel(n, w, locks);
    } else if n.retries > 0 {
      UndoneBy(n, RunRetryTask(false), locks);
    } else if n.retrying > 0 {
      UndoneBy(n, RetryCommit, locks);
    } else if n.row.value.providerId != None {
      UndoneBy(n, Receive(n.row.value.providerId.value, Delivered, true), locks);
    } else {
      var w :| w in n.jobs;
      LoudWorkerUndoesCancel(n, w, locks);
    }
  }

  /** No run, and no run that waits for the row's lock, undoes the cancellation. */
  ghost predicate CancelIsFinal(n: Note) {
    forall after: seq<Step> :: CancelledOrGone(Run(n, after))
  }

  ghost predicate CancelIsFinalUnderLock(n: Note) {
    forall after: seq<Step> :: LockFreeRun(n, after) ==> CancelledOrGone(Run(n, after))
  }

  /**
   A cancellation is not final in general. It is exactly when, at that moment, no send task is running, no retry
   task or manual retry is pending, and no provider holds a message of the row; waiting send messages do no harm.
   Runs that wait for the row's lock make no difference.
   */
  lemma CancelIsFinalIffQuiet(before: seq<Step>)
    requires Has(Run(UNBORN, before).row, CANCELLED)
    ensures CancelIsFinal(Run(UNBORN, before)) <==> Quiet(Run(UNBORN, before))
    ensures CancelIsFinalUnderLock(Run(UNBORN, before)) <==> Quiet(Run(UNBORN, before))
  {
    var n := Run(UNBORN, before);
    RunIsRetrySafe(UNBORN, before);
    if Quiet(n) {
      forall after: seq<Step> ensures CancelledOrGone(Run(n, after)) {
        QuietCancelIsFinal(n, after);
      }
    } else {
      LoudCancelIsUndone(n, true);
      var after := ReachedBy(n, true, Undone());
      assert !CancelledOrGone(Run(n, after));
    }
  }

  // ---------------------------------------------------------------------------------------------
  // When a delivery is the last call
  // ---------------------------------------------------------------------------------------------

  function CalledMoreThan(calls: nat): Note -> bool {
    (n: Note) => n.calls > calls
  }

  lemma {:induction false} QuietMakesNoCall(n: Note, steps: seq<Step>)
    requires n.born && n.draft.None? && Quiet(n) && (n.row.Some? ==> Refused(n.row.value.status))
    ensures Run(n, steps).calls == n.calls
    decreases |steps|
  {
    if steps != [] {
      QuietMakesNoCall(Next(n, steps[0]), steps[1..]);
    }
  }

  lemma FreshWorker(jobs: map<nat, Job>) returns (w: nat)
    ensures w !in jobs
  {
    w := FreshFrom(jobs.Keys);
  }

  lemma FreshFrom(ws: set<nat>) returns (w: nat)
    ensures forall v :: v in ws ==> v < w
    decreases |ws|
  {
    if ws == {} {
      w := 0;
    } else {
      var v :| v in ws;
      var u := FreshFrom(ws - {v});
      w := if u > v then u else v + 1;
      assert forall x :: x in ws ==> x in ws - {v} || x == v;
    }
  }

  /** A message waits for a row that a worker may pick, and nobody holds its lock. */
  predicate Pickable(n: Note) {
    n.row.Some? && !Refused(n.row.value.status) && n.sends > 0 && NoHolder(n)
  }

  function PickableAfter(calls: nat): Note -> bool {
    (n: Note) => Pickable(n) && n.calls >= calls
  }

  /** A pending manual retry requeues the row. */
  lemma RetryingLeadsToPick(n: Note, locks: bool, calls: nat)
    requires n.row.Some? && n.retrying > 0 && NoHolder(n) && n.calls >= calls
    ensures CanReach(n, locks, PickableAfter(calls))
  {
    var queued := Next(n, RetryEnqueue);
    AlreadyReached(Next(queued, RetryCommit), locks, PickableAfter(calls));
    ReachVia(queued, RetryCommit, locks, PickableAfter(calls));
    ReachVia(n, RetryEnqueue, locks, PickableAfter(calls));
  }

  /** A failed row may be retried by hand. */
  lemma FailedLeadsToPick(n: Note, locks: bool, calls: nat)
    requires (Has(n.row, FAILED) || Has(n.row, DEAD)) && NoHolder(n) && n.calls >= calls
    ensures CanReach(n, locks, PickableAfter(calls))
  {
    RetryingLeadsToPick(Next(n, RetryCheck), locks, calls);
    ReachVia(n, RetryCheck, locks, PickableAfter(calls));
  }

  /** A bounced receipt makes a delivered row FAILED. */
  lemma BouncedLeadsToPick(n: Note, locks: bool, calls: nat)
    requires n.row.Some? && n.row.value.providerId.Some? && NoHolder(n) && n.calls >= calls
    ensures CanReach(n, locks, PickableAfter(calls))
  {
    var receipt := Receive(n.row.value.providerId.value, Bounced, true);
    FailedLeadsToPick(Next(n, receipt), locks, calls);
    ReachVia(n, receipt, locks, PickableAfter(calls));
  }

  lemma RetryTaskLeadsToPick(n: Note, locks: bool, calls: nat)
    requires n.row.Some? && n.retries > 0 && NoHolder(n) && n.calls >= calls
    ensures CanReach(n, locks, PickableAfter(calls))
  {
    AlreadyReached(Next(n, RunRetryTask(true)), locks, PickableAfter(calls));
    ReachVia(n, RunRetryTask(true), locks, PickableAfter(calls));
  }

  lemma SweptLeadsToPick(n: Note, locks: bool, calls: nat)
    requires n.row.Some? && !Refused(n.row.value.status) && n.swept > 0 && NoHolder(n) && n.calls >= calls
    ensures CanReach(n, locks, PickableAfter(calls))
  {
    AlreadyReached(Next(n, SweepRequeue), locks, PickableAfter(calls));
    ReachVia(n, SweepRequeue, locks, PickableAfter(calls));
  }

  lemma DueLeadsToPick(n: Note, locks: bool, calls: nat)
    requires n.row.Some? && n.row.value.nextRetryAt.Some? && IsPendingRetry(n.row.value, n.row.value.nextRetryAt.value)
    requires NoHolder(n) && n.calls >= calls
    ensures CanReach(n, locks, PickableAfter(calls))
  {
    var select := SweepSelect(n.row.value.nextRetryAt.value);
    SweptLeadsToPick(Next(n, select), locks, calls);
    ReachVia(n, select, locks, PickableAfter(calls));
  }

  /** A worker that caught an exception overwrites whatever status it finds. */
  lemma ReloadedLeadsToPick(n: Note, w: nat, locks: bool, calls: nat)
    requires n.row.Some? && w in n.jobs && n.jobs[w].Reloaded? && n.jobs[w].seen.maxRetries == n.row.value.maxRetries
    requires NoHolder(n) && n.calls >= calls
    ensures CanReach(n, locks, PickableAfter(calls))
  {
    var recovered := Next(n, Recover(w, 0));
    assert recovered == WithoutJob(n.(row := Some(AfterException(n.row.value, n.jobs[w].seen, 0))), w);
    if Has(recovered.row, DEAD) {
      FailedLeadsToPick(recovered, locks, calls);
    } else {
      DueLeadsToPick(recovered, locks, calls);
    }
    ReachVia(n, Recover(w, 0), locks, PickableAfter(calls));
  }

  /** A call whose answer is still out may leave a provider id behind, and that may bounce. */
  lemma {:induction false} HolderLeadsToPick(n: Note, w: nat, locks: bool, calls: nat)
    requires n.row.Some? && Holds(n, w) && n.calls >= calls
    ensures CanReach(n, locks, PickableAfter(calls))
    decreases |n.jobs|
  {
    var settle := Settle(w, true, Some("id"), 0);
    var settled := Next(n, settle);
    assert settled.jobs == n.jobs - {w} && settled.row.value.providerId == Some("id");
    assert n.jobs.Keys == settled.jobs.Keys + {w};
    if NoHolder(settled) {
      BouncedLeadsToPick(settled, locks, calls);
    } else {
      var v :| v in settled.jobs && settled.jobs[v].Handed?;
      HolderLeadsToPick(settled, v, locks, calls);
    }
    ReachVia(n, settle, locks, PickableAfter(calls));
  }

  lemma LoudWorkerLeadsToPick(n: Note, w: nat, locks: bool)
    requires RetrySafe(n) && n.row.Some? && w in n.jobs && NoHolder(n)
    ensures CanReach(n, locks, PickableAfter(n.calls))
  {
    match n.jobs[w]
    case Loaded(_) =>
      HolderLeadsToPick(Next(n, HandOver(w)), w, locks, n.calls);
      ReachVia(n, HandOver(w), locks, PickableAfter(n.calls));
    case Requeuing =>
      RetryTaskLeadsToPick(Next(n, ScheduleRetry(w)), locks, n.calls);
      ReachVia(n, ScheduleRetry(w), locks, PickableAfter(n.calls));
    case Raised =>
      ReloadedLeadsToPick(Next(n, Reload(w)), w, locks, n.calls);
      ReachVia(n, Reload(w), locks, PickableAfter(n.calls));
    case Reloaded(_) =>
      ReloadedLeadsToPick(n, w, locks, n.calls);
  }

  /** While anything is left that writes without looking, the row can be made pickable again. */
  lemma LoudLeadsToPick(n: Note, locks: bool)
    requires RetrySafe(n) && n.row.Some? && !Quiet(n)
    ensures CanReach(n, locks, PickableAfter(n.calls))
  {
    if !NoHolder(n) {
      var w :| w in n.jobs && n.jobs[w].Handed?;
      HolderLeadsToPick(n, w, locks, n.calls);
    } else if n.retries > 0 {
      RetryTaskLeadsToPick(n, locks, n.calls);
    } else if n.retrying > 0 {
      RetryingLeadsToPick(n, locks, n.calls);
    } else if n.row.value.providerId != None {
      BouncedLeadsToPick(n, locks, n.calls);
    } else {
      var w :| w in n.jobs;
      LoudWorkerLeadsToPick(n, w, locks);
    }
  }

  /** A pickable row is called once more. */
  lemma PickableIsCalled(n: Note, locks: bool, calls: nat)
    requires Pickable(n) && n.calls >= calls
    ensures CanReach(n, locks, CalledMoreThan(calls))
  {
    var w := FreshWorker(n.jobs);
    var picked := Next(n, Pick(w));
    assert picked == WithJob(n, w, Loaded(n.row.value));
    AlreadyReached(Next(picked, HandOver(w)), locks, CalledMoreThan(calls));
    ReachVia(picked, HandOver(w), locks, CalledMoreThan(calls));
    ReachVia(n, Pick(w), locks, CalledMoreThan(calls));
  }

  lemma LoudDeliveryIsResent(n: Note, locks: bool)
    requires RetrySafe(n) && n.row.Some? && !Quiet(n)
    ensures CanReach(n, locks, CalledMoreThan(n.calls))
  {
    hide Quiet, RetrySafe;
    LoudLeadsToPick(n, locks);
    forall m: Note | PickableAfter(n.calls)(m) ensures CanReach(m, locks, CalledMoreThan(n.calls)) {
      PickableIsCalled(m, locks, n.calls);
    }
    ReachOnward(n, locks, PickableAfter(n.calls), CalledMoreThan(n.calls));
  }

  /** No run, and no run that waits for the row's lock, makes another call. */
  ghost predicate NoCallAfter(n: Note) {
    forall after: seq<Step> :: Run(n, after).calls == n.calls
  }

  ghost predicate NoCallAfterUnderLock(n: Note) {
    forall after: seq<Step> :: LockFreeRun(n, after) ==> Run(n, after).calls == n.calls
  }

  lemma LastCallIffQuiet(n: Note)
    requires RetrySafe(n) && Has(n.row, DELIVERED)
    ensures NoCallAfter(n) <==> Quiet(n)
  {
    if Quiet(n) {
      forall after: seq<Step> ensures Run(n, after).calls == n.calls {
        QuietMakesNoCall(n, after);
      }
    } else {
      LoudDeliveryIsResent(n, false);
      var after := ReachedBy(n, false, CalledMoreThan(n.calls));
      assert Run(n, after).calls != n.calls;
    }
  }

  lemma LastCallUnderLockIffQuiet(n: Note)
    requires RetrySafe(n) && Has(n.row, DELIVERED)
    ensures NoCallAfterUnderLock(n) <==> Quiet(n)
  {
    if Quiet(n) {
      LastCallIffQuiet(n);
    } else {
      LoudDeliveryIsResent(n, true);
      var after := ReachedBy(n, true, CalledMoreThan(n.calls));
      assert LockFreeRun(n, after) && Run(n, after).calls != n.calls;
    }
  }

  /**
   A delivered notification is never handed to a provider again exactly when, at that moment, no send task is running,
   no retry task or manual retry is pending, and the row has no provider id that a receipt could name. The same holds
   where every run waits for the row's lock.
   */
  lemma DeliveryIsLastCallIffQuiet(before: seq<Step>)
    requires Has(Run(UNBORN, before).row, DELIVERED)
    ensures NoCallAfter(Run(UNBORN, before)) <==> Quiet(Run(UNBORN, before))
    ensures NoCallAfterUnderLock(Run(UNBORN, before)) <==> Quiet(Run(UNBORN, before))
  {
    RunIsRetrySafe(UNBORN, before);
    LastCallIffQuiet(Run(UNBORN, before));
    LastCallUnderLockIffQuiet(Run(UNBORN, before));
  }

  // ---------------------------------------------------------------------------------------------
  // When the retry count keeps its limit
  // ---------------------------------------------------------------------------------------------

  /** At least one attempt is always made. */
  function Limit(row: Row): nat {
    if row.maxRetries < 1 then 1 else row.maxRetries
  }

  predicate Spent(row: Row) {
    row.retryCount >= Limit(row)
  }

  predicate PicksSpentRow(n: Note, step: Step) {
    step.Pick? && n.sends > 0 && step.worker !in n.jobs && n.row.Some? && !Refused(n.row.value.status) &&
        Spent(n.row.value)
  }

  predicate NeverPicksSpentRow(n: Note, steps: seq<Step>)
    decreases |steps|
  {
    steps != [] ==> !PicksSpentRow(n, steps[0]) && NeverPicksSpentRow(Next(n, steps[0]), steps[1..])
  }

  predicate CountSafe(n: Note) {
    && RetrySafe(n)
    && (n.draft.Some? ==> n.draft.value.retryCount == 0)
    && (n.row.Some? ==> n.row.value.retryCount <= Limit(n.row.value))
    && (forall w :: w in n.jobs && (n.jobs[w].Loaded? || n.jobs[w].Handed?) ==> !Spent(n.jobs[w].seen))
  }

  lemma HandlerIsCountSafe(n: Note, step: Step)
    requires CountSafe(n)
    ensures CountSafe(NextHandler(n, step))
  {
    HandlerIsRetrySafe(n, step);
  }

  lemma WorkerIsCountSafe(n: Note, step: Step)
    requires CountSafe(n) && !PicksSpentRow(n, step) && IsWorkerStep(step)
    ensures CountSafe(NextWorker(n, step, step.worker))
  {
    WorkerIsRetrySafe(n, step);
  }

  lemma OtherIsCountSafe(n: Note, step: Step)
    requires CountSafe(n)
    ensures CountSafe(NextOther(n, step))
  {
    OtherIsRetrySafe(n, step);
  }

  lemma StepIsCountSafe(n: Note, step: Step)
    requires CountSafe(n) && !PicksSpentRow(n, step)
    ensures CountSafe(Next(n, step))
  {
    if IsHandlerStep(step) {
      HandlerIsCountSafe(n, step);
    } else if IsWorkerStep(step) {
      WorkerIsCountSafe(n, step);
    } else {
      OtherIsCountSafe(n, step);
    }
  }

  lemma {:induction false} UnspentPicksKeepLimit(n: Note, steps: seq<Step>)
    requires CountSafe(n) && NeverPicksSpentRow(n, steps)
    ensures CountSafe(Run(n, steps))
    decreases |steps|
  {
    if steps != [] {
      StepIsCountSafe(n, steps[0]);
      UnspentPicksKeepLimit(Next(n, steps[0]), steps[1..]);
    }
  }

  /** A run that never lets a worker pick a spent row keeps every count within its limit. */
  lemma CountKeepsLimit(steps: seq<Step>)
    requires NeverPicksSpentRow(UNBORN, steps) && Run(UNBORN, steps).row.Some?
    ensures Run(UNBORN, steps).row.value.retryCount <= Limit(Run(UNBORN, steps).row.value)
  {
    UnspentPicksKeepLimit(UNBORN, steps);
  }

  /** And wherever a spent row can be picked, one failed call takes its count past the limit. */
  lemma SpentPickBreaksLimit(n: Note, w: nat, now: int)
    requires RetrySafe(n) && PicksSpentRow(n, Pick(w))
    ensures var n' := Run(n, [Pick(w), HandOver(w), Settle(w, false, None, now)]);
            n'.row.Some? && n'.row.value.retryCount > Limit(n'.row.value) && n'.row.value.status == DEAD
  {
    var steps := [Pick(w), HandOver(w), Settle(w, false, None, now)];
    assert steps[1..] == [steps[1], steps[2]];
    RunTwo(Next(n, steps[0]), steps[1], steps[2]);
  }

  // The state that keeps the count for good.

  function OverLimit(): Note -> bool {
    (n: Note) => n.row.Some? && n.row.value.retryCount > Limit(n.row.value)
  }

  /** Nothing will pick the row again: it is refused, or it waits for nothing that could come. */
  predicate AtRest(n: Note) {
    && Quiet(n) && n.row.Some?
    && (Refused(n.row.value.status) ||
        (n.row.value.status !in {FAILED, DEAD, RETRYING} && n.sends == 0 && n.swept == 0))
  }

  lemma RestStep(n: Note, step: Step)
    requires n.born && n.draft.None? && AtRest(n)
    ensures var n' := Next(n, step);
            && n'.born && n'.draft.None? && Quiet(n')
            && (n'.row.Some? ==> AtRest(n') && n'.row.value == n.row.value.(status := n'.row.value.status))
  {
  }

  lemma GoneStep(n: Note, step: Step)
    requires n.born && n.draft.None? && n.row.None?
    ensures Next(n, step).born && Next(n, step).draft.None? && Next(n, step).row.None?
  {
  }

  lemma {:induction false} GoneStays(n: Note, steps: seq<Step>)
    requires n.born && n.draft.None? && n.row.None?
    ensures Run(n, steps).row.None?
    decreases |steps|
  {
    hide Next;
    if steps != [] {
      GoneStep(n, steps[0]);
      GoneStays(Next(n, steps[0]), steps[1..]);
    }
  }

  lemma {:induction false} RestStays(n: Note, steps: seq<Step>)
    requires n.born && n.draft.None? && AtRest(n)
    ensures var row := Run(n, steps).row;
            row.Some? ==> row.value == n.row.value.(status := row.value.status)
    decreases |steps|
  {
    hide Next, AtRest;
    if steps != [] {
      var n' := Next(n, steps[0]);
      RestStep(n, steps[0]);
      if n'.row.Some? {
        RestStays(n', steps[1..]);
      } else {
        GoneStays(n', steps[1..]);
      }
    }
  }

  /** One more failed attempt on a pickable row raises its count and leaves it pickable. */
  lemma FailedAttempt(n: Note, w: nat)
    requires Pickable(n) && w !in n.jobs
    ensures var picked := Next(n, Pick(w));
            var called := Next(picked, HandOver(w));
            var failed := Next(called, Settle(w, false, None, 0));
            && NoHolder(picked) && Pickable(failed)
            && failed.row.value.retryCount == n.row.value.retryCount + 1 &&
                failed.row.value.maxRetries == n.row.value.maxRetries
  {
    var row := n.row.value;
    var picked := Next(n, Pick(w));
    assert picked == WithJob(n, w, Loaded(row));
    var called := Next(picked, HandOver(w));
    assert called == WithJob(n, w, Handed(row)).(calls := n.calls + 1) by {
      assert picked.jobs[w := Handed(row)] == n.jobs[w := Handed(row)];
    }
  }

  lemma {:induction false} PickableExceeds(n: Note, locks: bool)
    requires Pickable(n)
    ensures CanReach(n, locks, OverLimit())
    decreases if n.row.value.retryCount > Limit(n.row.value) then 0 else Limit(n.row.value) - n.row.value.retryCount + 1
  {
    if OverLimit()(n) {
      AlreadyReached(n, locks, OverLimit());
    } else {
      var w := FreshWorker(n.jobs);
      var picked := Next(n, Pick(w));
      var called := Next(picked, HandOver(w));
      FailedAttempt(n, w);
      PickableExceeds(Next(called, Settle(w, false, None, 0)), locks);
      ReachVia(called, Settle(w, false, None, 0), locks, OverLimit());
      ReachVia(picked, HandOver(w), locks, OverLimit());
      ReachVia(n, Pick(w), locks, OverLimit());
    }
  }

  lemma LeadsToPickExceeds(n: Note, locks: bool)
    requires CanReach(n, locks, PickableAfter(n.calls))
    ensures CanReach(n, locks, OverLimit())
  {
    forall m: Note | PickableAfter(n.calls)(m) ensures CanReach(m, locks, OverLimit()) {
      PickableExceeds(m, locks);
    }
    ReachOnward(n, locks, PickableAfter(n.calls), OverLimit());
  }

  /** A row that is not at rest can be taken past its limit. */
  lemma UnrestExceeds(n: Note, locks: bool)
    requires RetrySafe(n) && n.row.Some? && !AtRest(n)
    ensures CanReach(n, locks, OverLimit())
  {
    if !Quiet(n) {
      LoudLeadsToPick(n, locks);
    } else if Has(n.row, FAILED) || Has(n.row, DEAD) {
      FailedLeadsToPick(n, locks, n.calls);
    } else if Has(n.row, RETRYING) {
      DueLeadsToPick(n, locks, n.calls);
    } else if n.sends > 0 {
      AlreadyReached(n, locks, PickableAfter(n.calls));
    } else {
      SweptLeadsToPick(n, locks, n.calls);
    }
    LeadsToPickExceeds(n, locks);
  }

  /** In no continuation, or in none that waits for the row's lock, does the count pass its limit. */
  ghost predicate KeepsLimit(n: Note) {
    forall after: seq<Step> :: !OverLimit()(Run(n, after))
  }

  ghost predicate KeepsLimitUnderLock(n: Note) {
    forall after: seq<Step> :: LockFreeRun(n, after) ==> !OverLimit()(Run(n, after))
  }

  lemma RestKeepsLimit(n: Note)
    requires RetrySafe(n) && AtRest(n) && n.row.value.retryCount <= Limit(n.row.value)
    ensures KeepsLimit(n)
  {
    forall after: seq<Step> ensures !OverLimit()(Run(n, after)) {
      RestStays(n, after);
    }
  }

  lemma OverOrUnrestExceeds(n: Note)
    requires RetrySafe(n) && n.row.Some? && !(AtRest(n) && n.row.value.retryCount <= Limit(n.row.value))
    ensures !KeepsLimit(n) && !KeepsLimitUnderLock(n)
  {
    if n.row.value.retryCount > Limit(n.row.value) {
      AlreadyReached(n, true, OverLimit());
    } else {
      UnrestExceeds(n, true);
    }
    var after := ReachedBy(n, true, OverLimit());
    assert LockFreeRun(n, after) && OverLimit()(Run(n, after));
  }

  /**
   From a reachable state with a committed row, the count stays within max(1, max_retries) in every continuation iff it
   is within it now, nothing is left that writes without looking, and no worker can pick the row: it is delivered or
   cancelled, or it is neither failed, dead nor retrying and no message or sweep is on its way.
   */
  lemma CountIsSafeIffAtRest(before: seq<Step>)
    requires Run(UNBORN, before).row.Some?
    ensures var n := Run(UNBORN, before);
            && (KeepsLimit(n) <==> AtRest(n) && n.row.value.retryCount <= Limit(n.row.value))
            && (KeepsLimitUnderLock(n) <==> AtRest(n) && n.row.value.retryCount <= Limit(n.row.value))
  {
    var n := Run(UNBORN, before);
    RunIsRetrySafe(UNBORN, before);
    if AtRest(n) && n.row.value.retryCount <= Limit(n.row.value) {
      RestKeepsLimit(n);
    } else {
      OverOrUnrestExceeds(n);
    }
  }

  /** A row with retry limit m, queued and committed, its one message outstanding. */
  function Launched(m: int): Note {
    Note(true, None, Some(Row(QUEUED, 0, m, None, None)), [], 1, 0, map[], 0, 0, 0, 0)
  }

  lemma LaunchSteps(m: int)
    ensures Run(UNBORN, [Build(m, false), GateQueue, Commit]) == Launched(m)
  {
    RunTwo(Next(UNBORN, Build(m, false)), GateQueue, Commit);
    assert [Build(m, false), GateQueue, Commit][1..] == [GateQueue, Commit];
  }

  lemma StepFirst(n: Note, step: Step, rest: seq<Step>)
    ensures Run(n, [step] + rest) == Run(Next(n, step), rest)
    ensures LockFreeRun(n, [step] + rest) <==> LockFree(n, step) && LockFreeRun(Next(n, step), rest)
  {
    assert ([step] + rest)[1..] == rest;
  }

  lemma RunThree(n: Note, a: Step, b: Step, c: Step)
    ensures Run(n, [a, b, c]) == Next(Next(Next(n, a), b), c)
    ensures LockFreeRun(n, [a, b, c]) <==> LockFree(n, a) && LockFree(Next(n, a), b) && LockFree(Next(Next(n, a), b), c)
  {
    assert [a, b, c] == [a] + [b, c] && [b, c] == [b] + [c] && [c] == [c] + [];
    StepFirst(n, a, [b, c]);
    StepFirst(Next(n, a), b, [c]);
    StepFirst(Next(Next(n, a), b), c, []);
  }

  /** The row of Launched(m). */
  function Fresh(m: int): Row {
    Row(QUEUED, 0, m, None, None)
  }

  lemma PickLaunched(m: int, n: Note, w: nat)
    requires n == Launched(m).(jobs := n.jobs) && w !in n.jobs
    ensures Next(n, Pick(w)) == n.(jobs := n.jobs[w := Loaded(Fresh(m))])
  {
  }

  lemma CallLoaded(n: Note, w: nat)
    requires w in n.jobs && n.jobs[w].Loaded?
    ensures Next(n, HandOver(w)) == n.(jobs := n.jobs[w := Handed(n.jobs[w].seen)], calls := n.calls + 1)
  {
  }

  lemma SettleHanded(n: Note, w: nat, ok: bool)
    requires w in n.jobs && n.jobs[w].Handed? && n.row.Some? &&
             (ok || n.jobs[w].seen.retryCount + 1 >= n.jobs[w].seen.maxRetries)
    ensures var n', attempt := Next(n, Settle(w, ok, None, 0)), n.jobs[w].seen.retryCount + 1;
            && n'.jobs == n.jobs - {w} && n'.calls == n.calls && n'.sends == n.sends
            && n'.row == Some(if ok then n.row.value.(status := DELIVERED, providerId := None)
                              else n.row.value.(status := DEAD, retryCount := attempt))
  {
  }

  /** A cancellation that a running worker will undo is reachable: the worker has read the row before. */
  lemma LoudCancelIsReachable()
    ensures var n := Run(Run(UNBORN, [Build(1, false), GateQueue, Commit]), [Pick(0), CancelCheck, CancelCommit]);
            Has(n.row, CANCELLED) && !Quiet(n) && NoHolder(n)
  {
    LaunchSteps(1);
    RunThree(Launched(1), Pick(0), CancelCheck, CancelCommit);
    PickLaunched(1, Launched(1), 0);
    CancelUnsent(Next(Launched(1), Pick(0)));
  }

  lemma CancelUnsent(n: Note)
    requires n.row.Some? && n.row.value.status == QUEUED && n.jobs != map[] && NoHolder(n)
    ensures var n' := Next(Next(n, CancelCheck), CancelCommit);
            Has(n'.row, CANCELLED) && n'.jobs == n.jobs && !Quiet(n') && NoHolder(n')
  {
    assert Next(n, CancelCheck) == n.(cancelling := n.cancelling + 1);
  }

  /** A spent row that a worker can pick is reachable: its message was delivered but not yet acknowledged. */
  lemma SpentPickIsReachable()
    ensures var n := Run(Run(UNBORN, [Build(1, false), GateQueue, Commit]),
            [Pick(0), HandOver(0), Settle(0, false, None, 0)]);
            PicksSpentRow(n, Pick(1))
  {
    LaunchSteps(1);
    RunThree(Launched(1), Pick(0), HandOver(0), Settle(0, false, None, 0));
    var picked := Next(Launched(1), Pick(0));
    PickLaunched(1, Launched(1), 0);
    CallLoaded(picked, 0);
    SettleHanded(Next(picked, HandOver(0)), 0, false);
  }

  /**
   "Sent at most once" does not hold: one message, delivered to two workers, makes two calls, the second after a
   delivery.
   */
  lemma OneMessageTwoCalls()
    ensures var launched := Run(UNBORN, [Build(3, false), GateQueue, Commit]);
            var calls := [HandOver(0), Settle(0, true, None, 0), HandOver(1)];
            var n := Run(Run(launched, [Pick(0), Pick(1)]), calls);
            && n.calls == 2 && n.sends == 1 && Has(n.row, DELIVERED)
            && LockFreeRun(Run(launched, [Pick(0), Pick(1)]), calls)
  {
    LaunchSteps(3);
    RunTwo(Launched(3), Pick(0), Pick(1));
    PickLaunched(3, Launched(3), 0);
    var one := Next(Launched(3), Pick(0));
    PickLaunched(3, one, 1);
    RunThree(Next(one, Pick(1)), HandOver(0), Settle(0, true, None, 0), HandOver(1));
    CallsInTurn(Next(one, Pick(1)));
  }

  lemma CallsInTurn(n: Note)
    requires n == Launched(3).(jobs := map[0 := Loaded(Fresh(3)), 1 := Loaded(Fresh(3))])
    ensures var called := Next(n, HandOver(0));
            var settled := Next(called, Settle(0, true, None, 0));
            var again := Next(settled, HandOver(1));
            && LockFree(n, HandOver(0)) && LockFree(settled, HandOver(1))
            && again.calls == 2 && again.sends == 1 && Has(again.row, DELIVERED)
  {
    CallLoaded(n, 0);
    var called := Next(n, HandOver(0));
    SettleHanded(called, 0, true);
    var settled := Next(called, Settle(0, true, None, 0));
    assert settled.jobs == map[1 := Loaded(Fresh(3))];
    CallLoaded(settled, 1);
  }
}
