/**
 The code that moves notification rows, each piece run from start to end with nobody in between: the send
 and retry tasks, the sweep and the clean-up, the manual endpoints and the provider receipts. Every method
 is proved to be a run of the steps of module Delivery on the row it names, and to leave all others alone.
 */
module DeliveryTasks {
  import opened Wrappers
  import opened Delivery

  type Id = nat

  /** What the provider and the infrastructure do during one run of the send task. */
  datatype Behaviour =
    | Delivers(providerId: Option<string>)
    | Fails
    | RaisesBefore       // before the provider is called
    | RaisesAfter        // during or after the call, before the commit
    | RaisesOnSchedule   // the retry is committed but its task cannot be scheduled

  function Two(n: Note, a: Step, b: Step): Note {
    Next(Next(n, a), b)
  }

  function Recovery(n: Note, now: int): Note {
    Next(Two(n, Raise(0), Reload(0)), Recover(0, now))
  }

  /** The steps of one uninterrupted run of the send task. */
  function SendRun(n: Note, b: Behaviour, now: int): Note {
    match b
    case Delivers(p) => Next(Two(n, Pick(0), HandOver(0)), Settle(0, true, p, now))
    case Fails => Two(Two(n, Pick(0), HandOver(0)), Settle(0, false, None, now), ScheduleRetry(0))
    case RaisesBefore => Recovery(Next(n, Pick(0)), now)
    case RaisesAfter => Recovery(Two(n, Pick(0), HandOver(0)), now)
    case RaisesOnSchedule => Recovery(Next(Two(n, Pick(0), HandOver(0)), Settle(0, false, None, now)), now)
  }

  /** A row at rest: no run in progress. */
  predicate Resting(n: Note) {
    n.jobs == map[] && n.swept == 0 && n.retrying == 0 && n.cancelling == 0
  }

  predicate Sendable(n: Note) {
    Resting(n) && n.sends > 0 && n.row.Some? && !Refused(n.row.value.status)
  }

  /** What one uninterrupted send task leaves behind, in closed form. */
  function AfterSend(n: Note, b: Behaviour, now: int): Note {
    if n.row.None? || Refused(n.row.value.status) then n
    else
      var row := n.row.value;
      var failed := AfterFailure(row, row, now);
      var line := LogLine(if b.Delivers? then Delivered else Failed, row.retryCount + 1);
      match b
      case Delivers(p) => n.(row := Some(AfterSuccess(row, p)), log := n.log + [line], calls := n.calls + 1)
      case Fails =>
        n.(row := Some(failed), log := n.log + [line], calls := n.calls + 1,
           retries := if failed.status == DEAD then n.retries else n.retries + 1)
      case RaisesBefore => n.(row := Some(AfterException(row, row, now)))
      case RaisesAfter => n.(row := Some(AfterException(row, row, now)), calls := n.calls + 1)
      case RaisesOnSchedule =>
        n.(row := Some(if failed.status == DEAD then failed else AfterException(failed, failed, now)),
           log := n.log + [line], calls := n.calls + 1)
  }

  lemma DeliversRun(n: Note, p: Option<string>, now: int)
    requires Sendable(n)
    ensures SendRun(n, Delivers(p), now) == AfterSend(n, Delivers(p), now)
  {
  }

  lemma RetryIsScheduled(n: Note)
    ensures Next(n, ScheduleRetry(0)) ==
            if 0 in n.jobs && n.jobs[0].Requeuing? then n.(jobs := n.jobs - {0}, retries := n.retries + 1) else n
  {
  }

  lemma FailsRun(n: Note, now: int)
    requires Sendable(n)
    ensures SendRun(n, Fails, now) == AfterSend(n, Fails, now)
  {
    hide Next, AfterFailure;
    FailedCall(n, now);
    RetryIsScheduled(Next(Two(n, Pick(0), HandOver(0)), Settle(0, false, None, now)));
  }

  /** What a receipt does to the one row that carries its provider id. */
  lemma ReceiptOfHolder(n: Note, messageId: string, report: Report)
    requires n.row.Some? && n.row.value.providerId == Some(messageId)
    ensures Next(n, Receive(messageId, report, true)) ==
            n.(row := Some(AfterReceipt(n.row.value, report)),
               log := n.log + [LogLine(report, n.row.value.retryCount + 1)])
  {
  }

  /** The state after a failed call is committed and before the retry task is scheduled. */
  lemma FailedCall(n: Note, now: int)
    requires Sendable(n)
    ensures var row := AfterFailure(n.row.value, n.row.value, now);
            Next(Two(n, Pick(0), HandOver(0)), Settle(0, false, None, now)) ==
            n.(row := Some(row), log := n.log + [LogLine(Failed, n.row.value.retryCount + 1)], calls := n.calls + 1,
               jobs := if row.status == DEAD then map[] else map[0 := Requeuing])
  {
    assert Two(n, Pick(0), HandOver(0)) == n.(jobs := map[0 := Handed(n.row.value)], calls := n.calls + 1);
  }

  lemma RecoveryRun(n: Note, w: Note, now: int)
    requires 0 in w.jobs && !w.jobs[0].Raised? && !w.jobs[0].Reloaded? && w.row.Some?
    requires w == n.(jobs := w.jobs) && w.jobs - {0} == n.jobs == map[]
    ensures Recovery(w, now) == n.(row := Some(AfterException(n.row.value, n.row.value, now)))
  {
  }

  lemma RaisesRun(n: Note, now: int)
    requires Sendable(n)
    ensures SendRun(n, RaisesBefore, now) == AfterSend(n, RaisesBefore, now)
    ensures SendRun(n, RaisesAfter, now) == AfterSend(n, RaisesAfter, now)
  {
    RecoveryRun(n, Next(n, Pick(0)), now);
    RecoveryRun(n.(calls := n.calls + 1), Two(n, Pick(0), HandOver(0)), now);
  }

  lemma IdleRecovery(n: Note, now: int)
    requires n.jobs == map[]
    ensures Recovery(n, now) == n
  {
  }

  lemma RaisesOnScheduleRun(n: Note, now: int)
    requires Sendable(n)
    ensures SendRun(n, RaisesOnSchedule, now) == AfterSend(n, RaisesOnSchedule, now)
  {
    hide Next, AfterFailure, AfterException;
    var row := AfterFailure(n.row.value, n.row.value, now);
    var w := Next(Two(n, Pick(0), HandOver(0)), Settle(0, false, None, now));
    var n' := n.(row := Some(row), log := n.log + [LogLine(Failed, n.row.value.retryCount + 1)], calls := n.calls + 1);
    FailedCall(n, now);
    if row.status == DEAD {
      IdleRecovery(w, now);
    } else {
      RecoveryRun(n', w, now);
    }
    assert SendRun(n, RaisesOnSchedule, now) == Recovery(w, now);
  }

  /** A send task that finds no row, or a final one, does nothing. */
  lemma RefusedRun(n: Note, b: Behaviour, now: int)
    requires n.jobs == map[] && (n.row.None? || Refused(n.row.value.status))
    ensures SendRun(n, b, now) == n
  {
  }

  lemma SweepRun(n: Note, now: int)
    requires n.row.Some? && IsPendingRetry(n.row.value, now)
    ensures Two(n, SweepSelect(now), SweepRequeue) == n.(sends := n.sends + 1)
  {
  }

  /** A manual retry and a cancellation that nobody interrupts, in closed form. */
  lemma RetryRequestRun(n: Note)
    requires Resting(n)
    ensures Next(Two(n, RetryCheck, RetryEnqueue), RetryCommit) ==
            if Has(n.row, FAILED) || Has(n.row, DEAD)
            then n.(row := Some(n.row.value.(status := PENDING, retryCount := 0)), sends := n.sends + 1) else n
  {
    var checked := Next(n, RetryCheck);
    if Has(n.row, FAILED) || Has(n.row, DEAD) {
      assert checked == n.(retrying := 1);
    } else {
      assert checked == n;
    }
  }

  lemma CancelRequestRun(n: Note)
    requires Resting(n)
    ensures Two(n, CancelCheck, CancelCommit) ==
            if n.row.None? || Has(n.row, DELIVERED) || Has(n.row, SENT) then n
            else n.(row := Some(n.row.value.(status := CANCELLED)))
  {
  }

  /** The uninterrupted send task is a run of the steps that workers interleave. */
  lemma SendIsRun(n: Note, b: Behaviour, now: int)
    requires Resting(n) && n.sends > 0
    ensures SendRun(n, b, now) == AfterSend(n, b, now)
  {
    if n.row.None? || Refused(n.row.value.status) {
      RefusedRun(n, b, now);
    } else {
      match b
      case Delivers(p) => DeliversRun(n, p, now);
      case Fails => FailsRun(n, now);
      case RaisesBefore => RaisesRun(n, now);
      case RaisesAfter => RaisesRun(n, now);
      case RaisesOnSchedule => RaisesOnScheduleRun(n, now);
    }
  }

  /** What one send task that finds a row to send leaves of it, field by field, in each case. */
  lemma SentRowIs(n: Note, b: Behaviour, now: int)
    requires n.row.Some? && n.row.value.status != DELIVERED && n.row.value.status != CANCELLED
    ensures var old_, count := n.row.value, n.row.value.retryCount + 1;
            var wait := [60, 300, 900, 3600, 7200][if count < 4 then count else 4];
            var n' := AfterSend(n, b, now);
            && n'.row.Some?
            && n'.calls == n.calls + (if b == RaisesBefore then 0 else 1)
            && n'.sends == n.sends
            && var r := n'.row.value;
               match b
               case Delivers(p) =>
                 && r == old_.(status := DELIVERED, providerId := p)
                 && n'.log == n.log + [LogLine(Delivered, count)] && n'.retries == n.retries
               case Fails =>
                 && r == (if count >= old_.maxRetries then old_.(status := DEAD, retryCount := count)
                          else old_.(status := RETRYING, retryCount := count, nextRetryAt := Some(now + wait)))
                 && n'.log == n.log + [LogLine(Failed, count)]
                 && n'.retries == n.retries + (if count >= old_.maxRetries then 0 else 1)
               case RaisesOnSchedule =>
                 && (r.status == RETRYING || r.status == DEAD) && r.providerId == old_.providerId
                 && r.maxRetries == old_.maxRetries
                 && r.retryCount == (if count + 1 >= old_.maxRetries then count else count + 1)
                 && (r.status == DEAD <==> count + 1 >= old_.maxRetries)
                 && n'.log == n.log + [LogLine(Failed, count)] && n'.retries == n.retries
               case _ =>
                 && r == (if count >= old_.maxRetries then old_.(status := DEAD)
                          else old_.(status := RETRYING, retryCount := count, nextRetryAt := Some(now + wait)))
                 && n'.log == n.log && n'.retries == n.retries
  {
  }

  /** The answer of a send task that finds a row to send. */
  function ResultOf(row: Row, b: Behaviour): SendResult {
    var count := row.retryCount + 1;
    match b
    case Delivers(_) => Success
    case Fails => if count >= row.maxRetries then Died else RetryIn(Delay(count))
    case RaisesOnSchedule => if count >= row.maxRetries then Died else Errored
    case _ => Errored
  }

  datatype SendResult = NotFound | AlreadyFinal | Success | Died | RetryIn(delay: int) | Errored

  datatype Response = Ok | Missing | BadRequest

  class Platform {
    var rows: map<Id, Row>
    var logs: map<Id, seq<LogLine>>
    var sends: multiset<Id>
    var retries: multiset<Id>
    var calls: multiset<Id>

    /** The state of one row between two runs of anything. */
    function NoteOf(id: Id): Note
      reads this
    {
      Note(id in rows, None, if id in rows then Some(rows[id]) else None, if id in logs then logs[id] else [],
           sends[id], retries[id], map[], 0, 0, 0, calls[id])
    }

    constructor ()
      ensures rows == map[] && logs == map[]
      ensures sends == multiset{} && retries == multiset{} && calls == multiset{}
    {
      rows, logs := map[], map[];
      sends, retries, calls := multiset{}, multiset{}, multiset{};
    }

    method UpdateStatus(id: Id, row: Row)
      modifies this`rows
      ensures rows == if id in old(rows) then old(rows)[id := row] else old(rows)
    {
      if id in rows {
        rows := rows[id := row];
      }
    }

    method AddDeliveryLog(id: Id, line: LogLine)
      modifies this`logs
      ensures logs == old(logs)[id := (if id in old(logs) then old(logs)[id] else []) + [line]]
    {
      logs := logs[id := (if id in logs then logs[id] else []) + [line]];
    }

    /** The log line and the row update of one attempt, committed together. */
    method CommitAttempt(id: Id, row: Row, line: LogLine)
      requires id in rows
      modifies this`rows, this`logs
      ensures NoteOf(id) == old(NoteOf(id)).(row := Some(row), log := old(NoteOf(id)).log + [line])
      ensures forall j: Id :: j != id ==> NoteOf(j) == old(NoteOf(j))
    {
      AddDeliveryLog(id, line);
      UpdateStatus(id, row);
    }

    /** What the send task does when anything raises: roll back, read again, retry later or give up. */
    method RecoverFromException(id: Id, now: int)
      requires id in rows
      modifies this`rows
      ensures NoteOf(id) == old(NoteOf(id)).(row := Some(AfterException(old(rows)[id], old(rows)[id], now)))
      ensures var row, count := old(rows)[id], old(rows)[id].retryCount + 1;
              var wait := [60, 300, 900, 3600, 7200][if count < 4 then count else 4];
              rows == old(rows)[id := if count >= row.maxRetries then row.(status := DEAD)
                                      else row.(status := RETRYING, retryCount := count,
                                          nextRetryAt := Some(now + wait))]
      ensures forall j: Id :: j != id ==> NoteOf(j) == old(NoteOf(j))
    {
      var again := rows[id];
      var retryCount := again.retryCount + 1;
      if retryCount >= again.maxRetries {
        UpdateStatus(id, again.(status := DEAD));
      } else {
        var delay := RETRY_DELAY_SCHEDULE[if retryCount < 4 then retryCount else 4];
        UpdateStatus(id, again.(status := RETRYING, retryCount := retryCount, nextRetryAt := Some(now + delay)));
      }
    }

    method CallProvider(id: Id)
      modifies this`calls
      ensures NoteOf(id) == old(NoteOf(id)).(calls := old(NoteOf(id)).calls + 1)
      ensures forall j: Id :: j != id ==> NoteOf(j) == old(NoteOf(j))
    {
      calls := calls + multiset{id};
    }

    method ScheduleRetryTask(id: Id)
      modifies this`retries
      ensures NoteOf(id) == old(NoteOf(id)).(retries := old(NoteOf(id)).retries + 1)
      ensures forall j: Id :: j != id ==> NoteOf(j) == old(NoteOf(j))
    {
      retries := retries + multiset{id};
    }

    method SendNotification(id: Id, b: Behaviour, now: int) returns (result: SendResult)
      requires id in sends
      modifies this
      ensures NoteOf(id) == AfterSend(old(NoteOf(id)), b, now)
      ensures forall j: Id :: j != id ==> NoteOf(j) == old(NoteOf(j))
      ensures result.NotFound? <==> id !in old(rows)
      ensures result.AlreadyFinal? <==>
                id in old(rows) && (old(rows)[id].status == DELIVERED || old(rows)[id].status == CANCELLED)
      ensures result.NotFound? || result.AlreadyFinal? ==> NoteOf(id) == old(NoteOf(id))
      ensures !result.NotFound? && !result.AlreadyFinal? ==> id in rows
      ensures !result.NotFound? && !result.AlreadyFinal? ==>
                var row, count := old(rows)[id], old(rows)[id].retryCount + 1;
                var wait := [60, 300, 900, 3600, 7200][if count < 4 then count else 4];
                match b
                case Delivers(p) => result == Success && rows[id] == row.(status := DELIVERED, providerId := p)
                case Fails =>
                  if count >= row.maxRetries then
                    result == Died && rows[id] == row.(status := DEAD, retryCount := count)
                  else
                    && result == RetryIn(wait) && retries[id] == old(retries)[id] + 1
                    && rows[id] == row.(status := RETRYING, retryCount := count, nextRetryAt := Some(now + wait))
                case RaisesOnSchedule =>
                  && result == (if count >= row.maxRetries then Died else Errored)
                  && rows[id].providerId == row.providerId
                  && rows[id].status == (if count + 1 >= row.maxRetries then DEAD else RETRYING)
                case _ =>
                  && result == Errored
                  && rows[id] == if count >= row.maxRetries then row.(status := DEAD)
                                 else row.(status := RETRYING, retryCount := count, nextRetryAt := Some(now + wait))
    {
      if id in rows && rows[id].status != DELIVERED && rows[id].status != CANCELLED {
        SentRowIs(NoteOf(id), b, now);
      }
      if id !in rows {
        return NotFound;
      }
      var seen := rows[id];
      if seen.status == DELIVERED || seen.status == CANCELLED {
        return AlreadyFinal;
      }
      result := AttemptSend(id, b, now);
    }

    method AttemptSend(id: Id, b: Behaviour, now: int) returns (result: SendResult)
      requires id in rows && id in sends && !Refused(rows[id].status)
      modifies this
      ensures NoteOf(id) == AfterSend(old(NoteOf(id)), b, now)
      ensures forall j: Id :: j != id ==> NoteOf(j) == old(NoteOf(j))
      ensures result == ResultOf(old(rows)[id], b)
    {
      if b != RaisesBefore {
        CallProvider(id);
      }
      if b == RaisesBefore || b == RaisesAfter {
        RecoverFromException(id, now);
        return Errored;
      }
      result := RecordResult(id, rows[id], b, now);
    }

    /** After the provider has answered. PROCESSING is only ever written inside this transaction. */
    method RecordResult(id: Id, seen: Row, b: Behaviour, now: int) returns (result: SendResult)
      requires id in rows && rows[id] == seen && id in sends && !Refused(seen.status)
      requires !b.RaisesBefore? && !b.RaisesAfter? && calls[id] > 0
      modifies this
      ensures NoteOf(id) == AfterSend(old(NoteOf(id)).(calls := old(NoteOf(id)).calls - 1), b, now)
      ensures forall j: Id :: j != id ==> NoteOf(j) == old(NoteOf(j))
      ensures result == ResultOf(seen, b)
      ensures id in rows && rows[id].maxRetries == seen.maxRetries
      ensures b.Delivers? ==> result == Success && rows[id] == seen.(status := DELIVERED, providerId := b.providerId)
      ensures !b.Delivers? ==>
              result != Success && rows[id].providerId == seen.providerId && rows[id].status in {RETRYING, DEAD}
    {
      var session := seen.(status := PROCESSING);
      if b.Delivers? {
        CommitAttempt(id, session.(status := DELIVERED, providerId := b.providerId),
            LogLine(Delivered, seen.retryCount + 1));
        return Success;
      }
      var retryCount := seen.retryCount + 1;
      if retryCount >= seen.maxRetries {
        CommitAttempt(id, session.(status := DEAD, retryCount := retryCount), LogLine(Failed, retryCount));
        return Died;
      }
      var delay := RETRY_DELAY_SCHEDULE[if retryCount < 4 then retryCount else 4];
      CommitAttempt(id, session.(status := RETRYING, retryCount := retryCount, nextRetryAt := Some(now + delay)),
          LogLine(Failed, retryCount));
      if b == RaisesOnSchedule {
        RecoverFromException(id, now);
        return Errored;
      }
      ScheduleRetryTask(id);
      return RetryIn(delay);
    }

    /** The retry task does not look at the status. */
    method RetryNotification(id: Id)
      requires id in retries
      modifies this
      ensures NoteOf(id) == Next(old(NoteOf(id)), RunRetryTask(true))
      ensures id in old(rows) ==>
                rows == old(rows)[id := old(rows)[id].(status := PENDING)] && sends == old(sends) + multiset{id}
      ensures id !in old(rows) ==> rows == old(rows) && sends == old(sends)
      ensures forall j: Id :: j != id ==> NoteOf(j) == old(NoteOf(j))
    {
      if id in rows {
        UpdateStatus(id, rows[id].(status := PENDING));
        sends := sends + multiset{id};
      }
    }

    /** Up to `limit` of the rows due for a retry, in any order, each once; all of them if there is room. */
    method GetPendingRetries(now: int, limit: nat) returns (ids: seq<Id>)
      ensures forall i :: 0 <= i < |ids| ==> ids[i] in rows && IsPendingRetry(rows[ids[i]], now)
      ensures forall id: Id :: id in rows ==>
                var r := rows[id];
                var due := r.status == RETRYING && r.retryCount < r.maxRetries &&
                           r.nextRetryAt.Some? && r.nextRetryAt.value <= now;
                (id in ids ==> due) && (due && |ids| < limit ==> id in ids)
      ensures forall i, j :: 0 <= i < j < |ids| ==> ids[i] != ids[j]
      ensures |ids| <= limit
      ensures |ids| < limit ==> forall id: Id :: id in rows && IsPendingRetry(rows[id], now) ==> id in ids
    {
      ids := [];
      var due := set id | id in rows && IsPendingRetry(rows[id], now);
      while due != {} && |ids| < limit
        invariant due <= set id | id in rows && IsPendingRetry(rows[id], now)
        invariant forall i :: 0 <= i < |ids| ==> ids[i] in rows && IsPendingRetry(rows[ids[i]], now) && ids[i] !in due
        invariant forall i, j :: 0 <= i < j < |ids| ==> ids[i] != ids[j]
        invariant |ids| <= limit
        invariant forall id: Id :: id in rows && IsPendingRetry(rows[id], now) ==> id in ids || id in due
        decreases |due|
      {
        var id :| id in due;
        due := due - {id};
        ids := ids + [id];
      }
    }

    /** The five-minute sweep: requeues what the query gives it, and leaves the rows as they are. */
    method RetryFailed(now: int) returns (ids: seq<Id>)
      modifies this`sends
      ensures |ids| <= 100
      ensures forall id: Id :: NoteOf(id) ==
                if id in ids then Two(old(NoteOf(id)), SweepSelect(now), SweepRequeue) else old(NoteOf(id))
      ensures |ids| < 100 ==> forall id: Id :: id in rows && IsPendingRetry(rows[id], now) ==> id in ids
      ensures forall id: Id :: sends[id] == old(sends)[id] + if id in ids then 1 else 0
      ensures forall id: Id :: id in ids ==> id in rows
      ensures forall id: Id :: id in ids ==>
                var r := rows[id];
                r.status == RETRYING && r.retryCount < r.maxRetries && r.nextRetryAt.Some? && r.nextRetryAt.value <= now
    {
      ids := GetPendingRetries(now, 100);
      forall id: Id | id in ids
        ensures Two(NoteOf(id), SweepSelect(now), SweepRequeue) == NoteOf(id).(sends := sends[id] + 1)
      {
        SweepRun(NoteOf(id), now);
      }
      Requeue(ids);
    }

    /** One message more for each of the ids, and no other change. */
    method Requeue(ids: seq<Id>)
      requires forall i, j :: 0 <= i < j < |ids| ==> ids[i] != ids[j]
      modifies this`sends
      ensures forall id: Id :: NoteOf(id) == old(NoteOf(id)).(sends := old(sends)[id] + if id in ids then 1 else 0)
    {
      for i := 0 to |ids|
        invariant forall id: Id :: sends[id] == old(sends)[id] + (if id in ids[..i] then 1 else 0)
      {
        assert ids[..i + 1] == ids[..i] + [ids[i]];
        assert ids[i] !in ids[..i];
        sends := sends + multiset{ids[i]};
      }
      assert ids[..|ids|] == ids;
    }

    /** Rows whose creation lies before the cutoff are removed with their logs once they are final. */
    method CleanupOldNotifications(expired: set<Id>) returns (deleted: set<Id>)
      modifies this`rows, this`logs
      ensures deleted == set id | id in expired && id in old(rows) && MayCleanUp(old(rows)[id].status)
      ensures forall id: Id :: id in rows <==>
                id in old(rows) && !(id in expired && old(rows)[id].status in {DELIVERED, SKIPPED, DEAD, CANCELLED})
      ensures forall id: Id :: id in deleted ==>
              old(NoteOf(id)).row.Some? && NoteOf(id).row == Next(old(NoteOf(id)), CleanUp).row == None
      ensures forall id: Id :: id !in deleted ==> NoteOf(id) == old(NoteOf(id))
    {
      deleted := set id | id in expired && id in rows && MayCleanUp(rows[id].status);
      rows := rows - deleted;
      logs := logs - deleted;
    }

    method RetryEndpoint(id: Id) returns (response: Response)
      modifies this
      ensures NoteOf(id) == Next(Two(old(NoteOf(id)), RetryCheck, RetryEnqueue), RetryCommit)
      ensures forall j: Id :: j != id ==> NoteOf(j) == old(NoteOf(j))
      ensures response.Missing? <==> id !in old(rows)
      ensures response.Ok? <==> id in old(rows) && (old(rows)[id].status == FAILED || old(rows)[id].status == DEAD)
      ensures response.Ok? ==>
                && sends == old(sends) + multiset{id}
                && rows == old(rows)[id := old(rows)[id].(status := PENDING, retryCount := 0)]
      ensures !response.Ok? ==> rows == old(rows) && sends == old(sends)
    {
      RetryRequestRun(NoteOf(id));
      if id !in rows {
        return Missing;
      }
      if rows[id].status != FAILED && rows[id].status != DEAD {
        return BadRequest;
      }
      UpdateStatus(id, rows[id].(status := PENDING, retryCount := 0));
      sends := sends + multiset{id};
      return Ok;
    }

    method CancelEndpoint(id: Id) returns (response: Response)
      modifies this`rows
      ensures NoteOf(id) == Two(old(NoteOf(id)), CancelCheck, CancelCommit)
      ensures forall j: Id :: j != id ==> NoteOf(j) == old(NoteOf(j))
      ensures response.Missing? <==> id !in old(rows)
      ensures response.Ok? <==> id in old(rows) && old(rows)[id].status != DELIVERED && old(rows)[id].status != SENT
      ensures rows == if response.Ok? then old(rows)[id := old(rows)[id].(status := CANCELLED)] else old(rows)
    {
      CancelRequestRun(NoteOf(id));
      if id !in rows {
        return Missing;
      }
      if rows[id].status == DELIVERED || rows[id].status == SENT {
        return BadRequest;
      }
      UpdateStatus(id, rows[id].(status := CANCELLED));
      return Ok;
    }

    function Holders(messageId: string): set<Id>
      reads this
    {
      set id | id in rows && rows[id].providerId == Some(messageId)
    }

    /** The row that carries this provider id, when exactly one does. */
    method FindByProviderId(messageId: string) returns (found: Option<Id>)
      ensures forall id: Id :: found == Some(id) <==> Holders(messageId) == {id}
    {
      var holders := set id | id in rows && rows[id].providerId == Some(messageId);
      if holders == {} {
        forall j: Id ensures holders != {j} {
          assert j in {j};
        }
        return None;
      }
      var id :| id in holders;
      forall j: Id ensures holders == {j} ==> j == id {
        assert id in holders && (holders == {j} ==> id in {j});
      }
      return if holders == {id} then Some(id) else None;
    }

    /** No row: nothing happens. Several rows: the lookup raises and nothing is committed. */
    method HandleDeliveryReceipt(messageId: string, report: Report) returns (found: Option<Id>)
      modifies this`rows, this`logs
      ensures forall id: Id :: found == Some(id) <==> old(Holders(messageId)) == {id}
      ensures forall id: Id :: NoteOf(id) ==
                if found == Some(id) then Next(old(NoteOf(id)), Receive(messageId, report, true)) else old(NoteOf(id))
      ensures found.Some? ==>
                && found.value in old(rows) && found.value in rows && found.value in logs && logs[found.value] != []
                && rows[found.value] == old(rows)[found.value].(status := rows[found.value].status)
                && rows[found.value].status == (if report == Delivered then DELIVERED
                                                else if report == Failed || report == Bounced then FAILED
                                                else old(rows)[found.value].status)
                && logs[found.value][|logs[found.value]| - 1] == LogLine(report, rows[found.value].retryCount + 1)
    {
      hide Next;
      found := FindByProviderId(messageId);
      if found.Some? {
        var id := found.value;
        assert id in {id} && id in Holders(messageId);
        ReceiptOfHolder(NoteOf(id), messageId, report);
        CommitAttempt(id, AfterReceipt(rows[id], report), LogLine(report, rows[id].retryCount + 1));
      }
    }
  }

  /**
   A send that delivers under a new provider id, and the provider's later report under that id: the report finds this
   row and no other.
   */
  method DeliverThenReport(platform: Platform, id: Id, messageId: string, report: Report, now: int)
    requires id in platform.sends && id in platform.rows
    requires platform.rows[id].status != DELIVERED && platform.rows[id].status != CANCELLED
    requires forall j: Id :: j in platform.rows && j != id ==> platform.rows[j].providerId != Some(messageId)
    modifies platform
    ensures id in platform.rows
    ensures var row := old(platform.rows)[id];
            platform.rows[id] == row.(providerId := Some(messageId),
                                      status := if report == Failed || report == Bounced then FAILED else DELIVERED)
    ensures forall j: Id :: j != id ==> platform.NoteOf(j) == old(platform.NoteOf(j))
  {
    var result := platform.SendNotification(id, Delivers(Some(messageId)), now);
    forall j: Id | j != id ensures j in platform.Holders(messageId) ==> j in old(platform.Holders(messageId)) {
      assert platform.NoteOf(j) == old(platform.NoteOf(j));
    }
    assert platform.Holders(messageId) == {id};
    var found := platform.HandleDeliveryReceipt(messageId, report);
  }
}
