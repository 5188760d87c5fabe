/**
 What the attempts of the send task write, whatever other actors have done to the row meanwhile: where the provider's
 id comes from, how a report finds the row by it, and what becomes of failures that overlap.
 */
module DeliveryWrites {
  import opened Wrappers
  import opened Delivery

  /** Worker w has called the provider, after it read `seen`. */
  predicate HasCalled(n: Note, w: nat, seen: Row) {
    w in n.jobs && n.jobs[w] == Handed(seen)
  }

  lemma WorkerProviderId(n: Note, step: Step)
    requires IsWorkerStep(step) && n.row.Some?
    ensures var n' := NextWorker(n, step, step.worker);
            && n'.row.Some?
            && n'.row.value.providerId ==
               if step.Settle? && step.ok && step.worker in n.jobs && n.jobs[step.worker].Handed? then step.providerId
               else n.row.value.providerId
  {
  }

  lemma OtherProviderId(n: Note, step: Step)
    requires n.row.Some? && NextOther(n, step).row.Some?
    ensures NextOther(n, step).row.value.providerId == n.row.value.providerId
  {
  }

  /** A committed row gets its provider id from the worker whose call the provider accepted, and from nobody else. */
  lemma ProviderIdComesFromDelivery(n: Note, step: Step)
    requires n.row.Some? && n.draft.None? && Next(n, step).row.Some?
    ensures Next(n, step).row.value.providerId ==
            if step.Settle? && step.ok && step.worker in n.jobs && n.jobs[step.worker].Handed? then step.providerId
            else n.row.value.providerId
  {
    hide NextWorker, NextOther;
    if IsWorkerStep(step) {
      WorkerProviderId(n, step);
    } else if !IsHandlerStep(step) {
      OtherProviderId(n, step);
    }
  }

  /** The provider accepted worker w's call under the id p. */
  lemma AcceptedCall(n: Note, w: nat, seen: Row, p: string, now: int)
    requires HasCalled(n, w, seen) && n.row.Some?
    ensures var n1 := Next(n, Settle(w, true, Some(p), now));
            && n1.row == Some(n.row.value.(status := DELIVERED, providerId := Some(p)))
            && n1.log == n.log + [LogLine(Delivered, seen.retryCount + 1)]
  {
  }

  /** What a provider can report of a row that carries its id. */
  lemma ReportOnRow(n: Note, p: string)
    requires n.row.Some? && n.row.value.providerId == Some(p)
    ensures Next(n, Receive(p, Bounced, true)).row == Some(n.row.value.(status := FAILED))
    ensures Next(n, Receive(p, Failed, true)).row == Some(n.row.value.(status := FAILED))
    ensures Next(n, Receive(p, Delivered, true)).row == Some(n.row.value.(status := DELIVERED))
  {
  }

  /**
   With its id the provider's report finds the row: it is delivered when the call is settled, keeps its count, limit
   and retry time, and a bounce reported under the id makes it FAILED.
   */
  lemma DeliveredRowCanBounce(n: Note, w: nat, seen: Row, p: string, now: int)
    requires HasCalled(n, w, seen) && n.row.Some?
    ensures var n1 := Next(n, Settle(w, true, Some(p), now));
            && n1.row == Some(n.row.value.(status := DELIVERED, providerId := Some(p)))
            && n1.log == n.log + [LogLine(Delivered, seen.retryCount + 1)]
            && Next(n1, Receive(p, Bounced, true)).row == Some(n1.row.value.(status := FAILED))
            && Next(n1, Receive(p, Failed, true)).row == Some(n1.row.value.(status := FAILED))
            && Next(n1, Receive(p, Delivered, true)).row == n1.row
  {
    hide Next;
    AcceptedCall(n, w, seen, p, now);
    ReportOnRow(Next(n, Settle(w, true, Some(p), now)), p);
  }

  /**
   Two workers that read the row at the same count, and both fail, count one failure: the second write is the first's.
   */
  lemma ConcurrentFailuresCountOnce(n: Note, v: nat, w: nat, seen: Row, t: int, u: int)
    requires v != w && HasCalled(n, v, seen) && HasCalled(n, w, seen) && n.row.Some?
    ensures var count := seen.retryCount + 1;
            var n2 := Next(Next(n, Settle(v, false, None, t)), Settle(w, false, None, u));
            && n2.row.Some? && n2.row.value.retryCount == count
            && n2.row.value.status == (if count >= seen.maxRetries then DEAD else RETRYING)
            && n2.log == n.log + [LogLine(Failed, count), LogLine(Failed, count)]
            && (count < seen.maxRetries ==>
                  n2.row.value.nextRetryAt == Some(u + [60, 300, 900, 3600, 7200][if count < 4 then count else 4]))
  {
  }
}
