/** A row that the factory or the gate has skipped is never handed to a provider, whatever any actor does. */
module DeliverySkips {
  import opened Delivery
  import opened Wrappers

  /** No message, no worker, no sweep, no manual retry and no provider ever dealt with the row. */
  predicate Untouched(n: Note) {
    n.sends == 0 && n.retries == 0 && n.jobs == map[] && n.swept == 0 && n.retrying == 0 && n.calls == 0
  }

  predicate IsSkipped(n: Note) {
    Has(n.draft, SKIPPED) || Has(n.row, SKIPPED)
  }

  /** Skipped, cancelled after that, or removed: and nothing dealt with it. */
  predicate Home(n: Note) {
    && n.born && Untouched(n)
    && (n.draft.Some? ==> n.row.None? && n.draft.value.status == SKIPPED && n.draft.value.providerId == None)
    && (n.row.Some? ==>
          (n.row.value.status == SKIPPED || n.row.value.status == CANCELLED) && n.row.value.providerId == None)
  }

  predicate SkipSafe(n: Note) {
    && (!n.born ==> n.draft.None? && n.row.None? && Untouched(n))
    && (n.draft.Some? ==> n.row.None? && n.draft.value.providerId == None)
    && (Has(n.draft, PENDING) ==> Untouched(n))
    && (IsSkipped(n) ==> Home(n))
  }

  lemma HandlerIsSkipSafe(n: Note, step: Step)
    requires SkipSafe(n)
    ensures SkipSafe(NextHandler(n, step))
    ensures Home(n) ==> Home(NextHandler(n, step))
  {
  }

  lemma WorkerIsSkipSafe(n: Note, step: Step)
    requires SkipSafe(n) && IsWorkerStep(step)
    ensures SkipSafe(NextWorker(n, step, step.worker))
    ensures Home(n) ==> NextWorker(n, step, step.worker) == n
  {
  }

  lemma OtherIsSkipSafe(n: Note, step: Step)
    requires SkipSafe(n)
    ensures SkipSafe(NextOther(n, step))
    ensures Home(n) ==> Home(NextOther(n, step))
  {
  }

  lemma StepIsSkipSafe(n: Note, step: Step)
    requires SkipSafe(n)
    ensures SkipSafe(Next(n, step))
    ensures Home(n) ==> Home(Next(n, step))
  {
    if IsHandlerStep(step) {
      HandlerIsSkipSafe(n, step);
    } else if IsWorkerStep(step) {
      WorkerIsSkipSafe(n, step);
    } else {
      OtherIsSkipSafe(n, step);
    }
  }

  lemma {:induction false} RunIsSkipSafe(n: Note, steps: seq<Step>)
    requires SkipSafe(n)
    ensures SkipSafe(Run(n, steps))
    ensures Home(n) ==> Home(Run(n, steps))
    decreases |steps|
  {
    if steps != [] {
      StepIsSkipSafe(n, steps[0]);
      RunIsSkipSafe(Next(n, steps[0]), steps[1..]);
    }
  }

  /**
   In every interleaving, a row that the factory or the gate marked SKIPPED has then, before and ever after
   no provider call, no message, no worker and no provider id; it stays SKIPPED until it is cancelled or removed.
   */
  lemma SkippedIsNeverHandedOver(before: seq<Step>, after: seq<Step>)
    requires IsSkipped(Run(UNBORN, before))
    ensures var n := Run(Run(UNBORN, before), after);
            && n.calls == 0 && n.sends == 0 && n.retries == 0 && n.jobs == map[]
            && (n.row.Some? ==> n.row.value.providerId == None && n.row.value.status in {SKIPPED, CANCELLED})
  {
    RunIsSkipSafe(UNBORN, before);
    RunIsSkipSafe(Run(UNBORN, before), after);
  }

  /** The only step that changes the status of a skipped row is a cancellation. */
  lemma OnlyCancelLeavesSkipped(before: seq<Step>, step: Step)
    requires Has(Run(UNBORN, before).row, SKIPPED)
    ensures var n, n' := Run(UNBORN, before), Next(Run(UNBORN, before), step);
            n'.row == n.row || (step == CancelCommit && n'.row == Some(n.row.value.(status := CANCELLED))) ||
                (step == CleanUp && n'.row == None)
  {
    RunIsSkipSafe(UNBORN, before);
  }
}
