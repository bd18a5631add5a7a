/**
 Retries of one event (internal/retry with the worker's dispatchFailure): how often it is processed
 before it leaves the queue, where it ends up, and how long it waits.
 */
module Retry {
  import opened Backoff
  import Pipeline
  import Tables

  datatype Outcome = Succeeded | FailedWith(kind: Tables.ErrorKind, retryAfter: int)

  predicate Retryable(o: Outcome) {
    o.FailedWith? && Tables.ShouldRetry(o.kind)
  }

  datatype Options = Options(baseDelay: int, maxDelay: int, maxAttempts: int)

  predicate Sensible(o: Options) {
    Int64(o.baseDelay) && Int64(o.maxAttempts) && 0 < o.maxDelay <= TWO_62
  }

  // jitter(n) is the factor drawn for the n-th delay.
  ghost predicate Jittered(jitter: nat -> real) {
    forall n :: 0.7 <= jitter(n) < 1.3
  }

  // A retry row without its event.
  datatype Entry = Entry(attempt: int, max: int)

  function Enqueued(rows: map<string, Entry>, id: string, max: int): map<string, Entry> {
    rows[id := if id in rows then Entry(rows[id].attempt + 1, rows[id].max) else Entry(1, max)]
  }

  function Entries(retry: map<string, Pipeline.RetryRow>): map<string, Entry> {
    map id | id in retry :: Entry(retry[id].attempt, retry[id].max)
  }

  // The queue of one event does what the pipeline's retry table does.
  lemma EnqueuedInPipeline(retry: map<string, Pipeline.RetryRow>, ev: Pipeline.Event, limit: int)
    ensures Entries(Pipeline.EnqueueRetry(retry, ev, limit)) == Enqueued(Entries(retry), ev.id, limit)
  {
  }

  function ResolvedFor(dead: map<string, Pipeline.DeadStatus>, id: string): map<string, Pipeline.DeadStatus> {
    if id in dead && !dead[id].Discarded? then dead[id := Pipeline.Resolved] else dead
  }

  class Queue {
    var rows: map<string, Entry>
    var dead: map<string, Pipeline.DeadStatus>

    method EnqueueRetry(id: string, max: int)
      modifies this`rows
      ensures rows == Enqueued(old(rows), id, max)
    {
      if id in rows {
        rows := rows[id := Entry(rows[id].attempt + 1, rows[id].max)];
      } else {
        rows := rows[id := Entry(1, max)];
      }
    }

    method DeleteRetry(id: string)
      modifies this`rows
      ensures rows == old(rows) - {id}
    {
      rows := rows - {id};
    }

    method InsertDeadLetter(id: string)
      modifies this`dead
      ensures dead == old(dead)[id := Pipeline.Open]
    {
      dead := dead[id := Pipeline.Open];
    }

    method ResolveDeadLetterForEvent(id: string)
      modifies this`dead
      ensures dead == ResolvedFor(old(dead), id)
    {
      if id in dead && !dead[id].Discarded? { dead := dead[id := Pipeline.Resolved]; }
    }

    // The worker's first failure becomes a retry row or a dead letter.
    method DispatchFailure(id: string, failure: Outcome, opts: Options, factor: real) returns (delay: int)
      requires failure.FailedWith? && Sensible(opts) && 0.7 <= factor < 1.3
      modifies this
      ensures 0 <= delay <= opts.maxDelay && (failure.retryAfter > 0 ==> delay <= failure.retryAfter)
      ensures Retryable(failure) ==> rows == Enqueued(old(rows), id, opts.maxAttempts) && dead == old(dead)
      ensures !Retryable(failure) ==> rows == old(rows) && dead == old(dead)[id := Pipeline.Open]
    {
      if !Retryable(failure) {
        InsertDeadLetter(id);
        return 0;
      }
      delay := ComputeDelay(1, opts.baseDelay, opts.maxDelay, factor);
      delay := Schedule(delay, failure.retryAfter, opts.maxDelay);
      EnqueueRetry(id, opts.maxAttempts);
    }

    // One drain of a due row: done, dead or scheduled again.
    method ProcessRetry(id: string, row: Entry, outcome: Outcome, opts: Options, factor: real) returns (delay: int)
      requires Sensible(opts) && 0.7 <= factor < 1.3 && Int64(row.attempt + 1)
      modifies this
      ensures 0 <= delay <= opts.maxDelay &&
              (outcome.FailedWith? && outcome.retryAfter > 0 ==> delay <= outcome.retryAfter)
      ensures outcome.Succeeded? ==> rows == old(rows) - {id} && dead == ResolvedFor(old(dead), id)
      ensures Retryable(outcome) && row.attempt + 1 < row.max ==>
                rows == Enqueued(old(rows), id, row.max) && dead == old(dead)
      ensures outcome.FailedWith? && !(Retryable(outcome) && row.attempt + 1 < row.max) ==>
                rows == old(rows) - {id} && dead == old(dead)[id := Pipeline.Open]
    {
      delay := 0;
      if outcome.Succeeded? {
        DeleteRetry(id);
        ResolveDeadLetterForEvent(id);
        return;
      }
      if !Retryable(outcome) {
        InsertDeadLetter(id);
        DeleteRetry(id);
        return;
      }
      var failureCount := row.attempt + 1;
      if failureCount >= row.max {
        InsertDeadLetter(id);
        DeleteRetry(id);
        return;
      }
      delay := ComputeDelay(failureCount, opts.baseDelay, opts.maxDelay, factor);
      delay := Schedule(delay, outcome.retryAfter, opts.maxDelay);
      EnqueueRetry(id, row.max);
    }

    // One event with no other row, one engine and no redelivery, from its first delivery until its
    // row is gone. outcomes(n) is what the n-th processing of it returns.
    method RunToEnd(id: string, opts: Options, outcomes: nat -> Outcome, jitter: nat -> real)
      returns (attempts: nat, waited: int)
      requires id !in rows && Sensible(opts) && Jittered(jitter)
      modifies this
      ensures Stops(outcomes, opts.maxAttempts, attempts)
      ensures rows == old(rows)
      ensures dead == if outcomes(attempts).FailedWith? then old(dead)[id := Pipeline.Open]
                      else if attempts == 1 then old(dead)
                      else ResolvedFor(old(dead), id)
      ensures 0 <= waited <= (attempts - 1) * opts.maxDelay
    {
      attempts, waited := 1, 0;
      if outcomes(1).Succeeded? { return; }
      var delay := DispatchFailure(id, outcomes(1), opts, jitter(1));
      if !Retryable(outcomes(1)) { return; }
      waited := delay;
      var bound := AttemptLimit(opts.maxAttempts);
      while id in rows
        invariant 1 <= attempts <= bound && forall k :: 1 <= k < attempts ==> Retryable(outcomes(k))
        invariant id in rows ==> rows == old(rows)[id := Entry(attempts, opts.maxAttempts)] && dead == old(dead)
        invariant id in rows ==>
                    attempts < bound && Retryable(outcomes(attempts)) && 0 <= waited <= attempts * opts.maxDelay
        invariant id !in rows ==> rows == old(rows) && 0 <= waited <= (attempts - 1) * opts.maxDelay
        invariant id !in rows ==> attempts >= 2 && (attempts == bound || !Retryable(outcomes(attempts)))
        invariant id !in rows ==>
                    dead == if outcomes(attempts).FailedWith? then old(dead)[id := Pipeline.Open]
                        else ResolvedFor(old(dead), id)
        decreases if id in rows then bound - attempts else 0
      {
        Distribute(attempts, 1, opts.maxDelay);
        attempts := attempts + 1;
        delay := ProcessRetry(id, rows[id], outcomes(attempts), opts, jitter(attempts));
        if id in rows { waited := waited + delay; }
      }
    }
  }

  // ---- How often ------------------------------------------------------------------------------------------

  function AttemptLimit(max: int): int {
    if max < 2 then 2 else max
  }

  // Processing stops at the first outcome that is not worth retrying, or at the limit.
  ghost predicate Stops(outcomes: nat -> Outcome, max: int, n: nat) {
    && 1 <= n <= AttemptLimit(max)
    && (forall k :: 1 <= k < n ==> Retryable(outcomes(k)))
    && (n == AttemptLimit(max) || !Retryable(outcomes(n)))
  }

  lemma StopsOnce(outcomes: nat -> Outcome, max: int, m: nat, n: nat)
    requires Stops(outcomes, max, m) && Stops(outcomes, max, n)
    ensures m == n
  {
    assert (m < n ==> Retryable(outcomes(m))) && (n < m ==> Retryable(outcomes(n)));
  }

  // With a failure that never goes away, an event is processed max(2, M) times, no more, no less.
  lemma PersistentFailure(outcomes: nat -> Outcome, max: int, n: nat)
    requires forall k :: Retryable(outcomes(k))
    ensures Stops(outcomes, max, n) <==> n == AttemptLimit(max)
  {
  }
}
