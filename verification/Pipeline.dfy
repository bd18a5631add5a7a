/**
 Deliveries, workers, retry engines and operators as one machine of interleaved steps over the
 durable tables: the idempotency log, the canonical versions, the ledger, the retry queue and the
 dead-letter table. Each SQL statement is one step; a thread can crash between any two.
 */
module Pipeline {

  datatype Event = Event(source: string, id: string, entity: string)

  type Key = (string, string)

  function KeyOf(ev: Event): Key {
    (ev.source, ev.id)
  }

  // What a thread works on: a message of the bus, or a copy of a retry row.
  datatype Job = Message(ev: Event) | RetryOf(ev: Event, attempt: int, max: int)

  // Where it is: before the claim, holding it, part way through the destinations, failed with the
  // claim given back, finished, parked in the dead-letter table, or done with its retry row.
  datatype Phase =
    | Started
    | Holding
    | Applying(targets: seq<string>, read: int, written: nat)
    | Failing(retryable: bool)
    | Finished
    | Parked
    | Cleared

  datatype Thread = Idle | Busy(job: Job, phase: Phase)

  datatype RetryRow = RetryRow(ev: Event, attempt: int, max: int)
  datatype DeadStatus = Open | Retrying | Resolved | Discarded
  datatype DeadRow = DeadRow(ev: Event, status: DeadStatus)
  datatype LedgerRow = LedgerRow(ev: Event, target: string)

  // A commit of canonical state: the event, the targets written, the version it had read.
  datatype Commit = Commit(ev: Event, targets: seq<string>, read: int)

  // bus holds the unacknowledged deliveries. acked, noPolicy, dropped and commits are histories.
  datatype State = State(bus: multiset<Event>, acked: set<Event>, noPolicy: set<Event>, dropped: set<Event>,
                         processed: set<Key>, versions: map<string, int>, commits: seq<Commit>, ledger: seq<LedgerRow>,
                         retry: map<string, RetryRow>, dead: map<string, DeadRow>, threads: map<nat, Thread>)

  function VersionAt(s: State, entity: string): int {
    if entity in s.versions then s.versions[entity] else 0
  }

  // INSERT ... ON CONFLICT (event_id) DO UPDATE: the attempt goes up, the limit stays.
  function EnqueueRetry(retry: map<string, RetryRow>, ev: Event, limit: int): map<string, RetryRow> {
    retry[ev.id := if ev.id in retry then RetryRow(ev, retry[ev.id].attempt + 1, retry[ev.id].max)
          else RetryRow(ev, 1, limit)]
  }

  function InsertDeadLetter(dead: map<string, DeadRow>, ev: Event): map<string, DeadRow> {
    dead[ev.id := DeadRow(ev, Open)]
  }

  function SetDeadStatus(dead: map<string, DeadRow>, id: string, status: DeadStatus): map<string, DeadRow> {
    if id in dead then dead[id := dead[id].(status := status)] else dead
  }

  function RowsFor(c: Commit): seq<LedgerRow> {
    seq(|c.targets|, i requires 0 <= i < |c.targets| => LedgerRow(c.ev, c.targets[i]))
  }

  // ---- Steps ----------------------------------------------------------------------------------------

  datatype Step =
    | Publish(ev: Event)
    | Receive(t: nat, ev: Event)
    | TakeRow(t: nat, id: string)
    | Claim(t: nat)
    | FindDuplicate(t: nat)
    | FindNoPolicy(t: nat)
    | Drop(t: nat)
    | Read(t: nat, targets: seq<string>)
    | Write(t: nat)
    | CommitState(t: nat)
    | Fail(t: nat, retryable: bool)
    | HandOver(t: nat)
    | Acknowledge(t: nat)
    | ClearRow(t: nat)
    | ResolveDead(t: nat)
    | Crash(t: nat)
    | Replay(id: string)
    | Discard(id: string)

  predicate At(s: State, t: nat, phase: Phase) {
    t in s.threads && s.threads[t].Busy? && s.threads[t].phase == phase
  }

  predicate Working(s: State, t: nat) {
    t in s.threads && s.threads[t].Busy?
  }

  predicate Holds(th: Thread) {
    th.Busy? && (th.phase.Holding? || th.phase.Applying?)
  }

  predicate Enabled(s: State, step: Step) {
    match step
    case Publish(_) => true
    case Receive(t, ev) => t in s.threads && s.threads[t].Idle? && ev in s.bus
    case TakeRow(t, id) => t in s.threads && s.threads[t].Idle? && id in s.retry
    case Claim(t) => At(s, t, Started) && KeyOf(s.threads[t].job.ev) !in s.processed
    case FindDuplicate(t) => At(s, t, Started) && KeyOf(s.threads[t].job.ev) in s.processed
    case FindNoPolicy(t) => At(s, t, Holding)
    case Drop(t) => At(s, t, Holding)
    case Read(t, targets) => At(s, t, Holding) && targets != []
    case Write(t) => Working(s, t) && s.threads[t].phase.Applying? &&
                     s.threads[t].phase.written < |s.threads[t].phase.targets|
    case CommitState(t) => Working(s, t) && s.threads[t].phase.Applying? &&
                           s.threads[t].phase.written == |s.threads[t].phase.targets|
    case Fail(t, _) => t in s.threads && Holds(s.threads[t])
    case HandOver(t) => Working(s, t) && s.threads[t].phase.Failing?
    case Acknowledge(t) => At(s, t, Finished) && s.threads[t].job.Message?
    case ClearRow(t) => (At(s, t, Finished) || At(s, t, Parked)) && s.threads[t].job.RetryOf?
    case ResolveDead(t) => At(s, t, Cleared) && s.threads[t].job.RetryOf?
    case Crash(t) => Working(s, t)
    case Replay(id) => id in s.dead
    case Discard(id) => id in s.dead
  }

  function Go(s: State, t: nat, phase: Phase): State
    requires Working(s, t)
  {
    s.(threads := s.threads[t := Busy(s.threads[t].job, phase)])
  }

  function Rest(s: State, t: nat): State {
    s.(threads := s.threads[t := Idle])
  }

  // A worker schedules a retry or parks the event; a retry engine also parks it when its attempts
  // are used up.
  function HandedOver(limit: int, s: State, t: nat): State
    requires Working(s, t) && s.threads[t].phase.Failing?
  {
    var job, retryable := s.threads[t].job, s.threads[t].phase.retryable;
    match job
    case Message(ev) =>
      if retryable then Go(s, t, Finished).(retry := EnqueueRetry(s.retry, ev, limit))
      else Go(s, t, Finished).(dead := InsertDeadLetter(s.dead, ev))
    case RetryOf(ev, attempt, max) =>
      if retryable && attempt + 1 < max then Rest(s, t).(retry := EnqueueRetry(s.retry, ev, max))
      else Go(s, t, Parked).(dead := InsertDeadLetter(s.dead, ev))
  }

  function Committed(s: State, t: nat): State
    requires Working(s, t) && s.threads[t].phase.Applying?
  {
    var ev, phase := s.threads[t].job.ev, s.threads[t].phase;
    var c := Commit(ev, phase.targets, phase.read);
    Go(s, t, Finished).(versions := s.versions[ev.entity := phase.read + 1], commits := s.commits + [c],
                        ledger := s.ledger + RowsFor(c))
  }

  function Crashed(s: State, t: nat): State
    requires Working(s, t)
  {
    match s.threads[t].job
    case Message(ev) => Rest(s, t).(bus := s.bus + multiset{ev})
    case RetryOf(_, _, _) => Rest(s, t)
  }

  // limit is the configured maximum number of attempts.
  function Do(limit: int, s: State, step: Step): State
    requires Enabled(s, step)
  {
    match step
    case Publish(ev) => s.(bus := s.bus + multiset{ev})
    case Receive(t, ev) => s.(bus := s.bus - multiset{ev}, threads := s.threads[t := Busy(Message(ev), Started)])
    case TakeRow(t, id) =>
      s.(threads := s.threads[t := Busy(RetryOf(s.retry[id].ev, s.retry[id].attempt, s.retry[id].max), Started)])
    case Claim(t) => Go(s, t, Holding).(processed := s.processed + {KeyOf(s.threads[t].job.ev)})
    case FindDuplicate(t) => Go(s, t, Finished)
    case FindNoPolicy(t) =>
      Go(s, t, Finished).(processed := s.processed - {KeyOf(s.threads[t].job.ev)},
                          noPolicy := s.noPolicy + {s.threads[t].job.ev})
    case Drop(t) => Go(s, t, Finished).(dropped := s.dropped + {s.threads[t].job.ev})
    case Read(t, targets) => Go(s, t, Applying(targets, VersionAt(s, s.threads[t].job.ev.entity), 0))
    case Write(t) => Go(s, t, s.threads[t].phase.(written := s.threads[t].phase.written + 1))
    case CommitState(t) => Committed(s, t)
    case Fail(t, retryable) => Go(s, t, Failing(retryable)).(processed := s.processed - {KeyOf(s.threads[t].job.ev)})
    case HandOver(t) => HandedOver(limit, s, t)
    case Acknowledge(t) => Rest(s, t).(acked := s.acked + {s.threads[t].job.ev})
    case ClearRow(t) =>
      var next := if s.threads[t].phase.Finished? then Go(s, t, Cleared) else Rest(s, t);
      next.(retry := s.retry - {s.threads[t].job.ev.id})
    case ResolveDead(t) =>
      var id := s.threads[t].job.ev.id;
      Rest(s, t).(dead := if id in s.dead && !s.dead[id].status.Discarded? then SetDeadStatus(s.dead, id, Resolved)
                  else s.dead)
    case Crash(t) => Crashed(s, t)
    case Replay(id) => s.(dead := SetDeadStatus(s.dead, id, Retrying),
                          retry := EnqueueRetry(s.retry, s.dead[id].ev, limit))
    case Discard(id) => s.(dead := SetDeadStatus(s.dead, id, Discarded))
  }

  // ---- Runs -----------------------------------------------------------------------------------------

  ghost predicate CanRun(limit: int, s: State, steps: seq<Step>)
    decreases |steps|
  {
    steps == [] || (Enabled(s, steps[0]) && CanRun(limit, Do(limit, s, steps[0]), steps[1..]))
  }

  ghost function After(limit: int, s: State, steps: seq<Step>): State
    requires CanRun(limit, s, steps)
    decreases |steps|
  {
    if steps == [] then s else After(limit, Do(limit, s, steps[0]), steps[1..])
  }

  // Nothing has happened yet.
  ghost predicate Initial(s: State) {
    && s.bus == multiset{} && s.acked == {} && s.noPolicy == {} && s.dropped == {} && s.processed == {} &&
       s.versions == map[]
    && s.commits == [] && s.ledger == [] && s.retry == map[] && s.dead == map[]
    && forall t :: t in s.threads ==> s.threads[t].Idle?
  }
}
