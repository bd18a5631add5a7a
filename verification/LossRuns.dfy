/**
 Runs that lose an acknowledged event, from the initial state and without a crash: one in which a retry
 engine takes the claim of an overlapping delivery for a success, one in which two sources use the same
 event id. In both the bus is empty and every thread idle at the end.
 */
module LossRuns {
  import opened Pipeline
  import opened NoLoss

  ghost predicate Follows(limit: int, s: State, steps: seq<Step>, s': State) {
    CanRun(limit, s, steps) && After(limit, s, steps) == s'
  }

  // No thread crashes, and only the event itself is published.
  ghost predicate Only(steps: seq<Step>, ev: Event) {
    forall i :: 0 <= i < |steps| ==> !steps[i].Crash? && (steps[i].Publish? ==> steps[i].ev == ev)
  }

  lemma {:induction false} Extend(limit: int, s: State, steps: seq<Step>, s': State, step: Step)
    requires Follows(limit, s, steps, s') && Enabled(s', step)
    ensures Follows(limit, s, steps + [step], Do(limit, s', step))
    decreases |steps|
  {
    if steps == [] {
      assert CanRun(limit, Do(limit, s, step), []);
      assert (steps + [step])[1..] == [];
    } else {
      assert (steps + [step])[1..] == steps[1..] + [step];
      Extend(limit, Do(limit, s, steps[0]), steps[1..], s', step);
    }
  }

  lemma {:induction false} Concatenate(limit: int, s: State, steps: seq<Step>, s': State, more: seq<Step>, s'': State)
    requires Follows(limit, s, steps, s') && Follows(limit, s', more, s'')
    ensures Follows(limit, s, steps + more, s'')
    decreases |steps|
  {
    if steps == [] {
      assert steps + more == more;
    } else {
      assert (steps + more)[1..] == steps[1..] + more;
      Concatenate(limit, Do(limit, s, steps[0]), steps[1..], s', more, s'');
    }
  }

  lemma One(limit: int, s: State, step: Step)
    requires Enabled(s, step)
    ensures Follows(limit, s, [step], Do(limit, s, step))
  {
    assert Follows(limit, s, [], s);
    Extend(limit, s, [], s, step);
    assert [] + [step] == [step];
  }

  lemma Two(limit: int, s: State, a: Step, b: Step)
    requires Enabled(s, a) && Enabled(Do(limit, s, a), b)
    ensures Follows(limit, s, [a, b], Do(limit, Do(limit, s, a), b))
  {
    One(limit, s, a);
    Extend(limit, s, [a], Do(limit, s, a), b);
    assert [a] + [b] == [a, b];
  }

  // ---- A delivery that fails ----------------------------------------------------------------------------

  ghost predicate CanDeliver(s: State, ev: Event, t: nat) {
    t in s.threads && s.threads[t].Idle?
  }

  // A message is published and received.
  lemma Delivers(limit: int, s: State, ev: Event, t: nat) returns (steps: seq<Step>, s': State)
    requires CanDeliver(s, ev, t)
    ensures Only(steps, ev) && Follows(limit, s, steps, s') &&
            s' == s.(threads := s.threads[t := Busy(Message(ev), Started)])
  {
    steps, s' := [Publish(ev), Receive(t, ev)], Do(limit, Do(limit, s, Publish(ev)), Receive(t, ev));
    Two(limit, s, Publish(ev), Receive(t, ev));
    assert s.bus + multiset{ev} - multiset{ev} == s.bus;
  }

  lemma ClaimsAndFails(limit: int, s: State, ev: Event, t: nat) returns (steps: seq<Step>, s': State)
    requires At(s, t, Started) && s.threads[t].job == Message(ev) && KeyOf(ev) !in s.processed
    ensures Only(steps, ev) && Follows(limit, s, steps, s') &&
            s' == s.(threads := s.threads[t := Busy(Message(ev), Failing(true))])
  {
    steps, s' := [Claim(t), Fail(t, true)], Do(limit, Do(limit, s, Claim(t)), Fail(t, true));
    Two(limit, s, Claim(t), Fail(t, true));
    assert s.processed + {KeyOf(ev)} - {KeyOf(ev)} == s.processed;
    assert s'.threads == s.threads[t := Busy(Message(ev), Failing(true))];
  }

  lemma QueuesAndAcks(limit: int, s: State, ev: Event, t: nat) returns (steps: seq<Step>, s': State)
    requires At(s, t, Failing(true)) && s.threads[t].job == Message(ev)
    ensures Only(steps, ev) && Follows(limit, s, steps, s')
    ensures s' == s.(threads := s.threads[t := Idle], retry := EnqueueRetry(s.retry, ev, limit),
                     acked := s.acked + {ev})
  {
    steps, s' := [HandOver(t), Acknowledge(t)], Do(limit, Do(limit, s, HandOver(t)), Acknowledge(t));
    Two(limit, s, HandOver(t), Acknowledge(t));
    assert s'.threads == s.threads[t := Idle];
  }

  // A whole delivery that fails: the event is queued and acknowledged, and nothing else is left of it.
  lemma FailsOnce(limit: int, s: State, ev: Event, t: nat) returns (steps: seq<Step>, s': State)
    requires CanDeliver(s, ev, t) && KeyOf(ev) !in s.processed
    ensures Only(steps, ev) && Follows(limit, s, steps, s')
    ensures s' == s.(retry := EnqueueRetry(s.retry, ev, limit), acked := s.acked + {ev})
  {
    var a, s1 := Delivers(limit, s, ev, t);
    var b, s2 := ClaimsAndFails(limit, s1, ev, t);
    var c, s3 := QueuesAndAcks(limit, s2, ev, t);
    Concatenate(limit, s, a, s1, b, s2);
    Concatenate(limit, s, a + b, s2, c, s3);
    steps, s' := a + b + c, s3;
    assert s3.threads == s.threads;
  }

  // ---- A claim taken for a success ------------------------------------------------------------------------

  // An operator has discarded its dead letter.
  ghost predicate GivenUp(s: State, ev: Event) {
    ev.id in s.dead && s.dead[ev.id].ev == ev && s.dead[ev.id].status.Discarded?
  }

  // A retry engine u is about to try an event that another thread t, a worker or an engine, still holds.
  // The event is acknowledged or will be by t, no third copy of it is about, and no operator has discarded it.
  ghost predicate Racing(s: State, ev: Event, t: nat, u: nat) {
    && t != u && HeldBy(s, t, ev) && (s.threads[t].job.RetryOf? ==> ev in s.acked)
    && At(s, u, Started) && s.threads[u].job.RetryOf? && s.threads[u].job.ev == ev
    && (forall x :: Working(s, x) && x != t && x != u ==> s.threads[x].job.ev != ev)
    && KeyOf(ev) in s.processed && !GivenUp(s, ev) && ev !in s.noPolicy && ev !in s.bus
  }

  // The engine sees a duplicate; the holder fails.
  lemma EngineMisled(limit: int, s: State, ev: Event, t: nat, u: nat) returns (steps: seq<Step>, s': State)
    requires Racing(s, ev, t, u)
    ensures Misjudges(s, FindDuplicate(u)) && Only(steps, ev) && Follows(limit, s, steps, s')
    ensures s' == s.(threads := s.threads[u := Busy(s.threads[u].job, Finished)]
                                         [t := Busy(s.threads[t].job, Failing(true))],
                     processed := s.processed - {KeyOf(ev)})
  {
    assert HeldBy(s, t, ev);
    steps, s' := [FindDuplicate(u), Fail(t, true)], Do(limit, Do(limit, s, FindDuplicate(u)), Fail(t, true));
    Two(limit, s, FindDuplicate(u), Fail(t, true));
  }

  // Thread t is done with the event, which at most the two tables still hold.
  ghost predicate HandsOver(s: State, s': State, ev: Event, t: nat) {
    && s' == s.(threads := s.threads[t := Idle], acked := s'.acked, retry := s'.retry, dead := s'.dead)
    && ev in s'.acked && (GivenUp(s', ev) ==> GivenUp(s, ev))
  }

  // An engine hands the event back to the queue, or parks it and deletes the row.
  lemma EngineFails(limit: int, s: State, ev: Event, t: nat) returns (steps: seq<Step>, s': State)
    requires At(s, t, Failing(true)) && s.threads[t].job.RetryOf? && s.threads[t].job.ev == ev && ev in s.acked
    ensures Only(steps, ev) && Follows(limit, s, steps, s') && HandsOver(s, s', ev, t)
  {
    var next := Do(limit, s, HandOver(t));
    if s.threads[t].job.attempt + 1 < s.threads[t].job.max {
      steps, s' := [HandOver(t)], next;
      One(limit, s, HandOver(t));
    } else {
      steps, s' := [HandOver(t), ClearRow(t)], Do(limit, next, ClearRow(t));
      Two(limit, s, HandOver(t), ClearRow(t));
      assert s'.threads == s.threads[t := Idle];
    }
  }

  lemma HolderFails(limit: int, s: State, ev: Event, t: nat) returns (steps: seq<Step>, s': State)
    requires At(s, t, Failing(true)) && s.threads[t].job.ev == ev && (s.threads[t].job.RetryOf? ==> ev in s.acked)
    ensures Only(steps, ev) && Follows(limit, s, steps, s') && HandsOver(s, s', ev, t)
  {
    if s.threads[t].job.Message? {
      steps, s' := QueuesAndAcks(limit, s, ev, t);
    } else {
      steps, s' := EngineFails(limit, s, ev, t);
    }
  }

  // The engine clears the row and resolves the dead letter.
  lemma EngineClears(limit: int, s: State, ev: Event, u: nat) returns (steps: seq<Step>, s': State)
    requires At(s, u, Finished) && s.threads[u].job.RetryOf? && s.threads[u].job.ev == ev
    ensures Only(steps, ev) && Follows(limit, s, steps, s') &&
            s' == s.(threads := s.threads[u := Idle], retry := s.retry - {ev.id}, dead := s'.dead)
    ensures !GivenUp(s, ev) ==> !InDead(s', ev)
  {
    steps, s' := [ClearRow(u), ResolveDead(u)], Do(limit, Do(limit, s, ClearRow(u)), ResolveDead(u));
    Two(limit, s, ClearRow(u), ResolveDead(u));
    assert s'.threads == s.threads[u := Idle];
  }

  // From every such state the event can be lost, without a crash, with both threads idle again.
  lemma MisjudgedDuplicateLoses(limit: int, s: State, ev: Event, t: nat, u: nat) returns (steps: seq<Step>, s': State)
    requires Racing(s, ev, t, u)
    ensures Only(steps, ev) && Follows(limit, s, steps, s') && ev in s'.acked && !Placed(s', ev)
    ensures s'.threads == s.threads[t := Idle][u := Idle] && s'.bus == s.bus
  {
    var a, s1 := EngineMisled(limit, s, ev, t, u);
    var b, s2 := HolderFails(limit, s1, ev, t);
    var c, s3 := EngineClears(limit, s2, ev, u);
    Concatenate(limit, s, a, s1, b, s2);
    Concatenate(limit, s, a + b, s2, c, s3);
    steps, s' := a + b + c, s3;
    assert s3.threads == s.threads[t := Idle][u := Idle];
    assert forall x :: Working(s3, x) ==> Working(s, x) && x != t && x != u && s3.threads[x] == s.threads[x];
    assert forall x :: !UnderWay(s3, x, ev);
  }

  // An engine takes the row while a redelivery claims the event.
  lemma StartsRace(limit: int, s: State, ev: Event, t: nat, u: nat) returns (steps: seq<Step>, s': State)
    requires At(s, t, Started) && s.threads[t].job == Message(ev) && t != u && u in s.threads && s.threads[u].Idle?
    requires InRetry(s, ev) && KeyOf(ev) !in s.processed
    ensures Only(steps, ev) && Follows(limit, s, steps, s')
    ensures s' == s.(threads := s.threads[u := Busy(RetryOf(ev, s.retry[ev.id].attempt, s.retry[ev.id].max), Started)]
                                          [t := Busy(Message(ev), Holding)],
                     processed := s.processed + {KeyOf(ev)})
  {
    steps, s' := [TakeRow(u, ev.id), Claim(t)], Do(limit, Do(limit, s, TakeRow(u, ev.id)), Claim(t));
    Two(limit, s, TakeRow(u, ev.id), Claim(t));
  }

  // Without the condition on duplicates the promise fails, with unique ids and no crash.
  lemma OverlapLosesAnEvent(limit: int, s: State, ev: Event, t: nat, u: nat) returns (steps: seq<Step>)
    requires Initial(s) && t != u && t in s.threads && u in s.threads
    ensures CanRun(limit, s, steps) && Only(steps, ev)
    ensures var s' := After(limit, s, steps);
            ev in s'.acked && !Placed(s', ev) && s'.threads == s.threads && s'.bus == multiset{}
  {
    var a, s1 := FailsOnce(limit, s, ev, t);
    var b, s2 := OverlapsAndLoses(limit, s1, ev, t, u);
    Concatenate(limit, s, a, s1, b, s2);
    steps := a + b;
  }

  lemma OverlapsAndLoses(limit: int, s: State, ev: Event, t: nat, u: nat) returns (steps: seq<Step>, s': State)
    requires t != u && t in s.threads && u in s.threads && (forall x :: x in s.threads ==> s.threads[x].Idle?)
    requires InRetry(s, ev) && KeyOf(ev) !in s.processed && s.dead == map[] && s.noPolicy == {} && s.bus == multiset{}
    ensures Only(steps, ev) && Follows(limit, s, steps, s')
    ensures ev in s'.acked && !Placed(s', ev) && s'.threads == s.threads && s'.bus == multiset{}
  {
    var a, s1 := Delivers(limit, s, ev, t);
    var b, s2 := StartsRace(limit, s1, ev, t, u);
    assert forall x :: Working(s2, x) ==> x == t || x == u;
    var c, s3 := MisjudgedDuplicateLoses(limit, s2, ev, t, u);
    Concatenate(limit, s, a, s1, b, s2);
    Concatenate(limit, s, a + b, s2, c, s3);
    steps, s' := a + b + c, s3;
    assert s3.threads == s.threads;
  }

  // Without unique ids too: the retry queue is keyed by event id alone, so queueing an event drops a
  // waiting one of another source with the same id.
  lemma SharedIdLosesAnEvent(limit: int, s: State, ev: Event, other: Event, t: nat) returns (steps: seq<Step>)
    requires Initial(s) && t in s.threads && ev.id == other.id && ev != other
    ensures CanRun(limit, s, steps)
    ensures var s' := After(limit, s, steps);
            ev in s'.acked && !Placed(s', ev) && s'.threads == s.threads && s'.bus == multiset{}
  {
    var a, s1 := FailsOnce(limit, s, ev, t);
    var b, s2 := FailsOnce(limit, s1, other, t);
    Concatenate(limit, s, a, s1, b, s2);
    steps := a + b;
    assert forall x :: !UnderWay(s2, x, ev);
  }
}
