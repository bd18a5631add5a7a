/**
 No acknowledged event is lost. With unique event ids, and unless a retry engine takes a claim another
 thread still holds for a success, every acknowledged event is claimed, in the retry queue, in the
 dead-letter table and not resolved there, without a policy, on the bus or under way at a worker, in
 every state of every run of overlapping deliveries, retries, crashes and operator steps.
 */
module NoLoss {
  import opened Pipeline
  import opened Claims

  ghost predicate InRetry(s: State, ev: Event) {
    ev.id in s.retry && s.retry[ev.id].ev == ev
  }

  // In the dead-letter table, and not marked resolved there.
  ghost predicate InDead(s: State, ev: Event) {
    ev.id in s.dead && s.dead[ev.id].ev == ev && !s.dead[ev.id].status.Resolved?
  }

  ghost predicate HeldBy(s: State, t: nat, ev: Event) {
    t in s.threads && Holds(s.threads[t]) && s.threads[t].job.ev == ev
  }

  ghost predicate Held(s: State, ev: Event) {
    exists t :: HeldBy(s, t, ev)
  }

  // Claimed for good: nobody is left who could give the claim back.
  ghost predicate Settled(s: State, ev: Event) {
    KeyOf(ev) in s.processed && !Held(s, ev)
  }

  // Nothing is left to do for the event.
  ghost predicate Done(s: State, ev: Event) {
    Settled(s, ev) || ev in s.noPolicy
  }

  // Places an event never leaves without another of them taking over.
  ghost predicate Secured(s: State, ev: Event) {
    Settled(s, ev) || InRetry(s, ev) || InDead(s, ev) || ev in s.noPolicy
  }

  // A worker has the message and has not decided its fate.
  ghost predicate UnderWay(s: State, t: nat, ev: Event) {
    Working(s, t) && s.threads[t].job == Message(ev) && !s.threads[t].phase.Finished?
  }

  ghost predicate OnTheWay(s: State, ev: Event) {
    ev in s.bus || exists t :: UnderWay(s, t, ev)
  }

  ghost predicate Placed(s: State, ev: Event) {
    Secured(s, ev) || OnTheWay(s, ev)
  }

  // ---- The conditions ---------------------------------------------------------------------------------

  // Ids are unique: eventOf names the one event with that id.
  ghost predicate Named(eventOf: string -> Event, ev: Event) {
    eventOf(ev.id) == ev
  }

  // A retry engine finds a duplicate while another thread still holds the event.
  ghost predicate Misjudges(s: State, step: Step) {
    && step.FindDuplicate? && Working(s, step.t) && s.threads[step.t].job.RetryOf?
    && Held(s, s.threads[step.t].job.ev)
  }

  ghost predicate Orderly(eventOf: string -> Event, s: State, step: Step) {
    (step.Publish? ==> Named(eventOf, step.ev)) && !Misjudges(s, step)
  }

  ghost predicate OrderlyRun(eventOf: string -> Event, limit: int, s: State, steps: seq<Step>)
    requires CanRun(limit, s, steps)
    decreases |steps|
  {
    steps == [] ||
    (Orderly(eventOf, s, steps[0]) && OrderlyRun(eventOf, limit, Do(limit, s, steps[0]), steps[1..]))
  }

  // ---- The invariant ----------------------------------------------------------------------------------

  ghost predicate Uniform(eventOf: string -> Event, s: State) {
    && (forall ev :: ev in s.bus ==> Named(eventOf, ev))
    && (forall ev :: ev in s.acked ==> Named(eventOf, ev))
    && (forall t :: Working(s, t) ==> Named(eventOf, s.threads[t].job.ev))
    && (forall id :: id in s.retry ==> s.retry[id].ev == eventOf(id) && eventOf(id).id == id)
    && (forall id :: id in s.dead ==> s.dead[id].ev == eventOf(id) && eventOf(id).id == id)
  }

  // Where the event of a thread is recorded.
  ghost predicate Recorded(s: State, th: Thread) {
    th.Busy? ==>
      if th.job.Message? then th.phase.Finished? ==> Placed(s, th.job.ev)
      else
        match th.phase
        case Finished | Cleared => Done(s, th.job.ev)
        case Parked => InDead(s, th.job.ev) || Done(s, th.job.ev)
        case _ => Secured(s, th.job.ev)
  }

  ghost predicate Kept(eventOf: string -> Event, s: State) {
    && Uniform(eventOf, s) && Exclusive(s)
    && (forall t :: t in s.threads ==> Recorded(s, s.threads[t]))
    && (forall ev :: ev in s.acked ==> Placed(s, ev))
  }

  // Distinct named events have distinct ids, hence distinct keys.
  lemma DistinctIds(eventOf: string -> Event, a: Event, b: Event)
    requires Named(eventOf, a) && Named(eventOf, b) && a != b
    ensures a.id != b.id && KeyOf(a) != KeyOf(b)
  {
  }

  // ---- What a step does -------------------------------------------------------------------------------

  // The event a step is about.
  function Subject(s: State, step: Step): Event
    requires Enabled(s, step)
  {
    match step
    case Publish(ev) => ev
    case Receive(_, ev) => ev
    case TakeRow(_, id) => s.retry[id].ev
    case Replay(id) => s.dead[id].ev
    case Discard(id) => s.dead[id].ev
    case _ => s.threads[step.t].job.ev
  }

  ghost predicate OwnRetry(a: map<string, RetryRow>, b: map<string, RetryRow>, e: Event, limit: int) {
    b == a || b == EnqueueRetry(a, e, limit) || b == a - {e.id}
  }

  ghost predicate OwnDead(a: map<string, DeadRow>, b: map<string, DeadRow>, e: Event) {
    || b == a || b == InsertDeadLetter(a, e)
    || b == SetDeadStatus(a, e.id, Resolved) || b == SetDeadStatus(a, e.id, Retrying) ||
       b == SetDeadStatus(a, e.id, Discarded)
  }

  // From s to s' only entries of the event e changed.
  ghost predicate About(s: State, s': State, e: Event, limit: int) {
    && (s'.processed == s.processed || s'.processed == s.processed + {KeyOf(e)} ||
        s'.processed == s.processed - {KeyOf(e)})
    && OwnRetry(s.retry, s'.retry, e, limit) && OwnDead(s.dead, s'.dead, e)
    && (s'.noPolicy == s.noPolicy || s'.noPolicy == s.noPolicy + {e})
    && (s'.bus == s.bus || s'.bus == s.bus + multiset{e} || s'.bus == s.bus - multiset{e})
    && (s'.acked == s.acked || s'.acked == s.acked + {e})
  }

  // Only thread t moved, to th, before and after busy with nothing but e.
  ghost predicate Moves(s: State, s': State, t: nat, th: Thread, e: Event) {
    && t in s.threads && s'.threads == s.threads[t := th]
    && (s.threads[t].Busy? ==> s.threads[t].job.ev == e) && (th.Busy? ==> th.job.ev == e)
  }

  // ---- Stability --------------------------------------------------------------------------------------

  // From s to s' the event loses no place it had.
  ghost predicate Stable(s: State, s': State, ev: Event) {
    && (Done(s, ev) ==> Done(s', ev))
    && (InDead(s, ev) || Done(s, ev) ==> InDead(s', ev) || Done(s', ev))
    && (Secured(s, ev) ==> Secured(s', ev))
    && (Placed(s, ev) ==> Placed(s', ev))
  }

  lemma RecordedStays(s: State, s': State, th: Thread)
    requires Recorded(s, th) && (th.Busy? ==> Stable(s, s', th.job.ev))
    ensures Recorded(s', th)
  {
  }

  // A step about e leaves the threads on other events alone.
  lemma OthersSame(s: State, s': State, t: nat, th: Thread, e: Event, ev: Event)
    requires Moves(s, s', t, th, e) && ev != e
    ensures Held(s', ev) <==> Held(s, ev)
    ensures (exists u :: UnderWay(s', u, ev)) <==> (exists u :: UnderWay(s, u, ev))
  {
    assert forall u :: HeldBy(s', u, ev) <==> HeldBy(s, u, ev);
    assert forall u :: UnderWay(s', u, ev) <==> UnderWay(s, u, ev);
  }

  lemma OthersKeepTables(eventOf: string -> Event, s: State, s': State, e: Event, limit: int, ev: Event)
    requires About(s, s', e, limit) && Named(eventOf, e) && Named(eventOf, ev) && ev != e
    ensures KeyOf(ev) in s'.processed <==> KeyOf(ev) in s.processed
    ensures (InRetry(s, ev) ==> InRetry(s', ev)) && (InDead(s, ev) ==> InDead(s', ev))
    ensures (ev in s.noPolicy ==> ev in s'.noPolicy) && (ev in s.bus ==> ev in s'.bus)
  {
    DistinctIds(eventOf, ev, e);
  }

  lemma OthersStable(eventOf: string -> Event, s: State, s': State, t: nat, th: Thread, e: Event, limit: int, ev: Event)
    requires Moves(s, s', t, th, e) && About(s, s', e, limit) && Named(eventOf, e) && Named(eventOf, ev) && ev != e
    ensures Stable(s, s', ev)
  {
    OthersSame(s, s', t, th, e, ev);
    OthersKeepTables(eventOf, s, s', e, limit, ev);
  }

  lemma UniformKept(eventOf: string -> Event, s: State, s': State, e: Event, limit: int)
    requires Uniform(eventOf, s) && About(s, s', e, limit) && Named(eventOf, e)
    requires forall u :: Working(s', u) ==> Named(eventOf, s'.threads[u].job.ev)
    ensures Uniform(eventOf, s')
  {
  }

  // What the acting thread owes its own event.
  ghost predicate OwnKept(s: State, s': State, th: Thread, e: Event) {
    Stable(s, s', e) && Recorded(s', th) && (e in s'.acked ==> Placed(s', e))
  }

  lemma MoveKept(eventOf: string -> Event, s: State, s': State, t: nat, th: Thread, e: Event, limit: int)
    requires Kept(eventOf, s) && Exclusive(s') && Named(eventOf, e)
    requires Moves(s, s', t, th, e) && About(s, s', e, limit) && OwnKept(s, s', th, e)
    ensures Kept(eventOf, s')
  {
    forall u | Working(s', u) ensures Named(eventOf, s'.threads[u].job.ev) {
      if u != t { assert Working(s, u); }
    }
    UniformKept(eventOf, s, s', e, limit);
    forall u | u in s'.threads ensures Recorded(s', s'.threads[u]) {
      if u != t {
        assert s.threads[u].Busy? ==> Working(s, u);
        if s.threads[u].Busy? && s.threads[u].job.ev != e {
          OthersStable(eventOf, s, s', t, th, e, limit, s.threads[u].job.ev);
        }
        RecordedStays(s, s', s.threads[u]);
      }
    }
    forall ev | ev in s'.acked ensures Placed(s', ev) {
      if ev != e { OthersStable(eventOf, s, s', t, th, e, limit, ev); }
    }
  }

  lemma TableKept(eventOf: string -> Event, s: State, s': State, e: Event, limit: int)
    requires Kept(eventOf, s) && Exclusive(s') && Named(eventOf, e) && s'.threads == s.threads
    requires About(s, s', e, limit) && Stable(s, s', e) && s'.acked == s.acked
    ensures Kept(eventOf, s')
  {
    assert forall u :: Working(s', u) <==> Working(s, u);
    UniformKept(eventOf, s, s', e, limit);
    forall ev | Named(eventOf, ev) ensures Stable(s, s', ev) {
      if ev != e {
        assert forall u :: HeldBy(s', u, ev) <==> HeldBy(s, u, ev);
        assert forall u :: UnderWay(s', u, ev) <==> UnderWay(s, u, ev);
        OthersKeepTables(eventOf, s, s', e, limit, ev);
      }
    }
    forall u | u in s'.threads ensures Recorded(s', s'.threads[u]) {
      assert s.threads[u].Busy? ==> Working(s, u);
      RecordedStays(s, s', s.threads[u]);
    }
  }

  // ---- Each step --------------------------------------------------------------------------------------

  // With thread t moved to th, who else holds or carries the event is unchanged.
  lemma OwnThreads(s: State, s': State, t: nat, th: Thread, e: Event)
    requires Moves(s, s', t, th, e)
    ensures Held(s', e) <==> Holds(th) || exists u :: u != t && HeldBy(s, u, e)
    ensures (exists u :: UnderWay(s', u, e)) <==>
            (th.Busy? && th.job.Message? && !th.phase.Finished?) || exists u :: u != t && UnderWay(s, u, e)
  {
    assert HeldBy(s', t, e) <==> Holds(th);
    assert th.Busy? && th.job.Message? ==> th.job == Message(e);
    assert UnderWay(s', t, e) <==> th.Busy? && th.job.Message? && !th.phase.Finished?;
    assert forall u :: u != t ==> (HeldBy(s', u, e) <==> HeldBy(s, u, e));
    assert forall u :: u != t ==> (UnderWay(s', u, e) <==> UnderWay(s, u, e));
  }

  lemma NoOtherHolder(s: State, t: nat, e: Event)
    requires Exclusive(s) && HeldBy(s, t, e)
    ensures forall u :: u != t ==> !HeldBy(s, u, e)
  {
  }

  // The claim moves to t, or stays with it.
  lemma KeepsHolding(s: State, s': State, t: nat, th: Thread, e: Event)
    requires Moves(s, s', t, th, e) && Holds(th) && s.threads[t].Busy? && th.job == s.threads[t].job &&
             Recorded(s, s.threads[t])
    requires s'.processed == s.processed + {KeyOf(e)} && (Holds(s.threads[t]) || KeyOf(e) !in s.processed)
    requires s.threads[t].phase.Started? || Holds(s.threads[t])
    requires s'.retry == s.retry && s'.dead == s.dead && s'.noPolicy == s.noPolicy && s'.bus == s.bus &&
             s'.acked == s.acked
    requires e in s.acked ==> Placed(s, e)
    ensures OwnKept(s, s', th, e)
  {
    OwnThreads(s, s', t, th, e);
    assert Holds(s.threads[t]) ==> HeldBy(s, t, e);
    assert th.job.Message? ==> UnderWay(s, t, e);
  }

  // A claim kept for good, by its only holder.
  lemma ConcludesClaim(s: State, s': State, t: nat, th: Thread, e: Event)
    requires Exclusive(s) && Moves(s, s', t, th, e) && HeldBy(s, t, e) && th == Busy(s.threads[t].job, Finished)
    requires s'.processed == s.processed
    requires s'.retry == s.retry && s'.dead == s.dead && s'.noPolicy == s.noPolicy && s'.bus == s.bus &&
             s'.acked == s.acked
    ensures OwnKept(s, s', th, e)
  {
    OwnThreads(s, s', t, th, e);
    NoOtherHolder(s, t, e);
    assert Settled(s', e);
  }

  // A claim given back.
  lemma ReleasesClaim(s: State, s': State, t: nat, th: Thread, e: Event)
    requires Moves(s, s', t, th, e) && HeldBy(s, t, e) && th.Busy? && th.job == s.threads[t].job &&
             Recorded(s, s.threads[t])
    requires (th.phase.Failing? && s'.noPolicy == s.noPolicy) || (th.phase.Finished? && s'.noPolicy == s.noPolicy + {e})
    requires s'.retry == s.retry && s'.dead == s.dead && s'.bus == s.bus && s'.acked == s.acked &&
             (e in s.acked ==> Placed(s, e))
    ensures OwnKept(s, s', th, e)
  {
    OwnThreads(s, s', t, th, e);
    assert th.job.Message? ==> UnderWay(s, t, e);
  }

  // A refused claim: somebody else holds it, or nobody ever will.
  lemma RefusedClaim(s: State, s': State, t: nat, th: Thread, e: Event)
    requires Moves(s, s', t, th, e) && At(s, t, Started) && KeyOf(e) in s.processed &&
             th == Busy(s.threads[t].job, Finished)
    requires s.threads[t].job.RetryOf? ==> !Held(s, e)
    requires forall u :: u in s.threads ==> Recorded(s, s.threads[u])
    requires s'.processed == s.processed && s'.retry == s.retry && s'.dead == s.dead && s'.noPolicy == s.noPolicy
    requires s'.bus == s.bus && s'.acked == s.acked
    ensures OwnKept(s, s', th, e)
  {
    OwnThreads(s, s', t, th, e);
    assert !HeldBy(s, t, e);
    if Held(s, e) {
      var u :| HeldBy(s, u, e);
      assert u != t && Recorded(s, s.threads[u]);
      if s.threads[u].job.Message? {
        assert s.threads[u].job == Message(e) && UnderWay(s, u, e);
      } else {
        assert Secured(s, e) && Secured(s', e);
      }
    } else {
      assert Settled(s', e);
    }
    assert Placed(s', e);
  }

  // The event is handed over to a table.
  lemma EntersTable(s: State, s': State, t: nat, th: Thread, e: Event)
    requires Moves(s, s', t, th, e) && s.threads[t].Busy? && s.threads[t].phase.Failing?
    requires (InRetry(s', e) || InDead(s', e)) && !Holds(th)
    requires (InDead(s, e) ==> InDead(s', e)) && (th.Busy? && th.job.RetryOf? ==> th.phase.Parked? && InDead(s', e))
    requires s'.processed == s.processed && s'.noPolicy == s.noPolicy && s'.acked == s.acked
    ensures OwnKept(s, s', th, e)
  {
    OwnThreads(s, s', t, th, e);
    assert !HeldBy(s, t, e);
  }

  lemma PhaseStepKept(eventOf: string -> Event, limit: int, s: State, step: Step)
    requires Kept(eventOf, s) && Enabled(s, step) && Exclusive(Do(limit, s, step))
    requires step.Claim? || step.Read? || step.Write?
    ensures Kept(eventOf, Do(limit, s, step))
  {
    var s', t, e := Do(limit, s, step), step.t, Subject(s, step);
    assert Working(s, t) && Recorded(s, s.threads[t]);
    assert !step.Claim? ==> HeldBy(s, t, e) && s.processed == s.processed + {KeyOf(e)};
    KeepsHolding(s, s', t, s'.threads[t], e);
    MoveKept(eventOf, s, s', t, s'.threads[t], e, limit);
  }

  lemma EndStepKept(eventOf: string -> Event, limit: int, s: State, step: Step)
    requires Kept(eventOf, s) && Enabled(s, step) && Exclusive(Do(limit, s, step)) && (step.Drop? || step.CommitState?)
    ensures Kept(eventOf, Do(limit, s, step))
  {
    var s', t, e := Do(limit, s, step), step.t, Subject(s, step);
    assert Working(s, t) && HeldBy(s, t, e);
    ConcludesClaim(s, s', t, s'.threads[t], e);
    MoveKept(eventOf, s, s', t, s'.threads[t], e, limit);
  }

  lemma ReleaseStepKept(eventOf: string -> Event, limit: int, s: State, step: Step)
    requires Kept(eventOf, s) && Enabled(s, step) && Exclusive(Do(limit, s, step)) && (step.FindNoPolicy? || step.Fail?)
    ensures Kept(eventOf, Do(limit, s, step))
  {
    var s', t, e := Do(limit, s, step), step.t, Subject(s, step);
    assert Working(s, t) && HeldBy(s, t, e) && Recorded(s, s.threads[t]);
    ReleasesClaim(s, s', t, s'.threads[t], e);
    MoveKept(eventOf, s, s', t, s'.threads[t], e, limit);
  }

  lemma DuplicateKept(eventOf: string -> Event, limit: int, s: State, t: nat)
    requires Kept(eventOf, s) && Enabled(s, FindDuplicate(t)) && Exclusive(Do(limit, s, FindDuplicate(t)))
    requires !Misjudges(s, FindDuplicate(t))
    ensures Kept(eventOf, Do(limit, s, FindDuplicate(t)))
  {
    var s', e := Do(limit, s, FindDuplicate(t)), s.threads[t].job.ev;
    assert Working(s, t);
    RefusedClaim(s, s', t, s'.threads[t], e);
    MoveKept(eventOf, s, s', t, s'.threads[t], e, limit);
  }

  lemma HandOverOwn(limit: int, s: State, t: nat)
    requires Working(s, t) && s.threads[t].phase.Failing?
    ensures OwnKept(s, HandedOver(limit, s, t), HandedOver(limit, s, t).threads[t], s.threads[t].job.ev)
  {
    var s' := HandedOver(limit, s, t);
    EntersTable(s, s', t, s'.threads[t], s.threads[t].job.ev);
  }

  lemma HandOverAbout(limit: int, s: State, t: nat)
    requires Working(s, t) && s.threads[t].phase.Failing?
    ensures var s', job := HandedOver(limit, s, t), s.threads[t].job;
            && Moves(s, s', t, s'.threads[t], job.ev)
            && About(s, s', job.ev, if job.Message? then limit else job.max)
  {
  }

  lemma HandOverKept(eventOf: string -> Event, limit: int, s: State, t: nat)
    requires Kept(eventOf, s) && Working(s, t) && s.threads[t].phase.Failing? && Exclusive(HandedOver(limit, s, t))
    ensures Kept(eventOf, HandedOver(limit, s, t))
  {
    var s', job := HandedOver(limit, s, t), s.threads[t].job;
    HandOverOwn(limit, s, t);
    HandOverAbout(limit, s, t);
    MoveKept(eventOf, s, s', t, s'.threads[t], job.ev, if job.Message? then limit else job.max);
  }

  lemma ReceiveKept(eventOf: string -> Event, limit: int, s: State, t: nat, e: Event)
    requires Kept(eventOf, s) && Enabled(s, Receive(t, e)) && Exclusive(Do(limit, s, Receive(t, e)))
    ensures Kept(eventOf, Do(limit, s, Receive(t, e)))
  {
    var s', th := Do(limit, s, Receive(t, e)), Busy(Message(e), Started);
    OwnThreads(s, s', t, th, e);
    assert !HeldBy(s, t, e) && !UnderWay(s, t, e) && UnderWay(s', t, e);
    MoveKept(eventOf, s, s', t, th, e, limit);
  }

  lemma TakeKept(eventOf: string -> Event, limit: int, s: State, t: nat, id: string)
    requires Kept(eventOf, s) && Enabled(s, TakeRow(t, id)) && Exclusive(Do(limit, s, TakeRow(t, id)))
    ensures Kept(eventOf, Do(limit, s, TakeRow(t, id)))
  {
    var s', e := Do(limit, s, TakeRow(t, id)), s.retry[id].ev;
    assert e.id == id && InRetry(s, e) && InRetry(s', e);
    OwnThreads(s, s', t, s'.threads[t], e);
    assert !HeldBy(s, t, e) && !UnderWay(s, t, e);
    MoveKept(eventOf, s, s', t, s'.threads[t], e, limit);
  }

  lemma AcknowledgeKept(eventOf: string -> Event, limit: int, s: State, t: nat)
    requires Kept(eventOf, s) && Enabled(s, Acknowledge(t)) && Exclusive(Do(limit, s, Acknowledge(t)))
    ensures Kept(eventOf, Do(limit, s, Acknowledge(t)))
  {
    var s', e := Do(limit, s, Acknowledge(t)), s.threads[t].job.ev;
    assert Working(s, t) && Recorded(s, s.threads[t]);
    OwnThreads(s, s', t, Idle, e);
    assert !HeldBy(s, t, e) && !UnderWay(s, t, e);
    MoveKept(eventOf, s, s', t, Idle, e, limit);
  }

  // The row goes, and the event stays settled, without a policy, or dead-lettered.
  lemma ClearedOwn(s: State, s': State, t: nat, th: Thread, e: Event)
    requires Moves(s, s', t, th, e) && s.threads[t].Busy? && s.threads[t].job.RetryOf? && Recorded(s, s.threads[t])
    requires (s.threads[t].phase.Finished? && th == Busy(s.threads[t].job, Cleared)) ||
             (s.threads[t].phase.Parked? && th.Idle?)
    requires s'.processed == s.processed && s'.retry == s.retry - {e.id} && s'.dead == s.dead &&
             s'.noPolicy == s.noPolicy
    requires s'.bus == s.bus && s'.acked == s.acked
    ensures OwnKept(s, s', th, e)
  {
    OwnThreads(s, s', t, th, e);
    assert !HeldBy(s, t, e);
  }

  lemma ClearKept(eventOf: string -> Event, limit: int, s: State, t: nat)
    requires Kept(eventOf, s) && Enabled(s, ClearRow(t)) && Exclusive(Do(limit, s, ClearRow(t)))
    ensures Kept(eventOf, Do(limit, s, ClearRow(t)))
  {
    var s', e := Do(limit, s, ClearRow(t)), s.threads[t].job.ev;
    assert Working(s, t) && Recorded(s, s.threads[t]);
    ClearedOwn(s, s', t, s'.threads[t], e);
    MoveKept(eventOf, s, s', t, s'.threads[t], e, limit);
  }

  lemma ResolveKept(eventOf: string -> Event, limit: int, s: State, t: nat)
    requires Kept(eventOf, s) && Enabled(s, ResolveDead(t)) && Exclusive(Do(limit, s, ResolveDead(t)))
    ensures Kept(eventOf, Do(limit, s, ResolveDead(t)))
  {
    var s', e := Do(limit, s, ResolveDead(t)), s.threads[t].job.ev;
    assert Working(s, t) && Named(eventOf, e) && Recorded(s, s.threads[t]);
    ResolvedOwn(s, s', t, e);
    MoveKept(eventOf, s, s', t, Idle, e, limit);
  }

  lemma ResolvedOwn(s: State, s': State, t: nat, e: Event)
    requires Moves(s, s', t, Idle, e) && s.threads[t].Busy? && s.threads[t].job.RetryOf? && s.threads[t].phase.Cleared?
    requires s'.processed == s.processed && s'.retry == s.retry && s'.noPolicy == s.noPolicy && s'.bus == s.bus
    requires s'.acked == s.acked && Done(s, e)
    ensures OwnKept(s, s', Idle, e)
  {
    OwnThreads(s, s', t, Idle, e);
    assert !HeldBy(s, t, e) && !UnderWay(s, t, e);
  }

  lemma CrashKept(eventOf: string -> Event, limit: int, s: State, t: nat)
    requires Kept(eventOf, s) && Working(s, t) && Exclusive(Crashed(s, t))
    ensures Kept(eventOf, Crashed(s, t))
  {
    var s', e := Crashed(s, t), s.threads[t].job.ev;
    assert Recorded(s, s.threads[t]);
    OwnThreads(s, s', t, Idle, e);
    MoveKept(eventOf, s, s', t, Idle, e, limit);
  }

  lemma QueueStepKept(eventOf: string -> Event, limit: int, s: State, step: Step)
    requires Kept(eventOf, s) && Enabled(s, step) && Exclusive(Do(limit, s, step)) && Orderly(eventOf, s, step)
    requires step.Publish? || step.Replay? || step.Discard?
    ensures Kept(eventOf, Do(limit, s, step))
  {
    var s', e := Do(limit, s, step), Subject(s, step);
    assert forall u :: (HeldBy(s', u, e) <==> HeldBy(s, u, e)) && (UnderWay(s', u, e) <==> UnderWay(s, u, e));
    TableKept(eventOf, s, s', e, limit);
  }

  // Every step of every thread and operator, whatever else is going on.
  lemma StepKept(eventOf: string -> Event, limit: int, s: State, step: Step)
    requires Kept(eventOf, s) && Safe(s) && Enabled(s, step) && Orderly(eventOf, s, step)
    ensures Kept(eventOf, Do(limit, s, step))
  {
    StepSafe(limit, s, step);
    if step.Claim? || step.Read? || step.Write? { PhaseStepKept(eventOf, limit, s, step); }
    else if step.Drop? || step.CommitState? { EndStepKept(eventOf, limit, s, step); }
    else if step.FindNoPolicy? || step.Fail? { ReleaseStepKept(eventOf, limit, s, step); }
    else if step.FindDuplicate? { DuplicateKept(eventOf, limit, s, step.t); }
    else if step.HandOver? { HandOverKept(eventOf, limit, s, step.t); }
    else if step.Receive? { ReceiveKept(eventOf, limit, s, step.t, step.ev); }
    else if step.TakeRow? { TakeKept(eventOf, limit, s, step.t, step.id); }
    else if step.Acknowledge? { AcknowledgeKept(eventOf, limit, s, step.t); }
    else if step.ClearRow? { ClearKept(eventOf, limit, s, step.t); }
    else if step.ResolveDead? { ResolveKept(eventOf, limit, s, step.t); }
    else if step.Crash? { CrashKept(eventOf, limit, s, step.t); }
    else { QueueStepKept(eventOf, limit, s, step); }
  }

  // ---- The theorem ------------------------------------------------------------------------------------

  lemma {:induction false} RunKept(eventOf: string -> Event, limit: int, s: State, steps: seq<Step>)
    requires Kept(eventOf, s) && Safe(s) && CanRun(limit, s, steps) && OrderlyRun(eventOf, limit, s, steps)
    ensures Kept(eventOf, After(limit, s, steps)) && Safe(After(limit, s, steps))
    decreases |steps|
  {
    if steps != [] {
      StepKept(eventOf, limit, s, steps[0]);
      StepSafe(limit, s, steps[0]);
      RunKept(eventOf, limit, Do(limit, s, steps[0]), steps[1..]);
    }
  }

  lemma NoAcknowledgedEventLost(eventOf: string -> Event, limit: int, s: State, steps: seq<Step>, ev: Event)
    requires Initial(s) && CanRun(limit, s, steps) && OrderlyRun(eventOf, limit, s, steps)
    requires ev in After(limit, s, steps).acked
    ensures Placed(After(limit, s, steps), ev)
  {
    RunKept(eventOf, limit, s, steps);
  }
}
