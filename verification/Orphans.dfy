/**
 What a claim means. A claimed event is held by a thread, concluded (committed or dropped), or orphaned
 by a crash between its claim and its conclusion. An orphaned event counts as processed and is never
 applied; it happens exactly when a thread crashes while it holds the claim.
 */
module Orphans {
  import opened Pipeline
  import opened Claims
  import opened NoLoss

  ghost predicate HeldKey(s: State, key: Key) {
    exists t :: HolderOf(s, t, key)
  }

  ghost predicate HolderOf(s: State, t: nat, key: Key) {
    t in s.threads && Holds(s.threads[t]) && KeyOf(s.threads[t].job.ev) == key
  }

  ghost predicate Committed(s: State, key: Key) {
    exists i :: 0 <= i < |s.commits| && KeyOf(s.commits[i].ev) == key
  }

  ghost predicate Dropped(s: State, key: Key) {
    exists ev :: ev in s.dropped && KeyOf(ev) == key
  }

  ghost predicate Concluded(s: State, key: Key) {
    Committed(s, key) || Dropped(s, key)
  }

  ghost predicate Orphaned(s: State, key: Key) {
    key in s.processed && !HeldKey(s, key) && !Concluded(s, key)
  }

  // A dropped event stays claimed, by no thread.
  ghost predicate DroppedForGood(s: State) {
    && (forall ev :: ev in s.dropped ==> KeyOf(ev) in s.processed)
    && (forall ev, t :: ev in s.dropped ==> !HolderOf(s, t, KeyOf(ev)))
  }

  ghost predicate Clear(s: State) {
    Safe(s) && DroppedForGood(s)
  }

  // A claimed event is in exactly one of three states.
  lemma ClaimedMeans(s: State, key: Key)
    requires Clear(s)
    ensures HeldKey(s, key) || Concluded(s, key) ==> key in s.processed
    ensures key in s.processed <==> HeldKey(s, key) || Concluded(s, key) || Orphaned(s, key)
    ensures !(HeldKey(s, key) && Concluded(s, key)) && !(Orphaned(s, key) && (HeldKey(s, key) || Concluded(s, key)))
  {
    if HeldKey(s, key) {
      var t :| HolderOf(s, t, key);
    }
  }

  // ---- Steps ------------------------------------------------------------------------------------------

  // Claims, holders and histories are the same.
  ghost predicate Untouched(s: State, s': State) {
    && s'.processed == s.processed && s'.commits == s.commits && s'.dropped == s.dropped
    && forall t, key :: HolderOf(s', t, key) <==> HolderOf(s, t, key)
  }

  lemma MoveUntouched(s: State, s': State, t: nat, th: Thread)
    requires s'.processed == s.processed && s'.commits == s.commits && s'.dropped == s.dropped
    requires t in s.threads && s'.threads == s.threads[t := th]
    requires Holds(th) <==> Holds(s.threads[t])
    requires Holds(th) ==> th.job == s.threads[t].job
    ensures Untouched(s, s')
  {
  }

  lemma QueueStepUntouched(limit: int, s: State, step: Step)
    requires Enabled(s, step) && (step.Publish? || step.Receive? || step.TakeRow? || step.Replay? || step.Discard?)
    ensures Untouched(s, Do(limit, s, step))
  {
    var s' := Do(limit, s, step);
    if step.Receive? || step.TakeRow? { MoveUntouched(s, s', step.t, s'.threads[step.t]); }
  }

  lemma PhaseStepUntouched(limit: int, s: State, step: Step)
    requires Enabled(s, step) && (step.FindDuplicate? || step.Read? || step.Write? || step.HandOver?)
    ensures Untouched(s, Do(limit, s, step))
  {
    var s' := Do(limit, s, step);
    MoveUntouched(s, s', step.t, s'.threads[step.t]);
  }

  lemma ClosingStepUntouched(limit: int, s: State, step: Step)
    requires Enabled(s, step) && (step.Acknowledge? || step.ClearRow? || step.ResolveDead?)
    ensures Untouched(s, Do(limit, s, step))
  {
    var s' := Do(limit, s, step);
    MoveUntouched(s, s', step.t, s'.threads[step.t]);
  }

  // From s to s' the key becomes orphaned exactly if now holds.
  ghost predicate Orphans(s: State, s': State, key: Key, now: bool) {
    DroppedForGood(s') && (Orphaned(s', key) <==> Orphaned(s, key) || now)
  }

  lemma UntouchedOrphans(s: State, s': State, key: Key)
    requires DroppedForGood(s) && Untouched(s, s')
    ensures Orphans(s, s', key, false)
  {
    assert HeldKey(s', key) <==> HeldKey(s, key);
  }

  lemma ClaimOrphans(limit: int, s: State, t: nat, key: Key)
    requires Clear(s) && Enabled(s, Claim(t))
    ensures Orphans(s, Do(limit, s, Claim(t)), key, false)
  {
    var s' := Do(limit, s, Claim(t));
    var own := KeyOf(s.threads[t].job.ev);
    assert HolderOf(s', t, own);
    assert forall u, k :: k != own ==> (HolderOf(s', u, k) <==> HolderOf(s, u, k));
    assert forall ev :: ev in s.dropped ==> KeyOf(ev) != own;
    assert key != own ==> (HeldKey(s', key) <==> HeldKey(s, key));
  }

  // A thread lets go of its claim: it gives it back, concludes it, or crashes.
  lemma LetGo(s: State, s': State, t: nat, th: Thread, key: Key)
    requires Clear(s) && t in s.threads && Holds(s.threads[t]) && !Holds(th) && s'.threads == s.threads[t := th]
    requires var ev := s.threads[t].job.ev;
             || (s'.processed == s.processed - {KeyOf(ev)} && s'.commits == s.commits && s'.dropped == s.dropped)
             || (s'.processed == s.processed && s'.dropped == s.dropped + {ev} && s'.commits == s.commits)
             || (s'.processed == s.processed && s'.dropped == s.dropped && |s'.commits| == |s.commits| + 1
                 && s'.commits[..|s.commits|] == s.commits && s'.commits[|s.commits|].ev == ev)
             || (s'.processed == s.processed && s'.commits == s.commits && s'.dropped == s.dropped)
    ensures Orphans(s, s', key, key == KeyOf(s.threads[t].job.ev) &&
                                s'.processed == s.processed && s'.commits == s.commits && s'.dropped == s.dropped)
  {
    var ev := s.threads[t].job.ev;
    var own := KeyOf(ev);
    assert HolderOf(s, t, own);
    ClaimedMeans(s, own);
    assert forall u :: !HolderOf(s', u, own);
    assert forall u, k :: k != own ==> (HolderOf(s', u, k) <==> HolderOf(s, u, k));
    assert forall e :: e in s.dropped ==> KeyOf(e) != own;
    assert key != own ==> (HeldKey(s', key) <==> HeldKey(s, key));
    assert forall i :: 0 <= i < |s.commits| ==> s'.commits[i] == s.commits[i];
    if Committed(s, key) {
      var i :| 0 <= i < |s.commits| && KeyOf(s.commits[i].ev) == key;
      assert KeyOf(s'.commits[i].ev) == key;
    }
  }

  lemma ConcludeOrphans(limit: int, s: State, step: Step, key: Key)
    requires Clear(s) && Enabled(s, step) && (step.Drop? || step.CommitState?)
    ensures Orphans(s, Do(limit, s, step), key, false)
  {
    var s', t := Do(limit, s, step), step.t;
    ClaimedMeans(s, KeyOf(s.threads[t].job.ev));
    assert HolderOf(s, t, KeyOf(s.threads[t].job.ev));
    assert step.Drop? ==> s.threads[t].job.ev in s'.dropped && s.threads[t].job.ev !in s.dropped;
    LetGo(s, s', t, s'.threads[t], key);
  }

  lemma ReleaseOrphans(limit: int, s: State, step: Step, key: Key)
    requires Clear(s) && Enabled(s, step) && (step.Fail? || step.FindNoPolicy?)
    ensures Orphans(s, Do(limit, s, step), key, false)
  {
    var s', t := Do(limit, s, step), step.t;
    assert KeyOf(s.threads[t].job.ev) in s.processed;
    LetGo(s, s', t, s'.threads[t], key);
  }

  lemma CrashOrphans(limit: int, s: State, t: nat, key: Key)
    requires Clear(s) && Enabled(s, Crash(t))
    ensures Orphans(s, Do(limit, s, Crash(t)), key, HolderOf(s, t, key))
  {
    var s' := Do(limit, s, Crash(t));
    if Holds(s.threads[t]) {
      LetGo(s, s', t, Idle, key);
    } else {
      MoveUntouched(s, s', t, Idle);
      UntouchedOrphans(s, s', key);
    }
  }

  // A step orphans an event if and only if it is the crash of the thread that holds it, and an orphaned
  // event stays orphaned.
  lemma StepOrphans(limit: int, s: State, step: Step, key: Key)
    requires Clear(s) && Enabled(s, step)
    ensures Clear(Do(limit, s, step))
    ensures Orphaned(Do(limit, s, step), key) <==> Orphaned(s, key) || (step.Crash? && HolderOf(s, step.t, key))
  {
    StepSafe(limit, s, step);
    if step.Claim? { ClaimOrphans(limit, s, step.t, key); }
    else if step.Drop? || step.CommitState? { ConcludeOrphans(limit, s, step, key); }
    else if step.Fail? || step.FindNoPolicy? { ReleaseOrphans(limit, s, step, key); }
    else if step.Crash? { CrashOrphans(limit, s, step.t, key); }
    else {
      if step.FindDuplicate? || step.Read? || step.Write? || step.HandOver? { PhaseStepUntouched(limit, s, step); }
      else if step.Acknowledge? || step.ClearRow? || step.ResolveDead? { ClosingStepUntouched(limit, s, step); }
      else { QueueStepUntouched(limit, s, step); }
      UntouchedOrphans(s, Do(limit, s, step), key);
    }
  }

  // ---- Runs -------------------------------------------------------------------------------------------

  // At some step of the run the thread holding the key crashed.
  ghost predicate HolderCrashes(limit: int, s: State, steps: seq<Step>, key: Key)
    requires CanRun(limit, s, steps)
    decreases |steps|
  {
    steps != [] &&
    ((steps[0].Crash? && HolderOf(s, steps[0].t, key)) || HolderCrashes(limit, Do(limit, s, steps[0]), steps[1..], key))
  }

  lemma {:induction false} RunOrphans(limit: int, s: State, steps: seq<Step>, key: Key)
    requires Clear(s) && CanRun(limit, s, steps)
    ensures Clear(After(limit, s, steps))
    ensures Orphaned(After(limit, s, steps), key) <==> Orphaned(s, key) || HolderCrashes(limit, s, steps, key)
    decreases |steps|
  {
    if steps != [] {
      StepOrphans(limit, s, steps[0], key);
      RunOrphans(limit, Do(limit, s, steps[0]), steps[1..], key);
    }
  }

  // After any run an event is orphaned if and only if the thread holding it crashed.
  lemma OrphanedExactly(limit: int, s: State, steps: seq<Step>, key: Key)
    requires Initial(s) && CanRun(limit, s, steps)
    ensures Orphaned(After(limit, s, steps), key) <==> HolderCrashes(limit, s, steps, key)
  {
    RunOrphans(limit, s, steps, key);
  }

  // An orphaned event is never applied: no later run commits it, and every later delivery of it is a
  // duplicate.
  lemma OrphanNeverApplied(limit: int, s: State, steps: seq<Step>, more: seq<Step>, key: Key)
    requires Initial(s) && CanRun(limit, s, steps) && CanRun(limit, After(limit, s, steps), more)
    requires HolderCrashes(limit, s, steps, key)
    ensures var s' := After(limit, After(limit, s, steps), more);
            !Committed(s', key) && !HeldKey(s', key) && key in s'.processed
  {
    RunOrphans(limit, s, steps, key);
    RunOrphans(limit, After(limit, s, steps), more, key);
  }

  // Every acknowledged event, accounted for: concluded, or on its way to a conclusion, or parked; or
  // orphaned, and then a crash of its holder is to blame.
  lemma AcknowledgedEventAccounted(eventOf: string -> Event, limit: int, s: State, steps: seq<Step>, ev: Event)
    requires Initial(s) && CanRun(limit, s, steps) && OrderlyRun(eventOf, limit, s, steps)
    requires ev in After(limit, s, steps).acked
    ensures var s' := After(limit, s, steps);
            || Concluded(s', KeyOf(ev)) || HeldKey(s', KeyOf(ev))
            || InRetry(s', ev) || InDead(s', ev) || ev in s'.noPolicy || OnTheWay(s', ev)
            || HolderCrashes(limit, s, steps, KeyOf(ev))
  {
    var s' := After(limit, s, steps);
    NoAcknowledgedEventLost(eventOf, limit, s, steps, ev);
    RunOrphans(limit, s, steps, KeyOf(ev));
    ClaimedMeans(s', KeyOf(ev));
  }
}
