/**
 The claim as a lock and as a commit mark: under every interleaving of workers, redeliveries,
 failures, retries and crashes at most one thread applies an event, an event commits at most once,
 and it leaves either no ledger row or exactly one per target.
 */
module Claims {
  import opened Pipeline

  ghost predicate Exclusive(s: State) {
    && (forall t :: t in s.threads && Holds(s.threads[t]) ==> KeyOf(s.threads[t].job.ev) in s.processed)
    && (forall t, u :: t in s.threads && u in s.threads && t != u && Holds(s.threads[t]) && Holds(s.threads[u]) ==>
          KeyOf(s.threads[t].job.ev) != KeyOf(s.threads[u].job.ev))
  }

  // A committed event stays claimed, by no thread, and is never committed again.
  ghost predicate CommittedOnce(s: State) {
    && (forall i, j :: 0 <= i < j < |s.commits| ==> KeyOf(s.commits[i].ev) != KeyOf(s.commits[j].ev))
    && (forall i :: 0 <= i < |s.commits| ==> KeyOf(s.commits[i].ev) in s.processed)
    && (forall i, t ::
          0 <= i < |s.commits| && t in s.threads && Holds(s.threads[t]) ==>
            KeyOf(s.threads[t].job.ev) != KeyOf(s.commits[i].ev))
  }

  function AllRows(commits: seq<Commit>): seq<LedgerRow> {
    if commits == [] then [] else AllRows(commits[..|commits| - 1]) + RowsFor(commits[|commits| - 1])
  }

  ghost predicate Safe(s: State) {
    Exclusive(s) && CommittedOnce(s) && s.ledger == AllRows(s.commits)
  }

  // ---- Steps ----------------------------------------------------------------------------------------

  // The thread holds no claim it did not hold, nor applies anything it did not.
  ghost predicate Gained(a: Thread, b: Thread) {
    && (Holds(b) ==> Holds(a) && b.job == a.job)
    && (b.Busy? && b.phase.Applying? ==> a.Busy? && a.phase.Applying? && a.phase.read == b.phase.read)
  }

  // Claims, versions, commits and ledger are the same, and no thread gained anything.
  ghost predicate Bystander(s: State, s': State) {
    && s'.processed == s.processed && s'.commits == s.commits && s'.ledger == s.ledger && s'.versions == s.versions
    && s'.threads.Keys == s.threads.Keys && forall t :: t in s.threads ==> Gained(s.threads[t], s'.threads[t])
  }

  lemma MoveIsBystander(s: State, s': State, t: nat, th: Thread)
    requires s'.processed == s.processed && s'.commits == s.commits && s'.ledger == s.ledger &&
             s'.versions == s.versions
    requires t in s.threads && s'.threads == s.threads[t := th] && Gained(s.threads[t], th)
    ensures Bystander(s, s')
  {
  }

  lemma QueueStepIsBystander(limit: int, s: State, step: Step)
    requires Enabled(s, step) &&
             (step.Publish? || step.Receive? || step.TakeRow? || step.Replay? || step.Discard? || step.Crash?)
    ensures Bystander(s, Do(limit, s, step))
  {
    if step.Receive? || step.TakeRow? || step.Crash? {
      MoveIsBystander(s, Do(limit, s, step), step.t, Do(limit, s, step).threads[step.t]);
    }
  }

  lemma PhaseStepIsBystander(limit: int, s: State, step: Step)
    requires Enabled(s, step) && (step.FindDuplicate? || step.Drop? || step.Write? || step.HandOver?)
    ensures Bystander(s, Do(limit, s, step))
  {
    MoveIsBystander(s, Do(limit, s, step), step.t, Do(limit, s, step).threads[step.t]);
  }

  lemma ClosingStepIsBystander(limit: int, s: State, step: Step)
    requires Enabled(s, step) && (step.Acknowledge? || step.ClearRow? || step.ResolveDead?)
    ensures Bystander(s, Do(limit, s, step))
  {
    MoveIsBystander(s, Do(limit, s, step), step.t, Do(limit, s, step).threads[step.t]);
  }

  // Every step but the five that claim, release, read or commit.
  lemma OtherSteps(limit: int, s: State, step: Step)
    requires Enabled(s, step) && !step.Claim? && !step.CommitState? && !step.FindNoPolicy? && !step.Fail? && !step.Read?
    ensures Bystander(s, Do(limit, s, step))
  {
    if step.FindDuplicate? || step.Drop? || step.Write? || step.HandOver? { PhaseStepIsBystander(limit, s, step); }
    else if step.Acknowledge? || step.ClearRow? || step.ResolveDead? { ClosingStepIsBystander(limit, s, step); }
    else { QueueStepIsBystander(limit, s, step); }
  }

  // Claims, commits and ledger are the same, and no thread gained a claim.
  ghost predicate SameClaims(s: State, s': State) {
    && s'.processed == s.processed && s'.commits == s.commits && s'.ledger == s.ledger
    && forall t ::
         t in s'.threads && Holds(s'.threads[t]) ==>
           t in s.threads && Holds(s.threads[t]) && s'.threads[t].job == s.threads[t].job
  }

  lemma SameClaimsSafe(s: State, s': State)
    requires Safe(s) && SameClaims(s, s')
    ensures Safe(s')
  {
  }

  lemma ReadSafe(limit: int, s: State, t: nat, targets: seq<string>)
    requires Safe(s) && Enabled(s, Read(t, targets))
    ensures Safe(Do(limit, s, Read(t, targets)))
  {
    SameClaimsSafe(s, Do(limit, s, Read(t, targets)));
  }

  lemma BystanderSafe(s: State, s': State)
    requires Safe(s) && Bystander(s, s')
    ensures Safe(s')
  {
    assert forall t :: t in s'.threads ==> Gained(s.threads[t], s'.threads[t]);
    SameClaimsSafe(s, s');
  }

  lemma ClaimSafe(limit: int, s: State, t: nat)
    requires Safe(s) && Enabled(s, Claim(t))
    ensures Safe(Do(limit, s, Claim(t)))
  {
  }

  lemma ReleaseSafe(s: State, s': State, t: nat)
    requires Safe(s) && t in s.threads && Holds(s.threads[t])
    requires s'.processed == s.processed - {KeyOf(s.threads[t].job.ev)} && s'.commits == s.commits &&
             s'.ledger == s.ledger
    requires s'.threads.Keys == s.threads.Keys && !Holds(s'.threads[t]) &&
             forall u :: u in s.threads && u != t ==> s'.threads[u] == s.threads[u]
    ensures Safe(s')
  {
  }

  lemma CommitSafe(limit: int, s: State, t: nat)
    requires Safe(s) && Enabled(s, CommitState(t))
    ensures Safe(Do(limit, s, CommitState(t)))
  {
    var s' := Do(limit, s, CommitState(t));
    assert s'.commits[..|s.commits|] == s.commits;
    CommitExclusive(s, s', t);
    CommitOnce(s, s', t);
  }

  // A thread that gives up its hold, with its event committed.
  ghost predicate LetsGo(s: State, s': State, t: nat) {
    && t in s.threads && t in s'.threads && s'.threads == s.threads[t := s'.threads[t]]
    && Holds(s.threads[t]) && !Holds(s'.threads[t]) && s'.processed == s.processed
    && |s'.commits| == |s.commits| + 1 && s'.commits[..|s.commits|] == s.commits
    && s'.commits[|s.commits|].ev == s.threads[t].job.ev
  }

  lemma CommitExclusive(s: State, s': State, t: nat)
    requires Exclusive(s) && LetsGo(s, s', t)
    ensures Exclusive(s')
  {
  }

  lemma CommitOnce(s: State, s': State, t: nat)
    requires Exclusive(s) && CommittedOnce(s) && LetsGo(s, s', t)
    ensures CommittedOnce(s')
  {
    assert forall i :: 0 <= i < |s.commits| ==> s'.commits[i] == s.commits[i];
  }

  lemma FailSafe(limit: int, s: State, t: nat, retryable: bool)
    requires Safe(s) && Enabled(s, Fail(t, retryable))
    ensures Safe(Do(limit, s, Fail(t, retryable)))
  {
    ReleaseSafe(s, Do(limit, s, Fail(t, retryable)), t);
  }

  lemma NoPolicySafe(limit: int, s: State, t: nat)
    requires Safe(s) && Enabled(s, FindNoPolicy(t))
    ensures Safe(Do(limit, s, FindNoPolicy(t)))
  {
    ReleaseSafe(s, Do(limit, s, FindNoPolicy(t)), t);
  }

  lemma StepSafe(limit: int, s: State, step: Step)
    requires Safe(s) && Enabled(s, step)
    ensures Safe(Do(limit, s, step))
  {
    if step.Claim? { ClaimSafe(limit, s, step.t); }
    else if step.CommitState? { CommitSafe(limit, s, step.t); }
    else if step.FindNoPolicy? { NoPolicySafe(limit, s, step.t); }
    else if step.Fail? { FailSafe(limit, s, step.t, step.retryable); }
    else if step.Read? { ReadSafe(limit, s, step.t, step.targets); }
    else {
      OtherSteps(limit, s, step);
      BystanderSafe(s, Do(limit, s, step));
    }
  }

  // ---- Ledger rows of one event -------------------------------------------------------------------------

  function RowsOf(ledger: seq<LedgerRow>, key: Key): seq<LedgerRow> {
    if ledger == [] then []
    else
      var front, last := RowsOf(ledger[..|ledger| - 1], key), ledger[|ledger| - 1];
      if KeyOf(last.ev) == key then front + [last] else front
  }

  lemma {:induction false} RowsOfAppend(a: seq<LedgerRow>, b: seq<LedgerRow>, key: Key)
    ensures RowsOf(a + b, key) == RowsOf(a, key) + RowsOf(b, key)
    decreases |b|
  {
    if b == [] {
      assert a + b == a;
    } else {
      assert (a + b)[..|a + b| - 1] == a + b[..|b| - 1];
      RowsOfAppend(a, b[..|b| - 1], key);
    }
  }

  lemma {:induction false} RowsOfUniform(rows: seq<LedgerRow>, ev: Event, key: Key)
    requires forall i :: 0 <= i < |rows| ==> rows[i].ev == ev
    ensures RowsOf(rows, key) == if KeyOf(ev) == key then rows else []
    decreases |rows|
  {
    if rows != [] {
      RowsOfUniform(rows[..|rows| - 1], ev, key);
      assert rows[..|rows| - 1] + [rows[|rows| - 1]] == rows;
    }
  }

  // One more commit adds its rows to those of its own event, and to no other.
  lemma RowsOfOneMore(commits: seq<Commit>, key: Key)
    requires commits != []
    ensures var front, last := commits[..|commits| - 1], commits[|commits| - 1];
            RowsOf(AllRows(commits), key) == RowsOf(AllRows(front), key) + if KeyOf(last.ev) == key then RowsFor(last)
                else []
  {
    var front, last := commits[..|commits| - 1], commits[|commits| - 1];
    RowsOfAppend(AllRows(front), RowsFor(last), key);
    RowsOfUniform(RowsFor(last), last.ev, key);
  }

  lemma {:induction false} NoCommitNoRows(commits: seq<Commit>, key: Key)
    requires forall i :: 0 <= i < |commits| ==> KeyOf(commits[i].ev) != key
    ensures RowsOf(AllRows(commits), key) == []
    decreases |commits|
  {
    if commits != [] {
      RowsOfOneMore(commits, key);
      NoCommitNoRows(commits[..|commits| - 1], key);
    }
  }

  lemma {:induction false} OneCommitItsRows(commits: seq<Commit>, i: nat)
    requires i < |commits| && forall i, j :: 0 <= i < j < |commits| ==> KeyOf(commits[i].ev) != KeyOf(commits[j].ev)
    ensures RowsOf(AllRows(commits), KeyOf(commits[i].ev)) == RowsFor(commits[i])
    decreases |commits|
  {
    var front, key := commits[..|commits| - 1], KeyOf(commits[i].ev);
    RowsOfOneMore(commits, key);
    if i == |commits| - 1 { NoCommitNoRows(front, key); } else { OneCommitItsRows(front, i); }
  }

  // ---- The theorem ------------------------------------------------------------------------------------

  lemma {:induction false} RunSafe(limit: int, s: State, steps: seq<Step>)
    requires Safe(s) && CanRun(limit, s, steps)
    ensures Safe(After(limit, s, steps))
    decreases |steps|
  {
    if steps != [] {
      StepSafe(limit, s, steps[0]);
      RunSafe(limit, Do(limit, s, steps[0]), steps[1..]);
    }
  }

  // After any run: one thread at most applies an event; the event is committed at most once; its
  // ledger rows are none, or one per target of the attempt that committed it.
  lemma AppliedExactlyOnce(limit: int, s: State, steps: seq<Step>, key: Key)
    requires Initial(s) && CanRun(limit, s, steps)
    ensures var s' := After(limit, s, steps);
            && Exclusive(s') && CommittedOnce(s')
            && ((forall i :: 0 <= i < |s'.commits| ==> KeyOf(s'.commits[i].ev) != key) ==> RowsOf(s'.ledger, key) == [])
            && (forall i ::
                  0 <= i < |s'.commits| && KeyOf(s'.commits[i].ev) == key ==>
                    RowsOf(s'.ledger, key) == RowsFor(s'.commits[i]))
  {
    RunSafe(limit, s, steps);
    var commits := After(limit, s, steps).commits;
    if forall i :: 0 <= i < |commits| ==> KeyOf(commits[i].ev) != key { NoCommitNoRows(commits, key); }
    forall i | 0 <= i < |commits| && KeyOf(commits[i].ev) == key
      ensures RowsOf(AllRows(commits), key) == RowsFor(commits[i])
    {
      OneCommitItsRows(commits, i);
    }
  }
}
