/**
 Canonical versions under concurrency. A commit writes the version it read plus one, so concurrent
 applications of one entity can lose a step; the version counts the commits exactly when every commit
 had read the number of commits before it.
 */
module VersionCount {
  import opened Pipeline
  import opened Claims

  function CommitsOn(commits: seq<Commit>, entity: string): nat {
    if commits == [] then 0
    else CommitsOn(commits[..|commits| - 1], entity) + if commits[|commits| - 1].ev.entity == entity then 1 else 0
  }

  // Two threads that read the same version: the second commit raises nothing.
  lemma LostUpdate(limit: int, s: State, t: nat, u: nat, entity: string)
    requires t != u && Enabled(s, CommitState(t)) && Enabled(s, CommitState(u))
    requires s.threads[t].job.ev.entity == entity && s.threads[u].job.ev.entity == entity
    requires s.threads[t].phase.read == VersionAt(s, entity) && s.threads[u].phase.read == VersionAt(s, entity)
    ensures CanRun(limit, s, [CommitState(t), CommitState(u)])
    ensures VersionAt(After(limit, s, [CommitState(t), CommitState(u)]), entity) == VersionAt(s, entity) + 1
  {
    var s1 := Do(limit, s, CommitState(t));
    assert Enabled(s1, CommitState(u));
    var s2 := Do(limit, s1, CommitState(u));
    assert [CommitState(t), CommitState(u)][1..] == [CommitState(u)];
    assert CanRun(limit, s2, []);
    assert CanRun(limit, s1, [CommitState(u)]) && After(limit, s1, [CommitState(u)]) == s2;
  }

  ghost predicate Applies(s: State, t: nat) {
    t in s.threads && s.threads[t].Busy? && s.threads[t].phase.Applying?
  }

  // The step starts no second application of an entity.
  ghost predicate OnePerEntity(s: State, step: Step) {
    step.Read? && Working(s, step.t) ==>
      forall u :: Applies(s, u) ==> s.threads[u].job.ev.entity != s.threads[step.t].job.ev.entity
  }

  ghost predicate SerialRun(limit: int, s: State, steps: seq<Step>)
    requires CanRun(limit, s, steps)
    decreases |steps|
  {
    steps == [] || (OnePerEntity(s, steps[0]) && SerialRun(limit, Do(limit, s, steps[0]), steps[1..]))
  }

  // Every application under way has read the current version, and versions count commits.
  ghost predicate Counted(s: State) {
    && (forall t :: Applies(s, t) ==> s.threads[t].phase.read == VersionAt(s, s.threads[t].job.ev.entity))
    && (forall t, u ::
          t != u && Applies(s, t) && Applies(s, u) ==> s.threads[t].job.ev.entity != s.threads[u].job.ev.entity)
    && (forall e :: VersionAt(s, e) == CommitsOn(s.commits, e))
  }

  ghost predicate SameVersions(s: State, s': State) {
    && s'.versions == s.versions && s'.commits == s.commits
    && forall t ::
         Applies(s', t) ==>
           Applies(s, t) && s'.threads[t].job == s.threads[t].job && s'.threads[t].phase.read == s.threads[t].phase.read
  }

  lemma ClaimStepsKeepVersions(limit: int, s: State, step: Step)
    requires Enabled(s, step) && (step.Claim? || step.FindNoPolicy? || step.Fail?)
    ensures SameVersions(s, Do(limit, s, step))
  {
  }

  lemma BystanderKeepsVersions(s: State, s': State)
    requires Bystander(s, s')
    ensures SameVersions(s, s')
  {
    assert forall t :: t in s'.threads ==> Gained(s.threads[t], s'.threads[t]);
  }

  lemma OtherStepsKeepVersions(limit: int, s: State, step: Step)
    requires Enabled(s, step) && !step.Read? && !step.CommitState?
    ensures SameVersions(s, Do(limit, s, step))
  {
    if step.Claim? || step.FindNoPolicy? || step.Fail? {
      ClaimStepsKeepVersions(limit, s, step);
    } else {
      OtherSteps(limit, s, step);
      BystanderKeepsVersions(s, Do(limit, s, step));
    }
  }

  lemma SameVersionsCounted(s: State, s': State)
    requires Counted(s) && SameVersions(s, s')
    ensures Counted(s')
  {
    assert forall e :: VersionAt(s', e) == VersionAt(s, e);
  }

  lemma CommitCounted(limit: int, s: State, t: nat)
    requires Counted(s) && Enabled(s, CommitState(t))
    ensures Counted(Do(limit, s, CommitState(t)))
  {
    var s', e := Do(limit, s, CommitState(t)), s.threads[t].job.ev.entity;
    assert s'.commits[..|s.commits|] == s.commits && Applies(s, t);
    assert forall u :: Applies(s', u) ==> Applies(s, u) && u != t && s'.threads[u] == s.threads[u];
    assert forall d :: VersionAt(s', d) == if d == e then VersionAt(s, e) + 1 else VersionAt(s, d);
  }

  lemma ReadCounted(limit: int, s: State, t: nat, targets: seq<string>)
    requires Counted(s) && Enabled(s, Read(t, targets)) && OnePerEntity(s, Read(t, targets))
    ensures Counted(Do(limit, s, Read(t, targets)))
  {
    var s' := Do(limit, s, Read(t, targets));
    assert forall u :: Applies(s', u) && u != t ==> Applies(s, u) && s'.threads[u] == s.threads[u];
    assert forall d :: VersionAt(s', d) == VersionAt(s, d);
  }

  lemma StepCounted(limit: int, s: State, step: Step)
    requires Counted(s) && Enabled(s, step) && OnePerEntity(s, step)
    ensures Counted(Do(limit, s, step))
  {
    if step.CommitState? { CommitCounted(limit, s, step.t); }
    else if step.Read? { ReadCounted(limit, s, step.t, step.targets); }
    else {
      OtherStepsKeepVersions(limit, s, step);
      SameVersionsCounted(s, Do(limit, s, step));
    }
  }

  lemma {:induction false} RunCounted(limit: int, s: State, steps: seq<Step>)
    requires Counted(s) && CanRun(limit, s, steps) && SerialRun(limit, s, steps)
    ensures Counted(After(limit, s, steps))
    decreases |steps|
  {
    if steps != [] {
      StepCounted(limit, s, steps[0]);
      RunCounted(limit, Do(limit, s, steps[0]), steps[1..]);
    }
  }

  // ---- The exact condition --------------------------------------------------------------------------

  // Every commit on the entity had read the number of commits on it before.
  ghost predicate GoodReads(commits: seq<Commit>, entity: string) {
    forall i ::
      0 <= i < |commits| && commits[i].ev.entity == entity ==> commits[i].read == CommitsOn(commits[..i], entity)
  }

  lemma GoodReadsOneMore(commits: seq<Commit>, c: Commit, entity: string)
    ensures GoodReads(commits + [c], entity) <==>
            GoodReads(commits, entity) && (c.ev.entity == entity ==> c.read == CommitsOn(commits, entity))
  {
    var more := commits + [c];
    assert forall i :: 0 <= i < |commits| ==> more[..i] == commits[..i] && more[i] == commits[i];
    assert more[..|commits|] == commits && more[|commits|] == c;
  }

  // Versions never exceed the commits, reach them exactly with good reads, and whoever has read the
  // number of commits read it after nothing but good reads.
  ghost predicate Tracked(s: State) {
    && (forall e :: VersionAt(s, e) <= CommitsOn(s.commits, e))
    && (forall e :: VersionAt(s, e) == CommitsOn(s.commits, e) <==> GoodReads(s.commits, e))
    && (forall t :: Applies(s, t) ==> AheadOfNone(s, s.threads[t].job.ev.entity, s.threads[t].phase.read))
  }

  ghost predicate AheadOfNone(s: State, entity: string, read: int) {
    read <= CommitsOn(s.commits, entity) && (read == CommitsOn(s.commits, entity) ==> GoodReads(s.commits, entity))
  }

  lemma SameVersionsTracked(s: State, s': State)
    requires Tracked(s) && SameVersions(s, s')
    ensures Tracked(s')
  {
    assert forall e :: VersionAt(s', e) == VersionAt(s, e);
    forall t | Applies(s', t) ensures AheadOfNone(s', s'.threads[t].job.ev.entity, s'.threads[t].phase.read) {
      assert AheadOfNone(s, s.threads[t].job.ev.entity, s.threads[t].phase.read);
    }
  }

  lemma ReadTracked(limit: int, s: State, t: nat, targets: seq<string>)
    requires Tracked(s) && Enabled(s, Read(t, targets))
    ensures Tracked(Do(limit, s, Read(t, targets)))
  {
    var s' := Do(limit, s, Read(t, targets));
    assert forall e :: VersionAt(s', e) == VersionAt(s, e);
    forall u | Applies(s', u) ensures AheadOfNone(s', s'.threads[u].job.ev.entity, s'.threads[u].phase.read) {
      if u != t { assert Applies(s, u) && s'.threads[u] == s.threads[u]; }
    }
  }

  lemma CommitCounts(s: State, c: Commit, e: string, version: int)
    requires Tracked(s) && AheadOfNone(s, c.ev.entity, c.read)
    requires version == if e == c.ev.entity then c.read + 1 else VersionAt(s, e)
    ensures version <= CommitsOn(s.commits + [c], e)
    ensures version == CommitsOn(s.commits + [c], e) <==> GoodReads(s.commits + [c], e)
  {
    GoodReadsOneMore(s.commits, c, e);
    assert (s.commits + [c])[..|s.commits|] == s.commits;
  }

  lemma CommitTracked(limit: int, s: State, t: nat)
    requires Tracked(s) && Enabled(s, CommitState(t))
    ensures Tracked(Do(limit, s, CommitState(t)))
  {
    var s', ev, read := Do(limit, s, CommitState(t)), s.threads[t].job.ev, s.threads[t].phase.read;
    var c := Commit(ev, s.threads[t].phase.targets, read);
    assert s'.commits == s.commits + [c] && s'.commits[..|s.commits|] == s.commits;
    assert Applies(s, t) && AheadOfNone(s, ev.entity, read);
    forall e ensures VersionAt(s', e) <= CommitsOn(s'.commits, e)
      ensures VersionAt(s', e) == CommitsOn(s'.commits, e) <==> GoodReads(s'.commits, e)
    {
      CommitCounts(s, c, e, VersionAt(s', e));
    }
    forall u | Applies(s', u) ensures AheadOfNone(s', s'.threads[u].job.ev.entity, s'.threads[u].phase.read) {
      assert Applies(s, u) && s'.threads[u] == s.threads[u];
      assert AheadOfNone(s, s.threads[u].job.ev.entity, s.threads[u].phase.read);
      GoodReadsOneMore(s.commits, c, s.threads[u].job.ev.entity);
    }
  }

  lemma StepTracked(limit: int, s: State, step: Step)
    requires Tracked(s) && Enabled(s, step)
    ensures Tracked(Do(limit, s, step))
  {
    if step.CommitState? { CommitTracked(limit, s, step.t); }
    else if step.Read? { ReadTracked(limit, s, step.t, step.targets); }
    else {
      OtherStepsKeepVersions(limit, s, step);
      SameVersionsTracked(s, Do(limit, s, step));
    }
  }

  lemma {:induction false} RunTracked(limit: int, s: State, steps: seq<Step>)
    requires Tracked(s) && CanRun(limit, s, steps)
    ensures Tracked(After(limit, s, steps))
    decreases |steps|
  {
    if steps != [] {
      StepTracked(limit, s, steps[0]);
      RunTracked(limit, Do(limit, s, steps[0]), steps[1..]);
    }
  }

  // After any run the version is at most the number of commits on the entity, and equal to it if and
  // only if every one of them had read the number of commits before it.
  lemma VersionCountsCommitsExactly(limit: int, s: State, steps: seq<Step>, entity: string)
    requires Initial(s) && CanRun(limit, s, steps)
    ensures var s' := After(limit, s, steps);
            && VersionAt(s', entity) <= CommitsOn(s'.commits, entity)
            && (VersionAt(s', entity) == CommitsOn(s'.commits, entity) <==> GoodReads(s'.commits, entity))
  {
    RunTracked(limit, s, steps);
  }

  // When no two events of one entity are applied at the same time, every commit has read the number of
  // commits before it, whatever failed, crashed or was delivered twice, and the version counts them.
  lemma VersionsCountCommits(limit: int, s: State, steps: seq<Step>, entity: string)
    requires Initial(s) && CanRun(limit, s, steps) && SerialRun(limit, s, steps)
    ensures GoodReads(After(limit, s, steps).commits, entity)
    ensures VersionAt(After(limit, s, steps), entity) == CommitsOn(After(limit, s, steps).commits, entity)
  {
    RunCounted(limit, s, steps);
    VersionCountsCommitsExactly(limit, s, steps, entity);
  }
}
