/**
 A resumable full sync (internal/syncjob/runner.go): the page loop over the store's own listing with its
 checkpoints, and the worker's claim and commit for each record, cut off by a crash after any step and
 resumed from the job row any number of times.
 */
module FullSync {
  import opened ByteOrder
  import opened Customers
  import opened Listings
  import Simulator
  import Tables

  type Records = map<string, Simulator.Rec>

  // What the worker makes of an event it has claimed: it commits, it drops the event as stale, an echo
  // or a parked conflict and keeps the claim, or it gives the claim back because no policy wants the
  // event or it failed.
  datatype Fate = Commits | Drops | NoPolicy | Fails

  // The key under which a record is offered to the worker.
  function JobEventId(job: string, record: string): string {
    "jobsync:" + job + ":" + record
  }

  ghost predicate Distinct(ids: seq<string>) {
    forall i, j :: 0 <= i < j < |ids| ==> ids[i] != ids[j]
  }

  // ---- The provider -----------------------------------------------------------------------------------

  ghost predicate Stretch(ids: seq<string>, at: nat, page: seq<string>) {
    at + |page| <= |ids| && page == ids[at..at + |page|]
  }

  // Where the page listed from position at ends.
  ghost predicate IsPage(ids: seq<string>, at: nat, page: seq<string>, next: string) {
    && Stretch(ids, at, page)
    && (next == "" ==> at + |page| == |ids|) && (next != "" ==> |page| > 0 && next == ids[at + |page| - 1])
  }

  // What the job needs of the ids of a store, which do not change while it lasts: each is there once, and a
  // listing from any cursor returns the next of them.
  ghost predicate Lists(ids: seq<string>, records: Records) {
    && Distinct(ids) && |ids| == |records|
    && forall cursor, size: nat {:trigger Simulator.PageOf(records, cursor, size, Tables.None)} :: size > 0 ==>
         var page := Simulator.PageOf(records, cursor, size, Tables.None);
         IsPage(ids, StartAfter(ids, cursor), page, NextCursor(page, size))
  }

  // The sorted listing of a store is such a list.
  lemma ListingLists(records: Records)
    requires "" !in records
    ensures Lists(Listing(records.Keys), records)
  {
    var ids := Listing(records.Keys);
    ListingLength(ids, records.Keys);
    forall i, j | 0 <= i < j < |ids| ensures ids[i] != ids[j] { LessIrreflexive(ids[i]); }
    forall cursor, size: nat | size > 0
      ensures var page := Simulator.PageOf(records, cursor, size, Tables.None);
              IsPage(ids, StartAfter(ids, cursor), page, NextCursor(page, size))
    {
      Simulator.PageOfIs(records, cursor, size);
      PageEnds(ids, cursor, size);
    }
  }

  lemma PageEnds(ids: seq<string>, cursor: string, size: nat)
    requires "" !in ids && size > 0
    ensures IsPage(ids, StartAfter(ids, cursor), PageAt(ids, cursor, size), NextCursor(PageAt(ids, cursor, size), size))
  {
    var page, start := PageAt(ids, cursor, size), StartAfter(ids, cursor);
    assert page == ids[start..][..|page|] == ids[start..start + |page|];
    assert |page| == size ==> page[size - 1] == ids[start + size - 1];
  }

  predicate IsLive(records: Records, id: string) {
    id in records && !records[id].deleted
  }

  // How many of the ids are live.
  function Live(ids: seq<string>, records: Records): nat {
    |set id | id in ids && IsLive(records, id)|
  }

  lemma LiveNext(ids: seq<string>, records: Records, k: nat)
    requires Distinct(ids) && k < |ids|
    ensures Live(ids[..k + 1], records) == Live(ids[..k], records) + if IsLive(records, ids[k]) then 1 else 0
  {
    var before := set id | id in ids[..k] && IsLive(records, id);
    var after := set id | id in ids[..k + 1] && IsLive(records, id);
    assert ids[..k + 1] == ids[..k] + [ids[k]] && ids[k] !in ids[..k];
    if IsLive(records, ids[k]) {
      assert after == before + {ids[k]};
    } else {
      assert after == before;
    }
  }

  // A page of the store's listing, with copies of the records.
  method NextPage(store: Simulator.Store, cursor: string, limit: int, ghost ids: seq<string>)
    returns (page: seq<string>, recs: seq<Simulator.Rec>, next: string)
    requires Lists(ids, store.records)
    ensures IsPage(ids, StartAfter(ids, cursor), page, next) && Simulator.Copies(store.records, page, recs)
  {
    var more;
    page, recs, next, more := store.List(cursor, limit, Tables.None);
    assert page == Simulator.PageOf(store.records, cursor, Simulator.PageSize(limit), Tables.None);
  }

  // ---- The counters -----------------------------------------------------------------------------------

  // What a number of finished walks count.
  ghost function Times(laps: nat, live: nat): nat {
    if laps == 0 then 0 else Times(laps - 1, live) + live
  }

  lemma {:induction false} TimesIs(laps: nat, live: nat)
    ensures Times(laps, live) == laps * live
  {
    if laps > 0 { TimesIs(laps - 1, live); }
  }

  // The counters hold each live record once per finished walk, and those before the cursor once more.
  ghost predicate Counted(ids: seq<string>, records: Records, at: nat, count: int, laps: nat) {
    at <= |ids| && count == Times(laps, Live(ids, records)) + Live(ids[..at], records)
  }

  lemma CountedLap(ids: seq<string>, records: Records, count: int, laps: nat)
    requires Counted(ids, records, |ids|, count, laps)
    ensures Counted(ids, records, 0, count, laps + 1)
  {
    assert ids[..|ids|] == ids && ids[..0] == [];
  }

  // Where a run resumes from this checkpoint, and what the counters mean there.
  lemma Checkpointed(ids: seq<string>, records: Records, end: nat, next: string, count: int, laps: nat)
    requires Distinct(ids) && Counted(ids, records, end, count, laps)
    requires if next == "" then end == |ids| else 0 < end <= |ids| && next == ids[end - 1]
    ensures StartAfter(ids, next) == if next == "" then 0 else end
    ensures Counted(ids, records, StartAfter(ids, next), count, laps + if next == "" then 1 else 0)
  {
    if next == "" { CountedLap(ids, records, count, laps); } else { assert StartAfter(ids, next) > 0; }
  }

  // A finished walk has counted nothing since.
  lemma FinishedAt(ids: seq<string>, records: Records)
    ensures StartAfter(ids, "") == 0 && Live(ids[..0], records) == 0
  {
  }

  // ---- What is covered --------------------------------------------------------------------------------

  // A live record has been offered, or dead-lettered if it is malformed.
  ghost predicate Handled(jobId: string, kind: Kind, id: string, rec: Simulator.Rec, offered: set<string>,
                          dead: set<string>)
  {
    !rec.deleted ==> JobEventId(jobId, id) in (if Validate(kind, rec.data) then offered else dead)
  }

  // So has every live record among the first k.
  ghost predicate CoveredBy(jobId: string, kind: Kind, ids: seq<string>, records: Records, k: nat,
                            offered: set<string>, dead: set<string>)
    requires k <= |ids|
  {
    forall i :: 0 <= i < k && ids[i] in records ==> Handled(jobId, kind, ids[i], records[ids[i]], offered, dead)
  }

  // What the job row means at position at: what lies before it is covered and counted, and so is everything,
  // once for each finished walk.
  ghost predicate Covers(jobId: string, kind: Kind, ids: seq<string>, records: Records, at: nat, offered: set<string>,
                         dead: set<string>, count: int, laps: nat)
  {
    && at <= |ids| && Counted(ids, records, at, count, laps) && CoveredBy(jobId, kind, ids, records, at, offered, dead)
    && (laps > 0 ==> CoveredBy(jobId, kind, ids, records, |ids|, offered, dead))
  }

  lemma CoversGrows(jobId: string, kind: Kind, ids: seq<string>, records: Records, at: nat, offered: set<string>,
                    dead: set<string>, offered': set<string>, dead': set<string>, count: int, laps: nat)
    requires Covers(jobId, kind, ids, records, at, offered, dead, count, laps) && offered <= offered' && dead <= dead'
    ensures Covers(jobId, kind, ids, records, at, offered', dead', count, laps)
  {
  }

  lemma CoversNext(jobId: string, kind: Kind, ids: seq<string>, records: Records, k: nat, offered: set<string>,
                   dead: set<string>, count: int, laps: nat)
    requires Distinct(ids) && k < |ids| && ids[k] in records
    requires Covers(jobId, kind, ids, records, k, offered, dead, count, laps)
    requires Handled(jobId, kind, ids[k], records[ids[k]], offered, dead)
    ensures Covers(jobId, kind, ids, records, k + 1, offered, dead, count + (if IsLive(records, ids[k]) then 1 else 0),
                   laps)
  {
    LiveNext(ids, records, k);
  }

  // ---- Steps ------------------------------------------------------------------------------------------

  // Steps that are enough to run the job to its end: four a record, one a checkpoint, one to finish.
  function Enough(records: nat): nat {
    5 * records + 2
  }

  // How a turn of the page loop ends: cut off, with more to list, or on the last page.
  datatype Turn = Cut | More | Last

  // The steps left are enough to go on from here to the end.
  ghost predicate Suffices(ids: seq<string>, turn: Turn, at: nat, left: nat) {
    !turn.Cut? && if turn.More? then left >= 5 * (|ids| - at) + 2 else left >= 1
  }

  // ---- The runner -------------------------------------------------------------------------------------

  class Runner {
    const jobId: string
    const kind: Kind

    // The job row.
    var cursor: string
    var processed: int
    var failed: int
    var completed: bool

    // The worker's claims and commits, and the dead-letter table, for the events of this job.
    var claimed: set<string>
    var commits: seq<string>
    var dead: set<string>

    // Histories: ids offered, ids that counted as processed, ids dropped under their claim, ids no policy
    // wanted, ids cut off between claim and conclusion, and how often the last checkpoint was reached.
    ghost var offered: set<string>
    ghost var succeeded: set<string>
    ghost var dropped: set<string>
    ghost var unwanted: set<string>
    ghost var cutOff: set<string>
    ghost var laps: nat

    constructor (jobId: string, kind: Kind)
      ensures this.jobId == jobId && this.kind == kind && cursor == "" && processed == 0 && failed == 0 && !completed
      ensures claimed == {} && commits == [] && dead == {} && offered == {} && succeeded == {} && laps == 0
      ensures dropped == {} && unwanted == {} && cutOff == {}
    {
      this.jobId, this.kind := jobId, kind;
      cursor, processed, failed, completed := "", 0, 0, false;
      claimed, commits, dead, offered, succeeded, laps := {}, [], {}, {}, {}, 0;
      dropped, unwanted, cutOff := {}, {}, {};
    }

    // ---- The worker's side ----------------------------------------------------------------------------

    // A claim ends in a commit, in a drop, or in neither, and then a crash cut it off. What counted as
    // processed was claimed, or no policy wanted it.
    ghost predicate WorkerValid()
      reads this
    {
      && Distinct(commits) && (forall id :: id in commits ==> id in claimed && id !in dropped)
      && dropped <= claimed && claimed <= offered
      && (forall id :: id in cutOff <==> id in claimed && id !in commits && id !in dropped)
      && (forall id :: id in succeeded ==> id in claimed || id in unwanted)
    }

    // Claims the event, concludes it or gives the claim back, and can be cut off before each of these.
    method Process(id: string, fate: Fate, budget: nat) returns (success: bool, left: nat, crashed: bool)
      requires WorkerValid()
      modifies this`claimed, this`commits, this`offered, this`succeeded, this`dropped, this`unwanted, this`cutOff
      ensures WorkerValid() && old(offered) <= offered && (!crashed ==> id in offered)
      ensures left <= budget && budget <= left + 3 && (crashed ==> left == 0) && (budget >= 3 ==> !crashed)
      ensures !crashed && success ==> id in succeeded
      ensures id in old(claimed) ==>
                commits == old(commits) && claimed == old(claimed) && cutOff == old(cutOff) && (!crashed ==> success)
      ensures id !in old(claimed) && budget == 1 ==> crashed && cutOff == old(cutOff) + {id} && commits == old(commits)
      ensures id !in old(claimed) && budget >= 3 ==>
                && commits == (if fate.Commits? then old(commits) + [id] else old(commits))
                && claimed == (if fate.Commits? || fate.Drops? then old(claimed) + {id} else old(claimed))
                && cutOff == old(cutOff) && success == !fate.Fails?
    {
      success, left, crashed := false, budget, true;
      if left == 0 { return; }
      left, offered := left - 1, offered + {id};
      if id in claimed {
        success, crashed, succeeded := true, false, succeeded + {id};
        return;
      }
      claimed := claimed + {id};
      if left == 0 {
        cutOff := cutOff + {id};
        return;
      }
      left := left - 1;
      if fate.Commits? {
        commits := commits + [id];
      } else if fate.Drops? {
        dropped := dropped + {id};
      } else {
        if left == 0 {
          cutOff := cutOff + {id};
          return;
        }
        left, claimed := left - 1, claimed - {id};
        if fate.NoPolicy? { unwanted := unwanted + {id}; }
      }
      success, crashed := !fate.Fails?, false;
      if success { succeeded := succeeded + {id}; }
    }

    // What became of an id that counted as processed. It was never committed exactly if it was dropped,
    // cut off after its claim, or left unclaimed because no policy wanted it.
    lemma NeverCommittedExactly(id: string)
      requires WorkerValid() && id in succeeded
      ensures id !in commits <==> id in dropped || id in cutOff || id !in claimed
      ensures id !in claimed ==> id in unwanted
    {
    }

    // A record cut off between claim and commit: every later attempt counts as processed, none commits.
    method CutOffIsNeverCommitted(id: string, fate: Fate, later: seq<Fate>)
      requires WorkerValid() && id !in claimed
      modifies this`claimed, this`commits, this`offered, this`succeeded, this`dropped, this`unwanted, this`cutOff
      ensures WorkerValid() && id in cutOff && id !in commits && (later != [] ==> id in succeeded)
    {
      var _, _, _ := Process(id, fate, 1);
      for i := 0 to |later|
        invariant WorkerValid() && id in cutOff && (i > 0 ==> id in succeeded)
      {
        var success, _, crashed := Process(id, later[i], 3);
        assert success && !crashed;
      }
    }

    // ---- The job's side ---------------------------------------------------------------------------------

    // The job row at position at, for these counters.
    ghost predicate CoversTo(ids: seq<string>, records: Records, at: nat, count: int)
      reads this
    {
      Covers(jobId, kind, ids, records, at, offered, dead, count, laps)
    }

    ghost predicate Valid(ids: seq<string>, records: Records)
      reads this
    {
      && WorkerValid() && CoversTo(ids, records, StartAfter(ids, cursor), processed + failed)
      && (completed ==> laps > 0 && cursor == "")
    }

    // One record: skipped, dead-lettered or processed, unless it is cut off. It takes up to four steps.
    method HandleRecord(id: string, rec: Simulator.Rec, fate: Fate, budget: nat)
      returns (done: nat, bad: nat, left: nat, crashed: bool)
      requires WorkerValid()
      modifies this`claimed, this`commits, this`offered, this`succeeded, this`dropped, this`unwanted, this`cutOff,
          this`dead
      ensures WorkerValid() && old(offered) <= offered && old(dead) <= dead
      ensures left <= budget && (budget >= 4 ==> !crashed && left >= budget - 4)
      ensures !crashed ==> done + bad == if rec.deleted then 0 else 1
      ensures !crashed ==> Handled(jobId, kind, id, rec, offered, dead)
    {
      done, bad, left, crashed := 0, 0, 0, true;
      if budget == 0 { return; }
      left, crashed := budget - 1, false;
      if rec.deleted { return; }
      if !Validate(kind, rec.data) {
        bad, dead := 1, dead + {JobEventId(jobId, id)};
        return;
      }
      var success;
      success, left, crashed := Process(JobEventId(jobId, id), fate, left);
      if success { done := 1; } else { bad := 1; }
    }

    // The record at position k.
    method HandleNext(id: string, rec: Simulator.Rec, fate: Fate, budget: nat, ghost ids: seq<string>,
                      ghost records: Records, ghost k: nat, ghost count: int)
      returns (done: nat, bad: nat, left: nat, crashed: bool)
      requires WorkerValid() && CoversTo(ids, records, k, count) && Distinct(ids)
      requires k < |ids| && ids[k] == id && id in records && records[id] == rec
      modifies this`claimed, this`commits, this`offered, this`succeeded, this`dropped, this`unwanted, this`cutOff,
          this`dead
      ensures WorkerValid() && old(offered) <= offered && old(dead) <= dead
      ensures left <= budget && (budget >= 4 ==> !crashed && left >= budget - 4)
      ensures !crashed ==> CoversTo(ids, records, k + 1, count + done + bad)
    {
      ghost var was, parked := offered, dead;
      done, bad, left, crashed := HandleRecord(id, rec, fate, budget);
      if !crashed {
        CoversGrows(jobId, kind, ids, records, k, was, parked, offered, dead, count, laps);
        CoversNext(jobId, kind, ids, records, k, offered, dead, count, laps);
      }
    }

    // One page of records, from position start, until its end or the crash.
    method WalkPage(page: seq<string>, recs: seq<Simulator.Rec>, ghost ids: seq<string>, ghost records: Records,
                    ghost start: nat, budget: nat, fates: string -> Fate, processed0: int, failed0: int)
      returns (done: int, bad: int, left: nat, crashed: bool, ghost end: nat, ghost count: int)
      requires Stretch(ids, start, page) && Distinct(ids) && Simulator.Copies(records, page, recs) && WorkerValid()
      requires CoversTo(ids, records, start, processed0 + failed0)
      modifies this`claimed, this`commits, this`offered, this`succeeded, this`dropped, this`unwanted, this`cutOff,
          this`dead
      ensures WorkerValid() && old(offered) <= offered && old(dead) <= dead
      ensures !crashed ==> end == start + |page| && count == done + bad && CoversTo(ids, records, end, count)
      ensures left <= budget && (budget >= 4 * |page| ==> !crashed && left >= budget - 4 * |page|)
    {
      done, bad, left, crashed := processed0, failed0, budget, false;
      end, count := start, done + bad;
      for k := 0 to |page|
        invariant WorkerValid() && old(offered) <= offered && old(dead) <= dead
        invariant end == start + k && count == done + bad && CoversTo(ids, records, end, count)
        invariant left <= budget && (budget >= 4 * |page| ==> left >= budget - 4 * k)
      {
        var d, b;
        d, b, left, crashed := HandleNext(page[k], recs[k], fates(page[k]), left, ids, records, end, count);
        if crashed { return; }
        done, bad, end, count := done + d, bad + b, end + 1, count + d + b;
      }
    }

    // Persists the counters and the cursor; the last page leaves a null cursor.
    method Checkpoint(ghost ids: seq<string>, ghost records: Records, ghost end: nat, next: string, done: int, bad: int,
                      ghost count: int)
      requires Distinct(ids) && WorkerValid() && CoversTo(ids, records, end, count) && count == done + bad && !completed
      requires if next == "" then end == |ids| else 0 < end <= |ids| && next == ids[end - 1]
      modifies this`cursor, this`processed, this`failed, this`laps
      ensures Valid(ids, records) && cursor == next && processed == done && failed == bad
      ensures laps == old(laps) + if next == "" then 1 else 0
      ensures StartAfter(ids, cursor) == if next == "" then 0 else end
    {
      Checkpointed(ids, records, end, next, count, laps);
      cursor, processed, failed := next, done, bad;
      if next == "" { laps := laps + 1; }
    }

    // A page just listed: walks it and checkpoints.
    method ApplyPage(page: seq<string>, recs: seq<Simulator.Rec>, next: string, ghost ids: seq<string>,
                     ghost records: Records, budget: nat, fates: string -> Fate)
      returns (left: nat, outcome: Turn)
      requires Distinct(ids) && IsPage(ids, StartAfter(ids, cursor), page, next)
      requires Simulator.Copies(records, page, recs) && Valid(ids, records) && !completed
      modifies this
      ensures Valid(ids, records) && !completed && old(offered) <= offered
      ensures laps == old(laps) + (if outcome.Last? then 1 else 0) && (outcome.Last? ==> cursor == "")
      ensures outcome.More? ==> StartAfter(ids, cursor) > old(StartAfter(ids, cursor))
      ensures Suffices(ids, More, old(StartAfter(ids, cursor)), budget) ==>
                Suffices(ids, outcome, StartAfter(ids, cursor), left)
    {
      ghost var at := StartAfter(ids, cursor);
      ghost var was, parked := offered, dead;
      var done, bad, crashed;
      ghost var end, count;
      done, bad, left, crashed, end, count := WalkPage(page, recs, ids, records, at, budget, fates, processed, failed);
      CoversGrows(jobId, kind, ids, records, at, was, parked, offered, dead, processed + failed, laps);
      outcome := Cut;
      if !crashed && left > 0 {
        left := left - 1;
        Checkpoint(ids, records, end, next, done, bad, count);
        outcome := if next == "" then Last else More;
      }
    }

    // One run of the job: resumes from the row and stops when the job is done or when it is cut off, after
    // budget steps or, if it dies, between its last checkpoint and its end.
    method Execute(store: Simulator.Store, ghost ids: seq<string>, limit: int, budget: nat, dies: bool,
                   fates: string -> Fate)
      requires Lists(ids, store.records) && Valid(ids, store.records) && !completed
      modifies this
      ensures Valid(ids, store.records) && old(offered) <= offered && old(laps) <= laps <= old(laps) + 1
      ensures completed ==> laps == old(laps) + 1
      ensures budget >= Enough(|store.records|) ==> laps == old(laps) + 1 && completed == !dies
    {
      var left: nat, outcome := budget, More;
      while outcome.More?
        invariant Valid(ids, store.records) && !completed && old(offered) <= offered
        invariant laps == old(laps) + (if outcome.Last? then 1 else 0) && (outcome.Last? ==> cursor == "")
        invariant budget >= Enough(|ids|) ==> Suffices(ids, outcome, StartAfter(ids, cursor), left)
        decreases outcome.More?, |ids| - StartAfter(ids, cursor)
      {
        var page, recs, next := NextPage(store, cursor, limit, ids);
        left, outcome := ApplyPage(page, recs, next, ids, store.records, left, fates);
      }
      if outcome.Cut? || left == 0 || dies { return; }
      completed := true;
    }

    // Any number of runs, each cut off where its budget ends or where it dies. A completed job has offered
    // every valid live record, committed each at most once, and counted each once, and once more for
    // every run that died after its last checkpoint.
    method RunWithCrashes(store: Simulator.Store, ghost ids: seq<string>, limit: int, budgets: seq<(nat, bool)>,
                          fates: nat -> (string -> Fate))
      returns (ghost died: nat)
      requires Lists(ids, store.records) && Valid(ids, store.records) && !completed
      modifies this
      ensures Valid(ids, store.records) && laps == old(laps) + died + if completed then 1 else 0
      ensures completed ==> CoveredBy(jobId, kind, ids, store.records, |ids|, offered, dead) && Distinct(commits)
      ensures completed ==> processed + failed == laps * Live(ids, store.records)
      ensures completed && laps == 1 ==> processed + failed == Live(ids, store.records)
      ensures (exists n :: 0 <= n < |budgets| && budgets[n].0 >= Enough(|store.records|) && !budgets[n].1) ==> completed
    {
      died := 0;
      for n := 0 to |budgets|
        invariant Valid(ids, store.records) && !completed && laps == old(laps) + died
        invariant forall m :: 0 <= m < n ==> budgets[m].0 < Enough(|store.records|) || budgets[m].1
      {
        ghost var before := laps;
        Execute(store, ids, limit, budgets[n].0, budgets[n].1, fates(n));
        if completed { break; }
        died := died + (laps - before);
      }
      FinishedAt(ids, store.records);
      TimesIs(laps, Live(ids, store.records));
    }
  }

  // A run that dies after its last checkpoint leaves a null cursor: the next run walks everything again
  // and counts every live record twice.
  method CountsTwice(jobId: string, kind: Kind, store: Simulator.Store, ghost ids: seq<string>, limit: int,
                     fates: string -> Fate)
    returns (r: Runner)
    requires Lists(ids, store.records)
    ensures fresh(r) && r.completed && r.laps == 2 && r.processed + r.failed == 2 * Live(ids, store.records)
  {
    r := new Runner(jobId, kind);
    FinishedAt(ids, store.records);
    r.Execute(store, ids, limit, Enough(|store.records|), true, fates);
    r.Execute(store, ids, limit, Enough(|store.records|), false, fates);
    TimesIs(2, Live(ids, store.records));
  }

  // ---- Ids ----------------------------------------------------------------------------------------------------

  predicate NoColon(s: string) {
    ':' !in s
  }

  // As long as job ids have no colon, no two records of any two jobs share an event id.
  lemma JobEventIdInjective(j: string, r: string, k: string, q: string)
    requires NoColon(j) && NoColon(k)
    ensures JobEventId(j, r) == JobEventId(k, q) <==> j == k && r == q
  {
    if JobEventId(j, r) == JobEventId(k, q) {
      var a, b := j + ":" + r, k + ":" + q;
      assert JobEventId(j, r) == "jobsync:" + a && JobEventId(k, q) == "jobsync:" + b;
      assert a == JobEventId(j, r)[8..] && b == JobEventId(k, q)[8..];
      assert a[|j|] == ':' && b[|k|] == ':';
      assert (forall i :: 0 <= i < |j| ==> a[i] == j[i]) && (forall i :: 0 <= i < |k| ==> b[i] == k[i]);
      assert |j| == |k|;
      assert a[..|j|] == j && b[..|k|] == k && a[|j| + 1..] == r && b[|k| + 1..] == q;
    }
  }

  // A colon in a job id can be read as the separator.
  lemma ColonSharesEventIds(j: string, k: string, r: string)
    ensures JobEventId(j + ":" + k, r) == JobEventId(j, k + ":" + r)
  {
    assert "jobsync:" + (j + ":" + k) + ":" + r == "jobsync:" + j + ":" + (k + ":" + r);
  }

  // Two jobs share an event id, for some records, if and only if one job's id is the other's up to a colon.
  lemma JobsShareIdsExactly(j: string, k: string)
    requires j != k
    ensures (exists r, q :: JobEventId(j, r) == JobEventId(k, q)) <==> j + ":" <= k || k + ":" <= j
  {
    if r, q :| JobEventId(j, r) == JobEventId(k, q) {
      if |j| <= |k| { SharedPrefix(j, r, k, q); } else { SharedPrefix(k, q, j, r); }
    }
    if j + ":" <= k { SharesFrom(j, k); }
    if k + ":" <= j { SharesFrom(k, j); }
  }

  lemma SharedPrefix(j: string, r: string, k: string, q: string)
    requires JobEventId(j, r) == JobEventId(k, q) && j != k && |j| <= |k|
    ensures j + ":" <= k
  {
    var a, b := j + ":" + r, k + ":" + q;
    assert JobEventId(j, r) == "jobsync:" + a && JobEventId(k, q) == "jobsync:" + b;
    assert a == JobEventId(j, r)[8..] && b == JobEventId(k, q)[8..];
    assert a[..|j|] == j && b[..|k|] == k;
    assert |j| == |k| ==> j == k;
    assert k[..|j| + 1] == a[..|j| + 1] == j + ":";
  }

  lemma SharesFrom(j: string, k: string)
    requires j + ":" <= k
    ensures JobEventId(j, k[|j| + 1..] + ":" + "") == JobEventId(k, "")
  {
    var mid := k[|j| + 1..];
    assert k == j + ":" + mid;
    ColonSharesEventIds(j, mid, "");
  }
}
