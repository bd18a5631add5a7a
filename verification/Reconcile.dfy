/**
 Reconciliation sweeps (internal/reconcile): walk a provider page by page, compare each record with
 the canonical rows, record a finding per divergence and, in auto mode, repair it through the worker.
 The functions say where a sweep takes the world; the Engine class runs the loops.
 */
module Reconcile {
  import opened Customers
  import opened Listings
  import opened Tables
  import opened Apply
  import opened SyncWorker

  // One sweep: its run id, the provider it walks, its mode, and the time its repairs carry.
  datatype Sweep = Sweep(id: string, source: Source, auto: bool, at: int)

  predicate SameFields(a: Fields, b: Fields) {
    && Sprint(Get(a, "first_name")) == Sprint(Get(b, "first_name"))
    && Sprint(Get(a, "last_name")) == Sprint(Get(b, "last_name"))
    && Sprint(Get(a, "email")) == Sprint(Get(b, "email"))
    && Sprint(Get(a, "phone")) == Sprint(Get(b, "phone"))
    && Sprint(Get(a, "company")) == Sprint(Get(b, "company"))
  }

  function Classify(row: Option<Row>, fields: Fields): Option<FindingKind> {
    if row.None? then Some(Missed)
    else if row.value.tombstone then Some(Deleted)
    else if !SameFields(row.value.fields, fields) then Some(Drift)
    else None
  }

  function FirstAsSource(policies: seq<Policy>, s: Source): Option<DeletePolicy> {
    if policies == [] then None
    else if policies[0].source == s then Some(policies[0].deletePolicy)
    else FirstAsSource(policies[1..], s)
  }

  function FirstAsDestination(policies: seq<Policy>, s: Source): Option<DeletePolicy> {
    if policies == [] then None
    else if policies[0].destination == s then Some(policies[0].deletePolicy)
    else FirstAsDestination(policies[1..], s)
  }

  // The first policy naming s as source, else as destination, else the default.
  function DeletePolicyFor(policies: seq<Policy>, s: Source): DeletePolicy {
    var a, b := FirstAsSource(policies, s), FirstAsDestination(policies, s);
    if a.Some? then a.value else if b.Some? then b.value else Propagate
  }

  predicate Repairable(kind: FindingKind, policy: DeletePolicy) {
    match kind
    case Deleted => policy.Propagate?
    case Missing => policy.TombstoneOnly? || policy.Ignore?
    case Missed | Drift => true
  }

  function DirectionFor(kind: FindingKind): Direction {
    match kind
    case Deleted => DeleteRecord
    case Missed => AdoptProvider
    case Drift | Missing => PushCanonical
  }

  function NewFinding(sweep: Sweep, kind: FindingKind, id: Id, version: int, row: Option<Row>,
                      fields: Fields): Finding
  {
    var entity := if row.Some? then row.value.entityId else "";
    Finding(sweep.source, kind, id, entity, fields, version, DirectionFor(kind), Pending)
  }

  // INSERT ... ON CONFLICT DO NOTHING.
  function InsertFinding(w: World, f: FindingId, finding: Finding): World {
    if f in w.findings then w else w.(findings := w.findings[f := finding])
  }

  function RepairEvent(sweep: Sweep, f: FindingId, finding: Finding): Event {
    Event(sweep.source, RepairOf(f), finding.providerId, Repair(f), finding.providerVersion, sweep.at, map[])
  }

  // What a sweep does about a finding in the table.
  function Followed(env: Env, w: World, sweep: Sweep, f: FindingId): World
    requires f in w.findings
  {
    var stored := w.findings[f];
    if !sweep.auto || !stored.status.Pending? then w
    else if Repairable(stored.kind, DeletePolicyFor(env.policies, sweep.source))
    then Process(env, w, RepairEvent(sweep, f, stored)).w
    else SetStatus(w, f, SkippedRepair)
  }

  // Persist a divergence and, in auto mode, repair it or park it as blocked by policy.
  function RecordFinding(env: Env, w: World, sweep: Sweep, kind: FindingKind, id: Id, version: int, row: Option<Row>,
                         fields: Fields): World
  {
    var f := FindingId(sweep.id, kind, id);
    Followed(env, InsertFinding(w, f, NewFinding(sweep, kind, id, version, row, fields)), sweep, f)
  }

  function RowFor(w: World, s: Source, id: Id): Option<Row> {
    var i := ByProvider(w.rows, s, id);
    if i < |w.rows| then Some(w.rows[i]) else None
  }

  function SweepRecord(env: Env, w: World, sweep: Sweep, id: Id, rec: Record): World
    requires sweep.source in env.connections
  {
    if rec.deleted || !Validate(env.connections[sweep.source], rec.data) then w
    else
      var fields := FieldsOf(Normalize(env.connections[sweep.source], rec.data));
      var row := RowFor(w, sweep.source, id);
      var kind := Classify(row, fields);
      if kind.None? then w else RecordFinding(env, w, sweep, kind.value, id, rec.version, row, fields)
  }

  // A page is processed from the copy the listing returned.
  function SweepPage(env: Env, w: World, sweep: Sweep, ids: seq<Id>, snapshot: map<Id, Record>): World
    requires sweep.source in env.connections && forall i :: 0 <= i < |ids| ==> ids[i] in snapshot
    decreases |ids|
  {
    if ids == [] then w
    else SweepPage(env, SweepRecord(env, w, sweep, ids[0], snapshot[ids[0]]), sweep, ids[1..], snapshot)
  }

  function LiveIn(ids: seq<Id>, snapshot: map<Id, Record>): set<Id> {
    set id | id in ids && id in snapshot && !snapshot[id].deleted
  }

  // The ids of a page the provider still serves; a listing never names another.
  function Listed(w: World, s: Source, ids: seq<Id>): seq<Id> {
    if ids == [] then []
    else if ids[0] in ProviderOf(w, s).records then [ids[0]] + Listed(w, s, ids[1..])
    else Listed(w, s, ids[1..])
  }

  lemma ListedServed(w: World, s: Source, ids: seq<Id>)
    ensures forall i :: 0 <= i < |Listed(w, s, ids)| ==> Listed(w, s, ids)[i] in ProviderOf(w, s).records
    ensures forall id :: id in Listed(w, s, ids) <==> id in ids && id in ProviderOf(w, s).records
  {
  }

  function LiveCount(ids: seq<Id>, snapshot: map<Id, Record>): nat {
    if ids == [] then 0
    else (if ids[0] in snapshot && !snapshot[ids[0]].deleted then 1 else 0) + LiveCount(ids[1..], snapshot)
  }

  // Where the walk leads, the ids it saw live, and how many live records it counted.
  datatype Walk = Walk(w: World, seen: set<Id>, live: nat)

  // One page: the records of the listed ids, as the listing found them.
  function AfterPage(env: Env, w: World, sweep: Sweep, page: seq<Id>): World
    requires sweep.source in env.connections
  {
    ListedServed(w, sweep.source, page);
    SweepPage(env, w, sweep, Listed(w, sweep.source, page), ProviderOf(w, sweep.source).records)
  }

  function SweepPages(env: Env, w: World, sweep: Sweep, pages: seq<seq<Id>>): Walk
    requires sweep.source in env.connections
    decreases |pages|
  {
    if pages == [] then Walk(w, {}, 0)
    else
      var snapshot, ids := ProviderOf(w, sweep.source).records, Listed(w, sweep.source, pages[0]);
      var rest := SweepPages(env, AfterPage(env, w, sweep, pages[0]), sweep, pages[1..]);
      Walk(rest.w, LiveIn(ids, snapshot) + rest.seen, LiveCount(ids, snapshot) + rest.live)
  }

  // A page of the provider as it is by then.
  ghost function ListingAt(s: Source, size: nat): (World, Id) -> seq<Id> {
    (w, cursor) => PageAt(Listing(ProviderOf(w, s).records.Keys), cursor, size)
  }

  ghost function Sweeping(env: Env, sweep: Sweep): (World, seq<Id>) -> World
    requires sweep.source in env.connections
  {
    (w, page) => AfterPage(env, w, sweep, page)
  }

  // The pages a sweep lists by cursor, from the provider as it is by then, sweeping each before the next.
  ghost function CursorPages(env: Env, w: World, sweep: Sweep, cursor: Id, size: nat, most: nat): seq<seq<Id>>
    requires sweep.source in env.connections
  {
    PagesFrom(w, cursor, most, ListingAt(sweep.source, size), NextFrom(size), Sweeping(env, sweep))
  }

  // The walk from the cursor on, if there is more to list.
  ghost function Remaining(env: Env, w: World, sweep: Sweep, cursor: Id, more: bool, size: nat, most: nat): Walk
    requires sweep.source in env.connections
  {
    SweepPages(env, w, sweep, if more then CursorPages(env, w, sweep, cursor, size, most) else [])
  }

  function Onto(seen: set<Id>, live: nat, rest: Walk): Walk {
    Walk(rest.w, seen + rest.seen, live + rest.live)
  }

  lemma OntoTwice(seen: set<Id>, live: nat, seen': set<Id>, live': nat, rest: Walk)
    ensures Onto(seen, live, Onto(seen', live', rest)) == Onto(seen + seen', live + live', rest)
  {
    assert seen + (seen' + rest.seen) == seen + seen' + rest.seen;
  }

  // rest is Remaining for this sweep: what the walk has still to do, as a function of where it is.
  ghost predicate IsRemaining(env: Env, sweep: Sweep, size: nat, rest: (World, Id, bool, nat) -> Walk)
    requires sweep.source in env.connections
  {
    forall w, cursor, more, most: nat {:trigger Remaining(env, w, sweep, cursor, more, size, most)} ::
      rest(w, cursor, more, most) == Remaining(env, w, sweep, cursor, more, size, most)
  }

  lemma NothingRemains(env: Env, w: World, sweep: Sweep, cursor: Id, more: bool, size: nat, most: nat,
                       seen: set<Id>, live: nat, rest: (World, Id, bool, nat) -> Walk)
    requires sweep.source in env.connections && (!more || most == 0) && IsRemaining(env, sweep, size, rest)
    ensures Onto(seen, live, rest(w, cursor, more, most)) == Walk(w, seen, live)
  {
    assert Remaining(env, w, sweep, cursor, more, size, most) == Walk(w, {}, 0);
  }

  lemma PageThenRemaining(env: Env, w: World, sweep: Sweep, cursor: Id, size: nat, most: nat)
    requires sweep.source in env.connections && most > 0
    ensures var snapshot := ProviderOf(w, sweep.source).records;
            var page := PageAt(Listing(snapshot.Keys), cursor, size);
            var next, ids := NextCursor(page, size), Listed(w, sweep.source, page);
            Remaining(env, w, sweep, cursor, true, size, most) ==
            Onto(LiveIn(ids, snapshot), LiveCount(ids, snapshot),
                 Remaining(env, AfterPage(env, w, sweep, page), sweep, next, next != "", size, most - 1))
  {
    var page := PageAt(Listing(ProviderOf(w, sweep.source).records.Keys), cursor, size);
    assert CursorPages(env, w, sweep, cursor, size, most)[0] == page;
  }

  predicate LooksMissing(row: Row, s: Source, seen: set<Id>) {
    !row.tombstone && IdIn(row.providerIds, s) != "" && IdIn(row.providerIds, s) !in seen
  }

  function MissingOne(env: Env, w: World, sweep: Sweep, row: Row, seen: set<Id>): World {
    if LooksMissing(row, sweep.source, seen)
    then RecordFinding(env, w, sweep, Missing, IdIn(row.providerIds, sweep.source), VersionOf(row, sweep.source),
                       Some(row), row.fields)
    else w
  }

  // Rows that map an id the walk never saw are missing at the provider.
  function MissingPass(env: Env, w: World, sweep: Sweep, rows: seq<Row>, seen: set<Id>): World
    decreases |rows|
  {
    if rows == [] then w else MissingPass(env, MissingOne(env, w, sweep, rows[0], seen), sweep, rows[1..], seen)
  }

  function RunSweep(env: Env, w: World, sweep: Sweep, pages: seq<seq<Id>>): World
    requires sweep.source in env.connections
  {
    var walk := SweepPages(env, w, sweep, pages);
    MissingPass(env, walk.w, sweep, walk.w.rows, walk.seen)
  }

  // ---- The engine -------------------------------------------------------------------------------

  class Engine {
    const worker: Worker

    constructor (worker: Worker)
      ensures this.worker == worker
    {
      this.worker := worker;
    }

    method RecordDivergence(env: Env, sweep: Sweep, kind: FindingKind, id: Id, version: int, row: Option<Row>,
                            fields: Fields)
      modifies worker
      ensures worker.Now() == RecordFinding(env, old(worker.Now()), sweep, kind, id, version, row, fields)
    {
      var f := FindingId(sweep.id, kind, id);
      if f !in worker.findings {
        worker.findings := worker.findings[f := NewFinding(sweep, kind, id, version, row, fields)];
      }
      RepairOrSkip(env, sweep, f);
    }

    // In auto mode, repairs a pending finding or parks it as blocked by policy.
    method RepairOrSkip(env: Env, sweep: Sweep, f: FindingId)
      requires f in worker.findings
      modifies worker
      ensures worker.Now() == Followed(env, old(worker.Now()), sweep, f)
    {
      var stored := worker.findings[f];
      if sweep.auto && stored.status.Pending? {
        if Repairable(stored.kind, DeletePolicyFor(env.policies, sweep.source)) {
          var _ := worker.ProcessEvent(env, RepairEvent(sweep, f, stored));
        } else {
          worker.SetFindingStatus(f, SkippedRepair);
        }
      }
    }

    // Walks one page. Every live record is counted once, as processed or as failed.
    method WalkPage(env: Env, sweep: Sweep, ids: seq<Id>, snapshot: map<Id, Record>)
      returns (processed: nat, failed: nat, seen: set<Id>)
      requires sweep.source in env.connections && forall i :: 0 <= i < |ids| ==> ids[i] in snapshot
      modifies worker
      ensures worker.Now() == SweepPage(env, old(worker.Now()), sweep, ids, snapshot)
      ensures seen == LiveIn(ids, snapshot) && processed + failed == LiveCount(ids, snapshot)
    {
      processed, failed, seen := 0, 0, {};
      for i := 0 to |ids|
        invariant SweepPage(env, worker.Now(), sweep, ids[i..], snapshot) ==
                  SweepPage(env, old(worker.Now()), sweep, ids, snapshot)
        invariant seen == LiveIn(ids[..i], snapshot)
        invariant processed + failed + LiveCount(ids[i..], snapshot) == LiveCount(ids, snapshot)
      {
        var id, rec := ids[i], snapshot[ids[i]];
        assert ids[i..][0] == id && ids[i..][1..] == ids[i + 1..];
        assert ids[..i + 1] == ids[..i] + [id];
        if rec.deleted { continue; }
        seen := seen + {id};
        if !Validate(env.connections[sweep.source], rec.data) {
          failed := failed + 1;
          continue;
        }
        var fields := FieldsOf(Normalize(env.connections[sweep.source], rec.data));
        var row := RowFor(worker.Now(), sweep.source, id);
        var kind := Classify(row, fields);
        if kind.Some? {
          RecordDivergence(env, sweep, kind.value, id, rec.version, row, fields);
        }
        processed := processed + 1;
      }
      assert ids[..|ids|] == ids;
    }

    method DetectMissing(env: Env, sweep: Sweep, rows: seq<Row>, seen: set<Id>)
      modifies worker
      ensures worker.Now() == MissingPass(env, old(worker.Now()), sweep, rows, seen)
    {
      for i := 0 to |rows|
        invariant MissingPass(env, worker.Now(), sweep, rows[i..], seen) ==
                  MissingPass(env, old(worker.Now()), sweep, rows, seen)
      {
        var row := rows[i];
        assert rows[i..][0] == row && rows[i..][1..] == rows[i + 1..];
        if row.tombstone { continue; }
        var id := IdIn(row.providerIds, sweep.source);
        if id == "" || id in seen { continue; }
        RecordDivergence(env, sweep, Missing, id, VersionOf(row, sweep.source), Some(row), row.fields);
      }
    }

    // A whole sweep, listing the provider by cursor. most bounds the number of pages.
    method RunToEnd(env: Env, sweep: Sweep, size: nat, most: nat) returns (processed: nat, failed: nat)
      requires sweep.source in env.connections
      modifies worker
      ensures worker.Now() == RunSweep(env, old(worker.Now()), sweep,
                                       CursorPages(env, old(worker.Now()), sweep, "", size, most))
      ensures processed + failed ==
              SweepPages(env, old(worker.Now()), sweep, CursorPages(env, old(worker.Now()), sweep, "", size, most)).live
    {
      ghost var rest := (w: World, cursor: Id, more: bool, left: nat) => Remaining(env, w, sweep, cursor, more, size,
          left);
      var seen: set<Id>;
      processed, failed, seen := WalkByCursor(env, sweep, size, most, rest);
      DetectMissing(env, sweep, worker.rows, seen);
    }

    method WalkByCursor(env: Env, sweep: Sweep, size: nat, most: nat, ghost rest: (World, Id, bool, nat) -> Walk)
      returns (processed: nat, failed: nat, seen: set<Id>)
      requires sweep.source in env.connections && IsRemaining(env, sweep, size, rest)
      modifies worker
      ensures Walk(worker.Now(), seen, processed + failed) == rest(old(worker.Now()), "", true, most)
    {
      processed, failed, seen := 0, 0, {};
      var cursor, more, left := "", true, most;
      while more && left > 0
        invariant rest(old(worker.Now()), "", true, most) ==
                  Onto(seen, processed + failed, rest(worker.Now(), cursor, more, left))
        decreases left
      {
        var p, f, live, next := WalkNext(env, sweep, cursor, size, left, rest);
        OntoTwice(seen, processed + failed, live, p + f, rest(worker.Now(), next, next != "", left - 1));
        processed, failed, seen := processed + p, failed + f, seen + live;
        cursor, more, left := next, next != "", left - 1;
      }
      NothingRemains(env, worker.Now(), sweep, cursor, more, size, left, seen, processed + failed, rest);
    }

    // Lists the page after the cursor and walks it.
    method WalkNext(env: Env, sweep: Sweep, cursor: Id, size: nat, ghost most: nat,
                    ghost rest: (World, Id, bool, nat) -> Walk)
      returns (processed: nat, failed: nat, seen: set<Id>, next: Id)
      requires sweep.source in env.connections && most > 0 && IsRemaining(env, sweep, size, rest)
      modifies worker
      ensures rest(old(worker.Now()), cursor, true, most) ==
              Onto(seen, processed + failed, rest(worker.Now(), next, next != "", most - 1))
    {
      PageThenRemaining(env, worker.Now(), sweep, cursor, size, most);
      var snapshot, page := ProviderOf(worker.Now(), sweep.source).records, [];
      page, next := ListPage(snapshot.Keys, cursor, size);
      ListedServed(worker.Now(), sweep.source, page);
      processed, failed, seen := WalkPage(env, sweep, Listed(worker.Now(), sweep.source, page), snapshot);
    }
  }
}
