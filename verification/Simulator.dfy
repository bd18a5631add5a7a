/**
 The simulated provider's record store (internal/simulator/store.go): generated ids, in-place
 updates, soft deletes, and a listing paged by the last id returned.
 */
module Simulator {
  import opened ByteOrder
  import opened Backoff
  import opened RecordIds
  import opened Listings
  import opened Customers
  import Tables

  datatype Rec = Rec(version: int, updatedAt: int, deleted: bool, data: Fields)

  function PageSize(limit: int): nat {
    if limit <= 0 || limit > 1000 then 100 else limit
  }

  // The first n ids from position k on that are not older than since.
  function Collect(ids: seq<string>, k: nat, records: map<string, Rec>, n: nat, since: Tables.Option<int>): seq<string>
    requires k <= |ids|
    decreases |ids| - k
  {
    if k == |ids| || n == 0 then []
    else if Older(records, ids[k], since) then Collect(ids, k + 1, records, n, since)
    else [ids[k]] + Collect(ids, k + 1, records, n - 1, since)
  }

  predicate Older(records: map<string, Rec>, id: string, since: Tables.Option<int>) {
    since.Some? && id in records && records[id].updatedAt < since.value
  }

  // What a listing answers: the first ids after the cursor that are not older than since.
  ghost function PageOf(records: map<string, Rec>, cursor: string, size: nat, since: Tables.Option<int>): seq<string> {
    var ids := Listing(records.Keys);
    Collect(ids, StartAfter(ids, cursor), records, size, since)
  }

  lemma FirstOf(ids: seq<string>, k: nat, end: nat)
    requires k < end <= |ids|
    ensures ids[k..end] == [ids[k]] + ids[k + 1..end]
  {
  }

  lemma {:induction false} CollectsPage(ids: seq<string>, k: nat, records: map<string, Rec>, n: nat)
    requires k <= |ids|
    ensures Collect(ids, k, records, n, Tables.None) == ids[k..if |ids| - k < n then |ids| else k + n]
    decreases |ids| - k
  {
    if k < |ids| && n > 0 {
      CollectsPage(ids, k + 1, records, n - 1);
      FirstOf(ids, k, if |ids| - k < n then |ids| else k + n);
    }
  }

  // Without a since filter that is a page of the plain listing.
  lemma PageOfIs(records: map<string, Rec>, cursor: string, size: nat)
    ensures PageOf(records, cursor, size, Tables.None) == PageAt(Listing(records.Keys), cursor, size)
  {
    var ids := Listing(records.Keys);
    CollectsPage(ids, StartAfter(ids, cursor), records, size);
    PageIsStretch(ids, cursor, size);
  }

  // The records returned are those of the ids.
  ghost predicate Copies(records: map<string, Rec>, ids: seq<string>, recs: seq<Rec>) {
    |recs| == |ids| && forall i :: 0 <= i < |ids| ==> ids[i] in records && recs[i] == records[ids[i]]
  }

  // ---- The store --------------------------------------------------------------------------------------------

  datatype State = State(records: map<string, Rec>, nextId: int)

  datatype Op = Insert(data: Fields) | Update(id: string, data: Fields) | SoftDelete(id: string)

  function NewId(prefix: string, s: State): string {
    prefix + PadOf(Wrap(s.nextId + 1))
  }

  // What one operation at time now does. Updates and deletes of an unknown id do nothing.
  function Apply(prefix: string, s: State, op: Op, now: int): State {
    match op
    case Insert(data) => State(s.records[NewId(prefix, s) := Rec(1, now, false, data)], Wrap(s.nextId + 1))
    case Update(id, data) =>
      if id !in s.records then s
      else var r := s.records[id]; s.(records := s.records[id := Rec(r.version + 1, now, r.deleted, r.data + data)])
    case SoftDelete(id) =>
      if id !in s.records then s
      else var r := s.records[id];
           s.(records := s.records[id := Rec(r.version + 1, now, true, r.data["deleted" := Flag(true)])])
  }

  class Store {
    const prefix: string
    var records: map<string, Rec>
    var nextId: int

    constructor (prefix: string)
      ensures this.prefix == prefix && Now() == State(map[], 0)
    {
      this.prefix, records, nextId := prefix, map[], 0;
    }

    ghost function Now(): State
      reads this
    {
      State(records, nextId)
    }

    method GenId() returns (id: string)
      requires Int64(nextId)
      modifies this`nextId
      ensures nextId == Wrap(old(nextId) + 1) && id == NewId(prefix, old(Now()))
    {
      nextId := Wrap(nextId + 1);
      var p := Pad(nextId);
      id := prefix + p;
    }

    method InsertRecord(data: Fields, now: int) returns (id: string)
      requires Int64(nextId)
      modifies this
      ensures id == NewId(prefix, old(Now())) && Now() == Apply(prefix, old(Now()), Insert(data), now)
    {
      id := GenId();
      records := records[id := Rec(1, now, false, data)];
    }

    method UpdateRecord(id: string, data: Fields, now: int) returns (found: bool)
      modifies this`records
      ensures found == (id in old(records)) && Now() == Apply(prefix, old(Now()), Update(id, data), now)
    {
      if id !in records { return false; }
      var r := records[id];
      records := records[id := Rec(r.version + 1, now, r.deleted, r.data + data)];
      return true;
    }

    method SoftDeleteRecord(id: string, now: int) returns (found: bool)
      modifies this`records
      ensures found == (id in old(records)) && Now() == Apply(prefix, old(Now()), SoftDelete(id), now)
    {
      if id !in records { return false; }
      var r := records[id];
      records := records[id := Rec(r.version + 1, now, true, r.data["deleted" := Flag(true)])];
      return true;
    }

    // One page, as ids and copies of their records.
    method List(cursor: string, limit0: int, since: Tables.Option<int>)
      returns (out: seq<string>, recs: seq<Rec>, next: string, more: bool)
      ensures out == PageOf(records, cursor, PageSize(limit0), since)
      ensures Copies(records, out, recs) && next == NextCursor(out, PageSize(limit0)) && more == (next != "")
    {
      var sorted := SortStrings(records.Keys);
      AscendingUnique(sorted, Listing(records.Keys));
      var start := FindStart(sorted, cursor);
      var limit := limit0;
      if limit <= 0 || limit > 1000 { limit := 100; }
      out, recs, next := TakePage(sorted, start, records, limit, since);
      more := next != "";
    }
  }

  method TakePage(ids: seq<string>, start: nat, records: map<string, Rec>, limit: nat, since: Tables.Option<int>)
    returns (out: seq<string>, recs: seq<Rec>, next: string)
    requires limit > 0 && start <= |ids| && forall i :: 0 <= i < |ids| ==> ids[i] in records
    ensures out == Collect(ids, start, records, limit, since) && next == NextCursor(out, limit)
    ensures Copies(records, out, recs)
  {
    out, recs, next := [], [], "";
    for k := start to |ids|
      invariant |out| < limit && Copies(records, out, recs)
      invariant out + Collect(ids, k, records, limit - |out|, since) == Collect(ids, start, records, limit, since)
    {
      var id := ids[k];
      if since.Some? && records[id].updatedAt < since.value { continue; }
      Regroup(out, id, Collect(ids, k + 1, records, limit - |out| - 1, since));
      out, recs := out + [id], recs + [records[id]];
      if |out| >= limit {
        next := id;
        return;
      }
    }
    assert out + [] == out;
  }

  lemma Regroup(out: seq<string>, id: string, rest: seq<string>)
    ensures out + ([id] + rest) == out + [id] + rest
  {
  }

  // Walks a store nobody changes, page by page, and returns its whole listing.
  method WalkQuiet(store: Store, limit: int) returns (ids: seq<string>)
    requires "" !in store.records
    ensures ids == Listing(store.records.Keys)
  {
    ids := [];
    var cursor, more := "", true;
    ghost var all, size := Listing(store.records.Keys), PageSize(limit);
    while more
      invariant more ==> ids == all[..StartAfter(all, cursor)]
      invariant !more ==> ids == all
      decreases more, |all| - StartAfter(all, cursor)
    {
      var page, _, next, again := store.List(cursor, limit, Tables.None);
      PageOfIs(store.records, cursor, size);
      PageGoesOn(all, cursor, size);
      ids, cursor, more := ids + page, next, again;
    }
  }
}
