/**
 Induction over a sweep: what sweeping one record keeps, the walk keeps; what looking at one row
 keeps, the missing pass keeps.
 */
module SweepInduction {
  import opened Customers
  import opened Tables
  import opened Reconcile

  ghost predicate NoRepeats(ids: seq<Id>) {
    forall i, j :: 0 <= i < j < |ids| ==> ids[i] != ids[j]
  }

  // The walk lists no id twice.
  ghost predicate ListsOnce(pages: seq<seq<Id>>) {
    && (forall i :: 0 <= i < |pages| ==> NoRepeats(pages[i]))
    && (forall i, j, id :: 0 <= i < j < |pages| && id in pages[i] ==> id !in pages[j])
  }

  // The walk lists every record of the provider.
  ghost predicate Covers(pages: seq<seq<Id>>, p: Provider) {
    forall id :: id in p.records ==> exists i :: 0 <= i < |pages| && id in pages[i]
  }

  // The ids a walk over these records lists.
  ghost function Walked(pages: seq<seq<Id>>, p: Provider): set<Id> {
    set id | id in p.records && exists i :: 0 <= i < |pages| && id in pages[i]
  }

  lemma WalkedTail(pages: seq<seq<Id>>, p: Provider)
    requires pages != []
    ensures Walked(pages, p) == (set id | id in pages[0] && id in p.records) + Walked(pages[1..], p)
  {
    forall id | id in Walked(pages, p) ensures id in pages[0] || id in Walked(pages[1..], p) {
      var i :| 0 <= i < |pages| && id in pages[i];
      if i > 0 { assert pages[1..][i - 1] == pages[i]; }
    }
    forall id | id in Walked(pages[1..], p) ensures id in Walked(pages, p) {
      var i :| 0 <= i < |pages[1..]| && id in pages[1..][i];
      assert pages[i + 1] == pages[1..][i];
    }
  }

  // What holds of a world and the ids walked so far, if sweeping one more id keeps it, holds at the
  // end of the page. With once set, no id comes twice.
  lemma {:induction false} PageInduction(env: Env, sweep: Sweep, once: bool, w: World, done: set<Id>, ids: seq<Id>,
                                         store: map<Id, Record>, inv: (World, set<Id>) -> bool)
    requires sweep.source in env.connections && inv(w, done) && forall i :: 0 <= i < |ids| ==> ids[i] in store
    requires once ==> NoRepeats(ids) && forall i :: 0 <= i < |ids| ==> ids[i] !in done
    requires forall x, d, id ::
               inv(x, d) && (once ==> id !in d) && id in store ==>
                 inv(SweepRecord(env, x, sweep, id, store[id]), d + {id})
    ensures inv(SweepPage(env, w, sweep, ids, store), done + (set id | id in ids))
    decreases |ids|
  {
    if ids == [] {
      assert done + (set id | id in ids) == done;
    } else {
      PageInduction(env, sweep, once, SweepRecord(env, w, sweep, ids[0], store[ids[0]]), done + {ids[0]}, ids[1..],
                    store, inv);
      assert done + {ids[0]} + (set id | id in ids[1..]) == done + (set id | id in ids);
    }
  }

  // A page only depends on the records it lists.
  lemma {:induction false} PageSnapshot(env: Env, sweep: Sweep, w: World, ids: seq<Id>, a: map<Id, Record>,
                                        b: map<Id, Record>)
    requires sweep.source in env.connections &&
             forall i :: 0 <= i < |ids| ==> ids[i] in a && ids[i] in b && a[ids[i]] == b[ids[i]]
    ensures SweepPage(env, w, sweep, ids, a) == SweepPage(env, w, sweep, ids, b)
    decreases |ids|
  {
    if ids != [] { PageSnapshot(env, sweep, SweepRecord(env, w, sweep, ids[0], a[ids[0]]), ids[1..], a, b); }
  }

  lemma {:induction false} ListedNoRepeats(w: World, s: Source, ids: seq<Id>)
    requires NoRepeats(ids)
    ensures NoRepeats(Listed(w, s, ids))
    decreases |ids|
  {
    if ids != [] {
      ListedNoRepeats(w, s, ids[1..]);
      ListedServed(w, s, ids[1..]);
      assert ids[0] !in Listed(w, s, ids[1..]);
    }
  }

  // The records are those the walk began with, except that walked ones may have changed.
  ghost predicate Ahead(x: World, s: Source, d: set<Id>, p0: Provider) {
    && ProviderOf(x, s).records.Keys == p0.records.Keys
    && forall id :: id in p0.records && id !in d ==> ProviderOf(x, s).records[id] == p0.records[id]
  }

  // The records are those the walk began with.
  ghost predicate Unchanged(x: World, s: Source, p0: Provider) {
    ProviderOf(x, s).records == p0.records
  }

  // Sweeping a record of p0 keeps inv, and inv says that the records not yet walked are those of p0.
  // With once set, no id comes twice.
  ghost predicate Keeps(env: Env, sweep: Sweep, once: bool, p0: Provider, inv: (World, set<Id>) -> bool)
    requires sweep.source in env.connections
  {
    && (forall x, d, id :: inv(x, d) && (once ==> id !in d) && id in p0.records ==>
          inv(SweepRecord(env, x, sweep, id, p0.records[id]), d + {id}))
    && (forall x, d :: inv(x, d) ==>
          if once then Ahead(x, sweep.source, d, p0) else Unchanged(x, sweep.source, p0))
  }

  // One page keeps inv, and sees the live records on it.
  lemma FirstPage(env: Env, sweep: Sweep, once: bool, w: World, done: set<Id>, page: seq<Id>, p0: Provider,
                  inv: (World, set<Id>) -> bool)
    requires sweep.source in env.connections && inv(w, done) && Keeps(env, sweep, once, p0, inv)
    requires once ==> NoRepeats(page) && forall id :: id in page ==> id !in done
    ensures var ids, now := Listed(w, sweep.source, page), set id | id in page && id in p0.records;
            && inv(AfterPage(env, w, sweep, page), done + now)
            && LiveIn(ids, ProviderOf(w, sweep.source).records) == set id | id in now && !p0.records[id].deleted
  {
    var p, ids := ProviderOf(w, sweep.source), Listed(w, sweep.source, page);
    assert if once then Ahead(w, sweep.source, done, p0) else Unchanged(w, sweep.source, p0);
    ListedServed(w, sweep.source, page);
    if once { ListedNoRepeats(w, sweep.source, page); }
    PageInduction(env, sweep, once, w, done, ids, p0.records, inv);
    PageSnapshot(env, sweep, w, ids, p.records, p0.records);
    assert (set id | id in ids) == set id | id in page && id in p0.records;
  }

  lemma {:induction false} WalkInduction(env: Env, sweep: Sweep, once: bool, w: World, done: set<Id>,
                                         pages: seq<seq<Id>>, p0: Provider, inv: (World, set<Id>) -> bool)
    requires sweep.source in env.connections && inv(w, done)
    requires once ==> ListsOnce(pages) && forall i, id :: 0 <= i < |pages| && id in pages[i] ==> id !in done
    requires Keeps(env, sweep, once, p0, inv)
    ensures var walk := SweepPages(env, w, sweep, pages);
            inv(walk.w, done + Walked(pages, p0)) && walk.seen == set id | id in Walked(pages, p0) &&
                !p0.records[id].deleted
    decreases |pages|
  {
    if pages == [] {
      assert done + Walked(pages, p0) == done;
    } else {
      var ids, now := Listed(w, sweep.source, pages[0]), set id | id in pages[0] && id in p0.records;
      FirstPage(env, sweep, once, w, done, pages[0], p0, inv);
      if once { LaterPages(pages, done, now); }
      WalkInduction(env, sweep, once, AfterPage(env, w, sweep, pages[0]), done + now, pages[1..], p0, inv);
      WalkedTail(pages, p0);
      assert done + Walked(pages, p0) == done + now + Walked(pages[1..], p0);
    }
  }

  lemma LaterPages(pages: seq<seq<Id>>, done: set<Id>, now: set<Id>)
    requires pages != [] && ListsOnce(pages) && forall id :: id in now ==> id in pages[0]
    requires forall i, id :: 0 <= i < |pages| && id in pages[i] ==> id !in done
    ensures ListsOnce(pages[1..]) && forall i, id :: 0 <= i < |pages[1..]| && id in pages[1..][i] ==> id !in done + now
  {
    assert forall i :: 0 <= i < |pages[1..]| ==> pages[1..][i] == pages[i + 1];
  }

  lemma {:induction false} PassInduction(env: Env, sweep: Sweep, w: World, rows: seq<Row>, seen: set<Id>,
                                         inv: (World, seq<Row>) -> bool)
    requires inv(w, rows)
    requires forall x, rest :: inv(x, rest) && rest != [] ==> inv(MissingOne(env, x, sweep, rest[0], seen), rest[1..])
    ensures inv(MissingPass(env, w, sweep, rows, seen), [])
    decreases |rows|
  {
    if rows != [] { PassInduction(env, sweep, MissingOne(env, w, sweep, rows[0], seen), rows[1..], seen, inv); }
  }

  // ---- What a walk counts ---------------------------------------------------------------------------

  lemma {:induction false} PageCounts(ids: seq<Id>, snapshot: map<Id, Record>)
    requires NoRepeats(ids)
    ensures LiveCount(ids, snapshot) == |LiveIn(ids, snapshot)|
    decreases |ids|
  {
    if ids != [] {
      var rest := LiveIn(ids[1..], snapshot);
      PageCounts(ids[1..], snapshot);
      LiveFirst(ids, snapshot);
      assert ids[0] !in rest;
    }
  }

  lemma LiveFirst(ids: seq<Id>, snapshot: map<Id, Record>)
    requires ids != []
    ensures LiveIn(ids, snapshot) ==
            LiveIn(ids[1..], snapshot) + if ids[0] in snapshot && !snapshot[ids[0]].deleted then {ids[0]} else {}
  {
    assert forall id :: id in ids <==> id == ids[0] || id in ids[1..];
  }

  // A walk that lists no id twice counts what it saw, each once.
  lemma {:induction false} WalkCountsSeen(env: Env, w: World, sweep: Sweep, pages: seq<seq<Id>>)
    requires sweep.source in env.connections && ListsOnce(pages)
    ensures var walk := SweepPages(env, w, sweep, pages);
            && walk.live == |walk.seen|
            && forall id :: id in walk.seen ==> exists i :: 0 <= i < |pages| && id in pages[i]
    decreases |pages|
  {
    if pages != [] {
      var snapshot, ids := ProviderOf(w, sweep.source).records, Listed(w, sweep.source, pages[0]);
      var rest := SweepPages(env, AfterPage(env, w, sweep, pages[0]), sweep, pages[1..]);
      LaterPages(pages, {}, {});
      WalkCountsSeen(env, AfterPage(env, w, sweep, pages[0]), sweep, pages[1..]);
      ListedServed(w, sweep.source, pages[0]);
      ListedNoRepeats(w, sweep.source, pages[0]);
      PageCounts(ids, snapshot);
      SeenApart(pages, LiveIn(ids, snapshot), rest.seen);
    }
  }

  // The first page and the later ones have seen different ids.
  lemma SeenApart(pages: seq<seq<Id>>, first: set<Id>, later: set<Id>)
    requires pages != [] && ListsOnce(pages) && forall id :: id in first ==> id in pages[0]
    requires forall id :: id in later ==> exists i :: 0 <= i < |pages[1..]| && id in pages[1..][i]
    ensures |first + later| == |first| + |later|
    ensures forall id :: id in first + later ==> exists i :: 0 <= i < |pages| && id in pages[i]
  {
    forall id | id in later ensures id !in first && exists i :: 0 <= i < |pages| && id in pages[i] {
      var i :| 0 <= i < |pages[1..]| && id in pages[1..][i];
      assert pages[i + 1] == pages[1..][i];
    }
    Disjoint(first, later);
  }

  lemma Disjoint(a: set<Id>, b: set<Id>)
    requires a !! b
    ensures |a + b| == |a| + |b|
  {
  }
}
