/**
 The pages a sweep lists by cursor. As long as the walk keeps the provider's keys, they are the pages
 of one unchanging listing: they cover the provider and list no id twice.
 */
module SweepListing {
  import opened Customers
  import opened Tables
  import opened ByteOrder
  import opened Listings
  import opened Reconcile
  import opened SweepInduction

  lemma AscendingNoRepeats(ids: seq<Id>)
    requires Ascending(ids)
    ensures NoRepeats(ids)
  {
    forall i, j | 0 <= i < j < |ids| ensures ids[i] != ids[j] { LessIrreflexive(ids[i]); }
  }

  lemma CutWalks(p: Provider, size: nat)
    requires "" !in p.records && size > 0
    ensures Covers(Cut(Listing(p.records.Keys), "", size), p) && ListsOnce(Cut(Listing(p.records.Keys), "", size))
  {
    var ids := Listing(p.records.Keys);
    var pages := Cut(ids, "", size);
    CutApart(ids, "", size);
    forall i | 0 <= i < |pages| ensures NoRepeats(pages[i]) { AscendingNoRepeats(pages[i]); }
    forall id | id in p.records ensures OnPages(pages, id) { CutHolds(ids, "", size, id); }
  }

  // One page by cursor keeps what the walk keeps; its ids are those it adds.
  lemma PageKeeps(env: Env, sweep: Sweep, once: bool, w: World, done: set<Id>, page: seq<Id>, p0: Provider,
                  inv: (World, set<Id>) -> bool)
    requires sweep.source in env.connections && inv(w, done) && Keeps(env, sweep, once, p0, inv)
    requires once ==> NoRepeats(page) && forall id :: id in page ==> id !in done
    requires forall id :: id in page ==> id in p0.records
    ensures inv(AfterPage(env, w, sweep, page), done + set id | id in page)
  {
    WalkInduction(env, sweep, once, w, done, [page], p0, inv);
    WalkedTail([page], p0);
    assert Walked([page], p0) == set id | id in page;
    assert SweepPages(env, w, sweep, [page]).w == AfterPage(env, w, sweep, page);
  }

  lemma KeysKept(env: Env, sweep: Sweep, once: bool, w: World, done: set<Id>, p0: Provider,
                 inv: (World, set<Id>) -> bool)
    requires sweep.source in env.connections && inv(w, done) && Keeps(env, sweep, once, p0, inv)
    ensures ProviderOf(w, sweep.source).records.Keys == p0.records.Keys
  {
    assert if once then Ahead(w, sweep.source, done, p0) else Unchanged(w, sweep.source, p0);
  }

  // None of the ids is beyond the cursor.
  ghost predicate Behind(ids: set<Id>, cursor: Id) {
    forall id :: id in ids ==> !Beyond(cursor, id)
  }

  // A page by cursor leads to a world where the walk holds again, with everything walked behind the next cursor.
  lemma PageAdvances(env: Env, sweep: Sweep, once: bool, w: World, done: set<Id>, cursor: Id, size: nat,
                     page: seq<Id>, p0: Provider, inv: (World, set<Id>) -> bool)
    requires sweep.source in env.connections && inv(w, done) && Keeps(env, sweep, once, p0, inv)
    requires size > 0 && "" !in p0.records && (cursor == "" || cursor in p0.records)
    requires once ==> Behind(done, cursor)
    requires page == PageAt(Listing(p0.records.Keys), cursor, size) && NextCursor(page, size) != ""
    ensures var done' := done + set id | id in page;
            && inv(AfterPage(env, w, sweep, page), done')
            && (once ==> Behind(done', NextCursor(page, size)))
  {
    var ids, next := Listing(p0.records.Keys), NextCursor(page, size);
    PageExact(ids, cursor, size);
    AscendingNoRepeats(page);
    PageKeeps(env, sweep, once, w, done, page, p0, inv);
    assert next in page;
    var done' := done + set id | id in page;
    forall id | once && id in done' ensures !Beyond(next, id) { BehindNext(page, cursor, next, id); }
  }

  // The walk stands at the cursor, where all it has walked is behind.
  ghost function StandsAt(once: bool, keys: set<Id>, inv: (World, set<Id>) -> bool): (World, Id) -> bool {
    (x, cursor) =>
      && (cursor == "" || cursor in keys)
      && exists d :: inv(x, d) && (once ==> Behind(d, cursor))
  }

  lemma WalkAdvances(env: Env, sweep: Sweep, once: bool, size: nat, p0: Provider, inv: (World, set<Id>) -> bool)
    requires sweep.source in env.connections && Keeps(env, sweep, once, p0, inv) && size > 0 && "" !in p0.records
    ensures Advances(ListingAt(sweep.source, size), PageFrom(Listing(p0.records.Keys), size), NextFrom(size),
                     Sweeping(env, sweep), StandsAt(once, p0.records.Keys, inv))
  {
    var ids, at := Listing(p0.records.Keys), StandsAt(once, p0.records.Keys, inv);
    forall x, cursor | at(x, cursor)
      ensures ProviderOf(x, sweep.source).records.Keys == p0.records.Keys
      ensures var page := PageAt(ids, cursor, size);
              NextCursor(page, size) != "" ==> at(AfterPage(env, x, sweep, page), NextCursor(page, size))
    {
      var d :| inv(x, d) && (once ==> Behind(d, cursor));
      KeysKept(env, sweep, once, x, d, p0, inv);
      var page := PageAt(ids, cursor, size);
      if NextCursor(page, size) != "" {
        PageAdvances(env, sweep, once, x, d, cursor, size, page, p0, inv);
        NextStarts(ids, cursor, size);
      }
    }
  }

  // What is not beyond the cursor, or is on the page, is not beyond the page.
  lemma BehindNext(page: seq<Id>, cursor: Id, next: Id, id: Id)
    requires Ascending(page) && page != [] && page[|page| - 1] == next && next != "" && Beyond(cursor, next)
    requires id in page || !Beyond(cursor, id)
    ensures !Beyond(next, id)
  {
    if id in page {
      NotAfterLast(page, next, id);
    } else if Less(next, id) {
      LessTransitive(cursor, next, id);
    }
  }

  // A sweep allowed more pages than there are records lists every record, once.
  lemma CursorCovers(env: Env, sweep: Sweep, once: bool, w: World, size: nat, most: nat, inv: (World, set<Id>) -> bool)
    requires sweep.source in env.connections && inv(w, {})
    requires Keeps(env, sweep, once, ProviderOf(w, sweep.source), inv)
    requires size > 0 && "" !in ProviderOf(w, sweep.source).records && most > |ProviderOf(w, sweep.source).records|
    ensures var pages := CursorPages(env, w, sweep, "", size, most);
            Covers(pages, ProviderOf(w, sweep.source)) && ListsOnce(pages)
  {
    var p := ProviderOf(w, sweep.source);
    ListingLength(Listing(p.records.Keys), p.records.Keys);
    WalkAdvances(env, sweep, once, size, p, inv);
    assert StandsAt(once, p.records.Keys, inv)(w, "");
    FixedPagesAreCut(Listing(p.records.Keys), "", size, most);
    PagesAreFixed(w, "", most, ListingAt(sweep.source, size), PageFrom(Listing(p.records.Keys), size), NextFrom(size),
                  Sweeping(env, sweep), StandsAt(once, p.records.Keys, inv));
    CutWalks(p, size);
  }

  // The live records of the provider.
  function LiveRecords(p: Provider): set<Id> {
    set id | id in p.records && !p.records[id].deleted
  }

  lemma WalkCountsLive(env: Env, sweep: Sweep, once: bool, w: World, pages: seq<seq<Id>>, p: Provider,
                       inv: (World, set<Id>) -> bool)
    requires sweep.source in env.connections && inv(w, {}) && Keeps(env, sweep, once, p, inv)
    requires ListsOnce(pages) && Covers(pages, p)
    ensures SweepPages(env, w, sweep, pages).live == |LiveRecords(p)|
  {
    WalkInduction(env, sweep, once, w, {}, pages, p, inv);
    WalkCountsSeen(env, w, sweep, pages);
    assert Walked(pages, p) == p.records.Keys;
    assert SweepPages(env, w, sweep, pages).seen == LiveRecords(p);
  }

  // Such a sweep counts every live record once.
  lemma CursorCounts(env: Env, sweep: Sweep, once: bool, w: World, size: nat, most: nat, inv: (World, set<Id>) -> bool)
    requires sweep.source in env.connections && inv(w, {})
    requires Keeps(env, sweep, once, ProviderOf(w, sweep.source), inv)
    requires size > 0 && "" !in ProviderOf(w, sweep.source).records && most > |ProviderOf(w, sweep.source).records|
    ensures SweepPages(env, w, sweep, CursorPages(env, w, sweep, "", size, most)).live ==
            |LiveRecords(ProviderOf(w, sweep.source))|
  {
    var p, pages := ProviderOf(w, sweep.source), CursorPages(env, w, sweep, "", size, most);
    CursorCovers(env, sweep, once, w, size, most, inv);
    WalkCountsLive(env, sweep, once, w, pages, p, inv);
  }
}
