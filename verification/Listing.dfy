/**
 Listings by cursor: the ids of a provider in byte order, cut into pages that start after the last id
 of the page before. A page with no next cursor is the last one.
 */
module Listings {
  import opened ByteOrder

  // ids is the sorted listing of the keys.
  ghost predicate IsListing(ids: seq<string>, keys: set<string>) {
    Ascending(ids) && forall id :: id in ids <==> id in keys
  }

  // The sorted listing of the keys.
  ghost function Listing(keys: set<string>): (ids: seq<string>)
    ensures IsListing(ids, keys)
  {
    if keys == {} then []
    else
      var x :| x in keys;
      var rest := Listing(keys - {x});
      InsertIdSorted(x, rest);
      InsertId(x, rest)
  }

  // A page of the plain listing, without a since filter.
  ghost function PageAt(ids: seq<string>, cursor: string, size: nat): seq<string> {
    var rest := ids[StartAfter(ids, cursor)..];
    if |rest| < size then rest else rest[..size]
  }

  lemma PageIsStretch(ids: seq<string>, cursor: string, size: nat)
    ensures var start := StartAfter(ids, cursor);
            PageAt(ids, cursor, size) == ids[start..if |ids| - start < size then |ids| else start + size]
  {
  }

  // Where the page starts: after the cursor if it is listed, else at the beginning.
  function StartAfter(ids: seq<string>, cursor: string): (i: nat)
    ensures i <= |ids|
    ensures cursor in ids && cursor != "" ==> i > 0 && ids[i - 1] == cursor
  {
    if cursor == "" then 0 else PositionAfter(ids, cursor, 0)
  }

  function PositionAfter(ids: seq<string>, cursor: string, i: nat): (r: nat)
    requires i <= |ids|
    ensures r <= |ids| && (r > 0 ==> r > i && ids[r - 1] == cursor) && (cursor in ids[i..] ==> r > 0)
    decreases |ids| - i
  {
    if i == |ids| then 0 else if ids[i] == cursor then i + 1 else PositionAfter(ids, cursor, i + 1)
  }

  function NextCursor(page: seq<string>, size: nat): string {
    if |page| == size && size > 0 then page[size - 1] else ""
  }

  // ---- Sorting ----------------------------------------------------------------------------------------------

  function InsertId(x: string, ids: seq<string>): seq<string> {
    if ids == [] || Less(x, ids[0]) then [x] + ids else [ids[0]] + InsertId(x, ids[1..])
  }

  lemma {:induction false} InsertIdSorted(x: string, ids: seq<string>)
    requires Ascending(ids) && x !in ids
    ensures Ascending(InsertId(x, ids)) && forall y :: y in InsertId(x, ids) <==> y == x || y in ids
    decreases |ids|
  {
    var r := InsertId(x, ids);
    if ids == [] {
    } else if Less(x, ids[0]) {
      forall i, j | 0 <= i < j < |r| ensures Less(r[i], r[j]) {
        if i == 0 && j > 1 { LessTransitive(x, ids[0], ids[j - 1]); }
      }
    } else {
      InsertIdSorted(x, ids[1..]);
      LessTotal(x, ids[0]);
      forall j | 0 < j < |r| ensures Less(r[0], r[j]) {
        assert r[j] in InsertId(x, ids[1..]);
        if r[j] != x {
          var k :| 0 <= k < |ids[1..]| && ids[1..][k] == r[j];
          assert ids[k + 1] == r[j];
        }
      }
      assert ids == [ids[0]] + ids[1..];
    }
  }

  lemma {:induction false} ListingLength(ids: seq<string>, keys: set<string>)
    requires IsListing(ids, keys)
    ensures |ids| == |keys|
    decreases |ids|
  {
    if ids == [] {
      assert keys == {};
    } else {
      LessIrreflexive(ids[0]);
      assert ids[0] !in ids[1..];
      assert forall id :: id in ids[1..] <==> id in keys - {ids[0]};
      ListingLength(ids[1..], keys - {ids[0]});
    }
  }

  method SortStrings(keys: set<string>) returns (ids: seq<string>)
    ensures IsListing(ids, keys)
  {
    ids := [];
    var rest := keys;
    while rest != {}
      invariant rest <= keys && IsListing(ids, keys - rest)
    {
      var x :| x in rest;
      InsertIdSorted(x, ids);
      ids := InsertId(x, ids);
      rest := rest - {x};
    }
    assert keys - {} == keys;
  }

  method FindStart(ids: seq<string>, cursor: string) returns (start: nat)
    ensures start == StartAfter(ids, cursor)
  {
    start := 0;
    if cursor != "" {
      for i := 0 to |ids|
        invariant PositionAfter(ids, cursor, i) == PositionAfter(ids, cursor, 0)
      {
        if ids[i] == cursor { return i + 1; }
      }
    }
  }

  // ---- One page -----------------------------------------------------------------------------------------------

  // id comes after the cursor; the empty cursor comes before everything.
  ghost predicate Beyond(cursor: string, id: string) {
    cursor == "" || Less(cursor, id)
  }

  // The page holds the ids beyond the cursor in order, up to its last one if it is full.
  lemma PageExact(ids: seq<string>, cursor: string, size: nat)
    requires Ascending(ids) && size > 0 && (cursor == "" || cursor in ids)
    ensures var page := PageAt(ids, cursor, size);
            && Ascending(page)
            && (forall id :: id in page ==> id in ids && Beyond(cursor, id))
            && (forall id ::
                  id in ids && Beyond(cursor, id) ==> id in page || (|page| == size && Less(page[size - 1], id)))
  {
    var start, page := StartAfter(ids, cursor), PageAt(ids, cursor, size);
    assert forall i :: 0 <= i < |page| ==> page[i] == ids[start + i];
    forall id | id in page ensures id in ids && Beyond(cursor, id) {
      var i :| 0 <= i < |page| && page[i] == id;
      assert ids[start + i] == id;
    }
    forall id | id in ids && Beyond(cursor, id) ensures id in page || (|page| == size && Less(page[size - 1], id)) {
      var k :| 0 <= k < |ids| && ids[k] == id;
      NotBefore(ids, cursor, start, k);
      if k < start + |page| {
        assert page[k - start] == id;
      } else {
        assert ids[start + size - 1] == page[size - 1];
      }
    }
  }

  lemma NotBefore(ids: seq<string>, cursor: string, start: nat, k: nat)
    requires Ascending(ids) && k < |ids| && start == StartAfter(ids, cursor) && (cursor == "" || cursor in ids) &&
             Beyond(cursor, ids[k])
    ensures k >= start
  {
    if k < start {
      LessIrreflexive(cursor);
      if k < start - 1 { LessAsymmetric(ids[k], ids[start - 1]); }
    }
  }

  lemma AscendingJoin(a: seq<string>, b: seq<string>)
    requires Ascending(a) && Ascending(b) && (a != [] ==> forall y :: y in b ==> Less(a[|a| - 1], y))
    ensures Ascending(a + b)
  {
    forall i, j | 0 <= i < j < |a + b| ensures Less((a + b)[i], (a + b)[j]) {
      if i < |a| <= j {
        assert b[j - |a|] in b;
        if i < |a| - 1 { LessTransitive(a[i], a[|a| - 1], b[j - |a|]); }
      }
    }
  }

  // What a stretch of the walk from the cursor on must return of the keys.
  ghost predicate Returns(ids: seq<string>, cursor: string, keys: set<string>) {
    && Ascending(ids) && (forall id :: id in ids ==> Beyond(cursor, id))
    && (forall id :: id in keys && Beyond(cursor, id) ==> id in ids)
  }

  lemma PageThenRest(page: seq<string>, rest: seq<string>, cursor: string, keys: set<string>, keys': set<string>)
    requires page != [] && page[|page| - 1] != "" && Ascending(page) && (forall id :: id in page ==> Beyond(cursor, id))
    requires forall id :: id in keys' && Beyond(cursor, id) ==> id in page || Less(page[|page| - 1], id)
    requires keys <= keys' && Returns(rest, page[|page| - 1], keys')
    ensures Returns(page + rest, cursor, keys)
  {
    var next := page[|page| - 1];
    AscendingJoin(page, rest);
    forall id | id in page + rest ensures Beyond(cursor, id) {
      if id !in page && cursor != "" {
        assert next in page && id in rest;
        LessTransitive(cursor, next, id);
      }
    }
  }

  // A page without a next cursor is the rest of the walk; one with a next cursor ends there.
  lemma PageReturns(keys: set<string>, cursor: string, size: nat)
    requires size > 0 && "" !in keys && (cursor == "" || cursor in keys)
    ensures var page := PageAt(Listing(keys), cursor, size);
            var next := NextCursor(page, size);
            && (next == "" ==> Returns(page, cursor, keys))
            && (next != "" ==>
                  && page != [] && page[|page| - 1] == next && next in keys && Ascending(page)
                  && (forall id :: id in page ==> Beyond(cursor, id))
                  && (forall id :: id in keys && Beyond(cursor, id) ==> id in page || Less(next, id)))
  {
    PageExact(Listing(keys), cursor, size);
    var page := PageAt(Listing(keys), cursor, size);
    assert |page| == size ==> page[size - 1] in page;
  }

  method ListPage(keys: set<string>, cursor: string, size: nat) returns (page: seq<string>, next: string)
    ensures page == PageAt(Listing(keys), cursor, size) && next == NextCursor(page, size)
  {
    var sorted := SortStrings(keys);
    AscendingUnique(sorted, Listing(keys));
    var start := FindStart(sorted, cursor);
    var rest := sorted[start..];
    page := if |rest| < size then rest else rest[..size];
    next := NextCursor(page, size);
  }

  // ---- A quiet provider -------------------------------------------------------------------------------

  // The start after an id of the listing is its position plus one.
  lemma StartAfterId(ids: seq<string>, k: nat)
    requires Ascending(ids) && k < |ids| && ids[k] != ""
    ensures StartAfter(ids, ids[k]) == k + 1
  {
    var r := StartAfter(ids, ids[k]);
    assert ids[r - 1] == ids[k];
    AscendingNoDuplicates(ids, r - 1, k);
  }

  // The next page starts where this one ends.
  lemma NextStarts(ids: seq<string>, cursor: string, size: nat)
    requires Ascending(ids) && "" !in ids && size > 0
    ensures var page := PageAt(ids, cursor, size);
            var next := NextCursor(page, size);
            next != "" ==> next in ids && StartAfter(ids, next) == StartAfter(ids, cursor) + |page|
  {
    var page := PageAt(ids, cursor, size);
    if NextCursor(page, size) != "" {
      assert page[size - 1] == ids[StartAfter(ids, cursor) + size - 1];
      StartAfterId(ids, StartAfter(ids, cursor) + size - 1);
    }
  }

  // What the pages so far return, with this page.
  lemma PageExtends(ids: seq<string>, cursor: string, size: nat)
    requires Ascending(ids) && "" !in ids && size > 0
    ensures var page, start := PageAt(ids, cursor, size), StartAfter(ids, cursor);
            && start + |page| <= |ids| && ids[..start] + page == ids[..start + |page|]
            && (NextCursor(page, size) == "" ==> start + |page| == |ids|)
  {
    var page, start := PageAt(ids, cursor, size), StartAfter(ids, cursor);
    assert page == ids[start..start + |page|];
    assert |page| == size ==> page[size - 1] == ids[start + size - 1];
  }

  // With a page the walk has returned everything, or everything up to where the next page starts.
  lemma PageGoesOn(ids: seq<string>, cursor: string, size: nat)
    requires Ascending(ids) && "" !in ids && size > 0
    ensures var page, start := PageAt(ids, cursor, size), StartAfter(ids, cursor);
            var next := NextCursor(page, size);
            && ids[..start] + page == (if next == "" then ids else ids[..StartAfter(ids, next)])
            && (next != "" ==> start < StartAfter(ids, next) <= |ids|)
  {
    NextStarts(ids, cursor, size);
    PageExtends(ids, cursor, size);
    assert ids[..|ids|] == ids;
  }

  // The pages of a listing that does not change, from the cursor on.
  ghost function Cut(ids: seq<string>, cursor: string, size: nat): seq<seq<string>>
    requires Ascending(ids) && "" !in ids && size > 0
    decreases |ids| - StartAfter(ids, cursor)
  {
    var page := PageAt(ids, cursor, size);
    var next := NextCursor(page, size);
    NextStarts(ids, cursor, size);
    [page] + if next == "" then [] else Cut(ids, next, size)
  }

  ghost predicate OnPages(pages: seq<seq<string>>, id: string) {
    exists i :: 0 <= i < |pages| && id in pages[i]
  }

  lemma OnFirstOrRest(page: seq<string>, rest: seq<seq<string>>, id: string)
    ensures OnPages([page] + rest, id) <==> id in page || OnPages(rest, id)
  {
    var pages := [page] + rest;
    assert pages[0] == page && forall i :: 0 <= i < |rest| ==> pages[i + 1] == rest[i];
    if OnPages(pages, id) {
      var i :| 0 <= i < |pages| && id in pages[i];
      if i > 0 { assert id in rest[i - 1]; }
    }
    if OnPages(rest, id) {
      var i :| 0 <= i < |rest| && id in rest[i];
      assert id in pages[i + 1];
    }
  }

  // Together the pages hold every id beyond the cursor, and nothing else.
  lemma {:induction false} CutHolds(ids: seq<string>, cursor: string, size: nat, id: string)
    requires Ascending(ids) && "" !in ids && size > 0 && (cursor == "" || cursor in ids)
    ensures OnPages(Cut(ids, cursor, size), id) <==> id in ids && Beyond(cursor, id)
    decreases |ids| - StartAfter(ids, cursor)
  {
    var page := PageAt(ids, cursor, size);
    var next := NextCursor(page, size);
    PageExact(ids, cursor, size);
    NextStarts(ids, cursor, size);
    var rest := if next == "" then [] else Cut(ids, next, size);
    OnFirstOrRest(page, rest, id);
    assert |page| == size ==> page[size - 1] in page;
    if next != "" {
      CutHolds(ids, next, size, id);
      if cursor != "" && Less(next, id) { LessTransitive(cursor, next, id); }
    }
  }

  ghost predicate PagesApart(pages: seq<seq<string>>) {
    && (forall i :: 0 <= i < |pages| ==> Ascending(pages[i]))
    && (forall i, j, id :: 0 <= i < j < |pages| && id in pages[i] ==> id !in pages[j])
  }

  // No id is on two pages, or twice on one.
  lemma {:induction false} CutApart(ids: seq<string>, cursor: string, size: nat)
    requires Ascending(ids) && "" !in ids && size > 0 && (cursor == "" || cursor in ids)
    ensures PagesApart(Cut(ids, cursor, size))
    decreases |ids| - StartAfter(ids, cursor)
  {
    var page, pages := PageAt(ids, cursor, size), Cut(ids, cursor, size);
    var next := NextCursor(page, size);
    PageExact(ids, cursor, size);
    NextStarts(ids, cursor, size);
    if next != "" {
      var rest := Cut(ids, next, size);
      CutApart(ids, next, size);
      assert forall i :: 0 < i < |pages| ==> pages[i] == rest[i - 1];
      forall j, id | 0 < j < |pages| && id in page ensures id !in pages[j] {
        NotAfterLast(page, next, id);
        CutHolds(ids, next, size, id);
        assert !OnPages(rest, id) && pages[j] == rest[j - 1];
      }
    }
  }

  lemma NotAfterLast(page: seq<string>, next: string, id: string)
    requires Ascending(page) && page != [] && page[|page| - 1] == next && id in page && next != ""
    ensures !Beyond(next, id)
  {
    var k :| 0 <= k < |page| && page[k] == id;
    LessIrreflexive(next);
    if k < |page| - 1 { LessAsymmetric(id, next); }
  }

  // ---- A provider that changes between pages --------------------------------------------------------------

  // The pages listed one by one from w on: page is what a cursor lists by then, next the cursor after a page, and after
  // what happens with a page before the next one is listed. At most `most` pages.
  ghost function PagesFrom<W>(w: W, cursor: string, most: nat, page: (W, string) -> seq<string>,
                              next: seq<string> -> string, after: (W, seq<string>) -> W): seq<seq<string>>
    decreases most
  {
    if most == 0 then []
    else
      var first := page(w, cursor);
      [first] + if next(first) == "" then [] else PagesFrom(after(w, first), next(first), most - 1, page, next, after)
  }

  // The same where nothing happens between the pages.
  ghost function FixedPages(cursor: string, most: nat, page: string -> seq<string>, next: seq<string> -> string)
    : seq<seq<string>>
    decreases most
  {
    if most == 0 then []
    else
      var first := page(cursor);
      [first] + if next(first) == "" then [] else FixedPages(next(first), most - 1, page, next)
  }

  // Wherever the walk stands, the cursor lists the same as ever, and the page leads to such a place again.
  ghost predicate Advances<W(!new)>(page: (W, string) -> seq<string>, fixed: string -> seq<string>,
                                    next: seq<string> -> string, after: (W, seq<string>) -> W,
                                    at: (W, string) -> bool)
  {
    && (forall x, cursor :: at(x, cursor) ==> page(x, cursor) == fixed(cursor))
    && (forall x, cursor {:trigger after(x, fixed(cursor))} ::
          at(x, cursor) && next(fixed(cursor)) != "" ==> at(after(x, fixed(cursor)), next(fixed(cursor))))
  }

  // As long as the listing stays, whatever else happens between the pages makes no difference to them.
  lemma {:induction false} PagesAreFixed<W(!new)>(w: W, cursor: string, most: nat, page: (W, string) -> seq<string>,
                                                  fixed: string -> seq<string>, next: seq<string> -> string,
                                                  after: (W, seq<string>) -> W, at: (W, string) -> bool)
    requires at(w, cursor) && Advances(page, fixed, next, after, at)
    ensures PagesFrom(w, cursor, most, page, next, after) == FixedPages(cursor, most, fixed, next)
    decreases most
  {
    if most > 0 {
      var first := fixed(cursor);
      assert page(w, cursor) == first;
      if next(first) != "" { PagesAreFixed(after(w, first), next(first), most - 1, page, fixed, next, after, at); }
    }
  }

  ghost function PageFrom(ids: seq<string>, size: nat): string -> seq<string> {
    cursor => PageAt(ids, cursor, size)
  }

  ghost function NextFrom(size: nat): seq<string> -> string {
    page => NextCursor(page, size)
  }

  // Given enough of them, they are the pages of the listing.
  lemma {:induction false} FixedPagesAreCut(ids: seq<string>, cursor: string, size: nat, most: nat)
    requires Ascending(ids) && "" !in ids && size > 0 && most > |ids| - StartAfter(ids, cursor)
    ensures FixedPages(cursor, most, PageFrom(ids, size), NextFrom(size)) == Cut(ids, cursor, size)
    decreases most
  {
    NextStarts(ids, cursor, size);
    var next := NextCursor(PageAt(ids, cursor, size), size);
    if next != "" { FixedPagesAreCut(ids, next, size, most - 1); }
  }
}
