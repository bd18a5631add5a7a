/**
 Walking the provider's listing by cursor while records are inserted, updated and deleted: every
 record there at the start is returned exactly once, and while ids sort as they were generated, so is
 every record inserted before the last page.
 */
module Paging {
  import opened ByteOrder
  import opened RecordIds
  import opened Backoff
  import opened Listings
  import opened Simulator
  import Tables

  // ---- A walk -------------------------------------------------------------------------------------------------

  datatype Timed = Timed(op: Op, at: int)

  ghost function AfterOps(prefix: string, s: State, ops: seq<Timed>): State
    decreases |ops|
  {
    if ops == [] then s else AfterOps(prefix, Apply(prefix, s, ops[0].op, ops[0].at), ops[1..])
  }

  // The ids returned when a batch of operations happens before each page.
  ghost function Walk(prefix: string, s: State, batches: seq<seq<Timed>>, cursor: string, size: nat): seq<string>
    decreases |batches|
  {
    if batches == [] then []
    else
      var s' := AfterOps(prefix, s, batches[0]);
      var page := PageOf(s'.records, cursor, size, Tables.None);
      var next := NextCursor(page, size);
      if next == "" then page else page + Walk(prefix, s', batches[1..], next, size)
  }

  // The walk reaches a page with no next cursor.
  ghost predicate Completes(prefix: string, s: State, batches: seq<seq<Timed>>, cursor: string, size: nat)
    decreases |batches|
  {
    batches != [] &&
    var s' := AfterOps(prefix, s, batches[0]);
    var next := NextCursor(PageOf(s'.records, cursor, size, Tables.None), size);
    next == "" || Completes(prefix, s', batches[1..], next, size)
  }

  // The store as the last page saw it.
  ghost function LastSeen(prefix: string, s: State, batches: seq<seq<Timed>>, cursor: string, size: nat): State
    requires Completes(prefix, s, batches, cursor, size)
    decreases |batches|
  {
    var s' := AfterOps(prefix, s, batches[0]);
    var next := NextCursor(PageOf(s'.records, cursor, size, Tables.None), size);
    if next == "" then s' else LastSeen(prefix, s', batches[1..], next, size)
  }

  // ---- Growth -------------------------------------------------------------------------------------------------

  lemma {:induction false} PadNotEmpty(n: int)
    ensures PadOf(n) != ""
  {
  }

  lemma {:induction false} OpsGrow(prefix: string, s: State, ops: seq<Timed>)
    requires "" !in s.records
    ensures s.records.Keys <= AfterOps(prefix, s, ops).records.Keys && "" !in AfterOps(prefix, s, ops).records
    decreases |ops|
  {
    if ops != [] {
      PadNotEmpty(Wrap(s.nextId + 1));
      assert |NewId(prefix, s)| > 0;
      OpsGrow(prefix, Apply(prefix, s, ops[0].op, ops[0].at), ops[1..]);
    }
  }

  // ---- Exactly once ---------------------------------------------------------------------------------------------

  lemma {:induction false} WalkFrom(prefix: string, s: State, batches: seq<seq<Timed>>, cursor: string, size: nat)
    requires Completes(prefix, s, batches, cursor, size) && size > 0 && "" !in s.records &&
             (cursor == "" || cursor in s.records)
    ensures Returns(Walk(prefix, s, batches, cursor, size), cursor, s.records.Keys)
    decreases |batches|
  {
    var s' := AfterOps(prefix, s, batches[0]);
    OpsGrow(prefix, s, batches[0]);
    var page := PageOf(s'.records, cursor, size, Tables.None);
    PageOfIs(s'.records, cursor, size);
    PageReturns(s'.records.Keys, cursor, size);
    var next := NextCursor(page, size);
    if next != "" {
      WalkFrom(prefix, s', batches[1..], next, size);
      PageThenRest(page, Walk(prefix, s', batches[1..], next, size), cursor, s.records.Keys, s'.records.Keys);
    }
  }

  // Once the cursor has passed an id, the walk no longer returns it: an insert that sorts before the
  // cursor is missed.
  lemma PassedIdsMissed(prefix: string, s: State, batches: seq<seq<Timed>>, cursor: string, size: nat, id: string)
    requires Completes(prefix, s, batches, cursor, size) && size > 0 && "" !in s.records &&
             (cursor == "" || cursor in s.records)
    requires cursor != "" && Less(id, cursor)
    ensures id !in Walk(prefix, s, batches, cursor, size)
  {
    WalkFrom(prefix, s, batches, cursor, size);
    LessAsymmetric(id, cursor);
  }

  // Every record there before the walk is returned, and no id is returned twice, whatever is inserted,
  // updated and deleted between the pages.
  lemma WalkReturnsEachOnce(prefix: string, s: State, batches: seq<seq<Timed>>, size: nat)
    requires size > 0 && "" !in s.records && Completes(prefix, s, batches, "", size)
    ensures var ids := Walk(prefix, s, batches, "", size);
            && (forall id :: id in s.records ==> id in ids)
            && (forall i, j :: 0 <= i < j < |ids| ==> ids[i] != ids[j])
  {
    WalkFrom(prefix, s, batches, "", size);
    var ids := Walk(prefix, s, batches, "", size);
    forall i, j | 0 <= i < j < |ids| ensures ids[i] != ids[j] {
      if ids[i] == ids[j] { AscendingNoDuplicates(ids, i, j); }
    }
  }

  // ---- Inserts during the walk ------------------------------------------------------------------------------------

  // Every id came from the counter, which is still below one million.
  ghost predicate Generated(prefix: string, s: State) {
    0 <= s.nextId < Pow10(6) &&
        forall id :: id in s.records ==> exists k :: 1 <= k <= s.nextId && id == prefix + PadOf(k)
  }

  // Ids added from s to s' come after every id of s.
  ghost predicate Appended(s: State, s': State) {
    forall a, b :: a in s.records && b in s'.records && b !in s.records ==> Less(a, b)
  }

  lemma OpAppends(prefix: string, s: State, op: Op, now: int)
    requires Generated(prefix, s) && (op.Insert? ==> s.nextId + 1 < Pow10(6))
    ensures Generated(prefix, Apply(prefix, s, op, now)) && Appended(s, Apply(prefix, s, op, now))
  {
    var s' := Apply(prefix, s, op, now);
    if op.Insert? {
      assert Pow10(6) == 1_000_000;
      assert s'.nextId == s.nextId + 1;
      forall a | a in s.records ensures Less(a, NewId(prefix, s)) {
        var k :| 1 <= k <= s.nextId && a == prefix + PadOf(k);
        OrderedBelowMillion(prefix, k, s.nextId + 1);
      }
      forall id | id in s'.records ensures exists k :: 1 <= k <= s'.nextId && id == prefix + PadOf(k) {
        if id in s.records {
          var k :| 1 <= k <= s.nextId && id == prefix + PadOf(k);
          assert 1 <= k <= s'.nextId;
        }
      }
    }
  }

  // How many ids the operations draw.
  ghost function Inserts(ops: seq<Timed>): nat {
    if ops == [] then 0 else (if ops[0].op.Insert? then 1 else 0) + Inserts(ops[1..])
  }

  lemma {:induction false} OpsAppend(prefix: string, s: State, ops: seq<Timed>)
    requires Generated(prefix, s) && s.nextId + Inserts(ops) < Pow10(6)
    ensures var s' := AfterOps(prefix, s, ops);
            Generated(prefix, s') && s'.nextId == s.nextId + Inserts(ops) && Appended(s, s') &&
                s.records.Keys <= s'.records.Keys
    decreases |ops|
  {
    if ops != [] {
      var t := Apply(prefix, s, ops[0].op, ops[0].at);
      OpAppends(prefix, s, ops[0].op, ops[0].at);
      assert Pow10(6) == 1_000_000;
      OpsAppend(prefix, t, ops[1..]);
      assert s.records.Keys <= t.records.Keys;
    }
  }

  ghost function TotalInserts(batches: seq<seq<Timed>>): nat {
    if batches == [] then 0 else Inserts(batches[0]) + TotalInserts(batches[1..])
  }

  // Of the page and what comes after it, every id of a store whose later ids were appended.
  lemma LateIdsReturned(page: seq<string>, rest: seq<string>, cursor: string, s: State, last: State, id: string)
    requires page != [] && page[|page| - 1] in s.records && Appended(s, last)
    requires forall i :: i in s.records && Beyond(cursor, i) ==> i in page || Less(page[|page| - 1], i)
    requires id in last.records && Beyond(cursor, id) && (Beyond(page[|page| - 1], id) ==> id in rest)
    ensures id in page + rest
  {
    if id in s.records {
      assert id in page || Less(page[|page| - 1], id);
    } else {
      assert Less(page[|page| - 1], id);
    }
  }

  lemma {:induction false} LastSeenAppends(prefix: string, s: State, batches: seq<seq<Timed>>, cursor: string,
                                           size: nat)
    requires Completes(prefix, s, batches, cursor, size) && Generated(prefix, s) &&
             s.nextId + TotalInserts(batches) < Pow10(6)
    ensures Appended(s, LastSeen(prefix, s, batches, cursor, size))
    decreases |batches|
  {
    var s' := AfterOps(prefix, s, batches[0]);
    OpsAppend(prefix, s, batches[0]);
    var next := NextCursor(PageOf(s'.records, cursor, size, Tables.None), size);
    if next != "" {
      LastSeenAppends(prefix, s', batches[1..], next, size);
      AppendedTransitive(s, s', LastSeen(prefix, s', batches[1..], next, size));
    }
  }

  // Only ids of the store are returned.
  lemma {:induction false} WalkWithin(prefix: string, s: State, batches: seq<seq<Timed>>, cursor: string, size: nat)
    requires Completes(prefix, s, batches, cursor, size) && "" !in s.records
    ensures var last := LastSeen(prefix, s, batches, cursor, size);
            && s.records.Keys <= last.records.Keys
            && forall id :: id in Walk(prefix, s, batches, cursor, size) ==> id in last.records
    decreases |batches|
  {
    var s' := AfterOps(prefix, s, batches[0]);
    OpsGrow(prefix, s, batches[0]);
    var listing := Listing(s'.records.Keys);
    var page := PageOf(s'.records, cursor, size, Tables.None);
    PageOfIs(s'.records, cursor, size);
    assert forall id :: id in page ==> id in listing;
    var next := NextCursor(page, size);
    if next != "" { WalkWithin(prefix, s', batches[1..], next, size); }
  }

  ghost predicate Sees(ids: seq<string>, cursor: string, last: State) {
    forall id :: id in last.records && Beyond(cursor, id) ==> id in ids
  }

  lemma {:induction false} WalkSees(prefix: string, s: State, batches: seq<seq<Timed>>, cursor: string, size: nat)
    requires Completes(prefix, s, batches, cursor, size) && size > 0 && "" !in s.records &&
             (cursor == "" || cursor in s.records)
    requires Generated(prefix, s) && s.nextId + TotalInserts(batches) < Pow10(6)
    ensures Sees(Walk(prefix, s, batches, cursor, size), cursor, LastSeen(prefix, s, batches, cursor, size))
    decreases |batches|
  {
    var s' := AfterOps(prefix, s, batches[0]);
    OpsGrow(prefix, s, batches[0]);
    OpsAppend(prefix, s, batches[0]);
    var page := PageOf(s'.records, cursor, size, Tables.None);
    PageOfIs(s'.records, cursor, size);
    PageReturns(s'.records.Keys, cursor, size);
    var next := NextCursor(page, size);
    if next != "" {
      WalkSees(prefix, s', batches[1..], next, size);
      LastSeenAppends(prefix, s', batches[1..], next, size);
      LateSeen(page, Walk(prefix, s', batches[1..], next, size), cursor, s',
               LastSeen(prefix, s', batches[1..], next, size));
    }
  }

  lemma LateSeen(page: seq<string>, rest: seq<string>, cursor: string, s: State, last: State)
    requires page != [] && page[|page| - 1] in s.records && Appended(s, last) && Sees(rest, page[|page| - 1], last)
    requires forall i :: i in s.records && Beyond(cursor, i) ==> i in page || Less(page[|page| - 1], i)
    ensures Sees(page + rest, cursor, last)
  {
    forall id | id in last.records && Beyond(cursor, id) ensures id in page + rest {
      LateIdsReturned(page, rest, cursor, s, last, id);
    }
  }

  lemma AppendedTransitive(s: State, t: State, u: State)
    requires Appended(s, t) && Appended(t, u) && s.records.Keys <= t.records.Keys
    ensures Appended(s, u)
  {
  }

  // While ids stay below one million, the walk returns exactly the records the last page saw, each
  // once: those inserted on the way as well.
  lemma WalkReturnsLateInserts(prefix: string, s: State, batches: seq<seq<Timed>>, size: nat)
    requires size > 0 && "" !in s.records && Completes(prefix, s, batches, "", size)
    requires Generated(prefix, s) && s.nextId + TotalInserts(batches) < Pow10(6)
    ensures var ids, last := Walk(prefix, s, batches, "", size), LastSeen(prefix, s, batches, "", size);
            && (forall id :: id in ids <==> id in last.records)
            && (forall i, j :: 0 <= i < j < |ids| ==> ids[i] != ids[j])
  {
    WalkSees(prefix, s, batches, "", size);
    WalkWithin(prefix, s, batches, "", size);
    WalkReturnsEachOnce(prefix, s, batches, size);
  }
}
