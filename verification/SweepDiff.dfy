/**
 A manual sweep is an exact diff between a provider and the canonical rows: one pending finding per
 divergence, none besides, and nothing else in the world changes.
 */
module SweepDiff {
  import opened Customers
  import opened Tables
  import opened Reconcile
  import opened SweepInduction
  import opened SweepListing

  // ---- What a divergence is, without the sweep ---------------------------------------------------

  ghost predicate Served(w: World, s: Source, id: Id) {
    id in ProviderOf(w, s).records && !ProviderOf(w, s).records[id].deleted
  }

  ghost predicate ValidLive(env: Env, w: World, s: Source, id: Id)
    requires s in env.connections
  {
    Served(w, s, id) && Validate(env.connections[s], ProviderOf(w, s).records[id].data)
  }

  ghost function FieldsAt(env: Env, w: World, s: Source, id: Id): Fields
    requires s in env.connections && Served(w, s, id)
  {
    FieldsOf(Normalize(env.connections[s], ProviderOf(w, s).records[id].data))
  }

  ghost predicate LiveMapped(w: World, s: Source, id: Id, row: Row) {
    row in w.rows && !row.tombstone && Maps(row, s, id)
  }

  ghost predicate Divergent(env: Env, w: World, s: Source, kind: FindingKind, id: Id)
    requires s in env.connections
  {
    var row := RowFor(w, s, id);
    match kind
    case Missed => ValidLive(env, w, s, id) && row.None?
    case Deleted => ValidLive(env, w, s, id) && row.Some? && row.value.tombstone
    case Drift => ValidLive(env, w, s, id) && row.Some? && !row.value.tombstone &&
                  !SameFields(row.value.fields, FieldsAt(env, w, s, id))
    case Missing => id != "" && !Served(w, s, id) && exists r :: LiveMapped(w, s, id, r)
  }

  // What the finding says about the divergence.
  ghost predicate Describes(env: Env, w: World, sweep: Sweep, kind: FindingKind, id: Id, finding: Finding)
    requires sweep.source in env.connections
  {
    if kind.Missing?
    then exists r ::
           LiveMapped(w, sweep.source, id, r) &&
               finding == NewFinding(sweep, kind, id, VersionOf(r, sweep.source), Some(r), r.fields)
    else
      && Served(w, sweep.source, id)
      && finding == NewFinding(sweep, kind, id, ProviderOf(w, sweep.source).records[id].version,
                               RowFor(w, sweep.source, id), FieldsAt(env, w, sweep.source, id))
  }

  ghost predicate FreshRun(w: World, run: string) {
    forall f :: f in w.findings ==> f.run != run
  }

  // ---- The walk ---------------------------------------------------------------------------------

  // Reported so far: divergences of the walked ids, and missing ids of the rows in done.
  ghost predicate Due(env: Env, w: World, sweep: Sweep, ids: set<Id>, done: seq<Row>, seen: set<Id>, f: FindingId)
    requires sweep.source in env.connections
  {
    if f.kind.Missing?
    then exists r ::
           r in done && LooksMissing(r, sweep.source, seen) && IdIn(r.providerIds, sweep.source) == f.providerId
    else f.providerId in ids && Divergent(env, w, sweep.source, f.kind, f.providerId)
  }

  ghost predicate Reported(env: Env, w0: World, w: World, sweep: Sweep, ids: set<Id>, done: seq<Row>, seen: set<Id>)
    requires sweep.source in env.connections
  {
    && w == w0.(findings := w.findings)
    && (forall f: FindingId :: f.run != sweep.id ==> (f in w.findings <==> f in w0.findings))
    && (forall f :: f in w.findings && f.run != sweep.id ==> w.findings[f] == w0.findings[f])
    && (forall f: FindingId :: f.run == sweep.id ==> (f in w.findings <==> Due(env, w0, sweep, ids, done, seen, f)))
    && (forall f ::
          f in w.findings && f.run == sweep.id ==> Describes(env, w0, sweep, f.kind, f.providerId, w.findings[f]))
  }

  // One more finding of a run, for a table that holds exactly the due ones.
  lemma InsertDue(findings: map<FindingId, Finding>, run: string, due: FindingId -> bool, due': FindingId -> bool,
                  f: FindingId, finding: Finding)
    requires f.run == run && forall g: FindingId :: g.run == run ==> (g in findings <==> due(g))
    requires forall g: FindingId :: due'(g) <==> due(g) || g == f.(run := g.run)
    ensures var now := if f in findings then findings else findings[f := finding];
            && (forall g: FindingId :: g.run == run ==> (g in now <==> due'(g)))
            && (forall g :: g in now && g !in findings ==> g == f && now[g] == finding)
            && (forall g :: g in findings ==> g in now && now[g] == findings[g])
  {
    assert forall g: FindingId :: g.run == run ==> (g == f.(run := g.run) <==> g == f);
  }

  // One insertion accounts for one more due finding.
  lemma InsertReported(env: Env, w0: World, w: World, sweep: Sweep, ids: set<Id>, done: seq<Row>, seen: set<Id>,
                       ids': set<Id>, done': seq<Row>, f: FindingId, finding: Finding)
    requires sweep.source in env.connections && f.run == sweep.id && Reported(env, w0, w, sweep, ids, done, seen)
    requires Describes(env, w0, sweep, f.kind, f.providerId, finding)
    requires forall g: FindingId :: Due(env, w0, sweep, ids', done', seen, g) <==>
             Due(env, w0, sweep, ids, done, seen, g) || g == f.(run := g.run)
    ensures Reported(env, w0, InsertFinding(w, f, finding), sweep, ids', done', seen)
  {
    InsertDue(w.findings, sweep.id, g => Due(env, w0, sweep, ids, done, seen, g),
              g => Due(env, w0, sweep, ids', done', seen, g), f, finding);
    var w' := InsertFinding(w, f, finding);
    forall g | g in w'.findings && g.run == sweep.id
      ensures Describes(env, w0, sweep, g.kind, g.providerId, w'.findings[g])
    {
      assert g in w.findings || (g == f && w'.findings[g] == finding);
    }
  }

  lemma NothingReported(env: Env, w0: World, w: World, sweep: Sweep, ids: set<Id>, done: seq<Row>, seen: set<Id>,
                        ids': set<Id>, done': seq<Row>)
    requires sweep.source in env.connections && Reported(env, w0, w, sweep, ids, done, seen)
    requires forall g: FindingId :: Due(env, w0, sweep, ids', done', seen, g) <==>
             Due(env, w0, sweep, ids, done, seen, g)
    ensures Reported(env, w0, w, sweep, ids', done', seen)
  {
    forall g: FindingId | g.run == sweep.id ensures g in w.findings <==> Due(env, w0, sweep, ids', done', seen, g) {
      assert g in w.findings <==> Due(env, w0, sweep, ids, done, seen, g);
    }
  }

  // The one divergence a record can show, if any.
  ghost function KindOf(env: Env, w: World, s: Source, id: Id): Option<FindingKind>
    requires s in env.connections
  {
    if !ValidLive(env, w, s, id) then None else Classify(RowFor(w, s, id), FieldsAt(env, w, s, id))
  }

  lemma KindIsDivergence(env: Env, w: World, s: Source, kind: FindingKind, id: Id)
    requires s in env.connections && !kind.Missing?
    ensures Divergent(env, w, s, kind, id) <==> KindOf(env, w, s, id) == Some(kind)
  {
  }

  lemma RecordReported(env: Env, w0: World, w: World, sweep: Sweep, ids: set<Id>, id: Id)
    requires sweep.source in env.connections && !sweep.auto && id in ProviderOf(w0, sweep.source).records
    requires Reported(env, w0, w, sweep, ids, [], {})
    ensures Reported(env, w0, SweepRecord(env, w, sweep, id, ProviderOf(w0, sweep.source).records[id]), sweep,
                     ids + {id}, [], {})
  {
    var s := sweep.source;
    var rec, kind := ProviderOf(w0, s).records[id], KindOf(env, w0, s, id);
    assert RowFor(w, s, id) == RowFor(w0, s, id);
    DueOneMore(env, w0, sweep, ids, id);
    if kind.None? {
      NothingReported(env, w0, w, sweep, ids, [], {}, ids + {id}, []);
    } else {
      var finding := NewFinding(sweep, kind.value, id, rec.version, RowFor(w0, s, id), FieldsAt(env, w0, s, id));
      InsertReported(env, w0, w, sweep, ids, [], {}, ids + {id}, [], FindingId(sweep.id, kind.value, id), finding);
    }
  }

  lemma DueOneMore(env: Env, w: World, sweep: Sweep, ids: set<Id>, id: Id)
    requires sweep.source in env.connections
    ensures forall g: FindingId ::
              Due(env, w, sweep, ids + {id}, [], {}, g) <==>
              Due(env, w, sweep, ids, [], {}, g) ||
                  (g.providerId == id && KindOf(env, w, sweep.source, id) == Some(g.kind))
  {
    forall g: FindingId
      ensures Due(env, w, sweep, ids + {id}, [], {}, g) <==>
              Due(env, w, sweep, ids, [], {}, g) ||
                  (g.providerId == id && KindOf(env, w, sweep.source, id) == Some(g.kind))
    {
      if !g.kind.Missing? { KindIsDivergence(env, w, sweep.source, g.kind, id); }
    }
  }

  // What the walk of a manual sweep has reported so far.
  ghost function ReportedSoFar(env: Env, w: World, sweep: Sweep): (World, set<Id>) -> bool
    requires sweep.source in env.connections
  {
    (x, d) => Reported(env, w, x, sweep, d, [], {})
  }

  lemma ReportedKept(env: Env, w: World, sweep: Sweep)
    requires sweep.source in env.connections && !sweep.auto
    ensures Keeps(env, sweep, false, ProviderOf(w, sweep.source), ReportedSoFar(env, w, sweep))
  {
    var p, inv := ProviderOf(w, sweep.source), ReportedSoFar(env, w, sweep);
    forall x, d, id | inv(x, d) && id in p.records
      ensures inv(SweepRecord(env, x, sweep, id, p.records[id]), d + {id})
    {
      RecordReported(env, w, x, sweep, d, id);
    }
    forall x, d | inv(x, d) ensures Unchanged(x, sweep.source, p) { assert ProviderOf(x, sweep.source) == p; }
  }

  lemma WalkReported(env: Env, w: World, sweep: Sweep, pages: seq<seq<Id>>)
    requires sweep.source in env.connections && !sweep.auto && Reported(env, w, w, sweep, {}, [], {})
    ensures var walk, p := SweepPages(env, w, sweep, pages), ProviderOf(w, sweep.source);
            && Reported(env, w, walk.w, sweep, Walked(pages, p), [], {})
            && walk.seen == set id | id in Walked(pages, p) && !p.records[id].deleted
  {
    var p := ProviderOf(w, sweep.source);
    ReportedKept(env, w, sweep);
    WalkInduction(env, sweep, false, w, {}, pages, p, ReportedSoFar(env, w, sweep));
    assert {} + Walked(pages, p) == Walked(pages, p);
  }

  // ---- Missing ids ------------------------------------------------------------------------------

  lemma MissingReported(env: Env, w0: World, w: World, sweep: Sweep, ids: set<Id>, done: seq<Row>, seen: set<Id>,
                        row: Row)
    requires sweep.source in env.connections && !sweep.auto && row in w0.rows
    requires Reported(env, w0, w, sweep, ids, done, seen)
    ensures Reported(env, w0, MissingOne(env, w, sweep, row, seen), sweep, ids, done + [row], seen)
  {
    var s, id := sweep.source, IdIn(row.providerIds, sweep.source);
    DueOneMoreRow(env, w0, sweep, ids, done, seen, row);
    if LooksMissing(row, s, seen) {
      assert LiveMapped(w0, s, id, row);
      var finding := NewFinding(sweep, Missing, id, VersionOf(row, s), Some(row), row.fields);
      InsertReported(env, w0, w, sweep, ids, done, seen, ids, done + [row], FindingId(sweep.id, Missing, id), finding);
    } else {
      NothingReported(env, w0, w, sweep, ids, done, seen, ids, done + [row]);
    }
  }

  lemma DueOneMoreRow(env: Env, w: World, sweep: Sweep, ids: set<Id>, done: seq<Row>, seen: set<Id>, row: Row)
    requires sweep.source in env.connections
    ensures forall g: FindingId ::
              Due(env, w, sweep, ids, done + [row], seen, g) <==>
              Due(env, w, sweep, ids, done, seen, g) ||
              (g.kind.Missing? && LooksMissing(row, sweep.source, seen) &&
               IdIn(row.providerIds, sweep.source) == g.providerId)
  {
    assert row in done + [row] && (forall r :: r in done ==> r in done + [row]);
    assert forall r :: r in done + [row] ==> r in done || r == row;
  }

  lemma {:induction false} PassReported(env: Env, w0: World, w: World, sweep: Sweep, ids: set<Id>, done: seq<Row>,
                                        seen: set<Id>, rows: seq<Row>)
    requires sweep.source in env.connections && !sweep.auto && forall r :: r in rows ==> r in w0.rows
    requires Reported(env, w0, w, sweep, ids, done, seen)
    ensures Reported(env, w0, MissingPass(env, w, sweep, rows, seen), sweep, ids, done + rows, seen)
    decreases |rows|
  {
    if rows == [] {
      assert done + rows == done;
    } else {
      MissingReported(env, w0, w, sweep, ids, done, seen, rows[0]);
      PassReported(env, w0, MissingOne(env, w, sweep, rows[0], seen), sweep, ids, done + [rows[0]], seen, rows[1..]);
      assert done + [rows[0]] + rows[1..] == done + rows;
    }
  }

  // ---- The theorem ------------------------------------------------------------------------------

  // An uninterrupted manual sweep records exactly one pending finding per divergence, each describing
  // it, and touches no row, no provider and no finding of another run.
  lemma ManualSweepIsDiff(env: Env, w: World, sweep: Sweep, pages: seq<seq<Id>>)
    requires sweep.source in env.connections && !sweep.auto
    requires FreshRun(w, sweep.id) && Covers(pages, ProviderOf(w, sweep.source))
    ensures var w' := RunSweep(env, w, sweep, pages);
            && w' == w.(findings := w'.findings)
            && (forall f: FindingId :: f.run != sweep.id ==> (f in w'.findings <==> f in w.findings))
            && (forall f :: f in w'.findings && f.run != sweep.id ==> w'.findings[f] == w.findings[f])
            && (forall f: FindingId ::
                  f.run == sweep.id ==> (f in w'.findings <==> Divergent(env, w, sweep.source, f.kind, f.providerId)))
            && (forall f ::
                  f in w'.findings && f.run == sweep.id ==>
                    Describes(env, w, sweep, f.kind, f.providerId, w'.findings[f]))
  {
    var s, p, walk := sweep.source, ProviderOf(w, sweep.source), SweepPages(env, w, sweep, pages);
    WalkReportsAll(env, w, sweep, pages);
    PassReported(env, w, walk.w, sweep, p.records.Keys, [], walk.seen, w.rows);
    assert [] + w.rows == w.rows;
    forall f: FindingId | f.run == sweep.id
      ensures Due(env, w, sweep, p.records.Keys, w.rows, walk.seen, f) <==> Divergent(env, w, s, f.kind, f.providerId)
    {
      if f.kind.Missing? { MissingExactly(env, w, sweep, walk.seen, f.providerId); }
    }
  }

  // The walk has reported all records, and has seen the served ones.
  lemma WalkReportsAll(env: Env, w: World, sweep: Sweep, pages: seq<seq<Id>>)
    requires sweep.source in env.connections && !sweep.auto
    requires FreshRun(w, sweep.id) && Covers(pages, ProviderOf(w, sweep.source))
    ensures var p, walk := ProviderOf(w, sweep.source), SweepPages(env, w, sweep, pages);
            && Reported(env, w, walk.w, sweep, p.records.Keys, [], walk.seen)
            && forall id :: id in walk.seen <==> Served(w, sweep.source, id)
  {
    var p := ProviderOf(w, sweep.source);
    assert Reported(env, w, w, sweep, {}, [], {});
    WalkReported(env, w, sweep, pages);
    assert Walked(pages, p) == p.records.Keys;
  }

  // The same for the pages the sweep lists itself, by cursor, given enough of them.
  lemma ManualSweepByCursorIsDiff(env: Env, w: World, sweep: Sweep, size: nat, most: nat)
    requires sweep.source in env.connections && !sweep.auto && FreshRun(w, sweep.id)
    requires size > 0 && "" !in ProviderOf(w, sweep.source).records && most > |ProviderOf(w, sweep.source).records|
    ensures var w' := RunSweep(env, w, sweep, CursorPages(env, w, sweep, "", size, most));
            && w' == w.(findings := w'.findings)
            && (forall f: FindingId :: f.run != sweep.id ==> (f in w'.findings <==> f in w.findings))
            && (forall f :: f in w'.findings && f.run != sweep.id ==> w'.findings[f] == w.findings[f])
            && (forall f: FindingId :: f.run == sweep.id ==>
                  (f in w'.findings <==> Divergent(env, w, sweep.source, f.kind, f.providerId)))
            && (forall f :: f in w'.findings && f.run == sweep.id ==>
                  Describes(env, w, sweep, f.kind, f.providerId, w'.findings[f]))
  {
    ReportedKept(env, w, sweep);
    assert Reported(env, w, w, sweep, {}, [], {});
    CursorCovers(env, sweep, false, w, size, most, ReportedSoFar(env, w, sweep));
    ManualSweepIsDiff(env, w, sweep, CursorPages(env, w, sweep, "", size, most));
  }

  lemma ManualSweepCounts(env: Env, w: World, sweep: Sweep, size: nat, most: nat)
    requires sweep.source in env.connections && !sweep.auto && FreshRun(w, sweep.id)
    requires size > 0 && "" !in ProviderOf(w, sweep.source).records && most > |ProviderOf(w, sweep.source).records|
    ensures SweepPages(env, w, sweep, CursorPages(env, w, sweep, "", size, most)).live ==
            |LiveRecords(ProviderOf(w, sweep.source))|
  {
    ReportedKept(env, w, sweep);
    assert Reported(env, w, w, sweep, {}, [], {});
    CursorCounts(env, sweep, false, w, size, most, ReportedSoFar(env, w, sweep));
  }

  lemma MissingExactly(env: Env, w: World, sweep: Sweep, seen: set<Id>, id: Id)
    requires sweep.source in env.connections && forall i :: i in seen <==> Served(w, sweep.source, i)
    ensures (exists r :: r in w.rows && LooksMissing(r, sweep.source, seen) && IdIn(r.providerIds, sweep.source) == id)
            <==> Divergent(env, w, sweep.source, Missing, id)
  {
    var s := sweep.source;
    if r :| r in w.rows && LooksMissing(r, s, seen) && IdIn(r.providerIds, s) == id {
      assert LiveMapped(w, s, id, r);
    }
    if r :| LiveMapped(w, s, id, r) && id != "" && !Served(w, s, id) {
      assert LooksMissing(r, s, seen) && IdIn(r.providerIds, s) == id;
    }
  }
}
