/**
 Sweep, repair, sweep converges: after an automatic sweep in which no call failed, a second sweep
 over the same provider finds only what the delete policy forbids to repair.
 */
module SweepConverges {
  import opened Customers
  import opened Tables
  import opened Apply
  import opened IdentityIndex
  import opened Reconcile
  import opened SweepInduction
  import opened SweepListing
  import opened SweepDiff
  import opened RowContent
  import opened SweepRepairs
  import opened SweepStep

  // ---- The walk -----------------------------------------------------------------------------------

  // Part way through the walk: done records are clean, the others and their rows as they were.
  ghost predicate Walking(env: Env, w0: World, w: World, sweep: Sweep, done: set<Id>)
    requires sweep.source in env.connections
  {
    var s := sweep.source;
    var p0, p := ProviderOf(w0, s), ProviderOf(w, s);
    && Sound(env, w) && WellFormed(w.rows) && "" !in p.records
    && p.records.Keys == p0.records.Keys
    && (forall i :: i in p.records && i !in done ==> p.records[i] == p0.records[i])
    && (forall i :: i in done ==> CleanAt(env, w, s, i))
    && (forall i :: i in p.records && p0.records[i].deleted ==> p.records[i].deleted)
    && (forall i :: i in p.records && !p0.records[i].deleted ==> !p.records[i].deleted || Tombstoned(w, s, i))
    && StrangersApart(env, w, s, done)
    && WalkBooks(w0, w, sweep, done)
  }

  ghost predicate WalkBooks(w0: World, w: World, sweep: Sweep, done: set<Id>) {
    && (forall f ::
          f in w.findings ==> f in w0.findings || (f.run == sweep.id && f.providerId in done && !f.kind.Missing?))
    && (forall c :: c in w.processed ==>
          c in w0.processed ||
              (c.1.RepairOf? && c.1.finding.run == sweep.id && c.1.finding.providerId in done &&
               !c.1.finding.kind.Missing?))
  }

  // Neither findings nor claims of this run exist.
  ghost predicate FreshSweep(w: World, run: string) {
    FreshRun(w, run) && forall c :: c in w.processed && c.1.RepairOf? ==> c.1.finding.run != run
  }

  // A stranger that matched no row matches no row of the repaired world.
  lemma StillApart(env: Env, w: World, s: Source, id: Id, i: Id, email: string, r: Row)
    requires s in env.connections && i != id && Descends(env, w, s, id, r)
    requires forall q :: q in w.rows ==> q.entityId != i && !HasEmail(q, email)
    requires Stranger(env, w, s, id) ==> EmailAt(env, w, s, id) != email
    ensures r.entityId != i && !HasEmail(r, email)
  {
    if Stranger(env, w, s, id) && r.entityId == id && r.fields == FieldsAt(env, w, s, id) {
      assert Get(r.fields, "email") == Text(EmailAt(env, w, s, id));
    } else {
      var q :| q in w.rows && q.entityId == r.entityId && q.fields == r.fields && (q.tombstone ==> r.tombstone);
    }
  }

  lemma StrangersKept(env: Env, w: World, w': World, sweep: Sweep, done: set<Id>, id: Id)
    requires sweep.source in env.connections && id !in done
    requires StrangersApart(env, w, sweep.source, done) && Repaired(env, w, w', sweep, id)
    ensures StrangersApart(env, w', sweep.source, done + {id})
  {
    var s := sweep.source;
    forall i | i !in done + {id} && Stranger(env, w', s, i)
      ensures Stranger(env, w, s, i) && EmailAt(env, w', s, i) == EmailAt(env, w, s, i)
    {
      assert ViewOf(w'.rows, s, i) == ViewOf(w.rows, s, i);
    }
    forall i, r | i !in done + {id} && Stranger(env, w', s, i) && r in w'.rows
      ensures r.entityId != i && !HasEmail(r, EmailAt(env, w', s, i))
    {
      StillApart(env, w, s, id, i, EmailAt(env, w, s, i), r);
    }
  }

  lemma WalkStep(env: Env, w0: World, w: World, w': World, sweep: Sweep, done: set<Id>, id: Id)
    requires sweep.source in env.connections && id !in done
    requires Walking(env, w0, w, sweep, done) && Repaired(env, w, w', sweep, id)
    ensures Walking(env, w0, w', sweep, done + {id})
  {
    var s := sweep.source;
    StrangersKept(env, w, w', sweep, done, id);
    forall i | i in done + {id} ensures CleanAt(env, w', s, i) {
      if i != id { assert CleanAt(env, w, s, i); assert ViewOf(w'.rows, s, i) == ViewOf(w.rows, s, i); }
    }
    forall i | i in ProviderOf(w', s).records && !ProviderOf(w0, s).records[i].deleted
      ensures !ProviderOf(w', s).records[i].deleted || Tombstoned(w', s, i)
    {
      if i != id { assert ViewOf(w'.rows, s, i) == ViewOf(w.rows, s, i); }
    }
  }

  lemma UnreportedYet(w0: World, w: World, sweep: Sweep, done: set<Id>, kind: FindingKind, id: Id)
    requires FreshSweep(w0, sweep.id) && WalkBooks(w0, w, sweep, done) && id !in done
    ensures Unreported(w, sweep, kind, id)
  {
    var f := FindingId(sweep.id, kind, id);
    assert (sweep.source, RepairOf(f)).1.finding == f;
  }

  lemma WalkRepaired(env: Env, w0: World, w: World, sweep: Sweep, done: set<Id>, id: Id, rec: Record)
    requires Healthy(env, sweep.source) && sweep.auto && FreshSweep(w0, sweep.id) && id !in done && id != ""
    requires Sound(env, w) && WellFormed(w.rows) && StrangersApart(env, w, sweep.source, done) &&
             WalkBooks(w0, w, sweep, done)
    requires id in ProviderOf(w, sweep.source).records && ProviderOf(w, sweep.source).records[id] == rec
    ensures Repaired(env, w, SweepRecord(env, w, sweep, id, rec), sweep, id)
  {
    forall kind: FindingKind | !kind.Missing? ensures Unreported(w, sweep, kind, id) {
      UnreportedYet(w0, w, sweep, done, kind, id);
    }
    RecordRepaired(env, w, sweep, id);
  }

  lemma WalkOne(env: Env, w0: World, w: World, sweep: Sweep, done: set<Id>, id: Id, rec: Record)
    requires Healthy(env, sweep.source) && sweep.auto && FreshSweep(w0, sweep.id)
    requires Walking(env, w0, w, sweep, done) && id !in done && id in ProviderOf(w0, sweep.source).records &&
             rec == ProviderOf(w0, sweep.source).records[id]
    ensures Walking(env, w0, SweepRecord(env, w, sweep, id, rec), sweep, done + {id})
  {
    WalkRepaired(env, w0, w, sweep, done, id, rec);
    WalkStep(env, w0, w, SweepRecord(env, w, sweep, id, rec), sweep, done, id);
  }

  // ---- The whole walk -------------------------------------------------------------------------------

  ghost function WalkingSoFar(env: Env, w: World, sweep: Sweep): (World, set<Id>) -> bool
    requires sweep.source in env.connections
  {
    (x, d) => Walking(env, w, x, sweep, d)
  }

  lemma WalkingKept(env: Env, w: World, sweep: Sweep)
    requires Healthy(env, sweep.source) && sweep.auto && FreshSweep(w, sweep.id)
    ensures Keeps(env, sweep, true, ProviderOf(w, sweep.source), WalkingSoFar(env, w, sweep))
  {
    var p, inv := ProviderOf(w, sweep.source), WalkingSoFar(env, w, sweep);
    forall x, d, id | inv(x, d) && id !in d && id in p.records
      ensures inv(SweepRecord(env, x, sweep, id, p.records[id]), d + {id})
    {
      WalkOne(env, w, x, sweep, d, id, p.records[id]);
    }
  }

  lemma WalkRepairs(env: Env, w: World, sweep: Sweep, pages: seq<seq<Id>>)
    requires Healthy(env, sweep.source) && sweep.auto && FreshSweep(w, sweep.id) && Walking(env, w, w, sweep, {})
    requires ListsOnce(pages)
    ensures var walk, p := SweepPages(env, w, sweep, pages), ProviderOf(w, sweep.source);
            && Walking(env, w, walk.w, sweep, Walked(pages, p))
            && walk.seen == set id | id in Walked(pages, p) && !p.records[id].deleted
  {
    var p := ProviderOf(w, sweep.source);
    WalkingKept(env, w, sweep);
    WalkInduction(env, sweep, true, w, {}, pages, p, WalkingSoFar(env, w, sweep));
    assert {} + Walked(pages, p) == Walked(pages, p);
  }

  // ---- The missing pass -----------------------------------------------------------------------------

  // The row needs nothing at the provider, or the policy respects the deletion there.
  ghost predicate Accounted(env: Env, w: World, s: Source, r: Row) {
    var id := IdIn(r.providerIds, s);
    r.tombstone || id == "" || Served(w, s, id) || DeletePolicyFor(env.policies, s).Propagate?
  }

  // Part way through the missing pass: all records clean, the rows in rest still to be looked at.
  ghost predicate Chasing(env: Env, w: World, sweep: Sweep, rest: seq<Row>, seen: set<Id>)
    requires sweep.source in env.connections
  {
    var s := sweep.source;
    && Sound(env, w) && WellFormed(w.rows) && "" !in ProviderOf(w, s).records
    && (forall i :: CleanAt(env, w, s, i))
    && DistinctEntities(rest) && (forall c :: c in rest ==> c in w.rows)
    && (forall r :: r in w.rows ==> r in rest || Accounted(env, w, s, r))
    && (forall c ::
          c in rest && !c.tombstone && IdIn(c.providerIds, s) != "" ==>
            (IdIn(c.providerIds, s) in seen <==> Served(w, s, IdIn(c.providerIds, s))))
    && (forall c :: c in rest && LooksMissing(c, s, seen) ==> Unreported(w, sweep, Missing, IdIn(c.providerIds, s)))
  }

  // The row goes from its dead record to a new one.
  lemma MissingClaimed(env: Env, c: World, s: Source, ev: Event, f: FindingId, i: nat, row: Row, rows: seq<Row>,
                       q: Provider, p: Provider)
    requires Repairing(env, c, f, Missing, s) && q == ProviderOf(c, s)
    requires i < |c.rows| && c.rows[i] == row && i == ByEntity(c.rows, c.findings[f].canonicalId)
    requires var next, data := env.newId(s, q.created + 1), Denormalize(env.connections[s], FromFields(row.fields));
             rows == c.rows[i := PushedRow(row, s, Replied(next, 1))] &&
                 p == Provider(q.records[next := Record(1, false, data)], q.created + 1)
    ensures ApplyRepair(env, c, ev, f).result == Done(Applied) && Effect(c, ApplyRepair(env, c, ev, f).w, s, rows, p)
  {
    MissingEffect(env, c, ev, f, s, i);
  }

  lemma MissingRecorded(env: Env, w: World, sweep: Sweep, i: nat, id: Id, version: int, rows: seq<Row>, p: Provider)
    requires Healthy(env, sweep.source) && sweep.auto &&
             Repairable(Missing, DeletePolicyFor(env.policies, sweep.source))
    requires i < |w.rows| && ByEntity(w.rows, w.rows[i].entityId) == i && Unreported(w, sweep, Missing, id)
    requires var s, row, q := sweep.source, w.rows[i], ProviderOf(w, sweep.source);
             var next, data := env.newId(s, q.created + 1), Denormalize(env.connections[s], FromFields(row.fields));
             rows == w.rows[i := PushedRow(row, s, Replied(next, 1))] &&
                 p == Provider(q.records[next := Record(1, false, data)], q.created + 1)
    ensures var w' := RecordFinding(env, w, sweep, Missing, id, version, Some(w.rows[i]), w.rows[i].fields);
            && w'.rows == rows && ProviderOf(w', sweep.source) == p && Bookkept(w, w', sweep, id, true)
            && forall t :: t != sweep.source ==> ProviderOf(w', t) == ProviderOf(w, t)
  {
    var s, row := sweep.source, w.rows[i];
    var f, finding := FindingId(sweep.id, Missing, id), NewFinding(sweep, Missing, id, version, Some(row), row.fields);
    var c, ev := UnderRepair(w, s, f, finding), RepairEvent(sweep, f, finding);
    assert ProviderOf(c, s) == ProviderOf(w, s);
    MissingClaimed(env, c, s, ev, f, i, row, rows, ProviderOf(w, s), p);
    RepairRecorded(env, w, sweep, Missing, id, version, Some(row), row.fields, ApplyRepair(env, c, ev, f), rows, p);
  }

  // What recreating row i's record under the fresh id next does.
  ghost predicate Recreated(env: Env, w: World, w': World, s: Source, i: nat, q: Row, next: Id)
    requires s in env.connections
  {
    var p, p' := ProviderOf(w, s), ProviderOf(w', s);
    && i < |w.rows| && w'.rows == w.rows[i := q] && next == env.newId(s, p.created + 1)
    && q.entityId == w.rows[i].entityId && q.fields == w.rows[i].fields && !q.tombstone && !w.rows[i].tombstone
    && q.providerIds == w.rows[i].providerIds[s := next]
    && p'.created == p.created + 1 &&
       p'.records == p.records[next := Record(1, false, Denormalize(env.connections[s], FromFields(q.fields)))]
    && forall t :: t != s ==> ProviderOf(w', t) == ProviderOf(w, t)
  }

  lemma RecreatedSound(env: Env, w: World, w': World, s: Source, i: nat, q: Row, next: Id)
    requires s in env.connections && Sound(env, w) && Recreated(env, w, w', s, i, q, next)
    ensures Sound(env, w')
  {
    assert Minted(env, w, w', s, next);
    assert Grows(env, w, w') by {
      forall t ensures ProviderOf(w, t).created <= ProviderOf(w', t).created &&
          ProviderOf(w, t).records.Keys <= ProviderOf(w', t).records.Keys
               ensures forall id ::
                         id in ProviderOf(w', t).records ==> id in ProviderOf(w, t).records || Minted(env, w, w', t, id)
      { }
    }
    assert ByEntity(w.rows, q.entityId) == i;
    OwnIds(w, i, "", "");
    assert w.rows[i] in w.rows;
    CommitSound(env, w, w', q, w.rows[i].providerIds, "", "");
  }

  lemma RecreatedClean(env: Env, w: World, w': World, s: Source, i: nat, q: Row, next: Id, j: Id)
    requires s in env.connections && Sound(env, w) && Sound(env, w') && WellFormed(w.rows) &&
             Recreated(env, w, w', s, i, q, next)
    requires !Served(w, s, IdIn(w.rows[i].providerIds, s)) && CleanAt(env, w, s, j)
    ensures CleanAt(env, w', s, j)
  {
    assert w.rows[i] in w.rows;
    if j == next {
      ViewAt(w'.rows, s, next, i);
      var rec := ProviderOf(w', s).records[next];
      assert rec.data == map[] + Denormalize(env.connections[s], FromFields(q.fields));
      PushedIsClean(env.connections[s], DeletePolicyFor(env.policies, s), rec, map[], q.fields);
    } else if j != IdIn(w.rows[i].providerIds, s) || !Maps(w.rows[i], s, j) {
      ViewReplaced(w.rows, i, q, s, j);
    }
  }

  // No two live rows share the id one of them has lost.
  lemma OthersElsewhere(w: World, s: Source, c: Row, d: Row)
    requires Functional(w.rows) && DistinctEntities(w.rows) && c in w.rows && d in w.rows && c.entityId != d.entityId
    requires s in c.providerIds && s in d.providerIds
    ensures c.providerIds[s] != d.providerIds[s]
  {
    var i :| 0 <= i < |w.rows| && w.rows[i] == c;
    var j :| 0 <= j < |w.rows| && w.rows[j] == d;
    assert i < j || j < i;
  }

  // A later row keeps its place, its record and its claim to be looked at.
  lemma LaterKept(env: Env, w: World, w': World, sweep: Sweep, i: nat, q: Row, next: Id, d: Row, seen: set<Id>)
    requires sweep.source in env.connections && Sound(env, w) && Recreated(env, w, w', sweep.source, i, q, next)
    requires d in w.rows && d.entityId != q.entityId && LooksMissing(w.rows[i], sweep.source, seen)
    requires Bookkept(w, w', sweep, IdIn(w.rows[i].providerIds, sweep.source), true)
    ensures d in w'.rows
    ensures Served(w', sweep.source, IdIn(d.providerIds, sweep.source)) <==>
            Served(w, sweep.source, IdIn(d.providerIds, sweep.source))
    ensures LooksMissing(d, sweep.source, seen) && Unreported(w, sweep, Missing, IdIn(d.providerIds, sweep.source)) ==>
              Unreported(w', sweep, Missing, IdIn(d.providerIds, sweep.source))
  {
    var s, id := sweep.source, IdIn(d.providerIds, sweep.source);
    var j :| 0 <= j < |w.rows| && w.rows[j] == d;
    assert w'.rows[j] == d;
    assert w.rows[i] in w.rows;
    assert next != "" && !Maps(d, s, next);
    if LooksMissing(d, s, seen) {
      OthersElsewhere(w, s, w.rows[i], d);
      var f := FindingId(sweep.id, Missing, id);
      assert (s, RepairOf(f)).1.finding.providerId == id;
    }
  }

  lemma ChaseRecreated(env: Env, w: World, w': World, sweep: Sweep, rest: seq<Row>, seen: set<Id>, i: nat, q: Row,
                       next: Id)
    requires sweep.source in env.connections && rest != [] && Chasing(env, w, sweep, rest, seen)
    requires Recreated(env, w, w', sweep.source, i, q, next) && w.rows[i] == rest[0] &&
             LooksMissing(rest[0], sweep.source, seen)
    requires Bookkept(w, w', sweep, IdIn(rest[0].providerIds, sweep.source), true)
    ensures Chasing(env, w', sweep, rest[1..], seen)
  {
    var s, later := sweep.source, rest[1..];
    RecreatedSound(env, w, w', s, i, q, next);
    forall j ensures CleanAt(env, w', s, j) { RecreatedClean(env, w, w', s, i, q, next, j); }
    LaterRows(rest);
    forall c | c in later ensures c in w'.rows
      ensures !c.tombstone && IdIn(c.providerIds, s) != "" ==>
                (IdIn(c.providerIds, s) in seen <==> Served(w', s, IdIn(c.providerIds, s)))
      ensures LooksMissing(c, s, seen) ==> Unreported(w', sweep, Missing, IdIn(c.providerIds, s))
    {
      LaterKept(env, w, w', sweep, i, q, next, c, seen);
    }
    forall r | r in w'.rows ensures r in later || Accounted(env, w', s, r) {
      ChaseAccounted(env, w, w', sweep, rest, seen, i, q, next, r);
    }
    assert w.rows[i] in w.rows;
  }

  lemma ChaseAccounted(env: Env, w: World, w': World, sweep: Sweep, rest: seq<Row>, seen: set<Id>, i: nat, q: Row,
                       next: Id, r: Row)
    requires sweep.source in env.connections && rest != [] && DistinctEntities(w.rows)
    requires forall r :: r in w.rows ==> r in rest || Accounted(env, w, sweep.source, r)
    requires Recreated(env, w, w', sweep.source, i, q, next) && w.rows[i] == rest[0] && r in w'.rows
    requires next !in ProviderOf(w, sweep.source).records
    ensures r in rest[1..] || Accounted(env, w', sweep.source, r)
  {
    var s := sweep.source;
    var j :| 0 <= j < |w'.rows| && w'.rows[j] == r;
    if j == i {
      assert IdIn(q.providerIds, s) == next && Served(w', s, next);
    } else {
      assert w.rows[j] == r && r.entityId != rest[0].entityId;
      if r in rest {
        var k :| 0 <= k < |rest| && rest[k] == r;
        assert rest[1..][k - 1] == r;
      }
    }
  }

  lemma LaterRows(rest: seq<Row>)
    requires rest != [] && DistinctEntities(rest)
    ensures rest[0] in rest && DistinctEntities(rest[1..])
    ensures forall c :: c in rest[1..] ==> c in rest && c.entityId != rest[0].entityId
    ensures forall c :: c in rest ==> c == rest[0] || c in rest[1..]
  {
    forall c | c in rest[1..] ensures c in rest && c.entityId != rest[0].entityId {
      var k :| 0 <= k < |rest[1..]| && rest[1..][k] == c;
      assert rest[k + 1] == c;
    }
    forall c | c in rest && c != rest[0] ensures c in rest[1..] {
      var k :| 0 <= k < |rest| && rest[k] == c;
      assert rest[1..][k - 1] == c;
    }
  }

  lemma StillUnreported(w: World, w': World, sweep: Sweep, first: Row, c: Row, seen: set<Id>)
    requires Functional(w.rows) && DistinctEntities(w.rows) && first in w.rows && c in w.rows &&
             c.entityId != first.entityId
    requires w'.processed == w.processed
    requires w'.findings.Keys == w.findings.Keys ||
             (LooksMissing(first, sweep.source, seen) &&
              w'.findings.Keys == w.findings.Keys + {FindingId(sweep.id, Missing,
                                                               IdIn(first.providerIds, sweep.source))})
    requires LooksMissing(c, sweep.source, seen) && Unreported(w, sweep, Missing, IdIn(c.providerIds, sweep.source))
    ensures Unreported(w', sweep, Missing, IdIn(c.providerIds, sweep.source))
  {
    if LooksMissing(first, sweep.source, seen) { OthersElsewhere(w, sweep.source, first, c); }
  }

  // The first row left is fine as it is, or the policy blocks its repair.
  lemma ChaseSkipped(env: Env, w: World, w': World, sweep: Sweep, rest: seq<Row>, seen: set<Id>)
    requires sweep.source in env.connections && rest != [] && Chasing(env, w, sweep, rest, seen)
    requires w'.rows == w.rows && w'.providers == w.providers && Accounted(env, w, sweep.source, rest[0])
    requires w'.processed == w.processed
    requires w'.findings.Keys == w.findings.Keys ||
             (LooksMissing(rest[0], sweep.source, seen) &&
              w'.findings.Keys == w.findings.Keys + {FindingId(sweep.id, Missing,
                                                               IdIn(rest[0].providerIds, sweep.source))})
    ensures Chasing(env, w', sweep, rest[1..], seen)
  {
    var s := sweep.source;
    LaterRows(rest);
    assert Sound(env, w') by {
      GrowsReflexive(env, w, w');
      SameRowsSound(env, w, w');
    }
    assert ProviderOf(w', s) == ProviderOf(w, s);
    forall i ensures CleanAt(env, w', s, i) { assert CleanAt(env, w, s, i); }
    forall c | c in rest[1..] && LooksMissing(c, s, seen)
      ensures Unreported(w', sweep, Missing, IdIn(c.providerIds, s))
    {
      StillUnreported(w, w', sweep, rest[0], c, seen);
    }
    forall r | r in w'.rows ensures r in rest[1..] || Accounted(env, w', s, r) {
      assert r in rest || Accounted(env, w, s, r);
    }
  }

  lemma ChaseBlocked(env: Env, w: World, sweep: Sweep, rest: seq<Row>, seen: set<Id>)
    requires Healthy(env, sweep.source) && sweep.auto && rest != [] && Chasing(env, w, sweep, rest, seen)
    requires LooksMissing(rest[0], sweep.source, seen) &&
             !Repairable(Missing, DeletePolicyFor(env.policies, sweep.source))
    ensures Chasing(env, MissingOne(env, w, sweep, rest[0], seen), sweep, rest[1..], seen)
  {
    var s, c := sweep.source, rest[0];
    assert c in rest;
    BlockedRecorded(env, w, sweep, Missing, IdIn(c.providerIds, s), VersionOf(c, s), Some(c), c.fields);
    ChaseSkipped(env, w, MissingOne(env, w, sweep, c, seen), sweep, rest, seen);
  }

  lemma ChaseRepaired(env: Env, w: World, sweep: Sweep, rest: seq<Row>, seen: set<Id>, i: nat)
    requires Healthy(env, sweep.source) && sweep.auto && rest != [] && Chasing(env, w, sweep, rest, seen)
    requires LooksMissing(rest[0], sweep.source, seen) &&
             Repairable(Missing, DeletePolicyFor(env.policies, sweep.source))
    requires i < |w.rows| && w.rows[i] == rest[0]
    ensures Chasing(env, MissingOne(env, w, sweep, rest[0], seen), sweep, rest[1..], seen)
  {
    var s, c, p := sweep.source, rest[0], ProviderOf(w, sweep.source);
    assert c in rest;
    assert ByEntity(w.rows, c.entityId) == i;
    var next, data := env.newId(s, p.created + 1), Denormalize(env.connections[s], FromFields(c.fields));
    var q := PushedRow(c, s, Replied(next, 1));
    MissingRecorded(env, w, sweep, i, IdIn(c.providerIds, s), VersionOf(c, s), w.rows[i := q],
                    Provider(p.records[next := Record(1, false, data)], p.created + 1));
    ChaseRecreated(env, w, MissingOne(env, w, sweep, c, seen), sweep, rest, seen, i, q, next);
  }

  lemma ChaseOne(env: Env, w: World, sweep: Sweep, rest: seq<Row>, seen: set<Id>)
    requires Healthy(env, sweep.source) && sweep.auto && rest != [] && Chasing(env, w, sweep, rest, seen)
    ensures Chasing(env, MissingOne(env, w, sweep, rest[0], seen), sweep, rest[1..], seen)
  {
    assert rest[0] in rest && rest[0] in w.rows;
    if !LooksMissing(rest[0], sweep.source, seen) {
      ChaseSkipped(env, w, w, sweep, rest, seen);
    } else if !Repairable(Missing, DeletePolicyFor(env.policies, sweep.source)) {
      ChaseBlocked(env, w, sweep, rest, seen);
    } else {
      var i :| 0 <= i < |w.rows| && w.rows[i] == rest[0];
      ChaseRepaired(env, w, sweep, rest, seen, i);
    }
  }

  // ---- After the sweep ------------------------------------------------------------------------------

  // Nothing is left that a sweep may repair.
  ghost predicate Clean(env: Env, w: World, s: Source)
    requires s in env.connections
  {
    (forall i :: CleanAt(env, w, s, i)) && forall r :: r in w.rows ==> Accounted(env, w, s, r)
  }

  // At the end of the walk, what was seen is what is served, as far as live rows are concerned.
  lemma ChaseBegins(env: Env, w0: World, w: World, sweep: Sweep, seen: set<Id>)
    requires sweep.source in env.connections && FreshSweep(w0, sweep.id)
    requires var p0 := ProviderOf(w0, sweep.source);
             Walking(env, w0, w, sweep, p0.records.Keys) && seen == set id | id in p0.records && !p0.records[id].deleted
    ensures Chasing(env, w, sweep, w.rows, seen)
  {
    var s := sweep.source;
    forall c | c in w.rows && !c.tombstone && IdIn(c.providerIds, s) != ""
      ensures IdIn(c.providerIds, s) in seen <==> Served(w, s, IdIn(c.providerIds, s))
    {
      var i :| 0 <= i < |w.rows| && w.rows[i] == c;
      ViewAt(w.rows, s, IdIn(c.providerIds, s), i);
    }
    forall c | c in w.rows ensures Unreported(w, sweep, Missing, IdIn(c.providerIds, s)) {
      var f := FindingId(sweep.id, Missing, IdIn(c.providerIds, s));
      assert f.kind.Missing? && (s, RepairOf(f)).1.finding == f;
    }
  }

  lemma SweepCleans(env: Env, w: World, sweep: Sweep, pages: seq<seq<Id>>)
    requires Healthy(env, sweep.source) && sweep.auto && FreshSweep(w, sweep.id) && Walking(env, w, w, sweep, {})
    requires ListsOnce(pages) && Covers(pages, ProviderOf(w, sweep.source))
    ensures Clean(env, RunSweep(env, w, sweep, pages), sweep.source)
    ensures "" !in ProviderOf(RunSweep(env, w, sweep, pages), sweep.source).records
  {
    var p, walk := ProviderOf(w, sweep.source), SweepPages(env, w, sweep, pages);
    WalkRepairs(env, w, sweep, pages);
    assert Walked(pages, p) == p.records.Keys;
    ChaseBegins(env, w, walk.w, sweep, walk.seen);
    var inv := (x: World, rest: seq<Row>) => Chasing(env, x, sweep, rest, walk.seen);
    forall x, rest | inv(x, rest) && rest != [] ensures inv(MissingOne(env, x, sweep, rest[0], walk.seen), rest[1..]) {
      ChaseOne(env, x, sweep, rest, walk.seen);
    }
    PassInduction(env, sweep, walk.w, walk.w.rows, walk.seen, inv);
  }

  // ---- The second sweep -----------------------------------------------------------------------------

  // The delete policy forbids to repair this kind.
  ghost predicate Blocked(env: Env, s: Source, kind: FindingKind) {
    var propagate := DeletePolicyFor(env.policies, s).Propagate?;
    (kind.Deleted? && !propagate) || (kind.Missing? && propagate)
  }

  // Since w the sweep recorded only findings it had to skip.
  ghost predicate Quiet(env: Env, w: World, x: World, sweep: Sweep) {
    && x == w.(findings := x.findings)
    && forall f ::
         f in x.findings && f.run == sweep.id ==>
           x.findings[f].status == SkippedRepair && Blocked(env, sweep.source, f.kind)
  }

  lemma QuietRecord(env: Env, w: World, x: World, sweep: Sweep, kind: FindingKind, id: Id, version: int,
                    row: Option<Row>, fields: Fields)
    requires sweep.auto && Quiet(env, w, x, sweep) && Blocked(env, sweep.source, kind)
    ensures Quiet(env, w, RecordFinding(env, x, sweep, kind, id, version, row, fields), sweep)
  {
    var f := FindingId(sweep.id, kind, id);
    if f !in x.findings { BlockedRecorded(env, x, sweep, kind, id, version, row, fields); }
  }

  lemma QuietOne(env: Env, w: World, x: World, sweep: Sweep, id: Id)
    requires sweep.auto && sweep.source in env.connections && CleanAt(env, w, sweep.source, id)
    requires Quiet(env, w, x, sweep) && id in ProviderOf(w, sweep.source).records
    ensures Quiet(env, w, SweepRecord(env, x, sweep, id, ProviderOf(w, sweep.source).records[id]), sweep)
  {
    var kind := KindOf(env, w, sweep.source, id);
    assert ProviderOf(x, sweep.source) == ProviderOf(w, sweep.source) && KindOf(env, x, sweep.source, id) == kind;
    SweepRecordIs(env, x, sweep, id);
    if kind.Some? {
      CleanMeansBlocked(env, w, sweep.source, id);
      QuietRecord(env, w, x, sweep, kind.value, id, ProviderOf(w, sweep.source).records[id].version,
                  RowFor(x, sweep.source, id), FieldsAt(env, x, sweep.source, id));
    }
  }

  lemma CleanMeansBlocked(env: Env, w: World, s: Source, id: Id)
    requires s in env.connections && CleanAt(env, w, s, id) && KindOf(env, w, s, id).Some?
    ensures Blocked(env, s, KindOf(env, w, s, id).value)
  {
  }

  ghost function QuietSoFar(env: Env, w: World, sweep: Sweep): (World, set<Id>) -> bool {
    (x, d) => Quiet(env, w, x, sweep)
  }

  lemma QuietKept(env: Env, w: World, sweep: Sweep)
    requires sweep.auto && sweep.source in env.connections && Clean(env, w, sweep.source)
    ensures Keeps(env, sweep, true, ProviderOf(w, sweep.source), QuietSoFar(env, w, sweep))
  {
    var p, inv := ProviderOf(w, sweep.source), QuietSoFar(env, w, sweep);
    forall x, d, id | inv(x, d) && id !in d && id in p.records
      ensures inv(SweepRecord(env, x, sweep, id, p.records[id]), d + {id})
    {
      QuietOne(env, w, x, sweep, id);
    }
  }

  lemma QuietWalk(env: Env, w: World, sweep: Sweep, pages: seq<seq<Id>>)
    requires sweep.auto && sweep.source in env.connections && Clean(env, w, sweep.source)
    requires Quiet(env, w, w, sweep) && ListsOnce(pages)
    ensures var walk, p := SweepPages(env, w, sweep, pages), ProviderOf(w, sweep.source);
            Quiet(env, w, walk.w, sweep) && walk.seen == set id | id in Walked(pages, p) && !p.records[id].deleted
  {
    QuietKept(env, w, sweep);
    WalkInduction(env, sweep, true, w, {}, pages, ProviderOf(w, sweep.source), QuietSoFar(env, w, sweep));
  }

  lemma QuietPass(env: Env, w: World, x: World, sweep: Sweep, seen: set<Id>)
    requires sweep.auto && sweep.source in env.connections && Clean(env, w, sweep.source) && Quiet(env, w, x, sweep)
    requires forall id :: Served(w, sweep.source, id) ==> id in seen
    ensures Quiet(env, w, MissingPass(env, x, sweep, w.rows, seen), sweep)
  {
    var inv := (y: World, rest: seq<Row>) => Quiet(env, w, y, sweep) && forall c :: c in rest ==> c in w.rows;
    forall y, rest: seq<Row> | inv(y, rest) && rest != []
      ensures inv(MissingOne(env, y, sweep, rest[0], seen), rest[1..])
    {
      assert rest[0] in w.rows && Accounted(env, w, sweep.source, rest[0]);
      if LooksMissing(rest[0], sweep.source, seen) {
        QuietRecord(env, w, y, sweep, Missing, IdIn(rest[0].providerIds, sweep.source),
                    VersionOf(rest[0], sweep.source), Some(rest[0]), rest[0].fields);
      }
    }
    PassInduction(env, sweep, x, w.rows, seen, inv);
  }

  // The theorem: when no call fails, and the provider's unmapped records neither share an email nor
  // match a row, a second sweep changes nothing and records only findings its policy blocks.
  lemma SecondSweepIsQuiet(env: Env, w: World, first: Sweep, second: Sweep, pages: seq<seq<Id>>, pages': seq<seq<Id>>)
    requires first.auto && second.auto && second.source == first.source && Healthy(env, first.source)
    requires Sound(env, w) && WellFormed(w.rows) && "" !in ProviderOf(w, first.source).records &&
             StrangersApart(env, w, first.source, {})
    requires FreshSweep(w, first.id) && FreshRun(RunSweep(env, w, first, pages), second.id)
    requires ListsOnce(pages) && Covers(pages, ProviderOf(w, first.source))
    requires ListsOnce(pages') && Covers(pages', ProviderOf(RunSweep(env, w, first, pages), first.source))
    ensures var w1 := RunSweep(env, w, first, pages);
            var w2 := RunSweep(env, w1, second, pages');
            && w2 == w1.(findings := w2.findings)
            && forall f ::
                 f in w2.findings && f.run == second.id ==>
                   w2.findings[f].status == SkippedRepair && Blocked(env, first.source, f.kind)
  {
    assert Walking(env, w, w, first, {});
    SweepCleans(env, w, first, pages);
    QuietSweep(env, RunSweep(env, w, first, pages), second, pages');
  }

  lemma QuietSweep(env: Env, w: World, sweep: Sweep, pages: seq<seq<Id>>)
    requires sweep.auto && sweep.source in env.connections && Clean(env, w, sweep.source) && FreshRun(w, sweep.id)
    requires ListsOnce(pages) && Covers(pages, ProviderOf(w, sweep.source))
    ensures Quiet(env, w, RunSweep(env, w, sweep, pages), sweep)
  {
    QuietWalk(env, w, sweep, pages);
    var p, walk := ProviderOf(w, sweep.source), SweepPages(env, w, sweep, pages);
    assert Walked(pages, p) == p.records.Keys;
    QuietPass(env, w, walk.w, sweep, walk.seen);
  }

  // The same for the pages the sweeps list themselves, by cursor, given enough of them.
  lemma SecondSweepByCursorIsQuiet(env: Env, w: World, first: Sweep, second: Sweep, size: nat, most: nat, most': nat)
    requires first.auto && second.auto && second.source == first.source && Healthy(env, first.source)
    requires Sound(env, w) && WellFormed(w.rows) && StrangersApart(env, w, first.source, {}) && FreshSweep(w, first.id)
    requires size > 0 && "" !in ProviderOf(w, first.source).records && most > |ProviderOf(w, first.source).records|
    requires var w1 := RunSweep(env, w, first, CursorPages(env, w, first, "", size, most));
             FreshRun(w1, second.id) && most' > |ProviderOf(w1, first.source).records|
    ensures var w1 := RunSweep(env, w, first, CursorPages(env, w, first, "", size, most));
            var w2 := RunSweep(env, w1, second, CursorPages(env, w1, second, "", size, most'));
            && w2 == w1.(findings := w2.findings)
            && forall f :: f in w2.findings && f.run == second.id ==>
                 w2.findings[f].status == SkippedRepair && Blocked(env, first.source, f.kind)
  {
    assert Walking(env, w, w, first, {});
    WalkingKept(env, w, first);
    CursorCovers(env, first, true, w, size, most, WalkingSoFar(env, w, first));
    var pages := CursorPages(env, w, first, "", size, most);
    SweepCleans(env, w, first, pages);
    QuietByCursor(env, RunSweep(env, w, first, pages), second, size, most');
  }

  lemma QuietByCursor(env: Env, w: World, sweep: Sweep, size: nat, most: nat)
    requires sweep.auto && sweep.source in env.connections && Clean(env, w, sweep.source) && FreshRun(w, sweep.id)
    requires size > 0 && "" !in ProviderOf(w, sweep.source).records && most > |ProviderOf(w, sweep.source).records|
    ensures Quiet(env, w, RunSweep(env, w, sweep, CursorPages(env, w, sweep, "", size, most)), sweep)
  {
    QuietKept(env, w, sweep);
    assert Quiet(env, w, w, sweep);
    CursorCovers(env, sweep, true, w, size, most, QuietSoFar(env, w, sweep));
    QuietSweep(env, w, sweep, CursorPages(env, w, sweep, "", size, most));
  }

  // What an automatic sweep that lists by cursor counts, while it repairs.
  lemma AutomaticSweepCounts(env: Env, w: World, sweep: Sweep, size: nat, most: nat)
    requires sweep.auto && Healthy(env, sweep.source) && Sound(env, w) && WellFormed(w.rows)
    requires StrangersApart(env, w, sweep.source, {}) && FreshSweep(w, sweep.id)
    requires size > 0 && "" !in ProviderOf(w, sweep.source).records && most > |ProviderOf(w, sweep.source).records|
    ensures SweepPages(env, w, sweep, CursorPages(env, w, sweep, "", size, most)).live ==
            |LiveRecords(ProviderOf(w, sweep.source))|
  {
    assert Walking(env, w, w, sweep, {});
    WalkingKept(env, w, sweep);
    CursorCounts(env, sweep, true, w, size, most, WalkingSoFar(env, w, sweep));
  }
}
