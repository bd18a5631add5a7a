/**
 Per-source version ordering: an applied upsert raises the recorded version of its own source and
 nothing else, a stale one is never applied, and every field's provenance stays within the recorded
 version of its owner. The first of these has an exception in the code (a new entity whose id is
 already the key of another row) and holds exactly outside it.
 */
module SourceVersions {
  import opened Customers
  import opened Conflict
  import opened Tables
  import opened Apply
  import opened IdentityIndex
  import opened RowContent

  // The version of source s recorded for an entity; 0 when there is none.
  function Recorded(rows: seq<Row>, entity: Id, s: Source): int {
    var i := ByEntity(rows, entity);
    if i < |rows| then VersionOf(rows[i], s) else 0
  }

  function CustomerOf(env: Env, ev: Event): Customer
    requires ev.source in env.connections
  {
    Normalize(env.connections[ev.source], ev.fields)
  }

  // The entity an upsert is about.
  function EntityOf(env: Env, w: World, ev: Event): Id
    requires ev.source in env.connections
  {
    ResolveCanonical(w, ev, CustomerOf(env, ev)).row.entityId
  }

  // The event resolves to a new entity, but its id is already the key of a row.
  ghost predicate Clobbers(env: Env, w: World, ev: Event)
    requires ev.source in env.connections
  {
    && ResolveCanonical(w, ev, CustomerOf(env, ev)).row == NewRow(ev.source, ev.entityId)
    && ByProvider(w.rows, ev.source, ev.entityId) == |w.rows|
    && ByEntity(w.rows, ev.entityId) < |w.rows|
  }

  ghost predicate RaisesOnlyOwn(a: seq<Row>, b: seq<Row>, entity: Id, s: Source, version: int) {
    && Recorded(a, entity, s) < version
    && forall e, t :: Recorded(b, e, t) == if e == entity && t == s then version else Recorded(a, e, t)
  }

  lemma PutRecorded(rows: seq<Row>, row: Row, e: Id, s: Source)
    ensures Recorded(Put(rows, row), e, s) == if e == row.entityId then VersionOf(row, s) else Recorded(rows, e, s)
  {
    var i, rows' := ByEntity(rows, row.entityId), Put(rows, row);
    var j, k := ByEntity(rows, e), ByEntity(rows', e);
    assert forall n :: 0 <= n < |rows| && n != i ==> rows'[n] == rows[n];
    if e == row.entityId {
      assert rows'[i] == row;
      assert k == i;
    } else {
      assert j < |rows| ==> rows'[j] == rows[j];
      assert k < |rows'| ==> rows'[k].entityId == e;
      assert if j < |rows| then k == j else k == |rows'|;
    }
  }

  // Linking an id moves no version.
  lemma ResolveKeepsVersions(w: World, s: Source, id: Id, j: nat)
    requires j <= |w.rows| && DistinctEntities(w.rows)
    ensures var r := Identify(w, s, id, j);
            && r.w == w.(rows := r.w.rows) && DistinctEntities(r.w.rows)
            && (forall e, t :: Recorded(r.w.rows, e, t) == Recorded(w.rows, e, t))
            && (forall t :: VersionOf(r.row, t) == Recorded(w.rows, r.row.entityId, t)
                            || (r.row == NewRow(s, id) && ByProvider(w.rows, s, id) == |w.rows|))
  {
    var r := Identify(w, s, id, j);
    var i := ByProvider(w.rows, s, id);
    if i < |w.rows| {
      assert ByEntity(w.rows, w.rows[i].entityId) == i;
    } else if j < |w.rows| {
      assert ByEntity(w.rows, w.rows[j].entityId) == j;
      assert r.w.rows == w.rows[j := Link(w.rows[j], s, id)] == Put(w.rows, Link(w.rows[j], s, id));
      forall e, t ensures Recorded(r.w.rows, e, t) == Recorded(w.rows, e, t) {
        PutRecorded(w.rows, Link(w.rows[j], s, id), e, t);
      }
    }
  }

  // What a propagated edit leaves in the rows.
  lemma CommitRows(env: Env, w: World, row: Row, ev: Event, cust: Customer, prov: FieldProvenance, targets: seq<Policy>)
    ensures var o := WriteAndCommit(env, w, row, ev, cust, prov, targets);
            if o.result == Done(Applied)
            then exists ids :: o.w.rows == Put(w.rows, CommittedRow(row, ids, cust, prov, ev))
            else o.result.Failed? && o.w.rows == w.rows
  {
    var pass := WriteTargets(env, w, row.entityId, row.providerIds, cust, ev, targets, false);
    WriteTargetsGrows(env, w, row.entityId, row.providerIds, cust, ev, targets, false);
    RecordWritesFrame(pass.w, row.entityId, ev, targets, Fingerprint(cust));
    assert pass.w.rows == w.rows;
  }

  // An upsert that was applied passed every check on the way.
  lemma AppliedMeansEdit(env: Env, w: World, ev: Event, targets: seq<Policy>)
    requires ev.kind.Upsert? && ApplyUpsert(env, w, ev, targets).result == Done(Applied)
    ensures ev.source in env.connections
    ensures var r := ResolveCanonical(w, ev, CustomerOf(env, ev));
            && VersionOf(r.row, ev.source) < ev.version
            && ApplyUpsert(env, w, ev, targets) == ApplyEdit(env, r.w, r.row, ev, CustomerOf(env, ev), targets)
  {
  }

  function MergedWith(row: Row, ev: Event, cust: Customer, targets: seq<Policy>): State {
    Merged(StrategyOf(targets), State(row.fields, row.prov), EditOf(ev, cust, targets))
  }

  lemma AppliedMeansCommit(env: Env, w: World, row: Row, ev: Event, cust: Customer, targets: seq<Policy>)
    requires ApplyEdit(env, w, row, ev, cust, targets).result == Done(Applied)
    ensures var m := MergedWith(row, ev, cust, targets);
            ApplyEdit(env, w, row, ev, cust, targets) ==
                WriteAndCommit(env, w, row, ev, FromFields(m.fields), m.prov, targets)
  {
  }

  lemma AppliedRows(env: Env, w: World, ev: Event, targets: seq<Policy>)
    returns (ids: map<Source, Id>, prov: FieldProvenance, cust: Customer)
    requires ev.kind.Upsert? && ApplyUpsert(env, w, ev, targets).result == Done(Applied)
    ensures ev.source in env.connections
    ensures var r := ResolveCanonical(w, ev, CustomerOf(env, ev));
            && VersionOf(r.row, ev.source) < ev.version
            && ApplyUpsert(env, w, ev, targets).w.rows == Put(r.w.rows, CommittedRow(r.row, ids, cust, prov, ev))
            && prov == MergedWith(r.row, ev, CustomerOf(env, ev), targets).prov
  {
    AppliedMeansEdit(env, w, ev, targets);
    var c := CustomerOf(env, ev);
    var r := ResolveCanonical(w, ev, c);
    AppliedMeansCommit(env, r.w, r.row, ev, c, targets);
    var m := MergedWith(r.row, ev, c, targets);
    cust, prov := FromFields(m.fields), m.prov;
    CommitRows(env, r.w, r.row, ev, cust, prov, targets);
    ids :| WriteAndCommit(env, r.w, r.row, ev, cust, prov, targets).w.rows ==
        Put(r.w.rows, CommittedRow(r.row, ids, cust, prov, ev));
  }

  // An applied upsert raises its own source's version on its own entity and leaves every other
  // recorded version as it was, exactly when it does not overwrite a foreign row that had versions.
  lemma AppliedRaisesOwnVersionExactly(env: Env, w: World, ev: Event, targets: seq<Policy>)
    requires ev.kind.Upsert? && DistinctEntities(w.rows)
    requires ApplyUpsert(env, w, ev, targets).result == Done(Applied)
    ensures ev.source in env.connections
    ensures var e := EntityOf(env, w, ev);
            RaisesOnlyOwn(w.rows, ApplyUpsert(env, w, ev, targets).w.rows, e, ev.source, ev.version) <==>
            (Clobbers(env, w, ev) ==>
               Recorded(w.rows, e, ev.source) < ev.version &&
                   forall t :: t != ev.source ==> Recorded(w.rows, e, t) == 0)
  {
    var ids, prov, cust := AppliedRows(env, w, ev, targets);
    var c := CustomerOf(env, ev);
    var r := ResolveCanonical(w, ev, c);
    var rows' := ApplyUpsert(env, w, ev, targets).w.rows;
    ResolveKeepsVersions(w, ev.source, ev.entityId, if c.email == "" then |w.rows| else ByEmail(w.rows, c.email));
    var row' := CommittedRow(r.row, ids, cust, prov, ev);
    forall e, t
      ensures Recorded(rows', e, t) == if e == r.row.entityId then VersionOf(row', t) else Recorded(w.rows, e, t)
    {
      PutRecorded(r.w.rows, row', e, t);
    }
    assert forall t :: VersionOf(row', t) == if t == ev.source then ev.version else VersionOf(r.row, t);
    RaisesExactly(w.rows, rows', r.row, ev.source, ev.version, Clobbers(env, w, ev));
  }

  // A row resolved with its recorded versions, or with none while others were recorded.
  lemma RaisesExactly(rows: seq<Row>, rows': seq<Row>, row: Row, s: Source, version: int, clobbers: bool)
    requires VersionOf(row, s) < version
    requires forall e, t ::
               Recorded(rows', e, t) == if e == row.entityId then (if t == s then version else VersionOf(row, t))
                   else Recorded(rows, e, t)
    requires forall t :: VersionOf(row, t) == if clobbers then 0 else Recorded(rows, row.entityId, t)
    ensures RaisesOnlyOwn(rows, rows', row.entityId, s, version) <==>
            (clobbers ==>
             Recorded(rows, row.entityId, s) < version && forall t :: t != s ==> Recorded(rows, row.entityId, t) == 0)
  {
    if RaisesOnlyOwn(rows, rows', row.entityId, s, version) {
      assert forall t :: t != s ==> Recorded(rows', row.entityId, t) == Recorded(rows, row.entityId, t);
    }
  }

  // An upsert that was not applied moves no recorded version, however far it got.
  lemma NotAppliedKeepsVersions(env: Env, w: World, ev: Event, targets: seq<Policy>)
    requires ev.kind.Upsert? && DistinctEntities(w.rows)
    requires ApplyUpsert(env, w, ev, targets).result != Done(Applied)
    ensures var rows' := ApplyUpsert(env, w, ev, targets).w.rows;
            && DistinctEntities(rows')
            && (rows' == w.rows ||
                (ev.source in env.connections && rows' == ResolveCanonical(w, ev, CustomerOf(env, ev)).w.rows))
            && forall e, t :: Recorded(rows', e, t) == Recorded(w.rows, e, t)
  {
    if ev.fields != map[] && ev.source in env.connections && Validate(env.connections[ev.source], ev.fields) {
      var c := CustomerOf(env, ev);
      var r := ResolveCanonical(w, ev, c);
      ResolveKeepsVersions(w, ev.source, ev.entityId, if c.email == "" then |w.rows| else ByEmail(w.rows, c.email));
      if !(ev.version <= VersionOf(r.row, ev.source)) && !IsEcho(r.w, r.row.entityId, ev.source, c) {
        assert ApplyUpsert(env, w, ev, targets) == ApplyEdit(env, r.w, r.row, ev, c, targets);
        EditNotApplied(env, r.w, r.row, ev, c, targets);
      }
    }
  }

  lemma EditNotApplied(env: Env, w: World, row: Row, ev: Event, cust: Customer, targets: seq<Policy>)
    ensures ApplyEdit(env, w, row, ev, cust, targets).result != Done(Applied) ==>
            ApplyEdit(env, w, row, ev, cust, targets).w.rows == w.rows
  {
    var m := MergedWith(row, ev, cust, targets);
    CommitRows(env, w, row, ev, FromFields(m.fields), m.prov, targets);
  }

  // ---- Provenance -------------------------------------------------------------------------------

  const FieldNames := {"first_name", "last_name", "email", "phone", "company"}

  // Every owner's version is within what the row has recorded for that owner.
  ghost predicate OwnersWithin(row: Row) {
    forall f :: f in row.prov ==> row.prov[f].version <= VersionOf(row, row.prov[f].source)
  }

  ghost predicate AllOwned(rows: seq<Row>) {
    forall r :: r in rows ==> FieldNames <= r.prov.Keys && OwnersWithin(r)
  }

  lemma CommittedOwners(row: Row, ids: map<Source, Id>, cust: Customer, c: Customer, ev: Event, targets: seq<Policy>)
    requires OwnersWithin(row) && VersionOf(row, ev.source) < ev.version
    ensures var prov := MergedWith(row, ev, c, targets).prov;
            FieldNames <= prov.Keys && OwnersWithin(CommittedRow(row, ids, cust, prov, ev))
  {
    var prov := MergedWith(row, ev, c, targets).prov;
    var row' := CommittedRow(row, ids, cust, prov, ev);
    forall f | f in prov ensures prov[f].version <= VersionOf(row', prov[f].source) {
      assert prov[f] == EditOf(ev, c, targets).writer || (f in row.prov && prov[f] == row.prov[f]);
    }
  }

  lemma PutOwned(rows: seq<Row>, row: Row)
    requires AllOwned(rows) && FieldNames <= row.prov.Keys && OwnersWithin(row)
    ensures AllOwned(Put(rows, row))
  {
    forall r | r in Put(rows, row) ensures r == row || r in rows { }
  }

  lemma PutDistinct(rows: seq<Row>, row: Row)
    requires DistinctEntities(rows)
    ensures DistinctEntities(Put(rows, row))
  {
    var i, rows' := ByEntity(rows, row.entityId), Put(rows, row);
    assert forall n :: 0 <= n < |rows| && n != i ==> rows'[n] == rows[n] && rows[n].entityId != row.entityId;
  }

  lemma IdentifyOwned(w: World, s: Source, id: Id, j: nat)
    requires j <= |w.rows| && DistinctEntities(w.rows) && AllOwned(w.rows)
    ensures var r := Identify(w, s, id, j); AllOwned(r.w.rows) && OwnersWithin(r.row)
  {
    var i := ByProvider(w.rows, s, id);
    if i == |w.rows| && j < |w.rows| {
      assert ByEntity(w.rows, w.rows[j].entityId) == j;
      assert OwnersWithin(Link(w.rows[j], s, id));
      PutOwned(w.rows, Link(w.rows[j], s, id));
    }
  }

  lemma UpsertOwned(env: Env, w: World, ev: Event, targets: seq<Policy>)
    requires ev.kind.Upsert? && DistinctEntities(w.rows) && AllOwned(w.rows)
    ensures var rows' := ApplyUpsert(env, w, ev, targets).w.rows; AllOwned(rows') && DistinctEntities(rows')
  {
    if ev.source in env.connections {
      var c := CustomerOf(env, ev);
      var r := ResolveCanonical(w, ev, c);
      var j := if c.email == "" then |w.rows| else ByEmail(w.rows, c.email);
      IdentifyOwned(w, ev.source, ev.entityId, j);
      ResolveKeepsVersions(w, ev.source, ev.entityId, j);
      if ApplyUpsert(env, w, ev, targets).result == Done(Applied) {
        var ids, prov, cust := AppliedRows(env, w, ev, targets);
        CommittedOwners(r.row, ids, cust, c, ev, targets);
        PutOwned(r.w.rows, CommittedRow(r.row, ids, cust, prov, ev));
        PutDistinct(r.w.rows, CommittedRow(r.row, ids, cust, prov, ev));
        return;
      }
    }
    if ApplyUpsert(env, w, ev, targets).result != Done(Applied) {
      NotAppliedKeepsVersions(env, w, ev, targets);
    }
  }

  // ---- Runs -------------------------------------------------------------------------------------

  ghost predicate Upserts(evs: seq<Event>) {
    forall k :: 0 <= k < |evs| ==> evs[k].kind.Upsert?
  }

  // What Process does to the rows for an upsert is what ApplyUpsert does, or nothing.
  lemma ProcessUpsertRows(env: Env, w: World, ev: Event)
    requires ev.kind.Upsert?
    ensures var targets := TargetsOf(env.policies, ev.source);
            var w1 := w.(processed := w.processed + {(ev.source, ev.id)});
            var o, p := ApplyUpsert(env, w1, ev, targets), Process(env, w, ev);
            && (p.w.rows == w.rows || (p.w.rows == o.w.rows && p.result == o.result))
            && (p.result == Done(Applied) ==> o.result == Done(Applied) && p.w.rows == o.w.rows)
  {
  }

  // In every run of upserts each of the five fields of each row keeps an owner whose version is
  // within the recorded version of that owner.
  lemma {:induction false} OwnersStayWithin(env: Env, w: World, evs: seq<Event>)
    requires Upserts(evs) && DistinctEntities(w.rows) && AllOwned(w.rows)
    ensures DistinctEntities(Run(env, w, evs).rows) && AllOwned(Run(env, w, evs).rows)
  {
    if evs != [] {
      var front, ev := evs[..|evs| - 1], evs[|evs| - 1];
      OwnersStayWithin(env, w, front);
      var w1 := Run(env, w, front);
      ProcessUpsertRows(env, w1, ev);
      UpsertOwned(env, w1.(processed := w1.processed + {(ev.source, ev.id)}), ev, TargetsOf(env.policies, ev.source));
    }
  }

  ghost predicate NoClobber(env: Env, w: World, evs: seq<Event>) {
    forall k :: 0 <= k < |evs| && evs[k].source in env.connections ==> !Clobbers(env, Run(env, w, evs[..k]), evs[k])
  }

  lemma StepVersions(env: Env, w: World, ev: Event)
    requires ev.kind.Upsert? && DistinctEntities(w.rows)
    requires ev.source in env.connections ==> !Clobbers(env, w, ev)
    ensures var p := Process(env, w, ev);
            && DistinctEntities(p.w.rows)
            && (p.result != Done(Applied) ==> forall e, t :: Recorded(p.w.rows, e, t) == Recorded(w.rows, e, t))
            && (p.result == Done(Applied) ==>
                  ev.source in env.connections &&
                  RaisesOnlyOwn(w.rows, p.w.rows, EntityOf(env, w, ev), ev.source, ev.version))
  {
    var targets := TargetsOf(env.policies, ev.source);
    var w1 := w.(processed := w.processed + {(ev.source, ev.id)});
    ProcessUpsertRows(env, w, ev);
    if ApplyUpsert(env, w1, ev, targets).result == Done(Applied) {
      AppliedRaisesOwnVersionExactly(env, w1, ev, targets);
      var c := CustomerOf(env, ev);
      assert ResolveCanonical(w1, ev, c).row == ResolveCanonical(w, ev, c).row;
      var r := ResolveCanonical(w1, ev, c);
      var ids, prov, cust := AppliedRows(env, w1, ev, targets);
      ResolveKeepsVersions(w1, ev.source, ev.entityId, if c.email == "" then |w.rows| else ByEmail(w.rows, c.email));
      PutDistinct(r.w.rows, CommittedRow(r.row, ids, cust, prov, ev));
    } else {
      NotAppliedKeepsVersions(env, w1, ev, targets);
    }
  }

  // Recorded versions never fall along a run of upserts.
  lemma {:induction false} VersionsNeverFall(env: Env, w: World, evs: seq<Event>, e: Id, s: Source)
    requires Upserts(evs) && DistinctEntities(w.rows) && NoClobber(env, w, evs)
    ensures DistinctEntities(Run(env, w, evs).rows)
    ensures Recorded(w.rows, e, s) <= Recorded(Run(env, w, evs).rows, e, s)
  {
    if evs != [] {
      var front, ev := evs[..|evs| - 1], evs[|evs| - 1];
      assert NoClobber(env, w, front) by {
        assert forall k :: 0 <= k < |front| ==> front[..k] == evs[..k] && front[k] == evs[k];
      }
      VersionsNeverFall(env, w, front, e, s);
      StepVersions(env, Run(env, w, front), ev);
    }
  }

  // Once a version is recorded, no event of that source at or below it is ever applied to the
  // entity again, however much happens in between.
  lemma StaleForever(env: Env, w: World, evs: seq<Event>, ev: Event)
    requires Upserts(evs) && ev.kind.Upsert? && ev.source in env.connections && DistinctEntities(w.rows)
    requires NoClobber(env, w, evs) && !Clobbers(env, Run(env, w, evs), ev)
    requires ev.version <= Recorded(w.rows, EntityOf(env, Run(env, w, evs), ev), ev.source)
    ensures Process(env, Run(env, w, evs), ev).result != Done(Applied)
  {
    VersionsNeverFall(env, w, evs, EntityOf(env, Run(env, w, evs), ev), ev.source);
    StepVersions(env, Run(env, w, evs), ev);
  }

  // A world with one row, made by source t from a record with the id of the event's record: five fields
  // owned by t, at a version of 7, and another email than the event's.
  ghost predicate OneForeignRow(env: Env, w: World, ev: Event, t: Source, c: Customer)
    requires ev.source in env.connections
  {
    && c.email != CustomerOf(env, ev).email && ev.source != t
    && w.rows == [Row(ev.entityId, FieldsOf(c), 1, map[t := 7], map f | f in FieldsOf(c) :: Provenance(t, 7, 0, 100),
                      false, map[t := ev.entityId])]
  }

  ghost predicate GoodUpsert(env: Env, w: World, ev: Event, d: Policy) {
    && ev.kind.Upsert? && ev.version > 0 && (ev.entityId, ev.source) !in w.outbound
    && ev.source in env.connections && Validate(env.connections[ev.source], ev.fields) && ev.fields != map[]
    && d.source == ev.source && d.destination in env.connections && !d.strategy.Manual?
    && d.destination != ev.source && env.faults(w.calls).NoFault?
  }

  // Such a row is one the code stores.
  lemma ForeignRowIsStored(env: Env, w: World, ev: Event, t: Source, c: Customer)
    requires ev.source in env.connections && OneForeignRow(env, w, ev, t, c)
    ensures WellFormed(w.rows) && AllOwned(w.rows)
  {
    CustomerRow(w.rows[0], c);
  }

  lemma ClobberResolves(env: Env, w: World, ev: Event, t: Source, c: Customer)
    requires ev.source in env.connections && OneForeignRow(env, w, ev, t, c)
    ensures ResolveCanonical(w, ev, CustomerOf(env, ev)) == Resolved(w, NewRow(ev.source, ev.entityId))
    ensures Recorded(w.rows, ev.entityId, t) == 7
  {
    assert Get(FieldsOf(c), "email") == Text(c.email);
  }

  lemma ClobberApplies(env: Env, w: World, ev: Event, t: Source, c: Customer, d: Policy)
    requires GoodUpsert(env, w, ev, d) && OneForeignRow(env, w, ev, t, c)
    ensures ApplyUpsert(env, w, ev, [d]).result == Done(Applied)
  {
    var cust := CustomerOf(env, ev);
    ClobberResolves(env, w, ev, t, c);
    var r := ResolveCanonical(w, ev, cust);
    var m := MergedWith(r.row, ev, cust, [d]);
    assert !AnyConflict(State(r.row.fields, r.row.prov), EditOf(ev, cust, [d]));
    var one := WriteOne(env, w, r.row.entityId, r.row.providerIds, FromFields(m.fields), ev, d.destination, false);
    assert one.error.None?;
    assert WriteTargets(env, w, r.row.entityId, r.row.providerIds, FromFields(m.fields), ev, [d], false) == one;
  }

  // The exception is real: two providers that use the same id string for different records. The
  // second record's first event takes over the row of the first and its recorded version is gone.
  lemma ClobberLosesVersion(env: Env, w: World, ev: Event, t: Source, c: Customer, d: Policy)
    requires GoodUpsert(env, w, ev, d) && OneForeignRow(env, w, ev, t, c)
    ensures WellFormed(w.rows) && AllOwned(w.rows)
    ensures ApplyUpsert(env, w, ev, [d]).result == Done(Applied)
    ensures Recorded(w.rows, ev.entityId, t) == 7 && Recorded(ApplyUpsert(env, w, ev, [d]).w.rows, ev.entityId, t) == 0
  {
    ForeignRowIsStored(env, w, ev, t, c);
    ClobberResolves(env, w, ev, t, c);
    ClobberApplies(env, w, ev, t, c, d);
    var ids, prov, cust := AppliedRows(env, w, ev, [d]);
    PutRecorded(w.rows, CommittedRow(NewRow(ev.source, ev.entityId), ids, cust, prov, ev), ev.entityId, t);
  }
}
