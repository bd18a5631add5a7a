/**
 One step of an automatic sweep: what sweeping one provider record leaves behind when no provider
 call fails, whichever repair it needed.
 */
module SweepStep {
  import opened Customers
  import opened Tables
  import opened Apply
  import opened IdentityIndex
  import opened Destinations
  import opened Reconcile
  import opened SweepDiff
  import opened RowContent
  import opened SweepRepairs

  // ---- The setting --------------------------------------------------------------------------------

  // A provider that answers every call, and destinations that are all connected and distinct from it.
  ghost predicate Healthy(env: Env, s: Source) {
    && NoFaults(env) && s in env.connections
    && Connected(env, TargetsOf(env.policies, s)) && !IsTarget(TargetsOf(env.policies, s), s)
  }

  // A live valid record no row maps.
  ghost predicate Stranger(env: Env, w: World, s: Source, id: Id)
    requires s in env.connections
  {
    ValidLive(env, w, s, id) && ViewOf(w.rows, s, id).None?
  }

  ghost function EmailAt(env: Env, w: World, s: Source, id: Id): string
    requires s in env.connections && id in ProviderOf(w, s).records
  {
    Normalize(env.connections[s], ProviderOf(w, s).records[id].data).email
  }

  // Among the ids outside done, strangers have distinct emails and match no row by id or email.
  ghost predicate StrangersApart(env: Env, w: World, s: Source, done: set<Id>)
    requires s in env.connections
  {
    && (forall i, j :: i !in done && j !in done && i != j && Stranger(env, w, s, i) && Stranger(env, w, s, j) ==>
          EmailAt(env, w, s, i) != EmailAt(env, w, s, j))
    && (forall i, r :: i !in done && Stranger(env, w, s, i) && r in w.rows ==>
          r.entityId != i && !HasEmail(r, EmailAt(env, w, s, i)))
  }

  ghost predicate Tombstoned(w: World, s: Source, id: Id) {
    var v := ViewOf(w.rows, s, id);
    v.Some? && v.value.tombstone
  }

  // The run has neither findings nor claims about id yet.
  ghost predicate Unreported(w: World, sweep: Sweep, kind: FindingKind, id: Id) {
    FindingId(sweep.id, kind, id) !in w.findings &&
        (sweep.source, RepairOf(FindingId(sweep.id, kind, id))) !in w.processed
  }

  // ---- One record -----------------------------------------------------------------------------------

  // Row r has the content of a row that was there, or was adopted from record id.
  ghost predicate Descends(env: Env, w: World, s: Source, id: Id, r: Row)
    requires s in env.connections
  {
    || (exists q :: q in w.rows && q.entityId == r.entityId && q.fields == r.fields && (q.tombstone ==> r.tombstone))
    || (Stranger(env, w, s, id) && r.entityId == id && r.fields == FieldsAt(env, w, s, id))
  }

  // What sweeping record id leaves behind.
  ghost predicate Repaired(env: Env, w: World, w': World, sweep: Sweep, id: Id)
    requires sweep.source in env.connections
  {
    var s := sweep.source;
    var p, p' := ProviderOf(w, s), ProviderOf(w', s);
    && Sound(env, w') && WellFormed(w'.rows)
    && p'.records.Keys == p.records.Keys
    && (forall i :: i in p.records && i != id ==> p'.records[i] == p.records[i])
    && (forall i :: i != id ==> ViewOf(w'.rows, s, i) == ViewOf(w.rows, s, i))
    && CleanAt(env, w', s, id)
    && (id in p.records && p.records[id].deleted ==> p'.records[id].deleted)
    && (id in p.records && !p.records[id].deleted ==> !p'.records[id].deleted || Tombstoned(w', s, id))
    && (forall r :: r in w'.rows ==> Descends(env, w, s, id, r))
    && Bookkept(w, w', sweep, id, false)
  }

  // New findings and claims are this run's, about this id, and of kind missing exactly in the
  // missing pass.
  ghost predicate Bookkept(w: World, w': World, sweep: Sweep, id: Id, missing: bool) {
    && (forall f ::
          f in w'.findings ==>
            f in w.findings || (f.run == sweep.id && f.providerId == id && f.kind.Missing? == missing))
    && (forall c :: c in w'.processed ==>
          c in w.processed ||
              (c.0 == sweep.source && c.1.RepairOf? && c.1.finding.run == sweep.id && c.1.finding.providerId == id &&
               c.1.finding.kind.Missing? == missing))
  }

  // Only bookkeeping changed.
  lemma RepairedByNothing(env: Env, w: World, w': World, sweep: Sweep, id: Id)
    requires sweep.source in env.connections && Sound(env, w) && WellFormed(w.rows)
    requires w'.rows == w.rows && w'.providers == w.providers && CleanAt(env, w, sweep.source, id)
    requires Bookkept(w, w', sweep, id, false)
    ensures Repaired(env, w, w', sweep, id)
  {
    GrowsReflexive(env, w, w');
    SameRowsSound(env, w, w');
    assert ProviderOf(w', sweep.source) == ProviderOf(w, sweep.source);
    forall r | r in w'.rows ensures Descends(env, w, sweep.source, id, r) { assert r in w.rows; }
  }

  lemma ClaimedSound(env: Env, w: World, s: Source, f: FindingId, finding: Finding)
    requires Sound(env, w)
    ensures Sound(env, UnderRepair(w, s, f, finding))
    ensures forall t :: ProviderOf(UnderRepair(w, s, f, finding), t) == ProviderOf(w, t)
  {
    GrowsReflexive(env, w, UnderRepair(w, s, f, finding));
    SameRowsSound(env, w, UnderRepair(w, s, f, finding));
    assert forall t :: ProviderOf(UnderRepair(w, s, f, finding), t) == ProviderOf(w, t);
  }

  lemma ClaimedBookkept(w: World, w': World, sweep: Sweep, f: FindingId, finding: Finding)
    requires f.run == sweep.id
    requires var c := UnderRepair(w, sweep.source, f, finding);
             w'.findings.Keys == c.findings.Keys && w'.processed == c.processed
    ensures Bookkept(w, w', sweep, f.providerId, f.kind.Missing?)
  {
  }

  // A repair with the given effect, seen from the world before the finding was recorded.
  lemma RepairRecorded(env: Env, w: World, sweep: Sweep, kind: FindingKind, id: Id, version: int, row: Option<Row>,
                       fields: Fields, o: Outcome, rows: seq<Row>, p: Provider)
    requires sweep.auto && sweep.source in env.connections && Unreported(w, sweep, kind, id)
    requires Repairable(kind, DeletePolicyFor(env.policies, sweep.source))
    requires var f, finding := FindingId(sweep.id, kind, id), NewFinding(sweep, kind, id, version, row, fields);
             var c := UnderRepair(w, sweep.source, f, finding);
             o == ApplyRepair(env, c, RepairEvent(sweep, f, finding), f) && o.result == Done(Applied) &&
                 Effect(c, o.w, sweep.source, rows, p)
    ensures var w' := RecordFinding(env, w, sweep, kind, id, version, row, fields);
            && w' == o.w && w'.rows == rows && ProviderOf(w', sweep.source) == p &&
               Bookkept(w, w', sweep, id, kind.Missing?)
            && forall t :: t != sweep.source ==> ProviderOf(w', t) == ProviderOf(w, t)
  {
    var f, finding := FindingId(sweep.id, kind, id), NewFinding(sweep, kind, id, version, row, fields);
    RecordIsRepair(env, w, sweep, kind, id, version, row, fields);
    ClaimedBookkept(w, o.w, sweep, f, finding);
    assert forall t :: ProviderOf(UnderRepair(w, sweep.source, f, finding), t) == ProviderOf(w, t);
  }

  lemma RepairedByDelete(env: Env, w: World, sweep: Sweep, id: Id, rec: Record, row: Row, fields: Fields)
    requires Healthy(env, sweep.source) && Sound(env, w) && WellFormed(w.rows) && sweep.auto
    requires id in ProviderOf(w, sweep.source).records && rec == ProviderOf(w, sweep.source).records[id]
    requires Tombstoned(w, sweep.source, id) && Unreported(w, sweep, Deleted, id) &&
             DeletePolicyFor(env.policies, sweep.source).Propagate?
    ensures Repaired(env, w, RecordFinding(env, w, sweep, Deleted, id, rec.version, Some(row), fields), sweep, id)
  {
    var s := sweep.source;
    var f, finding := FindingId(sweep.id, Deleted, id), NewFinding(sweep, Deleted, id, rec.version, Some(row), fields);
    var c := UnderRepair(w, s, f, finding);
    ClaimedSound(env, w, s, f, finding);
    DeleteEffect(env, c, RepairEvent(sweep, f, finding), f, s);
    RecordIsRepair(env, w, sweep, Deleted, id, rec.version, Some(row), fields);
    var w' := RecordFinding(env, w, sweep, Deleted, id, rec.version, Some(row), fields);
    ClaimedBookkept(w, w', sweep, f, finding);
    SameKeysSound(env, w, w', s);
    forall r | r in w'.rows ensures Descends(env, w, s, id, r) { assert r in w.rows; }
  }

  // Changing records in place, and no row, keeps the index sound.
  lemma SameKeysSound(env: Env, w: World, w': World, s: Source)
    requires Sound(env, w) && w'.rows == w.rows
    requires ProviderOf(w', s).records.Keys == ProviderOf(w, s).records.Keys &&
             ProviderOf(w', s).created == ProviderOf(w, s).created
    requires forall t :: t != s ==> ProviderOf(w', t) == ProviderOf(w, t)
    ensures Sound(env, w')
  {
    assert Grows(env, w, w') by {
      forall t ensures ProviderOf(w', t).records.Keys == ProviderOf(w, t).records.Keys &&
          ProviderOf(w', t).created == ProviderOf(w, t).created
      {
      }
    }
    SameRowsSound(env, w, w');
  }

  // Writing a row back under its own ids, with records changed in place, keeps the index sound.
  lemma PutBackSound(env: Env, w: World, w': World, s: Source, i: nat, q: Row)
    requires Sound(env, w) && i < |w.rows| && w'.rows == w.rows[i := q]
    requires q.entityId == w.rows[i].entityId && q.providerIds == w.rows[i].providerIds
    requires ProviderOf(w', s).records.Keys == ProviderOf(w, s).records.Keys &&
             ProviderOf(w', s).created == ProviderOf(w, s).created
    requires forall t :: t != s ==> ProviderOf(w', t) == ProviderOf(w, t)
    ensures Sound(env, w')
  {
    assert Grows(env, w, w') by {
      forall t ensures ProviderOf(w', t).records.Keys == ProviderOf(w, t).records.Keys &&
          ProviderOf(w', t).created == ProviderOf(w, t).created
      {
      }
    }
    assert ByEntity(w.rows, q.entityId) == i;
    OwnIds(w, i, "", "");
    assert w.rows[i] in w.rows;
    CommitSound(env, w, w', q, q.providerIds, "", "");
  }

  // The record the row maps takes the row's fields.
  lemma DriftClaimed(env: Env, c: World, s: Source, ev: Event, f: FindingId, i: nat, id: Id, rec: Record,
                     rows: seq<Row>, q: Provider, p: Provider)
    requires Repairing(env, c, f, Drift, s) && q == ProviderOf(c, s) && c.findings[f].providerId == id != ""
    requires id in q.records && q.records[id] == rec
    requires i < |c.rows| && i == ByEntity(c.rows, c.findings[f].canonicalId)
    requires var data := rec.data + Denormalize(env.connections[s], FromFields(c.rows[i].fields));
             && rows == c.rows[i := PushedRow(c.rows[i], s, Replied(id, rec.version + 1))]
             && p == Provider(q.records[id := Record(rec.version + 1, rec.deleted, data)], q.created)
    ensures ApplyRepair(env, c, ev, f).result == Done(Applied) && Effect(c, ApplyRepair(env, c, ev, f).w, s, rows, p)
  {
    DriftEffect(env, c, ev, f, s, i);
  }

  lemma DriftRecorded(env: Env, w: World, sweep: Sweep, id: Id, rec: Record, i: nat, fields: Fields)
    requires Healthy(env, sweep.source) && sweep.auto && id != ""
    requires id in ProviderOf(w, sweep.source).records && rec == ProviderOf(w, sweep.source).records[id]
    requires i < |w.rows| && ByEntity(w.rows, w.rows[i].entityId) == i && Unreported(w, sweep, Drift, id)
    ensures var s := sweep.source;
            var w', p := RecordFinding(env, w, sweep, Drift, id, rec.version, Some(w.rows[i]), fields),
                         ProviderOf(w, s);
            var data := rec.data + Denormalize(env.connections[s], FromFields(w.rows[i].fields));
            && w'.rows == w.rows[i := PushedRow(w.rows[i], s, Replied(id, rec.version + 1))] &&
               Bookkept(w, w', sweep, id, false)
            && ProviderOf(w', s) == Provider(p.records[id := Record(rec.version + 1, rec.deleted, data)], p.created)
            && forall t :: t != s ==> ProviderOf(w', t) == ProviderOf(w, t)
  {
    var s, row := sweep.source, w.rows[i];
    var f, finding := FindingId(sweep.id, Drift, id), NewFinding(sweep, Drift, id, rec.version, Some(row), fields);
    var c, p := UnderRepair(w, s, f, finding), ProviderOf(w, s);
    assert ProviderOf(c, s) == p;
    var data := rec.data + Denormalize(env.connections[s], FromFields(row.fields));
    var rows := w.rows[i := PushedRow(row, s, Replied(id, rec.version + 1))];
    var p' := Provider(p.records[id := Record(rec.version + 1, rec.deleted, data)], p.created);
    DriftClaimed(env, c, s, RepairEvent(sweep, f, finding), f, i, id, rec, rows, p, p');
    RepairRecorded(env, w, sweep, Drift, id, rec.version, Some(row), fields,
                   ApplyRepair(env, c, RepairEvent(sweep, f, finding), f), rows, p');
  }

  lemma RepairedByPush(env: Env, w: World, sweep: Sweep, id: Id, rec: Record, i: nat, fields: Fields)
    requires Healthy(env, sweep.source) && Sound(env, w) && WellFormed(w.rows) && sweep.auto && id != ""
    requires id in ProviderOf(w, sweep.source).records && rec == ProviderOf(w, sweep.source).records[id] && !rec.deleted
    requires i < |w.rows| && Maps(w.rows[i], sweep.source, id) && !w.rows[i].tombstone &&
             Unreported(w, sweep, Drift, id)
    ensures Repaired(env, w, RecordFinding(env, w, sweep, Drift, id, rec.version, Some(w.rows[i]), fields), sweep, id)
  {
    var s, row := sweep.source, w.rows[i];
    assert ByEntity(w.rows, row.entityId) == i;
    DriftRecorded(env, w, sweep, id, rec, i, fields);
    var w' := RecordFinding(env, w, sweep, Drift, id, rec.version, Some(row), fields);
    var q := PushedRow(row, s, Replied(id, rec.version + 1));
    assert q.providerIds == row.providerIds;
    PutBackSound(env, w, w', s, i, q);
    PushedBack(env, w, w', sweep, id, i, q);
  }

  // A row written back with the same content, and a record overwritten with that content.
  lemma PushedBack(env: Env, w: World, w': World, sweep: Sweep, id: Id, i: nat, q: Row)
    requires sweep.source in env.connections && Sound(env, w) && Sound(env, w') && WellFormed(w.rows)
    requires i < |w.rows| && w'.rows == w.rows[i := q] && Maps(w.rows[i], sweep.source, id)
    requires q.entityId == w.rows[i].entityId && q.fields == w.rows[i].fields && !q.tombstone && !w.rows[i].tombstone
    requires q.providerIds == w.rows[i].providerIds && Bookkept(w, w', sweep, id, false)
    requires var p, p' := ProviderOf(w, sweep.source), ProviderOf(w', sweep.source);
             && id in p.records && p'.records.Keys == p.records.Keys && !p.records[id].deleted &&
                !p'.records[id].deleted
             && (forall j :: j in p.records && j != id ==> p'.records[j] == p.records[j])
             && p'.records[id].data == p.records[id].data + Denormalize(env.connections[sweep.source],
                FromFields(q.fields))
    ensures Repaired(env, w, w', sweep, id)
  {
    var s := sweep.source;
    forall j | j != id ensures ViewOf(w'.rows, s, j) == ViewOf(w.rows, s, j) { ViewReplaced(w.rows, i, q, s, j); }
    ViewAt(w'.rows, s, id, i);
    assert w.rows[i] in w.rows;
    PushedIsClean(env.connections[s], DeletePolicyFor(env.policies, s), ProviderOf(w', s).records[id],
                  ProviderOf(w, s).records[id].data, q.fields);
    forall r | r in w'.rows ensures Descends(env, w, s, id, r) && r.fields == FieldsOf(FromFields(r.fields)) {
      if r !in w.rows { assert r == q; }
    }
  }

  lemma RepairedByAdopt(env: Env, w: World, sweep: Sweep, id: Id, rec: Record)
    requires Healthy(env, sweep.source) && Sound(env, w) && WellFormed(w.rows) && sweep.auto && id != ""
    requires id in ProviderOf(w, sweep.source).records && rec == ProviderOf(w, sweep.source).records[id]
    requires Stranger(env, w, sweep.source, id) && Unreported(w, sweep, Missed, id)
    requires forall r :: r in w.rows ==> r.entityId != id && !HasEmail(r, EmailAt(env, w, sweep.source, id))
    ensures Repaired(env, w,
                     RecordFinding(env, w, sweep, Missed, id, rec.version, None, FieldsAt(env, w, sweep.source, id)),
                         sweep, id)
  {
    var s, fields := sweep.source, FieldsAt(env, w, sweep.source, id);
    var cust := Normalize(env.connections[s], rec.data);
    var f, finding := FindingId(sweep.id, Missed, id), NewFinding(sweep, Missed, id, rec.version, None, fields);
    var c, ev := UnderRepair(w, s, f, finding), RepairEvent(sweep, f, finding);
    ClaimedSound(env, w, s, f, finding);
    ViewNone(w.rows, s, id);
    var q := AdoptEffect(env, c, ev, f, s, cust);
    RecordIsRepair(env, w, sweep, Missed, id, rec.version, None, fields);
    var w' := RecordFinding(env, w, sweep, Missed, id, rec.version, None, fields);
    ClaimedBookkept(w, w', sweep, f, finding);
    assert Known(env, c, s, id);
    RepairSound(env, c, ev, f);
    Adopted(env, w, w', sweep, id, q, cust);
  }

  // A row appended for the record it was adopted from.
  lemma Adopted(env: Env, w: World, w': World, sweep: Sweep, id: Id, q: Row, cust: Customer)
    requires sweep.source in env.connections && Sound(env, w) && Sound(env, w') && WellFormed(w.rows)
    requires Stranger(env, w, sweep.source, id) && w'.rows == w.rows + [q]
    requires cust == Normalize(env.connections[sweep.source], ProviderOf(w, sweep.source).records[id].data)
    requires q.entityId == id && q.fields == FieldsOf(cust) && !q.tombstone && Maps(q, sweep.source, id)
    requires ProviderOf(w', sweep.source) == ProviderOf(w, sweep.source) && Bookkept(w, w', sweep, id, false)
    ensures Repaired(env, w, w', sweep, id)
  {
    var s := sweep.source;
    forall j | j != id ensures ViewOf(w'.rows, s, j) == ViewOf(w.rows, s, j) { ViewAppended(w.rows, q, s, j); }
    assert w'.rows[|w.rows|] == q;
    ViewAt(w'.rows, s, id, |w.rows|);
    SameFieldsReflexive(cust, cust);
    FieldsRoundTrip(cust);
    forall r | r in w'.rows ensures Descends(env, w, s, id, r) && r.fields == FieldsOf(FromFields(r.fields)) {
      if r !in w.rows { assert r == q; }
    }
  }

  // ---- Any record -----------------------------------------------------------------------------------

  // A finding the policy blocks is only recorded.
  lemma BlockedRecorded(env: Env, w: World, sweep: Sweep, kind: FindingKind, id: Id, version: int, row: Option<Row>,
                        fields: Fields)
    requires sweep.auto && !Repairable(kind, DeletePolicyFor(env.policies, sweep.source)) &&
             FindingId(sweep.id, kind, id) !in w.findings
    ensures var w', f := RecordFinding(env, w, sweep, kind, id, version, row, fields), FindingId(sweep.id, kind, id);
            w' == w.(findings := w.findings[f := NewFinding(sweep, kind, id, version, row,
                                                            fields).(status := SkippedRepair)])
  {
  }

  lemma SweepRecordIs(env: Env, w: World, sweep: Sweep, id: Id)
    requires sweep.source in env.connections && id in ProviderOf(w, sweep.source).records
    ensures var rec, kind := ProviderOf(w, sweep.source).records[id], KindOf(env, w, sweep.source, id);
            SweepRecord(env, w, sweep, id, rec) ==
            if kind.None? then w
            else RecordFinding(env, w, sweep, kind.value, id, rec.version, RowFor(w, sweep.source, id),
                               FieldsAt(env, w, sweep.source, id))
  {
  }

  lemma BlockedRepaired(env: Env, w: World, sweep: Sweep, id: Id, version: int, row: Option<Row>, fields: Fields)
    requires Healthy(env, sweep.source) && Sound(env, w) && WellFormed(w.rows) && sweep.auto &&
             CleanAt(env, w, sweep.source, id)
    requires !DeletePolicyFor(env.policies, sweep.source).Propagate? && FindingId(sweep.id, Deleted, id) !in w.findings
    ensures Repaired(env, w, RecordFinding(env, w, sweep, Deleted, id, version, row, fields), sweep, id)
  {
    BlockedRecorded(env, w, sweep, Deleted, id, version, row, fields);
    RepairedByNothing(env, w, RecordFinding(env, w, sweep, Deleted, id, version, row, fields), sweep, id);
  }

  lemma DeletedRepaired(env: Env, w: World, sweep: Sweep, id: Id, row: Row)
    requires Healthy(env, sweep.source) && Sound(env, w) && WellFormed(w.rows) && sweep.auto
    requires id in ProviderOf(w, sweep.source).records && KindOf(env, w, sweep.source, id) == Some(Deleted)
    requires Unreported(w, sweep, Deleted, id)
    ensures Repaired(env, w,
                     RecordFinding(env, w, sweep, Deleted, id, ProviderOf(w, sweep.source).records[id].version,
                                   Some(row), FieldsAt(env, w, sweep.source, id)), sweep, id)
  {
    var s := sweep.source;
    var rec := ProviderOf(w, s).records[id];
    assert Tombstoned(w, s, id);
    if DeletePolicyFor(env.policies, s).Propagate? {
      RepairedByDelete(env, w, sweep, id, rec, row, FieldsAt(env, w, s, id));
    } else {
      BlockedRepaired(env, w, sweep, id, rec.version, Some(row), FieldsAt(env, w, s, id));
    }
  }

  lemma FindingRepaired(env: Env, w: World, sweep: Sweep, id: Id, kind: FindingKind)
    requires Healthy(env, sweep.source) && Sound(env, w) && WellFormed(w.rows) && sweep.auto
    requires id != "" && id in ProviderOf(w, sweep.source).records && KindOf(env, w, sweep.source, id) == Some(kind)
    requires Unreported(w, sweep, kind, id)
    requires kind.Missed? ==>
               forall r :: r in w.rows ==> r.entityId != id && !HasEmail(r, EmailAt(env, w, sweep.source, id))
    ensures Repaired(env, w, RecordFinding(env, w, sweep, kind, id, ProviderOf(w, sweep.source).records[id].version,
                                           RowFor(w, sweep.source, id), FieldsAt(env, w, sweep.source, id)), sweep, id)
  {
    var s := sweep.source;
    var rec, i := ProviderOf(w, s).records[id], ByProvider(w.rows, s, id);
    match kind {
      case Missed => RepairedByAdopt(env, w, sweep, id, rec);
      case Drift => RepairedByPush(env, w, sweep, id, rec, i, FieldsAt(env, w, s, id));
      case Deleted => DeletedRepaired(env, w, sweep, id, w.rows[i]);
      case Missing =>
    }
  }

  lemma RecordRepaired(env: Env, w: World, sweep: Sweep, id: Id)
    requires Healthy(env, sweep.source) && Sound(env, w) && WellFormed(w.rows) && sweep.auto
    requires id != "" && id in ProviderOf(w, sweep.source).records
    requires forall kind: FindingKind :: !kind.Missing? ==> Unreported(w, sweep, kind, id)
    requires Stranger(env, w, sweep.source, id) ==>
               forall r :: r in w.rows ==> r.entityId != id && !HasEmail(r, EmailAt(env, w, sweep.source, id))
    ensures Repaired(env, w, SweepRecord(env, w, sweep, id, ProviderOf(w, sweep.source).records[id]), sweep, id)
  {
    var kind := KindOf(env, w, sweep.source, id);
    SweepRecordIs(env, w, sweep, id);
    if kind.None? {
      RepairedByNothing(env, w, w, sweep, id);
    } else {
      FindingRepaired(env, w, sweep, id, kind.value);
    }
  }
}
