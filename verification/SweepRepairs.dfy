/**
 What each automatic repair does when no provider call fails: the repaired record agrees with its
 canonical row, every other record and every other row's view of it is untouched, and the index
 stays functional.
 */
module SweepRepairs {
  import opened Customers
  import opened Tables
  import opened Apply
  import opened IdentityIndex
  import opened Destinations
  import opened Reconcile

  // ---- The canonical view of a provider id --------------------------------------------------------

  datatype View = View(fields: Fields, tombstone: bool)

  // What the canonical rows say about id.
  function ViewOf(rows: seq<Row>, s: Source, id: Id): Option<View> {
    var i := ByProvider(rows, s, id);
    if i < |rows| then Some(View(rows[i].fields, rows[i].tombstone)) else None
  }

  lemma ViewAt(rows: seq<Row>, s: Source, id: Id, i: nat)
    requires Functional(rows) && i < |rows| && Maps(rows[i], s, id)
    ensures ViewOf(rows, s, id) == Some(View(rows[i].fields, rows[i].tombstone))
    ensures forall j :: 0 <= j < |rows| && j != i ==> !Maps(rows[j], s, id)
  {
    var j := ByProvider(rows, s, id);
    forall j | 0 <= j < |rows| && j != i ensures !Maps(rows[j], s, id) {
      if j < i { assert !(s in rows[j].providerIds) || rows[j].providerIds[s] != rows[i].providerIds[s]; }
    }
  }

  lemma ViewNone(rows: seq<Row>, s: Source, id: Id)
    ensures ViewOf(rows, s, id).None? <==> forall r :: r in rows ==> !Maps(r, s, id)
  {
  }

  // Replacing a row by one with the same content changes no view its mapping does not touch.
  lemma ViewReplaced(rows: seq<Row>, i: nat, q: Row, s: Source, id: Id)
    requires i < |rows| && Functional(rows) && Functional(rows[i := q])
    requires q.fields == rows[i].fields && q.tombstone == rows[i].tombstone
    requires Maps(q, s, id) <==> Maps(rows[i], s, id)
    ensures ViewOf(rows[i := q], s, id) == ViewOf(rows, s, id)
  {
    var j := ByProvider(rows, s, id);
    if j < |rows| {
      ViewAt(rows, s, id, j);
      ViewAt(rows[i := q], s, id, j);
    } else {
      ViewNone(rows, s, id);
      ViewNone(rows[i := q], s, id);
    }
  }

  lemma ViewAppended(rows: seq<Row>, q: Row, s: Source, id: Id)
    requires Functional(rows) && Functional(rows + [q]) && !Maps(q, s, id)
    ensures ViewOf(rows + [q], s, id) == ViewOf(rows, s, id)
  {
    var j := ByProvider(rows, s, id);
    if j < |rows| {
      assert (rows + [q])[j] == rows[j];
      ViewAt(rows + [q], s, id, j);
    } else {
      ViewNone(rows, s, id);
      ViewNone(rows + [q], s, id);
    }
  }

  // ---- Clean records ------------------------------------------------------------------------------

  // A sweep finds nothing wrong with the record that it may repair.
  ghost predicate CleanRecord(kind: Kind, policy: DeletePolicy, rec: Record, view: Option<View>) {
    || rec.deleted
    || !Validate(kind, rec.data)
    || (view.Some? && if view.value.tombstone then !policy.Propagate?
        else SameFields(view.value.fields, FieldsOf(Normalize(kind, rec.data))))
  }

  ghost predicate CleanAt(env: Env, w: World, s: Source, id: Id)
    requires s in env.connections
  {
    id in ProviderOf(w, s).records ==>
      CleanRecord(env.connections[s], DeletePolicyFor(env.policies, s), ProviderOf(w, s).records[id],
                  ViewOf(w.rows, s, id))
  }

  lemma SameFieldsReflexive(c: Customer, d: Customer)
    requires c == d
    ensures SameFields(FieldsOf(c), FieldsOf(d))
  {
  }

  // A row and a record written from it agree.
  lemma PushedIsClean(kind: Kind, policy: DeletePolicy, rec: Record, data: Fields, fields: Fields)
    requires fields == FieldsOf(FromFields(fields)) && rec.data == data + Denormalize(kind, FromFields(fields))
    ensures CleanRecord(kind, policy, rec, Some(View(fields, false)))
  {
    AdapterRoundTrip(kind, FromFields(fields), data);
    SameFieldsReflexive(FromFields(fields), Normalize(kind, rec.data));
  }

  // ---- Repairs as events --------------------------------------------------------------------------

  // The world in which a fresh finding is being repaired.
  function UnderRepair(w: World, s: Source, f: FindingId, finding: Finding): World {
    w.(findings := w.findings[f := finding], processed := w.processed + {(s, RepairOf(f))})
  }

  lemma RecordIsRepair(env: Env, w: World, sweep: Sweep, kind: FindingKind, id: Id, version: int, row: Option<Row>,
                       fields: Fields)
    requires sweep.auto && sweep.source in env.connections
    requires FindingId(sweep.id, kind, id) !in w.findings &&
             (sweep.source, RepairOf(FindingId(sweep.id, kind, id))) !in w.processed
    requires Repairable(kind, DeletePolicyFor(env.policies, sweep.source))
    ensures var f, finding := FindingId(sweep.id, kind, id), NewFinding(sweep, kind, id, version, row, fields);
            var o := ApplyRepair(env, UnderRepair(w, sweep.source, f, finding), RepairEvent(sweep, f, finding), f);
            o.result == Done(Applied) ==> RecordFinding(env, w, sweep, kind, id, version, row, fields) == o.w
  {
    var f, finding := FindingId(sweep.id, kind, id), NewFinding(sweep, kind, id, version, row, fields);
    var w1 := InsertFinding(w, f, finding);
    assert w1.(processed := w1.processed + {(sweep.source, RepairOf(f))}) == UnderRepair(w, sweep.source, f, finding);
  }

  // ---- The effect of each repair -------------------------------------------------------------------

  // Everything but provider s, the rows and the finding's status is as it was; the provider holds p.
  ghost predicate Effect(w: World, w': World, s: Source, rows: seq<Row>, p: Provider) {
    && w'.rows == rows && w'.processed == w.processed && w'.findings.Keys == w.findings.Keys
    && ProviderOf(w', s) == p && forall t :: t != s ==> ProviderOf(w', t) == ProviderOf(w, t)
  }

  ghost predicate Repairing(env: Env, w: World, f: FindingId, kind: FindingKind, s: Source) {
    && NoFaults(env) && s in env.connections && f in w.findings
    && w.findings[f].source == s && w.findings[f].kind == kind && w.findings[f].status.Pending?
    && w.findings[f].direction == DirectionFor(kind)
  }

  lemma DeleteEffect(env: Env, w: World, ev: Event, f: FindingId, s: Source)
    requires Repairing(env, w, f, Deleted, s) && w.findings[f].providerId in ProviderOf(w, s).records
    ensures var o, p, id := ApplyRepair(env, w, ev, f), ProviderOf(w, s), w.findings[f].providerId;
            var r := p.records[id];
            && o.result == Done(Applied)
            && Effect(w, o.w, s, w.rows,
                      p.(records := p.records[id := Record(r.version + 1, true, r.data["deleted" := Flag(true)])]))
  {
    var call := Remove(env, w, s, w.findings[f].providerId);
    assert call.reply.Replied?;
    var o := RepairDelete(env, w, ev, f);
    assert forall t :: ProviderOf(o.w, t) == ProviderOf(call.w, t);
  }

  lemma DriftEffect(env: Env, w: World, ev: Event, f: FindingId, s: Source, i: nat)
    requires Repairing(env, w, f, Drift, s) && w.findings[f].providerId in ProviderOf(w, s).records &&
             w.findings[f].providerId != ""
    requires i < |w.rows| && i == ByEntity(w.rows, w.findings[f].canonicalId)
    ensures var o, p, id := ApplyRepair(env, w, ev, f), ProviderOf(w, s), w.findings[f].providerId;
            var r, data := p.records[id], Denormalize(env.connections[s], FromFields(w.rows[i].fields));
            && o.result == Done(Applied)
            && Effect(w, o.w, s, w.rows[i := PushedRow(w.rows[i], s, Replied(id, r.version + 1))],
                      Provider(p.records[id := Record(r.version + 1, r.deleted, r.data + data)], p.created))
  {
    var id := w.findings[f].providerId;
    var data := Denormalize(env.connections[s], FromFields(w.rows[i].fields));
    UpdateOk(env, w, s, id, data);
    PushedEffect(env, w, ev, f, s, i, Update(env, w, s, id, data));
  }

  lemma MissingEffect(env: Env, w: World, ev: Event, f: FindingId, s: Source, i: nat)
    requires Repairing(env, w, f, Missing, s)
    requires i < |w.rows| && i == ByEntity(w.rows, w.findings[f].canonicalId)
    ensures var o, p := ApplyRepair(env, w, ev, f), ProviderOf(w, s);
            var id, data := env.newId(s, p.created + 1), Denormalize(env.connections[s], FromFields(w.rows[i].fields));
            && o.result == Done(Applied)
            && Effect(w, o.w, s, w.rows[i := PushedRow(w.rows[i], s, Replied(id, 1))],
                      Provider(p.records[id := Record(1, false, data)], p.created + 1))
  {
    var data := Denormalize(env.connections[s], FromFields(w.rows[i].fields));
    CreateOk(env, w, s, data);
    PushedEffect(env, w, ev, f, s, i, Create(env, w, s, data));
  }

  // After the provider answered, a push writes the row back in place.
  lemma PushedEffect(env: Env, w: World, ev: Event, f: FindingId, s: Source, i: nat, call: Call)
    requires f in w.findings && w.findings[f].source == s && s in env.connections && w.findings[f].status.Pending?
    requires w.findings[f].direction.PushCanonical?
    requires i < |w.rows| && i == ByEntity(w.rows, w.findings[f].canonicalId)
    requires call == PushCall(env, w, w.findings[f], Denormalize(env.connections[s], FromFields(w.rows[i].fields)))
    requires call.reply.Replied? && call.w == w.(providers := call.w.providers, calls := call.w.calls)
    ensures var w' := ApplyRepair(env, w, ev, f).w;
            && ApplyRepair(env, w, ev, f).result == Done(Applied)
            && w'.rows == w.rows[i := PushedRow(w.rows[i], s, call.reply)] && w'.processed == w.processed
            && w'.findings.Keys == w.findings.Keys && forall t :: ProviderOf(w', t) == ProviderOf(call.w, t)
  {
  }

  // An unknown record becomes a row of its own and is written to every destination.
  lemma AdoptEffect(env: Env, w: World, ev: Event, f: FindingId, s: Source, cust: Customer) returns (q: Row)
    requires Repairing(env, w, f, Missed, s) && GoodIds(env)
    requires Connected(env, TargetsOf(env.policies, s)) && !IsTarget(TargetsOf(env.policies, s), s)
    requires w.findings[f].providerFields == FieldsOf(cust) && w.findings[f].providerId != ""
    requires forall r :: r in w.rows ==>
               !Maps(r, s, w.findings[f].providerId) && r.entityId != w.findings[f].providerId &&
                   !HasEmail(r, cust.email)
    ensures var o, id := ApplyRepair(env, w, ev, f), w.findings[f].providerId;
            && o.result == Done(Applied) && o.w.rows == w.rows + [q] && o.w.processed == w.processed
            && o.w.findings.Keys == w.findings.Keys && ProviderOf(o.w, s) == ProviderOf(w, s)
            && q.entityId == id && q.fields == FieldsOf(cust) && !q.tombstone && Maps(q, s, id)
  {
    var finding, id, targets := w.findings[f], w.findings[f].providerId, TargetsOf(env.policies, s);
    FieldsRoundTrip(cust);
    var row := NewRow(s, id);
    assert ByProvider(w.rows, s, id) == |w.rows| && ByEmail(w.rows, cust.email) == |w.rows|;
    assert AdoptResolve(w, s, id, cust) == Resolved(w, row);
    var write := ev.(source := s, version := finding.providerVersion);
    forall i | 0 <= i < |targets| ensures Reachable(w, row.providerIds, targets[i].destination) {
      assert targets[i].destination != s;
    }
    WriteTargetsWrites(env, w, id, row.providerIds, cust, write, targets, true);
    var pass := WriteTargets(env, w, id, row.providerIds, cust, write, targets, true);
    assert Untouched(ProviderOf(w, s), ProviderOf(pass.w, s), row.providerIds, pass.ids, s);
    q := AdoptedRow(row, pass.ids, cust, finding, ev.at);
    assert ByEntity(w.rows, id) == |w.rows|;
    AdoptIs(env, w, ev, f, row, cust, pass, q);
  }

  lemma AdoptIs(env: Env, w: World, ev: Event, f: FindingId, row: Row, cust: Customer, pass: Pass, q: Row)
    requires f in w.findings && w.findings[f].source in env.connections && w.findings[f].status.Pending? &&
             w.findings[f].direction.AdoptProvider?
    requires var d := w.findings[f];
             && cust == FromFields(d.providerFields) &&
                AdoptResolve(w, d.source, d.providerId, cust) == Resolved(w, row) && row.entityId != ""
             && pass == WriteTargets(env, w, row.entityId, row.providerIds, cust,
                                     ev.(source := d.source, version := d.providerVersion),
                                         TargetsOf(env.policies, d.source), true)
             && q == AdoptedRow(row, pass.ids, cust, d, ev.at)
    requires pass.error.None? && SameTables(w, pass.w)
    ensures var o := ApplyRepair(env, w, ev, f);
            && o.result == Done(Applied) && o.w.rows == Put(w.rows, q) && o.w.processed == w.processed
            && o.w.findings.Keys == w.findings.Keys && o.w.providers == pass.w.providers
  {
  }
}
