/**
 Canonical rows always hold the five text fields of a customer, whatever events are processed.
 */
module RowContent {
  import opened Customers
  import opened Conflict
  import opened Tables
  import opened Apply
  import opened IdentityIndex

  ghost predicate HasFiveFields(r: Row) {
    r.fields == FieldsOf(FromFields(r.fields))
  }

  ghost predicate WellFormed(rows: seq<Row>) {
    forall r :: r in rows ==> HasFiveFields(r)
  }

  lemma CustomerRow(r: Row, c: Customer)
    requires r.fields == FieldsOf(c)
    ensures HasFiveFields(r)
  {
    FieldsRoundTrip(c);
  }

  lemma PutWellFormed(rows: seq<Row>, row: Row)
    requires WellFormed(rows) && HasFiveFields(row)
    ensures WellFormed(Put(rows, row))
  {
  }

  // Linking another provider id keeps the content; a new row has no fields until it is committed.
  lemma IdentifyWellFormed(w: World, s: Source, id: Id, j: nat)
    requires WellFormed(w.rows) && j <= |w.rows|
    ensures WellFormed(Identify(w, s, id, j).w.rows)
  {
    if j < |w.rows| {
      var i := ByEntity(w.rows, w.rows[j].entityId);
      assert w.rows[i] in w.rows;
    }
  }

  lemma CommitWellFormed(env: Env, w: World, row: Row, ev: Event, cust: Customer, prov: FieldProvenance,
                         targets: seq<Policy>)
    requires WellFormed(w.rows)
    ensures WellFormed(WriteAndCommit(env, w, row, ev, cust, prov, targets).w.rows)
  {
    var pass := WriteTargets(env, w, row.entityId, row.providerIds, cust, ev, targets, false);
    assert pass.w.rows == w.rows by {
      WriteTargetsGrows(env, w, row.entityId, row.providerIds, cust, ev, targets, false);
    }
    RecordWritesFrame(pass.w, row.entityId, ev, targets, Fingerprint(cust));
    CustomerRow(CommittedRow(row, pass.ids, cust, prov, ev), cust);
    PutWellFormed(w.rows, CommittedRow(row, pass.ids, cust, prov, ev));
  }

  lemma EditWellFormed(env: Env, w: World, row: Row, ev: Event, cust: Customer, targets: seq<Policy>)
    requires WellFormed(w.rows)
    ensures WellFormed(ApplyEdit(env, w, row, ev, cust, targets).w.rows)
  {
    var m := Merged(StrategyOf(targets), State(row.fields, row.prov), EditOf(ev, cust, targets));
    CommitWellFormed(env, w, row, ev, FromFields(m.fields), m.prov, targets);
  }

  lemma UpsertWellFormed(env: Env, w: World, ev: Event, targets: seq<Policy>)
    requires WellFormed(w.rows) && ev.kind.Upsert?
    ensures WellFormed(ApplyUpsert(env, w, ev, targets).w.rows)
  {
    if ev.fields != map[] && ev.source in env.connections && Validate(env.connections[ev.source], ev.fields) {
      var cust := Normalize(env.connections[ev.source], ev.fields);
      var r := ResolveCanonical(w, ev, cust);
      IdentifyWellFormed(w, ev.source, ev.entityId, if cust.email == "" then |w.rows| else ByEmail(w.rows, cust.email));
      if !(ev.version <= VersionOf(r.row, ev.source)) && !IsEcho(r.w, r.row.entityId, ev.source, cust) {
        assert ApplyUpsert(env, w, ev, targets) == ApplyEdit(env, r.w, r.row, ev, cust, targets);
        EditWellFormed(env, r.w, r.row, ev, cust, targets);
      }
    }
  }

  lemma ResolutionWellFormed(env: Env, w: World, ev: Event, targets: seq<Policy>)
    requires WellFormed(w.rows)
    ensures WellFormed(ApplyResolution(env, w, ev, targets).w.rows)
  {
    var i := ByEntity(w.rows, ev.entityId);
    if i < |w.rows| {
      var row, cust := w.rows[i], FromFields(ev.fields);
      var pass := WriteTargets(env, w, row.entityId, row.providerIds, cust, ev, targets, true);
      assert pass.w.rows == w.rows by {
        WriteTargetsGrows(env, w, row.entityId, row.providerIds, cust, ev, targets, true);
      }
      var q := CommittedRow(row, pass.ids, cust, ResolvedOwners(row.prov, ev), ev);
      CustomerRow(q, cust);
      PutWellFormed(w.rows, q);
    }
  }

  lemma DeleteWellFormed(env: Env, w: World, ev: Event, targets: seq<Policy>)
    requires WellFormed(w.rows)
    ensures WellFormed(ApplyDelete(env, w, ev, targets).w.rows)
  {
    var i := ByProvider(w.rows, ev.source, ev.entityId);
    if i < |w.rows| {
      var row := w.rows[i];
      var pass := DeleteTargets(env, w, row.entityId, row.providerIds, ev, targets);
      assert pass.w.rows == w.rows by { DeleteTargetsGrows(env, w, row.entityId, row.providerIds, ev, targets); }
      assert HasFiveFields(row);
    }
  }

  lemma AdoptWellFormed(env: Env, w: World, ev: Event, f: FindingId)
    requires WellFormed(w.rows) && f in w.findings
    ensures WellFormed(RepairAdopt(env, w, ev, f).w.rows)
  {
    var d, cust, row := w.findings[f], FromFields(w.findings[f].providerFields), RowToAdopt(w, w.findings[f]);
    var r, pass := AdoptResolve(w, d.source, d.providerId, cust), AdoptPass(env, w, ev, d);
    IdentifyWellFormed(w, d.source, d.providerId, ByEmail(w.rows, cust.email));
    WriteTargetsGrows(env, r.w, row.entityId, row.providerIds, cust,
                      ev.(source := d.source, version := d.providerVersion), TargetsOf(env.policies, d.source), true);
    var q := AdoptedRow(row, pass.ids, cust, d, ev.at);
    AdoptLeaves(env, w, ev, f, pass, q);
    CustomerRow(q, cust);
    PutWellFormed(r.w.rows, q);
  }

  lemma PushWellFormed(env: Env, w: World, ev: Event, f: FindingId)
    requires WellFormed(w.rows) && f in w.findings && w.findings[f].source in env.connections
    ensures WellFormed(RepairPush(env, w, ev, f).w.rows)
  {
    var finding := w.findings[f];
    var i := ByEntity(w.rows, finding.canonicalId);
    if i < |w.rows| {
      var row := w.rows[i];
      assert HasFiveFields(row);
      var data := Denormalize(env.connections[finding.source], FromFields(row.fields));
      var call := PushCall(env, w, finding, data);
      assert call.w.rows == w.rows by { PushCallGrows(env, w, finding, data); }
      if call.reply.Replied? {
        assert RepairPush(env, w, ev, f).w.rows == Put(w.rows, PushedRow(row, finding.source, call.reply));
        PutWellFormed(w.rows, PushedRow(row, finding.source, call.reply));
      }
    }
  }

  lemma RepairWellFormed(env: Env, w: World, ev: Event, f: FindingId)
    requires WellFormed(w.rows)
    ensures WellFormed(ApplyRepair(env, w, ev, f).w.rows)
  {
    if f in w.findings && w.findings[f].source in env.connections {
      match w.findings[f].direction {
        case AdoptProvider => AdoptWellFormed(env, w, ev, f);
        case PushCanonical => PushWellFormed(env, w, ev, f);
        case DeleteRecord => RemoveGrows(env, w, w.findings[f].source, w.findings[f].providerId);
        case UnknownDirection =>
      }
    }
  }

  lemma ProcessWellFormed(env: Env, w: World, ev: Event)
    requires WellFormed(w.rows)
    ensures WellFormed(Process(env, w, ev).w.rows)
  {
    var w1, targets := w.(processed := w.processed + {(ev.source, ev.id)}), TargetsOf(env.policies, ev.source);
    match ev.kind {
      case Upsert => UpsertWellFormed(env, w1, ev, targets);
      case Delete => DeleteWellFormed(env, w1, ev, targets);
      case Resolution => ResolutionWellFormed(env, w1, ev, targets);
      case Repair(f) => RepairWellFormed(env, w1, ev, f);
    }
  }

  // Whatever is processed, in whatever order, and whatever fails.
  lemma {:induction false} RowsStayWellFormed(env: Env, w: World, evs: seq<Event>)
    requires WellFormed(w.rows)
    ensures WellFormed(Run(env, w, evs).rows)
    decreases |evs|
  {
    if evs != [] {
      RowsStayWellFormed(env, w, evs[..|evs| - 1]);
      ProcessWellFormed(env, Run(env, w, evs[..|evs| - 1]), evs[|evs| - 1]);
    }
  }
}
