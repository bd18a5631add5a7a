/**
 Loop prevention: one genuine edit causes exactly one write per target, and the events those writes
 provoke, delivered any number of times in any order, change nothing. An event is dropped as an echo
 exactly when it carries the five values last written to its source.
 */
module EchoSuppression {
  import opened Customers
  import opened Fingerprints
  import opened Conflict
  import opened Tables
  import opened Apply
  import opened IdentityIndex
  import opened SourceVersions
  import opened Destinations
  import opened Convergence

  // Nothing but the idempotency claims differs.
  ghost predicate Inert(a: World, b: World) {
    b == a.(processed := b.processed)
  }

  ghost predicate WinsAll(row: Row, ev: Event, cust: Customer, targets: seq<Policy>) {
    var s, e := State(row.fields, row.prov), EditOf(ev, cust, targets);
    && !(StrategyOf(targets).Manual? && AnyConflict(s, e))
    && forall f :: f in FieldsOf(cust) ==> Takes(StrategyOf(targets), s, e, f)
  }

  lemma WinnerIsWritten(row: Row, ev: Event, cust: Customer, targets: seq<Policy>)
    requires WinsAll(row, ev, cust, targets)
    ensures FromFields(MergedWith(row, ev, cust, targets).fields) == cust
  {
    var m := MergedWith(row, ev, cust, targets);
    FieldsRoundTrip(cust);
    assert forall f :: f in FieldsOf(cust) ==> f in m.fields && m.fields[f] == FieldsOf(cust)[f];
    assert FromFields(m.fields) == FromFields(FieldsOf(cust));
  }

  // A settled entity: row i, every record it maps exists.
  ghost predicate SettledRow(env: Env, w: World, i: nat, targets: seq<Policy>) {
    && Sound(env, w) && NoFaults(env) && i < |w.rows| && Connected(env, targets)
    && forall k :: 0 <= k < |targets| ==> Reachable(w, w.rows[i].providerIds, targets[k].destination)
  }

  // A genuine edit by its source: newer, not what was last written there, and winning every field.
  ghost predicate GenuineEdit(env: Env, w: World, i: nat, ev: Event)
    requires i < |w.rows| && ev.source in env.connections
  {
    var row, cust := w.rows[i], CustomerOf(env, ev);
    && ev.kind.Upsert? && Validate(env.connections[ev.source], ev.fields) && (ev.source, ev.id) !in w.processed
    && Maps(row, ev.source, ev.entityId) && ev.entityId != "" && ev.version > VersionOf(row, ev.source)
    && !IsEcho(w, row.entityId, ev.source, cust) && Known(env, w, ev.source, ev.entityId)
    && Targets(env, ev.source) != [] && WinsAll(row, ev, cust, Targets(env, ev.source))
  }

  lemma MappedRowFound(rows: seq<Row>, i: nat, s: Source, id: Id)
    requires Functional(rows) && i < |rows| && Maps(rows[i], s, id)
    ensures ByProvider(rows, s, id) == i
  {
    var k := ByProvider(rows, s, id);
    assert k < |rows|;
    assert s in rows[k].providerIds && s in rows[i].providerIds;
  }

  // The edit writes once to each target and commits.
  lemma EditWritesOncePerTarget(env: Env, w: World, i: nat, ev: Event) returns (ids: map<Source, Id>)
    requires ev.source in env.connections && SettledRow(env, w, i, Targets(env, ev.source)) &&
             GenuineEdit(env, w, i, ev)
    ensures var cust, targets, row := CustomerOf(env, ev), Targets(env, ev.source), w.rows[i];
            && Process(env, w, ev).result == Done(Applied)
            && Committed(env, Claimed(w, ev), Process(env, w, ev).w, row, ids, cust,
                         MergedWith(row, ev, cust, targets).prov, ev, targets)
  {
    var cust, targets, row, w1 := CustomerOf(env, ev), Targets(env, ev.source), w.rows[i], Claimed(w, ev);
    MappedRowFound(w.rows, i, ev.source, ev.entityId);
    assert ResolveCanonical(w1, ev, cust) == Resolved(w1, row);
    assert forall s :: ProviderOf(w1, s) == ProviderOf(w, s);
    WinnerIsWritten(row, ev, cust, targets);
    ids := CommitWrites(env, w1, row, ev, cust, MergedWith(row, ev, cust, targets).prov, targets);
    UpsertIsEdit(env, w1, ev, targets);
    ProcessIsUpsert(env, w, ev);
  }

  // What a provider sends back after our write: the record we wrote, saying what we wrote.
  ghost predicate EchoOf(env: Env, row: Row, cust: Customer, targets: seq<Policy>, ev: Event) {
    && ev.kind.Upsert? && ev.source in env.connections && IsTarget(targets, ev.source)
    && Maps(row, ev.source, ev.entityId) && CustomerOf(env, ev) == cust
  }

  // A world where the entity's row is at i and every target was last written this customer.
  ghost predicate AllWritten(w: World, i: nat, cust: Customer, targets: seq<Policy>) {
    && Functional(w.rows) && i < |w.rows|
    && forall d :: IsTarget(targets, d) ==>
         (w.rows[i].entityId, d) in w.outbound && w.outbound[(w.rows[i].entityId, d)] == Fingerprint(cust)
  }

  lemma EchoIsInert(env: Env, w: World, i: nat, cust: Customer, targets: seq<Policy>, ev: Event)
    requires AllWritten(w, i, cust, targets) && EchoOf(env, w.rows[i], cust, targets, ev)
    ensures Inert(w, Process(env, w, ev).w) && Process(env, w, ev).result != Done(Applied)
  {
    if (ev.source, ev.id) !in w.processed && Targets(env, ev.source) != [] {
      MappedRowFound(w.rows, i, ev.source, ev.entityId);
      if Validate(env.connections[ev.source], ev.fields) {
        UpsertIsEdit(env, Claimed(w, ev), ev, Targets(env, ev.source));
        assert IsEcho(Claimed(w, ev), w.rows[i].entityId, ev.source, cust);
      }
    }
  }

  lemma {:induction false} EchoesAreInert(env: Env, w: World, i: nat, cust: Customer, targets: seq<Policy>,
                                          evs: seq<Event>)
    requires AllWritten(w, i, cust, targets)
    requires forall k :: 0 <= k < |evs| ==> EchoOf(env, w.rows[i], cust, targets, evs[k])
    ensures Inert(w, Run(env, w, evs))
  {
    if evs != [] {
      var front := evs[..|evs| - 1];
      EchoesAreInert(env, w, i, cust, targets, front);
      EchoIsInert(env, Run(env, w, front), i, cust, targets, evs[|evs| - 1]);
    }
  }

  // The loop-prevention law. After one genuine edit, whatever echoes of its writes are delivered, in
  // whatever order and however often, rows, fingerprints, ledger and providers stay as the edit left
  // them.
  lemma EditSettles(env: Env, w: World, i: nat, ev: Event, evs: seq<Event>) returns (ids: map<Source, Id>)
    requires ev.source in env.connections && SettledRow(env, w, i, Targets(env, ev.source)) &&
             GenuineEdit(env, w, i, ev)
    ensures var cust, targets, row := CustomerOf(env, ev), Targets(env, ev.source), w.rows[i];
            var w' := Process(env, w, ev).w;
            && Committed(env, Claimed(w, ev), w', row, ids, cust, MergedWith(row, ev, cust, targets).prov, ev, targets)
            && i < |w'.rows| && w'.rows[i].providerIds == ids
            && ((forall k :: 0 <= k < |evs| ==> EchoOf(env, w'.rows[i], cust, targets, evs[k])) ==>
                Inert(w', Run(env, w', evs)))
  {
    var cust, targets := CustomerOf(env, ev), Targets(env, ev.source);
    ids := EditWritesOncePerTarget(env, w, i, ev);
    var w' := Process(env, w, ev).w;
    ProcessSound(env, w, ev);
    assert ByEntity(w.rows, w.rows[i].entityId) == i;
    if forall k :: 0 <= k < |evs| ==> EchoOf(env, w'.rows[i], cust, targets, evs[k]) {
      EchoesAreInert(env, w', i, cust, targets, evs);
    }
  }

  // The record a target holds after the edit is an echo if the provider reports it.
  lemma WrittenRecordEchoes(env: Env, w: World, w': World, row: Row, ids: map<Source, Id>, cust: Customer,
                            prov: FieldProvenance, ev: Event, targets: seq<Policy>, back: Event, i: nat)
    requires Committed(env, w, w', row, ids, cust, prov, ev, targets) && i < |w'.rows| && w'.rows[i].providerIds == ids
    requires IsTarget(targets, back.source) && back.kind.Upsert? && back.entityId == IdIn(ids, back.source)
    requires back.entityId in ProviderOf(w', back.source).records
    requires back.fields == ProviderOf(w', back.source).records[back.entityId].data
    ensures EchoOf(env, w'.rows[i], cust, targets, back)
  {
    assert Wrote(env, ProviderOf(w, back.source), ProviderOf(w', back.source), row.providerIds, ids, cust, back.source);
  }

  // A newer, valid event of a mapped record is dropped as an echo exactly when its fingerprint is the
  // one last written to its source: when its customer is the one last written, unless that customer
  // shares its fingerprint with another.
  lemma EchoExactly(env: Env, w: World, i: nat, ev: Event, last: Customer)
    requires Functional(w.rows) && i < |w.rows| && ev.source in env.connections && ev.kind.Upsert?
    requires Maps(w.rows[i], ev.source, ev.entityId) && Validate(env.connections[ev.source], ev.fields)
    requires (ev.source, ev.id) !in w.processed && Targets(env, ev.source) != []
    requires ev.version > VersionOf(w.rows[i], ev.source) && (w.rows[i].entityId, ev.source) in w.outbound
    requires w.outbound[(w.rows[i].entityId, ev.source)] == Fingerprint(last)
    ensures Process(env, w, ev).result == Done(Echo) <==> Fingerprint(CustomerOf(env, ev)) == Fingerprint(last)
    ensures !Confusable(last) ==> (Process(env, w, ev).result == Done(Echo) <==> CustomerOf(env, ev) == last)
  {
    var cust := CustomerOf(env, ev);
    EchoByFingerprint(env, w, i, ev);
    if Fingerprint(cust) == Fingerprint(last) && cust != last { SharedTextConfuses(last, cust); }
  }

  lemma EchoByFingerprint(env: Env, w: World, i: nat, ev: Event)
    requires Functional(w.rows) && i < |w.rows| && ev.source in env.connections && ev.kind.Upsert?
    requires Maps(w.rows[i], ev.source, ev.entityId) && Validate(env.connections[ev.source], ev.fields)
    requires (ev.source, ev.id) !in w.processed && Targets(env, ev.source) != []
    requires ev.version > VersionOf(w.rows[i], ev.source)
    ensures Process(env, w, ev).result == Done(Echo) <==>
            IsEcho(w, w.rows[i].entityId, ev.source, CustomerOf(env, ev))
  {
    var cust, w1, targets := CustomerOf(env, ev), Claimed(w, ev), Targets(env, ev.source);
    MappedRowFound(w.rows, i, ev.source, ev.entityId);
    UpsertIsEdit(env, w1, ev, targets);
    EditIsNoEcho(env, w1, w.rows[i], ev, cust, targets);
    ProcessIsUpsert(env, w, ev);
  }

  lemma EditIsNoEcho(env: Env, w: World, row: Row, ev: Event, cust: Customer, targets: seq<Policy>)
    ensures ApplyEdit(env, w, row, ev, cust, targets).result !in {Done(Echo), Done(Stale)}
  {
  }
}
