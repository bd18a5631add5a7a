/**
 How a push repair breaks the provider-id index: a provider with two records of one customer. While a
 drift finding about the first record waits, an event of the second relinks the row, an event of the
 first makes a row of its own, and the repair then maps the first record's id a second time.
 */
module PushRepair {
  import opened Customers
  import opened Conflict
  import opened Tables
  import opened Apply
  import opened IdentityIndex
  import opened SourceVersions
  import opened Destinations
  import opened Convergence

  // A pending drift finding asks to push the row, created by another provider, to record x of provider s.
  // Nothing was written to s for an entity named x.
  ghost predicate PushWaits(env: Env, w: World, s: Source, x: Id, row: Row, f: FindingId) {
    && Sound(env, w) && w.rows == [row] && row.entityId != x
    && (x, s) !in w.outbound && x in ProviderOf(w, s).records && x != ""
    && f in w.findings && w.findings[f].source == s && w.findings[f].kind.Drift? && w.findings[f].providerId == x
    && w.findings[f].canonicalId == row.entityId && w.findings[f].direction.PushCanonical? &&
       w.findings[f].status.Pending?
    && NoFaults(env) && s in env.connections && Targets(env, s) != [] && Connected(env, Targets(env, s))
    && !IsTarget(Targets(env, s), s)
  }

  // The row maps the record.
  ghost predicate DriftWaits(env: Env, w: World, s: Source, x: Id, row: Row, f: FindingId) {
    PushWaits(env, w, s, x, row, f) && Maps(row, s, x) && !row.tombstone
  }

  // A record y with the row's email, at a version the row has already seen of s.
  ghost predicate SameEmail(env: Env, w: World, s: Source, x: Id, row: Row, ev: Event)
    requires s in env.connections
  {
    && ev.kind.Upsert? && ev.source == s && ev.entityId !in {x, ""} && ev.entityId in ProviderOf(w, s).records
    && Validate(env.connections[s], ev.fields) && HasEmail(row, CustomerOf(env, ev).email)
    && ev.version <= VersionOf(row, s)
  }

  // Record x with another email.
  ghost predicate OtherEmail(env: Env, s: Source, x: Id, row: Row, ev: Event)
    requires s in env.connections
  {
    && ev.kind.Upsert? && ev.source == s && ev.entityId == x && ev.version > 0
    && Validate(env.connections[s], ev.fields) && !HasEmail(row, CustomerOf(env, ev).email)
  }

  lemma ValidHasEmail(env: Env, ev: Event)
    requires ev.source in env.connections && Validate(env.connections[ev.source], ev.fields)
    ensures CustomerOf(env, ev).email != ""
  {
    assert Present(ev.fields, EmailKey(env.connections[ev.source]));
  }

  // The stale event of y is dropped, and has relinked the row all the same.
  lemma Relinks(env: Env, w: World, s: Source, x: Id, row: Row, f: FindingId, ev: Event)
    requires DriftWaits(env, w, s, x, row, f) && SameEmail(env, w, s, x, row, ev) && (s, ev.id) !in w.processed
    ensures Process(env, w, ev) ==
            Outcome(w.(rows := [Link(row, s, ev.entityId)], processed := w.processed + {(s, ev.id)}), Done(Stale))
  {
    var w1, cust := Claimed(w, ev), CustomerOf(env, ev);
    ValidHasEmail(env, ev);
    assert w1.rows == [row];
    assert ByProvider(w1.rows, s, ev.entityId) == 1 && ByEmail(w1.rows, cust.email) == 0 &&
           ByEntity(w1.rows, row.entityId) == 0;
    assert w1.rows[0 := Link(row, s, ev.entityId)] == [Link(row, s, ev.entityId)];
    var w2 := w1.(rows := [Link(row, s, ev.entityId)]);
    assert ResolveCanonical(w1, ev, cust) == Resolved(w2, Link(row, s, ev.entityId));
    UpsertIsEdit(env, w1, ev, Targets(env, s));
    ProcessIsUpsert(env, w, ev);
  }

  lemma KnownRecord(env: Env, w: World, s: Source, id: Id)
    requires FreshIds(env, w) && id in ProviderOf(w, s).records
    ensures Known(env, w, s, id)
  {
  }

  lemma FindsNoRow(env: Env, w: World, s: Source, x: Id, a: Row, ev: Event)
    requires s in env.connections && w.rows == [a] && !Maps(a, s, x) && OtherEmail(env, s, x, a, ev)
    ensures ResolveCanonical(w, ev, CustomerOf(env, ev)) == Resolved(w, NewRow(s, x))
  {
  }

  // The commit of a new row next to row a.
  lemma SecondRow(env: Env, w: World, w': World, s: Source, x: Id, a: Row, ids: map<Source, Id>, cust: Customer,
                  prov: FieldProvenance, ev: Event, targets: seq<Policy>) returns (b: Row)
    requires w.rows == [a] && a.entityId != x && !IsTarget(targets, s)
    requires Committed(env, w, w', NewRow(s, x), ids, cust, prov, ev, targets)
    ensures w'.rows == [a, b] && b.entityId == x && Maps(b, s, x) && ProviderOf(w', s) == ProviderOf(w, s)
    ensures w'.findings == w.findings && w'.processed == w.processed
  {
    assert Untouched(ProviderOf(w, s), ProviderOf(w', s), NewRow(s, x).providerIds, ids, s);
    b := CommittedRow(NewRow(s, x), ids, cust, prov, ev);
    assert ByEntity([a], x) == 1;
    assert w'.rows == [a] + [b];
  }

  // The event of x finds no row and makes its own.
  lemma MakesRow(env: Env, w: World, s: Source, x: Id, a: Row, f: FindingId, ev: Event) returns (b: Row)
    requires s in env.connections && NoFaults(env) && Targets(env, s) != [] && Connected(env, Targets(env, s))
    requires Sound(env, w) && w.rows == [a] && !Maps(a, s, x) && a.entityId != x && OtherEmail(env, s, x, a, ev)
    requires !IsTarget(Targets(env, s), s) && (x, s) !in w.outbound && (s, ev.id) !in w.processed
    ensures var w' := Process(env, w, ev).w;
            && w'.rows == [a, b] && b.entityId == x && Maps(b, s, x) && w'.findings == w.findings
            && w'.processed == w.processed + {(s, ev.id)} && ProviderOf(w', s) == ProviderOf(w, s)
  {
    var cust, targets, w1, row := CustomerOf(env, ev), Targets(env, s), Claimed(w, ev), NewRow(s, x);
    FindsNoRow(env, w1, s, x, a, ev);
    assert forall i :: 0 <= i < |targets| ==> IsTarget(targets, targets[i].destination);
    var ids := ProcessCommits(env, w, ev, row);
    assert ProviderOf(w1, s) == ProviderOf(w, s);
    b := SecondRow(env, w1, Process(env, w, ev).w, s, x, a, ids, cust, MergedWith(row, ev, cust, targets).prov, ev,
                   targets);
  }

  lemma PushApplies(env: Env, w: World, s: Source, x: Id, a: Row, b: Row, f: FindingId, ev: Event)
    requires w.rows == [a, b] && NoFaults(env) && s in env.connections && x in ProviderOf(w, s).records && x != ""
    requires f in w.findings && w.findings[f].source == s && w.findings[f].kind.Drift? && w.findings[f].providerId == x
    requires w.findings[f].canonicalId == a.entityId
    ensures RepairPush(env, w, ev, f).result == Done(Applied) && InPlace(env, w, w.findings[f])
  {
    assert ByEntity(w.rows, a.entityId) == 0;
    UpdateOk(env, w, s, x, Denormalize(env.connections[s], FromFields(a.fields)));
  }

  // The repair then gives the row its old id back, which by now is another row's.
  lemma PushBreaks(env: Env, w: World, s: Source, x: Id, a: Row, b: Row, f: FindingId, ev: Event)
    requires Sound(env, w) && w.rows == [a, b] && b.entityId == x && Maps(b, s, x) && a.entityId != x && NoFaults(env)
    requires f in w.findings && w.findings[f].source == s && w.findings[f].kind.Drift? && w.findings[f].providerId == x
    requires w.findings[f].canonicalId == a.entityId && w.findings[f].direction.PushCanonical? &&
             w.findings[f].status.Pending?
    requires s in env.connections && x in ProviderOf(w, s).records && x != ""
    requires ev.kind == Repair(f) && ev.source == s && (s, ev.id) !in w.processed
    ensures !Functional(Process(env, w, ev).w.rows)
  {
    var c := Claimed(w, ev);
    GrowsReflexive(env, w, c);
    SameRowsSound(env, w, c);
    assert ProviderOf(c, s) == ProviderOf(w, s);
    PushApplies(env, c, s, x, a, b, f, ev);
    PushKeepsIndexExactly(env, c, ev, f);
    assert b in c.rows && b.entityId != a.entityId;
  }

  // The row no longer maps it.
  ghost predicate Overtaken(env: Env, w: World, s: Source, x: Id, row: Row, f: FindingId) {
    PushWaits(env, w, s, x, row, f) && !Maps(row, s, x)
  }

  lemma Overtakes(env: Env, w: World, s: Source, x: Id, row: Row, f: FindingId, ev: Event)
    requires DriftWaits(env, w, s, x, row, f) && SameEmail(env, w, s, x, row, ev) && (s, ev.id) !in w.processed
    ensures Overtaken(env, Process(env, w, ev).w, s, x, Link(row, s, ev.entityId), f)
  {
    Relinks(env, w, s, x, row, f, ev);
    KnownRecord(env, w, s, ev.entityId);
    ProcessSound(env, w, ev);
    assert ProviderOf(Process(env, w, ev).w, s) == ProviderOf(w, s);
  }

  lemma ThenBreaks(env: Env, w: World, s: Source, x: Id, a: Row, f: FindingId, first: Event, repair: Event)
    requires Overtaken(env, w, s, x, a, f) && OtherEmail(env, s, x, a, first)
    requires repair.kind == Repair(f) && repair.source == s && repair.id != first.id
    requires (s, first.id) !in w.processed && (s, repair.id) !in w.processed
    ensures !Functional(Process(env, Process(env, w, first).w, repair).w.rows)
  {
    KnownRecord(env, w, s, x);
    ProcessSound(env, w, first);
    var b := MakesRow(env, w, s, x, a, f, first);
    PushBreaks(env, Process(env, w, first).w, s, x, a, b, f, repair);
  }

  // From a sound world, three events not processed before end with two rows that map one provider id.
  lemma PushBreaksIndex(env: Env, w: World, s: Source, x: Id, row: Row, f: FindingId, second: Event, first: Event,
                        repair: Event)
    requires DriftWaits(env, w, s, x, row, f) && SameEmail(env, w, s, x, row, second) &&
             OtherEmail(env, s, x, row, first)
    requires repair.kind == Repair(f) && repair.source == s && second.id != first.id &&
             repair.id !in {first.id, second.id}
    requires (s, second.id) !in w.processed && (s, first.id) !in w.processed && (s, repair.id) !in w.processed
    ensures Sound(env, w) && !Functional(Run(env, w, [second, first, repair]).rows)
  {
    Overtakes(env, w, s, x, row, f, second);
    Relinks(env, w, s, x, row, f, second);
    ThenBreaks(env, Process(env, w, second).w, s, x, Link(row, s, second.entityId), f, first, repair);
    ThreeEvents(env, w, second, first, repair);
  }

  lemma ThreeEvents(env: Env, w: World, a: Event, b: Event, c: Event)
    ensures Run(env, w, [a, b, c]) == Process(env, Process(env, Process(env, w, a).w, b).w, c).w
  {
    assert [a, b, c][..2] == [a, b] && [a, b][..1] == [a] && [a][..0] == [];
    assert Run(env, w, [a]) == Process(env, w, a).w;
    assert Run(env, w, [a, b]) == Process(env, Run(env, w, [a]), b).w;
  }
}
