/**
 Out-of-order convergence: upserts of one provider record, delivered in any order and any number of
 times, leave the canonical row and every destination with the fields of the highest version, and
 create exactly one record at each destination.
 */
module Convergence {
  import opened Customers
  import opened Conflict
  import opened Tables
  import opened Apply
  import opened IdentityIndex
  import opened SourceVersions
  import opened Destinations

  function Targets(env: Env, src: Source): seq<Policy> {
    TargetsOf(env.policies, src)
  }

  // A source with one-way targets, and a record of it the tables do not know.
  ghost predicate Ready(env: Env, w: World, src: Source, id: Id) {
    && NoFaults(env) && GoodIds(env) && FreshIds(env, w) && src in env.connections
    && Targets(env, src) != [] && Connected(env, Targets(env, src)) && !IsTarget(Targets(env, src), src)
    && (forall r :: r in w.rows ==> !Maps(r, src, id) && r.entityId != id)
    && (id, src) !in w.outbound
  }

  // An upsert of that record, whose email is nobody else's.
  ghost predicate About(env: Env, w: World, src: Source, id: Id, ev: Event)
    requires src in env.connections
  {
    && ev.source == src && ev.entityId == id && ev.kind.Upsert? && ev.version > 0
    && Validate(env.connections[src], ev.fields)
    && forall r :: r in w.rows ==> !HasEmail(r, Normalize(env.connections[src], ev.fields).email)
  }

  // Provider d, p at the start and now q, holds the customer under the entity's id there: one record
  // more than at the start, created once.
  ghost predicate Delivered(env: Env, p: Provider, q: Provider, ids: map<Source, Id>, cust: Customer, d: Source) {
    && d in ids && ids[d] != "" && d in env.connections
    && ids[d] !in p.records && q.records.Keys == p.records.Keys + {ids[d]}
    && q.created == p.created + 1
    && Normalize(env.connections[d], q.records[ids[d]].data) == cust
    && forall id :: id in p.records ==> q.records[id] == p.records[id]
  }

  // The row is the entity, with exactly what the event says, owned by the source.
  ghost predicate Says(row: Row, src: Source, id: Id, cust: Customer, version: int) {
    && row.entityId == id && !row.tombstone && row.fields == FieldsOf(cust) && VersionOf(row, src) == version
    && forall f :: f in row.prov ==> row.prov[f].source == src
  }

  lemma CommittedSays(row: Row, ids: map<Source, Id>, ev: Event, cust: Customer, targets: seq<Policy>)
    requires forall f :: f in row.prov ==> row.prov[f].source == ev.source
    ensures Says(CommittedRow(row, ids, cust, MergedWith(row, ev, cust, targets).prov, ev), ev.source, row.entityId,
                 cust, ev.version)
  {
    OwnMerge(row, ev, cust, targets);
  }

  // The row holds exactly what the event says, and so does every destination.
  ghost predicate Converged(env: Env, w0: World, w: World, src: Source, id: Id, ev: Event)
    requires src in env.connections
  {
    var cust := Normalize(env.connections[src], ev.fields);
    && |w.rows| == |w0.rows| + 1 && w.rows[..|w0.rows|] == w0.rows
    && (var row := w.rows[|w0.rows|];
        && Maps(row, src, id) && Says(row, src, id, cust, ev.version)
        && forall d ::
             IsTarget(Targets(env, src), d) ==>
               Delivered(env, ProviderOf(w0, d), ProviderOf(w, d), row.providerIds, cust, d))
    && (forall s :: !IsTarget(Targets(env, src), s) ==> ProviderOf(w, s) == ProviderOf(w0, s))
    && (id, src) !in w.outbound
  }

  // A source that owns every field meets no conflict, and its event replaces the customer.
  lemma OwnMerge(row: Row, ev: Event, cust: Customer, targets: seq<Policy>)
    requires forall f :: f in row.prov ==> row.prov[f].source == ev.source
    ensures !AnyConflict(State(row.fields, row.prov), EditOf(ev, cust, targets))
    ensures var m := MergedWith(row, ev, cust, targets);
            FromFields(m.fields) == cust && forall f :: f in m.prov ==> m.prov[f].source == ev.source
  {
    var m := MergedWith(row, ev, cust, targets);
    FieldsRoundTrip(cust);
    assert forall f :: f in FieldsOf(cust) ==> f in m.fields && m.fields[f] == FieldsOf(cust)[f];
    assert FromFields(m.fields) == FromFields(FieldsOf(cust));
  }

  // A newer event on a row the source owns alone: written everywhere, then committed.
  lemma OwnEdit(env: Env, w: World, row: Row, ev: Event, cust: Customer, targets: seq<Policy>)
    returns (ids: map<Source, Id>)
    requires NoFaults(env) && GoodIds(env) && Connected(env, targets)
    requires forall f :: f in row.prov ==> row.prov[f].source == ev.source
    requires forall i :: 0 <= i < |targets| ==> Reachable(w, row.providerIds, targets[i].destination)
    ensures var o := ApplyEdit(env, w, row, ev, cust, targets);
            && o.result == Done(Applied)
            && Committed(env, w, o.w, row, ids, cust, MergedWith(row, ev, cust, targets).prov, ev, targets)
  {
    OwnMerge(row, ev, cust, targets);
    ids := CommitWrites(env, w, row, ev, cust, MergedWith(row, ev, cust, targets).prov, targets);
  }

  // ---- The three steps of a run -----------------------------------------------------------------

  // The world with the event claimed.
  function Claimed(w: World, ev: Event): World {
    w.(processed := w.processed + {(ev.source, ev.id)})
  }

  lemma ProcessIsUpsert(env: Env, w: World, ev: Event)
    requires ev.source in env.connections && ev.kind.Upsert? && Targets(env, ev.source) != [] &&
             (ev.source, ev.id) !in w.processed
    ensures var o := ApplyUpsert(env, Claimed(w, ev), ev, Targets(env, ev.source));
            o.result.Done? && o.result != Done(NoPolicy) ==> Process(env, w, ev) == o
  {
  }

  lemma UpsertIsEdit(env: Env, w: World, ev: Event, targets: seq<Policy>)
    requires ev.source in env.connections && ev.kind.Upsert? && Validate(env.connections[ev.source], ev.fields)
    ensures var cust := CustomerOf(env, ev);
            var r := ResolveCanonical(w, ev, cust);
            ApplyUpsert(env, w, ev, targets) ==
              if ev.version <= VersionOf(r.row, ev.source) then Outcome(r.w, Done(Stale))
              else if IsEcho(r.w, r.row.entityId, ev.source, cust) then Outcome(r.w, Done(Echo))
              else ApplyEdit(env, r.w, r.row, ev, cust, targets)
  {
    assert ev.fields != map[] by { assert Present(ev.fields, FirstNameKey(env.connections[ev.source])); }
  }

  // A newer event that is no echo, on a row the source owns alone, goes through.
  lemma ProcessCommits(env: Env, w: World, ev: Event, row: Row) returns (ids: map<Source, Id>)
    requires NoFaults(env) && GoodIds(env) && Connected(env, Targets(env, ev.source)) && Targets(env, ev.source) != []
    requires ev.source in env.connections && ev.kind.Upsert? && Validate(env.connections[ev.source], ev.fields)
    requires (ev.source, ev.id) !in w.processed &&
             ResolveCanonical(Claimed(w, ev), ev, CustomerOf(env, ev)) == Resolved(Claimed(w, ev), row)
    requires ev.version > VersionOf(row, ev.source) && (row.entityId, ev.source) !in w.outbound
    requires forall f :: f in row.prov ==> row.prov[f].source == ev.source
    requires forall i :: 0 <= i < |Targets(env, ev.source)| ==>
               Reachable(w, row.providerIds, Targets(env, ev.source)[i].destination)
    ensures var cust, targets := CustomerOf(env, ev), Targets(env, ev.source);
            && Process(env, w, ev).result == Done(Applied)
            && Committed(env, Claimed(w, ev), Process(env, w, ev).w, row, ids, cust,
                         MergedWith(row, ev, cust, targets).prov, ev, targets)
  {
    var targets, w1 := Targets(env, ev.source), Claimed(w, ev);
    assert forall s :: ProviderOf(w1, s) == ProviderOf(w, s);
    ids := OwnEdit(env, w1, row, ev, CustomerOf(env, ev), targets);
    UpsertIsEdit(env, w1, ev, targets);
    ProcessIsUpsert(env, w, ev);
  }

  lemma DeliveredFirst(env: Env, p: Provider, q: Provider, ids: map<Source, Id>, ids': map<Source, Id>, cust: Customer,
                       d: Source)
    requires Wrote(env, p, q, ids, ids', cust, d) && IdIn(ids, d) == "" && env.newId(d, p.created + 1) !in p.records
    ensures Delivered(env, p, q, ids', cust, d)
  {
  }

  lemma DeliveredAgain(env: Env, p0: Provider, p: Provider, q: Provider, ids: map<Source, Id>, ids': map<Source, Id>,
                       before: Customer, cust: Customer, d: Source)
    requires Delivered(env, p0, p, ids, before, d) && Wrote(env, p, q, ids, ids', cust, d)
    ensures Delivered(env, p0, q, ids', cust, d)
  {
  }

  // The first event: a new row, and one new record at each destination.
  lemma FirstEvent(env: Env, w0: World, src: Source, id: Id, ev: Event)
    requires Ready(env, w0, src, id) && About(env, w0, src, id, ev) && (src, ev.id) !in w0.processed
    ensures var w := Process(env, w0, ev).w;
            Converged(env, w0, w, src, id, ev) && w.processed == w0.processed + {(src, ev.id)}
  {
    var cust, targets, w1 := CustomerOf(env, ev), Targets(env, src), Claimed(w0, ev);
    var row := NewRow(src, id);
    assert ResolveCanonical(w1, ev, cust) == Resolved(w1, row);
    assert forall i :: 0 <= i < |targets| ==> IsTarget(targets, targets[i].destination);
    var ids := ProcessCommits(env, w0, ev, row);
    FirstCommitted(env, w0, Process(env, w0, ev).w, src, id, ev, ids);
  }

  lemma FirstCommitted(env: Env, w0: World, w: World, src: Source, id: Id, ev: Event, ids: map<Source, Id>)
    requires Ready(env, w0, src, id) && About(env, w0, src, id, ev)
    requires var cust, targets, row := CustomerOf(env, ev), Targets(env, src), NewRow(src, id);
             Committed(env, Claimed(w0, ev), w, row, ids, cust, MergedWith(row, ev, cust, targets).prov, ev, targets)
    ensures Converged(env, w0, w, src, id, ev) && w.processed == w0.processed + {(src, ev.id)}
  {
    var cust, targets, row := CustomerOf(env, ev), Targets(env, src), NewRow(src, id);
    assert forall s :: ProviderOf(Claimed(w0, ev), s) == ProviderOf(w0, s);
    CommittedSays(row, ids, ev, cust, targets);
    var row' := CommittedRow(row, ids, cust, MergedWith(row, ev, cust, targets).prov, ev);
    assert ByEntity(w0.rows, id) == |w0.rows|;
    assert w.rows == w0.rows + [row'];
    ConvergedFirst(env, w0, w, src, id, ev, ids, row');
  }

  lemma ConvergedFirst(env: Env, w0: World, w: World, src: Source, id: Id, ev: Event, ids: map<Source, Id>, row: Row)
    requires Ready(env, w0, src, id) && w.rows == w0.rows + [row]
    requires var cust, targets := Normalize(env.connections[src], ev.fields), Targets(env, src);
             && (forall d ::
                   IsTarget(targets, d) ==>
                     Wrote(env, ProviderOf(w0, d), ProviderOf(w, d), map[src := id], ids, cust, d))
             && (forall s ::
                   !IsTarget(targets, s) ==> Untouched(ProviderOf(w0, s), ProviderOf(w, s), map[src := id], ids, s))
             && row.providerIds == ids && Says(row, src, id, cust, ev.version)
    requires (id, src) !in w.outbound
    ensures Converged(env, w0, w, src, id, ev)
  {
    var cust, targets := Normalize(env.connections[src], ev.fields), Targets(env, src);
    forall d | IsTarget(targets, d) ensures Delivered(env, ProviderOf(w0, d), ProviderOf(w, d), ids, cust, d) {
      DeliveredFirst(env, ProviderOf(w0, d), ProviderOf(w, d), map[src := id], ids, cust, d);
    }
    assert Untouched(ProviderOf(w0, src), ProviderOf(w, src), map[src := id], ids, src);
  }

  lemma FindsRow(env: Env, w0: World, w: World, src: Source, id: Id, ev: Event)
    requires Ready(env, w0, src, id) && Converged(env, w0, w, src, id, ev)
    ensures ByProvider(w.rows, src, id) == |w0.rows| == ByEntity(w.rows, id)
  {
    var n := |w0.rows|;
    assert forall j :: 0 <= j < n ==> w.rows[j] == w0.rows[j] && w0.rows[j] in w0.rows;
  }

  // A later event that is not newer changes nothing but its claim.
  lemma StaleEvent(env: Env, w0: World, w: World, src: Source, id: Id, last: Event, ev: Event)
    requires Ready(env, w0, src, id) && About(env, w0, src, id, ev) && Converged(env, w0, w, src, id, last)
    requires ev.version <= last.version && (src, ev.id) !in w.processed
    ensures Process(env, w, ev).w == Claimed(w, ev)
  {
    FindsRow(env, w0, w, src, id, last);
    UpsertIsEdit(env, Claimed(w, ev), ev, Targets(env, src));
    ProcessIsUpsert(env, w, ev);
  }

  // A newer event replaces the fields of the row and of every record it delivered before.
  lemma NewerEvent(env: Env, w0: World, w: World, src: Source, id: Id, last: Event, ev: Event)
    requires Ready(env, w0, src, id) && About(env, w0, src, id, ev) && Converged(env, w0, w, src, id, last)
    requires ev.version > last.version && (src, ev.id) !in w.processed
    ensures var w' := Process(env, w, ev).w;
            Converged(env, w0, w', src, id, ev) && w'.processed == w.processed + {(src, ev.id)}
  {
    var cust, targets, w1, n := CustomerOf(env, ev), Targets(env, src), Claimed(w, ev), |w0.rows|;
    FindsRow(env, w0, w, src, id, last);
    var row := w.rows[n];
    forall i | 0 <= i < |targets| ensures Reachable(w, row.providerIds, targets[i].destination) {
      assert IsTarget(targets, targets[i].destination);
    }
    var ids := ProcessCommits(env, w, ev, row);
    ClaimKeepsConverged(env, w0, w, src, id, last, ev);
    NewerCommitted(env, w0, w1, Process(env, w, ev).w, src, id, last, ev, ids);
  }

  lemma ClaimKeepsConverged(env: Env, w0: World, w: World, src: Source, id: Id, last: Event, ev: Event)
    requires src in env.connections && Converged(env, w0, w, src, id, last)
    ensures Converged(env, w0, Claimed(w, ev), src, id, last)
  {
    assert forall s :: ProviderOf(Claimed(w, ev), s) == ProviderOf(w, s);
  }

  lemma NewerCommitted(env: Env, w0: World, w: World, w': World, src: Source, id: Id, last: Event, ev: Event,
                       ids: map<Source, Id>)
    requires Ready(env, w0, src, id) && About(env, w0, src, id, ev) && Converged(env, w0, w, src, id, last)
    requires ByEntity(w.rows, id) == |w0.rows|
    requires var cust, targets, row := CustomerOf(env, ev), Targets(env, src), w.rows[|w0.rows|];
             Committed(env, w, w', row, ids, cust, MergedWith(row, ev, cust, targets).prov, ev, targets)
    ensures Converged(env, w0, w', src, id, ev) && w'.processed == w.processed
  {
    var cust, targets, row := CustomerOf(env, ev), Targets(env, src), w.rows[|w0.rows|];
    CommittedSays(row, ids, ev, cust, targets);
    var row' := CommittedRow(row, ids, cust, MergedWith(row, ev, cust, targets).prov, ev);
    assert w'.rows == w.rows[|w0.rows| := row'];
    ConvergedAgain(env, w0, w, w', src, id, last, ev, ids, row');
  }

  lemma ConvergedAgain(env: Env, w0: World, w: World, w': World, src: Source, id: Id, last: Event, ev: Event,
                       ids: map<Source, Id>, row: Row)
    requires Ready(env, w0, src, id) && Converged(env, w0, w, src, id, last) && w'.rows == w.rows[|w0.rows| := row]
    requires var cust, targets, had := Normalize(env.connections[src], ev.fields), Targets(env, src),
             w.rows[|w0.rows|].providerIds;
             && (forall d ::
                   IsTarget(targets, d) ==> Wrote(env, ProviderOf(w, d), ProviderOf(w', d), had, ids, cust, d))
             && (forall s :: !IsTarget(targets, s) ==> Untouched(ProviderOf(w, s), ProviderOf(w', s), had, ids, s))
             && row.providerIds == ids && Says(row, src, id, cust, ev.version)
    requires (id, src) !in w'.outbound
    ensures Converged(env, w0, w', src, id, ev)
  {
    var cust, targets, ids0 := Normalize(env.connections[src], ev.fields), Targets(env, src),
                               w.rows[|w0.rows|].providerIds;
    var before := Normalize(env.connections[src], last.fields);
    forall d | IsTarget(targets, d) ensures Delivered(env, ProviderOf(w0, d), ProviderOf(w', d), ids, cust, d) {
      DeliveredAgain(env, ProviderOf(w0, d), ProviderOf(w, d), ProviderOf(w', d), ids0, ids, before, cust, d);
    }
    assert Untouched(ProviderOf(w, src), ProviderOf(w', src), ids0, ids, src);
    assert forall s :: !IsTarget(targets, s) ==> Untouched(ProviderOf(w, s), ProviderOf(w', s), ids0, ids, s);
  }

  // ---- Runs -------------------------------------------------------------------------------------

  // Deliveries of the record: the same version or the same event id means the same event.
  ghost predicate Deliveries(env: Env, w0: World, src: Source, id: Id, evs: seq<Event>)
    requires src in env.connections
  {
    && (forall k :: 0 <= k < |evs| ==> About(env, w0, src, id, evs[k]) && (src, evs[k].id) !in w0.processed)
    && (forall j, k ::
          0 <= j < k < |evs| && (evs[j].version == evs[k].version || evs[j].id == evs[k].id) ==> evs[j] == evs[k])
  }

  ghost predicate IsNewest(evs: seq<Event>, k: nat) {
    k < |evs| && forall j :: 0 <= j < |evs| ==> evs[j].version <= evs[k].version
  }

  // The claims a run leaves.
  ghost predicate ClaimedExactly(w0: World, w: World, src: Source, evs: seq<Event>) {
    forall key :: key in w.processed <==> key in w0.processed || exists k :: 0 <= k < |evs| && key == (src, evs[k].id)
  }

  // One more delivery: the newer of the two events is what everything holds afterwards.
  lemma OneMoreDelivery(env: Env, w0: World, w: World, src: Source, id: Id, last: Event, ev: Event)
    requires Ready(env, w0, src, id) && About(env, w0, src, id, ev) && Converged(env, w0, w, src, id, last)
    requires (src, ev.id) in w.processed ==> ev.version <= last.version
    ensures var w' := Process(env, w, ev).w;
            Converged(env, w0, w', src, id, if ev.version <= last.version then last else ev) &&
                w'.processed == w.processed + {(src, ev.id)}
  {
    if (src, ev.id) in w.processed {
      assert w.processed + {(src, ev.id)} == w.processed;
    } else if ev.version <= last.version {
      StaleEvent(env, w0, w, src, id, last, ev);
      assert forall s :: ProviderOf(Claimed(w, ev), s) == ProviderOf(w, s);
    } else {
      NewerEvent(env, w0, w, src, id, last, ev);
    }
  }

  lemma DeliveriesPrefix(env: Env, w0: World, src: Source, id: Id, evs: seq<Event>)
    requires src in env.connections && Deliveries(env, w0, src, id, evs) && evs != []
    ensures Deliveries(env, w0, src, id, evs[..|evs| - 1])
  {
    assert forall j :: 0 <= j < |evs| - 1 ==> evs[..|evs| - 1][j] == evs[j];
  }

  lemma ClaimOneMore(w0: World, w: World, w': World, src: Source, evs: seq<Event>)
    requires evs != [] && ClaimedExactly(w0, w, src, evs[..|evs| - 1]) &&
             w'.processed == w.processed + {(src, evs[|evs| - 1].id)}
    ensures ClaimedExactly(w0, w', src, evs)
  {
    var front := evs[..|evs| - 1];
    forall key ensures key in w'.processed <==>
        key in w0.processed || exists k :: 0 <= k < |evs| && key == (src, evs[k].id)
    {
      if k :| 0 <= k < |front| && key == (src, front[k].id) { assert evs[k] == front[k]; }
      if k :| 0 <= k < |evs| && key == (src, evs[k].id) { assert k < |front| ==> front[k] == evs[k]; }
    }
  }

  // Every order of delivery, with any repetition, ends with the newest version everywhere.
  lemma {:induction false} OutOfOrderConverges(env: Env, w0: World, src: Source, id: Id, evs: seq<Event>)
    returns (k: nat)
    requires Ready(env, w0, src, id) && Deliveries(env, w0, src, id, evs) && evs != []
    ensures IsNewest(evs, k) && Converged(env, w0, Run(env, w0, evs), src, id, evs[k])
    ensures ClaimedExactly(w0, Run(env, w0, evs), src, evs)
  {
    if |evs| == 1 {
      k := 0;
      DeliverFirst(env, w0, src, id, evs);
      assert evs[..0] == [] && Run(env, w0, []) == w0;
    } else {
      DeliveriesPrefix(env, w0, src, id, evs);
      k := OutOfOrderConverges(env, w0, src, id, evs[..|evs| - 1]);
      k := DeliverLast(env, w0, Run(env, w0, evs[..|evs| - 1]), src, id, evs, k);
    }
  }

  lemma DeliverFirst(env: Env, w0: World, src: Source, id: Id, evs: seq<Event>)
    requires Ready(env, w0, src, id) && Deliveries(env, w0, src, id, evs) && |evs| == 1
    ensures var w := Process(env, w0, evs[0]).w;
            Converged(env, w0, w, src, id, evs[0]) && ClaimedExactly(w0, w, src, evs)
  {
    FirstEvent(env, w0, src, id, evs[0]);
    assert evs[..0] == [];
    ClaimOneMore(w0, w0, Process(env, w0, evs[0]).w, src, evs);
  }

  lemma DeliverLast(env: Env, w0: World, w: World, src: Source, id: Id, evs: seq<Event>, k: nat) returns (m: nat)
    requires Ready(env, w0, src, id) && Deliveries(env, w0, src, id, evs) && |evs| > 1
    requires IsNewest(evs[..|evs| - 1], k) && Converged(env, w0, w, src, id, evs[k]) &&
             ClaimedExactly(w0, w, src, evs[..|evs| - 1])
    ensures IsNewest(evs, m)
    ensures var w' := Process(env, w, evs[|evs| - 1]).w;
            Converged(env, w0, w', src, id, evs[m]) && ClaimedExactly(w0, w', src, evs)
  {
    var ev := evs[|evs| - 1];
    SeenIsNotNewer(w0, w, src, evs, k);
    OneMoreDelivery(env, w0, w, src, id, evs[k], ev);
    ClaimOneMore(w0, w, Process(env, w, ev).w, src, evs);
    m := if ev.version <= evs[k].version then k else |evs| - 1;
  }

  // An event whose claim is taken was delivered before, so it is not newer than the newest.
  lemma SeenIsNotNewer(w0: World, w: World, src: Source, evs: seq<Event>, k: nat)
    requires evs != [] && ClaimedExactly(w0, w, src, evs[..|evs| - 1]) && IsNewest(evs[..|evs| - 1], k)
    requires (src, evs[|evs| - 1].id) !in w0.processed
    requires forall i, j :: 0 <= i < j < |evs| && evs[i].id == evs[j].id ==> evs[i] == evs[j]
    ensures (src, evs[|evs| - 1].id) in w.processed ==> evs[|evs| - 1].version <= evs[k].version
    ensures IsNewest(evs, if evs[|evs| - 1].version <= evs[k].version then k else |evs| - 1)
  {
    var n, front := |evs| - 1, evs[..|evs| - 1];
    assert forall j :: 0 <= j < n ==> front[j] == evs[j];
    if (src, evs[n].id) in w.processed {
      var j :| 0 <= j < |front| && (src, evs[n].id) == (src, front[j].id);
      assert evs[j] == evs[n];
    }
  }

  // Two orders of the same deliveries agree on the row's fields and on every destination.
  lemma DeliveryOrderIrrelevant(env: Env, w0: World, src: Source, id: Id, es: seq<Event>, ds: seq<Event>)
    returns (ev: Event)
    requires Ready(env, w0, src, id) && Deliveries(env, w0, src, id, es) && Deliveries(env, w0, src, id, ds)
    requires es != [] && ds != [] && (forall e :: e in es <==> e in ds)
    ensures ev in es && Converged(env, w0, Run(env, w0, es), src, id, ev) &&
            Converged(env, w0, Run(env, w0, ds), src, id, ev)
  {
    var k := OutOfOrderConverges(env, w0, src, id, es);
    var m := OutOfOrderConverges(env, w0, src, id, ds);
    NewestAgree(es, ds, k, m);
    ev := es[k];
  }

  lemma NewestAgree(es: seq<Event>, ds: seq<Event>, k: nat, m: nat)
    requires IsNewest(es, k) && IsNewest(ds, m) && (forall e :: e in es <==> e in ds)
    requires forall i, j :: 0 <= i < j < |ds| && ds[i].version == ds[j].version ==> ds[i] == ds[j]
    ensures es[k] == ds[m]
  {
    assert es[k] in ds && ds[m] in es;
    var i :| 0 <= i < |ds| && ds[i] == es[k];
    var j :| 0 <= j < |es| && es[j] == ds[m];
    assert ds[i].version == ds[m].version;
  }
}
