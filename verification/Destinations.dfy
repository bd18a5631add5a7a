/**
 What a pass over the destinations leaves behind when no provider call fails: each destination holds
 the customer under the entity's id there, created once if it was missing, and nothing else changed.
 */
module Destinations {
  import opened Customers
  import opened Conflict
  import opened Tables
  import opened Apply
  import opened IdentityIndex

  ghost predicate NoFaults(env: Env) {
    forall n :: env.faults(n).NoFault?
  }

  ghost predicate Connected(env: Env, targets: seq<Policy>) {
    && (forall i :: 0 <= i < |targets| ==> targets[i].destination in env.connections)
    && (forall i, j :: 0 <= i < j < |targets| ==> targets[i].destination != targets[j].destination)
  }

  ghost predicate IsTarget(targets: seq<Policy>, d: Source) {
    exists i :: 0 <= i < |targets| && targets[i].destination == d
  }

  // The entity has no id at d yet, or its record there exists.
  ghost predicate Reachable(w: World, ids: map<Source, Id>, d: Source) {
    IdIn(ids, d) == "" || IdIn(ids, d) in ProviderOf(w, d).records
  }

  // From p to q the customer was written to provider d under the entity's id there, and nothing
  // else changed.
  ghost predicate Wrote(env: Env, p: Provider, q: Provider, ids: map<Source, Id>, ids': map<Source, Id>, cust: Customer,
                        d: Source)
  {
    && d in ids' && ids'[d] != "" && d in env.connections
    && ids'[d] in q.records
    && Normalize(env.connections[d], q.records[ids'[d]].data) == cust
    && q.records.Keys == p.records.Keys + {ids'[d]}
    && (forall id :: id in p.records && id != ids'[d] ==> q.records[id] == p.records[id])
    && (if IdIn(ids, d) == "" then ids'[d] == env.newId(d, p.created + 1) && q.created == p.created + 1
        else ids'[d] == ids[d] && q.created == p.created)
  }

  ghost predicate Untouched(p: Provider, q: Provider, ids: map<Source, Id>, ids': map<Source, Id>, s: Source) {
    p == q && (s in ids' <==> s in ids) && (s in ids ==> ids'[s] == ids[s])
  }

  lemma CreateOk(env: Env, w: World, s: Source, data: Fields)
    requires env.faults(w.calls).NoFault?
    ensures var c, p := Create(env, w, s, data), ProviderOf(w, s);
            var id := env.newId(s, p.created + 1);
            && c.reply == Replied(id, 1) && c.w == w.(providers := c.w.providers, calls := w.calls + 1)
            && ProviderOf(c.w, s) == Provider(p.records[id := Record(1, false, data)], p.created + 1)
            && forall t :: t != s ==> ProviderOf(c.w, t) == ProviderOf(w, t)
  {
  }

  lemma UpdateOk(env: Env, w: World, s: Source, id: Id, data: Fields)
    requires env.faults(w.calls).NoFault? && id in ProviderOf(w, s).records
    ensures var c, p := Update(env, w, s, id, data), ProviderOf(w, s);
            var r := p.records[id];
            && c.reply == Replied(id, r.version + 1) && c.w == w.(providers := c.w.providers, calls := w.calls + 1)
            && ProviderOf(c.w, s) == Provider(p.records[id := Record(r.version + 1, r.deleted, r.data + data)],
                                              p.created)
            && forall t :: t != s ==> ProviderOf(c.w, t) == ProviderOf(w, t)
  {
  }

  lemma CreatedRecord(env: Env, p: Provider, q: Provider, ids: map<Source, Id>, cust: Customer, d: Source, id: Id,
                      data: Fields)
    requires GoodIds(env) && d in env.connections && IdIn(ids, d) == "" && id == env.newId(d, p.created + 1)
    requires Normalize(env.connections[d], data) == cust
    requires q == Provider(p.records[id := Record(1, false, data)], p.created + 1)
    ensures Wrote(env, p, q, ids, ids[d := id], cust, d)
  {
  }

  lemma WriteOneCreates(env: Env, w: World, entity: Id, ids: map<Source, Id>, cust: Customer, ev: Event, d: Source,
                        eager: bool)
    requires NoFaults(env) && GoodIds(env) && d in env.connections && IdIn(ids, d) == ""
    ensures OneWritten(env, w, entity, ids, cust, ev, d, eager)
  {
    var data := Denormalize(env.connections[d], cust);
    CreateOk(env, w, d, data);
    AdapterInverse(env.connections[d], cust);
    var p, call, id := WriteOne(env, w, entity, ids, cust, ev, d, eager), Create(env, w, d, data),
                       env.newId(d, ProviderOf(w, d).created + 1);
    assert p.error.None? && p.w == if eager then RecordWrite(call.w, entity, ev, d, Fingerprint(cust)) else call.w;
    assert p.ids == ids[d := id];
    assert forall s :: ProviderOf(p.w, s) == ProviderOf(call.w, s);
    CreatedRecord(env, ProviderOf(w, d), ProviderOf(p.w, d), ids, cust, d, id, data);
  }

  lemma WriteOneUpdates(env: Env, w: World, entity: Id, ids: map<Source, Id>, cust: Customer, ev: Event, d: Source,
                        eager: bool)
    requires NoFaults(env) && d in env.connections && IdIn(ids, d) != "" && IdIn(ids, d) in ProviderOf(w, d).records
    ensures OneWritten(env, w, entity, ids, cust, ev, d, eager)
  {
    var data := Denormalize(env.connections[d], cust);
    UpdateOk(env, w, d, IdIn(ids, d), data);
    AdapterRoundTrip(env.connections[d], cust, ProviderOf(w, d).records[IdIn(ids, d)].data);
    var p := WriteOne(env, w, entity, ids, cust, ev, d, eager);
    assert p.ids == ids;
    assert forall s :: ProviderOf(p.w, s) == ProviderOf(Update(env, w, d, IdIn(ids, d), data).w, s);
  }

  ghost predicate OneWritten(env: Env, w: World, entity: Id, ids: map<Source, Id>, cust: Customer, ev: Event, d: Source,
                             eager: bool)
  {
    var p := WriteOne(env, w, entity, ids, cust, ev, d, eager);
    && p.error.None? && Wrote(env, ProviderOf(w, d), ProviderOf(p.w, d), ids, p.ids, cust, d) && SameTables(w, p.w)
    && (forall s :: s != d ==> Untouched(ProviderOf(w, s), ProviderOf(p.w, s), ids, p.ids, s))
    && p.w.calls == w.calls + 1 && (!eager ==> p.w.outbound == w.outbound && p.w.ledger == w.ledger)
  }

  lemma {:induction false} WriteTargetsWrites(env: Env, w: World, entity: Id, ids: map<Source, Id>, cust: Customer,
                                              ev: Event, targets: seq<Policy>, eager: bool)
    requires NoFaults(env) && GoodIds(env) && Connected(env, targets)
    requires forall i :: 0 <= i < |targets| ==> Reachable(w, ids, targets[i].destination)
    ensures var p := WriteTargets(env, w, entity, ids, cust, ev, targets, eager);
            && p.error.None? && SameTables(w, p.w) && p.w.calls == w.calls + |targets|
            && (forall d ::
                  IsTarget(targets, d) ==> Wrote(env, ProviderOf(w, d), ProviderOf(p.w, d), ids, p.ids, cust, d))
            && (forall s :: !IsTarget(targets, s) ==> Untouched(ProviderOf(w, s), ProviderOf(p.w, s), ids, p.ids, s))
            && (!eager ==> p.w.outbound == w.outbound && p.w.ledger == w.ledger)
    decreases |targets|
  {
    if targets != [] {
      var d, rest := targets[0].destination, targets[1..];
      if IdIn(ids, d) == "" { WriteOneCreates(env, w, entity, ids, cust, ev, d, eager); }
      else { WriteOneUpdates(env, w, entity, ids, cust, ev, d, eager); }
      var one := WriteOne(env, w, entity, ids, cust, ev, d, eager);
      TailReady(env, w, one.w, ids, one.ids, targets);
      WriteTargetsWrites(env, one.w, entity, one.ids, cust, ev, rest, eager);
      var p := WriteTargets(env, w, entity, ids, cust, ev, targets, eager);
      assert p == WriteTargets(env, one.w, entity, one.ids, cust, ev, rest, eager);
      forall s ensures IsTarget(targets, s) ==> Wrote(env, ProviderOf(w, s), ProviderOf(p.w, s), ids, p.ids, cust, s)
               ensures !IsTarget(targets, s) ==> Untouched(ProviderOf(w, s), ProviderOf(p.w, s), ids, p.ids, s)
      {
        TargetCons(targets, s);
        if s != d { assert Untouched(ProviderOf(w, s), ProviderOf(one.w, s), ids, one.ids, s); }
      }
    }
  }

  lemma TailReady(env: Env, w: World, w': World, ids: map<Source, Id>, ids': map<Source, Id>, targets: seq<Policy>)
    requires targets != [] && Connected(env, targets)
    requires forall i :: 0 <= i < |targets| ==> Reachable(w, ids, targets[i].destination)
    requires forall s :: s != targets[0].destination ==> Untouched(ProviderOf(w, s), ProviderOf(w', s), ids, ids', s)
    ensures Connected(env, targets[1..]) && !IsTarget(targets[1..], targets[0].destination)
    ensures forall i :: 0 <= i < |targets[1..]| ==> Reachable(w', ids', targets[1..][i].destination)
  {
    var d, rest := targets[0].destination, targets[1..];
    assert forall i :: 0 <= i < |rest| ==> rest[i] == targets[i + 1];
    forall i | 0 <= i < |rest| ensures Reachable(w', ids', rest[i].destination) {
      assert Untouched(ProviderOf(w, rest[i].destination), ProviderOf(w', rest[i].destination), ids, ids',
                       rest[i].destination);
      assert Reachable(w, ids, targets[i + 1].destination);
    }
  }

  lemma TargetCons(targets: seq<Policy>, s: Source)
    requires targets != []
    ensures IsTarget(targets, s) <==> s == targets[0].destination || IsTarget(targets[1..], s)
  {
    if IsTarget(targets, s) {
      var i :| 0 <= i < |targets| && targets[i].destination == s;
      if i > 0 { assert targets[1..][i - 1].destination == s; }
    }
    if IsTarget(targets[1..], s) {
      var i :| 0 <= i < |targets[1..]| && targets[1..][i].destination == s;
      assert targets[i + 1].destination == s;
    }
  }

  // Recording the writes sets the entity's fingerprint at each target and appends one ledger row per
  // target.
  lemma {:induction false} RecordedWrites(w: World, entity: Id, ev: Event, targets: seq<Policy>, fp: string)
    ensures var w' := RecordWrites(w, entity, ev, targets, fp);
            && w' == w.(outbound := w'.outbound, ledger := w'.ledger)
            && (forall d :: IsTarget(targets, d) ==> (entity, d) in w'.outbound && w'.outbound[(entity, d)] == fp)
            && (forall key: (Id, Source) :: key.0 != entity || !IsTarget(targets, key.1) ==>
                  (key in w'.outbound <==> key in w.outbound) &&
                      (key in w.outbound ==> w'.outbound[key] == w.outbound[key]))
            && w'.ledger == w.ledger + OpsOf(entity, ev, targets, fp)
    decreases |targets|
  {
    if targets != [] {
      var d, rest := targets[0].destination, targets[1..];
      var one := RecordWrite(w, entity, ev, d, fp);
      RecordedWrites(one, entity, ev, rest, fp);
      var w' := RecordWrites(one, entity, ev, rest, fp);
      var op := Operation(entity, ev.source, d, ev.id, ev.version, fp);
      assert OpsOf(entity, ev, targets, fp) == [op] + OpsOf(entity, ev, rest, fp);
      assert w.ledger + [op] + OpsOf(entity, ev, rest, fp) == w.ledger + ([op] + OpsOf(entity, ev, rest, fp));
      forall s ensures IsTarget(targets, s) ==> (entity, s) in w'.outbound && w'.outbound[(entity, s)] == fp {
        TargetCons(targets, s);
        if IsTarget(targets, s) && !IsTarget(rest, s) {
          assert (entity, s).1 == s;
          assert one.outbound[(entity, s)] == fp;
        }
      }
      forall key: (Id, Source) | key.0 != entity || !IsTarget(targets, key.1)
        ensures (key in w'.outbound <==> key in w.outbound) &&
                (key in w.outbound ==> w'.outbound[key] == w.outbound[key])
      {
        TargetCons(targets, key.1);
        assert key != (entity, d);
      }
    }
  }

  // The whole effect of a commit: the row, one write, one fingerprint and one ledger row per target,
  // and nothing else.
  ghost predicate Committed(env: Env, w: World, w': World, row: Row, ids: map<Source, Id>, cust: Customer,
                            prov: FieldProvenance, ev: Event, targets: seq<Policy>) {
    && w'.rows == Put(w.rows, CommittedRow(row, ids, cust, prov, ev))
    && w'.processed == w.processed && w'.findings == w.findings
    && (forall d ::
          IsTarget(targets, d) ==> Wrote(env, ProviderOf(w, d), ProviderOf(w', d), row.providerIds, ids, cust, d))
    && (forall s :: !IsTarget(targets, s) ==> Untouched(ProviderOf(w, s), ProviderOf(w', s), row.providerIds, ids, s))
    && (forall d ::
          IsTarget(targets, d) ==>
            (row.entityId, d) in w'.outbound && w'.outbound[(row.entityId, d)] == Fingerprint(cust))
    && (forall key: (Id, Source) :: key.0 != row.entityId || !IsTarget(targets, key.1) ==>
          (key in w'.outbound <==> key in w.outbound) && (key in w.outbound ==> w'.outbound[key] == w.outbound[key]))
    && w'.ledger == w.ledger + OpsOf(row.entityId, ev, targets, Fingerprint(cust)) && w'.calls == w.calls + |targets|
  }

  lemma CommitWrites(env: Env, w: World, row: Row, ev: Event, cust: Customer, prov: FieldProvenance,
                     targets: seq<Policy>)
    returns (ids: map<Source, Id>)
    requires NoFaults(env) && GoodIds(env) && Connected(env, targets)
    requires forall i :: 0 <= i < |targets| ==> Reachable(w, row.providerIds, targets[i].destination)
    ensures var o := WriteAndCommit(env, w, row, ev, cust, prov, targets);
            o.result == Done(Applied) && Committed(env, w, o.w, row, ids, cust, prov, ev, targets)
  {
    WriteTargetsWrites(env, w, row.entityId, row.providerIds, cust, ev, targets, false);
    var p := WriteTargets(env, w, row.entityId, row.providerIds, cust, ev, targets, false);
    ids := p.ids;
    RecordedWrites(p.w, row.entityId, ev, targets, Fingerprint(cust));
    CommittedFrom(env, w, p.w, RecordWrites(p.w, row.entityId, ev, targets, Fingerprint(cust)), row, ids, cust, prov,
                  ev, targets);
  }

  // Assembles the effect of a commit from the writes and the records.
  lemma CommittedFrom(env: Env, w: World, written: World, recorded: World, row: Row, ids: map<Source, Id>,
                      cust: Customer, prov: FieldProvenance, ev: Event, targets: seq<Policy>)
    requires SameTables(w, written) && written.calls == w.calls + |targets|
    requires written.outbound == w.outbound && written.ledger == w.ledger
    requires forall d ::
               IsTarget(targets, d) ==>
                 Wrote(env, ProviderOf(w, d), ProviderOf(written, d), row.providerIds, ids, cust, d)
    requires forall s ::
               !IsTarget(targets, s) ==> Untouched(ProviderOf(w, s), ProviderOf(written, s), row.providerIds, ids, s)
    requires recorded == written.(outbound := recorded.outbound, ledger := recorded.ledger)
    requires forall d ::
               IsTarget(targets, d) ==>
                 (row.entityId, d) in recorded.outbound && recorded.outbound[(row.entityId, d)] == Fingerprint(cust)
    requires forall key: (Id, Source) :: key.0 != row.entityId || !IsTarget(targets, key.1) ==>
               (key in recorded.outbound <==> key in w.outbound) &&
                   (key in w.outbound ==> recorded.outbound[key] == w.outbound[key])
    requires recorded.ledger == w.ledger + OpsOf(row.entityId, ev, targets, Fingerprint(cust))
    ensures Committed(env, w, recorded.(rows := Put(recorded.rows, CommittedRow(row, ids, cust, prov, ev))), row, ids,
                      cust, prov, ev, targets)
  {
    var w' := recorded.(rows := Put(recorded.rows, CommittedRow(row, ids, cust, prov, ev)));
    assert forall s :: ProviderOf(w', s) == ProviderOf(written, s);
  }
}
