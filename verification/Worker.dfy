/**
 The worker itself (internal/syncworker/worker.go with the internal/store tables it updates): each
 operation changes the tables in place, statement by statement, and is proved to take the world where
 the function of the same name in Apply takes it.
 */
module SyncWorker {
  import opened Customers
  import opened Conflict
  import opened Tables
  import opened Apply

  datatype OutboundWrite = OutboundWrite(entity: Id, target: Source, fingerprint: string)

  // ---- The lists an upsert collects while it writes, and their effect --------------------------

  function WritesOf(entity: Id, targets: seq<Policy>, fingerprint: string): seq<OutboundWrite> {
    seq(|targets|, i requires 0 <= i < |targets| => OutboundWrite(entity, targets[i].destination, fingerprint))
  }

  function PutOutbound(outbound: map<(Id, Source), string>, writes: seq<OutboundWrite>): map<(Id, Source), string>
    decreases |writes|
  {
    if writes == [] then outbound
    else PutOutbound(outbound[(writes[0].entity, writes[0].target) := writes[0].fingerprint], writes[1..])
  }

  // Committing the collected lists is recording each write.
  lemma {:induction false} CollectedIsRecorded(w: World, entity: Id, ev: Event, targets: seq<Policy>,
                                               fingerprint: string)
    ensures RecordWrites(w, entity, ev, targets, fingerprint) ==
            w.(outbound := PutOutbound(w.outbound, WritesOf(entity, targets, fingerprint)),
               ledger := w.ledger + OpsOf(entity, ev, targets, fingerprint))
    decreases |targets|
  {
    if targets == [] {
      assert w.ledger + OpsOf(entity, ev, targets, fingerprint) == w.ledger;
    } else {
      var d := targets[0].destination;
      var w' := RecordWrite(w, entity, ev, d, fingerprint);
      CollectedIsRecorded(w', entity, ev, targets[1..], fingerprint);
      var writes, ops := WritesOf(entity, targets, fingerprint), OpsOf(entity, ev, targets, fingerprint);
      assert writes[1..] == WritesOf(entity, targets[1..], fingerprint) &&
             writes[0] == OutboundWrite(entity, d, fingerprint);
      assert ops == [Operation(entity, ev.source, d, ev.id, ev.version, fingerprint)] + OpsOf(entity, ev, targets[1..],
             fingerprint);
      assert w.ledger + ops == w'.ledger + OpsOf(entity, ev, targets[1..], fingerprint);
    }
  }

  lemma CollectOne(entity: Id, ev: Event, targets: seq<Policy>, i: nat, fingerprint: string)
    requires i < |targets|
    ensures WritesOf(entity, targets[..i + 1], fingerprint) ==
            WritesOf(entity, targets[..i], fingerprint) + [OutboundWrite(entity, targets[i].destination, fingerprint)]
    ensures OpsOf(entity, ev, targets[..i + 1], fingerprint) ==
            OpsOf(entity, ev, targets[..i],
                  fingerprint) + [Operation(entity, ev.source, targets[i].destination, ev.id, ev.version, fingerprint)]
  {
  }

  class Worker {
    var rows: seq<Row>
    var outbound: map<(Id, Source), string>
    var ledger: seq<Operation>
    var processed: set<(Source, EventId)>
    var findings: map<FindingId, Finding>
    var providers: map<Source, Provider>
    var calls: nat

    function Now(): World
      reads this
    {
      World(rows, outbound, ledger, processed, findings, providers, calls)
    }

    // ---- Statements and provider calls ----------------------------------------------------------

    method ClaimProcessedEvent(ev: Event) returns (claimed: bool)
      modifies this`processed
      ensures claimed <==> (ev.source, ev.id) !in old(processed)
      ensures Now() == old(Now()).(processed := old(processed) + {(ev.source, ev.id)})
    {
      claimed := (ev.source, ev.id) !in processed;
      processed := processed + {(ev.source, ev.id)};
    }

    method ReleaseProcessedEvent(ev: Event)
      modifies this`processed
      ensures Now() == Release(old(Now()), ev)
    {
      processed := processed - {(ev.source, ev.id)};
    }

    method UpsertCanonical(row: Row)
      modifies this`rows
      ensures Now() == old(Now()).(rows := Put(old(rows), row))
    {
      var i := ByEntity(rows, row.entityId);
      if i < |rows| {
        rows := rows[i := row];
      } else {
        rows := rows + [row];
      }
    }

    method SetFindingStatus(f: FindingId, status: FindingStatus)
      modifies this`findings
      ensures Now() == SetStatus(old(Now()), f, status)
    {
      if f in findings && MayChange(findings[f].status, status) {
        findings := findings[f := findings[f].(status := status)];
      }
    }

    method CreateAt(env: Env, s: Source, data: Fields) returns (reply: Reply)
      modifies this`providers, this`calls
      ensures Call(Now(), reply) == Create(env, old(Now()), s, data)
    {
      var c := Create(env, Now(), s, data);
      providers, calls, reply := c.w.providers, c.w.calls, c.reply;
    }

    method UpdateAt(env: Env, s: Source, id: Id, data: Fields) returns (reply: Reply)
      modifies this`providers, this`calls
      ensures Call(Now(), reply) == Update(env, old(Now()), s, id, data)
    {
      var c := Update(env, Now(), s, id, data);
      providers, calls, reply := c.w.providers, c.w.calls, c.reply;
    }

    method DeleteAt(env: Env, s: Source, id: Id) returns (reply: Reply)
      modifies this`providers, this`calls
      ensures Call(Now(), reply) == Remove(env, old(Now()), s, id)
    {
      var c := Remove(env, Now(), s, id);
      providers, calls, reply := c.w.providers, c.w.calls, c.reply;
    }

    // One transaction: fingerprints, ledger rows and the canonical row.
    method PersistApplyState(row: Row, writes: seq<OutboundWrite>, ops: seq<Operation>)
      modifies this`outbound, this`ledger, this`rows
      ensures Now() == old(Now()).(outbound := PutOutbound(old(outbound), writes), ledger := old(ledger) + ops,
                                   rows := Put(old(rows), row))
    {
      for i := 0 to |writes|
        invariant PutOutbound(outbound, writes[i..]) == PutOutbound(old(outbound), writes)
        invariant ledger == old(ledger) && rows == old(rows)
      {
        var write := writes[i];
        outbound := outbound[(write.entity, write.target) := write.fingerprint];
        assert writes[i..][1..] == writes[i + 1..];
      }
      for i := 0 to |ops|
        invariant ledger == old(ledger) + ops[..i]
        invariant outbound == PutOutbound(old(outbound), writes) && rows == old(rows)
      {
        ledger := ledger + [ops[i]];
        assert ops[..i + 1] == ops[..i] + [ops[i]];
      }
      assert ops[..|ops|] == ops;
      UpsertCanonical(row);
    }

    // ---- Propagation loops ----------------------------------------------------------------------

    method WriteDestination(env: Env, entity: Id, ids: map<Source, Id>, cust: Customer, ev: Event, d: Source,
                            eager: bool)
      returns (ids': map<Source, Id>, error: Option<ErrorKind>)
      modifies this`providers, this`calls, this`outbound, this`ledger
      ensures Pass(Now(), ids', error) == WriteOne(env, old(Now()), entity, ids, cust, ev, d, eager)
    {
      ids' := ids;
      if d !in env.connections {
        return ids', Some(Unknown);
      }
      var data := Denormalize(env.connections[d], cust);
      var dstId := IdIn(ids', d);
      if dstId == "" {
        var created := CreateAt(env, d, data);
        if created.CallFailed? { return ids', Some(created.kind); }
        ids' := ids'[d := created.id];
      } else {
        var updated := UpdateAt(env, d, dstId, data);
        if updated.CallFailed? { return ids', Some(updated.kind); }
      }
      if eager {
        outbound := outbound[(entity, d) := Fingerprint(cust)];
        ledger := ledger + [Operation(entity, ev.source, d, ev.id, ev.version, Fingerprint(cust))];
      }
      error := None;
    }

    method WriteDestinations(env: Env, entity: Id, ids: map<Source, Id>, cust: Customer, ev: Event,
                             targets: seq<Policy>, eager: bool)
      returns (ids': map<Source, Id>, writes: seq<OutboundWrite>, ops: seq<Operation>, error: Option<ErrorKind>)
      modifies this`providers, this`calls, this`outbound, this`ledger
      ensures Pass(Now(), ids', error) == WriteTargets(env, old(Now()), entity, ids, cust, ev, targets, eager)
      ensures error.None? ==>
                writes == WritesOf(entity, targets, Fingerprint(cust)) &&
                    ops == OpsOf(entity, ev, targets, Fingerprint(cust))
    {
      ids', writes, ops, error := ids, [], [], None;
      for i := 0 to |targets|
        invariant WriteTargets(env, Now(), entity, ids', cust, ev, targets[i..], eager) ==
                  WriteTargets(env, old(Now()), entity, ids, cust, ev, targets, eager)
        invariant writes == WritesOf(entity, targets[..i], Fingerprint(cust))
        invariant ops == OpsOf(entity, ev, targets[..i], Fingerprint(cust))
      {
        var d := targets[i].destination;
        assert targets[i..][1..] == targets[i + 1..] && targets[i..][0].destination == d;
        CollectOne(entity, ev, targets, i, Fingerprint(cust));
        ids', error := WriteDestination(env, entity, ids', cust, ev, d, eager);
        if error.Some? { return; }
        writes := writes + [OutboundWrite(entity, d, Fingerprint(cust))];
        ops := ops + [Operation(entity, ev.source, d, ev.id, ev.version, Fingerprint(cust))];
      }
      error := None;
      assert targets[..|targets|] == targets;
    }

    method DeleteDestinations(env: Env, entity: Id, ids: map<Source, Id>, ev: Event, targets: seq<Policy>)
      returns (error: Option<ErrorKind>)
      modifies this`providers, this`calls, this`ledger
      ensures Pass(Now(), ids, error) == DeleteTargets(env, old(Now()), entity, ids, ev, targets)
    {
      for i := 0 to |targets|
        invariant DeleteTargets(env, Now(), entity, ids, ev, targets[i..]) ==
                  DeleteTargets(env, old(Now()), entity, ids, ev, targets)
      {
        assert targets[i..][1..] == targets[i + 1..] && targets[i..][0] == targets[i];
        var d := targets[i].destination;
        if !targets[i].deletePolicy.Propagate? { continue; }
        var dstId := IdIn(ids, d);
        if dstId == "" { continue; }
        if d !in env.connections { return Some(Unknown); }
        var reply := DeleteAt(env, d, dstId);
        if reply.CallFailed? { return Some(reply.kind); }
        ledger := ledger + [Operation(entity, ev.source, d, ev.id, ev.version, "")];
      }
      error := None;
    }

    // ---- Events ---------------------------------------------------------------------------------

    // Position j is where a match by email was found, or |rows|.
    method ResolveIdentity(s: Source, id: Id, j: nat) returns (row: Row)
      requires j <= |rows|
      modifies this`rows
      ensures Resolved(Now(), row) == Identify(old(Now()), s, id, j)
    {
      var i := ByProvider(rows, s, id);
      if i < |rows| { return rows[i]; }
      if j < |rows| {
        row := Link(rows[j], s, id);
        rows := AddProviderId(rows, rows[j].entityId, s, id);
        return;
      }
      row := NewRow(s, id);
    }

    method ApplyUpsertEvent(env: Env, ev: Event, targets: seq<Policy>) returns (result: Result)
      modifies this`rows, this`outbound, this`ledger, this`providers, this`calls
      ensures Outcome(Now(), result) == ApplyUpsert(env, old(Now()), ev, targets)
    {
      if ev.fields == map[] { return Failed(Schema); }
      if ev.kind.Resolution? {
        result := ApplyResolutionEvent(env, ev, targets);
        return;
      }
      if ev.source !in env.connections { return Failed(Unknown); }
      if !Validate(env.connections[ev.source], ev.fields) { return Failed(Schema); }
      var cust := Normalize(env.connections[ev.source], ev.fields);
      var j := |rows|;
      if cust.email != "" { j := ByEmail(rows, cust.email); }
      var row := ResolveIdentity(ev.source, ev.entityId, j);
      if ev.version <= VersionOf(row, ev.source) { return Done(Stale); }
      if (row.entityId, ev.source) in outbound && outbound[(row.entityId, ev.source)] == Fingerprint(cust) {
        return Done(Echo);
      }
      result := MergeAndPropagate(env, row, ev, cust, targets);
    }

    method MergeAndPropagate(env: Env, row: Row, ev: Event, cust: Customer, targets: seq<Policy>)
      returns (result: Result)
      modifies this`rows, this`outbound, this`ledger, this`providers, this`calls
      ensures Outcome(Now(), result) == ApplyEdit(env, old(Now()), row, ev, cust, targets)
    {
      var fields, prov, detected, manual := Merge(StrategyOf(targets), State(row.fields, row.prov),
                                                  EditOf(ev, cust, targets));
      if manual { return Done(Parked); }
      result := PropagateAndCommit(env, row, ev, FromFields(fields), prov, targets);
    }

    method PropagateAndCommit(env: Env, row: Row, ev: Event, cust: Customer, prov: FieldProvenance,
                              targets: seq<Policy>)
      returns (result: Result)
      modifies this`rows, this`outbound, this`ledger, this`providers, this`calls
      ensures Outcome(Now(), result) == WriteAndCommit(env, old(Now()), row, ev, cust, prov, targets)
    {
      var ids, writes, ops, error := WriteDestinations(env, row.entityId, row.providerIds, cust, ev, targets, false);
      if error.Some? { return Failed(error.value); }
      CollectedIsRecorded(Now(), row.entityId, ev, targets, Fingerprint(cust));
      var row' := Row(row.entityId, FieldsOf(cust), row.version + 1, row.sourceVersions[ev.source := ev.version], prov,
                      false, ids);
      PersistApplyState(row', writes, ops);
      return Done(Applied);
    }

    method ApplyResolutionEvent(env: Env, ev: Event, targets: seq<Policy>) returns (result: Result)
      modifies this`rows, this`outbound, this`ledger, this`providers, this`calls
      ensures Outcome(Now(), result) == ApplyResolution(env, old(Now()), ev, targets)
    {
      var i := ByEntity(rows, ev.entityId);
      if i == |rows| { return Done(Ignored); }
      var row, cust := rows[i], FromFields(ev.fields);
      var ids, _, _, error := WriteDestinations(env, row.entityId, row.providerIds, cust, ev, targets, true);
      if error.Some? { return Failed(error.value); }
      var prov := ClaimFields(row.prov, ev);
      UpsertCanonical(Row(row.entityId, FieldsOf(cust), row.version + 1, row.sourceVersions[ev.source := ev.version],
                          prov, false, ids));
      return Done(Applied);
    }

    // The winning source now owns every field it carried.
    method ClaimFields(prov0: FieldProvenance, ev: Event) returns (prov: FieldProvenance)
      ensures prov == ResolvedOwners(prov0, ev)
    {
      prov := prov0;
      var rest := ev.fields.Keys;
      while rest != {}
        invariant rest <= ev.fields.Keys
        invariant prov.Keys == prov0.Keys + (ev.fields.Keys - rest)
        invariant forall f ::
                    f in prov ==>
                      prov[f] == if f in rest || f !in ev.fields then prov0[f] else ResolvedOwners(prov0, ev)[f]
      {
        var f :| f in rest;
        rest := rest - {f};
        var priority := 100;
        if f in prov { priority := prov[f].priority; }
        prov := prov[f := Provenance(ev.source, ev.version, ev.at, priority)];
      }
    }

    method ApplyDeleteEvent(env: Env, ev: Event, targets: seq<Policy>) returns (result: Result)
      modifies this`rows, this`ledger, this`providers, this`calls
      ensures Outcome(Now(), result) == ApplyDelete(env, old(Now()), ev, targets)
    {
      var i := ByProvider(rows, ev.source, ev.entityId);
      if i == |rows| { return Done(Ignored); }
      var row := rows[i];
      if row.tombstone { return Done(Ignored); }
      var error := DeleteDestinations(env, row.entityId, row.providerIds, ev, targets);
      if error.Some? { return Failed(error.value); }
      row := row.(tombstone := true, sourceVersions := row.sourceVersions[ev.source := ev.version],
                  version := row.version + 1);
      UpsertCanonical(row);
      return Done(Applied);
    }

    // ---- Repairs --------------------------------------------------------------------------------

    method ApplyReconcileFinding(env: Env, ev: Event, f: FindingId) returns (result: Result)
      modifies this`rows, this`outbound, this`ledger, this`findings, this`providers, this`calls
      ensures Outcome(Now(), result) == ApplyRepair(env, old(Now()), ev, f)
    {
      if f !in findings { return Done(Ignored); }
      var finding := findings[f];
      if !finding.status.Pending? { return Done(Ignored); }
      if finding.source !in env.connections { return Failed(Unknown); }
      match finding.direction {
        case DeleteRecord =>
          var reply := DeleteAt(env, finding.source, finding.providerId);
          if reply.CallFailed? && reply.kind != NotFound {
            SetFindingStatus(f, FailedRepair);
            return Failed(reply.kind);
          }
          ledger := ledger + [Operation(finding.canonicalId, finding.source, finding.source, ev.id,
                                        finding.providerVersion, "")];
          SetFindingStatus(f, AppliedRepair);
          return Done(Applied);
        case PushCanonical =>
          result := PushCanonicalState(env, ev, f);
        case AdoptProvider =>
          result := AdoptProviderState(env, ev, f);
        case UnknownDirection =>
          SetFindingStatus(f, FailedRepair);
          return Failed(Unknown);
      }
    }

    method PushCanonicalState(env: Env, ev: Event, f: FindingId) returns (result: Result)
      requires f in findings && findings[f].source in env.connections
      modifies this`rows, this`outbound, this`ledger, this`findings, this`providers, this`calls
      ensures Outcome(Now(), result) == RepairPush(env, old(Now()), ev, f)
    {
      var finding := findings[f];
      var i := ByEntity(rows, finding.canonicalId);
      if i == |rows| {
        SetFindingStatus(f, SkippedRepair);
        return Done(Ignored);
      }
      var row, cust := rows[i], FromFields(rows[i].fields);
      var data := Denormalize(env.connections[finding.source], cust);
      var reply := PushAt(env, finding, data);
      if reply.CallFailed? {
        SetFindingStatus(f, FailedRepair);
        return Failed(reply.kind);
      }
      row := row.(providerIds := row.providerIds[finding.source := reply.id]);
      row := row.(sourceVersions := row.sourceVersions[finding.source := reply.version]);
      row := row.(version := row.version + 1, tombstone := false);
      UpsertCanonical(row);
      outbound := outbound[(row.entityId, finding.source) := Fingerprint(cust)];
      ledger := ledger + [Operation(row.entityId, finding.source, finding.source, ev.id, finding.providerVersion,
                                    Fingerprint(cust))];
      SetFindingStatus(f, AppliedRepair);
      return Done(Applied);
    }

    method PushAt(env: Env, finding: Finding, data: Fields) returns (reply: Reply)
      modifies this`providers, this`calls
      ensures Call(Now(), reply) == PushCall(env, old(Now()), finding, data)
    {
      if finding.kind.Missing? || finding.providerId == "" {
        reply := CreateAt(env, finding.source, data);
      } else {
        reply := UpdateAt(env, finding.source, finding.providerId, data);
        if reply.CallFailed? && reply.kind == NotFound {
          reply := CreateAt(env, finding.source, data);
        }
      }
    }

    method AdoptProviderState(env: Env, ev: Event, f: FindingId) returns (result: Result)
      requires f in findings
      modifies this`rows, this`outbound, this`ledger, this`findings, this`providers, this`calls
      ensures Outcome(Now(), result) == RepairAdopt(env, old(Now()), ev, f)
    {
      var finding := findings[f];
      var cust := FromFields(finding.providerFields);
      var row := ResolveIdentity(finding.source, finding.providerId, ByEmail(rows, cust.email));
      if row.entityId == "" { row := row.(entityId := finding.providerId); }
      var targets := CollectTargets(env.policies, finding.source);
      var write := ev.(source := finding.source, version := finding.providerVersion);
      var ids, _, _, error := WriteDestinations(env, row.entityId, row.providerIds, cust, write, targets, true);
      if error.Some? { return Failed(error.value); }
      UpsertCanonical(AdoptedRow(row, ids, cust, finding, ev.at));
      SetFindingStatus(f, AppliedRepair);
      return Done(Applied);
    }

    // ---- Process --------------------------------------------------------------------------------

    method CollectTargets(policies: seq<Policy>, s: Source) returns (targets: seq<Policy>)
      ensures targets == TargetsOf(policies, s)
    {
      targets := [];
      for i := 0 to |policies|
        invariant targets + TargetsOf(policies[i..], s) == TargetsOf(policies, s)
      {
        assert policies[i..][1..] == policies[i + 1..] && policies[i..][0] == policies[i];
        if policies[i].source == s {
          targets := targets + [policies[i]];
        }
      }
    }

    method HandleClaimed(env: Env, ev: Event) returns (result: Result)
      modifies this`rows, this`outbound, this`ledger, this`findings, this`providers, this`calls
      ensures Outcome(Now(), result) == ApplyEvent(env, old(Now()), ev)
    {
      if ev.source !in env.connections { return Failed(Unknown); }
      if ev.kind.Repair? {
        result := ApplyReconcileFinding(env, ev, ev.kind.finding);
        return;
      }
      var targets := CollectTargets(env.policies, ev.source);
      if targets == [] { return Done(NoPolicy); }
      if ev.kind.Delete? {
        result := ApplyDeleteEvent(env, ev, targets);
      } else {
        result := ApplyUpsertEvent(env, ev, targets);
      }
    }

    method ProcessEvent(env: Env, ev: Event) returns (result: Result)
      modifies this
      ensures Outcome(Now(), result) == Process(env, old(Now()), ev)
    {
      var claimed := ClaimProcessedEvent(ev);
      if !claimed {
        assert old(processed) + {(ev.source, ev.id)} == old(processed);
        return Done(Duplicate);
      }
      result := HandleClaimed(env, ev);
      if result.Failed? || result == Done(NoPolicy) {
        ReleaseProcessedEvent(ev);
      }
    }
  }
}
