/**
 What the worker does to the tables and the providers for one event
 (internal/syncworker/worker.go), as functions from the world before to the world after. The Worker
 class carries the same operations out step by step and is proved against these.
 */
module Apply {
  import opened Customers
  import opened Conflict
  import opened Tables

  datatype Verdict = Applied | Stale | Echo | Parked | Ignored | Duplicate | NoPolicy
  datatype Result = Done(verdict: Verdict) | Failed(kind: ErrorKind)
  datatype Outcome = Outcome(w: World, result: Result)

  // ---- Shared pieces ----------------------------------------------------------------------------

  function TargetsOf(policies: seq<Policy>, s: Source): seq<Policy> {
    if policies == [] then []
    else if policies[0].source == s then [policies[0]] + TargetsOf(policies[1..], s)
    else TargetsOf(policies[1..], s)
  }

  // One outbound fingerprint and one ledger row.
  function RecordWrite(w: World, entity: Id, ev: Event, target: Source, fingerprint: string): World {
    w.(outbound := w.outbound[(entity, target) := fingerprint],
       ledger := w.ledger + [Operation(entity, ev.source, target, ev.id, ev.version, fingerprint)])
  }

  // One ledger row per target.
  function OpsOf(entity: Id, ev: Event, targets: seq<Policy>, fingerprint: string): seq<Operation> {
    seq(|targets|, i requires 0 <= i < |targets| =>
      Operation(entity, ev.source, targets[i].destination, ev.id, ev.version, fingerprint))
  }

  function RecordWrites(w: World, entity: Id, ev: Event, targets: seq<Policy>, fingerprint: string): World
    decreases |targets|
  {
    if targets == [] then w
    else RecordWrites(RecordWrite(w, entity, ev, targets[0].destination, fingerprint), entity, ev, targets[1..],
                      fingerprint)
  }

  datatype Pass = Pass(w: World, ids: map<Source, Id>, error: Option<ErrorKind>)

  // Writes the customer to one destination: created where the entity has no id yet, updated
  // otherwise. With eager set the write is recorded at once; an upsert records its writes when it
  // commits.
  function WriteOne(env: Env, w: World, entity: Id, ids: map<Source, Id>, cust: Customer, ev: Event, d: Source,
                    eager: bool): Pass
  {
    if d !in env.connections then Pass(w, ids, Some(Unknown))
    else
      var data := Denormalize(env.connections[d], cust);
      var call := if IdIn(ids, d) == "" then Create(env, w, d, data) else Update(env, w, d, IdIn(ids, d), data);
      if call.reply.CallFailed? then Pass(call.w, ids, Some(call.reply.kind))
      else
        Pass(if eager then RecordWrite(call.w, entity, ev, d, Fingerprint(cust)) else call.w,
             if IdIn(ids, d) == "" then ids[d := call.reply.id] else ids,
             None)
  }

  // Each destination in turn, up to the first failure.
  function WriteTargets(env: Env, w: World, entity: Id, ids: map<Source, Id>, cust: Customer, ev: Event,
                        targets: seq<Policy>, eager: bool): Pass
    decreases |targets|
  {
    if targets == [] then Pass(w, ids, None)
    else
      var one := WriteOne(env, w, entity, ids, cust, ev, targets[0].destination, eager);
      if one.error.Some? then one
      else WriteTargets(env, one.w, entity, one.ids, cust, ev, targets[1..], eager)
  }

  // ---- Upserts ----------------------------------------------------------------------------------

  datatype Resolved = Resolved(w: World, row: Row)

  function NewRow(s: Source, id: Id): Row {
    Row(id, map[], 0, map[], map[], false, map[s := id])
  }

  // By provider id, then the row at position j if there is one, else a new entity. A match at j is
  // linked at once.
  function Identify(w: World, s: Source, id: Id, j: nat): Resolved
    requires j <= |w.rows|
  {
    var i := ByProvider(w.rows, s, id);
    if i < |w.rows| then Resolved(w, w.rows[i])
    else if j < |w.rows| then
      Resolved(w.(rows := AddProviderId(w.rows, w.rows[j].entityId, s, id)), Link(w.rows[j], s, id))
    else Resolved(w, NewRow(s, id))
  }

  // An event without an email is not matched by email.
  function ResolveCanonical(w: World, ev: Event, cust: Customer): Resolved {
    Identify(w, ev.source, ev.entityId, if cust.email == "" then |w.rows| else ByEmail(w.rows, cust.email))
  }

  predicate IsEcho(w: World, entity: Id, s: Source, cust: Customer) {
    (entity, s) in w.outbound && w.outbound[(entity, s)] == Fingerprint(cust)
  }

  function StrategyOf(targets: seq<Policy>): Strategy {
    if targets == [] then LastWriteWins else targets[0].strategy
  }

  function PriorityOf(targets: seq<Policy>): int {
    if targets == [] then 100 else targets[0].priority
  }

  function EditOf(ev: Event, cust: Customer, targets: seq<Policy>): Edit {
    Edit(FieldsOf(cust), Provenance(ev.source, ev.version, ev.at, PriorityOf(targets)))
  }

  predicate AnyConflict(s: State, e: Edit) {
    exists f :: f in e.fields && Conflicts(s, e, f)
  }

  function CommittedRow(row: Row, ids: map<Source, Id>, cust: Customer, prov: FieldProvenance, ev: Event): Row {
    Row(row.entityId, FieldsOf(cust), row.version + 1, row.sourceVersions[ev.source := ev.version], prov, false, ids)
  }

  // Write to every destination, then commit the row, the fingerprints and the ledger together.
  function WriteAndCommit(env: Env, w: World, row: Row, ev: Event, cust: Customer, prov: FieldProvenance,
                          targets: seq<Policy>): Outcome
  {
    var pass := WriteTargets(env, w, row.entityId, row.providerIds, cust, ev, targets, false);
    if pass.error.Some? then Outcome(pass.w, Failed(pass.error.value))
    else
      var w' := RecordWrites(pass.w, row.entityId, ev, targets, Fingerprint(cust));
      Outcome(w'.(rows := Put(w'.rows, CommittedRow(row, pass.ids, cust, prov, ev))), Done(Applied))
  }

  // Merge and propagate, once the event is known to be neither stale nor an echo.
  function ApplyEdit(env: Env, w: World, row: Row, ev: Event, cust: Customer, targets: seq<Policy>): Outcome {
    var s, e := State(row.fields, row.prov), EditOf(ev, cust, targets);
    if StrategyOf(targets).Manual? && AnyConflict(s, e) then Outcome(w, Done(Parked))
    else
      var m := Merged(StrategyOf(targets), s, e);
      WriteAndCommit(env, w, row, ev, FromFields(m.fields), m.prov, targets)
  }

  function ApplyUpsert(env: Env, w: World, ev: Event, targets: seq<Policy>): Outcome {
    if ev.fields == map[] then Outcome(w, Failed(Schema))
    else if ev.kind.Resolution? then ApplyResolution(env, w, ev, targets)
    else if ev.source !in env.connections then Outcome(w, Failed(Unknown))
    else if !Validate(env.connections[ev.source], ev.fields) then Outcome(w, Failed(Schema))
    else
      var cust := Normalize(env.connections[ev.source], ev.fields);
      var r := ResolveCanonical(w, ev, cust);
      if ev.version <= VersionOf(r.row, ev.source) then Outcome(r.w, Done(Stale))
      else if IsEcho(r.w, r.row.entityId, ev.source, cust) then Outcome(r.w, Done(Echo))
      else ApplyEdit(env, r.w, r.row, ev, cust, targets)
  }

  // ---- Operator resolutions ---------------------------------------------------------------------

  function ResolvedOwners(prov: FieldProvenance, ev: Event): FieldProvenance {
    map f | f in prov.Keys + ev.fields.Keys ::
      if f in ev.fields
      then Provenance(ev.source, ev.version, ev.at, if f in prov then prov[f].priority else 100)
      else prov[f]
  }

  function ApplyResolution(env: Env, w: World, ev: Event, targets: seq<Policy>): Outcome {
    var i := ByEntity(w.rows, ev.entityId);
    if i == |w.rows| then Outcome(w, Done(Ignored))
    else
      var row, cust := w.rows[i], FromFields(ev.fields);
      var pass := WriteTargets(env, w, row.entityId, row.providerIds, cust, ev, targets, true);
      if pass.error.Some? then Outcome(pass.w, Failed(pass.error.value))
      else
        var row' := CommittedRow(row, pass.ids, cust, ResolvedOwners(row.prov, ev), ev);
        Outcome(pass.w.(rows := Put(pass.w.rows, row')), Done(Applied))
  }

  // ---- Deletes ----------------------------------------------------------------------------------

  function DeleteTargets(env: Env, w: World, entity: Id, ids: map<Source, Id>, ev: Event, targets: seq<Policy>): Pass
    decreases |targets|
  {
    if targets == [] then Pass(w, ids, None)
    else
      var d := targets[0].destination;
      if !targets[0].deletePolicy.Propagate? || IdIn(ids, d) == ""
          then DeleteTargets(env, w, entity, ids, ev, targets[1..])
      else if d !in env.connections then Pass(w, ids, Some(Unknown))
      else
        var call := Remove(env, w, d, IdIn(ids, d));
        if call.reply.CallFailed? then Pass(call.w, ids, Some(call.reply.kind))
        else
          var op := Operation(entity, ev.source, d, ev.id, ev.version, "");
          DeleteTargets(env, call.w.(ledger := call.w.ledger + [op]), entity, ids, ev, targets[1..])
  }

  function ApplyDelete(env: Env, w: World, ev: Event, targets: seq<Policy>): Outcome {
    var i := ByProvider(w.rows, ev.source, ev.entityId);
    if i == |w.rows| || w.rows[i].tombstone then Outcome(w, Done(Ignored))
    else
      var row := w.rows[i];
      var pass := DeleteTargets(env, w, row.entityId, row.providerIds, ev, targets);
      if pass.error.Some? then Outcome(pass.w, Failed(pass.error.value))
      else
        var row' := row.(tombstone := true, sourceVersions := row.sourceVersions[ev.source := ev.version],
                         version := row.version + 1);
        Outcome(pass.w.(rows := Put(pass.w.rows, row')), Done(Applied))
  }

  // ---- Reconciliation repairs -------------------------------------------------------------------

  // A pending finding changes status, and a failed one can be reopened.
  predicate MayChange(from: FindingStatus, to: FindingStatus) {
    from.Pending? || (from.FailedRepair? && to.Pending?)
  }

  function SetStatus(w: World, f: FindingId, status: FindingStatus): World {
    if f in w.findings && MayChange(w.findings[f].status, status)
    then w.(findings := w.findings[f := w.findings[f].(status := status)])
    else w
  }

  function ApplyRepair(env: Env, w: World, ev: Event, f: FindingId): Outcome {
    if f !in w.findings || !w.findings[f].status.Pending? then Outcome(w, Done(Ignored))
    else
      var finding := w.findings[f];
      if finding.source !in env.connections then Outcome(w, Failed(Unknown))
      else
        match finding.direction
        case DeleteRecord => RepairDelete(env, w, ev, f)
        case PushCanonical => RepairPush(env, w, ev, f)
        case AdoptProvider => RepairAdopt(env, w, ev, f)
        case UnknownDirection => Outcome(SetStatus(w, f, FailedRepair), Failed(Unknown))
  }

  // Pushes a local tombstone. A record the provider no longer has counts as deleted.
  function RepairDelete(env: Env, w: World, ev: Event, f: FindingId): Outcome
    requires f in w.findings
  {
    var finding := w.findings[f];
    var call := Remove(env, w, finding.source, finding.providerId);
    if call.reply.CallFailed? && call.reply.kind != NotFound
    then Outcome(SetStatus(call.w, f, FailedRepair), Failed(call.reply.kind))
    else
      var op := Operation(finding.canonicalId, finding.source, finding.source, ev.id, finding.providerVersion, "");
      Outcome(SetStatus(call.w.(ledger := call.w.ledger + [op]), f, AppliedRepair), Done(Applied))
  }

  // Creates the record at the provider when it is missing there, updates it otherwise; an update
  // that finds the record gone falls back to creating it.
  function PushCall(env: Env, w: World, finding: Finding, data: Fields): Call {
    if finding.kind.Missing? || finding.providerId == "" then Create(env, w, finding.source, data)
    else
      var update := Update(env, w, finding.source, finding.providerId, data);
      if update.reply.CallFailed? && update.reply.kind == NotFound
      then Create(env, update.w, finding.source, data)
      else update
  }

  function PushedRow(row: Row, s: Source, reply: Reply): Row
    requires reply.Replied?
  {
    row.(providerIds := row.providerIds[s := reply.id], sourceVersions := row.sourceVersions[s := reply.version],
         version := row.version + 1, tombstone := false)
  }

  function RepairPush(env: Env, w: World, ev: Event, f: FindingId): Outcome
    requires f in w.findings && w.findings[f].source in env.connections
  {
    var finding := w.findings[f];
    var i := ByEntity(w.rows, finding.canonicalId);
    if i == |w.rows| then Outcome(SetStatus(w, f, SkippedRepair), Done(Ignored))
    else
      var row, cust := w.rows[i], FromFields(w.rows[i].fields);
      var call := PushCall(env, w, finding, Denormalize(env.connections[finding.source], cust));
      if call.reply.CallFailed? then Outcome(SetStatus(call.w, f, FailedRepair), Failed(call.reply.kind))
      else
        var w1 := call.w.(rows := Put(call.w.rows, PushedRow(row, finding.source, call.reply)));
        var w2 := w1.(outbound := w1.outbound[(row.entityId, finding.source) := Fingerprint(cust)],
                      ledger := w1.ledger + [Operation(row.entityId, finding.source, finding.source, ev.id,
                                                       finding.providerVersion, Fingerprint(cust))]);
        Outcome(SetStatus(w2, f, AppliedRepair), Done(Applied))
  }

  function AdoptResolve(w: World, s: Source, id: Id, cust: Customer): Resolved {
    Identify(w, s, id, ByEmail(w.rows, cust.email))
  }

  function AdoptedOwners(cust: Customer, finding: Finding, at: int): FieldProvenance {
    map f | f in FieldsOf(cust).Keys :: Provenance(finding.source, finding.providerVersion, at, 100)
  }

  function AdoptedRow(row: Row, ids: map<Source, Id>, cust: Customer, finding: Finding, at: int): Row {
    Row(row.entityId, FieldsOf(cust), row.version + 1, row.sourceVersions[finding.source := finding.providerVersion],
        AdoptedOwners(cust, finding, at), false, ids)
  }

  // The row an adoption writes.
  function RowToAdopt(w: World, finding: Finding): Row {
    var row := AdoptResolve(w, finding.source, finding.providerId, FromFields(finding.providerFields)).row;
    if row.entityId == "" then row.(entityId := finding.providerId) else row
  }

  // Its writes to the destinations.
  function AdoptPass(env: Env, w: World, ev: Event, finding: Finding): Pass {
    var cust, row := FromFields(finding.providerFields), RowToAdopt(w, finding);
    var r := AdoptResolve(w, finding.source, finding.providerId, cust);
    var write := ev.(source := finding.source, version := finding.providerVersion);
    WriteTargets(env, r.w, row.entityId, row.providerIds, cust, write, TargetsOf(env.policies, finding.source), true)
  }

  function RepairAdopt(env: Env, w: World, ev: Event, f: FindingId): Outcome
    requires f in w.findings
  {
    var finding := w.findings[f];
    var pass := AdoptPass(env, w, ev, finding);
    if pass.error.Some? then Outcome(pass.w, Failed(pass.error.value))
    else
      var row := AdoptedRow(RowToAdopt(w, finding), pass.ids, FromFields(finding.providerFields), finding, ev.at);
      Outcome(SetStatus(pass.w.(rows := Put(pass.w.rows, row)), f, AppliedRepair), Done(Applied))
  }

  // ---- Process ----------------------------------------------------------------------------------

  function Release(w: World, ev: Event): World {
    w.(processed := w.processed - {(ev.source, ev.id)})
  }

  function ApplyEvent(env: Env, w: World, ev: Event): Outcome {
    if ev.source !in env.connections then Outcome(w, Failed(Unknown))
    else if ev.kind.Repair? then ApplyRepair(env, w, ev, ev.kind.finding)
    else
      var targets := TargetsOf(env.policies, ev.source);
      if targets == [] then Outcome(w, Done(NoPolicy))
      else if ev.kind.Delete? then ApplyDelete(env, w, ev, targets)
      else ApplyUpsert(env, w, ev, targets)
  }

  // Claims the event, applies it, and gives the claim back when the attempt failed or no policy
  // wanted the event.
  function Process(env: Env, w: World, ev: Event): Outcome {
    if (ev.source, ev.id) in w.processed then Outcome(w, Done(Duplicate))
    else
      var o := ApplyEvent(env, w.(processed := w.processed + {(ev.source, ev.id)}), ev);
      if o.result.Failed? || o.result == Done(NoPolicy) then Outcome(Release(o.w, ev), o.result) else o
  }
}
