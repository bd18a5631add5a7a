/**
 The durable tables the worker drives and the providers it writes to, for one tenant and one entity
 type. A SQL statement is one update of a table. A provider call either succeeds or fails, before or
 after it took effect, as the fault tape of the environment says.
 */
module Tables {
  import opened Customers
  import opened Conflict

  datatype Option<+T> = None | Some(value: T)

  // ---- Configuration ----------------------------------------------------------------------------

  datatype DeletePolicy = Propagate | TombstoneOnly | Ignore

  datatype Policy = Policy(source: Source, destination: Source, strategy: Strategy, deletePolicy: DeletePolicy,
                           priority: int)

  datatype ErrorKind = Transient | Permanent | RateLimited | Auth | Schema | ConflictError | NotFound | Unknown

  predicate ShouldRetry(kind: ErrorKind) {
    kind !in {Permanent, Auth, Schema}
  }

  datatype Fault = NoFault | FailsBefore(kind: ErrorKind) | FailsAfter(kind: ErrorKind)

  // newId(s, n) is the id provider s gives to the n-th record it creates; faults(n) is what happens
  // to the n-th provider call.
  datatype Env = Env(connections: map<Source, Kind>, policies: seq<Policy>, newId: (Source, nat) -> Id,
                     faults: nat -> Fault)

  // ---- Events and findings ----------------------------------------------------------------------

  datatype FindingKind = Missed | Drift | Deleted | Missing
  datatype Direction = PushCanonical | AdoptProvider | DeleteRecord | UnknownDirection
  datatype FindingStatus = Pending | AppliedRepair | SkippedRepair | Dismissed | FailedRepair

  // A finding is unique per (run, kind, provider id).
  datatype FindingId = FindingId(run: string, kind: FindingKind, providerId: Id)

  datatype Finding = Finding(source: Source, kind: FindingKind, providerId: Id, canonicalId: Id, providerFields: Fields,
                             providerVersion: int, direction: Direction, status: FindingStatus)

  datatype EventId = Webhook(id: string) | RepairOf(finding: FindingId) | ResolutionOf(conflict: string)
  datatype EventKind = Upsert | Delete | Resolution | Repair(finding: FindingId)

  datatype Event = Event(source: Source, id: EventId, entityId: Id, kind: EventKind, version: int, at: int,
                         fields: Fields)

  // ---- Tables -----------------------------------------------------------------------------------

  datatype Row = Row(entityId: Id, fields: Fields, version: int, sourceVersions: map<Source, int>,
                     prov: FieldProvenance, tombstone: bool, providerIds: map<Source, Id>)

  datatype Operation = Operation(entityId: Id, source: Source, target: Source, event: EventId, version: int,
                                 fingerprint: string)

  datatype Record = Record(version: int, deleted: bool, data: Fields)
  datatype Provider = Provider(records: map<Id, Record>, created: nat)

  // rows is in creation order; outbound maps (entity, target) to the fingerprint last written there.
  datatype World = World(rows: seq<Row>, outbound: map<(Id, Source), string>, ledger: seq<Operation>,
                         processed: set<(Source, EventId)>, findings: map<FindingId, Finding>,
                         providers: map<Source, Provider>, calls: nat)

  function VersionOf(row: Row, s: Source): int {
    if s in row.sourceVersions then row.sourceVersions[s] else 0
  }

  // An absent id reads as the empty string.
  function IdIn(ids: map<Source, Id>, s: Source): Id {
    if s in ids then ids[s] else ""
  }

  predicate Maps(row: Row, s: Source, id: Id) {
    s in row.providerIds && row.providerIds[s] == id
  }

  predicate HasEmail(row: Row, email: string) {
    !row.tombstone && Get(row.fields, "email") == Text(email)
  }

  // The lookups return the position of the first matching row, or |rows|.
  function ByEntity(rows: seq<Row>, id: Id): (i: nat)
    ensures i <= |rows| && (i < |rows| ==> rows[i].entityId == id)
    ensures forall j :: 0 <= j < i ==> rows[j].entityId != id
  {
    if rows == [] || rows[0].entityId == id then 0 else 1 + ByEntity(rows[1..], id)
  }

  function ByProvider(rows: seq<Row>, s: Source, id: Id): (i: nat)
    ensures i <= |rows| && (i < |rows| ==> Maps(rows[i], s, id))
    ensures forall j :: 0 <= j < i ==> !Maps(rows[j], s, id)
  {
    if rows == [] || Maps(rows[0], s, id) then 0 else 1 + ByProvider(rows[1..], s, id)
  }

  function ByEmail(rows: seq<Row>, email: string): (i: nat)
    ensures i <= |rows| && (i < |rows| ==> HasEmail(rows[i], email))
    ensures forall j :: 0 <= j < i ==> !HasEmail(rows[j], email)
  {
    if rows == [] || HasEmail(rows[0], email) then 0 else 1 + ByEmail(rows[1..], email)
  }

  // INSERT ... ON CONFLICT (entity_id) DO UPDATE.
  function Put(rows: seq<Row>, row: Row): seq<Row> {
    var i := ByEntity(rows, row.entityId);
    if i < |rows| then rows[i := row] else rows + [row]
  }

  function Link(row: Row, s: Source, id: Id): Row {
    row.(providerIds := row.providerIds[s := id])
  }

  // UPDATE ... SET provider_ids = provider_ids || {...}.
  function AddProviderId(rows: seq<Row>, entity: Id, s: Source, id: Id): seq<Row> {
    var i := ByEntity(rows, entity);
    if i < |rows| then rows[i := Link(rows[i], s, id)] else rows
  }

  // ---- Provider calls ---------------------------------------------------------------------------

  function ProviderOf(w: World, s: Source): Provider {
    if s in w.providers then w.providers[s] else Provider(map[], 0)
  }

  datatype Reply = Replied(id: Id, version: int) | CallFailed(kind: ErrorKind)

  datatype Call = Call(w: World, reply: Reply)

  // A call that changes provider s to after and would answer reply, under the next fault.
  function Perform(env: Env, w: World, s: Source, after: Provider, reply: Reply): Call {
    var skip := w.(calls := w.calls + 1);
    match env.faults(w.calls)
    case NoFault => Call(skip.(providers := w.providers[s := after]), reply)
    case FailsBefore(kind) => Call(skip, CallFailed(kind))
    case FailsAfter(kind) => Call(skip.(providers := w.providers[s := after]), CallFailed(kind))
  }

  function Create(env: Env, w: World, s: Source, data: Fields): Call {
    var p := ProviderOf(w, s);
    var id := env.newId(s, p.created + 1);
    Perform(env, w, s, Provider(p.records[id := Record(1, false, data)], p.created + 1), Replied(id, 1))
  }

  function Update(env: Env, w: World, s: Source, id: Id, data: Fields): Call {
    var p := ProviderOf(w, s);
    if id !in p.records then Perform(env, w, s, p, CallFailed(NotFound))
    else
      var r := p.records[id];
      Perform(env, w, s, p.(records := p.records[id := Record(r.version + 1, r.deleted, r.data + data)]),
              Replied(id, r.version + 1))
  }

  function Remove(env: Env, w: World, s: Source, id: Id): Call {
    var p := ProviderOf(w, s);
    if id !in p.records then Perform(env, w, s, p, CallFailed(NotFound))
    else
      var r := p.records[id];
      Perform(env, w, s,
              p.(records := p.records[id := Record(r.version + 1, true, r.data["deleted" := Flag(true)])]),
              Replied(id, r.version + 1))
  }
}
