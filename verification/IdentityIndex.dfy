/**
 The provider-id index stays functional: no two canonical rows map the same provider id for the same
 source, after any run of events, including attempts that fail half way. A repair that pushes
 canonical state is the one operation that can break it, and the exact condition is given.
 */
module IdentityIndex {
  import opened Customers
  import opened Conflict
  import opened Tables
  import opened Apply

  ghost predicate Functional(rows: seq<Row>) {
    forall i, j, s :: 0 <= i < j < |rows| && s in rows[i].providerIds && s in rows[j].providerIds ==>
      rows[i].providerIds[s] != rows[j].providerIds[s]
  }

  ghost predicate DistinctEntities(rows: seq<Row>) {
    forall i, j :: 0 <= i < j < |rows| ==> rows[i].entityId != rows[j].entityId
  }

  // A provider never hands out an id twice, and never an empty one.
  ghost predicate GoodIds(env: Env) {
    && (forall s, n :: env.newId(s, n) != "")
    && (forall s, m, n :: m != n ==> env.newId(s, m) != env.newId(s, n))
  }

  // Ids not handed out yet are neither stored nor mapped.
  ghost predicate FreshIds(env: Env, w: World) {
    forall s, n :: n > ProviderOf(w, s).created ==>
      env.newId(s, n) !in ProviderOf(w, s).records && forall r :: r in w.rows ==> !Maps(r, s, env.newId(s, n))
  }

  // Ingestion rejects an event without an entity id.
  ghost predicate Named(rows: seq<Row>) {
    forall r :: r in rows ==> r.entityId != ""
  }

  ghost predicate Sound(env: Env, w: World) {
    GoodIds(env) && Functional(w.rows) && DistinctEntities(w.rows) && Named(w.rows) && FreshIds(env, w)
  }

  // The id names a record the provider has already handed out (or never will).
  ghost predicate Known(env: Env, w: World, s: Source, id: Id) {
    forall n :: n > ProviderOf(w, s).created ==> env.newId(s, n) != id
  }

  // ---- How the providers evolve -----------------------------------------------------------------

  ghost predicate Minted(env: Env, a: World, b: World, s: Source, id: Id) {
    exists n :: ProviderOf(a, s).created < n <= ProviderOf(b, s).created && id == env.newId(s, n)
  }

  // From a to b the providers only gained records, under ids they handed out in between.
  ghost predicate Grows(env: Env, a: World, b: World) {
    forall s ::
      && ProviderOf(a, s).created <= ProviderOf(b, s).created
      && ProviderOf(a, s).records.Keys <= ProviderOf(b, s).records.Keys
      && forall id :: id in ProviderOf(b, s).records ==> id in ProviderOf(a, s).records || Minted(env, a, b, s, id)
  }

  lemma GrowsTransitive(env: Env, a: World, b: World, c: World)
    requires Grows(env, a, b) && Grows(env, b, c)
    ensures Grows(env, a, c)
    ensures forall s, id :: Minted(env, a, b, s, id) || Minted(env, b, c, s, id) ==> Minted(env, a, c, s, id)
  {
    forall s, id | Minted(env, a, b, s, id) || Minted(env, b, c, s, id) ensures Minted(env, a, c, s, id) {
      if Minted(env, a, b, s, id) {
        var n :| ProviderOf(a, s).created < n <= ProviderOf(b, s).created && id == env.newId(s, n);
        assert n <= ProviderOf(c, s).created;
      } else {
        var n :| ProviderOf(b, s).created < n <= ProviderOf(c, s).created && id == env.newId(s, n);
        assert ProviderOf(a, s).created < n;
      }
    }
  }

  lemma CreateGrows(env: Env, w: World, s: Source, data: Fields)
    ensures var c := Create(env, w, s, data);
            && Grows(env, w, c.w) && c.w == w.(providers := c.w.providers, calls := c.w.calls)
            && (c.reply.Replied? ==> Minted(env, w, c.w, s, c.reply.id))
  {
    var c := Create(env, w, s, data);
    var n := ProviderOf(w, s).created + 1;
    if ProviderOf(c.w, s).created == n {
      assert Minted(env, w, c.w, s, env.newId(s, n));
    }
    forall t ensures ProviderOf(w, t).created <= ProviderOf(c.w, t).created
             ensures ProviderOf(w, t).records.Keys <= ProviderOf(c.w, t).records.Keys
             ensures forall id ::
                       id in ProviderOf(c.w, t).records ==> id in ProviderOf(w, t).records || Minted(env, w, c.w, t, id)
    {
      if t != s { assert ProviderOf(c.w, t) == ProviderOf(w, t); }
    }
  }

  lemma UpdateGrows(env: Env, w: World, s: Source, id: Id, data: Fields)
    ensures var c := Update(env, w, s, id, data);
            && Grows(env, w, c.w) && c.w == w.(providers := c.w.providers, calls := c.w.calls)
            && forall t :: ProviderOf(c.w, t).created == ProviderOf(w, t).created
  {
    var c := Update(env, w, s, id, data);
    forall t ensures ProviderOf(w, t).created == ProviderOf(c.w, t).created
             ensures ProviderOf(w, t).records.Keys == ProviderOf(c.w, t).records.Keys
    {
      if t != s { assert ProviderOf(c.w, t) == ProviderOf(w, t); }
    }
  }

  lemma RemoveGrows(env: Env, w: World, s: Source, id: Id)
    ensures var c := Remove(env, w, s, id);
            && Grows(env, w, c.w) && c.w == w.(providers := c.w.providers, calls := c.w.calls)
            && forall t :: ProviderOf(c.w, t).created == ProviderOf(w, t).created
  {
    var c := Remove(env, w, s, id);
    forall t ensures ProviderOf(w, t).created == ProviderOf(c.w, t).created
             ensures ProviderOf(w, t).records.Keys == ProviderOf(c.w, t).records.Keys
    {
      if t != s { assert ProviderOf(c.w, t) == ProviderOf(w, t); }
    }
  }

  // The ids of the entity after a pass over the destinations: kept, or handed out during the pass.
  ghost predicate IdsGrow(env: Env, a: World, b: World, ids: map<Source, Id>, ids': map<Source, Id>) {
    && ids.Keys <= ids'.Keys
    && forall s :: s in ids' ==> (s in ids && ids'[s] == ids[s]) || Minted(env, a, b, s, ids'[s])
  }

  // Only provider state, call count, fingerprints and ledger may differ.
  ghost predicate SameTables(a: World, b: World) {
    a.rows == b.rows && a.processed == b.processed && a.findings == b.findings
  }

  lemma WriteOneGrows(env: Env, w: World, entity: Id, ids: map<Source, Id>, cust: Customer, ev: Event, d: Source,
                      eager: bool)
    ensures var p := WriteOne(env, w, entity, ids, cust, ev, d, eager);
            Grows(env, w, p.w) && SameTables(w, p.w) && IdsGrow(env, w, p.w, ids, p.ids)
  {
    if d in env.connections {
      var data := Denormalize(env.connections[d], cust);
      var call;
      if IdIn(ids, d) == "" {
        CreateGrows(env, w, d, data);
        call := Create(env, w, d, data);
      } else {
        UpdateGrows(env, w, d, IdIn(ids, d), data);
        call := Update(env, w, d, IdIn(ids, d), data);
      }
      var p := WriteOne(env, w, entity, ids, cust, ev, d, eager);
      assert forall s :: ProviderOf(p.w, s) == ProviderOf(call.w, s);
    }
  }

  lemma {:induction false} WriteTargetsGrows(env: Env, w: World, entity: Id, ids: map<Source, Id>, cust: Customer,
                                             ev: Event, targets: seq<Policy>, eager: bool)
    ensures var p := WriteTargets(env, w, entity, ids, cust, ev, targets, eager);
            Grows(env, w, p.w) && SameTables(w, p.w) && IdsGrow(env, w, p.w, ids, p.ids)
    decreases |targets|
  {
    if targets != [] {
      WriteOneGrows(env, w, entity, ids, cust, ev, targets[0].destination, eager);
      var one := WriteOne(env, w, entity, ids, cust, ev, targets[0].destination, eager);
      if one.error.None? {
        WriteTargetsGrows(env, one.w, entity, one.ids, cust, ev, targets[1..], eager);
        GrowsTransitive(env, w, one.w, WriteTargets(env, w, entity, ids, cust, ev, targets, eager).w);
      }
    }
  }

  lemma {:induction false} DeleteTargetsGrows(env: Env, w: World, entity: Id, ids: map<Source, Id>, ev: Event,
                                              targets: seq<Policy>)
    ensures var p := DeleteTargets(env, w, entity, ids, ev, targets);
            Grows(env, w, p.w) && SameTables(w, p.w) && p.ids == ids
    decreases |targets|
  {
    if targets != [] {
      var d := targets[0].destination;
      if !targets[0].deletePolicy.Propagate? || IdIn(ids, d) == "" {
        DeleteTargetsGrows(env, w, entity, ids, ev, targets[1..]);
      } else if d in env.connections {
        RemoveGrows(env, w, d, IdIn(ids, d));
        var call := Remove(env, w, d, IdIn(ids, d));
        if call.reply.Replied? {
          var op := Operation(entity, ev.source, d, ev.id, ev.version, "");
          var w' := call.w.(ledger := call.w.ledger + [op]);
          assert forall s :: ProviderOf(w', s) == ProviderOf(call.w, s);
          DeleteTargetsGrows(env, w', entity, ids, ev, targets[1..]);
          GrowsTransitive(env, w, w', DeleteTargets(env, w', entity, ids, ev, targets[1..]).w);
        }
      }
    }
  }

  // ---- Rows -------------------------------------------------------------------------------------

  // No row but the entity's own maps any of these ids.
  ghost predicate Exclusive(rows: seq<Row>, entity: Id, ids: map<Source, Id>) {
    forall r, s :: r in rows && r.entityId != entity && s in ids ==> !Maps(r, s, ids[s])
  }

  lemma ExclusiveRow(rows: seq<Row>, i: nat)
    requires Functional(rows) && DistinctEntities(rows) && i < |rows|
    ensures Exclusive(rows, rows[i].entityId, rows[i].providerIds)
  {
    forall r, s | r in rows && r.entityId != rows[i].entityId && s in rows[i].providerIds
      ensures !Maps(r, s, rows[i].providerIds[s])
    {
      var j :| 0 <= j < |rows| && rows[j] == r;
      assert i < j || j < i;
    }
  }

  lemma ExclusiveGrows(env: Env, a: World, b: World, entity: Id, ids: map<Source, Id>, ids': map<Source, Id>)
    requires FreshIds(env, a) && Exclusive(a.rows, entity, ids) && IdsGrow(env, a, b, ids, ids')
    ensures Exclusive(a.rows, entity, ids')
  {
    forall r, s | r in a.rows && r.entityId != entity && s in ids' ensures !Maps(r, s, ids'[s]) {
      if Minted(env, a, b, s, ids'[s]) {
        var n :| ProviderOf(a, s).created < n <= ProviderOf(b, s).created && ids'[s] == env.newId(s, n);
        assert !Maps(r, s, env.newId(s, n));
      }
    }
  }

  // Writing a row whose ids are exclusively its own keeps the index functional.
  lemma PutKeepsIndex(rows: seq<Row>, row: Row)
    requires Functional(rows) && DistinctEntities(rows) && Exclusive(rows, row.entityId, row.providerIds)
    requires Named(rows) && row.entityId != ""
    ensures Functional(Put(rows, row)) && DistinctEntities(Put(rows, row)) && Named(Put(rows, row))
  {
    var i := ByEntity(rows, row.entityId);
    var rows' := Put(rows, row);
    forall j | 0 <= j < |rows| && j != i
      ensures rows'[j] == rows[j] && rows[j] in rows && rows[j].entityId != row.entityId
    {
      if j < i { } else { assert rows[i].entityId != rows[j].entityId; }
    }
    forall j, k, s | 0 <= j < k < |rows'| && s in rows'[j].providerIds && s in rows'[k].providerIds
      ensures rows'[j].providerIds[s] != rows'[k].providerIds[s]
    {
      if j == i { assert !Maps(rows[k], s, row.providerIds[s]); }
      else if k == i { assert !Maps(rows[j], s, row.providerIds[s]); }
    }
    forall j, k | 0 <= j < k < |rows'| ensures rows'[j].entityId != rows'[k].entityId {
    }
  }

  // Every mapping of the new rows is an old one, a fresh one, or a known one.
  ghost predicate IdsAccounted(env: Env, a: World, b: World, rows: seq<Row>, src: Source, id: Id) {
    forall r, s :: r in rows && s in r.providerIds ==>
      || (exists q :: q in a.rows && Maps(q, s, r.providerIds[s]))
      || Minted(env, a, b, s, r.providerIds[s])
      || (s == src && r.providerIds[s] == id)
  }

  lemma FreshAfter(env: Env, a: World, b: World, src: Source, id: Id)
    requires GoodIds(env) && FreshIds(env, a) && Grows(env, a, b) && Known(env, a, src, id)
    requires IdsAccounted(env, a, b, b.rows, src, id)
    ensures FreshIds(env, b)
  {
    forall s, n | n > ProviderOf(b, s).created
      ensures env.newId(s, n) !in ProviderOf(b, s).records && forall r :: r in b.rows ==> !Maps(r, s, env.newId(s, n))
    {
      var next := env.newId(s, n);
      assert n > ProviderOf(a, s).created;
      assert !Minted(env, a, b, s, next);
      assert forall q :: q in a.rows ==> !Maps(q, s, next);
      assert !(s == src && next == id);
    }
  }

  lemma PutAccounted(env: Env, a: World, b: World, row: Row, ids: map<Source, Id>, src: Source, id: Id)
    requires IdsAccounted(env, a, b, a.rows, src, id)
    requires IdsGrow(env, a, b, ids, row.providerIds)
    requires forall s :: s in ids ==> (exists q :: q in a.rows && Maps(q, s, ids[s])) || (s == src && ids[s] == id)
    ensures IdsAccounted(env, a, b, Put(a.rows, row), src, id)
  {
    var rows' := Put(a.rows, row);
    forall r, s | r in rows' && s in r.providerIds
      ensures (exists q :: q in a.rows && Maps(q, s, r.providerIds[s])) || Minted(env, a, b, s, r.providerIds[s]) ||
              (s == src && r.providerIds[s] == id)
    {
      if r in a.rows { assert Maps(r, s, r.providerIds[s]); } else { assert r == row; }
    }
  }

  // ---- Operations -------------------------------------------------------------------------------

  ghost predicate MappedOr(w: World, ids: map<Source, Id>, src: Source, id: Id) {
    forall s :: s in ids ==> (exists q :: q in w.rows && Maps(q, s, ids[s])) || (s == src && ids[s] == id)
  }

  lemma OwnIds(w: World, i: nat, src: Source, id: Id)
    requires Functional(w.rows) && DistinctEntities(w.rows) && i < |w.rows|
    ensures Exclusive(w.rows, w.rows[i].entityId, w.rows[i].providerIds)
    ensures MappedOr(w, w.rows[i].providerIds, src, id)
  {
    ExclusiveRow(w.rows, i);
    assert forall t :: t in w.rows[i].providerIds ==> Maps(w.rows[i], t, w.rows[i].providerIds[t]);
  }

  // Writing one row after the providers were called.
  lemma CommitSound(env: Env, a: World, b: World, row: Row, ids: map<Source, Id>, src: Source, id: Id)
    requires Sound(env, a) && Grows(env, a, b) && b.rows == Put(a.rows, row) && Known(env, a, src, id)
    requires Exclusive(a.rows, row.entityId, ids) && MappedOr(a, ids, src, id) &&
             IdsGrow(env, a, b, ids, row.providerIds)
    requires row.entityId != ""
    ensures Sound(env, b)
  {
    ExclusiveGrows(env, a, b, row.entityId, ids, row.providerIds);
    PutKeepsIndex(a.rows, row);
    assert IdsAccounted(env, a, b, a.rows, src, id) by {
      assert forall r, s :: r in a.rows && s in r.providerIds ==> Maps(r, s, r.providerIds[s]);
    }
    PutAccounted(env, a, b, row, ids, src, id);
    FreshAfter(env, a, b, src, id);
  }

  lemma SameRowsSound(env: Env, a: World, b: World)
    requires Sound(env, a) && Grows(env, a, b) && b.rows == a.rows
    ensures Sound(env, b)
  {
    assert IdsAccounted(env, a, b, a.rows, "", "") by {
      assert forall r, s :: r in a.rows && s in r.providerIds ==> Maps(r, s, r.providerIds[s]);
    }
    FreshAfter(env, a, b, "", "");
  }

  lemma GrowsReflexive(env: Env, a: World, b: World)
    requires a.providers == b.providers
    ensures Grows(env, a, b)
  {
    assert forall s :: ProviderOf(a, s) == ProviderOf(b, s);
  }

  lemma IdentifySound(env: Env, w: World, s: Source, id: Id, j: nat)
    requires Sound(env, w) && j <= |w.rows| && Known(env, w, s, id) && id != ""
    ensures var r := Identify(w, s, id, j);
            && Sound(env, r.w) && r.w == w.(rows := r.w.rows) && r.row.entityId != ""
            && Exclusive(r.w.rows, r.row.entityId, r.row.providerIds) && MappedOr(r.w, r.row.providerIds, s, id)
  {
    var r := Identify(w, s, id, j);
    var i := ByProvider(w.rows, s, id);
    if i < |w.rows| {
      OwnIds(w, i, s, id);
    } else if j < |w.rows| {
      LinkSound(env, w, s, id, j);
    } else {
      assert forall q :: q in w.rows ==> !Maps(q, s, id);
    }
  }

  lemma LinkSound(env: Env, w: World, s: Source, id: Id, j: nat)
    requires Sound(env, w) && j < |w.rows| && Known(env, w, s, id) && forall q :: q in w.rows ==> !Maps(q, s, id)
    ensures var w' := w.(rows := AddProviderId(w.rows, w.rows[j].entityId, s, id));
            var row := Link(w.rows[j], s, id);
            && Sound(env, w') && ByEntity(w.rows, w.rows[j].entityId) == j && w'.rows == w.rows[j := row]
            && Exclusive(w'.rows, row.entityId, row.providerIds) && MappedOr(w', row.providerIds, s, id)
  {
    var row := Link(w.rows[j], s, id);
    var w' := w.(rows := AddProviderId(w.rows, w.rows[j].entityId, s, id));
    assert ByEntity(w.rows, w.rows[j].entityId) == j;
    OwnIds(w, j, s, id);
    GrowsReflexive(env, w, w');
    assert Exclusive(w.rows, row.entityId, row.providerIds);
    CommitSound(env, w, w', row, row.providerIds, s, id);
    OwnIds(w', j, s, id);
  }

  // A pass over the destinations followed by one row write.
  lemma WriteAndCommitSound(env: Env, w: World, row: Row, cust: Customer, ev: Event, targets: seq<Policy>, eager: bool,
                            src: Source, id: Id, q: Row, b: World)
    requires Sound(env, w) && Known(env, w, src, id) && row.entityId != ""
    requires Exclusive(w.rows, row.entityId, row.providerIds) && MappedOr(w, row.providerIds, src, id)
    requires var p := WriteTargets(env, w, row.entityId, row.providerIds, cust, ev, targets, eager);
             && q.entityId == row.entityId && q.providerIds == p.ids
             && b.providers == p.w.providers && (b.rows == w.rows || b.rows == Put(w.rows, q))
    ensures Sound(env, b)
  {
    var p := WriteTargets(env, w, row.entityId, row.providerIds, cust, ev, targets, eager);
    WriteTargetsGrows(env, w, row.entityId, row.providerIds, cust, ev, targets, eager);
    assert forall s :: ProviderOf(p.w, s) == ProviderOf(b, s);
    assert Grows(env, w, b);
    if b.rows == w.rows {
      SameRowsSound(env, w, b);
    } else {
      CommitSound(env, w, b, q, row.providerIds, src, id);
    }
  }

  lemma {:induction false} RecordWritesFrame(w: World, entity: Id, ev: Event, targets: seq<Policy>, fingerprint: string)
    ensures var w' := RecordWrites(w, entity, ev, targets, fingerprint);
            w' == w.(outbound := w'.outbound, ledger := w'.ledger)
    decreases |targets|
  {
    if targets != [] {
      RecordWritesFrame(RecordWrite(w, entity, ev, targets[0].destination, fingerprint), entity, ev, targets[1..],
                        fingerprint);
    }
  }

  lemma UpsertSound(env: Env, w: World, ev: Event, targets: seq<Policy>)
    requires Sound(env, w) && Known(env, w, ev.source, ev.entityId) && ev.entityId != "" && ev.kind.Upsert?
    ensures Sound(env, ApplyUpsert(env, w, ev, targets).w)
  {
    if ev.fields != map[] && ev.source in env.connections && Validate(env.connections[ev.source], ev.fields) {
      var cust := Normalize(env.connections[ev.source], ev.fields);
      var r := ResolveCanonical(w, ev, cust);
      IdentifySound(env, w, ev.source, ev.entityId, if cust.email == "" then |w.rows| else ByEmail(w.rows, cust.email));
      if !(ev.version <= VersionOf(r.row, ev.source)) && !IsEcho(r.w, r.row.entityId, ev.source, cust) {
        EditSound(env, r.w, r.row, ev, cust, targets);
      }
    }
  }

  lemma EditSound(env: Env, w: World, row: Row, ev: Event, cust: Customer, targets: seq<Policy>)
    requires Sound(env, w) && Known(env, w, ev.source, ev.entityId) && row.entityId != ""
    requires Exclusive(w.rows, row.entityId, row.providerIds) && MappedOr(w, row.providerIds, ev.source, ev.entityId)
    ensures Sound(env, ApplyEdit(env, w, row, ev, cust, targets).w)
  {
    var m := Merged(StrategyOf(targets), State(row.fields, row.prov), EditOf(ev, cust, targets));
    PropagateSound(env, w, row, ev, FromFields(m.fields), m.prov, targets);
  }

  lemma PropagateSound(env: Env, w: World, row: Row, ev: Event, cust: Customer, prov: FieldProvenance,
                       targets: seq<Policy>)
    requires Sound(env, w) && Known(env, w, ev.source, ev.entityId) && row.entityId != ""
    requires Exclusive(w.rows, row.entityId, row.providerIds) && MappedOr(w, row.providerIds, ev.source, ev.entityId)
    ensures Sound(env, WriteAndCommit(env, w, row, ev, cust, prov, targets).w)
  {
    var pass := WriteTargets(env, w, row.entityId, row.providerIds, cust, ev, targets, false);
    assert SameTables(w, pass.w) by {
      WriteTargetsGrows(env, w, row.entityId, row.providerIds, cust, ev, targets, false);
    }
    RecordWritesFrame(pass.w, row.entityId, ev, targets, Fingerprint(cust));
    var q := CommittedRow(row, pass.ids, cust, prov, ev);
    WriteAndCommitSound(env, w, row, cust, ev, targets, false, ev.source, ev.entityId, q,
                        WriteAndCommit(env, w, row, ev, cust, prov, targets).w);
  }

  lemma ResolutionSound(env: Env, w: World, ev: Event, targets: seq<Policy>)
    requires Sound(env, w)
    ensures Sound(env, ApplyResolution(env, w, ev, targets).w)
  {
    var i := ByEntity(w.rows, ev.entityId);
    if i < |w.rows| {
      var row, cust := w.rows[i], FromFields(ev.fields);
      var pass := WriteTargets(env, w, row.entityId, row.providerIds, cust, ev, targets, true);
      assert SameTables(w, pass.w) by {
        WriteTargetsGrows(env, w, row.entityId, row.providerIds, cust, ev, targets, true);
      }
      var q := CommittedRow(row, pass.ids, cust, ResolvedOwners(row.prov, ev), ev);
      var b := ApplyResolution(env, w, ev, targets).w;
      assert b.providers == pass.w.providers && (b.rows == w.rows || b.rows == Put(w.rows, q));
      OwnIds(w, i, "", "");
      WriteAndCommitSound(env, w, row, cust, ev, targets, true, "", "", q, b);
    }
  }

  lemma DeleteSound(env: Env, w: World, ev: Event, targets: seq<Policy>)
    requires Sound(env, w)
    ensures Sound(env, ApplyDelete(env, w, ev, targets).w)
  {
    var i := ByProvider(w.rows, ev.source, ev.entityId);
    if i < |w.rows| && !w.rows[i].tombstone {
      var row := w.rows[i];
      var pass := DeleteTargets(env, w, row.entityId, row.providerIds, ev, targets);
      DeleteTargetsGrows(env, w, row.entityId, row.providerIds, ev, targets);
      var b := ApplyDelete(env, w, ev, targets).w;
      assert forall s :: ProviderOf(pass.w, s) == ProviderOf(b, s);
      OwnIds(w, i, "", "");
      if pass.error.Some? {
        SameRowsSound(env, w, b);
      } else {
        var row' := row.(tombstone := true, sourceVersions := row.sourceVersions[ev.source := ev.version],
                         version := row.version + 1);
        CommitSound(env, w, b, row', row.providerIds, "", "");
      }
    }
  }

  // What an adoption leaves: the providers as the writes left them, and the adopted row if they went through.
  lemma AdoptLeaves(env: Env, w: World, ev: Event, f: FindingId, pass: Pass, q: Row)
    requires f in w.findings && pass == AdoptPass(env, w, ev, w.findings[f])
    requires q == AdoptedRow(RowToAdopt(w, w.findings[f]), pass.ids, FromFields(w.findings[f].providerFields),
                             w.findings[f], ev.at)
    ensures var b := RepairAdopt(env, w, ev, f).w;
            b.providers == pass.w.providers && (b.rows == pass.w.rows || b.rows == Put(pass.w.rows, q))
  {
  }

  lemma AdoptSound(env: Env, w: World, ev: Event, f: FindingId)
    requires Sound(env, w) && f in w.findings
    requires var d := w.findings[f]; Known(env, w, d.source, d.providerId) && d.providerId != ""
    ensures Sound(env, RepairAdopt(env, w, ev, f).w)
  {
    var finding := w.findings[f];
    var cust := FromFields(finding.providerFields);
    var r := AdoptResolve(w, finding.source, finding.providerId, cust);
    IdentifySound(env, w, finding.source, finding.providerId, ByEmail(w.rows, cust.email));
    var write := ev.(source := finding.source, version := finding.providerVersion);
    var targets := TargetsOf(env.policies, finding.source);
    var pass := WriteTargets(env, r.w, r.row.entityId, r.row.providerIds, cust, write, targets, true);
    WriteTargetsGrows(env, r.w, r.row.entityId, r.row.providerIds, cust, write, targets, true);
    var q := AdoptedRow(r.row, pass.ids, cust, finding, ev.at);
    AdoptLeaves(env, w, ev, f, pass, q);
    WriteAndCommitSound(env, r.w, r.row, cust, write, targets, true, finding.source, finding.providerId, q,
                        RepairAdopt(env, w, ev, f).w);
  }

  lemma RepairDeleteSound(env: Env, w: World, ev: Event, f: FindingId)
    requires Sound(env, w) && f in w.findings
    ensures Sound(env, RepairDelete(env, w, ev, f).w)
  {
    var call := Remove(env, w, w.findings[f].source, w.findings[f].providerId);
    RemoveGrows(env, w, w.findings[f].source, w.findings[f].providerId);
    var b := RepairDelete(env, w, ev, f).w;
    assert forall s :: ProviderOf(call.w, s) == ProviderOf(b, s);
    SameRowsSound(env, w, b);
  }

  // The push finds the finding's record at the provider and updates it.
  ghost predicate InPlace(env: Env, w: World, d: Finding) {
    && !d.kind.Missing? && d.providerId != ""
    && d.providerId in ProviderOf(w, d.source).records && env.faults(w.calls).NoFault?
  }

  // A push in place does not meet another row that has taken over the finding's provider id.
  ghost predicate NotTakenOver(env: Env, w: World, d: Finding) {
    InPlace(env, w, d) ==>
      forall r :: r in w.rows && r.entityId != d.canonicalId ==> !Maps(r, d.source, d.providerId)
  }

  lemma PushCallGrows(env: Env, w: World, d: Finding, data: Fields)
    ensures var c := PushCall(env, w, d, data);
            && Grows(env, w, c.w) && c.w == w.(providers := c.w.providers, calls := c.w.calls)
            && (c.reply.Replied? ==>
                  if InPlace(env, w, d) then c.reply.id == d.providerId else Minted(env, w, c.w, d.source, c.reply.id))
  {
    if d.kind.Missing? || d.providerId == "" {
      CreateGrows(env, w, d.source, data);
    } else {
      var update := Update(env, w, d.source, d.providerId, data);
      UpdateGrows(env, w, d.source, d.providerId, data);
      CreateGrows(env, update.w, d.source, data);
      GrowsTransitive(env, w, update.w, Create(env, update.w, d.source, data).w);
    }
  }

  // Mapping row i to an id that is the provider's own record in place, or handed out in the call.
  lemma PushedSound(env: Env, w: World, b: World, i: nat, q: Row, s: Source, id: Id)
    requires Sound(env, w) && Grows(env, w, b) && i < |w.rows| && b.rows == Put(w.rows, q)
    requires q.entityId == w.rows[i].entityId && q.providerIds == w.rows[i].providerIds[s := id]
    requires Minted(env, w, b, s, id) ||
             (Known(env, w, s, id) && forall r :: r in w.rows && r.entityId != q.entityId ==> !Maps(r, s, id))
    ensures Sound(env, b)
  {
    assert w.rows[i] in w.rows;
    if Minted(env, w, b, s, id) {
      OwnIds(w, i, "", "");
      CommitSound(env, w, b, q, w.rows[i].providerIds, "", "");
    } else {
      OwnIds(w, i, s, id);
      CommitSound(env, w, b, q, q.providerIds, s, id);
    }
  }

  // A push repair, in place, created anew or failed, keeps the index as long as the guard holds.
  lemma PushSound(env: Env, w: World, ev: Event, f: FindingId)
    requires Sound(env, w) && f in w.findings && w.findings[f].source in env.connections
    requires NotTakenOver(env, w, w.findings[f])
    ensures Sound(env, RepairPush(env, w, ev, f).w)
  {
    var d, b := w.findings[f], RepairPush(env, w, ev, f).w;
    var i := ByEntity(w.rows, d.canonicalId);
    if i == |w.rows| {
      GrowsReflexive(env, w, b);
      SameRowsSound(env, w, b);
    } else {
      var call := PushCall(env, w, d, Denormalize(env.connections[d.source], FromFields(w.rows[i].fields)));
      PushCallGrows(env, w, d, Denormalize(env.connections[d.source], FromFields(w.rows[i].fields)));
      GrowsReflexive(env, call.w, b);
      GrowsTransitive(env, w, call.w, b);
      if call.reply.CallFailed? {
        SameRowsSound(env, w, b);
      } else {
        assert b.rows == Put(w.rows, PushedRow(w.rows[i], d.source, call.reply));
        MintedThrough(env, w, call.w, b, d.source, call.reply.id);
        PushedSound(env, w, b, i, PushedRow(w.rows[i], d.source, call.reply), d.source, call.reply.id);
      }
    }
  }

  lemma MintedThrough(env: Env, a: World, b: World, c: World, s: Source, id: Id)
    requires b.providers == c.providers
    ensures Minted(env, a, b, s, id) <==> Minted(env, a, c, s, id)
  {
    assert ProviderOf(b, s) == ProviderOf(c, s);
  }

  // ---- Runs -------------------------------------------------------------------------------------

  // Events of every kind, about records their provider already has. A push repair must not meet a row
  // that has taken over its record.
  ghost predicate Admissible(env: Env, w: World, ev: Event) {
    match ev.kind
    case Upsert => Known(env, w, ev.source, ev.entityId) && ev.entityId != ""
    case Delete | Resolution => true
    case Repair(f) => f in w.findings ==> AdmissibleRepair(env, w, w.findings[f])
  }

  ghost predicate AdmissibleRepair(env: Env, w: World, d: Finding) {
    match d.direction
    case AdoptProvider => Known(env, w, d.source, d.providerId) && d.providerId != ""
    case PushCanonical => NotTakenOver(env, w, d)
    case DeleteRecord | UnknownDirection => true
  }

  lemma ProcessSound(env: Env, w: World, ev: Event)
    requires Sound(env, w) && Admissible(env, w, ev)
    ensures Sound(env, Process(env, w, ev).w)
  {
    if (ev.source, ev.id) !in w.processed {
      var w1 := w.(processed := w.processed + {(ev.source, ev.id)});
      GrowsReflexive(env, w, w1);
      SameRowsSound(env, w, w1);
      assert forall s :: ProviderOf(w1, s) == ProviderOf(w, s);
      EventSound(env, w1, ev);
      var o := ApplyEvent(env, w1, ev);
      GrowsReflexive(env, o.w, Release(o.w, ev));
      SameRowsSound(env, o.w, Release(o.w, ev));
    }
  }

  lemma EventSound(env: Env, w: World, ev: Event)
    requires Sound(env, w) && Admissible(env, w, ev)
    ensures Sound(env, ApplyEvent(env, w, ev).w)
  {
    var targets := TargetsOf(env.policies, ev.source);
    match ev.kind {
      case Upsert => UpsertSound(env, w, ev, targets);
      case Delete => DeleteSound(env, w, ev, targets);
      case Resolution => ResolutionSound(env, w, ev, targets);
      case Repair(f) => RepairSound(env, w, ev, f);
    }
  }

  lemma RepairSound(env: Env, w: World, ev: Event, f: FindingId)
    requires Sound(env, w)
    requires f in w.findings ==> AdmissibleRepair(env, w, w.findings[f])
    ensures Sound(env, ApplyRepair(env, w, ev, f).w)
  {
    if f in w.findings && w.findings[f].source in env.connections {
      match w.findings[f].direction {
        case PushCanonical => PushSound(env, w, ev, f);
        case AdoptProvider => AdoptSound(env, w, ev, f);
        case DeleteRecord => RepairDeleteSound(env, w, ev, f);
        case UnknownDirection =>
          GrowsReflexive(env, w, SetStatus(w, f, FailedRepair));
          SameRowsSound(env, w, SetStatus(w, f, FailedRepair));
      }
    }
  }

  ghost function Run(env: Env, w: World, evs: seq<Event>): World {
    if evs == [] then w else Process(env, Run(env, w, evs[..|evs| - 1]), evs[|evs| - 1]).w
  }

  // After any run the index is functional, whatever failed along the way.
  lemma {:induction false} IndexStaysFunctional(env: Env, w: World, evs: seq<Event>)
    requires Sound(env, w)
    requires forall k :: 0 <= k < |evs| ==> Admissible(env, Run(env, w, evs[..k]), evs[k])
    ensures Sound(env, Run(env, w, evs))
  {
    if evs != [] {
      var front := evs[..|evs| - 1];
      forall k | 0 <= k < |front| ensures Admissible(env, Run(env, w, front[..k]), front[k]) {
        assert front[..k] == evs[..k] && front[k] == evs[k];
      }
      IndexStaysFunctional(env, w, front);
      assert Admissible(env, Run(env, w, evs[..|evs| - 1]), evs[|evs| - 1]);
      ProcessSound(env, Run(env, w, front), evs[|evs| - 1]);
    }
  }

  // Where a push ends up: on the finding's own id in place, else on an id nobody has yet.
  lemma PushEndsOn(env: Env, w: World, d: Finding, data: Fields)
    requires Sound(env, w) && PushCall(env, w, d, data).reply.Replied?
    ensures InPlace(env, w, d) ==> PushCall(env, w, d, data).reply.id == d.providerId
    ensures !InPlace(env, w, d) ==> forall r :: r in w.rows ==> !Maps(r, d.source, PushCall(env, w, d, data).reply.id)
  {
    if !InPlace(env, w, d) {
      var w1 := if d.kind.Missing? || d.providerId == "" then w else Update(env, w, d.source, d.providerId, data).w;
      UpdateGrows(env, w, d.source, d.providerId, data);
      assert ProviderOf(w1, d.source).created == ProviderOf(w, d.source).created;
      var n := ProviderOf(w, d.source).created + 1;
      assert PushCall(env, w, d, data) == Create(env, w1, d.source, data);
      assert PushCall(env, w, d, data).reply.id == env.newId(d.source, n);
    }
  }

  // A push repair that goes through keeps the index functional if and only if it created a record, or
  // no other row has taken over the finding's provider id in the meantime.
  lemma PushKeepsIndexExactly(env: Env, w: World, ev: Event, f: FindingId)
    requires Sound(env, w) && f in w.findings && w.findings[f].source in env.connections
    requires RepairPush(env, w, ev, f).result == Done(Applied)
    ensures var d := w.findings[f];
            Functional(RepairPush(env, w, ev, f).w.rows) <==> NotTakenOver(env, w, d)
  {
    var d := w.findings[f];
    var i := ByEntity(w.rows, d.canonicalId);
    var row := w.rows[i];
    var data := Denormalize(env.connections[d.source], FromFields(row.fields));
    var call := PushCall(env, w, d, data);
    PushRows(env, w, ev, f, i, call);
    PushEndsOn(env, w, d, data);
    ReplacedKeepsIndex(w.rows, i, PushedRow(row, d.source, call.reply), d.source, call.reply.id);
  }

  lemma PushRows(env: Env, w: World, ev: Event, f: FindingId, i: nat, call: Call)
    requires f in w.findings && w.findings[f].source in env.connections && i < |w.rows|
    requires i == ByEntity(w.rows, w.findings[f].canonicalId)
    requires call == PushCall(env, w, w.findings[f],
                              Denormalize(env.connections[w.findings[f].source], FromFields(w.rows[i].fields)))
    requires RepairPush(env, w, ev, f).result == Done(Applied)
    ensures call.reply.Replied?
    ensures RepairPush(env, w, ev, f).w.rows == w.rows[i := PushedRow(w.rows[i], w.findings[f].source, call.reply)]
  {
    var d := w.findings[f];
    CreateGrows(env, w, d.source, Denormalize(env.connections[d.source], FromFields(w.rows[i].fields)));
    UpdateGrows(env, w, d.source, d.providerId, Denormalize(env.connections[d.source], FromFields(w.rows[i].fields)));
    CreateGrows(env,
                Update(env, w, d.source, d.providerId,
                       Denormalize(env.connections[d.source], FromFields(w.rows[i].fields))).w,
                d.source, Denormalize(env.connections[d.source], FromFields(w.rows[i].fields)));
  }

  // Mapping row i to one more id breaks the index exactly if another row has that id.
  lemma ReplacedKeepsIndex(rows: seq<Row>, i: nat, q: Row, s: Source, id: Id)
    requires Functional(rows) && DistinctEntities(rows) && i < |rows|
    requires q.entityId == rows[i].entityId && q.providerIds == rows[i].providerIds[s := id]
    ensures Functional(rows[i := q]) <==> forall r :: r in rows && r.entityId != q.entityId ==> !Maps(r, s, id)
  {
    var rows' := rows[i := q];
    if forall r :: r in rows && r.entityId != q.entityId ==> !Maps(r, s, id) {
      forall j, k, t | 0 <= j < k < |rows'| && t in rows'[j].providerIds && t in rows'[k].providerIds
        ensures rows'[j].providerIds[t] != rows'[k].providerIds[t]
      {
        var other := if j == i then rows[k] else rows[j];
        assert other in rows && ((j == i || k == i) ==> other.entityId != q.entityId);
      }
    } else {
      var r :| r in rows && r.entityId != q.entityId && Maps(r, s, id);
      var j :| 0 <= j < |rows| && rows[j] == r;
      assert rows'[j] == r && rows'[i] == q && i != j;
      assert s in rows'[i].providerIds && s in rows'[j].providerIds;
    }
  }
}
