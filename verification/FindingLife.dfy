/**
 The life of a finding: over every serial run of deliveries, sweeps and operator decisions it leaves
 pending at most once, and once it has left, nothing repairs it again.
 */
module FindingLife {
  import opened Customers
  import opened Tables
  import opened Apply
  import opened IdentityIndex
  import opened Reconcile

  ghost predicate Settled(w: World, f: FindingId) {
    f in w.findings && !w.findings[f].status.Pending?
  }

  // A settled finding is the same in b as in a.
  ghost predicate Stays(a: World, b: World, f: FindingId) {
    Settled(a, f) ==> f in b.findings && b.findings[f] == a.findings[f]
  }

  // What can happen: an event reaches the worker (first time, redelivered or retried), the engine
  // sweeps a provider, the operator dismisses a finding or asks for its repair, possibly in another
  // direction. The repair itself is an event delivered later.
  datatype Action =
    | Deliver(ev: Event)
    | RunEngine(sweep: Sweep, pages: seq<seq<Id>>)
    | Dismiss(f: FindingId)
    | RequestRepair(f: FindingId, direction: Direction)

  function DismissFinding(w: World, f: FindingId): World {
    SetStatus(w, f, Dismissed)
  }

  function ChooseDirection(w: World, f: FindingId, direction: Direction): World {
    if f in w.findings && w.findings[f].status.Pending?
    then w.(findings := w.findings[f := w.findings[f].(direction := direction)])
    else w
  }

  function Act(env: Env, w: World, a: Action): World {
    match a
    case Deliver(ev) => Process(env, w, ev).w
    case RunEngine(sweep, pages) => if sweep.source in env.connections then RunSweep(env, w, sweep, pages) else w
    case Dismiss(f) => DismissFinding(w, f)
    case RequestRepair(f, direction) => ChooseDirection(w, f, direction)
  }

  function Life(env: Env, w: World, acts: seq<Action>): World {
    if acts == [] then w else Act(env, Life(env, w, acts[..|acts| - 1]), acts[|acts| - 1])
  }

  // ---- Every step keeps settled findings -----------------------------------------------------------

  // An upsert, resolution or delete touches no finding.
  lemma EventKeepsFindings(env: Env, w: World, ev: Event)
    requires !ev.kind.Repair?
    ensures ApplyEvent(env, w, ev).w.findings == w.findings
  {
    var targets := TargetsOf(env.policies, ev.source);
    if ev.kind.Delete? {
      DeleteKeepsFindings(env, w, ev, targets);
    } else if ev.kind.Resolution? {
      ResolutionKeepsFindings(env, w, ev, targets);
    } else {
      UpsertKeepsFindings(env, w, ev, targets);
    }
  }

  lemma DeleteKeepsFindings(env: Env, w: World, ev: Event, targets: seq<Policy>)
    ensures ApplyDelete(env, w, ev, targets).w.findings == w.findings
  {
    var i := ByProvider(w.rows, ev.source, ev.entityId);
    if i < |w.rows| { DeleteTargetsGrows(env, w, w.rows[i].entityId, w.rows[i].providerIds, ev, targets); }
  }

  lemma ResolutionKeepsFindings(env: Env, w: World, ev: Event, targets: seq<Policy>)
    ensures ApplyResolution(env, w, ev, targets).w.findings == w.findings
  {
    var i := ByEntity(w.rows, ev.entityId);
    if i < |w.rows| {
      WriteTargetsGrows(env, w, w.rows[i].entityId, w.rows[i].providerIds, FromFields(ev.fields), ev, targets, true);
    }
  }

  lemma CommitKeepsFindings(env: Env, w: World, row: Row, ev: Event, cust: Customer, prov: Conflict.FieldProvenance,
                            targets: seq<Policy>)
    ensures WriteAndCommit(env, w, row, ev, cust, prov, targets).w.findings == w.findings
  {
    WriteTargetsGrows(env, w, row.entityId, row.providerIds, cust, ev, targets, false);
    var pass := WriteTargets(env, w, row.entityId, row.providerIds, cust, ev, targets, false);
    RecordWritesFrame(pass.w, row.entityId, ev, targets, Fingerprint(cust));
  }

  lemma EditKeepsFindings(env: Env, w: World, row: Row, ev: Event, cust: Customer, targets: seq<Policy>)
    ensures ApplyEdit(env, w, row, ev, cust, targets).w.findings == w.findings
  {
    var m := Conflict.Merged(StrategyOf(targets), Conflict.State(row.fields, row.prov), EditOf(ev, cust, targets));
    CommitKeepsFindings(env, w, row, ev, FromFields(m.fields), m.prov, targets);
  }

  lemma UpsertKeepsFindings(env: Env, w: World, ev: Event, targets: seq<Policy>)
    requires ev.kind.Upsert?
    ensures ApplyUpsert(env, w, ev, targets).w.findings == w.findings
  {
    if ev.fields != map[] && ev.source in env.connections && Validate(env.connections[ev.source], ev.fields) {
      var cust := Normalize(env.connections[ev.source], ev.fields);
      var r := ResolveCanonical(w, ev, cust);
      assert r.w.findings == w.findings;
      if !(ev.version <= VersionOf(r.row, ev.source)) && !IsEcho(r.w, r.row.entityId, ev.source, cust) {
        assert ApplyUpsert(env, w, ev, targets) == ApplyEdit(env, r.w, r.row, ev, cust, targets);
        EditKeepsFindings(env, r.w, r.row, ev, cust, targets);
      }
    }
  }

  // From a to b at most the finding g changed, and only its status.
  ghost predicate TouchesOnly(a: World, b: World, g: FindingId) {
    && b.findings.Keys == a.findings.Keys
    && forall f :: f in a.findings && f != g ==> b.findings[f] == a.findings[f]
  }

  lemma StatusTouchesOnly(a: World, w: World, g: FindingId, status: FindingStatus)
    requires w.findings == a.findings
    ensures TouchesOnly(a, SetStatus(w, g, status), g)
  {
  }

  lemma AdoptTouchesOnly(env: Env, w: World, ev: Event, g: FindingId)
    requires g in w.findings
    ensures TouchesOnly(w, RepairAdopt(env, w, ev, g).w, g)
  {
    var finding := w.findings[g];
    var cust, row, pass := FromFields(finding.providerFields), RowToAdopt(w, finding), AdoptPass(env, w, ev, finding);
    assert pass.w.findings == w.findings by {
      WriteTargetsGrows(env, AdoptResolve(w, finding.source, finding.providerId, cust).w, row.entityId, row.providerIds,
                        cust, ev.(source := finding.source, version := finding.providerVersion),
                        TargetsOf(env.policies, finding.source), true);
    }
    StatusTouchesOnly(w, pass.w.(rows := Put(pass.w.rows, AdoptedRow(row, pass.ids, cust, finding, ev.at))), g,
                      AppliedRepair);
  }

  lemma DeleteTouchesOnly(env: Env, w: World, ev: Event, g: FindingId)
    requires g in w.findings
    ensures TouchesOnly(w, RepairDelete(env, w, ev, g).w, g)
  {
    var call := Remove(env, w, w.findings[g].source, w.findings[g].providerId);
    RemoveGrows(env, w, w.findings[g].source, w.findings[g].providerId);
    if call.reply.CallFailed? && call.reply.kind != NotFound {
      StatusTouchesOnly(w, call.w, g, FailedRepair);
    } else {
      StatusTouchesOnly(w, call.w.(ledger := RepairDelete(env, w, ev, g).w.ledger), g, AppliedRepair);
    }
  }

  lemma PushTouchesOnly(env: Env, w: World, ev: Event, g: FindingId)
    requires g in w.findings && w.findings[g].source in env.connections
    ensures TouchesOnly(w, RepairPush(env, w, ev, g).w, g)
  {
    var finding := w.findings[g];
    var i := ByEntity(w.rows, finding.canonicalId);
    if i < |w.rows| {
      var data := Denormalize(env.connections[finding.source], FromFields(w.rows[i].fields));
      var call := PushCall(env, w, finding, data);
      assert call.w.findings == w.findings by { PushCallGrows(env, w, finding, data); }
      var w' := RepairPush(env, w, ev, g).w;
      if call.reply.CallFailed? {
        StatusTouchesOnly(w, call.w, g, FailedRepair);
      } else {
        StatusTouchesOnly(w, w'.(findings := w.findings), g, AppliedRepair);
      }
    }
  }

  // A repair event changes no settled finding, and repairs nothing if its own is settled.
  lemma RepairKeepsSettled(env: Env, w: World, ev: Event, g: FindingId, f: FindingId)
    ensures Stays(w, ApplyRepair(env, w, ev, g).w, f)
    ensures g !in w.findings || Settled(w, g) ==> ApplyRepair(env, w, ev, g).w == w
  {
    if g in w.findings && w.findings[g].status.Pending? && w.findings[g].source in env.connections {
      match w.findings[g].direction {
        case AdoptProvider => AdoptTouchesOnly(env, w, ev, g);
        case DeleteRecord => DeleteTouchesOnly(env, w, ev, g);
        case PushCanonical => PushTouchesOnly(env, w, ev, g);
        case UnknownDirection =>
      }
    }
  }

  lemma ProcessKeepsSettled(env: Env, w: World, ev: Event, f: FindingId)
    ensures Stays(w, Process(env, w, ev).w, f)
    ensures ev.kind == Repair(f) && Settled(w, f) ==>
              var w' := Process(env, w, ev).w; w' == w.(processed := w'.processed)
  {
    if (ev.source, ev.id) !in w.processed {
      var w1 := w.(processed := w.processed + {(ev.source, ev.id)});
      if ev.kind.Repair? {
        RepairKeepsSettled(env, w1, ev, ev.kind.finding, f);
      } else {
        EventKeepsFindings(env, w1, ev);
      }
    }
  }

  // Recording a settled divergence again does nothing at all.
  lemma RecordKeepsSettled(env: Env, w: World, sweep: Sweep, kind: FindingKind, id: Id, version: int, row: Option<Row>,
                           fields: Fields, f: FindingId)
    ensures Stays(w, RecordFinding(env, w, sweep, kind, id, version, row, fields), f)
    ensures Settled(w, FindingId(sweep.id, kind, id)) ==>
              RecordFinding(env, w, sweep, kind, id, version, row, fields) == w
  {
    var g := FindingId(sweep.id, kind, id);
    var w1 := InsertFinding(w, g, NewFinding(sweep, kind, id, version, row, fields));
    ProcessKeepsSettled(env, w1, RepairEvent(sweep, g, w1.findings[g]), f);
  }

  lemma SweepRecordKeepsSettled(env: Env, w: World, sweep: Sweep, id: Id, rec: Record, f: FindingId)
    requires sweep.source in env.connections
    ensures Stays(w, SweepRecord(env, w, sweep, id, rec), f)
  {
    var fields := FieldsOf(Normalize(env.connections[sweep.source], rec.data));
    var row := RowFor(w, sweep.source, id);
    var kind := Classify(row, fields);
    if kind.Some? { RecordKeepsSettled(env, w, sweep, kind.value, id, rec.version, row, fields, f); }
  }

  lemma {:induction false} PageKeepsSettled(env: Env, w: World, sweep: Sweep, ids: seq<Id>, snapshot: map<Id, Record>,
                                            f: FindingId)
    requires sweep.source in env.connections && forall i :: 0 <= i < |ids| ==> ids[i] in snapshot
    ensures Stays(w, SweepPage(env, w, sweep, ids, snapshot), f)
    decreases |ids|
  {
    if ids != [] {
      SweepRecordKeepsSettled(env, w, sweep, ids[0], snapshot[ids[0]], f);
      PageKeepsSettled(env, SweepRecord(env, w, sweep, ids[0], snapshot[ids[0]]), sweep, ids[1..], snapshot, f);
    }
  }

  lemma {:induction false} PagesKeepSettled(env: Env, w: World, sweep: Sweep, pages: seq<seq<Id>>, f: FindingId)
    requires sweep.source in env.connections
    ensures Stays(w, SweepPages(env, w, sweep, pages).w, f)
    decreases |pages|
  {
    if pages != [] {
      var snapshot, ids := ProviderOf(w, sweep.source).records, Listed(w, sweep.source, pages[0]);
      ListedServed(w, sweep.source, pages[0]);
      PageKeepsSettled(env, w, sweep, ids, snapshot, f);
      PagesKeepSettled(env, SweepPage(env, w, sweep, ids, snapshot), sweep, pages[1..], f);
    }
  }

  lemma {:induction false} MissingKeepsSettled(env: Env, w: World, sweep: Sweep, rows: seq<Row>, seen: set<Id>,
                                               f: FindingId)
    ensures Stays(w, MissingPass(env, w, sweep, rows, seen), f)
    decreases |rows|
  {
    if rows != [] {
      var row := rows[0];
      RecordKeepsSettled(env, w, sweep, Missing, IdIn(row.providerIds, sweep.source), VersionOf(row, sweep.source),
                         Some(row), row.fields, f);
      MissingKeepsSettled(env, MissingOne(env, w, sweep, row, seen), sweep, rows[1..], seen, f);
    }
  }

  lemma ActKeepsSettled(env: Env, w: World, a: Action, f: FindingId)
    ensures Stays(w, Act(env, w, a), f)
  {
    match a {
      case Deliver(ev) => ProcessKeepsSettled(env, w, ev, f);
      case RunEngine(sweep, pages) =>
        if sweep.source in env.connections {
          PagesKeepSettled(env, w, sweep, pages, f);
          var walk := SweepPages(env, w, sweep, pages);
          MissingKeepsSettled(env, walk.w, sweep, walk.w.rows, walk.seen, f);
        }
      case Dismiss(_) =>
      case RequestRepair(_, _) =>
    }
  }

  // ---- The theorem ------------------------------------------------------------------------------

  // Once a finding has left pending it never changes again, and no repair event for it, whoever sends
  // it and however often, touches a row, a provider or a ledger.
  lemma {:induction false} LeavesPendingOnce(env: Env, w: World, acts: seq<Action>, k: nat, f: FindingId, ev: Event)
    requires k <= |acts| && Settled(Life(env, w, acts[..k]), f)
    ensures Settled(Life(env, w, acts), f) && Life(env, w, acts).findings[f] == Life(env, w, acts[..k]).findings[f]
    ensures ev.kind == Repair(f) ==>
              var now := Life(env, w, acts);
              var next := Process(env, now, ev).w;
              next == now.(processed := next.processed)
    decreases |acts|
  {
    var now := Life(env, w, acts);
    if k == |acts| {
      assert acts[..k] == acts;
    } else {
      var front := acts[..|acts| - 1];
      assert front[..k] == acts[..k];
      LeavesPendingOnce(env, w, front, k, f, ev);
      ActKeepsSettled(env, Life(env, w, front), acts[|acts| - 1], f);
    }
    ProcessKeepsSettled(env, now, ev, f);
  }
}
