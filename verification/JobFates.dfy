/**
 What the worker makes of a record a full sync offers: the fates the job distinguishes are those of the
 worker's own results, in what they do to the claims and to the ledger.
 */
module JobFates {
  import opened Customers
  import opened Conflict
  import opened Tables
  import opened Apply
  import opened IdentityIndex
  import opened Destinations
  import FullSync

  function FateOf(result: Result): FullSync.Fate {
    if result.Failed? then FullSync.Fails
    else if result.verdict.Applied? then FullSync.Commits
    else if result.verdict.NoPolicy? then FullSync.NoPolicy
    else FullSync.Drops
  }

  // Neither the claims nor the ledger have changed.
  ghost predicate SameBooks(a: World, b: World) {
    a.processed == b.processed && a.ledger == b.ledger
  }

  lemma WriteKeepsBooks(env: Env, w: World, entity: Id, ids: map<Source, Id>, cust: Customer, ev: Event, d: Source)
    ensures SameBooks(w, WriteOne(env, w, entity, ids, cust, ev, d, false).w)
  {
  }

  lemma {:induction false} WritesKeepBooks(env: Env, w: World, entity: Id, ids: map<Source, Id>, cust: Customer,
                                           ev: Event, targets: seq<Policy>)
    ensures SameBooks(w, WriteTargets(env, w, entity, ids, cust, ev, targets, false).w)
    decreases |targets|
  {
    if targets != [] {
      var one := WriteOne(env, w, entity, ids, cust, ev, targets[0].destination, false);
      assert SameBooks(w, one.w) by { WriteKeepsBooks(env, w, entity, ids, cust, ev, targets[0].destination); }
      if one.error.None? { WritesKeepBooks(env, one.w, entity, one.ids, cust, ev, targets[1..]); }
    }
  }

  // A commit leaves the claims and adds to the ledger; anything else leaves both.
  ghost predicate KeepsBooks(w: World, o: Outcome) {
    && o.w.processed == w.processed && o.result != Done(NoPolicy)
    && (o.w.ledger == w.ledger <==> !FateOf(o.result).Commits?)
  }

  lemma CommitBooks(env: Env, w: World, row: Row, ev: Event, cust: Customer, prov: FieldProvenance,
                    targets: seq<Policy>)
    requires targets != []
    ensures KeepsBooks(w, WriteAndCommit(env, w, row, ev, cust, prov, targets))
  {
    var pass := WriteTargets(env, w, row.entityId, row.providerIds, cust, ev, targets, false);
    WritesKeepBooks(env, w, row.entityId, row.providerIds, cust, ev, targets);
    if pass.error.None? {
      RecordWritesFrame(pass.w, row.entityId, ev, targets, Fingerprint(cust));
      RecordedWrites(pass.w, row.entityId, ev, targets, Fingerprint(cust));
      assert |OpsOf(row.entityId, ev, targets, Fingerprint(cust))| > 0;
    }
  }

  lemma EditBooks(env: Env, w: World, row: Row, ev: Event, cust: Customer, targets: seq<Policy>)
    requires targets != []
    ensures KeepsBooks(w, ApplyEdit(env, w, row, ev, cust, targets))
  {
    var m := Merged(StrategyOf(targets), State(row.fields, row.prov), EditOf(ev, cust, targets));
    CommitBooks(env, w, row, ev, FromFields(m.fields), m.prov, targets);
  }

  lemma UpsertBooks(env: Env, w: World, ev: Event, targets: seq<Policy>)
    requires ev.kind.Upsert? && targets != []
    ensures KeepsBooks(w, ApplyUpsert(env, w, ev, targets))
  {
    if ev.fields != map[] && ev.source in env.connections && Validate(env.connections[ev.source], ev.fields) {
      var cust := Normalize(env.connections[ev.source], ev.fields);
      var r := ResolveCanonical(w, ev, cust);
      assert SameBooks(w, r.w);
      if !(ev.version <= VersionOf(r.row, ev.source)) && !IsEcho(r.w, r.row.entityId, ev.source, cust) {
        assert ApplyUpsert(env, w, ev, targets) == ApplyEdit(env, r.w, r.row, ev, cust, targets);
        EditBooks(env, r.w, r.row, ev, cust, targets);
      }
    }
  }

  // For an event not claimed before: it stays claimed exactly if its fate is to commit or to be dropped, and
  // leaves ledger rows exactly if it is to commit. A claimed one is a duplicate and changes nothing.
  lemma WorkerDecides(env: Env, w: World, ev: Event)
    requires ev.kind.Upsert?
    ensures var o, key := Process(env, w, ev), (ev.source, ev.id);
            var fate := FateOf(o.result);
            && (key in w.processed ==> o == Outcome(w, Done(Duplicate)))
            && (key !in w.processed ==>
                  && o.w.processed == (if fate.Commits? || fate.Drops? then w.processed + {key} else w.processed)
                  && (o.w.ledger == w.ledger <==> !fate.Commits?))
  {
    var key := (ev.source, ev.id);
    if key !in w.processed {
      var w1 := w.(processed := w.processed + {key});
      assert w1.processed - {key} == w.processed;
      var targets := TargetsOf(env.policies, ev.source);
      if targets != [] { UpsertBooks(env, w1, ev, targets); }
    }
  }
}
