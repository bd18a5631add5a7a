/**
 What a stream of merges converges to. Folding Merged over edits from several sources leaves every
 field with the edit that is greatest in the strategy's order, whatever the interleaving, and says
 precisely which step would break that.
 */
module MergeOrder {
  import opened Customers
  import opened Conflict

  ghost function Fold(strategy: Strategy, es: seq<Edit>): State {
    if es == [] then State(map[], map[])
    else Merged(strategy, Fold(strategy, es[..|es| - 1]), es[|es| - 1])
  }

  // Each source has one priority and its events carry increasing times; events of different sources
  // never tie, and never write the same value to the same field.
  ghost predicate Orderly(es: seq<Edit>) {
    && (forall i, j :: 0 <= i < j < |es| && es[i].writer.source == es[j].writer.source ==>
          es[i].writer.priority == es[j].writer.priority && es[i].writer.at < es[j].writer.at)
    && (forall i, j :: 0 <= i < |es| && 0 <= j < |es| && es[i].writer.source != es[j].writer.source ==>
          !(es[i].writer.at == es[j].writer.at && es[i].writer.priority == es[j].writer.priority))
    && (forall i, j :: 0 <= i < |es| && 0 <= j < |es| && es[i].writer.source != es[j].writer.source ==>
          forall f :: f in es[i].fields && f in es[j].fields ==> es[i].fields[f] != es[j].fields[f])
  }

  // Edit k is the greatest of the edits that carry field f.
  ghost predicate Greatest(strategy: Strategy, es: seq<Edit>, f: string, k: nat) {
    && k < |es| && f in es[k].fields
    && forall j :: 0 <= j < |es| && j != k && f in es[j].fields ==> Beats(strategy, es[k].writer, es[j].writer)
  }

  ghost predicate Owns(strategy: Strategy, es: seq<Edit>, s: State, f: string, k: nat) {
    && Greatest(strategy, es, f, k)
    && f in s.fields && f in s.prov && s.fields[f] == es[k].fields[f] && s.prov[f] == es[k].writer
  }

  lemma BeatsTransitive(strategy: Strategy, x: Provenance, y: Provenance, z: Provenance)
    requires Beats(strategy, x, y) && Beats(strategy, y, z)
    ensures Beats(strategy, x, z)
  {
  }

  lemma OrderlyPair(strategy: Strategy, es: seq<Edit>, i: nat, j: nat)
    requires Orderly(es) && i < |es| && j < |es| && i != j
    ensures Beats(strategy, es[i].writer, es[j].writer) != Beats(strategy, es[j].writer, es[i].writer)
    ensures i < j && es[i].writer.source == es[j].writer.source ==> Beats(strategy, es[j].writer, es[i].writer)
  {
  }

  lemma OrderlyPrefix(es: seq<Edit>)
    requires Orderly(es) && es != []
    ensures Orderly(es[..|es| - 1])
  {
    var p := es[..|es| - 1];
    assert forall i :: 0 <= i < |p| ==> p[i] == es[i];
  }

  ghost predicate Carried(es: seq<Edit>, f: string) {
    exists i :: 0 <= i < |es| && f in es[i].fields
  }

  // The state after any orderly stream: a field no edit carries is absent, and every other field
  // has the value and the provenance of the greatest edit that carries it.
  lemma {:induction false} FoldGivesGreatest(strategy: Strategy, es: seq<Edit>, f: string) returns (k: nat)
    requires Orderly(es) && !strategy.Manual?
    ensures f in Fold(strategy, es).prov <==> Carried(es, f)
    ensures f in Fold(strategy, es).fields <==> Carried(es, f)
    ensures Carried(es, f) ==> Owns(strategy, es, Fold(strategy, es), f, k)
  {
    if es == [] {
      k := 0;
    } else {
      OrderlyPrefix(es);
      k := FoldGivesGreatest(strategy, es[..|es| - 1], f);
      k := OneMore(strategy, es, Fold(strategy, es[..|es| - 1]), f, k);
    }
  }

  // The inductive step: one more edit.
  lemma OneMore(strategy: Strategy, es: seq<Edit>, before: State, f: string, k: nat) returns (m: nat)
    requires es != [] && Orderly(es)
    requires var p := es[..|es| - 1];
             && (f in before.prov <==> Carried(p, f)) && (f in before.fields <==> Carried(p, f))
             && (Carried(p, f) ==> Owns(strategy, p, before, f, k))
    ensures var s := Merged(strategy, before, es[|es| - 1]);
            && (f in s.prov <==> Carried(es, f)) && (f in s.fields <==> Carried(es, f))
            && (Carried(es, f) ==> Owns(strategy, es, s, f, m))
  {
    var p, n := es[..|es| - 1], |es| - 1;
    m := if f in es[n].fields && (f in before.prov ==> Takes(strategy, before, es[n], f)) then n else k;
    assert forall i :: 0 <= i < |p| ==> p[i] == es[i];
    assert Carried(es, f) <==> Carried(p, f) || f in es[n].fields;
    if Carried(es, f) {
      GreatestGrows(strategy, es, before, f, k, m);
    }
  }

  lemma GreatestGrows(strategy: Strategy, es: seq<Edit>, before: State, f: string, k: nat, m: nat)
    requires es != [] && Orderly(es) && Carried(es, f)
    requires var p := es[..|es| - 1];
             (f in before.prov <==> Carried(p, f)) && (Carried(p, f) ==> Owns(strategy, p, before, f, k))
    requires var n := |es| - 1;
             m == if f in es[n].fields && (f in before.prov ==> Takes(strategy, before, es[n], f)) then n else k
    ensures Greatest(strategy, es, f, m)
  {
    var p, n := es[..|es| - 1], |es| - 1;
    if f !in before.prov {
      assert forall i :: 0 <= i < |p| ==> p[i] == es[i];
    } else if f !in es[n].fields {
      assert forall i :: 0 <= i < |p| ==> p[i] == es[i];
    } else {
      assert p[k] == es[k];
      LastOrKept(strategy, es, before, f, k);
    }
  }

  // The last edit and the owner so far both carry the field.
  lemma LastOrKept(strategy: Strategy, es: seq<Edit>, before: State, f: string, k: nat)
    requires es != [] && Orderly(es) && f in es[|es| - 1].fields && Owns(strategy, es[..|es| - 1], before, f, k)
    ensures Greatest(strategy, es, f, if Takes(strategy, before, es[|es| - 1], f) then |es| - 1 else k)
  {
    var p, n := es[..|es| - 1], |es| - 1;
    assert p[k] == es[k];
    OrderlyPair(strategy, es, k, n);
    if Beats(strategy, es[n].writer, es[k].writer) {
      LastBeatsAll(strategy, es, f, k);
    } else {
      assert es[k].writer.source != es[n].writer.source;
      assert Conflicts(before, es[n], f);
      assert forall i :: 0 <= i < |p| ==> p[i] == es[i];
    }
  }

  lemma LastBeatsAll(strategy: Strategy, es: seq<Edit>, f: string, k: nat)
    requires es != [] && k < |es| - 1 && Greatest(strategy, es[..|es| - 1], f, k)
    requires f in es[|es| - 1].fields && Beats(strategy, es[|es| - 1].writer, es[k].writer)
    ensures Greatest(strategy, es, f, |es| - 1)
  {
    var p := es[..|es| - 1];
    forall j | 0 <= j < |p| && f in es[j].fields ensures Beats(strategy, es[|es| - 1].writer, es[j].writer) {
      assert p[j] == es[j] && p[k] == es[k];
      if j != k { BeatsTransitive(strategy, es[|es| - 1].writer, es[k].writer, es[j].writer); }
    }
  }

  // Two orderly interleavings of the same edits end in the same state, values and provenance alike.
  lemma InterleavingsAgree(strategy: Strategy, es: seq<Edit>, ds: seq<Edit>)
    requires Orderly(es) && Orderly(ds) && !strategy.Manual?
    requires forall e :: e in es <==> e in ds
    ensures Fold(strategy, es) == Fold(strategy, ds)
  {
    var s, t := Fold(strategy, es), Fold(strategy, ds);
    forall f ensures Carried(es, f) <==> Carried(ds, f)
             ensures f in s.prov <==> f in t.prov
             ensures f in s.fields <==> f in t.fields
             ensures f in s.prov ==> s.prov[f] == t.prov[f]
             ensures f in s.fields ==> s.fields[f] == t.fields[f]
    {
      SameCarriers(es, ds, f);
      var k := FoldGivesGreatest(strategy, es, f);
      var m := FoldGivesGreatest(strategy, ds, f);
      if Carried(es, f) {
        GreatestUnique(strategy, es, ds, f, k, m);
      }
    }
    assert s.prov.Keys == t.prov.Keys && s.fields.Keys == t.fields.Keys;
    assert s.prov == t.prov && s.fields == t.fields;
  }

  lemma SameCarriers(es: seq<Edit>, ds: seq<Edit>, f: string)
    requires forall e :: e in es <==> e in ds
    ensures Carried(es, f) <==> Carried(ds, f)
  {
    if Carried(es, f) {
      var i :| 0 <= i < |es| && f in es[i].fields;
      assert es[i] in ds;
    }
    if Carried(ds, f) {
      var i :| 0 <= i < |ds| && f in ds[i].fields;
      assert ds[i] in es;
    }
  }

  lemma GreatestUnique(strategy: Strategy, es: seq<Edit>, ds: seq<Edit>, f: string, k: nat, m: nat)
    requires Greatest(strategy, es, f, k) && Greatest(strategy, ds, f, m)
    requires forall e :: e in es <==> e in ds
    ensures es[k] == ds[m]
  {
    assert es[k] in ds && ds[m] in es;
    var i :| 0 <= i < |ds| && ds[i] == es[k];
    var j :| 0 <= j < |es| && es[j] == ds[m];
    assert i != m ==> Beats(strategy, ds[m].writer, es[k].writer);
    assert j != k ==> Beats(strategy, es[k].writer, ds[m].writer);
  }

  // One merge leaves a field with the greater of its owner and the incoming event, except in one
  // case: there was nothing to fight over (same source, or an equal value re-asserted) and the
  // incoming event is not the greater.
  lemma StepKeepsGreaterExactly(strategy: Strategy, s: State, e: Edit, f: string)
    requires f in s.prov && f in e.fields
    ensures Merged(strategy, s, e).prov[f] == (if Beats(strategy, e.writer, s.prov[f]) then e.writer else s.prov[f])
       <==> (s.prov[f].source != e.writer.source && Get(s.fields, f) != e.fields[f])
            || Beats(strategy, e.writer, s.prov[f]) || e.writer == s.prov[f]
  {
  }

  // Without the condition on equal values the outcome depends on the order: three sources write a
  // field, a and b the same value, and c falls between them. When the older b arrives after a it
  // takes the field over with the value unchanged, and c then wins a fight it otherwise loses.
  lemma EqualValuesBreakOrder(a: Edit, b: Edit, c: Edit, f: string)
    requires f in a.fields && f in b.fields && f in c.fields && a.fields[f] == b.fields[f] && c.fields[f] != b.fields[f]
    requires a.writer.source != c.writer.source && b.writer.source != c.writer.source
    requires a.writer.at > c.writer.at > b.writer.at
    ensures multiset([a, b, c]) == multiset([b, a, c])
    ensures f in Fold(LastWriteWins, [a, b, c]).fields && Fold(LastWriteWins, [a, b, c]).fields[f] == c.fields[f]
    ensures f in Fold(LastWriteWins, [b, a, c]).fields && Fold(LastWriteWins, [b, a, c]).fields[f] == a.fields[f]
  {
    Unfold3(a, b, c, f);
    Unfold3(b, a, c, f);
  }

  // Three edits of one field, where the first two agree on its value.
  lemma Unfold3(a: Edit, b: Edit, c: Edit, f: string)
    requires f in a.fields && f in b.fields && f in c.fields && a.fields[f] == b.fields[f] && c.fields[f] != b.fields[f]
    requires b.writer.source != c.writer.source
    ensures var s := Fold(LastWriteWins, [a, b, c]);
            f in s.fields && s.fields[f] == if Beats(LastWriteWins, c.writer, b.writer) then c.fields[f]
                else b.fields[f]
  {
    assert [a, b, c][..2] == [a, b] && [a, b][..1] == [a] && [a][..0] == [];
    assert Fold(LastWriteWins, []) == State(map[], map[]);
    var one, two := Fold(LastWriteWins, [a]), Fold(LastWriteWins, [a, b]);
    assert one == Merged(LastWriteWins, State(map[], map[]), a);
    assert one.fields[f] == a.fields[f] && one.prov[f] == a.writer;
    assert two == Merged(LastWriteWins, one, b);
    assert two.fields[f] == b.fields[f] && two.prov[f] == b.writer;
  }
}
