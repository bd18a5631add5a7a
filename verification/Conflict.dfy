/**
 Field-level conflict detection and merge (internal/conflict/conflict.go).

 The methods follow the source: they range over maps in an arbitrary order, collect a report, sort
 it and overwrite field by field. Their result is tied to Merged, which says pointwise who owns each
 field, so nothing depends on the iteration order.
 */
module Conflict {
  import opened Customers
  import opened ByteOrder

  datatype Strategy = LastWriteWins | SourcePriority | FieldMerge | Manual | Unrecognised(name: string)

  // Who wrote a field: the source, its record version, the time and the source's priority number
  // (lower is stronger).
  datatype Provenance = Provenance(source: Source, version: int, at: int, priority: int)

  type FieldProvenance = map<string, Provenance>

  // The canonical side of a merge, and one incoming event.
  datatype State = State(fields: Fields, prov: FieldProvenance)
  datatype Edit = Edit(fields: Fields, writer: Provenance)

  datatype FieldConflict = FieldConflict(field: string, a: Provenance, valueA: Value, b: Provenance, valueB: Value)

  datatype Side = SideA | SideB | Neither
  datatype Winner = Winner(side: Side, source: Source, version: int, at: int, value: Value)

  const NoWinner := Winner(Neither, "", 0, 0, Null)

  // ---- Detection --------------------------------------------------------------------------------

  predicate Conflicts(s: State, e: Edit, f: string) {
    && f in e.fields && f in s.prov
    && s.prov[f].source != e.writer.source
    && Get(s.fields, f) != e.fields[f]
  }

  function ConflictAt(s: State, e: Edit, f: string): FieldConflict
    requires Conflicts(s, e, f)
  {
    FieldConflict(f, s.prov[f], Get(s.fields, f), e.writer, e.fields[f])
  }

  function Names(cs: seq<FieldConflict>): (names: seq<string>)
    ensures |names| == |cs| && forall i :: 0 <= i < |cs| ==> names[i] == cs[i].field
  {
    seq(|cs|, i requires 0 <= i < |cs| => cs[i].field)
  }

  // The conflicting fields, each once, in ascending order.
  ghost predicate IsReport(s: State, e: Edit, cs: seq<FieldConflict>) {
    && Ascending(Names(cs))
    && (forall f :: f in Names(cs) <==> Conflicts(s, e, f))
    && (forall c :: c in cs ==> Conflicts(s, e, c.field) && c == ConflictAt(s, e, c.field))
  }

  lemma NameOfMember(cs: seq<FieldConflict>, c: FieldConflict)
    requires c in cs
    ensures c.field in Names(cs)
  {
    var i :| 0 <= i < |cs| && cs[i] == c;
    assert Names(cs)[i] == c.field;
  }

  // Whatever order the maps are walked in, there is one report.
  lemma ReportUnique(s: State, e: Edit, cs: seq<FieldConflict>, ds: seq<FieldConflict>)
    requires IsReport(s, e, cs) && IsReport(s, e, ds)
    ensures cs == ds
  {
    AscendingUnique(Names(cs), Names(ds));
    forall i | 0 <= i < |cs| ensures cs[i] == ds[i] {
      assert cs[i] in cs && ds[i] in ds;
      assert Names(cs)[i] == Names(ds)[i];
    }
  }

  // One step of an insertion sort by field name.
  function Insert(c: FieldConflict, cs: seq<FieldConflict>): (r: seq<FieldConflict>)
    requires Ascending(Names(cs)) && c.field !in Names(cs)
    ensures forall d :: d in r <==> d == c || d in cs
    ensures Ascending(Names(r)) && |r| == |cs| + 1
    decreases |cs|
  {
    if cs == [] then [c]
    else
      assert forall i :: 0 <= i < |cs[1..]| ==> Names(cs[1..])[i] == Names(cs)[i + 1];
      if Less(c.field, cs[0].field) then
        InsertFront(c, cs);
        [c] + cs
      else
        TailOf(c, cs);
        var tail := Insert(c, cs[1..]);
        InsertLater(c, cs, tail);
        [cs[0]] + tail
  }

  lemma InsertFront(c: FieldConflict, cs: seq<FieldConflict>)
    requires cs != [] && Ascending(Names(cs)) && Less(c.field, cs[0].field)
    ensures Ascending(Names([c] + cs))
  {
    var r := [c] + cs;
    forall i, j | 0 <= i < j < |r| ensures Less(Names(r)[i], Names(r)[j]) {
      if i == 0 {
        if j > 1 { LessTransitive(c.field, Names(cs)[0], Names(cs)[j - 1]); }
      } else {
        assert Less(Names(cs)[i - 1], Names(cs)[j - 1]);
      }
    }
  }

  lemma TailOf(c: FieldConflict, cs: seq<FieldConflict>)
    requires cs != [] && Ascending(Names(cs)) && c.field !in Names(cs)
    ensures Ascending(Names(cs[1..])) && c.field !in Names(cs[1..])
    ensures forall d :: d in cs[1..] ==> Less(cs[0].field, d.field)
  {
    assert forall i :: 0 <= i < |cs[1..]| ==> Names(cs[1..])[i] == Names(cs)[i + 1];
    forall d | d in cs[1..] ensures Less(cs[0].field, d.field) {
      var k :| 0 <= k < |cs[1..]| && cs[1..][k] == d;
      assert Less(Names(cs)[0], Names(cs)[k + 1]);
    }
  }

  lemma InsertLater(c: FieldConflict, cs: seq<FieldConflict>, tail: seq<FieldConflict>)
    requires cs != [] && Ascending(Names(cs)) && c.field !in Names(cs) && !Less(c.field, cs[0].field)
    requires Ascending(Names(tail)) && forall d :: d in tail <==> d == c || d in cs[1..]
    ensures Ascending(Names([cs[0]] + tail))
  {
    TailOf(c, cs);
    assert Names(cs)[0] == cs[0].field;
    LessTotal(c.field, cs[0].field);
    var r := [cs[0]] + tail;
    forall i, j | 0 <= i < j < |r| ensures Less(Names(r)[i], Names(r)[j]) {
      if i > 0 {
        assert Less(Names(tail)[i - 1], Names(tail)[j - 1]);
      } else {
        assert tail[j - 1] in tail;
      }
    }
  }

  method SortByField(cs: seq<FieldConflict>) returns (r: seq<FieldConflict>)
    requires forall i, j :: 0 <= i < j < |cs| ==> cs[i].field != cs[j].field
    ensures Ascending(Names(r))
    ensures forall c :: c in r <==> c in cs
  {
    r := [];
    for i := 0 to |cs|
      invariant Ascending(Names(r))
      invariant forall c :: c in r <==> c in cs[..i]
    {
      assert forall k :: 0 <= k < |r| ==> r[k] in r;
      r := Insert(cs[i], r);
      assert cs[..i + 1] == cs[..i] + [cs[i]];
    }
    assert cs[..|cs|] == cs;
  }

  method Detect(s: State, e: Edit) returns (out: seq<FieldConflict>)
    ensures IsReport(s, e, out)
  {
    out := [];
    var rest := e.fields.Keys;
    while rest != {}
      invariant rest <= e.fields.Keys
      invariant forall c :: c in out ==> Conflicts(s, e, c.field) && c == ConflictAt(s, e, c.field) && c.field !in rest
      invariant forall i, j :: 0 <= i < j < |out| ==> out[i].field != out[j].field
      invariant forall f :: f in e.fields.Keys - rest && Conflicts(s, e, f) ==> ConflictAt(s, e, f) in out
    {
      var f :| f in rest;
      rest := rest - {f};
      if f in s.prov && s.prov[f].source != e.writer.source {
        var stored := Get(s.fields, f);
        if stored != e.fields[f] {
          var c := FieldConflict(f, s.prov[f], stored, e.writer, e.fields[f]);
          out := out + [c];
        }
      }
    }
    ghost var collected := out;
    out := SortByField(out);
    forall f ensures f in Names(out) <==> Conflicts(s, e, f) {
      if f in Names(out) {
        var k :| 0 <= k < |out| && Names(out)[k] == f;
        assert out[k] in collected;
      }
      if Conflicts(s, e, f) {
        assert ConflictAt(s, e, f) in collected;
        NameOfMember(out, ConflictAt(s, e, f));
      }
    }
  }

  // ---- Resolution -------------------------------------------------------------------------------

  function WinnerA(c: FieldConflict): Winner { Winner(SideA, c.a.source, c.a.version, c.a.at, c.valueA) }

  function WinnerB(c: FieldConflict): Winner { Winner(SideB, c.b.source, c.b.version, c.b.at, c.valueB) }

  function Resolve(strategy: Strategy, c: FieldConflict): Winner {
    match strategy
    case LastWriteWins | FieldMerge =>
      if c.b.at > c.a.at then WinnerB(c)
      else if c.b.at < c.a.at then WinnerA(c)
      else if c.b.priority < c.a.priority then WinnerB(c) else WinnerA(c)
    case SourcePriority =>
      if c.b.priority < c.a.priority then WinnerB(c)
      else if c.b.priority > c.a.priority then WinnerA(c)
      else if c.b.at > c.a.at then WinnerB(c) else WinnerA(c)
    case Manual => NoWinner
    case Unrecognised(_) => WinnerA(c)
  }

  function NormalizeStrategy(strategy: Strategy): Strategy {
    if strategy.Unrecognised? then LastWriteWins else strategy
  }

  function PriorityFor(source: Source, c: FieldConflict): int {
    if source == c.a.source then c.a.priority else c.b.priority
  }

  // ---- Merge ------------------------------------------------------------------------------------

  // The order a strategy decides by: (time, strength) or (strength, time), compared
  // lexicographically, where a lower priority number is stronger.
  predicate Beats(strategy: Strategy, x: Provenance, y: Provenance) {
    if strategy.SourcePriority?
    then x.priority < y.priority || (x.priority == y.priority && x.at > y.at)
    else x.at > y.at || (x.at == y.at && x.priority < y.priority)
  }

  // The incoming event takes every field it carries, except a conflicting one it does not win.
  predicate Takes(strategy: Strategy, s: State, e: Edit, f: string) {
    f in e.fields && (Conflicts(s, e, f) ==> Beats(strategy, e.writer, s.prov[f]))
  }

  function ValueAfter(strategy: Strategy, s: State, e: Edit, f: string): Value {
    if Takes(strategy, s, e, f) then e.fields[f] else Get(s.fields, f)
  }

  function OwnerAfter(strategy: Strategy, s: State, e: Edit, f: string): Provenance {
    if Takes(strategy, s, e, f) || f !in s.prov then e.writer else s.prov[f]
  }

  function Merged(strategy: Strategy, s: State, e: Edit): State {
    State(map f | f in s.fields.Keys + e.fields.Keys :: ValueAfter(strategy, s, e, f),
          map f | f in s.prov.Keys + e.fields.Keys :: OwnerAfter(strategy, s, e, f))
  }

  // The winner Resolve names is the greater side, with its own provenance.
  lemma ResolveIsGreater(strategy: Strategy, c: FieldConflict)
    requires c.a.source != c.b.source && !NormalizeStrategy(strategy).Manual?
    ensures var w := Resolve(NormalizeStrategy(strategy), c);
            var p := Provenance(w.source, w.version, w.at, PriorityFor(w.source, c));
            if Beats(strategy, c.b, c.a) then w.value == c.valueB && p == c.b else w.value == c.valueA && p == c.a
  {
  }

  lemma WinnerDecides(strategy: Strategy, s: State, e: Edit, f: string)
    requires Conflicts(s, e, f) && !strategy.Manual?
    ensures var c := ConflictAt(s, e, f);
            var w := Resolve(NormalizeStrategy(strategy), c);
            && w.value == ValueAfter(strategy, s, e, f)
            && Provenance(w.source, w.version, w.at, PriorityFor(w.source, c)) == OwnerAfter(strategy, s, e, f)
  {
    ResolveIsGreater(strategy, ConflictAt(s, e, f));
  }

  // The merge with only the fields in done decided.
  function ValuesSoFar(strategy: Strategy, s: State, e: Edit, done: set<string>): Fields {
    map f | f in s.fields.Keys + done :: if f in done then ValueAfter(strategy, s, e, f) else s.fields[f]
  }

  function OwnersSoFar(strategy: Strategy, s: State, e: Edit, done: set<string>): FieldProvenance {
    map f | f in s.prov.Keys + done :: if f in done then OwnerAfter(strategy, s, e, f) else s.prov[f]
  }

  lemma DecideOne(strategy: Strategy, s: State, e: Edit, done: set<string>, f: string)
    ensures ValuesSoFar(strategy, s, e, done + {f}) ==
            ValuesSoFar(strategy, s, e, done)[f := ValueAfter(strategy, s, e, f)]
    ensures OwnersSoFar(strategy, s, e, done + {f}) ==
            OwnersSoFar(strategy, s, e, done)[f := OwnerAfter(strategy, s, e, f)]
  {
  }

  lemma DecideAll(strategy: Strategy, s: State, e: Edit)
    ensures ValuesSoFar(strategy, s, e, {}) == s.fields && OwnersSoFar(strategy, s, e, {}) == s.prov
    ensures State(ValuesSoFar(strategy, s, e, e.fields.Keys), OwnersSoFar(strategy, s, e, e.fields.Keys)) ==
            Merged(strategy, s, e)
  {
    assert ValuesSoFar(strategy, s, e, e.fields.Keys) == Merged(strategy, s, e).fields;
    assert OwnersSoFar(strategy, s, e, e.fields.Keys) == Merged(strategy, s, e).prov;
  }

  method Merge(strategy: Strategy, s: State, e: Edit)
    returns (out: Fields, prov: FieldProvenance, detected: seq<FieldConflict>, manual: bool)
    ensures IsReport(s, e, detected)
    ensures manual <==> strategy.Manual? && exists f :: Conflicts(s, e, f)
    ensures manual ==> out == map[] && prov == map[]
    ensures !manual ==> State(out, prov) == Merged(strategy, s, e)
  {
    detected := Detect(s, e);
    DecideAll(strategy, s, e);
    if detected == [] {
      assert NameSet([]) == {};
      out, prov := Adopt(strategy, s, e, [], s.fields, s.prov, NameSet([]));
      return out, prov, [], false;
    }
    assert Names(detected)[0] in Names(detected);
    if NormalizeStrategy(strategy) == Manual {
      return map[], map[], detected, true;
    }
    manual := false;
    out, prov := ResolveAll(strategy, s, e, detected);
    SettledAll(strategy, s, e, detected);
    out, prov := Adopt(strategy, s, e, detected, out, prov, NameSet(detected));
  }

  ghost function NameSet(cs: seq<FieldConflict>): set<string> {
    set f | f in Names(cs)
  }

  // The effect of giving each reported field to its owner, one after the other.
  ghost function Settled(strategy: Strategy, s: State, e: Edit, cs: seq<FieldConflict>): State {
    if cs == [] then s
    else
      var before := Settled(strategy, s, e, cs[..|cs| - 1]);
      var f := cs[|cs| - 1].field;
      State(before.fields[f := ValueAfter(strategy, s, e, f)], before.prov[f := OwnerAfter(strategy, s, e, f)])
  }

  lemma {:induction false} SettledAll(strategy: Strategy, s: State, e: Edit, cs: seq<FieldConflict>)
    ensures Settled(strategy, s, e, cs) ==
            State(ValuesSoFar(strategy, s, e, NameSet(cs)), OwnersSoFar(strategy, s, e, NameSet(cs)))
  {
    if cs == [] {
      assert NameSet(cs) == {};
      DecideAll(strategy, s, e);
    } else {
      var front, f := cs[..|cs| - 1], cs[|cs| - 1].field;
      SettledAll(strategy, s, e, front);
      assert NameSet(cs) == NameSet(front) + {f} by {
        assert Names(cs) == Names(front) + [f];
      }
      DecideOne(strategy, s, e, NameSet(front), f);
    }
  }

  // The first loop of Merge: each field in the report goes to its winner.
  method ResolveAll(strategy: Strategy, s: State, e: Edit, detected: seq<FieldConflict>)
    returns (out: Fields, prov: FieldProvenance)
    requires IsReport(s, e, detected) && !strategy.Manual?
    ensures State(out, prov) == Settled(strategy, s, e, detected)
  {
    out, prov := s.fields, s.prov;
    for i := 0 to |detected|
      invariant State(out, prov) == Settled(strategy, s, e, detected[..i])
    {
      var c := detected[i];
      assert c in detected;
      WinnerDecides(strategy, s, e, c.field);
      var w := Resolve(NormalizeStrategy(strategy), c);
      out := out[c.field := w.value];
      prov := prov[c.field := Provenance(w.source, w.version, w.at, PriorityFor(w.source, c))];
      assert detected[..i + 1][..i] == detected[..i];
    }
    assert detected[..|detected|] == detected;
  }

  // The last loop of Merge: every incoming field outside the report goes to its source.
  method Adopt(strategy: Strategy, s: State, e: Edit, detected: seq<FieldConflict>, out0: Fields,
               prov0: FieldProvenance,
               ghost done0: set<string>)
    returns (out: Fields, prov: FieldProvenance)
    requires IsReport(s, e, detected) && done0 == NameSet(detected)
    requires out0 == ValuesSoFar(strategy, s, e, done0) && prov0 == OwnersSoFar(strategy, s, e, done0)
    ensures State(out, prov) == Merged(strategy, s, e)
  {
    out, prov := out0, prov0;
    var rest := e.fields.Keys;
    ghost var done := done0;
    while rest != {}
      invariant rest <= e.fields.Keys
      invariant done == done0 + (e.fields.Keys - rest)
      invariant out == ValuesSoFar(strategy, s, e, done) && prov == OwnersSoFar(strategy, s, e, done)
    {
      var f :| f in rest;
      rest := rest - {f};
      var found := Find(detected, f);
      if !found {
        out := out[f := e.fields[f]];
        prov := prov[f := e.writer];
        DecideOne(strategy, s, e, done, f);
      } else {
        assert done + {f} == done;
      }
      done := done + {f};
    }
    assert done == e.fields.Keys;
    DecideAll(strategy, s, e);
  }

  method Find(cs: seq<FieldConflict>, field: string) returns (found: bool)
    ensures found <==> field in Names(cs)
  {
    for i := 0 to |cs|
      invariant field !in Names(cs)[..i]
    {
      if cs[i].field == field { assert Names(cs)[i] == field; return true; }
      assert Names(cs)[..i + 1] == Names(cs)[..i] + [cs[i].field];
    }
    assert Names(cs)[..|cs|] == Names(cs);
    return false;
  }
}
