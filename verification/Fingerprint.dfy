/**
 When a fingerprint identifies a customer. The hashed text joins the five values by four labels, and a
 customer shares its text with another one exactly when, for one of the labels, the value before it or
 the value after it contains that label.
 */
module Fingerprints {
  import opened Customers

  // A bar, an equals sign at the end, and neither anywhere else.
  ghost predicate IsLabel(l: string) {
    && |l| >= 2 && l[0] == '|' && l[|l| - 1] == '='
    && (forall i :: 0 < i < |l| ==> l[i] != '|') && (forall i :: 0 <= i < |l| - 1 ==> l[i] != '=')
  }

  ghost predicate AreLabels(ls: seq<string>) {
    && (forall i :: 0 <= i < |ls| ==> IsLabel(ls[i]))
    && (forall i, j :: 0 <= i < j < |ls| ==> ls[i] != ls[j])
  }

  ghost predicate OccursAt(s: string, l: string, i: nat) {
    i + |l| <= |s| && s[i..i + |l|] == l
  }

  ghost predicate Contains(s: string, l: string) {
    exists i :: OccursAt(s, l, i)
  }

  ghost function Joined(vs: seq<string>, ls: seq<string>): string
    requires |vs| == |ls| + 1
  {
    if ls == [] then vs[0] else vs[0] + ls[0] + Joined(vs[1..], ls[1..])
  }

  // A value next to a label contains it.
  ghost predicate Ambiguous(vs: seq<string>, ls: seq<string>)
    requires |vs| == |ls| + 1
  {
    exists k :: 0 <= k < |ls| && AmbiguousAt(vs, ls, k)
  }

  ghost predicate AmbiguousAt(vs: seq<string>, ls: seq<string>, k: nat)
    requires |vs| == |ls| + 1 && k < |ls|
  {
    Contains(vs[k], ls[k]) || Contains(vs[k + 1], ls[k])
  }

  // ---- Two ways to read the same text -------------------------------------------------------------------

  // Labels that occur at i and at j in one text do not overlap, and are the same if i == j.
  lemma LabelsApart(s: string, p: string, i: nat, q: string, j: nat)
    requires IsLabel(p) && IsLabel(q) && OccursAt(s, p, i) && OccursAt(s, q, j)
    ensures i + |p| <= j || j + |q| <= i || (i == j && p == q)
  {
    assert forall x :: i <= x < i + |p| ==> s[x] == p[x - i];
    assert forall x :: j <= x < j + |q| ==> s[x] == q[x - j];
    assert s[i] == '|' && s[j] == '|' && s[i + |p| - 1] == '=' && s[j + |q| - 1] == '=';
    assert forall x :: i < x < i + |p| ==> s[x] != '|';
    assert forall x :: j < x < j + |q| ==> s[x] != '|';
    assert forall x :: i <= x < i + |p| - 1 ==> s[x] != '=';
    assert forall x :: j <= x < j + |q| - 1 ==> s[x] != '=';
  }

  lemma TailAmbiguous(vs: seq<string>, ls: seq<string>)
    requires |vs| == |ls| + 1 && ls != [] && Ambiguous(vs[1..], ls[1..])
    ensures Ambiguous(vs, ls)
  {
    var k :| 0 <= k < |ls[1..]| && AmbiguousAt(vs[1..], ls[1..], k);
    assert AmbiguousAt(vs, ls, k + 1);
  }

  lemma OccursIn(a: string, l: string, b: string)
    ensures OccursAt(a + l + b, l, |a|)
  {
  }

  // The text of vs is also a stretch u, a label p that comes before them all, and the text of ws.
  lemma {:induction false} Shifted(vs: seq<string>, ws: seq<string>, ls: seq<string>, u: string, p: string)
    requires |vs| == |ls| + 1 && |ws| == |ls| + 1 && AreLabels([p] + ls)
    requires Joined(vs, ls) == u + p + Joined(ws, ls)
    ensures Contains(vs[0], p) || Ambiguous(vs, ls)
    decreases |ls|
  {
    var text, v := Joined(vs, ls), vs[0];
    assert IsLabel(([p] + ls)[0]);
    OccursIn(u, p, Joined(ws, ls));
    if ls == [] {
      assert OccursAt(v, p, |u|);
    } else {
      var l, rest := ls[0], Joined(vs[1..], ls[1..]);
      assert ([p] + ls)[1] == l && IsLabel(l) && p != l;
      OccursIn(v, l, rest);
      LabelsApart(text, p, |u|, l, |v|);
      if |u| + |p| <= |v| {
        assert v == text[..|v|];
        assert OccursAt(v, p, |u|);
      } else {
        ShiftOn(vs, ws, ls, u, p);
      }
    }
  }

  lemma {:induction false} ShiftOn(vs: seq<string>, ws: seq<string>, ls: seq<string>, u: string, p: string)
    requires |vs| == |ls| + 1 && |ws| == |ls| + 1 && AreLabels([p] + ls) && ls != [] && |vs[0]| + |ls[0]| <= |u|
    requires Joined(vs, ls) == u + p + Joined(ws, ls)
    ensures Ambiguous(vs, ls)
    decreases |ls|, 0
  {
    var l, n := ls[0], |vs[0]| + |ls[0]|;
    var u' := u[n..] + p + ws[0];
    assert Joined(vs, ls)[n..] == Joined(vs[1..], ls[1..]);
    assert (u + p + Joined(ws, ls))[n..] == u[n..] + p + (ws[0] + l + Joined(ws[1..], ls[1..]));
    assert u[n..] + p + (ws[0] + l + Joined(ws[1..], ls[1..])) == u' + l + Joined(ws[1..], ls[1..]);
    LabelsTail(p, ls);
    Shifted(vs[1..], ws[1..], ls[1..], u', l);
    if Contains(vs[1..][0], l) { assert AmbiguousAt(vs, ls, 0); } else { TailAmbiguous(vs, ls); }
  }

  lemma LabelsTail(p: string, ls: seq<string>)
    requires AreLabels([p] + ls)
    ensures AreLabels(ls) && (ls != [] ==> AreLabels([ls[0]] + ls[1..]))
  {
    assert forall i :: 0 <= i < |ls| ==> ([p] + ls)[i + 1] == ls[i];
    if ls != [] { assert [ls[0]] + ls[1..] == ls; }
  }

  // Two different readings of one text: a value next to a label contains it.
  lemma {:induction false} TwoReadings(vs: seq<string>, ws: seq<string>, ls: seq<string>)
    requires |vs| == |ls| + 1 && |ws| == |ls| + 1 && AreLabels(ls)
    requires Joined(vs, ls) == Joined(ws, ls)
    ensures vs == ws || Ambiguous(vs, ls)
    decreases |ls|
  {
    if ls != [] {
      var text, v, w, l := Joined(vs, ls), vs[0], ws[0], ls[0];
      OccursIn(v, l, Joined(vs[1..], ls[1..]));
      OccursIn(w, l, Joined(ws[1..], ls[1..]));
      LabelsApart(text, l, |v|, l, |w|);
      assert v == text[..|v|] && w == text[..|w|];
      assert [l] + ls[1..] == ls;
      if |v| == |w| {
        assert text[|v| + |l|..] == Joined(vs[1..], ls[1..]) && text[|v| + |l|..] == Joined(ws[1..], ls[1..]);
        LabelsTail(l, ls[1..]);
        TwoReadings(vs[1..], ws[1..], ls[1..]);
        if Ambiguous(vs[1..], ls[1..]) {
          TailAmbiguous(vs, ls);
        } else {
          assert vs == [v] + vs[1..] && ws == [w] + ws[1..];
        }
      } else if |w| < |v| {
        assert OccursAt(v, l, |w|);
        assert AmbiguousAt(vs, ls, 0);
      } else {
        LaterReading(vs, ws, ls);
      }
    }
  }

  lemma LaterReading(vs: seq<string>, ws: seq<string>, ls: seq<string>)
    requires |vs| == |ls| + 1 && |ws| == |ls| + 1 && AreLabels(ls) && ls != [] && |vs[0]| + |ls[0]| <= |ws[0]|
    requires Joined(vs, ls) == Joined(ws, ls)
    ensures Ambiguous(vs, ls)
  {
    var l, n := ls[0], |vs[0]| + |ls[0]|;
    assert Joined(vs, ls)[n..] == Joined(vs[1..], ls[1..]);
    assert (ws[0] + l + Joined(ws[1..], ls[1..]))[n..] == ws[0][n..] + l + Joined(ws[1..], ls[1..]);
    assert [l] + ls[1..] == ls;
    Shifted(vs[1..], ws[1..], ls[1..], ws[0][n..], l);
    if Contains(vs[1..][0], l) { assert AmbiguousAt(vs, ls, 0); } else { TailAmbiguous(vs, ls); }
  }

  // ---- A value that contains its label ------------------------------------------------------------------

  lemma SplitAt(s: string, l: string) returns (a: string, b: string)
    requires Contains(s, l)
    ensures s == a + l + b
  {
    var i: nat :| OccursAt(s, l, i);
    a, b := s[..i], s[i + |l|..];
  }

  // Moving the label from inside a value to the border gives another reading.
  lemma {:induction false} Reread(vs: seq<string>, ls: seq<string>, k: nat) returns (ws: seq<string>)
    requires |vs| == |ls| + 1 && AreLabels(ls) && k < |ls| && AmbiguousAt(vs, ls, k)
    ensures |ws| == |vs| && ws != vs && Joined(ws, ls) == Joined(vs, ls)
    decreases k
  {
    if k > 0 {
      assert [ls[0]] + ls[1..] == ls;
      LabelsTail(ls[0], ls[1..]);
      assert AmbiguousAt(vs[1..], ls[1..], k - 1);
      var rest := Reread(vs[1..], ls[1..], k - 1);
      ws := [vs[0]] + rest;
      assert ws[1..] == rest;
    } else {
      ws := RereadFirst(vs, ls);
    }
  }

  lemma RereadFirst(vs: seq<string>, ls: seq<string>) returns (ws: seq<string>)
    requires |vs| == |ls| + 1 && AreLabels(ls) && ls != [] && AmbiguousAt(vs, ls, 0)
    ensures |ws| == |vs| && ws != vs && Joined(ws, ls) == Joined(vs, ls)
  {
    var l := ls[0];
    assert IsLabel(l);
    if Contains(vs[0], l) {
      var a, b := SplitAt(vs[0], l);
      ws := [a, b + l + vs[1]] + vs[2..];
      Regroup(a, l, b, vs[1], vs, ws, ls);
      assert |ws[0]| < |vs[0]|;
    } else {
      var a, b := SplitAt(vs[1], l);
      ws := [vs[0] + l + a, b] + vs[2..];
      Regroup(vs[0], l, a, b, ws, vs, ls);
      assert |ws[0]| > |vs[0]|;
    }
  }

  // What follows the second value.
  ghost function AfterTwo(vs: seq<string>, ls: seq<string>): string
    requires |vs| == |ls| + 1 && ls != []
  {
    if |ls| == 1 then "" else ls[1] + Joined(vs[2..], ls[2..])
  }

  lemma JoinedTwo(vs: seq<string>, ls: seq<string>)
    requires |vs| == |ls| + 1 && ls != []
    ensures Joined(vs, ls) == vs[0] + ls[0] + (vs[1] + AfterTwo(vs, ls))
  {
    if |ls| == 1 {
      assert vs[1] + "" == vs[1];
    } else {
      assert vs[1..][1..] == vs[2..] && ls[1..][1..] == ls[2..];
      assert vs[1] + ls[1] + Joined(vs[2..], ls[2..]) == vs[1] + (ls[1] + Joined(vs[2..], ls[2..]));
    }
  }

  lemma Associate(a: string, l: string, b: string, c: string, rest: string)
    ensures (a + l + b) + l + (c + rest) == a + l + ((b + l + c) + rest)
  {
  }

  // One value a + l + b before c, or a before b + l + c.
  lemma Regroup(a: string, l: string, b: string, c: string, vs: seq<string>, ws: seq<string>, ls: seq<string>)
    requires |vs| == |ls| + 1 && |ws| == |vs| && ls != [] && ls[0] == l && vs[2..] == ws[2..]
    requires vs[0] == a + l + b && vs[1] == c && ws[0] == a && ws[1] == b + l + c
    ensures Joined(vs, ls) == Joined(ws, ls)
  {
    JoinedTwo(vs, ls);
    JoinedTwo(ws, ls);
    Associate(a, l, b, c, AfterTwo(vs, ls));
  }

  // ---- Customers ----------------------------------------------------------------------------------------

  ghost function Labels(): seq<string> {
    ["|last_name=", "|email=", "|phone=", "|company="]
  }

  ghost function Values(c: Customer): seq<string> {
    [c.firstName, c.lastName, c.email, c.phone, c.company]
  }

  lemma LabelsAreLabels()
    ensures AreLabels(Labels())
  {
    var ls := Labels();
    assert ls[0][1] == 'l' && ls[1][1] == 'e' && ls[2][1] == 'p' && ls[3][1] == 'c';
  }

  // One field in front of the text of the fields after it.
  lemma FieldJoins(tag: string, value: string, mark: string, next: string, rest: string)
    requires mark == "|" + next
    ensures tag + value + "|" + (next + rest) == tag + (value + mark + rest)
  {
    assert tag + value + "|" + (next + rest) == tag + value + ("|" + next) + rest;
    assert tag + value + mark + rest == tag + (value + mark + rest);
  }

  lemma JoinedFive(c: Customer)
    ensures var ls := Labels();
            Joined(Values(c), ls) ==
            c.firstName + ls[0] + (c.lastName + ls[1] + (c.email + ls[2] + (c.phone + ls[3] + c.company)))
  {
    var ls := Labels();
    assert Joined([c.phone, c.company], [ls[3]]) == c.phone + ls[3] + c.company;
    assert Joined([c.email, c.phone, c.company], [ls[2], ls[3]]) == c.email + ls[2] + (c.phone + ls[3] + c.company);
  }

  lemma FingerprintJoins(c: Customer)
    ensures Fingerprint(c) == "first_name=" + Joined(Values(c), Labels())
  {
    var ls := Labels();
    JoinedFive(c);
    assert ls[3] == "|" + "company=" && ls[2] == "|" + "phone=" && ls[1] == "|" + "email=" &&
           ls[0] == "|" + "last_name=";
    var j3 := c.phone + ls[3] + c.company;
    var j2 := c.email + ls[2] + j3;
    var j1 := c.lastName + ls[1] + j2;
    FieldJoins("phone=", c.phone, ls[3], "company=", c.company);
    FieldJoins("email=", c.email, ls[2], "phone=", j3);
    FieldJoins("last_name=", c.lastName, ls[1], "email=", j2);
    FieldJoins("first_name=", c.firstName, ls[0], "last_name=", j1);
  }

  // A value of the customer contains the label before or after it.
  ghost predicate Confusable(c: Customer) {
    Ambiguous(Values(c), Labels())
  }

  lemma SharedTextConfuses(c: Customer, d: Customer)
    requires Fingerprint(c) == Fingerprint(d) && c != d
    ensures Confusable(c)
  {
    var p, vs, ws := "first_name=", Joined(Values(c), Labels()), Joined(Values(d), Labels());
    FingerprintJoins(c);
    FingerprintJoins(d);
    assert vs == (p + vs)[|p|..] && ws == (p + ws)[|p|..];
    LabelsAreLabels();
    TwoReadings(Values(c), Values(d), Labels());
    assert Values(c)[0] == c.firstName && Values(c)[1] == c.lastName && Values(c)[2] == c.email;
    assert Values(c)[3] == c.phone && Values(c)[4] == c.company;
  }

  lemma ConfusableShares(c: Customer) returns (d: Customer)
    requires Confusable(c)
    ensures d != c && Fingerprint(d) == Fingerprint(c)
  {
    LabelsAreLabels();
    var k :| 0 <= k < |Labels()| && AmbiguousAt(Values(c), Labels(), k);
    var ws := Reread(Values(c), Labels(), k);
    d := Customer(ws[0], ws[1], ws[2], ws[3], ws[4]);
    assert Values(d) == ws;
    FingerprintJoins(c);
    FingerprintJoins(d);
  }

  // Another customer has the same fingerprint if and only if a value contains the label next to it.
  lemma FingerprintSharedExactly(c: Customer)
    ensures (exists d :: d != c && Fingerprint(d) == Fingerprint(c)) <==> Confusable(c)
  {
    if d :| d != c && Fingerprint(d) == Fingerprint(c) {
      SharedTextConfuses(c, d);
    }
    if Confusable(c) {
      var d := ConfusableShares(c);
    }
  }
}
