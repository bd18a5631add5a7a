/**
 The ids the simulated providers hand out (internal/simulator/store.go): a counter, written in
 decimal, padded to six digits. Byte order of the ids is the order they were generated in, as long
 as the counter keeps its number of digits.
 */
module RecordIds {
  import opened ByteOrder
  import opened Backoff

  function Digit(d: nat): char
    requires d < 10
  {
    ('0' as int + d) as char
  }

  // Decimal digits without leading zeros; nothing at all for zero.
  function Decimal(n: nat): string {
    if n == 0 then "" else Decimal(n / 10) + [Digit(n % 10)]
  }

  // What itoa returns. The least int64 has no opposite, and only its sign is written.
  function ItoaOf(n: int): string {
    if n == 0 then "0"
    else if n > 0 then Decimal(n)
    else if n == -TWO_63 then "-"
    else "-" + Decimal(-n)
  }

  function PadOf(n: int): string {
    var s := ItoaOf(n);
    if |s| < 6 then "00000000000000000000"[..6 - |s|] + s else s
  }

  // ---- Widths -----------------------------------------------------------------------------------------------

  function Pow10(n: nat): (p: int)
    ensures p >= 1
  {
    if n == 0 then 1 else 10 * Pow10(n - 1)
  }

  // A number has w digits exactly when it lies between two powers of ten.
  lemma {:induction false} WidthExactly(n: nat, w: nat)
    requires n > 0
    ensures |Decimal(n)| >= 1
    ensures |Decimal(n)| == w <==> w >= 1 && Pow10(w - 1) <= n < Pow10(w)
    decreases n
  {
    if n >= 10 {
      WidthExactly(n / 10, if w >= 1 then w - 1 else 0);
      if w >= 2 { assert Pow10(w) == 10 * Pow10(w - 1) && Pow10(w - 1) == 10 * Pow10(w - 2); }
      if w == 1 { assert Pow10(1) == 10; }
    } else {
      assert Decimal(n / 10) == "";
      if w >= 2 { Pow10Monotone(1, w - 1); }
    }
  }

  lemma {:induction false} Pow10Monotone(m: nat, n: nat)
    requires m <= n
    ensures Pow10(m) <= Pow10(n)
    decreases n
  {
    if m < n { Pow10Monotone(m, n - 1); }
  }

  lemma {:induction false} Pow10Adds(m: nat, n: nat)
    ensures Pow10(m + n) == Pow10(m) * Pow10(n)
    decreases n
  {
    if n > 0 {
      Pow10Adds(m, n - 1);
      assert Pow10(m + n) == 10 * Pow10(m + n - 1);
    }
  }

  lemma Pow10Product(m: nat, n: nat, p: int, q: int)
    requires Pow10(m) == p && Pow10(n) == q
    ensures Pow10(m + n) == p * q
  {
    Pow10Adds(m, n);
  }

  lemma Pow10At19()
    ensures Pow10(19) > TWO_63
  {
    assert Pow10(3) == 1000 && Pow10(4) == 10_000;
    Pow10Product(4, 4, 10_000, 10_000);
    Pow10Product(8, 8, 100_000_000, 100_000_000);
    Pow10Product(16, 3, 10_000_000_000_000_000, 1000);
  }

  // Every positive int64 fits in nineteen digits, so with its sign it fits the buffer.
  lemma Int64Width(n: int)
    requires 0 < n < TWO_63
    ensures 1 <= |Decimal(n)| <= 19
  {
    var w := |Decimal(n)|;
    WidthExactly(n, w);
    Pow10At19();
    Pow10AtLeast(19, w);
  }

  lemma Pow10AtLeast(m: nat, w: nat)
    ensures w > m ==> Pow10(w - 1) >= Pow10(m)
  {
    if w > m { Pow10Monotone(m, w - 1); }
  }

  // ---- The conversion -----------------------------------------------------------------------------------------

  // Fills the buffer with the digits of n from the right; i is where they start.
  method FillDigits(buf: array<char>, n0: int) returns (i: nat)
    requires buf.Length == 20 && (n0 > 0 ==> |Decimal(n0)| <= 19)
    modifies buf
    ensures i <= 20 && buf[i..] == (if n0 > 0 then Decimal(n0) else "")
  {
    var n := n0;
    i := 20;
    while n > 0
      invariant i <= 20 && (n0 <= 0 ==> n == n0 && i == 20)
      invariant n0 > 0 ==> n >= 0 && Decimal(n) + buf[i..] == Decimal(n0)
    {
      assert |Decimal(n)| >= 1 && |Decimal(n) + buf[i..]| == |Decimal(n0)|;
      ghost var tail := buf[i..];
      i := i - 1;
      buf[i] := Digit(n % 10);
      assert buf[i..] == [Digit(n % 10)] + tail;
      assert Decimal(n / 10) + ([Digit(n % 10)] + tail) == Decimal(n) + tail;
      n := n / 10;
    }
  }

  // Converts through a twenty byte buffer.
  method Itoa(n0: int) returns (s: string)
    requires Int64(n0)
    ensures s == ItoaOf(n0)
  {
    if n0 == 0 { return "0"; }
    var n, neg := n0, n0 < 0;
    if neg { n := Wrap(-n); }
    if n > 0 { Int64Width(n); }
    var buf := new char[20];
    var i := FillDigits(buf, n);
    if neg {
      ghost var tail := buf[i..];
      i := i - 1;
      buf[i] := '-';
      assert buf[i..] == "-" + tail;
    }
    return buf[i..];
  }

  method Pad(n: int) returns (s: string)
    requires Int64(n)
    ensures s == PadOf(n)
  {
    s := Itoa(n);
    if |s| < 6 { s := "00000000000000000000"[..6 - |s|] + s; }
  }

  // ---- Order --------------------------------------------------------------------------------------------------

  // The last w digits of n, leading zeros included.
  function Fixed(n: nat, w: nat): string
    decreases w
  {
    if w == 0 then "" else Fixed(n / 10, w - 1) + [Digit(n % 10)]
  }

  lemma {:induction false} FixedLength(n: nat, w: nat)
    ensures |Fixed(n, w)| == w
    decreases w
  {
    if w > 0 { FixedLength(n / 10, w - 1); }
  }

  // Strings of equal length compare by their first difference, whatever follows.
  lemma {:induction false} LessAppend(a: string, b: string, x: string, y: string)
    requires |a| == |b| && Less(a, b)
    ensures Less(a + x, b + y)
    decreases |a|
  {
    assert (a + x)[0] == a[0] && (b + y)[0] == b[0];
    if a[0] == b[0] {
      LessAppend(a[1..], b[1..], x, y);
      assert (a + x)[1..] == a[1..] + x && (b + y)[1..] == b[1..] + y;
    }
  }

  lemma {:induction false} FixedOrder(a: nat, b: nat, w: nat)
    requires a < b < Pow10(w)
    ensures Less(Fixed(a, w), Fixed(b, w))
    decreases w
  {
    var p, q := Fixed(a / 10, w - 1), Fixed(b / 10, w - 1);
    FixedLength(a / 10, w - 1);
    FixedLength(b / 10, w - 1);
    if a / 10 < b / 10 {
      FixedOrder(a / 10, b / 10, w - 1);
      LessAppend(p, q, [Digit(a % 10)], [Digit(b % 10)]);
    } else {
      LessPrefix(p, [Digit(a % 10)], [Digit(b % 10)]);
    }
  }

  function Zeros(n: nat): string {
    if n == 0 then "" else ['0'] + Zeros(n - 1)
  }

  lemma {:induction false} ZerosSnoc(n: nat)
    ensures Zeros(n + 1) == Zeros(n) + ['0']
  {
    if n > 0 {
      ZerosSnoc(n - 1);
      assert Zeros(n + 1) == ['0'] + (Zeros(n - 1) + ['0']);
    }
  }

  // Padding a number to w digits writes its last w digits.
  lemma {:induction false} PaddedIsFixed(n: nat, w: nat)
    requires |Decimal(n)| <= w
    ensures Zeros(w - |Decimal(n)|) + Decimal(n) == Fixed(n, w)
    decreases w
  {
    if w > 0 {
      if n == 0 {
        PaddedIsFixed(0, w - 1);
        ZerosSnoc(w - 1);
        assert Fixed(0, w - 1) == Zeros(w - 1) + "";
      } else {
        PaddedIsFixed(n / 10, w - 1);
        var z := Zeros(w - |Decimal(n)|);
        assert z + (Decimal(n / 10) + [Digit(n % 10)]) == (z + Decimal(n / 10)) + [Digit(n % 10)];
      }
    }
  }

  function DigitsOf(n: nat): nat {
    if |Decimal(n)| < 6 then 6 else |Decimal(n)|
  }

  lemma PadIsFixed(n: nat)
    requires n > 0
    ensures PadOf(n) == Fixed(n, DigitsOf(n)) && n < Pow10(DigitsOf(n))
  {
    var w := |Decimal(n)|;
    WidthExactly(n, w);
    PaddedIsFixed(n, DigitsOf(n));
    Pow10Monotone(w, DigitsOf(n));
    if w < 6 { ZeroPrefix(6 - w); } else { assert Zeros(0) + Decimal(n) == Decimal(n); }
  }

  lemma ZeroPrefix(k: nat)
    requires k <= 6
    ensures "00000000000000000000"[..k] == Zeros(k)
  {
    AllZeros(k);
    assert forall i :: 0 <= i < 20 ==> "00000000000000000000"[i] == '0';
  }

  lemma {:induction false} AllZeros(k: nat)
    ensures |Zeros(k)| == k && forall i :: 0 <= i < k ==> Zeros(k)[i] == '0'
  {
    if k > 0 { AllZeros(k - 1); }
  }

  // Ids of equal width are in order, and all ids below one million have six digits.
  lemma SameWidthOrdered(prefix: string, a: nat, b: nat)
    requires 0 < a < b && DigitsOf(a) == DigitsOf(b)
    ensures Less(prefix + PadOf(a), prefix + PadOf(b))
  {
    PadIsFixed(a);
    PadIsFixed(b);
    FixedOrder(a, b, DigitsOf(b));
    LessPrefix(prefix, PadOf(a), PadOf(b));
  }

  lemma BelowMillion(n: nat)
    requires 0 < n
    ensures DigitsOf(n) == 6 <==> n < Pow10(6)
  {
    var w := |Decimal(n)|;
    WidthExactly(n, w);
    if w <= 6 { Pow10Monotone(w, 6); } else { Pow10Monotone(6, w - 1); }
  }

  lemma OrderedBelowMillion(prefix: string, a: nat, b: nat)
    requires 0 < a < b < Pow10(6)
    ensures Less(prefix + PadOf(a), prefix + PadOf(b))
  {
    BelowMillion(a);
    BelowMillion(b);
    SameWidthOrdered(prefix, a, b);
  }

  // The next id is in order exactly when it does not start a new, seventh or later, digit.
  lemma NextIdOrderedExactly(prefix: string, n: nat)
    requires n > 0
    ensures Less(prefix + PadOf(n), prefix + PadOf(n + 1)) <==> DigitsOf(n + 1) == DigitsOf(n)
  {
    if DigitsOf(n + 1) == DigitsOf(n) {
      SameWidthOrdered(prefix, n, n + 1);
    } else {
      NewDigitBreaksOrder(n);
      LessPrefix(prefix, PadOf(n + 1), PadOf(n));
      LessAsymmetric(prefix + PadOf(n + 1), prefix + PadOf(n));
    }
  }

  // A longer id starts with a smaller digit: 10...0 sorts before 9...9.
  lemma NewDigitBreaksOrder(n: nat)
    requires n > 0 && DigitsOf(n + 1) != DigitsOf(n)
    ensures Less(PadOf(n + 1), PadOf(n))
  {
    var w := |Decimal(n)|;
    WidthExactly(n, w);
    WidthExactly(n + 1, |Decimal(n + 1)|);
    WidthExactly(n + 1, w);
    assert n + 1 >= Pow10(w) && n + 1 == Pow10(w);
    WidthExactly(n + 1, w + 1);
    Leading(n, w);
    Leading(n + 1, w + 1);
    assert Pow10(w) / Pow10(w) == 1;
    NineLeads(n, w);
  }

  // The first digit.
  lemma {:induction false} Leading(n: nat, w: nat)
    requires w >= 1 && n > 0 && |Decimal(n)| == w && Pow10(w - 1) <= n < Pow10(w)
    ensures n == Pow10(w - 1) ==> Decimal(n)[0] == '1'
    ensures n == Pow10(w) - 1 ==> Decimal(n)[0] == '9'
    decreases w
  {
    if w > 1 {
      WidthExactly(n / 10, w - 1);
      assert Pow10(w) == 10 * Pow10(w - 1) && Pow10(w - 1) == 10 * Pow10(w - 2);
      Leading(n / 10, w - 1);
      assert Decimal(n)[0] == Decimal(n / 10)[0];
    } else {
      assert Pow10(1) == 10 && Decimal(n / 10) == "";
    }
  }

  lemma NineLeads(n: nat, w: nat)
    requires w >= 6 && |Decimal(n)| == w && n > 0 && Decimal(n)[0] == '9' && |Decimal(n + 1)| == w + 1 &&
             Decimal(n + 1)[0] == '1'
    ensures Less(PadOf(n + 1), PadOf(n))
  {
  }
}
