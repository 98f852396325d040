// Text order (the order SQLite and Python give to plain strings) and the decimal
// rendering of recurring task ids.
module Text {

  predicate Less(a: string, b: string)
    decreases |a|
  {
    b != [] && (a == [] || a[0] < b[0] || (a[0] == b[0] && Less(a[1..], b[1..])))
  }

  lemma {:induction false} LessTotal(a: string, b: string)
    ensures Less(a, b) || a == b || Less(b, a)
    decreases |a|
  {
    if a != [] && b != [] && a[0] == b[0] {
      LessTotal(a[1..], b[1..]);
      assert a == [a[0]] + a[1..] && b == [b[0]] + b[1..];
    }
  }

  lemma {:induction false} LessAsymmetric(a: string, b: string)
    requires Less(a, b)
    ensures !Less(b, a) && a != b
    decreases |a|
  {
    if a != [] && a[0] == b[0] {
      LessAsymmetric(a[1..], b[1..]);
    }
  }

  lemma {:induction false} LessTransitive(a: string, b: string, c: string)
    requires Less(a, b) && Less(b, c)
    ensures Less(a, c)
    decreases |a|
  {
    if a != [] && a[0] == b[0] && b[0] == c[0] {
      LessTransitive(a[1..], b[1..], c[1..]);
    }
  }

  lemma DiffersLater(a: string, b: string, m: nat)
    requires a != [] && b != [] && a[0] == b[0]
    ensures DiffersAt(a, b, m + 1) <==> DiffersAt(a[1..], b[1..], m)
  {
    if m + 1 <= |a| && m + 1 < |b| {
      assert a[..m + 1] == [a[0]] + a[1..][..m] && b[..m + 1] == [b[0]] + b[1..][..m];
      assert a[..m + 1][1..] == a[1..][..m] && b[..m + 1][1..] == b[1..][..m];
    }
  }

  /** The texts agree up to n, and there the first ends or has the smaller character. */
  predicate LessAt(a: string, b: string, n: nat) { DiffersAt(a, b, n) && (n == |a| || a[n] < b[n]) }

  lemma {:induction false} LessFound(a: string, b: string) returns (n: nat)
    requires Less(a, b)
    ensures LessAt(a, b, n)
    decreases |a|
  {
    n := 0;
    if a != [] && a[0] == b[0] {
      var m := LessFound(a[1..], b[1..]);
      DiffersLater(a, b, m);
      n := m + 1;
    }
  }

  lemma {:induction false} LessShown(a: string, b: string, n: nat)
    requires LessAt(a, b, n)
    ensures Less(a, b)
    decreases n
  {
    if n > 0 {
      assert a[..n][0] == b[..n][0];
      var m: nat := n - 1;
      DiffersLater(a, b, m);
      LessShown(a[1..], b[1..], m);
    }
  }

  /** The first place where two texts differ decides; a proper prefix comes first. */
  lemma {:induction false} LessExactly(a: string, b: string)
    ensures Less(a, b) <==> exists n: nat :: n <= |a| && n < |b| && a[..n] == b[..n] && (n == |a| || a[n] < b[n])
  {
    if Less(a, b) {
      var n := LessFound(a, b);
      assert LessAt(a, b, n);
    }
    if n: nat :| n <= |a| && n < |b| && a[..n] == b[..n] && (n == |a| || a[n] < b[n]) {
      LessShown(a, b, n);
    }
  }

  /** The two agree up to n, and b goes on there. */
  predicate DiffersAt(a: string, b: string, n: nat) { n <= |a| && n < |b| && a[..n] == b[..n] }

  // ----- decimal numbers -----

  const DIGITS: string := "0123456789"

  function Digit(d: nat): char
    requires d < 10
  {
    DIGITS[d]
  }

  function Decimal(n: nat): string {
    if n < 10 then [Digit(n)] else Decimal(n / 10) + [Digit(n % 10)]
  }

  function Zeros(n: nat): string { seq(n, _ => '0') }

  /** Zero padding to six digits; longer numbers keep all their digits. */
  function SixDigits(n: nat): string {
    var d := Decimal(n);
    if |d| < 6 then Zeros(6 - |d|) + d else d
  }

  function DigitValue(c: char): nat { if '0' <= c <= '9' then (c - '0') as nat else 0 }

  function Parse(s: string): nat {
    if s == [] then 0 else Parse(s[..|s| - 1]) * 10 + DigitValue(s[|s| - 1])
  }

  lemma {:induction false} ParseDecimal(n: nat)
    ensures Parse(Decimal(n)) == n
    ensures '-' !in Decimal(n) && Decimal(n) != []
  {
    if n >= 10 {
      ParseDecimal(n / 10);
      var d := Decimal(n);
      assert d[..|d| - 1] == Decimal(n / 10);
    } else {
      assert Decimal(n)[..0] == [];
    }
  }

  lemma {:induction false} ParseZeros(k: nat, s: string)
    ensures Parse(Zeros(k) + s) == Parse(s)
    decreases |s|, k
  {
    var t := Zeros(k) + s;
    if s != [] {
      assert t[..|t| - 1] == Zeros(k) + s[..|s| - 1];
      ParseZeros(k, s[..|s| - 1]);
    } else if k > 0 {
      assert t[..|t| - 1] == Zeros(k - 1) + s;
      ParseZeros(k - 1, s);
    }
  }

  lemma SixDigitsReadsBack(n: nat)
    ensures Parse(SixDigits(n)) == n
    ensures '-' !in SixDigits(n)
  {
    ParseDecimal(n);
    if |Decimal(n)| < 6 {
      ParseZeros(6 - |Decimal(n)|, Decimal(n));
    }
  }

  // ----- recurring task ids -----

  const PREFIX: string := "recurring-"

  function TaskId(template: string, sequence: nat): string {
    PREFIX + template + "-" + SixDigits(sequence)
  }

  lemma DashPosition(a: string, x: string)
    requires '-' !in x
    ensures var s := a + "-" + x; s[|a|] == '-' && forall i | |a| < i < |s| :: s[i] != '-'
  {
    var s := a + "-" + x;
    assert forall i | |a| < i < |s| :: s[i] == x[i - |a| - 1];
  }

  /** The last dash separates template and sequence, so dashes and digits in templates do no harm. */
  lemma LastDash(a: string, b: string, x: string, y: string)
    requires a + "-" + x == b + "-" + y && '-' !in x && '-' !in y
    ensures a == b && x == y
  {
    DashPosition(a, x);
    DashPosition(b, y);
    var s := a + "-" + x;
    assert |a| == |b|;
    assert a == s[..|a|] && b == s[..|a|];
    assert x == s[|a| + 1..] && y == s[|a| + 1..];
  }

  /** A task id determines its template and its sequence, for sequences of any length. */
  lemma TaskIdInjective(t1: string, n1: nat, t2: string, n2: nat)
    requires TaskId(t1, n1) == TaskId(t2, n2)
    ensures t1 == t2 && n1 == n2
  {
    SixDigitsReadsBack(n1);
    SixDigitsReadsBack(n2);
    assert PREFIX + t1 + "-" + SixDigits(n1) == (PREFIX + t1) + "-" + SixDigits(n1);
    LastDash(PREFIX + t1, PREFIX + t2, SixDigits(n1), SixDigits(n2));
    assert t1 == (PREFIX + t1)[|PREFIX|..] && t2 == (PREFIX + t2)[|PREFIX|..];
  }

  /** Six digits up to 999999, exactly the usual decimal form beyond. */
  lemma SixDigitsShape(n: nat)
    ensures |SixDigits(n)| >= 6
    ensures n >= 1_000_000 ==> SixDigits(n) == Decimal(n)
  {
    if n >= 1_000_000 {
      DecimalLength(n, 6);
    }
  }

  lemma {:induction false} DecimalLength(n: nat, k: nat)
    requires n >= Power10(k)
    ensures |Decimal(n)| > k
    decreases k
  {
    if k > 0 {
      assert Power10(k) == 10 * Power10(k - 1);
      DecimalLength(n / 10, k - 1);
    }
  }

  function Power10(k: nat): nat { if k == 0 then 1 else 10 * Power10(k - 1) }
}
