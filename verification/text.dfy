/**
  * Python string behaviour the service relies on: the ordering of `str`
  * (used by the Firestore date filters), splitting at a separator, and
  * zero-padded decimal fields (what `strftime` writes and `strptime` reads).
  */
module Text {

  /** Python's `a < b` on `str`: lexicographic by code point; a proper prefix is smaller. */
  predicate Less(a: string, b: string)
    decreases |a|
  {
    if |b| == 0 then false
    else if |a| == 0 then true
    else if a[0] != b[0] then a[0] < b[0]
    else Less(a[1..], b[1..])
  }

  /** Python's `a <= b` on `str`. */
  predicate LessEq(a: string, b: string) {
    a == b || Less(a, b)
  }

  lemma {:induction false} LessIrreflexive(a: string)
    ensures !Less(a, a)
    decreases |a|
  {
    if |a| > 0 {
      LessIrreflexive(a[1..]);
    }
  }

  /** Comparing two strings that start with prefixes of equal length: the prefixes decide, unless they are equal. */
  lemma {:induction false} LessAppend(p: string, x: string, q: string, y: string)
    requires |p| == |q|
    ensures Less(p + x, q + y) <==> Less(p, q) || (p == q && Less(x, y))
    decreases |p|
  {
    if |p| == 0 {
      assert p + x == x && q + y == y;
    } else {
      assert (p + x)[0] == p[0] && (q + y)[0] == q[0];
      assert (p + x)[1..] == p[1..] + x && (q + y)[1..] == q[1..] + y;
      if p[0] == q[0] {
        LessAppend(p[1..], x, q[1..], y);
        assert p == q <==> p[1..] == q[1..] by {
          if p[1..] == q[1..] {
            assert p == [p[0]] + p[1..] && q == [q[0]] + q[1..];
          }
        }
      }
    }
  }

  predicate IsDigit(c: char) {
    '0' <= c <= '9'
  }

  predicate AllDigits(s: string) {
    forall i :: 0 <= i < |s| ==> IsDigit(s[i])
  }

  function Pow10(k: nat): (p: nat)
    ensures p >= 1
  {
    if k == 0 then 1 else 10 * Pow10(k - 1)
  }

  /** The decimal value of a string of ASCII digits, as Python's `int` reads it. */
  function DigitsValue(s: string): (n: nat)
    requires AllDigits(s)
    ensures n < Pow10(|s|)
  {
    if |s| == 0 then 0
    else 10 * DigitsValue(s[..|s| - 1]) + (s[|s| - 1] as int - '0' as int)
  }

  function DigitChar(d: nat): (c: char)
    requires d < 10
    ensures IsDigit(c) && c as int - '0' as int == d
  {
    ('0' as int + d) as char
  }

  /** The last `width` decimal digits of `n`, zero-padded: `'%0*d' % (width, n)` when `n < 10^width`. */
  function Pad(n: nat, width: nat): (s: string)
    ensures |s| == width && AllDigits(s)
  {
    if width == 0 then "" else Pad(n / 10, width - 1) + [DigitChar(n % 10)]
  }

  lemma DivTen(n: nat, w: nat)
    requires w >= 1 && n < Pow10(w)
    ensures n / 10 < Pow10(w - 1)
    ensures n == 10 * (n / 10) + n % 10
  {
  }

  lemma DivModOrder(n: nat, m: nat)
    ensures n < m <==> n / 10 < m / 10 || (n / 10 == m / 10 && n % 10 < m % 10)
  {
    assert n == 10 * (n / 10) + n % 10;
    assert m == 10 * (m / 10) + m % 10;
  }

  /** Reading back a padded field gives the number that was written. */
  lemma {:induction false} PadValue(n: nat, w: nat)
    requires n < Pow10(w)
    ensures DigitsValue(Pad(n, w)) == n
  {
    if w > 0 {
      DivTen(n, w);
      PadValue(n / 10, w - 1);
      var s := Pad(n, w);
      assert s[..|s| - 1] == Pad(n / 10, w - 1);
    }
  }

  /** A string of digits is the padded form of its own value: padding loses nothing. */
  lemma {:induction false} PadOfValue(s: string)
    requires AllDigits(s)
    ensures Pad(DigitsValue(s), |s|) == s
  {
    if |s| > 0 {
      var init := s[..|s| - 1];
      var d := s[|s| - 1] as int - '0' as int;
      PadOfValue(init);
      var v := DigitsValue(s);
      assert v == 10 * DigitsValue(init) + d;
      assert v / 10 == DigitsValue(init) && v % 10 == d;
      assert DigitChar(d) == s[|s| - 1];
      assert s == init + [s[|s| - 1]];
    }
  }

  /** For fields of one width, string order is numeric order. */
  lemma {:induction false} PadOrder(n: nat, m: nat, w: nat)
    requires n < Pow10(w) && m < Pow10(w)
    ensures Less(Pad(n, w), Pad(m, w)) <==> n < m
    decreases w
  {
    if w == 0 {
      LessIrreflexive("");
    } else {
      DivTen(n, w);
      DivTen(m, w);
      PadOrder(n / 10, m / 10, w - 1);
      PadOrder(m / 10, n / 10, w - 1);
      var p, q := Pad(n / 10, w - 1), Pad(m / 10, w - 1);
      var c, d := DigitChar(n % 10), DigitChar(m % 10);
      LessAppend(p, [c], q, [d]);
      if p == q {
        LessIrreflexive(p);
      }
      assert Less([c], [d]) <==> c < d;
      DivModOrder(n, m);
    }
  }

  /** Different numbers below `10^width` have different padded forms. */
  lemma PadInjective(n: nat, m: nat, w: nat)
    requires n < Pow10(w) && m < Pow10(w) && Pad(n, w) == Pad(m, w)
    ensures n == m
  {
    PadValue(n, w);
    PadValue(m, w);
  }

  /** `str(n)` for a natural number: its decimal digits, without leading zeros. */
  function Decimal(n: nat): (s: string)
    ensures |s| >= 1 && AllDigits(s)
  {
    if n < 10 then [DigitChar(n)] else Decimal(n / 10) + [DigitChar(n % 10)]
  }

  /** `int(str(n)) == n`. */
  lemma {:induction false} DecimalValue(n: nat)
    ensures DigitsValue(Decimal(n)) == n
  {
    if n >= 10 {
      DecimalValue(n / 10);
      var s := Decimal(n);
      assert s[..|s| - 1] == Decimal(n / 10);
    }
  }

  /** Different numbers print differently. */
  lemma DecimalInjective(n: nat, m: nat)
    requires Decimal(n) == Decimal(m)
    ensures n == m
  {
    DecimalValue(n);
    DecimalValue(m);
  }

  /** `sep.join(parts)`. */
  function Join(parts: seq<string>, sep: char): string
    requires |parts| >= 1
  {
    if |parts| == 1 then parts[0] else parts[0] + [sep] + Join(parts[1..], sep)
  }

  /** `s.split(sep)`: the pieces between separators, which joined again give back `s`. */
  function Split(s: string, sep: char): (parts: seq<string>)
    ensures |parts| >= 1
    ensures forall i :: 0 <= i < |parts| ==> sep !in parts[i]
    ensures Join(parts, sep) == s
    decreases |s|
  {
    if |s| == 0 then [""]
    else
      var rest := Split(s[1..], sep);
      if s[0] == sep then
        assert ([""] + rest)[1..] == rest;
        [""] + rest
      else
        assert s == [s[0]] + s[1..];
        assert ([[s[0]] + rest[0]] + rest[1..])[1..] == rest[1..];
        [[s[0]] + rest[0]] + rest[1..]
  }

  /** Splitting undoes joining when no piece contains the separator. */
  lemma {:induction false} SplitJoin(parts: seq<string>, sep: char)
    requires |parts| >= 1
    requires forall i :: 0 <= i < |parts| ==> sep !in parts[i]
    ensures Split(Join(parts, sep), sep) == parts
    decreases |parts|
  {
    if |parts| == 1 {
      SplitPlain(parts[0], sep);
    } else {
      SplitJoin(parts[1..], sep);
      SplitAfterPlain(parts[0], Join(parts[1..], sep), sep);
    }
  }

  lemma {:induction false} SplitPlain(a: string, sep: char)
    requires sep !in a
    ensures Split(a, sep) == [a]
    decreases |a|
  {
    if |a| > 0 {
      SplitPlain(a[1..], sep);
      assert [a[0]] + a[1..] == a;
    }
  }

  lemma {:induction false} SplitAfterPlain(a: string, b: string, sep: char)
    requires sep !in a
    ensures Split(a + [sep] + b, sep) == [a] + Split(b, sep)
    decreases |a|
  {
    if |a| == 0 {
      assert a + [sep] + b == [sep] + b;
      assert ([sep] + b)[1..] == b;
    } else {
      var s := a + [sep] + b;
      assert s[0] == a[0] && s[1..] == a[1..] + [sep] + b;
      SplitAfterPlain(a[1..], b, sep);
      assert [a[0]] + a[1..] == a;
    }
  }

  /** Splitting three separator-free pieces joined by the separator gives them back. */
  lemma SplitThree(a: string, b: string, c: string, sep: char)
    requires sep !in a && sep !in b && sep !in c
    ensures Split(a + [sep] + (b + [sep] + c), sep) == [a, b, c]
  {
    SplitPlain(c, sep);
    SplitAfterPlain(b, c, sep);
    SplitAfterPlain(a, b + [sep] + c, sep);
  }

  /** Three fields joined by '-', the first two of equal widths, compare field by field. */
  lemma LessFields(a1: string, a2: string, a3: string, b1: string, b2: string, b3: string)
    requires |a1| == |b1| && |a2| == |b2|
    ensures Less(a1 + "-" + a2 + "-" + a3, b1 + "-" + b2 + "-" + b3)
        <==> Less(a1, b1) || (a1 == b1 && (Less(a2, b2) || (a2 == b2 && Less(a3, b3))))
  {
    assert a1 + "-" + a2 + "-" + a3 == a1 + ("-" + (a2 + ("-" + a3)));
    assert b1 + "-" + b2 + "-" + b3 == b1 + ("-" + (b2 + ("-" + b3)));
    LessAppend(a1, "-" + (a2 + ("-" + a3)), b1, "-" + (b2 + ("-" + b3)));
    LessAppend("-", a2 + ("-" + a3), "-", b2 + ("-" + b3));
    LessAppend(a2, "-" + a3, b2, "-" + b3);
    LessAppend("-", a3, "-", b3);
    LessIrreflexive("-");
  }
}
