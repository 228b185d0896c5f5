/**
 * The portal's dates are `YYYY-MM-DD` strings and the configured window
 * bounds are written the same way. This module shows that Python's string
 * comparison on such strings is exactly the calendar order, which is what
 * makes the slot selector's lexical window test a date test.
 */
module IsoDate {
  import opened LexOrder

  predicate IsDigit(c: char) {
    '0' <= c <= '9'
  }

  predicate AllDigits(s: string) {
    forall i :: 0 <= i < |s| ==> IsDigit(s[i])
  }

  function Pow10(n: nat): nat {
    if n == 0 then 1 else 10 * Pow10(n - 1)
  }

  /** The decimal number a digit string spells, most significant digit first. */
  function Value(s: string): nat
    requires AllDigits(s)
    decreases |s|
  {
    if |s| == 0 then 0 else (s[0] as int - '0' as int) * Pow10(|s| - 1) + Value(s[1..])
  }

  predicate IsIsoDate(s: string) {
    && |s| == 10
    && AllDigits(s[..4]) && s[4] == '-'
    && AllDigits(s[5..7]) && s[7] == '-'
    && AllDigits(s[8..])
  }

  function Year(s: string): nat requires IsIsoDate(s) { Value(s[..4]) }
  function Month(s: string): nat requires IsIsoDate(s) { Value(s[5..7]) }
  function Day(s: string): nat requires IsIsoDate(s) { Value(s[8..]) }

  /** Chronological order: by year, then month, then day, as numbers. */
  predicate CalendarLe(a: string, b: string)
    requires IsIsoDate(a) && IsIsoDate(b)
  {
    || Year(a) < Year(b)
    || (Year(a) == Year(b) && (Month(a) < Month(b) || (Month(a) == Month(b) && Day(a) <= Day(b))))
  }

  lemma {:induction false} ValueBelowPow10(s: string)
    requires AllDigits(s)
    ensures Value(s) < Pow10(|s|)
    decreases |s|
  {
    if |s| > 0 {
      ValueBelowPow10(s[1..]);
      var d := s[0] as int - '0' as int;
      var p := Pow10(|s| - 1);
      assert d * p <= 9 * p by {
        assert d <= 9;
      }
    }
  }

  /** A smaller leading digit decides the comparison whatever follows it. */
  lemma LeadingDigitDominates(da: int, db: int, p: int, va: int, vb: int)
    requires 0 <= da < db && 0 <= va < p && 0 <= vb
    ensures da * p + va < db * p + vb
  {
    assert (da + 1) * p <= db * p by {
      assert da + 1 <= db;
      assert 0 <= p;
    }
    assert (da + 1) * p == da * p + p;
  }

  /** On digit strings of one length, string order is numeric order. */
  lemma {:induction false} DigitsLexIsNumeric(a: string, b: string)
    requires AllDigits(a) && AllDigits(b) && |a| == |b|
    ensures LexLe(a, b) <==> Value(a) <= Value(b)
    ensures a == b <==> Value(a) == Value(b)
    decreases |a|
  {
    if |a| > 0 {
      var da, db := a[0] as int - '0' as int, b[0] as int - '0' as int;
      var p := Pow10(|a| - 1);
      assert AllDigits(a[1..]) && AllDigits(b[1..]);
      assert Value(a) == da * p + Value(a[1..]);
      assert Value(b) == db * p + Value(b[1..]);
      ValueBelowPow10(a[1..]);
      ValueBelowPow10(b[1..]);
      if da < db {
        LeadingDigitDominates(da, db, p, Value(a[1..]), Value(b[1..]));
      } else if da > db {
        LeadingDigitDominates(db, da, p, Value(b[1..]), Value(a[1..]));
      } else {
        DigitsLexIsNumeric(a[1..], b[1..]);
        assert a == [a[0]] + a[1..] && b == [b[0]] + b[1..];
      }
    }
  }

  /** Comparing two strings that start with equal-length pieces. */
  lemma {:induction false} LexLeConcat(p: string, r: string, q: string, t: string)
    requires |p| == |q|
    ensures LexLe(p + r, q + t) == if p == q then LexLe(r, t) else LexLe(p, q)
    decreases |p|
  {
    if |p| > 0 {
      assert (p + r)[0] == p[0] && (q + t)[0] == q[0];
      assert p == [p[0]] + p[1..] && q == [q[0]] + q[1..];
      if p[0] != q[0] {
        assert LexLe(p + r, q + t) == (p[0] < q[0]);
        assert LexLe(p, q) == (p[0] < q[0]);
        assert p != q;
      } else {
        assert (p + r)[1..] == p[1..] + r && (q + t)[1..] == q[1..] + t;
        assert LexLe(p + r, q + t) == LexLe(p[1..] + r, q[1..] + t);
        assert LexLe(p, q) == LexLe(p[1..], q[1..]);
        LexLeConcat(p[1..], r, q[1..], t);
        if p[1..] == q[1..] {
          assert p == q;
          assert LexLe(p + r, q + t) == LexLe(r, t);
        } else {
          assert p != q;
          assert LexLe(p + r, q + t) == LexLe(p, q);
        }
      }
    } else {
      assert p + r == r && q + t == t;
    }
  }

  /** For well-formed dates, Python's string `<=` is the calendar order. */
  lemma IsoLexLeIsCalendarLe(a: string, b: string)
    requires IsIsoDate(a) && IsIsoDate(b)
    ensures LexLe(a, b) <==> CalendarLe(a, b)
  {
    DigitsLexIsNumeric(a[..4], b[..4]);
    DigitsLexIsNumeric(a[5..7], b[5..7]);
    DigitsLexIsNumeric(a[8..], b[8..]);
    assert a == a[..4] + a[4..] && b == b[..4] + b[4..];
    LexLeConcat(a[..4], a[4..], b[..4], b[4..]);
    assert a[4..] == a[4..5] + a[5..] && b[4..] == b[4..5] + b[5..];
    LexLeConcat(a[4..5], a[5..], b[4..5], b[5..]);
    assert a[5..] == a[5..7] + a[7..] && b[5..] == b[5..7] + b[7..];
    LexLeConcat(a[5..7], a[7..], b[5..7], b[7..]);
    assert a[7..] == a[7..8] + a[8..] && b[7..] == b[7..8] + b[8..];
    LexLeConcat(a[7..8], a[8..], b[7..8], b[8..]);
    assert a[4..5] == b[4..5] && a[7..8] == b[7..8];
  }
}
