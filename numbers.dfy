/**
 * The part of Python's `float(str)` that statement amounts go through, and the
 * thousands-separated rendering M-Pesa statements use for amounts.
 */
module Numbers {
  import opened Wrappers
  import opened Strings

  /** What `float(...)` produces: a finite value or NaN. */
  datatype Float = NaN | Finite(x: real)

  predicate IsDigit(c: char) {
    '0' <= c <= '9'
  }

  predicate AllDigits(s: string) {
    forall i :: 0 <= i < |s| ==> IsDigit(s[i])
  }

  function Pow10(n: nat): (r: nat)
    ensures r >= 1
  {
    if n == 0 then 1 else 10 * Pow10(n - 1)
  }

  /** The value of a string of decimal digits, most significant first. */
  function DigitsValue(s: string): nat
    requires AllDigits(s)
  {
    if s == [] then 0 else DigitsValue(s[..|s| - 1]) * 10 + (s[|s| - 1] as int - '0' as int)
  }

  /** The position of the first `c` in `s`, or `|s|` when there is none. */
  function IndexOf(s: string, c: char): (k: nat)
    ensures k <= |s|
    ensures k < |s| ==> s[k] == c
    ensures c !in s[..k]
  {
    if s == [] then 0
    else if s[0] == c then 0
    else
      var k := 1 + IndexOf(s[1..], c);
      assert s[..k] == [s[0]] + s[1..][..k - 1];
      k
  }

  /** The value of the numeral `whole.frac`. */
  function Decimal(whole: string, frac: string): real
    requires AllDigits(whole) && AllDigits(frac)
  {
    DigitsValue(whole) as real + Shift(DigitsValue(frac), |frac|)
  }

  /** `n` moved `k` decimal places to the right of the point: n / 10^k. */
  function Shift(n: nat, k: nat): real {
    if k == 0 then n as real else Shift(n, k - 1) / 10.0
  }

  /** An unsigned decimal numeral: digits with at most one '.', and at least one digit. */
  function ParseUnsigned(b: string): Option<real> {
    var k := IndexOf(b, '.');
    if k == |b| then
      if b != [] && AllDigits(b) then Some(DigitsValue(b) as real) else None
    else
      var whole, frac := b[..k], b[k + 1..];
      if AllDigits(whole) && AllDigits(frac) && |whole| + |frac| > 0 then
        Some(Decimal(whole, frac))
      else None
  }

  /**
   * `float(s)`: surrounding white space is ignored, "nan" in any case gives NaN,
   * and a signed decimal numeral gives its value; anything else is a ValueError (None).
   */
  function ParseFloat(s: string): Option<Float> {
    var t := Strip(s);
    var l := Lower(t);
    if l == "nan" || l == "+nan" || l == "-nan" then Some(NaN)
    else if t != [] && (t[0] == '+' || t[0] == '-') then
      match ParseUnsigned(t[1..])
      case Some(v) => Some(Finite(if t[0] == '-' then -v else v))
      case None => None
    else
      match ParseUnsigned(t)
      case Some(v) => Some(Finite(v))
      case None => None
  }

  /** A numeral with no sign, point or blank, such as "0" or "2500", parses to its value. */
  lemma ParseDigits(s: string)
    requires s != [] && AllDigits(s)
    ensures ParseFloat(s) == Some(Finite(DigitsValue(s) as real))
  {
    ParseFloatPlain(s);
    assert IndexOf(s, '.') == |s|;
  }

  /** `float("nan")` is NaN. */
  lemma NanLiteral()
    ensures ParseFloat("nan") == Some(NaN)
  {
    StripStripped("nan");
    var l := Lower("nan");
    assert l[0] == 'n' && l[1] == 'a' && l[2] == 'n';
    assert l == "nan";
  }

  /** `float("0")` is 0.0. */
  lemma ZeroLiteral()
    ensures ParseFloat("0") == Some(Finite(0.0))
  {
    ParseDigits("0");
    assert DigitsValue("0") == DigitsValue("") * 10 + 0;
  }

  /** A text that starts with a digit and ends in no blank is parsed as an unsigned numeral. */
  lemma ParseFloatPlain(u: string)
    requires u != [] && IsDigit(u[0]) && !IsSpace(u[|u| - 1])
    ensures ParseFloat(u) == if ParseUnsigned(u).Some? then Some(Finite(ParseUnsigned(u).value)) else None
  {
    StripStripped(u);
    var l := Lower(u);
    assert l[0] == u[0];
    assert l[0] != 'n' && l[0] != '+' && l[0] != '-';
    assert "nan"[0] == 'n' && "+nan"[0] == '+' && "-nan"[0] == '-';
  }

  function Digit(d: nat): (c: char)
    requires d < 10
    ensures IsDigit(c) && c as int - '0' as int == d
  {
    ('0' as int + d) as char
  }

  /** `str(n)` for a natural number. */
  function Digits(n: nat): (s: string)
    ensures s != [] && AllDigits(s)
    ensures DigitsValue(s) == n
  {
    if n < 10 then
      assert DigitsValue([Digit(n)]) == DigitsValue([]) * 10 + n;
      [Digit(n)]
    else
      var s := Digits(n / 10) + [Digit(n % 10)];
      assert s[..|s| - 1] == Digits(n / 10);
      s
  }

  /** `n` written with exactly `width` digits, padded with leading zeros. */
  function Pad(n: nat, width: nat): (s: string)
    requires n < Pow10(width)
    ensures |s| == width && AllDigits(s)
    ensures DigitsValue(s) == n
  {
    if width == 0 then []
    else
      var s := Pad(n / 10, width - 1) + [Digit(n % 10)];
      assert s[..|s| - 1] == Pad(n / 10, width - 1);
      s
  }

  /** `n` with a comma between every group of three digits, as in "12,345,678". */
  function Grouped(n: nat): string {
    if n < 1000 then Digits(n) else Grouped(n / 1000) + "," + Pad(n % 1000, 3)
  }

  /** An amount in cents as a number of shillings. */
  function InShillings(cents: nat): real {
    cents as real / 100.0
  }

  /** An amount in cents as a statement prints it: "1,234.50". */
  function Shillings(cents: nat): (s: string)
    ensures |s| >= 3
  {
    Grouped(cents / 100) + "." + Pad(cents % 100, 2)
  }

  lemma {:induction false} DigitsValueAppend(a: string, b: string)
    requires AllDigits(a) && AllDigits(b)
    ensures AllDigits(a + b)
    ensures DigitsValue(a + b) == DigitsValue(a) * Pow10(|b|) + DigitsValue(b)
  {
    if b == [] {
      assert a + b == a;
    } else {
      var b' := b[..|b| - 1];
      assert (a + b)[..|a + b| - 1] == a + b';
      assert (a + b)[|a + b| - 1] == b[|b| - 1];
      DigitsValueAppend(a, b');
      var x, y, p, c := DigitsValue(a), DigitsValue(b'), Pow10(|b'|), b[|b| - 1] as int - '0' as int;
      assert DigitsValue(a + b) == (x * p + y) * 10 + c;
      assert DigitsValue(b) == y * 10 + c;
      assert Pow10(|b|) == p * 10;
      ShiftDistributes(x, y, p, c);
    }
  }

  lemma ShiftDistributes(x: int, y: int, p: int, c: int)
    ensures (x * p + y) * 10 + c == x * (p * 10) + (y * 10 + c)
  {
  }

  /** Stripping the separators from a grouped numeral leaves the plain digits of the same number. */
  lemma {:induction false} UngroupedValue(n: nat)
    ensures AllDigits(RemoveCommas(Grouped(n))) && RemoveCommas(Grouped(n)) != []
    ensures DigitsValue(RemoveCommas(Grouped(n))) == n
  {
    if n >= 1000 {
      var hi, lo := n / 1000, n % 1000;
      var g, p := Grouped(hi), Pad(lo, 3);
      assert Grouped(n) == g + "," + p;
      RemoveCommasAppend(g + ",", p);
      RemoveCommasAppend(g, ",");
      assert RemoveCommas(",") == [];
      assert RemoveCommas(p) == p;
      var rg := RemoveCommas(g);
      assert RemoveCommas(Grouped(n)) == rg + p;
      UngroupedValue(hi);
      DigitsValueAppend(rg, p);
      assert Pow10(|p|) == 1000;
      assert DigitsValue(rg + p) == hi * 1000 + lo;
    } else {
      assert RemoveCommas(Grouped(n)) == Digits(n);
    }
  }

  /** In "digits.rest" the first '.' is the one after the digits. */
  lemma IndexOfPoint(d: string, p: string)
    requires AllDigits(d)
    ensures IndexOf(d + "." + p, '.') == |d|
  {
    var u := d + "." + p;
    assert u[|d|] == '.';
  }

  /** "digits.digits" is an unsigned numeral with that decimal value. */
  lemma {:induction false} UnsignedPointNumeral(d: string, p: string)
    requires d != [] && AllDigits(d) && AllDigits(p)
    ensures ParseUnsigned(d + "." + p) == Some(Decimal(d, p))
  {
    var u := d + "." + p;
    IndexOfPoint(d, p);
    assert u[..|d|] == d;
    assert u[|d| + 1..] == p;
  }

  /** A numeral "digits.digits" parses to its decimal value. */
  lemma {:induction false} ParsePointNumeral(d: string, p: string)
    requires d != [] && AllDigits(d) && AllDigits(p)
    ensures ParseFloat(d + "." + p) == Some(Finite(Decimal(d, p)))
  {
    var u := d + "." + p;
    assert u[0] == d[0];
    assert !IsSpace(u[|u| - 1]) by {
      if p == [] {
        assert u[|u| - 1] == '.';
      } else {
        assert u[|u| - 1] == p[|p| - 1];
        assert IsDigit(p[|p| - 1]);
      }
    }
    ParseFloatPlain(u);
    UnsignedPointNumeral(d, p);
  }

  /**
   * The coercion path of an amount cell, `float(s.replace(',', ''))`, reads a
   * statement amount such as "1,234.50" back as the number of shillings it shows.
   */
  lemma {:induction false} ParseShillings(cents: nat)
    ensures ParseFloat(RemoveCommas(Shillings(cents))) == Some(Finite(InShillings(cents)))
  {
    UngroupedPoint(cents / 100, Pad(cents % 100, 2));
    ParseUngroupedPoint(cents);
  }

  /** The numeral left once the separators are gone parses to the amount. */
  lemma {:induction false} ParseUngroupedPoint(cents: nat)
    ensures ParseFloat(RemoveCommas(Grouped(cents / 100)) + "." + Pad(cents % 100, 2)) == Some(Finite(InShillings(cents)))
  {
    var d, p := RemoveCommas(Grouped(cents / 100)), Pad(cents % 100, 2);
    UngroupedValue(cents / 100);
    ParsePointNumeral(d, p);
    DecimalCents(cents, d, p);
  }

  /**
   * Whole shillings followed by two digits of cents make the amount in cents
   * over 100 (stated on `Float`, the form in which a parse returns it).
   */
  lemma {:induction false} DecimalCents(cents: nat, d: string, p: string)
    requires AllDigits(d) && AllDigits(p) && |p| == 2
    requires DigitsValue(d) == cents / 100 && DigitsValue(p) == cents % 100
    ensures Finite(Decimal(d, p)) == Finite(InShillings(cents))
  {
    var w, f := cents / 100, cents % 100;
    assert Shift(f, 2) == f as real / 100.0 by {
      assert Shift(f, 1) == f as real / 10.0;
    }
    assert Decimal(d, p) == w as real + f as real / 100.0;
    assert cents == w * 100 + f;
    assert InShillings(cents) == (w * 100 + f) as real / 100.0;
  }

  /** Removing the separators from "grouped.digits" leaves "digits.digits". */
  lemma {:induction false} UngroupedPoint(w: nat, p: string)
    requires AllDigits(p)
    ensures RemoveCommas(Grouped(w) + "." + p) == RemoveCommas(Grouped(w)) + "." + p
  {
    var g := Grouped(w);
    RemoveCommasAppend(g + ".", p);
    RemoveCommasAppend(g, ".");
    assert RemoveCommas(".") == ".";
    assert RemoveCommas(p) == p;
  }
}
