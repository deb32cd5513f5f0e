/**
 * JavaScript's `Number(text)` on plain decimal text, and the two roundings
 * the input handlers apply to it: `toFixed(2)` and `Math.floor`. A parsed
 * number keeps its sign, its integer part and its fraction digits, so no
 * floating point is needed; `None` stands for `NaN`.
 */
module JsNumber {
  import opened Common

  datatype Decimal = Decimal(neg: bool, whole: nat, frac: string)

  predicate AllDigits(s: string) { forall i :: 0 <= i < |s| ==> IsDigit(s[i]) }

  /** The text before the first `c`, and the text after it when there is one. */
  function SplitAt(s: string, c: char): (r: (string, Option<string>))
    ensures r.1.None? ==> r.0 == s && c !in s
    ensures r.1.Some? ==> s == r.0 + [c] + r.1.value && c !in r.0
  {
    if |s| == 0 then ("", None)
    else if s[0] == c then ("", Some(s[1..]))
    else
      var rest := SplitAt(s[1..], c);
      assert rest.1.Some? ==> s == [s[0]] + rest.0 + [c] + rest.1.value;
      ([s[0]] + rest.0, rest.1)
  }

  /** `s.replace(c, d)` with a one-character pattern: only the first `c` is replaced. */
  function ReplaceFirst(s: string, c: char, d: char): (r: string)
    ensures |r| == |s|
    ensures c !in s ==> r == s
  {
    var parts := SplitAt(s, c);
    if parts.1.None? then s else parts.0 + [d] + parts.1.value
  }

  /**
   * `Number(s)`: surrounding whitespace is ignored, blank text is 0, and
   * otherwise an optional sign, digits, and an optional `.` with digits,
   * with at least one digit in all.
   */
  function Number(s: string): (r: Option<Decimal>)
    ensures r.Some? ==> AllDigits(r.value.frac)
    ensures Trim(s) == "" ==> r == Some(Decimal(false, 0, ""))
  {
    var t := Trim(s);
    if t == "" then Some(Decimal(false, 0, ""))
    else
      var body := if t[0] == '-' || t[0] == '+' then t[1..] else t;
      var parts := SplitAt(body, '.');
      var frac := OptionOr(parts.1, "");
      if AllDigits(parts.0) && AllDigits(frac) && |parts.0| + |frac| > 0
      then Some(Decimal(t[0] == '-', DecimalValue(parts.0), frac))
      else None
  }

  function DigitAt(f: string, i: nat): (d: nat)
    ensures d < 10
  {
    if i < |f| && IsDigit(f[i]) then f[i] as int - '0' as int else 0
  }

  predicate FracNonZero(f: string) { exists i :: 0 <= i < |f| && DigitAt(f, i) > 0 }

  /**
   * `x.toFixed(2)` as a count of hundredths: the magnitude is rounded half
   * up at the third fraction digit, the sign kept. Ten times the magnitude
   * lies within half a hundredth (five thousandths) of the number cut to
   * three fraction digits, counted in thousandths, and ties go up.
   */
  function Hundredths(d: Decimal): (h: int)
    ensures d.neg ==> h <= 0
    ensures !d.neg ==> d.whole * 100 <= h <= d.whole * 100 + 100
    ensures var cut := 1000 * d.whole + 100 * DigitAt(d.frac, 0) + 10 * DigitAt(d.frac, 1) + DigitAt(d.frac, 2);
      var mag := if d.neg then -h else h;
      -5 < 10 * mag - cut <= 5
    ensures var t := d.whole * 100 + 10 * DigitAt(d.frac, 0) + DigitAt(d.frac, 1);
      var mag := if d.neg then -h else h;
      t <= mag <= t + 1 && (mag == t + 1 <==> DigitAt(d.frac, 2) >= 5)
    ensures |d.frac| <= 2 ==> h == (if d.neg then -1 else 1) * (d.whole * 100 + 10 * DigitAt(d.frac, 0) + DigitAt(d.frac, 1))
  {
    var m := d.whole * 100 + 10 * DigitAt(d.frac, 0) + DigitAt(d.frac, 1) + (if DigitAt(d.frac, 2) >= 5 then 1 else 0);
    if d.neg then -m else m
  }

  /** `Math.floor(x)`: a negative number with a nonzero fraction goes one further down. */
  function Floor(d: Decimal): (r: int)
    ensures !d.neg ==> r == d.whole
    ensures d.neg ==> r <= 0
    ensures d.neg && (d.whole > 0 || FracNonZero(d.frac)) ==> r < 0
  {
    if !d.neg then d.whole
    else if FracNonZero(d.frac) then -(d.whole as int + 1)
    else -(d.whole as int)
  }

  // ---------------------------------------------------------------------
  // Reading back rendered numbers.

  lemma {:induction false} SplitAtFirst(a: string, c: char, b: string)
    requires c !in a
    ensures SplitAt(a + [c] + b, c) == (a, Some(b))
  {
    if |a| > 0 {
      assert (a + [c] + b)[1..] == a[1..] + [c] + b;
      SplitAtFirst(a[1..], c, b);
      assert [a[0]] + a[1..] == a;
    } else {
      assert a + [c] + b == [c] + b;
    }
  }

  lemma TrimNoSpace(s: string)
    requires |s| > 0 && !IsSpace(s[0]) && !IsSpace(s[|s| - 1])
    ensures Trim(s) == s
  {
    assert TrimStart(s) == s;
  }

  /** `Number(String(n))` is `n`. */
  lemma NumberOfNatToString(n: nat)
    ensures Number(NatToString(n)) == Some(Decimal(false, n, ""))
  {
    var s := NatToString(n);
    TrimNoSpace(s);
    assert '.' !in s;
    DecimalValueOfNatToString(n);
  }

  /** The text of `h` hundredths with two decimals. */
  function Fixed2(h: nat): (r: string)
    ensures |r| >= 4 && r[|r| - 3] == '.'
  {
    NatToString(h / 100) + "." + [DigitChar(h % 100 / 10), DigitChar(h % 10)]
  }

  /** `Number(x.toFixed(2))` gives back the `h` hundredths it was rendered from. */
  lemma NumberOfFixed2(h: nat)
    ensures Number(Fixed2(h)).Some?
    ensures Number(Fixed2(h)).value.neg == false
    ensures Hundredths(Number(Fixed2(h)).value) == h
  {
    var q, t, u := HundredsSplit(h);
    var w, f := NatToString(q), [DigitChar(t), DigitChar(u)];
    assert Fixed2(h) == w + "." + f;
    NumberOfPoint(w, f);
    DecimalValueOfNatToString(q);
    HundredthsOfDigits(q, t, u, h);
  }

  lemma HundredthsOfDigits(q: nat, t: nat, u: nat, h: nat)
    requires t < 10 && u < 10 && h == q * 100 + 10 * t + u
    ensures Hundredths(Decimal(false, q, [DigitChar(t), DigitChar(u)])) == h
  {
    var f := [DigitChar(t), DigitChar(u)];
    assert DigitAt(f, 0) == t;
    assert DigitAt(f, 1) == u;
  }

  /** `Number` of digits, a point and digits: the whole part's value and the fraction digits. */
  lemma NumberOfPoint(w: string, f: string)
    requires |w| > 0 && AllDigits(w) && |f| > 0 && AllDigits(f)
    ensures Number(w + "." + f) == Some(Decimal(false, DecimalValue(w), f))
  {
    var s := w + "." + f;
    assert s == w + ['.'] + f;
    assert s[0] == w[0] && s[|s| - 1] == f[|f| - 1];
    TrimNoSpace(s);
    assert '.' !in w;
    SplitAtFirst(w, '.', f);
    NumberUnsigned(s, w, Some(f));
  }

  /** `Number` of trimmed, unsigned text that splits at its first `.` into digits. */
  lemma NumberUnsigned(s: string, w: string, f: Option<string>)
    requires |s| > 0 && Trim(s) == s && s[0] != '-' && s[0] != '+' && SplitAt(s, '.') == (w, f)
    requires AllDigits(w) && AllDigits(OptionOr(f, "")) && |w| + |OptionOr(f, "")| > 0
    ensures Number(s) == Some(Decimal(false, DecimalValue(w), OptionOr(f, "")))
  {
  }

  /** `h` as its hundreds, tens digit and units digit. */
  lemma HundredsSplit(h: nat) returns (q: nat, t: nat, u: nat)
    ensures q == h / 100 && t == h % 100 / 10 && u == h % 10
    ensures t < 10 && u < 10 && h == q * 100 + 10 * t + u
  {
    q, t, u := h / 100, h % 100 / 10, h % 10;
  }
}
