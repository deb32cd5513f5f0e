/**
 * Token amounts as decimal text: viem's `parseUnits(text, decimals)` and
 * `formatUnits(value, decimals)`, which convert between a decimal numeral
 * and an integer count of the token's smallest unit (`value / 10^decimals`
 * whole tokens), and the five-decimal rounding `Number(x).toFixed(5)` the
 * liquidity form applies to a computed amount.
 */
module Units {
  import opened Common
  import opened JsNumber

  function Pow10(n: nat): (r: nat)
    ensures r >= 1
  {
    if n == 0 then 1 else 10 * Pow10(n - 1)
  }

  lemma {:induction false} Pow10Add(a: nat, b: nat)
    ensures Pow10(a + b) == Pow10(a) * Pow10(b)
  {
    if b > 0 {
      Pow10Add(a, b - 1);
      assert Pow10(a + b) == 10 * Pow10(a + (b - 1));
      assert Pow10(b) == 10 * Pow10(b - 1);
    }
  }

  lemma Pow10Sum(a: nat, b: nat, c: nat)
    requires a + b == c
    ensures Pow10(c) == Pow10(a) * Pow10(b)
  {
    Pow10Add(a, b);
  }

  /** The last `n` decimal digits of `x`, zero-padded on the left (`padStart(n, "0")`). */
  function Digits(x: nat, n: nat): (r: string)
    ensures |r| == n && AllDigits(r)
  {
    if n == 0 then "" else Digits(x / 10, n - 1) + [DigitChar(x % 10)]
  }

  lemma {:induction false} DigitsValue(x: nat, n: nat)
    requires x < Pow10(n)
    ensures DecimalValue(Digits(x, n)) == x
  {
    if n > 0 {
      var q, u := DivTen(x, Pow10(n - 1));
      var s := Digits(x, n);
      assert s == Digits(q, n - 1) + [DigitChar(u)];
      assert s[..n - 1] == Digits(q, n - 1);
      DigitsValue(q, n - 1);
    }
  }

  /** `x` as its last decimal digit and the rest, which is below `p` when `x` is below `10 * p`. */
  lemma DivTen(x: nat, p: nat) returns (q: nat, u: nat)
    requires x < 10 * p
    ensures q == x / 10 && u == x % 10 && u < 10 && x == q * 10 + u && q < p
  {
    q, u := x / 10, x % 10;
  }

  /** `.replace(/(0+)$/, "")`: the trailing zeros removed. */
  function StripZeros(s: string): (r: string)
    ensures |r| <= |s| && r == s[..|r|]
    ensures |r| > 0 ==> r[|r| - 1] != '0'
    ensures forall i :: |r| <= i < |s| ==> s[i] == '0'
  {
    if |s| > 0 && s[|s| - 1] == '0' then StripZeros(s[..|s| - 1]) else s
  }

  lemma {:induction false} StripZerosValue(s: string)
    requires AllDigits(s)
    ensures DecimalValue(StripZeros(s)) * Pow10(|s| - |StripZeros(s)|) == DecimalValue(s)
  {
    if |s| > 0 && s[|s| - 1] == '0' {
      var t := s[..|s| - 1];
      var r := StripZeros(t);
      StripZerosValue(t);
      assert Pow10(|s| - |r|) == 10 * Pow10(|t| - |r|);
      assert DecimalValue(s) == DecimalValue(t) * 10;
      MulTen(DecimalValue(r), Pow10(|t| - |r|));
    }
  }

  lemma MulTen(a: nat, b: nat)
    ensures a * (10 * b) == (a * b) * 10
  {
  }

  /** A numeral whose last digit is not 0 has a positive value. */
  lemma LastDigitPositive(s: string)
    requires AllDigits(s) && |s| > 0 && s[|s| - 1] != '0'
    ensures DecimalValue(s) > 0
  {
  }

  /**
   * `formatUnits(value, decimals)`: the sign, the whole part (at least
   * `"0"`), and the fraction digits without trailing zeros after a `.` when
   * any remain.
   */
  function FormatUnits(v: int, decimals: nat): (r: string)
    ensures |r| > 0 && r[|r| - 1] != '.'
    ensures v >= 0 ==> r[0] != '-'
  {
    var m: nat := if v < 0 then -v else v;
    var P := Pow10(decimals);
    DivMod(m, P);
    var ds := Digits(m % P, decimals);
    var f := StripZeros(ds);
    assert |f| > 0 ==> f[|f| - 1] == ds[|f| - 1];
    var w := NatToString(m / P);
    var sw := (if v < 0 then "-" else "") + w;
    assert sw[|sw| - 1] == w[|w| - 1];
    Point(f, sw)
  }

  lemma DivMod(m: nat, P: nat)
    requires P >= 1
    ensures 0 <= m / P && 0 <= m % P < P && m == m / P * P + m % P
  {
  }

  /** The whole part `w`, then `.` and the fraction digits `f` unless there are none. */
  function Point(f: string, w: string): (r: string)
    requires |w| > 0 && w[|w| - 1] != '.'
    requires |f| > 0 ==> f[|f| - 1] != '.'
    ensures |r| > 0 && r[|r| - 1] != '.' && r[0] == w[0]
  {
    if f == "" then w else w + "." + f
  }

  /**
   * The fraction digits `f` of a numeral as units of `10^-decimals`: digits
   * beyond `decimals` are rounded half up at the first dropped digit.
   */
  function FracUnits(f: string, decimals: nat): (r: nat)
    requires AllDigits(f)
    ensures |f| <= decimals ==> r == DecimalValue(f) * Pow10(decimals - |f|)
  {
    var k := Min(decimals, |f|);
    assert AllDigits(f[..k]);
    assert |f| <= decimals ==> f[..k] == f;
    DecimalValue(f[..k]) * Pow10(decimals - k) + (if DigitAt(f, decimals) >= 5 then 1 else 0)
  }

  /**
   * `parseUnits(text, decimals)`: text of the form `-?[0-9]*\.?[0-9]*`
   * (anything else throws, here `None`); the magnitude is rounded half up
   * to `decimals` places and the sign applied. With no decimals, a lone
   * minus sign and no digit that rounds up leaves `BigInt("-")`, which
   * throws too.
   */
  function ParseUnits(v: string, decimals: nat): (r: Option<int>)
    ensures r.Some? && (|v| == 0 || v[0] != '-') ==> r.value >= 0
  {
    var neg := |v| > 0 && v[0] == '-';
    var body := if neg then v[1..] else v;
    var parts := SplitAt(body, '.');
    var frac := OptionOr(parts.1, "");
    if !AllDigits(parts.0) || !AllDigits(frac) then None
    else if neg && decimals == 0 && parts.0 == "" && DigitAt(frac, 0) < 5 then None
    else
      var m := DecimalValue(parts.0) * Pow10(decimals) + FracUnits(frac, decimals);
      Some(if neg then -m else m)
  }

  // ---------------------------------------------------------------------
  // Reading back rendered amounts.

  lemma NatToStringPlain(n: nat)
    ensures '.' !in NatToString(n) && NatToString(n)[0] != '-' && AllDigits(NatToString(n))
  {
  }

  /** The fraction part `formatUnits` renders is worth the remainder it came from. */
  lemma FractionValue(x: nat, k: nat)
    requires x < Pow10(k)
    ensures DecimalValue(StripZeros(Digits(x, k))) * Pow10(k - |StripZeros(Digits(x, k))|) == x
  {
    var s := Digits(x, k);
    DigitsValue(x, k);
    StripZerosValue(s);
  }

  lemma FractionEmpty(x: nat, k: nat)
    requires x < Pow10(k)
    ensures StripZeros(Digits(x, k)) == "" <==> x == 0
  {
    var f := StripZeros(Digits(x, k));
    FractionValue(x, k);
    FractionDigits(x, k);
    if f != "" {
      LastDigitPositive(f);
      PositiveProduct(DecimalValue(f), Pow10(k - |f|));
    }
  }

  lemma FractionDigits(x: nat, k: nat)
    ensures AllDigits(StripZeros(Digits(x, k)))
  {
    var s := Digits(x, k);
    var f := StripZeros(s);
    forall i | 0 <= i < |f| ensures IsDigit(f[i]) { assert f[i] == s[i]; }
  }

  lemma PositiveProduct(a: nat, b: nat)
    requires a > 0 && b > 0
    ensures a * b > 0
  {
  }

  /**
   * `parseUnits(formatUnits(v, k), d)` is `v` scaled from `k` to `d`
   * decimals: rendering loses nothing, and reading with as many or more
   * decimals never rounds.
   */
  lemma FormatThenParse(v: int, k: nat, d: nat)
    requires k <= d
    ensures ParseUnits(FormatUnits(v, k), d) == Some(v * Pow10(d - k))
  {
    var w, x, f := FormatParts(v, k);
    var ws := NatToString(w);
    NatToStringPlain(w);
    DecimalValueOfNatToString(w);
    var M := Rescale(v, k, d, w, x, DecimalValue(f), |f|);
    ParsePoint(v < 0, ws, f, d, FormatUnits(v, k), M);
  }

  /** The value `w.f` rendered for `v` with `k` decimals, counted with `d >= k` decimals, is `v` scaled up. */
  lemma Rescale(v: int, k: nat, d: nat, w: nat, x: nat, F: nat, lf: nat) returns (M: int)
    requires lf <= k <= d
    requires (if v < 0 then -v else v) == w * Pow10(k) + x && F * Pow10(k - lf) == x
    ensures M == w * Pow10(d) + F * Pow10(d - lf)
    ensures (if v < 0 then -M else M) == v * Pow10(d - k)
  {
    Pow10Sum(d - k, k, d);
    Pow10Sum(d - k, k - lf, d - lf);
    M := w * Pow10(d) + F * Pow10(d - lf);
    Assemble(v, if v < 0 then -v else v, w, x, w, F,
             Pow10(d), Pow10(d - lf), Pow10(d - k), Pow10(k), Pow10(k - lf), M);
  }

  /** `formatUnits(v, k)` taken apart: the whole part `w` and the fraction digits `f` worth the remainder `x`. */
  lemma FormatParts(v: int, k: nat) returns (w: nat, x: nat, f: string)
    ensures (if v < 0 then -v else v) == w * Pow10(k) + x
    ensures AllDigits(f) && |f| <= k && DecimalValue(f) * Pow10(k - |f|) == x
    ensures |f| > 0 ==> f[|f| - 1] != '.'
    ensures var sw := (if v < 0 then "-" else "") + NatToString(w);
      sw[|sw| - 1] == NatToString(w)[|NatToString(w)| - 1] && FormatUnits(v, k) == Point(f, sw)
  {
    var m: nat := if v < 0 then -v else v;
    var P := Pow10(k);
    DivMod(m, P);
    w, x := m / P, m % P;
    f := StripZeros(Digits(x, k));
    var ws := NatToString(w);
    var sw := (if v < 0 then "-" else "") + ws;
    assert sw[|sw| - 1] == ws[|ws| - 1];
    FractionValue(x, k);
    FractionDigits(x, k);
  }

  /** The arithmetic of `FormatThenParse`: `|v| == w * A + x` read back with `Q` more places. */
  lemma Assemble(v: int, m: nat, w: nat, x: nat, W: nat, F: nat, Pd: nat, Pf: nat, Q: nat, A: nat, B: nat, M: int)
    requires m == (if v < 0 then -v else v) && m == w * A + x && F * B == x && W == w
    requires Pd == Q * A && Pf == Q * B && M == W * Pd + F * Pf
    ensures (if v < 0 then -M else M) == v * Q
  {
    calc {
      W * Pd + F * Pf;
      w * (Q * A) + F * (Q * B);
      (w * A) * Q + (F * B) * Q;
      (w * A + x) * Q;
      m * Q;
    }
  }

  /** Reading a rendered sign, whole part and fraction of at most `d` digits with `d` decimals. */
  lemma ParsePoint(neg: bool, w: string, f: string, d: nat, text: string, m: int)
    requires AllDigits(w) && |w| > 0 && AllDigits(f) && |f| <= d
    requires |f| > 0 ==> f[|f| - 1] != '.'
    requires var sw := (if neg then "-" else "") + w;
      sw[|sw| - 1] == w[|w| - 1] && text == Point(f, sw)
    requires m == DecimalValue(w) * Pow10(d) + DecimalValue(f) * Pow10(d - |f|)
    ensures ParseUnits(text, d) == Some(if neg then -m else m)
  {
    var body := if f == "" then w else w + ['.'] + f;
    assert '.' !in w;
    if neg {
      assert text[1..] == body;
    } else {
      assert text == body;
    }
    if f == "" {
      SplitAtNone(w);
    } else {
      SplitAtFirst(w, '.', f);
    }
  }

  /** A plain numeral is read as that many whole tokens. */
  lemma ParseUnitsOfDigits(v: string, decimals: nat)
    requires AllDigits(v)
    ensures ParseUnits(v, decimals) == Some(DecimalValue(v) * Pow10(decimals))
  {
    assert '.' !in v && (|v| == 0 || v[0] != '-');
    SplitAtNone(v);
  }

  lemma SplitAtNone(s: string)
    requires '.' !in s
    ensures SplitAt(s, '.') == (s, None)
  {
  }

  // ---------------------------------------------------------------------
  // Five-decimal rounding.

  /**
   * `Number(formatUnits(m, decimals)).toFixed(5)` as units of `10^-5`: the
   * nearest five-decimal value, ties away from zero.
   */
  function Round5(m: nat, decimals: nat): (r: nat)
  {
    if decimals <= 5 then m * Pow10(5 - decimals) else RoundDiv(m, Pow10(decimals - 5))
  }

  /** `m / P` rounded half up: within half a step of the exact quotient. */
  function RoundDiv(m: nat, P: nat): (r: nat)
    requires P >= 1
    ensures (2 * r - 1) * P <= 2 * m < (2 * r + 1) * P
  {
    DivMod(m, P);
    var q, rem := m / P, m % P;
    RoundBounds(m, P, q, rem);
    q + (if 2 * rem >= P then 1 else 0)
  }

  lemma RoundBounds(m: nat, P: nat, q: nat, rem: nat)
    requires P >= 1 && m == q * P + rem && rem < P
    ensures var r := q + (if 2 * rem >= P then 1 else 0);
      (2 * r - 1) * P <= 2 * m < (2 * r + 1) * P
  {
    var r := q + (if 2 * rem >= P then 1 else 0);
    assert (2 * r - 1) * P == 2 * (r * P) - P;
    assert (2 * r + 1) * P == 2 * (r * P) + P;
    if 2 * rem >= P {
      assert r * P == q * P + P;
    }
  }
}
