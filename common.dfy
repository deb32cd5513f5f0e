/**
 * Helpers shared by every page and library module of the DEX front end:
 * optional values, per-call multicall statuses, and the few string
 * operations the TypeScript code relies on (`toLowerCase`, `trim`,
 * `includes`, `startsWith`, decimal rendering of chain ids).
 */
module Common {

  datatype Option<T> = None | Some(value: T)

  /** One entry of a multicall answer (`allowFailure: true`). */
  datatype CallResult<T> = Success(value: T) | Failure

  /** Entry `k` of a multicall answer, where a missing entry reads as a failure (`res[k]?.status`). */
  function At<T>(res: seq<CallResult<T>>, k: nat): CallResult<T>
  {
    if k < |res| then res[k] else Failure
  }

  function OptionOr<T>(o: Option<T>, d: T): (r: T)
    ensures o.Some? ==> r == o.value
    ensures o.None? ==> r == d
  {
    match o
    case Some(v) => v
    case None => d
  }

  // ---------------------------------------------------------------------
  // Case folding. Addresses, symbols and queries are compared after
  // `toLowerCase()`; only the ASCII letters are folded here.

  predicate IsUpper(c: char) { 'A' <= c <= 'Z' }

  function LowerChar(c: char): (r: char)
    ensures !IsUpper(r)
    ensures !IsUpper(c) ==> r == c
    ensures IsUpper(c) ==> r as int == c as int + 32
  {
    if IsUpper(c) then (c as int + 32) as char else c
  }

  function Lower(s: string): (r: string)
    ensures |r| == |s|
    ensures forall i :: 0 <= i < |s| ==> r[i] == LowerChar(s[i])
  {
    if s == [] then [] else [LowerChar(s[0])] + Lower(s[1..])
  }

  predicate IsLower(s: string) { forall i :: 0 <= i < |s| ==> !IsUpper(s[i]) }

  lemma LowerIsLower(s: string)
    ensures IsLower(Lower(s))
  {
  }

  lemma LowerOfLower(s: string)
    requires IsLower(s)
    ensures Lower(s) == s
  {
  }

  lemma LowerIdempotent(s: string)
    ensures Lower(Lower(s)) == Lower(s)
  {
    LowerIsLower(s);
    LowerOfLower(Lower(s));
  }

  lemma LowerConcat(a: string, b: string)
    ensures Lower(a + b) == Lower(a) + Lower(b)
  {
  }

  // ---------------------------------------------------------------------
  // Substring search (`String.prototype.includes`) and prefixes.

  function Contains(s: string, t: string): (r: bool)
    ensures |t| == 0 ==> r
    ensures |t| > |s| ==> !r
    decreases |s|
  {
    t <= s || (|s| > 0 && Contains(s[1..], t))
  }

  predicate EndsWith(s: string, t: string) { |t| <= |s| && s[|s| - |t|..] == t }

  // ---------------------------------------------------------------------
  // `trim()`: the white space and line terminators of JavaScript's `\s`
  // class (ECMAScript's WhiteSpace and LineTerminator productions, with the
  // Unicode space separators of category Zs).

  predicate IsSpace(c: char)
  {
    || c == ' ' || c == '\t' || c == '\n' || c == '\r' || c as int == 0x0B || c as int == 0x0C
    || c as int == 0x00A0 || c as int == 0x1680 || 0x2000 <= c as int <= 0x200A
    || c as int == 0x2028 || c as int == 0x2029 || c as int == 0x202F || c as int == 0x205F
    || c as int == 0x3000 || c as int == 0xFEFF
  }

  function TrimStart(s: string): (r: string)
    ensures |r| <= |s| && r == s[|s| - |r|..]
    ensures |r| > 0 ==> !IsSpace(r[0])
    ensures forall i :: 0 <= i < |s| - |r| ==> IsSpace(s[i])
  {
    if |s| > 0 && IsSpace(s[0]) then TrimStart(s[1..]) else s
  }

  function TrimEnd(s: string): (r: string)
    ensures |r| <= |s| && r == s[..|r|]
    ensures |r| > 0 ==> !IsSpace(r[|r| - 1])
    ensures forall i :: |r| <= i < |s| ==> IsSpace(s[i])
  {
    if |s| > 0 && IsSpace(s[|s| - 1]) then TrimEnd(s[..|s| - 1]) else s
  }

  function Trim(s: string): (r: string)
    ensures |r| == 0 <==> forall i :: 0 <= i < |s| ==> IsSpace(s[i])
    ensures |r| > 0 ==> !IsSpace(r[0]) && !IsSpace(r[|r| - 1])
  {
    TrimEnd(TrimStart(s))
  }

  // ---------------------------------------------------------------------
  // Decimal rendering of a chain id (`String(chainId)`, template literals).

  function DigitChar(d: nat): (c: char)
    requires d < 10
    ensures '0' <= c <= '9' && c as int == '0' as int + d
  {
    ('0' as int + d) as char
  }

  function NatToString(n: nat): (r: string)
    ensures |r| > 0
    ensures forall i :: 0 <= i < |r| ==> '0' <= r[i] <= '9'
  {
    if n < 10 then [DigitChar(n)] else NatToString(n / 10) + [DigitChar(n % 10)]
  }

  /** Distinct chain ids render to distinct strings, so keys built from them do not collide. */
  lemma {:induction false} NatToStringInjective(m: nat, n: nat)
    requires NatToString(m) == NatToString(n)
    ensures m == n
  {
    var a, b := NatToString(m), NatToString(n);
    if m >= 10 && n >= 10 {
      assert a[..|a| - 1] == NatToString(m / 10);
      assert b[..|b| - 1] == NatToString(n / 10);
      NatToStringInjective(m / 10, n / 10);
      assert DigitChar(m % 10) == a[|a| - 1] == DigitChar(n % 10);
    }
  }

  predicate IsDigit(c: char) { '0' <= c <= '9' }

  /** The value of a decimal numeral; the empty numeral is 0. */
  function DecimalValue(s: string): nat
    requires forall i :: 0 <= i < |s| ==> IsDigit(s[i])
  {
    if |s| == 0 then 0
    else
      assert IsDigit(s[|s| - 1]);
      DecimalValue(s[..|s| - 1]) * 10 + (s[|s| - 1] as int - '0' as int)
  }

  /** Reading back a rendered number gives the number. */
  lemma {:induction false} DecimalValueOfNatToString(n: nat)
    ensures DecimalValue(NatToString(n)) == n
  {
    var s := NatToString(n);
    if n < 10 {
      assert s[..0] == [];
    } else {
      assert s[..|s| - 1] == NatToString(n / 10);
      DecimalValueOfNatToString(n / 10);
    }
  }

  // ---------------------------------------------------------------------
  // Integer helpers.

  function Min(a: int, b: int): (r: int)
    ensures r <= a && r <= b && (r == a || r == b)
  {
    if a <= b then a else b
  }

  function Max(a: int, b: int): (r: int)
    ensures r >= a && r >= b && (r == a || r == b)
  {
    if a >= b then a else b
  }

  /** `Math.max(lo, Math.min(hi, v))` */
  function Clamp(v: int, lo: int, hi: int): (r: int)
    requires lo <= hi
    ensures lo <= r <= hi
    ensures lo <= v <= hi ==> r == v
    ensures v < lo ==> r == lo
    ensures v > hi ==> r == hi
  {
    Max(lo, Min(hi, v))
  }

  /** BigInt division, which truncates toward zero (Dafny's `/` is Euclidean). */
  function TruncDiv(a: int, b: int): (r: int)
    requires b > 0
    ensures a >= 0 ==> r == a / b
    ensures a < 0 ==> r == -((-a) / b)
  {
    if a >= 0 then a / b else -((-a) / b)
  }

  /** `x * num / den` on `bigint`s that are never negative. */
  function Scaled(x: nat, num: nat, den: nat): nat
    requires den > 0
  {
    NonnegProduct(x, num);
    x * num / den
  }

  lemma NonnegProduct(x: nat, y: nat)
    ensures x * y >= 0
  {
  }

  lemma FloorBounds(n: nat, d: nat)
    requires d > 0
    ensures (n / d) * d <= n < (n / d + 1) * d
  {
  }

  lemma MulBoth(x: int, y: int, k: nat)
    requires x <= y
    ensures x * k <= y * k
  {
  }

  lemma MulBothStrict(x: int, y: int, k: nat)
    requires x < y && k > 0
    ensures x * k < y * k
  {
  }

  lemma MulCancel(x: int, y: int, k: nat)
    requires k > 0 && x * k <= y * k
    ensures x <= y
  {
    if x > y {
      MulBothStrict(y, x, k);
    }
  }

  lemma MulCancelStrict(x: int, y: int, k: nat)
    requires k > 0 && x * k < y * k
    ensures x < y
  {
    if x >= y {
      MulBoth(y, x, k);
    }
  }

  lemma FloorUnique(n: nat, d: nat, q: nat)
    requires d > 0 && q * d <= n < (q + 1) * d
    ensures n / d == q
  {
    FloorBounds(n, d);
    if n / d < q {
      MulBoth(n / d + 1, q, d);
    } else if n / d > q {
      MulBoth(q + 1, n / d, d);
    }
  }

  // ---------------------------------------------------------------------
  // Addresses. viem's `getAddress` maps every spelling of an address to its
  // EIP-55 checksum form; this model uses the lowercase form as that
  // canonical spelling, which identifies the same pairs of strings.

  type Addr = string

  /** `n` zero digits. */
  function Zeros(n: nat): (r: string)
    ensures |r| == n && forall i :: 0 <= i < n ==> r[i] == '0'
  {
    if n == 0 then "" else Zeros(n - 1) + "0"
  }

  /** `0x` followed by 40 zeros. */
  const ZeroAddress: Addr := "0x" + Zeros(40)

  predicate IsHexChar(c: char) { '0' <= c <= '9' || 'a' <= c <= 'f' || 'A' <= c <= 'F' }

  /** `0x` followed by 40 hexadecimal digits. */
  predicate IsAddressText(s: string)
  {
    |s| == 42 && s[0] == '0' && s[1] == 'x' && forall i :: 2 <= i < 42 ==> IsHexChar(s[i])
  }

  /** `asAddr`: empty or invalid text gives no address, anything else its canonical form. */
  function AsAddr(v: string): (r: Option<Addr>)
    ensures r.Some? <==> IsAddressText(v)
    ensures r.Some? ==> r.value == Lower(v) && IsLower(r.value)
  {
    LowerIsLower(v);
    if IsAddressText(v) then Some(Lower(v)) else None
  }

  /** `addrEq`: both present and equal after lowercasing. */
  function AddrEq(a: Option<string>, b: Option<string>): (r: bool)
    ensures r ==> a.Some? && b.Some? && a.value != "" && b.value != ""
    ensures a.Some? && b.Some? && a.value != "" && b.value != "" ==> (r <==> Lower(a.value) == Lower(b.value))
  {
    a.Some? && b.Some? && a.value != "" && b.value != "" && Lower(a.value) == Lower(b.value)
  }

  // ---------------------------------------------------------------------
  // Thrown errors.

  /** What a thrown error carries: `shortMessage` and `message`, either possibly absent. */
  datatype ErrInfo = ErrInfo(shortMessage: Option<string>, message: Option<string>)

  predicate Truthy(s: Option<string>) { s.Some? && s.value != "" }

  /** `a || b || d` over optional strings. */
  function FirstTruthy(a: Option<string>, b: Option<string>, d: string): (r: string)
    ensures Truthy(a) ==> r == a.value
    ensures !Truthy(a) && Truthy(b) ==> r == b.value
    ensures !Truthy(a) && !Truthy(b) ==> r == d
  {
    if Truthy(a) then a.value else if Truthy(b) then b.value else d
  }

  /** `maxUint256` */
  const MaxUint256: nat := 0x1_0000_0000_0000_0000_0000_0000_0000_0000_0000_0000_0000_0000_0000_0000_0000_0000 - 1
}
