/**
 * The add-liquidity page: two amount fields kept in step with the pool's
 * reserves, the approvals of the two tokens to the router, the LP-token
 * estimate, and `addLiquidity`/`addLiquidityETH` with the positions list
 * the page keeps per account and chain.
 *
 * Amounts are decimal text in the fields and integer counts of the
 * token's smallest unit (`bigint`) everywhere else. Slippage is counted in
 * hundredths of a percent. Reads from the chain are parameters; a failed
 * read or a rejected transaction is a value of `Sent`/`Mined`/`Option`.
 */
module Liquidity {
  import opened Common
  import opened Keyed
  import opened JsNumber
  import opened Units

  /** `INPUT_MAX_DP`: at most this many fraction digits are kept while typing. */
  const INPUT_MAX_DP: nat := 18

  // ---------------------------------------------------------------------
  // Amount text.

  predicate NumericChar(c: char) { IsDigit(c) || c == '.' }

  /**
   * `s.replace(/(\..*?)\./g, "$1")`: scanning from the left, a dot and the
   * next dot after it form a pair whose second dot is dropped; the scan
   * goes on after that dot.
   */
  function DropPairedDots(s: string): (r: string)
    ensures forall i :: 0 <= i < |r| ==> r[i] in s
    decreases |s|
  {
    var p := SplitAt(s, '.');
    if p.1.None? then s
    else
      var q := SplitAt(p.1.value, '.');
      if q.1.None? then s
      else
        var rest := DropPairedDots(q.1.value);
        assert s == p.0 + ['.'] + (q.0 + ['.'] + q.1.value);
        assert forall c :: c in rest ==> c in s;
        p.0 + "." + q.0 + rest
  }

  /** Digits and dots only. */
  predicate AllNumeric(t: string) { forall i :: 0 <= i < |t| ==> NumericChar(t[i]) }

  /** The first two steps of `sanitizeLoose`: other characters removed, dots paired off. */
  function Clean(s: string): string
  {
    DropPairedDots(Filter(s, NumericChar))
  }

  /** The last step: the whole part, and a dot with at most 18 digits when the part after the first dot has any. */
  function Shape(clean: string): string
  {
    var p := SplitAt(clean, '.');
    var d := if p.1.None? then "" else SplitAt(p.1.value, '.').0;
    if d != "" then p.0 + "." + d[..Min(INPUT_MAX_DP, |d|)] else p.0
  }

  /** `sanitizeLoose`: text ending in a dot is kept as it is, so the user can go on typing. */
  function SanitizeLoose(s: string): string
  {
    var clean := Clean(s);
    if EndsWith(clean, ".") then clean else Shape(clean)
  }

  /** Text of digits with at most one dot, not at the end, and at most 18 digits after it. */
  predicate Plain(r: string)
  {
    && AllNumeric(r)
    && !EndsWith(r, ".")
    && var p := SplitAt(r, '.');
       p.1.None? || ('.' !in p.1.value && |p.1.value| <= INPUT_MAX_DP)
  }

  lemma CleanNumeric(s: string)
    ensures AllNumeric(Clean(s))
  {
    var f := Filter(s, NumericChar);
    var c := DropPairedDots(f);
    forall i | 0 <= i < |c| ensures NumericChar(c[i]) {
      var j :| 0 <= j < |f| && f[j] == c[i];
    }
  }

  lemma NumericSlice(c: string, lo: nat, hi: nat)
    requires AllNumeric(c) && lo <= hi <= |c|
    ensures AllNumeric(c[lo..hi])
  {
    assert forall i :: 0 <= i < hi - lo ==> c[lo..hi][i] == c[lo + i];
  }

  /** The pieces `Shape` keeps: the whole part, and the digits after the first dot up to the next one. */
  lemma ShapeParts(c: string) returns (w: string, d: string)
    requires AllNumeric(c) && SplitAt(c, '.').1.Some?
    ensures w == SplitAt(c, '.').0 && d == SplitAt(SplitAt(c, '.').1.value, '.').0
    ensures AllNumeric(w) && AllNumeric(d) && '.' !in w && '.' !in d
  {
    var p := SplitAt(c, '.');
    var t := p.1.value;
    w, d := p.0, SplitAt(t, '.').0;
    assert w == c[..|w|];
    NumericSlice(c, 0, |w|);
    assert t == c[|w| + 1..];
    NumericSlice(c, |w| + 1, |c|);
    assert d == t[..|d|];
    NumericSlice(t, 0, |d|);
  }

  lemma NoDotNoTrailingDot(t: string)
    requires '.' !in t
    ensures !EndsWith(t, ".")
  {
    if |t| > 0 {
      assert t[|t| - 1..][0] == t[|t| - 1];
    }
  }

  /** Unless it ends in `.`, the field has at most one dot and at most 18 digits after it. */
  lemma ShapePlain(c: string)
    requires AllNumeric(c)
    ensures Plain(Shape(c))
  {
    var p := SplitAt(c, '.');
    if p.1.None? {
      assert Shape(c) == c;
      SplitAtNone(c);
      NoDotNoTrailingDot(c);
    } else {
      var w, d := ShapeParts(c);
      if d == "" {
        assert Shape(c) == w;
        SplitAtNone(w);
        NoDotNoTrailingDot(w);
      } else {
        var k := d[..Min(INPUT_MAX_DP, |d|)];
        NumericSlice(d, 0, |k|);
        assert '.' !in k by { assert forall i :: 0 <= i < |k| ==> k[i] == d[i]; }
        var r := w + "." + k;
        assert Shape(c) == r;
        assert r == w + ['.'] + k;
        SplitAtFirst(w, '.', k);
        assert r[|r| - 1] == k[|k| - 1];
      }
    }
  }

  /** The field holds only digits and dots. */
  lemma SanitizeChars(s: string)
    ensures AllNumeric(SanitizeLoose(s))
  {
    CleanNumeric(s);
    if !EndsWith(Clean(s), ".") {
      ShapePlain(Clean(s));
    }
  }

  /** Unless it ends in `.`, the field has at most one dot and at most 18 digits after it. */
  lemma SanitizeShape(s: string)
    ensures !EndsWith(SanitizeLoose(s), ".") ==> Plain(SanitizeLoose(s))
  {
    CleanNumeric(s);
    if !EndsWith(Clean(s), ".") {
      ShapePlain(Clean(s));
    }
  }

  /** Text already in the field's shape is left as it is. */
  lemma SanitizeKeepsPlain(r: string)
    requires Plain(r)
    ensures SanitizeLoose(r) == r
  {
    CleanKeepsPlain(r);
    ShapeKeepsPlain(r);
  }

  lemma CleanKeepsPlain(r: string)
    requires Plain(r)
    ensures Clean(r) == r
  {
    FilterAll(r, NumericChar);
    var p := SplitAt(r, '.');
    if p.1.Some? {
      SplitAtNone(p.1.value);
      assert r == p.0 + ['.'] + p.1.value;
    }
  }

  lemma ShapeKeepsPlain(r: string)
    requires Plain(r)
    ensures Shape(r) == r
  {
    var p := SplitAt(r, '.');
    if p.1.Some? {
      SplitAtNone(p.1.value);
      if p.1.value != "" {
        assert Shape(r) == p.0 + "." + p.1.value;
      }
    }
  }

  /** Sanitising twice is sanitising once, for every field that does not end in a dot. */
  lemma SanitizeIdempotent(s: string)
    ensures !EndsWith(SanitizeLoose(s), ".") ==> SanitizeLoose(SanitizeLoose(s)) == SanitizeLoose(s)
  {
    SanitizeShape(s);
    if !EndsWith(SanitizeLoose(s), ".") {
      SanitizeKeepsPlain(SanitizeLoose(s));
    }
  }

  /** `safeParseUnits`: 0 for empty text, text ending in a dot, and text `parseUnits` rejects. */
  function SafeParseUnits(v: string, decimals: nat): (r: int)
    ensures v == "" || EndsWith(v, ".") || ParseUnits(v, decimals).None? ==> r == 0
    ensures v != "" && !EndsWith(v, ".") && ParseUnits(v, decimals).Some? ==> r == ParseUnits(v, decimals).value
  {
    if v == "" || v == "." || v == "0." || EndsWith(v, ".") then 0
    else
      match ParseUnits(v, decimals)
      case None => 0
      case Some(x) => x
  }

  /** `toWei(v, dec)`: `safeParseUnits(v || "0", dec)`. */
  function ToWei(v: string, decimals: nat): int
  {
    SafeParseUnits(if v == "" then "0" else v, decimals)
  }

  /** Reading back an amount `formatUnits` rendered gives that amount. */
  lemma ToWeiOfFormatUnits(v: nat, decimals: nat)
    ensures ToWei(FormatUnits(v, decimals), decimals) == v
  {
    FormatThenParse(v, decimals, decimals);
    var t := FormatUnits(v, decimals);
    assert !EndsWith(t, ".");
  }

  /** A sanitised field is never negative. */
  lemma ToWeiOfSanitized(s: string, decimals: nat)
    ensures ToWei(SanitizeLoose(s), decimals) >= 0
  {
    SanitizeChars(s);
    var r := SanitizeLoose(s);
    if r != "" {
      assert NumericChar(r[0]);
    }
  }

  // ---------------------------------------------------------------------
  // Tokens, pairs and positions.

  datatype TokenRef = NativeTok | Erc(address: Addr)

  /** A token picked for one side: its chain, `"native"` or an address, its symbol and optional name. */
  datatype SelToken = SelToken(chainId: nat, address: TokenRef, symbol: string, name: Option<string>)

  /** `String(t.address)` */
  function AddressText(t: TokenRef): string
  {
    match t
    case NativeTok => "native"
    case Erc(a) => a
  }

  /** The key `sortPair` orders by: the lowercase address, with native as `"0x0000"`. */
  function PairKey(t: SelToken): string
  {
    Lower(if t.address.NativeTok? then "0x0000" else t.address.address)
  }

  /** JavaScript's `<` on strings. */
  predicate StrLt(a: string, b: string) { StrLe(a, b) && a != b }

  /** `sortPair(a, b)` */
  function SortPair(a: SelToken, b: SelToken): (r: (SelToken, SelToken))
  {
    if StrLt(PairKey(a), PairKey(b)) then (a, b) else (b, a)
  }

  /** The sorted pair is the two tokens, the smaller key first. */
  lemma SortPairOrdered(a: SelToken, b: SelToken)
    ensures var r := SortPair(a, b);
      && multiset{r.0, r.1} == multiset{a, b}
      && StrLe(PairKey(r.0), PairKey(r.1))
  {
    StrLeTotal(PairKey(a), PairKey(b));
    if !StrLt(PairKey(a), PairKey(b)) && PairKey(a) == PairKey(b) {
      assert StrLe(PairKey(b), PairKey(a));
    }
  }

  /** The order of the arguments does not matter once the keys differ. */
  lemma SortPairSymmetric(a: SelToken, b: SelToken)
    requires PairKey(a) != PairKey(b)
    ensures SortPair(a, b) == SortPair(b, a)
  {
    StrLeTotal(PairKey(a), PairKey(b));
    if StrLe(PairKey(a), PairKey(b)) && StrLe(PairKey(b), PairKey(a)) {
      StrLeAntisym(PairKey(a), PairKey(b));
    }
  }

  /** A position as the page stores it. */
  datatype Position = Position(id: string, chainId: nat, tokenA: SelToken, tokenB: SelToken,
                               amountA: string, amountB: string, lpShares: string, ts: int)

  /** `${chainId}:${a.address}:${b.address}` of the sorted pair. */
  function PositionId(chainId: nat, a: SelToken, b: SelToken): string
  {
    var p := SortPair(a, b);
    NatToString(chainId) + ":" + AddressText(p.0.address) + ":" + AddressText(p.1.address)
  }

  /** A pair added either way round gets the same position id. */
  lemma PositionIdSymmetric(chainId: nat, a: SelToken, b: SelToken)
    requires PairKey(a) != PairKey(b)
    ensures PositionId(chainId, a, b) == PositionId(chainId, b, a)
  {
    SortPairSymmetric(a, b);
  }

  /** `[...positions.filter(x => x.id !== p.id), p]` */
  function Upsert(ps: seq<Position>, p: Position): seq<Position>
  {
    Filter(ps, (x: Position) => x.id != p.id) + [p]
  }

  /** After the upsert the new position is last and the only one with its id; the others keep their order. */
  lemma UpsertProperties(ps: seq<Position>, p: Position)
    ensures var u := Upsert(ps, p);
      && |u| > 0 && u[|u| - 1] == p
      && (forall i :: 0 <= i < |u| - 1 ==> u[i].id != p.id)
      && Filter(u, (x: Position) => x.id != p.id) == Filter(ps, (x: Position) => x.id != p.id)
      && (forall x :: x in ps && x.id != p.id ==> x in u)
  {
    var keep := (x: Position) => x.id != p.id;
    var f := Filter(ps, keep);
    FilterAppendOne(f, keep, p);
    FilterIdempotent(ps, keep);
  }

  /** Upserting the same position again changes nothing. */
  lemma UpsertIdempotent(ps: seq<Position>, p: Position)
    ensures Upsert(Upsert(ps, p), p) == Upsert(ps, p)
  {
    UpsertProperties(ps, p);
  }

  /** `posKey(account, chainId)`: empty without an account or a chain. */
  function PosKey(account: Option<Addr>, chainId: nat): (r: string)
    ensures r == "" <==> account.None? || account.value == "" || chainId == 0
  {
    if account.Some? && account.value != "" && chainId != 0
    then "airon.lp.positions." + Lower(account.value) + "." + NatToString(chainId)
    else ""
  }

  // ---------------------------------------------------------------------
  // The pool and the counter amount.

  datatype Side = SideA | SideB

  /** The pair as last read: its address, `token0`/`token1`, the reserves and the LP supply. */
  datatype Pool = Pool(pairAddr: Option<Addr>, token0: Option<Addr>, token1: Option<Addr>,
                       res0: nat, res1: nat, lpSupply: nat)

  /** Present and not empty: JavaScript truthiness of an optional address. */
  predicate Present(a: Option<Addr>) { a.Some? && a.value != "" }

  /** The address a side trades as: the wrapped native for native. */
  function TradedAddr(t: SelToken, wnative: Option<Addr>): Option<Addr>
  {
    if t.address.NativeTok? then wnative else Some(t.address.address)
  }

  /** The reserves as (A's, B's): A's address compared with `token0` ignoring case. */
  function Oriented(addrA: Option<Addr>, pool: Pool): (r: (nat, nat))
    requires pool.token0.Some?
    ensures addrA.Some? && Lower(addrA.value) == Lower(pool.token0.value) ==> r == (pool.res0, pool.res1)
    ensures !(addrA.Some? && Lower(addrA.value) == Lower(pool.token0.value)) ==> r == (pool.res1, pool.res0)
  {
    if addrA.Some? && Lower(addrA.value) == Lower(pool.token0.value) then (pool.res0, pool.res1) else (pool.res1, pool.res0)
  }

  /**
   * `Number(formatUnits(v, decimals)).toFixed(5)` with trailing zeros (and
   * a bare dot) removed: the magnitude rounded to five decimals, half up,
   * and the sign kept even when the rounded magnitude is 0.
   */
  function Display(v: int, decimals: nat): (r: string)
  {
    var m: nat := if v < 0 then -v else v;
    (if v < 0 then "-" else "") + FormatUnits(Round5(m, decimals), 5)
  }

  /** The shown amount, read back with five decimals, is the amount rounded to five decimals. */
  lemma DisplayReadBack(v: nat, decimals: nat)
    ensures ParseUnits(Display(v, decimals), 5) == Some(Round5(v, decimals))
  {
    var r := Round5(v, decimals);
    FormatThenParse(r, 5, 5);
    assert Pow10(0) == 1;
    assert Display(v, decimals) == FormatUnits(r, 5);
  }

  /** Five-decimal rounding is exact below five decimals and within half a step above. */
  lemma Round5Accurate(v: nat, decimals: nat)
    ensures decimals <= 5 ==> Round5(v, decimals) == v * Pow10(5 - decimals)
    ensures decimals > 5 ==> var r, P := Round5(v, decimals), Pow10(decimals - 5);
      (2 * r - 1) * P <= 2 * v < (2 * r + 1) * P
  {
  }

  /** The counter amount for a parsed input and reserves (RA, RB) already oriented to A and B. */
  function Counter(side: Side, inWei: int, ra: nat, rb: nat, decA: nat, decB: nat): string
    requires ra > 0 && rb > 0
  {
    if inWei == 0 then "0"
    else if side == SideA then Display(TruncDiv(inWei * rb, ra), decB)
    else Display(TruncDiv(inWei * ra, rb), decA)
  }

  /** A positive input shows `in * RB / RA` (or `in * RA / RB`), rounded to five decimals. */
  lemma CounterReadBack(side: Side, x: nat, ra: nat, rb: nat, decA: nat, decB: nat)
    requires ra > 0 && rb > 0 && x > 0
    ensures side == SideA ==> ParseUnits(Counter(side, x, ra, rb, decA, decB), 5) == Some(Round5(Scaled(x, rb, ra), decB))
    ensures side == SideB ==> ParseUnits(Counter(side, x, ra, rb, decA, decB), 5) == Some(Round5(Scaled(x, ra, rb), decA))
  {
    if side == SideA {
      CounterIsDisplay(x, rb, ra);
      DisplayReadBack(Scaled(x, rb, ra), decB);
    } else {
      CounterIsDisplay(x, ra, rb);
      DisplayReadBack(Scaled(x, ra, rb), decA);
    }
  }

  lemma CounterIsDisplay(x: nat, num: nat, den: nat)
    requires den > 0
    ensures TruncDiv(x * num, den) == Scaled(x, num, den)
  {
    NonnegProduct(x, num);
  }

  /** `quoteCounter(side, inAmount)`: the other side's amount at the pool's reserves, or `None`. */
  function QuoteCounter(side: Side, inAmount: string, tokA: Option<SelToken>, tokB: Option<SelToken>,
                        pool: Pool, wnative: Option<Addr>, decA: nat, decB: nat): Option<string>
  {
    if tokA.None? || tokB.None? || !Present(pool.token0) || !Present(pool.token1) then None
    else if inAmount == "" || EndsWith(inAmount, ".") then None
    else if pool.res0 == 0 || pool.res1 == 0 then None
    else
      var addrA, addrB := TradedAddr(tokA.value, wnative), TradedAddr(tokB.value, wnative);
      if !Present(addrA) || !Present(addrB) then None
      else
        var rs := Oriented(addrA, pool);
        match ParseUnits(inAmount, if side == SideA then decA else decB)
        case None => None
        case Some(inWei) => Some(Counter(side, inWei, rs.0, rs.1, decA, decB))
  }

  /** No counter amount without both tokens, the pair's tokens, a complete input and two nonzero reserves. */
  lemma QuoteCounterNone(side: Side, inAmount: string, tokA: Option<SelToken>, tokB: Option<SelToken>,
                         pool: Pool, wnative: Option<Addr>, decA: nat, decB: nat)
    requires tokA.None? || tokB.None? || !Present(pool.token0) || !Present(pool.token1)
      || inAmount == "" || EndsWith(inAmount, ".") || pool.res0 == 0 || pool.res1 == 0
    ensures QuoteCounter(side, inAmount, tokA, tokB, pool, wnative, decA, decB).None?
  {
  }

  /** Everything `quoteCounter` needs before it parses the input. */
  predicate Quotable(inAmount: string, tokA: SelToken, tokB: SelToken, pool: Pool, wnative: Option<Addr>)
  {
    Present(pool.token0) && Present(pool.token1) && pool.res0 > 0 && pool.res1 > 0
      && Present(TradedAddr(tokA, wnative)) && Present(TradedAddr(tokB, wnative))
      && inAmount != "" && !EndsWith(inAmount, ".")
  }

  /** Past the guards, the quote is the counter amount of the parsed input at the oriented reserves. */
  lemma QuoteCounterValue(side: Side, inAmount: string, tokA: SelToken, tokB: SelToken,
                          pool: Pool, wnative: Option<Addr>, decA: nat, decB: nat, x: int)
    requires Quotable(inAmount, tokA, tokB, pool, wnative)
    requires ParseUnits(inAmount, if side == SideA then decA else decB) == Some(x)
    ensures var rs := Oriented(TradedAddr(tokA, wnative), pool);
      rs.0 > 0 && rs.1 > 0
      && QuoteCounter(side, inAmount, Some(tokA), Some(tokB), pool, wnative, decA, decB)
         == Some(Counter(side, x, rs.0, rs.1, decA, decB))
  {
  }

  /**
   * With both tokens and a live pool, a positive input `x` on side A gives
   * `x * RB / RA` on side B (and side B gives `x * RA / RB` on side A),
   * where RA is the reserve of the pair token A's address matches ignoring
   * case; the text shown reads back as that amount rounded to five decimals.
   */
  lemma QuoteCounterReadBack(side: Side, inAmount: string, tokA: SelToken, tokB: SelToken,
                             pool: Pool, wnative: Option<Addr>, decA: nat, decB: nat, x: nat)
    requires Quotable(inAmount, tokA, tokB, pool, wnative)
    requires ParseUnits(inAmount, if side == SideA then decA else decB) == Some(x) && x > 0
    ensures var rs := Oriented(TradedAddr(tokA, wnative), pool);
      var q := QuoteCounter(side, inAmount, Some(tokA), Some(tokB), pool, wnative, decA, decB);
      && q.Some?
      && rs.0 > 0 && rs.1 > 0
      && (side == SideA ==> ParseUnits(q.value, 5) == Some(Round5(Scaled(x, rs.1, rs.0), decB)))
      && (side == SideB ==> ParseUnits(q.value, 5) == Some(Round5(Scaled(x, rs.0, rs.1), decA)))
  {
    QuoteCounterValue(side, inAmount, tokA, tokB, pool, wnative, decA, decB, x);
    var rs := Oriented(TradedAddr(tokA, wnative), pool);
    CounterReadBack(side, x, rs.0, rs.1, decA, decB);
  }

  /** An input that parses to 0 gives the counter amount `"0"`. */
  lemma QuoteCounterZero(side: Side, inAmount: string, tokA: SelToken, tokB: SelToken,
                         pool: Pool, wnative: Option<Addr>, decA: nat, decB: nat)
    requires Quotable(inAmount, tokA, tokB, pool, wnative)
    requires ParseUnits(inAmount, if side == SideA then decA else decB) == Some(0)
    ensures QuoteCounter(side, inAmount, Some(tokA), Some(tokB), pool, wnative, decA, decB) == Some("0")
  {
    QuoteCounterValue(side, inAmount, tokA, tokB, pool, wnative, decA, decB, 0);
  }

  // ---------------------------------------------------------------------
  // The LP estimate.

  /**
   * The estimate's integer part: nothing, the LP tokens an existing pool
   * mints (in its smallest unit), or the two amounts of a new pool, whose
   * estimate is the float `sqrt(A) * sqrt(B)`.
   */
  datatype Estimate = NoEstimate | FromPool(lp: int) | NewPool(a: int, b: int)

  predicate LivePool(pool: Pool)
  {
    Present(pool.pairAddr) && pool.res0 > 0 && pool.res1 > 0 && pool.lpSupply > 0
      && Present(pool.token0) && Present(pool.token1)
  }

  /** `L = min(A * S / RA, B * S / RB)` for an existing pool. */
  function LpEstimate(tokA: Option<SelToken>, tokB: Option<SelToken>, amtA: string, amtB: string,
                      decA: nat, decB: nat, pool: Pool, wnative: Option<Addr>): Estimate
  {
    if tokA.None? || tokB.None? then NoEstimate
    else
      var a, b := ToWei(amtA, decA), ToWei(amtB, decB);
      if a == 0 || b == 0 then NoEstimate
      else if LivePool(pool) then
        var rs := Oriented(TradedAddr(tokA.value, wnative), pool);
        var la, lb := TruncDiv(a * pool.lpSupply, rs.0), TruncDiv(b * pool.lpSupply, rs.1);
        FromPool(if la < lb then la else lb)
      else NewPool(a, b)
  }

  /** A side that parses to 0 gives no estimate. */
  lemma LpEstimateZero(tokA: Option<SelToken>, tokB: Option<SelToken>, amtA: string, amtB: string,
                       decA: nat, decB: nat, pool: Pool, wnative: Option<Addr>)
    requires ToWei(amtA, decA) == 0 || ToWei(amtB, decB) == 0
    ensures LpEstimate(tokA, tokB, amtA, amtB, decA, decB, pool, wnative) == NoEstimate
  {
  }

  /** For an existing pool, the estimate is the smaller of the two sides' LP counts. */
  lemma LpEstimateValue(tokA: SelToken, tokB: SelToken, amtA: string, amtB: string,
                        decA: nat, decB: nat, pool: Pool, wnative: Option<Addr>)
    requires LivePool(pool) && ToWei(amtA, decA) > 0 && ToWei(amtB, decB) > 0
    ensures var rs := Oriented(TradedAddr(tokA, wnative), pool);
      var la, lb := ToWei(amtA, decA) * pool.lpSupply / rs.0, ToWei(amtB, decB) * pool.lpSupply / rs.1;
      rs.0 > 0 && rs.1 > 0
      && LpEstimate(Some(tokA), Some(tokB), amtA, amtB, decA, decB, pool, wnative) == FromPool(Min(la, lb))
  {
  }

  /**
   * For an existing pool the estimate is the largest whole number of LP
   * tokens that neither side's share of the supply falls short of: `L * RA
   * <= A * S` and `L * RB <= B * S`, and one more would break one of them.
   */
  lemma LpEstimateBounds(tokA: SelToken, tokB: SelToken, amtA: string, amtB: string,
                         decA: nat, decB: nat, pool: Pool, wnative: Option<Addr>)
    requires LivePool(pool) && ToWei(amtA, decA) > 0 && ToWei(amtB, decB) > 0
    ensures var e := LpEstimate(Some(tokA), Some(tokB), amtA, amtB, decA, decB, pool, wnative);
      var rs := Oriented(TradedAddr(tokA, wnative), pool);
      var a, b, S := ToWei(amtA, decA), ToWei(amtB, decB), pool.lpSupply;
      && e.FromPool? && 0 <= e.lp
      && e.lp * rs.0 <= a * S && e.lp * rs.1 <= b * S
      && (a * S < (e.lp + 1) * rs.0 || b * S < (e.lp + 1) * rs.1)
  {
    LpEstimateValue(tokA, tokB, amtA, amtB, decA, decB, pool, wnative);
    var rs := Oriented(TradedAddr(tokA, wnative), pool);
    var a: nat, b: nat := ToWei(amtA, decA), ToWei(amtB, decB);
    MinQuotient(a * pool.lpSupply, rs.0, b * pool.lpSupply, rs.1);
  }

  /** The smaller of two floor quotients fits under both numerators, and one more does not. */
  lemma MinQuotient(n1: nat, d1: nat, n2: nat, d2: nat)
    requires d1 > 0 && d2 > 0
    ensures var L := Min(n1 / d1, n2 / d2);
      L >= 0 && L * d1 <= n1 && L * d2 <= n2 && (n1 < (L + 1) * d1 || n2 < (L + 1) * d2)
  {
    var q1, q2 := n1 / d1, n2 / d2;
    FloorBounds(n1, d1);
    FloorBounds(n2, d2);
    var L := Min(q1, q2);
    MulBoth(L, q1, d1);
    MulBoth(L, q2, d2);
  }

  /** Amounts in the pool's ratio give the same LP count from either side. */
  lemma LpEstimateAtRatio(tokA: SelToken, tokB: SelToken, amtA: string, amtB: string,
                          decA: nat, decB: nat, pool: Pool, wnative: Option<Addr>)
    requires LivePool(pool) && ToWei(amtA, decA) > 0 && ToWei(amtB, decB) > 0
    requires var rs := Oriented(TradedAddr(tokA, wnative), pool);
      ToWei(amtA, decA) * rs.1 == ToWei(amtB, decB) * rs.0
    ensures var rs := Oriented(TradedAddr(tokA, wnative), pool);
      var a, b, S := ToWei(amtA, decA), ToWei(amtB, decB), pool.lpSupply;
      LpEstimate(Some(tokA), Some(tokB), amtA, amtB, decA, decB, pool, wnative) == FromPool(a * S / rs.0)
      && a * S / rs.0 == b * S / rs.1
  {
    LpEstimateValue(tokA, tokB, amtA, amtB, decA, decB, pool, wnative);
    var rs := Oriented(TradedAddr(tokA, wnative), pool);
    var a: nat, b: nat := ToWei(amtA, decA), ToWei(amtB, decB);
    SameRatioSameQuotient(a, b, pool.lpSupply, rs.0, rs.1);
  }

  /** `a / ra == b / rb` as rationals gives `a * S / ra == b * S / rb` in integers. */
  lemma SameRatioSameQuotient(a: nat, b: nat, S: nat, ra: nat, rb: nat)
    requires ra > 0 && rb > 0 && a * rb == b * ra
    ensures a * S / ra == b * S / rb
  {
    var n1, n2 := a * S, b * S;
    var q := n1 / ra;
    FloorBounds(n1, ra);
    var lo, hi := q * ra, (q + 1) * ra;
    MulBoth(lo, n1, rb);
    MulBothStrict(n1, hi, rb);
    Swap3(q, ra, rb);
    Swap3(q + 1, ra, rb);
    Cross(a, b, S, ra, rb);
    MulCancel(q * rb, n2, ra);
    MulCancelStrict(n2, (q + 1) * rb, ra);
    FloorUnique(n2, rb, q);
  }

  lemma Swap3(x: int, y: int, z: int)
    ensures x * y * z == x * z * y
  {
  }

  lemma Cross(a: nat, b: nat, S: nat, ra: nat, rb: nat)
    requires a * rb == b * ra
    ensures a * S * rb == b * S * ra
  {
    calc {
      a * S * rb;
      (a * rb) * S;
      (b * ra) * S;
      b * S * ra;
    }
  }

  // ---------------------------------------------------------------------
  // Slippage and approvals.

  /** 0.1%, 5% and 1% in hundredths of a percent. */
  const SLIP_MIN: int := 10
  const SLIP_MAX: int := 500
  const SLIP_DEFAULT: int := 100

  /**
   * `clampSlippage(n)`: `NaN` (`None`) is 1%; anything else is rounded to
   * hundredths (`toFixed(2)`) and held to 0.1%..5%.
   */
  function ClampSlippage(n: Option<Decimal>): (r: int)
    ensures SLIP_MIN <= r <= SLIP_MAX
    ensures n.None? ==> r == SLIP_DEFAULT
    ensures n.Some? && SLIP_MIN <= Hundredths(n.value) <= SLIP_MAX ==> r == Hundredths(n.value)
    ensures n.Some? && Hundredths(n.value) < SLIP_MIN ==> r == SLIP_MIN
    ensures n.Some? && Hundredths(n.value) > SLIP_MAX ==> r == SLIP_MAX
  {
    if n.None? then SLIP_DEFAULT else Max(SLIP_MIN, Min(SLIP_MAX, Hundredths(n.value)))
  }

  /** `needsApproveA/B`: an ERC-20 side whose allowance is below the amount. */
  function NeedsApprove(t: Option<SelToken>, allowance: nat, amt: string, decimals: nat): bool
  {
    if t.None? || t.value.address.NativeTok? then false
    else allowance < ToWei(if amt == "" then "0" else amt, decimals)
  }

  /** Native never needs approval; an ERC-20 needs it exactly when the allowance is below the parsed amount. */
  lemma NeedsApproveMeaning(t: Option<SelToken>, allowance: nat, amt: string, decimals: nat)
    ensures t.Some? && t.value.address.NativeTok? ==> !NeedsApprove(t, allowance, amt, decimals)
    ensures t.Some? && t.value.address.Erc? ==> (NeedsApprove(t, allowance, amt, decimals) <==> allowance < ToWei(amt, decimals))
  {
  }

  /** `awaitingApprove`: A before B. */
  function AwaitingApprove(needA: bool, needB: bool): (r: Option<Side>)
    ensures r == Some(SideA) <==> needA
    ensures r == Some(SideB) <==> !needA && needB
    ensures r.None? <==> !needA && !needB
  {
    if needA then Some(SideA) else if needB then Some(SideB) else None
  }

  const CONFIRM_LABEL := "Preview & Confirm"

  function ApproveLabel(symbol: string): (r: string)
    ensures r != CONFIRM_LABEL
  {
    var r := "Approve " + symbol;
    assert r[0] != CONFIRM_LABEL[0];
    r
  }

  /** `mainCtaLabel`: the preview label shows exactly when both tokens are set, no approval is due and both balances suffice. */
  function MainCtaLabel(tokA: Option<SelToken>, tokB: Option<SelToken>, awaiting: Option<Side>,
                        enoughA: bool, enoughB: bool): (r: string)
    ensures r == CONFIRM_LABEL <==> tokA.Some? && tokB.Some? && awaiting.None? && enoughA && enoughB
  {
    assert "Select tokens"[0] != CONFIRM_LABEL[0] && "Infuse Supply"[0] != CONFIRM_LABEL[0];
    if tokA.None? || tokB.None? then "Select tokens"
    else match awaiting
      case Some(SideA) => ApproveLabel(tokA.value.symbol)
      case Some(SideB) => ApproveLabel(tokB.value.symbol)
      case None => if !enoughA || !enoughB then "Infuse Supply" else CONFIRM_LABEL
  }

  // ---------------------------------------------------------------------
  // Transactions.

  datatype Call =
    | ApproveMax(token: Addr, spender: Addr)
    | AddLiquidityETH(token: Addr, amountTokenDesired: int, amountTokenMin: int, amountETHMin: int, value: int)
    | AddLiquidity(tokenA: Addr, tokenB: Addr, amountADesired: int, amountBDesired: int, amountAMin: int, amountBMin: int)

  /** `writeContract`: sent, or thrown. */
  datatype Sent = Sent | SendFailed(e: ErrInfo)

  /** `waitForTransactionReceipt`: the receipt's status, or thrown. */
  datatype Mined = Mined(success: bool) | WaitFailed(e: ErrInfo)

  /** The router call `doAdd` makes: `addLiquidityETH` with the ERC-20 side's arguments when one side is native. */
  function AddCall(a: SelToken, b: SelToken, aDesired: int, bDesired: int, aMin: int, bMin: int): (c: Call)
    requires !(a.address.NativeTok? && b.address.NativeTok?)
    ensures a.address.NativeTok? ==> c == AddLiquidityETH(b.address.address, bDesired, bMin, aMin, aDesired)
    ensures b.address.NativeTok? ==> c == AddLiquidityETH(a.address.address, aDesired, aMin, bMin, bDesired)
    ensures a.address.Erc? && b.address.Erc? ==> c == AddLiquidity(a.address.address, b.address.address, aDesired, bDesired, aMin, bMin)
  {
    if a.address.NativeTok? then AddLiquidityETH(b.address.address, bDesired, bMin, aMin, aDesired)
    else if b.address.NativeTok? then AddLiquidityETH(a.address.address, aDesired, aMin, bMin, bDesired)
    else AddLiquidity(a.address.address, b.address.address, aDesired, bDesired, aMin, bMin)
  }

  const E_BOTH_NATIVE: string := "Both sides cannot be native."
  const E_INSUFFICIENT: string := "Insufficient balance for one of the tokens."
  const E_APPROVAL: string := "Approval failed"
  const E_TX: string := "Transaction error"
  const E_TX_FAILED: string := "Transaction failed"

  /** The chain the page is on and what its configuration gives for it. */
  datatype Config = Config(chainId: nat, account: Option<Addr>, router: Option<Addr>, wnative: Option<Addr>)

  /** The position `doAdd` records: the sorted pair, the two amounts as typed, the share text and the time. */
  function NewPosition(chainId: nat, a: SelToken, b: SelToken, amtA: string, amtB: string,
                       shares: string, now: int): (p: Position)
    ensures p.id == PositionId(chainId, a, b)
    ensures (p.tokenA, p.tokenB) == SortPair(a, b)
  {
    var s := SortPair(a, b);
    Position(PositionId(chainId, a, b), chainId, s.0, s.1, amtA, amtB, shares, now)
  }

  /** The page's state. */
  datatype Form = Form(tokA: Option<SelToken>, tokB: Option<SelToken>, amtA: string, amtB: string,
                       decA: nat, decB: nat, allowA: nat, allowB: nat, pool: Pool,
                       isAdding: bool, isApproving: Option<Side>, txError: Option<string>,
                       confirmAdd: bool, showSuccess: bool, positions: seq<Position>)

  /** The message of what `approveToken` catches, or `None` when the receipt was awaited. */
  function ApproveError(s: Sent, m: Mined): Option<string>
  {
    if s.SendFailed? then Some(FirstTruthy(s.e.shortMessage, s.e.message, E_APPROVAL))
    else if m.WaitFailed? then Some(FirstTruthy(m.e.shortMessage, m.e.message, E_APPROVAL))
    else None
  }

  /**
   * The state after `approveToken(which)` got past its guards: the side's
   * allowance is `maxUint256` once the receipt arrived, whatever its status;
   * otherwise the error is shown. Either way the spinner is off.
   */
  function Approved(f: Form, which: Side, s: Sent, m: Mined): (r: Form)
    ensures r == f.(isApproving := None, txError := r.txError, allowA := r.allowA, allowB := r.allowB)
    ensures ApproveError(s, m).None? ==>
      && r.txError.None?
      && (which == SideA ==> r.allowA == MaxUint256 && r.allowB == f.allowB)
      && (which == SideB ==> r.allowB == MaxUint256 && r.allowA == f.allowA)
    ensures ApproveError(s, m).Some? ==> r.txError == ApproveError(s, m) && r.allowA == f.allowA && r.allowB == f.allowB
  {
    var err := ApproveError(s, m);
    var g := f.(isApproving := None, txError := err);
    if err.Some? then g
    else if which == SideA then g.(allowA := MaxUint256) else g.(allowB := MaxUint256)
  }

  /** Side A's approval ends A's turn: afterwards B is awaited if it needs one, and nothing otherwise. */
  lemma ApprovedAwaitsNext(f: Form, m: Mined)
    requires m.Mined? && f.tokA.Some? && ToWei(f.amtA, f.decA) <= MaxUint256
    ensures var g := Approved(f, SideA, Sent, m);
      AwaitingApprove(NeedsApprove(g.tokA, g.allowA, g.amtA, g.decA), NeedsApprove(g.tokB, g.allowB, g.amtB, g.decB))
        == (if NeedsApprove(f.tokB, f.allowB, f.amtB, f.decB) then Some(SideB) else None)
  {
    var g := Approved(f, SideA, Sent, m);
    assert g.allowA == MaxUint256 && g.amtA == f.amtA && g.decA == f.decA;
    assert !NeedsApprove(g.tokA, g.allowA, g.amtA, g.decA);
  }

  /** A failed approval changes no allowance. */
  lemma ApprovalFailedKeepsAllowance(f: Form, which: Side, s: Sent, m: Mined)
    requires s.SendFailed? || m.WaitFailed?
    ensures var g := Approved(f, which, s, m);
      g.allowA == f.allowA && g.allowB == f.allowB && g.txError.Some?
  {
  }

  /** The token picked for a side. */
  function SideToken(f: Form, side: Side): Option<SelToken>
  {
    if side == SideA then f.tokA else f.tokB
  }

  /** `awaitingApprove` of a state. */
  function Awaiting(f: Form): (w: Option<Side>)
    ensures w.Some? ==> SideToken(f, w.value).Some? && SideToken(f, w.value).value.address.Erc?
  {
    AwaitingApprove(NeedsApprove(f.tokA, f.allowA, f.amtA, f.decA), NeedsApprove(f.tokB, f.allowB, f.amtB, f.decB))
  }

  /** `approveToken`'s first guard: a wallet, a router and an account. */
  predicate ApproveReady(cfg: Config, wallet: bool)
  {
    wallet && Present(cfg.router) && Present(cfg.account)
  }

  class LiquidityForm {
    var tokA: Option<SelToken>
    var tokB: Option<SelToken>
    var amtA: string
    var amtB: string
    var decA: nat
    var decB: nat
    var allowA: nat
    var allowB: nat
    var pool: Pool
    var isAdding: bool
    var isApproving: Option<Side>
    var txError: Option<string>
    var confirmAdd: bool
    var showSuccess: bool
    var positions: seq<Position>
    /** `localStorage`, as far as the positions lists go. */
    var storage: map<string, seq<Position>>
    /** The transactions handed to the wallet, in order. */
    var sent: seq<Call>

    function View(): Form
      reads this
    {
      Form(tokA, tokB, amtA, amtB, decA, decB, allowA, allowB, pool, isAdding, isApproving,
           txError, confirmAdd, showSuccess, positions)
    }

    /** The page as it mounts: nothing picked, 18 decimals, no allowance, no pool. */
    constructor(stored: map<string, seq<Position>>)
      ensures View() == Form(None, None, "", "", 18, 18, 0, 0, Pool(None, None, None, 0, 0, 0),
                             false, None, None, false, false, [])
      ensures storage == stored && sent == []
    {
      tokA, tokB := None, None;
      amtA, amtB := "", "";
      decA, decB := 18, 18;
      allowA, allowB := 0, 0;
      pool := Pool(None, None, None, 0, 0, 0);
      isAdding, isApproving, txError := false, None, None;
      confirmAdd, showSuccess := false, false;
      positions := [];
      storage := stored;
      sent := [];
    }

    /** `setAmountAndSync(side, raw)`: the side gets the sanitised text, the other side the quote when there is one. */
    method SetAmountAndSync(cfg: Config, side: Side, raw: string)
      modifies this
      ensures var c := QuoteCounter(side, SanitizeLoose(raw), old(tokA), old(tokB), old(pool), cfg.wnative, old(decA), old(decB));
        side == SideA ==> View() == old(View()).(amtA := SanitizeLoose(raw), amtB := OptionOr(c, old(amtB)))
      ensures var c := QuoteCounter(side, SanitizeLoose(raw), old(tokA), old(tokB), old(pool), cfg.wnative, old(decA), old(decB));
        side == SideB ==> View() == old(View()).(amtB := SanitizeLoose(raw), amtA := OptionOr(c, old(amtA)))
      ensures storage == old(storage) && sent == old(sent)
    {
      var clean := SanitizeLoose(raw);
      var c := QuoteCounter(side, clean, tokA, tokB, pool, cfg.wnative, decA, decB);
      if side == SideA {
        SetPair(true, clean, c);
      } else {
        SetPair(false, clean, c);
      }
    }

    /** One field takes `clean`, and the other the quote `c` unless there is none or it already shows it. */
    method SetPair(isA: bool, clean: string, c: Option<string>)
      modifies this
      ensures isA ==> View() == old(View()).(amtA := clean, amtB := OptionOr(c, old(amtB)))
      ensures !isA ==> View() == old(View()).(amtB := clean, amtA := OptionOr(c, old(amtA)))
      ensures storage == old(storage) && sent == old(sent)
    {
      if isA {
        amtA := clean;
        if c.Some? && c.value != amtB {
          amtB := c.value;
        }
      } else {
        amtB := clean;
        if c.Some? && c.value != amtA {
          amtA := c.value;
        }
      }
    }

    /** The decimals effect: an ERC-20's `decimals()`, 18 when that read fails, and 18 for native or no token. */
    method LoadDecimals(client: bool, readA: Option<nat>, readB: Option<nat>)
      modifies this
      ensures !client ==> View() == old(View())
      ensures client ==> View() == old(View()).(
        decA := if tokA.Some? && tokA.value.address.Erc? then OptionOr(readA, 18) else 18,
        decB := if tokB.Some? && tokB.value.address.Erc? then OptionOr(readB, 18) else 18)
      ensures storage == old(storage) && sent == old(sent)
    {
      if !client {
        return;
      }
      var a := if tokA.Some? && tokA.value.address.Erc? then OptionOr(readA, 18) else 18;
      var b := if tokB.Some? && tokB.value.address.Erc? then OptionOr(readB, 18) else 18;
      SetDecimals(a, b);
    }

    method SetDecimals(a: nat, b: nat)
      modifies this
      ensures View() == old(View()).(decA := a, decB := b)
      ensures storage == old(storage) && sent == old(sent)
    {
      decA, decB := a, b;
    }

    /** The allowance effect: an ERC-20's allowance to the router, 0 when that read fails, `maxUint256` otherwise. */
    method LoadAllowances(cfg: Config, client: bool, readA: Option<nat>, readB: Option<nat>)
      modifies this
      ensures !client || !Present(cfg.account) || !Present(cfg.router) ==> View() == old(View())
      ensures client && Present(cfg.account) && Present(cfg.router) ==> View() == old(View()).(
        allowA := if tokA.Some? && tokA.value.address.Erc? then OptionOr(readA, 0) else MaxUint256,
        allowB := if tokB.Some? && tokB.value.address.Erc? then OptionOr(readB, 0) else MaxUint256)
      ensures storage == old(storage) && sent == old(sent)
    {
      if !client || !Present(cfg.account) || !Present(cfg.router) {
        return;
      }
      var a := if tokA.Some? && tokA.value.address.Erc? then OptionOr(readA, 0) else MaxUint256;
      var b := if tokB.Some? && tokB.value.address.Erc? then OptionOr(readB, 0) else MaxUint256;
      SetAllowances(a, b);
    }

    method SetAllowances(a: nat, b: nat)
      modifies this
      ensures View() == old(View()).(allowA := a, allowB := b)
      ensures storage == old(storage) && sent == old(sent)
    {
      allowA, allowB := a, b;
    }

    /** The positions effect: the stored list under `posKey`, or `[]` when none is stored. */
    method LoadPositions(cfg: Config)
      modifies this
      ensures var k := PosKey(cfg.account, cfg.chainId);
        View() == old(View()).(positions := if k == "" then old(positions) else if k in storage then storage[k] else [])
      ensures storage == old(storage) && sent == old(sent)
    {
      var k := PosKey(cfg.account, cfg.chainId);
      if k == "" {
        return;
      }
      positions := if k in storage then storage[k] else [];
    }

    /** `savePositions(list)`: stored under `posKey` and shown, or nothing at all without a key. */
    method SavePositions(cfg: Config, list: seq<Position>)
      modifies this
      ensures var k := PosKey(cfg.account, cfg.chainId);
        if k == "" then View() == old(View()) && storage == old(storage)
        else View() == old(View()).(positions := list) && storage == old(storage)[k := list]
      ensures sent == old(sent)
    {
      var k := PosKey(cfg.account, cfg.chainId);
      if k == "" {
        return;
      }
      storage := storage[k := list];
      positions := list;
    }

    /**
     * `approveToken(which)`: without a wallet, router or account, or for
     * native or no token, nothing happens; otherwise `approve(router,
     * maxUint256)` is sent and the state becomes `Approved`.
     */
    method ApproveToken(cfg: Config, wallet: bool, which: Side, s: Sent, m: Mined)
      modifies this
      ensures var t := SideToken(old(View()), which);
        !(ApproveReady(cfg, wallet) && t.Some? && t.value.address.Erc?) ==> View() == old(View()) && sent == old(sent)
      ensures var t := SideToken(old(View()), which);
        ApproveReady(cfg, wallet) && t.Some? && t.value.address.Erc? ==>
          View() == Approved(old(View()), which, s, m)
          && sent == old(sent) + [ApproveMax(t.value.address.address, cfg.router.value)]
      ensures storage == old(storage)
    {
      if !ApproveReady(cfg, wallet) {
        return;
      }
      var t := if which == SideA then tokA else tokB;
      if t.None? || t.value.address.NativeTok? {
        return;
      }
      SendApprove(which, ApproveMax(t.value.address.address, cfg.router.value), s, m);
    }

    /** `approveToken` past its guards: the approval sent, then the allowance raised or the error shown. */
    method SendApprove(which: Side, call: Call, s: Sent, m: Mined)
      modifies this
      ensures View() == Approved(old(View()), which, s, m)
      ensures sent == old(sent) + [call] && storage == old(storage)
    {
      // `isApproving` is `which` while the wallet and the receipt are awaited, and `None` again after.
      sent := sent + [call];
      var f := Approved(View(), which, s, m);
      SetApproval(f.txError, f.allowA, f.allowB);
    }

    method SetApproval(err: Option<string>, a: nat, b: nat)
      modifies this
      ensures View() == old(View()).(isApproving := None, txError := err, allowA := a, allowB := b)
      ensures storage == old(storage) && sent == old(sent)
    {
      isApproving, txError, allowA, allowB := None, err, a, b;
    }

    /** `onMainCta`: the awaited approval, A's first, and once none is awaited the confirm dialog. */
    method OnMainCta(cfg: Config, wallet: bool, s: Sent, m: Mined)
      modifies this
      ensures var w := Awaiting(old(View()));
        w.None? ==> View() == old(View()).(confirmAdd := true) && sent == old(sent)
      ensures var w := Awaiting(old(View()));
        w.Some? && !ApproveReady(cfg, wallet) ==> View() == old(View()) && sent == old(sent)
      ensures var w := Awaiting(old(View()));
        w.Some? && ApproveReady(cfg, wallet) ==>
          && SideToken(old(View()), w.value).Some? && SideToken(old(View()), w.value).value.address.Erc?
          && View() == Approved(old(View()), w.value, s, m)
          && sent == old(sent) + [ApproveMax(SideToken(old(View()), w.value).value.address.address, cfg.router.value)]
      ensures storage == old(storage)
    {
      var w := Awaiting(View());
      if w.Some? {
        ApproveToken(cfg, wallet, w.value, s, m);
      } else {
        confirmAdd := true;
      }
    }

    /**
     * `doAdd()`: without a wallet, account, router or both tokens nothing
     * happens. Otherwise two native sides and a short balance are refused
     * with their messages; anything else sends the router call `AddCall`
     * picks, and a successful receipt upserts the position, clears the
     * amounts and shows the success note. `enoughA`/`enoughB`, the minimum
     * amounts, the share text and the clock are the page's own values.
     */
    method DoAdd(cfg: Config, wallet: bool, enoughA: bool, enoughB: bool, aMin: int, bMin: int,
                 shares: string, now: int, s: Sent, m: Mined)
      modifies this
      ensures var ready := wallet && Present(cfg.account) && Present(cfg.router) && old(tokA).Some? && old(tokB).Some?;
        !ready ==> View() == old(View()) && storage == old(storage) && sent == old(sent)
      ensures var ready := wallet && Present(cfg.account) && Present(cfg.router) && old(tokA).Some? && old(tokB).Some?;
        ready && old(tokA).value.address.NativeTok? && old(tokB).value.address.NativeTok? ==>
          View() == old(View()).(isAdding := false, txError := Some(E_BOTH_NATIVE))
          && storage == old(storage) && sent == old(sent)
      ensures var ready := wallet && Present(cfg.account) && Present(cfg.router) && old(tokA).Some? && old(tokB).Some?;
        ready && !(old(tokA).value.address.NativeTok? && old(tokB).value.address.NativeTok?) && !(enoughA && enoughB) ==>
          View() == old(View()).(isAdding := false, txError := Some(E_INSUFFICIENT))
          && storage == old(storage) && sent == old(sent)
      ensures var ready := wallet && Present(cfg.account) && Present(cfg.router) && old(tokA).Some? && old(tokB).Some?;
        ready && !(old(tokA).value.address.NativeTok? && old(tokB).value.address.NativeTok?) && enoughA && enoughB ==>
          sent == old(sent) + [AddCall(old(tokA).value, old(tokB).value, ToWei(old(amtA), old(decA)), ToWei(old(amtB), old(decB)), aMin, bMin)]
          && (!(s.Sent? && m == Mined(true)) ==>
                View() == old(View()).(isAdding := false, txError := Some(AddError(s, m))) && storage == old(storage))
          && (s.Sent? && m == Mined(true) ==>
                var p := NewPosition(cfg.chainId, old(tokA).value, old(tokB).value, old(amtA), old(amtB), shares, now);
                var k := PosKey(cfg.account, cfg.chainId);
                View() == old(View()).(isAdding := false, txError := None, amtA := "", amtB := "", confirmAdd := false,
                                       showSuccess := true, positions := if k == "" then old(positions) else Upsert(old(positions), p))
                && storage == (if k == "" then old(storage) else old(storage)[k := Upsert(old(positions), p)]))
    {
      if !wallet || !Present(cfg.account) || !Present(cfg.router) || tokA.None? || tokB.None? {
        return;
      }
      if tokA.value.address.NativeTok? && tokB.value.address.NativeTok? {
        RefuseAdd(E_BOTH_NATIVE);
      } else if !enoughA || !enoughB {
        RefuseAdd(E_INSUFFICIENT);
      } else {
        var a, b := tokA.value, tokB.value;
        SendAdd(cfg, AddCall(a, b, ToWei(amtA, decA), ToWei(amtB, decB), aMin, bMin),
                NewPosition(cfg.chainId, a, b, amtA, amtB, shares, now), s, m);
      }
    }

    /** `doAdd` refusing inside its `try`: the message shown, and `finally` clearing `isAdding`. */
    method RefuseAdd(msg: string)
      modifies this
      ensures View() == old(View()).(isAdding := false, txError := Some(msg))
      ensures storage == old(storage) && sent == old(sent)
    {
      isAdding := true;
      txError := Some(msg);
      isAdding := false;
    }

    /** `doAdd` sending the router call, then recording the position or showing the failure. */
    method SendAdd(cfg: Config, call: Call, p: Position, s: Sent, m: Mined)
      modifies this
      ensures sent == old(sent) + [call]
      ensures !(s.Sent? && m == Mined(true)) ==>
                View() == old(View()).(isAdding := false, txError := Some(AddError(s, m))) && storage == old(storage)
      ensures s.Sent? && m == Mined(true) ==>
                var k := PosKey(cfg.account, cfg.chainId);
                View() == old(View()).(isAdding := false, txError := None, amtA := "", amtB := "", confirmAdd := false,
                                       showSuccess := true, positions := if k == "" then old(positions) else Upsert(old(positions), p))
                && storage == (if k == "" then old(storage) else old(storage)[k := Upsert(old(positions), p)])
    {
      sent := sent + [call];
      isAdding, txError := false, None;
      if s.Sent? && m == Mined(true) {
        RecordAdded(cfg, p);
      } else {
        txError := Some(AddError(s, m));
      }
    }

    /** A successful `doAdd`: the position upserted and saved, the amounts cleared, the success note shown. */
    method RecordAdded(cfg: Config, p: Position)
      modifies this
      ensures var k := PosKey(cfg.account, cfg.chainId);
        View() == old(View()).(amtA := "", amtB := "", confirmAdd := false, showSuccess := true,
                               positions := if k == "" then old(positions) else Upsert(old(positions), p))
        && storage == (if k == "" then old(storage) else old(storage)[k := Upsert(old(positions), p)])
      ensures sent == old(sent)
    {
      SavePositions(cfg, Upsert(positions, p));
      amtA, amtB := "", "";
      confirmAdd := false;
      showSuccess := true;
    }
  }

  /** What `doAdd` shows when the transaction did not go through: the caught message or `"Transaction failed"`. */
  function AddError(s: Sent, m: Mined): string
  {
    if s.SendFailed? then FirstTruthy(s.e.shortMessage, s.e.message, E_TX)
    else if m.WaitFailed? then FirstTruthy(m.e.shortMessage, m.e.message, E_TX)
    else E_TX_FAILED
  }
}
