/**
 * The swap quote engine of the Swap page (`useBestQuote` and its helpers
 * `clean` and `uniqPaths`): a fixed list of candidate V2 paths is priced
 * through the V2 router, the strictly best output wins, and only when no V2
 * path answers are V3 single-pool hops chained through the quoter.
 *
 * The router's `getAmountsOut` and the quoter's `quoteExactInputSingle` are
 * oracles: `quote(path)` is the last entry of `getAmountsOut(amountIn, path)`
 * (None when the call reverts), `quoter(a, b, fee, amt)` one hop's output.
 */
module SwapRoute {
  import opened Common
  import opened Keyed

  type Path = seq<Addr>

  // ---------------------------------------------------------------------
  // Per-chain tables.

  const WNATIVE: map<nat, string> := map[
    56 := "0xBB4CdB9CBd36B01bD1cBaEBF2De08d9173bc095c",
    1 := "0xC02aaA39b223FE8D0A0e5C4F27eAD9083C756Cc2",
    42161 := "0x82af49447d8a07e3bd95bd0d56f35241523fbab1",
    8453 := "0x4200000000000000000000000000000000000006",
    97 := "0xae13d989daC2f0dEbFf460aC112a837C89BAa7cd",
    11155111 := "0xfFf9976782d46CC05630D1f6eBAb18b2324d6B14",
    421614 := "0x1bdc540dEB9Ed1fA29964DeEcCc524A8f5e2198e",
    84532 := "0x4200000000000000000000000000000000000006",
    2030 := "0x11C43293631a7c810918A10164016cEe458ac64D"]

  const ROUTER_V2: map<nat, string> := map[
    56 := "0x10ED43C718714eb63d5aA57B78B54704E256024E",
    1 := "0x7a250d5630B4cF539739dF2C5dAcb4c659F2488D",
    8453 := "0x8cFe327CEc66d1C090Dd72bd0FF11d690C33a2Eb",
    42161 := "0x8cFe327CEc66d1C090Dd72bd0FF11d690C33a2Eb",
    97 := "0xD99D1c33F9fC3444f8101754aBC46c52416550D1",
    11155111 := "0xeE567Fe1712Faf6149d80dA1E6934E354124CfE3",
    421614 := "0x8cFe327CEc66d1C090Dd72bd0FF11d690C33a2Eb",
    2030 := "0x224cd6F72660fE1eFA650255a2bCa9670b4d38c1",
    84532 := "0x8cFe327CEc66d1C090Dd72bd0FF11d690C33a2Eb"]

  const QUOTER_V3: map<nat, string> := map[
    1 := "0xb27308f9F90D607463bb33eA1BeBb41C27CE5AB6",
    42161 := "0x61fFE014bA17989E743c5F6cB21Bf9697530B21e",
    8453 := "0xb27308f9F90D607463bb33eA1BeBb41C27CE5AB6"]

  const FEE_TIERS: map<nat, seq<nat>> := map[
    56 := [500, 2500, 10000],
    1 := [500, 3000, 10000],
    42161 := [500, 3000, 10000],
    8453 := [500, 3000, 10000]]

  /** Fee tiers of a chain missing from the table. */
  const DEFAULT_FEE_TIERS: seq<nat> := [500, 2500, 10000]

  const STABLES: map<nat, seq<string>> := map[
    56 := ["0x55d398326f99059fF775485246999027B3197955",
           "0x8ac76a51cc950d9822d68b83fe1ad97b32cd580d",
           "0xe9e7cea3dedca5984780bafc599bd69add087d56"],
    1 := ["0xdAC17F958D2ee523a2206206994597C13D831ec7",
          "0xA0b86991c6218b36c1d19D4a2e9Eb0cE3606eB48"],
    42161 := ["0xFF970A61A04b1cA14834A43f5de4533ebDDB5CC8"],
    8453 := ["0x833589fCD6EDB6E08f4c7C32D4f71B54B2689996"]]

  datatype RouteConfig = RouteConfig(
    router: Option<Addr>,
    quoter: Option<Addr>,
    wnative: Option<Addr>,
    stables: seq<Addr>,
    feeTiers: seq<nat>)

  /** `asAddr(TABLE[chainId])` */
  function TableAddr(m: map<nat, string>, chainId: nat): (r: Option<Addr>)
    ensures r.Some? ==> chainId in m && r.value == Lower(m[chainId])
  {
    if chainId in m then AsAddr(m[chainId]) else None
  }

  /** `list.map(asAddr).filter(Boolean)` */
  function ValidAddrs(ss: seq<string>): (r: seq<Addr>)
    ensures |r| <= |ss|
    ensures forall i :: 0 <= i < |r| ==> IsLower(r[i])
    ensures forall a :: a in r <==> exists i :: 0 <= i < |ss| && AsAddr(ss[i]) == Some(a)
    ensures (forall i :: 0 <= i < |ss| ==> AsAddr(ss[i]).Some?) ==> |r| == |ss|
  {
    if |ss| == 0 then []
    else
      var init := ss[..|ss| - 1];
      var prev := ValidAddrs(init);
      assert forall i :: 0 <= i < |init| ==> init[i] == ss[i];
      match AsAddr(ss[|ss| - 1])
      case Some(a) => prev + [a]
      case None => prev
  }

  function ConfigFor(chainId: nat): (c: RouteConfig)
    ensures c.router.Some? ==> chainId in ROUTER_V2
    ensures c.quoter.Some? ==> chainId in QUOTER_V3
    ensures chainId !in FEE_TIERS ==> c.feeTiers == DEFAULT_FEE_TIERS
  {
    RouteConfig(
      TableAddr(ROUTER_V2, chainId),
      TableAddr(QUOTER_V3, chainId),
      TableAddr(WNATIVE, chainId),
      ValidAddrs(if chainId in STABLES then STABLES[chainId] else []),
      if chainId in FEE_TIERS then FEE_TIERS[chainId] else DEFAULT_FEE_TIERS)
  }

  // ---------------------------------------------------------------------
  // `clean`: drop an address equal, ignoring case, to the one before it in
  // the ORIGINAL array.

  predicate SameAddr(a: Addr, b: Addr) { Lower(a) == Lower(b) }

  /** No two neighbours are the same address. */
  predicate NoRepeats(p: Path)
  {
    forall i :: 0 < i < |p| ==> !SameAddr(p[i - 1], p[i])
  }

  function Clean(p: Path): Path
  {
    if |p| <= 1 then p
    else
      var n := |p| - 1;
      if SameAddr(p[n], p[n - 1]) then Clean(p[..n]) else Clean(p[..n]) + [p[n]]
  }

  /**
   * `clean` keeps the first address, ends on the same address as its input,
   * never leaves two neighbours equal, and invents nothing.
   */
  lemma {:induction false} CleanShape(p: Path)
    ensures |Clean(p)| <= |p|
    ensures |p| > 0 ==> |Clean(p)| > 0 && Clean(p)[0] == p[0] && SameAddr(Clean(p)[|Clean(p)| - 1], p[|p| - 1])
    ensures NoRepeats(Clean(p))
    ensures forall i :: 0 <= i < |Clean(p)| ==> Clean(p)[i] in p
  {
    if |p| > 1 {
      var n := |p| - 1;
      var prev := Clean(p[..n]);
      CleanShape(p[..n]);
      assert p[..n][n - 1] == p[n - 1];
      if !SameAddr(p[n], p[n - 1]) {
        var r := prev + [p[n]];
        assert r[|r| - 1] == p[n];
        forall i | 0 < i < |r| ensures !SameAddr(r[i - 1], r[i]) {
          if i < |prev| { assert r[i - 1] == prev[i - 1] && r[i] == prev[i]; }
        }
        forall i | 0 <= i < |r| ensures r[i] in p {
          if i < |prev| { assert r[i] == prev[i]; assert prev[i] in p[..n]; }
        }
      } else {
        forall i | 0 <= i < |prev| ensures prev[i] in p {
          assert prev[i] in p[..n];
        }
      }
    }
  }

  /** A path without neighbouring repeats is left as it is, so `clean` is idempotent. */
  lemma {:induction false} CleanOfNoRepeats(p: Path)
    requires NoRepeats(p)
    ensures Clean(p) == p
  {
    if |p| > 1 {
      var n := |p| - 1;
      assert !SameAddr(p[n - 1], p[n]);
      assert NoRepeats(p[..n]);
      CleanOfNoRepeats(p[..n]);
      LastSplit(p);
    }
  }

  lemma CleanIdempotent(p: Path)
    ensures Clean(Clean(p)) == Clean(p)
  {
    CleanShape(p);
    CleanOfNoRepeats(Clean(p));
  }

  // ---------------------------------------------------------------------
  // `uniqPaths`: one path per lowercase `>`-joined key, first one wins.

  function Join(p: Path, sep: string): string
  {
    if |p| == 0 then "" else if |p| == 1 then p[0] else Join(p[..|p| - 1], sep) + sep + p[|p| - 1]
  }

  function PathKey(p: Path): string { Lower(Join(p, ">")) }

  method UniqPaths(paths: seq<Path>) returns (out: seq<Path>)
    ensures out == FirstByKey(paths, PathKey)
  {
    var seen: set<string> := {};
    out := [];
    for i := 0 to |paths|
      invariant out == FirstByKey(paths[..i], PathKey)
      invariant seen == KeysOf(out, PathKey)
    {
      var k := PathKey(paths[i]);
      assert paths[..i + 1][..i] == paths[..i];
      if k !in seen {
        KeysOfSnoc(out, PathKey, paths[i]);
        seen := seen + {k};
        out := out + [paths[i]];
      }
    }
    assert paths[..|paths|] == paths;
  }

  // ---------------------------------------------------------------------
  // V2 candidate paths, in the order they are pushed.

  function ViaNative(tokenIn: Addr, tokenOut: Addr, w: Option<Addr>): seq<Path>
  {
    if w.Some? && tokenIn != w.value && tokenOut != w.value then [Clean([tokenIn, w.value, tokenOut])] else []
  }

  function Singles(tokenIn: Addr, tokenOut: Addr, st: seq<Addr>): seq<Path>
  {
    if |st| == 0 then []
    else Singles(tokenIn, tokenOut, st[..|st| - 1]) + [Clean([tokenIn, st[|st| - 1], tokenOut])]
  }

  function PairsWith(tokenIn: Addr, tokenOut: Addr, a: Addr, st: seq<Addr>): seq<Path>
  {
    if |st| == 0 then []
    else
      var b := st[|st| - 1];
      PairsWith(tokenIn, tokenOut, a, st[..|st| - 1]) + (if a != b then [Clean([tokenIn, a, b, tokenOut])] else [])
  }

  function Pairs(tokenIn: Addr, tokenOut: Addr, firsts: seq<Addr>, st: seq<Addr>): seq<Path>
  {
    if |firsts| == 0 then []
    else Pairs(tokenIn, tokenOut, firsts[..|firsts| - 1], st) + PairsWith(tokenIn, tokenOut, firsts[|firsts| - 1], st)
  }

  /** direct, then via wrapped native, then via each stable, then via each ordered pair of distinct stables */
  function V2Candidates(tokenIn: Addr, tokenOut: Addr, w: Option<Addr>, st: seq<Addr>): seq<Path>
  {
    [Clean([tokenIn, tokenOut])] + ViaNative(tokenIn, tokenOut, w) + Singles(tokenIn, tokenOut, st) + Pairs(tokenIn, tokenOut, st, st)
  }

  method PushSingles(base: seq<Path>, tokenIn: Addr, tokenOut: Addr, st: seq<Addr>) returns (r: seq<Path>)
    ensures r == base + Singles(tokenIn, tokenOut, st)
  {
    r := base;
    for i := 0 to |st|
      invariant r == base + Singles(tokenIn, tokenOut, st[..i])
    {
      assert st[..i + 1][..i] == st[..i];
      r := r + [Clean([tokenIn, st[i], tokenOut])];
    }
    assert st[..|st|] == st;
  }

  method PushPairsWith(base: seq<Path>, tokenIn: Addr, tokenOut: Addr, a: Addr, st: seq<Addr>) returns (r: seq<Path>)
    ensures r == base + PairsWith(tokenIn, tokenOut, a, st)
  {
    r := base;
    for j := 0 to |st|
      invariant r == base + PairsWith(tokenIn, tokenOut, a, st[..j])
    {
      assert st[..j + 1][..j] == st[..j];
      if a != st[j] {
        r := r + [Clean([tokenIn, a, st[j], tokenOut])];
      }
    }
    assert st[..|st|] == st;
  }

  method PushPairs(base: seq<Path>, tokenIn: Addr, tokenOut: Addr, st: seq<Addr>) returns (r: seq<Path>)
    ensures r == base + Pairs(tokenIn, tokenOut, st, st)
  {
    r := base;
    for i := 0 to |st|
      invariant r == base + Pairs(tokenIn, tokenOut, st[..i], st)
    {
      assert st[..i + 1][..i] == st[..i];
      r := PushPairsWith(r, tokenIn, tokenOut, st[i], st);
    }
    assert st[..|st|] == st;
  }

  method BuildV2Candidates(tokenIn: Addr, tokenOut: Addr, w: Option<Addr>, st: seq<Addr>) returns (base: seq<Path>)
    ensures base == V2Candidates(tokenIn, tokenOut, w, st)
  {
    base := [Clean([tokenIn, tokenOut])];
    if w.Some? && tokenIn != w.value && tokenOut != w.value {
      base := base + [Clean([tokenIn, w.value, tokenOut])];
    }
    base := PushSingles(base, tokenIn, tokenOut, st);
    base := PushPairs(base, tokenIn, tokenOut, st);
  }

  /** Every candidate starts at the input token, ends at the output token and has at most four hops' worth of addresses. */
  predicate RouteShape(p: Path, tokenIn: Addr, tokenOut: Addr)
  {
    1 <= |p| <= 4 && p[0] == tokenIn && SameAddr(p[|p| - 1], tokenOut) && NoRepeats(p)
  }

  lemma {:induction false} SinglesShape(tokenIn: Addr, tokenOut: Addr, st: seq<Addr>)
    ensures forall k :: 0 <= k < |Singles(tokenIn, tokenOut, st)| ==> RouteShape(Singles(tokenIn, tokenOut, st)[k], tokenIn, tokenOut)
  {
    if |st| > 0 {
      SinglesShape(tokenIn, tokenOut, st[..|st| - 1]);
      CleanShape([tokenIn, st[|st| - 1], tokenOut]);
    }
  }

  lemma {:induction false} PairsWithShape(tokenIn: Addr, tokenOut: Addr, a: Addr, st: seq<Addr>)
    ensures forall k :: 0 <= k < |PairsWith(tokenIn, tokenOut, a, st)| ==> RouteShape(PairsWith(tokenIn, tokenOut, a, st)[k], tokenIn, tokenOut)
  {
    if |st| > 0 {
      PairsWithShape(tokenIn, tokenOut, a, st[..|st| - 1]);
      CleanShape([tokenIn, a, st[|st| - 1], tokenOut]);
    }
  }

  lemma {:induction false} PairsShape(tokenIn: Addr, tokenOut: Addr, firsts: seq<Addr>, st: seq<Addr>)
    ensures forall k :: 0 <= k < |Pairs(tokenIn, tokenOut, firsts, st)| ==> RouteShape(Pairs(tokenIn, tokenOut, firsts, st)[k], tokenIn, tokenOut)
  {
    if |firsts| > 0 {
      PairsShape(tokenIn, tokenOut, firsts[..|firsts| - 1], st);
      PairsWithShape(tokenIn, tokenOut, firsts[|firsts| - 1], st);
    }
  }

  lemma V2CandidatesShape(tokenIn: Addr, tokenOut: Addr, w: Option<Addr>, st: seq<Addr>)
    ensures forall k :: 0 <= k < |V2Candidates(tokenIn, tokenOut, w, st)| ==> RouteShape(V2Candidates(tokenIn, tokenOut, w, st)[k], tokenIn, tokenOut)
  {
    CleanShape([tokenIn, tokenOut]);
    if w.Some? { CleanShape([tokenIn, w.value, tokenOut]); }
    SinglesShape(tokenIn, tokenOut, st);
    PairsShape(tokenIn, tokenOut, st, st);
  }

  /** With `b` ranging over `st`, every `b` except the copies of `a` gives a path. */
  lemma {:induction false} PairsWithLength(tokenIn: Addr, tokenOut: Addr, a: Addr, st: seq<Addr>)
    ensures |PairsWith(tokenIn, tokenOut, a, st)| == |st| - multiset(st)[a]
  {
    if |st| > 0 {
      PairsWithLength(tokenIn, tokenOut, a, st[..|st| - 1]);
      LastSplit(st);
    }
  }

  lemma {:induction false} PairsLength(tokenIn: Addr, tokenOut: Addr, firsts: seq<Addr>, st: seq<Addr>)
    requires forall i :: 0 <= i < |firsts| ==> multiset(st)[firsts[i]] == 1
    ensures |Pairs(tokenIn, tokenOut, firsts, st)| == |firsts| * (|st| - 1)
  {
    if |firsts| > 0 {
      var n := |firsts| - 1;
      var init := firsts[..n];
      forall i | 0 <= i < |init| ensures multiset(st)[init[i]] == 1 {
        assert init[i] == firsts[i];
      }
      PairsLength(tokenIn, tokenOut, init, st);
      PairsWithLength(tokenIn, tokenOut, firsts[n], st);
      assert multiset(st)[firsts[n]] == 1;
      var m := |st| - 1;
      MulSucc(n, m);
    }
  }

  lemma MulSucc(n: nat, m: int)
    ensures (n + 1) * m == n * m + m
  {
  }

  /** With n distinct stables there are 1 + [via native] + n + n(n-1) candidates before dedup. */
  lemma V2CandidatesCount(tokenIn: Addr, tokenOut: Addr, w: Option<Addr>, st: seq<Addr>)
    requires forall i, j :: 0 <= i < j < |st| ==> st[i] != st[j]
    ensures |V2Candidates(tokenIn, tokenOut, w, st)|
      == 1 + |ViaNative(tokenIn, tokenOut, w)| + |st| + |st| * (|st| - 1)
  {
    forall i | 0 <= i < |st| ensures multiset(st)[st[i]] == 1 {
      DistinctCount(st, i);
    }
    PairsLength(tokenIn, tokenOut, st, st);
    SinglesLength(tokenIn, tokenOut, st);
  }

  lemma {:induction false} SinglesLength(tokenIn: Addr, tokenOut: Addr, st: seq<Addr>)
    ensures |Singles(tokenIn, tokenOut, st)| == |st|
  {
    if |st| > 0 { SinglesLength(tokenIn, tokenOut, st[..|st| - 1]); }
  }

  lemma {:induction false} DistinctCount(st: seq<Addr>, i: nat)
    requires i < |st|
    requires forall a, b :: 0 <= a < b < |st| ==> st[a] != st[b]
    ensures multiset(st)[st[i]] == 1
  {
    var n := |st| - 1;
    LastSplit(st);
    if i == n {
      assert st[n] !in st[..n];
    } else {
      DistinctCount(st[..n], i);
      assert st[n] != st[i];
    }
  }

  // ---------------------------------------------------------------------
  // Best-output selection: `if (!best || o > best.out) best = ...`.

  /** The index the selection loop ends on, from the outputs of the candidates in order (None: the call reverted). */
  function BestIndex(outs: seq<Option<nat>>): (r: Option<nat>)
    ensures r.None? <==> forall i :: 0 <= i < |outs| ==> outs[i].None?
    ensures r.Some? ==> r.value < |outs| && outs[r.value].Some?
  {
    if |outs| == 0 then None
    else
      var n := |outs| - 1;
      var prev := BestIndex(outs[..n]);
      match outs[n]
      case None => prev
      case Some(o) => if prev.None? || o > outs[prev.value].value then Some(n) else prev
  }

  /** The kept output is the greatest one, and it comes from the earliest candidate reaching it. */
  lemma {:induction false} BestIndexIsFirstMaximum(outs: seq<Option<nat>>)
    requires BestIndex(outs).Some?
    ensures var k := BestIndex(outs).value;
      && (forall j :: 0 <= j < |outs| && outs[j].Some? ==> outs[j].value <= outs[k].value)
      && (forall j :: 0 <= j < k && outs[j].Some? ==> outs[j].value < outs[k].value)
  {
    var n := |outs| - 1;
    var prev := BestIndex(outs[..n]);
    if prev.Some? {
      BestIndexIsFirstMaximum(outs[..n]);
    }
  }

  lemma BestIndexSnoc(outs: seq<Option<nat>>, o: Option<nat>)
    ensures BestIndex(outs + [o]) ==
      match o
      case None => BestIndex(outs)
      case Some(v) =>
        if BestIndex(outs).None? || v > outs[BestIndex(outs).value].value then Some(|outs|) else BestIndex(outs)
  {
    assert (outs + [o])[..|outs|] == outs;
  }

  function LowerPath(p: Path): (r: Path)
    ensures |r| == |p| && forall i :: 0 <= i < |p| ==> r[i] == Lower(p[i])
  {
    seq(|p|, i requires 0 <= i < |p| => Lower(p[i]))
  }

  /** What `getAmountsOut` answers for each candidate, called with the lowercased path. */
  function V2Outputs(paths: seq<Path>, quote: Path -> Option<nat>): (r: seq<Option<nat>>)
    ensures |r| == |paths| && forall i :: 0 <= i < |paths| ==> r[i] == quote(LowerPath(paths[i]))
  {
    seq(|paths|, i requires 0 <= i < |paths| => quote(LowerPath(paths[i])))
  }

  datatype Picked = Picked(out: nat, path: Path, fees: seq<nat>)

  function V2Pick(paths: seq<Path>, quote: Path -> Option<nat>): Option<Picked>
  {
    match BestIndex(V2Outputs(paths, quote))
    case None => None
    case Some(k) => Some(Picked(quote(LowerPath(paths[k])).value, LowerPath(paths[k]), []))
  }

  /** The pick is the greatest answer among the candidates, taken from one of them. */
  lemma V2PickIsBest(paths: seq<Path>, quote: Path -> Option<nat>)
    requires V2Pick(paths, quote).Some?
    ensures var q := V2Pick(paths, quote).value;
      && (exists k :: 0 <= k < |paths| && q.path == LowerPath(paths[k]) && quote(q.path) == Some(q.out))
      && (forall j :: 0 <= j < |paths| && quote(LowerPath(paths[j])).Some? ==> quote(LowerPath(paths[j])).value <= q.out)
  {
    var outs := V2Outputs(paths, quote);
    BestIndexIsFirstMaximum(outs);
    var k := BestIndex(outs).value;
    assert outs[k] == quote(LowerPath(paths[k]));
    forall j | 0 <= j < |paths| && quote(LowerPath(paths[j])).Some?
      ensures quote(LowerPath(paths[j])).value <= outs[k].value
    {
      assert outs[j] == quote(LowerPath(paths[j]));
    }
  }

  method SelectBestV2(paths: seq<Path>, quote: Path -> Option<nat>) returns (best: Option<Picked>)
    ensures best == V2Pick(paths, quote)
  {
    best := None;
    ghost var k: Option<nat> := None;
    for i := 0 to |paths|
      invariant k == BestIndex(V2Outputs(paths[..i], quote))
      invariant k.None? ==> best.None?
      invariant k.Some? ==> k.value < i && best == Some(Picked(quote(LowerPath(paths[k.value])).value, LowerPath(paths[k.value]), []))
    {
      var o := quote(LowerPath(paths[i]));
      assert V2Outputs(paths[..i + 1], quote) == V2Outputs(paths[..i], quote) + [o];
      BestIndexSnoc(V2Outputs(paths[..i], quote), o);
      if o.Some? && (best.None? || o.value > best.value.out) {
        best := Some(Picked(o.value, LowerPath(paths[i]), []));
        k := Some(i);
      }
    }
    assert paths[..|paths|] == paths;
  }

  // ---------------------------------------------------------------------
  // V3 hops.

  datatype Hop = Hop(path: Path, fees: seq<nat>)

  type Quoter = (Addr, Addr, nat, nat) -> Option<nat>

  /**
   * `amt` threaded through `quoteExactInputSingle` pool by pool. A missing fee
   * (`hop.fees[i]` undefined) makes the call fail like a revert.
   */
  function HopChain(path: Path, fees: seq<nat>, amt: nat, quoter: Quoter): Option<nat>
    decreases |path|
  {
    if |path| < 2 then Some(amt)
    else if |fees| == 0 then None
    else
      match quoter(Lower(path[0]), Lower(path[1]), fees[0], amt)
      case None => None
      case Some(a) => HopChain(path[1..], fees[1..], a, quoter)
  }

  method QuoteHops(hop: Hop, amountIn: nat, quoter: Quoter) returns (r: Option<nat>)
    ensures r == HopChain(hop.path, hop.fees, amountIn, quoter)
  {
    var amt := amountIn;
    var i := 0;
    while i + 1 < |hop.path|
      invariant i <= |hop.path| && i <= |hop.fees|
      invariant HopChain(hop.path[i..], hop.fees[i..], amt, quoter) == HopChain(hop.path, hop.fees, amountIn, quoter)
    {
      if i == |hop.fees| {
        return None;
      }
      var q := quoter(Lower(hop.path[i]), Lower(hop.path[i + 1]), hop.fees[i], amt);
      assert hop.path[i..][1..] == hop.path[i + 1..];
      assert hop.fees[i..][1..] == hop.fees[i + 1..];
      if q.None? {
        return None;
      }
      amt := q.value;
      i := i + 1;
    }
    return Some(amt);
  }

  /** Each hop's output is the next hop's input: a chain splits at any joint. */
  lemma {:induction false} HopChainSplit(p: Path, q: Path, fp: seq<nat>, fq: seq<nat>, amt: nat, quoter: Quoter)
    requires |p| >= 1 && |q| >= 1 && p[|p| - 1] == q[0]
    requires |fp| == |p| - 1
    ensures HopChain(p + q[1..], fp + fq, amt, quoter) ==
      match HopChain(p, fp, amt, quoter)
      case None => None
      case Some(m) => HopChain(q, fq, m, quoter)
    decreases |p|
  {
    if |p| == 1 {
      assert p + q[1..] == q;
      assert fp + fq == fq;
    } else {
      assert (p + q[1..])[1..] == p[1..] + q[1..];
      assert (fp + fq)[1..] == fp[1..] + fq;
      match quoter(Lower(p[0]), Lower(p[1]), fp[0], amt)
      case None =>
      case Some(a) => HopChainSplit(p[1..], q, fp[1..], fq, a, quoter);
    }
  }

  /** A one-address path (input token equal to output token) passes the amount through with no call. */
  lemma HopChainSingleAddress(a: Addr, fees: seq<nat>, amt: nat, quoter: Quoter)
    ensures HopChain([a], fees, amt, quoter) == Some(amt)
  {
  }

  function FeeHops(path: Path, fees: seq<nat>): seq<Hop>
  {
    if |fees| == 0 then [] else FeeHops(path, fees[..|fees| - 1]) + [Hop(path, [fees[|fees| - 1]])]
  }

  function FeePairsWith(path: Path, f1: nat, fees: seq<nat>): seq<Hop>
  {
    if |fees| == 0 then [] else FeePairsWith(path, f1, fees[..|fees| - 1]) + [Hop(path, [f1, fees[|fees| - 1]])]
  }

  function FeePairs(path: Path, firsts: seq<nat>, fees: seq<nat>): seq<Hop>
  {
    if |firsts| == 0 then []
    else FeePairs(path, firsts[..|firsts| - 1], fees) + FeePairsWith(path, firsts[|firsts| - 1], fees)
  }

  function StableHops(tokenIn: Addr, tokenOut: Addr, st: seq<Addr>, fees: seq<nat>): seq<Hop>
  {
    if |st| == 0 then []
    else StableHops(tokenIn, tokenOut, st[..|st| - 1], fees) + FeePairs(Clean([tokenIn, st[|st| - 1], tokenOut]), fees, fees)
  }

  /** direct at each fee tier, via wrapped native at each pair of tiers, via each stable at each pair of tiers */
  function V3Candidates(tokenIn: Addr, tokenOut: Addr, w: Option<Addr>, st: seq<Addr>, fees: seq<nat>): seq<Hop>
  {
    FeeHops(Clean([tokenIn, tokenOut]), fees)
    + (if w.Some? && tokenIn != w.value && tokenOut != w.value then FeePairs(Clean([tokenIn, w.value, tokenOut]), fees, fees) else [])
    + StableHops(tokenIn, tokenOut, st, fees)
  }

  method PushFeePairs(base: seq<Hop>, path: Path, fees: seq<nat>) returns (r: seq<Hop>)
    ensures r == base + FeePairs(path, fees, fees)
  {
    r := base;
    for i := 0 to |fees|
      invariant r == base + FeePairs(path, fees[..i], fees)
    {
      assert fees[..i + 1][..i] == fees[..i];
      ghost var outer := r;
      for j := 0 to |fees|
        invariant r == outer + FeePairsWith(path, fees[i], fees[..j])
      {
        assert fees[..j + 1][..j] == fees[..j];
        r := r + [Hop(path, [fees[i], fees[j]])];
      }
      assert fees[..|fees|] == fees;
    }
    assert fees[..|fees|] == fees;
  }

  method PushFeeHops(base: seq<Hop>, path: Path, fees: seq<nat>) returns (r: seq<Hop>)
    ensures r == base + FeeHops(path, fees)
  {
    r := base;
    for i := 0 to |fees|
      invariant r == base + FeeHops(path, fees[..i])
    {
      assert fees[..i + 1][..i] == fees[..i];
      r := r + [Hop(path, [fees[i]])];
    }
    assert fees[..|fees|] == fees;
  }

  method PushStableHops(base: seq<Hop>, tokenIn: Addr, tokenOut: Addr, st: seq<Addr>, fees: seq<nat>) returns (r: seq<Hop>)
    ensures r == base + StableHops(tokenIn, tokenOut, st, fees)
  {
    r := base;
    for i := 0 to |st|
      invariant r == base + StableHops(tokenIn, tokenOut, st[..i], fees)
    {
      assert st[..i + 1][..i] == st[..i];
      r := PushFeePairs(r, Clean([tokenIn, st[i], tokenOut]), fees);
    }
    assert st[..|st|] == st;
  }

  method BuildV3Candidates(tokenIn: Addr, tokenOut: Addr, w: Option<Addr>, st: seq<Addr>, fees: seq<nat>) returns (cands: seq<Hop>)
    ensures cands == V3Candidates(tokenIn, tokenOut, w, st, fees)
  {
    cands := PushFeeHops([], Clean([tokenIn, tokenOut]), fees);
    if w.Some? && tokenIn != w.value && tokenOut != w.value {
      cands := PushFeePairs(cands, Clean([tokenIn, w.value, tokenOut]), fees);
    }
    cands := PushStableHops(cands, tokenIn, tokenOut, st, fees);
  }

  function V3Outputs(cands: seq<Hop>, amountIn: nat, quoter: Quoter): (r: seq<Option<nat>>)
    ensures |r| == |cands| && forall i :: 0 <= i < |cands| ==> r[i] == HopChain(cands[i].path, cands[i].fees, amountIn, quoter)
  {
    seq(|cands|, i requires 0 <= i < |cands| => HopChain(cands[i].path, cands[i].fees, amountIn, quoter))
  }

  function V3Pick(cands: seq<Hop>, amountIn: nat, quoter: Quoter): Option<Picked>
  {
    match BestIndex(V3Outputs(cands, amountIn, quoter))
    case None => None
    case Some(k) =>
      Some(Picked(HopChain(cands[k].path, cands[k].fees, amountIn, quoter).value, LowerPath(cands[k].path), cands[k].fees))
  }

  /** The V3 pick carries the greatest chained answer among the candidates, with the path and tiers of one of them. */
  lemma V3PickIsBest(cands: seq<Hop>, amountIn: nat, quoter: Quoter)
    requires V3Pick(cands, amountIn, quoter).Some?
    ensures var q := V3Pick(cands, amountIn, quoter).value;
      && (exists k :: 0 <= k < |cands| && q.path == LowerPath(cands[k].path) && q.fees == cands[k].fees
            && HopChain(cands[k].path, cands[k].fees, amountIn, quoter) == Some(q.out))
      && (forall j :: 0 <= j < |cands| && HopChain(cands[j].path, cands[j].fees, amountIn, quoter).Some? ==>
            HopChain(cands[j].path, cands[j].fees, amountIn, quoter).value <= q.out)
  {
    var outs := V3Outputs(cands, amountIn, quoter);
    BestIndexIsFirstMaximum(outs);
    var k := BestIndex(outs).value;
    assert outs[k] == HopChain(cands[k].path, cands[k].fees, amountIn, quoter);
    forall j | 0 <= j < |cands| && HopChain(cands[j].path, cands[j].fees, amountIn, quoter).Some?
      ensures HopChain(cands[j].path, cands[j].fees, amountIn, quoter).value <= outs[k].value
    {
      assert outs[j] == HopChain(cands[j].path, cands[j].fees, amountIn, quoter);
    }
  }

  method SelectBestV3(cands: seq<Hop>, amountIn: nat, quoter: Quoter) returns (best: Option<Picked>)
    ensures best == V3Pick(cands, amountIn, quoter)
  {
    best := None;
    ghost var k: Option<nat> := None;
    for i := 0 to |cands|
      invariant k == BestIndex(V3Outputs(cands[..i], amountIn, quoter))
      invariant k.None? ==> best.None?
      invariant k.Some? ==> k.value < i && best == Some(Picked(HopChain(cands[k.value].path, cands[k.value].fees, amountIn, quoter).value, LowerPath(cands[k.value].path), cands[k.value].fees))
    {
      var amt := QuoteHops(cands[i], amountIn, quoter);
      assert V3Outputs(cands[..i + 1], amountIn, quoter) == V3Outputs(cands[..i], amountIn, quoter) + [amt];
      BestIndexSnoc(V3Outputs(cands[..i], amountIn, quoter), amt);
      if amt.Some? && (best.None? || amt.value > best.value.out) {
        best := Some(Picked(amt.value, LowerPath(cands[i].path), cands[i].fees));
        k := Some(i);
      }
    }
    assert cands[..|cands|] == cands;
  }

  // ---------------------------------------------------------------------
  // Minimum output and the quote hook's result.

  /** `blind ? 1n : out - (out * BigInt(bps)) / 10_000n` */
  function MinOut(out: nat, bps: int, blind: bool): int
  {
    if blind then 1 else out - TruncDiv(out * bps, 10000)
  }

  lemma MinOutBounds(out: nat, bps: int, blind: bool)
    requires !blind && 0 <= bps <= 10000
    ensures 0 <= MinOut(out, bps, blind) <= out
    ensures bps == 0 ==> MinOut(out, bps, blind) == out
    ensures MinOut(out, bps, blind) == out - (out * bps) / 10000
  {
    assert out * bps <= out * 10000;
  }

  /** A looser tolerance never raises the minimum. */
  lemma MinOutAntitone(out: nat, bps1: int, bps2: int)
    requires 0 <= bps1 <= bps2
    ensures MinOut(out, bps2, false) <= MinOut(out, bps1, false)
  {
    assert out * bps1 <= out * bps2;
    DivMonotone(out * bps1, out * bps2, 10000);
  }

  lemma DivMonotone(a: nat, b: nat, d: nat)
    requires a <= b && d > 0
    ensures a / d <= b / d
  {
    var qa, qb := a / d, b / d;
    if qa > qb {
      MulLe(qb + 1, qa, d);
      assert false;
    }
  }

  lemma MulLe(x: nat, y: nat, d: nat)
    requires x <= y
    ensures x * d <= y * d
  {
    assert y * d == x * d + (y - x) * d;
  }

  datatype Proto = V2 | V3

  datatype Quote = Quote(proto: Proto, amountOut: nat, amountOutMin: int, path: Path, fees: seq<nat>)

  datatype QuoteResult = QuoteResult(quote: Option<Quote>, error: Option<string>)

  const ROUTE_NOT_AVAILABLE := "Route not available"
  const ROUTER_NOT_CONFIGURED := "Router V2 not configured"

  /** The answer once the hook runs: V2 first, V3 only when V2 found nothing, else the route error. */
  function QuoteWith(
    cfg: RouteConfig, routerListed: bool, tokenIn: Addr, tokenOut: Addr, amountIn: nat,
    bps: int, blind: bool, quote: Path -> Option<nat>, quoter: Quoter): QuoteResult
  {
    var v2paths := FirstByKey(V2Candidates(tokenIn, tokenOut, cfg.wnative, cfg.stables), PathKey);
    var b2 := if cfg.router.Some? then V2Pick(v2paths, quote) else None;
    if b2.Some? then
      QuoteResult(Some(Quote(V2, b2.value.out, MinOut(b2.value.out, bps, blind), b2.value.path, [])), None)
    else
      var b3 := if cfg.quoter.Some? then V3Pick(V3Candidates(tokenIn, tokenOut, cfg.wnative, cfg.stables, cfg.feeTiers), amountIn, quoter) else None;
      if b3.Some? then
        QuoteResult(Some(Quote(V3, b3.value.out, MinOut(b3.value.out, bps, blind), b3.value.path, b3.value.fees)), None)
      else
        QuoteResult(None, Some(if routerListed then ROUTE_NOT_AVAILABLE else ROUTER_NOT_CONFIGURED))
  }

  /**
   * `parseUnits(amountInFloat || "0", decimalsIn)` inside the hook's
   * outer `try`: the amount in base units, or the error it throws, which
   * the outer `catch` turns into the hook's error.
   */
  datatype ParsedAmount = Units(amountIn: nat) | Threw(e: ErrInfo)

  const QUOTE_FAILED := "Quote failed"

  /**
   * The state the quote hook settles in. `amountPositive` is the float test
   * `Number(amountInFloat) > 0`; `amount` the parsed amount the oracles are
   * asked about, or what parsing threw.
   */
  function QuoteSpec(
    chainId: nat, tokenIn: Addr, tokenOut: Addr, amount: ParsedAmount, amountPositive: bool,
    bps: int, enabled: bool, blind: bool, hasClient: bool,
    quote: Path -> Option<nat>, quoter: Quoter): QuoteResult
  {
    if !hasClient || !enabled || !amountPositive then QuoteResult(None, None)
    else match amount
      case Threw(e) => QuoteResult(None, Some(FirstTruthy(e.shortMessage, e.message, QUOTE_FAILED)))
      case Units(a) => QuoteWith(ConfigFor(chainId), chainId in ROUTER_V2, tokenIn, tokenOut, a, bps, blind, quote, quoter)
  }

  /**
   * The hook's outcomes: nothing without a client, when disabled or for a
   * non-positive amount; an amount that does not parse clears the quote and
   * shows the thrown message, or "Quote failed"; otherwise exactly one of a
   * quote and a route error.
   */
  lemma QuoteSpecOutcomes(
    chainId: nat, tokenIn: Addr, tokenOut: Addr, amount: ParsedAmount, amountPositive: bool,
    bps: int, enabled: bool, blind: bool, hasClient: bool,
    quote: Path -> Option<nat>, quoter: Quoter)
    ensures var r := QuoteSpec(chainId, tokenIn, tokenOut, amount, amountPositive, bps, enabled, blind, hasClient, quote, quoter);
      && (!hasClient || !enabled || !amountPositive ==> r == QuoteResult(None, None))
      && (hasClient && enabled && amountPositive && amount.Threw? ==>
            r.quote.None? && r.error.Some? && r.error.value != ""
            && (amount.e.shortMessage.None? && amount.e.message.None? ==> r.error == Some(QUOTE_FAILED)))
      && (hasClient && enabled && amountPositive && amount.Units? ==>
            (r.error.Some? <==> r.quote.None?)
            && (r.error.Some? ==> r.error.value == (if chainId in ROUTER_V2 then ROUTE_NOT_AVAILABLE else ROUTER_NOT_CONFIGURED)))
  {
    if hasClient && enabled && amountPositive && amount.Units? {
      QuoteOrError(ConfigFor(chainId), chainId in ROUTER_V2, tokenIn, tokenOut, amount.amountIn, bps, blind, quote, quoter);
    }
  }

  method RunQuote(
    cfg: RouteConfig, routerListed: bool, tokenIn: Addr, tokenOut: Addr, amountIn: nat,
    bps: int, blind: bool, quote: Path -> Option<nat>, quoter: Quoter) returns (res: QuoteResult)
    ensures res == QuoteWith(cfg, routerListed, tokenIn, tokenOut, amountIn, bps, blind, quote, quoter)
  {
    var basePaths := BuildV2Candidates(tokenIn, tokenOut, cfg.wnative, cfg.stables);
    var v2paths := UniqPaths(basePaths);
    var bestV2: Option<Picked> := None;
    if cfg.router.Some? {
      bestV2 := SelectBestV2(v2paths, quote);
    }
    if bestV2.Some? {
      var o := bestV2.value.out;
      return QuoteResult(Some(Quote(V2, o, MinOut(o, bps, blind), bestV2.value.path, [])), None);
    }
    if cfg.quoter.Some? {
      var cands := BuildV3Candidates(tokenIn, tokenOut, cfg.wnative, cfg.stables, cfg.feeTiers);
      var bestV3 := SelectBestV3(cands, amountIn, quoter);
      if bestV3.Some? {
        var o := bestV3.value.out;
        return QuoteResult(Some(Quote(V3, o, MinOut(o, bps, blind), bestV3.value.path, bestV3.value.fees)), None);
      }
    }
    res := QuoteResult(None, Some(if routerListed then ROUTE_NOT_AVAILABLE else ROUTER_NOT_CONFIGURED));
  }

  /** `useBestQuote` for one key: the guards, then the search on the chain's configuration. */
  method BestQuote(
    chainId: nat, tokenIn: Addr, tokenOut: Addr, amount: ParsedAmount, amountPositive: bool,
    bps: int, enabled: bool, blind: bool, hasClient: bool,
    quote: Path -> Option<nat>, quoter: Quoter) returns (res: QuoteResult)
    ensures res == QuoteSpec(chainId, tokenIn, tokenOut, amount, amountPositive, bps, enabled, blind, hasClient, quote, quoter)
  {
    if !hasClient || !enabled || !amountPositive {
      return QuoteResult(None, None);
    }
    match amount
    case Threw(e) =>
      res := QuoteResult(None, Some(FirstTruthy(e.shortMessage, e.message, QUOTE_FAILED)));
    case Units(a) =>
      res := RunQuote(ConfigFor(chainId), chainId in ROUTER_V2, tokenIn, tokenOut, a, bps, blind, quote, quoter);
  }

  /** V3 is used only when the router is missing or no V2 candidate answered. */
  lemma V3OnlyWithoutV2(
    cfg: RouteConfig, routerListed: bool, tokenIn: Addr, tokenOut: Addr, amountIn: nat,
    bps: int, blind: bool, quote: Path -> Option<nat>, quoter: Quoter)
    requires var r := QuoteWith(cfg, routerListed, tokenIn, tokenOut, amountIn, bps, blind, quote, quoter);
      r.quote.Some? && r.quote.value.proto == V3
    ensures var v2paths := FirstByKey(V2Candidates(tokenIn, tokenOut, cfg.wnative, cfg.stables), PathKey);
      cfg.quoter.Some? &&
      (cfg.router.None? || forall i :: 0 <= i < |v2paths| ==> quote(LowerPath(v2paths[i])).None?)
  {
    var v2paths := FirstByKey(V2Candidates(tokenIn, tokenOut, cfg.wnative, cfg.stables), PathKey);
    var outs := V2Outputs(v2paths, quote);
    if cfg.router.Some? {
      assert BestIndex(outs).None?;
      forall i | 0 <= i < |v2paths| ensures quote(LowerPath(v2paths[i])).None? {
        assert outs[i].None?;
      }
    }
  }

  /**
   * A V2 quote is the V2 pick over the deduplicated candidates, so by
   * `V2PickIsBest` it carries the greatest answer among them.
   */
  lemma V2QuoteIsPick(
    cfg: RouteConfig, routerListed: bool, tokenIn: Addr, tokenOut: Addr, amountIn: nat,
    bps: int, blind: bool, quote: Path -> Option<nat>, quoter: Quoter)
    requires var r := QuoteWith(cfg, routerListed, tokenIn, tokenOut, amountIn, bps, blind, quote, quoter);
      r.quote.Some? && r.quote.value.proto == V2
    ensures var v2paths := FirstByKey(V2Candidates(tokenIn, tokenOut, cfg.wnative, cfg.stables), PathKey);
      var q := QuoteWith(cfg, routerListed, tokenIn, tokenOut, amountIn, bps, blind, quote, quoter).quote.value;
      && cfg.router.Some?
      && V2Pick(v2paths, quote) == Some(Picked(q.amountOut, q.path, []))
      && q.fees == []
  {
  }

  /** The search settles on exactly one of a quote and an error, with the minimum output in range. */
  lemma QuoteOrError(
    cfg: RouteConfig, routerListed: bool, tokenIn: Addr, tokenOut: Addr, amountIn: nat,
    bps: int, blind: bool, quote: Path -> Option<nat>, quoter: Quoter)
    ensures var r := QuoteWith(cfg, routerListed, tokenIn, tokenOut, amountIn, bps, blind, quote, quoter);
      && (r.error.Some? <==> r.quote.None?)
      && (r.error.Some? ==> r.error.value == (if routerListed then ROUTE_NOT_AVAILABLE else ROUTER_NOT_CONFIGURED))
      && (r.quote.Some? && blind ==> r.quote.value.amountOutMin == 1)
      && (r.quote.Some? && !blind && 0 <= bps <= 10000 ==> 0 <= r.quote.value.amountOutMin <= r.quote.value.amountOut)
  {
    var r := QuoteWith(cfg, routerListed, tokenIn, tokenOut, amountIn, bps, blind, quote, quoter);
    if r.quote.Some? && !blind && 0 <= bps <= 10000 {
      MinOutBounds(r.quote.value.amountOut, bps, blind);
    }
  }
}
