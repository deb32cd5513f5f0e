/**
 * The liquidity list page. On chains with a PancakeSwap explorer endpoint
 * it shows the ten busiest pools of the API answer; elsewhere it reads the
 * chain's V2 factory: the newest pair addresses (by batched multicall, or
 * by a one-by-one scan when that gives nothing), their two tokens, and the
 * tokens' symbols, and lists the pairs whose two tokens are known. The
 * search box filters the rows by symbol.
 *
 * Every chain read is a parameter: `length` for `allPairsLength`,
 * `pairsMulti` and `readPair` for `allPairs`, `tokensMulti` for the
 * `token0`/`token1` batch and `symbolsMulti` for the symbol batch. The
 * multicall wrapper `runMulti` never throws (it falls back to one read per
 * call), so these return per-call statuses. `getAddress` on a chain answer
 * is the lowercase stand-in. The gas-price badge and the USD formatting
 * are not part of this model.
 */
module LiquidityStats {
  import opened Common
  import opened Keyed

  const WANT: nat := 10
  const BATCH: nat := 20
  const SCAN_MAX: nat := 100

  const API_CHAINS: set<nat> := {56, 1, 42161, 8453}
  const FACTORY_CHAINS: set<nat> := {56, 1, 8453, 42161, 2030}
  const AIRON_CHAIN: nat := 2030

  function Take<T>(s: seq<T>, n: nat): (r: seq<T>)
    ensures |r| == Min(n, |s|) && r <= s
  {
    s[..Min(n, |s|)]
  }

  datatype Row = Row(id: string, lp: Addr, chainId: nat, token0: Addr, symbol0: string, token1: Addr, symbol1: string,
                     tvl: Option<int>, volume: Option<int>, dex: string)

  // ---------------------------------------------------------------------
  // The explorer API path.

  datatype PoolToken = PoolToken(id: string, symbol: Option<string>)

  /** One pool of the API answer; a missing USD figure is `None`. */
  datatype Pool = Pool(id: string, token0: PoolToken, token1: PoolToken, tvl: Option<int>, volume: Option<int>)

  /** `Number(p?.volumeUSD24h ?? 0)` */
  function VolumeOf(p: Pool): int { OptionOr(p.volume, 0) }

  predicate Busy(p: Pool) { VolumeOf(p) > 0 }

  predicate VolumeFirst(a: Pool, b: Pool) { VolumeOf(a) >= VolumeOf(b) }

  lemma VolumeFirstTotal()
    ensures TotalPreorder(VolumeFirst)
  {
  }

  /** `top`: the pools with positive volume, busiest first, at most ten. */
  function TopPools(data: seq<Pool>): seq<Pool>
  {
    Take(SortBy(Filter(data, Busy), VolumeFirst), WANT)
  }

  /** In a list sorted busiest first, nothing after the first `n` is busier than anything in them. */
  lemma SortedPrefixIsTop(s: seq<Pool>, n: nat)
    requires SortedBy(s, VolumeFirst) && n <= |s|
    ensures forall p, q :: p in multiset(s) - multiset(s[..n]) && q in s[..n] ==> VolumeOf(p) <= VolumeOf(q)
  {
    MultisetSplit(s, n);
    forall p, q | p in multiset(s) - multiset(s[..n]) && q in s[..n] ensures VolumeOf(p) <= VolumeOf(q) {
      assert p in multiset(s[n..]);
      var j :| n <= j < |s| && s[j] == p;
      var i :| 0 <= i < n && s[i] == q;
      assert VolumeFirst(s[i], s[j]);
    }
  }

  /** The chosen pools: `min(10, busy pools)` of them, all busy, busiest first. */
  lemma TopPoolsOrdered(data: seq<Pool>)
    ensures var r := TopPools(data);
      && |r| == Min(WANT, |Filter(data, Busy)|)
      && (forall i :: 0 <= i < |r| ==> VolumeOf(r[i]) > 0)
      && (forall i, j :: 0 <= i < j < |r| ==> VolumeOf(r[i]) >= VolumeOf(r[j]))
  {
    var busy := Filter(data, Busy);
    VolumeFirstTotal();
    SortBySorted(busy, VolumeFirst);
    var s := SortBy(busy, VolumeFirst);
    var r := TopPools(data);
    forall i | 0 <= i < |r| ensures VolumeOf(r[i]) > 0 {
      assert r[i] == s[i];
      assert s[i] in multiset(busy);
    }
    forall i, j | 0 <= i < j < |r| ensures VolumeOf(r[i]) >= VolumeOf(r[j]) {
      assert VolumeFirst(s[i], s[j]);
    }
  }

  /** The ten busiest: the chosen pools are busy pools, and no busy pool left out is busier than a chosen one. */
  lemma TopPoolsAreTop(data: seq<Pool>)
    ensures var busy, r := Filter(data, Busy), TopPools(data);
      && multiset(r) <= multiset(busy)
      && (forall p, q :: p in multiset(busy) - multiset(r) && q in r ==> VolumeOf(p) <= VolumeOf(q))
  {
    var busy := Filter(data, Busy);
    VolumeFirstTotal();
    SortBySorted(busy, VolumeFirst);
    var s := SortBy(busy, VolumeFirst);
    var n := Min(WANT, |s|);
    SortedPrefixIsTop(s, n);
    MultisetSplit(s, n);
    assert TopPools(data) == s[..n];
  }

  /** One API row; `None` where `getAddress` throws on a pool or token id. */
  function ApiRow(chainId: nat, p: Pool): (r: Option<Row>)
    ensures r.Some? <==> IsAddressText(p.id) && IsAddressText(p.token0.id) && IsAddressText(p.token1.id)
    ensures r.Some? ==> r.value.dex == "AironDex" && r.value.chainId == chainId && r.value.volume == p.volume
  {
    match (AsAddr(p.id), AsAddr(p.token0.id), AsAddr(p.token1.id))
    case (Some(lp), Some(t0), Some(t1)) =>
      Some(Row(NatToString(chainId) + ":" + lp, lp, chainId,
               t0, if p.token0.symbol.Some? && p.token0.symbol.value != "" then p.token0.symbol.value else "T0",
               t1, if p.token1.symbol.Some? && p.token1.symbol.value != "" then p.token1.symbol.value else "T1",
               p.tvl, p.volume, "AironDex"))
    case _ => None
  }

  /** The rows in order, or `None` when one of them throws. */
  function ApiRows(chainId: nat, pools: seq<Pool>): (r: Option<seq<Row>>)
    ensures r.Some? <==> forall i :: 0 <= i < |pools| ==> ApiRow(chainId, pools[i]).Some?
    ensures r.Some? ==> |r.value| == |pools| && forall i :: 0 <= i < |pools| ==> r.value[i] == ApiRow(chainId, pools[i]).value
  {
    if |pools| == 0 then Some([])
    else
      var n := |pools| - 1;
      assert forall i :: 0 <= i < n ==> pools[..n][i] == pools[i];
      match (ApiRows(chainId, pools[..n]), ApiRow(chainId, pools[n]))
      case (Some(init), Some(x)) => Some(init + [x])
      case _ => None
  }

  // ---------------------------------------------------------------------
  // The newest pair indices, in batches.

  /** The indices `total-1-off`, `total-2-off`, ... of one batch. */
  function Batch(total: nat, off: nat, size: nat): (b: seq<nat>)
    requires off + size <= total
    ensures |b| == size && forall i :: 0 <= i < size ==> b[i] == total - 1 - (off + i)
  {
    seq(size, i requires 0 <= i < size => total - 1 - (off + i))
  }

  /** The batches of `for (off = 0; off < need; off += BATCH)`, from `off` on. */
  function BatchesFrom(total: nat, need: nat, off: nat): seq<seq<nat>>
    requires need <= total
    decreases need - off
  {
    if off >= need then [] else [Batch(total, off, Min(BATCH, need - off))] + BatchesFrom(total, need, off + BATCH)
  }

  /** The batches request each index from `total-1-off` down to `total-need`, once each, at most twenty at a time. */
  lemma {:induction false} BatchesCoverNewest(total: nat, need: nat, off: nat)
    requires need <= total && off <= need
    ensures var f := Flatten(BatchesFrom(total, need, off));
      |f| == need - off && forall k :: 0 <= k < |f| ==> f[k] == total - 1 - (off + k)
    ensures forall b :: b in BatchesFrom(total, need, off) ==> 0 < |b| <= BATCH
    decreases need - off
  {
    BatchesBounded(total, need, off);
    if off < need {
      var size := Min(BATCH, need - off);
      if off + BATCH <= need {
        BatchesCoverNewest(total, need, off + BATCH);
      }
      var bs := BatchesFrom(total, need, off);
      assert bs[1..] == BatchesFrom(total, need, off + BATCH);
      var f := Flatten(bs);
      assert f == Batch(total, off, size) + Flatten(bs[1..]);
      forall k | 0 <= k < |f| ensures f[k] == total - 1 - (off + k) {
        if k >= size {
          assert f[k] == Flatten(bs[1..])[k - size];
        }
      }
    }
  }

  lemma {:induction false} BatchesBounded(total: nat, need: nat, off: nat)
    requires need <= total
    ensures forall b :: b in BatchesFrom(total, need, off) ==> 0 < |b| <= BATCH
    decreases need - off
  {
    if off < need {
      BatchesBounded(total, need, off + BATCH);
    }
  }

  /** The pair addresses pushed for the successful entries of one answer, in order. */
  function Successes(res: seq<CallResult<Addr>>): (r: seq<Addr>)
    ensures |r| <= |res|
    ensures forall a :: a in r <==> exists i :: 0 <= i < |res| && res[i].Success? && a == Lower(res[i].value)
  {
    if |res| == 0 then []
    else
      var n := |res| - 1;
      assert forall i :: 0 <= i < n ==> res[..n][i] == res[i];
      Successes(res[..n]) + (if res[n].Success? then [Lower(res[n].value)] else [])
  }

  function PairsOf(bs: seq<seq<nat>>, pairsMulti: seq<nat> -> seq<CallResult<Addr>>): seq<Addr>
  {
    if |bs| == 0 then [] else Successes(pairsMulti(bs[0])) + PairsOf(bs[1..], pairsMulti)
  }

  /** `out.forEach((r) => r.status === "success" && pairAddrs.push(...))` */
  method PushSuccesses(prev: seq<Addr>, res: seq<CallResult<Addr>>) returns (out: seq<Addr>)
    ensures out == prev + Successes(res)
  {
    out := prev;
    for i := 0 to |res|
      invariant out == prev + Successes(res[..i])
    {
      assert res[..i + 1][..i] == res[..i];
      if res[i].Success? {
        out := out + [Lower(res[i].value)];
      }
    }
    assert res[..|res|] == res;
  }

  method FetchNewest(total: nat, pairsMulti: seq<nat> -> seq<CallResult<Addr>>) returns (pairAddrs: seq<Addr>, batches: seq<seq<nat>>)
    ensures batches == BatchesFrom(total, Min(WANT, total), 0)
    ensures pairAddrs == PairsOf(batches, pairsMulti)
  {
    var need := Min(WANT, total);
    pairAddrs, batches := [], [];
    var off := 0;
    while off < need
      invariant batches + BatchesFrom(total, need, off) == BatchesFrom(total, need, 0)
      invariant pairAddrs + PairsOf(BatchesFrom(total, need, off), pairsMulti) == PairsOf(BatchesFrom(total, need, 0), pairsMulti)
      decreases need - off
    {
      var size := Min(BATCH, need - off);
      var calls := Batch(total, off, size);
      var out := pairsMulti(calls);
      ghost var rest := BatchesFrom(total, need, off + BATCH);
      assert BatchesFrom(total, need, off) == [calls] + rest;
      assert ([calls] + rest)[1..] == rest;
      batches := batches + [calls];
      pairAddrs := PushSuccesses(pairAddrs, out);
      off := off + BATCH;
    }
  }

  // ---------------------------------------------------------------------
  // The one-by-one fallback scan.

  function ReadAt(read: nat -> Option<Addr>, idx: nat): seq<Addr>
  {
    match read(idx)
    case Some(a) => [Lower(a)]
    case None => []
  }

  /** The scan from offset `i`, given the addresses found so far: newest first, at most `SCAN_MAX` reads, until ten are found. */
  function ScanFrom(total: nat, read: nat -> Option<Addr>, i: nat, acc: seq<Addr>): (r: seq<Addr>)
    requires |acc| <= WANT
    ensures acc <= r && |r| <= WANT
    decreases Min(SCAN_MAX, total) - i
  {
    if i >= Min(SCAN_MAX, total) || |acc| >= WANT then acc
    else ScanFrom(total, read, i + 1, acc + ReadAt(read, total - 1 - i))
  }

  /** `visited` lists the indices read, in order. */
  method Scan(total: nat, read: nat -> Option<Addr>) returns (pairAddrs: seq<Addr>, visited: seq<nat>)
    ensures pairAddrs == ScanFrom(total, read, 0, [])
    ensures |visited| <= Min(SCAN_MAX, total) && forall k :: 0 <= k < |visited| ==> visited[k] == total - 1 - k
  {
    pairAddrs, visited := [], [];
    var scan := Min(SCAN_MAX, total);
    var i := 0;
    while i < scan && |pairAddrs| < WANT
      invariant i <= scan && |visited| == i && |pairAddrs| <= WANT
      invariant forall k :: 0 <= k < i ==> visited[k] == total - 1 - k
      invariant ScanFrom(total, read, i, pairAddrs) == ScanFrom(total, read, 0, [])
      decreases scan - i
    {
      var idx := total - 1 - i;
      visited := visited + [idx];
      var r := read(idx);
      ghost var next := pairAddrs + ReadAt(read, idx);
      assert ScanFrom(total, read, i, pairAddrs) == ScanFrom(total, read, i + 1, next);
      if r.Some? {
        pairAddrs := pairAddrs + [Lower(r.value)];
      }
      assert pairAddrs == next;
      i := i + 1;
    }
  }

  // ---------------------------------------------------------------------
  // Seeds: the pair, its tokens, and their symbols.

  datatype Seed = Seed(lp: Addr, t0: Option<Addr>, t1: Option<Addr>, s0: Option<string>, s1: Option<string>)

  function Bare(lp: Addr): Seed { Seed(lp, None, None, None, None) }

  /** `pairAddrs.slice(i, i + BATCH)` */
  function SliceOf(pairs: seq<Addr>, i: nat): seq<Addr>
    requires i <= |pairs|
  {
    pairs[i..Min(i + BATCH, |pairs|)]
  }

  function TokenFrom(res: seq<CallResult<Addr>>, k: nat): Option<Addr>
  {
    if At(res, k).Success? then Some(Lower(At(res, k).value)) else None
  }

  /** Seed `k` takes its tokens from entries `2j` and `2j+1` of the batch starting at `k - j`, where `j = k % BATCH`. */
  function TokenSeed(pairs: seq<Addr>, tokensMulti: seq<Addr> -> seq<CallResult<Addr>>, k: nat): Seed
    requires k < |pairs|
  {
    var j := k % BATCH;
    var res := tokensMulti(SliceOf(pairs, k - j));
    Seed(pairs[k], TokenFrom(res, 2 * j), TokenFrom(res, 2 * j + 1), None, None)
  }

  /** Seed `k` as read from the answer `res` of the batch starting at `i`. */
  function BatchSeed(pairs: seq<Addr>, res: seq<CallResult<Addr>>, i: nat, k: nat): Seed
    requires i <= k < |pairs|
  {
    Seed(pairs[k], TokenFrom(res, 2 * (k - i)), TokenFrom(res, 2 * (k - i) + 1), None, None)
  }

  /** Seed `i + j` of the batch starting at `i` reads entries `2j` and `2j+1` of that batch's answer. */
  lemma TokenSeedOfBatch(pairs: seq<Addr>, tokensMulti: seq<Addr> -> seq<CallResult<Addr>>, i: nat, j: nat)
    requires i % BATCH == 0 && j < BATCH && i + j < |pairs|
    ensures TokenSeed(pairs, tokensMulti, i + j) == BatchSeed(pairs, tokensMulti(SliceOf(pairs, i)), i, i + j)
  {
    assert (i + j) % BATCH == j;
  }

  /** One batch: seeds `i .. i+|slice|-1` from the batch's answer, in place. */
  method FillBatch(seeds: array<Seed>, pairs: seq<Addr>, tokensMulti: seq<Addr> -> seq<CallResult<Addr>>, i: nat)
    requires seeds.Length == |pairs| && i % BATCH == 0 && i < |pairs|
    requires forall k :: 0 <= k < i ==> seeds[k] == TokenSeed(pairs, tokensMulti, k)
    requires forall k :: i <= k < |pairs| ==> seeds[k] == Bare(pairs[k])
    modifies seeds
    ensures forall k :: 0 <= k < Min(i + BATCH, |pairs|) ==> seeds[k] == TokenSeed(pairs, tokensMulti, k)
    ensures forall k :: Min(i + BATCH, |pairs|) <= k < |pairs| ==> seeds[k] == Bare(pairs[k])
  {
    var slice := SliceOf(pairs, i);
    var tkRes := tokensMulti(slice);
    for j := 0 to |slice|
      invariant forall k :: 0 <= k < i ==> seeds[k] == TokenSeed(pairs, tokensMulti, k)
      invariant forall k :: i <= k < i + j ==> seeds[k] == BatchSeed(pairs, tkRes, i, k)
      invariant forall k :: i + j <= k < |pairs| ==> seeds[k] == Bare(pairs[k])
    {
      var idx := i + j;
      var b := j * 2;
      var s := seeds[idx];
      if At(tkRes, b).Success? {
        s := s.(t0 := Some(Lower(At(tkRes, b).value)));
      }
      if At(tkRes, b + 1).Success? {
        s := s.(t1 := Some(Lower(At(tkRes, b + 1).value)));
      }
      assert s == BatchSeed(pairs, tkRes, i, idx);
      seeds[idx] := s;
    }
    forall k | i <= k < Min(i + BATCH, |pairs|) ensures seeds[k] == TokenSeed(pairs, tokensMulti, k) {
      TokenSeedOfBatch(pairs, tokensMulti, i, k - i);
    }
  }

  /** The seeds after the token batches; the array is filled in place, slice by slice. */
  method FillTokens(pairs: seq<Addr>, tokensMulti: seq<Addr> -> seq<CallResult<Addr>>) returns (seeds: array<Seed>)
    ensures fresh(seeds) && seeds.Length == |pairs|
    ensures forall k :: 0 <= k < |pairs| ==> seeds[k] == TokenSeed(pairs, tokensMulti, k)
  {
    seeds := new Seed[|pairs|](k requires 0 <= k < |pairs| => Bare(pairs[k]));
    var i := 0;
    while i < |pairs|
      invariant i % BATCH == 0
      invariant forall k :: 0 <= k < i && k < |pairs| ==> seeds[k] == TokenSeed(pairs, tokensMulti, k)
      invariant forall k :: i <= k < |pairs| ==> seeds[k] == Bare(pairs[k])
      decreases |pairs| - i
    {
      FillBatch(seeds, pairs, tokensMulti, i);
      i := i + BATCH;
    }
  }

  predicate Complete(s: Seed) { s.t0.Some? && s.t1.Some? }

  function CompleteCount(s: seq<Seed>): nat
  {
    if |s| == 0 then 0 else CompleteCount(s[..|s| - 1]) + (if Complete(s[|s| - 1]) then 1 else 0)
  }

  /** `metaCalls`: the two tokens of each complete seed, in seed order. */
  function MetaCalls(s: seq<Seed>): (r: seq<Addr>)
    ensures |r| == 2 * CompleteCount(s)
  {
    if |s| == 0 then []
    else
      var n := |s| - 1;
      MetaCalls(s[..n]) + (if Complete(s[n]) then [s[n].t0.value, s[n].t1.value] else [])
  }

  /** The symbols read at position `k` of the answer, `"T0"`/`"T1"` on failure. */
  function Named(s: Seed, metaRes: seq<CallResult<string>>, k: nat): Seed
  {
    s.(s0 := Some(if At(metaRes, k).Success? then At(metaRes, k).value else "T0"),
       s1 := Some(if At(metaRes, k + 1).Success? then At(metaRes, k + 1).value else "T1"))
  }

  /** The seeds after the symbol pass: the counter `k` advances by two per complete seed. */
  function Symbolized(s: seq<Seed>, metaRes: seq<CallResult<string>>): (r: seq<Seed>)
    ensures |r| == |s|
  {
    if |s| == 0 then []
    else
      var n := |s| - 1;
      Symbolized(s[..n], metaRes) + [if Complete(s[n]) then Named(s[n], metaRes, 2 * CompleteCount(s[..n])) else s[n]]
  }

  function NameStep(s: seq<Seed>, metaRes: seq<CallResult<string>>, i: nat): Seed
    requires i < |s|
  {
    if Complete(s[i]) then Named(s[i], metaRes, 2 * CompleteCount(s[..i])) else s[i]
  }

  lemma SymbolizedStep(s: seq<Seed>, metaRes: seq<CallResult<string>>, i: nat)
    requires i < |s|
    ensures Symbolized(s[..i + 1], metaRes) == Symbolized(s[..i], metaRes) + [NameStep(s, metaRes, i)]
    ensures CompleteCount(s[..i + 1]) == CompleteCount(s[..i]) + (if Complete(s[i]) then 1 else 0)
  {
    assert s[..i + 1][..i] == s[..i];
  }

  /** The symbol pass over the seed array, in place. */
  method FillSymbols(seeds: array<Seed>, metaRes: seq<CallResult<string>>)
    modifies seeds
    ensures seeds[..] == Symbolized(old(seeds[..]), metaRes)
  {
    ghost var s0 := seeds[..];
    var k := 0;
    for i := 0 to seeds.Length
      invariant k == 2 * CompleteCount(s0[..i])
      invariant seeds[..i] == Symbolized(s0[..i], metaRes)
      invariant forall j :: i <= j < seeds.Length ==> seeds[j] == s0[j]
    {
      SymbolizedStep(s0, metaRes, i);
      ghost var prev := seeds[..i];
      var s := seeds[i];
      if s.t0.Some? && s.t1.Some? {
        s := s.(s0 := Some(if At(metaRes, k).Success? then At(metaRes, k).value else "T0"));
        k := k + 1;
        s := s.(s1 := Some(if At(metaRes, k).Success? then At(metaRes, k).value else "T1"));
        k := k + 1;
      }
      assert s == NameStep(s0, metaRes, i);
      seeds[i] := s;
      assert seeds[..i + 1] == prev + [s];
    }
    assert seeds[..] == seeds[..seeds.Length];
    assert s0[..seeds.Length] == s0;
  }

  /** Seed `i` is named from entries `2m` and `2m+1`, `m` the number of complete seeds before it. */
  lemma {:induction false} SymbolizedAt(s: seq<Seed>, metaRes: seq<CallResult<string>>, i: nat)
    requires i < |s|
    ensures Symbolized(s, metaRes)[i] == if Complete(s[i]) then Named(s[i], metaRes, 2 * CompleteCount(s[..i])) else s[i]
  {
    var n := |s| - 1;
    if i < n {
      SymbolizedAt(s[..n], metaRes, i);
      assert s[..n][..i] == s[..i];
    }
  }

  /** Those are the entries whose calls asked for that seed's two tokens. */
  lemma {:induction false} MetaCallsAligned(s: seq<Seed>, i: nat)
    requires i < |s| && Complete(s[i])
    ensures var k := 2 * CompleteCount(s[..i]);
      k + 1 < |MetaCalls(s)| && MetaCalls(s)[k] == s[i].t0.value && MetaCalls(s)[k + 1] == s[i].t1.value
  {
    var n := |s| - 1;
    CountMonotone(s, i);
    if i < n {
      MetaCallsAligned(s[..n], i);
      assert s[..n][..i] == s[..i];
    } else {
      assert s[..n] == s[..i];
    }
  }

  lemma {:induction false} CountMonotone(s: seq<Seed>, i: nat)
    requires i < |s|
    ensures CompleteCount(s[..i]) + (if Complete(s[i]) then 1 else 0) <= CompleteCount(s)
  {
    var n := |s| - 1;
    if i < n {
      CountMonotone(s[..n], i);
      assert s[..n][..i] == s[..i];
    } else {
      assert s[..n] == s[..i];
    }
  }

  function DexName(chainId: nat): (r: string)
    ensures r == (if chainId == AIRON_CHAIN then "AironDex" else "Factory")
  {
    if chainId == AIRON_CHAIN then "AironDex" else "Factory"
  }

  /** The row of a complete seed; an empty symbol also reads as the default. */
  function SeedRow(chainId: nat, s: Seed): Row
  {
    var lp := s.lp;
    Row(NatToString(chainId) + ":" + lp, lp, chainId,
        OptionOr(s.t0, ""), if s.s0.Some? && s.s0.value != "" then s.s0.value else "T0",
        OptionOr(s.t1, ""), if s.s1.Some? && s.s1.value != "" then s.s1.value else "T1",
        None, None, DexName(chainId))
  }

  function FactoryRows(chainId: nat, seeds: seq<Seed>): seq<Row>
  {
    MapSeq(Filter(seeds, Complete), s => SeedRow(chainId, s))
  }

  /** One row per complete seed, each with both tokens, non-empty symbols, and the chain's DEX name. */
  lemma FactoryRowsShape(chainId: nat, seeds: seq<Seed>)
    ensures var rows := FactoryRows(chainId, seeds);
      && |rows| == |Filter(seeds, Complete)| <= |seeds|
      && forall i :: 0 <= i < |rows| ==>
        rows[i].symbol0 != "" && rows[i].symbol1 != "" && rows[i].dex == DexName(chainId) && rows[i].chainId == chainId
        && (exists s :: s in seeds && Complete(s) && rows[i].lp == s.lp && rows[i].token0 == s.t0.value && rows[i].token1 == s.t1.value)
  {
    var f := Filter(seeds, Complete);
    MapSeqIndex(f, s => SeedRow(chainId, s));
    forall i | 0 <= i < |f| ensures f[i] in seeds && Complete(f[i]) {
    }
  }

  /** `seeds` after the token batches. */
  function Seeds(pairs: seq<Addr>, tokensMulti: seq<Addr> -> seq<CallResult<Addr>>): (r: seq<Seed>)
    ensures |r| == |pairs| && forall k :: 0 <= k < |pairs| ==> r[k] == TokenSeed(pairs, tokensMulti, k)
  {
    seq(|pairs|, k requires 0 <= k < |pairs| => TokenSeed(pairs, tokensMulti, k))
  }

  /** `metaRes`: no call when no seed is complete. */
  function SymbolAnswer(seeds: seq<Seed>, symbolsMulti: seq<Addr> -> seq<CallResult<string>>): seq<CallResult<string>>
  {
    var calls := MetaCalls(seeds);
    if |calls| > 0 then symbolsMulti(calls) else []
  }

  /** The rows of a list of pair addresses. */
  function RowsOfPairs(chainId: nat, pairs: seq<Addr>, tokensMulti: seq<Addr> -> seq<CallResult<Addr>>,
                       symbolsMulti: seq<Addr> -> seq<CallResult<string>>): seq<Row>
  {
    var seeds := Seeds(pairs, tokensMulti);
    FactoryRows(chainId, Symbolized(seeds, SymbolAnswer(seeds, symbolsMulti)))
  }

  /** `pairAddrs` before truncation: the newest batch, or the scan when the batch found nothing. */
  function FoundPairs(total: nat, pairsMulti: seq<nat> -> seq<CallResult<Addr>>, read: nat -> Option<Addr>): seq<Addr>
  {
    var newest := PairsOf(BatchesFrom(total, Min(WANT, total), 0), pairsMulti);
    if |newest| == 0 then ScanFrom(total, read, 0, []) else newest
  }

  /** The factory path once the pair count is known and positive. */
  function FactoryList(chainId: nat, total: nat, pairsMulti: seq<nat> -> seq<CallResult<Addr>>, read: nat -> Option<Addr>,
                       tokensMulti: seq<Addr> -> seq<CallResult<Addr>>, symbolsMulti: seq<Addr> -> seq<CallResult<string>>): seq<Row>
  {
    RowsOfPairs(chainId, Take(FoundPairs(total, pairsMulti, read), WANT), tokensMulti, symbolsMulti)
  }

  method SeedRows(chainId: nat, pairs: seq<Addr>, tokensMulti: seq<Addr> -> seq<CallResult<Addr>>,
                  symbolsMulti: seq<Addr> -> seq<CallResult<string>>) returns (rows: seq<Row>)
    ensures rows == RowsOfPairs(chainId, pairs, tokensMulti, symbolsMulti)
  {
    var seeds := FillTokens(pairs, tokensMulti);
    assert seeds[..] == Seeds(pairs, tokensMulti);
    var calls := MetaCalls(seeds[..]);
    var metaRes := if |calls| > 0 then symbolsMulti(calls) else [];
    FillSymbols(seeds, metaRes);
    rows := FactoryRows(chainId, seeds[..]);
  }

  lemma NoPairsNoRows(chainId: nat, tokensMulti: seq<Addr> -> seq<CallResult<Addr>>,
                      symbolsMulti: seq<Addr> -> seq<CallResult<string>>)
    ensures RowsOfPairs(chainId, [], tokensMulti, symbolsMulti) == []
  {
    var seeds := Seeds([], tokensMulti);
    FactoryRowsShape(chainId, Symbolized(seeds, SymbolAnswer(seeds, symbolsMulti)));
  }

  method LoadFactoryRows(chainId: nat, total: nat, pairsMulti: seq<nat> -> seq<CallResult<Addr>>, read: nat -> Option<Addr>,
                         tokensMulti: seq<Addr> -> seq<CallResult<Addr>>, symbolsMulti: seq<Addr> -> seq<CallResult<string>>)
    returns (rows: seq<Row>)
    ensures rows == FactoryList(chainId, total, pairsMulti, read, tokensMulti, symbolsMulti)
  {
    var pairAddrs, batches := FetchNewest(total, pairsMulti);
    if |pairAddrs| == 0 {
      var visited;
      pairAddrs, visited := Scan(total, read);
    }
    ghost var found := FoundPairs(total, pairsMulti, read);
    assert pairAddrs == found;
    if |pairAddrs| == 0 {
      assert Take(found, WANT) == [];
      NoPairsNoRows(chainId, tokensMulti, symbolsMulti);
      return [];
    }
    if |pairAddrs| > WANT {
      pairAddrs := pairAddrs[..WANT];
    }
    assert pairAddrs == Take(found, WANT);
    rows := SeedRows(chainId, pairAddrs, tokensMulti, symbolsMulti);
  }

  // ---------------------------------------------------------------------
  // The whole load.

  datatype ApiReply = ApiPools(pools: seq<Pool>) | ApiStatus(status: nat) | ApiUnreachable

  /** What the load shows: the rows, an error message the page sets itself, or a foreign error. */
  datatype Stats = Listed(rows: seq<Row>) | Failed(message: string) | Thrown

  const API_ERROR := "Pancake API error: "
  const NO_CLIENT := "Public client not ready"
  const NO_FACTORY := "Factory not configured for this chain."

  function LoadStats(chainId: nat, api: ApiReply, hasClient: bool, length: Option<nat>,
                     pairsMulti: seq<nat> -> seq<CallResult<Addr>>, read: nat -> Option<Addr>,
                     tokensMulti: seq<Addr> -> seq<CallResult<Addr>>, symbolsMulti: seq<Addr> -> seq<CallResult<string>>): (r: Stats)
    ensures chainId in API_CHAINS && api.ApiStatus? ==> r == Failed(API_ERROR + NatToString(api.status))
    ensures chainId !in API_CHAINS && !hasClient ==> r == Failed(NO_CLIENT)
    ensures chainId !in API_CHAINS && hasClient && chainId !in FACTORY_CHAINS ==> r == Failed(NO_FACTORY)
    ensures r.Listed? ==> |r.rows| <= WANT
  {
    if chainId in API_CHAINS then
      match api
      case ApiStatus(code) => Failed(API_ERROR + NatToString(code))
      case ApiUnreachable => Thrown
      case ApiPools(pools) =>
        match ApiRows(chainId, TopPools(pools))
        case None => Thrown
        case Some(rows) => Listed(rows)
    else if !hasClient then Failed(NO_CLIENT)
    else if chainId !in FACTORY_CHAINS then Failed(NO_FACTORY)
    else
      match length
      case None => Thrown
      case Some(total) =>
        if total == 0 then Listed([])
        else
          var rows := FactoryList(chainId, total, pairsMulti, read, tokensMulti, symbolsMulti);
          FactoryListBound(chainId, total, pairsMulti, read, tokensMulti, symbolsMulti);
          Listed(rows)
  }

  lemma FactoryListBound(chainId: nat, total: nat, pairsMulti: seq<nat> -> seq<CallResult<Addr>>, read: nat -> Option<Addr>,
                         tokensMulti: seq<Addr> -> seq<CallResult<Addr>>, symbolsMulti: seq<Addr> -> seq<CallResult<string>>)
    ensures |FactoryList(chainId, total, pairsMulti, read, tokensMulti, symbolsMulti)| <= WANT
  {
    var seeds := Seeds(Take(FoundPairs(total, pairsMulti, read), WANT), tokensMulti);
    FactoryRowsShape(chainId, Symbolized(seeds, SymbolAnswer(seeds, symbolsMulti)));
  }

  // ---------------------------------------------------------------------
  // The search.

  predicate RowMatches(r: Row, q: string)
  {
    Contains(Lower(r.symbol0 + "/" + r.symbol1), q) || Contains(Lower(r.symbol0), q) || Contains(Lower(r.symbol1), q)
  }

  function MatchesFn(q: string): Row -> bool { (x: Row) => RowMatches(x, q) }

  /** The rows matching a query, in table order. */
  function Matching(rows: seq<Row>, q: string): seq<Row> { Filter(rows, MatchesFn(q)) }

  /**
   * `pageData`: at most ten rows from the table; a blank query shows the
   * first ten, any other shows the first ten matches of the trimmed
   * lowercase query, in table order.
   */
  function PageData(rows: seq<Row>, query: string): (r: seq<Row>)
    ensures |r| <= WANT
    ensures Lower(Trim(query)) == "" ==> r == Take(rows, WANT)
    ensures forall x :: x in r ==> x in rows
    ensures Lower(Trim(query)) != "" ==> forall x :: x in r ==> RowMatches(x, Lower(Trim(query)))
    ensures var q := Lower(Trim(query)); q != "" ==>
      |r| == Min(WANT, |Matching(rows, q)|) && r == Matching(rows, q)[..|r|]
  {
    var q := Lower(Trim(query));
    var base := if q != "" then Matching(rows, q) else rows;
    Take(base, WANT)
  }

  /** With at most ten matches, the page shows every one of them. */
  lemma PageDataComplete(rows: seq<Row>, query: string)
    requires Lower(Trim(query)) != "" && |Matching(rows, Lower(Trim(query)))| <= WANT
    ensures forall x :: x in rows && RowMatches(x, Lower(Trim(query))) ==> x in PageData(rows, query)
  {
    var q := Lower(Trim(query));
    forall x | x in rows && RowMatches(x, q) ensures x in PageData(rows, query) {
      var i :| 0 <= i < |rows| && rows[i] == x;
    }
  }

  lemma {:induction false} ContainsPrefix(a: string, b: string, q: string)
    requires Contains(a, q)
    ensures Contains(a + b, q)
    decreases |a|
  {
    if q <= a {
      assert q <= a + b;
    } else {
      ContainsPrefix(a[1..], b, q);
      assert (a + b)[1..] == a[1..] + b;
    }
  }

  lemma {:induction false} ContainsSuffix(a: string, b: string, q: string)
    requires Contains(b, q)
    ensures Contains(a + b, q)
    decreases |a|
  {
    if |a| == 0 {
      assert a + b == b;
    } else {
      ContainsSuffix(a[1..], b, q);
      assert (a + b)[1..] == a[1..] + b;
      assert Contains((a + b)[1..], q);
    }
  }

  lemma LowerPair(a: string, b: string)
    ensures Lower(a + "/" + b) == Lower(a) + "/" + Lower(b)
  {
    LowerConcat(a + "/", b);
    LowerConcat(a, "/");
    assert Lower("/") == "/";
  }

  lemma ContainsInPair(x: string, y: string, q: string)
    ensures Contains(x, q) || Contains(y, q) ==> Contains(x + "/" + y, q)
  {
    if Contains(x, q) {
      ContainsPrefix(x, "/" + y, q);
      assert x + ("/" + y) == x + "/" + y;
    }
    if Contains(y, q) {
      ContainsSuffix(x + "/", y, q);
    }
  }

  /** The two symbol tests add nothing: a row matches exactly when `"s0/s1"` contains the query. */
  lemma MatchIsPairMatch(r: Row, q: string)
    ensures RowMatches(r, q) <==> Contains(Lower(r.symbol0 + "/" + r.symbol1), q)
  {
    LowerPair(r.symbol0, r.symbol1);
    ContainsInPair(Lower(r.symbol0), Lower(r.symbol1), q);
  }
}
