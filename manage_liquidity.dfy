/**
 * The manage-liquidity page: it finds the account's LP positions, lists
 * them with a chain toggle and a search box, and removes a part of one.
 *
 * Positions are found two ways. The wallet API lists the account's tokens;
 * those on this chain with a positive balance are read as pairs (four
 * reads each) and, when they are pairs with supply, their two tokens'
 * metadata is read (six reads each). When that gives nothing, the chain's
 * factory is scanned: every pair index in chunks of 250, the account's
 * balance of every pair, then the same pair and metadata reads for the
 * pairs it holds. A holder of `bal` LP tokens of a pair with `supply`
 * tokens owns `reserve * bal / supply` of each reserve.
 *
 * Every read is a parameter: `batch` is the multicall (`None` where it
 * throws), `single` one `readContract`, and the wallet API answer, the
 * factory's pair count and the clock are given values. `getAddress` on an
 * address text is the lowercase stand-in `AsAddr`; on an address a
 * contract returned, which is always well formed, it is `Lower`.
 */
module ManageLiquidity {
  import opened Common
  import opened Keyed
  import opened Units
  import Liquidity

  // ---------------------------------------------------------------------
  // Reads and the multicall wrapper.

  /** One contract read. */
  datatype Read =
    | Token0(pair: Addr) | Token1(pair: Addr) | GetReserves(pair: Addr) | TotalSupply(pair: Addr)
    | Decimals(token: Addr) | Symbol(token: Addr) | Name(token: Addr)
    | AllPairs(factory: Addr, index: nat) | BalanceOf(token: Addr, owner: Addr)

  /** What a read returns: a number, an address, a text, or a pair's two reserves. */
  datatype Answer = Word(n: nat) | AddrAnswer(a: Addr) | Text(s: string) | ReservesAnswer(r0: nat, r1: nat)

  /** The answer as a `bigint`, an `Address`, a `String` and a reserves tuple; another shape reads as 0 or `""`. */
  function WordOf(a: Answer): nat { if a.Word? then a.n else 0 }
  function AddrOf(a: Answer): Addr { if a.AddrAnswer? then a.a else "" }
  function TextOf(a: Answer): string { if a.Text? then a.s else "" }
  function Reserve0(a: Answer): nat { if a.ReservesAnswer? then a.r0 else 0 }
  function Reserve1(a: Answer): nat { if a.ReservesAnswer? then a.r1 else 0 }

  /** The multicall (`None` where it throws) and one direct read. */
  datatype Chain = Chain(client: bool, batch: seq<Read> -> Option<seq<CallResult<Answer>>>, single: Read -> CallResult<Answer>)

  /** Every read fails without a client. */
  function Failed(r: Read): CallResult<Answer> { Failure }

  /**
   * `runMulticallOrSequential(contracts)`: every call fails without a
   * client; otherwise the multicall's answer, or, where the multicall
   * throws, one direct read per call in order.
   */
  function Multi(c: Chain, cs: seq<Read>): seq<CallResult<Answer>>
  {
    if !c.client then MapSeq(cs, Failed)
    else match c.batch(cs)
      case Some(r) => r
      case None => MapSeq(cs, c.single)
  }

  /** Without a client, or where the multicall throws, there is one result per call, in order. */
  lemma MultiFallback(c: Chain, cs: seq<Read>)
    requires !c.client || c.batch(cs).None?
    ensures |Multi(c, cs)| == |cs|
    ensures forall i :: 0 <= i < |cs| ==> Multi(c, cs)[i] == if c.client then c.single(cs[i]) else Failure
  {
    if c.client {
      MapSeqIndex(cs, c.single);
    } else {
      MapSeqIndex(cs, Failed);
    }
  }

  /** The wrapper with its sequential loop; `fellBack` is `setUsedFallbackSeq(true)`. */
  method RunMulti(c: Chain, cs: seq<Read>) returns (res: seq<CallResult<Answer>>, fellBack: bool)
    ensures res == Multi(c, cs)
    ensures fellBack <==> c.client && c.batch(cs).None?
  {
    if !c.client {
      return MapSeq(cs, Failed), false;
    }
    var r := c.batch(cs);
    if r.Some? {
      return r.value, false;
    }
    fellBack := true;
    res := [];
    for i := 0 to |cs|
      invariant res == MapSeq(cs[..i], c.single)
    {
      assert cs[..i + 1] == cs[..i] + [cs[i]];
      MapSeqSnoc(cs[..i], c.single, cs[i]);
      res := res + [c.single(cs[i])];
    }
    assert cs[..|cs|] == cs;
  }

  // ---------------------------------------------------------------------
  // Read lists and result slices.

  /** `flatMap`: the lists of the elements one after another. */
  function FlatMap<T, U>(s: seq<T>, f: T -> seq<U>): seq<U>
  {
    if |s| == 0 then [] else f(s[0]) + FlatMap(s[1..], f)
  }

  /** With `n` calls per element, call `k` of element `i` sits at `n * i + k`. */
  lemma {:induction false} FlatMapAt<T, U>(s: seq<T>, f: T -> seq<U>, n: nat, i: nat, k: nat)
    requires forall x :: |f(x)| == n
    requires i < |s| && k < n
    ensures |FlatMap(s, f)| == n * |s|
    ensures n * i + k < |FlatMap(s, f)| && FlatMap(s, f)[n * i + k] == f(s[i])[k]
  {
    FlatMapLength(s, f, n);
    if i == 0 {
      assert FlatMap(s, f) == f(s[0]) + FlatMap(s[1..], f);
    } else {
      FlatMapAt(s[1..], f, n, i - 1, k);
      assert n * i + k == n + (n * (i - 1) + k) by { MulPred(n, i); }
      assert s[1..][i - 1] == s[i];
    }
  }

  lemma {:induction false} FlatMapLength<T, U>(s: seq<T>, f: T -> seq<U>, n: nat)
    requires forall x :: |f(x)| == n
    ensures |FlatMap(s, f)| == n * |s|
  {
    if |s| > 0 {
      FlatMapLength(s[1..], f, n);
      MulPred(n, |s|);
    }
  }

  lemma MulPred(n: nat, i: nat)
    requires i > 0
    ensures n * i == n + n * (i - 1)
  {
  }

  /** The four pair reads, in the page's order. */
  function PairCalls(pair: Addr): seq<Read>
  {
    [Token0(pair), Token1(pair), GetReserves(pair), TotalSupply(pair)]
  }

  /** The six metadata reads: decimals, symbol and name of `token0`, then of `token1`. */
  function MetaCalls(t0: Addr, t1: Addr): seq<Read>
  {
    [Decimals(t0), Symbol(t0), Name(t0), Decimals(t1), Symbol(t1), Name(t1)]
  }

  /** What the four reads of one pair give when all four succeeded. */
  datatype PairData = PairData(token0: Addr, token1: Addr, reserve0: nat, reserve1: nat, totalSupply: nat)

  /** Results `4i .. 4i+3` of the pair reads: a pair only when all four succeeded. */
  function PairReads(res: seq<CallResult<Answer>>, i: nat): (r: Option<PairData>)
    ensures r.Some? <==> At(res, 4 * i).Success? && At(res, 4 * i + 1).Success? && At(res, 4 * i + 2).Success? && At(res, 4 * i + 3).Success?
    ensures r.Some? ==> r.value.totalSupply == WordOf(At(res, 4 * i + 3).value)
  {
    var b := 4 * i;
    if At(res, b).Success? && At(res, b + 1).Success? && At(res, b + 2).Success? && At(res, b + 3).Success?
    then Some(PairData(AddrOf(At(res, b).value), AddrOf(At(res, b + 1).value),
                       Reserve0(At(res, b + 2).value), Reserve1(At(res, b + 2).value), WordOf(At(res, b + 3).value)))
    else None
  }

  /** Result `4i + k` is the `k`-th read of pair `i`: the slice a pair's data is taken from is its own. */
  lemma PairCallsAligned(pairs: seq<Addr>, i: nat, k: nat)
    requires i < |pairs| && k < 4
    ensures |FlatMap(pairs, PairCalls)| == 4 * |pairs|
    ensures FlatMap(pairs, PairCalls)[4 * i + k] == PairCalls(pairs[i])[k]
  {
    FlatMapAt(pairs, PairCalls, 4, i, k);
  }

  /** The two tokens' metadata, with the defaults for failed reads. */
  datatype Meta = Meta(dec0: nat, sym0: string, name0: string, dec1: nat, sym1: string, name1: string)

  /** Results `6i .. 6i+5`: decimals default to 18, symbols to `"T0"`/`"T1"`, names to the symbol. */
  function MetaOf(res: seq<CallResult<Answer>>, i: nat): (m: Meta)
  {
    var b := 6 * i;
    var s0 := if At(res, b + 1).Success? then TextOf(At(res, b + 1).value) else "T0";
    var s1 := if At(res, b + 4).Success? then TextOf(At(res, b + 4).value) else "T1";
    Meta(if At(res, b).Success? then WordOf(At(res, b).value) else 18,
         s0,
         if At(res, b + 2).Success? then TextOf(At(res, b + 2).value) else s0,
         if At(res, b + 3).Success? then WordOf(At(res, b + 3).value) else 18,
         s1,
         if At(res, b + 5).Success? then TextOf(At(res, b + 5).value) else s1)
  }

  /** A pair whose metadata reads all failed shows as `T0`/`T1` with 18 decimals and the symbols as names. */
  lemma MetaAllFailed(res: seq<CallResult<Answer>>, i: nat)
    requires At(res, 6 * i).Failure? && At(res, 6 * i + 1).Failure? && At(res, 6 * i + 2).Failure?
    requires At(res, 6 * i + 3).Failure? && At(res, 6 * i + 4).Failure? && At(res, 6 * i + 5).Failure?
    ensures MetaOf(res, i) == Meta(18, "T0", "T0", 18, "T1", "T1")
  {
  }

  // ---------------------------------------------------------------------
  // A holder's share of a pair.

  /** `reserve * bal / supply` never exceeds the reserve while the holder has at most the supply. */
  lemma ShareAtMost(reserve: nat, bal: nat, supply: nat)
    requires supply > 0 && bal <= supply
    ensures Scaled(reserve, bal, supply) <= reserve
  {
    MulBoth(bal, supply, reserve);
    assert reserve * bal <= reserve * supply;
    FloorBounds(reserve * bal, supply);
    if Scaled(reserve, bal, supply) > reserve {
      MulBoth(reserve + 1, Scaled(reserve, bal, supply), supply);
    }
  }

  /** The whole supply owns the whole reserve. */
  lemma ShareWhole(reserve: nat, supply: nat)
    requires supply > 0
    ensures Scaled(reserve, supply, supply) == reserve
  {
    FloorUnique(reserve * supply, supply, reserve);
  }

  /** Two holders' shares, each rounded down, add up to at most the share of their combined balance. */
  lemma ShareSplit(reserve: nat, a: nat, b: nat, supply: nat)
    requires supply > 0
    ensures Scaled(reserve, a, supply) + Scaled(reserve, b, supply) <= Scaled(reserve, a + b, supply)
  {
    var qa, qb := Scaled(reserve, a, supply), Scaled(reserve, b, supply);
    FloorBounds(reserve * a, supply);
    FloorBounds(reserve * b, supply);
    assert reserve * (a + b) == reserve * a + reserve * b;
    assert (qa + qb) * supply == qa * supply + qb * supply;
    FloorAtLeast(reserve * (a + b), supply, qa + qb);
  }

  lemma FloorAtLeast(n: nat, d: nat, q: nat)
    requires d > 0 && q * d <= n
    ensures q <= n / d
  {
    FloorBounds(n, d);
    if q > n / d {
      MulBoth(n / d + 1, q, d);
    }
  }

  // ---------------------------------------------------------------------
  // Positions.

  /** One side of a position: chain, address, symbol and the name when there is one. */
  datatype Tok = Tok(chainId: nat, address: string, symbol: string, name: Option<string>)

  /** A listed position; the amounts and the LP share are decimal text, `ts` the time it was read. */
  datatype Position = Position(id: string, chainId: nat, lpAddr: Addr, tokenA: Tok, tokenB: Tok,
                               amountA: string, amountB: string, lpShares: string, ts: nat)

  /** An LP token the account holds (`real` on the API path, `metaPairs` on the factory path). */
  datatype Held = Held(lp: Addr, data: PairData, bal: nat)

  /** `${chainId}:${token0}:${token1}` */
  function PositionId(chainId: nat, t0: Addr, t1: Addr): string
  {
    NatToString(chainId) + ":" + t0 + ":" + t1
  }

  /** The position pushed for a held pair: each reserve scaled by `bal / totalSupply`, the balance with 18 decimals. */
  function MakePosition(chainId: nat, h: Held, m: Meta, now: nat): Position
    requires h.data.totalSupply > 0
  {
    var d := h.data;
    Position(PositionId(chainId, d.token0, d.token1), chainId, h.lp,
             Tok(chainId, d.token0, m.sym0, Some(m.name0)), Tok(chainId, d.token1, m.sym1, Some(m.name1)),
             FormatUnits(Scaled(d.reserve0, h.bal, d.totalSupply), m.dec0),
             FormatUnits(Scaled(d.reserve1, h.bal, d.totalSupply), m.dec1),
             FormatUnits(h.bal, 18), now)
  }

  /** `formatUnits(v, d)` read back with `d` decimals is `v`. */
  lemma FormatReadBack(v: nat, d: nat)
    ensures ParseUnits(FormatUnits(v, d), d) == Some(v)
  {
    FormatThenParse(v, d, d);
    assert Pow10(0) == 1;
  }

  /**
   * A found position's amounts read back, with the token's decimals, as
   * the holder's share of each reserve, never more than the reserve; the
   * LP share reads back as the balance.
   */
  lemma {:induction false} MakePositionReadBack(chainId: nat, h: Held, m: Meta, now: nat)
    requires h.data.totalSupply > 0 && h.bal <= h.data.totalSupply
    ensures var p := MakePosition(chainId, h, m, now);
      && ParseUnits(p.amountA, m.dec0) == Some(Scaled(h.data.reserve0, h.bal, h.data.totalSupply))
      && ParseUnits(p.amountB, m.dec1) == Some(Scaled(h.data.reserve1, h.bal, h.data.totalSupply))
      && ParseUnits(p.lpShares, 18) == Some(h.bal)
      && Scaled(h.data.reserve0, h.bal, h.data.totalSupply) <= h.data.reserve0
      && Scaled(h.data.reserve1, h.bal, h.data.totalSupply) <= h.data.reserve1
  {
    var d := h.data;
    FormatReadBack(Scaled(d.reserve0, h.bal, d.totalSupply), m.dec0);
    FormatReadBack(Scaled(d.reserve1, h.bal, d.totalSupply), m.dec1);
    FormatReadBack(h.bal, 18);
    ShareAtMost(d.reserve0, h.bal, d.totalSupply);
    ShareAtMost(d.reserve1, h.bal, d.totalSupply);
  }

  predicate AllLive(hs: seq<Held>) { forall j :: 0 <= j < |hs| ==> hs[j].data.totalSupply > 0 }

  /** The metadata reads of a held pair's two tokens. */
  function HeldMeta(h: Held): seq<Read> { MetaCalls(h.data.token0, h.data.token1) }

  /**
   * One position per held pair, in order, the `i`-th from metadata results
   * `6i .. 6i+5` and stamped `clock(i)`, the `Date.now()` of its own push.
   */
  function PositionsOf(chainId: nat, hs: seq<Held>, meta: seq<CallResult<Answer>>, clock: nat -> nat): seq<Position>
    requires AllLive(hs)
  {
    seq(|hs|, i requires 0 <= i < |hs| => MakePosition(chainId, hs[i], MetaOf(meta, i), clock(i)))
  }

  /** Result `6i + k` of the metadata reads is read `k` of held pair `i`'s tokens. */
  lemma MetaCallsAligned(hs: seq<Held>, i: nat, k: nat)
    requires i < |hs| && k < 6
    ensures |FlatMap(hs, HeldMeta)| == 6 * |hs|
    ensures FlatMap(hs, HeldMeta)[6 * i + k] == MetaCalls(hs[i].data.token0, hs[i].data.token1)[k]
  {
    FlatMapAt(hs, HeldMeta, 6, i, k);
  }

  /** The push loop over the held pairs. */
  method BuildPositions(chainId: nat, hs: seq<Held>, meta: seq<CallResult<Answer>>, clock: nat -> nat) returns (ps: seq<Position>)
    requires AllLive(hs)
    ensures ps == PositionsOf(chainId, hs, meta, clock)
  {
    ghost var all := PositionsOf(chainId, hs, meta, clock);
    ps := [];
    for i := 0 to |hs|
      invariant ps == all[..i]
    {
      ps := ps + [MakePosition(chainId, hs[i], MetaOf(meta, i), clock(i))];
      TakeSnoc(all, i);
    }
    assert all[..|hs|] == all;
  }

  // ---------------------------------------------------------------------
  // The wallet API path.

  /** A token the wallet API lists; `balance` is `None` where `BigInt` cannot read its text (a missing one reads as 0). */
  datatype ApiToken = ApiToken(chainId: Option<nat>, address: string, balance: Option<int>)

  /** `fetchPancakeBalances`: its token list, or a throw. */
  datatype ApiReply = ApiTokens(tokens: seq<ApiToken>) | ApiThrew

  /** `!t.chainId || t.chainId === chainId` */
  predicate ChainMatches(chainId: nat, t: ApiToken)
  {
    t.chainId.None? || t.chainId.value == 0 || t.chainId.value == chainId
  }

  /**
   * `onThisChain`: the tokens on this chain with a positive balance, in
   * order; the balance is only read after the chain test passes, and an
   * unreadable one throws (`None`).
   */
  function OnThisChain(chainId: nat, ts: seq<ApiToken>): (r: Option<seq<ApiToken>>)
    ensures r.Some? ==> forall t :: t in r.value ==> t in ts && ChainMatches(chainId, t) && t.balance.Some? && t.balance.value > 0
    ensures r.Some? ==> forall t :: t in ts && ChainMatches(chainId, t) && t.balance.Some? && t.balance.value > 0 ==> t in r.value
    ensures r.None? <==> exists t :: t in ts && ChainMatches(chainId, t) && t.balance.None?
  {
    if |ts| == 0 then Some([])
    else
      var t := ts[|ts| - 1];
      var rest := OnThisChain(chainId, ts[..|ts| - 1]);
      assert ts == ts[..|ts| - 1] + [t];
      if rest.None? then None
      else if !ChainMatches(chainId, t) then rest
      else if t.balance.None? then None
      else if t.balance.value > 0 then Some(rest.value + [t])
      else rest
  }

  /** `map(t => getAddress(t.address))`: every address canonical, or a throw (`None`) at the first malformed one. */
  function AddrsOf(ts: seq<ApiToken>): (r: Option<seq<Addr>>)
    ensures r.Some? ==> |r.value| == |ts| && forall i :: 0 <= i < |ts| ==> r.value[i] == Lower(ts[i].address)
    ensures r.None? <==> exists i :: 0 <= i < |ts| && !IsAddressText(ts[i].address)
  {
    if |ts| == 0 then Some([])
    else
      var rest := AddrsOf(ts[..|ts| - 1]);
      var a := AsAddr(ts[|ts| - 1].address);
      if rest.None? then None
      else if a.None? then None
      else Some(rest.value + [a.value])
  }

  /** One entry of `pairs`: the address, the four reads when all succeeded, the API balance. */
  datatype PairInfo = PairInfo(addr: Addr, data: Option<PairData>, userLP: int)

  /** `pairs`: the `i`-th from results `4i .. 4i+3` and the `i`-th token's balance. */
  function PairInfos(addrs: seq<Addr>, on: seq<ApiToken>, res: seq<CallResult<Answer>>): seq<PairInfo>
    requires |on| == |addrs|
  {
    seq(|addrs|, i requires 0 <= i < |addrs| => PairInfo(addrs[i], PairReads(res, i), OptionOr(on[i].balance, 0)))
  }

  /** The loop that pushes into `pairs`. */
  method BuildPairs(addrs: seq<Addr>, on: seq<ApiToken>, res: seq<CallResult<Answer>>) returns (pairs: seq<PairInfo>)
    requires |on| == |addrs|
    ensures pairs == PairInfos(addrs, on, res)
  {
    pairs := [];
    for i := 0 to |addrs|
      invariant |pairs| == i
      invariant forall j :: 0 <= j < i ==> pairs[j] == PairInfo(addrs[j], PairReads(res, j), OptionOr(on[j].balance, 0))
    {
      pairs := pairs + [PairInfo(addrs[i], PairReads(res, i), OptionOr(on[i].balance, 0))];
    }
  }

  /** `isPair && totalSupply > 0 && userLP > 0` */
  predicate IsReal(p: PairInfo)
  {
    p.data.Some? && p.data.value.totalSupply > 0 && p.userLP > 0
  }

  /** `real`: the pairs that are pairs with supply and a positive balance, as held pairs. */
  function RealHeld(pairs: seq<PairInfo>): (r: seq<Held>)
    ensures |r| <= |pairs|
    ensures forall j :: 0 <= j < |r| ==> r[j].data.totalSupply > 0 && r[j].bal > 0
    ensures forall j :: 0 <= j < |r| ==> PairInfo(r[j].lp, Some(r[j].data), r[j].bal) in pairs
    ensures forall p :: p in pairs && IsReal(p) ==> Held(p.addr, p.data.value, p.userLP) in r
  {
    if |pairs| == 0 then []
    else
      var p := pairs[|pairs| - 1];
      var rest := RealHeld(pairs[..|pairs| - 1]);
      assert pairs == pairs[..|pairs| - 1] + [p];
      if IsReal(p) then rest + [Held(p.addr, p.data.value, p.userLP)] else rest
  }

  // ---------------------------------------------------------------------
  // The factory scan.

  /** Pair indices are requested 250 at a time. */
  const SCAN_CHUNK: nat := 250

  /** `allPairs(lo) .. allPairs(hi - 1)` */
  function IndexReads(f: Addr, lo: nat, hi: nat): (r: seq<Read>)
    requires lo <= hi
    ensures |r| == hi - lo && forall k :: 0 <= k < hi - lo ==> r[k] == AllPairs(f, lo + k)
  {
    seq(hi - lo, k requires 0 <= k < hi - lo => AllPairs(f, lo + k))
  }

  /** The read lists of the scan from `start`: `[start, min(len, start + 250))`, then on from `start + 250`. */
  function ScanChunks(f: Addr, start: nat, len: nat): seq<seq<Read>>
    decreases len - start
  {
    if start >= len then []
    else [IndexReads(f, start, Min(len, start + SCAN_CHUNK))] + ScanChunks(f, start + SCAN_CHUNK, len)
  }

  /** The scan asks for every index below `len` exactly once, in order, in lists of 1 to 250 reads. */
  lemma {:induction false} ScanChunksCover(f: Addr, start: nat, len: nat)
    requires start <= len
    ensures Flatten(ScanChunks(f, start, len)) == IndexReads(f, start, len)
    ensures forall c :: c in ScanChunks(f, start, len) ==> 1 <= |c| <= SCAN_CHUNK
    decreases len - start
  {
    if start < len {
      var mid := Min(len, start + SCAN_CHUNK);
      var rest := ScanChunks(f, mid, len);
      if mid < len {
        ScanChunksCover(f, mid, len);
      }
      assert ScanChunks(f, start, len) == [IndexReads(f, start, mid)] + rest;
      assert IndexReads(f, start, mid) + IndexReads(f, mid, len) == IndexReads(f, start, len);
    }
  }

  /** The canonical addresses of the reads that succeeded, in order (`getAddress(r.result)`). */
  function SuccessAddrs(res: seq<CallResult<Answer>>): (r: seq<Addr>)
    ensures |r| <= |res|
    ensures forall a :: a in r <==> exists i :: 0 <= i < |res| && res[i].Success? && a == Lower(AddrOf(res[i].value))
  {
    if |res| == 0 then []
    else
      var front := res[..|res| - 1];
      var x := res[|res| - 1];
      assert forall i :: 0 <= i < |front| ==> front[i] == res[i];
      SuccessAddrs(front) + (if x.Success? then [Lower(AddrOf(x.value))] else [])
  }

  /** `pairAddrs`: the successes of each list's results, one list after the other. */
  function ScanAddrs(c: Chain, chunks: seq<seq<Read>>): seq<Addr>
  {
    if |chunks| == 0 then [] else SuccessAddrs(Multi(c, chunks[0])) + ScanAddrs(c, chunks[1..])
  }

  /** The inner loop that builds one chunk's calls. */
  method ChunkReads(f: Addr, start: nat, end: nat) returns (calls: seq<Read>)
    requires start <= end
    ensures calls == IndexReads(f, start, end)
  {
    calls := [];
    for i := start to end
      invariant calls == IndexReads(f, start, i)
    {
      calls := calls + [AllPairs(f, i)];
    }
  }

  /** `for (const r of res) if (r.status === "success") pairAddrs.push(...)` */
  method PushSuccesses(out: seq<Addr>, res: seq<CallResult<Answer>>) returns (out': seq<Addr>)
    ensures out' == out + SuccessAddrs(res)
  {
    out' := out;
    for j := 0 to |res|
      invariant out' == out + SuccessAddrs(res[..j])
    {
      assert res[..j + 1][..j] == res[..j];
      out' := out' + (if res[j].Success? then [Lower(AddrOf(res[j].value))] else []);
    }
    assert res[..|res|] == res;
  }

  lemma ScanStep(c: Chain, f: Addr, start: nat, len: nat, calls: seq<Read>)
    requires start < len && calls == IndexReads(f, start, Min(len, start + SCAN_CHUNK))
    ensures ScanChunks(f, start, len) == [calls] + ScanChunks(f, start + SCAN_CHUNK, len)
    ensures ScanAddrs(c, ScanChunks(f, start, len)) == SuccessAddrs(Multi(c, calls)) + ScanAddrs(c, ScanChunks(f, start + SCAN_CHUNK, len))
  {
    assert ([calls] + ScanChunks(f, start + SCAN_CHUNK, len))[1..] == ScanChunks(f, start + SCAN_CHUNK, len);
  }

  /** One pass of the chunk loop: the chunk's reads sent, their successes pushed. */
  method ScanRound(c: Chain, f: Addr, start: nat, len: nat, addrs: seq<Addr>, batches: seq<seq<Read>>)
    returns (addrs': seq<Addr>, batches': seq<seq<Read>>)
    requires start < len
    ensures batches' + ScanChunks(f, start + SCAN_CHUNK, len) == batches + ScanChunks(f, start, len)
    ensures addrs' + ScanAddrs(c, ScanChunks(f, start + SCAN_CHUNK, len)) == addrs + ScanAddrs(c, ScanChunks(f, start, len))
  {
    var calls := ChunkReads(f, start, Min(len, start + SCAN_CHUNK));
    var res, _ := RunMulti(c, calls);
    ScanStep(c, f, start, len, calls);
    var next := ScanChunks(f, start + SCAN_CHUNK, len);
    addrs' := PushSuccesses(addrs, res);
    batches' := batches + [calls];
    Regroup(batches, [calls], next);
    Regroup(addrs, SuccessAddrs(res), ScanAddrs(c, next));
  }

  /** The chunk loop: `batches` are the read lists sent, `addrs` the pairs found. */
  method ScanFactory(c: Chain, f: Addr, len: nat) returns (addrs: seq<Addr>, batches: seq<seq<Read>>)
    ensures batches == ScanChunks(f, 0, len)
    ensures addrs == ScanAddrs(c, batches)
  {
    ghost var all := ScanChunks(f, 0, len);
    ghost var found := ScanAddrs(c, all);
    addrs, batches := [], [];
    var start := 0;
    while start < len
      invariant batches + ScanChunks(f, start, len) == all
      invariant addrs + ScanAddrs(c, ScanChunks(f, start, len)) == found
      decreases len - start
    {
      addrs, batches := ScanRound(c, f, start, len, addrs, batches);
      start := start + SCAN_CHUNK;
    }
    assert ScanChunks(f, start, len) == [];
  }

  // ---------------------------------------------------------------------
  // Owned pairs.

  /** The balance read `i` gave, 0 where it failed. */
  function BalAt(bals: seq<CallResult<Answer>>, i: nat): nat
  {
    if At(bals, i).Success? then WordOf(At(bals, i).value) else 0
  }

  /** `owned`: the pairs whose balance read succeeded with a positive balance, in order. */
  function Owned(addrs: seq<Addr>, bals: seq<CallResult<Answer>>): (r: seq<Addr>)
    ensures forall a :: a in r ==> a in addrs
    ensures forall i :: 0 <= i < |addrs| && BalAt(bals, i) > 0 ==> addrs[i] in r
  {
    if |addrs| == 0 then []
    else
      var n := |addrs| - 1;
      assert forall i :: 0 <= i < n ==> addrs[..n][i] == addrs[i];
      Owned(addrs[..n], bals) + (if BalAt(bals, n) > 0 then [addrs[n]] else [])
  }

  /** `ownedBal`: each owned pair's balance; a pair listed twice keeps the later one. */
  function OwnedBal(addrs: seq<Addr>, bals: seq<CallResult<Answer>>): map<Addr, nat>
  {
    if |addrs| == 0 then map[]
    else
      var n := |addrs| - 1;
      var m := OwnedBal(addrs[..n], bals);
      if BalAt(bals, n) > 0 then m[addrs[n] := BalAt(bals, n)] else m
  }

  /** Exactly the owned pairs have a recorded balance, and it is positive. */
  lemma {:induction false} OwnedHasBalance(addrs: seq<Addr>, bals: seq<CallResult<Answer>>)
    ensures forall a :: a in Owned(addrs, bals) <==> a in OwnedBal(addrs, bals)
    ensures forall a :: a in OwnedBal(addrs, bals) ==> OwnedBal(addrs, bals)[a] > 0
  {
    if |addrs| > 0 {
      OwnedHasBalance(addrs[..|addrs| - 1], bals);
    }
  }

  /** The `balRes.forEach` loop filling `owned` and `ownedBal`. */
  method CollectOwned(addrs: seq<Addr>, bals: seq<CallResult<Answer>>) returns (owned: seq<Addr>, bal: map<Addr, nat>)
    ensures owned == Owned(addrs, bals) && bal == OwnedBal(addrs, bals)
  {
    owned, bal := [], map[];
    for i := 0 to |addrs|
      invariant owned == Owned(addrs[..i], bals) && bal == OwnedBal(addrs[..i], bals)
    {
      assert addrs[..i + 1][..i] == addrs[..i];
      var b := BalAt(bals, i);
      if b > 0 {
        owned := owned + [addrs[i]];
        bal := bal[addrs[i] := b];
      }
    }
    assert addrs[..|addrs|] == addrs;
  }

  /** `balanceOf(account)` on every pair found. */
  function BalanceCalls(addrs: seq<Addr>, owner: Addr): seq<Read>
  {
    MapSeq(addrs, (a: Addr) => BalanceOf(a, owner))
  }

  /**
   * `metaPairs`: the owned pairs whose four reads succeeded and whose
   * supply is not 0, each with its recorded balance.
   */
  function MetaPairs(owned: seq<Addr>, bal: map<Addr, nat>, res: seq<CallResult<Answer>>): (r: seq<Held>)
    requires forall a :: a in owned ==> a in bal
    ensures forall j :: 0 <= j < |r| ==> r[j].data.totalSupply > 0 && r[j].lp in owned && r[j].bal == bal[r[j].lp]
    ensures forall i :: 0 <= i < |owned| && PairReads(res, i).Some? && PairReads(res, i).value.totalSupply != 0 ==>
      Held(owned[i], PairReads(res, i).value, bal[owned[i]]) in r
  {
    if |owned| == 0 then []
    else
      var n := |owned| - 1;
      assert forall i :: 0 <= i < n ==> owned[..n][i] == owned[i];
      var rest := MetaPairs(owned[..n], bal, res);
      var d := PairReads(res, n);
      if d.Some? && d.value.totalSupply != 0 then rest + [Held(owned[n], d.value, bal[owned[n]])] else rest
  }

  /** The loop that pushes into `metaPairs`, skipping failed and empty pairs. */
  method CollectMetaPairs(owned: seq<Addr>, bal: map<Addr, nat>, res: seq<CallResult<Answer>>) returns (hs: seq<Held>)
    requires forall a :: a in owned ==> a in bal
    ensures hs == MetaPairs(owned, bal, res)
  {
    hs := [];
    for i := 0 to |owned|
      invariant hs == MetaPairs(owned[..i], bal, res)
    {
      assert owned[..i + 1][..i] == owned[..i];
      var d := PairReads(res, i);
      if d.Some? && d.value.totalSupply != 0 {
        hs := hs + [Held(owned[i], d.value, bal[owned[i]])];
      }
    }
    assert owned[..|owned|] == owned;
  }

  // ---------------------------------------------------------------------
  // The two ways of finding positions.

  /** What a thrown error carries, and `String(e)`. */
  datatype Thrown = Thrown(info: ErrInfo, text: string)

  /** A read that answers or throws. */
  datatype Reply<T> = Ok(value: T) | Threw(e: Thrown)

  /**
   * What the page reads from the wallet and the chain, and the clock:
   * `clock(i)` is what `Date.now()` answers at the load's `i`-th position
   * push. Only one of the two paths pushes in a load, since the factory
   * path runs only when the API path pushed nothing.
   */
  datatype Env = Env(connected: bool, account: Option<Addr>, chainId: nat, chain: Chain,
                     factory: Option<Addr>, router: Option<Addr>, wallet: bool, clock: nat -> nat)

  /** Connected, with an account and a public client. */
  predicate Ready(e: Env) { e.connected && Truthy(e.account) && e.chain.client }

  const E_NO_FACTORY := "Factory address missing for this chain"
  const N_NONE_FOUND := "No LP detected from balances. Factory scan also found none."
  const N_UNAVAILABLE := "Liquidity balances unavailable"

  /** What the wallet API path leaves: its positions and `usedApi`. */
  datatype ApiFound = ApiFound(positions: seq<Position>, usedApi: bool)

  /**
   * The wallet API path: the positions it found and `usedApi`. A throw
   * anywhere (the API itself, an unreadable balance, a malformed address)
   * leaves no positions and `usedApi` false; no token on this chain leaves
   * `usedApi` false too.
   */
  function ApiStage(e: Env, api: ApiReply): ApiFound
  {
    if api.ApiThrew? then ApiFound([], false)
    else
      var on := OnThisChain(e.chainId, api.tokens);
      if on.None? || |on.value| == 0 then ApiFound([], false)
      else
        var addrs := AddrsOf(on.value);
        if addrs.None? then ApiFound([], false)
        else
          var live := RealHeld(PairInfos(addrs.value, on.value, Multi(e.chain, FlatMap(addrs.value, PairCalls))));
          if |live| == 0 then ApiFound([], true)
          else ApiFound(PositionsOf(e.chainId, live, Multi(e.chain, FlatMap(live, HeldMeta)), e.clock), true)
  }

  /**
   * The factory path: a throw where the chain has no factory or the pair
   * count cannot be read; otherwise the positions of the owned pairs with
   * supply, found by scanning every pair.
   */
  function FactoryStage(e: Env, pairsLen: Reply<nat>): Reply<seq<Position>>
    requires Ready(e)
  {
    if !Truthy(e.factory) then Threw(Thrown(ErrInfo(None, Some(E_NO_FACTORY)), "Error: " + E_NO_FACTORY))
    else if pairsLen.Threw? then Threw(pairsLen.e)
    else if pairsLen.value == 0 then Ok([])
    else
      var addrs := ScanAddrs(e.chain, ScanChunks(e.factory.value, 0, pairsLen.value));
      if |addrs| == 0 then Ok([]) else Ok(HeldPositions(e, addrs))
  }

  /** The positions of the pairs found: balances, the owned pairs, their pair reads, their metadata. */
  function HeldPositions(e: Env, addrs: seq<Addr>): seq<Position>
    requires Ready(e)
  {
    var bals := Multi(e.chain, BalanceCalls(addrs, e.account.value));
    var owned := Owned(addrs, bals);
    OwnedHasBalance(addrs, bals);
    if |owned| == 0 then []
    else
      var hs := MetaPairs(owned, OwnedBal(addrs, bals), Multi(e.chain, FlatMap(owned, PairCalls)));
      if |hs| == 0 then [] else PositionsOf(e.chainId, hs, Multi(e.chain, FlatMap(hs, HeldMeta)), e.clock)
  }

  /** The wallet API path as the page runs it. */
  method ApiPositions(e: Env, api: ApiReply) returns (ps: seq<Position>, usedApi: bool)
    ensures ApiFound(ps, usedApi) == ApiStage(e, api)
  {
    if api.ApiThrew? {
      return [], false;
    }
    var on := OnThisChain(e.chainId, api.tokens);
    if on.None? || |on.value| == 0 {
      return [], false;
    }
    var addrs := AddrsOf(on.value);
    if addrs.None? {
      return [], false;
    }
    var res, _ := RunMulti(e.chain, FlatMap(addrs.value, PairCalls));
    var pairs := BuildPairs(addrs.value, on.value, res);
    var live := RealHeld(pairs);
    ps := [];
    if |live| > 0 {
      var meta, _ := RunMulti(e.chain, FlatMap(live, HeldMeta));
      ps := BuildPositions(e.chainId, live, meta, e.clock);
    }
    usedApi := true;
  }

  /** The factory path as the page runs it. */
  method FactoryPositions(e: Env, pairsLen: Reply<nat>) returns (r: Reply<seq<Position>>)
    requires Ready(e)
    ensures r == FactoryStage(e, pairsLen)
  {
    if !Truthy(e.factory) {
      return Threw(Thrown(ErrInfo(None, Some(E_NO_FACTORY)), "Error: " + E_NO_FACTORY));
    }
    if pairsLen.Threw? {
      return Threw(pairsLen.e);
    }
    if pairsLen.value == 0 {
      return Ok([]);
    }
    var addrs, _ := ScanFactory(e.chain, e.factory.value, pairsLen.value);
    if |addrs| == 0 {
      return Ok([]);
    }
    var ps := FromPairs(e, addrs);
    r := Ok(ps);
  }

  /** From the pairs found to their positions, as the page runs it. */
  method FromPairs(e: Env, addrs: seq<Addr>) returns (ps: seq<Position>)
    requires Ready(e)
    ensures ps == HeldPositions(e, addrs)
  {
    var bals, _ := RunMulti(e.chain, BalanceCalls(addrs, e.account.value));
    var owned, bal := CollectOwned(addrs, bals);
    OwnedHasBalance(addrs, bals);
    if |owned| == 0 {
      return [];
    }
    var res, _ := RunMulti(e.chain, FlatMap(owned, PairCalls));
    var hs := CollectMetaPairs(owned, bal, res);
    if |hs| == 0 {
      return [];
    }
    var meta, _ := RunMulti(e.chain, FlatMap(hs, HeldMeta));
    ps := BuildPositions(e.chainId, hs, meta, e.clock);
  }

  // ---------------------------------------------------------------------
  // The load effect's outcome.

  /** What a load ends in: not ready, positions found (with the note when none), or a throw. */
  datatype Outcome = NotReady | Found(list: seq<Position>, note: Option<string>) | LoadFailed(message: string)

  /** `String(e?.message || e)` */
  function LoadMessage(x: Thrown): string { FirstTruthy(x.info.message, None, x.text) }

  /** The API path first; the factory path only when it found nothing, with its note when that finds nothing either. */
  function LoadOutcome(e: Env, api: ApiReply, pairsLen: Reply<nat>): Outcome
  {
    if !Ready(e) then NotReady
    else
      var a := ApiStage(e, api);
      if |a.positions| > 0 then Found(a.positions, None)
      else
        var f := FactoryStage(e, pairsLen);
        if f.Threw? then LoadFailed(LoadMessage(f.e))
        else Found(f.value, if |f.value| == 0 then Some(if a.usedApi then N_NONE_FOUND else N_UNAVAILABLE) else None)
  }

  /** A load that finds nothing says why: the factory scan's note after the API was used, the other note otherwise. */
  lemma LoadNotes(e: Env, api: ApiReply, pairsLen: Reply<nat>)
    requires LoadOutcome(e, api, pairsLen).Found?
    ensures var o := LoadOutcome(e, api, pairsLen);
      && (|o.list| == 0 <==> o.note.Some?)
      && (o.note.Some? ==> o.note.value == if ApiStage(e, api).usedApi then N_NONE_FOUND else N_UNAVAILABLE)
      && (|ApiStage(e, api).positions| > 0 ==> o.list == ApiStage(e, api).positions)
  {
  }

  /** What `localStorage` holds under the key, `[]` without a key or an entry. */
  function Stored(storage: map<string, seq<Position>>, k: string): seq<Position>
  {
    if k != "" && k in storage then storage[k] else []
  }

  // ---------------------------------------------------------------------
  // Newest first.

  /** The comparator `(a, b) => b.ts - a.ts`: `a` may stay ahead of `b` when it is at least as recent. */
  predicate Newer(a: Position, b: Position) { a.ts >= b.ts }

  /** `sort((a, b) => b.ts - a.ts)`, which is stable. */
  function NewestFirst(ps: seq<Position>): seq<Position>
  {
    SortBy(ps, Newer)
  }

  lemma NewerTotal()
    ensures TotalPreorder(Newer)
  {
  }

  /** The sorted list has the same positions, the most recent first. */
  lemma NewestFirstSorted(ps: seq<Position>)
    ensures var r := NewestFirst(ps);
      multiset(r) == multiset(ps) && forall i, j :: 0 <= i < j < |r| ==> r[i].ts >= r[j].ts
  {
    NewerTotal();
    SortBySorted(ps, Newer);
  }

  /** Positions read at one time keep their order. */
  lemma {:induction false} NewestFirstSameTime(ps: seq<Position>, t: nat)
    requires forall p :: p in ps ==> p.ts == t
    ensures NewestFirst(ps) == ps
  {
    if |ps| > 0 {
      assert forall p :: p in ps[1..] ==> p in ps;
      NewestFirstSameTime(ps[1..], t);
      assert ps == [ps[0]] + ps[1..];
    }
  }

  // ---------------------------------------------------------------------
  // `filtered` and the managed position.

  /** The `includes` test: `symA-symB` or either name, lowercased, contains `q`. */
  predicate Matches(p: Position, q: string)
  {
    || Contains(Lower(p.tokenA.symbol + "-" + p.tokenB.symbol), q)
    || Contains(Lower(OptionOr(p.tokenA.name, "")), q)
    || Contains(Lower(OptionOr(p.tokenB.name, "")), q)
  }

  /** `filtered`: the current-chain toggle, then the trimmed, lowercased query when it is not blank. */
  function Filtered(ps: seq<Position>, onlyCurrent: bool, chainId: nat, query: string): (r: seq<Position>)
    ensures |r| <= |ps|
    ensures forall p :: p in r <==>
      p in ps && (onlyCurrent ==> p.chainId == chainId) && (Trim(query) != "" ==> Matches(p, Lower(Trim(query))))
  {
    var list := if onlyCurrent then Filter(ps, (p: Position) => p.chainId == chainId) else ps;
    var q := Lower(Trim(query));
    if Trim(query) != "" then Filter(list, (p: Position) => Matches(p, q)) else list
  }

  /** `filtered.find(p => p.id === manageId) || null`: the first position with the id. */
  function FindById(ps: seq<Position>, id: Option<string>): (r: Option<Position>)
    ensures r.Some? ==> id.Some? && r.value in ps && r.value.id == id.value
    ensures r.None? ==> id.None? || forall p :: p in ps ==> p.id != id.value
  {
    if id.None? || |ps| == 0 then None
    else if ps[0].id == id.value then Some(ps[0])
    else FindById(ps[1..], id)
  }

  /** The first position with the id is found, whatever follows it. */
  lemma {:induction false} FindByIdFirst(ps: seq<Position>, id: string, i: nat)
    requires i < |ps| && ps[i].id == id && forall j :: 0 <= j < i ==> ps[j].id != id
    ensures FindById(ps, Some(id)) == Some(ps[i])
  {
    if i > 0 {
      FindByIdFirst(ps[1..], id, i - 1);
    }
  }

  // ---------------------------------------------------------------------
  // Refreshing one position.

  /** The reserves, the supply and the account's balance of a pair, read together. */
  datatype ChainState = ChainState(reserve0: nat, reserve1: nat, supply: nat, bal: nat)

  /** `readDecimals`: 18 when the read fails. */
  function DecimalsOr18(r: CallResult<nat>): nat { if r.Success? then r.value else 18 }

  /** `refreshPositionFromChain`: new amounts (0 from an empty pool), new LP share, new time; nothing else changes. */
  function Refreshed(pos: Position, st: ChainState, d0: nat, d1: nat, lpDec: nat, now: nat): (r: Position)
    ensures r.id == pos.id && r.chainId == pos.chainId && r.lpAddr == pos.lpAddr
    ensures r.tokenA == pos.tokenA && r.tokenB == pos.tokenB && r.ts == now
  {
    var a0 := if st.supply == 0 then 0 else Scaled(st.reserve0, st.bal, st.supply);
    var a1 := if st.supply == 0 then 0 else Scaled(st.reserve1, st.bal, st.supply);
    pos.(amountA := FormatUnits(a0, d0), amountB := FormatUnits(a1, d1), lpShares := FormatUnits(st.bal, lpDec), ts := now)
  }

  /**
   * A refreshed position reads back as the holder's share of each reserve
   * (0 from an empty pool), never more than the reserve, and the balance.
   */
  lemma RefreshedReadBack(pos: Position, st: ChainState, d0: nat, d1: nat, lpDec: nat, now: nat)
    requires st.supply > 0 ==> st.bal <= st.supply
    ensures var r := Refreshed(pos, st, d0, d1, lpDec, now);
      && (st.supply == 0 ==> ParseUnits(r.amountA, d0) == Some(0) && ParseUnits(r.amountB, d1) == Some(0))
      && (st.supply > 0 ==> ParseUnits(r.amountA, d0) == Some(Scaled(st.reserve0, st.bal, st.supply)))
      && (st.supply > 0 ==> ParseUnits(r.amountB, d1) == Some(Scaled(st.reserve1, st.bal, st.supply)))
      && (st.supply > 0 ==> Scaled(st.reserve0, st.bal, st.supply) <= st.reserve0)
      && (st.supply > 0 ==> Scaled(st.reserve1, st.bal, st.supply) <= st.reserve1)
      && ParseUnits(r.lpShares, lpDec) == Some(st.bal)
  {
    var a0 := if st.supply == 0 then 0 else Scaled(st.reserve0, st.bal, st.supply);
    var a1 := if st.supply == 0 then 0 else Scaled(st.reserve1, st.bal, st.supply);
    FormatReadBack(a0, d0);
    FormatReadBack(a1, d1);
    FormatReadBack(st.bal, lpDec);
    if st.supply > 0 {
      ShareAtMost(st.reserve0, st.bal, st.supply);
      ShareAtMost(st.reserve1, st.bal, st.supply);
    }
  }

  /** Position `i` of a build carries the chain and the `i`-th stamp of the clock. */
  lemma PositionsOfStamped(chainId: nat, hs: seq<Held>, meta: seq<CallResult<Answer>>, clock: nat -> nat)
    requires AllLive(hs)
    ensures Stamped(PositionsOf(chainId, hs, meta, clock), chainId, clock)
  {
  }

  predicate Stamped(ps: seq<Position>, chainId: nat, clock: nat -> nat)
  {
    forall i :: 0 <= i < |ps| ==> ps[i].ts == clock(i) && ps[i].chainId == chainId
  }

  lemma ApiStageStamped(e: Env, api: ApiReply)
    ensures Stamped(ApiStage(e, api).positions, e.chainId, e.clock)
  {
    if api.ApiTokens? {
      var on := OnThisChain(e.chainId, api.tokens);
      if on.Some? && |on.value| > 0 {
        var addrs := AddrsOf(on.value);
        if addrs.Some? {
          var live := RealHeld(PairInfos(addrs.value, on.value, Multi(e.chain, FlatMap(addrs.value, PairCalls))));
          PositionsOfStamped(e.chainId, live, Multi(e.chain, FlatMap(live, HeldMeta)), e.clock);
        }
      }
    }
  }

  lemma HeldPositionsStamped(e: Env, addrs: seq<Addr>)
    requires Ready(e)
    ensures Stamped(HeldPositions(e, addrs), e.chainId, e.clock)
  {
    var bals := Multi(e.chain, BalanceCalls(addrs, e.account.value));
    var owned := Owned(addrs, bals);
    OwnedHasBalance(addrs, bals);
    if |owned| > 0 {
      var hs := MetaPairs(owned, OwnedBal(addrs, bals), Multi(e.chain, FlatMap(owned, PairCalls)));
      PositionsOfStamped(e.chainId, hs, Multi(e.chain, FlatMap(hs, HeldMeta)), e.clock);
    }
  }

  /** The positions stamped `t`. */
  function AtTime(t: nat): Position -> bool
  {
    (p: Position) => p.ts == t
  }

  /** Sorting newest first keeps the order among positions with the same stamp. */
  lemma NewestFirstKeepsTies(ps: seq<Position>, t: nat)
    ensures Filter(NewestFirst(ps), AtTime(t)) == Filter(ps, AtTime(t))
  {
    SortByKeepsTies(ps, Newer, AtTime(t));
  }

  /**
   * Positions stamped by a clock are shown newest first, as a permutation,
   * with positions of one stamp in the order they were read, and in read
   * order outright when the clock did not move.
   */
  lemma StampedShown(ps: seq<Position>, chainId: nat, clock: nat -> nat)
    requires Stamped(ps, chainId, clock)
    ensures var shown := NewestFirst(ps);
      && multiset(shown) == multiset(ps)
      && (forall i, j :: 0 <= i < j < |shown| ==> shown[i].ts >= shown[j].ts)
      && (forall t :: Filter(shown, AtTime(t)) == Filter(ps, AtTime(t)))
    ensures (forall i :: 0 <= i < |ps| ==> clock(i) == clock(0)) ==> NewestFirst(ps) == ps
  {
    NewestFirstSorted(ps);
    forall t: nat ensures Filter(NewestFirst(ps), AtTime(t)) == Filter(ps, AtTime(t)) {
      NewestFirstKeepsTies(ps, t);
    }
    if forall i :: 0 <= i < |ps| ==> clock(i) == clock(0) {
      forall p | p in ps ensures p.ts == clock(0) {
        var i :| 0 <= i < |ps| && ps[i] == p;
      }
      NewestFirstSameTime(ps, clock(0));
    }
  }

  /** A load's positions carry the chain and the stamp of their own push. */
  lemma LoadStamped(e: Env, api: ApiReply, pairsLen: Reply<nat>)
    requires LoadOutcome(e, api, pairsLen).Found?
    ensures Stamped(LoadOutcome(e, api, pairsLen).list, e.chainId, e.clock)
  {
    ApiStageStamped(e, api);
    if |ApiStage(e, api).positions| == 0 && Truthy(e.factory) && pairsLen.Ok? && pairsLen.value > 0 {
      var addrs := ScanAddrs(e.chain, ScanChunks(e.factory.value, 0, pairsLen.value));
      if |addrs| > 0 {
        HeldPositionsStamped(e, addrs);
      }
    }
  }

  /**
   * A load is shown newest first by the stamp of each push, as a
   * permutation, with positions of one stamp in the order they were read,
   * and in read order outright when the clock did not move during the load.
   */
  lemma LoadKeepsReadOrder(e: Env, api: ApiReply, pairsLen: Reply<nat>)
    requires LoadOutcome(e, api, pairsLen).Found?
    ensures var list := LoadOutcome(e, api, pairsLen).list;
      var shown := NewestFirst(list);
      && Stamped(list, e.chainId, e.clock)
      && multiset(shown) == multiset(list)
      && (forall i, j :: 0 <= i < j < |shown| ==> shown[i].ts >= shown[j].ts)
      && (forall t :: Filter(shown, AtTime(t)) == Filter(list, AtTime(t)))
      && ((forall i :: 0 <= i < |list| ==> e.clock(i) == e.clock(0)) ==> shown == list)
  {
    LoadStamped(e, api, pairsLen);
    StampedShown(LoadOutcome(e, api, pairsLen).list, e.chainId, e.clock);
  }

  /** Two positions read at one time and a third read a millisecond later are shown third first. */
  lemma LaterPushShownFirst(p1: Position, p2: Position, p3: Position)
    requires p1.ts == p2.ts && p3.ts == p1.ts + 1
    ensures NewestFirst([p1, p2, p3]) == [p3, p1, p2]
  {
    NewerPairSwapped(p2, p3);
    InsertBehindNewer(p1, p3, p2);
    assert [p1, p2, p3][1..] == [p2, p3];
  }

  lemma NewerPairSwapped(a: Position, b: Position)
    requires a.ts < b.ts
    ensures SortBy([a, b], Newer) == [b, a]
  {
    assert [a, b][1..] == [b];
    assert SortBy([b], Newer) == [b];
  }

  lemma InsertBehindNewer(x: Position, a: Position, b: Position)
    requires a.ts > x.ts && x.ts >= b.ts
    ensures Insert(x, [a, b], Newer) == [a, x, b]
  {
    assert [a, b][1..] == [b];
  }

  /** The load's search, as the page runs it. */
  method FindPositions(e: Env, api: ApiReply, pairsLen: Reply<nat>) returns (o: Outcome)
    ensures o == LoadOutcome(e, api, pairsLen)
  {
    if !Ready(e) {
      return NotReady;
    }
    var found, usedApi := ApiPositions(e, api);
    if |found| > 0 {
      return Found(found, None);
    }
    var f := FactoryPositions(e, pairsLen);
    if f.Threw? {
      return LoadFailed(LoadMessage(f.e));
    }
    o := Found(f.value, if |f.value| == 0 then Some(if usedApi then N_NONE_FOUND else N_UNAVAILABLE) else None);
  }

  // ---------------------------------------------------------------------
  // Removing liquidity.

  /** A transaction handed to the wallet. */
  datatype Tx =
    | ApproveLp(lp: Addr, spender: Addr, amount: nat)
    | RemoveLiquidity(tokenA: string, tokenB: string, liquidity: nat, amountAMin: nat, amountBMin: nat, to: Addr, deadline: nat)

  /** A transaction's receipt status, or a throw from sending or waiting. */
  datatype TxStep = Receipt(success: bool) | TxThrew(e: Thrown)

  /** The LP amount the slider selects and the two minimum amounts, as `parseUnits` gives them. */
  datatype Amounts = Amounts(liq: nat, aMin: nat, bMin: nat)

  /**
   * What `onConfirmRemove` reads and what its transactions do, with two
   * readings of `Date.now()` in milliseconds: `sentAt` once any approval
   * is mined and before the removal is sent, for the deadline, and
   * `refreshedAt` in the refresh after the receipt, for the position's new
   * time.
   */
  datatype RemoveInput = RemoveInput(amounts: Reply<Amounts>, allowance: Reply<nat>, approve: TxStep, remove: TxStep,
                                     refresh: Reply<ChainState>, dec0: CallResult<nat>, dec1: CallResult<nat>,
                                     decLp: CallResult<nat>, sentAt: nat, refreshedAt: nat)

  /** The removal's end: the refreshed position, a reverted receipt, or a throw's message. */
  datatype RemoveResult = Removed(updated: Position) | Reverted | RemoveFailed(message: string)

  /** The transactions a removal hands to the wallet and how it ends. */
  datatype Removal = Removal(calls: seq<Tx>, result: RemoveResult)

  const E_NO_ROUTER := "Router address missing for this chain. Fill ROUTER_BY_CHAIN to enable removal."
  const E_NOT_READY := "Wallet/public client not ready."
  const N_REMOVED := "Removed successfully."
  const N_REVERTED := "Transaction reverted."

  /** The deadline is fifteen minutes from now, in whole seconds. */
  const DEADLINE_SECONDS: nat := 15 * 60

  /** `e?.shortMessage || e?.message || String(e)` */
  function TxMessage(x: Thrown): string { FirstTruthy(x.info.shortMessage, x.info.message, x.text) }

  /** `removeLiquidity(tokenA, tokenB, liq, aMin, bMin, account, deadline)` */
  function RemoveCall(p: Position, am: Amounts, account: Addr, now: nat): Tx
  {
    RemoveLiquidity(p.tokenA.address, p.tokenB.address, am.liq, am.aMin, am.bMin, account, now / 1000 + DEADLINE_SECONDS)
  }

  /**
   * The body of `onConfirmRemove`'s `try`: the LP token is approved for
   * exactly `liq` when the allowance is short of it, the removal is sent,
   * and a successful receipt refreshes the position from the chain.
   */
  function RemovalOf(p: Position, account: Addr, router: Addr, i: RemoveInput): Removal
  {
    if i.amounts.Threw? then Removal([], RemoveFailed(TxMessage(i.amounts.e)))
    else if i.allowance.Threw? then Removal([], RemoveFailed(TxMessage(i.allowance.e)))
    else
      var am := i.amounts.value;
      var approve := if i.allowance.value < am.liq then [ApproveLp(p.lpAddr, router, am.liq)] else [];
      if |approve| > 0 && i.approve.TxThrew? then Removal(approve, RemoveFailed(TxMessage(i.approve.e)))
      else
        var calls := approve + [RemoveCall(p, am, account, i.sentAt)];
        if i.remove.TxThrew? then Removal(calls, RemoveFailed(TxMessage(i.remove.e)))
        else if !i.remove.success then Removal(calls, Reverted)
        else if i.refresh.Threw? then Removal(calls, RemoveFailed(TxMessage(i.refresh.e)))
        else Removal(calls, Removed(Refreshed(p, i.refresh.value, DecimalsOr18(i.dec0), DecimalsOr18(i.dec1),
                                              DecimalsOr18(i.decLp), i.refreshedAt)))
  }

  /**
   * The approval is sent exactly when the allowance is short of `liq`,
   * for exactly `liq`, and always first; the removal is sent at most once,
   * last, for `liq` with a deadline fifteen minutes after the send time,
   * and only once the approval did not throw; a removed position keeps its
   * id and pair and carries the time of the refresh.
   */
  lemma RemovalApproval(p: Position, account: Addr, router: Addr, i: RemoveInput)
    requires i.amounts.Ok? && i.allowance.Ok?
    ensures var r := RemovalOf(p, account, router, i);
      var liq := i.amounts.value.liq;
      && (ApproveLp(p.lpAddr, router, liq) in r.calls <==> i.allowance.value < liq)
      && (forall j :: 0 <= j < |r.calls| && r.calls[j].ApproveLp? ==> j == 0 && r.calls[j] == ApproveLp(p.lpAddr, router, liq))
      && (forall j :: 0 <= j < |r.calls| && r.calls[j].RemoveLiquidity? ==> j == |r.calls| - 1 && r.calls[j].liquidity == liq)
      && (forall j :: 0 <= j < |r.calls| && r.calls[j].RemoveLiquidity? ==> r.calls[j].deadline == i.sentAt / 1000 + DEADLINE_SECONDS)
      && (r.calls != [] && r.calls[|r.calls| - 1].RemoveLiquidity? <==> !(i.allowance.value < liq && i.approve.TxThrew?))
      && (r.result.Removed? ==> r.result.updated.id == p.id && r.result.updated.lpAddr == p.lpAddr)
      && (r.result.Removed? ==> r.result.updated.ts == i.refreshedAt)
  {
  }

  /** The removal as the page runs it, one await after another. */
  method RunRemoval(p: Position, account: Addr, router: Addr, i: RemoveInput) returns (r: Removal)
    ensures r == RemovalOf(p, account, router, i)
  {
    if i.amounts.Threw? {
      return Removal([], RemoveFailed(TxMessage(i.amounts.e)));
    }
    var am := i.amounts.value;
    if i.allowance.Threw? {
      return Removal([], RemoveFailed(TxMessage(i.allowance.e)));
    }
    var calls: seq<Tx> := [];
    if i.allowance.value < am.liq {
      calls := calls + [ApproveLp(p.lpAddr, router, am.liq)];
      if i.approve.TxThrew? {
        return Removal(calls, RemoveFailed(TxMessage(i.approve.e)));
      }
    }
    calls := calls + [RemoveCall(p, am, account, i.sentAt)];
    if i.remove.TxThrew? {
      return Removal(calls, RemoveFailed(TxMessage(i.remove.e)));
    }
    if !i.remove.success {
      return Removal(calls, Reverted);
    }
    if i.refresh.Threw? {
      return Removal(calls, RemoveFailed(TxMessage(i.refresh.e)));
    }
    var updated := Refreshed(p, i.refresh.value, DecimalsOr18(i.dec0), DecimalsOr18(i.dec1), DecimalsOr18(i.decLp), i.refreshedAt);
    r := Removal(calls, Removed(updated));
  }

  /** `prev.map(p => p.id === id ? updated : p)` */
  function ReplaceById(ps: seq<Position>, id: string, updated: Position): seq<Position>
  {
    MapSeq(ps, (p: Position) => if p.id == id then updated else p)
  }

  /** Only the positions with the id are replaced; the rest stay where they are. */
  lemma ReplaceByIdOnly(ps: seq<Position>, id: string, updated: Position)
    ensures |ReplaceById(ps, id, updated)| == |ps|
    ensures forall i :: 0 <= i < |ps| && ps[i].id == id ==> ReplaceById(ps, id, updated)[i] == updated
    ensures forall i :: 0 <= i < |ps| && ps[i].id != id ==> ReplaceById(ps, id, updated)[i] == ps[i]
  {
    MapSeqIndex(ps, (p: Position) => if p.id == id then updated else p);
  }

  /** The note a removal ends with. */
  function RemoveNote(r: RemoveResult): string
  {
    match r
    case Removed(_) => N_REMOVED
    case Reverted => N_REVERTED
    case RemoveFailed(m) => m
  }

  /** `onConfirmRemove`'s guard: a managed position, an account, a router, a wallet and a public client. */
  predicate RemoveReady(e: Env, mp: Option<Position>)
  {
    mp.Some? && Truthy(e.account) && Truthy(e.router) && e.wallet && e.chain.client
  }
}
