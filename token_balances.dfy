/**
 * `useTokenBalances`: the raw balances of a wallet for a list of items.
 * The items are deduplicated by `"native"` or lowercase address, the native
 * balance is read when a native item is asked for, and the ERC-20 balances
 * are read by multicall in chunks of 100 addresses. A failed multicall entry
 * records 0; any thrown error empties the whole map.
 *
 * The public client is two oracles: `native` is the reply of `getBalance`
 * (`None` where it throws) and `multicall` maps the addresses of one chunk to
 * the per-entry results (`None` for the whole call where it throws, `None`
 * for one entry whose status is not `success`). The formatted balance is
 * floating-point text and is not part of this model; only `raw` is kept.
 */
module TokenBalances {
  import opened Common
  import opened Keyed

  datatype Asset = Native | Erc(address: Addr)

  datatype Item = Item(asset: Asset, decimals: nat)

  /** Raw balances by `"native"` or lowercase address. */
  type BalMap = map<string, nat>

  const NATIVE_KEY := "native"
  const CHUNK: nat := 100

  function AssetKey(a: Asset): string
  {
    match a
    case Native => NATIVE_KEY
    case Erc(x) => Lower(x)
  }

  function ItemKey(it: Item): string { AssetKey(it.asset) }

  /** Two spellings of one address have one key; a real address never collides with `"native"`. */
  lemma AssetKeyProperties(x: Addr, y: Addr)
    ensures Lower(x) == Lower(y) ==> AssetKey(Erc(x)) == AssetKey(Erc(y))
    ensures IsAddressText(x) ==> AssetKey(Erc(x)) != AssetKey(Native)
  {
    if IsAddressText(x) {
      assert AssetKey(Erc(x))[0] == '0';
    }
  }

  // ---------------------------------------------------------------------
  // `uniq`

  /** The `uniq` memo: the loop over `seen` and `out`. */
  method Uniq(items: seq<Item>) returns (out: seq<Item>)
    ensures out == FirstByKey(items, ItemKey)
  {
    out := KeepFirsts(items, ItemKey);
  }

  /** `uniq` keeps the first item of each key, in order, and drops no key. */
  lemma UniqProperties(items: seq<Item>)
    ensures var u := FirstByKey(items, ItemKey);
      && DistinctKeys(u, ItemKey)
      && KeysOf(u, ItemKey) == KeysOf(items, ItemKey)
      && u == Firsts(items, ItemKey)
      && (|u| == 0 <==> |items| == 0)
  {
    FirstByKeyIsFirsts(items, ItemKey);
    if |items| > 0 {
      assert ItemKey(items[0]) in KeysOf(FirstByKey(items, ItemKey), ItemKey);
    }
  }

  // ---------------------------------------------------------------------
  // The balance map.

  function HasNative(s: seq<Item>): (r: bool)
    ensures r <==> exists k :: 0 <= k < |s| && s[k].asset.Native?
  {
    if |s| == 0 then false
    else if s[|s| - 1].asset.Native? then true
    else
      assert forall k :: 0 <= k < |s| - 1 ==> s[..|s| - 1][k] == s[k];
      HasNative(s[..|s| - 1])
  }

  predicate IsErc(it: Item) { it.asset.Erc? }

  function Target(it: Item): Addr
  {
    match it.asset
    case Erc(x) => x
    case Native => ""
  }

  /** The addresses of one chunk's `balanceOf` calls. */
  function Targets(slice: seq<Item>): (r: seq<Addr>)
    ensures |r| == |slice|
    ensures forall k :: 0 <= k < |slice| ==> r[k] == Target(slice[k])
  {
    seq(|slice|, k requires 0 <= k < |slice| => Target(slice[k]))
  }

  /** Entry `k` of chunk `slice`: from the end of the call list, recorded under its lowercase address. */
  function Record(res: BalMap, slice: seq<Item>, r: seq<Option<nat>>): BalMap
    requires |r| <= |slice|
  {
    if |r| == 0 then res
    else Record(res, slice, r[..|r| - 1])[ItemKey(slice[|r| - 1]) := OptionOr(r[|r| - 1], 0)]
  }

  function ChunkAt(erc: seq<Item>, i: nat): seq<Item>
    requires i < |erc|
  {
    erc[i..Min(i + CHUNK, |erc|)]
  }

  /**
   * The chunk loop from offset `i` on: `None` where a call throws, or where
   * it returns more entries than the chunk has (then `slice[idx]` is
   * undefined and reading its `decimals` throws).
   */
  function FillFrom(res: BalMap, erc: seq<Item>, i: nat, multicall: seq<Addr> -> Option<seq<Option<nat>>>): Option<BalMap>
    decreases |erc| - i
  {
    if i >= |erc| then Some(res)
    else
      var slice := ChunkAt(erc, i);
      match multicall(Targets(slice))
      case None => None
      case Some(r) => if |r| > |slice| then None else FillFrom(Record(res, slice, r), erc, i + CHUNK, multicall)
  }

  /** The map the effect sets. */
  function Balances(hasClient: bool, account: Option<Addr>, items: seq<Item>, native: Option<nat>,
                    multicall: seq<Addr> -> Option<seq<Option<nat>>>): BalMap
  {
    var uniq := FirstByKey(items, ItemKey);
    if !hasClient || account.None? || account.value == "" || |uniq| == 0 then map[]
    else BalancesOf(uniq, native, multicall)
  }

  /** The map for the distinct items `uniq`: the native balance if asked for, then the ERC-20 chunks. */
  function BalancesOf(uniq: seq<Item>, native: Option<nat>, multicall: seq<Addr> -> Option<seq<Option<nat>>>): BalMap
  {
    if HasNative(uniq) && native.None? then map[]
    else
      var res: BalMap := if HasNative(uniq) then map[NATIVE_KEY := native.value] else map[];
      match FillFrom(res, Filter(uniq, IsErc), 0, multicall)
      case None => map[]
      case Some(m) => m
  }

  method RecordEntries(res: BalMap, slice: seq<Item>, r: seq<Option<nat>>) returns (res': BalMap)
    requires |r| <= |slice|
    ensures res' == Record(res, slice, r)
  {
    res' := res;
    for idx := 0 to |r|
      invariant res' == Record(res, slice, r[..idx])
    {
      assert r[..idx + 1][..idx] == r[..idx];
      res' := res'[ItemKey(slice[idx]) := OptionOr(r[idx], 0)];
    }
    assert r[..|r|] == r;
  }

  /** One round of the chunk loop, unfolded. */
  lemma FillFromStep(res: BalMap, erc: seq<Item>, i: nat, multicall: seq<Addr> -> Option<seq<Option<nat>>>)
    requires i < |erc|
    ensures var slice := ChunkAt(erc, i); var r := multicall(Targets(slice));
      && 0 < |Targets(slice)| <= CHUNK
      && (r.None? || |r.value| > |slice| ==> FillFrom(res, erc, i, multicall) == None)
      && (r.Some? && |r.value| <= |slice| ==>
            FillFrom(res, erc, i, multicall) == FillFrom(Record(res, slice, r.value), erc, i + CHUNK, multicall))
  {
  }

  /** Call `k` is the address list of the chunk at offset `k * CHUNK`. */
  predicate ChunkCalls(calls: seq<seq<Addr>>, erc: seq<Item>)
  {
    forall k :: 0 <= k < |calls| ==> k * CHUNK < |erc| && calls[k] == Targets(ChunkAt(erc, k * CHUNK)) && 0 < |calls[k]| <= CHUNK
  }

  lemma ChunkCallsSnoc(calls: seq<seq<Addr>>, erc: seq<Item>, i: nat)
    requires ChunkCalls(calls, erc) && i == |calls| * CHUNK && i < |erc|
    ensures ChunkCalls(calls + [Targets(ChunkAt(erc, i))], erc)
  {
    var c := calls + [Targets(ChunkAt(erc, i))];
    forall k | 0 <= k < |c|
      ensures k * CHUNK < |erc| && c[k] == Targets(ChunkAt(erc, k * CHUNK)) && 0 < |c[k]| <= CHUNK
    {
      if k < |calls| {
        assert c[k] == calls[k];
      }
    }
  }

  /** One round of the chunk loop: call `multicall` on the chunk at `i`, log the call and record its answers. */
  method FillRound(res: BalMap, erc: seq<Item>, i: nat, calls: seq<seq<Addr>>,
                   multicall: seq<Addr> -> Option<seq<Option<nat>>>)
    returns (next: Option<BalMap>, calls': seq<seq<Addr>>)
    requires i < |erc| && i == |calls| * CHUNK && ChunkCalls(calls, erc)
    ensures calls' == calls + [Targets(ChunkAt(erc, i))] && ChunkCalls(calls', erc)
    ensures |calls'| * CHUNK == i + CHUNK
    ensures next.None? ==> FillFrom(res, erc, i, multicall) == None
    ensures next.Some? ==> FillFrom(res, erc, i, multicall) == FillFrom(next.value, erc, i + CHUNK, multicall)
  {
    FillFromStep(res, erc, i, multicall);
    ChunkCallsSnoc(calls, erc, i);
    var slice := ChunkAt(erc, i);
    var targets := Targets(slice);
    calls' := calls + [targets];
    var r := multicall(targets);
    if r.None? || |r.value| > |slice| {
      return None, calls';
    }
    var res' := RecordEntries(res, slice, r.value);
    next := Some(res');
  }

  /** The chunk loop; `calls` are the address lists handed to `multicall`, in order. */
  method FillChunks(res0: BalMap, erc: seq<Item>, multicall: seq<Addr> -> Option<seq<Option<nat>>>)
    returns (out: Option<BalMap>, calls: seq<seq<Addr>>)
    ensures out == FillFrom(res0, erc, 0, multicall)
    ensures ChunkCalls(calls, erc)
  {
    ghost var target := FillFrom(res0, erc, 0, multicall);
    var res := res0;
    calls := [];
    var i := 0;
    while i < |erc|
      invariant i == |calls| * CHUNK
      invariant FillFrom(res, erc, i, multicall) == target
      invariant ChunkCalls(calls, erc)
      decreases |erc| - i
    {
      var next;
      next, calls := FillRound(res, erc, i, calls, multicall);
      if next.None? {
        return None, calls;
      }
      res := next.value;
      i := i + CHUNK;
    }
    assert FillFrom(res, erc, i, multicall) == Some(res);
    out := Some(res);
  }

  /** The effect body: the guard, then the balances of the distinct items. */
  method LoadBalances(hasClient: bool, account: Option<Addr>, items: seq<Item>, native: Option<nat>,
                      multicall: seq<Addr> -> Option<seq<Option<nat>>>)
    returns (m: BalMap, calls: seq<seq<Addr>>)
    ensures m == Balances(hasClient, account, items, native, multicall)
    ensures forall k :: 0 <= k < |calls| ==> 0 < |calls[k]| <= CHUNK
  {
    var uniq := Uniq(items);
    if !hasClient || account.None? || account.value == "" || |uniq| == 0 {
      return map[], [];
    }
    m, calls := LoadBalancesOf(uniq, native, multicall);
  }

  /** The native balance, when asked for, then the chunked ERC-20 balances. */
  method LoadBalancesOf(uniq: seq<Item>, native: Option<nat>, multicall: seq<Addr> -> Option<seq<Option<nat>>>)
    returns (m: BalMap, calls: seq<seq<Addr>>)
    ensures m == BalancesOf(uniq, native, multicall)
    ensures forall k :: 0 <= k < |calls| ==> 0 < |calls[k]| <= CHUNK
  {
    calls := [];
    var res: BalMap := map[];
    if HasNative(uniq) {
      if native.None? {
        return map[], calls;
      }
      res := res[NATIVE_KEY := native.value];
    }
    var out;
    out, calls := FillChunks(res, Filter(uniq, IsErc), multicall);
    m := if out.Some? then out.value else map[];
  }

  /** `get`: the entry under `"native"` or the lowercase address. */
  function Get(m: BalMap, a: Asset): (r: Option<nat>)
    ensures r.Some? <==> AssetKey(a) in m
    ensures r.Some? ==> r.value == m[AssetKey(a)]
  {
    var k := if a.Native? then NATIVE_KEY else Lower(a.address);
    if k in m then Some(m[k]) else None
  }

  // ---------------------------------------------------------------------
  // Properties.

  /** Lookups ignore the case of the address. */
  lemma GetIgnoresCase(m: BalMap, x: Addr, y: Addr)
    requires Lower(x) == Lower(y)
    ensures Get(m, Erc(x)) == Get(m, Erc(y))
  {
  }

  /** No client, no account or no items: the map is empty. */
  lemma BalancesGuard(hasClient: bool, account: Option<Addr>, items: seq<Item>, native: Option<nat>,
                      multicall: seq<Addr> -> Option<seq<Option<nat>>>)
    requires !hasClient || account.None? || account.value == "" || |items| == 0
    ensures Balances(hasClient, account, items, native, multicall) == map[]
  {
  }

  /**
   * Recording a chunk's replies: with distinct keys in the chunk, entry `k`
   * holds the reply or 0 for a failed one; keys outside the replied part of
   * the chunk keep their old value.
   */
  lemma {:induction false} RecordProperties(res: BalMap, slice: seq<Item>, r: seq<Option<nat>>)
    requires |r| <= |slice| && DistinctKeys(slice, ItemKey)
    ensures forall k :: 0 <= k < |r| ==>
      (ItemKey(slice[k]) in Record(res, slice, r) && Record(res, slice, r)[ItemKey(slice[k])] == OptionOr(r[k], 0))
    ensures forall key :: key !in KeysOf(slice[..|r|], ItemKey) ==>
      (key in Record(res, slice, r) <==> key in res) && (key in res ==> Record(res, slice, r)[key] == res[key])
  {
    RecordValues(res, slice, r);
    RecordOthers(res, slice, r);
  }

  lemma {:induction false} RecordValues(res: BalMap, slice: seq<Item>, r: seq<Option<nat>>)
    requires |r| <= |slice| && DistinctKeys(slice, ItemKey)
    ensures forall k :: 0 <= k < |r| ==>
      (ItemKey(slice[k]) in Record(res, slice, r) && Record(res, slice, r)[ItemKey(slice[k])] == OptionOr(r[k], 0))
  {
    if |r| > 0 {
      var n := |r| - 1;
      RecordValues(res, slice, r[..n]);
      forall k | 0 <= k < n
        ensures ItemKey(slice[k]) != ItemKey(slice[n]) && r[..n][k] == r[k]
      {
      }
    }
  }

  lemma {:induction false} RecordOthers(res: BalMap, slice: seq<Item>, r: seq<Option<nat>>)
    requires |r| <= |slice|
    ensures forall key :: key !in KeysOf(slice[..|r|], ItemKey) ==>
      (key in Record(res, slice, r) <==> key in res) && (key in res ==> Record(res, slice, r)[key] == res[key])
  {
    if |r| > 0 {
      var n := |r| - 1;
      RecordOthers(res, slice, r[..n]);
      KeysOfSnoc(slice[..n], ItemKey, slice[n]);
      assert slice[..n] + [slice[n]] == slice[..|r|];
    }
  }

  lemma {:induction false} RecordKeys(res: BalMap, slice: seq<Item>, r: seq<Option<nat>>, key: string)
    requires |r| <= |slice| && key in Record(res, slice, r)
    ensures key in res || key in KeysOf(slice, ItemKey)
  {
    if |r| > 0 {
      var n := |r| - 1;
      if key != ItemKey(slice[n]) {
        RecordKeys(res, slice, r[..n], key);
      }
    }
  }

  lemma {:induction false} RecordKeeps(res: BalMap, slice: seq<Item>, r: seq<Option<nat>>, key: string)
    requires |r| <= |slice| && key in res && key !in KeysOf(slice, ItemKey)
    ensures key in Record(res, slice, r) && Record(res, slice, r)[key] == res[key]
  {
    if |r| > 0 {
      RecordKeeps(res, slice, r[..|r| - 1], key);
    }
  }

  /** The chunk loop adds only keys of ERC-20 items. */
  lemma {:induction false} FillFromKeys(res: BalMap, erc: seq<Item>, i: nat, multicall: seq<Addr> -> Option<seq<Option<nat>>>,
                                        key: string)
    requires FillFrom(res, erc, i, multicall).Some?
    ensures key in FillFrom(res, erc, i, multicall).value ==> key in res || key in KeysOf(erc, ItemKey)
    decreases |erc| - i
  {
    if i < |erc| {
      var slice := ChunkAt(erc, i);
      var r := multicall(Targets(slice)).value;
      var next := Record(res, slice, r);
      FillFromKeys(next, erc, i + CHUNK, multicall, key);
      if key in next && key !in res {
        RecordKeys(res, slice, r, key);
        var k :| 0 <= k < |slice| && ItemKey(slice[k]) == key;
        assert slice[k] == erc[i + k];
      }
    }
  }

  /** The chunk loop leaves every key that is no ERC-20 item's as it was. */
  lemma {:induction false} FillFromKeeps(res: BalMap, erc: seq<Item>, i: nat, multicall: seq<Addr> -> Option<seq<Option<nat>>>,
                                         key: string)
    requires FillFrom(res, erc, i, multicall).Some? && key in res && key !in KeysOf(erc, ItemKey)
    ensures key in FillFrom(res, erc, i, multicall).value && FillFrom(res, erc, i, multicall).value[key] == res[key]
    decreases |erc| - i
  {
    if i < |erc| {
      var slice := ChunkAt(erc, i);
      var r := multicall(Targets(slice)).value;
      forall k | 0 <= k < |slice|
        ensures ItemKey(slice[k]) != key
      {
        assert slice[k] == erc[i + k];
      }
      RecordKeeps(res, slice, r, key);
      FillFromKeeps(Record(res, slice, r), erc, i + CHUNK, multicall, key);
    }
  }

  /** No ERC-20 item of `items` has the key `"native"`. */
  lemma ErcKeysNotNative(items: seq<Item>)
    requires forall k :: 0 <= k < |items| && items[k].asset.Erc? ==> IsAddressText(items[k].asset.address)
    ensures NATIVE_KEY !in KeysOf(Filter(FirstByKey(items, ItemKey), IsErc), ItemKey)
  {
    var uniq := FirstByKey(items, ItemKey);
    var erc := Filter(uniq, IsErc);
    forall k | 0 <= k < |erc|
      ensures ItemKey(erc[k]) != NATIVE_KEY
    {
      assert erc[k] in uniq;
      var j :| 0 <= j < |items| && items[j] == erc[k];
      AssetKeyProperties(items[j].asset.address, items[j].asset.address);
    }
  }

  /** Without a `"native"` ERC-20 key, the map for `uniq` has a `"native"` entry only from a native item. */
  lemma BalancesOfNative(uniq: seq<Item>, native: Option<nat>, multicall: seq<Addr> -> Option<seq<Option<nat>>>)
    requires NATIVE_KEY !in KeysOf(Filter(uniq, IsErc), ItemKey)
    ensures var m := BalancesOf(uniq, native, multicall);
      NATIVE_KEY in m ==> HasNative(uniq) && native.Some? && m[NATIVE_KEY] == native.value
  {
    if !(HasNative(uniq) && native.None?) {
      var res: BalMap := if HasNative(uniq) then map[NATIVE_KEY := native.value] else map[];
      var erc := Filter(uniq, IsErc);
      if FillFrom(res, erc, 0, multicall).Some? {
        FillFromKeys(res, erc, 0, multicall, NATIVE_KEY);
        if HasNative(uniq) {
          FillFromKeeps(res, erc, 0, multicall, NATIVE_KEY);
        }
      }
    }
  }

  /**
   * A `"native"` entry exists only if a native item was asked for, and then
   * holds the native balance (ERC-20 items are real addresses, whose keys
   * start with `0`).
   */
  lemma NativeOnlyIfRequested(hasClient: bool, account: Option<Addr>, items: seq<Item>, native: Option<nat>,
                              multicall: seq<Addr> -> Option<seq<Option<nat>>>)
    requires forall k :: 0 <= k < |items| && items[k].asset.Erc? ==> IsAddressText(items[k].asset.address)
    ensures var m := Balances(hasClient, account, items, native, multicall);
      && (NATIVE_KEY in m ==> exists k :: 0 <= k < |items| && items[k].asset.Native?)
      && (NATIVE_KEY in m ==> native.Some? && m[NATIVE_KEY] == native.value)
  {
    var uniq := FirstByKey(items, ItemKey);
    var m := Balances(hasClient, account, items, native, multicall);
    if hasClient && account.Some? && account.value != "" && |uniq| > 0 {
      assert m == BalancesOf(uniq, native, multicall);
      ErcKeysNotNative(items);
      BalancesOfNative(uniq, native, multicall);
      if HasNative(uniq) {
        var k :| 0 <= k < |uniq| && uniq[k].asset.Native?;
        assert uniq[k] in items;
      }
    } else {
      assert m == map[];
    }
  }
}
