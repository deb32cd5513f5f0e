/**
 * The token picker: which chains it shows, which chain is active, the
 * "from"-side network lock, the popular-token exclusion from the full list,
 * the balance ordering of that list, and the record handed back on a pick.
 *
 * The catalogue comes from `Tokens`, the balance map from `TokenBalances`;
 * the address-query lookup, the custom-token dialogs and all rendering are
 * not part of this model.
 */
module TokenSelect {
  import opened Common
  import opened Keyed
  import Tokens
  import TokenBalances

  datatype ChainMeta = ChainMeta(id: nat, key: string, name: string, native: string, logo: string)

  /** The chain table: the mainnets first, then the testnets. */
  const CHAINS: seq<ChainMeta> := MAINNETS + TESTNETS

  const MAINNETS: seq<ChainMeta> := [
    ChainMeta(56, "bsc", "BNB Chain", "BNB", "chain/bnb.png"),
    ChainMeta(1, "eth", "Ethereum", "ETH", "chain/ethereum.png"),
    ChainMeta(42161, "arb", "Arbitrum", "ETH", "chain/arbitrum.png"),
    ChainMeta(8453, "base", "Base", "ETH", "chain/base.png")
  ]

  const TESTNETS: seq<ChainMeta> := [
    ChainMeta(97, "bscTest", "BNB Testnet", "tBNB", "chain/bnb.png"),
    ChainMeta(11155111, "sepolia", "ETH Sepolia", "ETH Sepolia", "chain/ethereum.png"),
    ChainMeta(421614, "arbTest", "ARB Testnet", "ETH Sepolia", "chain/arbitrum.png"),
    ChainMeta(84532, "baseTest", "Base Testnet", "ETH Sepolia", "chain/base.png"),
    ChainMeta(2030, "airon", "Airon Testnet", "tAIR", "chain/airon.png")
  ]

  const MAINNET_IDS: set<nat> := {56, 1, 42161, 8453}
  const TESTNET_IDS: set<nat> := {97, 11155111, 421614, 84532, 2030}

  const NATIVE := "native"
  const DEFAULT_LOGO := "token/default.png"

  // ---------------------------------------------------------------------
  // Chains and the active chain.

  predicate InMode(testnetMode: bool, id: nat)
  {
    if testnetMode then id in TESTNET_IDS else id in MAINNET_IDS
  }

  /** `visibleChains`: the chains of the current mode, in table order (the table lists the mainnets first). */
  function VisibleChains(testnetMode: bool): (r: seq<ChainMeta>)
    ensures |r| > 0 && forall i :: 0 <= i < |r| ==> r[i] in CHAINS
    ensures forall i :: 0 <= i < |r| ==> InMode(testnetMode, r[i].id)
    ensures forall id :: InMode(testnetMode, id) ==> exists i :: 0 <= i < |r| && r[i].id == id
  {
    ModeTable(true);
    ModeTable(false);
    if testnetMode then TESTNETS else MAINNETS
  }

  /** Each half of the chain table lists exactly the ids of its mode. */
  lemma ModeTable(testnetMode: bool)
    ensures var r := if testnetMode then TESTNETS else MAINNETS;
      && (forall i :: 0 <= i < |r| ==> r[i] in CHAINS && InMode(testnetMode, r[i].id))
      && (forall id :: InMode(testnetMode, id) ==> exists i :: 0 <= i < |r| && r[i].id == id)
  {
    var r := if testnetMode then TESTNETS else MAINNETS;
    forall i | 0 <= i < |r|
      ensures r[i] in CHAINS && InMode(testnetMode, r[i].id)
    {
      if testnetMode {
        assert r[i] == CHAINS[|MAINNETS| + i];
        assert r[i].id == [97, 11155111, 421614, 84532, 2030][i];
      } else {
        assert r[i] == CHAINS[i];
        assert r[i].id == [56, 1, 42161, 8453][i];
      }
    }
    forall id | InMode(testnetMode, id)
      ensures exists i :: 0 <= i < |r| && r[i].id == id
    {
      var ids := if testnetMode then [97, 11155111, 421614, 84532, 2030] else [56, 1, 42161, 8453];
      assert forall i :: 0 <= i < |r| ==> r[i].id == ids[i];
      assert id in ids;
      var i :| 0 <= i < |ids| && ids[i] == id;
      assert r[i].id == id;
    }
  }

  datatype Side = From | To

  /** `defaultChain` */
  function DefaultChain(side: Side, connected: nat, initial: Option<nat>): (r: nat)
    ensures side == From ==> r == connected
    ensures side == To && initial.Some? ==> r == initial.value
    ensures side == To && initial.None? ==> r == connected
  {
    if side == From then connected else OptionOr(initial, connected)
  }

  /** The chain chosen when the active one left the mode. */
  function ModeCandidate(testnetMode: bool, connected: nat, fallback: nat): (r: nat)
    ensures InMode(testnetMode, r)
    ensures InMode(testnetMode, connected) ==> r == connected
    ensures !InMode(testnetMode, connected) ==> r == VisibleChains(testnetMode)[0].id
  {
    if InMode(testnetMode, connected) then connected
    else
      var v := VisibleChains(testnetMode);
      if |v| > 0 then v[0].id else fallback
  }

  /** The chain chips say whether they can be clicked: on the "from" side only the connected chain. */
  predicate ChipEnabled(side: Side, connected: nat, id: nat)
  {
    !(side == From && id != connected)
  }

  /** The picker's state: the mode and the active chain, for one side and one connected chain. */
  class ChainPicker {
    const side: Side
    const initial: Option<nat>
    var connected: nat
    var testnetMode: bool
    var activeChainId: nat

    function Default(): nat
      reads this
    {
      DefaultChain(side, connected, initial)
    }

    /** The initial state: the mode of the connected chain, and the default chain. */
    constructor(side0: Side, connected0: nat, initial0: Option<nat>)
      ensures side == side0 && initial == initial0 && connected == connected0
      ensures testnetMode == (connected0 in TESTNET_IDS)
      ensures activeChainId == DefaultChain(side0, connected0, initial0)
    {
      side := side0;
      initial := initial0;
      connected := connected0;
      testnetMode := connected0 in TESTNET_IDS;
      activeChainId := DefaultChain(side0, connected0, initial0);
    }

    /** The connected chain changes: the mode follows it. */
    method SetConnected(id: nat)
      modifies this
      ensures connected == id && testnetMode == (id in TESTNET_IDS) && activeChainId == old(activeChainId)
    {
      connected := id;
      testnetMode := id in TESTNET_IDS;
    }

    /** The mode effect: an active chain outside the mode moves to the connected chain or the first visible one. */
    method ReconcileMode()
      modifies this
      ensures InMode(testnetMode, activeChainId)
      ensures testnetMode == old(testnetMode) && connected == old(connected)
      ensures InMode(testnetMode, old(activeChainId)) ==> activeChainId == old(activeChainId)
      ensures !InMode(testnetMode, old(activeChainId)) ==> activeChainId == ModeCandidate(testnetMode, connected, Default())
    {
      if !InMode(testnetMode, activeChainId) {
        activeChainId := ModeCandidate(testnetMode, connected, Default());
      }
    }

    /** The lock effect: the "from" side is pinned to the default chain. */
    method ApplyLock()
      modifies this
      ensures testnetMode == old(testnetMode) && connected == old(connected)
      ensures side == From ==> activeChainId == connected
      ensures side == To ==> activeChainId == old(activeChainId)
    {
      if side == From {
        activeChainId := Default();
      }
    }

    /** A click on a mode pill; on the "from" side the pill away from the connected chain's mode is disabled. */
    method ClickMode(testnet: bool)
      modifies this
      ensures connected == old(connected) && activeChainId == old(activeChainId)
      ensures side == From && (if testnet then connected in MAINNET_IDS else connected in TESTNET_IDS) ==>
        testnetMode == old(testnetMode)
      ensures !(side == From && (if testnet then connected in MAINNET_IDS else connected in TESTNET_IDS)) ==>
        testnetMode == testnet
    {
      var disabled := side == From && (if testnet then connected in MAINNET_IDS else connected in TESTNET_IDS);
      if !disabled {
        testnetMode := testnet;
      }
    }

    /** A click on a chain chip. */
    method ClickChip(id: nat)
      modifies this
      ensures connected == old(connected) && testnetMode == old(testnetMode)
      ensures activeChainId == if ChipEnabled(side, connected, id) then id else old(activeChainId)
    {
      if ChipEnabled(side, connected, id) {
        activeChainId := id;
      }
    }
  }

  // ---------------------------------------------------------------------
  // Popular tokens and the full list.

  datatype Pop = Pop(address: string, symbol: string, name: Option<string>, logo: Option<string>)

  /** `POPULAR[chainId] || []` */
  function Popular(chainId: nat): seq<Pop>
  {
    if chainId == 56 then [
      Pop(NATIVE, "BNB", Some("BNB (Native)"), Some("chain/bnb.png")),
      Pop("0x11c43293631a7c810918a10164016cee458ac64d", "AIR", Some("AIR COIN"), Some("token/airon.png")),
      Pop("0x55d398326f99059fF775485246999027B3197955", "USDT", Some("Tether USD"), Some("token/usdt.png")),
      Pop("0x8AC76a51cc950d9822D68b83fE1Ad97B32Cd580d", "USDC", Some("USD Coin"), Some("token/usdc.png"))]
    else if chainId == 1 then [
      Pop(NATIVE, "ETH", Some("Ether (Native)"), Some("chain/ethereum.png")),
      Pop("0xC02aaA39b223FE8D0A0E5C4F27eAD9083C756Cc2", "WETH", Some("Wrapped Ether"), Some("token/weth.png")),
      Pop("0xA0b86991c6218b36c1d19D4a2e9Eb0cE3606eB48", "USDC", Some("USD Coin"), Some("token/usdc.png"))]
    else if chainId == 42161 then [
      Pop(NATIVE, "ETH", Some("Ether (Arbitrum Native)"), Some("chain/arbitrum.png")),
      Pop("0x912CE59144191C1204E64559FE8253a0e49E6548", "ARB", Some("Arbitrum"), Some("token/arbitrum.png")),
      Pop("0xaf88d065e77c8cC2239327C5EDb3A432268e5831", "USDC", Some("USD Coin"), Some("token/usdc.png"))]
    else if chainId == 8453 then [
      Pop(NATIVE, "ETH", Some("Ether (Base Native)"), Some("chain/base.png")),
      Pop("0x4200000000000000000000000000000000000006", "WETH", Some("Wrapped Ether"), Some("token/weth.png")),
      Pop("0x833589fCD6eDb6E08f4c7C32D4f71b54bdA02913", "USDC", Some("USD Coin"), Some("token/usdc.png"))]
    else if chainId == 97 then [
      Pop(NATIVE, "tBNB", Some("BNB Testnet"), Some("chain/bnb.png")),
      Pop("0xae13d989daC2f0dEbFf460aC112a837C89BAa7cd", "WBNB", Some("Wrapped BNB"), Some("chain/bnb.png")),
      Pop("0x337610d27c682E347C9cD60BD4b3b107C9d34dDd", "USDT", Some("USDT Coin"), Some("token/usdt.png"))]
    else if chainId == 11155111 then [
      Pop(NATIVE, "ETH Sepolia", Some("Ether Sepolia"), Some("chain/ethereum.png")),
      Pop("0xfFf9976782d46CC05630D1f6eBAb18b2324d6B14", "WETH", Some("Wrapped Ether"), Some("token/weth.png")),
      Pop("0x1c7D4B196Cb0C7B01d743Fbc6116a902379C7238", "USDC", Some("USD Coin"), Some("token/usdc.png"))]
    else if chainId == 421614 then [
      Pop(NATIVE, "ETH Sepolia", Some("Arbitrum Sepolia Ether"), Some("chain/ethereum.png")),
      Pop("0x1bdc540dEB9Ed1fA29964DeEcCc524A8f5e2198e", "WETH", Some("Wrapped Ether"), Some("token/weth.png")),
      Pop("0x75faf114eafb1BDbe2F0316DF893fd58CE46AA4d", "USDC", Some("USD Coin"), Some("token/usdc.png"))]
    else if chainId == 84532 then [
      Pop(NATIVE, "ETH Sepolia", Some("Base Sepolia Ether"), Some("chain/ethereum.png")),
      Pop("0x4200000000000000000000000000000000000006", "WETH", Some("Wrapped Ether"), Some("token/weth.png")),
      Pop("0x036CbD53842c5426634e7929541eC2318f3dCF7e", "USDC", Some("USD Coin"), Some("token/usdc.png"))]
    else if chainId == 2030 then [
      Pop(NATIVE, "tAIR", Some("Airon Testnet"), Some("chain/airon.png")),
      Pop("0x11C43293631a7c810918A10164016cEe458ac64D", "WAIR", Some("Wrapped AIR"), Some("token/airon.png")),
      Pop("0xcfaFE77e52A5345D9D9a5A492dc0571feB71D08a", "USDC", Some("USD Coin"), Some("token/usdc.png")),
      Pop("0x2C7a93b3e62750F5FfE2e7CACcb7eDd0E6Eb1d48", "USDT", Some("USDT Coin"), Some("token/usdt.png"))]
    else []
  }

  /** `popularSet`: the lowercase addresses of the chain's popular ERC-20 tokens. */
  function PopularSet(chainId: nat): (r: set<string>)
    ensures forall x :: x in r ==> IsLower(x)
    ensures forall p :: p in Popular(chainId) && p.address != NATIVE ==> Lower(p.address) in r
    ensures forall x :: x in r ==> exists p :: p in Popular(chainId) && p.address != NATIVE && x == Lower(p.address)
  {
    var r := set p | p in Popular(chainId) && p.address != NATIVE :: Lower(p.address);
    forall x | x in r ensures IsLower(x) {
      var p :| p in Popular(chainId) && p.address != NATIVE && x == Lower(p.address);
      LowerIsLower(p.address);
    }
    r
  }

  predicate IsPopular(t: Tokens.TokenMeta, popular: set<string>) { Lower(t.address) in popular }

  /**
   * `allTokens`: the catalogue without the popular tokens, unless every
   * token is popular, in which case the catalogue itself.
   */
  function AllTokens(tokens: seq<Tokens.TokenMeta>, popular: set<string>): (r: seq<Tokens.TokenMeta>)
    ensures |r| > 0 <==> |tokens| > 0
    ensures forall t :: t in r ==> t in tokens
    ensures (exists t :: t in tokens && !IsPopular(t, popular)) ==>
      (forall t :: t in r ==> !IsPopular(t, popular)) && (forall t :: t in tokens && !IsPopular(t, popular) ==> t in r)
    ensures (forall t :: t in tokens ==> IsPopular(t, popular)) ==> r == tokens
  {
    var filtered := Filter(tokens, t => !IsPopular(t, popular));
    assert |filtered| > 0 ==> filtered[0] in tokens && !IsPopular(filtered[0], popular);
    if |filtered| > 0 then filtered else tokens
  }

  // ---------------------------------------------------------------------
  // The balance ordering.

  datatype WithBal = WithBal(t: Tokens.TokenMeta, raw: nat)

  /** The key `getBal` looks up: `"native"` or the address. */
  function AssetOf(address: string): TokenBalances.Asset
  {
    if address == NATIVE then TokenBalances.Native else TokenBalances.Erc(address)
  }

  /** `withBal`: each token with its raw balance, 0 when the map has none. */
  function WithBalances(tokens: seq<Tokens.TokenMeta>, m: TokenBalances.BalMap): (r: seq<WithBal>)
    ensures |r| == |tokens|
    ensures forall i :: 0 <= i < |r| ==> r[i].t == tokens[i]
    ensures forall i :: 0 <= i < |r| ==>
      r[i].raw == (if TokenBalances.AssetKey(AssetOf(tokens[i].address)) in m then m[TokenBalances.AssetKey(AssetOf(tokens[i].address))] else 0)
  {
    seq(|tokens|, i requires 0 <= i < |tokens| => WithBal(tokens[i], OptionOr(TokenBalances.Get(m, AssetOf(tokens[i].address)), 0)))
  }

  /**
   * The comparator of `sortedAll` as "may come first": nonzero first, then
   * larger balance, then `localeCompare` on the symbols, for the runtime's
   * collation `before`.
   */
  predicate BalanceFirst(before: (string, string) -> bool, a: WithBal, b: WithBal)
  {
    var aNZ, bNZ := a.raw > 0, b.raw > 0;
    if aNZ != bNZ then aNZ
    else if a.raw != b.raw then a.raw > b.raw
    else before(a.t.symbol, b.t.symbol)
  }

  function BalanceFirstFn(before: (string, string) -> bool): (WithBal, WithBal) -> bool
  {
    (a: WithBal, b: WithBal) => BalanceFirst(before, a, b)
  }

  lemma BalanceFirstTotal(before: (string, string) -> bool)
    requires Collation(before)
    ensures TotalPreorder(BalanceFirstFn(before))
  {
    forall a: WithBal, b: WithBal ensures BalanceFirst(before, a, b) || BalanceFirst(before, b, a) {
      assert before(a.t.symbol, b.t.symbol) || before(b.t.symbol, a.t.symbol);
    }
    forall a: WithBal, b: WithBal, c: WithBal | BalanceFirst(before, a, b) && BalanceFirst(before, b, c)
      ensures BalanceFirst(before, a, c)
    {
      if a.raw == b.raw && b.raw == c.raw {
        assert before(a.t.symbol, b.t.symbol) && before(b.t.symbol, c.t.symbol);
      }
    }
  }

  /** `sortedAll` */
  function SortedAll(tokens: seq<Tokens.TokenMeta>, popular: set<string>, m: TokenBalances.BalMap,
                     before: (string, string) -> bool): seq<WithBal>
  {
    SortBy(WithBalances(AllTokens(tokens, popular), m), BalanceFirstFn(before))
  }

  /**
   * The sorted list is the full list with balances, reordered: nonzero
   * balances come first, balances never increase, and equal balances are
   * in symbol order under the collation.
   */
  lemma SortedAllOrder(tokens: seq<Tokens.TokenMeta>, popular: set<string>, m: TokenBalances.BalMap,
                       before: (string, string) -> bool)
    requires Collation(before)
    ensures var s := SortedAll(tokens, popular, m, before);
      && multiset(s) == multiset(WithBalances(AllTokens(tokens, popular), m))
      && (forall i, j :: 0 <= i < j < |s| ==> s[i].raw >= s[j].raw)
      && (forall i, j :: 0 <= i < j < |s| && s[i].raw == s[j].raw ==> before(s[i].t.symbol, s[j].t.symbol))
      && (forall i, j :: 0 <= i < j < |s| && s[j].raw > 0 ==> s[i].raw > 0)
  {
    BalanceFirstTotal(before);
    SortBySorted(WithBalances(AllTokens(tokens, popular), m), BalanceFirstFn(before));
    var s := SortedAll(tokens, popular, m, before);
    forall i, j | 0 <= i < j < |s| ensures BalanceFirst(before, s[i], s[j]) {
      assert BalanceFirstFn(before)(s[i], s[j]);
    }
  }

  // ---------------------------------------------------------------------
  // Picking.

  datatype Picked = Picked(chainId: nat, address: string, symbol: string, name: Option<string>, logo: string)

  /** `chainMeta`: the active chain's entry, or the first of the table. */
  function ChainMetaOf(id: nat): (r: ChainMeta)
    ensures r in CHAINS
    ensures (exists c :: c in CHAINS && c.id == id) ==> r.id == id
  {
    var f := Filter(CHAINS, (c: ChainMeta) => c.id == id);
    if |f| > 0 then f[0] else CHAINS[0]
  }

  /** `pick`: the given logo, else the chain logo for the native coin, else the default logo. */
  function Pick(activeChainId: nat, p: Pop): (r: Picked)
    ensures r.chainId == activeChainId && r.address == p.address && r.symbol == p.symbol && r.name == p.name
    ensures p.logo.Some? ==> r.logo == p.logo.value
    ensures p.logo.None? && p.address == NATIVE ==> r.logo == ChainMetaOf(activeChainId).logo
    ensures p.logo.None? && p.address != NATIVE ==> r.logo == DEFAULT_LOGO
  {
    Picked(activeChainId, p.address, p.symbol, p.name,
           match p.logo
           case Some(l) => l
           case None => if p.address == NATIVE then ChainMetaOf(activeChainId).logo else DEFAULT_LOGO)
  }
}
