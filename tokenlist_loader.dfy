/**
 * The token-list configuration and `loadChainTokenList`: the public token
 * lists of a chain are fetched in order, failed or empty lists are skipped,
 * tokens of other chains are dropped, and the first token seen for each
 * `chainId-address` key is kept.
 *
 * `fetch` stands for the HTTP request and JSON decoding of one list URL:
 * `None` where the request throws, the status is not OK or the body is not
 * JSON; otherwise the `tokens` array (empty when absent).
 */
module TokenListLoader {
  import opened Common
  import opened Keyed

  datatype TokenInfo = TokenInfo(chainId: nat, address: Addr, name: Option<string>, symbol: string,
                                 decimals: nat, logoURI: Option<string>)

  const PANCAKE_EXTENDED := "https://tokens.pancakeswap.finance/pancakeswap-extended.json"
  const PANCAKE_TOP_100 := "https://tokens.pancakeswap.finance/pancakeswap-top-100.json"
  const UNISWAP_DEFAULT := "https://unpkg.com/@uniswap/default-token-list@latest/build/uniswap-default.tokenlist.json"
  const AIRON_LIST := "https://raw.githubusercontent.com/airondex/tokenlist/main/airon-2030.json"

  /** `TOKEN_LIST_URLS[chainId] || []` */
  function TokenListUrls(chainId: nat): seq<string>
  {
    if chainId == 56 then [PANCAKE_EXTENDED, PANCAKE_TOP_100]
    else if chainId == 97 then [PANCAKE_EXTENDED]
    else if chainId == 1 || chainId == 42161 || chainId == 8453 then [UNISWAP_DEFAULT]
    else if chainId == 2030 then [AIRON_LIST]
    else []
  }

  /** `TRUSTWALLET_FOLDER[chainId]` */
  function TrustWalletFolder(chainId: nat): Option<string>
  {
    if chainId == 1 then Some("ethereum")
    else if chainId == 56 || chainId == 97 then Some("smartchain")
    else if chainId == 42161 then Some("arbitrum")
    else if chainId == 8453 then Some("base")
    else if chainId == 2030 then Some("airon")
    else None
  }

  const TRUST_BASE := "https://raw.githubusercontent.com/trustwallet/assets/master/blockchains/"

  function TrustWalletUrl(folder: string, address: string): string
  {
    TRUST_BASE + folder + "/assets/" + address + "/logo.png"
  }

  /** `resolveLogo`: a non-empty `logoURI` as given, else the Trust Wallet asset URL (folder `ethereum` by default). */
  function ResolveLogo(chainId: nat, address: string, logoURI: Option<string>): (r: string)
    ensures logoURI.Some? && logoURI.value != "" ==> r == logoURI.value
    ensures (logoURI.None? || logoURI.value == "") && TrustWalletFolder(chainId).Some? ==>
      r == TrustWalletUrl(TrustWalletFolder(chainId).value, address)
    ensures (logoURI.None? || logoURI.value == "") && TrustWalletFolder(chainId).None? ==>
      r == TrustWalletUrl("ethereum", address)
  {
    if logoURI.Some? && logoURI.value != "" then logoURI.value
    else TrustWalletUrl(OptionOr(TrustWalletFolder(chainId), "ethereum"), address)
  }

  // ---------------------------------------------------------------------
  // The loader.

  /** The lists that arrived with at least one token, in URL order. */
  function Received(urls: seq<string>, fetch: string -> Option<seq<TokenInfo>>): seq<seq<TokenInfo>>
  {
    if |urls| == 0 then []
    else
      var got := fetch(urls[|urls| - 1]);
      Received(urls[..|urls| - 1], fetch) + (if got.Some? && |got.value| > 0 then [got.value] else [])
  }

  function OnChain(chainId: nat): TokenInfo -> bool { (t: TokenInfo) => t.chainId == chainId }

  /** The tokens of the chain, list after list. */
  function Kept(lists: seq<seq<TokenInfo>>, chainId: nat): seq<TokenInfo>
  {
    if |lists| == 0 then []
    else Kept(lists[..|lists| - 1], chainId) + Filter(lists[|lists| - 1], OnChain(chainId))
  }

  /** `${t.chainId}-${t.address.toLowerCase()}` */
  function ListKey(t: TokenInfo): string { NatToString(t.chainId) + "-" + Lower(t.address) }

  /** What `loadChainTokenList(chainId)` returns. */
  function ChainTokenList(chainId: nat, fetch: string -> Option<seq<TokenInfo>>): seq<TokenInfo>
  {
    FirstByKey(Kept(Received(TokenListUrls(chainId), fetch), chainId), ListKey)
  }

  method LoadChainTokenList(chainId: nat, fetch: string -> Option<seq<TokenInfo>>) returns (r: seq<TokenInfo>)
    ensures r == ChainTokenList(chainId, fetch)
  {
    var lists := FetchLists(TokenListUrls(chainId), fetch);
    r := MergeLists(lists, chainId);
  }

  /** The fetch loop: keep each list that arrived with a non-empty `tokens` array. */
  method FetchLists(urls: seq<string>, fetch: string -> Option<seq<TokenInfo>>) returns (lists: seq<seq<TokenInfo>>)
    ensures lists == Received(urls, fetch)
  {
    lists := [];
    for i := 0 to |urls|
      invariant lists == Received(urls[..i], fetch)
    {
      assert urls[..i + 1][..i] == urls[..i];
      var json := fetch(urls[i]);
      if json.Some? && |json.value| > 0 {
        lists := lists + [json.value];
      }
    }
    assert urls[..|urls|] == urls;
  }

  lemma KeptSnoc(lists: seq<seq<TokenInfo>>, chainId: nat, j: nat)
    requires j < |lists|
    ensures Kept(lists[..j + 1], chainId) == Kept(lists[..j], chainId) + Filter(lists[j], OnChain(chainId))
  {
    assert lists[..j + 1][..j] == lists[..j];
  }

  /** The merge loop over the `Map` keyed by `chainId-address`, which keeps the first token per key. */
  method MergeLists(lists: seq<seq<TokenInfo>>, chainId: nat) returns (r: seq<TokenInfo>)
    ensures r == FirstByKey(Kept(lists, chainId), ListKey)
  {
    r := [];
    var seen: set<string> := {};
    for j := 0 to |lists|
      invariant r == FirstByKey(Kept(lists[..j], chainId), ListKey)
      invariant seen == KeysOf(Kept(lists[..j], chainId), ListKey)
    {
      KeptSnoc(lists, chainId, j);
      r, seen := PushFirsts(r, seen, lists[j], ListKey, OnChain(chainId), Kept(lists[..j], chainId));
    }
    assert lists[..|lists|] == lists;
  }

  // ---------------------------------------------------------------------
  // Properties of the loader.

  lemma {:induction false} ReceivedFrom(urls: seq<string>, fetch: string -> Option<seq<TokenInfo>>, k: nat)
    requires k < |Received(urls, fetch)|
    ensures exists i :: 0 <= i < |urls| && fetch(urls[i]) == Some(Received(urls, fetch)[k])
  {
    var n := |urls| - 1;
    var p := Received(urls[..n], fetch);
    if k < |p| {
      ReceivedFrom(urls[..n], fetch, k);
      var i :| 0 <= i < n && fetch(urls[..n][i]) == Some(p[k]);
      assert urls[..n][i] == urls[i];
    } else {
      assert fetch(urls[n]) == Some(Received(urls, fetch)[k]);
    }
  }

  lemma {:induction false} ReceivedAll(urls: seq<string>, fetch: string -> Option<seq<TokenInfo>>, i: nat)
    requires i < |urls| && fetch(urls[i]).Some? && |fetch(urls[i]).value| > 0
    ensures fetch(urls[i]).value in Received(urls, fetch)
  {
    var n := |urls| - 1;
    if i < n {
      assert urls[..n][i] == urls[i];
      ReceivedAll(urls[..n], fetch, i);
    }
  }

  lemma {:induction false} KeptFrom(lists: seq<seq<TokenInfo>>, chainId: nat, t: TokenInfo)
    requires t in Kept(lists, chainId)
    ensures t.chainId == chainId && exists k :: 0 <= k < |lists| && t in lists[k]
  {
    var n := |lists| - 1;
    if t in Kept(lists[..n], chainId) {
      KeptFrom(lists[..n], chainId, t);
      var k :| 0 <= k < n && t in lists[..n][k];
      assert lists[..n][k] == lists[k];
    }
  }

  lemma {:induction false} KeptAll(lists: seq<seq<TokenInfo>>, chainId: nat, k: nat, t: TokenInfo)
    requires k < |lists| && t in lists[k] && t.chainId == chainId
    ensures t in Kept(lists, chainId)
  {
    var n := |lists| - 1;
    if k < n {
      assert lists[..n][k] == lists[k];
      KeptAll(lists[..n], chainId, k, t);
    } else {
      var i :| 0 <= i < |lists[n]| && lists[n][i] == t;
    }
  }

  /**
   * The loaded list has one token per key; every token is of the requested
   * chain and comes from a list that arrived; and every token of the chain
   * in such a list has its key represented.
   */
  lemma LoaderResult(chainId: nat, fetch: string -> Option<seq<TokenInfo>>)
    ensures var r, urls := ChainTokenList(chainId, fetch), TokenListUrls(chainId);
      && DistinctKeys(r, ListKey)
      && (forall t :: t in r ==> (t.chainId == chainId
            && exists i :: 0 <= i < |urls| && fetch(urls[i]).Some? && t in fetch(urls[i]).value))
      && (forall i, t :: 0 <= i < |urls| && fetch(urls[i]).Some? && t in fetch(urls[i]).value && t.chainId == chainId ==>
            ListKey(t) in KeysOf(r, ListKey))
  {
    var urls := TokenListUrls(chainId);
    var lists := Received(urls, fetch);
    var kept := Kept(lists, chainId);
    var r := ChainTokenList(chainId, fetch);
    forall t | t in r
      ensures t.chainId == chainId && exists i :: 0 <= i < |urls| && fetch(urls[i]).Some? && t in fetch(urls[i]).value
    {
      KeptFrom(lists, chainId, t);
      var k :| 0 <= k < |lists| && t in lists[k];
      ReceivedFrom(urls, fetch, k);
    }
    forall i, t | 0 <= i < |urls| && fetch(urls[i]).Some? && t in fetch(urls[i]).value && t.chainId == chainId
      ensures ListKey(t) in KeysOf(r, ListKey)
    {
      ReceivedAll(urls, fetch, i);
      var k :| 0 <= k < |lists| && lists[k] == fetch(urls[i]).value;
      KeptAll(lists, chainId, k, t);
      var j :| 0 <= j < |kept| && kept[j] == t;
    }
  }

  /** The kept token for a key is the first one in list order. */
  lemma LoaderFirstWins(chainId: nat, fetch: string -> Option<seq<TokenInfo>>)
    ensures ChainTokenList(chainId, fetch) == Firsts(Kept(Received(TokenListUrls(chainId), fetch), chainId), ListKey)
  {
    FirstByKeyIsFirsts(Kept(Received(TokenListUrls(chainId), fetch), chainId), ListKey);
  }

  /** A chain without configured lists loads nothing. */
  lemma UnlistedChainIsEmpty(chainId: nat, fetch: string -> Option<seq<TokenInfo>>)
    requires chainId !in {1, 56, 97, 2030, 8453, 42161}
    ensures ChainTokenList(chainId, fetch) == []
  {
  }
}
