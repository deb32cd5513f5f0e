/**
 * `useTokens`: the token catalogue of one chain. The remote lists are
 * fetched together; the first token per lowercase address wins across them
 * in URL order. The user's custom tokens then override remote tokens with
 * the same address, the query filters by address, symbol or name, and the
 * result is sorted by symbol.
 *
 * `fetch` stands for one list request: `None` where the promise is
 * rejected (network error, status not OK, invalid JSON), otherwise the
 * `tokens` array (empty when absent). React state and the refresh on the
 * custom-token event are not part of this model.
 */
module Tokens {
  import opened Common
  import opened Keyed
  import TokenListLoader
  import CustomTokens

  datatype Source = Remote | Custom

  datatype RawToken = RawToken(chainId: nat, address: Addr, symbol: string, name: string, decimals: nat,
                               logoURI: Option<string>)

  datatype TokenMeta = TokenMeta(chainId: nat, address: Addr, symbol: string, name: string, decimals: nat,
                                 logoResolved: string, source: Source)

  const DEFAULT_LOGO := "default.png"

  /** `trustWalletLogo`: the asset URL when the chain has a Trust Wallet folder, else nothing. */
  function TrustWalletLogo(chainId: nat, address: string): (r: Option<string>)
    ensures r.Some? <==> TokenListLoader.TrustWalletFolder(chainId).Some?
    ensures r.Some? ==> r.value == TokenListLoader.TrustWalletUrl(TokenListLoader.TrustWalletFolder(chainId).value, address)
  {
    match TokenListLoader.TrustWalletFolder(chainId)
    case Some(folder) => Some(TokenListLoader.TrustWalletUrl(folder, address))
    case None => None
  }

  /** `first || second || fallback` over optional strings, where `""` is falsy. */
  function OrElse(first: Option<string>, second: Option<string>, fallback: string): (r: string)
    ensures first.Some? && first.value != "" ==> r == first.value
    ensures (first.None? || first.value == "") && second.Some? && second.value != "" ==> r == second.value
    ensures (first.None? || first.value == "") && (second.None? || second.value == "") ==> r == fallback
  {
    if first.Some? && first.value != "" then first.value
    else if second.Some? && second.value != "" then second.value
    else fallback
  }

  function TrimmedLogo(logo: Option<string>): Option<string>
  {
    match logo
    case Some(v) => Some(Trim(v))
    case None => None
  }

  /** The entry made for a remote token: the trimmed logo, else Trust Wallet, else the default logo. */
  function RemoteMeta(chainId: nat, t: RawToken): (m: TokenMeta)
    ensures m.source == Remote && m.chainId == chainId && m.address == t.address
  {
    TokenMeta(chainId, t.address, t.symbol, t.name, t.decimals,
              OrElse(TrimmedLogo(t.logoURI), TrustWalletLogo(chainId, t.address), DEFAULT_LOGO), Remote)
  }

  /** The entry made for a custom token: its logo as stored (not trimmed), else Trust Wallet, else the default. */
  function CustomMeta(chainId: nat, t: CustomTokens.CustomToken): (m: TokenMeta)
    ensures m.source == Custom && m.address == t.address && m.chainId == t.chainId
  {
    TokenMeta(t.chainId, t.address, t.symbol, t.name, t.decimals,
              OrElse(t.logoURI, TrustWalletLogo(chainId, t.address), DEFAULT_LOGO), Custom)
  }

  /** A remote token whose trimmed logo is empty falls back to Trust Wallet, then to the default logo. */
  lemma RemoteLogoFallback(chainId: nat, t: RawToken)
    ensures t.logoURI.Some? && Trim(t.logoURI.value) != "" ==> RemoteMeta(chainId, t).logoResolved == Trim(t.logoURI.value)
    ensures (t.logoURI.None? || Trim(t.logoURI.value) == "") && TokenListLoader.TrustWalletFolder(chainId).None? ==>
      RemoteMeta(chainId, t).logoResolved == DEFAULT_LOGO
  {
  }

  function RawKey(t: RawToken): string { Lower(t.address) }

  function MetaKey(t: TokenMeta): string { Lower(t.address) }

  // ---------------------------------------------------------------------
  // The remote merge.

  function OnChain(chainId: nat): RawToken -> bool { (t: RawToken) => t.chainId == chainId }

  /** Each settled promise: the list's tokens of the chain, or nothing when rejected. */
  function Settled(urls: seq<string>, fetch: string -> Option<seq<RawToken>>, chainId: nat): (r: seq<Option<seq<RawToken>>>)
    ensures |r| == |urls|
    ensures forall i :: 0 <= i < |urls| ==> (r[i].Some? <==> fetch(urls[i]).Some?)
    ensures forall i, t :: 0 <= i < |urls| && r[i].Some? ==>
      (t in r[i].value <==> t in fetch(urls[i]).value && t.chainId == chainId)
    ensures forall i :: 0 <= i < |urls| && r[i].Some? ==> |r[i].value| <= |fetch(urls[i]).value|
  {
    seq(|urls|, i requires 0 <= i < |urls| =>
      if fetch(urls[i]).Some? then Some(Filter(fetch(urls[i]).value, OnChain(chainId))) else None)
  }

  function ToRemote(chainId: nat): RawToken -> TokenMeta { (t: RawToken) => RemoteMeta(chainId, t) }

  /** The remote token list of the hook's state. */
  function RemoteTokens(chainId: nat, fetch: string -> Option<seq<RawToken>>): seq<TokenMeta>
  {
    var urls := TokenListLoader.TokenListUrls(chainId);
    if |urls| == 0 then []
    else MapSeq(FirstByKey(ConcatSome(Settled(urls, fetch, chainId)), RawKey), ToRemote(chainId))
  }

  /** The fetch effect: nothing without URLs, else the merge over the settled results in URL order. */
  method LoadRemote(chainId: nat, fetch: string -> Option<seq<RawToken>>) returns (r: seq<TokenMeta>)
    ensures r == RemoteTokens(chainId, fetch)
  {
    var urls := TokenListLoader.TokenListUrls(chainId);
    if |urls| == 0 { return []; }
    r := MergeSettled(Settled(urls, fetch, chainId), chainId);
  }

  /** The loop over `results`, skipping the rejected ones. */
  method MergeSettled(results: seq<Option<seq<RawToken>>>, chainId: nat) returns (r: seq<TokenMeta>)
    ensures r == MapSeq(FirstByKey(ConcatSome(results), RawKey), ToRemote(chainId))
  {
    r := [];
    var seen: set<string> := {};
    for i := 0 to |results|
      invariant r == MapSeq(FirstByKey(ConcatSome(results[..i]), RawKey), ToRemote(chainId))
      invariant seen == KeysOf(ConcatSome(results[..i]), RawKey)
    {
      ghost var p := ConcatSome(results[..i]);
      ConcatSomeSnoc(results, i);
      if results[i].Some? {
        r, seen := PushFirstsMapped(r, seen, results[i].value, RawKey, ToRemote(chainId), p);
      } else {
        assert ConcatSome(results[..i + 1]) == p + [] == p;
      }
    }
    assert results[..|results|] == results;
  }

  /** Remote entries are unique by lowercase address; the first occurrence in URL order wins; rejected lists add nothing. */
  lemma RemoteFirstWins(chainId: nat, fetch: string -> Option<seq<RawToken>>)
    requires |TokenListLoader.TokenListUrls(chainId)| > 0
    ensures var all := ConcatSome(Settled(TokenListLoader.TokenListUrls(chainId), fetch, chainId));
      && RemoteTokens(chainId, fetch) == MapSeq(Firsts(all, RawKey), ToRemote(chainId))
      && DistinctKeys(RemoteTokens(chainId, fetch), MetaKey)
      && (forall t :: t in all ==> t.chainId == chainId)
  {
    var urls := TokenListLoader.TokenListUrls(chainId);
    var all := ConcatSome(Settled(urls, fetch, chainId));
    FirstByKeyIsFirsts(all, RawKey);
    var f := FirstByKey(all, RawKey);
    var r := MapSeq(f, ToRemote(chainId));
    MapSeqIndex(f, ToRemote(chainId));
    assert forall i :: 0 <= i < |r| ==> MetaKey(r[i]) == RawKey(f[i]);
    AllOnChain(Settled(urls, fetch, chainId), chainId);
  }

  lemma {:induction false} AllOnChain(results: seq<Option<seq<RawToken>>>, chainId: nat)
    requires forall i :: 0 <= i < |results| && results[i].Some? ==> forall t :: t in results[i].value ==> t.chainId == chainId
    ensures forall t :: t in ConcatSome(results) ==> t.chainId == chainId
  {
    if |results| > 0 {
      AllOnChain(results[..|results| - 1], chainId);
    }
  }

  /** A chain without configured lists has no remote tokens. */
  lemma NoUrlsNoRemote(chainId: nat, fetch: string -> Option<seq<RawToken>>)
    requires |TokenListLoader.TokenListUrls(chainId)| == 0
    ensures RemoteTokens(chainId, fetch) == []
  {
  }

  // ---------------------------------------------------------------------
  // The merged, filtered and sorted catalogue.

  /** `listCustomTokens(chainId, account).map(...)`: the custom entries, in bucket order. */
  function CustomMetas(chainId: nat, bucket: seq<CustomTokens.CustomToken>): seq<TokenMeta>
  {
    seq(|bucket|, i requires 0 <= i < |bucket| => CustomMeta(chainId, bucket[i]))
  }

  /** `q.trim().toLowerCase()` is empty, or found in the address, symbol or name. */
  predicate MatchesQuery(t: TokenMeta, s: string)
  {
    Contains(Lower(t.address), s) || Contains(Lower(t.symbol), s) || Contains(Lower(t.name), s)
  }

  function Matches(s: string): TokenMeta -> bool { (t: TokenMeta) => MatchesQuery(t, s) }

  /** `a.symbol.localeCompare(b.symbol) <= 0`, for the runtime's collation `before`. */
  function SymbolLe(before: (string, string) -> bool): (TokenMeta, TokenMeta) -> bool
  {
    (a: TokenMeta, b: TokenMeta) => before(a.symbol, b.symbol)
  }

  /** The entries keyed by lowercase address: remote tokens, then custom tokens over them. */
  function ByAddress(remote: seq<TokenMeta>, customs: seq<TokenMeta>): seq<TokenMeta>
  {
    PutAll(PutAll([], MetaKey, remote), MetaKey, customs)
  }

  /** The memo: the address-keyed entries, filtered by the query, then sorted by symbol. */
  function Catalogue(remote: seq<TokenMeta>, customs: seq<TokenMeta>, q: string, before: (string, string) -> bool): seq<TokenMeta>
  {
    var byAddr := ByAddress(remote, customs);
    var s := Lower(Trim(q));
    var arr := if s != "" then Filter(byAddr, Matches(s)) else byAddr;
    SortBy(arr, SymbolLe(before))
  }

  method Merge(remote: seq<TokenMeta>, customs: seq<TokenMeta>, q: string, before: (string, string) -> bool) returns (arr: seq<TokenMeta>)
    ensures arr == Catalogue(remote, customs, q, before)
  {
    var byAddr: seq<TokenMeta> := [];
    for i := 0 to |remote|
      invariant byAddr == PutAll([], MetaKey, remote[..i])
    {
      PutAllSnoc([], MetaKey, remote, i);
      byAddr := Put(byAddr, MetaKey, remote[i]);
    }
    assert remote[..|remote|] == remote;
    ghost var base := byAddr;
    for i := 0 to |customs|
      invariant byAddr == PutAll(base, MetaKey, customs[..i])
    {
      PutAllSnoc(base, MetaKey, customs, i);
      byAddr := Put(byAddr, MetaKey, customs[i]);
    }
    assert customs[..|customs|] == customs;
    var s := Lower(Trim(q));
    arr := byAddr;
    if s != "" {
      arr := Filter(arr, Matches(s));
    }
    arr := SortBy(arr, SymbolLe(before));
  }

  /** The entries before filtering: one per lowercase address, every address of either list, each a remote or a custom entry. */
  lemma MergedEntries(remote: seq<TokenMeta>, customs: seq<TokenMeta>, i: nat)
    requires i < |ByAddress(remote, customs)|
    ensures var byAddr := ByAddress(remote, customs);
      && DistinctKeys(byAddr, MetaKey)
      && KeysOf(byAddr, MetaKey) == KeysOf(remote, MetaKey) + KeysOf(customs, MetaKey)
      && (byAddr[i] in remote || byAddr[i] in customs)
  {
    PutAllTwice(remote, customs, MetaKey, i);
  }

  /**
   * Custom tokens override remote ones: the last custom entry for an
   * address is present before filtering, and an entry whose address some
   * custom token has is a custom entry.
   */
  lemma CustomOverridesRemote(remote: seq<TokenMeta>, customs: seq<TokenMeta>, j: nat, i: nat)
    requires j < |customs| && forall k :: j < k < |customs| ==> MetaKey(customs[k]) != MetaKey(customs[j])
    requires i < |ByAddress(remote, customs)|
    ensures var byAddr := ByAddress(remote, customs);
      && customs[j] in byAddr
      && (MetaKey(byAddr[i]) in KeysOf(customs, MetaKey) ==> byAddr[i] in customs)
  {
    var base := PutAll([], MetaKey, remote);
    PutAllDistinct([], MetaKey, remote);
    PutAllLastWins(base, MetaKey, customs, j);
    if MetaKey(PutAll(base, MetaKey, customs)[i]) in KeysOf(customs, MetaKey) {
      PutAllOverrides(base, MetaKey, customs, i);
    }
  }

  /**
   * The result is sorted by symbol for any collation and is a permutation
   * of the entries the query keeps: with a blank query all of them,
   * otherwise exactly those matching it.
   */
  lemma CatalogueOrdered(remote: seq<TokenMeta>, customs: seq<TokenMeta>, q: string, before: (string, string) -> bool)
    requires Collation(before)
    ensures SortedBy(Catalogue(remote, customs, q, before), SymbolLe(before))
    ensures Lower(Trim(q)) == "" ==>
      multiset(Catalogue(remote, customs, q, before)) == multiset(ByAddress(remote, customs))
    ensures var s := Lower(Trim(q)); s != "" ==>
      multiset(Catalogue(remote, customs, q, before)) == multiset(Filter(ByAddress(remote, customs), Matches(s)))
    ensures var s := Lower(Trim(q)); s != "" ==> forall t ::
      t in Catalogue(remote, customs, q, before) <==> t in ByAddress(remote, customs) && MatchesQuery(t, s)
  {
    var byAddr := ByAddress(remote, customs);
    var s := Lower(Trim(q));
    var arr := if s != "" then Filter(byAddr, Matches(s)) else byAddr;
    SymbolOrderTotal(before);
    SortBySorted(arr, SymbolLe(before));
    if s != "" {
      forall t ensures t in Catalogue(remote, customs, q, before) <==> t in byAddr && MatchesQuery(t, s) {
        assert t in Catalogue(remote, customs, q, before) <==> t in multiset(arr);
        if t in byAddr && MatchesQuery(t, s) {
          var i :| 0 <= i < |byAddr| && byAddr[i] == t;
        }
      }
    }
  }

  lemma SymbolOrderTotal(before: (string, string) -> bool)
    requires Collation(before)
    ensures TotalPreorder(SymbolLe(before))
  {
    forall a: TokenMeta, b: TokenMeta ensures SymbolLe(before)(a, b) || SymbolLe(before)(b, a) {
      assert before(a.symbol, b.symbol) || before(b.symbol, a.symbol);
    }
    forall a: TokenMeta, b: TokenMeta, c: TokenMeta | SymbolLe(before)(a, b) && SymbolLe(before)(b, c)
      ensures SymbolLe(before)(a, c)
    {
      assert before(a.symbol, b.symbol) && before(b.symbol, c.symbol);
    }
  }
}
