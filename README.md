# AironDex front end: a verified model of its core logic

AironDex is a multichain, Uniswap-V2-style exchange, and this is the React front end it talks to. Most of the front end is wallet and RPC plumbing and JSX. Its pages and library modules also hold a fair amount of deterministic logic, and that logic is what this project models in Dafny and proves properties about:

- **Swap page** (`SwapRoute`, `SwapTax`, `SwapTx`):
  - building candidate paths and picking the best quote, with V3 hops only when no V2 path answers;
  - the minimum output in basis points;
  - token-tax detection and slippage resolution;
  - wrap/unwrap detection and the 1:1 virtual quote;
  - the error texts;
  - the swap button's guards, approval and submit sequence.
- **Liquidity pages**:
  - `Liquidity`: the amount sanitiser, the counter-amount quote `in*RB/RA`, the LP estimate `min(A*S/RA, B*S/RB)`, approval priority, the `addLiquidity`/`addLiquidityETH` choice and the per-account positions list.
  - `ManageLiquidity` and `ManagePage`: finding positions through the wallet API or a factory scan, the batched-read index arithmetic, the share formula `reserve*userLP/totalSupply`, the filter, and the removal with its approval.
  - `LiquidityStats`: the pool list.
- **Token lists** (`CustomTokens`, `Tokens`, `TokenListLoader`, `TokenBalances`, `Etherscan`, `Airon`, `Navbar`, `TokenSelect`): keyed stores and merges with first-wins and last-wins rules, case-insensitive on addresses. Also the wallet dashboard's hidden-token partition and the token picker's chain rules and ordering.
- **Small parsers and state machines**:
  - `ExplorerLink`: the explorer-link parser.
  - `SettingsModal`: the settings dialog's clamps.
  - `Earn`: the Earn page's terminal.
- **Shared helpers**:
  - `Common`: strings, options, min/max.
  - `Keyed`: first-per-key, ordered put, filter, stable sort.
  - `Units`: `parseUnits`/`formatUnits` on decimal text.
  - `JsNumber`: `Number`, `toFixed(2)` and `Math.floor` on decimal text.

Each module follows one source file:

- Pure code becomes functions with contracts, plus lemmas relating them.
- Loops become methods whose postconditions tie the result to a specification function.
- State a page keeps becomes a class:
  - `CustomTokenStore`, `HiddenTokens`, `ChainPicker`, `Dialog`, `Terminal`, `SlippageState`, `SwapButton`, `LiquidityForm` and `ManagePage`;
  - each has `modifies` clauses, and `localStorage` and the wallet's transactions are fields beside the state.

Conventions:

- Amounts are integer counts of a token's smallest unit.
- Percentages are integer hundredths of a percent, so 1% is 100.
- Addresses are strings, compared through ASCII lowercase.
- Every chain read, wallet write, HTTP request and clock value is a parameter. A read is either an oracle function or a given reply value, and a failed call is a value of a result datatype.

## Model

| member | source | states |
|---|---|---|
| CustomTokens.KeyFor | src/lib/customTokens.ts:19-22 | the storage key is the prefix with the lowercased account, or with `__noacct__` when there is no account |
| CustomTokens.KeyForIgnoresCase | src/lib/customTokens.ts:17-21 | two spellings of one account share a store |
| CustomTokens.KeyForSeparatesAccounts | src/lib/customTokens.ts:17-21 | accounts that differ up to case have different stores |
| CustomTokens.Normalized | src/lib/customTokens.ts:53-57 | the token stored by an upsert: `logoURI` is `""` when missing or empty and kept otherwise; every other field is unchanged |
| CustomTokens.UpsertProperties | src/lib/customTokens.ts:47-61 | the first case-insensitive address match is overwritten in place, else the token is appended; the bucket grows by at most one, stays free of duplicate addresses, and other chains' buckets are unchanged |
| CustomTokens.RemoveProperties | src/lib/customTokens.ts:65-72 | every case-insensitive match is removed, every other entry kept (as a multiset split), other chains' buckets unchanged |
| CustomTokens.RemoveAfterUpsert | src/lib/customTokens.ts:47-72 | removing the address just upserted leaves no entry for it |
| CustomTokens.UpsertIdempotent | src/lib/customTokens.ts:47-61 | upserting the same token twice is upserting it once |
| CustomTokens.CustomTokenStore.List | src/lib/customTokens.ts:41-44 | a copy of the chain's bucket in the account's store, or `[]` when the chain has none |
| CustomTokens.CustomTokenStore.Upsert | src/lib/customTokens.ts:47-62 | only the account's store changes, to the upserted store |
| CustomTokens.CustomTokenStore.Remove | src/lib/customTokens.ts:65-72 | only the account's store changes, to the store with the address removed from the chain's bucket |
| TokenListLoader.ResolveLogo | src/lib/tokenlist-loader.ts:50-56 | a non-empty `logoURI` is returned unchanged; otherwise the Trust Wallet URL in the chain's folder, `ethereum` when the chain has none |
| TokenListLoader.LoadChainTokenList | src/lib/tokenlist-loader.ts:25-48 | the lists fetched in URL order, merged on the chain: the result is `ChainTokenList` |
| TokenListLoader.FetchLists | src/lib/tokenlist-loader.ts:29-36 | the fetched lists in URL order, failed and token-less ones skipped |
| TokenListLoader.MergeLists | src/lib/tokenlist-loader.ts:39-47 | the first token of each `chainId-lowercase(address)` key among the tokens on the chain, in list order |
| TokenListLoader.ReceivedFrom | src/lib/tokenlist-loader.ts:29-36 | every list kept is the answer of one of the URLs |
| TokenListLoader.ReceivedAll | src/lib/tokenlist-loader.ts:29-36 | every URL that answered a non-empty token array has its list kept |
| TokenListLoader.KeptFrom | src/lib/tokenlist-loader.ts:40-42 | every token kept is on the chain and comes from one of the lists |
| TokenListLoader.KeptAll | src/lib/tokenlist-loader.ts:40-42 | every token of a list that is on the chain is kept |
| TokenListLoader.LoaderResult | src/lib/tokenlist-loader.ts:25-48 | the output keys are distinct; every token is on the chain and came from a fetched list; every such token's key is present |
| TokenListLoader.LoaderFirstWins | src/lib/tokenlist-loader.ts:39-47 | the output is the first occurrence of each key, in order of first appearance |
| TokenListLoader.UnlistedChainIsEmpty | src/lib/tokenlist-loader.ts:26 | a chain without list URLs gives `[]` |
| ExplorerLink.FirstMatch | src/web3/explorerLink.ts:15-16 | the leftmost position at or after `from` where the 40-hex address pattern matches, and no match before it; `None` only when no position matches |
| ExplorerLink.Capture | src/web3/explorerLink.ts:15-16 | the captured group is `0x` followed by 40 hex digits |
| ExplorerLink.Raw | src/web3/explorerLink.ts:17 | the lowercased path match, else the lowercased fragment match, else `""`; a non-empty result is a lowercase address text |
| ExplorerLink.HostChain | src/web3/explorerLink.ts:24-34 | both Base Sepolia hostnames map to 84532 |
| ExplorerLink.HostChainKnownOnly | src/web3/explorerLink.ts:21-38 | a host maps to a chain exactly when it is one of the nine explorer hosts of the table |
| ExplorerLink.FromUrl | src/web3/explorerLink.ts:17-38 | a result exactly when an address was found and the lowercased host is in the table; it carries that host's chain id and the lowercased address |
| ExplorerLink.ParseExplorerLink | src/web3/explorerLink.ts:10-12 | trimmed input that does not parse as a URL gives no result; otherwise the result is the parsed URL's |
| ExplorerLink.PathPreferredOverHash | src/web3/explorerLink.ts:15-17 | a `/address/0x…` match in the path is the address returned, whatever the fragment holds |
| ExplorerLink.NoMatchNoResult | src/web3/explorerLink.ts:17-18 | with no address match in path or fragment there is no result |
| ExplorerLink.ResultIgnoresCase | src/web3/explorerLink.ts:17-21 | two URLs whose matches and hosts agree up to case give the same result |
| Tokens.TrustWalletLogo | src/hooks/useTokens.ts:22-27 | a URL exactly when the chain has a Trust Wallet folder, and then the URL of that folder and address |
| Tokens.OrElse | src/hooks/useTokens.ts:66 | the first non-empty of two optional texts, else the fallback, as a chain of `or` fallbacks |
| Tokens.RemoteMeta | src/hooks/useTokens.ts:60-68 | a remote entry keeps the requested chain and the token's address and is marked remote |
| Tokens.CustomMeta | src/hooks/useTokens.ts:87-95 | a custom entry keeps the custom token's chain and address and is marked custom |
| Tokens.RemoteLogoFallback | src/hooks/useTokens.ts:66 | `logoResolved` is the trimmed `logoURI` when non-empty, and the default logo when that is empty and the chain has no folder |
| Tokens.Settled | src/hooks/useTokens.ts:45-52 | one result per URL, in order: fulfilled exactly when that list was fetched, and then its tokens are exactly the fetched list's tokens on the chain |
| Tokens.LoadRemote | src/hooks/useTokens.ts:37-83 | the remote list the effect sets is `RemoteTokens` |
| Tokens.MergeSettled | src/hooks/useTokens.ts:54-70 | the fulfilled lists' tokens, first of each lowercase address kept, as remote entries |
| Tokens.RemoteFirstWins | src/hooks/useTokens.ts:50-70 | the first occurrence of each lowercase address wins across lists in URL order, failed lists are ignored, every token is on the chain, and the addresses are distinct |
| Tokens.AllOnChain | src/hooks/useTokens.ts:50 | when every list holds only tokens on the chain, so does their concatenation |
| Tokens.NoUrlsNoRemote | src/hooks/useTokens.ts:39-40 | a chain without list URLs has no remote tokens |
| Tokens.Merge | src/hooks/useTokens.ts:85-115 | the merged, filtered and sorted list is `Catalogue` |
| Tokens.MergedEntries | src/hooks/useTokens.ts:98-102 | the merged addresses are distinct, they are the remote and custom addresses together, and each entry is a remote or a custom one |
| Tokens.CustomOverridesRemote | src/hooks/useTokens.ts:98-102 | the last custom token of an address is in the merge, and an address that has a custom token shows a custom one |
| Tokens.CatalogueOrdered | src/hooks/useTokens.ts:104-113 | for any locale collation (`localeCompare` as a total preorder) the result is sorted by symbol; an empty trimmed query keeps every merged token; a non-empty one keeps exactly the merged tokens whose address, symbol or name contains it, as a permutation |
| Tokens.SymbolOrderTotal | src/hooks/useTokens.ts:113 | comparing symbols with a collation is a total preorder, so the sort is well defined |
| Airon.Field | src/web3/airon.ts:81 | `j?.key`: a value only for an object that has that key |
| Airon.LastField | src/web3/airon.ts:81 | the value of the last field with that key, with no later field of that name (a repeated key keeps its last value); none when the key is absent |
| Airon.FiniteNumber | src/web3/airon.ts:109-112 | a number field is kept exactly when it is a number, any other value becomes undefined |
| Airon.ZeroAddressIgnoresCase | src/web3/airon.ts:44-46 | `isZeroAddress` holds exactly for text that lowercases to `0x` and forty zeros |
| Airon.Holdings | src/web3/airon.ts:74-100 | an array body is the holdings list as it is; otherwise, when `data.tokens ?? tokens` is an array, one record per entry built by FromFlat, failing exactly on a `null` entry; with no such array, no holdings |
| Airon.FromFlatFields | src/web3/airon.ts:84-98 | the record built from an entry has its `chainId`, its `balance` as the value, exactly the six token fields of the entry, and the price's two fields when the price is truthy, else `null` |
| Airon.PutFieldsLookup | src/web3/airon.ts:86-93 | an object literal copying listed fields has exactly those fields, each with the source's value |
| Airon.Normalize | src/web3/airon.ts:108-138 | chainId and decimals are kept only when they are numbers, the balance is the value text or `"0"` when missing or empty, `isSpam` is coerced to a boolean |
| Airon.FetchPancakeBalances | src/web3/airon.ts:48-72 | a non-OK status throws `Pancake API error: <status>`; a body that is not JSON gives no tokens |
| Airon.TokensOfProperties | src/web3/airon.ts:105-139 | every token comes from a kept holding and every kept holding gives a token, so no more tokens than holdings; all holdings kept gives one token each, none kept gives no tokens |
| Airon.TokensOfAddresses | src/web3/airon.ts:105-107 | a token built from a holding with a scalar address has a non-empty, non-zero address |
| Airon.KeptAddress | src/web3/airon.ts:105-107 | a kept holding's address text is non-empty and not the zero address |
| Etherscan.ApiKey | src/web3/etherscan.ts:25-35 | the environment key on the nine listed chains, no key elsewhere |
| Etherscan.BuildUrl | src/web3/etherscan.ts:37-53 | page and offset are the given numbers; `apikey` is set exactly when a non-empty key is given, as the last parameter |
| Etherscan.Crawl | src/web3/etherscan.ts:78-129 | the accumulated results only grow: the results before a page are a prefix of the final ones |
| Etherscan.Requests | src/web3/etherscan.ts:75-127 | the pages requested from `page` on never go past `maxPages` |
| Etherscan.CrawlPages | src/web3/etherscan.ts:75-129 | the loop's results are `Crawl`'s, and it requests pages 1, 2, 3 … in order, at most `maxPages` of them |
| Etherscan.FetchAllV2Balances | src/web3/etherscan.ts:57-141 | the tokens are `AllV2Balances` with `perPage` 200 and `maxPages` 50 by default and the chain's key |
| Etherscan.StopOnError | src/web3/etherscan.ts:84-113 | a failed fetch, non-OK status, bad JSON or `status !== "1"` ends the loop after that request, adding nothing |
| Etherscan.StopOnLastPage | src/web3/etherscan.ts:115-125 | a page shorter than `perPage`, or a total reached, ends the loop after adding that page |
| Etherscan.CrawlFrom | src/web3/etherscan.ts:78-127 | every result was already collected or came from one of the pages the loop actually requested, whose reply had status `"1"` |
| Etherscan.DedupFirstWins | src/web3/etherscan.ts:132-139 | the tokens are the first of each lowercase `tokenAddress`, in page order; their keys are distinct and are all the keys seen |
| Etherscan.NoPages | src/web3/etherscan.ts:78 | with `maxPages` 0 nothing is requested and nothing returned |
| TokenBalances.AssetKeyProperties | src/hooks/useTokenBalances.ts:25 | two spellings of an address share a key, and no address shares the `"native"` key |
| TokenBalances.Uniq | src/hooks/useTokenBalances.ts:21-29 | the loop over `seen` and `out` keeps the first item of each key, in order |
| TokenBalances.UniqProperties | src/hooks/useTokenBalances.ts:21-29 | the kept items have distinct keys, every key of the input is kept, they are the first occurrences in order, and the result is empty only for empty input |
| TokenBalances.HasNative | src/hooks/useTokenBalances.ts:40 | `uniq.some(native)`: some item is the native one |
| TokenBalances.Targets | src/hooks/useTokenBalances.ts:53-58 | one `balanceOf` target per item of the slice, in order |
| TokenBalances.RecordEntries | src/hooks/useTokenBalances.ts:60-65 | the `forEach` over a chunk's answers writes `Record` |
| TokenBalances.FillChunks | src/hooks/useTokenBalances.ts:49-66 | the chunk loop computes `FillFrom` from index 0, and its multicalls are the chunks of 100 in order |
| TokenBalances.LoadBalances | src/hooks/useTokenBalances.ts:31-74 | the map set is `Balances`, and every multicall has between 1 and 100 targets |
| TokenBalances.LoadBalancesOf | src/hooks/useTokenBalances.ts:37-66 | past the guard, the map built is `BalancesOf` with multicalls of 1 to 100 targets |
| TokenBalances.Get | src/hooks/useTokenBalances.ts:76-79 | the entry under the asset's normalised key, none when there is none |
| TokenBalances.GetIgnoresCase | src/hooks/useTokenBalances.ts:76-79 | lookups do not depend on the case of the address |
| TokenBalances.BalancesGuard | src/hooks/useTokenBalances.ts:35 | no client, no account or no items give the empty map |
| TokenBalances.RecordProperties | src/hooks/useTokenBalances.ts:60-65 | each answered item's lowercase address maps to its balance, 0 for a failed entry; every other key is unchanged |
| TokenBalances.RecordKeys | src/hooks/useTokenBalances.ts:64 | a key after recording was there before or is one of the slice's |
| TokenBalances.RecordKeeps | src/hooks/useTokenBalances.ts:64 | a key outside the slice keeps its entry |
| TokenBalances.FillFromKeys | src/hooks/useTokenBalances.ts:51-66 | every key of the filled map was in the start map or is one of the ERC-20 items' |
| TokenBalances.FillFromKeeps | src/hooks/useTokenBalances.ts:51-66 | a key no ERC-20 item has keeps its entry through the chunk loop |
| TokenBalances.ErcKeysNotNative | src/hooks/useTokenBalances.ts:49 | no ERC-20 item has the `"native"` key |
| TokenBalances.BalancesOfNative | src/hooks/useTokenBalances.ts:40-46 | for the deduplicated items, when their ERC-20 keys cannot collide with `"native"`: a `"native"` entry means a native item is among them and the native read succeeded, and the entry holds that read |
| TokenBalances.NativeOnlyIfRequested | src/hooks/useTokenBalances.ts:35-66 | for the hook's whole input, with well-formed ERC-20 addresses: a `"native"` entry in the result means some requested item is native and the native read succeeded, and the entry holds that read |
| Navbar.ShortAddr | src/components/Navbar.tsx:48-51 | no address gives `""`; an address of ten or more characters gives its first six characters, an ellipsis and its last four |
| Navbar.HiddenKey | src/components/Navbar.tsx:59-61 | the storage key is the hidden-token prefix, the chain id in decimal, a dot and the lowercased owner |
| Navbar.HiddenKeyIgnoresCase | src/components/Navbar.tsx:59-61 | two owners share a hidden-token key on a chain exactly when they agree ignoring case |
| Navbar.TokenExplorerUrl | src/components/Navbar.tsx:74-90 | the chain's explorer base, or etherscan.io for an unknown or missing chain, then `/token/`, the contract and `?a=` with the owner or nothing |
| Navbar.LoadHidden | src/components/Navbar.tsx:62-68 | every entry is lowercase; a missing or unparsable entry gives the empty set |
| Navbar.LoadAfterSave | src/components/Navbar.tsx:62-71 | loading after saving a lowercase set gives back that set |
| Navbar.HiddenTokens.constructor | src/components/Navbar.tsx:155-157 | the hidden set starts as the stored one when an owner and a chain are known, else empty |
| Navbar.HiddenTokens.Reload | src/components/Navbar.tsx:159-161 | on an owner or chain change the hidden set is reloaded from storage, and kept otherwise |
| Navbar.HiddenTokens.HideToken | src/components/Navbar.tsx:271-274 | without owner or chain nothing changes; otherwise the lowercased address joins the set and the new set is saved under the owner's key |
| Navbar.HiddenTokens.UnhideToken | src/components/Navbar.tsx:275-278 | without owner or chain nothing changes; otherwise the lowercased address leaves the set and the new set is saved |
| Navbar.HiddenTokens.UnhideAll | src/components/Navbar.tsx:279-282 | without owner or chain nothing changes; otherwise the set becomes empty and the empty set is saved |
| Navbar.HideThenLoad | src/components/Navbar.tsx:62-71 | after hiding an address, loading the owner's key gives the new set, which holds the lowercased address |
| Navbar.Prelim | src/components/Navbar.tsx:215-226 | a token is kept exactly when its address is well formed; decimals default to 18, symbol to TKN, name to the symbol, address lowercased |
| Navbar.PrelimBalance | src/components/Navbar.tsx:216-224 | a kept token's balance is the `BigInt` reading of its balance text |
| Navbar.BigIntOfTrim | src/components/Navbar.tsx:216 | `BigInt` ignores whitespace at either end: reading the text is reading the numeral of its `trim()` |
| Navbar.RawBalance | src/components/Navbar.tsx:216 | the balance is the `BigInt` value of the balance text (empty text read as `"0"`), and 0 where `BigInt` throws |
| Navbar.RawBalanceHex | src/components/Navbar.tsx:216 | `"0x1f"` gives a balance of 31 |
| Navbar.RawBalanceSpaces | src/components/Navbar.tsx:216 | `" 5 "` gives 5: surrounding whitespace is ignored |
| Navbar.RawBalanceSigned | src/components/Navbar.tsx:216 | `"+5"` gives 5 and `"-5"` gives -5 |
| Navbar.RawBalanceRejects | src/components/Navbar.tsx:216 | `"1.5"` and `"0x"` make `BigInt` throw, so the balance stays 0 |
| Navbar.PrelimAll | src/components/Navbar.tsx:215-226 | one entry per token in order, or nothing exactly when some token's address is not well formed (the whole detection throws) |
| Navbar.Refresh | src/components/Navbar.tsx:238-245 | address, balance, logo and spam flag are kept; a failed read leaves its field unchanged; a successful decimals read replaces the decimals; a successful symbol or name read replaces its field with the text when it is not empty and keeps the old value when it is |
| Navbar.NeedIndices | src/components/Navbar.tsx:230 | the increasing positions of exactly the holdings whose symbol or name is TKN or whose decimals are 18 |
| Navbar.RefreshMeta | src/components/Navbar.tsx:238-245 | the loop refreshes exactly the holdings needing metadata, entry i of them from results 3i to 3i+2 |
| Navbar.MetaTargets | src/components/Navbar.tsx:232-236 | three reads per holding needing metadata, all at its address, in order |
| Navbar.RefreshedKeepsBalances | src/components/Navbar.tsx:238-245 | refreshing metadata never changes a balance |
| Navbar.SortedNonZero | src/components/Navbar.tsx:248 | sorting nonzero holdings gives a list ordered by balance descending with every balance positive |
| Navbar.DetectedSorted | src/components/Navbar.tsx:206-257 | the detected list is ordered by balance descending and holds only positive balances |
| Navbar.CollectNonZero | src/components/Navbar.tsx:206-246 | before sorting, every collected holding has a positive balance |
| Navbar.GatherNonZero | src/components/Navbar.tsx:228-246 | filtering zero balances then refreshing leaves only positive balances |
| Navbar.DetectFailures | src/components/Navbar.tsx:211-251 | a failed wallet reply, or a token on the chain with a malformed address, empties the list and records the failure |
| Navbar.Partition | src/components/Navbar.tsx:260-269 | the loop sends each holding, in order, to the hidden list when flagged and to the visible list otherwise |
| Navbar.PartitionExact | src/components/Navbar.tsx:260-269 | the two lists together are a permutation of all holdings, the visible ones unflagged and the hidden ones flagged |
| TokenSelect.VisibleChains | src/components/TokenSelect.tsx:42-131 | a non-empty list of table chains, every one in the current mode, and every chain id of the mode listed |
| TokenSelect.ModeTable | src/components/TokenSelect.tsx:42-55 | the mainnet and testnet parts of the chain table hold exactly the mainnet and testnet ids |
| TokenSelect.DefaultChain | src/components/TokenSelect.tsx:134 | the connected chain for the "from" side; for "to" the initial chain when given, else the connected one |
| TokenSelect.ModeCandidate | src/components/TokenSelect.tsx:137-146 | always a chain of the current mode: the connected chain when it is in mode, else the first visible chain |
| TokenSelect.ChainPicker.constructor | src/components/TokenSelect.tsx:124-135 | testnet mode starts as whether the connected chain is a testnet, and the active chain as the default chain |
| TokenSelect.ChainPicker.SetConnected | src/components/TokenSelect.tsx:126 | a new connected chain resets testnet mode to whether it is a testnet and leaves the active chain |
| TokenSelect.ChainPicker.ReconcileMode | src/components/TokenSelect.tsx:137-147 | afterwards the active chain is in mode; an in-mode active chain is kept, otherwise it becomes the mode candidate |
| TokenSelect.ChainPicker.ApplyLock | src/components/TokenSelect.tsx:149-152 | the "from" side is pinned to the connected chain; the "to" side keeps its active chain |
| TokenSelect.ChainPicker.ClickMode | src/components/TokenSelect.tsx:265-285 | a mode pill sets testnet mode unless it is disabled, which happens only on the "from" side when the connected chain belongs to the other mode |
| TokenSelect.ChainPicker.ClickChip | src/components/TokenSelect.tsx:294-302 | a chip click makes its chain active exactly when the chip is enabled; on the "from" side only the connected chain's chip is |
| TokenSelect.PopularSet | src/components/TokenSelect.tsx:159-165 | exactly the lowercased addresses of the chain's popular tokens other than the native coin |
| TokenSelect.AllTokens | src/components/TokenSelect.tsx:167-175 | the tokens without popular addresses when some remain, otherwise the original list; never empty unless the input is |
| TokenSelect.WithBalances | src/components/TokenSelect.tsx:197-200 | one row per token, in order, carrying the balance map's raw value for its key, or 0 when there is none |
| TokenSelect.BalanceFirstTotal | src/components/TokenSelect.tsx:201-206 | for any locale collation, the `sortedAll` comparator is a total preorder, so sorting by it is well defined |
| TokenSelect.SortedAllOrder | src/components/TokenSelect.tsx:196-206 | the sorted rows are a permutation of the unsorted ones, with nonzero balances first, balances non-increasing and equal balances in `localeCompare` order of their symbols |
| TokenSelect.ChainMetaOf | src/components/TokenSelect.tsx:177 | always a table entry, and the entry of the requested id whenever the table has one |
| TokenSelect.Pick | src/components/TokenSelect.tsx:179-187 | the picked token carries the active chain, address, symbol and name; its logo is the given one, else the chain logo for the native coin, else the default logo |
| LiquidityStats.Take | src/pages/LiquidityStats.tsx:150 | `slice(0, n)`: a prefix of the input of length the smaller of n and the input length |
| LiquidityStats.VolumeFirstTotal | src/pages/LiquidityStats.tsx:149 | the descending-volume comparator is a total preorder |
| LiquidityStats.SortedPrefixIsTop | src/pages/LiquidityStats.tsx:149-150 | after a descending sort, nothing left out of a prefix has more volume than anything in it |
| LiquidityStats.TopPoolsOrdered | src/pages/LiquidityStats.tsx:147-150 | the API selection holds the smaller of 10 and the number of pools with positive volume, all with positive volume, in non-increasing volume order |
| LiquidityStats.TopPoolsAreTop | src/pages/LiquidityStats.tsx:147-150 | the selected pools are drawn from those with positive volume, and no pool left out has more volume than one chosen |
| LiquidityStats.ApiRow | src/pages/LiquidityStats.tsx:151-160 | a row exactly when the pool and both token addresses are well formed, labelled AironDex on the requested chain with the pool's volume |
| LiquidityStats.ApiRows | src/pages/LiquidityStats.tsx:151-160 | rows for all pools in order, or none exactly when some pool has a malformed address (the mapping throws) |
| LiquidityStats.Batch | src/pages/LiquidityStats.tsx:187-191 | batch entry i requests index total-1-(off+i) |
| LiquidityStats.BatchesCoverNewest | src/pages/LiquidityStats.tsx:185-191 | the batches together request indices total-1 down to total-need, each once and in that order, every batch holding 1 to 20 indices |
| LiquidityStats.BatchesBounded | src/pages/LiquidityStats.tsx:186-187 | every batch holds between 1 and 20 indices |
| LiquidityStats.Successes | src/pages/LiquidityStats.tsx:193 | an address is kept iff some entry succeeded with that address (lower-cased), and never more addresses than entries |
| LiquidityStats.PushSuccesses | src/pages/LiquidityStats.tsx:193 | the loop appends the batch's successful addresses to the list, in order |
| LiquidityStats.FetchNewest | src/pages/LiquidityStats.tsx:184-194 | the loop sends the newest-index batches for the smaller of 10 and the total, and collects every successful address in batch order |
| LiquidityStats.ScanFrom | src/pages/LiquidityStats.tsx:196-209 | the fallback scan only appends and stops at 10 addresses |
| LiquidityStats.Scan | src/pages/LiquidityStats.tsx:196-209 | the loop gives the fallback scan's addresses and reads at most the smaller of 100 and the total indices, newest first |
| LiquidityStats.TokenSeedOfBatch | src/pages/LiquidityStats.tsx:221-233 | the tokens of seed i+j come from entries 2j and 2j+1 of the reply for the batch starting at i |
| LiquidityStats.FillBatch | src/pages/LiquidityStats.tsx:221-233 | one batch round fills the tokens of the next 20 seeds and leaves the rest bare |
| LiquidityStats.FillTokens | src/pages/LiquidityStats.tsx:219-234 | the loop over batches gives every seed its token pair read from its own batch entries |
| LiquidityStats.MetaCalls | src/pages/LiquidityStats.tsx:236-242 | two symbol reads per seed that has both tokens |
| LiquidityStats.Symbolized | src/pages/LiquidityStats.tsx:244-250 | one seed out per seed in |
| LiquidityStats.SymbolizedStep | src/pages/LiquidityStats.tsx:244-250 | the symbol pass extends one seed at a time, and the cursor advances by two only for complete seeds |
| LiquidityStats.FillSymbols | src/pages/LiquidityStats.tsx:244-250 | the in-place loop over the seed array leaves exactly the symbolized seeds |
| LiquidityStats.SymbolizedAt | src/pages/LiquidityStats.tsx:244-250 | a complete seed is named from the reply entries at twice the number of complete seeds before it; others are untouched |
| LiquidityStats.MetaCallsAligned | src/pages/LiquidityStats.tsx:236-248 | those entries are the symbol reads of that seed's token0 and token1 |
| LiquidityStats.CountMonotone | src/pages/LiquidityStats.tsx:244-250 | the symbol cursor never passes the number of reads sent |
| LiquidityStats.FactoryRowsShape | src/pages/LiquidityStats.tsx:252-264 | one row per seed with both tokens, with non-empty symbols, the dex name and the chain, built from such a seed |
| LiquidityStats.SeedRows | src/pages/LiquidityStats.tsx:219-264 | the token, symbol and row steps give the rows of the pair list |
| LiquidityStats.NoPairsNoRows | src/pages/LiquidityStats.tsx:212-215 | no pair addresses give no rows |
| LiquidityStats.LoadFactoryRows | src/pages/LiquidityStats.tsx:178-264 | the factory path's loops give the factory list: newest batches, else the fallback scan, cut to 10, then tokens, symbols and rows |
| LiquidityStats.LoadStats | src/pages/LiquidityStats.tsx:133-273 | an API error status, a missing client or a chain without factory each give their error; a listing never has more than 10 rows |
| LiquidityStats.FactoryListBound | src/pages/LiquidityStats.tsx:216 | the factory path never lists more than 10 rows |
| LiquidityStats.PageData | src/pages/LiquidityStats.tsx:276-287 | at most 10 rows, all from the input; a blank query gives the first 10; otherwise exactly the first min(10, matches) matching rows, in table order |
| LiquidityStats.PageDataComplete | src/pages/LiquidityStats.tsx:276-287 | when at most 10 rows match, every matching row is shown |
| LiquidityStats.MatchIsPairMatch | src/pages/LiquidityStats.tsx:279-284 | matching either symbol or the `s0/s1` text is the same as matching the `s0/s1` text |
| SettingsModal.ClampPct | src/components/SettingsModal.tsx:56 | always within 0 to 50 percent (NaN stays NaN); a value already in range is kept, a negative one becomes 0 and one above 50 becomes 50 |
| SettingsModal.ResolvedPct | src/components/SettingsModal.tsx:59-64 | always within 0 to 50; in auto mode at least 0.1, 1 without a preview and the preview itself when it lies in range; otherwise the clamped slippage |
| SettingsModal.SlippageInput | src/components/SettingsModal.tsx:129-133 | a parsed value is always within 0 to 50 percent |
| SettingsModal.PctOfNumber | src/components/SettingsModal.tsx:130-132 | NaN stays NaN; a number is clamped into 0 to 50 and rounded to two decimals, and an in-range non-negative number keeps its two-decimal rounding |
| SettingsModal.DeadlineInput | src/components/SettingsModal.tsx:150 | always an integer of at least 1, and exactly 1 for text that is not a number or is negative |
| SettingsModal.Dialog.constructor | src/components/SettingsModal.tsx:37-42 | the fields start as the initial settings |
| SettingsModal.Dialog.Sync | src/components/SettingsModal.tsx:44-52 | opening resets every field to the initial settings; a closed dialog keeps its fields |
| SettingsModal.Dialog.ChooseMode | src/components/SettingsModal.tsx:88-105 | a mode button changes only the mode |
| SettingsModal.Dialog.EditSlippage | src/components/SettingsModal.tsx:129-133 | editing the slippage changes only the slippage, to the parsed and clamped input |
| SettingsModal.Dialog.EditDeadline | src/components/SettingsModal.tsx:150 | editing the deadline changes only the deadline, which stays at least 1 |
| SettingsModal.Dialog.ChoosePreset | src/components/SettingsModal.tsx:162-170 | choosing a gas preset changes only the preset |
| SettingsModal.Dialog.ToggleExpert | src/components/SettingsModal.tsx:183-185 | the checkbox changes only expert mode |
| SettingsModal.Dialog.Confirm | src/components/SettingsModal.tsx:196-210 | confirm calls apply with the current fields and the resolved percentage, whose basis points equal its hundredths, and then close |
| SettingsModal.AutoFloorDiffersFromSwap | src/components/SettingsModal.tsx:61 | a zero auto preview resolves to 0.1 here, while the swap page resolves blind auto slippage to 0 |
| SettingsModal.SlippageInputOfFixed2 | src/components/SettingsModal.tsx:129-133 | typing back a two-decimal rendering of an in-range value gives that value |
| SettingsModal.SlippageInputComma | src/components/SettingsModal.tsx:130 | a comma is read as the decimal point |
| SettingsModal.SlippageInputEmpty | src/components/SettingsModal.tsx:130 | an empty field reads as 0 |
| SettingsModal.SlippageInputOfNumber | src/components/SettingsModal.tsx:129-133 | a negative number gives 0, otherwise the two-decimal rounding capped at 50 |
| SettingsModal.SlippageInputAboveCap | src/components/SettingsModal.tsx:131 | a whole number above 50 gives 50 |
| SettingsModal.DeadlineInputOfNatToString | src/components/SettingsModal.tsx:150 | a typed whole number n gives the larger of 1 and n |
| Earn.FirstWord | src/pages/Earn.tsx:29 | the text splits into a leading run without whitespace and a rest that is empty or starts with whitespace |
| Earn.Split | src/pages/Earn.tsx:29 | at least one word, the first being the leading run without whitespace |
| Earn.SplitWords | src/pages/Earn.tsx:29 | no word holds whitespace, and there is exactly one word when the text has none |
| Earn.SplitTrimmed | src/pages/Earn.tsx:27-29 | splitting trimmed text gives no empty word |
| Earn.EchoText | src/pages/Earn.tsx:28 | the echo line reads the prompt, a space and the command, as an info line |
| Earn.Reply | src/pages/Earn.tsx:31-56 | every command other than clear answers with at least one line |
| Earn.Interpret | src/pages/Earn.tsx:26-57 | blank input is ignored exactly when it trims to nothing; otherwise the first line is the echo of the trimmed command |
| Earn.Numbered | src/pages/Earn.tsx:24 | each pushed line takes the next id in turn |
| Earn.NumberedAppend | src/pages/Earn.tsx:24 | numbering two runs of lines in turn is numbering them together |
| Earn.AfterEcho | src/pages/Earn.tsx:24-28 | the echo takes the next id and the reply lines the ids after it |
| Earn.Terminal.constructor | src/pages/Earn.tsx:6-19 | a mounted terminal starts with the five boot lines, an empty input and not busy, and takes its ids from the shared module counter, left where the previous mount stopped |
| Earn.IdSource.constructor | src/pages/Earn.tsx:14 | the module-level id counter starts at 100, once for all mounts |
| Earn.Terminal.Push | src/pages/Earn.tsx:24 | one line is appended with the current id, and the id advances by one |
| Earn.Terminal.PushAll | src/pages/Earn.tsx:24 | the lines are appended with consecutive ids, and the id advances by their number |
| Earn.Terminal.HandleCommand | src/pages/Earn.tsx:26-57 | the history and id become those the interpreted command produces; input and busy flag are untouched |
| Earn.Terminal.Type | src/pages/Earn.tsx:113-119 | typing changes the input only while not busy |
| Earn.Terminal.Submit | src/pages/Earn.tsx:59-66 | while busy nothing changes; otherwise the input is cleared, the terminal becomes busy and the typed text is scheduled |
| Earn.Terminal.Fire | src/pages/Earn.tsx:65 | the scheduled command is handled and busy is cleared |
| Earn.NameIsFirstWord | src/pages/Earn.tsx:27-29 | the command name is the first non-empty word of the trimmed command, and no word is empty |
| Earn.CommandOfLower | src/pages/Earn.tsx:31-51 | each known command is recognised exactly when the lowercased name is its keyword |
| Earn.CommandIgnoresCase | src/pages/Earn.tsx:31 | names that agree ignoring case select the same command |
| Earn.ReplyLengths | src/pages/Earn.tsx:32-55 | help answers with 6 lines, status 2, pools 1, apr 1 and an unknown command 2 |
| Earn.AprReply | src/pages/Earn.tsx:47-49 | apr without an argument gives the usage error, with one a warning naming the first argument |
| Earn.AprText | src/pages/Earn.tsx:49 | the apr message names the pool between its fixed prefix and suffix |
| Earn.UnknownReply | src/pages/Earn.tsx:53-55 | an unknown command gives the not-found error naming it, then the hint |
| Earn.KnownIgnoresCase | src/pages/Earn.tsx:31-50 | a known command answers the same whatever the case of its name |
| Earn.ReplyIgnoresName | src/pages/Earn.tsx:32-50 | a known command's answer does not depend on how its name was spelled |
| Earn.AfterIds | src/pages/Earn.tsx:24-57 | ids never go back; an emitted answer extends the history with ids from the current one on; clear empties it; blank input changes nothing |
| SwapRoute.TableAddr | src/pages/Swap.tsx:204-207 | an address only for a chain the table lists, and then that entry as an address |
| SwapRoute.ValidAddrs | src/pages/Swap.tsx:337 | lowercase addresses that are exactly the `asAddr` results of the well-formed entries, never more than the list has, and one per entry when all are well-formed |
| SwapRoute.ConfigFor | src/pages/Swap.tsx:59-107 | a router or quoter only on chains listed for one, and the default fee tiers on chains without their own |
| SwapRoute.CleanShape | src/pages/Swap.tsx:199 | the cleaned path keeps the first address, ends on the same address ignoring case, holds no neighbours equal ignoring case and uses only addresses of the input |
| SwapRoute.CleanOfNoRepeats | src/pages/Swap.tsx:199 | a path without neighbours equal ignoring case is left as it is |
| SwapRoute.CleanIdempotent | src/pages/Swap.tsx:199 | cleaning twice is cleaning once |
| SwapRoute.UniqPaths | src/pages/Swap.tsx:194-198 | the loop keeps the first path for each lowercased `>`-joined key, in input order |
| SwapRoute.PushSingles | src/pages/Swap.tsx:360 | the loop appends the path through each stable, in stable order |
| SwapRoute.PushPairsWith | src/pages/Swap.tsx:361 | the inner loop appends the path through a then b for each other stable b |
| SwapRoute.PushPairs | src/pages/Swap.tsx:361 | the outer loop appends the two-stable paths for every ordered pair of different stables |
| SwapRoute.BuildV2Candidates | src/pages/Swap.tsx:356-361 | the candidate list is the direct path, then the wrapped-native path, then single-stable paths, then stable-pair paths |
| SwapRoute.V2CandidatesShape | src/pages/Swap.tsx:356-361 | every candidate starts at the input token and ends at the output token |
| SwapRoute.PairsWithLength | src/pages/Swap.tsx:361 | the pairs starting with a number the stables other than a |
| SwapRoute.PairsLength | src/pages/Swap.tsx:361 | with distinct stables, each first stable has one pair per other stable |
| SwapRoute.V2CandidatesCount | src/pages/Swap.tsx:356-361 | with distinct stables there are 1, plus the wrapped-native path when present, plus n, plus n(n-1) candidates |
| SwapRoute.BestIndex | src/pages/Swap.tsx:366-373 | no best exactly when every candidate fails; otherwise a successful candidate |
| SwapRoute.BestIndexIsFirstMaximum | src/pages/Swap.tsx:370-404 | the best output is at least every other, and every earlier candidate's output is strictly smaller, so ties keep the earliest |
| SwapRoute.BestIndexSnoc | src/pages/Swap.tsx:370 | a new output replaces the best only when it is strictly larger |
| SwapRoute.V2PickIsBest | src/pages/Swap.tsx:364-373 | the chosen V2 route is a candidate with its quoted output, and no candidate quotes more |
| SwapRoute.SelectBestV2 | src/pages/Swap.tsx:364-373 | the loop keeps the first strictly greatest output over the candidates, skipping failed reads |
| SwapRoute.QuoteHops | src/pages/Swap.tsx:395-403 | the hop loop feeds each hop's quote into the next hop and fails when any hop fails |
| SwapRoute.HopChainSplit | src/pages/Swap.tsx:395-403 | quoting a joined path is quoting the first part and feeding its output to the second |
| SwapRoute.HopChainSingleAddress | src/pages/Swap.tsx:396 | a one-address path quotes the input amount unchanged |
| SwapRoute.PushFeePairs | src/pages/Swap.tsx:389-390 | the nested loop appends the path once per ordered pair of fee tiers |
| SwapRoute.PushFeeHops | src/pages/Swap.tsx:386 | the loop appends the direct path once per fee tier |
| SwapRoute.PushStableHops | src/pages/Swap.tsx:390 | the loop appends every stable path with every pair of fee tiers |
| SwapRoute.BuildV3Candidates | src/pages/Swap.tsx:384-390 | the V3 list is the direct path per tier, then wrapped-native per tier pair, then each stable per tier pair |
| SwapRoute.V3PickIsBest | src/pages/Swap.tsx:392-405 | the chosen V3 route is a candidate with its chained output and fees, and no candidate gives more |
| SwapRoute.SelectBestV3 | src/pages/Swap.tsx:392-405 | the loop keeps the first strictly greatest chained output, skipping failed candidates |
| SwapRoute.MinOutBounds | src/pages/Swap.tsx:376-408 | for 0 to 10000 basis points the minimum output is out minus out*bps/10000, between 0 and out, and out itself at 0 bps |
| SwapRoute.MinOutAntitone | src/pages/Swap.tsx:376 | a larger slippage never raises the minimum output |
| SwapRoute.RunQuote | src/pages/Swap.tsx:354-419 | the quote body gives the best V2 route, else the best V3 route, else the route error |
| SwapRoute.BestQuote | src/pages/Swap.tsx:346-425 | the hook's state is QuoteSpec: the guards, the outer `catch` of a throwing amount parse, then the search on the chain's configuration |
| SwapRoute.QuoteSpecOutcomes | src/pages/Swap.tsx:347-424 | nothing without a client, when disabled or for a non-positive amount; an amount `parseUnits` throws on clears the quote and shows its message or "Quote failed"; otherwise exactly one of a quote and the route error |
| SwapRoute.V3OnlyWithoutV2 | src/pages/Swap.tsx:375-384 | a V3 quote comes only from a chain with a quoter where there is no router or no V2 candidate succeeded |
| SwapRoute.V2QuoteIsPick | src/pages/Swap.tsx:375-380 | a V2 quote is the selected V2 route on the deduplicated candidates, with no fees |
| SwapRoute.QuoteOrError | src/pages/Swap.tsx:375-418 | exactly one of quote and error; the error is "Route not available" on chains with a router and "Router V2 not configured" otherwise; blind mode gives minimum 1; otherwise 0 to 10000 bps keep the minimum between 0 and the output |
| SwapTax.AsPctGuess | src/pages/Swap.tsx:248-255 | with a positive denominator, 100*raw/denom percent rounded up to hundredths; otherwise raw percent for 1 to 50, raw/100 percent for 51 to 10000, and 0 for anything else |
| SwapTax.CeilDiv | src/pages/Swap.tsx:250 | the least multiple count covering the dividend |
| SwapTax.AsPctGuessPositive | src/pages/Swap.tsx:248-255 | a guess is positive exactly when raw is positive and either a positive denominator is known or raw is at most 10000 |
| SwapTax.BasisPointBandExceedsCap | src/pages/Swap.tsx:253 | without a denominator, raw values in the (5000, 10000] band give guesses above 50 percent before clamping |
| SwapTax.FirstPositive | src/pages/Swap.tsx:267-273 | the first positive successful read, and none exactly when no read is positive |
| SwapTax.FindDenominator | src/pages/Swap.tsx:267-273 | the loop stops at the first positive denominator read |
| SwapTax.Present | src/pages/Swap.tsx:275-281 | the successful single reads, in order |
| SwapTax.Guesses | src/pages/Swap.tsx:279-291 | only positive guesses are pushed |
| SwapTax.GuessesExactly | src/pages/Swap.tsx:279-291 | the candidates are exactly the positive guesses of the raw answers |
| SwapTax.PushGuesses | src/pages/Swap.tsx:291 | the loop over one tuple's values appends their positive guesses |
| SwapTax.CollectSingles | src/pages/Swap.tsx:275-281 | the loop over single-value getters collects the positive guesses of the successful reads |
| SwapTax.CollectCandidates | src/pages/Swap.tsx:274-293 | single getters first, then each tuple getter's values, give the positive guesses of all raw answers in order |
| SwapTax.MaxOf | src/pages/Swap.tsx:294 | the largest candidate, or 0 for none |
| SwapTax.DetectTax | src/pages/Swap.tsx:257-304 | the detector's loops give the token tax verdict |
| SwapTax.TokenTaxMeaning | src/pages/Swap.tsx:265-297 | a tax is reported exactly when some raw answer guesses positive; it lies in (0, 50], is at least every clamped guess, and below 50 it is one of the guesses |
| SwapTax.VerdictMeaning | src/pages/Swap.tsx:294-297 | the verdict over the guesses has the same four properties for any raw answers and denominator |
| SwapTax.TokenTaxGuards | src/pages/Swap.tsx:265 | no client, no token or the zero address gives no tax |
| SwapTax.DetectedTax | src/pages/Swap.tsx:588 | the larger of the input and output taxes, a missing one counting as 0 |
| SwapTax.ResolveAutoSlippage | src/pages/Swap.tsx:493-497 | safe exactly when the detected tax is positive, and then the tax capped at 50 |
| SwapTax.EffectPctInRange | src/pages/Swap.tsx:592-600 | the resolved slippage lies in [0, 50]; blind auto gives 0; custom keeps an in-range previous value |
| SwapTax.SlippageState.constructor | src/pages/Swap.tsx:528-529 | the resolved slippage starts at 1 percent and 100 bps |
| SwapTax.SlippageState.Resolve | src/pages/Swap.tsx:592-600 | the effect sets the resolved percentage and keeps the bps equal to its hundredths |
| SwapTax.EffectPctSettles | src/pages/Swap.tsx:592-600 | running the effect again on its own result changes nothing |
| SwapTax.SlippageErrorText | src/pages/Swap.tsx:753-763 | no error exactly for wrap or unwrap, for blind auto, or for an in-range slippage that in a non-auto mode covers the detected tax; otherwise the out-of-bounds text or the tax-too-high text |
| SwapTax.AutoNeverTooSmall | src/pages/Swap.tsx:593-594 | the slippage auto mode resolves to never draws an error |
| SwapTax.AutoCoversTax | src/pages/Swap.tsx:588-594 | auto mode resolves to exactly the detected tax when that is at most 50 |
| SwapTx.SafeAddr | src/pages/Swap.tsx:576-577 | an address is kept exactly when it is present and not the zero address |
| SwapTx.Classify | src/pages/Swap.tsx:564-584 | wrap and unwrap never both hold; a same-token pair is neither; wrap is native in to the wrapped native, unwrap the wrapped native to native; a same-token pair is on one chain with equal addresses |
| SwapTx.AddrEqCanonical | src/pages/Swap.tsx:484 | on lowercase addresses, equality ignoring case is plain equality |
| SwapTx.NativeToNativeIsWrap | src/pages/Swap.tsx:567-579 | native to native on a chain with a wrapped native counts as a wrap, since the output resolves to the wrapped native |
| SwapTx.WrapVirtualQuote | src/pages/Swap.tsx:617-620 | a virtual quote exactly for a wrap or unwrap of a positive amount with a wrapped native, paying out the input 1:1 with the same minimum |
| SwapTx.EffQuote | src/pages/Swap.tsx:622 | the virtual quote when there is one, else the router quote |
| SwapTx.AnyKIsMinOutRevert | src/pages/Swap.tsx:485-488 | any message containing the letter k, in either case, is read as a minimum-output revert |
| SwapTx.NoMessageIsNotMinOutRevert | src/pages/Swap.tsx:485-488 | a missing message is not a minimum-output revert |
| SwapTx.HumanizeError | src/pages/Swap.tsx:791-806 | the text for a bad address, a rejection or a wrong network, each guarded by the earlier tests; with no pattern matched, the error's own short message or message, else the generic text |
| SwapTx.HumanizeErrorOutcomes | src/pages/Swap.tsx:791-806 | every outcome: the first matching check, in source order, picks the text (bad address, rejection, wrong network, insufficient funds, minimum-output revert (price moved), allowance, deadline); with no match the error's own short message or message, else the generic text |
| SwapTx.HumanizeShowsOwnTextOnlyUnmatched | src/pages/Swap.tsx:791-806 | the error's own text is shown only when no pattern matched |
| SwapTx.EnsureChain | src/pages/Swap.tsx:809-827 | no error exactly when already on the target chain or a switch succeeds; a failed switch whose `message || String(e)` text says "user rejected" rethrows its error, and any other failed switch, or a wallet without a switch function, gets the manual-switch error |
| SwapTx.QuoteProblem | src/pages/Swap.tsx:884-907 | no problem only with a quote whose output and minimum are positive, output at least the minimum, a router and a non-empty path |
| SwapTx.WrapEventsNoApprove | src/pages/Swap.tsx:854-881 | wrapping and unwrapping never approve |
| SwapTx.SubmitEventsNoApprove | src/pages/Swap.tsx:924-961 | the simulation and submission steps never approve |
| SwapTx.ApproveEventsShape | src/pages/Swap.tsx:910-922 | an approval in the approval step happens only when needed, for the input token, the router and the maximum allowance |
| SwapTx.NoSubmitWithoutValidQuote | src/pages/Swap.tsx:884-895 | outside wrap cases, a missing quote, a non-positive output or minimum, or an output below the minimum means nothing is written |
| SwapTx.BodyNoApproveUnlessSwap | src/pages/Swap.tsx:836-907 | a chain error, a cross-chain pair, a slippage error, an amount that fails to parse, a wrap case or a quote problem leaves no approval |
| SwapTx.ParseFailureShown | src/pages/Swap.tsx:849-967 | an amount `parseUnits` throws on ends the click in the "Transaction failed" modal with the humanized error, and nothing is written |
| SwapTx.ApproveOnlyWhenNeeded | src/pages/Swap.tsx:830-972 | any approval in a click is needed (non-native input, allowance below the amount) and is for the maximum allowance to the router |
| SwapTx.ApproveInSwapBody | src/pages/Swap.tsx:910-922 | on the swap path every approval is the needed one for the maximum allowance |
| SwapTx.ApproveThenWaitThenSimulate | src/pages/Swap.tsx:915-957 | a needed approval that succeeds is followed by its receipt wait, the modal closing and then the swap write |
| SwapTx.NativeInputSkipsApproval | src/pages/Swap.tsx:910-931 | a native input never approves and swaps through the ETH-for-tokens function |
| SwapTx.ClickEndsIdle | src/pages/Swap.tsx:831-971 | a click that gets past the enabled check always ends by clearing busy |
| SwapTx.ReplayAppend | src/pages/Swap.tsx:830-972 | replaying two runs of events is replaying one after the other |
| SwapTx.ClickLeavesIdle | src/pages/Swap.tsx:831-971 | after such a click the button is not busy |
| SwapTx.SwapButton.constructor | src/pages/Swap.tsx:532-533 | not busy and the modal closed at the start |
| SwapTx.SwapButton.Click | src/pages/Swap.tsx:830-972 | a click appends the click's event trace to the log, and the state is that trace replayed |
| SwapTx.SwapButton.RunBody | src/pages/Swap.tsx:833-965 | the try body appends the body events |
| SwapTx.SwapButton.RunWrap | src/pages/Swap.tsx:854-881 | the wrap and unwrap branch appends the wrap events |
| SwapTx.SwapButton.RunSwap | src/pages/Swap.tsx:909-965 | the approval and submission steps append the swap events |
| SwapTx.SwapButton.RunApprove | src/pages/Swap.tsx:910-922 | the approval step appends the approval events and reports its error |
| SwapTx.SwapButton.RunSubmit | src/pages/Swap.tsx:924-961 | the simulation and submission steps append their events |
| SwapTx.SwapButton.RunWriteAndWait | src/pages/Swap.tsx:954-961 | a write and its receipt wait append the waiting, pending and confirmed modal events |
| SwapTx.SwapButton.RunAfterWrite | src/pages/Swap.tsx:957-961 | after a write, the pending and confirmed events are appended |
| Liquidity.DropPairedDots | src/pages/Liquidity.tsx:145 | dropping each later dot keeps only characters of the input |
| Liquidity.CleanNumeric | src/pages/Liquidity.tsx:145 | the cleaned text holds only digits and dots |
| Liquidity.ShapePlain | src/pages/Liquidity.tsx:146-148 | shaping cleaned text yields digits with at most one dot and at most 18 fraction digits |
| Liquidity.SanitizeChars | src/pages/Liquidity.tsx:144-149 | the sanitized input holds only digits and dots |
| Liquidity.SanitizeShape | src/pages/Liquidity.tsx:144-149 | unless it ends in a dot, the sanitized input has at most one dot and at most 18 fraction digits |
| Liquidity.SanitizeKeepsPlain | src/pages/Liquidity.tsx:144-149 | text that already has the plain shape passes through unchanged |
| Liquidity.CleanKeepsPlain | src/pages/Liquidity.tsx:145 | the character filter leaves plain text unchanged |
| Liquidity.ShapeKeepsPlain | src/pages/Liquidity.tsx:146-148 | the split and fraction cut leave plain text unchanged |
| Liquidity.SanitizeIdempotent | src/pages/Liquidity.tsx:144-149 | sanitizing a sanitized input without a trailing dot changes nothing |
| Liquidity.SafeParseUnits | src/pages/Liquidity.tsx:158-161 | zero for empty text, a trailing dot or unparsable text, and otherwise exactly the parsed base units |
| Liquidity.ToWeiOfFormatUnits | src/pages/Liquidity.tsx:431 | converting a formatted amount back to base units gives the original amount |
| Liquidity.ToWeiOfSanitized | src/pages/Liquidity.tsx:431 | any sanitized input converts to a nonnegative amount |
| Liquidity.SortPairOrdered | src/pages/Liquidity.tsx:166-170 | the sorted pair is a permutation of the two tokens in order of lowercase address, native keyed as 0x0000 |
| Liquidity.SortPairSymmetric | src/pages/Liquidity.tsx:166-170 | tokens with different keys sort the same whichever comes first |
| Liquidity.PositionIdSymmetric | src/pages/Liquidity.tsx:638-639 | the position id of a pair does not depend on the order the tokens were picked |
| Liquidity.UpsertProperties | src/pages/Liquidity.tsx:642-643 | the upserted list ends with the new position, holds no other with its id, and keeps every other-id position in order |
| Liquidity.UpsertIdempotent | src/pages/Liquidity.tsx:642-643 | upserting the same position twice equals upserting it once |
| Liquidity.PosKey | src/pages/Liquidity.tsx:163-164 | the storage key is empty exactly when the account is missing or empty or the chain id is 0 |
| Liquidity.Oriented | src/pages/Liquidity.tsx:334-336 | the reserves come in A-then-B order, matched by a case-insensitive comparison of A's address with token0 |
| Liquidity.DisplayReadBack | src/pages/Liquidity.tsx:346-349 | the displayed quote reads back as the output rounded to 5 decimals |
| Liquidity.Round5Accurate | src/pages/Liquidity.tsx:349 | the 5-decimal rounding is exact for few decimals and otherwise within half a unit of the last place |
| Liquidity.CounterReadBack | src/pages/Liquidity.tsx:343-349 | the counter amount reads back as in times the opposite reserve over the own reserve, rounded to 5 decimals |
| Liquidity.QuoteCounterNone | src/pages/Liquidity.tsx:326-328 | no quote when a token or the pair is unknown, the input is empty or ends in a dot, or a reserve is 0 |
| Liquidity.QuoteCounterValue | src/pages/Liquidity.tsx:330-350 | for a quotable input the quote is the counter amount over the oriented reserves, both positive |
| Liquidity.QuoteCounterReadBack | src/pages/Liquidity.tsx:324-354 | a positive input yields a quote that reads back as in*RB/RA for side A and in*RA/RB for side B, rounded to 5 decimals |
| Liquidity.QuoteCounterZero | src/pages/Liquidity.tsx:339-340 | an input that parses to zero quotes exactly "0" |
| Liquidity.LpEstimateZero | src/pages/Liquidity.tsx:578-580 | no estimate when either amount parses to 0 |
| Liquidity.LpEstimateValue | src/pages/Liquidity.tsx:582-590 | for a live pool the estimate is the smaller of A*S/RA and B*S/RB in integers |
| Liquidity.LpEstimateBounds | src/pages/Liquidity.tsx:588-590 | the estimate is the largest share count that neither amount over-pays for |
| Liquidity.MinQuotient | src/pages/Liquidity.tsx:588-590 | the smaller of two floor quotients is the largest L fitting under both ratios |
| Liquidity.LpEstimateAtRatio | src/pages/Liquidity.tsx:582-590 | amounts at the pool ratio give the same share count from either side |
| Liquidity.SameRatioSameQuotient | src/pages/Liquidity.tsx:588-589 | amounts at the same ratio as the reserves give equal floor quotients |
| Liquidity.ClampSlippage | src/pages/Liquidity.tsx:297 | slippage in hundredths lies in 0.10 to 5.00, defaults to 1.00 for NaN and is kept when in range |
| Liquidity.NeedsApproveMeaning | src/pages/Liquidity.tsx:448-449 | native tokens never need approval and an ERC-20 needs it exactly when the allowance is below the parsed amount |
| Liquidity.AwaitingApprove | src/pages/Liquidity.tsx:450 | A's approval comes first, B's only when A needs none, and nothing is awaited when neither needs one |
| Liquidity.ApproveLabel | src/pages/Liquidity.tsx:667-668 | an approval label is never the confirm label |
| Liquidity.MainCtaLabel | src/pages/Liquidity.tsx:665-671 | the button offers the confirm preview exactly when both tokens are set, no approval is awaited and both balances suffice |
| Liquidity.AddCall | src/pages/Liquidity.tsx:614-632 | a native A or native B sends addLiquidityETH for the other token with the native amount as value, and two ERC-20s send addLiquidity |
| Liquidity.NewPosition | src/pages/Liquidity.tsx:638-640 | the new position carries the pair's order-independent id and the tokens in sorted order |
| Liquidity.Approved | src/pages/Liquidity.tsx:459-474 | the spinner is cleared; an approval whose send and receipt wait succeed clears the error and sets exactly the approved side's allowance to `maxUint256`; a failed one shows the caught message and keeps both allowances |
| Liquidity.ApprovedAwaitsNext | src/pages/Liquidity.tsx:448-468 | after A's approval is mined, the button awaits B's approval if B needs one and otherwise nothing |
| Liquidity.ApprovalFailedKeepsAllowance | src/pages/Liquidity.tsx:469-470 | a failed send or wait keeps both allowances and records an error |
| Liquidity.Awaiting | src/pages/Liquidity.tsx:448-450 | an awaited side always holds an ERC-20 token |
| Liquidity.LiquidityForm.constructor | src/pages/Liquidity.tsx:259-385 | the form starts with no tokens, empty amounts, no pool, 18 decimals, zero allowances and no dialog, pending flag or error |
| Liquidity.LiquidityForm.SetAmountAndSync | src/pages/Liquidity.tsx:356-368 | the edited side takes the sanitized input and the other side takes the counter quote when there is one |
| Liquidity.LiquidityForm.LoadDecimals | src/pages/Liquidity.tsx:387-398 | decimals are read for ERC-20 tokens, default to 18, and nothing changes off the client |
| Liquidity.LiquidityForm.LoadAllowances | src/pages/Liquidity.tsx:399-413 | allowances are read for ERC-20 tokens, default to 0, are the maximum for native tokens, and are not loaded without account or router |
| Liquidity.LiquidityForm.LoadPositions | src/pages/Liquidity.tsx:421-425 | the positions become the stored list under the account's key, or empty when none is stored |
| Liquidity.LiquidityForm.SavePositions | src/pages/Liquidity.tsx:415-419 | the list is stored under the account's key and nothing is stored without a key |
| Liquidity.LiquidityForm.ApproveToken | src/pages/Liquidity.tsx:453-475 | an ERC-20 side with wallet, account and router sends one maximum approval to the router, and otherwise nothing happens |
| Liquidity.LiquidityForm.OnMainCta | src/pages/Liquidity.tsx:680-684 | the confirm dialog opens when no approval is awaited and otherwise the awaited token is approved |
| Liquidity.LiquidityForm.DoAdd | src/pages/Liquidity.tsx:600-661 | both-native and insufficient balances are refused, otherwise the chosen add call is sent, and a mined success upserts the position, stores it and clears the form |
| ManageLiquidity.MultiFallback | src/pages/ManageLiquidity.tsx:175-189 | without a client every read fails, and when the batch call throws each contract is read on its own, one status per contract in input order |
| ManageLiquidity.RunMulti | src/pages/ManageLiquidity.tsx:172-191 | the statuses are the batch's or the sequential fallback's, and the fallback flag is set exactly when the batch call threw |
| ManageLiquidity.FlatMapAt | src/pages/ManageLiquidity.tsx:220-225 | with a fixed number of calls per item, item i's call k sits at index n*i+k of the flat list |
| ManageLiquidity.PairReads | src/pages/ManageLiquidity.tsx:238-249 | pair i counts as a pair exactly when results 4i to 4i+3 all succeeded, and then its total supply is result 4i+3 |
| ManageLiquidity.PairCallsAligned | src/pages/ManageLiquidity.tsx:220-225 | the four pair reads of pair i sit at indices 4i to 4i+3 |
| ManageLiquidity.MetaAllFailed | src/pages/ManageLiquidity.tsx:264-270 | with all six metadata reads failed the defaults are 18 decimals and symbols T0 and T1, the names falling back to the symbols |
| ManageLiquidity.ShareAtMost | src/pages/ManageLiquidity.tsx:273-274 | a holder's share of a reserve never exceeds the reserve |
| ManageLiquidity.ShareWhole | src/pages/ManageLiquidity.tsx:273-274 | holding the whole supply gives the whole reserve |
| ManageLiquidity.ShareSplit | src/pages/ManageLiquidity.tsx:273-274 | floor shares of two holdings never add up to more than the share of their sum |
| ManageLiquidity.MakePositionReadBack | src/pages/ManageLiquidity.tsx:262-287 | a built position's amounts read back as reserve*userLP/totalSupply, at most the reserve, and its LP shares as the balance at 18 decimals |
| ManageLiquidity.MetaCallsAligned | src/pages/ManageLiquidity.tsx:255-262 | the six metadata reads of position i sit at indices 6i to 6i+5 |
| ManageLiquidity.BuildPositions | src/pages/ManageLiquidity.tsx:260-288 | the loop builds one position per held pair from its metadata slice, in order |
| ManageLiquidity.OnThisChain | src/pages/ManageLiquidity.tsx:213-216 | the kept API tokens are exactly those on this chain or without a chain and with a positive balance, and a balance that cannot be read makes the API path fail |
| ManageLiquidity.AddrsOf | src/pages/ManageLiquidity.tsx:219 | each pair address is the token's address normalised, and a token whose address is not an address makes the API path fail |
| ManageLiquidity.BuildPairs | src/pages/ManageLiquidity.tsx:236-250 | the loop records for each address its pair reads and the API balance, in order |
| ManageLiquidity.RealHeld | src/pages/ManageLiquidity.tsx:252 | the real pairs are exactly the recorded pairs with a positive total supply and a positive user balance |
| ManageLiquidity.IndexReads | src/pages/ManageLiquidity.tsx:313-315 | the chunk asks for every index from start to end once, in order |
| ManageLiquidity.ScanChunksCover | src/pages/ManageLiquidity.tsx:308-319 | the chunks together ask for each index 0 to len-1 exactly once, in order, each chunk holding 1 to 250 reads |
| ManageLiquidity.SuccessAddrs | src/pages/ManageLiquidity.tsx:317 | an address is kept iff some result succeeded with that address (lower-cased), and at most one address per result is kept |
| ManageLiquidity.ChunkReads | src/pages/ManageLiquidity.tsx:312-315 | the inner loop builds exactly the reads for the chunk's indices |
| ManageLiquidity.PushSuccesses | src/pages/ManageLiquidity.tsx:317 | the addresses of the successful results are appended in order |
| ManageLiquidity.ScanStep | src/pages/ManageLiquidity.tsx:310-318 | one round takes the next chunk of at most 250 indices and adds its successful addresses ahead of the rest |
| ManageLiquidity.ScanRound | src/pages/ManageLiquidity.tsx:310-318 | one round moves the next chunk and its addresses from what remains to what is done |
| ManageLiquidity.ScanFactory | src/pages/ManageLiquidity.tsx:306-319 | the scan issues exactly the chunks covering 0 to len-1 and collects their successful addresses in order |
| ManageLiquidity.Owned | src/pages/ManageLiquidity.tsx:325-331 | every owned address is one of the scanned pairs, and every pair whose balance read succeeded with a positive balance is owned |
| ManageLiquidity.OwnedHasBalance | src/pages/ManageLiquidity.tsx:325-331 | an address is owned exactly when it has a recorded balance, and every recorded balance is positive |
| ManageLiquidity.CollectOwned | src/pages/ManageLiquidity.tsx:323-331 | the loop yields the owned list and the balance table of pairs whose balance read succeeded and is positive |
| ManageLiquidity.MetaPairs | src/pages/ManageLiquidity.tsx:341-354 | every kept pair is owned, has a nonzero total supply and carries its recorded balance; every owned pair whose four reads succeeded with a nonzero supply is kept |
| ManageLiquidity.CollectMetaPairs | src/pages/ManageLiquidity.tsx:341-354 | the loop keeps exactly the owned pairs whose four reads succeeded and whose supply is nonzero |
| ManageLiquidity.ApiPositions | src/pages/ManageLiquidity.tsx:212-294 | the API path yields the positions built from the real pairs, and usedApi is set exactly when tokens on this chain were read without a throw |
| ManageLiquidity.FactoryPositions | src/pages/ManageLiquidity.tsx:297-393 | the factory path yields the positions of the scanned, owned, live pairs, or an error when the factory is missing or a read throws |
| ManageLiquidity.FromPairs | src/pages/ManageLiquidity.tsx:320-393 | the positions built from the scanned pair addresses |
| ManageLiquidity.LoadNotes | src/pages/ManageLiquidity.tsx:296-403 | a note is shown exactly when no position was found, saying none was found when the API answered and otherwise that balances are unavailable, and API positions skip the factory |
| ManageLiquidity.NewerTotal | src/pages/ManageLiquidity.tsx:406 | the newest-first order is a total preorder |
| ManageLiquidity.NewestFirstSorted | src/pages/ManageLiquidity.tsx:406 | the list is sorted by timestamp descending and is a permutation of its input |
| ManageLiquidity.NewestFirstSameTime | src/pages/ManageLiquidity.tsx:406 | positions that all carry one time keep their order |
| ManageLiquidity.Filtered | src/pages/ManageLiquidity.tsx:425-437 | a position is listed exactly when it passes the current-chain toggle and, for a nonblank query, the trimmed case-insensitive match on symbols or names |
| ManageLiquidity.FindById | src/pages/ManageLiquidity.tsx:439 | the managed position is a listed one with the managed id, and none exists only when no id is set or none matches |
| ManageLiquidity.FindByIdFirst | src/pages/ManageLiquidity.tsx:439 | the first position with the id is the one found |
| ManageLiquidity.Refreshed | src/pages/ManageLiquidity.tsx:479-485 | a refreshed position keeps its id, chain, pair and tokens and carries the new time |
| ManageLiquidity.RefreshedReadBack | src/pages/ManageLiquidity.tsx:466-486 | refreshed amounts read back as reserve*balance/totalSupply, or 0 when the supply is 0, and the LP shares as the balance |
| ManageLiquidity.PositionsOfStamped | src/pages/ManageLiquidity.tsx:276-287 | position i of a build carries this chain and the clock reading of its own push |
| ManageLiquidity.ApiStageStamped | src/pages/ManageLiquidity.tsx:276-287 | API position i carries this chain and the clock reading of its own push |
| ManageLiquidity.LoadStamped | src/pages/ManageLiquidity.tsx:276-391 | position i of a found load carries this chain and the clock reading of its own push, on either path |
| ManageLiquidity.HeldPositionsStamped | src/pages/ManageLiquidity.tsx:378-391 | factory position i carries this chain and the clock reading of its own push |
| ManageLiquidity.LoadKeepsReadOrder | src/pages/ManageLiquidity.tsx:406-407 | a found load is shown newest first by its push stamps, as a permutation; positions with one stamp stay in read order; a clock that did not move during the load keeps read order outright |
| ManageLiquidity.NewestFirstKeepsTies | src/pages/ManageLiquidity.tsx:406 | the newest-first sort keeps the read order of the positions with any one stamp |
| ManageLiquidity.StampedShown | src/pages/ManageLiquidity.tsx:406 | positions stamped by a clock are shown newest first, as a permutation, with equal stamps in read order, and as read when the clock did not move |
| ManageLiquidity.LaterPushShownFirst | src/pages/ManageLiquidity.tsx:406 | two positions stamped together and a third stamped a millisecond later are shown third, first, second |
| ManageLiquidity.FindPositions | src/pages/ManageLiquidity.tsx:199-409 | a load without connection, account or client is not ready; otherwise it takes the API positions, runs the factory scan only when the API found none, and ends with the throw's message when the scan throws |
| ManageLiquidity.RemovalApproval | src/pages/ManageLiquidity.tsx:479-544 | the LP token is approved for exactly liq only when the allowance is below liq; the removal follows unless the approval threw, with its deadline 15 minutes after the clock reading taken before the removal is sent; success replaces the position keeping its id and pair and stamped with the clock reading of the refresh |
| ManageLiquidity.RunRemoval | src/pages/ManageLiquidity.tsx:488-553 | the awaits hand the wallet the approval, when due, and then the removal, and end as the removal specification says |
| ManageLiquidity.ReplaceByIdOnly | src/pages/ManageLiquidity.tsx:539 | the list keeps its length, positions with the managed id are replaced and all others stay |
| ManagePage.ManagePage.constructor | src/pages/ManageLiquidity.tsx:148-162 | the page starts with no positions, loading, the current-chain toggle on, an empty query and no managed position or note |
| ManagePage.ManagePage.SetQuery | src/pages/ManageLiquidity.tsx:582 | typing in the search changes only the query |
| ManagePage.ManagePage.SetOnlyCurrent | src/pages/ManageLiquidity.tsx:586 | the checkbox changes only the current-chain toggle |
| ManagePage.ManagePage.OpenManage | src/pages/ManageLiquidity.tsx:633 | the Manage button selects the position's id and clears the transaction note |
| ManagePage.ManagePage.CloseManage | src/pages/ManageLiquidity.tsx:646-650 | closing the dialog clears the managed id unless a transaction is busy |
| ManagePage.ManagePage.Load | src/pages/ManageLiquidity.tsx:194-423 | a load shows the found positions newest first with their note and stores them under the account's key; not ready or failed, it shows the stored list newest first, with the error's message on failure |
| ManagePage.ManagePage.OnConfirmRemove | src/pages/ManageLiquidity.tsx:488-553 | without a managed position, account, router or clients only the note is set; otherwise the removal's transactions are sent, only the managed position is replaced on success, and the dialog closes with the outcome's note |
| Units.FormatUnits | src/pages/ManageLiquidity.tsx:283-285 | the rendering of an amount never ends in a dot and has no sign for a nonnegative amount |
| Units.ParseUnits | src/pages/Liquidity.tsx:158-161 | text without a leading minus never parses to a negative amount |
| Units.FormatThenParse | src/pages/ManageLiquidity.tsx:283-285 | parsing a rendered amount at at least as many decimals gives the amount scaled by the extra powers of ten |
| Units.ParseUnitsOfDigits | src/pages/Liquidity.tsx:158-161 | a whole number of digits parses to its value times ten to the decimals |
| Units.RoundDiv | src/pages/Liquidity.tsx:349 | rounding half up lands within half a unit of the exact quotient |
| JsNumber.Number | src/components/SettingsModal.tsx:130 | blank text reads as 0 and a parsed number keeps only digits in its fraction |
| JsNumber.Hundredths | src/components/SettingsModal.tsx:56 | `toFixed(2)` in hundredths: the sign is kept and the magnitude is the number cut to two fraction digits, plus one exactly when the third digit is 5 or more, so it lies within half a hundredth of the three-digit cut; exact for at most two fraction digits |
| JsNumber.Floor | src/components/SettingsModal.tsx:150 | a nonnegative number floors to its whole part, and a negative one with any nonzero digit to a negative integer |
| JsNumber.NumberOfNatToString | src/components/SettingsModal.tsx:150 | the text of a whole number reads back as that number |
| JsNumber.NumberOfFixed2 | src/components/SettingsModal.tsx:130-132 | the two-decimal rendering of a count of hundredths reads back as that count |

## Left out

- Chain and wallet calls (`readContract`, `multicall`, `simulateContract`, `writeContract`, `waitForTransactionReceipt`, `switchChain`) are parameters or outcome values. The router's `getAmountsOut`, the V3 quoter and all on-chain AMM math are oracles, because they run in contracts outside this repository.
- viem's `getAddress` (the EIP-55 checksum) and `isAddress` are replaced by ASCII lowercase on a `0x`-and-40-hex form. Checksummed spellings therefore do not appear in the model, only their case-insensitive identity.
- Float arithmetic and display formatting are out because they are binary floating point: `Intl.NumberFormat`, `fmt4`, `short`, `tidyOnBlur`, share percentages, `fillPct` and the gas reserve, the removal `preview` and its `0.995` factors, and the gas-price bump.
- Liquidity.DisplayReadBack: `Number(formatUnits(x)).toFixed(5)` is modelled as rounding the exact decimal half up at the sixth fraction digit. The source first rounds to the nearest double, so a tie can go either way at any size. For example, 123455 units at 6 decimals read as 0.12345499… and display as "0.12345", where the model gives "0.12346".
- Liquidity.LiquidityForm.DoAdd: the balance checks `enoughA`/`enoughB` and the minimum amounts come in as parameters, because the source computes them from float balances and percentages. The `account` and `deadline` arguments of the add call are not recorded.
- Liquidity.LpEstimateValue: only the integer estimate for a live pool is stated. The new-pool estimate `sqrt(A)*sqrt(B)` is a float and is kept as the pair of amounts.
- `Liquidity.tsx` pool discovery (the `getPair`, `token0`, `getReserves` and `totalSupply` reads) is out, because it is chain reads only. The form's `pool` field is what those reads would set.
- Liquidity.LiquidityForm.ApproveToken: the model records the maximum allowance after any mined approval receipt, whatever its status, as the source does. A reverted approval therefore also counts as approved.
- ManageLiquidity.RunMulti: the `usedFallbackSeq` flag is returned but not kept on the page, because nothing in the core reads it.
- ManagePage.ManagePage.OnConfirmRemove: the 600 ms delay before the dialog closes is taken as immediate. The toasts, the slider (`rangePct`) and the dialog's `mode` are out; the slider's LP amount and the minimum amounts are given values.
- SwapTax.AsPctGuess: a percentage `100*raw/denom` is rounded up to whole hundredths, where the source keeps a float, so a positive tax never rounds to zero.
- Common.Lower: `toLowerCase()` is modelled on ASCII letters only. Non-ASCII letters such as 'É' keep their case. This affects the token query of Tokens.Catalogue, Earn.Interpret, ExplorerLink.ParseExplorerLink, ManageLiquidity.Filtered and LiquidityStats.PageData, where a query matches a symbol or name that differs in the case of a non-ASCII letter in the source but not in the model. `trim()` and `\s` do use JavaScript's full white-space set (`Common.IsSpace`).
- JsNumber.Number: only plain decimal text (an optional sign, digits and one point) is read. Exponents, hexadecimal, `Infinity` and other JavaScript number syntax read as `NaN`.
- JsNumber.Hundredths: `toFixed(2)` rounds the exact decimal half up at the third fraction digit. The binary representation's rounding of ties is not captured.
- SettingsModal.ClampPct: `NaN` is `None`, and it stays `None`, as `Math.max`/`Math.min` keep `NaN`.
- TokenSelect.SortedAllOrder: the in-place `sort` of the picker list is modelled as a stable sort on a sequence, so aliasing of the sorted array is not captured.
- Tokens.CatalogueOrdered and TokenSelect.SortedAllOrder: `localeCompare` on symbols is a collation parameter, required only to be a total preorder, because the ICU locale data that decides it is outside the repository. Code-unit order (`Keyed.StrLe`, proved a collation by `Keyed.CodeUnitCollation`) is one instance.
- Airon.Holdings: JSON numbers are integers, so fractional amounts in the wallet API reply are not represented. The debug log is out.
- Units.ParseUnits: a fraction longer than `decimals` is rounded half up on its exact digits. viem rounds it with `Math.round(Number(...))` on a double, so a long tail of nines can differ. For example, "4.4999999999999999999" at 0 decimals gives 5 in viem and 4 here.
- Etherscan.CrawlPages: every reply body is a JSON object and every entry carries a `tokenAddress`. A `null` body, whose `json.result` read throws, and an entry without an address, whose lowercasing throws, are not represented.
- Liquidity.PosKey: the Liquidity and manage-liquidity pages build the same `airon.lp.positions.<owner>.<chainId>` key, with different record shapes. The model keeps the two pages' stores apart, so a list written by one page and read by the other is not represented.
- Persistence is an in-memory map from storage key to value. JSON serialisation, a `JSON.parse` failure on stored text and the custom-token update event are out.
- React effects, dependency tracking, stale-response suppression (`alive`/`cancelled` flags), debouncing, and the `setInterval`/`setTimeout` refreshes and toasts are out, because they concern ordering in time, not values. The Earn page's 220 ms delay is kept as a queue of scheduled commands.
- The cross-chain estimate (`useCrossEstimate`) is out. It is built only from RPC reads, and execution across chains is refused by the page.
- JSX, CSS and data-only files are out: `src/pages/Home.tsx` (price fetches and float formatting), the transaction modal, footer, token icon and wallet button components, the app shell, the wagmi provider and chain list, `useAddressToken` (three ERC-20 reads), and the ABI and token-list configuration files. The constants the model needs are copied in.
