/**
 * `fetchAllV2Balances`: the token balances of a wallet from the Etherscan V2
 * `addresstokenbalance` endpoint, page by page. The crawl starts at page 1,
 * stops on any transport or decoding error, on a status other than `"1"`,
 * after a short page, once the known total is reached, or after `maxPages`;
 * the collected tokens are then deduplicated by lowercase address, first wins.
 *
 * `get` stands for one HTTP request: it maps the query parameters of a page
 * to the reply. The debug log, the abort signal and the delay between pages
 * are not part of this model.
 */
module Etherscan {
  import opened Common
  import opened Keyed

  datatype EtherscanToken = EtherscanToken(tokenAddress: Addr, tokenSymbol: string, tokenName: string,
                                           tokenDecimal: string, tokenImage: Option<string>, balance: string)

  /** `result` is `None` when it is not an array; `total` is `None` when it is not a number. */
  datatype Reply =
    | FetchError
    | HttpError(code: nat)
    | JsonError
    | Body(status: string, result: Option<seq<EtherscanToken>>, total: Option<int>)

  type Query = seq<(string, string)>

  const V2_BASE := "https://api.etherscan.io/v2/api"
  const DEFAULT_PER_PAGE: nat := 200
  const DEFAULT_MAX_PAGES: nat := 50

  /** The chains of `API_KEYS`; each of them reads the same environment key. */
  const API_KEY_CHAINS: set<nat> := {1, 56, 42161, 8453, 97, 11155111, 84532, 421614, 2030}

  function ApiKey(chainId: nat, envKey: Option<string>): (r: Option<string>)
    ensures chainId !in API_KEY_CHAINS ==> r.None?
    ensures chainId in API_KEY_CHAINS ==> r == envKey
  {
    if chainId in API_KEY_CHAINS then envKey else None
  }

  predicate HasParam(q: Query, name: string)
  {
    exists i :: 0 <= i < |q| && q[i].0 == name
  }

  /** `buildUrl`: the fixed parameters, then `apikey` only when a non-empty key is given. */
  function BuildUrl(chainId: nat, address: Addr, page: nat, offset: nat, apikey: Option<string>): (q: Query)
    ensures |q| >= 6 && q[3] == ("page", NatToString(page)) && q[4] == ("offset", NatToString(offset))
    ensures HasParam(q, "apikey") <==> apikey.Some? && apikey.value != ""
    ensures apikey.Some? && apikey.value != "" ==> q[|q| - 1] == ("apikey", apikey.value)
  {
    var base := [("module", "account"), ("action", "addresstokenbalance"), ("address", address),
                 ("page", NatToString(page)), ("offset", NatToString(offset)), ("chainid", NatToString(chainId))];
    assert forall i :: 0 <= i < |base| ==> base[i].0 in ["module", "action", "address", "page", "offset", "chainid"];
    var q := if apikey.Some? && apikey.value != "" then base + [("apikey", apikey.value)] else base;
    assert apikey.Some? && apikey.value != "" ==> q[6].0 == "apikey";
    q
  }

  datatype Params = Params(chainId: nat, address: Addr, perPage: nat, maxPages: nat, apikey: Option<string>)

  function PageUrl(p: Params, page: nat): Query
  {
    BuildUrl(p.chainId, p.address, page, p.perPage, p.apikey)
  }

  /** `totalKnown && all.length >= totalKnown`: a total of 0 never stops the crawl. */
  predicate ReachedTotal(all: seq<EtherscanToken>, totalKnown: Option<int>)
  {
    totalKnown.Some? && totalKnown.value != 0 && |all| >= totalKnown.value
  }

  /** The crawl from `page` on, given what was collected so far; the result extends `all`. */
  function Crawl(p: Params, get: Query -> Reply, page: nat, all: seq<EtherscanToken>, totalKnown: Option<int>)
    : (r: seq<EtherscanToken>)
    requires page >= 1
    ensures all <= r
    decreases p.maxPages + 1 - page
  {
    if page > p.maxPages then all
    else
      match get(PageUrl(p, page))
      case Body(status, result, total) =>
        var arr := OptionOr(result, []);
        if status != "1" then all
        else
          var all' := all + arr;
          var tk := if total.Some? then total else totalKnown;
          if |arr| < p.perPage || ReachedTotal(all', tk) then all'
          else Crawl(p, get, page + 1, all', tk)
      case _ => all
  }

  /** The number of requests the crawl makes from `page` on. */
  function Requests(p: Params, get: Query -> Reply, page: nat, all: seq<EtherscanToken>, totalKnown: Option<int>)
    : (n: nat)
    requires page >= 1
    ensures n > 0 ==> page + n <= p.maxPages + 1
    decreases p.maxPages + 1 - page
  {
    if page > p.maxPages then 0
    else
      match get(PageUrl(p, page))
      case Body(status, result, total) =>
        var arr := OptionOr(result, []);
        if status != "1" then 1
        else
          var all' := all + arr;
          var tk := if total.Some? then total else totalKnown;
          if |arr| < p.perPage || ReachedTotal(all', tk) then 1
          else 1 + Requests(p, get, page + 1, all', tk)
      case _ => 1
  }

  function TokenKey(t: EtherscanToken): string { Lower(t.tokenAddress) }

  /** What `fetchAllV2Balances` returns in `tokens`. */
  function AllV2Balances(p: Params, get: Query -> Reply): seq<EtherscanToken>
  {
    FirstByKey(Crawl(p, get, 1, [], None), TokenKey)
  }

  /** The `while (page <= maxPages)` loop; `pages` are the page numbers requested, in order. */
  method CrawlPages(p: Params, get: Query -> Reply) returns (all: seq<EtherscanToken>, pages: seq<nat>)
    ensures all == Crawl(p, get, 1, [], None)
    ensures |pages| == Requests(p, get, 1, [], None) && |pages| <= p.maxPages
    ensures forall k :: 0 <= k < |pages| ==> pages[k] == k + 1
  {
    all := [];
    pages := [];
    var page: nat := 1;
    var totalKnown: Option<int> := None;
    while page <= p.maxPages
      invariant page >= 1 && |pages| == page - 1
      invariant forall k :: 0 <= k < |pages| ==> pages[k] == k + 1
      invariant Crawl(p, get, page, all, totalKnown) == Crawl(p, get, 1, [], None)
      invariant |pages| + Requests(p, get, page, all, totalKnown) == Requests(p, get, 1, [], None)
      decreases p.maxPages + 1 - page
    {
      var url := PageUrl(p, page);
      pages := pages + [page];
      var res := get(url);
      if !res.Body? {
        return;
      }
      var arr := if res.result.Some? then res.result.value else [];
      if res.status != "1" {
        return;
      }
      all := all + arr;
      if res.total.Some? {
        totalKnown := res.total;
      }
      if |arr| < p.perPage {
        return;
      }
      if totalKnown.Some? && totalKnown.value != 0 && |all| >= totalKnown.value {
        return;
      }
      page := page + 1;
    }
  }

  method FetchAllV2Balances(chainId: nat, address: Addr, perPage: Option<nat>, maxPages: Option<nat>,
                            envKey: Option<string>, get: Query -> Reply)
    returns (tokens: seq<EtherscanToken>)
    ensures tokens == AllV2Balances(Params(chainId, address, OptionOr(perPage, DEFAULT_PER_PAGE),
                                           OptionOr(maxPages, DEFAULT_MAX_PAGES), ApiKey(chainId, envKey)), get)
  {
    var p := Params(chainId, address, OptionOr(perPage, DEFAULT_PER_PAGE), OptionOr(maxPages, DEFAULT_MAX_PAGES),
                    ApiKey(chainId, envKey));
    var all, _ := CrawlPages(p, get);
    tokens := KeepFirsts(all, TokenKey);
  }

  // ---------------------------------------------------------------------
  // Properties.

  /** A failed request, or a status other than `"1"`, ends the crawl with nothing added. */
  lemma StopOnError(p: Params, get: Query -> Reply, page: nat, all: seq<EtherscanToken>, totalKnown: Option<int>)
    requires 1 <= page <= p.maxPages
    requires !get(PageUrl(p, page)).Body? || get(PageUrl(p, page)).status != "1"
    ensures Crawl(p, get, page, all, totalKnown) == all
    ensures Requests(p, get, page, all, totalKnown) == 1
  {
  }

  /** An accepted page shorter than `perPage`, or one that reaches a nonzero total, is the last one. */
  lemma StopOnLastPage(p: Params, get: Query -> Reply, page: nat, all: seq<EtherscanToken>, totalKnown: Option<int>)
    requires 1 <= page <= p.maxPages && get(PageUrl(p, page)).Body? && get(PageUrl(p, page)).status == "1"
    ensures var rep := get(PageUrl(p, page));
      var arr := OptionOr(rep.result, []);
      var tk := if rep.total.Some? then rep.total else totalKnown;
      |arr| < p.perPage || ReachedTotal(all + arr, tk) ==>
        Crawl(p, get, page, all, totalKnown) == all + arr && Requests(p, get, page, all, totalKnown) == 1
  {
  }

  /**
   * Every collected token is already in `all` or comes from a page the
   * crawl requested from `page` on (one of the next `Requests` pages) and
   * whose reply was accepted with status `"1"`.
   */
  lemma {:induction false} CrawlFrom(p: Params, get: Query -> Reply, page: nat, all: seq<EtherscanToken>,
                                     totalKnown: Option<int>, t: EtherscanToken)
    requires page >= 1 && t in Crawl(p, get, page, all, totalKnown)
    ensures t in all || exists n :: (page <= n < page + Requests(p, get, page, all, totalKnown) && n <= p.maxPages
      && get(PageUrl(p, n)).Body? && get(PageUrl(p, n)).status == "1"
      && get(PageUrl(p, n)).result.Some? && t in get(PageUrl(p, n)).result.value)
    decreases p.maxPages + 1 - page
  {
    if page <= p.maxPages && get(PageUrl(p, page)).Body? && get(PageUrl(p, page)).status == "1" {
      var rep := get(PageUrl(p, page));
      var arr := OptionOr(rep.result, []);
      var tk := if rep.total.Some? then rep.total else totalKnown;
      if !(|arr| < p.perPage || ReachedTotal(all + arr, tk)) {
        CrawlFrom(p, get, page + 1, all + arr, tk, t);
      }
    }
  }

  /** The result has one token per lowercase address, the first collected one, and every collected address. */
  lemma DedupFirstWins(p: Params, get: Query -> Reply)
    ensures var all := Crawl(p, get, 1, [], None);
      && DistinctKeys(AllV2Balances(p, get), TokenKey)
      && AllV2Balances(p, get) == Firsts(all, TokenKey)
      && KeysOf(AllV2Balances(p, get), TokenKey) == KeysOf(all, TokenKey)
  {
    FirstByKeyIsFirsts(Crawl(p, get, 1, [], None), TokenKey);
  }

  /** With no page allowed, nothing is requested and nothing is returned. */
  lemma NoPages(p: Params, get: Query -> Reply)
    requires p.maxPages == 0
    ensures Requests(p, get, 1, [], None) == 0 && AllV2Balances(p, get) == []
  {
  }
}
