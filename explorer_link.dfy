/**
 * `parseExplorerLink`: a block-explorer URL pasted into the token picker
 * becomes a chain id and a token address, or nothing.
 *
 * The WHATWG URL parser is not modelled: `parse` stands for `new URL(...)`
 * and gives the hostname, path and fragment of the text, or `None` where
 * the constructor throws. The two regular expressions are written out as a
 * leftmost search for a literal followed by 40 hexadecimal digits.
 */
module ExplorerLink {
  import opened Common

  datatype Url = Url(hostname: string, pathname: string, hash: string)

  datatype ParsedExplorer = ParsedExplorer(chainId: nat, address: Addr)

  const PATH_LIT := "/address/0x"
  const HASH_LIT := "0x"

  /** The regular expression `lit[a-fA-F0-9]{40}` matches `s` at position `j`. */
  predicate MatchAt(s: string, lit: string, j: nat)
  {
    j + |lit| + 40 <= |s| && s[j..j + |lit|] == lit
    && forall k :: j + |lit| <= k < j + |lit| + 40 ==> IsHexChar(s[k])
  }

  /** The leftmost match at or after `from`. */
  function FirstMatch(s: string, lit: string, from: nat): (r: Option<nat>)
    ensures r.Some? ==> from <= r.value && MatchAt(s, lit, r.value)
    ensures r.Some? ==> forall k :: from <= k < r.value ==> !MatchAt(s, lit, k)
    ensures r.None? ==> forall k :: from <= k ==> !MatchAt(s, lit, k)
    decreases |s| - from
  {
    if from + |lit| + 40 > |s| then None
    else if MatchAt(s, lit, from) then Some(from)
    else FirstMatch(s, lit, from + 1)
  }

  /** The capture group `(0x[a-fA-F0-9]{40})`: the last two characters of the literal and the digits. */
  function Capture(s: string, lit: string, j: nat): (r: string)
    requires |lit| >= 2 && lit[|lit| - 2..] == HASH_LIT && MatchAt(s, lit, j)
    ensures IsAddressText(r)
  {
    var r := s[j + |lit| - 2..j + |lit| + 40];
    assert r[0] == s[j + |lit| - 2] == lit[|lit| - 2];
    assert r[1] == s[j + |lit| - 1] == lit[|lit| - 1];
    r
  }

  function FromPath(u: Url): Option<string>
  {
    match FirstMatch(u.pathname, PATH_LIT, 0)
    case Some(j) => Some(Capture(u.pathname, PATH_LIT, j))
    case None => None
  }

  function FromHash(u: Url): Option<string>
  {
    match FirstMatch(u.hash, HASH_LIT, 0)
    case Some(j) => Some(Capture(u.hash, HASH_LIT, j))
    case None => None
  }

  /** `(fromPath?.[1] || fromHash?.[1] || "").toLowerCase()` */
  function Raw(u: Url): (r: string)
    ensures FromPath(u).Some? ==> r == Lower(FromPath(u).value)
    ensures FromPath(u).None? && FromHash(u).Some? ==> r == Lower(FromHash(u).value)
    ensures FromPath(u).None? && FromHash(u).None? ==> r == ""
    ensures r != "" ==> IsAddressText(r) && IsLower(r)
  {
    LowerIsLower(if FromPath(u).Some? then FromPath(u).value else if FromHash(u).Some? then FromHash(u).value else "");
    Lower(if FromPath(u).Some? then FromPath(u).value else if FromHash(u).Some? then FromHash(u).value else "")
  }

  /** The fixed table of explorer hosts. */
  function HostChain(host: string): (r: Option<nat>)
    ensures host == "sepolia.basescan.org" || host == "base-sepolia.basescan.org" ==> r == Some(84532)
  {
    if host == "etherscan.io" then Some(1)
    else if host == "bscscan.com" then Some(56)
    else if host == "arbiscan.io" then Some(42161)
    else if host == "basescan.org" then Some(8453)
    else if host == "sepolia.etherscan.io" then Some(11155111)
    else if host == "testnet.bscscan.com" then Some(97)
    else if host == "sepolia.arbiscan.io" then Some(421614)
    else if host == "sepolia.basescan.org" || host == "base-sepolia.basescan.org" then Some(84532)
    else None
  }

  const KNOWN_HOSTS := ["etherscan.io", "bscscan.com", "arbiscan.io", "basescan.org", "sepolia.etherscan.io",
                        "testnet.bscscan.com", "sepolia.arbiscan.io", "sepolia.basescan.org", "base-sepolia.basescan.org"]

  /** A host outside the table is refused. */
  lemma HostChainKnownOnly(host: string)
    ensures HostChain(host).Some? <==> host in KNOWN_HOSTS
  {
  }

  /** The parsed URL: an address from the path or the fragment, on a known explorer host. */
  function FromUrl(u: Url): (r: Option<ParsedExplorer>)
    ensures r.Some? <==> Raw(u) != "" && HostChain(Lower(u.hostname)).Some?
    ensures r.Some? ==> r.value.chainId == HostChain(Lower(u.hostname)).value
    ensures r.Some? ==> r.value.address == Raw(u) && IsAddressText(r.value.address) && IsLower(r.value.address)
  {
    var raw := Raw(u);
    if raw == "" then None
    else
      var addr := AsAddr(raw);
      LowerOfLower(raw);
      match HostChain(Lower(u.hostname))
      case Some(id) => Some(ParsedExplorer(id, addr.value))
      case None => None
  }

  /** `parseExplorerLink(input)` */
  function ParseExplorerLink(input: string, parse: string -> Option<Url>): (r: Option<ParsedExplorer>)
    ensures parse(Trim(input)).None? ==> r.None?
    ensures parse(Trim(input)).Some? ==> r == FromUrl(parse(Trim(input)).value)
  {
    match parse(Trim(input))
    case None => None
    case Some(u) => FromUrl(u)
  }

  /** A `/address/0x…` match in the path wins over any address in the fragment. */
  lemma PathPreferredOverHash(u: Url)
    requires FromPath(u).Some? && HostChain(Lower(u.hostname)).Some?
    ensures FromUrl(u).Some? && FromUrl(u).value.address == Lower(FromPath(u).value)
  {
  }

  /** Without a match in either place there is no result, whatever the host. */
  lemma NoMatchNoResult(u: Url)
    requires forall k :: !MatchAt(u.pathname, PATH_LIT, k)
    requires forall k :: !MatchAt(u.hash, HASH_LIT, k)
    ensures FromUrl(u).None?
  {
    assert FirstMatch(u.pathname, PATH_LIT, 0).None?;
    assert FirstMatch(u.hash, HASH_LIT, 0).None?;
  }

  /** The result depends only on the lowercased match and host, so the case of the pasted address is irrelevant. */
  lemma ResultIgnoresCase(u1: Url, u2: Url)
    requires Lower(Raw(u1)) == Lower(Raw(u2)) && Lower(u1.hostname) == Lower(u2.hostname)
    ensures FromUrl(u1) == FromUrl(u2)
  {
    LowerIsLower(Raw(u1));
    LowerIsLower(Raw(u2));
    LowerOfLower(Raw(u1));
    LowerOfLower(Raw(u2));
  }
}
