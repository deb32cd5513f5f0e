/**
 * The wallet dashboard of the navigation bar: the detected ERC-20 holdings
 * of the connected wallet (from the wallet API, refreshed by a metadata
 * multicall and sorted by balance), their split into visible and hidden
 * rows, and the per-owner hidden-token set kept in local storage.
 *
 * The wallet API reply is an `Airon.FetchResult`; the metadata multicall is
 * the `meta` parameter (`None` where the call throws). `getAddress` is the
 * lowercase stand-in `AsAddr`, which fails exactly where the checksum
 * helper throws. Display formatting (`fmt4`, `formatUnits`) is left out.
 */
module Navbar {
  import opened Common
  import opened Keyed
  import Airon

  // ---------------------------------------------------------------------
  // Small helpers.

  /** `s.slice(0, n)` */
  function Head(s: string, n: nat): string { s[..Min(n, |s|)] }

  /** `s.slice(-n)` for `n > 0` */
  function Tail(s: string, n: nat): string { s[|s| - Min(n, |s|)..] }

  const ELLIPSIS := "…"

  /** `shortAddr`: nothing for a missing address, else the first 6 characters, an ellipsis and the last 4. */
  function ShortAddr(addr: Option<string>): (r: string)
    ensures addr.None? || addr.value == "" ==> r == ""
    ensures addr.Some? && |addr.value| >= 10 ==>
      |r| == 11 && r[..6] == addr.value[..6] && r[6..7] == ELLIPSIS && r[7..] == addr.value[|addr.value| - 4..]
  {
    if addr.None? || addr.value == "" then ""
    else
      var r := Head(addr.value, 6) + ELLIPSIS + Tail(addr.value, 4);
      assert |addr.value| >= 10 ==> r[..6] == addr.value[..6] && r[7..] == addr.value[|addr.value| - 4..];
      r
  }

  const HIDDEN_PREFIX := "airon.hidden."

  /** `hiddenKey`: the chain id and the lowercase owner under a fixed prefix. */
  function HiddenKey(chainId: nat, owner: string): (r: string)
    ensures r == HIDDEN_PREFIX + NatToString(chainId) + "." + Lower(owner)
  {
    HIDDEN_PREFIX + NatToString(chainId) + "." + Lower(owner)
  }

  /** One owner's key differs from another's exactly when the lowercase owners differ. */
  lemma HiddenKeyIgnoresCase(chainId: nat, a: string, b: string)
    ensures HiddenKey(chainId, a) == HiddenKey(chainId, b) <==> Lower(a) == Lower(b)
  {
    var p := HIDDEN_PREFIX + NatToString(chainId) + ".";
    assert HiddenKey(chainId, a)[|p|..] == Lower(a);
    assert HiddenKey(chainId, b)[|p|..] == Lower(b);
  }

  const EXPLORER_CHAINS: set<nat> := {1, 56, 97, 8453, 84532, 42161, 421614, 11155111, 2030}

  /** `EXPLORER_BASE[chainId]` */
  function ExplorerBase(chainId: nat): string
    requires chainId in EXPLORER_CHAINS
  {
    if chainId == 1 then "https://etherscan.io"
    else if chainId == 56 then "https://bscscan.com"
    else if chainId == 97 then "https://testnet.bscscan.com"
    else if chainId == 8453 then "https://basescan.org"
    else if chainId == 84532 then "https://sepolia.basescan.org"
    else if chainId == 42161 then "https://arbiscan.io"
    else if chainId == 421614 then "https://sepolia.arbiscan.io"
    else if chainId == 11155111 then "https://sepolia.etherscan.io"
    else "https://testnet.aironscan.com"
  }

  const DEFAULT_EXPLORER := "https://etherscan.io"

  /** `tokenExplorerUrl`: the chain's explorer, or etherscan.io for an unknown chain. */
  function TokenExplorerUrl(chainId: Option<nat>, owner: Option<string>, token: Addr): (r: string)
    ensures chainId.None? || chainId.value !in EXPLORER_CHAINS ==>
      r == DEFAULT_EXPLORER + "/token/" + Lower(token) + "?a=" + OptionOr(owner, "")
    ensures chainId.Some? && chainId.value in EXPLORER_CHAINS ==>
      r == ExplorerBase(chainId.value) + "/token/" + Lower(token) + "?a=" + OptionOr(owner, "")
  {
    var base := if chainId.Some? && chainId.value in EXPLORER_CHAINS then ExplorerBase(chainId.value) else DEFAULT_EXPLORER;
    base + "/token/" + Lower(token) + "?a=" + (if owner.Some? then owner.value else "")
  }

  // ---------------------------------------------------------------------
  // The hidden-token set.

  /** What local storage holds under a hidden key: a JSON string array, or text that does not parse as one. */
  datatype Stored = Entries(items: set<string>) | Garbled

  function LowerAll(s: set<string>): (r: set<string>)
    ensures forall x :: x in r ==> IsLower(x)
  {
    LowerAllIsLower(s);
    set x | x in s :: Lower(x)
  }

  lemma LowerAllIsLower(s: set<string>)
    ensures forall x :: x in (set y | y in s :: Lower(y)) ==> IsLower(x)
  {
    forall x | x in (set y | y in s :: Lower(y)) ensures IsLower(x) {
      var y :| y in s && x == Lower(y);
      LowerIsLower(y);
    }
  }

  /** `loadHidden`: the stored entries lowercased; nothing stored or a parse error gives the empty set. */
  function LoadHidden(storage: map<string, Stored>, chainId: nat, owner: string): (r: set<string>)
    ensures forall x :: x in r ==> IsLower(x)
    ensures HiddenKey(chainId, owner) !in storage || storage[HiddenKey(chainId, owner)].Garbled? ==> r == {}
  {
    var k := HiddenKey(chainId, owner);
    if k in storage && storage[k].Entries? then LowerAll(storage[k].items) else {}
  }

  predicate AllLower(s: set<string>) { forall x :: x in s ==> IsLower(x) }

  /** Saving a lowercase set and loading it back gives the same set. */
  lemma LoadAfterSave(storage: map<string, Stored>, chainId: nat, owner: string, s: set<string>)
    requires AllLower(s)
    ensures LoadHidden(storage[HiddenKey(chainId, owner) := Entries(s)], chainId, owner) == s
  {
    var r := LoadHidden(storage[HiddenKey(chainId, owner) := Entries(s)], chainId, owner);
    forall x | x in s ensures x in r {
      LowerOfLower(x);
    }
    forall x | x in r ensures x in s {
      var y :| y in s && x == Lower(y);
      LowerOfLower(y);
    }
  }

  /** The hidden set of the dashboard and the browser storage it persists to. */
  class HiddenTokens {
    var hiddenSet: set<string>
    var storage: map<string, Stored>

    /** Every hidden entry is a lowercase address. */
    predicate Valid()
      reads this
    {
      AllLower(hiddenSet)
    }

    /** The initial state: the stored set of the connected owner, if any. */
    constructor(storage0: map<string, Stored>, chainId: nat, owner: Option<Addr>)
      ensures Valid() && storage == storage0
      ensures hiddenSet == if owner.Some? && owner.value != "" && chainId != 0 then LoadHidden(storage0, chainId, owner.value) else {}
    {
      storage := storage0;
      hiddenSet := if owner.Some? && owner.value != "" && chainId != 0 then LoadHidden(storage0, chainId, owner.value) else {};
    }

    /** The reload when the owner or chain changes; without both the set is kept. */
    method Reload(chainId: nat, owner: Option<Addr>)
      requires Valid()
      modifies this
      ensures Valid() && storage == old(storage)
      ensures hiddenSet == if owner.Some? && owner.value != "" && chainId != 0 then LoadHidden(storage, chainId, owner.value) else old(hiddenSet)
    {
      if owner.Some? && owner.value != "" && chainId != 0 {
        hiddenSet := LoadHidden(storage, chainId, owner.value);
      }
    }

    /** `hideToken`: add the lowercase address and persist. */
    method HideToken(chainId: nat, owner: Option<Addr>, addr: Addr)
      requires Valid()
      modifies this
      ensures Valid()
      ensures owner.None? || owner.value == "" || chainId == 0 ==> hiddenSet == old(hiddenSet) && storage == old(storage)
      ensures owner.Some? && owner.value != "" && chainId != 0 ==>
        hiddenSet == old(hiddenSet) + {Lower(addr)} && storage == old(storage)[HiddenKey(chainId, owner.value) := Entries(hiddenSet)]
    {
      if owner.None? || owner.value == "" || chainId == 0 {
        return;
      }
      LowerIsLower(addr);
      hiddenSet := hiddenSet + {Lower(addr)};
      storage := storage[HiddenKey(chainId, owner.value) := Entries(hiddenSet)];
    }

    /** `unhideToken`: remove the lowercase address and persist. */
    method UnhideToken(chainId: nat, owner: Option<Addr>, addr: Addr)
      requires Valid()
      modifies this
      ensures Valid()
      ensures owner.None? || owner.value == "" || chainId == 0 ==> hiddenSet == old(hiddenSet) && storage == old(storage)
      ensures owner.Some? && owner.value != "" && chainId != 0 ==>
        hiddenSet == old(hiddenSet) - {Lower(addr)} && storage == old(storage)[HiddenKey(chainId, owner.value) := Entries(hiddenSet)]
    {
      if owner.None? || owner.value == "" || chainId == 0 {
        return;
      }
      hiddenSet := hiddenSet - {Lower(addr)};
      storage := storage[HiddenKey(chainId, owner.value) := Entries(hiddenSet)];
    }

    /** `unhideAll`: empty the set and persist. */
    method UnhideAll(chainId: nat, owner: Option<Addr>)
      requires Valid()
      modifies this
      ensures Valid()
      ensures owner.None? || owner.value == "" || chainId == 0 ==> hiddenSet == old(hiddenSet) && storage == old(storage)
      ensures owner.Some? && owner.value != "" && chainId != 0 ==>
        hiddenSet == {} && storage == old(storage)[HiddenKey(chainId, owner.value) := Entries({})]
    {
      if owner.None? || owner.value == "" || chainId == 0 {
        return;
      }
      hiddenSet := {};
      storage := storage[HiddenKey(chainId, owner.value) := Entries({})];
    }
  }

  /** After hiding, the persisted set reloads to the in-memory one. */
  lemma HideThenLoad(storage: map<string, Stored>, hidden: set<string>, chainId: nat, owner: Addr, addr: Addr)
    requires AllLower(hidden)
    ensures var s := hidden + {Lower(addr)};
      LoadHidden(storage[HiddenKey(chainId, owner) := Entries(s)], chainId, owner) == s && Lower(addr) in s
  {
    LowerIsLower(addr);
    LoadAfterSave(storage, chainId, owner, hidden + {Lower(addr)});
  }

  // ---------------------------------------------------------------------
  // The detected holdings.

  datatype Detected = Detected(address: Addr, name: string, symbol: string, decimals: int, balance: int,
                               logo: string, isSpam: bool)

  const DEFAULT_SYMBOL := "TKN"
  const DEFAULT_TOKEN_LOGO := "default.png"
  const DEFAULT_DECIMALS: int := 18

  /** A digit of base 16 or below, by its value; anything else is 16. */
  function DigitOf(c: char): (d: nat)
    ensures d <= 16
  {
    if '0' <= c <= '9' then c as int - '0' as int
    else if 'a' <= c <= 'f' then c as int - 'a' as int + 10
    else if 'A' <= c <= 'F' then c as int - 'A' as int + 10
    else 16
  }

  /** The value of a numeral in base `b`, or `None` when some character is no digit of that base. */
  function BaseValue(s: string, b: nat): (r: Option<nat>)
    requires 2 <= b <= 16
    ensures r.Some? <==> forall i :: 0 <= i < |s| ==> DigitOf(s[i]) < b
  {
    if |s| == 0 then Some(0)
    else
      var init := BaseValue(s[..|s| - 1], b);
      assert forall i :: 0 <= i < |s| - 1 ==> s[..|s| - 1][i] == s[i];
      if init.Some? && DigitOf(s[|s| - 1]) < b then Some(init.value * b + DigitOf(s[|s| - 1])) else None
  }

  /** The base a `0x`, `0o` or `0b` prefix (either case) introduces, or 0 when `t` starts with none. */
  function PrefixBase(t: string): (b: nat)
    ensures b == 0 || b == 2 || b == 8 || b == 16
  {
    if |t| < 2 || t[0] != '0' then 0
    else if t[1] == 'x' || t[1] == 'X' then 16
    else if t[1] == 'o' || t[1] == 'O' then 8
    else if t[1] == 'b' || t[1] == 'B' then 2
    else 0
  }

  /** Decimal digits after an optional sign. */
  function SignedDecimal(t: string): Option<int>
  {
    var digits := if |t| > 0 && (t[0] == '-' || t[0] == '+') then t[1..] else t;
    if digits == "" then None
    else match BaseValue(digits, 10)
      case None => None
      case Some(v) => Some(if t[0] == '-' then -(v as int) else v as int)
  }

  /**
   * `BigInt` on text with no whitespace around it: blank text is 0; `0x`,
   * `0o` and `0b` (either case) introduce a hexadecimal, octal or binary
   * numeral with at least one digit, and otherwise an optional sign precedes
   * decimal digits. `None` is the `SyntaxError` it throws.
   */
  function Numeral(t: string): Option<int>
  {
    if t == "" then Some(0)
    else if PrefixBase(t) != 0 then
      if |t| == 2 then None
      else match BaseValue(t[2..], PrefixBase(t))
        case None => None
        case Some(v) => Some(v as int)
    else SignedDecimal(t)
  }

  /** `BigInt(text)`: whitespace is dropped from either end, and the rest read as a numeral. */
  function BigIntOf(text: string): Option<int>
    decreases |text|
  {
    if |text| > 0 && IsSpace(text[0]) then BigIntOf(text[1..])
    else if |text| > 0 && IsSpace(text[|text| - 1]) then BigIntOf(text[..|text| - 1])
    else Numeral(text)
  }

  /** Peeling whitespace off one character at a time reads the same numeral as `trim()`. */
  lemma {:induction false} BigIntOfTrim(text: string)
    ensures BigIntOf(text) == Numeral(Trim(text))
    decreases |text|
  {
    if |text| > 0 && IsSpace(text[0]) {
      BigIntOfTrim(text[1..]);
      TrimLeading(text);
    } else if |text| > 0 && IsSpace(text[|text| - 1]) {
      BigIntOfTrim(text[..|text| - 1]);
      TrimTrailing(text);
    } else if |text| > 0 {
      TrimSolid(text);
    }
  }

  lemma TrimLeading(s: string)
    requires |s| > 0 && IsSpace(s[0])
    ensures Trim(s) == Trim(s[1..])
  {
    assert TrimStart(s) == TrimStart(s[1..]);
  }

  lemma TrimTrailing(s: string)
    requires |s| > 0 && !IsSpace(s[0]) && IsSpace(s[|s| - 1])
    ensures Trim(s) == Trim(s[..|s| - 1])
  {
    var init := s[..|s| - 1];
    assert TrimStart(s) == s;
    assert TrimEnd(s) == TrimEnd(init);
    assert init[0] == s[0];
    assert TrimStart(init) == init;
  }

  /** `let raw = 0n; try { raw = BigInt(t.balance || "0"); } catch {}` */
  function RawBalance(balance: string): (r: int)
    ensures BigIntOf(balance).Some? ==> r == BigIntOf(balance).value
    ensures BigIntOf(balance).None? ==> r == 0
  {
    BigIntZero("0");
    match BigIntOf(if balance == "" then "0" else balance)
    case Some(v) => v
    case None => 0
  }

  lemma BigIntZero(z: string)
    requires z == "0"
    ensures BigIntOf(z) == Some(0)
  {
    DecimalDigit(z, 0);
  }

  /** A single decimal digit `s` has the value `d`. */
  lemma DecimalDigit(s: string, d: nat)
    requires |s| == 1 && '0' <= s[0] <= '9' && d == s[0] as int - '0' as int
    ensures BaseValue(s, 10) == Some(d)
  {
    assert s[..0] == "";
  }

  /** A hexadecimal balance is read in base 16. */
  lemma RawBalanceHex(s: string)
    requires s == "0x1f"
    ensures RawBalance(s) == 31
  {
    assert PrefixBase(s) == 16;
    HexPair(s[2..], 1, 15);
  }

  /** Two hexadecimal digits `s` worth `hi` and `lo`. */
  lemma HexPair(s: string, hi: nat, lo: nat)
    requires |s| == 2 && DigitOf(s[0]) == hi < 16 && DigitOf(s[1]) == lo < 16
    ensures BaseValue(s, 16) == Some(hi * 16 + lo)
  {
    var init := s[..1];
    assert init[..0] == "";
    assert BaseValue(init, 16) == Some(hi);
  }

  /** Surrounding whitespace is ignored. */
  lemma RawBalanceSpaces(s: string)
    requires s == " 5 "
    ensures RawBalance(s) == 5
  {
    assert BigIntOf(s) == BigIntOf(s[1..]);
    assert s[1..][..1] == s[1..2];
    assert BigIntOf(s[1..]) == BigIntOf(s[1..2]);
    DecimalDigit(s[1..2], 5);
  }

  /** A sign is allowed before decimal digits, and a negative balance stays negative. */
  lemma RawBalanceSigned(plus: string, minus: string)
    requires plus == "+5" && minus == "-5"
    ensures RawBalance(plus) == 5 && RawBalance(minus) == -5
  {
    DecimalDigit(plus[1..], 5);
    DecimalDigit(minus[1..], 5);
  }

  /** A fraction, or a prefix without digits, makes `BigInt` throw, and the balance stays 0. */
  lemma RawBalanceRejects(fraction: string, bare: string)
    requires fraction == "1.5" && bare == "0x"
    ensures RawBalance(fraction) == 0 && RawBalance(bare) == 0
  {
    assert DigitOf(fraction[1]) == 16;
  }

  lemma TrimSolid(s: string)
    requires |s| > 0 && !IsSpace(s[0]) && !IsSpace(s[|s| - 1])
    ensures Trim(s) == s
  {
    assert TrimStart(s) == s;
  }

  /** `v || d` on an optional JSON value, as text. */
  function TextOr(v: Option<Airon.Json>, d: string): string
  {
    if Airon.Truthy(v) then Airon.ToText(v.value) else d
  }

  /** The `prelim` record of one wallet-API token; `None` where `getAddress` throws. */
  function Prelim(t: Airon.PancakeToken): (r: Option<Detected>)
    ensures r.Some? <==> IsAddressText(t.address)
    ensures r.Some? ==> r.value.decimals == OptionOr(t.decimals, DEFAULT_DECIMALS) && r.value.address == Lower(t.address)
    ensures r.Some? ==> r.value.symbol == TextOr(t.symbol, DEFAULT_SYMBOL) && r.value.name == TextOr(t.name, r.value.symbol)
  {
    match AsAddr(t.address)
    case None => None
    case Some(a) =>
      var symbol := TextOr(t.symbol, DEFAULT_SYMBOL);
      Some(Detected(a, TextOr(t.name, symbol), symbol,
                    if t.decimals.Some? then t.decimals.value else DEFAULT_DECIMALS,
                    RawBalance(t.balance), TextOr(t.logoURI, DEFAULT_TOKEN_LOGO), t.isSpam))
  }

  /** The balance of a kept token is the `BigInt` reading of its balance text. */
  lemma PrelimBalance(t: Airon.PancakeToken)
    requires IsAddressText(t.address)
    ensures Prelim(t).Some? && Prelim(t).value.balance == RawBalance(t.balance)
  {
  }

  /** `!t.chainId || t.chainId === chainId` */
  predicate OnChain(t: Airon.PancakeToken, chainId: nat)
  {
    t.chainId.None? || t.chainId.value == 0 || t.chainId.value == chainId
  }

  /** The prelim records in order, or `None` when one of them throws. */
  function PrelimAll(ts: seq<Airon.PancakeToken>): (r: Option<seq<Detected>>)
    ensures r.Some? ==> |r.value| == |ts|
    ensures r.Some? ==> forall i :: 0 <= i < |ts| ==> Prelim(ts[i]) == Some(r.value[i])
    ensures r.None? <==> exists i :: 0 <= i < |ts| && !IsAddressText(ts[i].address)
  {
    if |ts| == 0 then Some([])
    else
      var front := ts[..|ts| - 1];
      assert forall i :: 0 <= i < |ts| - 1 ==> front[i] == ts[i];
      match PrelimAll(front)
      case None => None
      case Some(init) =>
        match Prelim(ts[|ts| - 1])
        case None => None
        case Some(d) =>
          assert forall i :: 0 <= i < |ts| - 1 ==> (init + [d])[i] == init[i];
          Some(init + [d])
  }

  predicate NonZero(d: Detected) { d.balance > 0 }

  predicate NeedsMeta(d: Detected) { d.symbol == DEFAULT_SYMBOL || d.name == DEFAULT_SYMBOL || d.decimals == DEFAULT_DECIMALS }

  /** A multicall result value: the `decimals` number or the `symbol`/`name` text. */
  datatype Value = VInt(n: nat) | VText(s: string)

  function ValueText(v: Value): string
  {
    match v
    case VInt(n) => NatToString(n)
    case VText(s) => s
  }

  /** Entry `k` of the reply, where a missing entry reads as a failure. */
  function EntryAt(res: seq<CallResult<Value>>, k: nat): CallResult<Value>
  {
    if k < |res| then res[k] else Failure
  }

  /** The refresh of one record from entries `3i`, `3i+1`, `3i+2`: each field changes only on success. */
  function Refresh(d: Detected, res: seq<CallResult<Value>>, i: nat): (d': Detected)
    ensures d'.address == d.address && d'.balance == d.balance && d'.logo == d.logo && d'.isSpam == d.isSpam
    ensures EntryAt(res, 3 * i).Failure? ==> d'.decimals == d.decimals
    ensures EntryAt(res, 3 * i + 1).Failure? ==> d'.symbol == d.symbol
    ensures EntryAt(res, 3 * i + 2).Failure? ==> d'.name == d.name
    ensures EntryAt(res, 3 * i).Success? && EntryAt(res, 3 * i).value.VInt? ==> d'.decimals == EntryAt(res, 3 * i).value.n
    ensures EntryAt(res, 3 * i + 1).Success? && ValueText(EntryAt(res, 3 * i + 1).value) != "" ==>
      d'.symbol == ValueText(EntryAt(res, 3 * i + 1).value)
    ensures EntryAt(res, 3 * i + 2).Success? && ValueText(EntryAt(res, 3 * i + 2).value) != "" ==>
      d'.name == ValueText(EntryAt(res, 3 * i + 2).value)
    ensures EntryAt(res, 3 * i + 1).Success? && ValueText(EntryAt(res, 3 * i + 1).value) == "" ==> d'.symbol == d.symbol
    ensures EntryAt(res, 3 * i + 2).Success? && ValueText(EntryAt(res, 3 * i + 2).value) == "" ==> d'.name == d.name
  {
    var rDec, rSym, rNam := EntryAt(res, 3 * i), EntryAt(res, 3 * i + 1), EntryAt(res, 3 * i + 2);
    var dec := if rDec.Success? && rDec.value.VInt? then rDec.value.n else d.decimals;
    var sym := if rSym.Success? && ValueText(rSym.value) != "" then ValueText(rSym.value) else d.symbol;
    var nam := if rNam.Success? && ValueText(rNam.value) != "" then ValueText(rNam.value) else d.name;
    d.(decimals := dec, symbol := sym, name := nam)
  }

  /** The positions of the records that need metadata, in order. */
  function NeedIndices(s: seq<Detected>): (r: seq<nat>)
    ensures forall k :: 0 <= k < |r| ==> r[k] < |s| && NeedsMeta(s[r[k]])
    ensures forall k, l :: 0 <= k < l < |r| ==> r[k] < r[l]
    ensures forall j :: 0 <= j < |s| && NeedsMeta(s[j]) ==> j in r
  {
    if |s| == 0 then []
    else
      var front := s[..|s| - 1];
      var init := NeedIndices(front);
      assert forall j :: 0 <= j < |front| ==> front[j] == s[j];
      init + (if NeedsMeta(s[|s| - 1]) then [|s| - 1] else [])
  }

  /**
   * The refresh loop updates the `needMeta` records, which alias the
   * `nonZero` array: record `idx[i]` of `s` is refreshed from entries `3i..3i+2`.
   */
  function Refreshed(s: seq<Detected>, idx: seq<nat>, res: seq<CallResult<Value>>): (r: seq<Detected>)
    requires forall k :: 0 <= k < |idx| ==> idx[k] < |s|
    ensures |r| == |s|
  {
    if |idx| == 0 then s
    else
      var n := |idx| - 1;
      var prev := Refreshed(s, idx[..n], res);
      prev[idx[n] := Refresh(prev[idx[n]], res, n)]
  }

  method RefreshMeta(nonZero: seq<Detected>, res: seq<CallResult<Value>>) returns (out: seq<Detected>)
    ensures out == Refreshed(nonZero, NeedIndices(nonZero), res)
  {
    var idx := NeedIndices(nonZero);
    out := nonZero;
    for i := 0 to |idx|
      invariant out == Refreshed(nonZero, idx[..i], res)
    {
      assert idx[..i + 1][..i] == idx[..i];
      out := out[idx[i] := Refresh(out[idx[i]], res, i)];
    }
    assert idx[..|idx|] == idx;
  }

  function BalanceDesc(a: Detected, b: Detected): bool { a.balance >= b.balance }

  /** Which step threw, if any: the wallet API, `getAddress` on a token, or the multicall. */
  datatype Outcome = Shown | FetchFailed(message: string) | AddressInvalid | MulticallFailed

  datatype Loaded = Loaded(tokens: seq<Detected>, outcome: Outcome)

  /**
   * The detection effect: nothing when disconnected; on a thrown error the
   * list is empty and the outcome names the step; otherwise the nonzero
   * holdings of the chain, refreshed, sorted by balance descending.
   */
  function Detect(connected: bool, owner: Option<Addr>, chainId: nat, reply: Airon.FetchResult, hasClient: bool,
                  meta: seq<Addr> -> Option<seq<CallResult<Value>>>): Loaded
  {
    var c := Collect(connected, owner, chainId, reply, hasClient, meta);
    c.(tokens := SortBy(c.tokens, BalanceDesc))
  }

  /** The detection effect before the final sort. */
  function Collect(connected: bool, owner: Option<Addr>, chainId: nat, reply: Airon.FetchResult, hasClient: bool,
                   meta: seq<Addr> -> Option<seq<CallResult<Value>>>): Loaded
  {
    if !connected || owner.None? || owner.value == "" || chainId == 0 then Loaded([], Shown)
    else
      match reply
      case Fails(msg) => Loaded([], FetchFailed(msg))
      case Tokens(ts) =>
        match PrelimAll(Filter(ts, t => OnChain(t, chainId)))
        case None => Loaded([], AddressInvalid)
        case Some(prelim) => Gather(prelim, hasClient, meta)
  }

  /** The nonzero holdings, their metadata refreshed when some need it and a client is there. */
  function Gather(prelim: seq<Detected>, hasClient: bool, meta: seq<Addr> -> Option<seq<CallResult<Value>>>): Loaded
  {
    var nonZero := Filter(prelim, NonZero);
    var need := Filter(nonZero, NeedsMeta);
    if hasClient && |need| > 0 then
      match meta(MetaTargets(need))
      case None => Loaded([], MulticallFailed)
      case Some(res) => Loaded(Refreshed(nonZero, NeedIndices(nonZero), res), Shown)
    else Loaded(nonZero, Shown)
  }

  /** The three calls per record, flattened: the addresses in call order. */
  function MetaTargets(need: seq<Detected>): (r: seq<Addr>)
    ensures |r| == 3 * |need|
    ensures forall i :: 0 <= i < |need| ==>
      r[3 * i] == need[i].address && r[3 * i + 1] == need[i].address && r[3 * i + 2] == need[i].address
  {
    if |need| == 0 then []
    else
      var init := MetaTargets(need[..|need| - 1]);
      var a := need[|need| - 1].address;
      assert forall i :: 0 <= i < |need| - 1 ==> need[..|need| - 1][i] == need[i];
      init + [a, a, a]
  }

  lemma RefreshedKeepsBalances(s: seq<Detected>, idx: seq<nat>, res: seq<CallResult<Value>>)
    requires forall k :: 0 <= k < |idx| ==> idx[k] < |s|
    ensures forall j :: 0 <= j < |s| ==> Refreshed(s, idx, res)[j].balance == s[j].balance
  {
    if |idx| > 0 {
      RefreshedKeepsBalances(s, idx[..|idx| - 1], res);
    }
  }

  /** Sorting a list of nonzero balances gives a descending list of nonzero balances. */
  lemma SortedNonZero(arr: seq<Detected>)
    requires forall j :: 0 <= j < |arr| ==> arr[j].balance > 0
    ensures SortedBy(SortBy(arr, BalanceDesc), BalanceDesc)
    ensures forall d :: d in SortBy(arr, BalanceDesc) ==> d.balance > 0
  {
    assert TotalPreorder(BalanceDesc);
    SortBySorted(arr, BalanceDesc);
    forall d | d in SortBy(arr, BalanceDesc) ensures d.balance > 0 {
      assert d in multiset(arr);
    }
  }

  /** The detected list holds only nonzero balances, in descending order of balance. */
  lemma DetectedSorted(connected: bool, owner: Option<Addr>, chainId: nat, reply: Airon.FetchResult, hasClient: bool,
                       meta: seq<Addr> -> Option<seq<CallResult<Value>>>)
    ensures var l := Detect(connected, owner, chainId, reply, hasClient, meta).tokens;
      && SortedBy(l, BalanceDesc)
      && forall d :: d in l ==> d.balance > 0
  {
    CollectNonZero(connected, owner, chainId, reply, hasClient, meta);
    SortedNonZero(Collect(connected, owner, chainId, reply, hasClient, meta).tokens);
  }

  /** Every holding collected has a nonzero balance. */
  lemma CollectNonZero(connected: bool, owner: Option<Addr>, chainId: nat, reply: Airon.FetchResult, hasClient: bool,
                       meta: seq<Addr> -> Option<seq<CallResult<Value>>>)
    ensures var l := Collect(connected, owner, chainId, reply, hasClient, meta).tokens;
      forall j :: 0 <= j < |l| ==> l[j].balance > 0
  {
    if connected && owner.Some? && owner.value != "" && chainId != 0 && reply.Tokens? {
      var prelim := PrelimAll(Filter(reply.tokens, t => OnChain(t, chainId)));
      if prelim.Some? {
        GatherNonZero(prelim.value, hasClient, meta);
      }
    }
  }

  lemma GatherNonZero(prelim: seq<Detected>, hasClient: bool, meta: seq<Addr> -> Option<seq<CallResult<Value>>>)
    ensures var l := Gather(prelim, hasClient, meta).tokens;
      forall j :: 0 <= j < |l| ==> l[j].balance > 0
  {
    var nonZero := Filter(prelim, NonZero);
    var need := Filter(nonZero, NeedsMeta);
    assert forall j :: 0 <= j < |nonZero| ==> NonZero(nonZero[j]);
    if hasClient && |need| > 0 {
      var res := meta(MetaTargets(need));
      if res.Some? {
        RefreshedKeepsBalances(nonZero, NeedIndices(nonZero), res.value);
      }
    }
  }

  /** Each failure empties the list and names its step; a disconnected wallet shows nothing. */
  lemma DetectFailures(connected: bool, owner: Option<Addr>, chainId: nat, reply: Airon.FetchResult, hasClient: bool,
                       meta: seq<Addr> -> Option<seq<CallResult<Value>>>)
    requires connected && owner.Some? && owner.value != "" && chainId != 0
    ensures reply.Fails? ==> Detect(connected, owner, chainId, reply, hasClient, meta) == Loaded([], FetchFailed(reply.message))
    ensures reply.Tokens? && (exists t :: t in reply.tokens && OnChain(t, chainId) && !IsAddressText(t.address)) ==>
      Detect(connected, owner, chainId, reply, hasClient, meta) == Loaded([], AddressInvalid)
  {
    if reply.Tokens? && (exists t :: t in reply.tokens && OnChain(t, chainId) && !IsAddressText(t.address)) {
      var t :| t in reply.tokens && OnChain(t, chainId) && !IsAddressText(t.address);
      var f := Filter(reply.tokens, t => OnChain(t, chainId));
      var j :| 0 <= j < |reply.tokens| && reply.tokens[j] == t;
      assert t in f;
    }
  }

  // ---------------------------------------------------------------------
  // The visible/hidden split.

  /** `hidden.has(lower(address)) || (autoHideSpam && isSpam)` */
  predicate Flagged(t: Detected, hidden: set<string>, autoHideSpam: bool)
  {
    Lower(t.address) in hidden || (autoHideSpam && t.isSpam)
  }

  /** The test of the visible list, and of the hidden one. */
  function ShownBy(hidden: set<string>, autoHideSpam: bool): Detected -> bool
  {
    t => !Flagged(t, hidden, autoHideSpam)
  }

  function HiddenBy(hidden: set<string>, autoHideSpam: bool): Detected -> bool
  {
    t => Flagged(t, hidden, autoHideSpam)
  }

  method Partition(all: seq<Detected>, hidden: set<string>, autoHideSpam: bool) returns (vis: seq<Detected>, hid: seq<Detected>)
    ensures vis == Filter(all, ShownBy(hidden, autoHideSpam))
    ensures hid == Filter(all, HiddenBy(hidden, autoHideSpam))
  {
    var show, flag := ShownBy(hidden, autoHideSpam), HiddenBy(hidden, autoHideSpam);
    vis, hid := [], [];
    for i := 0 to |all|
      invariant vis == Filter(all[..i], show)
      invariant hid == Filter(all[..i], flag)
    {
      vis, hid := PartitionStep(all, i, show, flag, vis, hid);
    }
    assert all[..|all|] == all;
  }

  /** One token of the loop: pushed onto the hidden list when flagged, onto the visible one otherwise. */
  method PartitionStep(all: seq<Detected>, i: nat, show: Detected -> bool, flag: Detected -> bool,
                       vis: seq<Detected>, hid: seq<Detected>) returns (vis': seq<Detected>, hid': seq<Detected>)
    requires i < |all| && show(all[i]) == !flag(all[i])
    requires vis == Filter(all[..i], show) && hid == Filter(all[..i], flag)
    ensures vis' == Filter(all[..i + 1], show) && hid' == Filter(all[..i + 1], flag)
  {
    FilterSnoc(all, show, i);
    FilterSnoc(all, flag, i);
    if flag(all[i]) {
      vis', hid' := vis, hid + [all[i]];
    } else {
      vis', hid' := vis + [all[i]], hid;
    }
  }

  /** Each token lands in exactly one of the two lists, which together hold every token once. */
  lemma PartitionExact(all: seq<Detected>, hidden: set<string>, autoHideSpam: bool)
    ensures var vis, hid := Filter(all, ShownBy(hidden, autoHideSpam)), Filter(all, HiddenBy(hidden, autoHideSpam));
      && multiset(vis) + multiset(hid) == multiset(all)
      && (forall t :: t in vis ==> !Flagged(t, hidden, autoHideSpam))
      && (forall t :: t in hid ==> Flagged(t, hidden, autoHideSpam))
  {
    FilterPartition(all, ShownBy(hidden, autoHideSpam), HiddenBy(hidden, autoHideSpam));
  }
}
