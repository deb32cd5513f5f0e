/**
 * `fetchPancakeBalances` (the wallet-API client in `src/web3/airon.ts`): the
 * response body becomes a list of holdings, whatever its shape, and each
 * holding with a non-zero token address becomes a token with its numeric
 * fields kept only when they are finite numbers.
 *
 * The HTTP request is the `reply` parameter. The body is a JSON value; JSON
 * numbers are integers here (`JInf` stands for a literal too large for a
 * double), so fractional amounts are not part of this model. The debug log
 * is left out.
 */
module Airon {
  import opened Common
  import opened Keyed

  datatype Json =
    | JNull
    | JBool(b: bool)
    | JNum(n: int)
    | JInf
    | JStr(s: string)
    | JArr(items: seq<Json>)
    | JObj(fields: seq<(string, Json)>)

  /** `o[key]` on a parsed object: the last field of that name; `None` is `undefined`. */
  function Field(j: Option<Json>, key: string): (r: Option<Json>)
    ensures r.Some? ==> j.Some? && j.value.JObj? && exists i :: 0 <= i < |j.value.fields| && j.value.fields[i] == (key, r.value)
  {
    if j.Some? && j.value.JObj? then LastField(j.value.fields, key) else None
  }

  /** The value of the last field named `key`, as `JSON.parse` keeps the last of repeated keys. */
  function LastField(fs: seq<(string, Json)>, key: string): (r: Option<Json>)
    ensures r.Some? ==> exists i :: 0 <= i < |fs| && fs[i] == (key, r.value) && forall k :: i < k < |fs| ==> fs[k].0 != key
    ensures r.None? ==> forall i :: 0 <= i < |fs| ==> fs[i].0 != key
  {
    if |fs| == 0 then None
    else if fs[|fs| - 1].0 == key then Some(fs[|fs| - 1].1)
    else
      var init := fs[..|fs| - 1];
      var r := LastField(init, key);
      assert forall i :: 0 <= i < |init| ==> init[i] == fs[i];
      if r.Some? then
        var i :| 0 <= i < |init| && init[i] == (key, r.value) && forall k :: i < k < |init| ==> init[k].0 != key;
        assert fs[i] == (key, r.value) && forall k :: i < k < |fs| ==> fs[k].0 != key;
        r
      else r
  }

  /** JavaScript truthiness, where `None` is `undefined`. */
  predicate Truthy(j: Option<Json>)
  {
    j.Some? &&
    match j.value
    case JNull => false
    case JBool(b) => b
    case JNum(n) => n != 0
    case JInf => true
    case JStr(s) => s != ""
    case _ => true
  }

  /** `a ?? b` */
  function Coalesce(a: Option<Json>, b: Option<Json>): Option<Json>
  {
    if a.None? || a.value == JNull then b else a
  }

  /** `typeof v === "number" && Number.isFinite(v) ? v : undefined` */
  function FiniteNumber(j: Option<Json>): (r: Option<int>)
    ensures r.Some? <==> j.Some? && j.value.JNum?
    ensures r.Some? ==> r.value == j.value.n
  {
    if j.Some? && j.value.JNum? then Some(j.value.n) else None
  }

  function IntToString(n: int): string
  {
    if n < 0 then "-" + NatToString(-n) else NatToString(n)
  }

  /** `String(v)` */
  function ToText(j: Json): string
    decreases j, 1
  {
    match j
    case JNull => "null"
    case JBool(b) => if b then "true" else "false"
    case JNum(n) => IntToString(n)
    case JInf => "Infinity"
    case JStr(s) => s
    case JArr(items) => JoinText(j, |items|)
    case JObj(_) => "[object Object]"
  }

  /** `Array.prototype.join(",")` over the first `n` elements, where `null` elements give the empty string. */
  function JoinText(arr: Json, n: nat): string
    requires arr.JArr? && n <= |arr.items|
    decreases arr, 0, n
  {
    if n == 0 then ""
    else
      var last := arr.items[n - 1];
      assert last in arr.items;
      var head := if n == 1 then "" else JoinText(arr, n - 1) + ",";
      head + (if last == JNull then "" else ToText(last))
  }

  /** `/^0x0{40}$/i` on a string. */
  predicate IsZeroAddressText(s: string)
  {
    |s| == 42 && s[0] == '0' && (s[1] == 'x' || s[1] == 'X') && forall i :: 2 <= i < 42 ==> s[i] == '0'
  }

  /** `isZeroAddress`: only a string can be the zero address. */
  predicate IsZeroAddress(a: Option<Json>)
  {
    a.Some? && a.value.JStr? && IsZeroAddressText(a.value.s)
  }

  /** The zero-address test is the case-insensitive comparison with `0x000…0`. */
  lemma ZeroAddressIgnoresCase(s: string)
    ensures IsZeroAddressText(s) <==> Lower(s) == ZeroAddress
  {
    if Lower(s) == ZeroAddress {
      assert |s| == 42;
      forall i | 2 <= i < 42 ensures s[i] == '0' {
        assert Lower(s)[i] == ZeroAddress[i];
      }
      assert Lower(s)[1] == 'x';
    }
    if IsZeroAddressText(s) {
      assert forall i :: 0 <= i < 42 ==> Lower(s)[i] == ZeroAddress[i];
    }
  }

  /** A holding: its `chainId`, `value`, `token` and `price` fields as the page reads them. */
  datatype Holding = Holding(chainId: Option<Json>, value: Option<Json>, token: Option<Json>, price: Option<Json>)

  /** The holdings of the array-shaped body: the elements' own fields. */
  function AsHolding(h: Json): Holding
  {
    var o := Some(h);
    Holding(Field(o, "chainId"), Field(o, "value"), Field(o, "token"), Field(o, "price"))
  }

  function Put(fs: seq<(string, Json)>, key: string, v: Option<Json>): seq<(string, Json)>
  {
    if v.Some? then fs + [(key, v.value)] else fs
  }

  /** `{ k1: o.k1, k2: o.k2, ... }`, where an `undefined` value leaves its key out. */
  function PutFields(o: Option<Json>, keys: seq<string>): seq<(string, Json)>
  {
    if |keys| == 0 then []
    else Put(PutFields(o, keys[..|keys| - 1]), keys[|keys| - 1], Field(o, keys[|keys| - 1]))
  }

  const TOKEN_FIELDS: seq<string> := ["decimals", "address", "name", "symbol", "logoURI", "isSpam"]

  const PRICE_FIELDS: seq<string> := ["totalUsd", "usd"]

  /** The `maybeTokens.map(...)` record: a token object from the flat fields, and a price object when `price` is truthy. */
  function FromFlat(t: Json): Holding
  {
    var o := Some(t);
    var p := Field(o, "price");
    var price := if Truthy(p) then Some(JObj(PutFields(p, PRICE_FIELDS))) else Some(JNull);
    Holding(Field(o, "chainId"), Field(o, "balance"), Some(JObj(PutFields(o, TOKEN_FIELDS))), price)
  }

  /** A copied object has exactly the listed fields of its source. */
  lemma {:induction false} PutFieldsLookup(o: Option<Json>, keys: seq<string>, k: string)
    ensures LastField(PutFields(o, keys), k) == if k in keys then Field(o, k) else None
  {
    if |keys| > 0 {
      var init := keys[..|keys| - 1];
      assert keys == init + [keys[|keys| - 1]];
      PutFieldsLookup(o, init, k);
      var v := Field(o, keys[|keys| - 1]);
      if v.Some? {
        assert (PutFields(o, init) + [(keys[|keys| - 1], v.value)])[..|PutFields(o, init)|] == PutFields(o, init);
      }
    }
  }

  /**
   * The record built from a flat entry carries the entry's fields: its
   * `chainId`, its `balance` as the value, the six token fields under their
   * own names and no others, and the price's two fields when the price is
   * truthy, `null` otherwise.
   */
  lemma FromFlatFields(t: Json)
    ensures FromFlat(t).chainId == Field(Some(t), "chainId") && FromFlat(t).value == Field(Some(t), "balance")
    ensures forall k :: Field(FromFlat(t).token, k) == if k in TOKEN_FIELDS then Field(Some(t), k) else None
    ensures Truthy(Field(Some(t), "price")) ==>
      forall k :: Field(FromFlat(t).price, k) == if k in PRICE_FIELDS then Field(Field(Some(t), "price"), k) else None
    ensures !Truthy(Field(Some(t), "price")) ==> FromFlat(t).price == Some(JNull)
  {
    forall k ensures Field(FromFlat(t).token, k) == if k in TOKEN_FIELDS then Field(Some(t), k) else None {
      PutFieldsLookup(Some(t), TOKEN_FIELDS, k);
    }
    var p := Field(Some(t), "price");
    if Truthy(p) {
      forall k ensures Field(FromFlat(t).price, k) == if k in PRICE_FIELDS then Field(p, k) else None {
        PutFieldsLookup(p, PRICE_FIELDS, k);
      }
    }
  }

  /** `Array.isArray(json) ? json : (json?.data?.tokens ?? json?.tokens)` mapped, else nothing; `None` where `t.chainId` throws on a `null` element. */
  function Holdings(json: Json): (r: Option<seq<Holding>>)
    ensures json.JArr? ==> r == Some(MapSeq(json.items, AsHolding))
    ensures !json.JArr? ==>
      var m := Coalesce(Field(Field(Some(json), "data"), "tokens"), Field(Some(json), "tokens"));
      && (r.None? <==> m.Some? && m.value.JArr? && JNull in m.value.items)
      && (m.Some? && m.value.JArr? && r.Some? ==>
            |r.value| == |m.value.items| && forall i :: 0 <= i < |r.value| ==> r.value[i] == FromFlat(m.value.items[i]))
      && (!(m.Some? && m.value.JArr?) ==> r == Some([]))
  {
    if json.JArr? then Some(MapSeq(json.items, AsHolding))
    else
      var m := Coalesce(Field(Field(Some(json), "data"), "tokens"), Field(Some(json), "tokens"));
      if m.Some? && m.value.JArr? then
        if JNull in m.value.items then None
        else
          MapSeqIndex(m.value.items, FromFlat);
          Some(MapSeq(m.value.items, FromFlat))
      else Some([])
  }

  datatype PancakeToken = PancakeToken(chainId: Option<int>, address: string, symbol: Option<Json>, name: Option<Json>,
                                       decimals: Option<int>, balance: string, balanceUsd: Option<int>,
                                       logoURI: Option<Json>, isSpam: bool)

  /** The two filters: a truthy token with a truthy address, which is not the zero address. */
  predicate Kept(h: Holding)
  {
    Truthy(h.token) && Truthy(Field(h.token, "address")) && !IsZeroAddress(Field(h.token, "address"))
  }

  /** The `map` step. */
  function Normalize(h: Holding): (t: PancakeToken)
    ensures t.chainId == FiniteNumber(h.chainId) && t.decimals == FiniteNumber(Field(h.token, "decimals"))
    ensures h.value.Some? && h.value.value.JStr? && h.value.value.s != "" ==> t.balance == h.value.value.s
    ensures !(h.value.Some? && h.value.value.JStr? && h.value.value.s != "") ==> t.balance == "0"
    ensures t.isSpam <==> Truthy(Field(h.token, "isSpam"))
  {
    var addr := Field(h.token, "address");
    PancakeToken(FiniteNumber(h.chainId),
                 if Truthy(addr) then ToText(addr.value) else "",
                 Field(h.token, "symbol"), Field(h.token, "name"),
                 FiniteNumber(Field(h.token, "decimals")),
                 if h.value.Some? && h.value.value.JStr? && h.value.value.s != "" then h.value.value.s else "0",
                 FiniteNumber(Field(h.price, "totalUsd")),
                 Field(h.token, "logoURI"),
                 Truthy(Field(h.token, "isSpam")))
  }

  function KeptFn(): Holding -> bool { (h: Holding) => Kept(h) }

  function NormalizeFn(): Holding -> PancakeToken { (h: Holding) => Normalize(h) }

  function TokensOf(hs: seq<Holding>): seq<PancakeToken>
  {
    MapSeq(Filter(hs, KeptFn()), NormalizeFn())
  }

  datatype Reply = Reply(ok: bool, status: nat, body: Option<Json>)

  datatype FetchResult = Tokens(tokens: seq<PancakeToken>) | Fails(message: string)

  const ERROR_PREFIX := "Pancake API error: "

  /** `fetchPancakeBalances`: a non-OK reply throws; an unparsable body is `{}`. */
  function FetchPancakeBalances(reply: Reply): (r: FetchResult)
    ensures !reply.ok ==> r == Fails(ERROR_PREFIX + NatToString(reply.status))
    ensures reply.ok && reply.body.None? ==> r == Tokens([])
  {
    if !reply.ok then Fails(ERROR_PREFIX + NatToString(reply.status))
    else
      var json := OptionOr(reply.body, JObj([]));
      match Holdings(json)
      case None => Fails("TypeError")
      case Some(hs) => Tokens(TokensOf(hs))
  }

  /**
   * Exactly the kept holdings become tokens, each normalised: every token
   * comes from a kept holding, every kept holding gives a token, and nothing
   * else is dropped.
   */
  lemma TokensOfProperties(hs: seq<Holding>)
    ensures |TokensOf(hs)| == |Filter(hs, KeptFn())| <= |hs|
    ensures forall t :: t in TokensOf(hs) ==> exists i :: 0 <= i < |hs| && Kept(hs[i]) && t == Normalize(hs[i])
    ensures forall i :: 0 <= i < |hs| && Kept(hs[i]) ==> Normalize(hs[i]) in TokensOf(hs)
    ensures (forall i :: 0 <= i < |hs| ==> Kept(hs[i])) ==> |TokensOf(hs)| == |hs|
    ensures (forall i :: 0 <= i < |hs| ==> !Kept(hs[i])) ==> TokensOf(hs) == []
  {
    MapSeqIndex(Filter(hs, KeptFn()), NormalizeFn());
    TokensFromKept(hs);
    KeptGiveTokens(hs);
    if forall i :: 0 <= i < |hs| ==> Kept(hs[i]) {
      FilterAll(hs, KeptFn());
    }
  }

  lemma TokensFromKept(hs: seq<Holding>)
    ensures forall t :: t in TokensOf(hs) ==> exists i :: 0 <= i < |hs| && Kept(hs[i]) && t == Normalize(hs[i])
  {
    var f := Filter(hs, KeptFn());
    MapSeqIndex(f, NormalizeFn());
    forall t | t in TokensOf(hs) ensures exists i :: 0 <= i < |hs| && Kept(hs[i]) && t == Normalize(hs[i]) {
      var j :| 0 <= j < |f| && TokensOf(hs)[j] == t;
      var i :| 0 <= i < |hs| && hs[i] == f[j];
      assert Kept(hs[i]) && t == Normalize(hs[i]);
    }
  }

  lemma KeptGiveTokens(hs: seq<Holding>)
    ensures forall i :: 0 <= i < |hs| && Kept(hs[i]) ==> Normalize(hs[i]) in TokensOf(hs)
  {
    var f := Filter(hs, KeptFn());
    MapSeqIndex(f, NormalizeFn());
    forall i | 0 <= i < |hs| && Kept(hs[i]) ensures Normalize(hs[i]) in TokensOf(hs) {
      var j :| 0 <= j < |f| && f[j] == hs[i];
      assert TokensOf(hs)[j] == Normalize(hs[i]);
    }
  }

  /** A token whose address was a string or a number has a non-empty address other than the zero address. */
  lemma TokensOfAddresses(hs: seq<Holding>)
    ensures |TokensOf(hs)| == |Filter(hs, KeptFn())|
    ensures forall i :: 0 <= i < |TokensOf(hs)| && AddressIsScalar(Filter(hs, KeptFn())[i]) ==>
      TokensOf(hs)[i].address != "" && !IsZeroAddressText(TokensOf(hs)[i].address)
  {
    var f := Filter(hs, KeptFn());
    MapSeqIndex(f, NormalizeFn());
    forall j | 0 <= j < |f| && AddressIsScalar(f[j])
      ensures TokensOf(hs)[j].address != "" && !IsZeroAddressText(TokensOf(hs)[j].address)
    {
      KeptAddress(f[j]);
    }
  }

  predicate AddressIsScalar(h: Holding)
  {
    var a := Field(h.token, "address");
    a.Some? && (a.value.JStr? || a.value.JNum?)
  }

  /** A kept holding with a string or numeric address gives a non-empty address that is not the zero address. */
  lemma KeptAddress(h: Holding)
    requires Kept(h) && AddressIsScalar(h)
    ensures Normalize(h).address != "" && !IsZeroAddressText(Normalize(h).address)
  {
    var a := Field(h.token, "address").value;
    if a.JNum? {
      NumberTextNotZeroAddress(a.n);
    }
  }

  lemma NumberTextNotZeroAddress(n: int)
    ensures ToText(JNum(n)) != "" && !IsZeroAddressText(ToText(JNum(n)))
  {
    var t := ToText(JNum(n));
    if n >= 0 {
      NatToStringDigits(n);
    } else {
      assert t[0] == '-';
    }
  }

  /** `0x` is no decimal numeral: every character of `NatToString` is a digit. */
  lemma {:induction false} NatToStringDigits(n: nat)
    ensures |NatToString(n)| > 0 && forall i :: 0 <= i < |NatToString(n)| ==> '0' <= NatToString(n)[i] <= '9'
  {
    if n >= 10 {
      NatToStringDigits(n / 10);
    }
  }
}
