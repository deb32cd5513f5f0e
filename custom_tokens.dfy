/**
 * The user's own token list (`customTokens.ts`): one store per wallet
 * account, each a record from chain id to a list of tokens. Addresses are
 * compared case-insensitively; an upsert overwrites the first matching entry
 * in place or appends, a removal drops every matching entry.
 *
 * `localStorage` is the in-memory map `stores`, keyed by the same string
 * the page stores under; JSON serialisation and the update event are not
 * part of this model.
 */
module CustomTokens {
  import opened Common
  import opened Keyed

  const LS_PREFIX := "airon.customTokens.v1"
  const NO_ACCOUNT := "__noacct__"

  datatype CustomToken = CustomToken(chainId: nat, address: Addr, symbol: string, name: string,
                                     decimals: nat, logoURI: Option<string>)

  /** The tokens of one account, by chain id (`String(chainId)` is injective, see `NatToStringInjective`). */
  type Store = map<nat, seq<CustomToken>>

  /** The storage key of an account: the lowercase account after the prefix, or the no-account key. */
  function KeyFor(account: Option<Addr>): (r: string)
    ensures account.Some? && account.value != "" ==> r == LS_PREFIX + ":" + Lower(account.value)
    ensures account.None? || account.value == "" ==> r == LS_PREFIX + ":" + NO_ACCOUNT
  {
    if account.Some? && account.value != "" then LS_PREFIX + ":" + Lower(account.value)
    else LS_PREFIX + ":" + NO_ACCOUNT
  }

  /** Two spellings of one account share a store. */
  lemma KeyForIgnoresCase(a: Addr, b: Addr)
    requires a != "" && b != "" && Lower(a) == Lower(b)
    ensures KeyFor(Some(a)) == KeyFor(Some(b))
  {
  }

  /** Distinct accounts (after lowercasing) have distinct stores. */
  lemma KeyForSeparatesAccounts(a: Addr, b: Addr)
    requires a != "" && b != "" && Lower(a) != Lower(b)
    ensures KeyFor(Some(a)) != KeyFor(Some(b))
  {
    var p := LS_PREFIX + ":";
    assert KeyFor(Some(a))[|p|..] == Lower(a);
    assert KeyFor(Some(b))[|p|..] == Lower(b);
  }

  function AddrKey(t: CustomToken): string { Lower(t.address) }

  /** `s[String(chainId)] || []` */
  function Bucket(s: Store, chainId: nat): seq<CustomToken>
  {
    if chainId in s then s[chainId] else []
  }

  /** The entry an upsert writes: the token with `logoURI || ""`. */
  function Normalized(tok: CustomToken): (r: CustomToken)
    ensures r.logoURI.Some?
    ensures tok.logoURI.None? || tok.logoURI.value == "" ==> r.logoURI == Some("")
    ensures tok.logoURI.Some? ==> r.logoURI == tok.logoURI
    ensures r.(logoURI := tok.logoURI) == tok
  {
    tok.(logoURI := Some(OptionOr(tok.logoURI, "")))
  }

  /** The store after `upsertCustomToken`. */
  function Upserted(s: Store, tok: CustomToken): Store
  {
    s[tok.chainId := Put(Bucket(s, tok.chainId), AddrKey, Normalized(tok))]
  }

  /** The store after `removeCustomToken`. */
  function Removed(s: Store, chainId: nat, address: Addr): Store
  {
    s[chainId := Filter(Bucket(s, chainId), t => AddrKey(t) != Lower(address))]
  }

  /**
   * An upsert overwrites the first case-insensitive match at its index or
   * appends, grows the bucket by at most one, keeps the bucket free of
   * duplicate addresses, and touches no other chain.
   */
  lemma UpsertProperties(s: Store, tok: CustomToken)
    ensures var b, b' := Bucket(s, tok.chainId), Bucket(Upserted(s, tok), tok.chainId);
      && |b| <= |b'| <= |b| + 1
      && Normalized(tok) in b'
      && (match IndexOfKey(b, AddrKey, Lower(tok.address))
          case Some(i) => b' == b[i := Normalized(tok)]
          case None => b' == b + [Normalized(tok)])
      && (DistinctKeys(b, AddrKey) ==> DistinctKeys(b', AddrKey))
      && KeysOf(b', AddrKey) == KeysOf(b, AddrKey) + {Lower(tok.address)}
    ensures forall c :: c != tok.chainId ==> Bucket(Upserted(s, tok), c) == Bucket(s, c)
  {
    PutProperties(Bucket(s, tok.chainId), AddrKey, Normalized(tok));
  }

  /** A removal drops exactly the entries matching the address, keeps the rest in order, and touches no other chain. */
  lemma RemoveProperties(s: Store, chainId: nat, address: Addr)
    ensures var b, b' := Bucket(s, chainId), Bucket(Removed(s, chainId, address), chainId);
      && (forall i :: 0 <= i < |b'| ==> Lower(b'[i].address) != Lower(address))
      && (forall i :: 0 <= i < |b| && Lower(b[i].address) != Lower(address) ==> b[i] in b')
      && multiset(b') + multiset(Filter(b, t => AddrKey(t) == Lower(address))) == multiset(b)
    ensures forall c :: c != chainId ==> Bucket(Removed(s, chainId, address), c) == Bucket(s, c)
  {
    var b := Bucket(s, chainId);
    FilterPartition(b, t => AddrKey(t) != Lower(address), t => AddrKey(t) == Lower(address));
  }

  /** Removing an address right after upserting it leaves no entry for it, in any spelling. */
  lemma RemoveAfterUpsert(s: Store, tok: CustomToken, address: Addr)
    requires Lower(address) == Lower(tok.address)
    ensures forall t :: t in Bucket(Removed(Upserted(s, tok), tok.chainId, address), tok.chainId) ==>
      Lower(t.address) != Lower(tok.address)
  {
  }

  /** Upserting the same token twice is the same as once. */
  lemma UpsertIdempotent(s: Store, tok: CustomToken)
    ensures Upserted(Upserted(s, tok), tok) == Upserted(s, tok)
  {
    PutIdempotent(Bucket(s, tok.chainId), AddrKey, Normalized(tok));
  }

  /** The browser's storage: one store per account key. */
  class CustomTokenStore {
    var stores: map<string, Store>

    constructor()
      ensures stores == map[]
    {
      stores := map[];
    }

    function Read(account: Option<Addr>): Store
      reads this
    {
      var k := KeyFor(account);
      if k in stores then stores[k] else map[]
    }

    /** `listCustomTokens`: a copy of the chain's bucket. */
    method List(chainId: nat, account: Option<Addr>) returns (r: seq<CustomToken>)
      ensures r == Bucket(Read(account), chainId)
      ensures chainId !in Read(account) ==> r == []
    {
      var s: Store := Read(account);
      r := if chainId in s then s[chainId] else [];
    }

    /** `upsertCustomToken`: overwrite the first address match in place, else push. */
    method Upsert(tok: CustomToken, account: Option<Addr>)
      modifies this
      ensures stores == old(stores)[KeyFor(account) := Upserted(old(Read(account)), tok)]
    {
      var k := KeyFor(account);
      var s: Store := Read(account);
      var arr := if tok.chainId in s then s[tok.chainId] else [];
      var next := tok.(logoURI := Some(if tok.logoURI.Some? then tok.logoURI.value else ""));
      var i := IndexOfKey(arr, AddrKey, Lower(tok.address));
      if i.Some? {
        arr := arr[i.value := next];
      } else {
        arr := arr + [next];
      }
      s := s[tok.chainId := arr];
      stores := stores[k := s];
    }

    /** `removeCustomToken`: keep only the entries with a different address. */
    method Remove(chainId: nat, address: Addr, account: Option<Addr>)
      modifies this
      ensures stores == old(stores)[KeyFor(account) := Removed(old(Read(account)), chainId, address)]
    {
      var k := KeyFor(account);
      var s: Store := Read(account);
      var arr := if chainId in s then s[chainId] else [];
      s := s[chainId := Filter(arr, t => AddrKey(t) != Lower(address))];
      stores := stores[k := s];
    }
  }
}
