/**
 * The manage-liquidity page's state: the listed positions, the load
 * flags and note, the search box and chain toggle, the position being
 * managed and its transaction note, with `localStorage` and the wallet's
 * transactions beside them.
 */
module ManagePage {
  import opened Common
  import opened ManageLiquidity
  import Liquidity

  datatype Page = Page(positions: seq<Position>, loading: bool, note: Option<string>, query: string,
                       onlyCurrent: bool, manageId: Option<string>, txNote: Option<string>, txBusy: bool)

  class ManagePage {
    var positions: seq<Position>
    var loading: bool
    var note: Option<string>
    var query: string
    var onlyCurrent: bool
    var manageId: Option<string>
    var txNote: Option<string>
    var txBusy: bool
    /** `localStorage`, as far as the positions lists go. */
    var storage: map<string, seq<Position>>
    /** The transactions handed to the wallet, in order. */
    var sent: seq<Tx>

    function View(): Page
      reads this
    {
      Page(positions, loading, note, query, onlyCurrent, manageId, txNote, txBusy)
    }

    /** The page as it mounts: nothing listed, loading, current network only, no position open. */
    constructor(stored: map<string, seq<Position>>)
      ensures View() == Page([], true, None, "", true, None, None, false)
      ensures storage == stored && sent == []
    {
      positions, loading, note := [], true, None;
      query, onlyCurrent := "", true;
      manageId, txNote, txBusy := None, None, false;
      storage, sent := stored, [];
    }

    /** The positions shown on `chainId`. */
    function Visible(chainId: nat): seq<Position>
      reads this
    {
      Filtered(positions, onlyCurrent, chainId, query)
    }

    /** The search box. */
    method SetQuery(q: string)
      modifies this
      ensures View() == old(View()).(query := q) && storage == old(storage) && sent == old(sent)
    {
      query := q;
    }

    /** The "Current network only" toggle. */
    method SetOnlyCurrent(b: bool)
      modifies this
      ensures View() == old(View()).(onlyCurrent := b) && storage == old(storage) && sent == old(sent)
    {
      onlyCurrent := b;
    }

    /** A card's Manage button opens the position with no note. */
    method OpenManage(id: string)
      modifies this
      ensures View() == old(View()).(manageId := Some(id), txNote := None) && storage == old(storage) && sent == old(sent)
    {
      manageId, txNote := Some(id), None;
    }

    /** The close button and the backdrop: ignored while a transaction is busy. */
    method CloseManage()
      modifies this
      ensures View() == old(View()).(manageId := if old(txBusy) then old(manageId) else None)
      ensures storage == old(storage) && sent == old(sent)
    {
      if !txBusy {
        manageId := None;
      }
    }

    /**
     * The load effect: without a connection the stored list, newest first;
     * otherwise the positions found, newest first and stored under the
     * key, with the note when none were found, or, when a path threw, its
     * message and the stored list.
     */
    method Load(e: Env, api: ApiReply, pairsLen: Reply<nat>)
      modifies this
      ensures var o := LoadOutcome(e, api, pairsLen);
        var k := Liquidity.PosKey(e.account, e.chainId);
        o.NotReady? ==> View() == old(View()).(positions := NewestFirst(Stored(old(storage), k)), loading := false, note := None)
                        && storage == old(storage)
      ensures var o := LoadOutcome(e, api, pairsLen);
        var k := Liquidity.PosKey(e.account, e.chainId);
        o.LoadFailed? ==> View() == old(View()).(positions := NewestFirst(Stored(old(storage), k)), loading := false, note := Some(o.message))
                          && storage == old(storage)
      ensures var o := LoadOutcome(e, api, pairsLen);
        var k := Liquidity.PosKey(e.account, e.chainId);
        o.Found? ==> View() == old(View()).(positions := NewestFirst(o.list), loading := false, note := o.note)
                     && storage == if k == "" then old(storage) else old(storage)[k := NewestFirst(o.list)]
      ensures sent == old(sent)
    {
      loading, note := true, None;
      var o := FindPositions(e, api, pairsLen);
      Show(Liquidity.PosKey(e.account, e.chainId), o);
    }

    /** The end of a load: what the outcome shows, stored under the key when positions were found. */
    method Show(k: string, o: Outcome)
      modifies this
      ensures o.NotReady? ==> View() == old(View()).(positions := NewestFirst(Stored(old(storage), k)), loading := false)
                              && storage == old(storage)
      ensures o.LoadFailed? ==> View() == old(View()).(positions := NewestFirst(Stored(old(storage), k)), loading := false, note := Some(o.message))
                                && storage == old(storage)
      ensures o.Found? ==> View() == old(View()).(positions := NewestFirst(o.list), loading := false, note := o.note)
                           && storage == if k == "" then old(storage) else old(storage)[k := NewestFirst(o.list)]
      ensures sent == old(sent)
    {
      if o.NotReady? {
        positions := NewestFirst(Stored(storage, k));
      } else if o.LoadFailed? {
        note := Some(o.message);
        positions := NewestFirst(Stored(storage, k));
      } else {
        note := o.note;
        positions := NewestFirst(o.list);
        if k != "" {
          storage := storage[k := positions];
        }
      }
      loading := false;
    }

    /**
     * `onConfirmRemove`: without a managed position, account, router,
     * wallet or public client only the note says which is missing;
     * otherwise the removal runs, its transactions go to the wallet, a
     * removed position is replaced by its refreshed self, the note tells
     * how it ended, and the dialog closes.
     */
    method OnConfirmRemove(e: Env, i: RemoveInput)
      modifies this
      ensures var mp := FindById(Filtered(old(positions), old(onlyCurrent), e.chainId, old(query)), old(manageId));
        !RemoveReady(e, mp) ==>
          View() == old(View()).(txNote := Some(if !Truthy(e.router) then E_NO_ROUTER else E_NOT_READY)) && sent == old(sent)
      ensures var mp := FindById(Filtered(old(positions), old(onlyCurrent), e.chainId, old(query)), old(manageId));
        RemoveReady(e, mp) ==>
          var r := RemovalOf(mp.value, e.account.value, e.router.value, i);
          && sent == old(sent) + r.calls
          && View() == old(View()).(txBusy := false, manageId := None, txNote := Some(RemoveNote(r.result)),
                                    positions := if r.result.Removed? then ReplaceById(old(positions), mp.value.id, r.result.updated)
                                                 else old(positions))
      ensures storage == old(storage)
    {
      var mp := FindById(Visible(e.chainId), manageId);
      RemoveManaged(e, mp, i);
    }

    /** `onConfirmRemove` once the managed position is looked up. */
    method RemoveManaged(e: Env, mp: Option<Position>, i: RemoveInput)
      modifies this
      ensures !RemoveReady(e, mp) ==>
        View() == old(View()).(txNote := Some(if !Truthy(e.router) then E_NO_ROUTER else E_NOT_READY)) && sent == old(sent)
      ensures RemoveReady(e, mp) ==>
        var r := RemovalOf(mp.value, e.account.value, e.router.value, i);
        && sent == old(sent) + r.calls
        && View() == old(View()).(txBusy := false, manageId := None, txNote := Some(RemoveNote(r.result)),
                                  positions := if r.result.Removed? then ReplaceById(old(positions), mp.value.id, r.result.updated)
                                               else old(positions))
      ensures storage == old(storage)
    {
      if !RemoveReady(e, mp) {
        txNote := Some(if !Truthy(e.router) then E_NO_ROUTER else E_NOT_READY);
        return;
      }
      txBusy := true;
      var r := RunRemoval(mp.value, e.account.value, e.router.value, i);
      Finish(mp.value.id, r);
    }

    /** After the removal: its transactions recorded, the position replaced when removed, the note set, the dialog closed. */
    method Finish(id: string, r: Removal)
      modifies this
      ensures sent == old(sent) + r.calls && storage == old(storage)
      ensures View() == old(View()).(txBusy := false, manageId := None, txNote := Some(RemoveNote(r.result)),
                                     positions := if r.result.Removed? then ReplaceById(old(positions), id, r.result.updated)
                                                  else old(positions))
    {
      sent := sent + r.calls;
      if r.result.Removed? {
        positions := ReplaceById(positions, id, r.result.updated);
      }
      txNote := Some(RemoveNote(r.result));
      txBusy, manageId := false, None;
    }
  }
}
