/**
 * The Swap page's token classification (wrap, unwrap, same token), the
 * 1:1 virtual quote of a wrap, the error texts, and the swap button's
 * handler `onSwapClick` with its guards, the approval step and the
 * simulate/write/wait sequence.
 *
 * Every wallet or chain call the handler makes is an event of a trace; the
 * answer it gets is an oracle `reply: Call -> Reply`. The modal and the
 * busy flag are the button's state, and the trace records every change to
 * them in order.
 */
module SwapTx {
  import opened Common
  import opened SwapRoute

  // ---------------------------------------------------------------------
  // Token selection and the wrap cases.

  /** A picker selection: the chain's native coin or a token address as typed. */
  datatype Selection = NativeCoin | TokenAt(addr: string)

  datatype Sides = Sides(
    safeIn: Option<Addr>, safeOut: Option<Addr>,
    isWrap: bool, isUnwrap: bool, sameToken: bool)

  /** `inAddr`/`outAddr` without the zero address. */
  function SafeAddr(a: Option<Addr>): (r: Option<Addr>)
    ensures r.Some? ==> a == r && r.value != ZeroAddress
    ensures a.Some? && a.value != ZeroAddress ==> r == a
  {
    if a.Some? && a.value != ZeroAddress then a else None
  }

  function SideAddr(s: Selection, wnative: Option<Addr>): Option<Addr>
  {
    match s
    case NativeCoin => wnative
    case TokenAt(a) => AsAddr(a)
  }

  /**
   * Native in and the wrapped native out is a wrap, the wrapped native in
   * and native out an unwrap; the same token on both sides of a same-chain
   * swap is refused unless it is one of those.
   */
  function Classify(srcChainId: nat, dstChainId: nat, from: Selection, to: Selection): (r: Sides)
    ensures !(r.isWrap && r.isUnwrap)
    ensures r.sameToken ==> !r.isWrap && !r.isUnwrap
    ensures r.isWrap ==> from.NativeCoin? && r.safeOut.Some? && r.safeOut == TableAddr(WNATIVE, srcChainId)
    ensures r.isUnwrap ==> from.TokenAt? && to.NativeCoin? && r.safeIn.Some? && r.safeIn == TableAddr(WNATIVE, srcChainId)
    ensures r.sameToken ==> srcChainId == dstChainId && r.safeIn.Some? && r.safeIn == r.safeOut
  {
    var wSrc := TableAddr(WNATIVE, srcChainId);
    var wDst := TableAddr(WNATIVE, dstChainId);
    var safeIn := SafeAddr(SideAddr(from, wSrc));
    var safeOut := SafeAddr(SideAddr(to, wDst));
    var isWrap := from.NativeCoin? && safeOut.Some? && wSrc.Some? && AddrEq(safeOut, wSrc);
    var isUnwrap := from.TokenAt? && to.NativeCoin? && safeIn.Some? && wSrc.Some? && AddrEq(safeIn, wSrc);
    var same := srcChainId == dstChainId && safeIn.Some? && safeOut.Some? && AddrEq(safeIn, safeOut) && !(isWrap || isUnwrap);
    AddrEqCanonical(safeOut, wSrc);
    AddrEqCanonical(safeIn, wSrc);
    AddrEqCanonical(safeIn, safeOut);
    Sides(safeIn, safeOut, isWrap, isUnwrap, same)
  }

  /** Two canonical addresses are `addrEq` exactly when they are the same string. */
  lemma AddrEqCanonical(a: Option<Addr>, b: Option<Addr>)
    requires a.Some? ==> IsLower(a.value)
    requires b.Some? ==> IsLower(b.value)
    ensures a.Some? && b.Some? && a.value != "" && b.value != "" ==> (AddrEq(a, b) <==> a == b)
  {
    if a.Some? && b.Some? {
      LowerOfLower(a.value);
      LowerOfLower(b.value);
    }
  }

  /** Native on both sides of one chain that has a wrapped native is taken for a wrap. */
  lemma NativeToNativeIsWrap(chainId: nat)
    requires chainId in WNATIVE && IsAddressText(WNATIVE[chainId])
    requires Lower(WNATIVE[chainId]) != ZeroAddress
    ensures Classify(chainId, chainId, NativeCoin, NativeCoin).isWrap
  {
    LowerIsLower(WNATIVE[chainId]);
    LowerOfLower(Lower(WNATIVE[chainId]));
  }

  /** `wrapVirtualQuote`: a wrap or unwrap of a positive amount is quoted 1:1 along the wrapped native. */
  function WrapVirtualQuote(isWrapCase: bool, amountIn: nat, wSrc: Option<Addr>): (r: Option<Quote>)
    ensures r.Some? <==> isWrapCase && amountIn > 0 && wSrc.Some?
    ensures r.Some? ==> r.value.amountOut == amountIn && r.value.amountOutMin == amountIn && r.value.path == [wSrc.value]
  {
    if isWrapCase && amountIn > 0 && wSrc.Some? then Some(Quote(V2, amountIn, amountIn, [wSrc.value], [])) else None
  }

  /** `effQuote`: the virtual wrap quote when there is one, else the router quote. */
  function EffQuote(wrap: Option<Quote>, quote: Option<Quote>): (r: Option<Quote>)
    ensures wrap.Some? ==> r == wrap
    ensures wrap.None? ==> r == quote
  {
    if wrap.Some? then wrap else quote
  }

  // ---------------------------------------------------------------------
  // Error texts.

  /**
   * `isMinOutRevert`: the message mentions the router's output check, an
   * excessive input, slippage, or merely contains the letter `k`.
   */
  function IsMinOutRevert(msg: Option<string>): bool
  {
    var m := Lower(OptionOr(msg, ""));
    Contains(m, "insufficient_output_amount") || Contains(m, "insufficient output amount")
    || Contains(m, "excessive") || Contains(m, "slippage") || Contains(m, "k")
  }

  /** Any message with a `k` in it, in either case, counts as a minimum-output revert. */
  lemma AnyKIsMinOutRevert(m: string)
    requires Contains(Lower(m), "k")
    ensures IsMinOutRevert(Some(m))
  {
  }

  /** Neither an absent nor an empty message is one. */
  lemma NoMessageIsNotMinOutRevert()
    ensures !IsMinOutRevert(None)
  {
    assert Lower("") == "";
  }

  const MSG_BAD_ADDRESS := "Invalid contract address for the selected chain. Make sure wallet & UI are on the same network."
  const MSG_REJECTED := "You rejected the transaction in your wallet."
  const MSG_WRONG_NETWORK := "Your wallet is on a different network. Switch to the selected chain and try again."
  const MSG_NO_FUNDS := "Insufficient balance to complete this transaction."
  const MSG_PRICE_MOVED := "Price moved more than your slippage tolerance."
  const MSG_ALLOWANCE := "Token allowance is insufficient."
  const MSG_DEADLINE := "Transaction deadline exceeded."
  const MSG_TX_FAILED := "Transaction failed. Please try again or adjust your settings."

  function ErrText(e: ErrInfo): string { Lower(FirstTruthy(e.shortMessage, e.message, "")) }

  predicate IsBadAddress(m: string) { Contains(m, "address") && Contains(m, "invalid") }
  predicate IsRejection(m: string) { Contains(m, "user rejected") || Contains(m, "rejected the request") }
  predicate IsWrongNetwork(m: string) { Contains(m, "chain mismatch") || Contains(m, "wrong network") || Contains(m, "switch the network") }
  predicate IsNoFunds(m: string) { Contains(m, "insufficient funds") || Contains(m, "exceeds balance") }
  predicate IsAllowance(m: string) { Contains(m, "transferhelper") || Contains(m, "allowance") }
  predicate IsDeadline(m: string) { Contains(m, "deadline") || Contains(m, "expired") }

  /**
   * `humanizeError`: the first matching pattern, in the order address,
   * rejection, network, funds, minimum output, allowance, deadline, picks
   * the text; with no match the error's own text is shown.
   */
  function HumanizeError(e: ErrInfo): (r: string)
    ensures var m := ErrText(e);
      && (IsBadAddress(m) ==> r == MSG_BAD_ADDRESS)
      && (!IsBadAddress(m) && IsRejection(m) ==> r == MSG_REJECTED)
      && (!IsBadAddress(m) && !IsRejection(m) && IsWrongNetwork(m) ==> r == MSG_WRONG_NETWORK)
      && ((!IsBadAddress(m) && !IsRejection(m) && !IsWrongNetwork(m) && !IsNoFunds(m) && !IsMinOutRevert(Some(m))
           && !IsAllowance(m) && !IsDeadline(m)) ==> r == FirstTruthy(e.shortMessage, e.message, MSG_TX_FAILED))
  {
    var m := ErrText(e);
    LowerIdempotent(FirstTruthy(e.shortMessage, e.message, ""));
    if IsBadAddress(m) then MSG_BAD_ADDRESS
    else if IsRejection(m) then MSG_REJECTED
    else if IsWrongNetwork(m) then MSG_WRONG_NETWORK
    else if IsNoFunds(m) then MSG_NO_FUNDS
    else if IsMinOutRevert(Some(m)) then MSG_PRICE_MOVED
    else if IsAllowance(m) then MSG_ALLOWANCE
    else if IsDeadline(m) then MSG_DEADLINE
    else FirstTruthy(e.shortMessage, e.message, MSG_TX_FAILED)
  }

  /**
   * Every outcome of `humanizeError`: the first matching check, in the
   * order address, rejection, network, funds, minimum output, allowance,
   * deadline, picks the text, and with no match the error's own text.
   */
  lemma HumanizeErrorOutcomes(e: ErrInfo)
    ensures var m := ErrText(e);
      var r := HumanizeError(e);
      && (IsBadAddress(m) ==> r == MSG_BAD_ADDRESS)
      && (!IsBadAddress(m) && IsRejection(m) ==> r == MSG_REJECTED)
      && (!IsBadAddress(m) && !IsRejection(m) && IsWrongNetwork(m) ==> r == MSG_WRONG_NETWORK)
      && (!IsBadAddress(m) && !IsRejection(m) && !IsWrongNetwork(m) && IsNoFunds(m) ==> r == MSG_NO_FUNDS)
      && ((!IsBadAddress(m) && !IsRejection(m) && !IsWrongNetwork(m) && !IsNoFunds(m) && IsMinOutRevert(Some(m)))
           ==> r == MSG_PRICE_MOVED)
      && ((!IsBadAddress(m) && !IsRejection(m) && !IsWrongNetwork(m) && !IsNoFunds(m) && !IsMinOutRevert(Some(m))
           && IsAllowance(m)) ==> r == MSG_ALLOWANCE)
      && ((!IsBadAddress(m) && !IsRejection(m) && !IsWrongNetwork(m) && !IsNoFunds(m) && !IsMinOutRevert(Some(m))
           && !IsAllowance(m) && IsDeadline(m)) ==> r == MSG_DEADLINE)
      && ((!IsBadAddress(m) && !IsRejection(m) && !IsWrongNetwork(m) && !IsNoFunds(m) && !IsMinOutRevert(Some(m))
           && !IsAllowance(m) && !IsDeadline(m)) ==> r == FirstTruthy(e.shortMessage, e.message, MSG_TX_FAILED))
  {
  }

  /** The wallet's own text is shown only when it matches none of the patterns. */
  lemma HumanizeShowsOwnTextOnlyUnmatched(e: ErrInfo)
    requires HumanizeError(e) !in {MSG_BAD_ADDRESS, MSG_REJECTED, MSG_WRONG_NETWORK, MSG_NO_FUNDS, MSG_PRICE_MOVED, MSG_ALLOWANCE, MSG_DEADLINE}
    ensures var m := ErrText(e);
      !IsBadAddress(m) && !IsRejection(m) && !IsWrongNetwork(m) && !IsNoFunds(m)
      && !IsMinOutRevert(Some(m)) && !IsAllowance(m) && !IsDeadline(m)
    ensures HumanizeError(e) == FirstTruthy(e.shortMessage, e.message, MSG_TX_FAILED)
  {
  }

  // ---------------------------------------------------------------------
  // `ensureChain`.

  /** An answer from the wallet or the chain: a value (or just success), or a thrown error. */
  datatype Reply = Ok(value: nat) | Err(e: ErrInfo)

  /** `String(e?.message || e).toLowerCase()` for a thrown value with error fields `e` and `String(e)` text. */
  function SwitchText(e: ErrInfo, text: string): string
  {
    Lower(FirstTruthy(e.message, Some(text), ""))
  }

  function ManualSwitch(target: nat, targetName: Option<string>): ErrInfo
  {
    var name := if targetName.Some? then targetName.value else "chain " + NatToString(target);
    ErrInfo(None, Some("Please manually switch your wallet to " + name + "."))
  }

  /**
   * The error `ensureChain` throws, if any: none on the right chain or after
   * a successful switch; a user's rejection is passed through and every
   * other failure, or a wallet that cannot switch, asks for a manual switch.
   */
  function EnsureChain(current: nat, target: nat, canSwitch: bool, switchReply: Reply, switchText: string,
                       targetName: Option<string>): (r: Option<ErrInfo>)
    ensures r.None? <==> current == target || (canSwitch && switchReply.Ok?)
    ensures (canSwitch && current != target && switchReply.Err?
             && Contains(SwitchText(switchReply.e, switchText), "user rejected")) ==> r == Some(switchReply.e)
    ensures (canSwitch && current != target && switchReply.Err?
             && !Contains(SwitchText(switchReply.e, switchText), "user rejected")) ==> r == Some(ManualSwitch(target, targetName))
    ensures current != target && !canSwitch ==> r == Some(ManualSwitch(target, targetName))
  {
    if current == target then None
    else if canSwitch then
      match switchReply
      case Ok(_) => None
      case Err(e) =>
        if Contains(SwitchText(e, switchText), "user rejected") then Some(e) else Some(ManualSwitch(target, targetName))
    else Some(ManualSwitch(target, targetName))
  }

  // ---------------------------------------------------------------------
  // `onSwapClick` as a trace of events.

  // Texts the handler shows.
  const T_TX_FAILED := "Transaction failed"
  const T_CROSS := "Cross-chain disabled"
  const S_CROSS := "CROSS CHAIN IS COMING SOON"
  const T_BAD_SLIPPAGE := "Invalid slippage"
  const T_WRAPPING := "Wrapping…"
  const T_UNWRAPPING := "Unwrapping…"
  const S_CONFIRM_WALLET := "Confirm in your wallet"
  const T_PROCESSING := "Processing…"
  const T_WRAPPED := "Wrapped"
  const T_UNWRAPPED := "Unwrapped"
  const T_NO_ROUTE := "Route not available"
  const S_NO_ROUTE := "Liquidity is missing or slippage is too strict."
  const T_BAD_ROUTE := "Invalid route/slippage"
  const S_BAD_ROUTE := "Increase slippage or change token pair."
  const T_SLIPPAGE_LOW := "Slippage too low"
  const S_SLIPPAGE_LOW := "Minimum received exceeds the estimate. Increase slippage or switch to AUTO."
  const T_NO_ROUTER := "Router not configured"
  const S_NO_ROUTER := "V2 router is not configured for this chain."
  const T_BAD_PATH := "Invalid path"
  const S_BAD_PATH := "Token path is invalid for the selected chain."
  const T_APPROVE := "Approve token"
  const S_APPROVE := "Please confirm the token approval in your wallet…"
  const E_BAD_INPUT := "Input token address invalid."
  const S_SIM_SLIPPAGE := "Price moved beyond your slippage. Increase slippage or reduce amount."
  const S_SIM_FAILED := "This transaction would likely fail."
  const T_SIM_FAILED := "Simulation failed"
  const T_WAITING := "Waiting for confirmation"
  const S_WAITING := "Please confirm the transaction in your wallet…"
  const S_PENDING := "Your transaction is being confirmed on-chain."
  const T_CONFIRMED := "Confirmed"
  const S_CONFIRMED := "Your swap was successfully confirmed."


  datatype SwapFn = ETHForTokens | TokensForETH | TokensForTokens

  datatype Call =
    | SwitchChain(chainId: nat)
    | SimulateDeposit(wnative: Addr, value: nat)
    | SimulateWithdraw(wnative: Addr, amount: nat)
    | ReadAllowance(token: Addr, spender: Addr)
    | Approve(token: Addr, spender: Addr, amount: nat)
    | WaitApprove
    | SimulateSwap(fn: SwapFn, router: Addr, amountIn: nat, amountOutMin: int, path: Path, deadline: int)
    | WriteTx
    | WaitTx

  datatype ModalKind = Waiting | Pending | Succeeded | Errored

  datatype Modal = Modal(kind: ModalKind, title: string, subtitle: Option<string>)

  datatype Event = Do(call: Call) | Show(modal: Modal) | Hide | SetBusy(busy: bool)

  /**
   * What the handler sees when the button is pressed. `amountIn` is what
   * `parseUnits(amount || "0", decimals)` returns, and `parseThrew` what it
   * throws instead, if it does. `switchText` is `String(e)` of what
   * `switchChain` throws, when it throws.
   */
  datatype ClickInput = ClickInput(
    swapEnabled: bool, insufficient: bool, walletReady: bool,
    srcChainId: nat, currentChain: nat, canSwitch: bool, switchText: string, targetName: Option<string>,
    isCross: bool, slippageError: Option<string>, parseThrew: Option<ErrInfo>, amountIn: nat,
    isWrapCase: bool, isWrap: bool, wnative: Option<Addr>,
    effQuote: Option<Quote>, router: Option<Addr>,
    isNativeIn: bool, isNativeOut: bool, safeIn: Option<Addr>,
    now: int, deadlineMin: int)

  function NoWrappedNative(chainId: nat): ErrInfo
  {
    ErrInfo(None, Some("Wrapped native not configured for chain " + NatToString(chainId) + "."))
  }

  function ShowError(title: string, subtitle: string): Event { Show(Modal(Errored, title, Some(subtitle))) }

  function TxFailed(e: ErrInfo): Event { ShowError(T_TX_FAILED, HumanizeError(e)) }

  /** The chain check: the switch call it may make, and the error it may throw. */
  function ChainEvents(c: ClickInput, reply: Call -> Reply): seq<Event>
  {
    if c.currentChain != c.srcChainId && c.canSwitch then [Do(SwitchChain(c.srcChainId))] else []
  }

  function ChainError(c: ClickInput, reply: Call -> Reply): Option<ErrInfo>
  {
    EnsureChain(c.currentChain, c.srcChainId, c.canSwitch, reply(SwitchChain(c.srcChainId)), c.switchText, c.targetName)
  }

  /** Write the prepared transaction, wait for its receipt, and report each stage in the modal; `after` follows the confirmation. */
  function WriteAndWait(waiting: Modal, pending: Modal, confirmed: Modal, release: bool, reply: Call -> Reply): seq<Event>
  {
    [SetBusy(true), Show(waiting), Do(WriteTx)] + AfterWrite(pending, confirmed, release, reply)
  }

  function AfterWrite(pending: Modal, confirmed: Modal, release: bool, reply: Call -> Reply): seq<Event>
  {
    if reply(WriteTx).Err? then [TxFailed(reply(WriteTx).e)]
    else if reply(WaitTx).Err? then [Show(pending), Do(WaitTx), TxFailed(reply(WaitTx).e)]
    else if release then [Show(pending), Do(WaitTx), Show(confirmed), SetBusy(false)]
    else [Show(pending), Do(WaitTx), Show(confirmed)]
  }

  function WrapCall(c: ClickInput): Call
    requires c.wnative.Some?
  {
    if c.isWrap then SimulateDeposit(c.wnative.value, c.amountIn) else SimulateWithdraw(c.wnative.value, c.amountIn)
  }

  /** The deposit or withdrawal on the wrapped native, then write, wait and report. */
  function WrapEvents(c: ClickInput, reply: Call -> Reply): seq<Event>
  {
    if c.wnative.None? then
      [TxFailed(NoWrappedNative(c.srcChainId))]
    else if reply(WrapCall(c)).Err? then [Do(WrapCall(c)), TxFailed(reply(WrapCall(c)).e)]
    else
      [Do(WrapCall(c))] + WriteAndWait(Modal(Waiting, if c.isWrap then T_WRAPPING else T_UNWRAPPING, Some(S_CONFIRM_WALLET)),
                                       Modal(Pending, T_PROCESSING, None),
                                       Modal(Succeeded, if c.isWrap then T_WRAPPED else T_UNWRAPPED, None),
                                       true, reply)
  }

  /** Among the checks on the quote, the first that fails, as the title and subtitle it shows. */
  function QuoteProblem(c: ClickInput): (r: Option<(string, string)>)
    ensures r.None? ==> (c.effQuote.Some? && c.effQuote.value.amountOut > 0 && c.effQuote.value.amountOutMin > 0
                         && c.effQuote.value.amountOut >= c.effQuote.value.amountOutMin && c.router.Some? && |c.effQuote.value.path| > 0)
  {
    if c.effQuote.None? then Some((T_NO_ROUTE, S_NO_ROUTE))
    else
      var q := c.effQuote.value;
      if q.amountOut <= 0 || q.amountOutMin <= 0 then Some((T_BAD_ROUTE, S_BAD_ROUTE))
      else if q.amountOut < q.amountOutMin then Some((T_SLIPPAGE_LOW, S_SLIPPAGE_LOW))
      else if c.router.None? then Some((T_NO_ROUTER, S_NO_ROUTER))
      else if |q.path| == 0 then Some((T_BAD_PATH, S_BAD_PATH))
      else None
  }

  /** An ERC-20 input needs approval exactly when the router's allowance is below the amount. */
  predicate NeedsApproval(c: ClickInput, reply: Call -> Reply)
    requires c.router.Some?
  {
    !c.isNativeIn && c.safeIn.Some? && reply(ReadAllowance(c.safeIn.value, c.router.value)).Ok?
    && reply(ReadAllowance(c.safeIn.value, c.router.value)).value < c.amountIn
  }

  /** The allowance read and the approval with its receipt. */
  function ApproveEvents(c: ClickInput, reply: Call -> Reply): seq<Event>
    requires c.router.Some?
  {
    if c.isNativeIn || c.safeIn.None? then []
    else
      var read := ReadAllowance(c.safeIn.value, c.router.value);
      if reply(read).Err? || reply(read).value >= c.amountIn then [Do(read)]
      else
        var approve := Approve(c.safeIn.value, c.router.value, MaxUint256);
        var s := [Do(read), Show(Modal(Waiting, T_APPROVE, Some(S_APPROVE))), Do(approve)];
        if reply(approve).Err? then s
        else if reply(WaitApprove).Err? then s + [Do(WaitApprove)]
        else s + [Do(WaitApprove), Hide]
  }

  /** The error the approval step throws, if any. */
  function ApproveError(c: ClickInput, reply: Call -> Reply): Option<ErrInfo>
    requires c.router.Some?
  {
    if c.isNativeIn then None
    else if c.safeIn.None? then Some(ErrInfo(None, Some(E_BAD_INPUT)))
    else
      var read := ReadAllowance(c.safeIn.value, c.router.value);
      if reply(read).Err? then Some(reply(read).e)
      else if reply(read).value >= c.amountIn then None
      else
        var approve := Approve(c.safeIn.value, c.router.value, MaxUint256);
        if reply(approve).Err? then Some(reply(approve).e)
        else if reply(WaitApprove).Err? then Some(reply(WaitApprove).e)
        else None
  }

  function Deadline(c: ClickInput): int { c.now + Max(1, c.deadlineMin) * 60 }

  function SwapCall(c: ClickInput): Call
    requires c.effQuote.Some? && c.router.Some?
  {
    var fn := if c.isNativeIn then ETHForTokens else if c.isNativeOut then TokensForETH else TokensForTokens;
    SimulateSwap(fn, c.router.value, c.amountIn, c.effQuote.value.amountOutMin, c.effQuote.value.path, Deadline(c))
  }

  /** `simErr.shortMessage || simErr.message || …`, or the slippage hint for a minimum-output revert. */
  function SimulationSubtitle(e: ErrInfo): string
  {
    if IsMinOutRevert(e.message) then S_SIM_SLIPPAGE
    else FirstTruthy(e.shortMessage, e.message, S_SIM_FAILED)
  }

  /** The simulation, then write, wait and confirm. */
  function SubmitEvents(c: ClickInput, reply: Call -> Reply): seq<Event>
    requires c.effQuote.Some? && c.router.Some?
  {
    var sim := SwapCall(c);
    if reply(sim).Err? then [Do(sim), ShowError(T_SIM_FAILED, SimulationSubtitle(reply(sim).e))]
    else
      [Do(sim)] + WriteAndWait(Modal(Waiting, T_WAITING, Some(S_WAITING)), Modal(Pending, T_PROCESSING, Some(S_PENDING)),
                               Modal(Succeeded, T_CONFIRMED, Some(S_CONFIRMED)), false, reply)
  }

  /** The router swap after the quote checks pass. */
  function SwapEvents(c: ClickInput, reply: Call -> Reply): seq<Event>
  {
    var p := QuoteProblem(c);
    if p.Some? then [ShowError(p.value.0, p.value.1)]
    else ApproveEvents(c, reply) + AfterApproval(c, reply)
  }

  /** The approval error, or else the submission. */
  function AfterApproval(c: ClickInput, reply: Call -> Reply): seq<Event>
    requires c.effQuote.Some? && c.router.Some?
  {
    var err := ApproveError(c, reply);
    if err.Some? then [TxFailed(err.value)] else SubmitEvents(c, reply)
  }

  /** Everything inside the handler's `try`, before `finally`. */
  function BodyEvents(c: ClickInput, reply: Call -> Reply): seq<Event>
  {
    ChainEvents(c, reply) + BodyTail(c, reply)
  }

  /** After the chain switch: the early refusals, then the wrap or the router swap. */
  function BodyTail(c: ClickInput, reply: Call -> Reply): seq<Event>
  {
    var err := ChainError(c, reply);
    if err.Some? then [TxFailed(err.value)]
    else if c.isCross then [ShowError(T_CROSS, S_CROSS)]
    else if c.slippageError.Some? then [ShowError(T_BAD_SLIPPAGE, c.slippageError.value)]
    else if c.parseThrew.Some? then [TxFailed(c.parseThrew.value)]
    else if c.isWrapCase then WrapEvents(c, reply)
    else SwapEvents(c, reply)
  }

  /** The whole handler: nothing when the button is disabled, else the body and the `finally` reset of busy. */
  function ClickTrace(c: ClickInput, reply: Call -> Reply): seq<Event>
  {
    if !c.swapEnabled || c.insufficient then []
    else if !c.walletReady then [SetBusy(false)]
    else BodyEvents(c, reply) + [SetBusy(false)]
  }

  // ---------------------------------------------------------------------
  // Properties of the handler.

  predicate IsWrite(e: Event) { e.Do? && (e.call.WriteTx? || e.call.Approve? || e.call.SimulateSwap?) }

  predicate IsApprove(e: Event) { e.Do? && e.call.Approve? }

  predicate NoWrite(es: seq<Event>) { forall i :: 0 <= i < |es| ==> !IsWrite(es[i]) }

  predicate NoApprove(es: seq<Event>) { forall i :: 0 <= i < |es| ==> !IsApprove(es[i]) }

  lemma NoWriteAppend(a: seq<Event>, b: seq<Event>)
    requires NoWrite(a) && NoWrite(b)
    ensures NoWrite(a + b)
  {
    forall i | 0 <= i < |a + b| ensures !IsWrite((a + b)[i]) {
      if i >= |a| { assert (a + b)[i] == b[i - |a|]; }
    }
  }

  lemma NoApproveAppend(a: seq<Event>, b: seq<Event>)
    requires NoApprove(a) && NoApprove(b)
    ensures NoApprove(a + b)
  {
    forall i | 0 <= i < |a + b| ensures !IsApprove((a + b)[i]) {
      if i >= |a| { assert (a + b)[i] == b[i - |a|]; }
    }
  }

  lemma AppendAssoc<T>(a: seq<T>, b: seq<T>, c: seq<T>)
    ensures a + b + c == a + (b + c)
  {
  }

  lemma WrapEventsNoApprove(c: ClickInput, reply: Call -> Reply)
    ensures NoApprove(WrapEvents(c, reply))
  {
  }

  lemma SubmitEventsNoApprove(c: ClickInput, reply: Call -> Reply)
    requires c.effQuote.Some? && c.router.Some?
    ensures NoApprove(SubmitEvents(c, reply))
  {
  }

  /** The approval step makes only approvals of `maxUint256` to the router, and only when the allowance falls short. */
  lemma ApproveEventsShape(c: ClickInput, reply: Call -> Reply)
    requires c.router.Some?
    ensures forall i :: 0 <= i < |ApproveEvents(c, reply)| && IsApprove(ApproveEvents(c, reply)[i]) ==>
      NeedsApproval(c, reply) && ApproveEvents(c, reply)[i].call == Approve(c.safeIn.value, c.router.value, MaxUint256)
  {
  }

  /** Without a usable quote nothing is approved, simulated or written on a router swap. */
  lemma NoSubmitWithoutValidQuote(c: ClickInput, reply: Call -> Reply)
    requires !c.isWrapCase
    requires c.effQuote.None? || c.effQuote.value.amountOut <= 0 || c.effQuote.value.amountOutMin <= 0
      || c.effQuote.value.amountOut < c.effQuote.value.amountOutMin
    ensures NoWrite(ClickTrace(c, reply))
  {
    if c.swapEnabled && !c.insufficient && c.walletReady {
      assert QuoteProblem(c).Some?;
      TailNoWrite(c, reply);
      assert NoWrite(ChainEvents(c, reply));
      NoWriteAppend(ChainEvents(c, reply), BodyTail(c, reply));
      NoWriteAppend(BodyEvents(c, reply), [SetBusy(false)]);
    }
  }

  /**
   * An amount `parseUnits` throws on, past the chain check and the early
   * refusals, ends the click in the failure modal with the humanized error
   * and writes nothing.
   */
  lemma ParseFailureShown(c: ClickInput, reply: Call -> Reply)
    requires c.swapEnabled && !c.insufficient && c.walletReady
    requires ChainError(c, reply).None? && !c.isCross && c.slippageError.None? && c.parseThrew.Some?
    ensures ClickTrace(c, reply) == ChainEvents(c, reply) + [TxFailed(c.parseThrew.value), SetBusy(false)]
    ensures NoWrite(ClickTrace(c, reply))
  {
    assert NoWrite(ChainEvents(c, reply));
    NoWriteAppend(ChainEvents(c, reply), [TxFailed(c.parseThrew.value), SetBusy(false)]);
  }

  lemma TailNoWrite(c: ClickInput, reply: Call -> Reply)
    requires !c.isWrapCase && QuoteProblem(c).Some?
    ensures NoWrite(BodyTail(c, reply))
  {
  }

  /** Before the approval step, and after it, the handler approves nothing. */
  lemma AfterApprovalNoApprove(c: ClickInput, reply: Call -> Reply)
    requires c.effQuote.Some? && c.router.Some?
    ensures NoApprove(AfterApproval(c, reply))
  {
    if ApproveError(c, reply).None? {
      SubmitEventsNoApprove(c, reply);
    }
  }

  /** Unless the run reaches the approval step of a router swap, its body contains no approval. */
  lemma BodyNoApproveUnlessSwap(c: ClickInput, reply: Call -> Reply)
    requires ChainError(c, reply).Some? || c.isCross || c.slippageError.Some? || c.parseThrew.Some? || c.isWrapCase || QuoteProblem(c).Some?
    ensures NoApprove(BodyEvents(c, reply))
  {
    if ChainError(c, reply).None? && !c.isCross && c.slippageError.None? && c.parseThrew.None? && c.isWrapCase {
      WrapEventsNoApprove(c, reply);
    }
    assert NoApprove(ChainEvents(c, reply));
    assert NoApprove(BodyTail(c, reply));
    NoApproveAppend(ChainEvents(c, reply), BodyTail(c, reply));
  }

  /** An approval found in `a + b` where `a` approves nothing lies in `b`. */
  lemma ApprovalInSuffix(a: seq<Event>, b: seq<Event>, i: nat)
    requires NoApprove(a) && i < |a + b| && IsApprove((a + b)[i])
    ensures |a| <= i && (a + b)[i] == b[i - |a|]
  {
  }

  /** An approval found in `a + b` where `b` approves nothing lies in `a`. */
  lemma ApprovalInPrefix(a: seq<Event>, b: seq<Event>, i: nat)
    requires NoApprove(b) && i < |a + b| && IsApprove((a + b)[i])
    ensures i < |a| && (a + b)[i] == a[i]
  {
  }

  /** Every approval is of `maxUint256` to the router, for an ERC-20 input whose allowance was read below the amount. */
  lemma ApproveOnlyWhenNeeded(c: ClickInput, reply: Call -> Reply, i: nat)
    requires i < |ClickTrace(c, reply)| && IsApprove(ClickTrace(c, reply)[i])
    ensures c.router.Some? && NeedsApproval(c, reply)
    ensures ClickTrace(c, reply)[i].call == Approve(c.safeIn.value, c.router.value, MaxUint256)
  {
    assert c.swapEnabled && !c.insufficient && c.walletReady;
    var body := BodyEvents(c, reply);
    assert ClickTrace(c, reply) == body + [SetBusy(false)];
    ApprovalInPrefix(body, [SetBusy(false)], i);
    if ChainError(c, reply).Some? || c.isCross || c.slippageError.Some? || c.parseThrew.Some? || c.isWrapCase || QuoteProblem(c).Some? {
      BodyNoApproveUnlessSwap(c, reply);
      assert false;
    }
    ApproveInSwapBody(c, reply, i);
  }

  lemma ApproveInSwapBody(c: ClickInput, reply: Call -> Reply, i: nat)
    requires ChainError(c, reply).None? && !c.isCross && c.slippageError.None? && c.parseThrew.None? && !c.isWrapCase && QuoteProblem(c).None?
    requires i < |BodyEvents(c, reply)| && IsApprove(BodyEvents(c, reply)[i])
    ensures c.router.Some? && NeedsApproval(c, reply)
    ensures BodyEvents(c, reply)[i].call == Approve(c.safeIn.value, c.router.value, MaxUint256)
  {
    var ch := ChainEvents(c, reply);
    var a := ApproveEvents(c, reply);
    var tail := AfterApproval(c, reply);
    assert BodyTail(c, reply) == a + tail;
    assert NoApprove(ch);
    ApprovalInSuffix(ch, a + tail, i);
    AfterApprovalNoApprove(c, reply);
    ApprovalInPrefix(a, tail, i - |ch|);
    ApproveEventsShape(c, reply);
  }

  /** When the allowance falls short, the approval of `maxUint256` is made, its receipt awaited, and only then is the swap simulated. */
  lemma ApproveThenWaitThenSimulate(c: ClickInput, reply: Call -> Reply)
    requires c.swapEnabled && !c.insufficient && c.walletReady
    requires ChainError(c, reply).None? && !c.isCross && c.slippageError.None? && c.parseThrew.None? && !c.isWrapCase
    requires QuoteProblem(c).None? && NeedsApproval(c, reply)
    requires reply(Approve(c.safeIn.value, c.router.value, MaxUint256)).Ok? && reply(WaitApprove).Ok?
    ensures var t := ClickTrace(c, reply);
      exists i :: 0 <= i && i + 3 < |t| && t[i] == Do(Approve(c.safeIn.value, c.router.value, MaxUint256))
        && t[i + 1] == Do(WaitApprove) && t[i + 2] == Hide && t[i + 3] == Do(SwapCall(c))
  {
    var t := ClickTrace(c, reply);
    var ch := ChainEvents(c, reply);
    var a := ApproveEvents(c, reply);
    var s := SubmitEvents(c, reply);
    var approve := Approve(c.safeIn.value, c.router.value, MaxUint256);
    var read := ReadAllowance(c.safeIn.value, c.router.value);
    assert a == [Do(read), Show(Modal(Waiting, T_APPROVE, Some(S_APPROVE))), Do(approve)] + [Do(WaitApprove), Hide];
    assert ApproveError(c, reply).None?;
    assert SwapEvents(c, reply) == a + s;
    assert t == ch + (a + s) + [SetBusy(false)];
    assert s[0] == Do(SwapCall(c));
    var i := |ch| + 2;
    assert t[i] == a[2] && t[i + 1] == a[3] && t[i + 2] == a[4] && t[i + 3] == s[0];
  }

  /** A native input is never approved; it goes straight to the simulation with the amount as value. */
  lemma NativeInputSkipsApproval(c: ClickInput, reply: Call -> Reply)
    requires c.isNativeIn && c.router.Some?
    ensures ApproveEvents(c, reply) == [] && ApproveError(c, reply).None?
    ensures c.effQuote.Some? ==> SwapCall(c).fn == ETHForTokens
  {
  }

  /** The handler always ends with busy cleared once it gets past the enabled check. */
  lemma ClickEndsIdle(c: ClickInput, reply: Call -> Reply)
    requires c.swapEnabled && !c.insufficient
    ensures |ClickTrace(c, reply)| > 0 && ClickTrace(c, reply)[|ClickTrace(c, reply)| - 1] == SetBusy(false)
  {
  }

  // ---------------------------------------------------------------------
  // The button's state.

  datatype Ui = Ui(busy: bool, open: bool, modal: Modal)

  function StepUi(u: Ui, e: Event): Ui
  {
    match e
    case Do(_) => u
    case Show(m) => Ui(u.busy, true, m)
    case Hide => u.(open := false)
    case SetBusy(b) => u.(busy := b)
  }

  function Replay(u: Ui, es: seq<Event>): Ui
  {
    if |es| == 0 then u else StepUi(Replay(u, es[..|es| - 1]), es[|es| - 1])
  }

  lemma {:induction false} ReplayAppend(u: Ui, a: seq<Event>, b: seq<Event>)
    ensures Replay(u, a + b) == Replay(Replay(u, a), b)
    decreases |b|
  {
    if |b| > 0 {
      assert (a + b)[..|a + b| - 1] == a + b[..|b| - 1];
      assert (a + b)[|a + b| - 1] == b[|b| - 1];
      ReplayAppend(u, a, b[..|b| - 1]);
    } else {
      assert a + b == a;
    }
  }

  /** A handler run that gets past the enabled check leaves the button idle, whatever the oracles answer. */
  lemma ClickLeavesIdle(u: Ui, c: ClickInput, reply: Call -> Reply)
    requires c.swapEnabled && !c.insufficient
    ensures !Replay(u, ClickTrace(c, reply)).busy
  {
    ClickEndsIdle(c, reply);
  }

  /** The swap button: the busy flag, the transaction modal, and the calls made so far. */
  class SwapButton {
    var busy: bool
    var open: bool
    var modal: Modal
    var log: seq<Event>

    constructor()
      ensures !busy && !open && modal == Modal(Waiting, "", None) && log == []
    {
      busy := false;
      open := false;
      modal := Modal(Waiting, "", None);
      log := [];
    }

    function State(): Ui
      reads this
    {
      Ui(busy, open, modal)
    }

    /** One step of the handler: the event is logged and the state follows it. */
    method Emit(e: Event, ghost base: seq<Event>, ghost start: Ui, ghost done: seq<Event>) returns (ghost done': seq<Event>)
      requires log == base + done && State() == Replay(start, done)
      modifies this
      ensures done' == done + [e]
      ensures log == base + done' && State() == Replay(start, done')
    {
      log := log + [e];
      match e {
        case Do(_) =>
        case Show(m) => open := true; modal := m;
        case Hide => open := false;
        case SetBusy(b) => busy := b;
      }
      done' := done + [e];
      assert done'[..|done'| - 1] == done;
      assert log == base + done';
    }

    /** `onSwapClick`, step by step. */
    method Click(c: ClickInput, reply: Call -> Reply)
      modifies this
      ensures log == old(log) + ClickTrace(c, reply)
      ensures State() == Replay(old(State()), ClickTrace(c, reply))
    {
      if !c.swapEnabled || c.insufficient { return; }
      ghost var start := State();
      ghost var base := log;
      ghost var d: seq<Event> := [];
      assert log == base + d;
      if !c.walletReady {
        d := Emit(SetBusy(false), base, start, d);
        assert d == ClickTrace(c, reply);
        return;
      }
      d := RunBody(c, reply, base, start, d);
      assert d == BodyEvents(c, reply);
      d := Emit(SetBusy(false), base, start, d);
      assert d == ClickTrace(c, reply);
    }

    /** The `try` block: chain check, early refusals, then the wrap or the router swap. */
    method RunBody(c: ClickInput, reply: Call -> Reply, ghost base: seq<Event>, ghost start: Ui, ghost done: seq<Event>) returns (ghost done': seq<Event>)
      requires log == base + done && State() == Replay(start, done)
      modifies this
      ensures done' == done + BodyEvents(c, reply)
      ensures log == base + done' && State() == Replay(start, done')
    {
      var d := done;
      if c.currentChain != c.srcChainId && c.canSwitch {
        d := Emit(Do(SwitchChain(c.srcChainId)), base, start, d);
      }
      ghost var ch := ChainEvents(c, reply);
      assert d == done + ch;
      var err := EnsureChain(c.currentChain, c.srcChainId, c.canSwitch, reply(SwitchChain(c.srcChainId)), c.switchText, c.targetName);
      ghost var rest: seq<Event>;
      if err.Some? {
        d := Emit(TxFailed(err.value), base, start, d);
        rest := [TxFailed(err.value)];
      } else if c.isCross {
        d := Emit(ShowError(T_CROSS, S_CROSS), base, start, d);
        rest := [ShowError(T_CROSS, S_CROSS)];
      } else if c.slippageError.Some? {
        d := Emit(ShowError(T_BAD_SLIPPAGE, c.slippageError.value), base, start, d);
        rest := [ShowError(T_BAD_SLIPPAGE, c.slippageError.value)];
      } else if c.parseThrew.Some? {
        d := Emit(TxFailed(c.parseThrew.value), base, start, d);
        rest := [TxFailed(c.parseThrew.value)];
      } else if c.isWrapCase {
        d := RunWrap(c, reply, base, start, d);
        rest := WrapEvents(c, reply);
      } else {
        d := RunSwap(c, reply, base, start, d);
        rest := SwapEvents(c, reply);
      }
      assert BodyTail(c, reply) == rest;
      AppendAssoc(done, ch, rest);
      done' := d;
    }

    /** Deposit or withdraw on the wrapped native. */
    method RunWrap(c: ClickInput, reply: Call -> Reply, ghost base: seq<Event>, ghost start: Ui, ghost done: seq<Event>) returns (ghost done': seq<Event>)
      requires log == base + done && State() == Replay(start, done)
      modifies this
      ensures done' == done + WrapEvents(c, reply)
      ensures log == base + done' && State() == Replay(start, done')
    {
      if c.wnative.None? {
        done' := Emit(TxFailed(NoWrappedNative(c.srcChainId)), base, start, done);
        assert WrapEvents(c, reply) == [TxFailed(NoWrappedNative(c.srcChainId))];
        return;
      }
      var sim := if c.isWrap then SimulateDeposit(c.wnative.value, c.amountIn) else SimulateWithdraw(c.wnative.value, c.amountIn);
      var d := Emit(Do(sim), base, start, done);
      var r := reply(sim);
      if r.Err? {
        done' := Emit(TxFailed(r.e), base, start, d);
        assert WrapEvents(c, reply) == [Do(sim), TxFailed(r.e)];
        assert done' == done + [Do(sim), TxFailed(r.e)];
        return;
      }
      var waiting := Modal(Waiting, if c.isWrap then T_WRAPPING else T_UNWRAPPING, Some(S_CONFIRM_WALLET));
      var pending := Modal(Pending, T_PROCESSING, None);
      var confirmed := Modal(Succeeded, if c.isWrap then T_WRAPPED else T_UNWRAPPED, None);
      done' := RunWriteAndWait(waiting, pending, confirmed, true, reply, base, start, d);
      AppendAssoc(done, [Do(sim)], WriteAndWait(waiting, pending, confirmed, true, reply));
      assert WrapEvents(c, reply) == [Do(sim)] + WriteAndWait(waiting, pending, confirmed, true, reply);
    }

    /** Send the transaction, await its receipt, and show each stage; `release` clears busy after the confirmation. */
    method RunWriteAndWait(waiting: Modal, pending: Modal, confirmed: Modal, release: bool, reply: Call -> Reply,
                           ghost base: seq<Event>, ghost start: Ui, ghost done: seq<Event>) returns (ghost done': seq<Event>)
      requires log == base + done && State() == Replay(start, done)
      modifies this
      ensures done' == done + WriteAndWait(waiting, pending, confirmed, release, reply)
      ensures log == base + done' && State() == Replay(start, done')
    {
      var d := Emit(SetBusy(true), base, start, done);
      d := Emit(Show(waiting), base, start, d);
      d := Emit(Do(WriteTx), base, start, d);
      assert d == done + [SetBusy(true), Show(waiting), Do(WriteTx)];
      done' := RunAfterWrite(pending, confirmed, release, reply, base, start, d);
    }

    method RunAfterWrite(pending: Modal, confirmed: Modal, release: bool, reply: Call -> Reply,
                         ghost base: seq<Event>, ghost start: Ui, ghost done: seq<Event>) returns (ghost done': seq<Event>)
      requires log == base + done && State() == Replay(start, done)
      modifies this
      ensures done' == done + AfterWrite(pending, confirmed, release, reply)
      ensures log == base + done' && State() == Replay(start, done')
    {
      var r := reply(WriteTx);
      if r.Err? {
        done' := Emit(TxFailed(r.e), base, start, done);
        assert done' == done + [TxFailed(r.e)];
        return;
      }
      var d := Emit(Show(pending), base, start, done);
      d := Emit(Do(WaitTx), base, start, d);
      assert d == done + [Show(pending), Do(WaitTx)];
      r := reply(WaitTx);
      if r.Err? {
        done' := Emit(TxFailed(r.e), base, start, d);
        assert done' == done + [Show(pending), Do(WaitTx), TxFailed(r.e)];
        return;
      }
      d := Emit(Show(confirmed), base, start, d);
      if release {
        d := Emit(SetBusy(false), base, start, d);
        assert d == done + [Show(pending), Do(WaitTx), Show(confirmed), SetBusy(false)];
      } else {
        assert d == done + [Show(pending), Do(WaitTx), Show(confirmed)];
      }
      done' := d;
    }

    /** The quote checks, the approval, then simulate, write and wait. */
    method RunSwap(c: ClickInput, reply: Call -> Reply, ghost base: seq<Event>, ghost start: Ui, ghost done: seq<Event>) returns (ghost done': seq<Event>)
      requires log == base + done && State() == Replay(start, done)
      modifies this
      ensures done' == done + SwapEvents(c, reply)
      ensures log == base + done' && State() == Replay(start, done')
    {
      var d := done;
      var p := QuoteProblem(c);
      if p.Some? {
        d := Emit(ShowError(p.value.0, p.value.1), base, start, d);
        return d;
      }
      var err: Option<ErrInfo>;
      d, err := RunApprove(c, reply, base, start, d);
      ghost var a := ApproveEvents(c, reply);
      if err.Some? {
        d := Emit(TxFailed(err.value), base, start, d);
        AppendAssoc(done, a, [TxFailed(err.value)]);
        assert SwapEvents(c, reply) == a + [TxFailed(err.value)];
        return d;
      }
      d := RunSubmit(c, reply, base, start, d);
      AppendAssoc(done, a, SubmitEvents(c, reply));
      assert SwapEvents(c, reply) == a + SubmitEvents(c, reply);
      done' := d;
    }

    /** The allowance read and, when it falls short, the approval of `maxUint256` and its receipt. */
    method RunApprove(c: ClickInput, reply: Call -> Reply, ghost base: seq<Event>, ghost start: Ui, ghost done: seq<Event>)
      returns (ghost done': seq<Event>, err: Option<ErrInfo>)
      requires c.router.Some?
      requires log == base + done && State() == Replay(start, done)
      modifies this
      ensures done' == done + ApproveEvents(c, reply) && err == ApproveError(c, reply)
      ensures log == base + done' && State() == Replay(start, done')
    {
      var d := done;
      done', err := d, None;
      if c.isNativeIn { return; }
      if c.safeIn.None? {
        err := Some(ErrInfo(None, Some(E_BAD_INPUT)));
        return;
      }
      var read := ReadAllowance(c.safeIn.value, c.router.value);
      d := Emit(Do(read), base, start, d);
      var allowance := reply(read);
      if allowance.Err? {
        done', err := d, Some(allowance.e);
        return;
      }
      if allowance.value < c.amountIn {
        d := Emit(Show(Modal(Waiting, T_APPROVE, Some(S_APPROVE))), base, start, d);
        var approve := Approve(c.safeIn.value, c.router.value, MaxUint256);
        d := Emit(Do(approve), base, start, d);
        var r := reply(approve);
        if r.Err? {
          done', err := d, Some(r.e);
          return;
        }
        r := reply(WaitApprove);
        d := Emit(Do(WaitApprove), base, start, d);
        if r.Err? {
          done', err := d, Some(r.e);
          return;
        }
        d := Emit(Hide, base, start, d);
      }
      done' := d;
    }

    /** Simulate the router swap; on success write it, wait for it and confirm. */
    method RunSubmit(c: ClickInput, reply: Call -> Reply, ghost base: seq<Event>, ghost start: Ui, ghost done: seq<Event>) returns (ghost done': seq<Event>)
      requires c.effQuote.Some? && c.router.Some?
      requires log == base + done && State() == Replay(start, done)
      modifies this
      ensures done' == done + SubmitEvents(c, reply)
      ensures log == base + done' && State() == Replay(start, done')
    {
      var sim := SwapCall(c);
      var d := Emit(Do(sim), base, start, done);
      var r := reply(sim);
      if r.Err? {
        done' := Emit(ShowError(T_SIM_FAILED, SimulationSubtitle(r.e)), base, start, d);
        return;
      }
      var waiting, pending, confirmed := Modal(Waiting, T_WAITING, Some(S_WAITING)), Modal(Pending, T_PROCESSING, Some(S_PENDING)),
                                         Modal(Succeeded, T_CONFIRMED, Some(S_CONFIRMED));
      done' := RunWriteAndWait(waiting, pending, confirmed, false, reply, base, start, d);
      AppendAssoc(done, [Do(sim)], WriteAndWait(waiting, pending, confirmed, false, reply));
      assert SubmitEvents(c, reply) == [Do(sim)] + WriteAndWait(waiting, pending, confirmed, false, reply);
    }
  }
}
