/** Exactly when `Bridge.sol` accepts a call, stated concern by concern over all methods instead of method by
    method, and what each rejection means. */
module EthAcceptance {
  import opened Types
  import opened Ledgers
  import opened EthSpec
  import opened EthRuns

  predicate IsSettlement(m: Method) {
    IsRefund(m) || m.ReverseSwap?
  }

  /** Who may call what. */
  predicate Authorized(s: State, ctx: Context, m: Method) {
    match m
    case Swap(_, _) => true
    case Refund(_, _, _, _) => HasRole(s, ctx.sender, Relayer)
    case RefundInFull(_, _, _, _) => HasRole(s, ctx.sender, Relayer)
    case ReverseSwap(_, _, _, _, _, _) => HasRole(s, ctx.sender, Relayer)
    case NewRelayEon => HasRole(s, ctx.sender, Relayer)
    case PausePublicApiSince(b) =>
      HasRole(s, ctx.sender, Admin) || (b <= ctx.block && HasRole(s, ctx.sender, Monitor))
    case PauseRelayerApiSince(b) =>
      HasRole(s, ctx.sender, Admin) || (b <= ctx.block && HasRole(s, ctx.sender, Monitor))
    case SetAllowance(value) =>
      HasRole(s, ctx.sender, Admin) || (value <= s.approverCap && HasRole(s, ctx.sender, Approver))
    case RenounceRole(_, account) => account == ctx.sender
    case _ => HasRole(s, ctx.sender, Admin)
  }

  predicate OnTime(s: State, ctx: Context, m: Method) {
    && (m.Swap? ==> ctx.block < s.pausedSincePublic)
    && (IsSettlement(m) || m.NewRelayEon? ==> ctx.block < s.pausedSinceRelayer)
    && (IsSettlement(m) ==> m.relayEon == s.relayEon)
    && (m.DeleteContract? ==> s.earliestDelete <= ctx.block)
  }

  predicate Intakes(m: Method) {
    m.Swap? || m.Deposit? || m.Mint?
  }

  predicate Releases(m: Method) {
    IsSettlement(m) || m.Withdraw? || m.Burn?
  }

  predicate AmountsFit(s: State, m: Method) {
    && (Intakes(m) ==> s.supply + m.amount <= s.cap)
    && (m.Swap? ==> s.swapMin <= m.amount <= s.swapMax)
    && (Releases(m) ==> m.amount <= s.supply)
    && (IsSettlement(m) ==> m.amount <= s.swapMax && m.amount <= s.allowance)
    && (m.SetLimits? ==> m.swapFee <= m.swapMin <= m.swapMax)
    && (m.WithdrawFees? ==> s.supply < BridgeBalance(s))
  }

  predicate IdsFit(s: State, m: Method) {
    IsRefund(m) ==> m.id < s.nextSwapId && RefundOf(s, m.id) == 0
  }

  /** The account a call pays tokens of the bridge to. */
  function PaidTo(s: State, m: Method): Option<Address> {
    match m
    case Refund(_, to, amount, _) => if amount > s.swapFee then Some(to) else None
    case RefundInFull(_, to, _, _) => Some(to)
    case ReverseSwap(_, to, _, _, amount, _) => if amount > s.swapFee then Some(to) else None
    case Withdraw(target, _) => Some(target)
    case WithdrawFees(target) => Some(target)
    case DeleteContract(target) => Some(target)
    case _ => None
  }

  /** The token's part. That the bridge owns what it pays is no condition: the balance covers the supply. */
  predicate TokenAgrees(s: State, ctx: Context, m: Method) {
    && (PaidTo(s, m).Some? ==> ctx.tokenAccepts && PaidTo(s, m).value != ZERO_ADDRESS)
    && (m.Swap? || m.Deposit? ==>
          ctx.tokenAccepts && ctx.sender != ZERO_ADDRESS && m.amount <= s.token.Balance(ctx.sender))
    && (m.Mint? ==> ctx.tokenAccepts && s.token.total + m.amount <= U256_MAX)
    && (m.Burn? ==> ctx.tokenAccepts)
    && (m.DeleteContract? ==> m.target != s.bridge)
  }

  predicate Acceptable(s: State, ctx: Context, m: Method) {
    && Authorized(s, ctx, m)
    && OnTime(s, ctx, m)
    && AmountsFit(s, m)
    && IdsFit(s, m)
    && TokenAgrees(s, ctx, m)
  }

  predicate Deliverable(w: World, ctx: Context) {
    w.block <= ctx.block && ctx.sender != w.state.bridge && !w.state.deleted
  }

  lemma SettlementAcceptance(s: State, ctx: Context, m: Method)
    requires IsSettlement(m) && Inv(s) && !s.deleted
    ensures Execute(s, ctx, m).Ok? <==> Acceptable(s, ctx, m)
  {
  }

  lemma PayoutAcceptance(s: State, ctx: Context, m: Method)
    requires m.Withdraw? || m.WithdrawFees? || m.DeleteContract?
    requires Inv(s) && !s.deleted
    ensures Execute(s, ctx, m).Ok? <==> Acceptable(s, ctx, m)
  {
  }

  lemma IntakeOrBurnAcceptance(s: State, ctx: Context, m: Method)
    requires Intakes(m) || m.Burn?
    requires Inv(s) && !s.deleted
    ensures Execute(s, ctx, m).Ok? <==> Acceptable(s, ctx, m)
  {
    if m.Burn? && m.amount <= s.supply { RetireRemoves(s.token, s.bridge, m.amount); }
  }

  lemma OtherAcceptance(s: State, ctx: Context, m: Method)
    requires !MovesTokens(m)
    ensures Execute(s, ctx, m).Ok? <==> Acceptable(s, ctx, m)
  {
  }

  /** From every reachable world a call is accepted if and only if every concern is met: no guard is missing and
      none is extra, and the bridge's own balance never stands in the way. */
  lemma AcceptedExactlyWhen(w: World, ctx: Context, m: Method)
    requires Inv(w.state)
    ensures Accepted(w, Call(ctx, m)) <==> Deliverable(w, ctx) && Acceptable(w.state, ctx, m)
  {
    if Deliverable(w, ctx) {
      if IsSettlement(m) { SettlementAcceptance(w.state, ctx, m); }
      else if m.Withdraw? || m.WithdrawFees? || m.DeleteContract? { PayoutAcceptance(w.state, ctx, m); }
      else if Intakes(m) || m.Burn? { IntakeOrBurnAcceptance(w.state, ctx, m); }
      else { OtherAcceptance(w.state, ctx, m); }
    }
  }

  /** A token event without the bridge takes effect if and only if no account in it is the zero address, none that
      pays or is minted to is the bridge, the payer has the tokens, and the total stays within 256 bits. */
  lemma TokenEventsExactlyWhen(s: State, a: Action)
    requires Inv(s) && !a.Call?
    ensures OutsideToken(s, a).Some? <==>
              match a
              case Transfer(from, to, amount) =>
                from !in {s.bridge, ZERO_ADDRESS} && to != ZERO_ADDRESS && amount <= s.token.Balance(from)
              case MintOutside(to, amount) => to !in {s.bridge, ZERO_ADDRESS} && s.token.total + amount <= U256_MAX
              case BurnOutside(from, amount) =>
                from !in {s.bridge, ZERO_ADDRESS} && amount <= s.token.Balance(from)
  {
    if a.BurnOutside? && a.amount <= s.token.Balance(a.from) { RetireRemoves(s.token, a.from, a.amount); }
  }

  // ---------- rejections ----------

  /** What a revert says about the call and the state it met. */
  predicate Explains(w: World, ctx: Context, m: Method, error: Revert) {
    var s := w.state;
    match error
    case StaleBlock => ctx.block < w.block
    case OwnMessage => ctx.sender == s.bridge
    case NoCode => s.deleted
    case Paused =>
      || (m.Swap? && s.pausedSincePublic <= ctx.block)
      || ((IsSettlement(m) || m.NewRelayEon?) && s.pausedSinceRelayer <= ctx.block)
    case WrongEon => IsSettlement(m) && m.relayEon != s.relayEon
    case BelowMin => m.Swap? && m.amount < s.swapMin
    case AboveMax => (m.Swap? || IsSettlement(m)) && m.amount > s.swapMax
    case OnlyRelayer => (IsSettlement(m) || m.NewRelayEon?) && !Authorized(s, ctx, m)
    case OnlyAdminOrMonitor =>
      (m.PausePublicApiSince? || m.PauseRelayerApiSince?) && m.blockNumber <= ctx.block && !Authorized(s, ctx, m)
    case OnlyAdminOrApprover => m.SetAllowance? && m.value <= s.approverCap && !Authorized(s, ctx, m)
    case RenounceForSelfOnly => m.RenounceRole? && !Authorized(s, ctx, m)
    case OnlyAdmin =>
      && !IsSettlement(m) && !m.NewRelayEon? && !m.RenounceRole? && !Authorized(s, ctx, m)
      && (m.PausePublicApiSince? || m.PauseRelayerApiSince? ==> m.blockNumber > ctx.block)
      && (m.SetAllowance? ==> m.value > s.approverCap)
    case InvalidSwapId => IsRefund(m) && m.id >= s.nextSwapId
    case AlreadyRefunded => IsRefund(m) && RefundOf(s, m.id) > 0
    case TooEarlyToDelete => m.DeleteContract? && ctx.block < s.earliestDelete
    case PayoutToSelf => m.DeleteContract? && m.target == s.bridge
    case LimitsInconsistent => m.SetLimits? && !(m.swapFee <= m.swapMin <= m.swapMax)
    case Overflow => Intakes(m) && s.supply + m.amount > U256_MAX
    case CapExceeded => Intakes(m) && s.supply + m.amount > s.cap
    case AllowanceExceeded => IsSettlement(m) && m.amount > s.allowance
    case SupplyExceeded => Releases(m) && m.amount > s.supply
    case BalanceBelowSupply => m.WithdrawFees? && BridgeBalance(s) < s.supply
    case NoFees => m.WithdrawFees? && s.supply == BridgeBalance(s)
    case TokenReverted => !TokenAgrees(s, ctx, m)
  }

  /** The order in which the concerns are looked at. */
  function Rank(error: Revert): nat {
    match error
    case StaleBlock => 0
    case OwnMessage => 1
    case NoCode => 2
    case Paused => 3
    case WrongEon => 4
    case BelowMin => 5
    case AboveMax => 6
    case OnlyRelayer => 7
    case OnlyAdminOrMonitor => 8
    case OnlyAdminOrApprover => 9
    case RenounceForSelfOnly => 10
    case OnlyAdmin => 11
    case InvalidSwapId => 12
    case AlreadyRefunded => 13
    case TooEarlyToDelete => 14
    case PayoutToSelf => 15
    case LimitsInconsistent => 16
    case Overflow => 17
    case CapExceeded => 18
    case AllowanceExceeded => 19
    case SupplyExceeded => 20
    case BalanceBelowSupply => 21
    case NoFees => 22
    case TokenReverted => 23
  }

  /** A failure states a fact. */
  predicate Explained(w: World, ctx: Context, m: Method, r: Outcome<Effect>) {
    r.Err? ==> Explains(w, ctx, m, r.error)
  }

  /** A reason to fail leads to a failure, for that reason or for one that is looked at before it. */
  predicate Heeded(w: World, ctx: Context, m: Method, r: Outcome<Effect>, e: Revert) {
    Explains(w, ctx, m, e) ==> r.Err? && Rank(r.error) <= Rank(e)
  }

  lemma RefundLessFeeExplained(w: World, ctx: Context, m: Method)
    requires m.Refund? && Inv(w.state) && Deliverable(w, ctx)
    ensures Explained(w, ctx, m, Execute(w.state, ctx, m))
  {
  }

  lemma RefundInFullExplained(w: World, ctx: Context, m: Method)
    requires m.RefundInFull? && Inv(w.state) && Deliverable(w, ctx)
    ensures Explained(w, ctx, m, Execute(w.state, ctx, m))
  {
  }

  lemma RefundHeeded(w: World, ctx: Context, m: Method, e: Revert)
    requires IsRefund(m) && Inv(w.state) && Deliverable(w, ctx)
    ensures Heeded(w, ctx, m, Execute(w.state, ctx, m), e)
  {
  }

  lemma ReverseSwapExplained(w: World, ctx: Context, m: Method)
    requires m.ReverseSwap? && Inv(w.state) && Deliverable(w, ctx)
    ensures Explained(w, ctx, m, Execute(w.state, ctx, m))
  {
  }

  lemma ReverseSwapHeeded(w: World, ctx: Context, m: Method, e: Revert)
    requires m.ReverseSwap? && Inv(w.state) && Deliverable(w, ctx)
    ensures Heeded(w, ctx, m, Execute(w.state, ctx, m), e)
  {
  }

  lemma PayoutExplained(w: World, ctx: Context, m: Method)
    requires m.Withdraw? || m.WithdrawFees? || m.DeleteContract?
    requires Inv(w.state) && Deliverable(w, ctx)
    ensures Explained(w, ctx, m, Execute(w.state, ctx, m))
  {
  }

  lemma PayoutHeeded(w: World, ctx: Context, m: Method, e: Revert)
    requires m.Withdraw? || m.WithdrawFees? || m.DeleteContract?
    requires Inv(w.state) && Deliverable(w, ctx)
    ensures Heeded(w, ctx, m, Execute(w.state, ctx, m), e)
  {
  }

  lemma IntakeExplained(w: World, ctx: Context, m: Method)
    requires Intakes(m) && Inv(w.state) && Deliverable(w, ctx)
    ensures Explained(w, ctx, m, Execute(w.state, ctx, m))
  {
  }

  lemma IntakeHeeded(w: World, ctx: Context, m: Method, e: Revert)
    requires Intakes(m) && Inv(w.state) && Deliverable(w, ctx)
    ensures Heeded(w, ctx, m, Execute(w.state, ctx, m), e)
  {
  }

  lemma BurnExplained(w: World, ctx: Context, m: Method)
    requires m.Burn? && Inv(w.state) && Deliverable(w, ctx)
    ensures Explained(w, ctx, m, Execute(w.state, ctx, m))
  {
    if m.amount <= w.state.supply { RetireRemoves(w.state.token, w.state.bridge, m.amount); }
  }

  lemma BurnHeeded(w: World, ctx: Context, m: Method, e: Revert)
    requires m.Burn? && Inv(w.state) && Deliverable(w, ctx)
    ensures Heeded(w, ctx, m, Execute(w.state, ctx, m), e)
  {
  }

  lemma OtherExplained(w: World, ctx: Context, m: Method)
    requires !MovesTokens(m) && Inv(w.state) && Deliverable(w, ctx)
    ensures Explained(w, ctx, m, Execute(w.state, ctx, m))
  {
  }

  lemma OtherHeeded(w: World, ctx: Context, m: Method, e: Revert)
    requires !MovesTokens(m) && Inv(w.state) && Deliverable(w, ctx)
    ensures Heeded(w, ctx, m, Execute(w.state, ctx, m), e)
  {
  }

  /** Every rejection names a concern that is not met. */
  lemma RejectionExplained(w: World, ctx: Context, m: Method)
    requires Inv(w.state)
    ensures Explained(w, ctx, m, Deliver(w, ctx, m))
  {
    if Deliverable(w, ctx) {
      if m.Refund? { RefundLessFeeExplained(w, ctx, m); }
      else if m.RefundInFull? { RefundInFullExplained(w, ctx, m); }
      else if m.ReverseSwap? { ReverseSwapExplained(w, ctx, m); }
      else if m.Withdraw? || m.WithdrawFees? || m.DeleteContract? { PayoutExplained(w, ctx, m); }
      else if Intakes(m) { IntakeExplained(w, ctx, m); }
      else if m.Burn? { BurnExplained(w, ctx, m); }
      else { OtherExplained(w, ctx, m); }
    }
  }

  /** Of several concerns that are not met, a rejection names the one that is looked at first. */
  lemma RejectionNamesFirstReason(w: World, ctx: Context, m: Method, e: Revert)
    requires Inv(w.state)
    ensures Heeded(w, ctx, m, Deliver(w, ctx, m), e)
  {
    if Deliverable(w, ctx) {
      if IsRefund(m) { RefundHeeded(w, ctx, m, e); }
      else if m.ReverseSwap? { ReverseSwapHeeded(w, ctx, m, e); }
      else if m.Withdraw? || m.WithdrawFees? || m.DeleteContract? { PayoutHeeded(w, ctx, m, e); }
      else if Intakes(m) { IntakeHeeded(w, ctx, m, e); }
      else if m.Burn? { BurnHeeded(w, ctx, m, e); }
      else { OtherHeeded(w, ctx, m, e); }
    }
  }
}
