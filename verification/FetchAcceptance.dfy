/** Exactly when the CosmWasm contract accepts a message, stated concern by concern over all messages
    instead of handler by handler. */
module FetchAcceptance {
  import opened Types
  import opened FetchSpec
  import opened FetchSolvency
  import Keys

  /** Who may send what. */
  predicate Authorized(st: Store, env: Env, sender: Address, msg: ExecuteMsg) {
    match msg
    case Swap(_) => true
    case ReverseSwap(_, _, _, _, _, _) => HasRole(st, sender, Relayer)
    case Refund(_, _, _, _) => HasRole(st, sender, Relayer)
    case RefundInFull(_, _, _, _) => HasRole(st, sender, Relayer)
    case NewRelayEon => HasRole(st, sender, Relayer)
    case PausePublicApi(b) => HasRole(st, sender, Admin) || (b <= env.height && HasRole(st, sender, Monitor))
    case PauseRelayerApi(b) => HasRole(st, sender, Admin) || (b <= env.height && HasRole(st, sender, Monitor))
    case SetAllowance(amount) =>
      HasRole(st, sender, Admin) || (amount <= st.config.approverCap && HasRole(st, sender, Approver))
    case RenounceRole(role) => exists r :: Keys.RoleFromString(role) == Some(r) && HasRole(st, sender, r)
    case _ => HasRole(st, sender, Admin)
  }

  /** What enters the supply, from attached funds or from the mint. */
  function Intake(st: Store, info: Info, msg: ExecuteMsg): Option<u128> {
    match msg
    case Swap(_) => FundsOf(st, info)
    case Deposit => FundsOf(st, info)
    case Mint(amount) => Some(amount)
    case _ => Some(0)
  }

  function FundsOf(st: Store, info: Info): Option<u128> {
    var r := AmountFromFunds(info.funds, st.config.denom);
    if r.Ok? then Some(r.value) else None
  }

  /** What leaves the supply. */
  function Release(msg: ExecuteMsg): u128 {
    match msg
    case ReverseSwap(_, _, _, _, amount, _) => amount
    case Refund(_, _, amount, _) => amount
    case RefundInFull(_, _, amount, _) => amount
    case Withdraw(amount, _) => amount
    case Burn(amount) => amount
    case _ => 0
  }

  /** The fee of a settlement: waived for a full refund, never more than the amount. */
  function FeeOf(st: Store, msg: ExecuteMsg): u128 {
    if !IsSettlement(msg) || msg.RefundInFull? then 0
    else if msg.amount > st.config.swapFee then st.config.swapFee
    else msg.amount
  }

  /** Messages that pay an account named in them. */
  predicate Pays(st: Store, msg: ExecuteMsg) {
    msg.Withdraw? || msg.WithdrawFees? || (IsSettlement(msg) && Release(msg) > FeeOf(st, msg))
  }

  predicate OnTime(st: Store, env: Env, msg: ExecuteMsg) {
    && (msg.Swap? ==> env.height < st.config.pausedSincePublic)
    && (IsSettlement(msg) || msg.NewRelayEon? ==> env.height < st.config.pausedSinceRelayer)
    && (IsSettlement(msg) ==> msg.relayEon == st.config.relayEon)
  }

  predicate AmountsFit(st: Store, info: Info, msg: ExecuteMsg) {
    var c, intake := st.config, Intake(st, info, msg);
    && intake.Some?
    && (msg.Swap? || msg.Deposit? || msg.Mint? ==> c.supply + intake.value <= c.cap)
    && (msg.Swap? ==> c.lowerSwapLimit <= intake.value <= c.upperSwapLimit)
    && Release(msg) <= c.supply
    && (IsSettlement(msg) ==> Release(msg) <= c.allowance && c.feesAccrued + FeeOf(st, msg) <= U128_MAX)
    && (msg.WithdrawFees? ==> msg.amount <= c.feesAccrued)
    && (msg.SetLimits? ==> msg.swapFee < msg.swapMin <= msg.swapMax)
  }

  predicate IdsFit(st: Store, msg: ExecuteMsg) {
    && (msg.Refund? || msg.RefundInFull? ==> msg.id < st.config.nextSwapId && msg.id !in st.refunds)
    && (msg.Swap? ==> st.config.nextSwapId < U64_MAX)
    && (msg.NewRelayEon? ==> st.config.relayEon < U64_MAX)
  }

  predicate RoleChangeFits(st: Store, msg: ExecuteMsg) {
    && (msg.GrantRole? ==>
          && |msg.address| <= NAMESPACE_MAX
          && exists r :: Keys.RoleFromString(msg.role) == Some(r) && !HasRole(st, msg.address, r))
    && (msg.RevokeRole? ==>
          && |msg.address| <= NAMESPACE_MAX
          && exists r :: Keys.RoleFromString(msg.role) == Some(r) && HasRole(st, msg.address, r))
  }

  predicate Acceptable(st: Store, env: Env, info: Info, msg: ExecuteMsg) {
    && (msg.Swap? || |info.sender| <= NAMESPACE_MAX)
    && Authorized(st, env, info.sender, msg)
    && OnTime(st, env, msg)
    && AmountsFit(st, info, msg)
    && IdsFit(st, msg)
    && RoleChangeFits(st, msg)
    && (Pays(st, msg) ==> env.resolved.Some?)
  }

  lemma SettlementAcceptance(st: Store, env: Env, info: Info, msg: ExecuteMsg)
    requires IsSettlement(msg)
    ensures Execute(st, env, info, msg).Ok? <==> Acceptable(st, env, info, msg)
  {
  }

  lemma RoleAcceptance(st: Store, env: Env, info: Info, msg: ExecuteMsg)
    requires msg.GrantRole? || msg.RevokeRole? || msg.RenounceRole?
    ensures Execute(st, env, info, msg).Ok? <==> Acceptable(st, env, info, msg)
  {
  }

  /** A handler succeeds if and only if every concern is met: no guard is missing and none is extra. */
  lemma AcceptedExactlyWhen(st: Store, env: Env, info: Info, msg: ExecuteMsg)
    ensures Execute(st, env, info, msg).Ok? <==> Acceptable(st, env, info, msg)
  {
    if IsSettlement(msg) {
      SettlementAcceptance(st, env, info, msg);
    } else if msg.GrantRole? || msg.RevokeRole? || msg.RenounceRole? {
      RoleAcceptance(st, env, info, msg);
    }
  }

  /** From reachable worlds the whole transaction goes through exactly when the message is acceptable, the
      attached funds exist and the chain raises no objection of its own: solvency never stands in the way. */
  lemma DeliveredExactlyWhen(w: World, env: Env, info: Info, msg: ExecuteMsg)
    requires Inv(w) && w.height <= env.height && info.sender != w.store.config.contractAddr
    ensures Accepted(w, Call(env, info, msg)) <==>
              && CreditFunds(w, info).Some?
              && Acceptable(w.store, env, info, msg)
              && (Pays(w.store, msg) || msg.Mint? || msg.Burn? ==> env.bankAccepts)
  {
    AcceptedExactlyWhen(w.store, env, info, msg);
    DeliveryFollowsHandler(w, env, info, msg);
  }

  // ---------- rejections ----------

  predicate IsRoleChange(msg: ExecuteMsg) {
    msg.GrantRole? || msg.RevokeRole? || msg.RenounceRole?
  }

  predicate Intakes(msg: ExecuteMsg) {
    msg.Swap? || msg.Deposit? || msg.Mint?
  }

  /** The account whose entry a role message changes. */
  function RoleHolder(info: Info, msg: ExecuteMsg): Address
    requires IsRoleChange(msg)
  {
    if msg.RenounceRole? then info.sender else msg.address
  }

  /** What a rejection says about the message and the world it met. */
  predicate Explains(w: World, env: Env, info: Info, msg: ExecuteMsg, error: Error) {
    var st, c, intake := w.store, w.store.config, Intake(w.store, info, msg);
    match error
    case StaleBlock => env.height < w.height
    case OwnMessage => info.sender == c.contractAddr
    case InsufficientFunds => CreditFunds(w, info).None?
    case OnlyRelayer => (IsSettlement(msg) || msg.NewRelayEon?) && !Authorized(st, env, info.sender, msg)
    case OnlyAdmin =>
      && !IsSettlement(msg) && !msg.NewRelayEon? && !msg.RenounceRole?
      && !Authorized(st, env, info.sender, msg)
    case UnrecognizedDenom => intake.None?
    case WrongEon => IsSettlement(msg) && msg.relayEon != c.relayEon
    case ContractPaused =>
      || (msg.Swap? && c.pausedSincePublic <= env.height)
      || ((IsSettlement(msg) || msg.NewRelayEon?) && c.pausedSinceRelayer <= env.height)
    case LimitsViolated => msg.Swap? && intake.Some? && !(c.lowerSwapLimit <= intake.value <= c.upperSwapLimit)
    case CapExceeded => Intakes(msg) && intake.Some? && c.supply + intake.value > c.cap
    case InvalidSwapId => (msg.Refund? || msg.RefundInFull?) && msg.id >= c.nextSwapId
    case AlreadyRefunded => (msg.Refund? || msg.RefundInFull?) && msg.id in st.refunds
    case AllowanceExceeded => IsSettlement(msg) && Release(msg) > c.allowance
    case SupplyExceeded => Release(msg) > c.supply || (msg.WithdrawFees? && msg.amount > c.feesAccrued)
    case LimitsInconsistent => msg.SetLimits? && !(msg.swapFee < msg.swapMin <= msg.swapMax)
    case UnknownRole => IsRoleChange(msg) && Keys.RoleFromString(msg.role).None?
    case AlreadyHasRole =>
      && msg.GrantRole? && Keys.RoleFromString(msg.role).Some?
      && HasRole(st, msg.address, Keys.RoleFromString(msg.role).value)
    case DoesntHaveRole =>
      && (msg.RevokeRole? || msg.RenounceRole?) && Keys.RoleFromString(msg.role).Some?
      && !HasRole(st, RoleHolder(info, msg), Keys.RoleFromString(msg.role).value)
    case InvalidAddress => Pays(st, msg) && env.resolved.None?
    case BankRefused => (Pays(st, msg) || msg.Mint? || msg.Burn?) && !env.bankAccepts
    case Panicked(panic) => ExplainsPanic(st, info, msg, panic)
    case ConfigNotFound => false
    case CheckedSubOverflow => false
  }

  predicate ExplainsPanic(st: Store, info: Info, msg: ExecuteMsg, panic: Panic) {
    var c, intake := st.config, Intake(st, info, msg);
    match panic
    case NamespaceTooLong =>
      || (!msg.Swap? && |info.sender| > NAMESPACE_MAX)
      || ((msg.GrantRole? || msg.RevokeRole?) && |msg.address| > NAMESPACE_MAX)
    case SupplyOverflow => Intakes(msg) && intake.Some? && c.supply + intake.value > U128_MAX
    case SwapIdOverflow => msg.Swap? && c.nextSwapId == U64_MAX
    case EonOverflow => msg.NewRelayEon? && c.relayEon == U64_MAX
    case FeesOverflow => IsSettlement(msg) && c.feesAccrued + FeeOf(st, msg) > U128_MAX
  }

  /** The order in which the concerns are looked at. The length of an address matters when its role is looked up:
      the sender's at first, any other's after the role is parsed. */
  function Rank(info: Info, msg: ExecuteMsg, error: Error): nat {
    match error
    case StaleBlock => 0
    case OwnMessage => 1
    case InsufficientFunds => 2
    case OnlyRelayer => 4
    case OnlyAdmin => 5
    case UnrecognizedDenom => 6
    case WrongEon => 7
    case ContractPaused => 8
    case LimitsViolated => 9
    case CapExceeded => 11
    case InvalidSwapId => 14
    case AlreadyRefunded => 15
    case AllowanceExceeded => 16
    case SupplyExceeded => 17
    case LimitsInconsistent => 18
    case UnknownRole => 19
    case AlreadyHasRole => 21
    case DoesntHaveRole => 22
    case InvalidAddress => 23
    case BankRefused => 25
    case Panicked(panic) =>
      (match panic
       case NamespaceTooLong => if |info.sender| > NAMESPACE_MAX && !msg.RenounceRole? then 3 else 20
       case SupplyOverflow => 10
       case SwapIdOverflow => 12
       case EonOverflow => 13
       case FeesOverflow => 24)
    case ConfigNotFound => 26
    case CheckedSubOverflow => 26
  }

  /** Failures of the chain rather than of the handler. */
  predicate OfTheChain(error: Error) {
    error.StaleBlock? || error.OwnMessage? || error.InsufficientFunds? || error.BankRefused?
  }

  /** A failure states a fact. */
  predicate Explained<T>(w: World, env: Env, info: Info, msg: ExecuteMsg, r: StdResult<T>) {
    r.Err? ==> Explains(w, env, info, msg, r.error)
  }

  /** A reason to fail leads to a failure, for that reason or for one that is looked at before it. */
  predicate Heeded<T>(w: World, env: Env, info: Info, msg: ExecuteMsg, r: StdResult<T>, e: Error) {
    Explains(w, env, info, msg, e) ==> r.Err? && Rank(info, msg, r.error) <= Rank(info, msg, e)
  }

  lemma ReverseSwapExplained(w: World, env: Env, info: Info, msg: ExecuteMsg)
    requires msg.ReverseSwap?
    ensures Explained(w, env, info, msg, Execute(w.store, env, info, msg))
    ensures var r := Execute(w.store, env, info, msg); r.Err? ==> !OfTheChain(r.error)
  {
  }

  lemma ReverseSwapHeeded(w: World, env: Env, info: Info, msg: ExecuteMsg, e: Error)
    requires msg.ReverseSwap? && !OfTheChain(e)
    ensures Heeded(w, env, info, msg, Execute(w.store, env, info, msg), e)
  {
  }

  lemma RefundExplained(w: World, env: Env, info: Info, msg: ExecuteMsg)
    requires msg.Refund?
    ensures Explained(w, env, info, msg, Execute(w.store, env, info, msg))
    ensures var r := Execute(w.store, env, info, msg); r.Err? ==> !OfTheChain(r.error)
  {
  }

  lemma RefundHeeded(w: World, env: Env, info: Info, msg: ExecuteMsg, e: Error)
    requires msg.Refund? && !OfTheChain(e)
    ensures Heeded(w, env, info, msg, Execute(w.store, env, info, msg), e)
  {
  }

  lemma RefundInFullExplained(w: World, env: Env, info: Info, msg: ExecuteMsg)
    requires msg.RefundInFull?
    ensures Explained(w, env, info, msg, Execute(w.store, env, info, msg))
    ensures var r := Execute(w.store, env, info, msg); r.Err? ==> !OfTheChain(r.error)
  {
  }

  lemma RefundInFullHeeded(w: World, env: Env, info: Info, msg: ExecuteMsg, e: Error)
    requires msg.RefundInFull? && !OfTheChain(e)
    ensures Heeded(w, env, info, msg, Execute(w.store, env, info, msg), e)
  {
  }

  lemma SwapExplained(w: World, env: Env, info: Info, msg: ExecuteMsg)
    requires msg.Swap?
    ensures Explained(w, env, info, msg, Execute(w.store, env, info, msg))
    ensures var r := Execute(w.store, env, info, msg); r.Err? ==> !OfTheChain(r.error)
  {
    AmountFromFundsBounded(info.funds, w.store.config.denom);
  }

  lemma SwapHeeded(w: World, env: Env, info: Info, msg: ExecuteMsg, e: Error)
    requires msg.Swap?
    requires !OfTheChain(e)
    ensures Heeded(w, env, info, msg, Execute(w.store, env, info, msg), e)
  {
    AmountFromFundsBounded(info.funds, w.store.config.denom);
  }

  lemma DepositOrMintExplained(w: World, env: Env, info: Info, msg: ExecuteMsg)
    requires msg.Deposit? || msg.Mint?
    ensures Explained(w, env, info, msg, Execute(w.store, env, info, msg))
    ensures var r := Execute(w.store, env, info, msg); r.Err? ==> !OfTheChain(r.error)
  {
    AmountFromFundsBounded(info.funds, w.store.config.denom);
  }

  lemma DepositOrMintHeeded(w: World, env: Env, info: Info, msg: ExecuteMsg, e: Error)
    requires msg.Deposit? || msg.Mint?
    requires !OfTheChain(e)
    ensures Heeded(w, env, info, msg, Execute(w.store, env, info, msg), e)
  {
    AmountFromFundsBounded(info.funds, w.store.config.denom);
  }

  lemma RoleChangeExplained(w: World, env: Env, info: Info, msg: ExecuteMsg)
    requires IsRoleChange(msg)
    ensures Explained(w, env, info, msg, Execute(w.store, env, info, msg))
    ensures var r := Execute(w.store, env, info, msg); r.Err? ==> !OfTheChain(r.error)
  {
  }

  lemma RoleChangeHeeded(w: World, env: Env, info: Info, msg: ExecuteMsg, e: Error)
    requires IsRoleChange(msg) && !OfTheChain(e)
    ensures Heeded(w, env, info, msg, Execute(w.store, env, info, msg), e)
  {
  }

  lemma PayoutExplained(w: World, env: Env, info: Info, msg: ExecuteMsg)
    requires msg.Withdraw? || msg.WithdrawFees? || msg.Burn?
    ensures Explained(w, env, info, msg, Execute(w.store, env, info, msg))
    ensures var r := Execute(w.store, env, info, msg); r.Err? ==> !OfTheChain(r.error)
  {
  }

  lemma PayoutHeeded(w: World, env: Env, info: Info, msg: ExecuteMsg, e: Error)
    requires msg.Withdraw? || msg.WithdrawFees? || msg.Burn?
    requires !OfTheChain(e)
    ensures Heeded(w, env, info, msg, Execute(w.store, env, info, msg), e)
  {
  }

  lemma SetterExplained(w: World, env: Env, info: Info, msg: ExecuteMsg)
    requires msg.SetCap? || msg.SetAllowance? || msg.SetApproverCap? || msg.SetLimits?
    ensures Explained(w, env, info, msg, Execute(w.store, env, info, msg))
    ensures var r := Execute(w.store, env, info, msg); r.Err? ==> !OfTheChain(r.error)
  {
  }

  lemma SetterHeeded(w: World, env: Env, info: Info, msg: ExecuteMsg, e: Error)
    requires msg.SetCap? || msg.SetAllowance? || msg.SetApproverCap? || msg.SetLimits?
    requires !OfTheChain(e)
    ensures Heeded(w, env, info, msg, Execute(w.store, env, info, msg), e)
  {
  }

  lemma PauseOrEonExplained(w: World, env: Env, info: Info, msg: ExecuteMsg)
    requires msg.PausePublicApi? || msg.PauseRelayerApi? || msg.NewRelayEon?
    ensures Explained(w, env, info, msg, Execute(w.store, env, info, msg))
    ensures var r := Execute(w.store, env, info, msg); r.Err? ==> !OfTheChain(r.error)
  {
  }

  lemma PauseOrEonHeeded(w: World, env: Env, info: Info, msg: ExecuteMsg, e: Error)
    requires msg.PausePublicApi? || msg.PauseRelayerApi? || msg.NewRelayEon?
    requires !OfTheChain(e)
    ensures Heeded(w, env, info, msg, Execute(w.store, env, info, msg), e)
  {
  }

  lemma HandlerExplained(w: World, env: Env, info: Info, msg: ExecuteMsg)
    ensures Explained(w, env, info, msg, Execute(w.store, env, info, msg))
    ensures var r := Execute(w.store, env, info, msg); r.Err? ==> !OfTheChain(r.error)
  {
    if msg.ReverseSwap? { ReverseSwapExplained(w, env, info, msg); }
    else if msg.Refund? { RefundExplained(w, env, info, msg); }
    else if msg.RefundInFull? { RefundInFullExplained(w, env, info, msg); }
    else if msg.Swap? { SwapExplained(w, env, info, msg); }
    else if Intakes(msg) { DepositOrMintExplained(w, env, info, msg); }
    else if IsRoleChange(msg) { RoleChangeExplained(w, env, info, msg); }
    else if msg.Withdraw? || msg.WithdrawFees? || msg.Burn? { PayoutExplained(w, env, info, msg); }
    else if msg.PausePublicApi? || msg.PauseRelayerApi? || msg.NewRelayEon? { PauseOrEonExplained(w, env, info, msg); }
    else { SetterExplained(w, env, info, msg); }
  }

  lemma HandlerHeeded(w: World, env: Env, info: Info, msg: ExecuteMsg, e: Error)
    requires !OfTheChain(e)
    ensures Heeded(w, env, info, msg, Execute(w.store, env, info, msg), e)
  {
    if msg.ReverseSwap? { ReverseSwapHeeded(w, env, info, msg, e); }
    else if msg.Refund? { RefundHeeded(w, env, info, msg, e); }
    else if msg.RefundInFull? { RefundInFullHeeded(w, env, info, msg, e); }
    else if msg.Swap? { SwapHeeded(w, env, info, msg, e); }
    else if Intakes(msg) { DepositOrMintHeeded(w, env, info, msg, e); }
    else if IsRoleChange(msg) { RoleChangeHeeded(w, env, info, msg, e); }
    else if msg.Withdraw? || msg.WithdrawFees? || msg.Burn? { PayoutHeeded(w, env, info, msg, e); }
    else if msg.PausePublicApi? || msg.PauseRelayerApi? || msg.NewRelayEon? { PauseOrEonHeeded(w, env, info, msg, e); }
    else { SetterHeeded(w, env, info, msg, e); }
  }

  /** How the outcome of a delivery follows from that of the handler. A failure of the chain is one of four, and
      any other is the handler's. */
  predicate Outcome(w: World, env: Env, info: Info, msg: ExecuteMsg, r: StdResult<Reply>, d: StdResult<Delivered>) {
    if env.height < w.height then d == Err(StaleBlock)
    else if info.sender == w.store.config.contractAddr then d == Err(OwnMessage)
    else if CreditFunds(w, info).None? then d == Err(InsufficientFunds)
    else if r.Err? then d == Err(r.error)
    else if (Pays(w.store, msg) || msg.Mint? || msg.Burn?) && !env.bankAccepts then d == Err(BankRefused)
    else d.Ok?
  }

  lemma PaysExactlyWhen(st: Store, env: Env, info: Info, msg: ExecuteMsg)
    requires Execute(st, env, info, msg).Ok?
    ensures Execute(st, env, info, msg).value.response.msgs != [] <==> Pays(st, msg) || msg.Mint? || msg.Burn?
  {
  }

  lemma DeliveryOutcome(w: World, env: Env, info: Info, msg: ExecuteMsg)
    requires Inv(w)
    ensures Outcome(w, env, info, msg, Execute(w.store, env, info, msg), Deliver(w, env, info, msg))
  {
    if w.height <= env.height && info.sender != w.store.config.contractAddr {
      DeliveryFollowsHandler(w, env, info, msg);
      if Execute(w.store, env, info, msg).Ok? { PaysExactlyWhen(w.store, env, info, msg); }
    }
  }

  lemma OutcomeExplained(w: World, env: Env, info: Info, msg: ExecuteMsg, r: StdResult<Reply>, d: StdResult<Delivered>)
    requires Outcome(w, env, info, msg, r, d) && Explained(w, env, info, msg, r)
    ensures Explained(w, env, info, msg, d)
  {
  }

  lemma OutcomeHeeded(w: World, env: Env, info: Info, msg: ExecuteMsg, r: StdResult<Reply>, d: StdResult<Delivered>,
                      e: Error)
    requires Outcome(w, env, info, msg, r, d) && Explained(w, env, info, msg, r)
    requires r.Err? ==> !OfTheChain(r.error)
    requires !OfTheChain(e) ==> Heeded(w, env, info, msg, r, e)
    ensures Heeded(w, env, info, msg, d, e)
  {
  }

  /** Every rejection names a concern that is not met. */
  lemma RejectionExplained(w: World, env: Env, info: Info, msg: ExecuteMsg)
    requires Inv(w)
    ensures Explained(w, env, info, msg, Deliver(w, env, info, msg))
  {
    DeliveryOutcome(w, env, info, msg);
    HandlerExplained(w, env, info, msg);
    OutcomeExplained(w, env, info, msg, Execute(w.store, env, info, msg), Deliver(w, env, info, msg));
  }

  /** Of several concerns that are not met, a rejection names the one that is looked at first. */
  lemma RejectionNamesFirstReason(w: World, env: Env, info: Info, msg: ExecuteMsg, e: Error)
    requires Inv(w)
    ensures Heeded(w, env, info, msg, Deliver(w, env, info, msg), e)
  {
    DeliveryOutcome(w, env, info, msg);
    HandlerExplained(w, env, info, msg);
    if !OfTheChain(e) { HandlerHeeded(w, env, info, msg, e); }
    OutcomeHeeded(w, env, info, msg, Execute(w.store, env, info, msg), Deliver(w, env, info, msg), e);
  }
}
