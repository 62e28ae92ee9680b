/** What every message of the CosmWasm contract does, as functions on its abstract storage, and how
    the chain delivers a transaction: credit the attached funds, run the handler, run the emitted
    messages, and keep nothing at all when any of the three fails. */
module FetchSpec {
  import opened Types
  import opened Ledgers
  import Keys

  // ---------- data ----------

  datatype State = State(
    supply: u128,
    feesAccrued: u128,
    nextSwapId: u64,
    sealedReverseSwapId: u64,
    relayEon: u64,
    upperSwapLimit: u128,
    lowerSwapLimit: u128,
    allowance: u128,
    approverCap: u128,
    cap: u128,
    swapFee: u128,
    pausedSincePublic: u64,
    pausedSinceRelayer: u64,
    denom: string,
    contractAddr: Address)

  /** The contract's storage: the record, the ids of refunded swaps, and who holds which role. */
  datatype Store = Store(config: State, refunds: set<u64>, roles: set<(Address, AccessRole)>)

  datatype Coin = Coin(denom: string, amount: u128)

  datatype Info = Info(sender: Address, funds: seq<Coin>)

  /** `resolved` is what canonicalising and humanising the address named in the message gives;
      `bankAccepts` is false when the chain refuses an emitted message for a reason of its own. */
  datatype Env = Env(height: u64, resolved: Option<Address>, bankAccepts: bool)

  datatype InstantiateMsg = InstantiateMsg(
    nextSwapId: u64,
    cap: u128,
    upperSwapLimit: u128,
    lowerSwapLimit: u128,
    swapFee: u128,
    allowance: u128,
    approverCap: u128,
    pausedSinceBlock: Option<u64>,
    denom: Option<string>)

  datatype ExecuteMsg =
    | Swap(destination: string)
    | ReverseSwap(rid: u64, to: Address, sender: string, originTxHash: string, amount: u128, relayEon: u64)
    | Refund(id: u64, to: Address, amount: u128, relayEon: u64)
    | RefundInFull(id: u64, to: Address, amount: u128, relayEon: u64)
    | PausePublicApi(sinceBlock: u64)
    | PauseRelayerApi(sinceBlock: u64)
    | NewRelayEon
    | Deposit
    | Withdraw(amount: u128, target: Address)
    | WithdrawFees(amount: u128, target: Address)
    | SetCap(amount: u128)
    | SetAllowance(amount: u128)
    | SetApproverCap(amount: u128)
    | SetLimits(swapMin: u128, swapMax: u128, swapFee: u128)
    | GrantRole(role: string, address: Address)
    | RevokeRole(role: string, address: Address)
    | RenounceRole(role: string)
    | Mint(amount: u128)
    | Burn(amount: u128)

  /** The response attributes; the first attribute, `action`, is the constructor. */
  datatype Event =
    | Swapped(destination: string, swapId: u64, amount: u128)
    | ReverseSwapped(senderKey: string, rid: u64, to: Address, sender: string, originTxHash: string,
                     amount: u128, swapFee: u128)
    | Refunded(account: Address, swapId: u64, amount: u128, refundFee: u128)
    | PublicApiPaused(sinceBlock: u64)
    | RelayerApiPaused(sinceBlock: u64)
    | RelayEonStarted(eon: u64)
    | Deposited(amount: u128, account: Address)
    | Withdrawn(amount: u128, account: Address)
    | FeesWithdrawn(amount: u128, account: Address)
    | Minted(amount: u128)
    | Burned(amount: u128)
    | CapSet(cap: u128)
    | AllowanceSet(amount: u128)
    | ApproverCapSet(amount: u128)
    | LimitsSet(swapFee: u128, swapMin: u128, swapMax: u128)
    | RoleGranted(role: string, account: Address)
    | RoleRevoked(role: string, account: Address)
    | RoleRenounced(role: string, account: Address)

  /** Messages for the bank and the token factory, run after the handler. */
  datatype BankMsg =
    | Send(to: Address, denom: string, amount: u128)
    | MintToContract(denom: string, amount: u128)
    | BurnFromContract(denom: string, amount: u128)

  datatype Panic = SupplyOverflow | FeesOverflow | SwapIdOverflow | EonOverflow | NamespaceTooLong

  datatype Error =
    | ConfigNotFound
    | LimitsInconsistent | LimitsViolated
    | SupplyExceeded | AllowanceExceeded | CapExceeded | CheckedSubOverflow
    | OnlyAdmin | OnlyRelayer | AlreadyHasRole | DoesntHaveRole | UnknownRole
    | UnrecognizedDenom | ContractPaused | WrongEon
    | InvalidSwapId | AlreadyRefunded | InvalidAddress
    | Panicked(panic: Panic)
    // failures of the chain rather than of the handler
    | StaleBlock | OwnMessage | InsufficientFunds | BankRefused

  type StdResult<+T> = Result<T, Error>

  datatype Response = Response(event: Event, msgs: seq<BankMsg>)

  datatype Reply = Reply(store: Store, response: Response)

  const DEFAULT_DENOM := "afet"

  function Done(st: Store, event: Event): StdResult<Reply> {
    Ok(Reply(st, Response(event, [])))
  }

  function DoneSending(st: Store, event: Event, msg: BankMsg): StdResult<Reply> {
    Ok(Reply(st, Response(event, [msg])))
  }

  // ---------- helpers and guards ----------

  /** The first coin of the denomination; the rest of the list is not looked at. */
  function AmountFromFunds(funds: seq<Coin>, denom: string): StdResult<u128> {
    if funds == [] then Err(UnrecognizedDenom)
    else if funds[0].denom == denom then Ok(funds[0].amount)
    else AmountFromFunds(funds[1..], denom)
  }

  /** Everything of the denomination that the list attaches. */
  function Attached(funds: seq<Coin>, denom: string): nat {
    if funds == [] then 0
    else (if funds[0].denom == denom then funds[0].amount else 0) + Attached(funds[1..], denom)
  }

  predicate HasRole(st: Store, a: Address, role: AccessRole) {
    (a, role) in st.roles
  }

  function OnlyRole(st: Store, sender: Address, role: AccessRole): Check<Error> {
    if |sender| > NAMESPACE_MAX then Fail(Panicked(NamespaceTooLong))
    else Need(HasRole(st, sender, role), if role == Relayer then OnlyRelayer else OnlyAdmin)
  }

  function CanPause(st: Store, env: Env, sender: Address, sinceBlock: u64): Check<Error> {
    if sinceBlock > env.height then OnlyRole(st, sender, Admin)
    else if OnlyRole(st, sender, Monitor).Pass? then Pass
    else OnlyRole(st, sender, Admin)
  }

  function SenderMaySetAllowance(st: Store, sender: Address, amount: u128): Check<Error> {
    var asAdmin := OnlyRole(st, sender, Admin);
    if asAdmin.Pass? then Pass
    else if amount <= st.config.approverCap then OnlyRole(st, sender, Approver)
    else if |sender| > NAMESPACE_MAX then asAdmin
    else Fail(OnlyAdmin)
  }

  function VerifyRefundSwapId(st: Store, id: u64): Check<Error> {
    if id >= st.config.nextSwapId then Fail(InvalidSwapId)
    else Need(id !in st.refunds, AlreadyRefunded)
  }

  function Resolve(env: Env): StdResult<Address> {
    match env.resolved
    case Some(a) => Ok(a)
    case None => Err(InvalidAddress)
  }

  function AddRole(st: Store, a: Address, role: AccessRole): StdResult<Store> {
    var guard := Need(|a| <= NAMESPACE_MAX, Panicked(NamespaceTooLong));
    :- guard;
    :- Need(!HasRole(st, a, role), AlreadyHasRole);
    Ok(st.(roles := st.roles + {(a, role)}))
  }

  function RemoveRole(st: Store, a: Address, role: AccessRole): StdResult<Store> {
    var guard := Need(|a| <= NAMESPACE_MAX, Panicked(NamespaceTooLong));
    :- guard;
    :- Need(HasRole(st, a, role), DoesntHaveRole);
    Ok(st.(roles := st.roles - {(a, role)}))
  }

  function ParseRole(role: string): StdResult<AccessRole> {
    match Keys.RoleFromString(role)
    case Some(r) => Ok(r)
    case None => Err(UnknownRole)
  }

  // ---------- handlers ----------

  function Instantiate(contract: Address, env: Env, info: Info, msg: InstantiateMsg): StdResult<Store> {
    var since := if msg.pausedSinceBlock.Some? then msg.pausedSinceBlock.value else U64_MAX;
    var pausedSince: u64 := if since < env.height then env.height else since;
    :- Need(msg.lowerSwapLimit <= msg.upperSwapLimit && msg.swapFee < msg.lowerSwapLimit, LimitsInconsistent);
    var denom := if msg.denom.Some? then msg.denom.value else DEFAULT_DENOM;
    :- Need(|info.sender| <= NAMESPACE_MAX, Panicked(NamespaceTooLong));
    var deposit := AmountFromFunds(info.funds, denom);
    var state := State(
                   if deposit.Ok? then deposit.value else 0, 0, msg.nextSwapId, 0, 0,
                   msg.upperSwapLimit, msg.lowerSwapLimit, msg.allowance, msg.approverCap, msg.cap, msg.swapFee,
                   pausedSince, pausedSince, denom, contract);
    Ok(Store(state, {}, {(info.sender, Admin)}))
  }

  function TrySwap(st: Store, env: Env, amount: u128, destination: string): StdResult<Reply> {
    var c := st.config;
    :- Need(env.height < c.pausedSincePublic, ContractPaused);
    :- Need(c.lowerSwapLimit <= amount <= c.upperSwapLimit, LimitsViolated);
    :- Need(c.supply + amount <= U128_MAX, Panicked(SupplyOverflow));
    :- Need(c.supply + amount <= c.cap, CapExceeded);
    :- Need(c.nextSwapId + 1 <= U64_MAX, Panicked(SwapIdOverflow));
    Done(st.(config := c.(supply := c.supply + amount, nextSwapId := c.nextSwapId + 1)),
         Swapped(destination, c.nextSwapId, amount))
  }

  function TryReverseSwap(st: Store, env: Env, info: Info, rid: u64, to: Address, sender: string,
                          originTxHash: string, amount: u128, relayEon: u64): StdResult<Reply>
  {
    var c := st.config;
    :- OnlyRole(st, info.sender, Relayer);
    :- Need(relayEon == c.relayEon, WrongEon);
    :- Need(env.height < c.pausedSinceRelayer, ContractPaused);
    :- Need(amount <= c.allowance, AllowanceExceeded);
    :- Need(amount <= c.supply, SupplyExceeded);
    if amount > c.swapFee then
      var recipient :- Resolve(env);
      :- Need(c.feesAccrued + c.swapFee <= U128_MAX, Panicked(FeesOverflow));
      DoneSending(
        st.(config := c.(supply := c.supply - amount, allowance := c.allowance - amount,
                         feesAccrued := c.feesAccrued + c.swapFee)),
        ReverseSwapped("sender", rid, to, sender, originTxHash, amount - c.swapFee, c.swapFee),
        Send(recipient, c.denom, amount - c.swapFee))
    else
      :- Need(c.feesAccrued + amount <= U128_MAX, Panicked(FeesOverflow));
      Done(
        st.(config := c.(supply := c.supply - amount, allowance := c.allowance - amount,
                         feesAccrued := c.feesAccrued + amount)),
        ReverseSwapped("from", rid, to, sender, originTxHash, 0, amount))
  }

  function TryRefundWithFee(st: Store, env: Env, info: Info, id: u64, to: Address, amount: u128,
                            relayEon: u64, fee: u128): StdResult<Reply>
  {
    var c := st.config;
    :- OnlyRole(st, info.sender, Relayer);
    :- Need(relayEon == c.relayEon, WrongEon);
    :- Need(env.height < c.pausedSinceRelayer, ContractPaused);
    :- VerifyRefundSwapId(st, id);
    :- Need(amount <= c.allowance, AllowanceExceeded);
    :- Need(amount <= c.supply, SupplyExceeded);
    if amount > fee then
      var recipient :- Resolve(env);
      :- Need(c.feesAccrued + fee <= U128_MAX, Panicked(FeesOverflow));
      DoneSending(
        st.(config := c.(supply := c.supply - amount, allowance := c.allowance - amount,
                         feesAccrued := c.feesAccrued + fee),
            refunds := st.refunds + {id}),
        Refunded(to, id, amount - fee, fee),
        Send(recipient, c.denom, amount - fee))
    else
      :- Need(c.feesAccrued + amount <= U128_MAX, Panicked(FeesOverflow));
      Done(
        st.(config := c.(supply := c.supply - amount, allowance := c.allowance - amount,
                         feesAccrued := c.feesAccrued + amount),
            refunds := st.refunds + {id}),
        Refunded(to, id, 0, amount))
  }

  function TryRefund(st: Store, env: Env, info: Info, id: u64, to: Address, amount: u128, relayEon: u64)
    : StdResult<Reply>
  {
    TryRefundWithFee(st, env, info, id, to, amount, relayEon, st.config.swapFee)
  }

  function TryRefundInFull(st: Store, env: Env, info: Info, id: u64, to: Address, amount: u128, relayEon: u64)
    : StdResult<Reply>
  {
    TryRefundWithFee(st, env, info, id, to, amount, relayEon, 0)
  }

  /** A pause block in the past means "from now on". */
  function PauseBlock(env: Env, sinceBlock: u64): u64 {
    if sinceBlock < env.height then env.height else sinceBlock
  }

  function TryPausePublicApi(st: Store, env: Env, info: Info, sinceBlock: u64): StdResult<Reply> {
    var guard := CanPause(st, env, info.sender, sinceBlock);
    :- guard;
    Done(st.(config := st.config.(pausedSincePublic := PauseBlock(env, sinceBlock))),
         PublicApiPaused(PauseBlock(env, sinceBlock)))
  }

  function TryPauseRelayerApi(st: Store, env: Env, info: Info, sinceBlock: u64): StdResult<Reply> {
    var guard := CanPause(st, env, info.sender, sinceBlock);
    :- guard;
    Done(st.(config := st.config.(pausedSinceRelayer := PauseBlock(env, sinceBlock))),
         RelayerApiPaused(PauseBlock(env, sinceBlock)))
  }

  function TryNewRelayEon(st: Store, env: Env, info: Info): StdResult<Reply> {
    var c := st.config;
    :- OnlyRole(st, info.sender, Relayer);
    :- Need(env.height < c.pausedSinceRelayer, ContractPaused);
    :- Need(c.relayEon + 1 <= U64_MAX, Panicked(EonOverflow));
    Done(st.(config := c.(relayEon := c.relayEon + 1)), RelayEonStarted(c.relayEon + 1))
  }

  function TryDeposit(st: Store, info: Info): StdResult<Reply> {
    var c := st.config;
    :- OnlyRole(st, info.sender, Admin);
    var amount :- AmountFromFunds(info.funds, c.denom);
    :- Need(c.supply + amount <= U128_MAX, Panicked(SupplyOverflow));
    :- Need(c.supply + amount <= c.cap, CapExceeded);
    Done(st.(config := c.(supply := c.supply + amount)), Deposited(amount, info.sender))
  }

  function TryWithdraw(st: Store, env: Env, info: Info, amount: u128, target: Address): StdResult<Reply> {
    var c := st.config;
    :- OnlyRole(st, info.sender, Admin);
    :- Need(amount <= c.supply, SupplyExceeded);
    var recipient :- Resolve(env);
    DoneSending(st.(config := c.(supply := c.supply - amount)),
                Withdrawn(amount, target), Send(recipient, c.denom, amount))
  }

  function TryWithdrawFees(st: Store, env: Env, info: Info, amount: u128, target: Address): StdResult<Reply> {
    var c := st.config;
    :- OnlyRole(st, info.sender, Admin);
    :- Need(amount <= c.feesAccrued, SupplyExceeded);
    var recipient :- Resolve(env);
    DoneSending(st.(config := c.(feesAccrued := c.feesAccrued - amount)),
                FeesWithdrawn(amount, target), Send(recipient, c.denom, amount))
  }

  function TryMint(st: Store, info: Info, amount: u128): StdResult<Reply> {
    var c := st.config;
    :- OnlyRole(st, info.sender, Admin);
    :- Need(c.supply + amount <= U128_MAX, Panicked(SupplyOverflow));
    :- Need(c.supply + amount <= c.cap, CapExceeded);
    DoneSending(st.(config := c.(supply := c.supply + amount)), Minted(amount), MintToContract(c.denom, amount))
  }

  function TryBurn(st: Store, info: Info, amount: u128): StdResult<Reply> {
    var c := st.config;
    :- OnlyRole(st, info.sender, Admin);
    :- Need(amount <= c.supply, SupplyExceeded);
    DoneSending(st.(config := c.(supply := c.supply - amount)), Burned(amount), BurnFromContract(c.denom, amount))
  }

  function TrySetCap(st: Store, info: Info, amount: u128): StdResult<Reply> {
    var guard := OnlyRole(st, info.sender, Admin);
    :- guard;
    Done(st.(config := st.config.(cap := amount)), CapSet(amount))
  }

  function TrySetAllowance(st: Store, info: Info, amount: u128): StdResult<Reply> {
    var guard := SenderMaySetAllowance(st, info.sender, amount);
    :- guard;
    Done(st.(config := st.config.(allowance := amount)), AllowanceSet(amount))
  }

  function TrySetApproverCap(st: Store, info: Info, amount: u128): StdResult<Reply> {
    var guard := OnlyRole(st, info.sender, Admin);
    :- guard;
    Done(st.(config := st.config.(approverCap := amount)), ApproverCapSet(amount))
  }

  function TrySetLimits(st: Store, info: Info, swapMin: u128, swapMax: u128, swapFee: u128): StdResult<Reply> {
    var guard := OnlyRole(st, info.sender, Admin);
    :- guard;
    :- Need(swapFee < swapMin <= swapMax, LimitsInconsistent);
    Done(st.(config := st.config.(swapFee := swapFee, lowerSwapLimit := swapMin, upperSwapLimit := swapMax)),
         LimitsSet(swapFee, swapMin, swapMax))
  }

  function TryGrantRole(st: Store, info: Info, role: string, address: Address): StdResult<Reply> {
    var guard := OnlyRole(st, info.sender, Admin);
    :- guard;
    var r :- ParseRole(role);
    var st' :- AddRole(st, address, r);
    Done(st', RoleGranted(role, address))
  }

  function TryRevokeRole(st: Store, info: Info, role: string, address: Address): StdResult<Reply> {
    var guard := OnlyRole(st, info.sender, Admin);
    :- guard;
    var r :- ParseRole(role);
    var st' :- RemoveRole(st, address, r);
    Done(st', RoleRevoked(role, address))
  }

  function TryRenounceRole(st: Store, info: Info, role: string): StdResult<Reply> {
    var r :- ParseRole(role);
    var st' :- RemoveRole(st, info.sender, r);
    Done(st', RoleRenounced(role, info.sender))
  }

  function Execute(st: Store, env: Env, info: Info, msg: ExecuteMsg): StdResult<Reply> {
    match msg
    case Swap(destination) =>
      var amount :- AmountFromFunds(info.funds, st.config.denom);
      TrySwap(st, env, amount, destination)
    case ReverseSwap(rid, to, sender, originTxHash, amount, relayEon) =>
      TryReverseSwap(st, env, info, rid, to, sender, originTxHash, amount, relayEon)
    case Refund(id, to, amount, relayEon) => TryRefund(st, env, info, id, to, amount, relayEon)
    case RefundInFull(id, to, amount, relayEon) => TryRefundInFull(st, env, info, id, to, amount, relayEon)
    case PausePublicApi(sinceBlock) => TryPausePublicApi(st, env, info, sinceBlock)
    case PauseRelayerApi(sinceBlock) => TryPauseRelayerApi(st, env, info, sinceBlock)
    case NewRelayEon => TryNewRelayEon(st, env, info)
    case Deposit => TryDeposit(st, info)
    case Withdraw(amount, target) => TryWithdraw(st, env, info, amount, target)
    case WithdrawFees(amount, target) => TryWithdrawFees(st, env, info, amount, target)
    case SetCap(amount) => TrySetCap(st, info, amount)
    case SetAllowance(amount) => TrySetAllowance(st, info, amount)
    case SetApproverCap(amount) => TrySetApproverCap(st, info, amount)
    case SetLimits(swapMin, swapMax, swapFee) => TrySetLimits(st, info, swapMin, swapMax, swapFee)
    case GrantRole(role, address) => TryGrantRole(st, info, role, address)
    case RevokeRole(role, address) => TryRevokeRole(st, info, role, address)
    case RenounceRole(role) => TryRenounceRole(st, info, role)
    case Mint(amount) => TryMint(st, info, amount)
    case Burn(amount) => TryBurn(st, info, amount)
  }

  // ---------- the chain ----------

  /** The contract, the bank's ledger of the contract's denomination, and the current block. */
  datatype World = World(store: Store, bank: Ledger, height: nat)

  /** Runs the emitted messages in order; `None` when one of them cannot be paid or names another denomination. */
  function Dispatch(bank: Ledger, contract: Address, denom: string, msgs: seq<BankMsg>): Option<Ledger>
    decreases |msgs|
  {
    if msgs == [] then Some(bank)
    else if msgs[0].denom != denom then None
    else
      var next := match msgs[0]
        case Send(to, _, amount) => bank.Move(contract, to, amount)
        case MintToContract(_, amount) => Some(bank.Issue(contract, amount))
        case BurnFromContract(_, amount) => bank.Retire(contract, amount);
      if next.None? then None else Dispatch(next.value, contract, denom, msgs[1..])
  }

  lemma DispatchOne(bank: Ledger, contract: Address, denom: string, m: BankMsg)
    requires m.Send? && m.denom == denom
    ensures Dispatch(bank, contract, denom, [m]) == bank.Move(contract, m.to, m.amount)
  {
    assert [m][1..] == [];
  }

  datatype Delivered = Delivered(world: World, event: Event)

  /** The attached funds reach the contract before the handler runs. */
  function CreditFunds(w: World, info: Info): Option<Ledger> {
    w.bank.Move(info.sender, w.store.config.contractAddr, Attached(info.funds, w.store.config.denom))
  }

  function Deliver(w: World, env: Env, info: Info, msg: ExecuteMsg): StdResult<Delivered> {
    var c := w.store.config;
    :- Need(w.height <= env.height, StaleBlock);
    :- Need(info.sender != c.contractAddr, OwnMessage);
    var credited := CreditFunds(w, info);
    :- Need(credited.Some?, InsufficientFunds);
    var reply :- Execute(w.store, env, info, msg);
    var bank := Dispatch(credited.value, c.contractAddr, c.denom, reply.response.msgs);
    :- Need(bank.Some? && (env.bankAccepts || reply.response.msgs == []), BankRefused);
    Ok(Delivered(World(reply.store, bank.value, env.height), reply.response.event))
  }

  function InstantiateWorld(bank: Ledger, contract: Address, env: Env, info: Info, msg: InstantiateMsg)
    : StdResult<World>
  {
    var st :- Instantiate(contract, env, info, msg);
    :- Need(info.sender != contract, OwnMessage);
    var credited := bank.Move(info.sender, contract, Attached(info.funds, st.config.denom));
    :- Need(credited.Some?, InsufficientFunds);
    Ok(World(st, credited.value, env.height))
  }

  /** What can happen on the chain: a call of the contract, or movements of the denomination that
      do not involve it. Only the contract's own messages debit its account. */
  datatype Action =
    | Call(env: Env, info: Info, msg: ExecuteMsg)
    | Transfer(from: Address, to: Address, amount: nat)
    | IssueOutside(to: Address, amount: nat)
    | RetireOutside(from: Address, amount: nat)

  /** The world after an action; a rejected call only lets the blocks advance. */
  function Next(w: World, a: Action): World {
    match a
    case Call(env, info, msg) =>
      var r := Deliver(w, env, info, msg);
      if r.Ok? then r.value.world else w.(height := Max(w.height, env.height))
    case Transfer(from, to, amount) =>
      var bank := w.bank.Move(from, to, amount);
      if from == w.store.config.contractAddr || bank.None? then w else w.(bank := bank.value)
    case IssueOutside(to, amount) => w.(bank := w.bank.Issue(to, amount))
    case RetireOutside(from, amount) =>
      var bank := w.bank.Retire(from, amount);
      if from == w.store.config.contractAddr || bank.None? then w else w.(bank := bank.value)
  }

  predicate Accepted(w: World, a: Action) {
    a.Call? && Deliver(w, a.env, a.info, a.msg).Ok?
  }

  function EventOf(w: World, a: Action): Event
    requires Accepted(w, a)
  {
    Deliver(w, a.env, a.info, a.msg).value.event
  }

  function Run(w: World, acts: seq<Action>): World
    decreases |acts|
  {
    if acts == [] then w else Run(Next(w, acts[0]), acts[1..])
  }

  /** The events a run emits: one per accepted call. */
  function Events(w: World, acts: seq<Action>): seq<Event>
    decreases |acts|
  {
    if acts == [] then []
    else (if Accepted(w, acts[0]) then [EventOf(w, acts[0])] else []) + Events(Next(w, acts[0]), acts[1..])
  }

  /** The chain refuses a transaction whole, and keeps an accepted one whole. */
  lemma AcceptedStep(w: World, a: Action)
    requires Accepted(w, a)
    ensures Execute(w.store, a.env, a.info, a.msg).Ok?
    ensures Next(w, a).store == Execute(w.store, a.env, a.info, a.msg).value.store
    ensures EventOf(w, a) == Execute(w.store, a.env, a.info, a.msg).value.response.event
  {
  }

  lemma RejectedStep(w: World, a: Action)
    requires !Accepted(w, a)
    ensures Next(w, a).store == w.store
  {
  }

  lemma {:induction false} RunSplits(w: World, acts: seq<Action>, i: nat)
    requires i <= |acts|
    ensures Run(w, acts) == Run(Run(w, acts[..i]), acts[i..])
    decreases i
  {
    if i > 0 {
      RunSplits(Next(w, acts[0]), acts[1..], i - 1);
      assert acts[1..][..i - 1] == acts[..i][1..];
      assert acts[1..][i - 1..] == acts[i..];
    } else {
      assert acts[..0] == [] && acts[0..] == acts;
    }
  }
}
