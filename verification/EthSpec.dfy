/** What every external method of `Bridge.sol` does, as functions on the contract's state and the
    token ledger, and how the chain runs a transaction: a revert leaves nothing behind. */
module EthSpec {
  import opened Types
  import opened Ledgers

  /** Addresses are opaque names here; the empty one stands for `address(0)`. */
  const ZERO_ADDRESS: Address := []
  const U64_MODULUS: int := 0x1_0000_0000_0000_0000

  /** The unchecked increment of a `uint64`. */
  function Increment64(n: u64): u64 {
    (n + 1) % U64_MODULUS
  }

  // ---------- data ----------

  datatype State = State(
    bridge: Address,
    token: Ledger,
    earliestDelete: u256,
    deleted: bool,
    supply: u256,
    nextSwapId: u64,
    relayEon: u64,
    refunds: map<u64, nat>,
    swapMax: u256,
    swapMin: u256,
    cap: u256,
    swapFee: u256,
    pausedSincePublic: u256,
    pausedSinceRelayer: u256,
    allowance: u256,
    approverCap: u256,
    roles: set<(Address, AccessRole)>)

  /** The transaction's context; `tokenAccepts` is false when the token refuses the call for a reason of
      its own, such as a missing ERC-20 allowance. */
  datatype Context = Context(sender: Address, block: u256, tokenAccepts: bool)

  datatype Method =
    | Swap(amount: u256, destination: string)
    | Refund(id: u64, to: Address, amount: u256, relayEon: u64)
    | RefundInFull(id: u64, to: Address, amount: u256, relayEon: u64)
    | ReverseSwap(rid: u64, to: Address, from: string, originTxHash: string, amount: u256, relayEon: u64)
    | NewRelayEon
    | PausePublicApiSince(blockNumber: u256)
    | PauseRelayerApiSince(blockNumber: u256)
    | Mint(amount: u256)
    | Burn(amount: u256)
    | SetCap(value: u256)
    | SetAllowance(value: u256)
    | SetApproverCap(value: u256)
    | SetLimits(swapMax: u256, swapMin: u256, swapFee: u256)
    | Withdraw(target: Address, amount: u256)
    | Deposit(amount: u256)
    | WithdrawFees(target: Address)
    | DeleteContract(target: Address)
    | GrantRole(role: AccessRole, account: Address)
    | RevokeRole(role: AccessRole, account: Address)
    | RenounceRole(role: AccessRole, account: Address)

  /** The transaction's log: the bridge's events and the token's `Transfer` events. */
  datatype Log =
    | SwapLog(id: u64, sender: Address, destination: string, amount: u256)
    | SwapRefund(id: u64, to: Address, refundedAmount: u256, fee: u256)
    | ReverseSwapLog(rid: u64, to: Address, from: string, originTxHash: string, effectiveAmount: u256, fee: u256)
    | PausePublicApi(sinceBlock: u256)
    | PauseRelayerApi(sinceBlock: u256)
    | NewRelayEonLog(eon: u64)
    | LimitsUpdate(max: u256, min: u256, fee: u256)
    | CapUpdate(value: u256)
    | AllowanceUpdate(value: u256)
    | ApproverCapUpdate(value: u256)
    | WithdrawLog(target: Address, amount: u256)
    | DepositLog(source: Address, amount: u256)
    | FeesWithdrawal(target: Address, fees: nat)
    | DeleteContractLog(target: Address, balance: nat)
    | RoleGranted(role: AccessRole, account: Address)
    | RoleRevoked(role: AccessRole, account: Address)
    | TokenTransfer(source: Address, to: Address, tokens: nat)

  datatype Revert =
    | OnlyAdmin | OnlyRelayer | OnlyAdminOrMonitor | OnlyAdminOrApprover | RenounceForSelfOnly
    | WrongEon | Paused | BelowMin | AboveMax | InvalidSwapId | AlreadyRefunded
    | CapExceeded | SupplyExceeded | AllowanceExceeded | LimitsInconsistent | NoFees | BalanceBelowSupply
    | Overflow | TokenReverted | TooEarlyToDelete | PayoutToSelf | NoCode
    | StaleBlock | OwnMessage

  type Outcome<+T> = Result<T, Revert>

  datatype Effect = Effect(state: State, log: seq<Log>)

  // ---------- modifiers and internal functions ----------

  predicate HasRole(s: State, a: Address, role: AccessRole) {
    (a, role) in s.roles
  }

  function OnlyOwner(s: State, ctx: Context): Check<Revert> {
    Need(HasRole(s, ctx.sender, Admin), OnlyAdmin)
  }

  function OnlyRelayerRole(s: State, ctx: Context): Check<Revert> {
    Need(HasRole(s, ctx.sender, Relayer), OnlyRelayer)
  }

  function CanPause(s: State, ctx: Context, blockNumber: u256): Check<Revert> {
    if blockNumber > ctx.block then OnlyOwner(s, ctx)
    else Need(HasRole(s, ctx.sender, Monitor) || HasRole(s, ctx.sender, Admin), OnlyAdminOrMonitor)
  }

  function CanSetAllowance(s: State, ctx: Context, value: u256): Check<Revert> {
    if value > s.approverCap then OnlyOwner(s, ctx)
    else Need(HasRole(s, ctx.sender, Approver) || HasRole(s, ctx.sender, Admin), OnlyAdminOrApprover)
  }

  /** A mapping entry that was never written reads as zero. */
  function RefundOf(s: State, id: u64): nat {
    ValueOf(s.refunds, id)
  }

  function VerifyRefundSwapId(s: State, id: u64): Check<Revert> {
    if id >= s.nextSwapId then Fail(InvalidSwapId)
    else Need(RefundOf(s, id) == 0, AlreadyRefunded)
  }

  function PauseBlock(ctx: Context, blockNumber: u256): u256 {
    if blockNumber < ctx.block then ctx.block else blockNumber
  }

  // ---------- the token ----------

  /** `transfer` and `transferFrom`: the token reverts rather than returning false, and it never moves
      tokens from or to the zero address. */
  function TokenMove(s: State, ctx: Context, from: Address, to: Address, amount: nat): Outcome<Ledger> {
    var moved := s.token.Move(from, to, amount);
    :- Need(ctx.tokenAccepts && from != ZERO_ADDRESS && to != ZERO_ADDRESS && moved.Some?, TokenReverted);
    Ok(moved.value)
  }

  function TokenMint(s: State, ctx: Context, to: Address, amount: nat): Outcome<Ledger> {
    var guard := Need(ctx.tokenAccepts && to != ZERO_ADDRESS && s.token.total + amount <= U256_MAX, TokenReverted);
    :- guard;
    Ok(s.token.Issue(to, amount))
  }

  function TokenBurn(s: State, ctx: Context, from: Address, amount: nat): Outcome<Ledger> {
    var retired := s.token.Retire(from, amount);
    :- Need(ctx.tokenAccepts && from != ZERO_ADDRESS && retired.Some?, TokenReverted);
    Ok(retired.value)
  }

  function GetFeesAccrued(s: State): Outcome<nat> {
    var balance := s.token.Balance(s.bridge);
    :- Need(s.supply <= balance, BalanceBelowSupply);
    Ok(balance - s.supply)
  }

  // ---------- external methods ----------

  function DoSwap(s: State, ctx: Context, amount: u256, destination: string): Outcome<Effect> {
    var guard := Need(s.pausedSincePublic > ctx.block, Paused);
    :- guard;
    :- Need(amount >= s.swapMin, BelowMin);
    :- Need(amount <= s.swapMax, AboveMax);
    :- Need(s.supply + amount <= U256_MAX, Overflow);
    :- Need(s.cap >= s.supply + amount, CapExceeded);
    var token :- TokenMove(s, ctx, ctx.sender, s.bridge, amount);
    Ok(Effect(s.(supply := s.supply + amount, token := token, nextSwapId := Increment64(s.nextSwapId)),
              [TokenTransfer(ctx.sender, s.bridge, amount), SwapLog(s.nextSwapId, ctx.sender, destination, amount)]))
  }

  /** The guards and bookkeeping common to refunds and reverse swaps. */
  function Release(s: State, amount: u256): Outcome<State> {
    var guard := Need(amount <= s.allowance, AllowanceExceeded);
    :- guard;
    :- Need(amount <= s.supply, SupplyExceeded);
    Ok(s.(allowance := s.allowance - amount, supply := s.supply - amount))
  }

  function RelayerGuards(s: State, ctx: Context, amount: u256, relayEon: u64): Check<Revert> {
    if s.pausedSinceRelayer <= ctx.block then Fail(Paused)
    else if s.relayEon != relayEon then Fail(WrongEon)
    else if amount > s.swapMax then Fail(AboveMax)
    else OnlyRelayerRole(s, ctx)
  }

  function DoRefund(s: State, ctx: Context, id: u64, to: Address, amount: u256, relayEon: u64): Outcome<Effect> {
    var guard := RelayerGuards(s, ctx, amount, relayEon);
    :- guard;
    :- VerifyRefundSwapId(s, id);
    var s' :- Release(s, amount);
    if amount > s.swapFee then
      var token :- TokenMove(s, ctx, s.bridge, to, amount - s.swapFee);
      Ok(Effect(s'.(token := token, refunds := s.refunds[id := amount]),
                [TokenTransfer(s.bridge, to, amount - s.swapFee), SwapRefund(id, to, amount - s.swapFee, s.swapFee)]))
    else
      Ok(Effect(s'.(refunds := s.refunds[id := amount]), [SwapRefund(id, to, 0, amount)]))
  }

  function DoRefundInFull(s: State, ctx: Context, id: u64, to: Address, amount: u256, relayEon: u64): Outcome<Effect> {
    var guard := RelayerGuards(s, ctx, amount, relayEon);
    :- guard;
    :- VerifyRefundSwapId(s, id);
    var s' :- Release(s, amount);
    var token :- TokenMove(s, ctx, s.bridge, to, amount);
    Ok(Effect(s'.(token := token, refunds := s.refunds[id := amount]),
              [TokenTransfer(s.bridge, to, amount), SwapRefund(id, to, amount, 0)]))
  }

  function DoReverseSwap(s: State, ctx: Context, rid: u64, to: Address, from: string, originTxHash: string,
                         amount: u256, relayEon: u64): Outcome<Effect>
  {
    var guard := RelayerGuards(s, ctx, amount, relayEon);
    :- guard;
    var s' :- Release(s, amount);
    if amount > s.swapFee then
      var token :- TokenMove(s, ctx, s.bridge, to, amount - s.swapFee);
      Ok(Effect(s'.(token := token),
                [TokenTransfer(s.bridge, to, amount - s.swapFee),
                 ReverseSwapLog(rid, to, from, originTxHash, amount - s.swapFee, s.swapFee)]))
    else
      Ok(Effect(s', [ReverseSwapLog(rid, to, from, originTxHash, 0, amount)]))
  }

  function DoNewRelayEon(s: State, ctx: Context): Outcome<Effect> {
    var guard := Need(s.pausedSinceRelayer > ctx.block, Paused);
    :- guard;
    :- OnlyRelayerRole(s, ctx);
    Ok(Effect(s.(relayEon := Increment64(s.relayEon)), [NewRelayEonLog(Increment64(s.relayEon))]))
  }

  function DoPausePublicApi(s: State, ctx: Context, blockNumber: u256): Outcome<Effect> {
    var guard := CanPause(s, ctx, blockNumber);
    :- guard;
    Ok(Effect(s.(pausedSincePublic := PauseBlock(ctx, blockNumber)), [PausePublicApi(PauseBlock(ctx, blockNumber))]))
  }

  function DoPauseRelayerApi(s: State, ctx: Context, blockNumber: u256): Outcome<Effect> {
    var guard := CanPause(s, ctx, blockNumber);
    :- guard;
    Ok(Effect(s.(pausedSinceRelayer := PauseBlock(ctx, blockNumber)), [PauseRelayerApi(PauseBlock(ctx, blockNumber))]))
  }

  function DoMint(s: State, ctx: Context, amount: u256): Outcome<Effect> {
    var guard := OnlyOwner(s, ctx);
    :- guard;
    :- Need(s.supply + amount <= U256_MAX, Overflow);
    :- Need(s.cap >= s.supply + amount, CapExceeded);
    var token :- TokenMint(s, ctx, s.bridge, amount);
    Ok(Effect(s.(supply := s.supply + amount, token := token), [TokenTransfer(ZERO_ADDRESS, s.bridge, amount)]))
  }

  function DoBurn(s: State, ctx: Context, amount: u256): Outcome<Effect> {
    var guard := OnlyOwner(s, ctx);
    :- guard;
    :- Need(amount <= s.supply, SupplyExceeded);
    var token :- TokenBurn(s, ctx, s.bridge, amount);
    Ok(Effect(s.(supply := s.supply - amount, token := token), [TokenTransfer(s.bridge, ZERO_ADDRESS, amount)]))
  }

  function DoSetCap(s: State, ctx: Context, value: u256): Outcome<Effect> {
    var guard := OnlyOwner(s, ctx);
    :- guard;
    Ok(Effect(s.(cap := value), [CapUpdate(value)]))
  }

  function DoSetAllowance(s: State, ctx: Context, value: u256): Outcome<Effect> {
    var guard := CanSetAllowance(s, ctx, value);
    :- guard;
    Ok(Effect(s.(allowance := value), [AllowanceUpdate(value)]))
  }

  function DoSetApproverCap(s: State, ctx: Context, value: u256): Outcome<Effect> {
    var guard := OnlyOwner(s, ctx);
    :- guard;
    Ok(Effect(s.(approverCap := value), [ApproverCapUpdate(value)]))
  }

  function DoSetLimits(s: State, ctx: Context, swapMax: u256, swapMin: u256, swapFee: u256): Outcome<Effect> {
    var guard := OnlyOwner(s, ctx);
    :- guard;
    :- Need(swapFee <= swapMin <= swapMax, LimitsInconsistent);
    Ok(Effect(s.(swapMax := swapMax, swapMin := swapMin, swapFee := swapFee),
              [LimitsUpdate(swapMax, swapMin, swapFee)]))
  }

  function DoWithdraw(s: State, ctx: Context, target: Address, amount: u256): Outcome<Effect> {
    var guard := OnlyOwner(s, ctx);
    :- guard;
    :- Need(amount <= s.supply, SupplyExceeded);
    var token :- TokenMove(s, ctx, s.bridge, target, amount);
    Ok(Effect(s.(supply := s.supply - amount, token := token),
              [TokenTransfer(s.bridge, target, amount), WithdrawLog(target, amount)]))
  }

  function DoDeposit(s: State, ctx: Context, amount: u256): Outcome<Effect> {
    var guard := OnlyOwner(s, ctx);
    :- guard;
    :- Need(s.supply + amount <= U256_MAX, Overflow);
    :- Need(s.cap >= s.supply + amount, CapExceeded);
    var token :- TokenMove(s, ctx, ctx.sender, s.bridge, amount);
    Ok(Effect(s.(supply := s.supply + amount, token := token),
              [TokenTransfer(ctx.sender, s.bridge, amount), DepositLog(ctx.sender, amount)]))
  }

  function DoWithdrawFees(s: State, ctx: Context, target: Address): Outcome<Effect> {
    var guard := OnlyOwner(s, ctx);
    :- guard;
    var fees :- GetFeesAccrued(s);
    :- Need(fees > 0, NoFees);
    var token :- TokenMove(s, ctx, s.bridge, target, fees);
    Ok(Effect(s.(token := token), [TokenTransfer(s.bridge, target, fees), FeesWithdrawal(target, fees)]))
  }

  function DoDeleteContract(s: State, ctx: Context, target: Address): Outcome<Effect> {
    var guard := OnlyOwner(s, ctx);
    :- guard;
    :- Need(s.earliestDelete <= ctx.block, TooEarlyToDelete);
    :- Need(target != s.bridge, PayoutToSelf);
    var balance := s.token.Balance(s.bridge);
    var token :- TokenMove(s, ctx, s.bridge, target, balance);
    Ok(Effect(s.(token := token, deleted := true),
              [TokenTransfer(s.bridge, target, balance), DeleteContractLog(target, balance)]))
  }

  // The role methods are inherited; granting a held role and revoking a missing one change nothing.

  function DoGrantRole(s: State, ctx: Context, role: AccessRole, account: Address): Outcome<Effect> {
    var guard := OnlyOwner(s, ctx);
    :- guard;
    if HasRole(s, account, role) then Ok(Effect(s, []))
    else Ok(Effect(s.(roles := s.roles + {(account, role)}), [RoleGranted(role, account)]))
  }

  function DropRole(s: State, role: AccessRole, account: Address): Effect {
    if HasRole(s, account, role) then Effect(s.(roles := s.roles - {(account, role)}), [RoleRevoked(role, account)])
    else Effect(s, [])
  }

  function DoRevokeRole(s: State, ctx: Context, role: AccessRole, account: Address): Outcome<Effect> {
    var guard := OnlyOwner(s, ctx);
    :- guard;
    Ok(DropRole(s, role, account))
  }

  function DoRenounceRole(s: State, ctx: Context, role: AccessRole, account: Address): Outcome<Effect> {
    var guard := Need(account == ctx.sender, RenounceForSelfOnly);
    :- guard;
    Ok(DropRole(s, role, account))
  }

  function Execute(s: State, ctx: Context, m: Method): Outcome<Effect> {
    match m
    case Swap(amount, destination) => DoSwap(s, ctx, amount, destination)
    case Refund(id, to, amount, relayEon) => DoRefund(s, ctx, id, to, amount, relayEon)
    case RefundInFull(id, to, amount, relayEon) => DoRefundInFull(s, ctx, id, to, amount, relayEon)
    case ReverseSwap(rid, to, from, originTxHash, amount, relayEon) =>
      DoReverseSwap(s, ctx, rid, to, from, originTxHash, amount, relayEon)
    case NewRelayEon => DoNewRelayEon(s, ctx)
    case PausePublicApiSince(blockNumber) => DoPausePublicApi(s, ctx, blockNumber)
    case PauseRelayerApiSince(blockNumber) => DoPauseRelayerApi(s, ctx, blockNumber)
    case Mint(amount) => DoMint(s, ctx, amount)
    case Burn(amount) => DoBurn(s, ctx, amount)
    case SetCap(value) => DoSetCap(s, ctx, value)
    case SetAllowance(value) => DoSetAllowance(s, ctx, value)
    case SetApproverCap(value) => DoSetApproverCap(s, ctx, value)
    case SetLimits(swapMax, swapMin, swapFee) => DoSetLimits(s, ctx, swapMax, swapMin, swapFee)
    case Withdraw(target, amount) => DoWithdraw(s, ctx, target, amount)
    case Deposit(amount) => DoDeposit(s, ctx, amount)
    case WithdrawFees(target) => DoWithdrawFees(s, ctx, target)
    case DeleteContract(target) => DoDeleteContract(s, ctx, target)
    case GrantRole(role, account) => DoGrantRole(s, ctx, role, account)
    case RevokeRole(role, account) => DoRevokeRole(s, ctx, role, account)
    case RenounceRole(role, account) => DoRenounceRole(s, ctx, role, account)
  }

  datatype Deployment = Deployment(
    cap: u256, allowance: u256, approverCap: u256, swapMax: u256, swapMin: u256, swapFee: u256,
    pausedSincePublic: u256, pausedSinceRelayer: u256, deleteProtectionPeriod: u256)

  /** The constructor; the eon starts at the largest value so that the first increment gives zero. */
  function Deploy(bridge: Address, token: Ledger, ctx: Context, d: Deployment): Outcome<State> {
    var guard := Need(ctx.block + d.deleteProtectionPeriod <= U256_MAX, Overflow);
    :- guard;
    :- Need(d.swapFee <= d.swapMin <= d.swapMax, LimitsInconsistent);
    Ok(State(bridge, token, ctx.block + d.deleteProtectionPeriod, false, 0, 0, U64_MAX, map[],
             d.swapMax, d.swapMin, d.cap, d.swapFee,
             PauseBlock(ctx, d.pausedSincePublic), PauseBlock(ctx, d.pausedSinceRelayer),
             d.allowance, d.approverCap, {(ctx.sender, Admin)}))
  }

  // ---------- the chain ----------

  datatype World = World(state: State, block: nat)

  /** A call of the bridge, or token movements that do not involve it. The bridge never calls its own
      state-changing methods, and nobody but the bridge mints to it. */
  datatype Action =
    | Call(ctx: Context, m: Method)
    | Transfer(from: Address, to: Address, amount: nat)
    | MintOutside(to: Address, amount: nat)
    | BurnOutside(from: Address, amount: nat)

  function Deliver(w: World, ctx: Context, m: Method): Outcome<Effect> {
    var guard := Need(w.block <= ctx.block, StaleBlock);
    :- guard;
    :- Need(ctx.sender != w.state.bridge, OwnMessage);
    :- Need(!w.state.deleted, NoCode);
    Execute(w.state, ctx, m)
  }

  /** A token event outside the bridge; `None` when the token refuses it. */
  function OutsideToken(s: State, a: Action): Option<Effect>
    requires !a.Call?
  {
    match a
    case Transfer(from, to, amount) =>
      var token := s.token.Move(from, to, amount);
      if from == s.bridge || from == ZERO_ADDRESS || to == ZERO_ADDRESS || token.None? then None
      else Some(Effect(s.(token := token.value), [TokenTransfer(from, to, amount)]))
    case MintOutside(to, amount) =>
      if to == s.bridge || to == ZERO_ADDRESS || s.token.total + amount > U256_MAX then None
      else Some(Effect(s.(token := s.token.Issue(to, amount)), [TokenTransfer(ZERO_ADDRESS, to, amount)]))
    case BurnOutside(from, amount) =>
      var token := s.token.Retire(from, amount);
      if from == s.bridge || from == ZERO_ADDRESS || token.None? then None
      else Some(Effect(s.(token := token.value), [TokenTransfer(from, ZERO_ADDRESS, amount)]))
  }

  /** The effect of an action, with an empty log when it is refused. */
  function Step(w: World, a: Action): Effect {
    if a.Call? then
      var r := Deliver(w, a.ctx, a.m);
      if r.Ok? then r.value else Effect(w.state, [])
    else
      var r := OutsideToken(w.state, a);
      if r.Some? then r.value else Effect(w.state, [])
  }

  function Next(w: World, a: Action): World {
    World(Step(w, a).state, if a.Call? then Max(w.block, a.ctx.block) else w.block)
  }

  predicate Accepted(w: World, a: Action) {
    a.Call? && Deliver(w, a.ctx, a.m).Ok?
  }

  function Run(w: World, acts: seq<Action>): World
    decreases |acts|
  {
    if acts == [] then w else Run(Next(w, acts[0]), acts[1..])
  }

  /** Everything a run logs, in order. */
  function Logs(w: World, acts: seq<Action>): seq<Log>
    decreases |acts|
  {
    if acts == [] then [] else Step(w, acts[0]).log + Logs(Next(w, acts[0]), acts[1..])
  }
}
