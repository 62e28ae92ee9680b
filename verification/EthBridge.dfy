/** `Bridge.sol` as it runs: a contract object whose methods assign its fields in the source's order and
    call a token object, proved to do what `EthSpec` says; `Play` carries what holds of whole runs over to the
    object. A failed `require` returns an error with the assignments made so far still in place; `Transact` is the
    virtual machine that takes them back. */
module EthBridge {
  import opened Types
  import opened Ledgers
  import opened Spec = EthSpec
  import R = EthRuns

  /** The token's ledger object, with the mint and burn interface. */
  class Token {
    var ledger: Ledger

    constructor (ledger: Ledger)
      ensures this.ledger == ledger
    {
      this.ledger := ledger;
    }

    method Transfer(accepts: bool, from: Address, to: Address, amount: nat) returns (ok: bool)
      modifies this
      ensures ok == (accepts && from != ZERO_ADDRESS && to != ZERO_ADDRESS
                     && old(ledger).Move(from, to, amount).Some?)
      ensures ledger == if ok then old(ledger).Move(from, to, amount).value else old(ledger)
    {
      var moved := ledger.Move(from, to, amount);
      if !accepts || from == ZERO_ADDRESS || to == ZERO_ADDRESS || moved.None? { return false; }
      ledger := moved.value;
      return true;
    }

    method Mint(accepts: bool, to: Address, amount: nat) returns (ok: bool)
      modifies this
      ensures ok == (accepts && to != ZERO_ADDRESS && old(ledger).total + amount <= U256_MAX)
      ensures ledger == if ok then old(ledger).Issue(to, amount) else old(ledger)
    {
      if !accepts || to == ZERO_ADDRESS || ledger.total + amount > U256_MAX { return false; }
      ledger := ledger.Issue(to, amount);
      return true;
    }

    method Burn(accepts: bool, from: Address, amount: nat) returns (ok: bool)
      modifies this
      ensures ok == (accepts && from != ZERO_ADDRESS && old(ledger).Retire(from, amount).Some?)
      ensures ledger == if ok then old(ledger).Retire(from, amount).value else old(ledger)
    {
      var retired := ledger.Retire(from, amount);
      if !accepts || from == ZERO_ADDRESS || retired.None? { return false; }
      ledger := retired.value;
      return true;
    }
  }

  type Answer = Outcome<seq<Log>>

  class Bridge {
    const self: Address
    const token: Token
    const earliestDelete: u256
    var deleted: bool
    var supply: u256
    var nextSwapId: u64
    var relayEon: u64
    var refunds: map<u64, nat>
    var swapMax: u256
    var swapMin: u256
    var cap: u256
    var swapFee: u256
    var pausedSincePublic: u256
    var pausedSinceRelayer: u256
    var allowance: u256
    var approverCap: u256
    var roles: set<(Address, AccessRole)>

    function Snapshot(): State
      reads this, token
    {
      State(self, token.ledger, earliestDelete, deleted, supply, nextSwapId, relayEon, refunds, swapMax, swapMin,
            cap, swapFee, pausedSincePublic, pausedSinceRelayer, allowance, approverCap, roles)
    }

    /** The object does what the specification says: same answer, and on success the same new state. */
    ghost predicate Implements(r: Answer, spec: Outcome<Effect>)
      reads this, token
    {
      match spec
      case Ok(e) => r == Ok(e.log) && Snapshot() == e.state
      case Err(error) => r == Err(error)
    }

    /** The token's ledger is consistent, the limits are ordered, and while the contract lives its balance
        covers its supply. */
    ghost predicate Valid()
      reads this, token
    {
      R.Inv(Snapshot())
    }

    constructor (self: Address, token: Token, ctx: Context, d: Deployment)
      requires Spec.Deploy(self, token.ledger, ctx, d).Ok?
      ensures this.self == self && this.token == token
      ensures Snapshot() == Spec.Deploy(self, token.ledger, ctx, d).value
      ensures token.ledger.Consistent() && token.ledger.total <= U256_MAX && self != ZERO_ADDRESS ==> Valid()
    {
      roles := {(ctx.sender, Admin)};
      this.self, this.token := self, token;
      earliestDelete := ctx.block + d.deleteProtectionPeriod;
      deleted, supply, nextSwapId, refunds := false, 0, 0, map[];
      relayEon := U64_MAX;
      cap := d.cap;
      allowance := d.allowance;
      approverCap := d.approverCap;
      swapMax, swapMin, swapFee := d.swapMax, d.swapMin, d.swapFee;
      pausedSincePublic := if d.pausedSincePublic < ctx.block then ctx.block else d.pausedSincePublic;
      pausedSinceRelayer := if d.pausedSinceRelayer < ctx.block then ctx.block else d.pausedSinceRelayer;
    }

    // ---------- modifiers ----------

    predicate IsOwner(ctx: Context)
      reads this
    {
      (ctx.sender, Admin) in roles
    }

    method CheckCanPause(ctx: Context, blockNumber: u256) returns (c: Check<Revert>)
      ensures c.Pass? <==> (ctx.sender, Admin) in roles || (blockNumber <= ctx.block && (ctx.sender, Monitor) in roles)
      ensures c.Fail? ==> c.error == (if blockNumber > ctx.block then OnlyAdmin else OnlyAdminOrMonitor)
    {
      if blockNumber > ctx.block {
        if !IsOwner(ctx) { return Fail(OnlyAdmin); }
      } else {
        if !((ctx.sender, Monitor) in roles || IsOwner(ctx)) { return Fail(OnlyAdminOrMonitor); }
      }
      return Pass;
    }

    method CheckCanSetAllowance(ctx: Context, value: u256) returns (c: Check<Revert>)
      ensures c.Pass? <==> (ctx.sender, Admin) in roles || (value <= approverCap && (ctx.sender, Approver) in roles)
      ensures c.Fail? ==> c.error == (if value > approverCap then OnlyAdmin else OnlyAdminOrApprover)
    {
      if value > approverCap {
        if !IsOwner(ctx) { return Fail(OnlyAdmin); }
      } else {
        if !((ctx.sender, Approver) in roles || IsOwner(ctx)) { return Fail(OnlyAdminOrApprover); }
      }
      return Pass;
    }

    method CheckRelayerCall(ctx: Context, amount: u256, eon: u64) returns (c: Check<Revert>)
      ensures c.Pass? <==> && ctx.block < pausedSinceRelayer && eon == relayEon && amount <= swapMax
                           && (ctx.sender, Relayer) in roles
      ensures c == Spec.RelayerGuards(Snapshot(), ctx, amount, eon)
    {
      if !(pausedSinceRelayer > ctx.block) { return Fail(Paused); }
      if relayEon != eon { return Fail(WrongEon); }
      if !(amount <= swapMax) { return Fail(AboveMax); }
      if (ctx.sender, Relayer) !in roles { return Fail(OnlyRelayer); }
      return Pass;
    }

    method CheckRefundSwapId(id: u64) returns (c: Check<Revert>)
      ensures c.Pass? <==> id < nextSwapId && ValueOf(refunds, id) == 0
      ensures c == Spec.VerifyRefundSwapId(Snapshot(), id)
    {
      if !(id < nextSwapId) { return Fail(InvalidSwapId); }
      if (if id in refunds then refunds[id] else 0) != 0 { return Fail(AlreadyRefunded); }
      return Pass;
    }

    // ---------- arithmetic with SafeMath ----------

    method IncreaseSupply(amount: u256) returns (r: Check<Revert>)
      modifies this`supply
      ensures r == (if old(supply) + amount > U256_MAX then Fail(Overflow)
                    else if cap < old(supply) + amount then Fail(CapExceeded) else Pass)
      ensures r.Pass? ==> supply == old(supply) + amount
    {
      if supply + amount > U256_MAX { return Fail(Overflow); }
      supply := supply + amount;
      if !(cap >= supply) { return Fail(CapExceeded); }
      return Pass;
    }

    method DecreaseSupply(amount: u256) returns (r: Check<Revert>)
      modifies this`supply
      ensures r == (if amount <= old(supply) then Pass else Fail(SupplyExceeded))
      ensures r.Pass? ==> supply == old(supply) - amount
    {
      if amount > supply { return Fail(SupplyExceeded); }
      supply := supply - amount;
      return Pass;
    }

    method ReleaseAmount(amount: u256) returns (r: Check<Revert>)
      modifies this`supply, this`allowance
      ensures match Spec.Release(old(Snapshot()), amount)
              case Ok(s') => r == Pass && supply == s'.supply && allowance == s'.allowance
              case Err(e) => r == Fail(e)
    {
      if amount > allowance { return Fail(AllowanceExceeded); }
      allowance := allowance - amount;
      r := DecreaseSupply(amount);
    }

    // ---------- user-level methods ----------

    method Swap(ctx: Context, amount: u256, destination: string) returns (r: Answer)
      modifies this, token
      ensures Implements(r, Spec.DoSwap(old(Snapshot()), ctx, amount, destination))
    {
      if !(pausedSincePublic > ctx.block) { return Err(Paused); }
      if !(amount >= swapMin) { return Err(BelowMin); }
      if !(amount <= swapMax) { return Err(AboveMax); }
      var increased := IncreaseSupply(amount);
      if increased.Fail? { return Err(increased.error); }
      var ok := token.Transfer(ctx.tokenAccepts, ctx.sender, self, amount);
      if !ok { return Err(TokenReverted); }
      var log := [TokenTransfer(ctx.sender, self, amount), SwapLog(nextSwapId, ctx.sender, destination, amount)];
      nextSwapId := Increment64(nextSwapId);
      return Ok(log);
    }

    /** The fees and the supply make up the balance; on a valid live contract the subtraction cannot fail. */
    method GetFeesAccrued() returns (r: Outcome<nat>)
      ensures r.Ok? ==> supply + r.value == token.ledger.Balance(self)
      ensures r.Err? ==> r.error == BalanceBelowSupply && token.ledger.Balance(self) < supply
      ensures Valid() && !deleted ==> r.Ok?
    {
      var balance := token.ledger.Balance(self);
      if supply > balance { return Err(BalanceBelowSupply); }
      return Ok(balance - supply);
    }

    // ---------- relayer-level methods ----------

    method NewRelayEon(ctx: Context) returns (r: Answer)
      modifies this, token
      ensures Implements(r, Spec.DoNewRelayEon(old(Snapshot()), ctx))
    {
      if !(pausedSinceRelayer > ctx.block) { return Err(Paused); }
      if (ctx.sender, Relayer) !in roles { return Err(OnlyRelayer); }
      relayEon := Increment64(relayEon);
      return Ok([NewRelayEonLog(relayEon)]);
    }

    method Refund(ctx: Context, id: u64, to: Address, amount: u256, eon: u64) returns (r: Answer)
      modifies this, token
      ensures Implements(r, Spec.DoRefund(old(Snapshot()), ctx, id, to, amount, eon))
    {
      var guard := CheckRelayerCall(ctx, amount, eon);
      if guard.Fail? { return Err(guard.error); }
      guard := CheckRefundSwapId(id);
      if guard.Fail? { return Err(guard.error); }
      guard := ReleaseAmount(amount);
      if guard.Fail? { return Err(guard.error); }
      var log: seq<Log>;
      if amount > swapFee {
        var effectiveAmount: u256 := amount - swapFee;
        var ok := token.Transfer(ctx.tokenAccepts, self, to, effectiveAmount);
        if !ok { return Err(TokenReverted); }
        log := [TokenTransfer(self, to, effectiveAmount), SwapRefund(id, to, effectiveAmount, swapFee)];
      } else {
        log := [SwapRefund(id, to, 0, amount)];
      }
      refunds := refunds[id := amount];
      return Ok(log);
    }

    method RefundInFull(ctx: Context, id: u64, to: Address, amount: u256, eon: u64) returns (r: Answer)
      modifies this, token
      ensures Implements(r, Spec.DoRefundInFull(old(Snapshot()), ctx, id, to, amount, eon))
    {
      var guard := CheckRelayerCall(ctx, amount, eon);
      if guard.Fail? { return Err(guard.error); }
      guard := CheckRefundSwapId(id);
      if guard.Fail? { return Err(guard.error); }
      guard := ReleaseAmount(amount);
      if guard.Fail? { return Err(guard.error); }
      var ok := token.Transfer(ctx.tokenAccepts, self, to, amount);
      if !ok { return Err(TokenReverted); }
      refunds := refunds[id := amount];
      return Ok([TokenTransfer(self, to, amount), SwapRefund(id, to, amount, 0)]);
    }

    method ReverseSwap(ctx: Context, rid: u64, to: Address, from: string, originTxHash: string, amount: u256,
                       eon: u64)
      returns (r: Answer)
      modifies this, token
      ensures Implements(r, Spec.DoReverseSwap(old(Snapshot()), ctx, rid, to, from, originTxHash, amount, eon))
    {
      var guard := CheckRelayerCall(ctx, amount, eon);
      if guard.Fail? { return Err(guard.error); }
      guard := ReleaseAmount(amount);
      if guard.Fail? { return Err(guard.error); }
      if amount > swapFee {
        var effectiveAmount: u256 := amount - swapFee;
        var ok := token.Transfer(ctx.tokenAccepts, self, to, effectiveAmount);
        if !ok { return Err(TokenReverted); }
        return Ok([TokenTransfer(self, to, effectiveAmount),
                   ReverseSwapLog(rid, to, from, originTxHash, effectiveAmount, swapFee)]);
      } else {
        return Ok([ReverseSwapLog(rid, to, from, originTxHash, 0, amount)]);
      }
    }

    // ---------- monitor- and admin-level methods ----------

    method PausePublicApiSince(ctx: Context, blockNumber: u256) returns (r: Answer)
      modifies this, token
      ensures Implements(r, Spec.DoPausePublicApi(old(Snapshot()), ctx, blockNumber))
    {
      var guard := CheckCanPause(ctx, blockNumber);
      if guard.Fail? { return Err(guard.error); }
      pausedSincePublic := if blockNumber < ctx.block then ctx.block else blockNumber;
      return Ok([PausePublicApi(pausedSincePublic)]);
    }

    method PauseRelayerApiSince(ctx: Context, blockNumber: u256) returns (r: Answer)
      modifies this, token
      ensures Implements(r, Spec.DoPauseRelayerApi(old(Snapshot()), ctx, blockNumber))
    {
      var guard := CheckCanPause(ctx, blockNumber);
      if guard.Fail? { return Err(guard.error); }
      pausedSinceRelayer := if blockNumber < ctx.block then ctx.block else blockNumber;
      return Ok([PauseRelayerApi(pausedSinceRelayer)]);
    }

    method Mint(ctx: Context, amount: u256) returns (r: Answer)
      modifies this, token
      ensures Implements(r, Spec.DoMint(old(Snapshot()), ctx, amount))
    {
      if !IsOwner(ctx) { return Err(OnlyAdmin); }
      var increased := IncreaseSupply(amount);
      if increased.Fail? { return Err(increased.error); }
      var ok := token.Mint(ctx.tokenAccepts, self, amount);
      if !ok { return Err(TokenReverted); }
      return Ok([TokenTransfer(ZERO_ADDRESS, self, amount)]);
    }

    method Burn(ctx: Context, amount: u256) returns (r: Answer)
      modifies this, token
      ensures Implements(r, Spec.DoBurn(old(Snapshot()), ctx, amount))
    {
      if !IsOwner(ctx) { return Err(OnlyAdmin); }
      var decreased := DecreaseSupply(amount);
      if decreased.Fail? { return Err(decreased.error); }
      var ok := token.Burn(ctx.tokenAccepts, self, amount);
      if !ok { return Err(TokenReverted); }
      return Ok([TokenTransfer(self, ZERO_ADDRESS, amount)]);
    }

    method SetCap(ctx: Context, value: u256) returns (r: Answer)
      modifies this, token
      ensures Implements(r, Spec.DoSetCap(old(Snapshot()), ctx, value))
    {
      if !IsOwner(ctx) { return Err(OnlyAdmin); }
      cap := value;
      return Ok([CapUpdate(cap)]);
    }

    method SetAllowance(ctx: Context, value: u256) returns (r: Answer)
      modifies this, token
      ensures Implements(r, Spec.DoSetAllowance(old(Snapshot()), ctx, value))
    {
      var guard := CheckCanSetAllowance(ctx, value);
      if guard.Fail? { return Err(guard.error); }
      allowance := value;
      return Ok([AllowanceUpdate(allowance)]);
    }

    method SetApproverCap(ctx: Context, value: u256) returns (r: Answer)
      modifies this, token
      ensures Implements(r, Spec.DoSetApproverCap(old(Snapshot()), ctx, value))
    {
      if !IsOwner(ctx) { return Err(OnlyAdmin); }
      approverCap := value;
      return Ok([ApproverCapUpdate(approverCap)]);
    }

    method SetLimits(ctx: Context, max: u256, min: u256, fee: u256) returns (r: Answer)
      modifies this, token
      ensures Implements(r, Spec.DoSetLimits(old(Snapshot()), ctx, max, min, fee))
    {
      if !IsOwner(ctx) { return Err(OnlyAdmin); }
      if !(fee <= min && min <= max) { return Err(LimitsInconsistent); }
      swapMax, swapMin, swapFee := max, min, fee;
      return Ok([LimitsUpdate(swapMax, swapMin, swapFee)]);
    }

    method Withdraw(ctx: Context, target: Address, amount: u256) returns (r: Answer)
      modifies this, token
      ensures Implements(r, Spec.DoWithdraw(old(Snapshot()), ctx, target, amount))
    {
      if !IsOwner(ctx) { return Err(OnlyAdmin); }
      var decreased := DecreaseSupply(amount);
      if decreased.Fail? { return Err(decreased.error); }
      var ok := token.Transfer(ctx.tokenAccepts, self, target, amount);
      if !ok { return Err(TokenReverted); }
      return Ok([TokenTransfer(self, target, amount), WithdrawLog(target, amount)]);
    }

    method Deposit(ctx: Context, amount: u256) returns (r: Answer)
      modifies this, token
      ensures Implements(r, Spec.DoDeposit(old(Snapshot()), ctx, amount))
    {
      if !IsOwner(ctx) { return Err(OnlyAdmin); }
      var increased := IncreaseSupply(amount);
      if increased.Fail? { return Err(increased.error); }
      var ok := token.Transfer(ctx.tokenAccepts, ctx.sender, self, amount);
      if !ok { return Err(TokenReverted); }
      return Ok([TokenTransfer(ctx.sender, self, amount), DepositLog(ctx.sender, amount)]);
    }

    method WithdrawFees(ctx: Context, target: Address) returns (r: Answer)
      modifies this, token
      ensures Implements(r, Spec.DoWithdrawFees(old(Snapshot()), ctx, target))
    {
      if !IsOwner(ctx) { return Err(OnlyAdmin); }
      var fees :- GetFeesAccrued();
      if !(fees > 0) { return Err(NoFees); }
      var ok := token.Transfer(ctx.tokenAccepts, self, target, fees);
      if !ok { return Err(TokenReverted); }
      return Ok([TokenTransfer(self, target, fees), FeesWithdrawal(target, fees)]);
    }

    method DeleteContract(ctx: Context, target: Address) returns (r: Answer)
      modifies this, token
      ensures Implements(r, Spec.DoDeleteContract(old(Snapshot()), ctx, target))
    {
      if !IsOwner(ctx) { return Err(OnlyAdmin); }
      if !(earliestDelete <= ctx.block) { return Err(TooEarlyToDelete); }
      if target == self { return Err(PayoutToSelf); }
      var balance := token.ledger.Balance(self);
      var ok := token.Transfer(ctx.tokenAccepts, self, target, balance);
      if !ok { return Err(TokenReverted); }
      deleted := true;
      return Ok([TokenTransfer(self, target, balance), DeleteContractLog(target, balance)]);
    }

    // ---------- inherited role methods ----------

    method GrantRole(ctx: Context, role: AccessRole, account: Address) returns (r: Answer)
      modifies this, token
      ensures Implements(r, Spec.DoGrantRole(old(Snapshot()), ctx, role, account))
    {
      if !IsOwner(ctx) { return Err(OnlyAdmin); }
      if (account, role) in roles { return Ok([]); }
      roles := roles + {(account, role)};
      return Ok([RoleGranted(role, account)]);
    }

    method DropRole(role: AccessRole, account: Address) returns (log: seq<Log>)
      modifies this`roles
      ensures Spec.DropRole(old(Snapshot()), role, account) == Effect(Snapshot(), log)
    {
      if (account, role) !in roles { return []; }
      roles := roles - {(account, role)};
      return [RoleRevoked(role, account)];
    }

    method RevokeRole(ctx: Context, role: AccessRole, account: Address) returns (r: Answer)
      modifies this, token
      ensures Implements(r, Spec.DoRevokeRole(old(Snapshot()), ctx, role, account))
    {
      if !IsOwner(ctx) { return Err(OnlyAdmin); }
      var log := DropRole(role, account);
      return Ok(log);
    }

    method RenounceRole(ctx: Context, role: AccessRole, account: Address) returns (r: Answer)
      modifies this, token
      ensures Implements(r, Spec.DoRenounceRole(old(Snapshot()), ctx, role, account))
    {
      if account != ctx.sender { return Err(RenounceForSelfOnly); }
      var log := DropRole(role, account);
      return Ok(log);
    }

    // ---------- the virtual machine ----------

    method Dispatch(ctx: Context, m: Method) returns (r: Answer)
      modifies this, token
      ensures Implements(r, Spec.Execute(old(Snapshot()), ctx, m))
    {
      match m {
        case Swap(amount, destination) => r := Swap(ctx, amount, destination);
        case Refund(id, to, amount, eon) => r := Refund(ctx, id, to, amount, eon);
        case RefundInFull(id, to, amount, eon) => r := RefundInFull(ctx, id, to, amount, eon);
        case ReverseSwap(rid, to, from, originTxHash, amount, eon) =>
          r := ReverseSwap(ctx, rid, to, from, originTxHash, amount, eon);
        case NewRelayEon => r := NewRelayEon(ctx);
        case PausePublicApiSince(blockNumber) => r := PausePublicApiSince(ctx, blockNumber);
        case PauseRelayerApiSince(blockNumber) => r := PauseRelayerApiSince(ctx, blockNumber);
        case GrantRole(role, account) => r := GrantRole(ctx, role, account);
        case RevokeRole(role, account) => r := RevokeRole(ctx, role, account);
        case RenounceRole(role, account) => r := RenounceRole(ctx, role, account);
        case _ => r := DispatchAdmin(ctx, m);
      }
    }

    predicate IsAdminMethod(m: Method) {
      || m.Mint? || m.Burn? || m.SetCap? || m.SetAllowance? || m.SetApproverCap? || m.SetLimits?
      || m.Withdraw? || m.Deposit? || m.WithdrawFees? || m.DeleteContract?
    }

    method DispatchAdmin(ctx: Context, m: Method) returns (r: Answer)
      requires IsAdminMethod(m)
      modifies this, token
      ensures Implements(r, Spec.Execute(old(Snapshot()), ctx, m))
    {
      match m {
        case Mint(amount) => r := Mint(ctx, amount);
        case Burn(amount) => r := Burn(ctx, amount);
        case SetCap(value) => r := SetCap(ctx, value);
        case SetAllowance(value) => r := SetAllowance(ctx, value);
        case SetApproverCap(value) => r := SetApproverCap(ctx, value);
        case SetLimits(max, min, fee) => r := SetLimits(ctx, max, min, fee);
        case Withdraw(target, amount) => r := Withdraw(ctx, target, amount);
        case Deposit(amount) => r := Deposit(ctx, amount);
        case WithdrawFees(target) => r := WithdrawFees(ctx, target);
        case DeleteContract(target) => r := DeleteContract(ctx, target);
      }
    }

    /** Puts a saved state back, field by field. */
    method Restore(s: State)
      requires s.bridge == self && s.earliestDelete == earliestDelete
      modifies this, token
      ensures Snapshot() == s
    {
      token.ledger := s.token;
      deleted, supply, nextSwapId, relayEon, refunds := s.deleted, s.supply, s.nextSwapId, s.relayEon, s.refunds;
      swapMax, swapMin, cap, swapFee := s.swapMax, s.swapMin, s.cap, s.swapFee;
      pausedSincePublic, pausedSinceRelayer := s.pausedSincePublic, s.pausedSinceRelayer;
      allowance, approverCap, roles := s.allowance, s.approverCap, s.roles;
    }

    /** One transaction on the object is one step of the specified world; a revert restores everything. */
    method Transact(ctx: Context, m: Method, block: nat) returns (block': nat, log: seq<Log>)
      modifies this, token
      ensures var w := World(old(Snapshot()), block);
        && World(Snapshot(), block') == Next(w, Call(ctx, m))
        && log == Step(w, Call(ctx, m)).log
      ensures old(Valid()) ==> Valid()
    {
      ghost var w := World(Snapshot(), block);
      if Valid() { R.StepReconciles(w, Call(ctx, m)); }
      var saved := Snapshot();
      block' := Max(block, ctx.block);
      if ctx.block < block || ctx.sender == self || deleted { return block', []; }
      var r := Dispatch(ctx, m);
      if r.Ok? { return block', r.value; }
      Restore(saved);
      return block', [];
    }

    /** A token event that the bridge does not see: others use the same token object. */
    method Outside(a: Action) returns (log: seq<Log>)
      requires !a.Call?
      modifies token
      ensures var w := World(old(Snapshot()), 0); Snapshot() == Next(w, a).state && log == Step(w, a).log
      ensures old(Valid()) ==> Valid()
    {
      ghost var w := World(Snapshot(), 0);
      if Valid() { R.StepReconciles(w, a); }
      match a {
        case Transfer(from, to, amount) =>
          if from == self { return []; }
          var ok := token.Transfer(true, from, to, amount);
          return if ok then [TokenTransfer(from, to, amount)] else [];
        case MintOutside(to, amount) =>
          if to == self { return []; }
          var ok := token.Mint(true, to, amount);
          return if ok then [TokenTransfer(ZERO_ADDRESS, to, amount)] else [];
        case BurnOutside(from, amount) =>
          if from == self { return []; }
          var ok := token.Burn(true, from, amount);
          return if ok then [TokenTransfer(from, ZERO_ADDRESS, amount)] else [];
      }
    }

    /** Any history of transactions and token events on the object is the run of the specified world, so what
        is proved of runs holds of the object's fields; the supply and the balance can be read off the log. */
    method Play(acts: seq<Action>, block: nat) returns (block': nat, logs: seq<Log>)
      modifies this, token
      ensures var w := World(old(Snapshot()), block);
        World(Snapshot(), block') == Run(w, acts) && logs == Logs(w, acts)
      ensures old(Valid()) ==>
                && Valid() && supply == old(supply) + R.Sum(R.SupplyChange(self), logs)
                && token.ledger.Balance(self) == old(token.ledger.Balance(self)) + R.Sum(R.BalanceChange(self), logs)
      ensures MapSum(refunds) == MapSum(old(refunds)) + R.Sum(R.RefundedBy(), logs)
      decreases |acts|
    {
      ghost var w := World(Snapshot(), block);
      if Valid() { R.Reconciliation(w, acts); }
      R.RefundsMappingSums(w, acts);
      if acts == [] { return block, []; }
      var log: seq<Log>;
      block' := block;
      match acts[0] {
        case Call(ctx, m) => block', log := Transact(ctx, m, block);
        case _ => log := Outside(acts[0]);
      }
      var rest;
      block', rest := Play(acts[1..], block');
      return block', log + rest;
    }
  }

  /** Deployment: a constructor that reverts leaves no contract. */
  method Deploy(self: Address, token: Token, ctx: Context, d: Deployment) returns (r: Outcome<Bridge>)
    ensures match Spec.Deploy(self, token.ledger, ctx, d)
            case Ok(s) => r.Ok? && fresh(r.value) && r.value.token == token && r.value.Snapshot() == s
            case Err(e) => r == Err(e)
    ensures r.Ok? && token.ledger.Consistent() && token.ledger.total <= U256_MAX && self != ZERO_ADDRESS ==>
              r.value.Valid()
  {
    if ctx.block + d.deleteProtectionPeriod > U256_MAX { return Err(Overflow); }
    if !(d.swapFee <= d.swapMin && d.swapMin <= d.swapMax) { return Err(LimitsInconsistent); }
    var bridge := new Bridge(self, token, ctx, d);
    return Ok(bridge);
  }
}
