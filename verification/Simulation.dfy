/** The two contracts are the same protocol with different bookkeeping: on calls on which the designs agree
    they accept the same, up to a few guards of `Bridge.sol`, and related states stay related over whole runs. */
module Simulation {
  import opened Types
  import opened Ledgers
  import F = FetchSpec
  import S = FetchSolvency
  import E = EthSpec
  import EAcceptance = EthAcceptance
  import R = EthRuns
  import Keys

  // ---------- the relation ----------

  /** The CosmWasm eon is one ahead, modulo 2^64. */
  function EonOf(eon: u64): u64 {
    E.Increment64(eon)
  }

  /** Saturates; a threshold beyond every 128-bit amount or 64-bit block is as good as the largest one. */
  function Clamp(n: nat, max: nat): nat {
    Min(n, max)
  }

  /** What the wider allowance has beyond the narrower one. */
  function AllowanceGap(s: E.State, st: F.Store): int {
    s.allowance - st.config.allowance
  }

  /** The contract's own data, the thresholds saturated. The fees are not compared: one side stores them, the
      other derives them. */
  ghost predicate SameRecord(s: E.State, st: F.Store) {
    var c := st.config;
    && c.contractAddr == s.bridge
    && c.supply == s.supply
    && c.nextSwapId == s.nextSwapId
    && c.relayEon == EonOf(s.relayEon)
    && c.upperSwapLimit == Clamp(s.swapMax, U128_MAX) && c.lowerSwapLimit == s.swapMin && c.swapFee == s.swapFee
    && c.cap == Clamp(s.cap, U128_MAX) && c.approverCap == Clamp(s.approverCap, U128_MAX)
    && AllowanceGap(s, st) >= 0
    && c.pausedSincePublic == Clamp(s.pausedSincePublic, U64_MAX)
    && c.pausedSinceRelayer == Clamp(s.pausedSinceRelayer, U64_MAX)
    && st.roles == s.roles
    && (forall p :: p in s.roles ==> |p.0| <= NAMESPACE_MAX)
    && (forall id: u64 :: id in st.refunds <==> E.RefundOf(s, id) > 0)
  }

  /** Same data and same ledger, on a live contract. */
  ghost predicate Linked(e: E.World, f: F.World) {
    && !e.state.deleted && e.state.token.total <= U128_MAX
    && f.height <= e.block
    && f.bank == e.state.token
    && SameRecord(e.state, f.store)
  }

  /** Linked worlds that both satisfy their invariants. So the fees that one side derives are the fees that
      the other stores plus its excess. */
  ghost predicate Related(e: E.World, f: F.World) {
    R.Inv(e.state) && S.Inv(f) && Linked(e, f)
  }

  // ---------- what is compared ----------

  /** The arguments fit the CosmWasm types, and there is a message to compare with. */
  predicate Expressible(s: E.State, ctx: E.Context, m: E.Method) {
    && ctx.block < U64_MAX && |ctx.sender| <= NAMESPACE_MAX
    && match m
       case Swap(amount, _) => amount <= U128_MAX
       case Refund(_, _, amount, _) => amount <= U128_MAX
       case RefundInFull(_, _, amount, _) => amount <= U128_MAX
       case ReverseSwap(_, _, _, _, amount, _) => amount <= U128_MAX
       case NewRelayEon => true
       case PausePublicApiSince(_) => true
       case PauseRelayerApiSince(_) => true
       case Mint(amount) => s.token.total + amount <= U128_MAX
       case Burn(amount) => amount <= U128_MAX
       case SetCap(_) => true
       case SetAllowance(value) => value <= U128_MAX
       case SetApproverCap(_) => true
       case SetLimits(_, swapMin, swapFee) => Max(swapMin, swapFee) <= U128_MAX
       case Withdraw(_, amount) => amount <= U128_MAX
       case Deposit(amount) => amount <= U128_MAX
       case WithdrawFees(_) => s.supply <= R.BridgeBalance(s) <= U128_MAX
       case DeleteContract(_) => false
       case GrantRole(_, account) => |account| <= NAMESPACE_MAX
       case RevokeRole(_, account) => |account| <= NAMESPACE_MAX
       case RenounceRole(_, account) => account == ctx.sender
  }

  /** Where the two designs agree: a refund of zero closes the id on one side only, the counters of one side
      wrap and those of the other panic, only one side allows a fee equal to the minimum, the derived fees
      include the excess, and a wider allowance lasts longer. */
  predicate Agrees(e: E.World, f: F.World, m: E.Method) {
    && (R.IsRefund(m) ==> 0 < m.amount)
    && (m.Swap? ==> e.state.nextSwapId < U64_MAX)
    && (m.NewRelayEon? ==> EonOf(e.state.relayEon) < U64_MAX)
    && (m.SetLimits? ==> m.swapFee != m.swapMin)
    && (m.WithdrawFees? ==> S.Excess(f) == 0)
    && (EAcceptance.IsSettlement(m) ==> m.amount <= e.state.allowance ==> m.amount <= f.store.config.allowance)
  }

  /** The environment of the other side: same block, the account that is to be paid, and a chain that refuses
      the payment when the token does. */
  function EnvOf(ctx: E.Context, payee: Option<Address>): F.Env
    requires ctx.block < U64_MAX
  {
    F.Env(ctx.block, payee, ctx.tokenAccepts && payee != Some(E.ZERO_ADDRESS))
  }

  /** The account a method pays. */
  function PayeeOf(m: E.Method): Option<Address> {
    match m
    case Refund(_, to, _, _) => Some(to)
    case RefundInFull(_, to, _, _) => Some(to)
    case ReverseSwap(_, to, _, _, _, _) => Some(to)
    case Withdraw(target, _) => Some(target)
    case WithdrawFees(target) => Some(target)
    case _ => None
  }

  /** The message of the other side; the eon tag is shifted by one. */
  function MessageOf(s: E.State, ctx: E.Context, m: E.Method): F.ExecuteMsg
    requires Expressible(s, ctx, m)
  {
    match m
    case Swap(_, destination) => F.Swap(destination)
    case Refund(id, to, amount, relayEon) => F.Refund(id, to, amount, EonOf(relayEon))
    case RefundInFull(id, to, amount, relayEon) => F.RefundInFull(id, to, amount, EonOf(relayEon))
    case ReverseSwap(rid, to, from, originTxHash, amount, relayEon) =>
      F.ReverseSwap(rid, to, from, originTxHash, amount, EonOf(relayEon))
    case NewRelayEon => F.NewRelayEon
    case PausePublicApiSince(blockNumber) => F.PausePublicApi(Clamp(blockNumber, U64_MAX))
    case PauseRelayerApiSince(blockNumber) => F.PauseRelayerApi(Clamp(blockNumber, U64_MAX))
    case Mint(amount) => F.Mint(amount)
    case Burn(amount) => F.Burn(amount)
    case SetCap(value) => F.SetCap(Clamp(value, U128_MAX))
    case SetAllowance(value) => F.SetAllowance(value)
    case SetApproverCap(value) => F.SetApproverCap(Clamp(value, U128_MAX))
    case SetLimits(swapMax, swapMin, swapFee) => F.SetLimits(swapMin, Clamp(swapMax, U128_MAX), swapFee)
    case Withdraw(target, amount) => F.Withdraw(amount, target)
    case Deposit(_) => F.Deposit
    case WithdrawFees(target) => F.WithdrawFees(R.BridgeBalance(s) - s.supply, target)
    case GrantRole(role, account) => F.GrantRole(Keys.RoleName(role), account)
    case RevokeRole(role, account) => F.RevokeRole(Keys.RoleName(role), account)
    case RenounceRole(role, _) => F.RenounceRole(Keys.RoleName(role))
  }

  /** The tokens that the method pulls in are attached. */
  function InfoOf(s: E.State, f: F.World, ctx: E.Context, m: E.Method): F.Info
    requires Expressible(s, ctx, m)
  {
    F.Info(ctx.sender, if m.Swap? || m.Deposit? then [F.Coin(f.store.config.denom, m.amount)] else [])
  }

  /** The transaction on the other side. */
  function Translate(e: E.World, f: F.World, ctx: E.Context, m: E.Method): F.Action
    requires Expressible(e.state, ctx, m)
  {
    F.Call(EnvOf(ctx, PayeeOf(m)), InfoOf(e.state, f, ctx, m), MessageOf(e.state, ctx, m))
  }

  predicate IsRoleMethod(m: E.Method) {
    m.GrantRole? || m.RevokeRole? || m.RenounceRole?
  }

  // ---------- facts used by the cases ----------

  /** Tags of different eons stay different after the shift. */
  lemma EonShift(tag: u64, eon: u64)
    ensures EonOf(tag) == EonOf(eon) <==> tag == eon
  {
  }

  lemma EonStep(eon: u64)
    requires EonOf(eon) < U64_MAX
    ensures EonOf(E.Increment64(eon)) == EonOf(eon) + 1
  {
  }

  lemma SingleCoin(denom: string, amount: u128)
    ensures F.Attached([F.Coin(denom, amount)], denom) == amount
    ensures F.AmountFromFunds([F.Coin(denom, amount)], denom) == Ok(amount)
  {
  }

  /** The supply and the fees of both sides lie within the circulation, which fits in 128 bits. */
  lemma WithinCirculation(e: E.World, f: F.World)
    requires Related(e, f)
    ensures f.store.config.supply + f.store.config.feesAccrued <= R.BridgeBalance(e.state) <= e.state.token.total
  {
    BalanceWithinTotal(e.state.token, e.state.bridge);
  }

  /** A transaction without funds credits nothing. */
  lemma NoFunds(f: F.World, sender: Address)
    ensures F.CreditFunds(f, F.Info(sender, [])) == Some(f.bank)
  {
  }

  ghost predicate Comparable(e: E.World, f: F.World, ctx: E.Context, m: E.Method) {
    Related(e, f) && e.block <= ctx.block && Expressible(e.state, ctx, m) && Agrees(e, f, m)
  }

  /** What only `Bridge.sol` asks for: the upper swap limit on what the relayer releases, the ERC-20 allowance
      for what it pulls in, and that there are fees to withdraw. */
  predicate EthereumOnly(s: E.State, ctx: E.Context, m: E.Method) {
    && (R.IsRefund(m) || m.ReverseSwap? ==> m.amount <= s.swapMax)
    && (m.Swap? || m.Deposit? ==> ctx.tokenAccepts && ctx.sender != E.ZERO_ADDRESS)
    && (m.WithdrawFees? ==> s.supply < R.BridgeBalance(s))
  }

  // ---------- two handlers side by side ----------

  /** The allowances keep their distance, and a reset makes them equal. */
  ghost predicate GapKept(s: E.State, st: F.Store, m: E.Method, s': E.State, st': F.Store) {
    AllowanceGap(s', st') == if m.SetAllowance? then 0 else AllowanceGap(s, st)
  }

  /** The states that two handlers leave, with the emitted messages paid from the ledger on which the funds are
      credited, are linked again. */
  ghost predicate Together(e: E.World, f: F.World, m: E.Method, credited: Ledger, s': E.State, r: F.Reply) {
    && !s'.deleted && s'.token.total <= U128_MAX
    && F.Dispatch(credited, e.state.bridge, f.store.config.denom, r.response.msgs) == Some(s'.token)
    && SameRecord(s', r.store) && GapKept(e.state, f.store, m, s', r.store)
  }

  /** The handlers of the two sides succeed on the same calls, up to the guards that only one has, and their
      effects correspond. */
  ghost predicate Agree(e: E.World, f: F.World, ctx: E.Context, m: E.Method,
                        r: E.Outcome<E.Effect>, r': F.StdResult<F.Reply>)
    requires Expressible(e.state, ctx, m)
  {
    var credited := F.CreditFunds(f, InfoOf(e.state, f, ctx, m));
    && (r.Ok? <==>
          && credited.Some? && r'.Ok?
          && (EnvOf(ctx, PayeeOf(m)).bankAccepts || r'.value.response.msgs == [])
          && EthereumOnly(e.state, ctx, m))
    && (r.Ok? ==> Together(e, f, m, credited.value, r.value.state, r'.value))
    && (credited.Some? && r'.Ok? ==> F.Dispatch(credited.value, e.state.bridge, f.store.config.denom,
                                                r'.value.response.msgs).Some?)
  }

  /** A role change that changes nothing succeeds on one side and fails on the other. */
  ghost predicate RolesAgree(e: E.World, f: F.World, ctx: E.Context, m: E.Method,
                             r: E.Outcome<E.Effect>, r': F.StdResult<F.Reply>)
  {
    && (r.Ok? && r.value.state != e.state <==> r'.Ok?)
    && (r.Ok? && r'.Ok? ==> Together(e, f, m, f.bank, r.value.state, r'.value) && r'.value.response.msgs == [])
  }

  /** What a user has sent lies within the circulation together with the supply. */
  lemma PulledInWithinCirculation(e: E.World, ctx: E.Context, amount: nat)
    requires R.Inv(e.state) && !e.state.deleted && ctx.sender != e.state.bridge
    requires e.state.token.Move(ctx.sender, e.state.bridge, amount).Some?
    ensures e.state.supply + amount <= e.state.token.total
    ensures e.state.token.Move(ctx.sender, e.state.bridge, amount).value.total == e.state.token.total
  {
    MoveConserves(e.state.token, ctx.sender, e.state.bridge, amount);
    BalanceWithinTotal(e.state.token.Move(ctx.sender, e.state.bridge, amount).value, e.state.bridge);
  }

  /** A payout on both ledgers. */
  lemma PayoutAgrees(e: E.World, f: F.World, ctx: E.Context, to: Address, amount: u128)
    requires Related(e, f) && amount <= R.BridgeBalance(e.state)
    ensures var denom := f.store.config.denom; var moved := E.TokenMove(e.state, ctx, e.state.bridge, to, amount);
      && f.bank.Move(e.state.bridge, to, amount).Some?
      && F.Dispatch(f.bank, e.state.bridge, denom, [F.Send(to, denom, amount)]) ==
         f.bank.Move(e.state.bridge, to, amount)
      && (moved.Ok? <==> ctx.tokenAccepts && to != E.ZERO_ADDRESS)
      && (moved.Ok? ==> f.bank.Move(e.state.bridge, to, amount) == Some(moved.value)
                        && moved.value.total == e.state.token.total)
  {
    var denom := f.store.config.denom;
    MoveConserves(f.bank, e.state.bridge, to, amount);
    F.DispatchOne(f.bank, e.state.bridge, denom, F.Send(to, denom, amount));
  }

  lemma SwapAgrees(e: E.World, f: F.World, ctx: E.Context, m: E.Method)
    requires m.Swap? && Comparable(e, f, ctx, m) && ctx.sender != e.state.bridge
    ensures Agree(e, f, ctx, m, E.DoSwap(e.state, ctx, m.amount, m.destination),
                  F.TrySwap(f.store, EnvOf(ctx, PayeeOf(m)), m.amount, m.destination))
  {
    SingleCoin(f.store.config.denom, m.amount);
    if e.state.token.Move(ctx.sender, e.state.bridge, m.amount).Some? {
      PulledInWithinCirculation(e, ctx, m.amount);
    }
  }

  lemma DepositAgrees(e: E.World, f: F.World, ctx: E.Context, m: E.Method)
    requires m.Deposit? && Comparable(e, f, ctx, m) && ctx.sender != e.state.bridge
    ensures Agree(e, f, ctx, m, E.DoDeposit(e.state, ctx, m.amount),
                  F.TryDeposit(f.store, InfoOf(e.state, f, ctx, m)))
  {
    SingleCoin(f.store.config.denom, m.amount);
    if e.state.token.Move(ctx.sender, e.state.bridge, m.amount).Some? {
      PulledInWithinCirculation(e, ctx, m.amount);
    }
  }

  lemma ReverseSwapAgrees(e: E.World, f: F.World, ctx: E.Context, m: E.Method)
    requires m.ReverseSwap? && Comparable(e, f, ctx, m) && ctx.sender != e.state.bridge
    ensures Agree(e, f, ctx, m,
                  E.DoReverseSwap(e.state, ctx, m.rid, m.to, m.from, m.originTxHash, m.amount, m.relayEon),
                  F.TryReverseSwap(f.store, EnvOf(ctx, PayeeOf(m)), InfoOf(e.state, f, ctx, m), m.rid, m.to, m.from,
                                   m.originTxHash, m.amount, EonOf(m.relayEon)))
  {
    WithinCirculation(e, f);
    NoFunds(f, ctx.sender);
    EonShift(m.relayEon, e.state.relayEon);
    if m.amount <= e.state.supply && m.amount > e.state.swapFee {
      PayoutAgrees(e, f, ctx, m.to, m.amount - e.state.swapFee);
    }
  }

  lemma PaidRefundAgrees(e: E.World, f: F.World, ctx: E.Context, m: E.Method)
    requires m.Refund? && m.amount > e.state.swapFee && Comparable(e, f, ctx, m) && ctx.sender != e.state.bridge
    ensures Agree(e, f, ctx, m, E.DoRefund(e.state, ctx, m.id, m.to, m.amount, m.relayEon),
                  F.TryRefund(f.store, EnvOf(ctx, PayeeOf(m)), InfoOf(e.state, f, ctx, m), m.id, m.to, m.amount,
                              EonOf(m.relayEon)))
  {
    WithinCirculation(e, f);
    NoFunds(f, ctx.sender);
    EonShift(m.relayEon, e.state.relayEon);
    if m.amount <= e.state.supply { PayoutAgrees(e, f, ctx, m.to, m.amount - e.state.swapFee); }
  }

  lemma ConsumedRefundAgrees(e: E.World, f: F.World, ctx: E.Context, m: E.Method)
    requires m.Refund? && m.amount <= e.state.swapFee && Comparable(e, f, ctx, m) && ctx.sender != e.state.bridge
    ensures Agree(e, f, ctx, m, E.DoRefund(e.state, ctx, m.id, m.to, m.amount, m.relayEon),
                  F.TryRefund(f.store, EnvOf(ctx, PayeeOf(m)), InfoOf(e.state, f, ctx, m), m.id, m.to, m.amount,
                              EonOf(m.relayEon)))
  {
    WithinCirculation(e, f);
    NoFunds(f, ctx.sender);
    EonShift(m.relayEon, e.state.relayEon);
  }

  lemma RefundInFullAgrees(e: E.World, f: F.World, ctx: E.Context, m: E.Method)
    requires m.RefundInFull? && Comparable(e, f, ctx, m) && ctx.sender != e.state.bridge
    ensures Agree(e, f, ctx, m, E.DoRefundInFull(e.state, ctx, m.id, m.to, m.amount, m.relayEon),
                  F.TryRefundInFull(f.store, EnvOf(ctx, PayeeOf(m)), InfoOf(e.state, f, ctx, m), m.id, m.to,
                                    m.amount, EonOf(m.relayEon)))
  {
    WithinCirculation(e, f);
    NoFunds(f, ctx.sender);
    EonShift(m.relayEon, e.state.relayEon);
    if m.amount <= e.state.supply { PayoutAgrees(e, f, ctx, m.to, m.amount); }
  }

  lemma WithdrawAgrees(e: E.World, f: F.World, ctx: E.Context, m: E.Method)
    requires m.Withdraw? && Comparable(e, f, ctx, m) && ctx.sender != e.state.bridge
    ensures Agree(e, f, ctx, m, E.DoWithdraw(e.state, ctx, m.target, m.amount),
                  F.TryWithdraw(f.store, EnvOf(ctx, PayeeOf(m)), InfoOf(e.state, f, ctx, m), m.amount, m.target))
  {
    WithinCirculation(e, f);
    NoFunds(f, ctx.sender);
    if m.amount <= e.state.supply { PayoutAgrees(e, f, ctx, m.target, m.amount); }
  }

  lemma WithdrawFeesAgrees(e: E.World, f: F.World, ctx: E.Context, m: E.Method)
    requires m.WithdrawFees? && Comparable(e, f, ctx, m) && ctx.sender != e.state.bridge
    ensures Agree(e, f, ctx, m, E.DoWithdrawFees(e.state, ctx, m.target),
                  F.TryWithdrawFees(f.store, EnvOf(ctx, PayeeOf(m)), InfoOf(e.state, f, ctx, m),
                                    R.BridgeBalance(e.state) - e.state.supply, m.target))
  {
    WithinCirculation(e, f);
    NoFunds(f, ctx.sender);
    PayoutAgrees(e, f, ctx, m.target, R.BridgeBalance(e.state) - e.state.supply);
  }

  lemma MintAgrees(e: E.World, f: F.World, ctx: E.Context, m: E.Method)
    requires m.Mint? && Comparable(e, f, ctx, m) && ctx.sender != e.state.bridge
    ensures Agree(e, f, ctx, m, E.DoMint(e.state, ctx, m.amount),
                  F.TryMint(f.store, InfoOf(e.state, f, ctx, m), m.amount))
  {
    WithinCirculation(e, f);
    NoFunds(f, ctx.sender);
    var mint := F.MintToContract(f.store.config.denom, m.amount);
    assert [mint][1..] == [];
    assert F.Dispatch(f.bank, e.state.bridge, f.store.config.denom, [mint]) ==
           Some(f.bank.Issue(e.state.bridge, m.amount));
  }

  lemma BurnAgrees(e: E.World, f: F.World, ctx: E.Context, m: E.Method)
    requires m.Burn? && Comparable(e, f, ctx, m) && ctx.sender != e.state.bridge
    ensures Agree(e, f, ctx, m, E.DoBurn(e.state, ctx, m.amount),
                  F.TryBurn(f.store, InfoOf(e.state, f, ctx, m), m.amount))
  {
    NoFunds(f, ctx.sender);
    if m.amount <= e.state.supply { RetireRemoves(f.bank, e.state.bridge, m.amount); }
    var burn := F.BurnFromContract(f.store.config.denom, m.amount);
    assert [burn][1..] == [];
    assert F.Dispatch(f.bank, e.state.bridge, f.store.config.denom, [burn]) ==
           f.bank.Retire(e.state.bridge, m.amount);
  }

  lemma NewRelayEonAgrees(e: E.World, f: F.World, ctx: E.Context, m: E.Method)
    requires m.NewRelayEon? && Comparable(e, f, ctx, m) && ctx.sender != e.state.bridge
    ensures Agree(e, f, ctx, m, E.DoNewRelayEon(e.state, ctx),
                  F.TryNewRelayEon(f.store, EnvOf(ctx, PayeeOf(m)), InfoOf(e.state, f, ctx, m)))
  {
    EonStep(e.state.relayEon);
    NoFunds(f, ctx.sender);
  }

  lemma PausePublicAgrees(e: E.World, f: F.World, ctx: E.Context, m: E.Method)
    requires m.PausePublicApiSince? && Comparable(e, f, ctx, m) && ctx.sender != e.state.bridge
    ensures Agree(e, f, ctx, m, E.DoPausePublicApi(e.state, ctx, m.blockNumber),
                  F.TryPausePublicApi(f.store, EnvOf(ctx, PayeeOf(m)), InfoOf(e.state, f, ctx, m),
                                      Clamp(m.blockNumber, U64_MAX)))
  {
    NoFunds(f, ctx.sender);
  }

  lemma PauseRelayerAgrees(e: E.World, f: F.World, ctx: E.Context, m: E.Method)
    requires m.PauseRelayerApiSince? && Comparable(e, f, ctx, m) && ctx.sender != e.state.bridge
    ensures Agree(e, f, ctx, m, E.DoPauseRelayerApi(e.state, ctx, m.blockNumber),
                  F.TryPauseRelayerApi(f.store, EnvOf(ctx, PayeeOf(m)), InfoOf(e.state, f, ctx, m),
                                       Clamp(m.blockNumber, U64_MAX)))
  {
    NoFunds(f, ctx.sender);
  }

  lemma SetCapAgrees(e: E.World, f: F.World, ctx: E.Context, m: E.Method)
    requires m.SetCap? && Comparable(e, f, ctx, m) && ctx.sender != e.state.bridge
    ensures Agree(e, f, ctx, m, E.DoSetCap(e.state, ctx, m.value),
                  F.TrySetCap(f.store, InfoOf(e.state, f, ctx, m), Clamp(m.value, U128_MAX)))
  {
    NoFunds(f, ctx.sender);
  }

  lemma SetAllowanceAgrees(e: E.World, f: F.World, ctx: E.Context, m: E.Method)
    requires m.SetAllowance? && Comparable(e, f, ctx, m) && ctx.sender != e.state.bridge
    ensures Agree(e, f, ctx, m, E.DoSetAllowance(e.state, ctx, m.value),
                  F.TrySetAllowance(f.store, InfoOf(e.state, f, ctx, m), m.value))
  {
    NoFunds(f, ctx.sender);
  }

  lemma SetApproverCapAgrees(e: E.World, f: F.World, ctx: E.Context, m: E.Method)
    requires m.SetApproverCap? && Comparable(e, f, ctx, m) && ctx.sender != e.state.bridge
    ensures Agree(e, f, ctx, m, E.DoSetApproverCap(e.state, ctx, m.value),
                  F.TrySetApproverCap(f.store, InfoOf(e.state, f, ctx, m), Clamp(m.value, U128_MAX)))
  {
    NoFunds(f, ctx.sender);
  }

  lemma SetLimitsAgrees(e: E.World, f: F.World, ctx: E.Context, m: E.Method)
    requires m.SetLimits? && Comparable(e, f, ctx, m) && ctx.sender != e.state.bridge
    ensures Agree(e, f, ctx, m, E.DoSetLimits(e.state, ctx, m.swapMax, m.swapMin, m.swapFee),
                  F.TrySetLimits(f.store, InfoOf(e.state, f, ctx, m), m.swapMin,
                                 Clamp(m.swapMax, U128_MAX), m.swapFee))
  {
    NoFunds(f, ctx.sender);
  }

  lemma GrantRoleAgrees(e: E.World, f: F.World, ctx: E.Context, m: E.Method)
    requires m.GrantRole? && Comparable(e, f, ctx, m) && ctx.sender != e.state.bridge
    ensures RolesAgree(e, f, ctx, m, E.DoGrantRole(e.state, ctx, m.role, m.account),
                  F.TryGrantRole(f.store, InfoOf(e.state, f, ctx, m), Keys.RoleName(m.role), m.account))
  {
    Keys.RoleNameRoundTrip(Keys.RoleName(m.role), m.role);
  }

  lemma RevokeRoleAgrees(e: E.World, f: F.World, ctx: E.Context, m: E.Method)
    requires m.RevokeRole? && Comparable(e, f, ctx, m) && ctx.sender != e.state.bridge
    ensures RolesAgree(e, f, ctx, m, E.DoRevokeRole(e.state, ctx, m.role, m.account),
                  F.TryRevokeRole(f.store, InfoOf(e.state, f, ctx, m), Keys.RoleName(m.role), m.account))
  {
    Keys.RoleNameRoundTrip(Keys.RoleName(m.role), m.role);
  }

  lemma RenounceRoleAgrees(e: E.World, f: F.World, ctx: E.Context, m: E.Method)
    requires m.RenounceRole? && Comparable(e, f, ctx, m) && ctx.sender != e.state.bridge
    ensures RolesAgree(e, f, ctx, m, E.DoRenounceRole(e.state, ctx, m.role, m.account),
                  F.TryRenounceRole(f.store, InfoOf(e.state, f, ctx, m), Keys.RoleName(m.role)))
  {
    Keys.RoleNameRoundTrip(Keys.RoleName(m.role), m.role);
  }

  // ---------- the handlers together ----------

  ghost predicate HandlersAgree(e: E.World, f: F.World, ctx: E.Context, m: E.Method)
    requires Expressible(e.state, ctx, m)
  {
    var r, r' := E.Execute(e.state, ctx, m),
                 F.Execute(f.store, EnvOf(ctx, PayeeOf(m)), InfoOf(e.state, f, ctx, m), MessageOf(e.state, ctx, m));
    if IsRoleMethod(m) then RolesAgree(e, f, ctx, m, r, r') else Agree(e, f, ctx, m, r, r')
  }

  lemma IntakesAgree(e: E.World, f: F.World, ctx: E.Context, m: E.Method)
    requires (m.Swap? || m.Deposit?) && Comparable(e, f, ctx, m) && ctx.sender != e.state.bridge
    ensures HandlersAgree(e, f, ctx, m)
  {
    SingleCoin(f.store.config.denom, m.amount);
    if m.Swap? { SwapAgrees(e, f, ctx, m); } else { DepositAgrees(e, f, ctx, m); }
  }

  lemma IssuesAgree(e: E.World, f: F.World, ctx: E.Context, m: E.Method)
    requires (m.Mint? || m.Burn?) && Comparable(e, f, ctx, m) && ctx.sender != e.state.bridge
    ensures HandlersAgree(e, f, ctx, m)
  {
    if m.Mint? { MintAgrees(e, f, ctx, m); } else { BurnAgrees(e, f, ctx, m); }
  }

  lemma RefundsAgree(e: E.World, f: F.World, ctx: E.Context, m: E.Method)
    requires (m.Refund? || m.RefundInFull?) && Comparable(e, f, ctx, m) && ctx.sender != e.state.bridge
    ensures HandlersAgree(e, f, ctx, m)
  {
    if m.RefundInFull? { RefundInFullAgrees(e, f, ctx, m); }
    else if m.amount > e.state.swapFee { PaidRefundAgrees(e, f, ctx, m); }
    else { ConsumedRefundAgrees(e, f, ctx, m); }
  }

  lemma ReverseSwapAndWithdrawAgree(e: E.World, f: F.World, ctx: E.Context, m: E.Method)
    requires (m.ReverseSwap? || m.Withdraw?) && Comparable(e, f, ctx, m) && ctx.sender != e.state.bridge
    ensures HandlersAgree(e, f, ctx, m)
  {
    if m.ReverseSwap? { ReverseSwapAgrees(e, f, ctx, m); } else { WithdrawAgrees(e, f, ctx, m); }
  }

  lemma FeesAndEonsAgree(e: E.World, f: F.World, ctx: E.Context, m: E.Method)
    requires (m.WithdrawFees? || m.NewRelayEon?) && Comparable(e, f, ctx, m) && ctx.sender != e.state.bridge
    ensures HandlersAgree(e, f, ctx, m)
  {
    if m.WithdrawFees? { WithdrawFeesAgrees(e, f, ctx, m); } else { NewRelayEonAgrees(e, f, ctx, m); }
  }

  lemma PausesAgree(e: E.World, f: F.World, ctx: E.Context, m: E.Method)
    requires m.PausePublicApiSince? || m.PauseRelayerApiSince?
    requires Comparable(e, f, ctx, m) && ctx.sender != e.state.bridge
    ensures HandlersAgree(e, f, ctx, m)
  {
    if m.PausePublicApiSince? { PausePublicAgrees(e, f, ctx, m); } else { PauseRelayerAgrees(e, f, ctx, m); }
  }

  lemma CapsAgree(e: E.World, f: F.World, ctx: E.Context, m: E.Method)
    requires (m.SetCap? || m.SetApproverCap?) && Comparable(e, f, ctx, m) && ctx.sender != e.state.bridge
    ensures HandlersAgree(e, f, ctx, m)
  {
    if m.SetCap? { SetCapAgrees(e, f, ctx, m); } else { SetApproverCapAgrees(e, f, ctx, m); }
  }

  lemma AllowanceAndLimitsAgree(e: E.World, f: F.World, ctx: E.Context, m: E.Method)
    requires (m.SetAllowance? || m.SetLimits?) && Comparable(e, f, ctx, m) && ctx.sender != e.state.bridge
    ensures HandlersAgree(e, f, ctx, m)
  {
    if m.SetAllowance? { SetAllowanceAgrees(e, f, ctx, m); } else { SetLimitsAgrees(e, f, ctx, m); }
  }

  lemma GrantsAgree(e: E.World, f: F.World, ctx: E.Context, m: E.Method)
    requires m.GrantRole? && Comparable(e, f, ctx, m) && ctx.sender != e.state.bridge
    ensures HandlersAgree(e, f, ctx, m)
  {
    GrantRoleAgrees(e, f, ctx, m);
  }

  lemma RemovalsAgree(e: E.World, f: F.World, ctx: E.Context, m: E.Method)
    requires (m.RevokeRole? || m.RenounceRole?) && Comparable(e, f, ctx, m) && ctx.sender != e.state.bridge
    ensures HandlersAgree(e, f, ctx, m)
  {
    if m.RevokeRole? { RevokeRoleAgrees(e, f, ctx, m); } else { RenounceRoleAgrees(e, f, ctx, m); }
  }

  lemma AllHandlersAgree(e: E.World, f: F.World, ctx: E.Context, m: E.Method)
    requires Comparable(e, f, ctx, m) && ctx.sender != e.state.bridge
    ensures HandlersAgree(e, f, ctx, m)
  {
    match m {
      case Swap(_, _) => IntakesAgree(e, f, ctx, m);
      case Deposit(_) => IntakesAgree(e, f, ctx, m);
      case Mint(_) => IssuesAgree(e, f, ctx, m);
      case Burn(_) => IssuesAgree(e, f, ctx, m);
      case Refund(_, _, _, _) => RefundsAgree(e, f, ctx, m);
      case RefundInFull(_, _, _, _) => RefundsAgree(e, f, ctx, m);
      case ReverseSwap(_, _, _, _, _, _) => ReverseSwapAndWithdrawAgree(e, f, ctx, m);
      case Withdraw(_, _) => ReverseSwapAndWithdrawAgree(e, f, ctx, m);
      case WithdrawFees(_) => FeesAndEonsAgree(e, f, ctx, m);
      case NewRelayEon => FeesAndEonsAgree(e, f, ctx, m);
      case PausePublicApiSince(_) => PausesAgree(e, f, ctx, m);
      case PauseRelayerApiSince(_) => PausesAgree(e, f, ctx, m);
      case SetCap(_) => CapsAgree(e, f, ctx, m);
      case SetApproverCap(_) => CapsAgree(e, f, ctx, m);
      case SetAllowance(_) => AllowanceAndLimitsAgree(e, f, ctx, m);
      case SetLimits(_, _, _) => AllowanceAndLimitsAgree(e, f, ctx, m);
      case GrantRole(_, _) => GrantsAgree(e, f, ctx, m);
      case RevokeRole(_, _) => RemovalsAgree(e, f, ctx, m);
      case RenounceRole(_, _) => RemovalsAgree(e, f, ctx, m);
      case DeleteContract(_) => assert false;
    }
  }

  // ---------- whole transactions ----------

  /** Both sides accept the same, and then they stay linked. */
  ghost predicate Corresponds(e: E.World, f: F.World, ctx: E.Context, m: E.Method)
    requires Expressible(e.state, ctx, m)
  {
    var call, a := E.Call(ctx, m), Translate(e, f, ctx, m);
    var e', f' := E.Next(e, call), F.Next(f, a);
    && (E.Accepted(e, call) && (IsRoleMethod(m) ==> e'.state != e.state) <==>
        F.Accepted(f, a) && EthereumOnly(e.state, ctx, m))
    && (E.Accepted(e, call) ==> Linked(e', f') && GapKept(e.state, f.store, m, e'.state, f'.store))
  }

  lemma CallCorresponds(e: E.World, f: F.World, ctx: E.Context, m: E.Method)
    requires Comparable(e, f, ctx, m)
    ensures Corresponds(e, f, ctx, m)
  {
    if ctx.sender != e.state.bridge {
      AllHandlersAgree(e, f, ctx, m);
      NoFunds(f, ctx.sender);
    }
  }

  // ---------- one step ----------

  /** Both contracts accept the same: from related states `Bridge.sol` accepts a call exactly when the CosmWasm
      contract accepts its translation and the few guards are met that only `Bridge.sol` has; a role change
      counts when it changes something. */
  lemma AcceptsTheSame(e: E.World, f: F.World, ctx: E.Context, m: E.Method)
    requires Comparable(e, f, ctx, m)
    ensures E.Accepted(e, E.Call(ctx, m)) && (IsRoleMethod(m) ==> E.Next(e, E.Call(ctx, m)).state != e.state) <==>
            F.Accepted(f, Translate(e, f, ctx, m)) && EthereumOnly(e.state, ctx, m)
  {
    CallCorresponds(e, f, ctx, m);
  }

  lemma StaysLinked(e: E.World, f: F.World, ctx: E.Context, m: E.Method)
    requires Comparable(e, f, ctx, m) && E.Accepted(e, E.Call(ctx, m))
    ensures var e', f' := E.Next(e, E.Call(ctx, m)), F.Next(f, Translate(e, f, ctx, m));
      Linked(e', f') && GapKept(e.state, f.store, m, e'.state, f'.store)
  {
    CallCorresponds(e, f, ctx, m);
  }

  /** The CosmWasm contract follows an accepted step: it accepts the translation too, unless that is a role
      change that changes nothing, and the worlds stay related. */
  ghost predicate Follows(e: E.World, f: F.World, ctx: E.Context, m: E.Method)
    requires Expressible(e.state, ctx, m)
  {
    var call, a := E.Call(ctx, m), Translate(e, f, ctx, m);
    var e', f' := E.Next(e, call), F.Next(f, a);
    && Related(e', f') && GapKept(e.state, f.store, m, e'.state, f'.store)
    && (F.Accepted(f, a) || (IsRoleMethod(m) && e'.state == e.state && f'.store == f.store))
  }

  lemma AgreeingStepFollows(e: E.World, f: F.World, ctx: E.Context, m: E.Method)
    requires Comparable(e, f, ctx, m) && E.Accepted(e, E.Call(ctx, m))
    ensures Follows(e, f, ctx, m)
  {
    R.StepReconciles(e, E.Call(ctx, m));
    S.NextKeepsInv(f, Translate(e, f, ctx, m));
    StaysLinked(e, f, ctx, m);
    AcceptsTheSame(e, f, ctx, m);
    if !F.Accepted(f, Translate(e, f, ctx, m)) { F.RejectedStep(f, Translate(e, f, ctx, m)); }
  }

  lemma FetchRefundCloses(f: F.World, a: F.Action)
    requires F.Accepted(f, a) && (a.msg.Refund? || a.msg.RefundInFull?)
    ensures a.msg.id in F.Next(f, a).store.refunds
  {
  }

  /** A refund of zero leaves the id open on one side and closes it on the other. */
  lemma ZeroRefundDiverges(e: E.World, f: F.World, ctx: E.Context, m: E.Method)
    requires R.IsRefund(m) && m.amount == 0
    requires Related(e, f) && Expressible(e.state, ctx, m) && E.Accepted(e, E.Call(ctx, m))
    ensures !Follows(e, f, ctx, m)
  {
    var a := Translate(e, f, ctx, m);
    R.SettlementStep(e, E.Call(ctx, m));
    if F.Accepted(f, a) { FetchRefundCloses(f, a); }
  }

  lemma SwapAtCounterEndDiverges(e: E.World, f: F.World, ctx: E.Context, m: E.Method)
    requires m.Swap? && e.state.nextSwapId == U64_MAX && Related(e, f) && Expressible(e.state, ctx, m)
    ensures !Follows(e, f, ctx, m)
  {
    SingleCoin(f.store.config.denom, m.amount);
  }

  /** A settlement that only the wider allowance covers. */
  lemma BeyondAllowanceDiverges(e: E.World, f: F.World, ctx: E.Context, m: E.Method)
    requires EAcceptance.IsSettlement(m) && m.amount > f.store.config.allowance
    requires Related(e, f) && Expressible(e.state, ctx, m)
    ensures !Follows(e, f, ctx, m)
  {
  }

  lemma OtherDisagreementDiverges(e: E.World, f: F.World, ctx: E.Context, m: E.Method)
    requires !EAcceptance.IsSettlement(m) && !m.Swap? && !Agrees(e, f, m)
    requires Related(e, f) && Expressible(e.state, ctx, m) && E.Accepted(e, E.Call(ctx, m))
    ensures !Follows(e, f, ctx, m)
  {
  }

  /** An accepted `Bridge.sol` step is followed by the CosmWasm contract if and only if it is one on which the
      designs agree. */
  lemma Simulates(e: E.World, f: F.World, ctx: E.Context, m: E.Method)
    requires Related(e, f) && Expressible(e.state, ctx, m) && E.Accepted(e, E.Call(ctx, m))
    ensures Follows(e, f, ctx, m) <==> Agrees(e, f, m)
  {
    if Agrees(e, f, m) { AgreeingStepFollows(e, f, ctx, m); }
    else if R.IsRefund(m) && m.amount == 0 { ZeroRefundDiverges(e, f, ctx, m); }
    else if EAcceptance.IsSettlement(m) {
      EAcceptance.AcceptedExactlyWhen(e, ctx, m);
      BeyondAllowanceDiverges(e, f, ctx, m);
    }
    else if m.Swap? { SwapAtCounterEndDiverges(e, f, ctx, m); }
    else { OtherDisagreementDiverges(e, f, ctx, m); }
  }

  // ---------- the upper limit ----------

  function WithLimit(f: F.World, limit: u128): F.World {
    f.(store := f.store.(config := f.store.config.(upperSwapLimit := limit)))
  }

  lemma SettlementHandlerIgnoresLimit(f: F.World, a: F.Action, limit: u128)
    requires a.Call? && S.IsSettlement(a.msg)
    ensures var r, r' := F.Execute(f.store, a.env, a.info, a.msg),
                         F.Execute(WithLimit(f, limit).store, a.env, a.info, a.msg);
      (r.Ok? <==> r'.Ok?) && (r.Ok? ==> r.value.response == r'.value.response)
  {
  }

  /** The CosmWasm settlements do not read the limit. */
  lemma SettlementIgnoresLimit(f: F.World, a: F.Action, limit: u128)
    requires a.Call? && S.IsSettlement(a.msg)
    ensures F.Accepted(f, a) <==> F.Accepted(WithLimit(f, limit), a)
  {
    SettlementHandlerIgnoresLimit(f, a, limit);
  }

  /** A settlement above the swap limit: `Bridge.sol` rejects it, and the CosmWasm contract accepts it
      exactly when `Bridge.sol` would if the limit were raised to the amount. */
  lemma LimitBindsOnEthereumOnly(e: E.World, f: F.World, ctx: E.Context, m: E.Method)
    requires (R.IsRefund(m) || m.ReverseSwap?) && m.amount > e.state.swapMax && Comparable(e, f, ctx, m)
    ensures !E.Accepted(e, E.Call(ctx, m))
    ensures var raised := e.(state := e.state.(swapMax := m.amount));
      F.Accepted(f, Translate(e, f, ctx, m)) <==> E.Accepted(raised, E.Call(ctx, m))
  {
    AcceptsTheSame(e, f, ctx, m);
    AcceptsTheSame(e.(state := e.state.(swapMax := m.amount)), WithLimit(f, m.amount), ctx, m);
    SettlementIgnoresLimit(f, Translate(e, f, ctx, m), m.amount);
  }

  // ---------- examples ----------

  function ExampleEth(): E.World {
    var roles := {([2], Relayer), ([4], Admin)};
    var token := Ledger(map[[1] := 20], 20);
    E.World(E.State([1], token, 0, false, 20, 0, 5, map[], 10, 2, 100, 1, 9, 9, 20, 0, roles), 0)
  }

  lemma ExampleRelated() returns (f: F.World)
    ensures Related(ExampleEth(), f) && f.store.config.allowance == 20
  {
    SoleHolder([1], 20);
    var config := F.State(20, 0, 0, 0, 6, 10, 2, 20, 0, 100, 1, 9, 9, "afet", [1]);
    f := F.World(F.Store(config, {}, ExampleEth().state.roles), ExampleEth().state.token, 0);
  }

  lemma ExampleReverseSwap(e: E.World, ctx: E.Context, m: E.Method)
    requires e == ExampleEth() && ctx == E.Context([2], 0, true) && m == E.ReverseSwap(0, [3], "", "", 15, 5)
    ensures E.Accepted(e.(state := e.state.(swapMax := 15)), E.Call(ctx, m))
  {
  }

  /** A reverse swap of 15 above the limit of 10, which only the CosmWasm contract accepts. */
  lemma LimitExample() returns (e: E.World, f: F.World, ctx: E.Context, m: E.Method)
    ensures m.ReverseSwap? && m.amount == 15 > e.state.swapMax == 10 && Comparable(e, f, ctx, m)
    ensures !E.Accepted(e, E.Call(ctx, m)) && F.Accepted(f, Translate(e, f, ctx, m))
  {
    e := ExampleEth();
    f := ExampleRelated();
    ctx, m := E.Context([2], 0, true), E.ReverseSwap(0, [3], "", "", 15, 5);
    ExampleReverseSwap(e, ctx, m);
    LimitBindsOnEthereumOnly(e, f, ctx, m);
  }

  /** Limits with the fee equal to the minimum: `Bridge.sol` takes them from any admin, and the CosmWasm contract
      from nobody. */
  lemma EqualFeeOnEthereumOnly(e: E.World, f: F.World, ctx: E.Context, m: E.Method)
    requires Related(e, f) && Expressible(e.state, ctx, m) && m.SetLimits? && m.swapFee == m.swapMin
    ensures E.Accepted(e, E.Call(ctx, m)) <==>
              EAcceptance.Deliverable(e, ctx) && E.HasRole(e.state, ctx.sender, Admin) && m.swapMin <= m.swapMax
    ensures !F.Accepted(f, Translate(e, f, ctx, m))
  {
    EAcceptance.AcceptedExactlyWhen(e, ctx, m);
  }

  lemma EqualFeeExample() returns (e: E.World, f: F.World, ctx: E.Context, m: E.Method)
    ensures Related(e, f) && Expressible(e.state, ctx, m) && m == E.SetLimits(1000, 100, 100)
    ensures E.Accepted(e, E.Call(ctx, m)) && !F.Accepted(f, Translate(e, f, ctx, m))
  {
    e := ExampleEth();
    f := ExampleRelated();
    ctx, m := E.Context([4], 0, true), E.SetLimits(1000, 100, 100);
    EqualFeeOnEthereumOnly(e, f, ctx, m);
  }

  // ---------- whole runs ----------

  /** The action is not refused. */
  predicate Effective(e: E.World, a: E.Action) {
    if a.Call? then E.Accepted(e, a) else E.OutsideToken(e.state, a).Some?
  }

  /** An action that takes effect and stays within the CosmWasm types. */
  predicate Translatable(e: E.World, a: E.Action) {
    && Effective(e, a)
    && match a
       case Call(ctx, m) => Expressible(e.state, ctx, m)
       case MintOutside(_, amount) => e.state.token.total + amount <= U128_MAX
       case _ => true
  }

  /** The action of the other side; nothing for an action that is refused. */
  function Counterpart(e: E.World, f: F.World, a: E.Action): seq<F.Action> {
    if !Translatable(e, a) then []
    else
      match a
      case Call(ctx, m) => [Translate(e, f, ctx, m)]
      case Transfer(from, to, amount) => [F.Transfer(from, to, amount)]
      case MintOutside(to, amount) => [F.IssueOutside(to, amount)]
      case BurnOutside(from, amount) => [F.RetireOutside(from, amount)]
  }

  function TranslateRun(e: E.World, f: F.World, acts: seq<E.Action>): seq<F.Action>
    decreases |acts|
  {
    if acts == [] then []
    else
      var first := Counterpart(e, f, acts[0]);
      first + TranslateRun(E.Next(e, acts[0]), F.Run(f, first), acts[1..])
  }

  /** Every action that takes effect has a counterpart, and is one on which the designs agree. */
  predicate ComparableRun(e: E.World, f: F.World, acts: seq<E.Action>)
    decreases |acts|
  {
    if acts == [] then true
    else
      && (Effective(e, acts[0]) ==> Translatable(e, acts[0]) && (acts[0].Call? ==> Agrees(e, f, acts[0].m)))
      && ComparableRun(E.Next(e, acts[0]), F.Run(f, Counterpart(e, f, acts[0])), acts[1..])
  }

  lemma RunOne(f: F.World, a: F.Action)
    ensures F.Run(f, [a]) == F.Next(f, a)
  {
    assert [a][1..] == [];
  }

  lemma RunAfterCounterpart(f: F.World, first: seq<F.Action>, rest: seq<F.Action>)
    requires |first| <= 1
    ensures F.Run(f, first + rest) == F.Run(F.Run(f, first), rest)
  {
    if first == [] {
      assert first + rest == rest;
    } else {
      RunOne(f, first[0]);
      assert first == [first[0]] && (first + rest)[1..] == rest;
    }
  }

  /** Token movements by others look the same on both ledgers, whether they reach the bridge or not. */
  lemma OutsideStepRelated(e: E.World, f: F.World, a: E.Action)
    requires Related(e, f) && !a.Call? && Translatable(e, a)
    ensures Related(E.Next(e, a), F.Run(f, Counterpart(e, f, a)))
  {
    var a' := Counterpart(e, f, a)[0];
    RunOne(f, a');
    R.StepReconciles(e, a);
    S.NextKeepsInv(f, a');
    match a {
      case Transfer(from, to, amount) => MoveConserves(f.bank, from, to, amount);
      case MintOutside(_, _) =>
      case BurnOutside(_, _) =>
    }
  }

  lemma StepRelated(e: E.World, f: F.World, a: E.Action)
    requires Related(e, f)
    requires Effective(e, a) ==> Translatable(e, a) && (a.Call? ==> Agrees(e, f, a.m))
    ensures Related(E.Next(e, a), F.Run(f, Counterpart(e, f, a)))
    ensures AllowanceGap(E.Next(e, a).state, F.Run(f, Counterpart(e, f, a)).store)
            in {0, AllowanceGap(e.state, f.store)}
  {
    if !Effective(e, a) {
      assert F.Run(f, []) == f;
    } else if a.Call? {
      RunOne(f, Translate(e, f, a.ctx, a.m));
      AgreeingStepFollows(e, f, a.ctx, a.m);
    } else {
      OutsideStepRelated(e, f, a);
    }
  }

  lemma {:induction false} RunsStayRelated(e: E.World, f: F.World, acts: seq<E.Action>)
    requires Related(e, f) && ComparableRun(e, f, acts)
    ensures Related(E.Run(e, acts), F.Run(f, TranslateRun(e, f, acts)))
    ensures AllowanceGap(E.Run(e, acts).state, F.Run(f, TranslateRun(e, f, acts)).store)
            in {0, AllowanceGap(e.state, f.store)}
    decreases |acts|
  {
    if acts != [] {
      var first := Counterpart(e, f, acts[0]);
      var e', f' := E.Next(e, acts[0]), F.Run(f, first);
      StepRelated(e, f, acts[0]);
      RunsStayRelated(e', f', acts[1..]);
      RunAfterCounterpart(f, first, TranslateRun(e', f', acts[1..]));
    }
  }

  /** Whole runs of calls and token movements: the CosmWasm contract, driven by the translated actions, keeps
      the same accounts and the same ledger as `Bridge.sol`, and the fees that `Bridge.sol` derives are the
      fees that the other stores, plus its excess at the start and what its account gained since. Allowances
      that are equal at the start stay equal. */
  lemma SimulatesRun(e: E.World, f: F.World, acts: seq<E.Action>)
    requires Related(e, f) && ComparableRun(e, f, acts)
    ensures var acts' := TranslateRun(e, f, acts); var s, f' := E.Run(e, acts).state, F.Run(f, acts');
      && Related(E.Run(e, acts), f')
      && E.GetFeesAccrued(s) == Ok(f'.store.config.feesAccrued + S.Excess(f) + S.TotalExcessGain(f, acts'))
      && AllowanceGap(s, f'.store) in {0, AllowanceGap(e.state, f.store)}
  {
    RunsStayRelated(e, f, acts);
    S.Solvency(f, TranslateRun(e, f, acts));
  }

  // ---------- deployment ----------

  /** The instantiation that corresponds to a deployment, open at first. */
  function InstantiationOf(d: E.Deployment, denom: string): F.InstantiateMsg
    requires Max(d.swapMin, d.swapFee) <= U128_MAX
  {
    F.InstantiateMsg(0, Clamp(d.cap, U128_MAX), Clamp(d.swapMax, U128_MAX), d.swapMin, d.swapFee,
                     Clamp(d.allowance, U128_MAX), Clamp(d.approverCap, U128_MAX), None, Some(denom))
  }

  /** The deployer then pauses each API as the deployment does. */
  function PausesOf(d: E.Deployment, env: F.Env, deployer: Address): seq<F.Action> {
    [F.Call(env, F.Info(deployer, []), F.PausePublicApi(Clamp(d.pausedSincePublic, U64_MAX))),
     F.Call(env, F.Info(deployer, []), F.PauseRelayerApi(Clamp(d.pausedSinceRelayer, U64_MAX)))]
  }

  lemma PauseEffect(f: F.World, env: F.Env, deployer: Address, msg: F.ExecuteMsg)
    requires msg.PausePublicApi? || msg.PauseRelayerApi?
    requires S.Inv(f) && F.HasRole(f.store, deployer, Admin) && |deployer| <= NAMESPACE_MAX
    requires f.height == env.height && deployer != f.store.config.contractAddr
    ensures var f' := F.Next(f, F.Call(env, F.Info(deployer, []), msg)); var c := f.store.config;
      && S.Inv(f') && f'.height == f.height && f'.bank == f.bank
      && f'.store == f.store.(config :=
           if msg.PausePublicApi? then c.(pausedSincePublic := Max(msg.sinceBlock, env.height))
           else c.(pausedSinceRelayer := Max(msg.sinceBlock, env.height)))
  {
    NoFunds(f, deployer);
    S.NextKeepsInv(f, F.Call(env, F.Info(deployer, []), msg));
  }

  /** A deployment and the corresponding instantiation, followed by two pause messages, are related; the
      instantiation fails if and only if the fee equals the minimum. */
  lemma DeploymentsRelated(bridge: Address, token: Ledger, ctx: E.Context, d: E.Deployment, env: F.Env, denom: string)
    requires token.Consistent() && token.total <= U128_MAX && bridge != E.ZERO_ADDRESS
    requires ctx.block < U64_MAX && env.height == ctx.block && |ctx.sender| <= NAMESPACE_MAX && ctx.sender != bridge
    requires d.swapMin <= U128_MAX && E.Deploy(bridge, token, ctx, d).Ok?
    ensures var f := F.InstantiateWorld(token, bridge, env, F.Info(ctx.sender, []), InstantiationOf(d, denom));
      && (f.Ok? <==> d.swapFee != d.swapMin)
      && (f.Ok? ==> Related(E.World(E.Deploy(bridge, token, ctx, d).value, ctx.block),
                            F.Run(f.value, PausesOf(d, env, ctx.sender))))
  {
    R.DeployEstablishesInv(bridge, token, ctx, d);
    var f := F.InstantiateWorld(token, bridge, env, F.Info(ctx.sender, []), InstantiationOf(d, denom));
    if f.Ok? {
      S.InstantiateEstablishesInv(token, bridge, env, F.Info(ctx.sender, []), InstantiationOf(d, denom));
      var pauses := PausesOf(d, env, ctx.sender);
      PauseEffect(f.value, env, ctx.sender, pauses[0].msg);
      PauseEffect(F.Next(f.value, pauses[0]), env, ctx.sender, pauses[1].msg);
      assert pauses == [pauses[0]] + [pauses[1]];
      RunAfterCounterpart(f.value, [pauses[0]], [pauses[1]]);
      RunOne(f.value, pauses[0]);
      RunOne(F.Next(f.value, pauses[0]), pauses[1]);
    }
  }
}
