/** The logs of `Bridge.sol` tell everything: what each call was, and, folded over the state at deployment, the
    whole state and the token's ledger. */
module EthReplay {
  import opened Types
  import opened Ledgers
  import opened EthSpec
  import opened EthRuns

  // ---------- what a call announces ----------

  /** The transfer that a settlement announces before its own event. */
  function Payment(s: State, to: Address, paid: nat): seq<Log> {
    if paid == 0 then [] else [TokenTransfer(s.bridge, to, paid)]
  }

  /** The log of an accepted call says whose it was and what it asked for. The fee of a settlement is the swap
      fee, or the whole amount when that is smaller. */
  predicate Reports(s: State, ctx: Context, m: Method, log: seq<Log>) {
    match m
    case Swap(amount, destination) =>
      log == [TokenTransfer(ctx.sender, s.bridge, amount), SwapLog(s.nextSwapId, ctx.sender, destination, amount)]
    case Refund(id, to, amount, _) =>
      var fee := if s.swapFee < amount then s.swapFee else amount;
      log == Payment(s, to, amount - fee) + [SwapRefund(id, to, amount - fee, fee)]
    case RefundInFull(id, to, amount, _) =>
      log == [TokenTransfer(s.bridge, to, amount), SwapRefund(id, to, amount, 0)]
    case ReverseSwap(rid, to, from, originTxHash, amount, _) =>
      var fee := if s.swapFee < amount then s.swapFee else amount;
      log == Payment(s, to, amount - fee) + [ReverseSwapLog(rid, to, from, originTxHash, amount - fee, fee)]
    case NewRelayEon => log == [NewRelayEonLog(if s.relayEon == U64_MAX then 0 else s.relayEon + 1)]
    case PausePublicApiSince(b) => log == [PausePublicApi(Max(b, ctx.block))]
    case PauseRelayerApiSince(b) => log == [PauseRelayerApi(Max(b, ctx.block))]
    case Mint(amount) => log == [TokenTransfer(ZERO_ADDRESS, s.bridge, amount)]
    case Burn(amount) => log == [TokenTransfer(s.bridge, ZERO_ADDRESS, amount)]
    case SetCap(value) => log == [CapUpdate(value)]
    case SetAllowance(value) => log == [AllowanceUpdate(value)]
    case SetApproverCap(value) => log == [ApproverCapUpdate(value)]
    case SetLimits(swapMax, swapMin, swapFee) => log == [LimitsUpdate(swapMax, swapMin, swapFee)]
    case Withdraw(target, amount) =>
      log == [TokenTransfer(s.bridge, target, amount), WithdrawLog(target, amount)]
    case Deposit(amount) =>
      log == [TokenTransfer(ctx.sender, s.bridge, amount), DepositLog(ctx.sender, amount)]
    case WithdrawFees(target) =>
      && |log| == 2 && log[1].FeesWithdrawal? && log[1].target == target
      && s.supply + log[1].fees == BridgeBalance(s)
      && log[0] == TokenTransfer(s.bridge, target, log[1].fees)
    case DeleteContract(target) =>
      log == [TokenTransfer(s.bridge, target, BridgeBalance(s)), DeleteContractLog(target, BridgeBalance(s))]
    case GrantRole(role, account) =>
      log == if HasRole(s, account, role) then [] else [RoleGranted(role, account)]
    case RevokeRole(role, account) =>
      log == if HasRole(s, account, role) then [RoleRevoked(role, account)] else []
    case RenounceRole(role, account) =>
      account == ctx.sender && log == if HasRole(s, account, role) then [RoleRevoked(role, account)] else []
  }

  lemma SettlementReported(s: State, ctx: Context, m: Method)
    requires (IsRefund(m) || m.ReverseSwap?) && Execute(s, ctx, m).Ok?
    ensures Reports(s, ctx, m, Execute(s, ctx, m).value.log)
  {
  }

  lemma CallReported(s: State, ctx: Context, m: Method)
    requires Execute(s, ctx, m).Ok?
    ensures Reports(s, ctx, m, Execute(s, ctx, m).value.log)
  {
    if IsRefund(m) || m.ReverseSwap? { SettlementReported(s, ctx, m); }
  }

  // ---------- an observer that sees logs only ----------

  /** Puts new figures into the state; `None` when a log claims what no state can hold. */
  function Rebook(s: State, supply: int, allowance: int): Option<State> {
    if 0 <= supply <= U256_MAX && 0 <= allowance <= U256_MAX then Some(s.(supply := supply, allowance := allowance))
    else None
  }

  function WithToken(s: State, token: Option<Ledger>): Option<State> {
    if token.Some? then Some(s.(token := token.value)) else None
  }

  /** Tokens come from and go to the zero address when they are minted and burnt; the bridge's own mints and
      burns change its supply. */
  function ReplayTransfer(s: State, source: Address, to: Address, tokens: nat): Option<State> {
    if source == ZERO_ADDRESS then
      Rebook(s.(token := s.token.Issue(to, tokens)), s.supply + (if to == s.bridge then tokens else 0), s.allowance)
    else if to == ZERO_ADDRESS then
      var token := s.token.Retire(source, tokens);
      if token.None? then None
      else
        Rebook(s.(token := token.value), s.supply - (if source == s.bridge then tokens else 0), s.allowance)
    else WithToken(s, s.token.Move(source, to, tokens))
  }

  /** What a settlement consumed comes back as what was paid plus the fee. */
  function Settle(s: State, paid: u256, fee: u256): Option<State> {
    Rebook(s, s.supply - paid - fee, s.allowance - paid - fee)
  }

  function ReplayLog(s: State, l: Log): Option<State> {
    match l
    case SwapLog(id, _, _, amount) =>
      Rebook(s.(nextSwapId := if id == U64_MAX then 0 else id + 1), s.supply + amount, s.allowance)
    case SwapRefund(id, _, refundedAmount, fee) =>
      Settle(s.(refunds := s.refunds[id := refundedAmount + fee]), refundedAmount, fee)
    case ReverseSwapLog(_, _, _, _, effectiveAmount, fee) => Settle(s, effectiveAmount, fee)
    case PausePublicApi(sinceBlock) => Some(s.(pausedSincePublic := sinceBlock))
    case PauseRelayerApi(sinceBlock) => Some(s.(pausedSinceRelayer := sinceBlock))
    case NewRelayEonLog(eon) => Some(s.(relayEon := eon))
    case LimitsUpdate(max, min, fee) => Some(s.(swapMax := max, swapMin := min, swapFee := fee))
    case CapUpdate(value) => Some(s.(cap := value))
    case AllowanceUpdate(value) => Some(s.(allowance := value))
    case ApproverCapUpdate(value) => Some(s.(approverCap := value))
    case WithdrawLog(_, amount) => Rebook(s, s.supply - amount, s.allowance)
    case DepositLog(_, amount) => Rebook(s, s.supply + amount, s.allowance)
    case FeesWithdrawal(_, _) => Some(s)
    case DeleteContractLog(_, _) => Some(s.(deleted := true))
    case RoleGranted(role, account) => Some(s.(roles := s.roles + {(account, role)}))
    case RoleRevoked(role, account) => Some(s.(roles := s.roles - {(account, role)}))
    case TokenTransfer(source, to, tokens) => ReplayTransfer(s, source, to, tokens)
  }

  function ReplayAll(s: State, logs: seq<Log>): Option<State>
    decreases |logs|
  {
    if logs == [] then Some(s)
    else
      var next := ReplayLog(s, logs[0]);
      if next.None? then None else ReplayAll(next.value, logs[1..])
  }

  lemma {:induction false} ReplayAppend(s: State, logs: seq<Log>, logs': seq<Log>)
    requires ReplayAll(s, logs).Some?
    ensures ReplayAll(s, logs + logs') == ReplayAll(ReplayAll(s, logs).value, logs')
    decreases |logs|
  {
    if logs == [] {
      assert logs + logs' == logs';
    } else {
      assert (logs + logs')[1..] == logs[1..] + logs';
      ReplayAppend(ReplayLog(s, logs[0]).value, logs[1..], logs');
    }
  }

  /** The same for a log of at most two entries, which is all a transaction writes. */
  function ReplayShort(s: State, logs: seq<Log>): Option<State>
    requires |logs| <= 2
  {
    if |logs| == 0 then Some(s)
    else
      var next := ReplayLog(s, logs[0]);
      if |logs| == 1 || next.None? then next else ReplayLog(next.value, logs[1])
  }

  lemma ReplayAllOfShort(s: State, logs: seq<Log>)
    requires |logs| <= 2
    ensures ReplayAll(s, logs) == ReplayShort(s, logs)
  {
    if |logs| > 0 && ReplayLog(s, logs[0]).Some? {
      var next := ReplayLog(s, logs[0]).value;
      assert ReplayAll(s, logs) == ReplayAll(next, logs[1..]);
      if |logs| == 2 { assert logs[1..][1..] == [] && logs[1..][0] == logs[1]; }
    }
  }

  /** What is shown of an accepted call. */
  predicate Replayable(s: State, ctx: Context, m: Method) {
    var r := Execute(s, ctx, m);
    r.Ok? ==> |r.value.log| <= 2 && ReplayShort(s, r.value.log) == Some(r.value.state)
  }

  lemma RefundReplays(s: State, ctx: Context, m: Method)
    requires m.Refund? && s.bridge != ZERO_ADDRESS
    ensures Replayable(s, ctx, m)
  {
  }

  lemma RefundInFullReplays(s: State, ctx: Context, m: Method)
    requires m.RefundInFull? && s.bridge != ZERO_ADDRESS
    ensures Replayable(s, ctx, m)
  {
  }

  lemma ReverseSwapReplays(s: State, ctx: Context, m: Method)
    requires m.ReverseSwap? && s.bridge != ZERO_ADDRESS
    ensures Replayable(s, ctx, m)
  {
  }

  lemma IntakeReplays(s: State, ctx: Context, m: Method)
    requires (m.Swap? || m.Deposit?) && s.bridge != ZERO_ADDRESS
    ensures Replayable(s, ctx, m)
  {
  }

  lemma WithdrawalReplays(s: State, ctx: Context, m: Method)
    requires (m.Withdraw? || m.WithdrawFees? || m.DeleteContract?) && s.bridge != ZERO_ADDRESS
    ensures Replayable(s, ctx, m)
  {
  }

  lemma MintOrBurnReplays(s: State, ctx: Context, m: Method)
    requires (m.Mint? || m.Burn?) && s.bridge != ZERO_ADDRESS
    ensures Replayable(s, ctx, m)
  {
  }

  lemma OtherReplays(s: State, ctx: Context, m: Method)
    requires !MovesTokens(m)
    ensures Replayable(s, ctx, m)
  {
  }

  lemma CallReplays(s: State, ctx: Context, m: Method)
    requires s.bridge != ZERO_ADDRESS
    ensures Replayable(s, ctx, m)
  {
    if m.Refund? { RefundReplays(s, ctx, m); }
    else if m.RefundInFull? { RefundInFullReplays(s, ctx, m); }
    else if m.ReverseSwap? { ReverseSwapReplays(s, ctx, m); }
    else if m.Swap? || m.Deposit? { IntakeReplays(s, ctx, m); }
    else if m.Mint? || m.Burn? { MintOrBurnReplays(s, ctx, m); }
    else if MovesTokens(m) { WithdrawalReplays(s, ctx, m); }
    else { OtherReplays(s, ctx, m); }
  }

  /** The log of one step determines the new state and the new ledger, whoever acted. */
  lemma StepReplays(w: World, a: Action)
    requires w.state.bridge != ZERO_ADDRESS
    ensures ReplayAll(w.state, Step(w, a).log) == Some(Next(w, a).state) && Next(w, a).state.bridge == w.state.bridge
  {
    if Accepted(w, a) {
      CallReplays(w.state, a.ctx, a.m);
      BridgeStays(w.state, a.ctx, a.m);
    }
    ReplayAllOfShort(w.state, Step(w, a).log);
  }

  lemma BridgeStays(s: State, ctx: Context, m: Method)
    requires Execute(s, ctx, m).Ok?
    ensures Execute(s, ctx, m).value.state.bridge == s.bridge
  {
  }

  /** Folding the logs of any run over the initial state rebuilds the final state and the final ledger. */
  lemma {:induction false} RunReplays(w: World, acts: seq<Action>)
    requires w.state.bridge != ZERO_ADDRESS
    ensures ReplayAll(w.state, Logs(w, acts)) == Some(Run(w, acts).state)
    decreases |acts|
  {
    if acts != [] {
      var w' := Next(w, acts[0]);
      StepReplays(w, acts[0]);
      RunReplays(w', acts[1..]);
      ReplayAppend(w.state, Step(w, acts[0]).log, Logs(w', acts[1..]));
    }
  }

  // ---------- swap ids ----------

  /** The ids under which the logs announce swaps. */
  function SwapIds(logs: seq<Log>): seq<u64>
    decreases |logs|
  {
    if logs == [] then [] else (if logs[0].SwapLog? then [logs[0].id] else []) + SwapIds(logs[1..])
  }

  lemma {:induction false} SwapIdsAppend(logs: seq<Log>, logs': seq<Log>)
    ensures SwapIds(logs + logs') == SwapIds(logs) + SwapIds(logs')
    decreases |logs|
  {
    if logs == [] {
      assert logs + logs' == logs';
    } else {
      SwapIdsAppend(logs[1..], logs');
      assert (logs + logs')[1..] == logs[1..] + logs';
    }
  }

  lemma SwapIdsOfShort(logs: seq<Log>)
    requires |logs| <= 2
    ensures (forall l :: l in logs ==> !l.SwapLog?) ==> SwapIds(logs) == []
    ensures |logs| == 2 && !logs[0].SwapLog? && logs[1].SwapLog? ==> SwapIds(logs) == [logs[1].id]
  {
    if |logs| > 0 {
      assert logs[0] in logs;
      if |logs| == 2 { assert logs[1] in logs && logs[1..][1..] == [] && logs[1..][0] == logs[1]; }
    }
  }

  /** The id after n swaps. */
  function IdAfter(id: u64, n: nat): u64 {
    (id + n) % U64_MODULUS
  }

  lemma IdAfterSum(id: u64, i: nat, j: nat)
    ensures IdAfter(IdAfter(id, i), j) == IdAfter(id, i + j)
  {
  }

  ghost predicate CountsUp(ids: seq<u64>, id: u64) {
    forall k :: 0 <= k < |ids| ==> ids[k] == IdAfter(id, k)
  }

  lemma CountsUpCons(id: u64, ids: seq<u64>)
    requires CountsUp(ids, IdAfter(id, 1))
    ensures CountsUp([id] + ids, id)
  {
    var all := [id] + ids;
    forall k | 0 <= k < |all| ensures all[k] == IdAfter(id, k) {
      if k > 0 {
        assert all[k] == ids[k - 1] == IdAfter(IdAfter(id, 1), k - 1);
        IdAfterSum(id, 1, k - 1);
      }
    }
  }

  lemma CallSwapIds(s: State, ctx: Context, m: Method)
    requires Execute(s, ctx, m).Ok?
    ensures var e := Execute(s, ctx, m).value;
      && |e.log| <= 2
      && e.state.nextSwapId == (if m.Swap? then IdAfter(s.nextSwapId, 1) else s.nextSwapId)
      && (m.Swap? ==> |e.log| == 2 && !e.log[0].SwapLog? && e.log[1].SwapLog? && e.log[1].id == s.nextSwapId)
      && (!m.Swap? ==> forall l :: l in e.log ==> !l.SwapLog?)
  {
  }

  /** An accepted swap announces the id that was next, and nothing else announces a swap. */
  lemma SwapIdStep(w: World, a: Action)
    ensures var ids, s, s' := SwapIds(Step(w, a).log), w.state, Next(w, a).state;
      if Accepted(w, a) && a.m.Swap? then ids == [s.nextSwapId] && s'.nextSwapId == IdAfter(s.nextSwapId, 1)
      else ids == [] && s'.nextSwapId == s.nextSwapId
  {
    if Accepted(w, a) { CallSwapIds(w.state, a.ctx, a.m); }
    SwapIdsOfShort(Step(w, a).log);
  }

  /** The announced ids count up from the first one, modulo 2^64. */
  lemma {:induction false} SwapIdsCountUp(w: World, acts: seq<Action>)
    ensures var ids := SwapIds(Logs(w, acts));
      CountsUp(ids, w.state.nextSwapId) && Run(w, acts).state.nextSwapId == IdAfter(w.state.nextSwapId, |ids|)
    decreases |acts|
  {
    if acts != [] {
      var w', log := Next(w, acts[0]), Step(w, acts[0]).log;
      var rest := SwapIds(Logs(w', acts[1..]));
      SwapIdStep(w, acts[0]);
      SwapIdsCountUp(w', acts[1..]);
      SwapIdsAppend(log, Logs(w', acts[1..]));
      if SwapIds(log) == [] {
        assert SwapIds(Logs(w, acts)) == rest;
      } else {
        CountsUpCons(w.state.nextSwapId, rest);
        IdAfterSum(w.state.nextSwapId, 1, |rest|);
      }
    }
  }
}
