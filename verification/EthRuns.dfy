/** Properties of whole runs of `Bridge.sol`: the balance covers the supply, the books can be
    reconciled from the logs, refunds, relay eons, allowance, pausing and the cap. */
module EthRuns {
  import opened Types
  import opened Ledgers
  import opened EthSpec

  // ---------- reading the logs ----------

  /** Adds up what each log entry says. */
  function Sum(f: Log -> int, logs: seq<Log>): int
    decreases |logs|
  {
    if logs == [] then 0 else f(logs[0]) + Sum(f, logs[1..])
  }

  lemma {:induction false} SumAppend(f: Log -> int, logs: seq<Log>, logs': seq<Log>)
    ensures Sum(f, logs + logs') == Sum(f, logs) + Sum(f, logs')
    decreases |logs|
  {
    if logs == [] {
      assert logs + logs' == logs';
    } else {
      SumAppend(f, logs[1..], logs');
      assert (logs + logs')[1..] == logs[1..] + logs';
    }
  }

  /** The value of a log of at most two entries, which is all a transaction writes. */
  function SumShort(f: Log -> int, logs: seq<Log>): int
    requires |logs| <= 2
  {
    if |logs| == 0 then 0 else if |logs| == 1 then f(logs[0]) else f(logs[0]) + f(logs[1])
  }

  lemma SumOfShortLog(f: Log -> int, logs: seq<Log>)
    requires |logs| <= 2
    ensures Sum(f, logs) == SumShort(f, logs)
  {
  }

  /** The supply, from the bridge's own events, and for mints and burns from the token's transfers from and
      to the zero address. */
  function SupplyChange(bridge: Address): Log -> int {
    (l: Log) =>
      match l
      case SwapLog(_, _, _, amount) => amount
      case DepositLog(_, amount) => amount
      case SwapRefund(_, _, refundedAmount, fee) => 0 - refundedAmount - fee
      case ReverseSwapLog(_, _, _, _, effectiveAmount, fee) => 0 - effectiveAmount - fee
      case WithdrawLog(_, amount) => 0 - amount
      case TokenTransfer(source, to, tokens) =>
        if source == ZERO_ADDRESS && to == bridge then tokens
        else if source == bridge && to == ZERO_ADDRESS then 0 - tokens
        else 0
      case _ => 0
  }

  /** The bridge's balance, from the token's transfers. */
  function BalanceChange(bridge: Address): Log -> int {
    (l: Log) =>
      if l.TokenTransfer? then
        (if l.to == bridge then l.tokens else 0) - (if l.source == bridge then l.tokens else 0)
      else 0
  }

  function FeeCharged(): Log -> int {
    (l: Log) =>
      match l
      case SwapRefund(_, _, _, fee) => fee
      case ReverseSwapLog(_, _, _, _, _, fee) => fee
      case _ => 0
  }

  function FeesTaken(): Log -> int {
    (l: Log) => if l.FeesWithdrawal? then l.fees else 0
  }

  /** Tokens that reached the bridge, unless a mint, a swap or a deposit accounts for them. */
  function ExcessReceived(bridge: Address): Log -> int {
    (l: Log) =>
      match l
      case TokenTransfer(source, to, tokens) => if to == bridge && source != ZERO_ADDRESS then tokens else 0
      case SwapLog(_, _, _, amount) => 0 - amount
      case DepositLog(_, amount) => 0 - amount
      case _ => 0
  }

  // ---------- the invariant ----------

  function BridgeBalance(s: State): nat {
    s.token.Balance(s.bridge)
  }

  ghost predicate Inv(s: State) {
    && s.token.Consistent() && s.token.total <= U256_MAX
    && s.bridge != ZERO_ADDRESS
    && (!s.deleted ==> s.supply <= BridgeBalance(s))
    && s.swapFee <= s.swapMin <= s.swapMax
  }

  /** What the logs of one step say is what happened to the state. */
  predicate Reconciles(s: State, e: Effect) {
    var b := s.bridge;
    && |e.log| <= 2
    && e.state.bridge == b
    && e.state.supply == s.supply + Sum(SupplyChange(b), e.log)
    && BridgeBalance(e.state) == BridgeBalance(s) + Sum(BalanceChange(b), e.log)
    && (!e.state.deleted ==>
          Sum(BalanceChange(b), e.log) - Sum(SupplyChange(b), e.log)
          == Sum(FeeCharged(), e.log) + Sum(ExcessReceived(b), e.log) - Sum(FeesTaken(), e.log))
  }

  lemma SumsOfShortLog(bridge: Address, logs: seq<Log>)
    requires |logs| <= 2
    ensures Sum(SupplyChange(bridge), logs) == SumShort(SupplyChange(bridge), logs)
    ensures Sum(BalanceChange(bridge), logs) == SumShort(BalanceChange(bridge), logs)
    ensures Sum(FeeCharged(), logs) == SumShort(FeeCharged(), logs)
    ensures Sum(ExcessReceived(bridge), logs) == SumShort(ExcessReceived(bridge), logs)
    ensures Sum(FeesTaken(), logs) == SumShort(FeesTaken(), logs)
  {
    SumOfShortLog(SupplyChange(bridge), logs);
    SumOfShortLog(BalanceChange(bridge), logs);
    SumOfShortLog(FeeCharged(), logs);
    SumOfShortLog(ExcessReceived(bridge), logs);
    SumOfShortLog(FeesTaken(), logs);
  }

  /** The token movement of an accepted call, and what it does to the bridge's balance. */
  lemma MoveEffect(s: State, ctx: Context, from: Address, to: Address, amount: nat)
    requires Inv(s) && TokenMove(s, ctx, from, to, amount).Ok?
    ensures var token := TokenMove(s, ctx, from, to, amount).value;
      && token.Consistent() && token.total == s.token.total
      && token.Balance(s.bridge) ==
         BridgeBalance(s) - (if from == s.bridge then amount else 0) + (if to == s.bridge then amount else 0)
  {
    MoveConserves(s.token, from, to, amount);
  }

  function Delta(s: State, from: Address, to: Address, amount: nat): int {
    (if to == s.bridge then amount else 0) - (if from == s.bridge then amount else 0)
  }

  /** A token movement booked with one event `l` reconciles when the event accounts for the tokens that
      leave the bridge. */
  lemma MoveReconciles(s: State, ctx: Context, from: Address, to: Address, amount: nat, l: Log, e: Effect)
    requires Inv(s) && TokenMove(s, ctx, from, to, amount).Ok?
    requires e.log == [TokenTransfer(from, to, amount), l] && !l.TokenTransfer?
    requires e.state.token == TokenMove(s, ctx, from, to, amount).value && e.state.bridge == s.bridge
    requires e.state.swapFee <= e.state.swapMin <= e.state.swapMax
    requires e.state.supply == s.supply + SupplyChange(s.bridge)(l)
    requires !e.state.deleted ==>
               && e.state.supply <= BridgeBalance(s) + Delta(s, from, to, amount)
               && (if from == s.bridge then 0 - amount else 0) - SupplyChange(s.bridge)(l)
                  == FeeCharged()(l) + ExcessReceived(s.bridge)(l) - FeesTaken()(l)
    ensures Inv(e.state) && Reconciles(s, e)
  {
    MoveEffect(s, ctx, from, to, amount);
    SumsOfShortLog(s.bridge, e.log);
  }

  lemma IntakeReconciles(s: State, ctx: Context, m: Method)
    requires m.Swap? || m.Deposit?
    requires Inv(s) && !s.deleted && ctx.sender != s.bridge && Execute(s, ctx, m).Ok?
    ensures Inv(Execute(s, ctx, m).value.state) && Reconciles(s, Execute(s, ctx, m).value)
  {
    var e := Execute(s, ctx, m).value;
    MoveReconciles(s, ctx, ctx.sender, s.bridge, m.amount, e.log[1], e);
  }

  lemma RefundReconciles(s: State, ctx: Context, m: Method)
    requires IsRefund(m) && Inv(s) && !s.deleted && Execute(s, ctx, m).Ok?
    ensures Inv(Execute(s, ctx, m).value.state) && Reconciles(s, Execute(s, ctx, m).value)
  {
    var e := Execute(s, ctx, m).value;
    if m.RefundInFull? {
      MoveReconciles(s, ctx, s.bridge, m.to, m.amount, e.log[1], e);
    } else if m.amount > s.swapFee {
      MoveReconciles(s, ctx, s.bridge, m.to, m.amount - s.swapFee, e.log[1], e);
    } else {
      SumsOfShortLog(s.bridge, e.log);
    }
  }

  lemma ReverseSwapReconciles(s: State, ctx: Context, m: Method)
    requires m.ReverseSwap? && Inv(s) && !s.deleted && Execute(s, ctx, m).Ok?
    ensures Inv(Execute(s, ctx, m).value.state) && Reconciles(s, Execute(s, ctx, m).value)
  {
    var e := Execute(s, ctx, m).value;
    if m.amount > s.swapFee {
      MoveReconciles(s, ctx, s.bridge, m.to, m.amount - s.swapFee, e.log[1], e);
    } else {
      SumsOfShortLog(s.bridge, e.log);
    }
  }

  lemma WithdrawalReconciles(s: State, ctx: Context, m: Method)
    requires m.Withdraw? || m.WithdrawFees? || m.DeleteContract?
    requires Inv(s) && !s.deleted && Execute(s, ctx, m).Ok?
    ensures Inv(Execute(s, ctx, m).value.state) && Reconciles(s, Execute(s, ctx, m).value)
  {
    var e := Execute(s, ctx, m).value;
    var amount: nat :=
      if m.Withdraw? then m.amount else if m.WithdrawFees? then BridgeBalance(s) - s.supply else BridgeBalance(s);
    MoveReconciles(s, ctx, s.bridge, m.target, amount, e.log[1], e);
  }

  /** The same for a single token event: a mint, a burn or a transfer outside the bridge. */
  lemma TokenEventReconciles(s: State, l: Log, e: Effect)
    requires Inv(s) && l.TokenTransfer? && e.log == [l]
    requires e.state == s.(token := e.state.token, supply := e.state.supply)
    requires e.state.token.Consistent() && e.state.token.total <= U256_MAX
    requires e.state.supply == s.supply + SupplyChange(s.bridge)(l)
    requires BridgeBalance(e.state) == BridgeBalance(s) + BalanceChange(s.bridge)(l)
    requires BalanceChange(s.bridge)(l) - SupplyChange(s.bridge)(l) == ExcessReceived(s.bridge)(l) >= 0
    ensures Inv(e.state) && Reconciles(s, e)
  {
    SumsOfShortLog(s.bridge, e.log);
  }

  lemma MintReconciles(s: State, ctx: Context, amount: u256)
    requires Inv(s) && !s.deleted && DoMint(s, ctx, amount).Ok?
    ensures Inv(DoMint(s, ctx, amount).value.state) && Reconciles(s, DoMint(s, ctx, amount).value)
  {
    var e := DoMint(s, ctx, amount).value;
    IssueAdds(s.token, s.bridge, amount);
    TokenEventReconciles(s, e.log[0], e);
  }

  lemma BurnReconciles(s: State, ctx: Context, amount: u256)
    requires Inv(s) && !s.deleted && DoBurn(s, ctx, amount).Ok?
    ensures Inv(DoBurn(s, ctx, amount).value.state) && Reconciles(s, DoBurn(s, ctx, amount).value)
  {
    var e := DoBurn(s, ctx, amount).value;
    RetireRemoves(s.token, s.bridge, amount);
    TokenEventReconciles(s, e.log[0], e);
  }

  predicate MovesTokens(m: Method) {
    || m.Swap? || m.Deposit? || m.Refund? || m.RefundInFull? || m.ReverseSwap? || m.Withdraw? || m.WithdrawFees?
    || m.DeleteContract? || m.Mint? || m.Burn?
  }

  /** Calls that move no tokens log at most one entry, which none of the sums counts. */
  lemma OtherCallLeavesBooks(s: State, ctx: Context, m: Method)
    requires !MovesTokens(m) && Inv(s) && Execute(s, ctx, m).Ok?
    ensures var e := Execute(s, ctx, m).value; var s' := e.state;
      && s'.token == s.token && s'.supply == s.supply && s'.bridge == s.bridge && s'.deleted == s.deleted
      && s'.swapFee <= s'.swapMin <= s'.swapMax
      && |e.log| <= 1
      && (|e.log| == 1 ==>
            var l := e.log[0];
            && !l.SwapLog? && !l.SwapRefund? && !l.ReverseSwapLog? && !l.WithdrawLog? && !l.DepositLog?
            && !l.FeesWithdrawal? && !l.TokenTransfer?)
  {
  }

  lemma OtherCallReconciles(s: State, ctx: Context, m: Method)
    requires !MovesTokens(m)
    requires Inv(s) && !s.deleted && Execute(s, ctx, m).Ok?
    ensures Inv(Execute(s, ctx, m).value.state) && Reconciles(s, Execute(s, ctx, m).value)
  {
    OtherCallLeavesBooks(s, ctx, m);
    SumsOfShortLog(s.bridge, Execute(s, ctx, m).value.log);
  }

  lemma CallReconciles(s: State, ctx: Context, m: Method)
    requires Inv(s) && !s.deleted && ctx.sender != s.bridge && Execute(s, ctx, m).Ok?
    ensures Inv(Execute(s, ctx, m).value.state) && Reconciles(s, Execute(s, ctx, m).value)
  {
    if m.Swap? || m.Deposit? { IntakeReconciles(s, ctx, m); }
    else if IsRefund(m) { RefundReconciles(s, ctx, m); }
    else if m.ReverseSwap? { ReverseSwapReconciles(s, ctx, m); }
    else if m.Withdraw? || m.WithdrawFees? || m.DeleteContract? { WithdrawalReconciles(s, ctx, m); }
    else if m.Mint? { MintReconciles(s, ctx, m.amount); }
    else if m.Burn? { BurnReconciles(s, ctx, m.amount); }
    else { OtherCallReconciles(s, ctx, m); }
  }

  lemma OutsideReconciles(s: State, a: Action)
    requires Inv(s) && !a.Call? && OutsideToken(s, a).Some?
    ensures Inv(OutsideToken(s, a).value.state) && Reconciles(s, OutsideToken(s, a).value)
  {
    var e := OutsideToken(s, a).value;
    match a {
      case Transfer(from, to, amount) => MoveConserves(s.token, from, to, amount);
      case MintOutside(to, amount) => IssueAdds(s.token, to, amount);
      case BurnOutside(from, amount) => RetireRemoves(s.token, from, amount);
    }
    TokenEventReconciles(s, e.log[0], e);
  }

  lemma StepReconciles(w: World, a: Action)
    requires Inv(w.state)
    ensures Inv(Next(w, a).state) && Reconciles(w.state, Step(w, a))
  {
    SumsOfShortLog(w.state.bridge, []);
    if Accepted(w, a) {
      CallReconciles(w.state, a.ctx, a.m);
    } else if !a.Call? && OutsideToken(w.state, a).Some? {
      OutsideReconciles(w.state, a);
    }
  }

  /** Deletion is final: nothing but the token can change afterwards. */
  lemma StepKeepsDeleted(w: World, a: Action)
    requires w.state.deleted
    ensures Next(w, a).state == w.state.(token := Next(w, a).state.token)
  {
  }

  // ---------- balance, fees, reconciliation ----------

  /** In every reachable state the balance covers the supply, and an observer who folds the logs knows
      both: the supply exactly, and the difference as fees charged + excess received - fees withdrawn. */
  lemma {:induction false} Reconciliation(w: World, acts: seq<Action>)
    requires Inv(w.state)
    ensures var s, s', logs := w.state, Run(w, acts).state, Logs(w, acts);
      && Inv(s') && s'.bridge == s.bridge
      && s'.supply == s.supply + Sum(SupplyChange(s.bridge), logs)
      && BridgeBalance(s') == BridgeBalance(s) + Sum(BalanceChange(s.bridge), logs)
      && (!s'.deleted ==>
            && !s.deleted && s'.supply <= BridgeBalance(s')
            && BridgeBalance(s') - s'.supply ==
               BridgeBalance(s) - s.supply
               + Sum(FeeCharged(), logs) + Sum(ExcessReceived(s.bridge), logs) - Sum(FeesTaken(), logs))
    decreases |acts|
  {
    if acts != [] {
      var b, log, rest := w.state.bridge, Step(w, acts[0]).log, Logs(Next(w, acts[0]), acts[1..]);
      StepReconciles(w, acts[0]);
      if w.state.deleted { StepKeepsDeleted(w, acts[0]); }
      Reconciliation(Next(w, acts[0]), acts[1..]);
      SumAppend(SupplyChange(b), log, rest);
      SumAppend(BalanceChange(b), log, rest);
      SumAppend(FeeCharged(), log, rest);
      SumAppend(ExcessReceived(b), log, rest);
      SumAppend(FeesTaken(), log, rest);
    }
  }

  lemma DeployEstablishesInv(bridge: Address, token: Ledger, ctx: Context, d: Deployment)
    requires token.Consistent() && token.total <= U256_MAX && bridge != ZERO_ADDRESS
    requires Deploy(bridge, token, ctx, d).Ok?
    ensures Inv(Deploy(bridge, token, ctx, d).value)
  {
  }

  lemma WithdrawFeesEffect(s: State, ctx: Context, target: Address)
    requires Inv(s) && !s.deleted && DoWithdrawFees(s, ctx, target).Ok?
    ensures var s' := DoWithdrawFees(s, ctx, target).value.state;
      && s'.supply == s.supply
      && BridgeBalance(s') == if target == s.bridge then BridgeBalance(s) else s.supply
  {
    MoveEffect(s, ctx, s.bridge, target, BridgeBalance(s) - s.supply);
  }

  /** `getFeesAccrued` never reverts, and withdrawing the fees to another account leaves exactly the
      supply behind; paying them to the bridge itself changes nothing. */
  lemma FeesWithdrawalLeavesSupply(w: World, acts: seq<Action>, ctx: Context, target: Address)
    requires Inv(w.state) && !Run(w, acts).state.deleted
    ensures var s := Run(w, acts).state; var r := DoWithdrawFees(s, ctx, target);
      && GetFeesAccrued(s) == Ok(BridgeBalance(s) - s.supply)
      && (r.Ok? && target != s.bridge ==> BridgeBalance(r.value.state) == r.value.state.supply == s.supply)
      && (r.Ok? && target == s.bridge ==> BridgeBalance(r.value.state) == BridgeBalance(s))
  {
    Reconciliation(w, acts);
    var s := Run(w, acts).state;
    if DoWithdrawFees(s, ctx, target).Ok? {
      WithdrawFeesEffect(s, ctx, target);
    }
  }

  // ---------- refunds ----------

  /** The full amount a refund consumed. */
  function RefundedBy(): Log -> int {
    (l: Log) => if l.SwapRefund? then l.refundedAmount + l.fee else 0
  }

  /** The full amount a refund or a reverse swap consumed. */
  function ReleasedBy(): Log -> int {
    (l: Log) =>
      match l
      case SwapRefund(_, _, refundedAmount, fee) => refundedAmount + fee
      case ReverseSwapLog(_, _, _, _, effectiveAmount, fee) => effectiveAmount + fee
      case _ => 0
  }

  predicate IsRefund(m: Method) {
    m.Refund? || m.RefundInFull?
  }

  lemma RefundEffect(s: State, ctx: Context, m: Method)
    requires IsRefund(m) && Execute(s, ctx, m).Ok?
    ensures var e := Execute(s, ctx, m).value;
      && m.id < s.nextSwapId == e.state.nextSwapId && RefundOf(s, m.id) == 0
      && e.state.refunds == s.refunds[m.id := m.amount]
      && e.state.allowance == s.allowance - m.amount
      && Sum(RefundedBy(), e.log) == Sum(ReleasedBy(), e.log) == m.amount
  {
    SumOfShortLog(RefundedBy(), Execute(s, ctx, m).value.log);
    SumOfShortLog(ReleasedBy(), Execute(s, ctx, m).value.log);
  }

  lemma ReverseSwapEffect(s: State, ctx: Context, m: Method)
    requires m.ReverseSwap? && Execute(s, ctx, m).Ok?
    ensures var e := Execute(s, ctx, m).value;
      && e.state.refunds == s.refunds && e.state.allowance == s.allowance - m.amount
      && Sum(RefundedBy(), e.log) == 0 && Sum(ReleasedBy(), e.log) == m.amount
  {
    SumOfShortLog(RefundedBy(), Execute(s, ctx, m).value.log);
    SumOfShortLog(ReleasedBy(), Execute(s, ctx, m).value.log);
  }

  /** Any other accepted call leaves the refunds alone, and the allowance unless it resets it. */
  lemma OtherEffect(s: State, ctx: Context, m: Method)
    requires !IsRefund(m) && !m.ReverseSwap? && Execute(s, ctx, m).Ok?
    ensures var e := Execute(s, ctx, m).value;
      && |e.log| <= 2
      && e.state.refunds == s.refunds && e.state.allowance == (if m.SetAllowance? then m.value else s.allowance)
      && (forall l :: l in e.log ==> !l.SwapRefund? && !l.ReverseSwapLog?)
  {
  }

  lemma SilentLog(log: seq<Log>)
    requires |log| <= 2 && forall l :: l in log ==> !l.SwapRefund? && !l.ReverseSwapLog?
    ensures Sum(RefundedBy(), log) == Sum(ReleasedBy(), log) == 0
  {
    SumOfShortLog(RefundedBy(), log);
    SumOfShortLog(ReleasedBy(), log);
  }

  predicate RefundAccepted(w: World, a: Action) {
    Accepted(w, a) && IsRefund(a.m)
  }

  /** An accepted refund writes its amount over a zero entry; nothing else touches the mapping. The
      allowance changes by what is released, or is reset. */
  lemma SettlementStep(w: World, a: Action)
    ensures var s, s', log := w.state, Next(w, a).state, Step(w, a).log;
      && (RefundAccepted(w, a) ==>
            && a.m.id < s.nextSwapId == s'.nextSwapId && RefundOf(s, a.m.id) == 0
            && s'.refunds == s.refunds[a.m.id := a.m.amount] && Sum(RefundedBy(), log) == a.m.amount)
      && (!RefundAccepted(w, a) ==> s'.refunds == s.refunds && Sum(RefundedBy(), log) == 0)
      && s'.allowance == s.allowance - Sum(ReleasedBy(), log) + ResetBy(w, a)
  {
    if Accepted(w, a) {
      if IsRefund(a.m) {
        RefundEffect(w.state, a.ctx, a.m);
      } else if a.m.ReverseSwap? {
        ReverseSwapEffect(w.state, a.ctx, a.m);
      } else {
        OtherEffect(w.state, a.ctx, a.m);
        SilentLog(Step(w, a).log);
      }
    } else {
      SilentLog(Step(w, a).log);
    }
  }

  /** The sum of the `refunds` mapping is the total of the accepted refunds. */
  lemma {:induction false} RefundsMappingSums(w: World, acts: seq<Action>)
    ensures MapSum(Run(w, acts).state.refunds) == MapSum(w.state.refunds) + Sum(RefundedBy(), Logs(w, acts))
    decreases |acts|
  {
    if acts != [] {
      var a := acts[0];
      SettlementStep(w, a);
      if RefundAccepted(w, a) { MapSumUpdate(w.state.refunds, a.m.id, a.m.amount); }
      RefundsMappingSums(Next(w, a), acts[1..]);
      SumAppend(RefundedBy(), Step(w, a).log, Logs(Next(w, a), acts[1..]));
    }
  }

  /** The ids of the accepted refunds of a positive amount. */
  function RefundIds(w: World, acts: seq<Action>): seq<u64>
    decreases |acts|
  {
    if acts == [] then []
    else (if RefundAccepted(w, acts[0]) && acts[0].m.amount > 0 then [acts[0].m.id] else [])
         + RefundIds(Next(w, acts[0]), acts[1..])
  }

  lemma PositiveRefundStays(w: World, acts: seq<Action>, id: u64)
    requires RefundOf(w.state, id) > 0
    ensures RefundOf(Run(w, acts).state, id) == RefundOf(w.state, id)
    decreases |acts|
  {
    if acts != [] {
      SettlementStep(w, acts[0]);
      PositiveRefundStays(Next(w, acts[0]), acts[1..], id);
    }
  }

  /** A swap is refunded a positive amount at most once over any run. */
  lemma {:induction false} RefundAtMostOnce(w: World, acts: seq<Action>)
    ensures Distinct(RefundIds(w, acts))
    ensures forall id :: id in RefundIds(w, acts) ==> RefundOf(w.state, id) == 0 < RefundOf(Run(w, acts).state, id)
    decreases |acts|
  {
    if acts != [] {
      var a, v := acts[0], Next(w, acts[0]);
      var rest := RefundIds(v, acts[1..]);
      SettlementStep(w, a);
      RefundAtMostOnce(v, acts[1..]);
      if RefundAccepted(w, a) && a.m.amount > 0 {
        PositiveRefundStays(v, acts[1..], a.m.id);
        DistinctCons(a.m.id, rest);
        assert RefundIds(w, acts) == [a.m.id] + rest;
      } else {
        assert RefundIds(w, acts) == rest;
      }
    }
  }

  /** An entry stays zero while no positive refund names the id. */
  lemma {:induction false} UnrefundedStaysZero(w: World, acts: seq<Action>, id: u64)
    requires RefundOf(w.state, id) == 0 && id !in RefundIds(w, acts)
    ensures RefundOf(Run(w, acts).state, id) == 0
    decreases |acts|
  {
    if acts != [] {
      SettlementStep(w, acts[0]);
      UnrefundedStaysZero(Next(w, acts[0]), acts[1..], id);
    }
  }

  /** After any run an id is open for a refund if and only if it is issued, it was not refunded before, and
      every refund of it in the run was for zero. */
  lemma RefundOpenExactlyWhen(w: World, acts: seq<Action>, id: u64)
    ensures VerifyRefundSwapId(Run(w, acts).state, id).Pass? <==>
            && id < Run(w, acts).state.nextSwapId
            && RefundOf(w.state, id) == 0 && id !in RefundIds(w, acts)
  {
    RefundAtMostOnce(w, acts);
    if RefundOf(w.state, id) > 0 {
      PositiveRefundStays(w, acts, id);
    } else if id !in RefundIds(w, acts) {
      UnrefundedStaysZero(w, acts, id);
    }
  }

  /** A second refund of the id is open if and only if the first was for zero. */
  lemma RefundReopensExactlyForZero(w: World, a: Action)
    requires RefundAccepted(w, a)
    ensures VerifyRefundSwapId(Next(w, a).state, a.m.id).Pass? <==> a.m.amount == 0
  {
    SettlementStep(w, a);
  }

  /** A refund of zero is accepted from anyone who may refund the id, `refundInFull` also needing the token's
      consent. It is logged, it changes nothing but the mapping entry, which still reads zero, and the same
      call is accepted again, with the same log and no further change. */
  lemma ZeroRefundIsAcceptedAgain(w: World, a: Action)
    requires a.Call? && IsRefund(a.m) && a.m.amount == 0
    requires w.block <= a.ctx.block && a.ctx.sender != w.state.bridge && !w.state.deleted
    requires w.state.bridge != ZERO_ADDRESS
    ensures var s, m := w.state, a.m;
      Accepted(w, a) <==>
        && RelayerGuards(s, a.ctx, 0, m.relayEon).Pass? && VerifyRefundSwapId(s, m.id).Pass?
        && (m.RefundInFull? ==> a.ctx.tokenAccepts && m.to != ZERO_ADDRESS)
    ensures var s, m, v := w.state, a.m, Next(w, a);
      Accepted(w, a) ==>
        && v.state == s.(refunds := s.refunds[m.id := 0])
        && Step(w, a).log == (if m.RefundInFull? then [TokenTransfer(s.bridge, m.to, 0)] else [])
                             + [SwapRefund(m.id, m.to, 0, 0)]
        && Accepted(v, a) && Next(v, a) == v && Step(v, a).log == Step(w, a).log
  {
  }

  // ---------- reverse swaps ----------

  /** Nothing in the contract makes a reverse swap final: the same call is accepted once more if and only if
      what is left of the allowance and of the supply covers its amount again. */
  lemma RepeatedReverseSwapAccepted(w: World, a: Action)
    requires Inv(w.state) && Accepted(w, a) && a.m.ReverseSwap?
    ensures var s' := Next(w, a).state;
      Accepted(Next(w, a), a) <==> a.m.amount <= s'.allowance && a.m.amount <= s'.supply
  {
    StepReconciles(w, a);
    if a.m.amount > w.state.swapFee {
      MoveEffect(w.state, a.ctx, w.state.bridge, a.m.to, a.m.amount - w.state.swapFee);
    }
  }

  // ---------- aggregate allowance ----------

  /** What an accepted reset adds to the allowance: the new value minus the one it replaces. */
  function ResetBy(w: World, a: Action): int {
    if Accepted(w, a) && a.m.SetAllowance? then a.m.value - w.state.allowance else 0
  }

  function ResetGain(w: World, acts: seq<Action>): int
    decreases |acts|
  {
    if acts == [] then 0 else ResetBy(w, acts[0]) + ResetGain(Next(w, acts[0]), acts[1..])
  }

  /** Total settled by refunds and reverse swaps = initial allowance + resets - final allowance. */
  lemma {:induction false} AllowanceAccounting(w: World, acts: seq<Action>)
    ensures Sum(ReleasedBy(), Logs(w, acts)) == w.state.allowance + ResetGain(w, acts) - Run(w, acts).state.allowance
    decreases |acts|
  {
    if acts != [] {
      SettlementStep(w, acts[0]);
      AllowanceAccounting(Next(w, acts[0]), acts[1..]);
      SumAppend(ReleasedBy(), Step(w, acts[0]).log, Logs(Next(w, acts[0]), acts[1..]));
    }
  }

  /** What a sender without the admin role cannot do. */
  lemma WithoutAdmin(s: State, ctx: Context, m: Method)
    requires Execute(s, ctx, m).Ok? && !HasRole(s, ctx.sender, Admin)
    ensures var s' := Execute(s, ctx, m).value.state;
      && s'.approverCap == s.approverCap
      && (m.SetAllowance? ==> m.value <= s.approverCap)
      && (s'.pausedSincePublic != s.pausedSincePublic ==> s'.pausedSincePublic == ctx.block)
      && (s'.pausedSinceRelayer != s.pausedSinceRelayer ==> s'.pausedSinceRelayer == ctx.block)
      && (s.pausedSincePublic <= ctx.block && s.pausedSinceRelayer <= ctx.block ==> SameAccounts(s, s'))
  {
  }

  /** No call in the run is sent by an account that is an admin at that moment. */
  predicate NoAdminSent(w: World, acts: seq<Action>)
    decreases |acts|
  {
    acts == [] || (!AdminSent(w, acts[0]) && NoAdminSent(Next(w, acts[0]), acts[1..]))
  }

  predicate AdminSent(w: World, a: Action) {
    a.Call? && HasRole(w.state, a.ctx.sender, Admin)
  }

  predicate Resets(w: World, a: Action) {
    Accepted(w, a) && a.m.SetAllowance?
  }

  function ResetCount(w: World, acts: seq<Action>): nat
    decreases |acts|
  {
    if acts == [] then 0 else (if Resets(w, acts[0]) then 1 else 0) + ResetCount(Next(w, acts[0]), acts[1..])
  }

  lemma ApproverReset(w: World, a: Action)
    requires !AdminSent(w, a)
    ensures Next(w, a).state.approverCap == w.state.approverCap
    ensures ResetBy(w, a) <= if Resets(w, a) then w.state.approverCap else 0
  {
    if Accepted(w, a) { WithoutAdmin(w.state, a.ctx, a.m); }
  }

  lemma {:induction false} ResetGainBound(w: World, acts: seq<Action>)
    requires NoAdminSent(w, acts)
    ensures ResetGain(w, acts) <= Times(ResetCount(w, acts), w.state.approverCap)
    decreases |acts|
  {
    if acts != [] {
      ApproverReset(w, acts[0]);
      ResetGainBound(Next(w, acts[0]), acts[1..]);
    }
  }

  /** Without admins n resets release at most n times the approver's cap beyond the initial allowance. */
  lemma AllowanceBound(w: World, acts: seq<Action>)
    requires NoAdminSent(w, acts)
    ensures Sum(ReleasedBy(), Logs(w, acts)) <= w.state.allowance + ResetCount(w, acts) * w.state.approverCap
  {
    AllowanceAccounting(w, acts);
    ResetGainBound(w, acts);
    TimesIsProduct(ResetCount(w, acts), w.state.approverCap);
  }

  // ---------- relay eons ----------

  function StartsEon(w: World, a: Action): nat {
    if Accepted(w, a) && a.m.NewRelayEon? then 1 else 0
  }

  function EonsStarted(w: World, acts: seq<Action>): nat
    decreases |acts|
  {
    if acts == [] then 0 else StartsEon(w, acts[0]) + EonsStarted(Next(w, acts[0]), acts[1..])
  }

  lemma ParametersEffect(s: State, ctx: Context, m: Method)
    requires Execute(s, ctx, m).Ok?
    ensures var s' := Execute(s, ctx, m).value.state;
      && s'.relayEon == (if m.NewRelayEon? then Increment64(s.relayEon) else s.relayEon)
      && (s'.supply <= s.supply || (s'.supply <= s.cap && s'.cap == s.cap))
  {
  }

  lemma EonStep(w: World, a: Action)
    ensures Next(w, a).state.relayEon ==
            if StartsEon(w, a) == 1 then Increment64(w.state.relayEon) else w.state.relayEon
  {
    if Accepted(w, a) { ParametersEffect(w.state, a.ctx, a.m); }
  }

  /** The eon after n increments. */
  function EonAfter(eon: u64, n: nat): u64
    decreases n
  {
    if n == 0 then eon else EonAfter(Increment64(eon), n - 1)
  }

  lemma {:induction false} EonAfterIsModular(eon: u64, n: nat)
    ensures EonAfter(eon, n) == (eon + n) % U64_MODULUS
    decreases n
  {
    if n > 0 {
      EonAfterIsModular(Increment64(eon), n - 1);
    }
  }

  lemma {:induction false} EonIncrements(w: World, acts: seq<Action>)
    ensures Run(w, acts).state.relayEon == EonAfter(w.state.relayEon, EonsStarted(w, acts))
    decreases |acts|
  {
    if acts != [] {
      EonStep(w, acts[0]);
      EonIncrements(Next(w, acts[0]), acts[1..]);
    }
  }

  /** The eon counts modulo 2^64. */
  lemma EonCounts(w: World, acts: seq<Action>)
    ensures Run(w, acts).state.relayEon == (w.state.relayEon + EonsStarted(w, acts)) % U64_MODULUS
  {
    EonIncrements(w, acts);
    EonAfterIsModular(w.state.relayEon, EonsStarted(w, acts));
  }

  /** From deployment, after k accepted calls the eon is k - 1 modulo 2^64: the first call gives zero. */
  lemma EonAfterDeployment(bridge: Address, token: Ledger, ctx: Context, d: Deployment, acts: seq<Action>)
    requires Deploy(bridge, token, ctx, d).Ok?
    ensures var w := World(Deploy(bridge, token, ctx, d).value, ctx.block);
      Run(w, acts).state.relayEon == (EonsStarted(w, acts) + U64_MODULUS - 1) % U64_MODULUS
  {
    EonCounts(World(Deploy(bridge, token, ctx, d).value, ctx.block), acts);
  }

  function TagOf(m: Method): Option<u64> {
    match m
    case Refund(_, _, _, relayEon) => Some(relayEon)
    case RefundInFull(_, _, _, relayEon) => Some(relayEon)
    case ReverseSwap(_, _, _, _, _, relayEon) => Some(relayEon)
    case _ => None
  }

  lemma SameModuloExactly(x: int, n: nat)
    requires 0 <= x < U64_MODULUS
    ensures (x + n) % U64_MODULUS == x <==> n % U64_MODULUS == 0
  {
  }

  /** The tag of an earlier eon is current again if and only if a multiple of 2^64 eons has been started since;
      until then every relayer transaction that carries it is rejected. */
  lemma StaleTagRejected(w: World, acts: seq<Action>, a: Action)
    requires a.Call? && TagOf(a.m) == Some(w.state.relayEon)
    ensures TagOf(a.m) == Some(Run(w, acts).state.relayEon) <==> EonsStarted(w, acts) % U64_MODULUS == 0
    ensures EonsStarted(w, acts) % U64_MODULUS != 0 ==> !Accepted(Run(w, acts), a)
  {
    EonCounts(w, acts);
    SameModuloExactly(w.state.relayEon, EonsStarted(w, acts));
  }

  // ---------- pausing and the cap ----------

  predicate PublicPaused(w: World) {
    w.state.pausedSincePublic <= w.block
  }

  predicate RelayerPaused(w: World) {
    w.state.pausedSinceRelayer <= w.block
  }

  predicate SameAccounts(s: State, s': State) {
    s'.supply == s.supply && s'.nextSwapId == s.nextSwapId && s'.relayEon == s.relayEon && s'.refunds == s.refunds
  }

  lemma PauseStep(w: World, a: Action)
    requires !AdminSent(w, a)
    ensures PublicPaused(w) ==> PublicPaused(Next(w, a))
    ensures RelayerPaused(w) ==> RelayerPaused(Next(w, a))
    ensures PublicPaused(w) && RelayerPaused(w) ==> SameAccounts(w.state, Next(w, a).state)
  {
    if Accepted(w, a) { WithoutAdmin(w.state, a.ctx, a.m); }
  }

  /** A paused API stays paused for as long as no admin acts, and with both paused the accounts are frozen. */
  lemma {:induction false} PauseAbsorbs(w: World, acts: seq<Action>)
    requires NoAdminSent(w, acts)
    ensures PublicPaused(w) ==> PublicPaused(Run(w, acts))
    ensures RelayerPaused(w) ==> RelayerPaused(Run(w, acts))
    ensures PublicPaused(w) && RelayerPaused(w) ==> SameAccounts(w.state, Run(w, acts).state)
    decreases |acts|
  {
    if acts != [] {
      PauseStep(w, acts[0]);
      PauseAbsorbs(Next(w, acts[0]), acts[1..]);
    }
  }

  function LargestCap(w: World, acts: seq<Action>): nat
    decreases |acts|
  {
    if acts == [] then w.state.cap else Max(w.state.cap, LargestCap(Next(w, acts[0]), acts[1..]))
  }

  lemma CapStep(w: World, a: Action)
    ensures Next(w, a).state.supply <= Max(w.state.supply, w.state.cap)
    ensures w.state.supply < Next(w, a).state.supply ==> Next(w, a).state.cap == w.state.cap
  {
    if Accepted(w, a) { ParametersEffect(w.state, a.ctx, a.m); }
  }

  /** The supply never passes the largest cap there has been. */
  lemma {:induction false} CapBound(w: World, acts: seq<Action>)
    ensures Run(w, acts).state.supply <= Max(w.state.supply, LargestCap(w, acts))
    decreases |acts|
  {
    if acts != [] {
      CapStep(w, acts[0]);
      CapBound(Next(w, acts[0]), acts[1..]);
    }
  }
}
