/** The two ends of `Bridge.sol`: what a deployment with given parameters means for the calls that follow, and
    when and how the contract can be deleted. */
module EthLifecycle {
  import opened Types
  import opened Ledgers
  import opened EthSpec
  import opened EthRuns
  import opened EthAcceptance
  import EthReplay

  // ---------- deployment ----------

  /** A deployment succeeds if and only if the protection period ends at a block number and the limits are
      ordered; the period is looked at first. */
  lemma DeploysExactlyWhen(bridge: Address, token: Ledger, ctx: Context, d: Deployment)
    ensures var r := Deploy(bridge, token, ctx, d);
      && (r.Ok? <==> ctx.block + d.deleteProtectionPeriod <= U256_MAX && d.swapFee <= d.swapMin <= d.swapMax)
      && (r == Err(Overflow) <==> ctx.block + d.deleteProtectionPeriod > U256_MAX)
      && (r.Err? && r.error != Overflow ==> r.error == LimitsInconsistent)
  {
  }

  /** A world just deployed with these parameters, over a consistent ledger. */
  ghost predicate DeployedWith(w: World, bridge: Address, token: Ledger, ctx: Context, d: Deployment) {
    && Deploy(bridge, token, ctx, d) == Ok(w.state) && w.block == ctx.block
    && bridge != ZERO_ADDRESS && token.Consistent() && token.total <= U256_MAX
  }

  /** The public API is closed from the one block on, the relayer API from the other, from the deployment at the
      earliest. */
  lemma DeployedPauses(w: World, bridge: Address, token: Ledger, ctx: Context, d: Deployment, block: nat)
    requires DeployedWith(w, bridge, token, ctx, d) && ctx.block <= block
    ensures PublicPaused(World(w.state, block)) <==> d.pausedSincePublic <= block
    ensures RelayerPaused(World(w.state, block)) <==> d.pausedSinceRelayer <= block
  {
  }

  /** The call can be sent at all. */
  predicate Sendable(w: World, ctx: Context) {
    w.block <= ctx.block && ctx.sender != w.state.bridge
  }

  /** The first swap: within the limits and the cap of the deployment, before the public pause. */
  lemma FirstSwap(w: World, bridge: Address, token: Ledger, ctx: Context, d: Deployment,
                  ctx': Context, amount: u256, destination: string)
    requires DeployedWith(w, bridge, token, ctx, d) && Sendable(w, ctx')
    ensures Accepted(w, Call(ctx', Swap(amount, destination))) <==>
              && ctx'.block < d.pausedSincePublic && d.swapMin <= amount <= d.swapMax && amount <= d.cap
              && ctx'.tokenAccepts && ctx'.sender != ZERO_ADDRESS && amount <= token.Balance(ctx'.sender)
  {
    DeployEstablishesInv(bridge, token, ctx, d);
    AcceptedExactlyWhen(w, ctx', Swap(amount, destination));
  }

  /** Of the other calls that need a role, the deployer's are the only ones that can be accepted, and it is an
      admin only: nobody can relay, and what needs some supply waits for it. */
  lemma FirstCallsAreTheDeployers(w: World, bridge: Address, token: Ledger, ctx: Context, d: Deployment,
                                  ctx': Context, m: Method)
    requires DeployedWith(w, bridge, token, ctx, d)
    requires !m.Swap? && !m.RenounceRole? && Accepted(w, Call(ctx', m))
    ensures ctx'.sender == ctx.sender && !IsSettlement(m) && !m.NewRelayEon?
    ensures m.Withdraw? || m.Burn? ==> m.amount == 0
    ensures m.DeleteContract? ==> ctx.block + d.deleteProtectionPeriod <= ctx'.block
  {
    DeployEstablishesInv(bridge, token, ctx, d);
    AcceptedExactlyWhen(w, ctx', m);
  }

  lemma GrantEffect(w: World, ctx: Context, role: AccessRole, account: Address)
    requires Inv(w.state) && Deliverable(w, ctx) && HasRole(w.state, ctx.sender, Admin)
    ensures var v := Next(w, Call(ctx, GrantRole(role, account)));
      v.block == ctx.block && v.state == w.state.(roles := w.state.roles + {(account, role)}) && Inv(v.state)
  {
    StepReconciles(w, Call(ctx, GrantRole(role, account)));
  }

  /** The deployer appoints an approver, who can then set the allowance up to the approver cap of the deployment. */
  lemma FirstApproval(w: World, bridge: Address, token: Ledger, ctx: Context, d: Deployment,
                      grant: Context, ctx': Context, value: u256)
    requires DeployedWith(w, bridge, token, ctx, d)
    requires Sendable(w, grant) && grant.sender == ctx.sender != ctx'.sender
    requires Sendable(w, ctx') && grant.block <= ctx'.block
    ensures var w' := Next(w, Call(grant, GrantRole(Approver, ctx'.sender)));
      Accepted(w', Call(ctx', SetAllowance(value))) <==> value <= d.approverCap
  {
    DeployEstablishesInv(bridge, token, ctx, d);
    GrantEffect(w, grant, Approver, ctx'.sender);
    AcceptedExactlyWhen(Next(w, Call(grant, GrantRole(Approver, ctx'.sender))), ctx', SetAllowance(value));
  }

  /** The deployer provides a supply and appoints a relayer. */
  function Prepared(w: World, ctx: Context, supply: u256, relayer: Address): World {
    Next(Next(w, Call(ctx, Deposit(supply))), Call(ctx, GrantRole(Relayer, relayer)))
  }

  lemma PreparedState(w: World, ctx: Context, supply: u256, relayer: Address)
    requires Inv(w.state) && Accepted(w, Call(ctx, Deposit(supply)))
    ensures var s, v := w.state, Prepared(w, ctx, supply, relayer);
      && Inv(v.state) && v.block == ctx.block
      && v.state == s.(supply := s.supply + supply, token := v.state.token, roles := s.roles + {(relayer, Relayer)})
  {
    AcceptedExactlyWhen(w, ctx, Deposit(supply));
    StepReconciles(w, Call(ctx, Deposit(supply)));
    GrantEffect(Next(w, Call(ctx, Deposit(supply))), ctx, Relayer, relayer);
  }

  /** Then the first reverse swap is accepted up to the supply, the limit and the allowance of the deployment,
      before the relayer pause and under the largest eon, and the deployment's fee is charged. */
  lemma FirstReverseSwap(w: World, bridge: Address, token: Ledger, ctx: Context, d: Deployment,
                         admin: Context, supply: u256, ctx': Context, m: Method)
    requires DeployedWith(w, bridge, token, ctx, d)
    requires admin.sender == ctx.sender && Accepted(w, Call(admin, Deposit(supply)))
    requires m.ReverseSwap? && Sendable(w, ctx') && admin.block <= ctx'.block
    ensures var v := Prepared(w, admin, supply, ctx'.sender);
      Accepted(v, Call(ctx', m)) <==>
        && ctx'.block < d.pausedSinceRelayer && m.relayEon == U64_MAX
        && m.amount <= supply && m.amount <= d.swapMax && m.amount <= d.allowance
        && (m.amount > d.swapFee ==> ctx'.tokenAccepts && m.to != ZERO_ADDRESS)
    ensures var v, fee := Prepared(w, admin, supply, ctx'.sender), if d.swapFee < m.amount then d.swapFee else m.amount;
      Accepted(v, Call(ctx', m)) ==>
        ReverseSwapLog(m.rid, m.to, m.from, m.originTxHash, m.amount - fee, fee) in Step(v, Call(ctx', m)).log
  {
    var v := Prepared(w, admin, supply, ctx'.sender);
    DeployEstablishesInv(bridge, token, ctx, d);
    PreparedState(w, admin, supply, ctx'.sender);
    AcceptedExactlyWhen(v, ctx', m);
    if Accepted(v, Call(ctx', m)) { EthReplay.CallReported(v.state, ctx', m); }
  }

  /** The deployment parameters and the logs are all an observer needs, of the contract and of the token. */
  lemma HistoryReplays(w: World, bridge: Address, token: Ledger, ctx: Context, d: Deployment, acts: seq<Action>)
    requires DeployedWith(w, bridge, token, ctx, d)
    ensures EthReplay.ReplayAll(Deploy(bridge, token, ctx, d).value, Logs(w, acts)) == Some(Run(w, acts).state)
    ensures var ids := EthReplay.SwapIds(Logs(w, acts));
      EthReplay.CountsUp(ids, 0) && Run(w, acts).state.nextSwapId == EthReplay.IdAfter(0, |ids|)
  {
    EthReplay.RunReplays(w, acts);
    EthReplay.SwapIdsCountUp(w, acts);
  }

  // ---------- deletion ----------

  lemma CallKeepsEarliestDelete(s: State, ctx: Context, m: Method)
    requires Execute(s, ctx, m).Ok?
    ensures var s' := Execute(s, ctx, m).value.state;
      && s'.earliestDelete == s.earliestDelete
      && s'.deleted == (s.deleted || m.DeleteContract?)
      && (m.DeleteContract? ==> s.earliestDelete <= ctx.block)
  {
  }

  /** Every call of the run comes before the block. */
  predicate AllBefore(acts: seq<Action>, block: nat) {
    forall a :: a in acts ==> a.Call? ==> a.ctx.block < block
  }

  lemma {:induction false} LivesUntilEarliestDelete(w: World, acts: seq<Action>)
    requires !w.state.deleted && AllBefore(acts, w.state.earliestDelete)
    ensures var s' := Run(w, acts).state; !s'.deleted && s'.earliestDelete == w.state.earliestDelete
    decreases |acts|
  {
    if acts != [] {
      var a := acts[0];
      assert a in acts && forall b :: b in acts[1..] ==> b in acts;
      if Accepted(w, a) { CallKeepsEarliestDelete(w.state, a.ctx, a.m); }
      LivesUntilEarliestDelete(Next(w, a), acts[1..]);
    }
  }

  /** Nobody can delete the contract while the protection period of its deployment lasts. */
  lemma ProtectedFromDeletion(w: World, bridge: Address, token: Ledger, ctx: Context, d: Deployment, acts: seq<Action>)
    requires DeployedWith(w, bridge, token, ctx, d)
    requires AllBefore(acts, ctx.block + d.deleteProtectionPeriod)
    ensures !Run(w, acts).state.deleted
  {
    LivesUntilEarliestDelete(w, acts);
  }

  /** A deletion is accepted if and only if an admin asks for it in time, for another account that the token
      pays; that account then holds the whole balance, and the bridge nothing. */
  lemma DeletesExactlyWhen(w: World, ctx: Context, target: Address)
    requires Inv(w.state)
    ensures var s, call := w.state, Call(ctx, DeleteContract(target));
      Accepted(w, call) <==>
        && Deliverable(w, ctx) && HasRole(s, ctx.sender, Admin) && s.earliestDelete <= ctx.block
        && target != s.bridge && target != ZERO_ADDRESS && ctx.tokenAccepts
    ensures var s, call := w.state, Call(ctx, DeleteContract(target)); var s' := Next(w, call).state;
      Accepted(w, call) ==>
        && s' == s.(deleted := true, token := s'.token) && s'.token.total == s.token.total
        && BridgeBalance(s') == 0 && s'.token.Balance(target) == s.token.Balance(target) + BridgeBalance(s)
        && (forall a :: a != s.bridge && a != target ==> s'.token.Balance(a) == s.token.Balance(a))
  {
    var s, call := w.state, Call(ctx, DeleteContract(target));
    AcceptedExactlyWhen(w, ctx, call.m);
    if Accepted(w, call) { MoveConserves(s.token, s.bridge, target, BridgeBalance(s)); }
  }
}
