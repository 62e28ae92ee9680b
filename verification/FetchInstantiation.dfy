/** What an instantiation of the CosmWasm contract means: when it succeeds, where the attached funds go, and what
    the parameters say about the calls that follow. */
module FetchInstantiation {
  import opened Types
  import opened Ledgers
  import opened FetchSpec
  import opened FetchSolvency
  import opened FetchAcceptance
  import FetchReplay
  import Keys

  function DenomOf(msg: InstantiateMsg): string {
    match msg.denom
    case Some(denom) => denom
    case None => "afet"
  }

  /** A world just instantiated from these inputs, on a consistent ledger. */
  ghost predicate InstantiatedWith(w: World, bank: Ledger, contract: Address, env: Env, info: Info,
                                   msg: InstantiateMsg)
  {
    bank.Consistent() && InstantiateWorld(bank, contract, env, info, msg) == Ok(w)
  }

  /** Succeeds if and only if the limits are ordered, with the fee below the minimum, the sender's name is not too
      long, and the sender owns what is attached. */
  lemma InstantiatesExactlyWhen(bank: Ledger, contract: Address, env: Env, info: Info, msg: InstantiateMsg)
    ensures var r := InstantiateWorld(bank, contract, env, info, msg);
      var ordered := msg.swapFee < msg.lowerSwapLimit <= msg.upperSwapLimit;
      && (r.Ok? <==>
            && ordered && |info.sender| <= NAMESPACE_MAX && info.sender != contract
            && Attached(info.funds, DenomOf(msg)) <= bank.Balance(info.sender))
      && (r == Err(LimitsInconsistent) <==> !ordered)
      && (ordered ==> (r == Err(Panicked(NamespaceTooLong)) <==> |info.sender| > NAMESPACE_MAX))
      && (ordered && |info.sender| <= NAMESPACE_MAX && r.Err? ==>
            r == Err(if info.sender == contract then OwnMessage else InsufficientFunds))
  {
  }

  /** The first coin of the denomination becomes the supply, and without one the supply is zero; there are no fees. */
  lemma FirstCoinIsSupply(w: World, bank: Ledger, contract: Address, env: Env, info: Info, msg: InstantiateMsg, i: nat)
    requires InstantiatedWith(w, bank, contract, env, info, msg)
    ensures w.store.config.denom == DenomOf(msg) && w.store.config.feesAccrued == 0
    ensures i < |info.funds| && info.funds[i].denom == DenomOf(msg)
            && (forall j :: 0 <= j < i ==> info.funds[j].denom != DenomOf(msg)) ==>
              w.store.config.supply == info.funds[i].amount
    ensures (forall j :: 0 <= j < |info.funds| ==> info.funds[j].denom != DenomOf(msg)) ==>
              w.store.config.supply == 0
  {
    FirstCoin(info.funds, DenomOf(msg), i);
    AmountFromFundsBounded(info.funds, DenomOf(msg));
  }

  lemma {:induction false} FirstCoin(funds: seq<Coin>, denom: string, i: nat)
    ensures i < |funds| && funds[i].denom == denom && (forall j :: 0 <= j < i ==> funds[j].denom != denom) ==>
              AmountFromFunds(funds, denom) == Ok(funds[i].amount)
    decreases i
  {
    if i > 0 && i < |funds| && funds[i].denom == denom && forall j :: 0 <= j < i ==> funds[j].denom != denom {
      assert funds[0].denom != denom;
      assert forall j :: 0 <= j < i - 1 ==> funds[1..][j] == funds[j + 1];
      FirstCoin(funds[1..], denom, i - 1);
    }
  }

  /** With one coin per denomination all that is attached becomes supply, and what the account held before is the
      excess. */
  lemma AttachedFundsAreSupply(w: World, bank: Ledger, contract: Address, env: Env, info: Info, msg: InstantiateMsg)
    requires InstantiatedWith(w, bank, contract, env, info, msg)
    requires forall i, j :: 0 <= i < j < |info.funds| ==> info.funds[i].denom != info.funds[j].denom
    ensures w.store.config.supply == Attached(info.funds, DenomOf(msg))
    ensures Excess(w) == bank.Balance(contract)
  {
    AmountFromFundsExact(info.funds, DenomOf(msg));
    AmountFromFundsBounded(info.funds, DenomOf(msg));
    MoveConserves(bank, info.sender, contract, Attached(info.funds, DenomOf(msg)));
  }

  /** The block from which a new contract is paused; without one both APIs are open until the last block. */
  function PauseOf(msg: InstantiateMsg): u64 {
    match msg.pausedSinceBlock
    case Some(block) => block
    case None => U64_MAX
  }

  /** Both APIs are closed from that block on, from now at the earliest. */
  lemma InstantiatedPauses(w: World, bank: Ledger, contract: Address, env: Env, info: Info, msg: InstantiateMsg,
                           height: nat)
    requires InstantiatedWith(w, bank, contract, env, info, msg) && env.height <= height
    ensures w.store.config.pausedSincePublic <= height <==> PauseOf(msg) <= height
    ensures w.store.config.pausedSinceRelayer <= height <==> PauseOf(msg) <= height
  {
  }

  /** The first swap: within the limits and the cap of the instantiation, before the pause, and under its first id. */
  lemma FirstSwap(w: World, bank: Ledger, contract: Address, env: Env, info: Info, msg: InstantiateMsg,
                  env': Env, sender: Address, amount: u128, destination: string)
    requires InstantiatedWith(w, bank, contract, env, info, msg)
    requires env.height <= env'.height && sender != contract
    ensures var a := Call(env', Info(sender, [Coin(DenomOf(msg), amount)]), Swap(destination));
      && (Accepted(w, a) <==>
            && env'.height < PauseOf(msg) && msg.lowerSwapLimit <= amount <= msg.upperSwapLimit
            && w.store.config.supply + amount <= msg.cap && msg.nextSwapId < U64_MAX
            && amount <= w.bank.Balance(sender))
      && (Accepted(w, a) ==> EventOf(w, a) == Swapped(destination, msg.nextSwapId, amount))
  {
    var info' := Info(sender, [Coin(DenomOf(msg), amount)]);
    InstantiateEstablishesInv(bank, contract, env, info, msg);
    assert info'.funds[1..] == [] && Attached(info'.funds, DenomOf(msg)) == amount;
    assert AmountFromFunds(info'.funds, DenomOf(msg)) == Ok(amount);
    DeliveredExactlyWhen(w, env', info', Swap(destination));
    if Accepted(w, Call(env', info', Swap(destination))) {
      AcceptedStep(w, Call(env', info', Swap(destination)));
      FetchReplay.HandlerReported(w.store, env', info', Swap(destination));
    }
  }

  lemma GrantEffect(w: World, env: Env, info: Info, role: AccessRole, account: Address)
    requires Inv(w) && HasRole(w.store, info.sender, Admin) && |info.sender| <= NAMESPACE_MAX
    requires w.height <= env.height && info.sender != w.store.config.contractAddr && info.funds == []
    requires |account| <= NAMESPACE_MAX && !HasRole(w.store, account, role)
    ensures var grant := Call(env, info, GrantRole(Keys.RoleName(role), account));
      Accepted(w, grant) && Inv(Next(w, grant)) && Next(w, grant).height == env.height && Next(w, grant).bank == w.bank
      && Next(w, grant).store == w.store.(roles := w.store.roles + {(account, role)})
  {
    Keys.RoleNameRoundTrip(Keys.RoleName(role), role);
    NextKeepsInv(w, Call(env, info, GrantRole(Keys.RoleName(role), account)));
  }

  /** The deployer appoints an approver, who can then set the allowance up to the approver cap. */
  lemma FirstApproval(w: World, bank: Ledger, contract: Address, env: Env, info: Info, msg: InstantiateMsg,
                      grant: Env, env': Env, approver: Address, amount: u128)
    requires InstantiatedWith(w, bank, contract, env, info, msg)
    requires env.height <= grant.height <= env'.height && approver != info.sender && approver != contract
    requires |approver| <= NAMESPACE_MAX
    ensures var w' := Next(w, Call(grant, Info(info.sender, []), GrantRole(Keys.RoleName(Approver), approver)));
      Accepted(w', Call(env', Info(approver, []), SetAllowance(amount))) <==> amount <= msg.approverCap
  {
    InstantiateEstablishesInv(bank, contract, env, info, msg);
    GrantEffect(w, grant, Info(info.sender, []), Approver, approver);
    DeliveredExactlyWhen(Next(w, Call(grant, Info(info.sender, []), GrantRole(Keys.RoleName(Approver), approver))),
                         env', Info(approver, []), SetAllowance(amount));
  }

  /** The deployer appoints a relayer, whose first reverse swap is accepted up to the supply and the allowance,
      before the pause and in eon zero; the fee of the instantiation is charged. */
  lemma FirstReverseSwap(w: World, bank: Ledger, contract: Address, env: Env, info: Info, msg: InstantiateMsg,
                         grant: Env, env': Env, relayer: Address, m: ExecuteMsg)
    requires InstantiatedWith(w, bank, contract, env, info, msg)
    requires env.height <= grant.height <= env'.height && relayer != contract && |relayer| <= NAMESPACE_MAX
    requires m.ReverseSwap?
    ensures var v := Next(w, Call(grant, Info(info.sender, []), GrantRole(Keys.RoleName(Relayer), relayer)));
      var a, fee := Call(env', Info(relayer, []), m), Min(msg.swapFee, m.amount);
      && (Accepted(v, a) <==>
            && env'.height < PauseOf(msg) && m.relayEon == 0
            && m.amount <= w.store.config.supply && m.amount <= msg.allowance
            && (m.amount > msg.swapFee ==> env'.resolved.Some? && env'.bankAccepts))
      && (Accepted(v, a) ==> EventOf(v, a).ReverseSwapped? && EventOf(v, a).swapFee == fee)
  {
    var v := Next(w, Call(grant, Info(info.sender, []), GrantRole(Keys.RoleName(Relayer), relayer)));
    var a := Call(env', Info(relayer, []), m);
    InstantiateEstablishesInv(bank, contract, env, info, msg);
    GrantEffect(w, grant, Info(info.sender, []), Relayer, relayer);
    DeliveredExactlyWhen(v, env', a.info, m);
    if Accepted(v, a) {
      AcceptedStep(v, a);
      FetchReplay.HandlerReported(v.store, env', a.info, m);
    }
  }
}
