/** What the CosmWasm contract owes, what it holds, and why it can always pay. */
module FetchSolvency {
  import opened Types
  import opened Ledgers
  import opened FetchSpec

  // ---------- the attached funds ----------

  /** The handler never counts more than what arrived, and it fails only when nothing of the
      denomination is in the list. */
  lemma {:induction false} AmountFromFundsBounded(funds: seq<Coin>, denom: string)
    ensures AmountFromFunds(funds, denom).Ok? <==> exists i :: 0 <= i < |funds| && funds[i].denom == denom
    ensures var r := AmountFromFunds(funds, denom);
      if r.Ok? then r.value <= Attached(funds, denom)
      else r.error == UnrecognizedDenom && Attached(funds, denom) == 0
  {
    if funds != [] {
      AmountFromFundsBounded(funds[1..], denom);
      if AmountFromFunds(funds[1..], denom).Ok? {
        var i :| 0 <= i < |funds[1..]| && funds[1..][i].denom == denom;
        assert funds[i + 1].denom == denom;
      }
      if i :| 1 <= i < |funds| && funds[i].denom == denom {
        assert funds[1..][i - 1].denom == denom;
      }
    }
  }

  /** With one coin per denomination, as the bank module normalises them, all of it is counted. */
  lemma {:induction false} AmountFromFundsExact(funds: seq<Coin>, denom: string)
    requires forall i, j :: 0 <= i < j < |funds| ==> funds[i].denom != funds[j].denom
    ensures AmountFromFunds(funds, denom).Ok? ==>
              AmountFromFunds(funds, denom).value == Attached(funds, denom)
  {
    if funds != [] {
      AmountFromFundsExact(funds[1..], denom);
      if funds[0].denom == denom {
        AmountFromFundsBounded(funds[1..], denom);
        assert forall i :: 0 <= i < |funds[1..]| ==> funds[1..][i] == funds[i + 1];
      }
    }
  }

  // ---------- one handler ----------

  /** What the handler counts of the attached funds. */
  function Consumed(st: Store, info: Info, msg: ExecuteMsg): nat {
    if msg.Swap? || msg.Deposit? then
      var r := AmountFromFunds(info.funds, st.config.denom);
      if r.Ok? then r.value else 0
    else 0
  }

  /** The net amount the emitted messages take out of the contract's account, self-payments included. */
  function Outflow(msgs: seq<BankMsg>): int
    decreases |msgs|
  {
    if msgs == [] then 0
    else
      var amount: int := msgs[0].amount;
      (if msgs[0].MintToContract? then -amount else amount) + Outflow(msgs[1..])
  }

  function SelfPaid(msgs: seq<BankMsg>, contract: Address): nat
    decreases |msgs|
  {
    if msgs == [] then 0
    else (if msgs[0].Send? && msgs[0].to == contract then msgs[0].amount else 0) + SelfPaid(msgs[1..], contract)
  }

  function Owed(st: Store): nat {
    st.config.supply + st.config.feesAccrued
  }

  ghost predicate BooksBalance(st: Store, info: Info, msg: ExecuteMsg, r: Reply) {
    var msgs := r.response.msgs;
    && Owed(r.store) == Owed(st) + Consumed(st, info, msg) - Outflow(msgs)
    && |msgs| <= 1
    && (forall m :: m in msgs ==> m.denom == st.config.denom && (m.MintToContract? || m.amount <= Owed(st)))
    && r.store.config.denom == st.config.denom && r.store.config.contractAddr == st.config.contractAddr
  }

  predicate IsSettlement(msg: ExecuteMsg) {
    msg.ReverseSwap? || msg.Refund? || msg.RefundInFull?
  }

  lemma SettlementBooksBalance(st: Store, env: Env, info: Info, msg: ExecuteMsg)
    requires IsSettlement(msg) && Execute(st, env, info, msg).Ok?
    ensures BooksBalance(st, info, msg, Execute(st, env, info, msg).value)
  {
  }

  /** Every handler books exactly what it takes in and pays out, and emits at most one message, in
      its own denomination and within what the books hold. */
  lemma HandlerBooksBalance(st: Store, env: Env, info: Info, msg: ExecuteMsg)
    requires Execute(st, env, info, msg).Ok?
    ensures BooksBalance(st, info, msg, Execute(st, env, info, msg).value)
  {
    if IsSettlement(msg) { SettlementBooksBalance(st, env, info, msg); }
  }

  // ---------- the invariant ----------

  function Excess(w: World): int {
    w.bank.Balance(w.store.config.contractAddr) - Owed(w.store)
  }

  ghost predicate Inv(w: World) {
    && w.bank.Consistent()
    && 0 <= Excess(w)
    && w.store.config.swapFee < w.store.config.lowerSwapLimit <= w.store.config.upperSwapLimit
    && (forall id :: id in w.store.refunds ==> id < w.store.config.nextSwapId)
  }

  lemma CreditEffect(w: World, info: Info)
    requires Inv(w) && CreditFunds(w, info).Some? && info.sender != w.store.config.contractAddr
    ensures var b := CreditFunds(w, info).value;
      && b.Consistent() && b.total == w.bank.total
      && b.Balance(w.store.config.contractAddr) ==
        w.bank.Balance(w.store.config.contractAddr) + Attached(info.funds, w.store.config.denom)
  {
    MoveConserves(w.bank, info.sender, w.store.config.contractAddr,
                  Attached(info.funds, w.store.config.denom));
  }

  /** A single message within the contract's balance always goes through. */
  lemma DispatchEffect(bank: Ledger, contract: Address, denom: string, msgs: seq<BankMsg>)
    requires bank.Consistent() && |msgs| <= 1
    requires forall m :: m in msgs ==>
               m.denom == denom && (m.MintToContract? || m.amount <= bank.Balance(contract))
    ensures Dispatch(bank, contract, denom, msgs).Some?
    ensures var b := Dispatch(bank, contract, denom, msgs).value;
      && b.Consistent()
      && b.Balance(contract) == bank.Balance(contract) - Outflow(msgs) + SelfPaid(msgs, contract)
      && ((forall m :: m in msgs ==> m.Send?) ==> b.total == bank.total)
  {
    if |msgs| == 1 {
      var m := msgs[0];
      assert msgs == [m] && m in msgs;
      match m
      case Send(to, _, amount) => MoveConserves(bank, contract, to, amount);
      case MintToContract(_, amount) => IssueAdds(bank, contract, amount);
      case BurnFromContract(_, amount) => RetireRemoves(bank, contract, amount);
    }
  }

  /** Payability: whatever a handler emits from a reachable world can be paid out of the contract's account. */
  lemma EmittedMessagesArePayable(w: World, env: Env, info: Info, msg: ExecuteMsg)
    requires Inv(w) && info.sender != w.store.config.contractAddr
    requires CreditFunds(w, info).Some? && Execute(w.store, env, info, msg).Ok?
    ensures var c := w.store.config; var r := Execute(w.store, env, info, msg).value;
      Dispatch(CreditFunds(w, info).value, c.contractAddr, c.denom, r.response.msgs).Some?
  {
    var c := w.store.config;
    CreditEffect(w, info);
    HandlerBooksBalance(w.store, env, info, msg);
    DispatchEffect(CreditFunds(w, info).value, c.contractAddr, c.denom,
                   Execute(w.store, env, info, msg).value.response.msgs);
  }

  /** So delivery fails after a successful handler only when the chain itself refuses. */
  lemma DeliveryFollowsHandler(w: World, env: Env, info: Info, msg: ExecuteMsg)
    requires Inv(w) && info.sender != w.store.config.contractAddr && w.height <= env.height
    ensures Deliver(w, env, info, msg).Ok? <==>
              && CreditFunds(w, info).Some?
              && Execute(w.store, env, info, msg).Ok?
              && (env.bankAccepts || Execute(w.store, env, info, msg).value.response.msgs == [])
  {
    if CreditFunds(w, info).Some? && Execute(w.store, env, info, msg).Ok? {
      EmittedMessagesArePayable(w, env, info, msg);
    }
  }

  /** What an action adds to the excess: attached coins no handler counted, payments the contract
      made to itself, and direct transfers or issues into its account. */
  function ExcessGain(w: World, a: Action): int {
    var contract := w.store.config.contractAddr;
    match a
    case Call(env, info, msg) =>
      if !Accepted(w, a) then 0
      else
        Attached(info.funds, w.store.config.denom) - Consumed(w.store, info, msg)
        + SelfPaid(Execute(w.store, env, info, msg).value.response.msgs, contract)
    case Transfer(from, to, amount) =>
      if from != contract && to == contract && w.bank.Balance(from) >= amount then amount else 0
    case IssueOutside(to, amount) => if to == contract then amount else 0
    case RetireOutside(_, _) => 0
  }

  lemma HandlerKeepsLimits(st: Store, env: Env, info: Info, msg: ExecuteMsg)
    requires st.config.swapFee < st.config.lowerSwapLimit <= st.config.upperSwapLimit
    requires forall id :: id in st.refunds ==> id < st.config.nextSwapId
    requires Execute(st, env, info, msg).Ok?
    ensures var st' := Execute(st, env, info, msg).value.store;
      && st'.config.swapFee < st'.config.lowerSwapLimit <= st'.config.upperSwapLimit
      && st.config.nextSwapId <= st'.config.nextSwapId
      && (forall id :: id in st'.refunds ==> id < st'.config.nextSwapId)
  {
  }

  lemma CallKeepsInv(w: World, a: Action)
    requires Inv(w) && Accepted(w, a)
    ensures Inv(Next(w, a)) && Excess(Next(w, a)) == Excess(w) + ExcessGain(w, a) && 0 <= ExcessGain(w, a)
  {
    var c := w.store.config;
    HandlerKeepsLimits(w.store, a.env, a.info, a.msg);
    CreditEffect(w, a.info);
    HandlerBooksBalance(w.store, a.env, a.info, a.msg);
    AmountFromFundsBounded(a.info.funds, c.denom);
    DispatchEffect(CreditFunds(w, a.info).value, c.contractAddr, c.denom,
                   Execute(w.store, a.env, a.info, a.msg).value.response.msgs);
  }

  lemma NextKeepsInv(w: World, a: Action)
    requires Inv(w)
    ensures Inv(Next(w, a))
    ensures Excess(Next(w, a)) == Excess(w) + ExcessGain(w, a) && 0 <= ExcessGain(w, a)
  {
    match a
    case Call(_, _, _) =>
      if Accepted(w, a) { CallKeepsInv(w, a); }
    case Transfer(from, to, amount) =>
      if w.bank.Move(from, to, amount).Some? { MoveConserves(w.bank, from, to, amount); }
    case IssueOutside(to, amount) => IssueAdds(w.bank, to, amount);
    case RetireOutside(from, amount) =>
      if amount <= w.bank.Balance(from) { RetireRemoves(w.bank, from, amount); }
  }

  /** Settlements move coins and neither issue nor retire any. */
  lemma SettlementKeepsTotal(w: World, a: Action)
    requires Inv(w) && Accepted(w, a) && IsSettlement(a.msg)
    ensures Next(w, a).bank.total == w.bank.total
  {
    var c := w.store.config;
    CreditEffect(w, a.info);
    HandlerBooksBalance(w.store, a.env, a.info, a.msg);
    DispatchEffect(CreditFunds(w, a.info).value, c.contractAddr, c.denom,
                   Execute(w.store, a.env, a.info, a.msg).value.response.msgs);
  }

  function TotalExcessGain(w: World, acts: seq<Action>): int
    decreases |acts|
  {
    if acts == [] then 0 else ExcessGain(w, acts[0]) + TotalExcessGain(Next(w, acts[0]), acts[1..])
  }

  /** Solvency over whole runs: the balance is supply + fees + excess, and the excess is the initial
      one plus what was given away to the contract since; it never shrinks. */
  lemma {:induction false} Solvency(w: World, acts: seq<Action>)
    requires Inv(w)
    ensures Inv(Run(w, acts))
    ensures Excess(Run(w, acts)) == Excess(w) + TotalExcessGain(w, acts)
    ensures Excess(w) <= Excess(Run(w, acts))
    decreases |acts|
  {
    if acts != [] {
      NextKeepsInv(w, acts[0]);
      Solvency(Next(w, acts[0]), acts[1..]);
    }
  }

  /** A freshly instantiated contract satisfies the invariant, with whatever it was given before as excess. */
  lemma InstantiateEstablishesInv(bank: Ledger, contract: Address, env: Env, info: Info, msg: InstantiateMsg)
    requires bank.Consistent() && InstantiateWorld(bank, contract, env, info, msg).Ok?
    ensures var w := InstantiateWorld(bank, contract, env, info, msg).value;
      && Inv(w) && w.bank.total == bank.total && bank.Balance(contract) <= Excess(w)
      && w.store.config.contractAddr == contract
      && w.store.config.nextSwapId == msg.nextSwapId && w.store.refunds == {} && w.store.roles == {(info.sender, Admin)}
      && (msg.pausedSinceBlock.Some? && msg.pausedSinceBlock.value <= env.height ==>
            w.store.config.pausedSincePublic == w.store.config.pausedSinceRelayer == env.height)
  {
    var w := InstantiateWorld(bank, contract, env, info, msg).value;
    AmountFromFundsBounded(info.funds, w.store.config.denom);
    MoveConserves(bank, info.sender, contract, Attached(info.funds, w.store.config.denom));
  }

  // ---------- overflow freedom ----------

  /** What the contract owes, with the coins just credited, lies within the circulation. */
  lemma OwedWithinCirculation(w: World, info: Info)
    requires Inv(w) && info.sender != w.store.config.contractAddr && CreditFunds(w, info).Some?
    ensures Owed(w.store) + Attached(info.funds, w.store.config.denom) <= w.bank.total
  {
    CreditEffect(w, info);
    BalanceWithinTotal(CreditFunds(w, info).value, w.store.config.contractAddr);
  }

  lemma SettlementAddsWithinOwed(st: Store, env: Env, info: Info, msg: ExecuteMsg)
    requires IsSettlement(msg) && Owed(st) <= U128_MAX
    ensures Execute(st, env, info, msg) != Err(Panicked(SupplyOverflow))
    ensures Execute(st, env, info, msg) != Err(Panicked(FeesOverflow))
  {
  }

  lemma IntakeAddsWithinOwed(st: Store, env: Env, info: Info, msg: ExecuteMsg)
    requires !IsSettlement(msg) && Owed(st) + Attached(info.funds, st.config.denom) <= U128_MAX
    ensures !msg.Mint? ==> Execute(st, env, info, msg) != Err(Panicked(SupplyOverflow))
    ensures Execute(st, env, info, msg) != Err(Panicked(FeesOverflow))
  {
    AmountFromFundsBounded(info.funds, st.config.denom);
  }

  /** While the whole denomination fits in 128 bits, no addition to the supply or the fees can
      overflow, except the one in `Mint`. */
  lemma NoOverflowFromConservation(w: World, env: Env, info: Info, msg: ExecuteMsg)
    requires Inv(w) && w.bank.total <= U128_MAX
    requires info.sender != w.store.config.contractAddr && CreditFunds(w, info).Some?
    ensures !msg.Mint? ==> Execute(w.store, env, info, msg) != Err(Panicked(SupplyOverflow))
    ensures Execute(w.store, env, info, msg) != Err(Panicked(FeesOverflow))
  {
    OwedWithinCirculation(w, info);
    if IsSettlement(msg) {
      SettlementAddsWithinOwed(w.store, env, info, msg);
    } else {
      IntakeAddsWithinOwed(w.store, env, info, msg);
    }
  }

  lemma MintPanicsExactly(st: Store, env: Env, info: Info, amount: u128)
    ensures Execute(st, env, info, Mint(amount)) == Err(Panicked(SupplyOverflow)) <==>
              OnlyRole(st, info.sender, Admin).Pass? && st.config.supply + amount > U128_MAX
  {
  }

  lemma NewRelayEonPanicsExactly(st: Store, env: Env, info: Info)
    ensures Execute(st, env, info, NewRelayEon) == Err(Panicked(EonOverflow)) <==>
              && OnlyRole(st, info.sender, Relayer).Pass?
              && env.height < st.config.pausedSinceRelayer && st.config.relayEon == U64_MAX
  {
  }

  lemma SwapPanicsExactly(st: Store, env: Env, info: Info, destination: string, amount: u128)
    requires AmountFromFunds(info.funds, st.config.denom) == Ok(amount)
    ensures Execute(st, env, info, Swap(destination)) == Err(Panicked(SwapIdOverflow)) <==>
              && env.height < st.config.pausedSincePublic
              && st.config.lowerSwapLimit <= amount <= st.config.upperSwapLimit
              && st.config.supply + amount <= st.config.cap && st.config.nextSwapId == U64_MAX
  {
  }

  lemma OtherMessagesCountNothing(st: Store, env: Env, info: Info, msg: ExecuteMsg)
    requires !msg.Swap? && !msg.NewRelayEon?
    ensures Execute(st, env, info, msg) != Err(Panicked(SwapIdOverflow))
    ensures Execute(st, env, info, msg) != Err(Panicked(EonOverflow))
  {
    AmountFromFundsBounded(info.funds, st.config.denom);
  }

  /** When a message meets an addition that overflows: an oversized `Mint`, or one of the two
      64-bit counters at its end. */
  predicate CounterOrMintOverflows(st: Store, env: Env, info: Info, msg: ExecuteMsg) {
    var c := st.config;
    match msg
    case Mint(amount) => OnlyRole(st, info.sender, Admin).Pass? && c.supply + amount > U128_MAX
    case NewRelayEon =>
      && OnlyRole(st, info.sender, Relayer).Pass?
      && env.height < c.pausedSinceRelayer && c.relayEon == U64_MAX
    case Swap(_) =>
      var r := AmountFromFunds(info.funds, c.denom);
      && r.Ok? && env.height < c.pausedSincePublic && c.lowerSwapLimit <= r.value <= c.upperSwapLimit
      && c.supply + r.value <= c.cap && c.nextSwapId == U64_MAX
    case _ => false
  }

  predicate OverflowPanic<T>(r: StdResult<T>) {
    r.Err? && r.error.Panicked? && r.error.panic != NamespaceTooLong
  }

  /** While the denomination fits in 128 bits these are all the overflow panics there are. */
  lemma OverflowPanicsExactly(w: World, env: Env, info: Info, msg: ExecuteMsg)
    requires Inv(w) && w.bank.total <= U128_MAX
    requires info.sender != w.store.config.contractAddr && CreditFunds(w, info).Some?
    ensures OverflowPanic(Execute(w.store, env, info, msg)) <==> CounterOrMintOverflows(w.store, env, info, msg)
  {
    NoOverflowFromConservation(w, env, info, msg);
    AmountFromFundsBounded(info.funds, w.store.config.denom);
    if !msg.Swap? && !msg.NewRelayEon? { OtherMessagesCountNothing(w.store, env, info, msg); }
    match msg
    case Mint(amount) => MintPanicsExactly(w.store, env, info, amount);
    case NewRelayEon => NewRelayEonPanicsExactly(w.store, env, info);
    case Swap(destination) =>
      var r := AmountFromFunds(info.funds, w.store.config.denom);
      if r.Ok? { SwapPanicsExactly(w.store, env, info, destination, r.value); }
    case _ =>
  }
}
