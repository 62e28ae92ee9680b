/** Event sourcing for the CosmWasm contract: its whole storage can be rebuilt from the attributes
    of its responses. */
module FetchReplay {
  import opened Types
  import opened Ledgers
  import opened FetchSpec
  import opened FetchSolvency
  import Keys

  /** Puts new money figures into the record; `None` when a log claims what no record can hold. */
  function Rebook(c: State, supply: int, fees: int, allowance: int): Option<State> {
    if 0 <= supply <= U128_MAX && 0 <= fees <= U128_MAX && 0 <= allowance <= U128_MAX then
      Some(c.(supply := supply, feesAccrued := fees, allowance := allowance))
    else None
  }

  /** The amount a settlement consumed comes back as what was paid out plus the fee. */
  function Settle(c: State, paid: u128, fee: u128): Option<State> {
    Rebook(c, c.supply - (paid + fee), c.feesAccrued + fee, c.allowance - (paid + fee))
  }

  function WithConfig(st: Store, c: Option<State>): Option<Store> {
    if c.Some? then Some(st.(config := c.value)) else None
  }

  function ReplayRole(st: Store, role: string, account: Address, held: bool): Option<Store> {
    match Keys.RoleFromString(role)
    case None => None
    case Some(r) => Some(st.(roles := if held then st.roles + {(account, r)} else st.roles - {(account, r)}))
  }

  /** One step of an observer that sees attributes only. */
  function Replay(st: Store, e: Event): Option<Store> {
    var c := st.config;
    match e
    case Swapped(_, swapId, amount) =>
      if swapId == U64_MAX then None
      else WithConfig(st, Rebook(c.(nextSwapId := swapId + 1), c.supply + amount, c.feesAccrued, c.allowance))
    case ReverseSwapped(_, _, _, _, _, amount, swapFee) => WithConfig(st, Settle(c, amount, swapFee))
    case Refunded(_, swapId, amount, refundFee) =>
      WithConfig(st.(refunds := st.refunds + {swapId}), Settle(c, amount, refundFee))
    case PublicApiPaused(sinceBlock) => Some(st.(config := c.(pausedSincePublic := sinceBlock)))
    case RelayerApiPaused(sinceBlock) => Some(st.(config := c.(pausedSinceRelayer := sinceBlock)))
    case RelayEonStarted(eon) => Some(st.(config := c.(relayEon := eon)))
    case Deposited(amount, _) => WithConfig(st, Rebook(c, c.supply + amount, c.feesAccrued, c.allowance))
    case Withdrawn(amount, _) => WithConfig(st, Rebook(c, c.supply - amount, c.feesAccrued, c.allowance))
    case FeesWithdrawn(amount, _) => WithConfig(st, Rebook(c, c.supply, c.feesAccrued - amount, c.allowance))
    case Minted(amount) => WithConfig(st, Rebook(c, c.supply + amount, c.feesAccrued, c.allowance))
    case Burned(amount) => WithConfig(st, Rebook(c, c.supply - amount, c.feesAccrued, c.allowance))
    case CapSet(cap) => Some(st.(config := c.(cap := cap)))
    case AllowanceSet(amount) => Some(st.(config := c.(allowance := amount)))
    case ApproverCapSet(amount) => Some(st.(config := c.(approverCap := amount)))
    case LimitsSet(swapFee, swapMin, swapMax) =>
      Some(st.(config := c.(swapFee := swapFee, lowerSwapLimit := swapMin, upperSwapLimit := swapMax)))
    case RoleGranted(role, account) => ReplayRole(st, role, account, true)
    case RoleRevoked(role, account) => ReplayRole(st, role, account, false)
    case RoleRenounced(role, account) => ReplayRole(st, role, account, false)
  }

  function ReplayAll(st: Store, events: seq<Event>): Option<Store>
    decreases |events|
  {
    if events == [] then Some(st)
    else
      var next := Replay(st, events[0]);
      if next.None? then None else ReplayAll(next.value, events[1..])
  }

  /** What the attributes tell about the call: whose it was, and what it asked for. A settlement's amount
      comes back split into what is paid and the fee, which is the swap fee, or all when that is less; the key of
      its origin account is "from" when nothing is paid. */
  predicate Reports(st: Store, env: Env, info: Info, msg: ExecuteMsg, e: Event) {
    match msg
    case Swap(destination) => e.Swapped? && e.destination == destination && e.swapId == st.config.nextSwapId
                              && AmountFromFunds(info.funds, st.config.denom) == Ok(e.amount)
    case ReverseSwap(rid, to, sender, originTxHash, amount, _) =>
      && e.ReverseSwapped? && e.rid == rid && e.to == to && e.sender == sender && e.originTxHash == originTxHash
      && e.amount + e.swapFee == amount && e.swapFee == Min(st.config.swapFee, amount)
      && e.senderKey == (if e.amount == 0 then "from" else "sender")
    case Refund(id, to, amount, _) =>
      && e.Refunded? && e.swapId == id && e.account == to
      && e.amount + e.refundFee == amount && e.refundFee == Min(st.config.swapFee, amount)
    case RefundInFull(id, to, amount, _) => e == Refunded(to, id, amount, 0)
    case PausePublicApi(sinceBlock) => e.PublicApiPaused? && e.sinceBlock == Max(sinceBlock, env.height)
    case PauseRelayerApi(sinceBlock) => e.RelayerApiPaused? && e.sinceBlock == Max(sinceBlock, env.height)
    case NewRelayEon => e.RelayEonStarted? && e.eon == st.config.relayEon + 1
    case Deposit => e.Deposited? && e.account == info.sender
                    && AmountFromFunds(info.funds, st.config.denom) == Ok(e.amount)
    case Withdraw(amount, target) => e == Withdrawn(amount, target)
    case WithdrawFees(amount, target) => e == FeesWithdrawn(amount, target)
    case SetCap(amount) => e == CapSet(amount)
    case SetAllowance(amount) => e == AllowanceSet(amount)
    case SetApproverCap(amount) => e == ApproverCapSet(amount)
    case SetLimits(swapMin, swapMax, swapFee) => e == LimitsSet(swapFee, swapMin, swapMax)
    case GrantRole(role, address) => e == RoleGranted(role, address)
    case RevokeRole(role, address) => e == RoleRevoked(role, address)
    case RenounceRole(role) => e == RoleRenounced(role, info.sender)
    case Mint(amount) => e == Minted(amount)
    case Burn(amount) => e == Burned(amount)
  }

  /** The bank messages an observer expects after an event: payments go to the resolved account. */
  function PaymentsOf(e: Event, denom: string, recipient: Option<Address>): seq<BankMsg> {
    var paid := match e
      case ReverseSwapped(_, _, _, _, _, amount, _) => if amount == 0 then None else Some(amount)
      case Refunded(_, _, amount, _) => if amount == 0 then None else Some(amount)
      case Withdrawn(amount, _) => Some(amount)
      case FeesWithdrawn(amount, _) => Some(amount)
      case _ => None;
    if paid.Some? then (if recipient.Some? then [Send(recipient.value, denom, paid.value)] else [])
    else if e.Minted? then [MintToContract(denom, e.amount)]
    else if e.Burned? then [BurnFromContract(denom, e.amount)]
    else []
  }

  /** The attributes report the call, and together with the resolved account they determine the payments. */
  lemma SettlementReported(st: Store, env: Env, info: Info, msg: ExecuteMsg)
    requires IsSettlement(msg) && Execute(st, env, info, msg).Ok?
    ensures var r := Execute(st, env, info, msg).value.response;
      && Reports(st, env, info, msg, r.event)
      && r.msgs == PaymentsOf(r.event, st.config.denom, env.resolved)
      && (r.msgs == [] <==> r.event.amount == 0)
  {
  }

  lemma HandlerReported(st: Store, env: Env, info: Info, msg: ExecuteMsg)
    requires Execute(st, env, info, msg).Ok?
    ensures var r := Execute(st, env, info, msg).value.response;
      && Reports(st, env, info, msg, r.event)
      && r.msgs == PaymentsOf(r.event, st.config.denom, env.resolved)
      && (msg.Withdraw? || msg.WithdrawFees? ==> env.resolved.Some?)
  {
    if IsSettlement(msg) { SettlementReported(st, env, info, msg); }
  }

  lemma SettlementReplays(st: Store, env: Env, info: Info, msg: ExecuteMsg)
    requires IsSettlement(msg)
    requires Execute(st, env, info, msg).Ok?
    ensures var r := Execute(st, env, info, msg).value;
      Replay(st, r.response.event) == Some(r.store)
  {
  }

  lemma RoleChangeReplays(st: Store, env: Env, info: Info, msg: ExecuteMsg)
    requires msg.GrantRole? || msg.RevokeRole? || msg.RenounceRole?
    requires Execute(st, env, info, msg).Ok?
    ensures var r := Execute(st, env, info, msg).value;
      Replay(st, r.response.event) == Some(r.store)
  {
  }

  /** The attributes of one response determine the handler's whole effect on storage. */
  lemma HandlerReplays(st: Store, env: Env, info: Info, msg: ExecuteMsg)
    requires Execute(st, env, info, msg).Ok?
    ensures var r := Execute(st, env, info, msg).value;
      Replay(st, r.response.event) == Some(r.store)
  {
    if IsSettlement(msg) {
      SettlementReplays(st, env, info, msg);
    } else if msg.GrantRole? || msg.RevokeRole? || msg.RenounceRole? {
      RoleChangeReplays(st, env, info, msg);
    }
  }

  /** Folding the events of any run over the initial storage rebuilds the final storage exactly. */
  lemma {:induction false} RunReplays(w: World, acts: seq<Action>)
    ensures ReplayAll(w.store, Events(w, acts)) == Some(Run(w, acts).store)
    decreases |acts|
  {
    if acts != [] {
      var a := acts[0];
      RunReplays(Next(w, a), acts[1..]);
      if Accepted(w, a) {
        AcceptedStep(w, a);
        HandlerReplays(w.store, a.env, a.info, a.msg);
        var events := Events(w, acts);
        assert events[1..] == Events(Next(w, a), acts[1..]);
      } else {
        RejectedStep(w, a);
        assert Events(w, acts) == Events(Next(w, a), acts[1..]);
      }
    }
  }

  /** From deployment on: the instantiate inputs and the log are all an observer needs. */
  lemma HistoryReplays(bank: Ledger, contract: Address, env: Env, info: Info, msg: InstantiateMsg, acts: seq<Action>)
    requires InstantiateWorld(bank, contract, env, info, msg).Ok?
    ensures Instantiate(contract, env, info, msg).Ok?
    ensures var w := InstantiateWorld(bank, contract, env, info, msg).value;
      ReplayAll(Instantiate(contract, env, info, msg).value, Events(w, acts)) == Some(Run(w, acts).store)
  {
    RunReplays(InstantiateWorld(bank, contract, env, info, msg).value, acts);
  }
}
