/** The CosmWasm contract as it runs: handlers that read and write a flat store of byte keys, proved
    to do on the bytes exactly what `FetchSpec` says on the abstract storage. */
module FetchContract {
  import opened Types
  import opened Ledgers
  import opened Keys
  import opened Spec = FetchSpec
  import Replays = FetchReplay

  /** A stored value: the serialised record, or plain bytes. */
  datatype Value = Config(state: State) | Raw(bytes: Bytes)

  type Data = map<Bytes, Value>

  class Storage {
    var data: Data

    constructor ()
      ensures data == map[]
    {
      data := map[];
    }

    method Get(key: Bytes) returns (r: Option<Value>)
      ensures r == if key in data then Some(data[key]) else None
    {
      if key in data {
        return Some(data[key]);
      }
      return None;
    }

    method Set(key: Bytes, value: Value)
      modifies this
      ensures data == old(data)[key := value]
    {
      data := data[key := value];
    }

    method Remove(key: Bytes)
      modifies this
      ensures data == old(data) - {key}
    {
      data := data - {key};
    }
  }

  // ---------- the abstraction ----------

  predicate RoleStored(data: Data, a: Address, role: AccessRole)
    requires |a| <= NAMESPACE_MAX
  {
    RoleKey(a, role) in data && data[RoleKey(a, role)] == Raw([1])
  }

  /** The flat store holds exactly this record, these refunds and these roles. */
  ghost predicate Represents(data: Data, st: Store) {
    && CONFIG_KEY in data && data[CONFIG_KEY] == Config(st.config)
    && (forall id: u64 :: RefundsKey(id) in data <==> id in st.refunds)
    && (forall a: Address, role: AccessRole | |a| <= NAMESPACE_MAX ::
          RoleStored(data, a, role) <==> (a, role) in st.roles)
    && (forall p :: p in st.roles ==> |p.0| <= NAMESPACE_MAX)
  }

  /** A flat store stands for one abstract storage only. */
  lemma RepresentsUnique(data: Data, st: Store, st': Store)
    requires Represents(data, st) && Represents(data, st')
    ensures st == st'
  {
    assert forall id: u64 :: id in st.refunds <==> id in st'.refunds;
    forall p ensures p in st.roles <==> p in st'.roles {
      var (a, role) := p;
      if |a| <= NAMESPACE_MAX {
        assert RoleStored(data, a, role) <==> (a, role) in st.roles;
      }
    }
  }

  lemma SetConfigRepresents(data: Data, st: Store, config: State)
    requires Represents(data, st)
    ensures Represents(data[CONFIG_KEY := Config(config)], st.(config := config))
  {
    var data' := data[CONFIG_KEY := Config(config)];
    forall id: u64 ensures RefundsKey(id) in data' <==> id in st.refunds {
      KeysDisjoint(id, [], Admin);
    }
    forall a: Address, role: AccessRole | |a| <= NAMESPACE_MAX
      ensures RoleStored(data', a, role) <==> (a, role) in st.roles
    {
      KeysDisjoint(0, a, role);
      assert RoleStored(data, a, role) <==> (a, role) in st.roles;
    }
  }

  lemma SetRefundRepresents(data: Data, st: Store, id: u64)
    requires Represents(data, st)
    ensures Represents(data[RefundsKey(id) := Raw([1])], st.(refunds := st.refunds + {id}))
  {
    var data' := data[RefundsKey(id) := Raw([1])];
    KeysDisjoint(id, [], Admin);
    forall id': u64 ensures RefundsKey(id') in data' <==> id' in st.refunds + {id} {
      if RefundsKey(id') == RefundsKey(id) { RefundsKeyInjective(id', id); }
    }
    forall a: Address, role: AccessRole | |a| <= NAMESPACE_MAX
      ensures RoleStored(data', a, role) <==> (a, role) in st.roles
    {
      KeysDisjoint(id, a, role);
      assert RoleStored(data, a, role) <==> (a, role) in st.roles;
    }
  }

  /** Writing or removing one role's entry changes that role only. */
  lemma RoleUpdateRepresents(data: Data, data': Data, st: Store, a: Address, role: AccessRole, held: bool)
    requires Represents(data, st) && |a| <= NAMESPACE_MAX
    requires data' == if held then data[RoleKey(a, role) := Raw([1])] else data - {RoleKey(a, role)}
    ensures Represents(data', st.(roles := if held then st.roles + {(a, role)} else st.roles - {(a, role)}))
  {
    var roles' := if held then st.roles + {(a, role)} else st.roles - {(a, role)};
    KeysDisjoint(0, a, role);
    forall id: u64 ensures RefundsKey(id) in data' <==> id in st.refunds {
      KeysDisjoint(id, a, role);
    }
    forall b: Address, role': AccessRole | |b| <= NAMESPACE_MAX
      ensures RoleStored(data', b, role') <==> (b, role') in roles'
    {
      assert RoleStored(data, b, role') <==> (b, role') in st.roles;
      if RoleKey(b, role') == RoleKey(a, role) { RoleKeyInjective(b, role', a, role); }
    }
  }

  // ---------- state.rs ----------

  method RefundsKeyBytes(id: u64) returns (k: Bytes)
    ensures k == RefundsKey(id)
  {
    k := LengthPrefixed(Ascii(REFUNDS_KEY));
    k := k + BigEndian(id, 8);
  }

  method RefundsAdd(storage: Storage, id: u64, ghost st: Store)
    requires Represents(storage.data, st)
    modifies storage
    ensures Represents(storage.data, st.(refunds := st.refunds + {id}))
  {
    SetRefundRepresents(storage.data, st, id);
    var key := RefundsKeyBytes(id);
    storage.Set(key, Raw([1]));
  }

  method RefundsHave(storage: Storage, id: u64, ghost st: Store) returns (r: bool)
    requires Represents(storage.data, st)
    ensures r == (id in st.refunds)
  {
    var key := RefundsKeyBytes(id);
    var v := storage.Get(key);
    return v.Some?;
  }

  method ConfigLoad(storage: Storage) returns (r: StdResult<State>)
    ensures forall st :: Represents(storage.data, st) ==> r == Ok(st.config)
  {
    var v := storage.Get(CONFIG_KEY);
    if v.Some? && v.value.Config? {
      return Ok(v.value.state);
    }
    return Err(ConfigNotFound);
  }

  /** Reloads the record, applies the closure to it and stores what it returns. */
  method ConfigUpdate(storage: Storage, f: State -> StdResult<State>, ghost st: Store) returns (r: StdResult<State>)
    requires Represents(storage.data, st)
    modifies storage
    ensures r == f(st.config)
    ensures r.Ok? ==> Represents(storage.data, st.(config := r.value))
    ensures r.Err? ==> storage.data == old(storage.data)
  {
    var loaded := ConfigLoad(storage);
    if loaded.Err? { return loaded; }
    r := f(loaded.value);
    if r.Ok? {
      SetConfigRepresents(storage.data, st, r.value);
      storage.Set(CONFIG_KEY, Config(r.value));
    }
  }

  /** The same for a closure that cannot fail. */
  method ConfigWrite(storage: Storage, f: State -> State, ghost st: Store)
    requires Represents(storage.data, st)
    modifies storage
    ensures Represents(storage.data, st.(config := f(st.config)))
  {
    var loaded := ConfigLoad(storage);
    SetConfigRepresents(storage.data, st, f(st.config));
    storage.Set(CONFIG_KEY, Config(f(loaded.value)));
  }

  // ---------- access_control.rs ----------

  /** Building a length prefix panics on a namespace that does not fit in two bytes. */
  method AcStorageKey(a: Address, role: AccessRole) returns (r: StdResult<Bytes>)
    ensures r == if |a| <= NAMESPACE_MAX then Ok(RoleKey(a, role)) else Err(Panicked(NamespaceTooLong))
  {
    if |a| > NAMESPACE_MAX { return Err(Panicked(NamespaceTooLong)); }
    var key := LengthPrefixed(Ascii(ACCESS_CONTROL_KEY)) + LengthPrefixed(a);
    key := key + Ascii(RoleName(role));
    return Ok(key);
  }

  method AcHaveRole(storage: Storage, a: Address, role: AccessRole, ghost st: Store) returns (r: StdResult<bool>)
    requires Represents(storage.data, st)
    ensures r == if |a| <= NAMESPACE_MAX then Ok(HasRole(st, a, role)) else Err(Panicked(NamespaceTooLong))
  {
    var key := AcStorageKey(a, role);
    if key.Err? { return Err(key.error); }
    var v := storage.Get(key.value);
    assert RoleStored(storage.data, a, role) <==> (a, role) in st.roles;
    return Ok(v == Some(Raw([1])));
  }

  ghost predicate StoreUpdated(data: Data, r: StdResult<bool>, spec: StdResult<Store>) {
    match spec
    case Ok(st') => r == Ok(true) && Represents(data, st')
    case Err(e) => r == Err(e)
  }

  method AcAddRole(storage: Storage, a: Address, role: AccessRole, ghost st: Store) returns (r: StdResult<bool>)
    requires Represents(storage.data, st)
    modifies storage
    ensures StoreUpdated(storage.data, r, AddRole(st, a, role))
  {
    var have := AcHaveRole(storage, a, role, st);
    if have.Err? { return have; }
    if have.value { return Err(AlreadyHasRole); }
    var key := AcStorageKey(a, role);
    RoleUpdateRepresents(storage.data, storage.data[RoleKey(a, role) := Raw([1])], st, a, role, true);
    storage.Set(key.value, Raw([1]));
    return Ok(true);
  }

  method AcRevokeRole(storage: Storage, a: Address, role: AccessRole, ghost st: Store) returns (r: StdResult<bool>)
    requires Represents(storage.data, st)
    modifies storage
    ensures StoreUpdated(storage.data, r, RemoveRole(st, a, role))
  {
    var have := AcHaveRole(storage, a, role, st);
    if have.Err? { return have; }
    if !have.value { return Err(DoesntHaveRole); }
    var key := AcStorageKey(a, role);
    RoleUpdateRepresents(storage.data, storage.data - {RoleKey(a, role)}, st, a, role, false);
    storage.Remove(key.value);
    return Ok(true);
  }

  // ---------- contract.rs: helpers and verifiers ----------

  method AmountFromFunds(funds: seq<Coin>, denom: string) returns (r: StdResult<u128>)
    ensures r == Spec.AmountFromFunds(funds, denom)
  {
    for i := 0 to |funds|
      invariant Spec.AmountFromFunds(funds, denom) == Spec.AmountFromFunds(funds[i..], denom)
    {
      if funds[i].denom == denom {
        return Ok(funds[i].amount);
      }
      assert funds[i..][1..] == funds[i + 1..];
    }
    return Err(UnrecognizedDenom);
  }

  method OnlyRole(storage: Storage, info: Info, role: AccessRole, ghost st: Store) returns (r: Check<Error>)
    requires Represents(storage.data, st)
    ensures r == Spec.OnlyRole(st, info.sender, role)
  {
    var have := AcHaveRole(storage, info.sender, role, st);
    if have.Err? { return Fail(have.error); }
    if have.value { return Pass; }
    match role {
      case Relayer => return Fail(OnlyRelayer);
      case _ => return Fail(OnlyAdmin);
    }
  }

  method CanPause(storage: Storage, env: Env, info: Info, sinceBlock: u64, ghost st: Store) returns (r: Check<Error>)
    requires Represents(storage.data, st)
    ensures r == Spec.CanPause(st, env, info.sender, sinceBlock)
  {
    if sinceBlock > env.height {
      r := OnlyRole(storage, info, Admin, st);
    } else {
      r := OnlyRole(storage, info, Monitor, st);
      if r.Fail? { r := OnlyRole(storage, info, Admin, st); }
    }
  }

  method VerifyRefundSwapId(storage: Storage, id: u64, ghost st: Store) returns (r: Check<Error>)
    requires Represents(storage.data, st)
    ensures r == Spec.VerifyRefundSwapId(st, id)
  {
    var state := ConfigLoad(storage);
    if id >= state.value.nextSwapId { return Fail(InvalidSwapId); }
    var refunded := RefundsHave(storage, id, st);
    if refunded { return Fail(AlreadyRefunded); }
    return Pass;
  }

  // Where the handler has already compared the operands the source's `checked_sub` cannot fail and is
  // written as a plain subtraction, whose range the verifier checks.
  function CheckedSub(a: u128, b: u128): StdResult<u128> {
    if b <= a then Ok(a - b) else Err(CheckedSubOverflow)
  }

  function PanickingAdd(a: u128, b: u128, panic: Panic): StdResult<u128> {
    if a + b <= U128_MAX then Ok(a + b) else Err(Panicked(panic))
  }

  /** The handler answers as specified; on success the store holds the specified storage. A failed
      handler may leave partial writes behind: the chain discards them. */
  ghost predicate Implements(data: Data, r: StdResult<Response>, spec: StdResult<Reply>) {
    match spec
    case Ok(reply) => r == Ok(reply.response) && Represents(data, reply.store)
    case Err(e) => r == Err(e)
  }

  // ---------- contract.rs: handlers; `state` is the snapshot loaded by `Execute` ----------

  method Instantiate(contract: Address, env: Env, info: Info, msg: InstantiateMsg)
    returns (storage: Storage, r: StdResult<()>)
    ensures fresh(storage)
    ensures match Spec.Instantiate(contract, env, info, msg)
            case Ok(st) => r == Ok(()) && Represents(storage.data, st)
            case Err(e) => r == Err(e)
  {
    storage := new Storage();
    var pausedSince: u64 := if msg.pausedSinceBlock.Some? then msg.pausedSinceBlock.value else U64_MAX;
    if pausedSince < env.height { pausedSince := env.height; }
    if msg.lowerSwapLimit > msg.upperSwapLimit || msg.lowerSwapLimit <= msg.swapFee {
      return storage, Err(LimitsInconsistent);
    }
    var denom := if msg.denom.Some? then msg.denom.value else DEFAULT_DENOM;
    var key := AcStorageKey(info.sender, Admin);
    if key.Err? { return storage, Err(key.error); }
    storage.Set(key.value, Raw([1]));
    var supply := AmountFromFunds(info.funds, denom);
    var state := State(if supply.Ok? then supply.value else 0, 0, msg.nextSwapId, 0, 0,
                       msg.upperSwapLimit, msg.lowerSwapLimit, msg.allowance, msg.approverCap, msg.cap, msg.swapFee,
                       pausedSince, pausedSince, denom, contract);
    storage.Set(CONFIG_KEY, Config(state));
    FreshStoreRepresents(info.sender, state);
    assert storage.data == map[RoleKey(info.sender, Admin) := Raw([1]), CONFIG_KEY := Config(state)];
    return storage, Ok(());
  }

  lemma FreshStoreRepresents(sender: Address, state: State)
    requires |sender| <= NAMESPACE_MAX
    ensures Represents(map[RoleKey(sender, Admin) := Raw([1]), CONFIG_KEY := Config(state)],
                       Store(state, {}, {(sender, Admin)}))
  {
    var data := map[CONFIG_KEY := Config(state)];
    forall id: u64 ensures RefundsKey(id) !in data { KeysDisjoint(id, [], Admin); }
    forall a: Address, role: AccessRole | |a| <= NAMESPACE_MAX ensures !RoleStored(data, a, role) {
      KeysDisjoint(0, a, role);
    }
    KeysDisjoint(0, sender, Admin);
    var data' := data[RoleKey(sender, Admin) := Raw([1])];
    RoleUpdateRepresents(data, data', Store(state, {}, {}), sender, Admin, true);
    assert data' == map[RoleKey(sender, Admin) := Raw([1]), CONFIG_KEY := Config(state)];
    assert {} + {(sender, Admin)} == {(sender, Admin)};
  }

  method TrySwap(storage: Storage, env: Env, state: State, amount: u128, destination: string, ghost st: Store)
    returns (r: StdResult<Response>)
    requires Represents(storage.data, st) && state == st.config
    modifies storage
    ensures Implements(storage.data, r, Spec.TrySwap(st, env, amount, destination))
  {
    if env.height >= state.pausedSincePublic { return Err(ContractPaused); }
    if amount < state.lowerSwapLimit || amount > state.upperSwapLimit { return Err(LimitsViolated); }
    var increasedSupply :- PanickingAdd(state.supply, amount, SupplyOverflow);
    if increasedSupply > state.cap { return Err(CapExceeded); }
    var swapId := state.nextSwapId;
    var _ :- ConfigUpdate(storage, (s: State) =>
      if s.nextSwapId == U64_MAX then Err(Panicked(SwapIdOverflow))
      else Ok(s.(supply := increasedSupply, nextSwapId := s.nextSwapId + 1)), st);
    return Ok(Response(Swapped(destination, swapId, amount), []));
  }

  /** The closure of a settlement: the record read back loses the amount and gains the fee. */
  function SettleClosure(amount: u128, fee: u128): State -> StdResult<State> {
    (s: State) =>
      var supply :- CheckedSub(s.supply, amount);
      var allowance :- CheckedSub(s.allowance, amount);
      var fees :- PanickingAdd(s.feesAccrued, fee, FeesOverflow);
      Ok(s.(supply := supply, allowance := allowance, feesAccrued := fees))
  }

  /** The closure of a refund: the supply comes from the snapshot, the rest from the record read back. */
  function RefundClosure(newSupply: u128, amount: u128, fee: u128): State -> StdResult<State> {
    (s: State) =>
      var allowance :- CheckedSub(s.allowance, amount);
      var fees :- PanickingAdd(s.feesAccrued, fee, FeesOverflow);
      Ok(s.(supply := newSupply, allowance := allowance, feesAccrued := fees))
  }

  method TryReverseSwap(storage: Storage, env: Env, info: Info, state: State, rid: u64, to: Address, sender: string,
                        originTxHash: string, amount: u128, relayEon: u64, ghost st: Store)
    returns (r: StdResult<Response>)
    requires Represents(storage.data, st) && state == st.config
    modifies storage
    ensures Implements(storage.data, r,
                       Spec.TryReverseSwap(st, env, info, rid, to, sender, originTxHash, amount, relayEon))
  {
    var allowed := OnlyRole(storage, info, Relayer, st);
    if allowed.Fail? { return Err(allowed.error); }
    if relayEon != state.relayEon { return Err(WrongEon); }
    if env.height >= state.pausedSinceRelayer { return Err(ContractPaused); }
    if state.allowance < amount { return Err(AllowanceExceeded); }
    if amount > state.supply { return Err(SupplyExceeded); }
    if amount > state.swapFee {
      var swapFee := state.swapFee;
      var effectiveAmount: u128 := amount - swapFee;
      var recipient :- Resolve(env);
      var send := Send(recipient, state.denom, effectiveAmount);
      var _ :- ConfigUpdate(storage, SettleClosure(amount, swapFee), st);
      return Ok(Response(ReverseSwapped("sender", rid, to, sender, originTxHash, effectiveAmount, swapFee), [send]));
    } else {
      var swapFee := amount;
      var _ :- ConfigUpdate(storage, SettleClosure(amount, swapFee), st);
      return Ok(Response(ReverseSwapped("from", rid, to, sender, originTxHash, 0, swapFee), []));
    }
  }

  method TryRefundWithFee(storage: Storage, env: Env, info: Info, state: State, id: u64, to: Address, amount: u128,
                          relayEon: u64, fee: u128, ghost st: Store)
    returns (r: StdResult<Response>)
    requires Represents(storage.data, st) && state == st.config
    modifies storage
    ensures Implements(storage.data, r, Spec.TryRefundWithFee(st, env, info, id, to, amount, relayEon, fee))
  {
    var allowed := OnlyRole(storage, info, Relayer, st);
    if allowed.Fail? { return Err(allowed.error); }
    if relayEon != state.relayEon { return Err(WrongEon); }
    if env.height >= state.pausedSinceRelayer { return Err(ContractPaused); }
    var refundable := VerifyRefundSwapId(storage, id, st);
    if refundable.Fail? { return Err(refundable.error); }
    if state.allowance < amount { return Err(AllowanceExceeded); }
    if amount > state.supply { return Err(SupplyExceeded); }
    if amount > fee {
      var newSupply: u128 := state.supply - amount;
      var effectiveAmount: u128 := amount - fee;
      var recipient :- Resolve(env);
      var send := Send(recipient, state.denom, effectiveAmount);
      var updated :- ConfigUpdate(storage, RefundClosure(newSupply, amount, fee), st);
      RefundsAdd(storage, id, st.(config := updated));
      return Ok(Response(Refunded(to, id, effectiveAmount, fee), [send]));
    } else {
      var refundFee := amount;
      var newSupply: u128 := state.supply - amount;
      var updated :- ConfigUpdate(storage, RefundClosure(newSupply, amount, refundFee), st);
      RefundsAdd(storage, id, st.(config := updated));
      return Ok(Response(Refunded(to, id, 0, refundFee), []));
    }
  }

  method TryPausePublicApi(storage: Storage, env: Env, info: Info, sinceBlock: u64, ghost st: Store)
    returns (r: StdResult<Response>)
    requires Represents(storage.data, st)
    modifies storage
    ensures Implements(storage.data, r, Spec.TryPausePublicApi(st, env, info, sinceBlock))
  {
    var allowed := CanPause(storage, env, info, sinceBlock, st);
    if allowed.Fail? { return Err(allowed.error); }
    var since := if sinceBlock < env.height then env.height else sinceBlock;
    ConfigWrite(storage, (s: State) => s.(pausedSincePublic := since), st);
    return Ok(Response(PublicApiPaused(since), []));
  }

  method TryPauseRelayerApi(storage: Storage, env: Env, info: Info, sinceBlock: u64, ghost st: Store)
    returns (r: StdResult<Response>)
    requires Represents(storage.data, st)
    modifies storage
    ensures Implements(storage.data, r, Spec.TryPauseRelayerApi(st, env, info, sinceBlock))
  {
    var allowed := CanPause(storage, env, info, sinceBlock, st);
    if allowed.Fail? { return Err(allowed.error); }
    var since := if sinceBlock < env.height then env.height else sinceBlock;
    ConfigWrite(storage, (s: State) => s.(pausedSinceRelayer := since), st);
    return Ok(Response(RelayerApiPaused(since), []));
  }

  method TryNewRelayEon(storage: Storage, env: Env, info: Info, state: State, ghost st: Store)
    returns (r: StdResult<Response>)
    requires Represents(storage.data, st) && state == st.config
    modifies storage
    ensures Implements(storage.data, r, Spec.TryNewRelayEon(st, env, info))
  {
    var allowed := OnlyRole(storage, info, Relayer, st);
    if allowed.Fail? { return Err(allowed.error); }
    if env.height >= state.pausedSinceRelayer { return Err(ContractPaused); }
    if state.relayEon == U64_MAX { return Err(Panicked(EonOverflow)); }
    var newEon: u64 := state.relayEon + 1;
    ConfigWrite(storage, (s: State) => s.(relayEon := newEon), st);
    return Ok(Response(RelayEonStarted(newEon), []));
  }

  method TryDeposit(storage: Storage, info: Info, state: State, ghost st: Store) returns (r: StdResult<Response>)
    requires Represents(storage.data, st) && state == st.config
    modifies storage
    ensures Implements(storage.data, r, Spec.TryDeposit(st, info))
  {
    var allowed := OnlyRole(storage, info, Admin, st);
    if allowed.Fail? { return Err(allowed.error); }
    var amount :- AmountFromFunds(info.funds, state.denom);
    var increasedSupply :- PanickingAdd(state.supply, amount, SupplyOverflow);
    if increasedSupply > state.cap { return Err(CapExceeded); }
    ConfigWrite(storage, (s: State) => s.(supply := increasedSupply), st);
    return Ok(Response(Deposited(amount, info.sender), []));
  }

  /** The supply is already written when the destination can still turn out to be invalid. */
  method TryWithdraw(storage: Storage, env: Env, info: Info, state: State, amount: u128, target: Address,
                     ghost st: Store)
    returns (r: StdResult<Response>)
    requires Represents(storage.data, st) && state == st.config
    modifies storage
    ensures Implements(storage.data, r, Spec.TryWithdraw(st, env, info, amount, target))
  {
    var allowed := OnlyRole(storage, info, Admin, st);
    if allowed.Fail? { return Err(allowed.error); }
    if amount > state.supply { return Err(SupplyExceeded); }
    var newSupply: u128 := state.supply - amount;
    ConfigWrite(storage, (s: State) => s.(supply := newSupply), st);
    var recipient :- Resolve(env);
    return Ok(Response(Withdrawn(amount, target), [Send(recipient, state.denom, amount)]));
  }

  method TryWithdrawFees(storage: Storage, env: Env, info: Info, state: State, amount: u128, target: Address,
                         ghost st: Store)
    returns (r: StdResult<Response>)
    requires Represents(storage.data, st) && state == st.config
    modifies storage
    ensures Implements(storage.data, r, Spec.TryWithdrawFees(st, env, info, amount, target))
  {
    var allowed := OnlyRole(storage, info, Admin, st);
    if allowed.Fail? { return Err(allowed.error); }
    if amount > state.feesAccrued { return Err(SupplyExceeded); }
    var newFees: u128 := state.feesAccrued - amount;
    ConfigWrite(storage, (s: State) => s.(feesAccrued := newFees), st);
    var recipient :- Resolve(env);
    return Ok(Response(FeesWithdrawn(amount, target), [Send(recipient, state.denom, amount)]));
  }

  method TryMint(storage: Storage, info: Info, state: State, amount: u128, ghost st: Store)
    returns (r: StdResult<Response>)
    requires Represents(storage.data, st) && state == st.config
    modifies storage
    ensures Implements(storage.data, r, Spec.TryMint(st, info, amount))
  {
    var allowed := OnlyRole(storage, info, Admin, st);
    if allowed.Fail? { return Err(allowed.error); }
    var increasedSupply :- PanickingAdd(state.supply, amount, SupplyOverflow);
    if increasedSupply > state.cap { return Err(CapExceeded); }
    ConfigWrite(storage, (s: State) => s.(supply := increasedSupply), st);
    return Ok(Response(Minted(amount), [MintToContract(state.denom, amount)]));
  }

  method TryBurn(storage: Storage, info: Info, state: State, amount: u128, ghost st: Store)
    returns (r: StdResult<Response>)
    requires Represents(storage.data, st) && state == st.config
    modifies storage
    ensures Implements(storage.data, r, Spec.TryBurn(st, info, amount))
  {
    var allowed := OnlyRole(storage, info, Admin, st);
    if allowed.Fail? { return Err(allowed.error); }
    if amount > state.supply { return Err(SupplyExceeded); }
    var newSupply: u128 := state.supply - amount;
    ConfigWrite(storage, (s: State) => s.(supply := newSupply), st);
    return Ok(Response(Burned(amount), [BurnFromContract(state.denom, amount)]));
  }

  method TrySetCap(storage: Storage, info: Info, amount: u128, ghost st: Store) returns (r: StdResult<Response>)
    requires Represents(storage.data, st)
    modifies storage
    ensures Implements(storage.data, r, Spec.TrySetCap(st, info, amount))
  {
    var allowed := OnlyRole(storage, info, Admin, st);
    if allowed.Fail? { return Err(allowed.error); }
    ConfigWrite(storage, (s: State) => s.(cap := amount), st);
    return Ok(Response(CapSet(amount), []));
  }

  /** The approver's check is evaluated before it is known whether it is needed. */
  method TrySetAllowance(storage: Storage, info: Info, state: State, amount: u128, ghost st: Store)
    returns (r: StdResult<Response>)
    requires Represents(storage.data, st) && state == st.config
    modifies storage
    ensures Implements(storage.data, r, Spec.TrySetAllowance(st, info, amount))
  {
    var asAdmin := OnlyRole(storage, info, Admin, st);
    var asApprover := Fail(OnlyAdmin);
    if amount <= state.approverCap {
      asApprover := OnlyRole(storage, info, Approver, st);
    } else if asAdmin.Fail? {
      asApprover := asAdmin;
    }
    if asAdmin.Fail? && asApprover.Fail? { return Err(asApprover.error); }
    ConfigWrite(storage, (s: State) => s.(allowance := amount), st);
    return Ok(Response(AllowanceSet(amount), []));
  }

  method TrySetApproverCap(storage: Storage, info: Info, amount: u128, ghost st: Store)
    returns (r: StdResult<Response>)
    requires Represents(storage.data, st)
    modifies storage
    ensures Implements(storage.data, r, Spec.TrySetApproverCap(st, info, amount))
  {
    var allowed := OnlyRole(storage, info, Admin, st);
    if allowed.Fail? { return Err(allowed.error); }
    ConfigWrite(storage, (s: State) => s.(approverCap := amount), st);
    return Ok(Response(ApproverCapSet(amount), []));
  }

  method TrySetLimits(storage: Storage, info: Info, swapMin: u128, swapMax: u128, swapFee: u128, ghost st: Store)
    returns (r: StdResult<Response>)
    requires Represents(storage.data, st)
    modifies storage
    ensures Implements(storage.data, r, Spec.TrySetLimits(st, info, swapMin, swapMax, swapFee))
  {
    var allowed := OnlyRole(storage, info, Admin, st);
    if allowed.Fail? { return Err(allowed.error); }
    if swapMin <= swapFee || swapMin > swapMax { return Err(LimitsInconsistent); }
    ConfigWrite(storage, (s: State) =>
      s.(swapFee := swapFee, lowerSwapLimit := swapMin, upperSwapLimit := swapMax), st);
    return Ok(Response(LimitsSet(swapFee, swapMin, swapMax), []));
  }

  method TryGrantRole(storage: Storage, info: Info, role: string, address: Address, ghost st: Store)
    returns (r: StdResult<Response>)
    requires Represents(storage.data, st)
    modifies storage
    ensures Implements(storage.data, r, Spec.TryGrantRole(st, info, role, address))
  {
    var allowed := OnlyRole(storage, info, Admin, st);
    if allowed.Fail? { return Err(allowed.error); }
    var accessRole :- ParseRole(role);
    var _ :- AcAddRole(storage, address, accessRole, st);
    return Ok(Response(RoleGranted(role, address), []));
  }

  method TryRevokeRole(storage: Storage, info: Info, role: string, address: Address, ghost st: Store)
    returns (r: StdResult<Response>)
    requires Represents(storage.data, st)
    modifies storage
    ensures Implements(storage.data, r, Spec.TryRevokeRole(st, info, role, address))
  {
    var allowed := OnlyRole(storage, info, Admin, st);
    if allowed.Fail? { return Err(allowed.error); }
    var accessRole :- ParseRole(role);
    var _ :- AcRevokeRole(storage, address, accessRole, st);
    return Ok(Response(RoleRevoked(role, address), []));
  }

  method TryRenounceRole(storage: Storage, info: Info, role: string, ghost st: Store)
    returns (r: StdResult<Response>)
    requires Represents(storage.data, st)
    modifies storage
    ensures Implements(storage.data, r, Spec.TryRenounceRole(st, info, role))
  {
    var accessRole :- ParseRole(role);
    var have :- AcHaveRole(storage, info.sender, accessRole, st);
    if !have { return Err(DoesntHaveRole); }
    var _ := AcRevokeRole(storage, info.sender, accessRole, st);
    return Ok(Response(RoleRenounced(role, info.sender), []));
  }

  /** Loads the snapshot once and hands it to the handler. */
  method Execute(storage: Storage, env: Env, info: Info, msg: ExecuteMsg, ghost st: Store)
    returns (r: StdResult<Response>)
    requires Represents(storage.data, st)
    modifies storage
    ensures Implements(storage.data, r, Spec.Execute(st, env, info, msg))
  {
    var loaded := ConfigLoad(storage);
    var state := loaded.value;
    match msg {
      case Swap(destination) =>
        var amount :- AmountFromFunds(info.funds, state.denom);
        r := TrySwap(storage, env, state, amount, destination, st);
      case ReverseSwap(rid, to, sender, originTxHash, amount, relayEon) =>
        r := TryReverseSwap(storage, env, info, state, rid, to, sender, originTxHash, amount, relayEon, st);
      case Refund(id, to, amount, relayEon) =>
        r := TryRefundWithFee(storage, env, info, state, id, to, amount, relayEon, state.swapFee, st);
      case RefundInFull(id, to, amount, relayEon) =>
        r := TryRefundWithFee(storage, env, info, state, id, to, amount, relayEon, 0, st);
      case PausePublicApi(sinceBlock) => r := TryPausePublicApi(storage, env, info, sinceBlock, st);
      case PauseRelayerApi(sinceBlock) => r := TryPauseRelayerApi(storage, env, info, sinceBlock, st);
      case NewRelayEon => r := TryNewRelayEon(storage, env, info, state, st);
      case Deposit => r := TryDeposit(storage, info, state, st);
      case Withdraw(amount, target) => r := TryWithdraw(storage, env, info, state, amount, target, st);
      case WithdrawFees(amount, target) => r := TryWithdrawFees(storage, env, info, state, amount, target, st);
      case SetCap(amount) => r := TrySetCap(storage, info, amount, st);
      case SetAllowance(amount) => r := TrySetAllowance(storage, info, state, amount, st);
      case SetApproverCap(amount) => r := TrySetApproverCap(storage, info, amount, st);
      case SetLimits(swapMin, swapMax, swapFee) => r := TrySetLimits(storage, info, swapMin, swapMax, swapFee, st);
      case GrantRole(role, address) => r := TryGrantRole(storage, info, role, address, st);
      case RevokeRole(role, address) => r := TryRevokeRole(storage, info, role, address, st);
      case RenounceRole(role) => r := TryRenounceRole(storage, info, role, st);
      case Mint(amount) => r := TryMint(storage, info, state, amount, st);
      case Burn(amount) => r := TryBurn(storage, info, state, amount, st);
    }
  }

  /** The chain around the handler: one transaction on the bytes is one step of the abstract world,
      and a rejected one leaves every byte as it was. */
  method Transact(storage: Storage, bank: Ledger, height: nat, env: Env, info: Info, msg: ExecuteMsg, ghost w: World)
    returns (bank': Ledger, height': nat, event: Option<Event>)
    requires Represents(storage.data, w.store) && bank == w.bank && height == w.height
    modifies storage
    ensures var w' := Next(w, Call(env, info, msg));
      Represents(storage.data, w'.store) && bank' == w'.bank && height' == w'.height
    ensures event == if Accepted(w, Call(env, info, msg)) then Some(EventOf(w, Call(env, info, msg))) else None
    ensures event.None? ==> storage.data == old(storage.data)
  {
    var snapshot := storage.data;
    bank', height', event := bank, Max(height, env.height), None;
    var state := ConfigLoad(storage);
    if state.Err? || env.height < height || info.sender == state.value.contractAddr { return; }
    var contract, denom := state.value.contractAddr, state.value.denom;
    var credited := bank.Move(info.sender, contract, Attached(info.funds, denom));
    if credited.None? { return; }
    var response := Execute(storage, env, info, msg, w.store);
    if response.Ok? {
      var paid := Dispatch(credited.value, contract, denom, response.value.msgs);
      if paid.Some? && (env.bankAccepts || response.value.msgs == []) {
        return paid.value, env.height, Some(response.value.event);
      }
    }
    storage.data := snapshot;
  }

  /** Coins that move outside the contract. */
  method Outside(storage: Storage, bank: Ledger, a: Action, ghost w: World) returns (bank': Ledger)
    requires !a.Call? && Represents(storage.data, w.store) && bank == w.bank
    ensures Next(w, a) == w.(bank := bank')
  {
    var state := ConfigLoad(storage);
    var contract := state.value.contractAddr;
    var moved := match a
      case Transfer(from, to, amount) => if from == contract then None else bank.Move(from, to, amount)
      case IssueOutside(to, amount) => Some(bank.Issue(to, amount))
      case RetireOutside(from, amount) => if from == contract then None else bank.Retire(from, amount);
    return if moved.Some? then moved.value else bank;
  }

  /** Any history on the bytes is the run of the abstract world, and the events alone rebuild what the bytes
      stand for. */
  method Play(storage: Storage, bank: Ledger, height: nat, acts: seq<Action>, ghost w: World)
    returns (bank': Ledger, height': nat, events: seq<Event>)
    requires Represents(storage.data, w.store) && bank == w.bank && height == w.height
    modifies storage
    ensures var w' := Run(w, acts);
      Represents(storage.data, w'.store) && bank' == w'.bank && height' == w'.height && events == Events(w, acts)
    ensures var rebuilt := Replays.ReplayAll(w.store, events);
      rebuilt.Some? && Represents(storage.data, rebuilt.value)
    decreases |acts|
  {
    Replays.RunReplays(w, acts);
    if acts == [] { return bank, height, []; }
    bank', height', events := bank, height, [];
    match acts[0] {
      case Call(env, info, msg) =>
        var event;
        bank', height', event := Transact(storage, bank, height, env, info, msg, w);
        events := if event.Some? then [event.value] else [];
      case _ => bank' := Outside(storage, bank, acts[0], w);
    }
    var rest;
    bank', height', rest := Play(storage, bank', height', acts[1..], Next(w, acts[0]));
    events := events + rest;
  }
}
