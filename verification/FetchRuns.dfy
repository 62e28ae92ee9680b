/** Properties of whole runs of the CosmWasm contract: allowance, refunds, relay eons, pausing,
    the cap, and roles. */
module FetchRuns {
  import opened Types
  import opened Ledgers
  import opened FetchSpec
  import opened FetchSolvency
  import opened FetchReplay
  import Keys

  predicate AdminSent(w: World, a: Action) {
    a.Call? && HasRole(w.store, a.info.sender, Admin)
  }

  /** No call in the run is sent by an account that is an admin at that moment. */
  predicate NoAdminSent(w: World, acts: seq<Action>)
    decreases |acts|
  {
    acts == [] || (!AdminSent(w, acts[0]) && NoAdminSent(Next(w, acts[0]), acts[1..]))
  }

  // ---------- facts about one accepted call ----------

  /** What a sender without the admin role cannot do. */
  lemma HandlerWithoutAdmin(st: Store, env: Env, info: Info, msg: ExecuteMsg)
    requires Execute(st, env, info, msg).Ok? && !HasRole(st, info.sender, Admin)
    ensures var r := Execute(st, env, info, msg).value; var c, c', e := st.config, r.store.config, r.response.event;
      && c'.cap == c.cap && c'.approverCap == c.approverCap && c'.swapFee == c.swapFee
      && c'.lowerSwapLimit == c.lowerSwapLimit && c'.upperSwapLimit == c.upperSwapLimit
      && c.feesAccrued <= c'.feesAccrued
      && r.store.roles <= st.roles
      && (e.AllowanceSet? ==> e.amount <= c.approverCap)
      && (c'.pausedSincePublic != c.pausedSincePublic ==> c'.pausedSincePublic == env.height)
      && (c'.pausedSinceRelayer != c.pausedSinceRelayer ==> c'.pausedSinceRelayer == env.height)
  {
  }

  /** While both APIs are paused only an admin can touch what the bridge accounts for. */
  lemma HandlerWhilePaused(st: Store, env: Env, info: Info, msg: ExecuteMsg)
    requires Execute(st, env, info, msg).Ok? && !HasRole(st, info.sender, Admin)
    requires st.config.pausedSincePublic <= env.height && st.config.pausedSinceRelayer <= env.height
    ensures var st' := Execute(st, env, info, msg).value.store; SameAccounts(st, st')
  {
  }

  predicate SameAccounts(st: Store, st': Store) {
    && st'.config.supply == st.config.supply && st'.config.feesAccrued == st.config.feesAccrued
    && st'.config.nextSwapId == st.config.nextSwapId && st'.config.relayEon == st.config.relayEon
    && st'.refunds == st.refunds
  }

  /** No handler raises the supply above the cap in force. */
  lemma HandlerRespectsCap(st: Store, env: Env, info: Info, msg: ExecuteMsg)
    requires Execute(st, env, info, msg).Ok?
    ensures var c' := Execute(st, env, info, msg).value.store.config;
      c'.supply <= st.config.supply || (c'.supply <= st.config.cap && c'.cap == st.config.cap)
  {
  }

  /** What the emitted event says about the state the call was accepted in. */
  lemma HandlerGuards(st: Store, env: Env, info: Info, msg: ExecuteMsg)
    requires Execute(st, env, info, msg).Ok?
    ensures var e := Execute(st, env, info, msg).value.response.event;
      && (e.Refunded? ==> e.swapId !in st.refunds && e.swapId < st.config.nextSwapId)
      && (e.RelayEonStarted? ==> e.eon == st.config.relayEon + 1)
      && (e.Swapped? ==> e.swapId == st.config.nextSwapId)
      && (TagOf(msg).Some? ==> TagOf(msg).value == st.config.relayEon)
      && (e.RoleGranted? ==> msg.GrantRole? && msg.address == e.account && msg.role == e.role
                             && HasRole(st, info.sender, Admin))
  {
  }

  // ---------- aggregate allowance ----------

  /** The full amount a settlement took from the supply. */
  function Settled(e: Event): nat {
    match e
    case ReverseSwapped(_, _, _, _, _, amount, swapFee) => amount + swapFee
    case Refunded(_, _, amount, refundFee) => amount + refundFee
    case _ => 0
  }

  function TotalSettled(events: seq<Event>): nat
    decreases |events|
  {
    if events == [] then 0 else Settled(events[0]) + TotalSettled(events[1..])
  }

  function Resets(events: seq<Event>): nat
    decreases |events|
  {
    if events == [] then 0 else (if events[0].AllowanceSet? then 1 else 0) + Resets(events[1..])
  }

  /** Sum over the accepted allowance resets of the new value minus the value it replaced. */
  function ResetGain(w: World, acts: seq<Action>): int
    decreases |acts|
  {
    if acts == [] then 0
    else
      var e := if Accepted(w, acts[0]) then Some(EventOf(w, acts[0])) else None;
      var gain: int := if e.Some? && e.value.AllowanceSet? then e.value.amount - w.store.config.allowance else 0;
      gain + ResetGain(Next(w, acts[0]), acts[1..])
  }

  lemma EventsUnfold(w: World, acts: seq<Action>)
    requires acts != []
    ensures var rest := Events(Next(w, acts[0]), acts[1..]);
      && (Accepted(w, acts[0]) ==> Events(w, acts) == [EventOf(w, acts[0])] + rest
                                   && Events(w, acts)[1..] == rest)
      && (!Accepted(w, acts[0]) ==> Events(w, acts) == rest)
  {
  }

  lemma AcceptedReplays(w: World, a: Action)
    requires Accepted(w, a)
    ensures Replay(w.store, EventOf(w, a)) == Some(Next(w, a).store)
  {
    AcceptedStep(w, a);
    HandlerReplays(w.store, a.env, a.info, a.msg);
  }

  lemma AllowanceStep(w: World, a: Action)
    requires Accepted(w, a)
    ensures var e := EventOf(w, a); var c, c' := w.store.config, Next(w, a).store.config;
      && c'.allowance == (if e.AllowanceSet? then e.amount else c.allowance - Settled(e))
      && (e.AllowanceSet? ==> Settled(e) == 0)
      && (!AdminSent(w, a) ==> c'.approverCap == c.approverCap && (e.AllowanceSet? ==> e.amount <= c.approverCap))
  {
    AcceptedReplays(w, a);
    AcceptedStep(w, a);
    if !AdminSent(w, a) { HandlerWithoutAdmin(w.store, a.env, a.info, a.msg); }
  }

  /** Total settled by refunds and reverse swaps = initial allowance + resets - final allowance. */
  lemma {:induction false} AllowanceAccounting(w: World, acts: seq<Action>)
    ensures TotalSettled(Events(w, acts)) ==
            w.store.config.allowance + ResetGain(w, acts) - Run(w, acts).store.config.allowance
    decreases |acts|
  {
    if acts != [] {
      AllowanceAccounting(Next(w, acts[0]), acts[1..]);
      EventsUnfold(w, acts);
      if Accepted(w, acts[0]) { AllowanceStep(w, acts[0]); } else { RejectedStep(w, acts[0]); }
    }
  }

  lemma {:induction false} SettledWithinBudget(w: World, acts: seq<Action>)
    requires NoAdminSent(w, acts)
    ensures TotalSettled(Events(w, acts)) <=
            w.store.config.allowance + Times(Resets(Events(w, acts)), w.store.config.approverCap)
    decreases |acts|
  {
    if acts != [] {
      var w', events := Next(w, acts[0]), Events(w, acts);
      var rest := Events(w', acts[1..]);
      EventsUnfold(w, acts);
      SettledWithinBudget(w', acts[1..]);
      if Accepted(w, acts[0]) {
        var e := EventOf(w, acts[0]);
        AllowanceStep(w, acts[0]);
        assert TotalSettled(events) == Settled(e) + TotalSettled(rest);
        assert Resets(events) == (if e.AllowanceSet? then 1 else 0) + Resets(rest);
      } else {
        RejectedStep(w, acts[0]);
        assert events == rest;
      }
    }
  }

  /** Without admins every reset is an approver's, so n resets release at most n times the approver's cap. */
  lemma AllowanceBound(w: World, acts: seq<Action>)
    requires NoAdminSent(w, acts)
    ensures TotalSettled(Events(w, acts)) <=
            w.store.config.allowance + Resets(Events(w, acts)) * w.store.config.approverCap
  {
    SettledWithinBudget(w, acts);
    TimesIsProduct(Resets(Events(w, acts)), w.store.config.approverCap);
  }

  // ---------- refunds ----------

  function RefundIds(events: seq<Event>): seq<u64>
    decreases |events|
  {
    if events == [] then []
    else (if events[0].Refunded? then [events[0].swapId] else []) + RefundIds(events[1..])
  }

  function RefundIdOf(w: World, a: Action): seq<u64> {
    if Accepted(w, a) && EventOf(w, a).Refunded? then [EventOf(w, a).swapId] else []
  }

  lemma RefundIdsUnfold(w: World, acts: seq<Action>)
    requires acts != []
    ensures RefundIds(Events(w, acts)) == RefundIdOf(w, acts[0]) + RefundIds(Events(Next(w, acts[0]), acts[1..]))
  {
    var events, rest := Events(w, acts), Events(Next(w, acts[0]), acts[1..]);
    EventsUnfold(w, acts);
    if Accepted(w, acts[0]) {
      assert events[0] == EventOf(w, acts[0]) && events[1..] == rest;
    } else {
      assert events == rest;
    }
  }

  /** One step: a refund takes a fresh id of a swap already made, and nothing else touches the refund set. */
  lemma RefundStep(w: World, a: Action)
    ensures var ids, st, st' := RefundIdOf(w, a), w.store, Next(w, a).store;
      && st'.refunds == st.refunds + (set id | id in ids)
      && (forall id :: id in ids ==> id !in st.refunds)
  {
    if Accepted(w, a) {
      AcceptedReplays(w, a);
      AcceptedStep(w, a);
      HandlerGuards(w.store, a.env, a.info, a.msg);
    } else {
      RejectedStep(w, a);
    }
  }

  lemma {:induction false} RefundsDistinct(w: World, acts: seq<Action>)
    ensures var ids := RefundIds(Events(w, acts));
      && Distinct(ids)
      && (forall id :: id in ids ==> id !in w.store.refunds)
      && Run(w, acts).store.refunds == w.store.refunds + (set id | id in ids)
    decreases |acts|
  {
    if acts != [] {
      var w' := Next(w, acts[0]);
      RefundStep(w, acts[0]);
      RefundsDistinct(w', acts[1..]);
      RefundIdsUnfold(w, acts);
      var rest := RefundIds(Events(w', acts[1..]));
      if RefundIdOf(w, acts[0]) == [] {
        assert RefundIds(Events(w, acts)) == rest;
      } else {
        DistinctCons(RefundIdOf(w, acts[0])[0], rest);
      }
    }
  }

  /** A swap is refunded at most once over any run, by either kind of refund, and only a swap made
      before; the refund set is exactly the accepted ids. */
  lemma RefundAtMostOnce(w: World, acts: seq<Action>)
    requires Inv(w)
    ensures var ids := RefundIds(Events(w, acts)); var st := Run(w, acts).store;
      && Distinct(ids)
      && (forall id :: id in ids ==> id !in w.store.refunds && id < st.config.nextSwapId)
      && st.refunds == w.store.refunds + (set id | id in ids)
  {
    RefundsDistinct(w, acts);
    Solvency(w, acts);
  }

  // ---------- swap ids ----------

  /** The ids under which the events announce swaps. */
  function SwapIds(events: seq<Event>): seq<u64>
    decreases |events|
  {
    if events == [] then [] else (if events[0].Swapped? then [events[0].swapId] else []) + SwapIds(events[1..])
  }

  function SwapIdOf(w: World, a: Action): seq<u64> {
    if Accepted(w, a) && EventOf(w, a).Swapped? then [EventOf(w, a).swapId] else []
  }

  lemma SwapIdsUnfold(w: World, acts: seq<Action>)
    requires acts != []
    ensures SwapIds(Events(w, acts)) == SwapIdOf(w, acts[0]) + SwapIds(Events(Next(w, acts[0]), acts[1..]))
  {
    var events, rest := Events(w, acts), Events(Next(w, acts[0]), acts[1..]);
    EventsUnfold(w, acts);
    if Accepted(w, acts[0]) {
      assert events[0] == EventOf(w, acts[0]) && events[1..] == rest;
    } else {
      assert events == rest;
    }
  }

  lemma SwapIdStep(w: World, a: Action)
    ensures var ids, id, id' := SwapIdOf(w, a), w.store.config.nextSwapId, Next(w, a).store.config.nextSwapId;
      |ids| <= 1 && id' == id + |ids| && (|ids| == 1 ==> ids[0] == id)
  {
    if Accepted(w, a) {
      AcceptedReplays(w, a);
      AcceptedStep(w, a);
      HandlerGuards(w.store, a.env, a.info, a.msg);
    } else {
      RejectedStep(w, a);
    }
  }

  ghost predicate CountsUp(ids: seq<u64>, id: nat) {
    forall k :: 0 <= k < |ids| ==> ids[k] == id + k
  }

  /** The announced ids count up from the first one, without gaps. */
  lemma {:induction false} SwapIdsCountUp(w: World, acts: seq<Action>)
    ensures var ids := SwapIds(Events(w, acts));
      && CountsUp(ids, w.store.config.nextSwapId)
      && Run(w, acts).store.config.nextSwapId == w.store.config.nextSwapId + |ids|
    decreases |acts|
  {
    if acts != [] {
      SwapIdStep(w, acts[0]);
      SwapIdsCountUp(Next(w, acts[0]), acts[1..]);
      SwapIdsUnfold(w, acts);
    }
  }

  // ---------- reverse swaps ----------

  /** Nothing in the contract makes a reverse swap final: the same call is accepted once more if and only if
      the sender still has the coins it attaches, and what is left of the allowance and of the supply covers
      the amount again. */
  lemma RepeatedReverseSwapAccepted(w: World, a: Action)
    requires Inv(w) && w.bank.total <= U128_MAX && Accepted(w, a) && a.msg.ReverseSwap?
    ensures var w' := Next(w, a);
      Accepted(w', a) <==>
        && CreditFunds(w', a.info).Some?
        && a.msg.amount <= w'.store.config.allowance && a.msg.amount <= w'.store.config.supply
  {
    var w' := Next(w, a);
    NextKeepsInv(w, a);
    SettlementKeepsTotal(w, a);
    DeliveryFollowsHandler(w', a.env, a.info, a.msg);
    if CreditFunds(w', a.info).Some? { OwedWithinCirculation(w', a.info); }
  }

  // ---------- relay eons ----------

  /** The eon a relayer transaction says it belongs to. */
  function TagOf(msg: ExecuteMsg): Option<u64> {
    match msg
    case ReverseSwap(_, _, _, _, _, relayEon) => Some(relayEon)
    case Refund(_, _, _, relayEon) => Some(relayEon)
    case RefundInFull(_, _, _, relayEon) => Some(relayEon)
    case _ => None
  }

  function EonsStarted(events: seq<Event>): nat
    decreases |events|
  {
    if events == [] then 0 else (if events[0].RelayEonStarted? then 1 else 0) + EonsStarted(events[1..])
  }

  lemma EonStep(w: World, a: Action)
    ensures Next(w, a).store.config.relayEon ==
            w.store.config.relayEon + (if Accepted(w, a) && EventOf(w, a).RelayEonStarted? then 1 else 0)
  {
    if Accepted(w, a) {
      AcceptedReplays(w, a);
      AcceptedStep(w, a);
      HandlerGuards(w.store, a.env, a.info, a.msg);
    } else {
      RejectedStep(w, a);
    }
  }

  /** The eon is the number of accepted `NewRelayEon` so far. */
  lemma {:induction false} EonCounts(w: World, acts: seq<Action>)
    ensures Run(w, acts).store.config.relayEon == w.store.config.relayEon + EonsStarted(Events(w, acts))
    decreases |acts|
  {
    if acts != [] {
      EonStep(w, acts[0]);
      EonCounts(Next(w, acts[0]), acts[1..]);
      EventsUnfold(w, acts);
    }
  }

  /** The i-th action of the run is an accepted relayer transaction with this tag. */
  predicate TaggedAt(w: World, acts: seq<Action>, i: nat, tag: u64) {
    && i < |acts| && Accepted(Run(w, acts[..i]), acts[i])
    && TagOf(acts[i].msg) == Some(tag)
  }

  lemma TagCountsEons(w: World, acts: seq<Action>, i: nat, tag: u64)
    requires TaggedAt(w, acts, i, tag)
    ensures tag == w.store.config.relayEon + EonsStarted(Events(w, acts[..i]))
  {
    var v := Run(w, acts[..i]);
    AcceptedStep(v, acts[i]);
    HandlerGuards(v.store, acts[i].env, acts[i].info, acts[i].msg);
    EonCounts(w, acts[..i]);
  }

  /** Two accepted relayer transactions carry tags that differ by exactly the number of eons started
      between them: a transaction of an earlier eon is never accepted again. */
  lemma EonIsolation(w: World, acts: seq<Action>, i: nat, j: nat, tag: u64, tag': u64)
    requires i < j && TaggedAt(w, acts, i, tag) && TaggedAt(w, acts, j, tag')
    ensures tag' == tag + EonsStarted(Events(Run(w, acts[..i]), acts[i..j]))
  {
    TagCountsEons(w, acts, i, tag);
    TagCountsEons(w, acts, j, tag');
    EonCounts(w, acts[..i]);
    EonCounts(w, acts[..j]);
    EonCounts(Run(w, acts[..i]), acts[i..j]);
    RunSplits(w, acts[..j], i);
    assert acts[..j][..i] == acts[..i] && acts[..j][i..] == acts[i..j];
  }

  // ---------- pausing ----------

  predicate PublicPaused(w: World) {
    w.store.config.pausedSincePublic <= w.height
  }

  predicate RelayerPaused(w: World) {
    w.store.config.pausedSinceRelayer <= w.height
  }

  /** A paused API stays paused for as long as no admin acts, whatever monitors do. */
  lemma {:induction false} PauseAbsorbs(w: World, acts: seq<Action>)
    requires NoAdminSent(w, acts)
    ensures PublicPaused(w) ==> PublicPaused(Run(w, acts))
    ensures RelayerPaused(w) ==> RelayerPaused(Run(w, acts))
    decreases |acts|
  {
    if acts != [] {
      if Accepted(w, acts[0]) {
        AcceptedStep(w, acts[0]);
        HandlerWithoutAdmin(w.store, acts[0].env, acts[0].info, acts[0].msg);
      } else {
        RejectedStep(w, acts[0]);
      }
      PauseAbsorbs(Next(w, acts[0]), acts[1..]);
    }
  }

  /** With both APIs paused the accounts are frozen. */
  lemma {:induction false} PauseFreezesAccounts(w: World, acts: seq<Action>)
    requires NoAdminSent(w, acts) && PublicPaused(w) && RelayerPaused(w)
    ensures SameAccounts(w.store, Run(w, acts).store)
    decreases |acts|
  {
    if acts != [] {
      PauseAbsorbs(w, [acts[0]]);
      assert Run(w, [acts[0]]) == Next(w, acts[0]);
      if Accepted(w, acts[0]) {
        AcceptedStep(w, acts[0]);
        HandlerWhilePaused(w.store, acts[0].env, acts[0].info, acts[0].msg);
      } else {
        RejectedStep(w, acts[0]);
      }
      PauseFreezesAccounts(Next(w, acts[0]), acts[1..]);
    }
  }

  // ---------- the cap ----------

  /** The largest cap in force at any point of the run. */
  function LargestCap(w: World, acts: seq<Action>): nat
    decreases |acts|
  {
    if acts == [] then w.store.config.cap
    else Max(w.store.config.cap, LargestCap(Next(w, acts[0]), acts[1..]))
  }

  /** `SetCap` may undercut the supply, but the supply never passes the largest cap there has been. */
  lemma {:induction false} CapBound(w: World, acts: seq<Action>)
    ensures Run(w, acts).store.config.supply <= Max(w.store.config.supply, LargestCap(w, acts))
    decreases |acts|
  {
    if acts != [] {
      CapBound(Next(w, acts[0]), acts[1..]);
      NextRespectsCap(w, acts[0]);
    }
  }

  lemma NextRespectsCap(w: World, a: Action)
    ensures var c, c' := w.store.config, Next(w, a).store.config;
      c'.supply <= c.supply || (c'.supply <= c.cap && c'.cap == c.cap)
  {
    if Accepted(w, a) {
      AcceptedStep(w, a);
      HandlerRespectsCap(w.store, a.env, a.info, a.msg);
    } else {
      RejectedStep(w, a);
    }
  }

  // ---------- roles ----------

  /** The i-th action is an accepted grant of the role, sent by an account that was an admin then. */
  predicate GrantedAt(w: World, acts: seq<Action>, i: nat, account: Address, role: AccessRole) {
    && i < |acts| && Accepted(Run(w, acts[..i]), acts[i])
    && acts[i].msg.GrantRole? && acts[i].msg.address == account
    && Keys.RoleFromString(acts[i].msg.role) == Some(role)
    && HasRole(Run(w, acts[..i]).store, acts[i].info.sender, Admin)
  }

  lemma HandlerAddsRoleByGrant(st: Store, env: Env, info: Info, msg: ExecuteMsg, account: Address, role: AccessRole)
    requires Execute(st, env, info, msg).Ok?
    requires HasRole(Execute(st, env, info, msg).value.store, account, role) && !HasRole(st, account, role)
    ensures msg.GrantRole? && msg.address == account && Keys.RoleFromString(msg.role) == Some(role)
    ensures HasRole(st, info.sender, Admin)
  {
  }

  /** Every role held was held at the start or granted by an admin of the time. */
  lemma {:induction false} RoleProvenance(w: World, acts: seq<Action>, account: Address, role: AccessRole)
    requires HasRole(Run(w, acts).store, account, role)
    ensures HasRole(w.store, account, role) || exists i: nat :: GrantedAt(w, acts, i, account, role)
    decreases |acts|
  {
    if acts != [] {
      var w' := Next(w, acts[0]);
      RoleProvenance(w', acts[1..], account, role);
      if HasRole(w'.store, account, role) && !HasRole(w.store, account, role) {
        if Accepted(w, acts[0]) { AcceptedStep(w, acts[0]); } else { RejectedStep(w, acts[0]); }
        HandlerAddsRoleByGrant(w.store, acts[0].env, acts[0].info, acts[0].msg, account, role);
        assert acts[..0] == [];
        assert GrantedAt(w, acts, 0, account, role);
      } else if !HasRole(w.store, account, role) {
        var i: nat :| GrantedAt(w', acts[1..], i, account, role);
        assert acts[1..][..i] == acts[..i + 1][1..];
        assert GrantedAt(w, acts, i + 1, account, role);
      }
    }
  }

  ghost predicate NoAdmin(st: Store) {
    forall a :: !HasRole(st, a, Admin)
  }

  /** Once the last admin is gone none ever returns: roles only shrink, the parameters are frozen, and fees
      can only accumulate. */
  lemma {:induction false} NoAdminAbsorbs(w: World, acts: seq<Action>)
    requires NoAdmin(w.store)
    ensures var st, st' := w.store, Run(w, acts).store;
      && NoAdmin(st') && NoAdminSent(w, acts) && st'.roles <= st.roles
      && st'.config.cap == st.config.cap && st'.config.approverCap == st.config.approverCap
      && st'.config.swapFee == st.config.swapFee && st'.config.lowerSwapLimit == st.config.lowerSwapLimit
      && st'.config.upperSwapLimit == st.config.upperSwapLimit
      && st.config.feesAccrued <= st'.config.feesAccrued
    decreases |acts|
  {
    if acts != [] {
      if Accepted(w, acts[0]) {
        AcceptedStep(w, acts[0]);
        HandlerWithoutAdmin(w.store, acts[0].env, acts[0].info, acts[0].msg);
        assert forall a :: HasRole(Next(w, acts[0]).store, a, Admin) ==> HasRole(w.store, a, Admin);
      } else {
        RejectedStep(w, acts[0]);
      }
      NoAdminAbsorbs(Next(w, acts[0]), acts[1..]);
    }
  }

  // ---------- swap and refund ----------

  predicate LimitsUntouched(events: seq<Event>) {
    forall e :: e in events ==> !e.LimitsSet?
  }

  lemma FeeStep(w: World, a: Action)
    ensures (Accepted(w, a) && EventOf(w, a).LimitsSet?)
            || Next(w, a).store.config.swapFee == w.store.config.swapFee
  {
    if Accepted(w, a) { AcceptedReplays(w, a); } else { RejectedStep(w, a); }
  }

  lemma {:induction false} FeeStays(w: World, acts: seq<Action>)
    requires LimitsUntouched(Events(w, acts))
    ensures Run(w, acts).store.config.swapFee == w.store.config.swapFee
    decreases |acts|
  {
    if acts != [] {
      var rest := Events(Next(w, acts[0]), acts[1..]);
      EventsUnfold(w, acts);
      FeeStep(w, acts[0]);
      assert forall e :: e in rest ==> e in Events(w, acts);
      assert Accepted(w, acts[0]) ==> EventOf(w, acts[0]) in Events(w, acts);
      FeeStays(Next(w, acts[0]), acts[1..]);
    }
  }

  /** A fee-charging refund of a swap's amount always pays the user something: the amount less the
      fee of the time of the swap, unless the limits were reset meanwhile. */
  lemma RefundPaysAmountLessFee(w: World, swap: Action, acts: seq<Action>, refund: Action)
    requires Inv(w) && Accepted(w, swap) && swap.msg.Swap?
    requires LimitsUntouched(Events(Next(w, swap), acts))
    requires Accepted(Run(Next(w, swap), acts), refund) && refund.msg.Refund?
    requires refund.msg.amount == EventOf(w, swap).amount
    ensures var v := Run(Next(w, swap), acts); var paid := refund.msg.amount - w.store.config.swapFee;
      && 0 < paid
      && EventOf(v, refund) == Refunded(refund.msg.to, refund.msg.id, paid, w.store.config.swapFee)
      && refund.env.resolved.Some?
      && Execute(v.store, refund.env, refund.info, refund.msg).value.response.msgs ==
         [Send(refund.env.resolved.value, v.store.config.denom, paid)]
  {
    AcceptedStep(w, swap);
    FeeStays(Next(w, swap), acts);
    AcceptedStep(Run(Next(w, swap), acts), refund);
  }

  /** A swap that has just been made can be refunded in full: the supply covers it and its id is
      fresh, so only the relayer's own conditions remain. */
  lemma FreshSwapIsRefundable(w: World, swap: Action, refund: Action)
    requires Inv(w) && Accepted(w, swap) && swap.msg.Swap? && refund.Call? && refund.msg.RefundInFull?
    requires refund.msg.id == EventOf(w, swap).swapId && refund.msg.amount == EventOf(w, swap).amount
    requires refund.info.funds == [] && refund.info.sender != w.store.config.contractAddr
    requires swap.env.height <= refund.env.height
    ensures var c := w.store.config;
      Accepted(Next(w, swap), refund) <==>
        && OnlyRole(w.store, refund.info.sender, Relayer).Pass? && refund.msg.relayEon == c.relayEon
        && refund.env.height < c.pausedSinceRelayer && refund.msg.amount <= c.allowance
        && refund.env.resolved.Some? && refund.env.bankAccepts
  {
    var v := Next(w, swap);
    AcceptedStep(w, swap);
    NextKeepsInv(w, swap);
    assert EventOf(w, swap).swapId !in w.store.refunds;
    DeliveryFollowsHandler(v, refund.env, refund.info, refund.msg);
  }

  /** Swap and full refund to the same account undo each other: supply, fees and every balance are
      back, and what remains is the used-up allowance and the spent id. */
  lemma SwapThenFullRefundRestores(w: World, swap: Action, refund: Action)
    requires Inv(w) && Accepted(w, swap) && swap.msg.Swap?
    requires Accepted(Next(w, swap), refund) && refund.msg.RefundInFull? && refund.info.funds == []
    requires refund.msg.id == EventOf(w, swap).swapId && refund.msg.amount == EventOf(w, swap).amount
    requires refund.env.resolved == Some(swap.info.sender)
    requires Attached(swap.info.funds, w.store.config.denom) == EventOf(w, swap).amount
    ensures var c := w.store.config; var v := Next(Next(w, swap), refund);
      && v.store == Store(c.(nextSwapId := c.nextSwapId + 1, allowance := c.allowance - refund.msg.amount),
                          w.store.refunds + {c.nextSwapId}, w.store.roles)
      && (forall a :: v.bank.Balance(a) == w.bank.Balance(a))
      && v.bank.total == w.bank.total
  {
    var c := w.store.config;
    var w1 := Next(w, swap);
    AcceptedStep(w, swap);
    AcceptedStep(w1, refund);
    var amount := refund.msg.amount;
    MoveConserves(w.bank, swap.info.sender, c.contractAddr, amount);
    assert w1.bank == w.bank.Move(swap.info.sender, c.contractAddr, amount).value;
    assert CreditFunds(w1, refund.info) == Some(w1.bank);
    assert Execute(w1.store, refund.env, refund.info, refund.msg).value.response.msgs ==
           [Send(swap.info.sender, c.denom, amount)];
    MoveConserves(w1.bank, c.contractAddr, swap.info.sender, amount);
    DispatchOne(w1.bank, c.contractAddr, c.denom, Send(swap.info.sender, c.denom, amount));
    assert Next(w1, refund).bank == w1.bank.Move(c.contractAddr, swap.info.sender, amount).value;
  }
}
