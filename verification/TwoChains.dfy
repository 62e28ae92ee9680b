/** Both contracts together, each on its own chain, with a relayer between them. The contracts themselves do
    not check that a reverse swap or a refund settles a swap that was made, once and for its amount: that is
    the relayer's part, stated here as a guard on its steps. */
module TwoChains {
  import opened Types
  import opened Ledgers
  import F = FetchSpec
  import FReplay = FetchReplay
  import FRuns = FetchRuns
  import S = FetchSolvency
  import E = EthSpec
  import EReplay = EthReplay
  import R = EthRuns

  /** A swap as its contract recorded it. */
  datatype Recorded = Recorded(id: u64, amount: nat, settled: bool)

  /** Both worlds, the swaps recorded on each, and the net amount admins added to the supplies. */
  datatype Joint = Joint(fetch: F.World, eth: E.World, fromFetch: seq<Recorded>, fromEth: seq<Recorded>, net: int)

  /** An action on one chain; `k` is the position of the swap that the action settles, if it settles one. */
  datatype Step = OnFetch(f: F.Action, k: nat) | OnEth(e: E.Action, k: nat)

  /** The amount of the swaps not yet settled. */
  function Pending(swaps: seq<Recorded>): nat
    decreases |swaps|
  {
    if swaps == [] then 0 else (if swaps[0].settled then 0 else swaps[0].amount) + Pending(swaps[1..])
  }

  lemma {:induction false} PendingAppend(swaps: seq<Recorded>, r: Recorded)
    ensures Pending(swaps + [r]) == Pending(swaps) + (if r.settled then 0 else r.amount)
    decreases |swaps|
  {
    if swaps != [] {
      PendingAppend(swaps[1..], r);
      assert (swaps + [r])[1..] == swaps[1..] + [r];
    }
  }

  /** Position `k` holds an open swap with this id and amount. */
  predicate Open(swaps: seq<Recorded>, k: nat, id: u64, amount: nat) {
    k < |swaps| && swaps[k] == Recorded(id, amount, false)
  }

  function Close(swaps: seq<Recorded>, k: nat): seq<Recorded> {
    if k < |swaps| then swaps[k := swaps[k].(settled := true)] else swaps
  }

  lemma {:induction false} PendingClose(swaps: seq<Recorded>, k: nat, id: u64, amount: nat)
    requires Open(swaps, k, id, amount)
    ensures Pending(Close(swaps, k)) == Pending(swaps) - amount
    decreases |swaps|
  {
    if k > 0 {
      PendingClose(swaps[1..], k - 1, id, amount);
      assert Close(swaps, k)[1..] == Close(swaps[1..], k - 1);
    } else {
      assert Close(swaps, k)[1..] == swaps[1..];
    }
  }

  // ---------- steps ----------

  /** The swaps that a log of `Bridge.sol` announces. */
  function LoggedSwaps(log: seq<E.Log>): seq<Recorded>
    decreases |log|
  {
    if log == [] then []
    else (if log[0].SwapLog? then [Recorded(log[0].id, log[0].amount, false)] else []) + LoggedSwaps(log[1..])
  }

  function NextOnFetch(j: Joint, a: F.Action, k: nat): Joint {
    var j' := j.(fetch := F.Next(j.fetch, a));
    if !F.Accepted(j.fetch, a) then j'
    else
      match F.EventOf(j.fetch, a)
      case Swapped(_, swapId, amount) => j'.(fromFetch := j.fromFetch + [Recorded(swapId, amount, false)])
      case ReverseSwapped(_, _, _, _, _, _, _) => j'.(fromEth := Close(j.fromEth, k))
      case Refunded(_, _, _, _) => j'.(fromFetch := Close(j.fromFetch, k))
      case Deposited(amount, _) => j'.(net := j.net + amount)
      case Minted(amount) => j'.(net := j.net + amount)
      case Withdrawn(amount, _) => j'.(net := j.net - amount)
      case Burned(amount) => j'.(net := j.net - amount)
      case _ => j'
  }

  function NextOnEth(j: Joint, a: E.Action, k: nat): Joint {
    var j' := j.(eth := E.Next(j.eth, a));
    if !E.Accepted(j.eth, a) then j'
    else
      match a.m
      case Swap(_, _) => j'.(fromEth := j.fromEth + LoggedSwaps(E.Step(j.eth, a).log))
      case ReverseSwap(_, _, _, _, _, _) => j'.(fromFetch := Close(j.fromFetch, k))
      case Refund(_, _, _, _) => j'.(fromEth := Close(j.fromEth, k))
      case RefundInFull(_, _, _, _) => j'.(fromEth := Close(j.fromEth, k))
      case Deposit(amount) => j'.(net := j.net + amount)
      case Mint(amount) => j'.(net := j.net + amount)
      case Withdraw(_, amount) => j'.(net := j.net - amount)
      case Burn(amount) => j'.(net := j.net - amount)
      case _ => j'
  }

  function Next(j: Joint, s: Step): Joint {
    match s
    case OnFetch(f, k) => NextOnFetch(j, f, k)
    case OnEth(e, k) => NextOnEth(j, e, k)
  }

  /** The relayer's part: an accepted settlement names an open swap by its id and its recorded amount, a
      reverse swap one of the other chain, a refund one of its own. */
  predicate Honest(j: Joint, s: Step) {
    match s
    case OnFetch(f, k) =>
      F.Accepted(j.fetch, f) ==>
        (match F.EventOf(j.fetch, f)
         case ReverseSwapped(_, rid, _, _, _, amount, swapFee) => Open(j.fromEth, k, rid, amount + swapFee)
         case Refunded(_, swapId, amount, refundFee) => Open(j.fromFetch, k, swapId, amount + refundFee)
         case _ => true)
    case OnEth(e, k) =>
      E.Accepted(j.eth, e) ==>
        (match e.m
         case ReverseSwap(rid, _, _, _, amount, _) => Open(j.fromFetch, k, rid, amount)
         case Refund(id, _, amount, _) => Open(j.fromEth, k, id, amount)
         case RefundInFull(id, _, amount, _) => Open(j.fromEth, k, id, amount)
         case _ => true)
  }

  function Run(j: Joint, steps: seq<Step>): Joint
    decreases |steps|
  {
    if steps == [] then j else Run(Next(j, steps[0]), steps[1..])
  }

  predicate HonestRun(j: Joint, steps: seq<Step>)
    decreases |steps|
  {
    steps == [] || (Honest(j, steps[0]) && HonestRun(Next(j, steps[0]), steps[1..]))
  }

  // ---------- each chain by itself ----------

  function FetchPart(steps: seq<Step>): seq<F.Action>
    decreases |steps|
  {
    if steps == [] then [] else (if steps[0].OnFetch? then [steps[0].f] else []) + FetchPart(steps[1..])
  }

  function EthPart(steps: seq<Step>): seq<E.Action>
    decreases |steps|
  {
    if steps == [] then [] else (if steps[0].OnEth? then [steps[0].e] else []) + EthPart(steps[1..])
  }

  lemma NextProjects(j: Joint, s: Step)
    ensures s.OnFetch? ==> Next(j, s).fetch == F.Next(j.fetch, s.f) && Next(j, s).eth == j.eth
    ensures s.OnEth? ==> Next(j, s).eth == E.Next(j.eth, s.e) && Next(j, s).fetch == j.fetch
  {
  }

  /** A joint run is a run of each chain, so what is proved about one contract holds within the pair. */
  lemma {:induction false} JointRunProjects(j: Joint, steps: seq<Step>)
    ensures Run(j, steps).fetch == F.Run(j.fetch, FetchPart(steps))
    ensures Run(j, steps).eth == E.Run(j.eth, EthPart(steps))
    decreases |steps|
  {
    if steps != [] {
      var fs, es := FetchPart(steps[1..]), EthPart(steps[1..]);
      NextProjects(j, steps[0]);
      JointRunProjects(Next(j, steps[0]), steps[1..]);
      match steps[0] {
        case OnFetch(f, _) => assert FetchPart(steps) == [f] + fs && ([f] + fs)[1..] == fs && EthPart(steps) == es;
        case OnEth(e, _) => assert EthPart(steps) == [e] + es && ([e] + es)[1..] == es && FetchPart(steps) == fs;
      }
    }
  }

  // ---------- conservation ----------

  /** What does not change: the supplies, less what is on its way and what admins added. */
  function Books(j: Joint): int {
    j.fetch.store.config.supply + j.eth.state.supply - Pending(j.fromFetch) - Pending(j.fromEth) - j.net
  }

  function FetchSupplyChange(e: F.Event): int {
    match e
    case Swapped(_, _, amount) => amount
    case Deposited(amount, _) => amount
    case Minted(amount) => amount
    case Withdrawn(amount, _) => 0 - amount
    case Burned(amount) => 0 - amount
    case _ => 0 - FRuns.Settled(e)
  }

  lemma FetchSupplyStep(w: F.World, a: F.Action)
    ensures F.Next(w, a).store.config.supply ==
            w.store.config.supply + (if F.Accepted(w, a) then FetchSupplyChange(F.EventOf(w, a)) else 0)
  {
    if F.Accepted(w, a) { FRuns.AcceptedReplays(w, a); } else { F.RejectedStep(w, a); }
  }

  function EthSupplyChange(m: E.Method): int {
    match m
    case Swap(amount, _) => amount
    case Deposit(amount) => amount
    case Mint(amount) => amount
    case Withdraw(_, amount) => 0 - amount
    case Burn(amount) => 0 - amount
    case ReverseSwap(_, _, _, _, amount, _) => 0 - amount
    case Refund(_, _, amount, _) => 0 - amount
    case RefundInFull(_, _, amount, _) => 0 - amount
    case _ => 0
  }

  lemma EthCallSupply(s: E.State, ctx: E.Context, m: E.Method)
    requires E.Execute(s, ctx, m).Ok?
    ensures E.Execute(s, ctx, m).value.state.supply == s.supply + EthSupplyChange(m)
  {
  }

  lemma EthSupplyStep(w: E.World, a: E.Action)
    ensures E.Next(w, a).state.supply ==
            w.state.supply + (if E.Accepted(w, a) then EthSupplyChange(a.m) else 0)
  {
    if E.Accepted(w, a) { EthCallSupply(w.state, a.ctx, a.m); }
  }

  lemma FetchStepConserves(j: Joint, a: F.Action, k: nat)
    requires Honest(j, OnFetch(a, k))
    ensures Books(NextOnFetch(j, a, k)) == Books(j)
  {
    FetchSupplyStep(j.fetch, a);
    if F.Accepted(j.fetch, a) {
      match F.EventOf(j.fetch, a)
      case Swapped(_, swapId, amount) => PendingAppend(j.fromFetch, Recorded(swapId, amount, false));
      case ReverseSwapped(_, rid, _, _, _, amount, swapFee) => PendingClose(j.fromEth, k, rid, amount + swapFee);
      case Refunded(_, swapId, amount, refundFee) => PendingClose(j.fromFetch, k, swapId, amount + refundFee);
      case _ =>
    }
  }

  lemma LoggedPair(l: E.Log, l': E.Log)
    requires !l.SwapLog? && l'.SwapLog?
    ensures LoggedSwaps([l, l']) == [Recorded(l'.id, l'.amount, false)]
  {
    assert [l, l'][1..] == [l'] && [l'][1..] == [];
    assert LoggedSwaps([l']) == [Recorded(l'.id, l'.amount, false)] + LoggedSwaps([]);
  }

  /** An accepted swap announces itself, under the next id. */
  lemma SwapLogged(w: E.World, a: E.Action)
    requires E.Accepted(w, a) && a.m.Swap?
    ensures LoggedSwaps(E.Step(w, a).log) == [Recorded(w.state.nextSwapId, a.m.amount, false)]
  {
    EReplay.CallReported(w.state, a.ctx, a.m);
    LoggedPair(E.Step(w, a).log[0], E.Step(w, a).log[1]);
  }

  lemma EthStepConserves(j: Joint, a: E.Action, k: nat)
    requires Honest(j, OnEth(a, k))
    ensures Books(NextOnEth(j, a, k)) == Books(j)
  {
    EthSupplyStep(j.eth, a);
    if E.Accepted(j.eth, a) {
      match a.m
      case Swap(amount, _) =>
        SwapLogged(j.eth, a);
        PendingAppend(j.fromEth, Recorded(j.eth.state.nextSwapId, amount, false));
      case ReverseSwap(rid, _, _, _, amount, _) => PendingClose(j.fromFetch, k, rid, amount);
      case Refund(id, _, amount, _) => PendingClose(j.fromEth, k, id, amount);
      case RefundInFull(id, _, amount, _) => PendingClose(j.fromEth, k, id, amount);
      case _ =>
    }
  }

  lemma {:induction false} BooksConstant(j: Joint, steps: seq<Step>)
    requires HonestRun(j, steps)
    ensures Books(Run(j, steps)) == Books(j)
    decreases |steps|
  {
    if steps != [] {
      match steps[0] {
        case OnFetch(f, k) => FetchStepConserves(j, f, k);
        case OnEth(e, k) => EthStepConserves(j, e, k);
      }
      BooksConstant(Next(j, steps[0]), steps[1..]);
    }
  }

  /** Two-chain conservation: over every run in which the relayer settles each recorded swap at most once and
      for its amount, the two supplies together are the initial ones, plus what admins added, plus the
      swaps under way. */
  lemma Conservation(j: Joint, steps: seq<Step>)
    requires HonestRun(j, steps) && j.fromFetch == [] && j.fromEth == [] && j.net == 0
    ensures var v := Run(j, steps);
      v.fetch.store.config.supply + v.eth.state.supply ==
      j.fetch.store.config.supply + j.eth.state.supply + v.net + Pending(v.fromFetch) + Pending(v.fromEth)
  {
    BooksConstant(j, steps);
  }

  lemma AllSettledMeansNothingPending(swaps: seq<Recorded>)
    requires forall r :: r in swaps ==> r.settled
    ensures Pending(swaps) == 0
    decreases |swaps|
  {
    if swaps != [] {
      AllSettledMeansNothingPending(swaps[1..]);
    }
  }

  /** When every swap has been settled, the supplies together are the initial ones up to what admins added. */
  lemma SettledRunsBalance(j: Joint, steps: seq<Step>)
    requires HonestRun(j, steps) && j.fromFetch == [] && j.fromEth == [] && j.net == 0
    requires forall r :: r in Run(j, steps).fromFetch + Run(j, steps).fromEth ==> r.settled
    ensures var v := Run(j, steps);
      v.fetch.store.config.supply + v.eth.state.supply - v.net ==
      j.fetch.store.config.supply + j.eth.state.supply
  {
    var v := Run(j, steps);
    Conservation(j, steps);
    AllSettledMeansNothingPending(v.fromFetch);
    AllSettledMeansNothingPending(v.fromEth);
  }

  // ---------- recorded ids ----------

  function Ids(swaps: seq<Recorded>): seq<u64>
    decreases |swaps|
  {
    if swaps == [] then [] else [swaps[0].id] + Ids(swaps[1..])
  }

  lemma {:induction false} IdsAppend(swaps: seq<Recorded>, swaps': seq<Recorded>)
    ensures Ids(swaps + swaps') == Ids(swaps) + Ids(swaps')
    decreases |swaps|
  {
    if swaps == [] {
      assert swaps + swaps' == swaps';
    } else {
      assert (swaps + swaps')[1..] == swaps[1..] + swaps';
      IdsAppend(swaps[1..], swaps');
    }
  }

  lemma {:induction false} IdsClose(swaps: seq<Recorded>, k: nat)
    ensures Ids(Close(swaps, k)) == Ids(swaps)
    decreases |swaps|
  {
    if k < |swaps| {
      if k == 0 {
        assert Close(swaps, k)[1..] == swaps[1..];
      } else {
        assert Close(swaps, k)[1..] == Close(swaps[1..], k - 1);
        IdsClose(swaps[1..], k - 1);
      }
    }
  }

  lemma {:induction false} IdsOfLogged(log: seq<E.Log>)
    ensures Ids(LoggedSwaps(log)) == EReplay.SwapIds(log)
    decreases |log|
  {
    if log != [] {
      IdsOfLogged(log[1..]);
      IdsAppend(if log[0].SwapLog? then [Recorded(log[0].id, log[0].amount, false)] else [], LoggedSwaps(log[1..]));
    }
  }

  /** The ids that a step announces on Fetch, and on Ethereum. */
  function NewOnFetch(j: Joint, s: Step): seq<u64> {
    if s.OnFetch? then FRuns.SwapIdOf(j.fetch, s.f) else []
  }

  function NewOnEth(j: Joint, s: Step): seq<u64> {
    if s.OnEth? then EReplay.SwapIds(E.Step(j.eth, s.e).log) else []
  }

  /** A step leaves a record alone, closes an entry, or appends what was announced. */
  lemma FetchStepRecords(j: Joint, a: F.Action, k: nat)
    ensures var j', swapped := NextOnFetch(j, a, k), NewOnFetch(j, OnFetch(a, k)) != [];
      && (swapped ==> j'.fromFetch == j.fromFetch + [Recorded(F.EventOf(j.fetch, a).swapId,
                                                              F.EventOf(j.fetch, a).amount, false)])
      && (!swapped ==> j'.fromFetch in {j.fromFetch, Close(j.fromFetch, k)})
      && j'.fromEth in {j.fromEth, Close(j.fromEth, k)}
  {
  }

  lemma FetchStepIds(j: Joint, a: F.Action, k: nat)
    ensures Ids(NextOnFetch(j, a, k).fromFetch) == Ids(j.fromFetch) + NewOnFetch(j, OnFetch(a, k))
    ensures Ids(NextOnFetch(j, a, k).fromEth) == Ids(j.fromEth)
  {
    FetchStepRecords(j, a, k);
    IdsClose(j.fromFetch, k);
    IdsClose(j.fromEth, k);
    if NewOnFetch(j, OnFetch(a, k)) == [] {
      assert Ids(j.fromFetch) + [] == Ids(j.fromFetch);
    } else {
      var e := F.EventOf(j.fetch, a);
      IdsAppend(j.fromFetch, [Recorded(e.swapId, e.amount, false)]);
    }
  }

  lemma EthStepRecords(j: Joint, a: E.Action, k: nat)
    ensures var j', swapped := NextOnEth(j, a, k), E.Accepted(j.eth, a) && a.m.Swap?;
      && (swapped ==> j'.fromEth == j.fromEth + LoggedSwaps(E.Step(j.eth, a).log))
      && (!swapped ==> j'.fromEth in {j.fromEth, Close(j.fromEth, k)})
      && j'.fromFetch in {j.fromFetch, Close(j.fromFetch, k)}
  {
  }

  lemma EthStepIds(j: Joint, a: E.Action, k: nat)
    ensures Ids(NextOnEth(j, a, k).fromEth) == Ids(j.fromEth) + NewOnEth(j, OnEth(a, k))
    ensures Ids(NextOnEth(j, a, k).fromFetch) == Ids(j.fromFetch)
  {
    var log := E.Step(j.eth, a).log;
    EthStepRecords(j, a, k);
    IdsClose(j.fromFetch, k);
    IdsClose(j.fromEth, k);
    EReplay.SwapIdStep(j.eth, a);
    if E.Accepted(j.eth, a) && a.m.Swap? {
      IdsAppend(j.fromEth, LoggedSwaps(log));
      IdsOfLogged(log);
    } else {
      assert Ids(j.fromEth) + [] == Ids(j.fromEth);
    }
  }

  lemma EmptyPrefix(s: seq<u64>)
    ensures [] + s == s && Ids([]) + s == s
  {
  }

  lemma PartsUnfold(steps: seq<Step>)
    requires steps != []
    ensures var fs, es := FetchPart(steps), EthPart(steps);
      && (steps[0].OnFetch? ==> fs != [] && fs[0] == steps[0].f && fs[1..] == FetchPart(steps[1..]))
      && (steps[0].OnEth? ==> es != [] && es[0] == steps[0].e && es[1..] == EthPart(steps[1..]))
      && (steps[0].OnFetch? ==> es == EthPart(steps[1..])) && (steps[0].OnEth? ==> fs == FetchPart(steps[1..]))
  {
  }

  lemma FetchAnnounces(j: Joint, steps: seq<Step>)
    requires steps != []
    ensures FRuns.SwapIds(F.Events(j.fetch, FetchPart(steps))) ==
            NewOnFetch(j, steps[0]) + FRuns.SwapIds(F.Events(Next(j, steps[0]).fetch, FetchPart(steps[1..])))
  {
    NextProjects(j, steps[0]);
    PartsUnfold(steps);
    if steps[0].OnFetch? {
      FRuns.SwapIdsUnfold(j.fetch, FetchPart(steps));
    } else {
      EmptyPrefix(FRuns.SwapIds(F.Events(j.fetch, FetchPart(steps))));
    }
  }

  lemma EthAnnounces(j: Joint, steps: seq<Step>)
    requires steps != []
    ensures EReplay.SwapIds(E.Logs(j.eth, EthPart(steps))) ==
            NewOnEth(j, steps[0]) + EReplay.SwapIds(E.Logs(Next(j, steps[0]).eth, EthPart(steps[1..])))
  {
    var es := EthPart(steps[1..]);
    NextProjects(j, steps[0]);
    PartsUnfold(steps);
    if steps[0].OnEth? {
      EReplay.SwapIdsAppend(E.Step(j.eth, steps[0].e).log, E.Logs(E.Next(j.eth, steps[0].e), es));
    } else {
      EmptyPrefix(EReplay.SwapIds(E.Logs(j.eth, es)));
    }
  }

  lemma StepIds(j: Joint, s: Step)
    ensures Ids(Next(j, s).fromFetch) == Ids(j.fromFetch) + NewOnFetch(j, s)
    ensures Ids(Next(j, s).fromEth) == Ids(j.fromEth) + NewOnEth(j, s)
  {
    match s {
      case OnFetch(f, k) => FetchStepIds(j, f, k);
      case OnEth(e, k) => EthStepIds(j, e, k);
    }
  }

  lemma Regroup(s: seq<u64>, t: seq<u64>, u: seq<u64>)
    ensures (s + t) + u == s + (t + u)
  {
  }

  /** What the relayer has on record are the swaps that the two chains announced, in order. */
  lemma {:induction false} RecordedAsAnnounced(j: Joint, steps: seq<Step>)
    ensures Ids(Run(j, steps).fromFetch) == Ids(j.fromFetch) + FRuns.SwapIds(F.Events(j.fetch, FetchPart(steps)))
    ensures Ids(Run(j, steps).fromEth) == Ids(j.fromEth) + EReplay.SwapIds(E.Logs(j.eth, EthPart(steps)))
    decreases |steps|
  {
    if steps == [] {
      assert FetchPart(steps) == [] && EthPart(steps) == [];
    } else {
      var j', rest := Next(j, steps[0]), steps[1..];
      var f, e := F.Events(j'.fetch, FetchPart(rest)), E.Logs(j'.eth, EthPart(rest));
      RecordedAsAnnounced(j', rest);
      StepIds(j, steps[0]);
      FetchAnnounces(j, steps);
      EthAnnounces(j, steps);
      Regroup(Ids(j.fromFetch), NewOnFetch(j, steps[0]), FRuns.SwapIds(f));
      Regroup(Ids(j.fromEth), NewOnEth(j, steps[0]), EReplay.SwapIds(e));
    }
  }

  lemma RecordedFromTheStart(j: Joint, steps: seq<Step>)
    requires j.fromFetch == [] && j.fromEth == []
    ensures Ids(Run(j, steps).fromFetch) == FRuns.SwapIds(F.Events(j.fetch, FetchPart(steps)))
    ensures Ids(Run(j, steps).fromEth) == EReplay.SwapIds(E.Logs(j.eth, EthPart(steps)))
  {
    RecordedAsAnnounced(j, steps);
    EmptyPrefix(FRuns.SwapIds(F.Events(j.fetch, FetchPart(steps))));
    EmptyPrefix(EReplay.SwapIds(E.Logs(j.eth, EthPart(steps))));
  }

  /** So the recorded ids count up on both sides from the first one: the k-th swap is on record under its own id. */
  lemma RecordedIdsCountUp(j: Joint, steps: seq<Step>)
    requires j.fromFetch == [] && j.fromEth == []
    ensures FRuns.CountsUp(Ids(Run(j, steps).fromFetch), j.fetch.store.config.nextSwapId)
    ensures EReplay.CountsUp(Ids(Run(j, steps).fromEth), j.eth.state.nextSwapId)
  {
    RecordedFromTheStart(j, steps);
    FRuns.SwapIdsCountUp(j.fetch, FetchPart(steps));
    EReplay.SwapIdsCountUp(j.eth, EthPart(steps));
  }

  // ---------- settling twice ----------

  /** A start with empty books and both invariants. */
  ghost predicate Fresh(j: Joint) {
    j.fromFetch == [] && j.fromEth == [] && j.net == 0 && S.Inv(j.fetch) && R.Inv(j.eth.state)
  }

  /** How far the books of `v` are from those of the start `j`; conservation says that they agree. */
  function Gap(j: Joint, v: Joint): int {
    Books(v) - Books(j)
  }

  /** A reverse swap that names a settled swap leaves the books short by its amount, if it is accepted. */
  lemma SecondSettlementBreaksBooks(j: Joint, a: E.Action, k: nat)
    requires a.Call? && a.m.ReverseSwap?
    requires k < |j.fromFetch| && j.fromFetch[k] == Recorded(a.m.rid, a.m.amount, true)
    ensures Books(NextOnEth(j, a, k)) == Books(j) - (if E.Accepted(j.eth, a) then a.m.amount else 0)
  {
    EthSupplyStep(j.eth, a);
    assert Close(j.fromFetch, k) == j.fromFetch;
  }

  /** The guard is the relayer's alone: on Ethereum the contract accepts a reverse swap that has just settled
      a swap a second time if and only if its allowance and its supply cover the amount again; and then the
      books of the pair miss the amount. */
  lemma SecondSettlementOnEth(j: Joint, steps: seq<Step>, a: E.Action, k: nat)
    requires Fresh(j) && HonestRun(j, steps + [OnEth(a, k)])
    requires E.Accepted(Run(j, steps).eth, a) && a.m.ReverseSwap?
    ensures var v := Run(j, steps + [OnEth(a, k)]); var s := v.eth.state;
      && k < |v.fromFetch| && v.fromFetch[k] == Recorded(a.m.rid, a.m.amount, true)
      && (E.Accepted(v.eth, a) <==> a.m.amount <= s.allowance && a.m.amount <= s.supply)
      && Gap(j, v) == 0
      && Gap(j, Next(v, OnEth(a, k))) == (if E.Accepted(v.eth, a) then 0 - a.m.amount else 0)
  {
    var u, v := Run(j, steps), Run(j, steps + [OnEth(a, k)]);
    RunLast(j, steps, OnEth(a, k));
    JointRunProjects(j, steps);
    R.Reconciliation(j.eth, EthPart(steps));
    R.RepeatedReverseSwapAccepted(u.eth, a);
    BooksConstant(j, steps + [OnEth(a, k)]);
    SecondSettlementBreaksBooks(v, a, k);
  }

  /** An accepted reverse swap reports its amount, split into payment and fee, and takes it from the supply. */
  lemma FetchReverseSwapStep(w: F.World, a: F.Action)
    requires F.Accepted(w, a) && a.msg.ReverseSwap?
    ensures var e := F.EventOf(w, a); e.ReverseSwapped? && e.rid == a.msg.rid && e.amount + e.swapFee == a.msg.amount
    ensures F.Next(w, a).store.config.supply == w.store.config.supply - a.msg.amount
  {
    F.AcceptedStep(w, a);
    FReplay.HandlerReported(w.store, a.env, a.info, a.msg);
    FetchSupplyStep(w, a);
  }

  /** The same on Fetch, where the sender must also own what it attaches. */
  lemma SecondSettlementOnFetch(j: Joint, steps: seq<Step>, a: F.Action, k: nat)
    requires Fresh(j) && HonestRun(j, steps + [OnFetch(a, k)]) && Run(j, steps).fetch.bank.total <= U128_MAX
    requires F.Accepted(Run(j, steps).fetch, a) && a.msg.ReverseSwap?
    ensures var v := Run(j, steps + [OnFetch(a, k)]); var c := v.fetch.store.config;
      && k < |v.fromEth| && v.fromEth[k] == Recorded(a.msg.rid, a.msg.amount, true)
      && (F.Accepted(v.fetch, a) <==>
            F.CreditFunds(v.fetch, a.info).Some? && a.msg.amount <= c.allowance && a.msg.amount <= c.supply)
      && Gap(j, v) == 0
      && Gap(j, Next(v, OnFetch(a, k))) == (if F.Accepted(v.fetch, a) then 0 - a.msg.amount else 0)
  {
    var u, v := Run(j, steps), Run(j, steps + [OnFetch(a, k)]);
    RunLast(j, steps, OnFetch(a, k));
    JointRunProjects(j, steps);
    S.Solvency(j.fetch, FetchPart(steps));
    FRuns.RepeatedReverseSwapAccepted(u.fetch, a);
    BooksConstant(j, steps + [OnFetch(a, k)]);
    FetchReverseSwapStep(u.fetch, a);
    assert Close(v.fromEth, k) == v.fromEth;
    if F.Accepted(v.fetch, a) { FetchReverseSwapStep(v.fetch, a); } else { FetchSupplyStep(v.fetch, a); }
  }

  lemma {:induction false} RunLast(j: Joint, steps: seq<Step>, s: Step)
    requires HonestRun(j, steps + [s])
    ensures Run(j, steps + [s]) == Next(Run(j, steps), s) && Honest(Run(j, steps), s) && HonestRun(j, steps)
    decreases |steps|
  {
    if steps == [] {
      assert steps + [s] == [s] && [s][1..] == [];
    } else {
      assert (steps + [s])[1..] == steps[1..] + [s];
      RunLast(Next(j, steps[0]), steps[1..], s);
    }
  }

  /** The shortest such run: one swap on Fetch, settled as the relayer should, and settled again. */
  lemma SwapSettledTwice(j: Joint, swap: F.Action, a: E.Action)
    requires Fresh(j) && F.Accepted(j.fetch, swap) && E.Accepted(j.eth, a) && a.m.ReverseSwap?
    requires var e := F.EventOf(j.fetch, swap); e.Swapped? && e.swapId == a.m.rid && e.amount == a.m.amount
    ensures var steps, s := [OnFetch(swap, 0), OnEth(a, 0)], j.eth.state; var v := Run(j, steps);
      && HonestRun(j, steps)
      && (E.Accepted(v.eth, a) <==> 2 * a.m.amount <= s.allowance && 2 * a.m.amount <= s.supply)
      && Gap(j, Next(v, OnEth(a, 0))) == (if E.Accepted(v.eth, a) then 0 - a.m.amount else 0)
  {
    var first, last := OnFetch(swap, 0), OnEth(a, 0);
    var u := Next(j, first);
    assert [first] + [last] == [first, last] && [first, last][1..] == [last] && [last][1..] == [] == [first][1..];
    assert u.eth == j.eth && Honest(u, last) && HonestRun(u, [last]) && Honest(j, first);
    RunLast(j, [first], last);
    SecondSettlementOnEth(j, [first], a, 0);
    EthSupplyStep(j.eth, a);
    R.SettlementStep(j.eth, a);
    R.ReverseSwapEffect(j.eth.state, a.ctx, a.m);
  }

  lemma ExampleSwap() returns (w: F.World, swap: F.Action)
    ensures S.Inv(w) && F.Accepted(w, swap) && F.EventOf(w, swap) == F.Swapped("", 0, 10)
  {
    SoleHolder([3], 10);
    var config := F.State(0, 0, 0, 0, 6, 10, 2, 20, 0, 100, 1, 9, 9, "afet", [1]);
    w := F.World(F.Store(config, {}, {}), Ledger(map[[3] := 10], 10), 0);
    swap := F.Call(F.Env(0, None, true), F.Info([3], [F.Coin("afet", 10)]), F.Swap(""));
  }

  lemma ExampleReverseSwap() returns (w: E.World, a: E.Action)
    ensures R.Inv(w.state) && E.Accepted(w, a) && w.state.supply == w.state.allowance == 20
    ensures a.m.ReverseSwap? && a.m.rid == 0 && a.m.amount == 10
  {
    SoleHolder([1], 20);
    var roles, token := {([2], Relayer)}, Ledger(map[[1] := 20], 20);
    w := E.World(E.State([1], token, 0, false, 20, 0, 5, map[], 10, 2, 100, 1, 9, 9, 20, 0, roles), 0);
    a := E.Call(E.Context([2], 0, true), E.ReverseSwap(0, [3], "", "", 10, 5));
  }

  /** It happens, with a swap of 10, an allowance of 20 and a supply of 20. */
  lemma SecondSettlementExample() returns (j: Joint, swap: F.Action, a: E.Action)
    ensures Fresh(j) && F.Accepted(j.fetch, swap) && E.Accepted(j.eth, a)
    ensures var steps := [OnFetch(swap, 0), OnEth(a, 0)];
      HonestRun(j, steps) && Gap(j, Next(Run(j, steps), OnEth(a, 0))) == -10
  {
    var fetch, swap' := ExampleSwap();
    var eth, a' := ExampleReverseSwap();
    j, swap, a := Joint(fetch, eth, [], [], 0), swap', a';
    SwapSettledTwice(j, swap, a);
  }
}
