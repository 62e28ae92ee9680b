/** A single-asset ledger: the bank module's balances of one denomination on Fetch, the ERC-20
    token on Ethereum. */
module Ledgers {
  import opened Types

  /** The sum of the values of a map. */
  ghost function MapSum<K>(m: map<K, nat>): nat {
    if m == map[] then 0 else
      var k :| k in m;
      m[k] + MapSum(m - {k})
  }

  /** The sum does not depend on the key that is taken out first. */
  lemma {:induction false} MapSumRemove<K>(m: map<K, nat>, k: K)
    requires k in m
    ensures MapSum(m) == m[k] + MapSum(m - {k})
    decreases |m|
  {
    var j :| j in m && MapSum(m) == m[j] + MapSum(m - {j});
    if j != k {
      MapSumRemove(m - {j}, k);
      MapSumRemove(m - {k}, j);
      assert m - {j} - {k} == m - {k} - {j};
    }
  }

  /** The value of a key, zero when it is absent. */
  function ValueOf<K>(m: map<K, nat>, k: K): nat {
    if k in m then m[k] else 0
  }

  /** Writing one key moves the sum by exactly the change of that key's value. */
  lemma MapSumUpdate<K>(m: map<K, nat>, k: K, v: nat)
    ensures MapSum(m[k := v]) == MapSum(m) - ValueOf(m, k) + v
  {
    var m' := m[k := v];
    MapSumRemove(m', k);
    if k in m {
      MapSumRemove(m, k);
    } else {
      assert m - {k} == m;
    }
    assert m' - {k} == m - {k};
  }

  datatype Ledger = Ledger(balances: map<Address, nat>, total: nat) {

    function Balance(a: Address): nat {
      ValueOf(balances, a)
    }

    ghost predicate Consistent() {
      MapSum(balances) == total
    }

    /** Moves tokens between two accounts; `None` when the payer's balance is too low. */
    function Move(from: Address, to: Address, amount: nat): Option<Ledger> {
      if Balance(from) < amount then None
      else if amount == 0 then Some(this)
      else
        var debited := balances[from := Balance(from) - amount];
        Some(this.(balances := debited[to := ValueOf(debited, to) + amount]))
    }

    function Issue(to: Address, amount: nat): Ledger {
      Ledger(balances[to := Balance(to) + amount], total + amount)
    }

    function Retire(from: Address, amount: nat): Option<Ledger> {
      if Balance(from) < amount || total < amount then None
      else Some(Ledger(balances[from := Balance(from) - amount], total - amount))
    }
  }

  lemma SoleHolder(a: Address, amount: nat)
    ensures Ledger(map[a := amount], amount).Consistent()
  {
    MapSumUpdate(map[], a, amount);
  }

  /** One account never holds more than what is in circulation. */
  lemma BalanceWithinTotal(l: Ledger, a: Address)
    requires l.Consistent()
    ensures l.Balance(a) <= l.total
  {
    if a in l.balances {
      MapSumRemove(l.balances, a);
    }
  }

  /** A transfer conserves the total and moves exactly the stated amount. */
  lemma MoveConserves(l: Ledger, from: Address, to: Address, amount: nat)
    requires l.Move(from, to, amount).Some?
    ensures var l' := l.Move(from, to, amount).value;
      && l'.total == l.total
      && (l.Consistent() ==> l'.Consistent())
      && (forall a ::
            l'.Balance(a) == l.Balance(a) - (if a == from then amount else 0) + (if a == to then amount else 0))
  {
    if amount > 0 {
      var debited := l.balances[from := l.Balance(from) - amount];
      MapSumUpdate(l.balances, from, l.Balance(from) - amount);
      MapSumUpdate(debited, to, ValueOf(debited, to) + amount);
    }
  }

  lemma IssueAdds(l: Ledger, to: Address, amount: nat)
    ensures var l' := l.Issue(to, amount);
      && l'.total == l.total + amount
      && (l.Consistent() ==> l'.Consistent())
      && (forall a :: l'.Balance(a) == l.Balance(a) + (if a == to then amount else 0))
  {
    MapSumUpdate(l.balances, to, l.Balance(to) + amount);
  }

  /** On a consistent ledger only the holder's balance limits a burn. */
  lemma RetireRemoves(l: Ledger, from: Address, amount: nat)
    requires l.Consistent() && amount <= l.Balance(from)
    ensures l.Retire(from, amount).Some?
    ensures var l' := l.Retire(from, amount).value;
      && l'.total == l.total - amount
      && l'.Consistent()
      && (forall a :: l'.Balance(a) == l.Balance(a) - (if a == from then amount else 0))
  {
    BalanceWithinTotal(l, from);
    MapSumUpdate(l.balances, from, l.Balance(from) - amount);
  }
}
