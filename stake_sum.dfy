/** The sum of all accounts' stakes, which "total" is meant to equal. */
module StakeSum {
  import opened Avm
  import opened Ledger

  /** The sum of the stakes recorded in `m`. */
  ghost function SumOf(m: map<Address, Uint64>): int
    decreases |m|
  {
    if m == map[] then 0
    else
      var k :| k in m;
      m[k] + SumOf(m - {k})
  }

  /** The sum does not depend on which account is taken out first. */
  lemma {:induction false} SumOfRemove(m: map<Address, Uint64>, k: Address)
    requires k in m
    ensures SumOf(m) == m[k] + SumOf(m - {k})
    decreases |m|
  {
    var j :| j in m && SumOf(m) == m[j] + SumOf(m - {j});
    if j != k {
      SumOfRemove(m - {j}, k);
      SumOfRemove(m - {k}, j);
      assert m - {j} - {k} == m - {k} - {j};
    }
  }

  /** Setting one account's stake changes the sum by the difference. */
  lemma SumOfUpdate(m: map<Address, Uint64>, k: Address, v: Uint64)
    ensures SumOf(m[k := v]) == SumOf(m) - (if k in m then m[k] else 0) + v
  {
    SumOfRemove(m[k := v], k);
    assert m[k := v] - {k} == m - {k};
    if k in m {
      SumOfRemove(m, k);
    } else {
      assert m - {k} == m;
    }
  }
}
