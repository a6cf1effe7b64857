/** The total money held by a set of accounts: the sum of every balance in
    an id -> balance map. A transfer moves money between two accounts and
    must leave this total unchanged. */
module Balances {

  /** Some element of a non-empty set; always the same one for the same set. */
  ghost function Pick(s: set<int>): (k: int)
    requires s != {}
    ensures k in s
  {
    assert exists x :: x in s by {
      if forall x :: x !in s { assert false; }
    }
    var k :| k in s; k
  }

  ghost function Total(m: map<int, int>): int
    decreases |m.Keys|
  {
    if m.Keys == {} then 0
    else
      var k := Pick(m.Keys);
      assert (m - {k}).Keys == m.Keys - {k};
      m[k] + Total(m - {k})
  }

  /** Any account can be taken out first: the total is its balance plus the
      total of the others. */
  lemma {:induction false} TotalRemove(m: map<int, int>, k: int)
    requires k in m
    ensures Total(m) == m[k] + Total(m - {k})
    decreases |m.Keys|
  {
    var j := Pick(m.Keys);
    assert (m - {j}).Keys == m.Keys - {j};
    if j != k {
      assert (m - {k}).Keys == m.Keys - {k};
      TotalRemove(m - {j}, k);
      TotalRemove(m - {k}, j);
      assert m - {j} - {k} == m - {k} - {j};
    }
  }

  /** Setting one existing balance changes the total by exactly the change
      of that balance. */
  lemma {:induction false} TotalUpdate(m: map<int, int>, k: int, v: int)
    requires k in m
    ensures Total(m[k := v]) == Total(m) - m[k] + v
  {
    TotalRemove(m, k);
    TotalRemove(m[k := v], k);
    assert m[k := v] - {k} == m - {k};
  }
}
