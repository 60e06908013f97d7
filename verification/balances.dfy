/** Balances keyed by account, where an account never credited reads as zero,
    and the (ghost) total of all balances. */
module Balances {
  import opened Outcome

  /** The balance of `a`; a missing entry reads as 0. */
  function BalanceOf(m: map<Account, int>, a: Account): (r: int)
    ensures a !in m ==> r == 0
    ensures a in m ==> r == m[a]
  {
    if a in m then m[a] else 0
  }

  /** Adds `delta` (possibly negative) to `a`'s balance, writing its entry. */
  function Credit(m: map<Account, int>, a: Account, delta: int): (m': map<Account, int>)
    ensures m'.Keys == m.Keys + {a}
    ensures BalanceOf(m', a) == BalanceOf(m, a) + delta
    ensures forall b :: b != a ==> BalanceOf(m', b) == BalanceOf(m, b)
  {
    m[a := BalanceOf(m, a) + delta]
  }

  /** No account holds a negative balance. */
  ghost predicate NonNegative(m: map<Account, int>)
  {
    forall a :: a in m ==> m[a] >= 0
  }

  /** The sum of the balances of the accounts in `ks`. */
  ghost function SumOver(m: map<Account, int>, ks: set<Account>): int
    requires ks <= m.Keys
    decreases ks
  {
    if ks == {} then 0
    else
      var a :| a in ks;
      m[a] + SumOver(m, ks - {a})
  }

  /** The sum of all balances: the circulating supply. */
  ghost function Total(m: map<Account, int>): int
  {
    SumOver(m, m.Keys)
  }

  /** Any member of `ks` can be split off the sum, whichever one the
      definition happened to pick. */
  lemma {:induction false} SumOverSplit(m: map<Account, int>, ks: set<Account>, k: Account)
    requires ks <= m.Keys
    requires k in ks
    ensures SumOver(m, ks) == m[k] + SumOver(m, ks - {k})
    decreases ks
  {
    var a :| a in ks && SumOver(m, ks) == m[a] + SumOver(m, ks - {a});
    if a != k {
      SumOverSplit(m, ks - {a}, k);
      SumOverSplit(m, ks - {k}, a);
      assert ks - {a} - {k} == ks - {k} - {a};
    }
  }

  /** The sum over `ks` only depends on the balances of the accounts in `ks`. */
  lemma {:induction false} SumOverFrame(m: map<Account, int>, m': map<Account, int>, ks: set<Account>)
    requires ks <= m.Keys && ks <= m'.Keys
    requires forall a :: a in ks ==> m[a] == m'[a]
    ensures SumOver(m, ks) == SumOver(m', ks)
    decreases ks
  {
    if ks != {} {
      var a :| a in ks && SumOver(m, ks) == m[a] + SumOver(m, ks - {a});
      SumOverSplit(m', ks, a);
      SumOverFrame(m, m', ks - {a});
    }
  }

  /** Crediting one account moves the total by exactly the credited delta. */
  lemma TotalCredit(m: map<Account, int>, a: Account, delta: int)
    ensures Total(Credit(m, a, delta)) == Total(m) + delta
  {
    var m' := Credit(m, a, delta);
    var rest := m.Keys - {a};
    SumOverSplit(m', m'.Keys, a);
    assert m'.Keys - {a} == rest;
    SumOverFrame(m, m', rest);
    if a in m {
      SumOverSplit(m, m.Keys, a);
    } else {
      assert rest == m.Keys;
    }
  }
}
