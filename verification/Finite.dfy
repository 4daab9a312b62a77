/** Counting in finite sets, and taking keys out of maps. */
module Finite {

  /** The numbers below n. */
  function Upto(n: nat): (r: set<int>)
    ensures |r| == n && forall e :: e in r <==> 0 <= e < n
  {
    if n == 0 then {} else Upto(n - 1) + {n - 1}
  }

  lemma {:induction false} SubsetSize<T>(a: set<T>, b: set<T>)
    requires a <= b
    ensures |a| <= |b|
  {
    if |a| > 0 {
      var x :| x in a;
      SubsetSize(a - {x}, b - {x});
    }
  }

  lemma DropNone<K, V>(m: map<K, V>, all: set<K>)
    ensures m - (all - all) == m && all - {} == all
  {}

  lemma DropOneMore<K, V>(m: map<K, V>, all: set<K>, todo: set<K>, k: K)
    requires k in todo && todo <= all
    ensures m - (all - (todo - {k})) == m - (all - todo) - {k}
  {
    assert all - (todo - {k}) == (all - todo) + {k};
  }
}
