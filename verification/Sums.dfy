/** Sums over the threads of a finite table. */
module Sums {

  ghost function Total<T>(rank: T -> nat, m: map<nat, T>): nat
    decreases |m|
  {
    if m == map[] then 0 else
      var t :| t in m;
      rank(m[t]) + Total(rank, m - {t})
  }

  lemma {:induction false} TotalWithout<T>(rank: T -> nat, m: map<nat, T>, t: nat)
    requires t in m
    ensures Total(rank, m) == rank(m[t]) + Total(rank, m - {t})
    decreases |m|
  {
    var p :| p in m && Total(rank, m) == rank(m[p]) + Total(rank, m - {p});
    if p != t {
      TotalWithout(rank, m - {p}, t);
      TotalWithout(rank, m - {t}, p);
      assert m - {p} - {t} == m - {t} - {p};
    }
  }

  /** One thread changes. */
  lemma TotalMoved<T>(rank: T -> nat, m: map<nat, T>, m': map<nat, T>, t: nat)
    requires t in m && t in m' && m' - {t} == m - {t}
    ensures Total(rank, m') == Total(rank, m) - rank(m[t]) + rank(m'[t])
  {
    TotalWithout(rank, m, t);
    TotalWithout(rank, m', t);
  }

  /** One thread is added. */
  lemma TotalAdded<T>(rank: T -> nat, m: map<nat, T>, t: nat, u: T)
    requires t !in m
    ensures Total(rank, m[t := u]) == Total(rank, m) + rank(u)
  {
    TotalWithout(rank, m[t := u], t);
    assert m[t := u] - {t} == m;
  }

  /** Threads of rank zero do not count. */
  lemma {:induction false} TotalIgnores<T>(rank: T -> nat, m: map<nat, T>, extra: set<nat>)
    requires forall u :: u in m && u in extra ==> rank(m[u]) == 0
    ensures Total(rank, m) == Total(rank, m - extra)
    decreases |m|
  {
    if u :| u in m && u in extra {
      TotalWithout(rank, m, u);
      TotalIgnores(rank, m - {u}, extra);
      assert m - {u} - extra == m - extra;
    } else {
      assert m - extra == m;
    }
  }

  lemma {:induction false} TotalOrdered<T>(rank: T -> nat, rank': T -> nat, m: map<nat, T>)
    requires forall u :: u in m ==> rank(m[u]) <= rank'(m[u])
    ensures Total(rank, m) <= Total(rank', m)
    decreases |m|
  {
    if t :| t in m {
      TotalWithout(rank, m, t);
      TotalWithout(rank', m, t);
      TotalOrdered(rank, rank', m - {t});
    }
  }

  lemma NoneLeft<T>(rank: T -> nat, m: map<nat, T>, t: nat)
    requires Total(rank, m) == 0 && t in m
    ensures rank(m[t]) == 0
  {
    TotalWithout(rank, m, t);
  }

  lemma {:induction false} TotalOfNone<T>(rank: T -> nat, m: map<nat, T>)
    requires forall t :: t in m ==> rank(m[t]) == 0
    ensures Total(rank, m) == 0
    decreases |m|
  {
    if t :| t in m {
      TotalWithout(rank, m, t);
      TotalOfNone(rank, m - {t});
    }
  }
}
