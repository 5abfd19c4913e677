/** Counting the threads of a system by what they are doing. */
module Threads {
  import opened Base

  /** The threads whose program counter satisfies p. */
  ghost function Where<P(!new)>(pcs: map<Tid, P>, p: P -> bool): set<Tid> {
    set t | t in pcs && p(pcs[t])
  }

  /** The two maps differ at most at t. */
  ghost predicate OnlyAt<P>(pcs: map<Tid, P>, pcs': map<Tid, P>, t: Tid) {
    pcs - {t} == pcs' - {t}
  }

  ghost function Tally(b: bool): nat {
    if b then 1 else 0
  }

  lemma OnlyAtElsewhere<P(!new)>(pcs: map<Tid, P>, pcs': map<Tid, P>, t: Tid, u: Tid)
    requires OnlyAt(pcs, pcs', t) && u != t
    ensures u in pcs <==> u in pcs'
    ensures u in pcs ==> pcs[u] == pcs'[u]
  {
    assert u in pcs <==> u in pcs - {t};
    assert u in pcs' <==> u in pcs' - {t};
    if u in pcs {
      assert (pcs - {t})[u] == (pcs' - {t})[u];
    }
  }

  /** When one thread moves, the count changes by that thread only. */
  lemma CountAfterMove<P(!new)>(pcs: map<Tid, P>, pcs': map<Tid, P>, t: Tid, p: P -> bool)
    requires OnlyAt(pcs, pcs', t)
    ensures |Where(pcs', p)| + Tally(t in pcs && p(pcs[t])) == |Where(pcs, p)| + Tally(t in pcs' && p(pcs'[t]))
  {
    forall u | u != t ensures u in Where(pcs, p) <==> u in Where(pcs', p) {
      OnlyAtElsewhere(pcs, pcs', t, u);
    }
    assert Where(pcs, p) - {t} == Where(pcs', p) - {t};
    assert |Where(pcs, p) - {t}| == |Where(pcs, p)| - Tally(t in Where(pcs, p));
    assert |Where(pcs', p) - {t}| == |Where(pcs', p)| - Tally(t in Where(pcs', p));
  }

  /** A count of zero says that nobody is there. */
  lemma NobodyThere<P(!new)>(pcs: map<Tid, P>, p: P -> bool)
    requires |Where(pcs, p)| == 0
    ensures forall t | t in pcs :: !p(pcs[t])
  {
    forall t | t in pcs ensures !p(pcs[t]) {
      assert t !in Where(pcs, p);
    }
  }
}
