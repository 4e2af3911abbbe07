/** Runs of any machine, given by what an action makes of a state, or `None` if it is impossible. */
module Runs {
  import opened Basics

  ghost predicate Leads<S(!new), A(!new)>(next: (S, A) -> Option<S>, s: S, acts: seq<A>, s': S)
    decreases |acts|
  {
    if acts == [] then s == s' else
    next(s, acts[0]).Some? && Leads(next, next(s, acts[0]).value, acts[1..], s')
  }

  /** Runs can be joined. */
  lemma {:induction false} LeadsOn<S(!new), A(!new)>(next: (S, A) -> Option<S>,
                                                     s: S, acts: seq<A>, mid: S, more: seq<A>, s': S)
    requires Leads(next, s, acts, mid) && Leads(next, mid, more, s')
    ensures Leads(next, s, acts + more, s')
    decreases |acts|
  {
    if acts == [] {
      assert acts + more == more;
    } else {
      assert (acts + more)[1..] == acts[1..] + more;
      LeadsOn(next, next(s, acts[0]).value, acts[1..], mid, more, s');
    }
  }

  lemma LeadsOne<S(!new), A(!new)>(next: (S, A) -> Option<S>, s: S, a: A)
    requires next(s, a).Some?
    ensures Leads(next, s, [a], next(s, a).value)
  {
    assert [a][1..] == [];
  }
}
