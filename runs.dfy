/**
  The shape shared by the two loops of the pipeline, `download_files` and `handle_files`: one step
  per record, each step chosen by the record's position and the outside world's answers for it,
  applied in order to a state that carries the records and whatever the loop shares across them.
 */
module Runs {
  /** The state after the first `k` steps. */
  function Iterate<S>(start: S, steps: seq<S -> S>, k: nat): S
    requires k <= |steps|
  {
    if k == 0 then start else steps[k - 1](Iterate(start, steps, k - 1))
  }

  /** A property that every step from the `k`-th on keeps, and that holds after `k` steps, holds after any later step. */
  lemma {:induction false} IterateKeeps<S>(start: S, steps: seq<S -> S>, keep: S -> bool, k: nat, m: nat)
    requires k <= m <= |steps|
    requires forall i, s :: k <= i < m && keep(s) ==> keep(steps[i](s))
    requires keep(Iterate(start, steps, k))
    ensures keep(Iterate(start, steps, m))
  {
    if m > k {
      IterateKeeps(start, steps, keep, k, m - 1);
    }
  }

  /** A state that every later step leaves as it is is the final state. */
  lemma IterateSettles<S>(start: S, steps: seq<S -> S>, k: nat, m: nat)
    requires k <= m <= |steps|
    requires forall i :: k <= i < m ==> steps[i](Iterate(start, steps, k)) == Iterate(start, steps, k)
    ensures Iterate(start, steps, m) == Iterate(start, steps, k)
  {
    var settled := Iterate(start, steps, k);
    IterateKeeps(start, steps, s => s == settled, k, m);
  }
}
