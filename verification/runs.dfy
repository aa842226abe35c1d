/** Runs of a transition system, whatever its states and steps are. */
module Runs {

  /** `to` is `n` steps away from `from`. */
  ghost predicate Within<W(!new), A(!new)>(step: (W, A, W) -> bool, n: nat, from: W, to: W) {
    if n == 0 then from == to
    else exists w, a :: Within(step, n - 1, from, w) && step(w, a, to)
  }

  ghost predicate Leads<W(!new), A(!new)>(step: (W, A, W) -> bool, from: W, to: W) {
    exists n: nat :: Within(step, n, from, to)
  }

  lemma Here<W(!new), A(!new)>(step: (W, A, W) -> bool, w: W)
    ensures Leads(step, w, w)
  {
    assert Within(step, 0, w, w);
  }

  lemma Go<W(!new), A(!new)>(step: (W, A, W) -> bool, from: W, w: W, a: A, to: W)
    requires Leads(step, from, w) && step(w, a, to)
    ensures Leads(step, from, to)
  {
    var n: nat :| Within(step, n, from, w);
    assert Within(step, n + 1, from, to);
  }

  lemma {:induction false} Onward<W(!new), A(!new)>(step: (W, A, W) -> bool, from: W, w: W, n: nat, to: W)
    requires Leads(step, from, w) && Within(step, n, w, to)
    ensures Leads(step, from, to)
    decreases n
  {
    if n > 0 {
      var m, a :| Within(step, n - 1, w, m) && step(m, a, to);
      Onward(step, from, w, n - 1, m);
      Go(step, from, m, a, to);
    }
  }

  /** What every step keeps holds wherever a run leads. */
  lemma {:induction false} Holds<W(!new), A(!new)>(step: (W, A, W) -> bool, inv: W -> bool, from: W, n: nat, to: W)
    requires inv(from) && forall w, a, w' :: inv(w) && step(w, a, w') ==> inv(w')
    requires Within(step, n, from, to)
    ensures inv(to)
    decreases n
  {
    if n > 0 {
      var w, a :| Within(step, n - 1, from, w) && step(w, a, to);
      Holds(step, inv, from, n - 1, w);
    }
  }
}
