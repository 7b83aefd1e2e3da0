/** Induction along a run, kept away from what the run is made of. */
module Induct {

  /** What holds at m and carries over from each point to the next holds at n. */
  lemma {:induction false} Carry(p: nat -> bool, m: nat, n: nat)
    requires m <= n && p(m) && forall k: nat, l: nat | m <= k < l <= n && l == k + 1 :: p(k) ==> p(l)
    ensures p(n)
    decreases n - m
  {
    if m < n { Carry(p, m + 1, n); }
  }

  ghost predicate LexBelow(a: (int, int, int), b: (int, int, int)) {
    a.0 < b.0 || (a.0 == b.0 && (a.1 < b.1 || (a.1 == b.1 && a.2 < b.2)))
  }

  /** A triple of naturals cannot fall for ever. */
  lemma {:induction false} FallStops(f: nat -> (int, int, int), n: nat) returns (last: nat)
    requires forall k: nat :: f(k).0 >= 0 && f(k).1 >= 0 && f(k).2 >= 0
    ensures !LexBelow(f(last + 1), f(last))
    decreases f(n).0, f(n).1, f(n).2
  {
    last := n;
    if LexBelow(f(n + 1), f(n)) { last := FallStops(f, n + 1); }
  }
}
