// Executions of several atomic steps, for any machine given by what it allows and
// what each step leads to.
module Chains {

  ghost predicate Chain<S(!new), L(!new)>(allowed: (S, L) -> bool, next: (S, L) -> S, s: S, steps: seq<L>, e: S)
    decreases |steps|
  {
    if steps == [] then e == s
    else allowed(s, steps[0]) && Chain(allowed, next, next(s, steps[0]), steps[1..], e)
  }

  lemma {:induction false} Join<S(!new), L(!new)>(allowed: (S, L) -> bool, next: (S, L) -> S,
                                                  s: S, a: seq<L>, m: S, b: seq<L>, e: S)
    requires Chain(allowed, next, s, a, m) && Chain(allowed, next, m, b, e)
    ensures Chain(allowed, next, s, a + b, e)
    decreases |a|
  {
    if a == [] {
      assert a + b == b;
    } else {
      Join(allowed, next, next(s, a[0]), a[1..], m, b, e);
      assert (a + b)[1..] == a[1..] + b;
    }
  }

  lemma Extend<S(!new), L(!new)>(allowed: (S, L) -> bool, next: (S, L) -> S, s: S, steps: seq<L>, m: S, st: L)
    requires Chain(allowed, next, s, steps, m) && allowed(m, st)
    ensures Chain(allowed, next, s, steps + [st], next(m, st))
  {
    assert [st][1..] == [];
    Join(allowed, next, s, steps, m, [st], next(m, st));
  }

  /** Where a list of steps leads. */
  ghost function Final<S(!new), L(!new)>(next: (S, L) -> S, s: S, steps: seq<L>): S
    decreases |steps|
  {
    if steps == [] then s else Final(next, next(s, steps[0]), steps[1..])
  }

  lemma {:induction false} ChainEnds<S(!new), L(!new)>(allowed: (S, L) -> bool, next: (S, L) -> S, s: S, steps: seq<L>, e: S)
    requires Chain(allowed, next, s, steps, e)
    ensures e == Final(next, s, steps)
    decreases |steps|
  {
    if steps != [] {
      ChainEnds(allowed, next, next(s, steps[0]), steps[1..], e);
    }
  }
}
