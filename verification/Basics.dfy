// Small shared vocabulary: optional values and the clamping used by the source.
module Basics {

  datatype Option<+T> = None | Some(value: T)

  function Min(a: int, b: int): int { if a <= b then a else b }

  function Max(a: int, b: int): int { if a <= b then b else a }

  function RealMax(a: real, b: real): real { if a <= b then b else a }

  function RealMin(a: real, b: real): real { if a <= b then a else b }

  /** The last n elements of a sequence (all of it when it is shorter). */
  function Tail<T>(s: seq<T>, n: nat): seq<T> {
    if |s| <= n then s else s[|s| - n..]
  }

  /** Taking one element of a set onto a list keeps what the two hold together. */
  lemma TakeOne<T>(taken: seq<T>, left: set<T>, all: set<T>, x: T)
    requires multiset(taken) + multiset(left) == multiset(all) && x in left
    ensures multiset(taken + [x]) + multiset(left - {x}) == multiset(all)
  {
    assert multiset(left) == multiset(left - {x}) + multiset{x};
  }
}
