/** What several components share. */
module Common {
  datatype Option<+T> = None | Some(value: T)

  newtype Byte = x: int | 0 <= x < 256

  predicate IsSuffix<T(==)>(a: seq<T>, b: seq<T>) { |a| <= |b| && a == b[|b| - |a|..] }

  function Concat<T>(parts: seq<seq<T>>): seq<T> {
    if |parts| == 0 then [] else Concat(parts[..|parts| - 1]) + parts[|parts| - 1]
  }

  lemma ConcatSnoc<T>(parts: seq<seq<T>>, part: seq<T>)
    ensures Concat(parts + [part]) == Concat(parts) + part
  {
    assert (parts + [part])[..|parts|] == parts;
  }

  /** The state after all of `es`, one after the other; None if one of them cannot happen. */
  function Fold<S, E>(f: (S, E) -> Option<S>, s: S, es: seq<E>): Option<S> {
    if |es| == 0 then Some(s)
    else
      match Fold(f, s, es[..|es| - 1])
      case None => None
      case Some(before) => f(before, es[|es| - 1])
  }

  lemma {:induction false} FoldSplit<S, E>(f: (S, E) -> Option<S>, s: S, a: seq<E>, b: seq<E>)
    ensures Fold(f, s, a + b) == match Fold(f, s, a) case None => None case Some(mid) => Fold(f, mid, b)
  {
    if |b| == 0 {
      assert a + b == a;
    } else {
      assert (a + b)[..|a + b| - 1] == a + b[..|b| - 1];
      FoldSplit(f, s, a, b[..|b| - 1]);
    }
  }
}
