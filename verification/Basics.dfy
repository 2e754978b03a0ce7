/** Shared vocabulary. */
module Basics {
  datatype Option<+T> = None | Some(value: T)

  /** White space, as strings.TrimSpace and strings.Fields read it. */
  predicate IsSpace(c: char) {
    || c in " \t\n\r" || c == '\U{000B}' || c == '\U{000C}' || c == '\U{0085}' || c == '\U{00A0}' || c == '\U{1680}'
    || '\U{2000}' <= c <= '\U{200A}' || c == '\U{2028}' || c == '\U{2029}' || c == '\U{202F}' || c == '\U{205F}'
    || c == '\U{3000}'
  }

  /** Items taken in order, the first of them the i-th. */
  function FoldAt<S, T>(f: (S, nat, T) -> S, s: S, i: nat, xs: seq<T>): S {
    if xs == [] then s else f(FoldAt(f, s, i, xs[..|xs| - 1]), i + |xs| - 1, xs[|xs| - 1])
  }

  lemma FoldSnoc<S, T>(f: (S, nat, T) -> S, s: S, i: nat, xs: seq<T>, x: T)
    ensures FoldAt(f, s, i, xs + [x]) == f(FoldAt(f, s, i, xs), i + |xs|, x)
  {
    assert (xs + [x])[..|xs|] == xs;
  }

  lemma {:induction false} FoldConcat<S, T>(f: (S, nat, T) -> S, s: S, i: nat, a: seq<T>, b: seq<T>)
    ensures FoldAt(f, s, i, a + b) == FoldAt(f, FoldAt(f, s, i, a), i + |a|, b)
  {
    if b == [] {
      assert a + b == a;
    } else {
      var init := b[..|b| - 1];
      FoldConcat(f, s, i, a, init);
      assert (a + b)[..|a + b| - 1] == a + init;
    }
  }
}
