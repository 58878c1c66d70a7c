/** The recurrent model behind every backend: a state, one transition per token, and
    the fold of that transition over a token sequence. */
module Recurrence {

  /** The state reached from `s` by feeding `ids` one token at a time. */
  function Fold<S>(step: (S, int) -> S, s: S, ids: seq<int>): S
    decreases |ids|
  {
    if ids == [] then s else step(Fold(step, s, ids[..|ids| - 1]), ids[|ids| - 1])
  }

  /** Feeding two pieces in turn is feeding their concatenation. */
  lemma {:induction false} FoldConcat<S>(step: (S, int) -> S, s: S, a: seq<int>, b: seq<int>)
    ensures Fold(step, s, a + b) == Fold(step, Fold(step, s, a), b)
    decreases |b|
  {
    if b == [] {
      assert a + b == a;
    } else {
      var front := b[..|b| - 1];
      assert (a + b)[..|a + b| - 1] == a + front;
      FoldConcat(step, s, a, front);
    }
  }

  lemma FoldNone<S>(step: (S, int) -> S, s: S)
    ensures Fold(step, s, []) == s
  {
  }

  /** One more token is one more transition. */
  lemma FoldSnoc<S>(step: (S, int) -> S, s: S, a: seq<int>, t: int)
    ensures Fold(step, s, a + [t]) == step(Fold(step, s, a), t)
  {
    assert (a + [t])[..|a|] == a;
  }

  /** Lists one after another. */
  function Join<T>(lists: seq<seq<T>>): seq<T>
    decreases |lists|
  {
    if lists == [] then [] else lists[0] + Join(lists[1..])
  }

  lemma {:induction false} JoinConcat<T>(a: seq<seq<T>>, b: seq<seq<T>>)
    ensures Join(a + b) == Join(a) + Join(b)
    decreases |a|
  {
    if a == [] {
      assert a + b == b;
    } else {
      JoinConcat(a[1..], b);
      assert (a + b)[1..] == a[1..] + b;
    }
  }

  lemma JoinOne<T>(list: seq<T>)
    ensures Join([list]) == list && Join<T>([]) == []
  {
    assert [list][1..] == [];
    assert list + [] == list;
  }
}
