/** Running machines with outputs over sequences, one after another or all together. */
module Machines {

  /** Feed `xs` to a machine one at a time: its outputs, and the state it ends in. */
  function Scan<X, Y, S>(step: (X, S) -> (Y, S), xs: seq<X>, s: S): (seq<Y>, S)
    decreases |xs|
  {
    if xs == [] then ([], s)
    else
      var (ys, mid) := Scan(step, xs[..|xs| - 1], s);
      var (y, end) := step(xs[|xs| - 1], mid);
      (ys + [y], end)
  }

  lemma {:induction false} ScanLength<X, Y, S>(step: (X, S) -> (Y, S), xs: seq<X>, s: S)
    ensures |Scan(step, xs, s).0| == |xs|
    decreases |xs|
  {
    if xs != [] { ScanLength(step, xs[..|xs| - 1], s); }
  }

  lemma ScanNext<X, Y, S>(step: (X, S) -> (Y, S), xs: seq<X>, x: X, s: S)
    ensures var (ys, mid), (y, end) := Scan(step, xs, s), step(x, Scan(step, xs, s).1);
      Scan(step, xs + [x], s) == (ys + [y], end)
  {
    assert (xs + [x])[..|xs|] == xs;
  }

  /** Any cut of the input gives the same outputs and the same final state. */
  lemma {:induction false} ScanConcat<X, Y, S>(step: (X, S) -> (Y, S), a: seq<X>, b: seq<X>, s: S)
    ensures var (ys, mid) := Scan(step, a, s);
      var (zs, end) := Scan(step, b, mid);
      Scan(step, a + b, s) == (ys + zs, end)
    decreases |b|
  {
    var (ys, mid) := Scan(step, a, s);
    if b == [] {
      assert a + b == a && ys + [] == ys;
    } else {
      var front, x := b[..|b| - 1], b[|b| - 1];
      ScanConcat(step, a, front, s);
      assert a + b == (a + front) + [x] && b == front + [x];
      ScanNext(step, a + front, x, s);
      ScanNext(step, front, x, mid);
      var (zs, at) := Scan(step, front, mid);
      var (z, end) := step(x, at);
      assert (ys + zs) + [z] == ys + (zs + [z]);
    }
  }

  /** Two machines in a row as one. */
  function Then<X, Y, Z, S, T>(f: (X, S) -> (Y, S), g: (Y, T) -> (Z, T)): (X, (S, T)) -> (Z, (S, T)) {
    (x: X, st: (S, T)) =>
      var (y, s) := f(x, st.0);
      var (z, t) := g(y, st.1);
      (z, (s, t))
  }

  /** Running the whole input through the first and then the whole of its output through the second is running
      both on one item at a time. */
  lemma {:induction false} ScanThen<X, Y, Z, S, T>(f: (X, S) -> (Y, S), g: (Y, T) -> (Z, T), xs: seq<X>, s: S, t: T)
    ensures var (ys, s') := Scan(f, xs, s);
      var (zs, t') := Scan(g, ys, t);
      Scan(Then(f, g), xs, (s, t)) == (zs, (s', t'))
    decreases |xs|
  {
    if xs != [] {
      var front, x := xs[..|xs| - 1], xs[|xs| - 1];
      ScanThen(f, g, front, s, t);
      assert xs == front + [x];
      var (ys, mid) := Scan(f, front, s);
      ScanNext(f, front, x, s);
      ScanNext(g, ys, f(x, mid).0, t);
      ScanNext(Then(f, g), front, x, (s, t));
    }
  }
}
