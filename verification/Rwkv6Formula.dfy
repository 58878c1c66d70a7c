/** What an RWKV v6 attention layer computes, without states: head by head and entry by entry, over real numbers
    (converter/rwkv_src/rwkv_v6_modules.py:144-169). */
module Rwkv6Formula {
  import opened Machines
  import opened Rwkv6

  type Vec = seq<real>
  type Mat = seq<seq<real>>

  function At(v: Vec, i: nat): real { if i < |v| then v[i] else 0.0 }

  function Entry(m: Mat, i: nat, j: nat): real { if i < |m| then At(m[i], j) else 0.0 }

  function Times(x: real, y: real): real { x * y }

  /** d(s) * ... * d(t - 1): how much of what came in before `s` is left at `t`. */
  function Faded(d: nat -> real, s: nat, t: nat): real
    requires s <= t
  {
    if s == t then 1.0 else Faded(d, s, t - 1) * d(t - 1)
  }

  /** The first `n` inputs, each faded by all that came after it up to `t`. */
  function Past(d: nat -> real, input: nat -> real, t: nat, n: nat): real
    requires n <= t
  {
    if n == 0 then 0.0 else Past(d, input, t, n - 1) + Faded(d, n, t) * input(n - 1)
  }

  lemma {:induction false} PastFades(d: nat -> real, input: nat -> real, t: nat, n: nat)
    requires n <= t
    ensures Past(d, input, t + 1, n) == d(t) * Past(d, input, t, n)
  {
    if n > 0 {
      PastFades(d, input, t, n - 1);
      assert Faded(d, n, t + 1) == Faded(d, n, t) * d(t);
      Spread(d(t), Past(d, input, t, n - 1), Faded(d, n, t), input(n - 1));
    }
  }

  lemma Spread(d: real, past: real, faded: real, input: real)
    ensures d * past + (faded * d) * input == d * (past + faded * input)
  {
  }

  /** One entry of a head's matrix before row `t`. */
  function Kept(d: nat -> real, input: nat -> real, start: real, t: nat): real {
    Past(d, input, t, t) + Faded(d, 0, t) * start
  }

  lemma KeptNext(d: nat -> real, input: nat -> real, start: real, t: nat)
    ensures Kept(d, input, start, 0) == start
    ensures Kept(d, input, start, t + 1) == input(t) + d(t) * Kept(d, input, start, t)
  {
    PastFades(d, input, t, t);
    assert Faded(d, t + 1, t + 1) == 1.0;
    Spread(d(t), Past(d, input, t, t), Faded(d, 0, t), start);
  }

  /** A layer whose heads are real matrices of some size; `bonus` is what the current token counts extra. */
  datatype Layer<!V, !L> = Layer(
    size: nat,
    ln: V -> V,
    subtract: (V, V) -> V,
    lora: (V, V, nat) -> L,
    blend: (nat, L, V, V) -> V,
    receptance: (V, nat) -> Vec, key: (V, nat) -> Vec, value: (V, nat) -> Vec, decay: (V, nat) -> Vec, gate: V -> V,
    bonus: (nat, nat) -> real,
    finish: (V, seq<Vec>, V) -> V)
  {
    function Outer(k: Vec, v: Vec): Mat {
      seq(size, i requires 0 <= i => seq(size, j requires 0 <= j => At(k, i) * At(v, j)))
    }

    function First(h: nat, kv: Mat, m: Mat): Mat {
      seq(size, i requires 0 <= i => seq(size, j requires 0 <= j => bonus(h, i) * Entry(kv, i, j) + Entry(m, i, j)))
    }

    function Dot(r: Vec, m: Mat, j: nat, n: nat): real {
      if n == 0 then 0.0 else Dot(r, m, j, n - 1) + Times(At(r, n - 1), Entry(m, n - 1, j))
    }

    function Read(r: Vec, m: Mat): Vec { seq(size, j requires 0 <= j => Dot(r, m, j, size)) }

    function Next(kv: Mat, m: Mat, d: Vec): Mat {
      seq(size, i requires 0 <= i => seq(size, j requires 0 <= j => Entry(kv, i, j) + At(d, i) * Entry(m, i, j)))
    }

    function Heads(): Attention<V, L, Vec, Mat, Vec> {
      Rwkv6.Attention(ln, subtract, lora, blend, receptance, key, value, decay, gate,
        (k: Vec, v: Vec) => Outer(k, v), (h: nat, kv: Mat, m: Mat) => First(h, kv, m),
        (r: Vec, m: Mat) => Read(r, m), (kv: Mat, m: Mat, d: Vec) => Next(kv, m, d), finish)
    }

    /** The mixture of row `t`: 0 decay, 1 key, 2 value, 3 receptance, 4 gate. */
    function Mix(c: nat, x: seq<V>, carried: V, t: nat): V
      requires t < |x|
    {
      var a := ln(x[t]);
      var sx := subtract(if t == 0 then carried else ln(x[t - 1]), a);
      blend(c, lora(a, sx, c), a, sx)
    }

    function KeyAt(x: seq<V>, carried: V, h: nat, i: nat, t: nat): real {
      if t < |x| then At(key(Mix(1, x, carried, t), h), i) else 0.0
    }

    function ValueAt(x: seq<V>, carried: V, h: nat, j: nat, t: nat): real {
      if t < |x| then At(value(Mix(2, x, carried, t), h), j) else 0.0
    }

    function DecayAt(x: seq<V>, carried: V, h: nat, i: nat, t: nat): real {
      if t < |x| then At(decay(Mix(0, x, carried, t), h), i) else 0.0
    }

    function Decays(x: seq<V>, carried: V, h: nat, i: nat): nat -> real {
      (s: nat) => DecayAt(x, carried, h, i, s)
    }

    function Inputs(x: seq<V>, carried: V, h: nat, i: nat, j: nat): nat -> real {
      (s: nat) => KeyAt(x, carried, h, i, s) * ValueAt(x, carried, h, j, s)
    }

    /** Entry (i, j) of head `h` before row `t`: every earlier key times value, faded by the decays in between, and what
        is left of the state the layer was given. */
    function Memory(x: seq<V>, carried: V, state: seq<Mat>, h: nat, i: nat, j: nat, t: nat): real
      requires h < |state|
    {
      Kept(Decays(x, carried, h, i), Inputs(x, carried, h, i, j), Entry(state[h], i, j), t)
    }

    lemma MemoryNext(x: seq<V>, carried: V, state: seq<Mat>, h: nat, i: nat, j: nat, t: nat)
      requires h < |state|
      ensures Memory(x, carried, state, h, i, j, 0) == Entry(state[h], i, j)
      ensures Memory(x, carried, state, h, i, j, t + 1) ==
        Times(KeyAt(x, carried, h, i, t), ValueAt(x, carried, h, j, t)) +
        Times(DecayAt(x, carried, h, i, t), Memory(x, carried, state, h, i, j, t))
    {
      hide Kept, Entry, KeyAt, ValueAt, DecayAt;
      KeptNext(Decays(x, carried, h, i), Inputs(x, carried, h, i, j), Entry(state[h], i, j), t);
    }

    /** Entry `j` of what head `h` puts out in row `t`, summed over the first `n` entries of the receptance: the memory,
        and the current key times value with its bonus. */
    function Heard(x: seq<V>, carried: V, state: seq<Mat>, h: nat, j: nat, t: nat, n: nat): real
      requires h < |state| && t < |x|
    {
      if n == 0 then 0.0
      else
        var i := n - 1;
        Heard(x, carried, state, h, j, t, i) +
          Times(At(receptance(Mix(3, x, carried, t), h), i), Recalled(x, carried, state, h, i, j, t))
    }

    function Recalled(x: seq<V>, carried: V, state: seq<Mat>, h: nat, i: nat, j: nat, t: nat): real
      requires h < |state| && t < |x|
    {
      bonus(h, i) * (KeyAt(x, carried, h, i, t) * ValueAt(x, carried, h, j, t)) + Memory(x, carried, state, h, i, j, t)
    }

    /** What all heads put out in row `t`. */
    function HeardAll(x: seq<V>, carried: V, state: seq<Mat>, t: nat): seq<Vec>
      requires t < |x|
    {
      seq(|state|, h requires 0 <= h < |state| =>
        seq(size, j requires 0 <= j => Heard(x, carried, state, h, j, t, size)))
    }

    lemma NextEntry(k: Vec, v: Vec, m: Mat, d: Vec, i: nat, j: nat)
      requires i < size && j < size
      ensures Entry(Next(Outer(k, v), m, d), i, j) == Times(At(k, i), At(v, j)) + Times(At(d, i), Entry(m, i, j))
    {
    }

    lemma FirstEntry(h: nat, k: Vec, v: Vec, m: Mat, i: nat, j: nat)
      requires i < size && j < size
      ensures Entry(First(h, Outer(k, v), m), i, j) == bonus(h, i) * (At(k, i) * At(v, j)) + Entry(m, i, j)
    {
    }

    /** The rows a layer works on. */
    ghost predicate Rows(x: seq<V>, carried: V, a: seq<V>, sx: seq<V>) {
      x != [] && a == Heads().Normed(x) && |sx| == |a| && sx == Shifts(subtract, a, carried)
    }

    lemma MixIs(x: seq<V>, carried: V, a: seq<V>, sx: seq<V>, c: nat, t: nat)
      requires Rows(x, carried, a, sx) && t < |x|
      ensures Mix(c, x, carried, t) == Heads().Mixture(c, a[t], sx[t])
    {
    }

    /** The head matrices before row `t`. */
    ghost function Before(a: seq<V>, sx: seq<V>, state: seq<Mat>, t: nat): (s: seq<Mat>)
      requires |a| == |sx| && t <= |a|
      ensures |s| == |state|
    {
      Heads().StateAfter(a, sx, state, t)
    }

    lemma StateNext(x: seq<V>, carried: V, state: seq<Mat>, a: seq<V>, sx: seq<V>, h: nat, t: nat)
      requires Rows(x, carried, a, sx) && h < |state| && t < |x|
      ensures Before(a, sx, state, t + 1)[h] ==
        Next(Outer(key(Mix(1, x, carried, t), h), value(Mix(2, x, carried, t), h)),
             Before(a, sx, state, t)[h], decay(Mix(0, x, carried, t), h))
    {
      hide Next, Outer;
      MixIs(x, carried, a, sx, 0, t);
      MixIs(x, carried, a, sx, 1, t);
      MixIs(x, carried, a, sx, 2, t);
    }

    lemma NothingBefore(a: seq<V>, sx: seq<V>, state: seq<Mat>)
      requires |a| == |sx|
      ensures Before(a, sx, state, 0) == state
    {
    }

    lemma {:induction false} MemoryIs(x: seq<V>, carried: V, state: seq<Mat>, a: seq<V>, sx: seq<V>, h: nat, i: nat,
                                      j: nat, t: nat)
      requires Rows(x, carried, a, sx) && h < |state| && i < size && j < size && t <= |x|
      ensures Entry(Before(a, sx, state, t)[h], i, j) == Memory(x, carried, state, h, i, j, t)
      decreases t
    {
      hide Memory, Mix, Shifts, Before, Entry, Next, Outer, Times, At;
      if t == 0 {
        MemoryNext(x, carried, state, h, i, j, 0);
        NothingBefore(a, sx, state);
      } else {
        MemoryIs(x, carried, state, a, sx, h, i, j, t - 1);
        MemoryNext(x, carried, state, h, i, j, t - 1);
        StateNext(x, carried, state, a, sx, h, t - 1);
        NextEntry(key(Mix(1, x, carried, t - 1), h), value(Mix(2, x, carried, t - 1), h),
                  Before(a, sx, state, t - 1)[h], decay(Mix(0, x, carried, t - 1), h), i, j);
      }
    }

    lemma {:induction false} HeardIs(x: seq<V>, carried: V, state: seq<Mat>, a: seq<V>, sx: seq<V>, h: nat, j: nat,
                                     t: nat, n: nat, m: Mat)
      requires Rows(x, carried, a, sx) && h < |state| && j < size && t < |x| && n <= size
      requires m == First(h, Outer(key(Mix(1, x, carried, t), h), value(Mix(2, x, carried, t), h)),
                          Before(a, sx, state, t)[h])
      ensures Dot(receptance(Mix(3, x, carried, t), h), m, j, n) == Heard(x, carried, state, h, j, t, n)
      decreases n
    {
      hide Mix, Recalled, Outer, First, Before, Shifts, At, Entry, Times;
      if n > 0 {
        HeardIs(x, carried, state, a, sx, h, j, t, n - 1, m);
        RecalledIs(x, carried, state, a, sx, h, n - 1, j, t, m);
      }
    }

    lemma RecalledIs(x: seq<V>, carried: V, state: seq<Mat>, a: seq<V>, sx: seq<V>, h: nat, i: nat, j: nat, t: nat,
                     m: Mat)
      requires Rows(x, carried, a, sx) && h < |state| && i < size && j < size && t < |x|
      requires m == First(h, Outer(key(Mix(1, x, carried, t), h), value(Mix(2, x, carried, t), h)),
                          Before(a, sx, state, t)[h])
      ensures Entry(m, i, j) == Recalled(x, carried, state, h, i, j, t)
    {
      hide Mix, Memory, Outer, First, Before, Shifts, At, Entry;
      MemoryIs(x, carried, state, a, sx, h, i, j, t);
      FirstEntry(h, key(Mix(1, x, carried, t), h), value(Mix(2, x, carried, t), h),
                 Before(a, sx, state, t)[h], i, j);
    }

    lemma OutputsAre(x: seq<V>, carried: V, state: seq<Mat>, a: seq<V>, sx: seq<V>, t: nat)
      requires Rows(x, carried, a, sx) && t < |x|
      ensures Heads().Outputs(a, sx, state, t) == HeardAll(x, carried, state, t)
    {
      var got, meant := Heads().Outputs(a, sx, state, t), HeardAll(x, carried, state, t);
      forall h | 0 <= h < |state| ensures got[h] == meant[h] {
        forall j | 0 <= j < size ensures got[h][j] == meant[h][j] {
          MixIs(x, carried, a, sx, 1, t);
          MixIs(x, carried, a, sx, 2, t);
          MixIs(x, carried, a, sx, 3, t);
          HeardIs(x, carried, state, a, sx, h, j, t, size,
                  First(h, Outer(key(Mix(1, x, carried, t), h), value(Mix(2, x, carried, t), h)),
                        Heads().StateAfter(a, sx, state, t)[h]));
        }
      }
    }

    /** `Rwkv6SelfAttention.forward` on rows: each head of each row puts out the receptance times the sum of all earlier
        keys times values, each faded by the decays since, of what is left of the state given, and of the current key
        times value with its bonus; and the memory after the last row is handed on. */
    method Forward(x: seq<V>, carried: V, state: seq<Mat>) returns (out: seq<V>, shift: V, end: seq<Mat>)
      requires x != []
      ensures |out| == |x| && forall t :: 0 <= t < |x| ==>
        out[t] == finish(x[t], HeardAll(x, carried, state, t), gate(Mix(4, x, carried, t)))
      ensures shift == ln(x[|x| - 1]) && |end| == |state|
      ensures forall h, i, j :: 0 <= h < |state| && 0 <= i < size && 0 <= j < size ==>
        Entry(end[h], i, j) == Memory(x, carried, state, h, i, j, |x|)
    {
      hide Scan, HeardAll, Mix, Memory, Rows, Shifts, Heads, Entry;
      var l := Heads();
      out, shift, end := l.Forward(x, carried, state);
      ghost var a := l.Normed(x);
      ghost var sx := Shifts(subtract, a, carried);
      AreRows(x, carried);
      ghost var meant := TokensAre(x, carried, state, a, sx);
      forall h, i, j | 0 <= h < |state| && 0 <= i < size && 0 <= j < size
        ensures Entry(end[h], i, j) == Memory(x, carried, state, h, i, j, |x|)
      {
        MemoryIs(x, carried, state, a, sx, h, i, j, |x|);
      }
    }

    lemma TokensAre(x: seq<V>, carried: V, state: seq<Mat>, a: seq<V>, sx: seq<V>) returns (out: seq<V>)
      requires Rows(x, carried, a, sx)
      ensures Scan(Heads().Machine(), x, AttState(carried, state)) ==
        (out, AttState(ln(x[|x| - 1]), Heads().StateAfter(a, sx, state, |x|)))
      ensures |out| == |x| && forall t :: 0 <= t < |x| ==>
        out[t] == finish(x[t], HeardAll(x, carried, state, t), gate(Mix(4, x, carried, t)))
    {
      hide Scan, HeardAll, Mix, Shifts, Token;
      out := seq(|x|, t requires 0 <= t < |x| => Token(x, state, a, sx, t));
      forall t | 0 <= t < |x|
        ensures out[t] == finish(x[t], HeardAll(x, carried, state, t), gate(Mix(4, x, carried, t)))
      {
        TokenIs(x, carried, state, a, sx, t);
      }
      AreTokens(x, carried, state, a, sx, out);
    }

    ghost function Token(x: seq<V>, state: seq<Mat>, a: seq<V>, sx: seq<V>, t: nat): V
      requires |x| == |a| == |sx| && t < |x|
    {
      Heads().finish(x[t], Heads().Outputs(a, sx, state, t), Heads().gate(Heads().Mixture(4, a[t], sx[t])))
    }

    lemma TokenIs(x: seq<V>, carried: V, state: seq<Mat>, a: seq<V>, sx: seq<V>, t: nat)
      requires Rows(x, carried, a, sx) && t < |x|
      ensures Token(x, state, a, sx, t) ==
        finish(x[t], HeardAll(x, carried, state, t), gate(Mix(4, x, carried, t)))
    {
      OutputsAre(x, carried, state, a, sx, t);
      MixIs(x, carried, a, sx, 4, t);
      hide HeardAll, Mix, Shifts;
    }

    lemma AreTokens(x: seq<V>, carried: V, state: seq<Mat>, a: seq<V>, sx: seq<V>, out: seq<V>)
      requires Rows(x, carried, a, sx) && |out| == |x|
      requires forall t :: 0 <= t < |x| ==> out[t] == Token(x, state, a, sx, t)
      ensures Scan(Heads().Machine(), x, AttState(carried, state)) ==
        (out, AttState(ln(x[|x| - 1]), Heads().StateAfter(a, sx, state, |x|)))
    {
      hide Scan, Shifts, Outer, First, Next, Dot;
      Heads().AllRowsAreTokens(x, carried, state, a, sx, out);
    }

    lemma AreRows(x: seq<V>, carried: V)
      requires x != []
      ensures Rows(x, carried, Heads().Normed(x), Shifts(subtract, Heads().Normed(x), carried))
    {
    }
  }
}
