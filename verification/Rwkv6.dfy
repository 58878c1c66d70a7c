/** The attention and feed-forward modules of RWKV v6 (converter/rwkv_src/rwkv_v6_modules.py): one token at a
    time, and a whole sequence at once.  Rows, slices, head vectors, head matrices and head outputs are the
    abstract types V, L, P, M and W; whatever is applied to each of them separately is a function. */
module Rwkv6 {
  import opened Machines

  /** `view` and `transpose(0, 1)` on five slices for each of several rows. */
  function Transpose<L>(rows: seq<seq<L>>): (r: seq<seq<L>>)
    requires forall t :: 0 <= t < |rows| ==> |rows[t]| == 5
    ensures |r| == 5 && forall c :: 0 <= c < 5 ==>
      |r[c]| == |rows| && forall t :: 0 <= t < |rows| ==> r[c][t] == rows[t][c]
  {
    seq(5, c requires 0 <= c < 5 => seq(|rows|, t requires 0 <= t < |rows| => rows[t][c]))
  }

  /** `view(num_heads * seq_length, ...)`: the heads of all rows, one row after another. */
  function Flatten<P>(rows: seq<seq<P>>): seq<P>
    decreases |rows|
  {
    if rows == [] then [] else Flatten(rows[..|rows| - 1]) + rows[|rows| - 1]
  }

  /** Head `h` of row `t` in the flattened order. */
  lemma {:induction false} FlattenAt<P>(rows: seq<seq<P>>, heads: nat, t: nat, h: nat)
    requires forall i :: 0 <= i < |rows| ==> |rows[i]| == heads
    requires t < |rows| && h < heads
    ensures |Flatten(rows)| == |rows| * heads && t * heads + h < |rows| * heads
    ensures Flatten(rows)[t * heads + h] == rows[t][h]
    decreases |rows|
  {
    var n := |rows| - 1;
    FlattenLength(rows[..n], heads);
    assert |rows| * heads == n * heads + heads;
    if t < n {
      FlattenAt(rows[..n], heads, t, h);
    }
  }

  lemma {:induction false} FlattenLength<P>(rows: seq<seq<P>>, heads: nat)
    requires forall i :: 0 <= i < |rows| ==> |rows[i]| == heads
    ensures |Flatten(rows)| == |rows| * heads
    decreases |rows|
  {
    if rows != [] {
      FlattenLength(rows[..|rows| - 1], heads);
      assert |rows| * heads == (|rows| - 1) * heads + heads;
    }
  }

  lemma {:induction false} Fits(t: nat, n: nat, heads: nat)
    requires t < n
    ensures 0 <= t * heads && t * heads + heads <= n * heads
  {
    assert n * heads == (n - 1) * heads + heads;
    if t < n - 1 { Fits(t, n - 1, heads); }
  }

  /** Every row minus the one before it, the first minus the carried one (lines 112-118, 220-226). */
  function Shifts<V>(subtract: (V, V) -> V, a: seq<V>, carried: V): (sx: seq<V>)
    requires a != []
    ensures |sx| == |a|
    ensures forall t :: 0 <= t < |a| ==> sx[t] == subtract(if t == 0 then carried else a[t - 1], a[t])
  {
    if |a| == 1 then [subtract(carried, a[0])]
    else
      var past := [carried] + a[..|a| - 1];
      seq(|a|, t requires 0 <= t < |a| => subtract(past[t], a[t]))
  }

  /** The token-shift state and the head matrices an attention layer carries. */
  datatype AttState<V, M> = AttState(shift: V, wkv: seq<M>)

  /** What an attention layer applies to a row, to one of its five slices, or to one of its heads. */
  datatype Attention<!V, !L, !P, !M, !W> = Attention(
    ln: V -> V,
    subtract: (V, V) -> V,
    lora: (V, V, nat) -> L,
    blend: (nat, L, V, V) -> V,
    receptance: (V, nat) -> P, key: (V, nat) -> P, value: (V, nat) -> P, decay: (V, nat) -> P, gate: V -> V,
    outer: (P, P) -> M,
    first: (nat, M, M) -> M,
    read: (P, M) -> W,
    next: (M, M, P) -> M,
    finish: (V, seq<W>, V) -> V)
  {
    /** The `c`-th of the five mixtures (decay, key, value, receptance, gate) of one row. */
    function Mixture(c: nat, x: V, sx: V): V { blend(c, lora(x, sx, c), x, sx) }

    function Kv(h: nat, x: V, sx: V): M { outer(key(Mixture(1, x, sx), h), value(Mixture(2, x, sx), h)) }

    function Read(h: nat, x: V, sx: V, m: M): W {
      read(receptance(Mixture(3, x, sx), h), first(h, Kv(h, x, sx), m))
    }

    function Next(h: nat, x: V, sx: V, m: M): M { next(Kv(h, x, sx), m, decay(Mixture(0, x, sx), h)) }

    function ReadAll(x: V, sx: V, m: seq<M>): seq<W> {
      seq(|m|, h requires 0 <= h < |m| => Read(h, x, sx, m[h]))
    }

    function NextAll(x: V, sx: V, m: seq<M>): seq<M> {
      seq(|m|, h requires 0 <= h < |m| => Next(h, x, sx, m[h]))
    }

    /** One token through the layer, without any views. */
    function Token(x: V, s: AttState<V, M>): (V, AttState<V, M>) {
      var a := ln(x);
      var sx := subtract(s.shift, a);
      (finish(x, ReadAll(a, sx, s.wkv), gate(Mixture(4, a, sx))), AttState(a, NextAll(a, sx, s.wkv)))
    }

    function Machine(): (V, AttState<V, M>) -> (V, AttState<V, M>) {
      (x: V, s: AttState<V, M>) => Token(x, s)
    }

    function Normed(x: seq<V>): (a: seq<V>)
      ensures |a| == |x| && forall t :: 0 <= t < |x| ==> a[t] == ln(x[t])
    {
      seq(|x|, t requires 0 <= t < |x| => ln(x[t]))
    }

    /** The mixtures of all rows through one transposed batch (lines 120-129). */
    function Mixed(a: seq<V>, sx: seq<V>): (mixed: seq<seq<V>>)
      requires |a| == |sx|
      ensures |mixed| == 5 && forall c :: 0 <= c < 5 ==>
        |mixed[c]| == |a| && forall t :: 0 <= t < |a| ==> mixed[c][t] == Mixture(c, a[t], sx[t])
    {
      var rows := seq(|a|, t requires 0 <= t < |a| => seq(5, c requires 0 <= c < 5 => lora(a[t], sx[t], c)));
      var slices := Transpose(rows);
      seq(5, c requires 0 <= c < 5 =>
        seq(|a|, t requires 0 <= t < |a| => blend(c, slices[c][t], a[t], sx[t])))
    }

    /** One projection of all rows, cut into heads. */
    function Heads(f: (V, nat) -> P, rows: seq<V>, heads: nat): (r: seq<seq<P>>)
      ensures |r| == |rows| && forall t :: 0 <= t < |rows| ==>
        |r[t]| == heads && forall h :: 0 <= h < heads ==> r[t][h] == f(rows[t], h)
    {
      seq(|rows|, t requires 0 <= t < |rows| => seq(heads, h requires 0 <= h < heads => f(rows[t], h)))
    }

    /** All the products of keys and values in one batch of n * heads, cut into rows again (lines 152-155, 161). */
    function Products(keys: seq<seq<P>>, values: seq<seq<P>>, heads: nat): (kv: seq<seq<M>>)
      requires |keys| == |values|
      requires forall t :: 0 <= t < |keys| ==> |keys[t]| == |values[t]| == heads
      ensures |kv| == |keys| && forall t :: 0 <= t < |keys| ==>
        |kv[t]| == heads && forall h :: 0 <= h < heads ==> kv[t][h] == outer(keys[t][h], values[t][h])
    {
      FlattenLength(keys, heads);
      FlattenLength(values, heads);
      var ks, vs := Flatten(keys), Flatten(values);
      var batch := seq(|ks|, b requires 0 <= b < |ks| => outer(ks[b], vs[b]));
      Regrouped(keys, values, heads, batch);
      seq(|keys|, t requires 0 <= t < |keys| => batch[t * heads..t * heads + heads])
    }

    lemma Regrouped(keys: seq<seq<P>>, values: seq<seq<P>>, heads: nat, batch: seq<M>)
      requires |keys| == |values|
      requires forall t :: 0 <= t < |keys| ==> |keys[t]| == |values[t]| == heads
      requires |batch| == |Flatten(keys)| == |Flatten(values)| == |keys| * heads
      requires forall b :: 0 <= b < |batch| ==> batch[b] == outer(Flatten(keys)[b], Flatten(values)[b])
      ensures forall t :: 0 <= t < |keys| ==> 0 <= t * heads && t * heads + heads <= |batch|
      ensures forall t, h :: 0 <= t < |keys| && 0 <= h < heads ==>
        batch[t * heads..t * heads + heads][h] == outer(keys[t][h], values[t][h])
    {
      forall t | 0 <= t < |keys| ensures 0 <= t * heads && t * heads + heads <= |batch| {
        Fits(t, |keys|, heads);
      }
      forall t, h | 0 <= t < |keys| && 0 <= h < heads
        ensures batch[t * heads..t * heads + heads][h] == outer(keys[t][h], values[t][h])
      {
        RegroupedAt(keys, values, heads, batch, t, h, t * heads);
      }
    }

    lemma RegroupedAt(keys: seq<seq<P>>, values: seq<seq<P>>, heads: nat, batch: seq<M>, t: nat, h: nat, base: nat)
      requires |keys| == |values| && t < |keys| && h < heads && base == t * heads && base + heads <= |batch|
      requires forall t :: 0 <= t < |keys| ==> |keys[t]| == |values[t]| == heads
      requires |batch| == |Flatten(keys)| == |Flatten(values)|
      requires forall b :: 0 <= b < |batch| ==> batch[b] == outer(Flatten(keys)[b], Flatten(values)[b])
      ensures batch[base..base + heads][h] == outer(keys[t][h], values[t][h])
    {
      hide Flatten;
      FlattenAt(keys, heads, t, h);
      FlattenAt(values, heads, t, h);
      assert batch[base..base + heads][h] == batch[base + h];
    }

    /** The head matrices after the first `t` rows. */
    ghost function StateAfter(a: seq<V>, sx: seq<V>, state2: seq<M>, t: nat): (s: seq<M>)
      requires |a| == |sx| && t <= |a|
      ensures |s| == |state2|
    {
      if t == 0 then state2
      else NextAll(a[t - 1], sx[t - 1], StateAfter(a, sx, state2, t - 1))
    }

    /** The recurrence over the rows (lines 163-168): outputs are written in place, the state is replaced. */
    method Recur(kv: seq<seq<M>>, r: seq<seq<P>>, w: seq<seq<P>>, state: seq<M>, ghost a: seq<V>, ghost sx: seq<V>)
      returns (wkv: array<seq<W>>, end: seq<M>)
      requires |a| == |sx| == |kv| == |r| == |w|
      requires forall t :: 0 <= t < |a| ==> |kv[t]| == |r[t]| == |w[t]| == |state|
      requires forall t, h :: 0 <= t < |a| && 0 <= h < |state| ==>
        && kv[t][h] == Kv(h, a[t], sx[t]) && r[t][h] == receptance(Mixture(3, a[t], sx[t]), h)
        && w[t][h] == decay(Mixture(0, a[t], sx[t]), h)
      ensures fresh(wkv) && wkv.Length == |a| && end == StateAfter(a, sx, state, |a|)
      ensures forall t :: 0 <= t < |a| ==> wkv[t] == Outputs(a, sx, state, t)
    {
      var n, heads, state2 := |kv|, |state|, state;
      wkv := new seq<W>[n](_ => []);
      for i := 0 to n
        invariant state2 == StateAfter(a, sx, state, i)
        invariant forall t :: 0 <= t < i ==> wkv[t] == Outputs(a, sx, state, t)
      {
        var s := state2;
        wkv[i] := seq(heads, h requires 0 <= h < heads => read(r[i][h], first(h, kv[i][h], s[h])));
        state2 := seq(heads, h requires 0 <= h < heads => next(kv[i][h], s[h], w[i][h]));
        RowIs(kv[i], r[i], w[i], s, a[i], sx[i], wkv[i], state2);
      }
      end := state2;
    }

    /** One row of all heads is the heads of one token. */
    lemma RowIs(kv: seq<M>, r: seq<P>, w: seq<P>, s: seq<M>, a: V, sx: V, out: seq<W>, next': seq<M>)
      requires |kv| == |r| == |w| == |s| == |out| == |next'|
      requires forall h :: 0 <= h < |s| ==>
        && kv[h] == Kv(h, a, sx) && r[h] == receptance(Mixture(3, a, sx), h) && w[h] == decay(Mixture(0, a, sx), h)
      requires forall h :: 0 <= h < |s| ==>
        out[h] == read(r[h], first(h, kv[h], s[h])) && next'[h] == next(kv[h], s[h], w[h])
      ensures out == ReadAll(a, sx, s) && next' == NextAll(a, sx, s)
    {
    }

    /** What the heads of row `t` read. */
    ghost function Outputs(a: seq<V>, sx: seq<V>, state2: seq<M>, t: nat): seq<W>
      requires |a| == |sx| && t < |a|
    {
      ReadAll(a[t], sx[t], StateAfter(a, sx, state2, t))
    }

    /** Row by row, this is the machine of single tokens. */
    lemma {:induction false} RowsAreTokens(x: seq<V>, state1: V, state2: seq<M>, a: seq<V>, sx: seq<V>, out: seq<V>,
                                           t: nat)
      requires |x| == |out| == |a| && a == Normed(x) && t <= |x| && x != [] && sx == Shifts(subtract, a, state1)
      requires forall i :: 0 <= i < |x| ==>
        out[i] == finish(x[i], Outputs(a, sx, state2, i), gate(Mixture(4, a[i], sx[i])))
      ensures Scan(Machine(), x[..t], AttState(state1, state2)) ==
        (out[..t], AttState(if t == 0 then state1 else a[t - 1], StateAfter(a, sx, state2, t)))
    {
      hide Scan, Outputs, StateAfter, Shifts;
      if t == 0 {
        NoRows(a, sx, state1, state2);
        assert x[..0] == [] && out[..0] == [];
      } else {
        RowsAreTokens(x, state1, state2, a, sx, out, t - 1);
        assert x[..t] == x[..t - 1] + [x[t - 1]] && out[..t] == out[..t - 1] + [out[t - 1]];
        ScanNext(Machine(), x[..t - 1], x[t - 1], AttState(state1, state2));
        RowIsToken(x[t - 1], state1, state2, a, sx, t - 1);
      }
    }

    /** And so for the whole sequence. */
    lemma AllRowsAreTokens(x: seq<V>, state1: V, state2: seq<M>, a: seq<V>, sx: seq<V>, out: seq<V>)
      requires |x| == |out| == |a| && a == Normed(x) && x != [] && sx == Shifts(subtract, a, state1)
      requires forall i :: 0 <= i < |x| ==>
        out[i] == finish(x[i], Outputs(a, sx, state2, i), gate(Mixture(4, a[i], sx[i])))
      ensures Scan(Machine(), x, AttState(state1, state2)) ==
        (out, AttState(ln(x[|x| - 1]), StateAfter(a, sx, state2, |x|)))
    {
      hide Scan, Outputs, StateAfter, Shifts, Mixture;
      RowsAreTokens(x, state1, state2, a, sx, out, |x|);
      assert x[..|x|] == x && out[..|x|] == out;
    }

    lemma NoRows(a: seq<V>, sx: seq<V>, state1: V, state2: seq<M>)
      requires |a| == |sx|
      ensures Scan(Machine(), [], AttState(state1, state2)) == ([], AttState(state1, StateAfter(a, sx, state2, 0)))
    {
    }

    lemma RowIsToken(x: V, state1: V, state2: seq<M>, a: seq<V>, sx: seq<V>, t: nat)
      requires t < |a| && a[t] == ln(x) && sx == Shifts(subtract, a, state1)
      ensures Machine()(x, AttState(if t == 0 then state1 else a[t - 1], StateAfter(a, sx, state2, t))) ==
        (finish(x, Outputs(a, sx, state2, t), gate(Mixture(4, a[t], sx[t]))),
         AttState(a[t], StateAfter(a, sx, state2, t + 1)))
    {
      hide ReadAll, NextAll, Mixture;
      assert sx[t] == subtract(if t == 0 then state1 else a[t - 1], a[t]);
    }

    /** `Rwkv6SelfAttention.forward` (lines 107-178): the single-token branch and the sequence branch both give what
        one token at a time gives. */
    method Forward(x: seq<V>, state1: V, state2: seq<M>) returns (out: seq<V>, state1Out: V, state2Out: seq<M>)
      requires x != []
      ensures (out, AttState(state1Out, state2Out)) == Scan(Machine(), x, AttState(state1, state2))
    {
      hide Scan, StateAfter, Outputs, Shifts, Normed, Mixed, Heads, Products, Mixture, Kv;
      var n, heads := |x|, |state2|;
      var a := Normed(x);
      var sx := Shifts(subtract, a, state1);
      state1Out := a[n - 1];
      var mixed := Mixed(a, sx);
      var r, w := Heads(receptance, mixed[3], heads), Heads(decay, mixed[0], heads);
      var keys, values := Heads(key, mixed[1], heads), Heads(value, mixed[2], heads);
      var kv := Products(keys, values, heads);
      BatchIsKv(a, sx, mixed, keys, values, kv, heads);
      var wkv;
      if n == 1 {
        wkv, state2Out := Once(kv, r, w, state2, a, sx);
      } else {
        var buffer;
        buffer, state2Out := Recur(kv, r, w, state2, a, sx);
        wkv := buffer[..];
      }
      out := seq(n, t requires 0 <= t < n => finish(x[t], wkv[t], gate(mixed[4][t])));
      AllRowsAreTokens(x, state1, state2, a, sx, out);
    }

    lemma BatchIsKv(a: seq<V>, sx: seq<V>, mixed: seq<seq<V>>, keys: seq<seq<P>>, values: seq<seq<P>>, kv: seq<seq<M>>,
                    heads: nat)
      requires |a| == |sx| && mixed == Mixed(a, sx)
      requires keys == Heads(key, mixed[1], heads) && values == Heads(value, mixed[2], heads)
      requires kv == Products(keys, values, heads)
      ensures forall t, h :: 0 <= t < |a| && 0 <= h < heads ==> kv[t][h] == Kv(h, a[t], sx[t])
    {
    }

    /** The single-token recurrence (lines 156-159). */
    method Once(kv: seq<seq<M>>, r: seq<seq<P>>, w: seq<seq<P>>, state: seq<M>, ghost a: seq<V>, ghost sx: seq<V>)
      returns (wkv: seq<seq<W>>, end: seq<M>)
      requires |a| == |sx| == |kv| == |r| == |w| == 1
      requires |kv[0]| == |r[0]| == |w[0]| == |state|
      requires forall h :: 0 <= h < |state| ==>
        && kv[0][h] == Kv(h, a[0], sx[0]) && r[0][h] == receptance(Mixture(3, a[0], sx[0]), h)
        && w[0][h] == decay(Mixture(0, a[0], sx[0]), h)
      ensures end == StateAfter(a, sx, state, 1) && wkv == [Outputs(a, sx, state, 0)]
    {
      var heads := |state|;
      wkv := [seq(heads, h requires 0 <= h < heads => read(r[0][h], first(h, kv[0][h], state[h])))];
      end := seq(heads, h requires 0 <= h < heads => next(kv[0][h], state[h], w[0][h]));
      RowIs(kv[0], r[0], w[0], state, a[0], sx[0], wkv[0], end);
    }
  }

  /** What a feed-forward layer applies to a row. */
  datatype FeedForward<!V> = FeedForward(
    ln: V -> V,
    subtract: (V, V) -> V,
    mixKey: (V, V) -> V, mixReceptance: (V, V) -> V,
    value: V -> V,
    receptance: V -> V,
    add: (V, V, V) -> V)
  {
    function Row(x: V, a: V, sx: V): V { add(receptance(mixReceptance(a, sx)), value(mixKey(a, sx)), x) }

    function Token(x: V, s: V): (V, V) {
      var a := ln(x);
      (Row(x, a, subtract(s, a)), a)
    }

    function Machine(): (V, V) -> (V, V) {
      (x: V, s: V) => Token(x, s)
    }

    /** `Rwkv6FeedForward.forward` (lines 215-235), both branches. */
    method Forward(x: seq<V>, state: V) returns (out: seq<V>, stateOut: V)
      requires x != []
      ensures (out, stateOut) == Scan(Machine(), x, state)
      // row by row: the gated value of the mixed keys, on top of the row itself
      ensures |out| == |x| && stateOut == ln(x[|x| - 1])
      ensures forall t :: 0 <= t < |x| ==>
        var a, sx := ln(x[t]), subtract(if t == 0 then state else ln(x[t - 1]), ln(x[t]));
        out[t] == add(receptance(mixReceptance(a, sx)), value(mixKey(a, sx)), x[t])
    {
      hide Scan, Shifts;
      var n := |x|;
      var a := seq(n, t requires 0 <= t < n => ln(x[t]));
      var sx := Shifts(subtract, a, state);
      stateOut := a[n - 1];
      var key := seq(n, t requires 0 <= t < n => mixKey(a[t], sx[t]));
      var r := seq(n, t requires 0 <= t < n => mixReceptance(a[t], sx[t]));
      out := seq(n, t requires 0 <= t < n => add(receptance(r[t]), value(key[t]), x[t]));
      RowsAreTokens(x, state, a, sx, out, n);
      assert x[..n] == x && out[..n] == out;
      RowsAre(x, state, a, sx);
    }

    lemma RowsAre(x: seq<V>, state: V, a: seq<V>, sx: seq<V>)
      requires x != [] && |a| == |x| && sx == Shifts(subtract, a, state)
      requires forall i :: 0 <= i < |x| ==> a[i] == ln(x[i])
      ensures |sx| == |x|
      ensures forall t :: 0 <= t < |x| ==> sx[t] == subtract(if t == 0 then state else ln(x[t - 1]), ln(x[t]))
    {
      forall t | 0 <= t < |x| ensures sx[t] == subtract(if t == 0 then state else ln(x[t - 1]), ln(x[t])) {
        assert sx[t] == subtract(if t == 0 then state else a[t - 1], a[t]);
      }
    }

    lemma {:induction false} RowsAreTokens(x: seq<V>, state: V, a: seq<V>, sx: seq<V>, out: seq<V>, t: nat)
      requires |x| == |a| == |out| && x != [] && sx == Shifts(subtract, a, state) && t <= |x|
      requires forall i :: 0 <= i < |x| ==> a[i] == ln(x[i]) && out[i] == Row(x[i], a[i], sx[i])
      ensures Scan(Machine(), x[..t], state) == (out[..t], if t == 0 then state else a[t - 1])
    {
      hide Scan, Shifts, Row;
      if t == 0 {
        NoRows(state);
        assert x[..0] == [] && out[..0] == [];
      } else {
        RowsAreTokens(x, state, a, sx, out, t - 1);
        assert x[..t] == x[..t - 1] + [x[t - 1]] && out[..t] == out[..t - 1] + [out[t - 1]];
        ScanNext(Machine(), x[..t - 1], x[t - 1], state);
        RowIsToken(state, a, sx, x[t - 1], t - 1);
      }
    }

    lemma NoRows(state: V)
      ensures Scan(Machine(), [], state) == ([], state)
    {
    }

    lemma RowIsToken(state: V, a: seq<V>, sx: seq<V>, x: V, t: nat)
      requires t < |a| && sx == Shifts(subtract, a, state) && a[t] == ln(x)
      ensures Machine()(x, if t == 0 then state else a[t - 1]) == (Row(x, a[t], sx[t]), a[t])
    {
    }
  }
}
