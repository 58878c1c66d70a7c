/** The RWKV v6 block stack (converter/rwkv_src/rwkv_modeling.py): the layer loop over a whole sequence, which
    overwrites the carried states in place, and the same model one token at a time. */
module RwkvModel {
  import opened Machines
  import opened Recurrence
  import opened Rwkv6

  datatype Layer<!V, !L, !P, !M, !W> = Layer(att: Attention<V, L, P, M, W>, ffn: FeedForward<V>)

  /** One entry of the listed state: a token-shift row or the head matrices of a layer. */
  datatype Slot<V, M> = Shift(row: V) | Heads(wkv: seq<M>)

  /** The two layouts of `RWKV_Block.forward`: three entries a layer in one list, or the rows and the matrices of
      all layers stacked in two tensors. */
  datatype StateArgs<V, M> = Listed(slots: array<Slot<V, M>>) | Stacked(shift: array<V>, wkv: array<seq<M>>)

  /** What a layer carries: attention and feed-forward. */
  type Carried<V, M> = (AttState<V, M>, V)

  /** A model, or the chunk of one whose first layer has the number `layerBegin` in the whole. */
  datatype Model<!V, !L, !P, !M, !W> =
    Model(layers: seq<Layer<V, L, P, M, W>>, layerBegin: nat, rescaleLayer: nat, half: V -> V)
  {
    /** Division by two after every `rescaleLayer` layers of the whole (lines 163-165). */
    function Rescaled(k: nat, x: V): V {
      if rescaleLayer > 0 && (layerBegin + k + 1) % rescaleLayer == 0 then half(x) else x
    }

    /** The feed-forward part of layer `k` with the rescaling behind it. */
    function FfnMachine(k: nat): (V, V) -> (V, V)
      requires k < |layers|
    {
      (x: V, s: V) => var (y, t) := layers[k].ffn.Token(x, s); (Rescaled(k, y), t)
    }

    /** Layer `k` on one token. */
    function LayerMachine(k: nat): (V, Carried<V, M>) -> (V, Carried<V, M>)
      requires k < |layers|
    {
      Then(layers[k].att.Machine(), FfnMachine(k))
    }

    lemma LayerIsBoth(k: nat, x: V, s: Carried<V, M>)
      requires k < |layers|
      ensures var (y, a) := layers[k].att.Token(x, s.0);
        var (z, f) := layers[k].ffn.Token(y, s.1);
        LayerMachine(k)(x, s) == (Rescaled(k, z), (a, f))
    {
      hide Attention.Token, FeedForward.Token;
    }

    /** Layers `k` and up on one token. */
    function Token(k: nat, x: V, states: seq<Carried<V, M>>): (V, seq<Carried<V, M>>)
      decreases |layers| - k
    {
      if k >= |layers| || states == [] then (x, states)
      else
        var (y, s) := LayerMachine(k)(x, states[0]);
        var (z, rest) := Token(k + 1, y, states[1..]);
        (z, [s] + rest)
    }

    function TokenMachine(k: nat): (V, seq<Carried<V, M>>) -> (V, seq<Carried<V, M>>) {
      (x: V, states: seq<Carried<V, M>>) => Token(k, x, states)
    }

    /** Layers `k` and up on a whole sequence, one layer after another. */
    function LayerMajor(k: nat, xs: seq<V>, states: seq<Carried<V, M>>): (seq<V>, seq<Carried<V, M>>)
      decreases |layers| - k
    {
      if k >= |layers| || states == [] then (xs, states)
      else
        var (ys, s) := Scan(LayerMachine(k), xs, states[0]);
        var (zs, rest) := LayerMajor(k + 1, ys, states[1..]);
        (zs, [s] + rest)
    }

    /** The state of the first layer and the states of the others, as one list or as a pair. */
    lemma {:induction false} Unpaired(k: nat, xs: seq<V>, s: Carried<V, M>, rest: seq<Carried<V, M>>)
      requires k < |layers|
      ensures var (zs, (s', rest')) := Scan(Then(LayerMachine(k), TokenMachine(k + 1)), xs, (s, rest));
        Scan(TokenMachine(k), xs, [s] + rest) == (zs, [s'] + rest')
      decreases |xs|
    {
      var pair := Then(LayerMachine(k), TokenMachine(k + 1));
      if xs != [] {
        var front, x := xs[..|xs| - 1], xs[|xs| - 1];
        Unpaired(k, front, s, rest);
        assert xs == front + [x];
        ScanNext(pair, front, x, (s, rest));
        ScanNext(TokenMachine(k), front, x, [s] + rest);
        var (zs, (s1, rest1)) := Scan(pair, front, (s, rest));
        assert ([s1] + rest1)[1..] == rest1;
      }
    }

    /** For every depth and length: one layer after another over the whole sequence is one token after another
        through all layers. */
    lemma {:induction false} LayerMajorIsTokenMajor(k: nat, xs: seq<V>, states: seq<Carried<V, M>>)
      ensures LayerMajor(k, xs, states) == Scan(TokenMachine(k), xs, states)
      decreases |layers| - k
    {
      if k >= |layers| || states == [] {
        Idle(k, xs, states);
      } else {
        var (ys, s) := Scan(LayerMachine(k), xs, states[0]);
        LayerMajorIsTokenMajor(k + 1, ys, states[1..]);
        ScanThen(LayerMachine(k), TokenMachine(k + 1), xs, states[0], states[1..]);
        Unpaired(k, xs, states[0], states[1..]);
        assert [states[0]] + states[1..] == states;
      }
    }

    lemma {:induction false} Idle(k: nat, xs: seq<V>, states: seq<Carried<V, M>>)
      requires k >= |layers| || states == []
      ensures Scan(TokenMachine(k), xs, states) == (xs, states)
      decreases |xs|
    {
      if xs != [] {
        Idle(k, xs[..|xs| - 1], states);
        assert xs[..|xs| - 1] + [xs[|xs| - 1]] == xs;
      }
    }

    /** Rescaling after the feed-forward layer only changes its outputs. */
    lemma {:induction false} RescaledScan(k: nat, xs: seq<V>, s: V)
      requires k < |layers|
      ensures var (ys, t) := Scan(layers[k].ffn.Machine(), xs, s);
        Scan(FfnMachine(k), xs, s) == (RescaledAll(k, ys), t)
      decreases |xs|
    {
      if xs == [] {
        assert RescaledAll(k, []) == [];
      } else {
        var front, x := xs[..|xs| - 1], xs[|xs| - 1];
        RescaledScan(k, front, s);
        assert xs == front + [x];
        ScanNext(layers[k].ffn.Machine(), front, x, s);
        ScanNext(FfnMachine(k), front, x, s);
        var (ys, mid) := Scan(layers[k].ffn.Machine(), front, s);
        assert RescaledAll(k, ys + [layers[k].ffn.Token(x, mid).0]) ==
          RescaledAll(k, ys) + [Rescaled(k, layers[k].ffn.Token(x, mid).0)];
      }
    }

    function RescaledAll(k: nat, x: seq<V>): seq<V> {
      seq(|x|, t requires 0 <= t < |x| => Rescaled(k, x[t]))
    }

    /** The layer on a sequence: attention over all of it, feed-forward over all of that, rescaling. */
    lemma LayerScan(k: nat, xs: seq<V>, s: Carried<V, M>)
      requires k < |layers|
      ensures var (ys, a) := Scan(layers[k].att.Machine(), xs, s.0);
        var (zs, f) := Scan(layers[k].ffn.Machine(), ys, s.1);
        Scan(LayerMachine(k), xs, s) == (RescaledAll(k, zs), (a, f))
    {
      hide Scan, RescaledAll;
      var (ys, a) := Scan(layers[k].att.Machine(), xs, s.0);
      ScanThen(layers[k].att.Machine(), FfnMachine(k), xs, s.0, s.1);
      RescaledScan(k, ys, s.1);
    }

    ghost predicate Fits(state: StateArgs<V, M>)
      reads Cells(state)
    {
      match state
      case Listed(slots) => slots.Length == 3 * |layers| && forall k :: 0 <= k < |layers| ==>
        slots[3 * k].Shift? && slots[3 * k + 1].Heads? && slots[3 * k + 2].Shift?
      case Stacked(shift, wkv) =>
        shift as object != wkv as object && shift.Length == 2 * |layers| && wkv.Length == |layers|
    }

    ghost function Cells(state: StateArgs<V, M>): set<object> {
      match state
      case Listed(slots) => {slots as object}
      case Stacked(shift, wkv) => {shift as object, wkv as object}
    }

    /** What layer `k` carries, in either layout. */
    ghost function At(state: StateArgs<V, M>, k: nat): Carried<V, M>
      requires Fits(state) && k < |layers|
      reads Cells(state)
    {
      match state
      case Listed(slots) => (AttState(slots[3 * k].row, slots[3 * k + 1].wkv), slots[3 * k + 2].row)
      case Stacked(shift, wkv) => (AttState(shift[2 * k], wkv[k]), shift[2 * k + 1])
    }

    ghost function States(state: StateArgs<V, M>): (s: seq<Carried<V, M>>)
      requires Fits(state)
      reads Cells(state)
      ensures |s| == |layers|
    {
      seq(|layers|, k requires 0 <= k < |layers| && Fits(state) reads Cells(state) => At(state, k))
    }

    /** `RWKV_Block.forward` for v6 (lines 51-70). */
    method Block(k: nat, x: seq<V>, state: StateArgs<V, M>) returns (out: seq<V>)
      requires k < |layers| && x != [] && Fits(state)
      modifies Cells(state)
      ensures Fits(state)
      ensures var s := old(At(state, k));
        var (ys, a) := Scan(layers[k].att.Machine(), x, s.0);
        var (zs, f) := Scan(layers[k].ffn.Machine(), ys, s.1);
        out == zs && States(state) == old(States(state))[k := (a, f)]
    {
      hide Scan;
      ghost var before := States(state);
      var layer := layers[k];
      var y, a, w, f;
      ScanLength(layer.att.Machine(), x, At(state, k).0);
      match state {
        case Listed(slots) =>
          y, a, w := layer.att.Forward(x, slots[3 * k].row, slots[3 * k + 1].wkv);
          slots[3 * k], slots[3 * k + 1] := Shift(a), Heads(w);
          out, f := layer.ffn.Forward(y, slots[3 * k + 2].row);
          slots[3 * k + 2] := Shift(f);
        case Stacked(shift, wkv) =>
          y, a, w := layer.att.Forward(x, shift[2 * k], wkv[k]);
          shift[2 * k], wkv[k] := a, w;
          out, f := layer.ffn.Forward(y, shift[2 * k + 1]);
          shift[2 * k + 1] := f;
      }
      forall j | 0 <= j < |layers| ensures At(state, j) == before[k := (AttState(a, w), f)][j] {
      }
    }

    /** The layer loop (lines 158-165) on a sequence: for every depth, length and layout of the states, the outputs
        and the final states are those of feeding the tokens one at a time through the whole stack. */
    method Forward(x: seq<V>, state: StateArgs<V, M>) returns (out: seq<V>)
      requires x != [] && Fits(state)
      modifies Cells(state)
      ensures Fits(state)
      ensures (out, States(state)) == Scan(TokenMachine(0), x, old(States(state)))
    {
      hide Scan, LayerMajor, Pending;
      out := x;
      ghost var start := States(state);
      NothingDone(x, start);
      for i := 0 to |layers|
        invariant Fits(state) && out != [] && Pending(x, start, i, out, States(state))
      {
        ghost var before := States(state);
        LayerScan(i, out, before[i]);
        var y := Block(i, out, state);
        ScanLength(LayerMachine(i), out, before[i]);
        Advance(x, start, i, out, before, y, States(state));
        out := y;
        if rescaleLayer > 0 && (layerBegin + i + 1) % rescaleLayer == 0 {
          out := seq(|y|, t requires 0 <= t < |y| => half(y[t]));
        }
        assert out == RescaledAll(i, y);
      }
      Finished(x, start, out, States(state));
    }

    /** With `i` layers done, running the others on `xs` and `states` still gives the result. */
    ghost predicate Pending(x: seq<V>, start: seq<Carried<V, M>>, i: nat, xs: seq<V>, states: seq<Carried<V, M>>)
    {
      && |states| == |start| == |layers| && i <= |layers|
      && var (zs, rest) := LayerMajor(i, xs, states[i..]);
         LayerMajor(0, x, start) == (zs, states[..i] + rest)
    }

    lemma NothingDone(x: seq<V>, start: seq<Carried<V, M>>)
      requires |start| == |layers|
      ensures Pending(x, start, 0, x, start)
    {
      assert start[0..] == start;
      var rest := LayerMajor(0, x, start).1;
      assert start[..0] + rest == rest;
    }

    lemma Advance(x: seq<V>, start: seq<Carried<V, M>>, i: nat, xs: seq<V>, before: seq<Carried<V, M>>,
                  y: seq<V>, after: seq<Carried<V, M>>)
      requires Pending(x, start, i, xs, before) && i < |layers|
      requires var (ys, s) := Scan(LayerMachine(i), xs, before[i]); RescaledAll(i, y) == ys && after == before[i := s]
      ensures Pending(x, start, i + 1, RescaledAll(i, y), after)
    {
      hide Scan, RescaledAll;
      assert before[i..][1..] == after[i + 1..] && before[i..][0] == before[i];
      assert after[..i + 1] == before[..i] + [after[i]];
      var rest := LayerMajor(i + 1, RescaledAll(i, y), after[i + 1..]).1;
      assert before[..i] + ([after[i]] + rest) == after[..i + 1] + rest;
    }

    lemma Finished(x: seq<V>, start: seq<Carried<V, M>>, out: seq<V>, states: seq<Carried<V, M>>)
      requires Pending(x, start, |layers|, out, states)
      ensures (out, states) == Scan(TokenMachine(0), x, start)
    {
      LayerMajorIsTokenMajor(0, x, start);
      assert states[..|layers|] + states[|layers|..] == states;
    }

    /** Layers `from` up to `to`, as a chunk of their own. */
    function Part(from: nat, to: nat): Model<V, L, P, M, W>
      requires from <= to <= |layers|
    {
      this.(layers := layers[from..to], layerBegin := layerBegin + from)
    }

    /** Chunk `i` of `n` (lines 98-100). */
    function Chunk(n: nat, i: nat): (chunk: Model<V, L, P, M, W>)
      requires i < n
      ensures |chunk.layers| == |layers| / n && chunk.layerBegin == layerBegin + i * (|layers| / n)
    {
      ChunkBounds(n, i);
      Part(i * (|layers| / n), (i + 1) * (|layers| / n))
    }

    lemma ChunkBounds(n: nat, i: nat)
      requires i < n
      ensures 0 <= i * (|layers| / n) <= (i + 1) * (|layers| / n) <= |layers|
      ensures (i + 1) * (|layers| / n) - i * (|layers| / n) == |layers| / n
    {
      var per := |layers| / n;
      assert i * per <= (i + 1) * per <= n * per <= |layers|;
    }

    /** The first `i` of `n` chunks, each with states of its own, over a whole sequence. */
    function InTurn(n: nat, i: nat, xs: seq<V>, states: seq<seq<Carried<V, M>>>): (seq<V>, seq<seq<Carried<V, M>>>)
      requires i <= n == |states|
    {
      if i == 0 then (xs, [])
      else
        var (ys, done) := InTurn(n, i - 1, xs, states);
        var (zs, s) := Scan(Chunk(n, i - 1).TokenMachine(0), ys, states[i - 1]);
        (zs, done + [s])
    }

    /** With states for some of the layers only, the others wait for theirs. */
    lemma {:induction false} Cut(k: nat, xs: seq<V>, s: seq<Carried<V, M>>, t: seq<Carried<V, M>>)
      requires k + |s| <= |layers|
      ensures var (ys, s') := LayerMajor(k, xs, s);
        var (zs, t') := LayerMajor(k + |s|, ys, t);
        LayerMajor(k, xs, s + t) == (zs, s' + t')
      decreases |s|
    {
      if s == [] {
        assert s + t == t;
        var (zs, rest) := LayerMajor(k, xs, t);
        assert [] + rest == rest;
      } else {
        hide Scan;
        var (ys, done) := Scan(LayerMachine(k), xs, s[0]);
        Cut(k + 1, ys, s[1..], t);
        assert (s + t)[0] == s[0] && (s + t)[1..] == s[1..] + t;
        var (zs, rest) := LayerMajor(k + 1, ys, s[1..]);
        var tail := LayerMajor(k + |s|, zs, t).1;
        assert [done] + rest + tail == [done] + (rest + tail);
      }
    }

    /** A chunk counts and rescales its layers as the whole does. */
    lemma {:induction false} PartLayer(from: nat, to: nat, k: nat, xs: seq<V>, s: Carried<V, M>)
      requires from <= to <= |layers| && k < to - from
      ensures Scan(Part(from, to).LayerMachine(k), xs, s) == Scan(LayerMachine(from + k), xs, s)
      decreases |xs|
    {
      hide LayerMachine, Part;
      if xs != [] {
        PartLayer(from, to, k, xs[..|xs| - 1], s);
        var x, mid := xs[|xs| - 1], Scan(LayerMachine(from + k), xs[..|xs| - 1], s).1;
        OneLayer(from, to, k, x, mid);
      }
    }

    lemma OneLayer(from: nat, to: nat, k: nat, x: V, s: Carried<V, M>)
      requires from <= to <= |layers| && k < to - from
      ensures Part(from, to).LayerMachine(k)(x, s) == LayerMachine(from + k)(x, s)
    {
    }

    lemma {:induction false} PartRuns(from: nat, to: nat, k: nat, xs: seq<V>, s: seq<Carried<V, M>>)
      requires from <= to <= |layers| && k + |s| <= to - from
      ensures Part(from, to).LayerMajor(k, xs, s) == LayerMajor(from + k, xs, s)
      decreases |s|
    {
      hide Scan;
      if s != [] {
        PartLayer(from, to, k, xs, s[0]);
        PartRuns(from, to, k + 1, Scan(LayerMachine(from + k), xs, s[0]).0, s[1..]);
      }
    }

    /** One more chunk behind the layers that have run. */
    lemma OneMorePart(m: nat, to: nat, xs: seq<V>, s: seq<Carried<V, M>>, t: seq<Carried<V, M>>)
      requires |s| == m && m + |t| == to <= |layers|
      ensures var (ys, s') := Scan(TokenMachine(0), xs, s);
        var (zs, t') := Scan(Part(m, to).TokenMachine(0), ys, t);
        Scan(TokenMachine(0), xs, s + t) == (zs, s' + t')
    {
      hide Scan, LayerMajor;
      LayerMajorIsTokenMajor(0, xs, s);
      LayerMajorIsTokenMajor(0, xs, s + t);
      Cut(0, xs, s, t);
      var ys := LayerMajor(0, xs, s).0;
      PartRuns(m, to, 0, ys, t);
      Part(m, to).LayerMajorIsTokenMajor(0, ys, t);
    }

    /** The chunks one after another are the first layers of the whole. */
    lemma {:induction false} ChunksAreWhole(n: nat, i: nat, xs: seq<V>, states: seq<seq<Carried<V, M>>>)
      requires 0 < n && i <= n == |states| && forall j :: 0 <= j < n ==> |states[j]| == |layers| / n
      ensures var (zs, done) := InTurn(n, i, xs, states);
        Scan(TokenMachine(0), xs, Flatten(states[..i])) == (zs, Flatten(done))
      ensures |Flatten(states[..i])| == i * (|layers| / n)
    {
      hide Scan;
      FlattenLength(states[..i], |layers| / n);
      if i == 0 {
        Idle(0, xs, []);
      } else {
        hide Part;
        ChunkBounds(n, i - 1);
        ChunksAreWhole(n, i - 1, xs, states);
        assert states[..i][..i - 1] == states[..i - 1];
        OneMorePart((i - 1) * (|layers| / n), i * (|layers| / n), xs, Flatten(states[..i - 1]), states[i - 1]);
        var (ys, done) := InTurn(n, i - 1, xs, states);
        var s := Scan(Chunk(n, i - 1).TokenMachine(0), ys, states[i - 1]).1;
        assert (done + [s])[..|done|] == done;
      }
    }

    /** As many layers are in no chunk as the division by the number of chunks leaves over. */
    lemma LayersLeftOver(n: nat, states: seq<seq<Carried<V, M>>>)
      requires 0 < n == |states| && forall j :: 0 <= j < n ==> |states[j]| == |layers| / n
      ensures |layers| - |Flatten(states)| == |layers| % n
    {
      FlattenLength(states, |layers| / n);
    }

    /** The transition a session folds over token ids. */
    function Step(embed: int -> V): (seq<Carried<V, M>>, int) -> seq<Carried<V, M>> {
      (states: seq<Carried<V, M>>, id: int) => Token(0, embed(id), states).1
    }

    function Embedded(embed: int -> V, ids: seq<int>): seq<V> {
      seq(|ids|, i requires 0 <= i < |ids| => embed(ids[i]))
    }

    /** The states a sequence leaves behind are the fold of that transition over its ids. */
    lemma {:induction false} SequenceIsFold(embed: int -> V, ids: seq<int>, states: seq<Carried<V, M>>)
      ensures Scan(TokenMachine(0), Embedded(embed, ids), states).1 == Fold(Step(embed), states, ids)
      decreases |ids|
    {
      if ids == [] {
        assert Embedded(embed, ids) == [];
      } else {
        var front, id := ids[..|ids| - 1], ids[|ids| - 1];
        SequenceIsFold(embed, front, states);
        assert Embedded(embed, ids) == Embedded(embed, front) + [embed(id)];
        ScanNext(TokenMachine(0), Embedded(embed, front), embed(id), states);
      }
    }
  }
}
