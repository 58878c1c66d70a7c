/** Rescaling (converter/rwkv_src/rwkv_modeling.py:163-165, rwkv_v6_modules.py:42-45 and 195-198): the stream is halved
    after every so many layers, and what a layer adds to it is divided by two as often as the stream has been halved by
    then.  A layer norm whose epsilon is out of account sees no difference, so only the scale of the stream changes. */
module RwkvRescale {
  import opened Rwkv6
  import opened RwkvModel

  /** `half` applied `m` times. */
  function Halved<V>(half: V -> V, m: nat, x: V): V
    decreases m
  {
    if m == 0 then x else half(Halved(half, m - 1, x))
  }

  /** How often the stream has been halved in front of layer `layer` of the whole. */
  function Times(rescaleLayer: nat, layer: nat): nat {
    if rescaleLayer == 0 then 0 else layer / rescaleLayer
  }

  /** `scaled` is `plain` with its last projections divided by two `m` times: its parts are those of `plain`, its norm
      takes no notice of the scale, and its sum comes out at the scale of its input. */
  ghost predicate AttScaled<V(!new), L, P, M, W(!new)>(plain: Attention<V, L, P, M, W>,
                                                       scaled: Attention<V, L, P, M, W>, half: V -> V, m: nat)
  {
    && (forall x :: scaled.ln(Halved(half, m, x)) == plain.ln(x))
    && (forall x, ws, gate ::
      scaled.finish(Halved(half, m, x), ws, gate) == Halved(half, m, plain.finish(x, ws, gate)))
    && scaled == plain.(ln := scaled.ln, finish := scaled.finish)
  }

  ghost predicate FfnScaled<V(!new)>(plain: FeedForward<V>, scaled: FeedForward<V>, half: V -> V, m: nat) {
    && (forall x :: scaled.ln(Halved(half, m, x)) == plain.ln(x))
    && (forall r, k, x ::
      scaled.add(r, scaled.value(k), Halved(half, m, x)) == Halved(half, m, plain.add(r, plain.value(k), x)))
    && scaled == plain.(ln := scaled.ln, value := scaled.value, add := scaled.add)
  }

  /** `plain` without rescaling, and the same layers scaled for a model that rescales. */
  ghost predicate ModelScaled<V(!new), L, P, M, W(!new)>(plain: Model<V, L, P, M, W>, scaled: Model<V, L, P, M, W>) {
    && plain.rescaleLayer == 0 && |plain.layers| == |scaled.layers|
    && forall k: nat :: k < |plain.layers| ==>
      var m := Times(scaled.rescaleLayer, scaled.layerBegin + k);
      && AttScaled(plain.layers[k].att, scaled.layers[k].att, scaled.half, m)
      && FfnScaled(plain.layers[k].ffn, scaled.layers[k].ffn, scaled.half, m)
  }

  lemma AttKeepsScale<V(!new), L, P, M, W(!new)>(plain: Attention<V, L, P, M, W>, scaled: Attention<V, L, P, M, W>,
                                                 half: V -> V, m: nat, x: V, s: AttState<V, M>)
    requires AttScaled(plain, scaled, half, m)
    ensures var (y, t) := plain.Token(x, s); scaled.Token(Halved(half, m, x), s) == (Halved(half, m, y), t)
  {
    var a := plain.ln(x);
    var sx := plain.subtract(s.shift, a);
    assert scaled.ReadAll(a, sx, s.wkv) == plain.ReadAll(a, sx, s.wkv);
    assert scaled.NextAll(a, sx, s.wkv) == plain.NextAll(a, sx, s.wkv);
  }

  lemma FfnKeepsScale<V(!new)>(plain: FeedForward<V>, scaled: FeedForward<V>, half: V -> V, m: nat, x: V, s: V)
    requires FfnScaled(plain, scaled, half, m)
    ensures var (y, t) := plain.Token(x, s); scaled.Token(Halved(half, m, x), s) == (Halved(half, m, y), t)
  {
  }

  /** A layer hands its output on at the scale the next layer counts on. */
  lemma LayerKeepsScale<V(!new), L, P, M, W(!new)>(plain: Model<V, L, P, M, W>, scaled: Model<V, L, P, M, W>, k: nat,
                                                   x: V, s: Carried<V, M>)
    requires ModelScaled(plain, scaled) && k < |plain.layers|
    ensures var r, layer := scaled.rescaleLayer, scaled.layerBegin + k;
      var (y, t) := plain.LayerMachine(k)(x, s);
      scaled.LayerMachine(k)(Halved(scaled.half, Times(r, layer), x), s) ==
        (Halved(scaled.half, Times(r, layer + 1), y), t)
  {
    hide AttScaled, FfnScaled, Times, Attention.Token, FeedForward.Token, Model.LayerMachine, Model.Rescaled;
    var r, layer, half := scaled.rescaleLayer, scaled.layerBegin + k, scaled.half;
    var m := Times(r, layer);
    AttKeepsScale(plain.layers[k].att, scaled.layers[k].att, half, m, x, s.0);
    var (y, a) := plain.layers[k].att.Token(x, s.0);
    FfnKeepsScale(plain.layers[k].ffn, scaled.layers[k].ffn, half, m, y, s.1);
    var (z, f) := plain.layers[k].ffn.Token(y, s.1);
    plain.LayerIsBoth(k, x, s);
    scaled.LayerIsBoth(k, Halved(half, m, x), s);
    NextScale(plain, scaled, k, z);
  }

  lemma NextScale<V, L, P, M, W>(plain: Model<V, L, P, M, W>, scaled: Model<V, L, P, M, W>, k: nat, z: V)
    requires plain.rescaleLayer == 0
    ensures var r, layer := scaled.rescaleLayer, scaled.layerBegin + k;
      plain.Rescaled(k, z) == z &&
      scaled.Rescaled(k, Halved(scaled.half, Times(r, layer), z)) == Halved(scaled.half, Times(r, layer + 1), z)
  {
    var r, layer := scaled.rescaleLayer, scaled.layerBegin + k;
    if r > 0 { OneMore(r, layer); }
  }

  lemma OneMore(r: nat, layer: nat)
    requires r > 0
    ensures (layer + 1) / r == if (layer + 1) % r == 0 then layer / r + 1 else layer / r
  {
    var q, rest := layer / r, layer % r;
    assert layer + 1 == q * r + (rest + 1);
    if rest + 1 == r {
      Quotient(layer + 1, r, q + 1, 0);
    } else {
      Quotient(layer + 1, r, q, rest + 1);
    }
  }

  lemma Quotient(x: nat, r: nat, q: nat, rest: nat)
    requires x == q * r + rest && rest < r
    ensures x / r == q && x % r == rest
  {
    var d := x / r - q;
    assert d * r == rest - x % r;
    SmallMultiple(d, r);
  }

  lemma SmallMultiple(d: int, r: int)
    requires -r < d * r < r
    ensures d == 0
  {
  }

  /** The rescaled model gives the output of the plain one, halved as often as there are full groups of layers, and
      carries the very same states: for every depth, every rescaling, and every chunk of layers. */
  lemma {:induction false} RescalingKeepsMeaning<V(!new), L, P, M, W(!new)>(plain: Model<V, L, P, M, W>,
                                                                            scaled: Model<V, L, P, M, W>, k: nat,
                                                                            x: V, states: seq<Carried<V, M>>)
    requires ModelScaled(plain, scaled) && k <= |plain.layers| && |states| == |plain.layers| - k
    ensures var r, begin := scaled.rescaleLayer, scaled.layerBegin;
      var (y, after) := plain.Token(k, x, states);
      scaled.Token(k, Halved(scaled.half, Times(r, begin + k), x), states) ==
        (Halved(scaled.half, Times(r, begin + |plain.layers|), y), after)
    decreases |states|
  {
    hide Halved, Times, AttScaled, FfnScaled, Model.LayerMachine;
    if states != [] {
      hide ModelScaled;
      LayerKeepsScale(plain, scaled, k, x, states[0]);
      var (y, s) := plain.LayerMachine(k)(x, states[0]);
      RescalingKeepsMeaning(plain, scaled, k + 1, y, states[1..]);
    }
  }
}
