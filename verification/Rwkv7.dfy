/** The attention and feed-forward modules of RWKV v7 (converter/rwkv_src/rwkv_v7_modules.py) on one token, as an engine
    computes them: whole tensors, all heads in one array. */
module Rwkv7 {
  import opened NcnnEmitter

  /** What an attention layer gives for one token: its output, what it carries on, and the value of the first layer. */
  datatype Attended = Attended(out: Array, shift: Array, wkv: Array, vFirst: Array)

  /** `Rwkv7SelfAttention.forward` (converter/rwkv_src/rwkv_v7_modules.py:158-228) on one token.  The modified
      variant doubles the rate and lets the removal decay. */
  function Attention(g: Engine, i: nat, jellyfish: bool, x: Array, shift: Array, wkv: Array, vFirst: Array): Attended {
    var a := g.Weighted(LayerNorm, Tensor(i, "ln1"), x);
    var sx := g.Binary(Sub, shift, a);
    var r := g.Linear(Tensor(i, "att.receptance"), Mixture(g, i, a, sx, 0));
    var w := DecayOf(g, i, Mixture(g, i, a, sx, 1));
    var k := g.Linear(Tensor(i, "att.key"), Mixture(g, i, a, sx, 2));
    var value := g.Linear(Tensor(i, "att.value"), Mixture(g, i, a, sx, 3));
    var rate := RateOf(g, i, jellyfish, Mixture(g, i, a, sx, 4));
    var gate := GateOf(g, i, Mixture(g, i, a, sx, 5));
    var first := if i == 0 then value else vFirst;
    var mixed := if i == 0 then value else Blended(g, i, Mixture(g, i, a, sx, 3), value, vFirst);
    var key := RatedKey(g, i, k, rate);
    var m := NextState(g, wkv, w, key, mixed, Removed(g, jellyfish, w, rate, NormedKey(g, i, k)));
    Attended(Finished(g, i, x, ReadBy(g, r, m), Bonus(g, i, r, key, mixed), gate), a, m, first)
  }

  /** The `c`-th of the six mixtures: receptance, decay, key, value, rate, gate. */
  function Mixture(g: Engine, i: nat, a: Array, sx: Array, c: nat): Array {
    g.Piece(g.Plus(a, g.Times(sx, g.Data(Tensor(i, "att.x_rwkvag")))), c)
  }

  function DecayOf(g: Engine, i: nat, x: Array): Array {
    var w := g.Linear(Tensor(i, "att.w2"), g.Unary(TanH, g.Linear(Tensor(i, "att.w1"), x)));
    g.Unary(Exp("-0.606531"), g.Unary(Sigmoid, g.Plus(w, g.Data(Tensor(i, "att.w0")))))
  }

  function RateOf(g: Engine, i: nat, jellyfish: bool, x: Array): Array {
    var low := g.Linear(Tensor(i, "att.a2"), g.Linear(Tensor(i, "att.a1"), x));
    var a := g.Unary(Sigmoid, g.Plus(low, g.Data(Tensor(i, "att.a0"))));
    if jellyfish then g.Unary(MulScalar("2.0"), a) else a
  }

  function GateOf(g: Engine, i: nat, x: Array): Array {
    g.Linear(Tensor(i, "att.g2"), g.Unary(Sigmoid, g.Linear(Tensor(i, "att.g1"), x)))
  }

  /** The value, moved towards that of the first layer. */
  function Blended(g: Engine, i: nat, x: Array, value: Array, vFirst: Array): Array {
    var low := g.Linear(Tensor(i, "att.v2"), g.Linear(Tensor(i, "att.v1"), x));
    g.Plus(value, g.Times(g.Unary(Sigmoid, g.Plus(low, g.Data(Tensor(i, "att.v0")))), g.Binary(Minus, vFirst, value)))
  }

  function NormedKey(g: Engine, i: nat, k: Array): Array {
    g.Shaped(Flat, g.Unary(Normalize, g.Shaped(Rows, g.Times(k, g.Data(Tensor(i, "att.k_k"))))))
  }

  /** k * (1 + (rate - 1) * k_a) */
  function RatedKey(g: Engine, i: nat, k: Array, rate: Array): Array {
    g.Times(g.Unary(AddScalar("1.0"), g.Times(g.Unary(AddScalar("-1.0"), rate), g.Data(Tensor(i, "att.k_a")))), k)
  }

  /** What the state is multiplied by to take out the old value of the key. */
  function Removed(g: Engine, jellyfish: bool, w: Array, rate: Array, kk: Array): Array {
    g.Product(g.Shaped(Columns, g.Unary(MulScalar("-1.0"), kk)),
              g.Shaped(Rows, if jellyfish then g.Times(g.Times(w, rate), kk) else g.Times(kk, rate)))
  }

  function NextState(g: Engine, m: Array, w: Array, key: Array, value: Array, ab: Array): Array {
    g.Plus(g.Plus(g.Product(m, ab), g.Product(g.Shaped(Columns, value), g.Shaped(Rows, key))),
           g.Times(m, g.Shaped(Rows, w)))
  }

  function ReadBy(g: Engine, r: Array, m: Array): Array { g.Shaped(Flat, g.Product(m, g.Shaped(Columns, r))) }

  /** The present token's own value, by how much receptance and key agree in each head. */
  function Bonus(g: Engine, i: nat, r: Array, key: Array, value: Array): Array {
    var rk := g.Times(g.Times(r, key), g.Data(Tensor(i, "att.r_k")));
    g.Shaped(Flat, g.Times(g.Shaped(ByHead, value), g.Unary(Reduction, g.Shaped(ByHead, rk))))
  }

  function Finished(g: Engine, i: nat, x: Array, heads: Array, bonus: Array, gate: Array): Array {
    var normed := g.Weighted(GroupNorm("0.00064"), Tensor(i, "att.ln_x"), heads);
    g.Plus(g.Linear(Tensor(i, "att.output"), g.Times(g.Plus(bonus, normed), gate)), x)
  }

  /** `Rwkv7FeedForward.forward` (lines 255-273 there): output and shift state. */
  function FeedForward(g: Engine, i: nat, x: Array, shift: Array): (Array, Array) {
    var a := g.Weighted(LayerNorm, Tensor(i, "ln2"), x);
    var mixed := g.Plus(g.Times(g.Binary(Sub, shift, a), g.Data(Tensor(i, "ffn.x_k"))), a);
    var k := g.Unary(Square, g.Unary(ReLU, g.Linear(Tensor(i, "ffn.key"), mixed)));
    (g.Plus(g.Linear(Tensor(i, "ffn.value"), k), x), a)
  }

  /** What a layer carries from token to token. */
  datatype Carried = Carried(shift: Array, wkv: Array, ffn: Array)

  /** Layers `i` and up on one token; `vFirst` is the value the first layer handed on. */
  function Through(g: Engine, jellyfish: bool, i: nat, layers: nat, x: Array, vFirst: Array, states: seq<Carried>)
    : (Array, seq<Carried>)
    decreases layers - i
  {
    if i >= layers || states == [] then (x, states)
    else
      var att := Attention(g, i, jellyfish, x, states[0].shift, states[0].wkv, vFirst);
      var (y, ffn) := FeedForward(g, i, att.out, states[0].ffn);
      var (z, rest) := Through(g, jellyfish, i + 1, layers, y, att.vFirst, states[1..]);
      (z, [Carried(att.shift, att.wkv, ffn)] + rest)
  }

  /** The whole model on one token: the first layer uses its own value. */
  function Model(g: Engine, jellyfish: bool, layers: nat, x: Array, states: seq<Carried>): (Array, seq<Carried>) {
    Through(g, jellyfish, 0, layers, x, x, states)
  }

  /** Whatever stands for the first layer's value in front of it. */
  lemma FirstIsOwn(g: Engine, jellyfish: bool, layers: nat, x: Array, vFirst: Array, states: seq<Carried>)
    ensures Through(g, jellyfish, 0, layers, x, vFirst, states) == Model(g, jellyfish, layers, x, states)
  {
  }
}
