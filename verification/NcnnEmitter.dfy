/** The ncnn graph writer (converter/ncnn_model_utils.py): every builder appends one line of the graph, writes its
    weights, and counts.  Blobs are values here instead of names. */
module NcnnEmitter {

  /** The blobs of a graph.  `N` names those inside the blocks, by the part of their name after the prefix. */
  datatype Blob<N> =
    | ModelInfo | Token | Emb | NormHead | Logits
    | StateIn(n: nat) | StateOut(n: nat)
    | TimeMixingOut(layer: nat) | ChannelMixingOut(layer: nat) | VFirst(layer: nat)
    | In(layer: nat, name: N)

  datatype Op = MemoryInfo | Input | Embed | MemoryData | LayerNorm | GroupNorm(eps: string) | Gemm | Normalize
    | Split | Slice | Add | Sub | Minus | Mul | MatMul
    | Reshape(form: Form) | Squeeze | Sigmoid | ReLU | Square | TanH | Reduction
    | Exp(scale: string) | AddScalar(number: string) | MulScalar(number: string)

  /** The shapes a reshape asks for: [n_head, head_size, 1], [n_head, 1, head_size], [n_head, head_size],
      [n_head * head_size] and [5, 1, -1]. */
  datatype Form = Columns | Rows | ByHead | Flat | Fives

  /** A tensor of the checkpoint, or several taken together. */
  datatype Tensor = Tensor(layer: nat, name: string)

  /** One line of the graph, with the tensors it brings. */
  datatype Line<N> = Line(op: Op, inputs: seq<Blob<N>>, outputs: seq<Blob<N>>, tensors: seq<Tensor>)

  /** What a blob is worth. */
  datatype Array = Array(shape: seq<nat>, numbers: seq<real>)

  /** What runs a graph: the worth of the `k`-th output of an operator with these tensors and inputs.  Its numbers are
      left open. */
  datatype Engine = Engine(apply: (Op, seq<Tensor>, seq<Array>, nat) -> Array) {
    /** A split copies. */
    function Outcome(op: Op, tensors: seq<Tensor>, inputs: seq<Array>, k: nat): Array {
      if op == Split && |inputs| == 1 then inputs[0] else apply(op, tensors, inputs, k)
    }

    function Data(t: Tensor): Array { apply(MemoryData, [t], [], 0) }

    function Weighted(op: Op, t: Tensor, a: Array): Array { apply(op, [t], [a], 0) }

    function Linear(t: Tensor, a: Array): Array { Weighted(Gemm, t, a) }

    function Unary(op: Op, a: Array): Array { apply(op, [], [a], 0) }

    function Shaped(form: Form, a: Array): Array { Unary(Reshape(form), a) }

    function Binary(op: Op, a: Array, b: Array): Array { apply(op, [], [a, b], 0) }

    function Plus(a: Array, b: Array): Array { Binary(Add, a, b) }

    function Times(a: Array, b: Array): Array { Binary(Mul, a, b) }

    function Product(a: Array, b: Array): Array { Binary(MatMul, a, b) }

    /** Into the first layer, and out of the last. */
    function Embedded(token: Array): Array { Weighted(Embed, Tensor(0, "emb"), token) }

    function Headed(x: Array): Array { Linear(Tensor(0, "head"), Weighted(LayerNorm, Tensor(0, "ln_out"), x)) }

    function Piece(a: Array, k: nat): Array { apply(Slice, [], [a], k) }
  }

  /** A run of a graph: an engine, and what it makes each blob worth. */
  datatype Evaluation<!N> = Evaluation(engine: Engine, values: Blob<N> -> Array) {
    /** A line holds if its outputs are what the engine makes of its inputs; the graph's own inputs may be anything. */
    ghost predicate Holds(line: Line<N>) {
      line.op == Input ||
      forall k: nat :: k < |line.outputs| ==>
        values(line.outputs[k]) == engine.Outcome(line.op, line.tensors, Worths(line.inputs), k)
    }

    lemma NoInput(op: Op, output: Blob<N>, tensors: seq<Tensor>)
      requires Holds(Line(op, [], [output], tensors)) && op != Input && op != Op.Split
      ensures values(output) == engine.apply(op, tensors, [], 0)
    {
      assert Worths([]) == [] && [output][0] == output;
    }

    lemma OneInput(op: Op, input: Blob<N>, output: Blob<N>, tensors: seq<Tensor>)
      requires Holds(Line(op, [input], [output], tensors)) && op != Input && op != Op.Split
      ensures values(output) == engine.apply(op, tensors, [values(input)], 0)
    {
      assert Worths([input]) == [values(input)] && [output][0] == output;
    }

    lemma TwoInputs(op: Op, input1: Blob<N>, input2: Blob<N>, output: Blob<N>)
      requires Holds(Line(op, [input1, input2], [output], [])) && op != Input && op != Op.Split
      ensures values(output) == engine.Binary(op, values(input1), values(input2))
    {
      assert Worths([input1, input2]) == [values(input1), values(input2)] && [output][0] == output;
    }

    lemma Pieces(input: Blob<N>, outputs: seq<Blob<N>>)
      requires Holds(Line(Slice, [input], outputs, []))
      ensures forall k :: 0 <= k < |outputs| ==> values(outputs[k]) == engine.Piece(values(input), k)
    {
      assert Worths([input]) == [values(input)];
    }

    ghost function Worths(blobs: seq<Blob<N>>): seq<Array> {
      seq(|blobs|, k requires 0 <= k < |blobs| => values(blobs[k]))
    }
  }

  /** Every line holds. */
  ghost predicate Solves<N>(lines: seq<Line<N>>, v: Evaluation<N>)
    decreases |lines|
  {
    lines == [] || (Solves(lines[..|lines| - 1], v) && v.Holds(lines[|lines| - 1]))
  }

  /** One tensor in the weight file, and the line it belongs to. */
  datatype Segment = Segment(line: nat, bytes: nat)

  datatype DType = Float32 | Float16

  /** The bytes `write_weightdata` puts down for a tensor (lines 32-45): as few whole words as hold the flag and the
      elements. */
  function WeightBytes(dtype: DType, numel: nat, withFlag: bool): (b: nat)
    ensures b % 4 == 0
    ensures var needed := (if withFlag then 4 else 0) + (if dtype == Float32 then 4 else 2) * numel;
      needed <= b < needed + 4
  {
    (if withFlag then 4 else 0) +
    match dtype
    case Float32 => 4 * numel
    case Float16 => 2 * numel + if numel % 2 != 0 then 2 else 0
  }

  /** The number of elements of a tensor of the checkpoint. */
  type Numel = Tensor -> nat

  /** What a line has in the weight file: matrices, embeddings and data in the type asked for and behind a flag; norms
      twice, weight and bias, in full precision. */
  ghost function Weights<N>(line: Line<N>, dtype: DType, numel: Numel): seq<nat> {
    match line.op
    case MemoryInfo => [WeightBytes(Float32, 5, false)]
    case Embed => Flagged(line.tensors, dtype, numel)
    case MemoryData => Flagged(line.tensors, dtype, numel)
    case Gemm => Flagged(line.tensors, dtype, numel)
    case LayerNorm => Twice(line.tensors, numel)
    case GroupNorm(_) => Twice(line.tensors, numel)
    case Normalize => [WeightBytes(Float32, 1, false)]
    case _ => []
  }

  ghost function Flagged(tensors: seq<Tensor>, dtype: DType, numel: Numel): seq<nat> {
    seq(|tensors|, k requires 0 <= k < |tensors| => WeightBytes(dtype, numel(tensors[k]), true))
  }

  ghost function Twice(tensors: seq<Tensor>, numel: Numel): seq<nat> {
    var once := seq(|tensors|, k requires 0 <= k < |tensors| => WeightBytes(Float32, numel(tensors[k]), false));
    once + once
  }

  /** The weight file of a graph, line after line. */
  ghost function Segments<N>(lines: seq<Line<N>>, dtype: DType, numel: Numel): seq<Segment>
    decreases |lines|
  {
    if lines == [] then []
    else
      var n := |lines| - 1;
      Segments(lines[..n], dtype, numel) + OnLine(n, Weights(lines[n], dtype, numel))
  }

  ghost function OnLine(line: nat, sizes: seq<nat>): seq<Segment> {
    seq(|sizes|, k requires 0 <= k < |sizes| => Segment(line, sizes[k]))
  }

  /** The segments follow the lines, and every tensor starts on a word. */
  ghost predicate InOrder(all: seq<Segment>, lines: nat) {
    && (forall k :: 0 <= k < |all| ==> all[k].line < lines && all[k].bytes % 4 == 0)
    && forall i, j :: 0 <= i < j < |all| ==> all[i].line <= all[j].line
  }

  lemma {:induction false} SegmentsInOrder<N>(lines: seq<Line<N>>, dtype: DType, numel: Numel)
    ensures InOrder(Segments(lines, dtype, numel), |lines|)
    decreases |lines|
  {
    if lines != [] {
      var n := |lines| - 1;
      SegmentsInOrder(lines[..n], dtype, numel);
      OneMoreLine(Segments(lines[..n], dtype, numel), n, Weights(lines[n], dtype, numel));
    }
  }

  lemma OneMoreLine(all: seq<Segment>, n: nat, sizes: seq<nat>)
    requires InOrder(all, n) && forall k :: 0 <= k < |sizes| ==> sizes[k] % 4 == 0
    ensures InOrder(all + OnLine(n, sizes), n + 1)
  {
  }

  /** Nothing is added but blobs of layer `i` and the listed ones. */
  ghost predicate Adds<N>(before: set<Blob<N>>, after: set<Blob<N>>, i: nat, others: set<Blob<N>>) {
    before + others <= after && forall b :: b in after && b !in before && b !in others ==> b.In? && b.layer == i
  }

  /** Blobs outside the blocks stay open unless they are taken. */
  ghost predicate Keeps<N>(before: set<Blob<N>>, after: set<Blob<N>>, taken: set<Blob<N>>) {
    forall b :: b in before && !b.In? && b !in taken ==> b in after
  }

  /** From one state of the graph to a later one: what was taken from outside layer `i`, and what was added there. */
  ghost predicate Progress<N>(open: set<Blob<N>>, defined: set<Blob<N>>, open': set<Blob<N>>, defined': set<Blob<N>>,
                              i: nat, taken: set<Blob<N>>, others: set<Blob<N>>)
  {
    Keeps(open, open', taken) && Adds(defined, defined', i, others)
  }

  lemma AddsThen<N>(before: set<Blob<N>>, midway: set<Blob<N>>, after: set<Blob<N>>, i: nat, others: set<Blob<N>>,
                    more: set<Blob<N>>)
    requires Adds(before, midway, i, others) && Adds(midway, after, i, more)
    ensures Adds(before, after, i, others + more)
    ensures more == {} ==> Adds(before, after, i, others)
  {
  }

  lemma Begun<N>(open: set<Blob<N>>, defined: set<Blob<N>>, i: nat)
    ensures Progress(open, defined, open, defined, i, {}, {})
  {
  }

  /** One more paragraph, which consumes `consumed`, `took` of it from outside, and adds `added` outside. */
  lemma Onward<N>(open: set<Blob<N>>, defined: set<Blob<N>>, open1: set<Blob<N>>, defined1: set<Blob<N>>,
                  open2: set<Blob<N>>, defined2: set<Blob<N>>, i: nat, taken: set<Blob<N>>, others: set<Blob<N>>,
                  consumed: set<Blob<N>>, took: set<Blob<N>>, added: set<Blob<N>>,
                  taken': set<Blob<N>>, others': set<Blob<N>>)
    requires Progress(open, defined, open1, defined1, i, taken, others)
    requires open1 - consumed <= open2 && Adds(defined1, defined2, i, added)
    requires (forall b :: b in consumed && !b.In? ==> b in took) && taken' == taken + took && others' == others + added
    ensures Progress(open, defined, open2, defined2, i, taken', others')
  {
  }

  lemma Arrived<N>(open: set<Blob<N>>, defined: set<Blob<N>>, open': set<Blob<N>>, defined': set<Blob<N>>, i: nat,
                   taken: set<Blob<N>>, others: set<Blob<N>>)
    requires Progress(open, defined, open', defined', i, taken, others)
    ensures Keeps(open, open', taken) && Adds(defined, defined', i, others)
  {
  }

  /** A blob outside the layer is new until it is added. */
  lemma StillNew<N>(open: set<Blob<N>>, before: set<Blob<N>>, open': set<Blob<N>>, after: set<Blob<N>>, i: nat,
                    taken: set<Blob<N>>, others: set<Blob<N>>, b: Blob<N>)
    requires Progress(open, before, open', after, i, taken, others) && b !in before && b !in others && !b.In?
    ensures b !in after
  {
  }

  /** The blobs that are put into the graph from outside. */
  ghost function Given<N>(lines: seq<Line<N>>): set<Blob<N>>
    decreases |lines|
  {
    if lines == [] then {}
    else
      var line := lines[|lines| - 1];
      Given(lines[..|lines| - 1]) + if line.op == Input then Elements(line.outputs) else {}
  }

  /** What a blob comes to when a graph runs line by line. */
  ghost function Worth<N>(lines: seq<Line<N>>, g: Engine, given: Blob<N> -> Array, b: Blob<N>): Array
    decreases |lines|
  {
    if lines == [] then given(b)
    else
      var front, line := lines[..|lines| - 1], lines[|lines| - 1];
      if b !in line.outputs || line.op == Input then Worth(front, g, given, b)
      else
        var inputs := seq(|line.inputs|, k requires 0 <= k < |line.inputs| => Worth(front, g, given, line.inputs[k]));
        var k: nat :| k < |line.outputs| && line.outputs[k] == b;
        g.Outcome(line.op, line.tensors, inputs, k)
  }

  /** Whether the lines hold rests on what they put out alone. */
  lemma {:induction false} SolvesAlike<N>(lines: seq<Line<N>>, v: Evaluation<N>, w: Evaluation<N>)
    requires WellFormed(lines) && v.engine == w.engine && Solves(lines, v)
    requires forall b :: b in Defined(lines) ==> v.values(b) == w.values(b)
    ensures Solves(lines, w)
    decreases |lines|
  {
    if lines != [] {
      var front, line := lines[..|lines| - 1], lines[|lines| - 1];
      OpenInDefined(front);
      SolvesAlike(front, v, w);
      HoldsAlike(front, line, v, w);
    }
  }

  lemma HoldsAlike<N>(front: seq<Line<N>>, line: Line<N>, v: Evaluation<N>, w: Evaluation<N>)
    requires v.engine == w.engine && v.Holds(line) && Elements(line.inputs) <= Defined(front)
    requires forall b :: b in Defined(front) + Elements(line.outputs) ==> v.values(b) == w.values(b)
    ensures w.Holds(line)
  {
    forall b | b in line.inputs ensures v.values(b) == w.values(b) {
      assert b in Elements(line.inputs);
    }
    assert v.Worths(line.inputs) == w.Worths(line.inputs);
    forall b | b in line.outputs ensures v.values(b) == w.values(b) {
      assert b in Elements(line.outputs);
    }
  }

  /** The run of a graph, line by line. */
  ghost function Run<N>(lines: seq<Line<N>>, g: Engine, given: Blob<N> -> Array): Evaluation<N> {
    Evaluation(g, b => Worth(lines, g, given, b))
  }

  /** A well-formed graph can be run, whatever it is given. */
  lemma {:induction false} Solvable<N>(lines: seq<Line<N>>, g: Engine, given: Blob<N> -> Array)
    requires WellFormed(lines)
    ensures Solves(lines, Run(lines, g, given))
    ensures forall b :: b in Given(lines) || b !in Defined(lines) ==> Run(lines, g, given).values(b) == given(b)
    decreases |lines|
  {
    if lines != [] {
      var front, line := lines[..|lines| - 1], lines[|lines| - 1];
      OpenInDefined(front);
      GivenInDefined(front);
      Solvable(front, g, given);
      var v, w := Run(front, g, given), Run(lines, g, given);
      forall b | b !in Elements(line.outputs) || line.op == Input ensures w.values(b) == v.values(b) {
        assert b !in line.outputs || line.op == Input;
      }
      SolvesAlike(front, v, w);
      LineRuns(lines, g, given);
    }
  }

  lemma LineRuns<N>(lines: seq<Line<N>>, g: Engine, given: Blob<N> -> Array)
    requires lines != [] && WellFormed(lines)
    ensures Run(lines, g, given).Holds(lines[|lines| - 1])
  {
    var front, line := lines[..|lines| - 1], lines[|lines| - 1];
    var v, w := Run(front, g, given), Run(lines, g, given);
    OpenInDefined(front);
    forall b | b in line.inputs ensures w.values(b) == v.values(b) {
      assert b in Elements(line.inputs);
      assert b !in Elements(line.outputs);
    }
    var inputs := seq(|line.inputs|, k requires 0 <= k < |line.inputs| => Worth(front, g, given, line.inputs[k]));
    assert w.Worths(line.inputs) == inputs;
  }

  lemma {:induction false} GivenInDefined<N>(lines: seq<Line<N>>)
    ensures Given(lines) <= Defined(lines)
    decreases |lines|
  {
    if lines != [] { GivenInDefined(lines[..|lines| - 1]); }
  }

  /** And in one way only. */
  lemma {:induction false} SolvedOnce<N>(lines: seq<Line<N>>, v: Evaluation<N>, w: Evaluation<N>)
    requires WellFormed(lines) && v.engine == w.engine && Solves(lines, v) && Solves(lines, w)
    requires forall b :: b in Given(lines) ==> v.values(b) == w.values(b)
    ensures forall b :: b in Defined(lines) ==> v.values(b) == w.values(b)
    decreases |lines|
  {
    if lines != [] {
      var front, line := lines[..|lines| - 1], lines[|lines| - 1];
      OpenInDefined(front);
      SolvedOnce(front, v, w);
      OutputsOnce(front, line, v, w);
    }
  }

  lemma OutputsOnce<N>(front: seq<Line<N>>, line: Line<N>, v: Evaluation<N>, w: Evaluation<N>)
    requires v.engine == w.engine && v.Holds(line) && w.Holds(line) && Elements(line.inputs) <= Defined(front)
    requires forall b :: b in Defined(front) ==> v.values(b) == w.values(b)
    requires line.op == Input ==> forall b :: b in Elements(line.outputs) ==> v.values(b) == w.values(b)
    ensures forall b :: b in Elements(line.outputs) ==> v.values(b) == w.values(b)
  {
    forall b | b in line.inputs ensures v.values(b) == w.values(b) {
      assert b in Elements(line.inputs);
    }
    assert v.Worths(line.inputs) == w.Worths(line.inputs);
  }

  ghost function Elements<N>(blobs: seq<Blob<N>>): set<Blob<N>> { set b | b in blobs }

  ghost predicate Distinct<N>(blobs: seq<Blob<N>>) { forall i, j :: 0 <= i < j < |blobs| ==> blobs[i] != blobs[j] }

  /** The blobs some line puts out. */
  ghost function Defined<N>(lines: seq<Line<N>>): set<Blob<N>>
    decreases |lines|
  {
    if lines == [] then {} else Defined(lines[..|lines| - 1]) + Elements(lines[|lines| - 1].outputs)
  }

  /** Those no line has taken yet. */
  ghost function Open<N>(lines: seq<Line<N>>): set<Blob<N>>
    decreases |lines|
  {
    if lines == [] then {}
    else
      var line := lines[|lines| - 1];
      Open(lines[..|lines| - 1]) - Elements(line.inputs) + Elements(line.outputs)
  }

  /** Every blob is put out once, before it is taken, and taken at most once. */
  ghost predicate WellFormed<N>(lines: seq<Line<N>>)
    decreases |lines|
  {
    lines == [] ||
    var front, line := lines[..|lines| - 1], lines[|lines| - 1];
    && WellFormed(front)
    && Distinct(line.inputs) && Elements(line.inputs) <= Open(front)
    && Distinct(line.outputs) && Elements(line.outputs) !! Defined(front)
  }

  /** What a line with this many outputs adds up to. */
  ghost function Outputs<N>(lines: seq<Line<N>>): nat
    decreases |lines|
  {
    if lines == [] then 0 else Outputs(lines[..|lines| - 1]) + |lines[|lines| - 1].outputs|
  }

  class Emitter<N(==, !new)> {
    var lines: seq<Line<N>>
    var bin: seq<Segment>
    var layerCount: nat
    var blobCount: nat
    /** The type of the weights, and how many there are. */
    const dtype: DType
    const numel: Numel
    ghost var open: set<Blob<N>>
    ghost var defined: set<Blob<N>>

    /** The graph and its weights, without the counts. */
    ghost predicate Wired()
      reads this`lines, this`bin, this`open, this`defined
    {
      && WellFormed(lines) && open == Open(lines) && defined == Defined(lines)
      && bin == Segments(lines, dtype, numel)
    }

    ghost predicate Valid()
      reads this
    {
      Wired() && Lags(0)
    }

    /** So many lines with one output each have not been counted yet. */
    ghost predicate Lags(n: nat)
      reads this
    {
      layerCount + n == |lines| && blobCount + n == Outputs(lines)
    }

    constructor (dtype: DType, numel: Numel)
      ensures this.dtype == dtype && this.numel == numel && Valid() && lines == [] && open == {} && defined == {}
    {
      this.dtype, this.numel := dtype, numel;
      lines, bin, layerCount, blobCount, open, defined := [], [], 0, 0, {}, {};
    }

    /** What all builders do: one line and its tensors.  Counting is left to each of them. */
    method Emit(op: Op, inputs: seq<Blob<N>>, outputs: seq<Blob<N>>, tensors: seq<Tensor>, sizes: seq<nat>)
      requires Wired() && sizes == Weights(Line(op, inputs, outputs, tensors), dtype, numel)
      requires Distinct(inputs) && Elements(inputs) <= open
      requires Distinct(outputs) && Elements(outputs) !! defined
      modifies this`lines, this`bin, this`open, this`defined
      ensures Wired() && |lines| == |old(lines)| + 1 && Outputs(lines) == old(Outputs(lines)) + |outputs|
      ensures open == old(open) - Elements(inputs) + Elements(outputs)
      ensures defined == old(defined) + Elements(outputs)
      ensures forall v :: Solves(lines, v) ==>
        Solves(old(lines), v) && v.Holds(Line(op, inputs, outputs, tensors))
    {
      var at := |lines|;
      ghost var front := lines;
      bin := bin + seq(|sizes|, i requires 0 <= i < |sizes| => Segment(at, sizes[i]));
      lines := lines + [Line(op, inputs, outputs, tensors)];
      assert lines[..|lines| - 1] == front;
      open, defined := Open(lines), Defined(lines);
    }

    /** The increments of a builder with one output. */
    method CountOne()
      requires Wired() && Lags(1)
      modifies this`layerCount, this`blobCount
      ensures Valid()
    {
      layerCount, blobCount := layerCount + 1, blobCount + 1;
    }

    /** No input: `build_data`, and the graph's own inputs. */
    method Source(op: Op, output: Blob<N>, tensors: seq<Tensor>, sizes: seq<nat>)
      requires Valid() && sizes == Weights(Line(op, [], [output], tensors), dtype, numel)
      requires output !in defined && op != Input && op != Op.Split
      modifies this
      ensures Valid() && open == old(open) + {output} && defined == old(defined) + {output}
      ensures forall v :: Solves(lines, v) ==>
        Solves(old(lines), v) && v.values(output) == v.engine.apply(op, tensors, [], 0)
    {
      Emit(op, [], [output], tensors, sizes);
      CountOne();
      forall v | Solves(lines, v) ensures v.values(output) == v.engine.apply(op, tensors, [], 0) {
        v.NoInput(op, output, tensors);
      }
    }

    /** One input, one output. */
    method Unary(op: Op, input: Blob<N>, output: Blob<N>)
      requires Weights(Line(op, [input], [output], []), dtype, numel) == []
      requires Valid() && input in open && output !in defined
      requires op != Input && op != Op.Split
      modifies this
      ensures Valid() && open == old(open) - {input} + {output} && defined == old(defined) + {output}
      ensures forall v :: Solves(lines, v) ==>
        Solves(old(lines), v) && v.values(output) == v.engine.Unary(op, v.values(input))
    {
      Emit(op, [input], [output], [], []);
      CountOne();
      forall v | Solves(lines, v) ensures v.values(output) == v.engine.Unary(op, v.values(input)) {
        v.OneInput(op, input, output, []);
      }
    }

    method Weighted(op: Op, input: Blob<N>, output: Blob<N>, tensors: seq<Tensor>, sizes: seq<nat>)
      requires Valid() && sizes == Weights(Line(op, [input], [output], tensors), dtype, numel)
      requires input in open && output !in defined
      requires op != Input && op != Op.Split
      modifies this
      ensures Valid() && open == old(open) - {input} + {output} && defined == old(defined) + {output}
      ensures forall v :: Solves(lines, v) ==>
        Solves(old(lines), v) && v.values(output) == v.engine.apply(op, tensors, [v.values(input)], 0)
    {
      Emit(op, [input], [output], tensors, sizes);
      CountOne();
      forall v | Solves(lines, v) ensures v.values(output) == v.engine.apply(op, tensors, [v.values(input)], 0) {
        v.OneInput(op, input, output, tensors);
      }
    }

    /** Two inputs, one output. */
    method Binary(op: Op, input1: Blob<N>, input2: Blob<N>, output: Blob<N>)
      requires Weights(Line(op, [input1, input2], [output], []), dtype, numel) == []
      requires Valid() && input1 != input2 && {input1, input2} <= open && output !in defined
      requires op != Input && op != Op.Split
      modifies this
      ensures Valid() && open == old(open) - {input1, input2} + {output} && defined == old(defined) + {output}
      ensures forall v :: Solves(lines, v) ==>
        Solves(old(lines), v) && v.values(output) == v.engine.Binary(op, v.values(input1), v.values(input2))
    {
      Emit(op, [input1, input2], [output], [], []);
      CountOne();
      forall v | Solves(lines, v) ensures v.values(output) == v.engine.Binary(op, v.values(input1), v.values(input2)) {
        v.TwoInputs(op, input1, input2, output);
      }
    }

    /** `build_split` (lines 147-155): as many blobs as the list is long. */
    method Split(input: Blob<N>, outputs: seq<Blob<N>>)
      requires Valid() && input in open
      requires Distinct(outputs) && Elements(outputs) !! defined
      modifies this
      ensures Valid() && open == old(open) - {input} + Elements(outputs) && defined == old(defined) + Elements(outputs)
      ensures forall v :: Solves(lines, v) ==>
        Solves(old(lines), v) && forall b :: b in outputs ==> v.values(b) == v.values(input)
    {
      Emit(Op.Split, [input], outputs, [], []);
      layerCount, blobCount := layerCount + 1, blobCount + |outputs|;
      assert Elements([input]) == {input};
    }

    method LayerNormed(input: Blob<N>, output: Blob<N>, t: Tensor)
      requires Valid() && input in open && output !in defined
      modifies this
      ensures Valid() && open == old(open) - {input} + {output} && defined == old(defined) + {output}
      ensures forall v :: Solves(lines, v) ==>
        Solves(old(lines), v) && v.values(output) == v.engine.Weighted(LayerNorm, t, v.values(input))
    {
      Weighted(LayerNorm, input, output, [t],
               [WeightBytes(Float32, numel(t), false), WeightBytes(Float32, numel(t), false)]);
    }

    method GroupNormed(input: Blob<N>, output: Blob<N>, eps: string, t: Tensor)
      requires Valid() && input in open && output !in defined
      modifies this
      ensures Valid() && open == old(open) - {input} + {output} && defined == old(defined) + {output}
      ensures forall v :: Solves(lines, v) ==>
        Solves(old(lines), v) && v.values(output) == v.engine.Weighted(GroupNorm(eps), t, v.values(input))
    {
      Weighted(GroupNorm(eps), input, output, [t],
               [WeightBytes(Float32, numel(t), false), WeightBytes(Float32, numel(t), false)]);
    }

    method L2Normed(input: Blob<N>, output: Blob<N>)
      requires Valid() && input in open && output !in defined
      modifies this
      ensures Valid() && open == old(open) - {input} + {output} && defined == old(defined) + {output}
      ensures forall v :: Solves(lines, v) ==>
        Solves(old(lines), v) && v.values(output) == v.engine.Unary(Normalize, v.values(input))
    {
      Weighted(Normalize, input, output, [], [WeightBytes(Float32, 1, false)]);
    }

    method Linear(input: Blob<N>, output: Blob<N>, t: Tensor)
      requires Valid() && input in open && output !in defined
      modifies this
      ensures Valid() && open == old(open) - {input} + {output} && defined == old(defined) + {output}
      ensures forall v :: Solves(lines, v) ==>
        Solves(old(lines), v) && v.values(output) == v.engine.Linear(t, v.values(input))
    {
      Weighted(Gemm, input, output, [t], [WeightBytes(dtype, numel(t), true)]);
    }

    method Data(output: Blob<N>, t: Tensor)
      requires Valid() && output !in defined
      modifies this
      ensures Valid() && open == old(open) + {output} && defined == old(defined) + {output}
      ensures forall v :: Solves(lines, v) ==>
        Solves(old(lines), v) && v.values(output) == v.engine.Data(t)
    {
      Source(MemoryData, output, [t], [WeightBytes(dtype, numel(t), true)]);
    }

    method Split2(input: Blob<N>, a: Blob<N>, b: Blob<N>)
      requires Valid() && input in open && {a, b} !! defined
      requires a != b
      modifies this
      ensures Valid() && open == old(open) - {input} + {a, b} && defined == old(defined) + {a, b}
      ensures forall v :: Solves(lines, v) ==>
        Solves(old(lines), v) && v.values(a) == v.values(b) == v.values(input)
    {
      hide Valid;
      Split(input, [a, b]);
      assert Elements([a, b]) == {a, b};
    }

    method Split3(input: Blob<N>, a: Blob<N>, b: Blob<N>, c: Blob<N>)
      requires Valid() && input in open && {a, b, c} !! defined
      requires a != b && a != c && b != c
      modifies this
      ensures Valid() && open == old(open) - {input} + {a, b, c} && defined == old(defined) + {a, b, c}
      ensures forall v :: Solves(lines, v) ==>
        Solves(old(lines), v) && v.values(a) == v.values(b) == v.values(c) == v.values(input)
    {
      hide Valid;
      Split(input, [a, b, c]);
      assert Elements([a, b, c]) == {a, b, c};
    }

    method Split4(input: Blob<N>, a: Blob<N>, b: Blob<N>, c: Blob<N>, d: Blob<N>)
      requires Valid() && input in open && {a, b, c, d} !! defined
      requires a != b && a != c && a != d && b != c && b != d && c != d
      modifies this
      ensures Valid() && open == old(open) - {input} + {a, b, c, d} && defined == old(defined) + {a, b, c, d}
      ensures forall v :: Solves(lines, v) ==>
        Solves(old(lines), v) && v.values(a) == v.values(b) == v.values(c) == v.values(d) == v.values(input)
    {
      hide Valid, Distinct, Elements;
      FourBlobs(a, b, c, d);
      Split(input, [a, b, c, d]);
    }

    lemma FourBlobs(a: Blob<N>, b: Blob<N>, c: Blob<N>, d: Blob<N>)
      requires a != b && a != c && a != d && b != c && b != d && c != d
      ensures Distinct([a, b, c, d]) && Elements([a, b, c, d]) == {a, b, c, d}
      ensures forall x :: x in {a, b, c, d} ==> x in [a, b, c, d]
    {
      assert [a, b, c, d][0] == a && [a, b, c, d][1] == b && [a, b, c, d][2] == c && [a, b, c, d][3] == d;
    }

    /** What the two slice builders (lines 234-255) share: the list has the length they insist on, and that is what
        they add. */
    method SliceInto(input: Blob<N>, outputs: seq<Blob<N>>, n: nat)
      requires Valid() && input in open && |outputs| == n
      requires Distinct(outputs) && Elements(outputs) !! defined
      modifies this
      ensures Valid() && open == old(open) - {input} + Elements(outputs) && defined == old(defined) + Elements(outputs)
      ensures forall v :: Solves(lines, v) ==>
        Solves(old(lines), v) && forall k :: 0 <= k < n ==> v.values(outputs[k]) == v.engine.Piece(v.values(input), k)
    {
      Emit(Slice, [input], outputs, [], []);
      layerCount, blobCount := layerCount + 1, blobCount + n;
      assert Elements([input]) == {input};
      forall v, k | Solves(lines, v) && 0 <= k < n ensures v.values(outputs[k]) == v.engine.Piece(v.values(input), k) {
        v.Pieces(input, outputs);
      }
    }

    method Slice5(input: Blob<N>, a: Blob<N>, b: Blob<N>, c: Blob<N>, d: Blob<N>, f: Blob<N>)
      requires Valid() && input in open && {a, b, c, d, f} !! defined
      requires a != b && a != c && a != d && a != f && b != c && b != d && b != f && c != d && c != f && d != f
      modifies this
      ensures Valid() && open == old(open) - {input} + {a, b, c, d, f} && defined == old(defined) + {a, b, c, d, f}
      ensures forall v :: Solves(lines, v) ==>
        && Solves(old(lines), v)
        && v.values(a) == v.engine.Piece(v.values(input), 0) && v.values(b) == v.engine.Piece(v.values(input), 1)
        && v.values(c) == v.engine.Piece(v.values(input), 2) && v.values(d) == v.engine.Piece(v.values(input), 3)
        && v.values(f) == v.engine.Piece(v.values(input), 4)
    {
      hide Valid;
      SliceInto(input, [a, b, c, d, f], 5);
      assert Elements([a, b, c, d, f]) == {a, b, c, d, f};
    }

    method Slice6(input: Blob<N>, a: Blob<N>, b: Blob<N>, c: Blob<N>, d: Blob<N>, f: Blob<N>, g: Blob<N>)
      requires Valid() && input in open && {a, b, c, d, f, g} !! defined
      requires a != b && a != c && a != d && a != f && a != g && b != c && b != d && b != f && b != g
      requires c != d && c != f && c != g && d != f && d != g && f != g
      modifies this
      ensures Valid() && open == old(open) - {input} + {a, b, c, d, f, g}
      ensures defined == old(defined) + {a, b, c, d, f, g}
      ensures forall v :: Solves(lines, v) ==>
        && Solves(old(lines), v)
        && v.values(a) == v.engine.Piece(v.values(input), 0) && v.values(b) == v.engine.Piece(v.values(input), 1)
        && v.values(c) == v.engine.Piece(v.values(input), 2) && v.values(d) == v.engine.Piece(v.values(input), 3)
        && v.values(f) == v.engine.Piece(v.values(input), 4) && v.values(g) == v.engine.Piece(v.values(input), 5)
    {
      hide Valid;
      SliceInto(input, [a, b, c, d, f, g], 6);
      assert Elements([a, b, c, d, f, g]) == {a, b, c, d, f, g};
    }

    /** `build_info` (lines 47-54) */
    method BuildInfo()
      requires Valid() && ModelInfo !in defined
      modifies this
      ensures Valid() && open == old(open) + {ModelInfo} && defined == old(defined) + {ModelInfo}
    {
      Source(MemoryInfo, ModelInfo, [], [WeightBytes(Float32, 5, false)]);
    }

    /** A graph input, counted later. */
    method InputLine(output: Blob<N>, ghost n: nat)
      requires Wired() && Lags(n) && output !in defined
      modifies this`lines, this`bin, this`open, this`defined
      ensures Wired() && Lags(n + 1) && open == old(open) + {output} && defined == old(defined) + {output}
    {
      Emit(Input, [], [output], [], []);
    }

    /** `build_inp_emb` (lines 77-89): the token, three states a layer, the embedding.  The states are counted layer by
        layer, the token only together with the embedding. */
    method BuildInputs(layers: nat)
      requires Valid() && forall b :: b in defined ==> b == ModelInfo
      modifies this
      ensures Valid() && Emb in open && forall k :: 0 <= k < 3 * layers ==> StateIn(k) in open
      ensures forall b :: b in defined ==> b in {ModelInfo, Token, Emb} || b.StateIn?
      ensures forall v :: Solves(lines, v) ==> v.values(Emb) == v.engine.Embedded(v.values(Token))
    {
      hide WellFormed, Open, Defined, Outputs, Segments, WeightBytes;
      InputLine(Token, 0);
      for i := 0 to layers
        invariant Wired() && Lags(1) && Token in open
        invariant forall k :: 0 <= k < 3 * i ==> StateIn(k) in open
        invariant forall b :: b in defined ==> b in {ModelInfo, Token} || (b.StateIn? && b.n < 3 * i)
      {
        StateLines(i);
      }
      var sizes := [WeightBytes(dtype, numel(Tensor(0, "emb")), true)];
      Emit(Embed, [Token], [Emb], [Tensor(0, "emb")], sizes);
      layerCount, blobCount := layerCount + 2, blobCount + 2;
      forall v | Solves(lines, v) ensures v.values(Emb) == v.engine.Embedded(v.values(Token)) {
        v.OneInput(Embed, Token, Emb, [Tensor(0, "emb")]);
      }
    }

    method StateLines(i: nat)
      requires Wired() && Lags(1) && {StateIn(3 * i), StateIn(3 * i + 1), StateIn(3 * i + 2)} !! defined
      modifies this
      ensures Wired() && Lags(1)
      ensures open == old(open) + {StateIn(3 * i), StateIn(3 * i + 1), StateIn(3 * i + 2)}
      ensures defined == old(defined) + {StateIn(3 * i), StateIn(3 * i + 1), StateIn(3 * i + 2)}
    {
      hide Wired;
      InputLine(StateIn(3 * i), 1);
      InputLine(StateIn(3 * i + 1), 2);
      InputLine(StateIn(3 * i + 2), 3);
      layerCount, blobCount := layerCount + 3, blobCount + 3;
    }

    /** `build_output_head` (lines 550-553) */
    method BuildOutputHead(input: Blob<N>)
      requires Valid() && input in open && {NormHead, Logits} !! defined
      modifies this
      ensures Valid() && Logits in open && forall b :: b in old(open) && b != input ==> b in open
      ensures forall v :: Solves(lines, v) ==>
        Solves(old(lines), v) && v.values(Logits) == v.engine.Headed(v.values(input))
    {
      OpenIsDefined();
      LayerNormed(input, NormHead, Tensor(0, "ln_out"));
      Linear(NormHead, Logits, Tensor(0, "head"));
    }

    lemma Finished(layers: nat)
      requires Valid() && Logits in open && forall k :: 0 <= k < 3 * layers ==> StateOut(k) in open
      ensures Sound((layerCount, blobCount), lines, bin, dtype, numel) && Answers(Open(lines), layers)
    {
      OutputsAreBlobs(lines);
    }

    /** What no line has taken some line has put out. */
    lemma OpenIsDefined()
      requires Valid()
      ensures open <= defined
    {
      OpenInDefined(lines);
    }
  }

  lemma {:induction false} OpenInDefined<N>(lines: seq<Line<N>>)
    ensures Open(lines) <= Defined(lines)
    decreases |lines|
  {
    if lines != [] { OpenInDefined(lines[..|lines| - 1]); }
  }

  lemma ElementsCount<N>(blobs: seq<Blob<N>>)
    requires Distinct(blobs)
    ensures |Elements(blobs)| == |blobs|
    decreases |blobs|
  {
    if blobs == [] {
      assert Elements(blobs) == {};
    } else {
      var front, last := blobs[..|blobs| - 1], blobs[|blobs| - 1];
      ElementsCount(front);
      assert Elements(blobs) == Elements(front) + {last} && last !in Elements(front);
    }
  }

  /** The blob count counts blobs. */
  lemma {:induction false} OutputsAreBlobs<N>(lines: seq<Line<N>>)
    requires WellFormed(lines)
    ensures Outputs(lines) == |Defined(lines)|
    decreases |lines|
  {
    if lines != [] {
      var front, line := lines[..|lines| - 1], lines[|lines| - 1];
      OutputsAreBlobs(front);
      ElementsCount(line.outputs);
      assert |Defined(front) + Elements(line.outputs)| == |Defined(front)| + |Elements(line.outputs)|;
    }
  }

  /** A finished graph: well formed, counted right in its second line, and in the weight file what its lines bring. */
  ghost predicate Sound<N>(header: (nat, nat), lines: seq<Line<N>>, bin: seq<Segment>, dtype: DType, numel: Numel) {
    WellFormed(lines) && header == (|lines|, |Defined(lines)|) && bin == Segments(lines, dtype, numel)
  }

  /** Everything a session feeds back and reads is put out and not taken by another line. */
  ghost predicate Answers<N>(open: set<Blob<N>>, layers: nat) {
    Logits in open && forall k :: 0 <= k < 3 * layers ==> StateOut(k) in open
  }
}
