/** The RWKV v6 blocks as an ncnn graph (converter/ncnn_model_utils.py:322-412). */
module NcnnV6 {
  import opened NcnnEmitter
  import opened Rwkv6
  import RwkvModel
  import opened Machines

  /** The blobs of a layer, by the paragraph that puts them out; F stands for the prefix of the feed-forward block
      where both blocks use a name. */
  datatype KeepName = XLast | X | XX | XX0 | XX1 | XX2
  datatype ShiftName = Sx | Sx0 | Sx1
  datatype LoraName = MaaX | MaaXX | XXX | MaaXLora
  datatype SlicesName = MaaXLoraTanh | MaaXLoraTanhReshape | MaaW2 | MaaXPostLora
  datatype MixName = Maa | MaaPre | MaaPreSqueezed | MaaSx | MaaWkvrg
  datatype FiveName = Mw | Mk | Mv | Mr | Mg
  datatype DecayName = MwLora | MwLoraTanh | MwLoraTanhLinear
  datatype DecayRateName = Td | TimeDecayPre | TimeDecayExp0 | TimeDecay
  datatype ProjectName = Key | Value | Receptance | Gate
  datatype GatingName = Gate0 | Gate1 | GateSigmoid | GateSilu | TimeFirst
  datatype HeadsName = KeyReshape | ValueReshape | ReceptanceReshape | TimeDecayReshape | Kv
  datatype ForkName = Kv0 | Kv1 | WkvState0 | WkvState1
  datatype WkvName = KvTimeFirst | KvTfState | WkvOut
  datatype NextName = StateTd | WkvOutFlatten
  datatype FinishName = XGn | XGate | XOut
  datatype FfnKeepName = FXLast | FX | FXX | FXX0 | FXX1 | FXX2
  datatype FfnShiftName = FSx | FSx0 | FSx1
  datatype FfnScaleName = MaaK | MaaR | Xk | Xr
  datatype FfnMixName = XXk | XXr
  datatype FfnProjectName = FKey | FReceptance
  datatype FfnActivateName = FReceptanceSigmoid | KeyRelu | KeyReluSquare
  datatype FfnFinishName = FValue | Rv
  datatype Name = Keep(keep: KeepName) | Shift(shift: ShiftName) | Lora(lora: LoraName) | Slices(slices: SlicesName)
    | Mix(mix: MixName) | Five(five: FiveName) | Decay(decay: DecayName) | DecayRate(decayRate: DecayRateName)
    | Project(project: ProjectName) | Gating(gating: GatingName) | Heads(heads: HeadsName) | Fork(fork: ForkName)
    | Wkv(wkv: WkvName) | Next(next: NextName) | Finish(finish: FinishName) | FfnKeep(ffnKeep: FfnKeepName)
    | FfnShift(ffnShift: FfnShiftName) | FfnScale(ffnScale: FfnScaleName) | FfnMix(ffnMix: FfnMixName)
    | FfnProject(ffnProject: FfnProjectName) | FfnActivate(ffnActivate: FfnActivateName)
    | FfnFinish(ffnFinish: FfnFinishName)

  /** What a blob of layer `i` is worth.  Each paragraph below comes with a predicate that says what it makes the blobs
      it leaves worth, in terms of those it takes. */
  ghost function At(v: Evaluation<Name>, i: nat, name: Name): Array { v.values(In(i, name)) }

  /** Which paragraph puts a blob out. */
  function Part(name: Name): nat {
    match name
    case Keep(_) => 0
    case Shift(_) => 1
    case Lora(_) => 2
    case Slices(_) => 3
    case Mix(_) => 4
    case Five(_) => 5
    case Decay(_) => 6
    case DecayRate(_) => 7
    case Project(_) => 8
    case Gating(_) => 9
    case Heads(_) => 10
    case Fork(_) => 11
    case Wkv(_) => 12
    case Next(_) => 13
    case Finish(_) => 14
    case FfnKeep(_) => 15
    case FfnShift(_) => 16
    case FfnScale(_) => 17
    case FfnMix(_) => 18
    case FfnProject(_) => 19
    case FfnActivate(_) => 20
    case FfnFinish(_) => 21
  }

  /** In layer `i` the paragraphs before the `k`-th are written, in later layers none. */
  ghost predicate Reached(defined: set<Blob<Name>>, i: nat, k: nat) {
    forall b :: b in defined && b.In? && b.layer >= i ==> b.layer == i && Part(b.name) < k
  }

  ghost predicate KeepIs(v: Evaluation<Name>, input: Blob<Name>, i: nat) {
    && At(v, i, Keep(XLast)) == v.values(input)
    && At(v, i, Keep(XX0)) == At(v, i, Keep(XX1)) == At(v, i, Keep(XX2)) == v.values(StateOut(3 * i))
    && v.values(StateOut(3 * i)) == v.engine.Weighted(LayerNorm, Tensor(i, "ln1"), v.values(input))
  }

  /** Lines 325-327: keep the input, normalise it, hand it on as the next shift state. */
  method BuildKeep(e: Emitter<Name>, input: Blob<Name>, i: nat)
    requires e.Valid() && {input} <= e.open
    requires Reached(e.defined, i, 0) && StateOut(3 * i) !in e.defined
    requires !input.In? && !input.StateIn?
    modifies e
    ensures e.Valid()
    ensures e.open >= old(e.open) - {input} +
      {In(i, Keep(XLast)), In(i, Keep(XX0)), In(i, Keep(XX1)), In(i, Keep(XX2)), StateOut(3 * i)}
    ensures Reached(e.defined, i, 1) && Adds(old(e.defined), e.defined, i, {StateOut(3 * i)})
    ensures forall v :: Solves(e.lines, v) ==> Solves(old(e.lines), v) && KeepIs(v, input, i)
  {
    hide Emitter.Valid;
    e.OpenIsDefined();
    e.Split2(input, In(i, Keep(XLast)), In(i, Keep(X)));
    e.LayerNormed(In(i, Keep(X)), In(i, Keep(XX)), Tensor(i, "ln1"));
    e.Split4(In(i, Keep(XX)), In(i, Keep(XX0)), In(i, Keep(XX1)), In(i, Keep(XX2)), StateOut(3 * i));
  }

  ghost predicate ShiftIs(v: Evaluation<Name>, i: nat) {
    At(v, i, Shift(Sx0)) == At(v, i, Shift(Sx1)) == v.engine.Binary(Sub, v.values(StateIn(3 * i)), At(v, i, Keep(XX0)))
  }

  /** Lines 330-331. */
  method BuildShift(e: Emitter<Name>, i: nat)
    requires e.Valid() && {StateIn(3 * i), In(i, Keep(XX0))} <= e.open
    requires Reached(e.defined, i, 1)
    modifies e
    ensures e.Valid()
    ensures e.open >= old(e.open) - {StateIn(3 * i), In(i, Keep(XX0))} +
      {In(i, Shift(Sx0)), In(i, Shift(Sx1))}
    ensures Reached(e.defined, i, 2) && Adds(old(e.defined), e.defined, i, {})
    ensures forall v :: Solves(e.lines, v) ==> Solves(old(e.lines), v) && ShiftIs(v, i)
  {
    hide Emitter.Valid;
    e.OpenIsDefined();
    e.Binary(Sub, StateIn(3 * i), In(i, Keep(XX0)), In(i, Shift(Sx)));
    e.Split2(In(i, Shift(Sx)), In(i, Shift(Sx0)), In(i, Shift(Sx1)));
  }

  ghost predicate LoraIs(v: Evaluation<Name>, i: nat) {
    var g := v.engine;
    At(v, i, Lora(MaaXLora)) == g.Linear(Tensor(i, "att.time_maa_w1"),
      g.Plus(At(v, i, Keep(XX1)), g.Times(At(v, i, Shift(Sx0)), g.Data(Tensor(i, "att.time_maa_x")))))
  }

  /** Lines 333-336. */
  method BuildLora(e: Emitter<Name>, i: nat)
    requires e.Valid() && {In(i, Shift(Sx0)), In(i, Keep(XX1))} <= e.open
    requires Reached(e.defined, i, 2)
    modifies e
    ensures e.Valid()
    ensures e.open >= old(e.open) - {In(i, Shift(Sx0)), In(i, Keep(XX1))} +
      {In(i, Lora(MaaXLora))}
    ensures Reached(e.defined, i, 3) && Adds(old(e.defined), e.defined, i, {})
    ensures forall v :: Solves(e.lines, v) ==> Solves(old(e.lines), v) && LoraIs(v, i)
  {
    hide Emitter.Valid;
    e.OpenIsDefined();
    e.Data(In(i, Lora(MaaX)), Tensor(i, "att.time_maa_x"));
    e.Binary(Mul, In(i, Shift(Sx0)), In(i, Lora(MaaX)), In(i, Lora(MaaXX)));
    e.Binary(Add, In(i, Keep(XX1)), In(i, Lora(MaaXX)), In(i, Lora(XXX)));
    e.Linear(In(i, Lora(XXX)), In(i, Lora(MaaXLora)), Tensor(i, "att.time_maa_w1"));
  }

  ghost predicate SlicesIs(v: Evaluation<Name>, i: nat) {
    var g := v.engine;
    At(v, i, Slices(MaaXPostLora)) == g.Product(
      g.Shaped(Fives, g.Unary(TanH, At(v, i, Lora(MaaXLora)))), g.Data(Tensor(i, "att.time_maa_w2")))
  }

  /** Lines 337-340. */
  method BuildSlices(e: Emitter<Name>, i: nat)
    requires e.Valid() && {In(i, Lora(MaaXLora))} <= e.open
    requires Reached(e.defined, i, 3)
    modifies e
    ensures e.Valid()
    ensures e.open >= old(e.open) - {In(i, Lora(MaaXLora))} +
      {In(i, Slices(MaaXPostLora))}
    ensures Reached(e.defined, i, 4) && Adds(old(e.defined), e.defined, i, {})
    ensures forall v :: Solves(e.lines, v) ==> Solves(old(e.lines), v) && SlicesIs(v, i)
  {
    hide Emitter.Valid;
    e.OpenIsDefined();
    e.Unary(TanH, In(i, Lora(MaaXLora)), In(i, Slices(MaaXLoraTanh)));
    e.Unary(Reshape(Fives), In(i, Slices(MaaXLoraTanh)), In(i, Slices(MaaXLoraTanhReshape)));
    e.Data(In(i, Slices(MaaW2)), Tensor(i, "att.time_maa_w2"));
    e.Binary(MatMul, In(i, Slices(MaaXLoraTanhReshape)), In(i, Slices(MaaW2)), In(i, Slices(MaaXPostLora)));
  }

  ghost predicate MixIs(v: Evaluation<Name>, i: nat) {
    var g := v.engine;
    At(v, i, Mix(MaaWkvrg)) == g.Plus(At(v, i, Keep(XX2)), g.Times(At(v, i, Shift(Sx1)),
      g.Unary(Squeeze, g.Plus(At(v, i, Slices(MaaXPostLora)), g.Data(Tensor(i, "att.time_maa"))))))
  }

  /** Lines 342-347. */
  method BuildMix(e: Emitter<Name>, i: nat)
    requires e.Valid() && {In(i, Slices(MaaXPostLora)), In(i, Shift(Sx1)), In(i, Keep(XX2))} <= e.open
    requires Reached(e.defined, i, 4)
    modifies e
    ensures e.Valid()
    ensures e.open >= old(e.open) - {In(i, Slices(MaaXPostLora)), In(i, Shift(Sx1)), In(i, Keep(XX2))} +
      {In(i, Mix(MaaWkvrg))}
    ensures Reached(e.defined, i, 5) && Adds(old(e.defined), e.defined, i, {})
    ensures forall v :: Solves(e.lines, v) ==> Solves(old(e.lines), v) && MixIs(v, i)
  {
    hide Emitter.Valid;
    e.OpenIsDefined();
    e.Data(In(i, Mix(Maa)), Tensor(i, "att.time_maa"));
    e.Binary(Add, In(i, Slices(MaaXPostLora)), In(i, Mix(Maa)), In(i, Mix(MaaPre)));
    e.Unary(Squeeze, In(i, Mix(MaaPre)), In(i, Mix(MaaPreSqueezed)));
    e.Binary(Mul, In(i, Shift(Sx1)), In(i, Mix(MaaPreSqueezed)), In(i, Mix(MaaSx)));
    e.Binary(Add, In(i, Keep(XX2)), In(i, Mix(MaaSx)), In(i, Mix(MaaWkvrg)));
  }

  ghost predicate FiveIs(v: Evaluation<Name>, i: nat) {
    var g, all := v.engine, At(v, i, Mix(MaaWkvrg));
    && At(v, i, Five(Mw)) == g.Piece(all, 0) && At(v, i, Five(Mk)) == g.Piece(all, 1)
    && At(v, i, Five(Mv)) == g.Piece(all, 2) && At(v, i, Five(Mr)) == g.Piece(all, 3)
    && At(v, i, Five(Mg)) == g.Piece(all, 4)
  }

  /** Line 348. */
  method BuildFive(e: Emitter<Name>, i: nat)
    requires e.Valid() && {In(i, Mix(MaaWkvrg))} <= e.open
    requires Reached(e.defined, i, 5)
    modifies e
    ensures e.Valid()
    ensures e.open >= old(e.open) - {In(i, Mix(MaaWkvrg))} +
      {In(i, Five(Mw)), In(i, Five(Mk)), In(i, Five(Mv)), In(i, Five(Mr)), In(i, Five(Mg))}
    ensures Reached(e.defined, i, 6) && Adds(old(e.defined), e.defined, i, {})
    ensures forall v :: Solves(e.lines, v) ==> Solves(old(e.lines), v) && FiveIs(v, i)
  {
    hide Emitter.Valid;
    e.OpenIsDefined();
    e.Slice5(In(i, Mix(MaaWkvrg)), In(i, Five(Mw)), In(i, Five(Mk)), In(i, Five(Mv)), In(i, Five(Mr)), In(i, Five(Mg)));
  }

  ghost predicate DecayIs(v: Evaluation<Name>, i: nat) {
    var g := v.engine;
    At(v, i, Decay(MwLoraTanhLinear)) == g.Linear(Tensor(i, "att.time_decay_w2"),
      g.Unary(TanH, g.Linear(Tensor(i, "att.time_decay_w1"), At(v, i, Five(Mw)))))
  }

  /** Lines 350-352. */
  method BuildDecay(e: Emitter<Name>, i: nat)
    requires e.Valid() && {In(i, Five(Mw))} <= e.open
    requires Reached(e.defined, i, 6)
    modifies e
    ensures e.Valid()
    ensures e.open >= old(e.open) - {In(i, Five(Mw))} +
      {In(i, Decay(MwLoraTanhLinear))}
    ensures Reached(e.defined, i, 7) && Adds(old(e.defined), e.defined, i, {})
    ensures forall v :: Solves(e.lines, v) ==> Solves(old(e.lines), v) && DecayIs(v, i)
  {
    hide Emitter.Valid;
    e.OpenIsDefined();
    e.Linear(In(i, Five(Mw)), In(i, Decay(MwLora)), Tensor(i, "att.time_decay_w1"));
    e.Unary(TanH, In(i, Decay(MwLora)), In(i, Decay(MwLoraTanh)));
    e.Linear(In(i, Decay(MwLoraTanh)), In(i, Decay(MwLoraTanhLinear)), Tensor(i, "att.time_decay_w2"));
  }

  ghost predicate DecayRateIs(v: Evaluation<Name>, i: nat) {
    var g := v.engine;
    At(v, i, DecayRate(TimeDecay)) == g.Unary(Exp("-1.0"), g.Unary(Exp("1.0"),
      g.Plus(At(v, i, Decay(MwLoraTanhLinear)), g.Data(Tensor(i, "att.time_decay")))))
  }

  /** Lines 353-356. */
  method BuildDecayRate(e: Emitter<Name>, i: nat)
    requires e.Valid() && {In(i, Decay(MwLoraTanhLinear))} <= e.open
    requires Reached(e.defined, i, 7)
    modifies e
    ensures e.Valid()
    ensures e.open >= old(e.open) - {In(i, Decay(MwLoraTanhLinear))} +
      {In(i, DecayRate(TimeDecay))}
    ensures Reached(e.defined, i, 8) && Adds(old(e.defined), e.defined, i, {})
    ensures forall v :: Solves(e.lines, v) ==> Solves(old(e.lines), v) && DecayRateIs(v, i)
  {
    hide Emitter.Valid;
    e.OpenIsDefined();
    e.Data(In(i, DecayRate(Td)), Tensor(i, "att.time_decay"));
    e.Binary(Add, In(i, Decay(MwLoraTanhLinear)), In(i, DecayRate(Td)), In(i, DecayRate(TimeDecayPre)));
    e.Unary(Exp("1.0"), In(i, DecayRate(TimeDecayPre)), In(i, DecayRate(TimeDecayExp0)));
    e.Unary(Exp("-1.0"), In(i, DecayRate(TimeDecayExp0)), In(i, DecayRate(TimeDecay)));
  }

  ghost predicate ProjectIs(v: Evaluation<Name>, i: nat) {
    var g := v.engine;
    && At(v, i, Project(Key)) == g.Linear(Tensor(i, "att.key / 2"), At(v, i, Five(Mk)))
    && At(v, i, Project(Value)) == g.Linear(Tensor(i, "att.value / 4"), At(v, i, Five(Mv)))
    && At(v, i, Project(Receptance)) == g.Linear(Tensor(i, "att.receptance"), At(v, i, Five(Mr)))
    && At(v, i, Project(Gate)) == g.Linear(Tensor(i, "att.gate"), At(v, i, Five(Mg)))
  }

  /** Lines 358-361. */
  method BuildProject(e: Emitter<Name>, i: nat)
    requires e.Valid() && {In(i, Five(Mk)), In(i, Five(Mv)), In(i, Five(Mr)), In(i, Five(Mg))} <= e.open
    requires Reached(e.defined, i, 8)
    modifies e
    ensures e.Valid()
    ensures e.open >= old(e.open) - {In(i, Five(Mk)), In(i, Five(Mv)), In(i, Five(Mr)), In(i, Five(Mg))} +
      {In(i, Project(Key)), In(i, Project(Value)), In(i, Project(Receptance)), In(i, Project(Gate))}
    ensures Reached(e.defined, i, 9) && Adds(old(e.defined), e.defined, i, {})
    ensures forall v :: Solves(e.lines, v) ==> Solves(old(e.lines), v) && ProjectIs(v, i)
  {
    hide Emitter.Valid;
    e.OpenIsDefined();
    e.Linear(In(i, Five(Mk)), In(i, Project(Key)), Tensor(i, "att.key / 2"));
    e.Linear(In(i, Five(Mv)), In(i, Project(Value)), Tensor(i, "att.value / 4"));
    e.Linear(In(i, Five(Mr)), In(i, Project(Receptance)), Tensor(i, "att.receptance"));
    e.Linear(In(i, Five(Mg)), In(i, Project(Gate)), Tensor(i, "att.gate"));
  }

  ghost predicate GatingIs(v: Evaluation<Name>, i: nat) {
    var g, gate := v.engine, At(v, i, Project(Gate));
    && At(v, i, Gating(GateSilu)) == g.Times(gate, g.Unary(Sigmoid, gate))
    && At(v, i, Gating(TimeFirst)) == g.Data(Tensor(i, "att.time_faaaa"))
  }

  /** Lines 362-365. */
  method BuildGating(e: Emitter<Name>, i: nat)
    requires e.Valid() && {In(i, Project(Gate))} <= e.open
    requires Reached(e.defined, i, 9)
    modifies e
    ensures e.Valid()
    ensures e.open >= old(e.open) - {In(i, Project(Gate))} +
      {In(i, Gating(GateSilu)), In(i, Gating(TimeFirst))}
    ensures Reached(e.defined, i, 10) && Adds(old(e.defined), e.defined, i, {})
    ensures forall v :: Solves(e.lines, v) ==> Solves(old(e.lines), v) && GatingIs(v, i)
  {
    hide Emitter.Valid;
    e.OpenIsDefined();
    e.Split2(In(i, Project(Gate)), In(i, Gating(Gate0)), In(i, Gating(Gate1)));
    e.Unary(Sigmoid, In(i, Gating(Gate0)), In(i, Gating(GateSigmoid)));
    e.Binary(Mul, In(i, Gating(Gate1)), In(i, Gating(GateSigmoid)), In(i, Gating(GateSilu)));
    e.Data(In(i, Gating(TimeFirst)), Tensor(i, "att.time_faaaa"));
  }

  ghost predicate HeadsIs(v: Evaluation<Name>, i: nat) {
    var g := v.engine;
    && At(v, i, Heads(ReceptanceReshape)) == g.Shaped(Rows, At(v, i, Project(Receptance)))
    && At(v, i, Heads(TimeDecayReshape)) == g.Shaped(Columns, At(v, i, DecayRate(TimeDecay)))
    && At(v, i, Heads(Kv)) == g.Product(g.Shaped(Columns, At(v, i, Project(Key))),
      g.Shaped(Rows, At(v, i, Project(Value))))
  }

  /** Lines 368-372. */
  method BuildHeads(e: Emitter<Name>, i: nat)
    requires e.Valid() && {In(i, Project(Key)), In(i, Project(Value)), In(i, Project(Receptance)),
      In(i, DecayRate(TimeDecay))} <= e.open
    requires Reached(e.defined, i, 10)
    modifies e
    ensures e.Valid()
    ensures e.open >= old(e.open) - {In(i, Project(Key)), In(i, Project(Value)), In(i, Project(Receptance)),
      In(i, DecayRate(TimeDecay))} +
      {In(i, Heads(ReceptanceReshape)), In(i, Heads(TimeDecayReshape)), In(i, Heads(Kv))}
    ensures Reached(e.defined, i, 11) && Adds(old(e.defined), e.defined, i, {})
    ensures forall v :: Solves(e.lines, v) ==> Solves(old(e.lines), v) && HeadsIs(v, i)
  {
    hide Emitter.Valid;
    e.OpenIsDefined();
    e.Unary(Reshape(Columns), In(i, Project(Key)), In(i, Heads(KeyReshape)));
    e.Unary(Reshape(Rows), In(i, Project(Value)), In(i, Heads(ValueReshape)));
    e.Unary(Reshape(Rows), In(i, Project(Receptance)), In(i, Heads(ReceptanceReshape)));
    e.Unary(Reshape(Columns), In(i, DecayRate(TimeDecay)), In(i, Heads(TimeDecayReshape)));
    e.Binary(MatMul, In(i, Heads(KeyReshape)), In(i, Heads(ValueReshape)), In(i, Heads(Kv)));
  }

  ghost predicate ForkIs(v: Evaluation<Name>, i: nat) {
    && At(v, i, Fork(Kv0)) == At(v, i, Fork(Kv1)) == At(v, i, Heads(Kv))
    && At(v, i, Fork(WkvState0)) == At(v, i, Fork(WkvState1)) == v.values(StateIn(3 * i + 1))
  }

  /** Lines 373-374. */
  method BuildFork(e: Emitter<Name>, i: nat)
    requires e.Valid() && {In(i, Heads(Kv)), StateIn(3 * i + 1)} <= e.open
    requires Reached(e.defined, i, 11)
    modifies e
    ensures e.Valid()
    ensures e.open >= old(e.open) - {In(i, Heads(Kv)), StateIn(3 * i + 1)} +
      {In(i, Fork(Kv0)), In(i, Fork(Kv1)), In(i, Fork(WkvState0)), In(i, Fork(WkvState1))}
    ensures Reached(e.defined, i, 12) && Adds(old(e.defined), e.defined, i, {})
    ensures forall v :: Solves(e.lines, v) ==> Solves(old(e.lines), v) && ForkIs(v, i)
  {
    hide Emitter.Valid;
    e.OpenIsDefined();
    e.Split2(In(i, Heads(Kv)), In(i, Fork(Kv0)), In(i, Fork(Kv1)));
    e.Split2(StateIn(3 * i + 1), In(i, Fork(WkvState0)), In(i, Fork(WkvState1)));
  }

  ghost predicate WkvIs(v: Evaluation<Name>, i: nat) {
    var g := v.engine;
    At(v, i, Wkv(WkvOut)) == g.Product(At(v, i, Heads(ReceptanceReshape)),
      g.Plus(g.Times(At(v, i, Fork(Kv0)), At(v, i, Gating(TimeFirst))), At(v, i, Fork(WkvState0))))
  }

  /** Lines 375-377. */
  method BuildWkv(e: Emitter<Name>, i: nat)
    requires e.Valid() && {In(i, Fork(Kv0)), In(i, Gating(TimeFirst)), In(i, Fork(WkvState0)),
      In(i, Heads(ReceptanceReshape))} <= e.open
    requires Reached(e.defined, i, 12)
    modifies e
    ensures e.Valid()
    ensures e.open >= old(e.open) - {In(i, Fork(Kv0)), In(i, Gating(TimeFirst)), In(i, Fork(WkvState0)),
      In(i, Heads(ReceptanceReshape))} +
      {In(i, Wkv(WkvOut))}
    ensures Reached(e.defined, i, 13) && Adds(old(e.defined), e.defined, i, {})
    ensures forall v :: Solves(e.lines, v) ==> Solves(old(e.lines), v) && WkvIs(v, i)
  {
    hide Emitter.Valid;
    e.OpenIsDefined();
    e.Binary(Mul, In(i, Fork(Kv0)), In(i, Gating(TimeFirst)), In(i, Wkv(KvTimeFirst)));
    e.Binary(Add, In(i, Wkv(KvTimeFirst)), In(i, Fork(WkvState0)), In(i, Wkv(KvTfState)));
    e.Binary(MatMul, In(i, Heads(ReceptanceReshape)), In(i, Wkv(KvTfState)), In(i, Wkv(WkvOut)));
  }

  ghost predicate NextIs(v: Evaluation<Name>, i: nat) {
    var g := v.engine;
    && v.values(StateOut(3 * i + 1)) ==
      g.Plus(g.Times(At(v, i, Fork(WkvState1)), At(v, i, Heads(TimeDecayReshape))), At(v, i, Fork(Kv1)))
    && At(v, i, Next(WkvOutFlatten)) == g.Shaped(Flat, At(v, i, Wkv(WkvOut)))
  }

  /** Lines 378-380. */
  method BuildNext(e: Emitter<Name>, i: nat)
    requires e.Valid() && {In(i, Fork(WkvState1)), In(i, Heads(TimeDecayReshape)), In(i, Fork(Kv1)),
      In(i, Wkv(WkvOut))} <= e.open
    requires Reached(e.defined, i, 13) && StateOut(3 * i + 1) !in e.defined
    modifies e
    ensures e.Valid()
    ensures e.open >= old(e.open) - {In(i, Fork(WkvState1)), In(i, Heads(TimeDecayReshape)), In(i, Fork(Kv1)),
      In(i, Wkv(WkvOut))} +
      {StateOut(3 * i + 1), In(i, Next(WkvOutFlatten))}
    ensures Reached(e.defined, i, 14) && Adds(old(e.defined), e.defined, i, {StateOut(3 * i + 1)})
    ensures forall v :: Solves(e.lines, v) ==> Solves(old(e.lines), v) && NextIs(v, i)
  {
    hide Emitter.Valid;
    e.OpenIsDefined();
    e.Binary(Mul, In(i, Fork(WkvState1)), In(i, Heads(TimeDecayReshape)), In(i, Next(StateTd)));
    e.Binary(Add, In(i, Next(StateTd)), In(i, Fork(Kv1)), StateOut(3 * i + 1));
    e.Unary(Reshape(Flat), In(i, Wkv(WkvOut)), In(i, Next(WkvOutFlatten)));
  }

  ghost predicate FinishIs(v: Evaluation<Name>, output: Blob<Name>, i: nat) {
    var g := v.engine;
    v.values(output) == g.Plus(g.Linear(Tensor(i, "att.output"),
      g.Times(g.Weighted(GroupNorm("0.00001"), Tensor(i, "att.ln_x"), At(v, i, Next(WkvOutFlatten))),
              At(v, i, Gating(GateSilu)))), At(v, i, Keep(XLast)))
  }

  /** Lines 382-385. */
  method BuildFinish(e: Emitter<Name>, output: Blob<Name>, i: nat)
    requires e.Valid() && {In(i, Next(WkvOutFlatten)), In(i, Gating(GateSilu)), In(i, Keep(XLast))} <= e.open
    requires Reached(e.defined, i, 14) && output !in e.defined
    requires output.TimeMixingOut? || output.ChannelMixingOut?
    modifies e
    ensures e.Valid()
    ensures e.open >= old(e.open) - {In(i, Next(WkvOutFlatten)), In(i, Gating(GateSilu)), In(i, Keep(XLast))} +
      {output}
    ensures Reached(e.defined, i, 15) && Adds(old(e.defined), e.defined, i, {output})
    ensures forall v :: Solves(e.lines, v) ==> Solves(old(e.lines), v) && FinishIs(v, output, i)
  {
    hide Emitter.Valid;
    e.OpenIsDefined();
    e.GroupNormed(In(i, Next(WkvOutFlatten)), In(i, Finish(XGn)), "0.00001", Tensor(i, "att.ln_x"));
    e.Binary(Mul, In(i, Finish(XGn)), In(i, Gating(GateSilu)), In(i, Finish(XGate)));
    e.Linear(In(i, Finish(XGate)), In(i, Finish(XOut)), Tensor(i, "att.output"));
    e.Binary(Add, In(i, Finish(XOut)), In(i, Keep(XLast)), output);
  }

  ghost predicate FfnKeepIs(v: Evaluation<Name>, input: Blob<Name>, i: nat) {
    && At(v, i, FfnKeep(FXLast)) == v.values(input)
    && At(v, i, FfnKeep(FXX0)) == At(v, i, FfnKeep(FXX1)) == At(v, i, FfnKeep(FXX2)) == v.values(StateOut(3 * i + 2))
    && v.values(StateOut(3 * i + 2)) == v.engine.Weighted(LayerNorm, Tensor(i, "ln2"), v.values(input))
  }

  /** Lines 391-393. */
  method BuildFfnKeep(e: Emitter<Name>, input: Blob<Name>, i: nat)
    requires e.Valid() && {input} <= e.open
    requires Reached(e.defined, i, 15) && StateOut(3 * i + 2) !in e.defined
    requires !input.In? && !input.StateIn?
    modifies e
    ensures e.Valid()
    ensures e.open >= old(e.open) - {input} +
      {In(i, FfnKeep(FXLast)), In(i, FfnKeep(FXX0)), In(i, FfnKeep(FXX1)), In(i, FfnKeep(FXX2)),
      StateOut(3 * i + 2)}
    ensures Reached(e.defined, i, 16) && Adds(old(e.defined), e.defined, i, {StateOut(3 * i + 2)})
    ensures forall v :: Solves(e.lines, v) ==> Solves(old(e.lines), v) && FfnKeepIs(v, input, i)
  {
    hide Emitter.Valid;
    e.OpenIsDefined();
    e.Split2(input, In(i, FfnKeep(FXLast)), In(i, FfnKeep(FX)));
    e.LayerNormed(In(i, FfnKeep(FX)), In(i, FfnKeep(FXX)), Tensor(i, "ln2"));
    e.Split4(In(i, FfnKeep(FXX)), In(i, FfnKeep(FXX0)),
             In(i, FfnKeep(FXX1)), In(i, FfnKeep(FXX2)), StateOut(3 * i + 2));
  }

  ghost predicate FfnShiftIs(v: Evaluation<Name>, i: nat) {
    At(v, i, FfnShift(FSx0)) == At(v, i, FfnShift(FSx1)) ==
      v.engine.Binary(Sub, v.values(StateIn(3 * i + 2)), At(v, i, FfnKeep(FXX0)))
  }

  /** Lines 396-397. */
  method BuildFfnShift(e: Emitter<Name>, i: nat)
    requires e.Valid() && {StateIn(3 * i + 2), In(i, FfnKeep(FXX0))} <= e.open
    requires Reached(e.defined, i, 16)
    modifies e
    ensures e.Valid()
    ensures e.open >= old(e.open) - {StateIn(3 * i + 2), In(i, FfnKeep(FXX0))} +
      {In(i, FfnShift(FSx0)), In(i, FfnShift(FSx1))}
    ensures Reached(e.defined, i, 17) && Adds(old(e.defined), e.defined, i, {})
    ensures forall v :: Solves(e.lines, v) ==> Solves(old(e.lines), v) && FfnShiftIs(v, i)
  {
    hide Emitter.Valid;
    e.OpenIsDefined();
    e.Binary(Sub, StateIn(3 * i + 2), In(i, FfnKeep(FXX0)), In(i, FfnShift(FSx)));
    e.Split2(In(i, FfnShift(FSx)), In(i, FfnShift(FSx0)), In(i, FfnShift(FSx1)));
  }

  ghost predicate FfnScaleIs(v: Evaluation<Name>, i: nat) {
    var g := v.engine;
    && At(v, i, FfnScale(Xk)) == g.Times(At(v, i, FfnShift(FSx0)), g.Data(Tensor(i, "ffn.time_maa_k")))
    && At(v, i, FfnScale(Xr)) == g.Times(At(v, i, FfnShift(FSx1)), g.Data(Tensor(i, "ffn.time_maa_r")))
  }

  /** Lines 398-401. */
  method BuildFfnScale(e: Emitter<Name>, i: nat)
    requires e.Valid() && {In(i, FfnShift(FSx0)), In(i, FfnShift(FSx1))} <= e.open
    requires Reached(e.defined, i, 17)
    modifies e
    ensures e.Valid()
    ensures e.open >= old(e.open) - {In(i, FfnShift(FSx0)), In(i, FfnShift(FSx1))} +
      {In(i, FfnScale(Xk)), In(i, FfnScale(Xr))}
    ensures Reached(e.defined, i, 18) && Adds(old(e.defined), e.defined, i, {})
    ensures forall v :: Solves(e.lines, v) ==> Solves(old(e.lines), v) && FfnScaleIs(v, i)
  {
    hide Emitter.Valid;
    e.OpenIsDefined();
    e.Data(In(i, FfnScale(MaaK)), Tensor(i, "ffn.time_maa_k"));
    e.Data(In(i, FfnScale(MaaR)), Tensor(i, "ffn.time_maa_r"));
    e.Binary(Mul, In(i, FfnShift(FSx0)), In(i, FfnScale(MaaK)), In(i, FfnScale(Xk)));
    e.Binary(Mul, In(i, FfnShift(FSx1)), In(i, FfnScale(MaaR)), In(i, FfnScale(Xr)));
  }

  ghost predicate FfnMixIs(v: Evaluation<Name>, i: nat) {
    && At(v, i, FfnMix(XXk)) == v.engine.Plus(At(v, i, FfnScale(Xk)), At(v, i, FfnKeep(FXX1)))
    && At(v, i, FfnMix(XXr)) == v.engine.Plus(At(v, i, FfnScale(Xr)), At(v, i, FfnKeep(FXX2)))
  }

  /** Lines 402-403. */
  method BuildFfnMix(e: Emitter<Name>, i: nat)
    requires e.Valid() && {In(i, FfnScale(Xk)), In(i, FfnKeep(FXX1)), In(i, FfnScale(Xr)),
      In(i, FfnKeep(FXX2))} <= e.open
    requires Reached(e.defined, i, 18)
    modifies e
    ensures e.Valid()
    ensures e.open >= old(e.open) - {In(i, FfnScale(Xk)), In(i, FfnKeep(FXX1)), In(i, FfnScale(Xr)),
      In(i, FfnKeep(FXX2))} +
      {In(i, FfnMix(XXk)), In(i, FfnMix(XXr))}
    ensures Reached(e.defined, i, 19) && Adds(old(e.defined), e.defined, i, {})
    ensures forall v :: Solves(e.lines, v) ==> Solves(old(e.lines), v) && FfnMixIs(v, i)
  {
    hide Emitter.Valid;
    e.OpenIsDefined();
    e.Binary(Add, In(i, FfnScale(Xk)), In(i, FfnKeep(FXX1)), In(i, FfnMix(XXk)));
    e.Binary(Add, In(i, FfnScale(Xr)), In(i, FfnKeep(FXX2)), In(i, FfnMix(XXr)));
  }

  ghost predicate FfnProjectIs(v: Evaluation<Name>, i: nat) {
    && At(v, i, FfnProject(FKey)) == v.engine.Linear(Tensor(i, "ffn.key"), At(v, i, FfnMix(XXk)))
    && At(v, i, FfnProject(FReceptance)) == v.engine.Linear(Tensor(i, "ffn.receptance"), At(v, i, FfnMix(XXr)))
  }

  /** Lines 404-405. */
  method BuildFfnProject(e: Emitter<Name>, i: nat)
    requires e.Valid() && {In(i, FfnMix(XXk)), In(i, FfnMix(XXr))} <= e.open
    requires Reached(e.defined, i, 19)
    modifies e
    ensures e.Valid()
    ensures e.open >= old(e.open) - {In(i, FfnMix(XXk)), In(i, FfnMix(XXr))} +
      {In(i, FfnProject(FKey)), In(i, FfnProject(FReceptance))}
    ensures Reached(e.defined, i, 20) && Adds(old(e.defined), e.defined, i, {})
    ensures forall v :: Solves(e.lines, v) ==> Solves(old(e.lines), v) && FfnProjectIs(v, i)
  {
    hide Emitter.Valid;
    e.OpenIsDefined();
    e.Linear(In(i, FfnMix(XXk)), In(i, FfnProject(FKey)), Tensor(i, "ffn.key"));
    e.Linear(In(i, FfnMix(XXr)), In(i, FfnProject(FReceptance)), Tensor(i, "ffn.receptance"));
  }

  ghost predicate FfnActivateIs(v: Evaluation<Name>, i: nat) {
    var g := v.engine;
    && At(v, i, FfnActivate(FReceptanceSigmoid)) == g.Unary(Sigmoid, At(v, i, FfnProject(FReceptance)))
    && At(v, i, FfnActivate(KeyReluSquare)) == g.Unary(Square, g.Unary(ReLU, At(v, i, FfnProject(FKey))))
  }

  /** Lines 406-408. */
  method BuildFfnActivate(e: Emitter<Name>, i: nat)
    requires e.Valid() && {In(i, FfnProject(FReceptance)), In(i, FfnProject(FKey))} <= e.open
    requires Reached(e.defined, i, 20)
    modifies e
    ensures e.Valid()
    ensures e.open >= old(e.open) - {In(i, FfnProject(FReceptance)), In(i, FfnProject(FKey))} +
      {In(i, FfnActivate(FReceptanceSigmoid)), In(i, FfnActivate(KeyReluSquare))}
    ensures Reached(e.defined, i, 21) && Adds(old(e.defined), e.defined, i, {})
    ensures forall v :: Solves(e.lines, v) ==> Solves(old(e.lines), v) && FfnActivateIs(v, i)
  {
    hide Emitter.Valid;
    e.OpenIsDefined();
    e.Unary(Sigmoid, In(i, FfnProject(FReceptance)), In(i, FfnActivate(FReceptanceSigmoid)));
    e.Unary(ReLU, In(i, FfnProject(FKey)), In(i, FfnActivate(KeyRelu)));
    e.Unary(Square, In(i, FfnActivate(KeyRelu)), In(i, FfnActivate(KeyReluSquare)));
  }

  ghost predicate FfnFinishIs(v: Evaluation<Name>, output: Blob<Name>, i: nat) {
    var g := v.engine;
    v.values(output) == g.Plus(g.Times(g.Linear(Tensor(i, "ffn.value"), At(v, i, FfnActivate(KeyReluSquare))),
      At(v, i, FfnActivate(FReceptanceSigmoid))), At(v, i, FfnKeep(FXLast)))
  }

  /** Lines 409-411. */
  method BuildFfnFinish(e: Emitter<Name>, output: Blob<Name>, i: nat)
    requires e.Valid() && {In(i, FfnActivate(KeyReluSquare)), In(i, FfnActivate(FReceptanceSigmoid)),
      In(i, FfnKeep(FXLast))} <= e.open
    requires Reached(e.defined, i, 21) && output !in e.defined
    requires output.TimeMixingOut? || output.ChannelMixingOut?
    modifies e
    ensures e.Valid()
    ensures e.open >= old(e.open) - {In(i, FfnActivate(KeyReluSquare)), In(i, FfnActivate(FReceptanceSigmoid)),
      In(i, FfnKeep(FXLast))} +
      {output}
    ensures Reached(e.defined, i, 22) && Adds(old(e.defined), e.defined, i, {output})
    ensures forall v :: Solves(e.lines, v) ==> Solves(old(e.lines), v) && FfnFinishIs(v, output, i)
  {
    hide Emitter.Valid;
    e.OpenIsDefined();
    e.Linear(In(i, FfnActivate(KeyReluSquare)), In(i, FfnFinish(FValue)), Tensor(i, "ffn.value"));
    e.Binary(Mul, In(i, FfnFinish(FValue)), In(i, FfnActivate(FReceptanceSigmoid)), In(i, FfnFinish(Rv)));
    e.Binary(Add, In(i, FfnFinish(Rv)), In(i, FfnKeep(FXLast)), output);
  }

  ghost predicate PreparedIs(v: Evaluation<Name>, input: Blob<Name>, i: nat) {
    KeepIs(v, input, i) && ShiftIs(v, i) && LoraIs(v, i)
  }

  ghost predicate MixturesAre(v: Evaluation<Name>, i: nat) {
    SlicesIs(v, i) && MixIs(v, i) && FiveIs(v, i)
  }

  ghost predicate ProjectionsAre(v: Evaluation<Name>, i: nat) {
    DecayIs(v, i) && DecayRateIs(v, i) && ProjectIs(v, i) && GatingIs(v, i)
  }

  ghost predicate FrontIs(v: Evaluation<Name>, input: Blob<Name>, i: nat) {
    PreparedIs(v, input, i) && MixturesAre(v, i) && ProjectionsAre(v, i)
  }

  ghost predicate BackIs(v: Evaluation<Name>, i: nat) {
    HeadsIs(v, i) && ForkIs(v, i) && WkvIs(v, i) && NextIs(v, i) && FinishIs(v, TimeMixingOut(i), i)
  }

  /** The attention module of layer `i` (converter/rwkv_src/rwkv_v6_modules.py:107-178) as an engine computes it, all
      heads in one array, without the bounds that module puts on the decay. */
  function Att(g: Engine, i: nat): Attention<Array, Array, Array, Array, Array> {
    Attention(
      a => Normed(g, Tensor(i, "ln1"), a),
      (carried, a) => g.Binary(Sub, carried, a),
      (a, sx, _) => Lorad(g, i, a, sx),
      (c, l, a, sx) => g.Piece(Blended(g, i, l, a, sx), c),
      (x, _) => AsRow(g, g.Linear(Tensor(i, "att.receptance"), x)),
      (x, _) => AsColumn(g, g.Linear(Tensor(i, "att.key / 2"), x)),
      (x, _) => AsRow(g, g.Linear(Tensor(i, "att.value / 4"), x)),
      (x, _) => AsColumn(g, Decayed(g, i, x)),
      x => Gated(g, g.Linear(Tensor(i, "att.gate"), x)),
      (k, w) => g.Product(k, w),
      (_, kv, m) => First(g, i, kv, m),
      (r, m) => g.Product(r, m),
      (kv, m, d) => g.Plus(g.Times(m, d), kv),
      (x, heads, gate) => Finished(g, i, x, All(heads), gate))
  }

  /** The one array that holds all heads. */
  function All(heads: seq<Array>): Array { if |heads| == 1 then heads[0] else Array([], []) }

  function Normed(g: Engine, t: Tensor, a: Array): Array { g.Weighted(LayerNorm, t, a) }

  /** Each head a row, or a column. */
  function AsRow(g: Engine, a: Array): Array { g.Shaped(Rows, a) }

  function AsColumn(g: Engine, a: Array): Array { g.Shaped(Columns, a) }

  /** The low-rank part of the five mixtures. */
  function Lorad(g: Engine, i: nat, a: Array, sx: Array): Array {
    var mixed := g.Plus(a, g.Times(sx, g.Data(Tensor(i, "att.time_maa_x"))));
    g.Product(g.Shaped(Fives, g.Unary(TanH, g.Linear(Tensor(i, "att.time_maa_w1"), mixed))),
              g.Data(Tensor(i, "att.time_maa_w2")))
  }

  /** The five mixtures in one array. */
  function Blended(g: Engine, i: nat, l: Array, a: Array, sx: Array): Array {
    g.Plus(a, g.Times(sx, g.Unary(Squeeze, g.Plus(l, g.Data(Tensor(i, "att.time_maa"))))))
  }

  /** exp(-exp(w)) */
  function Decayed(g: Engine, i: nat, x: Array): Array {
    var w := g.Linear(Tensor(i, "att.time_decay_w2"), g.Unary(TanH, g.Linear(Tensor(i, "att.time_decay_w1"), x)));
    g.Unary(Exp("-1.0"), g.Unary(Exp("1.0"), g.Plus(w, g.Data(Tensor(i, "att.time_decay")))))
  }

  function Gated(g: Engine, gate: Array): Array { g.Times(gate, g.Unary(Sigmoid, gate)) }

  /** The new product with its bonus, on top of the state. */
  function First(g: Engine, i: nat, kv: Array, m: Array): Array {
    g.Plus(g.Times(kv, g.Data(Tensor(i, "att.time_faaaa"))), m)
  }

  /** Normalised by heads, gated, projected, and on top of the input. */
  function Finished(g: Engine, i: nat, x: Array, heads: Array, gate: Array): Array {
    var normed := g.Weighted(GroupNorm("0.00001"), Tensor(i, "att.ln_x"), g.Shaped(Flat, heads));
    g.Plus(g.Linear(Tensor(i, "att.output"), g.Times(normed, gate)), x)
  }

  /** The feed-forward module of layer `i` (lines 215-235 there). */
  function Ffn(g: Engine, i: nat): FeedForward<Array> {
    FeedForward(
      a => Normed(g, Tensor(i, "ln2"), a),
      (carried, a) => g.Binary(Sub, carried, a),
      (a, sx) => FfnMixed(g, Tensor(i, "ffn.time_maa_k"), a, sx),
      (a, sx) => FfnMixed(g, Tensor(i, "ffn.time_maa_r"), a, sx),
      k => FfnValued(g, i, k),
      r => g.Unary(Sigmoid, g.Linear(Tensor(i, "ffn.receptance"), r)),
      (r, k, x) => g.Plus(g.Times(k, r), x))
  }

  function FfnMixed(g: Engine, t: Tensor, a: Array, sx: Array): Array { g.Plus(g.Times(sx, g.Data(t)), a) }

  function FfnValued(g: Engine, i: nat, k: Array): Array {
    g.Linear(Tensor(i, "ffn.value"), g.Unary(Square, g.Unary(ReLU, g.Linear(Tensor(i, "ffn.key"), k))))
  }

  /** What its parts do. */
  ghost predicate Parts(att: Attention<Array, Array, Array, Array, Array>, g: Engine, i: nat) {
    && (forall a :: att.ln(a) == Normed(g, Tensor(i, "ln1"), a))
    && (forall b, a :: att.subtract(b, a) == g.Binary(Sub, b, a))
    && (forall a, sx, c :: att.lora(a, sx, c) == Lorad(g, i, a, sx))
    && (forall c, l, a, sx :: att.blend(c, l, a, sx) == g.Piece(Blended(g, i, l, a, sx), c))
    && (forall x, h :: att.receptance(x, h) == AsRow(g, g.Linear(Tensor(i, "att.receptance"), x)))
    && (forall x, h :: att.key(x, h) == AsColumn(g, g.Linear(Tensor(i, "att.key / 2"), x)))
    && (forall x, h :: att.value(x, h) == AsRow(g, g.Linear(Tensor(i, "att.value / 4"), x)))
    && (forall x, h :: att.decay(x, h) == AsColumn(g, Decayed(g, i, x)))
    && (forall x :: att.gate(x) == Gated(g, g.Linear(Tensor(i, "att.gate"), x)))
    && (forall k, w :: att.outer(k, w) == g.Product(k, w))
    && (forall h, kv, m :: att.first(h, kv, m) == First(g, i, kv, m))
    && (forall r, m :: att.read(r, m) == g.Product(r, m))
    && (forall kv, m, d :: att.next(kv, m, d) == g.Plus(g.Times(m, d), kv))
    && (forall x, heads, gate :: att.finish(x, heads, gate) == Finished(g, i, x, All(heads), gate))
  }

  lemma AttParts(g: Engine, i: nat)
    ensures Parts(Att(g, i), g, i)
  {
    hide Normed, Lorad, Blended, AsRow, AsColumn, Decayed, Gated, First, Finished, All;
  }

  /** One token through an attention layer, with the graph's blobs for its input, output and states. */
  ghost predicate Attends(att: Attention<Array, Array, Array, Array, Array>, v: Evaluation<Name>, input: Blob<Name>,
                          i: nat)
  {
    att.Token(v.values(input), AttState(v.values(StateIn(3 * i)), [v.values(StateIn(3 * i + 1))])) ==
    (v.values(TimeMixingOut(i)), AttState(v.values(StateOut(3 * i)), [v.values(StateOut(3 * i + 1))]))
  }

  /** The half of the graph for layer `i` computes the token machine of the attention module. */
  ghost predicate AttIs(v: Evaluation<Name>, input: Blob<Name>, i: nat) { Attends(Att(v.engine, i), v, input, i) }

  ghost predicate FfnIs(v: Evaluation<Name>, input: Blob<Name>, i: nat) {
    Ffn(v.engine, i).Token(v.values(input), v.values(StateIn(3 * i + 2))) ==
    (v.values(ChannelMixingOut(i)), v.values(StateOut(3 * i + 2)))
  }

  lemma AttentionIs(v: Evaluation<Name>, input: Blob<Name>, i: nat)
    requires FrontIs(v, input, i) && BackIs(v, i)
    ensures AttIs(v, input, i)
  {
    hide Att, Parts, FrontIs, BackIs, Attends;
    AttParts(v.engine, i);
    TokenIs(Att(v.engine, i), v, input, i);
  }

  lemma TokenIs(att: Attention<Array, Array, Array, Array, Array>, v: Evaluation<Name>, input: Blob<Name>, i: nat)
    requires Parts(att, v.engine, i) && FrontIs(v, input, i) && BackIs(v, i)
    ensures Attends(att, v, input, i)
  {
    var m := v.values(StateIn(3 * i + 1));
    var a := att.ln(v.values(input));
    var sx := att.subtract(v.values(StateIn(3 * i)), a);
    MixturesIn(att, v, input, i);
    hide PreparedIs, MixturesAre, Lorad, Blended;
    assert att.ReadAll(a, sx, [m]) == [At(v, i, Wkv(WkvOut))];
    assert att.NextAll(a, sx, [m]) == [v.values(StateOut(3 * i + 1))];
  }

  /** The five mixtures, the kept input and the normalised one. */
  lemma MixturesIn(att: Attention<Array, Array, Array, Array, Array>, v: Evaluation<Name>, input: Blob<Name>, i: nat)
    requires Parts(att, v.engine, i) && PreparedIs(v, input, i) && MixturesAre(v, i)
    ensures var a := att.ln(v.values(input));
      var sx := att.subtract(v.values(StateIn(3 * i)), a);
      && v.values(StateOut(3 * i)) == a && At(v, i, Keep(XLast)) == v.values(input)
      && At(v, i, Five(Mw)) == att.Mixture(0, a, sx) && At(v, i, Five(Mk)) == att.Mixture(1, a, sx)
      && At(v, i, Five(Mv)) == att.Mixture(2, a, sx) && At(v, i, Five(Mr)) == att.Mixture(3, a, sx)
      && At(v, i, Five(Mg)) == att.Mixture(4, a, sx)
  {
  }

  lemma FeedForwardIs(v: Evaluation<Name>, input: Blob<Name>, i: nat)
    requires FfnKeepIs(v, input, i) && FfnShiftIs(v, i) && FfnScaleIs(v, i) && FfnMixIs(v, i)
    requires FfnProjectIs(v, i) && FfnActivateIs(v, i) && FfnFinishIs(v, ChannelMixingOut(i), i)
    ensures FfnIs(v, input, i)
  {
  }

  /** The shifted input and its first mixture (lines 325-336). */
  method Prepare(e: Emitter<Name>, input: Blob<Name>, i: nat)
    requires e.Valid() && {input, StateIn(3 * i)} <= e.open
    requires Reached(e.defined, i, 0) && {StateOut(3 * i)} !! e.defined && !input.In? && !input.StateIn?
    modifies e
    ensures e.Valid() && {In(i, Keep(XLast)), In(i, Keep(XX2)), In(i, Shift(Sx1)), In(i, Lora(MaaXLora)),
      StateOut(3 * i)} <= e.open
    ensures Keeps(old(e.open), e.open, {input, StateIn(3 * i)})
    ensures Reached(e.defined, i, 3) && Adds(old(e.defined), e.defined, i, {StateOut(3 * i)})
    ensures forall v :: Solves(e.lines, v) ==> Solves(old(e.lines), v) && PreparedIs(v, input, i)
  {
    hide Emitter.Valid, Reached, Adds, Keeps, Progress, KeepIs, ShiftIs, LoraIs;
    ghost var o0, d0 := e.open, e.defined;
    Begun(o0, d0, i);
    BuildKeep(e, input, i);
    ghost var o1, d1 := e.open, e.defined;
    Onward(o0, d0, o0, d0, o1, d1, i, {}, {}, {input}, {input}, {StateOut(3 * i)}, {input}, {StateOut(3 * i)});
    BuildShift(e, i);
    ghost var o2, d2 := e.open, e.defined;
    Onward(o0, d0, o1, d1, o2, d2, i, {input}, {StateOut(3 * i)}, {StateIn(3 * i), In(i, Keep(XX0))},
           {StateIn(3 * i)}, {}, {input, StateIn(3 * i)}, {StateOut(3 * i)});
    BuildLora(e, i);
    ghost var o3, d3 := e.open, e.defined;
    Onward(o0, d0, o2, d2, o3, d3, i, {input, StateIn(3 * i)}, {StateOut(3 * i)},
           {In(i, Shift(Sx0)), In(i, Keep(XX1))}, {}, {}, {input, StateIn(3 * i)}, {StateOut(3 * i)});
    Arrived(o0, d0, o3, d3, i, {input, StateIn(3 * i)}, {StateOut(3 * i)});
  }

  /** The five mixtures of the input (lines 337-348). */
  method Mixtures(e: Emitter<Name>, i: nat)
    requires e.Valid() && {In(i, Keep(XLast)), In(i, Keep(XX2)), In(i, Shift(Sx1)), In(i, Lora(MaaXLora))} <= e.open
    requires Reached(e.defined, i, 3)
    modifies e
    ensures e.Valid() && {In(i, Keep(XLast)), In(i, Five(Mw)), In(i, Five(Mk)), In(i, Five(Mv)), In(i, Five(Mr)),
      In(i, Five(Mg))} <= e.open
    ensures Keeps(old(e.open), e.open, {})
    ensures Reached(e.defined, i, 6) && Adds(old(e.defined), e.defined, i, {})
    ensures forall v :: Solves(e.lines, v) ==> Solves(old(e.lines), v) && MixturesAre(v, i)
  {
    hide Emitter.Valid, Reached, Adds, Keeps, Progress, SlicesIs, MixIs, FiveIs;
    ghost var o0, d0 := e.open, e.defined;
    Begun(o0, d0, i);
    BuildSlices(e, i);
    ghost var o1, d1 := e.open, e.defined;
    Onward(o0, d0, o0, d0, o1, d1, i, {}, {}, {In(i, Lora(MaaXLora))}, {}, {}, {}, {});
    BuildMix(e, i);
    ghost var o2, d2 := e.open, e.defined;
    Onward(o0, d0, o1, d1, o2, d2, i, {}, {}, {In(i, Slices(MaaXPostLora)), In(i, Shift(Sx1)), In(i, Keep(XX2))}, {},
           {}, {}, {});
    BuildFive(e, i);
    ghost var o3, d3 := e.open, e.defined;
    Onward(o0, d0, o2, d2, o3, d3, i, {}, {}, {In(i, Mix(MaaWkvrg))}, {}, {}, {}, {});
    Arrived(o0, d0, o3, d3, i, {}, {});
  }

  /** Decay, heads and gate (lines 350-365). */
  method Projections(e: Emitter<Name>, i: nat)
    requires e.Valid() && {In(i, Keep(XLast)), In(i, Five(Mw)), In(i, Five(Mk)), In(i, Five(Mv)), In(i, Five(Mr)),
      In(i, Five(Mg))} <= e.open
    requires Reached(e.defined, i, 6)
    modifies e
    ensures e.Valid() && {In(i, Keep(XLast)), In(i, DecayRate(TimeDecay)), In(i, Project(Key)),
      In(i, Project(Value)), In(i, Project(Receptance)), In(i, Gating(GateSilu)),
      In(i, Gating(TimeFirst))} <= e.open
    ensures Keeps(old(e.open), e.open, {})
    ensures Reached(e.defined, i, 10) && Adds(old(e.defined), e.defined, i, {})
    ensures forall v :: Solves(e.lines, v) ==> Solves(old(e.lines), v) && ProjectionsAre(v, i)
  {
    hide Emitter.Valid, Reached, Adds, Keeps, Progress, DecayIs, DecayRateIs, ProjectIs, GatingIs;
    ghost var o0, d0 := e.open, e.defined;
    Begun(o0, d0, i);
    BuildDecay(e, i);
    ghost var o1, d1 := e.open, e.defined;
    Onward(o0, d0, o0, d0, o1, d1, i, {}, {}, {In(i, Five(Mw))}, {}, {}, {}, {});
    BuildDecayRate(e, i);
    ghost var o2, d2 := e.open, e.defined;
    Onward(o0, d0, o1, d1, o2, d2, i, {}, {}, {In(i, Decay(MwLoraTanhLinear))}, {}, {}, {}, {});
    BuildProject(e, i);
    ghost var o3, d3 := e.open, e.defined;
    Onward(o0, d0, o2, d2, o3, d3, i, {}, {}, {In(i, Five(Mk)), In(i, Five(Mv)), In(i, Five(Mr)), In(i, Five(Mg))},
           {}, {}, {}, {});
    BuildGating(e, i);
    ghost var o4, d4 := e.open, e.defined;
    Onward(o0, d0, o3, d3, o4, d4, i, {}, {}, {In(i, Project(Gate))}, {}, {}, {}, {});
    Arrived(o0, d0, o4, d4, i, {}, {});
  }

  /** Keys, values and state as heads (lines 368-374). */
  method Shape(e: Emitter<Name>, i: nat)
    requires e.Valid() && {In(i, Keep(XLast)), In(i, DecayRate(TimeDecay)), In(i, Project(Key)),
      In(i, Project(Value)), In(i, Project(Receptance)), In(i, Gating(GateSilu)), In(i, Gating(TimeFirst)),
      StateIn(3 * i + 1)} <= e.open
    requires Reached(e.defined, i, 10)
    modifies e
    ensures e.Valid() && {In(i, Keep(XLast)), In(i, Gating(GateSilu)), In(i, Gating(TimeFirst)),
      In(i, Heads(ReceptanceReshape)), In(i, Heads(TimeDecayReshape)), In(i, Fork(Kv0)), In(i, Fork(Kv1)),
      In(i, Fork(WkvState0)), In(i, Fork(WkvState1))} <= e.open
    ensures Keeps(old(e.open), e.open, {StateIn(3 * i + 1)})
    ensures Reached(e.defined, i, 12) && Adds(old(e.defined), e.defined, i, {})
    ensures forall v :: Solves(e.lines, v) ==> Solves(old(e.lines), v) && HeadsIs(v, i) && ForkIs(v, i)
  {
    hide Emitter.Valid, Reached, Adds, Keeps, Progress, HeadsIs, ForkIs;
    ghost var o0, d0 := e.open, e.defined;
    Begun(o0, d0, i);
    BuildHeads(e, i);
    ghost var o1, d1 := e.open, e.defined;
    Onward(o0, d0, o0, d0, o1, d1, i, {}, {},
           {In(i, Project(Key)), In(i, Project(Value)), In(i, Project(Receptance)), In(i, DecayRate(TimeDecay))}, {},
           {}, {}, {});
    BuildFork(e, i);
    ghost var o2, d2 := e.open, e.defined;
    Onward(o0, d0, o1, d1, o2, d2, i, {}, {}, {In(i, Heads(Kv)), StateIn(3 * i + 1)}, {StateIn(3 * i + 1)}, {},
           {StateIn(3 * i + 1)}, {});
    Arrived(o0, d0, o2, d2, i, {StateIn(3 * i + 1)}, {});
  }

  /** The recurrence of the heads (lines 375-380). */
  method Attend(e: Emitter<Name>, i: nat)
    requires e.Valid() && {In(i, Keep(XLast)), In(i, Gating(GateSilu)), In(i, Gating(TimeFirst)),
      In(i, Heads(ReceptanceReshape)), In(i, Heads(TimeDecayReshape)), In(i, Fork(Kv0)), In(i, Fork(Kv1)),
      In(i, Fork(WkvState0)), In(i, Fork(WkvState1))} <= e.open
    requires Reached(e.defined, i, 12) && {StateOut(3 * i + 1)} !! e.defined
    modifies e
    ensures e.Valid() && {In(i, Keep(XLast)), In(i, Next(WkvOutFlatten)), In(i, Gating(GateSilu)),
      StateOut(3 * i + 1)} <= e.open
    ensures Keeps(old(e.open), e.open, {})
    ensures Reached(e.defined, i, 14) && Adds(old(e.defined), e.defined, i, {StateOut(3 * i + 1)})
    ensures forall v :: Solves(e.lines, v) ==> Solves(old(e.lines), v) && WkvIs(v, i) && NextIs(v, i)
  {
    hide Emitter.Valid, Reached, Adds, Keeps, Progress, WkvIs, NextIs;
    ghost var o0, d0 := e.open, e.defined;
    Begun(o0, d0, i);
    BuildWkv(e, i);
    ghost var o1, d1 := e.open, e.defined;
    Onward(o0, d0, o0, d0, o1, d1, i, {}, {},
           {In(i, Fork(Kv0)), In(i, Gating(TimeFirst)), In(i, Fork(WkvState0)), In(i, Heads(ReceptanceReshape))}, {},
           {}, {}, {});
    StillNew(o0, d0, o1, d1, i, {}, {}, StateOut(3 * i + 1));
    BuildNext(e, i);
    ghost var o2, d2 := e.open, e.defined;
    Onward(o0, d0, o1, d1, o2, d2, i, {}, {},
           {In(i, Fork(WkvState1)), In(i, Heads(TimeDecayReshape)), In(i, Fork(Kv1)), In(i, Wkv(WkvOut))}, {},
           {StateOut(3 * i + 1)}, {}, {StateOut(3 * i + 1)});
    Arrived(o0, d0, o2, d2, i, {}, {StateOut(3 * i + 1)});
  }

  /** The first half of the block (lines 325-365). */
  method TimeMixingFront(e: Emitter<Name>, input: Blob<Name>, i: nat)
    requires e.Valid() && {input, StateIn(3 * i)} <= e.open && !input.In? && !input.StateIn?
    requires Reached(e.defined, i, 0) && StateOut(3 * i) !in e.defined
    modifies e
    ensures e.Valid() && {In(i, Keep(XLast)), In(i, DecayRate(TimeDecay)), In(i, Project(Key)),
      In(i, Project(Value)), In(i, Project(Receptance)), In(i, Gating(GateSilu)), In(i, Gating(TimeFirst)),
      StateOut(3 * i)} <= e.open
    ensures Keeps(old(e.open), e.open, {input, StateIn(3 * i)})
    ensures Reached(e.defined, i, 10) && Adds(old(e.defined), e.defined, i, {StateOut(3 * i)})
    ensures forall v :: Solves(e.lines, v) ==> Solves(old(e.lines), v) && FrontIs(v, input, i)
  {
    hide Emitter.Valid, Reached, Adds, PreparedIs, MixturesAre, ProjectionsAre;
    Prepare(e, input, i);
    ghost var d1 := e.defined;
    Mixtures(e, i);
    ghost var d2 := e.defined;
    AddsThen(old(e.defined), d1, d2, i, {StateOut(3 * i)}, {});
    Projections(e, i);
    AddsThen(old(e.defined), d2, e.defined, i, {StateOut(3 * i)}, {});
  }

  /** The second half (lines 368-385). */
  method TimeMixingBack(e: Emitter<Name>, i: nat)
    requires e.Valid() && {In(i, Keep(XLast)), In(i, DecayRate(TimeDecay)), In(i, Project(Key)),
      In(i, Project(Value)), In(i, Project(Receptance)), In(i, Gating(GateSilu)), In(i, Gating(TimeFirst)),
      StateIn(3 * i + 1)} <= e.open
    requires Reached(e.defined, i, 10) && {StateOut(3 * i + 1), TimeMixingOut(i)} !! e.defined
    modifies e
    ensures e.Valid() && {StateOut(3 * i + 1), TimeMixingOut(i)} <= e.open
    ensures Keeps(old(e.open), e.open, {StateIn(3 * i + 1)})
    ensures Reached(e.defined, i, 15) && Adds(old(e.defined), e.defined, i, {StateOut(3 * i + 1), TimeMixingOut(i)})
    ensures forall v :: Solves(e.lines, v) ==> Solves(old(e.lines), v) && BackIs(v, i)
  {
    hide Emitter.Valid, Reached, HeadsIs, ForkIs, WkvIs, NextIs, FinishIs;
    Shape(e, i);
    Attend(e, i);
    BuildFinish(e, TimeMixingOut(i), i);
  }

  /** `build_time_mixing_v6` */
  method TimeMixing(e: Emitter<Name>, input: Blob<Name>, i: nat)
    requires e.Valid() && {input, StateIn(3 * i), StateIn(3 * i + 1)} <= e.open && !input.In? && !input.StateIn?
    requires Reached(e.defined, i, 0) && {StateOut(3 * i), StateOut(3 * i + 1), TimeMixingOut(i)} !! e.defined
    modifies e
    ensures e.Valid() && {StateOut(3 * i), StateOut(3 * i + 1), TimeMixingOut(i)} <= e.open
    ensures Keeps(old(e.open), e.open, {input, StateIn(3 * i), StateIn(3 * i + 1)})
    ensures Reached(e.defined, i, 15)
    ensures Adds(old(e.defined), e.defined, i, {StateOut(3 * i), StateOut(3 * i + 1), TimeMixingOut(i)})
    ensures forall v :: Solves(e.lines, v) ==> Solves(old(e.lines), v) && AttIs(v, input, i)
  {
    hide Emitter.Valid, Reached, FrontIs, BackIs, AttIs;
    TimeMixingFront(e, input, i);
    TimeMixingBack(e, i);
    forall v | Solves(e.lines, v) ensures AttIs(v, input, i) {
      AttentionIs(v, input, i);
    }
  }

  /** The shifted input (lines 391-397). */
  method ChannelShift(e: Emitter<Name>, input: Blob<Name>, i: nat)
    requires e.Valid() && {input, StateIn(3 * i + 2)} <= e.open
    requires Reached(e.defined, i, 15) && {StateOut(3 * i + 2)} !! e.defined && !input.In? && !input.StateIn?
    modifies e
    ensures e.Valid() && {In(i, FfnKeep(FXLast)), In(i, FfnKeep(FXX1)), In(i, FfnKeep(FXX2)), In(i, FfnShift(FSx0)),
      In(i, FfnShift(FSx1)), StateOut(3 * i + 2)} <= e.open
    ensures Keeps(old(e.open), e.open, {input, StateIn(3 * i + 2)})
    ensures Reached(e.defined, i, 17) && Adds(old(e.defined), e.defined, i, {StateOut(3 * i + 2)})
    ensures forall v :: Solves(e.lines, v) ==> Solves(old(e.lines), v) && FfnKeepIs(v, input, i) && FfnShiftIs(v, i)
  {
    hide Emitter.Valid, Reached, Adds, Keeps, Progress, FfnKeepIs, FfnShiftIs;
    ghost var o0, d0 := e.open, e.defined;
    Begun(o0, d0, i);
    BuildFfnKeep(e, input, i);
    ghost var o1, d1 := e.open, e.defined;
    Onward(o0, d0, o0, d0, o1, d1, i, {}, {}, {input}, {input}, {StateOut(3 * i + 2)}, {input},
           {StateOut(3 * i + 2)});
    BuildFfnShift(e, i);
    ghost var o2, d2 := e.open, e.defined;
    Onward(o0, d0, o1, d1, o2, d2, i, {input}, {StateOut(3 * i + 2)}, {StateIn(3 * i + 2), In(i, FfnKeep(FXX0))},
           {StateIn(3 * i + 2)}, {}, {input, StateIn(3 * i + 2)}, {StateOut(3 * i + 2)});
    Arrived(o0, d0, o2, d2, i, {input, StateIn(3 * i + 2)}, {StateOut(3 * i + 2)});
  }

  /** Its two mixtures (lines 398-403). */
  method ChannelMix(e: Emitter<Name>, i: nat)
    requires e.Valid() && {In(i, FfnKeep(FXLast)), In(i, FfnKeep(FXX1)), In(i, FfnKeep(FXX2)),
      In(i, FfnShift(FSx0)), In(i, FfnShift(FSx1))} <= e.open
    requires Reached(e.defined, i, 17)
    modifies e
    ensures e.Valid() && {In(i, FfnKeep(FXLast)), In(i, FfnMix(XXk)), In(i, FfnMix(XXr))} <= e.open
    ensures Keeps(old(e.open), e.open, {})
    ensures Reached(e.defined, i, 19) && Adds(old(e.defined), e.defined, i, {})
    ensures forall v :: Solves(e.lines, v) ==> Solves(old(e.lines), v) && FfnScaleIs(v, i) && FfnMixIs(v, i)
  {
    hide Emitter.Valid, Reached, Adds, Keeps, Progress, FfnScaleIs, FfnMixIs;
    ghost var o0, d0 := e.open, e.defined;
    Begun(o0, d0, i);
    BuildFfnScale(e, i);
    ghost var o1, d1 := e.open, e.defined;
    Onward(o0, d0, o0, d0, o1, d1, i, {}, {}, {In(i, FfnShift(FSx0)), In(i, FfnShift(FSx1))}, {}, {}, {}, {});
    BuildFfnMix(e, i);
    ghost var o2, d2 := e.open, e.defined;
    Onward(o0, d0, o1, d1, o2, d2, i, {}, {},
           {In(i, FfnScale(Xk)), In(i, FfnKeep(FXX1)), In(i, FfnScale(Xr)), In(i, FfnKeep(FXX2))}, {}, {}, {}, {});
    Arrived(o0, d0, o2, d2, i, {}, {});
  }

  /** `build_channel_mixing_v6` */
  method ChannelMixing(e: Emitter<Name>, input: Blob<Name>, i: nat)
    requires e.Valid() && {input, StateIn(3 * i + 2)} <= e.open && !input.In? && !input.StateIn?
    requires Reached(e.defined, i, 15) && {StateOut(3 * i + 2), ChannelMixingOut(i)} !! e.defined
    modifies e
    ensures e.Valid() && {StateOut(3 * i + 2), ChannelMixingOut(i)} <= e.open
    ensures Keeps(old(e.open), e.open, {input, StateIn(3 * i + 2)})
    ensures Reached(e.defined, i, 22)
    ensures Adds(old(e.defined), e.defined, i, {StateOut(3 * i + 2), ChannelMixingOut(i)})
    ensures forall v :: Solves(e.lines, v) ==> Solves(old(e.lines), v) && FfnIs(v, input, i)
  {
    hide Emitter.Valid, Reached, FfnKeepIs, FfnShiftIs, FfnScaleIs, FfnMixIs, FfnProjectIs, FfnActivateIs,
      FfnFinishIs, FfnIs;
    ChannelShift(e, input, i);
    ChannelMix(e, i);
    BuildFfnProject(e, i);
    BuildFfnActivate(e, i);
    BuildFfnFinish(e, ChannelMixingOut(i), i);
    forall v | Solves(e.lines, v) ensures FfnIs(v, input, i) {
      FeedForwardIs(v, input, i);
    }
  }

  /** At the head of round `i` of the layer loop. */
  ghost predicate Layered(e: Emitter<Name>, layers: nat, i: nat, input: Blob<Name>)
    reads e
  {
    e.Valid() && Reached(e.defined, i, 0) && Standing(e.open, e.defined, layers, i, input)
  }

  ghost predicate Standing(open: set<Blob<Name>>, defined: set<Blob<Name>>, layers: nat, i: nat, input: Blob<Name>) {
    && input in open && !input.In? && !input.StateIn? && !input.StateOut?
    && (forall k :: 3 * i <= k < 3 * layers ==> StateIn(k) in open)
    && (forall k :: 0 <= k < 3 * i ==> StateOut(k) in open)
    && (forall b :: b in defined ==>
      && (b.StateOut? ==> b.n < 3 * i) && (b.TimeMixingOut? || b.ChannelMixingOut? ==> b.layer < i)
      && b !in {NormHead, Logits})
  }

  /** One round of the layer loop (converter/convert_rwkv_to_ncnn.py:33-42). */
  method Layer(e: Emitter<Name>, ghost layers: nat, i: nat, input: Blob<Name>)
    requires i < layers && Layered(e, layers, i, input)
    modifies e
    ensures Layered(e, layers, i + 1, ChannelMixingOut(i))
    ensures forall v :: Solves(e.lines, v) ==>
      Solves(old(e.lines), v) && AttIs(v, input, i) && FfnIs(v, TimeMixingOut(i), i)
  {
    hide Emitter.Valid, Reached, Adds, Keeps, Standing, AttIs, FfnIs;
    e.OpenIsDefined();
    ghost var o0, d0 := e.open, e.defined;
    Standing0(o0, d0, layers, i, input);
    TimeMixing(e, input, i);
    ghost var o1, d1 := e.open, e.defined;
    Standing1(o0, d0, o1, d1, layers, i, input);
    ChannelMixing(e, TimeMixingOut(i), i);
    Standing2(o0, d0, o1, d1, e.open, e.defined, layers, i, input);
    NextLayer(e.defined, i);
  }

  /** What time mixing finds. */
  lemma Standing0(open: set<Blob<Name>>, defined: set<Blob<Name>>, layers: nat, i: nat, input: Blob<Name>)
    requires i < layers && Standing(open, defined, layers, i, input) && open <= defined
    ensures {input, StateIn(3 * i), StateIn(3 * i + 1)} <= open && !input.In? && !input.StateIn?
    ensures {StateOut(3 * i), StateOut(3 * i + 1), TimeMixingOut(i)} !! defined
  {
  }

  /** What channel mixing finds. */
  lemma Standing1(open: set<Blob<Name>>, defined: set<Blob<Name>>, open1: set<Blob<Name>>, defined1: set<Blob<Name>>,
                  layers: nat, i: nat, input: Blob<Name>)
    requires i < layers && Standing(open, defined, layers, i, input)
    requires Keeps(open, open1, {input, StateIn(3 * i), StateIn(3 * i + 1)})
    requires Adds(defined, defined1, i, {StateOut(3 * i), StateOut(3 * i + 1), TimeMixingOut(i)})
    ensures StateIn(3 * i + 2) in open1 && {StateOut(3 * i + 2), ChannelMixingOut(i)} !! defined1
  {
  }

  /** What the layer leaves. */
  lemma Standing2(open: set<Blob<Name>>, defined: set<Blob<Name>>, open1: set<Blob<Name>>, defined1: set<Blob<Name>>,
                  open2: set<Blob<Name>>, defined2: set<Blob<Name>>, layers: nat, i: nat, input: Blob<Name>)
    requires i < layers && Standing(open, defined, layers, i, input)
    requires Keeps(open, open1, {input, StateIn(3 * i), StateIn(3 * i + 1)})
    requires Adds(defined, defined1, i, {StateOut(3 * i), StateOut(3 * i + 1), TimeMixingOut(i)})
    requires {StateOut(3 * i), StateOut(3 * i + 1), TimeMixingOut(i)} <= open1
    requires Keeps(open1, open2, {TimeMixingOut(i), StateIn(3 * i + 2)})
    requires Adds(defined1, defined2, i, {StateOut(3 * i + 2), ChannelMixingOut(i)})
    requires {StateOut(3 * i + 2), ChannelMixingOut(i)} <= open2
    ensures Standing(open2, defined2, layers, i + 1, ChannelMixingOut(i))
  {
    forall k | 0 <= k < 3 * (i + 1) ensures StateOut(k) in open2 {
      if k < 3 * i { assert StateOut(k) in open1; }
    }
    forall k | 3 * (i + 1) <= k < 3 * layers ensures StateIn(k) in open2 {
      assert StateIn(k) in open1;
    }
  }

  lemma NextLayer(defined: set<Blob<Name>>, i: nat)
    requires Reached(defined, i, 22)
    ensures Reached(defined, i + 1, 0)
  {
  }

  /** What layer `i` is fed with. */
  function InputOf(i: nat): Blob<Name> { if i == 0 then Emb else ChannelMixingOut(i - 1) }

  /** The first `n` layers compute attention and feed-forward modules, each on the output of the one before. */
  ghost predicate LayersAre(v: Evaluation<Name>, n: nat) {
    forall i: nat :: i < n ==> AttIs(v, InputOf(i), i) && FfnIs(v, TimeMixingOut(i), i)
  }

  /** The model of converter/rwkv_src/rwkv_modeling.py as an engine computes it, without rescaling. */
  function Stack(g: Engine, layers: nat): RwkvModel.Model<Array, Array, Array, Array, Array> {
    RwkvModel.Model(seq(layers, i requires 0 <= i < layers => RwkvModel.Layer(Att(g, i), Ffn(g, i))), 0, 0, x => x)
  }

  /** What a session feeds in for layer `i`, and what it reads back. */
  ghost function StateBefore(v: Evaluation<Name>, i: nat): RwkvModel.Carried<Array, Array> {
    (AttState(v.values(StateIn(3 * i)), [v.values(StateIn(3 * i + 1))]), v.values(StateIn(3 * i + 2)))
  }

  ghost function StateAfter(v: Evaluation<Name>, i: nat): RwkvModel.Carried<Array, Array> {
    (AttState(v.values(StateOut(3 * i)), [v.values(StateOut(3 * i + 1))]), v.values(StateOut(3 * i + 2)))
  }

  ghost function StatesBefore(v: Evaluation<Name>, layers: nat, k: nat): seq<RwkvModel.Carried<Array, Array>>
    decreases layers - k
  {
    if k >= layers then [] else [StateBefore(v, k)] + StatesBefore(v, layers, k + 1)
  }

  ghost function StatesAfter(v: Evaluation<Name>, layers: nat, k: nat): seq<RwkvModel.Carried<Array, Array>>
    decreases layers - k
  {
    if k >= layers then [] else [StateAfter(v, k)] + StatesAfter(v, layers, k + 1)
  }

  /** One run of the graph is the model on one token: from the embedding and the states put in to the states read back
      and the logits. */
  ghost predicate Computes(v: Evaluation<Name>, layers: nat) {
    var g := v.engine;
    var (x, states) := Stack(g, layers).Token(0, g.Embedded(v.values(Token)), StatesBefore(v, layers, 0));
    states == StatesAfter(v, layers, 0) && v.values(Logits) == g.Headed(x)
  }

  lemma StackAt(g: Engine, layers: nat, i: nat)
    requires i < layers
    ensures var stack := Stack(g, layers);
      |stack.layers| == layers && stack.rescaleLayer == 0 && stack.layers[i].att == Att(g, i) &&
      stack.layers[i].ffn == Ffn(g, i)
  {
    hide Att, Ffn;
  }

  lemma LayerIs(stack: RwkvModel.Model<Array, Array, Array, Array, Array>, v: Evaluation<Name>, i: nat)
    requires i < |stack.layers| && stack.rescaleLayer == 0 && stack.layers[i].att == Att(v.engine, i)
    requires stack.layers[i].ffn == Ffn(v.engine, i) && AttIs(v, InputOf(i), i) && FfnIs(v, TimeMixingOut(i), i)
    ensures stack.LayerMachine(i)(v.values(InputOf(i)), StateBefore(v, i)) ==
      (v.values(InputOf(i + 1)), StateAfter(v, i))
  {
    hide Att, Ffn;
  }

  /** Layer by layer through the graph, from layer `k` on. */
  lemma {:induction false} StackIs(v: Evaluation<Name>, layers: nat, k: nat)
    requires LayersAre(v, layers) && k <= layers
    ensures Stack(v.engine, layers).Token(k, v.values(InputOf(k)), StatesBefore(v, layers, k)) ==
      (v.values(InputOf(layers)), StatesAfter(v, layers, k))
    decreases layers - k
  {
    hide AttIs, FfnIs, InputOf, StateBefore, StateAfter, RwkvModel.Model.LayerMachine, Stack, Att, Ffn;
    if k < layers {
      StackAt(v.engine, layers, k);
      LayerIs(Stack(v.engine, layers), v, k);
      StackIs(v, layers, k + 1);
      assert StatesBefore(v, layers, k)[1..] == StatesBefore(v, layers, k + 1);
    }
  }

  /** converter/convert_rwkv_to_ncnn.py:25-45 for version 6. */
  method Convert(layers: nat, dtype: DType, numel: Numel)
    returns (header: (nat, nat), lines: seq<Line<Name>>, bin: seq<Segment>)
    ensures Sound(header, lines, bin, dtype, numel) && Answers(Open(lines), layers)
    ensures forall v :: Solves(lines, v) ==> Computes(v, layers)
  {
    hide Layered, Emitter.Valid, Sound, Answers, Solves, AttIs, FfnIs, Computes;
    var e := new Emitter<Name>(dtype, numel);
    e.BuildInfo();
    e.BuildInputs(layers);
    var input: Blob<Name> := Emb;
    Begin(e, layers);
    for i := 0 to layers
      invariant Layered(e, layers, i, input) && input == InputOf(i)
      invariant forall v :: Solves(e.lines, v) ==> LayersAre(v, i) && Embeds(v)
    {
      Layer(e, layers, i, input);
      input := ChannelMixingOut(i);
    }
    End(e, layers, input);
    e.BuildOutputHead(input);
    e.Finished(layers);
    header, lines, bin := (e.layerCount, e.blobCount), e.lines, e.bin;
    forall v | Solves(lines, v) ensures Computes(v, layers) {
      GraphComputes(v, layers);
    }
  }

  ghost predicate Embeds(v: Evaluation<Name>) { v.values(Emb) == v.engine.Embedded(v.values(Token)) }

  lemma GraphComputes(v: Evaluation<Name>, layers: nat)
    requires LayersAre(v, layers) && Embeds(v)
    requires v.values(Logits) == v.engine.Headed(v.values(InputOf(layers)))
    ensures Computes(v, layers)
  {
    hide LayersAre, Stack, StatesBefore, StatesAfter;
    StackIs(v, layers, 0);
  }

  /** One run after another: each is put in the states the one before was read for. */
  ghost predicate FedBack(v: Evaluation<Name>, next: Evaluation<Name>, layers: nat) {
    forall k: nat :: k < 3 * layers ==> next.values(StateIn(k)) == v.values(StateOut(k))
  }

  lemma {:induction false} StatesPass(v: Evaluation<Name>, next: Evaluation<Name>, layers: nat, k: nat)
    requires FedBack(v, next, layers)
    ensures StatesBefore(next, layers, k) == StatesAfter(v, layers, k)
    decreases layers - k
  {
    if k < layers { StatesPass(v, next, layers, k + 1); }
  }

  function Embeddings(g: Engine, tokens: seq<Array>): seq<Array> {
    seq(|tokens|, t requires 0 <= t < |tokens| => g.Embedded(tokens[t]))
  }

  ghost function Tokens(vs: seq<Evaluation<Name>>): seq<Array> {
    seq(|vs|, t requires 0 <= t < |vs| => vs[t].values(Token))
  }

  /** One engine, and each run goes on from the one before. */
  ghost predicate Chained(vs: seq<Evaluation<Name>>, g: Engine, layers: nat) {
    && (forall v :: v in vs ==> v.engine == g && Computes(v, layers))
    && forall t :: 0 < t < |vs| ==> FedBack(vs[t - 1], vs[t], layers)
  }

  /** A text fed to the graph token by token, its states fed back, leaves the states and gives the logits of the model
      that runs layer by layer over the whole text. */
  lemma RunsAreLayerMajor(vs: seq<Evaluation<Name>>, g: Engine, layers: nat)
    requires vs != [] && Chained(vs, g, layers)
    ensures var (xs, states) :=
        Stack(g, layers).LayerMajor(0, Embeddings(g, Tokens(vs)), StatesBefore(vs[0], layers, 0));
      && states == StatesAfter(vs[|vs| - 1], layers, 0) && |xs| == |vs|
      && forall t :: 0 <= t < |vs| ==> vs[t].values(Logits) == g.Headed(xs[t])
  {
    hide Computes, Stack, Scan;
    var stack := Stack(g, layers);
    stack.LayerMajorIsTokenMajor(0, Embeddings(g, Tokens(vs)), StatesBefore(vs[0], layers, 0));
    forall v | v in vs ensures ComputedBy(stack.TokenMachine(0), v, layers) {
      ByStack(v, layers);
    }
    RunsAre(stack.TokenMachine(0), vs, g, layers);
  }

  type Machine = (Array, seq<RwkvModel.Carried<Array, Array>>) -> (Array, seq<RwkvModel.Carried<Array, Array>>)

  ghost predicate ComputedBy(step: Machine, v: Evaluation<Name>, layers: nat) {
    var (x, states) := step(v.engine.Embedded(v.values(Token)), StatesBefore(v, layers, 0));
    states == StatesAfter(v, layers, 0) && v.values(Logits) == v.engine.Headed(x)
  }

  lemma ByStack(v: Evaluation<Name>, layers: nat)
    requires Computes(v, layers)
    ensures ComputedBy(Stack(v.engine, layers).TokenMachine(0), v, layers)
  {
    hide Stack;
  }

  /** What a run of the machine over all tokens comes to. */
  ghost predicate Ends(result: (seq<Array>, seq<RwkvModel.Carried<Array, Array>>), vs: seq<Evaluation<Name>>, g: Engine,
                       layers: nat)
    requires vs != []
  {
    && result.1 == StatesAfter(vs[|vs| - 1], layers, 0) && |result.0| == |vs|
    && forall t :: 0 <= t < |vs| ==> vs[t].values(Logits) == g.Headed(result.0[t])
  }

  lemma {:induction false} RunsAre(step: Machine, vs: seq<Evaluation<Name>>, g: Engine, layers: nat)
    requires vs != [] && forall v :: v in vs ==> v.engine == g && ComputedBy(step, v, layers)
    requires forall t :: 0 < t < |vs| ==> FedBack(vs[t - 1], vs[t], layers)
    ensures Ends(Scan(step, Embeddings(g, Tokens(vs)), StatesBefore(vs[0], layers, 0)), vs, g, layers)
    decreases |vs|
  {
    hide Scan, ComputedBy, Ends, FedBack;
    var front, v := vs[..|vs| - 1], vs[|vs| - 1];
    assert Embeddings(g, Tokens(vs)) == Embeddings(g, Tokens(front)) + [g.Embedded(v.values(Token))];
    ScanNext(step, Embeddings(g, Tokens(front)), g.Embedded(v.values(Token)), StatesBefore(vs[0], layers, 0));
    if front == [] {
      assert Embeddings(g, Tokens(front)) == [];
      FirstRun(step, vs, g, layers);
    } else {
      RunsAre(step, front, g, layers);
      assert FedBack(vs[|vs| - 1 - 1], vs[|vs| - 1], layers);
      NextRun(step, vs, g, layers, Scan(step, Embeddings(g, Tokens(front)), StatesBefore(vs[0], layers, 0)));
    }
  }

  lemma FirstRun(step: Machine, vs: seq<Evaluation<Name>>, g: Engine, layers: nat)
    requires |vs| == 1 && vs[0].engine == g && ComputedBy(step, vs[0], layers)
    ensures var before := StatesBefore(vs[0], layers, 0);
      var (x, states) := step(g.Embedded(vs[0].values(Token)), Scan(step, [], before).1);
      Ends((Scan(step, [], before).0 + [x], states), vs, g, layers)
  {
  }

  lemma NextRun(step: Machine, vs: seq<Evaluation<Name>>, g: Engine, layers: nat,
                mid: (seq<Array>, seq<RwkvModel.Carried<Array, Array>>))
    requires |vs| > 1 && vs[|vs| - 1].engine == g && ComputedBy(step, vs[|vs| - 1], layers)
    requires Ends(mid, vs[..|vs| - 1], g, layers) && FedBack(vs[|vs| - 2], vs[|vs| - 1], layers)
    ensures var (x, states) := step(g.Embedded(vs[|vs| - 1].values(Token)), mid.1);
      Ends((mid.0 + [x], states), vs, g, layers)
  {
    StatesPass(vs[|vs| - 2], vs[|vs| - 1], layers, 0);
    assert vs[..|vs| - 1][|vs| - 2] == vs[|vs| - 2];
  }

  lemma Begin(e: Emitter<Name>, layers: nat)
    requires e.Valid() && Emb in e.open && forall k :: 0 <= k < 3 * layers ==> StateIn(k) in e.open
    requires forall b :: b in e.defined ==> b in {ModelInfo, Token, Emb} || b.StateIn?
    ensures Layered(e, layers, 0, Emb)
  {
  }

  lemma End(e: Emitter<Name>, layers: nat, input: Blob<Name>)
    requires Layered(e, layers, layers, input)
    ensures e.Valid() && input in e.open && !input.StateOut? && {NormHead, Logits} !! e.defined
    ensures forall k :: 0 <= k < 3 * layers ==> StateOut(k) in e.open
  {
  }
}
