/** The RWKV v7 blocks as an ncnn graph (converter/ncnn_model_utils.py:414-548). */
module NcnnV7 {
  import opened NcnnEmitter
  import Rwkv7

  /** The blobs of a layer, by the paragraph that puts them out; F stands for the prefix of the feed-forward block
      where both blocks use a name, Data for a tensor that shares its name with a computed blob. */
  datatype KeepName = XLast | X | XX | XX0 | XX1
  datatype ShiftName = Sx | Maa | MaaX | MaaRwkvag
  datatype SixName = Mr | Mw | Mk | Mv | Ma | Mg | Mv0 | Mv1
  datatype ProjectName = Key | Value | Receptance
  datatype RateName = MaLora0 | MaLora1 | AData | MaLora2
  datatype RateSigmoidName = ATmp | A | A0 | A1
  datatype GatingName = MgLora | MgLoraSigmoid | Gate
  datatype KeyDataName = KK | KA | RK
  datatype KeyForkName = Key0 | Key1 | KeyK
  datatype KeyNormName = KeyKReshape | KeyKNorm | KeyKNormReshape
  datatype KeyRateName = A0Minus | AMinus1MulKa | AMinus1MulKaPlus1 | KeyA
  datatype ValueForkName = Value0 | Value1 | VFirstHere | VFirstMinusValue
  datatype ValueMixName = MvLora0 | MvLora1
  datatype ValueLaterName = VData | MvLora2 | MvLoraSigmoid
  datatype ValueEndName = VFirstMinusValueMul | ValueFinal
  datatype DecayName = MwLora | MwLoraTanh | MwLoraTanhLinear
  datatype DecayAddName = Td | TimeDecayPre
  datatype DecayRateName = TimeDecaySigmoid | TimeDecay
  datatype DecayShapeName = TimeDecay0 | TimeDecay1 | TimeDecayReshape
  datatype HeadsName = KeyA0 | KeyA1 | KeyAReshape
  datatype ValueHeadsName = ValueFinal0 | ValueFinal1 | ValueFinal2
  datatype ValueKeyName = ValueFinal0Reshape | ValueFinal1Reshape | Vk
  datatype RemovalName = Kk0 | Kk1 | Kk0Neg | Kk0NegReshape
  datatype RemovalRateName = AExtended | KkA
  datatype RemovedName = KkAReshape | Ab
  datatype StateForkName = StatePrev0 | StatePrev1 | StateTd
  datatype StateName = Sab | SabVk | StateNew
  datatype ReadForkName = StateNew0 | Receptance0 | Receptance1
  datatype ReadName = ReceptanceReshape | WkvOut | WkvOutFlatten
  datatype BonusName = XGn | ReceptanceKeyA | Rk
  datatype BonusSumName = RkReshape | RkSum
  datatype BonusAddName = ValueFinal0Rk | ValueFinal0RkReshape | XGnRkv
  datatype FinishName = XGate | XOut
  datatype FfnKeepName = FXLast | FX | FXX | FXX0 | FXX1
  datatype FfnShiftName = FSx | FSx0
  datatype FfnMixName = XkData | Xk | XXk
  datatype FfnKeyName = FKey | KeyRelu | KeyReluSquare
  datatype FfnFinishName = FValue
  datatype Name = Keep(keep: KeepName) | Shift(shift: ShiftName) | Six(six: SixName) | Project(project: ProjectName)
    | Rate(rate: RateName) | RateSigmoid(rateSigmoid: RateSigmoidName) | Gating(gating: GatingName)
    | KeyData(keyData: KeyDataName) | KeyFork(keyFork: KeyForkName) | KeyNorm(keyNorm: KeyNormName)
    | KeyRate(keyRate: KeyRateName) | ValueFork(valueFork: ValueForkName) | ValueMix(valueMix: ValueMixName)
    | ValueLater(valueLater: ValueLaterName) | ValueEnd(valueEnd: ValueEndName) | Decay(decay: DecayName)
    | DecayAdd(decayAdd: DecayAddName) | DecayRate(decayRate: DecayRateName)
    | DecayShape(decayShape: DecayShapeName) | Heads(heads: HeadsName) | ValueHeads(valueHeads: ValueHeadsName)
    | ValueKey(valueKey: ValueKeyName) | Removal(removal: RemovalName) | RemovalRate(removalRate: RemovalRateName)
    | Removed(removed: RemovedName) | StateFork(stateFork: StateForkName) | State(state: StateName)
    | ReadFork(readFork: ReadForkName) | Read(read: ReadName) | Bonus(bonus: BonusName)
    | BonusSum(bonusSum: BonusSumName) | BonusAdd(bonusAdd: BonusAddName) | Finish(finish: FinishName)
    | FfnKeep(ffnKeep: FfnKeepName) | FfnShift(ffnShift: FfnShiftName) | FfnMix(ffnMix: FfnMixName)
    | FfnKey(ffnKey: FfnKeyName) | FfnFinish(ffnFinish: FfnFinishName)

  /** What a blob of layer `i` is worth.  Each paragraph below comes with a predicate that says what it makes the blobs
      it leaves worth, in terms of those it takes. */
  ghost function At(v: Evaluation<Name>, i: nat, name: Name): Array { v.values(In(i, name)) }

  /** Which paragraph puts a blob out. */
  function Part(name: Name): nat {
    match name
    case Keep(_) => 0
    case Shift(_) => 1
    case Six(_) => 2
    case Project(_) => 3
    case Rate(_) => 4
    case RateSigmoid(_) => 5
    case Gating(_) => 6
    case KeyData(_) => 7
    case KeyFork(_) => 8
    case KeyNorm(_) => 9
    case KeyRate(_) => 10
    case ValueFork(_) => 11
    case ValueMix(_) => 12
    case ValueLater(_) => 13
    case ValueEnd(_) => 14
    case Decay(_) => 15
    case DecayAdd(_) => 16
    case DecayRate(_) => 17
    case DecayShape(_) => 18
    case Heads(_) => 19
    case ValueHeads(_) => 20
    case ValueKey(_) => 21
    case Removal(_) => 22
    case RemovalRate(_) => 23
    case Removed(_) => 24
    case StateFork(_) => 25
    case State(_) => 26
    case ReadFork(_) => 27
    case Read(_) => 28
    case Bonus(_) => 29
    case BonusSum(_) => 30
    case BonusAdd(_) => 31
    case Finish(_) => 32
    case FfnKeep(_) => 33
    case FfnShift(_) => 34
    case FfnMix(_) => 35
    case FfnKey(_) => 36
    case FfnFinish(_) => 37
  }

  /** In layer `i` the paragraphs before the `k`-th are written, in later layers none. */
  ghost predicate Reached(defined: set<Blob<Name>>, i: nat, k: nat) {
    forall b :: b in defined && b.In? && b.layer >= i ==> b.layer == i && Part(b.name) < k
  }

  ghost predicate KeepIs(v: Evaluation<Name>, input: Blob<Name>, i: nat) {
    && At(v, i, Keep(XLast)) == v.values(input)
    && At(v, i, Keep(XX0)) == At(v, i, Keep(XX1)) == v.values(StateOut(3 * i))
    && v.values(StateOut(3 * i)) == v.engine.Weighted(LayerNorm, Tensor(i, "ln1"), v.values(input))
  }

  /** Lines 417-419. */
  method BuildKeep(e: Emitter<Name>, input: Blob<Name>, i: nat)
    requires e.Valid() && {input} <= e.open
    requires Reached(e.defined, i, 0) && StateOut(3 * i) !in e.defined
    requires !input.In? && !input.StateIn?
    modifies e
    ensures e.Valid()
    ensures e.open >= old(e.open) - {input} +
      {In(i, Keep(XLast)), In(i, Keep(XX0)), In(i, Keep(XX1)), StateOut(3 * i)}
    ensures Reached(e.defined, i, 1) && Adds(old(e.defined), e.defined, i, {StateOut(3 * i)})
    ensures forall v :: Solves(e.lines, v) ==> Solves(old(e.lines), v) && KeepIs(v, input, i)
  {
    hide Emitter.Valid;
    e.OpenIsDefined();
    e.Split2(input, In(i, Keep(XLast)), In(i, Keep(X)));
    e.LayerNormed(In(i, Keep(X)), In(i, Keep(XX)), Tensor(i, "ln1"));
    e.Split3(In(i, Keep(XX)), In(i, Keep(XX0)), In(i, Keep(XX1)), StateOut(3 * i));
  }

  ghost predicate ShiftIs(v: Evaluation<Name>, i: nat) {
    var g := v.engine;
    At(v, i, Shift(MaaRwkvag)) == g.Plus(At(v, i, Keep(XX1)),
      g.Times(g.Binary(Sub, v.values(StateIn(3 * i)), At(v, i, Keep(XX0))), g.Data(Tensor(i, "att.x_rwkvag"))))
  }

  /** Lines 422-426. */
  method BuildShift(e: Emitter<Name>, i: nat)
    requires e.Valid() && {StateIn(3 * i), In(i, Keep(XX0)), In(i, Keep(XX1))} <= e.open
    requires Reached(e.defined, i, 1)
    modifies e
    ensures e.Valid()
    ensures e.open >= old(e.open) - {StateIn(3 * i), In(i, Keep(XX0)), In(i, Keep(XX1))} +
      {In(i, Shift(MaaRwkvag))}
    ensures Reached(e.defined, i, 2) && Adds(old(e.defined), e.defined, i, {})
    ensures forall v :: Solves(e.lines, v) ==> Solves(old(e.lines), v) && ShiftIs(v, i)
  {
    hide Emitter.Valid;
    e.OpenIsDefined();
    e.Binary(Sub, StateIn(3 * i), In(i, Keep(XX0)), In(i, Shift(Sx)));
    e.Data(In(i, Shift(Maa)), Tensor(i, "att.x_rwkvag"));
    e.Binary(Mul, In(i, Shift(Sx)), In(i, Shift(Maa)), In(i, Shift(MaaX)));
    e.Binary(Add, In(i, Keep(XX1)), In(i, Shift(MaaX)), In(i, Shift(MaaRwkvag)));
  }

  ghost predicate SixIs(v: Evaluation<Name>, i: nat) {
    var g, all := v.engine, At(v, i, Shift(MaaRwkvag));
    && At(v, i, Six(Mr)) == g.Piece(all, 0) && At(v, i, Six(Mw)) == g.Piece(all, 1)
    && At(v, i, Six(Mk)) == g.Piece(all, 2) && At(v, i, Six(Mv0)) == At(v, i, Six(Mv1)) == g.Piece(all, 3)
    && At(v, i, Six(Ma)) == g.Piece(all, 4) && At(v, i, Six(Mg)) == g.Piece(all, 5)
  }

  /** Lines 427-428. */
  method BuildSix(e: Emitter<Name>, i: nat)
    requires e.Valid() && {In(i, Shift(MaaRwkvag))} <= e.open
    requires Reached(e.defined, i, 2)
    modifies e
    ensures e.Valid()
    ensures e.open >= old(e.open) - {In(i, Shift(MaaRwkvag))} +
      {In(i, Six(Mr)), In(i, Six(Mw)), In(i, Six(Mk)), In(i, Six(Ma)), In(i, Six(Mg)), In(i, Six(Mv0)),
      In(i, Six(Mv1))}
    ensures Reached(e.defined, i, 3) && Adds(old(e.defined), e.defined, i, {})
    ensures forall v :: Solves(e.lines, v) ==> Solves(old(e.lines), v) && SixIs(v, i)
  {
    hide Emitter.Valid;
    e.OpenIsDefined();
    e.Slice6(In(i, Shift(MaaRwkvag)), In(i, Six(Mr)), In(i, Six(Mw)), In(i, Six(Mk)),
             In(i, Six(Mv)), In(i, Six(Ma)), In(i, Six(Mg)));
    e.Split2(In(i, Six(Mv)), In(i, Six(Mv0)), In(i, Six(Mv1)));
  }

  ghost predicate ProjectIs(v: Evaluation<Name>, i: nat) {
    var g := v.engine;
    && At(v, i, Project(Key)) == g.Linear(Tensor(i, "att.key"), At(v, i, Six(Mk)))
    && At(v, i, Project(Value)) == g.Linear(Tensor(i, "att.value"), At(v, i, Six(Mv0)))
    && At(v, i, Project(Receptance)) == g.Linear(Tensor(i, "att.receptance"), At(v, i, Six(Mr)))
  }

  /** Lines 430-432. */
  method BuildProject(e: Emitter<Name>, i: nat)
    requires e.Valid() && {In(i, Six(Mk)), In(i, Six(Mv0)), In(i, Six(Mr))} <= e.open
    requires Reached(e.defined, i, 3)
    modifies e
    ensures e.Valid()
    ensures e.open >= old(e.open) - {In(i, Six(Mk)), In(i, Six(Mv0)), In(i, Six(Mr))} +
      {In(i, Project(Key)), In(i, Project(Value)), In(i, Project(Receptance))}
    ensures Reached(e.defined, i, 4) && Adds(old(e.defined), e.defined, i, {})
    ensures forall v :: Solves(e.lines, v) ==> Solves(old(e.lines), v) && ProjectIs(v, i)
  {
    hide Emitter.Valid;
    e.OpenIsDefined();
    e.Linear(In(i, Six(Mk)), In(i, Project(Key)), Tensor(i, "att.key"));
    e.Linear(In(i, Six(Mv0)), In(i, Project(Value)), Tensor(i, "att.value"));
    e.Linear(In(i, Six(Mr)), In(i, Project(Receptance)), Tensor(i, "att.receptance"));
  }

  ghost predicate RateIs(v: Evaluation<Name>, i: nat) {
    var g := v.engine;
    At(v, i, Rate(MaLora2)) == g.Plus(
      g.Linear(Tensor(i, "att.a2"), g.Linear(Tensor(i, "att.a1"), At(v, i, Six(Ma)))), g.Data(Tensor(i, "att.a0")))
  }

  /** Lines 434-437. */
  method BuildRate(e: Emitter<Name>, i: nat)
    requires e.Valid() && {In(i, Six(Ma))} <= e.open
    requires Reached(e.defined, i, 4)
    modifies e
    ensures e.Valid()
    ensures e.open >= old(e.open) - {In(i, Six(Ma))} +
      {In(i, Rate(MaLora2))}
    ensures Reached(e.defined, i, 5) && Adds(old(e.defined), e.defined, i, {})
    ensures forall v :: Solves(e.lines, v) ==> Solves(old(e.lines), v) && RateIs(v, i)
  {
    hide Emitter.Valid;
    e.OpenIsDefined();
    e.Linear(In(i, Six(Ma)), In(i, Rate(MaLora0)), Tensor(i, "att.a1"));
    e.Linear(In(i, Rate(MaLora0)), In(i, Rate(MaLora1)), Tensor(i, "att.a2"));
    e.Data(In(i, Rate(AData)), Tensor(i, "att.a0"));
    e.Binary(Add, In(i, Rate(MaLora1)), In(i, Rate(AData)), In(i, Rate(MaLora2)));
  }

  ghost predicate RateSigmoidIs(v: Evaluation<Name>, i: nat, jellyfish: bool) {
    var g := v.engine;
    var a := g.Unary(Sigmoid, At(v, i, Rate(MaLora2)));
    At(v, i, RateSigmoid(A0)) == At(v, i, RateSigmoid(A1)) == if jellyfish then g.Unary(MulScalar("2.0"), a) else a
  }

  /** Lines 438-443. */
  method BuildRateSigmoid(e: Emitter<Name>, i: nat, jellyfish: bool)
    requires e.Valid() && {In(i, Rate(MaLora2))} <= e.open
    requires Reached(e.defined, i, 5)
    modifies e
    ensures e.Valid()
    ensures e.open >= old(e.open) - {In(i, Rate(MaLora2))} +
      {In(i, RateSigmoid(A0)), In(i, RateSigmoid(A1))}
    ensures Reached(e.defined, i, 6) && Adds(old(e.defined), e.defined, i, {})
    ensures forall v :: Solves(e.lines, v) ==> Solves(old(e.lines), v) && RateSigmoidIs(v, i, jellyfish)
  {
    hide Emitter.Valid;
    e.OpenIsDefined();
    if jellyfish {
      e.Unary(Sigmoid, In(i, Rate(MaLora2)), In(i, RateSigmoid(ATmp)));
      e.Unary(MulScalar("2.0"), In(i, RateSigmoid(ATmp)), In(i, RateSigmoid(A)));
    } else {
      e.Unary(Sigmoid, In(i, Rate(MaLora2)), In(i, RateSigmoid(A)));
    }
    e.Split2(In(i, RateSigmoid(A)), In(i, RateSigmoid(A0)), In(i, RateSigmoid(A1)));
  }

  ghost predicate GatingIs(v: Evaluation<Name>, i: nat) {
    var g := v.engine;
    At(v, i, Gating(Gate)) ==
      g.Linear(Tensor(i, "att.g2"), g.Unary(Sigmoid, g.Linear(Tensor(i, "att.g1"), At(v, i, Six(Mg)))))
  }

  /** Lines 445-447. */
  method BuildGating(e: Emitter<Name>, i: nat)
    requires e.Valid() && {In(i, Six(Mg))} <= e.open
    requires Reached(e.defined, i, 6)
    modifies e
    ensures e.Valid()
    ensures e.open >= old(e.open) - {In(i, Six(Mg))} +
      {In(i, Gating(Gate))}
    ensures Reached(e.defined, i, 7) && Adds(old(e.defined), e.defined, i, {})
    ensures forall v :: Solves(e.lines, v) ==> Solves(old(e.lines), v) && GatingIs(v, i)
  {
    hide Emitter.Valid;
    e.OpenIsDefined();
    e.Linear(In(i, Six(Mg)), In(i, Gating(MgLora)), Tensor(i, "att.g1"));
    e.Unary(Sigmoid, In(i, Gating(MgLora)), In(i, Gating(MgLoraSigmoid)));
    e.Linear(In(i, Gating(MgLoraSigmoid)), In(i, Gating(Gate)), Tensor(i, "att.g2"));
  }

  ghost predicate KeyDataIs(v: Evaluation<Name>, i: nat) {
    var g := v.engine;
    && At(v, i, KeyData(KK)) == g.Data(Tensor(i, "att.k_k")) && At(v, i, KeyData(KA)) == g.Data(Tensor(i, "att.k_a"))
    && At(v, i, KeyData(RK)) == g.Data(Tensor(i, "att.r_k"))
  }

  /** Lines 449-451. */
  method BuildKeyData(e: Emitter<Name>, i: nat)
    requires e.Valid()
    requires Reached(e.defined, i, 7)
    modifies e
    ensures e.Valid()
    ensures e.open >= old(e.open) +
      {In(i, KeyData(KK)), In(i, KeyData(KA)), In(i, KeyData(RK))}
    ensures Reached(e.defined, i, 8) && Adds(old(e.defined), e.defined, i, {})
    ensures forall v :: Solves(e.lines, v) ==> Solves(old(e.lines), v) && KeyDataIs(v, i)
  {
    hide Emitter.Valid;
    e.OpenIsDefined();
    e.Data(In(i, KeyData(KK)), Tensor(i, "att.k_k"));
    e.Data(In(i, KeyData(KA)), Tensor(i, "att.k_a"));
    e.Data(In(i, KeyData(RK)), Tensor(i, "att.r_k"));
  }

  ghost predicate KeyForkIs(v: Evaluation<Name>, i: nat) {
    && At(v, i, KeyFork(Key1)) == At(v, i, Project(Key))
    && At(v, i, KeyFork(KeyK)) == v.engine.Times(At(v, i, Project(Key)), At(v, i, KeyData(KK)))
  }

  /** Lines 452-453. */
  method BuildKeyFork(e: Emitter<Name>, i: nat)
    requires e.Valid() && {In(i, Project(Key)), In(i, KeyData(KK))} <= e.open
    requires Reached(e.defined, i, 8)
    modifies e
    ensures e.Valid()
    ensures e.open >= old(e.open) - {In(i, Project(Key)), In(i, KeyData(KK))} +
      {In(i, KeyFork(Key1)), In(i, KeyFork(KeyK))}
    ensures Reached(e.defined, i, 9) && Adds(old(e.defined), e.defined, i, {})
    ensures forall v :: Solves(e.lines, v) ==> Solves(old(e.lines), v) && KeyForkIs(v, i)
  {
    hide Emitter.Valid;
    e.OpenIsDefined();
    e.Split2(In(i, Project(Key)), In(i, KeyFork(Key0)), In(i, KeyFork(Key1)));
    e.Binary(Mul, In(i, KeyFork(Key0)), In(i, KeyData(KK)), In(i, KeyFork(KeyK)));
  }

  ghost predicate KeyNormIs(v: Evaluation<Name>, i: nat) {
    var g := v.engine;
    At(v, i, KeyNorm(KeyKNormReshape)) == g.Shaped(Flat, g.Unary(Normalize, g.Shaped(Rows, At(v, i, KeyFork(KeyK)))))
  }

  /** Lines 454-456. */
  method BuildKeyNorm(e: Emitter<Name>, i: nat)
    requires e.Valid() && {In(i, KeyFork(KeyK))} <= e.open
    requires Reached(e.defined, i, 9)
    modifies e
    ensures e.Valid()
    ensures e.open >= old(e.open) - {In(i, KeyFork(KeyK))} +
      {In(i, KeyNorm(KeyKNormReshape))}
    ensures Reached(e.defined, i, 10) && Adds(old(e.defined), e.defined, i, {})
    ensures forall v :: Solves(e.lines, v) ==> Solves(old(e.lines), v) && KeyNormIs(v, i)
  {
    hide Emitter.Valid;
    e.OpenIsDefined();
    e.Unary(Reshape(Rows), In(i, KeyFork(KeyK)), In(i, KeyNorm(KeyKReshape)));
    e.L2Normed(In(i, KeyNorm(KeyKReshape)), In(i, KeyNorm(KeyKNorm)));
    e.Unary(Reshape(Flat), In(i, KeyNorm(KeyKNorm)), In(i, KeyNorm(KeyKNormReshape)));
  }

  ghost predicate KeyRateIs(v: Evaluation<Name>, i: nat) {
    var g := v.engine;
    At(v, i, KeyRate(KeyA)) == g.Times(
      g.Unary(AddScalar("1.0"), g.Times(g.Unary(AddScalar("-1.0"), At(v, i, RateSigmoid(A0))), At(v, i, KeyData(KA)))),
      At(v, i, KeyFork(Key1)))
  }

  /** Lines 457-460. */
  method BuildKeyRate(e: Emitter<Name>, i: nat)
    requires e.Valid() && {In(i, RateSigmoid(A0)), In(i, KeyData(KA)), In(i, KeyFork(Key1))} <= e.open
    requires Reached(e.defined, i, 10)
    modifies e
    ensures e.Valid()
    ensures e.open >= old(e.open) - {In(i, RateSigmoid(A0)), In(i, KeyData(KA)), In(i, KeyFork(Key1))} +
      {In(i, KeyRate(KeyA))}
    ensures Reached(e.defined, i, 11) && Adds(old(e.defined), e.defined, i, {})
    ensures forall v :: Solves(e.lines, v) ==> Solves(old(e.lines), v) && KeyRateIs(v, i)
  {
    hide Emitter.Valid;
    e.OpenIsDefined();
    e.Unary(AddScalar("-1.0"), In(i, RateSigmoid(A0)), In(i, KeyRate(A0Minus)));
    e.Binary(Mul, In(i, KeyRate(A0Minus)), In(i, KeyData(KA)), In(i, KeyRate(AMinus1MulKa)));
    e.Unary(AddScalar("1.0"), In(i, KeyRate(AMinus1MulKa)), In(i, KeyRate(AMinus1MulKaPlus1)));
    e.Binary(Mul, In(i, KeyRate(AMinus1MulKaPlus1)), In(i, KeyFork(Key1)), In(i, KeyRate(KeyA)));
  }

  ghost predicate ValueForkIs(v: Evaluation<Name>, i: nat)
    requires i > 0
  {
    && At(v, i, ValueFork(Value0)) == At(v, i, Project(Value)) && v.values(VFirst(i)) == v.values(VFirst(i - 1))
    && At(v, i, ValueFork(VFirstMinusValue)) ==
      v.engine.Binary(Minus, v.values(VFirst(i - 1)), At(v, i, Project(Value)))
  }

  /** Lines 464-466. */
  method BuildValueFork(e: Emitter<Name>, i: nat)
    requires i > 0
    requires e.Valid() && {In(i, Project(Value)), VFirst(i - 1)} <= e.open
    requires Reached(e.defined, i, 11) && VFirst(i) !in e.defined
    modifies e
    ensures e.Valid()
    ensures e.open >= old(e.open) - {In(i, Project(Value)), VFirst(i - 1)} +
      {In(i, ValueFork(Value0)), VFirst(i), In(i, ValueFork(VFirstMinusValue))}
    ensures Reached(e.defined, i, 12) && Adds(old(e.defined), e.defined, i, {VFirst(i)})
    ensures forall v :: Solves(e.lines, v) ==> Solves(old(e.lines), v) && ValueForkIs(v, i)
  {
    hide Emitter.Valid;
    e.OpenIsDefined();
    e.Split2(In(i, Project(Value)), In(i, ValueFork(Value0)), In(i, ValueFork(Value1)));
    e.Split2(VFirst(i - 1), In(i, ValueFork(VFirstHere)), VFirst(i));
    e.Binary(Minus, In(i, ValueFork(VFirstHere)), In(i, ValueFork(Value1)), In(i, ValueFork(VFirstMinusValue)));
  }

  ghost predicate ValueMixIs(v: Evaluation<Name>, i: nat) {
    At(v, i, ValueMix(MvLora1)) ==
      v.engine.Linear(Tensor(i, "att.v2"), v.engine.Linear(Tensor(i, "att.v1"), At(v, i, Six(Mv1))))
  }

  /** Lines 467-468. */
  method BuildValueMix(e: Emitter<Name>, i: nat)
    requires e.Valid() && {In(i, Six(Mv1))} <= e.open
    requires Reached(e.defined, i, 12)
    modifies e
    ensures e.Valid()
    ensures e.open >= old(e.open) - {In(i, Six(Mv1))} +
      {In(i, ValueMix(MvLora1))}
    ensures Reached(e.defined, i, 13) && Adds(old(e.defined), e.defined, i, {})
    ensures forall v :: Solves(e.lines, v) ==> Solves(old(e.lines), v) && ValueMixIs(v, i)
  {
    hide Emitter.Valid;
    e.OpenIsDefined();
    e.Linear(In(i, Six(Mv1)), In(i, ValueMix(MvLora0)), Tensor(i, "att.v1"));
    e.Linear(In(i, ValueMix(MvLora0)), In(i, ValueMix(MvLora1)), Tensor(i, "att.v2"));
  }

  ghost predicate ValueLaterIs(v: Evaluation<Name>, i: nat) {
    var g := v.engine;
    At(v, i, ValueLater(MvLoraSigmoid)) ==
      g.Unary(Sigmoid, g.Plus(At(v, i, ValueMix(MvLora1)), g.Data(Tensor(i, "att.v0"))))
  }

  /** Lines 469-471. */
  method BuildValueLater(e: Emitter<Name>, i: nat)
    requires e.Valid() && {In(i, ValueMix(MvLora1))} <= e.open
    requires Reached(e.defined, i, 13)
    modifies e
    ensures e.Valid()
    ensures e.open >= old(e.open) - {In(i, ValueMix(MvLora1))} +
      {In(i, ValueLater(MvLoraSigmoid))}
    ensures Reached(e.defined, i, 14) && Adds(old(e.defined), e.defined, i, {})
    ensures forall v :: Solves(e.lines, v) ==> Solves(old(e.lines), v) && ValueLaterIs(v, i)
  {
    hide Emitter.Valid;
    e.OpenIsDefined();
    e.Data(In(i, ValueLater(VData)), Tensor(i, "att.v0"));
    e.Binary(Add, In(i, ValueMix(MvLora1)), In(i, ValueLater(VData)), In(i, ValueLater(MvLora2)));
    e.Unary(Sigmoid, In(i, ValueLater(MvLora2)), In(i, ValueLater(MvLoraSigmoid)));
  }

  ghost predicate ValueEndIs(v: Evaluation<Name>, i: nat) {
    At(v, i, ValueEnd(ValueFinal)) == v.engine.Plus(At(v, i, ValueFork(Value0)),
      v.engine.Times(At(v, i, ValueLater(MvLoraSigmoid)), At(v, i, ValueFork(VFirstMinusValue))))
  }

  /** Lines 472-473. */
  method BuildValueEnd(e: Emitter<Name>, i: nat)
    requires e.Valid() && {In(i, ValueLater(MvLoraSigmoid)), In(i, ValueFork(VFirstMinusValue)),
      In(i, ValueFork(Value0))} <= e.open
    requires Reached(e.defined, i, 14)
    modifies e
    ensures e.Valid()
    ensures e.open >= old(e.open) - {In(i, ValueLater(MvLoraSigmoid)), In(i, ValueFork(VFirstMinusValue)),
      In(i, ValueFork(Value0))} +
      {In(i, ValueEnd(ValueFinal))}
    ensures Reached(e.defined, i, 15) && Adds(old(e.defined), e.defined, i, {})
    ensures forall v :: Solves(e.lines, v) ==> Solves(old(e.lines), v) && ValueEndIs(v, i)
  {
    hide Emitter.Valid;
    e.OpenIsDefined();
    e.Binary(Mul, In(i, ValueLater(MvLoraSigmoid)), In(i, ValueFork(VFirstMinusValue)),
             In(i, ValueEnd(VFirstMinusValueMul)));
    e.Binary(Add, In(i, ValueFork(Value0)), In(i, ValueEnd(VFirstMinusValueMul)), In(i, ValueEnd(ValueFinal)));
  }

  ghost predicate DecayIs(v: Evaluation<Name>, i: nat) {
    var g := v.engine;
    At(v, i, Decay(MwLoraTanhLinear)) ==
      g.Linear(Tensor(i, "att.w2"), g.Unary(TanH, g.Linear(Tensor(i, "att.w1"), At(v, i, Six(Mw)))))
  }

  /** Lines 475-477. */
  method BuildDecay(e: Emitter<Name>, i: nat)
    requires e.Valid() && {In(i, Six(Mw))} <= e.open
    requires Reached(e.defined, i, 15)
    modifies e
    ensures e.Valid()
    ensures e.open >= old(e.open) - {In(i, Six(Mw))} +
      {In(i, Decay(MwLoraTanhLinear))}
    ensures Reached(e.defined, i, 16) && Adds(old(e.defined), e.defined, i, {})
    ensures forall v :: Solves(e.lines, v) ==> Solves(old(e.lines), v) && DecayIs(v, i)
  {
    hide Emitter.Valid;
    e.OpenIsDefined();
    e.Linear(In(i, Six(Mw)), In(i, Decay(MwLora)), Tensor(i, "att.w1"));
    e.Unary(TanH, In(i, Decay(MwLora)), In(i, Decay(MwLoraTanh)));
    e.Linear(In(i, Decay(MwLoraTanh)), In(i, Decay(MwLoraTanhLinear)), Tensor(i, "att.w2"));
  }

  ghost predicate DecayAddIs(v: Evaluation<Name>, i: nat) {
    At(v, i, DecayAdd(TimeDecayPre)) ==
      v.engine.Plus(At(v, i, Decay(MwLoraTanhLinear)), v.engine.Data(Tensor(i, "att.w0")))
  }

  /** Lines 478-479. */
  method BuildDecayAdd(e: Emitter<Name>, i: nat)
    requires e.Valid() && {In(i, Decay(MwLoraTanhLinear))} <= e.open
    requires Reached(e.defined, i, 16)
    modifies e
    ensures e.Valid()
    ensures e.open >= old(e.open) - {In(i, Decay(MwLoraTanhLinear))} +
      {In(i, DecayAdd(TimeDecayPre))}
    ensures Reached(e.defined, i, 17) && Adds(old(e.defined), e.defined, i, {})
    ensures forall v :: Solves(e.lines, v) ==> Solves(old(e.lines), v) && DecayAddIs(v, i)
  {
    hide Emitter.Valid;
    e.OpenIsDefined();
    e.Data(In(i, DecayAdd(Td)), Tensor(i, "att.w0"));
    e.Binary(Add, In(i, Decay(MwLoraTanhLinear)), In(i, DecayAdd(Td)), In(i, DecayAdd(TimeDecayPre)));
  }

  ghost predicate DecayRateIs(v: Evaluation<Name>, i: nat) {
    At(v, i, DecayRate(TimeDecay)) ==
      v.engine.Unary(Exp("-0.606531"), v.engine.Unary(Sigmoid, At(v, i, DecayAdd(TimeDecayPre))))
  }

  /** Lines 480-481. */
  method BuildDecayRate(e: Emitter<Name>, i: nat)
    requires e.Valid() && {In(i, DecayAdd(TimeDecayPre))} <= e.open
    requires Reached(e.defined, i, 17)
    modifies e
    ensures e.Valid()
    ensures e.open >= old(e.open) - {In(i, DecayAdd(TimeDecayPre))} +
      {In(i, DecayRate(TimeDecay))}
    ensures Reached(e.defined, i, 18) && Adds(old(e.defined), e.defined, i, {})
    ensures forall v :: Solves(e.lines, v) ==> Solves(old(e.lines), v) && DecayRateIs(v, i)
  {
    hide Emitter.Valid;
    e.OpenIsDefined();
    e.Unary(Sigmoid, In(i, DecayAdd(TimeDecayPre)), In(i, DecayRate(TimeDecaySigmoid)));
    e.Unary(Exp("-0.606531"), In(i, DecayRate(TimeDecaySigmoid)), In(i, DecayRate(TimeDecay)));
  }

  ghost predicate DecayShapeIs(v: Evaluation<Name>, i: nat, jellyfish: bool) {
    && At(v, i, DecayShape(TimeDecayReshape)) == v.engine.Shaped(Rows, At(v, i, DecayRate(TimeDecay)))
    && (jellyfish ==> At(v, i, DecayShape(TimeDecay1)) == At(v, i, DecayRate(TimeDecay)))
  }

  /** Lines 482-486. */
  method BuildDecayShape(e: Emitter<Name>, i: nat, jellyfish: bool)
    requires e.Valid() && {In(i, DecayRate(TimeDecay))} <= e.open
    requires Reached(e.defined, i, 18)
    modifies e
    ensures e.Valid()
    ensures e.open >= old(e.open) - {In(i, DecayRate(TimeDecay))} +
      {In(i, DecayShape(TimeDecayReshape))}
    ensures jellyfish ==> In(i, DecayShape(TimeDecay1)) in e.open
    ensures Reached(e.defined, i, 19) && Adds(old(e.defined), e.defined, i, {})
    ensures forall v :: Solves(e.lines, v) ==> Solves(old(e.lines), v) && DecayShapeIs(v, i, jellyfish)
  {
    hide Emitter.Valid;
    e.OpenIsDefined();
    if jellyfish {
      e.Split2(In(i, DecayRate(TimeDecay)), In(i, DecayShape(TimeDecay0)), In(i, DecayShape(TimeDecay1)));
      e.Unary(Reshape(Rows), In(i, DecayShape(TimeDecay0)), In(i, DecayShape(TimeDecayReshape)));
    } else {
      e.Unary(Reshape(Rows), In(i, DecayRate(TimeDecay)), In(i, DecayShape(TimeDecayReshape)));
    }
  }

  ghost predicate HeadsIs(v: Evaluation<Name>, i: nat) {
    && At(v, i, Heads(KeyA1)) == At(v, i, KeyRate(KeyA))
    && At(v, i, Heads(KeyAReshape)) == v.engine.Shaped(Rows, At(v, i, KeyRate(KeyA)))
  }

  /** Lines 489-490. */
  method BuildHeads(e: Emitter<Name>, i: nat)
    requires e.Valid() && {In(i, KeyRate(KeyA))} <= e.open
    requires Reached(e.defined, i, 19)
    modifies e
    ensures e.Valid()
    ensures e.open >= old(e.open) - {In(i, KeyRate(KeyA))} +
      {In(i, Heads(KeyA1)), In(i, Heads(KeyAReshape))}
    ensures Reached(e.defined, i, 20) && Adds(old(e.defined), e.defined, i, {})
    ensures forall v :: Solves(e.lines, v) ==> Solves(old(e.lines), v) && HeadsIs(v, i)
  {
    hide Emitter.Valid;
    e.OpenIsDefined();
    e.Split2(In(i, KeyRate(KeyA)), In(i, Heads(KeyA0)), In(i, Heads(KeyA1)));
    e.Unary(Reshape(Rows), In(i, Heads(KeyA0)), In(i, Heads(KeyAReshape)));
  }

  ghost predicate ValueHeadsIs(v: Evaluation<Name>, i: nat) {
    At(v, i, ValueHeads(ValueFinal0)) == At(v, i, ValueHeads(ValueFinal1)) == At(v, i, ValueEnd(ValueFinal))
  }

  /** Line 491. */
  method BuildValueHeads(e: Emitter<Name>, i: nat)
    requires e.Valid() && {In(i, ValueEnd(ValueFinal))} <= e.open
    requires Reached(e.defined, i, 20)
    modifies e
    ensures e.Valid()
    ensures e.open >= old(e.open) - {In(i, ValueEnd(ValueFinal))} +
      {In(i, ValueHeads(ValueFinal0)), In(i, ValueHeads(ValueFinal1)), In(i, ValueHeads(ValueFinal2))}
    ensures Reached(e.defined, i, 21) && Adds(old(e.defined), e.defined, i, {})
    ensures forall v :: Solves(e.lines, v) ==> Solves(old(e.lines), v) && ValueHeadsIs(v, i)
  {
    hide Emitter.Valid;
    e.OpenIsDefined();
    e.Split3(In(i, ValueEnd(ValueFinal)), In(i, ValueHeads(ValueFinal0)),
             In(i, ValueHeads(ValueFinal1)), In(i, ValueHeads(ValueFinal2)));
  }

  ghost predicate ValueKeyIs(v: Evaluation<Name>, i: nat) {
    var g := v.engine;
    && At(v, i, ValueKey(ValueFinal0Reshape)) == g.Shaped(ByHead, At(v, i, ValueHeads(ValueFinal0)))
    && At(v, i, ValueKey(Vk)) ==
      g.Product(g.Shaped(Columns, At(v, i, ValueHeads(ValueFinal1))), At(v, i, Heads(KeyAReshape)))
  }

  /** Lines 492-494. */
  method BuildValueKey(e: Emitter<Name>, i: nat)
    requires e.Valid() && {In(i, ValueHeads(ValueFinal0)), In(i, ValueHeads(ValueFinal1)),
      In(i, Heads(KeyAReshape))} <= e.open
    requires Reached(e.defined, i, 21)
    modifies e
    ensures e.Valid()
    ensures e.open >= old(e.open) - {In(i, ValueHeads(ValueFinal0)), In(i, ValueHeads(ValueFinal1)),
      In(i, Heads(KeyAReshape))} +
      {In(i, ValueKey(ValueFinal0Reshape)), In(i, ValueKey(Vk))}
    ensures Reached(e.defined, i, 22) && Adds(old(e.defined), e.defined, i, {})
    ensures forall v :: Solves(e.lines, v) ==> Solves(old(e.lines), v) && ValueKeyIs(v, i)
  {
    hide Emitter.Valid;
    e.OpenIsDefined();
    e.Unary(Reshape(ByHead), In(i, ValueHeads(ValueFinal0)), In(i, ValueKey(ValueFinal0Reshape)));
    e.Unary(Reshape(Columns), In(i, ValueHeads(ValueFinal1)), In(i, ValueKey(ValueFinal1Reshape)));
    e.Binary(MatMul, In(i, ValueKey(ValueFinal1Reshape)), In(i, Heads(KeyAReshape)), In(i, ValueKey(Vk)));
  }

  ghost predicate RemovalIs(v: Evaluation<Name>, i: nat) {
    var g, kk := v.engine, At(v, i, KeyNorm(KeyKNormReshape));
    && At(v, i, Removal(Kk1)) == kk
    && At(v, i, Removal(Kk0NegReshape)) == g.Shaped(Columns, g.Unary(MulScalar("-1.0"), kk))
  }

  /** Lines 495-497. */
  method BuildRemoval(e: Emitter<Name>, i: nat)
    requires e.Valid() && {In(i, KeyNorm(KeyKNormReshape))} <= e.open
    requires Reached(e.defined, i, 22)
    modifies e
    ensures e.Valid()
    ensures e.open >= old(e.open) - {In(i, KeyNorm(KeyKNormReshape))} +
      {In(i, Removal(Kk1)), In(i, Removal(Kk0NegReshape))}
    ensures Reached(e.defined, i, 23) && Adds(old(e.defined), e.defined, i, {})
    ensures forall v :: Solves(e.lines, v) ==> Solves(old(e.lines), v) && RemovalIs(v, i)
  {
    hide Emitter.Valid;
    e.OpenIsDefined();
    e.Split2(In(i, KeyNorm(KeyKNormReshape)), In(i, Removal(Kk0)), In(i, Removal(Kk1)));
    e.Unary(MulScalar("-1.0"), In(i, Removal(Kk0)), In(i, Removal(Kk0Neg)));
    e.Unary(Reshape(Columns), In(i, Removal(Kk0Neg)), In(i, Removal(Kk0NegReshape)));
  }

  ghost predicate RemovalRateIs(v: Evaluation<Name>, i: nat, jellyfish: bool) {
    var g, kk, a := v.engine, At(v, i, Removal(Kk1)), At(v, i, RateSigmoid(A1));
    At(v, i, RemovalRate(KkA)) ==
      if jellyfish then g.Times(g.Times(At(v, i, DecayShape(TimeDecay1)), a), kk) else g.Times(kk, a)
  }

  /** Lines 498-502. */
  method BuildRemovalRate(e: Emitter<Name>, i: nat, jellyfish: bool)
    requires e.Valid() && {In(i, Removal(Kk1)), In(i, RateSigmoid(A1))} <= e.open
    requires jellyfish ==> In(i, DecayShape(TimeDecay1)) in e.open
    requires Reached(e.defined, i, 23)
    modifies e
    ensures e.Valid()
    ensures e.open >= old(e.open) - {In(i, Removal(Kk1)), In(i, RateSigmoid(A1)), In(i, DecayShape(TimeDecay1))} +
      {In(i, RemovalRate(KkA))}
    ensures Reached(e.defined, i, 24) && Adds(old(e.defined), e.defined, i, {})
    ensures forall v :: Solves(e.lines, v) ==> Solves(old(e.lines), v) && RemovalRateIs(v, i, jellyfish)
  {
    hide Emitter.Valid;
    e.OpenIsDefined();
    if jellyfish {
      e.Binary(Mul, In(i, DecayShape(TimeDecay1)), In(i, RateSigmoid(A1)), In(i, RemovalRate(AExtended)));
      e.Binary(Mul, In(i, RemovalRate(AExtended)), In(i, Removal(Kk1)), In(i, RemovalRate(KkA)));
    } else {
      e.Binary(Mul, In(i, Removal(Kk1)), In(i, RateSigmoid(A1)), In(i, RemovalRate(KkA)));
    }
  }

  ghost predicate RemovedIs(v: Evaluation<Name>, i: nat) {
    At(v, i, Removed(Ab)) ==
      v.engine.Product(At(v, i, Removal(Kk0NegReshape)), v.engine.Shaped(Rows, At(v, i, RemovalRate(KkA))))
  }

  /** Lines 503-504. */
  method BuildRemoved(e: Emitter<Name>, i: nat)
    requires e.Valid() && {In(i, RemovalRate(KkA)), In(i, Removal(Kk0NegReshape))} <= e.open
    requires Reached(e.defined, i, 24)
    modifies e
    ensures e.Valid()
    ensures e.open >= old(e.open) - {In(i, RemovalRate(KkA)), In(i, Removal(Kk0NegReshape))} +
      {In(i, Removed(Ab))}
    ensures Reached(e.defined, i, 25) && Adds(old(e.defined), e.defined, i, {})
    ensures forall v :: Solves(e.lines, v) ==> Solves(old(e.lines), v) && RemovedIs(v, i)
  {
    hide Emitter.Valid;
    e.OpenIsDefined();
    e.Unary(Reshape(Rows), In(i, RemovalRate(KkA)), In(i, Removed(KkAReshape)));
    e.Binary(MatMul, In(i, Removal(Kk0NegReshape)), In(i, Removed(KkAReshape)), In(i, Removed(Ab)));
  }

  ghost predicate StateForkIs(v: Evaluation<Name>, i: nat) {
    && At(v, i, StateFork(StatePrev1)) == v.values(StateIn(3 * i + 1))
    && At(v, i, StateFork(StateTd)) ==
      v.engine.Times(v.values(StateIn(3 * i + 1)), At(v, i, DecayShape(TimeDecayReshape)))
  }

  /** Lines 505-506. */
  method BuildStateFork(e: Emitter<Name>, i: nat)
    requires e.Valid() && {StateIn(3 * i + 1), In(i, DecayShape(TimeDecayReshape))} <= e.open
    requires Reached(e.defined, i, 25)
    modifies e
    ensures e.Valid()
    ensures e.open >= old(e.open) - {StateIn(3 * i + 1), In(i, DecayShape(TimeDecayReshape))} +
      {In(i, StateFork(StatePrev1)), In(i, StateFork(StateTd))}
    ensures Reached(e.defined, i, 26) && Adds(old(e.defined), e.defined, i, {})
    ensures forall v :: Solves(e.lines, v) ==> Solves(old(e.lines), v) && StateForkIs(v, i)
  {
    hide Emitter.Valid;
    e.OpenIsDefined();
    e.Split2(StateIn(3 * i + 1), In(i, StateFork(StatePrev0)), In(i, StateFork(StatePrev1)));
    e.Binary(Mul, In(i, StateFork(StatePrev0)), In(i, DecayShape(TimeDecayReshape)), In(i, StateFork(StateTd)));
  }

  ghost predicate StateIs(v: Evaluation<Name>, i: nat) {
    var g := v.engine;
    At(v, i, State(StateNew)) == g.Plus(
      g.Plus(g.Product(At(v, i, StateFork(StatePrev1)), At(v, i, Removed(Ab))), At(v, i, ValueKey(Vk))),
      At(v, i, StateFork(StateTd)))
  }

  /** Lines 507-509. */
  method BuildState(e: Emitter<Name>, i: nat)
    requires e.Valid() && {In(i, StateFork(StatePrev1)), In(i, Removed(Ab)), In(i, ValueKey(Vk)),
      In(i, StateFork(StateTd))} <= e.open
    requires Reached(e.defined, i, 26)
    modifies e
    ensures e.Valid()
    ensures e.open >= old(e.open) - {In(i, StateFork(StatePrev1)), In(i, Removed(Ab)), In(i, ValueKey(Vk)),
      In(i, StateFork(StateTd))} +
      {In(i, State(StateNew))}
    ensures Reached(e.defined, i, 27) && Adds(old(e.defined), e.defined, i, {})
    ensures forall v :: Solves(e.lines, v) ==> Solves(old(e.lines), v) && StateIs(v, i)
  {
    hide Emitter.Valid;
    e.OpenIsDefined();
    e.Binary(MatMul, In(i, StateFork(StatePrev1)), In(i, Removed(Ab)), In(i, State(Sab)));
    e.Binary(Add, In(i, State(Sab)), In(i, ValueKey(Vk)), In(i, State(SabVk)));
    e.Binary(Add, In(i, State(SabVk)), In(i, StateFork(StateTd)), In(i, State(StateNew)));
  }

  ghost predicate ReadForkIs(v: Evaluation<Name>, i: nat) {
    && At(v, i, ReadFork(StateNew0)) == v.values(StateOut(3 * i + 1)) == At(v, i, State(StateNew))
    && At(v, i, ReadFork(Receptance0)) == At(v, i, ReadFork(Receptance1)) == At(v, i, Project(Receptance))
  }

  /** Lines 510-511. */
  method BuildReadFork(e: Emitter<Name>, i: nat)
    requires e.Valid() && {In(i, State(StateNew)), In(i, Project(Receptance))} <= e.open
    requires Reached(e.defined, i, 27) && StateOut(3 * i + 1) !in e.defined
    modifies e
    ensures e.Valid()
    ensures e.open >= old(e.open) - {In(i, State(StateNew)), In(i, Project(Receptance))} +
      {In(i, ReadFork(StateNew0)), StateOut(3 * i + 1), In(i, ReadFork(Receptance0)), In(i, ReadFork(Receptance1))}
    ensures Reached(e.defined, i, 28) && Adds(old(e.defined), e.defined, i, {StateOut(3 * i + 1)})
    ensures forall v :: Solves(e.lines, v) ==> Solves(old(e.lines), v) && ReadForkIs(v, i)
  {
    hide Emitter.Valid;
    e.OpenIsDefined();
    e.Split2(In(i, State(StateNew)), In(i, ReadFork(StateNew0)), StateOut(3 * i + 1));
    e.Split2(In(i, Project(Receptance)), In(i, ReadFork(Receptance0)), In(i, ReadFork(Receptance1)));
  }

  ghost predicate ReadIs(v: Evaluation<Name>, i: nat) {
    var g := v.engine;
    At(v, i, Read(WkvOutFlatten)) ==
      g.Shaped(Flat, g.Product(At(v, i, ReadFork(StateNew0)), g.Shaped(Columns, At(v, i, ReadFork(Receptance0)))))
  }

  /** Lines 512-514. */
  method BuildRead(e: Emitter<Name>, i: nat)
    requires e.Valid() && {In(i, ReadFork(Receptance0)), In(i, ReadFork(StateNew0))} <= e.open
    requires Reached(e.defined, i, 28)
    modifies e
    ensures e.Valid()
    ensures e.open >= old(e.open) - {In(i, ReadFork(Receptance0)), In(i, ReadFork(StateNew0))} +
      {In(i, Read(WkvOutFlatten))}
    ensures Reached(e.defined, i, 29) && Adds(old(e.defined), e.defined, i, {})
    ensures forall v :: Solves(e.lines, v) ==> Solves(old(e.lines), v) && ReadIs(v, i)
  {
    hide Emitter.Valid;
    e.OpenIsDefined();
    e.Unary(Reshape(Columns), In(i, ReadFork(Receptance0)), In(i, Read(ReceptanceReshape)));
    e.Binary(MatMul, In(i, ReadFork(StateNew0)), In(i, Read(ReceptanceReshape)), In(i, Read(WkvOut)));
    e.Unary(Reshape(Flat), In(i, Read(WkvOut)), In(i, Read(WkvOutFlatten)));
  }

  ghost predicate BonusIs(v: Evaluation<Name>, i: nat) {
    var g := v.engine;
    && At(v, i, Bonus(XGn)) == g.Weighted(GroupNorm("0.00064"), Tensor(i, "att.ln_x"), At(v, i, Read(WkvOutFlatten)))
    && At(v, i, Bonus(Rk)) ==
      g.Times(g.Times(At(v, i, ReadFork(Receptance1)), At(v, i, Heads(KeyA1))), At(v, i, KeyData(RK)))
  }

  /** Lines 516-518. */
  method BuildBonus(e: Emitter<Name>, i: nat)
    requires e.Valid() && {In(i, Read(WkvOutFlatten)), In(i, ReadFork(Receptance1)), In(i, Heads(KeyA1)),
      In(i, KeyData(RK))} <= e.open
    requires Reached(e.defined, i, 29)
    modifies e
    ensures e.Valid()
    ensures e.open >= old(e.open) - {In(i, Read(WkvOutFlatten)), In(i, ReadFork(Receptance1)), In(i, Heads(KeyA1)),
      In(i, KeyData(RK))} +
      {In(i, Bonus(XGn)), In(i, Bonus(Rk))}
    ensures Reached(e.defined, i, 30) && Adds(old(e.defined), e.defined, i, {})
    ensures forall v :: Solves(e.lines, v) ==> Solves(old(e.lines), v) && BonusIs(v, i)
  {
    hide Emitter.Valid;
    e.OpenIsDefined();
    e.GroupNormed(In(i, Read(WkvOutFlatten)), In(i, Bonus(XGn)), "0.00064", Tensor(i, "att.ln_x"));
    e.Binary(Mul, In(i, ReadFork(Receptance1)), In(i, Heads(KeyA1)), In(i, Bonus(ReceptanceKeyA)));
    e.Binary(Mul, In(i, Bonus(ReceptanceKeyA)), In(i, KeyData(RK)), In(i, Bonus(Rk)));
  }

  ghost predicate BonusSumIs(v: Evaluation<Name>, i: nat) {
    At(v, i, BonusSum(RkSum)) == v.engine.Unary(Reduction, v.engine.Shaped(ByHead, At(v, i, Bonus(Rk))))
  }

  /** Lines 519-520. */
  method BuildBonusSum(e: Emitter<Name>, i: nat)
    requires e.Valid() && {In(i, Bonus(Rk))} <= e.open
    requires Reached(e.defined, i, 30)
    modifies e
    ensures e.Valid()
    ensures e.open >= old(e.open) - {In(i, Bonus(Rk))} +
      {In(i, BonusSum(RkSum))}
    ensures Reached(e.defined, i, 31) && Adds(old(e.defined), e.defined, i, {})
    ensures forall v :: Solves(e.lines, v) ==> Solves(old(e.lines), v) && BonusSumIs(v, i)
  {
    hide Emitter.Valid;
    e.OpenIsDefined();
    e.Unary(Reshape(ByHead), In(i, Bonus(Rk)), In(i, BonusSum(RkReshape)));
    e.Unary(Reduction, In(i, BonusSum(RkReshape)), In(i, BonusSum(RkSum)));
  }

  ghost predicate BonusAddIs(v: Evaluation<Name>, i: nat) {
    var g := v.engine;
    At(v, i, BonusAdd(XGnRkv)) == g.Plus(
      g.Shaped(Flat, g.Times(At(v, i, ValueKey(ValueFinal0Reshape)), At(v, i, BonusSum(RkSum)))),
      At(v, i, Bonus(XGn)))
  }

  /** Lines 521-523. */
  method BuildBonusAdd(e: Emitter<Name>, i: nat)
    requires e.Valid() && {In(i, ValueKey(ValueFinal0Reshape)), In(i, BonusSum(RkSum)), In(i, Bonus(XGn))} <= e.open
    requires Reached(e.defined, i, 31)
    modifies e
    ensures e.Valid()
    ensures e.open >= old(e.open) - {In(i, ValueKey(ValueFinal0Reshape)), In(i, BonusSum(RkSum)),
      In(i, Bonus(XGn))} +
      {In(i, BonusAdd(XGnRkv))}
    ensures Reached(e.defined, i, 32) && Adds(old(e.defined), e.defined, i, {})
    ensures forall v :: Solves(e.lines, v) ==> Solves(old(e.lines), v) && BonusAddIs(v, i)
  {
    hide Emitter.Valid;
    e.OpenIsDefined();
    e.Binary(Mul, In(i, ValueKey(ValueFinal0Reshape)), In(i, BonusSum(RkSum)), In(i, BonusAdd(ValueFinal0Rk)));
    e.Unary(Reshape(Flat), In(i, BonusAdd(ValueFinal0Rk)), In(i, BonusAdd(ValueFinal0RkReshape)));
    e.Binary(Add, In(i, BonusAdd(ValueFinal0RkReshape)), In(i, Bonus(XGn)), In(i, BonusAdd(XGnRkv)));
  }

  ghost predicate FinishIs(v: Evaluation<Name>, output: Blob<Name>, i: nat) {
    var g := v.engine;
    v.values(output) == g.Plus(
      g.Linear(Tensor(i, "att.output"), g.Times(At(v, i, BonusAdd(XGnRkv)), At(v, i, Gating(Gate)))),
      At(v, i, Keep(XLast)))
  }

  /** Lines 525-527. */
  method BuildFinish(e: Emitter<Name>, output: Blob<Name>, i: nat)
    requires e.Valid() && {In(i, BonusAdd(XGnRkv)), In(i, Gating(Gate)), In(i, Keep(XLast))} <= e.open
    requires Reached(e.defined, i, 32) && output !in e.defined
    requires output.TimeMixingOut? || output.ChannelMixingOut?
    modifies e
    ensures e.Valid()
    ensures e.open >= old(e.open) - {In(i, BonusAdd(XGnRkv)), In(i, Gating(Gate)), In(i, Keep(XLast))} +
      {output}
    ensures Reached(e.defined, i, 33) && Adds(old(e.defined), e.defined, i, {output})
    ensures forall v :: Solves(e.lines, v) ==> Solves(old(e.lines), v) && FinishIs(v, output, i)
  {
    hide Emitter.Valid;
    e.OpenIsDefined();
    e.Binary(Mul, In(i, BonusAdd(XGnRkv)), In(i, Gating(Gate)), In(i, Finish(XGate)));
    e.Linear(In(i, Finish(XGate)), In(i, Finish(XOut)), Tensor(i, "att.output"));
    e.Binary(Add, In(i, Finish(XOut)), In(i, Keep(XLast)), output);
  }

  ghost predicate FfnKeepIs(v: Evaluation<Name>, input: Blob<Name>, i: nat) {
    && At(v, i, FfnKeep(FXLast)) == v.values(input)
    && At(v, i, FfnKeep(FXX0)) == At(v, i, FfnKeep(FXX1)) == v.values(StateOut(3 * i + 2))
    && v.values(StateOut(3 * i + 2)) == v.engine.Weighted(LayerNorm, Tensor(i, "ln2"), v.values(input))
  }

  /** Lines 533-535. */
  method BuildFfnKeep(e: Emitter<Name>, input: Blob<Name>, i: nat)
    requires e.Valid() && {input} <= e.open
    requires Reached(e.defined, i, 33) && StateOut(3 * i + 2) !in e.defined
    requires !input.In? && !input.StateIn?
    modifies e
    ensures e.Valid()
    ensures e.open >= old(e.open) - {input} +
      {In(i, FfnKeep(FXLast)), In(i, FfnKeep(FXX0)), In(i, FfnKeep(FXX1)), StateOut(3 * i + 2)}
    ensures Reached(e.defined, i, 34) && Adds(old(e.defined), e.defined, i, {StateOut(3 * i + 2)})
    ensures forall v :: Solves(e.lines, v) ==> Solves(old(e.lines), v) && FfnKeepIs(v, input, i)
  {
    hide Emitter.Valid;
    e.OpenIsDefined();
    e.Split2(input, In(i, FfnKeep(FXLast)), In(i, FfnKeep(FX)));
    e.LayerNormed(In(i, FfnKeep(FX)), In(i, FfnKeep(FXX)), Tensor(i, "ln2"));
    e.Split3(In(i, FfnKeep(FXX)), In(i, FfnKeep(FXX0)), In(i, FfnKeep(FXX1)), StateOut(3 * i + 2));
  }

  ghost predicate FfnShiftIs(v: Evaluation<Name>, i: nat) {
    At(v, i, FfnShift(FSx0)) == v.engine.Binary(Sub, v.values(StateIn(3 * i + 2)), At(v, i, FfnKeep(FXX0)))
  }

  /** Lines 538-539. */
  method BuildFfnShift(e: Emitter<Name>, i: nat)
    requires e.Valid() && {StateIn(3 * i + 2), In(i, FfnKeep(FXX0))} <= e.open
    requires Reached(e.defined, i, 34)
    modifies e
    ensures e.Valid()
    ensures e.open >= old(e.open) - {StateIn(3 * i + 2), In(i, FfnKeep(FXX0))} +
      {In(i, FfnShift(FSx0))}
    ensures Reached(e.defined, i, 35) && Adds(old(e.defined), e.defined, i, {})
    ensures forall v :: Solves(e.lines, v) ==> Solves(old(e.lines), v) && FfnShiftIs(v, i)
  {
    hide Emitter.Valid;
    e.OpenIsDefined();
    e.Binary(Sub, StateIn(3 * i + 2), In(i, FfnKeep(FXX0)), In(i, FfnShift(FSx)));
    e.Split(In(i, FfnShift(FSx)), [In(i, FfnShift(FSx0))]);
    assert Elements([In(i, FfnShift(FSx0))]) == {In(i, FfnShift(FSx0))};
  }

  ghost predicate FfnMixIs(v: Evaluation<Name>, i: nat) {
    At(v, i, FfnMix(XXk)) == v.engine.Plus(
      v.engine.Times(At(v, i, FfnShift(FSx0)), v.engine.Data(Tensor(i, "ffn.x_k"))), At(v, i, FfnKeep(FXX1)))
  }

  /** Lines 540-542. */
  method BuildFfnMix(e: Emitter<Name>, i: nat)
    requires e.Valid() && {In(i, FfnShift(FSx0)), In(i, FfnKeep(FXX1))} <= e.open
    requires Reached(e.defined, i, 35)
    modifies e
    ensures e.Valid()
    ensures e.open >= old(e.open) - {In(i, FfnShift(FSx0)), In(i, FfnKeep(FXX1))} +
      {In(i, FfnMix(XXk))}
    ensures Reached(e.defined, i, 36) && Adds(old(e.defined), e.defined, i, {})
    ensures forall v :: Solves(e.lines, v) ==> Solves(old(e.lines), v) && FfnMixIs(v, i)
  {
    hide Emitter.Valid;
    e.OpenIsDefined();
    e.Data(In(i, FfnMix(XkData)), Tensor(i, "ffn.x_k"));
    e.Binary(Mul, In(i, FfnShift(FSx0)), In(i, FfnMix(XkData)), In(i, FfnMix(Xk)));
    e.Binary(Add, In(i, FfnMix(Xk)), In(i, FfnKeep(FXX1)), In(i, FfnMix(XXk)));
  }

  ghost predicate FfnKeyIs(v: Evaluation<Name>, i: nat) {
    var g := v.engine;
    At(v, i, FfnKey(KeyReluSquare)) ==
      g.Unary(Square, g.Unary(ReLU, g.Linear(Tensor(i, "ffn.key"), At(v, i, FfnMix(XXk)))))
  }

  /** Lines 543-545. */
  method BuildFfnKey(e: Emitter<Name>, i: nat)
    requires e.Valid() && {In(i, FfnMix(XXk))} <= e.open
    requires Reached(e.defined, i, 36)
    modifies e
    ensures e.Valid()
    ensures e.open >= old(e.open) - {In(i, FfnMix(XXk))} +
      {In(i, FfnKey(KeyReluSquare))}
    ensures Reached(e.defined, i, 37) && Adds(old(e.defined), e.defined, i, {})
    ensures forall v :: Solves(e.lines, v) ==> Solves(old(e.lines), v) && FfnKeyIs(v, i)
  {
    hide Emitter.Valid;
    e.OpenIsDefined();
    e.Linear(In(i, FfnMix(XXk)), In(i, FfnKey(FKey)), Tensor(i, "ffn.key"));
    e.Unary(ReLU, In(i, FfnKey(FKey)), In(i, FfnKey(KeyRelu)));
    e.Unary(Square, In(i, FfnKey(KeyRelu)), In(i, FfnKey(KeyReluSquare)));
  }

  ghost predicate FfnFinishIs(v: Evaluation<Name>, output: Blob<Name>, i: nat) {
    v.values(output) == v.engine.Plus(
      v.engine.Linear(Tensor(i, "ffn.value"), At(v, i, FfnKey(KeyReluSquare))), At(v, i, FfnKeep(FXLast)))
  }

  /** Lines 546-547. */
  method BuildFfnFinish(e: Emitter<Name>, output: Blob<Name>, i: nat)
    requires e.Valid() && {In(i, FfnKey(KeyReluSquare)), In(i, FfnKeep(FXLast))} <= e.open
    requires Reached(e.defined, i, 37) && output !in e.defined
    requires output.TimeMixingOut? || output.ChannelMixingOut?
    modifies e
    ensures e.Valid()
    ensures e.open >= old(e.open) - {In(i, FfnKey(KeyReluSquare)), In(i, FfnKeep(FXLast))} +
      {output}
    ensures Reached(e.defined, i, 38) && Adds(old(e.defined), e.defined, i, {output})
    ensures forall v :: Solves(e.lines, v) ==> Solves(old(e.lines), v) && FfnFinishIs(v, output, i)
  {
    hide Emitter.Valid;
    e.OpenIsDefined();
    e.Linear(In(i, FfnKey(KeyReluSquare)), In(i, FfnFinish(FValue)), Tensor(i, "ffn.value"));
    e.Binary(Add, In(i, FfnFinish(FValue)), In(i, FfnKeep(FXLast)), output);
  }

  ghost predicate ValueFirstIs(v: Evaluation<Name>, i: nat) {
    At(v, i, ValueEnd(ValueFinal)) == v.values(VFirst(i)) == At(v, i, Project(Value))
  }

  /** Lines 461-462: in the first layer the value is also kept for the later ones. */
  method BuildValueFirst(e: Emitter<Name>, i: nat)
    requires e.Valid() && In(i, Project(Value)) in e.open && Reached(e.defined, i, 11) && VFirst(i) !in e.defined
    modifies e
    ensures e.Valid()
    ensures e.open >= old(e.open) - {In(i, Project(Value))} + {In(i, ValueEnd(ValueFinal)), VFirst(i)}
    ensures Reached(e.defined, i, 15) && Adds(old(e.defined), e.defined, i, {VFirst(i)})
    ensures forall v :: Solves(e.lines, v) ==> Solves(old(e.lines), v) && ValueFirstIs(v, i)
  {
    hide Emitter.Valid;
    e.OpenIsDefined();
    e.Split2(In(i, Project(Value)), In(i, ValueEnd(ValueFinal)), VFirst(i));
  }

  ghost predicate MixturesAre(v: Evaluation<Name>, input: Blob<Name>, i: nat) {
    KeepIs(v, input, i) && ShiftIs(v, i) && SixIs(v, i)
  }

  ghost predicate ProjectionsAre(v: Evaluation<Name>, i: nat, jellyfish: bool) {
    ProjectIs(v, i) && RateIs(v, i) && RateSigmoidIs(v, i, jellyfish) && GatingIs(v, i)
  }

  ghost predicate KeyPartsAre(v: Evaluation<Name>, i: nat) {
    KeyDataIs(v, i) && KeyForkIs(v, i) && KeyNormIs(v, i)
  }

  ghost predicate LaterValuesAre(v: Evaluation<Name>, i: nat)
    requires i > 0
  {
    ValueForkIs(v, i) && ValueMixIs(v, i) && ValueLaterIs(v, i) && ValueEndIs(v, i)
  }

  ghost predicate ValuesAre(v: Evaluation<Name>, i: nat) {
    if i == 0 then ValueFirstIs(v, i) else LaterValuesAre(v, i)
  }

  ghost predicate DecaysAre(v: Evaluation<Name>, i: nat, jellyfish: bool) {
    DecayIs(v, i) && DecayAddIs(v, i) && DecayRateIs(v, i) && DecayShapeIs(v, i, jellyfish)
  }

  ghost predicate ShapesAre(v: Evaluation<Name>, i: nat) {
    HeadsIs(v, i) && ValueHeadsIs(v, i) && ValueKeyIs(v, i)
  }

  ghost predicate RemovalsAre(v: Evaluation<Name>, i: nat, jellyfish: bool) {
    RemovalIs(v, i) && RemovalRateIs(v, i, jellyfish) && RemovedIs(v, i)
  }

  ghost predicate BonusesAre(v: Evaluation<Name>, i: nat) {
    BonusIs(v, i) && BonusSumIs(v, i) && BonusAddIs(v, i)
  }

  ghost predicate FrontIs(v: Evaluation<Name>, input: Blob<Name>, i: nat, jellyfish: bool) {
    && MixturesAre(v, input, i) && ProjectionsAre(v, i, jellyfish) && KeyPartsAre(v, i) && KeyRateIs(v, i)
    && ValuesAre(v, i)
  }

  ghost predicate BackIs(v: Evaluation<Name>, i: nat, jellyfish: bool) {
    && DecaysAre(v, i, jellyfish) && ShapesAre(v, i) && RemovalsAre(v, i, jellyfish)
    && StateForkIs(v, i) && StateIs(v, i) && ReadForkIs(v, i) && ReadIs(v, i) && BonusesAre(v, i)
    && FinishIs(v, TimeMixingOut(i), i)
  }

  /** The value of the first layer, as layer `i` finds it. */
  ghost function FirstBefore(v: Evaluation<Name>, i: nat): Array { v.values(VFirst(if i == 0 then 0 else i - 1)) }

  /** The half of the graph for layer `i` computes the attention module on one token. */
  ghost predicate AttIs(v: Evaluation<Name>, input: Blob<Name>, i: nat, jellyfish: bool) {
    Rwkv7.Attention(v.engine, i, jellyfish, v.values(input), v.values(StateIn(3 * i)), v.values(StateIn(3 * i + 1)),
              FirstBefore(v, i)) ==
    Rwkv7.Attended(v.values(TimeMixingOut(i)), v.values(StateOut(3 * i)), v.values(StateOut(3 * i + 1)),
                   v.values(VFirst(i)))
  }

  ghost predicate FfnIs(v: Evaluation<Name>, input: Blob<Name>, i: nat) {
    Rwkv7.FeedForward(v.engine, i, v.values(input), v.values(StateIn(3 * i + 2))) ==
    (v.values(ChannelMixingOut(i)), v.values(StateOut(3 * i + 2)))
  }

  lemma AttentionIs(v: Evaluation<Name>, input: Blob<Name>, i: nat, jellyfish: bool)
    requires FrontIs(v, input, i, jellyfish) && BackIs(v, i, jellyfish)
    ensures AttIs(v, input, i, jellyfish)
  {
  }

  lemma FeedForwardIs(v: Evaluation<Name>, input: Blob<Name>, i: nat)
    requires FfnKeepIs(v, input, i) && FfnShiftIs(v, i) && FfnMixIs(v, i)
    requires FfnKeyIs(v, i) && FfnFinishIs(v, ChannelMixingOut(i), i)
    ensures FfnIs(v, input, i)
  {
  }

  /** The six mixtures of the input (lines 417-428). */
  method Mixtures(e: Emitter<Name>, input: Blob<Name>, i: nat)
    requires e.Valid() && {input, StateIn(3 * i)} <= e.open
    requires Reached(e.defined, i, 0) && {StateOut(3 * i)} !! e.defined && !input.In? && !input.StateIn?
    modifies e
    ensures e.Valid() && {In(i, Six(Mk)), In(i, Six(Mv0)), In(i, Six(Mr)), In(i, Six(Ma)), In(i, Six(Mg)),
      In(i, Six(Mv1)), In(i, Six(Mw)), In(i, Keep(XLast)), StateOut(3 * i)} <= e.open
    ensures Keeps(old(e.open), e.open, {input, StateIn(3 * i)})
    ensures Reached(e.defined, i, 3) && Adds(old(e.defined), e.defined, i, {StateOut(3 * i)})
    ensures forall v :: Solves(e.lines, v) ==> Solves(old(e.lines), v) && MixturesAre(v, input, i)
  {
    hide Emitter.Valid, Reached, Adds, Keeps, Progress, KeepIs, ShiftIs, SixIs;
    ghost var o0, d0 := e.open, e.defined;
    Begun(o0, d0, i);
    BuildKeep(e, input, i);
    ghost var o1, d1 := e.open, e.defined;
    Onward(o0, d0, o0, d0, o1, d1, i, {}, {}, {input}, {input}, {StateOut(3 * i)}, {input}, {StateOut(3 * i)});
    BuildShift(e, i);
    ghost var o2, d2 := e.open, e.defined;
    Onward(o0, d0, o1, d1, o2, d2, i, {input}, {StateOut(3 * i)},
           {StateIn(3 * i), In(i, Keep(XX0)), In(i, Keep(XX1))}, {StateIn(3 * i)}, {}, {input, StateIn(3 * i)},
           {StateOut(3 * i)});
    BuildSix(e, i);
    ghost var o3, d3 := e.open, e.defined;
    Onward(o0, d0, o2, d2, o3, d3, i, {input, StateIn(3 * i)}, {StateOut(3 * i)}, {In(i, Shift(MaaRwkvag))}, {}, {},
           {input, StateIn(3 * i)}, {StateOut(3 * i)});
    Arrived(o0, d0, o3, d3, i, {input, StateIn(3 * i)}, {StateOut(3 * i)});
  }

  /** Projections and gates (lines 430-447). */
  method Projections(e: Emitter<Name>, i: nat, jellyfish: bool)
    requires e.Valid() && {In(i, Six(Mk)), In(i, Six(Mv0)), In(i, Six(Mr)), In(i, Six(Ma)), In(i, Six(Mg)),
      In(i, Six(Mv1)), In(i, Six(Mw)), In(i, Keep(XLast))} <= e.open
    requires Reached(e.defined, i, 3)
    modifies e
    ensures e.Valid() && {In(i, Project(Key)), In(i, RateSigmoid(A0)), In(i, Project(Value)), In(i, Six(Mv1)),
      In(i, Six(Mw)), In(i, RateSigmoid(A1)), In(i, Project(Receptance)), In(i, Gating(Gate)),
      In(i, Keep(XLast))} <= e.open
    ensures Keeps(old(e.open), e.open, {})
    ensures Reached(e.defined, i, 7) && Adds(old(e.defined), e.defined, i, {})
    ensures forall v :: Solves(e.lines, v) ==> Solves(old(e.lines), v) && ProjectionsAre(v, i, jellyfish)
  {
    hide Emitter.Valid, Reached, Adds, Keeps, Progress, ProjectIs, RateIs, RateSigmoidIs, GatingIs;
    ghost var o0, d0 := e.open, e.defined;
    Begun(o0, d0, i);
    BuildProject(e, i);
    ghost var o1, d1 := e.open, e.defined;
    Onward(o0, d0, o0, d0, o1, d1, i, {}, {}, {In(i, Six(Mk)), In(i, Six(Mv0)), In(i, Six(Mr))}, {}, {}, {}, {});
    BuildRate(e, i);
    ghost var o2, d2 := e.open, e.defined;
    Onward(o0, d0, o1, d1, o2, d2, i, {}, {}, {In(i, Six(Ma))}, {}, {}, {}, {});
    BuildRateSigmoid(e, i, jellyfish);
    ghost var o3, d3 := e.open, e.defined;
    Onward(o0, d0, o2, d2, o3, d3, i, {}, {}, {In(i, Rate(MaLora2))}, {}, {}, {}, {});
    BuildGating(e, i);
    ghost var o4, d4 := e.open, e.defined;
    Onward(o0, d0, o3, d3, o4, d4, i, {}, {}, {In(i, Six(Mg))}, {}, {}, {}, {});
    Arrived(o0, d0, o4, d4, i, {}, {});
  }

  /** The normalised key, and what its rate needs. */
  method KeyParts(e: Emitter<Name>, i: nat)
    requires e.Valid() && In(i, Project(Key)) in e.open
    requires Reached(e.defined, i, 7)
    modifies e
    ensures e.Valid()
    ensures e.open >= old(e.open) - {In(i, Project(Key)), In(i, KeyData(KK)), In(i, KeyFork(KeyK))} +
      {In(i, KeyData(KA)), In(i, KeyData(RK)), In(i, KeyFork(Key1)), In(i, KeyNorm(KeyKNormReshape))}
    ensures Reached(e.defined, i, 10) && Adds(old(e.defined), e.defined, i, {})
    ensures forall v :: Solves(e.lines, v) ==> Solves(old(e.lines), v) && KeyPartsAre(v, i)
  {
    hide Emitter.Valid, Reached, Adds, KeyDataIs, KeyForkIs, KeyNormIs;
    ghost var d0 := e.defined;
    BuildKeyData(e, i);
    ghost var d1 := e.defined;
    BuildKeyFork(e, i);
    ghost var d2 := e.defined;
    AddsThen(d0, d1, d2, i, {}, {});
    BuildKeyNorm(e, i);
    AddsThen(d0, d2, e.defined, i, {}, {});
  }

  /** The keys (lines 449-460). */
  method Keys(e: Emitter<Name>, i: nat)
    requires e.Valid() && {In(i, Project(Key)), In(i, RateSigmoid(A0)), In(i, Project(Value)), In(i, Six(Mv1)),
      In(i, Six(Mw)), In(i, RateSigmoid(A1)), In(i, Project(Receptance)), In(i, Gating(Gate)),
      In(i, Keep(XLast))} <= e.open
    requires Reached(e.defined, i, 7)
    modifies e
    ensures e.Valid() && {In(i, Project(Value)), In(i, Six(Mv1)), In(i, Six(Mw)), In(i, KeyRate(KeyA)),
      In(i, KeyNorm(KeyKNormReshape)), In(i, RateSigmoid(A1)), In(i, Project(Receptance)), In(i, KeyData(RK)),
      In(i, Gating(Gate)), In(i, Keep(XLast))} <= e.open
    ensures Keeps(old(e.open), e.open, {})
    ensures Reached(e.defined, i, 11) && Adds(old(e.defined), e.defined, i, {})
    ensures forall v :: Solves(e.lines, v) ==> Solves(old(e.lines), v) && KeyPartsAre(v, i) && KeyRateIs(v, i)
  {
    hide Emitter.Valid, Reached, Adds, Keeps, Progress, KeyPartsAre, KeyRateIs;
    ghost var o0, d0 := e.open, e.defined;
    Begun(o0, d0, i);
    KeyParts(e, i);
    ghost var o1, d1 := e.open, e.defined;
    Onward(o0, d0, o0, d0, o1, d1, i, {}, {}, {In(i, Project(Key)), In(i, KeyData(KK)), In(i, KeyFork(KeyK))}, {}, {},
           {}, {});
    BuildKeyRate(e, i);
    ghost var o2, d2 := e.open, e.defined;
    Onward(o0, d0, o1, d1, o2, d2, i, {}, {}, {In(i, RateSigmoid(A0)), In(i, KeyData(KA)), In(i, KeyFork(Key1))}, {},
           {}, {}, {});
    Arrived(o0, d0, o2, d2, i, {}, {});
  }

  /** The value and that of the first layer (lines 464-468). */
  method ValuesBegin(e: Emitter<Name>, i: nat)
    requires i > 0
    requires e.Valid() && {VFirst(i - 1), In(i, Project(Value)), In(i, Six(Mv1)), In(i, Six(Mw)),
      In(i, KeyRate(KeyA)), In(i, KeyNorm(KeyKNormReshape)), In(i, RateSigmoid(A1)), In(i, Project(Receptance)),
      In(i, KeyData(RK)), In(i, Gating(Gate)), In(i, Keep(XLast))} <= e.open
    requires Reached(e.defined, i, 11) && {VFirst(i)} !! e.defined
    modifies e
    ensures e.Valid() && {In(i, ValueMix(MvLora1)), In(i, ValueFork(VFirstMinusValue)), In(i, ValueFork(Value0)),
      In(i, Six(Mw)), In(i, KeyRate(KeyA)), In(i, KeyNorm(KeyKNormReshape)), In(i, RateSigmoid(A1)),
      In(i, Project(Receptance)), In(i, KeyData(RK)), In(i, Gating(Gate)), In(i, Keep(XLast)), VFirst(i)} <= e.open
    ensures Keeps(old(e.open), e.open, {VFirst(i - 1)})
    ensures Reached(e.defined, i, 13) && Adds(old(e.defined), e.defined, i, {VFirst(i)})
    ensures forall v :: Solves(e.lines, v) ==> Solves(old(e.lines), v) && ValueForkIs(v, i) && ValueMixIs(v, i)
  {
    hide Emitter.Valid, Reached, Adds, Keeps, Progress, ValueForkIs, ValueMixIs;
    ghost var o0, d0 := e.open, e.defined;
    Begun(o0, d0, i);
    BuildValueFork(e, i);
    ghost var o1, d1 := e.open, e.defined;
    Onward(o0, d0, o0, d0, o1, d1, i, {}, {}, {In(i, Project(Value)), VFirst(i - 1)}, {VFirst(i - 1)}, {VFirst(i)},
           {VFirst(i - 1)}, {VFirst(i)});
    BuildValueMix(e, i);
    ghost var o2, d2 := e.open, e.defined;
    Onward(o0, d0, o1, d1, o2, d2, i, {VFirst(i - 1)}, {VFirst(i)}, {In(i, Six(Mv1))}, {}, {}, {VFirst(i - 1)},
           {VFirst(i)});
    Arrived(o0, d0, o2, d2, i, {VFirst(i - 1)}, {VFirst(i)});
  }

  /** Their mixture (lines 469-473). */
  method ValuesEnd(e: Emitter<Name>, i: nat)
    requires e.Valid() && {In(i, ValueMix(MvLora1)), In(i, ValueFork(VFirstMinusValue)), In(i, ValueFork(Value0)),
      In(i, Six(Mw)), In(i, KeyRate(KeyA)), In(i, KeyNorm(KeyKNormReshape)), In(i, RateSigmoid(A1)),
      In(i, Project(Receptance)), In(i, KeyData(RK)), In(i, Gating(Gate)), In(i, Keep(XLast))} <= e.open
    requires Reached(e.defined, i, 13)
    modifies e
    ensures e.Valid() && {In(i, Six(Mw)), In(i, KeyRate(KeyA)), In(i, ValueEnd(ValueFinal)),
      In(i, KeyNorm(KeyKNormReshape)), In(i, RateSigmoid(A1)), In(i, Project(Receptance)), In(i, KeyData(RK)),
      In(i, Gating(Gate)), In(i, Keep(XLast))} <= e.open
    ensures Keeps(old(e.open), e.open, {})
    ensures Reached(e.defined, i, 15) && Adds(old(e.defined), e.defined, i, {})
    ensures forall v :: Solves(e.lines, v) ==> Solves(old(e.lines), v) && ValueLaterIs(v, i) && ValueEndIs(v, i)
  {
    hide Emitter.Valid, Reached, Adds, Keeps, Progress, ValueLaterIs, ValueEndIs;
    ghost var o0, d0 := e.open, e.defined;
    Begun(o0, d0, i);
    BuildValueLater(e, i);
    ghost var o1, d1 := e.open, e.defined;
    Onward(o0, d0, o0, d0, o1, d1, i, {}, {}, {In(i, ValueMix(MvLora1))}, {}, {}, {}, {});
    BuildValueEnd(e, i);
    ghost var o2, d2 := e.open, e.defined;
    Onward(o0, d0, o1, d1, o2, d2, i, {}, {},
           {In(i, ValueLater(MvLoraSigmoid)), In(i, ValueFork(VFirstMinusValue)), In(i, ValueFork(Value0))}, {}, {},
           {}, {});
    Arrived(o0, d0, o2, d2, i, {}, {});
  }

  /** The values of a later layer (lines 464-473). */
  method LaterValues(e: Emitter<Name>, i: nat)
    requires e.Valid() && {In(i, Project(Value)), In(i, Six(Mv1)), In(i, Six(Mw)), In(i, KeyRate(KeyA)),
      In(i, KeyNorm(KeyKNormReshape)), In(i, RateSigmoid(A1)), In(i, Project(Receptance)), In(i, KeyData(RK)),
      In(i, Gating(Gate)), In(i, Keep(XLast))} <= e.open
    requires i > 0 && VFirst(i - 1) in e.open
    requires Reached(e.defined, i, 11) && VFirst(i) !in e.defined
    modifies e
    ensures e.Valid() && {In(i, Six(Mw)), In(i, KeyRate(KeyA)), In(i, ValueEnd(ValueFinal)),
      In(i, KeyNorm(KeyKNormReshape)), In(i, RateSigmoid(A1)), In(i, Project(Receptance)), In(i, KeyData(RK)),
      In(i, Gating(Gate)), In(i, Keep(XLast)), VFirst(i)} <= e.open
    ensures Keeps(old(e.open), e.open, {VFirst(i - 1)})
    ensures Reached(e.defined, i, 15) && Adds(old(e.defined), e.defined, i, {VFirst(i)})
    ensures forall v :: Solves(e.lines, v) ==> Solves(old(e.lines), v) && LaterValuesAre(v, i)
  {
    hide Emitter.Valid, Reached, Adds, ValueForkIs, ValueMixIs, ValueLaterIs, ValueEndIs;
    ValuesBegin(e, i);
    ghost var defined := e.defined;
    ValuesEnd(e, i);
    AddsThen(old(e.defined), defined, e.defined, i, {VFirst(i)}, {});
  }

  /** The values, mixed with those of the first layer in every later one (lines 461-473). */
  method Values(e: Emitter<Name>, i: nat)
    requires e.Valid() && {In(i, Project(Value)), In(i, Six(Mv1)), In(i, Six(Mw)), In(i, KeyRate(KeyA)),
      In(i, KeyNorm(KeyKNormReshape)), In(i, RateSigmoid(A1)), In(i, Project(Receptance)), In(i, KeyData(RK)),
      In(i, Gating(Gate)), In(i, Keep(XLast))} <= e.open
    requires i > 0 ==> VFirst(i - 1) in e.open
    requires Reached(e.defined, i, 11) && VFirst(i) !in e.defined
    modifies e
    ensures e.Valid() && {In(i, Six(Mw)), In(i, KeyRate(KeyA)), In(i, ValueEnd(ValueFinal)),
      In(i, KeyNorm(KeyKNormReshape)), In(i, RateSigmoid(A1)), In(i, Project(Receptance)), In(i, KeyData(RK)),
      In(i, Gating(Gate)), In(i, Keep(XLast)), VFirst(i)} <= e.open
    ensures Keeps(old(e.open), e.open, if i > 0 then {VFirst(i - 1)} else {})
    ensures Reached(e.defined, i, 15) && Adds(old(e.defined), e.defined, i, {VFirst(i)})
    ensures forall v :: Solves(e.lines, v) ==> Solves(old(e.lines), v) && ValuesAre(v, i)
  {
    hide Emitter.Valid, Reached, Adds, LaterValuesAre, ValueFirstIs;
    if i == 0 {
      BuildValueFirst(e, i);
    } else {
      LaterValues(e, i);
    }
  }

  /** The decay (lines 475-486). */
  method Decays(e: Emitter<Name>, i: nat, jellyfish: bool)
    requires e.Valid() && {In(i, Six(Mw)), In(i, KeyRate(KeyA)), In(i, ValueEnd(ValueFinal)),
      In(i, KeyNorm(KeyKNormReshape)), In(i, RateSigmoid(A1)), In(i, Project(Receptance)), In(i, KeyData(RK)),
      In(i, Gating(Gate)), In(i, Keep(XLast))} <= e.open
    requires Reached(e.defined, i, 15)
    modifies e
    ensures e.Valid() && {In(i, KeyRate(KeyA)), In(i, ValueEnd(ValueFinal)), In(i, KeyNorm(KeyKNormReshape)),
      In(i, RateSigmoid(A1)), In(i, DecayShape(TimeDecayReshape)), In(i, Project(Receptance)), In(i, KeyData(RK)),
      In(i, Gating(Gate)), In(i, Keep(XLast))} <= e.open
    ensures jellyfish ==> In(i, DecayShape(TimeDecay1)) in e.open
    ensures Keeps(old(e.open), e.open, {})
    ensures Reached(e.defined, i, 19) && Adds(old(e.defined), e.defined, i, {})
    ensures forall v :: Solves(e.lines, v) ==> Solves(old(e.lines), v) && DecaysAre(v, i, jellyfish)
  {
    hide Emitter.Valid, Reached, Adds, Keeps, Progress, DecayIs, DecayAddIs, DecayRateIs, DecayShapeIs;
    ghost var o0, d0 := e.open, e.defined;
    Begun(o0, d0, i);
    BuildDecay(e, i);
    ghost var o1, d1 := e.open, e.defined;
    Onward(o0, d0, o0, d0, o1, d1, i, {}, {}, {In(i, Six(Mw))}, {}, {}, {}, {});
    BuildDecayAdd(e, i);
    ghost var o2, d2 := e.open, e.defined;
    Onward(o0, d0, o1, d1, o2, d2, i, {}, {}, {In(i, Decay(MwLoraTanhLinear))}, {}, {}, {}, {});
    BuildDecayRate(e, i);
    ghost var o3, d3 := e.open, e.defined;
    Onward(o0, d0, o2, d2, o3, d3, i, {}, {}, {In(i, DecayAdd(TimeDecayPre))}, {}, {}, {}, {});
    BuildDecayShape(e, i, jellyfish);
    ghost var o4, d4 := e.open, e.defined;
    Onward(o0, d0, o3, d3, o4, d4, i, {}, {}, {In(i, DecayRate(TimeDecay))}, {}, {}, {}, {});
    Arrived(o0, d0, o4, d4, i, {}, {});
  }

  /** Keys and values as heads (lines 489-494). */
  method Shapes(e: Emitter<Name>, i: nat, jellyfish: bool)
    requires e.Valid() && {In(i, KeyRate(KeyA)), In(i, ValueEnd(ValueFinal)), In(i, KeyNorm(KeyKNormReshape)),
      In(i, RateSigmoid(A1)), In(i, DecayShape(TimeDecayReshape)), In(i, Project(Receptance)), In(i, KeyData(RK)),
      In(i, Gating(Gate)), In(i, Keep(XLast))} <= e.open
    requires jellyfish ==> In(i, DecayShape(TimeDecay1)) in e.open
    requires Reached(e.defined, i, 19)
    modifies e
    ensures e.Valid() && {In(i, KeyNorm(KeyKNormReshape)), In(i, RateSigmoid(A1)),
      In(i, DecayShape(TimeDecayReshape)), In(i, ValueKey(Vk)), In(i, Project(Receptance)), In(i, Heads(KeyA1)),
      In(i, KeyData(RK)), In(i, ValueKey(ValueFinal0Reshape)), In(i, Gating(Gate)), In(i, Keep(XLast))} <= e.open
    ensures jellyfish ==> In(i, DecayShape(TimeDecay1)) in e.open
    ensures Keeps(old(e.open), e.open, {})
    ensures Reached(e.defined, i, 22) && Adds(old(e.defined), e.defined, i, {})
    ensures forall v :: Solves(e.lines, v) ==> Solves(old(e.lines), v) && ShapesAre(v, i)
  {
    hide Emitter.Valid, Reached, Adds, Keeps, Progress, HeadsIs, ValueHeadsIs, ValueKeyIs;
    ghost var o0, d0 := e.open, e.defined;
    Begun(o0, d0, i);
    BuildHeads(e, i);
    ghost var o1, d1 := e.open, e.defined;
    Onward(o0, d0, o0, d0, o1, d1, i, {}, {}, {In(i, KeyRate(KeyA))}, {}, {}, {}, {});
    BuildValueHeads(e, i);
    ghost var o2, d2 := e.open, e.defined;
    Onward(o0, d0, o1, d1, o2, d2, i, {}, {}, {In(i, ValueEnd(ValueFinal))}, {}, {}, {}, {});
    BuildValueKey(e, i);
    ghost var o3, d3 := e.open, e.defined;
    Onward(o0, d0, o2, d2, o3, d3, i, {}, {},
           {In(i, ValueHeads(ValueFinal0)), In(i, ValueHeads(ValueFinal1)), In(i, Heads(KeyAReshape))}, {}, {}, {},
           {});
    Arrived(o0, d0, o3, d3, i, {}, {});
  }

  /** Its two factors. */
  method RemovalParts(e: Emitter<Name>, i: nat, jellyfish: bool)
    requires e.Valid() && {In(i, KeyNorm(KeyKNormReshape)), In(i, RateSigmoid(A1))} <= e.open
    requires jellyfish ==> In(i, DecayShape(TimeDecay1)) in e.open
    requires Reached(e.defined, i, 22)
    modifies e
    ensures e.Valid()
    ensures e.open >= old(e.open) - {In(i, KeyNorm(KeyKNormReshape)), In(i, Removal(Kk1)), In(i, RateSigmoid(A1)),
      In(i, DecayShape(TimeDecay1))} + {In(i, Removal(Kk0NegReshape)), In(i, RemovalRate(KkA))}
    ensures Reached(e.defined, i, 24) && Adds(old(e.defined), e.defined, i, {})
    ensures forall v :: Solves(e.lines, v) ==>
      Solves(old(e.lines), v) && RemovalIs(v, i) && RemovalRateIs(v, i, jellyfish)
  {
    hide Emitter.Valid, Reached, Adds, RemovalIs, RemovalRateIs;
    ghost var d0 := e.defined;
    BuildRemoval(e, i);
    ghost var d1 := e.defined;
    BuildRemovalRate(e, i, jellyfish);
    AddsThen(d0, d1, e.defined, i, {}, {});
  }

  /** What the state loses (lines 495-504). */
  method Removals(e: Emitter<Name>, i: nat, jellyfish: bool)
    requires e.Valid() && {In(i, KeyNorm(KeyKNormReshape)), In(i, RateSigmoid(A1)),
      In(i, DecayShape(TimeDecayReshape)), In(i, ValueKey(Vk)), In(i, Project(Receptance)), In(i, Heads(KeyA1)),
      In(i, KeyData(RK)), In(i, ValueKey(ValueFinal0Reshape)), In(i, Gating(Gate)), In(i, Keep(XLast))} <= e.open
    requires jellyfish ==> In(i, DecayShape(TimeDecay1)) in e.open
    requires Reached(e.defined, i, 22)
    modifies e
    ensures e.Valid() && {In(i, DecayShape(TimeDecayReshape)), In(i, Removed(Ab)), In(i, ValueKey(Vk)),
      In(i, Project(Receptance)), In(i, Heads(KeyA1)), In(i, KeyData(RK)), In(i, ValueKey(ValueFinal0Reshape)),
      In(i, Gating(Gate)), In(i, Keep(XLast))} <= e.open
    ensures Keeps(old(e.open), e.open, {})
    ensures Reached(e.defined, i, 25) && Adds(old(e.defined), e.defined, i, {})
    ensures forall v :: Solves(e.lines, v) ==> Solves(old(e.lines), v) && RemovalsAre(v, i, jellyfish)
  {
    hide Emitter.Valid, Reached, Adds, Keeps, Progress, RemovalIs, RemovalRateIs, RemovedIs;
    ghost var o0, d0 := e.open, e.defined;
    Begun(o0, d0, i);
    RemovalParts(e, i, jellyfish);
    ghost var o1, d1 := e.open, e.defined;
    Onward(o0, d0, o0, d0, o1, d1, i, {}, {},
           {In(i, KeyNorm(KeyKNormReshape)), In(i, Removal(Kk1)), In(i, RateSigmoid(A1)),
            In(i, DecayShape(TimeDecay1))}, {}, {}, {}, {});
    BuildRemoved(e, i);
    ghost var o2, d2 := e.open, e.defined;
    Onward(o0, d0, o1, d1, o2, d2, i, {}, {}, {In(i, RemovalRate(KkA)), In(i, Removal(Kk0NegReshape))}, {}, {}, {},
           {});
    Arrived(o0, d0, o2, d2, i, {}, {});
  }

  /** The next state (lines 505-509). */
  method Advance(e: Emitter<Name>, i: nat)
    requires e.Valid() && {StateIn(3 * i + 1), In(i, DecayShape(TimeDecayReshape)), In(i, Removed(Ab)),
      In(i, ValueKey(Vk)), In(i, Project(Receptance)), In(i, Heads(KeyA1)), In(i, KeyData(RK)),
      In(i, ValueKey(ValueFinal0Reshape)), In(i, Gating(Gate)), In(i, Keep(XLast))} <= e.open
    requires Reached(e.defined, i, 25)
    modifies e
    ensures e.Valid() && {In(i, State(StateNew)), In(i, Project(Receptance)), In(i, Heads(KeyA1)),
      In(i, KeyData(RK)), In(i, ValueKey(ValueFinal0Reshape)), In(i, Gating(Gate)), In(i, Keep(XLast))} <= e.open
    ensures Keeps(old(e.open), e.open, {StateIn(3 * i + 1)})
    ensures Reached(e.defined, i, 27) && Adds(old(e.defined), e.defined, i, {})
    ensures forall v :: Solves(e.lines, v) ==> Solves(old(e.lines), v) && StateForkIs(v, i) && StateIs(v, i)
  {
    hide Emitter.Valid, Reached, Adds, Keeps, Progress, StateForkIs, StateIs;
    ghost var o0, d0 := e.open, e.defined;
    Begun(o0, d0, i);
    BuildStateFork(e, i);
    ghost var o1, d1 := e.open, e.defined;
    Onward(o0, d0, o0, d0, o1, d1, i, {}, {}, {StateIn(3 * i + 1), In(i, DecayShape(TimeDecayReshape))},
           {StateIn(3 * i + 1)}, {}, {StateIn(3 * i + 1)}, {});
    BuildState(e, i);
    ghost var o2, d2 := e.open, e.defined;
    Onward(o0, d0, o1, d1, o2, d2, i, {StateIn(3 * i + 1)}, {},
           {In(i, StateFork(StatePrev1)), In(i, Removed(Ab)), In(i, ValueKey(Vk)), In(i, StateFork(StateTd))}, {}, {},
           {StateIn(3 * i + 1)}, {});
    Arrived(o0, d0, o2, d2, i, {StateIn(3 * i + 1)}, {});
  }

  /** What the heads read (lines 510-514). */
  method Readout(e: Emitter<Name>, i: nat)
    requires e.Valid() && {In(i, State(StateNew)), In(i, Project(Receptance)), In(i, Heads(KeyA1)),
      In(i, KeyData(RK)), In(i, ValueKey(ValueFinal0Reshape)), In(i, Gating(Gate)), In(i, Keep(XLast))} <= e.open
    requires Reached(e.defined, i, 27) && {StateOut(3 * i + 1)} !! e.defined
    modifies e
    ensures e.Valid() && {In(i, Read(WkvOutFlatten)), In(i, ReadFork(Receptance1)), In(i, Heads(KeyA1)),
      In(i, KeyData(RK)), In(i, ValueKey(ValueFinal0Reshape)), In(i, Gating(Gate)), In(i, Keep(XLast)),
      StateOut(3 * i + 1)} <= e.open
    ensures Keeps(old(e.open), e.open, {})
    ensures Reached(e.defined, i, 29) && Adds(old(e.defined), e.defined, i, {StateOut(3 * i + 1)})
    ensures forall v :: Solves(e.lines, v) ==> Solves(old(e.lines), v) && ReadForkIs(v, i) && ReadIs(v, i)
  {
    hide Emitter.Valid, Reached, Adds, Keeps, Progress, ReadForkIs, ReadIs;
    ghost var o0, d0 := e.open, e.defined;
    Begun(o0, d0, i);
    BuildReadFork(e, i);
    ghost var o1, d1 := e.open, e.defined;
    Onward(o0, d0, o0, d0, o1, d1, i, {}, {}, {In(i, State(StateNew)), In(i, Project(Receptance))}, {},
           {StateOut(3 * i + 1)}, {}, {StateOut(3 * i + 1)});
    BuildRead(e, i);
    ghost var o2, d2 := e.open, e.defined;
    Onward(o0, d0, o1, d1, o2, d2, i, {}, {StateOut(3 * i + 1)},
           {In(i, ReadFork(Receptance0)), In(i, ReadFork(StateNew0))}, {}, {}, {}, {StateOut(3 * i + 1)});
    Arrived(o0, d0, o2, d2, i, {}, {StateOut(3 * i + 1)});
  }

  /** The bonus of the present token (lines 516-523). */
  method Bonuses(e: Emitter<Name>, i: nat)
    requires e.Valid() && {In(i, Read(WkvOutFlatten)), In(i, ReadFork(Receptance1)), In(i, Heads(KeyA1)),
      In(i, KeyData(RK)), In(i, ValueKey(ValueFinal0Reshape)), In(i, Gating(Gate)), In(i, Keep(XLast))} <= e.open
    requires Reached(e.defined, i, 29)
    modifies e
    ensures e.Valid() && {In(i, BonusAdd(XGnRkv)), In(i, Gating(Gate)), In(i, Keep(XLast))} <= e.open
    ensures Keeps(old(e.open), e.open, {})
    ensures Reached(e.defined, i, 32) && Adds(old(e.defined), e.defined, i, {})
    ensures forall v :: Solves(e.lines, v) ==> Solves(old(e.lines), v) && BonusesAre(v, i)
  {
    hide Emitter.Valid, Reached, Adds, Keeps, Progress, BonusIs, BonusSumIs, BonusAddIs;
    ghost var o0, d0 := e.open, e.defined;
    Begun(o0, d0, i);
    BuildBonus(e, i);
    ghost var o1, d1 := e.open, e.defined;
    Onward(o0, d0, o0, d0, o1, d1, i, {}, {},
           {In(i, Read(WkvOutFlatten)), In(i, ReadFork(Receptance1)), In(i, Heads(KeyA1)), In(i, KeyData(RK))}, {},
           {}, {}, {});
    BuildBonusSum(e, i);
    ghost var o2, d2 := e.open, e.defined;
    Onward(o0, d0, o1, d1, o2, d2, i, {}, {}, {In(i, Bonus(Rk))}, {}, {}, {}, {});
    BuildBonusAdd(e, i);
    ghost var o3, d3 := e.open, e.defined;
    Onward(o0, d0, o2, d2, o3, d3, i, {}, {},
           {In(i, ValueKey(ValueFinal0Reshape)), In(i, BonusSum(RkSum)), In(i, Bonus(XGn))}, {}, {}, {}, {});
    Arrived(o0, d0, o3, d3, i, {}, {});
  }

  /** The first half of the block (lines 417-473). */
  method TimeMixingFront(e: Emitter<Name>, input: Blob<Name>, i: nat, jellyfish: bool)
    requires e.Valid() && {input, StateIn(3 * i)} <= e.open
    requires !input.In? && !input.StateIn? && !input.VFirst? && (i > 0 ==> VFirst(i - 1) in e.open)
    requires Reached(e.defined, i, 0) && {StateOut(3 * i), VFirst(i)} !! e.defined
    modifies e
    ensures e.Valid() && {In(i, Six(Mw)), In(i, KeyRate(KeyA)), In(i, ValueEnd(ValueFinal)),
      In(i, KeyNorm(KeyKNormReshape)), In(i, RateSigmoid(A1)), In(i, Project(Receptance)), In(i, KeyData(RK)),
      In(i, Gating(Gate)), In(i, Keep(XLast)), StateOut(3 * i), VFirst(i)} <= e.open
    ensures Keeps(old(e.open), e.open, {input, StateIn(3 * i)} + if i > 0 then {VFirst(i - 1)} else {})
    ensures Reached(e.defined, i, 15) && Adds(old(e.defined), e.defined, i, {StateOut(3 * i), VFirst(i)})
    ensures forall v :: Solves(e.lines, v) ==> Solves(old(e.lines), v) && FrontIs(v, input, i, jellyfish)
  {
    hide Emitter.Valid, Reached, MixturesAre, ProjectionsAre, KeyPartsAre, KeyRateIs, ValuesAre;
    e.OpenIsDefined();
    Mixtures(e, input, i);
    Projections(e, i, jellyfish);
    Keys(e, i);
    Values(e, i);
  }

  /** The second half (lines 475-527). */
  method TimeMixingBack(e: Emitter<Name>, i: nat, jellyfish: bool)
    requires e.Valid() && {In(i, Six(Mw)), In(i, KeyRate(KeyA)), In(i, ValueEnd(ValueFinal)),
      In(i, KeyNorm(KeyKNormReshape)), In(i, RateSigmoid(A1)), In(i, Project(Receptance)), In(i, KeyData(RK)),
      In(i, Gating(Gate)), In(i, Keep(XLast)), StateIn(3 * i + 1)} <= e.open
    requires Reached(e.defined, i, 15) && {StateOut(3 * i + 1), TimeMixingOut(i)} !! e.defined
    modifies e
    ensures e.Valid() && {StateOut(3 * i + 1), TimeMixingOut(i)} <= e.open
    ensures Keeps(old(e.open), e.open, {StateIn(3 * i + 1)})
    ensures Reached(e.defined, i, 33) && Adds(old(e.defined), e.defined, i, {StateOut(3 * i + 1), TimeMixingOut(i)})
    ensures forall v :: Solves(e.lines, v) ==> Solves(old(e.lines), v) && BackIs(v, i, jellyfish)
  {
    hide Emitter.Valid, Reached, DecaysAre, ShapesAre, RemovalsAre, StateForkIs, StateIs, ReadForkIs, ReadIs,
      BonusesAre, FinishIs;
    e.OpenIsDefined();
    Decays(e, i, jellyfish);
    Shapes(e, i, jellyfish);
    Removals(e, i, jellyfish);
    Advance(e, i);
    Readout(e, i);
    Bonuses(e, i);
    BuildFinish(e, TimeMixingOut(i), i);
  }

  /** `build_time_mixing_v7` */
  method TimeMixing(e: Emitter<Name>, input: Blob<Name>, i: nat, jellyfish: bool)
    requires e.Valid() && {input, StateIn(3 * i), StateIn(3 * i + 1)} <= e.open
    requires !input.In? && !input.StateIn? && !input.VFirst? && (i > 0 ==> VFirst(i - 1) in e.open)
    requires Reached(e.defined, i, 0)
    requires {StateOut(3 * i), StateOut(3 * i + 1), TimeMixingOut(i), VFirst(i)} !! e.defined
    modifies e
    ensures e.Valid() && {StateOut(3 * i), StateOut(3 * i + 1), TimeMixingOut(i), VFirst(i)} <= e.open
    ensures Keeps(old(e.open), e.open,
      {input, StateIn(3 * i), StateIn(3 * i + 1)} + if i > 0 then {VFirst(i - 1)} else {})
    ensures Reached(e.defined, i, 33)
    ensures Adds(old(e.defined), e.defined, i, {StateOut(3 * i), StateOut(3 * i + 1), TimeMixingOut(i), VFirst(i)})
    ensures forall v :: Solves(e.lines, v) ==> Solves(old(e.lines), v) && AttIs(v, input, i, jellyfish)
  {
    hide Emitter.Valid, Reached, FrontIs, BackIs, AttIs;
    e.OpenIsDefined();
    TimeMixingFront(e, input, i, jellyfish);
    TimeMixingBack(e, i, jellyfish);
    forall v | Solves(e.lines, v) ensures AttIs(v, input, i, jellyfish) {
      AttentionIs(v, input, i, jellyfish);
    }
  }

  /** The mixture of the input (lines 533-542). */
  method ChannelPrepare(e: Emitter<Name>, input: Blob<Name>, i: nat)
    requires e.Valid() && {input, StateIn(3 * i + 2)} <= e.open
    requires Reached(e.defined, i, 33) && {StateOut(3 * i + 2)} !! e.defined && !input.In? && !input.StateIn?
    modifies e
    ensures e.Valid() && {In(i, FfnMix(XXk)), In(i, FfnKeep(FXLast)), StateOut(3 * i + 2)} <= e.open
    ensures Keeps(old(e.open), e.open, {input, StateIn(3 * i + 2)})
    ensures Reached(e.defined, i, 36) && Adds(old(e.defined), e.defined, i, {StateOut(3 * i + 2)})
    ensures forall v :: Solves(e.lines, v) ==>
      Solves(old(e.lines), v) && FfnKeepIs(v, input, i) && FfnShiftIs(v, i) && FfnMixIs(v, i)
  {
    hide Emitter.Valid, Reached, Adds, Keeps, Progress, FfnKeepIs, FfnShiftIs, FfnMixIs;
    ghost var o0, d0 := e.open, e.defined;
    Begun(o0, d0, i);
    BuildFfnKeep(e, input, i);
    ghost var o1, d1 := e.open, e.defined;
    Onward(o0, d0, o0, d0, o1, d1, i, {}, {}, {input}, {input}, {StateOut(3 * i + 2)}, {input},
           {StateOut(3 * i + 2)});
    BuildFfnShift(e, i);
    ghost var o2, d2 := e.open, e.defined;
    Onward(o0, d0, o1, d1, o2, d2, i, {input}, {StateOut(3 * i + 2)}, {StateIn(3 * i + 2), In(i, FfnKeep(FXX0))},
           {StateIn(3 * i + 2)}, {}, {input, StateIn(3 * i + 2)}, {StateOut(3 * i + 2)});
    BuildFfnMix(e, i);
    ghost var o3, d3 := e.open, e.defined;
    Onward(o0, d0, o2, d2, o3, d3, i, {input, StateIn(3 * i + 2)}, {StateOut(3 * i + 2)},
           {In(i, FfnShift(FSx0)), In(i, FfnKeep(FXX1))}, {}, {}, {input, StateIn(3 * i + 2)}, {StateOut(3 * i + 2)});
    Arrived(o0, d0, o3, d3, i, {input, StateIn(3 * i + 2)}, {StateOut(3 * i + 2)});
  }

  /** `build_channel_mixing_v7` */
  method ChannelMixing(e: Emitter<Name>, input: Blob<Name>, i: nat)
    requires e.Valid() && {input, StateIn(3 * i + 2)} <= e.open && !input.In? && !input.StateIn?
    requires Reached(e.defined, i, 33) && {StateOut(3 * i + 2), ChannelMixingOut(i)} !! e.defined
    modifies e
    ensures e.Valid() && {StateOut(3 * i + 2), ChannelMixingOut(i)} <= e.open
    ensures Keeps(old(e.open), e.open, {input, StateIn(3 * i + 2)})
    ensures Reached(e.defined, i, 38)
    ensures Adds(old(e.defined), e.defined, i, {StateOut(3 * i + 2), ChannelMixingOut(i)})
    ensures forall v :: Solves(e.lines, v) ==> Solves(old(e.lines), v) && FfnIs(v, input, i)
  {
    hide Emitter.Valid, Reached, FfnKeepIs, FfnShiftIs, FfnMixIs, FfnKeyIs, FfnFinishIs, FfnIs;
    ChannelPrepare(e, input, i);
    BuildFfnKey(e, i);
    BuildFfnFinish(e, ChannelMixingOut(i), i);
    forall v | Solves(e.lines, v) ensures FfnIs(v, input, i) {
      FeedForwardIs(v, input, i);
    }
  }

  /** At the head of round `i` of the layer loop. */
  ghost predicate Layered(e: Emitter<Name>, layers: nat, i: nat, input: Blob<Name>)
    reads e
  {
    e.Valid() && Reached(e.defined, i, 0) && Standing(e.open, e.defined, layers, i, input)
  }

  ghost predicate Standing(open: set<Blob<Name>>, defined: set<Blob<Name>>, layers: nat, i: nat, input: Blob<Name>) {
    && input in open && !input.In? && !input.StateIn? && !input.StateOut? && !input.VFirst?
    && (i > 0 ==> VFirst(i - 1) in open)
    && (forall k :: 3 * i <= k < 3 * layers ==> StateIn(k) in open)
    && (forall k :: 0 <= k < 3 * i ==> StateOut(k) in open)
    && (forall b :: b in defined ==>
      && (b.StateOut? ==> b.n < 3 * i) && (b.TimeMixingOut? || b.ChannelMixingOut? || b.VFirst? ==> b.layer < i)
      && b !in {NormHead, Logits})
  }

  /** One round of the layer loop (converter/convert_rwkv_to_ncnn.py:33-42). */
  method Layer(e: Emitter<Name>, ghost layers: nat, i: nat, input: Blob<Name>, jellyfish: bool)
    requires i < layers && Layered(e, layers, i, input)
    modifies e
    ensures Layered(e, layers, i + 1, ChannelMixingOut(i))
    ensures forall v :: Solves(e.lines, v) ==>
      Solves(old(e.lines), v) && AttIs(v, input, i, jellyfish) && FfnIs(v, TimeMixingOut(i), i)
  {
    hide Emitter.Valid, Reached, Adds, Keeps, Standing, AttIs, FfnIs;
    e.OpenIsDefined();
    ghost var o0, d0 := e.open, e.defined;
    Standing0(o0, d0, layers, i, input);
    TimeMixing(e, input, i, jellyfish);
    ghost var o1, d1 := e.open, e.defined;
    Standing1(o0, d0, o1, d1, layers, i, input);
    ChannelMixing(e, TimeMixingOut(i), i);
    Standing2(o0, d0, o1, d1, e.open, e.defined, layers, i, input);
    NextLayer(e.defined, i);
  }

  /** What time mixing finds. */
  lemma Standing0(open: set<Blob<Name>>, defined: set<Blob<Name>>, layers: nat, i: nat, input: Blob<Name>)
    requires i < layers && Standing(open, defined, layers, i, input) && open <= defined
    ensures {input, StateIn(3 * i), StateIn(3 * i + 1)} <= open && !input.In? && !input.StateIn? && !input.VFirst?
    ensures i > 0 ==> VFirst(i - 1) in open
    ensures {StateOut(3 * i), StateOut(3 * i + 1), TimeMixingOut(i), VFirst(i)} !! defined
  {
  }

  /** What channel mixing finds. */
  lemma Standing1(open: set<Blob<Name>>, defined: set<Blob<Name>>, open1: set<Blob<Name>>, defined1: set<Blob<Name>>,
                  layers: nat, i: nat, input: Blob<Name>)
    requires i < layers && Standing(open, defined, layers, i, input)
    requires Keeps(open, open1,
      {input, StateIn(3 * i), StateIn(3 * i + 1)} + if i > 0 then {VFirst(i - 1)} else {})
    requires Adds(defined, defined1, i, {StateOut(3 * i), StateOut(3 * i + 1), TimeMixingOut(i), VFirst(i)})
    ensures StateIn(3 * i + 2) in open1 && {StateOut(3 * i + 2), ChannelMixingOut(i)} !! defined1
  {
  }

  /** What the layer leaves. */
  lemma Standing2(open: set<Blob<Name>>, defined: set<Blob<Name>>, open1: set<Blob<Name>>, defined1: set<Blob<Name>>,
                  open2: set<Blob<Name>>, defined2: set<Blob<Name>>, layers: nat, i: nat, input: Blob<Name>)
    requires i < layers && Standing(open, defined, layers, i, input)
    requires Keeps(open, open1,
      {input, StateIn(3 * i), StateIn(3 * i + 1)} + if i > 0 then {VFirst(i - 1)} else {})
    requires Adds(defined, defined1, i, {StateOut(3 * i), StateOut(3 * i + 1), TimeMixingOut(i), VFirst(i)})
    requires {StateOut(3 * i), StateOut(3 * i + 1), TimeMixingOut(i), VFirst(i)} <= open1
    requires Keeps(open1, open2, {TimeMixingOut(i), StateIn(3 * i + 2)})
    requires Adds(defined1, defined2, i, {StateOut(3 * i + 2), ChannelMixingOut(i)})
    requires {StateOut(3 * i + 2), ChannelMixingOut(i)} <= open2
    ensures Standing(open2, defined2, layers, i + 1, ChannelMixingOut(i))
  {
    forall k | 0 <= k < 3 * (i + 1) ensures StateOut(k) in open2 {
      if k < 3 * i { assert StateOut(k) in open1; }
    }
    forall k | 3 * (i + 1) <= k < 3 * layers ensures StateIn(k) in open2 {
      assert StateIn(k) in open1;
    }
  }

  lemma NextLayer(defined: set<Blob<Name>>, i: nat)
    requires Reached(defined, i, 38)
    ensures Reached(defined, i + 1, 0)
  {
  }

  /** What layer `i` is fed with. */
  function InputOf(i: nat): Blob<Name> { if i == 0 then Emb else ChannelMixingOut(i - 1) }

  /** The first `n` layers compute attention and feed-forward modules, each on the output of the one before. */
  ghost predicate LayersAre(v: Evaluation<Name>, jellyfish: bool, n: nat) {
    forall i: nat :: i < n ==> AttIs(v, InputOf(i), i, jellyfish) && FfnIs(v, TimeMixingOut(i), i)
  }

  /** What a session feeds in for layer `k` and those above, and what it reads back. */
  ghost function StatesBefore(v: Evaluation<Name>, layers: nat, k: nat): seq<Rwkv7.Carried>
    decreases layers - k
  {
    if k >= layers then []
    else
      [Rwkv7.Carried(v.values(StateIn(3 * k)), v.values(StateIn(3 * k + 1)), v.values(StateIn(3 * k + 2)))]
        + StatesBefore(v, layers, k + 1)
  }

  ghost function StatesAfter(v: Evaluation<Name>, layers: nat, k: nat): seq<Rwkv7.Carried>
    decreases layers - k
  {
    if k >= layers then []
    else
      [Rwkv7.Carried(v.values(StateOut(3 * k)), v.values(StateOut(3 * k + 1)), v.values(StateOut(3 * k + 2)))]
        + StatesAfter(v, layers, k + 1)
  }

  /** One run of the graph is the model on one token: from the embedding and the states put in to the states read back
      and the logits. */
  ghost predicate Computes(v: Evaluation<Name>, jellyfish: bool, layers: nat) {
    var g := v.engine;
    var (x, states) := Rwkv7.Model(g, jellyfish, layers, g.Embedded(v.values(Token)), StatesBefore(v, layers, 0));
    states == StatesAfter(v, layers, 0) && v.values(Logits) == g.Headed(x)
  }

  /** Layer by layer through the graph, from layer `k` on. */
  lemma {:induction false} StackIs(v: Evaluation<Name>, jellyfish: bool, layers: nat, k: nat)
    requires LayersAre(v, jellyfish, layers) && k <= layers
    ensures Rwkv7.Through(v.engine, jellyfish, k, layers, v.values(InputOf(k)), FirstBefore(v, k),
                          StatesBefore(v, layers, k)) ==
      (v.values(InputOf(layers)), StatesAfter(v, layers, k))
    decreases layers - k
  {
    hide Rwkv7.Attention, Rwkv7.FeedForward;
    if k < layers {
      StackIs(v, jellyfish, layers, k + 1);
      assert StatesBefore(v, layers, k)[1..] == StatesBefore(v, layers, k + 1);
    }
  }

  /** converter/convert_rwkv_to_ncnn.py:25-45 for version 7; the script leaves `jellyfish_modified` at its
      default, false. */
  method Convert(layers: nat, jellyfish: bool, dtype: DType, numel: Numel)
    returns (header: (nat, nat), lines: seq<Line<Name>>, bin: seq<Segment>)
    ensures Sound(header, lines, bin, dtype, numel) && Answers(Open(lines), layers)
    ensures forall v :: Solves(lines, v) ==> Computes(v, jellyfish, layers)
  {
    hide Layered, Emitter.Valid, Sound, Answers, Solves, AttIs, FfnIs, Computes;
    var e := new Emitter<Name>(dtype, numel);
    e.BuildInfo();
    e.BuildInputs(layers);
    var input: Blob<Name> := Emb;
    Begin(e, layers);
    for i := 0 to layers
      invariant Layered(e, layers, i, input) && input == InputOf(i)
      invariant forall v :: Solves(e.lines, v) ==> LayersAre(v, jellyfish, i) && Embeds(v)
    {
      Layer(e, layers, i, input, jellyfish);
      input := ChannelMixingOut(i);
    }
    End(e, layers, input);
    e.BuildOutputHead(input);
    e.Finished(layers);
    header, lines, bin := (e.layerCount, e.blobCount), e.lines, e.bin;
    forall v | Solves(lines, v) ensures Computes(v, jellyfish, layers) {
      GraphComputes(v, jellyfish, layers);
    }
  }

  ghost predicate Embeds(v: Evaluation<Name>) { v.values(Emb) == v.engine.Embedded(v.values(Token)) }

  lemma GraphComputes(v: Evaluation<Name>, jellyfish: bool, layers: nat)
    requires LayersAre(v, jellyfish, layers) && Embeds(v)
    requires v.values(Logits) == v.engine.Headed(v.values(InputOf(layers)))
    ensures Computes(v, jellyfish, layers)
  {
    hide LayersAre, StatesBefore, StatesAfter, Rwkv7.Through;
    StackIs(v, jellyfish, layers, 0);
    Rwkv7.FirstIsOwn(v.engine, jellyfish, layers, v.values(Emb), FirstBefore(v, 0), StatesBefore(v, layers, 0));
  }

  lemma Begin(e: Emitter<Name>, layers: nat)
    requires e.Valid() && Emb in e.open && forall k :: 0 <= k < 3 * layers ==> StateIn(k) in e.open
    requires forall b :: b in e.defined ==> b in {ModelInfo, Token, Emb} || b.StateIn?
    ensures Layered(e, layers, 0, Emb)
  {
  }

  lemma End(e: Emitter<Name>, layers: nat, input: Blob<Name>)
    requires Layered(e, layers, layers, input)
    ensures e.Valid() && input in e.open && !input.StateOut? && {NormHead, Logits} !! e.defined
    ensures forall k :: 0 <= k < 3 * layers ==> StateOut(k) in e.open
  {
  }
}
