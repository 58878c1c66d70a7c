/** The names the blobs are printed under: a stem, a number in decimal, a tail.  Different blobs get different names. */
module NcnnNames {
  import opened NcnnEmitter

  const DIGITS := "0123456789"

  function Decimal(n: nat): (s: string)
    ensures s != [] && forall i :: 0 <= i < |s| ==> s[i] in DIGITS
  {
    if n < 10 then [DIGITS[n]] else Decimal(n / 10) + [DIGITS[n % 10]]
  }

  lemma {:induction false} DecimalOnce(n: nat, m: nat)
    requires Decimal(n) == Decimal(m)
    ensures n == m
    decreases n
  {
    DigitsDiffer(n % 10, m % 10);
    var s, t := Decimal(n), Decimal(m);
    assert s[|s| - 1] == DIGITS[n % 10] && t[|t| - 1] == DIGITS[m % 10];
    if n < 10 || m < 10 {
      Short(n);
      Short(m);
    } else {
      assert s[..|s| - 1] == Decimal(n / 10) && t[..|t| - 1] == Decimal(m / 10);
      DecimalOnce(n / 10, m / 10);
    }
  }

  lemma Short(n: nat)
    ensures |Decimal(n)| == 1 <==> n < 10
  {
  }

  lemma DigitsDiffer(a: nat, b: nat)
    requires a < 10 && b < 10
    ensures DIGITS[a] == DIGITS[b] ==> a == b
  {
  }

  /** No digit follows the number. */
  predicate Ends(tail: string) { tail == [] || tail[0] !in DIGITS }

  lemma DigitAfter(s: string, u: string, t: string, v: string)
    requires s + u == t + v && |s| < |t| && forall i :: 0 <= i < |t| ==> t[i] in DIGITS
    ensures !Ends(u)
  {
    assert (s + u)[|s|] == u[0] && (t + v)[|s|] == t[|s|];
  }

  /** A number is read back from the name, however it goes on. */
  lemma NumberOnce(n: nat, u: string, m: nat, v: string)
    requires Decimal(n) + u == Decimal(m) + v && Ends(u) && Ends(v)
    ensures n == m && u == v
  {
    var s, t, whole := Decimal(n), Decimal(m), Decimal(n) + u;
    if |s| < |t| {
      DigitAfter(s, u, t, v);
    } else if |t| < |s| {
      DigitAfter(t, v, s, u);
    } else {
      assert s == whole[..|s|] == t;
      assert u == whole[|s|..] == v;
      DecimalOnce(n, m);
    }
  }

  /** The name of a blob; `block` and `text` say what is printed for a blob of a layer. */
  function Printed<N>(b: Blob<N>, block: N -> string, text: N -> string): string {
    match b
    case ModelInfo => "model_info"
    case Token => "token"
    case Emb => "emb"
    case NormHead => "norm_head"
    case Logits => "logits"
    case _ => Stem(b, block) + (Decimal(Number(b)) + Tail(b, text))
  }

  function Stem<N>(b: Blob<N>, block: N -> string): string {
    match b
    case StateIn(_) => "state_"
    case StateOut(_) => "state_"
    case TimeMixingOut(_) => "time_mixing_"
    case ChannelMixingOut(_) => "channel_mixing_"
    case VFirst(_) => "v_first_"
    case In(_, name) => block(name)
    case _ => ""
  }

  function Number<N>(b: Blob<N>): nat {
    match b
    case StateIn(n) => n
    case StateOut(n) => n
    case TimeMixingOut(layer) => layer
    case ChannelMixingOut(layer) => layer
    case VFirst(layer) => layer
    case In(layer, _) => layer
    case _ => 0
  }

  function Tail<N>(b: Blob<N>, text: N -> string): string {
    match b
    case StateIn(_) => "_in"
    case StateOut(_) => "_out"
    case TimeMixingOut(_) => "_out"
    case ChannelMixingOut(_) => "_out"
    case In(_, name) => "_" + text(name)
    case _ => ""
  }

  /** Which of the stems a name begins with shows in its first two letters. */
  function Kind<N>(b: Blob<N>, ffn: bool): string {
    match b
    case ModelInfo => "mo"
    case Token => "to"
    case Emb => "em"
    case NormHead => "no"
    case Logits => "lo"
    case StateIn(_) => "st"
    case StateOut(_) => "st"
    case TimeMixingOut(_) => "ti"
    case ChannelMixingOut(_) => "ch"
    case VFirst(_) => "v_"
    case In(_, _) => if ffn then "ff" else "at"
  }

  predicate IsBlock(s: string) { s == "att_" || s == "ffn_" }

  lemma Begins<N>(b: Blob<N>, block: N -> string, text: N -> string)
    requires b.In? ==> IsBlock(block(b.name))
    ensures |Printed(b, block, text)| >= 2
    ensures Printed(b, block, text)[..2] == Kind(b, b.In? && block(b.name) == "ffn_")
  {
    var s := Printed(b, block, text);
    assert s[..2] == [s[0], s[1]];
  }

  lemma TailEnds<N>(b: Blob<N>, text: N -> string)
    ensures Ends(Tail(b, text))
  {
  }

  /** Different blobs are printed differently, if blobs of a layer that differ differ in block or text. */
  lemma PrintedOnce<N>(a: Blob<N>, b: Blob<N>, block: N -> string, text: N -> string)
    requires a.In? ==> IsBlock(block(a.name))
    requires b.In? ==> IsBlock(block(b.name))
    requires a.In? && b.In? && block(a.name) == block(b.name) && text(a.name) == text(b.name) ==> a.name == b.name
    requires Printed(a, block, text) == Printed(b, block, text)
    ensures a == b
  {
    Begins(a, block, text);
    Begins(b, block, text);
    hide Printed, Decimal;
    KindsApart(a, b, a.In? && block(a.name) == "ffn_", b.In? && block(b.name) == "ffn_");
    if Numbered(a) {
      AfterStem(a, b, block, text);
      TailEnds(a, text);
      TailEnds(b, text);
      NumberOnce(Number(a), Tail(a, text), Number(b), Tail(b, text));
      if a.In? { assert text(a.name) == Tail(a, text)[1..] == Tail(b, text)[1..] == text(b.name); }
    }
  }

  predicate Numbered<N>(b: Blob<N>) { !(b.ModelInfo? || b.Token? || b.Emb? || b.NormHead? || b.Logits?) }

  lemma KindsApart<N>(a: Blob<N>, b: Blob<N>, ffnA: bool, ffnB: bool)
    requires Kind(a, ffnA) == Kind(b, ffnB)
    ensures (a.In? <==> b.In?) && (a.In? ==> ffnA == ffnB)
    ensures Numbered(a) <==> Numbered(b)
    ensures !Numbered(a) ==> a == b
    ensures a.TimeMixingOut? == b.TimeMixingOut? && a.ChannelMixingOut? == b.ChannelMixingOut? && a.VFirst? == b.VFirst?
  {
    var s, t := Kind(a, ffnA), Kind(b, ffnB);
    assert s[0] == t[0] && s[1] == t[1];
  }

  lemma AfterStem<N>(a: Blob<N>, b: Blob<N>, block: N -> string, text: N -> string)
    requires Numbered(a) && Numbered(b) && Stem(a, block) == Stem(b, block)
    requires Printed(a, block, text) == Printed(b, block, text)
    ensures Decimal(Number(a)) + Tail(a, text) == Decimal(Number(b)) + Tail(b, text)
  {
    var n := |Stem(a, block)|;
    assert Printed(a, block, text)[n..] == Decimal(Number(a)) + Tail(a, text);
    assert Printed(b, block, text)[n..] == Decimal(Number(b)) + Tail(b, text);
  }

  /** Five features of a text that tell the texts of a block apart: length, first two letters, the last and the ninth
      from the end. */
  function Digest(s: string): int {
    (((|s| * 128 + At(s, 0)) * 128 + At(s, 1)) * 128 + At(s, |s| - 1)) * 128 + At(s, |s| - 9)
  }

  function At(s: string, k: int): int { if 0 <= k < |s| then s[k] as int else 0 }
}

/** The texts of RWKV v6 (converter/ncnn_model_utils.py:322-412). */
module NcnnNamesV6 {
  import opened NcnnEmitter
  import opened NcnnNames
  import opened NcnnV6

  function KeepText(n: KeepName): string {
    match n
    case XLast => "x_last" case X => "x" case XX => "xx" case XX0 => "xx_0" case XX1 => "xx_1" case XX2 => "xx_2"
  }

  function ShiftText(n: ShiftName): string {
    match n
    case Sx => "sx" case Sx0 => "sx_0" case Sx1 => "sx_1"
  }

  function LoraText(n: LoraName): string {
    match n
    case MaaX => "maa_x" case MaaXX => "maa_xx" case XXX => "xxx" case MaaXLora => "maa_x_lora"
  }

  function SlicesText(n: SlicesName): string {
    match n
    case MaaXLoraTanh => "maa_x_lora_tanh" case MaaXLoraTanhReshape => "maa_x_lora_tanh_reshape"
    case MaaW2 => "maa_w2" case MaaXPostLora => "maa_x_post_lora"
  }

  function MixText(n: MixName): string {
    match n
    case Maa => "maa" case MaaPre => "maa_wkvrg_pre" case MaaPreSqueezed => "maa_wkvrg_pre_squeezed"
    case MaaSx => "maa_wkvrg_sx" case MaaWkvrg => "maa_wkvrg"
  }

  function FiveText(n: FiveName): string {
    match n
    case Mw => "mw" case Mk => "mk" case Mv => "mv" case Mr => "mr" case Mg => "mg"
  }

  function DecayText(n: DecayName): string {
    match n
    case MwLora => "mw_lora" case MwLoraTanh => "mw_lora_tanh" case MwLoraTanhLinear => "mw_lora_tanh_linear"
  }

  function DecayRateText(n: DecayRateName): string {
    match n
    case Td => "td" case TimeDecayPre => "time_decay_pre" case TimeDecayExp0 => "time_decay_exp0"
    case TimeDecay => "time_decay"
  }

  function ProjectText(n: ProjectName): string {
    match n
    case Key => "key" case Value => "value" case Receptance => "receptance" case Gate => "gate"
  }

  function GatingText(n: GatingName): string {
    match n
    case Gate0 => "gate_0" case Gate1 => "gate_1" case GateSigmoid => "gate_sigmoid" case GateSilu => "gate_silu"
    case TimeFirst => "time_first"
  }

  function HeadsText(n: HeadsName): string {
    match n
    case KeyReshape => "key_reshape" case ValueReshape => "value_reshape"
    case ReceptanceReshape => "receptance_reshape" case TimeDecayReshape => "time_decay_reshape" case Kv => "kv"
  }

  function ForkText(n: ForkName): string {
    match n
    case Kv0 => "kv_0" case Kv1 => "kv_1" case WkvState0 => "wkv_state_0" case WkvState1 => "wkv_state_1"
  }

  function WkvText(n: WkvName): string {
    match n
    case KvTimeFirst => "kv_time_first" case KvTfState => "kv_tf_state" case WkvOut => "wkv_out"
  }

  function NextText(n: NextName): string {
    match n
    case StateTd => "state_td" case WkvOutFlatten => "wkv_out_flatten"
  }

  function FinishText(n: FinishName): string {
    match n
    case XGn => "x_gn" case XGate => "x_gate" case XOut => "x_out"
  }

  function FfnKeepText(n: FfnKeepName): string {
    match n
    case FXLast => "x_last" case FX => "x" case FXX => "xx" case FXX0 => "xx_0" case FXX1 => "xx_1"
    case FXX2 => "xx_2"
  }

  function FfnShiftText(n: FfnShiftName): string {
    match n
    case FSx => "sx" case FSx0 => "sx_0" case FSx1 => "sx_1"
  }

  function FfnScaleText(n: FfnScaleName): string {
    match n
    case MaaK => "maa_k" case MaaR => "maa_r" case Xk => "xk" case Xr => "xr"
  }

  function FfnMixText(n: FfnMixName): string {
    match n
    case XXk => "xxk" case XXr => "xxr"
  }

  function FfnProjectText(n: FfnProjectName): string {
    match n
    case FKey => "key" case FReceptance => "receptance"
  }

  function FfnActivateText(n: FfnActivateName): string {
    match n
    case FReceptanceSigmoid => "receptance_sigmoid" case KeyRelu => "key_relu" case KeyReluSquare => "key_relu_square"
  }

  function FfnFinishText(n: FfnFinishName): string {
    match n
    case FValue => "value" case Rv => "rv"
  }

  function Text(name: Name): string {
    match name
    case Keep(n) => KeepText(n) case Shift(n) => ShiftText(n) case Lora(n) => LoraText(n)
    case Slices(n) => SlicesText(n) case Mix(n) => MixText(n) case Five(n) => FiveText(n)
    case Decay(n) => DecayText(n) case DecayRate(n) => DecayRateText(n) case Project(n) => ProjectText(n)
    case Gating(n) => GatingText(n) case Heads(n) => HeadsText(n) case Fork(n) => ForkText(n)
    case Wkv(n) => WkvText(n) case Next(n) => NextText(n) case Finish(n) => FinishText(n)
    case FfnKeep(n) => FfnKeepText(n) case FfnShift(n) => FfnShiftText(n) case FfnScale(n) => FfnScaleText(n)
    case FfnMix(n) => FfnMixText(n) case FfnProject(n) => FfnProjectText(n) case FfnActivate(n) => FfnActivateText(n)
    case FfnFinish(n) => FfnFinishText(n)
  }

  predicate IsFfn(name: Name) {
    || name.FfnKeep? || name.FfnShift? || name.FfnScale? || name.FfnMix?
    || name.FfnProject? || name.FfnActivate? || name.FfnFinish?
  }

  function Block(name: Name): string { if IsFfn(name) then "ffn_" else "att_" }

  /** The name with a digest, in the attention block. */
  function AttName(d: int): Name {
    match d
    case 1863842304 => Keep(XLast) case 520109056 => Keep(X) case 790510592 => Keep(XX) case 1327372288 => Keep(XX0)
    case 1327372416 => Keep(XX1) case 1327372544 => Keep(XX2) case 780024832 => Shift(Sx)
    case 1316886528 => Shift(Sx0) case 1316886656 => Shift(Sx1) case 1572371456 => Lora(MaaX)
    case 1840806912 => Lora(MaaXX) case 1058946048 => Lora(XXX) case 2914545889 => Lora(MaaXLora)
    case 4256724076 => Slices(MaaXLoraTanh) case 6404207336 => Slices(MaaXLoraTanhReshape)
    case 1840797952 => Slices(MaaW2) case 4256723184 => Slices(MaaXPostLora) case 1035497600 => Mix(Maa)
    case 3719852791 => Mix(MaaPre) case 6135771743 => Mix(MaaPreSqueezed) case 3451419743 => Mix(MaaSx)
    case 2646111213 => Mix(MaaWkvrg) case 767425408 => Five(Mw) case 767227264 => Five(Mk) case 767408896 => Five(Mv)
    case 767342848 => Five(Mr) case 767161216 => Five(Mg) case 2109599872 => Decay(MwLora)
    case 3451778156 => Decay(MwLoraTanh) case 5330827630 => Decay(MwLoraTanhLinear) case 781791744 => DecayRate(Td)
    case 4003099364 => DecayRate(TimeDecayPre) case 4271528037 => DecayRate(TimeDecayExp0)
    case 2929360105 => DecayRate(TimeDecay) case 1031371904 => Project(Key) case 1591243392 => Project(Value)
    case 2925097701 => Project(Receptance) case 1291350656 => Project(Gate) case 1828214784 => Gating(Gate0)
    case 1828214912 => Gating(Gate1) case 3438834277 => Gating(GateSigmoid) case 2633530087 => Gating(GateSilu)
    case 2929359465 => Gating(TimeFirst) case 3178853113 => Heads(KeyReshape) case 3738727141 => Heads(ValueReshape)
    case 5072581349 => Heads(ReceptanceReshape) case 5076841209 => Heads(TimeDecayReshape) case 763214592 => Heads(Kv)
    case 1300076544 => Fork(Kv0) case 1300076672 => Fork(Kv1) case 3204110454 => Fork(WkvState0)
    case 3204110582 => Fork(WkvState1) case 3716004457 => Wkv(KvTimeFirst) case 3179131615 => Wkv(KvTfState)
    case 2130377216 => Wkv(WkvOut) case 2390569472 => Next(StateTd) case 4277860212 => Next(WkvOutFlatten)
    case 1326970624 => Finish(XGn) case 1863840384 => Finish(XGate) case 1595406848 => Finish(XOut)
    case _ => Keep(XLast)
  }

  /** The name with a digest, in the feed-forward block. */
  function FfnName(d: int): Name {
    match d
    case 1863842304 => FfnKeep(FXLast) case 520109056 => FfnKeep(FX) case 790510592 => FfnKeep(FXX)
    case 1327372288 => FfnKeep(FXX0) case 1327372416 => FfnKeep(FXX1) case 1327372544 => FfnKeep(FXX2)
    case 780024832 => FfnShift(FSx) case 1316886528 => FfnShift(FSx0) case 1316886656 => FfnShift(FSx1)
    case 1572369792 => FfnScale(MaaK) case 1572370688 => FfnScale(MaaR) case 790295936 => FfnScale(Xk)
    case 790411520 => FfnScale(Xr) case 1058944384 => FfnMix(XXk) case 1058945280 => FfnMix(XXr)
    case 1031371904 => FfnProject(FKey) case 2925097701 => FfnProject(FReceptance)
    case 5072581221 => FfnActivate(FReceptanceSigmoid) case 2373548672 => FfnActivate(KeyRelu)
    case 4252594924 => FfnActivate(KeyReluSquare) case 1591243392 => FfnFinish(FValue) case 777894656 => FfnFinish(Rv)
    case _ => FfnKeep(FXLast)
  }

  lemma KeepBack(n: KeepName)
    ensures AttName(Digest(KeepText(n))) == Keep(n)
  {
  }

  lemma ShiftBack(n: ShiftName)
    ensures AttName(Digest(ShiftText(n))) == Shift(n)
  {
  }

  lemma LoraBack(n: LoraName)
    ensures AttName(Digest(LoraText(n))) == Lora(n)
  {
  }

  lemma SlicesBack(n: SlicesName)
    ensures AttName(Digest(SlicesText(n))) == Slices(n)
  {
  }

  lemma MixBack(n: MixName)
    ensures AttName(Digest(MixText(n))) == Mix(n)
  {
  }

  lemma FiveBack(n: FiveName)
    ensures AttName(Digest(FiveText(n))) == Five(n)
  {
  }

  lemma DecayBack(n: DecayName)
    ensures AttName(Digest(DecayText(n))) == Decay(n)
  {
  }

  lemma DecayRateBack(n: DecayRateName)
    ensures AttName(Digest(DecayRateText(n))) == DecayRate(n)
  {
  }

  lemma ProjectBack(n: ProjectName)
    ensures AttName(Digest(ProjectText(n))) == Project(n)
  {
  }

  lemma GatingBack(n: GatingName)
    ensures AttName(Digest(GatingText(n))) == Gating(n)
  {
  }

  lemma HeadsBack(n: HeadsName)
    ensures AttName(Digest(HeadsText(n))) == Heads(n)
  {
  }

  lemma ForkBack(n: ForkName)
    ensures AttName(Digest(ForkText(n))) == Fork(n)
  {
  }

  lemma WkvBack(n: WkvName)
    ensures AttName(Digest(WkvText(n))) == Wkv(n)
  {
  }

  lemma NextBack(n: NextName)
    ensures AttName(Digest(NextText(n))) == Next(n)
  {
  }

  lemma FinishBack(n: FinishName)
    ensures AttName(Digest(FinishText(n))) == Finish(n)
  {
  }

  lemma FfnKeepBack(n: FfnKeepName)
    ensures FfnName(Digest(FfnKeepText(n))) == FfnKeep(n)
  {
  }

  lemma FfnShiftBack(n: FfnShiftName)
    ensures FfnName(Digest(FfnShiftText(n))) == FfnShift(n)
  {
  }

  lemma FfnScaleBack(n: FfnScaleName)
    ensures FfnName(Digest(FfnScaleText(n))) == FfnScale(n)
  {
  }

  lemma FfnMixBack(n: FfnMixName)
    ensures FfnName(Digest(FfnMixText(n))) == FfnMix(n)
  {
  }

  lemma FfnProjectBack(n: FfnProjectName)
    ensures FfnName(Digest(FfnProjectText(n))) == FfnProject(n)
  {
  }

  lemma FfnActivateBack(n: FfnActivateName)
    ensures FfnName(Digest(FfnActivateText(n))) == FfnActivate(n)
  {
  }

  lemma FfnFinishBack(n: FfnFinishName)
    ensures FfnName(Digest(FfnFinishText(n))) == FfnFinish(n)
  {
  }

  lemma NameBack0(name: Name)
    requires 0 <= Part(name) < 10
    ensures name == if IsFfn(name) then FfnName(Digest(Text(name))) else AttName(Digest(Text(name)))
  {
    hide FfnName, AttName, Digest;
    hide KeepText, ShiftText, LoraText, SlicesText, MixText;
    hide FiveText, DecayText, DecayRateText, ProjectText, GatingText;
    match name
    case Keep(n) => KeepBack(n); case Shift(n) => ShiftBack(n); case Lora(n) => LoraBack(n);
    case Slices(n) => SlicesBack(n); case Mix(n) => MixBack(n); case Five(n) => FiveBack(n);
    case Decay(n) => DecayBack(n); case DecayRate(n) => DecayRateBack(n); case Project(n) => ProjectBack(n);
    case Gating(n) => GatingBack(n);
    case _ =>
  }

  lemma NameBack1(name: Name)
    requires 10 <= Part(name) < 20
    ensures name == if IsFfn(name) then FfnName(Digest(Text(name))) else AttName(Digest(Text(name)))
  {
    hide FfnName, AttName, Digest;
    hide HeadsText, ForkText, WkvText, NextText, FinishText;
    hide FfnKeepText, FfnShiftText, FfnScaleText, FfnMixText, FfnProjectText;
    match name
    case Heads(n) => HeadsBack(n); case Fork(n) => ForkBack(n); case Wkv(n) => WkvBack(n);
    case Next(n) => NextBack(n); case Finish(n) => FinishBack(n); case FfnKeep(n) => FfnKeepBack(n);
    case FfnShift(n) => FfnShiftBack(n); case FfnScale(n) => FfnScaleBack(n); case FfnMix(n) => FfnMixBack(n);
    case FfnProject(n) => FfnProjectBack(n);
    case _ =>
  }

  lemma NameBack2(name: Name)
    requires 20 <= Part(name) < 22
    ensures name == if IsFfn(name) then FfnName(Digest(Text(name))) else AttName(Digest(Text(name)))
  {
    hide FfnName, AttName, Digest;
    hide FfnActivateText, FfnFinishText;
    match name
    case FfnActivate(n) => FfnActivateBack(n); case FfnFinish(n) => FfnFinishBack(n);
    case _ =>
  }

  lemma NameBack(name: Name)
    ensures name == if IsFfn(name) then FfnName(Digest(Text(name))) else AttName(Digest(Text(name)))
  {
    hide FfnName, AttName, Digest, Text, IsFfn;
    if Part(name) < 10 {
      NameBack0(name);
    } else if Part(name) < 20 {
      NameBack1(name);
    } else {
      NameBack2(name);
    }
  }

  function Print(b: Blob<Name>): string { Printed(b, Block, Text) }

  /** No two blobs of the graph have the same name. */
  lemma NamesDiffer(a: Blob<Name>, b: Blob<Name>)
    ensures Print(a) == Print(b) <==> a == b
  {
    hide Text, IsFfn, AttName, FfnName, Digest, Printed;
    if a.In? && b.In? && Block(a.name) == Block(b.name) && Text(a.name) == Text(b.name) {
      NameBack(a.name);
      NameBack(b.name);
      BlockOnce(a.name, b.name);
    }
    if Print(a) == Print(b) { PrintedOnce(a, b, Block, Text); }
  }

  lemma BlockOnce(a: Name, b: Name)
    requires Block(a) == Block(b)
    ensures IsFfn(a) == IsFfn(b)
  {
    hide IsFfn;
    assert "ffn_"[0] != "att_"[0];
  }

  function PrintAll(blobs: set<Blob<Name>>): set<string> { set b | b in blobs :: Print(b) }

  lemma {:induction false} AsManyNames(blobs: set<Blob<Name>>)
    ensures |PrintAll(blobs)| == |blobs|
    decreases blobs
  {
    hide Print;
    if b :| b in blobs {
      var rest := blobs - {b};
      AsManyNames(rest);
      if Print(b) in PrintAll(rest) {
        var c :| c in rest && Print(c) == Print(b);
        NamesDiffer(b, c);
      }
      assert PrintAll(blobs) == PrintAll(rest) + {Print(b)};
    }
  }

  /** The blob count in the header is the number of different names in the file. */
  lemma HeaderCountsNames(header: (nat, nat), lines: seq<Line<Name>>, bin: seq<Segment>, dtype: DType, numel: Numel)
    requires Sound(header, lines, bin, dtype, numel)
    ensures header.1 == |PrintAll(Defined(lines))|
  {
    AsManyNames(Defined(lines));
  }
}

/** The texts of RWKV v7 (converter/ncnn_model_utils.py:414-548). */
module NcnnNamesV7 {
  import opened NcnnEmitter
  import opened NcnnNames
  import opened NcnnV7

  function KeepText(n: KeepName): string {
    match n
    case XLast => "x_last" case X => "x" case XX => "xx" case XX0 => "xx_0" case XX1 => "xx_1"
  }

  function ShiftText(n: ShiftName): string {
    match n
    case Sx => "sx" case Maa => "maa" case MaaX => "maa_x" case MaaRwkvag => "maa_rwkvag"
  }

  function SixText(n: SixName): string {
    match n
    case Mr => "mr" case Mw => "mw" case Mk => "mk" case Mv => "mv" case Ma => "ma" case Mg => "mg" case Mv0 => "mv_0"
    case Mv1 => "mv_1"
  }

  function ProjectText(n: ProjectName): string {
    match n
    case Key => "key" case Value => "value" case Receptance => "receptance"
  }

  function RateText(n: RateName): string {
    match n
    case MaLora0 => "ma_lora_0" case MaLora1 => "ma_lora_1" case AData => "a0" case MaLora2 => "ma_lora_2"
  }

  function RateSigmoidText(n: RateSigmoidName): string {
    match n
    case ATmp => "a_tmp" case A => "a" case A0 => "a_0" case A1 => "a_1"
  }

  function GatingText(n: GatingName): string {
    match n
    case MgLora => "mg_lora" case MgLoraSigmoid => "mg_lora_sigmoid" case Gate => "gate"
  }

  function KeyDataText(n: KeyDataName): string {
    match n
    case KK => "k_k" case KA => "k_a" case RK => "r_k"
  }

  function KeyForkText(n: KeyForkName): string {
    match n
    case Key0 => "key_0" case Key1 => "key_1" case KeyK => "key_k"
  }

  function KeyNormText(n: KeyNormName): string {
    match n
    case KeyKReshape => "key_k_reshape" case KeyKNorm => "key_k_norm" case KeyKNormReshape => "key_k_norm_reshape"
  }

  function KeyRateText(n: KeyRateName): string {
    match n
    case A0Minus => "a_0_minus" case AMinus1MulKa => "a_minus1_mulka" case AMinus1MulKaPlus1 => "a_minus1_mulka_plus1"
    case KeyA => "key_a"
  }

  function ValueForkText(n: ValueForkName): string {
    match n
    case Value0 => "value_0" case Value1 => "value_1" case VFirstHere => "v_first"
    case VFirstMinusValue => "vfirst_minus_value"
  }

  function ValueMixText(n: ValueMixName): string {
    match n
    case MvLora0 => "mv_lora_0" case MvLora1 => "mv_lora_1"
  }

  function ValueLaterText(n: ValueLaterName): string {
    match n
    case VData => "v0" case MvLora2 => "mv_lora_2" case MvLoraSigmoid => "mv_lora_sigmoid"
  }

  function ValueEndText(n: ValueEndName): string {
    match n
    case VFirstMinusValueMul => "vfirst_minus_value_mul" case ValueFinal => "value_final"
  }

  function DecayText(n: DecayName): string {
    match n
    case MwLora => "mw_lora" case MwLoraTanh => "mw_lora_tanh" case MwLoraTanhLinear => "mw_lora_tanh_linear"
  }

  function DecayAddText(n: DecayAddName): string {
    match n
    case Td => "td" case TimeDecayPre => "time_decay_pre"
  }

  function DecayRateText(n: DecayRateName): string {
    match n
    case TimeDecaySigmoid => "time_decay_sigmoid" case TimeDecay => "time_decay"
  }

  function DecayShapeText(n: DecayShapeName): string {
    match n
    case TimeDecay0 => "time_decay_0" case TimeDecay1 => "time_decay_1" case TimeDecayReshape => "time_decay_reshape"
  }

  function HeadsText(n: HeadsName): string {
    match n
    case KeyA0 => "key_a_0" case KeyA1 => "key_a_1" case KeyAReshape => "key_a_reshape"
  }

  function ValueHeadsText(n: ValueHeadsName): string {
    match n
    case ValueFinal0 => "value_final_0" case ValueFinal1 => "value_final_1" case ValueFinal2 => "value_final_2"
  }

  function ValueKeyText(n: ValueKeyName): string {
    match n
    case ValueFinal0Reshape => "value_final_0_reshape" case ValueFinal1Reshape => "value_final_1_reshape"
    case Vk => "vk"
  }

  function RemovalText(n: RemovalName): string {
    match n
    case Kk0 => "kk_0" case Kk1 => "kk_1" case Kk0Neg => "kk_0_neg" case Kk0NegReshape => "kk_0_neg_reshape"
  }

  function RemovalRateText(n: RemovalRateName): string {
    match n
    case AExtended => "a_extended" case KkA => "kk_a"
  }

  function RemovedText(n: RemovedName): string {
    match n
    case KkAReshape => "kk_a_reshape" case Ab => "ab"
  }

  function StateForkText(n: StateForkName): string {
    match n
    case StatePrev0 => "state_prev_0" case StatePrev1 => "state_prev_1" case StateTd => "state_td"
  }

  function StateText(n: StateName): string {
    match n
    case Sab => "sab" case SabVk => "sab_vk" case StateNew => "state_new"
  }

  function ReadForkText(n: ReadForkName): string {
    match n
    case StateNew0 => "state_new_0" case Receptance0 => "receptance_0" case Receptance1 => "receptance_1"
  }

  function ReadText(n: ReadName): string {
    match n
    case ReceptanceReshape => "receptance_reshape" case WkvOut => "wkv_out" case WkvOutFlatten => "wkv_out_flatten"
  }

  function BonusText(n: BonusName): string {
    match n
    case XGn => "x_gn" case ReceptanceKeyA => "receptance_key_a" case Rk => "rk"
  }

  function BonusSumText(n: BonusSumName): string {
    match n
    case RkReshape => "rk_reshape" case RkSum => "rk_sum"
  }

  function BonusAddText(n: BonusAddName): string {
    match n
    case ValueFinal0Rk => "value_final_0_rk" case ValueFinal0RkReshape => "value_final_0_rk_reshape"
    case XGnRkv => "x_gn_rkv"
  }

  function FinishText(n: FinishName): string {
    match n
    case XGate => "x_gate" case XOut => "x_out"
  }

  function FfnKeepText(n: FfnKeepName): string {
    match n
    case FXLast => "x_last" case FX => "x" case FXX => "xx" case FXX0 => "xx_0" case FXX1 => "xx_1"
  }

  function FfnShiftText(n: FfnShiftName): string {
    match n
    case FSx => "sx" case FSx0 => "sx_0"
  }

  function FfnMixText(n: FfnMixName): string {
    match n
    case XkData => "x_k" case Xk => "xk" case XXk => "xxk"
  }

  function FfnKeyText(n: FfnKeyName): string {
    match n
    case FKey => "key" case KeyRelu => "key_relu" case KeyReluSquare => "key_relu_square"
  }

  function FfnFinishText(n: FfnFinishName): string {
    match n
    case FValue => "value"
  }

  function Text(name: Name): string {
    match name
    case Keep(n) => KeepText(n) case Shift(n) => ShiftText(n) case Six(n) => SixText(n)
    case Project(n) => ProjectText(n) case Rate(n) => RateText(n) case RateSigmoid(n) => RateSigmoidText(n)
    case Gating(n) => GatingText(n) case KeyData(n) => KeyDataText(n) case KeyFork(n) => KeyForkText(n)
    case KeyNorm(n) => KeyNormText(n) case KeyRate(n) => KeyRateText(n) case ValueFork(n) => ValueForkText(n)
    case ValueMix(n) => ValueMixText(n) case ValueLater(n) => ValueLaterText(n) case ValueEnd(n) => ValueEndText(n)
    case Decay(n) => DecayText(n) case DecayAdd(n) => DecayAddText(n) case DecayRate(n) => DecayRateText(n)
    case DecayShape(n) => DecayShapeText(n) case Heads(n) => HeadsText(n) case ValueHeads(n) => ValueHeadsText(n)
    case ValueKey(n) => ValueKeyText(n) case Removal(n) => RemovalText(n) case RemovalRate(n) => RemovalRateText(n)
    case Removed(n) => RemovedText(n) case StateFork(n) => StateForkText(n) case State(n) => StateText(n)
    case ReadFork(n) => ReadForkText(n) case Read(n) => ReadText(n) case Bonus(n) => BonusText(n)
    case BonusSum(n) => BonusSumText(n) case BonusAdd(n) => BonusAddText(n) case Finish(n) => FinishText(n)
    case FfnKeep(n) => FfnKeepText(n) case FfnShift(n) => FfnShiftText(n) case FfnMix(n) => FfnMixText(n)
    case FfnKey(n) => FfnKeyText(n) case FfnFinish(n) => FfnFinishText(n)
  }

  predicate IsFfn(name: Name) {
    || name.FfnKeep? || name.FfnShift? || name.FfnMix? || name.FfnKey?
    || name.FfnFinish?
  }

  function Block(name: Name): string { if IsFfn(name) then "ffn_" else "att_" }

  /** The name with a digest, in the attention block. */
  function AttName(d: int): Name {
    match d
    case 1863842304 => Keep(XLast) case 520109056 => Keep(X) case 790510592 => Keep(XX) case 1327372288 => Keep(XX0)
    case 1327372416 => Keep(XX1) case 780024832 => Shift(Sx) case 1035497600 => Shift(Maa)
    case 1572371456 => Shift(MaaX) case 2914546657 => Shift(MaaRwkvag) case 767342848 => Six(Mr)
    case 767425408 => Six(Mw) case 767227264 => Six(Mk) case 767408896 => Six(Mv) case 767062144 => Six(Ma)
    case 767161216 => Six(Mg) case 1304270848 => Six(Mv0) case 1304270976 => Six(Mv1) case 1031371904 => Project(Key)
    case 1591243392 => Project(Value) case 2925097701 => Project(Receptance) case 2646104173 => Rate(MaLora0)
    case 2646104301 => Rate(MaLora1) case 741087232 => Rate(AData) case 2646104429 => Rate(MaLora2)
    case 1547171840 => RateSigmoid(ATmp) case 471871616 => RateSigmoid(A) case 1010292736 => RateSigmoid(A0)
    case 1010292864 => RateSigmoid(A1) case 2109337728 => Gating(MgLora) case 4256821857 => Gating(MgLoraSigmoid)
    case 1291350656 => Gating(Gate) case 1031271808 => KeyData(KK) case 1031270528 => KeyData(KA)
    case 1045951872 => KeyData(RK) case 1568233472 => KeyFork(Key0) case 1568233600 => KeyFork(Key1)
    case 1568241024 => KeyFork(KeyK) case 3715724011 => KeyNorm(KeyKReshape) case 2910418661 => KeyNorm(KeyKNorm)
    case 5057901293 => KeyNorm(KeyKNormReshape) case 2620914145 => KeyRate(A0Minus)
    case 3963089141 => KeyRate(AMinus1MulKa) case 5573695724 => KeyRate(AMinus1MulKaPlus1)
    case 1568239744 => KeyRate(KeyA) case 2128107520 => ValueFork(Value0) case 2128107648 => ValueFork(Value1)
    case 2128083456 => ValueFork(VFirstHere) case 5080986350 => ValueFork(VFirstMinusValue)
    case 2646448237 => ValueMix(MvLora0) case 2646448365 => ValueMix(MvLora1) case 785127424 => ValueLater(VData)
    case 2646448493 => ValueLater(MvLora2) case 4257067617 => ValueLater(MvLoraSigmoid)
    case 6154729078 => ValueEnd(VFirstMinusValueMul) case 3201857132 => ValueEnd(ValueFinal)
    case 2109599872 => Decay(MwLora) case 3451778156 => Decay(MwLoraTanh) case 5330827630 => Decay(MwLoraTanhLinear)
    case 781791744 => DecayAdd(Td) case 4003099364 => DecayAdd(TimeDecayPre)
    case 5076841081 => DecayRate(TimeDecaySigmoid) case 2929360105 => DecayRate(TimeDecay)
    case 3466221669 => DecayShape(TimeDecay0) case 3466221797 => DecayShape(TimeDecay1)
    case 5076841209 => DecayShape(TimeDecayReshape) case 2105104384 => Heads(KeyA0) case 2105104512 => Heads(KeyA1)
    case 3715724001 => Heads(KeyAReshape) case 3738720357 => ValueHeads(ValueFinal0)
    case 3738720485 => ValueHeads(ValueFinal1) case 3738720613 => ValueHeads(ValueFinal2)
    case 5886210736 => ValueKey(ValueFinal0Reshape) case 5886210737 => ValueKey(ValueFinal1Reshape)
    case 786101632 => ValueKey(Vk) case 1299896320 => Removal(Kk0) case 1299896448 => Removal(Kk1)
    case 2373645184 => Removal(Kk0Neg) case 4521128679 => Removal(Kk0NegReshape)
    case 2889347679 => RemovalRate(AExtended) case 1299902592 => RemovalRate(KkA)
    case 3447386849 => Removed(KkAReshape) case 741912832 => Removed(Ab) case 3464304756 => StateFork(StatePrev0)
    case 3464304884 => StateFork(StatePrev1) case 2390569472 => StateFork(StateTd) case 1048080640 => State(Sab)
    case 1853388160 => State(SabVk) case 2659007475 => State(StateNew) case 3195869281 => ReadFork(StateNew0)
    case 3461961829 => ReadFork(Receptance0) case 3461961957 => ReadFork(Receptance1)
    case 5072581349 => Read(ReceptanceReshape) case 2130377216 => Read(WkvOut) case 4277860212 => Read(WkvOutFlatten)
    case 1326970624 => Bonus(XGn) case 4535709934 => Bonus(ReceptanceKeyA) case 777713024 => Bonus(Rk)
    case 2925196011 => BonusSum(RkReshape) case 1851455104 => BonusSum(RkSum)
    case 4544034281 => BonusAdd(ValueFinal0Rk) case 6691517163 => BonusAdd(ValueFinal0RkReshape)
    case 2400713472 => BonusAdd(XGnRkv) case 1863840384 => Finish(XGate) case 1595406848 => Finish(XOut)
    case _ => Keep(XLast)
  }

  /** The name with a digest, in the feed-forward block. */
  function FfnName(d: int): Name {
    match d
    case 1863842304 => FfnKeep(FXLast) case 520109056 => FfnKeep(FX) case 790510592 => FfnKeep(FXX)
    case 1327372288 => FfnKeep(FXX0) case 1327372416 => FfnKeep(FXX1) case 780024832 => FfnShift(FSx)
    case 1316886528 => FfnShift(FSx0) case 1058534784 => FfnMix(XkData) case 790295936 => FfnMix(Xk)
    case 1058944384 => FfnMix(XXk) case 1031371904 => FfnKey(FKey) case 2373548672 => FfnKey(KeyRelu)
    case 4252594924 => FfnKey(KeyReluSquare) case 1591243392 => FfnFinish(FValue)
    case _ => FfnKeep(FXLast)
  }

  lemma KeepBack(n: KeepName)
    ensures AttName(Digest(KeepText(n))) == Keep(n)
  {
  }

  lemma ShiftBack(n: ShiftName)
    ensures AttName(Digest(ShiftText(n))) == Shift(n)
  {
  }

  lemma SixBack(n: SixName)
    ensures AttName(Digest(SixText(n))) == Six(n)
  {
  }

  lemma ProjectBack(n: ProjectName)
    ensures AttName(Digest(ProjectText(n))) == Project(n)
  {
  }

  lemma RateBack(n: RateName)
    ensures AttName(Digest(RateText(n))) == Rate(n)
  {
  }

  lemma RateSigmoidBack(n: RateSigmoidName)
    ensures AttName(Digest(RateSigmoidText(n))) == RateSigmoid(n)
  {
  }

  lemma GatingBack(n: GatingName)
    ensures AttName(Digest(GatingText(n))) == Gating(n)
  {
  }

  lemma KeyDataBack(n: KeyDataName)
    ensures AttName(Digest(KeyDataText(n))) == KeyData(n)
  {
  }

  lemma KeyForkBack(n: KeyForkName)
    ensures AttName(Digest(KeyForkText(n))) == KeyFork(n)
  {
  }

  lemma KeyNormBack(n: KeyNormName)
    ensures AttName(Digest(KeyNormText(n))) == KeyNorm(n)
  {
  }

  lemma KeyRateBack(n: KeyRateName)
    ensures AttName(Digest(KeyRateText(n))) == KeyRate(n)
  {
  }

  lemma ValueForkBack(n: ValueForkName)
    ensures AttName(Digest(ValueForkText(n))) == ValueFork(n)
  {
  }

  lemma ValueMixBack(n: ValueMixName)
    ensures AttName(Digest(ValueMixText(n))) == ValueMix(n)
  {
  }

  lemma ValueLaterBack(n: ValueLaterName)
    ensures AttName(Digest(ValueLaterText(n))) == ValueLater(n)
  {
  }

  lemma ValueEndBack(n: ValueEndName)
    ensures AttName(Digest(ValueEndText(n))) == ValueEnd(n)
  {
  }

  lemma DecayBack(n: DecayName)
    ensures AttName(Digest(DecayText(n))) == Decay(n)
  {
  }

  lemma DecayAddBack(n: DecayAddName)
    ensures AttName(Digest(DecayAddText(n))) == DecayAdd(n)
  {
  }

  lemma DecayRateBack(n: DecayRateName)
    ensures AttName(Digest(DecayRateText(n))) == DecayRate(n)
  {
  }

  lemma DecayShapeBack(n: DecayShapeName)
    ensures AttName(Digest(DecayShapeText(n))) == DecayShape(n)
  {
  }

  lemma HeadsBack(n: HeadsName)
    ensures AttName(Digest(HeadsText(n))) == Heads(n)
  {
  }

  lemma ValueHeadsBack(n: ValueHeadsName)
    ensures AttName(Digest(ValueHeadsText(n))) == ValueHeads(n)
  {
  }

  lemma ValueKeyBack(n: ValueKeyName)
    ensures AttName(Digest(ValueKeyText(n))) == ValueKey(n)
  {
  }

  lemma RemovalBack(n: RemovalName)
    ensures AttName(Digest(RemovalText(n))) == Removal(n)
  {
  }

  lemma RemovalRateBack(n: RemovalRateName)
    ensures AttName(Digest(RemovalRateText(n))) == RemovalRate(n)
  {
  }

  lemma RemovedBack(n: RemovedName)
    ensures AttName(Digest(RemovedText(n))) == Removed(n)
  {
  }

  lemma StateForkBack(n: StateForkName)
    ensures AttName(Digest(StateForkText(n))) == StateFork(n)
  {
  }

  lemma StateBack(n: StateName)
    ensures AttName(Digest(StateText(n))) == State(n)
  {
  }

  lemma ReadForkBack(n: ReadForkName)
    ensures AttName(Digest(ReadForkText(n))) == ReadFork(n)
  {
  }

  lemma ReadBack(n: ReadName)
    ensures AttName(Digest(ReadText(n))) == Read(n)
  {
  }

  lemma BonusBack(n: BonusName)
    ensures AttName(Digest(BonusText(n))) == Bonus(n)
  {
  }

  lemma BonusSumBack(n: BonusSumName)
    ensures AttName(Digest(BonusSumText(n))) == BonusSum(n)
  {
  }

  lemma BonusAddBack(n: BonusAddName)
    ensures AttName(Digest(BonusAddText(n))) == BonusAdd(n)
  {
  }

  lemma FinishBack(n: FinishName)
    ensures AttName(Digest(FinishText(n))) == Finish(n)
  {
  }

  lemma FfnKeepBack(n: FfnKeepName)
    ensures FfnName(Digest(FfnKeepText(n))) == FfnKeep(n)
  {
  }

  lemma FfnShiftBack(n: FfnShiftName)
    ensures FfnName(Digest(FfnShiftText(n))) == FfnShift(n)
  {
  }

  lemma FfnMixBack(n: FfnMixName)
    ensures FfnName(Digest(FfnMixText(n))) == FfnMix(n)
  {
  }

  lemma FfnKeyBack(n: FfnKeyName)
    ensures FfnName(Digest(FfnKeyText(n))) == FfnKey(n)
  {
  }

  lemma FfnFinishBack(n: FfnFinishName)
    ensures FfnName(Digest(FfnFinishText(n))) == FfnFinish(n)
  {
  }

  lemma NameBack0(name: Name)
    requires 0 <= Part(name) < 10
    ensures name == if IsFfn(name) then FfnName(Digest(Text(name))) else AttName(Digest(Text(name)))
  {
    hide FfnName, AttName, Digest;
    hide KeepText, ShiftText, SixText, ProjectText, RateText;
    hide RateSigmoidText, GatingText, KeyDataText, KeyForkText, KeyNormText;
    match name
    case Keep(n) => KeepBack(n); case Shift(n) => ShiftBack(n); case Six(n) => SixBack(n);
    case Project(n) => ProjectBack(n); case Rate(n) => RateBack(n); case RateSigmoid(n) => RateSigmoidBack(n);
    case Gating(n) => GatingBack(n); case KeyData(n) => KeyDataBack(n); case KeyFork(n) => KeyForkBack(n);
    case KeyNorm(n) => KeyNormBack(n);
    case _ =>
  }

  lemma NameBack1(name: Name)
    requires 10 <= Part(name) < 20
    ensures name == if IsFfn(name) then FfnName(Digest(Text(name))) else AttName(Digest(Text(name)))
  {
    hide FfnName, AttName, Digest;
    hide KeyRateText, ValueForkText, ValueMixText, ValueLaterText, ValueEndText;
    hide DecayText, DecayAddText, DecayRateText, DecayShapeText, HeadsText;
    match name
    case KeyRate(n) => KeyRateBack(n); case ValueFork(n) => ValueForkBack(n); case ValueMix(n) => ValueMixBack(n);
    case ValueLater(n) => ValueLaterBack(n); case ValueEnd(n) => ValueEndBack(n); case Decay(n) => DecayBack(n);
    case DecayAdd(n) => DecayAddBack(n); case DecayRate(n) => DecayRateBack(n);
    case DecayShape(n) => DecayShapeBack(n); case Heads(n) => HeadsBack(n);
    case _ =>
  }

  lemma NameBack2(name: Name)
    requires 20 <= Part(name) < 30
    ensures name == if IsFfn(name) then FfnName(Digest(Text(name))) else AttName(Digest(Text(name)))
  {
    hide FfnName, AttName, Digest;
    hide ValueHeadsText, ValueKeyText, RemovalText, RemovalRateText, RemovedText;
    hide StateForkText, StateText, ReadForkText, ReadText, BonusText;
    match name
    case ValueHeads(n) => ValueHeadsBack(n); case ValueKey(n) => ValueKeyBack(n); case Removal(n) => RemovalBack(n);
    case RemovalRate(n) => RemovalRateBack(n); case Removed(n) => RemovedBack(n);
    case StateFork(n) => StateForkBack(n); case State(n) => StateBack(n); case ReadFork(n) => ReadForkBack(n);
    case Read(n) => ReadBack(n); case Bonus(n) => BonusBack(n);
    case _ =>
  }

  lemma NameBack3(name: Name)
    requires 30 <= Part(name) < 38
    ensures name == if IsFfn(name) then FfnName(Digest(Text(name))) else AttName(Digest(Text(name)))
  {
    hide FfnName, AttName, Digest;
    hide BonusSumText, BonusAddText, FinishText, FfnKeepText, FfnShiftText;
    hide FfnMixText, FfnKeyText, FfnFinishText;
    match name
    case BonusSum(n) => BonusSumBack(n); case BonusAdd(n) => BonusAddBack(n); case Finish(n) => FinishBack(n);
    case FfnKeep(n) => FfnKeepBack(n); case FfnShift(n) => FfnShiftBack(n); case FfnMix(n) => FfnMixBack(n);
    case FfnKey(n) => FfnKeyBack(n); case FfnFinish(n) => FfnFinishBack(n);
    case _ =>
  }

  lemma NameBack(name: Name)
    ensures name == if IsFfn(name) then FfnName(Digest(Text(name))) else AttName(Digest(Text(name)))
  {
    hide FfnName, AttName, Digest, Text, IsFfn;
    if Part(name) < 10 {
      NameBack0(name);
    } else if Part(name) < 20 {
      NameBack1(name);
    } else if Part(name) < 30 {
      NameBack2(name);
    } else {
      NameBack3(name);
    }
  }

  function Print(b: Blob<Name>): string { Printed(b, Block, Text) }

  /** No two blobs of the graph have the same name. */
  lemma NamesDiffer(a: Blob<Name>, b: Blob<Name>)
    ensures Print(a) == Print(b) <==> a == b
  {
    hide Text, IsFfn, AttName, FfnName, Digest, Printed;
    if a.In? && b.In? && Block(a.name) == Block(b.name) && Text(a.name) == Text(b.name) {
      NameBack(a.name);
      NameBack(b.name);
      BlockOnce(a.name, b.name);
    }
    if Print(a) == Print(b) { PrintedOnce(a, b, Block, Text); }
  }

  lemma BlockOnce(a: Name, b: Name)
    requires Block(a) == Block(b)
    ensures IsFfn(a) == IsFfn(b)
  {
    hide IsFfn;
    assert "ffn_"[0] != "att_"[0];
  }

  function PrintAll(blobs: set<Blob<Name>>): set<string> { set b | b in blobs :: Print(b) }

  lemma {:induction false} AsManyNames(blobs: set<Blob<Name>>)
    ensures |PrintAll(blobs)| == |blobs|
    decreases blobs
  {
    hide Print;
    if b :| b in blobs {
      var rest := blobs - {b};
      AsManyNames(rest);
      if Print(b) in PrintAll(rest) {
        var c :| c in rest && Print(c) == Print(b);
        NamesDiffer(b, c);
      }
      assert PrintAll(blobs) == PrintAll(rest) + {Print(b)};
    }
  }

  /** The blob count in the header is the number of different names in the file. */
  lemma HeaderCountsNames(header: (nat, nat), lines: seq<Line<Name>>, bin: seq<Segment>, dtype: DType, numel: Numel)
    requires Sound(header, lines, bin, dtype, numel)
    ensures header.1 == |PrintAll(Defined(lines))|
  {
    AsManyNames(Defined(lines));
  }
}
