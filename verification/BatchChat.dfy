/** A whole batched chat: prefill through the cache, decode in shared slots, register the responses
    (src/runtime.cpp:908-1246). */
module BatchChat {
  import opened Options
  import opened Recurrence
  import opened StateCache
  import opened Vocabulary
  import opened Chunking
  import opened CacheTree
  import opened CacheRefinement
  import opened BatchRegistration
  import opened Dialogue
  import opened SessionValue
  import opened Session
  import opened BatchDecode

  /** What decides a batched chat beside the states it starts from.  `rules` are the model and the sampler; `first` is
      the token drawn for each sequence after its prefill, `pseudo` whether its prompt closes a thought already. */
  datatype Plan<!S, !L, !O> = Plan(rules: World<S, L, O>, sizes: seq<nat>, first: nat -> int, pseudo: nat -> bool,
                                   maxLength: nat, stopSignal: nat -> bool)
  {
    function From(states: seq<S>): (w: World<S, L, O>)
      ensures w.step == rules.step && w.thinking == rules.thinking && |w.starts| == |states|
      ensures forall o :: 0 <= o < |states| ==> w.starts[o] == Start(states[o], first(o), pseudo(o))
    {
      rules.(starts := seq(|states|, o requires 0 <= o < |states| => Start(states[o], first(o), pseudo(o))))
    }

    /** What the decoding leaves for sequence `o`: what it has said alone, the state saved by the slots and sizes, and
        the state it holds alone. */
    function Leaves(states: seq<S>, o: nat, own: S): Ending<S> {
      if o >= |states| then Ending([], own, None)
      else
        var w := From(states);
        var rounds := Rounds(w, stopSignal, maxLength, 0);
        var settled := SettledRounds(rounds, maxLength);
        Ending(SoloRun(w, o, rounds).ids, SavedRun(w, sizes, o, settled), HeldRun(w, o, settled).state)
    }

    /** No size is missing. */
    predicate EverySize(count: nat) {
      forall n :: 1 <= n <= count ==> n in sizes
    }
  }

  /** From the texts to the end of the decoding.  What a finished sequence leaves behind is the state of its own text
      and response, evaluated from scratch or from a loaded state, whoever shared the batch with it. */
  method ChatBatch<S(!new), L(!new), O(!new)>(m: ModelInstance<S>, plan: Plan<S, L, O>, batchSize: nat,
                                              texts: seq<Text>)
    returns (ok: bool, endings: seq<Ending<S>>, eos: seq<bool>, nodes: seq<StateNode<S>>)
    requires m.Valid() && plan.rules.step == m.backend.step
    modifies m.backend, m.backend.nodes
    ensures m.Valid() && fresh(m.backend.nodes - old(m.backend.nodes))
    ensures ok <==> batchSize in plan.sizes && |texts| == batchSize
    ensures !ok ==> m.backend.nodes == old(m.backend.nodes) && m.backend.live == old(m.backend.live)
    ensures !ok ==> Cache(m.backend) == old(Cache(m.backend))
    ensures ok ==> Cache(m.backend) == m.TheRules().BatchPrefilled(old(Cache(m.backend)), texts)
    ensures m.backend.misfired ==
      (old(m.backend.misfired) || (ok && m.TheRules().BatchStrays(old(Cache(m.backend)), texts)))
    ensures ok ==> AllLead(m.backend, m.TheRules().BatchPaths(old(Cache(m.backend)), texts), nodes)
    ensures ok ==> endings == m.TheRules().Endings(old(Cache(m.backend)), texts, plan.Leaves)
    ensures ok ==> |endings| == |eos| == |nodes| == |texts|
    ensures ok ==> forall o :: 0 <= o < |texts| ==>
      nodes[o] in m.backend.nodes && |endings[o].response| <= plan.maxLength
    ensures ok && !m.backend.misfired ==> StartStates(nodes) == m.TheRules().BatchStates(old(Cache(m.backend)), texts)
    ensures ok && !m.backend.misfired && plan.EverySize(batchSize) ==>
      forall o :: 0 <= o < |texts| && eos[o] ==>
        && Settled(m, nodes[o], texts[o], endings[o].response, endings[o].state)
        && endings[o].state == Fold(m.backend.step, nodes[o].state, endings[o].response)
  {
    hide ModelInstance.Valid, Settled, Encode, Fold, Cache, Leads, AsAlone, SoloRun, SavedRun, HeldRun, Rounds;
    hide Rules.BatchPrefilled, Rules.BatchStrays, Rules.BatchPaths, Rules.BatchStates, Rules.SequenceWanders;
    ok, endings, eos, nodes := batchSize in plan.sizes && |texts| == batchSize, [], [], [];
    if !ok { return; }
    var starts;
    nodes, starts := m.PrefillBatch(texts);
    endings, eos := DecodeBatch(plan, starts);
    forall o | !m.backend.misfired && plan.EverySize(batchSize) && 0 <= o < |texts| && eos[o]
      ensures Settled(m, nodes[o], texts[o], endings[o].response, endings[o].state)
    {
      SettledThere(m, nodes[o], texts[o], endings[o].response, endings[o].state);
    }
  }

  function StartStates<S>(nodes: seq<StateNode<S>>): (states: seq<S>)
    ensures |states| == |nodes| && forall o :: 0 <= o < |nodes| ==> states[o] == nodes[o].state
  {
    seq(|nodes|, o requires 0 <= o < |nodes| => nodes[o].state)
  }

  /** The decoding: every sequence as if alone. */
  method DecodeBatch<S(!new), L(!new), O(!new)>(plan: Plan<S, L, O>, starts: seq<S>)
    returns (endings: seq<Ending<S>>, eos: seq<bool>)
    requires |starts| in plan.sizes
    ensures |endings| == |eos| == |starts|
    ensures forall o :: 0 <= o < |starts| ==>
      endings[o] == plan.Leaves(starts, o, starts[o]) && |endings[o].response| <= plan.maxLength
    ensures plan.EverySize(|starts|) ==> forall o :: 0 <= o < |starts| && eos[o] ==>
      endings[o].state == Fold(plan.rules.step, starts[o], endings[o].response)
  {
    hide AsAlone, SoloRun, SavedRun, HeldRun, Rounds, Fold;
    var w := plan.From(starts);
    var supported, responses, states, held;
    ghost var rounds, settled;
    supported, responses, eos, states, held, rounds, settled :=
      BatchDecode.ChatBatch(w, plan.sizes, plan.maxLength, plan.stopSignal);
    endings := seq(|starts|, o requires 0 <= o < |starts| == |responses| == |states| == |held| =>
                   Ending(responses[o], states[o], held[o]));
    forall o | 0 <= o < |starts| ensures |endings[o].response| <= plan.maxLength { ShortEnough(w, o, rounds); }
  }
  /** A checkpoint of a text, advanced over a response. */
  lemma SettledThere<S(!new)>(m: ModelInstance<S>, node: StateNode<S>, text: Text, response: seq<int>, state: S)
    requires m.Valid() && !m.backend.misfired && node in m.backend.nodes && node.ids == Encode(m.vocab, text)
    requires state == Fold(m.backend.step, node.state, response)
    ensures Settled(m, node, text, response, state)
  {
    var a, ids := m.backend.Anchor(node), Encode(m.vocab, text);
    m.backend.CheckpointIsReplay(node);
    FoldConcat(m.backend.step, a.state, ids[|a.ids|..], response);
    DecodeEncode(m.vocab, text);
  }

  /** The state registered for a sequence is that of the ids registered for it. */
  ghost predicate Right<S>(step: (S, int) -> S, start: S, e: Ending<S>) {
    e.Closing() == Fold(step, start, e.Ids())
  }

  /** Token by token, a response is what its own sequence draws from its own state, row and penalties, to the first that
      ends it or as long as the rounds last. */
  lemma LeavesSaid<S, L, O>(plan: Plan<S, L, O>, states: seq<S>, o: nat)
    requires o < |states|
    ensures var w, ids := plan.From(states), plan.Leaves(states, o, states[o]).response;
      && Said(w, o, ids) && |ids| <= plan.maxLength
      && (|ids| < Rounds(w, plan.stopSignal, plan.maxLength, 0) ==> Final(w, o, ids))
  {
    hide SoloRun, HeldRun, SavedRun, Rounds, Said, Final;
    var w := plan.From(states);
    SoloSaid(w, o, Rounds(w, plan.stopSignal, plan.maxLength, 0));
  }

  /** What the decoding leaves is right exactly when the state held, if one is and anything was said, is that of the
      response without its last token, or else the state saved is that of the response. */
  lemma LeavesRightIff<S, L, O>(plan: Plan<S, L, O>, states: seq<S>, o: nat)
    requires o < |states|
    ensures var w, e := plan.From(states), plan.Leaves(states, o, states[o]);
      var settled := SettledRounds(Rounds(w, plan.stopSignal, plan.maxLength, 0), plan.maxLength);
      var at, ids := HeldAt(w, o, settled).state, e.response;
      && (at.Some? ==> at.value <= |ids|)
      && (Right(w.step, states[o], e) <==>
        if at.Some? && ids != [] then
          Fold(w.step, states[o], ids[..at.value]) == Fold(w.step, states[o], ids[..|ids| - 1])
        else
          SavedRun(w, plan.sizes, o, settled) == Fold(w.step, states[o], ids))
  {
    hide Fold, SoloRun, HeldRun, HeldAt, SavedRun, Rounds;
    var w := plan.From(states);
    var rounds := Rounds(w, plan.stopSignal, plan.maxLength, 0);
    HeldIsPrefix(w, o, SettledRounds(rounds, plan.maxLength), rounds);
  }

  /** With every size supported and no thought to wait for, a finished sequence is left right if and only if no rewind
      token completed the stop code that ended it (or that token makes no difference): the state held then is that
      of the whole response, and the last token of the response is dropped all the same. */
  lemma FinishedRightIff<S, L, O>(plan: Plan<S, L, O>, states: seq<S>, o: nat, r: nat)
    requires o < |states| && plan.EverySize(|states|) && !plan.rules.thinking
    requires var w := plan.From(states);
      !SoloRun(w, o, r).done && SoloRun(w, o, r + 1).done && r <= Rounds(w, plan.stopSignal, plan.maxLength, 0) &&
      r < plan.maxLength
    ensures var w, e := plan.From(states), plan.Leaves(states, o, states[o]);
      var last, ids := LastDrawn(w, o, r), SoloRun(w, o, r).ids;
      && e.response == ids
      && (Right(w.step, states[o], e) <==>
        (last != 0 && IsRewindToken(last) && ids != [] ==>
          Fold(w.step, states[o], ids) == Fold(w.step, states[o], ids[..|ids| - 1])))
  {
    hide Fold, SoloRun, HeldRun, HeldAt, SavedRun, Rounds, LastDrawn, BatchDecode.Relapses, AllDone, Dones;
    var w := plan.From(states);
    var rounds := Rounds(w, plan.stopSignal, plan.maxLength, 0);
    var settled := SettledRounds(rounds, plan.maxLength);
    LeavesRightIff(plan, states, o);
    HeldAtEnd(w, o, r, settled);
    SoloLength(w, o, r, rounds);
    SoloLength(w, o, rounds, settled);
    SoloLength(w, o, r + 1, settled);
    RoundsGoOn(w, plan.stopSignal, plan.maxLength, 0);
    forall q | 0 < q < settled ensures !AllDone(Dones(w, q)) {
      var p := q - 1;
      assert GoesOn(w, plan.stopSignal, p);
    }
    NoRelapse(w, plan.sizes, o, settled);
    SavedIsSolo(w, plan.sizes, o, settled);
    var ids := SoloRun(w, o, r).ids;
    assert ids[..|ids|] == ids;
  }

  /** A sequence by itself that says 7 and is then stopped by a rewind token. */
  function StoppedByRewind(): Plan<seq<int>, int, int> {
    Plan(World((s: seq<int>, t: int) => s + [t], (s: seq<int>, t: int) => 0, 0,
               (row: int, o: int) => row, (o: int) => o, (o: int, t: int) => o, 0, (row: int) => row,
               (i: nat, o: nat, row: int) => 9830, (o: nat, ids: seq<int>, t: int) => t == 9830,
               false, (o: nat, ids: seq<int>, t: int) => false, []),
         [1], (o: nat) => 7, (o: nat) => false, 2, (i: nat) => false)
  }

  /** Its checkpoint gets no ids, but the state after the 7. */
  lemma RewindStopLosesToken()
    ensures var e := StoppedByRewind().Leaves([[]], 0, []);
      e == Ending([7], [7], Some([7])) && e.Ids() == [] && e.Closing() == [7] &&
      !Right(StoppedByRewind().rules.step, [], e)
  {
    var plan := StoppedByRewind();
    var w := plan.From([[]]);
    StoppedRuns(w);
    hide SoloRun, HeldRun, SavedRun, BatchDecode.Relapses;
    assert !Dones(w, 1)[0] && AllDone(Dones(w, 2));
    assert GoesOn(w, plan.stopSignal, 0) && !GoesOn(w, plan.stopSignal, 1);
    RoundsAre(w, plan.stopSignal, 2, 0, 1);
    NoRelapse(w, [1], 0, 2);
    SavedIsSolo(w, [1], 0, 2);
    assert Fold(w.step, [], [7]) == [7];
  }

  lemma StoppedRuns(w: World<seq<int>, int, int>)
    requires w == StoppedByRewind().From([[]])
    ensures SoloRun(w, 0, 1) == Solo([7], [7], 0, 0, 7, false) && SoloRun(w, 0, 2) == SoloRun(w, 0, 1).(done := true)
    ensures HeldRun(w, 0, 2) == Hold(Some([7]), false)
  {
    hide Fold;
    assert SoloRun(w, 0, 0) == Solo([], [], 0, 0, 7, false);
    assert w.Token(0, 0, 0, 0, 7) == 7 && !w.Ends(0, [], 7) && [] + [7] == [7];
    assert w.Token(1, 0, 0, 0, 7) == 9830 && w.Ends(0, [7], 9830);
    assert SoloRun(w, 0, 1) == SoloStep(w, 0, 0, SoloRun(w, 0, 0));
    assert SoloRun(w, 0, 2) == SoloStep(w, 0, 1, SoloRun(w, 0, 1));
    assert HeldRun(w, 0, 1) == Hold(None, false);
  }

  /** A batched chat from its texts to the cleanup is the command Batch of a run, with what the decoding leaves.  If no
      sequence strays, the cache stays coherent exactly when what is left for every sequence is right, or nothing is
      registered. */
  method WholeChatBatch<S(!new), L(!new), O(!new)>(m: ModelInstance<S>, plan: Plan<S, L, O>, texts: seq<Text>)
    returns (ok: bool, endings: seq<Ending<S>>, eos: seq<bool>)
    requires m.Valid() && plan.rules.step == m.backend.step && texts != []
    modifies m.backend, m.backend.nodes
    ensures m.Valid() && fresh(m.backend.nodes - old(m.backend.nodes)) && (ok <==> |texts| in plan.sizes)
    ensures m.Value() ==
      if ok then m.TheRules().After(old(m.Value()), Batch(texts, plan.Leaves)) else old(m.Value())
    ensures m.backend.misfired ==
      (old(m.backend.misfired) || (ok && m.TheRules().Strays(old(m.Value()), Batch(texts, plan.Leaves))))
    ensures ok ==> |endings| == |eos| == |texts|
    ensures ok ==>
      (m.backend.misfired <==>
       old(m.backend.misfired) || m.TheRules().BatchStrays(old(Cache(m.backend)), texts) ||
       (endings[0].response != [] &&
        !AllRight(m.backend.step, m.TheRules().BatchStates(old(Cache(m.backend)), texts), endings)))
  {
    hide Settled, ModelInstance.Counted, ExecutionProvider.Valid, ExecutionProvider.Sound, Cache, AllLead, Leads;
    hide Plan.EverySize, Plan.Leaves;
    hide Rules.After, Rules.Strays, Rules.BatchPrefilled, Rules.BatchStrays, Rules.BatchPaths, Rules.BatchStates;
    hide Rules.Endings, Rules.BatchAnswered, Rules.BatchMismatches, AllRight, Fold;
    if |texts| in plan.sizes { m.TheRules().BatchIs(m.Value(), texts, plan.Leaves); }
    ghost var paths := m.TheRules().BatchPaths(Cache(m.backend), texts);
    var nodes;
    ok, endings, eos, nodes := ChatBatch(m, plan, |texts|, texts);
    if !ok { return; }
    MismatchIff(m, paths, nodes, endings);
    var next := m.Close(nodes, endings, paths);
  }

  /** Registering what was left for all sequences goes wrong if that of one is not right. */
  lemma MismatchIff<S(!new)>(m: ModelInstance<S>, paths: seq<Path>, nodes: seq<StateNode<S>>, endings: seq<Ending<S>>)
    requires m.Valid() && |paths| == |nodes| == |endings| && endings != [] && AllLead(m.backend, paths, nodes)
    ensures m.TheRules().BatchMismatches(Cache(m.backend), paths, endings) <==>
      endings[0].response != [] && !AllRight(m.backend.step, StartStates(nodes), endings)
  {
    hide ModelInstance.Counted, ExecutionProvider.Valid, ExecutionProvider.Sound, Cache, AllLead, Fold;
    var ids, states := m.TheRules().EndingIds(endings), m.TheRules().EndingStates(endings);
    OffIs(m.backend, paths, nodes, ids, states);
    if AllRight(m.backend.step, StartStates(nodes), endings) {
      forall o | 0 <= o < |nodes| ensures !Off(m.backend.step, nodes[o], ids[o], states[o]) {
        assert Right(m.backend.step, nodes[o].state, endings[o]);
      }
    } else {
      var o :| 0 <= o < |nodes| && !Right(m.backend.step, nodes[o].state, endings[o]);
      assert Off(m.backend.step, nodes[o], ids[o], states[o]);
    }
  }

  ghost predicate AllRight<S>(step: (S, int) -> S, states: seq<S>, endings: seq<Ending<S>>)
    requires |states| == |endings|
  {
    forall o :: 0 <= o < |endings| ==> Right(step, states[o], endings[o])
  }

  /** `state` is that of `text` and then `response`, from the nearest loaded state or from scratch. */
  ghost predicate Settled<S(!new)>(m: ModelInstance<S>, node: StateNode<S>, text: Text, response: seq<int>, state: S)
    reads m.backend, m.backend.nodes
  {
    var a := m.backend.Anchor(node);
    && a in m.backend.nodes && (a == m.backend.root || a.isConstant)
    && a.ids <= node.ids && Decode(m.vocab, node.ids) == text
    && state == Fold(m.backend.step, a.state, node.ids[|a.ids|..] + response)
  }

  /** A response has at most one token for each full round, and the round that ends it adds none. */
  lemma {:induction false} ShortEnough<S, L, O>(w: World<S, L, O>, o: nat, rounds: nat)
    requires o < |w.starts|
    ensures |SoloRun(w, o, rounds).ids| <= rounds
    ensures SoloRun(w, o, rounds + 1).done ==> |SoloRun(w, o, rounds + 1).ids| <= rounds
  {
    if rounds > 0 { ShortEnough(w, o, rounds - 1); }
  }
}
