/** A session as a value: the cache tree and the prompt, and what each call makes of them.  Whether the duplicate test
    misfires is a predicate on that value, so a caller can decide it before the call. */
module SessionValue {
  import opened Options
  import opened Recurrence
  import opened Vocabulary
  import opened Chunking
  import opened Dialogue
  import opened CacheTree

  /** What a session never changes. */
  datatype Rules<!S> = Rules(step: (S, int) -> S, vocab: seq<Entry>, uid: Text, settings: Settings)
  {
    /** The chunks a chat evaluates (src/runtime.cpp:689-710). */
    function ToPrefill(t: Tree<S>, text: Text): seq<seq<int>> {
      var rest := Rest(t, Encode(vocab, text));
      if rest == [] then [] else TextPieces(vocab, Decode(vocab, rest), CHECKPOINT_INTERVAL)
    }

    function Prefilled(t: Tree<S>, text: Text): Cursor<S> {
      Lookup(t, Encode(vocab, text)).FeedAll(step, ToPrefill(t, text))
    }

    predicate PrefillStrays(t: Tree<S>, text: Text) {
      Lookup(t, Encode(vocab, text)).Strays(step, ToPrefill(t, text))
    }

    /** After the response: its checkpoint, and the cleanup. */
    function Answered(c: Cursor<S>, response: seq<int>): Tree<S> {
      Cleaned(if response == [] then c.tree
              else c.Register(Spoken(response), Fold(step, c.live, Spoken(response))).tree)
    }

    predicate AnswerStrays(c: Cursor<S>, response: seq<int>) {
      response != [] && c.Misfires(Spoken(response))
    }

    function ReplyTo(text: Text, draws: Draws): seq<int> {
      Reply(vocab, settings, draws, ResponsePart(settings, text), false, 0)
    }

    /** What a chat registers, in order: the chunks of its text, then what it keeps of the response. */
    function ChatPieces(t: Tree<S>, text: Text, response: seq<int>): seq<seq<int>> {
      ToPrefill(t, text) + if response == [] then [] else [Spoken(response)]
    }

    /** A chat misfires exactly when the checkpoint its text is matched to, as it stands before the call, has a child
        with just the next piece for its ids (or, at the root, a loaded state with them, or a child with them that
        has such a child itself). */
    lemma ChatStraysIff(t: Tree<S>, text: Text, response: seq<int>)
      ensures var ids := Encode(vocab, text);
        (PrefillStrays(t, text) || AnswerStrays(Prefilled(t, text), response)) ==
        StraysBelow(Sub(t, Walk(t, ids)), Walk(t, ids) == [], ChatPieces(t, text, response))
    {
      var c, ids := Lookup(t, Encode(vocab, text)), Encode(vocab, text);
      LookupStraysIff(t, ids, step, ChatPieces(t, text, response));
      if response == [] {
        assert ToPrefill(t, text) + [] == ToPrefill(t, text);
      } else {
        c.FeedConcat(step, ToPrefill(t, text), [Spoken(response)]);
      }
    }

    /** A chat whose text is matched to a checkpoint nothing hangs on never misfires, the first one of a session for
        instance. */
    lemma LeavesAreQuiet(t: Tree<S>, text: Text, response: seq<int>)
      requires Sub(t, Walk(t, Encode(vocab, text))).kids == []
      ensures !PrefillStrays(t, text) && !AnswerStrays(Prefilled(t, text), response)
    {
      ChatStraysIff(t, text, response);
      var path := Walk(t, Encode(vocab, text));
      NothingStrays(Sub(t, path), path == [], ChatPieces(t, text, response));
    }

    /** A piece of the text is mistaken for a checkpoint below one that has ids. */
    predicate PrefillWanders(t: Tree<S>, text: Text) {
      WandersBelow(Sub(t, Walk(t, Encode(vocab, text))), ToPrefill(t, text))
    }

    /** The checkpoint a prefill arrives at decodes to the text if and only if it does not wander: what is lost in
        front stands for some text. */
    lemma PrefilledSays(t: Tree<S>, text: Text)
      requires Lossless(vocab) && t.ids == []
      ensures Decode(vocab, Prefilled(t, text).Node().ids) == text <==> !PrefillWanders(t, text)
    {
      var pieces, c := ToPrefill(t, text), Lookup(t, Encode(vocab, text));
      hide Lossless, Encode, Decode, TextPieces, Rules.ToPrefill, Lookup, WandersBelow;
      var meant := MeantSays(t, text);
      LookupWandersIff(t, Encode(vocab, text), step, pieces);
      LookupFits(t, Encode(vocab, text));
      var lost := WandersIff(c, step, pieces);
      SuffixSaysLess(vocab, lost, c.FeedAll(step, pieces).Node().ids);
      SameRest(lost, c.FeedAll(step, pieces).Node().ids);
    }

    /** The ids a prefill means to arrive at. */
    lemma MeantSays(t: Tree<S>, text: Text) returns (meant: seq<int>)
      requires Lossless(vocab) && t.ids == []
      ensures meant == Sub(t, Walk(t, Encode(vocab, text))).ids + Join(ToPrefill(t, text))
      ensures Audible(vocab, meant) && Decode(vocab, meant) == text
    {
      hide Lossless, Encode, Decode, TextPieces, Sub, Walk;
      var ids, pieces := Encode(vocab, text), ToPrefill(t, text);
      var from, rest := Sub(t, Walk(t, ids)), Rest(t, ids);
      EncodeSays(vocab, text);
      LookupPrefix(t, ids);
      meant := from.ids + Join(pieces);
      DecodeConcat(vocab, from.ids, rest);
      DecodeConcat(vocab, from.ids, Join(pieces));
      if rest == [] {
        NothingSaid(vocab, rest);
      } else {
        TextPiecesSay(vocab, Decode(vocab, rest), CHECKPOINT_INTERVAL);
      }
    }

    /** What is kept of a response is mistaken for a checkpoint. */
    predicate AnswerWanders(c: Cursor<S>, response: seq<int>) {
      response != [] && c.Node().ids != [] && FirstSame(c.Node().kids, Spoken(response)) < |c.Node().kids|
    }

    /** The checkpoint of the response has the ids of text and response if and only if it is not. */
    lemma AnsweredIds(c: Cursor<S>, response: seq<int>, state: S)
      requires Fits(c.tree, c.path) && response != []
      ensures c.Register(Spoken(response), state).Node().ids == c.Node().ids + Spoken(response) <==>
        !AnswerWanders(c, response)
    {
      RegisterNode(c, Spoken(response), state);
      assert |c.Node().ids + Spoken(response)| == |c.Node().ids| + |Spoken(response)|;
      assert [] + Spoken(response) == Spoken(response);
    }

    /** One sequence of a batch: the ids left, in pieces of 256 (src/runtime.cpp:965-997). */
    function SequencePieces(t: Tree<S>, text: Text): seq<seq<int>> {
      Pieces(Rest(t, Encode(vocab, text)), CHECKPOINT_INTERVAL)
    }

    function SequencePrefilled(t: Tree<S>, text: Text): Cursor<S> {
      Lookup(t, Encode(vocab, text)).FeedAll(step, SequencePieces(t, text))
    }

    predicate SequenceStrays(t: Tree<S>, text: Text) {
      Lookup(t, Encode(vocab, text)).Strays(step, SequencePieces(t, text))
    }

    lemma SequenceStraysIff(t: Tree<S>, text: Text)
      ensures var ids := Encode(vocab, text);
        SequenceStrays(t, text) == StraysBelow(Sub(t, Walk(t, ids)), Walk(t, ids) == [], SequencePieces(t, text))
    {
      LookupStraysIff(t, Encode(vocab, text), step, SequencePieces(t, text));
    }

    predicate SequenceWanders(t: Tree<S>, text: Text) {
      WandersBelow(Sub(t, Walk(t, Encode(vocab, text))), SequencePieces(t, text))
    }

    /** A sequence of a batch arrives at the ids of its text if and only if it does not wander. */
    lemma SequenceIds(t: Tree<S>, text: Text)
      requires t.ids == []
      ensures SequencePrefilled(t, text).Node().ids == Encode(vocab, text) <==> !SequenceWanders(t, text)
    {
      var ids := Encode(vocab, text);
      LookupPrefix(t, ids);
      LookupWandersIff(t, ids, step, SequencePieces(t, text));
      PiecesJoin(Rest(t, ids), CHECKPOINT_INTERVAL);
    }

    function BatchPrefilled(t: Tree<S>, texts: seq<Text>): Tree<S>
      decreases |texts|
    {
      if texts == [] then t else SequencePrefilled(BatchPrefilled(t, texts[..|texts| - 1]), texts[|texts| - 1]).tree
    }

    /** Some sequence strays in the tree that those before it leave. */
    predicate BatchStrays(t: Tree<S>, texts: seq<Text>)
      decreases |texts|
    {
      texts != [] &&
      (BatchStrays(t, texts[..|texts| - 1]) ||
       SequenceStrays(BatchPrefilled(t, texts[..|texts| - 1]), texts[|texts| - 1]))
    }

    lemma BatchNone(t: Tree<S>)
      ensures BatchPrefilled(t, []) == t && !BatchStrays(t, [])
    {
    }

    lemma BatchNext(t: Tree<S>, texts: seq<Text>, o: nat)
      requires o < |texts|
      ensures var tree := BatchPrefilled(t, texts[..o]);
        && BatchPrefilled(t, texts[..o + 1]) == SequencePrefilled(tree, texts[o]).tree
        && BatchStrays(t, texts[..o + 1]) == (BatchStrays(t, texts[..o]) || SequenceStrays(tree, texts[o]))
    {
      assert texts[..o + 1][..o] == texts[..o];
    }

    /** Where a sequence of a batch starts to decode, and in which state. */
    function BatchCursor(t: Tree<S>, texts: seq<Text>, o: nat): Cursor<S>
      requires o < |texts|
    {
      SequencePrefilled(BatchPrefilled(t, texts[..o]), texts[o])
    }

    function BatchPaths(t: Tree<S>, texts: seq<Text>): (paths: seq<Path>)
      ensures |paths| == |texts| && forall o :: 0 <= o < |texts| ==> paths[o] == BatchCursor(t, texts, o).path
    {
      seq(|texts|, o requires 0 <= o < |texts| => BatchCursor(t, texts, o).path)
    }

    function BatchStates(t: Tree<S>, texts: seq<Text>): (states: seq<S>)
      ensures |states| == |texts| && forall o :: 0 <= o < |texts| ==> states[o] == BatchCursor(t, texts, o).live
    {
      seq(|texts|, o requires 0 <= o < |texts| => BatchCursor(t, texts, o).live)
    }

    /** What is registered at the end of a batched chat: nothing unless its first sequence has said something. */
    function BatchClosings(paths: seq<Path>, endings: seq<Ending<S>>): seq<Closing<S>>
      requires |paths| == |endings|
    {
      if endings == [] || endings[0].response == [] then []
      else Closings(paths, EndingIds(endings), EndingStates(endings))
    }

    function EndingIds(endings: seq<Ending<S>>): (ids: seq<seq<int>>)
      ensures |ids| == |endings| && forall o :: 0 <= o < |endings| ==> ids[o] == endings[o].Ids()
    {
      seq(|endings|, o requires 0 <= o < |endings| => endings[o].Ids())
    }

    function EndingStates(endings: seq<Ending<S>>): (states: seq<S>)
      ensures |states| == |endings| && forall o :: 0 <= o < |endings| ==> states[o] == endings[o].Closing()
    {
      seq(|endings|, o requires 0 <= o < |endings| => endings[o].Closing())
    }

    function Endings(t: Tree<S>, texts: seq<Text>, decode: (seq<S>, nat, S) -> Ending<S>): (r: seq<Ending<S>>)
      ensures |r| == |texts|
      ensures forall o :: 0 <= o < |texts| ==> r[o] == decode(BatchStates(t, texts), o, BatchStates(t, texts)[o])
    {
      seq(|texts|, o requires 0 <= o < |texts| => decode(BatchStates(t, texts), o, BatchStates(t, texts)[o]))
    }

    /** The checkpoints of a batched chat's responses, and the cleanup. */
    function BatchAnswered(t: Tree<S>, paths: seq<Path>, endings: seq<Ending<S>>): Tree<S>
      requires |paths| == |endings|
    {
      Cleaned(HungAll(t, BatchClosings(paths, endings)))
    }

    /** Some response is registered with a state that is not its own. */
    ghost predicate BatchMismatches(t: Tree<S>, paths: seq<Path>, endings: seq<Ending<S>>)
      requires |paths| == |endings|
    {
      Mismatched(step, t, BatchClosings(paths, endings))
    }

    function Prompted(t: Tree<S>, text: Text): Cursor<S> {
      var ids := Encode(vocab, text);
      var c := Lookup(t, ids);
      if Rest(t, ids) == [] then c else c.Feed(step, ids)
    }

    function StateIds(path: Text): seq<int> { Encode(vocab, STATE_TAG + path + STATE_TAG_END) }

    /** A chat whose text opens an image tag is passed over. */
    predicate Speaks(text: Text) { Find(text, StartTag(uid), 0) == -1 }

    function Template(m: Memory<S>, inputs: seq<Text>, draws: Draws): Text {
      ApplyChatTemplate(settings, m.prompt, inputs, draws.reasoning)
    }

    /** The session after one call. */
    function After(m: Memory<S>, command: Command<S>): Memory<S> {
      match command
      case Prompt(text) =>
        if Encode(vocab, text) == [] then m
        else
          Memory(Prompted(m.tree, text).tree, if Rest(m.tree, Encode(vocab, text)) == [] then m.prompt else text)
      case Converse(inputs, draws) =>
        var text := Template(m, inputs, draws);
        if inputs == [] || !Speaks(text) then m
        else m.(tree := Answered(Prefilled(m.tree, text), ReplyTo(text, draws)))
      case Batch(texts, decode) =>
        if texts == [] then m
        else m.(tree := BatchAnswered(BatchPrefilled(m.tree, texts), BatchPaths(m.tree, texts),
                                      Endings(m.tree, texts, decode)))
      case Load(path, file) =>
        if Find(path, RMPACK, 0) == -1 || FirstSame(m.tree.kids, StateIds(path)) < |m.tree.kids| || file.None? then m
        else m.(tree := m.tree.(kids := m.tree.kids + [Tree(StateIds(path), file.value, true, 50, [])]))
      case Unload(path) =>
        var k := FirstSame(m.tree.kids, StateIds(path));
        if k == |m.tree.kids| then m else m.(tree := m.tree.(kids := m.tree.kids[..k] + m.tree.kids[k + 1..]))
    }

    lemma AfterPrompt(m: Memory<S>, text: Text)
      ensures var ids := Encode(vocab, text);
        After(m, Prompt(text)) ==
          if ids == [] then m
          else if Rest(m.tree, ids) == [] then m.(tree := Lookup(m.tree, ids).tree)
          else Memory(Lookup(m.tree, ids).Feed(step, ids).tree, text)
    {
    }

    lemma AfterLoad(m: Memory<S>, path: Text, file: Option<S>)
      ensures var ids, kids := Encode(vocab, STATE_TAG + path + STATE_TAG_END), m.tree.kids;
        After(m, Load(path, file)) ==
          if Find(path, RMPACK, 0) == -1 || FirstSame(kids, ids) < |kids| || file.None? then m
          else Memory(m.tree.(kids := kids + [Tree(ids, file.value, true, 50, [])]), m.prompt)
    {
    }

    lemma AfterUnload(m: Memory<S>, path: Text)
      ensures var ids, kids := Encode(vocab, STATE_TAG + path + STATE_TAG_END), m.tree.kids;
        var k := FirstSame(kids, ids);
        After(m, Unload(path)) ==
          if k == |kids| then m else Memory(m.tree.(kids := kids[..k] + kids[k + 1..]), m.prompt)
    {
    }

    /** The duplicate test misfires during the call, or a batch registers a state that does not belong. */
    ghost predicate Strays(m: Memory<S>, command: Command<S>) {
      match command
      case Prompt(text) => false
      case Converse(inputs, draws) =>
        var text := Template(m, inputs, draws);
        inputs != [] && Speaks(text) &&
        (PrefillStrays(m.tree, text) || AnswerStrays(Prefilled(m.tree, text), ReplyTo(text, draws)))
      case Batch(texts, decode) =>
        BatchStrays(m.tree, texts) ||
        BatchMismatches(BatchPrefilled(m.tree, texts), BatchPaths(m.tree, texts), Endings(m.tree, texts, decode))
      case Load(path, file) => false
      case Unload(path) => false
    }

    lemma ConverseIs(m: Memory<S>, inputs: seq<Text>, draws: Draws)
      ensures var text := ApplyChatTemplate(settings, m.prompt, inputs, draws.reasoning);
        var c, quiet := Prefilled(m.tree, text), inputs == [] || Find(text, StartTag(uid), 0) != -1;
        && After(m, Converse(inputs, draws)) == (if quiet then m else m.(tree := Answered(c, ReplyTo(text, draws))))
        && (Strays(m, Converse(inputs, draws)) <==>
            !quiet && (PrefillStrays(m.tree, text) || AnswerStrays(c, ReplyTo(text, draws))))
    {
    }

    lemma BatchIs(m: Memory<S>, texts: seq<Text>, decode: (seq<S>, nat, S) -> Ending<S>)
      requires texts != []
      ensures var tree, paths, endings :=
          BatchPrefilled(m.tree, texts), BatchPaths(m.tree, texts), Endings(m.tree, texts, decode);
        && After(m, Batch(texts, decode)) == m.(tree := BatchAnswered(tree, paths, endings))
        && (Strays(m, Batch(texts, decode)) <==> BatchStrays(m.tree, texts) || BatchMismatches(tree, paths, endings))
    {
    }

    function AfterAll(m: Memory<S>, commands: seq<Command<S>>): Memory<S>
      decreases |commands|
    {
      if commands == [] then m
      else After(AfterAll(m, commands[..|commands| - 1]), commands[|commands| - 1])
    }

    /** Some call of a run strays. */
    ghost predicate StraysIn(m: Memory<S>, commands: seq<Command<S>>)
      decreases |commands|
    {
      commands != [] &&
      (StraysIn(m, commands[..|commands| - 1]) ||
       Strays(AfterAll(m, commands[..|commands| - 1]), commands[|commands| - 1]))
    }
  }

  datatype Memory<S> = Memory(tree: Tree<S>, prompt: Text)
}
