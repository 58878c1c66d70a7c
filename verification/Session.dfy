/** One loaded model and the calls that drive its cache: prompts, initial states and chats (src/runtime.cpp).  The model
    behind the backend is the fold of Recurrence; each call is proved to do to the heap what SessionValue does
    to a value. */
module Session {
  import opened Options
  import opened Recurrence
  import opened StateCache
  import opened Vocabulary
  import opened Chunking
  import opened CacheTree
  import opened CacheRefinement
  import opened BatchRegistration
  import opened Dialogue
  import opened SessionValue

  class ModelInstance<S(!new)> {
    const backend: ExecutionProvider<S>
    const vocab: seq<Entry>
    const uid: Text
    const settings: Settings
    var prompt: Text
    var responseBuffer: Text
    var responseIds: seq<int>
    var eosFound: bool

    ghost predicate Valid()
      reads this, backend, backend.nodes
    {
      backend.Valid() && backend.Sound() && Counted() && Lossless(vocab)
    }

    /** No count is ever negative, and the root's never runs out. */
    ghost predicate Counted()
      reads backend`nodes, backend.nodes`activationCount, backend.root`activationCount
    {
      backend.root.activationCount > 0 && forall n :: n in backend.nodes ==> n.activationCount >= 0
    }

    /** What this session never changes. */
    function TheRules(): Rules<S> { Rules.Rules(backend.step, vocab, uid, settings) }

    /** The session as a value. */
    ghost function Value(): Memory<S>
      requires backend.Valid()
      reads this`prompt, backend`nodes, backend`bound, backend.nodes`children, backend.nodes`activationCount
    {
      Memory(Cache(backend), prompt)
    }

    constructor (step: (S, int) -> S, zero: S, vocab: seq<Entry>, uid: Text, settings: Settings)
      requires Lossless(vocab)
      ensures Valid() && fresh(backend) && fresh(backend.nodes)
      ensures this.vocab == vocab && this.uid == uid && this.settings == settings && prompt == []
      ensures !backend.misfired && backend.step == step && backend.root.state == zero
      ensures backend.nodes == {backend.root} && backend.root.children == [] && backend.root.ids == []
      ensures Cache(backend) == Tree([], zero, false, 20, [])
    {
      var b := new ExecutionProvider(step, zero);
      backend, this.vocab, this.uid, this.settings := b, vocab, uid, settings;
      prompt, responseBuffer, responseIds, eosFound := [], [], [], false;
    }

    /** Prefill in pieces of 64 (src/runtime.cpp:422-456). */
    method EvalLogits(ids: seq<int>)
      requires ids != []
      modifies backend`live
      ensures backend.live == Fold(backend.step, old(backend.live), ids)
    {
      var i := 0;
      while i + PREFILL_CHUNK <= |ids|
        invariant 0 <= i <= |ids| && backend.live == Fold(backend.step, old(backend.live), ids[..i])
      {
        backend.Eval(ids[i..i + PREFILL_CHUNK]);
        FoldConcat(backend.step, old(backend.live), ids[..i], ids[i..i + PREFILL_CHUNK]);
        assert ids[..i] + ids[i..i + PREFILL_CHUNK] == ids[..i + PREFILL_CHUNK];
        i := i + PREFILL_CHUNK;
      }
      if i < |ids| {
        backend.Eval(ids[i..]);
        FoldConcat(backend.step, old(backend.live), ids[..i], ids[i..]);
        assert ids[..i] + ids[i..] == ids;
      } else {
        assert ids[..i] == ids;
      }
    }

    /** The backend stands at `node`, unless the duplicate test has misfired. */
    ghost predicate At(node: StateNode<S>)
      reads backend, backend.nodes
    {
      && backend.Valid() && backend.Sound() && Counted() && node in backend.nodes && node.activationCount > 0
      && (!backend.misfired ==> backend.live == node.state)
    }

    /** Counts go on falling along every path, as long as they have done and nothing goes wrong. */
    twostate predicate KeepsOrder()
      reads backend, backend.nodes
    {
      old(backend.CountsFall()) && !backend.misfired ==> backend.CountsFall()
    }

    /** Nothing is gone, and what is new stands behind what was there. */
    twostate predicate Onward()
      reads backend, backend.nodes
    {
      Grown(backend) && KeepsOrder()
    }

    /** What a session needs of the walk: it ends at a checkpoint of a prefix, past which nothing matches. */
    method Resume(ids: seq<int>) returns (node: StateNode<S>, rest: seq<int>)
      requires Valid()
      modifies backend`live, backend.nodes`activationCount
      ensures Valid() && At(node) && node.ids <= ids && rest == ids[|node.ids|..] && backend.live == node.state
      ensures forall c :: c in node.children ==> !(c.ids <= ids)
      ensures Onward()
      ensures rest == Rest(old(Cache(backend)), ids) && Stands(backend, Lookup(old(Cache(backend)), ids), node)
    {
      node, rest := backend.MatchAndLoadState(ids);
      forall m | m in backend.nodes && backend.Passes(m, node) == 1
        ensures m.parent != null && m.parent in backend.nodes && backend.FirstMatch(m, ids)
      {
        assert backend.Attached(m);
      }
      LookupShown(backend, node, ids);
    }

    /** Evaluate and checkpoint the chunks one after another (src/runtime.cpp:710-775). */
    method PrefillChunks(start: StateNode<S>, chunks: seq<TokenChunk>, ghost from: Cursor<S>)
      returns (node: StateNode<S>)
      requires At(start) && NoImages(chunks) && Stands(backend, from, start)
      requires forall i :: 0 <= i < |chunks| ==> chunks[i].tokens != []
      modifies backend, backend.nodes
      ensures At(node) && fresh(backend.nodes - old(backend.nodes)) && KeepsOrder()
      ensures Stands(backend, from.FeedAll(backend.step, Lists(chunks)), node)
      ensures backend.misfired == (old(backend.misfired) || from.Strays(backend.step, Lists(chunks)))
      ensures !backend.misfired ==> node.ids == start.ids + Tokens(chunks)
    {
      hide Cursor.FeedAll, Cursor.Strays, Cursor.Midway, Cursor.Feed, Cursor.Misfires, Stands, Tokens, Lists, At;
      hide NoImages, Fold, ExecutionProvider.Misfires;
      node := start;
      ghost var cursor, lists := from, Lists(chunks);
      var k := 0;
      NoTokens();
      assert chunks[0..] == chunks && chunks[..0] == [];
      from.Begin(backend.step, lists, backend.misfired);
      while k < |chunks|
        invariant 0 <= k <= |chunks| && At(node) && fresh(backend.nodes - old(backend.nodes)) && KeepsOrder()
        invariant Stands(backend, cursor, node) && (old(backend.misfired) ==> backend.misfired)
        invariant from.Midway(backend.step, lists, old(backend.misfired), cursor, Lists(chunks[k..]), backend.misfired)
        invariant !backend.misfired ==> node.ids == start.ids + Tokens(chunks[..k])
      {
        TokensNext(chunks, k);
        ListsFrom(chunks, k);
        ghost var tokens, left := chunks[k].tokens, Lists(chunks[k + 1..]);
        from.Advance(backend.step, lists, old(backend.misfired), cursor, tokens, left, backend.misfired);
        node := PrefillChunk(node, chunks[k].tokens, cursor);
        cursor := cursor.Feed(backend.step, tokens);
        k := k + 1;
      }
      assert chunks[..k] == chunks && chunks[k..] == [];
      from.Finish(backend.step, lists, old(backend.misfired), cursor, backend.misfired);
    }

    /** One chunk: evaluate it, then register the state reached (src/runtime.cpp:761-767). */
    method PrefillChunk(node: StateNode<S>, tokens: seq<int>, ghost cursor: Cursor<S>) returns (next: StateNode<S>)
      requires At(node) && tokens != [] && Stands(backend, cursor, node)
      modifies backend, backend.nodes
      ensures At(next) && fresh(backend.nodes - old(backend.nodes)) && Onward()
      ensures DuplicateAt(old(node.children), tokens) == |old(node.children)| ==>
        backend.nodes == old(backend.nodes) + {next} && node.children == old(node.children) + [next] && fresh(next)
      ensures Stands(backend, cursor.Feed(backend.step, tokens), next)
      ensures backend.misfired == (old(backend.misfired) || cursor.Misfires(tokens))
      ensures cursor.Misfires(tokens) == old(backend.Misfires(node, tokens))
      ensures !backend.misfired ==>
        next.ids == node.ids + tokens && next.state == Fold(backend.step, node.state, tokens)
    {
      hide ExecutionProvider.Valid, ExecutionProvider.Coherent, ExecutionProvider.CountsFall, Leads, Cache, Fold;
      hide ExecutionProvider.Misfires, Hung;
      EvalLogits(tokens);
      ghost var here := cursor.(live := backend.live);
      assert Stands(backend, here, node);
      next := Checkpoint(node, here, tokens, backend.live);
    }

    /** What a session needs of a registration of the right state. */
    method Checkpoint(node: StateNode<S>, ghost cursor: Cursor<S>, ids: seq<int>, state: S)
      returns (next: StateNode<S>)
      requires backend.Valid() && backend.Sound() && Counted() && node in backend.nodes && node.activationCount > 0
      requires !backend.misfired ==> state == Fold(backend.step, node.state, ids)
      requires Stands(backend, cursor, node)
      modifies backend`nodes, backend`bound, backend`misfired, backend.nodes
      ensures backend.Valid() && backend.Sound() && Counted() && next in backend.nodes && next.activationCount > 0
      ensures fresh(backend.nodes - old(backend.nodes)) && Onward()
      ensures DuplicateAt(old(node.children), ids) == |old(node.children)| ==>
        backend.nodes == old(backend.nodes) + {next} && node.children == old(node.children) + [next] && fresh(next)
      ensures Stands(backend, cursor.Register(ids, state), next) && backend.live == old(backend.live)
      ensures backend.misfired == (old(backend.misfired) || cursor.Misfires(ids))
      ensures cursor.Misfires(ids) == old(backend.Misfires(node, ids))
      ensures !backend.misfired ==> next.ids == node.ids + ids && next.state == state
    {
      hide ExecutionProvider.Valid, ExecutionProvider.Coherent, ExecutionProvider.CountsFall, Leads, Cache, Fold;
      hide ExecutionProvider.Misfires, Cursor.Misfires, Cursor.Register, Grown;
      next := backend.RegisterStateCheckpointWithState(node, ids, state);
      RegisterShown(backend, cursor.path, node, ids, state, next);
      RegistersGrow(backend, node, ids, state, next);
    }

    /** Bring the backend to the state of `text`, reusing the cache and leaving checkpoints
        (src/runtime.cpp:689-776). */
    method Prefill(text: Text) returns (node: StateNode<S>)
      requires Valid() && ImageFree(uid, text)
      modifies backend, backend.nodes
      ensures Valid() && At(node) && fresh(backend.nodes - old(backend.nodes)) && KeepsOrder()
      // what is left of the cache, and whether the duplicate test misfires, is decided by the cache before the call
      ensures Stands(backend, TheRules().Prefilled(old(Cache(backend)), text), node)
      ensures backend.misfired == (old(backend.misfired) || TheRules().PrefillStrays(old(Cache(backend)), text))
      // the checkpoint stands for exactly the text if and only if the prefill does not wander there
      ensures Decode(vocab, node.ids) == text <==> !TheRules().PrefillWanders(old(Cache(backend)), text)
      // if nothing has misfired it does, and the backend is in its state
      ensures !backend.misfired ==> Decode(vocab, node.ids) == text && backend.live == node.state
      // which is the state of re-evaluating, from the nearest loaded state or from scratch, all ids after it
      ensures !backend.misfired ==> Replayed(node, backend.live) && backend.Anchor(node) in backend.nodes
    {
      RootIds();
      hide ExecutionProvider.Valid, ExecutionProvider.Coherent, ExecutionProvider.CountsFall, Counted, Cache, Fold;
      hide Cursor.FeedAll, Cursor.Strays, Stands, TextPieces, Lookup, Rest, Rules.PrefillWanders, Lossless;
      hide Encode, Decode;
      ghost var t, pieces := Cache(backend), TheRules().ToPrefill(Cache(backend), text);
      var textIds := Encode(vocab, text);
      var toPrefill;
      node, toPrefill := Resume(textIds);
      MatchedText(text, node.ids, toPrefill);
      node := PrefillRest(node, toPrefill, Lookup(t, textIds), pieces);
      PrefillEnds(t, text, node);
      if !backend.misfired { backend.CheckpointIsReplay(node); }
    }

    /** The rest of a text, if there is one: back to text, into chunks (src/runtime.cpp:700-775). */
    method PrefillRest(start: StateNode<S>, rest: seq<int>, ghost cursor: Cursor<S>, ghost pieces: seq<seq<int>>)
      returns (node: StateNode<S>)
      requires At(start) && Stands(backend, cursor, start) && Lossless(vocab)
      requires Find(Decode(vocab, rest), StartTag(uid), 0) == -1
      requires pieces == if rest == [] then [] else TextPieces(vocab, Decode(vocab, rest), CHECKPOINT_INTERVAL)
      modifies backend, backend.nodes
      ensures At(node) && fresh(backend.nodes - old(backend.nodes)) && KeepsOrder()
      ensures Stands(backend, cursor.FeedAll(backend.step, pieces), node)
      ensures backend.misfired == (old(backend.misfired) || cursor.Strays(backend.step, pieces))
      ensures !backend.misfired ==> Decode(vocab, node.ids) == Decode(vocab, start.ids) + Decode(vocab, rest)
    {
      hide Cursor.FeedAll, Cursor.Strays, Stands, TextPieces, Tokens, SizesOk, At, Lossless, Encode;
      hide ExecutionProvider.Valid, ExecutionProvider.CountsFall;
      node := start;
      if rest != [] {
        var text := Decode(vocab, rest);
        hide Decode;
        var chunks;
        ghost var firsts, parts;
        chunks, firsts, parts := SplitTextByImageAndTokenNum(vocab, uid, text, CHECKPOINT_INTERVAL);
        assert Lists(chunks) == pieces;
        NoneEmpty(chunks, CHECKPOINT_INTERVAL, Encode(vocab, ASSISTANT));
        DecodeConcat(vocab, start.ids, Tokens(chunks));
        node := PrefillChunks(node, chunks, cursor);
      } else {
        assert Decode(vocab, start.ids) + [] == Decode(vocab, start.ids);
        cursor.Begin(backend.step, pieces, backend.misfired);
        cursor.Finish(backend.step, pieces, backend.misfired, cursor, backend.misfired);
      }
    }

    /** What the end of a prefill stands for, read off the value. */
    lemma PrefillEnds(t: Tree<S>, text: Text, node: StateNode<S>)
      requires Lossless(vocab) && t.ids == [] && Stands(backend, TheRules().Prefilled(t, text), node)
      ensures Decode(vocab, node.ids) == text <==> !TheRules().PrefillWanders(t, text)
    {
      hide Rules.Prefilled, Rules.PrefillWanders, Stands, Decode;
      StandsNode(backend, TheRules().Prefilled(t, text), node);
      TheRules().PrefilledSays(t, text);
    }

    /** `state` is that of `node`'s ids from its anchor, the nearest loaded state or the root, on. */
    ghost predicate Replayed(node: StateNode<S>, state: S) {
      var a := backend.Anchor(node);
      && (a == backend.root || a.isConstant) && a.ids <= node.ids
      && state == Fold(backend.step, a.state, node.ids[|a.ids|..])
    }

    /** Prefill of one sequence of a batch: the rest of the ids in pieces of 256, without a detour through
        the text (src/runtime.cpp:965-997). */
    method PrefillSequence(text: Text) returns (node: StateNode<S>)
      requires Valid()
      modifies backend, backend.nodes
      ensures Valid() && At(node) && fresh(backend.nodes - old(backend.nodes)) && Onward()
      ensures Stands(backend, TheRules().SequencePrefilled(old(Cache(backend)), text), node)
      ensures backend.misfired == (old(backend.misfired) || TheRules().SequenceStrays(old(Cache(backend)), text))
      ensures node.ids == Encode(vocab, text) <==> !TheRules().SequenceWanders(old(Cache(backend)), text)
      ensures !backend.misfired ==> node.ids == Encode(vocab, text)
    {
      RootIds();
      hide ExecutionProvider.Valid, ExecutionProvider.Sound, Counted, Stands, Encode, Lookup, Lossless, Pieces, Cache;
      hide ExecutionProvider.CountsFall, Cursor.FeedAll, Cursor.Strays, Rules.SequenceWanders, Grown, Longer;
      hide ChildLists, Rest;
      ghost var t, kids := Cache(backend), ChildLists(backend);
      var rest;
      node, rest := Resume(Encode(vocab, text));
      GrownIs(backend, kids);
      ghost var found := ChildLists(backend);
      Whole(node.ids, Encode(vocab, text));
      label Found:
      node := PrefillPieces(node, rest, Lookup(t, Encode(vocab, text)));
      GrownIs@Found(backend, found);
      LongerOn(kids, found, ChildLists(backend));
      GrownIs(backend, kids);
      SequenceEnds(t, text, node);
    }

    lemma Whole(front: seq<int>, ids: seq<int>)
      requires front <= ids
      ensures front + ids[|front|..] == ids
    {
    }

    lemma RootIds()
      requires backend.Valid()
      ensures Cache(backend).ids == []
    {
    }

    lemma SequenceEnds(t: Tree<S>, text: Text, node: StateNode<S>)
      requires t.ids == [] && Stands(backend, TheRules().SequencePrefilled(t, text), node)
      ensures node.ids == Encode(vocab, text) <==> !TheRules().SequenceWanders(t, text)
    {
      hide Rules.SequencePrefilled, Rules.SequenceWanders, Stands, Encode;
      StandsNode(backend, TheRules().SequencePrefilled(t, text), node);
      TheRules().SequenceIds(t, text);
    }

    /** Evaluate and checkpoint 256 tokens at a time (src/runtime.cpp:980-996). */
    method PrefillPieces(start: StateNode<S>, rest: seq<int>, ghost from: Cursor<S>) returns (node: StateNode<S>)
      requires At(start) && Stands(backend, from, start)
      modifies backend, backend.nodes
      ensures At(node) && fresh(backend.nodes - old(backend.nodes)) && Onward()
      ensures Stands(backend, from.FeedAll(backend.step, Pieces(rest, CHECKPOINT_INTERVAL)), node)
      ensures backend.misfired ==
        (old(backend.misfired) || from.Strays(backend.step, Pieces(rest, CHECKPOINT_INTERVAL)))
      ensures !backend.misfired ==> node.ids == start.ids + rest
    {
      hide Cursor.FeedAll, Cursor.Strays, Cursor.Midway, Cursor.Feed, Cursor.Misfires, Stands, Pieces, At;
      hide Fold, ExecutionProvider.Misfires;
      node := start;
      ghost var cursor, pieces := from, Pieces(rest, CHECKPOINT_INTERVAL);
      var j := 0;
      assert rest[0..] == rest && rest[..0] == [];
      from.Begin(backend.step, pieces, backend.misfired);
      while j < |rest|
        invariant 0 <= j <= |rest| && At(node) && fresh(backend.nodes - old(backend.nodes))
        invariant Onward() && Stands(backend, cursor, node) && (old(backend.misfired) ==> backend.misfired)
        invariant from.Midway(backend.step, pieces, old(backend.misfired), cursor,
                              Pieces(rest[j..], CHECKPOINT_INTERVAL), backend.misfired)
        invariant !backend.misfired ==> node.ids == start.ids + rest[..j]
      {
        var end := if j + CHECKPOINT_INTERVAL < |rest| then j + CHECKPOINT_INTERVAL else |rest|;
        ghost var left := Pieces(rest[end..], CHECKPOINT_INTERVAL);
        assert rest[..end] == rest[..j] + rest[j..end];
        PiecesFrom(rest, j, end, CHECKPOINT_INTERVAL);
        from.Advance(backend.step, pieces, old(backend.misfired), cursor, rest[j..end], left, backend.misfired);
        node := PrefillChunk(node, rest[j..end], cursor);
        cursor := cursor.Feed(backend.step, rest[j..end]);
        j := end;
      }
      assert rest[..j] == rest && rest[j..] == [];
      NoPiece(CHECKPOINT_INTERVAL);
      from.Finish(backend.step, pieces, old(backend.misfired), cursor, backend.misfired);
    }

    /** The states a batched chat starts from are those of its own texts, each kept apart from the others
        (src/runtime.cpp:961-1023). */
    method PrefillBatch(texts: seq<Text>) returns (nodes: seq<StateNode<S>>, states: seq<S>)
      requires Valid()
      modifies backend, backend.nodes
      ensures Valid() && fresh(backend.nodes - old(backend.nodes)) && |nodes| == |states| == |texts| && Onward()
      ensures Cache(backend) == TheRules().BatchPrefilled(old(Cache(backend)), texts)
      ensures backend.misfired == (old(backend.misfired) || TheRules().BatchStrays(old(Cache(backend)), texts))
      ensures AllLead(backend, TheRules().BatchPaths(old(Cache(backend)), texts), nodes)
      ensures states == TheRules().BatchStates(old(Cache(backend)), texts)
      // each sequence by itself: its ids are those of its text if and only if it does not wander in the tree it finds
      ensures forall o :: 0 <= o < |texts| ==>
        (nodes[o].ids == Encode(vocab, texts[o]) <==>
         !TheRules().SequenceWanders(TheRules().BatchPrefilled(old(Cache(backend)), texts[..o]), texts[o]))
      ensures !backend.misfired ==> forall o :: 0 <= o < |texts| ==>
        nodes[o].ids == Encode(vocab, texts[o]) && states[o] == nodes[o].state
    {
      hide Rules.SequencePrefilled, Rules.SequenceStrays, Rules.SequenceWanders, Rules.BatchPrefilled;
      hide Rules.BatchStrays, Stands, Encode, Counted, ExecutionProvider.Valid, ExecutionProvider.Sound, Lossless;
      hide Cache, Leads, Rules.BatchCursor, Rules.BatchPaths, Rules.BatchStates;
      TheRules().BatchNone(Cache(backend));
      assert texts[..0] == [];
      nodes, states := [], [];
      for o := 0 to |texts|
        invariant Valid() && fresh(backend.nodes - old(backend.nodes)) && |nodes| == |states| == o && Onward()
        invariant Cache(backend) == TheRules().BatchPrefilled(old(Cache(backend)), texts[..o])
        invariant backend.misfired == (old(backend.misfired) || TheRules().BatchStrays(old(Cache(backend)), texts[..o]))
        invariant Lined(old(Cache(backend)), texts, nodes, states)
        invariant forall k :: 0 <= k < o ==>
          (nodes[k].ids == Encode(vocab, texts[k]) <==>
           !TheRules().SequenceWanders(TheRules().BatchPrefilled(old(Cache(backend)), texts[..k]), texts[k]))
        invariant !backend.misfired ==> forall k :: 0 <= k < o ==>
          nodes[k].ids == Encode(vocab, texts[k]) && states[k] == nodes[k].state
      {
        TheRules().BatchNext(old(Cache(backend)), texts, o);
        nodes, states := PrefillNext(old(Cache(backend)), texts, nodes, states);
      }
      assert texts[..|texts|] == texts;
    }

    /** Sequences stand where the tree before the batch and the texts before them say. */
    ghost predicate Lined(t: Tree<S>, texts: seq<Text>, nodes: seq<StateNode<S>>, states: seq<S>)
      requires backend.Valid()
      reads backend`nodes, backend`bound, backend.nodes`children
    {
      && |nodes| == |states| <= |texts|
      && forall k :: 0 <= k < |nodes| ==>
        && nodes[k] in backend.nodes && Leads(backend, backend.root, TheRules().BatchCursor(t, texts, k).path, nodes[k])
        && states[k] == TheRules().BatchCursor(t, texts, k).live
    }

    /** One sequence more. */
    method PrefillNext(ghost t: Tree<S>, texts: seq<Text>, done: seq<StateNode<S>>, reached: seq<S>)
      returns (nodes: seq<StateNode<S>>, states: seq<S>)
      requires Valid() && |done| < |texts| && Lined(t, texts, done, reached)
      requires Cache(backend) == TheRules().BatchPrefilled(t, texts[..|done|])
      modifies backend, backend.nodes
      ensures Valid() && fresh(backend.nodes - old(backend.nodes)) && Onward()
      ensures |nodes| == |states| == |done| + 1 && nodes[..|done|] == done && states[..|done|] == reached
      ensures Cache(backend) == TheRules().SequencePrefilled(old(Cache(backend)), texts[|done|]).tree
      ensures backend.misfired ==
        (old(backend.misfired) || TheRules().SequenceStrays(old(Cache(backend)), texts[|done|]))
      ensures Lined(t, texts, nodes, states)
      ensures nodes[|done|].ids == Encode(vocab, texts[|done|]) <==>
        !TheRules().SequenceWanders(old(Cache(backend)), texts[|done|])
      ensures !backend.misfired ==>
        nodes[|done|].ids == Encode(vocab, texts[|done|]) && states[|done|] == nodes[|done|].state
    {
      hide Rules.SequencePrefilled, Rules.SequenceStrays, Rules.SequenceWanders, Rules.BatchPrefilled;
      hide Encode, Counted, ExecutionProvider.Valid, ExecutionProvider.Sound, Lossless, Cache, Leads;
      var o := |done|;
      ghost var cursor := TheRules().SequencePrefilled(Cache(backend), texts[o]);
      assert cursor == TheRules().BatchCursor(t, texts, o);
      label Before:
      var node := PrefillSequence(texts[o]);
      StandsCache(backend, cursor, node);
      forall k | 0 <= k < o
        ensures done[k] in backend.nodes
        ensures Leads(backend, backend.root, TheRules().BatchCursor(t, texts, k).path, done[k])
      {
        LeadsStays@Before(backend, backend.root, TheRules().BatchCursor(t, texts, k).path, done[k]);
      }
      nodes, states := done + [node], reached + [backend.live];
    }

    /** The end of a batched chat (src/runtime.cpp:1225-1243): register every response if the first has a token, then
        age the cache.  The new checkpoints of nodes in use are spared. */
    method Close(nodes: seq<StateNode<S>>, endings: seq<Ending<S>>, ghost paths: seq<Path>)
      returns (next: seq<StateNode<S>>)
      requires Valid() && 0 < |nodes| == |endings| && AllLead(backend, paths, nodes)
      modifies backend, backend.nodes
      ensures Valid() && fresh(backend.nodes - old(backend.nodes)) && backend.live == old(backend.live)
      ensures |paths| == |endings| && Cache(backend) == TheRules().BatchAnswered(old(Cache(backend)), paths, endings)
      ensures backend.misfired ==
        (old(backend.misfired) || TheRules().BatchMismatches(old(Cache(backend)), paths, endings))
      ensures endings[0].response == [] ==> next == []
      ensures endings[0].response != [] ==> |next| == |nodes| && forall o :: 0 <= o < |nodes| ==>
        && fresh(next[o]) && next[o].parent == nodes[o]
        && next[o].ids == nodes[o].ids + endings[o].Ids() && next[o].state == endings[o].Closing()
      ensures endings[0].response != [] && old(backend.CountsFall()) ==> forall o :: 0 <= o < |nodes| ==>
        old(nodes[o].activationCount) > 0 ==> next[o] in backend.nodes
    {
      assert |paths| == |nodes|;
      hide Valid, ExecutionProvider.Valid, ExecutionProvider.Survives, Cache, AllLead, HungAll, Mismatched, Cleaned;
      next := [];
      if endings[0].response != [] {
        next := RegisterResponses(nodes, endings, paths);
      } else {
        NothingHung(Cache(backend));
      }
      Age();
    }

    lemma NothingHung(t: Tree<S>)
      ensures HungAll(t, []) == t && !Mismatched(backend.step, t, [])
    {
    }

    /** The registration of all responses, without the last token where a state is held before it. */
    method RegisterResponses(nodes: seq<StateNode<S>>, endings: seq<Ending<S>>, ghost paths: seq<Path>)
      returns (next: seq<StateNode<S>>)
      requires Valid() && 0 < |nodes| == |endings| && AllLead(backend, paths, nodes) && endings[0].response != []
      modifies backend, backend.nodes
      ensures Valid() && fresh(backend.nodes - old(backend.nodes)) && backend.live == old(backend.live)
      ensures |paths| == |endings|
      ensures Cache(backend) == HungAll(old(Cache(backend)), TheRules().BatchClosings(paths, endings))
      ensures backend.misfired ==
        (old(backend.misfired) || TheRules().BatchMismatches(old(Cache(backend)), paths, endings))
      ensures |next| == |nodes| && forall o :: 0 <= o < |nodes| ==>
        && next[o] in backend.nodes && fresh(next[o]) && next[o].parent == nodes[o]
        && next[o].ids == nodes[o].ids + endings[o].Ids() && next[o].state == endings[o].Closing()
      ensures old(backend.CountsFall()) ==> forall o :: 0 <= o < |nodes| ==>
        old(nodes[o].activationCount) > 0 ==> backend.Survives(next[o])
    {
      hide ExecutionProvider.Valid, ExecutionProvider.Sound, ExecutionProvider.CountsFall, Cache, HungAll, Mismatched;
      hide Bumps, Leads;
      var ids, states := TheRules().EndingIds(endings), TheRules().EndingStates(endings);
      ghost var t := Cache(backend);
      label Before:
      var ok;
      ok, next := RegisterBatchStateCheckpoint(backend, nodes, states, ids, paths);
      forall o | 0 <= o < |nodes| ensures next[o] in backend.nodes { MembersIn(next, next[o]); }
      forall n | n in backend.nodes ensures n.activationCount >= 0 {
        if n !in old(backend.nodes) { MembersIn(next, n); }
      }
      forall o | old(backend.CountsFall()) && 0 <= o < |nodes| && old(nodes[o].activationCount) > 0
        ensures backend.Survives(next[o])
      {
        Spared@Before(nodes[o], next[o]);
      }
    }

    /** What a node in use is registered below survives with it. */
    twostate lemma Spared(new node: StateNode<S>, new next: StateNode<S>)
      requires old(backend.Valid()) && backend.Valid() && old(backend.CountsFall())
      requires node in old(backend.nodes) && old(node.activationCount) > 0 && old(backend.nodes) <= backend.nodes
      requires forall m :: m in old(backend.nodes) ==> m.activationCount >= old(m.activationCount)
      requires next in backend.nodes && next != backend.root && next.parent == node && next.activationCount > 0
      ensures backend.Survives(next)
    {
      assert backend.Attached(next);
      if node != backend.root { backend.SurvivesAlone(node); }
      backend.SurvivesMore(node);
    }

    /** A whole batched chat, but for the decoding: `decode` says what that leaves for each sequence
        (src/runtime.cpp:908-1246). */
    method ChatBatch(texts: seq<Text>, decode: (seq<S>, nat, S) -> Ending<S>)
      returns (nodes: seq<StateNode<S>>, endings: seq<Ending<S>>, next: seq<StateNode<S>>)
      requires Valid() && texts != []
      modifies backend, backend.nodes
      ensures Valid() && fresh(backend.nodes - old(backend.nodes))
      ensures endings == TheRules().Endings(old(Cache(backend)), texts, decode)
      ensures Cache(backend) ==
        TheRules().BatchAnswered(TheRules().BatchPrefilled(old(Cache(backend)), texts),
                                 TheRules().BatchPaths(old(Cache(backend)), texts), endings)
      ensures backend.misfired ==
        (old(backend.misfired) || TheRules().BatchStrays(old(Cache(backend)), texts) ||
         TheRules().BatchMismatches(TheRules().BatchPrefilled(old(Cache(backend)), texts),
                                    TheRules().BatchPaths(old(Cache(backend)), texts), endings))
    {
      hide Rules.BatchPrefilled, Rules.BatchStrays, Rules.BatchMismatches, Rules.BatchAnswered, Rules.BatchPaths;
      hide Rules.BatchStates, Encode, ExecutionProvider.Valid, ExecutionProvider.Sound, Cache, AllLead, Lossless;
      hide Counted;
      ghost var paths := TheRules().BatchPaths(Cache(backend), texts);
      var states;
      nodes, states := PrefillBatch(texts);
      endings := seq(|texts|, o requires 0 <= o < |texts| == |states| => decode(states, o, states[o]));
      next := Close(nodes, endings, paths);
    }

    /** The decoding loop of src/runtime.cpp:807-882.  The tokens drawn by the sampler and the stop
        signal of other threads are functions of the step.  A held state is always the state
        just before the last token, whichever way the loop ends. */
    method Generate(d: Draws) returns (response: seq<int>, held: Option<S>)
      modifies backend`live, this`responseBuffer, this`responseIds, this`eosFound
      // the response is the draws up to the first that ends it, which is what the session as a value says
      ensures Answers(vocab, settings, d, old(responseBuffer), response)
      ensures response == Reply(vocab, settings, d, old(responseBuffer), false, 0)
      ensures Replied(old(backend.live), response, held)
      ensures Told(old(responseBuffer), old(responseIds), d, response)
    {
      hide StopCodeFound, Fold, Find, Decode, IsRewindToken, Heard, Over, ThoughtOver, Begins, Answers, Reply, Replied;
      hide ClosesThought, Told;
      response, held, eosFound := [], None, false;
      ghost var start := responseBuffer;
      NothingSaidYet(d);
      var thinkingEnded := false;
      var i := 0;
      while i < d.maxLength
        invariant |response| == i <= d.maxLength && !eosFound && responseIds == old(responseIds) + response
        invariant Begins(vocab, settings, d, start, response) && responseBuffer == Heard(vocab, start, response)
        invariant thinkingEnded == (d.reasoning && ThoughtOver(vocab, start, response))
        invariant Replied(old(backend.live), response, held)
      {
        var token := d.draw(i);
        if token == 0 { break; }
        SpeaksOn(d, start, response, thinkingEnded);
        var said, stop := Judge(d, i, token, thinkingEnded);
        if d.reasoning && !thinkingEnded && Find(said, END_OF_THINKING, 0) != -1 { thinkingEnded := true; }
        if stop { break; }
        held := EvalToken(response, held, token, old(backend.live));
        response := response + [token];
        responseBuffer, responseIds := said, responseIds + [token];
        if i == 0 && said != [] && said[0] == SPACE { responseBuffer := said[1..]; }
        i := i + 1;
      }
      HasAnswered(d, start, old(responseIds), response);
    }

    lemma NothingSaidYet(d: Draws)
      ensures Replied(backend.live, [], None) && Begins(vocab, settings, d, responseBuffer, [])
      ensures responseBuffer == Heard(vocab, responseBuffer, []) && !ThoughtOver(vocab, responseBuffer, [])
    {
      FoldNone(backend.step, backend.live);
    }

    /** One more token, unless it ends the response. */
    lemma SpeaksOn(d: Draws, start: Text, response: seq<int>, ended: bool)
      requires |response| < d.maxLength && d.draw(|response|) != 0 && Begins(vocab, settings, d, start, response)
      requires ended == (d.reasoning && ThoughtOver(vocab, start, response))
      ensures var token, i := d.draw(|response|), |response|;
        var said, next := Heard(vocab, start, response) + Decode(vocab, [token]), response + [token];
        !StopCodeFound(said, settings.stopCodes, d.reasoning && !ended) && !d.stopSignal(i) ==>
          && Begins(vocab, settings, d, start, next)
          && Heard(vocab, start, next) == (if i == 0 then Unspaced(said) else said)
          && (ThoughtOver(vocab, start, next) <==>
              ThoughtOver(vocab, start, response) || Find(said, END_OF_THINKING, 0) != -1)
    {
      hide StopCodeFound, Find, Decode, Heard, Over, ThoughtOver, Begins, Unspaced;
      OverIs(vocab, settings, d, start, response, ended);
      HeardNext(vocab, start, response, d.draw(|response|));
      ThoughtNext(vocab, start, response, d.draw(|response|));
      if !Over(vocab, settings, d, start, response) { BeginsNext(vocab, settings, d, start, response); }
    }

    lemma HasAnswered(d: Draws, start: Text, ids: seq<int>, response: seq<int>)
      requires Begins(vocab, settings, d, start, response) && responseIds == ids + response
      requires responseBuffer == Heard(vocab, start, response)
      requires eosFound <==> |response| < d.maxLength && d.draw(|response|) != 0 && StopsAt(d, start, response)
      requires |response| == d.maxLength || d.draw(|response|) == 0 || eosFound || d.stopSignal(|response|)
      ensures Answers(vocab, settings, d, start, response) && Told(start, ids, d, response)
      ensures response == Reply(vocab, settings, d, start, false, 0)
    {
      hide StopCodeFound, Find, Decode, Heard, ThoughtOver, Begins, Reply;
      OverIs(vocab, settings, d, start, response, d.reasoning && ThoughtOver(vocab, start, response));
      ReplyAnswers(vocab, settings, d, start);
      OneAnswer(vocab, settings, d, start, response, Reply(vocab, settings, d, start, false, 0));
    }

    /** The next token completes a stop code. */
    ghost predicate StopsAt(d: Draws, start: Text, response: seq<int>) {
      StopCodeFound(Heard(vocab, start, response) + Decode(vocab, [d.draw(|response|)]), settings.stopCodes,
                    d.reasoning && !ThoughtOver(vocab, start, response))
    }

    /** What the user reads and its ids, after `start` and `ids`, and whether a stop code has ended the response. */
    ghost predicate Told(start: Text, ids: seq<int>, d: Draws, response: seq<int>)
      reads this`responseBuffer, this`responseIds, this`eosFound
    {
      && responseBuffer == Heard(vocab, start, response) && responseIds == ids + response
      && (eosFound <==> |response| < d.maxLength && d.draw(|response|) != 0 && StopsAt(d, start, response))
    }

    /** What would be said, and whether it ends the response (src/runtime.cpp:831-859). */
    method Judge(d: Draws, i: nat, token: int, thinkingEnded: bool) returns (said: Text, stop: bool)
      modifies this`eosFound
      ensures said == responseBuffer + Decode(vocab, [token])
      ensures eosFound == StopCodeFound(said, settings.stopCodes, d.reasoning && !thinkingEnded)
      ensures stop == (eosFound || d.stopSignal(i))
    {
      said := responseBuffer + Decode(vocab, [token]);
      eosFound := EndsInStopCode(said, d.reasoning && !thinkingEnded);
      stop := eosFound || d.stopSignal(i);
    }

    /** The search for a stop code at the end (src/runtime.cpp:835-845). */
    method EndsInStopCode(text: Text, skipBlankLine: bool) returns (found: bool)
      ensures found <==> StopCodeFound(text, settings.stopCodes, skipBlankLine)
    {
      for i := 0 to |settings.stopCodes|
        invariant forall k :: 0 <= k < i ==>
          (skipBlankLine && settings.stopCodes[k] == BLANK_LINE) || !EndsWith(text, settings.stopCodes[k])
      {
        var code := settings.stopCodes[i];
        if skipBlankLine && code == BLANK_LINE { continue; }
        if |text| >= |code| && text[|text| - |code|..] == code { return true; }
      }
      return false;
    }

    /** The live state is that after the response, a held state that before its last token, a rewind token. */
    ghost predicate Replied(from: S, response: seq<int>, held: Option<S>)
      reads backend`live
    {
      && backend.live == Fold(backend.step, from, response)
      && (held.Some? <==> response != [] && IsRewindToken(response[|response| - 1]))
      && (held.Some? ==> held.value == Fold(backend.step, from, response[..|response| - 1]))
    }

    /** Evaluate one token, holding the state before a rewind token (src/runtime.cpp:860-875). */
    method EvalToken(ghost response: seq<int>, ghost before: Option<S>, token: int, ghost from: S)
      returns (held: Option<S>)
      requires Replied(from, response, before)
      modifies backend`live
      ensures Replied(from, response + [token], held)
    {
      held := if IsRewindToken(token) then Some(backend.live) else None;
      FoldConcat(backend.step, from, response, [token]);
      assert (response + [token])[..|response|] == response;
      backend.Eval([token]);
    }

    /** One whole chat (src/runtime.cpp:666-906): prefill the templated dialogue, decode a response,
        checkpoint it without a trailing rewind token, age the cache. */
    method Chat(inputs: seq<Text>, d: Draws)
      returns (response: seq<int>, ghost prefilled: StateNode<S>, ghost final: StateNode<S>)
      requires Valid() && inputs != []
      requires ImageFree(uid, ApplyChatTemplate(settings, prompt, inputs, d.reasoning))
      modifies this`responseBuffer, this`responseIds, this`eosFound, backend, backend.nodes
      ensures Valid() && fresh(backend.nodes - old(backend.nodes))
      ensures KeepsOrder()
      // response and cache are those of the session as a value, decided before the call
      ensures var text := ApplyChatTemplate(settings, prompt, inputs, d.reasoning);
        var c := TheRules().Prefilled(old(Cache(backend)), text);
        && response == TheRules().ReplyTo(text, d) && Cache(backend) == TheRules().Answered(c, response)
        && backend.misfired ==
          (old(backend.misfired) || TheRules().PrefillStrays(old(Cache(backend)), text) ||
           TheRules().AnswerStrays(c, response))
      // the response is the draws up to the first that ends it, and the user reads what it stands for
      ensures var start := ResponsePart(settings, ApplyChatTemplate(settings, prompt, inputs, d.reasoning));
        Answers(vocab, settings, d, start, response) && Told(start, Encode(vocab, start), d, response)
      // the checkpoints are those of the templated text, and of text and response, if and only if nothing wanders there
      ensures var text := ApplyChatTemplate(settings, prompt, inputs, d.reasoning);
        var c := TheRules().Prefilled(old(Cache(backend)), text);
        && (Decode(vocab, prefilled.ids) == text <==> !TheRules().PrefillWanders(old(Cache(backend)), text))
        && (final.ids == prefilled.ids + Spoken(response) <==> !TheRules().AnswerWanders(c, response))
      // the prefilled checkpoint stands for the templated text, the backend for text and response
      ensures !backend.misfired ==>
        && Decode(vocab, prefilled.ids) == ApplyChatTemplate(settings, prompt, inputs, d.reasoning)
        && Replayed(prefilled, prefilled.state)
        && backend.live == Fold(backend.step, prefilled.state, response)
      // the checkpoint of the response is coherent, and if counts fall it outlives the cleanup that ends the chat
      ensures !backend.misfired ==>
        && (old(backend.CountsFall()) ==> final in backend.nodes) && final.ids == prefilled.ids + Spoken(response)
        && final.state == Fold(backend.step, prefilled.state, Spoken(response))
    {
      hide Rules.Prefilled, Rules.PrefillStrays, Rules.PrefillWanders, Rules.Answered, Rules.AnswerStrays;
      hide Rules.AnswerWanders, Stands, Replayed, RFind, ImageFree, Spoken, ApplyChatTemplate, Reply, Encode, Decode;
      hide Answers;
      hide ExecutionProvider.Valid, ExecutionProvider.CountsFall, Counted, Cache, Fold, Lossless, Told;
      var text := Templated(inputs, d.reasoning);
      var node := Prefill(text);
      prefilled := node;
      TemplateHasRole(settings, prompt, inputs, d.reasoning);
      var tag := settings.responseRole + [58];
      responseBuffer := text[RFind(text, tag, |text| + 1) + |tag|..];
      responseIds := Encode(vocab, responseBuffer);
      response, node := Respond(node, d, TheRules().Prefilled(old(Cache(backend)), text));
      final := node;
    }

    /** The text of a dialogue, turn by turn (src/runtime.cpp:522-545). */
    method Templated(inputs: seq<Text>, reasoning: bool) returns (text: Text)
      ensures text == ApplyChatTemplate(settings, prompt, inputs, reasoning)
    {
      hide Turns;
      text := prompt;
      NoTurns(inputs);
      for i := 0 to |inputs|
        invariant text == prompt + Turns(settings, inputs, i)
      {
        TurnIs(inputs, i);
        if i % 2 == 0 {
          text := text + (settings.bos + settings.userRole + [58, 32] + inputs[i] + settings.eos);
        } else if i == |inputs| - 1 {
          text := text + (settings.bos + settings.responseRole + [58, 32] + inputs[i]);
        } else {
          text := text + (settings.bos + settings.responseRole + [58, 32] + inputs[i] + settings.eos);
        }
      }
      AllTurns(inputs, reasoning);
      if |inputs| % 2 != 0 {
        text := text + (settings.responseRole + [58]);
        if reasoning { text := text + ([32] + settings.thinkingToken); }
      }
    }

    lemma NoTurns(inputs: seq<Text>)
      ensures prompt + Turns(settings, inputs, 0) == prompt
    {
    }

    /** One more turn behind the prompt and those before. */
    lemma TurnIs(inputs: seq<Text>, i: nat)
      requires i < |inputs|
      ensures prompt + Turns(settings, inputs, i + 1) == prompt + Turns(settings, inputs, i) +
        if i % 2 == 0 then settings.bos + settings.userRole + [58, 32] + inputs[i] + settings.eos
        else if i == |inputs| - 1 then settings.bos + settings.responseRole + [58, 32] + inputs[i]
        else settings.bos + settings.responseRole + [58, 32] + inputs[i] + settings.eos
    {
      LastTurn(settings, inputs, i + 1);
      hide Turns;
      var said := settings.bos + settings.responseRole + [58, 32] + inputs[i];
      assert said + [] == said;
    }

    lemma AllTurns(inputs: seq<Text>, reasoning: bool)
      ensures ApplyChatTemplate(settings, prompt, inputs, reasoning) ==
        if |inputs| % 2 == 0 then prompt + Turns(settings, inputs, |inputs|)
        else if reasoning then
          prompt + Turns(settings, inputs, |inputs|) + (settings.responseRole + [58]) + ([32] + settings.thinkingToken)
        else
          prompt + Turns(settings, inputs, |inputs|) + (settings.responseRole + [58])
    {
      hide Turns;
      var front, tag := prompt + Turns(settings, inputs, |inputs|), settings.responseRole + [58];
      assert front + [] == front && tag + [] == tag;
      assert front + (tag + ([32] + settings.thinkingToken)) == front + tag + ([32] + settings.thinkingToken);
    }

    /** Decode, checkpoint the response, age the cache (src/runtime.cpp:807-903). */
    method Respond(node: StateNode<S>, d: Draws, ghost cursor: Cursor<S>)
      returns (response: seq<int>, next: StateNode<S>)
      requires Valid() && At(node) && Stands(backend, cursor, node)
      modifies this`responseBuffer, this`responseIds, this`eosFound, backend, backend.nodes
      ensures Valid() && fresh(backend.nodes - old(backend.nodes))
      ensures KeepsOrder()
      ensures response == Reply(vocab, settings, d, old(responseBuffer), false, 0)
      ensures Cache(backend) == TheRules().Answered(cursor, response)
      ensures backend.misfired == (old(backend.misfired) || TheRules().AnswerStrays(cursor, response))
      ensures next.ids == node.ids + Spoken(response) <==> !TheRules().AnswerWanders(cursor, response)
      ensures Answers(vocab, settings, d, old(responseBuffer), response)
      ensures Told(old(responseBuffer), old(responseIds), d, response)
      ensures !backend.misfired ==>
        && backend.live == Fold(backend.step, node.state, response)
        && (old(backend.CountsFall()) ==> next in backend.nodes) && next.ids == node.ids + Spoken(response)
        && next.state == Fold(backend.step, node.state, Spoken(response))
    {
      hide Told, Answers;
      var held;
      response, held := Generate(d);
      next := Conclude(node, response, held, cursor);
    }

    /** Checkpoint what was said, if anything was, and age the cache (src/runtime.cpp:884-903). */
    method Conclude(node: StateNode<S>, response: seq<int>, held: Option<S>, ghost cursor: Cursor<S>)
      returns (next: StateNode<S>)
      requires Valid() && node in backend.nodes && node.activationCount > 0
      requires Stands(backend, cursor.(live := backend.live), node) && (!backend.misfired ==> cursor.live == node.state)
      requires Replied(cursor.live, response, held)
      modifies backend, backend.nodes
      ensures Valid() && fresh(backend.nodes - old(backend.nodes)) && backend.live == old(backend.live)
      ensures KeepsOrder()
      ensures Cache(backend) == TheRules().Answered(cursor, response)
      ensures backend.misfired == (old(backend.misfired) || TheRules().AnswerStrays(cursor, response))
      ensures next.ids == node.ids + Spoken(response) <==> !TheRules().AnswerWanders(cursor, response)
      ensures !backend.misfired ==>
        && (old(backend.CountsFall()) ==> next in backend.nodes) && next.ids == node.ids + Spoken(response)
        && next.state == Fold(backend.step, node.state, Spoken(response))
    {
      next := node;
      if response != [] {
        next := RegisterResponse(node, response, held, cursor);
      } else {
        assert node.ids + [] == node.ids;
      }
      Age();
    }

    /** The cleanup that ends a chat spares what survives it, a checkpoint in use if counts fall. */
    method Age()
      requires Valid()
      modifies backend`nodes, backend.nodes
      ensures Valid() && backend.nodes <= old(backend.nodes) && KeepsOrder()
      ensures forall n :: n in old(backend.nodes) && old(backend.Survives(n)) ==> n in backend.nodes
      ensures old(backend.CountsFall()) ==>
        forall n :: n in old(backend.nodes) && old(n.activationCount) > 0 ==> n in backend.nodes
      ensures Cache(backend) == Cleaned(old(Cache(backend)))
    {
      backend.CleanupStateTree();
      CleanupShown(backend);
    }

    /** The registration after the loop (src/runtime.cpp:884-898). */
    method RegisterResponse(node: StateNode<S>, response: seq<int>, held: Option<S>, ghost cursor: Cursor<S>)
      returns (next: StateNode<S>)
      requires Valid() && node in backend.nodes && node.activationCount > 0 && response != []
      requires Stands(backend, cursor.(live := backend.live), node) && (!backend.misfired ==> cursor.live == node.state)
      requires Replied(cursor.live, response, held)
      modifies backend, backend.nodes
      ensures Valid() && next in backend.nodes && next.activationCount > 0 && fresh(backend.nodes - old(backend.nodes))
      ensures KeepsOrder()
      ensures backend.live == old(backend.live)
      ensures Cache(backend) ==
        cursor.Register(Spoken(response), Fold(backend.step, cursor.live, Spoken(response))).tree
      ensures backend.misfired == (old(backend.misfired) || cursor.Misfires(Spoken(response)))
      ensures next.ids == node.ids + Spoken(response) <==> !TheRules().AnswerWanders(cursor, response)
      ensures !backend.misfired ==>
        && next.ids == node.ids + Spoken(response)
        && next.state == Fold(backend.step, node.state, Spoken(response))
    {
      var ids, state := response, backend.live;
      if held.Some? { ids, state := response[..|response| - 1], held.value; }
      ghost var here := cursor.(live := backend.live);
      StandsNode(backend, here, node);
      TheRules().AnsweredIds(here, response, state);
      next := Checkpoint(node, here, ids, state);
      StandsNode(backend, here.Register(ids, state), next);
    }

    /** Setting a prompt (src/runtime.cpp:1248-1279) evaluates all its ids on top of the matched
        checkpoint, whose ids they already include: the result stands for the prompt itself only when
        the match covers everything or nothing. */
    method SetPrompt(text: Text) returns (ghost matched: StateNode<S>, ghost final: StateNode<S>)
      requires Valid()
      modifies this`prompt, backend, backend.nodes
      ensures Valid() && fresh(backend.nodes - old(backend.nodes))
      ensures KeepsOrder()
      ensures backend.misfired == old(backend.misfired) && Value() == TheRules().After(old(Value()), Prompt(text))
      ensures text == [] ==>
        prompt == old(prompt) && backend.live == old(backend.live) && backend.nodes == old(backend.nodes)
      ensures text != [] ==>
        && matched in old(backend.nodes) && matched.ids <= Encode(vocab, text)
        && (forall c :: c in old(matched.children) ==> !(c.ids <= Encode(vocab, text)))
        && prompt == (if matched.ids == Encode(vocab, text) then old(prompt) else text)
      ensures text != [] && !backend.misfired ==>
        && final in backend.nodes && backend.live == final.state
        && (matched.ids == Encode(vocab, text) ==> final == matched && backend.nodes == old(backend.nodes))
        && (matched.ids != Encode(vocab, text) ==>
          && backend.nodes == old(backend.nodes) + {final} && matched.children == old(matched.children) + [final]
          && final.ids == matched.ids + Encode(vocab, text)
          && final.state == Fold(backend.step, matched.state, Encode(vocab, text)))
        && (Decode(vocab, final.ids) == text <==> matched.ids == [] || matched.ids == Encode(vocab, text))
    {
      hide Rules.After, Stands, Lookup, Rest, Encode, Decode, Fold;
      TheRules().AfterPrompt(Value(), text);
      var ids := Encode(vocab, text);
      DecodeEncode(vocab, text);
      EncodedEmpty(vocab, text);
      matched, final := backend.root, backend.root;
      if ids == [] { return; }
      ghost var cursor := Lookup(old(Cache(backend)), ids);
      var node, rest := Resume(ids);
      StandsCache(backend, cursor, node);
      matched, final := node, node;
      DecodePrompt(matched.ids, text);
      if rest == [] { return; }
      prompt := text;
      assert DuplicateAt(node.children, ids) == |node.children|;
      ghost var last := PrefillChunk(node, ids, cursor);
      StandsCache(backend, cursor.Feed(backend.step, ids), last);
      final := last;
    }

    /** Loading a state file hangs its state, as a constant, under the root (src/runtime.cpp:343-390).
        `file` is what the reader makes of it, None when it does not fit the model. */
    method LoadInitialState(path: Text, file: Option<S>) returns (ok: bool)
      requires Valid()
      modifies backend, backend.root`children
      ensures Valid() && fresh(backend.nodes - old(backend.nodes)) && backend.misfired == old(backend.misfired)
      ensures KeepsOrder()
      ensures Value() == TheRules().After(old(Value()), Load(path, file))
      ensures var ids := Encode(vocab, STATE_TAG + path + STATE_TAG_END);
        var known := DuplicateAt(old(backend.root.children), ids) < |old(backend.root.children)|;
        && ok == (Find(path, RMPACK, 0) != -1 && (known || file.Some?))
        && if ok && !known then
          HungLast(ids) && backend.live == file.value
        else
          backend.nodes == old(backend.nodes) && backend.live == old(backend.live)
          && backend.root.children == old(backend.root.children)
    {
      TheRules().AfterLoad(Value(), path, file);
      TopKids(Encode(vocab, STATE_TAG + path + STATE_TAG_END));
      hide Rules.After, Encode, Find, Counted, Cache, Lossless, ExecutionProvider.CountsFall, ExecutionProvider.Sound;
      if Find(path, RMPACK, 0) == -1 { return false; }
      var ids := Encode(vocab, STATE_TAG + path + STATE_TAG_END);
      var k := FindDuplicate(backend.root.children, ids);
      if k < |backend.root.children| { return true; }
      if file.None? { return false; }
      HangConstant(ids, file.value);
      return true;
    }

    /** The duplicate test over the loaded states and first checkpoints, in the cache and in its value. */
    lemma TopKids(ids: seq<int>)
      requires Valid()
      ensures |Cache(backend).kids| == |backend.root.children|
      ensures FirstSame(Cache(backend).kids, ids) == DuplicateAt(backend.root.children, ids)
    {
      FirstSameIs(backend.root.children, Cache(backend).kids, ids);
    }

    /** A new constant stands behind the children of the root, with the live state and a count of 50. */
    twostate predicate HungLast(ids: seq<int>)
      reads backend`nodes, backend`live, backend.root, backend.root.children
    {
      && |backend.root.children| == |old(backend.root.children)| + 1
      && backend.root.children[..|old(backend.root.children)|] == old(backend.root.children)
      && var node := backend.root.children[|old(backend.root.children)|];
        && backend.nodes == old(backend.nodes) + {node} && fresh(node)
        && node.ids == ids && node.isConstant && node.children == [] && node.activationCount == 50
        && node.state == backend.live
    }

    /** A state becomes the live one, and a constant below the root (src/runtime.cpp:385-388). */
    method HangConstant(ids: seq<int>, state: S)
      requires Valid()
      modifies backend`live, backend`nodes, backend`bound, backend.root`children
      ensures Valid() && HungLast(ids) && backend.live == state && KeepsOrder()
      ensures Cache(backend) ==
        old(Cache(backend)).(kids := old(Cache(backend)).kids + [Tree(ids, state, true, 50, [])])
    {
      backend.live := state;
      var node := new StateNode(ids, state, true, 50, backend.root);
      backend.Attach(backend.root, node);
      AttachShown(backend, node);
    }

    /** Unloading erases the first such child of the root, with all that grew on it (src/runtime.cpp:392-405). */
    method UnloadInitialState(path: Text)
      requires Valid()
      modifies backend`nodes, backend.root`children
      ensures Valid() && Value() == TheRules().After(old(Value()), Unload(path))
      ensures KeepsOrder()
      ensures var children, ids := old(backend.root.children), Encode(vocab, STATE_TAG + path + STATE_TAG_END);
        var k := DuplicateAt(children, ids);
        if k < |children| then
          TopErased(k)
        else
          backend.nodes == old(backend.nodes) && backend.root.children == children
    {
      TheRules().AfterUnload(Value(), path);
      TopKids(Encode(vocab, STATE_TAG + path + STATE_TAG_END));
      hide Rules.After, Encode;
      var k := FindDuplicate(backend.root.children, Encode(vocab, STATE_TAG + path + STATE_TAG_END));
      if k < |backend.root.children| {
        EraseTop(k);
      }
    }

    /** One child of the root is gone, with its subtree, and nothing else. */
    twostate predicate TopErased(k: nat)
      reads backend`nodes, backend.root`children
    {
      && k < |old(backend.root.children)|
      && backend.nodes == old(set n | n in backend.nodes && !Under(backend.root.children[k], n))
      && backend.root.children == old(backend.root.children[..k] + backend.root.children[k + 1..])
    }

    method EraseTop(k: nat)
      requires Valid() && k < |backend.root.children|
      modifies backend`nodes, backend.root`children
      ensures Valid() && TopErased(k) && KeepsOrder()
      ensures k < |old(Cache(backend)).kids|
      ensures Cache(backend) ==
        old(Cache(backend)).(kids := old(Cache(backend)).kids[..k] + old(Cache(backend)).kids[k + 1..])
    {
      backend.EraseTopChild(k);
      EraseShown(backend, k);
    }

    /** A chat, unless its text opens an image tag. */
    method Converse(inputs: seq<Text>, d: Draws)
      requires Valid()
      modifies this`responseBuffer, this`responseIds, this`eosFound, backend, backend.nodes
      ensures Valid() && fresh(backend.nodes - old(backend.nodes))
      ensures Value() == TheRules().After(old(Value()), Command.Converse(inputs, d))
      ensures backend.misfired ==
        (old(backend.misfired) || TheRules().Strays(old(Value()), Command.Converse(inputs, d)))
    {
      hide Rules.After, Rules.Strays, Rules.Speaks, Rules.Prefilled, Rules.PrefillStrays, Rules.Answered, Find;
      hide Rules.AnswerStrays, Counted, ExecutionProvider.Valid, ExecutionProvider.Sound, Lossless, Cache;
      hide ApplyChatTemplate, ImageFree, Told, Answers, Replayed, Fold, Spoken, Encode, Decode, ResponsePart;
      hide Rules.PrefillWanders, Rules.AnswerWanders, ExecutionProvider.CountsFall;
      TheRules().ConverseIs(Value(), inputs, d);
      var text := Templated(inputs, d.reasoning);
      if inputs == [] || Find(text, StartTag(uid), 0) != -1 { return; }
      NoTag(text);
      var response;
      ghost var prefilled, final;
      response, prefilled, final := Chat(inputs, d);
    }

    lemma NoTag(text: Text)
      requires Find(text, StartTag(uid), 0) == -1
      ensures ImageFree(uid, text)
    {
    }

    /** One call; a chat whose text opens an image tag is passed over. */
    method Execute(command: Command<S>)
      requires Valid()
      modifies this, backend, backend.nodes
      ensures Valid() && fresh(backend.nodes - old(backend.nodes))
      ensures Value() == TheRules().After(old(Value()), command)
      ensures backend.misfired == (old(backend.misfired) || TheRules().Strays(old(Value()), command))
    {
      assert backend.root in backend.nodes;
      hide Counted, ExecutionProvider.Valid, ExecutionProvider.Sound, Lossless, Cache;
      match command {
        case Prompt(text) =>
          ghost var matched, final := SetPrompt(text);
        case Converse(inputs, d) =>
          Converse(inputs, d);
        case Batch(texts, decode) =>
          if texts != [] { var nodes, endings, next := ChatBatch(texts, decode); }
        case Load(path, file) =>
          var ok := LoadInitialState(path, file);
        case Unload(path) =>
          UnloadInitialState(path);
      }
    }

    /** Over every run: the session is what the calls make of it as a value, the duplicate test misfires exactly when
        one of them strays there, and if none does every checkpoint is the re-evaluation from the nearest loaded
        state, or from scratch, of the ids after it. */
    method Run(commands: seq<Command<S>>)
      requires Valid()
      modifies this, backend, backend.nodes
      ensures Valid() && fresh(backend.nodes - old(backend.nodes))
      ensures Value() == TheRules().AfterAll(old(Value()), commands)
      ensures backend.misfired == (old(backend.misfired) || TheRules().StraysIn(old(Value()), commands))
      ensures !backend.misfired ==>
        forall n :: n in backend.nodes ==> Replayed(n, n.state) && backend.Anchor(n) in backend.nodes
    {
      hide Rules.After, Rules.Strays;
      for i := 0 to |commands|
        invariant Valid() && fresh(backend.nodes - old(backend.nodes))
        invariant Value() == TheRules().AfterAll(old(Value()), commands[..i])
        invariant backend.misfired == (old(backend.misfired) || TheRules().StraysIn(old(Value()), commands[..i]))
      {
        assert commands[..i + 1][..i] == commands[..i];
        Execute(commands[i]);
      }
      assert commands[..|commands|] == commands;
      if !backend.misfired {
        forall n | n in backend.nodes ensures Replayed(n, n.state) && backend.Anchor(n) in backend.nodes {
          backend.CheckpointIsReplay(n);
        }
      }
    }

    /** Ids followed by all the ids of a text decode to the text only when there are none of the former. */
    lemma DecodePrompt(front: seq<int>, text: Text)
      requires Lossless(vocab) && front <= Encode(vocab, text)
      ensures Decode(vocab, Encode(vocab, text)) == text
      ensures Decode(vocab, front + Encode(vocab, text)) == text <==> front == []
    {
      DecodeEncode(vocab, text);
      DecodeConcat(vocab, front, Encode(vocab, text));
      if front == [] {
        assert [] + text == text;
      } else {
        var k := Longest(vocab, text);
        DecodeConcat(vocab, [vocab[k].id], front[1..]);
        assert [vocab[k].id] + front[1..] == front;
        DecodeOne(vocab, vocab[k].id);
        DataOfLine(vocab, k);
      }
    }

    /** Splitting the ids splits the text, and no image tag appears in the rest. */
    lemma MatchedText(text: Text, ids: seq<int>, rest: seq<int>)
      requires Lossless(vocab) && ImageFree(uid, text)
      requires ids <= Encode(vocab, text) && rest == Encode(vocab, text)[|ids|..]
      ensures Decode(vocab, ids) + Decode(vocab, rest) == text
      ensures rest == [] ==> Decode(vocab, ids) == text
      ensures Find(Decode(vocab, rest), StartTag(uid), 0) == -1
    {
      DecodeEncode(vocab, text);
      assert ids + rest == Encode(vocab, text);
      DecodeConcat(vocab, ids, rest);
      ImageFreeSuffix(uid, Decode(vocab, ids), Decode(vocab, rest));
      if rest == [] { assert Decode(vocab, ids) + [] == Decode(vocab, ids); }
    }
  }

  /** The first chat of a session never misfires: nothing hangs on the root yet. */
  method FirstChat<S(!new)>(step: (S, int) -> S, zero: S, vocab: seq<Entry>, uid: Text, settings: Settings,
                            inputs: seq<Text>, d: Draws)
    returns (m: ModelInstance<S>, response: seq<int>, ghost prefilled: StateNode<S>)
    requires Lossless(vocab) && inputs != [] && ImageFree(uid, ApplyChatTemplate(settings, [], inputs, d.reasoning))
    ensures m.Valid() && !m.backend.misfired && m.backend.step == step && m.backend.root.state == zero
    ensures Decode(vocab, prefilled.ids) == ApplyChatTemplate(settings, [], inputs, d.reasoning)
    ensures m.Replayed(prefilled, prefilled.state) && m.backend.live == Fold(step, prefilled.state, response)
  {
    m := new ModelInstance(step, zero, vocab, uid, settings);
    ghost var text, cache := ApplyChatTemplate(settings, [], inputs, d.reasoning), Cache(m.backend);
    hide ApplyChatTemplate, Rules.PrefillStrays, Rules.AnswerStrays, Rules.Prefilled, Rules.Answered;
    ghost var final;
    response, prefilled, final := m.Chat(inputs, d);
    assert Walk(cache, Encode(vocab, text)) == [];
    m.TheRules().LeavesAreQuiet(cache, text, response);
  }

  /** Setting a prompt and then a longer one that starts with the same ids leaves the backend in
      the state of both in a row, which is not the state of the second. */
  method LongerPromptRepeatsShorter<S(!new)>(step: (S, int) -> S, zero: S, vocab: seq<Entry>, uid: Text,
                                             settings: Settings, short: Text, long: Text)
    returns (reached: S)
    requires Lossless(vocab) && short != []
    requires Encode(vocab, short) <= Encode(vocab, long) && Encode(vocab, short) != Encode(vocab, long)
    ensures reached == Fold(step, zero, Encode(vocab, short) + Encode(vocab, long))
  {
    var m := new ModelInstance(step, zero, vocab, uid, settings);
    EncodeNonEmpty(vocab, short);
    ghost var first := FirstPrompt(m, short);
    PromptAgain(m, first, long);
    FoldConcat(step, zero, Encode(vocab, short), Encode(vocab, long));
    reached := m.backend.live;
  }

  /** A first prompt hangs one checkpoint under the root. */
  method FirstPrompt<S(!new)>(m: ModelInstance<S>, text: Text) returns (ghost first: StateNode<S>)
    requires m.Valid() && !m.backend.misfired && text != []
    requires m.backend.nodes == {m.backend.root} && m.backend.root.children == []
    modifies m, m.backend, m.backend.nodes
    ensures m.Valid() && !m.backend.misfired
    ensures fresh(m.backend.nodes - old(m.backend.nodes)) && m.backend.nodes == {m.backend.root, first}
    ensures first in m.backend.root.children
    ensures first.ids == Encode(m.vocab, text) && first.state == Fold(m.backend.step, m.backend.root.state, first.ids)
  {
    assert m.backend.root.ids == [];
    hide ExecutionProvider.Valid, ExecutionProvider.Sound, ModelInstance.Counted, ExecutionProvider.CountsFall, Fold;
    hide Encode, Decode, Rules.After;
    EncodeNonEmpty(m.vocab, text);
    ghost var root, final := m.SetPrompt(text);
    first := final;
    assert root == m.backend.root && root.ids + Encode(m.vocab, text) == Encode(m.vocab, text);
  }

  /** The second prompt starts where the first one ended, and evaluates the first one's ids again. */
  method PromptAgain<S(!new)>(m: ModelInstance<S>, ghost first: StateNode<S>, text: Text)
    requires m.Valid() && !m.backend.misfired && text != []
    requires m.backend.nodes == {m.backend.root, first} && first in m.backend.root.children
    requires first.ids <= Encode(m.vocab, text) && first.ids != Encode(m.vocab, text)
    modifies m, m.backend, m.backend.nodes
    ensures m.backend.live == Fold(m.backend.step, first.state, Encode(m.vocab, text))
  {
    ghost var root, kids := m.backend.root, m.backend.root.children;
    var matched, final := m.SetPrompt(text);
    assert first in kids && first.ids <= Encode(m.vocab, text);
    assert matched != root;
  }
}
