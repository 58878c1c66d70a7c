# A verified model of the RWKV mobile runtime

The runtime keeps recurrent models on a phone: it reuses the state of every prefix it has evaluated, decodes
several chats in shared slots, tokenises greedily, converts between float formats in software and streams speech.
Its converters rewrite a model for other engines.  This project models seven of those parts in Dafny and proves
what they are for.  `dafny verify dfyconfig.toml` checks everything.

* **The state cache and the session over it** (`Recurrence`, `StateCache`, `CacheTree`, `CacheRefinement`,
  `BatchRegistration`, `Dialogue`, `SessionValue`, `Session`, `RepeatedTurn`). A backend is a state `S`, a transition
  `step` and the fold of `step` over token ids. The cache is the heap tree of `src/backend.cpp`: nodes with children,
  counts, ids and states; a session runs prompts, chats, batched chats and state files over it. `CacheTree` and
  `SessionValue` say the same on values: a tree, a prompt, and what each call makes of them. Every method of the
  session is proved to do to the heap exactly what is said there. The simple thing the cache must agree with is
  re-evaluating all ids from the nearest loaded state, or from scratch. The duplicate test at `src/backend.cpp:41`
  compares a child's whole ids with the bare increment and can name the wrong checkpoint. The ghost flag `misfired`
  records that it has, or that a batch has registered a state that is not that of its ids, and each call sets it if
  and only if a predicate on the value before the call holds (`PrefillStrays`, `AnswerStrays`, `BatchStrays`,
  `BatchMismatches`; for a run, `StraysIn`). `StraysBelow` brings these down to two levels of children below the
  checkpoint matched; with no children there, the test cannot misfire. `WandersBelow` is the part of it that loses ids:
  the checkpoint reached stands for the text if and only if that does not hold. That counts fall along every path is
  kept apart from all this: batched registrations may break it, and it decides only what the cleanup spares.
* **Dynamic batching** (`BatchDecode`, `BatchChat`). Slots, rows of logits, tokens and the two mappings of
  `chat_batch`, with compaction whenever the number of unfinished sequences is a supported size. The reference is one
  sequence decoding alone (`SoloRun`); what a slot holds once its sequence has finished is followed as well
  (`SlotRun`, `SavedRun`), and what is held to go back before a rewind token (`HeldRun`). `BatchChat.WholeChatBatch`
  is the whole call, one command of a session's run. What a sequence says is also put without a run: token by token
  what it draws from its own state, row and penalties (`Draw`, `Said`).
* **Tokenisers and chunking** (`Vocabulary`, `Trie`, `TableTokenizer`, `Chunking`).  The C++ trie and the Python
  tables are both proved against one greedy longest-match encoder; the splitter against the text it splits.
* **Half precision** (`HalfSpec`, `HalfArithmetic`, `HalfConversion`).  Rounding to nearest, ties to even, is defined
  from IEEE 754-2008, section 4.3.1, over exact values: `IsNearest(y, h)` says that no other half beats `h`.
  Patterns are numbers; values are counted in units of 2^-24.
* **RWKV v6 on sequences** (`Machines`, `Rwkv6`, `Rwkv6Formula`, `RwkvModel`, `RwkvRescale`).  Layer by layer over a
  whole sequence against token by token through the whole stack, which also justifies the fold used for the cache;
  attention in closed form over real matrices; and rescaling, which changes nothing but the scale.
* **Formats** (`Rmpack`, `NcnnEmitter`, `NcnnV6`, `NcnnV7`, `Rwkv7`, `NcnnNames`).  The rmpack writer and reader over
  byte sequences; the ncnn graph emitters line by line, and the names they print for their blobs.  A run of a graph
  is an engine, any function from operator, tensors and inputs to outputs, and a value for each blob (`Evaluation`);
  every run of a converted graph is the model on one token, as that engine computes it.
* **Streaming speech and sampling** (`TtsStream`, `Nucleus`).  A consumer thread stepped under every schedule, and the
  nucleus sampler over exact real numbers.

Code and documentation, or code and evident intent, part ways in these places; the model follows the code:

* registration can hand out the checkpoint of other ids and so break the cache (`StateCache.DuplicateTestMisfires`); a
  prompt and two chats are enough for it (`RepeatedTurn.RepeatedTurnStrays`);
* a batched registration never skips a duplicate (`StateCache.ExecutionProvider.RegisterAnyway`);
* setting a prompt evaluates ids the matched checkpoint already includes (`Session.LongerPromptRepeatsShorter`);
* setting a prompt that is in the cache already leaves the old `prompt` text in place, so that the next chat is
  templated with the old one (`Session.ModelInstance.SetPrompt`);
* the state saved for a finished sequence can be overwritten later (`BatchDecode.SavesTooLate`), in some run for every
  batch size below which a size is not supported (`BatchDecode.SavedStatesRightIff`);
* the response of a sequence that has not finished is registered, unless a state is held, with the state from before
  it: one is saved only where none is there, and the prefill has left one (`BatchDecode.UnfinishedSavesNothing`);
* a batched response whose stop code is completed by a rewind token is registered without its last token, but in the
  state of all of it (`BatchChat.RewindStopLosesToken`); a single chat does not do so;
* a byte string loaded under two ids is indexed by an id instead of a position (`Trie.TokenMapping.AddToken`,
  `Trie.LookupExact`);
* the rmpack writer sizes its header with 8 bytes a file and writes 16 (`Rmpack.HeaderCrossesBoundary`);
* a vocabulary file with a prefix after its extension makes the two encoders differ
  (`TableTokenizer.OutOfOrderDisagrees`);
* with a mark in front of each turn, the template leaves that mark out in front of the tag it asks for a response with,
  and puts it there once the response is part of the dialogue, so that the next chat does not go on from the text the
  last one evaluated (`Dialogue.ContinuesIff`);
* the ncnn graph of v6 does not bound the decay as the module does (converter/rwkv_src/rwkv_v6_modules.py:149); it is
  compared with the module without these bounds (`NcnnV6.TimeMixing`);
* cutting a model into chunks drops the layers that the division leaves over (`RwkvModel.Model.LayersLeftOver`).

## Model

| member | source | states |
|---|---|---|
| Recurrence.FoldConcat | src/runtime.cpp:422-456 | evaluating ids in consecutive pieces is evaluating them at once, so prefill may cut anywhere |
| StateCache.UnderUnique | src/backend.h:14-41 | two ancestors of a node at one depth are one node: subtrees of siblings never meet |
| StateCache.FindDuplicate | src/backend.cpp:40-46 | the duplicate loop stops at the first child whose whole ids equal the given ones, or past the end |
| StateCache.ExecutionProvider.constructor | src/backend.h:14-41 | the tree starts as one root with no ids, count 20 and nothing wrong with it |
| StateCache.ExecutionProvider.CheckpointIsReplay | src/backend.cpp:9-70 | in a coherent tree every node's state is the re-evaluation, from its nearest constant ancestor or the root, of all ids after that ancestor's |
| StateCache.ExecutionProvider.FirstPrefixChild | src/backend.cpp:14-21 | the scan of one node's children takes the first whose ids are a prefix of the request, and none before it is |
| StateCache.ExecutionProvider.MatchAndLoadState | src/backend.cpp:9-31 | the walk ends at a checkpoint of a prefix of the request below which no child is one, every node passed is the first match among its siblings, the rest is exactly what is missing, the backend is in that checkpoint's state, exactly the nodes passed gain one count, and counts still fall along paths |
| StateCache.ExecutionProvider.Attach | src/backend.cpp:67-68 | hanging a node keeps the tree a tree of growing prefixes with constants only under the root, and keeps coherence and falling counts under the obvious conditions |
| StateCache.ExecutionProvider.RegisterStateCheckpointWithState | src/backend.cpp:39-70 | the whole new tree in both branches; the caller gets a learned checkpoint for the ids it meant if and only if no child has the bare increment as its ids, or a learned child of a node without ids does; coherence survives either way, falling counts unless the test misfires |
| StateCache.ExecutionProvider.MisfireRepeats | src/backend.cpp:39-46 | the test misfires only at the root, on a loaded state with just these ids, or on an increment that starts with the node's whole ids |
| StateCache.DuplicateTestMisfires | src/backend.cpp:39-46 | a concrete run in which every state registered is right: registering [1, 2] below the checkpoint [1] hands back the checkpoint of [1, 2] instead of [1, 1, 2], and after one more registration the cache is not coherent |
| StateCache.ExecutionProvider.CountDuplicates | src/backend.cpp:79-84 | the batched duplicate test adds one count to every child with the bare ids and changes nothing else |
| StateCache.ExecutionProvider.RegisterAnyway | src/backend.cpp:78-96 | a batched registration always yields a new learned checkpoint of exactly the ids meant, with the count its node had before; each duplicate gains one count; the flag is set if and only if the state is not the node's advanced over the ids; counts go on falling along paths if and only if the node is the root or every duplicate was still below the node's own count |
| StateCache.ExecutionProvider.SurvivesAlone | src/backend.cpp:100-125 | while counts fall along every path, a node that is not due has no ancestor that is |
| StateCache.ExecutionProvider.SiblingsUntouched | src/backend.cpp:105-122 | ageing one subtree changes nothing in the subtrees of its siblings |
| StateCache.ExecutionProvider.CleanupNode | src/backend.cpp:105-122 | the recursive pass rewrites every child list and count below a node once, erasing while iterating |
| StateCache.ExecutionProvider.CleanupStateTree | src/backend.cpp:100-125 | exactly the nodes without a due node at or above them stay; while counts fall that is exactly the constants and the nodes with a positive count; order of children, ageing of counts, coherence and falling counts as promised |
| StateCache.ExecutionProvider.EraseTopChild | src/runtime.cpp:392-405 | erasing a child of the root takes exactly its subtree and keeps coherence and falling counts |
| CacheTree.Cursor.FeedConcat | src/runtime.cpp:710-775 | feeding pieces in two goes leaves the same tree, and strays in one go or the other exactly when it strays in all |
| CacheTree.StraysIff | src/backend.cpp:39-46 | whether feeding pieces strays can be read off the node before anything is fed: a child with just the next piece as its ids, below the root, or a constant one, or one with such a child itself |
| CacheTree.LookupStraysIff | src/backend.cpp:9-46 | the same behind a lookup, on the tree before the lookup |
| CacheTree.WandersIff | src/backend.cpp:39-70 | the ids meant are ids lost in front and then the ids of the checkpoint reached, and nothing is lost if and only if the feeding does not wander: what one piece drops, more pieces never make up for |
| CacheTree.StraysOrWanders | src/backend.cpp:39-46 | feeding strays if and only if it wanders, losing ids, or the first piece is taken for a loaded state at the root |
| CacheTree.LookupWandersIff | src/backend.cpp:9-70 | behind a lookup, on the tree before it: the checkpoint reached has exactly the ids meant if and only if no piece is mistaken for a child below a node with ids |
| CacheRefinement.LookupShown | src/backend.cpp:9-31 | what the heap walk leaves, seen as a value, is the lookup on values: same path, same counts, same end |
| CacheRefinement.RegisterShown | src/backend.cpp:39-70 | what a registration leaves, seen as a value, is the registration on values, at the same place, and misfires exactly when that does |
| CacheRefinement.AnywayShown | src/backend.cpp:78-96 | what a batched registration for one sequence leaves, seen as a value, is that registration there, at the same place |
| CacheRefinement.LeadsStays | src/backend.cpp:39-98 | registrations only grow lists of children at the end, so every path goes on leading where it led |
| CacheRefinement.CleanupShown | src/backend.cpp:100-125 | what the recursive cleanup with its erasures leaves, seen as a value, is one pass over the value |
| CacheRefinement.AttachShown | src/backend.cpp:67-68 | a new last child of the root is a new last child in the value, and nothing else changes there |
| CacheRefinement.EraseShown | src/runtime.cpp:392-405 | erasing a child of the root is erasing it from the list of the value's children |
| BatchRegistration.RegisterBatchStateCheckpoint | src/backend.cpp:72-98 | with as many id lists as states, one new and distinct checkpoint per sequence, also when sequences share a node; the count of every old and every new node is its first count and one for each later sequence that duplicates it; seen as a value, the tree is that of hanging them one after another; the flag is set if and only if some state is not its node's advanced over its ids; with another number nothing changes |
| Dialogue.TemplateHasRole | src/runtime.cpp:506-546 | every templated dialogue contains the response role, so the response part always exists |
| Dialogue.OneTurn | src/runtime.cpp:506-546 | a dialogue of one turn, spelled out |
| Dialogue.TurnsGoOn | src/runtime.cpp:506-546 | a dialogue that waits for a response, the same with the response, and the same with the next words share all that stands in front of the tag, and each goes on with just its own role, words and marks |
| Dialogue.Continues | src/runtime.cpp:506-546 | without a mark in front of turns, the text a chat evaluates, with a space and its response, is the beginning of the next dialogue's text, and likewise with the rest of a response behind the token that starts a thought: what the cache lives on |
| Dialogue.ContinuesIff | src/runtime.cpp:506-546 | with any mark: the text of a waiting dialogue is the beginning of the dialogue with the response if and only if the tag is a prefix of mark, tag and response |
| Dialogue.TemplateTellsApart | src/runtime.cpp:506-546 | two dialogues of the same shape, turn by turn of the same lengths, have the same text only if they are the same |
| Dialogue.NothingOfIt | src/runtime.cpp:779-781 | where a response is asked for without a thought, the response buffer starts out empty |
| Dialogue.OneAnswer | src/runtime.cpp:807-882 | there is only one response that is the draws up to the first that ends it |
| Dialogue.ReplyAnswers | src/runtime.cpp:807-882 | and the loop gives it: no earlier token was 0, completed a stop code (a blank line only once the thought was over) or came with a stop signal, and the length or the next token ends it |
| Dialogue.HeardWhole | src/runtime.cpp:872-875 | what a user reads is the start and the decoded response, without one space in front |
| SessionValue.Rules.ChatStraysIff | src/runtime.cpp:666-906 | a chat misfires if and only if the checkpoint its text is matched to, as it stands before the call, has a child that is mistaken for one of the pieces the chat registers |
| SessionValue.Rules.LeavesAreQuiet | src/runtime.cpp:666-906 | a chat matched to a checkpoint without children never misfires |
| SessionValue.Rules.PrefilledSays | src/runtime.cpp:689-776 | the checkpoint a prefill arrives at decodes to the text if and only if no piece of it wanders, although the rest of the text is cut up and tokenised again |
| SessionValue.Rules.AnsweredIds | src/runtime.cpp:884-898 | the checkpoint of a response has the ids of the text and what is kept of the response if and only if that is not mistaken for a child of a node with ids |
| SessionValue.Rules.SequenceStraysIff | src/runtime.cpp:965-997 | the same condition for one sequence of a batch |
| SessionValue.Rules.SequenceIds | src/runtime.cpp:965-997 | a sequence of a batch arrives at exactly the ids of its text if and only if it does not wander |
| Session.ModelInstance.EvalLogits | src/runtime.cpp:422-456 | prefill in pieces of 64 leaves the backend in the state of all ids |
| Session.ModelInstance.PrefillChunk | src/runtime.cpp:761-767 | evaluating and registering a chunk gives a checkpoint of the ids so far and the chunk, in the state of evaluating the chunk there; the tree is that of feeding the chunk to its value, and the test misfires exactly when it does there |
| Session.ModelInstance.PrefillChunks | src/runtime.cpp:710-775 | the loop over the chunks leaves the tree of feeding all of them to its value, has misfired exactly when that strays, and otherwise ends at a checkpoint of all their tokens |
| Session.ModelInstance.Prefill | src/runtime.cpp:689-776 | from every reachable cache, although the rest of the ids is decoded, split at "Assistant" and tokenised again: the tree is the one computed from the tree before; the node reached decodes to exactly the text if and only if that computation does not wander; and unless it strays the backend is in the state of replaying its ids from the nearest loaded state or from scratch |
| Session.ModelInstance.MatchedText | src/runtime.cpp:689-708 | a matched prefix of ids and the rest decode to two parts of the text, and no image tag opens in the second |
| Session.ModelInstance.PrefillSequence | src/runtime.cpp:965-997 | one sequence of a batch leaves the tree computed from the tree before, with every earlier checkpoint still where it was; it ends at a checkpoint of exactly the encoding of its text if and only if that does not wander |
| Session.ModelInstance.PrefillBatch | src/runtime.cpp:961-1023 | every sequence of a batch starts at the place and in the state computed from the tree before and the texts before it; its ids are those of its text if and only if it does not wander in the tree those leave; the flag is set exactly when one strays there |
| Session.ModelInstance.Close | src/runtime.cpp:1225-1243 | the end of a batched chat: if the first response has a token every response is registered, without its last token where a state is held, and the cache aged; the cache is the one computed from the cache before; the flag is set if and only if some state registered is not that of its ids; while counts fall the new checkpoints of nodes in use are spared |
| Session.ModelInstance.Templated | src/runtime.cpp:506-546 | the loop over the turns writes the template |
| Session.ModelInstance.EndsInStopCode | src/runtime.cpp:835-845 | the search at the end of the text finds a stop code if and only if some code is one, blank lines passed over while thinking |
| Session.ModelInstance.ChatBatch | src/runtime.cpp:908-1246 | a whole batched chat whose decoding is any function of the states it starts from: what the decoding is given are the states computed before the call, and cache and flag are those computed from what it leaves |
| Session.ModelInstance.Generate | src/runtime.cpp:807-882 | for every exit (token 0, stop code, stop signal, length): the response is the draws up to the first that ends it, the buffer is what the user reads of the start and the response without a leading space, the ids grow by the response, the flag for a stop code is set exactly when one ended it; the live state is the fold over the whole response, a state is held if and only if it ends with a rewind token, and that is the fold over all but that token |
| Session.ModelInstance.RegisterResponse | src/runtime.cpp:884-898 | the checkpoint made after the loop has the ids of text and response, without a trailing rewind token, if and only if these are not mistaken for a child, and unless the test misfires it is in the state of those ids; the test misfires exactly when it would for those ids at the place of the prefilled node |
| Session.ModelInstance.Age | src/runtime.cpp:903 | the cleanup that ends a chat spares what survives it, while counts fall every checkpoint still in use, and is one pass over the value of the cache |
| Session.ModelInstance.Chat | src/runtime.cpp:666-906 | a whole chat: response and cache are those computed from prompt and cache before the call; buffer, ids and flag say what the response says; the prefilled node decodes to the templated text, and the last one has the ids of text and response, if and only if nothing wanders there; the flag is set if and only if that computation strays, and otherwise the backend is in the state of text and response and the checkpoint of both is coherent and, if counts fell before, still in the tree after the cleanup |
| Session.ModelInstance.Converse | src/runtime.cpp:666-906 | a chat as a command: one without turns, or whose text opens an image tag, does nothing; any other does to the session what is said of its value |
| Session.FirstChat | src/runtime.cpp:666-906 | a first chat never misfires: its checkpoint decodes to the templated text and the backend is in the state of text and response |
| Session.ModelInstance.DecodePrompt | src/runtime.cpp:1248-1279 | ids in front of a text's own ids decode to the text if and only if there are none |
| Session.ModelInstance.SetPrompt | src/runtime.cpp:1248-1279 | the node reached stands for the prompt if and only if the match covered everything or nothing; in every case its ids and state are those of what was evaluated, the tree gains just that node, and the prompt text changes only if something was left to evaluate; never misfires |
| Session.LongerPromptRepeatsShorter | src/runtime.cpp:1263-1277 | setting a prompt and then a longer one that starts with its ids leaves the state of both in a row |
| Session.ModelInstance.LoadInitialState | src/runtime.cpp:343-390 | loading succeeds exactly for an .rmpack path that is known already or fits the model; a new state hangs as a constant with count 50 behind the root's children, and the backend holds it |
| Session.ModelInstance.UnloadInitialState | src/runtime.cpp:392-405 | exactly the first such child of the root and everything grown on it goes |
| Session.ModelInstance.Execute | src/runtime.cpp:343-1279 | each command does to the session what is said of its value, keeps its invariant, and misfires exactly when it strays there |
| Session.ModelInstance.Run | src/runtime.cpp:343-1279 | over every sequence of prompts, chats, whole batched chats, loads and unloads: the session is what the commands make of its value, the flag is set if and only if one of them strayed there, and if none did every node's state is the re-evaluation from the nearest loaded state, or from scratch, of the ids after it |
| RepeatedTurn.ChatOnAgain | src/backend.cpp:39-46 | with one token per byte, a chat that starts over with the prompt's own turn strays, and the tree it leaves has a checkpoint under the wrong node |
| RepeatedTurn.RepeatedTurnStrays | src/runtime.cpp:666-906 | the whole session: a prompt of one turn, a chat with a second, and that chat end with a cache that is not coherent |
| BatchDecode.SoloState | src/runtime.cpp:1039-1207 | a sequence decoding alone is always in the state of its response so far |
| BatchDecode.SoloLength | src/runtime.cpp:1039-1213 | alone, a finished sequence never changes, responses only grow, an unfinished one has said one token a round |
| BatchDecode.DrawnAlone | src/runtime.cpp:1040-1053 | the n-th token of a sequence alone is picked from the row of the state after all but its last token, fed that token, penalised by how often each token of the response was said, with its decay, and masked if a thought closed in the prompt is followed by a comma |
| BatchDecode.SoloSaid | src/runtime.cpp:1039-1094 | a sequence alone says what it draws, up to the first token that is 0 or completes a stop code |
| BatchDecode.SaidOnce | src/runtime.cpp:1039-1094 | of two responses drawn so, the shorter is the beginning of the longer, and all of it if it is over |
| BatchDecode.HeldIsPrefix | src/runtime.cpp:1082-1092 | a held state is that of the response up to where it was held, whether or not thoughts delay its release |
| BatchDecode.HeldAtEnd | src/runtime.cpp:1055-1092 | without a thought to wait for: a response ended by token 0 leaves the state before its last token, if that is a rewind token; one ended by a stop code leaves nothing, or, if a rewind token completes the code, the state of the whole response |
| BatchDecode.HeldExactly | src/runtime.cpp:1082-1092 | what is held belongs to the last rewind token, the one that completes a stop code included, and is held if and only if every token after it came while a thought was going on |
| BatchDecode.SlotIsSolo | src/runtime.cpp:1039-1207 | until its sequence has finished, a slot does what the sequence does alone |
| BatchDecode.UnfinishedLists | src/runtime.cpp:1096-1101 | the new list of slots holds every unfinished sequence once, in order, and no other |
| BatchDecode.Compacted | src/runtime.cpp:1096-1178 | with every size supported, compaction leaves exactly the unfinished sequences in slots |
| BatchDecode.SavedIsSolo | src/runtime.cpp:1055-1094 | unless a slot relapses, drawing 0 again after its sequence has finished, what is saved is the state of the finished response |
| BatchDecode.UnfinishedSavesNothing | src/runtime.cpp:1215-1223 | for a sequence cut off by the length or a stop signal the saved state is still that of its prefill |
| BatchDecode.MissingSizeSavesWrong | src/runtime.cpp:1055-1178 | for every batch of n and every missing size m below it there is a batch, all but m of whose sequences stop at once, that saves a state other than that of the response |
| BatchDecode.SavedStatesRightIff | src/runtime.cpp:1055-1178 | for n sequences, saved states are right for every model and sampler if and only if every smaller size is supported |
| BatchDecode.Batch.constructor | src/runtime.cpp:1021-1037 | at first every sequence is in the slot of its number, with its own prefilled state |
| BatchDecode.Batch.Sample | src/runtime.cpp:1040-1053 | each slot draws for the sequence that sits in it, from that sequence's row and counts |
| BatchDecode.Batch.Finish | src/runtime.cpp:1055-1094 | who finishes, whose state is saved and what is held before a rewind token, slot by slot, including slots of sequences that have finished already |
| BatchDecode.Batch.GatherTokens | src/runtime.cpp:1144-1157 | each kept sequence finds its own token; the branch reporting an invalid mapping cannot be reached |
| BatchDecode.Batch.Gather | src/runtime.cpp:1119-1139 | each kept sequence finds its own entry, wherever the old slots were |
| BatchDecode.Batch.Compact | src/runtime.cpp:1096-1178 | slots move if and only if fewer sequences are unfinished and their number is a supported size; afterwards the two mappings are again inverse to each other, every unfinished sequence has a slot, and in it the state, logits row and token from its old one |
| BatchDecode.Batch.Settle | src/runtime.cpp:1055-1094 | a round of drawing and finishing: who finishes, which slots save their state again although their sequence had finished, exactly those that draw token 0, and what is held for each sequence: what it holds alone |
| BatchDecode.Batch.SlotsAreOwn | src/runtime.cpp:1186-1207 | whoever shares the batch and wherever slots have moved, the slot of an unfinished sequence holds the fold of its own prefill state over its own response, at the head of a round and after its compaction |
| BatchDecode.Batch.Feed | src/runtime.cpp:1186-1207 | before and after each batch evaluation every slot holds what its own sequence's run says, whatever shares the batch with it, and for an unfinished sequence that is the fold of its own prefill state over its own response |
| BatchDecode.Batch.Run | src/runtime.cpp:1039-1213 | for every set of batch sizes and every order of finishing, each response is what the sequence says alone, each held state what it holds alone, and each saved state the one computed from that sequence's run, the sizes and who has finished when |
| BatchDecode.ChatBatch | src/runtime.cpp:917-1213 | slot isolation over whole runs: each response is, token by token, what its sequence draws from its own state, its own row and its own penalties, it has ended if and only if the next token would end it; ends and held states are those of solitary decoding, for the number of rounds the sequences alone decide; a saved state is that of the finished response unless its slot relapses, which cannot happen with no size missing |
| BatchDecode.SavesTooLate | src/runtime.cpp:1055-1094 | for every n and every missing m below it the loop itself does so: a sequence that stopped at once ends up with the state after its stop token |
| BatchChat.ChatBatch | src/runtime.cpp:908-1213 | prefill and decoding together: what is left for each sequence is a function of the states computed from the cache before the call; unless the prefill strays, and with no size missing, what a finished sequence leaves is the state of its own text and response, from the nearest loaded state or from scratch, whoever shared the batch |
| BatchChat.LeavesSaid | src/runtime.cpp:1039-1213 | what a batched chat leaves for a sequence is, token by token, what that sequence draws, to the first token that ends it or as long as the rounds last |
| BatchChat.LeavesRightIff | src/runtime.cpp:1215-1231 | what a sequence leaves is right if and only if the held state, when one is and anything was said, is that of the response without its last token, or else the saved state is that of the response |
| BatchChat.FinishedRightIff | src/runtime.cpp:1055-1231 | with every size supported and no thought to wait for, a finished sequence leaves the right state if and only if its stop code was not completed by a rewind token, unless nothing was said or that token makes no difference |
| BatchChat.RewindStopLosesToken | src/runtime.cpp:1064-1092 | a sequence that says one token and is stopped by a rewind token: its checkpoint gets no ids and the state after the token |
| BatchChat.WholeChatBatch | src/runtime.cpp:908-1246 | from the texts to the cleanup, held states included: the session is what the command for it makes of its value, its invariant is kept, and the flag is set if and only if the prefill strays, or responses are registered and what is left for one of them is not right |
| BatchChat.ShortEnough | src/runtime.cpp:1039-1213 | no response exceeds the length limit, and the round that ends one adds nothing to it |
| Vocabulary.DecodeConcat | converter/rwkv_src/rwkv_tokenizer.py:71-72 | decoding is a homomorphism |
| Vocabulary.DecodeEncodePrefix | src/trie.hpp:286-314 | with distinct ids, decoding what was encoded gives a prefix of the bytes, whatever is missing |
| Vocabulary.DecodeEncode | src/trie.hpp:286-314 | with all single bytes present it gives back every byte string |
| Vocabulary.EncodeWithout | src/trie.hpp:254-284 | an extra entry that occurs nowhere in the bytes changes no encoding |
| Trie.OptimizedTrie.Add | src/trie.hpp:140-154 | after adding, the trie stores exactly what it stored before and the new key under its value, on a heap of disjoint subtries |
| Trie.OptimizedTrie.FindLongestFast | src/trie.hpp:156-176 | the end and value of the longest stored non-empty key that starts the input there; (0, 0) if and only if there is none |
| Trie.TokenMapping.AddToken | src/trie.hpp:199-209 | a new id can be looked up if and only if its bytes are new, or the id they had happens to be their position |
| Trie.LookupExact | src/trie.hpp:199-218 | after any lines, repeated ids and bytes included: an id finds the bytes of its last line if and only if no earlier line has these bytes, or the id of the first that does happens to be their position |
| Trie.LookupIsData | src/trie.hpp:211-218 | after loading distinct lines, looking up an id gives its bytes |
| Trie.NamesAreEncoding | src/trie.hpp:295-314 | with distinct bytes there is one way to name the greedy pieces, the encoding |
| Trie.OptimizedTrieTokenizer.constructor | src/trie.hpp:254-284 | loading any lines, whatever they repeat, leaves the trie holding exactly those with an id and the extra entry, and the tables those of adding them in order |
| Trie.OptimizedTrieTokenizer.EncodeBytes | src/trie.hpp:295-314 | for any lines: the walk over the heap trie cuts the bytes greedily, and each token is an id of its piece; with nothing repeated it computes the reference encoding |
| Trie.OptimizedTrieTokenizer.DecodeBytes | src/trie.hpp:286-293 | for any lines: the bytes found for the ids, one after another; with nothing repeated the reference decoding |
| TableTokenizer.PieceIsLongest | converter/rwkv_src/rwkv_tokenizer.py:55-65 | when prefixes come earlier in the file, the last fitting line is the longest |
| TableTokenizer.AgreeUnderOrder | converter/rwkv_src/rwkv_tokenizer.py:50-69 | then the table encoder agrees with longest match on every byte string |
| TableTokenizer.OutOfOrderDisagrees | converter/rwkv_src/rwkv_tokenizer.py:55-65 | one pair of lines out of order is enough for a byte string on which they differ |
| TableTokenizer.EncodersAgree | converter/rwkv_src/rwkv_tokenizer.py:36-69 | on a complete vocabulary of distinct lines the encoders agree everywhere if and only if every proper prefix of at least two bytes comes first |
| TableTokenizer.TrieAndTableAgree | src/trie.hpp:295-314 | the Python encoder without and the C++ encoder with the extra entry give the same ids wherever that entry does not occur |
| TableTokenizer.RowFit | converter/rwkv_src/rwkv_tokenizer.py:36-48 | the first fit in a two-byte row, filled from the back of the file, is the last fitting line of the whole file |
| TableTokenizer.RwkvTokenizer.constructor | converter/rwkv_src/rwkv_tokenizer.py:19-48 | the maps and the three tables hold what the file says |
| TableTokenizer.RwkvTokenizer.NextPiece | converter/rwkv_src/rwkv_tokenizer.py:55-65 | `good` and `wlen` never hide a fitting entry: the table search finds the piece of the linear search |
| TableTokenizer.RwkvTokenizer.EncodeBytes | converter/rwkv_src/rwkv_tokenizer.py:50-69 | the loop computes the table encoding, failing exactly where a piece has no id |
| TableTokenizer.RwkvTokenizer.DecodeBytes | converter/rwkv_src/rwkv_tokenizer.py:71-72 | decoding succeeds exactly on known ids and gives the reference decoding |
| Chunking.Find | src/runtime.cpp:549-588 | `std::string::find`: the first occurrence from a position on, or none |
| Chunking.DecodeEncodeAll | src/runtime.cpp:548-659 | encoding a text piecewise, wherever it is cut, loses nothing |
| Chunking.SplitImages | src/runtime.cpp:549-588 | cutting out images conserves the text; an image chunk is a start tag, its path and the first end tag behind it; the first start tag behind a text chunk is that of the image after it, or no tag is left; two text chunks are never neighbours; without a tag there is no image chunk |
| Chunking.TaggedTokens | src/runtime.cpp:549-588 | the tokens of the first pass, in order, are those of its pieces |
| Chunking.SplitAt | src/runtime.cpp:597-623 | cutting at "Assistant" conserves the text, and no other part contains the mark |
| Chunking.SplitByLength | src/runtime.cpp:643-649 | pieces of at most the limit, none empty, all tokens in order |
| Chunking.ChunkParts | src/runtime.cpp:625-655 | carrying marks into the next part conserves tokens and sizes |
| Chunking.TextPiecesSay | src/runtime.cpp:597-655 | cut at the mark, tokenised part by part and cut by length, the pieces of a text say it in order |
| Chunking.SplitTextByImageAndTokenNum | src/runtime.cpp:548-659 | for any text and any number of image tags: the image chunks are those of the first pass, whole and in order, with their paths; the chunks are the images and the pieces of the texts between them, and decode, in order, to the text; a text chunk is non-empty and within the limit, or a run of carried marks that no text follows; without a tag the chunks are exactly those of a function of the text, which is what prefill is decided by |
| HalfSpec.NearestUnique | src/half.hpp:820-839 | there is only one correctly rounded result |
| HalfSpec.Exact | src/half.hpp:820-839 | a representable value rounds to itself |
| HalfArithmetic.GuardAndSticky | src/half.hpp:820-839 | the guard and sticky bits say on which side of the midpoint the exact value lies |
| HalfArithmetic.Fixed2HalfNearest | src/half.hpp:884-897 | for every F from 11 to 31 and every normalised mantissa with sticky bit, the correctly rounded half of m * 2^(exp - 14 - F), subnormal results and the carry to infinity included |
| HalfArithmetic.PackedNearest | src/half.hpp:2633-2638 | with the overflow and underflow exits in front, for every exponent |
| HalfArithmetic.Normalise | src/half.hpp:2629-2630 | normalising a subnormal keeps its value |
| HalfArithmetic.Multiply | src/half.hpp:2617-2640 | multiplication of finite halves is correctly rounded; infinity and zero as the standard asks; a NaN operand gives a NaN, the first of them with its sign and payload, made quiet |
| HalfArithmetic.Divide | src/half.hpp:2650-2677 | division of finite halves is correctly rounded although the remainder is kept as one sticky bit; infinity and zero as the standard asks; a NaN operand gives the first NaN, made quiet |
| HalfArithmetic.SqrtFixed | src/half.hpp:1480-1497 | for every even F: after the shift to an even exponent, the integer root and the exact remainder |
| HalfArithmetic.RootGuard | src/half.hpp:3228 | comparing the remainder with the root decides the guard bit, and the exact root is never halfway |
| HalfArithmetic.RootBrackets | src/half.hpp:3217-3229 | the same over whole numbers: the radicand lies strictly between the squares of the two midpoints around the result |
| HalfArithmetic.Sqrt | src/half.hpp:3217-3229 | the square root of a positive finite half is correctly rounded and never meets a tie; zeros, infinities, negative numbers and NaN, which is made quiet |
| HalfConversion.DoubleToHalfNearest | src/half.hpp:995-1021 | every finite double rounds to the nearest half, ties to even, over the normal, subnormal, underflow and overflow ranges |
| HalfConversion.DoubleToHalfSpecial | src/half.hpp:995-1021 | infinity stays infinity, every NaN stays one, quiet, and both keep their sign, a NaN the upper bits of its payload |
| HalfConversion.HalfToDouble | src/half.hpp:1259-1277 | the double has the value of the half, infinity and the payload of a NaN included, and converting back is the identity on every half but a signalling NaN, which becomes quiet |
| Machines.ScanConcat | converter/rwkv_src/rwkv_modeling.py:141-173 | any cut of a sequence into consecutive pieces gives the same outputs and final state |
| Machines.ScanThen | converter/rwkv_src/rwkv_modeling.py:158-165 | running one machine over the whole sequence and then the next is running both on each element |
| Rwkv6.FlattenAt | converter/rwkv_src/rwkv_v6_modules.py:152-155 | row t, head h stands at t * heads + h of the batched product |
| Rwkv6.Attention.RowsAreTokens | converter/rwkv_src/rwkv_v6_modules.py:107-178 | after t rows the sequence branch has the outputs and the state of t single tokens |
| Rwkv6.Attention.Recur | converter/rwkv_src/rwkv_v6_modules.py:160-169 | the loop writes each row from the state before it and leaves the state after the last |
| Rwkv6.Attention.Forward | converter/rwkv_src/rwkv_v6_modules.py:107-178 | both branches, one token or many: the outputs, the shifted row and the head states of feeding the tokens one at a time |
| Rwkv6Formula.KeptNext | converter/rwkv_src/rwkv_v6_modules.py:163-168 | the closed sum, every input faded by all decays after it and the start faded by all, is what the recurrence computes |
| Rwkv6Formula.Layer.Forward | converter/rwkv_src/rwkv_v6_modules.py:107-178 | over real matrices: each head of row t puts out its receptance times the bonus of the current key and value, the sum over all earlier rows of key times value faded by the decays in between, and what is left of the state given; the state handed on is that memory after the last row |
| Rwkv6.FeedForward.Forward | converter/rwkv_src/rwkv_v6_modules.py:215-234 | both branches, one token or many, give the outputs and the state of feeding the tokens one at a time: row by row the gated value of the mixed keys on top of the row itself, mixed with the row before it, the first with the row carried |
| RwkvModel.Model.Block | converter/rwkv_src/rwkv_modeling.py:51-70 | one block updates the entries of its own layer, in either layout of the states, and no others |
| RwkvModel.Model.LayerMajorIsTokenMajor | converter/rwkv_src/rwkv_modeling.py:158-165 | for every depth and length, layer by layer over the sequence is token by token through the layers |
| RwkvModel.Model.Forward | converter/rwkv_src/rwkv_modeling.py:141-173 | the layer loop with in-place states and rescaling by the layer's number in the whole model gives the outputs and all final states of single-token evaluation, for a model or a chunk of one |
| RwkvModel.Model.SequenceIsFold | converter/rwkv_src/rwkv_modeling.py:141-173 | the states after a sequence are the fold of a single transition, which is what the cache assumes of a backend |
| RwkvModel.Model.ChunksAreWhole | converter/rwkv_src/rwkv_modeling.py:98-103 | the first i chunks one after another, each with states of its own and layers counted from where it begins, give what the whole gives with that many layers |
| RwkvModel.Model.LayersLeftOver | converter/rwkv_src/rwkv_modeling.py:98-100 | as many layers are in no chunk as the division by the number of chunks leaves over |
| RwkvRescale.RescalingKeepsMeaning | converter/rwkv_src/rwkv_modeling.py:158-165 | for every depth, interval and chunk: halving the stream after every so many layers, with the last projections of each layer divided to match, gives the output of the model that does not rescale, halved as often as there are full groups of layers, and the very same states |
| Rmpack.NumberOf | src/rmpack.cpp:97-124 | little-endian numbers read back |
| Rmpack.ByteAt | src/rmpack.cpp:97-124 | byte i of a number is its i-th digit to base 256: least significant first |
| Rmpack.HeaderLayout | converter/convert_state_to_rmpack.py:64-90 | where each field of the header stands and what it says: magic, length of the configuration, the configuration, number of files, and for each file the length of its name, the name, its size and its offset |
| Rmpack.PlaceShifts | converter/convert_state_to_rmpack.py:38-62 | starting a whole number of blocks later moves every file by just that |
| Rmpack.OffsetsShift | converter/convert_state_to_rmpack.py:38-98 | every recorded offset differs from the place written by one and the same multiple of 4096, which is zero when both header sizes align to one boundary |
| Rmpack.RWKVModelPacker.CalculateOffsets | converter/convert_state_to_rmpack.py:38-62 | offsets follow the aligned places counted from the narrow header; names and sizes stay |
| Rmpack.RWKVModelPacker.Pack | converter/convert_state_to_rmpack.py:64-98 | packing succeeds exactly when all numbers fit their fields; the stream starts with the header, and each file stands whole at its aligned place counted from the wide header |
| Rmpack.RMPackReader.LoadFile | src/rmpack.cpp:62-125 | loading succeeds on every stream that starts with a well-formed header and yields that header, and succeeds on no other |
| Rmpack.RMPackReader.GetFileInfo | src/rmpack.cpp:135-142 | the first entry of that name |
| Rmpack.RMPackReader.ReadFileToMemory | src/rmpack.cpp:187-222 | cached bytes, or the bytes at the recorded offset, or which error; a failed stream stays failed |
| Rmpack.RMPackReader.ReadAgain | src/rmpack.cpp:187-235 | a file read, freed and read again comes back the same if and only if it is there, within the stream, and no read had failed before; kept bytes are lost for good exactly when one had; other files kept stay kept |
| Rmpack.RoundTrip | converter/convert_state_to_rmpack.py:64-98 | packed and read back under every name: what returns is what stands the common shift before the first file of that name; when both headers align alike and no name is there twice, every byte string returns |
| Rmpack.HeaderCrossesBoundary | converter/convert_state_to_rmpack.py:38-62 | a configuration of 4067 bytes and one file of one byte: the reader finds header bytes instead |
| TtsStream.Stream.ChunksStay | src/runtime.cpp:1377-1395 | tokens that arrive later change nothing already emitted |
| TtsStream.Stream.ConsumerStep | src/runtime.cpp:1376-1404 | every step of the consumer only appends samples and keeps the chunk, context and position invariant; a full chunk that waits is taken at once, with its context; after generation each step moves towards the end; how many chunks are taken is counted by the tokens and steps alone |
| TtsStream.Stream.Run | src/runtime.cpp:1377-1395 | every interleaving of pushes and steps keeps the invariant and loses no token |
| TtsStream.Stream.Join | src/runtime.cpp:1396-1404 | after generation the consumer always comes to an end |
| TtsStream.Progress.NeverAhead | src/runtime.cpp:1376-1395 | no chunk is taken before its tokens have been said, and none is given back |
| TtsStream.Progress.CatchesUp | src/runtime.cpp:1376-1395 | two steps for every full chunk that waits, and one more, take all there are |
| TtsStream.EagerKeepsUp | src/runtime.cpp:1376-1395 | with two steps after every token no full chunk ever waits: fewer tokens have been said than the next chunk ends at |
| TtsStream.Synthesize | src/runtime.cpp:1364-1405 | for every schedule: exactly 320 samples for every token, each emitted once and in order, in chunks of 125 and then 100 decoded behind exactly the 25 tokens before (none for the first), the rest in one piece; the number of full chunks is a function of the schedule that counts tokens and steps |
| TtsStream.SynthesizeEagerly | src/runtime.cpp:1364-1405 | with two steps after every token, all full chunks are there before the producer is done, and fewer tokens than a chunk are left for the end |
| Nucleus.Argmax | src/sampler.cpp:26-27 | the first of the best tokens |
| Nucleus.Arrange | src/sampler.cpp:29-41 | with a library whose selection puts the best k in front in any order and whose sort orders what it is given, the candidates are the best k in order: what both promise apart is enough |
| Nucleus.Ranking.Softmax | src/sampler.cpp:48-53 | the weights and their sum, which is never below one |
| Nucleus.Ranking.Cut | src/sampler.cpp:55-64 | the prefix kept is the shortest whose share reaches top-p, or all candidates |
| Nucleus.Ranking.Choose | src/sampler.cpp:66-82 | the drawn position is the inverse-CDF index of the random number in the kept prefix, never past its end |
| Nucleus.Ranking.DrawnHasWeight | src/sampler.cpp:66-82 | a candidate of weight zero is never drawn |
| Nucleus.FewAbove | src/sampler.cpp:29-41 | a token with r candidates in front of it among the best k has at most r tokens above it among all |
| Nucleus.Sample | src/sampler.cpp:18-83 | for any such library: with top-k in range, fewer than top-k tokens are better than the one returned; with one candidate or no mass asked for it is the first of the best; otherwise it is the draw from the nucleus of the best k, or of all tokens if k is out of range, at the given temperature or the nearest one from 0.1 to 5 |
| NcnnEmitter.WeightBytes | converter/ncnn_model_utils.py:32-45 | every tensor takes as few whole words as hold its flag and all its elements |
| NcnnEmitter.SegmentsInOrder | converter/ncnn_model_utils.py:32-45 | the weight file follows the lines, and every tensor in it starts on a word |
| NcnnEmitter.Emitter.Emit | converter/ncnn_model_utils.py:57-320 | a line that takes open blobs and puts out new ones keeps the graph well formed, and the weight file what its lines bring; every run of the graph is one of the graph before in which the new line holds; the counts are left behind by one line and its outputs |
| NcnnEmitter.Emitter.Split | converter/ncnn_model_utils.py:147-155 | splitting takes one blob, puts out the listed ones, each worth the same, and catches up with the counts by the length of the list |
| NcnnEmitter.Emitter.SliceInto | converter/ncnn_model_utils.py:234-255 | slicing puts out the pieces in order and catches up by the constant the builder insists on as the length of its list |
| NcnnEmitter.OutputsAreBlobs | converter/convert_rwkv_to_ncnn.py:25-45 | in a well-formed graph the blob count, added up line by line, is the number of different blobs |
| NcnnEmitter.Solvable | converter/ncnn_model_utils.py:57-320 | a well-formed graph can be run by every engine from every input |
| NcnnEmitter.SolvedOnce | converter/ncnn_model_utils.py:57-320 | and in one way only: engine and inputs decide what every blob is worth |
| NcnnEmitter.Emitter.BuildInputs | converter/ncnn_model_utils.py:77-89 | the embedding of the token and three states for every layer are there to be taken, and the counts, in which the token is added only together with the embedding, are right at the end |
| NcnnEmitter.Emitter.BuildOutputHead | converter/ncnn_model_utils.py:550-553 | the logits are put out, the head on the norm of the last layer's output, and nothing else is taken |
| NcnnNames.NumberOnce | converter/ncnn_model_utils.py:322-548 | a number and the text behind it can be told from what is printed: digits never run into it |
| NcnnNames.PrintedOnce | converter/ncnn_model_utils.py:57-320 | blobs of the whole graph, with layer numbers, splits and states, print alike only if they are the same, when the names of a layer do |
| NcnnV6.TimeMixing | converter/ncnn_model_utils.py:322-386 | takes the layer's input and two states, puts out two new states and the layer's output, leaves every other open blob alone, and defines names of its own layer only; in every run, output and states are those of the token machine of the attention module, `Rwkv6.Attention.Token`, with the projections, norms and shapes of this layer |
| NcnnV6.ChannelMixing | converter/ncnn_model_utils.py:388-412 | the same for the channel mixing half and `Rwkv6.FeedForward.Token` |
| NcnnV6.Convert | converter/convert_rwkv_to_ncnn.py:25-45 | for every number of layers: every blob is defined once, before use, and taken at most once; the recorded layer and blob counts are those of the lines and the different blobs; the weight file is what the lines bring; all new states and the logits are put out; and every run of the graph is the model on one token, from the embedding and the states put in to the states read back and the logits |
| NcnnV6.RunsAreLayerMajor | converter/convert_rwkv_to_ncnn.py:25-45 | a text fed to the graph token by token, each run put in the states the one before was read for, ends in the states and gives the logits of the model that runs layer by layer over the whole text |
| NcnnNamesV6.NamesDiffer | converter/ncnn_model_utils.py:322-412 | no two blobs of a v6 graph have the same name |
| NcnnNamesV6.HeaderCountsNames | converter/convert_rwkv_to_ncnn.py:25-45 | the blob count in the header is the number of different names in the file |
| NcnnV7.TimeMixing | converter/ncnn_model_utils.py:414-528 | as for v6, with the first layer's values handed from layer to layer; in every run it is the attention module of v7 on one token, `Rwkv7.Attention`, in both variants |
| NcnnV7.ChannelMixing | converter/ncnn_model_utils.py:530-548 | as for v6 and `Rwkv7.FeedForward` |
| NcnnV7.Convert | converter/convert_rwkv_to_ncnn.py:25-45 | the same whole-graph result for v7, in both variants of its time mixing; every run of the graph is `Rwkv7.Model` on one token |
| NcnnNamesV7.NamesDiffer | converter/ncnn_model_utils.py:414-548 | no two blobs of a v7 graph have the same name |
| NcnnNamesV7.HeaderCountsNames | converter/convert_rwkv_to_ncnn.py:25-45 | the same for v7 |

## Left out

- StateCache.ExecutionProvider.RegisterStateCheckpointWithState: the logits stored with a node are not modelled; they are penalised in place and after a rewind belong to another prefix. The branch of `chat` that re-evaluates when no logits are found cannot be reached from there.
- Session.ModelInstance.Chat: texts that open an image tag are excluded; images and audio are evaluated by encoders this model does not see. The rewritten text of the template that the code computes and never uses is left out.
- Session.ModelInstance.Generate: the sampler's choices and the stop signal of other threads are functions of the step; penalties and occurrence counts do not appear.
- Session.ModelInstance.Run: a chat without turns or with an image tag, or a batch without texts, is passed over; the decoding of a batch is a function of the states it starts from, which `BatchChat.WholeChatBatch` fills in with that of `BatchDecode`.
- Session.ModelInstance.LoadInitialState: reading the state file is a parameter, present when it fits the model.
- BatchDecode.ChatBatch: sampler, penalties, stop codes and ends of thoughts are functions of round, sequence, row, counts and response; the first token of each sequence and the size of the logits buffer before the first evaluation are not modelled.
- BatchDecode.SavedStatesRightIff: the direction that needs every size holds for every type of state (`AllSizesSaveRight`); the other is shown for states that are the ids fed.
- BatchChat.WholeChatBatch: a sequence whose first token completes a stop code and is a rewind token has nothing to drop; the code takes the last element of an empty list there, which is undefined, and the model registers the response as it is. The memory freed and the logits stored on the way are left out.
- Concrete backends (ncnn, llama.cpp, MNN, CoreML, QNN, web-rwkv, opencog): foreign engines; only the fold is used.
- Trie.OptimizedTrieTokenizer.constructor: parsing and unescaping the vocabulary file is left out; lines arrive as ids and bytes.
- TableTokenizer.RwkvTokenizer.constructor: the same file is assumed to have distinct ids.
- HalfArithmetic.Fixed2HalfNearest: rounding to nearest only, for unsigned mantissas that are already normalised and shift counts a 32-bit word allows; the other rounding modes, the signed and unnormalised variants and the exception flags are left out.
- HalfArithmetic.Sqrt: `RoundsRoot` speaks of every real root; `BracketsRoot` says the same without one.
- HalfConversion.DoubleToHalfNearest: conversions from float, F16C instructions and table lookups are left out, as are all transcendental functions.
- Rwkv6.Attention.Forward: layer norm, projections and the other row-wise operators are arbitrary functions; the branch without concatenated mixing weights is left out.
- RwkvModel.Model.Forward: the final norm and the output head of the last chunk, applied to each row, are left out.
- RWKV v5 and v7 modules on sequences: only their single-token shapes work; v7 is modelled on one token.
- RwkvRescale.RescalingKeepsMeaning: that a layer norm takes no notice of the scale is a condition on it, true but for its epsilon.
- Rmpack.RMPackReader.LoadFile: the configuration is its text and a predicate that says whether it parses; files, mmap and the Windows branch are left out.
- TtsStream.Stream.ConsumerStep: each step is atomic and the detokeniser gives 320 samples a token; the memory model of threads, sleeping and timing are left out.
- Nucleus.Sample: arithmetic is exact; `exp` is any non-negative, non-decreasing function with value one at zero; the library's selection and sort, each with what it promises by itself, and the random number are parameters.
- NcnnV6.Convert: blobs are values, and `NcnnNamesV6.NamesDiffer` says that printing keeps them apart; what an operator computes is left to the engine, so tensors are named, not their numbers, and a reshape names the shape it asks for; axes, epsilons of layer norms, layer names, their counters and `build_cast` are left out.
- NcnnV7.Convert: the same; the variant of the time mixing is a parameter.
- The C interface, settings, speed counters, audio and vision preprocessing, and the other exporters: plumbing or table lookups.
