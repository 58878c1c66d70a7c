/** A dialogue that breaks the cache: its second half repeats the prompt.  With one token per byte, setting a prompt,
    chatting on, and then chatting on with a first turn that says what the prompt says makes the duplicate test of
    src/backend.cpp:41 name the wrong checkpoint, and leaves one whose state is not that of its ids. */
module RepeatedTurn {
  import opened Recurrence
  import opened Vocabulary
  import opened Chunking
  import opened Dialogue
  import opened StateCache
  import opened CacheTree
  import opened CacheRefinement
  import opened SessionValue
  import opened Session

  /** Byte b is token b + 1. */
  function Bytes(n: nat): (v: seq<Entry>)
    requires n <= 256
    ensures |v| == n && forall k :: 0 <= k < n ==> v[k] == Entry(k + 1, [k as byte])
  {
    if n == 0 then [] else Bytes(n - 1) + [Entry(n, [(n - 1) as byte])]
  }

  function Vocab(): seq<Entry> { Bytes(256) }

  const ROLES := Settings([85], ASSISTANT, [1], [2], [], [])
  const FIRST: Text := [1, 85, 58, 32, 97, 2]   // the turn "U: a"
  const SECOND: Text := [1, 85, 58, 32, 98, 2]  // the turn "U: b"
  const CUE: Text := ASSISTANT + [58]           // "Assistant:"

  function Silent(): Draws { Draws(0, (i: nat) => 0, (i: nat) => false, false) }

  function E(text: Text): seq<int> { Encode(Vocab(), text) }

  lemma ItsEncoding(text: Text)
    ensures Encode(R().vocab, text) == Encode(Vocab(), text) == E(text)
  {
  }

  lemma BytesOk()
    ensures Lossless(Vocab()) && DistinctData(Vocab()) && forall k :: 0 <= k < |Vocab()| ==> |Vocab()[k].data| == 1
  {
    forall b: byte ensures HasByte(Vocab(), b) {
      assert Vocab()[b as int].data == [b];
    }
  }

  lemma EncodeByte(a: Text)
    requires a != []
    ensures E(a) == [a[0] as int + 1] + E(a[1..])
  {
    BytesOk();
    SomethingMatches(Vocab(), a);
    var k := Longest(Vocab(), a);
    assert Vocab()[k].data == [a[0]];
  }

  /** With one token per byte the encoding is a homomorphism. */
  lemma {:induction false} EncodeConcat(a: Text, b: Text)
    ensures E(a + b) == E(a) + E(b)
    decreases |a|
  {
    hide E;
    if a == [] {
      EncodeNone();
      assert a + b == b;
    } else {
      EncodeByte(a);
      EncodeByte(a + b);
      assert (a + b)[1..] == a[1..] + b;
      EncodeConcat(a[1..], b);
    }
  }

  lemma EncodeNone()
    ensures E([]) == []
  {
  }

  lemma {:induction false} EncodeLength(a: Text)
    ensures |E(a)| == |a|
    decreases |a|
  {
    hide E;
    if a == [] {
      EncodeNone();
    } else {
      EncodeByte(a);
      EncodeLength(a[1..]);
    }
  }

  lemma NotAt(text: Text, q: int)
    requires 0 <= q < |text| && text[q] != 65
    ensures !OccursAt(text, ASSISTANT, q)
  {
    if q + 9 <= |text| { assert text[q..q + 9][0] != ASSISTANT[0]; }
  }

  /** What follows the prompt is cut in front of the cue. */
  lemma CutAtCue(front: Text)
    requires 0 < |front| <= 200 && 65 !in front
    ensures TextPieces(Vocab(), front + CUE, CHECKPOINT_INTERVAL) == [E(front), E(CUE)]
  {
    hide Vocab, Encode, Parts, Carried, OccursAt;
    PartsOfCue(front);
    EncodeLength(front);
    EncodeLength(ASSISTANT);
    EncodeLength([58]);
    EncodeConcat(ASSISTANT, [58]);
    assert front[0] != ASSISTANT[0];
    CarryCue(Vocab(), ASSISTANT, CHECKPOINT_INTERVAL, front, [58]);
  }

  lemma PartsOfCue(front: Text)
    requires 0 < |front| && 65 !in front
    ensures Parts(front + CUE, ASSISTANT, 0) == [front, ASSISTANT, [58]]
  {
    hide Find, OccursAt, Parts;
    CueAt(front);
    FindsCue(front);
    FindsNone(front + CUE, ASSISTANT, |front| + 9);
    OneMark(front + CUE, ASSISTANT, |front|);
  }

  lemma OneMark(text: Text, mark: Text, p: nat)
    requires mark != [] && 0 < p && p + |mark| < |text|
    requires Find(text, mark, 0) == p && Find(text, mark, p + |mark|) == -1
    ensures Parts(text, mark, 0) == [text[0..p], mark, text[p + |mark|..]]
  {
    hide Parts, Find;
    PartsNext(text, mark, 0);
    PartsNext(text, mark, p + |mark|);
    assert Parts(text, mark, 0) == [text[0..p]] + [mark] + [text[p + |mark|..]];
  }

  lemma FindsCue(front: Text)
    requires 65 !in front
    ensures Find(front + CUE, ASSISTANT, 0) == |front|
  {
    hide Find, OccursAt;
    CueAt(front);
    forall q | 0 <= q < |front| ensures !OccursAt(front + CUE, ASSISTANT, q) {
      NotAt(front + CUE, q);
    }
    FindsFirst(front + CUE, ASSISTANT, 0, |front|);
  }

  lemma CueAt(front: Text)
    ensures var text, n := front + CUE, |front|;
      OccursAt(text, ASSISTANT, n) && |text| == n + 10 && text[n + 9..] == [58] && text[0..n] == front
  {
    var text, n := front + CUE, |front|;
    assert text[n..n + 9] == ASSISTANT;
  }

  lemma FindsFirst(text: Text, pattern: Text, from: nat, n: nat)
    requires from <= n && OccursAt(text, pattern, n) && forall q :: from <= q < n ==> !OccursAt(text, pattern, q)
    ensures Find(text, pattern, from) == n
  {
  }

  lemma FindsNone(text: Text, pattern: Text, from: nat)
    requires from + |pattern| > |text|
    ensures Find(text, pattern, from) == -1
  {
  }

  lemma CarryCue(v: seq<Entry>, mark: Text, max: nat, a: Text, b: Text)
    requires a != mark && b != mark && 0 < |Encode(v, a)| <= max && 0 < |Encode(v, mark) + Encode(v, b)| <= max
    ensures Carried(v, mark, max, [a, mark, b], []) == [Encode(v, a), Encode(v, mark) + Encode(v, b)]
  {
    hide Encode;
    var parts := [a, mark, b];
    assert parts[0..] == parts && parts[3..] == [];
    CarriedFrom(v, mark, max, parts, 0, []);
    CarriedFrom(v, mark, max, parts, 1, []);
    CarriedFrom(v, mark, max, parts, 2, Encode(v, mark));
    assert [] + Encode(v, a) == Encode(v, a) && [] + Encode(v, mark) == Encode(v, mark);
  }

  function Append(s: seq<int>, t: int): seq<int> { s + [t] }

  lemma {:induction false} FoldAppends(s: seq<int>, ids: seq<int>)
    ensures Fold(Append, s, ids) == s + ids
    decreases |ids|
  {
    if ids != [] {
      FoldAppends(s, ids[..|ids| - 1]);
      assert s + ids[..|ids| - 1] + [ids[|ids| - 1]] == s + ids;
    }
  }

  type T = Tree<seq<int>>

  /** A tree that is one branch, and what feeding makes of its second and third level. */
  lemma FeedChild(root: T, n: T, live: seq<int>, piece: seq<int>)
    requires root.kids == [n]
    ensures Cursor(root, [0], live).Feed(Append, piece) ==
      Cursor(root.(kids := [Hung(n, piece, live + piece)]), [0, FirstSame(n.kids, piece)], live + piece)
  {
    FoldAppends(live, piece);
    assert [0] + [FirstSame(n.kids, piece)] == [0, FirstSame(n.kids, piece)];
    assert root.kids[0 := Hung(n, piece, live + piece)] == [Hung(n, piece, live + piece)];
    assert [0 as nat][1..] == [];
  }

  lemma FeedGrandchild(root: T, n: T, k: T, live: seq<int>, piece: seq<int>)
    requires root.kids == [n] && n.kids == [k]
    ensures Cursor(root, [0, 0], live).Feed(Append, piece) ==
      Cursor(root.(kids := [n.(kids := [Hung(k, piece, live + piece)])]),
             [0, 0, FirstSame(k.kids, piece)], live + piece)
  {
    FoldAppends(live, piece);
    var hung := Hung(k, piece, live + piece);
    assert [0, 0] + [FirstSame(k.kids, piece)] == [0, 0, FirstSame(k.kids, piece)];
    assert [0 as nat, 0][1..] == [0] && [0 as nat][1..] == [];
    assert Sub(n, [0]) == Sub(k, []) == k;
    assert Put(n, [0], hung) == n.(kids := [hung]);
    assert Put(root, [0, 0], hung) == root.(kids := [n.(kids := [hung])]);
  }

  lemma CleanedNone(t: T)
    requires t.kids == []
    ensures Cleaned(t) == t
  {
  }

  lemma CleanedOne(t: T, k: T)
    requires t.kids == [k] && !k.isConstant && k.count > 0
    ensures Cleaned(t) == t.(kids := [Cleaned(k).(count := k.count - 1)])
  {
    CleanedFrom(t.kids, 0);
    assert t.kids[0..] == t.kids && CleanedAll(t.kids[1..]) == [];
  }

  lemma CleanedTwo(t: T, k: T, l: T)
    requires t.kids == [k, l] && !k.isConstant && k.count > 0 && !l.isConstant && l.count > 0
    ensures Cleaned(t) == t.(kids := [Cleaned(k).(count := k.count - 1), Cleaned(l).(count := l.count - 1)])
  {
    CleanedFrom(t.kids, 0);
    CleanedFrom(t.kids, 1);
    assert t.kids[0..] == t.kids && CleanedAll(t.kids[2..]) == [];
  }

  function R(): Rules<seq<int>> { Rules(Append, Vocab(), [], ROLES) }

  function Learned(ids: seq<int>, state: seq<int>, count: int, kids: seq<T>): T { Tree(ids, state, false, count, kids) }

  /** The cache after the prompt, and after the first chat. */
  function Branch(kids: seq<T>, count: int): T {
    Learned([], [], 20, [Learned(E(FIRST), E(FIRST), count, kids)])
  }

  function Answer(count: int, more: seq<T>): seq<T> {
    var ids := E(FIRST) + E(SECOND);
    [Learned(ids, ids, count, if more == [] then [Leaf(count)] else [Leaf(count - 1)] + more)]
  }

  function Leaf(count: int): T {
    var ids := E(FIRST) + E(SECOND) + E(CUE);
    Learned(ids, ids, count, [])
  }

  lemma SetPromptFirst()
    ensures R().After(Memory(Learned([], [], 20, []), []), Prompt(FIRST)) == Memory(Branch([], 20), FIRST)
  {
    var root, t := Learned([], [], 20, []), E(FIRST);
    hide Rules.After, E, Fold;
    R().AfterPrompt(Memory(root, []), FIRST);
    EncodeLength(FIRST);
    ItsEncoding(FIRST);
    assert Lookup(root, t) == Cursor(root, [], []) && Rest(root, t) == t;
    FoldAppends([], t);
    assert [] + t == t;
    assert Hung(root, t, t) == Branch([], 20);
  }

  /** What the first chat says, and what of it is new. */
  lemma FirstDialogue()
    ensures ApplyChatTemplate(ROLES, FIRST, [[98]], false) == FIRST + (SECOND + CUE)
    ensures ApplyChatTemplate(ROLES, FIRST, [[97, 2, 1, 85, 58, 32, 98]], false) == FIRST + (FIRST + SECOND + CUE)
  {
    hide ApplyChatTemplate;
    OneTurn([98]);
    OneTurn([97, 2, 1, 85, 58, 32, 98]);
  }

  lemma OneTurn(input: Text)
    ensures ApplyChatTemplate(ROLES, FIRST, [input], false) == FIRST + ([1, 85, 58, 32] + input + [2] + CUE)
  {
    assert Turns(ROLES, [input], 0) == [];
    assert Turns(ROLES, [input], 1) == [] + [1] + [85] + [58, 32] + input + [2];
  }

  lemma NoTag(text: Text)
    requires 60 !in text
    ensures R().Speaks(text)
  {
    forall q ensures !OccursAt(text, StartTag([]), q) {
      if 0 <= q && q + 2 <= |text| { assert text[q..q + 2][0] != 60; }
    }
  }

  /** A dialogue that goes on from the prompt is matched to it, and cut in front of the cue. */
  lemma FromPrompt(front: Text, kids: seq<T>, count: int)
    requires 0 < |front| <= 200 && 65 !in front
    requires forall k :: k in kids ==> !(k.ids <= E(FIRST + (front + CUE)))
    ensures var ids := E(FIRST + (front + CUE));
      && Lookup(Branch(kids, count), ids) == Cursor(Branch(kids, count + 1), [0], E(FIRST))
      && Walk(Branch(kids, count), ids) == [0]
      && Sub(Branch(kids, count), [0]) == Branch(kids, count).kids[0]
      && R().ToPrefill(Branch(kids, count), FIRST + (front + CUE)) == [E(front), E(CUE)]
  {
    EncodeConcat(FIRST, front + CUE);
    WalkToPrompt(E(front + CUE), kids, count);
    CutAtCue(front);
    hide Vocab, Lookup, Branch, TextPieces, Encode, Decode;
    RestIs(front + CUE);
  }

  lemma RestIs(more: Text)
    requires more != []
    ensures Decode(Vocab(), E(more)) == more && E(more) != []
  {
    BytesOk();
    DecodeEncode(Vocab(), more);
    EncodeLength(more);
  }

  lemma WalkToPrompt(more: seq<int>, kids: seq<T>, count: int)
    requires forall k :: k in kids ==> !(k.ids <= E(FIRST) + more)
    ensures var ids := E(FIRST) + more;
      && Lookup(Branch(kids, count), ids) == Cursor(Branch(kids, count + 1), [0], E(FIRST))
      && Walk(Branch(kids, count), ids) == [0]
      && Sub(Branch(kids, count), [0]) == Branch(kids, count).kids[0]
      && Rest(Branch(kids, count), ids) == more
  {
    hide E;
    var root, ids, n := Branch(kids, count), E(FIRST) + more, Branch(kids, count).kids[0];
    assert FirstPrefix(n.kids, ids) == |n.kids|;
    assert Walk(n, ids) == [] && Resumed(n, ids) == n;
    assert FirstPrefix(root.kids, ids) == 0;
    assert Walk(root, ids) == [0] + [];
    assert root.kids[0 := Counted(n)] == Branch(kids, count + 1).kids;
    assert [0 as nat][1..] == [];
    assert Sub(root, [0]) == n;
  }

  lemma FeedTwo(c: Cursor<seq<int>>, a: seq<int>, b: seq<int>)
    ensures c.FeedAll(Append, [a, b]) == c.Feed(Append, a).Feed(Append, b)
    ensures c.Misfires(a) ==> c.Strays(Append, [a, b])
  {
    assert [a, b][1..] == [b] && [b][1..] == [];
    assert c.FeedAll(Append, [a, b]) == c.Feed(Append, a).FeedAll(Append, [b]);
    var d := c.Feed(Append, a);
    assert d.FeedAll(Append, [b]) == d.Feed(Append, b).FeedAll(Append, []);
  }

  /** A chat without a response leaves the tree of its text, aged. */
  lemma SilentChat(tree: T, inputs: seq<Text>, text: Text)
    requires inputs != [] && text == ApplyChatTemplate(ROLES, FIRST, inputs, false) && 60 !in text
    ensures var m, command := Memory(tree, FIRST), Converse(inputs, Silent());
      && R().After(m, command) == Memory(Cleaned(R().Prefilled(tree, text).tree), FIRST)
      && (R().PrefillStrays(tree, text) ==> R().Strays(m, command))
  {
    hide ApplyChatTemplate, Rules.Prefilled, Rules.PrefillStrays, Rules.Speaks, Cleaned;
    NoTag(text);
    assert R().ReplyTo(text, Silent()) == [];
  }

  /** The first chat hangs its two chunks below the prompt. */
  lemma ChatOn()
    ensures R().After(Memory(Branch([], 20), FIRST), Converse([[98]], Silent())) ==
      Memory(Branch(Answer(20, []), 20), FIRST)
  {
    hide Rules.After, E, Cleaned, Lookup, Cursor.Feed, Cursor.FeedAll, Rules.ToPrefill;
    hide Walk, Sub, Answer, Branch, ApplyChatTemplate;
    var text := FIRST + (SECOND + CUE);
    FirstDialogue();
    SilentChat(Branch([], 20), [[98]], text);
    FromPrompt(SECOND, [], 20);
    var c := Cursor(Branch([], 21), [0], E(FIRST));
    FeedTwo(c, E(SECOND), E(CUE));
    HangAnswer();
    AgeAnswer();
    ItsEncoding(text);
    assert R().Prefilled(Branch([], 20), text) == c.FeedAll(Append, [E(SECOND), E(CUE)]);
  }

  lemma HangAnswer()
    ensures Cursor(Branch([], 21), [0], E(FIRST)).Feed(Append, E(SECOND)).Feed(Append, E(CUE)).tree ==
      Branch(Answer(21, []), 21)
  {
    hide E, Cursor.Feed;
    var t, x, q := E(FIRST), E(SECOND), E(CUE);
    var n := Learned(t, t, 21, []);
    var k := Learned(t + x, t + x, 21, []);
    FeedChild(Branch([], 21), n, t, x);
    assert Hung(n, x, t + x) == n.(kids := [k]);
    FeedGrandchild(Branch([k], 21), n.(kids := [k]), k, t + x, q);
    assert Branch([], 21).(kids := [n.(kids := [k])]) == Branch([k], 21);
    assert Hung(k, q, t + x + q) == Answer(21, [])[0];
  }

  lemma AgeAnswer()
    ensures Cleaned(Branch(Answer(21, []), 21)) == Branch(Answer(20, []), 20)
  {
    hide E, Cleaned;
    var n := Branch(Answer(21, []), 21).kids[0];
    var k := n.kids[0];
    var leaf := k.kids[0];
    assert leaf == Leaf(21) && k.kids == [leaf];
    CleanedOne(Branch(Answer(21, []), 21), n);
    CleanedOne(n, k);
    CleanedOne(k, leaf);
    CleanedNone(leaf);
  }

  /** The checkpoint the next chat leaves: its ids are the first dialogue's, its state says the first turn twice. */
  function Wrong(count: int): T {
    var ids := E(FIRST) + E(SECOND) + E(CUE);
    Learned(ids, E(FIRST) + ids, count, [])
  }

  const AGAIN: Text := [97, 2, 1, 85, 58, 32, 98]  // "a", the end of the turn, and "U: b": one input

  lemma {:induction false} EncodeAt(a: Text, i: nat)
    requires i < |a|
    ensures i < |E(a)| && E(a)[i] == a[i] as int + 1
    decreases |a|
  {
    hide E;
    EncodeByte(a);
    if i > 0 { EncodeAt(a[1..], i - 1); }
  }

  /** The second turn is not the first. */
  lemma TurnsDiffer(more: seq<int>)
    ensures !(E(FIRST) + E(SECOND) <= E(FIRST) + (E(FIRST) + more))
  {
    hide E;
    EncodeAt(FIRST, 4);
    EncodeAt(SECOND, 4);
    EncodeLength(FIRST);
    var a, b := E(FIRST) + E(SECOND), E(FIRST) + (E(FIRST) + more);
    assert |a| > 10 && a[10] == 99 by { EncodeLength(SECOND); }
    assert b[10] == 98;
  }

  /** The next chat strays, and leaves the wrong checkpoint behind. */
  lemma ChatOnAgain()
    ensures var m, command := Memory(Branch(Answer(20, []), 20), FIRST), Converse([AGAIN], Silent());
      && R().Strays(m, command)
      && R().After(m, command) == Memory(Branch(Answer(20, [Wrong(20)]), 20), FIRST)
  {
    hide Rules.After, Rules.Strays, E, Cleaned, Lookup, Cursor.Feed, Cursor.FeedAll, Cursor.Misfires, Cursor.Strays;
    hide Rules.ToPrefill, Walk, Sub, Answer, Branch, ApplyChatTemplate, Wrong;
    var front, text := FIRST + SECOND, FIRST + (FIRST + SECOND + CUE);
    FirstDialogue();
    SilentChat(Branch(Answer(20, []), 20), [AGAIN], text);
    FromPromptAgain();
    var c := Cursor(Branch(Answer(20, []), 21), [0], E(FIRST));
    FeedTwo(c, E(front), E(CUE));
    EncodeConcat(FIRST, SECOND);
    MistakesAnswer();
    HangWrong();
    AgeWrong();
    PrefilledFrom(Branch(Answer(20, []), 20), text, c, [E(front), E(CUE)]);
  }

  lemma PrefilledFrom(tree: T, text: Text, c: Cursor<seq<int>>, pieces: seq<seq<int>>)
    requires Lookup(tree, E(text)) == c && R().ToPrefill(tree, text) == pieces
    ensures R().Prefilled(tree, text) == c.FeedAll(Append, pieces)
    ensures R().PrefillStrays(tree, text) == c.Strays(Append, pieces)
  {
  }

  lemma FromPromptAgain()
    ensures var tree, text := Branch(Answer(20, []), 20), FIRST + (FIRST + SECOND + CUE);
      && Lookup(tree, E(text)) == Cursor(Branch(Answer(20, []), 21), [0], E(FIRST))
      && R().ToPrefill(tree, text) == [E(FIRST + SECOND), E(CUE)]
  {
    hide E, Lookup, Rules.ToPrefill, Walk, Sub, Answer, Branch;
    NotDeeper();
    assert 65 !in FIRST + SECOND && |FIRST + SECOND| == 12;
    FromPrompt(FIRST + SECOND, Answer(20, []), 20);
  }

  lemma NotDeeper()
    ensures forall k :: k in Answer(20, []) ==> !(k.ids <= E(FIRST + (FIRST + SECOND + CUE)))
  {
    hide E;
    EncodeConcat(FIRST, FIRST + SECOND + CUE);
    EncodeConcat(FIRST, SECOND + CUE);
    assert FIRST + SECOND + CUE == FIRST + (SECOND + CUE);
    TurnsDiffer(E(SECOND + CUE));
  }

  lemma MistakesAnswer()
    ensures Cursor(Branch(Answer(20, []), 21), [0], E(FIRST)).Misfires(E(FIRST) + E(SECOND))
  {
    hide E;
    assert [0 as nat][1..] == [];
  }

  lemma HangWrong()
    ensures Cursor(Branch(Answer(20, []), 21), [0], E(FIRST))
      .Feed(Append, E(FIRST) + E(SECOND)).Feed(Append, E(CUE)).tree ==
      Branch([Learned(E(FIRST) + E(SECOND), E(FIRST) + E(SECOND), 21, [Leaf(20), Wrong(21)])], 21)
  {
    hide E, Cursor.Feed;
    var t, x, q := E(FIRST), E(SECOND), E(CUE);
    EncodeLength(FIRST);
    var kid := Learned(t + x, t + x, 20, [Leaf(20)]);
    var n := Learned(t, t, 21, [kid]);
    var counted := Counted(kid);
    FeedChild(Branch([kid], 21), n, t, t + x);
    assert Hung(n, t + x, t + (t + x)) == n.(kids := [counted]) by { assert FirstSame(n.kids, t + x) == 0; }
    assert Branch([kid], 21).(kids := [n.(kids := [counted])]) == Branch([counted], 21);
    FeedGrandchild(Branch([counted], 21), n.(kids := [counted]), counted, t + (t + x), q);
    assert FirstSame(counted.kids, q) == 1;
    assert t + (t + x) + q == t + (t + x + q);
    assert Hung(counted, q, t + (t + x) + q) == counted.(kids := [Leaf(20), Wrong(21)]);
  }

  lemma AgeWrong()
    ensures Cleaned(Branch([Learned(E(FIRST) + E(SECOND), E(FIRST) + E(SECOND), 21, [Leaf(20), Wrong(21)])], 21)) ==
      Branch(Answer(20, [Wrong(20)]), 20)
  {
    hide E, Cleaned;
    var k := Learned(E(FIRST) + E(SECOND), E(FIRST) + E(SECOND), 21, [Leaf(20), Wrong(21)]);
    var n := Learned(E(FIRST), E(FIRST), 21, [k]);
    CleanedOne(Branch([k], 21), n);
    CleanedOne(n, k);
    CleanedTwo(k, Leaf(20), Wrong(21));
    CleanedNone(Leaf(20));
    CleanedNone(Wrong(21));
    assert Answer(20, [Wrong(20)])[0].kids == [Leaf(19), Wrong(20)];
  }

  /** The run: a prompt of one turn, a chat that goes on with a second, and a chat that starts with the first turn over
      again.  It strays, and the cache is left with a checkpoint that is not its parent's state advanced. */
  method RepeatedTurnStrays() returns (m: ModelInstance<seq<int>>)
    ensures m.Valid() && m.backend.misfired && !m.backend.Coherent()
  {
    BytesOk();
    m := new ModelInstance(Append, [], Vocab(), [], ROLES);
    var commands: seq<Command<seq<int>>> := [Prompt(FIRST), Converse([[98]], Silent()), Converse([AGAIN], Silent())];
    ThreeCalls(m.Value(), commands);
    m.Run(commands);
    Incoherent(m);
  }

  lemma ThreeCalls(m: Memory<seq<int>>, commands: seq<Command<seq<int>>>)
    requires m == Memory(Learned([], [], 20, []), [])
    requires commands == [Prompt(FIRST), Converse([[98]], Silent()), Converse([AGAIN], Silent())]
    ensures R().StraysIn(m, commands) && R().AfterAll(m, commands) == Memory(Branch(Answer(20, [Wrong(20)]), 20), FIRST)
  {
    hide Rules.After, Rules.Strays, Branch, Answer, Wrong;
    var two, one := commands[..2], commands[..1];
    assert two[..1] == one && one[..0] == [] && two[1] == commands[1] && one[0] == commands[0];
    SetPromptFirst();
    ChatOn();
    ChatOnAgain();
    assert R().AfterAll(m, []) == m;
    assert R().AfterAll(m, one) == R().After(m, commands[0]);
    assert R().AfterAll(m, two) == R().After(R().AfterAll(m, one), commands[1]);
  }

  lemma Incoherent(m: ModelInstance<seq<int>>)
    requires m.Valid() && m.backend.step == Append && Cache(m.backend) == Branch(Answer(20, [Wrong(20)]), 20)
    ensures !m.backend.Coherent()
  {
    hide E;
    var c := m.backend;
    assert c.OwnsChildren(c.root);
    var n := c.root.children[0];
    assert TreeOf(c, n) == Branch(Answer(20, [Wrong(20)]), 20).kids[0] && c.OwnsChildren(n);
    var k := n.children[0];
    assert TreeOf(c, k) == Answer(20, [Wrong(20)])[0] && c.OwnsChildren(k);
    var wrong := k.children[1];
    assert TreeOf(c, wrong) == Wrong(20) && c.Attached(wrong);
    EncodeLength(FIRST);
    FoldAppends(k.state, wrong.ids[|k.ids|..]);
    assert !c.Advances(wrong);
  }
}
