/** Dynamic batching (src/runtime.cpp:1029-1207): sequences decode in shared slots, finish at different
    times and are compacted into fewer slots.  Whatever the others do, each sequence decodes as if alone. */
module BatchDecode {
  import opened Options
  import opened Recurrence
  import Dialogue

  /** What prefill leaves for one sequence (src/runtime.cpp:961-1023). */
  datatype Start<S> = Start(state: S, token: int, pseudoThinking: bool)

  const COMMA: int := 11

  /** The model, the sampler and the sequences of one call.  `pick` is the token drawn for a sequence in a
      round from its row of logits, `stops` the stop-code test on its response so far and the next token, `closes`
      whether they contain the end of a thought. */
  datatype World<!S, !L, !O> = World(
    step: (S, int) -> S, logits: (S, int) -> L, blank: L,
    penalise: (L, O) -> L, decay: O -> O, count: (O, int) -> O, unseen: O,
    mask: L -> L, pick: (nat, nat, L) -> int, stops: (nat, seq<int>, int) -> bool,
    thinking: bool, closes: (nat, seq<int>, int) -> bool,
    starts: seq<Start<S>>)
  {
    /** The token of round `i`: the prefill's at first, then drawn from the penalised row. */
    function Token(i: nat, o: nat, row: L, seen: O, last: int): int
      requires o < |starts|
    {
      if i == 0 then last else pick(i, o, Penalised(i, o, row, seen, last))
    }

    function Penalised(i: nat, o: nat, row: L, seen: O, last: int): L
      requires o < |starts|
    {
      var row := penalise(row, seen);
      if starts[o].pseudoThinking && i == 1 && last == COMMA then mask(row) else row
    }

    function Faded(i: nat, seen: O): O {
      if i == 0 then seen else decay(seen)
    }

    predicate Ends(o: nat, ids: seq<int>, token: int) {
      token == 0 || stops(o, ids, token)
    }

    /** What is held once `token` is drawn: `now` before a rewind token; otherwise, while a thought goes on, what was
        held before, and nothing after that (src/runtime.cpp:1082-1092). */
    function Held<T>(o: nat, ids: seq<int>, token: int, now: T, before: Hold<T>): Hold<T> {
      var thinks := thinking && !before.thought;
      Hold(if Dialogue.IsRewindToken(token) then Some(now) else if thinks then before.state else None,
           before.thought || (thinks && closes(o, ids, token)))
    }
  }

  /** What is held for a sequence, to go back to before its last token, and whether its thought has ended. */
  datatype Hold<S> = Hold(state: Option<S>, thought: bool)

  /** One sequence decoding alone. */
  datatype Solo<S, L, O> = Solo(ids: seq<int>, state: S, row: L, seen: O, token: int, done: bool)

  function SoloStep<S, L, O>(w: World<S, L, O>, o: nat, i: nat, s: Solo<S, L, O>): Solo<S, L, O>
    requires o < |w.starts|
  {
    var token := w.Token(i, o, s.row, s.seen, s.token);
    if s.done then s
    else if w.Ends(o, s.ids, token) then s.(done := true)
    else
      Solo(s.ids + [token], w.step(s.state, token), w.logits(s.state, token),
           w.count(w.Faded(i, s.seen), token), token, false)
  }

  /** Sequence `o` alone after `n` rounds. */
  function SoloRun<S, L, O>(w: World<S, L, O>, o: nat, n: nat): Solo<S, L, O>
    requires o < |w.starts|
  {
    if n == 0 then Solo([], w.starts[o].state, w.blank, w.unseen, w.starts[o].token, false)
    else SoloStep(w, o, n - 1, SoloRun(w, o, n - 1))
  }

  /** Alone, the state is that of the response so far. */
  lemma {:induction false} SoloState<S, L, O>(w: World<S, L, O>, o: nat, n: nat)
    requires o < |w.starts|
    ensures var s := SoloRun(w, o, n); s.state == Fold(w.step, w.starts[o].state, s.ids)
  {
    if n > 0 {
      SoloState(w, o, n - 1);
      var s := SoloRun(w, o, n - 1);
      FoldSnoc(w.step, w.starts[o].state, s.ids, w.Token(n - 1, o, s.row, s.seen, s.token));
    }
  }

  /** A finished sequence stays as it is, an unfinished one has said one token a round. */
  lemma {:induction false} SoloLength<S, L, O>(w: World<S, L, O>, o: nat, n: nat, m: nat)
    requires o < |w.starts| && n <= m
    ensures SoloRun(w, o, n).done ==> SoloRun(w, o, m) == SoloRun(w, o, n)
    ensures SoloRun(w, o, n).ids <= SoloRun(w, o, m).ids
    ensures !SoloRun(w, o, m).done ==> |SoloRun(w, o, m).ids| == m
    decreases m
  {
    if n < m {
      SoloLength(w, o, n, m - 1);
    } else if m > 0 {
      SoloLength(w, o, m - 1, m - 1);
    }
  }

  /** How often each token has been said, what was said earlier fading with every token after it but the first
      (src/sampler.cpp:129-140, src/runtime.cpp:1206). */
  function Occurrences<S, L, O>(w: World<S, L, O>, ids: seq<int>): O
    decreases |ids|
  {
    if ids == [] then w.unseen
    else
      var before := Occurrences(w, ids[..|ids| - 1]);
      w.count(if |ids| == 1 then before else w.decay(before), ids[|ids| - 1])
  }

  /** What sequence `o` draws with `ids` said: the prefill's token at first; then from the row of the last token after
      all before it, with the penalties for all that has been said, and with a mark if a thought closed in the prompt
      is followed by a comma (src/runtime.cpp:1040-1053). */
  function Draw<S, L, O>(w: World<S, L, O>, o: nat, ids: seq<int>): int
    requires o < |w.starts|
  {
    if ids == [] then w.starts[o].token
    else
      var n := |ids|;
      var row := w.logits(Fold(w.step, w.starts[o].state, ids[..n - 1]), ids[n - 1]);
      var penalised := w.penalise(row, Occurrences(w, ids));
      w.pick(n, o, if w.starts[o].pseudoThinking && ids == [COMMA] then w.mask(penalised) else penalised)
  }

  /** A sequence alone draws so. */
  lemma {:induction false} DrawnAlone<S, L, O>(w: World<S, L, O>, o: nat, n: nat)
    requires o < |w.starts| && !SoloRun(w, o, n).done
    ensures |SoloRun(w, o, n).ids| == n && LastDrawn(w, o, n) == Draw(w, o, SoloRun(w, o, n).ids)
  {
    SoloLength(w, o, n, n);
    SeenAlone(w, o, n);
  }

  /** What it draws from. */
  lemma {:induction false} SeenAlone<S, L, O>(w: World<S, L, O>, o: nat, n: nat)
    requires o < |w.starts| && !SoloRun(w, o, n).done
    ensures SeenIs(w, o, n)
  {
    hide Fold, Occurrences, SoloRun;
    if n == 0 {
      NothingSeen(w, o);
    } else {
      hide SeenIs;
      SoloLength(w, o, n - 1, n);
      SeenAlone(w, o, n - 1);
      SoloState(w, o, n - 1);
      SeenNext(w, o, n - 1);
    }
  }

  /** What has been counted, the token said last, and the row behind it. */
  ghost predicate SeenIs<S, L, O>(w: World<S, L, O>, o: nat, n: nat)
    requires o < |w.starts|
  {
    var s := SoloRun(w, o, n);
    var ids := s.ids;
    && |ids| == n && s.seen == Occurrences(w, ids) && s.token == (if n == 0 then w.starts[o].token else ids[n - 1])
    && (n > 0 ==> s.row == w.logits(Fold(w.step, w.starts[o].state, ids[..n - 1]), ids[n - 1]))
  }

  lemma NothingSeen<S, L, O>(w: World<S, L, O>, o: nat)
    requires o < |w.starts|
    ensures SeenIs(w, o, 0)
  {
  }

  lemma SeenNext<S, L, O>(w: World<S, L, O>, o: nat, n: nat)
    requires o < |w.starts| && !SoloRun(w, o, n + 1).done && !SoloRun(w, o, n).done
    requires var s := SoloRun(w, o, n); SeenIs(w, o, n) && s.state == Fold(w.step, w.starts[o].state, s.ids)
    ensures SeenIs(w, o, n + 1)
  {
    hide Fold;
    var s, t := SoloRun(w, o, n), SoloRun(w, o, n + 1);
    assert t == SoloStep(w, o, n, s) && t.ids == s.ids + [LastDrawn(w, o, n)];
    assert t.ids[..n] == s.ids;
  }

  /** `ids` are drawn one after another; none of them is 0 or completes a stop code. */
  ghost predicate Said<S, L, O>(w: World<S, L, O>, o: nat, ids: seq<int>)
    requires o < |w.starts|
  {
    forall k :: 0 <= k < |ids| ==>
      ids[k] == Draw(w, o, ids[..k]) && ids[k] != 0 && !w.stops(o, ids[..k], ids[k])
  }

  /** The next token would be one that ends the response. */
  predicate Final<S, L, O>(w: World<S, L, O>, o: nat, ids: seq<int>)
    requires o < |w.starts|
  {
    Draw(w, o, ids) == 0 || w.stops(o, ids, Draw(w, o, ids))
  }

  /** A sequence alone says what it draws, up to the first token that ends its response. */
  lemma {:induction false} SoloSaid<S, L, O>(w: World<S, L, O>, o: nat, n: nat)
    requires o < |w.starts|
    ensures var s := SoloRun(w, o, n);
      Said(w, o, s.ids) && if s.done then |s.ids| < n && Final(w, o, s.ids) else |s.ids| == n
  {
    hide SoloRun, Final, Draw, LastDrawn;
    if n == 0 {
      NoneSaid(w, o);
    } else {
      hide Said;
      SoloSaid(w, o, n - 1);
      SoloLength(w, o, n - 1, n);
      if !SoloRun(w, o, n - 1).done {
        DrawnAlone(w, o, n - 1);
        SaidNext(w, o, n - 1);
      }
    }
  }

  lemma NoneSaid<S, L, O>(w: World<S, L, O>, o: nat)
    requires o < |w.starts|
    ensures SoloRun(w, o, 0).ids == [] && !SoloRun(w, o, 0).done
  {
  }

  lemma SaidNext<S, L, O>(w: World<S, L, O>, o: nat, n: nat)
    requires o < |w.starts| && !SoloRun(w, o, n).done && Said(w, o, SoloRun(w, o, n).ids)
    requires |SoloRun(w, o, n).ids| == n && LastDrawn(w, o, n) == Draw(w, o, SoloRun(w, o, n).ids)
    ensures var s, t := SoloRun(w, o, n), SoloRun(w, o, n + 1);
      && t.done == Final(w, o, s.ids)
      && t.ids == (if t.done then s.ids else s.ids + [Draw(w, o, s.ids)]) && Said(w, o, t.ids)
  {
    hide Draw;
    var s, t := SoloRun(w, o, n), SoloRun(w, o, n + 1);
    assert t == SoloStep(w, o, n, s);
    if !t.done {
      assert t.ids[..n] == s.ids && forall k :: 0 <= k < n ==> t.ids[..k] == s.ids[..k];
    }
  }

  /** There is one response of each length, and one that ends. */
  lemma {:induction false} SaidOnce<S, L, O>(w: World<S, L, O>, o: nat, a: seq<int>, b: seq<int>)
    requires o < |w.starts| && Said(w, o, a) && Said(w, o, b) && |a| <= |b|
    ensures a == b[..|a|] && (Final(w, o, a) ==> a == b)
    decreases |a|
  {
    hide Draw;
    if a != [] {
      var n := |a| - 1;
      assert forall k :: 0 <= k < n ==> a[..n][..k] == a[..k];
      SaidOnce(w, o, a[..n], b);
      assert a == a[..n] + [a[n]] && b[..n + 1] == b[..n] + [b[n]];
    }
    assert b[..|b|] == b;
  }

  /** What is held for sequence `o` after `n` rounds. */
  function HeldRun<S, L, O>(w: World<S, L, O>, o: nat, n: nat): Hold<S>
    requires o < |w.starts|
  {
    if n == 0 then Hold(None, false)
    else
      var s, h := SoloRun(w, o, n - 1), HeldRun(w, o, n - 1);
      var token := w.Token(n - 1, o, s.row, s.seen, s.token);
      if s.done || token == 0 then h else w.Held(o, s.ids, token, s.state, h)
  }

  /** The same, with the length of the response in place of the state. */
  function HeldAt<S, L, O>(w: World<S, L, O>, o: nat, n: nat): Hold<nat>
    requires o < |w.starts|
  {
    if n == 0 then Hold(None, false)
    else
      var s, h := SoloRun(w, o, n - 1), HeldAt(w, o, n - 1);
      var token := w.Token(n - 1, o, s.row, s.seen, s.token);
      if s.done || token == 0 then h else w.Held(o, s.ids, token, |s.ids|, h)
  }

  /** A held state is that of the response up to where it was held. */
  lemma {:induction false} HeldIsPrefix<S, L, O>(w: World<S, L, O>, o: nat, n: nat, r: nat)
    requires o < |w.starts| && n <= r + 1
    ensures Marks(w.step, w.starts[o].state, SoloRun(w, o, r).ids, HeldRun(w, o, n), HeldAt(w, o, n))
    decreases n
  {
    hide SoloRun, HeldRun, HeldAt, LastDrawn, Fold, Marks, World.Held;
    if n == 0 {
      NothingHeld(w, o, SoloRun(w, o, r).ids);
    } else {
      var s, h, at := SoloRun(w, o, n - 1), HeldRun(w, o, n - 1), HeldAt(w, o, n - 1);
      HeldIsPrefix(w, o, n - 1, n - 1);
      SoloState(w, o, n - 1);
      SoloLength(w, o, n - 1, r);
      HeldRunNext(w, o, n - 1);
      if !s.done && LastDrawn(w, o, n - 1) != 0 { MarksHeld(w, o, s, LastDrawn(w, o, n - 1), h, at); }
      MarksOn(w.step, w.starts[o].state, s.ids, SoloRun(w, o, r).ids, HeldRun(w, o, n), HeldAt(w, o, n));
    }
  }

  lemma NothingHeld<S, L, O>(w: World<S, L, O>, o: nat, ids: seq<int>)
    requires o < |w.starts|
    ensures Marks(w.step, w.starts[o].state, ids, HeldRun(w, o, 0), HeldAt(w, o, 0))
  {
  }

  /** `at` says how much of the response the held state is that of. */
  ghost predicate Marks<S>(step: (S, int) -> S, start: S, ids: seq<int>, h: Hold<S>, at: Hold<nat>) {
    && h.thought == at.thought && (h.state.Some? <==> at.state.Some?)
    && (h.state.Some? ==> at.state.value <= |ids| && h.state.value == Fold(step, start, ids[..at.state.value]))
  }

  lemma MarksOn<S>(step: (S, int) -> S, start: S, ids: seq<int>, longer: seq<int>, h: Hold<S>, at: Hold<nat>)
    requires Marks(step, start, ids, h, at) && ids <= longer
    ensures Marks(step, start, longer, h, at)
  {
    if h.state.Some? { assert longer[..at.state.value] == ids[..at.state.value]; }
  }

  lemma MarksHeld<S, L, O>(w: World<S, L, O>, o: nat, s: Solo<S, L, O>, token: int, h: Hold<S>, at: Hold<nat>)
    requires o < |w.starts| && s.state == Fold(w.step, w.starts[o].state, s.ids)
    requires Marks(w.step, w.starts[o].state, s.ids, h, at)
    ensures Marks(w.step, w.starts[o].state, s.ids, w.Held(o, s.ids, token, s.state, h),
                  w.Held(o, s.ids, token, |s.ids|, at))
  {
    assert s.ids[..|s.ids|] == s.ids;
  }

  lemma HeldRunNext<S, L, O>(w: World<S, L, O>, o: nat, n: nat)
    requires o < |w.starts|
    ensures var s, token := SoloRun(w, o, n), LastDrawn(w, o, n);
      && HeldRun(w, o, n + 1) ==
        (if s.done || token == 0 then HeldRun(w, o, n) else w.Held(o, s.ids, token, s.state, HeldRun(w, o, n)))
      && HeldAt(w, o, n + 1) ==
        (if s.done || token == 0 then HeldAt(w, o, n) else w.Held(o, s.ids, token, |s.ids|, HeldAt(w, o, n)))
  {
  }

  /** Where the state before the last token of a response would be held. */
  function BeforeRewind(ids: seq<int>): Option<nat> {
    if ids != [] && Dialogue.IsRewindToken(ids[|ids| - 1]) then Some(|ids| - 1) else None
  }

  /** Without a thought to wait for, the state held is that before the last token, if that is a rewind token. */
  lemma {:induction false} HeldWhileGoing<S, L, O>(w: World<S, L, O>, o: nat, n: nat)
    requires o < |w.starts| && !w.thinking && !SoloRun(w, o, n).done
    ensures HeldAt(w, o, n).state == BeforeRewind(SoloRun(w, o, n).ids)
  {
    if n > 0 { SoloLength(w, o, n - 1, n); }
  }

  /** It stays so if token 0 ends the response.  A stop code leaves nothing, or, if the token that completes it is a
      rewind token, the state of the whole response, which does not contain that token. */
  lemma {:induction false} HeldAtEnd<S, L, O>(w: World<S, L, O>, o: nat, r: nat, n: nat)
    requires o < |w.starts| && !w.thinking && r < n && !SoloRun(w, o, r).done && SoloRun(w, o, r + 1).done
    ensures var ids, last := SoloRun(w, o, r).ids, LastDrawn(w, o, r);
      && SoloRun(w, o, n).ids == ids
      && HeldAt(w, o, n).state ==
        if last == 0 then BeforeRewind(ids) else if Dialogue.IsRewindToken(last) then Some(|ids|) else None
    decreases n
  {
    if n == r + 1 {
      HeldWhileGoing(w, o, r);
    } else {
      HeldAtEnd(w, o, r, n - 1);
      SoloLength(w, o, r + 1, n - 1);
    }
  }

  /** A token has closed the thought. */
  ghost predicate ThoughtClosed<S, L, O>(w: World<S, L, O>, o: nat, tokens: seq<int>) {
    exists j :: 0 <= j < |tokens| && w.closes(o, tokens[..j], tokens[j])
  }

  /** Place `p` holds a rewind token, and no later token is one; or any later token at all, once no thought goes on. */
  ghost predicate HeldPoint<S, L, O>(w: World<S, L, O>, o: nat, tokens: seq<int>, p: nat) {
    && p < |tokens| && Dialogue.IsRewindToken(tokens[p])
    && forall k :: p < k < |tokens| ==>
      !Dialogue.IsRewindToken(tokens[k]) && w.thinking && !ThoughtClosed(w, o, tokens[..k])
  }

  /** `h` is what there is to hold after looking at `tokens`. */
  ghost predicate HoldsFor<S, L, O>(w: World<S, L, O>, o: nat, tokens: seq<int>, h: Hold<nat>) {
    && (h.thought <==> w.thinking && ThoughtClosed(w, o, tokens))
    && forall p: nat :: HeldPoint(w, o, tokens, p) <==> h.state == Some(p)
  }

  lemma HoldsNext<S, L, O>(w: World<S, L, O>, o: nat, tokens: seq<int>, token: int, h: Hold<nat>)
    requires HoldsFor(w, o, tokens, h)
    ensures HoldsFor(w, o, tokens + [token], w.Held(o, tokens, token, |tokens|, h))
  {
    var n, next, g := |tokens|, tokens + [token], w.Held(o, tokens, token, |tokens|, h);
    assert next[..n] == tokens && forall k :: 0 <= k < n ==> next[..k] == tokens[..k] && next[k] == tokens[k];
    assert ThoughtClosed(w, o, next) <==> ThoughtClosed(w, o, tokens) || w.closes(o, next[..n], next[n]);
    forall p: nat ensures HeldPoint(w, o, next, p) <==> g.state == Some(p) {
      assert p < n ==>
        (HeldPoint(w, o, next, p) <==>
         HeldPoint(w, o, tokens, p) && !Dialogue.IsRewindToken(token) && w.thinking && !ThoughtClosed(w, o, tokens));
      assert HeldPoint(w, o, tokens, p) <==> h.state == Some(p);
    }
  }

  lemma HoldsNothing<S, L, O>(w: World<S, L, O>, o: nat)
    ensures HoldsFor(w, o, [], Hold(None, false))
  {
  }

  lemma SaysLast<S, L, O>(w: World<S, L, O>, o: nat, n: nat)
    requires o < |w.starts| && !SoloRun(w, o, n).done && !SoloRun(w, o, n + 1).done
    ensures LastDrawn(w, o, n) != 0 && SoloRun(w, o, n + 1).ids == SoloRun(w, o, n).ids + [LastDrawn(w, o, n)]
  {
  }

  /** Alone, a sequence holds what its tokens say, the one that completes a stop code included. */
  lemma {:induction false} HeldExactly<S, L, O>(w: World<S, L, O>, o: nat, n: nat)
    requires o < |w.starts| && !SoloRun(w, o, n).done
    ensures HoldsFor(w, o, SoloRun(w, o, n).ids, HeldAt(w, o, n))
    ensures if LastDrawn(w, o, n) == 0 then HeldAt(w, o, n + 1) == HeldAt(w, o, n)
      else HoldsFor(w, o, SoloRun(w, o, n).ids + [LastDrawn(w, o, n)], HeldAt(w, o, n + 1))
  {
    hide HoldsFor, World.Held, SoloRun, LastDrawn;
    HeldRunNext(w, o, n);
    if n > 0 {
      SoloLength(w, o, n - 1, n);
      HeldExactly(w, o, n - 1);
      SaysLast(w, o, n - 1);
    } else {
      HoldsNothing(w, o);
      NoneYet(w, o);
    }
    if LastDrawn(w, o, n) != 0 {
      SoloLength(w, o, n, n);
      HoldsNext(w, o, SoloRun(w, o, n).ids, LastDrawn(w, o, n), HeldAt(w, o, n));
    }
  }

  lemma NoneYet<S, L, O>(w: World<S, L, O>, o: nat)
    requires o < |w.starts|
    ensures SoloRun(w, o, 0).ids == [] && HeldAt(w, o, 0) == Hold(None, false)
  {
  }

  function LastDrawn<S, L, O>(w: World<S, L, O>, o: nat, r: nat): int
    requires o < |w.starts|
  {
    var s := SoloRun(w, o, r);
    w.Token(r, o, s.row, s.seen, s.token)
  }

  /** The sequences that have not finished, in order (src/runtime.cpp:1096-1101). */
  function Unfinished(eos: seq<bool>, n: nat): (list: seq<nat>)
    requires n <= |eos|
    ensures |list| <= n
  {
    if n == 0 then [] else Unfinished(eos, n - 1) + if eos[n - 1] then [] else [n - 1]
  }

  lemma {:induction false} UnfinishedLists(eos: seq<bool>, n: nat)
    requires n <= |eos|
    ensures ListsUnfinished(Unfinished(eos, n), eos, n)
  {
    if n > 0 {
      UnfinishedLists(eos, n - 1);
      ListOn(Unfinished(eos, n - 1), eos, n - 1);
    }
  }

  /** Every unfinished sequence below `n`, once and in order, and no other. */
  ghost predicate ListsUnfinished(list: seq<nat>, eos: seq<bool>, n: nat)
    requires n <= |eos|
  {
    && (forall k :: 0 <= k < |list| ==> list[k] < n && !eos[list[k]])
    && (forall j, k :: 0 <= j < k < |list| ==> list[j] < list[k])
    && (forall o :: 0 <= o < n && !eos[o] ==> o in list)
  }

  lemma ListOn(list: seq<nat>, eos: seq<bool>, n: nat)
    requires n < |eos| && ListsUnfinished(list, eos, n)
    ensures if eos[n] then ListsUnfinished(list + [], eos, n + 1) else ListsUnfinished(list + [n], eos, n + 1)
  {
    assert list + [] == list;
    assert n in list + [n];
  }

  lemma {:induction false} UnfinishedShrinks(before: seq<bool>, after: seq<bool>, n: nat)
    requires n <= |before| && n <= |after| && forall o :: 0 <= o < n && before[o] ==> after[o]
    ensures |Unfinished(after, n)| <= |Unfinished(before, n)|
    ensures |Unfinished(after, n)| == |Unfinished(before, n)| ==> Unfinished(after, n) == Unfinished(before, n)
  {
    if n > 0 { UnfinishedShrinks(before, after, n - 1); }
  }

  /** What is in the slot of sequence `o` after `n` rounds, if it keeps the slot: it goes on after the sequence has
      finished, its tokens no longer counted or recorded. */
  function SlotRun<S, L, O>(w: World<S, L, O>, o: nat, n: nat): Solo<S, L, O>
    requires o < |w.starts|
    decreases n, 0
  {
    if n == 0 then Solo([], w.starts[o].state, w.blank, w.unseen, w.starts[o].token, false)
    else
      var s, token := SlotRun(w, o, n - 1), SlotToken(w, o, n - 1);
      var seen := w.Faded(n - 1, s.seen);
      var done := s.done || w.Ends(o, s.ids, token);
      Solo(if done then s.ids else s.ids + [token], w.step(s.state, token), w.logits(s.state, token),
           if done then seen else w.count(seen, token), token, done)
  }

  /** The token such a slot draws in round `i`. */
  function SlotToken<S, L, O>(w: World<S, L, O>, o: nat, i: nat): int
    requires o < |w.starts|
    decreases i, 1
  {
    var s := SlotRun(w, o, i);
    w.Token(i, o, s.row, s.seen, s.token)
  }

  lemma SlotNext<S, L, O>(w: World<S, L, O>, o: nat, i: nat)
    requires o < |w.starts|
    ensures var s, token, t := SlotRun(w, o, i), SlotToken(w, o, i), SlotRun(w, o, i + 1);
      && t.state == w.step(s.state, token) && t.row == w.logits(s.state, token) && t.token == token
      && (if t.done then t.ids == s.ids && t.seen == w.Faded(i, s.seen)
          else t.ids == s.ids + [token] && t.seen == w.count(w.Faded(i, s.seen), token))
  {
  }

  /** Until it finishes, a slot is the sequence alone; its response and its end are those of the sequence alone. */
  lemma {:induction false} SlotIsSolo<S, L, O>(w: World<S, L, O>, o: nat, n: nat)
    requires o < |w.starts|
    ensures var s, t := SoloRun(w, o, n), SlotRun(w, o, n); s.done == t.done && s.ids == t.ids && (!s.done ==> s == t)
  {
    if n > 0 { SlotIsSolo(w, o, n - 1); }
  }

  lemma HeldNext<S, L, O>(w: World<S, L, O>, o: nat, i: nat)
    requires o < |w.starts|
    ensures var s, token := SlotRun(w, o, i), SlotToken(w, o, i);
      HeldRun(w, o, i + 1) ==
        if s.done || token == 0 then HeldRun(w, o, i) else w.Held(o, s.ids, token, s.state, HeldRun(w, o, i))
  {
    SlotIsSolo(w, o, i);
  }

  function Dones<S, L, O>(w: World<S, L, O>, n: nat): (eos: seq<bool>)
    ensures |eos| == |w.starts| && forall o :: 0 <= o < |eos| ==> eos[o] == SoloRun(w, o, n).done
  {
    seq(|w.starts|, o requires 0 <= o < |w.starts| => SoloRun(w, o, n).done)
  }

  /** Nothing ends the loop after round `r`. */
  predicate GoesOn<S, L, O>(w: World<S, L, O>, stopSignal: nat -> bool, r: nat) {
    !stopSignal(r) && !AllDone(Dones(w, r + 1))
  }

  /** How many full rounds the loop runs, from round `r` on. */
  function Rounds<S, L, O>(w: World<S, L, O>, stopSignal: nat -> bool, maxLength: nat, r: nat): (rounds: nat)
    requires r <= maxLength
    ensures r <= rounds <= maxLength
    decreases maxLength - r
  {
    if r == maxLength || !GoesOn(w, stopSignal, r) then r else Rounds(w, stopSignal, maxLength, r + 1)
  }

  lemma {:induction false} RoundsAre<S, L, O>(w: World<S, L, O>, stopSignal: nat -> bool, maxLength: nat, r: nat,
                                              rounds: nat)
    requires r <= rounds <= maxLength && forall q :: r <= q < rounds ==> GoesOn(w, stopSignal, q)
    requires rounds == maxLength || !GoesOn(w, stopSignal, rounds)
    ensures Rounds(w, stopSignal, maxLength, r) == rounds
    decreases rounds - r
  {
    if r < rounds { RoundsAre(w, stopSignal, maxLength, r + 1, rounds); }
  }

  lemma {:induction false} RoundsGoOn<S, L, O>(w: World<S, L, O>, stopSignal: nat -> bool, maxLength: nat, r: nat)
    requires r <= maxLength
    ensures forall q :: r <= q < Rounds(w, stopSignal, maxLength, r) ==> GoesOn(w, stopSignal, q)
    decreases maxLength - r
  {
    if r < maxLength && GoesOn(w, stopSignal, r) { RoundsGoOn(w, stopSignal, maxLength, r + 1); }
  }

  /** How many rounds have settled who finishes. */
  function SettledRounds(rounds: nat, maxLength: nat): nat {
    if rounds < maxLength then rounds + 1 else rounds
  }

  /** The list of slots after a compaction (src/runtime.cpp:1096-1118). */
  function Compaction(was: seq<nat>, eos: seq<bool>, sizes: seq<nat>): seq<nat> {
    var u := Unfinished(eos, |eos|);
    if 0 < |u| < |was| && |u| in sizes then u else was
  }

  /** Who holds the slots in round `n`. */
  function Holders<S, L, O>(w: World<S, L, O>, sizes: seq<nat>, n: nat): seq<nat> {
    if n == 0 then Unfinished(Dones(w, 0), |w.starts|)
    else Compaction(Holders(w, sizes, n - 1), Dones(w, n), sizes)
  }

  /** The slot of `o` ends, or says so once more, in round `i`. */
  predicate Hits<S, L, O>(w: World<S, L, O>, sizes: seq<nat>, o: nat, i: nat)
    requires o < |w.starts|
  {
    var s, token := SlotRun(w, o, i), SlotToken(w, o, i);
    o in Holders(w, sizes, i) && (token == 0 || (!s.done && w.stops(o, s.ids, token)))
  }

  /** The state saved for `o` in the first `n` rounds. */
  function SavedRun<S, L, O>(w: World<S, L, O>, sizes: seq<nat>, o: nat, n: nat): S
    requires o < |w.starts|
  {
    if n == 0 then w.starts[o].state
    else if Hits(w, sizes, o, n - 1) then SlotRun(w, o, n - 1).state
    else SavedRun(w, sizes, o, n - 1)
  }

  /** In one of the first `n` rounds the slot of `o` has drawn token 0 although `o` had finished. */
  predicate Relapses<S, L, O>(w: World<S, L, O>, sizes: seq<nat>, o: nat, n: nat)
    requires o < |w.starts|
  {
    n > 0 &&
    (Relapses(w, sizes, o, n - 1) ||
     (SoloRun(w, o, n - 1).done && o in Holders(w, sizes, n - 1) && SlotToken(w, o, n - 1) == 0))
  }

  ghost predicate SetAt<T>(now: seq<T>, was: seq<T>, o: nat, hit: bool, value: T) {
    o < |now| && o < |was| && now[o] == if hit then value else was[o]
  }

  /** Each of the first `j` owners has set its entry if it is hit; all other entries are as they were. */
  ghost predicate SetTo<T>(now: seq<T>, was: seq<T>, owners: seq<nat>, hits: seq<bool>, values: seq<T>, j: nat) {
    && |now| == |was| && j <= |owners| == |hits| == |values|
    && (forall k :: 0 <= k < j ==> SetAt(now, was, owners[k], hits[k], values[k]))
    && (forall o :: 0 <= o < |was| && o !in owners[..j] ==> now[o] == was[o])
  }

  /** What the slots do in one round: whether the sequence ends, whether it goes on, its state, what it holds. */
  datatype Leaving<S> = Leaving(ends: seq<bool>, goes: seq<bool>, states: seq<S>, holds: seq<Hold<S>>)
  {
    function Trues(): (r: seq<bool>)
      ensures |r| == |ends| && forall k :: 0 <= k < |r| ==> r[k]
    {
      seq(|ends|, k => true)
    }
  }

  ghost predicate Apart(owners: seq<nat>) {
    forall i, j :: 0 <= i < j < |owners| ==> owners[i] != owners[j]
  }

  lemma NoneSet<T>(was: seq<T>, owners: seq<nat>, hits: seq<bool>, values: seq<T>)
    requires |owners| == |hits| == |values|
    ensures SetTo(was, was, owners, hits, values, 0)
  {
  }

  lemma NotYet<T>(now: seq<T>, was: seq<T>, owners: seq<nat>, hits: seq<bool>, values: seq<T>, j: nat)
    requires SetTo(now, was, owners, hits, values, j) && j < |owners| && Apart(owners) && owners[j] < |was|
    ensures now[owners[j]] == was[owners[j]]
  {
  }

  lemma SetMore<T>(before: seq<T>, now: seq<T>, was: seq<T>, owners: seq<nat>, hits: seq<bool>, values: seq<T>, j: nat)
    requires SetTo(before, was, owners, hits, values, j) && j < |owners| && Apart(owners) && owners[j] < |was|
    requires now == if hits[j] then before[owners[j] := values[j]] else before
    ensures SetTo(now, was, owners, hits, values, j + 1)
  {
    assert owners[..j + 1] == owners[..j] + [owners[j]];
  }

  lemma AllSet<T>(now: seq<T>, was: seq<T>, owners: seq<nat>, hits: seq<bool>, values: seq<T>)
    requires SetTo(now, was, owners, hits, values, |owners|)
    ensures |now| == |was| && |owners| == |hits| == |values|
    ensures forall k :: 0 <= k < |owners| ==> SetAt(now, was, owners[k], hits[k], values[k])
    ensures forall o :: 0 <= o < |was| && o !in owners ==> now[o] == was[o]
  {
    assert owners[..|owners|] == owners;
  }

  predicate AllDone(eos: seq<bool>) {
    forall o :: 0 <= o < |eos| ==> eos[o]
  }

  /** While every size is supported, compaction leaves exactly the unfinished sequences in slots. */
  lemma Compacted(before: seq<bool>, after: seq<bool>, n: nat, was: seq<nat>, active: seq<nat>, sizes: seq<nat>)
    requires |before| == |after| == n && forall o :: 0 <= o < n && before[o] ==> after[o]
    requires was == Unfinished(before, n) && !AllDone(after) && forall m :: 1 <= m < n ==> m in sizes
    requires var u := Unfinished(after, n); active == if 0 < |u| < |was| && |u| in sizes then u else was
    ensures active == Unfinished(after, n)
  {
    UnfinishedShrinks(before, after, n);
    UnfinishedLists(after, n);
  }

  lemma {:induction false} UnfinishedAtFirst(eos: seq<bool>, n: nat)
    requires n <= |eos| && forall o :: 0 <= o < n ==> !eos[o]
    ensures Unfinished(eos, n) == seq(n, o => o)
  {
    if n > 0 { UnfinishedAtFirst(eos, n - 1); }
  }

  class Batch<S(!new), L(!new), O(!new)> {
    const w: World<S, L, O>
    const sizes: seq<nat>
    var slots: seq<S>
    var rows: seq<L>
    var active: seq<nat>
    var mapping: seq<int>
    var decoded: seq<int>
    var eos: seq<bool>
    var saved: seq<S>
    var held: seq<Hold<S>>
    var responses: seq<seq<int>>
    var seen: seq<O>

    ghost predicate Shaped()
      reads this
    {
      var n := |w.starts|;
      && |slots| == |rows| == n && |active| <= n && |active| <= |decoded| <= n
      && |mapping| == |eos| == |saved| == |held| == |responses| == |seen| == n
    }

    /** Slots and sequences are matched up, in both directions. */
    ghost predicate Mapped()
      reads this`active, this`mapping
    {
      && |mapping| == |w.starts|
      && (forall j :: 0 <= j < |active| ==> active[j] < |w.starts| && mapping[active[j]] == j)
      && (forall o :: 0 <= o < |w.starts| ==>
        mapping[o] == -1 || (0 <= mapping[o] < |active| && active[mapping[o]] == o))
    }

    /** No unfinished sequence is without a slot. */
    ghost predicate Covered()
      requires Shaped()
      reads this
    {
      forall o :: 0 <= o < |w.starts| && !eos[o] ==> mapping[o] >= 0
    }

    /** Every sequence starts in the slot of its own number, its prefilled state in it (src/runtime.cpp:1025-1037). */
    constructor (w: World<S, L, O>, sizes: seq<nat>)
      ensures this.w == w && this.sizes == sizes
      ensures AllIsolated(0) && Holding(0) && forall o :: 0 <= o < |w.starts| ==> !eos[o]
    {
      var n := |w.starts|;
      hide AllIsolated, Holding;
      this.w, this.sizes := w, sizes;
      slots := seq(n, o requires 0 <= o < |w.starts| => w.starts[o].state);
      rows := seq(n, o => w.blank);
      active, mapping := seq(n, o => o), seq(n, o => o);
      decoded := seq(n, o requires 0 <= o < |w.starts| => w.starts[o].token);
      eos := seq(n, o => false);
      saved := seq(n, o requires 0 <= o < |w.starts| => w.starts[o].state);
      held, responses, seen := seq(n, o => Hold(None, false)), seq(n, o => []), seq(n, o => w.unseen);
      new;
      AtFirst();
    }

    lemma AtFirst()
      requires Shaped() && |active| == |w.starts| && |held| == |w.starts|
      requires forall o :: 0 <= o < |w.starts| ==>
        && active[o] == o && mapping[o] == o && slots[o] == saved[o] == w.starts[o].state && !eos[o]
        && decoded[o] == w.starts[o].token && held[o] == Hold(None, false) && responses[o] == [] && seen[o] == w.unseen
      ensures AllIsolated(0) && Holding(0)
    {
      assert eos == Dones(w, 0);
      UnfinishedAtFirst(eos, |w.starts|);
      hide Dones, Unfinished;
      assert active == seq(|w.starts|, o => o);
      forall o | 0 <= o < |w.starts| ensures Isolated(o, 0) { }
    }

    /** At the head of round `i` sequence `o` is where the sequences alone and the sizes say. */
    ghost predicate Isolated(o: nat, i: nat)
      requires Shaped() && Mapped() && o < |w.starts|
      reads this
    {
      var s := SlotRun(w, o, i);
      && eos[o] == s.done && responses[o] == s.ids && saved[o] == SavedRun(w, sizes, o, i)
      && (mapping[o] >= 0 ==>
        && slots[mapping[o]] == s.state && decoded[mapping[o]] == s.token && seen[o] == s.seen
        && (i > 0 ==> rows[mapping[o]] == s.row))
    }

    /** Once the tokens of round `i` are drawn. */
    ghost predicate Drawn(o: nat, i: nat)
      requires Shaped() && Mapped() && o < |w.starts|
      reads this
    {
      var s := SlotRun(w, o, i);
      && eos[o] == s.done && responses[o] == s.ids && saved[o] == SavedRun(w, sizes, o, i)
      && (mapping[o] >= 0 ==>
        && slots[mapping[o]] == s.state && decoded[mapping[o]] == SlotToken(w, o, i) && seen[o] == w.Faded(i, s.seen))
    }

    /** Once the round has settled who finishes, whatever slots the others have moved to. */
    ghost predicate Decided(o: nat, i: nat)
      requires Shaped() && Mapped() && o < |w.starts|
      reads this
    {
      var s := SlotRun(w, o, i);
      && eos[o] == SlotRun(w, o, i + 1).done && responses[o] == s.ids && saved[o] == SavedRun(w, sizes, o, i + 1)
      && (mapping[o] >= 0 ==>
        && slots[mapping[o]] == s.state && decoded[mapping[o]] == SlotToken(w, o, i) && seen[o] == w.Faded(i, s.seen))
    }

    /** Apply the penalties and draw one token per slot (src/runtime.cpp:1040-1053). */
    method Sample(i: nat)
      requires Shaped() && Mapped()
      modifies this`rows, this`seen, this`decoded
      ensures Shaped() && Mapped()
      ensures forall k :: 0 <= k < |active| ==>
        && decoded[k] == w.Token(i, active[k], old(rows[k]), old(seen[active[k]]), old(decoded[k]))
        && seen[active[k]] == w.Faded(i, old(seen[active[k]]))
    {
      if i == 0 { return; }
      Penalise(i);
      decoded := Picks(i, active, rows);
    }

    method Penalise(i: nat)
      requires Shaped() && Mapped()
      modifies this`rows, this`seen
      ensures Shaped()
      ensures forall k :: 0 <= k < |active| ==>
        && rows[k] == w.Penalised(i, active[k], old(rows[k]), old(seen[active[k]]), decoded[k])
        && seen[active[k]] == w.decay(old(seen[active[k]]))
    {
      for j := 0 to |active|
        invariant Shaped()
        invariant forall k :: 0 <= k < j ==>
          && rows[k] == w.Penalised(i, active[k], old(rows[k]), old(seen[active[k]]), decoded[k])
          && seen[active[k]] == w.decay(old(seen[active[k]]))
        invariant forall k :: j <= k < |active| ==> rows[k] == old(rows[k]) && seen[active[k]] == old(seen[active[k]])
      {
        assert forall k :: 0 <= k < |active| && k != j ==> active[k] != active[j];
        PenaliseSlot(i, j);
      }
    }

    method PenaliseSlot(i: nat, j: nat)
      requires Shaped() && Mapped() && j < |active|
      modifies this`rows, this`seen
      ensures rows == old(rows)[j := w.Penalised(i, active[j], old(rows[j]), old(seen[active[j]]), decoded[j])]
      ensures seen == old(seen)[active[j] := w.decay(old(seen[active[j]]))]
    {
      var o := active[j];
      var row := w.penalise(rows[j], seen[o]);
      if w.starts[o].pseudoThinking && i == 1 && decoded[j] == COMMA { row := w.mask(row); }
      rows := rows[j := row];
      seen := seen[o := w.decay(seen[o])];
    }

    /** One draw per slot, each for the sequence in the slot. */
    function Picks(i: nat, owners: seq<nat>, rows: seq<L>): (tokens: seq<int>)
      requires |owners| <= |rows|
      ensures |tokens| == |owners| && forall k :: 0 <= k < |owners| ==> tokens[k] == w.pick(i, owners[k], rows[k])
    {
      seq(|owners|, j requires 0 <= j < |owners| => w.pick(i, owners[j], rows[j]))
    }

    /** The token in slot `k` ends the response of the slot's sequence. */
    predicate Ending(k: nat)
      requires Shaped() && Mapped() && k < |active|
      reads this
    {
      decoded[k] == 0 || (!eos[active[k]] && w.stops(active[k], responses[active[k]], decoded[k]))
    }

    /** For each sequence is held what the sequence alone says. */
    ghost predicate Holding(n: nat)
      reads this`held
    {
      |held| == |w.starts| && forall o :: 0 <= o < |held| ==> held[o] == HeldRun(w, o, n)
    }

    /** The sequence in slot `k` is still going when its token is looked at. */
    predicate Going(k: nat)
      requires Shaped() && Mapped() && k < |active|
      reads this
    {
      decoded[k] != 0 && !eos[active[k]]
    }

    /** Find out who finishes; save the state of every slot that does, and again of every slot that draws
        token 0 after its sequence has finished; hold the state before a rewind token (src/runtime.cpp:1055-1094). */
    method Finish()
      requires Shaped() && Mapped() && Covered()
      modifies this`eos, this`saved, this`held
      ensures Shaped() && Mapped() && Covered()
      ensures forall k :: 0 <= k < |active| ==>
        && SetAt(eos, old(eos), active[k], old(Ending(k)), true)
        && SetAt(saved, old(saved), active[k], old(Ending(k)), slots[k])
        && SetAt(held, old(held), active[k], old(Going(k)), old(HeldNow(k)))
      ensures forall o :: 0 <= o < |w.starts| && mapping[o] < 0 ==>
        old(eos[o]) && eos[o] && saved[o] == old(saved[o]) && held[o] == old(held[o])
    {
      ghost var f := Leaving(
        seq(|active|, k requires 0 <= k < |active| && Shaped() && Mapped() reads this => Ending(k)),
        seq(|active|, k requires 0 <= k < |active| && Shaped() && Mapped() reads this => Going(k)),
        slots[..|active|],
        seq(|active|, k requires 0 <= k < |active| && Shaped() && Mapped() reads this => HeldNow(k)));
      Owners();
      NoneSet(eos, active, f.ends, f.Trues());
      NoneSet(saved, active, f.ends, f.states);
      NoneSet(held, active, f.goes, f.holds);
      FinishSlots(f, eos, saved, held);
      hide SetTo, SetAt, World.Held, Ending, Going, HeldNow;
      AllSet(eos, old(eos), active, f.ends, f.Trues());
      AllSet(saved, old(saved), active, f.ends, f.states);
      AllSet(held, old(held), active, f.goes, f.holds);
      forall o | 0 <= o < |w.starts| ensures o in active <==> mapping[o] >= 0 { HasSlot(o); }
    }

    /** `f` is what the slots are about to do, with the lists as they were. */
    ghost predicate Foreseen(f: Leaving<S>, ended: seq<bool>, holds: seq<Hold<S>>)
      requires Shaped() && Mapped() && |ended| == |holds| == |w.starts|
      reads this
    {
      && |f.ends| == |f.goes| == |f.states| == |f.holds| == |active|
      && forall k :: 0 <= k < |active| ==>
        var o, token := active[k], decoded[k];
        && f.ends[k] == (token == 0 || (!ended[o] && w.stops(o, responses[o], token)))
        && f.goes[k] == (token != 0 && !ended[o])
        && f.states[k] == slots[k] && f.holds[k] == w.Held(o, responses[o], token, slots[k], holds[o])
    }

    /** The first `j` slots have done so. */
    ghost predicate FinishedTo(f: Leaving<S>, ended: seq<bool>, states: seq<S>, holds: seq<Hold<S>>, j: nat)
      reads this
    {
      && SetTo(eos, ended, active, f.ends, f.Trues(), j) && SetTo(saved, states, active, f.ends, f.states, j)
      && SetTo(held, holds, active, f.goes, f.holds, j)
    }

    method FinishSlots(ghost f: Leaving<S>, ghost ended: seq<bool>, ghost states: seq<S>, ghost holds: seq<Hold<S>>)
      requires Shaped() && Mapped() && |ended| == |states| == |holds| == |w.starts| && Foreseen(f, ended, holds)
      requires Apart(active) && FinishedTo(f, ended, states, holds, 0)
      modifies this`eos, this`saved, this`held
      ensures Shaped() && FinishedTo(f, ended, states, holds, |active|)
    {
      hide FinishedTo, Apart;
      var j := 0;
      while j < |active|
        invariant j <= |active| && Shaped() && Foreseen(f, ended, holds) && FinishedTo(f, ended, states, holds, j)
      {
        FinishNext(j, f, ended, states, holds);
        j := j + 1;
      }
    }

    method FinishNext(j: nat, ghost f: Leaving<S>, ghost ended: seq<bool>, ghost states: seq<S>,
                      ghost holds: seq<Hold<S>>)
      requires Shaped() && Mapped() && |ended| == |states| == |holds| == |w.starts| && Foreseen(f, ended, holds)
      requires j < |active| && Apart(active) && FinishedTo(f, ended, states, holds, j)
      modifies this`eos, this`saved, this`held
      ensures Shaped() && FinishedTo(f, ended, states, holds, j + 1)
    {
      hide SetTo, Apart, Foreseen;
      NotYet(eos, ended, active, f.ends, f.Trues(), j);
      NotYet(held, holds, active, f.goes, f.holds, j);
      AsForeseen(j, f, ended, holds);
      hide Ending, Going, HeldNow;
      ghost var ends, kept, holding := eos, saved, held;
      FinishSlot(j);
      SetMore(ends, eos, ended, active, f.ends, f.Trues(), j);
      SetMore(kept, saved, states, active, f.ends, f.states, j);
      SetMore(holding, held, holds, active, f.goes, f.holds, j);
    }

    lemma AsForeseen(j: nat, f: Leaving<S>, ended: seq<bool>, holds: seq<Hold<S>>)
      requires Shaped() && Mapped() && |ended| == |holds| == |w.starts| && Foreseen(f, ended, holds)
      requires j < |active| && eos[active[j]] == ended[active[j]] && held[active[j]] == holds[active[j]]
      ensures active[j] < |w.starts| && |f.ends| == |f.goes| == |f.states| == |f.holds| == |active|
      ensures f.states[j] == slots[j]
      ensures Ending(j) == f.ends[j] && Going(j) == f.goes[j] && HeldNow(j) == f.holds[j]
    {
      hide World.Held;
    }

    /** No sequence has two slots. */
    lemma Owners()
      requires Shaped() && Mapped()
      ensures Apart(active) && forall k :: 0 <= k < |active| ==> active[k] < |w.starts|
    {
    }

    /** One slot of the above. */
    method FinishSlot(j: nat)
      requires Shaped() && Mapped() && j < |active|
      modifies this`eos, this`saved, this`held
      ensures held == (if old(Going(j)) then old(held)[active[j] := old(HeldNow(j))] else old(held))
      ensures eos == (if old(Ending(j)) then old(eos)[active[j] := true] else old(eos))
      ensures saved == (if old(Ending(j)) then old(saved)[active[j] := slots[j]] else old(saved))
    {
      var o := active[j];
      if decoded[j] == 0 {
        eos, saved := eos[o := true], saved[o := slots[j]];
      }
      if !eos[o] {
        if w.stops(o, responses[o], decoded[j]) {
          eos, saved := eos[o := true], saved[o := slots[j]];
        }
        if w.thinking && !held[o].thought {
          if w.closes(o, responses[o], decoded[j]) { held := held[o := held[o].(thought := true)]; }
        } else if held[o].state.Some? {
          held := held[o := held[o].(state := None)];
        }
        if Dialogue.IsRewindToken(decoded[j]) { held := held[o := held[o].(state := Some(slots[j]))]; }
      }
    }

    /** What is held then for the sequence in slot `k`. */
    function HeldNow(k: nat): Hold<S>
      requires Shaped() && Mapped() && k < |active|
      reads this
    {
      w.Held(active[k], responses[active[k]], decoded[k], slots[k], held[active[k]])
    }

    /** Copy out the entries of the slots that stay in use (src/runtime.cpp:1119-1139). */
    static method Gather<T>(entries: seq<T>, mapping: seq<int>, keep: seq<nat>, count: nat) returns (temp: seq<T>)
      requires Packed(mapping, keep, count) && count <= |entries|
      ensures |temp| == |keep| && forall k :: 0 <= k < |keep| ==> temp[k] == entries[mapping[keep[k]]]
    {
      temp := [];
      for k := 0 to |keep|
        invariant |temp| == k && forall m :: 0 <= m < k ==> temp[m] == entries[mapping[keep[m]]]
      {
        temp := temp + [entries[mapping[keep[k]]]];
      }
    }

    /** The same for the tokens, with the fallback for a sequence without a slot (src/runtime.cpp:1144-1157):
        there is never one. */
    static method GatherTokens(decoded: seq<int>, mapping: seq<int>, keep: seq<nat>, count: nat)
      returns (temp: seq<int>)
      requires Packed(mapping, keep, count) && count <= |decoded|
      ensures |temp| == |keep| && forall k :: 0 <= k < |keep| ==> temp[k] == decoded[mapping[keep[k]]]
    {
      temp := [];
      for k := 0 to |keep|
        invariant |temp| == k && forall m :: 0 <= m < k ==> temp[m] == decoded[mapping[keep[m]]]
      {
        var slot := mapping[keep[k]];
        if 0 <= slot < count {
          temp := temp + [decoded[slot]];
        } else {
          assert false;
          temp := temp + [0];
        }
      }
    }

    /** Each of `keep` has one of the first `count` slots. */
    static ghost predicate Packed(mapping: seq<int>, keep: seq<nat>, count: nat) {
      forall k :: 0 <= k < |keep| ==> keep[k] < |mapping| && 0 <= mapping[keep[k]] < count
    }

    /** Compaction, if the number of unfinished sequences is a supported batch size (src/runtime.cpp:1096-1178). */
    method Compact() returns (moved: bool)
      requires Shaped() && Mapped() && Covered()
      modifies this`slots, this`rows, this`decoded, this`active, this`mapping
      ensures Shaped() && Mapped() && Covered()
      ensures var n := |Unfinished(eos, |w.starts|)|; moved == (0 < n < |old(active)| && n in sizes)
      ensures !moved ==> unchanged(this)
      ensures moved ==> active == Unfinished(eos, |w.starts|)
      ensures moved ==> forall k :: 0 <= k < |active| ==>
        && active[k] < |w.starts| && 0 <= old(mapping)[active[k]] < |old(active)|
        && slots[k] == old(slots)[old(mapping)[active[k]]] && decoded[k] == old(decoded)[old(mapping)[active[k]]]
        && rows[k] == old(rows)[old(mapping)[active[k]]]
    {
      var keep := Unfinished(eos, |w.starts|);
      if !(0 < |keep| < |active| && |keep| in sizes) { return false; }
      UnfinishedLists(eos, |w.starts|);
      Move(keep);
      return true;
    }

    /** Sequences `keep`, every unfinished one among them, take over the first slots. */
    method Move(keep: seq<nat>)
      requires Shaped() && Mapped() && Packed(mapping, keep, |active|) && |keep| <= |active|
      requires forall j, k :: 0 <= j < k < |keep| ==> keep[j] < keep[k]
      requires forall o :: 0 <= o < |w.starts| && !eos[o] ==> o in keep
      modifies this`slots, this`rows, this`decoded, this`active, this`mapping
      ensures Shaped() && Mapped() && Covered() && active == keep
      ensures forall k :: 0 <= k < |keep| ==>
        && slots[k] == old(slots[mapping[keep[k]]]) && decoded[k] == old(decoded[mapping[keep[k]]])
        && rows[k] == old(rows[mapping[keep[k]]])
    {
      Refill(keep);
      active := keep;
      Remap();
      StillCovered();
    }

    /** The slots of `keep` move to the front. */
    method Refill(keep: seq<nat>)
      requires Shaped() && Packed(mapping, keep, |active|) && |keep| <= |active|
      modifies this`slots, this`rows, this`decoded
      ensures Shaped()
      ensures forall k :: 0 <= k < |keep| ==>
        && slots[k] == old(slots)[mapping[keep[k]]] && decoded[k] == old(decoded)[mapping[keep[k]]]
        && rows[k] == old(rows)[mapping[keep[k]]]
    {
      var states := Gather(slots, mapping, keep, |active|);
      var logits := Gather(rows, mapping, keep, |active|);
      var tokens := GatherTokens(decoded, mapping, keep, |active|);
      slots, rows, decoded := Overwrite(slots, states), Overwrite(rows, logits), Overwrite(decoded, tokens);
    }

    lemma StillCovered()
      requires Shaped() && Mapped() && forall o :: 0 <= o < |w.starts| && !eos[o] ==> o in active
      ensures Covered()
    {
      forall o | 0 <= o < |w.starts| && !eos[o] ensures mapping[o] >= 0 {
        var k :| 0 <= k < |active| && active[k] == o;
        assert mapping[active[k]] == k;
      }
    }

    /** `memcpy` onto the front of a buffer. */
    function Overwrite<T>(buffer: seq<T>, front: seq<T>): (r: seq<T>)
      requires |front| <= |buffer|
      ensures |r| == |buffer| && forall k :: 0 <= k < |front| ==> r[k] == front[k]
    {
      front + buffer[|front|..]
    }

    /** The inverse of the list of active sequences (src/runtime.cpp:1173-1176). */
    method Remap()
      requires |active| <= |w.starts| && forall j :: 0 <= j < |active| ==> active[j] < |w.starts|
      requires forall j, k :: 0 <= j < k < |active| ==> active[j] < active[k]
      modifies this`mapping
      ensures Mapped()
    {
      mapping := seq(|w.starts|, o => -1);
      for k := 0 to |active|
        invariant |mapping| == |w.starts| && forall j :: 0 <= j < k ==> mapping[active[j]] == j
        invariant forall o :: 0 <= o < |w.starts| ==>
          mapping[o] == -1 || (0 <= mapping[o] < k && active[mapping[o]] == o)
      {
        mapping := mapping[active[k] := k];
      }
    }

    /** One batched evaluation: slot by slot, nothing crosses (src/runtime.cpp:1186-1187). */
    method EvalBatch()
      requires Shaped() && Mapped()
      modifies this`slots, this`rows
      ensures Shaped()
      ensures forall k :: 0 <= k < |active| ==>
        slots[k] == w.step(old(slots[k]), decoded[k]) && rows[k] == w.logits(old(slots[k]), decoded[k])
    {
      for j := 0 to |active|
        invariant Shaped()
        invariant forall k :: 0 <= k < j ==>
          slots[k] == w.step(old(slots[k]), decoded[k]) && rows[k] == w.logits(old(slots[k]), decoded[k])
        invariant forall k :: j <= k < |active| ==> slots[k] == old(slots[k])
      {
        EvalSlot(j);
      }
    }

    method EvalSlot(j: nat)
      requires Shaped() && Mapped() && j < |active|
      modifies this`slots, this`rows
      ensures rows == old(rows)[j := w.logits(old(slots[j]), decoded[j])]
      ensures slots == old(slots)[j := w.step(old(slots[j]), decoded[j])]
    {
      rows := rows[j := w.logits(slots[j], decoded[j])];
      slots := slots[j := w.step(slots[j], decoded[j])];
    }

    /** Record the tokens of the sequences still going (src/runtime.cpp:1194-1207). */
    method Append()
      requires Shaped() && Mapped()
      modifies this`responses, this`seen
      ensures Shaped()
      ensures forall k :: 0 <= k < |active| && !eos[active[k]] ==>
        && responses[active[k]] == old(responses[active[k]]) + [decoded[k]]
        && seen[active[k]] == w.count(old(seen[active[k]]), decoded[k])
      ensures forall o :: 0 <= o < |w.starts| && eos[o] ==> responses[o] == old(responses[o]) && seen[o] == old(seen[o])
    {
      for j := 0 to |active|
        invariant Shaped()
        invariant forall k :: 0 <= k < j && !eos[active[k]] ==>
          && responses[active[k]] == old(responses[active[k]]) + [decoded[k]]
          && seen[active[k]] == w.count(old(seen[active[k]]), decoded[k])
        invariant forall k :: j <= k < |active| ==>
          responses[active[k]] == old(responses[active[k]]) && seen[active[k]] == old(seen[active[k]])
        invariant forall o :: 0 <= o < |w.starts| && eos[o] ==>
          responses[o] == old(responses[o]) && seen[o] == old(seen[o])
      {
        assert forall k :: 0 <= k < |active| && k != j ==> active[k] != active[j];
        var o := active[j];
        if eos[o] { continue; }
        responses := responses[o := responses[o] + [decoded[j]]];
        seen := seen[o := w.count(seen[o], decoded[j])];
      }
    }

    ghost predicate AllIsolated(i: nat)
      reads this
    {
      && Shaped() && Mapped() && Covered() && active == Holders(w, sizes, i)
      && forall o :: 0 <= o < |w.starts| ==> Isolated(o, i)
    }

    ghost predicate AllDrawn(i: nat)
      reads this
    {
      && Shaped() && Mapped() && Covered() && active == Holders(w, sizes, i)
      && forall o :: 0 <= o < |w.starts| ==> Drawn(o, i)
    }

    /** `owners` hold the slots: those of round `i` before compaction, those of the next after it. */
    ghost predicate AllDecided(i: nat, owners: seq<nat>)
      reads this
    {
      && Shaped() && Mapped() && Covered() && active == owners
      && forall o :: 0 <= o < |w.starts| ==> Decided(o, i)
    }

    /** Whoever else is in the batch and wherever the slots have moved, the slot of an unfinished sequence holds the
        fold of its own prefill state over its own response. */
    ghost predicate SlotsOwn()
      requires Shaped()
      reads this
    {
      forall o :: 0 <= o < |w.starts| && !eos[o] ==>
        0 <= mapping[o] < |slots| && slots[mapping[o]] == Fold(w.step, w.starts[o].state, responses[o])
    }

    lemma SlotsAreOwn(i: nat)
      requires AllIsolated(i) || AllDecided(i, Holders(w, sizes, i + 1))
      ensures SlotsOwn()
    {
      forall o | 0 <= o < |w.starts| && !eos[o]
        ensures 0 <= mapping[o] < |slots| && slots[mapping[o]] == Fold(w.step, w.starts[o].state, responses[o])
      {
        SoloState(w, o, i);
        SlotIsSolo(w, o, i);
        if AllIsolated(i) { assert Isolated(o, i); } else { assert Decided(o, i); }
      }
    }

    /** The first half of a round: draw. */
    method Draw(i: nat)
      requires AllIsolated(i)
      modifies this`rows, this`seen, this`decoded
      ensures AllDrawn(i)
    {
      Sample(i);
      forall o | 0 <= o < |w.starts| ensures Drawn(o, i) {
        assert old(Isolated(o, i));
        if mapping[o] >= 0 { assert active[mapping[o]] == o; }
      }
    }

    /** Then settle who finishes. */
    method Settle(i: nat)
      requires AllDrawn(i) && Holding(i)
      modifies this`eos, this`saved, this`held
      ensures AllDecided(i, Holders(w, sizes, i)) && Holding(i + 1)
    {
      Finish();
      HoldSettles(i);
      forall o | 0 <= o < |w.starts| ensures Decided(o, i) {
        assert old(Drawn(o, i));
        if mapping[o] >= 0 { assert active[mapping[o]] == o; }
        FinishSettles(o, i);
      }
    }

    twostate lemma HoldSettles(new i: nat)
      requires old(AllDrawn(i)) && old(Holding(i)) && Shaped() && Mapped()
      requires active == old(active) && mapping == old(mapping)
      requires forall k :: 0 <= k < |active| ==> SetAt(held, old(held), active[k], old(Going(k)), old(HeldNow(k)))
      requires forall o :: 0 <= o < |w.starts| && mapping[o] < 0 ==> old(eos[o]) && held[o] == old(held[o])
      ensures Holding(i + 1)
    {
      forall o | 0 <= o < |w.starts| ensures held[o] == HeldRun(w, o, i + 1) {
        assert old(Drawn(o, i));
        if mapping[o] >= 0 { assert active[mapping[o]] == o; }
        HeldNext(w, o, i);
      }
    }

    lemma HasSlot(o: nat)
      requires Mapped() && o < |w.starts|
      ensures o in active <==> mapping[o] >= 0
    {
      if o in active {
        var k :| 0 <= k < |active| && active[k] == o;
        assert mapping[active[k]] == k;
      }
    }

    twostate lemma FinishSettles(new o: nat, new i: nat)
      requires old(Shaped()) && old(Mapped()) && old(Covered()) && Shaped() && Mapped() && o < |w.starts|
      requires active == old(active) == Holders(w, sizes, i) && mapping == old(mapping) && decoded == old(decoded)
      requires slots == old(slots) && responses == old(responses) && seen == old(seen)
      requires old(Drawn(o, i))
      requires mapping[o] >= 0 ==> var hit := old(Ending(mapping[o]));
        SetAt(eos, old(eos), o, hit, true) && SetAt(saved, old(saved), o, hit, slots[mapping[o]])
      requires mapping[o] < 0 ==> old(eos[o]) && eos[o] && saved[o] == old(saved[o])
      ensures Decided(o, i)
    {
      HasSlot(o);
    }

    /** Then compact. */
    method Shrink(ghost i: nat)
      requires AllDecided(i, Holders(w, sizes, i))
      modifies this`slots, this`rows, this`decoded, this`active, this`mapping
      ensures AllDecided(i, Holders(w, sizes, i + 1))
    {
      DonesAre(i, Holders(w, sizes, i));
      var moved := Compact();
      forall o | 0 <= o < |w.starts| ensures Decided(o, i) {
        assert old(Decided(o, i));
        if moved && mapping[o] >= 0 { assert active[mapping[o]] == o; }
      }
    }

    /** The second half of a round: feed. */
    method Feed(ghost i: nat)
      requires AllDecided(i, Holders(w, sizes, i + 1))
      modifies this`slots, this`rows, this`responses, this`seen
      ensures AllIsolated(i + 1) && SlotsOwn()
    {
      hide SlotRun, SavedRun, Holders, SlotToken, Isolated, Decided;
      EvalBatch();
      Append();
      ghost var next := i + 1;
      forall o | 0 <= o < |w.starts| ensures Isolated(o, next) {
        assert old(Decided(o, i));
        if mapping[o] >= 0 { assert active[mapping[o]] == o; }
        FeedKeeps(o, i);
      }
      SlotsAreOwn(next);
    }

    twostate lemma FeedKeeps(new o: nat, new i: nat)
      requires old(Shaped()) && old(Mapped()) && old(Covered()) && Shaped() && Mapped() && o < |w.starts|
      requires mapping == old(mapping) && decoded == old(decoded) && active == old(active)
      requires eos == old(eos) && saved == old(saved)
      requires old(Decided(o, i))
      requires mapping[o] >= 0 ==> var k := mapping[o];
        slots[k] == w.step(old(slots[k]), decoded[k]) && rows[k] == w.logits(old(slots[k]), decoded[k])
      requires if eos[o] then responses[o] == old(responses[o]) && seen[o] == old(seen[o])
        else
          && mapping[o] >= 0 && responses[o] == old(responses[o]) + [decoded[mapping[o]]]
          && seen[o] == w.count(old(seen[o]), decoded[mapping[o]])
      ensures Isolated(o, i + 1)
    {
      SlotNext(w, o, i);
    }

    /** One round, up to the test that may end the loop: what is left is what the batch evaluation starts from. */
    method Round(i: nat)
      requires AllIsolated(i) && Holding(i)
      modifies this
      ensures AllDecided(i, Holders(w, sizes, i + 1)) && Holding(i + 1) && SlotsOwn()
    {
      Draw(i);
      Settle(i);
      Shrink(i);
      SlotsAreOwn(i);
    }

    /** How a sequence leaves the loop after `rounds` full rounds, with the `settled`-th just settled or not begun. */
    ghost predicate Outcome(o: nat, rounds: nat, settled: nat)
      requires Shaped() && o < |w.starts|
      reads this
    {
      && eos[o] == SoloRun(w, o, settled).done && responses[o] == SoloRun(w, o, rounds).ids
      && saved[o] == SavedRun(w, sizes, o, settled)
    }

    /** The decode loop (src/runtime.cpp:1039-1213). */
    method Run(maxLength: nat, stopSignal: nat -> bool) returns (ghost rounds: nat, ghost settled: nat)
      requires AllIsolated(0) && Holding(0)
      modifies this
      ensures Shaped() && rounds <= maxLength && settled == SettledRounds(rounds, maxLength) && Holding(settled)
      ensures rounds == maxLength || stopSignal(rounds) || AllDone(Dones(w, rounds + 1))
      ensures forall r :: 0 <= r < rounds ==> GoesOn(w, stopSignal, r)
      ensures forall o :: 0 <= o < |w.starts| ==> Outcome(o, rounds, settled)
    {
      hide SlotRun, SoloRun, SavedRun, Holders, Outcome, AllIsolated, AllDecided, Shaped;
      var i := 0;
      rounds := 0;
      while i < maxLength
        invariant i <= maxLength && rounds == i && AllIsolated(i) && Holding(i)
        invariant forall r :: 0 <= r < i ==> GoesOn(w, stopSignal, r)
      {
        Round(i);
        DonesAre(i, Holders(w, sizes, i + 1));
        if AllDone(eos) || stopSignal(i) {
          settled := i + 1;
          EndsSettled(i, settled);
          return;
        }
        Feed(i);
        i, rounds := i + 1, i + 1;
      }
      settled := i;
      EndsFed(i);
    }

    lemma OutcomeIs(o: nat, rounds: nat, settled: nat)
      requires Shaped() && o < |w.starts| && Outcome(o, rounds, settled) && rounds <= settled <= rounds + 1
      ensures AsAlone(w, o, rounds, responses[o], eos[o]) && saved[o] == SavedRun(w, sizes, o, settled)
      ensures responses[o] == SoloRun(w, o, rounds).ids && eos[o] == SoloRun(w, o, settled).done
      ensures eos[o] && !Relapses(w, sizes, o, settled) ==>
        saved[o] == Fold(w.step, w.starts[o].state, responses[o])
    {
      LeavesAlone(w, o, rounds, settled);
      if eos[o] && !Relapses(w, sizes, o, settled) { SavedIsSolo(w, sizes, o, settled); }
    }

    lemma EndsSettled(i: nat, next: nat)
      requires AllDecided(i, Holders(w, sizes, i + 1)) && next == i + 1
      ensures Shaped() && forall o :: 0 <= o < |w.starts| ==> Outcome(o, i, next)
    {
      forall o | 0 <= o < |w.starts| ensures Outcome(o, i, next) {
        assert Decided(o, i);
        SlotIsSolo(w, o, i);
        SlotIsSolo(w, o, i + 1);
      }
    }

    lemma EndsFed(i: nat)
      requires AllIsolated(i)
      ensures Shaped() && forall o :: 0 <= o < |w.starts| ==> Outcome(o, i, i)
    {
      forall o | 0 <= o < |w.starts| ensures Outcome(o, i, i) {
        assert Isolated(o, i);
        SlotIsSolo(w, o, i);
      }
    }

    lemma DonesAre(i: nat, owners: seq<nat>)
      requires AllDecided(i, owners)
      ensures eos == Dones(w, i + 1)
    {
      forall o | 0 <= o < |w.starts| ensures eos[o] == Dones(w, i + 1)[o] {
        assert Decided(o, i);
        SlotIsSolo(w, o, i + 1);
      }
    }
  }

  /** Until it finishes a sequence has a slot. */
  lemma {:induction false} HoldsUntilDone<S, L, O>(w: World<S, L, O>, sizes: seq<nat>, o: nat, n: nat)
    requires o < |w.starts| && !SoloRun(w, o, n).done
    ensures o in Holders(w, sizes, n)
  {
    hide SoloRun, Compaction, Unfinished;
    if n == 0 {
      UnfinishedLists(Dones(w, n), |w.starts|);
    } else {
      SoloLength(w, o, n - 1, n);
      HoldsUntilDone(w, sizes, o, n - 1);
      KeepsSlot(Holders(w, sizes, n - 1), Dones(w, n), sizes, o);
    }
  }

  lemma KeepsSlot(was: seq<nat>, eos: seq<bool>, sizes: seq<nat>, o: nat)
    requires o in was && o < |eos| && !eos[o]
    ensures o in Compaction(was, eos, sizes)
  {
    UnfinishedLists(eos, |eos|);
  }

  /** A finished sequence's saved state is that of its response, unless its slot has relapsed. */
  lemma {:induction false} SavedIsSolo<S, L, O>(w: World<S, L, O>, sizes: seq<nat>, o: nat, n: nat)
    requires o < |w.starts| && SoloRun(w, o, n).done && !Relapses(w, sizes, o, n)
    ensures SavedRun(w, sizes, o, n) == Fold(w.step, w.starts[o].state, SoloRun(w, o, n).ids)
  {
    hide SoloRun, Fold, SavedRun, Relapses;
    NothingYet(w, o);
    SoloLength(w, o, n - 1, n);
    if SoloRun(w, o, n - 1).done {
      SavedStays(w, sizes, o, n - 1);
      SavedIsSolo(w, sizes, o, n - 1);
    } else {
      SavedAtEnd(w, sizes, o, n - 1);
    }
  }

  /** For an unfinished sequence nothing is saved: the state from before its response is still there. */
  lemma {:induction false} UnfinishedSavesNothing<S, L, O>(w: World<S, L, O>, sizes: seq<nat>, o: nat, n: nat)
    requires o < |w.starts| && !SoloRun(w, o, n).done
    ensures SavedRun(w, sizes, o, n) == w.starts[o].state
  {
    hide Holders;
    if n > 0 {
      SoloLength(w, o, n - 1, n);
      SlotIsSolo(w, o, n - 1);
      UnfinishedSavesNothing(w, sizes, o, n - 1);
    }
  }

  lemma NothingYet<S, L, O>(w: World<S, L, O>, o: nat)
    requires o < |w.starts|
    ensures !SoloRun(w, o, 0).done
  {
  }

  lemma SavedStays<S, L, O>(w: World<S, L, O>, sizes: seq<nat>, o: nat, n: nat)
    requires o < |w.starts| && SoloRun(w, o, n).done && !Relapses(w, sizes, o, n + 1)
    ensures !Relapses(w, sizes, o, n) && SavedRun(w, sizes, o, n + 1) == SavedRun(w, sizes, o, n)
  {
    hide Holders;
    SlotIsSolo(w, o, n);
  }

  lemma SavedAtEnd<S, L, O>(w: World<S, L, O>, sizes: seq<nat>, o: nat, n: nat)
    requires o < |w.starts| && !SoloRun(w, o, n).done && SoloRun(w, o, n + 1).done
    ensures SavedRun(w, sizes, o, n + 1) == Fold(w.step, w.starts[o].state, SoloRun(w, o, n + 1).ids)
  {
    hide Holders, Fold;
    SoloState(w, o, n);
    SlotIsSolo(w, o, n);
    HoldsUntilDone(w, sizes, o, n);
  }

  lemma DonesGrow<S, L, O>(w: World<S, L, O>, n: nat)
    ensures forall o :: 0 <= o < |w.starts| && Dones(w, n)[o] ==> Dones(w, n + 1)[o]
    ensures AllDone(Dones(w, n)) ==> AllDone(Dones(w, n + 1))
  {
    hide SoloRun;
    var was, now := Dones(w, n), Dones(w, n + 1);
    forall o | 0 <= o < |w.starts| && was[o] ensures now[o] { SoloLength(w, o, n, n + 1); }
    assert |was| == |now| == |w.starts|;
  }

  /** With every smaller size supported a finished sequence loses its slot at once. */
  lemma {:induction false} HoldersAreUnfinished<S, L, O>(w: World<S, L, O>, sizes: seq<nat>, n: nat)
    requires forall m :: 1 <= m < |w.starts| ==> m in sizes
    requires !AllDone(Dones(w, n))
    ensures Holders(w, sizes, n) == Unfinished(Dones(w, n), |w.starts|)
  {
    hide SoloRun, Unfinished;
    if n > 0 {
      DonesGrow(w, n - 1);
      hide Dones;
      HoldersAreUnfinished(w, sizes, n - 1);
      Compacted(Dones(w, n - 1), Dones(w, n), |w.starts|, Holders(w, sizes, n - 1), Holders(w, sizes, n), sizes);
    }
  }

  lemma {:induction false} NoRelapse<S, L, O>(w: World<S, L, O>, sizes: seq<nat>, o: nat, n: nat)
    requires o < |w.starts| && forall m :: 1 <= m < |w.starts| ==> m in sizes
    requires forall r :: 0 < r < n ==> !AllDone(Dones(w, r))
    ensures !Relapses(w, sizes, o, n)
  {
    if n > 0 {
      NoRelapse(w, sizes, o, n - 1);
      if n > 1 {
        HoldersAreUnfinished(w, sizes, n - 1);
        UnfinishedLists(Dones(w, n - 1), |w.starts|);
      }
    }
  }

  /** Whatever the loop leaves of a finished sequence is the state of its response. */
  ghost predicate SavesRight<S, L, O>(w: World<S, L, O>, sizes: seq<nat>) {
    forall o, n {:trigger SoloRun(w, o, n)} ::
      0 <= o < |w.starts| && 0 <= n && SoloRun(w, o, n).done &&
      (forall r :: 0 < r < n ==> !AllDone(Dones(w, r))) ==>
      SavedRun(w, sizes, o, n) == Fold(w.step, w.starts[o].state, SoloRun(w, o, n).ids)
  }

  lemma AllSizesSaveRight<S, L, O>(w: World<S, L, O>, sizes: seq<nat>)
    requires forall m :: 1 <= m < |w.starts| ==> m in sizes
    ensures SavesRight(w, sizes)
  {
    forall o, n | 0 <= o < |w.starts| && 0 <= n && SoloRun(w, o, n).done &&
      (forall r :: 0 < r < n ==> !AllDone(Dones(w, r)))
      ensures SavedRun(w, sizes, o, n) == Fold(w.step, w.starts[o].state, SoloRun(w, o, n).ids)
    {
      NoRelapse(w, sizes, o, n);
      SavedIsSolo(w, sizes, o, n);
    }
  }

  /** A batch of `n` in which all but the first `m` stop at once, and draw 0 if they keep their slots. */
  function Stubborn(n: nat, m: nat): World<seq<int>, int, int> {
    World((s: seq<int>, t: int) => s + [t], (s: seq<int>, t: int) => 0, 0,
          (row: int, o: int) => row, (o: int) => o, (o: int, t: int) => o, 0, (row: int) => row,
          (i: nat, o: nat, row: int) => if o < m then 7 else 0,
          (o: nat, ids: seq<int>, t: int) => t == 5, false, (o: nat, ids: seq<int>, t: int) => false,
          seq(n, o => Start([], if o < m then 7 else 5, false)))
  }

  lemma {:induction false} FirstFew(eos: seq<bool>, n: nat, m: nat)
    requires n <= |eos| && forall o :: 0 <= o < |eos| ==> eos[o] == (o >= m)
    ensures |Unfinished(eos, n)| == if n < m then n else m
  {
    if n > 0 { FirstFew(eos, n - 1, m); }
  }

  /** If batches of `m` are not supported, the others keep their slots, and the last of them has a state saved that is
      not that of its empty response. */
  lemma MissingSizeSavesWrong(n: nat, m: nat, sizes: seq<nat>)
    requires 1 <= m < n && m !in sizes
    ensures var w := Stubborn(n, m);
      && SoloRun(w, n - 1, 2).done && SoloRun(w, n - 1, 2).ids == []
      && SavedRun(w, sizes, n - 1, 2) == [5] && !AllDone(Dones(w, 1))
  {
    var w, o := Stubborn(n, m), n - 1;
    forall k | 0 <= k < n
      ensures SoloRun(w, k, 1).done == (k >= m) && SlotRun(w, k, 0).token == if k < m then 7 else 5
    {
      assert SoloRun(w, k, 0) == Solo([], [], 0, 0, if k < m then 7 else 5, false);
      assert SoloRun(w, k, 1) == SoloStep(w, k, 0, SoloRun(w, k, 0));
    }
    HoldsUntilDone(w, sizes, o, 0);
    FirstFew(Dones(w, 1), n, m);
    assert Holders(w, sizes, 1) == Holders(w, sizes, 0);
    assert SlotToken(w, o, 0) == 5;
    assert SlotRun(w, o, 1).done && SlotRun(w, o, 1).state == [5] && SlotRun(w, o, 1).ids == [];
    assert SlotToken(w, o, 1) == 0 && Hits(w, sizes, o, 1);
    SlotIsSolo(w, o, 1);
    SoloLength(w, o, 1, 2);
    assert !Dones(w, 1)[0];
  }

  /** Saved states are right for every model, sampler and batch of `n` if and only if every smaller size is
      supported. */
  lemma SavedStatesRightIff(n: nat, sizes: seq<nat>)
    ensures (forall w: World<seq<int>, int, int> :: |w.starts| == n ==> SavesRight(w, sizes)) <==>
      (forall m :: 1 <= m < n ==> m in sizes)
  {
    if forall m :: 1 <= m < n ==> m in sizes {
      forall w: World<seq<int>, int, int> | |w.starts| == n ensures SavesRight(w, sizes) {
        AllSizesSaveRight(w, sizes);
      }
    } else {
      var m :| 1 <= m < n && m !in sizes;
      var w := Stubborn(n, m);
      MissingSizeSavesWrong(n, m, sizes);
      assert !SavesRight(w, sizes);
    }
  }

  /** A batched chat from its prefilled sequences on (src/runtime.cpp:917-927, 1025-1213): every response is the
      one the sequence gives alone, whatever sizes the backend supports and in whatever order they finish. */
  method ChatBatch<S(!new), L(!new), O(!new)>(w: World<S, L, O>, sizes: seq<nat>, maxLength: nat,
                                              stopSignal: nat -> bool)
    returns (ok: bool, responses: seq<seq<int>>, eos: seq<bool>, states: seq<S>, held: seq<Option<S>>,
             ghost rounds: nat, ghost settled: nat)
    ensures ok <==> |w.starts| in sizes
    ensures ok ==> |responses| == |eos| == |states| == |held| == |w.starts|
    ensures ok ==> rounds == Rounds(w, stopSignal, maxLength, 0) && settled == SettledRounds(rounds, maxLength)
    ensures ok ==> rounds == maxLength || stopSignal(rounds) || AllDone(Dones(w, rounds + 1))
    ensures ok ==> forall r :: 0 <= r < rounds ==> GoesOn(w, stopSignal, r)
    ensures ok ==> forall o :: 0 <= o < |w.starts| ==> AsAlone(w, o, rounds, responses[o], eos[o])
    ensures ok ==> forall o :: 0 <= o < |w.starts| ==> responses[o] == SoloRun(w, o, rounds).ids
    // token by token, what the sequence draws from its own state, its own row and its own penalties
    ensures ok ==> forall o :: 0 <= o < |w.starts| ==>
      Said(w, o, responses[o]) && (eos[o] <==> |responses[o]| < settled && Final(w, o, responses[o])) &&
      if eos[o] then |responses[o]| <= rounds else |responses[o]| == rounds
    // held is what the sequence alone holds
    ensures ok ==> forall o :: 0 <= o < |w.starts| ==> held[o] == HeldRun(w, o, settled).state
    // saved is what the sequences alone and the sizes say, the state of the response unless the slot has relapsed
    ensures ok ==> forall o :: 0 <= o < |w.starts| ==> states[o] == SavedRun(w, sizes, o, settled)
    ensures ok ==> forall o :: 0 <= o < |w.starts| && eos[o] && !Relapses(w, sizes, o, settled) ==>
      states[o] == Fold(w.step, w.starts[o].state, responses[o])
    // which cannot happen with no size missing
    ensures ok && (forall m :: 1 <= m < |w.starts| ==> m in sizes) ==>
      forall o :: 0 <= o < |w.starts| && eos[o] ==> states[o] == Fold(w.step, w.starts[o].state, responses[o])
  {
    hide SoloRun, SavedRun, HeldRun, Relapses, AsAlone, Fold, Dones, AllDone;
    ok, responses, eos, states, held, rounds, settled := |w.starts| in sizes, [], [], [], [], 0, 0;
    if !ok { return; }
    var batch := new Batch(w, sizes);
    rounds, settled := batch.Run(maxLength, stopSignal);
    RoundsAre(w, stopSignal, maxLength, 0, rounds);
    responses, eos, states := batch.responses, batch.eos, batch.saved;
    held := seq(|w.starts|, o requires 0 <= o < |batch.held| reads batch => batch.held[o].state);
    forall o | 0 <= o < |w.starts|
      ensures AsAlone(w, o, rounds, responses[o], eos[o]) && states[o] == SavedRun(w, sizes, o, settled)
      ensures responses[o] == SoloRun(w, o, rounds).ids && eos[o] == SoloRun(w, o, settled).done
      ensures Said(w, o, responses[o]) && (eos[o] <==> |responses[o]| < settled && Final(w, o, responses[o]))
      ensures if eos[o] then |responses[o]| <= rounds else |responses[o]| == rounds
      ensures eos[o] && !Relapses(w, sizes, o, settled) ==> states[o] == Fold(w.step, w.starts[o].state, responses[o])
    {
      batch.OutcomeIs(o, rounds, settled);
      SaysWhatItDraws(w, o, rounds, settled);
    }
    if forall m :: 1 <= m < |w.starts| ==> m in sizes {
      forall r | 0 < r < settled ensures !AllDone(Dones(w, r)) {
        ghost var q := r - 1;
        assert GoesOn(w, stopSignal, q);
      }
      forall o | 0 <= o < |w.starts| ensures !Relapses(w, sizes, o, settled) { NoRelapse(w, sizes, o, settled); }
    }
  }

  lemma NeverUnsaid<S, L, O>(w: World<S, L, O>, o: nat, rounds: nat, settled: nat)
    requires o < |w.starts| && rounds <= settled
    ensures SoloRun(w, o, rounds).done ==> SoloRun(w, o, settled).done
  {
    SoloLength(w, o, rounds, settled);
  }

  lemma SaysWhatItDraws<S, L, O>(w: World<S, L, O>, o: nat, rounds: nat, settled: nat)
    requires o < |w.starts| && rounds <= settled <= rounds + 1
    ensures var ids, eos := SoloRun(w, o, rounds).ids, SoloRun(w, o, settled).done;
      && Said(w, o, ids) && (eos <==> |ids| < settled && Final(w, o, ids))
      && if eos then |ids| <= rounds else |ids| == rounds
  {
    hide SoloRun, Draw, Said;
    SoloSaid(w, o, rounds);
    SoloSaid(w, o, settled);
    LeavesAlone(w, o, rounds, settled);
    NeverUnsaid(w, o, rounds, settled);
    if settled == rounds + 1 && !SoloRun(w, o, rounds).done {
      DrawnAlone(w, o, rounds);
      SaidNext(w, o, rounds);
    }
  }

  /** What a sequence has said after `rounds` full rounds is what it says alone, to its end if it finished. */
  ghost predicate AsAlone<S, L, O>(w: World<S, L, O>, o: nat, rounds: nat, response: seq<int>, eos: bool)
    requires o < |w.starts|
  {
    var s, t := SoloRun(w, o, rounds), SoloRun(w, o, rounds + 1);
    if eos then t.done && response == t.ids else !s.done && response == s.ids
  }

  lemma LeavesAlone<S, L, O>(w: World<S, L, O>, o: nat, rounds: nat, settled: nat)
    requires o < |w.starts| && rounds <= settled <= rounds + 1
    ensures AsAlone(w, o, rounds, SoloRun(w, o, rounds).ids, SoloRun(w, o, settled).done)
    ensures SoloRun(w, o, settled).done ==> SoloRun(w, o, settled).ids == SoloRun(w, o, rounds).ids
  {
    SoloLength(w, o, rounds, rounds + 1);
  }

  /** The loop really does so: with batches of `n` but none of `m`, a sequence that stopped at once ends up with the
      state after its stop token. */
  method SavesTooLate(n: nat, m: nat, sizes: seq<nat>) returns (response: seq<int>, saved: seq<int>)
    requires 1 <= m < n && n in sizes && m !in sizes
    ensures response == [] && saved == [5]
  {
    var w := Stubborn(n, m);
    var ok, responses, eos, states, held;
    ghost var rounds, settled;
    ok, responses, eos, states, held, rounds, settled := ChatBatch(w, sizes, 2, i => false);
    MissingSizeSavesWrong(n, m, sizes);
    StubbornGoesOn(n, m);
    response, saved := responses[n - 1], states[n - 1];
  }

  lemma StubbornGoesOn(n: nat, m: nat)
    requires 1 <= m < n
    ensures var w := Stubborn(n, m); !AllDone(Dones(w, 1)) && !AllDone(Dones(w, 2))
  {
    var w := Stubborn(n, m);
    assert SoloRun(w, 0, 1) == SoloStep(w, 0, 0, SoloRun(w, 0, 0)) && !SoloRun(w, 0, 1).done;
    assert SoloRun(w, 0, 2) == SoloStep(w, 0, 1, SoloRun(w, 0, 1)) && !SoloRun(w, 0, 2).done;
    assert !Dones(w, 1)[0] && !Dones(w, 2)[0];
  }
}
