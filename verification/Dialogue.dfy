/** What a session says and hears: the chat template, stop codes, the decoded response, and the calls that touch the
    cache (src/runtime.cpp). */
module Dialogue {
  import opened Options
  import opened Vocabulary
  import opened Chunking

  const PREFILL_CHUNK: nat := 64        // src/runtime.h:368
  const CHECKPOINT_INTERVAL: nat := 256 // src/runtime.cpp:707

  /** "…\n", "。\n", "…" and "。" (src/runtime.cpp:810) */
  predicate IsRewindToken(token: int) { token in {28324, 28329, 10080, 9830} }

  /** No image tag opens anywhere in the text. */
  ghost predicate ImageFree(uid: Text, text: Text) {
    forall p :: !OccursAt(text, StartTag(uid), p)
  }

  lemma OccursLater(a: Text, b: Text, pattern: Text, p: nat)
    requires OccursAt(b, pattern, p)
    ensures OccursAt(a + b, pattern, |a| + p)
  {
    assert (a + b)[|a| + p..|a| + p + |pattern|] == b[p..p + |pattern|];
  }

  lemma ImageFreeSuffix(uid: Text, a: Text, b: Text)
    requires ImageFree(uid, a + b)
    ensures Find(b, StartTag(uid), 0) == -1
  {
    var p := Find(b, StartTag(uid), 0);
    if p != -1 { OccursLater(a, b, StartTag(uid), p); }
  }

  datatype Settings = Settings(userRole: Text, responseRole: Text, bos: Text, eos: Text,
                               thinkingToken: Text, stopCodes: seq<Text>)

  const SPACE: byte := 32
  const BLANK_LINE: Text := [10, 10]
  const END_OF_THINKING: Text := [60, 47, 116, 104, 105, 110, 107, 62]  // "</think>"

  /** The turns of a dialogue up to the first `n` (src/runtime.cpp:522-537). */
  function Turns(s: Settings, inputs: seq<Text>, n: nat): Text
    requires n <= |inputs|
  {
    if n == 0 then []
    else
      var i := n - 1;
      var close := if i % 2 == 1 && i == |inputs| - 1 then [] else s.eos;
      var role := if i % 2 == 0 then s.userRole else s.responseRole;
      Turns(s, inputs, i) + s.bos + role + [58, 32] + inputs[i] + close
  }

  /** src/runtime.cpp:506-546 */
  function ApplyChatTemplate(s: Settings, prompt: Text, inputs: seq<Text>, enableReasoning: bool): Text {
    prompt + Turns(s, inputs, |inputs|) +
    if |inputs| % 2 == 0 then []
    else s.responseRole + [58] + if enableReasoning then [32] + s.thinkingToken else []
  }

  /** A dialogue of one turn: the user's words, and the tag that asks for a response. */
  lemma OneTurn(s: Settings, prompt: Text, input: Text, reasoning: bool)
    ensures ApplyChatTemplate(s, prompt, [input], reasoning) ==
      prompt + s.bos + s.userRole + [58, 32] + input + s.eos + s.responseRole + [58] +
      if reasoning then [32] + s.thinkingToken else []
  {
    assert Turns(s, [input], 0) == [];
    assert [] + s.bos == s.bos;
    assert prompt + (s.bos + s.userRole + [58, 32] + input + s.eos) ==
      prompt + s.bos + s.userRole + [58, 32] + input + s.eos;
  }

  /** A dialogue that waits for a response, the same with the response given, and with the user's next words: they
      share all that stands in front of the tag, and go on with response and words. */
  lemma TurnsGoOn(s: Settings, prompt: Text, inputs: seq<Text>, reply: Text, next: Text, reasoning: bool)
    returns (front: Text)
    requires |inputs| % 2 == 1
    ensures ApplyChatTemplate(s, prompt, inputs, false) == front + (s.responseRole + [58])
    ensures ApplyChatTemplate(s, prompt, inputs, true) == front + (s.responseRole + [58] + ([32] + s.thinkingToken))
    ensures ApplyChatTemplate(s, prompt, inputs + [reply], reasoning) ==
      front + (s.bos + s.responseRole + [58, 32] + reply)
    ensures ApplyChatTemplate(s, prompt, inputs + [reply, next], reasoning) ==
      front + (s.bos + s.responseRole + [58, 32] + reply + s.eos) +
      (s.bos + s.userRole + [58, 32] + next + s.eos) +
      (s.responseRole + [58] + if reasoning then [32] + s.thinkingToken else [])
  {
    front := prompt + Turns(s, inputs, |inputs|);
    assert s.responseRole + [58] + [] == s.responseRole + [58];
    WithReply(s, prompt, inputs, reply, reasoning);
    WithNext(s, prompt, inputs, reply, next, reasoning);
  }

  lemma WithReply(s: Settings, prompt: Text, inputs: seq<Text>, reply: Text, reasoning: bool)
    requires |inputs| % 2 == 1
    ensures ApplyChatTemplate(s, prompt, inputs + [reply], reasoning) ==
      prompt + Turns(s, inputs, |inputs|) + (s.bos + s.responseRole + [58, 32] + reply)
  {
    var n, one := |inputs|, inputs + [reply];
    TurnsStay(s, inputs, one, n);
    LastTurn(s, one, n + 1);
    TemplateOfReply(s, prompt, one, reasoning);
    hide Turns, ApplyChatTemplate;
    Unended(prompt, Turns(s, inputs, n), s.bos + s.responseRole + [58, 32] + reply);
  }

  lemma TemplateOfReply(s: Settings, prompt: Text, inputs: seq<Text>, reasoning: bool)
    requires |inputs| % 2 == 0
    ensures ApplyChatTemplate(s, prompt, inputs, reasoning) == prompt + Turns(s, inputs, |inputs|)
  {
  }

  lemma Unended(prompt: Text, turns: Text, turn: Text)
    ensures prompt + (turns + (turn + [])) == prompt + turns + turn
  {
  }

  lemma WithNext(s: Settings, prompt: Text, inputs: seq<Text>, reply: Text, next: Text, reasoning: bool)
    requires |inputs| % 2 == 1
    ensures ApplyChatTemplate(s, prompt, inputs + [reply, next], reasoning) ==
      prompt + Turns(s, inputs, |inputs|) + (s.bos + s.responseRole + [58, 32] + reply + s.eos) +
      (s.bos + s.userRole + [58, 32] + next + s.eos) +
      (s.responseRole + [58] + if reasoning then [32] + s.thinkingToken else [])
  {
    hide Turns, ApplyChatTemplate;
    var n, two := |inputs|, inputs + [reply, next];
    TwoMoreTurns(s, inputs, two, reply, next);
    TemplateIs(s, prompt, two, reasoning);
    OneAfterAnother(prompt, Turns(s, inputs, n), Turns(s, two, n + 1), Turns(s, two, n + 2),
                    s.bos + s.responseRole + [58, 32] + reply + s.eos, s.bos + s.userRole + [58, 32] + next + s.eos);
  }

  lemma TwoMoreTurns(s: Settings, inputs: seq<Text>, two: seq<Text>, reply: Text, next: Text)
    requires |inputs| % 2 == 1 && two == inputs + [reply, next]
    ensures var n := |inputs|;
      && Turns(s, two, n + 1) == Turns(s, inputs, n) + (s.bos + s.responseRole + [58, 32] + reply + s.eos)
      && Turns(s, two, n + 2) == Turns(s, two, n + 1) + (s.bos + s.userRole + [58, 32] + next + s.eos)
  {
    hide Turns;
    TurnsStay(s, inputs, two, |inputs|);
    LastTurn(s, two, |inputs| + 1);
    LastTurn(s, two, |inputs| + 2);
  }

  lemma TemplateIs(s: Settings, prompt: Text, inputs: seq<Text>, reasoning: bool)
    requires |inputs| % 2 == 1
    ensures ApplyChatTemplate(s, prompt, inputs, reasoning) == prompt + Turns(s, inputs, |inputs|) +
      (s.responseRole + [58] + if reasoning then [32] + s.thinkingToken else [])
  {
  }

  lemma LastTurn(s: Settings, inputs: seq<Text>, n: nat)
    requires 0 < n <= |inputs|
    ensures Turns(s, inputs, n) == Turns(s, inputs, n - 1) +
      (s.bos + (if n % 2 == 1 then s.userRole else s.responseRole) + [58, 32] + inputs[n - 1] +
       if n % 2 == 0 && n == |inputs| then [] else s.eos)
  {
  }

  lemma OneAfterAnother(prompt: Text, turns: Text, one: Text, two: Text, a: Text, b: Text)
    requires one == turns + a && two == one + b
    ensures prompt + two == prompt + turns + a + b
  {
  }

  /** Turns that are not the last say the same in a longer dialogue. */
  lemma {:induction false} TurnsStay(s: Settings, inputs: seq<Text>, longer: seq<Text>, n: nat)
    requires inputs <= longer && n <= |inputs| && (|inputs| % 2 == 1 || n < |inputs|)
    ensures Turns(s, longer, n) == Turns(s, inputs, n)
    decreases n
  {
    if n > 0 { TurnsStay(s, inputs, longer, n - 1); }
  }

  /** Without a mark in front of each turn, what a chat has evaluated is the beginning of what the next one will be
      asked to: the text it was given, and its response. */
  lemma Continues(s: Settings, prompt: Text, inputs: seq<Text>, reply: Text, next: Text, reasoning: bool)
    requires |inputs| % 2 == 1 && s.bos == []
    ensures ApplyChatTemplate(s, prompt, inputs, false) + ([32] + reply) ==
      ApplyChatTemplate(s, prompt, inputs + [reply], reasoning)
    ensures ApplyChatTemplate(s, prompt, inputs, false) + ([32] + reply + s.eos) <=
      ApplyChatTemplate(s, prompt, inputs + [reply, next], reasoning)
    // and with a thought, when the response given begins with the token that opened it
    ensures s.thinkingToken <= reply ==>
      ApplyChatTemplate(s, prompt, inputs, true) + (reply[|s.thinkingToken|..] + s.eos) <=
      ApplyChatTemplate(s, prompt, inputs + [reply, next], reasoning)
  {
    var front := TurnsGoOn(s, prompt, inputs, reply, next, reasoning);
    hide ApplyChatTemplate;
    var role := s.responseRole;
    Tagged(front, role, reply, s.eos);
    if s.thinkingToken <= reply {
      var rest := reply[|s.thinkingToken|..];
      assert reply == s.thinkingToken + rest;
      Thoughtful(front, role, s.thinkingToken, rest, s.eos);
    }
  }

  lemma Thoughtful(front: Text, role: Text, thinking: Text, rest: Text, eos: Text)
    ensures front + (role + [58] + ([32] + thinking)) + (rest + eos) ==
      front + ([] + role + [58, 32] + (thinking + rest) + eos)
  {
    assert role + [58] + ([32] + thinking) + (rest + eos) == [] + role + [58, 32] + (thinking + rest) + eos;
  }

  lemma Tagged(front: Text, role: Text, reply: Text, eos: Text)
    ensures front + (role + [58]) + ([32] + reply) == front + ([] + role + [58, 32] + reply)
    ensures front + (role + [58]) + ([32] + reply + eos) == front + ([] + role + [58, 32] + reply + eos)
  {
    assert [58] + [32] == [58, 32] && [] + role == role;
  }

  /** With such a mark that is so only if it stands in front of the tag as well, which the template leaves out: the
      text of a chat is a beginning of that text and its response exactly when the tag begins what stands there. */
  lemma ContinuesIff(s: Settings, prompt: Text, inputs: seq<Text>, reply: Text, reasoning: bool)
    requires |inputs| % 2 == 1
    ensures
      ApplyChatTemplate(s, prompt, inputs, false) <= ApplyChatTemplate(s, prompt, inputs + [reply], reasoning) <==>
      s.responseRole + [58] <= s.bos + s.responseRole + [58, 32] + reply
  {
    var front := TurnsGoOn(s, prompt, inputs, reply, [], reasoning);
    hide ApplyChatTemplate;
    Beginnings(front, s.responseRole + [58], s.bos + s.responseRole + [58, 32] + reply);
  }

  lemma Beginnings(front: Text, a: Text, b: Text)
    ensures front + a <= front + b <==> a <= b
  {
    assert (front + a)[|front|..] == a && (front + b)[|front|..] == b;
    if a <= b { assert front + b == front + a + b[|a|..]; }
    if front + a <= front + b { assert b[..|a|] == (front + b)[|front|..|front| + |a|] == a; }
  }

  /** Two dialogues alike in length turn by turn, and in the text made of them, are the same. */
  lemma TemplateTellsApart(s: Settings, prompt: Text, xs: seq<Text>, ys: seq<Text>, reasoning: bool)
    requires |xs| == |ys| && forall i :: 0 <= i < |xs| ==> |xs[i]| == |ys[i]|
    requires ApplyChatTemplate(s, prompt, xs, reasoning) == ApplyChatTemplate(s, prompt, ys, reasoning)
    ensures xs == ys
  {
    var n := |xs|;
    SameBetween(prompt, Turns(s, xs, n), Turns(s, ys, n),
                if n % 2 == 0 then [] else s.responseRole + [58] + if reasoning then [32] + s.thinkingToken else []);
    TurnsAlike(s, xs, ys, n);
    assert xs[..n] == xs && ys[..n] == ys;
  }

  lemma SameBetween(front: Text, a: Text, b: Text, back: Text)
    requires front + a + back == front + b + back
    ensures a == b
  {
    var whole := front + a + back;
    assert |a| == |b| && whole[|front|..|front| + |a|] == a;
    assert (front + b + back)[|front|..|front| + |b|] == b;
  }

  lemma {:induction false} TurnsAlike(s: Settings, xs: seq<Text>, ys: seq<Text>, n: nat)
    requires |xs| == |ys| && n <= |xs| && forall i :: 0 <= i < |xs| ==> |xs[i]| == |ys[i]|
    ensures |Turns(s, xs, n)| == |Turns(s, ys, n)|
    ensures Turns(s, xs, n) == Turns(s, ys, n) ==> xs[..n] == ys[..n]
    decreases n
  {
    if n > 0 {
      TurnsAlike(s, xs, ys, n - 1);
      LastTurn(s, xs, n);
      LastTurn(s, ys, n);
      var role := s.bos + (if n % 2 == 1 then s.userRole else s.responseRole) + [58, 32];
      var close := if n % 2 == 0 && n == |xs| then [] else s.eos;
      TurnAlike(Turns(s, xs, n - 1), Turns(s, ys, n - 1), role, xs[n - 1], ys[n - 1], close);
      assert xs[..n] == xs[..n - 1] + [xs[n - 1]] && ys[..n] == ys[..n - 1] + [ys[n - 1]];
    }
  }

  lemma TurnAlike(a: Text, b: Text, role: Text, x: Text, y: Text, close: Text)
    requires |a| == |b| && |x| == |y|
    ensures a + (role + x + close) == b + (role + y + close) ==> a == b && x == y
  {
    var s, t := a + (role + x + close), b + (role + y + close);
    assert s[..|a|] == a && t[..|b|] == b;
    assert s[|a| + |role|..|a| + |role| + |x|] == x && t[|b| + |role|..|b| + |role| + |y|] == y;
  }

  /** `std::string::rfind`: the last occurrence that starts before `limit`, or -1. */
  function RFind(text: Text, pattern: Text, limit: nat): (p: int)
    ensures p == -1 || OccursAt(text, pattern, p)
    ensures forall q :: p < q < limit ==> !OccursAt(text, pattern, q)
  {
    if limit == 0 then -1
    else if OccursAt(text, pattern, limit - 1) then limit - 1
    else RFind(text, pattern, limit - 1)
  }

  /** A templated dialogue contains the response role, so the response part is well defined. */
  lemma TemplateHasRole(s: Settings, prompt: Text, inputs: seq<Text>, enableReasoning: bool)
    requires inputs != []
    ensures var text := ApplyChatTemplate(s, prompt, inputs, enableReasoning);
      RFind(text, s.responseRole + [58], |text| + 1) != -1
  {
    var text, tag := ApplyChatTemplate(s, prompt, inputs, enableReasoning), s.responseRole + [58];
    var n := |inputs|;
    var before := prompt + Turns(s, inputs, n);
    if n % 2 == 1 {
      assert text[|before|..|before| + |tag|] == tag;
      assert OccursAt(text, tag, |before|);
    } else {
      var front := Turns(s, inputs, n - 1) + s.bos;
      assert before == prompt + (front + tag + ([32] + inputs[n - 1]));
      assert text == before;
      assert text[|prompt| + |front|..|prompt| + |front| + |tag|] == tag;
      assert OccursAt(text, tag, |prompt| + |front|);
    }
  }

  predicate EndsWith(text: Text, code: Text) {
    |code| <= |text| && text[|text| - |code|..] == code
  }

  /** src/runtime.cpp:835-845 */
  predicate StopCodeFound(text: Text, stopCodes: seq<Text>, skipBlankLine: bool) {
    exists i :: 0 <= i < |stopCodes| && !(skipBlankLine && stopCodes[i] == BLANK_LINE) && EndsWith(text, stopCodes[i])
  }

  const RMPACK: Text := [46, 114, 109, 112, 97, 99, 107]                                 // ".rmpack"
  const STATE_TAG: Text := [60, 115, 116, 97, 116, 101, 32, 115, 114, 99, 61, 34]        // "<state src=\""
  const STATE_TAG_END: Text := [34, 62]                                                  // "\">"

  /** How the decoding of one sequence of a batch ends: what it has said, the state saved for it, and the state held
      before a rewind token. */
  datatype Ending<S> = Ending(response: seq<int>, state: S, held: Option<S>)
  {
    /** The ids registered for it: without the last one if a state is held (src/runtime.cpp:1226-1231). */
    function Ids(): seq<int> {
      if held.Some? && response != [] then response[..|response| - 1] else response
    }

    /** The state registered with them. */
    function Closing(): S {
      if held.Some? && response != [] then held.value else state
    }
  }

  /** The calls that touch the cache; the sampler's tokens and the stop signal are functions of the step;
      `decode` says what the decoding of a batch leaves for a sequence, from the states all of them start from, its
      number and its own state. */
  datatype Command<!S> =
    | Prompt(text: Text)
    | Converse(inputs: seq<Text>, draws: Draws)
    | Batch(texts: seq<Text>, decode: (seq<S>, nat, S) -> Ending<S>)
    | Load(path: Text, file: Option<S>)
    | Unload(path: Text)

  /** The text after the last response role: what a chat starts its response buffer with (src/runtime.cpp:779-781). */
  function ResponsePart(s: Settings, text: Text): Text {
    var tag := s.responseRole + [58];
    var p := RFind(text, tag, |text| + 1);
    if p == -1 then [] else text[p + |tag|..]
  }

  /** Where a response is asked for without a thought, nothing of it is there yet. */
  lemma NothingOfIt(s: Settings, prompt: Text, inputs: seq<Text>)
    requires |inputs| % 2 == 1
    ensures ResponsePart(s, ApplyChatTemplate(s, prompt, inputs, false)) == []
  {
    var front := TurnsGoOn(s, prompt, inputs, [], [], false);
    var text, tag := ApplyChatTemplate(s, prompt, inputs, false), s.responseRole + [58];
    assert text[|front|..|front| + |tag|] == tag && OccursAt(text, tag, |front|);
  }

  /** The ids a chat registers: a trailing rewind token is dropped (src/runtime.cpp:884-890). */
  function Spoken(response: seq<int>): (kept: seq<int>)
    ensures kept <= response
  {
    if response != [] && IsRewindToken(response[|response| - 1]) then response[..|response| - 1] else response
  }

  /** How a response is drawn: at most `maxLength` tokens, the token and the stop signal of each step, and whether
      thinking is on. */
  datatype Draws = Draws(maxLength: nat, draw: nat -> int, stopSignal: nat -> bool, reasoning: bool)

  /** The response of the decoding loop from step `i` on, with `buffer` said so far. */
  function Reply(v: seq<Entry>, s: Settings, d: Draws, buffer: Text, ended: bool, i: nat): seq<int>
    requires i <= d.maxLength
    decreases d.maxLength - i
  {
    if i == d.maxLength || d.draw(i) == 0 then []
    else
      var said := buffer + Decode(v, [d.draw(i)]);
      if StopCodeFound(said, s.stopCodes, d.reasoning && !ended) || d.stopSignal(i) then []
      else
        [d.draw(i)] + Reply(v, s, d, if i == 0 then Unspaced(said) else said,
                            ended || (d.reasoning && Find(said, END_OF_THINKING, 0) != -1), i + 1)
  }

  lemma ReplyAt(v: seq<Entry>, s: Settings, d: Draws, buffer: Text, ended: bool, i: nat)
    requires i <= d.maxLength
    ensures i == d.maxLength || d.draw(i) == 0 ==> Reply(v, s, d, buffer, ended, i) == []
    ensures i < d.maxLength && d.draw(i) != 0 ==>
      var said := buffer + Decode(v, [d.draw(i)]);
      Reply(v, s, d, buffer, ended, i) ==
        if StopCodeFound(said, s.stopCodes, d.reasoning && !ended) || d.stopSignal(i) then []
        else
          [d.draw(i)] + Reply(v, s, d, if i == 0 then Unspaced(said) else said,
                              ended || (d.reasoning && Find(said, END_OF_THINKING, 0) != -1), i + 1)
  {
  }

  /** The front of what is left moves over to what is done. */
  lemma Moved(done: seq<int>, token: int, left: seq<int>)
    ensures done + [] == done && |done + [token]| == |done| + 1
    ensures done + ([token] + left) == (done + [token]) + left
  {
  }

  /** A response does not start with a space. */
  function Unspaced(text: Text): Text {
    if text != [] && text[0] == SPACE then text[1..] else text
  }

  /** What a user has read once `said` is said: the start and what the tokens stand for, without a space in front. */
  function Heard(v: seq<Entry>, start: Text, said: seq<int>): Text {
    if said == [] then start else Unspaced(start + Decode(v, said[..1])) + Decode(v, said[1..])
  }

  lemma HeardNext(v: seq<Entry>, start: Text, said: seq<int>, token: int)
    ensures Heard(v, start, said + [token]) ==
      if said == [] then Unspaced(Heard(v, start, said) + Decode(v, [token]))
      else Heard(v, start, said) + Decode(v, [token])
  {
    var next := said + [token];
    if said == [] {
      assert next[..1] == [token] && next[1..] == [];
    } else {
      assert next[..1] == said[..1] && next[1..] == said[1..] + [token];
      DecodeConcat(v, said[1..], [token]);
    }
  }

  /** With anything to read after the first token, that is start and response without one space in front. */
  lemma HeardWhole(v: seq<Entry>, start: Text, said: seq<int>)
    requires said != [] && start + Decode(v, said[..1]) != []
    ensures Heard(v, start, said) == Unspaced(start + Decode(v, said))
  {
    hide Decode, Unspaced;
    assert said == said[..1] + said[1..];
    DecodeConcat(v, said[..1], said[1..]);
    FrontUnspaced(start, Decode(v, said[..1]), Decode(v, said[1..]));
  }

  lemma FrontUnspaced(start: Text, first: Text, rest: Text)
    requires start + first != []
    ensures Unspaced(start + first) + rest == Unspaced(start + (first + rest))
  {
    assert start + (first + rest) == (start + first) + rest;
  }

  /** A token of the response has closed the thought. */
  ghost predicate ThoughtOver(v: seq<Entry>, start: Text, said: seq<int>) {
    exists k :: 0 <= k < |said| && ClosesThought(v, start, said[..k], said[k])
  }

  predicate ClosesThought(v: seq<Entry>, start: Text, said: seq<int>, token: int) {
    Find(Heard(v, start, said) + Decode(v, [token]), END_OF_THINKING, 0) != -1
  }

  lemma ThoughtNext(v: seq<Entry>, start: Text, said: seq<int>, token: int)
    ensures ThoughtOver(v, start, said + [token]) <==>
      ThoughtOver(v, start, said) || ClosesThought(v, start, said, token)
  {
    var next := said + [token];
    assert next[..|said|] == said && next[|said|] == token;
    assert forall k :: 0 <= k < |said| ==> next[..k] == said[..k] && next[k] == said[k];
  }

  /** Nothing is said after `said`: it is long enough, or the next token is 0, completes a stop code (a blank line only
      once the thought is over) or comes with a stop signal. */
  ghost predicate Over(v: seq<Entry>, s: Settings, d: Draws, start: Text, said: seq<int>) {
    |said| >= d.maxLength || d.draw(|said|) == 0 || d.stopSignal(|said|) ||
    StopCodeFound(Heard(v, start, said) + Decode(v, [d.draw(|said|)]), s.stopCodes,
                  d.reasoning && !ThoughtOver(v, start, said))
  }

  /** What the loop tests: `ended` is its flag for the thought. */
  lemma OverIs(v: seq<Entry>, s: Settings, d: Draws, start: Text, said: seq<int>, ended: bool)
    requires ended == (d.reasoning && ThoughtOver(v, start, said))
    ensures Over(v, s, d, start, said) <==>
      |said| >= d.maxLength || d.draw(|said|) == 0 || d.stopSignal(|said|) ||
      StopCodeFound(Heard(v, start, said) + Decode(v, [d.draw(|said|)]), s.stopCodes, d.reasoning && !ended)
  {
  }

  /** The first draws, none of which ends the response. */
  ghost predicate Begins(v: seq<Entry>, s: Settings, d: Draws, start: Text, said: seq<int>) {
    forall k :: 0 <= k < |said| ==> said[k] == d.draw(k) && !Over(v, s, d, start, said[..k])
  }

  lemma BeginsNext(v: seq<Entry>, s: Settings, d: Draws, start: Text, said: seq<int>)
    requires Begins(v, s, d, start, said) && !Over(v, s, d, start, said)
    ensures Begins(v, s, d, start, said + [d.draw(|said|)])
  {
    hide Over;
    var next := said + [d.draw(|said|)];
    assert next[..|said|] == said;
    assert forall k :: 0 <= k < |said| ==> next[..k] == said[..k];
  }

  /** The draws up to the first that ends the response. */
  ghost predicate Answers(v: seq<Entry>, s: Settings, d: Draws, start: Text, response: seq<int>) {
    Begins(v, s, d, start, response) && Over(v, s, d, start, response)
  }

  /** There is just one such response. */
  lemma OneAnswer(v: seq<Entry>, s: Settings, d: Draws, start: Text, a: seq<int>, b: seq<int>)
    requires Answers(v, s, d, start, a) && Answers(v, s, d, start, b)
    ensures a == b
  {
    hide Over;
    var n := if |a| < |b| then |a| else |b|;
    assert a[..n] == b[..n] && a[..|a|] == a && b[..|b|] == b;
  }

  /** It is the response of the loop. */
  lemma ReplyAnswers(v: seq<Entry>, s: Settings, d: Draws, start: Text)
    ensures Answers(v, s, d, start, Reply(v, s, d, start, false, 0))
  {
    assert [] + Reply(v, s, d, start, false, 0) == Reply(v, s, d, start, false, 0);
    RestAnswers(v, s, d, start, []);
  }

  lemma {:induction false} RestAnswers(v: seq<Entry>, s: Settings, d: Draws, start: Text, said: seq<int>)
    requires |said| <= d.maxLength && Begins(v, s, d, start, said)
    ensures Answers(v, s, d, start,
      said + Reply(v, s, d, Heard(v, start, said), d.reasoning && ThoughtOver(v, start, said), |said|))
    decreases d.maxLength - |said|
  {
    hide Reply, Heard, ThoughtOver, Over, Begins;
    ReplyGoesOn(v, s, d, start, said);
    var i := |said|;
    if Over(v, s, d, start, said) {
      assert said + [] == said;
    } else {
      WithinLimit(v, s, d, start, said);
      var next := said + [d.draw(i)];
      Moved(said, d.draw(i), Reply(v, s, d, Heard(v, start, next), d.reasoning && ThoughtOver(v, start, next), i + 1));
      BeginsNext(v, s, d, start, said);
      RestAnswers(v, s, d, start, next);
    }
  }

  lemma WithinLimit(v: seq<Entry>, s: Settings, d: Draws, start: Text, said: seq<int>)
    ensures !Over(v, s, d, start, said) ==> |said| < d.maxLength
  {
  }

  lemma ReplyGoesOn(v: seq<Entry>, s: Settings, d: Draws, start: Text, said: seq<int>)
    requires |said| <= d.maxLength
    ensures var i, reply := |said|,
        Reply(v, s, d, Heard(v, start, said), d.reasoning && ThoughtOver(v, start, said), |said|);
      if Over(v, s, d, start, said) then reply == []
      else
        var next := said + [d.draw(i)];
        i < d.maxLength && reply == [d.draw(i)] +
          Reply(v, s, d, Heard(v, start, next), d.reasoning && ThoughtOver(v, start, next), i + 1)
  {
    var heard, over, i := Heard(v, start, said), d.reasoning && ThoughtOver(v, start, said), |said|;
    ReplyAt(v, s, d, heard, over, i);
    HeardNext(v, start, said, d.draw(i));
    ThoughtNext(v, start, said, d.draw(i));
  }
}
