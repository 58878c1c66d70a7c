/** Streaming text to speech (src/runtime.cpp:1364-1405): a producer appends audio tokens while a consumer decodes
    them in chunks.  Producer and consumer are stepped in any order. */
module TtsStream {

  const INITIAL_CHUNK: nat := 125
  const CHUNK: nat := 100
  const OVERLAP: nat := 25
  const SAMPLES_PER_TOKEN: nat := 320  // 16000 / 50

  /** Where the consumer stands: waiting, with a chunk to decode, with the last one to decode, finished. */
  datatype Pc = Watching | Decoding(tokens: seq<int>, buffered: nat) | Draining(tokens: seq<int>, buffered: nat) | Done

  datatype Event = Token(id: int) | Finish | Step

  /** How many steps the consumer is from its end, once the producer is done. */
  function Rank(pc: Pc): nat {
    match pc case Decoding(_, _) => 3 case Watching => 2 case Draining(_, _) => 1 case Done => 0
  }

  /** The position after `k` full chunks. */
  function Pos(k: nat): nat {
    if k == 0 then 0 else INITIAL_CHUNK + CHUNK * (k - 1)
  }

  /** The tokens decoded ahead of position `at` for context: the 25 before it, none at the start. */
  function Context(tokens: seq<int>, at: nat): (c: seq<int>)
    requires at <= |tokens|
  {
    if at < OVERLAP then [] else tokens[at - OVERLAP..at]
  }

  /** What a schedule makes the producer say: every token before it finishes. */
  function Said(schedule: seq<Event>): seq<int>
    decreases |schedule|
  {
    if schedule == [] then []
    else match schedule[0]
      case Token(id) => [id] + Said(schedule[1..])
      case Finish => []
      case Step => Said(schedule[1..])
  }

  /** What tokens and steps alone decide: tokens said, full chunks taken, whether the last of them is still being
      decoded, whether the producer is done. */
  datatype Progress = Progress(said: nat, taken: nat, busy: bool, over: bool)
  {
    function Next(e: Event): Progress {
      match e
      case Token(_) => if over then this else this.(said := said + 1)
      case Finish => this.(over := true)
      case Step =>
        if busy then this.(busy := false)
        else if !over && said >= Pos(taken + 1) then this.(taken := taken + 1, busy := true)
        else this
    }

    function Along(schedule: seq<Event>): Progress
      decreases |schedule|
    {
      if schedule == [] then this else Next(schedule[0]).Along(schedule[1..])
    }

    lemma {:induction false} AlongConcat(a: seq<Event>, b: seq<Event>)
      ensures Along(a + b) == Along(a).Along(b)
      decreases |a|
    {
      if a == [] {
        assert a + b == b;
      } else {
        assert (a + b)[0] == a[0] && (a + b)[1..] == a[1..] + b;
        Next(a[0]).AlongConcat(a[1..], b);
      }
    }

    /** No chunk is taken before its tokens are there. */
    lemma {:induction false} NeverAhead(schedule: seq<Event>)
      requires Pos(taken) <= said
      ensures Pos(Along(schedule).taken) <= Along(schedule).said && taken <= Along(schedule).taken
      decreases |schedule|
    {
      if schedule != [] { Next(schedule[0]).NeverAhead(schedule[1..]); }
    }

    /** Two steps for every chunk that is waiting, and one to finish the last, take everything there is. */
    lemma {:induction false} CatchesUp(chunks: nat, steps: seq<Event>)
      requires !over && said < Pos(taken + chunks + 1) && |steps| == 2 * chunks + 1
      requires forall i :: 0 <= i < |steps| ==> steps[i] == Step
      ensures var p := Along(steps); p.said == said < Pos(p.taken + 1) && !p.busy && !p.over
      decreases chunks
    {
      var p := Next(Step);
      assert Along(steps) == p.Along(steps[1..]);
      if chunks == 0 {
        assert steps[1..] == [];
      } else {
        var q := p.Next(Step);
        assert p.Along(steps[1..]) == q.Along(steps[1..][1..]) && steps[1..][1..] == steps[2..];
        q.CatchesUp(chunks - 1, steps[2..]);
      }
    }
  }

  const BEFORE := Progress(0, 0, false, false)

  /** Two steps of the consumer after every token. */
  function Eager(ids: seq<int>): seq<Event>
    decreases |ids|
  {
    if ids == [] then [] else Eager(ids[..|ids| - 1]) + [Token(ids[|ids| - 1]), Step, Step]
  }

  /** Then no full chunk ever waits. */
  lemma {:induction false} EagerKeepsUp(ids: seq<int>)
    ensures var p := BEFORE.Along(Eager(ids));
      Pos(p.taken) <= p.said == |ids| < Pos(p.taken + 1) && !p.busy && !p.over
    decreases |ids|
  {
    if ids != [] {
      var front, last := Eager(ids[..|ids| - 1]), [Token(ids[|ids| - 1]), Step, Step];
      EagerKeepsUp(ids[..|ids| - 1]);
      BEFORE.AlongConcat(front, last);
      var p := BEFORE.Along(front);
      var q := p.Next(last[0]);
      assert p.Along(last) == q.Along(last[1..]) && last[1..] == [Step, Step];
      assert q.Along([Step, Step]) == q.Next(Step).Along([Step]) && [Step, Step][1..] == [Step];
      assert q.Next(Step).Along([Step]) == q.Next(Step).Next(Step);
    }
  }

  lemma {:induction false} EagerSays(ids: seq<int>, rest: seq<Event>)
    ensures Said(Eager(ids) + rest) == ids + Said(rest)
    decreases |ids|
  {
    if ids == [] {
      assert [] + rest == rest && ids + Said(rest) == Said(rest);
    } else {
      var front, id := ids[..|ids| - 1], ids[|ids| - 1];
      var mine := [Token(id), Step, Step] + rest;
      EagerSays(front, mine);
      assert Eager(ids) + rest == Eager(front) + mine;
      var after := [Step, Step] + rest;
      assert mine[1..] == after && after[1..] == [Step] + rest && ([Step] + rest)[1..] == rest;
      assert Said(after) == Said([Step] + rest) == Said(rest);
      assert ids == front + [id] && ids + Said(rest) == front + ([id] + Said(rest));
    }
  }

  class Stream<Sample(!new)> {
    const detokenize: seq<int> -> seq<Sample>
    var outputTokens: seq<int>
    var generationFinished: bool
    var samples: seq<Sample>
    var chunkSize: nat
    var pos: nat
    var buffer: seq<int>
    var pc: Pc
    /** How many full chunks have been emitted. */
    ghost var emitted: nat

    /** The detokenizer gives 320 samples for every token. */
    ghost predicate Steady() {
      forall tokens :: |detokenize(tokens)| == SAMPLES_PER_TOKEN * |tokens|
    }

    /** The samples of tokens `a` to `b`, decoded behind their context. */
    ghost function Piece(tokens: seq<int>, a: nat, b: nat): (s: seq<Sample>)
      requires Steady() && a <= b <= |tokens|
      ensures |s| == SAMPLES_PER_TOKEN * (b - a)
    {
      var context := Context(tokens, a);
      detokenize(context + tokens[a..b])[SAMPLES_PER_TOKEN * |context|..]
    }

    /** The samples of the first `k` full chunks. */
    ghost function Chunks(tokens: seq<int>, k: nat): (s: seq<Sample>)
      requires Steady() && Pos(k) <= |tokens|
      ensures |s| == SAMPLES_PER_TOKEN * Pos(k)
    {
      if k == 0 then [] else Chunks(tokens, k - 1) + Piece(tokens, Pos(k - 1), Pos(k))
    }

    /** Later tokens change nothing about earlier chunks. */
    lemma {:induction false} ChunksStay(tokens: seq<int>, more: seq<int>, k: nat)
      requires Steady() && Pos(k) <= |tokens| && tokens <= more
      ensures Chunks(more, k) == Chunks(tokens, k)
    {
      hide Piece, Context;
      if k > 0 {
        ChunksStay(tokens, more, k - 1);
        PieceStays(tokens, more, Pos(k - 1), Pos(k));
      }
    }

    lemma PieceStays(tokens: seq<int>, more: seq<int>, a: nat, b: nat)
      requires Steady() && a <= b <= |tokens| && tokens <= more
      ensures Piece(more, a, b) == Piece(tokens, a, b) && Context(more, a) == Context(tokens, a)
    {
      assert more[a..b] == tokens[a..b];
      if a >= OVERLAP { assert more[a - OVERLAP..a] == tokens[a - OVERLAP..a]; }
    }

    ghost predicate Valid()
      reads this
    {
      && Steady() && Pos(emitted) <= |outputTokens|
      && chunkSize == (if emitted == 0 then INITIAL_CHUNK else CHUNK)
      && match pc
         case Watching =>
           pos == Pos(emitted) && buffer == Context(outputTokens, pos) && samples == Chunks(outputTokens, emitted)
         case Decoding(tokens, buffered) =>
           var a := Pos(emitted);
           && pos == Pos(emitted + 1) <= |outputTokens| && buffer == Context(outputTokens, pos)
           && tokens == Context(outputTokens, a) + outputTokens[a..pos] && buffered == |Context(outputTokens, a)|
           && samples == Chunks(outputTokens, emitted)
         case Draining(tokens, buffered) =>
           && generationFinished && pos == Pos(emitted) < |outputTokens|
           && tokens == Context(outputTokens, pos) + outputTokens[pos..] && buffered == |Context(outputTokens, pos)|
           && samples == Chunks(outputTokens, emitted)
         case Done => generationFinished && samples == Whole(outputTokens, emitted)
    }

    /** Full chunks, then whatever is left in one piece. */
    ghost function Whole(tokens: seq<int>, k: nat): (s: seq<Sample>)
      requires Steady() && Pos(k) <= |tokens|
      ensures |s| == SAMPLES_PER_TOKEN * |tokens|
    {
      Chunks(tokens, k) + Piece(tokens, Pos(k), |tokens|)
    }

    /** The stream is where tokens and steps say. */
    ghost predicate At(p: Progress)
      reads this
    {
      && |outputTokens| == p.said && generationFinished == p.over && pc.Decoding? == p.busy
      && p.taken == if pc.Decoding? then emitted + 1 else emitted
    }

    constructor (detokenize: seq<int> -> seq<Sample>)
      requires forall tokens :: |detokenize(tokens)| == SAMPLES_PER_TOKEN * |tokens|
      ensures Valid() && this.detokenize == detokenize && outputTokens == [] && At(BEFORE)
    {
      this.detokenize := detokenize;
      outputTokens, generationFinished, samples := [], false, [];
      chunkSize, pos, buffer, pc, emitted := INITIAL_CHUNK, 0, [], Watching, 0;
    }

    /** The producer's step. */
    method Push(id: int)
      requires Valid() && !generationFinished
      modifies this`outputTokens
      ensures Valid() && outputTokens == old(outputTokens) + [id]
    {
      hide Chunks, Context, Piece;
      ghost var before := outputTokens;
      outputTokens := outputTokens + [id];
      ChunksStay(before, outputTokens, emitted);
      PieceStays(before, outputTokens, Pos(emitted), Pos(emitted));
      if pc.Decoding? { PieceStays(before, outputTokens, pos, pos); }
      assert outputTokens[Pos(emitted)..|before|] == before[Pos(emitted)..];
    }

    method FinishGeneration(ghost p: Progress)
      requires Valid() && At(p)
      modifies this`generationFinished
      ensures Valid() && generationFinished && At(p.Next(Finish))
    {
      generationFinished := true;
    }

    /** The consumer's step: look, or decode what was taken. */
    method ConsumerStep(ghost p: Progress)
      requires Valid() && At(p)
      modifies this`samples, this`chunkSize, this`pos, this`buffer, this`pc, this`emitted
      ensures Valid() && At(p.Next(Step))
      ensures old(samples) <= samples && old(emitted) <= emitted
      // a full chunk that waits is taken, with its context
      ensures old(pc) == Watching && !generationFinished && Pos(emitted + 1) <= |outputTokens| ==>
        var a := Pos(emitted);
        pc == Decoding(Context(outputTokens, a) + outputTokens[a..Pos(emitted + 1)], |Context(outputTokens, a)|)
      ensures generationFinished && old(pc) != Done ==> Rank(pc) < Rank(old(pc))
    {
      match pc {
        case Watching => Watch(p);
        case Decoding(_, _) => Emit();
        case Draining(_, _) => Drain();
        case Done =>
      }
    }

    method Watch(ghost p: Progress)
      requires Valid() && pc == Watching && At(p)
      modifies this`pos, this`buffer, this`pc
      ensures Valid() && At(p.Next(Step))
      ensures !generationFinished && Pos(emitted + 1) <= |outputTokens| ==> pc.Decoding?
      ensures (generationFinished ==> Rank(pc) < Rank(Watching))
    {
      hide Chunks, Context;
      if !generationFinished {
        if |outputTokens| - pos >= chunkSize { Take(); }
      } else if |outputTokens| - pos > 0 {
        pc := Draining(buffer + outputTokens[pos..], |buffer|);
      } else {
        NothingLeft();
        pc := Done;
      }
    }

    lemma NothingLeft()
      requires Valid() && pc == Watching && pos == |outputTokens|
      ensures samples == Whole(outputTokens, emitted)
    {
      hide Chunks, Context;
      assert Piece(outputTokens, pos, pos) == [];
    }

    /** Decode a chunk, drop the samples of its context, and go over to the smaller chunks after the first one
        (lines 1385-1392). */
    method Emit()
      requires Valid() && pc.Decoding?
      modifies this`samples, this`chunkSize, this`pc, this`emitted
      ensures Valid() && pc == Watching && old(samples) <= samples && emitted == old(emitted) + 1
    {
      hide Context;
      var decoded := detokenize(pc.tokens);
      if samples == [] { chunkSize := CHUNK; }
      samples := samples + decoded[16000 * pc.buffered / 50..];
      emitted := emitted + 1;
      pc := Watching;
    }

    /** The final flush (lines 1396-1404). */
    method Drain()
      requires Valid() && pc.Draining?
      modifies this`samples, this`pc
      ensures Valid() && pc == Done && old(samples) <= samples
    {
      hide Chunks, Context;
      assert outputTokens[pos..|outputTokens|] == outputTokens[pos..];
      samples := samples + detokenize(pc.tokens)[16000 * pc.buffered / 50..];
      pc := Done;
    }

    /** Take one chunk, and keep its last 25 tokens (lines 1379-1384). */
    method Take()
      requires Valid() && pc == Watching && |outputTokens| - pos >= chunkSize
      modifies this`pos, this`buffer, this`pc
      ensures Valid() && pc.Decoding?
    {
      var chunk := outputTokens[pos..pos + chunkSize];
      var current := buffer + chunk;
      pc := Decoding(current, |buffer|);
      pos := pos + chunkSize;
      buffer := current[|current| - OVERLAP..];
      assert buffer == outputTokens[pos - OVERLAP..pos];
    }

    /** Steps of both sides in the order of a schedule. */
    method Run(schedule: seq<Event>, ghost p: Progress)
      requires Valid() && At(p)
      modifies this
      ensures Valid() && At(p.Along(schedule))
      ensures outputTokens == old(outputTokens) + if old(generationFinished) then [] else Said(schedule)
      decreases |schedule|
    {
      hide Valid;
      if schedule == [] { return; }
      ghost var rest := Said(schedule[1..]);
      match schedule[0] {
        case Token(id) =>
          if !generationFinished {
            Push(id);
            assert old(outputTokens) + [id] + rest == old(outputTokens) + ([id] + rest);
          }
        case Finish => FinishGeneration(p);
        case Step => ConsumerStep(p);
      }
      Run(schedule[1..], p.Next(schedule[0]));
    }

    /** Once the producer is done the consumer comes to its end. */
    method Join(ghost p: Progress)
      requires Valid() && generationFinished && At(p)
      modifies this`samples, this`chunkSize, this`pos, this`buffer, this`pc, this`emitted
      ensures Valid() && pc == Done && emitted == p.taken
    {
      hide Valid;
      ghost var q := p;
      while pc != Done
        invariant Valid() && generationFinished && At(q) && q.taken == p.taken
        decreases Rank(pc)
      {
        ConsumerStep(q);
        q := q.Next(Step);
      }
    }

    /** A whole schedule, and the consumer's steps behind it. */
    method Complete(schedule: seq<Event>)
      requires Valid() && At(BEFORE) && outputTokens == [] && !generationFinished
      modifies this
      ensures Valid() && pc == Done && outputTokens == Said(schedule)
      ensures emitted == BEFORE.Along(schedule).taken
    {
      hide Valid, At, Said, Progress.Along;
      Run(schedule, BEFORE);
      FinishGeneration(BEFORE.Along(schedule));
      Join(BEFORE.Along(schedule).Next(Finish));
      assert [] + Said(schedule) == Said(schedule);
    }
  }

  /** Every interleaving: the buffer ends up with 320 samples for every token said, emitted once and in order, full
      chunks of 125 and then 100 tokens behind 25 tokens of context, the rest in one piece.  How many chunks were full
      is decided by the tokens and steps of the schedule. */
  method Synthesize<Sample(!new)>(detokenize: seq<int> -> seq<Sample>, schedule: seq<Event>)
    returns (samples: seq<Sample>, ghost stream: Stream<Sample>)
    requires forall tokens :: |detokenize(tokens)| == SAMPLES_PER_TOKEN * |tokens|
    ensures stream.Steady() && stream.detokenize == detokenize && Pos(stream.emitted) <= |Said(schedule)|
    ensures stream.emitted == BEFORE.Along(schedule).taken
    ensures samples == stream.Whole(Said(schedule), stream.emitted)
    ensures |samples| == SAMPLES_PER_TOKEN * |Said(schedule)|
  {
    var s := new Stream(detokenize);
    hide Stream.At, Said, Progress.Along;
    s.Complete(schedule);
    samples, stream := s.samples, s;
  }

  /** With two steps after every token the samples of every full chunk are there before the producer is done. */
  method SynthesizeEagerly<Sample(!new)>(detokenize: seq<int> -> seq<Sample>, ids: seq<int>)
    returns (samples: seq<Sample>, ghost stream: Stream<Sample>)
    requires forall tokens :: |detokenize(tokens)| == SAMPLES_PER_TOKEN * |tokens|
    ensures stream.Steady() && stream.detokenize == detokenize && |samples| == SAMPLES_PER_TOKEN * |ids|
    ensures Pos(stream.emitted) <= |ids| < Pos(stream.emitted + 1) && samples == stream.Whole(ids, stream.emitted)
  {
    EagerKeepsUp(ids);
    EagerSays(ids, []);
    assert Eager(ids) + [] == Eager(ids) && ids + [] == ids;
    samples, stream := Synthesize(detokenize, Eager(ids));
  }
}
