/** Cutting a prompt into chunks for prefill: split at image tags, then at every "Assistant", then
    by length, each time through the tokenizer (src/runtime.cpp:548-659). */
module Chunking {
  import opened Recurrence
  import opened Vocabulary

  type Text = seq<byte>

  const ASSISTANT: Text := [65, 115, 115, 105, 115, 116, 97, 110, 116]  // "Assistant"

  datatype TokenChunk = TokenChunk(tokens: seq<int>, isImage: bool, imagePath: Text)

  predicate OccursAt(text: Text, pattern: Text, p: int) {
    0 <= p && p + |pattern| <= |text| && text[p..p + |pattern|] == pattern
  }

  /** `std::string::find`: the first occurrence at or after `from`, or -1. */
  function Find(text: Text, pattern: Text, from: nat): (p: int)
    ensures p == -1 || (p >= from && OccursAt(text, pattern, p))
    ensures forall q :: from <= q && (p == -1 || q < p) ==> !OccursAt(text, pattern, q)
    decreases |text| - from
  {
    if from + |pattern| > |text| then -1
    else if OccursAt(text, pattern, from) then from
    else Find(text, pattern, from + 1)
  }

  function StartTag(uid: Text): Text { [60] + uid + [62] }
  function EndTag(uid: Text): Text { [60, 47] + uid + [62] }

  /** All tokens of a list of chunks, in order. */
  function Tokens(chunks: seq<TokenChunk>): seq<int>
    decreases |chunks|
  {
    if chunks == [] then [] else Tokens(chunks[..|chunks| - 1]) + chunks[|chunks| - 1].tokens
  }

  lemma TokensSnoc(chunks: seq<TokenChunk>, c: TokenChunk)
    ensures Tokens(chunks + [c]) == Tokens(chunks) + c.tokens
  {
    assert (chunks + [c])[..|chunks|] == chunks;
  }

  lemma TokensNext(chunks: seq<TokenChunk>, k: nat)
    requires k < |chunks|
    ensures Tokens(chunks[..k + 1]) == Tokens(chunks[..k]) + chunks[k].tokens
  {
    assert chunks[..k + 1] == chunks[..k] + [chunks[k]];
    TokensSnoc(chunks[..k], chunks[k]);
  }

  /** The tokens of each chunk. */
  function Lists(chunks: seq<TokenChunk>): (lists: seq<seq<int>>)
    ensures |lists| == |chunks| && forall i :: 0 <= i < |chunks| ==> lists[i] == chunks[i].tokens
  {
    seq(|chunks|, i requires 0 <= i < |chunks| => chunks[i].tokens)
  }

  lemma ListsSnoc(chunks: seq<TokenChunk>, c: TokenChunk)
    ensures Lists(chunks + [c]) == Lists(chunks) + [c.tokens]
  {
  }

  lemma ListsFrom(chunks: seq<TokenChunk>, k: nat)
    requires k < |chunks|
    ensures Lists(chunks[k..]) == [chunks[k].tokens] + Lists(chunks[k + 1..])
  {
  }

  lemma NoTokens()
    ensures Tokens([]) == []
  {
  }

  /** Tokens cut by length. */
  function Pieces(tokens: seq<int>, max: nat): seq<seq<int>>
    requires max > 0
    decreases |tokens|
  {
    if tokens == [] then []
    else if |tokens| <= max then [tokens]
    else [tokens[..max]] + Pieces(tokens[max..], max)
  }

  lemma {:induction false} PiecesJoin(tokens: seq<int>, max: nat)
    requires max > 0
    ensures Join(Pieces(tokens, max)) == tokens
    decreases |tokens|
  {
    if |tokens| > max {
      PiecesJoin(tokens[max..], max);
      assert tokens == tokens[..max] + tokens[max..];
    } else if tokens != [] {
      assert Pieces(tokens, max)[1..] == [] && tokens + [] == tokens;
    }
  }

  /** A text cut at every mark, from `from` on. */
  function Parts(text: Text, mark: Text, from: nat): seq<Text>
    requires mark != [] && from <= |text|
    decreases |text| - from
  {
    var p := Find(text, mark, from);
    if p == -1 then (if from < |text| then [text[from..]] else [])
    else (if p > from then [text[from..p]] else []) + [mark] + Parts(text, mark, p + |mark|)
  }

  /** The parts by length, each mark carried into the part after it. */
  function Carried(v: seq<Entry>, mark: Text, max: nat, parts: seq<Text>, carry: seq<int>): seq<seq<int>>
    requires max > 0
    decreases |parts|
  {
    if parts == [] then (if carry == [] then [] else [carry])
    else if parts[0] == mark then Carried(v, mark, max, parts[1..], carry + Encode(v, mark))
    else Pieces(carry + Encode(v, parts[0]), max) + Carried(v, mark, max, parts[1..], [])
  }

  /** The tokens of the chunks of a text without image tags. */
  function TextPieces(v: seq<Entry>, text: Text, max: nat): seq<seq<int>>
    requires max > 0
  {
    Carried(v, ASSISTANT, max, Parts(text, ASSISTANT, 0), [])
  }

  function Concat(pieces: seq<Text>): Text
    decreases |pieces|
  {
    if pieces == [] then [] else Concat(pieces[..|pieces| - 1]) + pieces[|pieces| - 1]
  }

  lemma ConcatSnoc(pieces: seq<Text>, p: Text)
    ensures Concat(pieces + [p]) == Concat(pieces) + p
  {
    assert (pieces + [p])[..|pieces|] == pieces;
  }

  /** The encodings of the pieces, one after another. */
  function EncodeAll(v: seq<Entry>, pieces: seq<Text>): seq<int>
    decreases |pieces|
  {
    if pieces == [] then [] else EncodeAll(v, pieces[..|pieces| - 1]) + Encode(v, pieces[|pieces| - 1])
  }

  lemma EncodeAllSnoc(v: seq<Entry>, pieces: seq<Text>, p: Text)
    ensures EncodeAll(v, pieces + [p]) == EncodeAll(v, pieces) + Encode(v, p)
  {
    assert (pieces + [p])[..|pieces|] == pieces;
  }

  ghost predicate Lossless(v: seq<Entry>) { DistinctIds(v) && Complete(v) }

  /** Every id stands for some bytes. */
  ghost predicate Audible(v: seq<Entry>, ids: seq<int>) {
    forall i :: 0 <= i < |ids| ==> DataOf(v, ids[i]) != []
  }

  lemma {:induction false} EncodeAudible(v: seq<Entry>, text: Text)
    requires DistinctIds(v)
    ensures Audible(v, Encode(v, text))
    decreases |text|
  {
    var k := Longest(v, text);
    if k >= 0 {
      DataOfLine(v, k);
      EncodeAudible(v, text[|v[k].data|..]);
    }
  }

  /** Losing ids in front is losing text. */
  lemma SuffixSaysLess(v: seq<Entry>, lost: seq<int>, got: seq<int>)
    requires Audible(v, lost + got)
    ensures Decode(v, got) == Decode(v, lost + got) <==> lost == []
  {
    if lost == [] {
      assert [] + got == got;
    } else {
      assert (lost + got)[0] == lost[0] && lost == [lost[0]] + lost[1..];
      DecodeConcat(v, lost, got);
      DecodeConcat(v, [lost[0]], lost[1..]);
      DecodeOne(v, lost[0]);
    }
  }

  lemma {:induction false} DecodeEncodeAll(v: seq<Entry>, pieces: seq<Text>)
    requires Lossless(v)
    ensures Decode(v, EncodeAll(v, pieces)) == Concat(pieces)
    decreases |pieces|
  {
    if pieces != [] {
      var front, last := pieces[..|pieces| - 1], pieces[|pieces| - 1];
      DecodeEncodeAll(v, front);
      DecodeConcat(v, EncodeAll(v, front), Encode(v, last));
      DecodeEncode(v, last);
    }
  }

  /** No two neighbouring text chunks. */
  predicate Separated(chunks: seq<TokenChunk>) {
    forall i :: 0 <= i < |chunks| - 1 && !chunks[i].isImage ==> chunks[i + 1].isImage
  }

  lemma SeparatedThen(chunks: seq<TokenChunk>, c: TokenChunk)
    requires Separated(chunks) && (c.isImage || (chunks != [] ==> chunks[|chunks| - 1].isImage))
    ensures Separated(chunks + [c])
  {
  }

  /** A start tag, the path, and the first end tag after the start tag begins. */
  ghost predicate IsTag(start: Text, close: Text, piece: Text, path: Text) {
    && |close| <= |piece| && start <= piece && Find(piece, close, 0) == |piece| - |close|
    && (|start| + |close| <= |piece| ==> piece == start + path + close)
  }

  /** No start tag is followed by an end tag. */
  ghost predicate Untagged(start: Text, close: Text, text: Text) {
    var p := Find(text, start, 0);
    p == -1 || Find(text, close, p) == -1
  }

  /** The text and image chunks of a text are its pieces: an image chunk is a tag with its path; the next start tag
      after a text chunk is that of the image after it, or no tag is left. */
  ghost predicate Tagged(v: seq<Entry>, start: Text, close: Text, chunks: seq<TokenChunk>, pieces: seq<Text>) {
    && |chunks| == |pieces|
    && (forall i :: 0 <= i < |chunks| ==> chunks[i].tokens == Encode(v, pieces[i]))
    && (forall i :: 0 <= i < |chunks| && chunks[i].isImage ==> IsTag(start, close, pieces[i], chunks[i].imagePath))
    && (forall i :: 0 <= i < |chunks| && !chunks[i].isImage ==> chunks[i].imagePath == [] && pieces[i] != [])
    && (forall i :: 0 <= i < |chunks| - 1 && !chunks[i].isImage ==>
        Find(pieces[i] + pieces[i + 1], start, 0) == |pieces[i]|)
  }

  /** The first pass: cut out image tags (src/runtime.cpp:549-588). */
  method SplitImages(v: seq<Entry>, start: Text, close: Text, text: Text)
    returns (chunks: seq<TokenChunk>, ghost pieces: seq<Text>)
    requires 0 < |start| <= |close|
    ensures Concat(pieces) == text && Separated(chunks) && Tagged(v, start, close, chunks, pieces)
    ensures pieces != [] && !chunks[|chunks| - 1].isImage ==> Untagged(start, close, pieces[|pieces| - 1])
    ensures Find(text, start, 0) == -1 ==> NoImages(chunks)
  {
    hide Tagged, Untagged, Separated, Concat, NoImages, OccursAt;
    chunks, pieces := [], [];
    NothingCut(v, start, close);
    var remaining := text;
    while remaining != []
      invariant Concat(pieces) + remaining == text && Tagged(v, start, close, chunks, pieces) && |chunks| == |pieces|
      invariant Find(text, start, 0) == -1 ==> NoImages(chunks) && (remaining != [] ==> remaining == text)
      invariant Separated(chunks) && (remaining != [] && chunks != [] ==> chunks[|chunks| - 1].isImage)
      invariant chunks != [] && !chunks[|chunks| - 1].isImage ==> Untagged(start, close, pieces[|pieces| - 1])
      decreases |remaining|
    {
      var imageStart := Find(remaining, start, 0);
      if imageStart != -1 {
        var imageEnd := Find(remaining, close, imageStart);
        if imageEnd != -1 {
          chunks, pieces, remaining := CutImage(v, start, close, chunks, pieces, remaining, imageStart, imageEnd);
          continue;
        }
      }
      LeftUntagged(start, close, remaining);
      NoImagesThen(chunks, TokenChunk(Encode(v, remaining), false, []));
      chunks, pieces := AppendRest(v, start, close, chunks, pieces, remaining);
      remaining := [];
      break;
    }
  }

  lemma NothingCut(v: seq<Entry>, start: Text, close: Text)
    ensures Tagged(v, start, close, [], []) && Separated([]) && Concat([]) == [] && NoImages([])
  {
  }

  lemma LeftUntagged(start: Text, close: Text, text: Text)
    requires Find(text, start, 0) == -1 || Find(text, close, Find(text, start, 0)) == -1
    ensures Untagged(start, close, text)
  {
  }

  lemma NoImagesThen(chunks: seq<TokenChunk>, c: TokenChunk)
    requires !c.isImage
    ensures NoImages(chunks) ==> NoImages(chunks + [c])
  {
  }

  /** What is left after the last tag (src/runtime.cpp:582-587). */
  method AppendRest(v: seq<Entry>, start: Text, close: Text, chunks: seq<TokenChunk>, ghost pieces: seq<Text>,
                    text: Text) returns (out: seq<TokenChunk>, ghost outPieces: seq<Text>)
    requires Tagged(v, start, close, chunks, pieces) && Separated(chunks) && text != []
    requires chunks != [] ==> chunks[|chunks| - 1].isImage
    ensures Tagged(v, start, close, out, outPieces) && Separated(out) && Concat(outPieces) == Concat(pieces) + text
    ensures out == chunks + [TokenChunk(Encode(v, text), false, [])] && outPieces == pieces + [text]
  {
    var c := TokenChunk(Encode(v, text), false, []);
    SeparatedThen(chunks, c);
    ConcatSnoc(pieces, text);
    hide IsTag, Concat;
    out, outPieces := chunks + [c], pieces + [text];
  }

  /** One tag, with the text before it, moved to the chunks (src/runtime.cpp:560-577). */
  method CutImage(v: seq<Entry>, start: Text, close: Text, chunks: seq<TokenChunk>, ghost pieces: seq<Text>,
                  text: Text, imageStart: nat, imageEnd: nat)
    returns (out: seq<TokenChunk>, ghost outPieces: seq<Text>, rest: Text)
    requires 0 < |start| <= |close| && Tagged(v, start, close, chunks, pieces)
    requires Separated(chunks) && (chunks != [] ==> chunks[|chunks| - 1].isImage)
    requires imageStart == Find(text, start, 0) && imageEnd == Find(text, close, imageStart)
    ensures Concat(outPieces) + rest == Concat(pieces) + text && |rest| < |text|
    ensures Tagged(v, start, close, out, outPieces) && Separated(out) && |out| == |outPieces|
    ensures out != [] && out[|out| - 1].isImage
  {
    hide Concat, Encode, Separated, IsTag, OccursAt, Find;
    out, outPieces := chunks, pieces;
    var pathStart, tagEnd := imageStart + |start|, imageEnd + |close|;
    TagThere(start, close, text, imageStart, imageEnd);
    TagBehind(start, close, text, imageStart, imageEnd);
    if imageStart > 0 {
      out, outPieces := AppendRest(v, start, close, chunks, pieces, text[..imageStart]);
    }
    var path := if pathStart <= imageEnd then text[pathStart..imageEnd] else text[pathStart..];
    ghost var before, beforePieces := out, outPieces;
    var c := TokenChunk(Encode(v, text[imageStart..tagEnd]), true, path);
    out, outPieces := out + [c], outPieces + [text[imageStart..tagEnd]];
    TagNext(v, start, close, before, beforePieces, c, text[imageStart..tagEnd]);
    SeparatedThen(before, c);
    ConcatSnoc(beforePieces, text[imageStart..tagEnd]);
    rest := text[tagEnd..];
    Glue(Concat(pieces), text, imageStart, tagEnd);
  }

  /** The tag found in a text. */
  lemma TagThere(start: Text, close: Text, text: Text, a: nat, b: nat)
    requires 0 < |start| <= |close| && a == Find(text, start, 0) && b == Find(text, close, a)
    ensures a <= b && a + |start| <= |text| && b + |close| <= |text|
    ensures IsTag(start, close, text[a..b + |close|],
                  if a + |start| <= b then text[a + |start|..b] else text[a + |start|..])
  {
    hide Find, OccursAt, IsTag;
    FindsThere(text, start, 0);
    FindsThere(text, close, a);
    FindInside(text, close, a, b + |close|, b);
    var piece, end := text[a..b + |close|], a + |start|;
    SliceOf(text, a, b + |close|, 0, |start|);
    if end <= b {
      Between(start, close, text, a, b);
      TagOf(start, close, piece, text[end..b]);
    } else {
      TagOf(start, close, piece, text[end..]);
    }
  }

  lemma Between(start: Text, close: Text, text: Text, a: nat, b: nat)
    requires a + |start| <= b && b + |close| <= |text|
    requires text[a..a + |start|] == start && text[b..b + |close|] == close
    ensures text[a..b + |close|] == start + text[a + |start|..b] + close
  {
    Split3(text, a, a + |start|, b, b + |close|);
  }

  /** It is the first behind what comes before it. */
  lemma TagBehind(start: Text, close: Text, text: Text, a: nat, b: nat)
    requires 0 < |start| <= |close| && a == Find(text, start, 0) && b == Find(text, close, a)
    ensures a <= b && b + |close| <= |text| && Find(text[..a] + text[a..b + |close|], start, 0) == a
  {
    hide Find, OccursAt;
    FindsThere(text, close, a);
    TagInFront(start, text, a, b + |close|);
  }

  lemma TagInFront(start: Text, text: Text, a: nat, to: nat)
    requires a + |start| <= to <= |text| && a == Find(text, start, 0)
    ensures Find(text[..a] + text[a..to], start, 0) == a
  {
    hide Find, OccursAt;
    Join2(text, a, to);
    FindInFront(text, start, to, a);
  }

  lemma FindInFront(text: Text, pattern: Text, to: nat, p: nat)
    requires p + |pattern| <= to <= |text| && p == Find(text, pattern, 0)
    ensures Find(text[..to], pattern, 0) == p
  {
    FindInside(text, pattern, 0, to, p);
    hide Find, OccursAt;
    assert text[0..to] == text[..to];
  }

  lemma TagOf(start: Text, close: Text, piece: Text, path: Text)
    requires |start| <= |close| <= |piece| && piece[..|start|] == start && Find(piece, close, 0) == |piece| - |close|
    requires |start| + |close| <= |piece| ==> piece == start + path + close
    ensures IsTag(start, close, piece, path)
  {
  }

  lemma Join2(text: Text, a: nat, b: nat)
    requires a <= b <= |text|
    ensures text[..a] + text[a..b] == text[..b]
  {
  }

  lemma Split3(text: Text, a: nat, b: nat, c: nat, d: nat)
    requires a <= b <= c <= d <= |text|
    ensures text[a..d] == text[a..b] + text[b..c] + text[c..d]
  {
  }

  /** What is found in a text is found at the same place in a part that contains it. */
  lemma FindInside(text: Text, pattern: Text, from: nat, to: nat, p: nat)
    requires from <= p && p + |pattern| <= to <= |text| && p == Find(text, pattern, from)
    ensures Find(text[from..to], pattern, 0) == p - from
  {
    hide OccursAt;
    var part, r := text[from..to], p - from;
    OccursInside(text, pattern, from, to, r);
    forall q | 0 <= q < r ensures !OccursAt(part, pattern, q) {
      assert !OccursAt(text, pattern, from + q);
      OccursInside(text, pattern, from, to, q);
    }
  }

  lemma OccursInside(text: Text, pattern: Text, from: nat, to: nat, q: nat)
    requires from <= to <= |text| && from + q + |pattern| <= to
    ensures OccursAt(text[from..to], pattern, q) <==> OccursAt(text, pattern, from + q)
  {
    SliceOf(text, from, to, q, q + |pattern|);
  }

  lemma SliceOf(text: Text, from: nat, to: nat, a: nat, b: nat)
    requires from <= to <= |text| && a <= b <= to - from
    ensures text[from..to][a..b] == text[from + a..from + b]
  {
    var x, y := text[from..to][a..b], text[from + a..from + b];
    assert |x| == |y| && forall i :: 0 <= i < |x| ==> x[i] == text[from + a + i] == y[i];
  }

  lemma TagNext(v: seq<Entry>, start: Text, close: Text, chunks: seq<TokenChunk>, pieces: seq<Text>, c: TokenChunk,
                piece: Text)
    requires Tagged(v, start, close, chunks, pieces)
    requires c.isImage && c.tokens == Encode(v, piece) && IsTag(start, close, piece, c.imagePath)
    requires chunks != [] && !chunks[|chunks| - 1].isImage ==>
      Find(pieces[|pieces| - 1] + piece, start, 0) == |pieces[|pieces| - 1]|
    ensures Tagged(v, start, close, chunks + [c], pieces + [piece])
  {
    hide IsTag, Find, Encode;
  }

  lemma Glue(x: Text, text: Text, a: nat, b: nat)
    requires a <= b <= |text|
    ensures x + text[..a] + text[a..b] + text[b..] == x + text
    ensures a == 0 ==> x + text[a..b] + text[b..] == x + text
  {
    assert text == text[..a] + text[a..b] + text[b..];
    if a == 0 { assert x + text[..a] == x; }
  }

  /** The text of a chunk cut at every "Assistant" (src/runtime.cpp:601-623). */
  method SplitAt(text: Text, mark: Text) returns (parts: seq<Text>, marks: seq<bool>)
    requires mark != []
    ensures PartsOk(parts, marks, mark) && Concat(parts) == text && parts == Parts(text, mark, 0)
  {
    hide Concat, PartsOk, Parts;
    PartsNone(mark);
    parts, marks := [], [];
    var lastPos := 0;
    var pos := Find(text, mark, lastPos);
    while pos != -1
      invariant 0 <= lastPos <= |text| && pos == Find(text, mark, lastPos)
      invariant PartsOk(parts, marks, mark) && Concat(parts) == text[..lastPos]
      invariant parts + Parts(text, mark, lastPos) == Parts(text, mark, 0)
      decreases |text| - lastPos
    {
      parts, marks := PushNext(text, mark, parts, marks, lastPos);
      lastPos := pos + |mark|;
      pos := Find(text, mark, lastPos);
    }
    PartsNext(text, mark, lastPos);
    if lastPos < |text| {
      parts, marks := PushPlain(text, mark, parts, marks, lastPos, |text|);
    }
    assert text[..|text|] == text;
  }

  lemma PartsNone(mark: Text)
    ensures PartsOk([], [], mark) && Concat([]) == []
  {
  }

  lemma PartsNext(text: Text, mark: Text, from: nat)
    requires mark != [] && from <= |text|
    ensures var p := Find(text, mark, from);
      Parts(text, mark, from) ==
        if p == -1 then (if from < |text| then [text[from..]] else [])
        else
          (if p > from then [text[from..p]] else []) + [mark] + Parts(text, mark, p + |mark|)
  {
  }

  lemma SameAppended(a: seq<Text>, b: seq<Text>, c: seq<Text>, d: seq<Text>)
    ensures a + (b + c + d) == a + b + c + d
  {
  }

  ghost predicate PartsOk(parts: seq<Text>, marks: seq<bool>, mark: Text) {
    && |parts| == |marks|
    && (forall i :: 0 <= i < |parts| ==> parts[i] != [] && (marks[i] ==> parts[i] == mark))
    && (forall i :: 0 <= i < |parts| && !marks[i] ==> NoMark(parts[i], mark))
  }

  ghost predicate NoMark(part: Text, mark: Text) {
    forall p :: !OccursAt(part, mark, p)
  }

  method PushPlain(text: Text, mark: Text, parts: seq<Text>, marks: seq<bool>, a: nat, b: nat)
    returns (outParts: seq<Text>, outMarks: seq<bool>)
    requires mark != [] && a < b <= |text| && PartsOk(parts, marks, mark) && Concat(parts) == text[..a]
    requires forall q :: a <= q < b ==> !OccursAt(text, mark, q)
    ensures outParts == parts + [text[a..b]] && outMarks == marks + [false]
    ensures PartsOk(outParts, outMarks, mark) && Concat(outParts) == text[..b]
  {
    NoneInside(text, mark, a, b);
    ConcatSnoc(parts, text[a..b]);
    assert text[..a] + text[a..b] == text[..b];
    outParts, outMarks := parts + [text[a..b]], marks + [false];
  }

  /** The next mark, with the plain text before it. */
  method PushNext(text: Text, mark: Text, parts: seq<Text>, marks: seq<bool>, from: nat)
    returns (outParts: seq<Text>, outMarks: seq<bool>)
    requires mark != [] && from <= |text| && Find(text, mark, from) != -1
    requires PartsOk(parts, marks, mark) && Concat(parts) == text[..from]
    ensures var to := Find(text, mark, from) + |mark|;
      && to <= |text| && PartsOk(outParts, outMarks, mark) && Concat(outParts) == text[..to]
      && outParts + Parts(text, mark, to) == parts + Parts(text, mark, from)
  {
    hide Concat, PartsOk, Parts, OccursAt;
    var pos := Find(text, mark, from);
    FindsThere(text, mark, from);
    PartsNext(text, mark, from);
    outParts, outMarks := parts, marks;
    if pos > from {
      outParts, outMarks := PushPlain(text, mark, parts, marks, from, pos);
    }
    outParts, outMarks := PushMark(text, mark, outParts, outMarks, pos);
    SameAppended(parts, if pos > from then [text[from..pos]] else [], [mark], Parts(text, mark, pos + |mark|));
  }

  method PushMark(text: Text, mark: Text, parts: seq<Text>, marks: seq<bool>, a: nat)
    returns (outParts: seq<Text>, outMarks: seq<bool>)
    requires mark != [] && OccursAt(text, mark, a) && PartsOk(parts, marks, mark) && Concat(parts) == text[..a]
    ensures outParts == parts + [mark] && outMarks == marks + [true]
    ensures PartsOk(outParts, outMarks, mark) && Concat(outParts) == text[..a + |mark|]
  {
    ConcatSnoc(parts, mark);
    assert text[..a] + mark == text[..a + |mark|];
    outParts, outMarks := parts + [mark], marks + [true];
  }

  lemma SliceSlice(text: Text, a: nat, b: nat, p: nat, q: nat)
    requires a <= b <= |text| && p <= q <= b - a
    ensures text[a..b][p..q] == text[a + p..a + q]
  {
    var l, r := text[a..b][p..q], text[a + p..a + q];
    assert |l| == |r|;
    forall k | 0 <= k < q - p ensures l[k] == r[k] {
      assert l[k] == text[a..b][p + k];
    }
  }

  lemma NoneInside(text: Text, mark: Text, a: nat, b: nat)
    requires a <= b <= |text| && mark != []
    requires forall q :: a <= q < b ==> !OccursAt(text, mark, q)
    ensures NoMark(text[a..b], mark)
  {
    forall p ensures !OccursAt(text[a..b], mark, p) {
      if 0 <= p && p + |mark| <= b - a {
        assert a + p < b ==> !OccursAt(text, mark, a + p);
        SliceSlice(text, a, b, p, p + |mark|);
      }
    }
  }

  /** `t` repeated `n` times: what several marks in a row leave to carry. */
  function Copies(t: seq<int>, n: nat): seq<int> {
    if n == 0 then [] else Copies(t, n - 1) + t
  }

  ghost predicate IsRun(tokens: seq<int>, t: seq<int>) {
    exists n: nat :: tokens == Copies(t, n)
  }

  /** A text chunk is never empty, and too long only as a run of marks that nothing follows. */
  ghost predicate SizesOk(chunks: seq<TokenChunk>, max: nat, t: seq<int>) {
    forall i :: 0 <= i < |chunks| && !chunks[i].isImage ==> SizeOk(chunks, i, max, t)
  }

  lemma NoneEmpty(chunks: seq<TokenChunk>, max: nat, t: seq<int>)
    requires SizesOk(chunks, max, t)
    ensures forall i :: 0 <= i < |chunks| && !chunks[i].isImage ==> chunks[i].tokens != []
  {
  }

  ghost predicate SizeOk(chunks: seq<TokenChunk>, i: nat, max: nat, t: seq<int>)
    requires i < |chunks|
  {
    && chunks[i].tokens != []
    && (|chunks[i].tokens| > max ==> IsRun(chunks[i].tokens, t) && (i + 1 == |chunks| || chunks[i + 1].isImage))
  }

  /** Nothing keeps the next text chunk from being pushed. */
  ghost predicate Open(chunks: seq<TokenChunk>, max: nat) {
    chunks != [] ==> chunks[|chunks| - 1].isImage || |chunks[|chunks| - 1].tokens| <= max
  }

  /** Pieces of at most `max` tokens (src/runtime.cpp:643-649). */
  method SplitByLength(chunks: seq<TokenChunk>, tokens: seq<int>, max: nat, ghost t: seq<int>)
    returns (out: seq<TokenChunk>)
    requires max > 0 && SizesOk(chunks, max, t) && Open(chunks, max)
    ensures Tokens(out) == Tokens(chunks) + tokens && SizesOk(out, max, t) && Open(out, max)
    ensures NoNewImages(chunks, out) && Lists(out) == Lists(chunks) + Pieces(tokens, max)
  {
    hide Tokens, SizesOk, Open, NoNewImages, Cut, Lists, Pieces;
    out := chunks;
    CutStart(chunks, tokens, max, t);
    var j := 0;
    ghost var done := 0;
    while j < |tokens|
      invariant 0 <= done <= |tokens| && (done == j || (done == |tokens| && j >= |tokens|))
      invariant Cut(chunks, out, tokens, done, max, t)
    {
      var end := if j + max < |tokens| then j + max else |tokens|;
      var c := TokenChunk(tokens[j..end], false, []);
      CutNext(chunks, out, tokens, j, end, c, max, t);
      if c.tokens != [] { out := out + [c]; }
      j, done := j + max, end;
    }
    CutEnd(chunks, out, tokens, max, t);
  }

  lemma CutStart(chunks: seq<TokenChunk>, tokens: seq<int>, max: nat, t: seq<int>)
    requires SizesOk(chunks, max, t) && Open(chunks, max) && max > 0
    ensures Cut(chunks, chunks, tokens, 0, max, t)
  {
    assert tokens[0..] == tokens;
  }

  lemma CutEnd(chunks: seq<TokenChunk>, out: seq<TokenChunk>, tokens: seq<int>, max: nat, t: seq<int>)
    requires max > 0 && Cut(chunks, out, tokens, |tokens|, max, t)
    ensures Tokens(out) == Tokens(chunks) + tokens && SizesOk(out, max, t) && Open(out, max) && NoNewImages(chunks, out)
    ensures Lists(out) == Lists(chunks) + Pieces(tokens, max)
  {
    assert tokens[..|tokens|] == tokens && tokens[|tokens|..] == [];
  }

  /** The first `done` tokens have been pushed onto `chunks`. */
  ghost predicate Cut(chunks: seq<TokenChunk>, out: seq<TokenChunk>, tokens: seq<int>, done: nat, max: nat, t: seq<int>)
    requires done <= |tokens| && max > 0
  {
    && Tokens(out) == Tokens(chunks) + tokens[..done]
    && Lists(out) + Pieces(tokens[done..], max) == Lists(chunks) + Pieces(tokens, max)
    && SizesOk(out, max, t) && Open(out, max) && NoNewImages(chunks, out)
  }

  lemma CutNext(chunks: seq<TokenChunk>, out: seq<TokenChunk>, tokens: seq<int>, j: nat, end: nat, c: TokenChunk,
                max: nat, t: seq<int>)
    requires j < |tokens| && end == (if j + max < |tokens| then j + max else |tokens|) && max > 0
    requires c == TokenChunk(tokens[j..end], false, []) && Cut(chunks, out, tokens, j, max, t)
    ensures Cut(chunks, out + [c], tokens, end, max, t)
  {
    PushTokens(out, c, Tokens(chunks), tokens, j, end);
    PushKeepsSizes(out, c, max, t);
    PiecesFrom(tokens, j, end, max);
    ListsSnoc(out, c);
  }

  lemma NoPiece(max: nat)
    requires max > 0
    ensures Pieces([], max) == []
  {
  }

  lemma PiecesFrom(tokens: seq<int>, j: nat, end: nat, max: nat)
    requires j < |tokens| && end == (if j + max < |tokens| then j + max else |tokens|) && max > 0
    ensures Pieces(tokens[j..], max) == [tokens[j..end]] + Pieces(tokens[end..], max)
  {
    var rest := tokens[j..];
    if j + max < |tokens| {
      assert rest[..max] == tokens[j..end] && rest[max..] == tokens[end..];
    } else {
      assert tokens[j..end] == rest;
    }
  }

  lemma PushTokens(out: seq<TokenChunk>, c: TokenChunk, base: seq<int>, tokens: seq<int>, j: nat, end: nat)
    requires j <= end <= |tokens| && c.tokens == tokens[j..end] && Tokens(out) == base + tokens[..j]
    ensures Tokens(out + [c]) == base + tokens[..end]
  {
    TokensSnoc(out, c);
    assert tokens[..j] + tokens[j..end] == tokens[..end];
  }

  lemma PushKeepsSizes(chunks: seq<TokenChunk>, c: TokenChunk, max: nat, t: seq<int>)
    requires SizesOk(chunks, max, t) && (c.isImage || Open(chunks, max))
    requires c.isImage || (c.tokens != [] && (|c.tokens| > max ==> IsRun(c.tokens, t)))
    ensures SizesOk(chunks + [c], max, t)
    ensures c.isImage || |c.tokens| <= max ==> Open(chunks + [c], max)
  {
    var out := chunks + [c];
    forall i | 0 <= i < |out| && !out[i].isImage ensures SizeOk(out, i, max, t) {
      if i < |chunks| { assert out[i] == chunks[i] && SizeOk(chunks, i, max, t); }
    }
  }

  ghost predicate NoNewImages(before: seq<TokenChunk>, after: seq<TokenChunk>) {
    before <= after && forall i :: |before| <= i < |after| ==> !after[i].isImage
  }

  /** Half-way through a text chunk: `out` holds everything but the carried marks. */
  ghost predicate Carrying(chunks: seq<TokenChunk>, out: seq<TokenChunk>, carry: seq<int>, n: nat,
                           encoded: seq<int>, max: nat, t: seq<int>)
  {
    && carry == Copies(t, n)
    && Tokens(out) + carry == Tokens(chunks) + encoded
    && SizesOk(out, max, t) && Open(out, max) && NoNewImages(chunks, out)
  }

  lemma CarryStart(chunks: seq<TokenChunk>, max: nat, t: seq<int>)
    requires SizesOk(chunks, max, t) && Open(chunks, max)
    ensures Carrying(chunks, chunks, [], 0, [], max, t)
  {
  }

  lemma CarryMark(chunks: seq<TokenChunk>, out: seq<TokenChunk>, carry: seq<int>, n: nat,
                  encoded: seq<int>, max: nat, t: seq<int>)
    requires Carrying(chunks, out, carry, n, encoded, max, t)
    ensures Carrying(chunks, out, carry + t, n + 1, encoded + t, max, t)
  {
    hide Tokens, SizesOk, Open, NoNewImages;
    assert Tokens(out) + (carry + t) == Tokens(out) + carry + t;
    assert Tokens(chunks) + (encoded + t) == Tokens(chunks) + encoded + t;
  }

  lemma CarryText(chunks: seq<TokenChunk>, out: seq<TokenChunk>, carry: seq<int>, n: nat, encoded: seq<int>,
                  part: seq<int>, next: seq<TokenChunk>, max: nat, t: seq<int>)
    requires Carrying(chunks, out, carry, n, encoded, max, t)
    requires Tokens(next) == Tokens(out) + (carry + part)
    requires SizesOk(next, max, t) && Open(next, max) && NoNewImages(out, next)
    ensures Carrying(chunks, next, [], 0, encoded + part, max, t)
  {
    hide Tokens, SizesOk, Open;
    assert Tokens(next) + [] == Tokens(out) + carry + part;
    assert Tokens(chunks) + (encoded + part) == Tokens(chunks) + encoded + part;
  }

  lemma CarryEnd(chunks: seq<TokenChunk>, out: seq<TokenChunk>, carry: seq<int>, n: nat,
                 encoded: seq<int>, max: nat, t: seq<int>)
    requires Carrying(chunks, out, carry, n, encoded, max, t)
    ensures var end := if carry == [] then out else out + [TokenChunk(carry, false, [])];
      Tokens(end) == Tokens(chunks) + encoded && SizesOk(end, max, t) && NoNewImages(chunks, end)
  {
    if carry == [] {
      assert Tokens(out) + [] == Tokens(out);
    } else {
      var c := TokenChunk(carry, false, []);
      TokensSnoc(out, c);
      PushKeepsSizes(out, c, max, t);
    }
  }

  /** One text chunk cut again at the mark and by length; a mark travels with the text after it
      (src/runtime.cpp:597-655). */
  method Rechunk(v: seq<Entry>, mark: Text, max: nat, chunks: seq<TokenChunk>, tokens: seq<int>)
    returns (out: seq<TokenChunk>, ghost pieces: seq<Text>)
    requires max > 0 && mark != [] && SizesOk(chunks, max, Encode(v, mark)) && Open(chunks, max)
    ensures Tokens(out) == Tokens(chunks) + EncodeAll(v, pieces) && Concat(pieces) == Decode(v, tokens)
    ensures SizesOk(out, max, Encode(v, mark)) && NoNewImages(chunks, out)
    ensures Lists(out) == Lists(chunks) + Carried(v, mark, max, Parts(Decode(v, tokens), mark, 0), [])
  {
    var parts, marks := SplitAt(Decode(v, tokens), mark);
    pieces := parts;
    MarksAreMarks(parts, marks, mark);
    out := ChunkParts(v, mark, max, chunks, parts, marks);
  }

  lemma MarksAreMarks(parts: seq<Text>, marks: seq<bool>, mark: Text)
    requires PartsOk(parts, marks, mark)
    ensures forall i :: 0 <= i < |parts| ==> (marks[i] <==> parts[i] == mark)
  {
    forall i | 0 <= i < |parts| && parts[i] == mark ensures marks[i] {
      assert OccursAt(parts[i], mark, 0);
    }
  }

  method ChunkParts(v: seq<Entry>, mark: Text, max: nat, chunks: seq<TokenChunk>, parts: seq<Text>, marks: seq<bool>)
    returns (out: seq<TokenChunk>)
    requires max > 0 && SizesOk(chunks, max, Encode(v, mark)) && Open(chunks, max)
    requires |parts| == |marks| && forall i :: 0 <= i < |parts| ==> (marks[i] <==> parts[i] == mark)
    ensures Tokens(out) == Tokens(chunks) + EncodeAll(v, parts)
    ensures SizesOk(out, max, Encode(v, mark)) && NoNewImages(chunks, out)
    ensures Lists(out) == Lists(chunks) + Carried(v, mark, max, parts, [])
  {
    hide Tokens, Encode, SizesOk, Open, NoNewImages, Lists, Carried, Pieces;
    out := chunks;
    var carry: seq<int> := [];
    ghost var t, n, encoded: seq<int> := Encode(v, mark), 0, [];
    CarryStart(chunks, max, t);
    var i := 0;
    while i < |parts|
      invariant 0 <= i <= |parts| && encoded == EncodeAll(v, parts[..i])
      invariant Carrying(chunks, out, carry, n, encoded, max, t)
      invariant Lists(out) + Carried(v, mark, max, parts[i..], carry) ==
        Lists(chunks) + Carried(v, mark, max, parts, [])
    {
      CarriedFrom(v, mark, max, parts, i, carry);
      EncodeAllSnoc(v, parts[..i], parts[i]);
      assert parts[..i + 1] == parts[..i] + [parts[i]];
      var partTokens := Encode(v, parts[i]);
      if marks[i] {
        CarryMark(chunks, out, carry, n, encoded, max, t);
        carry, n := carry + partTokens, n + 1;
      } else {
        var next := SplitByLength(out, carry + partTokens, max, t);
        CarryText(chunks, out, carry, n, encoded, partTokens, next, max, t);
        out, carry, n := next, [], 0;
      }
      encoded := encoded + partTokens;
      i := i + 1;
    }
    assert parts[..i] == parts;
    CarryEnd(chunks, out, carry, n, encoded, max, t);
    CarriedEnd(v, mark, max, parts, carry);
    if carry != [] {
      ListsSnoc(out, TokenChunk(carry, false, []));
      out := out + [TokenChunk(carry, false, [])];
    }
  }

  lemma CarriedFrom(v: seq<Entry>, mark: Text, max: nat, parts: seq<Text>, i: nat, carry: seq<int>)
    requires i < |parts| && max > 0
    ensures Carried(v, mark, max, parts[i..], carry) ==
      if parts[i] == mark then Carried(v, mark, max, parts[i + 1..], carry + Encode(v, mark))
      else Pieces(carry + Encode(v, parts[i]), max) + Carried(v, mark, max, parts[i + 1..], [])
  {
    assert parts[i..][1..] == parts[i + 1..];
  }

  lemma CarriedEnd(v: seq<Entry>, mark: Text, max: nat, parts: seq<Text>, carry: seq<int>)
    requires max > 0
    ensures Carried(v, mark, max, parts[|parts|..], carry) == if carry == [] then [] else [carry]
  {
  }

  /** Between two chunks of the first pass. */
  ghost predicate Rechunked(v: seq<Entry>, chunks: seq<TokenChunk>, k: nat, final: seq<TokenChunk>, max: nat,
                            t: seq<int>)
    requires k <= |chunks| && max > 0
  {
    && (Lossless(v) ==> Decode(v, Tokens(final)) == Decode(v, Tokens(chunks[..k])))
    && SizesOk(final, max, t)
    && (k == 0 ==> final == [])
    && (k > 0 && chunks[k - 1].isImage ==> final != [] && final[|final| - 1].isImage)
    && (NoImages(chunks) ==> NoImages(final))
    && Images(final) == Images(chunks[..k]) && Lists(final) == AllPieces(v, chunks[..k], max)
  }

  /** The image chunks among others. */
  function Images(chunks: seq<TokenChunk>): seq<TokenChunk>
    decreases |chunks|
  {
    if chunks == [] then []
    else
      var c := chunks[|chunks| - 1];
      Images(chunks[..|chunks| - 1]) + if c.isImage then [c] else []
  }

  lemma ImagesSnoc(chunks: seq<TokenChunk>, c: TokenChunk)
    ensures Images(chunks + [c]) == Images(chunks) + if c.isImage then [c] else []
  {
    assert (chunks + [c])[..|chunks|] == chunks;
  }

  lemma {:induction false} ImagesStay(before: seq<TokenChunk>, after: seq<TokenChunk>)
    requires NoNewImages(before, after)
    ensures Images(after) == Images(before)
    decreases |after|
  {
    if |after| > |before| {
      ImagesStay(before, after[..|after| - 1]);
    } else {
      assert after == before;
    }
  }

  /** Image chunks as they are, text chunks cut up, in order. */
  function AllPieces(v: seq<Entry>, chunks: seq<TokenChunk>, max: nat): seq<seq<int>>
    requires max > 0
    decreases |chunks|
  {
    if chunks == [] then []
    else
      var c := chunks[|chunks| - 1];
      AllPieces(v, chunks[..|chunks| - 1], max) +
        if c.isImage then [c.tokens] else TextPieces(v, Decode(v, c.tokens), max)
  }

  lemma AllPiecesSnoc(v: seq<Entry>, chunks: seq<TokenChunk>, c: TokenChunk, max: nat)
    requires max > 0
    ensures AllPieces(v, chunks + [c], max) == AllPieces(v, chunks, max) +
      if c.isImage then [c.tokens] else TextPieces(v, Decode(v, c.tokens), max)
  {
    assert (chunks + [c])[..|chunks|] == chunks;
  }

  ghost predicate NoImages(chunks: seq<TokenChunk>) {
    forall i :: 0 <= i < |chunks| ==> !chunks[i].isImage
  }

  lemma RechunkedText(v: seq<Entry>, chunks: seq<TokenChunk>, k: nat, final: seq<TokenChunk>, next: seq<TokenChunk>,
                      pieces: seq<Text>, max: nat, t: seq<int>)
    requires max > 0 && k < |chunks| && !chunks[k].isImage && Rechunked(v, chunks, k, final, max, t)
    requires Tokens(next) == Tokens(final) + EncodeAll(v, pieces) && Concat(pieces) == Decode(v, chunks[k].tokens)
    requires SizesOk(next, max, t) && NoNewImages(final, next)
    requires Lists(next) == Lists(final) + TextPieces(v, Decode(v, chunks[k].tokens), max)
    ensures Rechunked(v, chunks, k + 1, next, max, t)
  {
    hide Images, AllPieces, TextPieces, Lists, Tokens, Decode, EncodeAll, Lossless, SizesOk, Concat;
    var c := chunks[k];
    ImagesStay(final, next);
    ImagesSnoc(chunks[..k], c);
    AllPiecesSnoc(v, chunks[..k], c, max);
    assert chunks[..k + 1] == chunks[..k] + [c];
    TokensSnoc(chunks[..k], c);
    DecodeConcat(v, Tokens(chunks[..k]), c.tokens);
    if Lossless(v) {
      DecodeConcat(v, Tokens(final), EncodeAll(v, pieces));
      DecodeEncodeAll(v, pieces);
    }
  }

  lemma RechunkedStart(v: seq<Entry>, chunks: seq<TokenChunk>, max: nat, t: seq<int>)
    requires max > 0
    ensures Rechunked(v, chunks, 0, [], max, t)
  {
    assert chunks[..0] == [];
  }

  lemma RechunkedEnd(v: seq<Entry>, chunks: seq<TokenChunk>, final: seq<TokenChunk>, max: nat, t: seq<int>)
    requires max > 0 && Rechunked(v, chunks, |chunks|, final, max, t)
    ensures Lossless(v) ==> Decode(v, Tokens(final)) == Decode(v, Tokens(chunks))
    ensures SizesOk(final, max, t) && (NoImages(chunks) ==> NoImages(final))
    ensures Images(final) == Images(chunks) && Lists(final) == AllPieces(v, chunks, max)
  {
    assert chunks[..|chunks|] == chunks;
  }

  /** A text chunk follows an image or comes first, so nothing stops it being pushed. */
  lemma ReadyForText(v: seq<Entry>, chunks: seq<TokenChunk>, k: nat, final: seq<TokenChunk>, max: nat, t: seq<int>)
    requires max > 0 && k < |chunks| && !chunks[k].isImage && Separated(chunks)
    requires Rechunked(v, chunks, k, final, max, t)
    ensures SizesOk(final, max, t) && Open(final, max)
  {
  }

  lemma RechunkedEmpty(v: seq<Entry>, chunks: seq<TokenChunk>, k: nat, final: seq<TokenChunk>, max: nat, t: seq<int>)
    requires max > 0 && k < |chunks| && !chunks[k].isImage && chunks[k].tokens == []
    requires Rechunked(v, chunks, k, final, max, t)
    ensures Rechunked(v, chunks, k + 1, final, max, t)
  {
    TokensNext(chunks, k);
    assert Tokens(chunks[..k]) + [] == Tokens(chunks[..k]);
    assert chunks[..k + 1] == chunks[..k] + [chunks[k]];
    ImagesSnoc(chunks[..k], chunks[k]);
    AllPiecesSnoc(v, chunks[..k], chunks[k], max);
    NoPieces(v, max);
  }

  lemma RechunkedImage(v: seq<Entry>, chunks: seq<TokenChunk>, k: nat, final: seq<TokenChunk>, max: nat, t: seq<int>)
    requires max > 0 && k < |chunks| && chunks[k].isImage && Rechunked(v, chunks, k, final, max, t)
    ensures Rechunked(v, chunks, k + 1, final + [chunks[k]], max, t)
  {
    var c := chunks[k];
    assert chunks[..k + 1] == chunks[..k] + [c];
    TokensSnoc(chunks[..k], c);
    TokensSnoc(final, c);
    DecodeConcat(v, Tokens(chunks[..k]), c.tokens);
    DecodeConcat(v, Tokens(final), c.tokens);
    PushKeepsSizes(final, c, max, t);
    ImagesSnoc(chunks[..k], c);
    ImagesSnoc(final, c);
    AllPiecesSnoc(v, chunks[..k], c, max);
    ListsSnoc(final, c);
    hide Images, AllPieces, TextPieces, Lists;
  }

  lemma {:induction false} PartsJoin(text: Text, mark: Text, from: nat)
    requires mark != [] && from <= |text|
    ensures Join(Parts(text, mark, from)) == text[from..]
    decreases |text| - from
  {
    hide Find, OccursAt, Parts;
    PartsNext(text, mark, from);
    var p := Find(text, mark, from);
    if p == -1 {
      JoinOne(text[from..]);
    } else {
      FindsThere(text, mark, from);
      PartsJoin(text, mark, p + |mark|);
      var rest := Parts(text, mark, p + |mark|);
      JoinConcat((if p > from then [text[from..p]] else []) + [mark], rest);
      JoinConcat(if p > from then [text[from..p]] else [], [mark]);
      JoinOne(text[from..p]);
      JoinOne(mark);
      assert text[from..] == text[from..p] + text[p..p + |mark|] + text[p + |mark|..];
    }
  }

  lemma FindsThere(text: Text, mark: Text, from: nat)
    requires Find(text, mark, from) != -1
    ensures var p := Find(text, mark, from); from <= p && p + |mark| <= |text| && text[p..p + |mark|] == mark
  {
  }

  /** Carrying marks and cutting by length leaves the ids of the parts, in order. */
  lemma {:induction false} CarriedJoin(v: seq<Entry>, mark: Text, max: nat, parts: seq<Text>, carry: seq<int>)
    requires max > 0 && Lossless(v) && Audible(v, carry)
    ensures var ids := Join(Carried(v, mark, max, parts, carry));
      Audible(v, ids) && Decode(v, ids) == Decode(v, carry) + Join(parts)
    decreases |parts|
  {
    hide Encode, Decode, Lossless, Pieces, Carried;
    CarriedAt(v, mark, max, parts, carry);
    if parts == [] {
      JoinOne(carry);
      NothingSaid(v, carry);
    } else {
      EncodeSays(v, parts[0]);
      var ids := carry + Encode(v, parts[0]);
      DecodeConcat(v, carry, Encode(v, parts[0]));
      assert Decode(v, carry) + Join(parts) == Decode(v, ids) + Join(parts[1..]);
      hide Join, Audible;
      if parts[0] == mark {
        CarriedJoin(v, mark, max, parts[1..], ids);
      } else {
        var rest := Carried(v, mark, max, parts[1..], []);
        CarriedJoin(v, mark, max, parts[1..], []);
        NothingSaid(v, carry);
        CutJoin(v, max, ids, rest);
      }
    }
  }

  lemma CarriedAt(v: seq<Entry>, mark: Text, max: nat, parts: seq<Text>, carry: seq<int>)
    requires max > 0
    ensures Carried(v, mark, max, parts, carry) ==
      if parts == [] then if carry == [] then [] else [carry]
      else
        var ids := carry + Encode(v, parts[0]);
        if parts[0] == mark then Carried(v, mark, max, parts[1..], ids)
        else Pieces(ids, max) + Carried(v, mark, max, parts[1..], [])
  {
  }

  lemma CutJoin(v: seq<Entry>, max: nat, ids: seq<int>, rest: seq<seq<int>>)
    requires max > 0 && Audible(v, ids) && Audible(v, Join(rest))
    ensures var all := Join(Pieces(ids, max) + rest);
      Audible(v, all) && Decode(v, all) == Decode(v, ids) + Decode(v, Join(rest))
  {
    hide Decode, Pieces;
    PiecesJoin(ids, max);
    JoinConcat(Pieces(ids, max), rest);
    DecodeConcat(v, ids, Join(rest));
  }

  lemma EncodeSays(v: seq<Entry>, text: Text)
    requires Lossless(v)
    ensures Audible(v, Encode(v, text)) && Decode(v, Encode(v, text)) == text
  {
    EncodeAudible(v, text);
    DecodeEncode(v, text);
  }

  lemma NothingSaid(v: seq<Entry>, carry: seq<int>)
    ensures Decode(v, []) == [] && (carry == [] ==> Decode(v, carry) == [])
  {
  }

  /** The pieces of a text, joined, decode to it. */
  lemma TextPiecesSay(v: seq<Entry>, text: Text, max: nat)
    requires max > 0 && Lossless(v)
    ensures var ids := Join(TextPieces(v, text, max)); Audible(v, ids) && Decode(v, ids) == text
  {
    hide Parts, Carried, Decode, Lossless;
    PartsJoin(text, ASSISTANT, 0);
    CarriedJoin(v, ASSISTANT, max, Parts(text, ASSISTANT, 0), []);
    NothingSaid(v, []);
    assert text[0..] == text;
  }

  lemma EncodedEmpty(v: seq<Entry>, text: Text)
    requires Lossless(v)
    ensures Encode(v, text) == [] <==> text == []
  {
    if text != [] { EncodeNonEmpty(v, text); }
  }

  lemma NoPieces(v: seq<Entry>, max: nat)
    requires max > 0
    ensures TextPieces(v, [], max) == []
  {
  }

  /** The whole of src/runtime.cpp:548-659.  `firsts` are the text and image chunks of the first pass. */
  method SplitTextByImageAndTokenNum(v: seq<Entry>, uid: Text, text: Text, max: nat)
    returns (final: seq<TokenChunk>, ghost firsts: seq<TokenChunk>, ghost pieces: seq<Text>)
    requires max > 0
    // every tag becomes an image chunk with its path, in order, and every text between them its pieces
    ensures Tagged(v, StartTag(uid), EndTag(uid), firsts, pieces) && Concat(pieces) == text
    ensures pieces != [] && !firsts[|firsts| - 1].isImage ==>
      Untagged(StartTag(uid), EndTag(uid), pieces[|pieces| - 1])
    ensures Images(final) == Images(firsts) && Lists(final) == AllPieces(v, firsts, max)
    ensures Lossless(v) ==> Decode(v, Tokens(final)) == text
    ensures SizesOk(final, max, Encode(v, ASSISTANT))
    ensures Find(text, StartTag(uid), 0) == -1 ==> NoImages(final)
    ensures Find(text, StartTag(uid), 0) == -1 && Lossless(v) ==> Lists(final) == TextPieces(v, text, max)
  {
    hide Rechunked, Tokens, Encode, Decode, SizesOk, Open, NoNewImages, Lossless, Tagged, Untagged, Concat, Images;
    hide AllPieces, TextPieces, Lists, Separated, NoImages;
    var chunks;
    chunks, pieces := SplitImages(v, StartTag(uid), EndTag(uid), text);
    firsts, final := chunks, [];
    ghost var t := Encode(v, ASSISTANT);
    RechunkedStart(v, chunks, max, t);
    for k := 0 to |chunks|
      invariant Rechunked(v, chunks, k, final, max, t)
    {
      var c := chunks[k];
      if c.isImage {
        RechunkedImage(v, chunks, k, final, max, t);
        final := final + [c];
      } else if c.tokens != [] {
        ghost var ps;
        var next;
        ReadyForText(v, chunks, k, final, max, t);
        next, ps := Rechunk(v, ASSISTANT, max, final, c.tokens);
        PiecesAre(v, c.tokens, max);
        RechunkedText(v, chunks, k, final, next, ps, max, t);
        final := next;
      } else {
        RechunkedEmpty(v, chunks, k, final, max, t);
      }
    }
    RechunkedEnd(v, chunks, final, max, t);
    TaggedTokens(v, StartTag(uid), EndTag(uid), chunks, pieces);
    if Lossless(v) { DecodeEncodeAll(v, pieces); }
    if Find(text, StartTag(uid), 0) == -1 && Lossless(v) {
      JustText(v, StartTag(uid), EndTag(uid), chunks, pieces, text, max);
    }
  }

  lemma PiecesAre(v: seq<Entry>, tokens: seq<int>, max: nat)
    requires max > 0
    ensures TextPieces(v, Decode(v, tokens), max) ==
      Carried(v, ASSISTANT, max, Parts(Decode(v, tokens), ASSISTANT, 0), [])
  {
  }

  /** The tokens of the first pass are those of its pieces. */
  lemma {:induction false} TaggedTokens(v: seq<Entry>, start: Text, close: Text, chunks: seq<TokenChunk>,
                                        pieces: seq<Text>)
    requires Tagged(v, start, close, chunks, pieces)
    ensures Tokens(chunks) == EncodeAll(v, pieces)
    decreases |chunks|
  {
    hide IsTag, Encode, Find;
    if chunks != [] {
      var n := |chunks| - 1;
      TaggedTokens(v, start, close, chunks[..n], pieces[..n]);
      EncodeAllSnoc(v, pieces[..n], pieces[n]);
      assert pieces == pieces[..n] + [pieces[n]];
    }
  }

  /** Without a tag there is one text chunk at most. */
  lemma JustText(v: seq<Entry>, start: Text, close: Text, chunks: seq<TokenChunk>, pieces: seq<Text>, text: Text,
                 max: nat)
    requires max > 0 && Tagged(v, start, close, chunks, pieces) && Separated(chunks) && NoImages(chunks)
    requires Concat(pieces) == text && Lossless(v)
    ensures AllPieces(v, chunks, max) == TextPieces(v, text, max)
  {
    if chunks == [] {
      NoPieces(v, max);
    } else {
      assert |chunks| == 1;
      AllPiecesSnoc(v, [], chunks[0], max);
      assert chunks == [] + [chunks[0]];
      ConcatSnoc([], pieces[0]);
      assert pieces == [] + [pieces[0]] && [] + pieces[0] == pieces[0];
      DecodeEncode(v, text);
    }
  }
}
