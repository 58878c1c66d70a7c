/** The Python tokenizer of converter/rwkv_src/rwkv_tokenizer.py: per byte pair a list of the
    longer tokens in reverse file order, scanned for the first that fits. */
module TableTokenizer {
  import opened Options
  import opened Vocabulary

  /** The last line, in file order, whose two or more bytes start `rest`, or -1. */
  function LastPrefix(v: seq<Entry>, rest: seq<byte>): (k: int)
    ensures -1 <= k < |v|
    ensures k >= 0 ==> |v[k].data| >= 2 && Prefixes(v[k], rest)
    ensures forall j :: k < j < |v| ==> !(|v[j].data| >= 2 && Prefixes(v[j], rest))
    decreases |v|
  {
    if v == [] then -1
    else
      var n := |v| - 1;
      if |v[n].data| >= 2 && Prefixes(v[n], rest) then n else LastPrefix(v[..n], rest)
  }

  /** The piece the table lookup takes from a non-empty rest. */
  function Piece(v: seq<Entry>, rest: seq<byte>): (p: seq<byte>)
    requires rest != []
    ensures p != [] && p <= rest
  {
    var k := LastPrefix(v, rest);
    if k >= 0 then v[k].data else rest[..1]
  }

  /** The id of the last line with these bytes: what `token2idx` ends up holding. */
  function IdOf(v: seq<Entry>, data: seq<byte>): Option<int>
    decreases |v|
  {
    if v == [] then None
    else if v[|v| - 1].data == data then Some(v[|v| - 1].id)
    else IdOf(v[..|v| - 1], data)
  }

  /** Table encoding; None where the Python code raises KeyError on a missing single byte. */
  function TableEncode(v: seq<Entry>, src: seq<byte>): Option<seq<int>>
    decreases |src|
  {
    if src == [] then Some([])
    else
      var p := Piece(v, src);
      match IdOf(v, p)
      case None => None
      case Some(id) =>
        match TableEncode(v, src[|p|..])
        case None => None
        case Some(ids) => Some([id] + ids)
  }

  /** Any proper prefix of an entry that has its own line, of two or more bytes, comes earlier. */
  ghost predicate PrefixesFirst(v: seq<Entry>) {
    forall i, j :: 0 <= i < |v| && 0 <= j < |v| && |v[i].data| >= 2 && v[i].data < v[j].data ==> i < j
  }

  lemma PieceIsLongest(v: seq<Entry>, rest: seq<byte>)
    requires DistinctData(v) && Complete(v) && PrefixesFirst(v) && rest != []
    ensures var k := Longest(v, rest);
      k >= 0 && v[k].data == Piece(v, rest) && IdOf(v, v[k].data) == Some(v[k].id)
  {
    SomethingMatches(v, rest);
    var k, l := Longest(v, rest), LastPrefix(v, rest);
    if l >= 0 {
      assert v[l].data == rest[..|v[l].data|] && v[k].data == rest[..|v[k].data|];
      assert k <= l && v[l].data <= v[k].data;
    } else {
      assert v[k].data == rest[..|v[k].data|];
    }
    IdOfLine(v, k);
  }

  lemma {:induction false} IdOfLine(v: seq<Entry>, k: nat)
    requires DistinctData(v) && k < |v|
    ensures IdOf(v, v[k].data) == Some(v[k].id)
    decreases |v|
  {
    if k < |v| - 1 { IdOfLine(v[..|v| - 1], k); }
  }

  lemma {:induction false} AgreeUnderOrder(v: seq<Entry>, src: seq<byte>)
    requires DistinctData(v) && Complete(v) && PrefixesFirst(v)
    ensures TableEncode(v, src) == Some(Encode(v, src))
    decreases |src|
  {
    if src != [] {
      PieceIsLongest(v, src);
      AgreeUnderOrder(v, src[|Piece(v, src)|..]);
    }
  }

  /** A longer token that sits before one of its own prefixes is never found by the table. */
  lemma OutOfOrderDisagrees(v: seq<Entry>, i: nat, j: nat)
    requires DistinctData(v) && DistinctIds(v) && Complete(v) && i < |v| && j < |v|
    requires |v[i].data| >= 2 && v[i].data < v[j].data && j <= i
    ensures TableEncode(v, v[j].data) != Some(Encode(v, v[j].data))
  {
    var text := v[j].data;
    var k, l := Longest(v, text), LastPrefix(v, text);
    assert Prefixes(v[j], text) && Prefixes(v[i], text);
    assert |v[k].data| == |text| && v[k].data == text;
    assert k == j && l >= i && l != j;
    IdOfLine(v, l);
    assert v[l].id != v[j].id;
    assert Encode(v, text)[0] == v[j].id;
  }

  /** The two tokenizers agree on every text exactly when the file lists prefixes first. */
  lemma EncodersAgree(v: seq<Entry>)
    requires DistinctData(v) && DistinctIds(v) && Complete(v)
    ensures (forall src :: TableEncode(v, src) == Some(Encode(v, src))) <==> PrefixesFirst(v)
  {
    if PrefixesFirst(v) {
      forall src ensures TableEncode(v, src) == Some(Encode(v, src)) { AgreeUnderOrder(v, src); }
    } else {
      var i, j :| 0 <= i < |v| && 0 <= j < |v| && |v[i].data| >= 2 && v[i].data < v[j].data && !(i < j);
      OutOfOrderDisagrees(v, i, j);
    }
  }

  /** The C++ tokenizer stores one more line, the end-of-text token; on text that does not contain
      it the two implementations give the same ids. */
  lemma TrieAndTableAgree(lines: seq<Entry>, eod: Entry, src: seq<byte>)
    requires DistinctData(lines) && Complete(lines) && PrefixesFirst(lines)
    requires forall i :: 0 <= i <= |src| ==> !Prefixes(eod, src[i..])
    ensures TableEncode(lines, src) == Some(Encode(lines + [eod], src))
  {
    AgreeUnderOrder(lines, src);
    EncodeWithout(lines, eod, src);
  }

  /** The list for one byte pair after the lines from `i` on were added in reverse file order. */
  function Row(v: seq<Entry>, i: nat, s0: byte, s1: byte): seq<seq<byte>>
    requires i <= |v|
    decreases |v| - i
  {
    if i == |v| then []
    else Row(v, i + 1, s0, s1) + if InRow(v[i], s0, s1) then [v[i].data] else []
  }

  lemma RowsFrom(v: seq<Entry>, i: nat)
    requires i < |v|
    ensures forall a: byte, b: byte :: RowOn(v, i, a, b)
  {
    forall a: byte, b: byte ensures RowOn(v, i, a, b) {
      assert Row(v, i + 1, a, b) + [] == Row(v, i + 1, a, b);
    }
  }

  /** What line `i` adds to a row. */
  ghost predicate RowOn(v: seq<Entry>, i: nat, a: byte, b: byte)
    requires i < |v|
  {
    Row(v, i, a, b) == if InRow(v[i], a, b) then Row(v, i + 1, a, b) + [v[i].data] else Row(v, i + 1, a, b)
  }

  predicate InRow(e: Entry, s0: byte, s1: byte) {
    |e.data| >= 2 && e.data[0] == s0 && e.data[1] == s1
  }

  /** The first element that starts `text`, if any. */
  function FirstFit(row: seq<seq<byte>>, text: seq<byte>): (r: Option<seq<byte>>)
    ensures r.Some? ==> r.value in row && r.value <= text
  {
    if row == [] then None
    else if row[0] <= text then Some(row[0])
    else FirstFit(row[1..], text)
  }

  lemma {:induction false} FirstFitSnoc(row: seq<seq<byte>>, x: seq<byte>, text: seq<byte>)
    ensures FirstFit(row + [x], text) ==
      if FirstFit(row, text).Some? then FirstFit(row, text) else if x <= text then Some(x) else None
  {
    if row != [] {
      assert (row + [x])[1..] == row[1..] + [x];
      FirstFitSnoc(row[1..], x, text);
    }
  }

  /** The scan of a row finds the last fitting line at or after `i`. */
  lemma {:induction false} RowFit(v: seq<Entry>, i: nat, rest: seq<byte>, text: seq<byte>)
    requires i <= |v| && |rest| >= 2 && text <= rest
    requires forall k :: 0 <= k < |v| && Candidate(v[k], rest) ==> v[k].data <= text
    ensures var f := FirstFit(Row(v, i, rest[0], rest[1]), text);
      && (f.None? ==> NoneFits(v, i, rest))
      && (f.Some? ==> exists k :: LastToFit(v, i, rest, k) && v[k].data == f.value)
    decreases |v| - i
  {
    if i < |v| {
      hide FirstFit;
      RowFit(v, i + 1, rest, text);
      var row := Row(v, i + 1, rest[0], rest[1]);
      FirstFitSnoc(row, v[i].data, text);
      var f := FirstFit(row, text);
      if f.Some? {
        var k :| LastToFit(v, i + 1, rest, k) && v[k].data == f.value;
        assert LastToFit(v, i, rest, k);
      } else {
        FitsHere(v, i, rest, text);
      }
      assert row + [] == row;
    } else {
      assert Row(v, i, rest[0], rest[1]) == [];
    }
  }

  predicate Candidate(e: Entry, rest: seq<byte>) { |e.data| >= 2 && Prefixes(e, rest) }

  ghost predicate NoneFits(v: seq<Entry>, i: nat, rest: seq<byte>) {
    forall k :: i <= k < |v| ==> !Candidate(v[k], rest)
  }

  ghost predicate LastToFit(v: seq<Entry>, i: nat, rest: seq<byte>, k: int) {
    i <= k < |v| && Candidate(v[k], rest) && NoneFits(v, k + 1, rest)
  }

  lemma FitsHere(v: seq<Entry>, i: nat, rest: seq<byte>, text: seq<byte>)
    requires i < |v| && |rest| >= 2 && text <= rest && NoneFits(v, i + 1, rest)
    requires Candidate(v[i], rest) ==> v[i].data <= text
    ensures InRow(v[i], rest[0], rest[1]) && v[i].data <= text ==> LastToFit(v, i, rest, i)
    ensures !(InRow(v[i], rest[0], rest[1]) && v[i].data <= text) ==> NoneFits(v, i, rest)
  {
  }

  /** Cutting the text to the longest length on record loses no candidate. */
  lemma PieceIsFit(v: seq<Entry>, rest: seq<byte>, text: seq<byte>)
    requires |rest| >= 2 && text <= rest
    requires forall k :: 0 <= k < |v| && Candidate(v[k], rest) ==> v[k].data <= text
    ensures Piece(v, rest) ==
      match FirstFit(Row(v, 0, rest[0], rest[1]), text) case None => rest[..1] case Some(s) => s
  {
    RowFit(v, 0, rest, text);
    var f, l := FirstFit(Row(v, 0, rest[0], rest[1]), text), LastPrefix(v, rest);
    if f.Some? {
      var k :| LastToFit(v, 0, rest, k) && v[k].data == f.value;
      assert k == l;
    }
  }

  /** A result with tokens already emitted in front. */
  function Prepend(tokens: seq<int>, r: Option<seq<int>>): Option<seq<int>> {
    match r case None => None case Some(rest) => Some(tokens + rest)
  }

  lemma PrependNil(tokens: seq<int>, r: Option<seq<int>>)
    ensures Prepend([], r) == r && Prepend(tokens, Some([])) == Some(tokens)
  {
    if r.Some? { assert [] + r.value == r.value; }
    assert tokens + [] == tokens;
  }

  lemma PrependSnoc(tokens: seq<int>, t: int, r: Option<seq<int>>)
    ensures Prepend(tokens + [t], r) == Prepend(tokens, Prepend([t], r))
  {
    if r.Some? { assert tokens + [t] + r.value == tokens + ([t] + r.value); }
  }

  /** One round of the encoding loop. */
  lemma TableStep(v: seq<Entry>, tokens: seq<int>, rest: seq<byte>, p: seq<byte>)
    requires rest != [] && p == Piece(v, rest)
    ensures Prepend(tokens, TableEncode(v, rest)) ==
      match IdOf(v, p) case None => None case Some(id) => Prepend(tokens + [id], TableEncode(v, rest[|p|..]))
  {
    var r := IdOf(v, p);
    if r.Some? {
      var tail := TableEncode(v, rest[|p|..]);
      PrependSnoc(tokens, r.value, tail);
      assert TableEncode(v, rest) == Prepend([r.value], tail);
    }
  }

  ghost predicate KnownId(v: seq<Entry>, id: int) {
    exists k :: 0 <= k < |v| && v[k].id == id
  }

  class RwkvTokenizer {
    var idx2token: map<int, seq<byte>>
    var token2idx: map<seq<byte>, int>
    const table: array2<seq<seq<byte>>>
    const good: array<set<byte>>
    const wlen: array<nat>
    ghost const vocab: seq<Entry>

    /** The tables hold the lines from `from` on. */
    ghost predicate Tabled(from: nat)
      requires from <= |vocab|
      reads table, good, wlen
    {
      && table.Length0 == 256 && table.Length1 == 256 && good.Length == 256 && wlen.Length == 256
      && (forall s0: byte, s1: byte :: table[s0, s1] == Row(vocab, from, s0, s1))
      && (forall s0: byte, s1: byte :: s1 in good[s0] <==> table[s0, s1] != [])
      && (forall k :: from <= k < |vocab| && |vocab[k].data| >= 2 ==> |vocab[k].data| <= wlen[vocab[k].data[0]])
    }

    /** The maps hold the first `k` lines. */
    ghost predicate Mapped(k: nat)
      requires k <= |vocab|
      reads this`idx2token, this`token2idx
    {
      && (forall d :: d in token2idx <==> IdOf(vocab[..k], d).Some?)
      && (forall d :: d in token2idx ==> IdOf(vocab[..k], d) == Some(token2idx[d]))
      && (forall j :: 0 <= j < k ==> vocab[j].id in idx2token && idx2token[vocab[j].id] == vocab[j].data)
      && (forall id :: id in idx2token ==> KnownId(vocab[..k], id))
    }

    ghost predicate Valid()
      reads this, table, good, wlen
    {
      Tabled(0) && Mapped(|vocab|)
    }

    /** Loading a parsed vocabulary file (converter/rwkv_src/rwkv_tokenizer.py:19-48). */
    constructor (lines: seq<Entry>)
      requires DistinctIds(lines)
      ensures Valid() && vocab == lines
    {
      vocab, idx2token, token2idx := lines, map[], map[];
      table := new seq<seq<byte>>[256, 256]((i, j) => []);
      good := new set<byte>[256](i => {});
      wlen := new nat[256](i => 0);
      new;
      FillMaps(lines);
      FillTables(lines);
    }

    method FillMaps(lines: seq<Entry>)
      requires lines == vocab && DistinctIds(vocab) && idx2token == map[] && token2idx == map[]
      modifies this`idx2token, this`token2idx
      ensures Mapped(|vocab|)
    {
      var k := 0;
      while k < |lines|
        invariant 0 <= k <= |lines| && Mapped(k)
      {
        assert vocab[..k + 1][..k] == vocab[..k];
        idx2token := idx2token[lines[k].id := lines[k].data];
        token2idx := token2idx[lines[k].data := lines[k].id];
        k := k + 1;
      }
      assert vocab[..k] == vocab;
    }

    /** The tables are filled last line first (converter/rwkv_src/rwkv_tokenizer.py:41-48). */
    method FillTables(lines: seq<Entry>)
      requires lines == vocab && Tabled(|vocab|)
      modifies table, good, wlen
      ensures Tabled(0)
    {
      var i := |lines|;
      while i > 0
        invariant 0 <= i <= |lines| && Tabled(i)
      {
        i := i - 1;
        FillLine(lines[i].data, i);
      }
    }

    /** The loop body: one line into the row of its first two bytes. */
    method FillLine(s: seq<byte>, ghost i: nat)
      requires i < |vocab| && s == vocab[i].data && Tabled(i + 1)
      modifies table, good, wlen
      ensures Tabled(i)
    {
      RowsFrom(vocab, i);
      hide Row;
      if |s| >= 2 {
        var s0, s1 := s[0], s[1];
        table[s0, s1] := table[s0, s1] + [s];
        wlen[s0] := if wlen[s0] >= |s| then wlen[s0] else |s|;
        good[s0] := good[s0] + {s1};
        assert forall b: byte :: b in good[s0] <==> b == s1 || old(b in good[s0]);
      }
    }

    /** converter/rwkv_src/rwkv_tokenizer.py:50-69; a missing single byte is a KeyError. */
    method EncodeBytes(src: seq<byte>) returns (r: Option<seq<int>>)
      requires Valid()
      ensures r == TableEncode(vocab, src)
    {
      var tokens: seq<int> := [];
      var i := 0;
      ghost var whole, rest := TableEncode(vocab, src), src;
      PrependNil([], whole);
      while i < |src|
        invariant 0 <= i <= |src| && rest == src[i..]
        invariant whole == Prepend(tokens, TableEncode(vocab, rest))
        decreases |src| - i
      {
        var s := NextPiece(src, i);
        TableStep(vocab, tokens, rest, s);
        var id := TokenId(s);
        if id == None { return None; }
        tokens := tokens + [id.value];
        i, rest := i + |s|, rest[|s|..];
      }
      PrependNil(tokens, None);
      return Some(tokens);
    }

    /** `self.token2idx[s]` (converter/rwkv_src/rwkv_tokenizer.py:66). */
    method TokenId(s: seq<byte>) returns (r: Option<int>)
      requires Mapped(|vocab|)
      ensures r == IdOf(vocab, s)
    {
      assert vocab[..|vocab|] == vocab;
      r := if s in token2idx then Some(token2idx[s]) else None;
    }

    /** The piece taken at position `i` (converter/rwkv_src/rwkv_tokenizer.py:55-65). */
    method NextPiece(src: seq<byte>, i: nat) returns (s: seq<byte>)
      requires Tabled(0) && i < |src|
      ensures s == Piece(vocab, src[i..])
    {
      s := src[i..i + 1];
      ghost var rest := src[i..];
      if i < |src| - 1 {
        var s1, s0 := src[i + 1], src[i];
        if s1 in good[s0] {
          var end := if i + wlen[s0] < |src| then i + wlen[s0] else |src|;
          var sss := src[i..end];
          var row := table[s0, s1];
          assert sss == rest[..end - i];
          PieceIsFit(vocab, rest, sss);
          var k := 0;
          while k < |row| && !(row[k] <= sss)
            invariant 0 <= k <= |row|
            invariant FirstFit(row, sss) == FirstFit(row[k..], sss)
          {
            k := k + 1;
          }
          if k < |row| { s := row[k]; }
        } else {
          PieceIsFit(vocab, rest, rest);
        }
      }
    }

    /** converter/rwkv_src/rwkv_tokenizer.py:71-72; an unknown id is a KeyError. */
    method DecodeBytes(tokens: seq<int>) returns (r: Option<seq<byte>>)
      requires Valid() && DistinctIds(vocab)
      ensures r.Some? <==> forall t :: t in tokens ==> KnownId(vocab, t)
      ensures r.Some? ==> r.value == Decode(vocab, tokens)
    {
      var bytes: seq<byte> := [];
      var k := 0;
      while k < |tokens|
        invariant 0 <= k <= |tokens| && bytes == Decode(vocab, tokens[..k])
        invariant forall t :: t in tokens[..k] ==> t in idx2token
      {
        assert vocab[..|vocab|] == vocab;
        if tokens[k] !in idx2token {
          assert tokens[k] in tokens && !KnownId(vocab, tokens[k]);
          return None;
        }
        assert tokens[..k + 1][..k] == tokens[..k];
        ghost var j :| 0 <= j < |vocab| && vocab[j].id == tokens[k];
        DataOfLine(vocab, j);
        bytes := bytes + idx2token[tokens[k]];
        k := k + 1;
      }
      assert tokens[..k] == tokens;
      return Some(bytes);
    }
  }
}
