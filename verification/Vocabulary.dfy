/** What a tokenizer of this repository is for: a vocabulary file read line by line, greedy
    longest-match encoding, and decoding by concatenation. */
module Vocabulary {

  newtype byte = b: int | 0 <= b < 256

  /** One line of a vocabulary file: a token id and the bytes it stands for. */
  datatype Entry = Entry(id: int, data: seq<byte>)

  predicate DistinctData(v: seq<Entry>) {
    forall i, j :: 0 <= i < j < |v| ==> v[i].data != v[j].data
  }

  predicate DistinctIds(v: seq<Entry>) {
    forall i, j :: 0 <= i < j < |v| ==> v[i].id != v[j].id
  }

  /** Every single byte is a token. */
  ghost predicate Complete(v: seq<Entry>) {
    forall b: byte :: HasByte(v, b)
  }

  ghost predicate HasByte(v: seq<Entry>, b: byte) {
    exists k :: 0 <= k < |v| && v[k].data == [b]
  }

  predicate Prefixes(e: Entry, rest: seq<byte>) {
    e.data != [] && e.data <= rest
  }

  /** The line of the longest non-empty entry that starts `rest`, or -1. */
  function Longest(v: seq<Entry>, rest: seq<byte>): (k: int)
    ensures -1 <= k < |v|
    ensures k >= 0 ==> Prefixes(v[k], rest)
    ensures forall j :: 0 <= j < |v| && Prefixes(v[j], rest) ==> k >= 0 && |v[j].data| <= |v[k].data|
    decreases |v|
  {
    if v == [] then -1
    else
      var n := |v| - 1;
      var k := Longest(v[..n], rest);
      if Prefixes(v[n], rest) && (k < 0 || |v[k].data| < |v[n].data|) then n else k
  }

  /** Greedy longest-match encoding; it stops where no entry fits. */
  function Encode(v: seq<Entry>, src: seq<byte>): seq<int>
    decreases |src|
  {
    var k := Longest(v, src);
    if k < 0 then [] else [v[k].id] + Encode(v, src[|v[k].data|..])
  }

  /** The bytes of a token id, empty for an unknown one. */
  function DataOf(v: seq<Entry>, id: int): seq<byte>
    decreases |v|
  {
    if v == [] then []
    else if v[|v| - 1].id == id then v[|v| - 1].data else DataOf(v[..|v| - 1], id)
  }

  function Decode(v: seq<Entry>, ids: seq<int>): seq<byte>
    decreases |ids|
  {
    if ids == [] then [] else Decode(v, ids[..|ids| - 1]) + DataOf(v, ids[|ids| - 1])
  }

  lemma {:induction false} DataOfLine(v: seq<Entry>, k: nat)
    requires k < |v| && DistinctIds(v)
    ensures DataOf(v, v[k].id) == v[k].data
    decreases |v|
  {
    var n := |v| - 1;
    if k < n {
      assert v[..n][k] == v[k] && v[k].id != v[n].id;
      DataOfLine(v[..n], k);
    }
  }

  lemma {:induction false} DataOfUnknown(v: seq<Entry>, id: int)
    requires forall k :: 0 <= k < |v| ==> v[k].id != id
    ensures DataOf(v, id) == []
    decreases |v|
  {
    if v != [] { DataOfUnknown(v[..|v| - 1], id); }
  }

  lemma {:induction false} DecodeConcat(v: seq<Entry>, a: seq<int>, b: seq<int>)
    ensures Decode(v, a + b) == Decode(v, a) + Decode(v, b)
    decreases |b|
  {
    if b == [] {
      assert a + b == a;
    } else {
      assert (a + b)[..|a + b| - 1] == a + b[..|b| - 1];
      DecodeConcat(v, a, b[..|b| - 1]);
    }
  }

  /** Decoding an encoding gives back a prefix of the text. */
  lemma {:induction false} DecodeEncodePrefix(v: seq<Entry>, src: seq<byte>)
    requires DistinctIds(v)
    ensures Decode(v, Encode(v, src)) <= src
    decreases |src|
  {
    var k := Longest(v, src);
    if k >= 0 {
      DecodeEncodePrefix(v, src[|v[k].data|..]);
      DecodeStep(v, src);
    }
  }

  lemma DecodeStep(v: seq<Entry>, src: seq<byte>)
    requires DistinctIds(v) && Longest(v, src) >= 0
    ensures var d := v[Longest(v, src)].data;
      && Decode(v, Encode(v, src)) == d + Decode(v, Encode(v, src[|d|..]))
      && src == d + src[|d|..]
  {
    var k := Longest(v, src);
    DecodeConcat(v, [v[k].id], Encode(v, src[|v[k].data|..]));
    DataOfLine(v, k);
    DecodeOne(v, v[k].id);
  }

  lemma SomethingMatches(v: seq<Entry>, src: seq<byte>)
    requires Complete(v) && src != []
    ensures Longest(v, src) >= 0
  {
    assert HasByte(v, src[0]);
    var j :| 0 <= j < |v| && v[j].data == [src[0]];
    assert Prefixes(v[j], src);
  }

  lemma DecodeOne(v: seq<Entry>, id: int)
    ensures Decode(v, [id]) == DataOf(v, id)
  {
    assert [id][..0] == [];
    assert Decode(v, []) == [];
  }

  /** With every single byte in the vocabulary nothing is lost. */
  lemma {:induction false} DecodeEncode(v: seq<Entry>, src: seq<byte>)
    requires DistinctIds(v) && Complete(v)
    ensures Decode(v, Encode(v, src)) == src
    decreases |src|
  {
    if src != [] {
      SomethingMatches(v, src);
      DecodeEncode(v, src[|v[Longest(v, src)].data|..]);
      DecodeStep(v, src);
    }
  }

  /** A complete vocabulary encodes no non-empty text to nothing. */
  lemma EncodeNonEmpty(v: seq<Entry>, src: seq<byte>)
    requires Complete(v) && src != []
    ensures Encode(v, src) != []
  {
    SomethingMatches(v, src);
  }

  /** An entry that cannot start anywhere in the text plays no part in its encoding. */
  lemma {:induction false} EncodeWithout(v: seq<Entry>, extra: Entry, src: seq<byte>)
    requires forall i :: 0 <= i <= |src| ==> !Prefixes(extra, src[i..])
    ensures Encode(v + [extra], src) == Encode(v, src)
    decreases |src|
  {
    assert src[0..] == src;
    assert (v + [extra])[..|v|] == v;
    var k := Longest(v, src);
    if k >= 0 {
      var n := |v[k].data|;
      forall i | 0 <= i <= |src[n..]| ensures !Prefixes(extra, src[n..][i..]) {
        assert src[n..][i..] == src[n + i..];
      }
      EncodeWithout(v, extra, src[n..]);
    }
  }
}
