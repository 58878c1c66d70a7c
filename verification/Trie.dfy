/** The C++ tokenizer of src/trie.hpp: a byte trie, the token tables, and the greedy encoder
    over them. */
module Trie {
  import opened Recurrence
  import opened Vocabulary

  const EOD: seq<byte> := [60, 69, 79, 68, 62]  // "<EOD>"

  class OptimizedTrie {
    var children: map<byte, OptimizedTrie>
    var values: set<int>
    /** All (key, id) pairs stored at or below this node, keys relative to it. */
    ghost var entries: set<(seq<byte>, int)>
    ghost var Repr: set<object>

    ghost predicate Valid()
      reads this, Repr
      ensures Valid() ==> this in Repr
      decreases Repr
    {
      && this in Repr
      && (forall b {:trigger children[b]} :: b in children ==>
        && children[b] in Repr && children[b].Repr <= Repr - {this} && children[b].Valid())
      && (forall b, c {:trigger Apart(b, c)} :: b in children && c in children ==> Apart(b, c))
      && (forall k, id {:trigger (k, id) in entries} :: (k, id) in entries <==> StoredAt(k, id))
    }

    ghost predicate Apart(b: byte, c: byte)
      reads this, children.Values
    {
      b in children && c in children && b != c ==> children[b].Repr !! children[c].Repr
    }

    /** What the node itself and its children say about a key. */
    ghost predicate StoredAt(k: seq<byte>, id: int)
      reads this, children.Values
    {
      if k == [] then id in values
      else k[0] in children && (k[1..], id) in children[k[0]].entries
    }

    constructor ()
      ensures Valid() && fresh(Repr) && entries == {}
    {
      children, values, entries, Repr := map[], {}, {}, {this};
    }

    /** The child for one byte, made on demand (src/trie.hpp:148-152). */
    method ChildFor(b: byte) returns (child: OptimizedTrie)
      requires Valid()
      modifies this
      ensures Valid() && fresh(Repr - old(Repr)) && entries == old(entries)
      ensures b in children && child == children[b]
    {
      if b in children {
        child := children[b];
      } else {
        child := new OptimizedTrie();
        children := children[b := child];
        Repr := Repr + child.Repr;
        forall c, d | c in children && d in children ensures Apart(c, d) { assert old(Apart(c, d)); }
        forall k, id ensures (k, id) in entries <==> StoredAt(k, id) {
          assert (k, id) in old(entries) <==> old(StoredAt(k, id));
        }
      }
    }

    /** Storing `val` under the rest of `key` (src/trie.hpp:140-154). */
    method Add(key: seq<byte>, idx: nat, val: int)
      requires Valid() && idx <= |key|
      modifies Repr
      ensures Valid() && fresh(Repr - old(Repr))
      ensures entries == old(entries) + Added(key[idx..], val)
      decreases |key| - idx, 1
    {
      if idx == |key| {
        if val != -1 { values := values + {val}; }
        entries := entries + Added(key[idx..], val);
        forall c, d | c in children && d in children ensures Apart(c, d) { assert old(Apart(c, d)); }
        forall k, id ensures (k, id) in entries <==> StoredAt(k, id) {
          assert (k, id) in old(entries) <==> old(StoredAt(k, id));
        }
      } else {
        var child := ChildFor(key[idx]);
        AddThrough(child, key, idx, val);
      }
    }

    method AddThrough(child: OptimizedTrie, key: seq<byte>, idx: nat, val: int)
      requires Valid() && idx < |key| && key[idx] in children && children[key[idx]] == child
      modifies Repr
      ensures Valid() && fresh(Repr - old(Repr))
      ensures entries == old(entries) + Added(key[idx..], val)
      decreases |key| - idx, 0
    {
      var b := key[idx];
      forall c | c in children && c != b
        ensures children[c].Repr !! child.Repr && children[c] in children[c].Repr && children[c].Valid()
      {
        assert Apart(c, b);
      }
      child.Add(key, idx + 1, val);
      Repr := Repr + child.Repr;
      entries := entries + Added(key[idx..], val);
      forall c | c in children && c != b
        ensures children[c].Valid() && children[c].Repr == old(children[c].Repr)
        ensures children[c].Repr !! child.Repr && children[c].entries == old(children[c].entries)
      {
      }
      forall c, d | c in children && d in children ensures Apart(c, d) { assert old(Apart(c, d)); }
      forall k, id ensures (k, id) in entries <==> StoredAt(k, id) {
        assert (k, id) in old(entries) <==> old(StoredAt(k, id));
        SameKey(k, key, idx);
      }
    }

    /** Keys agree when their first bytes and the rest do. */
    static lemma SameKey(k: seq<byte>, key: seq<byte>, idx: nat)
      requires idx < |key|
      ensures k == key[idx..] <==> k != [] && k[0] == key[idx] && k[1..] == key[idx + 1..]
    {
      if k != [] && k[0] == key[idx] && k[1..] == key[idx + 1..] {
        assert k == [k[0]] + k[1..];
      }
    }

    ghost function Added(key: seq<byte>, val: int): set<(seq<byte>, int)> {
      if val == -1 then {} else {(key, val)}
    }

    /** `u` holds exactly what is stored here under keys starting with `path`. */
    ghost predicate Holds(u: OptimizedTrie, path: seq<byte>)
      reads this`entries, u`entries
    {
      forall k, i {:trigger (path + k, i) in entries} :: (path + k, i) in entries <==> (k, i) in u.entries
    }

    lemma HoldsSelf()
      ensures Holds(this, [])
    {
      forall k, i ensures ([] + k, i) in entries <==> (k, i) in entries { assert [] + k == k; }
    }

    lemma HoldsChild(u: OptimizedTrie, path: seq<byte>, b: byte)
      requires u.Valid() && Holds(u, path) && b in u.children
      ensures Holds(u.children[b], path + [b])
      ensures forall i :: i in u.children[b].values <==> (path + [b], i) in entries
    {
      var w := u.children[b];
      forall k, i ensures (path + [b] + k, i) in entries <==> (k, i) in w.entries {
        assert ([b] + k)[1..] == k && u.StoredAt([b] + k, i) == ((k, i) in w.entries);
        assert path + ([b] + k) == path + [b] + k;
      }
      forall i ensures i in w.values <==> (path + [b], i) in entries {
        assert w.StoredAt([], i) <==> ([], i) in w.entries;
        assert path + [b] + [] == path + [b];
      }
    }

    lemma HoldsNext(u: OptimizedTrie, key: seq<byte>, idx: nat, at: nat)
      requires u.Valid() && idx <= at < |key| && Holds(u, key[idx..at]) && key[at] in u.children
      ensures u.children[key[at]].Valid() && Holds(u.children[key[at]], key[idx..at + 1])
      ensures Listed(entries, u.children[key[at]].values, key[idx..at + 1])
    {
      HoldsChild(u, key[idx..at], key[at]);
      hide Holds;
      assert key[idx..at] + [key[at]] == key[idx..at + 1];
    }

    /** Without a child for the next byte no longer key is stored. */
    lemma NothingPast(u: OptimizedTrie, key: seq<byte>, idx: nat, at: nat)
      requires u.Valid() && idx <= at <= |key| && Holds(u, key[idx..at])
      requires at == |key| || key[at] !in u.children
      ensures NoneLonger(entries, key, idx, at, |key|)
    {
      forall e, i | at < e <= |key| ensures (key[idx..e], i) !in entries {
        assert !u.StoredAt(key[at..e], i);
        assert key[idx..e] == key[idx..at] + key[at..e];
      }
    }

    /** `*values.begin()` on an unordered set: any of its elements. */
    method SomeValue() returns (v: int)
      requires exists v :: v in values
      ensures v in values
    {
      v :| v in values;
    }

    /** The longest stored key that starts `key` at `idx`: where it ends and one id stored under
        it, or (0, 0) when no non-empty key fits (src/trie.hpp:156-176). */
    method FindLongestFast(key: seq<byte>, idx: nat) returns (end: nat, id: int)
      requires Valid() && idx <= |key|
      ensures end == 0 ==> id == 0
      ensures end != 0 ==> idx < end <= |key| && (key[idx..end], id) in entries
      ensures NoneLonger(entries, key, idx, end, |key|)
    {
      var u, at := this, idx;
      end, id := 0, 0;
      HoldsSelf();
      assert Holds(u, key[idx..at]) && NoneLonger(entries, key, idx, end, at);
      hide Valid, Holds, NoneLonger, Listed;
      while at < |key| && key[at] in u.children
        invariant idx <= at <= |key| && u.Valid() && Holds(u, key[idx..at])
        invariant end == 0 ==> id == 0
        invariant end != 0 ==> idx < end <= at && (key[idx..end], id) in entries
        invariant NoneLonger(entries, key, idx, end, at)
        decreases |key| - at
      {
        HoldsNext(u, key, idx, at);
        NoneLongerNext(entries, u.children[key[at]].values, key, idx, end, at);
        u, at := u.children[key[at]], at + 1;
        if exists v :: v in u.values {
          var v := u.SomeValue();
          end, id := at, v;
        }
      }
      NothingPast(u, key, idx, at);
      NoneLongerOn(entries, key, idx, end, at);
    }
  }

  /** No stored key starts `key` at `idx` and ends past `end` but not past `limit`. */
  ghost predicate NoneLonger(entries: set<(seq<byte>, int)>, key: seq<byte>, idx: nat, end: nat, limit: nat)
    requires limit <= |key|
  {
    forall e, i {:trigger (key[idx..e], i) in entries} :: idx < e <= limit && end < e ==> (key[idx..e], i) !in entries
  }

  lemma NoneLongerNext(entries: set<(seq<byte>, int)>, values: set<int>, key: seq<byte>, idx: nat, end: nat, at: nat)
    requires idx <= at < |key| && NoneLonger(entries, key, idx, end, at)
    requires Listed(entries, values, key[idx..at + 1])
    ensures (forall i :: i !in values) ==> NoneLonger(entries, key, idx, end, at + 1)
    ensures NoneLonger(entries, key, idx, at + 1, at + 1)
    ensures forall i :: i in values ==> (key[idx..at + 1], i) in entries
  {
    forall e, i | (forall i :: i !in values) && idx < e <= at + 1 && end < e ensures (key[idx..e], i) !in entries {
      if e > at { assert i !in values; }
    }
  }

  /** `values` are the ids stored under the key. */
  ghost predicate Listed(entries: set<(seq<byte>, int)>, values: set<int>, key: seq<byte>) {
    forall i :: i in values <==> (key, i) in entries
  }

  lemma NoneLongerOn(entries: set<(seq<byte>, int)>, key: seq<byte>, idx: nat, end: nat, at: nat)
    requires at <= |key| && NoneLonger(entries, key, idx, end, at) && NoneLonger(entries, key, idx, at, |key|)
    ensures NoneLonger(entries, key, idx, end, |key|)
  {
  }

  /** The three tables of src/trie.hpp:192-237. */
  datatype Tables = Tables(data: seq<seq<byte>>, index: map<int, int>, ids: map<seq<byte>, int>)
  {
    /** What adding a token does, as written: for a repeated byte string the id it was first given is recorded where
        its position in the data list belongs. */
    function Add(id: int, bytes: seq<byte>): Tables {
      if bytes in ids then this.(index := index[id := ids[bytes]])
      else Tables(data + [bytes], index[id := |data|], ids[bytes := id])
    }

    /** The index recorded for the id is one. */
    predicate InRange(id: int) { id in index ==> 0 <= index[id] < |data| }

    /** What a lookup yields (src/trie.hpp:211-218). */
    function Lookup(id: int): seq<byte>
      requires InRange(id)
    {
      if id in index then data[index[id]] else []
    }
  }

  /** The tables after some lines. */
  function TablesOf(v: seq<Entry>): (t: Tables)
    ensures forall d :: d in t.data <==> d in t.ids
    decreases |v|
  {
    if v == [] then Tables([], map[], map[])
    else
      var t, e := TablesOf(v[..|v| - 1]), v[|v| - 1];
      var next := t.Add(e.id, e.data);
      assert forall d :: d in t.data + [e.data] <==> d in t.data || d == e.data;
      next
  }

  /** The first line with these bytes. */
  function FirstWith(v: seq<Entry>, bytes: seq<byte>): (f: nat)
    requires exists k :: 0 <= k < |v| && v[k].data == bytes
    ensures f < |v| && v[f].data == bytes && forall j :: 0 <= j < f ==> v[j].data != bytes
    decreases |v|
  {
    if v[0].data == bytes then 0
    else
      var k :| 0 <= k < |v| && v[k].data == bytes;
      assert v[1..][k - 1] == v[k];
      FirstWith(v[1..], bytes) + 1
  }

  class TokenMapping {
    var tokenData: seq<seq<byte>>
    var idxToDataIdx: map<int, int>
    var dataToIdx: map<seq<byte>, int>

    constructor ()
      ensures Value() == TablesOf([])
    {
      tokenData, idxToDataIdx, dataToIdx := [], map[], map[];
    }

    ghost function Value(): Tables
      reads this
    {
      Tables(tokenData, idxToDataIdx, dataToIdx)
    }

    /** Every byte string seen so far is known by some id. */
    ghost predicate Indexed()
      reads this
    {
      forall d :: d in tokenData <==> d in dataToIdx
    }

    method AddToken(id: int, data: seq<byte>)
      requires Indexed()
      modifies this
      ensures Indexed() && data in tokenData && Value() == old(Value()).Add(id, data)
      // the new id stands for its bytes exactly when the bytes are new, or the id they were first
      // given happens to be their position in the data list
      ensures (Value().InRange(id) && Value().Lookup(id) == data) <==>
        (data !in old(tokenData) ||
         (0 <= old(dataToIdx[data]) < |old(tokenData)| && old(tokenData[dataToIdx[data]]) == data))
    {
      if data in dataToIdx {
        idxToDataIdx := idxToDataIdx[id := dataToIdx[data]];
      } else {
        var dataIdx := |tokenData|;
        tokenData := tokenData + [data];
        idxToDataIdx := idxToDataIdx[id := dataIdx];
        dataToIdx := dataToIdx[data := id];
      }
    }

    method GetTokenData(id: int) returns (data: seq<byte>)
      requires Value().InRange(id)
      ensures data == Value().Lookup(id)
    {
      if id in idxToDataIdx { data := tokenData[idxToDataIdx[id]]; } else { data := []; }
    }
  }

  /** Growing tables keep what they have. */
  lemma {:induction false} TablesGrow(v: seq<Entry>, k: nat)
    requires k <= |v|
    ensures TablesOf(v[..k]).data <= TablesOf(v).data
    ensures forall d :: d in TablesOf(v[..k]).ids ==>
      d in TablesOf(v).ids && TablesOf(v).ids[d] == TablesOf(v[..k]).ids[d]
    decreases |v|
  {
    if k == |v| {
      assert v[..k] == v;
    } else {
      TablesGrow(v[..|v| - 1], k);
      assert v[..|v| - 1][..k] == v[..k];
    }
  }

  lemma {:induction false} KnownBytes(v: seq<Entry>, d: seq<byte>)
    ensures d in TablesOf(v).ids <==> exists k :: 0 <= k < |v| && v[k].data == d
    decreases |v|
  {
    if v != [] {
      var n := |v| - 1;
      KnownBytes(v[..n], d);
      assert forall k :: 0 <= k < n ==> v[..n][k] == v[k];
      assert v[n].data == d ==> exists k :: 0 <= k < |v| && v[k].data == d;
    }
  }

  /** The last line of an id decides what is recorded for it. */
  lemma {:induction false} IndexOf(v: seq<Entry>, k: nat)
    requires k < |v| && forall j :: k < j < |v| ==> v[j].id != v[k].id
    ensures var t := TablesOf(v[..k]);
      v[k].id in TablesOf(v).index &&
      TablesOf(v).index[v[k].id] == if v[k].data in t.ids then t.ids[v[k].data] else |t.data|
    decreases |v|
  {
    var n := |v| - 1;
    LastLine(v);
    hide TablesOf;
    if k < n {
      IndexOf(v[..n], k);
      assert v[..n][..k] == v[..k] && v[..n][k] == v[k] && v[n].id != v[k].id;
    } else {
      assert v[..n] == v[..k];
    }
  }

  lemma LastLine(v: seq<Entry>)
    requires v != []
    ensures TablesOf(v) == TablesOf(v[..|v| - 1]).Add(v[|v| - 1].id, v[|v| - 1].data)
  {
  }

  /** After any lines at all, repeated ids and bytes included: an id finds the bytes of its last line if and only if
      they are new there, or the id of the first line that has them happens to be their position in the data list. */
  lemma LookupExact(v: seq<Entry>, k: nat)
    requires k < |v| && forall j :: k < j < |v| ==> v[j].id != v[k].id
    ensures var t, f := TablesOf(v), FirstWith(v, v[k].data);
      && |TablesOf(v[..f]).data| < |t.data| && t.data[|TablesOf(v[..f]).data|] == v[k].data
      && (t.InRange(v[k].id) && t.Lookup(v[k].id) == v[k].data <==> f == k || v[f].id == |TablesOf(v[..f]).data|)
  {
    var d, f := v[k].data, FirstWith(v, v[k].data);
    var p := |TablesOf(v[..f]).data|;
    NewThere(v, f);
    IndexOf(v, k);
    KnownBytes(v[..k], d);
    DistinctBytes(v);
    if f < k {
      assert v[..k][f] == v[f];
      assert v[..k][..f + 1] == v[..f + 1];
      TablesGrow(v[..k], f + 1);
    }
  }

  /** The first line with its bytes puts them at the end of the list, where they stay. */
  lemma NewThere(v: seq<Entry>, f: nat)
    requires f < |v| && forall j :: 0 <= j < f ==> v[j].data != v[f].data
    ensures var p, t := |TablesOf(v[..f]).data|, TablesOf(v);
      && p < |t.data| && t.data[p] == v[f].data
      && v[f].data in TablesOf(v[..f + 1]).ids && TablesOf(v[..f + 1]).ids[v[f].data] == v[f].id
  {
    KnownBytes(v[..f], v[f].data);
    assert v[..f + 1][..f] == v[..f] && v[..f + 1][f] == v[f];
    assert TablesOf(v[..f + 1]).data == TablesOf(v[..f]).data + [v[f].data];
    TablesGrow(v, f + 1);
  }

  lemma {:induction false} DistinctBytes(v: seq<Entry>)
    ensures var data := TablesOf(v).data; forall i, j :: 0 <= i < j < |data| ==> data[i] != data[j]
    decreases |v|
  {
    if v != [] {
      var t, d := TablesOf(v[..|v| - 1]), v[|v| - 1].data;
      DistinctBytes(v[..|v| - 1]);
      LastLine(v);
      assert d in t.data <==> d in t.ids;
    }
  }

  /** With distinct lines a lookup gives the bytes of the id. */
  lemma LookupIsData(v: seq<Entry>, id: int)
    requires DistinctData(v) && DistinctIds(v)
    ensures TablesOf(v).InRange(id) && TablesOf(v).Lookup(id) == DataOf(v, id)
  {
    if k :| 0 <= k < |v| && v[k].id == id {
      DataOfLine(v, k);
      assert FirstWith(v, v[k].data) == k;
      LookupExact(v, k);
    } else {
      DataOfUnknown(v, id);
      UnknownId(v, id);
    }
  }

  lemma {:induction false} UnknownId(v: seq<Entry>, id: int)
    requires forall k :: 0 <= k < |v| ==> v[k].id != id
    ensures id !in TablesOf(v).index
    decreases |v|
  {
    if v != [] { UnknownId(v[..|v| - 1], id); }
  }

  /** The lines the trie keeps: -1 means no id. */
  function Kept(v: seq<Entry>): (r: seq<Entry>)
    ensures forall e :: e in r <==> e in v && e.id != -1
    decreases |v|
  {
    if v == [] then []
    else
      var r := Kept(v[1..]);
      assert forall e :: e in v <==> e == v[0] || e in v[1..];
      if v[0].id == -1 then r else [v[0]] + r
  }

  /** The greedy pieces of a byte string. */
  function Cut(v: seq<Entry>, src: seq<byte>): seq<seq<byte>>
    decreases |src|
  {
    var k := Longest(v, src);
    if k < 0 then [] else [v[k].data] + Cut(v, src[|v[k].data|..])
  }

  /** Each token is an id of its piece. */
  ghost predicate Names(v: seq<Entry>, tokens: seq<int>, pieces: seq<seq<byte>>) {
    |tokens| == |pieces| && forall i :: 0 <= i < |tokens| ==> tokens[i] != -1 && Entry(tokens[i], pieces[i]) in v
  }

  /** With distinct bytes there is only one way to name the pieces, which is the encoding. */
  lemma {:induction false} NamesAreEncoding(v: seq<Entry>, src: seq<byte>, tokens: seq<int>)
    requires DistinctData(v) && Names(v, tokens, Cut(v, src))
    ensures tokens == Encode(v, src)
    decreases |src|
  {
    var k := Longest(v, src);
    if k >= 0 {
      var rest := src[|v[k].data|..];
      assert Cut(v, src)[1..] == Cut(v, rest);
      assert Entry(tokens[0], v[k].data) in v && tokens[0] == v[k].id;
      NamesAreEncoding(v, rest, tokens[1..]);
      assert tokens == [tokens[0]] + tokens[1..];
    }
  }

  lemma {:induction false} KeptAll(v: seq<Entry>)
    requires forall e :: e in v ==> e.id != -1
    ensures Kept(v) == v
    decreases |v|
  {
    if v != [] {
      assert forall e :: e in v[1..] ==> e in v;
      KeptAll(v[1..]);
    }
  }

  class OptimizedTrieTokenizer {
    const tokenMapping: TokenMapping
    const root: OptimizedTrie
    /** The lines that were loaded, the end-of-text token included. */
    ghost const vocab: seq<Entry>

    ghost predicate Valid()
      reads this, tokenMapping, root, root.Repr
    {
      && root.Valid() && StoredLines(root.entries, vocab)
      && tokenMapping.Value() == TablesOf(vocab)
    }

    /** Ids and byte strings are all different, and every line has an id. */
    ghost predicate Proper() {
      DistinctData(vocab) && DistinctIds(vocab) && forall e :: e in vocab ==> e.id != -1
    }

    /** Loading a parsed vocabulary file (src/trie.hpp:254-284), whatever its lines repeat. */
    constructor (lines: seq<Entry>)
      ensures Valid() && vocab == lines + [Entry(0, EOD)]
    {
      var mapping := new TokenMapping();
      var trie := new OptimizedTrie();
      tokenMapping, root := mapping, trie;
      vocab := lines + [Entry(0, EOD)];
      new;
      assert vocab[..0] == [] && StoredLines(root.entries, []) && tokenMapping.Value() == TablesOf([]);
      hide StoredLines, TablesOf, OptimizedTrie.Valid, TokenMapping.Value;
      var k := 0;
      while k < |lines|
        invariant 0 <= k <= |lines|
        invariant root.Valid() && fresh(root.Repr) && StoredLines(root.entries, vocab[..k])
        invariant fresh(tokenMapping) && tokenMapping !in root.Repr && tokenMapping.Value() == TablesOf(vocab[..k])
      {
        assert vocab[..k + 1] == vocab[..k] + [lines[k]];
        AddLine(lines[k], vocab[..k]);
        k := k + 1;
      }
      assert vocab[..k] + [Entry(0, EOD)] == vocab;
      AddLine(Entry(0, EOD), vocab[..k]);
    }

    method AddLine(e: Entry, ghost before: seq<Entry>)
      requires root.Valid() && StoredLines(root.entries, before)
      requires tokenMapping !in root.Repr && tokenMapping.Value() == TablesOf(before)
      modifies tokenMapping, root.Repr
      ensures root.Valid() && fresh(root.Repr - old(root.Repr)) && StoredLines(root.entries, before + [e])
      ensures tokenMapping !in root.Repr && tokenMapping.Value() == TablesOf(before + [e])
    {
      hide StoredLines, TablesOf;
      OneMoreLine(root.entries, before, e);
      tokenMapping.AddToken(e.id, e.data);
      assert e.data[0..] == e.data;
      root.Add(e.data, 0, e.id);
    }

    /** src/trie.hpp:295-314 */
    method EncodeBytes(src: seq<byte>) returns (tokens: seq<int>)
      requires Valid()
      // the pieces are the greedy ones, and each token is an id of its piece
      ensures Names(vocab, tokens, Cut(Kept(vocab), src))
      // which leaves no choice when no line is repeated
      ensures Proper() ==> tokens == Encode(vocab, src)
    {
      hide Cut, Names;
      tokens := [];
      ghost var done, whole: seq<seq<byte>> := [], Cut(Kept(vocab), src);
      NoNames(vocab, src);
      var idx := 0;
      while idx < |src|
        invariant idx <= |src|
        invariant Names(vocab, tokens, done) && done + Cut(Kept(vocab), src[idx..]) == whole
        decreases |src| - idx
      {
        var end, token := root.FindLongestFast(src, idx);
        if end == 0 {
          CutStop(root.entries, vocab, src, idx);
        } else {
          CutStep(root.entries, vocab, src, idx, end, token);
        }
        if end > idx && token != -1 {
          NamesOn(vocab, tokens, done, token, src[idx..end], Cut(Kept(vocab), src[end..]));
          tokens, done := tokens + [token], done + [src[idx..end]];
          idx := end;
        } else {
          break;
        }
      }
      CutEnd(vocab, src, idx);
      assert done + [] == done;
      if Proper() {
        KeptAll(vocab);
        NamesAreEncoding(vocab, src, tokens);
      }
    }

    /** src/trie.hpp:286-293.  An index that is none is not looked at. */
    method DecodeBytes(tokens: seq<int>) returns (bytes: seq<byte>)
      requires Valid() && forall i :: 0 <= i < |tokens| ==> TablesOf(vocab).InRange(tokens[i])
      ensures Proper() ==> bytes == Decode(vocab, tokens)
      ensures bytes == Join(seq(|tokens|, i requires 0 <= i < |tokens| => TablesOf(vocab).Lookup(tokens[i])))
    {
      hide TablesOf;
      bytes := [];
      ghost var said: seq<seq<byte>> := [];
      var k := 0;
      while k < |tokens|
        invariant 0 <= k <= |tokens| && |said| == k && bytes == Join(said)
        invariant forall i :: 0 <= i < k ==> said[i] == TablesOf(vocab).Lookup(tokens[i])
        invariant Proper() ==> bytes == Decode(vocab, tokens[..k])
      {
        assert tokens[..k + 1][..k] == tokens[..k];
        var data := tokenMapping.GetTokenData(tokens[k]);
        if Proper() { LookupIsData(vocab, tokens[k]); }
        JoinConcat(said, [data]);
        JoinOne(data);
        bytes, said := bytes + data, said + [data];
        k := k + 1;
      }
      assert tokens[..k] == tokens;
      assert said == seq(|tokens|, i requires 0 <= i < |tokens| => TablesOf(vocab).Lookup(tokens[i]));
    }
  }

  /** The pairs stored are the lines of the vocabulary that have an id. */
  ghost predicate StoredLines(entries: set<(seq<byte>, int)>, v: seq<Entry>) {
    forall d, id {:trigger (d, id) in entries} :: (d, id) in entries <==> id != -1 && Entry(id, d) in v
  }

  lemma OneMoreLine(entries: set<(seq<byte>, int)>, v: seq<Entry>, e: Entry)
    requires StoredLines(entries, v)
    ensures StoredLines(entries + if e.id == -1 then {} else {(e.data, e.id)}, v + [e])
    ensures TablesOf(v + [e]) == TablesOf(v).Add(e.id, e.data)
  {
    assert (v + [e])[..|v|] == v;
    assert forall x :: x in v + [e] <==> x in v || x == e;
  }

  lemma NoNames(v: seq<Entry>, src: seq<byte>)
    ensures Names(v, [], []) && [] + Cut(Kept(v), src[0..]) == Cut(Kept(v), src)
  {
    assert src[0..] == src;
  }

  lemma NamesOn(v: seq<Entry>, tokens: seq<int>, done: seq<seq<byte>>, token: int, piece: seq<byte>,
                rest: seq<seq<byte>>)
    requires Names(v, tokens, done) && token != -1 && Entry(token, piece) in v
    ensures Names(v, tokens + [token], done + [piece])
    ensures done + ([piece] + rest) == (done + [piece]) + rest
  {
  }

  lemma CutEnd(v: seq<Entry>, src: seq<byte>, idx: nat)
    requires idx <= |src|
    ensures idx == |src| ==> Cut(Kept(v), src[idx..]) == []
  {
  }

  /** A trie lookup and a scan of the vocabulary agree on the longest entry. */
  lemma LongestIs(entries: set<(seq<byte>, int)>, v: seq<Entry>, src: seq<byte>, idx: nat, end: nat, id: int)
    requires StoredLines(entries, v) && idx < end <= |src| && (src[idx..end], id) in entries
    requires NoneLonger(entries, src, idx, end, |src|)
    ensures var r, k := Kept(v), Longest(Kept(v), src[idx..]); k >= 0 && r[k].data == src[idx..end]
  {
    var rest, r := src[idx..], Kept(v);
    var k := Longest(r, rest);
    assert rest[..end - idx] == src[idx..end];
    assert Entry(id, src[idx..end]) in r;
    var j :| 0 <= j < |r| && r[j] == Entry(id, src[idx..end]);
    assert Prefixes(r[j], rest);
    var n := |r[k].data|;
    assert rest[..n] == src[idx..idx + n];
    assert Entry(r[k].id, src[idx..idx + n]) == r[k] && r[k] in r;
    assert (src[idx..idx + n], r[k].id) in entries;
  }

  lemma LongestIsNot(entries: set<(seq<byte>, int)>, v: seq<Entry>, src: seq<byte>, idx: nat)
    requires StoredLines(entries, v) && idx <= |src| && NoneLonger(entries, src, idx, 0, |src|)
    ensures Longest(Kept(v), src[idx..]) == -1
  {
    var r := Kept(v);
    forall j | 0 <= j < |r| ensures !Prefixes(r[j], src[idx..]) {
      var n := |r[j].data|;
      if 0 < n <= |src| - idx {
        assert (src[idx..idx + n], r[j].id) !in entries;
        assert Entry(r[j].id, src[idx..idx + n]) !in r && r[j] in r;
        assert src[idx..][..n] == src[idx..idx + n] != r[j].data;
      }
    }
  }

  /** The piece found is the greedy one. */
  lemma CutStep(entries: set<(seq<byte>, int)>, v: seq<Entry>, src: seq<byte>, idx: nat, end: nat, id: int)
    requires StoredLines(entries, v) && idx < end <= |src| && (src[idx..end], id) in entries
    requires NoneLonger(entries, src, idx, end, |src|)
    ensures Cut(Kept(v), src[idx..]) == [src[idx..end]] + Cut(Kept(v), src[end..])
  {
    hide StoredLines, NoneLonger, Kept, Cut, Longest, Prefixes;
    LongestIs(entries, v, src, idx, end, id);
    assert src[idx..] == src[idx..end] + src[end..];
    CutOn(Kept(v), src[idx..], src[idx..end], src[end..]);
  }

  /** No piece is found where there is none. */
  lemma CutStop(entries: set<(seq<byte>, int)>, v: seq<Entry>, src: seq<byte>, idx: nat)
    requires StoredLines(entries, v) && idx <= |src| && NoneLonger(entries, src, idx, 0, |src|)
    ensures Cut(Kept(v), src[idx..]) == []
  {
    LongestIsNot(entries, v, src, idx);
    CutEnds(Kept(v), src[idx..]);
  }

  lemma CutEnds(v: seq<Entry>, src: seq<byte>)
    requires Longest(v, src) < 0
    ensures Cut(v, src) == []
  {
  }

  lemma CutOn(v: seq<Entry>, src: seq<byte>, piece: seq<byte>, rest: seq<byte>)
    requires Longest(v, src) >= 0 && v[Longest(v, src)].data == piece && src == piece + rest
    ensures Cut(v, src) == [piece] + Cut(v, rest)
  {
    assert src[|piece|..] == rest;
  }
}
