/** The rmpack container: what the packer writes (converter/convert_state_to_rmpack.py) and what the reader makes
    of it (src/rmpack.cpp).  The configuration stands for its JSON text. */
module Rmpack {
  import opened Options
  import Vocabulary

  type Bytes = seq<Vocabulary.byte>

  const MAGIC: Bytes := [82, 87, 75, 86, 77, 66, 76, 69]  // "RWKVMBLE"
  const ALIGNMENT: nat := 4096

  datatype FileInfo = FileInfo(name: Bytes, size: nat, offset: nat)

  /** `n` in `k` bytes, the lowest first. */
  function LittleEndian(n: nat, k: nat): (b: Bytes)
    ensures |b| == k
  {
    if k == 0 then [] else [(n % 256) as Vocabulary.byte] + LittleEndian(n / 256, k - 1)
  }

  function Number(b: Bytes): nat
    decreases |b|
  {
    if b == [] then 0 else b[0] as nat + 256 * Number(b[1..])
  }

  /** 256^k */
  function Limit(k: nat): (r: nat)
    ensures r > 0
  {
    if k == 0 then 1 else 256 * Limit(k - 1)
  }

  lemma {:induction false} NumberOf(n: nat, k: nat)
    requires n < Limit(k)
    ensures Number(LittleEndian(n, k)) == n
  {
    if k > 0 {
      NumberOf(n / 256, k - 1);
      assert LittleEndian(n, k)[1..] == LittleEndian(n / 256, k - 1);
    }
  }

  /** Byte `i` counts multiples of 256^i. */
  lemma {:induction false} ByteAt(n: nat, k: nat, i: nat)
    requires i < k
    ensures LittleEndian(n, k)[i] as nat == n / Limit(i) % 256
  {
    if i > 0 {
      ByteAt(n / 256, k - 1, i - 1);
      DivideTwice(n, Limit(i - 1));
    }
  }

  lemma DivideTwice(n: nat, d: nat)
    requires d > 0
    ensures n / 256 / d == n / (256 * d)
  {
    var a := n / 256;
    var q := a / d;
    assert n == 256 * (d * q + a % d) + n % 256 == (256 * d) * q + (256 * (a % d) + n % 256);
    Quotient(256 * d, q, 256 * (a % d) + n % 256);
  }

  lemma Quotient(d: nat, q: nat, r: nat)
    requires r < d
    ensures (d * q + r) / d == q
  {
    var x := d * q + r;
    assert d * (x / d - q) == r - x % d;
    Steps(d, x / d - q);
  }

  lemma Steps(d: nat, k: int)
    ensures k >= 1 ==> d * k >= d
    ensures k <= -1 ==> d * k + d <= 0
  {
  }

  lemma {:induction false} BytesOf(b: Bytes)
    ensures LittleEndian(Number(b), |b|) == b && Number(b) < Limit(|b|)
    decreases |b|
  {
    if b != [] { BytesOf(b[1..]); }
  }

  function Entry(f: FileInfo): Bytes {
    LittleEndian(|f.name|, 4) + f.name + LittleEndian(f.size, 8) + LittleEndian(f.offset, 8)
  }

  function Entries(files: seq<FileInfo>): Bytes
    decreases |files|
  {
    if files == [] then [] else Entry(files[0]) + Entries(files[1..])
  }

  lemma {:induction false} EntriesSnoc(files: seq<FileInfo>, f: FileInfo)
    ensures Entries(files + [f]) == Entries(files) + Entry(f)
    decreases |files|
  {
    hide Entry;
    if files == [] {
      assert [] + [f] == [f] && [f][1..] == [];
    } else {
      EntriesSnoc(files[1..], f);
      assert (files + [f])[1..] == files[1..] + [f];
    }
  }

  /** Everything in front of the padding. */
  function Header(config: Bytes, files: seq<FileInfo>): Bytes {
    MAGIC + LittleEndian(|config|, 4) + config + LittleEndian(|files|, 4) + Entries(files)
  }

  /** The fields are as wide as the format makes them. */
  predicate EntryFits(f: FileInfo) {
    |f.name| < Limit(4) && f.size < Limit(8) && f.offset < Limit(8)
  }

  predicate Encodable(config: Bytes, files: seq<FileInfo>) {
    |config| < Limit(4) && |files| < Limit(4) && forall i :: 0 <= i < |files| ==> EntryFits(files[i])
  }

  function Align(x: nat): (a: nat)
    ensures x <= a < x + ALIGNMENT && a % ALIGNMENT == 0
  {
    x + (ALIGNMENT - x % ALIGNMENT) % ALIGNMENT
  }

  /** The names' bytes and `width` more for each file. */
  function EntriesSize(files: seq<FileInfo>, width: nat): nat
    decreases |files|
  {
    if files == [] then 0
    else EntriesSize(files[..|files| - 1], width) + 4 + |files[|files| - 1].name| + width
  }

  /** Where the header would end with `width` bytes a file for size and offset: the packer computes offsets
      with 8 (line 50) and writes 16 (lines 83-84). */
  function HeaderSize(config: Bytes, files: seq<FileInfo>, width: nat): nat {
    8 + 4 + |config| + 4 + EntriesSize(files, width)
  }

  lemma {:induction false} HeaderIsWide(config: Bytes, files: seq<FileInfo>)
    ensures |Entries(files)| == EntriesSize(files, 16)
    ensures |Header(config, files)| == HeaderSize(config, files, 16)
    decreases |files|
  {
    if files != [] {
      var front, f := files[..|files| - 1], files[|files| - 1];
      HeaderIsWide(config, front);
      EntriesSnoc(front, f);
      assert front + [f] == files;
    }
  }

  /** The field of `k` bytes at `at` holds `n`, the lowest byte first. */
  ghost predicate Field(stream: Bytes, at: nat, k: nat, n: nat) {
    at + k <= |stream| && forall i :: 0 <= i < k ==> stream[at + i] as nat == n / Limit(i) % 256
  }

  /** What a reader of the format finds byte by byte: the magic, the length of the configuration in four bytes, the
      configuration, the number of files in four, and for each file the length of its name in four bytes, its name, its
      size in eight and its offset in eight. */
  lemma HeaderLayout(config: Bytes, files: seq<FileInfo>, k: nat)
    requires k < |files|
    ensures var h, f := Header(config, files), files[k];
      var count := 12 + |config|;
      var entry := count + 4 + EntriesSize(files[..k], 16);
      var fields := entry + 4 + |f.name|;
      && fields + 16 <= |h|
      && h[..8] == [82, 87, 75, 86, 77, 66, 76, 69] && Field(h, 8, 4, |config|) && h[12..count] == config
      && Field(h, count, 4, |files|)
      && Field(h, entry, 4, |f.name|) && h[entry + 4..fields] == f.name
      && Field(h, fields, 8, f.size) && Field(h, fields + 8, 8, f.offset)
  {
    hide Header, Entry, Entries, LittleEndian, Field, EntriesSize;
    var front := MAGIC + LittleEndian(|config|, 4) + config + LittleEndian(|files|, 4);
    var before, after, e := Entries(files[..k]), Entries(files[k + 1..]), Entry(files[k]);
    HeaderAround(config, files, k, front);
    FrontAt(config, |files|, before + e + after);
    assert front + (before + e + after) == front + before + e + after;
    EntryAt(front + before, files[k], after, front + before + e + after);
  }

  lemma HeaderAround(config: Bytes, files: seq<FileInfo>, k: nat, front: Bytes)
    requires k < |files| && front == MAGIC + LittleEndian(|config|, 4) + config + LittleEndian(|files|, 4)
    ensures Header(config, files) == front + (Entries(files[..k]) + Entry(files[k]) + Entries(files[k + 1..]))
    ensures |front| == 16 + |config| && |Entries(files[..k])| == EntriesSize(files[..k], 16)
  {
    HeaderIsWide(config, files[..k]);
    EntriesSplit(files, k);
    hide Entry, Entries, EntriesSize;
  }

  lemma FrontAt(config: Bytes, n: nat, rest: Bytes)
    ensures var h := MAGIC + LittleEndian(|config|, 4) + config + LittleEndian(n, 4) + rest;
      && h[..8] == [82, 87, 75, 86, 77, 66, 76, 69] && Field(h, 8, 4, |config|) && h[12..12 + |config|] == config
      && Field(h, 12 + |config|, 4, n)
  {
    var a, b := LittleEndian(|config|, 4), LittleEndian(n, 4);
    var h := MAGIC + a + config + b + rest;
    hide LittleEndian, Field;
    assert h == MAGIC + a + (config + b + rest);
    FieldAt(MAGIC, |config|, 4, config + b + rest, h);
    FieldAt(MAGIC + a + config, n, 4, rest, h);
  }

  lemma EntryAt(front: Bytes, f: FileInfo, back: Bytes, h: Bytes)
    requires h == front + Entry(f) + back
    ensures var entry := |front|;
      var fields := entry + 4 + |f.name|;
      && fields + 16 <= |h| && Field(h, entry, 4, |f.name|) && h[entry + 4..fields] == f.name
      && Field(h, fields, 8, f.size) && Field(h, fields + 8, 8, f.offset)
  {
    var a, b, c := LittleEndian(|f.name|, 4), LittleEndian(f.size, 8), LittleEndian(f.offset, 8);
    FieldAt(front, |f.name|, 4, f.name + b + c + back, h);
    FieldAt(front + a + f.name, f.size, 8, c + back, h);
    FieldAt(front + a + f.name + b, f.offset, 8, back, h);
    assert h == front + a + f.name + (b + c + back);
  }

  lemma FieldAt(front: Bytes, n: nat, k: nat, back: Bytes, h: Bytes)
    requires h == front + LittleEndian(n, k) + back
    ensures Field(h, |front|, k, n)
  {
    forall i | 0 <= i < k ensures h[|front| + i] as nat == n / Limit(i) % 256 { ByteAt(n, k, i); }
  }

  lemma {:induction false} EntriesSplit(files: seq<FileInfo>, k: nat)
    requires k < |files|
    ensures Entries(files) == Entries(files[..k]) + Entry(files[k]) + Entries(files[k + 1..])
    decreases k
  {
    if k == 0 {
      assert files[..0] == [] && [] + Entry(files[0]) == Entry(files[0]);
    } else {
      EntriesSplit(files[1..], k - 1);
      assert files[1..][..k - 1] == files[..k][1..] && files[1..][k - 1] == files[k];
      assert files[1..][k..] == files[k + 1..];
      assert files[..k][0] == files[0];
      hide Entry;
      assert Entry(files[0]) + (Entries(files[..k][1..]) + Entry(files[k]) + Entries(files[k + 1..])) ==
        Entries(files[..k]) + Entry(files[k]) + Entries(files[k + 1..]);
    }
  }

  /** Where the `i`-th file goes when the files start at `start`, each aligned. */
  function Place(sizes: seq<nat>, start: nat, i: nat): nat
    requires i <= |sizes|
  {
    if i == 0 then Align(start) else Align(Place(sizes, start, i - 1) + sizes[i - 1])
  }

  lemma {:induction false} PlaceShifts(sizes: seq<nat>, start: nat, blocks: nat, i: nat)
    requires i <= |sizes|
    ensures Place(sizes, start + ALIGNMENT * blocks, i) == Place(sizes, start, i) + ALIGNMENT * blocks
  {
    hide Align;
    if i == 0 {
      AlignShifts(start, blocks);
    } else {
      PlaceShifts(sizes, start, blocks, i - 1);
      AlignShifts(Place(sizes, start, i - 1) + sizes[i - 1], blocks);
    }
  }

  lemma AlignShifts(x: nat, blocks: nat)
    ensures Align(x + ALIGNMENT * blocks) == Align(x) + ALIGNMENT * blocks
  {
  }

  lemma AlignAgain(x: nat)
    ensures Align(Align(x)) == Align(x)
  {
  }

  lemma {:induction false} PlaceAligned(sizes: seq<nat>, start: nat, i: nat)
    requires i <= |sizes|
    ensures Place(sizes, Align(start), i) == Place(sizes, start, i)
  {
    hide Align;
    if i == 0 { AlignAgain(start); } else { PlaceAligned(sizes, start, i - 1); }
  }

  function SizesOf(data: seq<Bytes>): (sizes: seq<nat>)
    ensures |sizes| == |data| && forall i :: 0 <= i < |data| ==> sizes[i] == |data[i]|
  {
    seq(|data|, i requires 0 <= i < |data| => |data[i]|)
  }

  /** How far behind its recorded offset every file is written. */
  function Shift(config: Bytes, files: seq<FileInfo>): int {
    Align(HeaderSize(config, files, 16)) - Align(HeaderSize(config, files, 8))
  }

  lemma {:induction false} WidthsDiffer(files: seq<FileInfo>)
    ensures EntriesSize(files, 16) == EntriesSize(files, 8) + 8 * |files|
    decreases |files|
  {
    if files != [] { WidthsDiffer(files[..|files| - 1]); }
  }

  lemma HeadersDiffer(config: Bytes, files: seq<FileInfo>)
    ensures HeaderSize(config, files, 8) <= HeaderSize(config, files, 16)
  {
    WidthsDiffer(files);
  }

  /** One and the same multiple of 4096 lies between the recorded and the true position of every file, and it is
      zero exactly when both header sizes align to the same boundary. */
  lemma OffsetsShift(config: Bytes, files: seq<FileInfo>, sizes: seq<nat>, i: nat)
    requires i <= |sizes|
    ensures var shift := Shift(config, files);
      && shift >= 0 && shift % ALIGNMENT == 0
      && Place(sizes, HeaderSize(config, files, 16), i) == Place(sizes, HeaderSize(config, files, 8), i) + shift
  {
    hide HeaderSize;
    HeadersDiffer(config, files);
    var h8, h16 := HeaderSize(config, files, 8), HeaderSize(config, files, 16);
    var blocks := (Align(h16) - Align(h8)) / ALIGNMENT;
    assert Align(h16) == Align(h8) + ALIGNMENT * blocks;
    PlaceAligned(sizes, h8, i);
    PlaceAligned(sizes, h16, i);
    PlaceShifts(sizes, Align(h8), blocks, i);
  }

  class RWKVModelPacker {
    const config: Bytes
    var files: seq<FileInfo>
    var binaryData: seq<Bytes>

    ghost predicate Valid()
      reads this
    {
      |files| == |binaryData| && forall i :: 0 <= i < |files| ==> files[i].size == |binaryData[i]|
    }

    constructor (config: Bytes)
      ensures Valid() && this.config == config && files == []
    {
      this.config, files, binaryData := config, [], [];
    }

    method AddFileFromBytes(data: Bytes, name: Bytes)
      requires Valid()
      modifies this
      ensures Valid() && binaryData == old(binaryData) + [data] && files == old(files) + [FileInfo(name, |data|, 0)]
    {
      binaryData := binaryData + [data];
      files := files + [FileInfo(name, |data|, 0)];
    }

    /** Lines 38-62. */
    method CalculateOffsets()
      requires Valid()
      modifies this`files
      ensures Valid() && |files| == |old(files)|
      ensures forall i :: 0 <= i < |files| ==>
        files[i] == old(files)[i].(offset := Place(SizesOf(binaryData), HeaderSize(config, old(files), 8), i))
    {
      hide Align, Place;
      var offset: nat := Preamble();
      ghost var start, sizes := offset, SizesOf(binaryData);
      offset := Align(offset);
      PlaceFirst(sizes, start);
      for i := 0 to |files|
        invariant |files| == |old(files)| && Align(offset) == Place(sizes, start, i)
        invariant forall k :: 0 <= k < i ==> files[k] == old(files)[k].(offset := Place(sizes, start, k))
        invariant forall k :: i <= k < |files| ==> files[k] == old(files)[k]
      {
        offset := Align(offset);
        files := files[i := files[i].(offset := offset)];
        offset := offset + files[i].size;
        PlaceNext(sizes, start, i);
      }
    }

    static lemma PlaceFirst(sizes: seq<nat>, start: nat)
      ensures Align(Align(start)) == Place(sizes, start, 0)
    {
      AlignAgain(start);
    }

    static lemma PlaceNext(sizes: seq<nat>, start: nat, i: nat)
      requires i < |sizes|
      ensures Place(sizes, start, i + 1) == Align(Place(sizes, start, i) + sizes[i])
    {
    }

    /** The size of the header as the packer adds it up (lines 40-50). */
    method Preamble() returns (offset: nat)
      ensures offset == HeaderSize(config, files, 8)
    {
      offset := |MAGIC| + (4 + |config|) + 4;
      for i := 0 to |files|
        invariant offset == 16 + |config| + EntriesSize(files[..i], 8)
      {
        assert files[..i + 1][..i] == files[..i];
        offset := offset + 4 + |files[i].name| + 8;
      }
      assert files[..|files|] == files;
    }

    /** Zeroes up to the next boundary. */
    static function Padded(out: Bytes): (r: Bytes)
      ensures out <= r && |r| == Align(|out|)
    {
      out + seq(Align(|out|) - |out|, _ => 0)
    }

    /** Lines 69-84. */
    method WriteHeader() returns (out: Bytes)
      ensures out == Header(config, files)
    {
      out := MAGIC;
      out := out + LittleEndian(|config|, 4);
      out := out + config;
      out := out + LittleEndian(|files|, 4);
      ghost var top := out;
      for i := 0 to |files|
        invariant out == top + Entries(files[..i])
      {
        assert files[..i + 1] == files[..i] + [files[i]];
        EntriesSnoc(files[..i], files[i]);
        out := out + LittleEndian(|files[i].name|, 4);
        out := out + files[i].name;
        out := out + LittleEndian(files[i].size, 8);
        out := out + LittleEndian(files[i].offset, 8);
        assert out == top + (Entries(files[..i]) + Entry(files[i]));
      }
      assert files[..|files|] == files;
    }

    /** `pack` (lines 64-98); None where `struct.pack` refuses a number. */
    method Pack() returns (result: Option<Bytes>)
      requires Valid()
      modifies this`files
      ensures Valid() && |files| == |old(files)|
      ensures forall i :: 0 <= i < |files| ==>
        files[i] == old(files)[i].(offset := Place(SizesOf(binaryData), HeaderSize(config, old(files), 8), i))
      ensures result.Some? <==> Encodable(config, files)
      ensures result.Some? ==> Header(config, files) <= result.value
      ensures result.Some? ==> forall i :: 0 <= i < |files| ==>
        Holds(result.value, Place(SizesOf(binaryData), HeaderSize(config, files, 16), i), binaryData[i])
    {
      hide Place, Header, HeaderSize, Encodable, Written, Align;
      CalculateOffsets();
      if !Encodable(config, files) { return None; }
      var header := WriteHeader();
      HeaderIsWide(config, files);
      var out := WriteData(header);
      return Some(out);
    }

    /** The padding and the file contents (lines 86-98). */
    method WriteData(header: Bytes) returns (out: Bytes)
      ensures header <= out
      ensures forall i :: 0 <= i < |binaryData| ==>
        Holds(out, Place(SizesOf(binaryData), |header|, i), binaryData[i])
    {
      hide Place;
      out := Padded(header);
      PlaceFirst(SizesOf(binaryData), |header|);
      for i := 0 to |binaryData|
        invariant header <= out && Written(out, binaryData, |header|, i)
      {
        WriteNext(out, binaryData, |header|, i);
        out := Padded(out) + binaryData[i];
      }
    }

    /** The first `i` files are in place. */
    static ghost predicate Written(out: Bytes, data: seq<Bytes>, start: nat, i: nat)
      requires i <= |data|
    {
      && Align(|out|) == Place(SizesOf(data), start, i)
      && forall k :: 0 <= k < i ==> Holds(out, Place(SizesOf(data), start, k), data[k])
    }

    static lemma WriteNext(out: Bytes, data: seq<Bytes>, start: nat, i: nat)
      requires i < |data| && Written(out, data, start, i)
      ensures out <= Padded(out) + data[i] && Written(Padded(out) + data[i], data, start, i + 1)
    {
      hide Align, Place, Holds;
      var front, sizes := Padded(out), SizesOf(data);
      Appended(front, data[i]);
      PlaceNext(sizes, start, i);
      forall k | 0 <= k < i ensures Holds(front + data[i], Place(sizes, start, k), data[k]) {
        HoldsLater(out, front + data[i], Place(sizes, start, k), data[k]);
      }
    }
  }

  lemma Appended(front: Bytes, data: Bytes)
    ensures Holds(front + data, |front|, data)
  {
    assert (front + data)[|front|..|front| + |data|] == data;
  }

  lemma HoldsLater(stream: Bytes, longer: Bytes, at: nat, data: Bytes)
    requires Holds(stream, at, data) && stream <= longer
    ensures Holds(longer, at, data)
  {
    assert longer[at..at + |data|] == stream[at..at + |data|];
  }

  /** `data` stands at `at`. */
  predicate Holds(stream: Bytes, at: nat, data: Bytes) {
    at + |data| <= |stream| && stream[at..at + |data|] == data
  }

  datatype Error = Truncated | InvalidFormat | BadConfig | NotFound | SeekFailed | ReadFailed

  datatype Result<T> = Ok(value: T) | Err(error: Error)

  /** The first file of a name, or their number. */
  function FirstNamed(files: seq<FileInfo>, name: Bytes): (k: nat)
    ensures k <= |files| && (k < |files| ==> files[k].name == name)
    ensures forall j :: 0 <= j < k ==> files[j].name != name
    decreases |files|
  {
    if files == [] || files[0].name == name then 0 else 1 + FirstNamed(files[1..], name)
  }

  /** A piece made of two is where its halves are. */
  lemma HoldsParts(stream: Bytes, at: nat, a: Bytes, b: Bytes)
    requires Holds(stream, at, a + b)
    ensures Holds(stream, at, a) && Holds(stream, at + |a|, b)
  {
    assert stream[at..at + |a|] == (a + b)[..|a|];
    assert stream[at + |a|..at + |a| + |b|] == (a + b)[|a|..];
  }

  /** The pieces of a header, where the reader looks for them. */
  lemma HeaderParts(stream: Bytes, config: Bytes, files: seq<FileInfo>)
    requires Header(config, files) <= stream
    ensures Holds(stream, 0, MAGIC) && Holds(stream, 8, LittleEndian(|config|, 4))
    ensures Holds(stream, 12, config) && Holds(stream, 12 + |config|, LittleEndian(|files|, 4))
    ensures Holds(stream, 16 + |config|, Entries(files))
  {
    hide Entries, LittleEndian, Holds;
    var e, n, l := Entries(files), LittleEndian(|files|, 4), LittleEndian(|config|, 4);
    assert Holds(stream, 0, MAGIC + l + config + n + e) by { WholeHeader(stream, config, files); }
    HoldsParts(stream, 0, MAGIC + l + config + n, e);
    HoldsParts(stream, 0, MAGIC + l + config, n);
    HoldsParts(stream, 0, MAGIC + l, config);
    HoldsParts(stream, 0, MAGIC, l);
  }

  lemma WholeHeader(stream: Bytes, config: Bytes, files: seq<FileInfo>)
    requires Header(config, files) <= stream
    ensures Holds(stream, 0, Header(config, files))
  {
  }

  lemma EntryParts(stream: Bytes, at: nat, f: FileInfo)
    requires Holds(stream, at, Entry(f))
    ensures Holds(stream, at, LittleEndian(|f.name|, 4)) && Holds(stream, at + 4, f.name)
    ensures Holds(stream, at + 4 + |f.name|, LittleEndian(f.size, 8))
    ensures Holds(stream, at + 12 + |f.name|, LittleEndian(f.offset, 8))
  {
    hide LittleEndian, Holds;
    var n, s, o := LittleEndian(|f.name|, 4), LittleEndian(f.size, 8), LittleEndian(f.offset, 8);
    HoldsParts(stream, at, n + f.name + s, o);
    HoldsParts(stream, at, n + f.name, s);
    HoldsParts(stream, at, n, f.name);
  }

  lemma EntryThere(stream: Bytes, at: nat, f: FileInfo)
    requires Holds(stream, at, LittleEndian(|f.name|, 4)) && Holds(stream, at + 4, f.name)
    requires Holds(stream, at + 4 + |f.name|, LittleEndian(f.size, 8))
    requires Holds(stream, at + 12 + |f.name|, LittleEndian(f.offset, 8))
    ensures Holds(stream, at, Entry(f)) && |Entry(f)| == 20 + |f.name|
  {
    hide LittleEndian, Holds;
    var n, s, o := LittleEndian(|f.name|, 4), LittleEndian(f.size, 8), LittleEndian(f.offset, 8);
    HoldsBoth(stream, at, n, f.name);
    HoldsBoth(stream, at, n + f.name, s);
    HoldsBoth(stream, at, n + f.name + s, o);
  }

  lemma HoldsBoth(stream: Bytes, at: nat, a: Bytes, b: Bytes)
    requires Holds(stream, at, a) && Holds(stream, at + |a|, b)
    ensures Holds(stream, at, a + b)
  {
    assert stream[at..at + |a + b|] == stream[at..at + |a|] + stream[at + |a|..at + |a| + |b|];
  }

  class RMPackReader {
    const stream: Bytes
    const parses: Bytes -> bool
    var pos: nat
    var failed: bool
    var config: Bytes
    var files: seq<FileInfo>
    var memory: map<Bytes, Bytes>

    ghost predicate Valid()
      reads this
    {
      && pos <= |stream|
      && forall name :: name in memory ==>
        var k := FirstNamed(files, name); k < |files| && Readable(files[k]) && memory[name] == Content(files[k])
    }

    /** An empty file is read without looking at the stream. */
    predicate Readable(f: FileInfo) {
      f.size == 0 || f.offset + f.size <= |stream|
    }

    /** What the stream holds where the table says a file is. */
    function Content(f: FileInfo): Bytes
      requires Readable(f)
    {
      if f.size == 0 then [] else stream[f.offset..f.offset + f.size]
    }

    constructor (stream: Bytes, parses: Bytes -> bool)
      ensures Valid() && this.stream == stream && this.parses == parses
      ensures pos == 0 && !failed && files == [] && memory == map[]
    {
      this.stream, this.parses, pos, failed, config, files, memory := stream, parses, 0, false, [], [], map[];
    }

    /** `ifstream::read`: too few bytes left, or an earlier failure, and the stream stays failed. */
    method Read(n: nat) returns (data: Bytes)
      modifies this`pos, this`failed
      ensures old(pos) <= |stream| ==> pos <= |stream|
      ensures failed == (old(failed) || (0 < n && old(pos) + n > |stream|))
      ensures !failed ==> pos == old(pos) + n && |data| == n && (old(pos) <= |stream| ==> Holds(stream, old(pos), data))
      ensures !failed && 0 < n ==> data == stream[old(pos)..old(pos) + n]
    {
      if failed { return []; }
      if 0 < n && pos + n > |stream| {
        data, pos, failed := [], |stream|, true;
      } else {
        data, pos := if n == 0 then [] else stream[pos..pos + n], pos + n;
      }
    }

    method ReadNumber(k: nat, ghost m: nat) returns (n: nat)
      requires pos <= |stream|
      modifies this`pos, this`failed
      ensures pos <= |stream| && (old(failed) ==> failed)
      ensures !failed ==> pos == old(pos) + k && n < Limit(k) && Holds(stream, old(pos), LittleEndian(n, k))
      ensures !old(failed) && m < Limit(k) && Holds(stream, old(pos), LittleEndian(m, k)) ==> !failed && n == m
    {
      var data := Read(k);
      n := Number(data);
      BytesOf(data);
      if m < Limit(k) { NumberOf(m, k); }
    }

    /** A name behind its length. */
    method ReadName(ghost expected: Bytes) returns (name: Bytes)
      requires pos <= |stream|
      modifies this`pos, this`failed
      ensures pos <= |stream| && (old(failed) ==> failed)
      ensures !failed ==> pos == old(pos) + 4 + |name| && |name| < Limit(4) && NameThere(old(pos), name)
      ensures !old(failed) && |expected| < Limit(4) && NameThere(old(pos), expected) ==> !failed && name == expected
    {
      hide Number, LittleEndian, Limit;
      name := [];
      var length := ReadNumber(4, |expected|);
      if failed { return; }
      name := Read(length);
    }

    ghost predicate NameThere(at: nat, name: Bytes) {
      Holds(stream, at, LittleEndian(|name|, 4)) && Holds(stream, at + 4, name)
    }

    /** Two numbers of eight bytes. */
    method ReadPair(ghost a: nat, ghost b: nat) returns (x: nat, y: nat)
      requires pos <= |stream|
      modifies this`pos, this`failed
      ensures pos <= |stream| && (old(failed) ==> failed)
      ensures !failed ==> pos == old(pos) + 16 && x < Limit(8) && y < Limit(8) && PairThere(old(pos), x, y)
      ensures !old(failed) && a < Limit(8) && b < Limit(8) && PairThere(old(pos), a, b) ==> !failed && x == a && y == b
    {
      hide Number, LittleEndian, Limit, Holds;
      y := 0;
      x := ReadNumber(8, a);
      if failed { return; }
      y := ReadNumber(8, b);
    }

    ghost predicate PairThere(at: nat, x: nat, y: nat) {
      Holds(stream, at, LittleEndian(x, 8)) && Holds(stream, at + 8, LittleEndian(y, 8))
    }

    /** One row of the file table (src/rmpack.cpp:97-124). */
    method ReadEntry(ghost f: FileInfo) returns (info: FileInfo)
      requires pos <= |stream|
      modifies this`pos, this`failed
      ensures pos <= |stream| && (old(failed) ==> failed)
      ensures !failed ==> pos == old(pos) + |Entry(info)| && Holds(stream, old(pos), Entry(info)) && EntryFits(info)
      ensures !old(failed) && EntryFits(f) && Holds(stream, old(pos), Entry(f)) ==> !failed && info == f
    {
      hide LittleEndian, Limit, Entry, Holds, NameThere, PairThere;
      ghost var start := pos;
      EntryIs(pos, f);
      info := FileInfo([], 0, 0);
      var name := ReadName(f.name);
      if failed { return; }
      var size, offset := ReadPair(f.size, f.offset);
      if failed { return; }
      info := FileInfo(name, size, offset);
      EntryIs(start, info);
    }

    lemma EntryIs(at: nat, f: FileInfo)
      ensures Holds(stream, at, Entry(f)) <==> NameThere(at, f.name) && PairThere(at + 4 + |f.name|, f.size, f.offset)
      ensures |Entry(f)| == 20 + |f.name|
    {
      if Holds(stream, at, Entry(f)) { EntryParts(stream, at, f); }
      hide LittleEndian, Entry, Holds;
      if NameThere(at, f.name) && PairThere(at + 4 + |f.name|, f.size, f.offset) { EntryThere(stream, at, f); }
    }

    /** Opening a pack (src/rmpack.cpp:46-125).  It succeeds only on a stream that starts with the header it
        reports, and on every stream that starts with the header of a configuration it can parse. */
    method LoadFile(ghost c: Bytes, ghost fs: seq<FileInfo>) returns (error: Option<Error>)
      requires pos == 0 && !failed && files == [] && memory == map[]
      modifies this
      ensures Valid() && memory == map[]
      ensures error.None? ==> !failed && Header(config, files) <= stream && Encodable(config, files) && parses(config)
      ensures Encodable(c, fs) && Header(c, fs) <= stream && parses(c) ==> error.None? && config == c && files == fs
    {
      hide LittleEndian, Limit, Entries, Entry, Header, NameThere, TableThere, Holds;
      HeaderIs(c, fs);
      var ok := ReadMagic();
      if failed { return Some(Truncated); }
      if !ok { return Some(InvalidFormat); }
      config := ReadName(c);
      if failed { return Some(Truncated); }
      if !parses(config) { return Some(BadConfig); }
      error := LoadTable(c, fs);
      HeaderIs(config, files);
    }

    method ReadMagic() returns (ok: bool)
      requires pos == 0 && !failed
      modifies this`pos, this`failed
      ensures pos <= |stream| && (!failed && ok <==> Holds(stream, 0, MAGIC)) && (!failed ==> pos == 8)
    {
      var header := Read(|MAGIC|);
      ok := header == MAGIC;
    }

    /** The number of files, and their table. */
    method LoadTable(ghost c: Bytes, ghost fs: seq<FileInfo>) returns (error: Option<Error>)
      requires pos <= |stream| && !failed && files == []
      modifies this`pos, this`failed, this`files
      ensures pos <= |stream|
      ensures error.None? ==> !failed && |files| < Limit(4) && TableThere(old(pos), files)
      ensures error.None? ==> forall i :: 0 <= i < |files| ==> EntryFits(files[i])
      ensures |fs| < Limit(4) && TableThere(old(pos), fs) && (forall i :: 0 <= i < |fs| ==> EntryFits(fs[i])) ==>
        error.None? && files == fs
    {
      hide LittleEndian, Limit, Entries, EntryFits, Holds;
      var count := ReadNumber(4, |fs|);
      if failed { return Some(Truncated); }
      error := LoadEntries(count, c, fs);
    }

    ghost predicate TableThere(at: nat, fs: seq<FileInfo>) {
      Holds(stream, at, LittleEndian(|fs|, 4)) && Holds(stream, at + 4, Entries(fs))
    }

    lemma HeaderIs(c: Bytes, fs: seq<FileInfo>)
      ensures Header(c, fs) <= stream <==> Holds(stream, 0, MAGIC) && NameThere(8, c) && TableThere(12 + |c|, fs)
    {
      hide LittleEndian, Entries, Holds, Header;
      if Header(c, fs) <= stream { HeaderParts(stream, c, fs); }
      if Holds(stream, 0, MAGIC) && NameThere(8, c) && TableThere(12 + |c|, fs) { HeaderThere(stream, c, fs); }
    }

    /** The file table. */
    method LoadEntries(count: nat, ghost c: Bytes, ghost fs: seq<FileInfo>) returns (error: Option<Error>)
      requires pos <= |stream| && !failed && files == []
      modifies this`pos, this`failed, this`files
      ensures pos <= |stream|
      ensures error.None? ==> !failed && |files| == count && Holds(stream, old(pos), Entries(files))
      ensures error.None? ==> forall i :: 0 <= i < |files| ==> EntryFits(files[i])
      ensures |fs| == count && Holds(stream, old(pos), Entries(fs)) ==>
        (forall i :: 0 <= i < |fs| ==> EntryFits(fs[i])) ==>
        error.None? && files == fs
    {
      hide Holds, Entry, Entries;
      ghost var start, good := pos, |fs| == count && (forall i :: 0 <= i < |fs| ==> EntryFits(fs[i])) &&
        Holds(stream, pos, Entries(fs));
      NoEntries(stream, start);
      for i := 0 to count
        invariant pos <= |stream| && !failed && |files| == i && pos == start + |Entries(files)|
        invariant Holds(stream, start, Entries(files)) && forall k :: 0 <= k < i ==> EntryFits(files[k])
        invariant good ==> files == fs[..i] && Holds(stream, pos, Entries(fs[i..]))
      {
        ghost var expected := if good then fs[i] else FileInfo([], 0, 0);
        if good { NextEntry(stream, pos, fs, i); }
        var info := ReadEntry(expected);
        if failed { return Some(Truncated); }
        EntriesSnoc(files, info);
        HoldsBoth(stream, start, Entries(files), Entry(info));
        files := files + [info];
      }
      return None;
    }

    /** `getFileInfo` (src/rmpack.cpp:135-142). */
    method GetFileInfo(name: Bytes) returns (k: nat)
      ensures k == FirstNamed(files, name)
    {
      k := 0;
      while k < |files| && files[k].name != name
        invariant k <= |files| && FirstNamed(files[k..], name) + k == FirstNamed(files, name)
      {
        assert files[k..][1..] == files[k + 1..];
        k := k + 1;
      }
    }

    /** The bytes of a file, read once and kept (src/rmpack.cpp:187-222). */
    method ReadFileToMemory(name: Bytes) returns (result: Result<Bytes>)
      requires Valid()
      modifies this`pos, this`failed, this`memory
      ensures Valid()
      ensures var k := FirstNamed(files, name);
        if name in old(memory) then
          result == Ok(old(memory)[name]) && memory == old(memory) && failed == old(failed)
        else if k == |files| then
          result == Err(NotFound) && memory == old(memory) && failed == old(failed)
        else if old(failed) then
          result == Err(SeekFailed) && memory == old(memory) && failed
        else if !Readable(files[k]) then
          result == Err(ReadFailed) && memory == old(memory) && failed
        else
          result == Ok(Content(files[k])) && memory == old(memory)[name := Content(files[k])] &&
          !failed && pos == old(pos)
    {
      hide FirstNamed, Content;
      if name in memory { return Ok(memory[name]); }
      var k := GetFileInfo(name);
      if k == |files| { return Err(NotFound); }
      if failed { return Err(SeekFailed); }
      var info := files[k];
      if !Readable(info) {
        failed := true;
        return Err(ReadFailed);
      }
      var data := Fetch(info);
      memory := memory[name := data];
      return Ok(data);
    }

    /** Seek there, read, seek back (lines 200-214). */
    method Fetch(info: FileInfo) returns (data: Bytes)
      requires pos <= |stream| && !failed && Readable(info)
      modifies this`pos, this`failed
      ensures data == Content(info) && !failed && pos == old(pos)
    {
      var current := pos;
      pos := info.offset;
      data := Read(info.size);
      pos := current;
    }

    /** src/rmpack.cpp:224-235 */
    method FreeFileMemory(name: Bytes)
      requires Valid()
      modifies this`memory
      ensures Valid() && memory == old(memory) - {name}
    {
      memory := memory - {name};
    }

    /** A file given up and asked for again comes back as it was, unless some read has failed before: then the
        bytes that were kept cannot be had a second time.  The other files kept stay kept. */
    method ReadAgain(name: Bytes) returns (first: Result<Bytes>, again: Result<Bytes>)
      requires Valid()
      modifies this`pos, this`failed, this`memory
      ensures Valid()
      ensures var k := FirstNamed(files, name);
        && (again.Ok? <==> k < |files| && !old(failed) && Readable(files[k]))
        && (again.Ok? ==> first == again == Ok(Content(files[k])))
        && (again.Err? ==> again.error == if k == |files| then NotFound else SeekFailed)
      ensures first.Ok? && again.Err? <==> old(failed) && name in old(memory)
      ensures memory - {name} == old(memory) - {name} && (name in memory <==> again.Ok?)
    {
      hide FirstNamed, Content;
      first := ReadFileToMemory(name);
      if first.Ok? { Kept(old(memory), name, first.value); }
      FreeFileMemory(name);
      again := ReadFileToMemory(name);
      if again.Ok? { Kept(old(memory) - {name}, name, again.value); }
    }

    static lemma Kept(kept: map<Bytes, Bytes>, name: Bytes, data: Bytes)
      ensures kept[name := data] - {name} == kept - {name} == kept - {name} - {name}
    {
    }

    static lemma NoEntries(stream: Bytes, start: nat)
      requires start <= |stream|
      ensures Entries([]) == [] && Holds(stream, start, Entries([]))
    {
    }

    static lemma NextEntry(stream: Bytes, at: nat, fs: seq<FileInfo>, i: nat)
      requires i < |fs| && Holds(stream, at, Entries(fs[i..]))
      ensures Holds(stream, at, Entry(fs[i])) && Holds(stream, at + |Entry(fs[i])|, Entries(fs[i + 1..]))
    {
      assert fs[i..][1..] == fs[i + 1..];
      HoldsParts(stream, at, Entry(fs[i]), Entries(fs[i + 1..]));
    }
  }

  lemma HeaderThere(stream: Bytes, config: Bytes, files: seq<FileInfo>)
    requires Holds(stream, 0, MAGIC) && Holds(stream, 8, LittleEndian(|config|, 4))
    requires Holds(stream, 12, config) && Holds(stream, 12 + |config|, LittleEndian(|files|, 4))
    requires Holds(stream, 16 + |config|, Entries(files))
    ensures Header(config, files) <= stream
  {
    hide LittleEndian, Entries, Holds;
    var e, n, l := Entries(files), LittleEndian(|files|, 4), LittleEndian(|config|, 4);
    HoldsBoth(stream, 0, MAGIC, l);
    HoldsBoth(stream, 0, MAGIC + l, config);
    HoldsBoth(stream, 0, MAGIC + l + config, n);
    HoldsBoth(stream, 0, MAGIC + l + config + n, e);
    HoldsPrefix(stream, Header(config, files));
  }

  lemma HoldsPrefix(stream: Bytes, piece: Bytes)
    requires Holds(stream, 0, piece)
    ensures piece <= stream
  {
  }

  /** Packing and reading back under every name, in the order of the files.  What comes back is what stands one shift
      in front of the first file of that name; with both header sizes aligned to the same boundary it is that file, and
      with no name twice everything returns. */
  method RoundTrip(packer: RWKVModelPacker, parses: Bytes -> bool) returns (packed: Option<Bytes>, contents: seq<Bytes>)
    requires packer.Valid() && parses(packer.config)
    modifies packer
    ensures |packer.files| == |packer.binaryData| && packer.binaryData == old(packer.binaryData)
    ensures |old(packer.files)| == |packer.files| && forall i :: 0 <= i < |packer.files| ==>
      && packer.files[i].name == old(packer.files)[i].name && packer.files[i].size == |packer.binaryData[i]|
      && packer.files[i].offset == Place(SizesOf(packer.binaryData), HeaderSize(packer.config, packer.files, 8), i)
    ensures packed.Some? <==> Encodable(packer.config, packer.files)
    ensures packed.Some? ==> Header(packer.config, packer.files) <= packed.value
    ensures packed.Some? ==> |contents| == |packer.files| && forall i :: 0 <= i < |contents| ==>
      ComesBack(packed.value, packer.config, packer.files, packer.binaryData, NamedLike(packer.files, i), contents[i])
    ensures packed.Some? && Shift(packer.config, packer.files) == 0 && NoNameTwice(packer.files) ==>
      contents == packer.binaryData
  {
    hide Place, HeaderSize, Header, Encodable, Holds, FirstNamed, ComesBack, Shift, RMPackReader.Content;
    ghost var before := packer.files;
    packed := packer.Pack();
    contents := [];
    SameHeaderSizes(packer.config, before, packer.files);
    if packed.None? { return; }
    var reader := new RMPackReader(packed.value, parses);
    var error := reader.LoadFile(packer.config, packer.files);
    forall i | 0 <= i < |packer.files| ensures packer.files[i].offset + packer.files[i].size <= |packed.value| {
      InBounds(packed.value, packer.config, packer.files, packer.binaryData, i);
    }
    contents := ReadAll(reader, packer.files);
    forall i | 0 <= i < |contents|
      ensures ComesBack(packed.value, packer.config, packer.files, packer.binaryData, NamedLike(packer.files, i),
                        contents[i])
      ensures Shift(packer.config, packer.files) == 0 && NoNameTwice(packer.files) ==>
        contents[i] == packer.binaryData[i]
    {
      var k := NamedLike(packer.files, i);
      ReadBack(packed.value, packer.config, packer.files, packer.binaryData, k, contents[i], reader);
      if NoNameTwice(packer.files) { DistinctFirst(packer.files, i); }
    }
  }

  /** The first file with the name of file `i`. */
  function NamedLike(files: seq<FileInfo>, i: nat): (k: nat)
    requires i < |files|
    ensures k <= i && files[k].name == files[i].name
  {
    FirstOf(files, i);
    FirstNamed(files, files[i].name)
  }

  lemma {:induction false} FirstOf(files: seq<FileInfo>, i: nat)
    requires i < |files|
    ensures var k := FirstNamed(files, files[i].name); k <= i && files[k].name == files[i].name
    decreases i
  {
    if files[0].name != files[i].name { FirstOf(files[1..], i - 1); }
  }

  ghost predicate NoNameTwice(files: seq<FileInfo>) {
    forall i, j :: 0 <= i < j < |files| ==> files[i].name != files[j].name
  }

  /** `content` is what stands one shift in front of file `k`, and that file when the shift is zero. */
  ghost predicate ComesBack(stream: Bytes, config: Bytes, files: seq<FileInfo>, data: seq<Bytes>, k: nat,
                            content: Bytes)
    requires k < |data| == |files|
  {
    var at := Place(SizesOf(data), HeaderSize(config, files, 16), k) - Shift(config, files);
    && 0 <= at && Holds(stream, at, content) && |content| == |data[k]|
    && (Shift(config, files) == 0 ==> content == data[k])
  }

  /** A read for every file, by its name. */
  method ReadAll(reader: RMPackReader, files: seq<FileInfo>) returns (contents: seq<Bytes>)
    requires reader.Valid() && !reader.failed && reader.memory == map[] && reader.files == files
    requires forall i :: 0 <= i < |files| ==> files[i].offset + files[i].size <= |reader.stream|
    modifies reader
    ensures |contents| == |files|
    ensures forall i :: 0 <= i < |files| ==> contents[i] == reader.Content(files[NamedLike(files, i)])
  {
    hide FirstNamed, RMPackReader.Content;
    contents := [];
    for i := 0 to |files|
      invariant reader.Valid() && !reader.failed && reader.files == files && |contents| == i
      invariant forall k :: 0 <= k < i ==> contents[k] == reader.Content(files[NamedLike(files, k)])
    {
      ghost var first := NamedLike(files, i);
      var result := reader.ReadFileToMemory(files[i].name);
      contents := contents + [result.value];
    }
  }

  lemma InBounds(stream: Bytes, config: Bytes, files: seq<FileInfo>, data: seq<Bytes>, i: nat)
    requires i < |files| == |data| && files[i].size == |data[i]|
    requires files[i].offset == Place(SizesOf(data), HeaderSize(config, files, 8), i)
    requires Holds(stream, Place(SizesOf(data), HeaderSize(config, files, 16), i), data[i])
    ensures files[i].offset + files[i].size <= |stream|
  {
    hide Place, HeaderSize, Shift;
    OffsetsShift(config, files, SizesOf(data), i);
  }

  lemma DistinctFirst(files: seq<FileInfo>, i: nat)
    requires i < |files| && NoNameTwice(files)
    ensures NamedLike(files, i) == i
  {
  }

  lemma ReadBack(stream: Bytes, config: Bytes, files: seq<FileInfo>, data: seq<Bytes>, i: nat, content: Bytes,
                 reader: RMPackReader)
    requires i < |files| == |data| && reader.stream == stream
    requires reader.Readable(files[i]) && content == reader.Content(files[i])
    requires files[i].size == |data[i]| && files[i].offset == Place(SizesOf(data), HeaderSize(config, files, 8), i)
    requires Holds(stream, Place(SizesOf(data), HeaderSize(config, files, 16), i), data[i])
    requires files[i].offset + files[i].size <= |stream|
    ensures ComesBack(stream, config, files, data, i, content)
    ensures Shift(config, files) == 0 ==> content == data[i]
  {
    hide Place, HeaderSize, Shift;
    OffsetsShift(config, files, SizesOf(data), i);
  }

  lemma {:induction false} SameHeaderSizes(config: Bytes, before: seq<FileInfo>, after: seq<FileInfo>)
    requires |before| == |after| && forall i :: 0 <= i < |before| ==> before[i].name == after[i].name
    ensures HeaderSize(config, before, 8) == HeaderSize(config, after, 8)
  {
    SameEntriesSizes(before, after, 8);
  }

  lemma {:induction false} SameEntriesSizes(before: seq<FileInfo>, after: seq<FileInfo>, width: nat)
    requires |before| == |after| && forall i :: 0 <= i < |before| ==> before[i].name == after[i].name
    ensures EntriesSize(before, width) == EntriesSize(after, width)
    decreases |before|
  {
    if before != [] { SameEntriesSizes(before[..|before| - 1], after[..|after| - 1], width); }
  }

  /** A pack of one file whose header just crosses a boundary: the reader finds eight bytes of header in front. */
  method HeaderCrossesBoundary(config: Bytes, parses: Bytes -> bool) returns (stored: seq<Bytes>, found: seq<Bytes>)
    requires |config| == 4067 && parses(config)
    ensures stored == [[1]] && found == [[0]]
  {
    hide Place, HeaderSize, Header, Encodable, Holds, Shift, SizesOf;
    var packer := new RWKVModelPacker(config);
    packer.AddFileFromBytes([1], [120]);
    var packed, contents := RoundTrip(packer, parses);
    stored, found := packer.binaryData, contents;
    MissesByEight(config, packer.files, packer.binaryData, packed, contents);
  }

  lemma MissesByEight(config: Bytes, files: seq<FileInfo>, data: seq<Bytes>, packed: Option<Bytes>,
                      contents: seq<Bytes>)
    requires |config| == 4067 && |files| == 1 && data == [[1]] && files[0].name == [120] && files[0].size == 1
    requires files[0].offset == Place(SizesOf(data), HeaderSize(config, files, 8), 0)
    requires packed.Some? <==> Encodable(config, files)
    requires packed.Some? ==> Header(config, files) <= packed.value
    requires packed.Some? ==> |contents| == 1 && |contents[0]| == 1
    requires packed.Some? ==>
      var at := Place(SizesOf(data), HeaderSize(config, files, 16), 0) - Shift(config, files);
      0 <= at && Holds(packed.value, at, contents[0])
    ensures contents == [[0]]
  {
    var f := files[0];
    assert files == [f];
    SmallHeader(config, f);
    HeaderParts(packed.value, config, [f]);
    OneEntry(packed.value, 4083, f);
  }

  lemma SmallHeader(config: Bytes, f: FileInfo)
    requires |config| == 4067 && f.name == [120] && f.size == 1
    ensures HeaderSize(config, [f], 8) == 4096 && Align(HeaderSize(config, [f], 8)) == 4096
    ensures Align(HeaderSize(config, [f], 16)) == 8192
    ensures f.offset == 4096 ==> Encodable(config, [f])
  {
    OneSize(f, 8);
    OneSize(f, 16);
    assert Limit(4) == 0x1_0000_0000;
    assert Limit(8) == 256 * (256 * (256 * (256 * Limit(4))));
  }

  lemma OneSize(f: FileInfo, width: nat)
    ensures EntriesSize([f], width) == 4 + |f.name| + width
  {
    assert [f][..0] == [];
    assert EntriesSize([], width) == 0;
  }

  lemma OneEntry(stream: Bytes, at: nat, f: FileInfo)
    requires Holds(stream, at, Entries([f])) && f.name == [120] && f.offset == 4096
    ensures Holds(stream, at + 13, [0])
  {
    hide Entry, Holds, LittleEndian;
    assert Entries([f]) == Entry(f) + Entries([f][1..]);
    HoldsParts(stream, at, Entry(f), Entries([f][1..]));
    EntryParts(stream, at, f);
    LowByte(4096, 7);
    HoldsParts(stream, at + 13, [0], LittleEndian(16, 7));
  }

  lemma LowByte(n: nat, k: nat)
    ensures LittleEndian(n, k + 1) == [(n % 256) as Vocabulary.byte] + LittleEndian(n / 256, k)
  {
  }
}
