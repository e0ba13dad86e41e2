/** The browser's archive builder in its own form: byte arrays filled in place. */
module UstarWriter {
  import opened Ustar

  /** `dst.set(src, at)` */
  method Set(dst: array<byte>, src: seq<byte>, at: nat)
    requires at + |src| <= dst.Length
    modifies dst
    ensures dst[..] == Overlay(old(dst[..]), src, at)
  {
    var i := 0;
    while i < |src|
      invariant 0 <= i <= |src|
      invariant forall k :: 0 <= k < dst.Length ==> dst[k] == if at <= k < at + i then src[k - at] else old(dst[k])
    {
      dst[at + i] := src[i];
      i := i + 1;
    }
  }

  method NewBytes(n: nat) returns (a: array<byte>)
    ensures fresh(a) && a[..] == Zeros(n)
  {
    a := new byte[n](i => NUL);
  }

  /** The data itself when it fills its blocks, else a longer copy. */
  method PadToBlock(data: array<byte>) returns (padded: array<byte>)
    ensures padded[..] == PadBlock(data[..])
    ensures padded == data || fresh(padded)
  {
    var remainder := data.Length % BLOCK;
    if remainder == 0 {
      assert data[..] + Zeros(0) == data[..];
      return data;
    }
    padded := NewBytes(data.Length + (BLOCK - remainder));
    Set(padded, data[..], 0);
    assert padded[..] == data[..] + Zeros(Padding(data.Length));
  }

  lemma {:induction false} SumSplit(a: seq<byte>, b: seq<byte>)
    ensures Sum(a + b) == Sum(a) + Sum(b)
  {
    if b == [] {
      assert a + b == a;
    } else {
      assert (a + b)[..|a + b| - 1] == a + b[..|b| - 1];
      SumSplit(a, b[..|b| - 1]);
    }
  }

  /** Sums all bytes, then exchanges the checksum field's bytes for spaces. */
  method Checksum(header: array<byte>) returns (sum: int)
    requires header.Length == BLOCK
    ensures sum == StandardSum(header[..])
  {
    var h := header[..];
    sum := 0;
    var i := 0;
    while i < BLOCK
      invariant 0 <= i <= BLOCK && sum == Sum(h[..i])
    {
      assert h[..i + 1][..i] == h[..i];
      sum := sum + header[i];
      i := i + 1;
    }
    assert h[..BLOCK] == h;
    i := 148;
    while i < 156
      invariant 148 <= i <= 156
      invariant sum == Sum(h) - Sum(h[148..i]) + 32 * (i - 148)
    {
      assert h[148..i + 1][..i - 148] == h[148..i];
      sum := sum + 32 - header[i];
      i := i + 1;
    }
    SumSplit(h[..148], h[148..156]);
    SumSplit(h[..156], h[156..]);
    assert h == h[..156] + h[156..] && h[..156] == h[..148] + h[148..156];
    var spaces := [SPACE, SPACE, SPACE, SPACE, SPACE, SPACE, SPACE, SPACE];
    EightSpaces();
    SumSplit(h[..148], spaces);
    SumSplit(h[..148] + spaces, h[156..]);
  }

  lemma EightSpaces()
    ensures Sum([SPACE, SPACE, SPACE, SPACE, SPACE, SPACE, SPACE, SPACE]) == 256
  {
    var two: seq<byte> := [SPACE, SPACE];
    assert two[..1] == [SPACE] && [SPACE][..0] == [];
    assert Sum([SPACE]) == 32 && Sum(two) == 64;
    SumSplit(two, two);
    SumSplit(two + two, two + two);
    assert [SPACE, SPACE, SPACE, SPACE, SPACE, SPACE, SPACE, SPACE] == (two + two) + (two + two);
  }

  method BuildHeader(name: seq<byte>, size: nat, now: nat) returns (header: array<byte>)
    requires FieldsFit(size, now)
    ensures fresh(header) && header.Length == BLOCK && header[..] == Header(name, size, now)
  {
    header := NewBytes(BLOCK);
    Set(header, Ascii(name, 100), 0);
    Set(header, Octal(420, 8), 100);
    Set(header, Octal(0, 8), 108);
    Set(header, Octal(0, 8), 116);
    Set(header, Octal(size, 12), 124);
    Set(header, Octal(now, 12), 136);
    Set(header, [SPACE, SPACE, SPACE, SPACE, SPACE, SPACE, SPACE, SPACE], 148);
    Set(header, [REGULAR], 156);
    Set(header, Ascii(USTAR, 6), 257);
    Set(header, Ascii(VERSION, 2), 263);
    Set(header, Ascii(ROOT, 32), 265);
    Set(header, Ascii(ROOT, 32), 297);
    assert header[..] == HeaderBody(name, size, now);
    var chk := Checksum(header);
    SumFits(Blanked(header[..]));
    Set(header, Octal(chk, 8), 148);
  }

  /** A file of the folder to upload. */
  datatype File = File(path: seq<byte>, data: array<byte>)

  function Buffers(files: seq<File>): set<array<byte>> {
    set i | 0 <= i < |files| :: files[i].data
  }

  function Entries(files: seq<File>): (es: seq<Entry>)
    reads Buffers(files)
    ensures |es| == |files|
  {
    seq(|files|, i requires 0 <= i < |files| reads Buffers(files) => Entry(files[i].path, files[i].data[..]))
  }

  function Flat(blocks: seq<seq<byte>>): seq<byte> {
    if blocks == [] then [] else Flat(blocks[..|blocks| - 1]) + blocks[|blocks| - 1]
  }

  lemma FlatSnoc(blocks: seq<seq<byte>>, b: seq<byte>)
    ensures Flat(blocks + [b]) == Flat(blocks) + b
  {
  }

  /** The blocks of the first `n` entries, so that what is left to write is the rest. */
  ghost predicate Written(blocks: seq<seq<byte>>, es: seq<Entry>, clock: seq<nat>, n: nat)
    requires EntriesFit(es, clock)
  {
    n <= |es| && Flat(blocks) + Tar(es[n..], clock[n..]) == Tar(es, clock)
  }

  lemma AddFile(blocks: seq<seq<byte>>, es: seq<Entry>, clock: seq<nat>, n: nat)
    requires EntriesFit(es, clock) && n < |es| && Written(blocks, es, clock, n)
    ensures Written(blocks + [Header(es[n].path, |es[n].data|, clock[n])] + [PadBlock(es[n].data)], es, clock, n + 1)
  {
    var h, d := Header(es[n].path, |es[n].data|, clock[n]), PadBlock(es[n].data);
    var left, times := es[n..], clock[n..];
    assert left[1..] == es[n + 1..] && times[1..] == clock[n + 1..];
    FlatSnoc(blocks, h);
    FlatSnoc(blocks + [h], d);
    Regroup(Flat(blocks), h, d, Tar(left[1..], times[1..]));
  }

  lemma Regroup(a: seq<byte>, b: seq<byte>, c: seq<byte>, d: seq<byte>)
    ensures a + b + c + d == a + (b + c + d)
  {
  }

  lemma AllWritten(blocks: seq<seq<byte>>, es: seq<Entry>, clock: seq<nat>)
    requires EntriesFit(es, clock) && Written(blocks, es, clock, |es|)
    ensures Flat(blocks) + Zeros(2 * BLOCK) == Tar(es, clock)
  {
  }

  lemma EmptyFlat()
    ensures Flat([]) == []
  {
  }

  lemma AddEnd(blocks: seq<seq<byte>>)
    ensures Flat(blocks + [Zeros(BLOCK)] + [Zeros(BLOCK)]) == Flat(blocks) + Zeros(2 * BLOCK)
  {
  }

  /** The blocks laid end to end. */
  method Concatenate(blocks: seq<seq<byte>>) returns (result: array<byte>)
    ensures fresh(result) && result[..] == Flat(blocks)
  {
    var total := 0;
    var i := 0;
    assert blocks[..0] == [];
    while i < |blocks|
      invariant 0 <= i <= |blocks| && total == |Flat(blocks[..i])|
    {
      assert blocks[..i + 1][..i] == blocks[..i];
      total := total + |blocks[i]|;
      i := i + 1;
    }
    assert blocks[..i] == blocks;
    result := NewBytes(total);
    var offset := 0;
    i := 0;
    while i < |blocks|
      invariant 0 <= i <= |blocks|
      invariant offset == |Flat(blocks[..i])| <= total == result.Length
      invariant result[..offset] == Flat(blocks[..i])
    {
      assert blocks[..i + 1][..i] == blocks[..i];
      FlatPrefix(blocks, i + 1);
      Set(result, blocks[i], offset);
      assert result[..offset + |blocks[i]|] == Flat(blocks[..i]) + blocks[i];
      offset := offset + |blocks[i]|;
      i := i + 1;
    }
    assert blocks[..i] == blocks;
  }

  lemma {:induction false} FlatPrefix(blocks: seq<seq<byte>>, n: nat)
    requires n <= |blocks|
    ensures |Flat(blocks[..n])| <= |Flat(blocks)|
    decreases |blocks| - n
  {
    if n == |blocks| {
      assert blocks[..n] == blocks;
    } else {
      FlatPrefix(blocks, n + 1);
      assert blocks[..n + 1][..n] == blocks[..n];
    }
  }

  method FileBlocks(file: File, now: nat) returns (header: seq<byte>, padded: seq<byte>)
    requires FieldsFit(file.data.Length, now)
    ensures header == Header(file.path, file.data.Length, now) && padded == PadBlock(file.data[..])
  {
    var h := BuildHeader(file.path, file.data.Length, now);
    var d := PadToBlock(file.data);
    header, padded := h[..], d[..];
  }

  /** The pushes of the loop over the entries, and the end marker. */
  method TarBlocks(files: seq<File>, clock: seq<nat>) returns (blocks: seq<seq<byte>>)
    requires EntriesFit(Entries(files), clock)
    ensures Flat(blocks) == Tar(old(Entries(files)), clock)
  {
    ghost var es := Entries(files);
    hide Tar, Flat, Header, PadBlock;
    EmptyFlat();
    blocks := [];
    var i := 0;
    assert es[0..] == es && clock[0..] == clock;
    assert Flat([]) + Tar(es, clock) == Tar(es, clock);
    while i < |files|
      invariant 0 <= i <= |files|
      invariant forall k :: 0 <= k < |files| ==> es[k] == Entry(files[k].path, files[k].data[..])
      invariant EntriesFit(es, clock) && Written(blocks, es, clock, i)
    {
      AddFile(blocks, es, clock, i);
      var header, padded := FileBlocks(files[i], clock[i]);
      blocks := blocks + [header] + [padded];
      i := i + 1;
    }
    AddEnd(blocks);
    AllWritten(blocks, es, clock);
    blocks := blocks + [Zeros(BLOCK)] + [Zeros(BLOCK)];
  }

  method BuildTar(files: seq<File>, clock: seq<nat>) returns (result: array<byte>)
    requires EntriesFit(Entries(files), clock)
    ensures fresh(result) && result[..] == Tar(old(Entries(files)), clock)
  {
    var blocks := TarBlocks(files, clock);
    result := Concatenate(blocks);
  }
}
