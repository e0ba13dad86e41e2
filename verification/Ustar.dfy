/** Tar archives: the browser's ustar writer as a function of its entries, and a reader
    written from the "ustar Interchange Format" of the pax utility in IEEE Std
    1003.1-2017 (Shell & Utilities). Paths are given as their UTF-8 bytes. */
module Ustar {
  import opened Wrappers

  type byte = x: int | 0 <= x < 256

  const BLOCK := 512
  const NUL: byte := 0
  const SPACE: byte := 32

  datatype Entry = Entry(path: seq<byte>, data: seq<byte>)

  function Zeros(n: nat): (r: seq<byte>)
    ensures |r| == n && forall i :: 0 <= i < n ==> r[i] == NUL
  {
    seq(n, i => NUL)
  }

  // ----- octal numbers -----

  /** `n.toString(8)` as bytes. */
  function OctalDigits(n: nat): (r: seq<byte>)
    ensures |r| >= 1 && forall i :: 0 <= i < |r| ==> 48 <= r[i] <= 55
  {
    if n < 8 then [48 + n] else OctalDigits(n / 8) + [48 + n % 8]
  }

  /** `padStart(width, "0")` */
  function PadStart(s: seq<byte>, width: nat): (r: seq<byte>)
    ensures |r| == if |s| < width then width else |s|
    decreases width - |s|
  {
    if |s| >= width then s else PadStart([48] + s, width)
  }

  /** A number in a field: its octal digits, at least `width - 1` of them, and a NUL. */
  function Octal(n: nat, width: nat): (r: seq<byte>)
    requires width > 0
    ensures |r| >= width
  {
    PadStart(OctalDigits(n), width - 1) + [NUL]
  }

  function Pow8(k: nat): (p: nat)
    ensures p >= 1
  {
    if k == 0 then 1 else 8 * Pow8(k - 1)
  }

  // ----- text fields -----

  function Min(a: nat, b: nat): nat { if a < b then a else b }

  /** At most `width - 1` bytes of `s`, and NULs up to `width`. */
  function Ascii(s: seq<byte>, width: nat): (r: seq<byte>)
    requires width > 0
    ensures |r| == width
  {
    var n := Min(|s|, width - 1);
    s[..n] + Zeros(width - n)
  }

  // ----- a header -----

  /** `dst.set(src, at)` */
  function Overlay(dst: seq<byte>, src: seq<byte>, at: nat): (r: seq<byte>)
    requires at + |src| <= |dst|
    ensures |r| == |dst|
    ensures forall i :: 0 <= i < |r| ==> r[i] == if at <= i < at + |src| then src[i - at] else dst[i]
  {
    dst[..at] + src + dst[at + |src|..]
  }

  function Sum(s: seq<byte>): (n: nat)
    ensures n <= 255 * |s|
  {
    if s == [] then 0 else Sum(s[..|s| - 1]) + s[|s| - 1]
  }

  /** The header with its checksum field read as spaces. */
  function Blanked(h: seq<byte>): (r: seq<byte>)
    requires |h| == BLOCK
    ensures |r| == BLOCK
  {
    Overlay(h, [SPACE, SPACE, SPACE, SPACE, SPACE, SPACE, SPACE, SPACE], 148)
  }

  /** The standard's checksum. */
  function StandardSum(h: seq<byte>): nat
    requires |h| == BLOCK
  {
    Sum(Blanked(h))
  }

  const USTAR: seq<byte> := [117, 115, 116, 97, 114]
  const ROOT: seq<byte> := [114, 111, 111, 116]
  const VERSION: seq<byte> := [48, 48]
  const REGULAR: byte := 48

  /** The header before its checksum is known. */
  function HeaderBody(path: seq<byte>, size: nat, mtime: nat): (h: seq<byte>)
    requires FieldsFit(size, mtime)
    ensures |h| == BLOCK
  {
    var h7 := Blanked(HeaderFront(path, size, mtime));
    var h8 := Overlay(h7, [REGULAR], 156);
    var h9 := Overlay(h8, Ascii(USTAR, 6), 257);
    var h10 := Overlay(h9, Ascii(VERSION, 2), 263);
    var h11 := Overlay(h10, Ascii(ROOT, 32), 265);
    Overlay(h11, Ascii(ROOT, 32), 297)
  }

  /** Path, mode, owners, size and time. */
  function HeaderFront(path: seq<byte>, size: nat, mtime: nat): (h: seq<byte>)
    requires FieldsFit(size, mtime)
    ensures |h| == BLOCK
  {
    var h0 := Zeros(BLOCK);
    var h1 := Overlay(h0, Ascii(path, 100), 0);
    var h2 := Overlay(h1, Octal(420, 8), 100);
    var h3 := Overlay(h2, Octal(0, 8), 108);
    var h4 := Overlay(h3, Octal(0, 8), 116);
    var h5 := Overlay(h4, Octal(size, 12), 124);
    Overlay(h5, Octal(mtime, 12), 136)
  }

  /** JavaScript sizes and dates are exact integers below 2^53: at most 18 octal digits, so an
      over-long number spills into fields that are written after it. */
  predicate FieldsFit(size: nat, mtime: nat) {
    |OctalDigits(size)| <= 18 && |OctalDigits(mtime)| <= 18
  }

  function Header(path: seq<byte>, size: nat, mtime: nat): (h: seq<byte>)
    requires FieldsFit(size, mtime)
    ensures |h| == BLOCK
  {
    var h := HeaderBody(path, size, mtime);
    SumFits(Blanked(h));
    Overlay(h, Octal(StandardSum(h), 8), 148)
  }

  // ----- an archive -----

  function Padding(n: nat): nat {
    (BLOCK - n % BLOCK) % BLOCK
  }

  function PadBlock(data: seq<byte>): seq<byte> {
    data + Zeros(Padding(|data|))
  }

  /** One clock reading per entry. */
  predicate EntriesFit(es: seq<Entry>, clock: seq<nat>) {
    |clock| == |es| && forall i :: 0 <= i < |es| ==> FieldsFit(|es[i].data|, clock[i])
  }

  function Tar(es: seq<Entry>, clock: seq<nat>): seq<byte>
    requires EntriesFit(es, clock)
  {
    if es == [] then Zeros(2 * BLOCK)
    else Header(es[0].path, |es[0].data|, clock[0]) + PadBlock(es[0].data) + Tar(es[1..], clock[1..])
  }

  // ----- the reader -----

  /** A numeric field: octal digits ended by a space or NUL. None if the field has no terminator
      or another byte. */
  function ReadOctal(f: seq<byte>, value: nat): Option<nat> {
    if f == [] then None
    else if f[0] == NUL || f[0] == SPACE then Some(value)
    else if 48 <= f[0] <= 55 then ReadOctal(f[1..], 8 * value + (f[0] - 48))
    else None
  }

  /** A text field: the bytes before the first NUL, or all of them. */
  function CString(f: seq<byte>): (r: seq<byte>)
    ensures |r| <= |f| && r == f[..|r|] && NUL !in r && (|r| < |f| ==> f[|r|] == NUL)
  {
    if f == [] || f[0] == NUL then [] else [f[0]] + CString(f[1..])
  }

  /** A header's path: the name field, after the prefix field and a slash if there is a prefix. */
  function ReadPath(h: seq<byte>): seq<byte>
    requires |h| == BLOCK
  {
    var name, prefix := CString(h[0..100]), CString(h[345..500]);
    if prefix == [] then name else prefix + [47] + name
  }

  /** The size of the entry a header announces, if the header is a valid one of a regular file. */
  function ReadHeader(h: seq<byte>): Option<nat>
    requires |h| == BLOCK
  {
    if ReadOctal(h[148..156], 0) != Some(StandardSum(h)) || h[257..263] != USTAR + [NUL]
       || !(h[156] == REGULAR || h[156] == NUL)
    then None
    else ReadOctal(h[124..136], 0)
  }

  /** Entries up to the two zero blocks that end an archive. */
  function Read(b: seq<byte>): Option<seq<Entry>>
    decreases |b|, 1
  {
    if |b| < 2 * BLOCK then None
    else
      var h, rest := b[..BLOCK], b[BLOCK..];
      if h == Zeros(BLOCK) then
        if rest[..BLOCK] == Zeros(BLOCK) then Some([]) else None
      else
        match ReadHeader(h)
        case None => None
        case Some(size) => ReadFile(ReadPath(h), size, rest)
  }

  /** A file's bytes, the padding of its last block, and the entries after it. */
  function ReadFile(path: seq<byte>, size: nat, b: seq<byte>): Option<seq<Entry>>
    decreases |b|, 2
  {
    var end := size + Padding(size);
    if |b| < end then None
    else Prepend(Entry(path, b[..size]), Read(b[end..]))
  }

  function Prepend(e: Entry, rest: Option<seq<Entry>>): Option<seq<Entry>> {
    if rest.None? then None else Some([e] + rest.value)
  }

  // ----- lemmas: numbers -----

  lemma {:induction false} DigitsBound(n: nat, k: nat)
    requires k >= 1
    ensures |OctalDigits(n)| <= k <==> n < Pow8(k)
  {
    if n >= 8 && k >= 2 {
      DigitsBound(n / 8, k - 1);
    } else if n < 8 {
      assert Pow8(k) >= 8;
    }
  }

  function DigitsValue(s: seq<byte>, value: nat): nat
    requires forall i :: 0 <= i < |s| ==> 48 <= s[i] <= 55
  {
    if s == [] then value else 8 * DigitsValue(s[..|s| - 1], value) + (s[|s| - 1] - 48)
  }

  lemma {:induction false} DigitsRoundTrip(n: nat)
    ensures DigitsValue(OctalDigits(n), 0) == n
  {
    var s := OctalDigits(n);
    if n >= 8 {
      DigitsRoundTrip(n / 8);
      assert s[..|s| - 1] == OctalDigits(n / 8);
    } else {
      assert s[..0] == [];
    }
  }

  lemma {:induction false} DigitsValueFront(s: seq<byte>, value: nat)
    requires s != [] && forall i :: 0 <= i < |s| ==> 48 <= s[i] <= 55
    ensures DigitsValue(s, value) == DigitsValue(s[1..], 8 * value + (s[0] - 48))
  {
    if |s| == 1 {
      assert s[..0] == [] && s[1..] == [];
    } else {
      DigitsValueFront(s[..|s| - 1], value);
      assert s[..|s| - 1][1..] == s[1..][..|s| - 2];
    }
  }

  lemma {:induction false} PadStartValue(s: seq<byte>, width: nat)
    requires forall i :: 0 <= i < |s| ==> 48 <= s[i] <= 55
    ensures forall i :: 0 <= i < |PadStart(s, width)| ==> 48 <= PadStart(s, width)[i] <= 55
    ensures DigitsValue(PadStart(s, width), 0) == DigitsValue(s, 0)
    decreases width - |s|
  {
    if |s| < width {
      PadStartValue([48] + s, width);
      DigitsValueFront([48] + s, 0);
      assert ([48] + s)[1..] == s;
    }
  }

  lemma {:induction false} ReadDigits(s: seq<byte>, rest: seq<byte>, value: nat)
    requires forall i :: 0 <= i < |s| ==> 48 <= s[i] <= 55
    requires rest == [] || rest[0] == NUL || rest[0] == SPACE
    ensures ReadOctal(s + rest, value) == if rest == [] then None else Some(DigitsValue(s, value))
  {
    if s == [] {
      assert s + rest == rest;
    } else {
      DigitsValueFront(s, value);
      ReadDigits(s[1..], rest, 8 * value + (s[0] - 48));
      assert (s + rest)[1..] == s[1..] + rest;
    }
  }

  /** Reading a number back from its field gives the number exactly when it fits. */
  lemma OctalRoundTrip(n: nat, width: nat)
    requires width >= 2
    ensures ReadOctal(Octal(n, width)[..width], 0) == if n < Pow8(width - 1) then Some(n) else None
    ensures |Octal(n, width)| == width <==> n < Pow8(width - 1)
  {
    hide OctalDigits, PadStart, DigitsValue, Pow8, ReadOctal;
    var digits := OctalDigits(n);
    var padded := PadStart(digits, width - 1);
    DigitsBound(n, width - 1);
    DigitsRoundTrip(n);
    PadStartValue(digits, width - 1);
    FieldReads(padded, width);
  }

  lemma FieldReads(padded: seq<byte>, width: nat)
    requires width >= 1 && |padded| >= width - 1 && forall i :: 0 <= i < |padded| ==> 48 <= padded[i] <= 55
    ensures ReadOctal((padded + [NUL])[..width], 0) == if |padded| == width - 1 then Some(DigitsValue(padded, 0)) else None
  {
    hide DigitsValue, ReadOctal;
    if |padded| == width - 1 {
      ReadDigits(padded, [NUL], 0);
      assert (padded + [NUL])[..width] == padded + [NUL];
    } else {
      ReadDigits(padded[..width], [], 0);
      assert (padded + [NUL])[..width] == padded[..width] + [];
    }
  }

  // ----- lemmas: checksums -----

  lemma SumFits(h: seq<byte>)
    requires |h| == BLOCK
    ensures Sum(h) < Pow8(7) && |Octal(Sum(h), 8)| == 8
  {
    assert Pow8(7) == 2097152 by {
      assert Pow8(1) == 8 && Pow8(2) == 64 && Pow8(3) == 512 && Pow8(4) == 4096 && Pow8(5) == 32768;
    }
    OctalRoundTrip(Sum(h), 8);
  }

  /** The stored checksum is the standard's, whatever is in the field when it is computed. */
  lemma ChecksumIsStandard(path: seq<byte>, size: nat, mtime: nat)
    requires FieldsFit(size, mtime)
    ensures var h := Header(path, size, mtime);
      && Blanked(h) == Blanked(HeaderBody(path, size, mtime))
      && ReadOctal(h[148..156], 0) == Some(StandardSum(h))
  {
    var body := HeaderBody(path, size, mtime);
    var h := Header(path, size, mtime);
    SumFits(Blanked(body));
    assert Blanked(h) == Blanked(body);
    var f := Octal(StandardSum(body), 8);
    OctalRoundTrip(StandardSum(body), 8);
    assert h[148..156] == f[..8];
  }

  // ----- lemmas: the fields of a header -----

  /** The fields written before the checksum. */
  predicate HasFields(h: seq<byte>, path: seq<byte>, size: nat)
    requires |h| == BLOCK
  {
    && (forall i :: 0 <= i < 100 ==> h[i] == Ascii(path, 100)[i])
    && h[100] == 48
    && (forall i :: 124 <= i < 136 ==> h[i] == Octal(size, 12)[i - 124])
    && h[156] == REGULAR
    && (forall i :: 257 <= i < 263 ==> h[i] == Ascii(USTAR, 6)[i - 257])
    && (forall i :: 345 <= i < 500 ==> h[i] == NUL)
  }

  lemma BodyFields(path: seq<byte>, size: nat, mtime: nat)
    requires FieldsFit(size, mtime)
    ensures HasFields(HeaderBody(path, size, mtime), path, size)
  {
    FrontFields(path, size, mtime);
    hide HeaderFront, Octal;
  }

  lemma FrontFields(path: seq<byte>, size: nat, mtime: nat)
    requires FieldsFit(size, mtime)
    ensures var h := HeaderFront(path, size, mtime);
      && (forall i :: 0 <= i < 100 ==> h[i] == Ascii(path, 100)[i])
      && h[100] == 48
      && (forall i :: 124 <= i < 136 ==> h[i] == Octal(size, 12)[i - 124])
      && (forall i :: 345 <= i < 500 ==> h[i] == NUL)
  {
    ModeField();
    hide Ascii, OctalDigits, PadStart;
  }

  lemma HeaderFields(path: seq<byte>, size: nat, mtime: nat)
    requires FieldsFit(size, mtime)
    ensures HasFields(Header(path, size, mtime), path, size)
  {
    BodyFields(path, size, mtime);
    HeaderIsBody(path, size, mtime);
    hide Header, HeaderBody, Octal, Ascii;
  }

  lemma FieldSlices(h: seq<byte>, path: seq<byte>, size: nat)
    requires |h| == BLOCK && HasFields(h, path, size)
    ensures h[0..100] == Ascii(path, 100)
    ensures h[124..136] == Octal(size, 12)[..12]
    ensures h[257..263] == USTAR + [NUL]
    ensures h[345..500] == Zeros(155)
  {
  }

  lemma HeaderIsBody(path: seq<byte>, size: nat, mtime: nat)
    requires FieldsFit(size, mtime)
    ensures forall i :: 0 <= i < 148 || 156 <= i < BLOCK ==> Header(path, size, mtime)[i] == HeaderBody(path, size, mtime)[i]
  {
    SumFits(Blanked(HeaderBody(path, size, mtime)));
    hide HeaderBody, Octal, Blanked, Sum;
  }

  lemma ModeField()
    ensures |Octal(420, 8)| == |Octal(0, 8)| == 8 && Octal(420, 8)[0] == 48
  {
    DigitsBound(420, 6);
    assert Pow8(3) == 512 && Pow8(6) == 8 * Pow8(5) && Pow8(5) == 8 * Pow8(4);
    PadStartsWithZero(OctalDigits(420), 7);
  }

  lemma {:induction false} PadStartsWithZero(s: seq<byte>, width: nat)
    requires |s| < width
    ensures PadStart(s, width)[0] == 48
    decreases width - |s|
  {
    if |s| + 1 < width {
      PadStartsWithZero([48] + s, width);
    }
  }

  // ----- lemmas: paths -----

  lemma {:induction false} CStringStops(s: seq<byte>, t: seq<byte>)
    requires t != [] && t[0] == NUL
    ensures CString(s + t) == CString(s)
  {
    if s == [] {
      assert s + t == t;
    } else {
      assert (s + t)[1..] == s[1..] + t;
      CStringStops(s[1..], t);
    }
  }

  /** The path that comes back: cut to 99 bytes and at the first NUL. */
  function PathBack(path: seq<byte>): seq<byte> {
    CString(path[..Min(|path|, 99)])
  }

  lemma PathBackIff(path: seq<byte>)
    ensures PathBack(path) == path <==> |path| <= 99 && NUL !in path
  {
  }

  /** The header tells mode 0644, user and group 0, both called root, and the time if it fits its field. */
  predicate Metadata(h: seq<byte>, mtime: nat)
    requires |h| == BLOCK
  {
    && ReadOctal(h[100..108], 0) == Some(6 * 64 + 4 * 8 + 4)
    && ReadOctal(h[108..116], 0) == Some(0) && ReadOctal(h[116..124], 0) == Some(0)
    && ReadOctal(h[136..148], 0) == (if mtime < Pow8(11) then Some(mtime) else None)
    && CString(h[265..297]) == [114, 111, 111, 116] && CString(h[297..329]) == [114, 111, 111, 116]
  }

  predicate HasOwners(h: seq<byte>, mtime: nat)
    requires |h| == BLOCK
  {
    && |Octal(420, 8)| == 8 && h[100..108] == Octal(420, 8)
    && |Octal(0, 8)| == 8 && h[108..116] == Octal(0, 8) && h[116..124] == Octal(0, 8)
    && h[136..148] == Octal(mtime, 12)[..12]
  }

  lemma FrontOwners(path: seq<byte>, size: nat, mtime: nat)
    requires FieldsFit(size, mtime)
    ensures HasOwners(HeaderFront(path, size, mtime), mtime)
  {
    ModeField();
    hide Ascii, OctalDigits, PadStart;
  }

  lemma BodyOwners(path: seq<byte>, size: nat, mtime: nat)
    requires FieldsFit(size, mtime)
    ensures var h := HeaderBody(path, size, mtime);
      HasOwners(h, mtime) && h[265..297] == Ascii(ROOT, 32) && h[297..329] == Ascii(ROOT, 32)
  {
    var f := HeaderFront(path, size, mtime);
    FrontOwners(path, size, mtime);
    hide HeaderFront, Octal, Ascii;
    var h := HeaderBody(path, size, mtime);
    assert forall i :: 0 <= i < 148 ==> h[i] == f[i];
    hide HasOwners;
    SameOwners(h, f, mtime);
  }

  lemma HeaderOwners(path: seq<byte>, size: nat, mtime: nat)
    requires FieldsFit(size, mtime)
    ensures var h := Header(path, size, mtime);
      HasOwners(h, mtime) && h[265..297] == Ascii(ROOT, 32) && h[297..329] == Ascii(ROOT, 32)
  {
    BodyOwners(path, size, mtime);
    HeaderIsBody(path, size, mtime);
    hide Header, HeaderBody, Octal, Ascii;
    var h, b := Header(path, size, mtime), HeaderBody(path, size, mtime);
    hide HasOwners;
    SameOwners(h, b, mtime);
    SameSlice(h, b, 265, 297);
    SameSlice(h, b, 297, 329);
  }

  lemma SameSlice(a: seq<byte>, b: seq<byte>, i: nat, j: nat)
    requires |a| == |b| && i <= j <= |a| && forall k :: i <= k < j ==> a[k] == b[k]
    ensures a[i..j] == b[i..j]
  {
  }

  lemma SameOwners(h: seq<byte>, b: seq<byte>, mtime: nat)
    requires |h| == |b| == BLOCK && HasOwners(b, mtime) && forall k :: 0 <= k < 148 ==> h[k] == b[k]
    ensures HasOwners(h, mtime)
  {
    SameSlice(h, b, 100, 108);
    SameSlice(h, b, 108, 116);
    SameSlice(h, b, 116, 124);
    SameSlice(h, b, 136, 148);
    hide Octal;
  }

  lemma RootReads()
    ensures CString(Ascii(ROOT, 32)) == [114, 111, 111, 116]
  {
    var zeros := Zeros(28);
    CStringStops(ROOT, zeros);
    assert Ascii(ROOT, 32) == ROOT + zeros;
    assert NUL !in ROOT;
    CStringWhole(ROOT);
  }

  lemma {:induction false} CStringWhole(s: seq<byte>)
    requires NUL !in s
    ensures CString(s) == s
  {
  }

  lemma MetadataReads(path: seq<byte>, size: nat, mtime: nat)
    requires FieldsFit(size, mtime)
    ensures Metadata(Header(path, size, mtime), mtime)
  {
    HeaderOwners(path, size, mtime);
    RootReads();
    hide Header, Octal, Ascii, ReadOctal, CString, Pow8;
    SmallNumber(420);
    SmallNumber(0);
    OctalRoundTrip(mtime, 12);
  }

  lemma SmallNumber(n: nat)
    requires n < 512
    ensures |Octal(n, 8)| == 8 ==> ReadOctal(Octal(n, 8), 0) == Some(n)
  {
    assert Pow8(7) == 4096 * Pow8(3) && Pow8(3) == 512;
    OctalRoundTrip(n, 8);
    hide Octal, ReadOctal;
    if |Octal(n, 8)| == 8 {
      assert Octal(n, 8)[..8] == Octal(n, 8);
    }
  }

  lemma HeaderReads(path: seq<byte>, size: nat, mtime: nat)
    requires FieldsFit(size, mtime)
    ensures var h := Header(path, size, mtime);
      && h != Zeros(BLOCK)
      && ReadPath(h) == PathBack(path)
      && ReadHeader(h) == (if size < Pow8(11) then Some(size) else None)
      && Metadata(h, mtime)
  {
    MetadataReads(path, size, mtime);
    hide Metadata;
    var h := Header(path, size, mtime);
    HeaderFields(path, size, mtime);
    FieldSlices(h, path, size);
    ChecksumIsStandard(path, size, mtime);
    OctalRoundTrip(size, 12);
    assert Zeros(BLOCK)[100] == NUL;
    var n := Min(|path|, 99);
    CStringStops(path[..n], Zeros(100 - n));
    assert CString(Zeros(155)) == [];
  }

  // ----- main results -----

  function Back(es: seq<Entry>): seq<Entry> {
    seq(|es|, i requires 0 <= i < |es| => Entry(PathBack(es[i].path), es[i].data))
  }

  predicate SizesFit(es: seq<Entry>) {
    forall i :: 0 <= i < |es| ==> |es[i].data| < Pow8(11)
  }

  lemma BackCons(es: seq<Entry>)
    requires es != []
    ensures Back(es) == [Entry(PathBack(es[0].path), es[0].data)] + Back(es[1..])
    ensures SizesFit(es) <==> |es[0].data| < Pow8(11) && SizesFit(es[1..])
  {
    assert forall i :: 1 <= i < |es| ==> es[i] == es[1..][i - 1];
  }

  lemma TarIsLong(es: seq<Entry>, clock: seq<nat>)
    requires EntriesFit(es, clock)
    ensures |Tar(es, clock)| >= 2 * BLOCK
  {
  }

  lemma FileReads(path: seq<byte>, data: seq<byte>, rest: seq<byte>)
    ensures ReadFile(path, |data|, PadBlock(data) + rest) == Prepend(Entry(path, data), Read(rest))
  {
    var b := PadBlock(data) + rest;
    assert b[..|data|] == data && b[|data| + Padding(|data|)..] == rest;
  }

  /** One entry in front of an archive: the reader takes exactly it. */
  lemma ReadsFirst(e: Entry, mtime: nat, rest: seq<byte>)
    requires FieldsFit(|e.data|, mtime) && |rest| >= 2 * BLOCK
    ensures Read(Header(e.path, |e.data|, mtime) + PadBlock(e.data) + rest)
      == if |e.data| >= Pow8(11) then None else Prepend(Entry(PathBack(e.path), e.data), Read(rest))
  {
    var h, d := Header(e.path, |e.data|, mtime), PadBlock(e.data);
    HeaderReads(e.path, |e.data|, mtime);
    FileReads(PathBack(e.path), e.data, rest);
    Assoc(h, d, rest);
    ReadsBlock(h, d + rest);
  }

  lemma Assoc(a: seq<byte>, b: seq<byte>, c: seq<byte>)
    ensures a + b + c == a + (b + c)
  {
  }

  lemma ReadsBlock(h: seq<byte>, rest: seq<byte>)
    requires |h| == BLOCK <= |rest| && h != Zeros(BLOCK)
    ensures Read(h + rest) == match ReadHeader(h)
      case None => None
      case Some(size) => ReadFile(ReadPath(h), size, rest)
  {
  }

  /** What the reader makes of any archive: the entries in order, with their paths cut at 99
      bytes and at the first NUL, or nothing when a file is too large for its field. */
  lemma {:induction false} ReadTar(es: seq<Entry>, clock: seq<nat>)
    requires EntriesFit(es, clock)
    ensures Read(Tar(es, clock)) == if SizesFit(es) then Some(Back(es)) else None
  {
    if es == [] {
      assert Zeros(2 * BLOCK)[..BLOCK] == Zeros(BLOCK) && Zeros(2 * BLOCK)[BLOCK..2 * BLOCK] == Zeros(BLOCK);
      assert Back(es) == [] && Read(Zeros(2 * BLOCK)) == Some([]);
    } else {
      ReadTar(es[1..], clock[1..]);
      TarIsLong(es[1..], clock[1..]);
      ReadsFirst(es[0], clock[0], Tar(es[1..], clock[1..]));
      BackCons(es);
    }
  }

  /** Reading an archive gives back exactly its entries if and only if every path has at most 99
      bytes and no NUL, and every file is smaller than 8^11 bytes. */
  lemma RoundTrip(es: seq<Entry>, clock: seq<nat>)
    requires EntriesFit(es, clock)
    ensures Read(Tar(es, clock)) == Some(es) <==>
      SizesFit(es) && forall i :: 0 <= i < |es| ==> |es[i].path| <= 99 && NUL !in es[i].path
  {
    ReadTar(es, clock);
    forall i | 0 <= i < |es|
      ensures PathBack(es[i].path) == es[i].path <==> |es[i].path| <= 99 && NUL !in es[i].path
    {
      PathBackIff(es[i].path);
    }
    if SizesFit(es) && Back(es) == es {
      forall i | 0 <= i < |es| ensures PathBack(es[i].path) == es[i].path {
        assert Back(es)[i] == es[i];
      }
    }
  }

  function TotalSize(es: seq<Entry>): nat {
    if es == [] then 0 else BLOCK + |es[0].data| + Padding(|es[0].data|) + TotalSize(es[1..])
  }

  /** The length is that of the headers and the files, each rounded up to whole blocks, and the
      two final blocks. */
  lemma {:induction false} TarLength(es: seq<Entry>, clock: seq<nat>)
    requires EntriesFit(es, clock)
    ensures |Tar(es, clock)| == TotalSize(es) + 1024
  {
    if es != [] {
      TarLength(es[1..], clock[1..]);
    }
  }

}
