/** The canonical ustar files of a verifier kit (src/verifier-kit.ts; the "ustar Interchange Format" of
    the pax utility in IEEE Std 1003.1): what is written, what is read back, and that they agree. */
module TarFormat {
  import opened Utf8
  import opened Wrappers

  datatype Entry = Entry(path: string, bytes: seq<byte>)
  datatype Limits = Limits(maxBytes: nat, maxFiles: nat)

  const BLOCK: nat := 512
  const USTAR: seq<byte> := [0x75, 0x73, 0x74, 0x61, 0x72]

  // ---- Paths ----

  function Split(path: string): (parts: seq<string>)
    ensures parts != []
  {
    if path == "" then [""]
    else
      var rest := Split(path[1..]);
      if path[0] == '/' then [""] + rest else [[path[0]] + rest[0]] + rest[1..]
  }

  /** `normalizeKitPath`. A path without empty, `.` and `..` parts is its own normal form, so the
      comparison with `posix.normalize` adds nothing. */
  predicate SafePath(path: string) {
    && path != "" && '\\' !in path && '\0' !in path
    && (forall i :: 0 <= i < |Split(path)| ==> Split(path)[i] !in {"", ".", ".."})
    && Utf8Length(path) <= 100
  }

  /** Where the first UTF-16 unit of a character stands among the others: surrogates come before
      U+E000. */
  function Rank(c: char): int { if 0xE000 <= c as int < 0x10000 then c as int + 0x110000 else c as int }

  /** `comparePaths`: the order of strings by UTF-16 unit. */
  predicate Before(a: string, b: string) {
    b != [] && (a == [] || Rank(a[0]) < Rank(b[0]) || (a[0] == b[0] && Before(a[1..], b[1..])))
  }

  lemma {:induction false} BeforeIrreflexive(a: string)
    ensures !Before(a, a)
  {
    if a != [] { BeforeIrreflexive(a[1..]); }
  }

  lemma {:induction false} BeforeTransitive(a: string, b: string, c: string)
    requires Before(a, b) && Before(b, c)
    ensures Before(a, c)
  {
    if a != [] && a[0] == b[0] == c[0] { BeforeTransitive(a[1..], b[1..], c[1..]); }
  }

  // ---- Bytes ----

  function Zeros(n: nat): (bytes: seq<byte>)
    ensures |bytes| == n && forall i :: 0 <= i < n ==> bytes[i] == 0
  {
    seq(n, _ => 0 as byte)
  }

  /** The bytes after `target.set(bytes, offset)`. */
  function Splice(s: seq<byte>, offset: nat, bytes: seq<byte>): (r: seq<byte>)
    requires offset + |bytes| <= |s|
    ensures |r| == |s|
  {
    s[..offset] + bytes + s[offset + |bytes|..]
  }

  lemma SpliceApart(s: seq<byte>, offset: nat, bytes: seq<byte>, i: nat, j: nat)
    requires offset + |bytes| <= |s| && i <= j <= |s| && (j <= offset || offset + |bytes| <= i)
    ensures Splice(s, offset, bytes)[i..j] == s[i..j]
  {
  }

  lemma SpliceAt(s: seq<byte>, offset: nat, bytes: seq<byte>)
    requires offset + |bytes| <= |s|
    ensures Splice(s, offset, bytes)[offset..offset + |bytes|] == bytes
  {
  }

  function Sum(s: seq<byte>): nat { if s == [] then 0 else s[0] as int + Sum(s[1..]) }

  lemma {:induction false} SumBound(s: seq<byte>)
    ensures Sum(s) <= 255 * |s|
  {
    if s != [] { SumBound(s[1..]); }
  }

  lemma {:induction false} SumAppend(a: seq<byte>, b: seq<byte>)
    ensures Sum(a + b) == Sum(a) + Sum(b)
  {
    if a == [] { assert a + b == b; } else { assert (a + b)[1..] == a[1..] + b; SumAppend(a[1..], b); }
  }

  // ---- Octal fields ----

  function Pow8(n: nat): nat { if n == 0 then 1 else 8 * Pow8(n - 1) }

  /** `value.toString(8)` */
  function OctalText(value: nat): (text: seq<byte>)
    ensures text != []
  {
    if value < 8 then [(0x30 + value) as byte] else OctalText(value / 8) + [(0x30 + value % 8) as byte]
  }

  function PadStart(text: seq<byte>, width: nat): seq<byte> {
    if |text| >= width then text else seq(width - |text|, _ => 0x30 as byte) + text
  }

  predicate OctalDigits(text: seq<byte>) { forall i :: 0 <= i < |text| ==> 0x30 <= text[i] <= 0x37 }

  function ParseOctal(text: seq<byte>): int
  {
    if text == [] then 0 else 8 * ParseOctal(text[..|text| - 1]) + (text[|text| - 1] as int - 0x30)
  }

  lemma {:induction false} OctalRoundTrip(value: nat)
    ensures OctalDigits(OctalText(value)) && ParseOctal(OctalText(value)) == value
  {
    if value < 8 {
      assert OctalText(value)[..0] == [];
    } else {
      OctalRoundTrip(value / 8);
      var text := OctalText(value);
      assert text[..|text| - 1] == OctalText(value / 8);
    }
  }

  /** A value needs at most `n` digits exactly when it is below 8^n. */
  lemma {:induction false} OctalWidth(value: nat, n: nat)
    requires n >= 1
    ensures |OctalText(value)| <= n <==> value < Pow8(n)
  {
    if value < 8 {
      PowPositive(n - 1);
    } else if n == 1 {
      assert Pow8(1) == 8 * Pow8(0) == 8;
    } else {
      OctalWidth(value / 8, n - 1);
    }
  }

  lemma {:induction false} PowPositive(n: nat)
    ensures Pow8(n) >= 1
  {
    if n > 0 { PowPositive(n - 1); }
  }

  lemma {:induction false} PadParses(text: seq<byte>, zeros: nat)
    requires OctalDigits(text)
    ensures var padded := seq(zeros, _ => 0x30 as byte) + text;
      OctalDigits(padded) && ParseOctal(padded) == ParseOctal(text)
    decreases |text| + zeros
  {
    var padded := seq(zeros, _ => 0x30 as byte) + text;
    if text != [] {
      var before := text[..|text| - 1];
      PadParses(before, zeros);
      assert padded[..|padded| - 1] == seq(zeros, _ => 0x30 as byte) + before;
    } else if zeros > 0 {
      PadParses([], zeros - 1);
      assert padded[..|padded| - 1] == seq(zeros - 1, _ => 0x30 as byte) + [];
    }
  }

  /** The field `writeOctal` writes; None is its overflow error. */
  function OctalField(value: nat, length: nat): Option<seq<byte>>
    requires length >= 1
  {
    var encoded := PadStart(OctalText(value), length - 1);
    if |encoded| >= length then None else Some(encoded + [0])
  }

  // ---- Headers ----

  /** The header before its checksum, with spaces in its place. */
  function BareHeader(path: string, size: seq<byte>): (h: seq<byte>)
    requires |AsciiBytes(path)| <= 100 && |size| == 12
    ensures |h| == BLOCK
  {
    var h0 := Splice(Zeros(BLOCK), 0, AsciiBytes(path));
    var h1 := Splice(h0, 100, [0x30, 0x30, 0x30, 0x30, 0x34, 0x34, 0x34, 0]);
    var h2 := Splice(h1, 108, [0x30, 0x30, 0x30, 0x30, 0x30, 0x30, 0x30, 0]);
    var h3 := Splice(h2, 116, [0x30, 0x30, 0x30, 0x30, 0x30, 0x30, 0x30, 0]);
    var h4 := Splice(h3, 124, size);
    var h5 := Splice(h4, 136, [0x30, 0x30, 0x30, 0x30, 0x30, 0x30, 0x30, 0x30, 0x30, 0x30, 0x30, 0]);
    var h6 := Splice(h5, 148, Spaces());
    var h7 := Splice(h6, 156, [0x30]);
    var h8 := Splice(h7, 257, USTAR + [0]);
    Splice(h8, 263, [0x30, 0x30])
  }

  function Spaces(): (s: seq<byte>) ensures |s| == 8 { [0x20, 0x20, 0x20, 0x20, 0x20, 0x20, 0x20, 0x20] }

  function ChecksumField(sum: nat): seq<byte> { PadStart(OctalText(sum), 6) + [0, 0x20] }

  /** A header's checksum always fits its six octal digits. */
  lemma ChecksumFits(bare: seq<byte>)
    requires |bare| == BLOCK
    ensures |ChecksumField(Sum(bare))| == 8 && Sum(bare) < Pow8(6)
  {
    SumBound(bare);
    assert Pow8(6) == 262144 by {
      assert Pow8(0) == 1 && Pow8(1) == 8 && Pow8(2) == 64 && Pow8(3) == 512 && Pow8(4) == 4096 && Pow8(5) == 32768;
    }
    OctalWidth(Sum(bare), 6);
  }

  /** `tarHeader`; None for a path or size that does not fit. */
  function Header(e: Entry): (h: Option<seq<byte>>)
    ensures h.Some? ==> |h.value| == BLOCK
  {
    var size := OctalField(|e.bytes|, 12);
    if |AsciiBytes(e.path)| > 100 || size.None? || |size.value| != 12 then None
    else
      var bare := BareHeader(e.path, size.value);
      ChecksumFits(bare);
      Some(Splice(bare, 148, ChecksumField(Sum(bare))))
  }

  function Padding(size: nat): nat { (BLOCK - size % BLOCK) % BLOCK }

  /** `encodeTar`: each file as whole blocks, then two zero blocks. */
  function Encode(entries: seq<Entry>): Option<seq<byte>> {
    if entries == [] then Some(Zeros(2 * BLOCK))
    else
      var e := entries[0];
      match (Header(e), Encode(entries[1..]))
      case (Some(header), Some(rest)) => Some(header + e.bytes + Zeros(Padding(|e.bytes|)) + rest)
      case _ => None
  }

  // ---- Reading ----

  /** The bytes of a field up to its first NUL. */
  function Until(s: seq<byte>): seq<byte> { if s == [] || s[0] == 0 then [] else [s[0]] + Until(s[1..]) }

  /** `readString` within one header. */
  function ReadField(h: seq<byte>, offset: nat, length: nat): seq<byte>
    requires offset + length <= |h|
  {
    Until(h[offset..offset + length])
  }

  predicate SpaceByte(b: byte) { 9 <= b <= 13 || b == 32 }

  function TrimLeft(s: seq<byte>): seq<byte> { if s == [] || !SpaceByte(s[0]) then s else TrimLeft(s[1..]) }

  function TrimRight(s: seq<byte>): seq<byte> {
    if s == [] || !SpaceByte(s[|s| - 1]) then s else TrimRight(s[..|s| - 1])
  }

  /** `readOctal`; None for a malformed field. */
  function ReadOctal(h: seq<byte>, offset: nat, length: nat): (value: Option<nat>)
    requires offset + length <= |h|
  {
    var text := TrimRight(TrimLeft(ReadField(h, offset, length)));
    if text == [] || !OctalDigits(text) then None
    else
      ParseNatural(text);
      Some(ParseOctal(text))
  }

  lemma {:induction false} ParseNatural(text: seq<byte>)
    requires OctalDigits(text)
    ensures ParseOctal(text) >= 0
  {
    if text != [] { ParseNatural(text[..|text| - 1]); }
  }

  predicate ZeroBlock(bytes: seq<byte>, offset: nat)
    requires offset + BLOCK <= |bytes|
  {
    forall i :: offset <= i < offset + BLOCK ==> bytes[i] == 0
  }

  datatype FileHeader = FileHeader(path: string, size: nat)

  /** The checks of `decodeTar` on one header; None for any thrown error. */
  function ReadHeader(h: seq<byte>): Option<FileHeader>
    requires |h| == BLOCK
  {
    if ReadField(h, 257, 6) != USTAR then None
    else if ReadOctal(h, 148, 8).None? || Sum(Splice(h, 148, Spaces())) != ReadOctal(h, 148, 8).value then None
    else if h[156] != 0x30 && h[156] != 0 then None
    else
      var path := Utf8Text(ReadField(h, 0, 100));
      if !SafePath(path) then None
      else match ReadOctal(h, 124, 12)
        case None => None
        case Some(size) => Some(FileHeader(path, size))
  }

  function Blocks(size: nat): nat { (size + BLOCK - 1) / BLOCK }

  datatype Scanned = Scanned(entries: seq<Entry>, offset: nat)

  /** The loop of `decodeTar` from one header on; None for any thrown error. */
  function Scan(bytes: seq<byte>, offset: nat, maxFiles: nat, seen: seq<string>): (r: Option<Scanned>)
    requires offset + 2 * BLOCK <= |bytes|
    ensures r.Some? ==> offset <= r.value.offset && r.value.offset + 2 * BLOCK <= |bytes|
    decreases |bytes| - offset
  {
    if ZeroBlock(bytes, offset) then Some(Scanned([], offset))
    else if |seen| >= maxFiles then None
    else match ReadHeader(bytes[offset..offset + BLOCK])
      case None => None
      case Some(header) =>
        var content := offset + BLOCK;
        var next := content + Blocks(header.size) * BLOCK;
        if header.path in seen || next > |bytes| - 2 * BLOCK then None
        else
          BlocksCover(header.size);
          match Scan(bytes, next, maxFiles, seen + [header.path])
          case None => None
          case Some(rest) =>
            Some(Scanned([Entry(header.path, bytes[content..content + header.size])] + rest.entries, rest.offset))
  }

  lemma BlocksCover(size: nat)
    ensures size <= Blocks(size) * BLOCK && Blocks(size) * BLOCK == size + Padding(size)
  {
    assert size == size / BLOCK * BLOCK + size % BLOCK;
    if size % BLOCK == 0 { assert Blocks(size) == size / BLOCK; } else { assert Blocks(size) == size / BLOCK + 1; }
  }

  /** Strictly rising paths. */
  predicate Lexical(entries: seq<Entry>) {
    forall i, j :: 0 <= i < j < |entries| ==> Before(entries[i].path, entries[j].path)
  }

  /** `decodeTar`; None for any thrown error. */
  function Decode(bytes: seq<byte>, limits: Limits): Option<seq<Entry>> {
    if |bytes| > limits.maxBytes || |bytes| < 2 * BLOCK || |bytes| % BLOCK != 0 then None
    else match Scan(bytes, 0, limits.maxFiles, [])
      case None => None
      case Some(scanned) =>
        if scanned.offset + 2 * BLOCK != |bytes| || !ZeroBlock(bytes, scanned.offset + BLOCK) then None
        else if !Lexical(scanned.entries) then None
        else if Encode(scanned.entries) != Some(bytes) then None
        else Some(scanned.entries)
  }

  // ---- Fields read back ----

  lemma {:induction false} UntilAll(s: seq<byte>, rest: seq<byte>)
    requires forall i :: 0 <= i < |s| ==> s[i] != 0
    requires rest == [] || rest[0] == 0
    ensures Until(s + rest) == s
  {
    if s == [] {
      assert s + rest == rest;
    } else {
      assert (s + rest)[1..] == s[1..] + rest;
      UntilAll(s[1..], rest);
    }
  }

  lemma DigitsRead(text: seq<byte>, tail: seq<byte>)
    requires text != [] && OctalDigits(text) && tail != [] && tail[0] == 0
    ensures var read := TrimRight(TrimLeft(Until(text + tail))); read == text
  {
    UntilAll(text, tail);
  }

  lemma PaddedDigits(value: nat, width: nat)
    ensures var text := PadStart(OctalText(value), width); text != [] && OctalDigits(text) && ParseOctal(text) == value
    ensures |OctalText(value)| <= width ==> |PadStart(OctalText(value), width)| == width
  {
    OctalRoundTrip(value);
    if |OctalText(value)| < width { PadParses(OctalText(value), width - |OctalText(value)|); }
  }

  /** The sizes a header can hold. */
  lemma SizeField(size: nat)
    ensures OctalField(size, 12).Some? <==> size < Pow8(11)
    ensures OctalField(size, 12).Some? ==> |OctalField(size, 12).value| == 12
  {
    OctalWidth(size, 11);
    PaddedDigits(size, 11);
  }

  /** Where a header keeps the fields that are read back. */
  lemma BareFields(path: string, size: seq<byte>)
    requires |AsciiBytes(path)| <= 100 && |size| == 12
    ensures var h := BareHeader(path, size);
      && h[0..100] == AsciiBytes(path) + Zeros(100 - |AsciiBytes(path)|)
      && h[124..136] == size && h[148..156] == Spaces() && h[156] == 0x30 && h[257..263] == USTAR + [0]
  {
    hide Splice;
    var zeros7 := [0x30, 0x30, 0x30, 0x30, 0x30, 0x30, 0x30, 0];
    var h0 := Splice(Zeros(BLOCK), 0, AsciiBytes(path));
    var h1 := Splice(h0, 100, [0x30, 0x30, 0x30, 0x30, 0x34, 0x34, 0x34, 0]);
    var h2 := Splice(h1, 108, zeros7);
    var h3 := Splice(h2, 116, zeros7);
    var h4 := Splice(h3, 124, size);
    var h5 := Splice(h4, 136, [0x30, 0x30, 0x30, 0x30, 0x30, 0x30, 0x30, 0x30, 0x30, 0x30, 0x30, 0]);
    var h6 := Splice(h5, 148, Spaces());
    var h7 := Splice(h6, 156, [0x30]);
    var h8 := Splice(h7, 257, USTAR + [0]);
    var h := Splice(h8, 263, [0x30, 0x30]);
    assert h == BareHeader(path, size);
    FirstField(Zeros(BLOCK), AsciiBytes(path));
    assert h0[0..100] == h1[0..100] == h2[0..100] == h3[0..100] == h4[0..100] == h5[0..100] by {
      SpliceApart(h0, 100, [0x30, 0x30, 0x30, 0x30, 0x34, 0x34, 0x34, 0], 0, 100);
      SpliceApart(h1, 108, zeros7, 0, 100);
      SpliceApart(h2, 116, zeros7, 0, 100);
      SpliceApart(h3, 124, size, 0, 100);
      SpliceApart(h4, 136, [0x30, 0x30, 0x30, 0x30, 0x30, 0x30, 0x30, 0x30, 0x30, 0x30, 0x30, 0], 0, 100);
    }
    SpliceAt(h3, 124, size);
    SpliceApart(h4, 136, [0x30, 0x30, 0x30, 0x30, 0x30, 0x30, 0x30, 0x30, 0x30, 0x30, 0x30, 0], 124, 136);
    SpliceAt(h5, 148, Spaces());
    SpliceAt(h6, 156, [0x30]);
    SpliceAt(h7, 257, USTAR + [0]);
    SpliceApart(h8, 263, [0x30, 0x30], 257, 263);
    LaterFields(h5, h6, h7, h8, h, 0, 100);
    LaterFields(h5, h6, h7, h8, h, 124, 136);
    SpliceApart(h6, 156, [0x30], 148, 156);
    SpliceApart(h7, 257, USTAR + [0], 148, 157);
    SpliceApart(h8, 263, [0x30, 0x30], 148, 157);
    assert h7[148..157] == h8[148..157] == h[148..157];
    assert h7[148..156] == h7[148..157][..8] && h7[156] == h7[148..157][8] && h7[156] == h7[156..157][0];
    assert h[148..156] == h[148..157][..8] && h[156] == h[148..157][8];
  }

  lemma FirstField(s: seq<byte>, a: seq<byte>)
    requires |a| <= 100 <= |s| && forall i :: 0 <= i < |s| ==> s[i] == 0
    ensures Splice(s, 0, a)[0..100] == a + Zeros(100 - |a|)
  {
  }

  lemma LaterFields(h5: seq<byte>, h6: seq<byte>, h7: seq<byte>, h8: seq<byte>, h: seq<byte>, i: nat, j: nat)
    requires |h5| == BLOCK && i <= j <= 148
    requires h6 == Splice(h5, 148, Spaces()) && h7 == Splice(h6, 156, [0x30])
    requires h8 == Splice(h7, 257, USTAR + [0]) && h == Splice(h8, 263, [0x30, 0x30])
    ensures h[i..j] == h5[i..j]
  {
    hide Splice;
    SpliceApart(h5, 148, Spaces(), i, j);
    SpliceApart(h6, 156, [0x30], i, j);
    SpliceApart(h7, 257, USTAR + [0], i, j);
    SpliceApart(h8, 263, [0x30, 0x30], i, j);
  }

  lemma HeaderFields(e: Entry)
    requires Header(e).Some?
    ensures var h, size := Header(e).value, OctalField(|e.bytes|, 12).value;
      && |AsciiBytes(e.path)| <= 100 && |size| == 12 && OctalField(|e.bytes|, 12).Some?
      && var sum := Sum(BareHeader(e.path, size));
      && h[0..100] == AsciiBytes(e.path) + Zeros(100 - |AsciiBytes(e.path)|)
      && h[124..136] == size && h[156] == 0x30 && h[257..263] == USTAR + [0]
      && h[148..156] == ChecksumField(sum) && Splice(h, 148, Spaces()) == BareHeader(e.path, size)
  {
    hide BareHeader;
    var size := OctalField(|e.bytes|, 12).value;
    var bare := BareHeader(e.path, size);
    BareFields(e.path, size);
    ChecksumFits(bare);
    var field := ChecksumField(Sum(bare));
    SpliceApart(bare, 148, field, 0, 100);
    SpliceApart(bare, 148, field, 124, 136);
    SpliceApart(bare, 148, field, 156, 157);
    SpliceApart(bare, 148, field, 257, 263);
    SpliceAt(bare, 148, field);
    Respliced(bare, 148, field, Spaces());
    assert Header(e).value[156..157] == bare[156..157];
  }

  lemma Respliced(s: seq<byte>, offset: nat, a: seq<byte>, b: seq<byte>)
    requires offset + |a| <= |s| && |a| == |b| && s[offset..offset + |b|] == b
    ensures Splice(Splice(s, offset, a), offset, b) == s
  {
  }

  lemma {:induction false} NoZeroByte(path: string)
    requires Plain(path) && '\0' !in path
    ensures forall i :: 0 <= i < |AsciiBytes(path)| ==> AsciiBytes(path)[i] != 0
  {
    if path != "" {
      assert PlainChar(path[0]) && path[0] in path;
      NoZeroByte(path[1..]);
    }
  }

  /** Every file of a safe path and a size that fits has a header. */
  lemma HeaderWritten(e: Entry)
    requires SafePath(e.path) && |e.bytes| < Pow8(11)
    ensures Header(e).Some?
  {
    hide Pow8, Split;
    LowBytesFit(e.path);
    SizeField(|e.bytes|);
  }

  /** Every header written for a safe plain path reads back as its path and size. */
  lemma HeaderRoundTrip(e: Entry)
    requires SafePath(e.path) && Plain(e.path) && |e.bytes| < Pow8(11)
    ensures Header(e).Some? && ReadHeader(Header(e).value) == Some(FileHeader(e.path, |e.bytes|))
    ensures Header(e).value[0] != 0
  {
    hide BareHeader, Pow8, Split, Splice, Sum, ParseOctal, AsciiBytes, Utf8Text, Plain, Utf8Length;
    HeaderWritten(e);
    HeaderFields(e);
    var h := Header(e).value;
    var size := OctalField(|e.bytes|, 12).value;
    var sum := Sum(BareHeader(e.path, size));
    PlainTrip(e.path);
    NoZeroByte(e.path);
    UntilAll(AsciiBytes(e.path), Zeros(100 - |AsciiBytes(e.path)|));
    UntilAll(USTAR, [0]);
    assert h[0] == h[0..100][0];
    SizeField(|e.bytes|);
    PaddedDigits(|e.bytes|, 11);
    DigitsRead(PadStart(OctalText(|e.bytes|), 11), [0]);
    PaddedDigits(sum, 6);
    DigitsRead(PadStart(OctalText(sum), 6), [0, 0x20]);
  }

  lemma {:induction false} UntilShort(s: seq<byte>, rest: seq<byte>)
    requires rest == [] || rest[0] == 0
    ensures |Until(s + rest)| <= |s|
  {
    if s == [] {
      assert s + rest == rest;
    } else {
      assert (s + rest)[1..] == s[1..] + rest;
      UntilShort(s[1..], rest);
    }
  }

  /** Only a plain path reads back from the header written for it. */
  lemma HeaderReadsPlain(e: Entry)
    requires Header(e).Some? && ReadHeader(Header(e).value).Some? && ReadHeader(Header(e).value).value.path == e.path
    ensures Plain(e.path)
  {
    hide BareHeader, Split, Splice, Sum, ParseOctal, AsciiBytes, Utf8Text, Plain, Utf8Length, SafePath, Until;
    HeaderFields(e);
    var name := ReadField(Header(e).value, 0, 100);
    UntilShort(AsciiBytes(e.path), Zeros(100 - |AsciiBytes(e.path)|));
    TextLowBytes(name);
  }

  // ---- The round trip ----

  /** What the packer accepts: safe paths in order, sizes a header can hold. */
  ghost predicate Packable(entries: seq<Entry>) {
    Lexical(entries) && forall i :: 0 <= i < |entries| ==> SafePath(entries[i].path) && |entries[i].bytes| < Pow8(11)
  }

  /** All paths are of ASCII characters and U+FFFD. */
  ghost predicate PlainPaths(entries: seq<Entry>) { forall i :: 0 <= i < |entries| ==> Plain(entries[i].path) }

  lemma {:induction false} EncodeShape(entries: seq<Entry>)
    requires Packable(entries)
    ensures Encode(entries).Some? && |Encode(entries).value| >= 2 * BLOCK && |Encode(entries).value| % BLOCK == 0
  {
    hide Header, SafePath, Pow8;
    if entries != [] {
      EncodeShape(entries[1..]);
      HeaderWritten(entries[0]);
      BlocksCover(|entries[0].bytes|);
    }
  }

  /** From any block boundary on, the loop reads exactly the files still written there, and stops at the
      trailing zero blocks, which no header is taken for. */
  lemma {:induction false} ScanEncoded(before: seq<byte>, entries: seq<Entry>, maxFiles: nat, seen: seq<string>)
    requires Packable(entries) && PlainPaths(entries) && |seen| + |entries| <= maxFiles
    requires forall i :: 0 <= i < |entries| ==> entries[i].path !in seen
    ensures Encode(entries).Some? && |Encode(entries).value| >= 2 * BLOCK
    ensures var bytes := before + Encode(entries).value;
      Scan(bytes, |before|, maxFiles, seen) == Some(Scanned(entries, |bytes| - 2 * BLOCK))
      && ZeroBlock(bytes, |bytes| - BLOCK)
    decreases |entries|
  {
    hide Header, ReadHeader, SafePath, Pow8, Padding, Blocks, Scan, Plain;
    EncodeShape(entries);
    var bytes := before + Encode(entries).value;
    if entries == [] {
      ScanEnds(bytes, |before|, maxFiles, seen);
    } else {
      var e := entries[0];
      EncodeShape(entries[1..]);
      HeaderRoundTrip(e);
      BlocksCover(|e.bytes|);
      var header := Header(e).value;
      var file := header + e.bytes + Zeros(Padding(|e.bytes|));
      assert before + file + Encode(entries[1..]).value == bytes;
      PathsAhead(entries, seen);
      ScanEncoded(before + file, entries[1..], maxFiles, seen + [e.path]);
      assert bytes[|before|..|before| + BLOCK] == header;
      assert bytes[|before| + BLOCK..|before| + BLOCK + |e.bytes|] == e.bytes;
      assert bytes[|before|] == header[0];
      ScanFile(bytes, |before|, maxFiles, seen, e, entries[1..]);
      assert [e] + entries[1..] == entries;
    }
  }

  lemma ScanEnds(bytes: seq<byte>, offset: nat, maxFiles: nat, seen: seq<string>)
    requires offset + 2 * BLOCK == |bytes| && bytes[offset..] == Zeros(2 * BLOCK)
    ensures Scan(bytes, offset, maxFiles, seen) == Some(Scanned([], offset)) && ZeroBlock(bytes, offset + BLOCK)
  {
    forall i | offset <= i < |bytes| ensures bytes[i] == 0 { assert bytes[i] == bytes[offset..][i - offset]; }
  }

  lemma ScanFile(bytes: seq<byte>, offset: nat, maxFiles: nat, seen: seq<string>, e: Entry, rest: seq<Entry>)
    requires offset + 2 * BLOCK <= |bytes| && bytes[offset] != 0 && |seen| < maxFiles && e.path !in seen
    requires ReadHeader(bytes[offset..offset + BLOCK]) == Some(FileHeader(e.path, |e.bytes|))
    requires var next := offset + BLOCK + Blocks(|e.bytes|) * BLOCK;
      && next + 2 * BLOCK <= |bytes| && offset + BLOCK + |e.bytes| <= |bytes|
      && bytes[offset + BLOCK..offset + BLOCK + |e.bytes|] == e.bytes
      && Scan(bytes, next, maxFiles, seen + [e.path]) == Some(Scanned(rest, |bytes| - 2 * BLOCK))
    ensures Scan(bytes, offset, maxFiles, seen) == Some(Scanned([e] + rest, |bytes| - 2 * BLOCK))
  {
    hide ReadHeader, Blocks;
  }

  lemma PathsAhead(entries: seq<Entry>, seen: seq<string>)
    requires Packable(entries) && entries != [] && forall i :: 0 <= i < |entries| ==> entries[i].path !in seen
    ensures Packable(entries[1..])
    ensures forall i :: 0 <= i < |entries[1..]| ==> entries[1..][i].path !in seen + [entries[0].path]
  {
    hide SafePath, Pow8;
    forall i | 0 <= i < |entries[1..]| ensures entries[1..][i].path !in seen + [entries[0].path] {
      BeforeIrreflexive(entries[0].path);
      assert Before(entries[0].path, entries[i + 1].path);
    }
  }

  /** Decoding an encoded kit gives back its files, for every packable list of plain paths within the
      limits. */
  lemma DecodeEncode(entries: seq<Entry>, limits: Limits)
    requires Packable(entries) && PlainPaths(entries) && |entries| <= limits.maxFiles
    requires Encode(entries).Some? ==> |Encode(entries).value| <= limits.maxBytes
    ensures Encode(entries).Some? && Decode(Encode(entries).value, limits) == Some(entries)
  {
    hide Scan, Encode, SafePath, Pow8, Plain;
    EncodeShape(entries);
    var bytes := Encode(entries).value;
    ScanEncoded([], entries, limits.maxFiles, []);
    assert [] + bytes == bytes;
  }

  lemma {:induction false} ScanSafe(bytes: seq<byte>, offset: nat, maxFiles: nat, seen: seq<string>)
    requires offset + 2 * BLOCK <= |bytes|
    ensures var r := Scan(bytes, offset, maxFiles, seen);
      r.Some? ==>
        && |seen| + |r.value.entries| <= Larger(maxFiles, |seen|)
        && forall i :: 0 <= i < |r.value.entries| ==> SafePath(r.value.entries[i].path)
    decreases |bytes| - offset
  {
    hide SafePath, Sum, ReadOctal, Blocks;
    if !ZeroBlock(bytes, offset) && |seen| < maxFiles {
      var header := ReadHeader(bytes[offset..offset + BLOCK]);
      if header.Some? {
        BlocksCover(header.value.size);
        var next := offset + BLOCK + Blocks(header.value.size) * BLOCK;
        if header.value.path !in seen && next <= |bytes| - 2 * BLOCK {
          ScanSafe(bytes, next, maxFiles, seen + [header.value.path]);
        }
      }
    }
  }

  function Larger(a: nat, b: nat): nat { if a < b then b else a }

  lemma {:induction false} EncodedSizes(entries: seq<Entry>)
    requires Encode(entries).Some?
    ensures forall i :: 0 <= i < |entries| ==> |entries[i].bytes| < Pow8(11)
  {
    hide Pow8, BareHeader, OctalText;
    if entries != [] {
      SizeField(|entries[0].bytes|);
      EncodedSizes(entries[1..]);
    }
  }

  /** What is read and is written again as it was has plain paths only. */
  lemma {:induction false} ScannedPlain(bytes: seq<byte>, offset: nat, maxFiles: nat, seen: seq<string>)
    requires offset + 2 * BLOCK <= |bytes| && Scan(bytes, offset, maxFiles, seen).Some?
    requires Encode(Scan(bytes, offset, maxFiles, seen).value.entries) == Some(bytes[offset..])
    ensures PlainPaths(Scan(bytes, offset, maxFiles, seen).value.entries)
    decreases |bytes| - offset
  {
    hide Header, ReadHeader, Plain, Blocks, Padding, ZeroBlock;
    var entries := Scan(bytes, offset, maxFiles, seen).value.entries;
    if entries != [] {
      var e := entries[0];
      var header := ReadHeader(bytes[offset..offset + BLOCK]).value;
      BlocksCover(header.size);
      var next := offset + BLOCK + Blocks(header.size) * BLOCK;
      var rest := Encode(entries[1..]).value;
      var file := Header(e).value + e.bytes + Zeros(Padding(|e.bytes|));
      assert bytes[offset..] == file + rest;
      assert bytes[offset..offset + BLOCK] == bytes[offset..][..BLOCK] == Header(e).value;
      HeaderReadsPlain(e);
      assert bytes[next..] == bytes[offset..][|file|..] == rest;
      ScannedPlain(bytes, next, maxFiles, seen + [header.path]);
    }
  }

  /** Exactly the canonical files are accepted: a byte string decodes to some files if and only if it
      is the encoding of those files, their paths are plain, and they are packable and within the
      limits. */
  lemma DecodeExact(bytes: seq<byte>, limits: Limits, entries: seq<Entry>)
    ensures Decode(bytes, limits) == Some(entries)
      <==> Packable(entries) && PlainPaths(entries) && Encode(entries) == Some(bytes)
           && |entries| <= limits.maxFiles && |bytes| <= limits.maxBytes
  {
    hide Scan, Encode, SafePath, Pow8, ZeroBlock, Lexical, Plain;
    if Decode(bytes, limits) == Some(entries) {
      ScanSafe(bytes, 0, limits.maxFiles, []);
      EncodedSizes(entries);
      assert bytes[0..] == bytes;
      ScannedPlain(bytes, 0, limits.maxFiles, []);
    }
    if Packable(entries) && PlainPaths(entries) && Encode(entries) == Some(bytes) && |entries| <= limits.maxFiles
      && |bytes| <= limits.maxBytes {
      DecodeEncode(entries, limits);
    }
  }

  /** Everything the packer accepts is written, and within the limits it is read back exactly when its
      paths are plain. */
  lemma RoundTripExact(entries: seq<Entry>, limits: Limits)
    requires Packable(entries) && |entries| <= limits.maxFiles
    requires Encode(entries).Some? ==> |Encode(entries).value| <= limits.maxBytes
    ensures Encode(entries).Some?
    ensures Decode(Encode(entries).value, limits) == Some(entries) <==> PlainPaths(entries)
  {
    hide Encode, Decode, Packable, PlainPaths;
    EncodeShape(entries);
    DecodeExact(Encode(entries).value, limits, entries);
  }

  /** A path that is safe but not plain: it is accepted, and reads back as another path. */
  lemma OtherPathReadsBack(bytes: seq<byte>, limits: Limits)
    requires |bytes| < Pow8(11) && limits.maxFiles >= 1
    requires Encode([Entry("A", bytes)]).Some? ==> |Encode([Entry("A", bytes)]).value| <= limits.maxBytes
    ensures Packable([Entry("\U{0141}", bytes)]) && Encode([Entry("\U{0141}", bytes)]).Some?
    ensures Decode(Encode([Entry("\U{0141}", bytes)]).value, limits) == Some([Entry("A", bytes)])
  {
    hide Pow8, Decode, BareHeader, OctalField;
    var written, read := Entry("\U{0141}", bytes), Entry("A", bytes);
    OneLetterSafe();
    assert [written][1..] == [read][1..] == [];
    EncodeShape([written]);
    RoundTripExact([read], limits);
    assert AsciiBytes(written.path) == AsciiBytes(read.path);
    SameName(written, read);
  }

  lemma SameName(a: Entry, b: Entry)
    requires AsciiBytes(a.path) == AsciiBytes(b.path) && a.bytes == b.bytes
    ensures Header(a) == Header(b)
  {
  }

  lemma OneLetterSafe()
    ensures SafePath("\U{0141}") && SafePath("A") && Plain("A") && AsciiBytes("\U{0141}") == AsciiBytes("A")
  {
    assert "\U{0141}"[1..] == "A"[1..] == "";
    SplitOne('\U{0141}');
    SplitOne('A');
  }

  lemma SplitOne(c: char)
    requires c != '/'
    ensures Split([c]) == [[c]]
  {
    assert [c][1..] == "" && Split("") == [""];
    assert [c] + "" == [c];
  }
}
