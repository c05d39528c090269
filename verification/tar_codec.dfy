/** The tar writer and reader as loops over byte arrays (`tarHeader`, `encodeTar` and `decodeTar` in
    src/verifier-kit.ts), proved to compute the format. */
module TarCodec {
  import opened TarFormat
  import opened Utf8
  import opened Wrappers

  /** `target.set(bytes, offset)` */
  method WriteBytes(target: array<byte>, offset: nat, bytes: seq<byte>)
    requires offset + |bytes| <= target.Length
    modifies target
    ensures target[..] == Splice(old(target[..]), offset, bytes)
  {
    var i := 0;
    while i < |bytes|
      invariant 0 <= i <= |bytes|
      invariant target[..] == Splice(old(target[..]), offset, bytes[..i])
    {
      ghost var before := target[..];
      target[offset + i] := bytes[i];
      assert target[..] == before[offset + i := bytes[i]];
      SpliceMore(old(target[..]), offset, bytes, i);
      i := i + 1;
    }
    assert bytes[..i] == bytes;
  }

  lemma SpliceMore(s: seq<byte>, offset: nat, bytes: seq<byte>, i: nat)
    requires offset + |bytes| <= |s| && i < |bytes|
    ensures Splice(s, offset, bytes[..i])[offset + i := bytes[i]] == Splice(s, offset, bytes[..i + 1])
  {
  }

  method WriteAscii(target: array<byte>, offset: nat, length: nat, value: string) returns (ok: bool)
    requires offset + length <= target.Length
    modifies target
    ensures ok <==> |AsciiBytes(value)| <= length
    ensures target[..] == if ok then Splice(old(target[..]), offset, AsciiBytes(value)) else old(target[..])
  {
    var bytes := AsciiBytes(value);
    if |bytes| > length { return false; }
    WriteBytes(target, offset, bytes);
    ok := true;
  }

  method WriteOctal(target: array<byte>, offset: nat, length: nat, value: nat) returns (ok: bool)
    requires length >= 1 && offset + length <= target.Length
    modifies target
    ensures ok <==> OctalField(value, length).Some?
    ensures ok ==> |OctalField(value, length).value| == length
    ensures target[..] == if ok then Splice(old(target[..]), offset, OctalField(value, length).value)
      else old(target[..])
  {
    var encoded := PadStart(OctalText(value), length - 1);
    if |encoded| >= length { return false; }
    WriteBytes(target, offset, encoded + [0]);
    ok := true;
  }

  method Fill(target: array<byte>, value: byte, from: nat, to: nat)
    requires from <= to <= target.Length
    modifies target
    ensures target[..] == Splice(old(target[..]), from, seq(to - from, _ => value))
  {
    WriteBytes(target, from, seq(to - from, _ => value));
  }

  method Total(bytes: array<byte>) returns (sum: nat)
    ensures sum == Sum(bytes[..])
  {
    sum := 0;
    var i := 0;
    while i < bytes.Length
      invariant 0 <= i <= bytes.Length && sum == Sum(bytes[..i])
    {
      assert bytes[..i + 1] == bytes[..i] + [bytes[i]];
      SumAppend(bytes[..i], [bytes[i]]);
      assert [bytes[i]][1..] == [];
      sum := sum + bytes[i] as int;
      i := i + 1;
    }
    assert bytes[..i] == bytes[..];
  }

  /** The fixed fields: mode 444 and zero owners and times. */
  lemma FixedFields()
    ensures OctalField(292, 8) == Some([0x30, 0x30, 0x30, 0x30, 0x34, 0x34, 0x34, 0])
    ensures OctalField(0, 8) == Some([0x30, 0x30, 0x30, 0x30, 0x30, 0x30, 0x30, 0])
    ensures OctalField(0, 12) == Some([0x30, 0x30, 0x30, 0x30, 0x30, 0x30, 0x30, 0x30, 0x30, 0x30, 0x30, 0])
  {
    assert OctalText(4) == [0x34];
    assert OctalText(36) == [0x34, 0x34];
    assert OctalText(292) == [0x34, 0x34, 0x34];
    assert OctalText(0) == [0x30];
    assert PadStart(OctalText(292), 7) + [0] == [0x30, 0x30, 0x30, 0x30, 0x34, 0x34, 0x34, 0];
    assert PadStart(OctalText(0), 7) + [0] == [0x30, 0x30, 0x30, 0x30, 0x30, 0x30, 0x30, 0];
    assert PadStart(OctalText(0), 11) + [0]
        == [0x30, 0x30, 0x30, 0x30, 0x30, 0x30, 0x30, 0x30, 0x30, 0x30, 0x30, 0];
  }

  method TarHeader(e: Entry) returns (header: Option<array<byte>>)
    ensures header.Some? <==> Header(e).Some?
    ensures header.Some? ==> fresh(header.value) && header.value.Length == BLOCK && header.value[..] == Header(e).value
  {
    hide OctalField, Splice, AsciiBytes, ChecksumField, Sum, Spaces;
    var h := new byte[BLOCK](_ => 0);
    assert h[..] == Zeros(BLOCK);
    FixedFields();
    var named := WriteAscii(h, 0, 100, e.path);
    if !named { return None; }
    var mode := WriteOctal(h, 100, 8, 292);
    var owner := WriteOctal(h, 108, 8, 0);
    var group := WriteOctal(h, 116, 8, 0);
    var sized := WriteOctal(h, 124, 12, |e.bytes|);
    if !sized { return None; }
    var time := WriteOctal(h, 136, 12, 0);
    Blanks();
    Fill(h, 0x20, 148, 156);
    WriteBytes(h, 156, [0x30]);
    WriteBytes(h, 257, USTAR + [0]);
    WriteBytes(h, 263, [0x30, 0x30]);
    ghost var bare := h[..];
    assert bare == BareHeader(e.path, OctalField(|e.bytes|, 12).value);
    var sum := Total(h);
    ChecksumFits(bare);
    WriteBytes(h, 148, ChecksumField(sum));
    header := Some(h);
  }

  lemma Blanks()
    ensures seq(156 - 148, _ => 0x20 as byte) == Spaces()
  {
  }

  method EncodeTar(entries: seq<Entry>) returns (bytes: Option<seq<byte>>)
    ensures bytes == Encode(entries)
  {
    hide Header, Padding;
    var written := [];
    var i := 0;
    assert entries[0..] == entries;
    ContinuedNothing(Encode(entries));
    while i < |entries|
      invariant 0 <= i <= |entries|
      invariant Encode(entries) == Continued(written, Encode(entries[i..]))
    {
      var e := entries[i];
      assert entries[i..][1..] == entries[i + 1..];
      var header := TarHeader(e);
      if header.None? { return None; }
      var file := header.value[..] + e.bytes + Zeros(Padding(|e.bytes|));
      ContinuedFile(written, file, Encode(entries[i + 1..]));
      written := written + file;
      i := i + 1;
    }
    bytes := Some(written + Zeros(2 * BLOCK));
  }

  function Continued(written: seq<byte>, rest: Option<seq<byte>>): Option<seq<byte>> {
    if rest.Some? then Some(written + rest.value) else None
  }

  lemma ContinuedNothing(rest: Option<seq<byte>>)
    ensures Continued([], rest) == rest
  {
    if rest.Some? { assert [] + rest.value == rest.value; }
  }

  lemma ContinuedFile(written: seq<byte>, file: seq<byte>, rest: Option<seq<byte>>)
    ensures rest.Some? ==> Continued(written, Some(file + rest.value)) == Continued(written + file, rest)
    ensures rest.None? ==> Continued(written + file, rest).None?
  {
    if rest.Some? { assert written + file + rest.value == written + (file + rest.value); }
  }

  method IsZeroBlock(bytes: seq<byte>, offset: nat) returns (zero: bool)
    requires offset + BLOCK <= |bytes|
    ensures zero <==> ZeroBlock(bytes, offset)
  {
    var index := offset;
    while index < offset + BLOCK
      invariant offset <= index <= offset + BLOCK && forall i :: offset <= i < index ==> bytes[i] == 0
    {
      if bytes[index] != 0 { return false; }
      index := index + 1;
    }
    zero := true;
  }

  method InOrder(entries: seq<Entry>) returns (ordered: bool)
    ensures ordered <==> Lexical(entries)
  {
    hide Before;
    var i := 1;
    while i < |entries|
      invariant 1 <= i
      invariant forall j, k :: 0 <= j < k < i && k < |entries| ==> Before(entries[j].path, entries[k].path)
    {
      if !Before(entries[i - 1].path, entries[i].path) { return false; }
      forall j | 0 <= j < i ensures Before(entries[j].path, entries[i].path) {
        if j < i - 1 { BeforeTransitive(entries[j].path, entries[i - 1].path, entries[i].path); }
      }
      i := i + 1;
    }
    ordered := true;
  }

  function Preceded(entries: seq<Entry>, rest: Option<Scanned>): Option<Scanned> {
    if rest.Some? then Some(Scanned(entries + rest.value.entries, rest.value.offset)) else None
  }

  lemma PrecededNothing(rest: Option<Scanned>)
    ensures Preceded([], rest) == rest
  {
    if rest.Some? { assert [] + rest.value.entries == rest.value.entries; }
  }

  lemma PrecededFile(entries: seq<Entry>, e: Entry, rest: Option<Scanned>)
    ensures rest.Some? ==>
      Preceded(entries, Some(Scanned([e] + rest.value.entries, rest.value.offset))) == Preceded(entries + [e], rest)
    ensures rest.None? ==> Preceded(entries + [e], rest).None?
  {
    if rest.Some? { assert entries + [e] + rest.value.entries == entries + ([e] + rest.value.entries); }
  }

  /** The loop over the files; None for any thrown error. */
  method ScanFiles(bytes: seq<byte>, maxFiles: nat) returns (scanned: Option<Scanned>)
    requires |bytes| >= 2 * BLOCK
    ensures scanned == Scan(bytes, 0, maxFiles, [])
  {
    hide ReadHeader, ZeroBlock, Blocks;
    var entries, paths, offset := [], [], 0;
    PrecededNothing(Scan(bytes, 0, maxFiles, []));
    var zero := IsZeroBlock(bytes, offset);
    while !zero
      invariant offset + 2 * BLOCK <= |bytes| && |paths| == |entries|
      invariant zero <==> ZeroBlock(bytes, offset)
      invariant Scan(bytes, 0, maxFiles, []) == Preceded(entries, Scan(bytes, offset, maxFiles, paths))
      decreases |bytes| - offset
    {
      if |entries| >= maxFiles { return None; }
      var header := ReadHeader(bytes[offset..offset + BLOCK]);
      if header.None? || header.value.path in paths { return None; }
      var size, content := header.value.size, offset + BLOCK;
      var next := content + Blocks(size) * BLOCK;
      if next > |bytes| - 2 * BLOCK { return None; }
      BlocksCover(size);
      var e := Entry(header.value.path, bytes[content..content + size]);
      PrecededFile(entries, e, Scan(bytes, next, maxFiles, paths + [header.value.path]));
      entries, paths, offset := entries + [e], paths + [header.value.path], next;
      zero := IsZeroBlock(bytes, offset);
    }
    assert entries + [] == entries;
    scanned := Some(Scanned(entries, offset));
  }

  method DecodeTar(bytes: seq<byte>, limits: Limits) returns (entries: Option<seq<Entry>>)
    ensures entries == Decode(bytes, limits)
  {
    hide Scan, Encode, ZeroBlock, Lexical;
    if |bytes| > limits.maxBytes || |bytes| < 2 * BLOCK || |bytes| % BLOCK != 0 { return None; }
    var scanned := ScanFiles(bytes, limits.maxFiles);
    if scanned.None? || scanned.value.offset + 2 * BLOCK != |bytes| { return None; }
    var closed := IsZeroBlock(bytes, scanned.value.offset + BLOCK);
    if !closed { return None; }
    var ordered := InOrder(scanned.value.entries);
    if !ordered { return None; }
    var again := EncodeTar(scanned.value.entries);
    if again != Some(bytes) { return None; }
    entries := Some(scanned.value.entries);
  }
}
