/** UTF-8 as the host reads and writes it (RFC 3629): the length of a text, and the text of any bytes,
    with U+FFFD in place of what is malformed, as the Encoding Standard of WHATWG prescribes. */
module Utf8 {
  newtype byte = x: int | 0 <= x < 256

  const REPLACEMENT: char := '\U{FFFD}'

  /** Bytes of one scalar value in UTF-8. */
  function CharBytes(c: char): nat {
    if c as int < 0x80 then 1 else if c as int < 0x800 then 2 else if c as int < 0x10000 then 3 else 4
  }

  /** `new TextEncoder().encode(s).length` */
  function Utf8Length(s: string): nat {
    if s == [] then 0 else CharBytes(s[0]) + Utf8Length(s[1..])
  }

  lemma {:induction false} Utf8Append(a: string, b: string)
    ensures Utf8Length(a + b) == Utf8Length(a) + Utf8Length(b)
  {
    if a == [] {
      assert a + b == b;
    } else {
      assert (a + b)[1..] == a[1..] + b;
      Utf8Append(a[1..], b);
    }
  }

  // ---- Decoding ----

  /** How many bytes follow a lead byte; none for any other byte. */
  function Tail(lead: byte): nat {
    if 0xC2 <= lead <= 0xDF then 1 else if 0xE0 <= lead <= 0xEF then 2 else if 0xF0 <= lead <= 0xF4 then 3 else 0
  }

  /** The second byte is restricted where the scalar value would be overlong, a surrogate or too big. */
  predicate Second(lead: byte, b: byte) {
    && (if lead == 0xE0 then 0xA0 else if lead == 0xF0 then 0x90 else 0x80) <= b
    && b <= (if lead == 0xED then 0x9F else if lead == 0xF4 then 0x8F else 0xBF)
  }

  predicate Continues(s: seq<byte>, i: nat) { i < |s| && 0x80 <= s[i] <= 0xBF }

  datatype Decoded = Decoded(c: char, used: nat)

  /** The first character of the text and the bytes it takes; a malformed start is replaced up to the
      first byte that cannot follow. */
  function FirstChar(s: seq<byte>): (d: Decoded)
    requires s != []
    ensures 1 <= d.used <= |s|
  {
    var lead := s[0];
    if lead < 0x80 then Decoded((lead as int) as char, 1)
    else if Tail(lead) == 0 || |s| == 1 || !Second(lead, s[1]) then Decoded(REPLACEMENT, 1)
    else if Tail(lead) == 1 then Decoded(((lead as int - 0xC0) * 0x40 + (s[1] as int - 0x80)) as char, 2)
    else if !Continues(s, 2) then Decoded(REPLACEMENT, 2)
    else if Tail(lead) == 2 then
      Decoded(((lead as int - 0xE0) * 0x1000 + (s[1] as int - 0x80) * 0x40 + (s[2] as int - 0x80)) as char, 3)
    else if !Continues(s, 3) then Decoded(REPLACEMENT, 3)
    else
      Decoded(((lead as int - 0xF0) * 0x40000 + (s[1] as int - 0x80) * 0x1000 + (s[2] as int - 0x80) * 0x40
               + (s[3] as int - 0x80)) as char, 4)
  }

  /** `buffer.toString('utf8')` */
  function Utf8Text(s: seq<byte>): string {
    if s == [] then "" else [FirstChar(s).c] + Utf8Text(s[FirstChar(s).used..])
  }

  // ---- Low bytes ----

  /** The low byte of each UTF-16 unit of a character. */
  function LowBytes(c: char): (bytes: seq<byte>)
    ensures 1 <= |bytes| <= 2
  {
    var n := c as int;
    if n < 0x10000 then [(n % 256) as byte]
    else [((n - 0x10000) / 0x400 % 256) as byte, (n % 0x400 % 256) as byte]
  }

  /** `Buffer.from(value, 'ascii')` */
  function AsciiBytes(value: string): (bytes: seq<byte>)
    ensures |value| <= |bytes|
  {
    if value == "" then [] else LowBytes(value[0]) + AsciiBytes(value[1..])
  }

  /** The characters that one byte stands for in both directions. */
  predicate PlainChar(c: char) { c as int < 0x80 || c == REPLACEMENT }

  predicate Plain(value: string) { forall i :: 0 <= i < |value| ==> PlainChar(value[i]) }

  /** A character never has more low bytes than it took to decode, and as many only when it is plain. */
  lemma FirstLowBytes(s: seq<byte>)
    requires s != []
    ensures var d := FirstChar(s); |LowBytes(d.c)| <= d.used && (|LowBytes(d.c)| == d.used ==> PlainChar(d.c))
  {
  }

  /** Text read from bytes has at most as many low bytes, and as many only when it is plain. */
  lemma {:induction false} TextLowBytes(s: seq<byte>)
    ensures |AsciiBytes(Utf8Text(s))| <= |s|
    ensures |AsciiBytes(Utf8Text(s))| == |s| ==> Plain(Utf8Text(s))
  {
    hide FirstChar, LowBytes, PlainChar;
    if s != [] {
      var d := FirstChar(s);
      FirstLowBytes(s);
      TextLowBytes(s[d.used..]);
      var rest := Utf8Text(s[d.used..]);
      assert Utf8Text(s)[1..] == rest;
    }
  }

  /** Exactly plain text survives being written as low bytes and read as UTF-8. */
  lemma PlainTrip(value: string)
    ensures Utf8Text(AsciiBytes(value)) == value <==> Plain(value)
    ensures Plain(value) ==> |AsciiBytes(value)| == |value|
  {
    hide FirstChar, LowBytes, PlainChar;
    if Plain(value) { PlainReads(value); }
    if Utf8Text(AsciiBytes(value)) == value { TextLowBytes(AsciiBytes(value)); }
  }

  lemma {:induction false} PlainReads(value: string)
    requires Plain(value)
    ensures Utf8Text(AsciiBytes(value)) == value && |AsciiBytes(value)| == |value|
  {
    if value != "" {
      PlainReads(value[1..]);
      var s := AsciiBytes(value);
      assert PlainChar(value[0]);
      assert FirstChar(s) == Decoded(value[0], 1);
      assert s[1..] == AsciiBytes(value[1..]);
    }
  }

  /** The low bytes of a text are never more than its bytes. */
  lemma {:induction false} LowBytesFit(value: string)
    ensures |AsciiBytes(value)| <= Utf8Length(value)
  {
    if value != "" { LowBytesFit(value[1..]); }
  }
}
