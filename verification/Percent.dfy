/** Splitting on a separator, and the percent coding of RFC 3986 sections 2.1 and 2.3
over bytes. */
module Percent {
  import opened Common
  import opened Utf8

  // ---- splitting and joining -----------------------------------------------

  function Split<T(==)>(s: seq<T>, sep: T): (parts: seq<seq<T>>)
    ensures parts != []
  {
    if s == [] then [[]]
    else
      var rest := Split(s[1..], sep);
      if s[0] == sep then [[]] + rest else [[s[0]] + rest[0]] + rest[1..]
  }

  function Join<T>(parts: seq<seq<T>>, sep: T): seq<T>
    requires parts != []
  {
    if |parts| == 1 then parts[0] else parts[0] + [sep] + Join(parts[1..], sep)
  }

  ghost predicate Free<T>(s: seq<T>, sep: T) { forall i | 0 <= i < |s| :: s[i] != sep }

  ghost predicate AllFree<T>(parts: seq<seq<T>>, sep: T) { forall k | 0 <= k < |parts| :: Free(parts[k], sep) }

  /** Splitting loses nothing and leaves no separator in a part. */
  lemma {:induction false} JoinOfSplit<T>(s: seq<T>, sep: T)
    ensures Join(Split(s, sep), sep) == s && AllFree(Split(s, sep), sep)
  {
    if s != [] {
      JoinOfSplit(s[1..], sep);
      var rest := Split(s[1..], sep);
      assert s == [s[0]] + s[1..];
      if s[0] == sep {
        assert ([[]] + rest)[1..] == rest;
      } else {
        var parts := [[s[0]] + rest[0]] + rest[1..];
        assert parts[1..] == rest[1..];
        assert |rest| > 1 ==> Join(parts, sep) == [s[0]] + rest[0] + [sep] + Join(rest[1..], sep);
      }
    }
  }

  lemma {:induction false} SplitOfJoin<T>(parts: seq<seq<T>>, sep: T)
    requires parts != [] && AllFree(parts, sep)
    ensures Split(Join(parts, sep), sep) == parts
    decreases |parts|
  {
    if |parts| == 1 {
      SplitFree(parts[0], sep);
      assert parts == [parts[0]];
    } else {
      assert AllFree(parts[1..], sep);
      SplitOfJoin(parts[1..], sep);
      SplitAtSeparator(parts[0], sep, Join(parts[1..], sep));
      assert parts == [parts[0]] + parts[1..];
    }
  }

  lemma {:induction false} SplitFree<T>(s: seq<T>, sep: T)
    requires Free(s, sep)
    ensures Split(s, sep) == [s]
  {
    if s != [] {
      assert s[0] != sep;
      SplitFree(s[1..], sep);
      assert s == [s[0]] + s[1..];
    }
  }

  lemma {:induction false} SplitAtSeparator<T>(head: seq<T>, sep: T, tail: seq<T>)
    requires Free(head, sep)
    ensures Split(head + [sep] + tail, sep) == [head] + Split(tail, sep)
    decreases |head|
  {
    var s := head + [sep] + tail;
    if head == [] {
      assert s[1..] == tail;
    } else {
      assert s[1..] == head[1..] + [sep] + tail && head[0] != sep;
      SplitAtSeparator(head[1..], sep, tail);
      assert head == [head[0]] + head[1..];
    }
  }

  // ---- percent coding ------------------------------------------------------

  const PERCENT: byte := 0x25
  const SLASH: byte := 0x2F

  /** ALPHA, DIGIT, "-", ".", "_" and "~". */
  predicate IsUnreserved(b: byte) {
    || 0x30 <= b <= 0x39 || 0x41 <= b <= 0x5A || 0x61 <= b <= 0x7A
    || b == 0x2D || b == 0x2E || b == 0x5F || b == 0x7E
  }

  function HexDigit(n: nat): byte
    requires n < 16
  {
    if n < 10 then 0x30 + n else 0x41 + n - 10
  }

  function HexValue(b: byte): (v: Option<nat>)
    ensures v.Some? ==> v.value < 16
  {
    if 0x30 <= b <= 0x39 then Some(b - 0x30)
    else if 0x61 <= b <= 0x66 then Some(b - 0x61 + 10)
    else if 0x41 <= b <= 0x46 then Some(b - 0x41 + 10)
    else None
  }

  function EncodeByte(b: byte): seq<byte> {
    if IsUnreserved(b) then [b] else [PERCENT, HexDigit(b / 16), HexDigit(b % 16)]
  }

  function Encode(s: seq<byte>): seq<byte> {
    if s == [] then [] else EncodeByte(s[0]) + Encode(s[1..])
  }

  /** A percent sign with two hexadecimal digits after it. */
  predicate IsEscape(t: seq<byte>) {
    |t| > 2 && t[0] == PERCENT && HexValue(t[1]).Some? && HexValue(t[2]).Some?
  }

  function Decode(t: seq<byte>): seq<byte> {
    if t == [] then []
    else if IsEscape(t) then [HexValue(t[1]).value * 16 + HexValue(t[2]).value] + Decode(t[3..])
    else [t[0]] + Decode(t[1..])
  }

  /** Upper-case hexadecimal digit. */
  predicate IsUpperHex(b: byte) { 0x30 <= b <= 0x39 || 0x41 <= b <= 0x46 }

  /** Unreserved bytes, and upper-case escapes of all others. */
  predicate Canonical(t: seq<byte>) {
    || t == []
    || (IsUnreserved(t[0]) && Canonical(t[1..]))
    || (IsEscape(t) && IsUpperHex(t[1]) && IsUpperHex(t[2])
        && !IsUnreserved(HexValue(t[1]).value * 16 + HexValue(t[2]).value) && Canonical(t[3..]))
  }

  /** The bytes that stand for themselves: ASCII letters and digits, and "-", ".", "_"
      and "~". */
  lemma PlainIff(b: byte)
    ensures var c := b as char;
            EncodeByte(b) == [b]
            <==> 'A' <= c <= 'Z' || 'a' <= c <= 'z' || '0' <= c <= '9' || c == '-' || c == '.' || c == '_' || c == '~'
  {
  }

  /** A hexadecimal digit of either case stands for its place in the list of digits. */
  lemma HexIff(b: byte, v: nat)
    ensures HexValue(b) == Some(v) <==> v < 16 && ((b as char) == "0123456789abcdef"[v] || (b as char) == "0123456789ABCDEF"[v])
  {
  }

  /** A percent sign with two hexadecimal digits behind it is the byte that they spell. */
  lemma DecodeEscape(t: seq<byte>, high: nat, low: nat)
    requires |t| > 2 && t[0] as char == '%' && HexValue(t[1]) == Some(high) && HexValue(t[2]) == Some(low)
    ensures Decode(t) == [high * 16 + low] + Decode(t[3..])
  {
    assert IsEscape(t);
  }

  /** Any other byte stands for itself. */
  lemma DecodePlain(t: seq<byte>)
    requires t != [] && (t[0] as char != '%' || |t| < 3 || HexValue(t[1]).None? || HexValue(t[2]).None?)
    ensures Decode(t) == [t[0]] + Decode(t[1..])
  {
    assert !IsEscape(t);
  }

  lemma HexRoundTrip(n: nat)
    requires n < 16
    ensures HexValue(HexDigit(n)) == Some(n) && IsUpperHex(HexDigit(n))
  {
  }

  /** Decoding undoes encoding, and encodings are canonical. */
  lemma {:induction false} DecodeOfEncode(s: seq<byte>)
    ensures Decode(Encode(s)) == s && Canonical(Encode(s)) && Free(Encode(s), SLASH)
  {
    if s != [] {
      var b := s[0];
      var rest := Encode(s[1..]);
      DecodeOfEncode(s[1..]);
      assert s == [b] + s[1..];
      HexRoundTrip(b / 16);
      HexRoundTrip(b % 16);
      var t := EncodeByte(b) + rest;
      assert t[|EncodeByte(b)|..] == rest;
    }
  }

  /** Encoding undoes decoding exactly on canonical text, so the two are inverse
      bijections between all byte strings and canonical text. */
  lemma {:induction false} EncodeOfDecode(t: seq<byte>)
    ensures Encode(Decode(t)) == t <==> Canonical(t)
  {
    DecodeOfEncode(Decode(t));
    if Canonical(t) {
      CanonicalIsEncoded(t);
    }
  }

  lemma {:induction false} CanonicalIsEncoded(t: seq<byte>)
    requires Canonical(t)
    ensures Encode(Decode(t)) == t
  {
    if t == [] {
    } else if IsUnreserved(t[0]) {
      CanonicalIsEncoded(t[1..]);
      assert t == [t[0]] + t[1..];
    } else {
      CanonicalIsEncoded(t[3..]);
      assert t == [t[0], t[1], t[2]] + t[3..];
      var b: byte := HexValue(t[1]).value * 16 + HexValue(t[2]).value;
      assert b / 16 == HexValue(t[1]).value && b % 16 == HexValue(t[2]).value;
    }
  }

  lemma EncodeNext(input: seq<byte>, i: nat, out: seq<byte>)
    requires i < |input|
    ensures out + Encode(input[i..]) == (out + EncodeByte(input[i])) + Encode(input[i + 1..])
  {
    assert input[i..][0] == input[i] && input[i..][1..] == input[i + 1..];
  }

  method EncodeBytes(input: seq<byte>) returns (out: seq<byte>)
    ensures out == Encode(input)
    ensures Decode(out) == input
  {
    out := [];
    assert input[0..] == input;
    for i := 0 to |input|
      invariant out + Encode(input[i..]) == Encode(input)
    {
      var b := input[i];
      EncodeNext(input, i, out);
      if IsUnreserved(b) {
        out := out + [b];
      } else {
        out := out + [PERCENT, HexDigit(b / 16), HexDigit(b % 16)];
      }
    }
    DecodeOfEncode(input);
  }

  /** How much of the text the first decoded byte takes, and that byte. */
  lemma DecodeNext(input: seq<byte>, i: nat, out: seq<byte>)
    requires i < |input|
    ensures IsEscape(input[i..]) ==>
              out + Decode(input[i..])
              == (out + [HexValue(input[i + 1]).value * 16 + HexValue(input[i + 2]).value]) + Decode(input[i + 3..])
    ensures !IsEscape(input[i..]) ==> out + Decode(input[i..]) == (out + [input[i]]) + Decode(input[i + 1..])
  {
    var t := input[i..];
    assert t[0] == input[i] && t[1..] == input[i + 1..];
    if IsEscape(t) {
      assert t[1] == input[i + 1] && t[2] == input[i + 2] && t[3..] == input[i + 3..];
    }
  }

  method DecodeBytes(input: seq<byte>) returns (out: seq<byte>)
    ensures out == Decode(input)
  {
    out := [];
    var i := 0;
    assert input[0..] == input;
    while i < |input|
      invariant i <= |input| && out + Decode(input[i..]) == Decode(input)
    {
      DecodeNext(input, i, out);
      if input[i] == PERCENT && i + 2 < |input| && HexValue(input[i + 1]).Some? && HexValue(input[i + 2]).Some? {
        out := out + [HexValue(input[i + 1]).value * 16 + HexValue(input[i + 2]).value];
        i := i + 3;
      } else {
        out := out + [input[i]];
        i := i + 1;
      }
    }
  }

  // ---- text ----------------------------------------------------------------

  lemma {:induction false} EncodeIsAscii(s: seq<byte>)
    ensures IsAscii(Encode(s))
  {
    if s != [] {
      EncodeIsAscii(s[1..]);
    }
  }

  function EncodeText(s: string): string {
    EncodeIsAscii(Encoded(s));
    AsciiText(Encode(Encoded(s)))
  }

  /** The decoded bytes, read leniently as UTF-8. */
  function DecodeText(t: string): string { Lossy(Decode(Encoded(t))) }

  /** Decoding undoes encoding for every string. */
  lemma TextRoundTrip(s: string)
    ensures DecodeText(EncodeText(s)) == s
  {
    EncodeIsAscii(Encoded(s));
    EncodedAscii(Encode(Encoded(s)));
    DecodeOfEncode(Encoded(s));
    LossyOfEncoded(s);
  }

  method PercentEncode(input: string) returns (out: string)
    ensures out == EncodeText(input) && DecodeText(out) == input
  {
    var bytes := EncodeBytes(Encoded(input));
    EncodeIsAscii(Encoded(input));
    TextRoundTrip(input);
    out := AsciiText(bytes);
  }

  method PercentDecode(input: string) returns (out: string)
    ensures out == DecodeText(input)
  {
    var bytes := DecodeBytes(Encoded(input));
    out := Lossy(bytes);
  }

  // ---- paths ---------------------------------------------------------------

  function EncodeAll(parts: seq<seq<byte>>): (r: seq<seq<byte>>)
    ensures |r| == |parts|
  {
    seq(|parts|, k requires 0 <= k < |parts| => Encode(parts[k]))
  }

  function DecodeAll(parts: seq<seq<byte>>): (r: seq<seq<byte>>)
    ensures |r| == |parts|
  {
    seq(|parts|, k requires 0 <= k < |parts| => Decode(parts[k]))
  }

  function EncodePath(path: seq<byte>): seq<byte> { Join(EncodeAll(Split(path, SLASH)), SLASH) }

  /** Encoding a path keeps its segments apart: splitting the result gives the encoded
      segments, and decoding those gives the path back. */
  lemma EncodePathCommutes(path: seq<byte>)
    ensures Split(EncodePath(path), SLASH) == EncodeAll(Split(path, SLASH))
    ensures Join(DecodeAll(Split(EncodePath(path), SLASH)), SLASH) == path
  {
    var parts := Split(path, SLASH);
    var encoded := EncodeAll(parts);
    JoinOfSplit(path, SLASH);
    forall k | 0 <= k < |parts| ensures Free(encoded[k], SLASH) && Decode(encoded[k]) == parts[k] {
      DecodeOfEncode(parts[k]);
    }
    SplitOfJoin(encoded, SLASH);
    assert DecodeAll(encoded) == parts;
  }
}
