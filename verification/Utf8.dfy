/** UTF-8: encoding scalar values, and decoding bytes with every maximal ill-formed
prefix replaced by U+FFFD. */
module Utf8 {
  import opened Common

  type byte = b: int | 0 <= b < 256

  const REPLACEMENT: char := '\U{FFFD}'

  function EncodeScalar(c: char): (r: seq<byte>)
    ensures 1 <= |r| <= 4
  {
    var n := c as int;
    if n < 0x80 then [n]
    else if n < 0x800 then [0xC0 + n / 64, 0x80 + n % 64]
    else if n < 0x10000 then [0xE0 + n / 4096, 0x80 + n / 64 % 64, 0x80 + n % 64]
    else [0xF0 + n / 262144, 0x80 + n / 4096 % 64, 0x80 + n / 64 % 64, 0x80 + n % 64]
  }

  function Encoded(s: string): seq<byte> {
    if s == "" then [] else EncodeScalar(s[0]) + Encoded(s[1..])
  }

  predicate IsContinuation(t: seq<byte>, i: nat) { i < |t| && 0x80 <= t[i] < 0xC0 }

  /** The second byte that a three-byte or four-byte sequence allows: nothing overlong,
      no surrogate, nothing past U+10FFFF. */
  predicate SecondFits(first: byte, second: byte) {
    (if first == 0xE0 then 0xA0 else if first == 0xF0 then 0x90 else 0x80) <= second
    <= (if first == 0xED then 0x9F else if first == 0xF4 then 0x8F else 0xBF)
  }

  /** What a byte carries beside its marker. */
  function Bits(b: byte, marker: byte): int { b - marker }

  /** One scalar value, or the replacement for one ill-formed prefix, and its length. */
  function DecodeScalar(t: seq<byte>): (r: (char, nat))
    requires t != []
    ensures 1 <= r.1 <= |t|
  {
    var b := t[0];
    if b < 0x80 then (b as char, 1)
    else if 0xC2 <= b < 0xE0 then
      if IsContinuation(t, 1) then ((Bits(b, 0xC0) * 64 + Bits(t[1], 0x80)) as char, 2) else (REPLACEMENT, 1)
    else if 0xE0 <= b < 0xF0 then
      if !(|t| > 1 && SecondFits(b, t[1])) then (REPLACEMENT, 1)
      else if !IsContinuation(t, 2) then (REPLACEMENT, 2)
      else ((Bits(b, 0xE0) * 4096 + Bits(t[1], 0x80) * 64 + Bits(t[2], 0x80)) as char, 3)
    else if 0xF0 <= b < 0xF5 then
      if !(|t| > 1 && SecondFits(b, t[1])) then (REPLACEMENT, 1)
      else if !IsContinuation(t, 2) then (REPLACEMENT, 2)
      else if !IsContinuation(t, 3) then (REPLACEMENT, 3)
      else ((Bits(b, 0xF0) * 262144 + Bits(t[1], 0x80) * 4096 + Bits(t[2], 0x80) * 64 + Bits(t[3], 0x80)) as char, 4)
    else (REPLACEMENT, 1)
  }

  function Lossy(t: seq<byte>): string {
    if t == [] then "" else [DecodeScalar(t).0] + Lossy(t[DecodeScalar(t).1..])
  }

  lemma Digits64(n: nat)
    ensures n == n / 64 * 64 + n % 64
    ensures n == n / 4096 * 4096 + n / 64 % 64 * 64 + n % 64
    ensures n == n / 262144 * 262144 + n / 4096 % 64 * 4096 + n / 64 % 64 * 64 + n % 64
  {
    assert n / 4096 == n / 64 / 64 && n / 262144 == n / 4096 / 64;
  }

  /** A scalar value is read back whatever follows it. */
  lemma DecodeOfEncodeScalar(c: char, rest: seq<byte>)
    ensures DecodeScalar(EncodeScalar(c) + rest) == (c, |EncodeScalar(c)|)
  {
    Digits64(c as int);
  }

  /** The bytes begin with this character. */
  ghost predicate BeginsWith(t: seq<byte>, c: char) { EncodeScalar(c) <= t }

  /** The bytes are the beginning of this character. */
  ghost predicate PartOf(t: seq<byte>, c: char) { t <= EncodeScalar(c) }

  lemma DecodesBeginning(t: seq<byte>, c: char)
    requires BeginsWith(t, c)
    ensures DecodeScalar(t) == (c, |EncodeScalar(c)|)
  {
    var n := |EncodeScalar(c)|;
    assert t == EncodeScalar(c) + t[n..];
    DecodeOfEncodeScalar(c, t[n..]);
  }

  lemma Base64(high: nat, low: nat)
    requires low < 64
    ensures (high * 64 + low) / 64 == high && (high * 64 + low) % 64 == low
  {
  }

  lemma OneByte(t: seq<byte>)
    requires t != [] && t[0] < 0x80
    ensures BeginsWith(t, t[0] as char)
  {
  }

  lemma TwoBytes(a: nat, b: nat)
    requires a < 32 && b < 64 && a >= 2
    ensures EncodeScalar((a * 64 + b) as char) == [0xC0 + a, 0x80 + b]
  {
    Base64(a, b);
  }

  lemma ThreeBytes(a: nat, b: nat, c: nat)
    requires a < 16 && b < 64 && c < 64 && (a == 0 ==> b >= 32) && (a == 13 ==> b < 32)
    ensures 0x800 <= (a * 64 + b) * 64 + c < 0x10000
    ensures EncodeScalar(((a * 64 + b) * 64 + c) as char) == [0xE0 + a, 0x80 + b, 0x80 + c]
  {
    var n := (a * 64 + b) * 64 + c;
    Base64(a * 64 + b, c);
    Base64(a, b);
    assert n / 4096 == n / 64 / 64;
  }

  lemma FourBytes(a: nat, b: nat, c: nat, d: nat)
    requires a < 5 && b < 64 && c < 64 && d < 64 && (a == 0 ==> b >= 16) && (a == 4 ==> b < 16)
    ensures 0x10000 <= ((a * 64 + b) * 64 + c) * 64 + d < 0x110000
    ensures EncodeScalar((((a * 64 + b) * 64 + c) * 64 + d) as char) == [0xF0 + a, 0x80 + b, 0x80 + c, 0x80 + d]
  {
    var n := ((a * 64 + b) * 64 + c) * 64 + d;
    Base64((a * 64 + b) * 64 + c, d);
    Base64(a * 64 + b, c);
    Base64(a, b);
    assert n / 4096 == n / 64 / 64 && n / 262144 == n / 64 / 64 / 64;
  }

  /** What the bytes of one character look like. */
  predicate Shape(e: seq<byte>) {
    && |e| > 0
    && (e[0] < 0x80 ==> |e| == 1)
    && (e[0] >= 0x80 ==> 0xC2 <= e[0] < 0xF5 && |e| == if e[0] < 0xE0 then 2 else if e[0] < 0xF0 then 3 else 4)
    && (forall i | 1 <= i < |e| :: IsContinuation(e, i))
    && (|e| > 2 ==> SecondFits(e[0], e[1]))
  }

  lemma EncodedShape(c: char)
    ensures Shape(EncodeScalar(c))
  {
    var n := c as int;
    if 0x800 <= n < 0x10000 {
      assert n / 64 == n / 4096 * 64 + n / 64 % 64 by {
        assert n / 4096 == n / 64 / 64;
      }
    } else if n >= 0x10000 {
      assert n / 4096 == n / 262144 * 64 + n / 4096 % 64 by {
        assert n / 262144 == n / 4096 / 64;
      }
    }
  }

  /** No character goes on like this. */
  ghost predicate Stuck(t: seq<byte>) { forall c :: !PartOf(t, c) }

  lemma NoPart(t: seq<byte>)
    requires t != [] && forall c :: PartOf(t, c) ==> !Shape(EncodeScalar(c))
    ensures Stuck(t)
  {
    forall c ensures !PartOf(t, c) {
      EncodedShape(c);
    }
  }

  /** One replacement stands for the longest beginning of a character at the front, or for
      one byte if there is none. */
  ghost predicate MaximalPart(t: seq<byte>)
    requires t != []
  {
    var n := DecodeScalar(t).1;
    && DecodeScalar(t).0 == REPLACEMENT
    && (n == 1 || exists c :: PartOf(t[..n], c))
    && (n < |t| ==> Stuck(t[..n + 1]))
  }

  lemma TwoBegin(t: seq<byte>)
    requires t != [] && 0xC2 <= t[0] < 0xE0 && IsContinuation(t, 1)
    ensures exists c :: BeginsWith(t, c)
  {
    var a: int, b: int := Bits(t[0], 0xC0), Bits(t[1], 0x80);
    TwoBytes(a, b);
    assert BeginsWith(t, (a * 64 + b) as char);
  }

  lemma ThreeBegin(t: seq<byte>)
    requires |t| > 1 && 0xE0 <= t[0] < 0xF0 && SecondFits(t[0], t[1]) && IsContinuation(t, 2)
    ensures exists c :: BeginsWith(t, c)
  {
    var a: int, b: int, c: int := Bits(t[0], 0xE0), Bits(t[1], 0x80), Bits(t[2], 0x80);
    ThreeBytes(a, b, c);
    assert BeginsWith(t, ((a * 64 + b) * 64 + c) as char);
  }

  lemma FourBegin(t: seq<byte>)
    requires |t| > 2 && 0xF0 <= t[0] < 0xF5 && SecondFits(t[0], t[1]) && IsContinuation(t, 2) && IsContinuation(t, 3)
    ensures exists c :: BeginsWith(t, c)
  {
    var a: int, b: int, c: int, d: int := Bits(t[0], 0xF0), Bits(t[1], 0x80), Bits(t[2], 0x80), Bits(t[3], 0x80);
    FourBytes(a, b, c, d);
    assert BeginsWith(t, (((a * 64 + b) * 64 + c) * 64 + d) as char);
  }

  lemma IllFormedTwo(t: seq<byte>)
    requires t != [] && 0xC2 <= t[0] < 0xE0 && forall c :: !BeginsWith(t, c)
    ensures MaximalPart(t)
  {
    if IsContinuation(t, 1) {
      TwoBegin(t);
      assert false;
    } else if |t| > 1 {
      NoPart(t[..2]);
    }
  }

  lemma IllFormedThree(t: seq<byte>)
    requires t != [] && 0xE0 <= t[0] < 0xF0 && forall c :: !BeginsWith(t, c)
    ensures MaximalPart(t)
  {
    if !(|t| > 1 && SecondFits(t[0], t[1])) {
      if |t| > 1 {
        NoPart(t[..2]);
      }
    } else {
      if IsContinuation(t, 2) {
        ThreeBegin(t);
        assert false;
      } else {
        var a: int, b: int := Bits(t[0], 0xE0), Bits(t[1], 0x80);
        ThreeBytes(a, b, 0);
        assert PartOf(t[..2], ((a * 64 + b) * 64 + 0) as char);
        if |t| > 2 {
          NoPart(t[..3]);
        }
      }
    }
  }

  lemma FourthByte(t: seq<byte>)
    requires |t| > 2 && 0xF0 <= t[0] < 0xF5 && SecondFits(t[0], t[1]) && IsContinuation(t, 2) && forall c :: !BeginsWith(t, c)
    ensures MaximalPart(t)
  {
    if IsContinuation(t, 3) {
      FourBegin(t);
      assert false;
    } else {
      var a: int, b: int, c: int := Bits(t[0], 0xF0), Bits(t[1], 0x80), Bits(t[2], 0x80);
      FourBytes(a, b, c, 0);
      assert PartOf(t[..3], (((a * 64 + b) * 64 + c) * 64 + 0) as char);
      if |t| > 3 {
        NoPart(t[..4]);
      }
    }
  }

  lemma IllFormedFour(t: seq<byte>)
    requires t != [] && 0xF0 <= t[0] < 0xF5 && forall c :: !BeginsWith(t, c)
    ensures MaximalPart(t)
  {
    if !(|t| > 1 && SecondFits(t[0], t[1])) {
      if |t| > 1 {
        NoPart(t[..2]);
      }
    } else if IsContinuation(t, 2) {
      FourthByte(t);
    } else {
      var a: int, b: int := Bits(t[0], 0xF0), Bits(t[1], 0x80);
      FourBytes(a, b, 0, 0);
      assert PartOf(t[..2], (((a * 64 + b) * 64 + 0) * 64 + 0) as char);
      if |t| > 2 {
        NoPart(t[..3]);
      }
    }
  }

  /** The next scalar value: the character that the bytes begin with, if there is one, and
      otherwise the replacement of the longest beginning of one. */
  lemma DecodeScalarIs(t: seq<byte>)
    requires t != []
    ensures forall c | BeginsWith(t, c) :: DecodeScalar(t) == (c, |EncodeScalar(c)|)
    ensures (forall c :: !BeginsWith(t, c)) ==> MaximalPart(t)
  {
    forall c | BeginsWith(t, c) ensures DecodeScalar(t) == (c, |EncodeScalar(c)|) {
      DecodesBeginning(t, c);
    }
    if forall c :: !BeginsWith(t, c) {
      if t[0] < 0x80 {
        OneByte(t);
        assert false;
      } else if 0xC2 <= t[0] < 0xE0 {
        IllFormedTwo(t);
      } else if 0xE0 <= t[0] < 0xF0 {
        IllFormedThree(t);
      } else if 0xF0 <= t[0] < 0xF5 {
        IllFormedFour(t);
      } else if |t| > 1 {
        NoPart(t[..2]);
      }
    }
  }

  /** Decoding undoes encoding for every string: valid UTF-8 loses nothing. */
  lemma {:induction false} LossyOfEncoded(s: string)
    ensures Lossy(Encoded(s)) == s
  {
    if s != "" {
      var first, rest := EncodeScalar(s[0]), Encoded(s[1..]);
      DecodeOfEncodeScalar(s[0], rest);
      LossyOfEncoded(s[1..]);
      assert (first + rest)[|first|..] == rest && s == [s[0]] + s[1..];
    }
  }

  ghost predicate IsAscii(t: seq<byte>) { forall i | 0 <= i < |t| :: t[i] < 0x80 }

  function AsciiText(t: seq<byte>): (s: string)
    requires IsAscii(t)
    ensures |s| == |t|
  {
    seq(|t|, i requires 0 <= i < |t| => t[i] as char)
  }

  lemma {:induction false} EncodedAscii(t: seq<byte>)
    requires IsAscii(t)
    ensures Encoded(AsciiText(t)) == t
  {
    if t != [] {
      EncodedAscii(t[1..]);
      assert AsciiText(t)[1..] == AsciiText(t[1..]) && t == [t[0]] + t[1..];
    }
  }
}
