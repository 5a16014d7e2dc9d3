/**
 UTF-8 (`str.encode()` with its default codec): each character becomes one
 to four octets according to its code point. A strict decoder, which rejects
 truncated sequences, bad continuation octets, overlong forms and encoded
 surrogates, is the encoder's partner.
 */
module Utf8 {
  import opened Bytes
  import opened Outcomes

  /** The octets of one character. */
  function EncodeChar(c: char): (bs: seq<byte>)
    ensures 1 <= |bs| <= 4
  {
    var cp := c as int;
    if cp < 0x80 then [cp]
    else if cp < 0x800 then [0xC0 + cp / 64, 0x80 + cp % 64]
    else if cp < 0x10000 then [0xE0 + cp / 4096, 0x80 + cp / 64 % 64, 0x80 + cp % 64]
    else [0xF0 + cp / 262144, 0x80 + cp / 4096 % 64, 0x80 + cp / 64 % 64, 0x80 + cp % 64]
  }

  /** `s.encode()`: the characters' octets, in order. */
  function Encode(s: string): seq<byte> {
    if |s| == 0 then [] else EncodeChar(s[0]) + Encode(s[1..])
  }

  /** Why an octet string is not UTF-8. */
  datatype DecodeError = InvalidStart | Truncated | InvalidContinuation | Overlong | Surrogate | TooLarge

  /** An octet of the form 10xxxxxx, which continues a multi-octet sequence. */
  predicate Continuation(b: byte) {
    0x80 <= b < 0xC0
  }

  /** A two-octet sequence, from its lead and continuation octets. */
  function DecodeTwo(b0: byte, b1: byte): Result<char, DecodeError>
    requires 0xC0 <= b0 < 0xE0
  {
    var cp := (b0 - 0xC0) * 64 + (b1 - 0x80);
    if !Continuation(b1) then Failure(InvalidContinuation)
    else if cp < 0x80 then Failure(Overlong)
    else Success(cp as char)
  }

  /** A three-octet sequence. */
  function DecodeThree(b0: byte, b1: byte, b2: byte): Result<char, DecodeError>
    requires 0xE0 <= b0 < 0xF0
  {
    var cp := (b0 - 0xE0) * 4096 + (b1 - 0x80) * 64 + (b2 - 0x80);
    if !Continuation(b1) || !Continuation(b2) then Failure(InvalidContinuation)
    else if cp < 0x800 then Failure(Overlong)
    else if 0xD800 <= cp < 0xE000 then Failure(Surrogate)
    else Success(cp as char)
  }

  /** A four-octet sequence. */
  function DecodeFour(b0: byte, b1: byte, b2: byte, b3: byte): Result<char, DecodeError>
    requires 0xF0 <= b0 < 0xF8
  {
    var cp := (b0 - 0xF0) * 262144 + (b1 - 0x80) * 4096 + (b2 - 0x80) * 64 + (b3 - 0x80);
    if !Continuation(b1) || !Continuation(b2) || !Continuation(b3) then Failure(InvalidContinuation)
    else if cp < 0x10000 then Failure(Overlong)
    else if cp >= 0x110000 then Failure(TooLarge)
    else Success(cp as char)
  }

  /** How many octets a sequence starting with `b0` has, or 0 when `b0` cannot start one. */
  function SequenceLength(b0: byte): nat {
    if b0 < 0x80 then 1
    else if b0 < 0xC0 then 0
    else if b0 < 0xE0 then 2
    else if b0 < 0xF0 then 3
    else if b0 < 0xF8 then 4
    else 0
  }

  /** The first character of an octet string and the number of octets it takes. */
  function DecodeFirst(bs: seq<byte>): (r: Result<(char, nat), DecodeError>)
    requires |bs| > 0
    ensures r.Success? ==> 1 <= r.value.1 <= |bs|
  {
    var n := SequenceLength(bs[0]);
    if n == 0 then Failure(InvalidStart)
    else if |bs| < n then Failure(Truncated)
    else if n == 1 then Success((bs[0] as char, 1))
    else if n == 2 then
      var c :- DecodeTwo(bs[0], bs[1]);
      Success((c, 2))
    else if n == 3 then
      var c :- DecodeThree(bs[0], bs[1], bs[2]);
      Success((c, 3))
    else
      var c :- DecodeFour(bs[0], bs[1], bs[2], bs[3]);
      Success((c, 4))
  }

  /** `bytes.decode()`: the characters of a well-formed octet string, in order. */
  function Decode(bs: seq<byte>): Result<string, DecodeError>
    decreases |bs|
  {
    if |bs| == 0 then Success([])
    else
      var (c, n) :- DecodeFirst(bs);
      var rest :- Decode(bs[n..]);
      Success([c] + rest)
  }

  /** A one-octet character is read back. */
  lemma DecodeOne(c: char)
    requires c as int < 0x80
    ensures EncodeChar(c) == [c as int]
    ensures DecodeFirst(EncodeChar(c)) == Success((c, 1))
  {
  }

  /** A two-octet character is read back. */
  lemma DecodeTwoEncoded(c: char)
    requires 0x80 <= c as int < 0x800
    ensures var bs := EncodeChar(c); |bs| == 2 && DecodeFirst(bs) == Success((c, 2))
  {
    var cp := c as int;
    var b0, b1 := 0xC0 + cp / 64, 0x80 + cp % 64;
    assert EncodeChar(c) == [b0, b1];
    assert (b0 - 0xC0) * 64 + (b1 - 0x80) == cp;
    assert DecodeTwo(b0, b1) == Success(c);
  }

  /** A three-octet character is read back. */
  lemma DecodeThreeEncoded(c: char)
    requires 0x800 <= c as int < 0x10000
    ensures var bs := EncodeChar(c); |bs| == 3 && DecodeFirst(bs) == Success((c, 3))
  {
    var cp := c as int;
    var b0, b1, b2 := 0xE0 + cp / 4096, 0x80 + cp / 64 % 64, 0x80 + cp % 64;
    assert EncodeChar(c) == [b0, b1, b2];
    assert cp / 4096 * 64 + cp / 64 % 64 == cp / 64;
    assert (b0 - 0xE0) * 4096 + (b1 - 0x80) * 64 + (b2 - 0x80) == cp;
    assert DecodeThree(b0, b1, b2) == Success(c);
  }

  /** A four-octet character is read back. */
  lemma DecodeFourEncoded(c: char)
    requires 0x10000 <= c as int
    ensures var bs := EncodeChar(c); |bs| == 4 && DecodeFirst(bs) == Success((c, 4))
  {
    var cp := c as int;
    var b0, b1, b2, b3 := 0xF0 + cp / 262144, 0x80 + cp / 4096 % 64, 0x80 + cp / 64 % 64, 0x80 + cp % 64;
    assert EncodeChar(c) == [b0, b1, b2, b3];
    assert cp / 262144 * 64 + cp / 4096 % 64 == cp / 4096;
    assert cp / 4096 * 64 + cp / 64 % 64 == cp / 64;
    assert (b0 - 0xF0) * 262144 + (b1 - 0x80) * 4096 + (b2 - 0x80) * 64 + (b3 - 0x80) == cp;
    assert DecodeFour(b0, b1, b2, b3) == Success(c);
  }

  /** Every character's octets are read back as that character, and the read stops where they end. */
  lemma DecodeCharEncoded(c: char)
    ensures DecodeFirst(EncodeChar(c)) == Success((c, |EncodeChar(c)|))
  {
    if c as int < 0x80 {
      DecodeOne(c);
    } else if c as int < 0x800 {
      DecodeTwoEncoded(c);
    } else if c as int < 0x10000 {
      DecodeThreeEncoded(c);
    } else {
      DecodeFourEncoded(c);
    }
  }

  /** Octets after a complete character do not change how it is read. */
  lemma DecodeFirstPrefix(bs: seq<byte>, rest: seq<byte>, c: char, n: nat)
    requires |bs| > 0 && n == |bs| && DecodeFirst(bs) == Success((c, n))
    ensures DecodeFirst(bs + rest) == Success((c, n))
  {
    var s := bs + rest;
    assert forall i :: 0 <= i < |bs| ==> s[i] == bs[i];
  }

  /** Decoding an encoding gives back the string, for every string. */
  lemma {:induction false} DecodeEncode(s: string)
    ensures Decode(Encode(s)) == Success(s)
    decreases |s|
  {
    if |s| > 0 {
      var head := EncodeChar(s[0]);
      var rest := Encode(s[1..]);
      DecodeCharEncoded(s[0]);
      DecodeFirstPrefix(head, rest, s[0], |head|);
      DecodeEncode(s[1..]);
      assert (head + rest)[|head|..] == rest;
      assert [s[0]] + s[1..] == s;
    }
  }
}
