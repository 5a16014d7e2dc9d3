/**
 Base64 as section 4 of RFC 4648 defines it (`base64.b64encode`): each group
 of three octets becomes four characters of the 64-character alphabet, and a
 final group of one or two octets is padded with `=`. A decoder for the same
 encoding is the encoder's partner.
 */
module Base64 {
  import opened Bytes
  import opened Outcomes

  type Sextet = x: nat | x < 64

  /** The character for a 6-bit value (Table 1 of RFC 4648). */
  function Alphabet(i: Sextet): (c: char)
    ensures c != '=' && c != '"'
  {
    if i < 26 then ('A' as int + i) as char
    else if i < 52 then ('a' as int + (i - 26)) as char
    else if i < 62 then ('0' as int + (i - 52)) as char
    else if i == 62 then '+'
    else '/'
  }

  /** The 6-bit value of an alphabet character (Table 1 of RFC 4648 read backwards), or `None` for any other character. */
  function Index(c: char): (r: Option<Sextet>)
    ensures r.Some? ==> Alphabet(r.value) == c
  {
    if 'A' <= c <= 'Z' then Some(c as int - 'A' as int)
    else if 'a' <= c <= 'z' then Some(c as int - 'a' as int + 26)
    else if '0' <= c <= '9' then Some(c as int - '0' as int + 52)
    else if c == '+' then Some(62)
    else if c == '/' then Some(63)
    else None
  }

  /** Every character of the alphabet is read back as the value it stands for. */
  lemma IndexAlphabet(i: Sextet)
    ensures Index(Alphabet(i)) == Some(i)
  {
  }

  /** The pad is not an alphabet character. */
  lemma PadNotIndexed()
    ensures Index(Pad) == None
  {
  }

  /** Characters that can appear in an encoding: the alphabet and the pad. */
  predicate EncodingChar(c: char) {
    Index(c).Some? || c == '='
  }

  const Pad: char := '='

  /** Three octets as four characters. */
  function EncodeTriple(a: byte, b: byte, c: byte): string {
    [Alphabet(a / 4), Alphabet(a % 4 * 16 + b / 16), Alphabet(b % 16 * 4 + c / 64), Alphabet(c % 64)]
  }

  /** A final single octet: two characters and two pads. */
  function EncodeSingle(a: byte): string {
    [Alphabet(a / 4), Alphabet(a % 4 * 16), Pad, Pad]
  }

  /** A final pair of octets: three characters and one pad. */
  function EncodePair(a: byte, b: byte): string {
    [Alphabet(a / 4), Alphabet(a % 4 * 16 + b / 16), Alphabet(b % 16 * 4), Pad]
  }

  /** `base64.b64encode`: four characters per started group of three octets. */
  function Encode(data: seq<byte>): string
    decreases |data|
  {
    if |data| == 0 then ""
    else if |data| == 1 then EncodeSingle(data[0])
    else if |data| == 2 then EncodePair(data[0], data[1])
    else EncodeTriple(data[0], data[1], data[2]) + Encode(data[3..])
  }

  /** Four characters for every started group of three octets. */
  lemma {:induction false} EncodeLength(data: seq<byte>)
    ensures |Encode(data)| == 4 * ((|data| + 2) / 3)
    decreases |data|
  {
    if |data| > 2 {
      EncodeLength(data[3..]);
      var n := |data[3..]|;
      assert |Encode(data)| == 4 + |Encode(data[3..])|;
      assert (n + 3 + 2) / 3 == (n + 2) / 3 + 1;
    } else {
      assert |Encode(data)| == if |data| == 0 then 0 else 4;
    }
  }

  /** The test vectors of section 10 of RFC 4648: "f", "fo", "foo", "foob", "fooba" and "foobar". */
  lemma Rfc4648Vectors()
    ensures Encode([]) == ""
    ensures Encode([102]) == "Zg=="
    ensures Encode([102, 111]) == "Zm8="
    ensures Encode([102, 111, 111]) == "Zm9v"
    ensures Encode([102, 111, 111, 98]) == "Zm9vYg=="
    ensures Encode([102, 111, 111, 98, 97]) == "Zm9vYmE="
    ensures Encode([102, 111, 111, 98, 97, 114]) == "Zm9vYmFy"
  {
  }

  /** A text made only of alphabet characters and pads; in particular it holds no quote character. */
  predicate EncodingText(s: string) {
    forall i :: 0 <= i < |s| ==> EncodingChar(s[i]) && s[i] != '"'
  }

  /** Two such texts joined are one. */
  lemma EncodingTextConcat(a: string, b: string)
    requires EncodingText(a) && EncodingText(b)
    ensures EncodingText(a + b)
  {
    forall i | 0 <= i < |a + b| ensures EncodingChar((a + b)[i]) && (a + b)[i] != '"' {
      if i >= |a| {
        assert (a + b)[i] == b[i - |a|];
      }
    }
  }

  /** A full group is made of alphabet characters. */
  lemma TripleChars(a: byte, b: byte, c: byte)
    ensures EncodingText(EncodeTriple(a, b, c))
  {
    IndexAlphabet(a / 4);
    IndexAlphabet(a % 4 * 16 + b / 16);
    IndexAlphabet(b % 16 * 4 + c / 64);
    IndexAlphabet(c % 64);
  }

  /** A final pair's group is made of alphabet characters and a pad. */
  lemma PairChars(a: byte, b: byte)
    ensures EncodingText(EncodePair(a, b))
  {
    IndexAlphabet(a / 4);
    IndexAlphabet(a % 4 * 16 + b / 16);
    IndexAlphabet(b % 16 * 4);
  }

  /** A final single octet's group is made of alphabet characters and pads. */
  lemma SingleChars(a: byte)
    ensures EncodingText(EncodeSingle(a))
  {
    IndexAlphabet(a / 4);
    IndexAlphabet(a % 4 * 16);
  }

  /** An encoding uses only the alphabet and the pad, so never a quote character. */
  lemma {:induction false} EncodeChars(data: seq<byte>)
    ensures EncodingText(Encode(data))
    decreases |data|
  {
    if |data| == 1 {
      SingleChars(data[0]);
    } else if |data| == 2 {
      PairChars(data[0], data[1]);
    } else if |data| > 2 {
      EncodeChars(data[3..]);
      TripleChars(data[0], data[1], data[2]);
      EncodingTextConcat(EncodeTriple(data[0], data[1], data[2]), Encode(data[3..]));
    }
  }

  /** Why a text is not a Base64 encoding. */
  datatype DecodeError = BadLength | BadCharacter

  /** Four alphabet characters as three octets. */
  function DecodeQuad(w: Sextet, x: Sextet, y: Sextet, z: Sextet): seq<byte> {
    [w * 4 + x / 16, x % 16 * 16 + y / 4, y % 4 * 64 + z]
  }

  /** The group of four characters that starts `s`, the last one of the text when `last` holds (only it may be padded). */
  function DecodeGroup(s: string, last: bool): Result<seq<byte>, DecodeError>
    requires |s| >= 4
  {
    var w := Index(s[0]);
    var x := Index(s[1]);
    var y := Index(s[2]);
    var z := Index(s[3]);
    if w.None? || x.None? then Failure(BadCharacter)
    else if y.Some? && z.Some? then Success(DecodeQuad(w.value, x.value, y.value, z.value))
    else if y.Some? && last && s[3] == Pad then Success(DecodeQuad(w.value, x.value, y.value, 0)[..2])
    else if y.None? && last && s[2] == Pad && s[3] == Pad then Success(DecodeQuad(w.value, x.value, 0, 0)[..1])
    else Failure(BadCharacter)
  }

  /** The octets a Base64 text encodes; padding is allowed only at the end. */
  function Decode(s: string): Result<seq<byte>, DecodeError>
    decreases |s|
  {
    if |s| == 0 then Success([])
    else if |s| < 4 then Failure(BadLength)
    else
      var group :- DecodeGroup(s, |s| == 4);
      var rest :- Decode(s[4..]);
      Success(group + rest)
  }

  /** Splitting three octets into four sextets and joining them again is the identity. */
  lemma QuadArithmetic(a: byte, b: byte, c: byte)
    ensures DecodeQuad(a / 4, a % 4 * 16 + b / 16, b % 16 * 4 + c / 64, c % 64) == [a, b, c]
  {
    assert (a % 4 * 16 + b / 16) / 16 == a % 4;
    assert (a % 4 * 16 + b / 16) % 16 == b / 16;
    assert (b % 16 * 4 + c / 64) / 4 == b % 16;
    assert (b % 16 * 4 + c / 64) % 4 == c / 64;
  }

  /** A group of three octets survives encoding and decoding. */
  lemma TripleRoundTrip(a: byte, b: byte, c: byte, last: bool)
    ensures DecodeGroup(EncodeTriple(a, b, c), last) == Success([a, b, c])
  {
    var s := EncodeTriple(a, b, c);
    IndexAlphabet(a / 4);
    IndexAlphabet(a % 4 * 16 + b / 16);
    IndexAlphabet(b % 16 * 4 + c / 64);
    IndexAlphabet(c % 64);
    QuadArithmetic(a, b, c);
  }

  /** A group of two characters and two pads decodes to the first octet of its sextets. */
  lemma DecodeTwoPads(w: Sextet, x: Sextet)
    ensures DecodeGroup([Alphabet(w), Alphabet(x), Pad, Pad], true) == Success(DecodeQuad(w, x, 0, 0)[..1])
  {
    IndexAlphabet(w);
    IndexAlphabet(x);
    PadNotIndexed();
  }

  /** A group of three characters and a pad decodes to the first two octets of its sextets. */
  lemma DecodeOnePad(w: Sextet, x: Sextet, y: Sextet)
    ensures DecodeGroup([Alphabet(w), Alphabet(x), Alphabet(y), Pad], true) == Success(DecodeQuad(w, x, y, 0)[..2])
  {
    IndexAlphabet(w);
    IndexAlphabet(x);
    IndexAlphabet(y);
    PadNotIndexed();
  }

  /** The sextets of a single octet join back into it. */
  lemma SingleArithmetic(a: byte)
    ensures DecodeQuad(a / 4, a % 4 * 16, 0, 0)[..1] == [a]
  {
    assert (a % 4 * 16) / 16 == a % 4;
  }

  /** The sextets of a pair of octets join back into them. */
  lemma PairArithmetic(a: byte, b: byte)
    ensures DecodeQuad(a / 4, a % 4 * 16 + b / 16, b % 16 * 4, 0)[..2] == [a, b]
  {
    assert (a % 4 * 16 + b / 16) / 16 == a % 4;
    assert (a % 4 * 16 + b / 16) % 16 == b / 16;
    assert (b % 16 * 4) / 4 == b % 16;
  }

  /** A final single octet survives encoding and decoding. */
  lemma SingleRoundTrip(a: byte)
    ensures DecodeGroup(EncodeSingle(a), true) == Success([a])
  {
    DecodeTwoPads(a / 4, a % 4 * 16);
    SingleArithmetic(a);
  }

  /** A final pair of octets survives encoding and decoding. */
  lemma PairRoundTrip(a: byte, b: byte)
    ensures DecodeGroup(EncodePair(a, b), true) == Success([a, b])
  {
    DecodeOnePad(a / 4, a % 4 * 16 + b / 16, b % 16 * 4);
    PairArithmetic(a, b);
  }

  /** Decoding a text that starts with a whole group decodes the group, then the rest. */
  lemma DecodeCons(head: string, rest: string, g: seq<byte>, r: seq<byte>)
    requires |head| == 4
    requires DecodeGroup(head, |rest| == 0) == Success(g) && Decode(rest) == Success(r)
    ensures Decode(head + rest) == Success(g + r)
  {
    var s := head + rest;
    assert s[0] == head[0] && s[1] == head[1] && s[2] == head[2] && s[3] == head[3];
    assert s[4..] == rest;
  }

  /** Decoding a final group alone. */
  lemma DecodeLast(head: string, g: seq<byte>)
    requires |head| == 4
    requires DecodeGroup(head, true) == Success(g)
    ensures Decode(head) == Success(g)
  {
    assert head[4..] == [];
    assert g + [] == g;
  }

  /** An octet string of three or more is its first three octets and the rest. */
  lemma FirstThree(data: seq<byte>)
    requires |data| > 2
    ensures [data[0], data[1], data[2]] + data[3..] == data
  {
  }

  /** The induction step: a leading group of three octets is decoded ahead of the rest. */
  lemma DecodeEncodeStep(data: seq<byte>)
    requires |data| > 2
    requires Decode(Encode(data[3..])) == Success(data[3..])
    ensures Decode(Encode(data)) == Success(data)
  {
    FirstThree(data);
    TripleRoundTrip(data[0], data[1], data[2], |Encode(data[3..])| == 0);
    DecodeCons(EncodeTriple(data[0], data[1], data[2]), Encode(data[3..]), [data[0], data[1], data[2]], data[3..]);
  }

  /** A single octet makes one padded group. */
  lemma DecodeEncodeOne(data: seq<byte>)
    requires |data| == 1
    ensures Decode(Encode(data)) == Success(data)
  {
    SingleRoundTrip(data[0]);
    DecodeLast(EncodeSingle(data[0]), [data[0]]);
    assert [data[0]] == data;
  }

  /** Two octets make one padded group. */
  lemma DecodeEncodeTwo(data: seq<byte>)
    requires |data| == 2
    ensures Decode(Encode(data)) == Success(data)
  {
    PairRoundTrip(data[0], data[1]);
    DecodeLast(EncodePair(data[0], data[1]), [data[0], data[1]]);
    assert [data[0], data[1]] == data;
  }

  /** Decoding an encoding gives back the octets, for every octet string. */
  lemma {:induction false} DecodeEncode(data: seq<byte>)
    ensures Decode(Encode(data)) == Success(data)
    decreases |data|
  {
    if |data| > 2 {
      DecodeEncode(data[3..]);
      DecodeEncodeStep(data);
    } else if |data| == 2 {
      DecodeEncodeTwo(data);
    } else if |data| == 1 {
      DecodeEncodeOne(data);
    }
  }
}
