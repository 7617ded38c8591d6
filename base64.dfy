/** The binary helpers of script.js: `arrayBufferToBase64` and
    `base64ToArrayBuffer`. Both go through a "binary string" (one character per
    byte, character code = byte value); the platform's `btoa`/`atob` turn such
    a string into RFC 4648 section 4 base64 and back. The encoding itself is
    written out here as `Encode`/`Decode`. */
module Base64 {
  import opened Wrappers

  /** A byte, as a `Uint8Array` element holds it. */
  type Byte = x: int | 0 <= x < 256

  /** A 6-bit value, the payload of one base64 character. */
  type Sextet = x: int | 0 <= x < 64

  const Pad: char := '='

  /** The character of the base64 alphabet (RFC 4648 section 4, table 1) for a 6-bit value. */
  function Digit(v: Sextet): (c: char)
    ensures c != Pad
  {
    if v < 26 then ('A' as int + v) as char
    else if v < 52 then ('a' as int + (v - 26)) as char
    else if v < 62 then ('0' as int + (v - 52)) as char
    else if v == 62 then '+'
    else '/'
  }

  /** The 6-bit value of an alphabet character; None for any other character. */
  function DigitValue(c: char): (r: Option<Sextet>)
    ensures r.Some? ==> Digit(r.value) == c
  {
    if 'A' <= c <= 'Z' then Some(c as int - 'A' as int)
    else if 'a' <= c <= 'z' then Some(c as int - 'a' as int + 26)
    else if '0' <= c <= '9' then Some(c as int - '0' as int + 52)
    else if c == '+' then Some(62)
    else if c == '/' then Some(63)
    else None
  }

  lemma DigitRoundTrip(v: Sextet)
    ensures DigitValue(Digit(v)) == Some(v)
  {
  }

  /** Three bytes become four characters: 24 bits read as four 6-bit values. */
  function EncodeGroup(b0: Byte, b1: Byte, b2: Byte): seq<char>
  {
    [Digit(b0 / 4), Digit(b0 % 4 * 16 + b1 / 16), Digit(b1 % 16 * 4 + b2 / 64), Digit(b2 % 64)]
  }

  /** RFC 4648 section 4 encoding, with `=` padding of the final group. */
  function Encode(b: seq<Byte>): (s: seq<char>)
    ensures |s| == (|b| + 2) / 3 * 4
    decreases |b|
  {
    if |b| == 0 then []
    else if |b| == 1 then [Digit(b[0] / 4), Digit(b[0] % 4 * 16), Pad, Pad]
    else if |b| == 2 then [Digit(b[0] / 4), Digit(b[0] % 4 * 16 + b[1] / 16), Digit(b[1] % 16 * 4), Pad]
    else EncodeGroup(b[0], b[1], b[2]) + Encode(b[3..])
  }

  /** The first byte of a group: the 6 bits of the first character, 2 of the second. */
  function Byte0(i0: Sextet, i1: Sextet): Byte { i0 * 4 + i1 / 16 }

  /** The second byte: 4 bits of the second character, 4 of the third. */
  function Byte1(i1: Sextet, i2: Sextet): Byte { i1 % 16 * 16 + i2 / 4 }

  /** The third byte: 2 bits of the third character, the 6 of the fourth. */
  function Byte2(i2: Sextet, i3: Sextet): Byte { i2 % 4 * 64 + i3 }

  /** Four alphabet characters become three bytes. */
  function DecodeFull(q: seq<char>): Option<seq<Byte>>
    requires |q| == 4
  {
    match (DigitValue(q[0]), DigitValue(q[1]), DigitValue(q[2]), DigitValue(q[3]))
    case (Some(i0), Some(i1), Some(i2), Some(i3)) => Some([Byte0(i0, i1), Byte1(i1, i2), Byte2(i2, i3)])
    case _ => None
  }

  /** The last group may end in `==` (one byte) or `=` (two bytes). */
  function DecodeFinal(q: seq<char>): Option<seq<Byte>>
    requires |q| == 4
  {
    if q[3] != Pad then DecodeFull(q)
    else if q[2] == Pad then
      match (DigitValue(q[0]), DigitValue(q[1]))
      case (Some(i0), Some(i1)) => Some([Byte0(i0, i1)])
      case _ => None
    else
      match (DigitValue(q[0]), DigitValue(q[1]), DigitValue(q[2]))
      case (Some(i0), Some(i1), Some(i2)) => Some([Byte0(i0, i1), Byte1(i1, i2)])
      case _ => None
  }

  /** RFC 4648 section 4 decoding. None is the platform's InvalidCharacterError:
      a length that is not a multiple of four, a character outside the
      alphabet, or padding anywhere but at the end. */
  function Decode(s: seq<char>): (r: Option<seq<Byte>>)
    ensures r.Some? ==> |s| % 4 == 0
    decreases |s|
  {
    if |s| == 0 then Some([])
    else if |s| < 4 then None
    else if |s| == 4 then DecodeFinal(s)
    else
      match DecodeFull(s[..4])
      case None => None
      case Some(g) =>
        match Decode(s[4..])
        case None => None
        case Some(rest) =>
          LengthStep(|s[4..]|);
          Some(g + rest)
  }

  lemma LengthStep(n: nat)
    requires n % 4 == 0
    ensures (n + 4) % 4 == 0
  {
  }

  /** The bit arithmetic of one group: splitting bytes into sextets and joining them back. */
  lemma SplitJoin(b0: Byte, b1: Byte, b2: Byte)
    ensures Byte0(b0 / 4, b0 % 4 * 16 + b1 / 16) == b0
    ensures Byte1(b0 % 4 * 16 + b1 / 16, b1 % 16 * 4 + b2 / 64) == b1
    ensures Byte2(b1 % 16 * 4 + b2 / 64, b2 % 64) == b2
  {
    assert (b0 % 4 * 16 + b1 / 16) / 16 == b0 % 4;
    assert (b0 % 4 * 16 + b1 / 16) % 16 == b1 / 16;
    assert (b1 % 16 * 4 + b2 / 64) / 4 == b1 % 16;
    assert (b1 % 16 * 4 + b2 / 64) % 4 == b2 / 64;
  }

  lemma GroupRoundTrip(b0: Byte, b1: Byte, b2: Byte)
    ensures DecodeFull(EncodeGroup(b0, b1, b2)) == Some([b0, b1, b2])
  {
    DigitRoundTrip(b0 / 4);
    DigitRoundTrip(b0 % 4 * 16 + b1 / 16);
    DigitRoundTrip(b1 % 16 * 4 + b2 / 64);
    DigitRoundTrip(b2 % 64);
    SplitJoin(b0, b1, b2);
  }

  lemma FinalOneRoundTrip(b0: Byte)
    ensures DecodeFinal([Digit(b0 / 4), Digit(b0 % 4 * 16), Pad, Pad]) == Some([b0])
  {
    DigitRoundTrip(b0 / 4);
    DigitRoundTrip(b0 % 4 * 16);
    SplitJoin(b0, 0, 0);
  }

  lemma FinalTwoRoundTrip(b0: Byte, b1: Byte)
    ensures DecodeFinal([Digit(b0 / 4), Digit(b0 % 4 * 16 + b1 / 16), Digit(b1 % 16 * 4), Pad]) == Some([b0, b1])
  {
    DigitRoundTrip(b0 / 4);
    DigitRoundTrip(b0 % 4 * 16 + b1 / 16);
    DigitRoundTrip(b1 % 16 * 4);
    SplitJoin(b0, b1, 0);
  }

  /** Decoding undoes encoding for every byte sequence, the empty one included. */
  lemma {:induction false} DecodeEncode(b: seq<Byte>)
    ensures Decode(Encode(b)) == Some(b)
    decreases |b|
  {
    if |b| == 0 {
    } else if |b| == 1 {
      LastOne(b);
    } else if |b| == 2 {
      LastTwo(b);
    } else if |b| == 3 {
      LastThree(b);
    } else {
      var g := EncodeGroup(b[0], b[1], b[2]);
      var rest := Encode(b[3..]);
      EncodeStep(b);
      GroupRoundTrip(b[0], b[1], b[2]);
      DecodeEncode(b[3..]);
      DecodeGroupThen(g, rest, [b[0], b[1], b[2]], b[3..]);
      calc {
        Decode(Encode(b));
        Decode(g + rest);
        Some([b[0], b[1], b[2]] + b[3..]);
        { assert [b[0], b[1], b[2]] + b[3..] == b; }
        Some(b);
      }
    }
  }

  /** The last group: one, two or three bytes. */
  lemma LastOne(b: seq<Byte>)
    requires |b| == 1
    ensures Decode(Encode(b)) == Some(b)
  {
    var s := [Digit(b[0] / 4), Digit(b[0] % 4 * 16), Pad, Pad];
    assert Encode(b) == s;
    FinalOneRoundTrip(b[0]);
    DecodeFour(s);
    assert [b[0]] == b;
  }

  lemma LastTwo(b: seq<Byte>)
    requires |b| == 2
    ensures Decode(Encode(b)) == Some(b)
  {
    var s := EncodeTwo(b);
    FinalTwoRoundTrip(b[0], b[1]);
    DecodeFour(s);
    calc {
      Decode(Encode(b));
      Decode(s);
      DecodeFinal(s);
      Some([b[0], b[1]]);
      { assert [b[0], b[1]] == b; }
      Some(b);
    }
  }

  /** The encoding of two bytes. */
  lemma EncodeTwo(b: seq<Byte>) returns (s: seq<char>)
    requires |b| == 2
    ensures s == [Digit(b[0] / 4), Digit(b[0] % 4 * 16 + b[1] / 16), Digit(b[1] % 16 * 4), Pad]
    ensures Encode(b) == s
  {
    s := [Digit(b[0] / 4), Digit(b[0] % 4 * 16 + b[1] / 16), Digit(b[1] % 16 * 4), Pad];
  }

  /** Text of one group is decoded as the final group. */
  lemma DecodeFour(s: seq<char>)
    requires |s| == 4
    ensures Decode(s) == DecodeFinal(s)
  {
  }

  lemma LastThree(b: seq<Byte>)
    requires |b| == 3
    ensures Decode(Encode(b)) == Some(b)
  {
    var g := EncodeGroup(b[0], b[1], b[2]);
    assert b[3..] == [];
    assert Encode(b) == g + Encode([]) == g;
    GroupRoundTrip(b[0], b[1], b[2]);
    assert g[3] != Pad;
    DecodeFour(g);
    assert [b[0], b[1], b[2]] == b;
  }

  /** Beyond three bytes, the first group is encoded on its own. */
  lemma EncodeStep(b: seq<Byte>)
    requires |b| > 3
    ensures Encode(b) == EncodeGroup(b[0], b[1], b[2]) + Encode(b[3..])
  {
  }

  /** A full group followed by more decodable text decodes group by group. */
  lemma DecodeGroupThen(g: seq<char>, rest: seq<char>, x: seq<Byte>, y: seq<Byte>)
    requires |g| == 4 && DecodeFull(g) == Some(x)
    requires |rest| > 0 && Decode(rest) == Some(y)
    ensures Decode(g + rest) == Some(x + y)
  {
    var s := g + rest;
    assert s[..4] == g;
    assert s[4..] == rest;
  }

  /** Encoding is injective: two byte sequences with the same encoding are equal
      (so the wire string determines the audio chunk). */
  lemma EncodeInjective(a: seq<Byte>, b: seq<Byte>)
    requires Encode(a) == Encode(b)
    ensures a == b
  {
    DecodeEncode(a);
    DecodeEncode(b);
  }

  // ----- The binary-string detour of the source -----

  /** `String.fromCharCode(byte)`: the character whose code is the byte. */
  function FromCharCode(b: Byte): (c: char)
    ensures c as int == b
  {
    b as char
  }

  /** The binary string of a byte sequence, one character per byte. */
  function BinaryString(b: seq<Byte>): (s: seq<char>)
    ensures |s| == |b|
    ensures forall i :: 0 <= i < |b| ==> s[i] as int == b[i]
  {
    seq(|b|, i requires 0 <= i < |b| => FromCharCode(b[i]))
  }

  /** Storing a number into a `Uint8Array` keeps it modulo 256. */
  function ToUint8(n: int): (b: Byte)
    ensures 0 <= n < 256 ==> b == n
  {
    n % 256
  }

  /** The platform's `btoa`: base64 of a binary string; None (InvalidCharacterError)
      when a character code is above 255. */
  function Btoa(s: seq<char>): (r: Option<seq<char>>)
    ensures r.Some? <==> forall i :: 0 <= i < |s| ==> s[i] as int < 256
  {
    if forall i :: 0 <= i < |s| ==> s[i] as int < 256
    then Some(Encode(seq(|s|, i requires 0 <= i < |s| => s[i] as int)))
    else None
  }

  /** The platform's `atob`: the binary string of the decoded bytes, None when the
      input is not base64. */
  function Atob(s: seq<char>): (r: Option<seq<char>>)
    ensures r.Some? <==> Decode(s).Some?
    ensures r.Some? ==> r.value == BinaryString(Decode(s).value)
  {
    match Decode(s)
    case None => None
    case Some(b) => Some(BinaryString(b))
  }

  /** `btoa` of a byte sequence's binary string is the byte sequence's encoding. */
  lemma BtoaOfBinaryString(b: seq<Byte>)
    ensures Btoa(BinaryString(b)) == Some(Encode(b))
  {
    var s := BinaryString(b);
    var back := seq(|s|, i requires 0 <= i < |s| => s[i] as int);
    assert back == b;
  }

  /** `arrayBufferToBase64` (script.js): build the binary string byte by byte,
      then `btoa` it. The catch branch of the source (which yields `undefined`)
      cannot be reached, because every character built has a code below 256. */
  method ArrayBufferToBase64(buffer: seq<Byte>) returns (r: Option<seq<char>>)
    ensures r == Some(Encode(buffer))
  {
    var binary: seq<char> := "";
    var i := 0;
    while i < |buffer|
      invariant 0 <= i <= |buffer|
      invariant binary == BinaryString(buffer[..i])
    {
      binary := binary + [FromCharCode(buffer[i])];
      i := i + 1;
    }
    assert buffer[..i] == buffer;
    BtoaOfBinaryString(buffer);
    r := Btoa(binary);
  }

  /** `base64ToArrayBuffer` (script.js): `atob`, then a `Uint8Array` filled with
      the character codes. None stands for the error `atob` throws on input that
      is not base64. */
  method Base64ToArrayBuffer(base64: seq<char>) returns (r: Option<seq<Byte>>)
    ensures r == Decode(base64)
  {
    var binaryString := Atob(base64);
    if binaryString.None? {
      return None;
    }
    var text := binaryString.value;
    ghost var decoded := Decode(base64).value;
    assert text == BinaryString(decoded);
    var bytes := new Byte[|text|];
    var i := 0;
    while i < |text|
      invariant 0 <= i <= |text|
      invariant bytes[..i] == decoded[..i]
    {
      assert text[i] as int == decoded[i];
      bytes[i] := ToUint8(text[i] as int);
      assert bytes[..i + 1] == bytes[..i] + [bytes[i]];
      assert decoded[..i + 1] == decoded[..i] + [decoded[i]];
      i := i + 1;
    }
    assert bytes[..] == bytes[..i] && decoded == decoded[..i];
    r := Some(bytes[..]);
  }
}
