/** Base64 as in section 4 of RFC 4648: each 24-bit group of input becomes
    four characters of the 64-character alphabet of Table 1; a final group of
    one or two bytes is padded with '=' to four characters. `Decode` is the
    inverse, used here as the partner that shows no information is lost. */
module Base64 {
  import opened Common
  import opened Latin1

  type Sextet = v: int | 0 <= v < 64

  const Pad: char := '='

  function SextetChar(v: Sextet): (c: char)
    ensures CharSextet(c) == Some(v)
    ensures c != Pad
  {
    if v < 26 then ('A' as int + v) as char
    else if v < 52 then ('a' as int + (v - 26)) as char
    else if v < 62 then ('0' as int + (v - 52)) as char
    else if v == 62 then '+'
    else '/'
  }

  /** The value a character of the alphabet stands for; `None` for any other
      character, the pad included. */
  function CharSextet(c: char): Option<Sextet> {
    if 'A' <= c <= 'Z' then Some(c as int - 'A' as int)
    else if 'a' <= c <= 'z' then Some(c as int - 'a' as int + 26)
    else if '0' <= c <= '9' then Some(c as int - '0' as int + 52)
    else if c == '+' then Some(62)
    else if c == '/' then Some(63)
    else None
  }

  /** The four characters of one full 24-bit group. */
  function EncodeGroup(b0: Byte, b1: Byte, b2: Byte): string {
    [SextetChar(b0 / 4), SextetChar((b0 % 4) * 16 + b1 / 16),
     SextetChar((b1 % 16) * 4 + b2 / 64), SextetChar(b2 % 64)]
  }

  /** The padded last group of one or two bytes (section 4 of RFC 4648, cases (2) and (3)). */
  function EncodeFinal(b: seq<Byte>): string
    requires 1 <= |b| <= 2
  {
    if |b| == 1 then [SextetChar(b[0] / 4), SextetChar((b[0] % 4) * 16), Pad, Pad]
    else [SextetChar(b[0] / 4), SextetChar((b[0] % 4) * 16 + b[1] / 16), SextetChar((b[1] % 16) * 4), Pad]
  }

  function Encode(b: seq<Byte>): (s: string)
    ensures |s| == 0 <==> |b| == 0
    ensures |b| > 0 ==> |s| >= 4
    decreases |b|
  {
    if |b| == 0 then ""
    else if |b| < 3 then EncodeFinal(b)
    else EncodeGroup(b[0], b[1], b[2]) + Encode(b[3..])
  }

  /** Every group of up to three bytes becomes exactly four characters. */
  lemma {:induction false} EncodeLength(b: seq<Byte>)
    ensures |Encode(b)| == 4 * ((|b| + 2) / 3)
    decreases |b|
  {
    if |b| >= 3 {
      EncodeLength(b[3..]);
      assert (|b| + 2) / 3 == (|b[3..]| + 2) / 3 + 1;
    }
  }

  /** Every character of an encoding is from the alphabet, except that the
      last one or two may be the pad. */
  lemma {:induction false} EncodeCharacters(b: seq<Byte>)
    ensures forall i :: 0 <= i < |Encode(b)| - 2 ==> CharSextet(Encode(b)[i]).Some?
    ensures forall i :: 0 <= i < |Encode(b)| ==> Encode(b)[i] == Pad || CharSextet(Encode(b)[i]).Some?
    decreases |b|
  {
    if |b| >= 3 {
      EncodeCharacters(b[3..]);
      var s, rest := Encode(b), Encode(b[3..]);
      assert s == EncodeGroup(b[0], b[1], b[2]) + rest;
      forall i | 0 <= i < |s| ensures (i < |s| - 2 ==> CharSextet(s[i]).Some?) && (s[i] == Pad || CharSextet(s[i]).Some?) {
        if i >= 4 { assert s[i] == rest[i - 4]; }
      }
    }
  }

  /** Three bytes from four characters of the alphabet; `None` if any of them
      is not one. */
  function DecodeGroup(c0: char, c1: char, c2: char, c3: char): Option<seq<Byte>> {
    var s0, s1, s2, s3 := CharSextet(c0), CharSextet(c1), CharSextet(c2), CharSextet(c3);
    if s0.None? || s1.None? || s2.None? || s3.None? then None
    else Some([s0.value * 4 + s1.value / 16, (s1.value % 16) * 16 + s2.value / 4, (s2.value % 4) * 64 + s3.value])
  }

  /** The last four characters, which may end in one or two pads. */
  function DecodeFinal(c0: char, c1: char, c2: char, c3: char): Option<seq<Byte>> {
    var s0, s1, s2 := CharSextet(c0), CharSextet(c1), CharSextet(c2);
    if s0.None? || s1.None? then None
    else if c2 == Pad && c3 == Pad then Some([s0.value * 4 + s1.value / 16])
    else if s2.None? then None
    else if c3 == Pad then Some([s0.value * 4 + s1.value / 16, (s1.value % 16) * 16 + s2.value / 4])
    else DecodeGroup(c0, c1, c2, c3)
  }

  /** Decodes a padded encoding; `None` for a string that is not one. */
  function Decode(s: string): (r: Option<seq<Byte>>)
    decreases |s|
  {
    if |s| == 0 then Some([])
    else if |s| < 4 then None
    else if |s| == 4 then DecodeFinal(s[0], s[1], s[2], s[3])
    else
      match DecodeGroup(s[0], s[1], s[2], s[3])
      case None => None
      case Some(group) =>
        match Decode(s[4..])
        case None => None
        case Some(rest) => Some(group + rest)
  }

  lemma GroupRoundTrip(b0: Byte, b1: Byte, b2: Byte)
    ensures DecodeGroup(SextetChar(b0 / 4), SextetChar((b0 % 4) * 16 + b1 / 16),
                        SextetChar((b1 % 16) * 4 + b2 / 64), SextetChar(b2 % 64)) == Some([b0, b1, b2])
  {
    var s0, s1, s2, s3 := b0 / 4, (b0 % 4) * 16 + b1 / 16, (b1 % 16) * 4 + b2 / 64, b2 % 64;
    assert s0 * 4 + s1 / 16 == b0 by {
      assert s1 / 16 == b0 % 4;
    }
    assert (s1 % 16) * 16 + s2 / 4 == b1 by {
      assert s1 % 16 == b1 / 16;
      assert s2 / 4 == b1 % 16;
    }
    assert (s2 % 4) * 64 + s3 == b2 by {
      assert s2 % 4 == b2 / 64;
    }
  }

  lemma FinalRoundTrip(b: seq<Byte>)
    requires 1 <= |b| <= 2
    ensures var e := EncodeFinal(b); DecodeFinal(e[0], e[1], e[2], e[3]) == Some(b)
  {
    if |b| == 2 {
      assert b == [b[0], b[1]];
    } else {
      assert b == [b[0]];
    }
  }

  /** Decoding an encoding gives back the bytes: the encoding loses nothing. */
  lemma {:induction false} DecodeEncode(b: seq<Byte>)
    ensures Decode(Encode(b)) == Some(b)
    decreases |b|
  {
    var e := Encode(b);
    if 1 <= |b| < 3 {
      FinalRoundTrip(b);
    } else if |b| == 3 {
      GroupRoundTrip(b[0], b[1], b[2]);
      assert e == EncodeGroup(b[0], b[1], b[2]);
      assert b == [b[0], b[1], b[2]];
    } else if |b| > 3 {
      DecodeEncode(b[3..]);
      GroupRoundTrip(b[0], b[1], b[2]);
      assert e[4..] == Encode(b[3..]);
      assert b == [b[0], b[1], b[2]] + b[3..];
    }
  }

  /** The test vectors of section 10 of RFC 4648 ("f", "fo", "foo",
      "foobar"). */
  lemma TestVectors()
    ensures Encode([0x66]) == "Zg=="
    ensures Encode([0x66, 0x6f]) == "Zm8="
    ensures Encode([0x66, 0x6f, 0x6f]) == "Zm9v"
    ensures Encode([0x66, 0x6f, 0x6f, 0x62, 0x61, 0x72]) == "Zm9vYmFy"
  {
    assert EncodeFinal([0x66]) == "Zg==" by {
      assert 0x66 / 4 == 25 && (0x66 % 4) * 16 == 32;
    }
    assert EncodeFinal([0x66, 0x6f]) == "Zm8=" by {
      assert 0x66 / 4 == 25 && (0x66 % 4) * 16 + 0x6f / 16 == 38 && (0x6f % 16) * 4 == 60;
    }
    assert EncodeGroup(0x66, 0x6f, 0x6f) == "Zm9v" by {
      assert 0x66 / 4 == 25 && (0x66 % 4) * 16 + 0x6f / 16 == 38 && (0x6f % 16) * 4 + 0x6f / 64 == 61 && 0x6f % 64 == 47;
    }
    assert EncodeGroup(0x62, 0x61, 0x72) == "YmFy" by {
      assert 0x62 / 4 == 24 && (0x62 % 4) * 16 + 0x61 / 16 == 38 && (0x61 % 16) * 4 + 0x72 / 64 == 5 && 0x72 % 64 == 50;
    }
    var foobar: seq<Byte> := [0x66, 0x6f, 0x6f, 0x62, 0x61, 0x72];
    assert foobar[3..][3..] == [];
    assert Encode(foobar[3..]) == "YmFy";
    assert Encode([0x66, 0x6f, 0x6f]) == "Zm9v" by {
      var foo: seq<Byte> := [0x66, 0x6f, 0x6f];
      assert foo[3..] == [];
    }
  }
}
