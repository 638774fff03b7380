/**
 * `base64_encode`: the base 64 encoding of section 4 of RFC 4648, with
 * padding, over the bytes of a string. The decoder is the partner that shows
 * the encoding loses nothing.
 */
module Base64 {
  import opened PhpValues
  import opened Utf8

  /** The character of the 64-character alphabet for a 6-bit value. */
  function Sextet(x: int): (c: char)
    requires 0 <= x < 64
    ensures c != '='
  {
    if x < 26 then (65 + x) as char
    else if x < 52 then (97 + x - 26) as char
    else if x < 62 then (48 + x - 52) as char
    else if x == 62 then '+'
    else '/'
  }

  /** The 6-bit value of an alphabet character; None for any other character. */
  function SextetValue(c: char): (r: Option<int>)
    ensures r.Some? ==> 0 <= r.value < 64
  {
    var n := c as int;
    if 65 <= n <= 90 then Some(n - 65)
    else if 97 <= n <= 122 then Some(n - 97 + 26)
    else if 48 <= n <= 57 then Some(n - 48 + 52)
    else if c == '+' then Some(62)
    else if c == '/' then Some(63)
    else None
  }

  /** The alphabet is a bijection onto the 6-bit values. */
  lemma SextetRoundTrip(x: int)
    requires 0 <= x < 64
    ensures SextetValue(Sextet(x)) == Some(x)
  {
  }

  predicate InAlphabet(c: char) {
    SextetValue(c).Some?
  }

  /** Three bytes become four characters, six bits each, most significant first. */
  function EncodeGroup(a: Byte, b: Byte, c: Byte): (r: string)
    ensures |r| == 4 && forall i :: 0 <= i < 4 ==> InAlphabet(r[i])
  {
    SextetRoundTrip(a as int / 4);
    SextetRoundTrip(a as int % 4 * 16 + b as int / 16);
    SextetRoundTrip(b as int % 16 * 4 + c as int / 64);
    SextetRoundTrip(c as int % 64);
    [Sextet(a as int / 4), Sextet(a as int % 4 * 16 + b as int / 16),
     Sextet(b as int % 16 * 4 + c as int / 64), Sextet(c as int % 64)]
  }

  /** `base64_encode`: whole groups, then one or two trailing bytes padded with '='. */
  function Encode(bytes: seq<Byte>): string
    decreases |bytes|
  {
    if |bytes| == 0 then ""
    else if |bytes| == 1 then
      [Sextet(bytes[0] as int / 4), Sextet(bytes[0] as int % 4 * 16), '=', '=']
    else if |bytes| == 2 then
      [Sextet(bytes[0] as int / 4), Sextet(bytes[0] as int % 4 * 16 + bytes[1] as int / 16),
       Sextet(bytes[1] as int % 16 * 4), '=']
    else EncodeGroup(bytes[0], bytes[1], bytes[2]) + Encode(bytes[3..])
  }

  /** The first byte of a group from its first two sextets. */
  function First(s0: int, s1: int): Byte
    requires 0 <= s0 < 64 && 0 <= s1 < 64
  {
    (s0 * 4 + s1 / 16) as Byte
  }

  /** The second byte of a group from its second and third sextets. */
  function Second(s1: int, s2: int): Byte
    requires 0 <= s1 < 64 && 0 <= s2 < 64
  {
    (s1 % 16 * 16 + s2 / 4) as Byte
  }

  /** The third byte of a group from its last two sextets. */
  function Third(s2: int, s3: int): Byte
    requires 0 <= s2 < 64 && 0 <= s3 < 64
  {
    (s2 % 4 * 64 + s3) as Byte
  }

  /** Four alphabet characters back to three bytes. */
  function DecodeGroup(s: string): (r: Option<seq<Byte>>)
    requires |s| == 4
  {
    var a, b, c, d := SextetValue(s[0]), SextetValue(s[1]), SextetValue(s[2]), SextetValue(s[3]);
    if a.None? || b.None? || c.None? || d.None? then None
    else Some([First(a.value, b.value), Second(b.value, c.value), Third(c.value, d.value)])
  }

  /** The last four characters, which may end in "==" or "=". */
  function DecodeLast(s: string): (r: Option<seq<Byte>>)
    requires |s| == 4
  {
    if s[2] == '=' && s[3] == '=' then
      var a, b := SextetValue(s[0]), SextetValue(s[1]);
      if a.None? || b.None? then None
      else Some([First(a.value, b.value)])
    else if s[3] == '=' then
      var a, b, c := SextetValue(s[0]), SextetValue(s[1]), SextetValue(s[2]);
      if a.None? || b.None? || c.None? then None
      else Some([First(a.value, b.value), Second(b.value, c.value)])
    else DecodeGroup(s)
  }

  /** Decoding: None for a string that is not padded base 64 text. */
  function Decode(s: string): (r: Option<seq<Byte>>)
    decreases |s|
  {
    if s == [] then Some([])
    else if |s| < 4 then None
    else if |s| == 4 then DecodeLast(s)
    else
      match DecodeGroup(s[..4])
      case None => None
      case Some(head) =>
        match Decode(s[4..])
        case None => None
        case Some(tail) => Some(head + tail)
  }

  /** The output has four characters per started group of three bytes. */
  lemma {:induction false} EncodeLength(bytes: seq<Byte>)
    ensures |Encode(bytes)| == 4 * ((|bytes| + 2) / 3)
    decreases |bytes|
  {
    if |bytes| >= 3 {
      EncodeLength(bytes[3..]);
      assert (|bytes| + 2) / 3 == (|bytes[3..]| + 2) / 3 + 1;
    }
  }

  lemma FirstSplit(a: Byte, b: Byte)
    ensures First(a as int / 4, a as int % 4 * 16 + b as int / 16) == a
  {
    assert (a as int % 4 * 16 + b as int / 16) / 16 == a as int % 4;
  }

  lemma SecondSplit(a: Byte, b: Byte, c: Byte)
    ensures Second(a as int % 4 * 16 + b as int / 16, b as int % 16 * 4 + c as int / 64) == b
  {
    assert (a as int % 4 * 16 + b as int / 16) % 16 == b as int / 16;
    assert (b as int % 16 * 4 + c as int / 64) / 4 == b as int % 16;
  }

  lemma ThirdSplit(b: Byte, c: Byte)
    ensures Third(b as int % 16 * 4 + c as int / 64, c as int % 64) == c
  {
    assert (b as int % 16 * 4 + c as int / 64) % 4 == c as int / 64;
  }

  lemma GroupRoundTrip(a: Byte, b: Byte, c: Byte)
    ensures DecodeGroup(EncodeGroup(a, b, c)) == Some([a, b, c])
  {
    SextetRoundTrip(a as int / 4);
    SextetRoundTrip(a as int % 4 * 16 + b as int / 16);
    SextetRoundTrip(b as int % 16 * 4 + c as int / 64);
    SextetRoundTrip(c as int % 64);
    FirstSplit(a, b);
    SecondSplit(a, b, c);
    ThirdSplit(b, c);
  }

  lemma OneByteRoundTrip(a: Byte)
    ensures Decode(Encode([a])) == Some([a])
  {
    SextetRoundTrip(a as int / 4);
    SextetRoundTrip(a as int % 4 * 16);
    FirstSplit(a, 0);
  }

  lemma TwoBytesRoundTrip(a: Byte, b: Byte)
    ensures Decode(Encode([a, b])) == Some([a, b])
  {
    SextetRoundTrip(a as int / 4);
    SextetRoundTrip(a as int % 4 * 16 + b as int / 16);
    SextetRoundTrip(b as int % 16 * 4);
    FirstSplit(a, b);
    SecondSplit(a, b, 0);
  }

  lemma ThreeBytesRoundTrip(a: Byte, b: Byte, c: Byte)
    ensures Decode(Encode([a, b, c])) == Some([a, b, c])
  {
    var bytes := [a, b, c];
    var g := EncodeGroup(a, b, c);
    assert bytes[3..] == [];
    assert Encode(bytes) == g + Encode([]) == g;
    GroupRoundTrip(a, b, c);
    assert InAlphabet(g[3]) && SextetValue('=').None?;
    assert Decode(g) == DecodeLast(g) == DecodeGroup(g);
  }

  /** Non-empty input has non-empty output. */
  lemma EncodeNonEmpty(bytes: seq<Byte>)
    requires bytes != []
    ensures |Encode(bytes)| >= 4
  {
    if |bytes| >= 3 {
      assert Encode(bytes) == EncodeGroup(bytes[0], bytes[1], bytes[2]) + Encode(bytes[3..]);
    }
  }

  /** Decoding a whole group in front of more text. */
  lemma DecodeGroupThen(g: string, t: string)
    requires |g| == 4 && |t| >= 4 && DecodeGroup(g).Some?
    ensures Decode(g + t) ==
      match Decode(t)
      case None => None
      case Some(tail) => Some(DecodeGroup(g).value + tail)
  {
    var s := g + t;
    assert s[..4] == g && s[4..] == t;
  }

  lemma SplitGroup(bytes: seq<Byte>)
    requires |bytes| >= 3
    ensures [bytes[0], bytes[1], bytes[2]] + bytes[3..] == bytes
  {
  }

  /** One whole group in front of text that decodes. */
  lemma GroupThenRest(bytes: seq<Byte>)
    requires |bytes| > 3
    requires Decode(Encode(bytes[3..])) == Some(bytes[3..])
    ensures Decode(Encode(bytes)) == Some(bytes)
  {
    var g, t := EncodeGroup(bytes[0], bytes[1], bytes[2]), Encode(bytes[3..]);
    assert Encode(bytes) == g + t;
    EncodeNonEmpty(bytes[3..]);
    GroupRoundTrip(bytes[0], bytes[1], bytes[2]);
    DecodeGroupThen(g, t);
    SplitGroup(bytes);
  }

  /** Decoding inverts `base64_encode`. */
  lemma {:induction false} DecodeEncode(bytes: seq<Byte>)
    ensures Decode(Encode(bytes)) == Some(bytes)
    decreases |bytes|
  {
    if |bytes| == 1 {
      assert bytes == [bytes[0]];
      OneByteRoundTrip(bytes[0]);
    } else if |bytes| == 2 {
      assert bytes == [bytes[0], bytes[1]];
      TwoBytesRoundTrip(bytes[0], bytes[1]);
    } else if |bytes| == 3 {
      assert bytes == [bytes[0], bytes[1], bytes[2]];
      ThreeBytesRoundTrip(bytes[0], bytes[1], bytes[2]);
    } else if |bytes| > 3 {
      DecodeEncode(bytes[3..]);
      GroupThenRest(bytes);
    }
  }

  /** Different byte strings have different encodings. */
  lemma EncodeInjective(a: seq<Byte>, b: seq<Byte>)
    requires Encode(a) == Encode(b)
    ensures a == b
  {
    DecodeEncode(a);
    DecodeEncode(b);
  }

  /** The test vectors of section 10 of RFC 4648, which pin the alphabet and the padding. */
  lemma RfcTestVectors()
    ensures Encode([]) == ""
    ensures Encode([102]) == "Zg=="
    ensures Encode([102, 111]) == "Zm8="
    ensures Encode([102, 111, 111]) == "Zm9v"
    ensures Encode([102, 111, 111, 98]) == "Zm9vYg=="
    ensures Encode([102, 111, 111, 98, 97]) == "Zm9vYmE="
    ensures Encode([102, 111, 111, 98, 97, 114]) == "Zm9vYmFy"
  {
  }
}
