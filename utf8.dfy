/**
 * The bytes of a string. PHP strings are byte strings; the model's strings
 * are sequences of Unicode scalar values, taken to reach PHP as UTF-8.
 */
module Utf8 {
  /** One byte of a PHP string. */
  newtype Byte = x: int | 0 <= x < 256

  const Colon: Byte := 58

  /** The UTF-8 encoding of one scalar value (section 3 of RFC 3629). */
  function EncodeChar(c: char): (r: seq<Byte>)
    ensures 1 <= |r| <= 4
    ensures c as int < 0x80 ==> r == [c as int as Byte]
    ensures c as int >= 0x80 ==> forall i :: 0 <= i < |r| ==> r[i] >= 0x80
  {
    var n := c as int;
    if n < 0x80 then [n as Byte]
    else if n < 0x800 then [(0xC0 + n / 0x40) as Byte, (0x80 + n % 0x40) as Byte]
    else if n < 0x10000 then
      [(0xE0 + n / 0x1000) as Byte, (0x80 + n / 0x40 % 0x40) as Byte, (0x80 + n % 0x40) as Byte]
    else
      [(0xF0 + n / 0x40000) as Byte, (0x80 + n / 0x1000 % 0x40) as Byte,
       (0x80 + n / 0x40 % 0x40) as Byte, (0x80 + n % 0x40) as Byte]
  }

  /** The UTF-8 bytes of a string. */
  function Encode(s: string): seq<Byte> {
    if s == [] then [] else EncodeChar(s[0]) + Encode(s[1..])
  }

  /** Encoding is compositional. */
  lemma {:induction false} EncodeAppend(a: string, b: string)
    ensures Encode(a + b) == Encode(a) + Encode(b)
  {
    if a == [] {
      assert a + b == b;
    } else {
      assert (a + b)[0] == a[0] && (a + b)[1..] == a[1..] + b;
      EncodeAppend(a[1..], b);
    }
  }

  /** The byte of ':' occurs in the encoding only where the string has a ':'. */
  lemma {:induction false} ColonOnlyFromColon(s: string)
    requires forall i :: 0 <= i < |s| ==> s[i] != ':'
    ensures Colon !in Encode(s)
  {
    if s != [] {
      ColonOnlyFromColon(s[1..]);
      var r := EncodeChar(s[0]);
      assert forall i :: 0 <= i < |r| ==> r[i] != Colon;
    }
  }

  lemma ColonEncoding()
    ensures Encode(":") == [Colon]
  {
    assert ":"[1..] == [];
  }
}
