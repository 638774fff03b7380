/**
 * PHP values as the SDK sees them once a response body has gone through
 * `json_decode($body, true)`: scalars, strings and ordered arrays whose keys
 * are integers or strings. The module also fixes the PHP conversions the SDK
 * relies on: truthiness (`if ($x)`, `?:`), string conversion (`.` and
 * `implode`), decimal rendering of integers and the array union operator `+`.
 */
module PhpValues {

  datatype Option<+T> = None | Some(value: T)

  /** A PHP array key. PHP stores decimal-integer string keys as integer keys. */
  datatype Key = IntKey(i: int) | StrKey(s: string)

  /**
   * A PHP value. Floats are opaque to the SDK (it only stores them), so a
   * float is identified by the string PHP renders for it (`1.5`, `0`, `-0`).
   */
  datatype Value =
    | Null
    | Bool(b: bool)
    | Int(i: int)
    | Float(text: string)
    | Str(s: string)
    | Arr(entries: seq<(Key, Value)>)

  /** The entries of a PHP array, in insertion order. */
  type Entries = seq<(Key, Value)>

  /** PHP truthiness: null, false, 0, 0.0, -0.0, "", "0" and [] are falsy. */
  predicate Truthy(v: Value) {
    match v
    case Null => false
    case Bool(b) => b
    case Int(i) => i != 0
    case Float(t) => t != "0" && t != "-0"
    case Str(s) => s != "" && s != "0"
    case Arr(es) => es != []
  }

  // ---------------------------------------------------------------------
  // Decimal rendering of integers, as `(string)$int` produces it.

  predicate IsDigit(c: char) {
    '0' <= c <= '9'
  }

  function DigitChar(d: nat): (c: char)
    requires d < 10
    ensures IsDigit(c) && c as int - '0' as int == d
  {
    ('0' as int + d) as char
  }

  function DigitValue(c: char): nat
    requires IsDigit(c)
  {
    c as int - '0' as int
  }

  /** The shortest decimal spelling of `n`. */
  function NatToDecimal(n: nat): (s: string)
    ensures |s| >= 1
    ensures forall i :: 0 <= i < |s| ==> IsDigit(s[i])
  {
    if n < 10 then [DigitChar(n)] else NatToDecimal(n / 10) + [DigitChar(n % 10)]
  }

  /** `(string)$n` for a PHP integer `n`. */
  function IntToDecimal(n: int): (s: string)
    ensures |s| >= 1
    ensures forall i :: 0 <= i < |s| ==> IsDigit(s[i]) || (i == 0 && s[i] == '-')
  {
    if n < 0 then "-" + NatToDecimal(-n) else NatToDecimal(n)
  }

  predicate AllDigits(s: string) {
    forall i :: 0 <= i < |s| ==> IsDigit(s[i])
  }

  /** Reads a string of digits back as a number. */
  function DecimalToNat(s: string): nat
    requires AllDigits(s)
  {
    if s == [] then 0 else 10 * DecimalToNat(s[..|s| - 1]) + DigitValue(s[|s| - 1])
  }

  /** Parses an optionally signed decimal integer; `None` for anything else. */
  function ParseInt(s: string): Option<int> {
    if |s| >= 2 && s[0] == '-' && AllDigits(s[1..]) then Some(0 - DecimalToNat(s[1..]) as int)
    else if |s| >= 1 && AllDigits(s) then Some(DecimalToNat(s) as int)
    else None
  }

  lemma {:induction false} NatToDecimalRoundTrip(n: nat)
    ensures DecimalToNat(NatToDecimal(n)) == n
  {
    if n >= 10 {
      var s := NatToDecimal(n);
      assert s[..|s| - 1] == NatToDecimal(n / 10);
      NatToDecimalRoundTrip(n / 10);
    }
  }

  /** The integer rendering is lossless: it parses back to the same integer. */
  lemma IntToDecimalRoundTrip(n: int)
    ensures ParseInt(IntToDecimal(n)) == Some(n)
  {
    if n < 0 {
      var s := IntToDecimal(n);
      assert s[1..] == NatToDecimal(-n);
      NatToDecimalRoundTrip(-n);
    } else {
      NatToDecimalRoundTrip(n);
    }
  }

  /** Distinct integers have distinct renderings. */
  lemma IntToDecimalInjective(m: int, n: int)
    requires IntToDecimal(m) == IntToDecimal(n)
    ensures m == n
  {
    IntToDecimalRoundTrip(m);
    IntToDecimalRoundTrip(n);
  }

  // ---------------------------------------------------------------------
  // String conversion and keys.

  /** `(string)$v`, the conversion `.` and `implode` apply. */
  function Stringify(v: Value): string {
    match v
    case Null => ""
    case Bool(b) => if b then "1" else ""
    case Int(i) => IntToDecimal(i)
    case Float(t) => t
    case Str(s) => s
    case Arr(_) => "Array"
  }

  /** The property or method-name string PHP uses for an array key. */
  function KeyName(k: Key): string {
    match k
    case IntKey(i) => IntToDecimal(i)
    case StrKey(s) => s
  }

  // ---------------------------------------------------------------------
  // Lookup and the union operator.

  predicate HasKey(es: Entries, k: Key) {
    exists i :: 0 <= i < |es| && es[i].0 == k
  }

  lemma HasKeyUncons(es: Entries, k: Key)
    requires es != []
    ensures HasKey(es, k) <==> es[0].0 == k || HasKey(es[1..], k)
  {
    if HasKey(es, k) && es[0].0 != k {
      var i :| 0 <= i < |es| && es[i].0 == k;
      assert es[1..][i - 1].0 == k;
    }
    if HasKey(es[1..], k) {
      var i :| 0 <= i < |es[1..]| && es[1..][i].0 == k;
      assert es[i + 1].0 == k;
    }
  }

  /** `$array[$k] ?? null` as an option: the value of the first entry with key `k`. */
  function Lookup(es: Entries, k: Key): (r: Option<Value>)
    ensures r.Some? <==> HasKey(es, k)
  {
    if es == [] then None
    else if es[0].0 == k then Some(es[0].1)
    else
      HasKeyUncons(es, k);
      Lookup(es[1..], k)
  }

  /** The entries of `b` whose key does not occur in `a`, in `b`'s order. */
  function Unmatched(b: Entries, a: Entries): (r: Entries)
    ensures forall k :: HasKey(r, k) <==> HasKey(b, k) && !HasKey(a, k)
    ensures forall k :: !HasKey(a, k) ==> Lookup(r, k) == Lookup(b, k)
  {
    if b == [] then []
    else
      var rest := Unmatched(b[1..], a);
      assert forall k :: HasKey(b, k) <==> b[0].0 == k || HasKey(b[1..], k) by {
        forall k ensures HasKey(b, k) <==> b[0].0 == k || HasKey(b[1..], k) { HasKeyUncons(b, k); }
      }
      if HasKey(a, b[0].0) then rest
      else
        var r := [b[0]] + rest;
        assert r[1..] == rest;
        assert forall k :: HasKey(r, k) <==> b[0].0 == k || HasKey(rest, k) by {
          forall k ensures HasKey(r, k) <==> b[0].0 == k || HasKey(rest, k) { HasKeyUncons(r, k); }
        }
        r
  }

  lemma {:induction false} LookupAppend(a: Entries, b: Entries, k: Key)
    ensures Lookup(a + b, k) == if HasKey(a, k) then Lookup(a, k) else Lookup(b, k)
  {
    if a != [] {
      assert (a + b)[0] == a[0] && (a + b)[1..] == a[1..] + b;
      HasKeyUncons(a, k);
      if a[0].0 != k {
        LookupAppend(a[1..], b, k);
      } else {
        assert HasKey(a, k);
      }
    } else {
      assert a + b == b;
    }
  }

  /**
   * PHP's array union `$a + $b`: every entry of `a`, then the entries of `b`
   * whose key `a` does not have. On a shared key the value from `a` wins.
   */
  function Union(a: Entries, b: Entries): (r: Entries)
    ensures |a| <= |r| && r[..|a|] == a
    ensures forall k :: HasKey(r, k) <==> HasKey(a, k) || HasKey(b, k)
  {
    a + Unmatched(b, a)
  }

  /** Lookup in a union prefers the left operand, and falls back to the right one. */
  lemma UnionLookup(a: Entries, b: Entries, k: Key)
    ensures Lookup(Union(a, b), k) == if HasKey(a, k) then Lookup(a, k) else Lookup(b, k)
  {
    LookupAppend(a, Unmatched(b, a), k);
  }

  /** `$data + []` is `$data`. */
  lemma UnionEmptyRight(a: Entries)
    ensures Union(a, []) == a
  {
  }
}

/** The exceptions the SDK (and the PHP engine beneath it) raises, as data. */
module Errors {
  import opened PhpValues

  datatype Error =
    | ValidationException(errors: Value)     // status 422, carries the decoded body
    | NotFoundException                      // status 404, no payload
    | FailedActionException(body: string)    // status 400, carries the raw body
    | ApiServerException(message: string)    // status >= 500, message built by forResponse
    | GenericException(message: string)      // any other non-2xx status, the raw body
    | TimeoutException(output: Value)        // retry gave up, carries the last output
    | TypeError                              // engine: an argument, operand or return value of the wrong type
    | ValueError                             // engine: sleep() with a negative number of seconds
    | PropertyError(name: string)            // engine: an empty or NUL-prefixed property name

  /** The result of a PHP call: a returned value or a thrown exception. */
  datatype Outcome<+T> = Ok(value: T) | Thrown(error: Error)
}
