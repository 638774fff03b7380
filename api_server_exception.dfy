/**
 * The message of the exception raised for a 5xx response. It is the only
 * diagnostic a caller gets, so it must carry the status code and the body
 * verbatim; `ParseMessage` recovers both, which shows that nothing is lost.
 */
module ApiServerExceptions {
  import opened PhpValues

  const Prefix: string :=
    "Looks like there was a problem on EagleView's end. You did nothing wrong. The server returned a "
  const Infix: string := " with the message \""

  /** The message `forResponse` builds from a response's status and body. */
  function ForResponseMessage(status: int, body: string): (m: string)
    ensures |m| > |Prefix| + |body| && m[..|Prefix|] == Prefix
    ensures m[|m| - 1 - |body|..] == body + "\""
  {
    var m := Prefix + IntToDecimal(status) + Infix + body + "\"";
    assert m[|m| - 1 - |body|..] == body + "\"";
    m
  }

  /** The index of the first space in `s`, or `|s|` when there is none. */
  function FirstSpace(s: string): (i: nat)
    ensures i <= |s|
    ensures i < |s| ==> s[i] == ' '
    ensures forall j :: 0 <= j < i ==> s[j] != ' '
  {
    if s == [] then 0 else if s[0] == ' ' then 0 else 1 + FirstSpace(s[1..])
  }

  /**
   * Reads a message of the `forResponse` shape back into its status and body;
   * `None` for any other string.
   */
  function ParseMessage(m: string): Option<(int, string)> {
    if |m| <= |Prefix| || !StartsWith(m, Prefix) || m[|m| - 1] != '"' then None
    else
      var rest := m[|Prefix|..|m| - 1];
      var i := FirstSpace(rest);
      if !StartsWith(rest[i..], Infix) then None
      else match ParseInt(rest[..i])
        case None => None
        case Some(status) => Some((status, rest[i + |Infix|..]))
  }

  predicate StartsWith(s: string, p: string) {
    |p| <= |s| && s[..|p|] == p
  }

  lemma {:induction false} FirstSpaceAt(s: string, k: nat)
    requires k < |s| && s[k] == ' '
    requires forall j :: 0 <= j < k ==> s[j] != ' '
    ensures FirstSpace(s) == k
  {
    if k > 0 {
      FirstSpaceAt(s[1..], k - 1);
    }
  }

  /** A space-free head, then the infix, then a tail: the first space is where the infix starts. */
  lemma SplitAtInfix(head: string, tail: string)
    requires forall i :: 0 <= i < |head| ==> head[i] != ' '
    ensures var rest := head + Infix + tail;
      var i := FirstSpace(rest);
      i == |head| && StartsWith(rest[i..], Infix) && rest[..i] == head && rest[i + |Infix|..] == tail
  {
    var rest := head + Infix + tail;
    assert rest[|head|] == ' ';
    FirstSpaceAt(rest, |head|);
    assert rest[..|head|] == head;
    assert rest[|head|..][..|Infix|] == Infix;
    assert rest[|head| + |Infix|..] == tail;
  }

  /** The status and the body are both recoverable from the message. */
  lemma ParseForResponseMessage(status: int, body: string)
    ensures ParseMessage(ForResponseMessage(status, body)) == Some((status, body))
  {
    var d := IntToDecimal(status);
    var rest := d + Infix + body;
    var m := ForResponseMessage(status, body);
    assert m == Prefix + rest + "\"";
    Framing(m, rest);
    SplitAtInfix(d, body);
    IntToDecimalRoundTrip(status);
  }

  /** A message framed by the prefix and a closing quote. */
  lemma Framing(m: string, rest: string)
    requires m == Prefix + rest + "\""
    ensures |m| > |Prefix| && StartsWith(m, Prefix) && m[|m| - 1] == '"' && m[|Prefix|..|m| - 1] == rest
  {
    assert m[..|Prefix|] == Prefix;
    assert m[|Prefix|..|m| - 1] == rest;
  }
}
