/**
 * `standardizedFillMethodName`: the string pipeline that turns a payload key
 * into the name of the custom fill method that would handle it, and the
 * method lookup that ignores case, as PHP method names do.
 *
 * The pipeline is modelled step by step (`UcWords`, the three replacements,
 * `UcWords` again, removing the spaces) and then shown equal to a direct
 * description, `Studly`: drop every character that is not an ASCII letter or
 * digit, and upper-case each kept character that starts the string or follows
 * a dropped one.
 */
module FillMethodNames {

  // ---------------------------------------------------------------------
  // Character classes and case (ASCII, as PHP's string functions use them).

  predicate IsAsciiLetter(c: char) {
    'a' <= c <= 'z' || 'A' <= c <= 'Z'
  }

  predicate IsAlnum(c: char) {
    IsAsciiLetter(c) || '0' <= c <= '9'
  }

  /** The delimiters `ucwords` uses by default: space, tab, CR, LF, form feed, vertical tab. */
  predicate IsUcWordsDelimiter(c: char) {
    c == ' ' || c == '\t' || c == '\r' || c == '\n' || c == '\U{C}' || c == '\U{B}'
  }

  function Upper(c: char): (u: char)
    ensures IsAlnum(u) <==> IsAlnum(c)
    ensures 'a' <= c <= 'z' ==> 'A' <= u <= 'Z'
    ensures !('a' <= c <= 'z') ==> u == c
  {
    if 'a' <= c <= 'z' then (c as int - 32) as char else c
  }

  function Lower(c: char): (l: char)
    ensures 'A' <= c <= 'Z' ==> 'a' <= l <= 'z'
    ensures !('A' <= c <= 'Z') ==> l == c
  {
    if 'A' <= c <= 'Z' then (c as int + 32) as char else c
  }

  /** `strtolower` on ASCII, the folding PHP applies to method names. */
  function AsciiLower(s: string): (r: string)
    ensures |r| == |s|
    ensures forall i :: 0 <= i < |s| ==> r[i] == Lower(s[i])
  {
    if s == [] then [] else [Lower(s[0])] + AsciiLower(s[1..])
  }

  // ---------------------------------------------------------------------
  // The pipeline, one PHP call per function.

  /**
   * `ucwords` from a given state: `atStart` says whether the previous
   * character was a delimiter (true at the start of the string).
   */
  function UcWordsAfter(s: string, atStart: bool): string {
    if s == [] then []
    else [if atStart then Upper(s[0]) else s[0]] + UcWordsAfter(s[1..], IsUcWordsDelimiter(s[0]))
  }

  function UcWords(s: string): string {
    UcWordsAfter(s, true)
  }

  /** `str_replace($from, $to, $s)` for one-character search and replacement. */
  function ReplaceChar(s: string, from: char, to: char): string {
    if s == [] then [] else [if s[0] == from then to else s[0]] + ReplaceChar(s[1..], from, to)
  }

  /** `preg_replace('/[^A-Za-z0-9\-]/', ' ', $s)`. */
  function MaskPattern(s: string): string {
    if s == [] then [] else [if IsAlnum(s[0]) || s[0] == '-' then s[0] else ' '] + MaskPattern(s[1..])
  }

  /** `str_replace(' ', '', $s)`. */
  function RemoveSpaces(s: string): string {
    if s == [] then [] else (if s[0] == ' ' then [] else [s[0]]) + RemoveSpaces(s[1..])
  }

  /** The six steps after the first, from explicit `ucwords` states. */
  function PipelineFrom(s: string, first: bool, second: bool): string {
    RemoveSpaces(UcWordsAfter(MaskPattern(ReplaceChar(ReplaceChar(UcWordsAfter(s, first), '-', ' '), '_', ' ')), second))
  }

  /** `standardizedFillMethodName($property)`. */
  function FillMethodName(property: string): string {
    "fill" + PipelineFrom(property, true, true) + "Attribute"
  }

  // ---------------------------------------------------------------------
  // The direct description.

  /** The letters and digits of `s`, each upper-cased when it starts a word. */
  function StudlyFrom(s: string, atStart: bool): (r: string)
    ensures forall i :: 0 <= i < |r| ==> IsAlnum(r[i])
    ensures |r| <= |s|
  {
    if s == [] then []
    else if IsAlnum(s[0]) then [if atStart then Upper(s[0]) else s[0]] + StudlyFrom(s[1..], false)
    else StudlyFrom(s[1..], true)
  }

  function Studly(s: string): string {
    StudlyFrom(s, true)
  }

  /** The letters and digits of `s`, unchanged. */
  function AlnumOnly(s: string): (r: string)
    ensures forall i :: 0 <= i < |r| ==> IsAlnum(r[i])
    ensures |r| <= |s|
  {
    if s == [] then [] else (if IsAlnum(s[0]) then [s[0]] else []) + AlnumOnly(s[1..])
  }

  /**
   * The pipeline equals the direct description, from any pair of `ucwords`
   * states where the first one never capitalises unless the second does.
   */
  lemma {:induction false} PipelineIsStudly(s: string, first: bool, second: bool)
    requires first ==> second
    ensures PipelineFrom(s, first, second) == StudlyFrom(s, second)
  {
    if s != [] {
      var c, rest := s[0], s[1..];
      var u1 := UcWordsAfter(rest, IsUcWordsDelimiter(c));
      var c1 := if first then Upper(c) else c;
      assert UcWordsAfter(s, first) == [c1] + u1;
      var r1 := ReplaceChar(u1, '-', ' ');
      var d1 := if c1 == '-' then ' ' else c1;
      assert ReplaceChar([c1] + u1, '-', ' ') == [d1] + r1;
      var r2 := ReplaceChar(r1, '_', ' ');
      var d2 := if d1 == '_' then ' ' else d1;
      assert ReplaceChar([d1] + r1, '_', ' ') == [d2] + r2;
      var m := MaskPattern(r2);
      var d3 := if IsAlnum(d2) || d2 == '-' then d2 else ' ';
      assert MaskPattern([d2] + r2) == [d3] + m;
      assert d3 == if IsAlnum(c) then c1 else ' ';
      var u2 := UcWordsAfter(m, IsUcWordsDelimiter(d3));
      var d4 := if second then Upper(d3) else d3;
      assert UcWordsAfter([d3] + m, second) == [d4] + u2;
      assert RemoveSpaces([d4] + u2) == (if d4 == ' ' then [] else [d4]) + RemoveSpaces(u2);
      assert PipelineFrom(rest, IsUcWordsDelimiter(c), IsUcWordsDelimiter(d3)) == RemoveSpaces(u2);
      PipelineIsStudly(rest, IsUcWordsDelimiter(c), IsUcWordsDelimiter(d3));
    }
  }

  /**
   * The fill method name is `fill` + X + `Attribute`, where X is the direct
   * description of the key and so holds only ASCII letters and digits.
   */
  lemma FillMethodNameShape(property: string)
    ensures FillMethodName(property) == "fill" + Studly(property) + "Attribute"
    ensures forall i :: 0 <= i < |Studly(property)| ==> IsAlnum(Studly(property)[i])
  {
    PipelineIsStudly(property, true, true);
  }

  lemma LowerUpper(c: char)
    ensures Lower(Upper(c)) == Lower(c)
  {
  }

  /**
   * Folded to lower case, X is just the letters and digits of the key: the
   * choice of separators and the case at word starts do not matter.
   */
  lemma {:induction false} StudlyFolds(s: string, atStart: bool)
    ensures AsciiLower(StudlyFrom(s, atStart)) == AsciiLower(AlnumOnly(s))
  {
    if s != [] {
      StudlyFolds(s[1..], !IsAlnum(s[0]));
      LowerUpper(s[0]);
      if IsAlnum(s[0]) {
        var h := if atStart then Upper(s[0]) else s[0];
        assert AsciiLower([h] + StudlyFrom(s[1..], false)) == [Lower(h)] + AsciiLower(StudlyFrom(s[1..], false));
        assert AsciiLower([s[0]] + AlnumOnly(s[1..])) == [Lower(s[0])] + AsciiLower(AlnumOnly(s[1..]));
      } else {
        assert AlnumOnly(s) == AlnumOnly(s[1..]);
        StudlyFolds(s[1..], true);
      }
    }
  }

  /** Case-insensitive name equality, as `method_exists` applies it. */
  predicate SameMethodName(a: string, b: string) {
    AsciiLower(a) == AsciiLower(b)
  }

  /**
   * Two keys lead to the same method (up to case) exactly when they have the
   * same letters and digits up to case.
   */
  lemma SameFillMethod(p: string, q: string)
    ensures SameMethodName(FillMethodName(p), FillMethodName(q)) <==>
      AsciiLower(AlnumOnly(p)) == AsciiLower(AlnumOnly(q))
  {
    FillMethodNameShape(p);
    FillMethodNameShape(q);
    StudlyFolds(p, true);
    StudlyFolds(q, true);
    var x, y := Studly(p), Studly(q);
    assert AsciiLower("fill" + x + "Attribute") == AsciiLower("fill") + AsciiLower(x) + AsciiLower("Attribute") by {
      AsciiLowerAppend("fill", x);
      AsciiLowerAppend("fill" + x, "Attribute");
    }
    assert AsciiLower("fill" + y + "Attribute") == AsciiLower("fill") + AsciiLower(y) + AsciiLower("Attribute") by {
      AsciiLowerAppend("fill", y);
      AsciiLowerAppend("fill" + y, "Attribute");
    }
    if AsciiLower("fill" + x + "Attribute") == AsciiLower("fill" + y + "Attribute") {
      var lx, ly := AsciiLower(x), AsciiLower(y);
      assert |lx| == |ly|;
      assert lx == (AsciiLower("fill") + lx + AsciiLower("Attribute"))[4..4 + |lx|];
      assert ly == (AsciiLower("fill") + ly + AsciiLower("Attribute"))[4..4 + |ly|];
    }
  }

  lemma AsciiLowerAppend(a: string, b: string)
    ensures AsciiLower(a + b) == AsciiLower(a) + AsciiLower(b)
  {
    var l, r := AsciiLower(a + b), AsciiLower(a) + AsciiLower(b);
    assert |l| == |r|;
    forall i | 0 <= i < |l| ensures l[i] == r[i] {
      if i < |a| { assert (a + b)[i] == a[i]; } else { assert (a + b)[i] == b[i - |a|]; }
    }
  }

  /** The letters and digits of `s`, folded to lower case: what decides which method a key reaches. */
  function Letters(s: string): string {
    AsciiLower(AlnumOnly(s))
  }

  /**
   * A key reaches the method `"fill" + word + "Attribute"` (up to case) exactly
   * when its letters and digits, folded, are those of `word`.
   */
  lemma FillMethodMatches(property: string, word: string)
    ensures SameMethodName("fill" + word + "Attribute", FillMethodName(property)) <==>
      Letters(property) == AsciiLower(word)
  {
    FillMethodNameShape(property);
    StudlyFolds(property, true);
    var x := Studly(property);
    AsciiLowerAppend("fill", x);
    AsciiLowerAppend("fill" + x, "Attribute");
    AsciiLowerAppend("fill", word);
    AsciiLowerAppend("fill" + word, "Attribute");
    var lx, lw := AsciiLower(x), AsciiLower(word);
    var f, a := AsciiLower("fill"), AsciiLower("Attribute");
    if f + lw + a == f + lx + a {
      assert |lx| == |lw|;
      assert lx == (f + lx + a)[4..4 + |lx|];
      assert lw == (f + lw + a)[4..4 + |lw|];
    }
  }

  predicate AllAlnum(w: string) {
    forall i :: 0 <= i < |w| ==> IsAlnum(w[i])
  }

  lemma {:induction false} AlnumOnlyOfAlnum(s: string)
    requires AllAlnum(s)
    ensures AlnumOnly(s) == s
  {
    if s != [] {
      AlnumOnlyOfAlnum(s[1..]);
    }
  }

  /**
   * The letters of a word of letters and digits are the word folded to lower
   * case, whether or not its first letter is capitalised.
   */
  lemma CapitalisedLetters(w: string)
    requires w != [] && AllAlnum(w)
    ensures Letters(w) == AsciiLower(w) == AsciiLower([Upper(w[0])] + w[1..])
    ensures |Letters(w)| == |w|
  {
    AlnumOnlyOfAlnum(w);
    AsciiLowerAppend([w[0]], w[1..]);
    AsciiLowerAppend([Upper(w[0])], w[1..]);
    LowerUpper(w[0]);
    assert [w[0]] + w[1..] == w;
  }

  /** A run of letters and digits passes through, its first character capitalised at a word start. */
  lemma {:induction false} StudlyWord(w: string, atStart: bool)
    requires w != [] && AllAlnum(w)
    ensures StudlyFrom(w, atStart) == [if atStart then Upper(w[0]) else w[0]] + w[1..]
  {
    if |w| > 1 {
      StudlyWord(w[1..], false);
    } else {
      assert w[1..] == [];
    }
  }

  lemma {:induction false} StudlySeparated(a: string, sep: char, b: string, atStart: bool)
    requires !IsAlnum(sep)
    ensures StudlyFrom(a + [sep] + b, atStart) == StudlyFrom(a, atStart) + StudlyFrom(b, true)
  {
    if a == [] {
      assert a + [sep] + b == [sep] + b;
    } else {
      assert (a + [sep] + b)[1..] == a[1..] + [sep] + b;
      StudlySeparated(a[1..], sep, b, !IsAlnum(a[0]));
    }
  }

  /** A camel-case key gets its first letter capitalised. */
  lemma DeliveryProductsExample(key: string)
    requires key == "deliveryProducts"
    ensures FillMethodName(key) == "fillDeliveryProductsAttribute"
  {
    FillMethodNameShape(key);
    StudlyWord(key, true);
  }

  /** `a_b` and `aB` have the same studly form. */
  lemma StudlySnakeCamel(a: string, b: string)
    requires a != [] && b != [] && AllAlnum(a) && AllAlnum(b)
    ensures Studly(a + ['_'] + b) == Studly(a + [Upper(b[0])] + b[1..])
  {
    var snake, camel := a + ['_'] + b, a + [Upper(b[0])] + b[1..];
    assert Studly(snake) == [Upper(a[0])] + a[1..] + ([Upper(b[0])] + b[1..]) by {
      StudlySeparated(a, '_', b, true);
      StudlyWord(a, true);
      StudlyWord(b, true);
    }
    assert Studly(camel) == [Upper(a[0])] + camel[1..] by {
      assert AllAlnum(camel);
      StudlyWord(camel, true);
    }
    assert camel[1..] == a[1..] + ([Upper(b[0])] + b[1..]);
  }

  /** The snake-case spelling `a_b` of two words reaches the same method as the camel-case `aB`. */
  lemma SnakeCaseIsCamelCase(a: string, b: string)
    requires a != [] && b != [] && AllAlnum(a) && AllAlnum(b)
    ensures FillMethodName(a + "_" + b) == FillMethodName(a + [Upper(b[0])] + b[1..])
  {
    var snake, camel := a + ['_'] + b, a + [Upper(b[0])] + b[1..];
    assert a + "_" + b == snake;
    StudlySnakeCamel(a, b);
    FillMethodNameShape(snake);
    FillMethodNameShape(camel);
  }
}
