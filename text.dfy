/** String handling shared by the back end and the views: trimming, the
    special-token display map, first-space marking and decimal labels. */
module TokenText {

  /** ASCII whitespace as removed by Python's `str.strip()` and JavaScript's `trim()`. */
  predicate IsWhitespace(c: char)
  {
    c == ' ' || c == '\t' || c == '\n' || c == '\r' || c == '\U{000B}' || c == '\U{000C}'
  }

  /** True when the string is empty or holds whitespace only. */
  predicate IsBlank(s: string)
  {
    forall k :: 0 <= k < |s| ==> IsWhitespace(s[k])
  }

  /** Python's `lstrip()` on ASCII whitespace. */
  function TrimStart(s: string): (r: string)
    ensures |r| <= |s|
  {
    if s != [] && IsWhitespace(s[0]) then TrimStart(s[1..]) else s
  }

  /** Python's `rstrip()` on ASCII whitespace. */
  function TrimEnd(s: string): (r: string)
    ensures |r| <= |s|
  {
    if s != [] && IsWhitespace(s[|s| - 1]) then TrimEnd(s[..|s| - 1]) else s
  }

  /** TrimStart removes a blank prefix and stops at a non-blank character. */
  lemma {:induction false} TrimStartFacts(s: string)
    ensures TrimStart(s) == s[|s| - |TrimStart(s)|..]
    ensures TrimStart(s) == [] || !IsWhitespace(TrimStart(s)[0])
    ensures IsBlank(s[..|s| - |TrimStart(s)|])
  {
    if s != [] && IsWhitespace(s[0]) {
      TrimStartFacts(s[1..]);
      var r := TrimStart(s[1..]);
      assert s[1..][..|s| - 1 - |r|] == s[1..|s| - |r|];
    }
  }

  /** TrimEnd removes a blank suffix and stops at a non-blank character. */
  lemma {:induction false} TrimEndFacts(s: string)
    ensures TrimEnd(s) == s[..|TrimEnd(s)|]
    ensures TrimEnd(s) == [] || !IsWhitespace(TrimEnd(s)[|TrimEnd(s)| - 1])
    ensures IsBlank(s[|TrimEnd(s)|..])
  {
    if s != [] && IsWhitespace(s[|s| - 1]) {
      TrimEndFacts(s[..|s| - 1]);
      var r := TrimEnd(s[..|s| - 1]);
      assert s[..|s| - 1][|r|..] == s[|r|..|s| - 1];
    }
  }

  /** `word.trim()` / `token.strip()`: whitespace removed at both ends. */
  function Trim(s: string): (r: string)
    ensures |r| <= |s|
    ensures r == [] || (!IsWhitespace(r[0]) && !IsWhitespace(r[|r| - 1]))
  {
    var t := TrimStart(s);
    TrimStartFacts(s);
    TrimEndFacts(t);
    var r := TrimEnd(t);
    assert r != [] ==> r[0] == t[0];
    r
  }

  /** The trimmed text is the infix of the input between a blank prefix and
      a blank suffix. */
  lemma TrimIsInfix(s: string) returns (a: nat)
    ensures a + |Trim(s)| <= |s| && Trim(s) == s[a..a + |Trim(s)|]
    ensures IsBlank(s[..a]) && IsBlank(s[a + |Trim(s)|..])
  {
    var t := TrimStart(s);
    var r := TrimEnd(t);
    TrimStartFacts(s);
    TrimEndFacts(t);
    a := |s| - |t|;
    assert r == s[a..a + |r|];
    assert s[a + |r|..] == t[|r|..];
  }

  /** The trimmed word is empty exactly when the input is blank: this is the
      truthiness test `if (word.trim())`. */
  lemma TrimEmptyIffBlank(s: string)
    ensures Trim(s) == [] <==> IsBlank(s)
  {
    var r := Trim(s);
    var a := TrimIsInfix(s);
    if r == [] {
      forall k | 0 <= k < |s| ensures IsWhitespace(s[k]) {
        if k < a { assert s[..a][k] == s[k]; } else { assert s[a..][k - a] == s[k]; }
      }
    } else {
      assert r[0] == s[a];
    }
  }

  /** Trimming twice removes nothing more. */
  lemma TrimIdempotent(s: string)
    ensures Trim(Trim(s)) == Trim(s)
  {
    var r := Trim(s);
    if r != [] {
      assert TrimStart(r) == r;
      assert TrimEnd(r) == r;
    }
  }

  /** `token.replace(' ', '·')`: a JavaScript string replace with a string
      pattern changes only the FIRST space. */
  function MarkFirstSpace(s: string): (r: string)
    ensures |r| == |s|
    ensures forall k :: 0 <= k < |s| ==>
      r[k] == (if s[k] == ' ' && ' ' !in s[..k] then '·' else s[k])
  {
    if s == [] then []
    else if s[0] == ' ' then
      assert forall k :: 1 <= k < |s| ==> s[0] in s[..k];
      ['·'] + s[1..]
    else
      var rest := MarkFirstSpace(s[1..]);
      assert forall k :: 1 <= k < |s| ==> s[..k] == [s[0]] + s[1..][..k - 1];
      [s[0]] + rest
  }

  /** A marked label differs from the token in at most one position. */
  lemma MarkFirstSpaceChangesAtMostOne(s: string, a: nat, b: nat)
    requires a < b < |s|
    ensures MarkFirstSpace(s)[a] == s[a] || MarkFirstSpace(s)[b] == s[b]
  {
    if MarkFirstSpace(s)[a] != s[a] {
      assert s[a] == ' ';
      assert s[..b][a] == ' ';
    }
  }

  /** The special-token display map of the token-sequence and logit-lens
      views: newline, tab and a lone space get a visible glyph. */
  function FormatToken(t: string): (r: string)
    ensures t == "\n" ==> r == "↵"
    ensures t == "\t" ==> r == "→"
    ensures t == " " ==> r == "·"
    ensures t != "\n" && t != "\t" && t != " " ==> r == t
    ensures |t| != 1 ==> r == t
  {
    if t == "\n" then "↵"
    else if t == "\t" then "→"
    else if t == " " then "·"
    else t
  }

  function DigitChar(d: nat): (c: char)
    requires d < 10
    ensures '0' <= c <= '9'
  {
    ('0' as int + d) as char
  }

  function DigitValue(c: char): (d: nat)
    requires '0' <= c <= '9'
    ensures d < 10
  {
    c as int - '0' as int
  }

  predicate AllDigits(s: string)
  {
    forall k :: 0 <= k < |s| ==> '0' <= s[k] <= '9'
  }

  /** JavaScript's rendering of a non-negative integer in a template string. */
  function DecimalString(n: nat): (s: string)
    ensures |s| >= 1 && AllDigits(s)
  {
    if n < 10 then [DigitChar(n)] else DecimalString(n / 10) + [DigitChar(n % 10)]
  }

  function ParseDecimal(s: string): nat
    requires AllDigits(s)
  {
    if s == [] then 0 else ParseDecimal(s[..|s| - 1]) * 10 + DigitValue(s[|s| - 1])
  }

  /** Reading the decimal text back gives the number: the rendering loses nothing. */
  lemma {:induction false} ParseDecimalInverts(n: nat)
    ensures ParseDecimal(DecimalString(n)) == n
  {
    var s := DecimalString(n);
    if n < 10 {
      assert s[..0] == [];
    } else {
      ParseDecimalInverts(n / 10);
      assert s[..|s| - 1] == DecimalString(n / 10);
    }
  }

  lemma DecimalStringInjective(a: nat, b: nat)
    requires DecimalString(a) == DecimalString(b)
    ensures a == b
  {
    ParseDecimalInverts(a);
    ParseDecimalInverts(b);
  }

  /** The chart series key `Head ${head}`. */
  function HeadKey(head: nat): string
  {
    "Head " + DecimalString(head)
  }

  /** Two heads share a series key only when they share a head number. */
  lemma HeadKeyInjective(a: nat, b: nat)
    ensures HeadKey(a) == HeadKey(b) <==> a == b
  {
    if HeadKey(a) == HeadKey(b) {
      assert HeadKey(a)[5..] == DecimalString(a);
      assert HeadKey(b)[5..] == DecimalString(b);
      DecimalStringInjective(a, b);
    }
  }

  /** The `#n` labels of ranks and positions. */
  function HashLabel(n: nat): string
  {
    "#" + DecimalString(n)
  }

  lemma HashLabelInjective(a: nat, b: nat)
    ensures HashLabel(a) == HashLabel(b) <==> a == b
  {
    if HashLabel(a) == HashLabel(b) {
      assert HashLabel(a)[1..] == DecimalString(a);
      assert HashLabel(b)[1..] == DecimalString(b);
      DecimalStringInjective(a, b);
    }
  }
}
