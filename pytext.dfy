/** The Python string built-ins the scraping code relies on, over `string`
    (a sequence of Unicode code points): str.strip(), str.split(),
    str.replace(c, ''), str.endswith(), str(int), int() and float()
    restricted to plain signed decimals. */
module PyText {
  import opened Wrappers

  /** str.isspace() for one character: the code points Python treats as
      whitespace in strip(), split(), int() and float() (space, tab to
      carriage return, the separators U+1C to U+1F, NEL, no-break space,
      Ogham space, U+2000 to U+200A, the line and paragraph separators,
      the narrow no-break and medium mathematical spaces, ideographic space). */
  predicate IsSpace(c: char)
  {
    c == ' ' || '\t' <= c <= '\r' || '\U{1C}' <= c <= '\U{1F}' || c == '\U{85}' || c == '\U{A0}'
    || c == '\U{1680}' || '\U{2000}' <= c <= '\U{200A}' || c == '\U{2028}' || c == '\U{2029}'
    || c == '\U{202F}' || c == '\U{205F}' || c == '\U{3000}'
  }

  predicate NoSpace(s: string)
  {
    forall j :: 0 <= j < |s| ==> !IsSpace(s[j])
  }

  /** str.lstrip(): the suffix of `s` that starts at its first non-space. */
  function StripLeft(s: string): (r: string)
    ensures |r| <= |s|
    ensures r == [] || !IsSpace(r[0])
  {
    if |s| > 0 && IsSpace(s[0]) then StripLeft(s[1..]) else s
  }

  /** str.rstrip(): the prefix of `s` that ends at its last non-space. */
  function StripRight(s: string): (r: string)
    ensures |r| <= |s|
    ensures r == [] || !IsSpace(r[|r| - 1])
  {
    if |s| > 0 && IsSpace(s[|s| - 1]) then StripRight(s[..|s| - 1]) else s
  }

  /** str.strip(): `s` without leading and trailing whitespace. */
  function Strip(s: string): (r: string)
    ensures |r| <= |s|
  {
    StripRight(StripLeft(s))
  }

  /** What strip() returns neither starts nor ends with whitespace. */
  lemma StripTrims(s: string)
    ensures var r := Strip(s); r == [] || (!IsSpace(r[0]) && !IsSpace(r[|r| - 1]))
  {
    StripRightCutsOnlySpace(StripLeft(s));
  }

  lemma {:induction false} StripRightCutsOnlySpace(s: string)
    ensures StripRight(s) == s[..|StripRight(s)|]
    ensures forall j :: |StripRight(s)| <= j < |s| ==> IsSpace(s[j])
  {
    if |s| > 0 && IsSpace(s[|s| - 1]) {
      StripRightCutsOnlySpace(s[..|s| - 1]);
    }
  }

  /** Text that neither starts nor ends with whitespace is left alone by strip(). */
  lemma StripUnchanged(s: string)
    requires s == [] || (!IsSpace(s[0]) && !IsSpace(s[|s| - 1]))
    ensures Strip(s) == s
  {
  }

  /** strip() is idempotent. */
  lemma StripIdempotent(s: string)
    ensures Strip(Strip(s)) == Strip(s)
  {
    StripTrims(s);
    StripUnchanged(Strip(s));
  }

  /** str.endswith(suffix). */
  predicate EndsWith(s: string, suffix: string)
  {
    |suffix| <= |s| && s[|s| - |suffix|..] == suffix
  }

  /** str.startswith(prefix). */
  predicate StartsWith(s: string, prefix: string)
  {
    prefix <= s
  }

  /** s.replace(c, ''): every occurrence of `c` removed, all else kept in order. */
  function RemoveChar(s: string, c: char): (r: string)
    ensures c !in r
    ensures c !in s ==> r == s
  {
    if |s| == 0 then []
    else
      var init := RemoveChar(s[..|s| - 1], c);
      assert s == s[..|s| - 1] + [s[|s| - 1]];
      if s[|s| - 1] == c then init else init + [s[|s| - 1]]
  }

  /** replace(c, '') keeps every other character, as often as it occurs. */
  lemma {:induction false} RemoveCharKeepsOthers(s: string, c: char)
    ensures forall x :: x != c ==> multiset(RemoveChar(s, c))[x] == multiset(s)[x]
  {
    if |s| > 0 {
      RemoveCharKeepsOthers(s[..|s| - 1], c);
      assert s == s[..|s| - 1] + [s[|s| - 1]];
    }
  }

  /** replace(c, '') works piece by piece. */
  lemma {:induction false} RemoveCharConcat(a: string, b: string, c: char)
    ensures RemoveChar(a + b, c) == RemoveChar(a, c) + RemoveChar(b, c)
  {
    if |b| == 0 {
      assert a + b == a;
    } else {
      var b' := b[..|b| - 1];
      assert (a + b)[..|a + b| - 1] == a + b';
      RemoveCharConcat(a, b', c);
    }
  }

  // ---------------------------------------------------------------- split()

  /** The number of leading non-whitespace characters. */
  function TokenLength(s: string): (n: nat)
    ensures n <= |s| && NoSpace(s[..n])
    ensures n < |s| ==> IsSpace(s[n])
    ensures |s| > 0 && !IsSpace(s[0]) ==> n > 0
  {
    if |s| == 0 || IsSpace(s[0]) then 0
    else
      var m := TokenLength(s[1..]);
      assert s[..m + 1] == [s[0]] + s[1..][..m];
      m + 1
  }

  /** str.split() with no argument: the maximal runs of non-whitespace. */
  function Split(s: string): (tokens: seq<string>)
    decreases |s|
  {
    var t := StripLeft(s);
    if |t| == 0 then []
    else
      var n := TokenLength(t);
      [t[..n]] + Split(t[n..])
  }

  /** A word followed by nothing or by whitespace is split off as one token. */
  lemma {:induction false} SplitWord(w: string, rest: string)
    requires |w| > 0 && NoSpace(w)
    requires rest == [] || IsSpace(rest[0])
    ensures Split(w + rest) == [w] + Split(rest)
  {
    var s := w + rest;
    assert StripLeft(s) == s;
    TokenLengthOfWord(w, rest);
    assert s[..|w|] == w && s[|w|..] == rest;
    if rest != [] {
      assert StripLeft(rest) == StripLeft(rest[1..]);
    }
  }

  lemma {:induction false} TokenLengthOfWord(w: string, rest: string)
    requires NoSpace(w)
    requires rest == [] || IsSpace(rest[0])
    ensures TokenLength(w + rest) == |w|
    decreases |w|
  {
    if |w| > 0 {
      assert (w + rest)[1..] == w[1..] + rest;
      TokenLengthOfWord(w[1..], rest);
    } else {
      assert w + rest == rest;
    }
  }

  /** Leading whitespace separates no token. */
  lemma {:induction false} SplitSkipsSpace(rest: string)
    ensures Split(" " + rest) == Split(rest)
  {
    assert (" " + rest)[1..] == rest;
    assert StripLeft(" " + rest) == StripLeft(rest);
  }

  lemma {:induction false} SplitWordAtEnd(w: string)
    requires |w| > 0 && NoSpace(w)
    ensures Split(w + []) == [w] + Split([])
  {
    SplitWord(w, []);
  }

  /** A lone word is its own only token. */
  lemma {:induction false} SplitOneWord(w: string)
    requires |w| > 0 && NoSpace(w)
    ensures Split(w) == [w]
  {
    SplitWordAtEnd(w);
    assert w + [] == w;
    var none: seq<string> := [];
    assert Split([]) == none;
    assert [w] + none == [w];
  }

  lemma {:induction false} SplitWordThenSpace(w: string, rest: string)
    requires |w| > 0 && NoSpace(w)
    ensures Split(w + (" " + rest)) == [w] + Split(" " + rest)
  {
    SplitWord(w, " " + rest);
  }

  /** A word, a space and more text: the word, then the tokens of the rest. */
  lemma {:induction false} SplitWordSpace(w: string, rest: string)
    requires |w| > 0 && NoSpace(w)
    ensures Split(w + " " + rest) == [w] + Split(rest)
  {
    SplitWordThenSpace(w, rest);
    SplitSkipsSpace(rest);
    ConcatAssoc(w, " ", rest);
  }

  lemma ConcatAssoc(a: string, b: string, c: string)
    ensures a + b + c == a + (b + c)
  {
  }

  /** Three words joined by single spaces split back into those three words. */
  lemma {:induction false} SplitThreeWords(a: string, b: string, c: string)
    requires |a| > 0 && NoSpace(a) && |b| > 0 && NoSpace(b) && |c| > 0 && NoSpace(c)
    ensures Split(a + " " + b + " " + c) == [a, b, c]
  {
    var bc := b + " " + c;
    SplitOneWord(c);
    SplitWordSpace(b, c);
    var tokens: seq<string> := [b] + [c];
    assert Split(bc) == tokens;
    SplitWordSpace(a, bc);
    JoinRegroup(a, b, c);
    assert Split(a + " " + b + " " + c) == [a] + tokens;
    Triple(a, b, c);
  }

  lemma Triple<T>(x: T, y: T, z: T)
    ensures [x] + ([y] + [z]) == [x, y, z]
  {
  }

  lemma JoinRegroup(a: string, b: string, c: string)
    ensures a + " " + b + " " + c == a + " " + (b + " " + c)
  {
  }

  // ------------------------------------------------------- digits and str(int)

  predicate IsDigit(c: char)
  {
    '0' <= c <= '9'
  }

  predicate AllDigits(s: string)
  {
    forall j :: 0 <= j < |s| ==> IsDigit(s[j])
  }

  function DigitValue(c: char): (d: nat)
    requires IsDigit(c)
    ensures d < 10
  {
    c as int - '0' as int
  }

  function DigitChar(d: nat): (c: char)
    requires d < 10
    ensures IsDigit(c) && DigitValue(c) == d
  {
    ('0' as int + d) as char
  }

  /** The value of a run of decimal digits, most significant first. */
  function DigitsValue(s: string): nat
    requires AllDigits(s)
  {
    if |s| == 0 then 0 else DigitsValue(s[..|s| - 1]) * 10 + DigitValue(s[|s| - 1])
  }

  /** The decimal digits of `n` as Python's str() writes them (no leading zeros). */
  function NatToString(n: nat): (r: string)
    ensures |r| > 0 && AllDigits(r)
    ensures |r| > 1 ==> r[0] != '0'
  {
    if n < 10 then [DigitChar(n)] else NatToString(n / 10) + [DigitChar(n % 10)]
  }

  lemma {:induction false} NatToStringValue(n: nat)
    ensures DigitsValue(NatToString(n)) == n
  {
    if n >= 10 {
      var s := NatToString(n);
      NatToStringValue(n / 10);
      assert s[..|s| - 1] == NatToString(n / 10);
    }
  }

  /** str(i) / f'{i}' for an integer. */
  function IntToString(i: int): (r: string)
    ensures |r| > 0 && NoSpace(r)
  {
    if i < 0 then "-" + NatToString(-i) else NatToString(i)
  }

  /** The value of the digits after a decimal point: "25" is 0.25. */
  function FractionValue(s: string): (r: real)
    requires AllDigits(s)
    ensures 0.0 <= r <= 1.0
  {
    if |s| == 0 then 0.0 else (DigitValue(s[0]) as real + FractionValue(s[1..])) / 10.0
  }

  // -------------------------------------------------------- int() and float()

  /** int(s) on text that has no surrounding whitespace: an optional sign
      and at least one decimal digit. */
  function ParseInteger(s: string): (r: Option<int>)
  {
    if |s| > 1 && (s[0] == '-' || s[0] == '+') && AllDigits(s[1..]) then
      var v: int := DigitsValue(s[1..]);
      Some(if s[0] == '-' then -v else v)
    else if |s| > 0 && AllDigits(s) then Some(DigitsValue(s))
    else None
  }

  /** Python's int(s) on a string: surrounding whitespace is ignored. */
  function PyInt(s: string): Option<int>
  {
    ParseInteger(Strip(s))
  }

  /** int(str(i)) == i */
  lemma IntRoundTrip(i: int)
    ensures PyInt(IntToString(i)) == Some(i)
  {
    var s := IntToString(i);
    StripUnchanged(s);
    if i < 0 {
      assert s[1..] == NatToString(-i);
      NatToStringValue(-i);
    } else {
      NatToStringValue(i);
    }
  }

  /** The number of leading decimal digits. */
  function DigitPrefix(s: string): (n: nat)
    ensures n <= |s| && AllDigits(s[..n])
    ensures n < |s| ==> !IsDigit(s[n])
  {
    if |s| == 0 || !IsDigit(s[0]) then 0
    else
      var m := DigitPrefix(s[1..]);
      assert s[..m + 1] == [s[0]] + s[1..][..m];
      m + 1
  }

  /** An unsigned decimal `ddd`, `ddd.`, `.ddd` or `ddd.ddd` (at least one digit). */
  function ParseUnsignedDecimal(s: string): (r: Option<real>)
    ensures r.Some? ==> r.value >= 0.0
  {
    var i := DigitPrefix(s);
    var whole := DigitsValue(s[..i]) as real;
    if i == |s| then
      if i > 0 then Some(whole) else None
    else if s[i] == '.' && AllDigits(s[i + 1..]) && (i > 0 || i + 1 < |s|) then
      Some(whole + FractionValue(s[i + 1..]))
    else None
  }

  /** float(s) on text that has no surrounding whitespace, for plain signed
      decimals (no exponent, no inf or nan, no digit-group underscores). */
  function ParseDecimal(s: string): (r: Option<real>)
  {
    if |s| > 0 && (s[0] == '-' || s[0] == '+') then
      match ParseUnsignedDecimal(s[1..])
      case None => None
      case Some(v) =>
        Some(if s[0] == '-' then -v else v)
    else ParseUnsignedDecimal(s)
  }

  /** float() accepts nothing but digits, signs and a decimal point: in
      particular no comma, parenthesis or suffix letter. */
  predicate DecimalChar(c: char)
  {
    IsDigit(c) || c == '+' || c == '-' || c == '.'
  }

  lemma DecimalCharacters(s: string)
    ensures ParseDecimal(s).Some? ==> |s| > 0 && forall j :: 0 <= j < |s| ==> DecimalChar(s[j])
  {
    if ParseDecimal(s).Some? {
      if |s| > 0 && (s[0] == '-' || s[0] == '+') {
        UnsignedDecimalCharacters(s[1..]);
        assert forall j :: 1 <= j < |s| ==> s[j] == s[1..][j - 1];
      } else {
        UnsignedDecimalCharacters(s);
      }
    }
  }

  lemma UnsignedDecimalCharacters(s: string)
    requires ParseUnsignedDecimal(s).Some?
    ensures forall j :: 0 <= j < |s| ==> IsDigit(s[j]) || s[j] == '.'
  {
    var i := DigitPrefix(s);
    if i < |s| {
      assert forall j :: i < j < |s| ==> s[j] == s[i + 1..][j - i - 1];
    }
  }

  /** Python's float(s) on a string: surrounding whitespace is ignored. */
  function PyFloat(s: string): Option<real>
  {
    ParseDecimal(Strip(s))
  }
}
