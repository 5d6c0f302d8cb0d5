/** companies/marketWarchData.py: MarketWatch's number notation, the
    flattening of a financial-statement page's tables into one list of rows,
    and the six statement pages fetched per ticker. */
module MarketWatch {
  import opened Wrappers
  import opened PyText
  import opened Page

  // ------------------------------------------------------- convertNumberMW

  /** The suffix letters in the order convertNumberMW tests them. The
      multiplier in force is named by the position of the letter that set
      it, NoSuffix when none did. */
  const SuffixLetters: seq<char> := ['T', 'B', 'M', 'K', '%']
  const NoSuffix: nat := 5

  /** `x * multiplier`, for the multiplier the k-th suffix letter sets:
      1e12, 1e9, 1e6, 1e3 and 1e-2, and 1 when no letter matched. */
  function ApplySuffix(x: real, k: nat): real
    requires k <= NoSuffix
  {
    if k == 0 then x * 1000000000000.0
    else if k == 1 then x * 1000000000.0
    else if k == 2 then x * 1000000.0
    else if k == 3 then x * 1000.0
    else if k == 4 then x * 0.01
    else x
  }

  /** `y * sign`: the sign is -1 for a bracketed value, else 1. */
  function ApplySign(y: real, negative: bool): real
  {
    if negative then -y else y
  }

  /** A value written "(...)" is negative: the text inside, and whether the
      sign was flipped. */
  function Unparenthesize(s: string): (string, bool)
  {
    if |s| >= 2 && s[0] == '(' && s[|s| - 1] == ')' then (s[1..|s| - 1], true) else (s, false)
  }

  /** Tests the suffix letters from position `k` of the table on, in order;
      each one that ends the text is cut off and sets the multiplier in
      force, replacing the one set before. */
  function StripSuffixesFrom(s: string, k: nat, suffix: nat): (string, nat)
    requires k <= NoSuffix && suffix <= NoSuffix
    decreases NoSuffix - k
  {
    if k == NoSuffix then (s, suffix)
    else if |s| > 0 && s[|s| - 1] == SuffixLetters[k] then
      StripSuffixesFrom(s[..|s| - 1], k + 1, k)
    else StripSuffixesFrom(s, k + 1, suffix)
  }

  /** The text left after the suffix letters, and the suffix whose
      multiplier is in force at the end (NoSuffix: multiplier 1). */
  function StripSuffixes(s: string): (string, nat)
  {
    StripSuffixesFrom(s, 0, NoSuffix)
  }

  /** The text convertNumberMW finally hands to float(), the suffix in
      force and the sign, for a cell other than "-". */
  function Normalise(s: string): (string, nat, bool)
  {
    var (body, negative) := Unparenthesize(RemoveChar(s, ','));
    var (digits, suffix) := StripSuffixes(body);
    (digits, suffix, negative)
  }

  /** What convertNumberMW makes of one cell text: "-" is 0; otherwise
      float() of the normalised text times multiplier and sign, or, when
      float() refuses it, the text as rewritten so far, which is what line
      62 returns: "(1,2x)" gives "12x". The docstring (line 25) promises the
      original string instead. Line 61 raises before line 62 is reached;
      ConvertNumberMWAsWritten models that. */
  function MWValue(s: string): Cell
  {
    if s == "-" then Number(0.0) else Scaled(Normalise(s))
  }

  /** Line 58: float() of the text times multiplier and sign, or the text
      itself when float() refuses it. */
  function Scaled(n: (string, nat, bool)): Cell
  {
    var parsed := PyFloat(n.0);
    if parsed.Some? && n.1 <= NoSuffix then Number(ApplySign(ApplySuffix(parsed.value, n.1), n.2)) else Text(n.0)
  }

  /** convertNumberMW as written: a text float() refuses reaches the except
      clause, whose logging call names `sys`, never imported, so the call
      raises NameError instead of returning the text. */
  function ConvertNumberMWAsWritten(s: string): (r: Result<Cell>)
    ensures r.Err? <==> MWValue(s).Text?
    ensures r.Ok? ==> r.value == MWValue(s)
  {
    match MWValue(s)
    case Text(_) => Err(NameError("sys"))
    case c => Ok(c)
  }

  /** convertNumberMW(number), line by line: the text, the sign and the
      multiplier in force are rewritten in turn, then float() is applied. */
  method ConvertNumberMW(number: string) returns (r: Cell)
    ensures r == MWValue(number)
  {
    if number == "-" {
      return Number(0.0);
    }
    var text := RemoveChar(number, ',');
    var negative := false;
    // text.startswith('(') and text.endswith(')'): two distinct characters, so |text| >= 2
    if |text| >= 2 && text[0] == '(' && text[|text| - 1] == ')' {
      text := text[1..|text| - 1];
      negative := true;
    }
    assert (text, negative) == Unparenthesize(RemoveChar(number, ','));
    var suffix;
    text, suffix := StripSuffixLetters(text);
    assert (text, suffix, negative) == Normalise(number);
    var parsed := PyFloat(text);
    if parsed.Some? {
      r := Number(ApplySign(ApplySuffix(parsed.value, suffix), negative));
    } else {
      r := Text(text);
    }
  }

  /** Lines 41-56 of convertNumberMW: each suffix letter is tested once, in
      table order, against the text as it stands after the previous tests. */
  method StripSuffixLetters(body: string) returns (text: string, suffix: nat)
    ensures suffix <= NoSuffix
    ensures (text, suffix) == StripSuffixes(body)
  {
    // each text.endswith(letter) below tests the last character
    text, suffix := body, NoSuffix;
    if |text| > 0 && text[|text| - 1] == 'T' {
      text := text[..|text| - 1];
      suffix := 0;
    }
    assert StripSuffixesFrom(text, 1, suffix) == StripSuffixes(body);
    if |text| > 0 && text[|text| - 1] == 'B' {
      text := text[..|text| - 1];
      suffix := 1;
    }
    assert StripSuffixesFrom(text, 2, suffix) == StripSuffixes(body);
    if |text| > 0 && text[|text| - 1] == 'M' {
      text := text[..|text| - 1];
      suffix := 2;
    }
    assert StripSuffixesFrom(text, 3, suffix) == StripSuffixes(body);
    if |text| > 0 && text[|text| - 1] == 'K' {
      text := text[..|text| - 1];
      suffix := 3;
    }
    assert StripSuffixesFrom(text, 4, suffix) == StripSuffixes(body);
    if |text| > 0 && text[|text| - 1] == '%' {
      text := text[..|text| - 1];
      suffix := 4;
    }
  }

  /** The suffix tests only cut letters off the end, and leave a valid suffix. */
  lemma {:induction false} StripSuffixesPrefix(s: string, k: nat, suffix: nat)
    requires k <= NoSuffix && suffix <= NoSuffix
    ensures StripSuffixesFrom(s, k, suffix).0 <= s
    ensures StripSuffixesFrom(s, k, suffix).1 <= NoSuffix
    decreases NoSuffix - k
  {
    if k < NoSuffix {
      if |s| > 0 && s[|s| - 1] == SuffixLetters[k] {
        StripSuffixesPrefix(s[..|s| - 1], k + 1, k);
      } else {
        StripSuffixesPrefix(s, k + 1, suffix);
      }
    }
  }

  /** A cell comes back as text only when float() refuses what is left of
      it after rewriting, and that text has no comma left in it. */
  lemma MWValueText(s: string)
    ensures MWValue(s).Number? || MWValue(s).Text?
    ensures MWValue(s).Text? ==> PyFloat(MWValue(s).s) == None && ',' !in MWValue(s).s
  {
    var (body, negative) := Unparenthesize(RemoveChar(s, ','));
    StripSuffixesPrefix(body, 0, NoSuffix);
  }

  // ------------------------------------------- properties of convertNumberMW

  /** The sign flip a pair of parentheses applies to a converted value. */
  function Negated(c: Cell): Cell
  {
    if c.Number? then Number(-c.v) else c
  }

  /** `w` is a number as float() reads it, without surrounding spaces: a
      plain signed decimal with value `v`. */
  predicate PlainDecimal(w: string, v: real)
  {
    NoSpace(w) && PyFloat(w) == Some(v)
  }

  /** A plain decimal has nothing for convertNumberMW to rewrite. */
  lemma PlainDecimalUntouched(w: string, v: real)
    requires PlainDecimal(w, v)
    ensures |w| > 0 && w != "-" && RemoveChar(w, ',') == w
    ensures Unparenthesize(w) == (w, false)
    ensures w[|w| - 1] !in SuffixLetters
  {
    PlainDecimalText(w, v);
    DecimalTextUntouched(w);
  }

  lemma PlainDecimalText(w: string, v: real)
    requires PlainDecimal(w, v)
    ensures |w| > 0 && w != "-" && forall j :: 0 <= j < |w| ==> DecimalChar(w[j])
  {
    StripUnchanged(w);
    DecimalCharacters(w);
    assert w != "-" by {
      assert ParseUnsignedDecimal("") == None;
    }
  }

  lemma DecimalTextUntouched(w: string)
    requires |w| > 0 && forall j :: 0 <= j < |w| ==> DecimalChar(w[j])
    ensures RemoveChar(w, ',') == w
    ensures Unparenthesize(w) == (w, false)
    ensures w[|w| - 1] !in SuffixLetters
  {
    assert !DecimalChar('(') && !DecimalChar(',');
    assert forall c :: c in SuffixLetters ==> !DecimalChar(c);
  }

  /** A plain decimal without suffix converts to its value (multiplier 1). */
  lemma MWValuePlain(w: string, v: real)
    requires PlainDecimal(w, v)
    ensures MWValue(w) == Number(v)
  {
    NormalisePlain(w, v);
    MWValueScaled(w, w, v, NoSuffix);
  }

  lemma NormalisePlain(w: string, v: real)
    requires PlainDecimal(w, v)
    ensures w != "-" && Normalise(w) == (w, NoSuffix, false)
  {
    PlainDecimalUntouched(w, v);
    PlainFrom(w, v, 0, NoSuffix);
  }

  /** One suffix letter scales a plain decimal by its multiplier:
      T by 10^12, B by 10^9, M by 10^6, K by 10^3, % by 1/100. */
  lemma MWValueSuffix(w: string, v: real, k: nat, letter: char)
    requires PlainDecimal(w, v) && k < NoSuffix && letter == SuffixLetters[k]
    ensures MWValue(w + [letter]) == Number(ApplySuffix(v, k))
  {
    NormaliseSuffix(w, v, k);
    MWValueScaled(w + [letter], w, v, k);
  }

  /** A cell that normalises to a plain decimal, some suffix and sign 1. */
  lemma MWValueScaled(s: string, w: string, v: real, k: nat)
    requires PlainDecimal(w, v) && k <= NoSuffix
    requires s != "-" && Normalise(s) == (w, k, false)
    ensures MWValue(s) == Number(ApplySuffix(v, k))
  {
    ScaledDecimal(w, v, k, false);
    MWValueFrom(s, (w, k, false), Number(ApplySuffix(v, k)));
  }

  /** A cell other than "-" converts as its normalised form scales. */
  lemma MWValueFrom(s: string, n: (string, nat, bool), c: Cell)
    requires s != "-" && Normalise(s) == n
    requires Scaled(n) == c
    ensures MWValue(s) == c
  {
  }

  /** float() of a plain decimal, scaled. */
  lemma ScaledDecimal(w: string, v: real, k: nat, negative: bool)
    requires PlainDecimal(w, v) && k <= NoSuffix
    ensures Scaled((w, k, negative)) == Number(ApplySign(ApplySuffix(v, k), negative))
  {
  }

  lemma NormaliseSuffix(w: string, v: real, k: nat)
    requires PlainDecimal(w, v) && k < NoSuffix
    ensures w + [SuffixLetters[k]] != "-" && Normalise(w + [SuffixLetters[k]]) == (w, k, false)
  {
    PlainDecimalUntouched(w, v);
    var s := w + [SuffixLetters[k]];
    RemoveCharConcat(w, [SuffixLetters[k]], ',');
    assert RemoveChar([SuffixLetters[k]], ',') == [SuffixLetters[k]];
    assert s[0] == w[0];
    assert Unparenthesize(s) == (s, false);
    SuffixFrom(w, v, k, 0, NoSuffix);
  }

  /** Tests before position k pass over a text whose last letter is the k-th
      suffix; the k-th cuts it off, and no later one matches the plain rest. */
  lemma {:induction false} SuffixFrom(w: string, v: real, k: nat, i: nat, suffix: nat)
    requires PlainDecimal(w, v) && i <= k < NoSuffix && suffix <= NoSuffix
    ensures StripSuffixesFrom(w + [SuffixLetters[k]], i, suffix) == (w, k)
    decreases k - i
  {
    var s := w + [SuffixLetters[k]];
    assert s[..|s| - 1] == w;
    if i < k {
      SuffixFrom(w, v, k, i + 1, suffix);
    } else {
      PlainFrom(w, v, k + 1, k);
    }
  }

  /** No suffix test matches a plain decimal. */
  lemma {:induction false} PlainFrom(w: string, v: real, i: nat, suffix: nat)
    requires PlainDecimal(w, v) && i <= NoSuffix && suffix <= NoSuffix
    ensures StripSuffixesFrom(w, i, suffix) == (w, suffix)
    decreases NoSuffix - i
  {
    if i < NoSuffix {
      PlainDecimalUntouched(w, v);
      PlainFrom(w, v, i + 1, suffix);
    }
  }

  /** Two suffix letters written so that both are tested and cut off: the one
      tested later sets the multiplier, overriding the earlier one ("5%T" is
      0.05, the "%" overriding the "T"). */
  lemma MWValueLaterSuffixWins(w: string, v: real, i: nat, j: nat, later: char, earlier: char)
    requires PlainDecimal(w, v) && j < i < NoSuffix
    requires later == SuffixLetters[i] && earlier == SuffixLetters[j]
    ensures MWValue(w + [later, earlier]) == Number(ApplySuffix(v, i))
  {
    NormaliseTwoSuffixes(w, v, i, j);
    MWValueScaled(w + [later, earlier], w, v, i);
  }

  lemma NormaliseTwoSuffixes(w: string, v: real, i: nat, j: nat)
    requires PlainDecimal(w, v) && j < i < NoSuffix
    ensures var s := w + [SuffixLetters[i], SuffixLetters[j]];
      s != "-" && Normalise(s) == (w, i, false)
  {
    PlainDecimalUntouched(w, v);
    var s := w + [SuffixLetters[i], SuffixLetters[j]];
    RemoveCharConcat(w, [SuffixLetters[i], SuffixLetters[j]], ',');
    assert RemoveChar([SuffixLetters[i], SuffixLetters[j]], ',') == [SuffixLetters[i], SuffixLetters[j]];
    assert s[0] == w[0];
    assert Unparenthesize(s) == (s, false);
    TwoSuffixesFrom(w, v, i, j, 0);
  }

  lemma {:induction false} TwoSuffixesFrom(w: string, v: real, i: nat, j: nat, t: nat)
    requires PlainDecimal(w, v) && t <= j < i < NoSuffix
    ensures StripSuffixesFrom(w + [SuffixLetters[i], SuffixLetters[j]], t, NoSuffix) == (w, i)
    decreases j - t
  {
    var s := w + [SuffixLetters[i], SuffixLetters[j]];
    assert s[..|s| - 1] == w + [SuffixLetters[i]];
    if t < j {
      TwoSuffixesFrom(w, v, i, j, t + 1);
    } else {
      SuffixFrom(w, v, i, j + 1, j);
    }
  }

  /** Thousands separators are ignored: a cell converts as it would with its
      commas removed (unless only the placeholder "-" would remain). */
  lemma MWValueIgnoresCommas(s: string)
    requires RemoveChar(s, ',') != "-"
    ensures MWValue(s) == MWValue(RemoveChar(s, ','))
  {
    var clean := RemoveChar(s, ',');
    assert RemoveChar(clean, ',') == clean;
    NotDash(s);
  }

  /** A value wrapped in parentheses converts to the negation of the value
      inside (text float() refuses comes back the same either way). */
  lemma MWValueParenthesised(t: string)
    requires RemoveChar(t, ',') != "-"
    requires !Unparenthesize(RemoveChar(t, ',')).1
    ensures MWValue("(" + t + ")") == Negated(MWValue(t))
  {
    MWValueParenthesisedAs(t, MWValue(t));
  }

  lemma MWValueParenthesisedNumber(t: string, v: real)
    requires RemoveChar(t, ',') != "-"
    requires !Unparenthesize(RemoveChar(t, ',')).1
    requires MWValue(t) == Number(v)
    ensures MWValue("(" + t + ")") == Number(-v)
  {
    MWValueParenthesisedAs(t, Number(v));
  }

  lemma MWValueParenthesisedAs(t: string, c: Cell)
    requires RemoveChar(t, ',') != "-"
    requires !Unparenthesize(RemoveChar(t, ',')).1
    requires MWValue(t) == c
    ensures MWValue("(" + t + ")") == Negated(c)
  {
    var s := "(" + t + ")";
    NormaliseParenthesised(t);
    NotDash(t);
    var n := Normalise(t);
    ScaledNegated(n.0, n.1);
    MWValueFrom(s, (n.0, n.1, true), Negated(Scaled((n.0, n.1, false))));
    MWValueFrom(t, (n.0, n.1, false), Scaled((n.0, n.1, false)));
  }

  /** Removing commas leaves a "-" only if the text was one or had commas. */
  lemma NotDash(t: string)
    requires RemoveChar(t, ',') != "-"
    ensures t != "-"
  {
  }

  /** Parentheses set the sign to -1 and leave the rest of the rewriting alone. */
  lemma NormaliseParenthesised(t: string)
    requires !Unparenthesize(RemoveChar(t, ',')).1
    ensures Normalise("(" + t + ")") == (Normalise(t).0, Normalise(t).1, true)
    ensures !Normalise(t).2
  {
    var clean := RemoveChar(t, ',');
    RemoveCommasParenthesised(t);
    assert Unparenthesize("(" + clean + ")") == (clean, true);
  }

  lemma RemoveCommasParenthesised(t: string)
    ensures RemoveChar("(" + t + ")", ',') == "(" + RemoveChar(t, ',') + ")"
  {
    RemoveCharConcat("(" + t, ")", ',');
    RemoveCharConcat("(", t, ',');
  }

  /** The sign flips the scaled value and leaves refused text alone. */
  lemma ScaledNegated(digits: string, k: nat)
    ensures Scaled((digits, k, true)) == Negated(Scaled((digits, k, false)))
  {
  }

  /** The placeholder "-" is matched exactly, before any rewriting: it is 0. */
  lemma MWValueDash()
    ensures MWValue("-") == Number(0.0)
  {
  }

  /** "-," is the placeholder once commas go, but the placeholder test comes
      first: float() then refuses "-" and the text comes back. */
  lemma MWValueDashComma()
    ensures MWValue("-,") == Text("-")
  {
    NormaliseDashComma();
    DashRefused();
    MWValueFrom("-,", ("-", NoSuffix, false), Text("-"));
  }

  lemma NormaliseDashComma()
    ensures Normalise("-,") == ("-", NoSuffix, false)
  {
    assert RemoveChar("-,", ',') == "-" by {
      assert "-,"[..1] == "-";
    }
    assert StripSuffixes("-") == ("-", NoSuffix);
  }

  lemma DashRefused()
    ensures PyFloat("-") == None
  {
    StripUnchanged("-");
    assert ParseUnsignedDecimal("") == None;
  }

  /** A bracketed number with thousands separators is the negated number:
      "(1,234)" is -1234. */
  lemma MWValueBracketedNegative(t: string, v: real)
    requires PlainDecimal(RemoveChar(t, ','), v)
    ensures MWValue("(" + t + ")") == Number(-v)
  {
    MWValueCommasPlain(t, v);
    MWValueParenthesisedNumber(t, v);
  }

  /** A plain decimal with thousands separators converts to its value. */
  lemma MWValueCommasPlain(t: string, v: real)
    requires PlainDecimal(RemoveChar(t, ','), v)
    ensures MWValue(t) == Number(v)
    ensures RemoveChar(t, ',') != "-" && !Unparenthesize(RemoveChar(t, ',')).1
  {
    var clean := RemoveChar(t, ',');
    PlainDecimalUntouched(clean, v);
    MWValueIgnoresCommas(t);
    MWValuePlain(clean, v);
  }

  /** MarketWatch's bracketed negative with a thousands separator. */
  lemma MWValueNegativeExample()
    ensures MWValue("(1,234)") == Number(-1234.0)
  {
    CommaExample();
    Plain1234();
    MWValueBracketedNegative("1,234", 1234.0);
    assert "(" + "1,234" + ")" == "(1,234)";
  }

  lemma CommaExample()
    ensures RemoveChar("1,234", ',') == "1234"
  {
    assert "1,234" == "1," + "234";
    RemoveCharConcat("1,", "234", ',');
    assert "1,"[..1] == "1";
  }

  /** A value in billions. */
  lemma MWValueBillionExample()
    ensures MWValue("1.5B") == Number(1500000000.0)
  {
    Plain1Point5();
    MWValueSuffix("1.5", 1.5, 1, 'B');
    assert "1.5" + ['B'] == "1.5B";
  }

  /** A percentage. */
  lemma MWValuePercentExample()
    ensures MWValue("12.5%") == Number(0.125)
  {
    Plain12Point5();
    MWValueSuffix("12.5", 12.5, 4, '%');
    assert "12.5" + ['%'] == "12.5%";
  }

  lemma Plain1234()
    ensures PlainDecimal("1234", 1234.0)
  {
    StripUnchanged("1234");
    assert DigitPrefix("1234") == 4;
    assert "1234"[..4] == "1234";
    assert DigitsValue("1234") == 1234 by {
      assert "1234"[..3] == "123" && "123"[..2] == "12" && "12"[..1] == "1";
    }
  }

  lemma Plain1Point5()
    ensures PlainDecimal("1.5", 1.5)
  {
    StripUnchanged("1.5");
    assert DigitPrefix("1.5") == 1;
    assert "1.5"[..1] == "1" && "1.5"[2..] == "5";
    assert FractionValue("5") == 0.5;
  }

  lemma Plain12Point5()
    ensures PlainDecimal("12.5", 12.5)
  {
    StripUnchanged("12.5");
    assert DigitPrefix("12.5") == 2;
    assert "12.5"[..2] == "12" && "12.5"[3..] == "5";
    assert DigitsValue("12") == 12 by { assert "12"[..1] == "1"; }
    assert FractionValue("5") == 0.5;
  }

  /** The fallback of line 62 and what line 61 does instead: for "N/A" the
      text comes back unchanged, but the call raises NameError. */
  lemma ConvertNumberMWRaisesOnText()
    ensures MWValue("N/A") == Text("N/A")
    ensures ConvertNumberMWAsWritten("N/A") == Err(NameError("sys"))
  {
    NotAvailableIsText();
  }

  /** "N/A" has no comma, brackets or suffix, and float() refuses it. */
  lemma NotAvailableIsText()
    ensures MWValue("N/A") == Text("N/A")
  {
    assert RemoveChar("N/A", ',') == "N/A";
    assert Unparenthesize("N/A") == ("N/A", false);
    assert StripSuffixes("N/A") == ("N/A", NoSuffix);
    assert Normalise("N/A") == ("N/A", NoSuffix, false);
    assert PyFloat("N/A") == None by {
      StripUnchanged("N/A");
      assert DigitPrefix("N/A") == 0;
    }
    assert Scaled(("N/A", NoSuffix, false)) == Text("N/A");
  }

  // ------------------------------------------------------ getDataFromMWURL

  /** Line 110: the stripped <th> texts of a row, the last one dropped. */
  function HeaderLine(row: Row): seq<Cell>
  {
    Texts(DropLast(StripAll(row.headers)))
  }

  /** Line 113: the stripped <td> texts of a row, the last one dropped. */
  function RowData(row: Row): seq<string>
  {
    DropLast(StripAll(row.cells))
  }

  /** Lines 115-118: a row with no data left, or whose label ends in
      "Growth" or "Margin", is skipped. */
  predicate Skipped(data: seq<string>)
  {
    |data| == 0 || EndsWith(data[0], "Growth") || EndsWith(data[0], "Margin")
  }

  /** Line 121: the label kept as text, every later cell converted. */
  function ConvertedLine(data: seq<string>): seq<Cell>
    requires |data| > 0
  {
    [Text(data[0])] + Map(data[1..], MWValue)
  }

  /** `[f(x) for x in xs]` */
  function Map<A, B>(xs: seq<A>, f: A -> B): (ys: seq<B>)
    ensures |ys| == |xs|
  {
    if |xs| == 0 then [] else Map(xs[..|xs| - 1], f) + [f(xs[|xs| - 1])]
  }

  /** Element j of the mapped list is f of element j. */
  lemma {:induction false} MapAt<A, B>(xs: seq<A>, f: A -> B)
    ensures forall j :: 0 <= j < |xs| ==> Map(xs, f)[j] == f(xs[j])
  {
    if |xs| > 0 {
      MapAt(xs[..|xs| - 1], f);
    }
  }

  /** Line 121 with convert=True: the label as text, the rest converted. */
  function NumberLine(data: seq<string>): seq<Cell>
  {
    if |data| > 0 then ConvertedLine(data) else Texts(data)
  }

  /** The line emitted for a kept row's data: converted (line 121) or all
      text (line 123). */
  function LineOf(convert: bool): seq<string> -> seq<Cell>
  {
    if convert then NumberLine else Texts
  }

  /** What one row keeps: nothing when it is skipped, else its data. */
  function RowKept(row: Row): seq<seq<string>>
  {
    if Skipped(RowData(row)) then [] else [RowData(row)]
  }

  /** The data of the rows that are not skipped, in row order. */
  function KeptRows(rows: seq<Row>): seq<seq<string>>
  {
    if |rows| == 0 then [] else KeptRows(rows[..|rows| - 1]) + RowKept(rows[|rows| - 1])
  }

  /** The header line, present when the first table has a first row. */
  function HeaderLines(tables: seq<Table>): seq<seq<Cell>>
  {
    if |tables| > 0 && |tables[0]| > 0 then [HeaderLine(tables[0][0])] else []
  }

  /** What getDataFromMWURL makes of a page's tables: the header line, then
      the lines of the kept rows of every table. */
  function MWTableLines(tables: seq<Table>, convert: bool): seq<seq<Cell>>
  {
    HeaderLines(tables) + Map(KeptRows(AllRows(tables)), LineOf(convert))
  }

  /** getDataFromMWURL(url, convert) given what fetching and parsing the URL
      produced; None stands for an exception there, which yields []. */
  function MWPage(page: Option<seq<Table>>, convert: bool): seq<seq<Cell>>
  {
    match page
    case None => []
    case Some(tables) => MWTableLines(tables, convert)
  }

  /** getDataFromMWURL with convertNumberMW as written: under convert, a kept
      cell after the label that float() refuses raises NameError at line 61,
      which the except clause of lines 125-127 turns into []. Without
      convert no cell is converted and nothing changes. */
  function MWPageAsWritten(page: Option<seq<Table>>, convert: bool): (r: seq<seq<Cell>>)
    ensures !convert ==> r == MWPage(page, convert)
    ensures r == MWPage(page, convert) || r == []
  {
    match page
    case None => []
    case Some(tables) =>
      var kept := KeptRows(AllRows(tables));
      if convert && exists k, j :: 0 <= k < |kept| && 1 <= j < |kept[k]| && ConvertNumberMWAsWritten(kept[k][j]).Err?
      then []
      else MWTableLines(tables, convert)
  }

  /** A single kept row with a cell float() refuses empties the whole page
      under convert, as written; the corrected page still has its line. */
  lemma RefusedCellEmptiesPage(tables: seq<Table>, r: nat, j: nat)
    requires r < |AllRows(tables)| && !Skipped(RowData(AllRows(tables)[r]))
    requires 1 <= j < |RowData(AllRows(tables)[r])| && MWValue(RowData(AllRows(tables)[r])[j]).Text?
    ensures MWPageAsWritten(Some(tables), true) == []
    ensures |MWPage(Some(tables), true)| > 0
  {
    var rows := AllRows(tables);
    var k := KeptRowIn(rows, r);
    var kept := KeptRows(rows);
    var cell := kept[k][j];
    assert cell == RowData(rows[r])[j];
    assert ConvertNumberMWAsWritten(cell).Err?;
    AsWrittenWitness(tables, kept, k, j);
    assert |Map(kept, LineOf(true))| == |kept|;
  }

  /** The witness of MWPageAsWritten's refusal test. */
  lemma AsWrittenWitness(tables: seq<Table>, kept: seq<seq<string>>, k: nat, j: nat)
    requires kept == KeptRows(AllRows(tables)) && k < |kept| && 1 <= j < |kept[k]|
    requires ConvertNumberMWAsWritten(kept[k][j]).Err?
    ensures MWPageAsWritten(Some(tables), true) == []
  {
  }

  /** Every row that is not skipped appears among the kept rows. */
  lemma {:induction false} KeptRowIn(rows: seq<Row>, r: nat) returns (k: nat)
    requires r < |rows| && !Skipped(RowData(rows[r]))
    ensures k < |KeptRows(rows)| && KeptRows(rows)[k] == RowData(rows[r])
  {
    var n := |rows| - 1;
    if r == n {
      k := |KeptRows(rows[..n])|;
    } else {
      k := KeptRowIn(rows[..n], r);
      assert rows[..n][r] == rows[r];
    }
  }

  /** getDataFromMWURL, lines 103-124: the nested table and row loops.
      convert defaults to true, as in line 66. */
  method GetDataFromMWURL(page: Option<seq<Table>>, convert: bool := true) returns (allData: seq<seq<Cell>>)
    ensures allData == MWPage(page, convert)
    ensures page.None? ==> allData == []
    ensures page.Some? && |page.value| > 0 && |page.value[0]| > 0 ==>
      |allData| > 0 && allData[0] == HeaderLine(page.value[0][0])
  {
    if page.None? {
      return [];
    }
    var tables := page.value;
    allData := [];
    var tNo := 0;
    while tNo < |tables|
      invariant 0 <= tNo <= |tables|
      invariant allData == (if tNo > 0 then HeaderLines(tables) else []) + Map(KeptRows(AllRows(tables[..tNo])), LineOf(convert))
    {
      var table := tables[tNo];
      ghost var done := AllRows(tables[..tNo]);
      var i := 0;
      assert done + table[..i] == done;
      while i < |table|
        invariant 0 <= i <= |table|
        invariant allData == (if tNo > 0 || i > 0 then HeaderLines(tables) else []) + Map(KeptRows(done + table[..i]), LineOf(convert))
      {
        allData := VisitRow(tables, tNo, i, convert, allData);
        i := i + 1;
      }
      TableLoopStep(tables, tNo);
      tNo := tNo + 1;
    }
    assert tables[..tNo] == tables;
  }

  /** Lines 109-122 for row i of table tNo: the header line at the very
      first row, then the row's line unless it is skipped. */
  method VisitRow(tables: seq<Table>, tNo: nat, i: nat, convert: bool, allData0: seq<seq<Cell>>)
    returns (allData: seq<seq<Cell>>)
    requires tNo < |tables| && i < |tables[tNo]|
    requires allData0 == (if tNo > 0 || i > 0 then HeaderLines(tables) else []) +
                         Map(KeptRows(AllRows(tables[..tNo]) + tables[tNo][..i]), LineOf(convert))
    ensures allData == HeaderLines(tables) + Map(KeptRows(AllRows(tables[..tNo]) + tables[tNo][..i + 1]), LineOf(convert))
  {
    ghost var done := AllRows(tables[..tNo]);
    ghost var before := Map(KeptRows(done + tables[tNo][..i]), LineOf(convert));
    var row := tables[tNo][i];
    allData := allData0;
    if i == 0 && tNo == 0 {
      var header := DropLast(StripAll(row.headers));
      FirstHeader(tables, done, LineOf(convert));
      assert allData == [];
      allData := allData + [Texts(header)];
    }
    assert allData == HeaderLines(tables) + before;
    var lines := RowStep(row, convert);
    allData := allData + lines;
    RowLoopStep(HeaderLines(tables), done, tables[tNo], i, LineOf(convert));
  }

  /** The state of the loop just after the header is appended. */
  lemma FirstHeader(tables: seq<Table>, done: seq<Row>, line: seq<string> -> seq<Cell>)
    requires |tables| > 0 && |tables[0]| > 0 && done == AllRows(tables[..0])
    ensures Map(KeptRows(done + tables[0][..0]), line) == []
    ensures HeaderLines(tables) == [Texts(DropLast(StripAll(tables[0][0].headers)))]
  {
    assert done + tables[0][..0] == [];
  }

  /** One pass of the row loop appends the row's contribution. */
  lemma RowLoopStep(head: seq<seq<Cell>>, done: seq<Row>, table: Table, i: nat, line: seq<string> -> seq<Cell>)
    requires i < |table|
    ensures head + Map(KeptRows(done + table[..i]), line) + Map(RowKept(table[i]), line)
      == head + Map(KeptRows(done + table[..i + 1]), line)
  {
    KeptPrefixStep(done, table, i);
    RenderConcat(head, KeptRows(done + table[..i]), RowKept(table[i]), line);
  }

  lemma KeptPrefixStep(done: seq<Row>, table: Table, i: nat)
    requires i < |table|
    ensures KeptRows(done + table[..i + 1]) == KeptRows(done + table[..i]) + RowKept(table[i])
  {
    PrefixStep(done, table, i);
    KeptRowsStep(done + table[..i], table[i]);
  }

  lemma PrefixStep(done: seq<Row>, table: Table, i: nat)
    requires i < |table|
    ensures done + table[..i + 1] == (done + table[..i]) + [table[i]]
  {
    assert table[..i + 1] == table[..i] + [table[i]];
  }

  /** One pass of the table loop covers that table's rows. */
  lemma TableLoopStep(tables: seq<Table>, tNo: nat)
    requires tNo < |tables|
    ensures AllRows(tables[..tNo]) + tables[tNo][..|tables[tNo]|] == AllRows(tables[..tNo + 1])
  {
    assert tables[..tNo + 1][..tNo] == tables[..tNo];
    assert tables[tNo][..|tables[tNo]|] == tables[tNo];
  }

  /** Lines 113-122 for one row: nothing when it is skipped, else its line. */
  method RowStep(row: Row, convert: bool) returns (lines: seq<seq<Cell>>)
    ensures lines == Map(RowKept(row), LineOf(convert))
  {
    var data := DropLast(StripAll(row.cells));
    if |data| == 0 || EndsWith(data[0], "Growth") || EndsWith(data[0], "Margin") {
      return [];
    }
    var line;
    if convert {
      line := ConvertLine(data);
    } else {
      line := Texts(data);
    }
    lines := [line];
  }

  /** Line 121's comprehension: convertNumberMW applied to each cell after the label. */
  method ConvertLine(data: seq<string>) returns (line: seq<Cell>)
    requires |data| > 0
    ensures line == ConvertedLine(data)
  {
    var rest := data[1..];
    var cells := [];
    var j := 0;
    while j < |rest|
      invariant 0 <= j <= |rest|
      invariant cells == Map(rest[..j], MWValue)
    {
      var c := ConvertNumberMW(rest[j]);
      MapCellsStep(rest, j, MWValue);
      cells := cells + [c];
      j := j + 1;
    }
    assert rest[..j] == rest;
    line := [Text(data[0])] + cells;
  }

  lemma MapCellsStep(texts: seq<string>, j: nat, f: string -> Cell)
    requires j < |texts|
    ensures Map(texts[..j + 1], f) == Map(texts[..j], f) + [f(texts[j])]
  {
    assert texts[..j + 1][..j] == texts[..j];
  }

  lemma KeptRowsStep(rows: seq<Row>, row: Row)
    ensures KeptRows(rows + [row]) == KeptRows(rows) + RowKept(row)
  {
    assert (rows + [row])[..|rows|] == rows;
  }

  /** Rendering works line by line. */
  lemma {:induction false} RenderAppend(a: seq<seq<string>>, b: seq<seq<string>>, line: seq<string> -> seq<Cell>)
    ensures Map(a + b, line) == Map(a, line) + Map(b, line)
  {
    if |b| == 0 {
      assert a + b == a;
      assert Map(a, line) + [] == Map(a, line);
    } else {
      var b' := b[..|b| - 1];
      assert (a + b)[..|a + b| - 1] == a + b';
      RenderAppend(a, b', line);
    }
  }

  /** The kept rows of consecutive runs of rows follow one another. */
  lemma {:induction false} KeptRowsAppend(a: seq<Row>, b: seq<Row>)
    ensures KeptRows(a + b) == KeptRows(a) + KeptRows(b)
  {
    if |b| == 0 {
      assert a + b == a;
      assert KeptRows(a) + [] == KeptRows(a);
    } else {
      var b' := b[..|b| - 1];
      assert (a + b)[..|a + b| - 1] == a + b';
      KeptRowsAppend(a, b');
    }
  }

  /** The rows of a later batch of tables come after those of the earlier
      ones, and only the first table can supply the header. */
  lemma MWTableLinesAppend(first: seq<Table>, more: seq<Table>, convert: bool)
    requires |first| > 0
    ensures MWTableLines(first + more, convert) == MWTableLines(first, convert) + Map(KeptRows(AllRows(more)), LineOf(convert))
  {
    HeaderLinesAppend(first, more);
    RenderTablesAppend(HeaderLines(first), first, more, LineOf(convert));
  }

  lemma HeaderLinesAppend(first: seq<Table>, more: seq<Table>)
    requires |first| > 0
    ensures HeaderLines(first + more) == HeaderLines(first)
  {
    assert (first + more)[0] == first[0];
  }

  lemma RenderTablesAppend(head: seq<seq<Cell>>, first: seq<Table>, more: seq<Table>, line: seq<string> -> seq<Cell>)
    ensures head + Map(KeptRows(AllRows(first + more)), line)
      == (head + Map(KeptRows(AllRows(first)), line)) + Map(KeptRows(AllRows(more)), line)
  {
    KeptTablesAppend(first, more);
    RenderConcat(head, KeptRows(AllRows(first)), KeptRows(AllRows(more)), line);
  }

  lemma KeptTablesAppend(first: seq<Table>, more: seq<Table>)
    ensures KeptRows(AllRows(first + more)) == KeptRows(AllRows(first)) + KeptRows(AllRows(more))
  {
    AllRowsAppend(first, more);
    KeptRowsAppend(AllRows(first), AllRows(more));
  }

  lemma RenderConcat(head: seq<seq<Cell>>, a: seq<seq<string>>, b: seq<seq<string>>, line: seq<string> -> seq<Cell>)
    ensures head + Map(a + b, line) == (head + Map(a, line)) + Map(b, line)
  {
    RenderAppend(a, b, line);
    var ra, rb := Map(a, line), Map(b, line);
    assert head + (ra + rb) == (head + ra) + rb;
  }

  /** A skipped row contributes nothing, wherever it stands. */
  lemma SkippedRowVanishes(before: seq<Row>, row: Row, after: seq<Row>)
    requires Skipped(RowData(row))
    ensures KeptRows(before + [row] + after) == KeptRows(before + after)
  {
    KeptRowsAppend(before + [row], after);
    KeptRowsStep(before, row);
    KeptRowsAppend(before, after);
    var kept := KeptRows(before);
    assert kept + [] == kept;
  }

  /** A row's data as it is kept: a stripped label that ends in neither
      "Growth" nor "Margin", then the other cells. */
  predicate KeptData(data: seq<string>)
  {
    |data| > 0 && Strip(data[0]) == data[0] && !EndsWith(data[0], "Growth") && !EndsWith(data[0], "Margin")
  }

  /** Every kept row has a stripped label that is not a growth or margin
      line, and no row is kept twice. */
  lemma {:induction false} KeptRowsAreKept(rows: seq<Row>)
    ensures |KeptRows(rows)| <= |rows|
    ensures forall k :: 0 <= k < |KeptRows(rows)| ==> KeptData(KeptRows(rows)[k])
  {
    if |rows| > 0 {
      var row := rows[|rows| - 1];
      KeptRowsAreKept(rows[..|rows| - 1]);
      var data := RowData(row);
      if !Skipped(data) {
        assert data[0] == Strip(row.cells[0]);
        StripIdempotent(row.cells[0]);
      }
    }
  }

  /** When no row is skipped, row k gives kept row k. */
  lemma KeptRowsAll(rows: seq<Row>)
    requires forall j :: 0 <= j < |rows| ==> !Skipped(RowData(rows[j]))
    ensures |KeptRows(rows)| == |rows|
    ensures forall k :: 0 <= k < |rows| ==> KeptRows(rows)[k] == RowData(rows[k])
  {
    KeptRowsAllLength(rows);
    forall k | 0 <= k < |rows|
      ensures KeptRows(rows)[k] == RowData(rows[k])
    {
      KeptRowsAllAt(rows, k);
    }
  }

  /** When no row is skipped, there is one kept line per row. */
  lemma {:induction false} KeptRowsAllLength(rows: seq<Row>)
    requires forall j :: 0 <= j < |rows| ==> !Skipped(RowData(rows[j]))
    ensures |KeptRows(rows)| == |rows|
  {
    if |rows| > 0 {
      var init := rows[..|rows| - 1];
      assert forall j :: 0 <= j < |init| ==> init[j] == rows[j];
      KeptRowsAllLength(init);
      KeptRowsSnoc(rows);
    }
  }

  /** With one kept line per row, kept line k is the data of row k. */
  lemma KeptRowsAllAt(rows: seq<Row>, k: nat)
    requires |KeptRows(rows)| == |rows| && k < |rows|
    ensures KeptRows(rows)[k] == RowData(rows[k])
    decreases |rows|, 1
  {
    KeptRowsFull(rows);
    if k < |rows| - 1 {
      KeptRowsAllBefore(rows, k);
    }
  }

  /** KeptRowsAllAt for a row before the last one. */
  lemma KeptRowsAllBefore(rows: seq<Row>, k: nat)
    requires |KeptRows(rows)| == |rows| && k < |rows| - 1
    ensures KeptRows(rows)[k] == RowData(rows[k])
    decreases |rows|, 0
  {
    var init := rows[..|rows| - 1];
    KeptRowsFull(rows);
    KeptRowsAllAt(init, k);
    assert init[k] == rows[k];
  }

  /** One kept line per row holds for every prefix, the last row included. */
  lemma KeptRowsFull(rows: seq<Row>)
    requires |KeptRows(rows)| == |rows| && |rows| > 0
    ensures |KeptRows(rows[..|rows| - 1])| == |rows| - 1
    ensures KeptRows(rows) == KeptRows(rows[..|rows| - 1]) + [RowData(rows[|rows| - 1])]
  {
    KeptRowsAreKept(rows[..|rows| - 1]);
  }

  /** A last row that is not skipped adds its data at the end. */
  lemma KeptRowsSnoc(rows: seq<Row>)
    requires |rows| > 0 && !Skipped(RowData(rows[|rows| - 1]))
    ensures KeptRows(rows) == KeptRows(rows[..|rows| - 1]) + [RowData(rows[|rows| - 1])]
  {
  }

  // -------------------------------------------- getTickerFundamentalDataMW

  /** Lines 153-160: the six statement pages, by key, in the dict's order. */
  const StatementKeys: seq<string> := ["IncomeStatement", "IncomeStatementQuarter", "BalanceSheet",
    "BalanceSheetQuarter", "CashFlow", "CashFlowQuarter"]

  /** Each URL template is this text, the ticker in place of "{}", then the path. */
  const StockBase: string := "https://www.marketwatch.com/investing/stock/"
  const StatementPaths: seq<string> := ["/financials", "/financials/income/quarter",
    "/financials/balance-sheet", "/financials/balance-sheet/quarter", "/financials/cash-flow",
    "/financials/cash-flow/quarter"]

  /** urls[key].format(ticker) for the k-th key. */
  function StatementUrl(k: nat, ticker: string): string
    requires k < 6
  {
    StockBase + ticker + StatementPaths[k]
  }

  /** getTickerFundamentalDataMW(ticker, convert), lines 162-176. `fetch`
      stands for requesting and parsing a URL (None: that raised). convert
      defaults to true, as in line 129. */
  method GetTickerFundamentalDataMW(ticker: string, fetch: string -> Option<seq<Table>>, convert: bool := true)
    returns (allResults: map<string, seq<seq<Cell>>>)
    ensures allResults.Keys == set k | 0 <= k < 6 :: StatementKeys[k]
    ensures forall k :: 0 <= k < 6 ==> allResults[StatementKeys[k]] == MWPage(fetch(StatementUrl(k, ticker)), convert)
  {
    allResults := map[];
    var k := 0;
    while k < 6
      invariant 0 <= k <= 6
      invariant allResults.Keys == set j | 0 <= j < k :: StatementKeys[j]
      invariant forall j :: 0 <= j < k ==> allResults[StatementKeys[j]] == MWPage(fetch(StatementUrl(j, ticker)), convert)
    {
      var url := StockBase + ticker + StatementPaths[k];
      var allData := GetDataFromMWURL(fetch(url), convert);
      StatementKeysDistinct(k);
      allResults := allResults[StatementKeys[k] := allData];
      k := k + 1;
    }
  }

  /** The six keys are different, so no statement overwrites another. */
  lemma StatementKeysDistinct(k: nat)
    requires k < 6
    ensures forall j :: 0 <= j < 6 && j != k ==> StatementKeys[j] != StatementKeys[k]
  {
    var lengths := [15, 22, 12, 19, 8, 15];
    forall j | 0 <= j < 6
      ensures |StatementKeys[j]| == lengths[j] && StatementKeys[j][0] == (if j < 2 then 'I' else if j < 4 then 'B' else 'C')
    {
    }
  }

  /** A statement URL names its ticker: different tickers, different URLs. */
  lemma StatementUrlNamesTicker(k: nat, a: string, b: string)
    requires k < 6
    ensures StatementUrl(k, a) == StatementUrl(k, b) <==> a == b
  {
    if StatementUrl(k, a) == StatementUrl(k, b) {
      var u := StatementUrl(k, a);
      assert |a| == |b|;
      assert u[|StockBase|..|StockBase| + |a|] == a;
      assert StatementUrl(k, b)[|StockBase|..|StockBase| + |b|] == b;
    }
  }
}
