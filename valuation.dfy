/** valuation/valuationMethods.py: the Discounted Future Earnings (DFE)
    valuation. The last N yearly earnings per share are extended five years
    along the line through the last two of them, the fifth year is scaled by
    a terminal factor, and the five values are discounted year by year. */
module Valuation {
  import opened Wrappers

  /** The defaults of discountedFutureEarnings. */
  const DefaultDiscountingFactor: real := 1.1
  const DefaultTerminalFactor: real := 10.0

  /** The number of extrapolated years, np.arange(5). */
  const Years: nat := 5

  /** x to the power n. */
  function Power(x: real, n: nat): real
  {
    if n == 0 then 1.0 else Power(x, n - 1) * x
  }

  lemma {:induction false} PowerNonZero(x: real, n: nat)
    requires x != 0.0
    ensures Power(x, n) != 0.0
  {
    if n > 0 {
      PowerNonZero(x, n - 1);
    }
  }

  /** interp1d(range(N), eps, kind="linear", fill_value="extrapolate") beyond
      the last sample: the straight line through the last two samples. */
  function InterpLine(eps: seq<real>, x: real): real
    requires |eps| >= 2
  {
    var n := |eps|;
    eps[n - 2] + (x - (n - 2) as real) * (eps[n - 1] - eps[n - 2])
  }

  /** The rise of that line per year. */
  function Slope(eps: seq<real>): real
    requires |eps| >= 2
  {
    eps[|eps| - 1] - eps[|eps| - 2]
  }

  /** The line m years after the last sample, one slope per year. */
  function Extrapolate(eps: seq<real>, m: nat): real
    requires |eps| >= 2
  {
    if m == 0 then eps[|eps| - 1] else Extrapolate(eps, m - 1) + Slope(eps)
  }

  /** Lines 42-47: epsExt, the line at xExt = N, ..., N + 4. */
  function Extrapolated(eps: seq<real>): (ext: seq<real>)
    requires |eps| >= 2
    ensures |ext| == Years
  {
    seq(Years, k requires 0 <= k < Years => Extrapolate(eps, k + 1))
  }

  /** Line 48 as intended: the last extrapolated value times the terminal factor. */
  function WithTerminal(ext: seq<real>, terminalFactor: real): (r: seq<real>)
    requires |ext| == Years
    ensures |r| == Years
  {
    ext[Years - 1 := ext[Years - 1] * terminalFactor]
  }

  /** Line 52: year k + 1 is discounted by discountingFactor^-(k + 1). */
  function Discount(d: real, k: nat): real
    requires d != 0.0
  {
    PowerNonZero(d, k + 1);
    1.0 / Power(d, k + 1)
  }

  function Discounts(d: real): (r: seq<real>)
    requires d != 0.0
    ensures |r| == Years
  {
    seq(Years, k requires 0 <= k < Years => Discount(d, k))
  }

  /** The dot product of the first n entries, `@` on line 56. */
  function Dot(a: seq<real>, b: seq<real>, n: nat): real
    requires n <= |a| && n <= |b|
  {
    if n == 0 then 0.0 else Dot(a, b, n - 1) + a[n - 1] * b[n - 1]
  }

  /** discountedFutureEarnings as its docstring and lines 36-58 intend:
      None for fewer than three values, else the discounted sum. */
  function DFE(eps: seq<real>, d: real, terminalFactor: real): Option<real>
    requires d != 0.0
  {
    if |eps| < 3 then None
    else Some(Dot(WithTerminal(Extrapolated(eps), terminalFactor), Discounts(d), Years))
  }

  /** discountedFutureEarnings with its defects corrected: the array epsExt is
      filled, its last entry scaled in place, and the dot product with the
      discount array accumulated. */
  method DiscountedFutureEarnings(eps: seq<real>, discountingFactor: real := DefaultDiscountingFactor,
                                  terminalFactor: real := DefaultTerminalFactor)
    returns (r: Option<real>)
    requires discountingFactor != 0.0
    ensures r.None? <==> |eps| < 3
    ensures r == DFE(eps, discountingFactor, terminalFactor)
  {
    if |eps| < 3 {
      return None;
    }
    var epsExt := ExtendEarnings(eps);
    ghost var scaled := WithTerminal(epsExt[..], terminalFactor);
    epsExt[Years - 1] := epsExt[Years - 1] * terminalFactor;
    assert |epsExt[..]| == |scaled|;
    assert forall j :: 0 <= j < Years ==> epsExt[j] == scaled[j];
    assert epsExt[..] == scaled;
    var discount := DiscountArray(discountingFactor);
    var dfeValue := DotProduct(epsExt, discount);
    r := Some(dfeValue);
  }

  /** Lines 42-47: a fresh array holding the earnings extended along the
      line through the last two samples. */
  method ExtendEarnings(eps: seq<real>) returns (epsExt: array<real>)
    requires |eps| >= 2
    ensures fresh(epsExt)
    ensures epsExt[..] == Extrapolated(eps)
  {
    var n := |eps|;
    var slope := eps[n - 1] - eps[n - 2];
    var value := eps[n - 1];
    epsExt := new real[Years];
    var k := 0;
    while k < Years
      invariant 0 <= k <= Years
      invariant value == Extrapolate(eps, k)
      invariant forall j :: 0 <= j < k ==> epsExt[j] == Extrapolate(eps, j + 1)
    {
      value := value + slope;
      epsExt[k] := value;
      k := k + 1;
    }
  }

  /** Line 52: a fresh array of the five discount factors, built from a
      running power of the discounting factor. */
  method DiscountArray(d: real) returns (discount: array<real>)
    requires d != 0.0
    ensures fresh(discount)
    ensures discount[..] == Discounts(d)
  {
    discount := new real[Years];
    var p := 1.0;
    var k := 0;
    while k < Years
      invariant 0 <= k <= Years
      invariant p == Power(d, k)
      invariant forall j :: 0 <= j < k ==> discount[j] == Discount(d, j)
    {
      p := p * d;
      PowerNonZero(d, k + 1);
      discount[k] := 1.0 / p;
      k := k + 1;
    }
  }

  /** Line 56: epsExt @ discount. */
  method DotProduct(a: array<real>, b: array<real>) returns (s: real)
    requires a.Length == b.Length
    ensures s == Dot(a[..], b[..], a.Length)
  {
    s := 0.0;
    var k := 0;
    while k < a.Length
      invariant 0 <= k <= a.Length
      invariant s == Dot(a[..], b[..], k)
    {
      s := s + a[k] * b[k];
      k := k + 1;
    }
  }

  // Properties of the valuation.

  /** One year further along interp1d's line adds one slope. */
  lemma InterpLineStep(eps: seq<real>, x: real)
    requires |eps| >= 2
    ensures InterpLine(eps, x + 1.0) == InterpLine(eps, x) + Slope(eps)
  {
    var c := (|eps| - 2) as real;
    var s := Slope(eps);
    assert (x + 1.0 - c) * s == (x - c) * s + s;
  }

  /** The extrapolated values lie on interp1d's line: m years after the last
      sample the value is the line at x = N - 1 + m. */
  lemma {:induction false} ExtrapolateOnLine(eps: seq<real>, m: nat)
    requires |eps| >= 2
    ensures Extrapolate(eps, m) == InterpLine(eps, (|eps| - 1 + m) as real)
  {
    var n := |eps|;
    if m == 0 {
      assert (n - 1) as real - (n - 2) as real == 1.0;
    } else {
      ExtrapolateOnLine(eps, m - 1);
      InterpLineStep(eps, (n - 1 + (m - 1)) as real);
      assert (n - 1 + (m - 1)) as real + 1.0 == (n - 1 + m) as real;
    }
  }

  /** The line passes through the last two samples. */
  lemma InterpLineThroughLastTwo(eps: seq<real>)
    requires |eps| >= 2
    ensures InterpLine(eps, (|eps| - 2) as real) == eps[|eps| - 2]
    ensures InterpLine(eps, (|eps| - 1) as real) == eps[|eps| - 1]
  {
    var n := |eps|;
    assert (n - 1) as real - (n - 2) as real == 1.0;
  }

  /** epsExt[k] is interp1d's line at xExt[k] = N + k, and consecutive
      extrapolated years differ by the slope of the last two samples. */
  lemma ExtrapolatedOnLine(eps: seq<real>, k: nat)
    requires |eps| >= 2 && k < Years
    ensures Extrapolated(eps)[k] == InterpLine(eps, (|eps| + k) as real)
    ensures k + 1 < Years ==> Extrapolated(eps)[k + 1] == Extrapolated(eps)[k] + Slope(eps)
  {
    ExtrapolateOnLine(eps, k + 1);
  }

  /** Only the last two earnings enter the extrapolation. */
  lemma {:induction false} ExtrapolateLastTwo(a: seq<real>, b: seq<real>, m: nat)
    requires |a| >= 2 && |b| >= 2
    requires a[|a| - 2] == b[|b| - 2] && a[|a| - 1] == b[|b| - 1]
    ensures Extrapolate(a, m) == Extrapolate(b, m)
  {
    if m > 0 {
      ExtrapolateLastTwo(a, b, m - 1);
    }
  }

  /** Two earnings histories of at least three years that end in the same two
      values get the same valuation. */
  lemma DFEDependsOnLastTwo(a: seq<real>, b: seq<real>, d: real, terminalFactor: real)
    requires d != 0.0
    requires |a| >= 3 && |b| >= 3
    requires a[|a| - 2] == b[|b| - 2] && a[|a| - 1] == b[|b| - 1]
    ensures DFE(a, d, terminalFactor) == DFE(b, d, terminalFactor)
  {
    forall k | 0 <= k < Years
      ensures Extrapolated(a)[k] == Extrapolated(b)[k]
    {
      ExtrapolateLastTwo(a, b, k + 1);
    }
    assert Extrapolated(a) == Extrapolated(b);
  }

  /** Dot products of sequences that agree on the first n entries agree. */
  lemma {:induction false} DotPrefix(a: seq<real>, a': seq<real>, b: seq<real>, n: nat)
    requires n <= |a| && n <= |a'| && n <= |b|
    requires forall j :: 0 <= j < n ==> a[j] == a'[j]
    ensures Dot(a, b, n) == Dot(a', b, n)
  {
    if n > 0 {
      DotPrefix(a, a', b, n - 1);
    }
  }

  /** Scaling the last of five values by t scales its term of the dot
      product and leaves the other four alone. */
  lemma DotWithTerminal(ext: seq<real>, ds: seq<real>, t: real)
    requires |ext| == Years && |ds| == Years
    ensures Dot(WithTerminal(ext, t), ds, Years)
         == Dot(ext, ds, Years - 1) + ext[Years - 1] * t * ds[Years - 1]
  {
    var w := WithTerminal(ext, t);
    assert forall j :: 0 <= j < Years - 1 ==> w[j] == ext[j];
    DotPrefix(w, ext, ds, Years - 1);
    var e4, d4 := ext[Years - 1], ds[Years - 1];
    assert w[Years - 1] * d4 == e4 * t * d4;
  }

  /** Earnings added year by year. */
  function Plus(a: seq<real>, b: seq<real>): (c: seq<real>)
    requires |a| == |b|
    ensures |c| == |a|
    ensures forall j :: 0 <= j < |c| ==> c[j] == a[j] + b[j]
  {
    seq(|a|, j requires 0 <= j < |a| => a[j] + b[j])
  }

  lemma {:induction false} ExtrapolateAdditive(a: seq<real>, b: seq<real>, m: nat)
    requires |a| == |b| >= 2
    ensures Extrapolate(Plus(a, b), m) == Extrapolate(a, m) + Extrapolate(b, m)
  {
    if m > 0 {
      ExtrapolateAdditive(a, b, m - 1);
    }
  }

  lemma {:induction false} DotAdditive(a: seq<real>, b: seq<real>, c: seq<real>, n: nat)
    requires n <= |a| == |b| && n <= |c|
    ensures Dot(Plus(a, b), c, n) == Dot(a, c, n) + Dot(b, c, n)
  {
    if n > 0 {
      DotAdditive(a, b, c, n - 1);
      var x, y, z := a[n - 1], b[n - 1], c[n - 1];
      assert (x + y) * z == x * z + y * z;
    }
  }

  /** The valuation is additive in the earnings: valuing two histories of
      the same length year by year summed is the sum of their valuations. */
  lemma DFEAdditive(a: seq<real>, b: seq<real>, d: real, terminalFactor: real)
    requires d != 0.0 && |a| == |b| >= 3
    ensures DFE(Plus(a, b), d, terminalFactor).value
         == DFE(a, d, terminalFactor).value + DFE(b, d, terminalFactor).value
  {
    var ea, eb := Extrapolated(a), Extrapolated(b);
    var ta, tb := WithTerminal(ea, terminalFactor), WithTerminal(eb, terminalFactor);
    forall k | 0 <= k < Years
      ensures Extrapolated(Plus(a, b))[k] == Plus(ea, eb)[k]
    {
      ExtrapolateAdditive(a, b, k + 1);
    }
    assert Extrapolated(Plus(a, b)) == Plus(ea, eb);
    var x, y := ea[Years - 1], eb[Years - 1];
    assert (x + y) * terminalFactor == x * terminalFactor + y * terminalFactor;
    var tp := WithTerminal(Plus(ea, eb), terminalFactor);
    assert forall j :: 0 <= j < Years ==> tp[j] == Plus(ta, tb)[j];
    assert tp == Plus(ta, tb);
    DotAdditive(ta, tb, Discounts(d), Years);
  }

  lemma {:induction false} PowerPositive(x: real, n: nat)
    requires x > 0.0
    ensures Power(x, n) > 0.0
  {
    if n > 0 {
      PowerPositive(x, n - 1);
    }
  }

  /** For a discounting factor above one every later year is worth strictly
      less, and every discount is positive. */
  lemma DiscountDecreasing(d: real, k: nat)
    requires d > 1.0
    ensures 0.0 < Discount(d, k + 1) < Discount(d, k)
  {
    var p := Power(d, k + 1);
    PowerPositive(d, k + 1);
    assert p * d > p;
    assert Power(d, k + 2) == p * d;
  }

  /** A five-year history rising to 2.0 per share, valued with the default
      factors: the years extend to 2.2, 2.4, 2.6, 2.8 and 3.0, the last
      becomes 30.0, and the discounted sum is 42.64142 / 1.61051. */
  lemma DFEExample()
    ensures DFE([1.0, 1.2, 1.5, 1.8, 2.0], DefaultDiscountingFactor, DefaultTerminalFactor)
         == Some(4264142.0 / 161051.0)
  {
    var eps := [1.0, 1.2, 1.5, 1.8, 2.0];
    assert Slope(eps) == 0.2;
    assert Extrapolate(eps, 1) == 2.2;
    assert Extrapolate(eps, 2) == 2.4;
    assert Extrapolate(eps, 3) == 2.6;
    assert Extrapolate(eps, 4) == 2.8;
    assert Extrapolate(eps, 5) == 3.0;
    var ext := Extrapolated(eps);
    assert ext == [2.2, 2.4, 2.6, 2.8, 3.0];
    var w := WithTerminal(ext, 10.0);
    assert w == [2.2, 2.4, 2.6, 2.8, 30.0];
    assert Power(1.1, 5) == 1.61051;
    var ds := Discounts(1.1);
    assert ds == [1.0 / 1.1, 1.0 / 1.21, 1.0 / 1.331, 1.0 / 1.4641, 1.0 / 1.61051];
    assert Dot(w, ds, 1) == 2.2 / 1.1;
    assert Dot(w, ds, 2) == 2.2 / 1.1 + 2.4 / 1.21;
    assert Dot(w, ds, 3) == 2.2 / 1.1 + 2.4 / 1.21 + 2.6 / 1.331;
    assert Dot(w, ds, 4) == 2.2 / 1.1 + 2.4 / 1.21 + 2.6 / 1.331 + 2.8 / 1.4641;
    assert Dot(w, ds, 5) == 2.2 / 1.1 + 2.4 / 1.21 + 2.6 / 1.331 + 2.8 / 1.4641 + 30.0 / 1.61051;
  }

  // The function as written.

  /** Line 32 sits before the try block and names `logging`, which the module
      never imports: every call raises NameError to its caller. */
  function DiscountedFutureEarningsAsWritten(eps: seq<real>, discountingFactor: real,
                                             terminalFactor: real): (r: Result<Option<real>>)
    ensures r.Err? && r.error.NameError?
  {
    Err(NameError("logging"))
  }

  /** Lines 34-67 once a logger exists: every call returns None. Fewer than
      three values return it at line 40; otherwise line 48 names
      `terminalFactors`, which is not defined, and line 67 returns it from
      the except clause. */
  function DFEPastLine32(eps: seq<real>, discountingFactor: real, terminalFactor: real): (r: Option<real>)
    ensures r == None
  {
    None
  }

  /** The call as written never yields a valuation, even for the example
      history that the corrected function values. */
  lemma LoggingNameErrorShown()
    ensures DiscountedFutureEarningsAsWritten([1.0, 1.2, 1.5, 1.8, 2.0], 1.1, 10.0).Err?
    ensures DFE([1.0, 1.2, 1.5, 1.8, 2.0], 1.1, 10.0).Some?
  {
    DFEExample();
  }

  /** Past line 32, every history of three or more values still returns None
      where the corrected function returns a valuation. */
  lemma TerminalFactorsNameErrorShown(eps: seq<real>, d: real, terminalFactor: real)
    requires d != 0.0 && |eps| >= 3
    ensures DFEPastLine32(eps, d, terminalFactor) == None
    ensures DFE(eps, d, terminalFactor).Some?
  {
  }
}
