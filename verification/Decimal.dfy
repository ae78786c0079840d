/**
 Decimal values travel as text. Accepted texts are those of the pattern that the
 canonical form leaves alone; the theorems say that text equality of accepted
 decimals is equality of the rationals they denote.
 */
module Decimal {
  import opened Base

  const MAX_WHOLE := 32
  const MAX_FRACTION := 18

  /** One match of the decimal pattern: sign, whole part, optional fraction. */
  datatype Parts = Parts(negative: bool, whole: string, fraction: Option<string>)

  predicate Digits(s: string) { forall i :: 0 <= i < |s| ==> '0' <= s[i] <= '9' }

  predicate WellFormed(p: Parts) {
    && 1 <= |p.whole| <= MAX_WHOLE && Digits(p.whole) && (p.whole == "0" || p.whole[0] != '0')
    && (p.fraction.Some? ==> 1 <= |p.fraction.value| <= MAX_FRACTION && Digits(p.fraction.value))
  }

  function Tail(fraction: Option<string>): string { if fraction.Some? then "." + fraction.value else "" }

  function Render(p: Parts): string { (if p.negative then "-" else "") + p.whole + Tail(p.fraction) }

  /** The text matches the decimal pattern. */
  ghost predicate Matches(s: string) { exists p :: WellFormed(p) && s == Render(p) }

  function TrimRight(s: string, c: char): string {
    if s != "" && s[|s| - 1] == c then TrimRight(s[..|s| - 1], c) else s
  }

  function CanonicalDecimal(s: string): string {
    var t := if '.' in s then TrimRight(TrimRight(s, '0'), '.') else s;
    if t == "-0" then "0" else t
  }

  /** The decimal case of Value.Validate. */
  ghost predicate Accepted(s: string) { Matches(s) && CanonicalDecimal(s) == s }

  // ---- what a decimal denotes ----

  function Pow10(n: nat): (r: nat)
    ensures r >= 1
  {
    if n == 0 then 1 else 10 * Pow10(n - 1)
  }

  function Natural(s: string): nat
    requires Digits(s)
  {
    if s == "" then 0 else 10 * Natural(s[..|s| - 1]) + (s[|s| - 1] as int - '0' as int)
  }

  function Fraction(p: Parts): string { if p.fraction.Some? then p.fraction.value else "" }

  function Magnitude(p: Parts): nat
    requires WellFormed(p)
  {
    Natural(p.whole + Fraction(p))
  }

  /** The rational Numerator / Pow10(|Fraction|). */
  function Numerator(p: Parts): int
    requires WellFormed(p)
  {
    if p.negative then 0 - Magnitude(p) else Magnitude(p)
  }

  ghost predicate SameNumber(p: Parts, q: Parts)
    requires WellFormed(p) && WellFormed(q)
  {
    Numerator(p) * Pow10(|Fraction(q)|) == Numerator(q) * Pow10(|Fraction(p)|)
  }

  /** Two texts of the pattern denote the same rational. */
  ghost predicate Denote(s: string, t: string) {
    exists p, q :: WellFormed(p) && WellFormed(q) && s == Render(p) && t == Render(q) && SameNumber(p, q)
  }

  // ---- texts and parts ----

  lemma DotMarksFraction(p: Parts)
    requires WellFormed(p)
    ensures '.' in Render(p) <==> p.fraction.Some?
    ensures Render(p)[0] == '-' <==> p.negative
  {
    var sign := if p.negative then "-" else "";
    if p.fraction.Some? { assert Render(p)[|sign| + |p.whole|] == '.'; }
    assert p.whole[0] != '-';
  }

  /** Up to 32 digits without a leading zero, and up to 18 after a dot. */
  ghost predicate Bounded(p: Parts) {
    && 1 <= |p.whole| <= 32 && Digits(p.whole) && (|p.whole| > 1 ==> p.whole[0] != '0')
    && (p.fraction.Some? ==> 1 <= |p.fraction.value| <= 18 && Digits(p.fraction.value))
  }

  lemma MatchesExactly(s: string)
    ensures Matches(s) <==> exists p :: s == Spelled(p) && Bounded(p)
  {
    hide Render, Spelled, Bounded, WellFormed;
    forall p { SpelledOut(p); }
  }

  lemma SpelledOut(p: Parts)
    ensures Render(p) == Spelled(p) && (WellFormed(p) <==> Bounded(p))
  {
    hide Digits;
    assert |p.whole| == 1 && p.whole[0] == '0' <==> p.whole == "0";
  }

  function Spelled(p: Parts): string {
    match (p.negative, p.fraction)
    case (false, None) => p.whole
    case (true, None) => "-" + p.whole
    case (false, Some(f)) => p.whole + "." + f
    case (true, Some(f)) => "-" + p.whole + "." + f
  }

  lemma SplitAtDot(w: string, f: string, v: string, g: string)
    requires Digits(w) && Digits(v) && w + "." + f == v + "." + g
    ensures w == v && f == g
  {
    var body := w + "." + f;
    assert body[|w|] == '.' && body[|v|] == '.';
    assert |w| == |v|;
    assert body[..|w|] == w && body[..|v|] == v && body[|w| + 1..] == f && body[|v| + 1..] == g;
  }

  /** A text matches in one way only. */
  lemma RenderInjective(p: Parts, q: Parts)
    requires WellFormed(p) && WellFormed(q) && Render(p) == Render(q)
    ensures p == q
  {
    DotMarksFraction(p);
    DotMarksFraction(q);
    BodyOf(p);
    BodyOf(q);
    hide Render, WellFormed;
    if p.fraction.Some? {
      SplitAtDot(p.whole, p.fraction.value, q.whole, q.fraction.value);
    }
  }

  lemma BodyOf(p: Parts)
    requires WellFormed(p)
    ensures Digits(p.whole) && |Render(p)| > 0
    ensures p.fraction.Some? ==>
      Render(p)[if p.negative then 1 else 0..] == p.whole + "." + p.fraction.value
    ensures p.fraction.None? ==> Render(p)[if p.negative then 1 else 0..] == p.whole
  {
  }

  /** The canonical form on parts. */
  function Reduce(p: Parts): Parts {
    if p.fraction.None? then p.(negative := p.negative && p.whole != "0")
    else
      var f := TrimRight(p.fraction.value, '0');
      if f == "" then Parts(p.negative && p.whole != "0", p.whole, None) else p.(fraction := Some(f))
  }

  lemma {:induction false} TrimRightWithin(s: string, c: char)
    ensures |TrimRight(s, c)| <= |s| && TrimRight(s, c) == s[..|TrimRight(s, c)|]
    ensures TrimRight(s, c) != "" ==> TrimRight(s, c)[|TrimRight(s, c)| - 1] != c
  {
    if s != "" && s[|s| - 1] == c { TrimRightWithin(s[..|s| - 1], c); }
  }

  /** Trimming stops inside the suffix unless the suffix is all trimmed. */
  lemma {:induction false} TrimRightSuffix(s: string, t: string, c: char)
    ensures TrimRight(s + t, c) == if TrimRight(t, c) == "" then TrimRight(s, c) else s + TrimRight(t, c)
    decreases |t|
  {
    if t == "" {
      assert s + t == s;
    } else if t[|t| - 1] == c {
      assert (s + t)[..|s + t| - 1] == s + t[..|t| - 1];
      TrimRightSuffix(s, t[..|t| - 1], c);
    }
  }

  lemma TrimRightStays(s: string, c: char)
    requires s != "" && s[|s| - 1] != c
    ensures TrimRight(s, c) == s
  {
  }

  /** Trimming zeros, then the dot, is trimming the fraction. */
  lemma TrimmedText(stem: string, f: string)
    requires stem != "" && stem[|stem| - 1] != '.' && Digits(f)
    ensures TrimRight(TrimRight(stem + "." + f, '0'), '.')
         == if TrimRight(f, '0') == "" then stem else stem + "." + TrimRight(f, '0')
  {
    TrimRightSuffix(stem + ".", f, '0');
    TrimRightWithin(f, '0');
    if TrimRight(f, '0') == "" {
      TrimRightStays(stem + ".", '0');
      assert (stem + ".")[..|stem + "."| - 1] == stem;
      TrimRightStays(stem, '.');
    } else {
      TrimRightStays(stem + "." + TrimRight(f, '0'), '.');
    }
  }

  lemma MinusZero(p: Parts)
    requires WellFormed(p) && p.fraction.None?
    ensures Render(p) == "-0" <==> p.negative && p.whole == "0"
  {
    if Render(p) == "-0" { assert WellFormed(Parts(true, "0", None)); RenderInjective(p, Parts(true, "0", None)); }
  }

  lemma ReduceWellFormed(p: Parts)
    requires WellFormed(p)
    ensures WellFormed(Reduce(p))
  {
    if p.fraction.Some? { TrimRightWithin(p.fraction.value, '0'); }
  }

  function Stem(p: Parts): string { (if p.negative then "-" else "") + p.whole }

  lemma StemText(p: Parts)
    requires WellFormed(p)
    ensures Stem(p) != "" && Stem(p)[|Stem(p)| - 1] != '.'
    ensures p.fraction.Some? ==> Render(p) == Stem(p) + "." + p.fraction.value
    ensures p.fraction.None? ==> Render(p) == Stem(p)
  {
    assert Stem(p)[|Stem(p)| - 1] == p.whole[|p.whole| - 1];
  }

  lemma FractionKept(p: Parts, f: string)
    requires WellFormed(p) && p.fraction.Some? && f == TrimRight(p.fraction.value, '0') && f != ""
    ensures CanonicalDecimal(Render(p)) == Stem(p) + "." + f && Render(Reduce(p)) == Stem(p) + "." + f
  {
    ReduceWellFormed(p);
    DotMarksFraction(p);
    StemText(p);
    TrimmedText(Stem(p), p.fraction.value);
    StemText(Reduce(p));
    hide Render, WellFormed, TrimRight, Digits;
    assert (Stem(p) + "." + f)[|Stem(p)|] == '.';
  }

  /** What remains once the fraction is gone: the stem, without the sign of a zero. */
  lemma WholeKept(p: Parts)
    requires WellFormed(p)
    ensures (if Stem(p) == "-0" then "0" else Stem(p)) == Render(Parts(p.negative && p.whole != "0", p.whole, None))
  {
    var q := p.(fraction := None);
    StemText(q);
    MinusZero(q);
  }

  lemma FractionDropped(p: Parts)
    requires WellFormed(p) && p.fraction.Some? && TrimRight(p.fraction.value, '0') == ""
    ensures CanonicalDecimal(Render(p)) == Render(Reduce(p))
  {
    DotMarksFraction(p);
    StemText(p);
    TrimmedText(Stem(p), p.fraction.value);
    WholeKept(p);
    hide Render, WellFormed, TrimRight, Digits, Stem;
  }

  lemma WithoutFraction(p: Parts)
    requires WellFormed(p) && p.fraction.None?
    ensures CanonicalDecimal(Render(p)) == Render(Reduce(p))
  {
    DotMarksFraction(p);
    StemText(p);
    WholeKept(p);
    hide Render, WellFormed, TrimRight, Digits, Stem;
  }

  /** The canonical text is the text of the reduced parts. */
  lemma CanonicalOfParts(p: Parts)
    requires WellFormed(p)
    ensures CanonicalDecimal(Render(p)) == Render(Reduce(p)) && WellFormed(Reduce(p))
  {
    ReduceWellFormed(p);
    if p.fraction.None? {
      WithoutFraction(p);
    } else if TrimRight(p.fraction.value, '0') == "" {
      FractionDropped(p);
    } else {
      FractionKept(p, TrimRight(p.fraction.value, '0'));
    }
  }

  // ---- digits ----

  lemma NaturalAppend(s: string, c: char)
    requires Digits(s) && '0' <= c <= '9'
    ensures Digits(s + [c]) && Natural(s + [c]) == 10 * Natural(s) + (c as int - '0' as int)
  {
    assert (s + [c])[..|s|] == s;
  }

  lemma LastDigit(w: string, f: string)
    requires Digits(w) && Digits(f) && f != ""
    ensures var n := |f| - 1;
            && Digits(f[..n]) && Digits(w + f[..n]) && Digits(w + f)
            && Natural(w + f) == 10 * Natural(w + f[..n]) + (f[n] as int - '0' as int)
  {
    var n := |f| - 1;
    assert w + f == (w + f[..n]) + [f[n]];
    NaturalAppend(w + f[..n], f[n]);
  }

  lemma {:induction false} TrimKeepsNumber(w: string, f: string)
    requires Digits(w) && Digits(f)
    ensures var g := TrimRight(f, '0');
            && |g| <= |f| && Digits(g) && Digits(w + g) && Digits(w + f)
            && Natural(w + f) == Natural(w + g) * Pow10(|f| - |g|)
    decreases |f|
  {
    if f != "" && f[|f| - 1] == '0' {
      TrimKeepsNumber(w, f[..|f| - 1]);
      TrimOneZero(w, f);
      hide Digits, Natural, TrimRight, Pow10;
    } else {
      assert TrimRight(f, '0') == f;
    }
  }

  /** Dropping one zero is a tenfold step. */
  lemma TrimOneZero(w: string, f: string)
    requires Digits(w) && Digits(f) && f != "" && f[|f| - 1] == '0'
    requires var front := f[..|f| - 1];
             var g := TrimRight(front, '0');
             && |g| <= |front| && Digits(front) && Digits(w + g) && Digits(w + front)
             && Natural(w + front) == Natural(w + g) * Pow10(|front| - |g|)
    ensures var g := TrimRight(f, '0');
            Digits(w + f) && g == TrimRight(f[..|f| - 1], '0') && Natural(w + f) == Natural(w + g) * Pow10(|f| - |g|)
  {
    LastDigit(w, f);
    assert TrimRight(f, '0') == TrimRight(f[..|f| - 1], '0');
    hide Natural, TrimRight, Pow10;
    Tenfold(Natural(w + TrimRight(f, '0')), |f| - 1 - |TrimRight(f, '0')|);
  }

  lemma Tenfold(x: nat, n: nat)
    ensures 10 * (x * Pow10(n)) == x * Pow10(n + 1)
  {
  }

  lemma {:induction false} NaturalPositive(s: string)
    requires Digits(s) && s != "" && s[0] != '0'
    ensures Natural(s) > 0
  {
    if |s| > 1 { NaturalPositive(s[..|s| - 1]); }
  }

  /** Numerals without leading zeros are determined by their value. */
  lemma {:induction false} SameWhole(s: string, t: string)
    requires Digits(s) && Digits(t) && (s != "" ==> s[0] != '0') && (t != "" ==> t[0] != '0')
    requires Natural(s) == Natural(t)
    ensures s == t
    decreases |s|
  {
    if s == "" || t == "" {
      if s != "" { NaturalPositive(s); }
      if t != "" { NaturalPositive(t); }
    } else {
      SameWhole(s[..|s| - 1], t[..|t| - 1]);
      assert s == s[..|s| - 1] + [s[|s| - 1]] && t == t[..|t| - 1] + [t[|t| - 1]];
    }
  }

  ghost predicate WholePart(s: string) { Digits(s) && s != "" && (s == "0" || s[0] != '0') }

  lemma WholePartDigits(s: string)
    requires WholePart(s)
    ensures Digits(s)
  {
  }

  lemma SameWholePart(s: string, t: string)
    requires WholePart(s) && WholePart(t) && Natural(s) == Natural(t)
    ensures s == t
  {
    assert Natural("0") == 0;
    if s == "0" || t == "0" {
      if s != "0" { NaturalPositive(s); }
      if t != "0" { NaturalPositive(t); }
    } else {
      SameWhole(s, t);
    }
  }

  lemma SameLastDigit(w: string, f: string, v: string, g: string)
    requires Digits(w) && Digits(v) && Digits(f) && Digits(g) && f != "" && g != ""
    requires Digits(w + f) && Digits(v + g) && Natural(w + f) == Natural(v + g)
    ensures var n, m := |f| - 1, |g| - 1;
            && Digits(f[..n]) && Digits(g[..m]) && Digits(w + f[..n]) && Digits(v + g[..m])
            && Natural(w + f[..n]) == Natural(v + g[..m]) && f[n] == g[m]
  {
    hide Natural, Digits;
    LastDigit(w, f);
    LastDigit(v, g);
    var n, m := |f| - 1, |g| - 1;
    DigitAt(f, n);
    DigitAt(g, m);
    DecimalDigits(Natural(w + f[..n]), f[n], Natural(v + g[..m]), g[m]);
  }

  lemma DigitAt(s: string, k: nat)
    requires Digits(s) && k < |s|
    ensures '0' <= s[k] <= '9'
  {
  }

  lemma DecimalDigits(x: nat, c: char, y: nat, d: char)
    requires '0' <= c <= '9' && '0' <= d <= '9'
    requires 10 * x + (c as int - '0' as int) == 10 * y + (d as int - '0' as int)
    ensures x == y && c == d
  {
  }

  /** With equally long fractions, equal magnitudes mean equal digits. */
  lemma {:induction false} SameDigits(w: string, f: string, v: string, g: string)
    requires WholePart(w) && WholePart(v) && Digits(f) && Digits(g) && |f| == |g|
    requires Natural(w + f) == Natural(v + g)
    ensures w == v && f == g
    decreases |f|
  {
    hide Natural, WholePart;
    if f == "" {
      assert w + f == w && v + g == v;
      SameWholePart(w, v);
    } else {
      var n := |f| - 1;
      WholePartDigits(w);
      WholePartDigits(v);
      SameLastDigit(w, f, v, g);
      SameDigits(w, f[..n], v, g[..n]);
      assert f == f[..n] + [f[n]] && g == g[..n] + [g[n]];
    }
  }

  lemma {:induction false} Pow10Adds(a: nat, b: nat)
    ensures Pow10(a + b) == Pow10(a) * Pow10(b)
  {
    if a > 0 { Pow10Adds(a - 1, b); }
  }

  lemma Cancel(x: int, y: int, k: nat)
    requires k > 0 && x * k == y * k
    ensures x == y
  {
    var d := x - y;
    assert d * k == 0;
    if d > 0 { Positive(d, k); }
    if d < 0 { Positive(0 - d, k); }
  }

  lemma Positive(x: int, y: int)
    requires x > 0 && y > 0
    ensures x * y > 0
  {
  }

  lemma CancelPow10(x: int, y: int, a: nat, b: nat)
    requires a <= b && x * Pow10(b) == y * Pow10(a)
    ensures y == x * Pow10(b - a)
  {
    Pow10Adds(b - a, a);
    hide Pow10;
    Associate(x, Pow10(b - a), Pow10(a));
    Cancel(x * Pow10(b - a), y, Pow10(a));
  }

  lemma Associate(x: int, y: int, z: int)
    ensures x * (y * z) == (x * y) * z && (x * y) * z == (x * z) * y
  {
  }

  /** A numeral that is ten times another ends in zero. */
  lemma TenfoldEndsInZero(s: string, x: nat, d: nat)
    requires Digits(s) && s != "" && d > 0 && Natural(s) == x * Pow10(d)
    ensures s[|s| - 1] == '0'
  {
    var k := x * Pow10(d - 1);
    assert Natural(s) == 10 * k;
  }

  // ---- the theorems on parts ----

  lemma FractionReduced(p: Parts)
    requires WellFormed(p)
    ensures Fraction(Reduce(p)) == TrimRight(Fraction(p), '0') && Reduce(p).whole == p.whole
  {
  }

  lemma ReduceKeepsSign(p: Parts)
    requires WellFormed(p)
    ensures WellFormed(Reduce(p)) && (Reduce(p).negative == p.negative || Magnitude(Reduce(p)) == 0)
  {
    ReduceWellFormed(p);
    if Reduce(p).negative != p.negative {
      assert p.whole + Fraction(Reduce(p)) == "0";
      assert Natural("0") == 0;
    }
  }

  lemma ReduceKeepsNumber(p: Parts)
    requires WellFormed(p)
    ensures WellFormed(Reduce(p)) && SameNumber(p, Reduce(p))
  {
    var f, g := Fraction(p), Fraction(Reduce(p));
    FractionReduced(p);
    ReduceKeepsSign(p);
    TrimKeepsNumber(p.whole, f);
    Pow10Adds(|f| - |g|, |g|);
    hide Natural, Pow10, TrimRight, Reduce, WellFormed;
    var k := Pow10(|f| - |g|);
    SignedScale(p, Reduce(p), k);
    Associate(Numerator(Reduce(p)), k, Pow10(|g|));
  }

  lemma SignedScale(p: Parts, q: Parts, k: nat)
    requires WellFormed(p) && WellFormed(q) && Magnitude(p) == Magnitude(q) * k
    requires q.negative == p.negative || Magnitude(q) == 0
    ensures Numerator(p) == Numerator(q) * k
  {
    hide Magnitude, WellFormed;
    Negated(Magnitude(q), k);
  }

  lemma Negated(m: nat, k: nat)
    ensures m * k >= 0 && (0 - m) * k == 0 - m * k
  {
  }

  lemma ReduceIdempotent(p: Parts)
    ensures Reduce(Reduce(p)) == Reduce(p)
  {
    if p.fraction.Some? { TrimRightWithin(p.fraction.value, '0'); }
  }

  lemma ReducedEndsInDigit(p: Parts)
    requires WellFormed(p) && Reduce(p) == p && Fraction(p) != ""
    ensures Fraction(p)[|Fraction(p)| - 1] != '0'
  {
    TrimRightWithin(p.fraction.value, '0');
  }

  lemma ZeroIsPlain(p: Parts)
    requires WellFormed(p) && Reduce(p) == p && Magnitude(p) == 0
    ensures !p.negative
  {
    var f := Fraction(p);
    if f != "" {
      ReducedEndsInDigit(p);
      LastDigit(p.whole, f);
    } else {
      assert p.whole + f == p.whole;
      if p.whole != "0" { NaturalPositive(p.whole); }
    }
  }

  lemma NoLongerFraction(p: Parts, q: Parts)
    requires WellFormed(p) && WellFormed(q) && Reduce(q) == q && SameNumber(p, q)
    ensures |Fraction(q)| <= |Fraction(p)|
  {
    var f, g := Fraction(p), Fraction(q);
    if |g| > |f| {
      CancelPow10(Numerator(p), Numerator(q), |f|, |g|);
      var d := |g| - |f|;
      SignedProduct(p, q, d);
      TenfoldEndsInZero(q.whole + g, Magnitude(p), d);
      ReducedEndsInDigit(q);
    }
  }

  lemma SignedProduct(p: Parts, q: Parts, d: nat)
    requires WellFormed(p) && WellFormed(q) && Numerator(q) == Numerator(p) * Pow10(d)
    ensures Magnitude(q) == Magnitude(p) * Pow10(d)
  {
    hide Magnitude, Pow10, WellFormed;
    Negated(Magnitude(p), Pow10(d));
  }

  lemma ReducedUnique(p: Parts, q: Parts)
    requires WellFormed(p) && WellFormed(q) && Reduce(p) == p && Reduce(q) == q && SameNumber(p, q)
    ensures p == q
  {
    SameNumberSymmetric(p, q);
    hide Magnitude, Numerator, Reduce, WellFormed, Natural;
    NoLongerFraction(p, q);
    NoLongerFraction(q, p);
    assert Numerator(p) * Pow10(|Fraction(q)|) == Numerator(q) * Pow10(|Fraction(p)|);
    CancelPow10(Numerator(p), Numerator(q), |Fraction(p)|, |Fraction(q)|);
    assert Pow10(0) == 1;
    SignedProduct(p, q, 0);
    SameParts(p, q);
  }

  lemma SameNumberSymmetric(p: Parts, q: Parts)
    requires WellFormed(p) && WellFormed(q) && SameNumber(p, q)
    ensures SameNumber(q, p)
  {
  }

  lemma SameParts(p: Parts, q: Parts)
    requires WellFormed(p) && WellFormed(q) && Reduce(p) == p && Reduce(q) == q
    requires |Fraction(p)| == |Fraction(q)| && Numerator(p) == Numerator(q) && Magnitude(p) == Magnitude(q)
    ensures p == q
  {
    SameDigits(p.whole, Fraction(p), q.whole, Fraction(q));
    if Magnitude(p) == 0 {
      ZeroIsPlain(p);
      ZeroIsPlain(q);
    }
    hide Magnitude, Reduce;
  }

  // ---- the theorems on texts ----

  /** The canonical form of any matching text is accepted and denotes the same rational. */
  lemma CanonicalSound(s: string)
    requires Matches(s)
    ensures Accepted(CanonicalDecimal(s)) && Denote(s, CanonicalDecimal(s))
  {
    var p :| WellFormed(p) && s == Render(p);
    CanonicalOfParts(p);
    ReduceKeepsNumber(p);
    CanonicalOfParts(Reduce(p));
    ReduceIdempotent(p);
  }

  /** Accepted decimals denote the same rational exactly when their texts are equal. */
  lemma AcceptedUnique(s: string, t: string)
    requires Accepted(s) && Accepted(t)
    ensures Denote(s, t) <==> s == t
  {
    if s == t {
      var p :| WellFormed(p) && s == Render(p);
      assert SameNumber(p, p);
    }
    if Denote(s, t) {
      var p, q :| WellFormed(p) && WellFormed(q) && s == Render(p) && t == Render(q) && SameNumber(p, q);
      CanonicalOfParts(p);
      CanonicalOfParts(q);
      RenderInjective(p, Reduce(p));
      RenderInjective(q, Reduce(q));
      ReducedUnique(p, q);
    }
  }

  lemma SameNumberTransitive(p: Parts, q: Parts, r: Parts)
    requires WellFormed(p) && WellFormed(q) && WellFormed(r) && SameNumber(p, q) && SameNumber(q, r)
    ensures SameNumber(p, r)
  {
    hide Numerator, Pow10;
    CrossTransitive(Numerator(p), Numerator(q), Numerator(r), Pow10(|Fraction(p)|), Pow10(|Fraction(q)|),
      Pow10(|Fraction(r)|));
  }

  lemma CrossTransitive(a: int, b: int, c: int, x: nat, y: nat, z: nat)
    requires a * y == b * x && b * z == c * y && y > 0
    ensures a * z == c * x
  {
    Associate(a, z, y);
    Associate(b, x, z);
    Associate(c, y, x);
    Cancel(a * z, c * x, y);
  }

  /** On every matching text, the canonical form decides equality of the rationals. */
  lemma CanonicalDecides(s: string, t: string)
    requires Matches(s) && Matches(t)
    ensures Denote(s, t) <==> CanonicalDecimal(s) == CanonicalDecimal(t)
  {
    var p :| WellFormed(p) && s == Render(p);
    var q :| WellFormed(q) && t == Render(q);
    CanonicalOfParts(p);
    CanonicalOfParts(q);
    ReduceKeepsNumber(p);
    ReduceKeepsNumber(q);
    ReduceIdempotent(p);
    ReduceIdempotent(q);
    if Denote(s, t) {
      var p', q' :| WellFormed(p') && WellFormed(q') && s == Render(p') && t == Render(q') && SameNumber(p', q');
      RenderInjective(p, p');
      RenderInjective(q, q');
      SameNumberTransitive(Reduce(p), p, q);
      SameNumberTransitive(Reduce(p), q, Reduce(q));
      ReducedUnique(Reduce(p), Reduce(q));
    }
    if CanonicalDecimal(s) == CanonicalDecimal(t) {
      RenderInjective(Reduce(p), Reduce(q));
      SameNumberTransitive(p, Reduce(p), q);
    }
  }
}
