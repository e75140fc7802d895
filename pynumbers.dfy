/**
 * Python's `int(s)` and `float(s)` on a string, restricted to ASCII digits:
 * surrounding whitespace is ignored, one sign is allowed, and single
 * underscores may separate digits.  `float` also accepts a fraction, an
 * exponent, and the words "inf", "infinity" and "nan" in any case.
 */
module PyNumbers {
  import opened Text

  predicate IsDigit(c: char)
  {
    '0' <= c <= '9'
  }

  predicate IsDigitOrUnderscore(s: string)
  {
    forall i :: 0 <= i < |s| ==> IsDigit(s[i]) || s[i] == '_'
  }

  /** Python's `digitpart`: digits, with single underscores allowed between two of them. */
  predicate IsDigitPart(s: string)
  {
    |s| > 0 && IsDigit(s[0]) && IsDigit(s[|s| - 1]) && IsDigitOrUnderscore(s)
    && NoDoubleUnderscore(s)
  }

  /** No two adjacent underscores (Python's `'__' not in s`). */
  predicate NoDoubleUnderscore(s: string)
    decreases |s|
  {
    |s| < 2 || (!(s[0] == '_' && s[1] == '_') && NoDoubleUnderscore(s[1..]))
  }

  /** The number the digits of `s` spell, underscores skipped. */
  function DigitsValue(s: string): nat
    requires IsDigitOrUnderscore(s)
  {
    if |s| == 0 then 0
    else if s[|s| - 1] == '_' then DigitsValue(s[..|s| - 1])
    else 10 * DigitsValue(s[..|s| - 1]) + (s[|s| - 1] as int - '0' as int)
  }

  /** How many digits `s` holds, underscores not counted. */
  function DigitCount(s: string): nat
  {
    if |s| == 0 then 0
    else DigitCount(s[..|s| - 1]) + (if s[|s| - 1] == '_' then 0 else 1)
  }

  function Pow10(n: nat): (r: nat)
    ensures r >= 1
  {
    if n == 0 then 1 else 10 * Pow10(n - 1)
  }

  /** Index of the first character of `s` that is in `cs`, or `|s|` if there is none. */
  function FirstIndex(s: string, cs: set<char>): (r: nat)
    ensures r <= |s|
    ensures forall i :: 0 <= i < r ==> s[i] !in cs
    ensures r < |s| ==> s[r] in cs
  {
    if |s| == 0 || s[0] in cs then 0 else 1 + FirstIndex(s[1..], cs)
  }

  /** The text after an optional leading sign, and whether that sign was '-'. */
  function Unsigned(t: string): (string, bool)
  {
    if |t| > 0 && (t[0] == '+' || t[0] == '-') then (t[1..], t[0] == '-') else (t, false)
  }

  /** Python's `int(s)` in base 10; `None` where Python raises `ValueError`. */
  function ParseInt(s: string): (r: Option<int>)
    ensures r.Some? ==> Strip(s) != []
  {
    var (body, neg) := Unsigned(Strip(s));
    if IsDigitPart(body) then
      var n: int := DigitsValue(body);
      Some(if neg then -n else n)
    else None
  }

  /** A parsed float; a finite value is kept exactly, as `coefficient * 10^exponent`. */
  datatype PyFloat = Finite(coefficient: int, exponent: int) | Infinite(negative: bool) | NaN

  /** `0 <= x <= 1` for a float; comparisons with NaN are false. */
  predicate InUnitInterval(x: PyFloat)
  {
    match x
    case Finite(c, e) =>
      0 <= c && (if e >= 0 then c * Pow10(e) <= 1 else c <= Pow10(-e))
    case _ => false
  }

  /** Python's `float(s)`; `None` where Python raises `ValueError`.  Values are exact. */
  function ParseFloat(s: string): Option<PyFloat>
  {
    var (body, neg) := Unsigned(Strip(s));
    if |body| > 0 && (IsDigit(body[0]) || body[0] == '.') then
      match ParseDecimal(body)
      case None => None
      case Some(d) => Some(Finite(if neg then -(d.0 as int) else d.0, d.1))
    else
      // The special words start with a letter, so no decimal literal is one of them.
      var low := Lower(body);
      if low == "inf" || low == "infinity" then Some(Infinite(neg))
      else if low == "nan" then Some(NaN)
      else None
  }

  /** An unsigned decimal literal: a mantissa with an optional fraction, then an optional exponent. */
  function ParseDecimal(b: string): Option<(nat, int)>
  {
    var e := FirstIndex(b, {'e', 'E'});
    match ParseMantissa(b[..e])
    case None => None
    case Some((c, k)) =>
      if e == |b| then Some((c, k))
      else
        match ParseInt(b[e + 1..])
        case None => None
        case Some(x) =>
          // The exponent is `[sign] digitpart` with no surrounding whitespace.
          if Strip(b[e + 1..]) != b[e + 1..] then None
          else Some((c, k + x))
  }

  /**
   * `digitpart`, `digitpart "." [digitpart]` or `"." digitpart`, as a
   * coefficient and a power of ten.
   */
  function ParseMantissa(m: string): Option<(nat, int)>
  {
    var d := FirstIndex(m, {'.'});
    if d == |m| then
      if IsDigitPart(m) then Some((DigitsValue(m), 0)) else None
    else FractionParts(m[..d], m[d + 1..])
  }

  /** The mantissa `a "." f`, where either side may be empty but not both. */
  function FractionParts(a: string, f: string): Option<(nat, int)>
  {
    if (a == "" || IsDigitPart(a)) && (f == "" || IsDigitPart(f)) && (a != "" || f != "") then
      Some(FractionValue(a, f))
    else None
  }

  /** The value of `a "." f` as a coefficient and a (non-positive) power of ten. */
  function FractionValue(a: string, f: string): (nat, int)
    requires IsDigitOrUnderscore(a) && IsDigitOrUnderscore(f)
  {
    (DigitsValue(a) * Pow10(DigitCount(f)) + DigitsValue(f), -(DigitCount(f) as int))
  }

  lemma DigitStringParses(s: string)
    requires |s| > 0 && forall i :: 0 <= i < |s| ==> IsDigit(s[i])
    ensures IsDigitOrUnderscore(s) && ParseInt(s) == Some(DigitsValue(s) as int)
  {
    AllDigitsIsDigitPart(s);
    assert Strip(s) == s && Unsigned(s) == (s, false) by {
      StripUnchanged(s);
    }
    ParseIntOf(s, s, false);
  }

  lemma NegativeDigitStringParses(digits: string)
    requires |digits| > 0 && forall i :: 0 <= i < |digits| ==> IsDigit(digits[i])
    ensures IsDigitOrUnderscore(digits) && ParseInt("-" + digits) == Some(-(DigitsValue(digits) as int))
  {
    AllDigitsIsDigitPart(digits);
    var s := "-" + digits;
    assert Strip(s) == s && Unsigned(s) == (digits, true) by {
      assert s[|s| - 1] == digits[|digits| - 1];
      StripUnchanged(s);
      assert s[0] == '-' && s[1..] == digits;
    }
    ParseIntOf(s, digits, true);
  }

  lemma ParseIntOf(s: string, body: string, neg: bool)
    requires Strip(s) == s && Unsigned(s) == (body, neg) && IsDigitPart(body)
    ensures ParseInt(s) == Some(if neg then -(DigitsValue(body) as int) else DigitsValue(body))
  {
  }

  /**
   * A literal made of two digit runs (underscores allowed between digits)
   * around one '.' has the value decimal notation gives it.
   */
  lemma ParseFractionValue(s: string, d: nat)
    requires d < |s| && s[d] == '.' && IsDigitPart(s[..d]) && IsDigitPart(s[d + 1..])
    ensures ParseFloat(s) == Some(Finite(DigitsValue(s[..d]) * Pow10(DigitCount(s[d + 1..])) + DigitsValue(s[d + 1..]), -(DigitCount(s[d + 1..]) as int)))
  {
    var a, f := s[..d], s[d + 1..];
    assert s == a + "." + f;
    FractionDecimal(a, f);
    FractionHasNoSign(a, f);
    UnsignedFinite(s, FractionValue(a, f));
  }

  lemma FractionMantissa(a: string, f: string)
    requires IsDigitPart(a) && IsDigitPart(f)
    requires FirstIndex(a + "." + f, {'.'}) == |a|
    ensures ParseMantissa(a + "." + f) == Some(FractionValue(a, f))
  {
    var s := a + "." + f;
    assert s[..|a|] == a && s[|a| + 1..] == f;
  }

  lemma FractionDecimal(a: string, f: string)
    requires IsDigitPart(a) && IsDigitPart(f)
    ensures ParseDecimal(a + "." + f) == Some(FractionValue(a, f))
  {
    FirstIndexFraction(a, f);
    FractionMantissa(a, f);
    NoExponentDecimal(a + "." + f);
  }

  lemma NoExponentDecimal(b: string)
    requires FirstIndex(b, {'e', 'E'}) == |b|
    ensures ParseDecimal(b) == ParseMantissa(b)
  {
    assert b[..|b|] == b;
  }

  lemma FractionHasNoSign(a: string, f: string)
    requires IsDigitPart(a) && IsDigitPart(f)
    ensures Strip(a + "." + f) == a + "." + f && Unsigned(a + "." + f) == (a + "." + f, false)
    ensures IsDigit((a + "." + f)[0])
  {
    var s := a + "." + f;
    assert s[0] == a[0] && s[|s| - 1] == f[|f| - 1];
    StripUnchanged(s);
  }

  lemma UnsignedFinite(s: string, v: (nat, int))
    requires Strip(s) == s && Unsigned(s) == (s, false)
    requires |s| > 0 && IsDigit(s[0])
    requires ParseDecimal(s) == Some(v)
    ensures ParseFloat(s) == Some(Finite(v.0, v.1))
  {
  }

  lemma AllDigitsIsDigitPart(s: string)
    requires |s| > 0
    requires forall i :: 0 <= i < |s| ==> IsDigit(s[i])
    ensures IsDigitPart(s)
  {
    NoUnderscorePair(s);
  }

  lemma {:induction false} NoUnderscorePair(s: string)
    requires forall i :: 0 <= i < |s| ==> IsDigit(s[i])
    ensures NoDoubleUnderscore(s)
    decreases |s|
  {
    if |s| >= 2 {
      NoUnderscorePair(s[1..]);
    }
  }

  lemma FirstIndexFraction(a: string, f: string)
    requires IsDigitOrUnderscore(a) && IsDigitOrUnderscore(f)
    ensures FirstIndex(a + "." + f, {'e', 'E'}) == |a + "." + f|
    ensures FirstIndex(a + "." + f, {'.'}) == |a|
  {
    var s := a + "." + f;
    forall i | 0 <= i < |s|
      ensures s[i] !in {'e', 'E'}
    {
      if i < |a| {
        assert s[i] == a[i];
      } else if i > |a| {
        assert s[i] == f[i - |a| - 1];
      }
    }
    forall i | 0 <= i < |a|
      ensures s[i] !in {'.'}
    {
      assert s[i] == a[i];
    }
    assert s[|a|] == '.';
  }

  lemma {:induction false} DigitCountOfDigits(f: string)
    requires forall i :: 0 <= i < |f| ==> IsDigit(f[i])
    ensures DigitCount(f) == |f|
    decreases |f|
  {
    if |f| > 0 {
      DigitCountOfDigits(f[..|f| - 1]);
    }
  }

  /** A value of `k` digits is below `10^k`. */
  lemma {:induction false} DigitsValueBound(f: string)
    requires IsDigitOrUnderscore(f)
    ensures DigitsValue(f) < Pow10(DigitCount(f))
    decreases |f|
  {
    if |f| > 0 {
      DigitsValueBound(f[..|f| - 1]);
    }
  }
}
