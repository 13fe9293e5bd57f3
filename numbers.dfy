/**
  Python's `float(text)` on the decimal notations: surrounding whitespace
  (as `float` reads it, which is not quite what `str.strip()` removes),
  an optional sign, digits with an optional fraction, and an optional
  exponent. The value is exact (a `real`), not a binary double.
 */
module Numbers {
  import opened Wrappers
  import opened Text

  predicate IsDigit(c: char) {
    '0' <= c <= '9'
  }

  predicate AllDigits(s: string) {
    forall k :: 0 <= k < |s| ==> IsDigit(s[k])
  }

  /** The characters a numeral may consist of once stripped. */
  predicate NumeralChar(c: char) {
    IsDigit(c) || c == '.' || c == 'e' || c == 'E' || c == '+' || c == '-'
  }

  /** The value of a string of decimal digits, most significant first. */
  function DigitsValue(ds: string): nat
    requires AllDigits(ds)
  {
    if ds == [] then 0
    else 10 * DigitsValue(ds[..|ds| - 1]) + ((ds[|ds| - 1] as int) - ('0' as int))
  }

  function Pow10(n: nat): (p: nat)
    ensures p >= 1
  {
    if n == 0 then 1 else 10 * Pow10(n - 1)
  }

  /** The first position of `s` holding a character of `cs`, or `|s|`. */
  function IndexOfAny(s: string, cs: set<char>): (k: nat)
    ensures k <= |s|
    ensures k < |s| ==> s[k] in cs
    ensures forall j :: 0 <= j < k ==> s[j] !in cs
  {
    if |s| == 0 || s[0] in cs then 0 else 1 + IndexOfAny(s[1..], cs)
  }

  /** `ddd`, `ddd.`, `.ddd` or `ddd.ddd`: at least one digit, at most one point. */
  function ParseMantissa(m: string): Option<real> {
    var dot := IndexOfAny(m, {'.'});
    if dot == |m| then
      if m != [] && AllDigits(m) then Some(DigitsValue(m) as real) else None
    else
      var whole := m[..dot];
      var frac := m[dot + 1..];
      if AllDigits(whole) && AllDigits(frac) && |whole| + |frac| > 0
      then Some(DigitsValue(whole) as real + DigitsValue(frac) as real / Pow10(|frac|) as real)
      else None
  }

  /** The part after `e`: an optional sign and at least one digit. */
  function ParseExponent(e: string): Option<int> {
    var signed := |e| > 0 && (e[0] == '+' || e[0] == '-');
    var digits := if signed then e[1..] else e;
    if digits != [] && AllDigits(digits) then
      var magnitude: int := DigitsValue(digits);
      Some(if signed && e[0] == '-' then -magnitude else magnitude)
    else None
  }

  /** `m` times ten to the power `e`. */
  function Scale(m: real, e: int): real {
    if e >= 0 then m * Pow10(e) as real else m / Pow10(-e) as real
  }

  /** A numeral without its sign: a mantissa, optionally `e`/`E` and an exponent. */
  function ParseUnsigned(u: string): Option<real> {
    var ex := IndexOfAny(u, {'e', 'E'});
    var mantissa := ParseMantissa(u[..ex]);
    if mantissa.None? then None
    else if ex == |u| then mantissa
    else
      match ParseExponent(u[ex + 1..])
      case None => None
      case Some(e) => Some(Scale(mantissa.value, e))
  }

  /** The whitespace `float()` skips around a numeral: the ASCII characters
      tab, line feed, vertical tab, form feed, carriage return and space,
      and every whitespace character beyond ASCII. Unlike `str.strip()`, it
      does not skip the four separators U+001C to U+001F. */
  predicate FloatSpace(c: char) {
    IsSpace(c) && !(0x1C <= c as int <= 0x1F)
  }

  /** The length of the run of `float` whitespace at the start of `s`. */
  function LeadingFloatSpaces(s: string): (n: nat)
    ensures n <= |s|
    ensures forall k :: 0 <= k < n ==> FloatSpace(s[k])
    ensures n < |s| ==> !FloatSpace(s[n])
  {
    if |s| == 0 || !FloatSpace(s[0]) then 0 else 1 + LeadingFloatSpaces(s[1..])
  }

  /** The length of the run of `float` whitespace at the end of `s`. */
  function TrailingFloatSpaces(s: string): (n: nat)
    ensures n <= |s|
    ensures forall k :: |s| - n <= k < |s| ==> FloatSpace(s[k])
    ensures n < |s| ==> !FloatSpace(s[|s| - 1 - n])
  {
    if |s| == 0 || !FloatSpace(s[|s| - 1]) then 0 else 1 + TrailingFloatSpaces(s[..|s| - 1])
  }

  /** `s` without the `float` whitespace around it. */
  function FloatStrip(s: string): (r: string)
    ensures |r| <= |s|
  {
    var lead := LeadingFloatSpaces(s);
    var rest := s[lead..];
    rest[..|rest| - TrailingFloatSpaces(rest)]
  }

  /** A text that neither starts nor ends with `float` whitespace is left
      as it is. */
  lemma FloatStripUnpadded(t: string)
    requires t != [] && !FloatSpace(t[0]) && !FloatSpace(t[|t| - 1])
    ensures FloatStrip(t) == t
  {
    assert LeadingFloatSpaces(t) == 0;
    assert t[0..] == t;
    assert TrailingFloatSpaces(t) == 0;
  }

  /** On a text without the separators U+001C to U+001F, `float` strips
      exactly what `str.strip()` strips. */
  lemma FloatStripIsStrip(s: string)
    requires forall k :: 0 <= k < |s| ==> !(0x1C <= s[k] as int <= 0x1F)
    ensures FloatStrip(s) == Strip(s)
  {
    LeadingAgree(s);
    var rest := s[LeadingSpaces(s)..];
    TrailingAgree(rest);
  }

  lemma {:induction false} LeadingAgree(s: string)
    requires forall k :: 0 <= k < |s| ==> !(0x1C <= s[k] as int <= 0x1F)
    ensures LeadingFloatSpaces(s) == LeadingSpaces(s)
  {
    if |s| > 0 && IsSpace(s[0]) {
      LeadingAgree(s[1..]);
    }
  }

  lemma {:induction false} TrailingAgree(s: string)
    requires forall k :: 0 <= k < |s| ==> !(0x1C <= s[k] as int <= 0x1F)
    ensures TrailingFloatSpaces(s) == TrailingSpaces(s)
  {
    if |s| > 0 && IsSpace(s[|s| - 1]) {
      TrailingAgree(s[..|s| - 1]);
    }
  }

  /** A digit after U+001C: `str.strip()` removes the separator, but `float`
      does not skip it, so the text is not a number. */
  lemma SeparatorIsNotFloatSpace()
    ensures Strip("\U{1C}5") == "5"
    ensures ParseFloat("\U{1C}5") == None
  {
    var t := "\U{1C}5";
    assert LeadingSpaces(t) == 1;
    assert t[1..] == "5";
    assert TrailingSpaces("5") == 0;
    NotNumber(t);
  }

  /** A text without surrounding `float` whitespace whose first character
      no numeral uses is not a number. */
  lemma NotNumber(t: string)
    requires t != [] && !FloatSpace(t[0]) && !FloatSpace(t[|t| - 1]) && !NumeralChar(t[0])
    ensures ParseFloat(t) == None
  {
    FloatStripUnpadded(t);
    if ParseFloat(t).Some? {
      NumeralsUseNumeralChars(t);
    }
  }

  /** Python's `float(s)`: `None` where Python raises `ValueError`. */
  function ParseFloat(s: string): Option<real> {
    var t := FloatStrip(s);
    var signed := |t| > 0 && (t[0] == '+' || t[0] == '-');
    var u := if signed then t[1..] else t;
    match ParseUnsigned(u)
    case None => None
    case Some(v) => Some(if signed && t[0] == '-' then -v else v)
  }

  /** A digit character for `0 <= d < 10`. */
  function DigitChar(d: nat): (c: char)
    requires d < 10
    ensures IsDigit(c) && (c as int) - ('0' as int) == d
  {
    ('0' as int + d) as char
  }

  /** The decimal digits of `n`, as Python's `str(n)` writes them. */
  function ShowNat(n: nat): (ds: string)
    ensures ds != [] && AllDigits(ds)
  {
    if n < 10 then [DigitChar(n)] else ShowNat(n / 10) + [DigitChar(n % 10)]
  }

  lemma {:induction false} DigitsValueShowNat(n: nat)
    ensures DigitsValue(ShowNat(n)) == n
  {
    if n >= 10 {
      DigitsValueShowNat(n / 10);
      var ds := ShowNat(n);
      assert ds[..|ds| - 1] == ShowNat(n / 10);
    }
  }

  /** A digit string holds no point and no exponent letter. */
  lemma DigitsHaveNoMarkers(ds: string)
    requires AllDigits(ds)
    ensures IndexOfAny(ds, {'e', 'E'}) == |ds|
    ensures IndexOfAny(ds, {'.'}) == |ds|
  {
  }

  /** Every whole number written in decimal parses back to itself. */
  lemma ParseShowNat(n: nat)
    ensures ParseFloat(ShowNat(n)) == Some(n as real)
  {
    var ds := ShowNat(n);
    DigitsValueShowNat(n);
    FloatStripUnpadded(ds);
    DigitsHaveNoMarkers(ds);
    assert ds[..|ds|] == ds;
    assert ParseMantissa(ds) == Some(n as real);
    assert ParseUnsigned(ds) == Some(n as real);
  }

  lemma MantissaChars(m: string)
    requires ParseMantissa(m).Some?
    ensures forall k :: 0 <= k < |m| ==> IsDigit(m[k]) || m[k] == '.'
  {
    var dot := IndexOfAny(m, {'.'});
    if dot < |m| {
      forall k | 0 <= k < |m| ensures IsDigit(m[k]) || m[k] == '.' {
        if k < dot {
          assert m[k] == m[..dot][k];
        } else if k > dot {
          assert m[k] == m[dot + 1..][k - dot - 1];
        }
      }
    }
  }

  lemma ExponentChars(e: string)
    requires ParseExponent(e).Some?
    ensures forall k :: 0 <= k < |e| ==> IsDigit(e[k]) || e[k] == '+' || e[k] == '-'
  {
    if |e| > 0 && (e[0] == '+' || e[0] == '-') {
      forall k | 1 <= k < |e| ensures IsDigit(e[k]) {
        assert e[k] == e[1..][k - 1];
      }
    }
  }

  lemma UnsignedChars(u: string)
    requires ParseUnsigned(u).Some?
    ensures forall k :: 0 <= k < |u| ==> NumeralChar(u[k])
  {
    var ex := IndexOfAny(u, {'e', 'E'});
    MantissaChars(u[..ex]);
    if ex < |u| {
      ExponentChars(u[ex + 1..]);
    }
    forall k | 0 <= k < |u| ensures NumeralChar(u[k]) {
      if k < ex {
        assert u[k] == u[..ex][k];
      } else if k > ex {
        assert u[k] == u[ex + 1..][k - ex - 1];
      }
    }
  }

  /** Whatever the modelled `float` accepts consists, after stripping, of
      digits, points, signs and exponent letters only; so no word made of
      other letters is one of the numerals modelled here (Python's `float`
      also accepts the words "inf" and "nan", which this module leaves out). */
  lemma NumeralsUseNumeralChars(s: string)
    requires ParseFloat(s).Some?
    ensures forall k :: 0 <= k < |FloatStrip(s)| ==> NumeralChar(FloatStrip(s)[k])
  {
    var t := FloatStrip(s);
    var signed := |t| > 0 && (t[0] == '+' || t[0] == '-');
    var u := if signed then t[1..] else t;
    UnsignedChars(u);
    forall k | 0 <= k < |t| ensures NumeralChar(t[k]) {
      if signed && k > 0 {
        assert t[k] == u[k - 1];
      }
    }
  }
}
