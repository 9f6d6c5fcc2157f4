/** The length logic of the calculator's display component: how many fraction
    digits the raw value asks for, which rendering is shown, and the scale hint
    chosen from the length of the final text. The locale and exponential
    renderings of a floating-point number are opaque inputs. */
module Display {
  import opened Strings
  import opened Wrappers

  /** Texts longer than this many characters are shrunk. */
  const MaxCharsAtFullSize: nat := 6
  const ScaleFactor: string := "scale(0.36)"
  const FullScale: string := "scale(1)"
  const MaxPrecision: nat := 16
  /** "Overflow", a no-break space, "Error". */
  const OverflowError: string := "Overflow\U{A0}Error"

  /** Number of fraction digits the raw display value asks for: the characters
      after its first decimal point, or 0 when it has none. Characters are
      counted, which is what JavaScript counts for the display values built
      here, since none holds a character above U+FFFF. The source passes the
      lengths through the expression evaluator, which maps a number to itself. */
  function FractionDigits(value: string): (n: nat)
    ensures '.' !in value ==> n == 0
    ensures '.' in value ==> n < |value| && value[|value| - 1 - n] == '.'
    ensures '.' in value ==> '.' !in value[..|value| - 1 - n]
  {
    var pointAt := IndexOf(value, '.');
    var decimalValue := Substring(value, pointAt, |value|);
    if pointAt == -1 then 0 else |decimalValue| - 1
  }

  /** The scale transform for a final display text. */
  function ScaleHint(text: string): (hint: string)
    ensures hint == ScaleFactor <==> Utf16Length(text) > MaxCharsAtFullSize
    ensures hint == FullScale <==> Utf16Length(text) <= MaxCharsAtFullSize
  {
    if Utf16Length(text) > MaxCharsAtFullSize then ScaleFactor else FullScale
  }

  /** The floating-point renderings the display relies on, left opaque:
      `locale(v, d)` is `parseFloat(v).toLocaleString` with at least `d`
      fraction digits, or `None` where that call throws (it rejects fraction
      digit counts above its limit with a range error);
      `exponential(v, p)` is `parseFloat(v).toExponential(p)`. */
  datatype Formatter = Formatter(locale: (string, nat) -> Option<string>, exponential: (string, nat) -> string)

  /** Last three characters of `s` as `s.substring(s.length - 3, s.length)` gives them. */
  function LastThree(s: string): (r: string)
    ensures |s| >= 3 ==> r == s[|s| - 3..]
    ensures |s| < 3 ==> r == s
  {
    Substring(s, |s| - 3, |s|)
  }

  /** The scientific-notation fallback: 12 fraction digits, unless the exponent
      comes out as "e+0", in which case 15 fraction digits with the last three
      characters dropped. */
  function Scientific(value: string, f: Formatter): (r: string)
    ensures LastThree(f.exponential(value, MaxPrecision - 4)) != "e+0" ==>
              r == f.exponential(value, MaxPrecision - 4)
    ensures LastThree(f.exponential(value, MaxPrecision - 4)) == "e+0" ==>
              r + LastThree(f.exponential(value, MaxPrecision - 1)) == f.exponential(value, MaxPrecision - 1)
  {
    var sci := f.exponential(value, MaxPrecision - 4);
    if LastThree(sci) == "e+0" then
      var longer := f.exponential(value, MaxPrecision - 1);
      var r := Substring(longer, 0, |longer| - 3);
      assert |longer| >= 3 ==> longer == r + longer[|longer| - 3..];
      r
    else sci
  }

  /** The text the display shows for a raw value, or `None` when the locale
      rendering throws and the component fails to render. */
  function FormattedText(value: string, f: Formatter): (text: Option<string>)
    ensures f.locale(value, FractionDigits(value)) == None <==> text == None
    ensures f.locale(value, FractionDigits(value)) == Some("NaN") ==> text == Some("Error")
    ensures var loc := f.locale(value, FractionDigits(value));
            loc.Some? && loc.value != "NaN" && Utf16Length(loc.value) <= MaxPrecision - 1 ==> text == loc
    ensures var loc := f.locale(value, FractionDigits(value));
            loc.Some? && loc.value != "NaN" && Utf16Length(loc.value) > MaxPrecision - 1 ==>
              (Scientific(value, f) == "NaN" ==> text == Some(OverflowError)) &&
              (Scientific(value, f) != "NaN" ==> text == Some(Scientific(value, f)))
  {
    match f.locale(value, FractionDigits(value))
    case None => None
    case Some(formattedValue) =>
      if formattedValue == "NaN" then Some("Error")
      else if Utf16Length(formattedValue) > MaxPrecision - 1 then
        var sci := Scientific(value, f);
        Some(if sci == "NaN" then OverflowError else sci)
      else Some(formattedValue)
  }

  /** What the display component renders: the text and its scale transform,
      or `None` when rendering throws. */
  function Render(value: string, f: Formatter): (r: Option<(string, string)>)
    ensures r.None? <==> FormattedText(value, f).None?
    ensures r.Some? ==> r.value.0 == FormattedText(value, f).value
    ensures r.Some? ==> (r.value.1 == ScaleFactor <==> Utf16Length(r.value.0) > MaxCharsAtFullSize)
    ensures r.Some? ==> (r.value.1 == FullScale <==> Utf16Length(r.value.0) <= MaxCharsAtFullSize)
  {
    match FormattedText(value, f)
    case None => None
    case Some(text) => Some((text, ScaleHint(text)))
  }

  /** A value typed as a whole part without a point, a point, and a fraction
      part asks for exactly as many fraction digits as the fraction part has. */
  lemma {:induction false} FractionDigitsOfTyped(whole: string, fraction: string)
    requires '.' !in whole
    ensures FractionDigits(whole + "." + fraction) == |fraction|
  {
    var v := whole + "." + fraction;
    assert v[..|whole|] == whole;
    assert v[|whole|] == '.';
  }

  /** Lengths are counted as JavaScript counts them: four digits from outside
      the Basic Multilingual Plane (Adlam digits, as some locales render
      numbers) are eight code units long, so the text is shrunk. */
  lemma AstralDigitsShrink()
    ensures Utf16Length("\U{1E950}\U{1E951}\U{1E952}\U{1E953}") == 8
    ensures ScaleHint("\U{1E950}\U{1E951}\U{1E952}\U{1E953}") == ScaleFactor
  {
    var t := "\U{1E950}\U{1E951}\U{1E952}\U{1E953}";
    assert t[1..][1..][1..][1..] == "";
  }
}
