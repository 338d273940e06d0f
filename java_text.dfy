/**
 * The two conversions between Java `int` and text that the counter depends on:
 * `Integer.parseInt` (reached through `NumberUtils.toInt(String, int)`) and
 * `String.valueOf(int)`.
 */
module JavaText {
  import opened JavaInt

  datatype Option<T> = None | Some(value: T)

  predicate IsDigit(c: char) {
    '0' <= c <= '9'
  }

  function DigitValue(c: char): (d: nat)
    requires IsDigit(c)
    ensures d < 10
  {
    c as int - '0' as int
  }

  function DigitChar(d: nat): (c: char)
    requires d < 10
    ensures IsDigit(c) && DigitValue(c) == d
  {
    (d + '0' as int) as char
  }

  predicate AllDigits(s: string) {
    forall i :: 0 <= i < |s| ==> IsDigit(s[i])
  }

  /** The number a string of decimal digits denotes, most significant digit first. */
  function DigitsValue(s: string): nat
    requires AllDigits(s)
  {
    if s == [] then 0 else DigitsValue(s[..|s| - 1]) * 10 + DigitValue(s[|s| - 1])
  }

  /**
   * `Integer.parseInt(s)`: an optional `-` or `+`, then one or more decimal digits, whose
   * value must lie in the `int` range. `None` stands for the `NumberFormatException`.
   */
  function ParseInt(s: string): (r: Option<int32>)
    ensures r.Some? ==> |s| > 0
    ensures r.Some? && s[0] != '-' && s[0] != '+' ==> AllDigits(s) && r.value >= 0
    ensures r.Some? && (s[0] == '-' || s[0] == '+') ==> |s| > 1 && AllDigits(s[1..])
    ensures r.Some? && r.value < 0 ==> s[0] == '-'
  {
    if |s| == 0 then None
    else if s[0] == '-' || s[0] == '+' then
      if |s| == 1 || !AllDigits(s[1..]) then None
      else
        var magnitude: int := DigitsValue(s[1..]);
        var v: int := if s[0] == '-' then -magnitude else magnitude;
        if MIN_VALUE <= v <= MAX_VALUE then Some(v) else None
    else if AllDigits(s) && DigitsValue(s) <= MAX_VALUE then Some(DigitsValue(s))
    else None
  }

  /** `NumberUtils.toInt(s, fallback)`: the parsed value, or `fallback` when parsing fails. */
  function ToInt(s: string, fallback: int32): (r: int32)
    ensures r == fallback || ParseInt(s) == Some(r)
    ensures ParseInt(s).Some? ==> r == ParseInt(s).value
  {
    match ParseInt(s)
    case Some(v) => v
    case None => fallback
  }

  /** Decimal digits without a superfluous leading zero: the only spelling `valueOf` produces. */
  predicate CanonicalDigits(d: string) {
    |d| > 0 && AllDigits(d) && (d[0] == '0' ==> |d| == 1)
  }

  /** The strings `String.valueOf(int)` can return: canonical digits, optionally after a `-` (but never "-0"). */
  predicate Canonical(s: string) {
    CanonicalDigits(s) || (|s| > 1 && s[0] == '-' && s[1] != '0' && CanonicalDigits(s[1..]))
  }

  /** Decimal spelling of a natural number. */
  function NaturalDigits(n: nat): (s: string)
    ensures CanonicalDigits(s)
    ensures s[0] == '0' <==> n == 0
    decreases n
  {
    if n < 10 then [DigitChar(n)] else NaturalDigits(n / 10) + [DigitChar(n % 10)]
  }

  /** `String.valueOf(n)` for an `int`. */
  function ValueOf(n: int32): (s: string)
    ensures Canonical(s)
    ensures s[0] == '-' <==> n < 0
  {
    if n < 0 then "-" + NaturalDigits(-(n as int)) else NaturalDigits(n)
  }

  lemma {:induction false} DigitsOfNatural(n: nat)
    ensures DigitsValue(NaturalDigits(n)) == n
    decreases n
  {
    var s := NaturalDigits(n);
    if n < 10 {
      assert s[..|s| - 1] == [];
    } else {
      DigitsOfNatural(n / 10);
      assert s[..|s| - 1] == NaturalDigits(n / 10);
    }
  }

  lemma {:induction false} LeadingDigitPositive(d: string)
    requires CanonicalDigits(d) && d[0] != '0'
    ensures DigitsValue(d) > 0
    decreases |d|
  {
    if |d| > 1 {
      var prefix := d[..|d| - 1];
      assert prefix[0] == d[0];
      LeadingDigitPositive(prefix);
    }
  }

  lemma {:induction false} NaturalOfDigits(d: string)
    requires CanonicalDigits(d)
    ensures NaturalDigits(DigitsValue(d)) == d
    decreases |d|
  {
    var last := d[|d| - 1];
    if |d| == 1 {
      assert d[..0] == [];
      assert DigitChar(DigitValue(last)) == last;
    } else {
      var prefix := d[..|d| - 1];
      assert prefix[0] == d[0];
      LeadingDigitPositive(prefix);
      NaturalOfDigits(prefix);
      assert DigitChar(DigitValue(last)) == last;
      assert d == prefix + [last];
    }
  }

  /** Parsing what `valueOf` printed gives the number back, for every `int`. */
  lemma ParseValueOf(n: int32)
    ensures ParseInt(ValueOf(n)) == Some(n)
  {
    var s := ValueOf(n);
    if n < 0 {
      var magnitude: nat := -(n as int);
      var d := NaturalDigits(magnitude);
      DigitsOfNatural(magnitude);
      assert s == "-" + d && s[1..] == d;
      assert AllDigits(s[1..]) && DigitsValue(s[1..]) == magnitude;
    } else {
      DigitsOfNatural(n);
      assert s[0] != '-' && s[0] != '+';
    }
  }

  /**
   * The converse: a string that parses is printed back unchanged exactly when it is
   * canonical (no `+`, no leading zeros, no "-0").
   */
  lemma ValueOfParse(s: string)
    requires ParseInt(s).Some?
    ensures ValueOf(ParseInt(s).value) == s <==> Canonical(s)
  {
    if Canonical(s) {
      if s[0] == '-' {
        var d := s[1..];
        assert d[0] == s[1];
        LeadingDigitPositive(d);
        NaturalOfDigits(d);
        assert s == "-" + d;
      } else {
        NaturalOfDigits(s);
      }
    }
  }

  /** A leading zero does not change the value of a digit string. */
  lemma {:induction false} LeadingZeroValue(d: string)
    requires AllDigits(d)
    ensures AllDigits("0" + d) && DigitsValue("0" + d) == DigitsValue(d)
    decreases |d|
  {
    var z := "0" + d;
    assert forall i :: 0 <= i < |z| ==> IsDigit(z[i]);
    if d == [] {
      assert z[..0] == [];
    } else {
      var prefix := d[..|d| - 1];
      LeadingZeroValue(prefix);
      assert z[..|z| - 1] == "0" + prefix;
    }
  }

  /**
   * The spellings `valueOf` never prints parse as Java parses them: a `+` sign or leading
   * zeros change nothing, "-0" is zero.
   */
  lemma ParseNonCanonical(d: string)
    requires |d| > 0 && AllDigits(d)
    ensures ParseInt("+" + d) == ParseInt(d)
    ensures ParseInt("0" + d) == ParseInt(d)
    ensures ParseInt("-0" + d) == ParseInt("-" + d)
    ensures ParseInt("-0") == Some(0)
  {
    LeadingZeroValue(d);
    assert ("+" + d)[1..] == d;
    assert ("-" + d)[1..] == d;
    assert ("-0" + d)[1..] == "0" + d;
    assert "-0"[1..] == "0" && "0"[..0] == [];
  }

  /** A number outside the `int` range does not parse, whichever sign it is written with. */
  lemma ParseOutOfRange(m: nat)
    ensures m > MAX_VALUE ==> ParseInt(NaturalDigits(m)) == None && ParseInt("+" + NaturalDigits(m)) == None
    ensures m > -MIN_VALUE ==> ParseInt("-" + NaturalDigits(m)) == None
  {
    var d := NaturalDigits(m);
    DigitsOfNatural(m);
    assert ("+" + d)[1..] == d;
    assert ("-" + d)[1..] == d;
  }

  /** `NumberUtils.toInt(String.valueOf(n), fallback) == n`: the fallback is never used on printed ints. */
  lemma ToIntValueOf(n: int32, fallback: int32)
    ensures ToInt(ValueOf(n), fallback) == n
  {
    ParseValueOf(n);
  }

  /** The fallback is returned exactly for text that does not parse (or that parses to the fallback itself). */
  lemma ToIntFallback(s: string, fallback: int32)
    ensures ToInt(s, fallback) == fallback <==> ParseInt(s).None? || ParseInt(s) == Some(fallback)
  {
  }
}
