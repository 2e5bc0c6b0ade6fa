/**
 * The six-digit verification code of the forgotten-PIN flow: a number drawn
 * from 0..999999 rendered with `"{:06d}"`, i.e. in decimal, zero-padded on
 * the left to six characters.
 */
module RecoveryCode {
  import opened Wrappers
  import opened Text

  const CodeWidth: nat := 6
  const MaxCode: nat := 999999

  function Pow10(k: nat): (r: nat)
    ensures r >= 1
  {
    if k == 0 then 1 else 10 * Pow10(k - 1)
  }

  function DigitChar(d: nat): (c: char)
    requires d < 10
    ensures IsDigit(c)
  {
    ('0' as int + d) as char
  }

  function DigitValue(c: char): (d: nat)
    requires IsDigit(c)
    ensures d < 10 && DigitChar(d) == c
  {
    c as int - '0' as int
  }

  /**
   * The lowest `width` decimal digits of `n`, most significant first. When
   * `n < 10^width` this is `n` written in decimal and zero-padded to `width`.
   */
  function FixedDigits(n: nat, width: nat): (r: string)
    ensures |r| == width && AllDigits(r)
  {
    if width == 0 then [] else FixedDigits(n / 10, width - 1) + [DigitChar(n % 10)]
  }

  /** The number a string of decimal digits denotes (leading zeros allowed). */
  function DigitsValue(s: string): (v: nat)
    requires AllDigits(s)
    ensures v < Pow10(|s|)
  {
    if s == [] then 0 else DigitsValue(s[..|s| - 1]) * 10 + DigitValue(s[|s| - 1])
  }

  /** The code shown to the user for the drawn number `n`. */
  function FormatCode(n: nat): (r: string)
    requires n <= MaxCode
    ensures |r| == CodeWidth && AllDigits(r)
  {
    FixedDigits(n, CodeWidth)
  }

  /** The number a well-formed code stands for; `None` for anything else. */
  function ParseCode(s: string): (r: Option<nat>)
    ensures r.Some? <==> |s| == CodeWidth && AllDigits(s)
    ensures r.Some? ==> r.value <= MaxCode
  {
    if |s| == CodeWidth && AllDigits(s) then Some(DigitsValue(s)) else None
  }

  lemma MulMonotone(a: nat, b: nat, m: nat)
    requires a <= b
    ensures a * m <= b * m
  {
    assert b * m == a * m + (b - a) * m;
  }

  /** Uniqueness of the Euclidean remainder. */
  lemma ModOfDecomposition(n: nat, m: nat, q: nat, t: nat)
    requires m > 0 && t < m && n == q * m + t
    ensures n % m == t
  {
    var q', t' := n / m, n % m;
    assert n == q' * m + t';
    if q' < q {
      MulMonotone(q' + 1, q, m);
    } else if q' > q {
      MulMonotone(q + 1, q', m);
    }
  }

  /** Dropping the last digit and then the top `k` digits keeps `n`'s digits k+1 .. 1. */
  lemma ModPow10Step(n: nat, k: nat)
    ensures (n / 10) % Pow10(k) * 10 + n % 10 == n % Pow10(k + 1)
  {
    var p := Pow10(k);
    var a, b := (n / 10) / p, (n / 10) % p;
    assert n / 10 == a * p + b;
    assert n == (n / 10) * 10 + n % 10;
    assert n == a * (10 * p) + (b * 10 + n % 10) by {
      assert (n / 10) * 10 == a * p * 10 + b * 10;
    }
    assert b * 10 + n % 10 < 10 * p;
    ModOfDecomposition(n, 10 * p, a, b * 10 + n % 10);
  }

  /** Reading back the lowest `width` digits of `n` gives `n` modulo `10^width`. */
  lemma {:induction false} FixedDigitsValue(n: nat, width: nat)
    ensures DigitsValue(FixedDigits(n, width)) == n % Pow10(width)
  {
    if width > 0 {
      var s := FixedDigits(n, width);
      assert s[..|s| - 1] == FixedDigits(n / 10, width - 1);
      FixedDigitsValue(n / 10, width - 1);
      ModPow10Step(n, width - 1);
    }
  }

  /** Writing out the value of a digit string with as many digits gives the string back. */
  lemma {:induction false} DigitsValueFixed(s: string)
    requires AllDigits(s)
    ensures FixedDigits(DigitsValue(s), |s|) == s
  {
    if s != [] {
      var init := s[..|s| - 1];
      var v := DigitsValue(s);
      assert v / 10 == DigitsValue(init) && v % 10 == DigitValue(s[|s| - 1]);
      DigitsValueFixed(init);
      assert s == init + [s[|s| - 1]];
    }
  }

  /** Every code the flow can draw parses back to the number it was drawn from. */
  lemma FormatThenParse(n: nat)
    requires n <= MaxCode
    ensures ParseCode(FormatCode(n)) == Some(n)
  {
    FixedDigitsValue(n, CodeWidth);
    assert Pow10(CodeWidth) == MaxCode + 1;
    ModOfDecomposition(n, Pow10(CodeWidth), 0, n);
  }

  /** Every well-formed code is the rendering of the number it parses to. */
  lemma ParseThenFormat(s: string)
    requires ParseCode(s).Some?
    ensures FormatCode(ParseCode(s).value) == s
  {
    DigitsValueFixed(s);
  }

  /**
   * The flow compares the entered text with the issued code as strings; this
   * is the same as the entered text being a well-formed code for the drawn number.
   */
  lemma CodeMatchesIffParses(s: string, n: nat)
    requires n <= MaxCode
    ensures s == FormatCode(n) <==> ParseCode(s) == Some(n)
  {
    FormatThenParse(n);
    if ParseCode(s) == Some(n) {
      ParseThenFormat(s);
    }
  }

  /** Distinct draws give distinct codes. */
  lemma FormatCodeInjective(m: nat, n: nat)
    requires m <= MaxCode && n <= MaxCode
    ensures FormatCode(m) == FormatCode(n) ==> m == n
  {
    FormatThenParse(m);
    FormatThenParse(n);
  }
}
