/** Decimal numerals, splitting at a separator, and removing one. */
module Text {

  predicate IsDigit(c: char) {
    '0' <= c <= '9'
  }

  function DigitChar(d: int): (c: char)
    requires 0 <= d < 10
    ensures IsDigit(c)
  {
    '0' + d as char
  }

  function DigitValue(c: char): int {
    c as int - '0' as int
  }

  /** The digits of a positive number; nothing for zero. */
  function Digits(n: nat): string {
    if n == 0 then "" else Digits(n / 10) + [DigitChar(n % 10)]
  }

  /** The numeral `%d` prints. */
  function Decimal(n: int): string {
    if n < 0 then "-" + Digits(-n) else if n == 0 then "0" else Digits(n)
  }

  /** What `%02d` prints: a zero in front of a single digit. */
  function TwoDigits(n: int): string {
    if 0 <= n < 10 then "0" + Decimal(n) else Decimal(n)
  }

  lemma TwoDigitsShape(n: int)
    requires 0 <= n < 100
    ensures TwoDigits(n) == [DigitChar(n / 10), DigitChar(n % 10)]
  {
    if 10 <= n {
      assert Digits(n / 10) == [DigitChar(n / 10)];
    } else if 0 < n {
      assert Digits(n) == [DigitChar(n)];
    }
  }

  function DigitsValue(s: string): int {
    if s == "" then 0 else DigitsValue(s[..|s| - 1]) * 10 + DigitValue(s[|s| - 1])
  }

  lemma DigitStep(s: string, d: int)
    requires 0 <= d < 10
    ensures DigitsValue(s + [DigitChar(d)]) == DigitsValue(s) * 10 + d
  {
    assert (s + [DigitChar(d)])[..|s|] == s;
    assert DigitValue(DigitChar(d)) == d;
  }

  lemma DigitsUnfolded(n: nat)
    ensures Digits(n) == if n == 0 then "" else Digits(n / 10) + [DigitChar(n % 10)]
  {
  }

  lemma {:induction false} DigitsRoundTrip(n: nat)
    ensures DigitsValue(Digits(n)) == n
    ensures forall i :: 0 <= i < |Digits(n)| ==> IsDigit(Digits(n)[i])
    ensures n > 0 ==> Digits(n) != ""
  {
    hide Digits, DigitsValue, DigitChar;
    DigitsUnfolded(n);
    if n == 0 {
      NoDigits();
    } else {
      DigitsRoundTrip(n / 10);
      DigitStep(Digits(n / 10), n % 10);
      assert n / 10 * 10 + n % 10 == n;
    }
  }

  lemma NoDigits()
    ensures DigitsValue("") == 0
  {
  }

  lemma DecimalRoundTrip(n: nat)
    ensures DigitsValue(Decimal(n)) == n
    ensures forall i :: 0 <= i < |Decimal(n)| ==> IsDigit(Decimal(n)[i])
    ensures Decimal(n) != ""
  {
    DigitsRoundTrip(n);
    if n == 0 { assert Decimal(n)[..0] == ""; }
  }

  /** The pieces of a text between separators. */
  function Split(s: string, sep: char): (pieces: seq<string>)
    ensures 1 <= |pieces|
  {
    if s == "" then [""]
    else
      var rest := Split(s[1..], sep);
      if s[0] == sep then [""] + rest else [[s[0]] + rest[0]] + rest[1..]
  }

  lemma {:induction false} SplitJoin(a: string, sep: char, b: string)
    ensures Split(a + [sep] + b, sep) == Split(a, sep) + Split(b, sep)
  {
    var s := a + [sep] + b;
    if a == "" {
      assert s[1..] == b;
    } else {
      assert s[1..] == a[1..] + [sep] + b;
      SplitJoin(a[1..], sep, b);
    }
  }

  lemma {:induction false} SplitWhole(s: string, sep: char)
    requires sep !in s
    ensures Split(s, sep) == [s]
  {
    if s != "" {
      assert forall c :: c in s[1..] ==> c in s;
      SplitWhole(s[1..], sep);
      assert [s[0]] + s[1..] == s;
    }
  }

  function Without(s: string, sep: char): string {
    if s == "" then ""
    else Without(s[..|s| - 1], sep) + if s[|s| - 1] == sep then "" else [s[|s| - 1]]
  }

  lemma {:induction false} WithoutConcat(a: string, b: string, sep: char)
    ensures Without(a + b, sep) == Without(a, sep) + Without(b, sep)
  {
    if b == "" {
      assert a + b == a;
    } else {
      assert (a + b)[..|a + b| - 1] == a + b[..|b| - 1];
      WithoutConcat(a, b[..|b| - 1], sep);
    }
  }

  lemma {:induction false} WithoutNone(s: string, sep: char)
    requires sep !in s
    ensures Without(s, sep) == s
  {
    if s != "" {
      assert forall c :: c in s[..|s| - 1] ==> c in s;
      WithoutNone(s[..|s| - 1], sep);
      assert s[|s| - 1] in s;
      assert s == s[..|s| - 1] + [s[|s| - 1]];
    }
  }
}
