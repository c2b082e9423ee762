/** Two ways of putting commas into a number, and the printer of small positive
    integers. */
module Commas {
  import opened Text

  /** Commas every three characters from the right. */
  function Grouped(s: string): string {
    if |s| <= 3 then s else Grouped(s[..|s| - 3]) + "," + s[|s| - 3..]
  }

  /** Whether a comma is due before the character at an index. */
  predicate Due(length: nat, i: int) {
    i != 0 && (i - length % 3) % 3 == 0
  }

  /** Each character in turn, with a comma before it where one is due. */
  function Inserted(s: string, i: nat): string
    requires i <= |s|
  {
    if i == 0 then ""
    else Inserted(s, i - 1) + (if Due(|s|, i - 1) then "," else "") + [s[i - 1]]
  }

  /** Three characters back from a group boundary a comma is due, unless nothing
      stands before; one or two back it is not. */
  lemma DueAtBoundaries(length: nat, n: int)
    requires n % 3 == length % 3
    ensures !Due(length, n - 1) && !Due(length, n - 2)
    ensures Due(length, n - 3) <==> n != 3
  {
  }

  /** From one group boundary to the next: a comma, unless nothing stands before,
      and three characters. */
  lemma InsertedThree(s: string, n: nat)
    requires 3 <= n <= |s| && n % 3 == |s| % 3
    ensures Inserted(s, n) == Inserted(s, n - 3) + (if n == 3 then "" else ",") + s[n - 3..n]
  {
    DueAtBoundaries(|s|, n);
    hide Due;
    assert Inserted(s, n - 2) == Inserted(s, n - 3) + (if n == 3 then "" else ",") + [s[n - 3]];
    assert Inserted(s, n - 1) == Inserted(s, n - 2) + [s[n - 2]];
    assert s[n - 3..n] == [s[n - 3]] + [s[n - 2]] + [s[n - 1]];
  }

  lemma InsertedFirst(s: string, n: nat)
    requires n < 3 && n <= |s| && n % 3 == |s| % 3
    ensures Inserted(s, n) == s[..n]
  {
    DueAtBoundaries(|s|, n);
    hide Due;
    if n > 0 {
      assert Inserted(s, 1) == s[..1];
    }
  }

  /** The character test puts commas exactly three from the right. */
  lemma {:induction false} InsertedIsGrouped(s: string, n: nat)
    requires n <= |s| && n % 3 == |s| % 3
    ensures Inserted(s, n) == Grouped(s[..n])
  {
    hide Inserted;
    if n < 3 {
      InsertedFirst(s, n);
    } else {
      InsertedIsGrouped(s, n - 3);
      InsertedThree(s, n);
      assert s[..n][..n - 3] == s[..n - 3] && s[..n][n - 3..] == s[n - 3..n];
      if n == 3 {
        assert Inserted(s, n) == "" + "" + s[..3];
      }
    }
  }

  /** The bank letter's version: one character at a time. */
  method FormatWithCommas(n: int) returns (r: string)
    ensures r == Grouped(Decimal(n))
  {
    var s := Decimal(n);
    if |s| <= 3 {
      return s;
    }
    var result: string := "";
    var rem := |s| % 3;
    for i := 0 to |s|
      invariant result == Inserted(s, i)
    {
      if i != 0 && (i - rem) % 3 == 0 {
        result := result + ",";
      }
      result := result + [s[i]];
    }
    InsertedIsGrouped(s, |s|);
    assert s[..|s|] == s;
    r := result;
  }

  lemma GroupedShort(s: string)
    requires |s| <= 3
    ensures Grouped(s) == s
  {
  }

  lemma GroupedLong(s: string, tail: string)
    requires s != "" && |tail| == 3
    ensures Grouped(s + tail) == Grouped(s) + "," + tail
  {
    assert (s + tail)[..|s|] == s && (s + tail)[|s|..] == tail;
  }

  lemma GroupedNonEmpty(s: string)
    ensures Grouped(s) == "" <==> s == ""
  {
  }

  /** The notifications' version: chunks of three after an odd first one. */
  method CommaSep(n: int) returns (r: string)
    ensures r == Grouped(Decimal(n))
  {
    var s := Decimal(n);
    if |s| <= 3 {
      return s;
    }
    hide Grouped, Decimal;
    var out: string := "";
    var rem := |s| % 3;
    if rem > 0 {
      out := out + s[..rem];
    }
    GroupedShort(s[..rem]);
    var i := rem;
    ghost var left := |s| / 3;
    while i < |s|
      invariant rem <= i <= |s| && |s| - i == 3 * left
      invariant out == Grouped(s[..i])
    {
      if |out| > 0 {
        out := out + ",";
      }
      out := out + s[i..i + 3];
      assert s[..i + 3] == s[..i] + s[i..i + 3];
      GroupedNonEmpty(s[..i]);
      if i == 0 { GroupedShort(s[..3]); } else { GroupedLong(s[..i], s[i..i + 3]); }
      i, left := i + 3, left - 1;
    }
    assert s[..|s|] == s;
    r := out;
  }

  lemma LoneComma()
    ensures Without(",", ',') == ""
  {
    assert ","[..0] == "";
  }

  /** Deleting the commas gives back the text. */
  lemma {:induction false} CommasCanBeDeleted(s: string)
    requires ',' !in s
    ensures Without(Grouped(s), ',') == s
  {
    if |s| <= 3 {
      WithoutNone(s, ',');
    } else {
      var head, tail := s[..|s| - 3], s[|s| - 3..];
      assert s == head + tail;
      CommasCanBeDeleted(head);
      WithoutNone(tail, ',');
      WithoutConcat(Grouped(head) + ",", tail, ',');
      WithoutConcat(Grouped(head), ",", ',');
      hide Without;
      LoneComma();
      assert head + "" == head;
    }
  }

  predicate AllDigits(s: string) {
    forall i :: 0 <= i < |s| ==> IsDigit(s[i])
  }

  predicate WellGrouped(groups: seq<string>) {
    && 1 <= |groups|
    && 1 <= |groups[0]| <= 3
    && (forall k :: 0 <= k < |groups| ==> AllDigits(groups[k]))
    && (forall k :: 1 <= k < |groups| ==> |groups[k]| == 3)
  }

  lemma {:induction false} GroupsOfThree(s: string)
    requires s != "" && AllDigits(s)
    ensures WellGrouped(Split(Grouped(s), ','))
  {
    if |s| <= 3 {
      SplitWhole(s, ',');
    } else {
      var head, tail := s[..|s| - 3], s[|s| - 3..];
      GroupsOfThree(head);
      SplitJoin(Grouped(head), ',', tail);
      SplitWhole(tail, ',');
    }
  }

  /** For every number that is not negative: between the commas stand one to three
      digits first and exactly three each time after, and without the commas the
      number is read back. */
  lemma GroupedNumber(n: nat)
    ensures WellGrouped(Split(Grouped(Decimal(n)), ','))
    ensures DigitsValue(Without(Grouped(Decimal(n)), ',')) == n
  {
    DecimalRoundTrip(n);
    GroupsOfThree(Decimal(n));
    CommasCanBeDeleted(Decimal(n));
  }

  /** Deleting the commas from any printed integer gives back its numeral. */
  lemma CommasInNumeral(n: int)
    ensures Without(Grouped(Decimal(n)), ',') == Decimal(n)
  {
    if n < 0 { DigitsRoundTrip(-n); } else { DecimalRoundTrip(n); }
    hide Digits;
    CommasCanBeDeleted(Decimal(n));
  }

  lemma {:induction false} GroupedSign(sign: string, digits: string)
    requires |sign| == 1 && digits != ""
    ensures Grouped(sign + digits) == sign + (if |digits| % 3 == 0 then "," else "") + Grouped(digits)
  {
    hide Grouped;
    if |digits| < 3 {
      GroupedShort(sign + digits);
      GroupedShort(digits);
    } else if |digits| == 3 {
      GroupedShort(sign);
      GroupedShort(digits);
      GroupedLong(sign, digits);
    } else {
      var head, tail := digits[..|digits| - 3], digits[|digits| - 3..];
      GroupedSign(sign, head);
      GroupedLong(head, tail);
      GroupedLong(sign + head, tail);
      assert head + tail == digits && sign + head + tail == sign + digits;
    }
  }

  lemma {:induction false} GroupedHead(s: string)
    requires s != ""
    ensures Grouped(s) != "" && Grouped(s)[0] == s[0]
  {
    if |s| > 3 { GroupedHead(s[..|s| - 3]); }
  }

  /** The sign of a negative number takes a place in the grouping: a comma stands
      right after it exactly when the number of digits is a multiple of three.
      Minus one hundred comes out as "-,100". */
  lemma SignTakesAPlace(n: int)
    requires n < 0
    ensures Grouped(Decimal(n)) == "-" + (if |Digits(-n)| % 3 == 0 then "," else "") + Grouped(Digits(-n))
    ensures 2 <= |Grouped(Decimal(n))| && (Grouped(Decimal(n))[..2] == "-," <==> |Digits(-n)| % 3 == 0)
    ensures Grouped(Decimal(-100)) == "-,100"
  {
    MinusOneHundred();
    DigitsRoundTrip(-n);
    var digits := Digits(-n);
    hide Digits;
    GroupedSign("-", digits);
    GroupedHead(digits);
    hide Grouped;
    if |digits| % 3 == 0 {
      assert Grouped(Decimal(n))[..2] == "-,";
    } else {
      assert Grouped(Decimal(n))[1] == digits[0] && IsDigit(digits[0]);
    }
  }

  lemma MinusOneHundred()
    ensures Grouped(Decimal(-100)) == "-,100"
  {
    assert Digits(1) == "1" && Digits(10) == "10" && Digits(100) == "100";
    assert Decimal(-100) == "-100";
    assert "-100"[..1] == "-" && "-100"[1..] == "100";
  }

  // ---------- small integers ----------

  function Power10(k: nat): nat {
    if k == 0 then 1 else 10 * Power10(k - 1)
  }

  /** Digits written from the end of a twenty-byte buffer. A negative number
      leaves the buffer empty. */
  method Itoa(n: int) returns (r: string)
    requires n < 0x8000_0000_0000_0000
    ensures r == if n < 0 then "" else Decimal(n)
  {
    if n == 0 {
      return "0";
    }
    var buf := new char[20](_ => '\0');
    var pos := buf.Length;
    var m := n;
    hide Digits, Decimal, Power10;
    ghost var text: string := [];
    assert Power10(20) == 100000000000000000000 by { TenToTheTwenty(); }
    assert n > 0 ==> Digits(n) == Digits(n) + text;
    while m > 0
      invariant 0 <= pos <= 20 && buf[pos..] == text
      invariant n < 0 ==> m == n && pos == 20
      invariant n > 0 ==> 0 <= m < Power10(pos) && Digits(n) == Digits(m) + text
    {
      PlaceLeft(m, pos);
      pos := pos - 1;
      DigitsStep(m, text);
      buf[pos] := DigitChar(m % 10);
      text := [DigitChar(m % 10)] + text;
      m := m / 10;
    }
    r := buf[pos..];
    DecimalOf(n);
    assert n > 0 ==> "" + text == text;
  }

  lemma DecimalOf(n: int)
    ensures n > 0 ==> Decimal(n) == Digits(n)
    ensures Digits(0) == ""
  {
  }

  lemma DigitsStep(m: nat, tail: string)
    requires 0 < m
    ensures Digits(m) + tail == Digits(m / 10) + ([DigitChar(m % 10)] + tail)
  {
  }

  lemma PlaceLeft(m: nat, places: nat)
    requires 0 < m < Power10(places)
    ensures 0 < places && m / 10 < Power10(places - 1)
  {
  }

  lemma TenToTheTwenty()
    ensures Power10(20) == 100000000000000000000
  {
    assert Power10(5) == 100000;
    assert Power10(10) == 10000000000;
    assert Power10(15) == 1000000000000000;
  }
}
