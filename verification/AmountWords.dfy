/** The amount of a bank letter in words and in figures. Reading either back
    gives the amount. */
module AmountWords {
  import opened Basics
  import opened Text
  import opened Commas

  const ONES: seq<string> := [
    "", "One", "Two", "Three", "Four", "Five", "Six", "Seven", "Eight", "Nine",
    "Ten", "Eleven", "Twelve", "Thirteen", "Fourteen", "Fifteen",
    "Sixteen", "Seventeen", "Eighteen", "Nineteen"
  ]

  const TENS: seq<string> := [
    "", "", "Twenty", "Thirty", "Forty", "Fifty", "Sixty", "Seventy", "Eighty", "Ninety"
  ]

  /** A scale word after its count, followed by what is left, if anything. */
  function Scaled(count: string, scale: string, rest: string, remainder: int): string {
    var prefix := count + " " + scale;
    if remainder != 0 then prefix + " " + rest else prefix
  }

  /** An integer in English words; nothing at all for zero. */
  function IntegerInWords(n: int): string
    decreases n < 0, if n < 0 then -n else n
  {
    if n == 0 then ""
    else if n < 0 then "Negative " + IntegerInWords(-n)
    else if n < 20 then ONES[n]
    else if n < 100 then
      if n % 10 != 0 then TENS[n / 10] + " " + ONES[n % 10] else TENS[n / 10]
    else if n < 1_000 then Scaled(ONES[n / 100], "Hundred", IntegerInWords(n % 100), n % 100)
    else if n < 1_000_000 then Scaled(IntegerInWords(n / 1_000), "Thousand", IntegerInWords(n % 1_000), n % 1_000)
    else if n < 1_000_000_000 then
      Scaled(IntegerInWords(n / 1_000_000), "Million", IntegerInWords(n % 1_000_000), n % 1_000_000)
    else
      Scaled(IntegerInWords(n / 1_000_000_000), "Billion", IntegerInWords(n % 1_000_000_000), n % 1_000_000_000)
  }

  /** Division and remainder that truncate toward zero. */
  function Quotient(a: int, b: int): int
    requires b > 0
  {
    if a < 0 then -((-a) / b) else a / b
  }

  function Remainder(a: int, b: int): int
    requires b > 0
  {
    a - b * Quotient(a, b)
  }

  function NairaText(naira: int): string {
    if IntegerInWords(naira) == "" then "Zero" else IntegerInWords(naira)
  }

  function KoboText(rest: int): string {
    if rest > 0 then " and " + TwoDigits(rest) + "/100 Kobo" else " Only"
  }

  /** An amount in kobo: whole naira in words, then the kobo over a hundred. A
      negative remainder is not printed. */
  function AmountInWords(kobo: int): string {
    NairaText(Quotient(kobo, 100)) + " Naira" + KoboText(Remainder(kobo, 100))
  }

  // ---------- the words as a list ----------

  /** The words of a number that is not negative. */
  function Tokens(n: nat): seq<string> {
    if n == 0 then []
    else if n < 20 then [ONES[n]]
    else if n < 100 then [TENS[n / 10]] + Tokens(n % 10)
    else if n < 1_000 then [ONES[n / 100], "Hundred"] + Tokens(n % 100)
    else if n < 1_000_000 then Tokens(n / 1_000) + ["Thousand"] + Tokens(n % 1_000)
    else if n < 1_000_000_000 then Tokens(n / 1_000_000) + ["Million"] + Tokens(n % 1_000_000)
    else Tokens(n / 1_000_000_000) + ["Billion"] + Tokens(n % 1_000_000_000)
  }

  lemma WordsHaveNoSpace()
    ensures forall i :: 0 <= i < 20 ==> ' ' !in ONES[i]
    ensures forall i :: 0 <= i < 10 ==> ' ' !in TENS[i]
  {
  }

  lemma SplitScaled(count: string, scale: string, rest: string, remainder: int)
    requires ' ' !in scale
    ensures Split(Scaled(count, scale, rest, remainder), ' ')
            == Split(count, ' ') + [scale] + if remainder != 0 then Split(rest, ' ') else []
  {
    SplitJoin(count, ' ', scale);
    SplitWhole(scale, ' ');
    SplitJoin(count + " " + scale, ' ', rest);
  }

  /** The largest scale a number of at least a thousand uses, and its word. */
  function Unit(n: nat): (u: nat)
    ensures 0 < u
  {
    if n < 1_000_000 then 1_000 else if n < 1_000_000_000 then 1_000_000 else 1_000_000_000
  }

  function UnitWord(n: nat): string {
    if n < 1_000_000 then "Thousand" else if n < 1_000_000_000 then "Million" else "Billion"
  }

  lemma ByUnit(n: nat)
    requires 1_000 <= n
    ensures 0 < n / Unit(n) < n && 0 <= n % Unit(n) < Unit(n) <= n && (n / Unit(n)) * Unit(n) + n % Unit(n) == n
    ensures IntegerInWords(n)
              == Scaled(IntegerInWords(n / Unit(n)), UnitWord(n), IntegerInWords(n % Unit(n)), n % Unit(n))
    ensures Tokens(n) == Tokens(n / Unit(n)) + [UnitWord(n)] + Tokens(n % Unit(n))
    ensures ' ' !in UnitWord(n)
    ensures n < 1_000_000_000 ==> n / Unit(n) < 1_000
  {
  }

  /** Split at spaces, the printed text is that list. */
  lemma {:induction false} WordsAreTokens(n: nat)
    requires n > 0
    ensures Split(IntegerInWords(n), ' ') == Tokens(n)
  {
    WordsHaveNoSpace();
    hide Split, Scaled, Unit, UnitWord;
    if n < 20 {
      SplitWhole(ONES[n], ' ');
    } else if n < 100 {
      SplitWhole(TENS[n / 10], ' ');
      if n % 10 != 0 {
        SplitWhole(ONES[n % 10], ' ');
        SplitJoin(TENS[n / 10], ' ', ONES[n % 10]);
      }
    } else if n < 1_000 {
      SplitWhole(ONES[n / 100], ' ');
      if n % 100 != 0 { WordsAreTokens(n % 100); }
      SplitScaled(ONES[n / 100], "Hundred", IntegerInWords(n % 100), n % 100);
    } else {
      var count, rest := n / Unit(n), n % Unit(n);
      ByUnit(n);
      hide IntegerInWords;
      WordsAreTokens(count);
      if rest != 0 { WordsAreTokens(rest); }
      SplitScaled(IntegerInWords(count), UnitWord(n), IntegerInWords(rest), rest);
    }
  }

  // ---------- reading back ----------

  /** The value of an English number word below twenty; nothing for any other. */
  function SmallValue(w: string): nat {
    if w == "One" then 1 else if w == "Two" then 2 else if w == "Three" then 3 else if w == "Four" then 4
    else if w == "Five" then 5 else if w == "Six" then 6 else if w == "Seven" then 7 else if w == "Eight" then 8
    else if w == "Nine" then 9 else if w == "Ten" then 10 else if w == "Eleven" then 11 else if w == "Twelve" then 12
    else if w == "Thirteen" then 13 else if w == "Fourteen" then 14 else if w == "Fifteen" then 15
    else if w == "Sixteen" then 16 else if w == "Seventeen" then 17 else if w == "Eighteen" then 18
    else if w == "Nineteen" then 19 else 0
  }

  /** The value of the words for the tens. */
  function TensValue(w: string): nat {
    if w == "Twenty" then 20 else if w == "Thirty" then 30 else if w == "Forty" then 40 else if w == "Fifty" then 50
    else if w == "Sixty" then 60 else if w == "Seventy" then 70 else if w == "Eighty" then 80
    else if w == "Ninety" then 90 else 0
  }

  /** The value of a word below a hundred, from the English and not from the
      printer's tables. */
  function WordValue(w: string): nat {
    SmallValue(w) + TensValue(w)
  }

  /** The value of the words of a number below a hundred: one word, or a word for
      the tens and one below ten, in that order. Anything else is worth nothing. */
  function WordsValue(ts: seq<string>): nat {
    if |ts| == 1 then WordValue(ts[0])
    else if |ts| == 2 && 0 < TensValue(ts[0]) && 0 < SmallValue(ts[1]) < 10 then TensValue(ts[0]) + SmallValue(ts[1])
    else 0
  }

  /** Where a word stands last, or the length of the list. */
  function LastIndex(ts: seq<string>, w: string): (i: nat)
    ensures i <= |ts|
    ensures w in ts ==> i < |ts|
  {
    if ts == [] then 0
    else if ts[|ts| - 1] == w then |ts| - 1
    else if LastIndex(ts[..|ts| - 1], w) == |ts| - 1 then |ts|
    else LastIndex(ts[..|ts| - 1], w)
  }

  /** Read a list of words: split at the last Billion, else the last Million,
      Thousand or Hundred, else add up the words. */
  function Read(ts: seq<string>): nat
    decreases |ts|
  {
    var b, m, t, h := LastIndex(ts, "Billion"), LastIndex(ts, "Million"), LastIndex(ts, "Thousand"),
        LastIndex(ts, "Hundred");
    if b < |ts| then Read(ts[..b]) * 1_000_000_000 + Read(ts[b + 1..])
    else if m < |ts| then Read(ts[..m]) * 1_000_000 + Read(ts[m + 1..])
    else if t < |ts| then Read(ts[..t]) * 1_000 + Read(ts[t + 1..])
    else if h < |ts| then Read(ts[..h]) * 100 + Read(ts[h + 1..])
    else WordsValue(ts)
  }

  lemma {:induction false} LastIndexAbsent(ts: seq<string>, w: string)
    requires w !in ts
    ensures LastIndex(ts, w) == |ts|
  {
    if ts != [] {
      assert forall x :: x in ts[..|ts| - 1] ==> x in ts;
      LastIndexAbsent(ts[..|ts| - 1], w);
    }
  }

  lemma {:induction false} LastIndexMiddle(a: seq<string>, w: string, b: seq<string>)
    requires w !in b
    ensures LastIndex(a + [w] + b, w) == |a|
  {
    var ts := a + [w] + b;
    if b != [] {
      assert ts[..|ts| - 1] == a + [w] + b[..|b| - 1];
      assert forall x :: x in b[..|b| - 1] ==> x in b;
      LastIndexMiddle(a, w, b[..|b| - 1]);
    }
  }

  // ---------- which scale words occur ----------

  predicate Plain(w: string) {
    w != "Billion" && w != "Million" && w != "Thousand" && w != "Hundred"
  }

  lemma WordsArePlain()
    ensures forall i :: 0 <= i < 20 ==> Plain(ONES[i])
    ensures forall i :: 0 <= i < 10 ==> Plain(TENS[i])
  {
  }

  /** A number below a scale does not use its word. */
  lemma {:induction false} ScalesAbsent(n: nat)
    ensures n < 1_000_000_000 ==> "Billion" !in Tokens(n)
    ensures n < 1_000_000 ==> "Million" !in Tokens(n)
    ensures n < 1_000 ==> "Thousand" !in Tokens(n)
    ensures n < 100 ==> "Hundred" !in Tokens(n)
  {
    WordsArePlain();
    if n >= 20 {
      if n < 100 { ScalesAbsent(n % 10); }
      else if n < 1_000 { ScalesAbsent(n % 100); }
      else if n < 1_000_000 { ScalesAbsent(n / 1_000); ScalesAbsent(n % 1_000); }
      else if n < 1_000_000_000 { ScalesAbsent(n / 1_000_000); ScalesAbsent(n % 1_000_000); }
    }
  }

  // ---------- every word has one value ----------

  lemma SmallValues()
    ensures forall n :: 1 <= n < 10 ==> SmallValue(ONES[n]) == n && TensValue(ONES[n]) == 0
  {
  }

  lemma TeenValues()
    ensures forall n :: 10 <= n < 20 ==> SmallValue(ONES[n]) == n && TensValue(ONES[n]) == 0
  {
  }

  lemma TensValues()
    ensures forall n :: 2 <= n < 10 ==> TensValue(TENS[n]) == 10 * n && SmallValue(TENS[n]) == 0
  {
  }

  lemma OnesReadBack(n: nat)
    requires 1 <= n < 20
    ensures SmallValue(ONES[n]) == n && TensValue(ONES[n]) == 0
  {
    SmallValues();
    TeenValues();
  }

  lemma TensReadBack(n: nat)
    requires 2 <= n < 10
    ensures TensValue(TENS[n]) == 10 * n && SmallValue(TENS[n]) == 0
  {
    TensValues();
  }

  // ---------- the round trip ----------

  lemma ReadPlain(ts: seq<string>)
    requires "Billion" !in ts && "Million" !in ts && "Thousand" !in ts && "Hundred" !in ts
    ensures Read(ts) == WordsValue(ts)
  {
    LastIndexAbsent(ts, "Billion");
    LastIndexAbsent(ts, "Million");
    LastIndexAbsent(ts, "Thousand");
    LastIndexAbsent(ts, "Hundred");
    hide LastIndex;
  }

  lemma ReadHundred(a: seq<string>, b: seq<string>)
    requires "Billion" !in a + b && "Million" !in a + b && "Thousand" !in a + b && "Hundred" !in b
    ensures Read(a + ["Hundred"] + b) == Read(a) * 100 + Read(b)
  {
    var ts := a + ["Hundred"] + b;
    LastIndexAbsent(ts, "Billion");
    LastIndexAbsent(ts, "Million");
    LastIndexAbsent(ts, "Thousand");
    LastIndexMiddle(a, "Hundred", b);
    hide LastIndex;
    assert ts[..|a|] == a && ts[|a| + 1..] == b;
  }

  lemma ReadThousand(a: seq<string>, b: seq<string>)
    requires "Billion" !in a + b && "Million" !in a + b && "Thousand" !in b
    ensures Read(a + ["Thousand"] + b) == Read(a) * 1_000 + Read(b)
  {
    var ts := a + ["Thousand"] + b;
    LastIndexAbsent(ts, "Billion");
    LastIndexAbsent(ts, "Million");
    LastIndexMiddle(a, "Thousand", b);
    hide LastIndex;
    assert ts[..|a|] == a && ts[|a| + 1..] == b;
  }

  lemma ReadMillion(a: seq<string>, b: seq<string>)
    requires "Billion" !in a + b && "Million" !in b
    ensures Read(a + ["Million"] + b) == Read(a) * 1_000_000 + Read(b)
  {
    var ts := a + ["Million"] + b;
    LastIndexAbsent(ts, "Billion");
    LastIndexMiddle(a, "Million", b);
    hide LastIndex;
    assert ts[..|a|] == a && ts[|a| + 1..] == b;
  }

  lemma ReadBillion(a: seq<string>, b: seq<string>)
    requires "Billion" !in b
    ensures Read(a + ["Billion"] + b) == Read(a) * 1_000_000_000 + Read(b)
  {
    var ts := a + ["Billion"] + b;
    LastIndexMiddle(a, "Billion", b);
    hide LastIndex;
    assert ts[..|a|] == a && ts[|a| + 1..] == b;
  }

  lemma ReadSmall(n: nat)
    requires n < 100
    ensures Read(Tokens(n)) == n
  {
    ScalesAbsent(n);
    ReadPlain(Tokens(n));
    hide Read, SmallValue, TensValue;
    if 0 < n < 20 {
      OnesReadBack(n);
      assert Tokens(n) == [ONES[n]];
    } else if n >= 20 {
      TensReadBack(n / 10);
      if n % 10 != 0 {
        OnesReadBack(n % 10);
        assert Tokens(n) == [TENS[n / 10], ONES[n % 10]];
      } else {
        assert Tokens(n) == [TENS[n / 10]];
      }
    }
  }

  lemma ReadHundreds(n: nat)
    requires 100 <= n < 1_000
    ensures Read(Tokens(n)) == n
  {
    ScalesAbsent(n / 100);
    ScalesAbsent(n % 100);
    assert Tokens(n) == Tokens(n / 100) + ["Hundred"] + Tokens(n % 100);
    hide Tokens, Read;
    ReadHundred(Tokens(n / 100), Tokens(n % 100));
    ReadSmall(n / 100);
    ReadSmall(n % 100);
  }

  lemma ReadScale(n: nat)
    requires 1_000 <= n
    ensures Read(Tokens(n)) == Read(Tokens(n / Unit(n))) * Unit(n) + Read(Tokens(n % Unit(n)))
  {
    var count, rest := Tokens(n / Unit(n)), Tokens(n % Unit(n));
    ByUnit(n);
    ScalesAbsent(n / Unit(n));
    ScalesAbsent(n % Unit(n));
    hide Tokens, Read;
    if n < 1_000_000 {
      ReadThousand(count, rest);
    } else if n < 1_000_000_000 {
      ReadMillion(count, rest);
    } else {
      ReadBillion(count, rest);
    }
  }

  /** Reading the words of any number that is not negative gives the number, with
      any nesting of Billion. */
  lemma {:induction false} ReadingUndoesWords(n: nat)
    ensures Read(Tokens(n)) == n
  {
    if n < 100 {
      ReadSmall(n);
    } else if n < 1_000 {
      ReadHundreds(n);
    } else {
      ByUnit(n);
      ReadScale(n);
      hide Unit, Read, Tokens;
      ReadingUndoesWords(n / Unit(n));
      ReadingUndoesWords(n % Unit(n));
    }
  }

  // ---------- amounts ----------

  /** So is the printed text read back to its number, whatever its size. */
  lemma PrintedWordsReadBack(n: nat)
    ensures n > 0 ==> Read(Split(IntegerInWords(n), ' ')) == n
    ensures IntegerInWords(n) == "" <==> n == 0
  {
    if n > 0 {
      WordsAreTokens(n);
      ReadingUndoesWords(n);
      PrintsSomething(n);
    }
  }

  /** The text is built up piece by piece. */
  method BuildAmountInWords(kobo: int) returns (sb: string)
    ensures sb == AmountInWords(kobo)
    ensures ReadAmount(sb) == Some(Denoted(kobo))
  {
    ReadingUndoesAmount(kobo);
    hide ReadAmount, Denoted;
    hide IntegerInWords, TwoDigits;
    var koboPart := Remainder(kobo, 100);
    var nairaWords := IntegerInWords(Quotient(kobo, 100));
    sb := "";
    if nairaWords == "" {
      sb := sb + "Zero";
    } else {
      sb := sb + nairaWords;
    }
    sb := sb + " Naira";
    if koboPart > 0 {
      sb := sb + " and " + TwoDigits(koboPart) + "/100 Kobo";
    } else {
      sb := sb + " Only";
    }
  }

  function ReadNaira(ts: seq<string>): int {
    if ts == ["Zero"] then 0
    else if ts != [] && ts[0] == "Negative" then -(Read(ts[1..]) as int)
    else Read(ts)
  }

  /** Read an amount back, in kobo: a number, "Naira", and either "Only" or "and",
      two digits over a hundred and "Kobo". No other text is an amount. */
  function ReadAmount(s: string): Option<int> {
    var ts := Split(s, ' ');
    var n := |ts|;
    if 3 <= n && ts[n - 2..] == ["Naira", "Only"] then Some(100 * ReadNaira(ts[..n - 2]))
    else if 5 <= n && ts[n - 4] == "Naira" && ts[n - 3] == "and" && |ts[n - 2]| == 6 && ts[n - 2][2..] == "/100"
            && ts[n - 1] == "Kobo"
    then Some(100 * ReadNaira(ts[..n - 4]) + DigitsValue(ts[n - 2][..2]))
    else None
  }

  /** The naira words as a list. */
  function NairaTokens(naira: int): seq<string> {
    if naira == 0 then ["Zero"] else if naira < 0 then ["Negative"] + Tokens(-naira) else Tokens(naira)
  }

  lemma {:induction false} FirstToken(n: nat)
    requires n > 0
    ensures Tokens(n) != [] && Tokens(n)[0] != "Zero" && Tokens(n)[0] != "Negative"
  {
    if n >= 1_000 {
      ByUnit(n);
      FirstToken(n / Unit(n));
    } else {
      NotZeroNorNegative();
    }
  }

  lemma NotZeroNorNegative()
    ensures forall i :: 0 <= i < 20 ==> ONES[i] != "Zero" && ONES[i] != "Negative"
    ensures forall i :: 0 <= i < 10 ==> TENS[i] != "Zero" && TENS[i] != "Negative"
  {
  }

  lemma NairaReadBack(naira: int)
    ensures ReadNaira(NairaTokens(naira)) == naira
  {
    hide Tokens, Read;
    if naira > 0 {
      FirstToken(naira);
      ReadingUndoesWords(naira);
    } else if naira < 0 {
      ReadingUndoesWords(-naira);
      assert (["Negative"] + Tokens(-naira))[1..] == Tokens(-naira);
    }
  }

  lemma NegativePrefix(n: int)
    requires n < 0
    ensures IntegerInWords(n) == "Negative" + " " + IntegerInWords(-n)
  {
    assert "Negative" + " " == "Negative ";
  }

  lemma NegativeTokens(n: int)
    requires n < 0
    ensures Split(IntegerInWords(n), ' ') == ["Negative"] + Tokens(-n)
    ensures IntegerInWords(n) != ""
  {
    hide IntegerInWords, Tokens, Split;
    SplitWhole("Negative", ' ');
    WordsAreTokens(-n);
    NegativePrefix(n);
    SplitJoin("Negative", ' ', IntegerInWords(-n));
  }

  lemma NairaTextTokens(naira: int)
    ensures Split(NairaText(naira), ' ') == NairaTokens(naira)
  {
    if naira == 0 {
      SplitWhole("Zero", ' ');
      assert IntegerInWords(0) == "";
    }
    hide IntegerInWords, Tokens, Split;
    if naira > 0 {
      WordsAreTokens(naira);
      PrintsSomething(naira);
    } else if naira < 0 {
      NegativeTokens(naira);
    }
  }

  lemma PrintsSomething(n: nat)
    requires n > 0
    ensures IntegerInWords(n) != ""
  {
    WordsNotEmpty();
  }

  lemma WordsNotEmpty()
    ensures forall i :: 1 <= i < 20 ==> ONES[i] != ""
    ensures forall i :: 2 <= i < 10 ==> TENS[i] != ""
  {
  }

  function TailText(rest: int): string {
    "Naira" + KoboText(rest)
  }

  function Tail(rest: int): seq<string> {
    if rest > 0 then ["Naira", "and", TwoDigits(rest) + "/100", "Kobo"] else ["Naira", "Only"]
  }

  lemma SplitFour(a: string, b: string, c: string, d: string)
    requires ' ' !in a && ' ' !in b && ' ' !in c && ' ' !in d
    ensures Split(a + " " + (b + " " + (c + " " + d)), ' ') == [a, b, c, d]
    ensures Split(a + " " + b, ' ') == [a, b]
  {
    SplitWhole(a, ' ');
    SplitWhole(b, ' ');
    SplitWhole(c, ' ');
    SplitWhole(d, ' ');
    hide Split;
    SplitJoin(c, ' ', d);
    SplitJoin(b, ' ', c + " " + d);
    SplitJoin(a, ' ', b + " " + (c + " " + d));
    SplitJoin(a, ' ', b);
  }

  lemma Pieces()
    ensures " and " == " " + "and" + " " && "/100 Kobo" == "/100" + " " + "Kobo" && " Only" == " " + "Only"
    ensures ' ' !in "Naira" && ' ' !in "and" && ' ' !in "/100" && ' ' !in "Kobo" && ' ' !in "Only"
  {
  }

  lemma Regroup(a: string, sp: string, b: string, c: string, d: string, e: string)
    ensures a + (sp + b + sp + c + (d + sp + e)) == a + sp + (b + sp + ((c + d) + sp + e))
    ensures a + (sp + b) == a + sp + b
  {
  }

  lemma TailTokens(rest: int)
    requires rest < 100
    ensures Split(TailText(rest), ' ') == Tail(rest)
  {
    hide Split;
    Pieces();
    if rest > 0 {
      TwoDigitsShape(rest);
      NoSpaceInDigits(rest / 10, rest % 10);
      hide TwoDigits;
      var fraction := TwoDigits(rest) + "/100";
      SplitFour("Naira", "and", fraction, "Kobo");
      Regroup("Naira", " ", "and", TwoDigits(rest), "/100", "Kobo");
    } else {
      SplitFour("Naira", "Only", "", "");
      Regroup("Naira", " ", "Only", "", "", "");
    }
  }

  lemma NoSpaceInDigits(a: int, b: int)
    requires 0 <= a < 10 && 0 <= b < 10
    ensures ' ' !in [DigitChar(a), DigitChar(b)]
  {
  }

  lemma AmountText(kobo: int)
    ensures AmountInWords(kobo) == NairaText(Quotient(kobo, 100)) + " " + TailText(Remainder(kobo, 100))
  {
    hide NairaText, Quotient, Remainder, KoboText;
  }

  lemma AmountTokens(kobo: int)
    ensures Remainder(kobo, 100) < 100
    ensures Split(AmountInWords(kobo), ' ') == NairaTokens(Quotient(kobo, 100)) + Tail(Remainder(kobo, 100))
  {
    AmountText(kobo);
    var naira, rest := Quotient(kobo, 100), Remainder(kobo, 100);
    hide NairaText, TailText, AmountInWords, Quotient, Remainder, Split, NairaTokens, Tail, KoboText;
    NairaTextTokens(naira);
    TailTokens(rest);
    SplitJoin(NairaText(naira), ' ', TailText(rest));
  }

  /** The amount the words stand for: the amount itself, or for a negative one
      the whole naira of it. */
  function Denoted(kobo: int): int {
    if kobo >= 0 then kobo else 100 * Quotient(kobo, 100)
  }

  lemma TwoDigitsReadBack(n: int)
    requires 0 <= n < 100
    ensures DigitsValue(TwoDigits(n)) == n
  {
    var s := TwoDigits(n);
    TwoDigitsShape(n);
    assert s[..1][..0] == "" && DigitsValue("") == 0;
    assert DigitsValue(s[..1]) == DigitValue(s[0]);
    assert DigitsValue(s) == DigitsValue(s[..1]) * 10 + DigitValue(s[1]);
  }

  lemma ReadWhole(s: string, head: seq<string>)
    requires head != [] && Split(s, ' ') == head + ["Naira", "Only"]
    ensures ReadAmount(s) == Some(100 * ReadNaira(head))
  {
    hide Split, ReadNaira;
    var ts := head + ["Naira", "Only"];
    assert ts[..|ts| - 2] == head && ts[|ts| - 2..] == ["Naira", "Only"];
  }

  lemma ReadWithKobo(s: string, head: seq<string>, digits: string)
    requires head != [] && |digits| == 2 && Split(s, ' ') == head + ["Naira", "and", digits + "/100", "Kobo"]
    ensures ReadAmount(s) == Some(100 * ReadNaira(head) + DigitsValue(digits))
  {
    hide Split, ReadNaira, DigitsValue;
    var ts, fraction := head + ["Naira", "and", digits + "/100", "Kobo"], digits + "/100";
    var n := |ts|;
    assert ts[n - 4] == "Naira" && ts[n - 3] == "and" && ts[n - 2] == fraction && ts[n - 1] == "Kobo";
    assert "Kobo" != "Only";
    assert ts[n - 2..][1] != "Only";
    assert ts[..n - 4] == head && fraction[..2] == digits && fraction[2..] == "/100";
  }

  lemma NairaTokensNotEmpty(naira: int)
    ensures NairaTokens(naira) != []
  {
    if naira > 0 { FirstToken(naira); }
  }

  /** Reading an amount back gives what it denotes: for every amount that is not
      negative, the amount to the kobo. */
  lemma ReadingUndoesAmount(kobo: int)
    ensures ReadAmount(AmountInWords(kobo)) == Some(Denoted(kobo))
  {
    var naira, rest := Quotient(kobo, 100), Remainder(kobo, 100);
    AmountTokens(kobo);
    NairaReadBack(naira);
    NairaTokensNotEmpty(naira);
    hide Split, AmountInWords, NairaTokens, ReadNaira, ReadAmount, TwoDigits;
    if rest > 0 {
      TwoDigitsReadBack(rest);
      TwoDigitsShape(rest);
      ReadWithKobo(AmountInWords(kobo), NairaTokens(naira), TwoDigits(rest));
    } else {
      ReadWhole(AmountInWords(kobo), NairaTokens(naira));
    }
  }

  /** Two amounts print the same words exactly when they denote the same. So no
      two amounts that are not negative ever share their words. */
  lemma SameWordsExactly(j: int, k: int)
    ensures AmountInWords(j) == AmountInWords(k) <==> Denoted(j) == Denoted(k)
    ensures 0 <= j && 0 <= k && AmountInWords(j) == AmountInWords(k) ==> j == k
  {
    ReadingUndoesAmount(j);
    ReadingUndoesAmount(k);
    hide ReadAmount, IntegerInWords;
    if Denoted(j) == Denoted(k) && j != k {
      assert Quotient(j, 100) == Quotient(k, 100);
    }
  }

  // ---------- figures ----------

  const NAIRA_SIGN: char := '\U{20A6}'

  function Figures(naira: int, kobo: int): string {
    [NAIRA_SIGN] + Grouped(Decimal(naira)) + "." + TwoDigits(kobo)
  }

  /** Read figures back, in kobo: the naira sign, grouped digits, a point and two
      digits. */
  function ReadFigures(s: string): Option<int> {
    if |s| < 5 || s[0] != '\U{20A6}' || s[|s| - 3] != '.' then None
    else Some(100 * DigitsValue(Without(s[1..|s| - 3], ',')) + DigitsValue(s[|s| - 2..]))
  }

  lemma FiguresReadBack(naira: int, kobo: int)
    requires 0 <= naira && 0 <= kobo < 100
    ensures ReadFigures(Figures(naira, kobo)) == Some(100 * naira + kobo)
  {
    hide Grouped, Decimal, TwoDigits, DigitsValue, Without, Split, WellGrouped;
    GroupedNumber(naira);
    DecimalRoundTrip(naira);
    GroupedNonEmpty(Decimal(naira));
    TwoDigitsReadBack(kobo);
    TwoDigitsShape(kobo);
    var s, body, end := Figures(naira, kobo), Grouped(Decimal(naira)), TwoDigits(kobo);
    assert s == [NAIRA_SIGN] + body + "." + end && |end| == 2;
    assert s[1..|s| - 3] == body && s[|s| - 2..] == end && s[|s| - 3] == '.';
  }

  method FormatNairaFigures(naira: int, kobo: int) returns (r: string)
    ensures r == Figures(naira, kobo)
    ensures 0 <= naira && 0 <= kobo < 100 ==> ReadFigures(r) == Some(100 * naira + kobo)
  {
    hide ReadFigures, Grouped, Decimal, TwoDigits;
    if 0 <= naira && 0 <= kobo < 100 { FiguresReadBack(naira, kobo); }
    var formatted := FormatWithCommas(naira);
    r := [NAIRA_SIGN] + formatted + "." + TwoDigits(kobo);
  }

  /** Words and figures of a bank letter stand for the same amount. */
  lemma WordsAndFiguresAgree(kobo: nat)
    ensures ReadAmount(AmountInWords(kobo)) == ReadFigures(Figures(kobo / 100, kobo % 100)) == Some(kobo as int)
  {
    hide Figures, AmountInWords, ReadAmount, ReadFigures;
    FiguresReadBack(kobo / 100, kobo % 100);
    ReadingUndoesAmount(kobo);
  }
}
