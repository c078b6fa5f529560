/** The concrete cases the calculator's unit tests pin down, derived from the model. */
module Scenarios {
  import opened Wrappers
  import opened Numbers
  import opened Decimal
  import opened Rendering
  import opened Parse
  import opened Tokens
  import opened Calculator

  lemma ParseDigit(c: char)
    requires IsDigit(c)
    ensures ParseFloat([c]) == Finite(DigitValue(c) as real)
  {
    var s := [c];
    assert LeadingSpace(s) == 0 by { assert !IsStrWhiteSpace(c); }
    assert s[0..] == s;
    assert DigitRun(s) == 1 by { assert DigitRun(s[1..]) == 0; }
    assert s[..1] == s;
    assert DigitsValue(s) == DigitValue(c) by { assert s[..0] == []; }
    assert !(InfinityText <= s);
  }

  lemma SplitLeadingToken(c: char, sep: char, rest: string)
    requires !IsSeparator(c) && IsSeparator(sep) && rest != [] && !IsSeparator(rest[0])
    ensures Split([c, sep] + rest) == [[c]] + Split(rest)
  {
    var s := [c, sep] + rest;
    assert TokenEnd(s) == 1 by { assert TokenEnd(s[1..]) == 0; }
    assert RunEnd(s, 1) == 2 by { assert RunEnd(s, 2) == 2; }
    assert s[2..] == rest && s[..1] == [c];
  }

  lemma SplitWithoutSeparator(s: string)
    requires NoSeparator(s)
    ensures Split(s) == [s]
  {
  }

  lemma SplitSingle(c: char)
    requires !IsSeparator(c)
    ensures Split([c]) == [[c]]
  {
  }

  lemma SplitThreeTokens(a: char, b: char, c: char, s1: char, s2: char)
    requires !IsSeparator(a) && !IsSeparator(b) && !IsSeparator(c)
    requires IsSeparator(s1) && IsSeparator(s2)
    ensures Split([a, s1, b, s2, c]) == [[a], [b], [c]]
  {
    var t2 := [b, s2] + [c];
    var t1 := [a, s1] + t2;
    SplitSingle(c);
    SplitLeadingToken(b, s2, [c]);
    assert Split(t2) == [[b], [c]];
    SplitLeadingToken(a, s1, t2);
    assert Split(t1) == [[a], [b], [c]];
    assert t1 == [a, s1, b, s2, c];
  }

  lemma SplitFourTokens(a: char, b: char, c: char, d: char, s1: char, s2: char, s3: char)
    requires !IsSeparator(a) && !IsSeparator(b) && !IsSeparator(c) && !IsSeparator(d)
    requires IsSeparator(s1) && IsSeparator(s2) && IsSeparator(s3)
    ensures Split([a, s1, b, s2, c, s3, d]) == [[a], [b], [c], [d]]
  {
    var t2 := [b, s2, c, s3, d];
    var t := [a, s1, b, s2, c, s3, d];
    assert t == [a, s1] + t2;
    SplitThreeTokens(b, c, d, s2, s3);
    SplitLeadingToken(a, s1, t2);
  }

  lemma ParseFourDigits(a: char, b: char, c: char, d: char)
    requires IsDigit(a) && IsDigit(b) && IsDigit(c) && IsDigit(d)
    ensures ParseAll([[a], [b], [c], [d]]) ==
              [Finite(DigitValue(a) as real), Finite(DigitValue(b) as real),
               Finite(DigitValue(c) as real), Finite(DigitValue(d) as real)]
  {
    ParseDigit(a);
    ParseDigit(b);
    ParseDigit(c);
    ParseDigit(d);
  }

  /** Four one-digit tokens between separators are the file's four numbers. */
  lemma FourDigitTokens(a: char, b: char, c: char, d: char, s1: char, s2: char, s3: char)
    requires IsDigit(a) && IsDigit(b) && IsDigit(c) && IsDigit(d)
    requires IsSeparator(s1) && IsSeparator(s2) && IsSeparator(s3)
    ensures FileNumbers([a, s1, b, s2, c, s3, d]) ==
              [Finite(DigitValue(a) as real), Finite(DigitValue(b) as real),
               Finite(DigitValue(c) as real), Finite(DigitValue(d) as real)]
  {
    SplitFourTokens(a, b, c, d, s1, s2, s3);
    ParseFourDigits(a, b, c, d);
    var ns := ParseAll([[a], [b], [c], [d]]);
    KeepNumbersKeepsAll(ns);
  }

  lemma FourNumbers()
    ensures FileNumbers("1,2,3\n4") == [Finite(1.0), Finite(2.0), Finite(3.0), Finite(4.0)]
  {
    FourDigitTokens('1', '2', '3', '4', ',', ',', '\n');
    assert "1,2,3\n4" == ['1', ',', '2', ',', '3', '\n', '4'];
  }

  lemma SumOfFileNumbers(text: string, xs: seq<real>)
    requires FileNumbers(text) == Lift(xs) && xs != []
    ensures SumFromText(Ok(text)) == Ok(Fold(Add, xs))
  {
    RealsLift(xs);
    assert FirstNonFinite(Lift(xs)) == |xs|;
  }

  lemma LiftFour()
    ensures Lift([1.0, 2.0, 3.0, 4.0]) == [Finite(1.0), Finite(2.0), Finite(3.0), Finite(4.0)]
  {
    assert Lift([1.0]) == [Finite(1.0)] by { assert [1.0][..0] == []; }
    assert Lift([1.0, 2.0]) == [Finite(1.0), Finite(2.0)] by { assert [1.0, 2.0][..1] == [1.0]; }
    assert Lift([1.0, 2.0, 3.0]) == [Finite(1.0), Finite(2.0), Finite(3.0)] by {
      assert [1.0, 2.0, 3.0][..2] == [1.0, 2.0];
    }
    assert [1.0, 2.0, 3.0, 4.0][..3] == [1.0, 2.0, 3.0];
  }

  lemma FoldFour()
    ensures Fold(Add, [1.0, 2.0, 3.0, 4.0]) == 10.0
  {
    var xs := [1.0, 2.0, 3.0, 4.0];
    assert xs[..3] == [1.0, 2.0, 3.0] && xs[..3][..2] == [1.0, 2.0] && xs[..3][..2][..1] == [1.0];
    FoldSingle(Add, 1.0);
  }

  /** `sumFromFile` over "1,2,3\n4" returns 10. */
  lemma SumFromFileOfFourNumbers()
    ensures SumFromText(Ok("1,2,3\n4")) == Ok(10.0)
  {
    FourNumbers();
    LiftFour();
    SumOfFileNumbers("1,2,3\n4", [1.0, 2.0, 3.0, 4.0]);
    FoldFour();
  }

  lemma ParseFortyTwo()
    ensures ParseFloat("42") == Finite(42.0)
  {
    assert NatText(42) == "42";
    ParseIntText(42);
  }

  /** `sumFromFile` over "42" returns 42. */
  lemma SumFromFileOfOneNumber()
    ensures SumFromText(Ok("42")) == Ok(42.0)
  {
    SplitWithoutSeparator("42");
    ParseFortyTwo();
    var ns := [Finite(42.0)];
    assert ParseAll(["42"]) == ns;
    assert FileNumbers("42") == ns;
    assert FirstNonFinite(ns) == 1;
    assert Reals(ns) == [42.0] by { assert ns[..0] == []; }
    FoldSingle(Add, 42.0);
  }

  /** An empty file fails with the no-valid-numbers message. */
  lemma SumFromEmptyFile()
    ensures SumFromText(Ok("")) == Fail(SumFromFilePrefix + NoValidNumbersMessage)
  {
  }

  /** A one-character token that cannot start a number parses to NaN. */
  lemma ParseOtherChar(c: char)
    requires !IsStrWhiteSpace(c) && !IsDigit(c) && c != '-' && c != '+' && c != '.' && c != 'I'
    ensures ParseFloat([c]) == NaN
  {
    var s := [c];
    assert LeadingSpace(s) == 0;
    assert s[0..] == s;
    assert !(InfinityText <= s);
    assert DigitRun(s) == 0;
  }

  lemma ParseLetter(c: char)
    requires c in "abc"
    ensures ParseFloat([c]) == NaN
  {
    ParseOtherChar(c);
  }

  /** A file of words fails with the no-valid-numbers message. */
  lemma SumFromFileOfWords()
    ensures SumFromText(Ok("a,b,c")) == Fail(SumFromFilePrefix + NoValidNumbersMessage)
  {
    SplitThreeTokens('a', 'b', 'c', ',', ',');
    ParseLetter('a');
    ParseLetter('b');
    ParseLetter('c');
    assert ParseAll(["a", "b", "c"]) == [NaN, NaN, NaN];
  }

  lemma SplitTwoTokens(c: char, sep: char, rest: string)
    requires !IsSeparator(c) && IsSeparator(sep) && rest != [] && NoSeparator(rest)
    ensures Split([c, sep] + rest) == [[c], rest]
  {
    SplitWithoutSeparator(rest);
    SplitLeadingToken(c, sep, rest);
  }

  lemma SplitInfinityTokens()
    ensures Split("1,Infinity") == ["1", "Infinity"]
  {
    var rest := "Infinity";
    assert NoSeparator(rest);
    SplitTwoTokens('1', ',', rest);
    assert "1,Infinity" == ['1', ','] + rest;
  }

  /** A token that starts with "Infinity" parses to Infinity. */
  lemma ParseInfinityPrefix(t: string)
    requires InfinityText <= t
    ensures ParseFloat(t) == PosInf
  {
    assert t[0] == 'I';
    NoLeadingSpace(t);
    assert t[0..] == t;
  }

  lemma ParseInfinity()
    ensures ParseFloat("Infinity") == PosInf
  {
    ParseInfinityPrefix(InfinityText);
  }

  lemma FileNumbersOfTwoTokens(text: string, t1: string, t2: string, n1: Num, n2: Num)
    requires Split(text) == [t1, t2] && ParseFloat(t1) == n1 && ParseFloat(t2) == n2
    requires !IsNaN(n1) && !IsNaN(n2)
    ensures FileNumbers(text) == [n1, n2]
  {
    var ns := ParseAll([t1, t2]);
    assert ns[0] == n1 && ns[1] == n2;
    assert ns == [n1, n2];
    assert ns[1..] == [n2];
    assert KeepNumbers(ns[1..]) == [n2] by { assert ns[1..][1..] == []; }
  }

  lemma InfinityTokens()
    ensures FileNumbers("1,Infinity") == [Finite(1.0), PosInf]
  {
    SplitInfinityTokens();
    ParseDigit('1');
    ParseInfinity();
    FileNumbersOfTwoTokens("1,Infinity", "1", "Infinity", Finite(1.0), PosInf);
  }

  /** An "Infinity" token passes the NaN filter and then fails the finiteness check of `sum`. */
  lemma SumFromFileWithInfinity()
    ensures SumFromText(Ok("1,Infinity")) == Fail(SumFromFilePrefix + (InvalidInputPrefix + "Infinity"))
  {
    InfinityTokens();
    var ns := [Finite(1.0), PosInf];
    assert FirstNonFinite(ns) == 1;
  }

  /** `subtract(NaN, 5)` names both operands, the bad one first. */
  lemma SubtractNaNMessage(fmt: Formatter)
    ensures Subtract(NaN, Finite(5.0), fmt) == Fail(InvalidInputPrefix + "NaN and 5")
  {
  }

  /** `subtract(5, Infinity)` names both operands, the bad one second. */
  lemma SubtractInfinityMessage(fmt: Formatter)
    ensures Subtract(Finite(5.0), PosInf, fmt) == Fail(InvalidInputPrefix + "5 and Infinity")
  {
  }

  /** `divide(10, undefined)` names the missing operand as "undefined". */
  lemma DivideUndefinedMessage(fmt: Formatter)
    ensures Divide(Finite(10.0), Undefined, fmt) == Fail(InvalidInputPrefix + "10 and undefined")
  {
  }

  /** `writeToFile("result.txt", 100)` writes "result: 100". */
  lemma ResultLineOfHundred(fmt: Formatter)
    ensures ResultLine(NumberValue(Finite(100.0)), fmt) == "result: 100"
  {
  }

  /** An object literal is written in its default text form. */
  lemma ResultLineOfObject(fmt: Formatter)
    ensures ResultLine(PlainObject, fmt) == "result: [object Object]"
  {
  }

  lemma ResultLineOfFifty(fmt: Formatter)
    ensures ResultLine(NumberValue(Finite(50.0)), fmt) == "result: 50"
  {
  }

  /** A writer that fails with "EACCES: permission denied" makes `writeToFile` rethrow under the write prefix. */
  lemma WriteFailure(fmt: Formatter, write: Writer)
    requires write("readonly.txt", "result: 50") == Fail("EACCES: permission denied")
    ensures WriteToFile("readonly.txt", NumberValue(Finite(50.0)), fmt, write)
            == Fail(WriteFailurePrefix + "EACCES: permission denied")
  {
    ResultLineOfFifty(fmt);
  }
}
