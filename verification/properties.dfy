/** Properties of the calculator operations that relate several calls or all inputs. */
module CalculatorProperties {
  import opened Wrappers
  import opened Numbers
  import opened Decimal
  import opened Rendering
  import opened Parse
  import opened Tokens
  import opened Calculator

  /** `sum(x)` and `multiply(x)` return x itself. */
  lemma SingleOperand(op: Op, x: real)
    ensures FoldResult(op, [Finite(x)]) == Ok(x)
  {
    var args := [Finite(x)];
    assert FirstNonFinite(args) == 1;
    assert Reals(args) == [x] by { assert args[..0] == []; }
    FoldSingle(op, x);
  }

  /** For finite operands the result does not depend on their order. */
  lemma {:induction false} OrderIndependent(op: Op, xs: seq<real>, ys: seq<real>)
    requires multiset(xs) == multiset(ys)
    ensures FoldResult(op, Lift(xs)) == FoldResult(op, Lift(ys))
  {
    assert |xs| == |multiset(xs)| == |ys|;
    if xs != [] {
      RealsLift(xs);
      RealsLift(ys);
      FoldPermutation(op, xs, ys);
    }
  }

  /** A finite zero operand anywhere makes `multiply` return 0. */
  lemma MultiplyWithZero(args: seq<Num>, i: nat)
    requires AllFinite(args) && i < |args| && args[i] == Finite(0.0)
    ensures FoldResult(Mul, args) == Ok(0.0)
  {
    RealsAt(args, i);
    ProductWithZero(Reals(args), i);
  }

  /** The failure message of `sum` and `multiply` tells which value was not finite. */
  lemma NonFiniteMessageIdentifies(a: Num, b: Num)
    requires !IsFinite(a) && !IsFinite(b)
    requires NonFiniteMessage(a) == NonFiniteMessage(b)
    ensures a == b
  {
    var p := |InvalidInputPrefix|;
    assert SpecialText(a) == NonFiniteMessage(a)[p..];
    assert SpecialText(b) == NonFiniteMessage(b)[p..];
    var ta, tb := SpecialText(a), SpecialText(b);
    assert ta[0] == tb[0];
    if a.NegInf? || b.NegInf? {
      assert a == b;
    } else {
      assert |ta| == |tb|;
    }
  }

  /** Swapping the operands of `subtract` negates the result. */
  lemma SubtractAntisymmetric(a: real, b: real, fmt: Formatter)
    ensures Subtract(Finite(a), Finite(b), fmt).Ok? && Subtract(Finite(b), Finite(a), fmt).Ok?
    ensures Subtract(Finite(a), Finite(b), fmt).value == -Subtract(Finite(b), Finite(a), fmt).value
  {
  }

  /** `divide(multiply(a, b), b)` gives back a whenever b is not zero. */
  lemma DivideUndoesMultiply(a: real, b: real, fmt: Formatter)
    requires b != 0.0
    ensures FoldResult(Mul, [Finite(a), Finite(b)]) == Ok(a * b)
    ensures Divide(Finite(a * b), Finite(b), fmt) == Ok(a)
  {
    var args := [Finite(a), Finite(b)];
    assert FirstNonFinite(args) == 2 by { assert FirstNonFinite(args[1..]) == 1; }
    assert Reals(args) == [a, b] by {
      assert args[..1] == [Finite(a)];
      assert args[..1][..0] == [];
    }
    assert Fold(Mul, [a, b]) == a * b by {
      assert [a, b][..1] == [a];
      FoldSingle(Mul, a);
    }
    var q := Divide(Finite(a * b), Finite(b), fmt);
    assert q.value * b == a * b;
  }

  /**
   * `divide` reports a bad operand even when the divisor is zero, and its two
   * failures can never be confused.
   */
  lemma DivideChecksFinitenessFirst(n1: Num, fmt: Formatter)
    requires !IsFinite(n1)
    ensures Divide(n1, Finite(0.0), fmt) == Fail(PairMessage(n1, Finite(0.0), fmt))
    ensures Divide(n1, Finite(0.0), fmt) != Fail(DivisionByZeroMessage)
  {
  }

  /** With finite operands, `divide(x, 0)` is a division by zero for every x, 0 included. */
  lemma DivideByZero(x: real, fmt: Formatter)
    ensures Divide(Finite(x), Finite(0.0), fmt) == Fail(DivisionByZeroMessage)
  {
  }

  /** `sumFromFile` succeeds exactly when some token is a number and none of them is infinite. */
  lemma SumFromTextOutcome(text: string)
    ensures SumFromText(Ok(text)).Ok? <==> FileNumbers(text) != [] && AllFinite(FileNumbers(text))
    ensures SumFromText(Ok(text)).Ok? ==>
              SumFromText(Ok(text)).value == Fold(Add, Reals(FileNumbers(text)))
    ensures FileNumbers(text) == [] ==>
              SumFromText(Ok(text)) == Fail(SumFromFilePrefix + NoValidNumbersMessage)
    ensures FileNumbers(text) != [] && !AllFinite(FileNumbers(text)) ==>
              SumFromText(Ok(text)) == Fail(SumFromFilePrefix + FoldResult(Add, FileNumbers(text)).msg)
  {
  }

  /** The numbers of a file are exactly the parses of its tokens that are not NaN. */
  lemma FileNumbersFromTokens(text: string, x: Num)
    ensures x in FileNumbers(text) <==> !x.NaN? && SomeTokenParsesTo(Split(text), x)
  {
    KeepParsedMembers(Split(text), x);
  }

  /** The tokens of a file never hold a newline or a comma. */
  lemma TokensHoldNoSeparator(text: string)
    ensures forall k :: 0 <= k < |Split(text)| ==> NoSeparator(Split(text)[k])
  {
    SplitDecomposes(text);
  }

  /** What `writeToFile` writes starts with the label and continues with the value's text. */
  lemma ResultLineShape(data: Value, fmt: Formatter)
    ensures ResultLine(data, fmt)[..|ResultLinePrefix|] == ResultLinePrefix
    ensures ResultLine(data, fmt)[|ResultLinePrefix|..] == Render(data, fmt)
  {
  }

  /** A number written by `writeToFile` is read back by `parseFloat` after the label. */
  lemma ResultLineReadsBack(n: Num, fmt: Formatter)
    requires !n.Undefined?
    requires n.Finite? ==> IsPlainInteger(n.r)
    ensures ParseFloat(ResultLine(NumberValue(n), fmt)[|ResultLinePrefix|..]) == n
  {
    ResultLineShape(NumberValue(n), fmt);
    ParseShow(n, fmt);
  }

  lemma IntTextNoSeparator(k: int)
    ensures NoSeparator(IntText(k))
  {
  }

  /**
   * `sumFromFile` cannot sum a file that `writeToFile` wrote for a number: the whole
   * line is one token, and the label makes `parseFloat` return NaN. The formatter is
   * assumed, like JavaScript's number-to-text conversion, never to write a comma or newline.
   */
  lemma WrittenNumberIsNotSummable(n: Num, fmt: Formatter)
    requires forall x :: NoSeparator(fmt(x))
    ensures SumFromText(Ok(ResultLine(NumberValue(n), fmt))) ==
              Fail(SumFromFilePrefix + NoValidNumbersMessage)
  {
    var line := ResultLine(NumberValue(n), fmt);
    var shown := Show(n, fmt);
    assert NoSeparator(shown) by {
      if n.Finite? && IsPlainInteger(n.r) { IntTextNoSeparator(n.r.Floor); }
    }
    assert NoSeparator(line) by {
      forall i | 0 <= i < |line| ensures !IsSeparator(line[i]) {
        if i >= |ResultLinePrefix| { assert line[i] == shown[i - |ResultLinePrefix|]; }
      }
    }
    assert TokenEnd(line) == |line|;
    assert Split(line) == [line];
    assert line[0] == 'r';
    assert LeadingSpace(line) == 0 by { assert !IsStrWhiteSpace(line[0]); }
    assert line[0..] == line;
    assert DigitRun(line) == 0;
    assert ParseFloat(line) == NaN;
    assert ParseAll([line]) == [NaN];
  }
}
