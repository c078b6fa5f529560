/**
 * The Calculator: argument checks followed by arithmetic, and the two file-coupled
 * operations. The source class keeps no state, so its members are module members here.
 */
module Calculator {
  import opened Wrappers
  import opened Numbers
  import opened Rendering
  import opened Tokens

  const SumEmptyMessage := "At least one number must be provided to sum."
  const MultiplyEmptyMessage := "At least one number must be provided to multiply."
  // Written in two pieces so that the verifier can see the characters of the text.
  const InvalidInputPrefix := "Invalid input: " + "all numbers must be a finite number. Received: "
  const DivisionByZeroMessage := "Division by zero is not allowed."
  const SumFromFilePrefix := "Failed to sum numbers from file: "
  const NoValidNumbersMessage := "No valid numbers found in the file."
  const WriteFailurePrefix := "Failed to write to file: "
  const ResultLinePrefix := "result: "

  /** Reading all text of a file: the contents, or the failure message of the read. */
  type Reader = string -> Result<string>

  /** Overwriting a file with a text: success, or the failure message of the write. */
  type Writer = (string, string) -> Result<()>

  function EmptyMessage(op: Op): string
  {
    match op
    case Add => SumEmptyMessage
    case Mul => MultiplyEmptyMessage
  }

  /** The message for the first operand of a variadic call that is not finite. */
  function NonFiniteMessage(n: Num): string
    requires !IsFinite(n)
  {
    InvalidInputPrefix + SpecialText(n)
  }

  /** The message for a two-operand call: both operands, first then second. */
  function PairMessage(n1: Num, n2: Num, fmt: Formatter): string
  {
    InvalidInputPrefix + Show(n1, fmt) + " and " + Show(n2, fmt)
  }

  /**
   * What `sum` (op Add) and `multiply` (op Mul) promise: no operands is an error,
   * the first operand that is not finite is reported, and otherwise the operands
   * are accumulated from the identity, left to right.
   */
  function FoldResult(op: Op, args: seq<Num>): (r: Result<real>)
    ensures r.Ok? <==> args != [] && AllFinite(args)
    ensures args == [] ==> r == Fail(EmptyMessage(op))
    ensures args != [] && r.Fail? ==> InvalidInputPrefix <= r.msg
  {
    if args == [] then Fail(EmptyMessage(op))
    else
      var k := FirstNonFinite(args);
      if k < |args| then Fail(NonFiniteMessage(args[k]))
      else Ok(Fold(op, Reals(args)))
  }

  /**
   * The first operand that is not finite decides the failure of `sum` and `multiply`,
   * whatever follows it.
   */
  lemma FirstNonFiniteReported(op: Op, args: seq<Num>, i: nat)
    requires i < |args| && !IsFinite(args[i]) && AllFinite(args[..i])
    ensures FoldResult(op, args) == Fail(InvalidInputPrefix + SpecialText(args[i]))
  {
    assert forall j :: 0 <= j < i ==> args[..i][j] == args[j];
    assert FirstNonFinite(args) == i;
  }

  /** With every operand finite, the fold succeeds with the accumulated value. */
  lemma FoldResultOfFinite(op: Op, args: seq<Num>)
    requires args != [] && AllFinite(args)
    ensures FoldResult(op, args) == Ok(Fold(op, Reals(args)))
  {
  }

  /** The shared loop of `sum` and `multiply`: a mutable accumulator and an early throw. */
  method Accumulate(op: Op, args: seq<Num>) returns (r: Result<real>)
    requires args != []
    ensures r == FoldResult(op, args)
  {
    var result := Identity(op);
    for i := 0 to |args|
      invariant AllFinite(args[..i])
      invariant result == Fold(op, Reals(args[..i]))
    {
      var num := args[i];
      if !IsFinite(num) {
        FirstNonFiniteReported(op, args, i);
        return Fail(NonFiniteMessage(num));
      }
      FoldPrefixStep(op, args, i);
      result := Apply(op, result, num.r);
    }
    assert args[..|args|] == args;
    FoldResultOfFinite(op, args);
    return Ok(result);
  }

  /** `sum(...args)`. */
  method Sum(args: seq<Num>) returns (r: Result<real>)
    ensures r == FoldResult(Add, args)
    ensures args == [] ==> r == Fail(SumEmptyMessage)
  {
    if |args| == 0 {
      return Fail(SumEmptyMessage);
    }
    r := Accumulate(Add, args);
  }

  /** `multiply(...args)`. */
  method Multiply(args: seq<Num>) returns (r: Result<real>)
    ensures r == FoldResult(Mul, args)
    ensures args == [] ==> r == Fail(MultiplyEmptyMessage)
  {
    if |args| == 0 {
      return Fail(MultiplyEmptyMessage);
    }
    r := Accumulate(Mul, args);
  }

  /** `subtract(n1, n2)`: fails exactly when an operand is not finite, else the difference. */
  function Subtract(n1: Num, n2: Num, fmt: Formatter): (r: Result<real>)
    ensures r.Ok? <==> IsFinite(n1) && IsFinite(n2)
    ensures r.Ok? ==> r.value + n2.r == n1.r
    ensures r.Fail? ==> r.msg == PairMessage(n1, n2, fmt)
  {
    if !IsFinite(n1) || !IsFinite(n2) then Fail(PairMessage(n1, n2, fmt))
    else Ok(n1.r - n2.r)
  }

  /** `divide(n1, n2)`: the finiteness check comes first, the zero check second. */
  function Divide(n1: Num, n2: Num, fmt: Formatter): (r: Result<real>)
    ensures r.Ok? <==> IsFinite(n1) && IsFinite(n2) && n2.r != 0.0
    ensures !(IsFinite(n1) && IsFinite(n2)) ==> r == Fail(PairMessage(n1, n2, fmt))
    ensures IsFinite(n1) && IsFinite(n2) && n2.r == 0.0 ==> r == Fail(DivisionByZeroMessage)
    ensures r.Ok? ==> IsFinite(n1) && IsFinite(n2) && n2.r != 0.0 && r.value * n2.r == n1.r
  {
    if !IsFinite(n1) || !IsFinite(n2) then Fail(PairMessage(n1, n2, fmt))
    else if n2.r == 0.0 then Fail(DivisionByZeroMessage)
    else Ok(n1.r / n2.r)
  }

  /** Every failure inside the file summation is rethrown under one prefix. */
  function WrapSumFailure(r: Result<real>): Result<real>
  {
    match r
    case Ok(v) => Ok(v)
    case Fail(m) => Fail(SumFromFilePrefix + m)
  }

  /** What `sumFromFile` promises, given the outcome of reading the file. */
  function SumFromText(read: Result<string>): (r: Result<real>)
    ensures r.Fail? ==> SumFromFilePrefix <= r.msg
    ensures read.Fail? ==> r == Fail(SumFromFilePrefix + read.msg)
  {
    match read
    case Fail(m) => WrapSumFailure(Fail(m))
    case Ok(text) =>
      var numbers := FileNumbers(text);
      if numbers == [] then WrapSumFailure(Fail(NoValidNumbersMessage))
      else WrapSumFailure(FoldResult(Add, numbers))
  }

  /** `sumFromFile(filePath)`: read, split, parse, filter, then `sum`. */
  method SumFromFile(path: string, read: Reader) returns (r: Result<real>)
    ensures r == SumFromText(read(path))
  {
    var data := read(path);
    if data.Fail? {
      return Fail(SumFromFilePrefix + data.msg);
    }
    var numbers := KeepNumbers(ParseAll(Split(data.value)));
    if |numbers| == 0 {
      return Fail(SumFromFilePrefix + NoValidNumbersMessage);
    }
    var total := Sum(numbers);
    if total.Fail? {
      return Fail(SumFromFilePrefix + total.msg);
    }
    return total;
  }

  /** The text `writeToFile` hands to the file writer. */
  function ResultLine(data: Value, fmt: Formatter): string
  {
    ResultLinePrefix + Render(data, fmt)
  }

  /**
   * `Calculator.writeToFile(filePath, data)`: one write of the result line to the
   * given path; it fails only when that write fails, under the write prefix.
   */
  function WriteToFile(path: string, data: Value, fmt: Formatter, write: Writer): (r: Result<()>)
    ensures r.Ok? <==> write(path, ResultLine(data, fmt)).Ok?
    ensures r.Fail? ==> r.msg == WriteFailurePrefix + write(path, ResultLine(data, fmt)).msg
  {
    match write(path, ResultLine(data, fmt))
    case Ok(_) => Ok(())
    case Fail(m) => Fail(WriteFailurePrefix + m)
  }
}
