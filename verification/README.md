# Calculator, modelled in Dafny

This project models the `Calculator` class of `src/calculator.ts`: four argument-checked
arithmetic operations (`sum`, `subtract`, `multiply`, `divide`), the file summation
`sumFromFile`, which splits text on runs of newlines and commas, parses each token with
`parseFloat` and drops NaN, and the static `writeToFile`, which writes `result: <value>`.
Every `throw new Error(msg)` of the source is a `Fail(msg)` result carrying the exact
message text. Numbers are exact reals plus explicit NaN, +Infinity, -Infinity and
`undefined` cases.

Files (one module each):

- `wrappers.dfy`: `Result<T> = Ok(value) | Fail(msg)`.
- `numbers.dfy`: the number operand `Num`, `isFinite`, the left fold used by sum and
  product, and its algebra (append, order independence, zero factor).
- `decimal.dfy`: digit strings and the decimal text of a natural number.
- `rendering.dfy`: the template-literal rendering `${x}` of numbers and of the values
  given to `writeToFile`.
- `parse.dfy`: `parseFloat` on one token, and the fact that it reads back what rendering wrote.
- `tokens.dfy`: `split(/[\n,]+/)`, `map(parseFloat)` and `filter(!isNaN)`, with the
  characterisation of the split.
- `calculator.dfy`: the six operations. `sum` and `multiply` are methods whose loop keeps the
  accumulator equal to the fold of the prefix processed so far; `sumFromFile` is a method
  because it calls `sum`; `subtract`, `divide` and `writeToFile` are functions.
- `properties.dfy`: properties that relate calls or hold for all inputs.
- `scenarios.dfy`: the concrete cases of the unit tests, derived from the model.

The class keeps no state, so its operations are module members. File access is injected:
`sumFromFile` takes a reader `string -> Result<string>` and `writeToFile` takes a writer
`(string, string) -> Result<()>`; a failing collaborator stands for `readFileSync` or
`writeFileSync` throwing with that message. How JavaScript writes a finite number that is
not a plain integer is also a parameter (`Formatter`). The pinned texts are `NaN`,
`Infinity`, `-Infinity`, `undefined`, and plain decimal digits for integers below 10^21.

The file filter is `!isNaN`, not `isFinite` (src/calculator.ts:64), so an `Infinity`
token reaches `sum` and the call fails with `Failed to sum numbers from file: Invalid
input: ... Received: Infinity` (`Scenarios.SumFromFileWithInfinity`).

## Model

| member | source | states |
|---|---|---|
| `Calculator.FoldResult` | src/calculator.ts:4-44 | what `sum`/`multiply` return: success exactly when there is at least one operand and all are finite; with no operands the fixed "At least one number must be provided to …" message; any other failure starts with the invalid-input prefix |
| `Calculator.Accumulate` | src/calculator.ts:11-16 | the `forEach` loop shared by `sum` and `multiply`: the accumulator equals the fold (from 0 or 1, left to right) of the operands processed so far; it stops at the first non-finite operand and reports it |
| `Calculator.Sum` | src/calculator.ts:4-19 | `sum(...args)` returns `FoldResult(Add, args)`; no arguments fails with "At least one number must be provided to sum." |
| `Calculator.Multiply` | src/calculator.ts:29-44 | `multiply(...args)` returns `FoldResult(Mul, args)`; no arguments fails with "At least one number must be provided to multiply." |
| `Calculator.Subtract` | src/calculator.ts:21-27 | fails exactly when an operand is not finite (NaN, ±Infinity, undefined), with both operands rendered in order "n1 and n2"; otherwise the result r satisfies r + n2 = n1 |
| `Calculator.Divide` | src/calculator.ts:46-56 | succeeds exactly when both operands are finite and n2 ≠ 0; a non-finite operand gives the two-operand message even when n2 is 0; finite operands with n2 = 0 give "Division by zero is not allowed."; a success has n2 ≠ 0 and r · n2 = n1 |
| `Calculator.SumFromText` | src/calculator.ts:58-74 | every failure of the file summation carries the prefix "Failed to sum numbers from file: "; a failed read keeps the reader's message verbatim after it |
| `Calculator.SumFromFile` | src/calculator.ts:58-74 | reads the path once through the reader, then splits, parses, filters and calls `Sum`; its result is `SumFromText` of the read |
| `Calculator.WriteToFile` | src/calculator.ts:76-83 | hands exactly "result: " + the value's text to the writer for the given path; succeeds exactly when that write succeeds, otherwise fails with "Failed to write to file: " + the writer's message |
| `Numbers.FirstNonFinite` | src/calculator.ts:11-14 | the index of the first operand that is not finite: all earlier ones are finite, the one at the index is not, and it equals the length when all are finite |
| `Numbers.FoldPermutation` | src/calculator.ts:11-16 | sum and product of the operands do not depend on their order (equal multisets give equal folds) |
| `Numbers.FoldAppend` | src/calculator.ts:11-16 | accumulating a concatenation equals combining the accumulations of its parts |
| `Numbers.FoldRemove` | src/calculator.ts:11-16 | taking one operand out and applying it last leaves the fold unchanged |
| `Numbers.ProductWithZero` | src/calculator.ts:36-41 | a zero factor anywhere makes the product zero |
| `Rendering.Show` | src/calculator.ts:23 | `${n}` for an operand: "NaN", "Infinity", "-Infinity" and "undefined" for the values that are not finite; for integers below 10^21 in magnitude, decimal digits (after a '-' when negative) whose value is the number; the `Formatter` for any other finite value |
| `Rendering.Render` | src/calculator.ts:77 | `${data}` for the value to write: a number through `Show`, a string verbatim, "true"/"false" for a boolean, "[object Object]" for a plain object |
| `Decimal.NatText` | src/calculator.ts:23 | the decimal text of a natural number: digits only, no leading zero, and its digits read back give the number |
| `Parse.ParseFloat` | src/calculator.ts:63 | `parseFloat` yields a number, NaN or ±Infinity, never `undefined` (the definition skips leading white space, takes an optional sign and the longest decimal-literal prefix or `Infinity`; `Parse.ParseShow` ties it to rendering) |
| `Parse.ParseIntText` | src/calculator.ts:63 | `parseFloat` reads an integer's rendered text back as that integer |
| `Parse.ParseShow` | src/calculator.ts:63 | `parseFloat` reads back the rendering of every plain integer, NaN, Infinity and -Infinity |
| `Tokens.Split` | src/calculator.ts:62 | `split(/[\n,]+/)` always gives at least one token |
| `Tokens.SplitDecomposes` | src/calculator.ts:62 | the tokens woven with the separator runs rebuild the text; no token holds a separator; every run is a non-empty run of separators; only the first and last token can be empty |
| `Tokens.SplitUnique` | src/calculator.ts:62 | any decomposition with those properties is the split's: the split is determined by the rule "cut at maximal runs of newline/comma" |
| `Tokens.ParseAll` | src/calculator.ts:63 | one parse per token, in order |
| `Tokens.KeepNumbers` | src/calculator.ts:64 | the filter never keeps a value `isNaN` accepts (NaN, or `undefined`, which converts to NaN) and never grows the list |
| `Tokens.KeepNumbersMembers` | src/calculator.ts:64 | a value survives the filter exactly when it was in the list and is neither NaN nor `undefined` (so Infinity survives) |
| `Tokens.KeepNumbersKeepsAll` | src/calculator.ts:64 | a list in which no value is NaN or `undefined` passes the filter unchanged |
| `Tokens.KeepNumbersAppend` | src/calculator.ts:64 | the filter keeps the surviving numbers in their original order |
| `CalculatorProperties.SingleOperand` | src/calculator.ts:5-18 | `sum(x)` and `multiply(x)` return x |
| `CalculatorProperties.OrderIndependent` | src/calculator.ts:11-16 | for finite operands, `sum` and `multiply` give the same result for any reordering |
| `CalculatorProperties.MultiplyWithZero` | src/calculator.ts:36-43 | finite operands containing 0 make `multiply` return 0 |
| `Calculator.FirstNonFiniteReported` | src/calculator.ts:11-14 | the first non-finite operand decides the failure of `sum` and `multiply`: the message is the invalid-input prefix followed by its text, whatever follows it |
| `CalculatorProperties.NonFiniteMessageIdentifies` | src/calculator.ts:13 | two non-finite operands with the same failure message are the same value: the message tells NaN, Infinity, -Infinity and undefined apart |
| `CalculatorProperties.SubtractAntisymmetric` | src/calculator.ts:21-27 | swapping the operands of `subtract` negates the result |
| `CalculatorProperties.DivideUndoesMultiply` | src/calculator.ts:46-56 | `multiply(a, b)` is a·b and `divide(a·b, b)` gives back a when b ≠ 0 |
| `CalculatorProperties.DivideChecksFinitenessFirst` | src/calculator.ts:47-53 | `divide(bad, 0)` reports the bad operand, and that message is never the division-by-zero message |
| `CalculatorProperties.DivideByZero` | src/calculator.ts:51-53 | `divide(x, 0)` fails with "Division by zero is not allowed." for every finite x, 0 included |
| `CalculatorProperties.SumFromTextOutcome` | src/calculator.ts:61-70 | the file summation succeeds exactly when some token parses to a number and none parses to ±Infinity, and then returns the left-to-right sum; no surviving token gives "No valid numbers found in the file."; a surviving ±Infinity gives the file prefix followed by `sum`'s own message |
| `Tokens.KeepParsedMembers` | src/calculator.ts:63-64 | after `map(parseFloat)` and the `!isNaN` filter, a value is present exactly when it is not NaN and some token parses to it |
| `CalculatorProperties.FileNumbersFromTokens` | src/calculator.ts:61-64 | a value is summed exactly when it is not NaN and is the parse of some token of the file's split |
| `CalculatorProperties.TokensHoldNoSeparator` | src/calculator.ts:62 | no token of a file contains a newline or a comma |
| `CalculatorProperties.ResultLineShape` | src/calculator.ts:77 | the written text is "result: " followed by the value's text |
| `CalculatorProperties.ResultLineReadsBack` | src/calculator.ts:77 | after the label, `parseFloat` reads back the written number (plain integers, NaN, ±Infinity) |
| `CalculatorProperties.WrittenNumberIsNotSummable` | src/calculator.ts:59-83 | a file that `writeToFile` wrote for any number cannot be summed by `sumFromFile`: the line is one token (the number's text, like JavaScript's, holds no comma or newline) and its label makes it NaN |
| `Scenarios.SumFromFileOfFourNumbers` | tests/unit/calculator.spec.ts:143-151 | the text "1,2,3\n4" sums to 10 |
| `Scenarios.SumFromFileOfOneNumber` | tests/unit/calculator.spec.ts:153-160 | the text "42" sums to 42 |
| `Scenarios.SumFromEmptyFile` | tests/unit/calculator.spec.ts:162-168 | empty text fails with the file prefix and "No valid numbers found in the file." |
| `Scenarios.SumFromFileOfWords` | tests/unit/calculator.spec.ts:170-176 | the text "a,b,c" fails with the file prefix and "No valid numbers found in the file." |
| `Scenarios.SumFromFileWithInfinity` | src/calculator.ts:61-72 | the text "1,Infinity" keeps the Infinity token and fails with the file prefix around `sum`'s "Received: Infinity" message |
| `Scenarios.SubtractNaNMessage` | tests/unit/calculator.spec.ts:64-65 | `subtract(NaN, 5)` fails with "… Received: NaN and 5" |
| `Scenarios.SubtractInfinityMessage` | tests/unit/calculator.spec.ts:66 | `subtract(5, Infinity)` fails with "… Received: 5 and Infinity" |
| `Scenarios.DivideUndefinedMessage` | tests/unit/calculator.spec.ts:137 | `divide(10, undefined)` fails with "… Received: 10 and undefined" |
| `Scenarios.ResultLineOfHundred` | tests/unit/calculator.spec.ts:190-197 | `writeToFile("result.txt", 100)` writes "result: 100" |
| `Scenarios.ResultLineOfObject` | tests/unit/calculator.spec.ts:208-215 | an object literal is written as "result: [object Object]" |
| `Scenarios.WriteFailure` | tests/unit/calculator.spec.ts:217-227 | a writer failing with "EACCES: permission denied" makes `writeToFile` fail with "Failed to write to file: EACCES: permission denied" |

## Left out

- IEEE-754 behaviour: rounding, overflow of a sum or product to Infinity, `parseFloat` of
  literals too large for a double, and negative zero (`n2 === 0` is also true for -0).
  Arithmetic is exact on reals, so some proved laws hold for the model but not for doubles:
- CalculatorProperties.OrderIndependent and Numbers.FoldPermutation: with doubles
  `sum(0.1, 0.2, 0.3)` is 0.6000000000000001 while `sum(0.3, 0.2, 0.1)` is 0.6.
- CalculatorProperties.MultiplyWithZero: with doubles `multiply(1e200, 1e200, 0)` computes
  Infinity · 0 and returns NaN.
- CalculatorProperties.DivideUndoesMultiply: with doubles `multiply(1e200, 1e200)` is
  Infinity, so dividing that result by 1e200 fails with the invalid-input message.
- Calculator.Sum: does not model floating-point rounding, so results are exact where the
  source may round.
- Calculator.Divide: the quotient is exact where the source computes a double; the
  `7 / 2` test compares its result with `toBeCloseTo` (tests/unit/calculator.spec.ts:118).
- Calculator.WriteToFile: the file's content after the write is not modelled; the model
  states only which text is handed to the writer for which path.
- The decimal text of finite numbers that are not plain integers (JavaScript's shortest
  round-trip form) is the `Formatter` parameter, not a definition.
- Global `isFinite` coerces non-number arguments (strings, null); the model's operands are
  numbers or `undefined` only.
- `${data}` for arrays and for objects with their own `toString`: the value to write is a
  closed variant (number, string, boolean, plain object).
- The real file system (`readFileSync`, `writeFileSync`, UTF-8 decoding): reading and writing
  are injected collaborators that return the content or a failure message.
- `sum` and `multiply` are two copies of one loop in the source; the model writes the loop
  once (`Calculator.Accumulate`) and both methods call it after their own empty check.
- The browser and HTTP test scripts under tests/ui and tests/api are not part of this model.
