# A verified model of a minimal Scheme interpreter

This project models, in Dafny, the whole pipeline of a small C++ Scheme
interpreter: text goes through the scanner (`Tokenizer::Next`), the
recursive-descent reader (`Read`, `ReadList`), the evaluator (`Eval` and
`Apply` on the object tree, with a fixed table of 27 primitive procedures),
and the printer (`RepresentAsStr`), all driven by `ReadFullString` and
`Interpreter::Run`.

Everything is a pure function over immutable data:

- `errors.dfy`: the error kinds (`SyntaxError`, `RuntimeError`, `NameError`,
  plus `Undefined` for what is undefined behaviour in C++) and a `Result`
  type. A C++ `throw` is an `Err` result.
- `tokenizer.dfy`: tokens, and the scanner as a function from the remaining
  text to `End` (the end flag, `IsEnd`) or `Tok(token, rest)` (the current
  token, `GetToken`, and the text after it).
- `parser.dfy`: `Read`, `ReadList` and the tail decision inside `ReadList`,
  over one token of lookahead.
- `objects.dfy`: the object tree (`Nil` for the null pointer, numbers,
  booleans, symbols, cells, primitive procedures), the primitive table and
  the list helpers `GetRawVector`, `GetObjFrowVector` and `MakeArgsForList`.
- `evaluator.dfy`: `Eval`, `Apply`, `GetVector` and every primitive's
  `Apply` body. They are mutually recursive and terminate on the size of
  the expression.
- `arith.dfy`: the folds behind the numeric primitives, including C++'s
  truncating division.
- `printer.dfy`: `RepresentAsStr` and `std::to_string`.
- `interpreter.dfy`: `ReadFullString` and `Run`.
- `tokenizer_props.dfy`, `parser_props.dfy`, `object_props.dfy`,
  `eval_props.dfy`, `arith_props.dfy`, `printer_props.dfy`,
  `reader_props.dfy` and `interpreter_props.dfy`: the properties.

The properties include:

- what each token kind scans to;
- the reader/printer round trip: the printed text of any value without
  procedures, whose symbols are names the scanner can produce, reads back
  as that value;
- what the reader refuses (end of input, a stray close bracket, a leading
  dot, an unclosed list), that `'x` reads as `(quote x)`, and how the
  token after a list element decides the rest of the list;
- the exact text the printer writes for atoms and lists;
- the round trip between the list flattener and the list builder;
- the table is an exact naming of the 27 primitives;
- the meaning of each primitive, stated per primitive in `eval_props.dfy`:
  arity, operand types and error kinds where the lemma states them,
  `and`/`or` short-circuiting, chained comparisons, and list-index bounds
  (the limits of each statement are listed under "Left out");
- whole-program facts about `Run`.

## Model

| member | source | states |
|---|---|---|
| Tokenizer.SkipSpace | tokenizer.cpp:31-38 | the text left after skipping whitespace is no longer than the input and starts with a non-space character, if it has one |
| Tokenizer.DigitSpan | tokenizer.cpp:92-96 | the digit run at the front is maximal: every character before the count is a digit, and the next one is not |
| Tokenizer.NameSpan | tokenizer.cpp:116-122 | the run of symbol characters is maximal: all of them continue a symbol, and the next character does not |
| Tokenizer.ScanSigned | tokenizer.cpp:62-86 | a sign always yields a token and never consumes more than the text after it |
| Tokenizer.ScanNumber | tokenizer.cpp:87-98 | a leading digit yields a constant token and consumes at least that digit |
| Tokenizer.ScanHash | tokenizer.cpp:99-110 | a successful `#` scan is a boolean token that consumes at least one character, and a failed one is a SyntaxError |
| Tokenizer.ScanName | tokenizer.cpp:111-124 | a name scan yields a symbol token and consumes at least its first character |
| Tokenizer.ScanToken | tokenizer.cpp:40-127 | a successful scan yields a token and strictly shortens the text, and a failed one is a SyntaxError |
| Tokenizer.Next | tokenizer.cpp:21-128 | when the scanner yields a token, the text left is strictly shorter than before, and every failure is a SyntaxError |
| TokenizerProps.SkipSpaceDropsBlankPrefix | tokenizer.cpp:31-38 | skipping removes exactly a prefix that is all whitespace |
| TokenizerProps.NextEndIffBlank | tokenizer.cpp:25-38 | the end flag is set exactly when the rest of the input is whitespace only |
| TokenizerProps.NextSkipsSpace | tokenizer.cpp:31-38 | leading whitespace does not change the next scan |
| TokenizerProps.SkipSpaceOfPrefix | tokenizer.cpp:31-38 | skipping whitespace in front of a text gives the same result as skipping in the text alone |
| TokenizerProps.ScanTokenConsumesPrefix | tokenizer.cpp:40-127 | a token scan leaves a proper suffix of the text |
| TokenizerProps.NextConsumesPrefix | tokenizer.cpp:21-128 | a scan that finds a token leaves a proper suffix of the input |
| TokenizerProps.NextAtToken | tokenizer.cpp:40-127 | at a non-space character, the scan is the token that starts there |
| TokenizerProps.PunctuationToken | tokenizer.cpp:40-61 | `'`, `.`, `(`, `)`, `*` and `/` each consume one character and give Quote, Dot, Open, Close and the one-letter symbols `*` and `/`, whatever follows |
| TokenizerProps.DigitSpanOfRun | tokenizer.cpp:92-96 | the digit span of a digit run followed by a non-digit is the length of the run |
| TokenizerProps.NameSpanOfRun | tokenizer.cpp:116-122 | the name span of a run of symbol characters followed by a non-symbol character is the length of the run |
| TokenizerProps.ScanNumberDigits | tokenizer.cpp:87-98 | a maximal digit run scans to the constant of its decimal value and leaves exactly what follows |
| TokenizerProps.DigitRunToken | tokenizer.cpp:87-98 | a maximal digit run at the front of the input is a non-negative constant of its decimal value |
| TokenizerProps.SignStart | tokenizer.cpp:62-63 | a `+` or `-` at the front is scanned by the sign rule |
| TokenizerProps.ScanSignedDigits | tokenizer.cpp:69-80 | a sign directly followed by a maximal digit run is the constant plus or minus the run's value |
| TokenizerProps.SignedToken | tokenizer.cpp:62-86 | `+`/`-` followed by digits is the signed constant, and the text after the digits is left |
| TokenizerProps.LoneSignToken | tokenizer.cpp:62-86 | `+`/`-` is the one-character symbol if and only if no digit follows it (end of input, whitespace or anything else) |
| TokenizerProps.HashToken | tokenizer.cpp:99-110 | `#t` and `#f` are the two booleans, and `#` followed by anything else, or by nothing, is a SyntaxError |
| TokenizerProps.SymbolToken | tokenizer.cpp:111-124 | a name that starts with a letter or `<=>` and continues over letters, digits and `<=>*#?!-` scans to the symbol of that name when a non-symbol character or the end follows |
| TokenizerProps.ScannedSymbolIsName | tokenizer.cpp:22-23 | every symbol the scanner yields is such a name, or one of `*`, `/`, `+`, `-` |
| TokenizerProps.ScanErrors | tokenizer.cpp:99-127 | the scan fails exactly at a character that starts no token, or at a `#` without `t`/`f` after it, and the failure is a SyntaxError |
| Parser.Read | parser.cpp:4-44 | reading an expression consumes input, and every failure is a SyntaxError |
| Parser.ReadList | parser.cpp:45-78 | reading list elements consumes input, and every failure is a SyntaxError |
| Parser.ReadTail | parser.cpp:54-62 | deciding a cell's tail never grows the input left, and every failure is a SyntaxError |
| ParserProps.NothingAtEnd | parser.cpp:5-7 | `Parser.Read` and `Parser.ReadList` at the end of input are a SyntaxError |
| ParserProps.CloseStartsNothing | parser.cpp:13-14 | `Parser.Read` of a close bracket is a SyntaxError |
| ParserProps.DotReadsNext | parser.cpp:19-24 | `Parser.Read` of a dot is the read of the next token, a SyntaxError when the input ends after the dot, and succeeds exactly when that next read does |
| ParserProps.QuoteReadsQuoted | parser.cpp:25-36 | `Parser.Read` of a quote followed by an expression `x` gives `(quote x)` and leaves the scanner after `x`; with nothing after the quote it is a SyntaxError |
| ParserProps.LeadingDotRejected | parser.cpp:48-49 | `Parser.ReadList` refuses a dot as the first token of a list with a SyntaxError |
| ParserProps.UnclosedListRejected | parser.cpp:64-73 | `Parser.ReadList` of a bracketed list whose elements are followed by the end of input or by any token other than a close bracket is a SyntaxError |
| ParserProps.ClosedListNeedsBracket | parser.cpp:64-73 | `Parser.ReadList` of a bracketed list succeeds only when its elements are followed by a close bracket |
| ParserProps.TailAfterDot | parser.cpp:55-56 | `Parser.ReadTail` after a dot is the read of whatever expression the next token starts, and a SyntaxError when the input ends after the dot |
| ParserProps.TailAtClose | parser.cpp:57-58 | `Parser.ReadTail` at a close bracket gives the null tail and leaves the bracket unconsumed for the list |
| ParserProps.TailIsRestOfList | parser.cpp:59-62 | `Parser.ReadTail` at any other token, or at the end of input, is `Parser.ReadList` of the rest without a close bracket of its own |
| ParserProps.DottedListSplices | parser.cpp:54-73 | `Parser.ReadList` of an element, a dot and any expression `x`, then a close bracket, is the cell of the element and `x`, so a list after the dot splices in |
| ReaderProps.ReadOpenStep | parser.cpp:11-12 | an open bracket is read as the list that follows it, closed by its bracket |
| ReaderProps.ReadCloseStep | parser.cpp:50-52 | a close bracket at the head of a list is consumed and gives the empty list |
| ReaderProps.ReadRenderedEmpty | parser.cpp:50-52 | `()` reads as the empty list |
| ReaderProps.ReadDot | parser.cpp:19-24 | a dot where an expression is expected stands for the expression after it |
| ReaderProps.ReadAtom | parser.cpp:38-42 | a symbol, constant or boolean token reads as the atom carrying the same name, value or state |
| ReaderProps.ReadToken | parser.cpp:15-42 | the atom tokens read as atoms, and the scanner moves on to the next token |
| ReaderProps.DottedTailStep | parser.cpp:55-56 | a dot after an element makes the single following atom the tail |
| ReaderProps.ReadListStep | parser.cpp:54-73 | an element and its tail make a cell, and only the outermost call consumes the close bracket |
| ReaderProps.ListCompose | parser.cpp:64-73 | a list body whose tail ends at a close bracket reads as the cell of head and tail, with the bracket consumed |
| ReaderProps.TailRead | parser.cpp:54-62 | the printed tail of a list reads back as that tail, stopping at the close bracket |
| ReaderProps.ReadRendered | scheme.cpp:14-43 | the printed text of any printable value reads back as exactly that value, with the scanner left at whatever followed the text |
| ReaderProps.RenderDefined | scheme.cpp:14-43 | a value without procedures always prints; a cell prints as its head in brackets, then its tail, bracketed only at the top |
| ReaderProps.TailStartsWithSpace | scheme.cpp:31-37 | a non-empty printed tail begins with a space |
| ReaderProps.AtomScans | scheme.cpp:17-24 | the printed form of an atom scans back to that atom's token |
| ReaderProps.FirstTokenStartsExpression | scheme.cpp:26-30 | a printed value starts with a token that can begin an expression: neither a dot nor a close bracket |
| ReaderProps.DecimalOfNatToString | scheme.cpp:20 | the printed digits of a natural number are digits whose decimal value is that number |
| ReaderProps.NumberToken | scheme.cpp:20 | the printed form of any integer scans back to the constant of that integer |
| ReaderProps.NegativeNumberToken | tokenizer.cpp:62-86 | a negative number's printed form (`-` and digits) scans back to that number |
| Printer.NatToString | scheme.cpp:20 | the decimal form is a non-empty string of digits without a leading zero |
| Printer.Render | scheme.cpp:14-43 | printing fails only with a RuntimeError (the failed cast of a procedure to a cell); the text is stated by `PrinterProps.AtomTexts` and `PrinterProps.ListLayout` |
| Printer.RenderTail | scheme.cpp:31-37 | printing a list tail fails only with a RuntimeError; the separators are stated by `PrinterProps.BodyLayout` |
| PrinterProps.AtomTexts | scheme.cpp:17-24 | `Printer.Render` of null is `()`, of a boolean `#t` or `#f`, of a symbol its name, of a number its decimal form, with or without brackets; a procedure is a RuntimeError |
| PrinterProps.IntToStringMeaning | scheme.cpp:20 | `Printer.IntToString` is a minus sign exactly for a negative number, followed by non-empty digits whose decimal value is the magnitude and that start with 0 only for 0 |
| PrinterProps.BodyLayout | scheme.cpp:29-37 | `Printer.Render` of a list without brackets is its elements' texts joined by single spaces (`PrinterProps.Spaced`), then ` . ` and the final atom when the list is dotted |
| PrinterProps.ListLayout | scheme.cpp:26-41 | `Printer.Render` of a list is `(`, its elements' texts joined by single spaces, ` . ` and the final atom when the list is dotted, and `)` |
| PrinterProps.DottedPairText | scheme.cpp:31-36 | `Printer.Render` of the pair of 1 and 2 is `(1 . 2)` |
| PrinterProps.ProperListText | scheme.cpp:31-36 | `Printer.Render` of the list of 1 and 2 is `(1 2)` |
| Objects.RegistrationIndex | object.cpp:3-30 | every primitive has a place in the 27-entry table |
| Objects.PrimNameInjective | object.cpp:3-30 | no two primitives share a name |
| Objects.GetRawVector | object.cpp:45-54 | the raw elements are one per cell, plus one for an improper tail, and the first is the first cell's head (the remaining elements are stated by `ObjectProps.RawOfProperList` and `ObjectProps.RawOfImproperList`) |
| Objects.FinalTail | object.cpp:45-54 | the object a spine ends in is never a cell, and it is null exactly for a proper list |
| Objects.GetObjFrowVector | object.cpp:56-65 | the built object is a proper list with one cell per element from position `i` on |
| Objects.MakeArgsForList | object.cpp:67-79 | the argument list has the single operand `(quote x)` |
| ObjectProps.RawOfBuiltList | object.cpp:56-65 | flattening the list built from `v` at `i` gives back `v[i..]`, or nothing when `i` is past the end |
| ObjectProps.BuiltListOfRaw | object.cpp:45-65 | building from the flattened elements of a proper list gives back that list |
| ObjectProps.ProperListRoundTrip | object.cpp:45-65 | building a list from a proper list's raw elements reproduces it |
| ObjectProps.RawEmptyIffNil | object.cpp:45-54 | the raw elements are empty exactly for the empty list |
| ObjectProps.RawOfProperList | object.cpp:45-54 | the raw elements of a proper list are its heads in order |
| ObjectProps.RawOfImproperList | object.cpp:45-54 | `Objects.GetRawVector` of an improper list is its heads in order followed by the atom its spine ends in |
| ObjectProps.LookupFromBinds | object.cpp:3-30 | the table search finds each primitive under its own name |
| ObjectProps.LookupFromNames | object.cpp:3-30 | the table search gives null or a primitive of the name looked up |
| ObjectProps.TableIsNaming | object.h:55-57 | a symbol evaluates to the primitive of that name, and to null exactly when no primitive has the name |
| Evaluator.GetVector | object.cpp:32-43 | evaluating the arguments succeeds only on a proper list, with one value per element; its failures are stated by `EvalProps.FirstFailingArgument` and `EvalProps.ImproperArgumentsRejected` |
| EvalProps.GetVectorElementwise | object.cpp:32-43 | `Evaluator.GetVector` succeeds exactly when the list is proper and every element evaluates, and the values come in order |
| EvalProps.ImproperArgumentsRejected | object.cpp:32-43 | `Evaluator.GetVector` refuses an argument list with a non-cell tail; when every element before the tail evaluates, the failure is the tail's own evaluation error or else the RuntimeError of the cast to a cell |
| EvalProps.FirstFailingArgument | object.cpp:37-40 | `Evaluator.GetVector` fails at the first element that is null, with a RuntimeError, or that fails to evaluate, with that evaluation's error |
| EvalProps.CallArguments | object.cpp:56-65 | the list `Objects.GetObjFrowVector` builds from expressions flattens back to them, and `Evaluator.GetVector` of it gives their values |
| EvalProps.SelfEvaluating | object.h:40-87 | `Evaluator.Eval` gives numbers and booleans back unchanged, and evaluating again changes nothing |
| EvalProps.SymbolLookup | object.h:55-57 | `Evaluator.Eval` of a primitive's name gives that primitive, and of a name bound to none gives null |
| EvalProps.HeadMustBeProcedure | object.h:117-125 | `Evaluator.Eval` of a cell with a null head, or with a head whose value is not a procedure, is a RuntimeError |
| EvalProps.HeadAppliedToRawTail | object.h:117-125 | `Evaluator.Eval` of a cell whose head evaluates to a primitive is `Evaluator.Apply` of it to the unevaluated tail |
| EvalProps.CallByName | object.h:117-125 | `Evaluator.Eval` of a call by a primitive's name is `Evaluator.ApplyPrim` of that primitive to the argument list |
| EvalProps.QuoteFormEvaluates | object.h:238-246 | `Evaluator.Eval` of `(quote x)` is `x`, unevaluated |
| EvalProps.QuoteMeaning | object.h:238-246 | `Evaluator.ApplyQuote` succeeds exactly with one operand, returns it unevaluated, and fails otherwise with a RuntimeError |
| EvalProps.IsBooleanMeaning | object.h:169-186 | `Evaluator.ApplyIsBoolean` needs a cell argument list (else a RuntimeError), evaluates its first operand before checking the count, passes on that evaluation's error, refuses a second operand with a RuntimeError, and is #t exactly for a boolean value |
| EvalProps.IsNumberMeaning | object.h:390-398 | `Evaluator.ApplyIsNumber` succeeds exactly with one operand, is #t exactly when that raw operand is a number literal, and fails otherwise with a RuntimeError |
| EvalProps.IsNumberOfCall | object.h:390-398 | `Evaluator.ApplyIsNumber` does not evaluate its operand: `(number? (f ...))` is #f whatever the call would give |
| EvalProps.IsPairMeaning | object.h:247-261 | `Evaluator.ApplyIsPair` is #t exactly for one operand value that is a cell; any other count of values gives #f |
| EvalProps.NotMeaning | object.h:187-205 | `Evaluator.ApplyNot` needs one raw operand and is #t exactly for the literal #f |
| EvalProps.AndFromMeaning | object.h:213-219 | `Evaluator.AndFrom` from position `i` yields the reference result `EvalProps.AndResult` over the operand values |
| EvalProps.AndFromStep | object.h:213-219 | one step of `Evaluator.AndFrom`: #f stops it, any other value goes on, and at the end the last operand's value is the result |
| EvalProps.AndApplied | object.h:206-221 | `Evaluator.ApplyAnd` of no operands is #t; otherwise it is the reference result over the operand values |
| EvalProps.AndResultMeaning | object.h:213-219 | the reference result `EvalProps.AndResult` is #f if any value is #f, and the last value otherwise |
| EvalProps.AndMeaning | object.h:206-221 | `Evaluator.ApplyAnd` is #t for no operands, #f when some operand is #f, and otherwise the last operand's value |
| EvalProps.OrFromMeaning | object.h:229-235 | `Evaluator.OrFrom` from position `i` yields the reference result `EvalProps.OrResult` over the operand values |
| EvalProps.OrFromStep | object.h:229-235 | one step of `Evaluator.OrFrom`: the first value that is not #f is returned, and #f goes on |
| EvalProps.OrApplied | object.h:222-237 | `Evaluator.ApplyOr` is the reference result over the operand values, #f for no operands |
| EvalProps.OrResultMeaning | object.h:229-235 | the reference result `EvalProps.OrResult` is the first value that is not #f, or #f when all are #f |
| EvalProps.OrMeaning | object.h:222-237 | `Evaluator.ApplyOr` is the first operand value that is not #f, or #f when there is none |
| EvalProps.RequotedArguments | object.cpp:67-79 | `Evaluator.GetVector` of the re-quoted argument list from `Objects.MakeArgsForList` is the single value `x` |
| EvalProps.IsListRequote | object.h:278-296 | `Evaluator.ApplyIsList` of a re-quoted value is whether it is a proper list, and for a cell it is `list?` of its tail |
| EvalProps.IsNullMeaning | object.h:262-277 | `Evaluator.ApplyIsNull` is #t exactly for one operand value that is the empty list; any other count of values gives #f |
| EvalProps.IsListMeaning | object.h:278-296 | `Evaluator.ApplyIsList` fails with a RuntimeError exactly when there is not one operand value, and is otherwise whether that value is a proper list |
| EvalProps.ConsByCount | object.h:297-316 | `Evaluator.ApplyCons` of 0, 1 or 2 values is null, a one-element list or the pair, and more than 2 is a RuntimeError |
| EvalProps.CarCdrOperandMustBeCell | object.h:317-352 | `Evaluator.ApplyCar` and `Evaluator.ApplyCdr` give a NameError when the argument list or its first operand is not a cell |
| EvalProps.CarCdrMeaning | object.h:317-352 | `Evaluator.ApplyCar`/`Evaluator.ApplyCdr`: on a cell value they give its halves; on null both fail; on an atom `car` gives the atom and `cdr` fails |
| EvalProps.CarCdrOfCons | object.h:297-352 | `Evaluator.ApplyCar` and `Evaluator.ApplyCdr` of a `cons` call give back the values of its two operands |
| EvalProps.ListBuildsProperList | object.h:353-359 | `Evaluator.ApplyList` builds a proper list whose elements are the operand values in order |
| EvalProps.ListRefBounds | object.h:360-374 | `Evaluator.ApplyListRef` succeeds exactly for two operand values whose second is a number below the flattened length of the first, and gives that element; a wrong count, a non-number or out-of-range index is a RuntimeError |
| EvalProps.ListTailBounds | object.h:375-389 | `Evaluator.ApplyListTail` succeeds exactly for two operand values whose second is a number from 0 up to the flattened length of the first, and gives the elements from that index on, null at the length; a wrong count, a non-number or out-of-range index is a RuntimeError |
| EvalProps.CompareMeaning | object.h:399-503 | `Evaluator.ApplyCompare` fails exactly for a non-number or a single operand; otherwise it is #t iff the relation holds for every adjacent pair |
| EvalProps.ArithmeticOnNumbers | object.h:504-551 | `Evaluator.ApplyAdd` is the sum and `Evaluator.ApplyMul` the product of the operands (0 and 1 for none), and `Evaluator.ApplySub` and `Evaluator.ApplyDiv` need two operands |
| EvalProps.NumeralArguments | object.cpp:32-43 | `Evaluator.GetVector` of an argument list of number literals gives those numbers back |
| EvalProps.SubMeaning | object.h:519-536 | `Evaluator.ApplySub` is the first operand minus the sum of the others |
| EvalProps.DivMeaning | object.h:552-572 | `Evaluator.ApplyDiv` fails exactly when a divisor is zero, with a RuntimeError, and with one divisor it is the quotient truncated toward zero |
| EvalProps.MaxMinMeaning | object.h:573-608 | `Evaluator.ApplyMax` and `Evaluator.ApplyMin` fail with a RuntimeError exactly when there is no operand, and otherwise give one of the operands that no other exceeds (for `max`) or undercuts (for `min`) |
| EvalProps.AbsMeaning | object.h:609-621 | `Evaluator.ApplyAbs` needs exactly one operand and gives its absolute value |
| EvalProps.NonNumberRejected | object.h:399-621 | every comparison and arithmetic primitive under `Evaluator.ApplyPrim` refuses a non-number operand with a RuntimeError |
| Arith.AbsValue | object.h:620 | the absolute value is the number or its negation, and never negative |
| Arith.TruncDiv | object.h:568 | the remainder of the truncated quotient is smaller than the divisor and has the dividend's sign |
| Arith.TruncDivRemainder | object.h:568 | the quotient formed from the magnitudes leaves the signed remainder of the magnitudes |
| Arith.DivFold | object.h:563-569 | the division fold fails exactly when some divisor is zero, and the failure is a RuntimeError |
| ArithProps.SumAppend | object.h:512-515 | the sum of a concatenation is the sum of the sums |
| ArithProps.ProductAppend | object.h:545-548 | the product of a concatenation is the product of the products |
| ArithProps.SubFoldIsDifference | object.h:530-533 | subtracting each operand in turn is subtracting their sum |
| ArithProps.ChainAllAdjacent | object.h:410-416 | a chained comparison holds exactly when it holds for every adjacent pair |
| ArithProps.MaxFoldIsMaximum | object.h:584-587 | the maximum fold is the start value or an element, and at least both |
| ArithProps.MinFoldIsMinimum | object.h:602-605 | the minimum fold is the start value or an element, and at most both |
| ArithProps.TruncDivNonNegative | object.h:568 | on non-negative operands truncating division is ordinary division |
| ArithProps.TruncDivNegate | object.h:568 | truncating division commutes with negating the dividend |
| Interpreter.ReadFullString | scheme.cpp:4-12 | reading a whole program fails only with a SyntaxError |
| Interpreter.Run | scheme.cpp:45-52 | a program that does not read is a SyntaxError, and one that reads as the empty list is a RuntimeError |
| InterpreterProps.ReadPrinted | scheme.cpp:4-12 | `Interpreter.ReadFullString` of the printed text of a printable value is that value |
| InterpreterProps.TrailingInputRejected | scheme.cpp:8-10 | `Interpreter.ReadFullString` of two printed values one after the other is a SyntaxError |
| InterpreterProps.ReadStopsBefore | scheme.cpp:8-10 | `Interpreter.ReadFullString` is a SyntaxError when the read stops before a pending token |
| InterpreterProps.QuoteSugarReads | parser.cpp:25-36 | `Interpreter.ReadFullString` of `'` followed by a printed value reads as `(quote v)` |
| InterpreterProps.LoneOpenRejected | parser.cpp:75-77 | `Interpreter.ReadFullString` of `(` is a SyntaxError |
| InterpreterProps.LoneCloseRejected | parser.cpp:13-14 | `Interpreter.ReadFullString` of `)` is a SyntaxError |
| InterpreterProps.LoneQuoteRejected | parser.cpp:25-28 | `Interpreter.ReadFullString` of `'` alone is a SyntaxError |
| InterpreterProps.LeadingDotProgramRejected | parser.cpp:48-49 | `Interpreter.ReadFullString` of `(. 1)` is a SyntaxError |
| InterpreterProps.UnclosedProgramRejected | parser.cpp:64-67 | `Interpreter.ReadFullString` of `(1 2` is a SyntaxError |
| InterpreterProps.SplicedProgram | parser.cpp:55-56 | `Interpreter.ReadFullString` of `(1 . (2 3))` is the list `(1 2 3)` |
| InterpreterProps.QuotedElementProgram | parser.cpp:59-62 | `Interpreter.ReadFullString` of `(1 'x)` is the list `(1 (quote x))` |
| InterpreterProps.SelfEvaluatingProgram | scheme.cpp:45-52 | `Interpreter.Run` of the program text of a number or boolean prints that text |
| InterpreterProps.QuotedProgram | scheme.cpp:45-52 | `Interpreter.Run` of `(quote v)` prints `v` for any printable value |
| InterpreterProps.QuoteSugarProgram | scheme.cpp:45-52 | `Interpreter.Run` of `'` followed by a printed value prints that value back |
| InterpreterProps.VoidProgram | scheme.cpp:47-49 | `Interpreter.Run` of `()` is a RuntimeError |

## Left out

- Integers are unbounded. `std::stoi` overflow on long digit runs (tokenizer.cpp:77, 79, 97) and int64 wrap-around in `+`, `-`, `*`, `/` and `abs` are not modelled. A literal of any size scans to its exact value.
- `std::istream` peeking is modelled by passing the rest of the text as a string. `IsEnd` is the `End` scan, and `GetToken` is the token of a `Tok` scan.
- The input is modelled as a string of characters, not of signed `char` bytes. The tokenizer compares `peek()`, stored in a `char`, against `EOF` (tokenizer.cpp:25-26, 33-34, 64-65, 92, 117). With a signed `char`, the byte 0xFF therefore ends the input early, and a negative `char` passed to `isspace`, `isdigit` or `isalpha` is undefined behaviour. Neither is modelled. The model reads every character the same way and treats characters outside ASCII as non-space, non-digit and non-letter.
- After the end of input the C++ tokenizer keeps its last token as a stale lookahead. `ReadList` (parser.cpp:55-57) then looks at that token. The model has no token at the end. Every path that reads the stale token later reaches a close-bracket check at the end of input, so both give a SyntaxError.
- `shared_ptr` ownership, `enable_shared_from_this` and the `Is`/`As` casts are replaced by pattern matching on the object datatype. A failed cast is the RuntimeError it throws.
- Undefined behaviour is the error kind `Undefined` in the model: a null pointer dereference, or the missing `return` in `Object::Eval` (object.h:14-15). This covers `boolean?` of `()`, an `and`/`or` operand `()`, and evaluating a procedure value. The missing `return` at the end of `Read` (parser.cpp:43) cannot happen, because every token kind is handled.
- `symbol_map[name]` inserts a null entry for an unknown name. The model only looks names up, which is what every later lookup observes. The table is modelled as a search in registration order, and `ObjectProps.TableIsNaming` shows that it names each primitive exactly once.
- Error message strings are left out; only the error kind is kept.
- Recursion depth and stack overflow are not modelled.
- `and` evaluates its last operand a second time for the result (object.h:219). The model does the same, but evaluation has no side effects, so only the value is visible.
- `car` of an atom returns the atom itself, because `GetRawVector` of an atom is that atom. The model keeps this (`EvalProps.CarCdrMeaning`).
- `list?` recurses through `MakeArgsForList` and `Apply`. The model states the recursion's result directly as `IsProperList`, and `EvalProps.IsListRequote` shows that the re-quoted call gives the same value on the tail.
- ReaderProps.ReadRendered: the round trip covers values without procedures whose symbols are names the scanner can produce. Other symbols cannot come from the reader.
- EvalProps.AndMeaning: stated only for operands that all evaluate. An operand that fails to evaluate makes `and` fail unless an earlier operand was #f; the model's `Evaluator.AndFrom` does this, but no lemma states it.
- EvalProps.OrMeaning: stated only for operands that all evaluate. A failing operand makes `or` fail unless an earlier value was not #f; the model's `Evaluator.OrFrom` does this, but no lemma states it.
- EvalProps.DivMeaning: the value is stated for one divisor only. For more divisors it is the left fold of `Arith.TruncDiv`.
- GetRawVector (`Objects.GetRawVector`): its own contract states only the length and the first element. The other elements, and the atom an improper list ends in, are stated by `ObjectProps.RawOfProperList` and `ObjectProps.RawOfImproperList`.
- Printer.Render: its own contract states only the error kind. The text it prints is stated by `PrinterProps.AtomTexts`, `PrinterProps.IntToStringMeaning` and `PrinterProps.ListLayout`.
- scheme.h holds only declarations and is not part of this model.
