# golisp core in Dafny

This project models the interpreter core of golisp, a small Lisp reader and
evaluator for integer prefix arithmetic written in Go (`golisp.go`). The core
has three stages, and the model keeps them all:

- **Tokenizer**: `Lexer.Tokenizer`, a class with the input and a read position. It turns a line into number, operator and parenthesis tokens plus one end-of-input token.
- **Parser**: `Syntax.Parser`, a class with the token slice and a position. It builds a chain of cars: each is a number atom, an operator atom, the `Nil` atom written `()`, or a nested chain.
- **Evaluator**: `Cons.Eval`, `Execute`, `evalTerm`, `Atom.Eval`, and the four reducers `evalAdd`, `evalSub`, `evalMul`, `evalDiv`.
- **`Read`**: trims one trailing space, tokenizes, and parses.

Every operation returns an `Outcome`:

- `Ok` is a value.
- `Err` is one of the Go `error` values the source returns: Atoi's range error, "invalid type of car", "unexpected operator string", "unexpected value", "should not divide by zero".
- `Panic` is a Go run-time panic the source can hit. These are an index out of range, a nil dereference, a failed type assertion, and an integer divide by zero.

The imperative parts of the source stay imperative:

- `Tokenize` is a method with the source's loop, proved equal to the function `Lexer.LexFrom`. The loop's body is the method `ScanOne`, with the digit branch in `ScanNumber`. `skipWhiteSpace` is a method with its own loop, and its contract states which positions it passes over.
- The parser's `Parse` is a method with the source's loop and its recursion into nested levels. It is proved equal to the mutually recursive functions `Syntax.ParseFrom` and `Syntax.CarAt`.
- The four reducers share one loop in `Evaluator.EvalOperands`, proved equal to `Evaluator.Reduce`.

`Cons.Eval`, `Execute`, `evalTerm` and `Atom.Eval` are pure functions on the tree.

On those specifications the project proves round trips, characterisations of every failure, and the values the evaluator computes:

- Printing a well-formed chain and reading it back gives the chain (`Reader.ReadPrint`).
- Everything `Read` returns is well formed (`Reader.ReadImage`).
- The tokenizer errors exactly when a digit run overflows. It panics exactly when no digit run overflows and the trimmed line still ends in a space.
- Atoi's error and the index-out-of-range panic come only from `Read`; evaluation raises neither (`Reader.Interpret`).

The arithmetic is modelled as written:

- Each pass of a reducer's loop evaluates the whole rest of the chain, not the next operand. Over number operands that rest has the value of its last element.
- So over number operands, `+` and `-` both give the first operand plus the last operand once per further operand.
- `*` never yields anything but 0, because its accumulator starts at 0.
- `/` never yields a value. Over number operands it is the zero-divisor error when there are at least two operands and the last is 0, and a divide-by-zero panic otherwise; so `(/ 0)` panics, because the loop never runs and the return computes `0 / 0`. With other operands it can also end in "unexpected value" or in the failure of an operand.

## Where the tests disagree with the code

The model follows `golisp.go`.

- **Tests, `golisp_test.go:15-23`.** These rows expect ordinary arithmetic, and none of them holds for the code as written. `Examples.AddOneTwoThree` proves that `(+ 1 2 3)` is 7, not 6, and `Examples.SubOneTwo` proves that `(- 1 2)` is 3, not -1. Only the rows at `golisp_test.go:13-14` hold: `Reader.InterpretEmpty` for `""` and `Examples.AddOneTwo` for `(+ 1 2)`.
- **Other consequences of the code:**
  - There is no arity check, so `(+ 5)` is 5, and `(/ 8 2 2)` panics.
  - An unmatched `(` panics while parsing (`Lines.ReadUnclosed`, `SyntaxFacts.UnclosedParenPanics`).
  - Unknown characters are dropped silently (`LexerFacts.ScanOther`).
  - `()` as the first operand, or with another element after it, panics with a nil dereference, unless the loop fails first: `(/ () 0)` is the zero-divisor error and `(+ () +)` is "unexpected value" (`EvalFacts.NilFirstOperand`, `EvalFacts.OperatorOperandRejected`). As the last of several operands it ends the loop, so `(+ 1 ())` is 1 (`EvalFacts.NilLastOperandValue`).

## Model

| member | source | states |
|---|---|---|
| Lexer.Atoi | golisp.go:81-84 | strconv.Atoi on a digit string succeeds exactly when its decimal value fits Go's 64-bit int, with that value; otherwise it is the range error naming the digits |
| Lexer.RunEnd | golisp.go:76-80 | the inner loop stops at the end of the maximal digit run: every character before is a digit, the one at the end is not (or the input ends) |
| Lexer.ScanFrom | golisp.go:59-90 | every token the loop emits is a lexeme (a number within int range, one of the four operators, a parenthesis); its only error is Atoi's range error and its only panic an index out of range |
| Lexer.Scan | golisp.go:58-90 | the tokens of a whole line are lexemes; its only error is Atoi's and its only panic an index out of range |
| Lexer.Lex | golisp.go:56-94 | what a fresh tokenizer returns: lexemes followed by exactly one end-of-input token, Atoi's error, or an index-out-of-range panic |
| Lexer.LexFrom | golisp.go:56-94 | a successful tokenization ends in exactly one end-of-input token, and every earlier token is a lexeme |
| Lexer.ScanSkipsSpaces | golisp.go:96-100 | spaces followed by a non-space character produce no token |
| Lexer.ScanTrailingSpaces | golisp.go:96-100 | a run of spaces reaching the end of the input makes skipWhiteSpace index past the end |
| Lexer.ScanAtDigits | golisp.go:76-86 | a maximal digit run becomes one number token with Atoi's value, or the whole tokenization is Atoi's error |
| Lexer.Tokenizer.constructor | golisp.go:48-50 | a new tokenizer reads the given input from position 0 |
| Lexer.Tokenizer.Next | golisp.go:52-54 | advances the position by one |
| Lexer.Tokenizer.IsDigitAt | golisp.go:102-104 | the character at the position is a decimal digit, and then it is neither a space nor one of the symbols the switch handles first |
| Lexer.Tokenizer.SkipWhiteSpace | golisp.go:96-100 | advances over exactly the spaces at the position; reaching the end of the input, where the source indexes out of range, is reported |
| Lexer.Tokenizer.ScanNumber | golisp.go:76-86 | the digit branch: the maximal run at the position is one number token with the run's decimal value, and the position is left on the run's last digit; or it is Atoi's range error naming the run, which is then the whole tokenization's result |
| Lexer.Tokenizer.ScanOne | golisp.go:59-89 | one pass of the loop skips the spaces up to the first non-space character, then stops just after it, or after the digit run it starts; it appends that character's symbol token, the run's number token, or nothing for a dropped character; so it appends exactly the tokens `ScanFrom` produces up to the new position, or fails as `ScanFrom` does |
| Lexer.Tokenizer.Tokenize | golisp.go:56-94 | the tokens, the error or the panic the loop produces are exactly `LexFrom(input, pos)`, and a successful run leaves the position at the end of the input |
| LexerFacts.ScanAppend | golisp.go:59-90 | tokenizing two pieces that meet at a clean border (no space at the end of the first, no digit run across it) is tokenizing each in turn |
| LexerFacts.ScanSymbol | golisp.go:63-74 | each of `+ - * / ( )` is one token of the right kind whose text is that character |
| LexerFacts.ScanDigits | golisp.go:76-86 | a digit string is one number token with its decimal value, or Atoi's range error for those digits |
| LexerFacts.ScanOther | golisp.go:75-88 | any character that is not a space, a symbol or a digit is dropped |
| LexerFacts.ScanLeadingSpace | golisp.go:59-62 | a leading space changes nothing when something follows it, and panics when it is the whole input |
| LexerFacts.ScanFromOutcome | golisp.go:59-100 | from a position that does not split a digit run, the loop errors exactly when a later run overflows and panics exactly when none does and the input ends in a space |
| LexerFacts.ScanErrorIff | golisp.go:81-84 | tokenizing fails with an error exactly when some digit run is out of range, and that error is Atoi's |
| LexerFacts.ScanPanicIff | golisp.go:96-100 | tokenizing panics exactly when no digit run overflows and the input ends in a space |
| LexerFacts.DecimalRoundTrip | golisp.go:81 | Atoi's decimal reading of a number's decimal spelling is that number |
| LexerFacts.ScanRender | golisp.go:56-90 | tokenizing the text of a token list (no space after `(` or before `)`, one space elsewhere) gives the list back |
| LexerFacts.LexRender | golisp.go:56-94 | the same, followed by the single end-of-input token |
| Syntax.ParseFrom | golisp.go:155-195 | a level of the parser never returns an error, and only panics by reading past the end; when it succeeds it stops at an end-of-input token or a `)` at or after its start |
| Syntax.CarAt | golisp.go:172-191 | reading one car never returns an error, only panics by reading past the end and, when it succeeds, always moves forward |
| Syntax.Parse | golisp.go:155-195 | a fresh parser never returns an error and only panics by reading past the end; when the first token stops it, the chain is empty, the nil `*Cons` of line 194 |
| Syntax.Parser.Current | golisp.go:121-123 | the token at the position, and an index-out-of-range panic exactly when the position is past the end |
| Syntax.Parser.constructor | golisp.go:113-115 | a new parser reads the given tokens from position 0 |
| Syntax.Parser.Next | golisp.go:129-131 | advances the position by one |
| Syntax.Parser.Parse | golisp.go:155-195 | the loop builds exactly the chain `ParseFrom` describes and leaves the position on the stop token, or fails the same way |
| Syntax.Parser.ParseCar | golisp.go:172-191 | one pass of the loop's switch, including the nested Parse call and the `p.next()` after it, is exactly `CarAt` |
| SyntaxFacts.ParseUnparse | golisp.go:155-195 | parsing the tokens of a well-formed chain, followed by a stop token, gives the chain back and stops right after its tokens |
| SyntaxFacts.CarUnparse | golisp.go:172-191 | reading the tokens of one well-formed car gives it back and moves past its tokens |
| SyntaxFacts.ParseImage | golisp.go:155-195 | on a tokenizer's output, every chain the parser returns is well formed and its tokens are exactly the tokens consumed |
| SyntaxFacts.CarImage | golisp.go:172-191 | the same for one car |
| SyntaxFacts.ParseIgnoresRest | golisp.go:158-161 | the tokens after the one that ends a successful parse are never looked at |
| SyntaxFacts.UnclosedParenPanics | golisp.go:121-123 | over a tokenizer's output with more `(` than `)`, where no prefix closes more than it opens, Parse panics |
| SyntaxFacts.ParseUnclosed | golisp.go:179-190 | a nested chain missing its `)` makes `p.next()` step past the end-of-input token, and the next `current()` panics |
| SyntaxFacts.UnparseBalanced | golisp.go:179-190 | the tokens of a well-formed chain hold as many `(` as `)` |
| Evaluator.GoQuot | golisp.go:402 | Go's `/` truncates toward zero: the remainder is smaller than the divisor and is zero or has the dividend's sign |
| Evaluator.EvalTerm | golisp.go:290-300 | evalTerm, with Atom.Eval (414-419): an atom never fails; a failure is always an evaluation error and never an index-out-of-range panic |
| Evaluator.EvalList | golisp.go:222-273 | Cons.Eval: its errors are only "invalid type of car", "unexpected value" and "should not divide by zero", and it never raises an index-out-of-range panic |
| Evaluator.Execute | golisp.go:275-288 | only the four operator symbols select a reducer, any other string is the "unexpected operator string" error; `*` never yields a non-zero number and `/` never yields a number; for the four symbols every error is an evaluation error |
| Evaluator.Reduce | golisp.go:302-412 | a reducer's result is a number atom when it succeeds; `evalMul` only ever yields 0 and `evalDiv` never succeeds |
| Evaluator.Accumulate | golisp.go:308-324 | the loop's accumulator, starting at 0, stays 0 under `*=` and `/=` |
| Evaluator.Step | golisp.go:399-403 | a pass fails exactly for `/` with a zero operand, with the "should not divide by zero" error, and never panics |
| Evaluator.Finish | golisp.go:326 | the return statement (the same at lines 353, 380 and 411): `lhs.Val.(int)` panics with a nil dereference on a nil left-hand side and a failed type assertion on an operator atom; `/` of a number by the zero accumulator is the divide-by-zero panic; the return statement never produces an error |
| Evaluator.EvalOperands | golisp.go:302-412 | the reducers' loop over the cons cells computes exactly `Reduce` |
| EvalFacts.EvalSkipsHeads | golisp.go:238-263 | heads that are numbers, or nested chains whose evaluation succeeds, are skipped: a chain with such heads in front of a non-empty rest has the value of the rest |
| EvalFacts.EvalFailingHead | golisp.go:238-241 | a nested chain at the head whose evaluation fails makes the whole chain fail with that same failure |
| EvalFacts.EvalNumbers | golisp.go:222-273 | a chain of numbers evaluates to its last number |
| EvalFacts.AccumulateNumbers | golisp.go:308-324 | over number operands the loop adds or subtracts the last operand once per pass, and `*`/`/` keep 0 unless `/` meets a zero last operand |
| EvalFacts.ReduceNumbers | golisp.go:302-412 | closed forms of the four reducers on number operands |
| EvalFacts.NilFirstOperand | golisp.go:303-326 | `()` before number operands leaves a nil left-hand side that panics at the return after the loop has run, unless `/` meets a zero last operand first and returns the zero-divisor error |
| EvalFacts.OperatorOperandRejected | golisp.go:317-321 | an operator atom reached by the loop is the "unexpected value" error |
| EvalFacts.EvalApplication | golisp.go:253-256 | a car that is one of the four operator symbols hands the rest of the chain to Execute |
| EvalFacts.ApplicationValue | golisp.go:253-256 | the value of `(sym n1 … nk)` over numbers: first plus (k-1)·last for `+` and `-`, 0 for `*`, an error or a panic for `/` |
| EvalFacts.NilOperandValue | golisp.go:303-326 | the value of `(sym () n1 … nk)` |
| EvalFacts.OperatorOperandValue | golisp.go:317-321 | the value of `(sym n1 … nk x)` with an operator atom `x` |
| EvalFacts.NilLastOperandValue | golisp.go:315-316 | `(sym n1 … nk ())`: the loop's first pass meets the nil value of `()` and stops, so `+` and `-` give the first operand, `*` gives 0 and `/` panics |
| Reader.TrimSuffix | golisp.go:15 | strings.TrimSuffix removes one trailing space when there is one and changes nothing otherwise |
| Reader.ReadSpec | golisp.go:14-23 | Read errors exactly when the tokenizer does, with the tokenizer's error, which is Atoi's; its only panic is an index out of range |
| Reader.Interpret | golisp_test.go:27-32 | Read then Eval: an Atoi error comes exactly from Read's error, an index-out-of-range panic exactly from Read's panic, and every other error is an evaluation error |
| Reader.Read | golisp.go:14-23 | Read is the trimmed line tokenized, then parsed; a tokenizer error is returned unchanged |
| Reader.ReadPrint | golisp.go:14-23 | reading the printed form of any well-formed chain gives the chain back |
| Reader.ReadImage | golisp.go:14-23 | every chain Read returns is well formed, and printing then reading it gives the same result |
| Reader.ReadErrorIff | golisp.go:14-23 | Read returns an error exactly when a digit run of the trimmed line is out of range, and it is Atoi's; the parser adds none |
| Reader.ReadTrailingSpacesPanic | golisp.go:96-100 | a line still ending in a space after the trim panics, unless a number overflows first |
| Reader.ReadNumber | golisp.go:76-86 | a decimal number reads as one number atom and evaluates to itself when it fits an int, and is Atoi's range error otherwise |
| Reader.ReadNumberInRange | golisp.go:76-86 | a decimal number within int range reads as one number atom and evaluates to itself |
| Reader.ReadNumberOutOfRange | golisp.go:81-84 | a decimal number above the int range is Atoi's range error for its digits |
| Reader.InterpretPrint | golisp.go:222-273 | the value of a printed chain is the value of the chain |
| Reader.ReadTrimsOneSpace | golisp.go:15 | for every well-formed chain, the empty one included, one trailing space after its printed form is removed, and a second one is left for the tokenizer and panics |
| Reader.ReadTrimsOneSpaceEmpty | golisp.go:15 | a line of one space reads as the empty chain, and a line of two spaces panics |
| Reader.InterpretEmpty | golisp_test.go:13 | the empty line reads as the empty chain, whose value is nil |
| Lines.InterpretApplication | golisp.go:302-412 | for every operator and every list of numbers, the value of `(sym n1 … nk)` as written out on one line |
| Lines.ReadApplication | golisp.go:155-195 | the line `(sym a1 … ak)` over atoms reads as one nested chain |
| Lines.InterpretNilOperand | golisp.go:303-326 | the line `(sym () n1 … nk)` panics on the nil left-hand side, or meets a zero divisor first |
| Lines.InterpretNilHead | golisp.go:247-253 | the line `() a1 … ak` panics, because Atom.Eval of `Nil` is nil and its `Val` is read |
| Lines.InterpretOperatorOperand | golisp.go:317-321 | the line `(sym n1 … nk x)` with a trailing operator atom is the "unexpected value" error |
| Lines.ReadUnclosed | golisp.go:121-123 | the line `(sym a1 … ak` without its `)` panics in the parser |
| Examples.AddOneTwo | golisp_test.go:14 | `(+ 1 2)` is 3 |
| Examples.AddOneTwoThree | golisp_test.go:15 | `(+ 1 2 3)` is 7, not the 6 the test expects |
| Examples.SubOneTwo | golisp_test.go:19 | `(- 1 2)` is 3, not the -1 the test expects |
| Examples.MulThreeFour | golisp.go:362-380 | `(* 3 4)` is 0 |
| Examples.DivOneZero | golisp.go:399-400 | `(/ 1 0)` is the "should not divide by zero" error |
| Examples.DivEightTwo | golisp.go:411 | `(/ 8 2)` panics dividing by the zero accumulator |
| Examples.NilOperand | golisp.go:326 | `(+ () 1)` panics on the nil left-hand side |
| Examples.NilHead | golisp.go:248-253 | `() 1` panics |
| Examples.OperatorOperand | golisp.go:319-320 | `(+ 1 +)` is the "unexpected value" error |
| Examples.Unclosed | golisp.go:190 | `(+ 1` panics in the parser |
| Examples.TrailingSpaces | golisp.go:15 | `(+ 1 2) ` is 3, and `(+ 1 2)  ` panics |

## Left out

- The read-eval loop and `main` (golisp.go:436-465) are left out because they are console I/O. `Reader.Interpret` is Read followed by Eval, as the test file uses them. The loop also calls `debugCons` before Eval, which would dereference the nil chain of an empty line; that is not modelled.
- `debugCons`, `debugAtom` and `Atom.String` (golisp.go:197-218, 423-432) only print, so they are left out.
- strconv.Atoi is modelled by its result on digit strings, the only strings the tokenizer passes to it. Its internals are left out.
- Evaluator.Step: adds, subtracts and multiplies unbounded integers; Go's 64-bit wrap-around on overflow is not modelled. The same holds for `a + rhs` and `a - rhs` in `Evaluator.Finish`. So the closed forms in `EvalFacts.AccumulateNumbers`, `EvalFacts.ReduceNumbers`, `EvalFacts.ApplicationValue` and `Lines.InterpretApplication` are the Go results only while every intermediate value stays within the 64-bit range.
- Go indexes strings by byte; the model indexes characters. Every byte of a non-ASCII character is dropped by the tokenizer, just as the character is, so nothing else changes.
- Cons cells, the shared `Nil` atom and its pointer comparisons are modelled as sequences and a `NilAtom` constructor. Aliasing of cells and in-place updates of `Cdr` are not modelled.
- The four reducers are one method over an operator argument. They differ only in the arithmetic step.
- Some branches cannot be reached from a parsed chain, and the model leaves them out:
  - the type-switch defaults "invalid type of car" (golisp.go:233-234, 267-268);
  - "should be handle another way" (264);
  - evalTerm's "invalid type of argument" (299);
  - the comparison `temp == &Nil` (315).
  
  The "invalid type of car" error for an unknown operator string (258) and Execute's "unexpected operator string" are modelled even though the tokenizer only produces the four operators.
- `Parser.peek` (golisp.go:125-127) is never called and is left out. `Parser.Pos` is the field read.
- A panic is a final `Panic` outcome; unwinding and `recover` are not modelled.
