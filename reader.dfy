/**
 * Read from golisp.go: trim one trailing space, tokenize, and parse; and
 * the value the read-eval loop computes for one input line.
 */
module Reader {
  import opened Outcomes
  import opened Lexer
  import opened LexerFacts
  import opened Syntax
  import opened SyntaxFacts
  import opened Evaluator

  /** strings.TrimSuffix(s, " "): one trailing space, if there is one, is removed. */
  function TrimSuffix(s: string): (r: string)
    ensures EndsWithSpace(s) ==> r + " " == s
    ensures !EndsWithSpace(s) ==> r == s
  {
    if EndsWithSpace(s) then s[..|s| - 1] else s
  }

  /**
   * What Read returns for the line `s`: its only error is Atoi's, which the
   * tokenizer returns unchanged, and its only panic an index out of range.
   */
  function ReadSpec(s: string): (r: Outcome<seq<Node>>)
    ensures r.Err? <==> Lex(TrimSuffix(s)).Err?
    ensures r.Err? ==> r.error == Lex(TrimSuffix(s)).error && r.error.AtoiOutOfRange?
    ensures r.Panic? ==> r.reason == IndexOutOfRange
  {
    match Lex(TrimSuffix(s))
    case Ok(ts) => Parse(ts)
    case Err(e) => Err(e)
    case Panic(p) => Panic(p)
  }

  /** Read: a tokenizer over the trimmed line, then a parser over its tokens. */
  method Read(str: string) returns (r: Outcome<seq<Node>>)
    ensures r == ReadSpec(str)
  {
    var tokenizer := new Tokenizer(TrimSuffix(str));
    var tokens := tokenizer.Tokenize();
    if !tokens.Ok? {
      return Failure(tokens);
    }
    var parser := new Parser(tokens.value);
    r := parser.Parse();
  }

  /**
   * The value of one input line: Read, then Eval on the chain it returns.
   * Atoi's error and the index-out-of-range panic come from Read and from
   * nowhere else; the other failures come from Eval.
   */
  function Interpret(s: string): (r: Outcome<Value>)
    ensures r.Err? ==> r.error.AtoiOutOfRange? || EvalFailure(r.error)
    ensures (r.Err? && r.error.AtoiOutOfRange?) <==> ReadSpec(s).Err?
    ensures r == Panic(IndexOutOfRange) <==> ReadSpec(s).Panic?
  {
    match ReadSpec(s)
    case Ok(l) => EvalList(l)
    case Err(e) => Err(e)
    case Panic(p) => Panic(p)
  }

  /** A well-formed chain written out in the usual notation, e.g. `(+ 1 (* 2 3))`. */
  function Print(l: seq<Node>): string
    requires WellFormedList(l)
  {
    UnparseLexemes(l);
    Render(Unparse(l))
  }

  /** Reading what `Print` writes gives the chain back. */
  lemma ReadPrint(l: seq<Node>)
    requires WellFormedList(l)
    ensures ReadSpec(Print(l)) == Ok(l)
  {
    var u := Unparse(l);
    UnparseLexemes(l);
    LexRender(u);
    var ts := u + [EofToken];
    assert ts[0..|u|] == u;
    SliceAt(ts, 0, u);
    ParseUnparse(ts, 0, l);
  }

  /** Every chain Read returns is well formed, so `Print` can write it: Read's results are exactly the well-formed chains. */
  lemma ReadImage(s: string)
    requires ReadSpec(s).Ok?
    ensures WellFormedList(ReadSpec(s).value)
    ensures ReadSpec(Print(ReadSpec(s).value)) == ReadSpec(s)
  {
    var ts := Lex(TrimSuffix(s)).value;
    ParseImage(ts, 0);
    ReadPrint(ReadSpec(s).value);
  }

  /** Read fails with an error exactly when a digit run does not fit a 64-bit int; the parser adds no errors. */
  lemma ReadErrorIff(s: string)
    ensures ReadSpec(s).Err? <==> HasOverflowRun(TrimSuffix(s))
    ensures ReadSpec(s).Err? ==> ReadSpec(s).error.AtoiOutOfRange?
  {
    ScanErrorIff(TrimSuffix(s));
  }

  /**
   * Only one trailing space is trimmed: a line that still ends in a space
   * afterwards makes the tokenizer read past its end, unless an
   * out-of-range number comes first.
   */
  lemma ReadTrailingSpacesPanic(s: string)
    requires !HasOverflowRun(TrimSuffix(s)) && EndsWithSpace(TrimSuffix(s))
    ensures ReadSpec(s) == Panic(IndexOutOfRange)
  {
    ScanPanicIff(TrimSuffix(s));
  }

  /** A decimal number reads back as one number atom when it fits a 64-bit int, and is Atoi's range error otherwise. */
  lemma ReadNumber(n: nat)
    ensures n <= MaxInt ==> ReadSpec(Decimal(n)) == Ok([Num(n)]) && Interpret(Decimal(n)) == Ok(NumVal(n))
    ensures n > MaxInt ==> ReadSpec(Decimal(n)) == Err(AtoiOutOfRange(Decimal(n)))
  {
    if n <= MaxInt {
      ReadNumberInRange(n);
    } else {
      ReadNumberOutOfRange(n);
    }
  }

  lemma ReadNumberInRange(n: nat)
    requires n <= MaxInt
    ensures ReadSpec(Decimal(n)) == Ok([Num(n)]) && Interpret(Decimal(n)) == Ok(NumVal(n))
  {
    DecimalRoundTrip(n);
    assert Unparse([Num(n)]) == [NumberToken(n)] by {
      assert [Num(n)][1..] == [];
    }
    assert Print([Num(n)]) == Decimal(n);
    ReadPrint([Num(n)]);
    assert EvalList([Num(n)]) == EvalTerm(Num(n));
  }

  lemma ReadNumberOutOfRange(n: nat)
    requires n > MaxInt
    ensures ReadSpec(Decimal(n)) == Err(AtoiOutOfRange(Decimal(n)))
  {
    var d := Decimal(n);
    DecimalRoundTrip(n);
    assert TrimSuffix(d) == d;
    ScanDigits(d);
  }

  /** The value of a printed chain is the value of the chain. */
  lemma InterpretPrint(l: seq<Node>)
    requires WellFormedList(l)
    ensures Interpret(Print(l)) == EvalList(l)
  {
    ReadPrint(l);
  }

  /** One trailing space is trimmed away; a second one makes the tokenizer read past the end. */
  lemma ReadTrimsOneSpace(l: seq<Node>)
    requires WellFormedList(l)
    ensures ReadSpec(Print(l) + " ") == Ok(l)
    ensures ReadSpec(Print(l) + "  ") == Panic(IndexOutOfRange)
  {
    if l == [] {
      ReadTrimsOneSpaceEmpty();
      return;
    }
    var p := Print(l);
    var u := Unparse(l);
    UnparseLexemes(l);
    UnparseFirst(l);
    assert TrimSuffix(p + " ") == p by {
      assert (p + " ")[..|p|] == p;
    }
    assert TrimSuffix(p + "  ") == p + " " by {
      assert (p + "  ")[..|p| + 1] == p + " ";
    }
    ReadPrint(l);
    ScanRender(u);
    ScanAppend(p, " ");
  }

  /** The empty chain prints as the empty line: one space reads as it, two spaces panic. */
  lemma ReadTrimsOneSpaceEmpty()
    ensures WellFormedList([]) && ReadSpec(Print([]) + " ") == Ok([])
    ensures ReadSpec(Print([]) + "  ") == Panic(IndexOutOfRange)
  {
    assert Unparse([]) == [];
    assert Print([]) == "";
    assert TrimSuffix(" ") == "";
    assert TrimSuffix("  ") == " ";
    assert ScanFrom("", 0) == Ok([]);
    assert [] + [EofToken] == [EofToken];
    assert Lex("") == Ok([EofToken]);
    assert ScanFrom(" ", 0) == Panic(IndexOutOfRange);
  }

  /** An empty line reads as the empty chain, whose value is nil. */
  lemma InterpretEmpty()
    ensures ReadSpec("") == Ok([])
    ensures Interpret("") == Ok(NoValue)
  {
    ReadPrint([]);
  }
}
