/**
 * Particular input lines and what the read-eval loop of golisp.go makes of
 * them, each an instance of the general lemmas in `Lines` and `Reader`.
 * Each line is a parameter fixed by the precondition rather than a literal
 * in the ensures, so that the verifier sees the string through the general
 * lemma's shape instead of unfolding the literal character by character.
 */
module Examples {
  import opened Outcomes
  import opened Lexer
  import opened LexerFacts
  import opened Syntax
  import opened Evaluator
  import opened Reader
  import opened Lines

  lemma OneTwo()
    ensures Numerals([Num(1), Num(2)])
    ensures Spaced([Num(1), Num(2)]) == " 1 2"
  {
    var ns := [Num(1), Num(2)];
    assert IsAtom(ns[0]) && IsAtom(ns[1]);
    assert Decimal(1) == "1" && Decimal(2) == "2";
    assert Spaced(ns[1..]) == " 2";
  }

  /** `(+ 1 2)` is 3. */
  lemma AddOneTwo(line: string)
    requires line == "(+ 1 2)"
    ensures Interpret(line) == Ok(NumVal(3))
  {
    OneTwo();
    assert line == "(" + "+" + Spaced([Num(1), Num(2)]) + ")";
    InterpretApplication("+", [Num(1), Num(2)]);
  }

  /** `(+ 1 2 3)` is 7, not 6: the last operand is added once per operand after the first. */
  lemma AddOneTwoThree(line: string)
    requires line == "(+ 1 2 3)"
    ensures Interpret(line) == Ok(NumVal(7))
  {
    var ns := [Num(1), Num(2), Num(3)];
    assert IsAtom(ns[0]) && IsAtom(ns[1]) && IsAtom(ns[2]);
    assert Decimal(1) == "1" && Decimal(2) == "2" && Decimal(3) == "3";
    assert Spaced(ns[2..]) == " 3";
    assert Spaced(ns[1..]) == " 2 3";
    assert line == "(" + "+" + Spaced(ns) + ")";
    InterpretApplication("+", ns);
  }

  /** `(- 1 2)` is 3, not -1. */
  lemma SubOneTwo(line: string)
    requires line == "(- 1 2)"
    ensures Interpret(line) == Ok(NumVal(3))
  {
    OneTwo();
    assert line == "(" + "-" + Spaced([Num(1), Num(2)]) + ")";
    InterpretApplication("-", [Num(1), Num(2)]);
  }

  /** `(* 3 4)` is 0, not 12. */
  lemma MulThreeFour(line: string)
    requires line == "(* 3 4)"
    ensures Interpret(line) == Ok(NumVal(0))
  {
    var ns := [Num(3), Num(4)];
    assert IsAtom(ns[0]) && IsAtom(ns[1]);
    assert Decimal(3) == "3" && Decimal(4) == "4";
    assert Spaced(ns[1..]) == " 4";
    assert line == "(" + "*" + Spaced(ns) + ")";
    InterpretApplication("*", ns);
  }

  /** `(/ 1 0)` is the "divide by zero" error of the reducer's loop. */
  lemma DivOneZero(line: string)
    requires line == "(/ 1 0)"
    ensures Interpret(line) == Err(DivideByZero)
  {
    var ns := [Num(1), Num(0)];
    assert IsAtom(ns[0]) && IsAtom(ns[1]);
    assert Decimal(1) == "1" && Decimal(0) == "0";
    assert Spaced(ns[1..]) == " 0";
    assert line == "(" + "/" + Spaced(ns) + ")";
    InterpretApplication("/", ns);
  }

  /** `(/ 8 2)` passes the zero check and then divides by the accumulator, which is still 0. */
  lemma DivEightTwo(line: string)
    requires line == "(/ 8 2)"
    ensures Interpret(line) == Panic(IntegerDivideByZero)
  {
    var ns := [Num(8), Num(2)];
    assert IsAtom(ns[0]) && IsAtom(ns[1]);
    assert Decimal(8) == "8" && Decimal(2) == "2";
    assert Spaced(ns[1..]) == " 2";
    assert line == "(" + "/" + Spaced(ns) + ")";
    InterpretApplication("/", ns);
  }

  /** `(+ () 1)`: the first operand has no value. */
  lemma NilOperand(line: string)
    requires line == "(+ () 1)"
    ensures Interpret(line) == Panic(NilDereference)
  {
    var ns := [Num(1)];
    assert IsAtom(ns[0]);
    assert Decimal(1) == "1";
    assert line == "(" + "+" + " ()" + Spaced(ns) + ")";
    InterpretNilOperand("+", ns);
  }

  /** `() 1`: a `()` head with more elements after it. */
  lemma NilHead(line: string)
    requires line == "() 1"
    ensures Interpret(line) == Panic(NilDereference)
  {
    var ns := [Num(1)];
    assert IsAtom(ns[0]);
    assert Decimal(1) == "1";
    assert line == "()" + Spaced(ns);
    InterpretNilHead(ns);
  }

  /** `(+ 1 +)`: an operator atom where the loop expects a number. */
  lemma OperatorOperand(line: string)
    requires line == "(+ 1 +)"
    ensures Interpret(line) == Err(UnexpectedValue)
  {
    var ns := [Num(1)];
    assert IsAtom(ns[0]);
    assert Decimal(1) == "1";
    var a := ns + [Op("+")];
    assert a == [Num(1), Op("+")];
    assert IsAtom(a[0]) && IsAtom(a[1]);
    assert Spaced(a[1..]) == " +";
    assert line == "(" + "+" + Spaced(ns + [Op("+")]) + ")";
    InterpretOperatorOperand("+", ns, "+");
  }

  /** `(+ 1`: the parser reads past the end of the tokens. */
  lemma Unclosed(line: string)
    requires line == "(+ 1"
    ensures ReadSpec(line) == Panic(IndexOutOfRange)
  {
    var ns := [Num(1)];
    assert IsAtom(ns[0]);
    assert Decimal(1) == "1";
    assert line == "(" + "+" + Spaced(ns);
    ReadUnclosed("+", ns);
  }

  /** `(+ 1 2) ` loses its one trailing space; `(+ 1 2)  ` keeps one and panics. */
  lemma TrailingSpaces(one: string, two: string)
    requires one == "(+ 1 2) " && two == "(+ 1 2)  "
    ensures Interpret(one) == Ok(NumVal(3))
    ensures Interpret(two) == Panic(IndexOutOfRange)
  {
    OneTwo();
    var l := [List([Op("+")] + [Num(1), Num(2)])];
    PrintApplication("+", [Num(1), Num(2)]);
    assert Print(l) == "(+ 1 2)";
    assert one == Print(l) + " " && two == Print(l) + "  ";
    ReadTrimsOneSpace(l);
    AddOneTwo("(+ 1 2)");
    InterpretPrint(l);
  }
}
