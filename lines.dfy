/**
 * What the read-eval loop of golisp.go computes for whole families of input
 * lines: flat operator applications over number atoms, `()` operands and
 * heads, operator atoms used as operands, and unclosed applications.
 */
module Lines {
  import opened Outcomes
  import opened Lexer
  import opened LexerFacts
  import opened Syntax
  import opened SyntaxFacts
  import opened Evaluator
  import opened EvalFacts
  import opened Reader

  /** A well-formed number or operator atom. */
  predicate IsAtom(x: Node) { (x.Num? || x.Op?) && WellFormed(x) }

  predicate Atoms(a: seq<Node>) { forall i :: 0 <= i < |a| ==> IsAtom(a[i]) }

  /** Well-formed number atoms only. */
  predicate Numerals(a: seq<Node>) { forall i :: 0 <= i < |a| ==> a[i].Num? && IsAtom(a[i]) }

  function AtomText(x: Node): string
    requires IsAtom(x)
  {
    if x.Num? then Decimal(x.n) else x.s
  }

  /** The atoms of `a`, each preceded by one space: `" 1 2 +"`. */
  function Spaced(a: seq<Node>): string
    requires Atoms(a)
    decreases a
  {
    if a == [] then "" else " " + AtomText(a[0]) + Spaced(a[1..])
  }

  function AtomToken(x: Node): Token
    requires IsAtom(x)
  {
    if x.Num? then NumberToken(x.n) else Token(Operator, 0, x.s)
  }

  lemma UnparseAtoms(a: seq<Node>)
    requires a != [] && Atoms(a)
    ensures Atoms(a[1..]) && IsLexeme(AtomToken(a[0]))
    ensures Unparse(a) == [AtomToken(a[0])] + Unparse(a[1..])
    ensures Spelling(AtomToken(a[0])) == AtomText(a[0])
  {
    assert forall i :: 0 <= i < |a| - 1 ==> a[1..][i] == a[i + 1];
  }

  // Regroup, Wrap, WrapNil, WrapEmpty and WrapOpen are proof steps only: each
  // re-associates one string concatenation that the lemmas below need as a
  // single step, which keeps their proofs within the solver's budget.

  lemma Regroup(s: string, b: string, c: string, d: string, e: string)
    ensures s + b + (c + d + e) == s + (b + c + d) + e
  {
  }

  lemma Wrap(o: string, x: string, y: string, c: string)
    ensures o + "" + (x + y + c) == o + x + y + c
  {
  }

  /** The first step of `Render`. */
  lemma RenderCons(t: Token, rest: seq<Token>)
    requires IsLexeme(t) && rest != [] && AllLexemes(rest)
    ensures AllLexemes([t] + rest)
    ensures Render([t] + rest) == Spelling(t) + Separator(t, rest[0]) + Render(rest)
  {
    AllLexemesAppend([t], rest);
    assert ([t] + rest)[1..] == rest;
  }

  /** The text of `t` followed by the atoms `a`, and then optionally a `)`. */
  lemma {:induction false} RenderAtoms(t: Token, a: seq<Node>, close: seq<Token>)
    requires IsLexeme(t) && t.kind != LeftParen && Atoms(a)
    requires close == [] || close == [CloseToken]
    ensures AllLexemes([t] + (Unparse(a) + close))
    ensures Render([t] + (Unparse(a) + close)) == Spelling(t) + Spaced(a) + (if close == [] then "" else ")")
    decreases a
  {
    var tail := if close == [] then "" else ")";
    if a == [] {
      assert Unparse(a) + close == close;
      if close != [] {
        RenderCons(t, close);
      }
      assert Spaced(a) == "";
      assert Spelling(t) + "" == Spelling(t);
    } else {
      var u := AtomToken(a[0]);
      UnparseAtoms(a);
      var w := Unparse(a[1..]) + close;
      assert Unparse(a) + close == [u] + w;
      RenderAtoms(u, a[1..], close);
      RenderCons(t, [u] + w);
      var rest := AtomText(a[0]) + Spaced(a[1..]) + tail;
      assert Render([u] + w) == rest;
      assert Separator(t, u) == " ";
      assert Render([t] + ([u] + w)) == Spelling(t) + " " + rest;
      assert Spaced(a) == " " + AtomText(a[0]) + Spaced(a[1..]);
      Regroup(Spelling(t), " ", AtomText(a[0]), Spaced(a[1..]), tail);
    }
  }

  /** `(sym a1 a2 …)` is how `Print` writes a flat application. */
  lemma PrintApplication(sym: string, a: seq<Node>)
    requires IsOperatorSymbol(sym) && Atoms(a)
    ensures WellFormedList([List([Op(sym)] + a)])
    ensures Print([List([Op(sym)] + a)]) == "(" + sym + Spaced(a) + ")"
  {
    var e := [Op(sym)] + a;
    assert WellFormedList(e) by {
      assert forall i :: 1 <= i < |e| ==> e[i] == a[i - 1];
    }
    assert WellFormedList([List(e)]);
    var op := Token(Operator, 0, sym);
    assert e[1..] == a;
    assert Unparse(e) == [op] + Unparse(a);
    assert Unparse([List(e)]) == [OpenToken] + ([op] + (Unparse(a) + [CloseToken]));
    RenderAtoms(op, a, [CloseToken]);
    RenderCons(OpenToken, [op] + (Unparse(a) + [CloseToken]));
    Wrap("(", sym, Spaced(a), ")");
    assert Print([List(e)]) == Render(Unparse([List(e)]));
  }

  /**
   * The value of a flat application over number atoms. Each pass of a
   * reducer's loop evaluates the whole rest of the chain, whose value is its
   * last element, so `+` adds the last operand once per operand after the
   * first, and `-` subtracts it from the accumulator that `lhs - rhs` then
   * subtracts again; `*` multiplies into an accumulator that starts at 0;
   * `/` meets either a zero divisor in its loop or its own zero accumulator.
   * So `(+ 1 2)` is 3, `(+ 1 2 3)` is 7, `(- 1 2)` is 3 and `(* 3 4)` is 0.
   */
  lemma InterpretApplication(sym: string, ns: seq<Node>)
    requires IsOperatorSymbol(sym) && |ns| >= 1 && Numerals(ns)
    ensures sym == "+" || sym == "-" ==>
      Interpret("(" + sym + Spaced(ns) + ")") == Ok(NumVal(ns[0].n + (|ns| - 1) * ns[|ns| - 1].n))
    ensures sym == "*" ==> Interpret("(" + sym + Spaced(ns) + ")") == Ok(NumVal(0))
    ensures sym == "/" ==>
      Interpret("(" + sym + Spaced(ns) + ")") ==
      (if |ns| >= 2 && ns[|ns| - 1].n == 0 then Err(DivideByZero) else Panic(IntegerDivideByZero))
  {
    var l := [List([Op(sym)] + ns)];
    PrintApplication(sym, ns);
    InterpretPrint(l);
    ApplicationValue(sym, ns);
  }

  lemma WrapNil(x: string, y: string)
    ensures "(" + "" + (x + " " + ("(" + "" + (")" + y + ")"))) == "(" + x + " ()" + y + ")"
  {
  }

  lemma WrapEmpty(y: string)
    ensures "(" + "" + (")" + y + "") == "()" + y
  {
  }

  lemma WrapOpen(x: string, y: string, z: string)
    ensures x + "" + (y + z + "") == x + y + z
  {
  }

  /** `(sym () a1 a2 …)` is how `Print` writes an application whose first operand is `()`. */
  lemma PrintNilOperand(sym: string, a: seq<Node>)
    requires IsOperatorSymbol(sym) && Atoms(a)
    ensures WellFormedList([List([Op(sym), NilAtom] + a)])
    ensures Print([List([Op(sym), NilAtom] + a)]) == "(" + sym + " ()" + Spaced(a) + ")"
  {
    UnparseNil(a);
    UnparseOp(sym, [NilAtom] + a);
    var e := [Op(sym), NilAtom] + a;
    assert [Op(sym)] + ([NilAtom] + a) == e;
    assert WellFormedList([List(e)]);
    var op := Token(Operator, 0, sym);
    var tail := Unparse(a) + [CloseToken];
    assert Unparse([List(e)]) == [OpenToken] + ([op] + ([OpenToken] + ([CloseToken] + tail)));
    RenderAtoms(CloseToken, a, [CloseToken]);
    RenderCons(OpenToken, [CloseToken] + tail);
    RenderCons(op, [OpenToken] + ([CloseToken] + tail));
    RenderCons(OpenToken, [op] + ([OpenToken] + ([CloseToken] + tail)));
    WrapNil(sym, Spaced(a));
    assert Print([List(e)]) == Render(Unparse([List(e)]));
  }

  /** `() a1 a2 …` is how `Print` writes a chain whose head is `()`. */
  lemma PrintNilHead(a: seq<Node>)
    requires Atoms(a)
    ensures WellFormedList([NilAtom] + a)
    ensures Print([NilAtom] + a) == "()" + Spaced(a)
  {
    UnparseNil(a);
    assert Unparse(a) + [] == Unparse(a);
    assert Unparse([NilAtom] + a) == [OpenToken] + ([CloseToken] + (Unparse(a) + []));
    RenderAtoms(CloseToken, a, []);
    RenderCons(OpenToken, [CloseToken] + (Unparse(a) + []));
    WrapEmpty(Spaced(a));
    assert Print([NilAtom] + a) == Render(Unparse([NilAtom] + a));
  }

  lemma UnparseNil(a: seq<Node>)
    requires Atoms(a)
    ensures WellFormedList([NilAtom] + a)
    ensures Unparse([NilAtom] + a) == [OpenToken, CloseToken] + Unparse(a)
  {
    var l := [NilAtom] + a;
    assert forall i :: 1 <= i < |l| ==> l[i] == a[i - 1];
    assert l[1..] == a;
  }

  lemma UnparseOp(sym: string, l: seq<Node>)
    requires IsOperatorSymbol(sym) && WellFormedList(l)
    ensures WellFormedList([Op(sym)] + l)
    ensures Unparse([Op(sym)] + l) == [Token(Operator, 0, sym)] + Unparse(l)
  {
    var e := [Op(sym)] + l;
    assert forall i :: 1 <= i < |e| ==> e[i] == l[i - 1];
    assert e[1..] == l;
  }

  /** A flat application reads as a chain holding one nested chain. */
  lemma ReadApplication(sym: string, a: seq<Node>)
    requires IsOperatorSymbol(sym) && Atoms(a)
    ensures ReadSpec("(" + sym + Spaced(a) + ")") == Ok([List([Op(sym)] + a)])
  {
    PrintApplication(sym, a);
    ReadPrint([List([Op(sym)] + a)]);
  }

  /**
   * `()` as the first operand: the loop still runs over the later operands
   * (and `/` may meet a zero there), then the nil left-hand side panics.
   */
  lemma InterpretNilOperand(sym: string, ns: seq<Node>)
    requires IsOperatorSymbol(sym) && Numerals(ns)
    ensures Interpret("(" + sym + " ()" + Spaced(ns) + ")") ==
      (if sym == "/" && |ns| >= 1 && ns[|ns| - 1].n == 0 then Err(DivideByZero) else Panic(NilDereference))
  {
    PrintNilOperand(sym, ns);
    InterpretPrint([List([Op(sym), NilAtom] + ns)]);
    NilOperandValue(sym, ns);
  }

  /** `()` at the head of a chain with more elements after it panics. */
  lemma InterpretNilHead(a: seq<Node>)
    requires a != [] && Atoms(a)
    ensures Interpret("()" + Spaced(a)) == Panic(NilDereference)
  {
    PrintNilHead(a);
    InterpretPrint([NilAtom] + a);
  }

  /** An operator atom after number operands, as in `(+ 1 +)`, is the "unexpected value" error. */
  lemma InterpretOperatorOperand(sym: string, ns: seq<Node>, x: string)
    requires IsOperatorSymbol(sym) && IsOperatorSymbol(x) && |ns| >= 1 && Numerals(ns)
    ensures Interpret("(" + sym + Spaced(ns + [Op(x)]) + ")") == Err(UnexpectedValue)
  {
    var a := ns + [Op(x)];
    assert Atoms(a) by {
      assert forall i :: 0 <= i < |ns| ==> a[i] == ns[i];
    }
    PrintApplication(sym, a);
    InterpretPrint([List([Op(sym)] + a)]);
    OperatorOperandValue(sym, ns, x);
  }

  /** The tokens of `(sym a1 a2 …` and their text. */
  lemma RenderUnclosed(sym: string, a: seq<Node>)
    requires IsOperatorSymbol(sym) && Atoms(a)
    ensures WellFormedList([Op(sym)] + a)
    ensures AllLexemes([OpenToken] + Unparse([Op(sym)] + a))
    ensures Render([OpenToken] + Unparse([Op(sym)] + a)) == "(" + sym + Spaced(a)
  {
    var e := [Op(sym)] + a;
    assert WellFormedList(e) by {
      assert forall i :: 1 <= i < |e| ==> e[i] == a[i - 1];
    }
    var op := Token(Operator, 0, sym);
    assert e[1..] == a;
    var u := Unparse(e);
    assert e != [] && e[0] == Op(sym) && UnparseNode(e[0]) == [op];
    assert u == [op] + Unparse(a);
    assert Unparse(a) + [] == Unparse(a);
    RenderAtoms(op, a, []);
    RenderCons(OpenToken, u);
    WrapOpen("(", sym, Spaced(a));
  }

  /** A `(` that is never closed, as in `(+ 1`: the parser reads past the end of the tokens. */
  lemma ReadUnclosed(sym: string, a: seq<Node>)
    requires IsOperatorSymbol(sym) && Atoms(a)
    ensures ReadSpec("(" + sym + Spaced(a)) == Panic(IndexOutOfRange)
  {
    var e := [Op(sym)] + a;
    RenderUnclosed(sym, a);
    var line := "(" + sym + Spaced(a);
    assert TrimSuffix(line) == line;
    LexRender([OpenToken] + Unparse(e));
    ParseUnclosed(e);
  }
}

