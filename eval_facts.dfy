/** Properties of the evaluator's specification. */
module EvalFacts {
  import opened Outcomes
  import opened Lexer
  import opened Syntax
  import opened Evaluator

  predicate AllNumbers(l: seq<Node>) { forall i :: 0 <= i < |l| ==> l[i].Num? }

  /** The last number of the operands after the first one, or 0 when there are none. */
  function Trailing(t: seq<Node>): int
  {
    if |t| >= 2 && t[|t| - 1].Num? then t[|t| - 1].n else 0
  }

  /** A head Cons.Eval passes over: a number, or a nested chain whose evaluation succeeds. */
  predicate Skipped(x: Node) { x.Num? || (x.List? && EvalList(x.elems).Ok?) }

  /**
   * Heads that are numbers or successful nested chains, in front of a
   * non-empty chain, are skipped: only what follows them decides the value.
   */
  lemma {:induction false} EvalSkipsHeads(hs: seq<Node>, rest: seq<Node>)
    requires rest != [] && forall i :: 0 <= i < |hs| ==> Skipped(hs[i])
    ensures EvalList(hs + rest) == EvalList(rest)
    decreases |hs|
  {
    if hs == [] {
      assert hs + rest == rest;
    } else {
      var l := hs + rest;
      assert l[0] == hs[0];
      assert l[1..] == hs[1..] + rest;
      EvalSkipsHeads(hs[1..], rest);
    }
  }

  /** A nested chain at the head whose evaluation fails makes the whole chain fail the same way. */
  lemma EvalFailingHead(inner: seq<Node>, rest: seq<Node>)
    requires !EvalList(inner).Ok?
    ensures EvalList([List(inner)] + rest) == EvalList(inner)
  {
    var l := [List(inner)] + rest;
    assert l[0] == List(inner);
    if rest == [] {
      assert l == [List(inner)];
    }
  }

  /** A chain of numbers evaluates to its last number. */
  lemma EvalNumbers(l: seq<Node>)
    requires l != [] && AllNumbers(l)
    ensures EvalList(l) == Ok(NumVal(l[|l| - 1].n))
  {
    EvalSkipsHeads(l[..|l| - 1], [l[|l| - 1]]);
    assert l[..|l| - 1] + [l[|l| - 1]] == l;
  }

  /**
   * The reducers' loop over number operands: every pass evaluates the rest
   * of the chain, which is its last number, so that number is folded in
   * once per remaining operand.
   */
  lemma {:induction false} AccumulateNumbers(op: Operator, c: seq<Node>, rhs: int)
    requires |c| >= 1 && AllNumbers(c[1..])
    ensures op == Add ==> Accumulate(op, c, rhs) == Ok(rhs + (|c| - 1) * Trailing(c))
    ensures op == Sub ==> Accumulate(op, c, rhs) == Ok(rhs - (|c| - 1) * Trailing(c))
    ensures op == Mul && rhs == 0 ==> Accumulate(op, c, rhs) == Ok(0)
    ensures op == Div && rhs == 0 ==>
      Accumulate(op, c, rhs) == (if |c| >= 2 && Trailing(c) == 0 then Err(DivideByZero) else Ok(0))
    decreases |c|
  {
    if |c| > 1 {
      var rest := c[1..];
      assert rest[|rest| - 1] == c[|c| - 1];
      var last := rest[|rest| - 1].n;
      EvalNumbers(rest);
      assert AllNumbers(rest[1..]) by {
        forall i | 0 <= i < |rest[1..]| ensures rest[1..][i].Num? { assert rest[1..][i] == rest[i + 1]; }
      }
      assert |rest| >= 2 ==> Trailing(rest) == last;
      var step := Step(op, rhs, last);
      if step.Ok? {
        AccumulateNumbers(op, rest, step.value);
        if |rest| == 1 {
          assert Accumulate(op, rest, step.value) == Ok(step.value);
        }
        if op == Add {
          assert rhs + last + (|rest| - 1) * last == rhs + (|c| - 1) * last;
        } else if op == Sub {
          assert rhs - last - (|rest| - 1) * last == rhs - (|c| - 1) * last;
        }
      }
    }
  }

  /**
   * The reducers over number operands `(op t0 t1 ... tk)`: `+` and `-` both
   * give `t0 + k * tk`, `*` always gives 0, and `/` fails with the
   * divide-by-zero error when `tk` is 0 and panics otherwise.
   */
  lemma ReduceNumbers(op: Operator, t: seq<Node>)
    requires |t| >= 1 && t[0].Num? && AllNumbers(t[1..])
    ensures op == Add || op == Sub ==> Reduce(op, t) == Ok(NumVal(t[0].n + (|t| - 1) * Trailing(t)))
    ensures op == Mul ==> Reduce(op, t) == Ok(NumVal(0))
    ensures op == Div ==>
      Reduce(op, t) == (if |t| >= 2 && Trailing(t) == 0 then Err(DivideByZero) else Panic(IntegerDivideByZero))
  {
    AccumulateNumbers(op, t, 0);
  }

  /** `()` as the first operand: the loop runs, then the left-hand side has no value. */
  lemma NilFirstOperand(op: Operator, t: seq<Node>)
    requires |t| >= 1 && t[0] == NilAtom && AllNumbers(t[1..])
    ensures Reduce(op, t) ==
      (if op == Div && |t| >= 2 && Trailing(t) == 0 then Err(DivideByZero) else Panic(NilDereference))
  {
    AccumulateNumbers(op, t, 0);
  }

  /** An operator atom as the last operand, after number operands, is the "unexpected value" error. */
  lemma OperatorOperandRejected(op: Operator, t: seq<Node>)
    requires |t| >= 2 && !t[0].List? && AllNumbers(t[1..|t| - 1]) && t[|t| - 1].Op?
    ensures Reduce(op, t) == Err(UnexpectedValue)
  {
    EvalSkipsHeads(t[1..|t| - 1], [t[|t| - 1]]);
    assert t[1..|t| - 1] + [t[|t| - 1]] == t[1..];
  }

  /** A chain holding one application evaluates to that operator applied to its operands. */
  lemma EvalApplication(sym: string, t: seq<Node>)
    requires IsOperatorSymbol(sym) && |t| >= 1
    ensures EvalList([List([Op(sym)] + t)]) == Execute(sym, t)
  {
    var e := [Op(sym)] + t;
    assert e[1..] == t;
    assert EvalList([List(e)]) == EvalTerm(List(e));
  }

  /**
   * The value of `(sym n1 … nk)` over number atoms: `+` and `-` both give
   * the first operand plus the last one once per further operand, `*` is
   * 0, and `/` is an error or a panic.
   */
  lemma ApplicationValue(sym: string, ns: seq<Node>)
    requires IsOperatorSymbol(sym) && |ns| >= 1 && AllNumbers(ns)
    ensures sym == "+" || sym == "-" ==>
      EvalList([List([Op(sym)] + ns)]) == Ok(NumVal(ns[0].n + (|ns| - 1) * ns[|ns| - 1].n))
    ensures sym == "*" ==> EvalList([List([Op(sym)] + ns)]) == Ok(NumVal(0))
    ensures sym == "/" ==>
      EvalList([List([Op(sym)] + ns)]) ==
      (if |ns| >= 2 && ns[|ns| - 1].n == 0 then Err(DivideByZero) else Panic(IntegerDivideByZero))
  {
    EvalApplication(sym, ns);
    assert AllNumbers(ns[1..]);
    if |ns| >= 2 {
      assert Trailing(ns) == ns[|ns| - 1].n;
    }
    if sym == "+" {
      ReduceNumbers(Add, ns);
    } else if sym == "-" {
      ReduceNumbers(Sub, ns);
    } else if sym == "*" {
      ReduceNumbers(Mul, ns);
    } else {
      ReduceNumbers(Div, ns);
    }
  }

  /** `(sym () n1 … nk)`: the reducer's left-hand side is nil, unless the loop first meets a zero divisor. */
  lemma NilOperandValue(sym: string, ns: seq<Node>)
    requires IsOperatorSymbol(sym) && AllNumbers(ns)
    ensures EvalList([List([Op(sym), NilAtom] + ns)]) ==
      (if sym == "/" && |ns| >= 1 && ns[|ns| - 1].n == 0 then Err(DivideByZero) else Panic(NilDereference))
  {
    var t := [NilAtom] + ns;
    assert [Op(sym)] + t == [Op(sym), NilAtom] + ns;
    EvalApplication(sym, t);
    assert t[1..] == ns;
    var op := if sym == "+" then Add else if sym == "-" then Sub else if sym == "*" then Mul else Div;
    assert Execute(sym, t) == Reduce(op, t);
    NilFirstOperand(op, t);
  }

  /** `(sym n1 … nk x)` with an operator atom `x` last: the reducer's loop rejects the operator value. */
  lemma OperatorOperandValue(sym: string, ns: seq<Node>, x: string)
    requires IsOperatorSymbol(sym) && |ns| >= 1 && AllNumbers(ns)
    ensures EvalList([List([Op(sym)] + (ns + [Op(x)]))]) == Err(UnexpectedValue)
  {
    var t := ns + [Op(x)];
    EvalApplication(sym, t);
    assert t[1..|t| - 1] == ns[1..];
    var op := if sym == "+" then Add else if sym == "-" then Sub else if sym == "*" then Mul else Div;
    assert Execute(sym, t) == Reduce(op, t);
    OperatorOperandRejected(op, t);
  }

  /**
   * `(sym n1 … nk ())`: the loop's first pass evaluates a rest that ends in
   * `()`, whose value is nil, so it stops with the accumulator still 0 and
   * the result is the first operand combined with 0.
   */
  lemma NilLastOperandValue(sym: string, ns: seq<Node>)
    requires IsOperatorSymbol(sym) && |ns| >= 1 && AllNumbers(ns)
    ensures EvalList([List([Op(sym)] + (ns + [NilAtom]))]) ==
      (if sym == "/" then Panic(IntegerDivideByZero)
       else if sym == "*" then Ok(NumVal(0))
       else Ok(NumVal(ns[0].n)))
  {
    var t := ns + [NilAtom];
    EvalApplication(sym, t);
    var op := if sym == "+" then Add else if sym == "-" then Sub else if sym == "*" then Mul else Div;
    assert Execute(sym, t) == Reduce(op, t);
    assert t[0] == ns[0];
    assert t[1..] == ns[1..] + [NilAtom];
    EvalSkipsHeads(ns[1..], [NilAtom]);
    assert EvalList(t[1..]) == Ok(NoValue);
    assert Accumulate(op, t, 0) == Ok(0);
    assert EvalTerm(t[0]) == Ok(NumVal(ns[0].n));
    assert Reduce(op, t) == Finish(op, NumVal(ns[0].n), 0);
  }
}
