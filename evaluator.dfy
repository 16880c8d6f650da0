/**
 * The evaluator of golisp.go: `Eval` on cons chains and atoms, `Execute`,
 * `evalTerm`, and the four reducers evalAdd, evalSub, evalMul and evalDiv,
 * which share one loop and differ only in the arithmetic step.
 */
module Evaluator {
  import opened Outcomes
  import opened Lexer
  import opened Syntax

  /** The result of an evaluation: a nil *Atom, a number atom, or an operator atom. */
  datatype Value = NoValue | NumVal(n: int) | OpVal(s: string)

  /** The four reducers. */
  datatype Operator = Add | Sub | Mul | Div

  /** The errors evaluation can return: never a reader error, and never Execute's unknown operator. */
  predicate EvalFailure(e: Error) { e == InvalidCar || e == UnexpectedValue || e == DivideByZero }

  function Abs(a: int): nat { if a < 0 then -a else a }

  /**
   * Go's integer division, which truncates toward zero: the remainder
   * `a - q * b` is smaller than the divisor and takes the sign of `a`.
   */
  function GoQuot(a: int, b: int): (q: int)
    requires b != 0
    ensures Abs(a - q * b) < Abs(b)
    ensures a - q * b == 0 || (a - q * b < 0 <==> a < 0)
  {
    var q0 := Abs(a) / Abs(b);
    QuotRemainder(a, b, q0);
    if (a < 0) == (b < 0) then q0 else -q0
  }

  lemma QuotRemainder(a: int, b: int, q0: int)
    requires b != 0 && q0 == Abs(a) / Abs(b)
    ensures var q := if (a < 0) == (b < 0) then q0 else -q0;
      a - q * b == (if a < 0 then -(Abs(a) % Abs(b)) else Abs(a) % Abs(b))
  {
    var aa: int, bb: int := Abs(a), Abs(b);
    var p := q0 * bb;
    assert aa == p + aa % bb;
    MulNeg(q0, bb);
    var q := if (a < 0) == (b < 0) then q0 else -q0;
    if a >= 0 && b > 0 {
      assert q * b == p;
    } else if a >= 0 {
      assert q == -q0 && b == -bb;
      assert q * b == p;
    } else if b < 0 {
      assert q == q0 && b == -bb;
      assert q * b == -p;
    } else {
      assert q == -q0 && b == bb;
      assert q * b == -p;
    }
  }

  lemma MulNeg(x: int, y: int)
    ensures (-x) * y == -(x * y) && x * (-y) == -(x * y) && (-x) * (-y) == x * y
  {
  }

  /** The value of one element of a chain, as evalTerm and Atom.Eval give it. */
  function EvalTerm(x: Node): (r: Outcome<Value>)
    ensures !x.List? ==> r.Ok?
    ensures r.Err? ==> EvalFailure(r.error)
    ensures r.Panic? ==> r.reason != IndexOutOfRange
    decreases NodeSize(x), 0
  {
    match x
    case Num(n) => Ok(NumVal(n))
    case Op(s) => Ok(OpVal(s))
    case NilAtom => Ok(NoValue)
    case List(l) => EvalList(l)
  }

  /**
   * Cons.Eval on the chain `l`: the empty chain is a nil result; a single
   * car is evaluated on its own; otherwise the head decides. A nested chain
   * is evaluated for its failures only, a number is skipped, an operator
   * symbol applies to the rest of the chain, any other symbol is an error,
   * and the `Nil` atom has no value to inspect.
   */
  function EvalList(l: seq<Node>): (r: Outcome<Value>)
    ensures r.Err? ==> EvalFailure(r.error)
    ensures r.Panic? ==> r.reason != IndexOutOfRange
    decreases ListSize(l), 1
  {
    if l == [] then Ok(NoValue)
    else if |l| == 1 then EvalTerm(l[0])
    else
      match l[0]
      case List(inner) =>
        assert ListSize(inner) < NodeSize(l[0]) <= ListSize(l);
        (match EvalList(inner)
         case Ok(_) => EvalList(l[1..])
         case Err(e) => Err(e)
         case Panic(p) => Panic(p))
      case NilAtom => Panic(NilDereference)
      case Num(_) => EvalList(l[1..])
      case Op(s) => if IsOperatorSymbol(s) then Execute(s, l[1..]) else Err(InvalidCar)
  }

  /** Execute: the reducer named by `s` over the operands `t`. */
  function Execute(s: string, t: seq<Node>): (r: Outcome<Value>)
    requires |t| >= 1
    ensures r.Ok? ==> r.value.NumVal?
    ensures !IsOperatorSymbol(s) ==> r == Err(UnexpectedOperator)
    ensures s == "*" && r.Ok? ==> r.value == NumVal(0)
    ensures s == "/" ==> !r.Ok?
    ensures IsOperatorSymbol(s) && r.Err? ==> EvalFailure(r.error)
    ensures r.Panic? ==> r.reason != IndexOutOfRange
    decreases ListSize(t), 4
  {
    if s == "+" then Reduce(Add, t)
    else if s == "-" then Reduce(Sub, t)
    else if s == "*" then Reduce(Mul, t)
    else if s == "/" then Reduce(Div, t)
    else Err(UnexpectedOperator)
  }

  /**
   * What a reducer returns for the operands `t`: the first operand is the
   * left-hand side, the loop folds the remaining ones into an accumulator
   * that starts at 0, and the final step combines the two.
   */
  function Reduce(op: Operator, t: seq<Node>): (r: Outcome<Value>)
    requires |t| >= 1
    ensures r.Ok? ==> r.value.NumVal?
    ensures op == Mul && r.Ok? ==> r.value == NumVal(0)
    ensures op == Div ==> !r.Ok?
    ensures r.Err? ==> EvalFailure(r.error)
    ensures r.Panic? ==> r.reason != IndexOutOfRange
    decreases ListSize(t), 3
  {
    match EvalTerm(t[0])
    case Err(e) => Err(e)
    case Panic(p) => Panic(p)
    case Ok(lhs) =>
      match Accumulate(op, t, 0)
      case Err(e) => Err(e)
      case Panic(p) => Panic(p)
      case Ok(rhs) => Finish(op, lhs, rhs)
  }

  /**
   * The reducers' loop from the cell `c` on, with accumulator `rhs`: each
   * pass evaluates the whole rest of the chain after `c`, stops at a nil
   * result, folds in a number, and rejects an operator atom.
   */
  function Accumulate(op: Operator, c: seq<Node>, rhs: int): (r: Outcome<int>)
    requires |c| >= 1
    ensures (op == Mul || op == Div) && rhs == 0 && r.Ok? ==> r.value == 0
    ensures r.Err? ==> EvalFailure(r.error)
    ensures r.Panic? ==> r.reason != IndexOutOfRange
    decreases ListSize(c), 2
  {
    if |c| == 1 then Ok(rhs)
    else
      match EvalList(c[1..])
      case Err(e) => Err(e)
      case Panic(p) => Panic(p)
      case Ok(v) =>
        match v
        case NoValue => Ok(rhs)
        case OpVal(_) => Err(UnexpectedValue)
        case NumVal(n) =>
          match Step(op, rhs, n)
          case Ok(next) => Accumulate(op, c[1..], next)
          case Err(e) => Err(e)
          case Panic(p) => Panic(p)
  }

  /** One pass of the loop: `rhs += t`, `rhs -= t`, `rhs *= t`, or `rhs /= t` after the zero check. */
  function Step(op: Operator, rhs: int, t: int): (r: Outcome<int>)
    ensures r.Err? <==> op == Div && t == 0
    ensures r.Err? ==> r.error == DivideByZero
    ensures !r.Panic?
    ensures (op == Mul || op == Div) && rhs == 0 && r.Ok? ==> r.value == 0
  {
    match op
    case Add => Ok(rhs + t)
    case Sub => Ok(rhs - t)
    case Mul => Ok(rhs * t)
    case Div => if t == 0 then Err(DivideByZero) else Ok(GoQuot(rhs, t))
  }

  /**
   * The reducers' return statement: `lhs.Val.(int)` panics on a nil result
   * and on an operator atom, and Go's `/` panics on a zero divisor.
   */
  function Finish(op: Operator, lhs: Value, rhs: int): (r: Outcome<Value>)
    ensures r.Ok? ==> lhs.NumVal? && r.value.NumVal?
    ensures lhs.NoValue? ==> r == Panic(NilDereference)
    ensures lhs.OpVal? ==> r == Panic(FailedTypeAssertion)
    ensures op == Div && rhs == 0 ==> !r.Ok?
    ensures op == Div && rhs == 0 && lhs.NumVal? ==> r == Panic(IntegerDivideByZero)
    ensures !r.Err?
    ensures r.Panic? ==> r.reason != IndexOutOfRange
    ensures op == Mul && rhs == 0 && r.Ok? ==> r.value == NumVal(0)
  {
    match lhs
    case NoValue => Panic(NilDereference)
    case OpVal(_) => Panic(FailedTypeAssertion)
    case NumVal(a) =>
      match op
      case Add => Ok(NumVal(a + rhs))
      case Sub => Ok(NumVal(a - rhs))
      case Mul => Ok(NumVal(a * rhs))
      case Div => if rhs == 0 then Panic(IntegerDivideByZero) else Ok(NumVal(GoQuot(a, rhs)))
  }

  /**
   * evalAdd, evalSub, evalMul and evalDiv on the chain `operands`: the loop
   * over the cdr cells, as `Reduce` describes it.
   */
  method EvalOperands(op: Operator, operands: seq<Node>) returns (r: Outcome<Value>)
    requires |operands| >= 1
    ensures r == Reduce(op, operands)
  {
    var lhs := EvalTerm(operands[0]);
    if !lhs.Ok? {
      return Failure(lhs);
    }
    var rhs := 0;
    var c := operands;
    while |c| > 1
      invariant 1 <= |c|
      invariant Accumulate(op, operands, 0) == Accumulate(op, c, rhs)
      decreases |c|
    {
      var temp := EvalList(c[1..]);
      if !temp.Ok? {
        return Failure(temp);
      }
      if temp.value.NoValue? {
        break;
      } else if temp.value.NumVal? {
        var t := temp.value.n;
        match op {
          case Add => rhs := rhs + t;
          case Sub => rhs := rhs - t;
          case Mul => rhs := rhs * t;
          case Div =>
            if t == 0 {
              return Err(DivideByZero);
            }
            rhs := GoQuot(rhs, t);
        }
      } else {
        return Err(UnexpectedValue);
      }
      c := c[1..];
    }
    r := Finish(op, lhs.value, rhs);
  }
}
