/** Outcomes shared by every stage of the interpreter pipeline. */
module Outcomes {

  /** The error values the source returns through Go's `error` results. */
  datatype Error =
    | AtoiOutOfRange(digits: string)   // strconv.Atoi on a digit run that does not fit a 64-bit int
    | InvalidCar                       // "invalid type of car": an operator atom with an unknown symbol
    | UnexpectedOperator               // "unexpected operator string" from Execute
    | UnexpectedValue                  // "unexpected value": an operand term gave an operator atom
    | DivideByZero                     // "should not divide by zero"

  /** The Go run-time panics the source can raise; they are not ordinary errors. */
  datatype PanicReason =
    | IndexOutOfRange       // reading a string or a slice past its end
    | NilDereference        // `.Val` of a nil *Atom
    | FailedTypeAssertion   // `.(int)` on an atom whose value is a string
    | IntegerDivideByZero   // the final `lhs / rhs` with `rhs == 0`

  /** What one stage produces: a value, an error result, or a panic. */
  datatype Outcome<T> = Ok(value: T) | Err(error: Error) | Panic(reason: PanicReason)

  /** The failure `r`, passed on unchanged at another result type. */
  function Failure<T, U>(r: Outcome<T>): Outcome<U>
    requires !r.Ok?
  {
    if r.Err? then Err(r.error) else Panic(r.reason)
  }

  /** `xs` followed by the sequence in `r`; errors and panics pass through unchanged. */
  function Prepend<T>(xs: seq<T>, r: Outcome<seq<T>>): Outcome<seq<T>>
  {
    match r
    case Ok(ys) => Ok(xs + ys)
    case Err(e) => Err(e)
    case Panic(p) => Panic(p)
  }

  lemma PrependTwice<T>(xs: seq<T>, ys: seq<T>, r: Outcome<seq<T>>)
    ensures Prepend(xs, Prepend(ys, r)) == Prepend(xs + ys, r)
  {
    if r.Ok? {
      assert xs + (ys + r.value) == (xs + ys) + r.value;
    }
  }
}
