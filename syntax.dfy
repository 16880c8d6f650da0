/**
 * The parser of golisp.go: it turns the token slice into a chain of cons
 * cells. A chain is modelled as the sequence of its cars; a car is a number
 * atom, an operator atom, the shared `Nil` atom (written `()`), or a nested
 * chain.
 */
module Syntax {
  import opened Outcomes
  import opened Lexer

  datatype Node = Num(n: int) | Op(s: string) | NilAtom | List(elems: seq<Node>)

  /** The cars read at one nesting level, and the position of the token that ended them. */
  datatype Parsed = Parsed(nodes: seq<Node>, stop: nat)

  /** The tokens before which a level of the parser stops. */
  predicate IsStop(t: Token) { t.kind == EndOfInput || t.kind == RightParen }

  function NodeSize(x: Node): (z: nat)
    ensures z >= 1
    decreases x
  {
    match x
    case List(l) => 1 + ListSize(l)
    case _ => 1
  }

  function ListSize(l: seq<Node>): nat
    decreases l
  {
    if l == [] then 0 else NodeSize(l[0]) + ListSize(l[1..])
  }

  /** One car and the position of the token after it. */
  datatype Car = Car(node: Node, next: nat)

  /**
   * What one call of Parse returns when it starts at token `pos`: the cars
   * up to the first end-of-input or `)` token at this level. Reading a token
   * past the end of the slice is a panic; Parse itself never returns an
   * error.
   */
  function ParseFrom(ts: seq<Token>, pos: nat): (r: Outcome<Parsed>)
    ensures r.Ok? ==> pos <= r.value.stop < |ts| && IsStop(ts[r.value.stop])
    ensures !r.Err?
    ensures r.Panic? ==> r.reason == IndexOutOfRange
    decreases |ts| - pos, 1
  {
    if pos >= |ts| then Panic(IndexOutOfRange)
    else if IsStop(ts[pos]) then Ok(Parsed([], pos))
    else
      match CarAt(ts, pos)
      case Ok(c) => Prefix([c.node], ParseFrom(ts, c.next))
      case Err(e) => Err(e)
      case Panic(k) => Panic(k)
  }

  /**
   * The car that starts at token `pos`, as one pass of Parse's `switch`
   * reads it: a number or operator atom; `(` directly followed by `)` is the
   * `Nil` atom; any other `(` opens a nested level whose closing token is
   * then skipped.
   */
  function CarAt(ts: seq<Token>, pos: nat): (r: Outcome<Car>)
    requires pos < |ts| && !IsStop(ts[pos])
    ensures r.Ok? ==> pos < r.value.next <= |ts|
    ensures !r.Err?
    ensures r.Panic? ==> r.reason == IndexOutOfRange
    decreases |ts| - pos, 0
  {
    if ts[pos].kind == Number then Ok(Car(Num(ts[pos].val), pos + 1))
    else if ts[pos].kind == Operator then Ok(Car(Op(ts[pos].str), pos + 1))
    else if pos + 1 >= |ts| then Panic(IndexOutOfRange)
    else if ts[pos + 1].kind == RightParen then Ok(Car(NilAtom, pos + 2))
    else
      match ParseFrom(ts, pos + 1)
      case Ok(inner) => Ok(Car(List(inner.nodes), inner.stop + 1))
      case Err(e) => Err(e)
      case Panic(k) => Panic(k)
  }

  function NodesOf(r: Outcome<Parsed>): Outcome<seq<Node>>
  {
    match r
    case Ok(p) => Ok(p.nodes)
    case Err(e) => Err(e)
    case Panic(k) => Panic(k)
  }

  /**
   * What a fresh parser over `ts` returns: never an error, a panic only by
   * reading past the end, and the empty chain when the first token stops it.
   */
  function Parse(ts: seq<Token>): (r: Outcome<seq<Node>>)
    ensures !r.Err?
    ensures r.Panic? ==> r.reason == IndexOutOfRange
    ensures |ts| > 0 && IsStop(ts[0]) ==> r == Ok([])
  {
    NodesOf(ParseFrom(ts, 0))
  }

  /** Parser from golisp.go: the token slice and the read position. */
  class Parser {
    const tokens: seq<Token>
    var pos: int

    constructor (toks: seq<Token>)
      ensures tokens == toks && pos == 0
    {
      tokens := toks;
      pos := 0;
    }

    method Next()
      modifies this
      ensures pos == old(pos) + 1
    {
      pos := pos + 1;
    }

    /** The current token; the source indexes the slice unguarded, so a position past the end panics. */
    function Current(): (r: Outcome<Token>)
      reads this
      requires 0 <= pos
      ensures r.Ok? <==> pos < |tokens|
      ensures r.Ok? ==> r.value == tokens[pos]
      ensures !r.Err? && (r.Panic? ==> r.reason == IndexOutOfRange)
    {
      if pos < |tokens| then Ok(tokens[pos]) else Panic(IndexOutOfRange)
    }

    /**
     * Parse: reads cars until an end-of-input or `)` token and leaves the
     * position on that token, as `ParseFrom` describes.
     */
    method Parse() returns (r: Outcome<seq<Node>>)
      requires 0 <= pos <= |tokens|
      modifies this
      ensures r == NodesOf(ParseFrom(tokens, old(pos)))
      ensures r.Ok? ==> pos == ParseFrom(tokens, old(pos)).value.stop
      decreases |tokens| - pos, 1
    {
      ghost var p0 := pos;
      var cars: seq<Node> := [];
      PrefixEmpty(ParseFrom(tokens, pos));
      while true
        invariant p0 <= pos <= |tokens|
        invariant ParseFrom(tokens, p0) == Prefix(cars, ParseFrom(tokens, pos))
        decreases |tokens| - pos
      {
        var cur := Current();
        if !cur.Ok? {
          return Failure(cur);
        }
        if IsStop(cur.value) {
          break;
        }
        var car := ParseCar();
        if !car.Ok? {
          return Failure(car);
        }
        PrefixCons(cars, car.value, ParseFrom(tokens, pos));
        cars := cars + [car.value];
      }
      assert cars + [] == cars;
      return Ok(cars);
    }

    /** One pass of Parse's `switch`: reads the car at the position, as `CarAt` describes. */
    method ParseCar() returns (r: Outcome<Node>)
      requires 0 <= pos < |tokens| && !IsStop(tokens[pos])
      modifies this
      ensures r == NodeOf(CarAt(tokens, old(pos)))
      ensures r.Ok? ==> pos == CarAt(tokens, old(pos)).value.next
      decreases |tokens| - pos, 0
    {
      var t := Current().value;
      if t.kind == Number {
        r := Ok(Num(t.val));
        Next();
      } else if t.kind == Operator {
        r := Ok(Op(t.str));
        Next();
      } else {
        Next();
        var cur := Current();
        if !cur.Ok? {
          return Failure(cur);
        }
        if cur.value.kind == RightParen {
          r := Ok(NilAtom);
        } else {
          var nested := Parse();
          if !nested.Ok? {
            return Failure(nested);
          }
          r := Ok(List(nested.value));
        }
        Next();
      }
    }
  }

  function NodeOf(r: Outcome<Car>): Outcome<Node>
  {
    match r
    case Ok(c) => Ok(c.node)
    case Err(e) => Err(e)
    case Panic(k) => Panic(k)
  }

  /** The cars `cs` read so far, in front of what the rest of the level yields. */
  function Prefix(cs: seq<Node>, r: Outcome<Parsed>): Outcome<Parsed>
  {
    match r
    case Ok(p) => Ok(Parsed(cs + p.nodes, p.stop))
    case Err(e) => Err(e)
    case Panic(k) => Panic(k)
  }

  lemma PrefixEmpty(r: Outcome<Parsed>)
    ensures Prefix([], r) == r
  {
    if r.Ok? {
      assert [] + r.value.nodes == r.value.nodes;
    }
  }

  lemma PrefixCons(cs: seq<Node>, x: Node, r: Outcome<Parsed>)
    ensures Prefix(cs, Prefix([x], r)) == Prefix(cs + [x], r)
  {
    if r.Ok? {
      assert cs + ([x] + r.value.nodes) == (cs + [x]) + r.value.nodes;
    }
  }
}
