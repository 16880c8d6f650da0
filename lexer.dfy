/**
 * The tokenizer of golisp.go: it turns one input line into a token slice
 * ending in a single end-of-input token.
 */
module Lexer {
  import opened Outcomes

  datatype TokenKind = Number | Operator | LeftParen | RightParen | EndOfInput

  /** A token: `val` is used by number tokens, `str` by operators and parentheses. */
  datatype Token = Token(kind: TokenKind, val: int, str: string)

  /** The largest value of Go's 64-bit `int`. */
  const MaxInt: int := 0x7FFF_FFFF_FFFF_FFFF

  const EofToken: Token := Token(EndOfInput, 0, "")

  predicate IsDigit(c: char) { '0' <= c <= '9' }

  /** The characters that become a one-character token. */
  predicate IsSymbol(c: char) {
    c == '+' || c == '-' || c == '*' || c == '/' || c == '(' || c == ')'
  }

  /** The four operator names, shared by the tokenizer, the parser and the evaluator. */
  predicate IsOperatorSymbol(s: string) { s == "+" || s == "-" || s == "*" || s == "/" }

  predicate AllDigits(s: string) { forall i :: 0 <= i < |s| ==> IsDigit(s[i]) }

  function SymbolToken(c: char): (t: Token)
    requires IsSymbol(c)
  {
    match c
    case '(' => Token(LeftParen, 0, "(")
    case ')' => Token(RightParen, 0, ")")
    case _ => Token(Operator, 0, [c])
  }

  function NumberToken(v: int): Token { Token(Number, v, "") }

  /** The tokens the tokenizer can emit before the end-of-input token. */
  predicate IsLexeme(t: Token) {
    match t.kind
    case Number => 0 <= t.val <= MaxInt && t.str == ""
    case Operator => t.val == 0 && IsOperatorSymbol(t.str)
    case LeftParen => t == Token(LeftParen, 0, "(")
    case RightParen => t == Token(RightParen, 0, ")")
    case EndOfInput => false
  }

  /** The decimal value of a digit string (most significant digit first). */
  function DecimalValue(s: string): nat
    requires AllDigits(s)
    decreases |s|
  {
    if s == [] then 0
    else DecimalValue(s[..|s| - 1]) * 10 + (s[|s| - 1] as int - '0' as int)
  }

  /** strconv.Atoi on a non-empty digit string, for a 64-bit `int`. */
  function Atoi(s: string): (r: Outcome<int>)
    requires |s| > 0 && AllDigits(s)
    ensures r.Ok? <==> DecimalValue(s) <= MaxInt
    ensures r.Ok? ==> r.value == DecimalValue(s)
    ensures r.Err? ==> r.error == AtoiOutOfRange(s)
  {
    if DecimalValue(s) <= MaxInt then Ok(DecimalValue(s)) else Err(AtoiOutOfRange(s))
  }

  /** The end of the maximal digit run of `s` that starts at `i`. */
  function RunEnd(s: string, i: nat): (e: nat)
    requires i <= |s|
    ensures i <= e <= |s|
    ensures forall k :: i <= k < e ==> IsDigit(s[k])
    ensures e < |s| ==> !IsDigit(s[e])
    decreases |s| - i
  {
    if i == |s| || !IsDigit(s[i]) then i else RunEnd(s, i + 1)
  }

  /**
   * The tokens of `s` from position `i` on, without the final end-of-input
   * token, read left to right exactly as the tokenizer's loop reads them: a
   * space is skipped, but a space that is the last character makes the skip
   * run off the end; a symbol is one token; a maximal digit run is one
   * number token; any other character is dropped.
   */
  function ScanFrom(s: string, i: nat): (r: Outcome<seq<Token>>)
    requires i <= |s|
    ensures r.Ok? ==> forall k :: 0 <= k < |r.value| ==> IsLexeme(r.value[k])
    ensures r.Err? ==> r.error.AtoiOutOfRange?
    ensures r.Panic? ==> r.reason == IndexOutOfRange
    decreases |s| - i
  {
    if i == |s| then Ok([])
    else if s[i] == ' ' then
      if i + 1 == |s| then Panic(IndexOutOfRange) else ScanFrom(s, i + 1)
    else if IsSymbol(s[i]) then Prepend([SymbolToken(s[i])], ScanFrom(s, i + 1))
    else if IsDigit(s[i]) then
      var e := RunEnd(s, i);
      match Atoi(s[i..e])
      case Ok(v) => Prepend([NumberToken(v)], ScanFrom(s, e))
      case Err(err) => Err(err)
      case Panic(p) => Panic(p)
    else ScanFrom(s, i + 1)
  }

  /** The tokens of the whole of `s`, without the end-of-input token. */
  function Scan(s: string): (r: Outcome<seq<Token>>)
    ensures r.Ok? ==> forall k :: 0 <= k < |r.value| ==> IsLexeme(r.value[k])
    ensures r.Err? ==> r.error.AtoiOutOfRange?
    ensures r.Panic? ==> r.reason == IndexOutOfRange
  {
    ScanFrom(s, 0)
  }

  /** What Tokenize returns when it starts at position `i` of `s`: the tokens, then one end-of-input token. */
  function LexFrom(s: string, i: nat): (r: Outcome<seq<Token>>)
    requires i <= |s|
    ensures r.Ok? ==> |r.value| > 0 && r.value[|r.value| - 1] == EofToken
    ensures r.Ok? ==> forall k :: 0 <= k < |r.value| - 1 ==> IsLexeme(r.value[k])
    ensures r.Ok? ==> forall k :: 0 <= k < |r.value| - 1 ==> r.value[k].kind != EndOfInput
    ensures r.Err? ==> r.error.AtoiOutOfRange?
    ensures r.Panic? ==> r.reason == IndexOutOfRange
  {
    match ScanFrom(s, i)
    case Ok(ts) => Ok(ts + [EofToken])
    case Err(e) => Err(e)
    case Panic(p) => Panic(p)
  }

  /** What Tokenize returns for a fresh tokenizer over `s`. */
  function Lex(s: string): (r: Outcome<seq<Token>>)
    ensures r.Ok? ==> |r.value| > 0 && r.value[|r.value| - 1] == EofToken
    ensures r.Ok? ==> forall k :: 0 <= k < |r.value| - 1 ==> IsLexeme(r.value[k])
    ensures r.Err? ==> r.error.AtoiOutOfRange?
    ensures r.Panic? ==> r.reason == IndexOutOfRange
  {
    LexFrom(s, 0)
  }

  /** Spaces do not change the scan, as long as something non-space follows them. */
  lemma {:induction false} ScanSkipsSpaces(s: string, i: nat, j: nat)
    requires i <= j < |s|
    requires forall k :: i <= k < j ==> s[k] == ' '
    ensures ScanFrom(s, i) == ScanFrom(s, j)
    decreases j - i
  {
    if i < j {
      ScanSkipsSpaces(s, i + 1, j);
    }
  }

  /** A non-empty run of spaces reaching the end of the input panics. */
  lemma {:induction false} ScanTrailingSpaces(s: string, i: nat)
    requires i < |s|
    requires forall k :: i <= k < |s| ==> s[k] == ' '
    ensures ScanFrom(s, i) == Panic(IndexOutOfRange)
    decreases |s| - i
  {
    if i + 1 < |s| {
      ScanTrailingSpaces(s, i + 1);
    }
  }

  /** One step of `ScanFrom` over the maximal digit run `s[i..e]`. */
  lemma ScanAtDigits(s: string, i: nat, e: nat)
    requires i < e <= |s|
    requires forall k :: i <= k < e ==> IsDigit(s[k])
    requires e < |s| ==> !IsDigit(s[e])
    ensures AllDigits(s[i..e])
    ensures Atoi(s[i..e]).Err? ==> ScanFrom(s, i) == Err(Atoi(s[i..e]).error)
    ensures Atoi(s[i..e]).Ok? ==>
      ScanFrom(s, i) == Prepend([NumberToken(Atoi(s[i..e]).value)], ScanFrom(s, e))
  {
    assert RunEnd(s, i) == e;
  }

  /** One step of `ScanFrom` over a symbol. */
  lemma ScanAtSymbol(s: string, i: nat)
    requires i < |s| && IsSymbol(s[i])
    ensures ScanFrom(s, i) == Prepend([SymbolToken(s[i])], ScanFrom(s, i + 1))
  {
  }

  /** One step of `ScanFrom` over a character that is dropped. */
  lemma ScanAtOther(s: string, i: nat)
    requires i < |s| && s[i] != ' ' && !IsSymbol(s[i]) && !IsDigit(s[i])
    ensures ScanFrom(s, i) == ScanFrom(s, i + 1)
  {
  }

  /**
   * One pass of Tokenize's loop from `start`: the spaces before `q` are
   * skipped, the character at `q` is read, and the pass ends at `stop`,
   * after `q` or after the digit run at `q`, having appended `ts`.
   */
  predicate PassAt(s: string, start: nat, q: nat, stop: nat, ts: seq<Token>) {
    start <= q < |s| && s[q] != ' ' && (forall i :: start <= i < q ==> s[i] == ' ')
    && stop == (if IsDigit(s[q]) then RunEnd(s, q) else q + 1)
    && ts == (if IsSymbol(s[q]) then [SymbolToken(s[q])]
              else if IsDigit(s[q]) then [NumberToken(DecimalValue(s[q..stop]))]
              else [])
  }

  /** Tokenizer from golisp.go: the input line and the read position. */
  class Tokenizer {
    const input: string
    var pos: int

    constructor (str: string)
      ensures input == str && pos == 0
    {
      input := str;
      pos := 0;
    }

    method Next()
      modifies this
      ensures pos == old(pos) + 1
    {
      pos := pos + 1;
    }

    /** isDigit: the character at the position is a decimal digit, so neither a space nor a symbol. */
    function IsDigitAt(): (r: bool)
      reads this
      requires 0 <= pos < |input|
      ensures r <==> '0' <= input[pos] <= '9'
      ensures r ==> input[pos] != ' ' && !IsSymbol(input[pos])
    {
      IsDigit(input[pos])
    }

    /**
     * Advances over spaces. The source indexes `input[pos]` unguarded, so
     * reaching the end of the input is a panic: `inBounds` is false then.
     */
    method SkipWhiteSpace() returns (inBounds: bool)
      requires 0 <= pos <= |input|
      modifies this
      ensures old(pos) <= pos <= |input|
      ensures forall i :: old(pos) <= i < pos ==> input[i] == ' '
      ensures inBounds <==> pos < |input|
      ensures inBounds ==> input[pos] != ' '
    {
      while pos < |input| && input[pos] == ' '
        invariant old(pos) <= pos <= |input|
        invariant forall i :: old(pos) <= i < pos ==> input[i] == ' '
        decreases |input| - pos
      {
        Next();
      }
      inBounds := pos < |input|;
    }

    /**
     * The digit branch of Tokenize's switch: reads the maximal digit run at
     * the position, converts it with Atoi, and leaves the position on its
     * last digit (the source's `t.pos--`).
     */
    method ScanNumber() returns (r: Outcome<Token>)
      requires 0 <= pos < |input| && IsDigit(input[pos])
      modifies this
      ensures old(pos) <= pos <= |input|
      ensures !r.Panic?
      ensures r.Ok? ==> pos + 1 == RunEnd(input, old(pos))
      ensures r.Ok? ==> AllDigits(input[old(pos)..pos + 1]) && r.value == NumberToken(DecimalValue(input[old(pos)..pos + 1]))
      ensures r.Err? ==> r.error == AtoiOutOfRange(input[old(pos)..RunEnd(input, old(pos))])
      ensures r.Err? ==> ScanFrom(input, old(pos)) == Err(r.error)
      ensures r.Ok? ==> ScanFrom(input, old(pos)) == Prepend([r.value], ScanFrom(input, pos + 1))
    {
      var start := pos;
      while pos < |input| && IsDigitAt()
        invariant start <= pos <= |input|
        invariant forall k :: start <= k < pos ==> IsDigit(input[k])
        decreases |input| - pos
      {
        Next();
      }
      ScanAtDigits(input, start, pos);
      var val := Atoi(input[start..pos]);
      if val.Err? {
        return Err(val.error);
      }
      pos := pos - 1;
      r := Ok(NumberToken(val.value));
    }

    /**
     * One pass of Tokenize's loop: skips spaces, then reads the symbol or
     * the digit run at the position, or drops the character there, and
     * steps past it. `r` holds the tokens the pass appends.
     */
    method ScanOne() returns (r: Outcome<seq<Token>>)
      requires 0 <= pos < |input|
      modifies this
      ensures r.Ok? ==> old(pos) < pos <= |input|
      ensures r.Ok? ==> exists q :: PassAt(input, old(pos), q, pos, r.value)
      ensures r.Ok? ==> ScanFrom(input, old(pos)) == Prepend(r.value, ScanFrom(input, pos))
      ensures !r.Ok? ==> ScanFrom(input, old(pos)) == r
    {
      ghost var here := pos;
      var inBounds := SkipWhiteSpace();
      if !inBounds {
        ScanTrailingSpaces(input, here);
        return Panic(IndexOutOfRange);
      }
      ScanSkipsSpaces(input, here, pos);
      ghost var q := pos;
      var c := input[pos];
      if IsSymbol(c) {
        ScanAtSymbol(input, pos);
        r := Ok([SymbolToken(c)]);
      } else if IsDigitAt() {
        var num := ScanNumber();
        if num.Err? {
          return Err(num.error);
        }
        r := Ok([num.value]);
      } else {
        ScanAtOther(input, pos);
        r := Ok([]);
        assert Prepend([], ScanFrom(input, pos + 1)) == ScanFrom(input, pos + 1) by {
          if ScanFrom(input, pos + 1).Ok? { assert [] + ScanFrom(input, pos + 1).value == ScanFrom(input, pos + 1).value; }
        }
      }
      Next();
      assert PassAt(input, here, q, pos, r.value);
    }

    /** Tokenize: the tokens of the rest of the input, as `LexFrom` describes them. */
    method Tokenize() returns (r: Outcome<seq<Token>>)
      requires 0 <= pos <= |input|
      modifies this
      ensures r == LexFrom(input, old(pos))
      ensures r.Ok? ==> pos == |input|
    {
      ghost var p0 := pos;
      var tokens: seq<Token> := [];
      assert Prepend(tokens, ScanFrom(input, pos)) == ScanFrom(input, p0) by {
        if ScanFrom(input, pos).Ok? { assert [] + ScanFrom(input, pos).value == ScanFrom(input, pos).value; }
      }
      while pos < |input|
        invariant 0 <= pos <= |input|
        invariant ScanFrom(input, p0) == Prepend(tokens, ScanFrom(input, pos))
        decreases |input| - pos
      {
        var step := ScanOne();
        if !step.Ok? {
          return Failure(step);
        }
        PrependTwice(tokens, step.value, ScanFrom(input, pos));
        tokens := tokens + step.value;
      }
      assert tokens + [] == tokens;
      tokens := tokens + [EofToken];
      return Ok(tokens);
    }
  }
}
