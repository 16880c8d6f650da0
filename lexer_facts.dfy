/** Properties of the tokenizer's specification `Scan`/`Lex`. */
module LexerFacts {
  import opened Outcomes
  import opened Lexer

  /** The scan of `a` followed by the scan of `b`; an error or panic of the first wins. */
  function Join(x: Outcome<seq<Token>>, y: Outcome<seq<Token>>): Outcome<seq<Token>>
  {
    match x
    case Ok(ts) => Prepend(ts, y)
    case Err(e) => Err(e)
    case Panic(p) => Panic(p)
  }

  /** `a` then `b` place no lexeme across their border and `a` does not end in a space. */
  predicate CleanBorder(a: string, b: string)
  {
    a == [] || (a[|a| - 1] != ' ' && !(IsDigit(a[|a| - 1]) && b != [] && IsDigit(b[0])))
  }

  /** A digit run is determined by its end: the first non-digit or the end of the input. */
  lemma {:induction false} RunEndIs(s: string, i: nat, e: nat)
    requires i <= e <= |s|
    requires forall k :: i <= k < e ==> IsDigit(s[k])
    requires e < |s| ==> !IsDigit(s[e])
    ensures RunEnd(s, i) == e
    decreases e - i
  {
    if i < e {
      RunEndIs(s, i + 1, e);
    }
  }

  /** Scanning looks only forward: a prefix in front of the input changes nothing. */
  lemma {:induction false} ScanFromShift(p: string, s: string, j: nat)
    requires j <= |s|
    ensures ScanFrom(p + s, |p| + j) == ScanFrom(s, j)
    decreases |s| - j
  {
    var ps := p + s;
    if j < |s| {
      assert ps[|p| + j] == s[j];
      if s[j] == ' ' || IsSymbol(s[j]) || !IsDigit(s[j]) {
        ScanFromShift(p, s, j + 1);
      } else {
        var e := RunEnd(s, j);
        RunEndIs(ps, |p| + j, |p| + e);
        assert ps[|p| + j..|p| + e] == s[j..e];
        ScanFromShift(p, s, e);
      }
    }
  }

  lemma JoinPrepend(ts: seq<Token>, x: Outcome<seq<Token>>, y: Outcome<seq<Token>>)
    ensures Join(Prepend(ts, x), y) == Prepend(ts, Join(x, y))
  {
    if x.Ok? {
      PrependTwice(ts, x.value, y);
    }
  }

  /** The scan of `a + b` from a position inside `a`, when nothing crosses the border. */
  lemma {:induction false} ScanFromAppend(a: string, b: string, i: nat)
    requires i <= |a|
    requires CleanBorder(a, b)
    ensures ScanFrom(a + b, i) == Join(ScanFrom(a, i), ScanFrom(b, 0))
    decreases |a| - i
  {
    var ab := a + b;
    if i == |a| {
      ScanFromShift(a, b, 0);
      assert Prepend([], ScanFrom(b, 0)) == ScanFrom(b, 0) by {
        if ScanFrom(b, 0).Ok? { assert [] + ScanFrom(b, 0).value == ScanFrom(b, 0).value; }
      }
    } else {
      assert ab[i] == a[i];
      if a[i] == ' ' {
        ScanFromAppend(a, b, i + 1);
      } else if IsSymbol(a[i]) {
        ScanFromAppend(a, b, i + 1);
        JoinPrepend([SymbolToken(a[i])], ScanFrom(a, i + 1), ScanFrom(b, 0));
      } else if IsDigit(a[i]) {
        var e := RunEnd(a, i);
        RunEndIs(ab, i, e);
        assert ab[i..e] == a[i..e];
        ScanFromAppend(a, b, e);
        if Atoi(a[i..e]).Ok? {
          JoinPrepend([NumberToken(Atoi(a[i..e]).value)], ScanFrom(a, e), ScanFrom(b, 0));
        }
      } else {
        ScanFromAppend(a, b, i + 1);
      }
    }
  }

  /**
   * Token order follows input order: the tokens of `a + b` are those of `a`
   * followed by those of `b`, when `a` does not end in a space and no digit
   * run crosses the border.
   */
  lemma ScanAppend(a: string, b: string)
    requires CleanBorder(a, b)
    ensures Scan(a + b) == Join(Scan(a), Scan(b))
  {
    ScanFromAppend(a, b, 0);
  }

  /** Each of `+ - * / ( )` is one token whose text is that character. */
  lemma ScanSymbol(c: char)
    requires IsSymbol(c)
    ensures Scan([c]) == Ok([SymbolToken(c)])
    ensures SymbolToken(c).str == [c]
    ensures SymbolToken(c).kind == (if c == '(' then LeftParen else if c == ')' then RightParen else Operator)
  {
    assert [SymbolToken(c)] + [] == [SymbolToken(c)];
  }

  /** A digit run is one number token holding its decimal value, or Atoi's range error. */
  lemma ScanDigits(d: string)
    requires |d| > 0 && AllDigits(d)
    ensures DecimalValue(d) <= MaxInt ==> Scan(d) == Ok([NumberToken(DecimalValue(d))])
    ensures DecimalValue(d) > MaxInt ==> Scan(d) == Err(AtoiOutOfRange(d))
  {
    RunEndIs(d, 0, |d|);
    assert d[0..|d|] == d;
    assert IsDigit(d[0]) && ScanFrom(d, |d|) == Ok([]);
    assert [NumberToken(DecimalValue(d))] + [] == [NumberToken(DecimalValue(d))];
  }

  /** Any other character that is not a space is dropped without an error. */
  lemma ScanOther(c: char)
    requires c != ' ' && !IsSymbol(c) && !IsDigit(c)
    ensures Scan([c]) == Ok([])
  {
    assert [c][0] == c;
    assert ScanFrom([c], 1) == Ok([]);
  }

  /** A space in front of a non-empty input is skipped; on its own it makes the skip run off the end. */
  lemma ScanLeadingSpace(s: string)
    ensures s != [] ==> Scan([' '] + s) == Scan(s)
    ensures s == [] ==> Scan([' '] + s) == Panic(IndexOutOfRange)
  {
    if s != [] {
      ScanFromShift([' '], s, 0);
    }
  }

  // ----- Which inputs give an error, a panic, or tokens -----

  /** `s[a..b]` is a maximal digit run of `s`. */
  predicate RunAt(s: string, a: int, b: int)
  {
    0 <= a < b <= |s| && AllDigits(s[a..b]) &&
    (a == 0 || !IsDigit(s[a - 1])) && (b == |s| || !IsDigit(s[b]))
  }

  /** Some maximal digit run starting at or after `i` is too large for a 64-bit int. */
  ghost predicate OverflowFrom(s: string, i: int)
  {
    exists a, b :: i <= a && RunAt(s, a, b) && DecimalValue(s[a..b]) > MaxInt
  }

  /** `s` has a digit run too large for a 64-bit int. */
  ghost predicate HasOverflowRun(s: string) { OverflowFrom(s, 0) }

  predicate EndsWithSpace(s: string) { |s| > 0 && s[|s| - 1] == ' ' }

  /** Position `i` does not split a digit run. */
  predicate AtBoundary(s: string, i: nat)
    requires i <= |s|
  {
    i == 0 || i == |s| || !IsDigit(s[i - 1]) || !IsDigit(s[i])
  }

  /** No maximal run starts at a non-digit, and a run starting after `i + 1` is one after `i`. */
  lemma {:induction false} OverflowFromNonDigit(s: string, i: nat)
    requires i < |s| && !IsDigit(s[i])
    ensures OverflowFrom(s, i) <==> OverflowFrom(s, i + 1)
  {
    if OverflowFrom(s, i) {
      var a, b :| i <= a && RunAt(s, a, b) && DecimalValue(s[a..b]) > MaxInt;
      assert i + 1 <= a;
    }
  }

  /** Every character of a maximal run is a digit. */
  lemma RunDigits(s: string, a: int, b: int)
    requires RunAt(s, a, b)
    ensures forall k :: a <= k < b ==> IsDigit(s[k])
  {
    forall k | a <= k < b
      ensures IsDigit(s[k])
    {
      assert s[a..b][k - a] == s[k];
    }
  }

  /** Inside a maximal run `s[i..e]` no other run starts; past it the runs are those after `e`. */
  lemma {:induction false} OverflowFromRun(s: string, i: nat, e: nat)
    requires RunAt(s, i, e)
    ensures OverflowFrom(s, i) <==> (DecimalValue(s[i..e]) > MaxInt || OverflowFrom(s, e))
  {
    if OverflowFrom(s, i) {
      var a, b :| i <= a && RunAt(s, a, b) && DecimalValue(s[a..b]) > MaxInt;
      if e <= a {
        assert OverflowFrom(s, e);
      } else {
        RunDigits(s, i, e);
        RunDigits(s, a, b);
        assert a == i && b == e;
      }
    }
    if DecimalValue(s[i..e]) > MaxInt {
      assert RunAt(s, i, e);
    }
  }

  /**
   * The tokenizer's outcome from a position that does not split a digit
   * run: an error exactly when a later digit run is out of range, a panic
   * exactly when there is none and the input ends in a space.
   */
  lemma {:induction false} ScanFromOutcome(s: string, i: nat)
    requires i <= |s| && AtBoundary(s, i)
    ensures ScanFrom(s, i).Err? <==> OverflowFrom(s, i)
    ensures ScanFrom(s, i).Panic? <==> !OverflowFrom(s, i) && i < |s| && EndsWithSpace(s)
    decreases |s| - i
  {
    if i == |s| {
      assert !OverflowFrom(s, i);
    } else if !IsDigit(s[i]) {
      OverflowFromNonDigit(s, i);
      if s[i] == ' ' && i + 1 == |s| {
        assert !OverflowFrom(s, i + 1);
      } else {
        ScanFromOutcome(s, i + 1);
      }
    } else {
      var e := RunEnd(s, i);
      assert s[i..e] == s[i..e] && AllDigits(s[i..e]);
      assert RunAt(s, i, e);
      assert e == |s| ==> IsDigit(s[e - 1]);
      OverflowFromRun(s, i, e);
      ScanAtDigits(s, i, e);
      ScanFromOutcome(s, e);
    }
  }

  /** The tokenizer fails with an error exactly when a digit run does not fit a 64-bit int. */
  lemma ScanErrorIff(s: string)
    ensures Scan(s).Err? <==> HasOverflowRun(s)
    ensures Scan(s).Err? ==> Scan(s).error.AtoiOutOfRange?
  {
    ScanFromOutcome(s, 0);
  }

  /** The tokenizer panics exactly when no digit run overflows and the input ends in a space. */
  lemma ScanPanicIff(s: string)
    ensures Scan(s).Panic? <==> !HasOverflowRun(s) && EndsWithSpace(s)
  {
    ScanFromOutcome(s, 0);
  }

  // ----- Spelling tokens back as text -----

  function DigitChar(d: nat): (c: char)
    requires d < 10
    ensures IsDigit(c) && c as int - '0' as int == d
  {
    ('0' as int + d) as char
  }

  /** The decimal spelling of `n`, without leading zeros. */
  function Decimal(n: nat): (s: string)
    ensures |s| > 0 && AllDigits(s)
    decreases n
  {
    if n < 10 then [DigitChar(n)] else Decimal(n / 10) + [DigitChar(n % 10)]
  }

  /** Reading back a decimal spelling gives the number. */
  lemma {:induction false} DecimalRoundTrip(n: nat)
    ensures DecimalValue(Decimal(n)) == n
    decreases n
  {
    var s := Decimal(n);
    if n >= 10 {
      DecimalRoundTrip(n / 10);
      assert s[..|s| - 1] == Decimal(n / 10);
    }
  }

  /** The text of a token the tokenizer can produce. */
  function Spelling(t: Token): (s: string)
    requires IsLexeme(t)
    ensures |s| > 0 && s[|s| - 1] != ' '
  {
    match t.kind
    case Number => Decimal(t.val)
    case Operator => t.str
    case LeftParen => "("
    case RightParen => ")"
  }

  /** No space after `(` or before `)`; one space between any other two tokens. */
  function Separator(a: Token, b: Token): string
  {
    if a.kind == LeftParen || b.kind == RightParen then "" else " "
  }

  /** Tokens spelled out in the usual Lisp layout. */
  function Render(ts: seq<Token>): (s: string)
    requires forall k :: 0 <= k < |ts| ==> IsLexeme(ts[k])
    ensures ts != [] ==> s != [] && s[|s| - 1] != ' ' && s[0] == Spelling(ts[0])[0]
  {
    if ts == [] then ""
    else if |ts| == 1 then Spelling(ts[0])
    else Spelling(ts[0]) + Separator(ts[0], ts[1]) + Render(ts[1..])
  }

  lemma ScanSpelling(t: Token)
    requires IsLexeme(t)
    ensures Scan(Spelling(t)) == Ok([t])
  {
    match t.kind
    case Number =>
      DecimalRoundTrip(t.val);
      ScanDigits(Decimal(t.val));
    case Operator =>
      assert t.str == [t.str[0]];
      ScanSymbol(t.str[0]);
    case LeftParen =>
      ScanSymbol('(');
    case RightParen =>
      ScanSymbol(')');
  }

  /** Rendering is a right inverse of scanning: every token sequence the tokenizer can emit is read back from its text. */
  lemma {:induction false} ScanRender(ts: seq<Token>)
    requires forall k :: 0 <= k < |ts| ==> IsLexeme(ts[k])
    ensures Scan(Render(ts)) == Ok(ts)
  {
    if |ts| == 1 {
      ScanSpelling(ts[0]);
      assert [ts[0]] == ts;
    } else if |ts| > 1 {
      var tail := ts[1..];
      ScanRender(tail);
      ScanSeparated(ts[0], ts[1], Render(tail), tail);
      assert [ts[0]] + tail == ts;
    }
  }

  /** One token, its separator, and the text of the tokens after it. */
  lemma ScanSeparated(t: Token, u: Token, rest: string, tail: seq<Token>)
    requires IsLexeme(t) && IsLexeme(u)
    requires rest != [] && rest[0] == Spelling(u)[0]
    requires Scan(rest) == Ok(tail)
    ensures Scan(Spelling(t) + Separator(t, u) + rest) == Ok([t] + tail)
  {
    var head := Spelling(t);
    ScanSpelling(t);
    if Separator(t, u) == " " {
      ScanLeadingSpace(rest);
      var spaced := [' '] + rest;
      assert head + Separator(t, u) + rest == head + spaced;
      ScanAppend(head, spaced);
    } else {
      assert head + Separator(t, u) + rest == head + rest;
      assert head[|head| - 1] == '(' || rest[0] == ')';
      ScanAppend(head, rest);
    }
  }

  /** The tokenizer reads rendered tokens back, followed by the end-of-input token. */
  lemma LexRender(ts: seq<Token>)
    requires forall k :: 0 <= k < |ts| ==> IsLexeme(ts[k])
    ensures Lex(Render(ts)) == Ok(ts + [EofToken])
  {
    ScanRender(ts);
  }
}
