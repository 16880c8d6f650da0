/** Properties of the parser's specification `ParseFrom`/`CarAt`. */
module SyntaxFacts {
  import opened Outcomes
  import opened Lexer
  import opened Syntax

  const OpenToken: Token := Token(LeftParen, 0, "(")
  const CloseToken: Token := Token(RightParen, 0, ")")

  /**
   * The trees the parser can build from the tokenizer's output: number atoms
   * within Go's `int`, the four operator atoms, `Nil` atoms, and non-empty
   * nested chains.
   */
  predicate WellFormed(x: Node)
    decreases x
  {
    match x
    case Num(n) => 0 <= n <= MaxInt
    case Op(s) => IsOperatorSymbol(s)
    case NilAtom => true
    case List(l) => l != [] && WellFormedList(l)
  }

  predicate WellFormedList(l: seq<Node>)
    decreases l
  {
    forall i :: 0 <= i < |l| ==> WellFormed(l[i])
  }

  /** The tokens of one car. */
  function UnparseNode(x: Node): (ts: seq<Token>)
    ensures |ts| > 0 && !IsStop(ts[0])
    decreases x
  {
    match x
    case Num(n) => [NumberToken(n)]
    case Op(s) => [Token(Operator, 0, s)]
    case NilAtom => [OpenToken, CloseToken]
    case List(l) => [OpenToken] + Unparse(l) + [CloseToken]
  }

  /** The tokens of a chain of cars, one after the other. */
  function Unparse(l: seq<Node>): seq<Token>
    decreases l
  {
    if l == [] then [] else UnparseNode(l[0]) + Unparse(l[1..])
  }

  /** Token slices as the tokenizer returns them: lexemes, then one end-of-input token. */
  predicate TokenStream(ts: seq<Token>)
  {
    |ts| > 0 && ts[|ts| - 1] == EofToken &&
    forall k :: 0 <= k < |ts| - 1 ==> IsLexeme(ts[k])
  }

  predicate AllLexemes(ts: seq<Token>) { forall k :: 0 <= k < |ts| ==> IsLexeme(ts[k]) }

  lemma AllLexemesAppend(a: seq<Token>, b: seq<Token>)
    requires AllLexemes(a) && AllLexemes(b)
    ensures AllLexemes(a + b)
  {
    assert forall k :: |a| <= k < |a + b| ==> (a + b)[k] == b[k - |a|];
  }

  /** A well-formed tree spells out as tokens the tokenizer can produce. */
  lemma {:induction false} UnparseLexemes(l: seq<Node>)
    requires WellFormedList(l)
    ensures AllLexemes(Unparse(l))
    decreases ListSize(l), 1
  {
    if l != [] {
      WellFormedTail(l);
      UnparseNodeLexemes(l[0]);
      UnparseLexemes(l[1..]);
      AllLexemesAppend(UnparseNode(l[0]), Unparse(l[1..]));
    }
  }

  lemma {:induction false} UnparseNodeLexemes(x: Node)
    requires WellFormed(x)
    ensures AllLexemes(UnparseNode(x))
    decreases NodeSize(x), 0
  {
    match x
    case Num(_) =>
    case Op(_) =>
    case NilAtom =>
    case List(l) =>
      UnparseLexemes(l);
      AllLexemesAppend([OpenToken], Unparse(l));
      AllLexemesAppend([OpenToken] + Unparse(l), [CloseToken]);
  }

  /** A slice of `ts` as `At`. */
  lemma {:induction false} SliceAt(ts: seq<Token>, pos: nat, u: seq<Token>)
    requires pos + |u| <= |ts| && ts[pos..pos + |u|] == u
    ensures At(ts, pos, u)
    decreases u
  {
    if u != [] {
      assert ts[pos] == u[0];
      assert ts[pos + 1..pos + |u|] == u[1..];
      SliceAt(ts, pos + 1, u[1..]);
    }
  }

  lemma UnparseFirst(l: seq<Node>)
    requires l != []
    ensures Unparse(l) != [] && Unparse(l)[0] == UnparseNode(l[0])[0]
  {
  }

  /** The tokens `u` occur in `ts` at position `pos`. */
  predicate At(ts: seq<Token>, pos: nat, u: seq<Token>)
    decreases u
  {
    u == [] || (pos < |ts| && ts[pos] == u[0] && At(ts, pos + 1, u[1..]))
  }

  lemma {:induction false} AtSplit(ts: seq<Token>, pos: nat, a: seq<Token>, b: seq<Token>)
    requires At(ts, pos, a + b)
    ensures At(ts, pos, a) && At(ts, pos + |a|, b)
    decreases a
  {
    if a == [] {
      assert a + b == b;
    } else {
      assert (a + b)[0] == a[0] && (a + b)[1..] == a[1..] + b;
      AtSplit(ts, pos + 1, a[1..], b);
    }
  }

  lemma {:induction false} AtIndex(ts: seq<Token>, pos: nat, u: seq<Token>, k: nat)
    requires At(ts, pos, u) && k < |u|
    ensures pos + k < |ts| && ts[pos + k] == u[k]
    decreases k
  {
    if k > 0 {
      AtIndex(ts, pos + 1, u[1..], k - 1);
    }
  }

  lemma {:induction false} AtConcat(ts: seq<Token>, pos: nat, a: seq<Token>, b: seq<Token>)
    requires At(ts, pos, a) && At(ts, pos + |a|, b)
    ensures At(ts, pos, a + b)
    decreases a
  {
    if a == [] {
      assert a + b == b;
    } else {
      assert (a + b)[0] == a[0] && (a + b)[1..] == a[1..] + b;
      AtConcat(ts, pos + 1, a[1..], b);
    }
  }

  /** `At` as a slice of `ts`. */
  lemma {:induction false} AtSlice(ts: seq<Token>, pos: nat, u: seq<Token>)
    requires pos <= |ts| && At(ts, pos, u)
    ensures pos + |u| <= |ts| && ts[pos..pos + |u|] == u
    decreases u
  {
    if u != [] {
      AtSlice(ts, pos + 1, u[1..]);
      assert ts[pos..pos + |u|] == [ts[pos]] + ts[pos + 1..pos + |u|];
      assert u == [u[0]] + u[1..];
    }
  }

  /** The cars of `l` are read back from their tokens, up to any stop token. */
  lemma {:induction false} ParseUnparse(ts: seq<Token>, pos: nat, l: seq<Node>)
    requires WellFormedList(l)
    requires At(ts, pos, Unparse(l))
    requires pos + |Unparse(l)| < |ts| && IsStop(ts[pos + |Unparse(l)|])
    ensures ParseFrom(ts, pos) == Ok(Parsed(l, pos + |Unparse(l)|))
    decreases ListSize(l), 1
  {
    if l == [] {
      ParseAtStop(ts, pos);
    } else {
      var x, rest := l[0], l[1..];
      var h, u := UnparseNode(x), Unparse(rest);
      assert Unparse(l) == h + u;
      AtSplit(ts, pos, h, u);
      WellFormedTail(l);
      CarUnparse(ts, pos, x);
      var q := pos + |h|;
      assert q + |u| == pos + |Unparse(l)|;
      assert ListSize(rest) < ListSize(l);
      ParseUnparse(ts, q, rest);
      ParseStep(ts, pos, l, q, q + |u|);
    }
  }

  /** One car is read back from its tokens. */
  lemma {:induction false} CarUnparse(ts: seq<Token>, pos: nat, x: Node)
    requires WellFormed(x)
    requires At(ts, pos, UnparseNode(x))
    ensures pos < |ts| && !IsStop(ts[pos])
    ensures CarAt(ts, pos) == Ok(Car(x, pos + |UnparseNode(x)|))
    decreases NodeSize(x), 0
  {
    var u := UnparseNode(x);
    AtIndex(ts, pos, u, 0);
    match x
    case Num(n) =>
    case Op(s) =>
    case NilAtom =>
      AtIndex(ts, pos, u, 1);
    case List(inner) =>
      CarUnparseList(ts, pos, inner);
  }

  lemma {:induction false} CarUnparseList(ts: seq<Token>, pos: nat, inner: seq<Node>)
    requires inner != [] && WellFormedList(inner)
    requires At(ts, pos, UnparseNode(List(inner)))
    ensures pos + 1 < |ts| && ts[pos].kind == LeftParen && ts[pos + 1].kind != RightParen
    ensures CarAt(ts, pos) == Ok(Car(List(inner), pos + |UnparseNode(List(inner))|))
    decreases ListSize(inner), 2
  {
    var v := Unparse(inner);
    var w := UnparseNode(List(inner));
    assert w == [OpenToken] + v + [CloseToken];
    UnparseFirst(inner);
    AtSplit(ts, pos, [OpenToken] + v, [CloseToken]);
    AtSplit(ts, pos, [OpenToken], v);
    AtIndex(ts, pos, [OpenToken], 0);
    AtIndex(ts, pos + 1, v, 0);
    AtIndex(ts, pos + 1 + |v|, [CloseToken], 0);
    ParseUnparse(ts, pos + 1, inner);
    CarAtNested(ts, pos);
  }

  lemma WellFormedTail(l: seq<Node>)
    requires l != [] && WellFormedList(l)
    ensures WellFormed(l[0]) && WellFormedList(l[1..])
  {
    assert forall i :: 0 <= i < |l| - 1 ==> l[1..][i] == l[i + 1];
  }

  /** The step of `ParseFrom` at a stop token. */
  lemma ParseAtStop(ts: seq<Token>, pos: nat)
    requires pos < |ts| && IsStop(ts[pos])
    ensures ParseFrom(ts, pos) == Ok(Parsed([], pos))
  {
  }

  /** The step of `ParseFrom` over the first car of `l`. */
  lemma ParseStep(ts: seq<Token>, pos: nat, l: seq<Node>, next: nat, stop: nat)
    requires l != [] && pos < |ts| && !IsStop(ts[pos])
    requires CarAt(ts, pos) == Ok(Car(l[0], next))
    requires ParseFrom(ts, next) == Ok(Parsed(l[1..], stop))
    ensures ParseFrom(ts, pos) == Ok(Parsed(l, stop))
  {
    assert [l[0]] + l[1..] == l;
  }

  /** The step of `ParseFrom` at a token that is not a stop token. */
  lemma ParseFromCar(ts: seq<Token>, pos: nat)
    requires pos < |ts| && !IsStop(ts[pos]) && CarAt(ts, pos).Ok?
    ensures ParseFrom(ts, pos) == Prefix([CarAt(ts, pos).value.node], ParseFrom(ts, CarAt(ts, pos).value.next))
  {
  }

  /** The step of `CarAt` at a `(` that opens a nested level. */
  lemma CarAtNested(ts: seq<Token>, pos: nat)
    requires pos + 1 < |ts| && ts[pos].kind == LeftParen && ts[pos + 1].kind != RightParen
    requires ParseFrom(ts, pos + 1).Ok?
    ensures CarAt(ts, pos) ==
      Ok(Car(List(ParseFrom(ts, pos + 1).value.nodes), ParseFrom(ts, pos + 1).value.stop + 1))
  {
  }

  /**
   * Everything the parser returns over a tokenizer's output is well formed,
   * and the tokens of its result are exactly the tokens it consumed.
   */
  lemma {:induction false} ParseImage(ts: seq<Token>, pos: nat)
    requires TokenStream(ts) && pos <= |ts|
    requires ParseFrom(ts, pos).Ok?
    ensures WellFormedList(ParseFrom(ts, pos).value.nodes)
    ensures At(ts, pos, Unparse(ParseFrom(ts, pos).value.nodes))
    ensures ParseFrom(ts, pos).value.stop == pos + |Unparse(ParseFrom(ts, pos).value.nodes)|
    decreases |ts| - pos, 2
  {
    var p := ParseFrom(ts, pos).value;
    if IsStop(ts[pos]) {
      ParseAtStop(ts, pos);
    } else {
      var c := CarAt(ts, pos).value;
      ParseFromCar(ts, pos);
      var rest := ParseFrom(ts, c.next).value;
      assert p.nodes == [c.node] + rest.nodes;
      CarImage(ts, pos);
      ParseImage(ts, c.next);
      assert p.nodes[0] == c.node && p.nodes[1..] == rest.nodes;
      assert Unparse(p.nodes) == UnparseNode(c.node) + Unparse(rest.nodes);
      AtConcat(ts, pos, UnparseNode(c.node), Unparse(rest.nodes));
      WellFormedCons(c.node, rest.nodes);
    }
  }

  lemma WellFormedCons(x: Node, l: seq<Node>)
    requires WellFormed(x) && WellFormedList(l)
    ensures WellFormedList([x] + l)
  {
    assert forall i :: 1 <= i < |l| + 1 ==> ([x] + l)[i] == l[i - 1];
  }

  lemma {:induction false} CarImage(ts: seq<Token>, pos: nat)
    requires TokenStream(ts) && pos < |ts| && !IsStop(ts[pos])
    requires CarAt(ts, pos).Ok? && CarAt(ts, pos).value.next < |ts|
    ensures WellFormed(CarAt(ts, pos).value.node)
    ensures At(ts, pos, UnparseNode(CarAt(ts, pos).value.node))
    ensures CarAt(ts, pos).value.next == pos + |UnparseNode(CarAt(ts, pos).value.node)|
    decreases |ts| - pos, 1
  {
    assert IsLexeme(ts[pos]);
    if ts[pos].kind == Number || ts[pos].kind == Operator {
      assert At(ts, pos + 1, []);
    } else if ts[pos + 1].kind == RightParen {
      assert IsLexeme(ts[pos + 1]);
      assert At(ts, pos + 2, []);
      assert At(ts, pos + 1, [CloseToken]);
    } else {
      CarImageNested(ts, pos);
    }
  }

  /** The case of `CarImage` where a `(` opens a nested level. */
  lemma {:induction false} CarImageNested(ts: seq<Token>, pos: nat)
    requires TokenStream(ts) && pos + 1 < |ts| && ts[pos].kind == LeftParen && ts[pos + 1].kind != RightParen
    requires CarAt(ts, pos).Ok? && CarAt(ts, pos).value.next < |ts|
    ensures WellFormed(CarAt(ts, pos).value.node)
    ensures At(ts, pos, UnparseNode(CarAt(ts, pos).value.node))
    ensures CarAt(ts, pos).value.next == pos + |UnparseNode(CarAt(ts, pos).value.node)|
    decreases |ts| - pos, 0
  {
    var inner := ParseFrom(ts, pos + 1).value;
    CarAtNested(ts, pos);
    ParseImage(ts, pos + 1);
    assert IsLexeme(ts[inner.stop]);
    assert inner.nodes != [];
    var v := Unparse(inner.nodes);
    assert At(ts, inner.stop + 1, []);
    assert At(ts, inner.stop, [CloseToken]);
    assert At(ts, pos, [OpenToken]);
    AtConcat(ts, pos, [OpenToken], v);
    AtConcat(ts, pos, [OpenToken] + v, [CloseToken]);
  }

  /** Tokens after the one that ends a successful parse are never looked at. */
  lemma {:induction false} ParseIgnoresRest(ts: seq<Token>, more: seq<Token>, pos: nat)
    requires pos <= |ts| && ParseFrom(ts, pos).Ok?
    ensures ParseFrom(ts + more, pos) == ParseFrom(ts, pos)
    decreases |ts| - pos, 1
  {
    assert (ts + more)[pos] == ts[pos];
    if !IsStop(ts[pos]) {
      CarIgnoresRest(ts, more, pos);
      ParseIgnoresRest(ts, more, CarAt(ts, pos).value.next);
    }
  }

  lemma {:induction false} CarIgnoresRest(ts: seq<Token>, more: seq<Token>, pos: nat)
    requires pos < |ts| && !IsStop(ts[pos]) && CarAt(ts, pos).Ok?
    ensures !IsStop((ts + more)[pos])
    ensures CarAt(ts + more, pos) == CarAt(ts, pos)
    decreases |ts| - pos, 0
  {
    assert (ts + more)[pos] == ts[pos];
    if ts[pos].kind == LeftParen {
      assert (ts + more)[pos + 1] == ts[pos + 1];
      if ts[pos + 1].kind != RightParen {
        ParseIgnoresRest(ts, more, pos + 1);
      }
    }
  }

  // ----- Parentheses -----

  /** The number of tokens of kind `k` in `ts`. */
  function Count(k: TokenKind, ts: seq<Token>): nat
  {
    if ts == [] then 0 else (if ts[0].kind == k then 1 else 0) + Count(k, ts[1..])
  }

  lemma {:induction false} CountAppend(k: TokenKind, a: seq<Token>, b: seq<Token>)
    ensures Count(k, a + b) == Count(k, a) + Count(k, b)
  {
    if a == [] {
      assert a + b == b;
    } else {
      assert (a + b)[0] == a[0];
      assert (a + b)[1..] == a[1..] + b;
      CountAppend(k, a[1..], b);
    }
  }

  /** Every tree spells out as many `(` as `)`. */
  lemma {:induction false} UnparseBalanced(l: seq<Node>)
    ensures Count(LeftParen, Unparse(l)) == Count(RightParen, Unparse(l))
    decreases ListSize(l), 1
  {
    if l != [] {
      CountAppend(LeftParen, UnparseNode(l[0]), Unparse(l[1..]));
      CountAppend(RightParen, UnparseNode(l[0]), Unparse(l[1..]));
      UnparseNodeBalanced(l[0]);
      UnparseBalanced(l[1..]);
    }
  }

  lemma {:induction false} UnparseNodeBalanced(x: Node)
    ensures Count(LeftParen, UnparseNode(x)) == Count(RightParen, UnparseNode(x))
    decreases NodeSize(x), 0
  {
    match x
    case Num(_) =>
    case Op(_) =>
    case NilAtom =>
      CountAppend(LeftParen, [OpenToken], [CloseToken]);
      CountAppend(RightParen, [OpenToken], [CloseToken]);
    case List(l) =>
      UnparseBalanced(l);
      var u := Unparse(l);
      CountAppend(LeftParen, [OpenToken] + u, [CloseToken]);
      CountAppend(RightParen, [OpenToken] + u, [CloseToken]);
      CountAppend(LeftParen, [OpenToken], u);
      CountAppend(RightParen, [OpenToken], u);
  }

  /** No prefix of `ts` closes more parentheses than it opens. */
  predicate NeverOverClosed(ts: seq<Token>)
  {
    forall j :: 0 <= j <= |ts| ==> Count(RightParen, ts[..j]) <= Count(LeftParen, ts[..j])
  }

  /**
   * A `(` that is never closed makes the parser panic: over a tokenizer's
   * output with more `(` than `)`, where no `)` closes the top level, Parse
   * reads past the end of the slice.
   */
  lemma UnclosedParenPanics(ts: seq<Token>)
    requires TokenStream(ts) && NeverOverClosed(ts)
    requires Count(LeftParen, ts) > Count(RightParen, ts)
    ensures Parse(ts).Panic?
  {
    if ParseFrom(ts, 0).Ok? {
      var p := ParseFrom(ts, 0).value;
      ParseImage(ts, 0);
      UnparseBalanced(p.nodes);
      AtSlice(ts, 0, Unparse(p.nodes));
      assert ts[..p.stop] == Unparse(p.nodes);
      if ts[p.stop].kind == RightParen {
        BalancedThenClose(ts, p.stop);
      } else {
        BalancedThenEnd(ts, p.stop);
      }
    }
  }

  /** A `)` right after a balanced prefix closes one parenthesis too many. */
  lemma BalancedThenClose(ts: seq<Token>, j: nat)
    requires j < |ts| && ts[j].kind == RightParen
    requires Count(LeftParen, ts[..j]) == Count(RightParen, ts[..j])
    ensures Count(RightParen, ts[..j + 1]) == Count(LeftParen, ts[..j + 1]) + 1
  {
    assert ts[..j + 1] == ts[..j] + [ts[j]];
    CountAppend(LeftParen, ts[..j], [ts[j]]);
    CountAppend(RightParen, ts[..j], [ts[j]]);
  }

  /** A balanced prefix that ends at the end-of-input token is all of a tokenizer's output. */
  lemma BalancedThenEnd(ts: seq<Token>, j: nat)
    requires TokenStream(ts) && j < |ts| && IsStop(ts[j]) && ts[j].kind != RightParen
    requires Count(LeftParen, ts[..j]) == Count(RightParen, ts[..j])
    ensures Count(LeftParen, ts) == Count(RightParen, ts)
  {
    assert j == |ts| - 1;
    assert ts == ts[..j] + [EofToken];
    CountAppend(LeftParen, ts[..j], [EofToken]);
    CountAppend(RightParen, ts[..j], [EofToken]);
  }

  /** The tokens of a nested chain whose closing `)` is missing: Parse reads past their end. */
  lemma ParseUnclosed(e: seq<Node>)
    requires WellFormedList(e) && e != []
    ensures Parse([OpenToken] + Unparse(e) + [EofToken]) == Panic(IndexOutOfRange)
  {
    var u := Unparse(e);
    var ts := [OpenToken] + u + [EofToken];
    UnparseFirst(e);
    assert ts[1..1 + |u|] == u;
    SliceAt(ts, 1, u);
    ParseUnparse(ts, 1, e);
    CarAtNested(ts, 0);
    ParseFromCar(ts, 0);
  }
}
