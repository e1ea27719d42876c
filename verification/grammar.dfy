/**
 * The functional specification of the recursive-descent parser: one
 * function per parser method (and per loop, as a recursive function with
 * an accumulator). Each takes the remaining tokens and yields either the
 * parsed value with the tokens left after it, or the first error.
 *
 * `last` is the line of the final token of the whole stream: errors found
 * at the end of the stream are reported there.
 *
 * Mutual recursion is well founded on |src| and, at equal length, on a
 * rank: a function only calls a function of lower rank without consuming
 * a token first.
 */
module Grammar {
  import opened Tokens
  import opened Ast
  import opened Errors

  /** A parsed value and the tokens left after it. */
  type Parsed<T> = Result<(T, seq<Token>)>

  /** The element parsers a list can be built from. */
  datatype ElemKind = FieldElem | AssertElem | ArgElem | IterateVarElem | ExprElem

  /** What a bracket yields: Index (with the index in hi) or Range(sep). */
  datatype Bracket = Bracket(op: Op, lo: Option<Expr>, hi: Option<Expr>)

  predicate Suffix(rest: seq<Token>, src: seq<Token>) {
    |rest| <= |src| && rest == src[|src| - |rest|..]
  }

  predicate StrictSuffix(rest: seq<Token>, src: seq<Token>) {
    |rest| < |src| && Suffix(rest, src)
  }

  lemma SuffixTrans(a: seq<Token>, b: seq<Token>, c: seq<Token>)
    requires Suffix(a, b) && Suffix(b, c)
    ensures Suffix(a, c)
  {}

  /** The next token's ID, or ID 0 once the stream is exhausted. */
  function Peek(src: seq<Token>): Id {
    if |src| > 0 then src[0].id else NoId
  }

  /** The line an error at this point is reported at. */
  function LineAt(last: nat, src: seq<Token>): nat {
    if |src| > 0 then src[0].line else last
  }

  function Fail<T>(problem: Problem, last: nat, src: seq<Token>): Result<T> {
    Err(SyntaxError(problem, LineAt(last, src)))
  }

  function ExprResult(p: Parsed<Expr>): (r: Parsed<Option<Expr>>)
    ensures r.Ok? <==> p.Ok?
    ensures r.Ok? ==> r.value == (Some(p.value.0), p.value.1)
  {
    match p
    case Ok(v) => Ok((Some(v.0), v.1))
    case Err(e) => Err(e)
  }

  function OptionNode(e: Option<Expr>): Option<Node> {
    match e
    case Some(x) => Some(ExprAsNode(x))
    case None => None
  }

  /** An iterate statement restamps its loop variables with its own line. */
  function StampAll(vars: seq<Node>, line: nat): (r: seq<Node>)
    ensures |r| == |vars|
    ensures forall i :: 0 <= i < |vars| ==> r[i] == vars[i].(line := line)
  {
    seq(|vars|, i requires 0 <= i < |vars| => vars[i].(line := line))
  }

  /** A statement is stamped with the line it starts on. */
  function Stamp(n: Node, line: nat): (r: Node)
    ensures r.line == line
    ensures !n.kind.Iterate? ==> r.kind == n.kind
    ensures n.kind.Iterate? ==>
              && r.kind.Iterate?
              && r.kind == n.kind.(vars := r.kind.vars)
              && |r.kind.vars| == |n.kind.vars|
              && forall i :: 0 <= i < |n.kind.vars| ==> r.kind.vars[i] == n.kind.vars[i].(line := line)
  {
    if n.kind.Iterate? then Node(line, n.kind.(vars := StampAll(n.kind.vars, line)))
    else n.(line := line)
  }

  // ---------------------------------------------------------------------
  // Identifiers

  function ParseIdent(last: nat, src: seq<Token>): (r: Parsed<Id>)
    ensures r.Ok? <==> |src| > 0 && IsIdent(src[0].id)
    ensures r.Ok? ==> r.value.0 == src[0].id && r.value.1 == src[1..]
  {
    if |src| == 0 then Fail(ExpectedIdent, last, src)
    else if !IsIdent(src[0].id) then Fail(ExpectedIdent, last, src)
    else Ok((src[0].id, src[1..]))
  }

  /** "pkg.name" or "name"; the first component is ID 0 when absent. */
  function ParseQualifiedIdent(last: nat, src: seq<Token>): (r: Parsed<(Id, Id)>)
    ensures r.Ok? ==> StrictSuffix(r.value.1, src)
    ensures r.Ok? ==> IsIdent(r.value.0.1) && (r.value.0.0 == NoId || IsIdent(r.value.0.0))
  {
    var x :- ParseIdent(last, src);
    if Peek(x.1).key != KeyDot then Ok(((NoId, x.0), x.1))
    else
      var y :- ParseIdent(last, x.1[1..]);
      Ok(((x.0, y.0), y.1))
  }

  function ParseLabel(last: nat, src: seq<Token>): (r: Parsed<Id>)
    ensures r.Ok? ==> Suffix(r.value.1, src)
  {
    if Peek(src).key == KeyColon then ParseIdent(last, src[1..])
    else Ok((NoId, src))
  }

  // ---------------------------------------------------------------------
  // Lists and brackets

  function ParseList(stop: Key, elem: ElemKind, last: nat, src: seq<Token>): (r: Parsed<seq<Node>>)
    decreases |src|, 7
    ensures r.Ok? ==> Suffix(r.value.1, src)
    ensures r.Ok? && stop == KeyCloseParen ==> StrictSuffix(r.value.1, src)
  {
    if stop == KeyCloseParen then
      if Peek(src).key != KeyOpenParen then Fail(Expected(KeyOpenParen), last, src)
      else ListLoop(stop, elem, [], last, src[1..])
    else ListLoop(stop, elem, [], last, src)
  }

  function ListLoop(stop: Key, elem: ElemKind, acc: seq<Node>, last: nat, src: seq<Token>): (r: Parsed<seq<Node>>)
    decreases |src|, 6
    ensures r.Ok? ==> Suffix(r.value.1, src)
    ensures r.Ok? && stop == KeyCloseParen ==> StrictSuffix(r.value.1, src)
  {
    if |src| == 0 then Fail(Expected(stop), last, src)
    else if src[0].id.key == stop then
      Ok((acc, if stop == KeyCloseParen then src[1..] else src))
    else
      var e :- ParseElem(elem, last, src);
      var x := Peek(e.1).key;
      if x == stop then
        Ok((acc + [e.0], if stop == KeyCloseParen then e.1[1..] else e.1))
      else if x == KeyComma then
        ListLoop(stop, elem, acc + [e.0], last, e.1[1..])
      else Fail(Expected(stop), last, e.1)
  }

  function ParseElem(elem: ElemKind, last: nat, src: seq<Token>): (r: Parsed<Node>)
    decreases |src|, 5
    ensures r.Ok? ==> StrictSuffix(r.value.1, src)
  {
    match elem
    case FieldElem => ParseField(last, src)
    case AssertElem => ParseAssertNode(last, src)
    case ArgElem => ParseArg(last, src)
    case IterateVarElem => ParseVar(true, last, src)
    case ExprElem =>
      var e :- ParseExpr(last, src);
      Ok((ExprAsNode(e.0), e.1))
  }

  /** "[i:j]", "[i:]", "[:j]", "[:]" with sep in place of the colon, and,
      when sep is the colon, "[x]". */
  function ParseBracket(sep: Id, last: nat, src: seq<Token>): (r: Parsed<Bracket>)
    requires sep == IdColon || sep == IdDotDot
    decreases |src|, 1
    ensures r.Ok? ==> StrictSuffix(r.value.1, src)
  {
    if Peek(src).key != KeyOpenBracket then Fail(Expected(KeyOpenBracket), last, src)
    else
      var s := src[1..];
      var lo :- OptionalExpr(Peek(s) != sep, last, s);
      var b :- BracketRest(sep, lo.0, last, lo.1);
      SuffixTrans(b.1, lo.1, s);
      SuffixTrans(b.1, s, src);
      Ok(b)
  }

  /** A bracket after its low bound: the separator and high bound, or, for
      an index, the "]". */
  function BracketRest(sep: Id, lo: Option<Expr>, last: nat, src: seq<Token>): (r: Parsed<Bracket>)
    requires sep == IdColon || sep == IdDotDot
    decreases |src|, 0
    ensures r.Ok? ==> StrictSuffix(r.value.1, src)
  {
    var x := Peek(src).key;
    if x == sep.key then
      var s := src[1..];
      var hi :- OptionalExpr(Peek(s).key != KeyCloseBracket, last, s);
      if Peek(hi.1).key != KeyCloseBracket then Fail(Expected(KeyCloseBracket), last, hi.1)
      else
        SuffixTrans(hi.1, s, src);
        Ok((Bracket(Range(sep), lo, hi.0), hi.1[1..]))
    else if x == KeyCloseBracket && sep.key == KeyColon then
      Ok((Bracket(Index, None, lo), src[1..]))
    else Fail(Expected(sep.key), last, src)
  }

  /** A bracket bound: an expression when present, nothing consumed when absent. */
  function OptionalExpr(present: bool, last: nat, src: seq<Token>): (r: Parsed<Option<Expr>>)
    decreases |src|, 4
    ensures r.Ok? ==> Suffix(r.value.1, src)
    ensures r.Ok? && present ==> r.value.0.Some? && StrictSuffix(r.value.1, src)
    ensures r.Ok? && !present ==> r.value == (None, src)
  {
    if present then ExprResult(ParseExpr(last, src)) else Ok((None, src))
  }

  // ---------------------------------------------------------------------
  // Fields and types

  function ParseField(last: nat, src: seq<Token>): (r: Parsed<Node>)
    decreases |src|, 4
    ensures r.Ok? ==> StrictSuffix(r.value.1, src)
  {
    var n :- ParseIdent(last, src);
    var t :- ParseTypeExpr(last, n.1);
    if Peek(t.1).key == KeyEq then
      var d :- ParseExpr(last, t.1[1..]);
      Ok((Node(0, Field(n.0, t.0, Some(d.0))), d.1))
    else Ok((Node(0, Field(n.0, t.0, None)), t.1))
  }

  function ParseTypeExpr(last: nat, src: seq<Token>): (r: Parsed<TypeExpr>)
    decreases |src|, 1
    ensures r.Ok? ==> StrictSuffix(r.value.1, src)
  {
    if Peek(src).key == KeyPtr then
      var t :- ParseTypeExpr(last, src[1..]);
      Ok((Pointer(t.0), t.1))
    else if Peek(src).key == KeyOpenBracket then
      var s := src[1..];
      if Peek(s).key != KeyCloseBracket then
        var n :- ParseExpr(last, s);
        if Peek(n.1).key != KeyCloseBracket then Fail(Expected(KeyCloseBracket), last, n.1)
        else
          var t :- ParseTypeExpr(last, n.1[1..]);
          Ok((Array(Some(n.0), t.0), t.1))
      else
        var t :- ParseTypeExpr(last, s[1..]);
        Ok((Array(None, t.0), t.1))
    else
      var q :- ParseQualifiedIdent(last, src);
      if Peek(q.1).key == KeyOpenBracket then
        var b :- ParseBracket(IdDotDot, last, q.1);
        Ok((Named(q.0.0, q.0.1, b.0.lo, b.0.hi), b.1))
      else Ok((Named(q.0.0, q.0.1, None, None), q.1))
  }

  // ---------------------------------------------------------------------
  // Blocks and assertions

  function ParseBlock(last: nat, src: seq<Token>): (r: Parsed<seq<Node>>)
    decreases |src|, 1
    ensures r.Ok? ==> StrictSuffix(r.value.1, src)
  {
    if Peek(src).key != KeyOpenCurly then Fail(Expected(KeyOpenCurly), last, src)
    else BlockLoop([], last, src[1..])
  }

  function BlockLoop(block: seq<Node>, last: nat, src: seq<Token>): (r: Parsed<seq<Node>>)
    decreases |src|, 10
    ensures r.Ok? ==> StrictSuffix(r.value.1, src)
  {
    if |src| == 0 then Fail(Expected(KeyCloseCurly), last, src)
    else if src[0].id.key == KeyCloseCurly then Ok((block, src[1..]))
    else
      var st :- ParseStatement(last, src);
      if Peek(st.1).key != KeySemicolon then Fail(Expected(KeySemicolon), last, st.1)
      else BlockLoop(block + [st.0], last, st.1[1..])
  }

  /** The first fault in an assertion chain, scanning left to right with
      the stages seen so far. */
  function ChainFault(asserts: seq<Node>, seenInv: bool, seenPost: bool): Option<Problem>
  {
    if |asserts| == 0 then None
    else
      var k := AssertKeyword(asserts[0]);
      if k == KeyAssert then Some(AssertInChain)
      else if k == KeyPre then
        if seenPost || seenInv then Some(ChainOutOfOrder)
        else ChainFault(asserts[1..], seenInv, seenPost)
      else if k == KeyInv then
        if seenPost then Some(ChainOutOfOrder)
        else ChainFault(asserts[1..], true, seenPost)
      else ChainFault(asserts[1..], seenInv, true)
  }

  /** The chain's fault, reported at the line of the token after the
      chain. */
  function AssertsSorted(last: nat, src: seq<Token>, asserts: seq<Node>): (r: Option<ParseError>)
    ensures r.None? <==> ChainFault(asserts, false, false).None?
    ensures r.Some? ==> r.value == SyntaxError(ChainFault(asserts, false, false).value, LineAt(last, src))
  {
    match ChainFault(asserts, false, false)
    case Some(p) => Some(SyntaxError(p, LineAt(last, src)))
    case None => None
  }

  function ParseAssertNode(last: nat, src: seq<Token>): (r: Parsed<Node>)
    decreases |src|, 4
    ensures r.Ok? ==> StrictSuffix(r.value.1, src)
  {
    var x := Peek(src);
    if x.key == KeyAssert || x.key == KeyPre || x.key == KeyInv || x.key == KeyPost then
      var c :- ParseExpr(last, src[1..]);
      SuffixTrans(c.1, src[1..], src);
      if Peek(c.1).key == KeyVia then
        var s := c.1[1..];
        var reason := Peek(s);
        if !IsStrLiteral(reason) then Fail(ExpectedStrLiteral, last, s)
        else
          var a :- ParseList(KeyCloseParen, ArgElem, last, s[1..]);
          SuffixTrans(a.1, s[1..], c.1);
          SuffixTrans(a.1, c.1, src);
          Ok((Node(0, Assert(x, c.0, reason, a.0)), a.1))
      else Ok((Node(0, Assert(x, c.0, NoId, [])), c.1))
    else Fail(ExpectedAssertKeyword, last, src)
  }

  /** An optional ", pre ..., inv ..., post ..." chain before a block. */
  function ParseAsserts(last: nat, src: seq<Token>): (r: Parsed<seq<Node>>)
    decreases |src|, 1
    ensures r.Ok? ==> Suffix(r.value.1, src)
  {
    if Peek(src).key == KeyComma then
      var a :- ParseList(KeyOpenCurly, AssertElem, last, src[1..]);
      match AssertsSorted(last, a.1, a.0)
      case Some(e) => Err(e)
      case None => Ok(a)
    else Ok(([], src))
  }

  // ---------------------------------------------------------------------
  // Statements

  function ParseStatement(last: nat, src: seq<Token>): (r: Parsed<Node>)
    decreases |src|, 9
    ensures r.Ok? ==> StrictSuffix(r.value.1, src)
  {
    var line := if |src| > 0 then src[0].line else 0;
    var n :- ParseStatement1(last, src);
    Ok((Stamp(n.0, line), n.1))
  }

  function ParseStatement1(last: nat, src: seq<Token>): (r: Parsed<Node>)
    decreases |src|, 8
    ensures r.Ok? ==> StrictSuffix(r.value.1, src)
  {
    var x := Peek(src);
    if x.key == KeyAssert || x.key == KeyPre || x.key == KeyPost then
      ParseAssertNode(last, src)
    else if x.key == KeyBreak || x.key == KeyContinue then
      var l :- ParseLabel(last, src[1..]);
      Ok((Node(0, Jump(x, l.0)), l.1))
    else if x.key == KeyIf then
      var i :- ParseIf(last, src);
      Ok((Node(0, If(i.0)), i.1))
    else if x.key == KeyIterate then
      ParseIterate(last, src[1..])
    else if x.key == KeyReturn then
      var s := src[1..];
      if Peek(s).key != KeySemicolon then
        var v :- ParseExpr(last, s);
        Ok((Node(0, Return(Some(v.0))), v.1))
      else Ok((Node(0, Return(None)), s))
    else if x.key == KeyVar then
      ParseVar(false, last, src[1..])
    else if x.key == KeyWhile then
      ParseWhile(last, src[1..])
    else
      var lhs :- ParseExpr(last, src);
      var op := Peek(lhs.1);
      if IsAssign(op) then
        var rhs :- ParseExpr(last, lhs.1[1..]);
        Ok((Node(0, Assign(op, lhs.0, rhs.0)), rhs.1))
      else Ok((ExprAsNode(lhs.0), lhs.1))
  }

  /** The rest of an iterate statement, after the "iterate" keyword. */
  function ParseIterate(last: nat, src: seq<Token>): (r: Parsed<Node>)
    decreases |src|, 1
    ensures r.Ok? ==> StrictSuffix(r.value.1, src)
    ensures r.Ok? ==> && |src| > 1 && IsLiteral(src[1].id) && IsUnrollCount(src[1].id.key)
                      && r.value.0.kind.Iterate? && r.value.0.kind.unroll == LeafExpr(src[1].id)
  {
    if Peek(src).key != KeyDot then Fail(Expected(KeyDot), last, src)
    else
      var s := src[1..];
      var u := Peek(s);
      if !IsLiteral(u) then Fail(ExpectedLiteralUnroll, last, s)
      else if !IsUnrollCount(u.key) then Fail(BadUnrollCount, last, s[1..])
      else
        var n :- ParseIterateBody(u, last, s[1..]);
        SuffixTrans(n.1, s[1..], src);
        Ok(n)
  }

  /** An iterate statement after its unroll count: label, loop variables,
      assertions and body. */
  function ParseIterateBody(unroll: Id, last: nat, src: seq<Token>): (r: Parsed<Node>)
    decreases |src|, 0
    ensures r.Ok? ==> StrictSuffix(r.value.1, src)
    ensures r.Ok? ==> r.value.0.kind.Iterate? && r.value.0.kind.unroll == LeafExpr(unroll)
  {
    var l :- ParseLabel(last, src);
    var vs :- ParseList(KeyCloseParen, IterateVarElem, last, l.1);
    var a :- ParseAsserts(last, vs.1);
    var b :- ParseBlock(last, a.1);
    SuffixTrans(b.1, a.1, vs.1);
    SuffixTrans(b.1, vs.1, l.1);
    SuffixTrans(b.1, l.1, src);
    Ok((Node(0, Iterate(l.0, LeafExpr(unroll), vs.0, a.0, b.0)), b.1))
  }

  /** The rest of a while statement, after the "while" keyword. */
  function ParseWhile(last: nat, src: seq<Token>): (r: Parsed<Node>)
    decreases |src|, 4
    ensures r.Ok? ==> StrictSuffix(r.value.1, src)
  {
    var l :- ParseLabel(last, src);
    var c :- ParseExpr(last, l.1);
    var a :- ParseAsserts(last, c.1);
    var b :- ParseBlock(last, a.1);
    SuffixTrans(b.1, a.1, c.1);
    SuffixTrans(b.1, c.1, l.1);
    SuffixTrans(b.1, l.1, src);
    Ok((Node(0, While(l.0, c.0, a.0, b.0)), b.1))
  }

  function ParseIf(last: nat, src: seq<Token>): (r: Parsed<IfStmt>)
    decreases |src|, 4
    ensures r.Ok? ==> StrictSuffix(r.value.1, src)
  {
    if Peek(src).key != KeyIf then Fail(Expected(KeyIf), last, src)
    else
      var c :- ParseExpr(last, src[1..]);
      var t :- ParseBlock(last, c.1);
      SuffixTrans(t.1, c.1, src[1..]);
      SuffixTrans(t.1, src[1..], src);
      if Peek(t.1).key == KeyElse then
        var s := t.1[1..];
        SuffixTrans(s, t.1, src);
        if Peek(s).key == KeyIf then
          var e :- ParseIf(last, s);
          SuffixTrans(e.1, s, src);
          Ok((IfStmt(c.0, Some(e.0), t.0, []), e.1))
        else
          var f :- ParseBlock(last, s);
          SuffixTrans(f.1, s, src);
          Ok((IfStmt(c.0, None, t.0, f.0), f.1))
      else Ok((IfStmt(c.0, None, t.0, []), t.1))
  }

  /** "name: expr", a named argument. */
  function ParseArg(last: nat, src: seq<Token>): (r: Parsed<Node>)
    decreases |src|, 4
    ensures r.Ok? ==> StrictSuffix(r.value.1, src)
  {
    var n :- ParseIdent(last, src);
    if Peek(n.1).key != KeyColon then Fail(Expected(KeyColon), last, n.1)
    else
      var v :- ParseExpr(last, n.1[1..]);
      Ok((Node(0, Arg(n.0, v.0)), v.1))
  }

  /** "name type [= [try] expr]", or "name type: expr" for an iterate variable. */
  function ParseVar(inIterate: bool, last: nat, src: seq<Token>): (r: Parsed<Node>)
    decreases |src|, 4
    ensures r.Ok? ==> StrictSuffix(r.value.1, src)
  {
    var n :- ParseIdent(last, src);
    var t :- ParseTypeExpr(last, n.1);
    SuffixTrans(t.1, n.1, src);
    if inIterate then
      if Peek(t.1).key != KeyColon then Fail(Expected(KeyColon), last, t.1)
      else
        var v :- ParseExpr(last, t.1[1..]);
        SuffixTrans(v.1, t.1[1..], t.1);
        SuffixTrans(v.1, t.1, src);
        Ok((Node(0, Var(IdColon, n.0, t.0, Some(v.0))), v.1))
    else if Peek(t.1).key == KeyEq then
      var s := t.1[1..];
      var v :- if Peek(s).key == KeyTry then ParseTryExpr(last, s) else ParseExpr(last, s);
      SuffixTrans(v.1, s, t.1);
      SuffixTrans(v.1, t.1, src);
      Ok((Node(0, Var(IdEq, n.0, t.0, Some(v.0))), v.1))
    else Ok((Node(0, Var(NoId, n.0, t.0, None)), t.1))
  }

  // ---------------------------------------------------------------------
  // Expressions

  /** "$(e, e, ...)", a literal list. */
  function ParseDollarExpr(last: nat, src: seq<Token>): (r: Parsed<Expr>)
    decreases |src|, 1
    ensures r.Ok? ==> StrictSuffix(r.value.1, src)
  {
    if Peek(src).key != KeyDollar then Fail(Expected(KeyDollar), last, src)
    else
      var a :- ParseList(KeyCloseParen, ExprElem, last, src[1..]);
      Ok((Expr({}, DollarList, NoId, None, None, None, a.0), a.1))
  }

  function ParseTryExpr(last: nat, src: seq<Token>): (r: Parsed<Expr>)
    decreases |src|, 1
    ensures r.Ok? ==> StrictSuffix(r.value.1, src)
  {
    if Peek(src).key != KeyTry then Fail(Expected(KeyTry), last, src)
    else
      var c :- ParseExpr(last, src[1..]);
      if c.0.id0 != Call then Fail(ExpectedCall, last, c.1)
      else Ok((c.0.(id0 := Try), c.1))
  }

  /** One operand, then at most one binary operator layer: a single binary
      node, or one n-ary node for a run of the same associative operator. */
  function ParseExpr(last: nat, src: seq<Token>): (r: Parsed<Expr>)
    decreases |src|, 3
    ensures r.Ok? ==> StrictSuffix(r.value.1, src)
  {
    var l :- ParseOperand(last, src);
    var x := Peek(l.1);
    if !IsBinaryOp(x) then Ok(l)
    else
      var s := l.1[1..];
      var rhs :- if x.key == KeyAs then
                   (var t :- ParseTypeExpr(last, s); Ok((Node(0, TypeExprNode(t.0)), t.1)))
                 else
                   (var o :- ParseOperand(last, s); Ok((ExprAsNode(o.0), o.1)));
      assert Suffix(s, l.1);
      SuffixTrans(rhs.1, s, l.1);
      SuffixTrans(rhs.1, l.1, src);
      if !IsAssociativeOp(x) || x != Peek(rhs.1) then
        Ok((Expr({}, Binary(x.key), NoId, Some(l.0), None, Some(rhs.0), []), rhs.1))
      else
        var a :- AssocLoop(x, [ExprAsNode(l.0), rhs.0], last, rhs.1);
        Ok((Expr({}, Associative(x.key), NoId, None, None, None, a.0), a.1))
  }

  /** The operands of a run "x operand x operand ..." of one operator x. */
  function AssocLoop(x: Id, args: seq<Node>, last: nat, src: seq<Token>): (r: Parsed<seq<Node>>)
    requires x != NoId
    decreases |src|, 1
    ensures r.Ok? ==> Suffix(r.value.1, src)
  {
    if Peek(src) == x then
      var o :- ParseOperand(last, src[1..]);
      var a :- AssocLoop(x, args + [ExprAsNode(o.0)], last, o.1);
      SuffixTrans(a.1, o.1, src[1..]);
      SuffixTrans(a.1, src[1..], src);
      Ok(a)
    else Ok((args, src))
  }

  function ParseOperand(last: nat, src: seq<Token>): (r: Parsed<Expr>)
    decreases |src|, 2
    ensures r.Ok? ==> StrictSuffix(r.value.1, src)
  {
    var x := Peek(src);
    if IsUnaryOp(x) then
      var o :- ParseOperand(last, src[1..]);
      Ok((Expr({}, Unary(x.key), NoId, None, None, Some(ExprAsNode(o.0)), []), o.1))
    else if IsLiteral(x) then
      Ok((LeafExpr(x), src[1..]))
    else if x.key == KeyOpenParen then
      var e :- ParseExpr(last, src[1..]);
      if Peek(e.1).key != KeyCloseParen then Fail(Expected(KeyCloseParen), last, e.1)
      else Ok((e.0, e.1[1..]))
    else if x.key == KeyError || x.key == KeyStatus || x.key == KeySuspension then
      var s := src[1..];
      var m := Peek(s);
      if !IsStrLiteral(m) then Fail(ExpectedStrLiteral, last, s)
      else Ok((Expr({}, StatusLit(x), m, None, None, None, []), s[1..]))
    else
      var id :- ParseIdent(last, src);
      PostfixLoop(LeafExpr(id.0), last, id.1)
  }

  /** Calls, purity-marked calls, index/slice and field selection, each
      folded left onto the operand built so far. */
  function PostfixLoop(lhs: Expr, last: nat, src: seq<Token>): (r: Parsed<Expr>)
    decreases |src|, 10
    ensures r.Ok? ==> Suffix(r.value.1, src)
  {
    var k := Peek(src).key;
    if k == KeyExclam || k == KeyQuestion then
      var flags := {Impure, CallImpure} + if k == KeyQuestion then {Suspendible, CallSuspendible} else {};
      var a :- ParseList(KeyCloseParen, ArgElem, last, src[1..]);
      PostfixLoop(Expr(flags, Call, NoId, Some(lhs), None, None, a.0), last, a.1)
    else if k == KeyOpenParen then
      var a :- ParseList(KeyCloseParen, ArgElem, last, src);
      PostfixLoop(Expr({}, Call, NoId, Some(lhs), None, None, a.0), last, a.1)
    else if k == KeyOpenBracket then
      var b :- ParseBracket(IdColon, last, src);
      PostfixLoop(Expr({}, b.0.op, NoId, Some(lhs), b.0.lo, OptionNode(b.0.hi), []), last, b.1)
    else if k == KeyDot then
      var sel :- ParseIdent(last, src[1..]);
      PostfixLoop(Expr({}, Select, sel.0, Some(lhs), None, None, []), last, sel.1)
    else Ok((lhs, src))
  }

  // ---------------------------------------------------------------------
  // Top-level declarations

  function ParseTopLevelDecl(validPackageID: string -> bool, last: nat, src: seq<Token>): (r: Parsed<Node>)
    requires |src| > 0
    ensures r.Ok? ==> StrictSuffix(r.value.1, src)
  {
    var line := src[0].line;
    var k := src[0].id.key;
    if k == KeyPackageID || k == KeyUse then
      var s := src[1..];
      var path := Peek(s);
      if !IsStrLiteral(path) then Fail(ExpectedStrLiteral, last, s)
      else if Peek(s[1..]).key != KeySemicolon then Fail(Expected(KeySemicolon), last, s[1..])
      else if k == KeyPackageID then
        if !validPackageID(path.key) then Err(InvalidPackageID(path.key))
        else Ok((Node(line, PackageID(path)), s[2..]))
      else Ok((Node(line, Use(path)), s[2..]))
    else if k == KeyPub || k == KeyPri then
      ParseDecl(if k == KeyPub then {Public} else {}, line, last, src[1..])
    else Err(SyntaxError(UnrecognizedTopLevelDecl, line))
  }

  /** A declaration after its "pub" or "pri" visibility keyword. */
  function ParseDecl(flags: set<Flag>, line: nat, last: nat, src: seq<Token>): (r: Parsed<Node>)
    ensures r.Ok? ==> StrictSuffix(r.value.1, src)
  {
    var k := Peek(src).key;
    if k == KeyConst then ParseConst(flags, line, last, src[1..])
    else if k == KeyFunc then ParseFunc(flags, line, last, src[1..])
    else if k == KeyError || k == KeySuspension then
      var keyword := src[0].id;
      var s := src[1..];
      var m := Peek(s);
      if !IsStrLiteral(m) then Fail(ExpectedStrLiteral, last, s)
      else if Peek(s[1..]).key != KeySemicolon then Fail(Expected(KeySemicolon), last, s[1..])
      else Ok((Node(line, Status(flags, keyword, m)), s[2..]))
    else if k == KeyStruct then ParseStruct(flags, line, last, src[1..])
    else Err(SyntaxError(UnrecognizedTopLevelDecl, line))
  }

  /** The rest of a const declaration, after "const". */
  function ParseConst(flags: set<Flag>, line: nat, last: nat, src: seq<Token>): (r: Parsed<Node>)
    ensures r.Ok? ==> StrictSuffix(r.value.1, src)
  {
    var n :- ParseIdent(last, src);
    var t :- ParseTypeExpr(last, n.1);
    if Peek(t.1).key != KeyEq then Fail(ConstHasNoValue, last, t.1)
    else
      var s := t.1[1..];
      var v :- if Peek(s).key == KeyDollar then ParseDollarExpr(last, s) else ParseExpr(last, s);
      if Peek(v.1).key != KeySemicolon then Fail(Expected(KeySemicolon), last, v.1)
      else Ok((Node(line, Const(flags, n.0, t.0, v.0)), v.1[1..]))
  }

  /** The rest of a func declaration, after "func". */
  function ParseFunc(flags: set<Flag>, line: nat, last: nat, src: seq<Token>): (r: Parsed<Node>)
    ensures r.Ok? ==> StrictSuffix(r.value.1, src)
  {
    var q :- ParseQualifiedIdent(last, src);
    var receiver, name := q.0.0, q.0.1;
    if receiver != NoId && IsBuiltIn(receiver) then Fail(BuiltInReceiver, last, q.1)
    else if IsBuiltIn(name) then Fail(BuiltInFuncName, last, q.1)
    else
      var k := Peek(q.1).key;
      var flags' := if k == KeyExclam then flags + {Impure}
                    else if k == KeyQuestion then flags + {Impure, Suspendible}
                    else flags;
      var s := if k == KeyExclam || k == KeyQuestion then q.1[1..] else q.1;
      var f :- ParseFuncSignature(flags', receiver, name, line, last, s);
      SuffixTrans(f.1, s, q.1);
      Ok(f)
  }

  /** A func's in and out parameter lists, assertions, body and ";". */
  function ParseFuncSignature(flags: set<Flag>, receiver: Id, name: Id, line: nat, last: nat, src: seq<Token>): (r: Parsed<Node>)
    ensures r.Ok? ==> StrictSuffix(r.value.1, src)
    ensures r.Ok? ==> && r.value.0.line == line && r.value.0.kind.Func?
                      && r.value.0.kind.flags == flags
                      && r.value.0.kind.receiver == receiver && r.value.0.kind.name == name
  {
    var inFields :- ParseList(KeyCloseParen, FieldElem, last, src);
    var outFields :- ParseList(KeyCloseParen, FieldElem, last, inFields.1);
    var inParams := Node(line, Struct({}, IdIn, inFields.0));
    var outParams := Node(line, Struct({}, IdOut, outFields.0));
    var f :- ParseFuncBody(flags, receiver, name, inParams, outParams, line, last, outFields.1);
    SuffixTrans(f.1, outFields.1, inFields.1);
    SuffixTrans(f.1, inFields.1, src);
    Ok(f)
  }

  /** A func's assertions, body and ";", after its parameter lists. */
  function ParseFuncBody(flags: set<Flag>, receiver: Id, name: Id, inParams: Node, outParams: Node,
                         line: nat, last: nat, src: seq<Token>): (r: Parsed<Node>)
    ensures r.Ok? ==> StrictSuffix(r.value.1, src)
    ensures r.Ok? ==> && r.value.0.line == line && r.value.0.kind.Func?
                      && r.value.0.kind.flags == flags
                      && r.value.0.kind.receiver == receiver && r.value.0.kind.name == name
                      && r.value.0.kind.inParams == inParams && r.value.0.kind.outParams == outParams
  {
    var a :- ParseAsserts(last, src);
    var b :- ParseBlock(last, a.1);
    SuffixTrans(b.1, a.1, src);
    if Peek(b.1).key != KeySemicolon then Fail(Expected(KeySemicolon), last, b.1)
    else
      SuffixTrans(b.1[1..], b.1, src);
      Ok((Node(line, Func(flags, receiver, name, inParams, outParams, a.0, b.0)), b.1[1..]))
  }

  /** The rest of a struct declaration, after "struct". */
  function ParseStruct(flags: set<Flag>, line: nat, last: nat, src: seq<Token>): (r: Parsed<Node>)
    ensures r.Ok? ==> StrictSuffix(r.value.1, src)
  {
    var n :- ParseIdent(last, src);
    if IsBuiltIn(n.0) then Fail(BuiltInStructName, last, n.1)
    else
      var flags' := if Peek(n.1).key == KeyQuestion then flags + {Suspendible} else flags;
      var s := if Peek(n.1).key == KeyQuestion then n.1[1..] else n.1;
      var f :- ParseList(KeyCloseParen, FieldElem, last, s);
      if Peek(f.1).key != KeySemicolon then Fail(Expected(KeySemicolon), last, f.1)
      else Ok((Node(line, Struct(flags', n.0, f.0)), f.1[1..]))
  }

  /** Declarations until the stream is exhausted. */
  function FileLoop(validPackageID: string -> bool, last: nat, decls: seq<Node>, src: seq<Token>): Result<seq<Node>>
    decreases |src|
  {
    if |src| == 0 then Ok(decls)
    else
      var d :- ParseTopLevelDecl(validPackageID, last, src);
      FileLoop(validPackageID, last, decls + [d.0], d.1)
  }

  function ParseFile(filename: string, validPackageID: string -> bool, last: nat, src: seq<Token>): Result<File>
  {
    var decls :- FileLoop(validPackageID, last, [], src);
    Ok(File(filename, decls))
  }

  /** The line of the final token, where end-of-stream errors are reported. */
  function LastLine(src: seq<Token>): nat {
    if |src| > 0 then src[|src| - 1].line else 0
  }
}
