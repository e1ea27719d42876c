/**
 * The shape of parsed expressions. Binary operators are deliberately not
 * given precedences: an expression is one operand, optionally followed by
 * one binary operator and a second operand, or by a run of one and the
 * same associative operator. Anything else that follows is left for the
 * caller (which then usually reports a missing ";" or ")").
 */
module Expressions {
  import opened Tokens
  import opened Ast
  import opened Errors
  import opened Grammar
  import Lists
  import Statements

  /** A run of x stops only where the next token is not x. */
  lemma {:induction false} AssocLoopStops(x: Id, args: seq<Node>, last: nat, src: seq<Token>)
    requires x != NoId
    ensures var r := AssocLoop(x, args, last, src);
            r.Ok? ==> Peek(r.value.1) != x
    decreases |src|
  {
    if Peek(src) == x {
      var o := ParseOperand(last, src[1..]);
      if o.Ok? {
        AssocLoopStops(x, args + [ExprAsNode(o.value.0)], last, o.value.1);
      }
    }
  }

  /** A run only appends: the operands collected so far stay in front, in
      order. */
  lemma {:induction false} AssocLoopPrefix(x: Id, args: seq<Node>, last: nat, src: seq<Token>)
    requires x != NoId
    ensures var r := AssocLoop(x, args, last, src);
            r.Ok? ==> |args| <= |r.value.0| && r.value.0[..|args|] == args
    decreases |src|
  {
    if Peek(src) == x {
      var o := ParseOperand(last, src[1..]);
      if o.Ok? {
        var args' := args + [ExprAsNode(o.value.0)];
        AssocLoopPrefix(x, args', last, o.value.1);
        var r := AssocLoop(x, args', last, o.value.1);
        if r.Ok? {
          assert r.value.0[..|args|] == r.value.0[..|args'|][..|args|];
        }
      }
    }
  }

  /** A run entered on x takes at least one more operand. */
  lemma AssocLoopGrows(x: Id, args: seq<Node>, last: nat, src: seq<Token>)
    requires x != NoId && Peek(src) == x
    ensures var r := AssocLoop(x, args, last, src);
            r.Ok? ==> |args| < |r.value.0|
  {
    var o := ParseOperand(last, src[1..]);
    if o.Ok? {
      AssocLoopPrefix(x, args + [ExprAsNode(o.value.0)], last, o.value.1);
    }
  }

  /** With no binary operator after the first operand, parseExpr yields
      that operand alone. */
  lemma ParseExprOperandOnly(last: nat, src: seq<Token>)
    requires ParseOperand(last, src).Ok? && !IsBinaryOp(Peek(ParseOperand(last, src).value.1))
    ensures ParseExpr(last, src) == ParseOperand(last, src)
  {
  }

  /** The right operand of a binary operator x: a type node for "as", an
      expression node otherwise. */
  function RightOperand(x: Id, last: nat, src: seq<Token>): Parsed<Node> {
    if x.key == KeyAs then
      var t :- ParseTypeExpr(last, src);
      Ok((Node(0, TypeExprNode(t.0)), t.1))
    else
      var o :- ParseOperand(last, src);
      Ok((ExprAsNode(o.0), o.1))
  }

  /** What parseExpr builds once the right operand has been parsed: a
      binary node unless x is associative and repeats, a run otherwise. */
  lemma ShapeAfterRhs(last: nat, src: seq<Token>, l: Expr, s: seq<Token>, e: Expr, rest: seq<Token>,
                      rhs: Node, t: seq<Token>)
    requires ParseOperand(last, src) == Ok((l, s))
    requires ParseExpr(last, src) == Ok((e, rest))
    requires IsBinaryOp(Peek(s))
    requires RightOperand(Peek(s), last, s[1..]) == Ok((rhs, t))
    ensures var x := Peek(s);
            !(IsAssociativeOp(x) && Peek(t) == x) ==>
              e == Expr({}, Binary(x.key), NoId, Some(l), None, Some(rhs), []) && rest == t
    ensures var x := Peek(s);
            IsAssociativeOp(x) && Peek(t) == x ==>
              && e.id0 == Associative(x.key)
              && e.lhs.None? && e.mhs.None? && e.rhs.None?
              && AssocLoop(x, [ExprAsNode(l), rhs], last, t) == Ok((e.args, rest))
  {
  }

  /** After the first operand l and a binary operator x, parseExpr yields
      exactly one binary node (l x rhs) unless x is associative and
      repeats; then it yields one n-ary node over at least three operands
      starting with l and rhs. There is no precedence: a binary node ends
      exactly where its right operand ends, whatever operator follows, and
      a run of an associative operator is always consumed to its end. The
      right side of "as" is a type. */
  lemma ParseExprShape(last: nat, src: seq<Token>, l: Expr, s: seq<Token>, e: Expr, rest: seq<Token>)
    requires ParseOperand(last, src) == Ok((l, s))
    requires ParseExpr(last, src) == Ok((e, rest))
    requires IsBinaryOp(Peek(s))
    ensures var x := Peek(s);
            && |s| > 0
            && RightOperand(x, last, s[1..]).Ok?
            && var (rhs, t) := RightOperand(x, last, s[1..]).value;
            && (x.key == KeyAs ==> rhs.kind.TypeExprNode?)
            && (x.key != KeyAs ==> rhs.kind.ExprNode?)
            && (IsAssociativeOp(x) ==> Peek(rest) != x)
            && (!(IsAssociativeOp(x) && Peek(t) == x) ==>
                  && e.id0 == Binary(x.key)
                  && e.lhs == Some(l) && e.mhs.None? && e.args == [] && e.rhs == Some(rhs)
                  && rest == t)
            && (IsAssociativeOp(x) && Peek(t) == x ==>
                  && e.id0 == Associative(x.key)
                  && e.lhs.None? && e.mhs.None? && e.rhs.None?
                  && |e.args| >= 3
                  && e.args[0] == ExprAsNode(l) && e.args[1] == rhs
                  && AssocLoop(x, [ExprAsNode(l), rhs], last, t) == Ok((e.args, rest)))
  {
    var x := Peek(s);
    var p := RightOperand(x, last, s[1..]);
    assert p.Ok?;
    var (rhs, t) := p.value;
    ShapeAfterRhs(last, src, l, s, e, rest, rhs, t);
    if IsAssociativeOp(x) && Peek(t) == x {
      RunShape(x, [ExprAsNode(l), rhs], last, t);
    }
  }

  /** A run entered on x after two operands ends on a token other than x
      and holds at least three operands, the first two kept in front. */
  lemma RunShape(x: Id, args: seq<Node>, last: nat, src: seq<Token>)
    requires x != NoId && Peek(src) == x && |args| == 2
    ensures var a := AssocLoop(x, args, last, src);
            a.Ok? ==> Peek(a.value.1) != x && |a.value.0| >= 3 && a.value.0[0] == args[0] && a.value.0[1] == args[1]
  {
    AssocLoopStops(x, args, last, src);
    AssocLoopPrefix(x, args, last, src);
    AssocLoopGrows(x, args, last, src);
    var a := AssocLoop(x, args, last, src);
    if a.Ok? {
      assert a.value.0[..2] == args;
      assert a.value.0[0] == args[0];
    }
  }

  /** try accepts exactly a call, and turns it into the same call marked
      as try: flags, ID1, the three child slots and the arguments are
      kept. Anything else is rejected where the expression ended. */
  lemma TryWrapsCall(last: nat, src: seq<Token>)
    requires Peek(src).key == KeyTry
    ensures var inner := ParseExpr(last, src[1..]);
            var r := ParseTryExpr(last, src);
            && (r.Ok? <==> inner.Ok? && inner.value.0.id0 == Call)
            && (r.Ok? ==>
                  && r.value.1 == inner.value.1
                  && var (t, c) := (r.value.0, inner.value.0);
                  && t.id0 == Try
                  && t.flags == c.flags && t.id1 == c.id1
                  && t.lhs == c.lhs && t.mhs == c.mhs && t.rhs == c.rhs
                  && t.args == c.args)
            && (inner.Ok? && inner.value.0.id0 != Call ==>
                  r == Err(SyntaxError(ExpectedCall, LineAt(last, inner.value.1))))
  {
  }

  // ---------------------------------------------------------------------
  // Worked examples, one token per line

  const IdA: Id := Id("a", {FlagIdent})
  const IdB: Id := Id("b", {FlagIdent})
  const IdC: Id := Id("c", {FlagIdent})
  const IdPlus: Id := Id("+", {FlagUnaryOp, FlagBinaryOp, FlagAssociativeOp})
  const IdStar: Id := Id("*", {FlagBinaryOp, FlagAssociativeOp})

  function Leaf(x: Id): Node {
    ExprAsNode(LeafExpr(x))
  }

  /** A plain identifier not followed by a postfix operator is an operand
      on its own. */
  lemma IdentOperand(last: nat, src: seq<Token>)
    requires |src| > 0 && IsIdent(src[0].id) && !IsUnaryOp(src[0].id) && !IsLiteral(src[0].id)
    requires var k := src[0].id.key; k != KeyOpenParen && k != KeyError && k != KeyStatus && k != KeySuspension
    requires var k := Peek(src[1..]).key;
             k != KeyExclam && k != KeyQuestion && k != KeyOpenParen && k != KeyOpenBracket && k != KeyDot
    ensures ParseOperand(last, src) == Ok((LeafExpr(src[0].id), src[1..]))
  {
  }

  /** One unfolding of parseExpr for an operator other than "as", in terms
      of the two operands already parsed. */
  lemma BinaryStep(last: nat, src: seq<Token>, l: Expr, s: seq<Token>, o: Expr, t: seq<Token>)
    requires ParseOperand(last, src) == Ok((l, s))
    requires IsBinaryOp(Peek(s)) && Peek(s).key != KeyAs
    requires ParseOperand(last, s[1..]) == Ok((o, t))
    ensures var x := Peek(s);
            ParseExpr(last, src) ==
              if !IsAssociativeOp(x) || x != Peek(t) then
                Ok((Expr({}, Binary(x.key), NoId, Some(l), None, Some(ExprAsNode(o)), []), t))
              else
                match AssocLoop(x, [ExprAsNode(l), ExprAsNode(o)], last, t)
                case Ok(a) => Ok((Expr({}, Associative(x.key), NoId, None, None, None, a.0), a.1))
                case Err(e) => Err(e)
  {
  }

  function NoPrecedenceSource(): seq<Token> {
    [Token(IdA, 1), Token(IdPlus, 2), Token(IdB, 3), Token(IdStar, 4), Token(IdC, 5)]
  }

  /** "a + b * c" has no precedence to resolve it: whatever follows, it
      parses as the single binary node "a + b", leaving "* c" unconsumed. */
  lemma NoPrecedence(last: nat, tail: seq<Token>)
    ensures var src := NoPrecedenceSource() + tail;
            ParseExpr(last, src) == Ok((Expr({}, Binary("+"), NoId, Some(LeafExpr(IdA)), None, Some(Leaf(IdB)), []), src[3..]))
  {
    var src := NoPrecedenceSource() + tail;
    IdentOperand(last, src);
    assert src[1..][1..] == src[2..];
    IdentOperand(last, src[2..]);
    assert src[2..][1..] == src[3..];
    BinaryStep(last, src, LeafExpr(IdA), src[1..], LeafExpr(IdB), src[3..]);
  }

  const IdSemicolon: Id := Id(KeySemicolon, {})
  const IdOpenCurly: Id := Id(KeyOpenCurly, {})
  const IdCloseCurly: Id := Id(KeyCloseCurly, {})

  /** So a statement mixing two operators without parentheses is rejected:
      in "{ a + b * c; }" the block expects ";" where "*" stands, on line 4. */
  lemma MixedOperatorsRejected()
    ensures ParseBlock(6, [Token(IdOpenCurly, 1)] + NoPrecedenceSource() + [Token(IdSemicolon, 5), Token(IdCloseCurly, 6)])
            == Err(SyntaxError(Expected(KeySemicolon), 4))
  {
    var tail := [Token(IdSemicolon, 5), Token(IdCloseCurly, 6)];
    var src := [Token(IdOpenCurly, 1)] + NoPrecedenceSource() + tail;
    var body := NoPrecedenceSource() + tail;
    assert src[1..] == body;
    NoPrecedence(6, tail);
    var e := Expr({}, Binary("+"), NoId, Some(LeafExpr(IdA)), None, Some(Leaf(IdB)), []);
    Statements.ExprStatement(6, body, e, body[3..]);
    assert ParseStatement(6, body) == Ok((Node(1, ExprNode(e)), body[3..]));
    Statements.BlockStep([], 6, body, Node(1, ExprNode(e)), body[3..]);
    assert body[3..][0] == Token(IdStar, 4);
  }

  function RunSource(): seq<Token> {
    [Token(IdA, 1), Token(IdPlus, 2), Token(IdB, 3), Token(IdPlus, 4), Token(IdC, 5)]
  }

  /** The tail "+ c" of the run appends c and ends it. */
  lemma AssociativeRunTail(args: seq<Node>)
    ensures AssocLoop(IdPlus, args, 5, RunSource()[3..]) == Ok((args + [Leaf(IdC)], []))
  {
    var t := RunSource()[3..];
    assert t[1..] == [Token(IdC, 5)];
    IdentOperand(5, t[1..]);
    assert t[1..][1..] == [];
    assert AssocLoop(IdPlus, args + [Leaf(IdC)], 5, []) == Ok((args + [Leaf(IdC)], []));
  }

  /** The head "a + b" of the run: two leaves, then the run goes on. */
  lemma AssociativeRunHead()
    ensures ParseOperand(5, RunSource()) == Ok((LeafExpr(IdA), RunSource()[1..]))
    ensures ParseOperand(5, RunSource()[1..][1..]) == Ok((LeafExpr(IdB), RunSource()[3..]))
    ensures Peek(RunSource()[3..]) == IdPlus
  {
    var src := RunSource();
    IdentOperand(5, src);
    assert src[1..][1..] == src[2..];
    IdentOperand(5, src[2..]);
    assert src[2..][1..] == src[3..];
  }

  /** "a + b + c" is one associative node over three operands, in order. */
  lemma AssociativeRun()
    ensures ParseExpr(5, RunSource()) == Ok((Expr({}, Associative("+"), NoId, None, None, None, [Leaf(IdA), Leaf(IdB), Leaf(IdC)]), []))
  {
    var src := RunSource();
    AssociativeRunHead();
    AssociativeRunTail([Leaf(IdA), Leaf(IdB)]);
    assert [Leaf(IdA), Leaf(IdB)] + [Leaf(IdC)] == [Leaf(IdA), Leaf(IdB), Leaf(IdC)];
    BinaryStep(5, src, LeafExpr(IdA), src[1..], LeafExpr(IdB), src[3..]);
  }

  // ---------------------------------------------------------------------
  // Operands

  /** A unary operator applies to the operand right after it. */
  lemma UnaryOperand(last: nat, src: seq<Token>)
    requires IsUnaryOp(Peek(src))
    ensures var (r, o) := (ParseOperand(last, src), ParseOperand(last, src[1..]));
            && (r.Ok? <==> o.Ok?)
            && (r.Ok? ==>
                  && r.value.0.id0 == Unary(src[0].id.key)
                  && r.value.0.rhs == Some(ExprAsNode(o.value.0))
                  && r.value.0.lhs.None? && r.value.0.mhs.None? && r.value.0.args == []
                  && r.value.1 == o.value.1)
  {
  }

  /** A literal is an operand by itself: it takes no postfix operator. */
  lemma LiteralOperand(last: nat, src: seq<Token>)
    requires !IsUnaryOp(Peek(src)) && IsLiteral(Peek(src))
    ensures ParseOperand(last, src) == Ok((LeafExpr(src[0].id), src[1..]))
  {
  }

  /** Parentheses leave no node of their own: "(e)" is e, and needs its
      ")"; the parenthesised expression takes no postfix operator. */
  lemma ParenOperand(last: nat, src: seq<Token>)
    requires !IsUnaryOp(Peek(src)) && !IsLiteral(Peek(src)) && Peek(src).key == KeyOpenParen
    ensures var (r, e) := (ParseOperand(last, src), ParseExpr(last, src[1..]));
            && (r.Ok? <==> e.Ok? && Peek(e.value.1).key == KeyCloseParen)
            && (r.Ok? ==> r.value == (e.value.0, e.value.1[1..]))
            && (e.Ok? && Peek(e.value.1).key != KeyCloseParen ==>
                  r == Err(SyntaxError(Expected(KeyCloseParen), LineAt(last, e.value.1))))
  {
  }

  /** "error", "status" and "suspension" followed by a string literal make
      a status literal holding the keyword and the message. */
  lemma StatusOperand(last: nat, src: seq<Token>)
    requires !IsUnaryOp(Peek(src)) && !IsLiteral(Peek(src))
    requires var k := Peek(src).key; k == KeyError || k == KeyStatus || k == KeySuspension
    ensures var r := ParseOperand(last, src);
            && (r.Ok? <==> IsStrLiteral(Peek(src[1..])))
            && (r.Ok? ==> r.value == (Expr({}, StatusLit(src[0].id), src[1].id, None, None, None, []), src[2..]))
            && (r.Err? ==> r == Err(SyntaxError(ExpectedStrLiteral, LineAt(last, src[1..]))))
  {
  }

  /** Any other token must be an identifier, which the postfix loop then
      extends. */
  lemma NameOperand(last: nat, src: seq<Token>)
    requires !IsUnaryOp(Peek(src)) && !IsLiteral(Peek(src))
    requires var k := Peek(src).key; k != KeyOpenParen && k != KeyError && k != KeyStatus && k != KeySuspension
    ensures !IsIdent(Peek(src)) ==> ParseOperand(last, src) == Err(SyntaxError(ExpectedIdent, LineAt(last, src)))
    ensures IsIdent(Peek(src)) ==> ParseOperand(last, src) == PostfixLoop(LeafExpr(src[0].id), last, src[1..])
  {
  }

  /** The tokens that extend an operand: a marked or plain call, a
      bracket, or a selector. */
  predicate ContinuesChain(x: Id) {
    x.key == KeyExclam || x.key == KeyQuestion || x.key == KeyOpenParen
    || x.key == KeyOpenBracket || x.key == KeyDot
  }

  /** The postfix loop runs until the next token extends the operand no
      further. */
  lemma {:induction false} PostfixLoopStops(lhs: Expr, last: nat, src: seq<Token>)
    decreases |src|
    ensures var r := PostfixLoop(lhs, last, src);
            r.Ok? ==> !ContinuesChain(Peek(r.value.1))
  {
    var k := Peek(src).key;
    if k == KeyExclam || k == KeyQuestion {
      var a := ParseList(KeyCloseParen, ArgElem, last, src[1..]);
      if a.Ok? {
        var flags := {Impure, CallImpure} + if k == KeyQuestion then {Suspendible, CallSuspendible} else {};
        PostfixLoopStops(Expr(flags, Call, NoId, Some(lhs), None, None, a.value.0), last, a.value.1);
      }
    } else if k == KeyOpenParen {
      var a := ParseList(KeyCloseParen, ArgElem, last, src);
      if a.Ok? {
        PostfixLoopStops(Expr({}, Call, NoId, Some(lhs), None, None, a.value.0), last, a.value.1);
      }
    } else if k == KeyOpenBracket {
      var b := ParseBracket(IdColon, last, src);
      if b.Ok? {
        PostfixLoopStops(Expr({}, b.value.0.op, NoId, Some(lhs), b.value.0.lo, OptionNode(b.value.0.hi), []), last, b.value.1);
      }
    } else if k == KeyDot {
      var sel := ParseIdent(last, src[1..]);
      if sel.Ok? {
        PostfixLoopStops(Expr({}, Select, sel.value.0, Some(lhs), None, None, []), last, sel.value.1);
      }
    }
  }

  /** "f!(args)" is an impure call and "f?(args)" a suspendible one; either
      holds the callee in front and the argument nodes. */
  lemma MarkedCall(lhs: Expr, last: nat, src: seq<Token>, args: seq<Node>, rest: seq<Token>)
    requires |src| > 0 && (src[0].id.key == KeyExclam || src[0].id.key == KeyQuestion)
    requires ParseList(KeyCloseParen, ArgElem, last, src[1..]) == Ok((args, rest))
    requires !ContinuesChain(Peek(rest))
    ensures var flags := {Impure, CallImpure}
              + if src[0].id.key == KeyQuestion then {Suspendible, CallSuspendible} else {};
            PostfixLoop(lhs, last, src) == Ok((Expr(flags, Call, NoId, Some(lhs), None, None, args), rest))
  {
  }

  /** "f(args)" is a pure call holding the callee in front and the
      argument nodes. */
  lemma PlainCall(lhs: Expr, last: nat, src: seq<Token>, args: seq<Node>, rest: seq<Token>)
    requires Peek(src).key == KeyOpenParen
    requires ParseList(KeyCloseParen, ArgElem, last, src) == Ok((args, rest))
    requires !ContinuesChain(Peek(rest))
    ensures PostfixLoop(lhs, last, src) == Ok((Expr({}, Call, NoId, Some(lhs), None, None, args), rest))
  {
  }

  /** "a[x]" is an index holding the indexed operand in front and x behind,
      and nothing in the middle. */
  lemma IndexStep(lhs: Expr, last: nat, src: seq<Token>, x: Expr, t: seq<Token>)
    requires |src| > 1 && src[0].id.key == KeyOpenBracket && src[1].id != IdColon
    requires ParseExpr(last, src[1..]) == Ok((x, t))
    requires |t| > 0 && t[0].id.key == KeyCloseBracket
    requires !ContinuesChain(Peek(t[1..]))
    ensures PostfixLoop(lhs, last, src) == Ok((Expr({}, Index, NoId, Some(lhs), None, Some(ExprAsNode(x)), []), t[1..]))
  {
    Lists.IndexAccepted(last, src, x, t);
  }

  /** "a.name" is a selector holding the operand in front and the name as
      its identifier; a "." not followed by an identifier is rejected. */
  lemma SelectStep(lhs: Expr, last: nat, src: seq<Token>)
    requires Peek(src).key == KeyDot
    ensures !IsIdent(Peek(src[1..])) ==>
              PostfixLoop(lhs, last, src) == Err(SyntaxError(ExpectedIdent, LineAt(last, src[1..])))
    ensures IsIdent(Peek(src[1..])) && !ContinuesChain(Peek(src[2..])) ==>
              PostfixLoop(lhs, last, src) == Ok((Expr({}, Select, src[1].id, Some(lhs), None, None, []), src[2..]))
  {
  }

  /** "$(e, ...)" is a literal list whose arguments are the expression
      nodes of the parenthesised list, the ")" consumed. */
  lemma DollarListShape(last: nat, src: seq<Token>)
    ensures var r := ParseDollarExpr(last, src);
            r.Ok? ==>
              && src[0].id.key == KeyDollar
              && var l := ParseList(KeyCloseParen, ExprElem, last, src[1..]);
              && l.Ok?
              && r.value == (Expr({}, DollarList, NoId, None, None, None, l.value.0), l.value.1)
              && Lists.AllShaped(ExprElem, r.value.0.args)
              && |src| > 2 && src[1].id.key == KeyOpenParen
              && src[|src| - |r.value.1| - 1].id.key == KeyCloseParen
  {
    var r := ParseDollarExpr(last, src);
    if r.Ok? {
      var s := src[1..];
      Lists.ParseListShape(KeyCloseParen, ExprElem, last, s);
      assert src[|src| - |r.value.1| - 1] == s[|s| - |r.value.1| - 1];
    }
  }
}
