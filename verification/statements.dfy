/**
 * Statement-level rules: the iterate unroll count, and the line stamping
 * every statement receives.
 */
module Statements {
  import opened Tokens
  import opened Ast
  import opened Errors
  import G = Grammar
  import Lists

  function Pow2(k: nat): nat {
    if k == 0 then 1 else 2 * Pow2(k - 1)
  }

  function Digit(d: nat): char
    requires d < 10
  {
    "0123456789"[d]
  }

  /** The decimal spelling of a natural number, without leading zeros. */
  function Decimal(n: nat): string
    decreases n
  {
    if n < 10 then [Digit(n)] else Decimal(n / 10) + [Digit(n % 10)]
  }

  /** The unroll-count whitelist is exactly the decimal spellings of the
      powers of two from 2^0 to 2^8. */
  lemma UnrollCountsArePowersOfTwo()
    ensures UnrollCounts == set k: nat | k <= 8 :: Decimal(Pow2(k))
  {
    assert Decimal(Pow2(0)) == "1";
    assert Decimal(Pow2(1)) == "2";
    assert Decimal(Pow2(2)) == "4";
    assert Decimal(Pow2(3)) == "8";
    assert Decimal(Pow2(4)) == Decimal(1) + "6" == "16";
    assert Decimal(Pow2(5)) == Decimal(3) + "2" == "32";
    assert Decimal(Pow2(6)) == Decimal(6) + "4" == "64";
    assert Decimal(Pow2(7)) == Decimal(12) + "8" == "128";
    assert Decimal(Pow2(8)) == Decimal(25) + "6" == "256";
    var powers := set k: nat | k <= 8 :: Decimal(Pow2(k));
    forall s | s in powers
      ensures s in UnrollCounts
    {
      var k: nat :| k <= 8 && s == Decimal(Pow2(k));
      assert k in {0, 1, 2, 3, 4, 5, 6, 7, 8};
    }
    forall s | s in UnrollCounts
      ensures s in powers
    {
      if s == "1" { assert s == Decimal(Pow2(0)); }
      else if s == "2" { assert s == Decimal(Pow2(1)); }
      else if s == "4" { assert s == Decimal(Pow2(2)); }
      else if s == "8" { assert s == Decimal(Pow2(3)); }
      else if s == "16" { assert s == Decimal(Pow2(4)); }
      else if s == "32" { assert s == Decimal(Pow2(5)); }
      else if s == "64" { assert s == Decimal(Pow2(6)); }
      else if s == "128" { assert s == Decimal(Pow2(7)); }
      else { assert s == Decimal(Pow2(8)); }
    }
  }

  /** "iterate." followed by anything but a literal is rejected at that
      token. */
  lemma IterateNeedsLiteral(last: nat, src: seq<Token>)
    requires |src| > 0 && src[0].id.key == KeyDot && !IsLiteral(G.Peek(src[1..]))
    ensures G.ParseIterate(last, src) == Err(SyntaxError(ExpectedLiteralUnroll, G.LineAt(last, src[1..])))
  {
  }

  /** A literal unroll count outside the whitelist is rejected right after
      it, before the label or the variable list is looked at: the outcome
      depends on nothing beyond the count token but the next line. */
  lemma IterateCountWhitelist(last: nat, src: seq<Token>)
    requires |src| > 1 && src[0].id.key == KeyDot && IsLiteral(src[1].id) && !IsUnrollCount(src[1].id.key)
    ensures G.ParseIterate(last, src) == Err(SyntaxError(BadUnrollCount, G.LineAt(last, src[2..])))
  {
  }

  /** The loop variables of an iterate statement are "name type : value"
      declarations. */
  lemma IterateBodyVars(unroll: Id, last: nat, src: seq<Token>)
    ensures var r := G.ParseIterateBody(unroll, last, src);
            r.Ok? ==> Lists.AllShaped(G.IterateVarElem, r.value.0.kind.vars)
  {
    var l := G.ParseLabel(last, src);
    if l.Ok? {
      var vs := G.ParseList(KeyCloseParen, G.IterateVarElem, last, l.value.1);
      Lists.ParseListShape(KeyCloseParen, G.IterateVarElem, last, l.value.1);
      if vs.Ok? {
        var a := G.ParseAsserts(last, vs.value.1);
        if a.Ok? {
          var b := G.ParseBlock(last, a.value.1);
          if b.Ok? {
            assert G.ParseIterateBody(unroll, last, src) ==
                   Ok((Node(0, Iterate(l.value.0, LeafExpr(unroll), vs.value.0, a.value.0, b.value.0)), b.value.1));
          }
        }
      }
    }
  }

  /** An accepted iterate statement has a literal, whitelisted unroll
      count, taken as a leaf expression, and loop variables of the
      "name type : value" form. */
  lemma IterateAccepted(last: nat, src: seq<Token>)
    ensures var r := G.ParseIterate(last, src);
            r.Ok? ==>
              && |src| > 1
              && IsLiteral(src[1].id) && IsUnrollCount(src[1].id.key)
              && r.value.0.kind.Iterate?
              && r.value.0.kind.unroll == LeafExpr(src[1].id)
              && Lists.AllShaped(G.IterateVarElem, r.value.0.kind.vars)
  {
    var r := G.ParseIterate(last, src);
    if r.Ok? {
      assert r == G.ParseIterateBody(src[1].id, last, src[2..]);
      IterateBodyVars(src[1].id, last, src[2..]);
    }
  }

  /** A parsed statement carries the line it starts on, and so does each
      loop variable of an iterate statement; nothing else changes. */
  lemma StatementStamped(last: nat, src: seq<Token>)
    ensures var r := G.ParseStatement(last, src);
            r.Ok? ==>
              && |src| > 0
              && var (n, n1) := (r.value.0, G.ParseStatement1(last, src).value.0);
              && n.line == src[0].line
              && (n1.kind.Iterate? ==>
                    && n.kind.Iterate?
                    && n.kind.(vars := n1.kind.vars) == n1.kind
                    && |n.kind.vars| == |n1.kind.vars|
                    && forall i :: 0 <= i < |n.kind.vars| ==>
                         n.kind.vars[i].line == src[0].line && n.kind.vars[i].kind == n1.kind.vars[i].kind)
              && (!n1.kind.Iterate? ==> n.kind == n1.kind)
  {
  }

  /** A statement that starts with no statement keyword is an expression,
      kept as an expression node when no assignment operator follows it. */
  lemma ExprStatement(last: nat, src: seq<Token>, e: Expr, rest: seq<Token>)
    requires var k := G.Peek(src).key;
             && k != KeyAssert && k != KeyPre && k != KeyPost && k != KeyBreak && k != KeyContinue
             && k != KeyIf && k != KeyIterate && k != KeyReturn && k != KeyVar && k != KeyWhile
    requires G.ParseExpr(last, src) == Ok((e, rest)) && !IsAssign(G.Peek(rest))
    ensures G.ParseStatement1(last, src) == Ok((ExprAsNode(e), rest))
  {
  }

  // ---------------------------------------------------------------------
  // Labels

  /** Without ":" there is no label (ID 0) and nothing is consumed; after
      ":" the label is the identifier that must follow. */
  lemma LabelShape(last: nat, src: seq<Token>)
    ensures G.Peek(src).key != KeyColon ==> G.ParseLabel(last, src) == Ok((NoId, src))
    ensures G.Peek(src).key == KeyColon ==>
              var r := G.ParseLabel(last, src);
              && (r.Ok? <==> |src| > 1 && IsIdent(src[1].id))
              && (r.Ok? ==> r.value == (src[1].id, src[2..]))
              && (r.Err? ==> r == Err(SyntaxError(ExpectedIdent, G.LineAt(last, src[1..]))))
  {
  }

  // ---------------------------------------------------------------------
  // Blocks

  /** The statement loop only appends: what it has stays in front, in order. */
  lemma {:induction false} BlockLoopPrefix(block: seq<Node>, last: nat, src: seq<Token>)
    ensures var r := G.BlockLoop(block, last, src);
            r.Ok? ==> |block| <= |r.value.0| && r.value.0[..|block|] == block
    decreases |src|
  {
    if |src| > 0 && src[0].id.key != KeyCloseCurly {
      var st := G.ParseStatement(last, src);
      if st.Ok? && G.Peek(st.value.1).key == KeySemicolon {
        var block' := block + [st.value.0];
        BlockLoopPrefix(block', last, st.value.1[1..]);
        var r := G.BlockLoop(block', last, st.value.1[1..]);
        if r.Ok? {
          assert r.value.0[..|block|] == r.value.0[..|block'|][..|block|];
        }
      }
    }
  }

  /** The statement loop ends having consumed a "}". */
  lemma {:induction false} BlockLoopEnds(block: seq<Node>, last: nat, src: seq<Token>)
    ensures var r := G.BlockLoop(block, last, src);
            r.Ok? ==> |r.value.1| < |src| && src[|src| - |r.value.1| - 1].id.key == KeyCloseCurly
    decreases |src|
  {
    if |src| > 0 && src[0].id.key != KeyCloseCurly {
      var st := G.ParseStatement(last, src);
      if st.Ok? && G.Peek(st.value.1).key == KeySemicolon {
        var t := st.value.1[1..];
        BlockLoopEnds(block + [st.value.0], last, t);
        var r := G.BlockLoop(block + [st.value.0], last, t);
        if r.Ok? {
          assert src[|src| - |r.value.1| - 1] == t[|t| - |r.value.1| - 1];
        }
      }
    }
  }

  /** One step of the statement loop: a statement must be followed by ";",
      reported at the token that is there instead; running out of tokens
      is a missing "}" at the last line. */
  lemma BlockStep(block: seq<Node>, last: nat, src: seq<Token>, n: Node, rest: seq<Token>)
    requires |src| > 0 && src[0].id.key != KeyCloseCurly
    requires G.ParseStatement(last, src) == Ok((n, rest))
    ensures G.Peek(rest).key != KeySemicolon ==>
              G.BlockLoop(block, last, src) == Err(SyntaxError(Expected(KeySemicolon), G.LineAt(last, rest)))
    ensures G.Peek(rest).key == KeySemicolon ==>
              G.BlockLoop(block, last, src) == G.BlockLoop(block + [n], last, rest[1..])
    ensures G.BlockLoop(block, last, []) == Err(SyntaxError(Expected(KeyCloseCurly), last))
  {
  }

  /** A block is delimited by "{" and "}", both consumed, and is empty
      exactly when the "}" directly follows the "{". */
  lemma BlockShape(last: nat, src: seq<Token>)
    ensures var r := G.ParseBlock(last, src);
            r.Ok? ==>
              && src[0].id.key == KeyOpenCurly
              && |r.value.1| + 2 <= |src|
              && src[|src| - |r.value.1| - 1].id.key == KeyCloseCurly
              && (r.value.0 == [] <==> src[1].id.key == KeyCloseCurly)
  {
    var r := G.ParseBlock(last, src);
    if r.Ok? {
      var s := src[1..];
      assert r == G.BlockLoop([], last, s);
      BlockLoopEnds([], last, s);
      assert src[|src| - |r.value.1| - 1] == s[|s| - |r.value.1| - 1];
      if s[0].id.key != KeyCloseCurly {
        var st := G.ParseStatement(last, s).value;
        assert r == G.BlockLoop([] + [st.0], last, st.1[1..]);
        BlockLoopPrefix([] + [st.0], last, st.1[1..]);
      }
    }
  }

  // ---------------------------------------------------------------------
  // If statements

  /** An if statement is "if", a condition and a block, then optionally
      "else" with either a nested if (held in elseIf, the false branch left
      empty) or a block (held as the false branch). */
  lemma IfShape(last: nat, src: seq<Token>)
    ensures var r := G.ParseIf(last, src);
            r.Ok? ==>
              && src[0].id.key == KeyIf
              && var c := G.ParseExpr(last, src[1..]);
              && c.Ok? && r.value.0.condition == c.value.0
              && var t := G.ParseBlock(last, c.value.1);
              && t.Ok? && r.value.0.bodyIfTrue == t.value.0
              && var (i, rest, u) := (r.value.0, r.value.1, t.value.1);
              && (G.Peek(u).key != KeyElse ==> i.elseIf.None? && i.bodyIfFalse == [] && rest == u)
              && (G.Peek(u).key == KeyElse && G.Peek(u[1..]).key == KeyIf ==>
                    i.elseIf.Some? && i.bodyIfFalse == [] && G.ParseIf(last, u[1..]) == Ok((i.elseIf.value, rest)))
              && (G.Peek(u).key == KeyElse && G.Peek(u[1..]).key != KeyIf ==>
                    i.elseIf.None? && G.ParseBlock(last, u[1..]) == Ok((i.bodyIfFalse, rest)))
  {
  }

  /** An if statement never holds both a nested if and a false branch. */
  lemma IfElseExclusive(last: nat, src: seq<Token>)
    ensures var r := G.ParseIf(last, src);
            r.Ok? && r.value.0.elseIf.Some? ==> r.value.0.bodyIfFalse == []
  {
    IfShape(last, src);
  }
}
