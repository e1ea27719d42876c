/**
 * The shared list primitive and the shared bracket primitive.
 *
 * A list is "elem, elem, ..." up to a stop token. With ")" as the stop the
 * list is parenthesised: the "(" is required and the ")" consumed. With any
 * other stop the stop token is left for the caller.
 */
module Lists {
  import opened Tokens
  import opened Ast
  import opened Errors
  import opened Grammar

  /** What an element parser yields. */
  predicate ElemShape(elem: ElemKind, n: Node) {
    match elem
    case FieldElem => n.kind.Field?
    case AssertElem =>
      && n.kind.Assert?
      && var k := n.kind.keyword.key; (k == KeyAssert || k == KeyPre || k == KeyInv || k == KeyPost)
    case ArgElem => n.kind.Arg?
    case IterateVarElem => n.kind.Var? && n.kind.op == IdColon && n.kind.init.Some?
    case ExprElem => n.kind.ExprNode?
  }

  predicate AllShaped(elem: ElemKind, ns: seq<Node>) {
    forall i :: 0 <= i < |ns| ==> ElemShape(elem, ns[i])
  }

  /** The tokens a successful parse consumed. */
  function Consumed(src: seq<Token>, rest: seq<Token>): seq<Token>
    requires |rest| <= |src|
  {
    src[..|src| - |rest|]
  }

  lemma ElemShaped(elem: ElemKind, last: nat, src: seq<Token>)
    ensures ParseElem(elem, last, src).Ok? ==> ElemShape(elem, ParseElem(elem, last, src).value.0)
  {
    match elem
    case FieldElem =>
    case AssertElem =>
    case ArgElem =>
    case IterateVarElem =>
      assert ParseElem(elem, last, src) == ParseVar(true, last, src);
    case ExprElem =>
  }

  /** The loop only appends: what was collected stays in front, in order. */
  lemma {:induction false} ListLoopPrefix(stop: Key, elem: ElemKind, acc: seq<Node>, last: nat, src: seq<Token>)
    ensures var r := ListLoop(stop, elem, acc, last, src);
            r.Ok? ==> |acc| <= |r.value.0| && r.value.0[..|acc|] == acc
    decreases |src|
  {
    if |src| > 0 && src[0].id.key != stop {
      var e := ParseElem(elem, last, src);
      if e.Ok? && Peek(e.value.1).key != stop && Peek(e.value.1).key == KeyComma {
        var acc' := acc + [e.value.0];
        ListLoopPrefix(stop, elem, acc', last, e.value.1[1..]);
        var r := ListLoop(stop, elem, acc', last, e.value.1[1..]);
        if r.Ok? {
          assert r.value.0[..|acc|] == r.value.0[..|acc'|][..|acc|];
        }
      }
    }
  }

  /** Every element the loop adds comes from the element parser. */
  lemma {:induction false} ListLoopShaped(stop: Key, elem: ElemKind, acc: seq<Node>, last: nat, src: seq<Token>)
    requires AllShaped(elem, acc)
    ensures var r := ListLoop(stop, elem, acc, last, src);
            r.Ok? ==> AllShaped(elem, r.value.0)
    decreases |src|
  {
    if |src| > 0 && src[0].id.key != stop {
      ElemShaped(elem, last, src);
      var e := ParseElem(elem, last, src);
      if e.Ok? && Peek(e.value.1).key != stop && Peek(e.value.1).key == KeyComma {
        ListLoopShaped(stop, elem, acc + [e.value.0], last, e.value.1[1..]);
      }
    }
  }

  /** How a successful list ends: with ")" as the stop, the last token
      consumed is the ")"; with any other stop, the stop token is the next
      one left. */
  lemma {:induction false} ListLoopEnds(stop: Key, elem: ElemKind, acc: seq<Node>, last: nat, src: seq<Token>)
    requires stop != NoId.key
    ensures var r := ListLoop(stop, elem, acc, last, src);
            r.Ok? ==>
              if stop == KeyCloseParen then
                |r.value.1| < |src| && src[|src| - |r.value.1| - 1].id.key == stop
              else
                |r.value.1| > 0 && r.value.1[0].id.key == stop
    decreases |src|
  {
    if |src| > 0 && src[0].id.key != stop {
      var e := ParseElem(elem, last, src);
      if e.Ok? {
        var t := e.value.1;
        if Peek(t).key == stop {
          if stop == KeyCloseParen {
            assert src[|src| - |t[1..]| - 1] == t[0];
          }
        } else if Peek(t).key == KeyComma {
          ListLoopEnds(stop, elem, acc + [e.value.0], last, t[1..]);
          var r := ListLoop(stop, elem, acc + [e.value.0], last, t[1..]);
          if r.Ok? && stop == KeyCloseParen {
            assert src[|src| - |r.value.1| - 1] == t[1..][|t[1..]| - |r.value.1| - 1];
          }
        }
      }
    }
  }

  /** parseList with ")" requires the "(" and ends having consumed the ")";
      with another stop it leaves the stop token unconsumed; elements come
      back in order from the element parser. */
  lemma ParseListShape(stop: Key, elem: ElemKind, last: nat, src: seq<Token>)
    requires stop != NoId.key
    ensures var r := ParseList(stop, elem, last, src);
            r.Ok? ==>
              && AllShaped(elem, r.value.0)
              && (stop == KeyCloseParen ==>
                    && src[0].id.key == KeyOpenParen
                    && |r.value.1| + 2 <= |src|
                    && Consumed(src, r.value.1)[|src| - |r.value.1| - 1].id.key == KeyCloseParen)
              && (stop != KeyCloseParen ==> |r.value.1| > 0 && r.value.1[0].id.key == stop)
  {
    if stop != KeyCloseParen {
      ListLoopShaped(stop, elem, [], last, src);
      ListLoopEnds(stop, elem, [], last, src);
    } else if Peek(src).key == KeyOpenParen {
      var s := src[1..];
      ListLoopShaped(stop, elem, [], last, s);
      ListLoopEnds(stop, elem, [], last, s);
      var r := ParseList(stop, elem, last, src);
      if r.Ok? {
        assert src[|src| - |r.value.1| - 1] == s[|s| - |r.value.1| - 1];
      }
    }
  }

  /** A stream that never mentions the stop token cannot hold a list. */
  lemma NoStopNoList(stop: Key, elem: ElemKind, last: nat, src: seq<Token>)
    requires stop != NoId.key
    requires forall i :: 0 <= i < |src| ==> src[i].id.key != stop
    ensures ParseList(stop, elem, last, src).Err?
  {
    ParseListShape(stop, elem, last, src);
  }

  /** Running out of tokens inside a list is an error at the last line. */
  lemma UnterminatedList(stop: Key, elem: ElemKind, acc: seq<Node>, last: nat)
    ensures ListLoop(stop, elem, acc, last, []) == Err(SyntaxError(Expected(stop), last))
  {
  }

  /** A comma directly before the stop token is accepted: "e, )" is the
      one-element list [e]. */
  lemma TrailingComma(stop: Key, elem: ElemKind, acc: seq<Node>, last: nat, src: seq<Token>)
    requires |src| > 0 && src[0].id.key != stop
    requires ParseElem(elem, last, src).Ok?
    requires var t := ParseElem(elem, last, src).value.1;
             |t| >= 2 && t[0].id.key == KeyComma && t[1].id.key == stop && stop != KeyComma
    ensures var e := ParseElem(elem, last, src).value;
            var after := e.1[2..];
            ListLoop(stop, elem, acc, last, src) ==
              Ok((acc + [e.0], if stop == KeyCloseParen then after else e.1[1..]))
  {
  }

  /** A list comes back empty exactly when the stop token comes first. */
  lemma ListLoopEmpty(stop: Key, elem: ElemKind, last: nat, src: seq<Token>)
    requires |src| > 0
    ensures var r := ListLoop(stop, elem, [], last, src);
            r.Ok? ==> (r.value.0 == [] <==> src[0].id.key == stop)
  {
    if src[0].id.key != stop {
      var e := ParseElem(elem, last, src);
      if e.Ok? {
        var (n, t) := e.value;
        if Peek(t).key != stop && Peek(t).key == KeyComma {
          assert [] + [n] == [n];
          ListLoopPrefix(stop, elem, [n], last, t[1..]);
        }
      }
    }
  }

  /** A non-empty list starts with what the element parser yields at its
      first token. */
  lemma {:induction false} ListLoopFirst(stop: Key, elem: ElemKind, last: nat, src: seq<Token>, xs: seq<Node>, rest: seq<Token>)
    requires ListLoop(stop, elem, [], last, src) == Ok((xs, rest)) && xs != []
    ensures ParseElem(elem, last, src).Ok? && xs[0] == ParseElem(elem, last, src).value.0
  {
    var e := ParseElem(elem, last, src);
    var t := e.value.1;
    if Peek(t).key != stop {
      var acc := [] + [e.value.0];
      ListLoopPrefix(stop, elem, acc, last, t[1..]);
      assert xs[..|acc|] == acc;
      assert xs[0] == acc[0];
    }
  }

  // ---------------------------------------------------------------------
  // Brackets

  /** "[x]" is an index (only with ":" as the separator), with the index in
      the high slot and the low slot empty; every other success is a range
      tagged with the separator. */
  lemma BracketShape(sep: Id, last: nat, src: seq<Token>)
    requires sep == IdColon || sep == IdDotDot
    ensures var r := ParseBracket(sep, last, src);
            r.Ok? ==>
              || (r.value.0.op == Index && sep == IdColon && r.value.0.lo.None? && r.value.0.hi.Some?)
              || r.value.0.op == Range(sep)
  {
  }

  /** With ":" as the separator, "[x]" is accepted as the index x. */
  lemma IndexAccepted(last: nat, src: seq<Token>, x: Expr, t: seq<Token>)
    requires |src| > 1 && src[0].id.key == KeyOpenBracket && src[1].id != IdColon
    requires ParseExpr(last, src[1..]) == Ok((x, t))
    requires |t| > 0 && t[0].id.key == KeyCloseBracket
    ensures ParseBracket(IdColon, last, src) == Ok((Bracket(Index, None, Some(x)), t[1..]))
  {
    assert OptionalExpr(true, last, src[1..]) == Ok((Some(x), t));
  }

  /** "[lo sep hi]" is accepted as the range from lo to hi, with either
      separator. */
  lemma RangeAccepted(sep: Id, last: nat, src: seq<Token>, lo: Expr, t: seq<Token>, hi: Expr, u: seq<Token>)
    requires sep == IdColon || sep == IdDotDot
    requires |src| > 1 && src[0].id.key == KeyOpenBracket && src[1].id != sep
    requires ParseExpr(last, src[1..]) == Ok((lo, t))
    requires |t| > 1 && t[0].id.key == sep.key && t[1].id.key != KeyCloseBracket
    requires ParseExpr(last, t[1..]) == Ok((hi, u))
    requires |u| > 0 && u[0].id.key == KeyCloseBracket
    ensures ParseBracket(sep, last, src) == Ok((Bracket(Range(sep), Some(lo), Some(hi)), u[1..]))
  {
    assert OptionalExpr(true, last, src[1..]) == Ok((Some(lo), t));
    assert OptionalExpr(true, last, t[1..]) == Ok((Some(hi), u));
    assert BracketRest(sep, Some(lo), last, t) == Ok((Bracket(Range(sep), Some(lo), Some(hi)), u[1..]));
  }

  /** The rest of a bracket ends at its "]". */
  lemma BracketRestDelimited(sep: Id, lo: Option<Expr>, last: nat, src: seq<Token>)
    requires sep == IdColon || sep == IdDotDot
    ensures var r := BracketRest(sep, lo, last, src);
            r.Ok? ==> |r.value.1| < |src| && src[|src| - |r.value.1| - 1].id.key == KeyCloseBracket
  {
    var r := BracketRest(sep, lo, last, src);
    if r.Ok? && Peek(src).key == sep.key {
      var hi := OptionalExpr(Peek(src[1..]).key != KeyCloseBracket, last, src[1..]).value;
      assert r.value.1 == hi.1[1..];
      assert src[|src| - |r.value.1| - 1] == hi.1[0];
    }
  }

  /** A successful bracket is its "[", its optional low bound, and the rest. */
  lemma BracketUnfold(sep: Id, last: nat, src: seq<Token>)
    requires sep == IdColon || sep == IdDotDot
    ensures var r := ParseBracket(sep, last, src);
            r.Ok? ==>
              && |src| > 0 && src[0].id.key == KeyOpenBracket
              && var o := OptionalExpr(Peek(src[1..]) != sep, last, src[1..]);
              && o.Ok? && r == BracketRest(sep, o.value.0, last, o.value.1)
  {
  }

  /** A bracket is delimited: it starts at a "[" and its last token is a
      "]", so it consumes at least two tokens. */
  lemma BracketDelimited(sep: Id, last: nat, src: seq<Token>)
    requires sep == IdColon || sep == IdDotDot
    ensures var r := ParseBracket(sep, last, src);
            r.Ok? ==>
              && src[0].id.key == KeyOpenBracket
              && |r.value.1| + 2 <= |src|
              && src[|src| - |r.value.1| - 1].id.key == KeyCloseBracket
  {
    BracketUnfold(sep, last, src);
    var r := ParseBracket(sep, last, src);
    if r.Ok? {
      var s := src[1..];
      var o := OptionalExpr(Peek(s) != sep, last, s).value;
      var m := o.1;
      BracketRestDelimited(sep, o.0, last, m);
      assert src[|src| - |r.value.1| - 1] == m[|m| - |r.value.1| - 1];
    }
  }

  /** With ".." as the separator, "[lo]" is not a bracket: the "]" right
      after the low bound is reported where ".." was expected. */
  lemma DotDotNeedsSeparator(last: nat, src: seq<Token>)
    requires |src| > 1 && src[0].id.key == KeyOpenBracket && src[1].id != IdDotDot
    requires ParseExpr(last, src[1..]).Ok?
    requires var t := ParseExpr(last, src[1..]).value.1; |t| > 0 && t[0].id.key == KeyCloseBracket
    ensures var t := ParseExpr(last, src[1..]).value.1;
            ParseBracket(IdDotDot, last, src) == Err(SyntaxError(Expected(KeyDotDot), t[0].line))
  {
  }

  /** "[:]" (or "[..]") is a range with both bounds absent. */
  lemma EmptyRange(sep: Id, last: nat, src: seq<Token>)
    requires sep == IdColon || sep == IdDotDot
    requires |src| >= 3 && src[0].id.key == KeyOpenBracket && src[1].id == sep && src[2].id.key == KeyCloseBracket
    ensures ParseBracket(sep, last, src) == Ok((Bracket(Range(sep), None, None), src[3..]))
  {
    assert src[1..][1..] == src[2..] && src[2..][1..] == src[3..];
    assert BracketRest(sep, None, last, src[1..]) == Ok((Bracket(Range(sep), None, None), src[3..]));
  }
}
