/**
 * The shape of parsed type expressions: "ptr T", "[N] T", "[] T", and a
 * possibly qualified name with an optional "[lo..hi]" refinement.
 */
module Types {
  import opened Tokens
  import opened Ast
  import opened Errors
  import opened Grammar
  import Lists

  /** The first token decides the form: "ptr" gives a pointer to the type
      after it, "[" an array (of unknown length exactly when "]" follows
      at once), and anything else a named type. */
  lemma TypeExprShape(last: nat, src: seq<Token>)
    ensures var r := ParseTypeExpr(last, src);
            r.Ok? ==>
              && (r.value.0.Pointer? <==> Peek(src).key == KeyPtr)
              && (r.value.0.Array? <==> Peek(src).key == KeyOpenBracket)
              && (r.value.0.Pointer? ==> ParseTypeExpr(last, src[1..]) == Ok((r.value.0.elem, r.value.1)))
              && (r.value.0.Array? ==>
                    && (r.value.0.size.None? <==> Peek(src[1..]).key == KeyCloseBracket)
                    && (r.value.0.size.None? ==> ParseTypeExpr(last, src[2..]) == Ok((r.value.0.elem, r.value.1)))
                    && (r.value.0.size.Some? ==>
                          && ParseExpr(last, src[1..]).Ok?
                          && r.value.0.size.value == ParseExpr(last, src[1..]).value.0))
  {
    var r := ParseTypeExpr(last, src);
    if r.Ok? && Peek(src).key == KeyOpenBracket && Peek(src[1..]).key == KeyCloseBracket {
      assert src[1..][1..] == src[2..];
    }
  }

  /** A named type is a qualified identifier; its refinement, when a "["
      follows the name, is a ".." range (never an index), and otherwise
      both bounds are absent. */
  lemma NamedTypeShape(last: nat, src: seq<Token>)
    requires Peek(src).key != KeyPtr && Peek(src).key != KeyOpenBracket
    ensures var r := ParseTypeExpr(last, src);
            r.Ok? ==>
              && r.value.0.Named?
              && var q := ParseQualifiedIdent(last, src);
              && q.Ok? && (r.value.0.pkg, r.value.0.name) == q.value.0
              && (Peek(q.value.1).key != KeyOpenBracket ==>
                    r.value.0.lo.None? && r.value.0.hi.None? && r.value.1 == q.value.1)
              && (Peek(q.value.1).key == KeyOpenBracket ==>
                    ParseBracket(IdDotDot, last, q.value.1) ==
                      Ok((Bracket(Range(IdDotDot), r.value.0.lo, r.value.0.hi), r.value.1)))
  {
    var q := ParseQualifiedIdent(last, src);
    if q.Ok? && Peek(q.value.1).key == KeyOpenBracket {
      Lists.BracketShape(IdDotDot, last, q.value.1);
    }
  }
}
