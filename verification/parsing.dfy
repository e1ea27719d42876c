/**
 * The parser itself: an object holding the remaining tokens, whose methods
 * consume a prefix of them and return the parsed node. Each method is
 * proved against its specification function in Grammar: on success it
 * returns the specified value and leaves exactly the specified remaining
 * tokens in `src`; on failure it returns the specified error (where `src`
 * is then left does not matter, as the first error aborts the parse).
 */
module Parsing {
  import opened Tokens
  import opened Ast
  import opened Errors
  import G = Grammar

  /** The outcome `r` with `rest` left in the parser agrees with `spec`. */
  ghost predicate Yields<T>(r: Result<T>, rest: seq<Token>, spec: G.Parsed<T>) {
    match spec
    case Ok(p) => r == Ok(p.0) && rest == p.1
    case Err(e) => r == Err(e)
  }

  /** The keys a postfix operator (call, purity-marked call, index or
      slice, selection) starts with. */
  predicate IsPostfixStart(k: Key) {
    k == KeyExclam || k == KeyQuestion || k == KeyOpenParen || k == KeyOpenBracket || k == KeyDot
  }

  /** Parses a whole token stream into a file. */
  method Parse(filename: string, src: seq<Token>, validPackageID: string -> bool) returns (r: Result<File>)
    ensures r == G.ParseFile(filename, validPackageID, G.LastLine(src), src)
  {
    var p := new Parser(filename, src, validPackageID);
    r := p.ParseFile();
  }

  /** Parses one expression from the front of a token stream; tokens after
      it are ignored. */
  method ParseExpr(filename: string, src: seq<Token>, validPackageID: string -> bool) returns (r: Result<Expr>)
    ensures match G.ParseExpr(G.LastLine(src), src)
            case Ok(e) => r == Ok(e.0)
            case Err(e) => r == Err(e)
  {
    var p := new Parser(filename, src, validPackageID);
    r := p.ParseExpr();
  }

  class Parser {
    /** The tokens not yet consumed. */
    var src: seq<Token>
    const filename: string
    /** The line of the final token of the whole stream. */
    const lastLine: nat
    /** Whether a packageid string is valid (unescapes and base-38 encodes
        to a non-zero value). */
    const validPackageID: string -> bool

    constructor (filename: string, src: seq<Token>, validPackageID: string -> bool)
      ensures this.src == src && this.filename == filename
      ensures lastLine == G.LastLine(src) && this.validPackageID == validPackageID
    {
      this.src := src;
      this.filename := filename;
      this.validPackageID := validPackageID;
      lastLine := if |src| > 0 then src[|src| - 1].line else 0;
    }

    /** The line of the next token, or the last line at end of stream. */
    function Line(): (r: nat)
      reads this
      ensures src != [] ==> r == src[0].line
      ensures src == [] ==> r == lastLine
    {
      G.LineAt(lastLine, src)
    }

    /** The next token's ID, or ID 0 at end of stream. */
    function Peek1(): (r: Id)
      reads this
      ensures src != [] ==> r == src[0].id
      ensures src == [] ==> r == NoId
    {
      G.Peek(src)
    }

    function Fail<T>(problem: Problem): Result<T>
      reads this
    {
      Err(SyntaxError(problem, Line()))
    }

    // -------------------------------------------------------------------
    // Files and top-level declarations

    method ParseFile() returns (r: Result<File>)
      modifies this`src
      ensures r == G.ParseFile(filename, validPackageID, lastLine, old(src))
      ensures r.Ok? ==> src == []
    {
      var decls: seq<Node> := [];
      while |src| > 0
        invariant G.FileLoop(validPackageID, lastLine, decls, src) == G.FileLoop(validPackageID, lastLine, [], old(src))
        decreases |src|
      {
        var d := ParseTopLevelDecl();
        if d.Err? {
          return Err(d.error);
        }
        decls := decls + [d.value];
      }
      return Ok(File(filename, decls));
    }

    method ParseTopLevelDecl() returns (r: Result<Node>)
      requires |src| > 0
      modifies this`src
      ensures Yields(r, src, G.ParseTopLevelDecl(validPackageID, lastLine, old(src)))
    {
      var line := src[0].line;
      var k := Peek1().key;
      if k == KeyPackageID || k == KeyUse {
        src := src[1..];
        var path := Peek1();
        if !IsStrLiteral(path) {
          return Fail(ExpectedStrLiteral);
        }
        src := src[1..];
        if Peek1().key != KeySemicolon {
          return Fail(Expected(KeySemicolon));
        }
        src := src[1..];
        if k == KeyPackageID {
          if !validPackageID(path.key) {
            return Err(InvalidPackageID(path.key));
          }
          return Ok(Node(line, PackageID(path)));
        }
        return Ok(Node(line, Use(path)));
      } else if k == KeyPub || k == KeyPri {
        var flags: set<Flag> := if k == KeyPub then {Public} else {};
        src := src[1..];
        r := ParseDecl(flags, line);
      } else {
        return Err(SyntaxError(UnrecognizedTopLevelDecl, line));
      }
    }

    /** A declaration after its visibility keyword. */
    method ParseDecl(flags: set<Flag>, line: nat) returns (r: Result<Node>)
      modifies this`src
      ensures Yields(r, src, G.ParseDecl(flags, line, lastLine, old(src)))
    {
      var k := Peek1().key;
      if k == KeyConst {
        src := src[1..];
        r := ParseConst(flags, line);
      } else if k == KeyFunc {
        src := src[1..];
        r := ParseFunc(flags, line);
      } else if k == KeyError || k == KeySuspension {
        var keyword := src[0].id;
        src := src[1..];
        var message := Peek1();
        if !IsStrLiteral(message) {
          return Fail(ExpectedStrLiteral);
        }
        src := src[1..];
        if Peek1().key != KeySemicolon {
          return Fail(Expected(KeySemicolon));
        }
        src := src[1..];
        return Ok(Node(line, Status(flags, keyword, message)));
      } else if k == KeyStruct {
        src := src[1..];
        r := ParseStruct(flags, line);
      } else {
        return Err(SyntaxError(UnrecognizedTopLevelDecl, line));
      }
    }

    method ParseConst(flags: set<Flag>, line: nat) returns (r: Result<Node>)
      modifies this`src
      ensures Yields(r, src, G.ParseConst(flags, line, lastLine, old(src)))
    {
      var id := ParseIdent();
      if id.Err? {
        return Err(id.error);
      }
      var typ := ParseTypeExpr();
      if typ.Err? {
        return Err(typ.error);
      }
      if Peek1().key != KeyEq {
        return Fail(ConstHasNoValue);
      }
      src := src[1..];
      var value;
      if Peek1().key == KeyDollar {
        value := ParseDollarExpr();
      } else {
        value := ParseExpr();
      }
      if value.Err? {
        return Err(value.error);
      }
      if Peek1().key != KeySemicolon {
        return Fail(Expected(KeySemicolon));
      }
      src := src[1..];
      return Ok(Node(line, Const(flags, id.value, typ.value, value.value)));
    }

    method ParseFunc(flags: set<Flag>, line: nat) returns (r: Result<Node>)
      modifies this`src
      ensures Yields(r, src, G.ParseFunc(flags, line, lastLine, old(src)))
    {
      var q := ParseQualifiedIdent();
      if q.Err? {
        return Err(q.error);
      }
      var (id0, id1) := q.value;
      if id0 != NoId && IsBuiltIn(id0) {
        return Fail(BuiltInReceiver);
      }
      if IsBuiltIn(id1) {
        return Fail(BuiltInFuncName);
      }
      var flags' := flags;
      var k := Peek1().key;
      if k == KeyExclam {
        flags' := flags + {Impure};
        src := src[1..];
      } else if k == KeyQuestion {
        flags' := flags + {Impure, Suspendible};
        src := src[1..];
      }
      ghost var s := src;
      var inFields := ParseList(KeyCloseParen, G.FieldElem);
      if inFields.Err? {
        return Err(inFields.error);
      }
      var outFields := ParseList(KeyCloseParen, G.FieldElem);
      if outFields.Err? {
        return Err(outFields.error);
      }
      var asserts := ParseAsserts();
      if asserts.Err? {
        return Err(asserts.error);
      }
      var body := ParseBlock();
      if body.Err? {
        return Err(body.error);
      }
      if Peek1().key != KeySemicolon {
        return Fail(Expected(KeySemicolon));
      }
      src := src[1..];
      var inParams := Node(line, Struct({}, IdIn, inFields.value));
      var outParams := Node(line, Struct({}, IdOut, outFields.value));
      return Ok(Node(line, Func(flags', id0, id1, inParams, outParams, asserts.value, body.value)));
    }

    method ParseStruct(flags: set<Flag>, line: nat) returns (r: Result<Node>)
      modifies this`src
      ensures Yields(r, src, G.ParseStruct(flags, line, lastLine, old(src)))
    {
      var name := ParseIdent();
      if name.Err? {
        return Err(name.error);
      }
      if IsBuiltIn(name.value) {
        return Fail(BuiltInStructName);
      }
      var flags' := flags;
      if Peek1().key == KeyQuestion {
        flags' := flags + {Suspendible};
        src := src[1..];
      }
      var fields := ParseList(KeyCloseParen, G.FieldElem);
      if fields.Err? {
        return Err(fields.error);
      }
      if Peek1().key != KeySemicolon {
        return Fail(Expected(KeySemicolon));
      }
      src := src[1..];
      return Ok(Node(line, Struct(flags', name.value, fields.value)));
    }

    // -------------------------------------------------------------------
    // Identifiers

    method ParseQualifiedIdent() returns (r: Result<(Id, Id)>)
      modifies this`src
      ensures Yields(r, src, G.ParseQualifiedIdent(lastLine, old(src)))
    {
      var x := ParseIdent();
      if x.Err? {
        return Err(x.error);
      }
      if Peek1().key != KeyDot {
        return Ok((NoId, x.value));
      }
      src := src[1..];
      var y := ParseIdent();
      if y.Err? {
        return Err(y.error);
      }
      return Ok((x.value, y.value));
    }

    method ParseIdent() returns (r: Result<Id>)
      modifies this`src
      ensures Yields(r, src, G.ParseIdent(lastLine, old(src)))
    {
      if |src| == 0 {
        return Fail(ExpectedIdent);
      }
      var x := src[0];
      if !IsIdent(x.id) {
        return Fail(ExpectedIdent);
      }
      src := src[1..];
      return Ok(x.id);
    }

    method ParseLabel() returns (r: Result<Id>)
      modifies this`src
      ensures Yields(r, src, G.ParseLabel(lastLine, old(src)))
    {
      if Peek1().key == KeyColon {
        src := src[1..];
        r := ParseIdent();
      } else {
        r := Ok(NoId);
      }
    }

    // -------------------------------------------------------------------
    // Lists and brackets

    method ParseList(stop: Key, elem: G.ElemKind) returns (r: Result<seq<Node>>)
      modifies this`src
      decreases |src|, 7
      ensures Yields(r, src, G.ParseList(stop, elem, lastLine, old(src)))
    {
      if stop == KeyCloseParen {
        if Peek1().key != KeyOpenParen {
          return Fail(Expected(KeyOpenParen));
        }
        src := src[1..];
      }
      var ret: seq<Node> := [];
      while |src| > 0
        invariant |src| <= |old(src)|
        invariant G.ListLoop(stop, elem, ret, lastLine, src) == G.ParseList(stop, elem, lastLine, old(src))
        decreases |src|
      {
        if src[0].id.key == stop {
          if stop == KeyCloseParen {
            src := src[1..];
          }
          return Ok(ret);
        }
        var e := ParseElem(elem);
        if e.Err? {
          return Err(e.error);
        }
        ret := ret + [e.value];
        var x := Peek1().key;
        if x == stop {
          if stop == KeyCloseParen {
            src := src[1..];
          }
          return Ok(ret);
        } else if x == KeyComma {
          src := src[1..];
        } else {
          return Fail(Expected(stop));
        }
      }
      return Fail(Expected(stop));
    }

    /** The element parser a list is given. */
    method ParseElem(elem: G.ElemKind) returns (r: Result<Node>)
      modifies this`src
      decreases |src|, 5
      ensures Yields(r, src, G.ParseElem(elem, lastLine, old(src)))
    {
      match elem
      case FieldElem => r := ParseField();
      case AssertElem => r := ParseAssertNode();
      case ArgElem => r := ParseArg();
      case IterateVarElem => r := ParseVar(true);
      case ExprElem =>
        var e := ParseExpr();
        if e.Err? {
          return Err(e.error);
        }
        return Ok(ExprAsNode(e.value));
    }

    method ParseBracket(sep: Id) returns (r: Result<G.Bracket>)
      requires sep == IdColon || sep == IdDotDot
      modifies this`src
      decreases |src|, 1
      ensures Yields(r, src, G.ParseBracket(sep, lastLine, old(src)))
    {
      if Peek1().key != KeyOpenBracket {
        return Fail(Expected(KeyOpenBracket));
      }
      src := src[1..];
      var lo: Option<Expr> := None;
      if Peek1() != sep {
        var e := ParseExpr();
        if e.Err? {
          return Err(e.error);
        }
        lo := Some(e.value);
      }
      ghost var s1 := src;
      assert G.ParseBracket(sep, lastLine, old(src)) == G.BracketRest(sep, lo, lastLine, s1);
      var x := Peek1().key;
      if x == sep.key {
        src := src[1..];
      } else if x == KeyCloseBracket && sep.key == KeyColon {
        src := src[1..];
        return Ok(G.Bracket(Index, None, lo));
      } else {
        return Fail(Expected(sep.key));
      }
      ghost var s2 := src;
      var hi: Option<Expr> := None;
      if Peek1().key != KeyCloseBracket {
        var e := ParseExpr();
        if e.Err? {
          assert G.OptionalExpr(true, lastLine, s2) == Err(e.error);
          return Err(e.error);
        }
        hi := Some(e.value);
      }
      assert G.OptionalExpr(G.Peek(s2).key != KeyCloseBracket, lastLine, s2) == Ok((hi, src));
      if Peek1().key != KeyCloseBracket {
        return Fail(Expected(KeyCloseBracket));
      }
      src := src[1..];
      return Ok(G.Bracket(Range(sep), lo, hi));
    }

    // -------------------------------------------------------------------
    // Fields and types

    method ParseField() returns (r: Result<Node>)
      modifies this`src
      decreases |src|, 4
      ensures Yields(r, src, G.ParseField(lastLine, old(src)))
    {
      var name := ParseIdent();
      if name.Err? {
        return Err(name.error);
      }
      var typ := ParseTypeExpr();
      if typ.Err? {
        return Err(typ.error);
      }
      var defaultValue: Option<Expr> := None;
      if Peek1().key == KeyEq {
        src := src[1..];
        var d := ParseExpr();
        if d.Err? {
          return Err(d.error);
        }
        defaultValue := Some(d.value);
      }
      return Ok(Node(0, Field(name.value, typ.value, defaultValue)));
    }

    method ParseTypeExpr() returns (r: Result<TypeExpr>)
      modifies this`src
      decreases |src|, 1
      ensures Yields(r, src, G.ParseTypeExpr(lastLine, old(src)))
    {
      if Peek1().key == KeyPtr {
        src := src[1..];
        var rhs := ParseTypeExpr();
        if rhs.Err? {
          return Err(rhs.error);
        }
        return Ok(Pointer(rhs.value));
      }
      if Peek1().key == KeyOpenBracket {
        src := src[1..];
        var size: Option<Expr> := None;
        if Peek1().key != KeyCloseBracket {
          var n := ParseExpr();
          if n.Err? {
            return Err(n.error);
          }
          if Peek1().key != KeyCloseBracket {
            return Fail(Expected(KeyCloseBracket));
          }
          size := Some(n.value);
        }
        src := src[1..];
        var rhs := ParseTypeExpr();
        if rhs.Err? {
          return Err(rhs.error);
        }
        return Ok(Array(size, rhs.value));
      }
      var q := ParseQualifiedIdent();
      if q.Err? {
        return Err(q.error);
      }
      var (pkg, name) := q.value;
      var lo: Option<Expr>, hi: Option<Expr> := None, None;
      if Peek1().key == KeyOpenBracket {
        var b := ParseBracket(IdDotDot);
        if b.Err? {
          return Err(b.error);
        }
        lo, hi := b.value.lo, b.value.hi;
      }
      return Ok(Named(pkg, name, lo, hi));
    }

    // -------------------------------------------------------------------
    // Blocks and assertions

    method ParseBlock() returns (r: Result<seq<Node>>)
      modifies this`src
      decreases |src|, 1
      ensures Yields(r, src, G.ParseBlock(lastLine, old(src)))
    {
      if Peek1().key != KeyOpenCurly {
        return Fail(Expected(KeyOpenCurly));
      }
      src := src[1..];
      var block: seq<Node> := [];
      while |src| > 0
        invariant |src| < |old(src)|
        invariant G.BlockLoop(block, lastLine, src) == G.ParseBlock(lastLine, old(src))
        decreases |src|
      {
        if src[0].id.key == KeyCloseCurly {
          src := src[1..];
          return Ok(block);
        }
        var s := ParseStatement();
        if s.Err? {
          return Err(s.error);
        }
        block := block + [s.value];
        if Peek1().key != KeySemicolon {
          return Fail(Expected(KeySemicolon));
        }
        src := src[1..];
      }
      return Fail(Expected(KeyCloseCurly));
    }

    /** Checks an assertion chain, scanning it once with the stages seen so
        far; an error is reported at the current line. */
    method AssertsSorted(asserts: seq<Node>) returns (err: Option<ParseError>)
      ensures err == G.AssertsSorted(lastLine, src, asserts)
    {
      var seenInv, seenPost := false, false;
      for i := 0 to |asserts|
        invariant G.ChainFault(asserts[i..], seenInv, seenPost) == G.ChainFault(asserts, false, false)
      {
        assert asserts[i..][1..] == asserts[i + 1..];
        var k := AssertKeyword(asserts[i]);
        if k == KeyAssert {
          return Some(SyntaxError(AssertInChain, Line()));
        } else if k == KeyPre {
          if seenPost || seenInv {
            return Some(SyntaxError(ChainOutOfOrder, Line()));
          }
        } else if k == KeyInv {
          if seenPost {
            return Some(SyntaxError(ChainOutOfOrder, Line()));
          }
          seenInv := true;
        } else {
          seenPost := true;
        }
      }
      return None;
    }

    method ParseAssertNode() returns (r: Result<Node>)
      modifies this`src
      decreases |src|, 4
      ensures Yields(r, src, G.ParseAssertNode(lastLine, old(src)))
    {
      var x := Peek1();
      if !(x.key == KeyAssert || x.key == KeyPre || x.key == KeyInv || x.key == KeyPost) {
        return Fail(ExpectedAssertKeyword);
      }
      src := src[1..];
      var condition := ParseExpr();
      if condition.Err? {
        return Err(condition.error);
      }
      var reason, args := NoId, [];
      if Peek1().key == KeyVia {
        src := src[1..];
        reason := Peek1();
        if !IsStrLiteral(reason) {
          return Fail(ExpectedStrLiteral);
        }
        src := src[1..];
        var a := ParseList(KeyCloseParen, G.ArgElem);
        if a.Err? {
          return Err(a.error);
        }
        args := a.value;
      }
      return Ok(Node(0, Assert(x, condition.value, reason, args)));
    }

    method ParseAsserts() returns (r: Result<seq<Node>>)
      modifies this`src
      decreases |src|, 1
      ensures Yields(r, src, G.ParseAsserts(lastLine, old(src)))
    {
      if Peek1().key != KeyComma {
        return Ok([]);
      }
      src := src[1..];
      var asserts := ParseList(KeyOpenCurly, G.AssertElem);
      if asserts.Err? {
        return Err(asserts.error);
      }
      var err := AssertsSorted(asserts.value);
      if err.Some? {
        return Err(err.value);
      }
      return Ok(asserts.value);
    }

    // -------------------------------------------------------------------
    // Statements

    /** Parses a statement and stamps it, and an iterate statement's loop
        variables, with the line the statement starts on. */
    method ParseStatement() returns (r: Result<Node>)
      modifies this`src
      decreases |src|, 9
      ensures Yields(r, src, G.ParseStatement(lastLine, old(src)))
    {
      var line := if |src| > 0 then src[0].line else 0;
      var n := ParseStatement1();
      if n.Err? {
        return n;
      }
      var node := n.value.(line := line);
      if node.kind.Iterate? {
        var vars := StampVars(node.kind.vars, line);
        assert vars == G.StampAll(n.value.kind.vars, line);
        node := node.(kind := node.kind.(vars := vars));
      }
      return Ok(node);
    }

    /** Restamps each node of `vars` with `line`, one at a time. */
    method StampVars(vars: seq<Node>, line: nat) returns (r: seq<Node>)
      ensures |r| == |vars|
      ensures forall i :: 0 <= i < |vars| ==> r[i].line == line && r[i].kind == vars[i].kind
    {
      r := vars;
      for i := 0 to |vars|
        invariant |r| == |vars|
        invariant forall j :: 0 <= j < i ==> r[j].line == line && r[j].kind == vars[j].kind
        invariant forall j :: i <= j < |vars| ==> r[j] == vars[j]
      {
        r := r[i := r[i].(line := line)];
      }
    }

    method ParseStatement1() returns (r: Result<Node>)
      modifies this`src
      decreases |src|, 8
      ensures Yields(r, src, G.ParseStatement1(lastLine, old(src)))
    {
      var x := Peek1();
      if x.key == KeyAssert || x.key == KeyPre || x.key == KeyPost {
        r := ParseAssertNode();
      } else if x.key == KeyBreak || x.key == KeyContinue {
        src := src[1..];
        var labelId := ParseLabel();
        if labelId.Err? {
          return Err(labelId.error);
        }
        return Ok(Node(0, Jump(x, labelId.value)));
      } else if x.key == KeyIf {
        var o := ParseIf();
        if o.Err? {
          return Err(o.error);
        }
        return Ok(Node(0, If(o.value)));
      } else if x.key == KeyIterate {
        src := src[1..];
        r := ParseIterate();
      } else if x.key == KeyReturn {
        src := src[1..];
        var value: Option<Expr> := None;
        if Peek1().key != KeySemicolon {
          var v := ParseExpr();
          if v.Err? {
            return Err(v.error);
          }
          value := Some(v.value);
        }
        return Ok(Node(0, Return(value)));
      } else if x.key == KeyVar {
        src := src[1..];
        r := ParseVar(false);
      } else if x.key == KeyWhile {
        src := src[1..];
        r := ParseWhile();
      } else {
        var lhs := ParseExpr();
        if lhs.Err? {
          return Err(lhs.error);
        }
        var op := Peek1();
        if IsAssign(op) {
          src := src[1..];
          var rhs := ParseExpr();
          if rhs.Err? {
            return Err(rhs.error);
          }
          return Ok(Node(0, Assign(op, lhs.value, rhs.value)));
        }
        return Ok(ExprAsNode(lhs.value));
      }
    }

    /** The rest of an iterate statement, after "iterate". */
    method ParseIterate() returns (r: Result<Node>)
      modifies this`src
      decreases |src|, 1
      ensures Yields(r, src, G.ParseIterate(lastLine, old(src)))
    {
      if Peek1().key != KeyDot {
        return Fail(Expected(KeyDot));
      }
      src := src[1..];
      var unrollId := Peek1();
      if !IsLiteral(unrollId) {
        return Fail(ExpectedLiteralUnroll);
      }
      src := src[1..];
      if !IsUnrollCount(unrollId.key) {
        return Fail(BadUnrollCount);
      }
      var unroll := LeafExpr(unrollId);
      var labelId := ParseLabel();
      if labelId.Err? {
        return Err(labelId.error);
      }
      var vars := ParseList(KeyCloseParen, G.IterateVarElem);
      if vars.Err? {
        return Err(vars.error);
      }
      var asserts := ParseAsserts();
      if asserts.Err? {
        return Err(asserts.error);
      }
      var body := ParseBlock();
      if body.Err? {
        return Err(body.error);
      }
      return Ok(Node(0, Iterate(labelId.value, unroll, vars.value, asserts.value, body.value)));
    }

    /** The rest of a while statement, after "while". */
    method ParseWhile() returns (r: Result<Node>)
      modifies this`src
      decreases |src|, 4
      ensures Yields(r, src, G.ParseWhile(lastLine, old(src)))
    {
      var labelId := ParseLabel();
      if labelId.Err? {
        return Err(labelId.error);
      }
      var condition := ParseExpr();
      if condition.Err? {
        return Err(condition.error);
      }
      var asserts := ParseAsserts();
      if asserts.Err? {
        return Err(asserts.error);
      }
      var body := ParseBlock();
      if body.Err? {
        return Err(body.error);
      }
      return Ok(Node(0, While(labelId.value, condition.value, asserts.value, body.value)));
    }

    method ParseIf() returns (r: Result<IfStmt>)
      modifies this`src
      decreases |src|, 4
      ensures Yields(r, src, G.ParseIf(lastLine, old(src)))
    {
      if Peek1().key != KeyIf {
        return Fail(Expected(KeyIf));
      }
      src := src[1..];
      var condition := ParseExpr();
      if condition.Err? {
        return Err(condition.error);
      }
      var bodyIfTrue := ParseBlock();
      if bodyIfTrue.Err? {
        return Err(bodyIfTrue.error);
      }
      var elseIf: Option<IfStmt>, bodyIfFalse: seq<Node> := None, [];
      if Peek1().key == KeyElse {
        src := src[1..];
        if Peek1().key == KeyIf {
          var e := ParseIf();
          if e.Err? {
            return Err(e.error);
          }
          elseIf := Some(e.value);
        } else {
          var f := ParseBlock();
          if f.Err? {
            return Err(f.error);
          }
          bodyIfFalse := f.value;
        }
      }
      return Ok(IfStmt(condition.value, elseIf, bodyIfTrue.value, bodyIfFalse));
    }

    method ParseArg() returns (r: Result<Node>)
      modifies this`src
      decreases |src|, 4
      ensures Yields(r, src, G.ParseArg(lastLine, old(src)))
    {
      var name := ParseIdent();
      if name.Err? {
        return Err(name.error);
      }
      if Peek1().key != KeyColon {
        return Fail(Expected(KeyColon));
      }
      src := src[1..];
      var value := ParseExpr();
      if value.Err? {
        return Err(value.error);
      }
      return Ok(Node(0, Arg(name.value, value.value)));
    }

    method ParseVar(inIterate: bool) returns (r: Result<Node>)
      modifies this`src
      decreases |src|, 4
      ensures Yields(r, src, G.ParseVar(inIterate, lastLine, old(src)))
    {
      var id := ParseIdent();
      if id.Err? {
        return Err(id.error);
      }
      var typ := ParseTypeExpr();
      if typ.Err? {
        return Err(typ.error);
      }
      var value: Option<Expr> := None;
      var op := NoId;
      if inIterate {
        op := IdColon;
        if Peek1().key != KeyColon {
          return Fail(Expected(KeyColon));
        }
        src := src[1..];
        var v := ParseExpr();
        if v.Err? {
          return Err(v.error);
        }
        value := Some(v.value);
      } else if Peek1().key == KeyEq {
        op := IdEq;
        src := src[1..];
        var v;
        if Peek1().key == KeyTry {
          v := ParseTryExpr();
        } else {
          v := ParseExpr();
        }
        if v.Err? {
          return Err(v.error);
        }
        value := Some(v.value);
      }
      return Ok(Node(0, Var(op, id.value, typ.value, value)));
    }

    // -------------------------------------------------------------------
    // Expressions

    method ParseDollarExpr() returns (r: Result<Expr>)
      modifies this`src
      decreases |src|, 1
      ensures Yields(r, src, G.ParseDollarExpr(lastLine, old(src)))
    {
      if Peek1().key != KeyDollar {
        return Fail(Expected(KeyDollar));
      }
      src := src[1..];
      var args := ParseList(KeyCloseParen, G.ExprElem);
      if args.Err? {
        return Err(args.error);
      }
      return Ok(Expr({}, DollarList, NoId, None, None, None, args.value));
    }

    method ParseTryExpr() returns (r: Result<Expr>)
      modifies this`src
      decreases |src|, 1
      ensures Yields(r, src, G.ParseTryExpr(lastLine, old(src)))
    {
      if Peek1().key != KeyTry {
        return Fail(Expected(KeyTry));
      }
      src := src[1..];
      var call := ParseExpr();
      if call.Err? {
        return Err(call.error);
      }
      if call.value.id0 != Call {
        return Fail(ExpectedCall);
      }
      var c := call.value;
      return Ok(Expr(c.flags, Try, c.id1, c.lhs, c.mhs, c.rhs, c.args));
    }

    method ParseExpr() returns (r: Result<Expr>)
      modifies this`src
      decreases |src|, 3
      ensures Yields(r, src, G.ParseExpr(lastLine, old(src)))
    {
      var lhs := ParseOperand();
      if lhs.Err? {
        return lhs;
      }
      var x := Peek1();
      if !IsBinaryOp(x) {
        return lhs;
      }
      src := src[1..];
      var rhs: Node;
      if x.key == KeyAs {
        var o := ParseTypeExpr();
        if o.Err? {
          return Err(o.error);
        }
        rhs := Node(0, TypeExprNode(o.value));
      } else {
        var o := ParseOperand();
        if o.Err? {
          return Err(o.error);
        }
        rhs := ExprAsNode(o.value);
      }
      if !IsAssociativeOp(x) || x != Peek1() {
        return Ok(Expr({}, Binary(x.key), NoId, Some(lhs.value), None, Some(rhs), []));
      }
      var args := [ExprAsNode(lhs.value), rhs];
      ghost var args0, src0 := args, src;
      while Peek1() == x
        invariant |src| < |old(src)|
        invariant G.AssocLoop(x, args, lastLine, src) == G.AssocLoop(x, args0, lastLine, src0)
        decreases |src|
      {
        src := src[1..];
        var arg := ParseOperand();
        if arg.Err? {
          return Err(arg.error);
        }
        args := args + [ExprAsNode(arg.value)];
      }
      return Ok(Expr({}, Associative(x.key), NoId, None, None, None, args));
    }

    method ParseOperand() returns (r: Result<Expr>)
      modifies this`src
      decreases |src|, 2
      ensures Yields(r, src, G.ParseOperand(lastLine, old(src)))
    {
      var x := Peek1();
      if IsUnaryOp(x) {
        src := src[1..];
        var rhs := ParseOperand();
        if rhs.Err? {
          return Err(rhs.error);
        }
        return Ok(Expr({}, Unary(x.key), NoId, None, None, Some(ExprAsNode(rhs.value)), []));
      } else if IsLiteral(x) {
        src := src[1..];
        return Ok(LeafExpr(x));
      } else if x.key == KeyOpenParen {
        src := src[1..];
        var e := ParseExpr();
        if e.Err? {
          return Err(e.error);
        }
        if Peek1().key != KeyCloseParen {
          return Fail(Expected(KeyCloseParen));
        }
        src := src[1..];
        return Ok(e.value);
      } else if x.key == KeyError || x.key == KeyStatus || x.key == KeySuspension {
        src := src[1..];
        var message := Peek1();
        if !IsStrLiteral(message) {
          return Fail(ExpectedStrLiteral);
        }
        src := src[1..];
        return Ok(Expr({}, StatusLit(x), message, None, None, None, []));
      }

      var id := ParseIdent();
      if id.Err? {
        return Err(id.error);
      }
      var lhs := LeafExpr(id.value);
      ghost var src0 := src;
      while IsPostfixStart(Peek1().key)
        invariant |src| < |old(src)|
        invariant G.PostfixLoop(lhs, lastLine, src) == G.PostfixLoop(LeafExpr(id.value), lastLine, src0)
        decreases |src|
      {
        var k := Peek1().key;
        var flags: set<Flag> := {};
        if k == KeyExclam || k == KeyQuestion {
          flags := {Impure, CallImpure};
          if src[0].Key() == KeyQuestion {
            flags := flags + {Suspendible, CallSuspendible};
          }
          assert flags == {Impure, CallImpure} + if k == KeyQuestion then {Suspendible, CallSuspendible} else {};
          src := src[1..];
        }
        if k == KeyExclam || k == KeyQuestion || k == KeyOpenParen {
          var args := ParseList(KeyCloseParen, G.ArgElem);
          if args.Err? {
            return Err(args.error);
          }
          lhs := Expr(flags, Call, NoId, Some(lhs), None, None, args.value);
        } else if k == KeyOpenBracket {
          var b := ParseBracket(IdColon);
          if b.Err? {
            return Err(b.error);
          }
          lhs := Expr({}, b.value.op, NoId, Some(lhs), b.value.lo, G.OptionNode(b.value.hi), []);
        } else {
          src := src[1..];
          var selector := ParseIdent();
          if selector.Err? {
            return Err(selector.error);
          }
          lhs := Expr({}, Select, selector.value, Some(lhs), None, None, []);
        }
      }
      return Ok(lhs);
    }
  }
}
