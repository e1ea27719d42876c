/**
 * Top-level declarations and whole files: what each kind of declaration
 * checks, which flags it ends up with, and the order declarations come
 * back in.
 */
module Decls {
  import opened Tokens
  import opened Ast
  import opened Errors
  import opened Grammar
  import Lists
  import Chains

  /** The node kinds a file may hold at top level. */
  predicate IsTopLevel(n: Node) {
    n.kind.PackageID? || n.kind.Use? || n.kind.Const? || n.kind.Func? || n.kind.Status? || n.kind.Struct?
  }

  /** A declaration's flags (none for packageid and use). */
  function DeclFlags(n: Node): set<Flag> {
    match n.kind
    case Const(flags, _, _, _) => flags
    case Func(flags, _, _, _, _, _, _) => flags
    case Status(flags, _, _) => flags
    case Struct(flags, _, _) => flags
    case _ => {}
  }

  /** Token lines never go down, as a lexer produces them. */
  predicate LinesSorted(src: seq<Token>) {
    forall i, j :: 0 <= i < j < |src| ==> src[i].line <= src[j].line
  }

  predicate DeclLinesSorted(ds: seq<Node>) {
    forall i, j :: 0 <= i < j < |ds| ==> ds[i].line <= ds[j].line
  }

  // ---------------------------------------------------------------------
  // func

  /** A func whose receiver or name is built in is rejected right after the
      qualified name, the receiver being checked first; an accepted func
      keeps the receiver and name it was declared with. */
  lemma FuncBuiltInRejected(flags: set<Flag>, line: nat, last: nat, src: seq<Token>, receiver: Id, name: Id, s: seq<Token>)
    requires ParseQualifiedIdent(last, src) == Ok(((receiver, name), s))
    ensures receiver != NoId && IsBuiltIn(receiver) ==>
              ParseFunc(flags, line, last, src) == Err(SyntaxError(BuiltInReceiver, LineAt(last, s)))
    ensures !(receiver != NoId && IsBuiltIn(receiver)) && IsBuiltIn(name) ==>
              ParseFunc(flags, line, last, src) == Err(SyntaxError(BuiltInFuncName, LineAt(last, s)))
    ensures var r := ParseFunc(flags, line, last, src);
            r.Ok? ==>
              && r.value.0.kind.Func?
              && r.value.0.kind.receiver == receiver && r.value.0.kind.name == name
              && !IsBuiltIn(name) && IsIdent(name)
              && (receiver == NoId || (!IsBuiltIn(receiver) && IsIdent(receiver)))
  {
  }

  /** "!" after a func's name makes it impure; "?" makes it impure and
      suspendible; nothing else is added to the visibility flags. */
  lemma FuncFlags(flags: set<Flag>, line: nat, last: nat, src: seq<Token>, receiver: Id, name: Id, s: seq<Token>)
    requires ParseQualifiedIdent(last, src) == Ok(((receiver, name), s))
    ensures var r := ParseFunc(flags, line, last, src);
            var k := Peek(s).key;
            r.Ok? ==>
              && flags <= DeclFlags(r.value.0)
              && DeclFlags(r.value.0) - flags <= {Impure, Suspendible}
              && (Impure in DeclFlags(r.value.0) <==> Impure in flags || k == KeyExclam || k == KeyQuestion)
              && (Suspendible in DeclFlags(r.value.0) <==> Suspendible in flags || k == KeyQuestion)
  {
  }

  /** The assertion chain of an accepted func is the one parsed after its
      parameter lists. */
  lemma FuncBodyAsserts(flags: set<Flag>, receiver: Id, name: Id, inParams: Node, outParams: Node,
                        line: nat, last: nat, src: seq<Token>)
    ensures var r := ParseFuncBody(flags, receiver, name, inParams, outParams, line, last, src);
            r.Ok? ==> ParseAsserts(last, src).Ok? && r.value.0.kind.asserts == ParseAsserts(last, src).value.0
  {
    var a := ParseAsserts(last, src);
    if a.Ok? {
      var b := ParseBlock(last, a.value.1);
      if b.Ok? && Peek(b.value.1).key == KeySemicolon {
        assert ParseFuncBody(flags, receiver, name, inParams, outParams, line, last, src) ==
               Ok((Node(line, Func(flags, receiver, name, inParams, outParams, a.value.0, b.value.0)), b.value.1[1..]));
      }
    }
  }

  /** A func's signature: "in" and "out" parameter structs of fields, both
      on the func's own line, then an ordered assertion chain. */
  lemma FuncSignatureShape(flags: set<Flag>, receiver: Id, name: Id, line: nat, last: nat, src: seq<Token>)
    ensures var r := ParseFuncSignature(flags, receiver, name, line, last, src);
            r.Ok? ==>
              && var n := r.value.0;
              && n.line == line
              && n.kind.Func? && n.kind.flags == flags
              && n.kind.receiver == receiver && n.kind.name == name
              && n.kind.inParams.line == line && n.kind.outParams.line == line
              && n.kind.inParams.kind.Struct? && n.kind.inParams.kind.name == IdIn
              && n.kind.outParams.kind.Struct? && n.kind.outParams.kind.name == IdOut
              && n.kind.inParams.kind.flags == {} && n.kind.outParams.kind.flags == {}
              && Lists.AllShaped(FieldElem, n.kind.inParams.kind.fields)
              && Lists.AllShaped(FieldElem, n.kind.outParams.kind.fields)
              && Chains.Ordered(n.kind.asserts)
  {
    var r := ParseFuncSignature(flags, receiver, name, line, last, src);
    if r.Ok? {
      var i := ParseList(KeyCloseParen, FieldElem, last, src).value;
      var o := ParseList(KeyCloseParen, FieldElem, last, i.1).value;
      Lists.ParseListShape(KeyCloseParen, FieldElem, last, src);
      Lists.ParseListShape(KeyCloseParen, FieldElem, last, i.1);
      var inParams := Node(line, Struct({}, IdIn, i.0));
      var outParams := Node(line, Struct({}, IdOut, o.0));
      assert r == ParseFuncBody(flags, receiver, name, inParams, outParams, line, last, o.1);
      FuncBodyAsserts(flags, receiver, name, inParams, outParams, line, last, o.1);
      Chains.ParseAssertsOrdered(last, o.1);
    }
  }

  // ---------------------------------------------------------------------
  // struct

  /** A struct named with a built-in is rejected right after the name; "?"
      after the name makes it suspendible and adds nothing else; the
      fields are field nodes. */
  lemma StructChecked(flags: set<Flag>, line: nat, last: nat, src: seq<Token>, name: Id, s: seq<Token>)
    requires ParseIdent(last, src) == Ok((name, s))
    ensures IsBuiltIn(name) ==>
              ParseStruct(flags, line, last, src) == Err(SyntaxError(BuiltInStructName, LineAt(last, s)))
    ensures var r := ParseStruct(flags, line, last, src);
            r.Ok? ==>
              && r.value.0.line == line
              && r.value.0.kind.Struct? && r.value.0.kind.name == name && !IsBuiltIn(name)
              && flags <= DeclFlags(r.value.0)
              && DeclFlags(r.value.0) - flags <= {Suspendible}
              && (Suspendible in DeclFlags(r.value.0) <==> Suspendible in flags || Peek(s).key == KeyQuestion)
              && Lists.AllShaped(FieldElem, r.value.0.kind.fields)
  {
    var r := ParseStruct(flags, line, last, src);
    if r.Ok? {
      var f := if Peek(s).key == KeyQuestion then s[1..] else s;
      Lists.ParseListShape(KeyCloseParen, FieldElem, last, f);
    }
  }

  // ---------------------------------------------------------------------
  // Declarations

  /** A declaration after "pub" or "pri" is a const, func, status or struct
      on the given line; it keeps the visibility flags and adds at most
      impure and suspendible. */
  lemma DeclShape(flags: set<Flag>, line: nat, last: nat, src: seq<Token>)
    ensures var r := ParseDecl(flags, line, last, src);
            r.Ok? ==>
              && r.value.0.line == line
              && (r.value.0.kind.Const? || r.value.0.kind.Func? || r.value.0.kind.Status? || r.value.0.kind.Struct?)
              && flags <= DeclFlags(r.value.0)
              && DeclFlags(r.value.0) - flags <= {Impure, Suspendible}
  {
    var k := Peek(src).key;
    if k == KeyFunc {
      var q := ParseQualifiedIdent(last, src[1..]);
      if q.Ok? {
        FuncFlags(flags, line, last, src[1..], q.value.0.0, q.value.0.1, q.value.1);
        var r := ParseDecl(flags, line, last, src);
        if r.Ok? {
          var fk := Peek(q.value.1).key;
          var flags' := if fk == KeyExclam then flags + {Impure}
                        else if fk == KeyQuestion then flags + {Impure, Suspendible}
                        else flags;
          var sig := if fk == KeyExclam || fk == KeyQuestion then q.value.1[1..] else q.value.1;
          FuncSignatureShape(flags', q.value.0.0, q.value.0.1, line, last, sig);
        }
      }
    } else if k == KeyStruct {
      var n := ParseIdent(last, src[1..]);
      if n.Ok? {
        StructChecked(flags, line, last, src[1..], n.value.0, n.value.1);
      }
    }
  }

  /** A top-level declaration is stamped with the line of its first token;
      it is public exactly when it starts with "pub". */
  lemma TopLevelDeclShape(validPackageID: string -> bool, last: nat, src: seq<Token>)
    requires |src| > 0
    ensures var r := ParseTopLevelDecl(validPackageID, last, src);
            r.Ok? ==>
              && r.value.0.line == src[0].line
              && IsTopLevel(r.value.0)
              && (Public in DeclFlags(r.value.0) <==> src[0].id.key == KeyPub)
  {
    var k := src[0].id.key;
    if k == KeyPub || k == KeyPri {
      VisibleDeclShape(validPackageID, last, src);
    } else {
      var r := ParseTopLevelDecl(validPackageID, last, src);
      if r.Ok? {
        assert r.value.0.kind.PackageID? || r.value.0.kind.Use?;
      }
    }
  }

  lemma VisibleDeclShape(validPackageID: string -> bool, last: nat, src: seq<Token>)
    requires |src| > 0 && (src[0].id.key == KeyPub || src[0].id.key == KeyPri)
    ensures var r := ParseTopLevelDecl(validPackageID, last, src);
            r.Ok? ==>
              && r.value.0.line == src[0].line
              && IsTopLevel(r.value.0)
              && (Public in DeclFlags(r.value.0) <==> src[0].id.key == KeyPub)
  {
    var flags: set<Flag> := if src[0].id.key == KeyPub then {Public} else {};
    TopLevelVisible(validPackageID, last, src);
    DeclShape(flags, src[0].line, last, src[1..]);
    var r := ParseDecl(flags, src[0].line, last, src[1..]);
    if r.Ok? {
      assert Public in flags <==> src[0].id.key == KeyPub;
      assert Public !in DeclFlags(r.value.0) - flags;
    }
  }

  lemma TopLevelVisible(validPackageID: string -> bool, last: nat, src: seq<Token>)
    requires |src| > 0 && (src[0].id.key == KeyPub || src[0].id.key == KeyPri)
    ensures ParseTopLevelDecl(validPackageID, last, src) ==
            ParseDecl(if src[0].id.key == KeyPub then {Public} else {}, src[0].line, last, src[1..])
  {
  }

  /** A packageid declaration names a string literal the package-ID check
      accepts; one it refuses is reported, with no line, as an invalid
      package ID carrying the literal as written. */
  lemma PackageIDChecked(validPackageID: string -> bool, last: nat, src: seq<Token>)
    requires |src| > 0 && src[0].id.key == KeyPackageID
    ensures var r := ParseTopLevelDecl(validPackageID, last, src);
            && (r.Ok? ==>
                  && r.value.0.kind.PackageID?
                  && IsStrLiteral(r.value.0.kind.path)
                  && validPackageID(r.value.0.kind.path.key))
            && (|src| >= 3 && IsStrLiteral(src[1].id) && src[2].id.key == KeySemicolon ==>
                  (r.Ok? <==> validPackageID(src[1].id.key))
                  && (r.Err? ==> r.error == InvalidPackageID(src[1].id.key)))
  {
  }

  /** A file must start with packageid, use, pub or pri. */
  lemma UnrecognizedStart(filename: string, validPackageID: string -> bool, last: nat, src: seq<Token>)
    requires |src| > 0
    requires var k := src[0].id.key; k != KeyPackageID && k != KeyUse && k != KeyPub && k != KeyPri
    ensures ParseFile(filename, validPackageID, last, src) == Err(SyntaxError(UnrecognizedTopLevelDecl, src[0].line))
  {
  }

  /** Anywhere in a file, a declaration must start with packageid, use,
      pub or pri, and is rejected at the line of that first token. */
  lemma UnrecognizedTopLevel(validPackageID: string -> bool, last: nat, src: seq<Token>)
    requires |src| > 0
    requires var k := src[0].id.key; k != KeyPackageID && k != KeyUse && k != KeyPub && k != KeyPri
    ensures ParseTopLevelDecl(validPackageID, last, src) == Err(SyntaxError(UnrecognizedTopLevelDecl, src[0].line))
  {
  }

  /** "pub" or "pri" must be followed by const, func, error, suspension or
      struct; otherwise the declaration is rejected at the line of the
      visibility keyword, not at the line of the token after it. */
  lemma VisibilityWithoutDecl(validPackageID: string -> bool, last: nat, src: seq<Token>)
    requires |src| > 0 && (src[0].id.key == KeyPub || src[0].id.key == KeyPri)
    requires var k := Peek(src[1..]).key;
             k != KeyConst && k != KeyFunc && k != KeyError && k != KeySuspension && k != KeyStruct
    ensures ParseTopLevelDecl(validPackageID, last, src) == Err(SyntaxError(UnrecognizedTopLevelDecl, src[0].line))
  {
  }

  // ---------------------------------------------------------------------
  // Files

  /** The file loop keeps what it has and adds declarations, at least one
      per call on a non-empty stream and at most one per token. */
  lemma {:induction false} FileLoopGrows(validPackageID: string -> bool, last: nat, decls: seq<Node>, src: seq<Token>)
    ensures var r := FileLoop(validPackageID, last, decls, src);
            r.Ok? ==>
              && |decls| <= |r.value| <= |decls| + |src|
              && r.value[..|decls|] == decls
              && (|src| > 0 ==> |decls| < |r.value|)
    decreases |src|
  {
    if |src| > 0 {
      var d := ParseTopLevelDecl(validPackageID, last, src);
      if d.Ok? {
        var decls' := decls + [d.value.0];
        assert FileLoop(validPackageID, last, decls, src) == FileLoop(validPackageID, last, decls', d.value.1);
        FileLoopGrows(validPackageID, last, decls', d.value.1);
        var r := FileLoop(validPackageID, last, decls', d.value.1);
        if r.Ok? {
          assert r.value[..|decls|] == r.value[..|decls'|][..|decls|];
        }
      }
    }
  }

  /** Everything the file loop adds is a top-level declaration. */
  lemma {:induction false} FileLoopTopLevel(validPackageID: string -> bool, last: nat, decls: seq<Node>, src: seq<Token>)
    requires forall i :: 0 <= i < |decls| ==> IsTopLevel(decls[i])
    ensures var r := FileLoop(validPackageID, last, decls, src);
            r.Ok? ==> forall i :: 0 <= i < |r.value| ==> IsTopLevel(r.value[i])
    decreases |src|
  {
    if |src| > 0 {
      var d := ParseTopLevelDecl(validPackageID, last, src);
      if d.Ok? {
        TopLevelDeclShape(validPackageID, last, src);
        var decls' := decls + [d.value.0];
        assert FileLoop(validPackageID, last, decls, src) == FileLoop(validPackageID, last, decls', d.value.1);
        FileLoopTopLevel(validPackageID, last, decls', d.value.1);
      }
    }
  }

  /** What is left of a stream with lines in order is in order, and starts
      no earlier than the stream did. */
  lemma SuffixLinesSorted(src: seq<Token>, rest: seq<Token>)
    requires LinesSorted(src) && Suffix(rest, src)
    ensures LinesSorted(rest)
    ensures |rest| > 0 ==> src[0].line <= rest[0].line
  {
    var d := |src| - |rest|;
    assert forall i :: 0 <= i < |rest| ==> rest[i] == src[d + i];
  }

  /** With token lines in order, declarations come back in source order. */
  lemma {:induction false} FileLoopSorted(validPackageID: string -> bool, last: nat, decls: seq<Node>, src: seq<Token>)
    requires LinesSorted(src) && DeclLinesSorted(decls)
    requires |src| > 0 ==> forall i :: 0 <= i < |decls| ==> decls[i].line <= src[0].line
    ensures var r := FileLoop(validPackageID, last, decls, src);
            r.Ok? ==> DeclLinesSorted(r.value)
    decreases |src|
  {
    if |src| > 0 {
      var d := ParseTopLevelDecl(validPackageID, last, src);
      if d.Ok? {
        var (n, rest) := d.value;
        TopLevelDeclShape(validPackageID, last, src);
        SuffixLinesSorted(src, rest);
        var decls' := decls + [n];
        assert FileLoop(validPackageID, last, decls, src) == FileLoop(validPackageID, last, decls', rest);
        assert DeclLinesSorted(decls');
        FileLoopSorted(validPackageID, last, decls', rest);
      }
    }
  }

  /** A parsed file keeps its name and holds only top-level declarations,
      one for each declaration in the stream, in source order; an empty
      stream is an empty file. */
  lemma ParseFileShape(filename: string, validPackageID: string -> bool, last: nat, src: seq<Token>)
    ensures var r := ParseFile(filename, validPackageID, last, src);
            r.Ok? ==>
              && r.value.filename == filename
              && (r.value.decls == [] <==> src == [])
              && |r.value.decls| <= |src|
              && (forall i :: 0 <= i < |r.value.decls| ==> IsTopLevel(r.value.decls[i]))
              && (src != [] ==> r.value.decls[0].line == src[0].line)
              && (LinesSorted(src) ==> DeclLinesSorted(r.value.decls))
  {
    var r := ParseFile(filename, validPackageID, last, src);
    if r.Ok? {
      FileLoopGrows(validPackageID, last, [], src);
      FileLoopTopLevel(validPackageID, last, [], src);
      if LinesSorted(src) {
        FileLoopSorted(validPackageID, last, [], src);
      }
      if src != [] {
        var d := ParseTopLevelDecl(validPackageID, last, src);
        TopLevelDeclShape(validPackageID, last, src);
        var decls' := [] + [d.value.0];
        FileLoopGrows(validPackageID, last, decls', d.value.1);
        assert r.value.decls[..|decls'|] == decls';
        assert r.value.decls[0] == decls'[0];
      }
    }
  }
}
