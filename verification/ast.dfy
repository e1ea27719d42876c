/**
 * The abstract syntax tree the parser builds: a closed tagged variant per
 * node kind, immutable, each child owned by exactly one parent.
 */
module Ast {
  import opened Tokens

  datatype Option<T> = None | Some(value: T)

  /** Node flags set by the parser. */
  datatype Flag = Public | Impure | Suspendible | CallImpure | CallSuspendible

  /** The operator slot (ID0) of an expression. */
  datatype Op =
    | Leaf                   // no operator: a literal or identifier held in ID1
    | Unary(key: Key)        // the unary form of the operator token
    | Binary(key: Key)       // the binary form of the operator token
    | Associative(key: Key)  // the n-ary associative form of the operator token
    | Call                   // "(": call of LHS with Args
    | Try                    // "try": a call whose failure propagates
    | Index                  // "[": LHS indexed by RHS
    | Range(sep: Id)         // ":": LHS sliced from MHS to RHS
    | Select                 // ".": field ID1 of LHS
    | StatusLit(keyword: Id) // error, status or suspension literal; message in ID1
    | DollarList             // "$": the literal list Args

  /** An expression: flags, operator, ID, three child slots and an argument
      list, as every expression of the source is built. */
  datatype Expr = Expr(
    flags: set<Flag>,
    id0: Op,
    id1: Id,
    lhs: Option<Expr>,
    mhs: Option<Expr>,
    rhs: Option<Node>,
    args: seq<Node>)

  /** A type expression. */
  datatype TypeExpr =
    | Named(pkg: Id, name: Id, lo: Option<Expr>, hi: Option<Expr>)  // pkg.name with an optional [lo..hi] refinement
    | Pointer(elem: TypeExpr)                                       // ptr T
    | Array(size: Option<Expr>, elem: TypeExpr)                     // [N] T, or [] T when size is None

  /** Every node carries the source line it was stamped with (0 if never). */
  datatype Node = Node(line: nat, kind: Kind)

  datatype Kind =
    | PackageID(path: Id)
    | Use(path: Id)
    | Const(flags: set<Flag>, name: Id, typ: TypeExpr, value: Expr)
    | Func(flags: set<Flag>, receiver: Id, name: Id, inParams: Node, outParams: Node,
           asserts: seq<Node>, body: seq<Node>)
    | Status(flags: set<Flag>, keyword: Id, message: Id)
    | Struct(flags: set<Flag>, name: Id, fields: seq<Node>)
    | Field(name: Id, typ: TypeExpr, defaultValue: Option<Expr>)
    | TypeExprNode(typeExpr: TypeExpr)
    | ExprNode(expr: Expr)
    | Assert(keyword: Id, condition: Expr, reason: Id, args: seq<Node>)
    | Arg(name: Id, value: Expr)
    | Var(op: Id, name: Id, typ: TypeExpr, init: Option<Expr>)
    | Assign(op: Id, lhs: Expr, rhs: Expr)
    | Jump(keyword: Id, labelId: Id)
    | If(ifStmt: IfStmt)
    | Iterate(labelId: Id, unroll: Expr, vars: seq<Node>, asserts: seq<Node>, body: seq<Node>)
    | While(labelId: Id, condition: Expr, asserts: seq<Node>, body: seq<Node>)
    | Return(result: Option<Expr>)

  /** An if statement; an else-if chain links through elseIf. */
  datatype IfStmt = IfStmt(condition: Expr, elseIf: Option<IfStmt>, bodyIfTrue: seq<Node>, bodyIfFalse: seq<Node>)

  /** A parsed source file: its top-level declarations in source order. */
  datatype File = File(filename: string, decls: seq<Node>)

  /** An expression with no operator and no children: a literal or name. */
  function LeafExpr(x: Id): Expr {
    Expr({}, Leaf, x, None, None, None, [])
  }

  function ExprAsNode(e: Expr): Node {
    Node(0, ExprNode(e))
  }

  /** The keyword of an assertion node ("" for any other node). */
  function AssertKeyword(n: Node): Key {
    if n.kind.Assert? then n.kind.keyword.key else ""
  }
}
