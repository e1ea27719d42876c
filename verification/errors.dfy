/**
 * Parse errors. The first error aborts the parse; no partial tree is
 * returned. Message texts are not modelled, only what went wrong and where.
 */
module Errors {
  import opened Tokens

  datatype Problem =
    | Expected(token: Key)     // a specific token (";", "(", "]", "{", ...) was required
    | ExpectedIdent
    | ExpectedStrLiteral
    | ExpectedAssertKeyword    // an assertion chain element must start with assert, pre, inv or post
    | ExpectedLiteralUnroll    // iterate.N with N not a literal
    | BadUnrollCount           // iterate.N with N not a power of two in [1..256]
    | ExpectedCall             // try not followed by a call
    | ConstHasNoValue
    | BuiltInReceiver
    | BuiltInFuncName
    | BuiltInStructName
    | UnrecognizedTopLevelDecl
    | AssertInChain            // a chain may hold only pre, inv and post
    | ChainOutOfOrder          // a chain must run pre* inv* post*

  datatype ParseError =
    | SyntaxError(problem: Problem, line: nat)
    | InvalidPackageID(text: string)

  datatype Result<T> = Ok(value: T) | Err(error: ParseError) {
    predicate IsFailure() { Err? }

    function PropagateFailure<U>(): Result<U>
      requires Err?
    {
      Err(error)
    }

    function Extract(): T
      requires Ok?
    {
      value
    }
  }
}
