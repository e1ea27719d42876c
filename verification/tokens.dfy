/**
 * Tokens as the parser consumes them.
 *
 * A key is the interned text of a token: interning is a bijection between
 * texts and keys, so the text stands for the key and no intern table is
 * needed to print or compare one. An ID is a key together with the
 * classification bits the lexer attached to it (unary operator, binary
 * operator, literal, identifier, ...). The parser only ever asks these
 * questions of an ID; it never computes a classification itself.
 */
module Tokens {

  /** The interned text of a token ("if", ";", "x", "16", "\"abc\""). */
  type Key = string

  /** The classification bits of an ID. FlagBuiltIn marks the reserved names
      (the keys below the first user-interned key). */
  datatype TokenFlag =
    | FlagUnaryOp
    | FlagBinaryOp
    | FlagAssociativeOp
    | FlagLiteral
    | FlagStrLiteral
    | FlagIdent
    | FlagAssign
    | FlagBuiltIn

  /** A token ID: its key and its classification. */
  datatype Id = Id(key: Key, flags: set<TokenFlag>)

  /** A token of the already-tokenised stream: its ID and its source line. */
  datatype Token = Token(id: Id, line: nat) {
    function Key(): Key { id.key }
  }

  /** ID 0: what peek1 returns once the stream is exhausted, and the value
      of every absent ID slot (no receiver, no label, no via reason). */
  const NoId: Id := Id("", {})

  // Keys the parser dispatches on.
  const KeyPackageID: Key := "packageid"
  const KeyUse: Key := "use"
  const KeyPub: Key := "pub"
  const KeyPri: Key := "pri"
  const KeyConst: Key := "const"
  const KeyFunc: Key := "func"
  const KeyStruct: Key := "struct"
  const KeyError: Key := "error"
  const KeyStatus: Key := "status"
  const KeySuspension: Key := "suspension"
  const KeyPtr: Key := "ptr"
  const KeyAssert: Key := "assert"
  const KeyPre: Key := "pre"
  const KeyInv: Key := "inv"
  const KeyPost: Key := "post"
  const KeyVia: Key := "via"
  const KeyBreak: Key := "break"
  const KeyContinue: Key := "continue"
  const KeyIf: Key := "if"
  const KeyElse: Key := "else"
  const KeyIterate: Key := "iterate"
  const KeyReturn: Key := "return"
  const KeyVar: Key := "var"
  const KeyWhile: Key := "while"
  const KeyTry: Key := "try"
  const KeyAs: Key := "as"
  const KeySemicolon: Key := ";"
  const KeyEq: Key := "="
  const KeyDollar: Key := "$"
  const KeyDot: Key := "."
  const KeyDotDot: Key := ".."
  const KeyColon: Key := ":"
  const KeyComma: Key := ","
  const KeyExclam: Key := "!"
  const KeyQuestion: Key := "?"
  const KeyOpenParen: Key := "("
  const KeyCloseParen: Key := ")"
  const KeyOpenBracket: Key := "["
  const KeyCloseBracket: Key := "]"
  const KeyOpenCurly: Key := "{"
  const KeyCloseCurly: Key := "}"

  // IDs the parser stores in the tree or compares whole.
  const IdColon: Id := Id(KeyColon, {})
  const IdDotDot: Id := Id(KeyDotDot, {})
  const IdEq: Id := Id(KeyEq, {FlagAssign})
  const IdIn: Id := Id("in", {FlagIdent, FlagBuiltIn})
  const IdOut: Id := Id("out", {FlagIdent, FlagBuiltIn})

  predicate IsUnaryOp(x: Id) { FlagUnaryOp in x.flags }
  predicate IsBinaryOp(x: Id) { FlagBinaryOp in x.flags }
  predicate IsAssociativeOp(x: Id) { FlagAssociativeOp in x.flags }
  predicate IsLiteral(x: Id) { FlagLiteral in x.flags }
  predicate IsStrLiteral(x: Id) { FlagStrLiteral in x.flags }
  predicate IsIdent(x: Id) { FlagIdent in x.flags }
  predicate IsAssign(x: Id) { FlagAssign in x.flags }
  predicate IsBuiltIn(x: Id) { FlagBuiltIn in x.flags }

  /** The spellings an `iterate` unroll count may have: the powers of two
      from 1 to 256. */
  const UnrollCounts: set<string> := {"1", "2", "4", "8", "16", "32", "64", "128", "256"}

  predicate IsUnrollCount(text: string) { text in UnrollCounts }
}
