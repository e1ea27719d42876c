# Puffs parser, modelled in Dafny

This project models the hand-written recursive-descent parser of the Puffs
decoder language (`lang/parse/parse.go`). The parser takes a finite stream
of already-lexed tokens and builds the syntax tree of one source file:
- top-level declarations: `packageid`, `use`, and `pub`/`pri` const, func, status and struct;
- their fields, types and assertion chains;
- statement blocks;
- expressions, with one deliberately flat layer of binary operators.

The model has two layers.

- **`Grammar`** (grammar.dfy) is the specification. It has one pure function
  per parser method, and one per loop written as a recursive function with an
  accumulator. Each function takes the remaining tokens and returns either the
  parsed value together with the tokens left after it, or the first error.
  - Every function that succeeds leaves a suffix of its input.
  - Every function that must consume something leaves a strict suffix.
  - This is the progress measure that makes the mutual recursion terminate.
- **`Parsing`** (parsing.dfy) is the parser as the source writes it: a
  `Parser` object whose `src` field the methods shrink in place, keeping the
  source's loops.
  - The loops are: the file loop, the list loop, the block loop, the
    associative-operand loop, the postfix loop, and the scan of an assertion
    chain.
  - Each method is proved against its `Grammar` function. On success it
    returns the specified value and leaves exactly the specified tokens in
    `src`. On failure it returns the specified error.

Properties of the specification are proved in the other modules:
- `Lists`: the list and bracket primitives, including the accepted bracket forms;
- `Chains`: assertion-chain ordering;
- `Statements`: labels, blocks, if statements, the `iterate` unroll count and line stamping;
- `Types`: the shape of type expressions;
- `Expressions`: the shape of expressions and operands;
- `Decls`: declarations, flags, built-in guards and whole files.

Tokens are `Token(id, line)`. An `Id` is a key (its interned text) together
with the classification flags of the token package (identifier, literal,
string literal, unary, binary or associative operator, assignment,
built-in). ID 0, the absent identifier, is `NoId`. Errors are
`SyntaxError(problem, line)`. Most are reported at the line of the next
token, or at the last line of the stream once it is exhausted. There are
two exceptions. An unrecognized top-level declaration is reported at the
line of the declaration's first token, which is the "pub" or "pri" line
when a visibility keyword is followed by no known declaration
(Decls.VisibilityWithoutDecl). `InvalidPackageID(text)` carries no
position.

Binary operators have no precedence. An expression is one operand, then
either one binary operator and a second operand, or a run of one
associative operator. So an associative node has at least three operands,
because the code starts a run only when the operator repeats
(Expressions.ParseExprShape). "a + b * c" stops after "b"
(Expressions.NoPrecedence), and as a statement in a block it is rejected
where the ";" was expected (Expressions.MixedOperatorsRejected).

## Model

| member | source | states |
|---|---|---|
| Parsing.Parse | lang/parse/parse.go:28-38 | parsing a stream yields exactly the file the specification gives, with errors at end of stream reported at the line of the final token |
| Parsing.ParseExpr | lang/parse/parse.go:40-50 | parsing one expression yields the specified expression and ignores any tokens after it |
| Parsing.Parser.constructor | lang/parse/parse.go:29-37 | a new parser holds the whole stream, and its last line is the line of the final token (0 for an empty stream) |
| Parsing.Parser.Line | lang/parse/parse.go:59-64 | the line of the next token, or the stream's last line once it is exhausted |
| Parsing.Parser.Peek1 | lang/parse/parse.go:66-71 | the next token's ID, or ID 0 once the stream is exhausted |
| Parsing.Parser.ParseFile | lang/parse/parse.go:73-83 | the declaration loop yields the specified file; on success the whole stream has been consumed |
| Parsing.Parser.ParseTopLevelDecl | lang/parse/parse.go:85-120 | packageid/use need a string literal and ";"; a refused package ID is an error with no line; pub/pri hand over to the declaration parser with Public set only for pub; anything else is an unrecognized declaration at the declaration's line |
| Parsing.Parser.ParseDecl | lang/parse/parse.go:121-253 | after pub/pri: const, func, error/suspension status with a string-literal message and ";", or struct; anything else is rejected at the declaration's line |
| Parsing.Parser.ParseConst | lang/parse/parse.go:122-156 | name, type, "=" (else "const has no value"), a $-list or an expression, ";" |
| Parsing.Parser.ParseFunc | lang/parse/parse.go:157-210 | qualified name with built-in receiver and name rejected, "!"/"?" purity marks, in and out field lists, optional assertion chain, body, ";" |
| Parsing.Parser.ParseStruct | lang/parse/parse.go:227-251 | name (built-in rejected), optional "?", field list, ";" |
| Parsing.Parser.ParseQualifiedIdent | lang/parse/parse.go:257-273 | "pkg.name" or "name", with ID 0 for the absent package |
| Parsing.Parser.ParseIdent | lang/parse/parse.go:275-286 | consumes exactly one identifier, or fails at it |
| Parsing.Parser.ParseList | lang/parse/parse.go:288-326 | the list loop yields the specified elements and rest |
| Parsing.Parser.ParseElem | lang/parse/parse.go:810-816 | runs the element parser a list was given (field, assertion, argument, iterate variable, expression node) |
| Parsing.Parser.ParseBracket | lang/parse/parse.go:401-447 | the bracket forms with optional bounds, and "[x]" as an index |
| Parsing.Parser.ParseField | lang/parse/parse.go:328-346 | "name type [= default]" |
| Parsing.Parser.ParseTypeExpr | lang/parse/parse.go:348-395 | ptr types, array types with optional length, and named types with an optional ".." refinement |
| Parsing.Parser.ParseBlock | lang/parse/parse.go:449-476 | the block loop: "{", statements each followed by ";", "}" |
| Parsing.Parser.AssertsSorted | lang/parse/parse.go:478-504 | the scan with the seen-inv/seen-post flags reports exactly the fault the specification's chain scan finds |
| Parsing.Parser.ParseAssertNode | lang/parse/parse.go:506-531 | assert/pre/inv/post, a condition, and an optional "via" reason with arguments |
| Parsing.Parser.ParseAsserts | lang/parse/parse.go:668-681 | an optional ", chain" up to "{", rejected unless ordered |
| Parsing.Parser.ParseStatement | lang/parse/parse.go:533-548 | a statement is stamped with the line it starts on, and so are the loop variables of an iterate statement |
| Parsing.Parser.StampVars | lang/parse/parse.go:540-546 | the restamping loop keeps every variable and sets only its line |
| Parsing.Parser.ParseLabel | lang/parse/parse.go:550-556 | ":label" or no label (ID 0), consuming nothing in the latter case |
| Parsing.Parser.ParseStatement1 | lang/parse/parse.go:558-666 | dispatch on the first token; otherwise an expression, optionally assigned to |
| Parsing.Parser.ParseIterate | lang/parse/parse.go:575-614 | ".", a literal whitelisted unroll count, label, variables, assertions, body |
| Parsing.Parser.ParseWhile | lang/parse/parse.go:630-649 | label, condition, assertions, body |
| Parsing.Parser.ParseIf | lang/parse/parse.go:683-713 | condition, then-block, and an optional else holding an if or a block |
| Parsing.Parser.ParseArg | lang/parse/parse.go:715-730 | "name: expr" |
| Parsing.Parser.ParseVar | lang/parse/parse.go:736-777 | "name type", with ": value" required in an iterate, or an optional "= [try] value" |
| Parsing.Parser.ParseDollarExpr | lang/parse/parse.go:779-790 | "$(e, ...)" as a list expression |
| Parsing.Parser.ParseTryExpr | lang/parse/parse.go:792-808 | "try" followed by an expression |
| Parsing.Parser.ParseExpr | lang/parse/parse.go:818-864 | one operand, then one binary operator, or a loop over a run of the same associative operator |
| Parsing.Parser.ParseOperand | lang/parse/parse.go:866-955 | unary operators, literals, parentheses, status literals, and an identifier followed by the postfix loop |
| Grammar.ParseIdent | lang/parse/parse.go:275-286 | succeeds exactly when the next token is an identifier; then it yields that identifier and consumes exactly that one token |
| Grammar.ParseQualifiedIdent | lang/parse/parse.go:257-273 | on success both parts are identifiers (the package part may be ID 0), and at least one token is consumed |
| Grammar.ParseLabel | lang/parse/parse.go:550-556 | leaves a suffix of its input |
| Grammar.ParseList | lang/parse/parse.go:288-326 | leaves a suffix; with ")" as the stop it consumes at least the "(" |
| Grammar.ListLoop | lang/parse/parse.go:298-324 | the list loop leaves a suffix of its input |
| Grammar.ParseElem | lang/parse/parse.go:810-816 | every element parser consumes at least one token |
| Grammar.ParseBracket | lang/parse/parse.go:401-447 | consumes at least one token (Lists.BracketDelimited shows it is delimited by "[" and "]") |
| Grammar.ParseField | lang/parse/parse.go:328-346 | consumes at least one token |
| Grammar.ParseTypeExpr | lang/parse/parse.go:348-395 | consumes at least one token |
| Grammar.ParseBlock | lang/parse/parse.go:449-476 | consumes at least one token (Statements.BlockShape shows both braces are consumed) |
| Grammar.BlockLoop | lang/parse/parse.go:457-474 | the statement loop of a block consumes at least one token (Statements.BlockLoopEnds shows the last one is the "}") |
| Grammar.ChainFault | lang/parse/parse.go:478-504 | no contract of its own; Chains.ChainFaultNone states which chains it faults and Chains.ChainFaultKinds which faults it reports |
| Grammar.AssertsSorted | lang/parse/parse.go:478-504 | a chain is rejected exactly when the scan finds a fault, with that fault, at the line of the token after the chain; Chains.AssertsSortedIffOrdered states which chains pass |
| Grammar.Stamp | lang/parse/parse.go:533-548 | a stamped statement carries the given line, keeps its kind, and for an iterate has each loop variable restamped with that line and nothing else changed |
| Grammar.StampAll | lang/parse/parse.go:540-546 | restamping keeps the number of variables and each variable, changing only its line |
| Grammar.ParseAssertNode | lang/parse/parse.go:506-531 | consumes at least one token |
| Grammar.ParseAsserts | lang/parse/parse.go:668-681 | leaves a suffix of its input |
| Grammar.ParseStatement | lang/parse/parse.go:533-548 | consumes at least one token |
| Grammar.ParseStatement1 | lang/parse/parse.go:558-666 | consumes at least one token |
| Grammar.ParseIterate | lang/parse/parse.go:575-614 | on success the count token is a literal on the whitelist, and the unroll expression is that literal as a leaf |
| Grammar.ParseWhile | lang/parse/parse.go:630-649 | consumes at least one token |
| Grammar.ParseIf | lang/parse/parse.go:683-713 | consumes at least one token |
| Grammar.ParseArg | lang/parse/parse.go:715-730 | consumes at least one token |
| Grammar.ParseVar | lang/parse/parse.go:736-777 | consumes at least one token |
| Grammar.ParseDollarExpr | lang/parse/parse.go:779-790 | consumes at least one token |
| Grammar.ParseTryExpr | lang/parse/parse.go:792-808 | consumes at least one token |
| Grammar.ParseExpr | lang/parse/parse.go:818-864 | consumes at least one token |
| Grammar.AssocLoop | lang/parse/parse.go:849-856 | leaves a suffix of its input |
| Grammar.ParseOperand | lang/parse/parse.go:866-917 | consumes at least one token |
| Grammar.PostfixLoop | lang/parse/parse.go:918-954 | leaves a suffix of its input; what each step builds is stated by Expressions.MarkedCall, PlainCall, IndexStep and SelectStep, and where the loop stops by Expressions.PostfixLoopStops |
| Grammar.FileLoop | lang/parse/parse.go:73-83 | no contract of its own; Decls.FileLoopGrows, Decls.FileLoopTopLevel and Decls.FileLoopSorted state what the declaration loop yields |
| Grammar.ParseFile | lang/parse/parse.go:73-83 | no contract of its own; Decls.ParseFileShape states what a parsed file holds |
| Grammar.ParseTopLevelDecl | lang/parse/parse.go:85-120 | consumes at least one token |
| Grammar.ParseDecl | lang/parse/parse.go:121-253 | consumes at least one token |
| Grammar.ParseConst | lang/parse/parse.go:122-156 | consumes at least one token |
| Grammar.ParseFunc | lang/parse/parse.go:157-210 | consumes at least one token |
| Grammar.ParseFuncSignature | lang/parse/parse.go:179-210 | the func node keeps the flags, receiver and name it was given, and sits on the declaration's line |
| Grammar.ParseStruct | lang/parse/parse.go:227-251 | consumes at least one token |
| Lists.ElemShaped | lang/parse/parse.go:288-326 | each element parser yields its own node kind (a field, an assertion with one of the four keywords, an argument, an iterate variable with ":" and a value, an expression node) |
| Lists.ListLoopPrefix | lang/parse/parse.go:298-324 | the list loop only appends: what it has collected stays in front, in order |
| Lists.ListLoopShaped | lang/parse/parse.go:298-324 | every element the loop adds comes from the element parser |
| Lists.ListLoopEnds | lang/parse/parse.go:298-324 | with ")" the last token consumed is the ")"; with any other stop, the stop token is the next token left |
| Lists.ParseListShape | lang/parse/parse.go:288-326 | with ")" the "(" is required and the ")" consumed; with another stop, the stop is left; the elements are all of the element parser's kind |
| Lists.NoStopNoList | lang/parse/parse.go:288-326 | a stream without the stop token never yields a list |
| Lists.UnterminatedList | lang/parse/parse.go:298-325 | running out of tokens inside a list is an error at the last line |
| Lists.TrailingComma | lang/parse/parse.go:312-321 | "e, stop" is accepted as the one-element list [e] |
| Lists.ListLoopEmpty | lang/parse/parse.go:298-311 | a list is empty exactly when the stop token comes first |
| Lists.ListLoopFirst | lang/parse/parse.go:298-324 | a non-empty list starts with what the element parser yields at its first token |
| Lists.BracketShape | lang/parse/parse.go:401-447 | "[x]" is an index with the index in the high slot, and only with ":"; every other success is a range tagged with the separator |
| Lists.IndexAccepted | lang/parse/parse.go:401-421 | with ":" as the separator, "[x]" is accepted as an index of x, consuming the "]" |
| Lists.RangeAccepted | lang/parse/parse.go:401-447 | "[lo sep hi]" is accepted as the range from lo to hi, with either separator |
| Lists.BracketDelimited | lang/parse/parse.go:401-447 | a bracket starts at "[" and ends with a consumed "]" |
| Lists.DotDotNeedsSeparator | lang/parse/parse.go:415-446 | with "..", a "]" right after the low bound is an error |
| Lists.EmptyRange | lang/parse/parse.go:401-447 | "[:]" and "[..]" are ranges with both bounds absent |
| Chains.ChainFaultNone | lang/parse/parse.go:478-504 | the scan finds no fault exactly when the chain has no plain assert, its stages never go down, and it stays at or above the stages already seen |
| Chains.ChainFaultKinds | lang/parse/parse.go:478-504 | the scan reports only "assert in chain" or "out of order" |
| Chains.AssertsSortedIffOrdered | lang/parse/parse.go:478-504 | a chain is accepted if and only if it has no plain assert and runs pre* inv* post* |
| Chains.LaterLowerStageRejected | lang/parse/parse.go:485-500 | a pre after an inv or post, or an inv after a post, makes the chain fail |
| Chains.PlainAssertRejected | lang/parse/parse.go:482-484 | a plain assert anywhere in a chain makes it fail |
| Chains.ParseAssertsOrdered | lang/parse/parse.go:668-681 | an accepted chain is ordered and holds assertion nodes only |
| Statements.UnrollCountsArePowersOfTwo | lang/parse/parse.go:589-594 | the unroll-count whitelist is exactly the decimal spellings of 2^0 to 2^8 |
| Statements.IterateNeedsLiteral | lang/parse/parse.go:582-587 | a count that is not a literal is rejected at that token |
| Statements.IterateCountWhitelist | lang/parse/parse.go:588-594 | a literal count off the whitelist is rejected before the label and variables are looked at |
| Statements.IterateBodyVars | lang/parse/parse.go:601-604 | the loop variables are "name type : value" declarations |
| Statements.IterateAccepted | lang/parse/parse.go:575-614 | an accepted iterate has a whitelisted literal count, kept as a leaf, and well-formed loop variables |
| Statements.ExprStatement | lang/parse/parse.go:651-665 | a statement with no leading statement keyword and no assignment operator after its expression is that expression, kept as a node |
| Statements.LabelShape | lang/parse/parse.go:550-556 | no ":" means no label and nothing consumed; after ":" the label is the identifier that must follow |
| Statements.BlockLoopPrefix | lang/parse/parse.go:457-474 | the statement loop only appends, keeping earlier statements in order |
| Statements.BlockLoopEnds | lang/parse/parse.go:457-474 | the statement loop ends having consumed a "}" |
| Statements.BlockStep | lang/parse/parse.go:457-475 | each statement must be followed by ";", and an error is reported at whatever stands there instead; an exhausted stream is a missing "}" at the last line |
| Statements.BlockShape | lang/parse/parse.go:449-476 | a block starts at "{", ends with a consumed "}", and is empty exactly when the "}" directly follows the "{" |
| Statements.IfShape | lang/parse/parse.go:683-713 | condition and then-block; "else if" puts the nested if in elseIf with an empty false branch; "else {...}" makes that block the false branch; no else leaves both empty |
| Statements.IfElseExclusive | lang/parse/parse.go:698-711 | an if statement never holds both a nested if and a false branch |
| Statements.StatementStamped | lang/parse/parse.go:533-548 | a statement carries the line it starts on, and so does each iterate variable; nothing else changes |
| Expressions.AssocLoopStops | lang/parse/parse.go:849-856 | a run of an operator is consumed to its end: the next token is not that operator |
| Expressions.AssocLoopPrefix | lang/parse/parse.go:849-856 | the run only appends operands, in source order |
| Expressions.AssocLoopGrows | lang/parse/parse.go:849-856 | a run entered on its operator takes at least one more operand |
| Expressions.ParseExprOperandOnly | lang/parse/parse.go:818-822 | without a binary operator after it, the operand is the whole expression |
| Expressions.RunShape | lang/parse/parse.go:846-856 | a run entered after two operands keeps them in front, adds at least one more, and stops where the operator no longer repeats |
| Expressions.ParseExprShape | lang/parse/parse.go:818-864 | unless the operator is associative and repeats, one binary node (lhs, rhs) that ends exactly where its right operand ends, whatever follows (no precedence); otherwise one associative node over at least three operands, starting with the left and right operands, with the rest of the run taken by the run loop; the right side of "as" is a type; a run is consumed to its end |
| Expressions.TryWrapsCall | lang/parse/parse.go:792-808 | try succeeds exactly on a call, which it keeps with only its operator changed to try; anything else is "expected call" where the expression ended |
| Expressions.IdentOperand | lang/parse/parse.go:866-917 | a plain identifier not followed by a postfix operator is an operand by itself |
| Expressions.NoPrecedence | lang/parse/parse.go:818-864 | "a + b * c", whatever follows it, is the single node "a + b", leaving "* c" unconsumed |
| Expressions.MixedOperatorsRejected | lang/parse/parse.go:449-476 | the block "{ a + b * c; }" is rejected: ";" is expected where "*" stands |
| Expressions.UnaryOperand | lang/parse/parse.go:868-878 | a unary operator makes a unary node over the operand after it, and fails exactly when that operand does |
| Expressions.LiteralOperand | lang/parse/parse.go:880-882 | a literal is a leaf operand by itself, with no postfix operators |
| Expressions.ParenOperand | lang/parse/parse.go:886-897 | "(e)" is e itself, accepted exactly when the ")" follows, and otherwise an error where the ")" was expected |
| Expressions.StatusOperand | lang/parse/parse.go:899-908 | error/status/suspension plus a string literal is a status literal holding keyword and message; without the literal it is an error at that token |
| Expressions.NameOperand | lang/parse/parse.go:912-917 | any other operand must be an identifier, which the postfix loop then extends |
| Expressions.PostfixLoopStops | lang/parse/parse.go:918-922 | the postfix loop stops only at a token that extends the operand no further: none of "!", "?", "(", "[" and "." |
| Expressions.MarkedCall | lang/parse/parse.go:924-937 | "!" then an argument list is an impure call and "?" a suspendible one, holding the callee in front and the argument nodes |
| Expressions.PlainCall | lang/parse/parse.go:932-937 | "(" starts a pure call holding the callee in front and the argument nodes |
| Expressions.IndexStep | lang/parse/parse.go:939-944 | "[x]" after an operand is an index holding the operand in front and x behind |
| Expressions.SelectStep | lang/parse/parse.go:946-952 | ".name" after an operand is a selector naming the field; a "." without an identifier after it is rejected at the following token |
| Expressions.DollarListShape | lang/parse/parse.go:779-790 | "$(...)" is a literal list whose arguments are the list's expression nodes, between "(" and a consumed ")" |
| Expressions.AssociativeRun | lang/parse/parse.go:846-863 | "a + b + c" is one associative node over a, b, c in order |
| Types.TypeExprShape | lang/parse/parse.go:348-380 | "ptr" makes a pointer to the type after it; "[" makes an array, of unknown length exactly when "]" follows at once, and otherwise of the length expression parsed there |
| Types.NamedTypeShape | lang/parse/parse.go:382-394 | any other type is a qualified name, and its refinement is always a ".." range, never an index; without "[" it has no bounds |
| Decls.FuncBuiltInRejected | lang/parse/parse.go:157-170 | a built-in receiver, then a built-in name, is rejected right after the qualified name; an accepted func keeps a non-built-in receiver and name |
| Decls.FuncFlags | lang/parse/parse.go:171-178 | "!" adds impure; "?" adds impure and suspendible; nothing else is added |
| Decls.FuncBodyAsserts | lang/parse/parse.go:186-196 | the func's chain is the one parsed after its parameter lists |
| Decls.FuncSignatureShape | lang/parse/parse.go:179-210 | in and out are unflagged structs of fields on the func's line, and the chain is ordered |
| Decls.StructChecked | lang/parse/parse.go:227-251 | a built-in struct name is rejected; "?" adds suspendible and nothing else; the fields are field nodes |
| Decls.DeclShape | lang/parse/parse.go:121-253 | a pub/pri declaration is a const, func, status or struct on its line; it keeps the visibility flags and adds at most impure and suspendible |
| Decls.TopLevelDeclShape | lang/parse/parse.go:85-254 | a top-level declaration is on the line of its first token, and is public exactly when it starts with pub |
| Decls.PackageIDChecked | lang/parse/parse.go:89-115 | an accepted packageid names a valid string literal; a well-formed one is accepted exactly when the package-ID check accepts it, and is otherwise reported, with no line, as an invalid package ID carrying the literal as written |
| Decls.UnrecognizedStart | lang/parse/parse.go:88-120 | a file whose first token is not packageid, use, pub or pri is rejected at the line of that token |
| Decls.UnrecognizedTopLevel | lang/parse/parse.go:85-253 | at any position, a declaration whose first token is not packageid, use, pub or pri is rejected at the line of that token |
| Decls.VisibilityWithoutDecl | lang/parse/parse.go:115-253 | "pub" or "pri" followed by none of const, func, error, suspension or struct is rejected at the line of the visibility keyword |
| Decls.FileLoopGrows | lang/parse/parse.go:75-81 | the file loop keeps what it has, adds at least one declaration on a non-empty stream, and at most one per token |
| Decls.FileLoopTopLevel | lang/parse/parse.go:75-81 | the file loop adds only top-level declarations |
| Decls.FileLoopSorted | lang/parse/parse.go:75-81 | with token lines in order, declarations come back in source order |
| Decls.ParseFileShape | lang/parse/parse.go:73-83 | a parsed file keeps its name, is empty exactly for an empty stream, and starts on the first token's line; it holds only top-level declarations, and when the token lines are in order, so are the declarations' lines |

## Left out

- Error messages: their text, and the intern-table lookups used to build them, are not modelled. An error is a problem tag and the line it is reported at.
- The file name in error messages and on each node is not modelled. Only the file carries its name.
- Token classification is taken as given. The identifier, literal, operator, assignment and built-in tests are flags on the token's ID. The token package is not part of this model.
- The operator-form tables are not modelled. Their forms are written `Unary(key)`, `Binary(key)` and `Associative(key)`, so the three "internal error: no ... form" branches cannot arise.
- Package-ID validation is a parameter of the parser. Go does this by unescaping the string and base-38 encoding it to a non-zero value.
- Element parsers are passed to `parseList` as method values in Go. Here they are a closed enumeration, `ElemKind`, with one case per element parser the source passes.
- Nodes are immutable values. Pointer aliasing, the AST constructors and stamping a node's line in place through its pointer are not modelled. A stamped node is a copy with the new line.
- Parsing.Parser.ParseFile: on failure, neither this method nor any other `Parser` method says where `src` is left. The Go parser abandons the parse at the first error.
- Grammar.ParseIterateBody, Grammar.ParseFuncBody, Grammar.BracketRest and Grammar.OptionalExpr are the tails of `parseStatement1`'s iterate case, of `parseTopLevelDecl`'s func case, and of `parseBracket`. They are split off only to keep each proof small, and the parser methods keep the source's inline form.
- InvalidPackageID always carries the string literal as written. Go reports the unescaped text instead when the literal unescapes but does not base-38 encode, because package-ID validation is a parameter here.
- Tokens are assumed canonical: each key always carries the same flags. Where the code compares whole IDs (the separator test in `parseBracket`, the repeated-operator test in `parseExpr`) the model compares key and flags together, which agrees with the code only on such streams.
- `ParseExpr` at the top level ignores any tokens after the expression, as the code does.
