# A verified model of the Rust Lox interpreter core

This project models, in Dafny, the core of a tree-walking interpreter for a
small Lox-like language written in Rust. It covers five layers:

- **Cursors.** The character reader with line and column counters, the
  index-based token reader, and the older text and token readers. The
  parser embeds a copy of the older token reader.
- **The scanner and token classification.** Characters become positioned
  tokens. A literal buffer is classified in a fixed order: boolean, keyword,
  identifier, number, quoted string.
- **The parser and the expression helpers.** The precedence layers with
  `unary` and `primary`, the first-token locator, and the older pure
  evaluator of value expressions.
- **Operator semantics and run-time objects.** Both copies of the binary
  operator tables, negation, the object conversions, and the `modulo`
  builtin.
- **The scope stack and the executor.** Push, pop, bind and lookup on the
  scope stack. The statement executor and the function-body executor.

Pure code (token classification, keywords, the locator, the old evaluator,
the operator tables, the conversions) is modelled as datatypes, functions
and lemmas.

Code that works by updating state is modelled as classes with `modifies`
clauses. This covers the readers, the scanner, the parser, the scope stack
and the executors. Each method is proved equal to a specification function
of the old state. For example, `Executing.Executor.Run` ensures
`(r, Mach()) == ExecProgram(p, old(Mach()), fuel)`. The lemmas then state
the source's promises about those functions.

All positions are one `Position` record (line, column). Errors are
`LoxError(kind, pos, msg)`. A Rust panic whose trigger is run-time data
becomes an error of kind `Panic` that aborts the stage:

- an `unwrap` or an `expect` on a parse;
- `locate` of a call;
- `RawLoxObject::to_string` of a class, in the messages for negating or
  calling one;
- an executor arm that does not exist.

A panic that callers can rule out is a precondition instead:

- the divisor of `modulo`;
- `back` at index 0;
- the slice of `generate_err_msg`;
- `bind` on an empty stack;
- `From<RawLoxObject>` of a class (`Definitions.FromRaw`);
- `previous` of the older token reader at index 0, where `pos - 1`
  underflows (`LegacyReaders.TokenReader.Previous`).

Where the code behaves in a surprising way, the model follows the code:

- `State::bind` writes to the **outermost** scope that already binds the
  name, because the source iterates the stack from index 0. `State::get`
  reads the innermost. `States.OutermostIsInnermost` proves that the two
  meet the same scope whenever no name is bound twice.
  `States.BindKeepsUnique`, `States.PushPopKeepUnique` and every executor
  function preserve that condition, and `States.State.New` establishes it. So the
  difference shows only on stacks the executor never builds
  (`States.ShadowedBindIsInvisible` shows such a stack).
- A call pushes a scope that is never popped. It binds the parameters and
  answers `Integer(0)` without running the body (`Executing.CallLeaksScope`).
  Because `bind` writes to the outermost holder, a parameter that shares a
  name with one of the caller's variables overwrites that variable in the
  caller's scope (`Executing.ParamOverwritesCaller`).
- `NUMBER_RE` is not anchored. Any buffer holding a digit goes to the `i32`
  parse, and a buffer that is not an `i32` makes the `expect` panic
  (`Tokens.NumberPanics`).
- `recursive_node` keeps a node's left operand and replaces its operator
  and right operand. So the factor layer, the one layer that can succeed as
  written, reads `a * b * c` as `a * c` (see Findings).

## Model

| member | source | states |
|---|---|---|
| Errors.NewErr | src/interpreter/errors.rs:21-23 | the result is an error carrying exactly the given message, kind and position |
| Errors.GenerateErrMsg | src/interpreter/errors.rs:14-19 | the message is the twenty characters around the offset, then the error's message; its length is 20 + the message's length; the slice must lie inside the text |
| Kwds.From | src/interpreter/tokens/kwds.rs:36-56 | succeeds exactly on the twelve keyword spellings; every other string is a scanning error at the given position |
| Kwds.FromIgnoresPosition | src/interpreter/tokens/kwds.rs:36-56 | the position only decides where the error is reported, not whether or what is recognised |
| Kwds.IsValidIffFromSucceeds | src/interpreter/tokens/kwds.rs:28-34 | `is_valid` holds iff `from` succeeds at any position, iff the string is a keyword |
| Kwds.IsValid | src/interpreter/tokens/kwds.rs:28-34 | `is_valid` holds exactly for the twelve keyword spellings |
| Kwds.NeverProduced | src/interpreter/tokens/kwds.rs:7-56 | `False`, `Nil`, `Or`, `True` and `Comment` are never produced |
| Kwds.FromInjective | src/interpreter/tokens/kwds.rs:37-49 | distinct accepted strings give distinct keywords |
| Tokens.Token.Pos | src/interpreter/tokens.rs:48-55 | the stored position, for every variant |
| Tokens.Token.AsPunct | src/interpreter/tokens.rs:57-62 | succeeds iff the token is punctuation, returning that punctuation; otherwise a logic error at the token |
| Tokens.Token.AsLoxValue | src/interpreter/tokens.rs:64-69 | succeeds iff the token is a value token, returning its value; otherwise a logic error at the token |
| Tokens.At | src/interpreter/tokens.rs:93-97 | `p.at(pos)` is the punctuation token `p` at `pos`, and `as_punct` gives `p` back |
| Tokens.ParseI32 | src/interpreter/tokens.rs:38-40 | a parsed number lies in the 32-bit range and its text holds a digit |
| Tokens.FromString | src/interpreter/tokens.rs:28-46 | the classification order: `True`/`False`, then keyword iff the string is one, identifier iff it matches the identifier pattern and is not a keyword, integer iff it holds a digit and is neither, quoted string (quotes kept), otherwise a tokenizing error at the position; the token carries the position |
| Tokens.KeywordsMatchIdentifierPattern | src/interpreter/tokens.rs:28-46 | every keyword matches the identifier pattern, so only the order of the tests makes it a keyword |
| Tokens.DecimalLiteral | src/interpreter/tokens.rs:38-40 | a digit string in range becomes the integer token of its value |
| Readers.Until | src/interpreter/readers/reader.rs:79-89 | the stopping index of `advance_until`: every element skipped fails the predicate, and the stop is the end or an element satisfying it |
| Readers.UntilUnique | src/interpreter/readers/reader.rs:79-89 | that index is the only one with those properties |
| Readers.NewlinesStep | src/interpreter/readers/text_reader.rs:37-42 | consuming one character adds one line exactly when it is a line break |
| Readers.TextReader.FromVec | src/interpreter/readers/text_reader.rs:19-26 | a reader over the vector at offset 0, line 0, column 0 |
| Readers.TextReader.CurrPos | src/interpreter/readers/text_reader.rs:13-15 | the counters are the line and column of the offset in the text |
| Readers.TextReader.Peek | src/interpreter/readers/text_reader.rs:48-50 | the character at the cursor, `None` exactly at the end |
| Readers.TextReader.Previous | src/interpreter/readers/text_reader.rs:52-57 | `None` at offset 0, else the character before the cursor |
| Readers.TextReader.Advance | src/interpreter/readers/text_reader.rs:32-46 | returns what `peek` returned; at the end nothing changes; otherwise the offset moves by one, a line break starts a new line at column 0, any other character moves the column; `previous` is then the character returned; the counters stay those of the offset |
| Readers.TextReader.AdvanceIf | src/interpreter/readers/reader.rs:67-77 | advances one character and returns it exactly when the next one satisfies the predicate; otherwise returns `None` and stays |
| Readers.TextReader.AdvanceUntil | src/interpreter/readers/reader.rs:79-89 | stops at the first character satisfying the predicate, left unconsumed, or at the end |
| Readers.TextReader.AdvanceOr | src/interpreter/readers/reader.rs:91-93 | the error exactly at the end, otherwise the advanced character |
| Readers.TextReader.PeekOr | src/interpreter/readers/reader.rs:95-97 | the error exactly when `peek` is `None`, otherwise the peeked character |
| Readers.TokenReader.FromVec | src/interpreter/readers/token_reader.rs:13-18 | a reader at index 0 |
| Readers.TokenReader.PeekN | src/interpreter/readers/token_reader.rs:40-42 | the token `n` places ahead, `None` when out of range |
| Readers.TokenReader.Peek | src/interpreter/readers/reader.rs:55-57 | `peek` is `peek_n(0)`, `None` exactly at the end |
| Readers.TokenReader.Previous | src/interpreter/readers/token_reader.rs:33-38 | `None` at index 0, else the token before the cursor |
| Readers.TokenReader.Advance | src/interpreter/readers/token_reader.rs:20-27 | returns what `peek` returned, `None` iff at the end (and then stays); otherwise moves by one and `previous` is the token returned; the index never passes the end |
| Readers.TokenReader.AdvanceIf | src/interpreter/readers/reader.rs:67-77 | advances one token and returns it exactly when the next one satisfies the predicate; otherwise returns `None` and stays |
| Readers.TokenReader.AdvanceUntil | src/interpreter/readers/reader.rs:79-89 | stops at the first token satisfying the predicate, left unconsumed, or at the end |
| Readers.TokenReader.AdvanceOr | src/interpreter/readers/reader.rs:91-93 | the error exactly at the end, otherwise the advanced token |
| Readers.TokenReader.PeekOr | src/interpreter/readers/reader.rs:95-97 | the error exactly when `peek` is `None`, otherwise the peeked token |
| LegacyReaders.PastNewline | src/interpreter/text_reader.rs:38-45 | where `advance_until_newline` stops: just past the first line break at or after the start, or at the end with no line break skipped |
| LegacyReaders.TextReader.New | src/interpreter/text_reader.rs:9-11 | a reader at index 0 over the text |
| LegacyReaders.TextReader.Reset | src/interpreter/text_reader.rs:13-15 | a new reader over the same text at index 0 |
| LegacyReaders.TextReader.Back | src/interpreter/text_reader.rs:17-25 | moves back one and answers `Some` exactly when not at 0; at 0 nothing changes |
| LegacyReaders.TextReader.Advance | src/interpreter/text_reader.rs:27-36 | the character at the index and one step on, or `None` exactly at the end without moving |
| LegacyReaders.TextReader.AdvanceUntilNewline | src/interpreter/text_reader.rs:38-45 | consumes up to and including the next line break, or to the end |
| LegacyReaders.TextReader.GetPos | src/interpreter/text_reader.rs:47-49 | the index, never past the end of the text |
| LegacyReaders.TokenReader.New | src/interpreter/token_reader.rs:15-20 | a reader at index 0 |
| LegacyReaders.TokenReader.CurrToken | src/interpreter/token_reader.rs:27-29 | the token at the index, `None` once the index is past the end |
| LegacyReaders.TokenReader.Pos | src/interpreter/token_reader.rs:31-33 | the index |
| LegacyReaders.TokenReader.Next | src/interpreter/token_reader.rs:35-37 | moves one on unconditionally, possibly past the end |
| LegacyReaders.TokenReader.Back | src/interpreter/token_reader.rs:39-41 | moves one back; requires the index to be at least 1 (unsigned underflow) |
| LegacyReaders.TokenReader.Advance | src/interpreter/token_reader.rs:22-25 | pre-increments, then returns the token at the new index: the first call reads index 1 |
| LegacyReaders.TokenReader.Previous | src/interpreter/token_reader.rs:43-46 | the token before the index, or a parsing error without position exactly when that index is past the end |
| Scanning.SingleCharPunct | src/interpreter/scanner.rs:44-53 | the ten one-character tokens; none is `Eof`, a blank or a variable character |
| Scanning.Classify | src/interpreter/scanner.rs:101-114 | a buffer that reaches the number branch and is not an `i32` panics; any other buffer is classified by `from_string` |
| Scanning.NextTok | src/interpreter/scanner.rs:39-77 | one scan step: at the end of the text the `Eof` token, without moving; each of the ten one-character punctuations gives its token at the character and moves one; an unrecognised character (no punctuation, blank or variable character) is a scanning error at it; otherwise the step moves forward within the text |
| Scanning.NextTokDispatch | src/interpreter/scanner.rs:54-65 | `!`, `=`, `<` go to the peeking handler with their two tokens, `>` to `handle_gr`, `/` to `handle_slash`, a blank to the next step, a variable character to `handle_literal` |
| Scanning.ScanPeeked | src/interpreter/scanner.rs:116-150 | `!`, `=`, `<`: at the end a scanning error; a following `=` is consumed and gives the two-character token; anything else is left and gives the one-character token |
| Scanning.ScanGr | src/interpreter/scanner.rs:152-162 | `>` at the end is a scanning error; `>=` gives `GreaterEqual` and advances once more; any other next character is consumed with `Greater` (see Findings) |
| Scanning.ScanSlash | src/interpreter/scanner.rs:164-174 | `/` at the end is a scanning error; `//` starts a comment; any other next character is consumed with `Slash` (see Findings) |
| Scanning.ScanComment | src/interpreter/scanner.rs:176-179 | skips to the next line break, left unconsumed, and scans on |
| Scanning.ScanLiteral | src/interpreter/scanner.rs:79-85 | a `"` goes to `handle_string_literal` and any other character to `handle_var_or_val_literal`; the token is positioned after the first character |
| Scanning.StringEnd | src/interpreter/scanner.rs:87-99 | a string literal ends within the text |
| Scanning.ScanStringLiteral | src/interpreter/scanner.rs:87-99 | the literal runs through the closing quote or to the end; it is a string token of the buffer (quotes kept) iff the buffer holds no digit and is quoted; otherwise the `unwrap` panics |
| Scanning.StringBuffer | src/interpreter/scanner.rs:87-99 | the buffer starts with the opening quote and holds no quote before its last character |
| Scanning.ScanVarOrValLiteral | src/interpreter/scanner.rs:101-114 | the maximal run of variable characters, classified |
| Scanning.Prepend | src/interpreter/scanner.rs:24-37 | the collected tokens in front of a successful rest, or the rest's error unchanged |
| Scanning.ScanFrom | src/interpreter/scanner.rs:24-37 | the `loop`: a failing step is the scan's error; a successful scan starts with the step's token and ends with `Eof` |
| Scanning.Scan | src/interpreter/scanner.rs:24-37 | a successful scan ends with `Eof` at the end of the text, and no earlier token is `Eof` |
| Scanning.PrependNothing | src/interpreter/scanner.rs:24-37 | collecting no tokens in front leaves the scan unchanged |
| Scanning.PrependAssoc | src/interpreter/scanner.rs:24-37 | collecting tokens in front is associative |
| Scanning.ScanEndsWithEof | src/interpreter/scanner.rs:24-37 | a successful scan ends with exactly one `Eof` token, its last element |
| Scanning.ScanErrorIsStepError | src/interpreter/scanner.rs:27 | a failed scan fails with the error of the scan step from some offset at or after the start |
| Scanning.BlankRestScansToEof | src/interpreter/scanner.rs:39-77 | blanks to the end of the text scan to the `Eof` token alone |
| Scanning.Scanner.New | src/interpreter/scanner.rs:18-22 | a scanner at the start of the text |
| Scanning.Scanner.Scan | src/interpreter/scanner.rs:24-37 | the loop's tokens are the scan of the text from the cursor |
| Scanning.Scanner.NextToken | src/interpreter/scanner.rs:39-77 | the token and the new cursor are one scan step |
| Scanning.Scanner.HandlePeeked | src/interpreter/scanner.rs:116-150 | `handle_bang`, `handle_eq`, `handle_le` as one step with their two tokens |
| Scanning.Scanner.HandleGr | src/interpreter/scanner.rs:152-162 | agrees with `ScanGr` |
| Scanning.Scanner.HandleSlash | src/interpreter/scanner.rs:164-174 | agrees with `ScanSlash` |
| Scanning.Scanner.HandleComment | src/interpreter/scanner.rs:176-179 | agrees with `ScanComment` |
| Scanning.Scanner.HandleLiteral | src/interpreter/scanner.rs:79-85 | agrees with `ScanLiteral` |
| Scanning.Scanner.HandleStringLiteral | src/interpreter/scanner.rs:87-99 | agrees with `ScanStringLiteral` |
| Scanning.Scanner.HandleVarOrValLiteral | src/interpreter/scanner.rs:101-114 | agrees with `ScanVarOrValLiteral` |
| CorrectedScanning.CNextTok | src/interpreter/scanner.rs:39-77 | the corrected scan step keeps the step's properties |
| CorrectedScanning.CScanFrom | src/interpreter/scanner.rs:24-37 | the corrected scan loop: a failing step is the scan's error; a successful scan starts with the step's token and ends with `Eof` |
| CorrectedScanning.CScanSlash | src/interpreter/scanner.rs:164-174 | corrected `/`: at the end a scanning error; `//` starts a comment; any other next character is left for the next token |
| CorrectedScanning.CScanComment | src/interpreter/scanner.rs:176-179 | the comment skip keeps the step's properties |
| CorrectedScanning.GreaterSkipsNext | src/interpreter/scanner.rs:152-162 | as written: after `>` not followed by `=`, the scan goes on two characters later |
| CorrectedScanning.SlashSkipsNext | src/interpreter/scanner.rs:164-174 | as written: after `/` not followed by `/`, the scan goes on two characters later |
| CorrectedScanning.CGreaterKeepsNext | src/interpreter/scanner.rs:152-162 | corrected: the character after `>` starts the next token |
| CorrectedScanning.CSlashKeepsNext | src/interpreter/scanner.rs:164-174 | corrected: the character after `/` starts the next token |
| CorrectedScanning.GreaterParenWitness | src/interpreter/scanner.rs:152-162 | `>(` scans to `>` and `Eof` as written, and to `>`, `(`, `Eof` when corrected |
| Parsing.ParseErr | src/interpreter/parser.rs:181-186 | a parsing error, positioned at the current token exactly when there is one |
| Parsing.RecursiveNode | src/interpreter/parser.rs:167-179 | the first operator builds a node over the left operand; a later one replaces the right side of the existing node |
| Parsing.PPrimary | src/interpreter/parser.rs:155-165 | moves one token and succeeds exactly on a value or identifier token there; otherwise a parsing error |
| Parsing.PUnary | src/interpreter/parser.rs:137-153 | the pre-incrementing reader reads the token after the cursor, a parsing error when there is none; a `-` there is the operator and `primary` reads the token after it, otherwise the reader steps back and `primary` reads that token; it succeeds exactly when the operand is a value or identifier token, giving the unary node of the two |
| Parsing.PLevel | src/interpreter/parser.rs:73-153 | every parse moves the reader; its errors are parsing errors |
| Parsing.PExpression | src/interpreter/parser.rs:68-71 | the expression is the equality layer: it succeeds exactly when that layer does, with its tree; it moves the reader; errors are parsing errors |
| Parsing.Layer | src/interpreter/parser.rs:73-135 | a layer moves the reader; its errors are parsing errors |
| Parsing.LayerLoop | src/interpreter/parser.rs:77-134 | the `while let` loop moves the reader; its errors are parsing errors |
| Parsing.LoopOkOnlyAtEnd | src/interpreter/parser.rs:77-86 | a layer's loop can only succeed once the reader is past the last token |
| Parsing.LevelOkOnlyAtEnd | src/interpreter/parser.rs:73-135 | so can a whole layer |
| Parsing.AboveFactorFails | src/interpreter/parser.rs:73-119 | every layer above factor fails on every input (see Findings) |
| Parsing.FactorDropsMiddleOperand | src/interpreter/parser.rs:121-179 | as written, the factor layer reads `a * b * c` (after the skipped token 0) as the node `a * c`: the middle operand is lost |
| Parsing.ExpressionNeverParses | src/interpreter/parser.rs:68-71 | `expression` fails on every token list (see Findings) |
| Parsing.LevelIgnoresUpTo | src/interpreter/parser.rs:26-165 | a parse from index `p` reads no token at or before `p` |
| Parsing.LayerIgnoresUpTo | src/interpreter/parser.rs:73-135 | the same for a layer |
| Parsing.LoopIgnoresUpTo | src/interpreter/parser.rs:77-134 | the same for a layer's loop |
| Parsing.SuffixAgrees | src/interpreter/parser.rs:26-29 | lists that agree after `p` agree after any later index |
| Parsing.FirstTokenNeverRead | src/interpreter/parser.rs:26-71 | from a fresh reader the first token never influences the parse |
| Parsing.Parser.New | src/interpreter/parser.rs:60-66 | a parser over the tokens with its reader at index 0 |
| Parsing.Parser.ErrorHere | src/interpreter/parser.rs:181-186 | the parsing error at the current token, positioned exactly when there is one |
| Parsing.Parser.Expression | src/interpreter/parser.rs:68-71 | agrees with `PExpression` |
| Parsing.Parser.Equality | src/interpreter/parser.rs:73-87 | agrees with the equality layer |
| Parsing.Parser.Comparison | src/interpreter/parser.rs:89-103 | agrees with the comparison layer |
| Parsing.Parser.Term | src/interpreter/parser.rs:105-119 | agrees with the term layer |
| Parsing.Parser.Factor | src/interpreter/parser.rs:121-135 | agrees with the factor layer |
| Parsing.Parser.Unary | src/interpreter/parser.rs:137-153 | agrees with `PUnary` |
| Parsing.Parser.Primary | src/interpreter/parser.rs:155-165 | agrees with `PPrimary` |
| CorrectedParsing.OpsDisjoint | src/interpreter/parser.rs:73-135 | the operators of different layers are different tokens |
| CorrectedParsing.CPrimary | src/interpreter/parser.rs:155-165 | corrected `primary`: succeeds exactly on a value or identifier token at the cursor and moves past it |
| CorrectedParsing.CUnary | src/interpreter/parser.rs:137-153 | corrected `unary` stays within the tokens and moves on success |
| CorrectedParsing.CLevel | src/interpreter/parser.rs:73-135 | corrected layers stay within the tokens and move on success |
| CorrectedParsing.CLoop | src/interpreter/parser.rs:77-134 | a corrected layer loop stays within the tokens |
| CorrectedParsing.CExpression | src/interpreter/parser.rs:68-71 | the corrected expression is the corrected equality layer, within the tokens, moving on success |
| CorrectedParsing.Flatten | src/interpreter/parser.rs:137-179 | every tree comes from at least one token |
| CorrectedParsing.ParseFlattened | src/interpreter/parser.rs:73-179 | a well-formed tree lying at `p`, followed by no operator of its layers, is parsed back exactly, consuming its tokens |
| CorrectedParsing.LayerPrefix | src/interpreter/parser.rs:73-135 | a layer reads a well-formed tree and reaches its loop just after it |
| CorrectedParsing.LayerPrefixNode | src/interpreter/parser.rs:73-135 | a layer reads a node of its own operator: left operand, operator, right operand, and reaches its loop just after it |
| CorrectedParsing.LoopStep | src/interpreter/parser.rs:77-84 | one round of a layer loop: an operator of the layer and the operand after it extend the chain to the left |
| CorrectedParsing.EofFollows | src/interpreter/parser.rs:68-71 | tokens followed by `Eof` lie at index 0 and are followed by no operator |
| CorrectedParsing.LocatedParts | src/interpreter/parser.rs:167-179 | where a node's left operand, operator and right operand lie |
| CorrectedParsing.ParseFlattenedExpression | src/interpreter/parser.rs:68-71 | round trip: every well-formed expression tree is parsed back from its tokens followed by `Eof` |
| CorrectedParsing.SingleValueParses | src/interpreter/parser.rs:68-71 | one value token parses when corrected and fails as written |
| CorrectedParsing.FactorKeepsEveryOperand | src/interpreter/parser.rs:121-179 | corrected, `a * b * c` is read as `(a * b) * c`, keeping every operand |
| Locator.ExprTokens | src/interpreter/parser/locator.rs:13-20 | every expression holds a token |
| Locator.ChainTokens | src/interpreter/parser/locator.rs:22-44 | every layer holds a token |
| Locator.UnaryTokens | src/interpreter/parser/locator.rs:46-57 | every unary holds a token |
| Locator.Locate | src/interpreter/parser/locator.rs:8-20 | `locate` is the position of the expression's first token in source order |
| Locator.LocateChain | src/interpreter/parser/locator.rs:22-44 | the layers are located at their first token, through the first operands only |
| Locator.LocateUnary | src/interpreter/parser/locator.rs:46-57 | a unary with an operator is located at it; every unary is located at its first token |
| Evaluating.Apply | src/interpreter/parser/evaluating.rs:14-22 | succeeds exactly for `-` on an integer, giving its negation; otherwise a logic error at the position |
| Evaluating.Combine | src/interpreter/parser/evaluating.rs:36-48 | succeeds exactly for `*`/`+` on two integers or two booleans: `*` gives the product or the and, `+` the sum or the or; otherwise a logic error at the operator |
| Evaluating.EvalFold | src/interpreter/parser/evaluating.rs:24-52 | the accumulator's error first, then a non-punctuation operator's, then the operand's; otherwise the operator combines the two values, with an operation error at the operator |
| Evaluating.EvalUnary | src/interpreter/parser/evaluating.rs:79-90 | a non-value operand is a logic error at it; without operator the value; a non-punctuation operator fails in `as_punct`; a punctuation operator is applied to the value at the operator's position |
| Evaluating.FoldRest | src/interpreter/parser/evaluating.rs:69-75 | the fold over no pairs is the accumulator; a failed accumulator is the result; on success every operator was punctuation and every operand evaluated |
| Evaluating.EvalMany | src/interpreter/parser/evaluating.rs:64-77 | a layer without pairs is its first operand; a failing first operand is the layer's error; on success every operator was punctuation and every operand evaluated |
| Evaluating.EvalFactor | src/interpreter/parser/evaluating.rs:64-77 | a factor without pairs is its unary; a failing unary is its error |
| Evaluating.EvalTerm | src/interpreter/parser/evaluating.rs:64-77 | a term without pairs is its factor; a failing factor is its error |
| Evaluating.EvalComp | src/interpreter/parser/evaluating.rs:64-77 | a comparison without pairs is its term; a failing term is its error |
| Evaluating.EvalEqlty | src/interpreter/parser/evaluating.rs:64-77 | an equality without pairs is its comparison; a failing comparison is its error |
| Evaluating.EvalExpr | src/interpreter/parser/evaluating.rs:58-62 | an expression that is one operand token without operator evaluates to that token's value |
| Evaluating.FoldRestSnoc | src/interpreter/parser/evaluating.rs:64-77 | the fold is a left fold: the last pair is combined with the fold of all before it |
| Evaluating.PlusChainSums | src/interpreter/parser/evaluating.rs:36-77 | a `+` chain over integers evaluates to their sum |
| Evaluating.ApplyInvolution | src/interpreter/parser/evaluating.rs:16-17 | `-` undoes itself on integers |
| BinaryOperations.CantPerform | src/interpreter/execute/operations/binary_operations.rs:6-8 | a logic error at the position |
| BinaryOperations.Plus | src/interpreter/execute/operations/binary_operations.rs:24-33 | succeeds exactly on two integers (sum) or two booleans (or); otherwise a logic error at the position |
| BinaryOperations.Star | src/interpreter/execute/operations/binary_operations.rs:35-44 | succeeds exactly on two integers (product) or two booleans (and); otherwise a logic error at the position |
| BinaryOperations.Minus | src/interpreter/execute/operations/binary_operations.rs:46-55 | succeeds exactly on two integers (difference) or two booleans (`a && !b`); otherwise a logic error at the position |
| BinaryOperations.Eq | src/interpreter/execute/operations/binary_operations.rs:57-67 | succeeds exactly on operands of the same variant, giving their equality; otherwise a logic error |
| BinaryOperations.Neq | src/interpreter/execute/operations/binary_operations.rs:69-79 | succeeds exactly on operands of the same variant, giving their inequality; otherwise a logic error |
| BinaryOperations.Handle | src/interpreter/execute/operations/binary_operations.rs:10-22 | a non-punctuation operator fails in `as_punct`; `*`, `+`, `-`, `==`, `!=` are `star`, `plus`, `minus`, `eq`, `neq` at the position; other punctuation is a logic error; every failure of a punctuation operator is a logic error at the position |
| BinaryOperations.PlusStarCommute | src/interpreter/execute/operations/binary_operations.rs:24-44 | `+` and `*` are commutative, in result and error alike |
| BinaryOperations.NeqIsNotEq | src/interpreter/execute/operations/binary_operations.rs:57-79 | `!=` succeeds exactly when `==` does, with the opposite answer |
| BinaryOperations.MinusIsPlusOfNegation | src/interpreter/execute/operations/binary_operations.rs:24-55 | on integers `a - b` is `a + (-b)` |
| LegacyBinaryOperations.CantPerformBinaryOn | src/interpreter/execute/binary_operations.rs:11-17 | a logic error at the position whose message is `Can't perform`, the quoted operation name, then `on` |
| LegacyBinaryOperations.CantPerformText | src/interpreter/execute/binary_operations.rs:16 | the message text before the operands: `Can't perform "`, the name, `" on ` |
| LegacyBinaryOperations.Plus | src/interpreter/execute/binary_operations.rs:33-41 | succeeds exactly on two integers (sum) or two booleans (or), with the `Can't perform` message naming it otherwise |
| LegacyBinaryOperations.Star | src/interpreter/execute/binary_operations.rs:43-51 | succeeds exactly on two integers (product) or two booleans (and), with the `Can't perform` message naming it otherwise |
| LegacyBinaryOperations.Minus | src/interpreter/execute/binary_operations.rs:53-61 | succeeds exactly on two integers (difference) or two booleans (`a && !b`), with the `Can't perform` message naming it otherwise |
| LegacyBinaryOperations.Eq | src/interpreter/execute/binary_operations.rs:63-72 | succeeds exactly on operands of the same variant, giving their equality, with the `Can't perform` message naming it otherwise |
| LegacyBinaryOperations.Neq | src/interpreter/execute/binary_operations.rs:74-83 | succeeds exactly on operands of the same variant, giving their inequality, with the `Can't perform` message naming it otherwise |
| LegacyBinaryOperations.Handle | src/interpreter/execute/binary_operations.rs:19-31 | a non-punctuation operator fails in `as_punct`; the five operators go to this file's `plus`, `star`, `minus`, `eq`, `neq`; other punctuation is a logic error at the position |
| LegacyBinaryOperations.AgreesWithOperations | src/interpreter/execute/binary_operations.rs:19-83 | on every input the older copy gives the newer copy's value, or fails with the same kind at the same position |
| LegacyBinaryOperations.MessagesDiffer | src/interpreter/execute/binary_operations.rs:43-51 | the two copies word a failed product differently |
| UnaryOperations.Negate | src/interpreter/execute/operations/unary_operations.rs:12-21 | succeeds exactly on integers (negated) and booleans (inverted); strings and functions are a logic error at the position; a class panics when rendered |
| UnaryOperations.UnaryOp | src/interpreter/execute/operations/unary_operations.rs:23-37 | a non-punctuation operator fails in `as_punct`; `-` is `negate` at the operator; any other punctuation fails, with a logic error at the operator unless the operand panics when rendered |
| UnaryOperations.NegateInvolution | src/interpreter/execute/operations/unary_operations.rs:14-15 | negating twice gives the object back |
| Definitions.FromValue | src/interpreter/execute/definitions.rs:60-64 | a plain object whose value is the given value |
| Definitions.FromFun | src/interpreter/execute/definitions.rs:66-70 | a function object with the definition and no value |
| Definitions.ToValue | src/interpreter/execute/definitions.rs:44-79 | `Some(v)` exactly for `Plain(v)` |
| Definitions.AsFun | src/interpreter/execute/definitions.rs:81-88 | `Some(d)` exactly for `Fun(d)` |
| Definitions.AsBool | src/interpreter/execute/definitions.rs:90-98 | the truth of a plain value; `None` exactly for functions and classes |
| Definitions.Apply | src/interpreter/execute/definitions.rs:30-35 | `f` on the raw object, rewrapped on success and its error otherwise |
| Definitions.Transform | src/interpreter/execute/definitions.rs:37-42 | `f` applied to the raw object |
| Definitions.FromRaw | src/interpreter/execute/definitions.rs:100-108 | a copy of a value or a function object; a class panics (precondition) |
| Definitions.ValueRoundTrip | src/interpreter/execute/definitions.rs:44-79 | `to_value(from(v)) == Some(v)`, and a plain object is the wrapping of its value |
| Inbuilt.TruncRem | src/interpreter/execute/inbuilt.rs:34 | Rust's `%`: the remainder of truncated division, smaller than the divisor in size, with the dividend's sign |
| Inbuilt.DivisionIdentity | src/interpreter/execute/inbuilt.rs:34 | the dividend is the divisor times the truncated quotient plus the remainder of the dividend's size by the divisor's, signed like the dividend |
| Inbuilt.TruncRemVsEuclidean | src/interpreter/execute/inbuilt.rs:34 | Rust's `%` equals the Euclidean remainder for a non-negative dividend or an exact division, and is that remainder less the divisor's size otherwise |
| Inbuilt.Modulo | src/interpreter/execute/inbuilt.rs:25-35 | succeeds exactly on two integers, with Rust's remainder; otherwise a run-time error at the position; a zero divisor is excluded |
| Inbuilt.RemainderOfNegative | src/interpreter/execute/inbuilt.rs:34 | `-7 % 3` is `-1` |
| States.ScopeBind | src/interpreter/execute/state.rs:39-45 | the name bound to the object, every other binding unchanged |
| States.ScopeGet | src/interpreter/execute/state.rs:47-57 | the binding exactly when present, otherwise a logic error at the position |
| States.Outermost | src/interpreter/execute/state.rs:98-102 | the lowest scope binding the name, or none |
| States.Innermost | src/interpreter/execute/state.rs:115-126 | the highest scope binding the name, or none |
| States.BindTarget | src/interpreter/execute/state.rs:94-113 | the scope `bind` writes to is on the stack |
| States.BindIn | src/interpreter/execute/state.rs:94-113 | `bind` changes one scope, the outermost holder or else the current one; depth and every other scope are unchanged |
| States.Lookup | src/interpreter/execute/state.rs:115-126 | succeeds exactly when some scope binds the name, with the innermost binding; otherwise a run-time error at the position |
| States.BindKeepsUnique | src/interpreter/execute/state.rs:94-113 | `bind` never binds a name twice on the stack |
| States.PushPopKeepUnique | src/interpreter/execute/state.rs:83-92 | pushing an empty scope or popping one keeps every name bound at most once |
| States.OutermostIsInnermost | src/interpreter/execute/state.rs:98-126 | with every name bound at most once, `bind` and `get` meet the same scope |
| States.BindThenLookup | src/interpreter/execute/state.rs:94-126 | `get` after `bind` finds the object bound whenever the name is bound at most once; other names find what they found before |
| States.InnermostAgrees | src/interpreter/execute/state.rs:115-126 | the lookup depends only on which scopes bind the name |
| States.ShadowedBindIsInvisible | src/interpreter/execute/state.rs:98-126 | on a stack binding a name twice, `bind` updates the outer binding and `get` still finds the inner one |
| States.State.New | src/interpreter/execute/state.rs:70-75 | one global scope with no bindings |
| States.State.PushNewScope | src/interpreter/execute/state.rs:83-88 | an empty scope on top, the others unchanged |
| States.State.PopLastScope | src/interpreter/execute/state.rs:90-92 | the top scope removed, `Some` exactly when the stack was non-empty; the global scope can be popped |
| States.State.Bind | src/interpreter/execute/state.rs:94-113 | the loop's result is `BindIn` of the old stack |
| States.State.Get | src/interpreter/execute/state.rs:115-126 | the top-down loop's result is `Lookup` |
| Executing.TokenObject | src/interpreter/execute/executing.rs:233-245 | an identifier is looked up, a value is wrapped, any other token is a logic error at it |
| Executing.ApplyUnary | src/interpreter/execute/executing.rs:200-215 | `unary_op` on the raw object, rewrapped |
| Executing.FoldStep | src/interpreter/execute/executing.rs:217-231 | the accumulator's error first, then the operand's; two plain values go to `handle` at the operator; any other object panics |
| Executing.BindParams | src/interpreter/execute/executing.rs:143-145 | binding the parameters keeps the depth and binds no name twice |
| Executing.BindParamsBinds | src/interpreter/execute/executing.rs:143-145 | the zip binds parameter `i` to argument `i`, unless a later parameter has the same name |
| Executing.BindParamsKeepsOthers | src/interpreter/execute/executing.rs:143-145 | a name that is no parameter is looked up as before |
| Executing.EvalExpr | src/interpreter/execute/executing.rs:122-157 | the stack only grows; a call-free expression leaves it unchanged; no name gets bound twice |
| Executing.EvalCall | src/interpreter/execute/executing.rs:126-152 | an unbound callee is the lookup's error; a plain value is "not callable", a logic error at the callee; a class panics; for a function, the arguments' error, or else `Integer(0)` with the parameters bound (`BindParams`) on the stack with a new scope pushed; the stack only grows and no name gets bound twice |
| Executing.EvalArgs | src/interpreter/execute/executing.rs:136-139 | on success, the objects already evaluated followed by one object per remaining argument; the stack only grows and no name gets bound twice |
| Executing.ArgsInOrder | src/interpreter/execute/executing.rs:136-139 | for call-free arguments: the stack is unchanged; success iff every argument evaluates, with the objects in argument order; otherwise the error of the first failing argument |
| Executing.EvalChain | src/interpreter/execute/executing.rs:159-198 | the stack only grows; a call-free layer leaves it unchanged; no name gets bound twice |
| Executing.EvalLinks | src/interpreter/execute/executing.rs:159-198 | the same for the remaining pairs of a layer |
| Executing.EvalUnary | src/interpreter/execute/executing.rs:200-215 | the same for a unary |
| Executing.BindAddsOnTop | src/interpreter/execute/state.rs:94-113 | `bind` adds a name only to the current scope |
| Executing.ExecStmt | src/interpreter/execute/executing.rs:60-120 | an expression statement does nothing; `print`, `if`, `while` and `let` are their functions; `def` binds the name to the function; a top-level `return` is a logic error at its expression, or a panic when that cannot be located; the stack only grows, a call-free statement adds names only on top, no name gets bound twice, the output only grows |
| Executing.ExecPrint | src/interpreter/execute/executing.rs:66-69 | the stack is the one evaluation leaves; the evaluated object is appended to the output exactly when evaluation succeeds, otherwise its error |
| Executing.ExecLet | src/interpreter/execute/executing.rs:98-103 | succeeds exactly when the right-hand side can be located and evaluates; then the name is bound to its value; the output is unchanged |
| Executing.ExecIf | src/interpreter/execute/executing.rs:70-82 | the condition's error; a true condition runs the body in its own scope; a false one does nothing more; no truth value is a logic error at the condition; the invariants of `ExecStmt` |
| Executing.ExecWhile | src/interpreter/execute/executing.rs:83-97 | the condition's error; no truth value is a logic error without position; false ends the loop; true with no fuel left is `OutOfFuel`; the invariants of `ExecStmt` |
| Executing.WhileRound | src/interpreter/execute/executing.rs:83-97 | a true condition runs the body in its own scope; its error ends the loop, otherwise the loop goes round again from where the body left |
| Executing.ExecScoped | src/interpreter/execute/executing.rs:38-48 | a call-free body leaves the depth and the names of every scope as they were, failed or not |
| Executing.ExecProgram | src/interpreter/execute/executing.rs:51-58 | as `ExecStmt`, for a statement list |
| Executing.ExecProgramAppend | src/interpreter/execute/executing.rs:51-58 | running `p + q` runs `q` from where `p` left off, and not at all when `p` fails |
| Executing.StmtFuel | src/interpreter/execute/executing.rs:60-120 | a run that did not hit the loop bound is the run with any larger bound |
| Executing.IfFuel | src/interpreter/execute/executing.rs:70-82 | the same for `if` |
| Executing.WhileFuel | src/interpreter/execute/executing.rs:83-97 | the same for `while` |
| Executing.WhileStops | src/interpreter/execute/executing.rs:83-97 | a condition that is not true ends the loop whatever the bound |
| Executing.WhileFuelStep | src/interpreter/execute/executing.rs:83-97 | one round under two bounds: if the body and the rest of the loop agree under both, so does the loop |
| Executing.ScopedFuel | src/interpreter/execute/executing.rs:38-48 | the same for a scoped body |
| Executing.ProgramFuel | src/interpreter/execute/executing.rs:51-58 | the same for a statement list |
| Executing.LinksKeepError | src/interpreter/execute/executing.rs:217-231 | once the fold has failed the failure is its result |
| Executing.CallLeaksScope | src/interpreter/execute/executing.rs:126-152 | a call without arguments answers 0 and leaves its scope on the stack |
| Executing.ParamOverwritesCaller | src/interpreter/execute/executing.rs:141-145 | a parameter named like a caller's variable overwrites that variable; the pushed scope stays empty |
| Executing.Executor.New | src/interpreter/execute/executing.rs:27-31 | a fresh state with the global scope alone and nothing printed |
| Executing.Executor.From | src/interpreter/execute/executing.rs:33-35 | an executor on the given state |
| Executing.Executor.AsLoxObj | src/interpreter/execute/executing.rs:233-245 | agrees with `TokenObject` |
| Executing.Executor.VisitExpr | src/interpreter/execute/executing.rs:122-157 | agrees with `EvalExpr` on the result and the new stack |
| Executing.Executor.VisitCall | src/interpreter/execute/executing.rs:126-152 | agrees with `EvalCall` on the result and the new stack |
| Executing.Executor.VisitArgs | src/interpreter/execute/executing.rs:136-139 | agrees with `EvalArgs` on the arguments and the new stack |
| Executing.Executor.BindArgs | src/interpreter/execute/executing.rs:143-145 | the loop binds the parameters as `BindParams` does |
| Executing.Executor.VisitChain | src/interpreter/execute/executing.rs:159-198 | agrees with `EvalChain` on the result and the new stack |
| Executing.Executor.VisitUnary | src/interpreter/execute/executing.rs:200-215 | agrees with `EvalUnary` on the result and the new stack |
| Executing.Executor.Exec | src/interpreter/execute/executing.rs:60-120 | agrees with `ExecStmt` on the result, the stack and the output |
| Executing.Executor.VisitIf | src/interpreter/execute/executing.rs:70-82 | agrees with `ExecIf` |
| Executing.Executor.VisitWhile | src/interpreter/execute/executing.rs:83-97 | agrees with `ExecWhile` |
| Executing.Executor.Scoped | src/interpreter/execute/executing.rs:38-48 | agrees with `ExecScoped` |
| Executing.Executor.Run | src/interpreter/execute/executing.rs:51-58 | agrees with `ExecProgram` |
| ExecutingFunction.FuncStmt | src/interpreter/execute/executing_function.rs:34-43 | a `return` answers its expression's value and changes only what evaluating it changes; any other statement is run by the executor and answers nothing |
| ExecutingFunction.FuncSteps | src/interpreter/execute/executing_function.rs:22-29 | running a body only grows the stack |
| ExecutingFunction.FuncRun | src/interpreter/execute/executing_function.rs:22-32 | the returned value, or 0 when the body ends without `return`; errors propagate |
| ExecutingFunction.NoReturnRunsAsProgram | src/interpreter/execute/executing_function.rs:22-43 | a body without `return` runs exactly as the executor runs it as a program |
| ExecutingFunction.FuncStepsAppend | src/interpreter/execute/executing_function.rs:24-29 | running `p + q` runs `q` only when `p` neither failed nor returned |
| ExecutingFunction.FirstReturnDecides | src/interpreter/execute/executing_function.rs:24-37 | the first `return` decides the result and nothing after it runs |
| ExecutingFunction.FuncExecutor.From | src/interpreter/execute/executing_function.rs:16-20 | a function executor sharing the given executor |
| ExecutingFunction.FuncExecutor.VisitStatement | src/interpreter/execute/executing_function.rs:34-43 | agrees with `FuncStmt` |
| ExecutingFunction.FuncExecutor.VisitProgram | src/interpreter/execute/executing_function.rs:22-32 | agrees with `FuncRun` |

## Left out

- Text is a sequence of characters. Only ASCII letters and digits count as
  alphanumeric, and the regular expressions are written out as character
  predicates. Unicode classes and `char` encoding are not modelled.
- Error messages are kept where the source fixes them, but `format!`
  output (token and object renderings) is not reproduced. Contracts speak
  of the error kind and position.
- Integer arithmetic is unbounded. `i32` overflow in `+`, `-`, `*`,
  negation and `%` is not modelled: the panics of `i32::MAX + 1`,
  `-i32::MIN` or `i32::MIN % -1` depend on operand values that the model
  does not bound. The range of a number literal is modelled:
  `Tokens.ParseI32` rejects values outside 32 bits.
- Tokens carry a `Position` record, as the scanner builds them. The
  `usize` offset of the older token constructors is not modelled.
- Standard output is the `printed` sequence of objects: `print` appends the
  object, and its rendering is left out. The `println!` of a comment in the
  scanner is left out.
- Executing.ExecStmt: an expression statement evaluates nothing and writes
  a fixed line with `println!`. That line is not in `printed`, which holds
  only the objects `print` writes.
- `bool::from(LoxValue)` has no definition in the repository. Its model
  (`Definitions.Truthy`) takes a non-zero integer, a non-empty string, or
  the boolean itself as true.
- `hash_str`, the scope's name and the `HashMap` capacity are never read,
  so they are not modelled.
- `Class` objects carry nothing. `LoxObj::to_string` renders one as a fixed
  text, so `print` of a class succeeds. `RawLoxObject::to_string` panics on
  one, so negating or calling a class aborts with a `Panic` error.
- `State::bind` in the repository takes a token and returns nothing, but
  the executor calls it with a position and `?`. The model uses the
  executor's view, in which `let` and `def` binding never fails.
- `FuncExecutor::from(self.clone())` in a call discards its result, so the
  body of a called function is not run. The model does not run it either.
  `ExecutingFunction.FuncExecutor` holds a shared `&Executor` in the source,
  through which the executor's `&mut self` visitors cannot be called. The
  model lets the function executor run statements on the executor it
  holds, changing that executor's state.
- The `&mut` reference that `get` returns is a value here.
- The `if` and `while` visitors use the source's control flow. The syntax
  tree is the one `executing.rs`, `executing_function.rs` and `locator.rs`
  use. `parser/structure.rs` is not part of this model, because it declares
  a different tree.
- `parser.rs` uses node types no file of the repository defines. They are
  read as their names and uses suggest (see `Parsing`).
- `pretty_printing.rs`, the REPL and the command line are I/O and are not
  part of this model.
- Executing.ExecWhile: a `while` loop may run at most `fuel` rounds. A run
  that goes further ends with an `OutOfFuel` error instead of running
  forever. `Executing.WhileFuel` and its siblings show that fuel only cuts
  runs short.
- Executing.EvalExpr, Executing.EvalChain, Executing.EvalLinks,
  Executing.EvalUnary: these
  contracts state the frame and invariant properties (depth, call-free
  stacks unchanged, no double bindings). The value computed is stated by
  the executor methods' equality with these functions and by the lemmas
  about calls and folds, not by a value ensures.
- Parsing.PLevel, Parsing.Layer, Parsing.LayerLoop: their contracts state
  progress and the error kind. What the layers produce is stated by
  lemmas. `AboveFactorFails` and `ExpressionNeverParses` show that, as
  written, the term, comparison and equality layers and `expression`
  produce nothing. `FactorDropsMiddleOperand` shows what the factor layer
  produces, and `FirstTokenNeverRead` that token 0 is never read.
- Executing.EvalArgs: its contract states the length and the kept prefix.
  Evaluation order and the first failing argument are stated for call-free
  arguments (`Executing.ArgsInOrder`). With a call among the arguments,
  each later argument sees the stack the earlier call left, which only
  `EvalArgs` itself states.
- Inbuilt.Modulo: a zero divisor panics in the source. It is a
  precondition here.
- The composed properties "`back` after a successful `advance` restores the
  position" (older text reader) and "`next` then `back` restores the
  position" (older token reader) follow from the two methods' contracts.
  They are not separate lemmas.

## Findings

| source | as written | input that shows it | evidently intended | confidence | as-written member | corrected member |
|---|---|---|---|---|---|---|
| src/interpreter/parser.rs:26-29, 73-135 | Each layer's first operand already runs to the end of the tokens, since the layer below only stops there. The layer's own `while let` then finds no token and fails with "... not found!". The pre-incrementing reader also skips token 0. So `expression` fails on every token list. | `[ValueToken(1), Eof]`, the scan of `1` | Each layer stops at the first token that is not its operator and hands it to the layer above. A layer with no operator yields its operand. Reading starts at token 0. | high, not executed | Parsing.ExpressionNeverParses, Parsing.FirstTokenNeverRead | CorrectedParsing.ParseFlattenedExpression, CorrectedParsing.SingleValueParses |
| src/interpreter/parser.rs:167-179 | `recursive_node` keeps the node's left operand and replaces its operator and right operand with the new ones. In a chain of three operands the middle one is lost. | the tokens `x 1 * 2 * 3`, read by the factor layer as `1 * 3` | A chain associates to the left: `(1 * 2) * 3`. | medium, not executed | Parsing.FactorDropsMiddleOperand | CorrectedParsing.FactorKeepsEveryOperand |
| src/interpreter/scanner.rs:152-174 | `handle_gr` and `handle_slash` use `advance` where `handle_bang`, `handle_eq` and `handle_le` use `peek`. The character after `>` or `/` is consumed whatever it is, and `>=` advances once more. | the text `>(`, which scans to `>` and `Eof` | `>` and `/` peek, like `!`, `=` and `<`. | high, not executed | CorrectedScanning.GreaterSkipsNext, CorrectedScanning.SlashSkipsNext, CorrectedScanning.GreaterParenWitness | CorrectedScanning.CGreaterKeepsNext, CorrectedScanning.CSlashKeepsNext, CorrectedScanning.GreaterParenWitness |
