# hawk recogniser, modelled in Dafny

hawk is a small teaching language. Its reference tool is a recursive-descent
recogniser written in Rust. It reads a program, records the trace of grammar
rules it enters, and reports one verdict at the end: nothing, one syntax error,
or the first undeclared identifier it met.

The recogniser works by changing one `Tokens` record step by step. The record
holds the input text, a cursor, a line number, the rule trace, a flag that is
set while declarations are read, the set of declared names, and a "sticky"
error slot. The sticky error is written once, for an undeclared identifier,
and is never overwritten or cleared. Before rules try an alternative they take
a snapshot of the record (`save_state`). After a failed attempt they roll back
to it (`restore_state`), but no roll-back happens once the sticky error is set.

The model has three layers: the record and its methods, a pure definition of
what each method does, and an independent reference grammar.

- `Diagnostics` (`diagnostics.dfy`) holds:
  - the error record: a message and a line;
  - the `Result` type, which `:-` propagates the way Rust's `?` does;
  - the fixed message texts.
- `Lexical` (`lexical.dfy`) defines, as pure functions on the text:
  - the character classes and the 13 reserved words;
  - line counting: `LineBreaks`;
  - the scans: whitespace (`WhitespaceEnd`), identifiers (`IdentEnd`, `IdentifierAt`), numbers (`ScanNumber`).

  Its lemmas prove those scans exact and greedy against independent definitions
  of the token languages: `IsIdentifier`, `IsNumberShape`, `IsNumeral`.
- `Semantics` (`semantics.dfy`) gives each rule as a function from the text and
  a snapshot of the record (`State`) to the snapshot after the rule and its
  result (`Outcome`). Each function makes the same calls in the same order as
  the Rust function. Their contracts use these predicates over two states:
  - `Monotone`: nothing moves backwards and the sticky error stays as it was;
  - `SectionKept`: the declaration flag and the declared set are kept;
  - `Refused`: with the sticky error set, a rule returns it and changes nothing;
  - `Entered`: a rule appends its own name to the trace before anything else;
  - `RuleStep`: all four of the above, which every rule that first consults the sticky error guarantees ("the rule contract" below);
  - `PositionOnly`: only the cursor and line number changed;
  - `Closes`: on success text was consumed and its last character is the given one.
- `Parser` (`parser.dfy`) is the record itself, as class `Tokens`. It has the
  lexical methods, with `while` loops where the Rust code has `for` loops, the
  snapshot methods, and one method per grammar rule. Every method's contract
  says that it changes the record and returns exactly what the `Semantics`
  function of the same name gives for the record before the call. The object
  invariant `Valid` says that the cursor is inside the text, that the line
  number is one more than the line feeds before the cursor, and that a sticky
  error is always "identifier not declared".
- `Grammar` (`grammar.dfy`) is the reference grammar: one ghost predicate per
  production of the rule comments at src/main.rs:158-488. `X(t, i, j)` holds
  when the text from `i` to `j` derives X, whitespace before each token
  included. As in the code, whitespace between tokens is optional and nothing
  marks a word boundary: a keyword may be followed directly by an identifier
  character.
- `Soundness` (`soundness.dfy`) proves every rule sound against `Grammar`: when
  a rule succeeds and no sticky error is set afterwards, the text it consumed
  derives its production.
- `Choice` (`choice.dfy`) proves the two backtracking disciplines against
  definitions of their own. STMT is ordered choice: the first alternative that
  succeeds wins, and every alternative starts from the same snapshot. STMT_SEC
  and DECL_SEC are greedy repetitions that roll a failed further item back.
- `Driver` (`driver.dfy`) does what `main` does apart from its I/O. It runs
  PROGRAM on a text from a fresh record and picks the verdict: the sticky error
  if one was set, otherwise the result of PROGRAM.
- `Scenarios` (`scenarios.dfy`, with the text facts in `texts.dfy`) evaluates
  three complete runs.

Some long rules in the source are modelled as the rule plus one or two helper
functions and methods, one for each later phase of the rule. Examples:
`IfStmt`/`Branches`/`Closing`, `Comp`/`Comparison`/`RightOperand`, and
`Stmt`/`Alternatives`/`Attempt`. The calls and their order are exactly those of the source.
`Attempt(rule)` is the save / try / restore-on-failure block that `stmt`
repeats for each of its five alternatives. The scanning loops of `id` and
`num` are `ScanIdentifier` and `ScanNumeral`.

Facts about the code that its rule comments do not show:

- A reserved word used as an identifier is an ordinary error (src/main.rs:236-251).
  Backtracking can absorb it, so it is not sticky. Only "identifier not declared"
  is written to the sticky slot (src/main.rs:257-260).
- The NUM rule comment at src/main.rs:429 requires a digit before the '.', but
  the scanner accepts ".5". It resets `seen_any` at the '.', so when a '.' is
  present only the digits after it matter (src/main.rs:434-453). "12." and "."
  are rejected. The model follows the scanner.
- Snapshots copy the sticky error, but `restore_state` never writes it back
  (src/main.rs:121-131). `State` holds it, and `RestoreState` leaves it unchanged.
- `peek` compares the next characters with the literal and does not require a
  word boundary (src/main.rs:81-92). So `program beginning: int; ...` takes
  `begin` out of `beginning` at src/main.rs:163-164. The missing boundary also
  lets text through: in `programx: int; begin x := 1; end;` the keyword
  `program` is taken out of `programx` (src/main.rs:162) and `id` then
  reads `x` as the declared name, so the text is accepted. The model and its
  reference grammar do the same.

## Model

| member | source | states |
|---|---|---|
| Lexical.LineBreaksCount | src/main.rs:51-62 | the line count kept by the scanner is the number of '\n' characters before the cursor |
| Lexical.LineBreaksNone | src/main.rs:51-62 | moving over text that holds no '\n' leaves the line count unchanged |
| Lexical.LineBreaksMonotone | src/main.rs:51-62 | the line count never decreases as the cursor moves forward |
| Lexical.LineBreaksLiteral | src/main.rs:71-78 | consuming a literal that holds no line feed leaves the line number as it was |
| Lexical.RunEnd | src/main.rs:51-62 | a scan over one character class stops inside the text, at the end or at the first character outside the class |
| Lexical.RunEndInClass | src/main.rs:51-62 | every character a class scan passes over belongs to the class |
| Lexical.RunEndLongest | src/main.rs:51-62 | the scan is greedy: no run of the class from the same start reaches further |
| Lexical.RunEndExact | src/main.rs:52-61 | a run of class characters that cannot be extended is exactly the run the scan finds |
| Lexical.WhitespaceEnd | src/main.rs:51-62 | whitespace skipping stops inside the text, at its end or at a character that is not whitespace |
| Lexical.WhitespaceEndIdempotent | src/main.rs:81-82 | skipping whitespace again right after skipping it does not move the cursor |
| Lexical.IdentEnd | src/main.rs:219-230 | the identifier scan consumes something exactly when a letter or '_' comes first; what it consumes is an identifier, and it stops before any further identifier character |
| Lexical.IdentEndLongest | src/main.rs:219-230 | the identifier scan is maximal: no identifier from the same position is longer |
| Lexical.IdentEndExact | src/main.rs:219-230 | an identifier that cannot be extended is exactly what the scan consumes |
| Lexical.IdentifierAt | src/main.rs:216-230 | the word `id` reads after the whitespace is non-empty exactly when a letter or '_' follows the whitespace, and then it is an identifier |
| Lexical.ScanNumber | src/main.rs:434-449 | the number scan stops inside the text, at or after its start |
| Lexical.ScanNumberShape | src/main.rs:434-448 | what the number scan consumes is digits, optionally followed by one '.' and digits |
| Lexical.ScanNumberLongest | src/main.rs:434-448 | the number scan is greedy: no longer text of that shape starts at the same position |
| Lexical.DigitsLongest | src/main.rs:434-448 | a run of digits is consumed in full |
| Lexical.DottedShapeLongest | src/main.rs:434-448 | digits, a '.' and digits are consumed in full, whatever their lengths |
| Lexical.DottedLongest | src/main.rs:434-448 | a digit run, a '.' and a digit run are consumed in full |
| Lexical.ScanNumberAccepted | src/main.rs:450-454 | the scan succeeds exactly when what it consumed is a numeral: at least one digit, or a '.' with at least one digit after it |
| Lexical.DottedAccepted | src/main.rs:441-453 | after a '.' the scan succeeds exactly when a digit follows the '.' |
| Lexical.NumeralWitness | src/main.rs:441-453 | a '.' followed by a digit, with only digits elsewhere, is a numeral |
| Lexical.NumeralDot | src/main.rs:441-453 | in a numeral whose first '.' is at a given position, a digit follows that '.' |
| Lexical.ScanNumberExamples | src/main.rs:430-455 | "12.5" and ".5" are accepted, "12." and "." are rejected, and "1.2.3" stops at the second '.' |
| Semantics.IdentifierResult | src/main.rs:232-251 | a scanned word is accepted exactly when it is non-empty and not one of the 13 reserved words |
| Semantics.Skip | src/main.rs:51-62 | the cursor moves to the end of the whitespace run, where a second skip stays; only the cursor and line change |
| Semantics.Next | src/main.rs:71-78 | success exactly when the literal follows the whitespace; the cursor then ends just after it, and the last character consumed is the literal's last; otherwise the error is `unexpected token: "q"` on the line reached after the whitespace, with the cursor there |
| Semantics.NextEndsWith | src/main.rs:71-78 | after a successful `next` the literal lies right before the cursor |
| Semantics.Id | src/main.rs:215-263 | the cursor ends after the longest identifier following the whitespace; the result is "expected an identifier" when there is none, the reserved-keyword error for the 13 words, and success otherwise; on success a name read inside the declarations is added to the declared set; outside them the declared set is kept, the sticky error changes only from none to "identifier not declared", for an undeclared name, and an undeclared name read with no sticky error set does set it; the trace is untouched |
| Semantics.Num | src/main.rs:430-455 | the cursor ends where the number scan after the whitespace stops, even on failure; success exactly when the consumed text is a numeral; otherwise "expected a number" |
| Semantics.Type | src/main.rs:489-501 | after the whitespace `int`, `float` and `double` are tried in this order and consumed in full; otherwise the type error, at the cursor after the whitespace |
| Semantics.Program | src/main.rs:159-173 | a set sticky error is returned and nothing changes; otherwise PROGRAM is traced first; success consumes text ending in ';', and DECL_SEC or STMT_SEC is the next trace entry |
| Semantics.Body | src/main.rs:162-172 | success consumes text ending in ';'; without a sticky error, DECL_SEC or STMT_SEC is the next trace entry |
| Semantics.Preamble | src/main.rs:162-167 | the sticky error is unchanged; success consumes text that ends with `begin` |
| Semantics.DeclSec | src/main.rs:176-189 | DECL_SEC is traced without any look at the sticky error; with one set, the result is that error and only the flag and the trace entry change; success exactly when the flag is clear afterwards; the declared set only grows; the sticky error never changes |
| Semantics.Decl | src/main.rs:192-200 | the rule contract; success consumes text ending in ';' |
| Semantics.IdList | src/main.rs:203-212 | the rule contract; success consumes text |
| Semantics.StmtSec | src/main.rs:266-276 | the rule contract; success consumes text |
| Semantics.Stmt | src/main.rs:279-308 | the rule contract; success consumes text ending in ';' |
| Semantics.Attempt | src/main.rs:282-286 | one alternative of STMT: success consumes text ending in ';' and traces the alternative next; a failure that leaves no sticky error leaves exactly the state before the attempt; a set sticky error is returned unchanged |
| Semantics.Alternatives | src/main.rs:297-307 | the INPUT and OUTPUT alternatives of STMT and the error after them: kept bookkeeping; success consumes text ending in ';' |
| Semantics.Assign | src/main.rs:311-319 | the rule contract; success consumes text ending in ';' |
| Semantics.IfStmt | src/main.rs:322-337 | the rule contract; success consumes text ending in ';' |
| Semantics.Branches | src/main.rs:327-336 | progress and kept bookkeeping; a set sticky error is returned unchanged; success consumes text ending in ';' |
| Semantics.Closing | src/main.rs:332-334 | only the position changes; success consumes text ending in ';' |
| Semantics.WhileStmt | src/main.rs:340-351 | the rule contract; success consumes text ending in ';' |
| Semantics.LoopBody | src/main.rs:344-350 | progress and kept bookkeeping; success consumes text ending in ';' |
| Semantics.Input | src/main.rs:354-361 | the rule contract; success consumes text ending in ';' |
| Semantics.Output | src/main.rs:364-377 | the rule contract; success consumes text ending in ';' |
| Semantics.Written | src/main.rs:367-376 | progress and kept bookkeeping; success consumes text ending in ';' |
| Semantics.Expr | src/main.rs:380-392 | the rule contract; success consumes text |
| Semantics.ExprTail | src/main.rs:383-390 | with neither `+` nor `-` next, only the whitespace is skipped and the result is success |
| Semantics.Factor | src/main.rs:395-407 | the rule contract; success consumes text |
| Semantics.FactorTail | src/main.rs:398-405 | with neither `*` nor `/` next, only the whitespace is skipped and the result is success |
| Semantics.Operand | src/main.rs:410-427 | ordered choice. When a numeral follows, the outcome is exactly that number, with OPERAND traced. When a non-reserved identifier follows instead, the result is success, the cursor is after the identifier and only OPERAND is traced. Otherwise the outcome is exactly that of the parenthesised alternative. All of this under the rule contract |
| Semantics.Parenthesized | src/main.rs:423-425 | success consumes text ending in ')' and traces EXPR next |
| Semantics.Comp | src/main.rs:458-486 | the rule contract; success consumes text ending in ')' |
| Semantics.Comparison | src/main.rs:463-485 | with none of `=`, `<>`, `>`, `<` next, the error is "expected a comparison operator" at the cursor after the whitespace; success consumes text ending in ')' |
| Semantics.RightOperand | src/main.rs:465-466 | kept bookkeeping; success consumes text ending in ')' |
| Parser.Tokens.constructor | src/main.rs:38-48 | a fresh record: cursor 0, line 1, empty trace, outside the declarations, nothing declared, no sticky error |
| Parser.Tokens.SaveState | src/main.rs:109-119 | the snapshot holds exactly the six mutable fields |
| Parser.Tokens.RestoreState | src/main.rs:121-131 | with a sticky error set nothing changes; otherwise cursor, line, trace, flag and declared set are the snapshot's, and there is still no sticky error |
| Parser.Tokens.Push | src/main.rs:105-107 | the rule name is appended to the trace and nothing else changes |
| Parser.Tokens.CheckConsistency | src/main.rs:94-99 | success exactly when no sticky error is set; otherwise the sticky error itself |
| Parser.Tokens.Error | src/main.rs:101-103 | an error with the given message on the current line |
| Parser.Tokens.SkipWhitespace | src/main.rs:51-62 | the loop changes the record exactly as `Semantics.Skip` |
| Parser.Tokens.Peek | src/main.rs:81-92 | the whitespace is skipped as by `Semantics.Skip`, and the answer is whether the literal follows it |
| Parser.Tokens.Next | src/main.rs:71-78 | the record and result are exactly `Semantics.Next`'s |
| Parser.Tokens.Id | src/main.rs:215-263 | the record and result are exactly `Semantics.Id`'s |
| Parser.Tokens.ScanIdentifier | src/main.rs:219-230 | the loop consumes exactly the identifier at the cursor and returns it, and reports whether it was empty; only the position changes |
| Parser.Tokens.Num | src/main.rs:430-455 | the record and result are exactly `Semantics.Num`'s |
| Parser.Tokens.ScanNumeral | src/main.rs:434-449 | the loop stops where the number scan stops and reports whether the scan accepts; only the position changes |
| Parser.Tokens.Type | src/main.rs:489-501 | the record and result are exactly `Semantics.Type`'s |
| Parser.Tokens.Program | src/main.rs:159-173 | the record and result are exactly `Semantics.Program`'s, so `Soundness.ProgramSound` and the scenarios hold of the method |
| Parser.Tokens.Body | src/main.rs:162-172 | the record and result are exactly `Semantics.Body`'s |
| Parser.Tokens.Preamble | src/main.rs:162-167 | the record and result are exactly `Semantics.Preamble`'s |
| Parser.Tokens.DeclSec | src/main.rs:176-189 | the record and result are exactly `Semantics.DeclSec`'s |
| Parser.Tokens.Decl | src/main.rs:192-200 | the record and result are exactly `Semantics.Decl`'s |
| Parser.Tokens.IdList | src/main.rs:203-212 | the record and result are exactly `Semantics.IdList`'s |
| Parser.Tokens.StmtSec | src/main.rs:266-276 | the record and result are exactly `Semantics.StmtSec`'s |
| Parser.Tokens.Stmt | src/main.rs:279-308 | the record and result are exactly `Semantics.Stmt`'s |
| Parser.Tokens.Attempt | src/main.rs:282-286 | the record and result are exactly `Semantics.Attempt`'s |
| Parser.Tokens.Assign | src/main.rs:311-319 | the record and result are exactly `Semantics.Assign`'s |
| Parser.Tokens.IfStmt | src/main.rs:322-337 | the record and result are exactly `Semantics.IfStmt`'s |
| Parser.Tokens.Branches | src/main.rs:327-336 | the record and result are exactly `Semantics.Branches`'s |
| Parser.Tokens.Closing | src/main.rs:332-334 | the record and result are exactly `Semantics.Closing`'s |
| Parser.Tokens.WhileStmt | src/main.rs:340-351 | the record and result are exactly `Semantics.WhileStmt`'s |
| Parser.Tokens.LoopBody | src/main.rs:344-350 | the record and result are exactly `Semantics.LoopBody`'s |
| Parser.Tokens.Input | src/main.rs:354-361 | the record and result are exactly `Semantics.Input`'s |
| Parser.Tokens.Output | src/main.rs:364-377 | the record and result are exactly `Semantics.Output`'s |
| Parser.Tokens.Written | src/main.rs:367-376 | the record and result are exactly `Semantics.Written`'s |
| Parser.Tokens.Expr | src/main.rs:380-392 | the record and result are exactly `Semantics.Expr`'s |
| Parser.Tokens.ExprTail | src/main.rs:383-390 | the record and result are exactly `Semantics.ExprTail`'s |
| Parser.Tokens.Factor | src/main.rs:395-407 | the record and result are exactly `Semantics.Factor`'s |
| Parser.Tokens.FactorTail | src/main.rs:398-405 | the record and result are exactly `Semantics.FactorTail`'s |
| Parser.Tokens.Operand | src/main.rs:410-427 | the record and result are exactly `Semantics.Operand`'s |
| Parser.Tokens.Parenthesized | src/main.rs:423-425 | the record and result are exactly `Semantics.Parenthesized`'s |
| Parser.Tokens.Comp | src/main.rs:458-486 | the record and result are exactly `Semantics.Comp`'s |
| Parser.Tokens.Comparison | src/main.rs:463-485 | the record and result are exactly `Semantics.Comparison`'s |
| Parser.Tokens.RightOperand | src/main.rs:465-466 | the record and result are exactly `Semantics.RightOperand`'s |
| Grammar.SpacedToEnd | src/main.rs:51-62 | every character whitespace skipping passes over is whitespace |
| Soundness.NextSound | src/main.rs:71-78 | a successful `next` consumed whitespace and then exactly the literal |
| Soundness.IdSound | src/main.rs:214-263 | a successful ID consumed whitespace and then a non-reserved identifier (Rule 05) |
| Soundness.NumSound | src/main.rs:429-455 | a successful NUM consumed whitespace and then a numeral |
| Soundness.TypeSound | src/main.rs:488-501 | a successful TYPE consumed `int`, `float` or `double` (Rule 18) |
| Soundness.ProgramSound | src/main.rs:158-173 | a PROGRAM that succeeds without a sticky error consumed `program [DECL_SEC] begin STMT_SEC end ;` (Rule 01) |
| Soundness.BodySound | src/main.rs:162-172 | the part after `program`, under the same condition, consumed `[DECL_SEC] begin STMT_SEC end ;` |
| Soundness.PreambleSound | src/main.rs:162-167 | the preamble, under the same condition, consumed `begin` or `DECL_SEC begin` |
| Soundness.DeclSecSound | src/main.rs:175-189 | a DECL_SEC that succeeds without a sticky error consumed one or more DECL (Rule 02) |
| Soundness.DeclSound | src/main.rs:191-200 | a DECL that succeeds without a sticky error consumed `ID_LIST : TYPE ;` (Rule 03) |
| Soundness.IdListSound | src/main.rs:202-212 | an ID_LIST that succeeds without a sticky error consumed `ID { , ID }` followed only by whitespace (Rule 04) |
| Soundness.StmtSecSound | src/main.rs:265-276 | a STMT_SEC that succeeds without a sticky error consumed one or more STMT (Rule 06) |
| Soundness.StmtSound | src/main.rs:278-308 | a STMT that succeeds without a sticky error consumed an ASSIGN, IF_STMT, WHILE_STMT, INPUT or OUTPUT (Rule 07) |
| Soundness.FirstStatementSound | src/main.rs:279-308 | the same for the ordered choice of `Choice` over any list of statement alternatives |
| Soundness.AttemptSound | src/main.rs:282-286 | one alternative of STMT that succeeds without a sticky error consumed a STMT |
| Soundness.AssignSound | src/main.rs:310-319 | an ASSIGN that succeeds without a sticky error consumed `ID := EXPR ;` (Rule 08) |
| Soundness.IfStmtSound | src/main.rs:321-337 | an IF_STMT that succeeds without a sticky error consumed `if COMP then STMT_SEC [else STMT_SEC] end if ;` (Rule 09) |
| Soundness.BranchesSound | src/main.rs:327-336 | the part after `then`, under the same condition, consumed `STMT_SEC [else STMT_SEC] end if ;` |
| Soundness.ClosingSound | src/main.rs:332-334 | a successful closing consumed `end`, the keyword and `;` |
| Soundness.WhileStmtSound | src/main.rs:339-351 | a WHILE_STMT that succeeds without a sticky error consumed `while COMP loop STMT_SEC end loop ;` (Rule 10) |
| Soundness.LoopBodySound | src/main.rs:344-350 | the part after the condition, under the same condition, consumed `loop STMT_SEC end loop ;` |
| Soundness.InputSound | src/main.rs:353-361 | an INPUT that succeeds without a sticky error consumed `input ID_LIST ;` (Rule 11) |
| Soundness.OutputSound | src/main.rs:363-377 | an OUTPUT that succeeds without a sticky error consumed `output ID_LIST ;` or `output NUM ;` (Rule 12) |
| Soundness.WrittenSound | src/main.rs:367-376 | the part after `output`, under the same condition, consumed `ID_LIST ;` or `NUM ;` |
| Soundness.ExprSound | src/main.rs:379-392 | an EXPR that succeeds without a sticky error consumed `FACTOR`, `FACTOR + EXPR` or `FACTOR - EXPR` followed only by whitespace (Rule 13) |
| Soundness.FactorSound | src/main.rs:394-407 | a FACTOR that succeeds without a sticky error consumed `OPERAND`, `OPERAND * FACTOR` or `OPERAND / FACTOR` followed only by whitespace (Rule 14) |
| Soundness.OperandSound | src/main.rs:409-427 | an OPERAND that succeeds without a sticky error consumed a NUM, an ID or `( EXPR )` (Rule 15) |
| Soundness.ParenthesizedSound | src/main.rs:423-425 | the parenthesised alternative, under the same condition, consumed `( EXPR )` |
| Soundness.CompSound | src/main.rs:457-486 | a COMP that succeeds without a sticky error consumed `( OPERAND op OPERAND )` with op one of `=`, `<>`, `>`, `<` (Rule 17) |
| Soundness.ComparisonSound | src/main.rs:463-485 | the part after the first operand, under the same condition, consumed an operator, an OPERAND and `)` |
| Choice.AttemptsRefused | src/main.rs:279-308 | once the sticky error is set, every remaining alternative returns it and changes nothing |
| Choice.StmtChoice | src/main.rs:279-308 | STMT is ordered choice among ASSIGN, IF_STMT, WHILE_STMT, INPUT, OUTPUT: each is tried from the state after STMT is traced, the first success is the outcome, and "expected a statement" follows when all fail |
| Choice.StmtSecRepeat | src/main.rs:266-276 | STMT_SEC succeeds exactly when its first STMT does; then the further STMT_SEC's success is the outcome, and its failure without a sticky error leaves the state exactly as after the first STMT |
| Choice.StmtSecMaximal | src/main.rs:266-276 | STMT_SEC is greedy: where a successful section stops without a sticky error, no further section can be recognised |
| Choice.DeclSecFlag | src/main.rs:176-177 | DECL_SEC sets the declaration flag itself, so the flag it is entered with does not matter |
| Choice.DeclSecRepeat | src/main.rs:176-189 | DECL_SEC succeeds exactly when its first DECL does; then the further DECL_SEC's state is kept on success and the state after the first DECL on failure, with the flag cleared either way |
| Choice.DeclSecMaximal | src/main.rs:176-189 | DECL_SEC is greedy: where a successful section stops, no further section can be recognised |
| Choice.WrittenChoice | src/main.rs:367-376 | the OUTPUT operand is ordered choice: when the identifier list succeeds, `;` must follow it; when it fails without a sticky error, a number is read from the snapshot before the list, then `;` |
| Choice.WrittenNumber | src/main.rs:367-376 | with no identifier after `output`, the number branch is taken and no ID_LIST is traced |
| Choice.PreambleChoice | src/main.rs:162-167 | with `begin` next the preamble is just `begin` and the trace is unchanged; otherwise DECL_SEC is traced |
| Scenarios.AcceptedRun | src/main.rs:11-24 | `program x: int; begin x := 3; output x; end;` is accepted, with trace PROGRAM, DECL_SEC, DECL, ID_LIST, STMT_SEC, STMT, ASSIGN, EXPR, FACTOR, OPERAND, STMT_SEC, STMT, OUTPUT, ID_LIST |
| Scenarios.UndeclaredRun | src/main.rs:254-260 | `program begin y := 1; end;` is reported as "identifier not declared" on line 1; the trace is PROGRAM, STMT_SEC, STMT, ASSIGN, and PROGRAM itself fails with "expected a statement" on line 1 |
| Scenarios.NumberRun | src/main.rs:364-377 | `program begin output 5; end;` is accepted through the number branch of OUTPUT, with trace PROGRAM, STMT_SEC, STMT, OUTPUT |
| Driver.Run | src/main.rs:11-12 | from a fresh record the run ends in a consistent state whose trace starts with PROGRAM |
| Driver.Verdict | src/main.rs:18-24 | the verdict is success exactly when there is no sticky error and the recognition succeeded; a sticky error is preferred, otherwise the recognition result |
| Driver.Report | src/main.rs:11-24 | the reported verdict is success exactly when PROGRAM succeeded and no sticky error is left; a left sticky error is reported, otherwise PROGRAM's result |
| Driver.RunSound | src/main.rs:11-24 | a text reported as correct is derived by PROGRAM up to the `;` after `end` |
| Driver.Check | src/main.rs:11-24 | running the record on the text returns the trace and result of `Run`, and the verdict of `Report` |

## Left out

- `main`'s I/O (src/main.rs:3-16). Locating and reading `input.hawk` and printing the trace and verdict are input/output. `Driver.Check` takes the text as a parameter and returns the trace, the result and the verdict. `Driver.Name` gives each trace entry's printed text.
- `debug` (src/main.rs:64-68): it only prints.
- The `Display` and `Error` implementations of `SyntaxError` (src/main.rs:149-155): they only format text. Errors stay as (message, line) pairs.
- Unicode. The input is taken to be ASCII, so character positions and byte positions agree. `is_alphabetic` and `is_whitespace` become the ASCII letters and the six ASCII whitespace characters.
- The declared-names `HashMap<String, bool>` is a `set<string>`, because only membership is ever asked.
- Machine integers. `usize` cursor and line counters are unbounded naturals. The cursor never exceeds the text length, so no overflow can occur.
- Text after the final `;` of PROGRAM is not examined by the code. The model does not examine it either, so `Driver.RunSound` speaks of the text up to that `;`.
- Parser.Tokens.Next: requires a non-empty literal with no line feed. Every call in the grammar passes such a literal. The model does not cover what the code does with other literals: an empty one is matched without progress, and a line feed inside one is not counted.
- Parser.Tokens.Closing: requires a non-empty keyword without a line feed, for the same reason as `Next`.
- Soundness.ProgramSound: states one direction only, from acceptance to derivation. The other direction is false for the code. `peek` has no word boundary, so `program beginning: int; begin beginning := 1; end;` derives PROGRAM but is rejected: `begin` is taken out of `beginning` (src/main.rs:163-164), then `ning` is an undeclared name and sets the sticky error (src/main.rs:257-259). The same holds for every rule below PROGRAM.
- Soundness.StmtSound and the other rule lemmas: assume no sticky error after the rule. Once the sticky error is set nothing is rolled back, so a success then says nothing about the text consumed.
- Soundness.IdListSound, Soundness.ExprSound, Soundness.FactorSound: the derivation ends before the whitespace that the closing look-ahead for `,` or an operator skipped.
- Semantics.Program, Semantics.Body, Semantics.Preamble: their own contracts state the bookkeeping and the final `;` or `begin`. What they accept is stated by `Soundness.ProgramSound`, `BodySound` and `PreambleSound`, and which branch is taken by `Choice.PreambleChoice`.
- Semantics.DeclSec and Semantics.StmtSec: their own contracts state the bookkeeping. The repetition is stated by `Choice.DeclSecRepeat`, `Choice.DeclSecMaximal`, `Choice.StmtSecRepeat` and `Choice.StmtSecMaximal`, and the accepted text by `Soundness.DeclSecSound` and `Soundness.StmtSecSound`.
- Semantics.Stmt: its own contract states the bookkeeping. Ordered choice is stated by `Choice.StmtChoice` and the accepted text by `Soundness.StmtSound`.
- Semantics.Decl, Semantics.IdList, Semantics.Assign, Semantics.IfStmt, Semantics.WhileStmt, Semantics.Input, Semantics.Output, Semantics.Expr, Semantics.Factor, Semantics.Comp: their own contracts state the rule contract and how the consumed text ends. The production each accepts is stated by the `Soundness` lemma of the same name.
- Semantics.Branches, Semantics.Closing, Semantics.LoopBody, Semantics.Written, Semantics.Parenthesized, Semantics.Comparison, Semantics.RightOperand: the same for these rule phases. `Soundness` states what each accepts, `Choice.WrittenChoice` the order of the OUTPUT alternatives, and `Soundness.ComparisonSound` that the comparison consumed one of `=`, `<>`, `>`, `<`, an OPERAND and `)`.
- Semantics.Alternatives: its own contract states the bookkeeping. Its place in the ordered choice of STMT is stated by `Choice.StmtChoice`, and what STMT accepts by `Soundness.StmtSound`.
- Semantics.ExprTail and Semantics.FactorTail: their own contracts state the case with no operator. What EXPR and FACTOR accept with their operator parts is stated by `Soundness.ExprSound` and `Soundness.FactorSound`, and what a comparison accepts by `Soundness.ComparisonSound`. The lemmas that unfold these bodies one branch at a time are proof steps only.
