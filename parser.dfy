/**
 * The hawk recogniser as the mutable `Tokens` record: its lexical methods, the
 * snapshot mechanism used for backtracking, and one method per grammar rule.
 * Every method changes the record exactly as the function of the same name in
 * `Semantics` says, and returns that function's result.
 */
module Parser {
  import opened Diagnostics
  import opened Lexical
  import opened Semantics

  class Tokens {
    /** The whole input text; it never changes. */
    const tokens: string
    var cursor: nat
    var line: nat
    /** The trace of the rules entered. */
    var outputs: seq<Rule>
    /** True while the declaration section is being recognised. */
    var declSection: bool
    /** The names declared so far; only membership is ever asked. */
    var declared: set<string>
    /** The sticky error: once set it is never cleared or replaced. */
    var critical: Option<SyntaxError>

    /**
     * A state of a parser of `tokens`: the state is consistent, and the line
     * number is one more than the line breaks before the cursor.
     */
    ghost predicate Snapshot(s: State) {
      Consistent(tokens, s) && s.line == 1 + LineBreaks(tokens, s.cursor)
    }

    /** The object invariant. */
    ghost predicate Valid()
      reads this
    {
      Snapshot(SaveState())
    }

    constructor (tokens: string)
      ensures Valid()
      ensures this.tokens == tokens && SaveState() == Initial
    {
      this.tokens := tokens;
      cursor := 0;
      line := 1;
      outputs := [];
      declSection := false;
      declared := {};
      critical := None;
    }

    // ----- the record -----

    /** A copy of all six mutable fields. */
    function SaveState(): (s: State)
      reads this
      ensures s.cursor == cursor && s.line == line && s.outputs == outputs
      ensures s.declSection == declSection && s.declared == declared && s.critical == critical
    {
      State(cursor, line, outputs, declSection, declared, critical)
    }

    /**
     * Rolls back to an earlier state of this parser, unless a sticky error is
     * set, in which case nothing changes. The sticky error is never restored.
     */
    method RestoreState(state: State)
      requires Valid() && Snapshot(state)
      modifies this
      ensures Valid() && SaveState() == Restore(old(SaveState()), state)
    {
      if critical.Some? {
        return;
      }
      cursor := state.cursor;
      line := state.line;
      outputs := state.outputs;
      declSection := state.declSection;
      declared := state.declared;
    }

    /** Appends a rule name to the trace. */
    method Push(output: Rule)
      requires Valid()
      modifies this
      ensures Valid() && SaveState() == Semantics.Push(old(SaveState()), output)
    {
      outputs := outputs + [output];
    }

    /** The stored sticky error, if there is one. */
    function CheckConsistency(): (r: Result)
      reads this
      ensures r.Ok? <==> critical.None?
      ensures r.Err? ==> r.error == critical.value
    {
      match critical
      case Some(e) => Err(e)
      case None => Ok
    }

    /** A syntax error with the given message, reported on the current line. */
    function Error(message: string): (r: Result)
      reads this
      ensures r.Err? && r.error.message == message && r.error.line == line
    {
      Err(SyntaxError(message, line))
    }

    // ----- lexical layer -----

    /** Skips whitespace, counting one line per line feed skipped. */
    method SkipWhitespace()
      requires Valid()
      modifies this
      ensures Valid() && SaveState() == Skip(tokens, old(SaveState()))
    {
      ghost var before := SaveState();
      while cursor < |tokens|
        invariant before.cursor <= cursor <= |tokens|
        invariant WhitespaceEnd(tokens, cursor) == WhitespaceEnd(tokens, before.cursor)
        invariant line == 1 + LineBreaks(tokens, cursor)
        invariant SaveState() == before.(cursor := cursor, line := line)
      {
        var c := tokens[cursor];
        if c == '\n' {
          line := line + 1;
          cursor := cursor + 1;
        } else if IsWhitespace(c) {
          cursor := cursor + 1;
        } else {
          break;
        }
      }
    }

    /** Skips whitespace, then tells whether `query` comes next, without consuming it. */
    method Peek(query: string) returns (found: bool)
      requires Valid()
      modifies this
      ensures Valid() && SaveState() == Skip(tokens, old(SaveState()))
      ensures found == Semantics.Peek(tokens, old(SaveState()), query)
    {
      SkipWhitespace();
      found := cursor + |query| <= |tokens| && tokens[cursor..cursor + |query|] == query;
    }

    /**
     * Consumes the literal `query` after any whitespace, or fails naming it, with
     * the line reached after the whitespace. Every literal of the grammar is
     * non-empty and holds no line break.
     */
    method Next(query: string) returns (r: Result)
      requires Valid() && |query| > 0 && '\n' !in query
      modifies this
      ensures Valid() && Outcome(SaveState(), r) == Semantics.Next(tokens, old(SaveState()), query)
    {
      var found := Peek(query);
      if found {
        LineBreaksLiteral(tokens, cursor, query);
        cursor := cursor + |query|;
        r := Ok;
      } else {
        r := Error(UnexpectedToken(query));
      }
    }

    /**
     * ID: skips whitespace and consumes the longest identifier there. A reserved
     * word is an ordinary error. Inside the declaration section the name is
     * recorded; outside it an undeclared name sets the sticky error, unless one is
     * set already, and the identifier still succeeds.
     */
    method Id() returns (r: Result)
      requires Valid()
      modifies this
      ensures Valid() && Outcome(SaveState(), r) == Semantics.Id(tokens, old(SaveState()))
    {
      SkipWhitespace();
      var identifier, firstChar := ScanIdentifier();
      if firstChar {
        r := Error(ExpectedIdentifier);
        return;
      }
      if identifier in Keywords {
        r := Error(ReservedKeyword(identifier));
        return;
      }
      if declSection {
        declared := declared + {identifier};
      } else if identifier !in declared && critical.None? {
        critical := Some(SyntaxError(NotDeclared, line));
      }
      r := Ok;
    }

    /**
     * The scanning loop of ID: consumes a letter or '_' and then letters, digits
     * and '_'; `firstChar` stays true when no identifier starts at the cursor.
     */
    method ScanIdentifier() returns (identifier: string, firstChar: bool)
      requires Valid()
      modifies this
      ensures Valid() && SaveState() == At(tokens, old(SaveState()), IdentEnd(tokens, old(cursor)))
      ensures identifier == tokens[old(cursor)..cursor]
      ensures firstChar <==> identifier == []
    {
      ghost var before := SaveState();
      identifier := "";
      firstChar := true;
      while cursor < |tokens|
        invariant before.cursor <= cursor <= |tokens|
        invariant identifier == tokens[before.cursor..cursor]
        invariant firstChar <==> cursor == before.cursor
        invariant cursor > before.cursor ==> IsIdentStart(tokens[before.cursor])
        invariant forall k :: before.cursor < k < cursor ==> IsIdentChar(tokens[k])
        invariant SaveState() == before.(cursor := cursor)
      {
        var c := tokens[cursor];
        assert tokens[before.cursor..cursor + 1] == identifier + [c];
        if IsLetter(c) || c == '_' {
          cursor := cursor + 1;
          identifier := identifier + [c];
          firstChar := false;
        } else if IsDigit(c) && !firstChar {
          cursor := cursor + 1;
          identifier := identifier + [c];
        } else {
          break;
        }
      }
      if !firstChar {
        IdentEndExact(tokens, before.cursor, cursor);
        LineBreaksNone(tokens, before.cursor, cursor);
      }
    }

    /**
     * NUM: skips whitespace, then consumes digits, at most one '.', and digits;
     * it fails unless a digit follows the '.' (or, without a '.', unless a digit
     * was consumed). The cursor stays where the scan stopped even on failure.
     */
    method Num() returns (r: Result)
      requires Valid()
      modifies this
      ensures Valid() && Outcome(SaveState(), r) == Semantics.Num(tokens, old(SaveState()))
    {
      SkipWhitespace();
      var seenAny := ScanNumeral();
      if !seenAny {
        r := Error(ExpectedNumber);
        return;
      }
      r := Ok;
    }

    /**
     * The scanning loop of NUM: a second '.' stops it, and `seenAny` tells
     * whether a digit was consumed since the start or since the '.'.
     */
    method ScanNumeral() returns (seenAny: bool)
      requires Valid()
      modifies this
      ensures Valid() && SaveState() == At(tokens, old(SaveState()), ScanNumber(tokens, old(cursor)).end)
      ensures seenAny == ScanNumber(tokens, old(cursor)).accepted
    {
      var decimal := false;
      seenAny := false;
      ghost var before := SaveState();
      ghost var dot := cursor;
      while cursor < |tokens|
        invariant before.cursor <= dot <= cursor <= |tokens|
        invariant !decimal ==> dot == before.cursor && (seenAny <==> cursor > before.cursor)
        invariant decimal ==> dot < cursor && tokens[dot] == '.' && (seenAny <==> cursor > dot + 1)
        invariant forall k :: before.cursor <= k < dot ==> IsDigit(tokens[k])
        invariant forall k :: dot <= k < cursor && (decimal ==> k != dot) ==> IsDigit(tokens[k])
        invariant SaveState() == before.(cursor := cursor)
      {
        var c := tokens[cursor];
        if IsDigit(c) {
          seenAny := true;
          cursor := cursor + 1;
        } else if c == '.' {
          if decimal {
            break;
          }
          decimal := true;
          seenAny := false;
          dot := cursor;
          cursor := cursor + 1;
        } else {
          break;
        }
      }
      if decimal {
        RunEndExact(tokens, before.cursor, dot, Digit);
        RunEndExact(tokens, dot + 1, cursor, Digit);
      } else {
        RunEndExact(tokens, before.cursor, cursor, Digit);
      }
      LineBreaksNone(tokens, before.cursor, cursor);
    }

    /** TYPE -> int | float | double, checked in this order after any whitespace. */
    method Type() returns (r: Result)
      requires Valid()
      modifies this
      ensures Valid() && Outcome(SaveState(), r) == Semantics.Type(tokens, old(SaveState()))
    {
      var isInt := Peek("int");
      if isInt {
        r := Next("int");
        return;
      }
      var isFloat := Peek("float");
      if isFloat {
        r := Next("float");
        return;
      }
      var isDouble := Peek("double");
      if isDouble {
        r := Next("double");
        return;
      }
      r := Error(ExpectedType);
    }

    // ----- PROGRAM and the declarations -----

    /** PROGRAM -> program [DECL_SEC] begin STMT_SEC end ; */
    method Program() returns (r: Result)
      requires Valid()
      modifies this
      ensures Valid() && Outcome(SaveState(), r) == Semantics.Program(tokens, old(SaveState()))
    {
      r := CheckConsistency();
      if r.Err? {
        return;
      }
      Push(PROGRAM);
      r := Next("program");
      if r.Err? {
        return;
      }
      r := Body();
    }

    /** The part of PROGRAM after `program`: [DECL_SEC] begin STMT_SEC end ; */
    method Body() returns (r: Result)
      requires Valid()
      modifies this
      ensures Valid() && Outcome(SaveState(), r) == Semantics.Body(tokens, old(SaveState()))
    {
      r := Preamble();
      if r.Err? {
        return;
      }
      :- StmtSec();
      :- Next("end");
      r := Next(";");
    }

    /** The `[DECL_SEC] begin` part of PROGRAM: the declarations are recognised unless `begin` comes first. */
    method Preamble() returns (r: Result)
      requires Valid()
      modifies this
      ensures Valid() && Outcome(SaveState(), r) == Semantics.Preamble(tokens, old(SaveState()))
    {
      var begin := Peek("begin");
      if begin {
        r := Next("begin");
      } else {
        :- DeclSec();
        r := Next("begin");
      }
    }

    /**
     * DECL_SEC -> DECL { DECL }: greedy; a failed further declaration is rolled
     * back and ignored. Pushes its name without looking at the sticky error.
     */
    method DeclSec() returns (r: Result)
      requires Valid()
      modifies this
      decreases |tokens| - cursor
      ensures Valid() && Outcome(SaveState(), r) == Semantics.DeclSec(tokens, old(SaveState()))
    {
      declSection := true;
      Push(DECL_SEC);
      r := Decl();
      if r.Err? {
        return;
      }
      var state := SaveState();
      var rest := DeclSec();
      if rest.Err? {
        RestoreState(state);
      }
      declSection := false;
      r := Ok;
    }

    /** DECL -> ID_LIST : TYPE ; */
    method Decl() returns (r: Result)
      requires Valid()
      modifies this
      ensures Valid() && Outcome(SaveState(), r) == Semantics.Decl(tokens, old(SaveState()))
    {
      r := CheckConsistency();
      if r.Err? {
        return;
      }
      Push(DECL);
      :- IdList();
      :- Next(":");
      :- Type();
      :- Next(";");
      r := Ok;
    }

    /** ID_LIST -> ID { , ID } */
    method IdList() returns (r: Result)
      requires Valid()
      modifies this
      decreases |tokens| - cursor
      ensures Valid() && Outcome(SaveState(), r) == Semantics.IdList(tokens, old(SaveState()))
    {
      r := CheckConsistency();
      if r.Err? {
        return;
      }
      Push(ID_LIST);
      :- Id();
      var comma := Peek(",");
      if comma {
        var consumed := Next(",");
        r := IdList();
        return;
      }
      r := Ok;
    }

    // ----- statements -----

    /** STMT_SEC -> STMT { STMT }: greedy; a failed further statement is rolled back and ignored. */
    method StmtSec() returns (r: Result)
      requires Valid()
      modifies this
      decreases |tokens| - cursor, 5
      ensures Valid() && Outcome(SaveState(), r) == Semantics.StmtSec(tokens, old(SaveState()))
    {
      r := CheckConsistency();
      if r.Err? {
        return;
      }
      Push(STMT_SEC);
      :- Stmt();
      var state := SaveState();
      var rest := StmtSec();
      if rest.Err? {
        RestoreState(state);
      }
      r := Ok;
    }

    /**
     * STMT -> ASSIGN | IF_STMT | WHILE_STMT | INPUT | OUTPUT, tried in this order;
     * each failed attempt is rolled back before the next one.
     */
    method Stmt() returns (r: Result)
      requires Valid()
      modifies this
      decreases |tokens| - cursor, 4
      ensures Valid() && Outcome(SaveState(), r) == Semantics.Stmt(tokens, old(SaveState()))
    {
      r := CheckConsistency();
      if r.Err? {
        return;
      }
      Push(STMT);
      r := Attempt(ASSIGN);
      if r.Ok? {
        return;
      }
      r := Attempt(IF_STMT);
      if r.Ok? {
        return;
      }
      r := Attempt(WHILE_STMT);
      if r.Ok? {
        return;
      }
      r := Attempt(INPUT);
      if r.Ok? {
        return;
      }
      r := Attempt(OUTPUT);
      if r.Ok? {
        return;
      }
      r := Error(ExpectedStatement);
    }

    /**
     * One attempt of STMT: saves the state, runs the alternative `rule`, and
     * restores the saved state if the alternative fails.
     */
    method Attempt(rule: Rule) returns (r: Result)
      requires Valid() && rule in StatementRules
      modifies this
      decreases |tokens| - cursor, 3
      ensures Valid() && Outcome(SaveState(), r) == Semantics.Attempt(tokens, old(SaveState()), rule)
    {
      var state := SaveState();
      match rule {
        case ASSIGN => r := Assign();
        case IF_STMT => r := IfStmt();
        case WHILE_STMT => r := WhileStmt();
        case INPUT => r := Input();
        case OUTPUT => r := Output();
      }
      if r.Err? {
        RestoreState(state);
      }
    }

    /** ASSIGN -> ID := EXPR ; */
    method Assign() returns (r: Result)
      requires Valid()
      modifies this
      decreases |tokens| - cursor, 2
      ensures Valid() && Outcome(SaveState(), r) == Semantics.Assign(tokens, old(SaveState()))
    {
      r := CheckConsistency();
      if r.Err? {
        return;
      }
      Push(ASSIGN);
      :- Id();
      :- Next(":=");
      :- Expr();
      :- Next(";");
      r := Ok;
    }

    /** IF_STMT -> if COMP then STMT_SEC [ else STMT_SEC ] end if ; */
    method IfStmt() returns (r: Result)
      requires Valid()
      modifies this
      decreases |tokens| - cursor, 2
      ensures Valid() && Outcome(SaveState(), r) == Semantics.IfStmt(tokens, old(SaveState()))
    {
      r := CheckConsistency();
      if r.Err? {
        return;
      }
      Push(IF_STMT);
      :- Next("if");
      :- Comp();
      :- Next("then");
      r := Branches();
    }

    /** The part of IF_STMT after `then`: STMT_SEC [ else STMT_SEC ] end if ; */
    method Branches() returns (r: Result)
      requires Valid()
      modifies this
      decreases |tokens| - cursor, 6
      ensures Valid() && Outcome(SaveState(), r) == Semantics.Branches(tokens, old(SaveState()))
    {
      r := StmtSec();
      if r.Err? {
        return;
      }
      var otherwise := Peek("else");
      if otherwise {
        var consumed := Next("else");
        :- StmtSec();
      }
      r := Closing("if");
    }

    /** The `end <keyword> ;` that closes IF_STMT and WHILE_STMT. */
    method Closing(keyword: string) returns (r: Result)
      requires Valid() && |keyword| > 0 && '\n' !in keyword
      modifies this
      ensures Valid() && Outcome(SaveState(), r) == Semantics.Closing(tokens, old(SaveState()), keyword)
    {
      r := Next("end");
      if r.Err? {
        return;
      }
      :- Next(keyword);
      r := Next(";");
    }

    /** WHILE_STMT -> while COMP loop STMT_SEC end loop ; */
    method WhileStmt() returns (r: Result)
      requires Valid()
      modifies this
      decreases |tokens| - cursor, 2
      ensures Valid() && Outcome(SaveState(), r) == Semantics.WhileStmt(tokens, old(SaveState()))
    {
      r := CheckConsistency();
      if r.Err? {
        return;
      }
      Push(WHILE_STMT);
      :- Next("while");
      :- Comp();
      r := LoopBody();
    }

    /** The part of WHILE_STMT after the condition: loop STMT_SEC end loop ; */
    method LoopBody() returns (r: Result)
      requires Valid()
      modifies this
      decreases |tokens| - cursor, 0
      ensures Valid() && Outcome(SaveState(), r) == Semantics.LoopBody(tokens, old(SaveState()))
    {
      r := Next("loop");
      if r.Err? {
        return;
      }
      :- StmtSec();
      r := Closing("loop");
    }

    /** INPUT -> input ID_LIST ; */
    method Input() returns (r: Result)
      requires Valid()
      modifies this
      ensures Valid() && Outcome(SaveState(), r) == Semantics.Input(tokens, old(SaveState()))
    {
      r := CheckConsistency();
      if r.Err? {
        return;
      }
      Push(INPUT);
      :- Next("input");
      :- IdList();
      r := Next(";");
    }

    /** OUTPUT -> output ( ID_LIST | NUM ) ; */
    method Output() returns (r: Result)
      requires Valid()
      modifies this
      ensures Valid() && Outcome(SaveState(), r) == Semantics.Output(tokens, old(SaveState()))
    {
      r := CheckConsistency();
      if r.Err? {
        return;
      }
      Push(OUTPUT);
      :- Next("output");
      r := Written();
    }

    /**
     * The `( ID_LIST | NUM ) ;` part of OUTPUT: the identifier list is tried
     * first and rolled back if it fails; once it succeeds, no number is tried.
     */
    method Written() returns (r: Result)
      requires Valid()
      modifies this
      ensures Valid() && Outcome(SaveState(), r) == Semantics.Written(tokens, old(SaveState()))
    {
      var state := SaveState();
      var ids := IdList();
      if ids.Ok? {
        r := Next(";");
        return;
      }
      RestoreState(state);
      :- Num();
      r := Next(";");
    }

    // ----- expressions -----

    /** EXPR -> FACTOR [ (+ | -) EXPR ] */
    method Expr() returns (r: Result)
      requires Valid()
      modifies this
      decreases |tokens| - cursor, 3
      ensures Valid() && Outcome(SaveState(), r) == Semantics.Expr(tokens, old(SaveState()))
    {
      r := CheckConsistency();
      if r.Err? {
        return;
      }
      Push(EXPR);
      :- Factor();
      r := ExprTail();
    }

    /** The optional `(+ | -) EXPR` after the first factor of EXPR; `+` is looked for first. */
    method ExprTail() returns (r: Result)
      requires Valid()
      modifies this
      decreases |tokens| - cursor, 0
      ensures Valid() && Outcome(SaveState(), r) == Semantics.ExprTail(tokens, old(SaveState()))
    {
      var plus := Peek("+");
      if plus {
        var consumed := Next("+");
        r := Expr();
        return;
      }
      var minus := Peek("-");
      if minus {
        var consumed := Next("-");
        r := Expr();
        return;
      }
      r := Ok;
    }

    /** FACTOR -> OPERAND [ (* | /) FACTOR ] */
    method Factor() returns (r: Result)
      requires Valid()
      modifies this
      decreases |tokens| - cursor, 2
      ensures Valid() && Outcome(SaveState(), r) == Semantics.Factor(tokens, old(SaveState()))
    {
      r := CheckConsistency();
      if r.Err? {
        return;
      }
      Push(FACTOR);
      :- Operand();
      r := FactorTail();
    }

    /** The optional `(* | /) FACTOR` after the operand of FACTOR; `*` is looked for first. */
    method FactorTail() returns (r: Result)
      requires Valid()
      modifies this
      decreases |tokens| - cursor, 0
      ensures Valid() && Outcome(SaveState(), r) == Semantics.FactorTail(tokens, old(SaveState()))
    {
      var times := Peek("*");
      if times {
        var consumed := Next("*");
        r := Factor();
        return;
      }
      var divide := Peek("/");
      if divide {
        var consumed := Next("/");
        r := Factor();
        return;
      }
      r := Ok;
    }

    /**
     * OPERAND -> NUM | ID | ( EXPR ), tried in this order; a failed number or
     * identifier is rolled back before the next alternative.
     */
    method Operand() returns (r: Result)
      requires Valid()
      modifies this
      decreases |tokens| - cursor, 1
      ensures Valid() && Outcome(SaveState(), r) == Semantics.Operand(tokens, old(SaveState()))
    {
      r := CheckConsistency();
      if r.Err? {
        return;
      }
      Push(OPERAND);
      var state := SaveState();
      r := Num();
      if r.Ok? {
        return;
      }
      RestoreState(state);
      state := SaveState();
      r := Id();
      if r.Ok? {
        return;
      }
      RestoreState(state);
      r := Parenthesized();
    }

    /** The `( EXPR )` alternative of OPERAND. */
    method Parenthesized() returns (r: Result)
      requires Valid()
      modifies this
      decreases |tokens| - cursor, 0
      ensures Valid() && Outcome(SaveState(), r) == Semantics.Parenthesized(tokens, old(SaveState()))
    {
      r := Next("(");
      if r.Err? {
        return;
      }
      :- Expr();
      r := Next(")");
    }

    /** COMP -> ( OPERAND (= | <> | > | <) OPERAND ) */
    method Comp() returns (r: Result)
      requires Valid()
      modifies this
      decreases |tokens| - cursor, 0
      ensures Valid() && Outcome(SaveState(), r) == Semantics.Comp(tokens, old(SaveState()))
    {
      r := CheckConsistency();
      if r.Err? {
        return;
      }
      Push(COMP);
      :- Next("(");
      :- Operand();
      r := Comparison();
    }

    /**
     * The part of COMP after the first operand: the operators are looked for in
     * the order `=`, `<>`, `>`, `<`, and the first one present is taken.
     */
    method Comparison() returns (r: Result)
      requires Valid()
      modifies this
      decreases |tokens| - cursor, 0
      ensures Valid() && Outcome(SaveState(), r) == Semantics.Comparison(tokens, old(SaveState()))
    {
      var equal := Peek("=");
      if equal {
        var consumed := Next("=");
        r := RightOperand();
        return;
      }
      var unequal := Peek("<>");
      if unequal {
        var consumed := Next("<>");
        r := RightOperand();
        return;
      }
      var greater := Peek(">");
      if greater {
        var consumed := Next(">");
        r := RightOperand();
        return;
      }
      var less := Peek("<");
      if less {
        var consumed := Next("<");
        r := RightOperand();
        return;
      }
      r := Error(ExpectedComparison);
    }

    /** The `OPERAND )` that ends each alternative of COMP. */
    method RightOperand() returns (r: Result)
      requires Valid()
      modifies this
      decreases |tokens| - cursor, 2
      ensures Valid() && Outcome(SaveState(), r) == Semantics.RightOperand(tokens, old(SaveState()))
    {
      r := Operand();
      if r.Err? {
        return;
      }
      r := Next(")");
    }
  }
}
