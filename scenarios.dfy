/**
 * Three complete runs of the recogniser, evaluated step by step: a small
 * program that is accepted, one whose only statement uses an undeclared
 * name, and one whose OUTPUT operand is a number.
 */
module Scenarios {
  import opened Diagnostics
  import opened Lexical
  import opened Semantics
  import opened Driver
  import Choice
  import Soundness
  import opened Texts

  // ----- evaluation steps on a text without line feeds -----

  predicate Flat(t: string) {
    '\n' !in t
  }

  lemma FlatLine(t: string, i: nat)
    requires Flat(t) && i <= |t|
    ensures LineBreaks(t, i) == 0
  {
    forall k | 0 <= k < i ensures t[k] != '\n' {
      assert t[k] in t;
    }
    LineBreaksNone(t, 0, i);
  }

  /** Skipping whitespace from `i` stops at `p`. */
  lemma SkipTo(t: string, i: nat, p: nat)
    requires i <= p < |t| && !IsWhitespace(t[p])
    requires forall k :: i <= k < p ==> IsWhitespace(t[k])
    ensures WhitespaceEnd(t, i) == p
  {
    RunEndExact(t, i, p, Space);
  }

  /** The literal `q` is next: `next` consumes it and the line stays 1. */
  lemma Token(t: string, s: State, q: string, p: nat)
    requires Consistent(t, s) && Flat(t) && WhitespaceEnd(t, s.cursor) == p
    requires p + |q| <= |t| && t[p..p + |q|] == q
    ensures Peek(t, s, q) && Next(t, s, q) == Outcome(s.(cursor := p + |q|, line := 1), Ok)
  {
    FlatLine(t, p + |q|);
  }

  /** The literal `q` is not next: `peek` reports false and `next` fails. */
  lemma NoToken(t: string, s: State, q: string, p: nat, k: nat)
    requires Consistent(t, s) && WhitespaceEnd(t, s.cursor) == p
    requires k < |q| && (p + k >= |t| || t[p + k] != q[k])
    ensures !Peek(t, s, q) && Next(t, s, q).result.Err?
  {
    if p + |q| <= |t| {
      assert t[p..p + |q|][k] == t[p + k];
    }
  }

  /** The identifier `t[p..e]` is next. */
  lemma Word(t: string, s: State, p: nat, e: nat)
    requires Consistent(t, s) && Flat(t) && WhitespaceEnd(t, s.cursor) == p
    requires p < e <= |t| && IsIdentStart(t[p])
    requires forall k :: p < k < e ==> IsIdentChar(t[k])
    requires e == |t| || !IsIdentChar(t[e])
    ensures IdentifierAt(t, s.cursor) == t[p..e]
    ensures Id(t, s).state.cursor == e && Id(t, s).state.line == 1
  {
    IdentEndExact(t, p, e);
    FlatLine(t, e);
  }

  /** A reserved word other than a statement keyword is next: STMT_SEC fails and sets no sticky error. */
  lemma StmtSecStops(t: string, s: State)
    requires Consistent(t, s) && s.critical.None?
    requires IdentifierAt(t, s.cursor) in Keywords
    requires !Peek(t, s, "if") && !Peek(t, s, "while") && !Peek(t, s, "input") && !Peek(t, s, "output")
    ensures StmtSec(t, s).result.Err? && StmtSec(t, s).state.critical.None?
  {
    var p := Push(Push(s, STMT_SEC), STMT);
    Choice.StmtChoice(t, Push(s, STMT_SEC));
    AssignRefused(t, p);
    IfRefused(t, p);
    WhileRefused(t, p);
    InputRefused(t, p);
    OutputRefused(t, p);
  }

  lemma AssignRefused(t: string, p: State)
    requires Consistent(t, p) && p.critical.None? && IdentifierAt(t, p.cursor) in Keywords
    ensures Attempt(t, p, ASSIGN).result.Err? && Attempt(t, p, ASSIGN).state == p
  {
    assert Assign(t, p).state.critical.None?;
  }

  lemma IfRefused(t: string, p: State)
    requires Consistent(t, p) && p.critical.None? && !Peek(t, p, "if")
    ensures Attempt(t, p, IF_STMT).result.Err? && Attempt(t, p, IF_STMT).state == p
  {
    assert IfStmt(t, p).state.critical.None?;
  }

  lemma WhileRefused(t: string, p: State)
    requires Consistent(t, p) && p.critical.None? && !Peek(t, p, "while")
    ensures Attempt(t, p, WHILE_STMT).result.Err? && Attempt(t, p, WHILE_STMT).state == p
  {
    assert WhileStmt(t, p).state.critical.None?;
  }

  lemma InputRefused(t: string, p: State)
    requires Consistent(t, p) && p.critical.None? && !Peek(t, p, "input")
    ensures Attempt(t, p, INPUT).result.Err? && Attempt(t, p, INPUT).state == p
  {
    assert Input(t, p).state.critical.None?;
  }

  lemma OutputRefused(t: string, p: State)
    requires Consistent(t, p) && p.critical.None? && !Peek(t, p, "output")
    ensures Attempt(t, p, OUTPUT).result.Err? && Attempt(t, p, OUTPUT).state == p
  {
    assert Output(t, p).state.critical.None?;
  }

  lemma ProgramStep(t: string, s: State)
    requires Consistent(t, s) && s.critical.None? && Peek(t, Push(s, PROGRAM), "program")
    ensures Program(t, s) == Body(t, Next(t, Push(s, PROGRAM), "program").state)
  {
  }

  lemma BodyStep(t: string, s: State, a: State, b: State)
    requires Consistent(t, s) && Preamble(t, s) == Outcome(a, Ok) && StmtSec(t, a) == Outcome(b, Ok)
    requires Peek(t, b, "end")
    ensures Body(t, s) == Next(t, Next(t, b, "end").state, ";")
  {
  }

  /** STMT_SEC after one statement that ends where no further statement can start. */
  lemma SectionOfOne(t: string, s: State, o: State)
    requires Consistent(t, s) && s.critical.None? && Stmt(t, Push(s, STMT_SEC)) == Outcome(o, Ok)
    requires StmtSec(t, o).result.Err? && StmtSec(t, o).state.critical.None?
    ensures StmtSec(t, s) == Outcome(o, Ok)
  {
    assert o.critical.None?;
  }

  /** A reserved word is next, and of the statement keywords only `output` can be. */
  predicate OutputNext(t: string, s: State) {
    && Consistent(t, s) && s.critical.None? && IdentifierAt(t, s.cursor) in Keywords
    && !Peek(t, s, "if") && !Peek(t, s, "while") && !Peek(t, s, "input")
  }

  /** Only `output` can start the statement: STMT is its OUTPUT alternative. */
  lemma OutputOnly(t: string, s: State)
    requires OutputNext(t, s) && Output(t, Push(s, STMT)).result.Ok?
    ensures Stmt(t, s) == Output(t, Push(s, STMT))
  {
    var p := Push(s, STMT);
    Choice.StmtChoice(t, s);
    FourRefused(t, s);
    OutputAttempt(t, p, OUTPUT);
    assert Choice.FirstStatement(t, p, [OUTPUT]) == Attempt(t, p, OUTPUT);
  }

  /** The first four alternatives are refused and rolled back. */
  lemma FourRefused(t: string, s: State)
    requires OutputNext(t, s)
    ensures Choice.FirstStatement(t, Push(s, STMT), Choice.StatementOrder) == Choice.FirstStatement(t, Push(s, STMT), [OUTPUT])
  {
    var p := Push(s, STMT);
    var order := Choice.StatementOrder;
    AssignRefused(t, p);
    assert Choice.FirstStatement(t, p, order) == Choice.FirstStatement(t, p, order[1..]);
    IfRefused(t, p);
    assert Choice.FirstStatement(t, p, order[1..]) == Choice.FirstStatement(t, p, order[2..]);
    WhileRefused(t, p);
    assert Choice.FirstStatement(t, p, order[2..]) == Choice.FirstStatement(t, p, order[3..]);
    InputRefused(t, p);
    assert order[4..] == [OUTPUT];
  }

  lemma OutputAttempt(t: string, p: State, rule: Rule)
    requires Consistent(t, p) && rule == OUTPUT && Output(t, p).result.Ok?
    ensures Attempt(t, p, rule) == Output(t, p)
  {
  }

  /** The declaration section is entered when `begin` does not follow `program`. */
  lemma PreambleDecl(t: string, s: State, d: State)
    requires Consistent(t, s) && !Peek(t, s, "begin") && DeclSec(t, Skip(t, s)) == Outcome(d, Ok)
    ensures Preamble(t, s) == Next(t, d, "begin")
  {
  }

  /** STMT_SEC after a statement that another section follows. */
  lemma SectionOfMore(t: string, s: State, a: State, b: State)
    requires Consistent(t, s) && s.critical.None? && Stmt(t, Push(s, STMT_SEC)) == Outcome(a, Ok)
    requires StmtSec(t, a) == Outcome(b, Ok)
    ensures StmtSec(t, s) == Outcome(b, Ok)
  {
  }

  /** An assignment that parses is the statement. */
  lemma AssignFirst(t: string, s: State)
    requires Consistent(t, s) && s.critical.None? && Assign(t, Push(s, STMT)).result.Ok?
    ensures Stmt(t, s) == Assign(t, Push(s, STMT))
  {
    var p := Push(s, STMT);
    Choice.StmtChoice(t, s);
    AssignAttempt(t, p, ASSIGN);
  }

  lemma AssignAttempt(t: string, p: State, rule: Rule)
    requires Consistent(t, p) && rule == ASSIGN && Assign(t, p).result.Ok?
    ensures Attempt(t, p, rule) == Assign(t, p)
  {
  }

  /** A one-character slice. */
  lemma OneChar(t: string, p: nat)
    requires p < |t|
    ensures t[p..p + 1] == [t[p]]
  {
  }

  /** ID_LIST with a single identifier. */
  lemma IdListOne(t: string, s: State, a: State)
    requires Consistent(t, s) && s.critical.None? && Id(t, Push(s, ID_LIST)) == Outcome(a, Ok)
    requires !Peek(t, a, ",") && Skip(t, a) == a
    ensures IdList(t, s) == Outcome(a, Ok)
  {
  }

  /** DECL_SEC with a single declaration. */
  lemma DeclSecOfOne(t: string, s: State, d: State)
    requires Consistent(t, s) && Decl(t, Push(s.(declSection := true), DECL_SEC)) == Outcome(d, Ok)
    requires DeclSec(t, d).result.Err?
    ensures DeclSec(t, s) == Outcome(d.(declSection := false), Ok)
  {
  }

  /** ASSIGN through its three successful steps. */
  lemma AssignStep(t: string, s: State, a: State, b: State, c: State)
    requires Consistent(t, s) && s.critical.None? && Id(t, Push(s, ASSIGN)) == Outcome(a, Ok)
    requires Next(t, a, ":=") == Outcome(b, Ok) && Expr(t, b) == Outcome(c, Ok)
    ensures Assign(t, s) == Next(t, c, ";")
  {
  }

  /** The type `int` is next. */
  lemma TypeInt(t: string, s: State, p: nat)
    requires Consistent(t, s) && Flat(t) && WhitespaceEnd(t, s.cursor) == p
    requires p + 3 <= |t| && t[p..p + 3] == "int"
    ensures Type(t, s) == Outcome(s.(cursor := p + 3, line := 1), Ok)
  {
    FlatLine(t, p + 3);
  }

  /** DECL through its three successful steps. */
  lemma DeclStep(t: string, s: State, a: State, b: State, c: State)
    requires Consistent(t, s) && s.critical.None? && IdList(t, Push(s, DECL)) == Outcome(a, Ok)
    requires Next(t, a, ":") == Outcome(b, Ok) && Type(t, b) == Outcome(c, Ok)
    ensures Decl(t, s) == Next(t, c, ";")
  {
  }

  /** A reserved word is next: DECL_SEC fails at its first identifier. */
  lemma DeclSecStops(t: string, s: State)
    requires Consistent(t, s) && IdentifierAt(t, s.cursor) in Keywords
    ensures DeclSec(t, s).result.Err? && DeclSec(t, s).state.critical == s.critical
  {
  }

  // ----- an undeclared identifier -----

  const Undeclared: string := "program begin y := 1; end;"

  /** After `program`. */
  const AfterProgram: State := State(7, 1, [PROGRAM], false, {}, None)

  /** After `program begin`. */
  const AfterBegin: State := State(13, 1, [PROGRAM], false, {}, None)

  /** After `y :=`, with the sticky error set by `y`. */
  const AfterUndeclared: State := State(18, 1, [PROGRAM, STMT_SEC, STMT, ASSIGN], false, {}, Some(SyntaxError(NotDeclared, 1)))

  lemma UndeclaredText()
    ensures |Undeclared| == 26 && Flat(Undeclared)
    ensures Undeclared[0] == 'p' && Undeclared[7] == ' ' && Undeclared[8] == 'b'
    ensures Undeclared[13] == ' ' && Undeclared[14] == 'y' && Undeclared[15] == ' ' && Undeclared[16] == ':'
    ensures Undeclared[0..7] == "program" && Undeclared[8..13] == "begin"
    ensures Undeclared[14..15] == "y" && Undeclared[16..18] == ":="
  {
  }

  lemma UndeclaredProgram()
    ensures Program(Undeclared, Initial) == Body(Undeclared, AfterProgram)
  {
    var t := Undeclared;
    UndeclaredText();
    SkipTo(t, 0, 0);
    Token(t, Push(Initial, PROGRAM), "program", 0);
    assert Next(t, Push(Initial, PROGRAM), "program").state == AfterProgram;
    ProgramStep(t, Initial);
  }

  lemma UndeclaredPreamble()
    ensures Preamble(Undeclared, AfterProgram) == Outcome(AfterBegin, Ok)
  {
    var t := Undeclared;
    UndeclaredText();
    SkipTo(t, 7, 8);
    Token(t, AfterProgram, "begin", 8);
    Choice.PreambleChoice(t, AfterProgram);
  }

  lemma UndeclaredAssign()
    ensures Assign(Undeclared, Push(Push(AfterBegin, STMT_SEC), STMT)) == Outcome(AfterUndeclared, Err(SyntaxError(NotDeclared, 1)))
  {
    var t := Undeclared;
    var p := Push(Push(AfterBegin, STMT_SEC), STMT);
    UndeclaredText();
    SkipTo(t, 13, 14);
    Word(t, Push(p, ASSIGN), 14, 15);
    var a := AfterUndeclared.(cursor := 15);
    assert Id(t, Push(p, ASSIGN)) == Outcome(a, Ok);
    SkipTo(t, 15, 16);
    Token(t, a, ":=", 16);
  }

  /**
   * `y` is never declared: the identifier itself is accepted but sets the
   * sticky error, on line 1; EXPR then refuses to run, no later alternative
   * of STMT can start, and the report is the undeclared identifier.
   */
  lemma UndeclaredRun()
    ensures Run(Undeclared).state.outputs == [PROGRAM, STMT_SEC, STMT, ASSIGN]
    ensures Run(Undeclared).result == Err(SyntaxError(ExpectedStatement, 1))
    ensures Report(Undeclared) == Err(SyntaxError(NotDeclared, 1))
  {
    var t := Undeclared;
    UndeclaredProgram();
    UndeclaredPreamble();
    UndeclaredAssign();
    Choice.StmtChoice(t, Push(AfterBegin, STMT_SEC));
    assert StmtSec(t, AfterBegin) == Outcome(AfterUndeclared, Err(SyntaxError(ExpectedStatement, 1)));
  }

  // ----- a number as the operand of OUTPUT -----

  const NumberOutput: string := "program begin output 5; end;"

  /** After `output 5;`. */
  const AfterOutput: State := State(23, 1, [PROGRAM, STMT_SEC, STMT, OUTPUT], false, {}, None)

  lemma NumberText()
    ensures |NumberOutput| == 28 && Flat(NumberOutput)
    ensures NumberOutput[0] == 'p' && NumberOutput[7] == ' ' && NumberOutput[8] == 'b' && NumberOutput[13] == ' '
    ensures NumberOutput[14] == 'o' && NumberOutput[20] == ' ' && NumberOutput[21] == '5' && NumberOutput[22] == ';'
    ensures NumberOutput[23] == ' ' && NumberOutput[24] == 'e' && NumberOutput[27] == ';'
    ensures NumberOutput[0..7] == "program" && NumberOutput[8..13] == "begin" && NumberOutput[14..20] == "output"
    ensures NumberOutput[22..23] == ";" && NumberOutput[24..27] == "end" && NumberOutput[27..28] == ";"
  {
  }

  lemma NumberProgram()
    ensures Program(NumberOutput, Initial) == Body(NumberOutput, AfterProgram)
  {
    var t := NumberOutput;
    NumberText();
    SkipTo(t, 0, 0);
    Token(t, Push(Initial, PROGRAM), "program", 0);
    assert Next(t, Push(Initial, PROGRAM), "program").state == AfterProgram;
    ProgramStep(t, Initial);
  }

  lemma NumberPreamble()
    ensures Preamble(NumberOutput, AfterProgram) == Outcome(AfterBegin, Ok)
  {
    var t := NumberOutput;
    NumberText();
    SkipTo(t, 7, 8);
    Token(t, AfterProgram, "begin", 8);
    Choice.PreambleChoice(t, AfterProgram);
  }

  /** After `output`, no identifier follows, so the number branch reads `5`; the trace records no ID_LIST. */
  lemma NumberWritten()
    ensures Output(NumberOutput, Push(Push(AfterBegin, STMT_SEC), STMT)) == Outcome(AfterOutput, Ok)
  {
    var t := NumberOutput;
    NumberText();
    var p := Push(Push(AfterBegin, STMT_SEC), STMT);
    SkipTo(t, 13, 14);
    Token(t, Push(p, OUTPUT), "output", 14);
    var w := AfterOutput.(cursor := 20);
    assert Next(t, Push(p, OUTPUT), "output") == Outcome(w, Ok);
    NumberFive();
    Choice.WrittenNumber(t, w);
    SkipTo(t, 22, 22);
    Token(t, w.(cursor := 22), ";", 22);
  }

  lemma NumberFive()
    ensures IdentifierAt(NumberOutput, 20) == []
    ensures Num(NumberOutput, AfterOutput.(cursor := 20)) == Outcome(AfterOutput.(cursor := 22), Ok)
  {
    var t := NumberOutput;
    NumberText();
    SkipTo(t, 20, 21);
    RunEndExact(t, 21, 22, Digit);
    FlatLine(t, 22);
  }

  lemma NumberStmt()
    ensures Stmt(NumberOutput, Push(AfterBegin, STMT_SEC)) == Outcome(AfterOutput, Ok)
  {
    var t := NumberOutput;
    NumberText();
    var s := Push(AfterBegin, STMT_SEC);
    SkipTo(t, 13, 14);
    Word(t, s, 14, 20);
    NoToken(t, s, "if", 14, 0);
    NoToken(t, s, "while", 14, 0);
    NoToken(t, s, "input", 14, 0);
    NumberWritten();
    OutputOnly(t, s);
  }

  /** At `end` no statement starts. */
  lemma NumberEnd()
    ensures StmtSec(NumberOutput, AfterOutput).result.Err? && StmtSec(NumberOutput, AfterOutput).state.critical.None?
  {
    var t := NumberOutput;
    NumberText();
    SkipTo(t, 23, 24);
    Word(t, AfterOutput, 24, 27);
    NoToken(t, AfterOutput, "if", 24, 0);
    NoToken(t, AfterOutput, "while", 24, 0);
    NoToken(t, AfterOutput, "input", 24, 0);
    NoToken(t, AfterOutput, "output", 24, 0);
    StmtSecStops(t, AfterOutput);
  }

  lemma NumberSection()
    ensures StmtSec(NumberOutput, AfterBegin) == Outcome(AfterOutput, Ok)
  {
    NumberStmt();
    NumberEnd();
    SectionOfOne(NumberOutput, AfterBegin, AfterOutput);
  }

  lemma NumberBody()
    ensures Body(NumberOutput, AfterProgram) == Outcome(AfterOutput.(cursor := 28), Ok)
  {
    var t := NumberOutput;
    NumberText();
    SkipTo(t, 23, 24);
    Token(t, AfterOutput, "end", 24);
    SkipTo(t, 27, 27);
    Token(t, AfterOutput.(cursor := 27), ";", 27);
    NumberPreamble();
    NumberSection();
    BodyStep(t, AfterProgram, AfterBegin, AfterOutput);
  }

  /** `output 5;` is accepted through the number branch of OUTPUT. */
  lemma NumberRun()
    ensures Run(NumberOutput).state.outputs == [PROGRAM, STMT_SEC, STMT, OUTPUT]
    ensures Run(NumberOutput).result == Ok && Report(NumberOutput) == Ok
  {
    NumberProgram();
    NumberBody();
  }

  // ----- an accepted program -----

  /** DECL_SEC entered after `program`. */
  const DeclStart: State := Push(AfterProgram.(cursor := 8, declSection := true), DECL_SEC)

  /** After the declaration `x: int;`, still inside the declaration section. */
  const Declared: State := Push(Push(DeclStart, DECL), ID_LIST).(cursor := 15, declared := {"x"})

  /** After `begin`. */
  const AfterDeclarations: State := Declared.(cursor := 21, declSection := false)

  /** ASSIGN entered for `x := 3;`. */
  const AssignStart: State := Push(Push(Push(AfterDeclarations, STMT_SEC), STMT), ASSIGN)

  /** After `x := 3;`. */
  const AfterAssign: State := Push(Push(Push(AssignStart, EXPR), FACTOR), OPERAND).(cursor := 29)

  /** After `output`. */
  const AfterKeyword: State := Push(Push(Push(AfterAssign, STMT_SEC), STMT), OUTPUT).(cursor := 36)

  /** After `output x;`. */
  const AfterWrite: State := Push(AfterKeyword, ID_LIST).(cursor := 39)

  lemma AcceptedProgram()
    ensures Program(Accepted, Initial) == Body(Accepted, AfterProgram)
  {
    var t := Accepted;
    AcceptedFlat();
    AcceptedDeclChars();
    AcceptedSlice0();
    SkipTo(t, 0, 0);
    Token(t, Push(Initial, PROGRAM), "program", 0);
    assert Next(t, Push(Initial, PROGRAM), "program").state == AfterProgram;
    ProgramStep(t, Initial);
  }

  /** `x` inside the declaration section is recorded as declared. */
  lemma AcceptedDeclaredName()
    ensures Id(Accepted, Push(Push(DeclStart, DECL), ID_LIST)) == Outcome(Declared.(cursor := 9), Ok)
  {
    var t := Accepted;
    AcceptedFlat();
    AcceptedDeclChars();
    OneChar(t, 8);
    SkipTo(t, 8, 8);
    Word(t, Push(Push(DeclStart, DECL), ID_LIST), 8, 9);
  }

  lemma AcceptedIdList()
    ensures IdList(Accepted, Push(DeclStart, DECL)) == Outcome(Declared.(cursor := 9), Ok)
  {
    var t := Accepted;
    AcceptedFlat();
    AcceptedDeclChars();
    SkipTo(t, 9, 9);
    NoToken(t, Declared.(cursor := 9), ",", 9, 0);
    FlatLine(t, 9);
    AcceptedDeclaredName();
    IdListOne(t, Push(DeclStart, DECL), Declared.(cursor := 9));
  }

  lemma AcceptedDecl()
    ensures Decl(Accepted, DeclStart) == Outcome(Declared, Ok)
  {
    AcceptedIdList();
    AcceptedColon();
    AcceptedType();
    DeclStep(Accepted, DeclStart, Declared.(cursor := 9), Declared.(cursor := 10), Declared.(cursor := 14));
  }

  lemma AcceptedColon()
    ensures Next(Accepted, Declared.(cursor := 9), ":") == Outcome(Declared.(cursor := 10), Ok)
  {
    AcceptedFlat();
    AcceptedDeclChars();
    OneChar(Accepted, 9);
    SkipTo(Accepted, 9, 9);
    Token(Accepted, Declared.(cursor := 9), ":", 9);
  }

  /** `int` and the `;` that closes the declaration. */
  lemma AcceptedType()
    ensures Type(Accepted, Declared.(cursor := 10)) == Outcome(Declared.(cursor := 14), Ok)
    ensures Next(Accepted, Declared.(cursor := 14), ";") == Outcome(Declared, Ok)
  {
    var t := Accepted;
    AcceptedFlat();
    AcceptedDeclChars();
    AcceptedSlice11();
    OneChar(t, 14);
    SkipTo(t, 10, 11);
    TypeInt(t, Declared.(cursor := 10), 11);
    SkipTo(t, 14, 14);
    Token(t, Declared.(cursor := 14), ";", 14);
  }

  /** One declaration; the second attempt stops at `begin` and is rolled back. */
  lemma AcceptedDeclSec()
    ensures DeclSec(Accepted, AfterProgram.(cursor := 8)) == Outcome(Declared.(declSection := false), Ok)
  {
    AcceptedDeclSecStops();
    AcceptedDecl();
    DeclSecOfOne(Accepted, AfterProgram.(cursor := 8), Declared);
  }

  /** `begin` cannot start a declaration. */
  lemma AcceptedDeclSecStops()
    ensures DeclSec(Accepted, Declared).result.Err?
  {
    AcceptedFlat();
    AcceptedDeclChars();
    AcceptedAssignChars();
    AcceptedSlice16();
    SkipTo(Accepted, 15, 16);
    Word(Accepted, Declared, 16, 21);
    DeclSecStops(Accepted, Declared);
  }

  lemma AcceptedPreamble()
    ensures Preamble(Accepted, AfterProgram) == Outcome(AfterDeclarations, Ok)
  {
    AcceptedDeclarationsStart();
    AcceptedBegin();
    AcceptedDeclSec();
    PreambleDecl(Accepted, AfterProgram, Declared.(declSection := false));
  }

  /** After `program` comes `x`, not `begin`. */
  lemma AcceptedDeclarationsStart()
    ensures Skip(Accepted, AfterProgram) == AfterProgram.(cursor := 8) && !Peek(Accepted, AfterProgram, "begin")
  {
    var t := Accepted;
    AcceptedFlat();
    AcceptedDeclChars();
    SkipTo(t, 7, 8);
    NoToken(t, AfterProgram, "begin", 8, 0);
    FlatLine(t, 8);
  }

  lemma AcceptedBegin()
    ensures Next(Accepted, Declared.(declSection := false), "begin") == Outcome(AfterDeclarations, Ok)
  {
    var t := Accepted;
    AcceptedFlat();
    AcceptedDeclChars();
    AcceptedAssignChars();
    AcceptedSlice16();
    SkipTo(t, 15, 16);
    Token(t, Declared.(declSection := false), "begin", 16);
  }

  /** `x` outside the declaration section, already declared: no sticky error. */
  lemma AcceptedTarget()
    ensures Id(Accepted, AssignStart) == Outcome(AssignStart.(cursor := 23), Ok)
  {
    var t := Accepted;
    AcceptedFlat();
    AcceptedAssignChars();
    OneChar(t, 22);
    SkipTo(t, 21, 22);
    Word(t, AssignStart, 22, 23);
  }

  lemma AcceptedBecomes()
    ensures Next(Accepted, AssignStart.(cursor := 23), ":=") == Outcome(AssignStart.(cursor := 26), Ok)
  {
    AcceptedFlat();
    AcceptedAssignChars();
    AcceptedSlice24();
    SkipTo(Accepted, 23, 24);
    Token(Accepted, AssignStart.(cursor := 23), ":=", 24);
  }

  /** The number `3` is the operand. */
  lemma AcceptedThree()
    ensures Operand(Accepted, Push(Push(AssignStart.(cursor := 26), EXPR), FACTOR)) == Outcome(AfterAssign.(cursor := 28), Ok)
  {
    var t := Accepted;
    AcceptedFlat();
    AcceptedAssignChars();
    SkipTo(t, 26, 27);
    RunEndExact(t, 27, 28, Digit);
    FlatLine(t, 28);
  }

  /** No operator follows `3`. */
  lemma AcceptedNoOperator()
    ensures FactorTail(Accepted, AfterAssign.(cursor := 28)) == Outcome(AfterAssign.(cursor := 28), Ok)
    ensures ExprTail(Accepted, AfterAssign.(cursor := 28)) == Outcome(AfterAssign.(cursor := 28), Ok)
  {
    var t := Accepted;
    var x := AfterAssign.(cursor := 28);
    AcceptedFlat();
    AcceptedAssignChars();
    SkipTo(t, 28, 28);
    FlatLine(t, 28);
    NoToken(t, x, "*", 28, 0);
    NoToken(t, x, "/", 28, 0);
    NoToken(t, x, "+", 28, 0);
    NoToken(t, x, "-", 28, 0);
    assert Skip(t, x) == x;
  }

  /** The expression `3`: one number operand, no operator after it. */
  lemma AcceptedExpr()
    ensures Expr(Accepted, AssignStart.(cursor := 26)) == Outcome(AfterAssign.(cursor := 28), Ok)
  {
    AcceptedThree();
    AcceptedNoOperator();
    Soundness.FactorUnfold(Accepted, Push(AssignStart.(cursor := 26), EXPR));
    Soundness.ExprUnfold(Accepted, AssignStart.(cursor := 26));
  }

  lemma AcceptedAssignEnd()
    ensures Next(Accepted, AfterAssign.(cursor := 28), ";") == Outcome(AfterAssign, Ok)
  {
    AcceptedFlat();
    AcceptedAssignChars();
    OneChar(Accepted, 28);
    SkipTo(Accepted, 28, 28);
    Token(Accepted, AfterAssign.(cursor := 28), ";", 28);
  }

  lemma AcceptedAssign()
    ensures Assign(Accepted, Push(Push(AfterDeclarations, STMT_SEC), STMT)) == Outcome(AfterAssign, Ok)
  {
    AcceptedTarget();
    AcceptedBecomes();
    AcceptedExpr();
    AcceptedAssignEnd();
    AssignStep(Accepted, Push(Push(AfterDeclarations, STMT_SEC), STMT), AssignStart.(cursor := 23),
      AssignStart.(cursor := 26), AfterAssign.(cursor := 28));
  }

  lemma AcceptedFirst()
    ensures Stmt(Accepted, Push(AfterDeclarations, STMT_SEC)) == Outcome(AfterAssign, Ok)
  {
    AcceptedAssign();
    AssignFirst(Accepted, Push(AfterDeclarations, STMT_SEC));
  }

  lemma AcceptedKeyword()
    ensures Next(Accepted, Push(Push(Push(AfterAssign, STMT_SEC), STMT), OUTPUT), "output") == Outcome(AfterKeyword, Ok)
  {
    AcceptedFlat();
    AcceptedAssignChars();
    AcceptedOutputChars();
    AcceptedSlice30();
    SkipTo(Accepted, 29, 30);
    Token(Accepted, Push(Push(Push(AfterAssign, STMT_SEC), STMT), OUTPUT), "output", 30);
  }

  /** The written name `x`. */
  lemma AcceptedWrittenName()
    ensures Id(Accepted, Push(AfterKeyword, ID_LIST)) == Outcome(AfterWrite.(cursor := 38), Ok)
  {
    AcceptedFlat();
    AcceptedOutputChars();
    OneChar(Accepted, 37);
    SkipTo(Accepted, 36, 37);
    Word(Accepted, Push(AfterKeyword, ID_LIST), 37, 38);
  }

  lemma AcceptedWrittenList()
    ensures IdList(Accepted, AfterKeyword) == Outcome(AfterWrite.(cursor := 38), Ok)
  {
    var t := Accepted;
    AcceptedFlat();
    AcceptedOutputChars();
    SkipTo(t, 38, 38);
    NoToken(t, AfterWrite.(cursor := 38), ",", 38, 0);
    FlatLine(t, 38);
    AcceptedWrittenName();
    IdListOne(t, AfterKeyword, AfterWrite.(cursor := 38));
  }

  lemma AcceptedWriteEnd()
    ensures Next(Accepted, AfterWrite.(cursor := 38), ";") == Outcome(AfterWrite, Ok)
  {
    AcceptedFlat();
    AcceptedOutputChars();
    OneChar(Accepted, 38);
    SkipTo(Accepted, 38, 38);
    Token(Accepted, AfterWrite.(cursor := 38), ";", 38);
  }

  /** `x` after `output` is an identifier list, so ID_LIST is recorded. */
  lemma AcceptedWrite()
    ensures Output(Accepted, Push(Push(AfterAssign, STMT_SEC), STMT)) == Outcome(AfterWrite, Ok)
  {
    AcceptedKeyword();
    AcceptedWrittenList();
    AcceptedWriteEnd();
    Choice.WrittenChoice(Accepted, AfterKeyword);
  }

  lemma AcceptedSecond()
    ensures Stmt(Accepted, Push(AfterAssign, STMT_SEC)) == Outcome(AfterWrite, Ok)
  {
    var t := Accepted;
    var s := Push(AfterAssign, STMT_SEC);
    AcceptedFlat();
    AcceptedAssignChars();
    AcceptedOutputChars();
    AcceptedSlice30();
    SkipTo(t, 29, 30);
    Word(t, s, 30, 36);
    NoToken(t, s, "if", 30, 0);
    NoToken(t, s, "while", 30, 0);
    NoToken(t, s, "input", 30, 0);
    AcceptedWrite();
    OutputOnly(t, s);
  }

  lemma AcceptedEnd()
    ensures StmtSec(Accepted, AfterWrite).result.Err? && StmtSec(Accepted, AfterWrite).state.critical.None?
  {
    var t := Accepted;
    AcceptedFlat();
    AcceptedOutputChars();
    AcceptedSlice40();
    SkipTo(t, 39, 40);
    Word(t, AfterWrite, 40, 43);
    NoToken(t, AfterWrite, "if", 40, 0);
    NoToken(t, AfterWrite, "while", 40, 0);
    NoToken(t, AfterWrite, "input", 40, 0);
    NoToken(t, AfterWrite, "output", 40, 0);
    StmtSecStops(t, AfterWrite);
  }

  /** Two statements; the third attempt stops at `end` and is rolled back. */
  lemma AcceptedSection()
    ensures StmtSec(Accepted, AfterDeclarations) == Outcome(AfterWrite, Ok)
  {
    AcceptedSecond();
    AcceptedEnd();
    SectionOfOne(Accepted, AfterAssign, AfterWrite);
    AcceptedFirst();
    SectionOfMore(Accepted, AfterDeclarations, AfterAssign, AfterWrite);
  }

  lemma AcceptedClosing()
    ensures Next(Accepted, AfterWrite, "end") == Outcome(AfterWrite.(cursor := 43), Ok)
    ensures Next(Accepted, AfterWrite.(cursor := 43), ";") == Outcome(AfterWrite.(cursor := 44), Ok)
  {
    var t := Accepted;
    AcceptedFlat();
    AcceptedOutputChars();
    AcceptedSlice40();
    OneChar(t, 43);
    SkipTo(t, 39, 40);
    Token(t, AfterWrite, "end", 40);
    SkipTo(t, 43, 43);
    Token(t, AfterWrite.(cursor := 43), ";", 43);
  }

  lemma AcceptedBody()
    ensures Body(Accepted, AfterProgram) == Outcome(AfterWrite.(cursor := 44), Ok)
  {
    AcceptedClosing();
    AcceptedPreamble();
    AcceptedSection();
    BodyStep(Accepted, AfterProgram, AfterDeclarations, AfterWrite);
  }

  /**
   * A declaration and two statements are accepted, with no sticky error; the
   * trace lists every rule entered on the successful path and none of the
   * alternatives that were rolled back.
   */
  lemma AcceptedRun()
    ensures Run(Accepted).state.outputs ==
      [PROGRAM, DECL_SEC, DECL, ID_LIST, STMT_SEC, STMT, ASSIGN, EXPR, FACTOR, OPERAND, STMT_SEC, STMT, OUTPUT, ID_LIST]
    ensures Run(Accepted).result == Ok && Report(Accepted) == Ok
  {
    AcceptedProgram();
    AcceptedBody();
    AcceptedTrace();
  }

  lemma AcceptedTrace()
    ensures AfterWrite.outputs ==
      [PROGRAM, DECL_SEC, DECL, ID_LIST, STMT_SEC, STMT, ASSIGN, EXPR, FACTOR, OPERAND, STMT_SEC, STMT, OUTPUT, ID_LIST]
  {
  }
}
