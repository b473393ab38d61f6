/**
 * The hawk recogniser as pure functions. Each function takes the text and a
 * snapshot of the parser's fields and returns the snapshot after the step
 * together with the step's result, making the same calls in the same order as
 * the corresponding method of `Parser.Tokens`. Those methods are proved to
 * change the record exactly as these functions say; the properties of the
 * recogniser are proved here, and against the productions in `Grammar`.
 */
module Semantics {
  import opened Diagnostics
  import opened Lexical

  /** The grammar rules whose names the trace records, each printed as its constructor's name. */
  datatype Rule =
    | PROGRAM | DECL_SEC | DECL | ID_LIST | STMT_SEC | STMT | ASSIGN | IF_STMT
    | WHILE_STMT | INPUT | OUTPUT | EXPR | FACTOR | OPERAND | COMP

  /** The five alternatives of a statement. */
  const StatementRules: set<Rule> := {ASSIGN, IF_STMT, WHILE_STMT, INPUT, OUTPUT}

  /** A copy of the parser's mutable fields, as `save_state` takes it. */
  datatype State = State(
    cursor: nat,
    line: nat,
    outputs: seq<Rule>,
    declSection: bool,
    declared: set<string>,
    critical: Option<SyntaxError>)

  /** The record after a step, and what the step returned. */
  datatype Outcome = Outcome(state: State, result: Result)

  /** The record of a fresh parser. */
  const Initial: State := State(0, 1, [], false, {}, None)

  /**
   * A state of the parser of `t`: the cursor is inside the text, and a sticky
   * error is always an undeclared identifier.
   */
  predicate Consistent(t: string, s: State) {
    s.cursor <= |t| && (s.critical.Some? ==> s.critical.value.message == NotDeclared)
  }

  /** The fresh parser is consistent, whatever the text. */
  lemma InitialConsistent(t: string)
    ensures Consistent(t, Initial)
  {
  }

  /**
   * From `a` to `b` the cursor did not move backwards, the trace only grew, and
   * a sticky error, once recorded, stayed as it was.
   */
  predicate Monotone(a: State, b: State) {
    && a.cursor <= b.cursor
    && a.outputs <= b.outputs
    && (a.critical.Some? ==> b.critical == a.critical)
  }

  /**
   * The section flag is kept; outside the declaration section no name is
   * recorded, inside it names are only added and the sticky error is not raised.
   */
  predicate SectionKept(a: State, b: State) {
    && b.declSection == a.declSection
    && (!a.declSection ==> b.declared == a.declared)
    && (a.declSection ==> a.declared <= b.declared && b.critical == a.critical)
  }

  /** With a sticky error already set in `a`, the step returned it and changed nothing. */
  predicate Refused(a: State, b: State, r: Result) {
    a.critical.Some? ==> r == Err(a.critical.value) && b == a
  }

  /** Without a sticky error in `a`, `name` was the next entry appended to the trace. */
  predicate Entered(a: State, b: State, name: Rule) {
    a.critical.None? ==> a.outputs + [name] <= b.outputs
  }

  /** What every grammar rule that first consults the sticky error guarantees. */
  predicate RuleStep(a: State, b: State, r: Result, name: Rule) {
    Monotone(a, b) && SectionKept(a, b) && Refused(a, b, r) && Entered(a, b, name)
  }

  /** Only the cursor and the line number changed, and the cursor did not move backwards. */
  predicate PositionOnly(a: State, b: State) {
    a.cursor <= b.cursor && b == a.(cursor := b.cursor, line := b.line)
  }

  /** On success the step consumed text, and its last character is `c`. */
  predicate Closes(t: string, s: State, o: Outcome, c: char) {
    o.result.Ok? ==> s.cursor < o.state.cursor <= |t| && t[o.state.cursor - 1] == c
  }

  /** On success the step consumed text. */
  predicate Progress(s: State, o: Outcome) {
    o.result.Ok? ==> s.cursor < o.state.cursor
  }

  /** The result of recognising the identifier `w` read on line `line`, before the sticky-error bookkeeping. */
  function IdentifierResult(w: string, line: nat): (r: Result)
    ensures r.Ok? <==> w != [] && w !in Keywords
  {
    if w == [] then Err(SyntaxError(ExpectedIdentifier, line))
    else if w in Keywords then Err(SyntaxError(ReservedKeyword(w), line))
    else Ok
  }

  // ----- the record's primitive operations -----

  /** The state with its cursor moved forward to `p` and the line number of that position. */
  function At(t: string, s: State, p: nat): (r: State)
    requires Consistent(t, s) && s.cursor <= p <= |t|
    ensures Consistent(t, r) && PositionOnly(s, r) && r.cursor == p
  {
    s.(cursor := p, line := 1 + LineBreaks(t, p))
  }

  /** `skip_whitespace`: the cursor moves past the whitespace run. */
  function Skip(t: string, s: State): (r: State)
    requires Consistent(t, s)
    ensures Consistent(t, r) && PositionOnly(s, r)
    ensures r.cursor == WhitespaceEnd(t, s.cursor) && WhitespaceEnd(t, r.cursor) == r.cursor
  {
    WhitespaceEndIdempotent(t, s.cursor);
    At(t, s, WhitespaceEnd(t, s.cursor))
  }

  /** What `peek` reports: the literal `q` follows the whitespace. */
  predicate Peek(t: string, s: State, q: string)
    requires s.cursor <= |t|
  {
    LiteralAt(t, WhitespaceEnd(t, s.cursor), q)
  }

  /** `next`: the literal `q` after the whitespace is consumed, or the error names it. */
  function Next(t: string, s: State, q: string): (o: Outcome)
    requires Consistent(t, s)
    ensures Consistent(t, o.state) && PositionOnly(s, o.state)
    ensures o.result.Ok? <==> Peek(t, s, q)
    ensures o.result.Ok? ==> o.state.cursor == WhitespaceEnd(t, s.cursor) + |q|
    ensures o.result.Ok? && |q| > 0 ==> s.cursor < o.state.cursor && t[o.state.cursor - 1] == q[|q| - 1]
    ensures o.result.Err? ==> o == Outcome(Skip(t, s), Err(SyntaxError(UnexpectedToken(q), Skip(t, s).line)))
  {
    var p := WhitespaceEnd(t, s.cursor);
    if LiteralAt(t, p, q) then
      assert |q| > 0 ==> t[p..p + |q|][|q| - 1] == t[p + |q| - 1];
      Outcome(At(t, s, p + |q|), Ok)
    else
      var s1 := At(t, s, p);
      Outcome(s1, Err(SyntaxError(UnexpectedToken(q), s1.line)))
  }

  /** After a successful `next` the literal lies right before the cursor. */
  lemma NextEndsWith(t: string, s: State, q: string)
    requires Consistent(t, s)
    ensures var o := Next(t, s, q); o.result.Ok? ==> o.state.cursor >= |q| && LiteralAt(t, o.state.cursor - |q|, q)
  {
  }

  /** `push`: one entry is appended to the trace. */
  function Push(s: State, rule: Rule): State {
    s.(outputs := s.outputs + [rule])
  }

  /** `restore_state`: nothing changes once a sticky error is set; otherwise the snapshot is taken back. */
  function Restore(current: State, saved: State): State {
    if current.critical.Some? then current else saved.(critical := None)
  }

  // ----- tokens -----

  /**
   * `id`: the longest identifier after the whitespace. Inside the declaration
   * section its name is recorded; outside it an undeclared name sets the
   * sticky error unless one is set, and the identifier still succeeds.
   */
  function Id(t: string, s: State): (o: Outcome)
    requires Consistent(t, s)
    ensures Consistent(t, o.state) && Monotone(s, o.state) && SectionKept(s, o.state)
    ensures o.state.outputs == s.outputs && o.state.cursor == IdentEnd(t, WhitespaceEnd(t, s.cursor))
    ensures o.result == IdentifierResult(IdentifierAt(t, s.cursor), o.state.line)
    ensures o.result.Ok? ==> o.state.cursor > s.cursor
    ensures s.declSection && o.result.Ok? ==> o.state.declared == s.declared + {IdentifierAt(t, s.cursor)}
    ensures !s.declSection && o.state.critical != s.critical ==>
      o.result.Ok? && IdentifierAt(t, s.cursor) !in s.declared && o.state.critical == Some(SyntaxError(NotDeclared, o.state.line))
    ensures !s.declSection && o.result.Ok? && IdentifierAt(t, s.cursor) !in s.declared && s.critical.None? ==>
      o.state.critical == Some(SyntaxError(NotDeclared, o.state.line))
    ensures !s.declSection ==> o.state.declared == s.declared
  {
    var w := IdentifierAt(t, s.cursor);
    var s1 := At(t, s, IdentEnd(t, WhitespaceEnd(t, s.cursor)));
    var r := IdentifierResult(w, s1.line);
    if r.Err? then Outcome(s1, r)
    else if s.declSection then Outcome(s1.(declared := s.declared + {w}), Ok)
    else if w !in s.declared && s.critical.None? then
      Outcome(s1.(critical := Some(SyntaxError(NotDeclared, s1.line))), Ok)
    else Outcome(s1, Ok)
  }

  /** `num`: the number scan after the whitespace; the cursor stays where the scan stopped even on failure. */
  function Num(t: string, s: State): (o: Outcome)
    requires Consistent(t, s)
    ensures Consistent(t, o.state) && PositionOnly(s, o.state)
    ensures o.state.cursor == ScanNumber(t, WhitespaceEnd(t, s.cursor)).end
    ensures WhitespaceEnd(t, s.cursor) <= o.state.cursor
    ensures o.result.Ok? <==> IsNumeral(t[WhitespaceEnd(t, s.cursor)..o.state.cursor])
    ensures o.result.Ok? ==> o.state.cursor > s.cursor
    ensures o.result.Err? ==> o.result.error == SyntaxError(ExpectedNumber, o.state.line)
  {
    var n := ScanNumber(t, WhitespaceEnd(t, s.cursor));
    ScanNumberAccepted(t, WhitespaceEnd(t, s.cursor));
    var s1 := At(t, s, n.end);
    if n.accepted then Outcome(s1, Ok) else Outcome(s1, Err(SyntaxError(ExpectedNumber, s1.line)))
  }

  /** `_type`: `int`, `float` and `double` are looked for in this order. */
  function Type(t: string, s: State): (o: Outcome)
    requires Consistent(t, s)
    ensures Consistent(t, o.state) && PositionOnly(s, o.state)
    ensures var start := WhitespaceEnd(t, s.cursor);
      if LiteralAt(t, start, "int") then o.result == Ok && o.state.cursor == start + 3
      else if LiteralAt(t, start, "float") then o.result == Ok && o.state.cursor == start + 5
      else if LiteralAt(t, start, "double") then o.result == Ok && o.state.cursor == start + 6
      else o.result == Err(SyntaxError(ExpectedType, o.state.line)) && o.state.cursor == start
  {
    var s1 := Skip(t, s);
    if Peek(t, s, "int") then Next(t, s1, "int")
    else
      var s2 := Skip(t, s1);
      if Peek(t, s1, "float") then Next(t, s2, "float")
      else
        var s3 := Skip(t, s2);
        if Peek(t, s2, "double") then Next(t, s3, "double")
        else Outcome(s3, Err(SyntaxError(ExpectedType, s3.line)))
  }

  // ----- PROGRAM and the declarations -----

  /** PROGRAM -> program [DECL_SEC] begin STMT_SEC end ; */
  function Program(t: string, s: State): (o: Outcome)
    requires Consistent(t, s)
    ensures Consistent(t, o.state) && Monotone(s, o.state)
    ensures Refused(s, o.state, o.result) && Entered(s, o.state, PROGRAM) && Closes(t, s, o, ';')
    ensures s.critical.None? && o.result.Ok? ==>
      |o.state.outputs| > |s.outputs| + 1 && o.state.outputs[|s.outputs| + 1] in {DECL_SEC, STMT_SEC}
  {
    if s.critical.Some? then Outcome(s, Err(s.critical.value))
    else
      var o1 := Next(t, Push(s, PROGRAM), "program");
      if o1.result.Err? then o1 else Body(t, o1.state)
  }

  /** The part of PROGRAM after `program`: [DECL_SEC] begin STMT_SEC end ; */
  function Body(t: string, s: State): (o: Outcome)
    requires Consistent(t, s)
    ensures Consistent(t, o.state) && Monotone(s, o.state) && Closes(t, s, o, ';')
    ensures s.critical.None? && o.result.Ok? ==>
      |o.state.outputs| > |s.outputs| && o.state.outputs[|s.outputs|] in {DECL_SEC, STMT_SEC}
  {
    var o1 := Preamble(t, s);
    if o1.result.Err? then o1
    else
      var o2 := StmtSec(t, o1.state);
      if o2.result.Err? then o2
      else
        var o3 := Next(t, o2.state, "end");
        if o3.result.Err? then o3 else Next(t, o3.state, ";")
  }

  /**
   * The `[DECL_SEC] begin` part of PROGRAM: with `begin` next it is just that
   * keyword, and the declarations are read otherwise.
   */
  function Preamble(t: string, s: State): (o: Outcome)
    requires Consistent(t, s)
    ensures Consistent(t, o.state) && Monotone(s, o.state) && o.state.critical == s.critical
    ensures Progress(s, o) && (o.result.Ok? ==> o.state.cursor >= 5 && LiteralAt(t, o.state.cursor - 5, "begin"))
  {
    var s1 := Skip(t, s);
    if Peek(t, s, "begin") then NextEndsWith(t, s1, "begin"); Next(t, s1, "begin")
    else
      var o1 := DeclSec(t, s1);
      if o1.result.Err? then o1 else NextEndsWith(t, o1.state, "begin"); Next(t, o1.state, "begin")
  }

  /**
   * DECL_SEC -> DECL { DECL }: greedy; a failed further declaration is rolled
   * back and ignored. It sets the section flag and traces its name without
   * looking at the sticky error, and clears the flag on success.
   */
  function DeclSec(t: string, s: State): (o: Outcome)
    requires Consistent(t, s)
    decreases |t| - s.cursor
    ensures Consistent(t, o.state) && Monotone(s, o.state)
    ensures o.state.critical == s.critical && s.declared <= o.state.declared
    ensures s.outputs + [DECL_SEC] <= o.state.outputs
    ensures Progress(s, o) && (o.result.Ok? <==> !o.state.declSection)
    ensures s.critical.Some? ==> o == Outcome(Push(s.(declSection := true), DECL_SEC), Err(s.critical.value))
  {
    var first := Decl(t, Push(s.(declSection := true), DECL_SEC));
    if first.result.Err? then first
    else
      var rest := DeclSec(t, first.state);
      var s2 := if rest.result.Err? then Restore(rest.state, first.state) else rest.state;
      Outcome(s2.(declSection := false), Ok)
  }

  /** DECL -> ID_LIST : TYPE ; */
  function Decl(t: string, s: State): (o: Outcome)
    requires Consistent(t, s)
    ensures Consistent(t, o.state) && RuleStep(s, o.state, o.result, DECL) && Closes(t, s, o, ';')
  {
    if s.critical.Some? then Outcome(s, Err(s.critical.value))
    else
      var o1 := IdList(t, Push(s, DECL));
      if o1.result.Err? then o1
      else
        var o2 := Next(t, o1.state, ":");
        if o2.result.Err? then o2
        else
          var o3 := Type(t, o2.state);
          if o3.result.Err? then o3 else Next(t, o3.state, ";")
  }

  /** ID_LIST -> ID { , ID } */
  function IdList(t: string, s: State): (o: Outcome)
    requires Consistent(t, s)
    decreases |t| - s.cursor
    ensures Consistent(t, o.state) && RuleStep(s, o.state, o.result, ID_LIST) && Progress(s, o)
  {
    if s.critical.Some? then Outcome(s, Err(s.critical.value))
    else
      var o1 := Id(t, Push(s, ID_LIST));
      if o1.result.Err? then o1
      else if Peek(t, o1.state, ",") then IdList(t, Next(t, Skip(t, o1.state), ",").state)
      else Outcome(Skip(t, o1.state), Ok)
  }

  // ----- statements -----

  /** STMT_SEC -> STMT { STMT }: greedy; a failed further statement is rolled back and ignored. */
  function StmtSec(t: string, s: State): (o: Outcome)
    requires Consistent(t, s)
    decreases |t| - s.cursor, 6
    ensures Consistent(t, o.state) && RuleStep(s, o.state, o.result, STMT_SEC) && Progress(s, o)
  {
    if s.critical.Some? then Outcome(s, Err(s.critical.value))
    else
      var first := Stmt(t, Push(s, STMT_SEC));
      if first.result.Err? then first
      else
        var rest := StmtSec(t, first.state);
        Outcome(if rest.result.Err? then Restore(rest.state, first.state) else rest.state, Ok)
  }

  /**
   * STMT -> ASSIGN | IF_STMT | WHILE_STMT | INPUT | OUTPUT, tried in this order;
   * each failed attempt is rolled back before the next one.
   */
  function Stmt(t: string, s: State): (o: Outcome)
    requires Consistent(t, s)
    decreases |t| - s.cursor, 5
    ensures Consistent(t, o.state) && RuleStep(s, o.state, o.result, STMT) && Closes(t, s, o, ';')
  {
    if s.critical.Some? then Outcome(s, Err(s.critical.value))
    else
      var a := Attempt(t, Push(s, STMT), ASSIGN);
      if a.result.Ok? then a
      else
        var b := Attempt(t, a.state, IF_STMT);
        if b.result.Ok? then b
        else
          var c := Attempt(t, b.state, WHILE_STMT);
          if c.result.Ok? then c else Alternatives(t, c.state)
  }

  /** The last two alternatives of STMT, INPUT and OUTPUT, and the error when both fail. */
  function Alternatives(t: string, s: State): (o: Outcome)
    requires Consistent(t, s)
    decreases |t| - s.cursor, 4
    ensures Consistent(t, o.state) && Monotone(s, o.state) && SectionKept(s, o.state) && Closes(t, s, o, ';')
  {
    var d := Attempt(t, s, INPUT);
    if d.result.Ok? then d
    else
      var e := Attempt(t, d.state, OUTPUT);
      if e.result.Ok? then e
      else Outcome(e.state, Err(SyntaxError(ExpectedStatement, e.state.line)))
  }

  /** One alternative of STMT: the rule is run, and the snapshot is restored if it fails. */
  function Attempt(t: string, s: State, rule: Rule): (o: Outcome)
    requires Consistent(t, s) && rule in StatementRules
    decreases |t| - s.cursor, 3
    ensures Consistent(t, o.state) && Monotone(s, o.state) && SectionKept(s, o.state)
    ensures Refused(s, o.state, o.result) && Closes(t, s, o, ';')
    ensures o.result.Ok? && s.critical.None? ==> s.outputs + [rule] <= o.state.outputs
    ensures o.result.Err? && o.state.critical.None? ==> o.state == s
  {
    var tried :=
      match rule
      case ASSIGN => Assign(t, s)
      case IF_STMT => IfStmt(t, s)
      case WHILE_STMT => WhileStmt(t, s)
      case INPUT => Input(t, s)
      case OUTPUT => Output(t, s);
    if tried.result.Err? then Outcome(Restore(tried.state, s), tried.result) else tried
  }

  /** ASSIGN -> ID := EXPR ; */
  function Assign(t: string, s: State): (o: Outcome)
    requires Consistent(t, s)
    ensures Consistent(t, o.state) && RuleStep(s, o.state, o.result, ASSIGN) && Closes(t, s, o, ';')
  {
    if s.critical.Some? then Outcome(s, Err(s.critical.value))
    else
      var o1 := Id(t, Push(s, ASSIGN));
      if o1.result.Err? then o1
      else
        var o2 := Next(t, o1.state, ":=");
        if o2.result.Err? then o2
        else
          var o3 := Expr(t, o2.state);
          if o3.result.Err? then o3 else Next(t, o3.state, ";")
  }

  /** IF_STMT -> if COMP then STMT_SEC [ else STMT_SEC ] end if ; */
  function IfStmt(t: string, s: State): (o: Outcome)
    requires Consistent(t, s)
    decreases |t| - s.cursor, 2
    ensures Consistent(t, o.state) && RuleStep(s, o.state, o.result, IF_STMT) && Closes(t, s, o, ';')
  {
    if s.critical.Some? then Outcome(s, Err(s.critical.value))
    else
      var o1 := Next(t, Push(s, IF_STMT), "if");
      if o1.result.Err? then o1
      else
        var o2 := Comp(t, o1.state);
        if o2.result.Err? then o2
        else
          var o3 := Next(t, o2.state, "then");
          if o3.result.Err? then o3 else Branches(t, o3.state)
  }

  /** The part of IF_STMT after `then`: STMT_SEC [ else STMT_SEC ] end if ; */
  function Branches(t: string, s: State): (o: Outcome)
    requires Consistent(t, s)
    decreases |t| - s.cursor, 7
    ensures Consistent(t, o.state) && Monotone(s, o.state) && SectionKept(s, o.state)
    ensures Refused(s, o.state, o.result) && Closes(t, s, o, ';')
  {
    var o1 := StmtSec(t, s);
    if o1.result.Err? then o1
    else
      var s2 := Skip(t, o1.state);
      if Peek(t, o1.state, "else") then
        var o3 := StmtSec(t, Next(t, s2, "else").state);
        if o3.result.Err? then o3 else Closing(t, o3.state, "if")
      else
        Closing(t, s2, "if")
  }

  /** The `end <keyword> ;` that closes IF_STMT and WHILE_STMT. */
  function Closing(t: string, s: State, keyword: string): (o: Outcome)
    requires Consistent(t, s)
    ensures Consistent(t, o.state) && PositionOnly(s, o.state) && Closes(t, s, o, ';')
  {
    var o1 := Next(t, s, "end");
    if o1.result.Err? then o1
    else
      var o2 := Next(t, o1.state, keyword);
      if o2.result.Err? then o2 else Next(t, o2.state, ";")
  }

  /** WHILE_STMT -> while COMP loop STMT_SEC end loop ; */
  function WhileStmt(t: string, s: State): (o: Outcome)
    requires Consistent(t, s)
    decreases |t| - s.cursor, 2
    ensures Consistent(t, o.state) && RuleStep(s, o.state, o.result, WHILE_STMT) && Closes(t, s, o, ';')
  {
    if s.critical.Some? then Outcome(s, Err(s.critical.value))
    else
      var o1 := Next(t, Push(s, WHILE_STMT), "while");
      if o1.result.Err? then o1
      else
        var o2 := Comp(t, o1.state);
        if o2.result.Err? then o2 else LoopBody(t, o2.state)
  }

  /** The part of WHILE_STMT after the condition: loop STMT_SEC end loop ; */
  function LoopBody(t: string, s: State): (o: Outcome)
    requires Consistent(t, s)
    decreases |t| - s.cursor, 0
    ensures Consistent(t, o.state) && Monotone(s, o.state) && SectionKept(s, o.state)
    ensures Closes(t, s, o, ';')
  {
    var o1 := Next(t, s, "loop");
    if o1.result.Err? then o1
    else
      var o2 := StmtSec(t, o1.state);
      if o2.result.Err? then o2 else Closing(t, o2.state, "loop")
  }

  /** INPUT -> input ID_LIST ; */
  function Input(t: string, s: State): (o: Outcome)
    requires Consistent(t, s)
    ensures Consistent(t, o.state) && RuleStep(s, o.state, o.result, INPUT) && Closes(t, s, o, ';')
  {
    if s.critical.Some? then Outcome(s, Err(s.critical.value))
    else
      var o1 := Next(t, Push(s, INPUT), "input");
      if o1.result.Err? then o1
      else
        var o2 := IdList(t, o1.state);
        if o2.result.Err? then o2 else Next(t, o2.state, ";")
  }

  /** OUTPUT -> output ( ID_LIST | NUM ) ; */
  function Output(t: string, s: State): (o: Outcome)
    requires Consistent(t, s)
    ensures Consistent(t, o.state) && RuleStep(s, o.state, o.result, OUTPUT) && Closes(t, s, o, ';')
  {
    if s.critical.Some? then Outcome(s, Err(s.critical.value))
    else
      var o1 := Next(t, Push(s, OUTPUT), "output");
      if o1.result.Err? then o1 else Written(t, o1.state)
  }

  /**
   * The `( ID_LIST | NUM ) ;` part of OUTPUT: the identifier list is tried
   * first and rolled back if it fails. When no identifier follows, the number
   * is read instead and the trace is as before.
   */
  function Written(t: string, s: State): (o: Outcome)
    requires Consistent(t, s)
    ensures Consistent(t, o.state) && Monotone(s, o.state) && SectionKept(s, o.state) && Closes(t, s, o, ';')
  {
    var ids := IdList(t, s);
    if ids.result.Ok? then Next(t, ids.state, ";")
    else
      var n := Num(t, Restore(ids.state, s));
      if n.result.Err? then n else Next(t, n.state, ";")
  }

  // ----- expressions -----

  /** EXPR -> FACTOR [ (+ | -) EXPR ] */
  function Expr(t: string, s: State): (o: Outcome)
    requires Consistent(t, s)
    decreases |t| - s.cursor, 3
    ensures Consistent(t, o.state) && RuleStep(s, o.state, o.result, EXPR) && Progress(s, o)
  {
    if s.critical.Some? then Outcome(s, Err(s.critical.value))
    else
      var o1 := Factor(t, Push(s, EXPR));
      if o1.result.Err? then o1 else ExprTail(t, o1.state)
  }

  /** The optional `(+ | -) EXPR` after the first factor of EXPR; `+` is looked for first. */
  function ExprTail(t: string, s: State): (o: Outcome)
    requires Consistent(t, s)
    decreases |t| - s.cursor, 0
    ensures Consistent(t, o.state) && Monotone(s, o.state) && SectionKept(s, o.state)
    ensures !Peek(t, s, "+") && !Peek(t, s, "-") ==> o == Outcome(Skip(t, s), Ok)
  {
    var s1 := Skip(t, s);
    if Peek(t, s, "+") then Expr(t, Next(t, s1, "+").state)
    else
      var s2 := Skip(t, s1);
      if Peek(t, s1, "-") then Expr(t, Next(t, s2, "-").state)
      else Outcome(s2, Ok)
  }

  /** FACTOR -> OPERAND [ (* | /) FACTOR ] */
  function Factor(t: string, s: State): (o: Outcome)
    requires Consistent(t, s)
    decreases |t| - s.cursor, 2
    ensures Consistent(t, o.state) && RuleStep(s, o.state, o.result, FACTOR) && Progress(s, o)
  {
    if s.critical.Some? then Outcome(s, Err(s.critical.value))
    else
      var o1 := Operand(t, Push(s, FACTOR));
      if o1.result.Err? then o1 else FactorTail(t, o1.state)
  }

  /** The optional `(* | /) FACTOR` after the operand of FACTOR; `*` is looked for first. */
  function FactorTail(t: string, s: State): (o: Outcome)
    requires Consistent(t, s)
    decreases |t| - s.cursor, 0
    ensures Consistent(t, o.state) && Monotone(s, o.state) && SectionKept(s, o.state)
    ensures !Peek(t, s, "*") && !Peek(t, s, "/") ==> o == Outcome(Skip(t, s), Ok)
  {
    var s1 := Skip(t, s);
    if Peek(t, s, "*") then Factor(t, Next(t, s1, "*").state)
    else
      var s2 := Skip(t, s1);
      if Peek(t, s1, "/") then Factor(t, Next(t, s2, "/").state)
      else Outcome(s2, Ok)
  }

  /**
   * OPERAND -> NUM | ID | ( EXPR ), tried in this order; a failed number or
   * identifier is rolled back before the next alternative.
   */
  function Operand(t: string, s: State): (o: Outcome)
    requires Consistent(t, s)
    decreases |t| - s.cursor, 1
    ensures Consistent(t, o.state) && RuleStep(s, o.state, o.result, OPERAND) && Progress(s, o)
    ensures var start := WhitespaceEnd(t, s.cursor);
      s.critical.None? && ScanNumber(t, start).accepted ==>
        o == Outcome(At(t, Push(s, OPERAND), ScanNumber(t, start).end), Ok)
    ensures var start := WhitespaceEnd(t, s.cursor);
      s.critical.None? && !ScanNumber(t, start).accepted &&
      IdentifierAt(t, s.cursor) != [] && IdentifierAt(t, s.cursor) !in Keywords ==>
        o.result.Ok? && o.state.cursor == IdentEnd(t, start) && o.state.outputs == s.outputs + [OPERAND]
    ensures var start := WhitespaceEnd(t, s.cursor);
      s.critical.None? && !ScanNumber(t, start).accepted &&
      (IdentifierAt(t, s.cursor) == [] || IdentifierAt(t, s.cursor) in Keywords) ==>
        o == Parenthesized(t, Push(s, OPERAND))
  {
    if s.critical.Some? then Outcome(s, Err(s.critical.value))
    else
      var s1 := Push(s, OPERAND);
      var n := Num(t, s1);
      if n.result.Ok? then n
      else
        var s2 := Restore(n.state, s1);
        var i := Id(t, s2);
        if i.result.Ok? then i else Parenthesized(t, Restore(i.state, s2))
  }

  /** The `( EXPR )` alternative of OPERAND. */
  function Parenthesized(t: string, s: State): (o: Outcome)
    requires Consistent(t, s)
    decreases |t| - s.cursor, 0
    ensures Consistent(t, o.state) && Monotone(s, o.state) && SectionKept(s, o.state)
    ensures Closes(t, s, o, ')') && (o.result.Ok? ==> s.outputs + [EXPR] <= o.state.outputs)
  {
    var o1 := Next(t, s, "(");
    if o1.result.Err? then o1
    else
      var o2 := Expr(t, o1.state);
      if o2.result.Err? then o2 else Next(t, o2.state, ")")
  }

  /** COMP -> ( OPERAND (= | <> | > | <) OPERAND ) */
  function Comp(t: string, s: State): (o: Outcome)
    requires Consistent(t, s)
    ensures Consistent(t, o.state) && RuleStep(s, o.state, o.result, COMP) && Closes(t, s, o, ')')
  {
    if s.critical.Some? then Outcome(s, Err(s.critical.value))
    else
      var o1 := Next(t, Push(s, COMP), "(");
      if o1.result.Err? then o1
      else
        var o2 := Operand(t, o1.state);
        if o2.result.Err? then o2 else Comparison(t, o2.state)
  }

  /**
   * The part of COMP after the first operand: the operators are looked for in
   * the order `=`, `<>`, `>`, `<`, and the first one present is taken.
   */
  function Comparison(t: string, s: State): (o: Outcome)
    requires Consistent(t, s)
    ensures Consistent(t, o.state) && Monotone(s, o.state) && SectionKept(s, o.state) && Closes(t, s, o, ')')
    ensures !Peek(t, s, "=") && !Peek(t, s, "<>") && !Peek(t, s, ">") && !Peek(t, s, "<") ==>
      o == Outcome(Skip(t, s), Err(SyntaxError(ExpectedComparison, Skip(t, s).line)))
  {
    var s1 := Skip(t, s);
    if Peek(t, s, "=") then RightOperand(t, Next(t, s1, "=").state)
    else
      var s2 := Skip(t, s1);
      if Peek(t, s1, "<>") then RightOperand(t, Next(t, s2, "<>").state)
      else
        var s3 := Skip(t, s2);
        if Peek(t, s2, ">") then RightOperand(t, Next(t, s3, ">").state)
        else
          var s4 := Skip(t, s3);
          if Peek(t, s3, "<") then RightOperand(t, Next(t, s4, "<").state)
          else Outcome(s4, Err(SyntaxError(ExpectedComparison, s4.line)))
  }

  /** The `OPERAND )` that ends each alternative of COMP. */
  function RightOperand(t: string, s: State): (o: Outcome)
    requires Consistent(t, s)
    ensures Consistent(t, o.state) && Monotone(s, o.state) && SectionKept(s, o.state) && Closes(t, s, o, ')')
  {
    var o1 := Operand(t, s);
    if o1.result.Err? then o1 else Next(t, o1.state, ")")
  }
}
