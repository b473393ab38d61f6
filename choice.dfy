/**
 * The recogniser's two backtracking disciplines, each stated against a
 * definition of its own: ordered choice (STMT tries its alternatives in
 * order, each from the same snapshot, and keeps the first that succeeds;
 * OPERAND, the OUTPUT operand and the declaration preamble do the same with
 * two or three alternatives) and greedy repetition (DECL_SEC and STMT_SEC
 * take one more item as long as one parses, and roll a failed attempt back to
 * the state after the last item).
 *
 * A sticky error disables both: once it is set, nothing is rolled back and
 * every later rule fails at its consistency check.
 */
module Choice {
  import opened Diagnostics
  import opened Lexical
  import opened Semantics

  /** The statement alternatives in the order STMT tries them. */
  const StatementOrder: seq<Rule> := [ASSIGN, IF_STMT, WHILE_STMT, INPUT, OUTPUT]

  /**
   * Ordered choice among `rules`, each tried from the snapshot `p`: the first
   * success is the outcome. When no alternative succeeds the error is
   * "expected a statement" at the line the record is left on; a failed
   * alternative that set the sticky error leaves the record where it failed.
   */
  ghost function FirstStatement(t: string, p: State, rules: seq<Rule>): Outcome
    requires Consistent(t, p) && p.critical.None?
    requires forall k | 0 <= k < |rules| :: rules[k] in StatementRules
    decreases |rules|
  {
    if rules == [] then Outcome(p, Err(SyntaxError(ExpectedStatement, p.line)))
    else
      var a := Attempt(t, p, rules[0]);
      if a.result.Ok? then a
      else if a.state.critical.Some? then Outcome(a.state, Err(SyntaxError(ExpectedStatement, a.state.line)))
      else FirstStatement(t, p, rules[1..])
  }

  /** Once the sticky error is set the remaining alternatives change nothing. */
  lemma {:induction false} AttemptsRefused(t: string, x: State, rules: seq<Rule>)
    requires Consistent(t, x) && x.critical.Some?
    requires forall k | 0 <= k < |rules| :: rules[k] in StatementRules
    ensures forall k | 0 <= k < |rules| :: Attempt(t, x, rules[k]) == Outcome(x, Err(x.critical.value))
  {
    forall k | 0 <= k < |rules|
      ensures Attempt(t, x, rules[k]) == Outcome(x, Err(x.critical.value))
    {
      assert Refused(x, Attempt(t, x, rules[k]).state, Attempt(t, x, rules[k]).result);
    }
  }

  /** STMT is ordered choice among its five alternatives, all tried from the state after STMT is recorded. */
  lemma {:induction false} StmtChoice(t: string, s: State)
    requires Consistent(t, s) && s.critical.None?
    ensures Stmt(t, s) == FirstStatement(t, Push(s, STMT), StatementOrder)
  {
    var p := Push(s, STMT);
    var a := Attempt(t, p, ASSIGN);
    if a.result.Err? && a.state.critical.Some? {
      AttemptsRefused(t, a.state, [IF_STMT, WHILE_STMT, INPUT, OUTPUT]);
    } else if a.result.Err? {
      var b := Attempt(t, p, IF_STMT);
      if b.result.Err? && b.state.critical.Some? {
        AttemptsRefused(t, b.state, [WHILE_STMT, INPUT, OUTPUT]);
      } else if b.result.Err? {
        var c := Attempt(t, p, WHILE_STMT);
        if c.result.Err? && c.state.critical.Some? {
          AttemptsRefused(t, c.state, [INPUT, OUTPUT]);
        } else if c.result.Err? {
          var d := Attempt(t, p, INPUT);
          if d.result.Err? && d.state.critical.Some? {
            AttemptsRefused(t, d.state, [OUTPUT]);
          }
        }
      }
    }
  }

  // ----- STATEMENT and DECLARATION sections -----

  /**
   * STMT_SEC succeeds exactly when its first statement does. After that
   * statement one more STMT_SEC is tried: its success is the outcome, and its
   * failure without a sticky error leaves the record as the first statement
   * left it.
   */
  lemma StmtSecRepeat(t: string, s: State)
    requires Consistent(t, s) && s.critical.None?
    ensures var first := Stmt(t, Push(s, STMT_SEC)); var o := StmtSec(t, s);
      && (o.result.Ok? <==> first.result.Ok?)
      && (first.result.Err? ==> o == first)
      && (first.result.Ok? ==>
            var rest := StmtSec(t, first.state);
            && (rest.result.Ok? ==> o.state == rest.state)
            && (rest.result.Err? && rest.state.critical.None? ==> o.state == first.state))
  {
  }

  /**
   * STMT_SEC is greedy: where a successful section stops, without a sticky
   * error, another section cannot start.
   */
  lemma {:induction false} StmtSecMaximal(t: string, s: State)
    requires Consistent(t, s)
    decreases |t| - s.cursor
    ensures var o := StmtSec(t, s);
      o.result.Ok? && o.state.critical.None? ==> StmtSec(t, o.state).result.Err?
  {
    var o := StmtSec(t, s);
    if o.result.Ok? && o.state.critical.None? {
      assert s.critical.None?;
      var first := Stmt(t, Push(s, STMT_SEC));
      assert first.result.Ok?;
      StmtSecRepeat(t, s);
      var rest := StmtSec(t, first.state);
      if rest.result.Ok? {
        StmtSecMaximal(t, first.state);
      } else {
        assert o.state == first.state;
      }
    }
  }

  /** DECL_SEC sets the declaration flag itself, so the flag it is entered with does not matter. */
  lemma DeclSecFlag(t: string, s: State, flag: bool)
    requires Consistent(t, s)
    ensures DeclSec(t, s) == DeclSec(t, s.(declSection := flag))
  {
    assert s.(declSection := flag).(declSection := true) == s.(declSection := true);
  }

  /**
   * The same for DECL_SEC, which also clears the declaration flag on success:
   * it succeeds exactly when its first declaration does, and a failed further
   * DECL_SEC leaves the record as the first declaration left it.
   */
  lemma DeclSecRepeat(t: string, s: State)
    requires Consistent(t, s)
    ensures var first := Decl(t, Push(s.(declSection := true), DECL_SEC)); var o := DeclSec(t, s);
      && (o.result.Ok? <==> first.result.Ok?)
      && (first.result.Err? ==> o == first)
      && (first.result.Ok? ==>
            var rest := DeclSec(t, first.state);
            && (rest.result.Ok? ==> o.state == rest.state.(declSection := false))
            && (rest.result.Err? ==> o.state == first.state.(declSection := false)))
  {
  }

  /** DECL_SEC is greedy: where a successful section stops, another section cannot start. */
  lemma {:induction false} DeclSecMaximal(t: string, s: State)
    requires Consistent(t, s)
    decreases |t| - s.cursor
    ensures var o := DeclSec(t, s); o.result.Ok? ==> DeclSec(t, o.state).result.Err?
  {
    var o := DeclSec(t, s);
    if o.result.Ok? {
      var first := Decl(t, Push(s.(declSection := true), DECL_SEC));
      DeclSecRepeat(t, s);
      var rest := DeclSec(t, first.state);
      DeclSecFlag(t, first.state, false);
      if rest.result.Ok? {
        DeclSecMaximal(t, first.state);
        DeclSecFlag(t, rest.state, false);
      }
    }
  }

  // ----- the two-way choices -----

  /**
   * The operand of OUTPUT: an identifier list is tried first; when it fails
   * without a sticky error, a number is read from the snapshot taken before
   * the list.
   */
  lemma WrittenChoice(t: string, w: State)
    requires Consistent(t, w) && w.critical.None?
    ensures var ids := IdList(t, w);
      && (ids.result.Ok? ==> Written(t, w) == Next(t, ids.state, ";"))
      && (ids.result.Err? && ids.state.critical.None? ==>
            Written(t, w) == (var n := Num(t, w); if n.result.Err? then n else Next(t, n.state, ";")))
  {
  }

  /** With no identifier after `output`, the number branch is taken and the trace records no ID_LIST. */
  lemma WrittenNumber(t: string, w: State)
    requires Consistent(t, w) && w.critical.None? && IdentifierAt(t, w.cursor) == []
    ensures Written(t, w) == (var n := Num(t, w); if n.result.Err? then n else Next(t, n.state, ";"))
    ensures Written(t, w).state.outputs == w.outputs
  {
    var i := Id(t, Push(w, ID_LIST));
    assert i.result.Err? && i.state.critical.None?;
  }

  /**
   * The declaration preamble: with `begin` next there is no DECL_SEC and the
   * trace is unchanged; otherwise DECL_SEC is entered before `begin` is read.
   */
  lemma PreambleChoice(t: string, s: State)
    requires Consistent(t, s)
    ensures Peek(t, s, "begin") ==> Preamble(t, s) == Next(t, s, "begin") && Preamble(t, s).state.outputs == s.outputs
    ensures !Peek(t, s, "begin") ==> s.outputs + [DECL_SEC] <= Preamble(t, s).state.outputs
  {
  }
}
