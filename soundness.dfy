/**
 * Soundness of the recogniser with respect to the productions: whenever a rule
 * succeeds and no sticky error is set afterwards, the text it consumed derives
 * its nonterminal. ID_LIST, EXPR and FACTOR end by looking for an operator or a
 * comma, which skips the whitespace after them; their derivation ends before
 * that whitespace.
 *
 * A success with a sticky error set proves nothing: a failed further statement
 * or declaration is then not rolled back, and the cursor may be left anywhere.
 */
module Soundness {
  import opened Diagnostics
  import opened Lexical
  import opened Semantics
  import G = Grammar
  import C = Choice

  // ----- tokens -----

  lemma {:induction false} NextSound(t: string, s: State, q: string)
    requires Consistent(t, s)
    ensures var o := Next(t, s, q); o.result.Ok? ==> G.Lit(t, s.cursor, o.state.cursor, q)
  {
    G.SpacedToEnd(t, s.cursor);
  }

  lemma {:induction false} IdSound(t: string, s: State)
    requires Consistent(t, s)
    ensures var o := Id(t, s); o.result.Ok? ==> G.Ident(t, s.cursor, o.state.cursor)
  {
    var k := WhitespaceEnd(t, s.cursor);
    G.SpacedToEnd(t, s.cursor);
    assert G.Spaced(t, s.cursor, k);
  }

  lemma {:induction false} NumSound(t: string, s: State)
    requires Consistent(t, s)
    ensures var o := Num(t, s); o.result.Ok? ==> G.Number(t, s.cursor, o.state.cursor)
  {
    var k := WhitespaceEnd(t, s.cursor);
    G.SpacedToEnd(t, s.cursor);
    assert G.Spaced(t, s.cursor, k);
  }

  lemma {:induction false} TypeSound(t: string, s: State)
    requires Consistent(t, s)
    ensures var o := Type(t, s); o.result.Ok? ==> G.Type(t, s.cursor, o.state.cursor)
  {
    G.SpacedToEnd(t, s.cursor);
  }

  // ----- PROGRAM and the declarations -----

  lemma {:induction false} ProgramSound(t: string, s: State)
    requires Consistent(t, s)
    ensures var o := Program(t, s);
      o.result.Ok? && o.state.critical.None? ==> G.Program(t, s.cursor, o.state.cursor)
  {
    var o := Program(t, s);
    if o.result.Ok? && o.state.critical.None? {
      var o1 := Next(t, Push(s, PROGRAM), "program");
      NextSound(t, Push(s, PROGRAM), "program");
      BodySound(t, o1.state);
    }
  }

  lemma {:induction false} BodySound(t: string, s: State)
    requires Consistent(t, s)
    ensures var o := Body(t, s);
      o.result.Ok? && o.state.critical.None? ==> G.Body(t, s.cursor, o.state.cursor)
  {
    var o := Body(t, s);
    if o.result.Ok? && o.state.critical.None? {
      var o1 := Preamble(t, s);
      PreambleSound(t, s);
      var o2 := StmtSec(t, o1.state);
      StmtSecSound(t, o1.state);
      var o3 := Next(t, o2.state, "end");
      NextSound(t, o2.state, "end");
      NextSound(t, o3.state, ";");
      assert G.Ending(t, o2.state.cursor, o.state.cursor);
    }
  }

  lemma {:induction false} PreambleSound(t: string, s: State)
    requires Consistent(t, s)
    ensures var o := Preamble(t, s);
      o.result.Ok? && o.state.critical.None? ==> G.Preamble(t, s.cursor, o.state.cursor)
  {
    var o := Preamble(t, s);
    if o.result.Ok? && o.state.critical.None? {
      var s1 := Skip(t, s);
      G.SpacedToEnd(t, s.cursor);
      if Peek(t, s, "begin") {
        NextSound(t, s1, "begin");
        G.LitAbsorb(t, s.cursor, s1.cursor, o.state.cursor, "begin");
      } else {
        var o1 := DeclSec(t, s1);
        DeclSecSound(t, s1);
        G.DeclSecAbsorb(t, s.cursor, s1.cursor, o1.state.cursor);
        NextSound(t, o1.state, "begin");
      }
    }
  }

  lemma {:induction false} DeclSecSound(t: string, s: State)
    requires Consistent(t, s)
    decreases |t| - s.cursor
    ensures var o := DeclSec(t, s);
      o.result.Ok? && o.state.critical.None? ==> G.DeclSec(t, s.cursor, o.state.cursor)
  {
    var o := DeclSec(t, s);
    if o.result.Ok? && o.state.critical.None? {
      var s0 := Push(s.(declSection := true), DECL_SEC);
      var first := Decl(t, s0);
      DeclSound(t, s0);
      var rest := DeclSec(t, first.state);
      if rest.result.Ok? {
        DeclSecSound(t, first.state);
      }
    }
  }

  lemma {:induction false} DeclSound(t: string, s: State)
    requires Consistent(t, s)
    ensures var o := Decl(t, s);
      o.result.Ok? && o.state.critical.None? ==> G.Decl(t, s.cursor, o.state.cursor)
  {
    var o := Decl(t, s);
    if o.result.Ok? && o.state.critical.None? {
      var o1 := IdList(t, Push(s, DECL));
      IdListSound(t, Push(s, DECL));
      var e :| s.cursor < e <= o1.state.cursor && G.IdList(t, s.cursor, e) && G.Spaced(t, e, o1.state.cursor);
      var o2 := Next(t, o1.state, ":");
      NextSound(t, o1.state, ":");
      G.LitAbsorb(t, e, o1.state.cursor, o2.state.cursor, ":");
      var o3 := Type(t, o2.state);
      TypeSound(t, o2.state);
      NextSound(t, o3.state, ";");
      assert G.Decl(t, s.cursor, o.state.cursor) by {
        assert s.cursor < e < o2.state.cursor < o3.state.cursor < o.state.cursor;
      }
    }
  }

  lemma {:induction false} IdListSound(t: string, s: State)
    requires Consistent(t, s)
    decreases |t| - s.cursor
    ensures var o := IdList(t, s);
      o.result.Ok? && o.state.critical.None? ==>
        exists e :: s.cursor < e <= o.state.cursor && G.IdList(t, s.cursor, e) && G.Spaced(t, e, o.state.cursor)
  {
    var o := IdList(t, s);
    if o.result.Ok? && o.state.critical.None? {
      var o1 := Id(t, Push(s, ID_LIST));
      IdSound(t, Push(s, ID_LIST));
      var s1 := Skip(t, o1.state);
      G.SpacedToEnd(t, o1.state.cursor);
      if Peek(t, o1.state, ",") {
        var o2 := Next(t, s1, ",");
        NextSound(t, s1, ",");
        G.LitAbsorb(t, o1.state.cursor, s1.cursor, o2.state.cursor, ",");
        IdListSound(t, o2.state);
        var e :| o2.state.cursor < e <= o.state.cursor && G.IdList(t, o2.state.cursor, e) && G.Spaced(t, e, o.state.cursor);
        G.IdListMore(t, s.cursor, o1.state.cursor, o2.state.cursor, e);
      } else {
        G.IdListOne(t, s.cursor, o1.state.cursor);
      }
    }
  }

  // ----- statements -----

  lemma {:induction false} StmtSecSound(t: string, s: State)
    requires Consistent(t, s)
    decreases |t| - s.cursor, 5
    ensures var o := StmtSec(t, s);
      o.result.Ok? && o.state.critical.None? ==> G.StmtSec(t, s.cursor, o.state.cursor)
  {
    var o := StmtSec(t, s);
    if o.result.Ok? && o.state.critical.None? {
      var first := Stmt(t, Push(s, STMT_SEC));
      StmtSound(t, Push(s, STMT_SEC));
      var rest := StmtSec(t, first.state);
      if rest.result.Ok? {
        StmtSecSound(t, first.state);
      }
    }
  }

  lemma {:induction false} StmtSound(t: string, s: State)
    requires Consistent(t, s)
    decreases |t| - s.cursor, 4
    ensures var o := Stmt(t, s);
      o.result.Ok? && o.state.critical.None? ==> G.Stmt(t, s.cursor, o.state.cursor)
  {
    if s.critical.None? {
      C.StmtChoice(t, s);
      FirstStatementSound(t, Push(s, STMT), C.StatementOrder);
    }
  }

  lemma {:induction false} FirstStatementSound(t: string, p: State, rules: seq<Rule>)
    requires Consistent(t, p) && p.critical.None?
    requires forall k | 0 <= k < |rules| :: rules[k] in StatementRules
    decreases |t| - p.cursor, 3, |rules| + 1
    ensures var o := C.FirstStatement(t, p, rules);
      o.result.Ok? && o.state.critical.None? ==> G.Stmt(t, p.cursor, o.state.cursor)
  {
    if rules != [] {
      var a := Attempt(t, p, rules[0]);
      AttemptSound(t, p, rules[0]);
      if a.result.Ok? {
        assert C.FirstStatement(t, p, rules) == a;
      } else if a.state.critical.None? {
        assert C.FirstStatement(t, p, rules) == C.FirstStatement(t, p, rules[1..]);
        FirstStatementSound(t, p, rules[1..]);
      }
    }
  }

  lemma {:induction false} AttemptSound(t: string, s: State, rule: Rule)
    requires Consistent(t, s) && rule in StatementRules
    decreases |t| - s.cursor, 3, 0
    ensures var o := Attempt(t, s, rule);
      o.result.Ok? && o.state.critical.None? ==> G.Stmt(t, s.cursor, o.state.cursor)
  {
    match rule {
      case ASSIGN => AssignSound(t, s);
      case IF_STMT => IfStmtSound(t, s);
      case WHILE_STMT => WhileStmtSound(t, s);
      case INPUT => InputSound(t, s);
      case OUTPUT => OutputSound(t, s);
    }
  }

  lemma {:induction false} AssignSound(t: string, s: State)
    requires Consistent(t, s)
    ensures var o := Assign(t, s);
      o.result.Ok? && o.state.critical.None? ==> G.Assign(t, s.cursor, o.state.cursor)
  {
    var o := Assign(t, s);
    if o.result.Ok? && o.state.critical.None? {
      var o1 := Id(t, Push(s, ASSIGN));
      IdSound(t, Push(s, ASSIGN));
      var o2 := Next(t, o1.state, ":=");
      NextSound(t, o1.state, ":=");
      var o3 := Expr(t, o2.state);
      ExprSound(t, o2.state);
      var e :| o2.state.cursor < e <= o3.state.cursor && G.Expr(t, o2.state.cursor, e) && G.Spaced(t, e, o3.state.cursor);
      NextSound(t, o3.state, ";");
      G.LitAbsorb(t, e, o3.state.cursor, o.state.cursor, ";");
      assert G.Assign(t, s.cursor, o.state.cursor) by {
        assert s.cursor < o1.state.cursor < o2.state.cursor < e < o.state.cursor;
      }
    }
  }

  lemma {:induction false} IfStmtSound(t: string, s: State)
    requires Consistent(t, s)
    decreases |t| - s.cursor, 2
    ensures var o := IfStmt(t, s);
      o.result.Ok? && o.state.critical.None? ==> G.IfStmt(t, s.cursor, o.state.cursor)
  {
    var o := IfStmt(t, s);
    if o.result.Ok? && o.state.critical.None? {
      var o1 := Next(t, Push(s, IF_STMT), "if");
      NextSound(t, Push(s, IF_STMT), "if");
      var o2 := Comp(t, o1.state);
      CompSound(t, o1.state);
      var o3 := Next(t, o2.state, "then");
      NextSound(t, o2.state, "then");
      BranchesSound(t, o3.state);
      assert G.IfStmt(t, s.cursor, o.state.cursor) by {
        assert s.cursor < o1.state.cursor < o2.state.cursor < o3.state.cursor < o.state.cursor;
      }
    }
  }

  lemma {:induction false} BranchesSound(t: string, s: State)
    requires Consistent(t, s)
    decreases |t| - s.cursor, 6
    ensures var o := Branches(t, s);
      o.result.Ok? && o.state.critical.None? ==> G.Branches(t, s.cursor, o.state.cursor)
  {
    var o := Branches(t, s);
    if o.result.Ok? && o.state.critical.None? {
      var o1 := StmtSec(t, s);
      StmtSecSound(t, s);
      var s2 := Skip(t, o1.state);
      G.SpacedToEnd(t, o1.state.cursor);
      if Peek(t, o1.state, "else") {
        var n := Next(t, s2, "else");
        NextSound(t, s2, "else");
        G.LitAbsorb(t, o1.state.cursor, s2.cursor, n.state.cursor, "else");
        var o3 := StmtSec(t, n.state);
        StmtSecSound(t, n.state);
        ClosingSound(t, o3.state, "if");
        assert G.Branches(t, s.cursor, o.state.cursor) by {
          assert s.cursor < o1.state.cursor < n.state.cursor < o3.state.cursor < o.state.cursor;
        }
      } else {
        ClosingSound(t, s2, "if");
        G.ClosingAbsorb(t, o1.state.cursor, s2.cursor, o.state.cursor, "if");
      }
    }
  }

  lemma {:induction false} ClosingSound(t: string, s: State, keyword: string)
    requires Consistent(t, s)
    ensures var o := Closing(t, s, keyword);
      o.result.Ok? && |keyword| > 0 ==> G.Closing(t, s.cursor, o.state.cursor, keyword)
  {
    var o := Closing(t, s, keyword);
    if o.result.Ok? && |keyword| > 0 {
      var o1 := Next(t, s, "end");
      NextSound(t, s, "end");
      var o2 := Next(t, o1.state, keyword);
      NextSound(t, o1.state, keyword);
      NextSound(t, o2.state, ";");
    }
  }

  lemma {:induction false} WhileStmtSound(t: string, s: State)
    requires Consistent(t, s)
    decreases |t| - s.cursor, 2
    ensures var o := WhileStmt(t, s);
      o.result.Ok? && o.state.critical.None? ==> G.WhileStmt(t, s.cursor, o.state.cursor)
  {
    var o := WhileStmt(t, s);
    if o.result.Ok? && o.state.critical.None? {
      var o1 := Next(t, Push(s, WHILE_STMT), "while");
      NextSound(t, Push(s, WHILE_STMT), "while");
      var o2 := Comp(t, o1.state);
      CompSound(t, o1.state);
      LoopBodySound(t, o2.state);
    }
  }

  lemma {:induction false} LoopBodySound(t: string, s: State)
    requires Consistent(t, s)
    decreases |t| - s.cursor, 0
    ensures var o := LoopBody(t, s);
      o.result.Ok? && o.state.critical.None? ==> G.LoopBody(t, s.cursor, o.state.cursor)
  {
    var o := LoopBody(t, s);
    if o.result.Ok? && o.state.critical.None? {
      var o1 := Next(t, s, "loop");
      NextSound(t, s, "loop");
      var o2 := StmtSec(t, o1.state);
      StmtSecSound(t, o1.state);
      ClosingSound(t, o2.state, "loop");
    }
  }

  lemma {:induction false} InputSound(t: string, s: State)
    requires Consistent(t, s)
    ensures var o := Input(t, s);
      o.result.Ok? && o.state.critical.None? ==> G.Input(t, s.cursor, o.state.cursor)
  {
    var o := Input(t, s);
    if o.result.Ok? && o.state.critical.None? {
      var o1 := Next(t, Push(s, INPUT), "input");
      NextSound(t, Push(s, INPUT), "input");
      var o2 := IdList(t, o1.state);
      IdListSound(t, o1.state);
      var e :| o1.state.cursor < e <= o2.state.cursor && G.IdList(t, o1.state.cursor, e) && G.Spaced(t, e, o2.state.cursor);
      NextSound(t, o2.state, ";");
      G.LitAbsorb(t, e, o2.state.cursor, o.state.cursor, ";");
    }
  }

  lemma {:induction false} OutputSound(t: string, s: State)
    requires Consistent(t, s)
    ensures var o := Output(t, s);
      o.result.Ok? && o.state.critical.None? ==> G.Output(t, s.cursor, o.state.cursor)
  {
    var o := Output(t, s);
    if o.result.Ok? && o.state.critical.None? {
      var o1 := Next(t, Push(s, OUTPUT), "output");
      NextSound(t, Push(s, OUTPUT), "output");
      WrittenSound(t, o1.state);
    }
  }

  lemma {:induction false} WrittenSound(t: string, s: State)
    requires Consistent(t, s)
    ensures var o := Written(t, s);
      o.result.Ok? && o.state.critical.None? ==> G.Written(t, s.cursor, o.state.cursor)
  {
    var o := Written(t, s);
    if o.result.Ok? && o.state.critical.None? {
      var ids := IdList(t, s);
      IdListSound(t, s);
      if ids.result.Ok? {
        var e :| s.cursor < e <= ids.state.cursor && G.IdList(t, s.cursor, e) && G.Spaced(t, e, ids.state.cursor);
        NextSound(t, ids.state, ";");
        G.LitAbsorb(t, e, ids.state.cursor, o.state.cursor, ";");
      } else {
        var n := Num(t, Restore(ids.state, s));
        NumSound(t, Restore(ids.state, s));
        NextSound(t, n.state, ";");
      }
    }
  }

  // ----- expressions -----

  lemma {:induction false} ExprSound(t: string, s: State)
    requires Consistent(t, s)
    decreases |t| - s.cursor, 3
    ensures var o := Expr(t, s);
      o.result.Ok? && o.state.critical.None? ==>
        exists e :: s.cursor < e <= o.state.cursor && G.Expr(t, s.cursor, e) && G.Spaced(t, e, o.state.cursor)
  {
    var o := Expr(t, s);
    if o.result.Ok? && o.state.critical.None? {
      assert s.critical.None?;
      var o1 := Factor(t, Push(s, EXPR));
      assert o1.result.Ok?;
      ExprUnfold(t, s);
      FactorSound(t, Push(s, EXPR));
      var e1 :| s.cursor < e1 <= o1.state.cursor && G.Factor(t, s.cursor, e1) && G.Spaced(t, e1, o1.state.cursor);
      var s1 := Skip(t, o1.state);
      G.SpacedToEnd(t, o1.state.cursor);
      assert G.Spaced(t, e1, s1.cursor);
      if Peek(t, o1.state, "+") {
        ExprTailPlus(t, o1.state);
        ExprOpSound(t, s.cursor, e1, s1, "+");
      } else if Peek(t, s1, "-") {
        ExprTailMinus(t, o1.state);
        ExprOpSound(t, s.cursor, e1, Skip(t, s1), "-");
      } else {
        G.ExprOne(t, s.cursor, e1);
      }
    }
  }

  /** A FACTOR from `i` to `e1`, whitespace, the operator `op` and an EXPR derive an EXPR. */
  lemma {:induction false} ExprOpSound(t: string, i: nat, e1: nat, y: State, op: string)
    requires Consistent(t, y) && i < e1 && G.Factor(t, i, e1) && G.Spaced(t, e1, y.cursor)
    requires (op == "+" || op == "-") && Peek(t, y, op)
    decreases |t| - y.cursor, 2
    ensures var o := Expr(t, Next(t, y, op).state);
      o.result.Ok? && o.state.critical.None? ==>
        exists e :: i < e <= o.state.cursor && G.Expr(t, i, e) && G.Spaced(t, e, o.state.cursor)
  {
    var n := Next(t, y, op);
    NextSound(t, y, op);
    G.LitAbsorb(t, e1, y.cursor, n.state.cursor, op);
    var o := Expr(t, n.state);
    if o.result.Ok? && o.state.critical.None? {
      ExprSound(t, n.state);
      var e :| n.state.cursor < e <= o.state.cursor && G.Expr(t, n.state.cursor, e) && G.Spaced(t, e, o.state.cursor);
      G.ExprMore(t, i, e1, n.state.cursor, e);
    }
  }

  lemma ExprUnfold(t: string, s: State)
    requires Consistent(t, s) && s.critical.None? && Factor(t, Push(s, EXPR)).result.Ok?
    ensures Expr(t, s) == ExprTail(t, Factor(t, Push(s, EXPR)).state)
  {
  }

  lemma ExprTailPlus(t: string, s: State)
    requires Consistent(t, s) && Peek(t, s, "+")
    ensures ExprTail(t, s) == Expr(t, Next(t, Skip(t, s), "+").state)
  {
  }

  lemma ExprTailMinus(t: string, s: State)
    requires Consistent(t, s) && !Peek(t, s, "+") && Peek(t, Skip(t, s), "-")
    ensures ExprTail(t, s) == Expr(t, Next(t, Skip(t, Skip(t, s)), "-").state)
  {
  }

  lemma {:induction false} FactorSound(t: string, s: State)
    requires Consistent(t, s)
    decreases |t| - s.cursor, 2
    ensures var o := Factor(t, s);
      o.result.Ok? && o.state.critical.None? ==>
        exists e :: s.cursor < e <= o.state.cursor && G.Factor(t, s.cursor, e) && G.Spaced(t, e, o.state.cursor)
  {
    var o := Factor(t, s);
    if o.result.Ok? && o.state.critical.None? {
      assert s.critical.None?;
      var o1 := Operand(t, Push(s, FACTOR));
      assert o1.result.Ok?;
      FactorUnfold(t, s);
      OperandSound(t, Push(s, FACTOR));
      var s1 := Skip(t, o1.state);
      G.SpacedToEnd(t, o1.state.cursor);
      if Peek(t, o1.state, "*") {
        FactorTailTimes(t, o1.state);
        var n := Next(t, s1, "*");
        NextSound(t, s1, "*");
        G.LitAbsorb(t, o1.state.cursor, s1.cursor, n.state.cursor, "*");
        FactorSound(t, n.state);
        var e :| n.state.cursor < e <= o.state.cursor && G.Factor(t, n.state.cursor, e) && G.Spaced(t, e, o.state.cursor);
        G.FactorMore(t, s.cursor, o1.state.cursor, n.state.cursor, e);
      } else if Peek(t, s1, "/") {
        FactorTailOver(t, o1.state);
        var n := Next(t, Skip(t, s1), "/");
        NextSound(t, Skip(t, s1), "/");
        G.LitAbsorb(t, o1.state.cursor, s1.cursor, n.state.cursor, "/");
        FactorSound(t, n.state);
        var e :| n.state.cursor < e <= o.state.cursor && G.Factor(t, n.state.cursor, e) && G.Spaced(t, e, o.state.cursor);
        G.FactorMore(t, s.cursor, o1.state.cursor, n.state.cursor, e);
      } else {
        G.FactorOne(t, s.cursor, o1.state.cursor);
        assert G.Spaced(t, o1.state.cursor, o.state.cursor);
      }
    }
  }

  lemma FactorUnfold(t: string, s: State)
    requires Consistent(t, s) && s.critical.None? && Operand(t, Push(s, FACTOR)).result.Ok?
    ensures Factor(t, s) == FactorTail(t, Operand(t, Push(s, FACTOR)).state)
  {
  }

  lemma FactorTailTimes(t: string, s: State)
    requires Consistent(t, s) && Peek(t, s, "*")
    ensures FactorTail(t, s) == Factor(t, Next(t, Skip(t, s), "*").state)
  {
  }

  lemma FactorTailOver(t: string, s: State)
    requires Consistent(t, s) && !Peek(t, s, "*") && Peek(t, Skip(t, s), "/")
    ensures FactorTail(t, s) == Factor(t, Next(t, Skip(t, Skip(t, s)), "/").state)
  {
  }

  lemma {:induction false} OperandSound(t: string, s: State)
    requires Consistent(t, s)
    decreases |t| - s.cursor, 1
    ensures var o := Operand(t, s);
      o.result.Ok? && o.state.critical.None? ==> G.Operand(t, s.cursor, o.state.cursor)
  {
    var o := Operand(t, s);
    if o.result.Ok? && o.state.critical.None? {
      var s1 := Push(s, OPERAND);
      var n := Num(t, s1);
      NumSound(t, s1);
      if n.result.Err? {
        var s2 := Restore(n.state, s1);
        var i := Id(t, s2);
        IdSound(t, s2);
        if i.result.Err? {
          ParenthesizedSound(t, Restore(i.state, s2));
        }
      }
    }
  }

  lemma {:induction false} ParenthesizedSound(t: string, s: State)
    requires Consistent(t, s)
    decreases |t| - s.cursor, 0
    ensures var o := Parenthesized(t, s);
      o.result.Ok? && o.state.critical.None? ==> G.Operand(t, s.cursor, o.state.cursor)
  {
    var o := Parenthesized(t, s);
    if o.result.Ok? && o.state.critical.None? {
      var o1 := Next(t, s, "(");
      NextSound(t, s, "(");
      var o2 := Expr(t, o1.state);
      ExprSound(t, o1.state);
      var e :| o1.state.cursor < e <= o2.state.cursor && G.Expr(t, o1.state.cursor, e) && G.Spaced(t, e, o2.state.cursor);
      NextSound(t, o2.state, ")");
      G.LitAbsorb(t, e, o2.state.cursor, o.state.cursor, ")");
      assert G.Operand(t, s.cursor, o.state.cursor) by {
        assert s.cursor < o1.state.cursor < e < o.state.cursor;
      }
    }
  }

  lemma {:induction false} CompSound(t: string, s: State)
    requires Consistent(t, s)
    ensures var o := Comp(t, s);
      o.result.Ok? && o.state.critical.None? ==> G.Comp(t, s.cursor, o.state.cursor)
  {
    var o := Comp(t, s);
    if o.result.Ok? && o.state.critical.None? {
      var o1 := Next(t, Push(s, COMP), "(");
      NextSound(t, Push(s, COMP), "(");
      var o2 := Operand(t, o1.state);
      OperandSound(t, o1.state);
      ComparisonSound(t, o2.state);
    }
  }

  lemma {:induction false} ComparisonSound(t: string, s: State)
    requires Consistent(t, s)
    ensures var o := Comparison(t, s);
      o.result.Ok? && o.state.critical.None? ==> G.Comparison(t, s.cursor, o.state.cursor)
  {
    var o := Comparison(t, s);
    if o.result.Ok? && o.state.critical.None? {
      var s1 := Skip(t, s);
      G.SpacedToEnd(t, s.cursor);
      var op := if Peek(t, s, "=") then "=" else if Peek(t, s, "<>") then "<>" else if Peek(t, s, ">") then ">" else "<";
      ComparisonUnfold(t, s);
      var n := Next(t, s1, op);
      NextSound(t, s1, op);
      G.LitAbsorb(t, s.cursor, s1.cursor, n.state.cursor, op);
      RightOperandUnfold(t, n.state);
      var o2 := Operand(t, n.state);
      OperandSound(t, n.state);
      NextSound(t, o2.state, ")");
      G.ComparisonIntro(t, s.cursor, n.state.cursor, o2.state.cursor, o.state.cursor, op);
    }
  }

  lemma ComparisonUnfold(t: string, s: State)
    requires Consistent(t, s) && Comparison(t, s).result.Ok?
    ensures var op := if Peek(t, s, "=") then "=" else if Peek(t, s, "<>") then "<>" else if Peek(t, s, ">") then ">" else "<";
      Comparison(t, s) == RightOperand(t, Next(t, Skip(t, s), op).state)
  {
  }

  lemma RightOperandUnfold(t: string, s: State)
    requires Consistent(t, s) && Operand(t, s).result.Ok?
    ensures RightOperand(t, s) == Next(t, Operand(t, s).state, ")")
  {
  }
}
