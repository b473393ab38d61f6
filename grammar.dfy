/**
 * The productions of the hawk grammar as derivation predicates over spans of
 * the text: `X(t, i, j)` holds when `t[i..j]` derives the nonterminal X. Every
 * token may be preceded by whitespace, which the token's own span absorbs, so
 * a span starts where the preceding one ended and ends right after its last
 * token. The statement-level and expression-level predicates are mutually
 * recursive and terminate because every nested span is shorter, or the same
 * span at a lower rank.
 */
module Grammar {
  import opened Lexical

  /** Only whitespace lies between `i` and `j`. */
  ghost predicate Spaced(t: string, i: nat, j: nat) {
    i <= j <= |t| && forall k :: i <= k < j ==> IsWhitespace(t[k])
  }

  // ----- tokens -----

  /** The literal `q`, after whitespace, fills `t[i..j]`. */
  ghost predicate Lit(t: string, i: nat, j: nat, q: string) {
    i + |q| <= j <= |t| && Spaced(t, i, j - |q|) && t[j - |q|..j] == q
  }

  /** ID: an identifier that is not a reserved word, after whitespace. */
  ghost predicate Ident(t: string, i: nat, j: nat) {
    exists k :: i <= k < j <= |t| && Spaced(t, i, k) && IsIdentifier(t[k..j]) && t[k..j] !in Keywords
  }

  /** NUM: a numeral as the number scanner accepts it, after whitespace. */
  ghost predicate Number(t: string, i: nat, j: nat) {
    exists k :: i <= k <= j <= |t| && Spaced(t, i, k) && IsNumeral(t[k..j])
  }

  /** TYPE -> int | float | double */
  ghost predicate Type(t: string, i: nat, j: nat) {
    Lit(t, i, j, "int") || Lit(t, i, j, "float") || Lit(t, i, j, "double")
  }

  // ----- PROGRAM and the declarations -----

  /** PROGRAM -> program [DECL_SEC] begin STMT_SEC end ; */
  ghost predicate Program(t: string, i: nat, j: nat) {
    exists k :: i < k < j && Lit(t, i, k, "program") && Body(t, k, j)
  }

  /** What follows `program`: [DECL_SEC] begin STMT_SEC end ; */
  ghost predicate Body(t: string, i: nat, j: nat) {
    exists a, b :: i < a < b < j && Preamble(t, i, a) && StmtSec(t, a, b) && Ending(t, b, j)
  }

  /** [DECL_SEC] begin */
  ghost predicate Preamble(t: string, i: nat, j: nat) {
    Lit(t, i, j, "begin") || exists k :: i < k < j && DeclSec(t, i, k) && Lit(t, k, j, "begin")
  }

  /** end ; */
  ghost predicate Ending(t: string, i: nat, j: nat) {
    exists k :: i < k < j && Lit(t, i, k, "end") && Lit(t, k, j, ";")
  }

  /** DECL_SEC -> DECL | DECL DECL_SEC */
  ghost predicate DeclSec(t: string, i: nat, j: nat)
    decreases j - i
  {
    Decl(t, i, j) || exists k :: i < k < j && Decl(t, i, k) && DeclSec(t, k, j)
  }

  /** DECL -> ID_LIST : TYPE ; */
  ghost predicate Decl(t: string, i: nat, j: nat) {
    exists a, b, c :: i < a < b < c < j && IdList(t, i, a) && Lit(t, a, b, ":") && Type(t, b, c) && Lit(t, c, j, ";")
  }

  /** ID_LIST -> ID | ID , ID_LIST */
  ghost predicate IdList(t: string, i: nat, j: nat)
    decreases j - i
  {
    Ident(t, i, j) || exists a, b :: i < a < b < j && Ident(t, i, a) && Lit(t, a, b, ",") && IdList(t, b, j)
  }

  // ----- statements -----

  /** STMT_SEC -> STMT | STMT STMT_SEC */
  ghost predicate StmtSec(t: string, i: nat, j: nat)
    decreases j - i, 2
  {
    Stmt(t, i, j) || exists k :: i < k < j && Stmt(t, i, k) && StmtSec(t, k, j)
  }

  /** STMT -> ASSIGN | IF_STMT | WHILE_STMT | INPUT | OUTPUT */
  ghost predicate Stmt(t: string, i: nat, j: nat)
    decreases j - i, 1
  {
    Assign(t, i, j) || IfStmt(t, i, j) || WhileStmt(t, i, j) || Input(t, i, j) || Output(t, i, j)
  }

  /** ASSIGN -> ID := EXPR ; */
  ghost predicate Assign(t: string, i: nat, j: nat) {
    exists a, b, c :: i < a < b < c < j && Ident(t, i, a) && Lit(t, a, b, ":=") && Expr(t, b, c) && Lit(t, c, j, ";")
  }

  /** IF_STMT -> if COMP then STMT_SEC end if ; | if COMP then STMT_SEC else STMT_SEC end if ; */
  ghost predicate IfStmt(t: string, i: nat, j: nat)
    decreases j - i, 0
  {
    exists a, b, c :: i < a < b < c < j && Lit(t, i, a, "if") && Comp(t, a, b) && Lit(t, b, c, "then") && Branches(t, c, j)
  }

  /** What follows `then`: STMT_SEC [ else STMT_SEC ] end if ; */
  ghost predicate Branches(t: string, i: nat, j: nat)
    decreases j - i, 0
  {
    exists k :: i < k < j && StmtSec(t, i, k) &&
      (Closing(t, k, j, "if") ||
       exists a, b :: k < a < b < j && Lit(t, k, a, "else") && StmtSec(t, a, b) && Closing(t, b, j, "if"))
  }

  /** end <keyword> ; */
  ghost predicate Closing(t: string, i: nat, j: nat, keyword: string) {
    exists a, b :: i < a < b < j && Lit(t, i, a, "end") && Lit(t, a, b, keyword) && Lit(t, b, j, ";")
  }

  /** WHILE_STMT -> while COMP loop STMT_SEC end loop ; */
  ghost predicate WhileStmt(t: string, i: nat, j: nat)
    decreases j - i, 0
  {
    exists a, b :: i < a < b < j && Lit(t, i, a, "while") && Comp(t, a, b) && LoopBody(t, b, j)
  }

  /** What follows the condition of WHILE_STMT: loop STMT_SEC end loop ; */
  ghost predicate LoopBody(t: string, i: nat, j: nat)
    decreases j - i, 0
  {
    exists a, b :: i < a < b < j && Lit(t, i, a, "loop") && StmtSec(t, a, b) && Closing(t, b, j, "loop")
  }

  /** INPUT -> input ID_LIST ; */
  ghost predicate Input(t: string, i: nat, j: nat) {
    exists a, b :: i < a < b < j && Lit(t, i, a, "input") && IdList(t, a, b) && Lit(t, b, j, ";")
  }

  /** OUTPUT -> output ID_LIST ; | output NUM ; */
  ghost predicate Output(t: string, i: nat, j: nat) {
    exists a :: i < a < j && Lit(t, i, a, "output") && Written(t, a, j)
  }

  /** What follows `output`: ( ID_LIST | NUM ) ; */
  ghost predicate Written(t: string, i: nat, j: nat) {
    exists k :: i < k < j && (IdList(t, i, k) || Number(t, i, k)) && Lit(t, k, j, ";")
  }

  // ----- expressions -----

  /** EXPR -> FACTOR | FACTOR + EXPR | FACTOR - EXPR */
  ghost predicate Expr(t: string, i: nat, j: nat)
    decreases j - i, 2
  {
    Factor(t, i, j) ||
    exists a, b :: i < a < b < j && Factor(t, i, a) && (Lit(t, a, b, "+") || Lit(t, a, b, "-")) && Expr(t, b, j)
  }

  /** FACTOR -> OPERAND | OPERAND * FACTOR | OPERAND / FACTOR */
  ghost predicate Factor(t: string, i: nat, j: nat)
    decreases j - i, 1
  {
    Operand(t, i, j) ||
    exists a, b :: i < a < b < j && Operand(t, i, a) && (Lit(t, a, b, "*") || Lit(t, a, b, "/")) && Factor(t, b, j)
  }

  /** OPERAND -> NUM | ID | ( EXPR ) */
  ghost predicate Operand(t: string, i: nat, j: nat)
    decreases j - i, 0
  {
    Number(t, i, j) || Ident(t, i, j) ||
    exists a, b :: i < a < b < j && Lit(t, i, a, "(") && Expr(t, a, b) && Lit(t, b, j, ")")
  }

  /** COMP -> ( OPERAND = OPERAND ) | ( OPERAND <> OPERAND ) | ( OPERAND > OPERAND ) | ( OPERAND < OPERAND ) */
  ghost predicate Comp(t: string, i: nat, j: nat) {
    exists a, b :: i < a < b < j && Lit(t, i, a, "(") && Operand(t, a, b) && Comparison(t, b, j)
  }

  /** What follows the first operand of COMP: the operator, the second operand and `)`. */
  ghost predicate Comparison(t: string, i: nat, j: nat) {
    exists a, b :: i < a < b < j &&
      (Lit(t, i, a, "=") || Lit(t, i, a, "<>") || Lit(t, i, a, ">") || Lit(t, i, a, "<")) &&
      Operand(t, a, b) && Lit(t, b, j, ")")
  }

  // ----- introduction of the recursive productions -----

  lemma IdListOne(t: string, i: nat, j: nat)
    requires Ident(t, i, j)
    ensures IdList(t, i, j)
  {
  }

  lemma IdListMore(t: string, i: nat, a: nat, b: nat, j: nat)
    requires i < a < b < j && Ident(t, i, a) && Lit(t, a, b, ",") && IdList(t, b, j)
    ensures IdList(t, i, j)
  {
  }

  lemma ExprOne(t: string, i: nat, j: nat)
    requires Factor(t, i, j)
    ensures Expr(t, i, j)
  {
  }

  lemma ExprMore(t: string, i: nat, a: nat, b: nat, j: nat)
    requires i < a < b < j && Factor(t, i, a) && (Lit(t, a, b, "+") || Lit(t, a, b, "-")) && Expr(t, b, j)
    ensures Expr(t, i, j)
  {
  }

  lemma FactorOne(t: string, i: nat, j: nat)
    requires Operand(t, i, j)
    ensures Factor(t, i, j)
  {
  }

  lemma FactorMore(t: string, i: nat, a: nat, b: nat, j: nat)
    requires i < a < b < j && Operand(t, i, a) && (Lit(t, a, b, "*") || Lit(t, a, b, "/")) && Factor(t, b, j)
    ensures Factor(t, i, j)
  {
  }

  lemma ComparisonIntro(t: string, i: nat, a: nat, b: nat, j: nat, op: string)
    requires op == "=" || op == "<>" || op == ">" || op == "<"
    requires Lit(t, i, a, op) && Operand(t, a, b) && Lit(t, b, j, ")")
    ensures Comparison(t, i, j)
  {
  }

  // ----- whitespace -----

  /** The whitespace run that skipping stops after is whitespace only. */
  lemma SpacedToEnd(t: string, i: nat)
    requires i <= |t|
    ensures Spaced(t, i, WhitespaceEnd(t, i))
  {
    RunEndInClass(t, i, Space);
  }

  /** A token's span may start earlier, over more whitespace. */
  lemma LitAbsorb(t: string, i: nat, c: nat, j: nat, q: string)
    requires Spaced(t, i, c) && Lit(t, c, j, q)
    ensures Lit(t, i, j, q)
  {
  }

  lemma IdentAbsorb(t: string, i: nat, c: nat, j: nat)
    requires Spaced(t, i, c) && Ident(t, c, j)
    ensures Ident(t, i, j)
  {
    var k :| c <= k < j <= |t| && Spaced(t, c, k) && IsIdentifier(t[k..j]) && t[k..j] !in Keywords;
    assert Spaced(t, i, k);
  }

  lemma IdListAbsorb(t: string, i: nat, c: nat, j: nat)
    requires Spaced(t, i, c) && IdList(t, c, j)
    ensures IdList(t, i, j)
  {
    if Ident(t, c, j) {
      IdentAbsorb(t, i, c, j);
    } else {
      var a, b :| c < a < b < j && Ident(t, c, a) && Lit(t, a, b, ",") && IdList(t, b, j);
      IdentAbsorb(t, i, c, a);
    }
  }

  lemma DeclAbsorb(t: string, i: nat, c: nat, j: nat)
    requires Spaced(t, i, c) && Decl(t, c, j)
    ensures Decl(t, i, j)
  {
    var a, b, d :| c < a < b < d < j && IdList(t, c, a) && Lit(t, a, b, ":") && Type(t, b, d) && Lit(t, d, j, ";");
    IdListAbsorb(t, i, c, a);
  }

  lemma DeclSecAbsorb(t: string, i: nat, c: nat, j: nat)
    requires Spaced(t, i, c) && DeclSec(t, c, j)
    ensures DeclSec(t, i, j)
  {
    if Decl(t, c, j) {
      DeclAbsorb(t, i, c, j);
    } else {
      var k :| c < k < j && Decl(t, c, k) && DeclSec(t, k, j);
      DeclAbsorb(t, i, c, k);
    }
  }

  lemma ClosingAbsorb(t: string, i: nat, c: nat, j: nat, keyword: string)
    requires Spaced(t, i, c) && Closing(t, c, j, keyword)
    ensures Closing(t, i, j, keyword)
  {
    var a, b :| c < a < b < j && Lit(t, c, a, "end") && Lit(t, a, b, keyword) && Lit(t, b, j, ";");
    LitAbsorb(t, i, c, a, "end");
  }
}
