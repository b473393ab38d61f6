/**
 * The top level of the hawk recogniser: one run of PROGRAM over a source text,
 * the trace it leaves, and the verdict reported for it.
 */
module Driver {
  import opened Diagnostics
  import opened Semantics
  import Parser
  import G = Grammar
  import Soundness

  /** The text printed for each entry of the trace. */
  function Name(rule: Rule): string {
    match rule
    case PROGRAM => "PROGRAM"
    case DECL_SEC => "DECL_SEC"
    case DECL => "DECL"
    case ID_LIST => "ID_LIST"
    case STMT_SEC => "STMT_SEC"
    case STMT => "STMT"
    case ASSIGN => "ASSIGN"
    case IF_STMT => "IF_STMT"
    case WHILE_STMT => "WHILE_STMT"
    case INPUT => "INPUT"
    case OUTPUT => "OUTPUT"
    case EXPR => "EXPR"
    case FACTOR => "FACTOR"
    case OPERAND => "OPERAND"
    case COMP => "COMP"
  }

  /**
   * The verdict on a run: a recorded undeclared identifier is reported in
   * preference to whatever the recognition itself returned.
   */
  function Verdict(consistency: Result, result: Result): (v: Result)
    ensures v.Ok? <==> consistency.Ok? && result.Ok?
    ensures consistency.Err? ==> v == consistency
    ensures v.Err? && v != consistency ==> v == result
  {
    match consistency
    case Err(_) => consistency
    case Ok => result
  }

  /** The run of PROGRAM over `source` from a fresh parser. */
  function Run(source: string): (o: Outcome)
    ensures Consistent(source, o.state)
    ensures |o.state.outputs| > 0 && o.state.outputs[0] == PROGRAM
  {
    Program(source, Initial)
  }

  /** What `main` reports for `source`: the sticky error if one is left, otherwise the result of PROGRAM. */
  function Report(source: string): (v: Result)
    ensures var o := Run(source);
      && (v.Ok? <==> o.result.Ok? && o.state.critical.None?)
      && (o.state.critical.Some? ==> v == Err(o.state.critical.value))
      && (o.state.critical.None? ==> v == o.result)
  {
    var o := Run(source);
    Verdict(if o.state.critical.Some? then Err(o.state.critical.value) else Ok, o.result)
  }

  /**
   * A source text that is reported as correct is derived by PROGRAM of the
   * reference grammar, up to the `;` after `end`.
   */
  lemma RunSound(source: string)
    ensures Report(source).Ok? ==> G.Program(source, 0, Run(source).state.cursor)
  {
    Soundness.ProgramSound(source, Initial);
  }

  /**
   * Recognises `source` as a hawk program: the trace, the recognition result and
   * the verdict are those of the run of PROGRAM from a fresh parser, the verdict
   * taking the final sticky error into account.
   */
  method Check(source: string) returns (trace: seq<Rule>, result: Result, verdict: Result)
    ensures trace == Run(source).state.outputs && result == Run(source).result
    ensures verdict == Report(source)
  {
    var tokens := new Parser.Tokens(source);
    result := tokens.Program();
    trace := tokens.outputs;
    verdict := Verdict(tokens.CheckConsistency(), result);
  }
}
