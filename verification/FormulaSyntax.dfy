/** Abstract syntax and tokens of spreadsheet formulas. */
module FormulaSyntax {
  import opened Text

  const MAX_FORMULA_DEPTH := 100
  const MAX_FORMULA_TOKENS := 1000

  const REF_ERROR := "#REF!"

  // `coord` is upper-case letters followed by digits, as written in the formula.
  datatype RefNode = RefNode(coord: string, colAbs: bool, rowAbs: bool)

  datatype Operator = Eq | Ne | Lt | Gt | Le | Ge | Concat | Plus | Minus | Times | Divide | Power

  function OpText(op: Operator): string {
    match op
    case Eq => "="
    case Ne => "<>"
    case Lt => "<"
    case Gt => ">"
    case Le => "<="
    case Ge => ">="
    case Concat => "&"
    case Plus => "+"
    case Minus => "-"
    case Times => "*"
    case Divide => "/"
    case Power => "^"
  }

  // Binding strength: 0 comparison, 1 concatenation, 2 additive, 3 multiplicative, 4 power.
  function OpLevel(op: Operator): nat {
    match op
    case Concat => 1
    case Plus | Minus => 2
    case Times | Divide => 3
    case Power => 4
    case _ => 0
  }

  datatype Expr =
    | Num(value: real)
    | Str(text: string)
    | Bool(truth: bool)
    | Cell(ref: RefNode)
    | Range(start: RefNode, end: RefNode)
    | Func(name: string, args: seq<Expr>)
    | Binary(op: Operator, left: Expr, right: Expr)
    | Unary(op: Operator, expr: Expr)
    | Percent(expr: Expr)

  datatype Token =
    | NumTok(text: string)
    | StrTok(text: string)
    | BoolTok(truth: bool)
    | FuncTok(name: string)
    | IdentTok(name: string)
    | RefTok(text: string)
    | OpTok(op: Operator)
    | PercentTok
    | LParen
    | RParen
    | Comma
    | Eof

  // How the host reads a numeral (`Number(text)`) and prints a number (`String(value)`).
  datatype NumFormat = NumFormat(read: string -> real, show: real -> string)

  // True of the `=AI(...)` calls that are left to the assistant skill.
  predicate IsAIFormula(e: Expr) { e.Func? && e.name == "AI" }
}
