/** Cell values and the evaluator of formula expressions. */
module FormulaEval {
  import opened Text
  import opened FormulaSyntax
  import Coords

  datatype CellValue = Null | Number(n: real) | Text(s: string) | Truth(b: bool)

  const DIV0_ERROR := Text("#DIV/0!")
  const VALUE_ERROR := Text("#VALUE!")
  const NAME_ERROR := Text("#NAME?")
  const CYCLE_ERROR := Text("#CYCLE!")
  const NUM_ERROR := Text("#NUM!")
  const SYNTAX_ERROR := Text("#SYNTAX!")

  // What the host supplies: number and text primitives of the JavaScript run time.
  datatype Host = Host(
    show: real -> string,
    numeric: string -> Option<real>,
    pow: (real, real) -> real,
    sqrt: real -> real,
    round: (real, Option<real>) -> real,
    textLess: (string, string) -> bool,
    upper: string -> string,
    lower: string -> string,
    squeeze: string -> string)

  predicate IsErrorValue(v: CellValue) {
    v.Text? && v.s != "" && v.s[0] == '#' && v.s[|v.s| - 1] == '!'
  }

  predicate IsEmpty(v: CellValue) { v == Null || v == Text("") }

  function ToText(h: Host, v: CellValue): string {
    match v
    case Null => ""
    case Number(n) => h.show(n)
    case Text(s) => s
    case Truth(b) => if b then "true" else "false"
  }

  predicate ToBoolean(h: Host, v: CellValue) {
    match v
    case Null => false
    case Number(n) => n != 0.0
    case Text(s) => s != "" && h.lower(s) != "false"
    case Truth(b) => b
  }

  // `None` is NaN.
  function ToNumber(h: Host, v: CellValue): Option<real> {
    match v
    case Null => Some(0.0)
    case Number(n) => Some(n)
    case Text(s) => if Trim(s) == "" then Some(0.0) else h.numeric(Trim(s))
    case Truth(b) => Some(if b then 1.0 else 0.0)
  }

  function Truncate(x: real): real {
    if x >= 0.0 then x.Floor as real else -((-x).Floor as real)
  }

  // ----- Operators -----

  function NumOp(h: Host, op: Operator, left: CellValue, right: CellValue): CellValue {
    var a, b := ToNumber(h, left), ToNumber(h, right);
    if a.None? || b.None? then VALUE_ERROR
    else
      match op
      case Plus => Number(a.value + b.value)
      case Minus => Number(a.value - b.value)
      case Times => Number(a.value * b.value)
      case Divide => if b.value == 0.0 then DIV0_ERROR else Number(a.value / b.value)
      case Power => Number(h.pow(a.value, b.value))
      case _ => VALUE_ERROR
  }

  function Ordered(op: Operator, less: bool, greater: bool): CellValue {
    match op
    case Eq => Truth(!less && !greater)
    case Ne => Truth(less || greater)
    case Lt => Truth(less)
    case Gt => Truth(greater)
    case Le => Truth(!greater)
    case Ge => Truth(!less)
    case _ => VALUE_ERROR
  }

  function CompareOp(h: Host, op: Operator, left: CellValue, right: CellValue): CellValue {
    var a, b := ToNumber(h, left), ToNumber(h, right);
    if a.Some? && b.Some? then Ordered(op, a.value < b.value, a.value > b.value)
    else
      var s, t := ToText(h, left), ToText(h, right);
      Ordered(op, s != t && h.textLess(s, t), s != t && !h.textLess(s, t))
  }

  function BinaryOp(h: Host, op: Operator, left: CellValue, right: CellValue): CellValue {
    if op == Concat then Text(ToText(h, left) + ToText(h, right))
    else if IsErrorValue(left) then left
    else if IsErrorValue(right) then right
    else if OpLevel(op) == 0 then CompareOp(h, op, left, right)
    else NumOp(h, op, left, right)
  }

  function UnaryOp(h: Host, op: Operator, v: CellValue): CellValue {
    match ToNumber(h, v)
    case None => VALUE_ERROR
    case Some(x) => Number(if op == Minus then -x else x)
  }

  function PercentOp(h: Host, v: CellValue): CellValue {
    match ToNumber(h, v)
    case None => VALUE_ERROR
    case Some(x) => Number(x / 100.0)
  }

  // ----- Functions -----

  const UNARY_FUNCTIONS := {"ABS", "SQRT", "INT", "UPPER", "LOWER", "TRIM", "LEN"}

  const LIST_FUNCTIONS := {"CONCAT", "CONCATENATE", "SUM", "AVERAGE", "MIN", "MAX", "COUNT", "COUNTA"}

  function UnaryCall(h: Host, name: string, v: CellValue): CellValue {
    if name == "UPPER" then Text(h.upper(ToText(h, v)))
    else if name == "LOWER" then Text(h.lower(ToText(h, v)))
    else if name == "TRIM" then Text(h.squeeze(ToText(h, v)))
    else if name == "LEN" then Number(|ToText(h, v)| as real)
    else
      match ToNumber(h, v)
      case None => VALUE_ERROR
      case Some(x) =>
        if name == "SQRT" then (if x < 0.0 then NUM_ERROR else Number(h.sqrt(x)))
        else if name == "INT" then Number(Truncate(x))
        else Number(if x < 0.0 then -x else x)
  }

  function ModCall(h: Host, left: CellValue, right: CellValue): CellValue {
    var a, b := ToNumber(h, left), ToNumber(h, right);
    if a.None? || b.None? then VALUE_ERROR
    else if b.value == 0.0 then DIV0_ERROR
    else Number(a.value - b.value * ((a.value / b.value).Floor as real))
  }

  function Numbers(values: seq<CellValue>): seq<real> {
    if values == [] then []
    else if values[0].Number? then [values[0].n] + Numbers(values[1..])
    else Numbers(values[1..])
  }

  function CountFilled(values: seq<CellValue>): nat {
    if values == [] then 0
    else (if IsEmpty(values[0]) then 0 else 1) + CountFilled(values[1..])
  }

  function FirstError(values: seq<CellValue>): Option<CellValue> {
    if values == [] then None
    else if IsErrorValue(values[0]) then Some(values[0])
    else FirstError(values[1..])
  }

  function JoinText(h: Host, values: seq<CellValue>): string {
    if values == [] then "" else ToText(h, values[0]) + JoinText(h, values[1..])
  }

  function Sum(nums: seq<real>): real {
    if nums == [] then 0.0 else Sum(nums[..|nums| - 1]) + nums[|nums| - 1]
  }

  function Least(nums: seq<real>): real
    requires nums != []
  {
    if |nums| == 1 then nums[0]
    else
      var m := Least(nums[1..]);
      if nums[0] < m then nums[0] else m
  }

  function Greatest(nums: seq<real>): real
    requires nums != []
  {
    if |nums| == 1 then nums[0]
    else
      var m := Greatest(nums[1..]);
      if nums[0] > m then nums[0] else m
  }

  // `CONCAT` and the aggregates over their flattened arguments.
  function ListCall(h: Host, name: string, values: seq<CellValue>): CellValue {
    if name == "CONCAT" || name == "CONCATENATE" then Text(JoinText(h, values))
    else if name == "COUNT" then Number(|Numbers(values)| as real)
    else if name == "COUNTA" then Number(CountFilled(values) as real)
    else if FirstError(values).Some? then FirstError(values).value
    else
      var nums := Numbers(values);
      if name == "SUM" then Number(Sum(nums))
      else if name == "AVERAGE" then (if nums == [] then DIV0_ERROR else Number(Sum(nums) / |nums| as real))
      else if name == "MIN" then Number(if nums == [] then 0.0 else Least(nums))
      else if name == "MAX" then Number(if nums == [] then 0.0 else Greatest(nums))
      else NAME_ERROR
  }

  // ----- Expressions -----

  // The value a reference resolves to; `None` when resolving it does not come to an end.
  type Resolver = string -> Option<CellValue>

  function ResolveAll(r: Resolver, labels: seq<string>): Option<seq<CellValue>> {
    if labels == [] then Some([])
    else
      var v, rest := r(labels[0]), ResolveAll(r, labels[1..]);
      if v.None? || rest.None? then None else Some([v.value] + rest.value)
  }

  function EvalRange(r: Resolver, start: RefNode, end: RefNode): Option<seq<CellValue>> {
    ResolveAll(r, Coords.RangeCells(start.coord, end.coord))
  }

  // `evaluate`: `None` when some reference it consults does not come to an end.
  function Eval(h: Host, e: Expr, r: Resolver): Option<CellValue>
    decreases e, 1
  {
    match e
    case Num(v) => Some(Number(v))
    case Str(s) => Some(Text(s))
    case Bool(b) => Some(Truth(b))
    case Cell(ref) => r(ref.coord)
    case Range(start, end) =>
      (match EvalRange(r, start, end)
       case None => None
       case Some(values) => Some(if values == [] then Null else values[0]))
    case Unary(op, x) =>
      (match Eval(h, x, r)
       case None => None
       case Some(v) => Some(UnaryOp(h, op, v)))
    case Percent(x) =>
      (match Eval(h, x, r)
       case None => None
       case Some(v) => Some(PercentOp(h, v)))
    case Binary(op, left, right) =>
      var a, b := Eval(h, left, r), Eval(h, right, r);
      if a.None? || b.None? then None else Some(BinaryOp(h, op, a.value, b.value))
    case Func(name, args) => EvalCall(h, name, args, r)
  }

  function EvalCall(h: Host, name: string, args: seq<Expr>, r: Resolver): Option<CellValue>
    decreases args, 2
  {
    if name == "AI" then Some(Null)
    else if name == "IF" then
      if |args| < 2 || |args| > 3 then Some(VALUE_ERROR)
      else
        match Eval(h, args[0], r)
        case None => None
        case Some(cond) =>
          if ToBoolean(h, cond) then Eval(h, args[1], r)
          else if |args| == 3 then Eval(h, args[2], r)
          else Some(Null)
    else if name == "ROUND" then
      if |args| < 1 || |args| > 2 then Some(VALUE_ERROR)
      else
        match Eval(h, args[0], r)
        case None => None
        case Some(v) =>
          if ToNumber(h, v).None? then Some(VALUE_ERROR)
          else if |args| == 1 then Some(Number(h.round(ToNumber(h, v).value, Some(0.0))))
          else
            match Eval(h, args[1], r)
            case None => None
            case Some(d) => Some(RoundCall(h, v, d))
    else if name == "MOD" then
      if |args| != 2 then Some(VALUE_ERROR)
      else
        var a, b := Eval(h, args[0], r), Eval(h, args[1], r);
        if a.None? || b.None? then None else Some(ModCall(h, a.value, b.value))
    else if name in UNARY_FUNCTIONS then
      if |args| != 1 then Some(VALUE_ERROR)
      else
        match Eval(h, args[0], r)
        case None => None
        case Some(v) => Some(UnaryCall(h, name, v))
    else if name in LIST_FUNCTIONS then
      match EvalArgs(h, args, r)
      case None => None
      case Some(values) => Some(ListCall(h, name, values))
    else Some(NAME_ERROR)
  }

  function RoundCall(h: Host, v: CellValue, digits: CellValue): CellValue
    requires ToNumber(h, v).Some?
  {
    var d := ToNumber(h, digits);
    Number(h.round(ToNumber(h, v).value, if d.None? then None else Some(Truncate(d.value))))
  }

  // `flattenArgs`: ranges contribute all their cells.
  function EvalArgs(h: Host, args: seq<Expr>, r: Resolver): Option<seq<CellValue>>
    decreases args, 1
  {
    if args == [] then Some([])
    else
      var first :=
        if args[0].Range? then EvalRange(r, args[0].start, args[0].end)
        else
          match Eval(h, args[0], r)
          case None => None
          case Some(v) => Some([v]);
      var rest := EvalArgs(h, args[1..], r);
      if first.None? || rest.None? then None else Some(first.value + rest.value)
  }
}
