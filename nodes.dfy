/**
 * The planner nodes the expansion code reads and builds: expressions, the join tree,
 * restriction clauses, range-table entries and append-relation records.
 */
module Nodes {
  import opened Wrappers

  type Oid = int
  type TypeId = int

  const InvalidOid: Oid := 0

  // Type oids of the host planner's catalog that the rewriter tests for.
  const TIMESTAMPTZOID: TypeId := 1184
  const INTERVALOID: TypeId := 1186

  /** Microseconds in a day taken as 24 hours. */
  const USECS_PER_DAY: int := 86400000000

  /** An interval datum: microseconds, days and months kept apart. */
  datatype Interval = Interval(time: int, day: int, month: int)

  /** The value of a constant, by kind: a scalar, an interval or an int4[] array (NULL elements allowed). */
  datatype Datum =
    | IntDatum(i: int)
    | IntervalDatum(iv: Interval)
    | ArrayDatum(elems: seq<Option<int>>)

  datatype BoolOp = AndExpr | OrExpr | NotExpr

  /** Expression nodes; every field the model reads or writes is kept, the others are dropped. */
  datatype Expr =
    | Var(varno: nat, varattno: int, vartype: TypeId, vartypmod: int, varcollid: Oid)
    | Const(consttype: TypeId, consttypmod: int, constcollid: Oid, constvalue: Datum)
    | Param(paramid: int, paramtype: TypeId)
    | FuncExpr(funcid: Oid, funcresulttype: TypeId, args: seq<Expr>)
    | OpExpr(opno: Oid, opfuncid: Oid, opresulttype: TypeId, args: seq<Expr>)
    | BoolExpr(boolop: BoolOp, args: seq<Expr>)

  /** The type of an expression's result (exprType). */
  function ExprType(e: Expr): TypeId
  {
    match e
    case Var(_, _, t, _, _) => t
    case Const(t, _, _, _) => t
    case Param(_, t) => t
    case FuncExpr(_, t, _) => t
    case OpExpr(_, _, t, _) => t
    case BoolExpr(_, _) => 16  // BOOLOID
  }

  /** The range-table indexes of the relations an expression references (pull_varnos). */
  function Varnos(e: Expr): set<nat>
  {
    match e
    case Var(varno, _, _, _, _) => {varno}
    case Const(_, _, _, _) => {}
    case Param(_, _) => {}
    case FuncExpr(_, _, args) => VarnosOfArgs(args)
    case OpExpr(_, _, _, args) => VarnosOfArgs(args)
    case BoolExpr(_, args) => VarnosOfArgs(args)
  }

  function VarnosOfArgs(args: seq<Expr>): set<nat>
  {
    if args == [] then {} else Varnos(args[0]) + VarnosOfArgs(args[1..])
  }

  /**
   * The join tree of a query. Every quals field is an implicitly AND-ed list, the form
   * the planner's preprocessing leaves it in.
   */
  datatype JoinNode =
    | RangeTblRef(rtindex: nat)
    | JoinExpr(larg: JoinNode, rarg: JoinNode, quals: seq<Expr>)
    | FromExpr(fromlist: seq<JoinNode>, quals: seq<Expr>)

  /** A restriction clause as make_restrictinfo builds it here: pushed down, not delayed, not pseudoconstant. */
  datatype RestrictInfo = RestrictInfo(clause: Expr, securityLevel: nat, requiredRelids: set<nat>)

  /** The fields of a range-table entry that chunk expansion reads or writes. */
  datatype RangeTblEntry = RangeTblEntry(
    relid: Oid,
    relkind: char,
    inh: bool,
    ctename: Option<string>,
    requiredPerms: int,
    checkAsUser: Oid,
    selectedCols: set<int>,
    securityQuals: seq<Expr>)

  /** One parent-to-child mapping of an append relation (translated_vars left out). */
  datatype AppendRelInfo = AppendRelInfo(
    parentRelid: nat,
    childRelid: nat,
    parentReltype: Oid,
    childReltype: Oid,
    parentReloid: Oid)
}
