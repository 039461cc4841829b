/**
 * The time_bucket predicate rewriter: `time_bucket(w, col) OP const` (or the
 * mirrored form) becomes a comparison on `col` that the chunk-exclusion code can
 * use. Every missing catalog entry makes it give back the predicate unchanged.
 */
module BucketRewrite {
  import opened Wrappers
  import opened Nodes
  import opened Catalog
  import opened TimeBucket

  /** The planner services the rewrite needs: the catalog and plan-time constant folding. */
  datatype PlannerServices = PlannerServices(
    cat: Catalog,
    estimate: Expr -> Expr,       // estimate_expression_value
    qualSecurityLevel: nat)       // root->qual_security_level

  /** A two-argument call of a function named time_bucket. */
  predicate IsTimeBucketCall(cat: Catalog, e: Expr)
  {
    e.FuncExpr? && |e.args| == 2 && cat.funcName(e.funcid) == "time_bucket"
  }

  /** The shape the qualifier collector tests for before calling the rewrite. */
  predicate IsBucketComparison(cat: Catalog, e: Expr)
  {
    && e.OpExpr? && |e.args| == 2
    && ((IsTimeBucketCall(cat, e.args[0]) && e.args[1].Const?)
        || (e.args[0].Const? && IsTimeBucketCall(cat, e.args[1])))
  }

  /** True when the bucket call is the right operand, so the operator must be commuted. */
  predicate Switched(op: Expr)
    requires op.OpExpr? && |op.args| == 2
  {
    op.args[1].FuncExpr?
  }

  /** One operand is a function call and the other a constant. */
  predicate CallAgainstConst(op: Expr)
    requires op.OpExpr? && |op.args| == 2
  {
    (op.args[0].FuncExpr? && op.args[1].Const?) || (op.args[0].Const? && op.args[1].FuncExpr?)
  }

  /** The time_bucket operand: the FuncExpr side, the right one exactly when switched. */
  function BucketCall(op: Expr): (f: Expr)
    requires op.OpExpr? && |op.args| == 2
    ensures f == op.args[0] || f == op.args[1]
    ensures CallAgainstConst(op) ==> f.FuncExpr? && f == (if Switched(op) then op.args[1] else op.args[0])
  {
    if op.args[0].FuncExpr? then op.args[0] else op.args[1]
  }

  /** The compared value: the Const side, the left one exactly when switched. */
  function Value(op: Expr): (v: Expr)
    requires op.OpExpr? && |op.args| == 2
    ensures v == op.args[0] || v == op.args[1]
    ensures CallAgainstConst(op) ==> v.Const? && v == (if Switched(op) then op.args[0] else op.args[1])
  {
    if op.args[1].Const? then op.args[1] else op.args[0]
  }

  /** The bucketed column: the bucket call's second argument. */
  function Column(cat: Catalog, op: Expr): Expr
    requires IsBucketComparison(cat, op)
  {
    BucketCall(op).args[1]
  }

  /** The bucket width: the bucket call's first argument. */
  function Width(cat: Catalog, op: Expr): Expr
    requires IsBucketComparison(cat, op)
  {
    BucketCall(op).args[0]
  }

  /** The operator comparing the bucket (on the left) with the value: op itself or its commutator. */
  function BucketSideOperator(cat: Catalog, op: Expr): (o: Option<Oid>)
    requires IsBucketComparison(cat, op)
    ensures !Switched(op) ==> o == Some(op.opno)
    ensures Switched(op) ==> o == cat.commutator(op.opno)
  {
    if Switched(op) then cat.commutator(op.opno) else Some(op.opno)
  }

  /** The operator's strategy in the default b-tree family of the bucket's type. */
  function Strategy(cat: Catalog, op: Expr, opno: Oid): int
    requires IsBucketComparison(cat, op)
  {
    cat.opStrategy(opno, cat.btreeOpfamily(ExprType(BucketCall(op))))
  }

  predicate IsGreaterSide(strategy: int)
  {
    strategy == BTGreaterStrategyNumber || strategy == BTGreaterEqualStrategyNumber
  }

  predicate IsLessSide(strategy: int)
  {
    strategy == BTLessStrategyNumber || strategy == BTLessEqualStrategyNumber
  }

  /** `value + width`, the width normalised, as built before any cast or folding. */
  function Sum(cat: Catalog, op: Expr, plus: Oid): (s: Expr)
    requires IsBucketComparison(cat, op)
    ensures s.OpExpr? && s.opno == plus && s.args == [Value(op), NormalizeWidth(ExprType(BucketCall(op)), Width(cat, op))]
  {
    var bucketType := ExprType(BucketCall(op));
    OpExpr(plus, InvalidOid, bucketType, [Value(op), NormalizeWidth(bucketType, Width(cat, op))])
  }

  /**
   * The upper bound `value + width` for the less side, cast back to the bucket's
   * type when `+` yields another type, and folded at plan time when that is safe;
   * None when `+` or the cast is not in the catalog.
   */
  function UpperBound(p: PlannerServices, op: Expr): (b: Option<Expr>)
    requires IsBucketComparison(p.cat, op)
    ensures var bucketType := ExprType(BucketCall(op));
            var plus := p.cat.plusOperator(ExprType(Value(op)), ExprType(Width(p.cat, op)));
            && (b.None? <==>
                  (plus.None?
                   || (p.cat.opRettype(plus.value) != bucketType
                       && p.cat.castFunc(p.cat.opRettype(plus.value), bucketType).None?)))
            && (b.Some? ==>
                  var sum := Sum(p.cat, op, plus.value);
                  var unfolded :=
                    if p.cat.opRettype(plus.value) == bucketType then sum
                    else FuncExpr(p.cat.castFunc(p.cat.opRettype(plus.value), bucketType).value, bucketType, [sum]);
                  b.value == if FoldAtPlanTime(bucketType, NormalizeWidth(bucketType, Width(p.cat, op)))
                             then p.estimate(unfolded) else unfolded)
  {
    var bucketType := ExprType(BucketCall(op));
    var width := Width(p.cat, op);
    match p.cat.plusOperator(ExprType(Value(op)), ExprType(width))
    case None => None
    case Some(plus) =>
      var normalized := NormalizeWidth(bucketType, width);
      var resultType := p.cat.opRettype(plus);
      var sum := OpExpr(plus, InvalidOid, bucketType, [Value(op), normalized]);
      var cast :=
        if bucketType == resultType then Some(sum)
        else match p.cat.castFunc(resultType, bucketType)
          case None => None
          case Some(f) => Some(FuncExpr(f, bucketType, [sum]));
      match cast
      case None => None
      case Some(bound) =>
        Some(if FoldAtPlanTime(bucketType, normalized) then p.estimate(bound) else bound)
  }

  /** A fresh copy of op with new arguments and, when the bucket was on the right, the commuted operator. */
  function Rebuild(op: Expr, opno: Oid, args: seq<Expr>): Expr
    requires op.OpExpr? && |op.args| == 2
  {
    if Switched(op) then OpExpr(opno, InvalidOid, op.opresulttype, args)
    else OpExpr(op.opno, op.opfuncid, op.opresulttype, args)
  }

  /**
   * transform_time_bucket_comparison: a lower bound on the bucket becomes the same lower
   * bound on the column, an upper bound v becomes the upper bound v + width. The input is
   * a value, so giving it back is the soft failure and nothing is changed in place.
   */
  function TransformTimeBucketComparison(p: PlannerServices, op: Expr): (r: Expr)
    requires IsBucketComparison(p.cat, op)
    // The result is a comparison with the same result type and two operands.
    ensures r.OpExpr? && |r.args| == 2 && r.opresulttype == op.opresulttype
    // Soft failure: no commutator, a strategy that is neither side, no `+`, no cast.
    ensures BucketSideOperator(p.cat, op).None? ==> r == op
    ensures BucketSideOperator(p.cat, op).Some? ==>
              var s := Strategy(p.cat, op, BucketSideOperator(p.cat, op).value);
              && (!IsGreaterSide(s) && !IsLessSide(s) ==> r == op)
              && (IsLessSide(s) && UpperBound(p, op).None? ==> r == op)
              // Greater side: column OP value, the constant kept as it is.
              && (IsGreaterSide(s) ==> r.args == [Column(p.cat, op), Value(op)])
              // Less side: column OP (value + width).
              && (IsLessSide(s) && UpperBound(p, op).Some? ==>
                    r.args == [Column(p.cat, op), UpperBound(p, op).value])
    // The operator is replaced, by the commutator, only when the bucket was on the right.
    ensures r != op && !Switched(op) ==> r.opno == op.opno && r.opfuncid == op.opfuncid
    ensures r != op && Switched(op) ==> Some(r.opno) == p.cat.commutator(op.opno) && r.opfuncid == InvalidOid
  {
    match BucketSideOperator(p.cat, op)
    case None => op
    case Some(opno) =>
      var strategy := Strategy(p.cat, op, opno);
      if IsGreaterSide(strategy) then
        Rebuild(op, opno, [Column(p.cat, op), Value(op)])
      else if IsLessSide(strategy) then
        match UpperBound(p, op)
        case None => op
        case Some(bound) => Rebuild(op, opno, [Column(p.cat, op), bound])
      else
        op
  }
}
