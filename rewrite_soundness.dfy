/**
 * Soundness of the time_bucket rewrite for pruning: every row that satisfies the
 * original comparison satisfies the rewritten one. Values are integers in one unit
 * (a timestamp in microseconds); operators and functions get their meaning from a
 * Meaning that the catalog is required to agree with.
 */
module RewriteSoundness {
  import opened Wrappers
  import opened Nodes
  import opened Catalog
  import opened TimeBucket
  import opened BucketRewrite

  datatype OpMeaning = Compare(strategy: int) | Plus | OtherOp
  datatype FuncMeaning = BucketFunc | Identity | OtherFunc

  /** What each operator and function computes. */
  datatype Meaning = Meaning(op: Oid -> OpMeaning, func: Oid -> FuncMeaning)

  /** A row: the value of each column of the target relation, by attribute number. */
  type Row = map<int, int>

  /** The strategy of the commuted operator: a < b is b > a. */
  function Commuted(strategy: int): int
  {
    if 1 <= strategy <= 5 then 6 - strategy else strategy
  }

  predicate CompareBy(strategy: int, a: int, b: int)
  {
    if strategy == BTLessStrategyNumber then a < b
    else if strategy == BTLessEqualStrategyNumber then a <= b
    else if strategy == BTEqualStrategyNumber then a == b
    else if strategy == BTGreaterEqualStrategyNumber then a >= b
    else if strategy == BTGreaterStrategyNumber then a > b
    else false
  }

  /** The value of an expression on a row; None where it is undefined or not an integer. */
  function Eval(m: Meaning, e: Expr, row: Row): Option<int>
  {
    match e
    case Var(_, attno, _, _, _) => if attno in row then Some(row[attno]) else None
    case Const(_, _, _, datum) =>
      (match datum
       case IntDatum(i) => Some(i)
       case IntervalDatum(iv) => IntervalUsecs(iv)
       case ArrayDatum(_) => None)
    case Param(_, _) => None
    case FuncExpr(f, _, args) =>
      if m.func(f) == BucketFunc && |args| == 2 then
        var w := Eval(m, args[0], row);
        var x := Eval(m, args[1], row);
        if w.Some? && x.Some? && w.value > 0 then Some(Bucket(w.value, x.value)) else None
      else if m.func(f) == Identity && |args| == 1 then
        Eval(m, args[0], row)
      else
        None
    case OpExpr(o, _, _, args) =>
      if m.op(o) == Plus && |args| == 2 then
        var a := Eval(m, args[0], row);
        var b := Eval(m, args[1], row);
        if a.Some? && b.Some? then Some(a.value + b.value) else None
      else
        None
    case BoolExpr(_, _) => None
  }

  /** The row satisfies the comparison e. */
  predicate Holds(m: Meaning, e: Expr, row: Row)
  {
    && e.OpExpr? && |e.args| == 2 && m.op(e.opno).Compare?
    && Eval(m, e.args[0], row).Some? && Eval(m, e.args[1], row).Some?
    && CompareBy(m.op(e.opno).strategy, Eval(m, e.args[0], row).value, Eval(m, e.args[1], row).value)
  }

  /**
   * The catalog agrees with the meaning: time_bucket buckets, an operator's b-tree
   * strategy is the comparison it makes, a commutator compares the other way round,
   * `+` adds, casts keep the value and plan-time folding keeps the value.
   */
  ghost predicate Coherent(p: PlannerServices, m: Meaning)
  {
    && (forall f :: p.cat.funcName(f) == "time_bucket" ==> m.func(f) == BucketFunc)
    && (forall o, family :: 1 <= p.cat.opStrategy(o, family) <= 5 ==>
          m.op(o) == Compare(p.cat.opStrategy(o, family)))
    && (forall o :: p.cat.commutator(o).Some? && m.op(o).Compare? ==>
          m.op(p.cat.commutator(o).value) == Compare(Commuted(m.op(o).strategy)))
    && (forall l, r :: p.cat.plusOperator(l, r).Some? ==> m.op(p.cat.plusOperator(l, r).value) == Plus)
    && (forall a, b :: p.cat.castFunc(a, b).Some? ==> m.func(p.cat.castFunc(a, b).value) == Identity)
    && (forall e, row :: Eval(m, p.estimate(e), row) == Eval(m, e, row))
  }

  /** Normalising the width keeps its value. */
  lemma NormalizedWidthSameValue(m: Meaning, t: TypeId, width: Expr, row: Row)
    ensures Eval(m, NormalizeWidth(t, width), row) == Eval(m, width, row)
  {
    if NormalizeGuard(t, width) {
      var iv := width.constvalue.iv;
      assert IntervalUsecs(Interval(iv.time + iv.day * USECS_PER_DAY, 0, iv.month)) == IntervalUsecs(iv);
    }
  }

  /** The upper bound evaluates to value + width wherever both are defined. */
  lemma UpperBoundValue(p: PlannerServices, m: Meaning, op: Expr, row: Row)
    requires Coherent(p, m) && IsBucketComparison(p.cat, op)
    requires UpperBound(p, op).Some?
    requires Eval(m, Value(op), row).Some? && Eval(m, Width(p.cat, op), row).Some?
    ensures Eval(m, UpperBound(p, op).value, row)
            == Some(Eval(m, Value(op), row).value + Eval(m, Width(p.cat, op), row).value)
  {
    var bucketType := ExprType(BucketCall(op));
    var plus := p.cat.plusOperator(ExprType(Value(op)), ExprType(Width(p.cat, op))).value;
    var sum := Sum(p.cat, op, plus);
    NormalizedWidthSameValue(m, bucketType, Width(p.cat, op), row);
    assert m.op(plus) == Plus;
    assert Eval(m, sum, row) == Some(Eval(m, Value(op), row).value + Eval(m, Width(p.cat, op), row).value);
    var unfolded :=
      if p.cat.opRettype(plus) == bucketType then sum
      else FuncExpr(p.cat.castFunc(p.cat.opRettype(plus), bucketType).value, bucketType, [sum]);
    if p.cat.opRettype(plus) != bucketType {
      var f := p.cat.castFunc(p.cat.opRettype(plus), bucketType).value;
      assert m.func(f) == Identity;
      assert Eval(m, unfolded, row) == Eval(m, sum, row);
    }
    assert Eval(m, p.estimate(unfolded), row) == Eval(m, unfolded, row);
  }

  /**
   * The rewrite is sound for pruning: a row that satisfies
   * `time_bucket(w, col) OP value` (or `value OP time_bucket(w, col)`) satisfies
   * the rewritten predicate.
   */
  lemma TransformIsSound(p: PlannerServices, m: Meaning, op: Expr, row: Row)
    requires Coherent(p, m) && IsBucketComparison(p.cat, op)
    requires Holds(m, op, row)
    ensures Holds(m, TransformTimeBucketComparison(p, op), row)
  {
    var r := TransformTimeBucketComparison(p, op);
    if r == op {
      return;
    }
    var opno := BucketSideOperator(p.cat, op).value;
    var s := Strategy(p.cat, op, opno);
    var bucket := BucketCall(op);
    var value := Value(op);
    var col := Column(p.cat, op);
    var width := Width(p.cat, op);
    assert IsGreaterSide(s) || IsLessSide(s);
    // The bucket-side operator compares by s.
    var family := p.cat.btreeOpfamily(ExprType(bucket));
    assert s == p.cat.opStrategy(opno, family) && 1 <= s <= 5;
    assert m.op(opno) == Compare(s);
    // The original comparison, read with the bucket on the left.
    var b := Eval(m, bucket, row).value;
    var v := Eval(m, value, row).value;
    assert CompareBy(s, b, v) by {
      if Switched(op) {
        var s0 := m.op(op.opno).strategy;
        assert m.op(opno) == Compare(Commuted(s0));
      }
    }
    assert m.func(bucket.funcid) == BucketFunc;
    var w := Eval(m, width, row).value;
    var c := Eval(m, col, row).value;
    assert w > 0 && b == Bucket(w, c);
    BucketComparisonSound(b, c, v, w);
    assert r.opno == opno;
    if IsLessSide(s) {
      UpperBoundValue(p, m, op, row);
    }
  }
}
