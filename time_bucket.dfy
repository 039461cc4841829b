/**
 * What the time_bucket rewrite relies on: a bucket is the lower bound of the
 * half-open range [b, b + width) holding the value, and an interval width whose
 * day part is taken as 24 hours can be folded into its microsecond part.
 */
module TimeBucket {
  import opened Wrappers
  import opened Nodes

  /**
   * The lower bound of the width-sized bucket holding x (buckets aligned on 0; a
   * fixed origin, as timestamp buckets use, shifts b but keeps b <= x < b + width).
   */
  function Bucket(width: int, x: int): (b: int)
    requires width > 0
    ensures b <= x < b + width
  {
    x - x % width
  }

  /**
   * The lower-bound argument behind the rewrite: from b <= c < b + w, a lower bound
   * on b is one on c, and an upper bound v on b gives the upper bound v + w on c.
   */
  lemma BucketComparisonSound(b: int, c: int, v: int, w: int)
    requires b <= c < b + w
    ensures b > v ==> c > v
    ensures b >= v ==> c >= v
    ensures b < v ==> c < v + w
    ensures b <= v ==> c < v + w
  {
  }

  /** Scenario B: bucket(10, t) < 100 keeps every t below 110, so a chunk covering [95, 105) stays. */
  lemma UpperBoundKeepsStraddlingChunk(t: int)
    requires Bucket(10, t) < 100
    ensures t < 110
  {
  }

  /** The interval datum held by an interval-typed constant, if the expression is one. */
  function IntervalOf(e: Expr): Option<Interval>
  {
    if e.Const? && e.consttype == INTERVALOID && e.constvalue.IntervalDatum? then
      Some(e.constvalue.iv)
    else
      None
  }

  /** An interval's length in microseconds, days taken as 24 hours; months have no fixed length. */
  function IntervalUsecs(iv: Interval): Option<int>
  {
    if iv.month == 0 then Some(iv.time + iv.day * USECS_PER_DAY) else None
  }

  /**
   * When a bucket on a timestamptz column has an interval width with days but no
   * months, the days are folded into the microseconds (the intended guard).
   */
  predicate NormalizeGuard(bucketType: TypeId, width: Expr)
  {
    bucketType == TIMESTAMPTZOID && IntervalOf(width).Some?
      && IntervalOf(width).value.month == 0 && IntervalOf(width).value.day != 0
  }

  /** The width with its day component folded into its time component when the guard holds. */
  function NormalizeWidth(bucketType: TypeId, width: Expr): (w: Expr)
    ensures IntervalOf(w).Some? <==> IntervalOf(width).Some?
    ensures IntervalOf(width).Some? ==>
              IntervalUsecs(IntervalOf(w).value) == IntervalUsecs(IntervalOf(width).value)
              && IntervalOf(w).value.month == IntervalOf(width).value.month
    ensures NormalizeGuard(bucketType, width) ==> IntervalOf(w).value.day == 0
    ensures !NormalizeGuard(bucketType, width) ==> w == width
  {
    if NormalizeGuard(bucketType, width) then
      var iv := width.constvalue.iv;
      width.(constvalue := IntervalDatum(Interval(iv.time + iv.day * USECS_PER_DAY, 0, iv.month)))
    else
      width
  }

  /**
   * The bound v + width may be evaluated at plan time only for a timestamptz bucket
   * whose interval width has neither days nor months.
   */
  predicate FoldAtPlanTime(bucketType: TypeId, width: Expr)
  {
    bucketType == TIMESTAMPTZOID && IntervalOf(width).Some?
      && IntervalOf(width).value.day == 0 && IntervalOf(width).value.month == 0
  }

  /** After normalisation, a timestamptz bound with an interval width is folded exactly when the width has no months. */
  lemma FoldedExactlyWithoutMonths(width: Expr)
    requires IntervalOf(width).Some?
    ensures (FoldAtPlanTime(TIMESTAMPTZOID, NormalizeWidth(TIMESTAMPTZOID, width))
             <==> IntervalOf(width).value.month == 0)
  {
  }

  /**
   * The guard as written: it reads the first sixteen bytes of the Const node itself
   * as an Interval {int64 time; int32 day; int32 month}, so on a 64-bit little-endian
   * build "day" is the node's consttypmod and "month" its constcollid.
   */
  predicate NormalizeGuardAsWritten(bucketType: TypeId, width: Expr)
  {
    bucketType == TIMESTAMPTZOID && width.Const? && width.consttype == INTERVALOID
      && width.constcollid == 0 && width.consttypmod != 0
  }

  /**
   * An unrestricted interval constant carries typmod -1 and no collation, so the
   * guard as written accepts '1 month 1 day', whose month the intended guard refuses,
   * and accepts '1 hour', which has no day to fold.
   */
  lemma NormalizeGuardAsWrittenIgnoresDatum()
    ensures var monthAndDay := Const(INTERVALOID, -1, 0, IntervalDatum(Interval(0, 1, 1)));
            NormalizeGuardAsWritten(TIMESTAMPTZOID, monthAndDay)
            && !NormalizeGuard(TIMESTAMPTZOID, monthAndDay)
    ensures var hour := Const(INTERVALOID, -1, 0, IntervalDatum(Interval(3600000000, 0, 0)));
            NormalizeGuardAsWritten(TIMESTAMPTZOID, hour) && !NormalizeGuard(TIMESTAMPTZOID, hour)
  {
  }
}
