/**
 * The mutable planner state that chunk expansion updates: the hypertable's relation
 * entry and the per-query planner information.
 */
module Planner {
  import opened Wrappers
  import opened Nodes

  /** The strategy tag of the synthetic scheme; no built-in partitioning strategy uses it. */
  const PARTITION_STRATEGY_MULTIDIM: char := 'm'

  /** The parts of a partition scheme that planning reads. */
  datatype PartitionScheme = PartitionScheme(strategy: char, partnatts: nat)

  // Row-mark kinds, in the host planner's order.
  const ROW_MARK_EXCLUSIVE: int := 0
  const ROW_MARK_NOKEYEXCLUSIVE: int := 1
  const ROW_MARK_SHARE: int := 2
  const ROW_MARK_KEYSHARE: int := 3
  const ROW_MARK_REFERENCE: int := 4
  const ROW_MARK_COPY: int := 5

  /** A FOR UPDATE/SHARE clause of the parsed query, on the range-table entry rti. */
  datatype RowMarkClause = RowMarkClause(rti: nat, strength: int)

  /** A row-locking request on the range-table entry rti, as the planner prepares it. */
  datatype PlanRowMark = PlanRowMark(rti: nat, markType: int)

  /** The row mark for rti, the first one in the list (get_plan_rowmark). */
  function FindRowMark(rowMarks: seq<PlanRowMark>, rti: nat): (m: Option<PlanRowMark>)
    ensures m.Some? ==> m.value in rowMarks && m.value.rti == rti
    ensures m.None? <==> forall i :: 0 <= i < |rowMarks| ==> rowMarks[i].rti != rti
    ensures m.Some? ==> exists i :: 0 <= i < |rowMarks| && rowMarks[i] == m.value
                                   && forall j :: 0 <= j < i ==> rowMarks[j].rti != rti
  {
    if rowMarks == [] then None
    else if rowMarks[0].rti == rti then Some(rowMarks[0])
    else FindRowMark(rowMarks[1..], rti)
  }

  /** Lock-taking row marks: every kind up to KEYSHARE takes at least a row-share lock. */
  predicate RowMarkRequiresRowShareLock(markType: int)
  {
    markType <= ROW_MARK_KEYSHARE
  }

  /**
   * The planner's entry for a base relation. fdw_private is summarised by whether it is
   * present; its appends_ordered flag is a field of its own.
   */
  class RelOptInfo {
    const relid: nat
    const hasFdwPrivate: bool
    var appendsOrdered: bool
    var nparts: int
    var partScheme: Option<PartitionScheme>
    var partexprs: array<seq<Expr>>
    var nullablePartexprs: array<seq<Expr>>

    constructor (relid: nat, hasFdwPrivate: bool)
      ensures this.relid == relid && this.hasFdwPrivate == hasFdwPrivate
      ensures !appendsOrdered && nparts == 0 && partScheme.None?
      ensures partexprs.Length == 0 && nullablePartexprs.Length == 0
    {
      this.relid := relid;
      this.hasFdwPrivate := hasFdwPrivate;
      appendsOrdered := false;
      nparts := 0;
      partScheme := None;
      partexprs := new seq<Expr>[0];
      nullablePartexprs := new seq<Expr>[0];
    }
  }

  /**
   * The query-wide planner state. simple_rte_array and simple_rel_array are indexed by
   * range-table index (slot 0 unused); a None in simpleRelArray is a NULL slot, and the
   * array's length is simple_rel_array_size.
   */
  class PlannerInfo {
    var rtable: seq<RangeTblEntry>
    var simpleRteArray: seq<Option<RangeTblEntry>>
    var simpleRelArray: seq<Option<nat>>
    var appendRelList: seq<AppendRelInfo>
    var jointree: JoinNode
    var resultRelation: nat
    var rowMarks: seq<PlanRowMark>

    /** Both simple arrays have one slot per range-table index, and each entry slot shows that entry. */
    ghost predicate Valid()
      reads this
    {
      && |simpleRteArray| == |rtable| + 1
      && |simpleRelArray| == |rtable| + 1
      && forall i :: 1 <= i <= |rtable| ==> simpleRteArray[i] == Some(rtable[i - 1])
    }

    constructor (rtable: seq<RangeTblEntry>, jointree: JoinNode, resultRelation: nat, rowMarks: seq<PlanRowMark>)
      ensures Valid()
      ensures this.rtable == rtable && this.jointree == jointree
      ensures this.resultRelation == resultRelation && this.rowMarks == rowMarks
      ensures appendRelList == [] && forall i :: 0 <= i < |simpleRelArray| ==> simpleRelArray[i].None?
    {
      this.rtable := rtable;
      simpleRteArray := [None] + seq(|rtable|, i requires 0 <= i < |rtable| => Some(rtable[i]));
      simpleRelArray := seq(|rtable| + 1, _ => None);
      appendRelList := [];
      this.jointree := jointree;
      this.resultRelation := resultRelation;
      this.rowMarks := rowMarks;
    }
  }
}
