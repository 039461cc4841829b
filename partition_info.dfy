/**
 * The synthetic partition scheme that lets the planner treat a hypertable as a table
 * partitioned on all of its dimensions at once.
 */
module PartitionInfo {
  import opened Wrappers
  import opened Nodes
  import opened Catalog
  import opened CollectQuals
  import opened Planner

  /** The column reference a dimension's key becomes, typed from the column's catalog row. */
  function KeyVar(varno: nat, dim: Dimension, att: Attribute): (v: Expr)
    ensures v.Var? && Varnos(v) == {varno} && v.varattno == dim.columnAttno
    ensures ExprType(v) == att.atttypid && v.vartypmod == att.atttypmod && v.varcollid == att.attcollation
  {
    Var(varno, dim.columnAttno, att.atttypid, att.atttypmod, att.attcollation)
  }

  /**
   * The expressions equivalent to one dimension's key: the key column, then the
   * partitioning function call on it when the dimension has one.
   */
  function DimensionExprs(cat: Catalog, ht: Hypertable, varno: nat, dim: Dimension): (r: Option<seq<Expr>>)
    ensures r.None? <==> cat.attribute(ht.mainTableRelid, dim.columnAttno).None?
    ensures r.Some? ==>
              && |r.value| == (if dim.partitioning.Some? then 2 else 1)
              && r.value[0] == KeyVar(varno, dim, cat.attribute(ht.mainTableRelid, dim.columnAttno).value)
              && (dim.partitioning.Some? ==> r.value[1] == dim.partitioning.value)
  {
    match cat.attribute(ht.mainTableRelid, dim.columnAttno)
    case None => None
    case Some(att) =>
      var key := KeyVar(varno, dim, att);
      Some(if dim.partitioning.Some? then [key, dim.partitioning.value] else [key])
  }

  /** Every dimension's key column is found in the catalog. */
  predicate KeysFound(cat: Catalog, ht: Hypertable)
  {
    forall i :: 0 <= i < |ht.dimensions| ==> cat.attribute(ht.mainTableRelid, ht.dimensions[i].columnAttno).Some?
  }

  /** get_hypertable_partexprs: one expression list per dimension, in dimension order. */
  function HypertablePartexprs(cat: Catalog, ht: Hypertable, varno: nat): (r: Result<seq<seq<Expr>>, PlanError>)
    ensures r.Err? <==> !KeysFound(cat, ht)
    ensures r.Err? ==> r.error == AttributeLookupFailed
    ensures r.Ok? ==> |r.value| == NumDimensions(ht)
    ensures r.Ok? ==> forall i :: 0 <= i < |r.value| ==> Some(r.value[i]) == DimensionExprs(cat, ht, varno, ht.dimensions[i])
  {
    if KeysFound(cat, ht) then
      Ok(seq(|ht.dimensions|, i requires 0 <= i < |ht.dimensions| => DimensionExprs(cat, ht, varno, ht.dimensions[i]).value))
    else
      Err(AttributeLookupFailed)
  }

  /**
   * Every list starts with a reference to the hypertable's own key column, so a GROUP BY
   * on the plain keys covers every partitioning dimension.
   */
  lemma PartexprsStartWithKeyColumns(cat: Catalog, ht: Hypertable, varno: nat)
    requires HypertablePartexprs(cat, ht, varno).Ok?
    ensures var pe := HypertablePartexprs(cat, ht, varno).value;
            forall i :: 0 <= i < |pe| ==>
              |pe[i]| >= 1 && pe[i][0].Var? && pe[i][0].varno == varno
              && pe[i][0].varattno == ht.dimensions[i].columnAttno
  {
    var pe: seq<seq<Expr>> := HypertablePartexprs(cat, ht, varno).value;
    forall i | 0 <= i < |pe|
      ensures |pe[i]| >= 1 && pe[i][0].Var? && pe[i][0].varno == varno
              && pe[i][0].varattno == ht.dimensions[i].columnAttno
    {
      assert Some(pe[i]) == DimensionExprs(cat, ht, varno, ht.dimensions[i]);
    }
  }

  /** get_hypertable_partexprs: fills a fresh array, one slot per dimension. */
  method GetHypertablePartexprs(cat: Catalog, ht: Hypertable, varno: nat)
    returns (r: Result<array<seq<Expr>>, PlanError>)
    ensures HypertablePartexprs(cat, ht, varno).Err? ==> r == Err(AttributeLookupFailed)
    ensures HypertablePartexprs(cat, ht, varno).Ok? ==>
              r.Ok? && fresh(r.value) && r.value[..] == HypertablePartexprs(cat, ht, varno).value
  {
    var partexprs := new seq<Expr>[|ht.dimensions|](_ => []);
    var i := 0;
    while i < |ht.dimensions|
      invariant 0 <= i <= |ht.dimensions|
      invariant forall j :: 0 <= j < i ==> cat.attribute(ht.mainTableRelid, ht.dimensions[j].columnAttno).Some?
      invariant forall j :: 0 <= j < i ==> Some(partexprs[j]) == DimensionExprs(cat, ht, varno, ht.dimensions[j])
    {
      var dim := ht.dimensions[i];
      var tuple := cat.attribute(ht.mainTableRelid, dim.columnAttno);
      if tuple.None? {
        return Err(AttributeLookupFailed);
      }
      var expr := Var(varno, dim.columnAttno, tuple.value.atttypid, tuple.value.atttypmod, tuple.value.attcollation);
      if dim.partitioning.Some? {
        partexprs[i] := [expr, dim.partitioning.value];
      } else {
        partexprs[i] := [expr];
      }
      i := i + 1;
    }
    return Ok(partexprs);
  }

  /**
   * build_hypertable_partition_info: a multi-dimensional scheme with one key per dimension,
   * nparts parts, the key expressions and no nullable key expressions.
   */
  method BuildHypertablePartitionInfo(cat: Catalog, ht: Hypertable, rel: RelOptInfo, nparts: int)
    returns (r: Result<(), PlanError>)
    modifies rel
    ensures var pe := HypertablePartexprs(cat, ht, rel.relid);
            && (pe.Err? ==> r == Err(AttributeLookupFailed))
            && (pe.Ok? ==>
                  && r.Ok?
                  && rel.nparts == nparts
                  && rel.partScheme == Some(PartitionScheme(PARTITION_STRATEGY_MULTIDIM, NumDimensions(ht)))
                  && fresh(rel.partexprs) && rel.partexprs[..] == pe.value
                  && fresh(rel.nullablePartexprs)
                  && rel.nullablePartexprs[..] == seq(NumDimensions(ht), _ => []))
    ensures rel.appendsOrdered == old(rel.appendsOrdered)
  {
    var scheme := PartitionScheme(PARTITION_STRATEGY_MULTIDIM, NumDimensions(ht));
    rel.nparts := nparts;
    rel.partScheme := Some(scheme);
    var partexprs := GetHypertablePartexprs(cat, ht, rel.relid);
    if partexprs.Err? {
      return Err(partexprs.error);
    }
    rel.partexprs := partexprs.value;
    rel.nullablePartexprs := new seq<Expr>[scheme.partnatts](_ => []);
    return Ok(());
  }
}
