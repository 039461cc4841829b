/**
 * Choosing the chunks to expand: the explicit chunks_in list, the ordered-append list,
 * the pruned list or every inheritance child.
 */
module ChunkResolver {
  import opened Wrappers
  import opened Nodes
  import opened Catalog
  import opened CollectQuals
  import opened Planner

  /**
   * What the restriction index (ts_hypertable_restrict_info_*) deduces from a set of
   * restrictions. Its range arithmetic is not part of this model.
   */
  datatype RestrictIndex = RestrictIndex(
    hasRestrictions: bool,
    chunkOids: seq<Oid>,                   // get_chunk_oids: the chunks the restrictions admit
    orderedChunkOids: bool -> seq<Oid>)    // get_chunk_oids_ordered(reverse)

  /** The settings and the planner facts the chunk choice depends on. */
  datatype ResolveEnv = ResolveEnv(
    disableOptimizations: bool,            // timescaledb.disable_optimizations
    enableOrderedAppend: bool,             // timescaledb.enable_ordered_append
    hasSortClause: bool,                   // the query has an ORDER BY
    limitTuples: real,                     // root->limit_tuples, -1 when there is no LIMIT
    orderedAppendAdvice: Option<bool>,     // ts_ordered_append_should_optimize: Some(reverse) when it agrees
    restrictIndex: seq<RestrictInfo> -> RestrictIndex,
    inheritanceChildren: Oid -> seq<Oid>)  // find_inheritance_children

  /** The chosen chunks, and whether they come in the order an ordered append needs. */
  datatype ChunkSelection = ChunkSelection(oids: seq<Oid>, appendsOrdered: bool)

  /** The conditions checked before the ordered-append advice is asked for. */
  predicate OrderedAppendAllowed(env: ResolveEnv, ht: Hypertable)
  {
    && !env.disableOptimizations
    && env.enableOrderedAppend
    && NumDimensions(ht) == 1
    && env.hasSortClause
    && env.limitTuples != -1.0
  }

  /** should_order_append: Some(reverse) when the chunks are to be appended in order. */
  function ShouldOrderAppend(env: ResolveEnv, ht: Hypertable): (r: Option<bool>)
    ensures r.Some? <==> OrderedAppendAllowed(env, ht) && env.orderedAppendAdvice.Some?
    ensures r.Some? ==> r == env.orderedAppendAdvice
    ensures env.disableOptimizations || !env.enableOrderedAppend ==> r.None?
    ensures NumDimensions(ht) != 1 || !env.hasSortClause || env.limitTuples == -1.0 ==> r.None?
  {
    if env.disableOptimizations || !env.enableOrderedAppend then None
    else if NumDimensions(ht) != 1 || !env.hasSortClause || env.limitTuples == -1.0 then None
    else env.orderedAppendAdvice
  }

  /** find_children_oids: every inheritance child when nothing restricts, else the pruned list. */
  function FindChildrenOids(env: ResolveEnv, hri: RestrictIndex, ht: Hypertable): (oids: seq<Oid>)
    ensures !hri.hasRestrictions ==> oids == env.inheritanceChildren(ht.mainTableRelid)
    ensures hri.hasRestrictions ==> oids == hri.chunkOids
  {
    if !hri.hasRestrictions then env.inheritanceChildren(ht.mainTableRelid) else hri.chunkOids
  }

  /** The table of one chunks_in array element, or the error it raises. */
  function ElemOid(cat: Catalog, ht: Hypertable, elem: Option<int>): (r: Result<Oid, PlanError>)
    ensures elem.None? ==> r == Err(NullChunkId)
    ensures elem.Some? && cat.chunkById(elem.value).None? ==> r == Err(ChunkNotFound(elem.value))
    ensures elem.Some? && cat.chunkById(elem.value).Some? ==>
              (cat.chunkById(elem.value).value.hypertableId != ht.id ==> r == Err(ChunkNotInHypertable(elem.value, ht.tableName)))
    ensures r.Ok? <==> elem.Some? && cat.chunkById(elem.value).Some?
                       && cat.chunkById(elem.value).value.hypertableId == ht.id
    ensures r.Ok? ==> r.value == cat.chunkById(elem.value).value.tableId
  {
    match elem
    case None => Err(NullChunkId)
    case Some(id) =>
      match cat.chunkById(id)
      case None => Err(ChunkNotFound(id))
      case Some(chunk) =>
        if chunk.hypertableId != ht.id then Err(ChunkNotInHypertable(id, ht.tableName))
        else Ok(chunk.tableId)
  }

  /**
   * The tables of a chunks_in array, in array order; the first element that fails decides
   * the error.
   */
  function ChunkArrayOids(cat: Catalog, ht: Hypertable, elems: seq<Option<int>>): (r: Result<seq<Oid>, PlanError>)
    ensures r.Ok? <==> forall i :: 0 <= i < |elems| ==> ElemOid(cat, ht, elems[i]).Ok?
    ensures r.Ok? ==> |r.value| == |elems|
                      && forall i :: 0 <= i < |elems| ==> r.value[i] == ElemOid(cat, ht, elems[i]).value
    ensures r.Err? ==> exists i :: 0 <= i < |elems| && ElemOid(cat, ht, elems[i]) == Err(r.error)
                                   && forall j :: 0 <= j < i ==> ElemOid(cat, ht, elems[j]).Ok?
  {
    if elems == [] then Ok([])
    else
      var front := elems[..|elems| - 1];
      var last := elems[|elems| - 1];
      assert forall i :: 0 <= i < |front| ==> front[i] == elems[i];
      match ChunkArrayOids(cat, ht, front)
      case Err(e) => Err(e)
      case Ok(oids) =>
        match ElemOid(cat, ht, last)
        case Err(e) => Err(e)
        case Ok(oid) => Ok(oids + [oid])
  }

  /** The error of the whole array is the error of its first failing element. */
  lemma FirstFailingElement(cat: Catalog, ht: Hypertable, elems: seq<Option<int>>, i: nat)
    requires i < |elems| && ElemOid(cat, ht, elems[i]).Err?
    requires forall j :: 0 <= j < i ==> ElemOid(cat, ht, elems[j]).Ok?
    ensures ChunkArrayOids(cat, ht, elems) == Err(ElemOid(cat, ht, elems[i]).error)
  {
    var r := ChunkArrayOids(cat, ht, elems);
    var k :| 0 <= k < |elems| && ElemOid(cat, ht, elems[k]) == Err(r.error)
             && forall j :: 0 <= j < k ==> ElemOid(cat, ht, elems[j]).Ok?;
    assert k == i;
  }

  /** The int4[] constant given as chunks_in's second argument, if it is one. */
  function ChunkIdArray(func: Expr): Option<seq<Option<int>>>
  {
    if func.FuncExpr? && |func.args| >= 2 && func.args[1].Const? && func.args[1].constvalue.ArrayDatum?
    then Some(func.args[1].constvalue.elems)
    else None
  }

  /** get_explicit_chunk_oids: the chunks named by the chunks_in call, in array order. */
  function ExplicitChunkOids(cat: Catalog, ht: Hypertable, func: Expr): (r: Result<seq<Oid>, PlanError>)
    ensures ChunkIdArray(func).None? ==> r == Err(SecondArgNotConst)
    ensures ChunkIdArray(func).Some? ==> r == ChunkArrayOids(cat, ht, ChunkIdArray(func).value)
  {
    match ChunkIdArray(func)
    case None => Err(SecondArgNotConst)
    case Some(elems) => ChunkArrayOids(cat, ht, elems)
  }

  /** get_chunk_oids: an explicit chunks_in list takes precedence over everything else. */
  function ResolveChunkOids(cat: Catalog, env: ResolveEnv, st: CollectState, ht: Hypertable): (r: Result<ChunkSelection, PlanError>)
  {
    match st.marker
    case Some(func) =>
      (match ExplicitChunkOids(cat, ht, func)
       case Err(e) => Err(e)
       case Ok(oids) => Ok(ChunkSelection(oids, false)))
    case None =>
      var hri := env.restrictIndex(st.restrictions);
      match ShouldOrderAppend(env, ht)
      case Some(reverse) => Ok(ChunkSelection(hri.orderedChunkOids(reverse), true))
      case None => Ok(ChunkSelection(FindChildrenOids(env, hri, ht), false))
  }

  /**
   * The explicit list bypasses pruning: with a marker the choice depends on the catalog
   * and the marker alone, not on the restrictions, the settings or the query shape.
   */
  lemma ExplicitBypassesPruning(cat: Catalog, env: ResolveEnv, env': ResolveEnv, st: CollectState, st': CollectState, ht: Hypertable)
    requires st.marker.Some? && st'.marker == st.marker
    ensures ResolveChunkOids(cat, env, st, ht) == ResolveChunkOids(cat, env', st', ht)
    ensures ResolveChunkOids(cat, env, st, ht).Ok? ==>
              ResolveChunkOids(cat, env, st, ht).value.oids == ExplicitChunkOids(cat, ht, st.marker.value).value
              && !ResolveChunkOids(cat, env, st, ht).value.appendsOrdered
  {
  }

  /** Only the explicit path can fail; the others always produce a selection. */
  lemma ResolveFailsOnlyOnExplicitList(cat: Catalog, env: ResolveEnv, st: CollectState, ht: Hypertable)
    requires ResolveChunkOids(cat, env, st, ht).Err?
    ensures st.marker.Some?
    ensures ResolveChunkOids(cat, env, st, ht) == Err(ExplicitChunkOids(cat, ht, st.marker.value).error)
  {
  }

  /** The ordered path is taken exactly when no marker is present and every gate is open. */
  lemma OrderedAppendGate(cat: Catalog, env: ResolveEnv, st: CollectState, ht: Hypertable)
    ensures ResolveChunkOids(cat, env, st, ht).Ok? && ResolveChunkOids(cat, env, st, ht).value.appendsOrdered
            <==> st.marker.None? && OrderedAppendAllowed(env, ht) && env.orderedAppendAdvice.Some?
  {
  }

  /** Without a marker, restrictions or an ordered append, every inheritance child is expanded. */
  lemma NoRestrictionsGiveAllChildren(cat: Catalog, env: ResolveEnv, st: CollectState, ht: Hypertable)
    requires st.marker.None? && !env.restrictIndex(st.restrictions).hasRestrictions
    requires ShouldOrderAppend(env, ht).None?
    ensures ResolveChunkOids(cat, env, st, ht) == Ok(ChunkSelection(env.inheritanceChildren(ht.mainTableRelid), false))
  {
  }

  /** get_explicit_chunk_oids: iterates over the array, appending one table per element. */
  method GetExplicitChunkOids(cat: Catalog, ht: Hypertable, func: Expr) returns (r: Result<seq<Oid>, PlanError>)
    ensures r == ExplicitChunkOids(cat, ht, func)
  {
    if !(func.FuncExpr? && |func.args| >= 2) || !func.args[1].Const? || !func.args[1].constvalue.ArrayDatum? {
      return Err(SecondArgNotConst);
    }
    var elems := func.args[1].constvalue.elems;
    var chunkOids: seq<Oid> := [];
    var i := 0;
    while i < |elems|
      invariant 0 <= i <= |elems| && |chunkOids| == i
      invariant forall j :: 0 <= j < i ==> ElemOid(cat, ht, elems[j]) == Ok(chunkOids[j])
    {
      var elem := elems[i];
      if elem.None? {
        FirstFailingElement(cat, ht, elems, i);
        return Err(NullChunkId);
      }
      var chunkId := elem.value;
      var chunk := cat.chunkById(chunkId);
      if chunk.None? {
        FirstFailingElement(cat, ht, elems, i);
        return Err(ChunkNotFound(chunkId));
      }
      if chunk.value.hypertableId != ht.id {
        FirstFailingElement(cat, ht, elems, i);
        return Err(ChunkNotInHypertable(chunkId, ht.tableName));
      }
      chunkOids := chunkOids + [chunk.value.tableId];
      i := i + 1;
    }
    assert ChunkArrayOids(cat, ht, elems).value == chunkOids;
    return Ok(chunkOids);
  }

  /**
   * get_chunk_oids: returns the chosen chunks; on the ordered path it also flags the
   * relation's private data as ordered, when the relation has private data.
   */
  method GetChunkOids(cat: Catalog, env: ResolveEnv, ctx: CollectQualCtx, rel: RelOptInfo, ht: Hypertable)
    returns (r: Result<seq<Oid>, PlanError>)
    modifies rel
    ensures var sel := ResolveChunkOids(cat, env, ctx.State(), ht);
            && (sel.Err? ==> r == Err(sel.error))
            && (sel.Ok? ==> r == Ok(sel.value.oids))
            && rel.appendsOrdered == (old(rel.appendsOrdered) || (sel.Ok? && sel.value.appendsOrdered && rel.hasFdwPrivate))
    ensures unchanged(rel`nparts, rel`partScheme, rel`partexprs, rel`nullablePartexprs)
  {
    if ctx.chunkExclusionFunc.None? {
      var hri := env.restrictIndex(ctx.restrictions);
      var reverse := ShouldOrderAppend(env, ht);
      if reverse.Some? {
        if rel.hasFdwPrivate {
          rel.appendsOrdered := true;
        }
        return Ok(hri.orderedChunkOids(reverse.value));
      } else {
        return Ok(FindChildrenOids(env, hri, ht));
      }
    } else {
      r := GetExplicitChunkOids(cat, ht, ctx.chunkExclusionFunc.value);
    }
  }
}
