/**
 * Expanding a hypertable into an append relation over its chunks: the validity test, and
 * the expansion that adds one child range-table entry and one append mapping per chosen
 * chunk.
 */
module ExpandHypertable {
  import opened Wrappers
  import opened Nodes
  import opened Catalog
  import opened BucketRewrite
  import opened CollectQuals
  import opened Planner
  import opened ChunkResolver
  import opened PartitionInfo

  /**
   * ts_plan_expand_hypertable_valid_hypertable: the relation is a known hypertable, marked
   * for inheritance, in a query that has no FOR UPDATE/SHARE clause (the parsed query's row
   * marks, not the planner's) and modifies no result relation.
   */
  function ValidHypertable(ht: Option<Hypertable>, parseRowMarks: seq<RowMarkClause>, resultRelation: nat,
                           rte: RangeTblEntry)
    : (ok: bool)
    ensures ht.None? ==> !ok
    ensures !rte.inh ==> !ok
    ensures parseRowMarks != [] ==> !ok
    ensures resultRelation != 0 ==> !ok
    ensures ok <== ht.Some? && rte.inh && parseRowMarks == [] && resultRelation == 0
  {
    !(ht.None? || !rte.inh || parseRowMarks != [] || resultRelation != 0)
  }

  /** The expansion refuses a relation whose planner row mark takes a row-share lock or stronger. */
  predicate RowMarkConflict(rowMarks: seq<PlanRowMark>, rti: nat)
  {
    var rc := FindRowMark(rowMarks, rti);
    rc.Some? && RowMarkRequiresRowShareLock(rc.value.markType)
  }

  /**
   * A relation the validity test accepts is not the query's result relation, which the
   * expansion asserts of its relation (and requires here).
   */
  lemma ValidHypertableIsNotResultRelation(ht: Option<Hypertable>, parseRowMarks: seq<RowMarkClause>,
                                           resultRelation: nat, rte: RangeTblEntry, rti: nat)
    requires ValidHypertable(ht, parseRowMarks, resultRelation, rte) && rti >= 1
    ensures rti != resultRelation
  {
  }

  /**
   * A child's range-table entry: a copy of the parent's with the chunk's table and relkind,
   * no inheritance, no CTE name, no required permissions and no security quals.
   */
  function ChildRte(parent: RangeTblEntry, childOid: Oid, relkind: char): (c: RangeTblEntry)
    ensures c.relid == childOid && c.relkind == relkind
    ensures !c.inh && c.ctename.None? && c.requiredPerms == 0 && c.securityQuals == []
    ensures c.checkAsUser == parent.checkAsUser && c.selectedCols == parent.selectedCols
  {
    parent.(relid := childOid, relkind := relkind, inh := false, ctename := None, requiredPerms := 0, securityQuals := [])
  }

  /** The append mapping from the parent rti to the child at range-table index childIndex. */
  function ChildAppendInfo(cat: Catalog, rti: nat, parentOid: Oid, childIndex: nat, childOid: Oid): (a: AppendRelInfo)
    ensures a.parentRelid == rti && a.childRelid == childIndex && a.parentReloid == parentOid
    ensures a.parentReltype == cat.reltype(parentOid) && a.childReltype == cat.reltype(childOid)
  {
    AppendRelInfo(rti, childIndex, cat.reltype(parentOid), cat.reltype(childOid), parentOid)
  }

  /** The child entries for oids, in order. */
  function ChildRtes(cat: Catalog, parent: RangeTblEntry, oids: seq<Oid>): (rtes: seq<RangeTblEntry>)
    ensures |rtes| == |oids|
    ensures forall k :: 0 <= k < |oids| ==> rtes[k] == ChildRte(parent, oids[k], cat.relkind(oids[k]))
  {
    seq(|oids|, k requires 0 <= k < |oids| => ChildRte(parent, oids[k], cat.relkind(oids[k])))
  }

  /** The append mappings for oids, the first child sitting at range-table index first. */
  function ChildAppendInfos(cat: Catalog, rti: nat, parentOid: Oid, first: nat, oids: seq<Oid>)
    : (infos: seq<AppendRelInfo>)
    ensures |infos| == |oids|
    ensures forall k :: 0 <= k < |oids| ==> infos[k] == ChildAppendInfo(cat, rti, parentOid, first + k, oids[k])
  {
    seq(|oids|, k requires 0 <= k < |oids| => ChildAppendInfo(cat, rti, parentOid, first + k, oids[k]))
  }

  /**
   * The index arithmetic closes: appended after a range table of length n, the k-th
   * mapping names the k-th chunk's entry, every child index is new and they are
   * pairwise distinct.
   */
  lemma AppendInfosPointAtChildren(cat: Catalog, rtable: seq<RangeTblEntry>, parent: RangeTblEntry,
                                   rti: nat, parentOid: Oid, oids: seq<Oid>)
    ensures var all := rtable + ChildRtes(cat, parent, oids);
            var infos := ChildAppendInfos(cat, rti, parentOid, |rtable| + 1, oids);
            forall k :: 0 <= k < |infos| ==>
              && |rtable| < infos[k].childRelid <= |all|
              && all[infos[k].childRelid - 1] == ChildRte(parent, oids[k], cat.relkind(oids[k]))
              && infos[k].parentRelid == rti
    ensures var infos := ChildAppendInfos(cat, rti, parentOid, |rtable| + 1, oids);
            forall k, l :: 0 <= k < l < |infos| ==> infos[k].childRelid < infos[l].childRelid
  {
    var all := rtable + ChildRtes(cat, parent, oids);
    var infos := ChildAppendInfos(cat, rti, parentOid, |rtable| + 1, oids);
    forall k | 0 <= k < |infos|
      ensures all[infos[k].childRelid - 1] == ChildRte(parent, oids[k], cat.relkind(oids[k]))
    {
      assert infos[k].childRelid - 1 == |rtable| + k;
    }
  }

  /**
   * The per-chunk loop: appends a child entry per chunk to the range table, shows it in
   * its simple_rte_array slot, clears its simple_rel_array slot and returns the append
   * mappings. The simple arrays have already been grown by one slot per chunk.
   */
  method ExpandChildren(cat: Catalog, root: PlannerInfo, rti: nat, parentOid: Oid,
                        rte: RangeTblEntry, oids: seq<Oid>)
    returns (appinfos: seq<AppendRelInfo>)
    requires |root.simpleRteArray| == |root.rtable| + |oids| + 1
    requires |root.simpleRelArray| == |root.rtable| + |oids| + 1
    requires forall i :: 1 <= i <= |root.rtable| ==> root.simpleRteArray[i] == Some(root.rtable[i - 1])
    modifies root
    ensures root.Valid() && root.simpleRteArray[0] == old(root.simpleRteArray[0])
    ensures root.rtable == old(root.rtable) + ChildRtes(cat, rte, oids)
    ensures root.simpleRelArray == old(root.simpleRelArray)[..|old(root.rtable)| + 1] + seq(|oids|, _ => None)
    ensures appinfos == ChildAppendInfos(cat, rti, parentOid, |old(root.rtable)| + 1, oids)
    ensures unchanged(root`appendRelList, root`jointree, root`resultRelation, root`rowMarks)
  {
    ghost var n0 := |root.rtable|;
    appinfos := [];
    var i := 0;
    while i < |oids|
      invariant 0 <= i <= |oids|
      invariant |root.rtable| == n0 + i && root.rtable[..n0] == old(root.rtable)
      invariant forall k :: 0 <= k < i ==> root.rtable[n0 + k] == ChildRte(rte, oids[k], cat.relkind(oids[k]))
      invariant |root.simpleRteArray| == n0 + |oids| + 1 && root.simpleRteArray[0] == old(root.simpleRteArray[0])
      invariant forall j :: 1 <= j <= n0 + i ==> root.simpleRteArray[j] == Some(root.rtable[j - 1])
      invariant |root.simpleRelArray| == n0 + |oids| + 1
      invariant forall j :: 0 <= j <= n0 ==> root.simpleRelArray[j] == old(root.simpleRelArray)[j]
      invariant forall j :: n0 < j <= n0 + i ==> root.simpleRelArray[j].None?
      invariant |appinfos| == i
      invariant forall k :: 0 <= k < i ==> appinfos[k] == ChildAppendInfo(cat, rti, parentOid, n0 + 1 + k, oids[k])
      invariant unchanged(root`appendRelList, root`jointree, root`resultRelation, root`rowMarks)
    {
      var childOid := oids[i];
      var childrte := ChildRte(rte, childOid, cat.relkind(childOid));
      root.rtable := root.rtable + [childrte];
      var childRtindex := |root.rtable|;
      root.simpleRteArray := root.simpleRteArray[childRtindex := Some(childrte)];
      root.simpleRelArray := root.simpleRelArray[childRtindex := None];
      var appinfo := AppendRelInfo(rti, childRtindex, cat.reltype(parentOid), cat.reltype(childOid), parentOid);
      appinfos := appinfos + [appinfo];
      i := i + 1;
    }
    assert root.rtable == old(root.rtable) + ChildRtes(cat, rte, oids);
    assert root.simpleRelArray == old(root.simpleRelArray)[..n0 + 1] + seq(|oids|, _ => None);
  }

  /**
   * Marks the entry rti as an append parent. The range table and simple_rte_array share the
   * entry, so both show the change. Returns the updated entry.
   */
  method MarkAppendParent(root: PlannerInfo, rti: nat) returns (rte: RangeTblEntry)
    requires root.Valid() && 1 <= rti <= |root.rtable|
    modifies root
    ensures rte == old(root.rtable)[rti - 1].(inh := true)
    ensures root.Valid() && root.rtable == old(root.rtable)[rti - 1 := rte]
    ensures root.simpleRteArray[0] == old(root.simpleRteArray[0])
    ensures root.simpleRelArray == old(root.simpleRelArray)
    ensures unchanged(root`appendRelList, root`jointree, root`resultRelation, root`rowMarks)
  {
    rte := root.rtable[rti - 1].(inh := true);
    root.rtable := root.rtable[rti - 1 := rte];
    root.simpleRteArray := root.simpleRteArray[rti := Some(rte)];
  }

  /**
   * The state after the chunks oids were added behind the range table rtable0: one child
   * entry and one append mapping per chunk, in order; simple_rte_array slot 0 as it was
   * (rteSlot0) and every other slot showing its entry; the old simple_rel_array followed
   * by one NULL slot per chunk; and the partition scheme over every dimension, with its
   * key expressions and empty nullable key expressions.
   */
  ghost predicate Expanded(cat: Catalog, ht: Hypertable, root: PlannerInfo, rel: RelOptInfo, parentOid: Oid,
                           parent: RangeTblEntry, rtable0: seq<RangeTblEntry>, rteSlot0: Option<RangeTblEntry>,
                           relArray0: seq<Option<nat>>, appendRelList0: seq<AppendRelInfo>, oids: seq<Oid>)
    reads root, rel, rel.partexprs, rel.nullablePartexprs
  {
    && root.Valid()
    && root.rtable == rtable0 + ChildRtes(cat, parent, oids)
    && root.simpleRteArray[0] == rteSlot0
    && root.simpleRelArray == relArray0 + seq(|oids|, _ => None)
    && root.appendRelList == appendRelList0 + ChildAppendInfos(cat, rel.relid, parentOid, |rtable0| + 1, oids)
    && rel.nparts == |oids|
    && rel.partScheme == Some(PartitionScheme(PARTITION_STRATEGY_MULTIDIM, NumDimensions(ht)))
    && HypertablePartexprs(cat, ht, rel.relid).Ok?
    && rel.partexprs[..] == HypertablePartexprs(cat, ht, rel.relid).value
    && rel.nullablePartexprs[..] == seq(NumDimensions(ht), _ => [])
  }

  /**
   * The part of the expansion after the chunk choice: grows the simple arrays by one slot
   * per chunk, builds the partition scheme over the chosen chunks, then adds the child
   * entries and append mappings.
   */
  method AddChunks(cat: Catalog, ht: Hypertable, root: PlannerInfo, rel: RelOptInfo, parentOid: Oid,
                   rte: RangeTblEntry, oids: seq<Oid>)
    returns (r: Result<(), PlanError>)
    requires root.Valid()
    modifies root, rel
    ensures HypertablePartexprs(cat, ht, rel.relid).Err? <==> r.Err?
    ensures r.Err? ==> r.error == AttributeLookupFailed
    ensures r.Ok? ==>
              && Expanded(cat, ht, root, rel, parentOid, rte, old(root.rtable), old(root.simpleRteArray[0]),
                          old(root.simpleRelArray), old(root.appendRelList), oids)
              && fresh(rel.partexprs) && fresh(rel.nullablePartexprs)
    ensures rel.appendsOrdered == old(rel.appendsOrdered)
    ensures unchanged(root`jointree, root`resultRelation, root`rowMarks)
  {
    root.simpleRelArray := root.simpleRelArray + seq(|oids|, _ => None);
    root.simpleRteArray := root.simpleRteArray + seq(|oids|, _ => None);

    var built := BuildHypertablePartitionInfo(cat, ht, rel, |oids|);
    if built.Err? {
      return Err(built.error);
    }

    ghost var grown := root.simpleRelArray;
    var appinfos := ExpandChildren(cat, root, rel.relid, parentOid, rte, oids);
    root.appendRelList := root.appendRelList + appinfos;
    assert grown[..|old(root.rtable)| + 1] == old(root.simpleRelArray);
    return Ok(());
  }

  /**
   * ts_plan_expand_hypertable_chunks: refuses a row-locking relation, marks the parent as
   * an append parent, collects its quals (removing a chunks_in marker from the join tree),
   * chooses the chunks, builds the partition scheme and adds one child entry and one
   * append mapping per chunk, in the chosen order. Returns the chosen chunks.
   */
  method ExpandHypertableChunks(planner: PlannerServices, chunksInFunc: Oid, renv: ResolveEnv,
                                ht: Hypertable, root: PlannerInfo, parentOid: Oid, rel: RelOptInfo)
    returns (r: Result<seq<Oid>, PlanError>)
    requires root.Valid()
    requires 1 <= rel.relid <= |root.rtable|
    requires rel.relid != root.resultRelation
    modifies root, rel
    ensures RowMarkConflict(old(root.rowMarks), rel.relid) ==> r == Err(UnexpectedPermissions)
    ensures var w := Walk(QualEnv(planner, rel.relid, chunksInFunc), old(root.jointree), CollectState([], None));
            !RowMarkConflict(old(root.rowMarks), rel.relid) ==>
              && (w.Err? ==> r == Err(w.error) && rel.appendsOrdered == old(rel.appendsOrdered))
              && (w.Ok? ==> root.jointree == w.value.value
                            && ExpansionOutcome(planner.cat, renv, w.value.state, ht, rel.relid, r)
                            && OrderedFlag(planner.cat, renv, w.value.state, ht, rel, old(rel.appendsOrdered)))
    ensures r.Ok? ==>
              var parent := old(root.rtable)[rel.relid - 1].(inh := true);
              && Expanded(planner.cat, ht, root, rel, parentOid, parent, old(root.rtable)[rel.relid - 1 := parent],
                          old(root.simpleRteArray[0]), old(root.simpleRelArray), old(root.appendRelList), r.value)
              && fresh(rel.partexprs) && fresh(rel.nullablePartexprs)
    ensures unchanged(root`resultRelation, root`rowMarks)
  {
    var rti := rel.relid;
    var oldrc := FindRowMark(root.rowMarks, rti);
    if oldrc.Some? && RowMarkRequiresRowShareLock(oldrc.value.markType) {
      return Err(UnexpectedPermissions);
    }

    var rte := MarkAppendParent(root, rti);
    r := CollectAndExpand(planner, chunksInFunc, renv, ht, root, parentOid, rel, rte);
  }

  /**
   * The expansion after the parent is marked: walks the join tree for quals, chooses the
   * chunks and adds them.
   */
  method CollectAndExpand(planner: PlannerServices, chunksInFunc: Oid, renv: ResolveEnv,
                          ht: Hypertable, root: PlannerInfo, parentOid: Oid, rel: RelOptInfo, rte: RangeTblEntry)
    returns (r: Result<seq<Oid>, PlanError>)
    requires root.Valid()
    modifies root, rel
    ensures var w := Walk(QualEnv(planner, rel.relid, chunksInFunc), old(root.jointree), CollectState([], None));
            && (w.Err? ==> r == Err(w.error) && rel.appendsOrdered == old(rel.appendsOrdered))
            && (w.Ok? ==> root.jointree == w.value.value
                          && ExpansionOutcome(planner.cat, renv, w.value.state, ht, rel.relid, r)
                          && OrderedFlag(planner.cat, renv, w.value.state, ht, rel, old(rel.appendsOrdered)))
    ensures r.Ok? ==>
              && Expanded(planner.cat, ht, root, rel, parentOid, rte, old(root.rtable), old(root.simpleRteArray[0]),
                          old(root.simpleRelArray), old(root.appendRelList), r.value)
              && fresh(rel.partexprs) && fresh(rel.nullablePartexprs)
    ensures unchanged(root`resultRelation, root`rowMarks)
  {
    var ctx := new CollectQualCtx(QualEnv(planner, rel.relid, chunksInFunc));
    var walked := ctx.CollectQualsWalker(root.jointree);
    if walked.Err? {
      return Err(walked.error);
    }
    root.jointree := walked.value;
    r := ChooseAndAddChunks(planner.cat, renv, ht, root, parentOid, rel, rte, ctx);
  }

  /**
   * The expansion after the walk: chooses the chunks from what the walk collected, then
   * adds them.
   */
  method ChooseAndAddChunks(cat: Catalog, renv: ResolveEnv, ht: Hypertable, root: PlannerInfo,
                            parentOid: Oid, rel: RelOptInfo, rte: RangeTblEntry, ctx: CollectQualCtx)
    returns (r: Result<seq<Oid>, PlanError>)
    requires root.Valid()
    modifies root, rel
    ensures ExpansionOutcome(cat, renv, ctx.State(), ht, rel.relid, r)
    ensures OrderedFlag(cat, renv, ctx.State(), ht, rel, old(rel.appendsOrdered))
    ensures r.Ok? ==>
              && Expanded(cat, ht, root, rel, parentOid, rte, old(root.rtable), old(root.simpleRteArray[0]),
                          old(root.simpleRelArray), old(root.appendRelList), r.value)
              && fresh(rel.partexprs) && fresh(rel.nullablePartexprs)
    ensures unchanged(root`jointree, root`resultRelation, root`rowMarks)
  {
    var inhOids := GetChunkOids(cat, renv, ctx, rel, ht);
    if inhOids.Err? {
      return Err(inhOids.error);
    }
    var oids := inhOids.value;

    var added := AddChunks(cat, ht, root, rel, parentOid, rte, oids);
    if added.Err? {
      return Err(added.error);
    }
    return Ok(oids);
  }

  /**
   * The outcome after the walk: the chunk choice's error, the attribute lookup's error,
   * or the chosen chunks.
   */
  ghost predicate ExpansionOutcome(cat: Catalog, renv: ResolveEnv, st: CollectState, ht: Hypertable,
                                   relid: nat, r: Result<seq<Oid>, PlanError>)
  {
    var sel := ResolveChunkOids(cat, renv, st, ht);
    && (sel.Err? ==> r == Err(sel.error))
    && (sel.Ok? && HypertablePartexprs(cat, ht, relid).Err? ==> r == Err(AttributeLookupFailed))
    && (sel.Ok? && HypertablePartexprs(cat, ht, relid).Ok? ==> r == Ok(sel.value.oids))
  }

  /**
   * The relation's appends_ordered flag after the chunk choice: set when it was set
   * before, or when the chosen chunks are ordered and the relation has private data.
   */
  ghost predicate OrderedFlag(cat: Catalog, renv: ResolveEnv, st: CollectState, ht: Hypertable,
                              rel: RelOptInfo, before: bool)
    reads rel
  {
    var sel := ResolveChunkOids(cat, renv, st, ht);
    rel.appendsOrdered == (before || (sel.Ok? && sel.value.appendsOrdered && rel.hasFdwPrivate))
  }
}
