# Hypertable expansion in the TimescaleDB planner, modelled in Dafny

This project models the planner hook in `src/plan_expand_hypertable.c`. The hook expands a
hypertable into an append relation over its chunks. Four parts are modelled, with the catalog
and the planner's other subsystems as parameters:

- **The `time_bucket` rewrite** (`TimeBucket`, `BucketRewrite`, `RewriteSoundness`).
  - `time_bucket(w, col) OP const`, or the mirrored form, becomes a comparison on `col`.
  - A lower bound is kept as it is. An upper bound `v` becomes `v + w`.
  - An interval width has its days folded into microseconds.
  - A missing commutator, `+` operator or cast gives the predicate back unchanged.
  - The rewrite is proved sound over an integer evaluator. A row that satisfies the
    original comparison satisfies the rewritten one.
- **The qualifier collector** (`CollectQuals`).
  - `process_quals` and `collect_quals_walker` are a class holding the collection context,
    with loop methods.
  - Each method is proved against a functional specification (`ProcessQualsSpec`, `Walk`).
  - The walk is proved to equal processing the join tree's quals flattened in visiting
    order.
- **The chunk choice** (`ChunkResolver`). It picks one of four chunk lists:
  - the explicit `chunks_in` list, which has four error cases;
  - the ordered-append list;
  - the pruned list;
  - every inheritance child.
- **The expansion** (`PartitionInfo`, `Planner`, `ExpandHypertable`).
  - It builds the synthetic multi-dimensional partition scheme.
  - The per-chunk loop appends one child range-table entry and one append mapping per
    chosen chunk, in order.
  - `simple_rte_array` is kept in step with the range table.

Every module is in its own file. `wrappers.dfy` holds `Option`/`Result`; `nodes.dfy` and
`catalog.dfy` hold the planner nodes and the catalog view.

## Model

| member | source | states |
|---|---|---|
| TimeBucket.Bucket | src/plan_expand_hypertable.c:90-92 | A bucket is the lower bound of the width-sized range holding the value: `b <= x < b + width`. |
| TimeBucket.BucketComparisonSound | src/plan_expand_hypertable.c:85-113 | From `b <= c < b + w`: `b > v` gives `c > v`, `b >= v` gives `c >= v`, and `b < v` or `b <= v` gives `c < v + w`. |
| TimeBucket.UpperBoundKeepsStraddlingChunk | src/plan_expand_hypertable.c:109-112 | The worked example: `time_bucket(10, t) < 100` implies `t < 110`. |
| TimeBucket.NormalizeWidth | src/plan_expand_hypertable.c:181-199 | A timestamptz interval width with days and no months has its days folded into the time part. Its day part becomes 0, and its month part and its 24-hour-day length are preserved. Any other width is returned unchanged. |
| TimeBucket.FoldedExactlyWithoutMonths | src/plan_expand_hypertable.c:227-238 | After normalisation, a timestamptz bound with an interval width is folded at plan time exactly when the width has no month part. |
| TimeBucket.NormalizeGuardAsWrittenIgnoresDatum | src/plan_expand_hypertable.c:181-182 | The guard as written accepts `'1 month 1 day'` and `'1 hour'`, which the intended guard refuses. |
| BucketRewrite.BucketCall | src/plan_expand_hypertable.c:123-126 | The bucket call is one of the two operands. When a call is compared with a constant, it is the call: the right operand when the comparison is switched, the left one otherwise. |
| BucketRewrite.Value | src/plan_expand_hypertable.c:123-127 | The compared value is one of the two operands. When a call is compared with a constant, it is the constant: the left operand when the comparison is switched, the right one otherwise. |
| BucketRewrite.BucketSideOperator | src/plan_expand_hypertable.c:140-146 | The operator is the original one when the bucket is on the left, and the catalog commutator (possibly missing) when it is on the right. |
| BucketRewrite.Sum | src/plan_expand_hypertable.c:173-176 | `value + width` uses the catalog's `+` operator on the value and the normalised width. |
| BucketRewrite.UpperBound | src/plan_expand_hypertable.c:170-238 | It is None exactly when `+` is missing, or when `+` yields another type and no cast exists. Otherwise it is the sum, cast when the types differ, and folded only when the width allows plan-time folding. |
| BucketRewrite.TransformTimeBucketComparison | src/plan_expand_hypertable.c:120-255 | Greater side: `col OP value`. Less side: `col OP upper bound`. Soft failures return the input. The operator is commuted, with its function cleared, only when the bucket was on the right. |
| RewriteSoundness.NormalizedWidthSameValue | src/plan_expand_hypertable.c:184-198 | Folding days into microseconds keeps the width's value (a day taken as 24 hours). |
| RewriteSoundness.UpperBoundValue | src/plan_expand_hypertable.c:170-237 | Under a coherent catalog, the upper bound evaluates to `value + width`: through the cast, and through plan-time folding. |
| RewriteSoundness.TransformIsSound | src/plan_expand_hypertable.c:85-255 | Every row satisfying the original bucket comparison satisfies the rewritten predicate, so pruning with it loses no rows. |
| CollectQuals.QualToRestriction | src/plan_expand_hypertable.c:305-334 | The restriction records the qual's relids and the query's security level. A bucket comparison's clause is `TransformTimeBucketComparison`'s result, so `TransformIsSound` applies to it. Any other qual is kept as it is. |
| CollectQuals.KeptMembers | src/plan_expand_hypertable.c:276-286 | A qual is kept exactly when it references only the target relation. |
| CollectQuals.KeptAllOrNothing | src/plan_expand_hypertable.c:276-286 | With every qual relevant nothing is dropped, and order is kept. With none relevant nothing is kept. |
| CollectQuals.KeptAppend | src/plan_expand_hypertable.c:276-286 | Filtering distributes over concatenation: the kept quals keep their original order. |
| CollectQuals.RestrictionsAppend | src/plan_expand_hypertable.c:334 | Restrictions of a concatenation are those of the parts, appended in order. |
| CollectQuals.FirstMarker | src/plan_expand_hypertable.c:285-288 | It is None exactly when no qual is a `chunks_in` call on the target relation. Otherwise it is the first such index. |
| CollectQuals.FirstMarkerAt | src/plan_expand_hypertable.c:285-302 | A marker preceded by no marker is the one found. |
| CollectQuals.ChunksInOnOtherRelationSkipped | src/plan_expand_hypertable.c:285-288 | A `chunks_in` call on another relation is skipped: the list and the state pass through unchanged. |
| CollectQuals.ProcessQualsAppend | src/plan_expand_hypertable.c:270-337 | Processing two quals lists one after the other is processing their concatenation, up to the first marker. |
| CollectQuals.WalkFlattens | src/plan_expand_hypertable.c:339-361 | The walk's outcome is processing all the tree's quals in visiting order. The tree is unchanged when no marker is found. |
| CollectQuals.WalkListFlattens | src/plan_expand_hypertable.c:360 | The same for a list of sibling nodes. |
| CollectQuals.WalkMarkerDiscardsRestrictions | src/plan_expand_hypertable.c:299-300 | When the walk finds a marker, no restriction survives, and the recorded call is a marker on the target relation. |
| CollectQuals.CollectQualCtx.constructor | src/plan_expand_hypertable.c:626-631 | The context starts with no restrictions and no marker. |
| CollectQuals.CollectQualCtx.ProcessQuals | src/plan_expand_hypertable.c:270-337 | It returns the list, without the marker's cell if one is found, and leaves the context as `ProcessQualsSpec` prescribes. A non-Var first argument is an error. |
| CollectQuals.CollectQualCtx.CollectQualsWalker | src/plan_expand_hypertable.c:339-361 | It returns the tree with rewritten quals lists and leaves the context as `Walk` prescribes. It stops descending once the marker is found. |
| CollectQuals.CollectQualCtx.CollectQualsList | src/plan_expand_hypertable.c:360 | It visits a FromExpr's children in order until the marker is found, as `WalkList` prescribes. |
| Planner.FindRowMark | src/plan_expand_hypertable.c:635 | It returns the first of the planner's row marks for the relation: one no earlier mark shares its relation. It returns None exactly when no mark is for the relation. |
| ChunkResolver.ShouldOrderAppend | src/plan_expand_hypertable.c:383-398 | Ordered iff optimisations are on, ordered append is on, there is exactly one dimension, an ORDER BY and a LIMIT, and the ordering advice agrees. |
| ChunkResolver.FindChildrenOids | src/plan_expand_hypertable.c:364-380 | No restrictions gives every inheritance child. Otherwise it gives the pruned list. |
| ChunkResolver.ElemOid | src/plan_expand_hypertable.c:443-461 | A NULL id gives the NULL error. A missing chunk gives the not-found error for its id. A chunk of another hypertable gives the wrong-hypertable error with the id and the hypertable's name. Otherwise the result is the chunk's table. |
| ChunkResolver.ChunkArrayOids | src/plan_expand_hypertable.c:441-462 | Ok iff every element resolves, with one table per element in array order. Otherwise the error is that of the first failing element. |
| ChunkResolver.FirstFailingElement | src/plan_expand_hypertable.c:441-462 | The array's error is the error of its first failing element. |
| ChunkResolver.ExplicitChunkOids | src/plan_expand_hypertable.c:427-465 | A second argument that is not an integer-array constant is an error. Otherwise the array's tables are the result. |
| ChunkResolver.ExplicitBypassesPruning | src/plan_expand_hypertable.c:476-500 | With a marker, the choice does not depend on restrictions, settings or query shape, and is never ordered. |
| ChunkResolver.ResolveFailsOnlyOnExplicitList | src/plan_expand_hypertable.c:476-500 | Only the explicit path can fail. |
| ChunkResolver.OrderedAppendGate | src/plan_expand_hypertable.c:476-495 | The ordered list is chosen iff there is no marker, every gate condition holds and the advice agrees. |
| ChunkResolver.NoRestrictionsGiveAllChildren | src/plan_expand_hypertable.c:370-371 | No marker, no restrictions and no ordering give every inheritance child. |
| ChunkResolver.GetExplicitChunkOids | src/plan_expand_hypertable.c:417-465 | The iterator loop returns exactly `ExplicitChunkOids`. |
| ChunkResolver.GetChunkOids | src/plan_expand_hypertable.c:471-501 | It returns the choice of `ResolveChunkOids`. It sets `appends_ordered` only on the ordered path, and only when the relation has private data. |
| PartitionInfo.KeyVar | src/plan_expand_hypertable.c:554-555 | The key is a column reference on the relation, typed from the column's catalog row. |
| PartitionInfo.DimensionExprs | src/plan_expand_hypertable.c:546-564 | It is None iff the attribute lookup fails. Otherwise it is the key column, followed by the partitioning expression when the dimension has one. |
| PartitionInfo.HypertablePartexprs | src/plan_expand_hypertable.c:532-568 | It fails iff some key column is missing. Otherwise there is one list per dimension, in dimension order. |
| PartitionInfo.PartexprsStartWithKeyColumns | src/plan_expand_hypertable.c:559-564 | Every list starts with the dimension's own key column on the relation. |
| PartitionInfo.GetHypertablePartexprs | src/plan_expand_hypertable.c:532-568 | The loop fills a fresh array equal to `HypertablePartexprs`, or reports the lookup error. |
| PartitionInfo.BuildHypertablePartitionInfo | src/plan_expand_hypertable.c:595-608 | It sets a scheme with strategy `'m'` and one key per dimension, nparts, the key expressions, and empty nullable key expressions. |
| ExpandHypertable.ValidHypertable | src/plan_expand_hypertable.c:400-414 | It rejects when there is no hypertable, no inheritance, a FOR UPDATE/SHARE clause in the parsed query, or a result relation. It accepts otherwise. |
| ExpandHypertable.ValidHypertableIsNotResultRelation | src/plan_expand_hypertable.c:633-634 | A relation the validity test accepts is not the result relation, as the expansion asserts. |
| ExpandHypertable.ChildRte | src/plan_expand_hypertable.c:695-702 | The child is the parent's entry with the chunk's oid and relkind, inh off, no CTE name, no required permissions and no security quals. Other fields are copied. |
| ExpandHypertable.ChildAppendInfo | src/plan_expand_hypertable.c:712-721 | It maps the parent index to the child index, with both row types and the parent oid. |
| ExpandHypertable.ChildRtes | src/plan_expand_hypertable.c:666-703 | One child entry per chunk, in order. |
| ExpandHypertable.ChildAppendInfos | src/plan_expand_hypertable.c:703-722 | One mapping per chunk, at consecutive child indexes. |
| ExpandHypertable.AppendInfosPointAtChildren | src/plan_expand_hypertable.c:703-714 | Each mapping's child index is new and names its chunk's entry in the extended range table. The indexes increase strictly. |
| ExpandHypertable.ExpandChildren | src/plan_expand_hypertable.c:666-727 | The range table becomes the old one plus the child entries. Each new `simple_rte_array` slot shows its entry and slot 0 is kept. The old `simple_rel_array` prefix is kept, each new slot is NULL, and the mappings are returned. |
| ExpandHypertable.MarkAppendParent | src/plan_expand_hypertable.c:639-640 | The parent's entry gets inh on, in the range table and in `simple_rte_array` alike. Nothing else changes. |
| ExpandHypertable.AddChunks | src/plan_expand_hypertable.c:653-731 | It fails only if a key column is missing. On success (`Expanded`): the child entries and mappings are appended in order; `simple_rel_array` is the old one plus one NULL slot per chunk; `simple_rte_array` shows every entry. The relation's nparts, multi-dimensional scheme, key expressions and empty nullable key expressions are set. `appends_ordered`, row marks and result relation are untouched. |
| ExpandHypertable.ChooseAndAddChunks | src/plan_expand_hypertable.c:647-731 | The chunks added are the resolver's choice, and its errors pass through. `appends_ordered` is set only on the ordered path with private data. The new state is `Expanded` over the chosen chunks. |
| ExpandHypertable.CollectAndExpand | src/plan_expand_hypertable.c:644-731 | The join tree becomes the walk's result. The chunks, the `appends_ordered` flag and the `Expanded` state come from what the walk collected. A walk error leaves `appends_ordered` as it was. |
| ExpandHypertable.ExpandHypertableChunks | src/plan_expand_hypertable.c:614-739 | The row-mark error comes first, then the walk's, resolver's and lookup's errors. On success the state is `Expanded` over the chosen chunks, behind the range table with the parent marked inh: entries, mappings, both simple arrays, nparts, scheme and key expressions in full. `appends_ordered` follows the resolver. Row marks and result relation never change. |

## Left out

- Catalog, type-cache and system-cache lookups are function-valued fields of `Catalog`:
  - `get_func_name`, `get_commutator`, `lookup_type_cache`, `get_op_opfamily_strategy`;
  - `get_operator`, `get_op_rettype`, `get_cast_func`, `SearchSysCacheAttNum`;
  - `ts_chunk_get_by_id`, and a relation's relkind and reltype.

  The catalog itself is not part of this model.
- `estimate_expression_value` is the parameter `PlannerServices.estimate`. Only where it is applied is modelled. The soundness lemma assumes it keeps an expression's value.
- `ts_hypertable_restrict_info_*` (range exclusion), `ts_ordered_append_should_optimize` and `find_inheritance_children` are fields of `ResolveEnv`. The code behind them is not part of this model.
- Opening, locking and closing relations; `repalloc`; `ts_make_inh_translation_list` (`translated_vars` is not a field of `AppendRelInfo`); and `setup_append_rel_array`. These are memory and I/O plumbing, or calls into code not shown.
- The version branches for older PostgreSQL releases are not modelled. The model follows the newest branch: a security level on restrictions, and partition info built. The cached oid of `chunks_in` is the parameter `chunksInFunc`.
- Session-timezone calendar arithmetic is not modelled. An interval's value is `time + day * USECS_PER_DAY` when it has no months, and undefined otherwise.
- TimeBucket.Bucket: buckets are aligned on 0. The origin and offset of timestamp buckets are not modelled; they shift the bucket but keep `b <= x < b + width`.
- TimeBucket.NormalizeWidth: does not model the 64-bit overflow of `time + day * USECS_PER_DAY`, because integers are unbounded here.
- BucketRewrite.Width: the source casts the bucket's first argument to a Const without checking it. A width that is not a Const is treated as a non-interval width.
- CollectQuals.CollectQualCtx.CollectQualsWalker: `expression_tree_walker` also descends into expressions, such as sublinks inside quals. The model visits the join tree's FromExpr, JoinExpr and RangeTblRef nodes only. Quals lists are taken as implicitly AND-ed lists.
- ChunkResolver.ExplicitChunkOids: the source only asserts that `chunks_in` has two arguments and an integer-array constant. The model reports the "second argument" error when there are fewer arguments or the constant is not an array.
- ExpandHypertable.ExpandHypertableChunks: an error aborts planning in the source, so the model states nothing about the partly updated state on the error paths. The source's assertions are not modelled: that the relation is not the result relation (a `requires` here), that chunks are not another session's temp tables, and that children are not partitioned tables.
- `simple_rel_array` slots hold the relid of the slot's RelOptInfo, or None for NULL. The slots `repalloc` adds are uninitialised in the source; here they start as None before the loop writes them.
- RangeTblEntry keeps only the fields the expansion reads or writes, plus `checkAsUser` and `selectedCols` to stand for the fields copied from the parent.
- RewriteSoundness.TransformIsSound: soundness is proved over integer values in one unit, for a catalog that agrees with a `Meaning` (`Coherent`). Float, numeric and date arithmetic are not modelled.
- BucketRewrite.Sum, BucketRewrite.UpperBound, RewriteSoundness.TransformIsSound: the bound `value + width` is unbounded here. For int2, int4, int8 and timestamp values near the type's limit, the source's sum overflows. It then raises an out-of-range error instead of giving a bound, and does so at plan time when constant folding evaluates it. The model does not capture that error.
- ExpandHypertable.ValidHypertable reads the parsed query's FOR UPDATE/SHARE clauses, and the row-mark check of the expansion reads the planner's row marks. The planner derives the second list from the first, but that derivation is not part of this model. So the model proves no link between the validity test and the row-mark check.

## Findings

| source | as written | input that shows it | evidently intended | confidence | as-written member | corrected member |
|---|---|---|---|---|---|---|
| src/plan_expand_hypertable.c:182 | `DatumGetIntervalP(width)` reads the Const node itself as an Interval. Its `day` is the node's `consttypmod` and its `month` its `constcollid`, so the guard is true for any unrestricted interval constant. | `time_bucket('1 month 1 day', ts) < c` (typmod -1, collation 0) passes the guard and gets its day folded, although it has a month part. `'1 hour'` passes too, with no day to fold. | Read `width->constvalue`, as line 196 does: fold only when the interval's month is 0 and its day is not 0. | not executed | TimeBucket.NormalizeGuardAsWritten, TimeBucket.NormalizeGuardAsWrittenIgnoresDatum | TimeBucket.NormalizeGuard, TimeBucket.NormalizeWidth |
