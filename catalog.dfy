/**
 * The system catalog and the hypertable metadata, as seen by the expansion code. Every
 * lookup the code performs is a function-valued field; "not found" is None.
 */
module Catalog {
  import opened Wrappers
  import opened Nodes

  // B-tree strategy numbers; get_op_opfamily_strategy answers 0 for a non-member.
  const BTLessStrategyNumber: int := 1
  const BTLessEqualStrategyNumber: int := 2
  const BTEqualStrategyNumber: int := 3
  const BTGreaterEqualStrategyNumber: int := 4
  const BTGreaterStrategyNumber: int := 5

  /** A column's catalog row (the fields makeVar copies). */
  datatype Attribute = Attribute(atttypid: TypeId, atttypmod: int, attcollation: Oid)

  /** A chunk: its id, the hypertable it belongs to and its physical table. */
  datatype Chunk = Chunk(id: int, hypertableId: int, tableId: Oid)

  /** A partitioning dimension: its column and, if any, the partitioning function call on it. */
  datatype Dimension = Dimension(columnAttno: int, partitioning: Option<Expr>)

  datatype Hypertable = Hypertable(
    id: int,
    tableName: string,
    mainTableRelid: Oid,
    dimensions: seq<Dimension>)

  datatype Catalog = Catalog(
    funcName: Oid -> string,                        // get_func_name
    commutator: Oid -> Option<Oid>,                 // get_commutator
    btreeOpfamily: TypeId -> Oid,                   // lookup_type_cache(..)->btree_opf
    opStrategy: (Oid, Oid) -> int,                  // get_op_opfamily_strategy
    plusOperator: (TypeId, TypeId) -> Option<Oid>,  // get_operator("+", pg_catalog, l, r)
    opRettype: Oid -> TypeId,                       // get_op_rettype
    castFunc: (TypeId, TypeId) -> Option<Oid>,      // get_cast_func
    attribute: (Oid, int) -> Option<Attribute>,     // SearchSysCacheAttNum
    chunkById: int -> Option<Chunk>,                // ts_chunk_get_by_id
    relkind: Oid -> char,                           // rd_rel->relkind of an opened relation
    reltype: Oid -> Oid)                            // rd_rel->reltype of an opened relation

  function NumDimensions(ht: Hypertable): nat
  {
    |ht.dimensions|
  }
}
