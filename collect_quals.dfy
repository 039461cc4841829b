/**
 * The qualifier collector: walks the query's join tree, keeps the quals that
 * reference only the relation being expanded (rewriting time_bucket comparisons)
 * as restriction clauses, and stops at the first chunks_in marker on that relation,
 * which it removes from its quals list and which discards every restriction.
 */
module CollectQuals {
  import opened Wrappers
  import opened Nodes
  import opened Catalog
  import opened BucketRewrite

  /** The errors that abort planning. */
  datatype PlanError =
    | FirstArgNotRecord             // chunks_in's first argument is not a column reference
    | SecondArgNotConst             // chunks_in's second argument is not an integer-array constant
    | NullChunkId                   // an element of the chunk id array is NULL
    | ChunkNotFound(id: int)        // no chunk has this id
    | ChunkNotInHypertable(id: int, tableName: string)  // the chunk belongs to another hypertable
    | AttributeLookupFailed         // a dimension's key column is missing from the catalog
    | UnexpectedPermissions         // the relation carries a row-locking row mark

  /** What the collection runs against: planner services, the target relation and the chunks_in function's oid. */
  datatype QualEnv = QualEnv(planner: PlannerServices, relid: nat, chunksInFunc: Oid)

  /** The collector's accumulator: restriction clauses and the chunks_in marker, if found. */
  datatype CollectState = CollectState(restrictions: seq<RestrictInfo>, marker: Option<Expr>)

  /** A value produced together with the collector state after producing it. */
  datatype Collected<T> = Collected(value: T, state: CollectState)

  /** The qual references exactly one relation, the target. */
  predicate Relevant(env: QualEnv, q: Expr)
  {
    Varnos(q) == {env.relid}
  }

  predicate IsChunkExclusionFunc(env: QualEnv, q: Expr)
  {
    q.FuncExpr? && q.funcid == env.chunksInFunc
  }

  predicate IsMarker(env: QualEnv, q: Expr)
  {
    Relevant(env, q) && IsChunkExclusionFunc(env, q)
  }

  /** The i-th qual is a marker (a separate function, so that quantifiers over it fire only where it is named). */
  predicate MarkerAt(env: QualEnv, quals: seq<Expr>, i: int)
    requires 0 <= i < |quals|
  {
    IsMarker(env, quals[i])
  }

  /** No marker among the first n quals. */
  predicate NoMarkerBefore(env: QualEnv, quals: seq<Expr>, n: int)
    requires n <= |quals|
  {
    forall i :: 0 <= i < n ==> !MarkerAt(env, quals, i)
  }

  predicate NoMarker(env: QualEnv, quals: seq<Expr>)
  {
    NoMarkerBefore(env, quals, |quals|)
  }

  /** chunks_in's first argument must be a direct (whole-row) column reference. */
  predicate FirstArgIsRecord(q: Expr)
  {
    q.FuncExpr? && |q.args| > 0 && q.args[0].Var?
  }

  /** The restriction clause made from a relevant qual, rewritten when it compares a time_bucket call with a constant. */
  function QualToRestriction(env: QualEnv, q: Expr): (ri: RestrictInfo)
    ensures ri.requiredRelids == Varnos(q)
    ensures ri.securityLevel == env.planner.qualSecurityLevel
    ensures !IsBucketComparison(env.planner.cat, q) ==> ri.clause == q
    ensures IsBucketComparison(env.planner.cat, q) ==> ri.clause == TransformTimeBucketComparison(env.planner, q)
  {
    var clause :=
      if IsBucketComparison(env.planner.cat, q) then TransformTimeBucketComparison(env.planner, q) else q;
    RestrictInfo(clause, env.planner.qualSecurityLevel, Varnos(q))
  }

  /** The relevant quals, in their original order. */
  function Kept(env: QualEnv, quals: seq<Expr>): (k: seq<Expr>)
    ensures |k| <= |quals|
  {
    if quals == [] then []
    else
      var last := quals[|quals| - 1];
      var front := quals[..|quals| - 1];
      assert quals == front + [last];
      Kept(env, front) + (if Relevant(env, last) then [last] else [])
  }

  /** The quals a relevant qual is kept between: filtering distributes over concatenation. */
  lemma {:induction false} KeptAppend(env: QualEnv, a: seq<Expr>, b: seq<Expr>)
    ensures Kept(env, a + b) == Kept(env, a) + Kept(env, b)
    decreases |b|
  {
    if b == [] {
      assert a + b == a;
    } else {
      var last := b[|b| - 1];
      var front := b[..|b| - 1];
      assert a + b == (a + front) + [last];
      assert (a + b)[..|a + b| - 1] == a + front;
      KeptAppend(env, a, front);
    }
  }

  /** Kept is an order-preserving filter: it keeps a qual exactly when it is relevant. */
  lemma {:induction false} KeptMembers(env: QualEnv, quals: seq<Expr>)
    ensures forall q :: q in Kept(env, quals) <==> q in quals && Relevant(env, q)
    decreases |quals|
  {
    if quals != [] {
      var last := quals[|quals| - 1];
      var front := quals[..|quals| - 1];
      assert quals == front + [last];
      KeptMembers(env, front);
      forall q | q in quals
        ensures q in front || q == last
      {
        var j :| 0 <= j < |quals| && quals[j] == q;
        if j < |front| {
          assert front[j] == q;
        }
      }
    }
  }

  /** With every qual relevant nothing is dropped; with none relevant nothing is kept. */
  lemma {:induction false} KeptAllOrNothing(env: QualEnv, quals: seq<Expr>)
    ensures (forall i :: 0 <= i < |quals| ==> Relevant(env, quals[i])) ==> Kept(env, quals) == quals
    ensures (forall i :: 0 <= i < |quals| ==> !Relevant(env, quals[i])) ==> Kept(env, quals) == []
    decreases |quals|
  {
    if quals != [] {
      var front := quals[..|quals| - 1];
      assert forall i :: 0 <= i < |front| ==> front[i] == quals[i];
      KeptAllOrNothing(env, front);
      assert quals == front + [quals[|quals| - 1]];
    }
  }

  function Restrictions(env: QualEnv, quals: seq<Expr>): (r: seq<RestrictInfo>)
    ensures |r| == |Kept(env, quals)|
  {
    var k := Kept(env, quals);
    seq(|k|, i requires 0 <= i < |k| => QualToRestriction(env, k[i]))
  }

  lemma RestrictionsAppend(env: QualEnv, a: seq<Expr>, b: seq<Expr>)
    ensures Restrictions(env, a + b) == Restrictions(env, a) + Restrictions(env, b)
  {
    KeptAppend(env, a, b);
  }

  /** The index of the first chunks_in marker on the target relation at or after index from. */
  function FirstMarkerFrom(env: QualEnv, quals: seq<Expr>, from: nat): (k: Option<nat>)
    requires from <= |quals|
    requires NoMarkerBefore(env, quals, from)
    ensures k.None? <==> NoMarker(env, quals)
    ensures k.Some? ==>
              from <= k.value < |quals| && MarkerAt(env, quals, k.value) && NoMarkerBefore(env, quals, k.value)
    decreases |quals| - from
  {
    if from == |quals| then None
    else if MarkerAt(env, quals, from) then Some(from)
    else FirstMarkerFrom(env, quals, from + 1)
  }

  /** The index of the first chunks_in marker on the target relation. */
  function FirstMarker(env: QualEnv, quals: seq<Expr>): (k: Option<nat>)
    ensures k.None? <==> NoMarker(env, quals)
    ensures k.Some? ==>
              k.value < |quals| && MarkerAt(env, quals, k.value) && NoMarkerBefore(env, quals, k.value)
  {
    FirstMarkerFrom(env, quals, 0)
  }

  /** A marker preceded by no other marker is the first one. */
  lemma FirstMarkerAt(env: QualEnv, quals: seq<Expr>, i: nat)
    requires i < |quals| && MarkerAt(env, quals, i) && NoMarkerBefore(env, quals, i)
    ensures FirstMarker(env, quals) == Some(i)
  {
  }

  /** Markers of a + b are those of a followed by those of b. */
  lemma MarkerAtConcat(env: QualEnv, a: seq<Expr>, b: seq<Expr>, i: nat)
    requires i < |a + b|
    ensures MarkerAt(env, a + b, i) == if i < |a| then MarkerAt(env, a, i) else MarkerAt(env, b, i - |a|)
  {
    if i < |a| {
      assert (a + b)[i] == a[i];
    } else {
      assert (a + b)[i] == b[i - |a|];
    }
  }

  /**
   * process_quals over one quals list: with no marker on the target, the list is
   * kept and its relevant quals are appended as restrictions; at the first marker,
   * a record-typed first argument is required, the restrictions are discarded, the
   * marker is recorded and only its own cell is removed from the list.
   */
  function ProcessQualsSpec(env: QualEnv, quals: seq<Expr>, st: CollectState)
    : Result<Collected<seq<Expr>>, PlanError>
  {
    match FirstMarker(env, quals)
    case None =>
      Ok(Collected(quals, st.(restrictions := st.restrictions + Restrictions(env, quals))))
    case Some(k) =>
      if FirstArgIsRecord(quals[k]) then
        Ok(Collected(quals[..k] + quals[k + 1..], CollectState([], Some(quals[k]))))
      else
        Err(FirstArgNotRecord)
  }

  /** The quals of a join tree, in the order the walker visits them (node's own quals first). */
  function AllQuals(n: JoinNode): seq<Expr>
  {
    match n
    case RangeTblRef(_) => []
    case JoinExpr(l, r, q) => q + AllQuals(l) + AllQuals(r)
    case FromExpr(fl, q) => q + AllQualsOfList(fl)
  }

  function AllQualsOfList(ns: seq<JoinNode>): seq<Expr>
  {
    if ns == [] then [] else AllQuals(ns[0]) + AllQualsOfList(ns[1..])
  }

  /** Prefix already-walked nodes to the outcome of walking the rest of a list. */
  function PrependNodes(done: seq<JoinNode>, r: Result<Collected<seq<JoinNode>>, PlanError>)
    : Result<Collected<seq<JoinNode>>, PlanError>
  {
    match r
    case Err(e) => Err(e)
    case Ok(c) => Ok(Collected(done + c.value, c.state))
  }

  /**
   * collect_quals_walker: process the node's quals, stop if a marker was found,
   * otherwise walk the children left to right.
   */
  function Walk(env: QualEnv, n: JoinNode, st: CollectState): Result<Collected<JoinNode>, PlanError>
    requires st.marker.None?
  {
    match n
    case RangeTblRef(_) => Ok(Collected(n, st))
    case JoinExpr(l, r, q) =>
      (match ProcessQualsSpec(env, q, st)
       case Err(e) => Err(e)
       case Ok(pq) =>
         if pq.state.marker.Some? then Ok(Collected(JoinExpr(l, r, pq.value), pq.state))
         else
           match Walk(env, l, pq.state)
           case Err(e) => Err(e)
           case Ok(wl) =>
             if wl.state.marker.Some? then Ok(Collected(JoinExpr(wl.value, r, pq.value), wl.state))
             else
               match Walk(env, r, wl.state)
               case Err(e) => Err(e)
               case Ok(wr) => Ok(Collected(JoinExpr(wl.value, wr.value, pq.value), wr.state)))
    case FromExpr(fl, q) =>
      match ProcessQualsSpec(env, q, st)
      case Err(e) => Err(e)
      case Ok(pq) =>
        if pq.state.marker.Some? then Ok(Collected(FromExpr(fl, pq.value), pq.state))
        else
          match WalkList(env, fl, pq.state)
          case Err(e) => Err(e)
          case Ok(wf) => Ok(Collected(FromExpr(wf.value, pq.value), wf.state))
  }

  function WalkList(env: QualEnv, ns: seq<JoinNode>, st: CollectState)
    : Result<Collected<seq<JoinNode>>, PlanError>
    requires st.marker.None?
  {
    if ns == [] then Ok(Collected([], st))
    else
      match Walk(env, ns[0], st)
      case Err(e) => Err(e)
      case Ok(w) =>
        if w.state.marker.Some? then Ok(Collected([w.value] + ns[1..], w.state))
        else PrependNodes([w.value], WalkList(env, ns[1..], w.state))
  }

  /** Process b after a, unless processing a failed or found the marker. */
  function ThenProcess(env: QualEnv, first: Result<Collected<seq<Expr>>, PlanError>, b: seq<Expr>)
    : Result<Collected<seq<Expr>>, PlanError>
  {
    match first
    case Err(e) => Err(e)
    case Ok(c) =>
      if c.state.marker.Some? then Ok(Collected(c.value + b, c.state))
      else
        match ProcessQualsSpec(env, b, c.state)
        case Err(e) => Err(e)
        case Ok(d) => Ok(Collected(c.value + d.value, d.state))
  }

  /** Processing a + b is processing a, then b if a held no marker. */
  lemma ProcessQualsAppend(env: QualEnv, a: seq<Expr>, b: seq<Expr>, st: CollectState)
    requires st.marker.None?
    ensures ProcessQualsSpec(env, a + b, st) == ThenProcess(env, ProcessQualsSpec(env, a, st), b)
  {
    if FirstMarker(env, a).Some? {
      MarkerInFirst(env, a, b, st);
    } else if FirstMarker(env, b).Some? {
      MarkerInSecond(env, a, b, st);
    } else {
      NoMarkerInEither(env, a, b, st);
    }
  }

  lemma MarkerInFirst(env: QualEnv, a: seq<Expr>, b: seq<Expr>, st: CollectState)
    requires st.marker.None? && FirstMarker(env, a).Some?
    ensures ProcessQualsSpec(env, a + b, st) == ThenProcess(env, ProcessQualsSpec(env, a, st), b)
  {
    var k := FirstMarker(env, a).value;
    forall i | 0 <= i <= k
      ensures MarkerAt(env, a + b, i) == MarkerAt(env, a, i)
    {
      MarkerAtConcat(env, a, b, i);
    }
    FirstMarkerAt(env, a + b, k);
    assert (a + b)[k] == a[k];
    assert (a + b)[..k] + (a + b)[k + 1..] == (a[..k] + a[k + 1..]) + b;
  }

  lemma MarkerInSecond(env: QualEnv, a: seq<Expr>, b: seq<Expr>, st: CollectState)
    requires st.marker.None? && FirstMarker(env, a).None? && FirstMarker(env, b).Some?
    ensures ProcessQualsSpec(env, a + b, st) == ThenProcess(env, ProcessQualsSpec(env, a, st), b)
  {
    var j := FirstMarker(env, b).value;
    var k := |a| + j;
    forall i | 0 <= i <= k
      ensures MarkerAt(env, a + b, i) == (i == k)
    {
      MarkerAtConcat(env, a, b, i);
    }
    FirstMarkerAt(env, a + b, k);
    assert (a + b)[k] == b[j];
    assert (a + b)[..k] + (a + b)[k + 1..] == a + (b[..j] + b[j + 1..]);
  }

  lemma NoMarkerInEither(env: QualEnv, a: seq<Expr>, b: seq<Expr>, st: CollectState)
    requires st.marker.None? && FirstMarker(env, a).None? && FirstMarker(env, b).None?
    ensures ProcessQualsSpec(env, a + b, st) == ThenProcess(env, ProcessQualsSpec(env, a, st), b)
  {
    forall i | 0 <= i < |a + b|
      ensures !MarkerAt(env, a + b, i)
    {
      MarkerAtConcat(env, a, b, i);
    }
    assert FirstMarker(env, a + b).None?;
    RestrictionsAppend(env, a, b);
    var sa := st.(restrictions := st.restrictions + Restrictions(env, a));
    assert ProcessQualsSpec(env, a, st) == Ok(Collected(a, sa));
    assert st.restrictions + Restrictions(env, a) + Restrictions(env, b)
           == st.restrictions + Restrictions(env, a + b);
    assert ProcessQualsSpec(env, b, sa)
           == Ok(Collected(b, st.(restrictions := st.restrictions + Restrictions(env, a + b))));
  }

  lemma EmptyQualsKeepState(env: QualEnv, st: CollectState)
    ensures ProcessQualsSpec(env, [], st) == Ok(Collected([], st))
  {
    assert FirstMarker(env, []) == None;
    assert Restrictions(env, []) == [];
    assert st.(restrictions := st.restrictions + []) == st;
  }

  function FlattenNode(r: Result<Collected<JoinNode>, PlanError>): Result<Collected<seq<Expr>>, PlanError>
  {
    match r
    case Err(e) => Err(e)
    case Ok(c) => Ok(Collected(AllQuals(c.value), c.state))
  }

  function FlattenList(r: Result<Collected<seq<JoinNode>>, PlanError>): Result<Collected<seq<Expr>>, PlanError>
  {
    match r
    case Err(e) => Err(e)
    case Ok(c) => Ok(Collected(AllQualsOfList(c.value), c.state))
  }

  /**
   * Walking the tree does to the state what process_quals does to all its quals
   * taken in visiting order: one marker search and one restriction list across the
   * whole tree. With no marker the tree comes back unchanged; with one, only the
   * marker's cell is gone from the tree's quals.
   */
  lemma {:induction false} WalkFlattens(env: QualEnv, n: JoinNode, st: CollectState)
    requires st.marker.None?
    ensures FlattenNode(Walk(env, n, st)) == ProcessQualsSpec(env, AllQuals(n), st)
    ensures Walk(env, n, st).Ok? && Walk(env, n, st).value.state.marker.None? ==>
              Walk(env, n, st).value.value == n
    decreases n, 1
  {
    match n
    case RangeTblRef(_) =>
      EmptyQualsKeepState(env, st);
    case JoinExpr(l, r, q) =>
      var ql := q + AllQuals(l);
      assert AllQuals(n) == ql + AllQuals(r);
      ProcessQualsAppend(env, q, AllQuals(l), st);
      ProcessQualsAppend(env, ql, AllQuals(r), st);
      match ProcessQualsSpec(env, q, st) {
        case Err(_) =>
        case Ok(pq) =>
          if pq.state.marker.Some? {
            assert AllQuals(JoinExpr(l, r, pq.value)) == pq.value + AllQuals(l) + AllQuals(r);
          } else {
            assert pq.value == q;
            WalkFlattens(env, l, pq.state);
            match Walk(env, l, pq.state) {
              case Err(_) =>
              case Ok(wl) =>
                if wl.state.marker.Some? {
                  assert AllQuals(JoinExpr(wl.value, r, q)) == q + AllQuals(wl.value) + AllQuals(r);
                } else {
                  assert wl.value == l;
                  WalkFlattens(env, r, wl.state);
                }
            }
          }
      }
    case FromExpr(fl, q) =>
      assert AllQuals(n) == q + AllQualsOfList(fl);
      ProcessQualsAppend(env, q, AllQualsOfList(fl), st);
      match ProcessQualsSpec(env, q, st) {
        case Err(_) =>
        case Ok(pq) =>
          if pq.state.marker.None? {
            assert pq.value == q;
            WalkListFlattens(env, fl, pq.state);
          }
      }
  }

  lemma {:induction false} WalkListFlattens(env: QualEnv, ns: seq<JoinNode>, st: CollectState)
    requires st.marker.None?
    ensures FlattenList(WalkList(env, ns, st)) == ProcessQualsSpec(env, AllQualsOfList(ns), st)
    ensures WalkList(env, ns, st).Ok? && WalkList(env, ns, st).value.state.marker.None? ==>
              WalkList(env, ns, st).value.value == ns
    decreases ns, 0
  {
    if ns == [] {
      EmptyQualsKeepState(env, st);
    } else {
      assert AllQualsOfList(ns) == AllQuals(ns[0]) + AllQualsOfList(ns[1..]);
      ProcessQualsAppend(env, AllQuals(ns[0]), AllQualsOfList(ns[1..]), st);
      WalkFlattens(env, ns[0], st);
      match Walk(env, ns[0], st) {
        case Err(_) =>
        case Ok(w) =>
        if w.state.marker.Some? {
          assert AllQualsOfList([w.value] + ns[1..]) == AllQuals(w.value) + AllQualsOfList(ns[1..]) by {
            assert ([w.value] + ns[1..])[1..] == ns[1..];
          }
        } else {
          assert w.value == ns[0];
          WalkListFlattens(env, ns[1..], w.state);
          match WalkList(env, ns[1..], w.state) {
            case Err(_) =>
            case Ok(ws) =>
              assert ([w.value] + ws.value)[1..] == ws.value;
              assert [w.value] + ns[1..] == ns;
          }
        }
      }
    }
  }

  /** Explicit selection is exclusive: once a marker is found, no restriction survives. */
  lemma WalkMarkerDiscardsRestrictions(env: QualEnv, n: JoinNode, st: CollectState)
    requires st.marker.None?
    requires Walk(env, n, st).Ok? && Walk(env, n, st).value.state.marker.Some?
    ensures Walk(env, n, st).value.state.restrictions == []
    ensures IsMarker(env, Walk(env, n, st).value.state.marker.value)
  {
    WalkFlattens(env, n, st);
  }

  /** A chunks_in call on another relation is not a marker: the list and the state pass through unchanged. */
  lemma ChunksInOnOtherRelationSkipped(env: QualEnv, q: Expr, st: CollectState)
    requires IsChunkExclusionFunc(env, q) && Varnos(q) != {env.relid}
    ensures ProcessQualsSpec(env, [q], st) == Ok(Collected([q], st))
  {
    assert !MarkerAt(env, [q], 0);
    assert NoMarker(env, [q]);
    assert Kept(env, [q]) == [] by {
      assert [q][..0] == [];
    }
    assert Restrictions(env, [q]) == [];
    assert st.(restrictions := st.restrictions + []) == st;
  }

  lemma PrependTwice(a: seq<JoinNode>, b: seq<JoinNode>, r: Result<Collected<seq<JoinNode>>, PlanError>)
    ensures PrependNodes(a, PrependNodes(b, r)) == PrependNodes(a + b, r)
  {
    match r
    case Err(_) =>
    case Ok(c) => assert a + (b + c.value) == (a + b) + c.value;
  }

  /** One more qual adds its restriction exactly when it is relevant. */
  lemma RestrictionsStep(env: QualEnv, quals: seq<Expr>, i: nat)
    requires i < |quals|
    ensures Restrictions(env, quals[..i + 1]) ==
              Restrictions(env, quals[..i]) + (if Relevant(env, quals[i]) then [QualToRestriction(env, quals[i])] else [])
  {
    var qual := quals[i];
    assert quals[..i + 1] == quals[..i] + [qual];
    RestrictionsAppend(env, quals[..i], [qual]);
    assert Kept(env, [qual]) == (if Relevant(env, qual) then [qual] else []) by {
      assert [qual][..0] == [];
    }
  }

  /** Relids of size one holding the target are exactly the target's singleton. */
  lemma SingleRelid(relids: set<nat>, relid: nat)
    ensures (|relids| == 1 && relid in relids) <==> relids == {relid}
  {
    if |relids| == 1 && relid in relids {
      var rest := relids - {relid};
      assert |rest| == 0;
      assert rest == {};
    }
  }

  /**
   * The collection context threaded through the walk: the relation being expanded,
   * the restriction clauses derived so far and the chunks_in call, once found.
   */
  class CollectQualCtx {
    const env: QualEnv
    var restrictions: seq<RestrictInfo>
    var chunkExclusionFunc: Option<Expr>

    function State(): CollectState
      reads this
    {
      CollectState(restrictions, chunkExclusionFunc)
    }

    constructor (env: QualEnv)
      ensures this.env == env && restrictions == [] && chunkExclusionFunc == None
    {
      this.env := env;
      restrictions := [];
      chunkExclusionFunc := None;
    }

    /** process_quals: returns the quals list, without the marker's cell when one is found. */
    method ProcessQuals(quals: seq<Expr>) returns (r: Result<seq<Expr>, PlanError>)
      requires chunkExclusionFunc.None?
      modifies this
      ensures match ProcessQualsSpec(env, quals, old(State()))
              case Err(e) => r == Err(e)
              case Ok(c) => r == Ok(c.value) && State() == c.state
    {
      var i := 0;
      while i < |quals|
        invariant 0 <= i <= |quals|
        invariant chunkExclusionFunc.None?
        invariant NoMarkerBefore(env, quals, i)
        invariant restrictions == old(restrictions) + Restrictions(env, quals[..i])
      {
        var qual := quals[i];
        var relids := Varnos(qual);
        SingleRelid(relids, env.relid);
        RestrictionsStep(env, quals, i);
        // skip expressions not for the current relation
        if |relids| != 1 || env.relid !in relids {
          i := i + 1;
          continue;
        }
        if IsChunkExclusionFunc(env, qual) {
          assert MarkerAt(env, quals, i);
          FirstMarkerAt(env, quals, i);
          if !FirstArgIsRecord(qual) {
            return Err(FirstArgNotRecord);
          }
          chunkExclusionFunc := Some(qual);
          restrictions := [];
          return Ok(quals[..i] + quals[i + 1..]);
        }
        restrictions := restrictions + [QualToRestriction(env, qual)];
        i := i + 1;
      }
      assert quals[..i] == quals;
      return Ok(quals);
    }

    /**
     * collect_quals_walker: processes the quals of every FromExpr and JoinExpr in
     * visiting order and stops descending once the marker is found. Returns the
     * tree with the overwritten quals.
     */
    method CollectQualsWalker(node: JoinNode) returns (r: Result<JoinNode, PlanError>)
      requires chunkExclusionFunc.None?
      modifies this
      ensures match Walk(env, node, old(State()))
              case Err(e) => r == Err(e)
              case Ok(c) => r == Ok(c.value) && State() == c.state
      decreases node
    {
      match node {
        case RangeTblRef(_) =>
          return Ok(node);
        case JoinExpr(larg, rarg, quals) =>
          var pq := ProcessQuals(quals);
          if pq.Err? {
            return Err(pq.error);
          }
          if chunkExclusionFunc.Some? {
            return Ok(JoinExpr(larg, rarg, pq.value));
          }
          var wl := CollectQualsWalker(larg);
          if wl.Err? {
            return Err(wl.error);
          }
          if chunkExclusionFunc.Some? {
            return Ok(JoinExpr(wl.value, rarg, pq.value));
          }
          var wr := CollectQualsWalker(rarg);
          if wr.Err? {
            return Err(wr.error);
          }
          return Ok(JoinExpr(wl.value, wr.value, pq.value));
        case FromExpr(fromlist, quals) =>
          var pq := ProcessQuals(quals);
          if pq.Err? {
            return Err(pq.error);
          }
          if chunkExclusionFunc.Some? {
            return Ok(FromExpr(fromlist, pq.value));
          }
          var wf := CollectQualsList(fromlist);
          if wf.Err? {
            return Err(wf.error);
          }
          return Ok(FromExpr(wf.value, pq.value));
      }
    }

    /** The walk over a FromExpr's list of children, in order, until the marker is found. */
    method CollectQualsList(fromlist: seq<JoinNode>) returns (r: Result<seq<JoinNode>, PlanError>)
      requires chunkExclusionFunc.None?
      modifies this
      ensures match WalkList(env, fromlist, old(State()))
              case Err(e) => r == Err(e)
              case Ok(c) => r == Ok(c.value) && State() == c.state
      decreases fromlist
    {
      ghost var start := State();
      var done: seq<JoinNode> := [];
      var i := 0;
      assert fromlist[0..] == fromlist;
      assert PrependNodes([], WalkList(env, fromlist, start)) == WalkList(env, fromlist, start) by {
        match WalkList(env, fromlist, start)
        case Err(_) =>
        case Ok(c) => assert [] + c.value == c.value;
      }
      while i < |fromlist| && chunkExclusionFunc.None?
        invariant 0 <= i <= |fromlist| && |done| == i
        invariant chunkExclusionFunc.None? ==>
                    WalkList(env, fromlist, start) == PrependNodes(done, WalkList(env, fromlist[i..], State()))
        invariant chunkExclusionFunc.Some? ==>
                    WalkList(env, fromlist, start) == Ok(Collected(done + fromlist[i..], State()))
      {
        assert fromlist[i..][0] == fromlist[i] && fromlist[i..][1..] == fromlist[i + 1..];
        ghost var before := State();
        var w := CollectQualsWalker(fromlist[i]);
        if w.Err? {
          return Err(w.error);
        }
        if chunkExclusionFunc.Some? {
          assert WalkList(env, fromlist[i..], before) == Ok(Collected([w.value] + fromlist[i + 1..], State()));
          assert done + ([w.value] + fromlist[i + 1..]) == (done + [w.value]) + fromlist[i + 1..];
        } else {
          assert WalkList(env, fromlist[i..], before) == PrependNodes([w.value], WalkList(env, fromlist[i + 1..], State()));
          PrependTwice(done, [w.value], WalkList(env, fromlist[i + 1..], State()));
        }
        done := done + [w.value];
        i := i + 1;
      }
      if chunkExclusionFunc.None? {
        assert fromlist[i..] == [];
      }
      return Ok(done + fromlist[i..]);
    }
  }
}
