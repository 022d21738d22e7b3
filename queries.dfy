/**
 * The query cursor: an immutable value pairing a document type with a store query.
 * Refining it returns a new cursor; streaming it turns the store's snapshots into
 * document instances, one per snapshot, in the order the store returns them.
 */
module Queries {
  import opened Wrappers
  import opened DocumentStore
  import opened Config
  import opened Documents

  /** The comparison operators a filter accepts. */
  datatype Operator = Lt | Le | Eq | Ge | Gt | ArrayContains

  datatype Filter = Filter(field: string, op: Operator, value: Value)

  /** The store-side query a cursor wraps: the collection it ranges over, its filters in the
      order they were added, and its limit. Evaluating it is the store's business. */
  datatype StoreQuery = StoreQuery(collection: Option<string>, filters: seq<Filter>, limit: Option<int>)

  /** `Query`: the document type to build instances of, the store query, and the client. */
  datatype Query = Query(docType: Settings, query: StoreQuery, client: Store)
  {
    /** `Query.where`: a new cursor, same type and client, with one more filter. */
    function Where(field: string, op: Operator, value: Value): (q: Query)
      ensures q.docType == docType && q.client == client
      ensures q.query.collection == query.collection && q.query.limit == query.limit
      ensures |q.query.filters| == |query.filters| + 1
      ensures q.query.filters[..|query.filters|] == query.filters
      ensures q.query.filters[|query.filters|] == Filter(field, op, value)
    {
      Query(docType, StoreQuery(query.collection, query.filters + [Filter(field, op, value)], query.limit), client)
    }

    /** `Query.limit`: a new cursor, same type, client and filters, limited to `count`. */
    function Limit(count: int): (q: Query)
      ensures q.docType == docType && q.client == client
      ensures q.query.collection == query.collection && q.query.filters == query.filters
      ensures q.query.limit == Some(count)
    {
      Query(docType, StoreQuery(query.collection, query.filters, Some(count)), client)
    }
  }

  /** `Document.where`: a cursor over the type's collection with exactly one filter and no limit. */
  function DocumentWhere(docType: Settings, field: string, op: Operator, value: Value, client: Store): (q: Query)
    ensures q.docType == docType && q.client == client
    ensures q.query.collection == docType.collection
    ensures q.query.filters == [Filter(field, op, value)] && q.query.limit.None?
  {
    Query(docType, StoreQuery(docType.collection, [], None), client).Where(field, op, value)
  }

  /** `Query.stream`: one instance per snapshot, in order, each rebuilt as
      `_from_firestore_snapshot` does. */
  function Stream(q: Query, snapshots: seq<Snapshot>): (r: seq<Instance>)
    ensures |r| == |snapshots|
    ensures forall i | 0 <= i < |snapshots| :: r[i] == SnapshotToInstance(q.docType.idAttr, snapshots[i])
  {
    if snapshots == [] then []
    else [SnapshotToInstance(q.docType.idAttr, snapshots[0])] + Stream(q, snapshots[1..])
  }

  /** Streaming is per snapshot: the stream of two batches of snapshots is the two streams
      one after the other, so it does not matter where the store splits its answer. */
  lemma StreamBatches(q: Query, a: seq<Snapshot>, b: seq<Snapshot>)
    ensures Stream(q, a + b) == Stream(q, a) + Stream(q, b)
  {
  }

  /** A refinement of a cursor: one `where` or one `limit` call. */
  datatype Step = WhereStep(filter: Filter) | LimitStep(count: int)

  /** The cursor after applying `steps` in order. */
  function Chain(q: Query, steps: seq<Step>): Query
    decreases |steps|
  {
    if steps == [] then q
    else
      var s := steps[|steps| - 1];
      var p := Chain(q, steps[..|steps| - 1]);
      match s
      case WhereStep(f) => p.Where(f.field, f.op, f.value)
      case LimitStep(n) => p.Limit(n)
  }

  /** The filters of the `where` steps, in order. */
  function StepFilters(steps: seq<Step>): seq<Filter>
    decreases |steps|
  {
    if steps == [] then []
    else
      var s := steps[|steps| - 1];
      StepFilters(steps[..|steps| - 1]) + (if s.WhereStep? then [s.filter] else [])
  }

  /** The count of the last `limit` step, if any. */
  function LastLimit(steps: seq<Step>): Option<int>
    decreases |steps|
  {
    if steps == [] then None
    else if steps[|steps| - 1].LimitStep? then Some(steps[|steps| - 1].count)
    else LastLimit(steps[..|steps| - 1])
  }

  /** However a cursor is refined, it keeps its document type, client and collection; its
      filters are the original ones followed by each `where` filter in call order; and the
      last `limit` call, if any, decides its limit. */
  lemma {:induction false} ChainKeepsBinding(q: Query, steps: seq<Step>)
    ensures var r := Chain(q, steps);
            && r.docType == q.docType && r.client == q.client
            && r.query.collection == q.query.collection
            && r.query.filters == q.query.filters + StepFilters(steps)
            && r.query.limit == (if LastLimit(steps).Some? then LastLimit(steps) else q.query.limit)
    decreases |steps|
  {
    if steps != [] {
      ChainKeepsBinding(q, steps[..|steps| - 1]);
    }
  }

  /** A stream depends only on the document type: refining a cursor never changes how the
      snapshots it yields are turned into instances. */
  lemma ChainStreamsAlike(q: Query, steps: seq<Step>, snapshots: seq<Snapshot>)
    ensures Stream(Chain(q, steps), snapshots) == Stream(q, snapshots)
  {
    ChainKeepsBinding(q, steps);
  }
}
