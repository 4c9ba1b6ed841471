/**
 * qdrant-discovery/retrieve.py: context pairs, the exclusion filter and the shaping of the
 * Qdrant answers. The Qdrant client calls are inputs.
 */
module QuoteRetrieval {
  import opened Wrappers
  import Dicts
  import PyValue

  type Embedding = seq<real>

  /** A `ScoredPoint`: its id and payload. */
  datatype Point = Point(id: int, payload: Dicts.Dict<PyValue.Value>)

  datatype ContextPair = ContextPair(positive: Embedding, negative: Embedding)

  /** `Filter(must_not=[HasIdCondition(has_id=ids)])`; the condition is a membership test, so the ids are a set. */
  datatype Filter = MustNotHasId(ids: set<int>)

  /** A `QueryRequest` with a context query (payload and vectors always requested). */
  datatype QueryRequest = QueryRequest(context: seq<ContextPair>, limit: int, filter: Option<Filter>)

  datatype QueryResponse = QueryResponse(points: seq<Point>)

  /** The range `random.randint(0, 999)` draws the random quote id from. */
  const RandomIdLow := 0
  const RandomIdHigh := 999

  /** `create_context_pairs`: `zip` of the two lists, so as many pairs as the shorter list. */
  function CreateContextPairs(positive: seq<Embedding>, negative: seq<Embedding>): (r: seq<ContextPair>)
    ensures |r| == if |positive| <= |negative| then |positive| else |negative|
    ensures forall i :: 0 <= i < |r| ==> r[i] == ContextPair(positive[i], negative[i])
  {
    if positive == [] || negative == [] then []
    else [ContextPair(positive[0], negative[0])] + CreateContextPairs(positive[1..], negative[1..])
  }

  /** The filter of `query_by_context`: none for a missing or empty id collection. */
  function ExcludeFilter(excludeIds: Option<set<int>>): (r: Option<Filter>)
    ensures r.None? <==> excludeIds.None? || excludeIds.value == {}
    ensures r.Some? ==> r.value == MustNotHasId(excludeIds.value)
  {
    match excludeIds
    case None => None
    case Some(ids) => if ids == {} then None else Some(MustNotHasId(ids))
  }

  /**
   * `query_by_context`: one request with the pairs, the limit and the exclusion filter; the
   * points of the first response, or [] when the batch answer is empty. Client errors are
   * re-raised.
   */
  function QueryByContext(pairs: seq<ContextPair>, limit: int, excludeIds: Option<set<int>>, batch: seq<QueryRequest> -> Result<seq<QueryResponse>>): (r: Result<seq<Point>>)
    ensures var sent := batch([QueryRequest(pairs, limit, ExcludeFilter(excludeIds))]);
      (r.Err? <==> sent.Err?) && (r.Err? ==> r.error == sent.error) &&
      (r.Ok? ==> r.value == if sent.value == [] then [] else sent.value[0].points)
  {
    var results :- batch([QueryRequest(pairs, limit, ExcludeFilter(excludeIds))]);
    Ok(if results == [] then [] else results[0].points)
  }

  /**
   * `get_random_quote` for the drawn id: the first point of the answer, IndexError when there
   * is none.
   */
  function RandomQuote(randomId: int, query: int -> Result<seq<Point>>): (r: Result<Point>)
    requires RandomIdLow <= randomId <= RandomIdHigh
    ensures r.Ok? ==> query(randomId).Ok? && query(randomId).value != [] && r.value == query(randomId).value[0]
    ensures query(randomId).Ok? && query(randomId).value == [] ==> r == Err(IndexError("list index out of range"))
  {
    var points :- query(randomId);
    if points == [] then Err(IndexError("list index out of range")) else Ok(points[0])
  }
}
