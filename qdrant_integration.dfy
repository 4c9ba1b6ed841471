/**
 * qdrant-cookbook/qdrant_integration.py: the points `insert_documents` and
 * `batch_insert_documents` upsert (ids, payloads, counts) and the records `get_relevant_docs`
 * makes of the search hits. The embedding model and the Qdrant client are inputs.
 */
module QdrantIntegration {
  import opened Wrappers
  import Text
  import Dicts
  import opened PyValue
  import Batching

  type Vector = seq<real>

  /** A `PointStruct`: its string id, its embedding and its payload. */
  datatype Point = Point(id: string, vector: Vector, payload: Entries)

  /** The point of a document at global position `index`: id `str(index)`, payload `{"text": doc}`. */
  function DocumentPoint(doc: string, index: nat, embed: string -> Vector): (p: Point) {
    Point(Text.NatToString(index), embed(doc), [("text", Str(doc))])
  }

  /** The points of `docs`, numbered from `offset`, in document order. */
  function PointsOf(docs: seq<string>, offset: nat, embed: string -> Vector): (ps: seq<Point>)
    ensures |ps| == |docs|
    decreases |docs|
  {
    if docs == [] then [] else PointsOf(docs[..|docs| - 1], offset, embed) + [DocumentPoint(docs[|docs| - 1], offset + |docs| - 1, embed)]
  }

  /** The k-th point is the k-th document's, numbered `offset + k`. */
  lemma {:induction false} PointsOfAt(docs: seq<string>, offset: nat, embed: string -> Vector, k: nat)
    requires k < |docs|
    ensures PointsOf(docs, offset, embed)[k] == DocumentPoint(docs[k], offset + k, embed)
    decreases |docs|
  {
    if k < |docs| - 1 {
      var init := docs[..|docs| - 1];
      PointsOfAt(init, offset, embed, k);
    }
  }

  /** Numbering two runs of documents one after the other numbers their concatenation. */
  lemma PointsOfAppend(a: seq<string>, b: seq<string>, offset: nat, embed: string -> Vector)
    ensures PointsOf(a + b, offset, embed) == PointsOf(a, offset, embed) + PointsOf(b, offset + |a|, embed)
  {
    var lhs := PointsOf(a + b, offset, embed);
    var rhs := PointsOf(a, offset, embed) + PointsOf(b, offset + |a|, embed);
    assert forall k :: 0 <= k < |a + b| ==> lhs[k] == rhs[k] by {
      forall k | 0 <= k < |a + b|
        ensures lhs[k] == rhs[k]
      {
        PointsOfAt(a + b, offset, embed, k);
        if k < |a| {
          assert (a + b)[k] == a[k];
          PointsOfAt(a, offset, embed, k);
        } else {
          assert (a + b)[k] == b[k - |a|];
          PointsOfAt(b, offset + |a|, embed, k - |a|);
        }
      }
    }
  }

  /** Distinct positions give distinct point ids. */
  lemma {:induction false} IdsUnique(docs: seq<string>, offset: nat, embed: string -> Vector, j: nat, k: nat)
    requires j < |docs| && k < |docs| && j != k
    ensures PointsOf(docs, offset, embed)[j].id != PointsOf(docs, offset, embed)[k].id
  {
    PointsOfAt(docs, offset, embed, j);
    PointsOfAt(docs, offset, embed, k);
    Text.NatToStringInjective(offset + j, offset + k);
  }

  /**
   * `insert_documents`: one point per document, with ids "0" .. "n-1" and the document as its
   * text; the points upserted and their count.
   */
  method InsertDocuments(docs: seq<string>, embed: string -> Vector) returns (points: seq<Point>, count: nat)
    ensures points == PointsOf(docs, 0, embed)
    ensures count == |docs|
  {
    points := [];
    var idx := 0;
    while idx < |docs|
      invariant 0 <= idx <= |docs|
      invariant points == PointsOf(docs[..idx], 0, embed)
    {
      assert docs[..idx + 1][..idx] == docs[..idx];
      var vector := embed(docs[idx]);
      points := points + [Point(Text.NatToString(idx), vector, [("text", Str(docs[idx]))])];
      idx := idx + 1;
    }
    assert docs[..idx] == docs;
    count := |points|;
  }

  const RangeStepZero := "range() arg 3 must not be zero"

  /** The default `batch_size` of `batch_insert_documents`. */
  const DefaultBatchSize := 10

  /** The points of one batch, numbered from the batch's start `i` (the inner loop). */
  method BatchPoints(batch: seq<string>, i: nat, embed: string -> Vector) returns (points: seq<Point>)
    ensures points == PointsOf(batch, i, embed)
  {
    points := [];
    var idx := 0;
    while idx < |batch|
      invariant 0 <= idx <= |batch|
      invariant points == PointsOf(batch[..idx], i, embed)
    {
      assert batch[..idx + 1][..idx] == batch[..idx];
      var vector := embed(batch[idx]);
      points := points + [Point(Text.NatToString(i + idx), vector, [("text", Str(batch[idx]))])];
      idx := idx + 1;
    }
    assert batch[..idx] == batch;
  }

  /**
   * `batch_insert_documents`: the point lists upserted batch by batch, and the running total.
   * A zero batch size makes `range` raise; a negative one makes the range empty.
   */
  method BatchInsertDocuments(documents: seq<string>, batchSize: int, embed: string -> Vector)
    returns (r: Result<(seq<seq<Point>>, nat)>)
    ensures batchSize == 0 <==> r == Err(ValueError(RangeStepZero))
    ensures batchSize < 0 ==> r == Ok(([], 0))
    ensures batchSize > 0 ==> r.Ok? && BatchesUpserted(documents, batchSize, embed, r.value.0) && r.value.1 == |documents|
  {
    if batchSize == 0 {
      return Err(ValueError(RangeStepZero));
    }
    if batchSize < 0 {
      return Ok(([], 0));
    }
    var upserts, total := UpsertBatches(documents, batchSize, embed);
    return Ok((upserts, total));
  }

  /**
   * The upserts of a positive batch size: batch k holds the documents from k * size on, numbered
   * by their global position, so together they are exactly the points of `insert_documents`.
   */
  ghost predicate BatchesUpserted(documents: seq<string>, size: nat, embed: string -> Vector, upserts: seq<seq<Point>>)
    requires size > 0
  {
    var batches := Batching.Batches(documents, size);
    |upserts| == |batches| &&
    Numbered(upserts, batches, size, embed) &&
    Batching.Flatten(upserts) == PointsOf(documents, 0, embed)
  }

  /** Each upsert is its batch's points, numbered from the batch's start. */
  ghost predicate Numbered(upserts: seq<seq<Point>>, batches: seq<seq<string>>, size: nat, embed: string -> Vector)
    requires |upserts| <= |batches|
  {
    forall k :: 0 <= k < |upserts| ==> upserts[k] == PointsOf(batches[k], k * size, embed)
  }

  lemma NumberedNext(upserts: seq<seq<Point>>, batches: seq<seq<string>>, size: nat, embed: string -> Vector, points: seq<Point>)
    requires |upserts| < |batches| && Numbered(upserts, batches, size, embed)
    requires points == PointsOf(batches[|upserts|], |upserts| * size, embed)
    ensures Numbered(upserts + [points], batches, size, embed)
  {
  }

  /** The loop of `batch_insert_documents` for a positive batch size. */
  method UpsertBatches(documents: seq<string>, batchSize: nat, embed: string -> Vector)
    returns (upserts: seq<seq<Point>>, totalInserted: nat)
    requires batchSize > 0
    ensures BatchesUpserted(documents, batchSize, embed, upserts)
    ensures totalInserted == |documents|
  {
    var batches := Batching.Batches(documents, batchSize);
    Batching.BatchesCount(documents, batchSize);
    upserts := [];
    totalInserted := 0;
    var i := 0;
    var k := 0;
    while i < |documents|
      invariant i == k * batchSize && k <= |batches| && |upserts| == k
      invariant k < |batches| <==> i < |documents|
      invariant totalInserted == (if k < |batches| then i else |documents|)
      invariant Numbered(upserts, batches, batchSize, embed)
      invariant Batching.Flatten(upserts) == PointsOf(documents[..totalInserted], 0, embed)
    {
      Batching.BatchAt(documents, batchSize, k);
      var end := if i + batchSize <= |documents| then i + batchSize else |documents|;
      var batch := documents[i..end];
      assert batch == batches[k];
      var points := BatchPoints(batch, i, embed);
      UpsertStep(documents, upserts, i, end, points, embed);
      BatchIndexBound(documents, batchSize, k + 1);
      NumberedNext(upserts, batches, batchSize, embed, points);
      upserts := upserts + [points];
      totalInserted := totalInserted + |points|;
      i := i + batchSize;
      k := k + 1;
    }
    assert documents[..totalInserted] == documents;
  }

  /** Batch k of `size` exists exactly when k * size is within the documents. */
  lemma BatchIndexBound(documents: seq<string>, size: nat, k: nat)
    requires size > 0
    ensures k < |Batching.Batches(documents, size)| <==> k * size < |documents|
    ensures k * size + size == (k + 1) * size
  {
    var b := |Batching.Batches(documents, size)|;
    Batching.BatchesCount(documents, size);
    if k < b {
      Batching.MulMonotone(k, b - 1, size);
    } else {
      Batching.MulMonotone(b, k, size);
    }
    Batching.MulSucc(k, size);
  }

  /** Upserting the next batch's points extends the upserted points to the next position. */
  lemma UpsertStep(documents: seq<string>, upserts: seq<seq<Point>>, i: nat, end: nat, points: seq<Point>, embed: string -> Vector)
    requires i <= end <= |documents|
    requires Batching.Flatten(upserts) == PointsOf(documents[..i], 0, embed)
    requires points == PointsOf(documents[i..end], i, embed)
    ensures Batching.Flatten(upserts + [points]) == PointsOf(documents[..end], 0, embed)
  {
    Batching.FlattenSnoc(upserts, points);
    var done, batch := documents[..i], documents[i..end];
    assert documents[..end] == done + batch;
    PointsOfAppend(done, batch, 0, embed);
  }

  /** A search hit: the stored payload and the similarity score. */
  datatype Hit = Hit(payload: Entries, score: real)

  /** The record of a hit: `{"text": payload.get("text"), "score": score}`. */
  function DocOf(hit: Hit): (d: Entries)
    ensures Dicts.Keys(d) == ["text", "score"]
    ensures Dicts.Lookup(d, "text") == Some(Dicts.GetOr(hit.payload, "text", NoneV))
    ensures Dicts.Lookup(d, "score") == Some(Float(hit.score))
  {
    [("text", Dicts.GetOr(hit.payload, "text", NoneV)), ("score", Float(hit.score))]
  }

  /** The default `top_k` of `get_relevant_docs`, also the traced configuration's. */
  const DefaultTopK := 3

  /**
   * `get_relevant_docs`: embed the query, search the top `top_k`, and keep one record per hit,
   * in hit order.
   */
  method GetRelevantDocs(query: string, topK: int, embed: string -> Vector, search: (Vector, int) -> seq<Hit>)
    returns (docs: seq<Value>)
    ensures var hits := search(embed(query), topK);
      |docs| == |hits| && forall k :: 0 <= k < |hits| ==> docs[k] == Dict(DocOf(hits[k]))
  {
    var qVector := embed(query);
    var searchResults := search(qVector, topK);
    docs := [];
    var i := 0;
    while i < |searchResults|
      invariant 0 <= i <= |searchResults| && |docs| == i
      invariant forall k :: 0 <= k < i ==> docs[k] == Dict(DocOf(searchResults[k]))
    {
      var point := searchResults[i];
      docs := docs + [Dict([("text", Dicts.GetOr(point.payload, "text", NoneV)), ("score", Float(point.score))])];
      i := i + 1;
    }
  }

  /** A hit on a point inserted by this script carries the inserted document as its text. */
  lemma HitOnInsertedPoint(docs: seq<string>, offset: nat, embed: string -> Vector, k: nat, score: real)
    requires k < |docs|
    ensures Dicts.Lookup(DocOf(Hit(PointsOf(docs, offset, embed)[k].payload, score)), "text") == Some(Str(docs[k]))
  {
    PointsOfAt(docs, offset, embed, k);
  }
}
