/**
 * datasets/export_dataset.py: finding a dataset by name, fetching its datapoints in batches of
 * ten ids, and putting the fetched records in place of the id list. The REST calls are inputs.
 */
module ExportDataset {
  import opened Wrappers
  import Dicts
  import opened PyValue
  import Batching

  /** The reply to the dataset listing: an HTTP error status, another failure, or the body. */
  datatype ListReply = HttpError | OtherError | Body(json: Value)

  /** `for x in v`: a list's items, a dict's keys, a string's characters. */
  function Iterated(v: Value): (r: Result<seq<Value>>)
    ensures v.List? ==> r == Ok(v.items)
    ensures r.Err? <==> !(v.List? || v.Dict? || v.Str?)
  {
    match v
    case List(xs) => Ok(xs)
    case Dict(es) => Ok(KeyValues(Dicts.Keys(es)))
    case Str(s) => Ok(CharValues(s))
    case _ => Err(TypeError("object is not iterable"))
  }

  function KeyValues(ks: seq<string>): (vs: seq<Value>)
    ensures |vs| == |ks| && forall i :: 0 <= i < |ks| ==> vs[i] == Str(ks[i])
  {
    if ks == [] then [] else [Str(ks[0])] + KeyValues(ks[1..])
  }

  function CharValues(s: string): (vs: seq<Value>)
    ensures |vs| == |s| && forall i :: 0 <= i < |s| ==> vs[i] == Str([s[i]])
  {
    if s == [] then [] else [Str([s[0]])] + CharValues(s[1..])
  }

  /**
   * The search loop from `from` on: the index of the first dataset named `name`; a dataset
   * without a "name" met before it raises.
   */
  function FirstNamed(datasets: seq<Value>, name: string, from: nat): (r: Result<Option<nat>>)
    requires from <= |datasets|
    ensures r.Ok? && r.value.Some? ==>
      from <= r.value.value < |datasets| && GetItem(datasets[r.value.value], "name") == Ok(Str(name))
    ensures r.Ok? ==> forall j :: from <= j < |datasets| && (r.value.None? || j < r.value.value) ==>
      GetItem(datasets[j], "name").Ok? && GetItem(datasets[j], "name") != Ok(Str(name))
    decreases |datasets| - from
  {
    if from == |datasets| then Ok(None)
    else
      var n :- GetItem(datasets[from], "name");
      if n == Str(name) then Ok(Some(from)) else FirstNamed(datasets, name, from + 1)
  }

  /** The datasets of a listing reply, before the search: None when the fetch returns None. */
  function Listed(reply: ListReply): Result<Option<seq<Value>>> {
    match reply
    // the listing is never bound, so the loop after the `try` reads an unbound local
    case HttpError => Err(NameError("datasets"))
    case OtherError => Ok(None)
    case Body(json) =>
      // `.get` on anything but a dict raises AttributeError, which the `try` catches
      if !json.Dict? then Ok(None)
      else
        var datasets := Dicts.GetOr(json.entries, "testcases", List([]));
        if !Truthy(datasets) then Ok(None)
        else
          var xs :- Iterated(datasets);
          Ok(Some(xs))
  }

  /** `get_dataset_from_name`: the first dataset called `name`, or None. */
  function DatasetFromName(name: string, reply: ListReply): (r: Result<Option<Value>>)
    ensures reply.HttpError? ==> r == Err(NameError("datasets"))
    ensures reply.OtherError? ==> r == Ok(None)
    ensures reply.Body? && reply.json == Dict([]) ==> r == Ok(None)
    ensures reply.Body? && reply.json == Dict([("testcases", List([]))]) ==> r == Ok(None)
  {
    var listed :- Listed(reply);
    match listed
    case None => Ok(None)
    case Some(datasets) =>
      var found :- FirstNamed(datasets, name, 0);
      match found
      case None => Ok(None)
      case Some(i) => Ok(Some(datasets[i]))
  }

  /** The linear search of `get_dataset_from_name`. */
  method GetDatasetFromName(name: string, reply: ListReply) returns (r: Result<Option<Value>>)
    ensures r == DatasetFromName(name, reply)
  {
    var listed := Listed(reply);
    if listed.Err? {
      return Err(listed.error);
    }
    if listed.value.None? {
      return Ok(None);
    }
    var datasets := listed.value.value;
    var i := 0;
    while i < |datasets|
      invariant 0 <= i <= |datasets|
      invariant FirstNamed(datasets, name, 0) == FirstNamed(datasets, name, i)
    {
      var n := GetItem(datasets[i], "name");
      if n.Err? {
        return Err(n.error);
      }
      if n.value == Str(name) {
        return Ok(Some(datasets[i]));
      }
      i := i + 1;
    }
    return Ok(None);
  }

  /** A listing whose first dataset has the name gives that dataset. */
  lemma FirstMatchWins(name: string, first: Entries, rest: seq<Value>)
    requires Dicts.Lookup(first, "name") == Some(Str(name))
    ensures DatasetFromName(name, Body(Dict([("testcases", List([Dict(first)] + rest))]))) == Ok(Some(Dict(first)))
  {
  }

  const BatchSize := 10

  /** The batches' replies concatenated in order; None as soon as one batch fails. */
  function FetchedBatches(batches: seq<seq<Value>>, fetch: seq<Value> -> Option<seq<Value>>): Option<seq<Value>>
    decreases |batches|
  {
    if batches == [] then Some([])
    else
      match FetchedBatches(batches[..|batches| - 1], fetch)
      case None => None
      case Some(records) =>
        match fetch(batches[|batches| - 1])
        case None => None
        case Some(batch) => Some(records + batch)
  }

  /** What each batch's fetch returned, in batch order (a failed batch as no records). */
  function Replies(batches: seq<seq<Value>>, fetch: seq<Value> -> Option<seq<Value>>): (rs: seq<seq<Value>>)
    ensures |rs| == |batches|
    decreases |batches|
  {
    if batches == [] then []
    else Replies(batches[..|batches| - 1], fetch) + [fetch(batches[|batches| - 1]).GetOr([])]
  }

  /** All or nothing: the records of every batch, in batch order, exactly when no batch fails. */
  lemma {:induction false} FetchedBatchesSpec(batches: seq<seq<Value>>, fetch: seq<Value> -> Option<seq<Value>>)
    ensures FetchedBatches(batches, fetch).Some? <==> forall k :: 0 <= k < |batches| ==> fetch(batches[k]).Some?
    ensures FetchedBatches(batches, fetch).Some? ==>
      FetchedBatches(batches, fetch).value == Batching.Flatten(Replies(batches, fetch))
    decreases |batches|
  {
    if batches != [] {
      var n := |batches| - 1;
      var init := batches[..n];
      FetchedBatchesSpec(init, fetch);
      assert forall k :: 0 <= k < n ==> init[k] == batches[k];
      var last := fetch(batches[n]).GetOr([]);
      Batching.FlattenAppend(Replies(init, fetch), [last]);
      assert Batching.Flatten([last]) == last + Batching.Flatten<Value>([]);
    }
  }

  /** `get_datapoints_from_ids`: the records of the ids, fetched ten ids at a time. */
  method GetDatapointsFromIds(ids: seq<Value>, fetch: seq<Value> -> Option<seq<Value>>) returns (r: Option<seq<Value>>)
    ensures r == FetchedBatches(Batching.Batches(ids, BatchSize), fetch)
  {
    var batches := Batching.Batches(ids, BatchSize);
    Batching.BatchesCount(ids, BatchSize);
    var datapoints := [];
    var i := 0;
    var k := 0;
    while i < |ids|
      invariant i == k * BatchSize && k <= |batches|
      invariant k < |batches| <==> i < |ids|
      invariant FetchedBatches(batches[..k], fetch) == Some(datapoints)
    {
      Batching.BatchAt(ids, BatchSize, k);
      var end := if i + BatchSize <= |ids| then i + BatchSize else |ids|;
      var batch := ids[i..end];
      assert batch == batches[k];
      assert batches[..k + 1][..k] == batches[..k];
      assert batches[..k + 1][k] == batches[k];
      var reply := fetch(batch);
      if reply.None? {
        FetchFailurePropagates(batches, k, fetch);
        return None;
      }
      datapoints := datapoints + reply.value;
      i := i + BatchSize;
      k := k + 1;
    }
    assert batches[..k] == batches;
    return Some(datapoints);
  }

  /** Once a batch fails, the whole fetch is None. */
  lemma {:induction false} FetchFailurePropagates(batches: seq<seq<Value>>, k: nat, fetch: seq<Value> -> Option<seq<Value>>)
    requires k < |batches| && fetch(batches[k]).None?
    ensures FetchedBatches(batches, fetch).None?
  {
    FetchedBatchesSpec(batches, fetch);
  }

  /**
   * `export_dataset`: None when the dataset is not found; otherwise the dataset with its id
   * list replaced by the fetched records (None when a batch failed).
   */
  function ExportDataset(name: string, reply: ListReply, fetch: seq<Value> -> Option<seq<Value>>): (r: Result<Option<Value>>)
    ensures DatasetFromName(name, reply) == Ok(None) ==> r == Ok(None)
    ensures r.Ok? && r.value.Some? ==> DatasetFromName(name, reply).Ok? && DatasetFromName(name, reply).value.Some?
    ensures r.Ok? && r.value.Some? ==>
      var dataset := DatasetFromName(name, reply).value.value;
      dataset.Dict? && r.value.value.Dict? &&
      Dicts.Lookup(dataset.entries, "datapoints").Some? &&
      Dicts.Lookup(dataset.entries, "datapoints").value.List? &&
      var fetched := FetchedBatches(Batching.Batches(Dicts.Lookup(dataset.entries, "datapoints").value.items, BatchSize), fetch);
      Dicts.Lookup(r.value.value.entries, "datapoints") == Some(if fetched.Some? then List(fetched.value) else NoneV) &&
      forall k :: k != "datapoints" ==> Dicts.Lookup(r.value.value.entries, k) == Dicts.Lookup(dataset.entries, k)
    ensures DatasetFromName(name, reply).Err? ==> r == Err(DatasetFromName(name, reply).error)
    ensures DatasetFromName(name, reply).Ok? && DatasetFromName(name, reply).value.Some? ==>
      var ids := GetItem(DatasetFromName(name, reply).value.value, "datapoints");
      (ids.Err? ==> r == Err(ids.error)) &&
      (ids.Ok? && !ids.value.List? ==> r.Err? && r.error.TypeError?) &&
      (ids.Ok? && ids.value.List? ==> r.Ok? && r.value.Some?)
  {
    var found :- DatasetFromName(name, reply);
    match found
    case None => Ok(None)
    case Some(dataset) =>
      var ids :- GetItem(dataset, "datapoints");
      if !ids.List? then Err(TypeError("the id list is not a list"))
      else
        var fetched := FetchedBatches(Batching.Batches(ids.items, BatchSize), fetch);
        var stored := if fetched.Some? then List(fetched.value) else NoneV;
        Ok(Some(Dict(Dicts.Put(dataset.entries, "datapoints", stored))))
  }
}
