/**
 * dataset_cleanup.py: keep the datapoints of a dataset whose inputs and ground truth each have
 * exactly one key. The dataset is found and fetched with the functions of
 * datasets/export_dataset.py; the final update call is an input.
 */
module DatasetCleanup {
  import opened Wrappers
  import Dicts
  import opened PyValue
  import Batching
  import ExportDataset

  /** A dictionary with exactly one key. */
  predicate OneKey(v: Value) {
    v.Dict? && |Dicts.Keys(v.entries)| == 1
  }

  /** `len(d.keys())`, raising for a value without `.keys()`. */
  function KeyCount(v: Value): (r: Result<nat>)
    ensures r.Ok? <==> v.Dict?
  {
    if v.Dict? then Ok(|Dicts.Keys(v.entries)|) else Err(AttributeError("object has no attribute 'keys'"))
  }

  /**
   * `validate_datapoint`: inputs and ground truth each have exactly one key. The `and`
   * short-circuits, so the ground truth's keys are not asked for when the inputs' count is wrong.
   */
  function ValidateDatapoint(datapoint: Value): (r: Result<bool>)
    ensures !datapoint.Dict? ==> r.Err? && r.error.TypeError?
    ensures datapoint.Dict? && !Dicts.HasKey(datapoint.entries, "inputs") ==> r == Err(KeyError("inputs"))
    ensures datapoint.Dict? && Dicts.HasKey(datapoint.entries, "inputs") && !Dicts.HasKey(datapoint.entries, "ground_truth") ==>
      r == Err(KeyError("ground_truth"))
    ensures r == Ok(true) <==>
      datapoint.Dict? &&
      Dicts.Lookup(datapoint.entries, "inputs").Some? && OneKey(Dicts.Lookup(datapoint.entries, "inputs").value) &&
      Dicts.Lookup(datapoint.entries, "ground_truth").Some? && OneKey(Dicts.Lookup(datapoint.entries, "ground_truth").value)
  {
    var inputs :- GetItem(datapoint, "inputs");
    var outputs :- GetItem(datapoint, "ground_truth");
    var n :- KeyCount(inputs);
    if n != 1 then Ok(false)
    else
      var m :- KeyCount(outputs);
      Ok(m == 1)
  }

  /**
   * With both keys present: inputs without `.keys()` raise AttributeError; inputs with other
   * than one key make the datapoint invalid without the ground truth being looked at; with one
   * input key, the ground truth decides, raising AttributeError when it has no `.keys()`.
   */
  lemma ValidateShortCircuit(datapoint: Value)
    requires datapoint.Dict?
    requires Dicts.Lookup(datapoint.entries, "inputs").Some? && Dicts.Lookup(datapoint.entries, "ground_truth").Some?
    ensures var r := ValidateDatapoint(datapoint);
      var inputs := Dicts.Lookup(datapoint.entries, "inputs").value;
      var outputs := Dicts.Lookup(datapoint.entries, "ground_truth").value;
      (!inputs.Dict? ==> r.Err? && r.error.AttributeError?) &&
      (inputs.Dict? && !OneKey(inputs) ==> r == Ok(false)) &&
      (OneKey(inputs) && !outputs.Dict? ==> r.Err? && r.error.AttributeError?) &&
      (OneKey(inputs) && outputs.Dict? ==> r == Ok(OneKey(outputs)))
  {
  }

  /** Inputs with two keys make the datapoint invalid whatever its ground truth is. */
  lemma ShortCircuit(a: Value, b: Value, outputs: Value)
    ensures ValidateDatapoint(Dict([("inputs", Dict([("a", a), ("b", b)])), ("ground_truth", outputs)])) == Ok(false)
  {
    var inputs := Dict([("a", a), ("b", b)]);
    var d := [("inputs", inputs), ("ground_truth", outputs)];
    assert Dicts.Keys(inputs.entries) == ["a", "b"];
    assert Dicts.Lookup(d, "inputs") == Some(inputs);
    assert d[1..][0].0 == "ground_truth";
    assert Dicts.Lookup(d, "ground_truth") == Some(outputs);
  }

  /** The valid datapoints in their order; the first datapoint that raises stops the filter. */
  function Kept(datapoints: seq<Value>): Result<seq<Value>>
    decreases |datapoints|
  {
    if datapoints == [] then Ok([])
    else
      var kept :- Kept(datapoints[..|datapoints| - 1]);
      var last := datapoints[|datapoints| - 1];
      var valid :- ValidateDatapoint(last);
      Ok(if valid then kept + [last] else kept)
  }

  /** The filter succeeds when every datapoint validates, and keeps exactly the valid ones. */
  lemma {:induction false} KeptSpec(datapoints: seq<Value>)
    ensures Kept(datapoints).Ok? <==> forall i :: 0 <= i < |datapoints| ==> ValidateDatapoint(datapoints[i]).Ok?
    ensures Kept(datapoints).Ok? ==>
      var kept := Kept(datapoints).value;
      |kept| <= |datapoints| &&
      forall x :: x in kept <==> x in datapoints && ValidateDatapoint(x) == Ok(true)
    decreases |datapoints|
  {
    if datapoints != [] {
      var n := |datapoints| - 1;
      var init := datapoints[..n];
      var last := datapoints[n];
      KeptSpec(init);
      assert forall i :: 0 <= i < |init| ==> init[i] == datapoints[i];
      assert datapoints == init + [last];
      if Kept(datapoints).Ok? {
        var kept := Kept(init).value;
        var valid := ValidateDatapoint(last).value;
        assert Kept(datapoints).value == if valid then kept + [last] else kept;
        forall x
          ensures x in Kept(datapoints).value <==> x in datapoints && ValidateDatapoint(x) == Ok(true)
        {
          assert x in datapoints <==> x in init || x == last;
        }
      }
    }
  }

  /** The loop of the main block appending the valid datapoints to `final_datapoints`. */
  method FilterValid(datapoints: seq<Value>) returns (r: Result<seq<Value>>)
    ensures r == Kept(datapoints)
  {
    var finalDatapoints := [];
    var i := 0;
    while i < |datapoints|
      invariant 0 <= i <= |datapoints|
      invariant Kept(datapoints[..i]) == Ok(finalDatapoints)
    {
      assert datapoints[..i + 1][..i] == datapoints[..i];
      assert datapoints[..i + 1][i] == datapoints[i];
      var valid := ValidateDatapoint(datapoints[i]);
      if valid.Err? {
        KeptFailurePropagates(datapoints, i);
        return Err(valid.error);
      }
      if valid.value {
        finalDatapoints := finalDatapoints + [datapoints[i]];
      }
      i := i + 1;
    }
    assert datapoints[..i] == datapoints;
    return Ok(finalDatapoints);
  }

  /** Once a datapoint raises, the whole filter raises the same error. */
  lemma {:induction false} KeptFailurePropagates(datapoints: seq<Value>, i: nat)
    requires i < |datapoints| && Kept(datapoints[..i]).Ok? && ValidateDatapoint(datapoints[i]).Err?
    ensures Kept(datapoints) == Err(ValidateDatapoint(datapoints[i]).error)
  {
    assert datapoints[..i + 1][..i] == datapoints[..i];
    assert datapoints[..i + 1][i] == datapoints[i];
    KeptPrefixFailure(datapoints, i + 1);
  }

  lemma {:induction false} KeptPrefixFailure(datapoints: seq<Value>, n: nat)
    requires 0 < n <= |datapoints| && Kept(datapoints[..n]).Err?
    ensures Kept(datapoints) == Kept(datapoints[..n])
    decreases |datapoints| - n
  {
    if n < |datapoints| {
      assert datapoints[..n + 1][..n] == datapoints[..n];
      KeptPrefixFailure(datapoints, n + 1);
    } else {
      assert datapoints[..n] == datapoints;
    }
  }

  /** What the main block sends to `update_datapoints`: the kept datapoints and the dataset id. */
  datatype CleanupUpdate = CleanupUpdate(datapoints: seq<Value>, datasetId: Value)

  const NoneNotIterable := "'NoneType' object is not iterable"

  const ArityError := "get_datapoints_from_ids() takes 1 positional argument but 2 were given"

  /**
   * The main block as written: `get_datapoints_from_ids(project_id, dataset['datapoints'])`
   * passes two arguments to a one-parameter function.
   */
  function CleanupAsWritten(name: string, reply: ExportDataset.ListReply): Result<Option<CleanupUpdate>> {
    var dataset :- ExportDataset.DatasetFromName(name, reply);
    if dataset.None? || !Truthy(dataset.value) then Ok(None)
    else
      var _ :- GetItem(dataset.value, "datapoints");
      Err(TypeError(ArityError))
  }

  /** As written, the cleanup never reaches the filter: a found dataset always raises. */
  lemma AsWrittenRaisesWhenFound(name: string, reply: ExportDataset.ListReply)
    requires ExportDataset.DatasetFromName(name, reply).Ok?
    requires ExportDataset.DatasetFromName(name, reply).value.Some?
    requires Truthy(ExportDataset.DatasetFromName(name, reply).value.value)
    ensures CleanupAsWritten(name, reply).Err?
    ensures GetItem(ExportDataset.DatasetFromName(name, reply).value.value, "datapoints").Ok? ==>
      CleanupAsWritten(name, reply) == Err(TypeError(ArityError))
  {
  }

  /**
   * The main block with the intended one-argument call: fetch the datapoints, keep the valid
   * ones, and update the dataset with them. A failed fetch leaves None, which the loop cannot
   * iterate.
   */
  method CleanupDataset(name: string, reply: ExportDataset.ListReply, fetch: seq<Value> -> Option<seq<Value>>)
    returns (r: Result<Option<CleanupUpdate>>)
    ensures ExportDataset.DatasetFromName(name, reply).Err? ==> r == Err(ExportDataset.DatasetFromName(name, reply).error)
    ensures ExportDataset.DatasetFromName(name, reply) == Ok(None) ==> r == Ok(None)
    ensures r.Ok? && r.value.Some? ==>
      var dataset := ExportDataset.DatasetFromName(name, reply).value.value;
      GetItem(dataset, "datapoints").Ok? && GetItem(dataset, "datapoints").value.List? &&
      var fetched := ExportDataset.FetchedBatches(Batching.Batches(GetItem(dataset, "datapoints").value.items, ExportDataset.BatchSize), fetch);
      fetched.Some? && Kept(fetched.value) == Ok(r.value.value.datapoints) &&
      GetItem(dataset, "_id") == Ok(r.value.value.datasetId)
    ensures var found := ExportDataset.DatasetFromName(name, reply);
      found.Ok? && found.value.Some? ==>
      var dataset := found.value.value;
      var ids := GetItem(dataset, "datapoints");
      (!Truthy(dataset) ==> r == Ok(None)) &&
      (Truthy(dataset) && ids.Err? ==> r == Err(ids.error)) &&
      (Truthy(dataset) && ids.Ok? && !ids.value.List? ==> r.Err? && r.error.TypeError?) &&
      (Truthy(dataset) && ids.Ok? && ids.value.List? ==>
        var fetched := ExportDataset.FetchedBatches(Batching.Batches(ids.value.items, ExportDataset.BatchSize), fetch);
        (fetched.None? ==> r == Err(TypeError(NoneNotIterable))) &&
        (fetched.Some? && Kept(fetched.value).Err? ==> r == Err(Kept(fetched.value).error)) &&
        (fetched.Some? && Kept(fetched.value).Ok? ==>
          var datasetId := GetItem(dataset, "_id");
          (datasetId.Err? ==> r == Err(datasetId.error)) &&
          (datasetId.Ok? ==> r == Ok(Some(CleanupUpdate(Kept(fetched.value).value, datasetId.value))))))
  {
    var found := ExportDataset.GetDatasetFromName(name, reply);
    if found.Err? {
      return Err(found.error);
    }
    if found.value.None? || !Truthy(found.value.value) {
      return Ok(None);
    }
    var dataset := found.value.value;
    var ids := GetItem(dataset, "datapoints");
    if ids.Err? {
      return Err(ids.error);
    }
    if !ids.value.List? {
      return Err(TypeError("the id list is not a list"));
    }
    var datapoints := ExportDataset.GetDatapointsFromIds(ids.value.items, fetch);
    if datapoints.None? {
      return Err(TypeError(NoneNotIterable));
    }
    var kept := FilterValid(datapoints.value);
    if kept.Err? {
      return Err(kept.error);
    }
    var datasetId := GetItem(dataset, "_id");
    if datasetId.Err? {
      return Err(datasetId.error);
    }
    return Ok(Some(CleanupUpdate(kept.value, datasetId.value)));
  }
}
