/**
 * load_events_from_eval.py: read an evaluation run's event ids and fetch the events a hundred
 * ids at a time, skipping batches whose request failed. The two REST calls are inputs.
 */
module LoadEvents {
  import opened Wrappers
  import Dicts
  import opened PyValue
  import Batching

  /** The outcome of a GET request: an HTTP error status, another failure, or the decoded body. */
  datatype Reply = HttpError | OtherError | Body(json: Value)

  /**
   * `get_evaluation_from_run_id`: the body's "evaluation". Every failure gives None: an HTTP
   * error falls off the end of the function, and a missing key is caught with the rest.
   */
  function EvaluationFromRunId(reply: Reply): (r: Value)
    ensures r != NoneV ==> reply.Body? && reply.json.Dict? && Dicts.Lookup(reply.json.entries, "evaluation") == Some(r)
    ensures reply.Body? && reply.json.Dict? && Dicts.HasKey(reply.json.entries, "evaluation") ==>
      Some(r) == Dicts.Lookup(reply.json.entries, "evaluation")
  {
    match reply
    case HttpError => NoneV
    case OtherError => NoneV
    case Body(json) =>
      match GetItem(json, "evaluation")
      case Ok(evaluation) => evaluation
      case Err(_) => NoneV
  }

  /** The outcome of the events request: a failure, or the decoded list of events. */
  datatype EventsReply = EventsHttpError | EventsOtherError | Events(events: seq<Value>)

  /** `get_events_from_event_ids`: the decoded events, or None when the request failed. */
  function EventsFromEventIds(reply: EventsReply): (r: Option<seq<Value>>)
    ensures r.Some? <==> reply.Events?
    ensures r.Some? ==> r.value == reply.events
  {
    if reply.Events? then Some(reply.events) else None
  }

  const BatchSize := 100

  /** The events a batch contributes: none when its request failed. */
  function Contribution(reply: EventsReply): seq<Value> {
    EventsFromEventIds(reply).GetOr([])
  }

  /** The events list after the batches, each batch's events extended in batch order. */
  function Collected(batches: seq<seq<Value>>, request: seq<Value> -> EventsReply): seq<Value>
    decreases |batches|
  {
    if batches == [] then []
    else Collected(batches[..|batches| - 1], request) + Contribution(request(batches[|batches| - 1]))
  }

  /** What each batch contributes, in batch order. */
  function Contributions(batches: seq<seq<Value>>, request: seq<Value> -> EventsReply): (cs: seq<seq<Value>>)
    ensures |cs| == |batches|
    ensures forall k :: 0 <= k < |batches| ==> cs[k] == Contribution(request(batches[k]))
  {
    seq(|batches|, k requires 0 <= k < |batches| => Contribution(request(batches[k])))
  }

  /** The collected events are the batches' contributions concatenated, in batch order. */
  lemma {:induction false} CollectedSpec(batches: seq<seq<Value>>, request: seq<Value> -> EventsReply)
    ensures Collected(batches, request) == Batching.Flatten(Contributions(batches, request))
    decreases |batches|
  {
    if batches != [] {
      var n := |batches| - 1;
      var init := batches[..n];
      CollectedSpec(init, request);
      var last := Contribution(request(batches[n]));
      assert Contributions(batches, request) == Contributions(init, request) + [last];
      Batching.FlattenAppend(Contributions(init, request), [last]);
      assert Batching.Flatten([last]) == last + Batching.Flatten<Value>([]);
    }
  }

  /** Failed requests are skipped: when every request fails, no event is collected. */
  lemma {:induction false} AllFailedNothingCollected(batches: seq<seq<Value>>, request: seq<Value> -> EventsReply)
    requires forall k :: 0 <= k < |batches| ==> !request(batches[k]).Events?
    ensures Collected(batches, request) == []
    decreases |batches|
  {
    if batches != [] {
      var init := batches[..|batches| - 1];
      assert forall k :: 0 <= k < |init| ==> init[k] == batches[k];
      AllFailedNothingCollected(init, request);
    }
  }

  /**
   * The batches are consecutive and in order: a service that answers every batch with its own
   * ids gives back exactly the id list.
   */
  lemma EchoCollectsIds(ids: seq<Value>, request: seq<Value> -> EventsReply)
    requires forall b :: request(b) == Events(b)
    ensures Collected(Batching.Batches(ids, BatchSize), request) == ids
  {
    var batches := Batching.Batches(ids, BatchSize);
    CollectedSpec(batches, request);
    assert Contributions(batches, request) == batches;
    Batching.FlattenBatches(ids, BatchSize);
  }

  /** The printed batch total `(len - 1) // 100 + 1` is the number of batches of a non-empty list. */
  lemma BatchTotal(ids: seq<Value>)
    requires |ids| > 0
    ensures (|ids| - 1) / BatchSize + 1 == |Batching.Batches(ids, BatchSize)|
  {
    var b := |Batching.Batches(ids, BatchSize)|;
    Batching.BatchesCount(ids, BatchSize);
    assert (b - 1) * BatchSize <= |ids| - 1 < b * BatchSize;
  }

  /**
   * The main block: read `event_ids` off the evaluation (raising when there is none) and, when
   * it is a list, collect the events of its batches of a hundred.
   */
  method LoadEvents(run: Reply, request: seq<Value> -> EventsReply) returns (r: Result<seq<Value>>)
    ensures GetItem(EvaluationFromRunId(run), "event_ids").Err? ==>
      r == Err(GetItem(EvaluationFromRunId(run), "event_ids").error)
    ensures GetItem(EvaluationFromRunId(run), "event_ids").Ok? ==>
      var ids := GetItem(EvaluationFromRunId(run), "event_ids").value;
      r == Ok(if ids.List? then Collected(Batching.Batches(ids.items, BatchSize), request) else [])
  {
    var evaluation := EvaluationFromRunId(run);
    var found := GetItem(evaluation, "event_ids");
    if found.Err? {
      return Err(found.error);
    }
    var events := [];
    if found.value.List? {
      var eventIds := found.value.items;
      var batches := Batching.Batches(eventIds, BatchSize);
      Batching.BatchesCount(eventIds, BatchSize);
      var i := 0;
      var k := 0;
      while i < |eventIds|
        invariant i == k * BatchSize && k <= |batches|
        invariant k < |batches| <==> i < |eventIds|
        invariant events == Collected(batches[..k], request)
      {
        Batching.BatchAt(eventIds, BatchSize, k);
        var end := if i + BatchSize <= |eventIds| then i + BatchSize else |eventIds|;
        var batchEventIds := eventIds[i..end];
        assert batchEventIds == batches[k];
        assert batches[..k + 1][..k] == batches[..k];
        var batchEvents := EventsFromEventIds(request(batchEventIds));
        if batchEvents.Some? {
          events := events + batchEvents.value;
        }
        i := i + BatchSize;
        k := k + 1;
      }
      assert batches[..k] == batches;
    }
    return Ok(events);
  }

  /** Without an evaluation (any failed run request) reading its event ids raises TypeError. */
  lemma NoEvaluationRaises(run: Reply)
    requires !run.Body?
    ensures GetItem(EvaluationFromRunId(run), "event_ids").Err?
    ensures GetItem(EvaluationFromRunId(run), "event_ids").error.TypeError?
  {
  }
}
