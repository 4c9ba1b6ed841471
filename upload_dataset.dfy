/**
 * datasets/upload_dataset.py: reading a file into records (JSON, JSONL or CSV by extension),
 * turning each record into a datapoint whose fields are split into inputs, ground truth and
 * metadata, and uploading the datapoints one by one. File reading, JSON decoding and the REST
 * calls are inputs.
 */
module UploadDataset {
  import opened Wrappers
  import Text
  import Dicts
  import opened PyValue
  import ExportDataset

  // ---------------------------------------------------------------- reading the file

  /** `json.loads(line)` for every line, in order; None as soon as one line does not decode. */
  function ParsedLines(lines: seq<string>, parse: string -> Option<Value>): Option<seq<Value>>
    decreases |lines|
  {
    if lines == [] then Some([])
    else
      match ParsedLines(lines[..|lines| - 1], parse)
      case None => None
      case Some(records) =>
        match parse(lines[|lines| - 1])
        case None => None
        case Some(v) => Some(records + [v])
  }

  /** All or nothing: one record per line, in order, exactly when every line decodes. */
  lemma {:induction false} ParsedLinesSpec(lines: seq<string>, parse: string -> Option<Value>)
    ensures ParsedLines(lines, parse).Some? <==> forall i :: 0 <= i < |lines| ==> parse(lines[i]).Some?
    ensures ParsedLines(lines, parse).Some? ==>
      var records := ParsedLines(lines, parse).value;
      |records| == |lines| && forall i :: 0 <= i < |lines| ==> Some(records[i]) == parse(lines[i])
    decreases |lines|
  {
    if lines != [] {
      var init := lines[..|lines| - 1];
      ParsedLinesSpec(init, parse);
      assert forall i :: 0 <= i < |init| ==> init[i] == lines[i];
    }
  }

  /** `try_jsonl`: the decoded lines of `content`, or None when a line does not decode. */
  method TryJsonl(content: string, parse: string -> Option<Value>) returns (data: Option<seq<Value>>)
    ensures data == ParsedLines(Text.SplitLines(content), parse)
  {
    var lines := Text.SplitLines(content);
    var records := [];
    var i := 0;
    while i < |lines|
      invariant 0 <= i <= |lines|
      invariant ParsedLines(lines[..i], parse) == Some(records)
    {
      assert lines[..i + 1][..i] == lines[..i];
      var v := parse(lines[i]);
      if v.None? {
        assert ParsedLines(lines[..i + 1], parse).None?;
        ParsedLinesSpec(lines[..i + 1], parse);
        ParsedLinesSpec(lines, parse);
        assert lines[..i + 1][i] == lines[i];
        return None;
      }
      records := records + [v.value];
      i := i + 1;
    }
    assert lines[..i] == lines;
    return Some(records);
  }

  /** How `convert_file_to_JSON` reads a file by its name, or None for other names. */
  datatype FileKind = Json | Jsonl | Csv

  function KindOf(filepath: string): (k: Option<FileKind>)
    ensures k == Some(Json) <==> Text.EndsWith(filepath, ".json")
    ensures k == Some(Jsonl) <==> !Text.EndsWith(filepath, ".json") && Text.EndsWith(filepath, ".jsonl")
    ensures k == Some(Csv) <==>
      !Text.EndsWith(filepath, ".json") && !Text.EndsWith(filepath, ".jsonl") && Text.EndsWith(filepath, ".csv")
  {
    if Text.EndsWith(filepath, ".json") then Some(Json)
    else if Text.EndsWith(filepath, ".jsonl") then Some(Jsonl)
    else if Text.EndsWith(filepath, ".csv") then Some(Csv)
    else None
  }

  /** The records of a JSONL text as a list value. */
  function JsonlValue(content: string, parse: string -> Option<Value>): Option<Value> {
    match ParsedLines(Text.SplitLines(content), parse)
    case None => None
    case Some(records) => Some(List(records))
  }

  /**
   * `convert_file_to_JSON`: `read` is the file's text (None when opening or reading raised),
   * `csvRows` the rows of `csv.DictReader` (None when that raised). Every failure gives None.
   */
  function ConvertFileToJson(filepath: string, read: Option<string>, parse: string -> Option<Value>,
                             csvRows: Option<seq<Entries>>): (r: Option<Value>)
    ensures read.None? ==> r.None?
    ensures KindOf(filepath).None? ==> r.None?
  {
    match read
    case None => None
    case Some(text) =>
      var content := Text.Strip(text);
      if content == "" then None
      else
        match KindOf(filepath)
        case None => None
        case Some(Json) => if parse(content).Some? then parse(content) else JsonlValue(content, parse)
        case Some(Jsonl) => JsonlValue(content, parse)
        case Some(Csv) =>
          match csvRows
          case None => None
          case Some(rows) => Some(List(RowValues(rows)))
  }

  /** Each CSV row as a dictionary value, in order. */
  function RowValues(rows: seq<Entries>): (vs: seq<Value>)
    ensures |vs| == |rows| && forall i :: 0 <= i < |rows| ==> vs[i] == Dict(rows[i])
  {
    if rows == [] then [] else [Dict(rows[0])] + RowValues(rows[1..])
  }

  /** A file that is blank after stripping gives None, whatever its name. */
  lemma BlankFile(filepath: string, text: string, parse: string -> Option<Value>, csvRows: Option<seq<Entries>>)
    requires Text.Strip(text) == ""
    ensures ConvertFileToJson(filepath, Some(text), parse, csvRows).None?
  {
  }

  /** A `.json` file that does not decode as a whole is read line by line. */
  lemma JsonFallsBackToJsonl(filepath: string, text: string, parse: string -> Option<Value>, csvRows: Option<seq<Entries>>)
    requires Text.EndsWith(filepath, ".json") && Text.Strip(text) != "" && parse(Text.Strip(text)).None?
    ensures ConvertFileToJson(filepath, Some(text), parse, csvRows) == JsonlValue(Text.Strip(text), parse)
  {
  }

  /** A `.csv` file gives one dictionary per row, in order. */
  lemma CsvRows(filepath: string, text: string, parse: string -> Option<Value>, rows: seq<Entries>)
    requires Text.EndsWith(filepath, ".csv") && Text.Strip(text) != ""
    ensures var r := ConvertFileToJson(filepath, Some(text), parse, Some(rows));
      r.Some? && r.value.List? && |r.value.items| == |rows| &&
      forall i :: 0 <= i < |rows| ==> r.value.items[i] == Dict(rows[i])
  {
    assert !Text.EndsWith(filepath, ".json") by {
      assert filepath[|filepath| - 1] == 'v';
    }
    assert !Text.EndsWith(filepath, ".jsonl") by {
      assert filepath[|filepath| - 1] == 'v';
    }
  }

  // ---------------------------------------------------------------- one datapoint

  /** `{field: datapoint[field] for field in fields}`: the first missing field raises. */
  function Projection(datapoint: Value, fields: seq<string>): (r: Result<Entries>)
    ensures r.Ok? <==> fields == [] || (datapoint.Dict? && forall i :: 0 <= i < |fields| ==> Dicts.HasKey(datapoint.entries, fields[i]))
    ensures datapoint.Dict? && r.Err? ==> r.error.KeyError? && r.error.key in fields
    ensures r.Ok? ==> forall k :: k !in fields ==> Dicts.Lookup(r.value, k) == None
    ensures r.Ok? && fields != [] ==> forall k :: k in fields ==> Dicts.Lookup(r.value, k) == Dicts.Lookup(datapoint.entries, k)
    decreases |fields|
  {
    if fields == [] then Ok([])
    else
      var init := fields[..|fields| - 1];
      var field := fields[|fields| - 1];
      assert forall i :: 0 <= i < |init| ==> init[i] == fields[i];
      assert forall k :: k in fields <==> k in init || k == field;
      var projected :- Projection(datapoint, init);
      var v :- GetItem(datapoint, field);
      Ok(Dicts.Put(projected, field, v))
  }

  /** `value.isoformat()` for a datetime, any other value as it is. */
  function Serialized(v: Value): Value {
    if v.DateTime? then Str(v.iso) else v
  }

  /** The datapoint's entries whose key is not excluded, datetimes as ISO strings. */
  function Metadata(entries: Entries, excluded: seq<string>): Entries
    decreases |entries|
  {
    if entries == [] then []
    else
      var (key, value) := entries[0];
      (if key in excluded then [] else [(key, Serialized(value))]) + Metadata(entries[1..], excluded)
  }

  /** The metadata holds exactly the keys that are not excluded, with their (serialized) values. */
  lemma {:induction false} MetadataLookup(entries: Entries, excluded: seq<string>, k: string)
    ensures Dicts.Lookup(Metadata(entries, excluded), k) ==
      if k in excluded then None
      else match Dicts.Lookup(entries, k) case None => None case Some(v) => Some(Serialized(v))
    decreases |entries|
  {
    if entries != [] {
      MetadataLookup(entries[1..], excluded, k);
      var (key, value) := entries[0];
      var rest := Metadata(entries[1..], excluded);
      if key !in excluded {
        assert ([(key, Serialized(value))] + rest)[1..] == rest;
      } else {
        assert [] + rest == rest;
      }
    }
  }

  /** The parts of a new datapoint that come from the record. */
  datatype NewDatapoint = NewDatapoint(inputs: Entries, groundTruth: Entries, metadata: Entries, datasetId: Value)

  /** The new datapoint of `upload_datapoint`, raising as the comprehensions do. */
  function DatapointOf(datapoint: Value, inputFields: seq<string>, outputFields: seq<string>, datasetId: Value): (r: Result<NewDatapoint>)
    ensures r.Ok? ==> Projection(datapoint, inputFields) == Ok(r.value.inputs)
    ensures r.Ok? ==> Projection(datapoint, outputFields) == Ok(r.value.groundTruth)
    ensures r.Ok? ==> datapoint.Dict? && r.value.metadata == Metadata(datapoint.entries, inputFields + outputFields)
    ensures Projection(datapoint, inputFields).Err? ==> r == Err(Projection(datapoint, inputFields).error)
  {
    var inputs :- Projection(datapoint, inputFields);
    var groundTruth :- Projection(datapoint, outputFields);
    if !datapoint.Dict? then Err(AttributeError("object has no attribute 'items'"))
    else Ok(NewDatapoint(inputs, groundTruth, Metadata(datapoint.entries, inputFields + outputFields), datasetId))
  }

  /**
   * The three parts partition the record: a key is in the metadata exactly when it is in
   * neither field list, and a datetime there is its ISO text.
   */
  lemma FieldPartition(datapoint: Value, inputFields: seq<string>, outputFields: seq<string>, datasetId: Value, k: string)
    requires DatapointOf(datapoint, inputFields, outputFields, datasetId).Ok?
    ensures var dp := DatapointOf(datapoint, inputFields, outputFields, datasetId).value;
      (Dicts.HasKey(dp.metadata, k) <==> Dicts.HasKey(datapoint.entries, k) && k !in inputFields && k !in outputFields) &&
      (k in inputFields ==> Dicts.Lookup(dp.inputs, k) == Dicts.Lookup(datapoint.entries, k)) &&
      (k in outputFields ==> Dicts.Lookup(dp.groundTruth, k) == Dicts.Lookup(datapoint.entries, k))
  {
    MetadataLookup(datapoint.entries, inputFields + outputFields, k);
  }

  /** A REST reply: the status code and the decoded body. */
  datatype HttpResponse = HttpResponse(status: int, body: Value)

  /** `response.json()['result']['insertedId']`. */
  function InsertedId(body: Value): Result<Value> {
    var result :- GetItem(body, "result");
    GetItem(result, "insertedId")
  }

  /**
   * `upload_datapoint`: post the datapoint; on status 200 append its id to `ids` and send the
   * whole list in the dataset update (`update`, None when nothing is sent). The caller's list,
   * appended in place, is returned as `newIds`.
   */
  method UploadDatapoint(datapoint: Value, ids: seq<Value>, inputFields: seq<string>, outputFields: seq<string>,
                         datasetId: Value, post: NewDatapoint -> HttpResponse)
    returns (r: Result<(seq<Value>, Option<seq<Value>>)>)
    ensures DatapointOf(datapoint, inputFields, outputFields, datasetId).Err? ==>
      r == Err(DatapointOf(datapoint, inputFields, outputFields, datasetId).error)
    ensures DatapointOf(datapoint, inputFields, outputFields, datasetId).Ok? ==>
      var response := post(DatapointOf(datapoint, inputFields, outputFields, datasetId).value);
      (response.status != 200 ==> r == Ok((ids, None))) &&
      (response.status == 200 ==>
        match InsertedId(response.body)
        case Err(e) => r == Err(e)
        case Ok(id) => r == Ok((ids + [id], Some(ids + [id]))))
  {
    var dp := DatapointOf(datapoint, inputFields, outputFields, datasetId);
    if dp.Err? {
      return Err(dp.error);
    }
    var response := post(dp.value);
    if response.status != 200 {
      return Ok((ids, None));
    }
    var id := InsertedId(response.body);
    if id.Err? {
      return Err(id.error);
    }
    var newIds := ids + [id.value];
    return Ok((newIds, Some(newIds)));
  }

  // ---------------------------------------------------------------- the upload

  /** `create_empty_dataset`: the inserted id on status 200, else None. */
  function CreateEmptyDataset(response: HttpResponse): (r: Result<Option<Value>>)
    ensures response.status != 200 ==> r == Ok(None)
    ensures r.Ok? && r.value.Some? ==> response.status == 200 && InsertedId(response.body) == Ok(r.value.value)
  {
    if response.status != 200 then Ok(None)
    else
      var id :- InsertedId(response.body);
      Ok(if id == NoneV then None else Some(id))
  }

  /** The ids the uploads collect, in record order; a raising record stops the upload. */
  function UploadedIds(data: seq<Value>, inputFields: seq<string>, outputFields: seq<string>,
                       datasetId: Value, post: NewDatapoint -> HttpResponse): Result<seq<Value>>
    decreases |data|
  {
    if data == [] then Ok([])
    else
      var ids :- UploadedIds(data[..|data| - 1], inputFields, outputFields, datasetId, post);
      var dp :- DatapointOf(data[|data| - 1], inputFields, outputFields, datasetId);
      var response := post(dp);
      if response.status != 200 then Ok(ids)
      else
        var id :- InsertedId(response.body);
        Ok(ids + [id])
  }

  /** The uploads collect at most one id per record. */
  lemma {:induction false} UploadedIdsBound(data: seq<Value>, inputFields: seq<string>, outputFields: seq<string>,
                                            datasetId: Value, post: NewDatapoint -> HttpResponse)
    ensures UploadedIds(data, inputFields, outputFields, datasetId, post).Ok? ==>
      |UploadedIds(data, inputFields, outputFields, datasetId, post).value| <= |data|
    decreases |data|
  {
    if data != [] {
      UploadedIdsBound(data[..|data| - 1], inputFields, outputFields, datasetId, post);
    }
  }

  /**
   * `upload_dataset_from_json`: collect the records by iterating `data` (a list gives its items,
   * a dict its keys, a string its characters, anything else raises), then create the dataset;
   * without an id stop before any datapoint, otherwise upload the records in order. `updates`
   * lists the id list of every dataset update.
   */
  method UploadDatasetFromJson(data: Value, inputFields: seq<string>, outputFields: seq<string>,
                               create: HttpResponse, post: NewDatapoint -> HttpResponse)
    returns (r: Result<Option<seq<seq<Value>>>>)
    ensures ExportDataset.Iterated(data).Err? ==> r == Err(ExportDataset.Iterated(data).error)
    ensures ExportDataset.Iterated(data).Ok? && CreateEmptyDataset(create).Err? ==> r == Err(CreateEmptyDataset(create).error)
    ensures ExportDataset.Iterated(data).Ok? && CreateEmptyDataset(create) == Ok(None) ==> r == Ok(None)
    ensures ExportDataset.Iterated(data).Ok? && CreateEmptyDataset(create).Ok? && CreateEmptyDataset(create).value.Some? ==>
      var uploaded := UploadedIds(ExportDataset.Iterated(data).value, inputFields, outputFields, CreateEmptyDataset(create).value.value, post);
      (uploaded.Err? ==> r == Err(uploaded.error)) &&
      (uploaded.Ok? ==>
         r.Ok? && r.value.Some? && |r.value.value| == |uploaded.value| &&
         forall k :: 0 <= k < |r.value.value| ==> r.value.value[k] == uploaded.value[..k + 1])
  {
    var iterated := ExportDataset.Iterated(data);
    if iterated.Err? {
      return Err(iterated.error);
    }
    r := UploadRecords(iterated.value, inputFields, outputFields, create, post);
  }

  /** The part of `upload_dataset_from_json` after the records are collected. */
  method UploadRecords(data: seq<Value>, inputFields: seq<string>, outputFields: seq<string>,
                       create: HttpResponse, post: NewDatapoint -> HttpResponse)
    returns (r: Result<Option<seq<seq<Value>>>>)
    ensures CreateEmptyDataset(create).Err? ==> r == Err(CreateEmptyDataset(create).error)
    ensures CreateEmptyDataset(create) == Ok(None) ==> r == Ok(None)
    ensures CreateEmptyDataset(create).Ok? && CreateEmptyDataset(create).value.Some? ==>
      var uploaded := UploadedIds(data, inputFields, outputFields, CreateEmptyDataset(create).value.value, post);
      (uploaded.Err? ==> r == Err(uploaded.error)) &&
      (uploaded.Ok? ==>
         r.Ok? && r.value.Some? && |r.value.value| == |uploaded.value| &&
         forall k :: 0 <= k < |r.value.value| ==> r.value.value[k] == uploaded.value[..k + 1])
  {
    var created := CreateEmptyDataset(create);
    if created.Err? {
      return Err(created.error);
    }
    if created.value.None? {
      return Ok(None);
    }
    var datasetId := created.value.value;
    var ids: seq<Value> := [];
    var updates: seq<seq<Value>> := [];
    var i := 0;
    while i < |data|
      invariant 0 <= i <= |data|
      invariant UploadedIds(data[..i], inputFields, outputFields, datasetId, post) == Ok(ids)
      invariant RunningIds(updates, ids)
    {
      var step := UploadDatapoint(data[i], ids, inputFields, outputFields, datasetId, post);
      UploadedIdsNext(data, i, inputFields, outputFields, datasetId, post, ids);
      if step.Err? {
        UploadFailurePropagates(data, i, inputFields, outputFields, datasetId, post);
        return Err(step.error);
      }
      var (newIds, update) := step.value;
      if update.Some? {
        RunningIdsNext(updates, ids, newIds);
        updates := updates + [update.value];
      }
      ids := newIds;
      i := i + 1;
    }
    assert data[..i] == data;
    return Ok(Some(updates));
  }

  /** `updates` holds, for each collected id, the id list as it stood right after that id. */
  ghost predicate RunningIds(updates: seq<seq<Value>>, ids: seq<Value>) {
    |updates| == |ids| && forall k :: 0 <= k < |updates| ==> updates[k] == ids[..k + 1]
  }

  lemma RunningIdsNext(updates: seq<seq<Value>>, ids: seq<Value>, newIds: seq<Value>)
    requires RunningIds(updates, ids) && |newIds| == |ids| + 1 && newIds[..|ids|] == ids
    ensures RunningIds(updates + [newIds], newIds)
  {
    var u := updates + [newIds];
    forall k | 0 <= k < |u| ensures u[k] == newIds[..k + 1] {
      if k < |ids| {
        assert newIds[..k + 1] == newIds[..|ids|][..k + 1];
      } else {
        assert newIds[..k + 1] == newIds;
      }
    }
  }

  /** One more record: the ids after it, from the ids before it. */
  lemma UploadedIdsNext(data: seq<Value>, i: nat, inputFields: seq<string>, outputFields: seq<string>,
                        datasetId: Value, post: NewDatapoint -> HttpResponse, ids: seq<Value>)
    requires i < |data| && UploadedIds(data[..i], inputFields, outputFields, datasetId, post) == Ok(ids)
    ensures DatapointOf(data[i], inputFields, outputFields, datasetId).Err? ==>
      UploadedIds(data[..i + 1], inputFields, outputFields, datasetId, post) ==
        Err(DatapointOf(data[i], inputFields, outputFields, datasetId).error)
    ensures DatapointOf(data[i], inputFields, outputFields, datasetId).Ok? ==>
      var response := post(DatapointOf(data[i], inputFields, outputFields, datasetId).value);
      (response.status != 200 ==> UploadedIds(data[..i + 1], inputFields, outputFields, datasetId, post) == Ok(ids)) &&
      (response.status == 200 ==>
        match InsertedId(response.body)
        case Err(e) => UploadedIds(data[..i + 1], inputFields, outputFields, datasetId, post) == Err(e)
        case Ok(id) => UploadedIds(data[..i + 1], inputFields, outputFields, datasetId, post) == Ok(ids + [id]))
  {
    assert data[..i + 1][..i] == data[..i];
    assert data[..i + 1][i] == data[i];
  }

  /** Once a record raises, the whole upload raises the same error. */
  lemma {:induction false} UploadFailurePropagates(data: seq<Value>, i: nat, inputFields: seq<string>, outputFields: seq<string>,
                                                   datasetId: Value, post: NewDatapoint -> HttpResponse)
    requires i < |data| && UploadedIds(data[..i + 1], inputFields, outputFields, datasetId, post).Err?
    ensures UploadedIds(data, inputFields, outputFields, datasetId, post) ==
      UploadedIds(data[..i + 1], inputFields, outputFields, datasetId, post)
    decreases |data| - i
  {
    if i + 1 < |data| {
      assert data[..i + 2][..i + 1] == data[..i + 1];
      UploadFailurePropagates(data, i + 1, inputFields, outputFields, datasetId, post);
    } else {
      assert data[..i + 1] == data;
    }
  }

  /**
   * `upload_dataset_from_file`: convert the file, and stop when that gives None (a file holding
   * `null` decodes to None too); otherwise upload the converted value.
   */
  method UploadDatasetFromFile(filepath: string, read: Option<string>, parse: string -> Option<Value>,
                               csvRows: Option<seq<Entries>>, inputFields: seq<string>, outputFields: seq<string>,
                               create: HttpResponse, post: NewDatapoint -> HttpResponse)
    returns (r: Result<Option<seq<seq<Value>>>>)
    ensures var converted := ConvertFileToJson(filepath, read, parse, csvRows);
      (converted.None? || converted == Some(NoneV)) ==> r == Ok(None)
    ensures var converted := ConvertFileToJson(filepath, read, parse, csvRows);
      converted.Some? && converted != Some(NoneV) ==>
      var iterated := ExportDataset.Iterated(converted.value);
      (iterated.Err? ==> r == Err(iterated.error)) &&
      (iterated.Ok? && CreateEmptyDataset(create).Err? ==> r == Err(CreateEmptyDataset(create).error)) &&
      (iterated.Ok? && CreateEmptyDataset(create) == Ok(None) ==> r == Ok(None)) &&
      (iterated.Ok? && CreateEmptyDataset(create).Ok? && CreateEmptyDataset(create).value.Some? ==>
        var uploaded := UploadedIds(iterated.value, inputFields, outputFields, CreateEmptyDataset(create).value.value, post);
        (uploaded.Err? ==> r == Err(uploaded.error)) &&
        (uploaded.Ok? ==>
           r.Ok? && r.value.Some? && |r.value.value| == |uploaded.value| &&
           forall k :: 0 <= k < |r.value.value| ==> r.value.value[k] == uploaded.value[..k + 1]))
  {
    var data := ConvertFileToJson(filepath, read, parse, csvRows);
    if data.None? || data.value == NoneV {
      return Ok(None);
    }
    r := UploadDatasetFromJson(data.value, inputFields, outputFields, create, post);
  }
}
