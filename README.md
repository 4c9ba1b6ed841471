# HoneyHive cookbook core, modelled in Dafny

The HoneyHive cookbook is a collection of example applications that trace LLM pipelines with
HoneyHive. Most of each example is calls into model, vector-store and REST SDKs. The
deterministic logic between those calls is what this project models and proves:

- **Multi-agent orchestration.** Both multi-agent cookbooks (wealth-management-agent and
  crewai-multi-agent-cookbook) are covered:
  - the task types, tools and tool registries (`WealthRegistry`, `CrewRegistry`, `SearchTools`);
  - the specialised agents, their capability maps and capability scores (`Agents`, `WealthAgents`, `CrewAgents`);
  - the subtask records (`Tasks`);
  - query decomposition, routing and the execution plan (`Orchestration`);
  - bounded delegation and the executor (`Execution`);
  - plan execution, the synthesis prompt and the orchestrator (`Workflow`).

  The two orchestration.py files share one logic. It is modelled once, over a `Config` that holds
  each cookbook's fallback subtask, agent pool, dispatch names and prompt text. `WealthOrchestration`
  and `CrewOrchestration` are the two instances.
- **Sessions and evaluations.**
  - The session managers and per-query bookkeeping of wealth-management-agent/main.py and
    multi-agent-tracing-evals/main.py (`Sessions`, `WealthSession`, `TracingSession`).
  - The evaluation entry points and datasets (`Evaluations`, `WealthEvaluation`, `LanggraphEvaluation`).
- **Other pipelines:**
  - the LangGraph code-generation graph (`LanggraphFlow`);
  - the Qdrant quote-discovery agent and its retrieval helpers (`QuoteAgent`, `QuoteRetrieval`);
  - Qdrant document insertion (`QdrantIntegration`);
  - LanceDB loading and chunking (`LancedbRag`);
  - the Putnam judge rating extraction (`PutnamGrading`, `PutnamSonnet`, `PutnamAsync`);
  - template pipelines (`ModelCompletion`) and the ground-truth metric (`ModelMetrics`);
  - the Google ADK support agent (`SupportAgent`);
  - dataset upload, export and clean-up, and event loading (`UploadDataset`, `ExportDataset`,
    `DatasetCleanup`, `LoadEvents`);
  - the Azure multi-turn conversation (`MultiTurnConversation`);
  - the crew-result evaluator (`CrewEvaluation`).

Every call into a model, an embedding service, a vector store or a REST endpoint is an input to
the model. It is a function parameter, or a value that says the call raised or what it returned.
Python values that flow through JSON are `PyValue.Value`, with Python truthiness and `str`.
Dictionaries are association lists in insertion order (`Dicts`). Errors Python would raise are
`Wrappers.Result` values carrying the exception class and message.

Code that changes state in place is modelled as classes or as methods with loops:
- the conversation and session managers;
- the delegation manager, the executor and the orchestrator;
- the upload, export, batching and chunking loops.

Each is proved against a specification function, and the lemmas beside it state what the source
promises.

langgraph-cookbook/evaluation.py imports `ConversationManager` and `process_single_query` from a
`main` module. langgraph-cookbook/main.py defines neither; langgraph-cookbook/evaluation.py is a copy of the
multi-agent evaluation. `LanggraphEvaluation` models the summarisation the file itself performs, with its own
messages.

## Model

A function that only computes a specification (`DecomposeSpec`, `SelectSpec`, `PlanSpec`, `CoordinateSpec`, `ContextSpec`, `ExtractRating` and the like) has no row of its own. Its rows are the lemmas that state its properties and the methods proved to compute it, and their third column names it.

| member | source | states |
|---|---|---|
| ModelMetrics.GroundTruthMatch | metrics/model_metrics.py:57-88 | whenever it returns, the rating is an int (bools count) between 0 and 5 |
| ModelMetrics.FailureCases | metrics/model_metrics.py:60-74 | a failed evaluator call gives (0, the error prefix + message); undecodable or null arguments give (0, "The model failed to provide a rating.") |
| ModelMetrics.DictArguments | metrics/model_metrics.py:72-85 | a dictionary with both keys gives its own rating and explanation when the rating is valid and (0, "no valid rating") otherwise; a dictionary lacking either key gives (0, "no valid rating") |
| ModelMetrics.InKeysOfDict | metrics/model_metrics.py:75 | `key in arguments` on a dictionary is exactly the presence of the key |
| ModelMetrics.OutOfRange | metrics/model_metrics.py:83-85 | a present rating that is not an int in 0..5 is replaced by (0, "no valid rating") |
| SupportAgent.BillingLookup | google-adk-cookbook/main.py:31-60 | `LookupBilling`: a balance, charges or refund_status query gives a record that echoes the customer id and has no error key; any other query type gives exactly `{"error": "Unknown query type: <t>"}` |
| SupportAgent.FirstKeyword | google-adk-cookbook/main.py:89-92 | the index found is the first keyword, in table order, that occurs in the text: it occurs, and no earlier keyword does; None means no keyword occurs |
| SupportAgent.SearchKnowledgeBase | google-adk-cookbook/main.py:63-98 | the `Article` records of the table: the article of the first of export, api, login found in the lower-cased issue, else the General Troubleshooting article KB-0001 |
| SupportAgent.ExportBeforeLogin | google-adk-cookbook/main.py:69-92 | an issue mentioning "export" always gets the export article, whatever else it mentions |
| SupportAgent.PreprocessQuery | google-adk-cookbook/main.py:161-166 | a stripped input shorter than 3 characters becomes the fixed request for details; a longer one is the stripped input |
| SupportAgent.PreprocessIdempotent | google-adk-cookbook/main.py:161-166 | preprocessing twice is preprocessing once |
| SupportAgent.DetailsRequestStripped | google-adk-cookbook/main.py:165 | the request for details has no surrounding whitespace, so it survives another strip |
| SupportAgent.ReplyFromLastFinal | google-adk-cookbook/main.py:178-186 | `ReplyText`: the reply is the first part of the last final event that has parts |
| SupportAgent.NoFinalReply | google-adk-cookbook/main.py:178-186 | `ReplyText`: with no final event that has parts, the reply is "" |
| SupportAgent.HandleCustomerQuery | google-adk-cookbook/main.py:173-186 | the loop over the runner's events for the preprocessed query keeps exactly the reply text of the events |
| MultiTurnConversation.CountRole | azure-openai-honeyhive-cookbook/multi_turn_conversation.py:72-74 | the number of messages with a role never exceeds the number of messages |
| MultiTurnConversation.CountRoleAppend | azure-openai-honeyhive-cookbook/multi_turn_conversation.py:37 | appending a message adds one to its role's count and leaves the other roles' counts alone |
| MultiTurnConversation.Conversation.constructor | azure-openai-honeyhive-cookbook/multi_turn_conversation.py:26-28 | a new conversation holds only the system message, at turn 0, and satisfies the invariant (system message first, one user message per turn) |
| MultiTurnConversation.Conversation.AddUserMessage | azure-openai-honeyhive-cookbook/multi_turn_conversation.py:31-66 | the turn count goes up by one and the user message is appended before the call; on a reply the assistant message follows and the result carries the new turn; on a failure the user message stays without a reply and the error is re-raised; the invariant is kept |
| MultiTurnConversation.Conversation.GetConversationHistory | azure-openai-honeyhive-cookbook/multi_turn_conversation.py:68-70 | the history is every message after the system message, and it holds one user message per turn |
| MultiTurnConversation.Conversation.GetCurrentTurn | azure-openai-honeyhive-cookbook/multi_turn_conversation.py:72-74 | the current turn equals the number of user messages in the history |
| MultiTurnConversation.Exchanged | azure-openai-honeyhive-cookbook/multi_turn_conversation.py:76-131 | a conversation whose turns all got replies has two history entries per turn |
| MultiTurnConversation.ExchangedAt | azure-openai-honeyhive-cookbook/multi_turn_conversation.py:76-131 | entry 2k of the history is the k-th user message and entry 2k+1 is its reply |
| MultiTurnConversation.ExchangeCount | azure-openai-honeyhive-cookbook/multi_turn_conversation.py:146 | `len(history) // 2` is the number of completed turns |
| MultiTurnConversation.RunConversation | azure-openai-honeyhive-cookbook/multi_turn_conversation.py:78-131 | the scripted conversations give what `TurnReplies` gives: the error of the first call that raises is re-raised; when every turn is answered the history alternates each user message and its reply, and the replies come back in turn order |
| MultiTurnConversation.TurnReplies | azure-openai-honeyhive-cookbook/multi_turn_conversation.py:86-101 | the turns of one conversation, each call seeing every earlier exchange: on success one reply per user message |
| MultiTurnConversation.AllTurnsReply | azure-openai-honeyhive-cookbook/multi_turn_conversation.py:39-63 | when every call replies, every turn completes |
| MultiTurnConversation.TurnRepliesPrefix | azure-openai-honeyhive-cookbook/multi_turn_conversation.py:86-101 | the replies of the first k turns are the first k replies: a later turn never changes an earlier reply |
| MultiTurnConversation.ReplyAt | azure-openai-honeyhive-cookbook/multi_turn_conversation.py:37-52 | reply k is the assistant content of the call made on the system message, the k earlier exchanges and the k-th user message |
| MultiTurnConversation.FirstFailureRaised | azure-openai-honeyhive-cookbook/multi_turn_conversation.py:64-66 | the first turn whose call raises ends the conversation with that call's error |
| MultiTurnConversation.TurnRepliesPrefixFailure | azure-openai-honeyhive-cookbook/multi_turn_conversation.py:64-66 | a prefix of the turns that raises makes the whole conversation raise the same error |
| QdrantIntegration.PointsOf | qdrant-cookbook/qdrant_integration.py:98-104 | one point per document |
| QdrantIntegration.PointsOfAt | qdrant-cookbook/qdrant_integration.py:98-104 | the k-th point is the k-th document's: id `str(offset + k)`, its embedding, payload `{"text": doc}` |
| QdrantIntegration.PointsOfAppend | qdrant-cookbook/qdrant_integration.py:221-229 | numbering two runs of documents one after the other numbers their concatenation, so batches numbered from their start equal one numbering of the whole list |
| QdrantIntegration.IdsUnique | qdrant-cookbook/qdrant_integration.py:225-229 | distinct positions get distinct point ids |
| QdrantIntegration.InsertDocuments | qdrant-cookbook/qdrant_integration.py:95-111 | the points upserted are the documents numbered from 0, and the count returned is the number of documents |
| QdrantIntegration.BatchPoints | qdrant-cookbook/qdrant_integration.py:223-231 | the inner loop makes the batch's points numbered from the batch start `i` |
| QdrantIntegration.BatchInsertDocuments | qdrant-cookbook/qdrant_integration.py:217-241 | a zero batch size raises ValueError as `range` does, a negative one upserts nothing and returns 0, and a positive one upserts consecutive batches whose points together are the points of `insert_documents` and returns the number of documents |
| QdrantIntegration.NumberedNext | qdrant-cookbook/qdrant_integration.py:221-231 | the batch upserted next is numbered from its own start |
| QdrantIntegration.UpsertBatches | qdrant-cookbook/qdrant_integration.py:219-241 | for a positive size: one upsert per batch, each numbered from its start, all together the documents numbered from 0; `total_inserted` is the number of documents |
| QdrantIntegration.BatchIndexBound | qdrant-cookbook/qdrant_integration.py:221 | batch k exists exactly when `k * batch_size` is below the number of documents |
| QdrantIntegration.UpsertStep | qdrant-cookbook/qdrant_integration.py:233-238 | upserting the next batch extends the upserted points to the batch end |
| QdrantIntegration.DocOf | qdrant-cookbook/qdrant_integration.py:135-138 | a hit's record has exactly the keys text and score, text is `payload.get("text")` and score is the hit's score |
| QdrantIntegration.GetRelevantDocs | qdrant-cookbook/qdrant_integration.py:119-140 | one record per search hit, in hit order |
| QdrantIntegration.HitOnInsertedPoint | qdrant-cookbook/qdrant_integration.py:103-136 | a hit on a point this script inserted carries the inserted document as its text |
| LoadEvents.EvaluationFromRunId | load_events_from_eval.py:13-25 | a result other than None is the body's "evaluation"; a body that has that key gives it; every failure gives None |
| LoadEvents.EventsFromEventIds | load_events_from_eval.py:27-43 | the events come back exactly when the request succeeded, and they are the body |
| LoadEvents.Contributions | load_events_from_eval.py:55-59 | what each batch adds, in batch order: its events, or nothing when its request failed |
| LoadEvents.CollectedSpec | load_events_from_eval.py:50-59 | the events collected are the batches' contributions concatenated in batch order |
| LoadEvents.AllFailedNothingCollected | load_events_from_eval.py:57 | when every request fails nothing is collected |
| LoadEvents.EchoCollectsIds | load_events_from_eval.py:52-59 | the batches are consecutive and cover the id list: a service that returns each batch as its events gives back exactly the id list |
| LoadEvents.BatchTotal | load_events_from_eval.py:54 | the printed total `(len - 1) // 100 + 1` is the number of batches of a non-empty list |
| LoadEvents.LoadEvents | load_events_from_eval.py:45-61 | reading `event_ids` off the evaluation raises as Python would (no evaluation, no key); a list is fetched in batches of 100 and the successful batches' events are concatenated in order; anything else leaves the list empty |
| LoadEvents.NoEvaluationRaises | load_events_from_eval.py:47-48 | without an evaluation (any failed run request) reading its event ids raises TypeError |
| ExportDataset.Iterated | datasets/export_dataset.py:34 | `for x in v` iterates a list's items, and raises TypeError exactly for values that are neither list, dict nor string |
| ExportDataset.KeyValues | datasets/export_dataset.py:34 | iterating a dict gives its keys, in order |
| ExportDataset.CharValues | datasets/export_dataset.py:34 | iterating a string gives its characters, in order |
| ExportDataset.FirstNamed | datasets/export_dataset.py:34-36 | the index found is the first dataset whose name matches, and every dataset before it has a different name; a dataset without a name met first raises |
| ExportDataset.DatasetFromName | datasets/export_dataset.py:17-38 | an HTTP error leaves `datasets` unbound so the search raises NameError; any other failure, no listing and an empty listing give None |
| ExportDataset.GetDatasetFromName | datasets/export_dataset.py:17-38 | the linear search returns what the search specification gives: the first dataset of that name, None, or the exception |
| ExportDataset.FirstMatchWins | datasets/export_dataset.py:34-36 | a listing whose first dataset has the name gives that dataset |
| ExportDataset.Replies | datasets/export_dataset.py:44-53 | one reply per batch |
| ExportDataset.FetchedBatchesSpec | datasets/export_dataset.py:40-59 | all or nothing: the fetch succeeds exactly when every batch does, and then it is the batches' records concatenated in batch order |
| ExportDataset.GetDatapointsFromIds | datasets/export_dataset.py:40-59 | the loop fetches consecutive batches of ten ids and returns what the batch specification gives, stopping at the first failing batch |
| ExportDataset.FetchFailurePropagates | datasets/export_dataset.py:55-57 | one failing batch makes the whole fetch None |
| ExportDataset.ExportDataset | datasets/export_dataset.py:61-71 | a lookup that raises raises the same error and a dataset not found gives None; for a found dataset a missing "datapoints" raises its KeyError, an id list that is not a list raises TypeError, and a list always gives the dataset with "datapoints" replaced by the fetched records (None when a batch failed) and every other key unchanged |
| DatasetCleanup.KeyCount | dataset_cleanup.py:14 | `len(d.keys())` succeeds exactly on dictionaries |
| DatasetCleanup.ValidateDatapoint | dataset_cleanup.py:11-19 | true exactly when inputs and ground_truth are both present and each is a dictionary with one key; a missing inputs or ground_truth raises KeyError, a datapoint that is not a dictionary raises TypeError |
| DatasetCleanup.ValidateShortCircuit | dataset_cleanup.py:14 | with both keys present: inputs without `.keys()` raise AttributeError, inputs without exactly one key give False without the ground truth being looked at, and with one input key the ground truth decides (AttributeError when it has no `.keys()`) |
| DatasetCleanup.ShortCircuit | dataset_cleanup.py:14 | inputs with two keys make the datapoint invalid whatever its ground truth is, even one without `.keys()` |
| DatasetCleanup.KeptSpec | dataset_cleanup.py:27-29 | the filter succeeds exactly when every datapoint validates, and then keeps exactly the valid datapoints, never more than there were |
| DatasetCleanup.FilterValid | dataset_cleanup.py:23-29 | the loop appending to `final_datapoints` gives what the filter specification gives, raising at the first datapoint that raises |
| DatasetCleanup.KeptFailurePropagates | dataset_cleanup.py:27-28 | once a datapoint raises, the whole filter raises that error |
| DatasetCleanup.KeptPrefixFailure | dataset_cleanup.py:27-28 | a prefix that raises makes the whole filter raise the same error |
| DatasetCleanup.AsWrittenRaisesWhenFound | dataset_cleanup.py:26 | as written the main block never reaches the filter: a found dataset always raises TypeError for the two-argument call |
| DatasetCleanup.CleanupDataset | dataset_cleanup.py:21-31 | with the one-argument call: a lookup failure is propagated and a dataset not found or falsy gives None; for a found dataset a missing "datapoints" or "_id" raises its KeyError, a failed fetch raises the TypeError of iterating None, a datapoint that raises in the filter raises that error, and otherwise the update always carries exactly the valid fetched datapoints and the dataset's `_id` |
| UploadDataset.ParsedLinesSpec | datasets/upload_dataset.py:57-65 | all or nothing: one record per line, in line order, exactly when every line decodes, and None otherwise |
| UploadDataset.TryJsonl | datasets/upload_dataset.py:57-65 | the loop decodes the lines of the content one by one and returns what the line specification gives |
| UploadDataset.KindOf | datasets/upload_dataset.py:35-51 | the extension tests in their order: ".json" first, then ".jsonl", then ".csv", and nothing for any other name |
| UploadDataset.ConvertFileToJson | datasets/upload_dataset.py:27-55 | a file that cannot be read gives None, and so does an unsupported extension |
| UploadDataset.RowValues | datasets/upload_dataset.py:44-48 | one dictionary per CSV row, in row order |
| UploadDataset.BlankFile | datasets/upload_dataset.py:30-33 | a file that is blank after stripping gives None, whatever its name |
| UploadDataset.JsonFallsBackToJsonl | datasets/upload_dataset.py:35-40 | a .json file that does not decode as a whole is read line by line |
| UploadDataset.CsvRows | datasets/upload_dataset.py:43-48 | a non-blank .csv file gives one dictionary per row, in order |
| UploadDataset.Projection | datasets/upload_dataset.py:100-101 | the projection onto the fields holds exactly the listed keys with the datapoint's values, and succeeds exactly when every listed field is present; a missing field raises KeyError naming a listed field |
| UploadDataset.MetadataLookup | datasets/upload_dataset.py:114 | the metadata holds exactly the keys not in the field lists, with the datapoint's values and datetimes as ISO strings |
| UploadDataset.DatapointOf | datasets/upload_dataset.py:100-115 | inputs and ground truth are the projections onto the input and output fields and the metadata the remaining keys; a missing input field raises first |
| UploadDataset.FieldPartition | datasets/upload_dataset.py:100-114 | a key is in the metadata exactly when the datapoint has it and it is in neither field list; the listed fields carry the datapoint's values |
| UploadDataset.UploadDatapoint | datasets/upload_dataset.py:97-134 | a raising projection raises; a status other than 200 leaves the id list alone and sends no update; on 200 the inserted id is appended and the whole accumulated list is sent |
| UploadDataset.CreateEmptyDataset | datasets/upload_dataset.py:67-95 | an id only on status 200, the inserted id of the reply; None for every other status |
| UploadDataset.UploadedIdsBound | datasets/upload_dataset.py:147-150 | the upload collects at most one id per record |
| UploadDataset.UploadDatasetFromJson | datasets/upload_dataset.py:136-150 | the decoded JSON is iterated first as `for` does (a list gives its items, a dict its keys, a string its characters, anything else raises TypeError); then no dataset id stops before any datapoint, and otherwise the records are uploaded in order, the first raising record raises, and each dataset update carries the id list as it stood right after its id |
| UploadDataset.UploadRecords | datasets/upload_dataset.py:141-150 | after the records are collected: a raising dataset creation raises, no dataset id stops before any datapoint, and otherwise the upload loop gives what `UploadedIds` gives, one dataset update per inserted id |
| UploadDataset.UploadDatasetFromFile | datasets/upload_dataset.py:152-159 | a file that converts to nothing (None, or a JSON `null`) stops before any request; otherwise the converted value goes through `upload_dataset_from_json`, with its iteration error, its creation error, its first raising record, or one dataset update per uploaded id, update k sending the first k + 1 ids |
| UploadDataset.RunningIdsNext | datasets/upload_dataset.py:121-126 | appending the next id keeps every update equal to the id list right after its own id |
| UploadDataset.UploadedIdsNext | datasets/upload_dataset.py:148-150 | one more record: its failure raises, a non-200 status adds no id, a 200 adds the inserted id |
| UploadDataset.UploadFailurePropagates | datasets/upload_dataset.py:148-150 | once a record raises, the whole upload raises that error |
| LancedbRag.StrippedLines | lancedb-cookbook/lancedb_rag_with_tracing.py:77-79 | one stripped line per line, in order |
| LancedbRag.KeptFromTexts | lancedb-cookbook/lancedb_rag_with_tracing.py:76-82 | every document is a non-empty stripped line, with the file path and that line's own index, and there are no more documents than lines |
| LancedbRag.KeptInOrder | lancedb-cookbook/lancedb_rag_with_tracing.py:76-82 | the documents follow the lines' order |
| LancedbRag.KeptPosition | lancedb-cookbook/lancedb_rag_with_tracing.py:77-82 | every non-empty stripped line gives a document |
| LancedbRag.LoadedFromLines | lancedb-cookbook/lancedb_rag_with_tracing.py:76-82 | each document is a non-blank line of the file, stripped, with the source path and its 0-based line index, in line order |
| LancedbRag.LoadedComplete | lancedb-cookbook/lancedb_rag_with_tracing.py:77-82 | no non-blank line is skipped |
| LancedbRag.LoadDocuments | lancedb-cookbook/lancedb_rag_with_tracing.py:61-88 | a failed read is re-raised; otherwise the documents are exactly those of the lines (`Loaded`) |
| LancedbRag.KeepNonEmpty | lancedb-cookbook/lancedb_rag_with_tracing.py:76-82 | the loop over the stripped lines keeps one document per non-empty line, numbered by its position, in line order |
| LancedbRag.ChunkCount | lancedb-cookbook/lancedb_rag_with_tracing.py:101-107 | every text gives at least one chunk |
| LancedbRag.ChunkCountCeil | lancedb-cookbook/lancedb_rag_with_tracing.py:103-107 | a non-empty text of n characters gives ceil(n / chunk_size) chunks |
| LancedbRag.SlicesCover | lancedb-cookbook/lancedb_rag_with_tracing.py:101-107 | the chunks of a text concatenate back to the text, none is longer than chunk_size, and none of a non-empty text is empty |
| LancedbRag.SlicesCount | lancedb-cookbook/lancedb_rag_with_tracing.py:101-107 | the number of chunks of a text is its chunk count |
| LancedbRag.AllChunksProperties | lancedb-cookbook/lancedb_rag_with_tracing.py:98-107 | the chunks of all documents concatenate to the documents' texts in document order, are as many as the per-document counts summed, and none is longer than chunk_size |
| LancedbRag.ConcatOfAppend | lancedb-cookbook/lancedb_rag_with_tracing.py:98-107 | concatenating two runs of chunks concatenates their texts |
| LancedbRag.SlicesUnfold | lancedb-cookbook/lancedb_rag_with_tracing.py:105-107 | a text's chunks are its first chunk_size characters and then the chunks of the rest |
| LancedbRag.SliceText | lancedb-cookbook/lancedb_rag_with_tracing.py:105-107 | the `range(0, len(text), chunk_size)` loop produces exactly the text's chunks |
| LancedbRag.ChunkDocuments | lancedb-cookbook/lancedb_rag_with_tracing.py:91-110 | for a positive size the loop produces all the documents' chunks in document order, a short text as itself and a longer one as its slices; a negative size gives no chunks; a zero size keeps the texts when all are empty and otherwise raises the zero-step ValueError |
| LancedbRag.ItemTexts | lancedb-cookbook/lancedb_rag_with_tracing.py:176 | `[item["text"] for item in context]`: one text per item, in order, and KeyError when an item has none |
| LancedbRag.JoinStrings | lancedb-cookbook/lancedb_rag_with_tracing.py:176 | joining succeeds exactly when every item is a string, and is then the strings joined by the separator |
| LancedbRag.ContextJoin | lancedb-cookbook/lancedb_rag_with_tracing.py:169-176 | the context is the retrieved texts in retrieval order separated by a blank line; a missing "text" is a KeyError and a non-string text fails the join |
| ModelCompletion.Placeholder | template_pipelines/model_completion.py:33 | the pattern of a key matches the key wrapped in double braces, four characters longer than the key |
| ModelCompletion.ReplaceAllNoMatch | template_pipelines/model_completion.py:36-38 | where the placeholder does not occur, substituting changes nothing |
| ModelCompletion.SubstituteIsReplaceAll | template_pipelines/model_completion.py:36-38 | the `re.search` guard is only a shortcut: substituting a key replaces every occurrence of its placeholder |
| ModelCompletion.PlaceholderFilled | template_pipelines/model_completion.py:38 | a content that is exactly the placeholder becomes the value |
| ModelCompletion.SubstitutedAppend | template_pipelines/model_completion.py:29-38 | substitution goes key by key in dictionary order: two dictionaries in turn are their concatenation |
| ModelCompletion.ChainedSubstitution | template_pipelines/model_completion.py:29-38 | a value that brings in the placeholder of a later key is itself substituted |
| ModelCompletion.ReplaceVariables | template_pipelines/model_completion.py:28-41 | the messages are updated in place: each content becomes its substitution by every key in dictionary order, each value stringified; roles, order and number of messages stay as they were |
| ModelCompletion.GroundTruthLabel | template_pipelines/model_completion.py:131-139 | None for a falsy score array; "Yes" exactly when the first score is 1, "No" exactly when it is not and the second is, and IndexError exactly when the first is not 1 and there is no second; every label is Yes, No or N/A |
| ModelCompletion.LabelOfScores | template_pipelines/model_completion.py:131-139 | each label is read back from its canonical score array |
| ModelCompletion.ProviderOf | template_pipelines/model_completion.py:47-55 | exactly openai, openrouter and ollama are known providers |
| ModelCompletion.CompletionEvent | template_pipelines/model_completion.py:43-112 | an unknown provider leaves the completion None, which the tokenizer rejects with TypeError; a falsy ground truth leaves `gt_rating` unbound (NameError); otherwise the event carries the completion, the chat history, the session and inputs, and the evaluator's (rating, explanation), rating in 0..5 |
| ModelCompletion.ModelCompletion | template_pipelines/model_completion.py:43-125 | a failing event raises; a failed POST gives None; otherwise the body's "event_id", raising when it has none |
| ModelCompletion.Field | template_pipelines/model_completion.py:130-131 | `datapoint[outer][inner]` raises KeyError when the outer key is missing |
| ModelCompletion.Len | template_pipelines/model_completion.py:133-160 | `len` succeeds exactly on lists, strings and dictionaries |
| ModelCompletion.FullAnswer | template_pipelines/model_completion.py:160 | the first target when the ground truth has targets, and "" without a ground truth or with no targets |
| ModelCompletion.SessionRequestOf | template_pipelines/model_completion.py:130-163 | the session request carries `inputs.inputs`, the `_id` and the label derived from `metadata.multiple_choice_scores`; a datapoint without inputs raises KeyError |
| ModelCompletion.RunPipeline | template_pipelines/model_completion.py:127-199 | a failed session start (HTTP error or a reply without a session id) gives None without calling the model; otherwise the two prompts get the question filled in and the result is `event_ids = [event_id]` with the session id |
| ModelCompletion.QuestionFilled | template_pipelines/model_completion.py:181-190 | a prompt holding only the question placeholder becomes the question's text |
| CrewEvaluation.FallbackLookup | crewai-cookbook/evaluate_crew_results.py:149-154 | after the fallback loop each assigned criterion maps to its record (score 5, an explanation naming it) and no other key is present |
| CrewEvaluation.FallbackKeys | crewai-cookbook/evaluate_crew_results.py:149-154 | distinct criteria become the table's keys, in assignment order |
| CrewEvaluation.FallbackUnique | crewai-cookbook/evaluate_crew_results.py:149-154 | the table never repeats a key |
| CrewEvaluation.FallbackResults | crewai-cookbook/evaluate_crew_results.py:147-154 | the `except json.JSONDecodeError` loop builds the fallback table of the five criteria |
| CrewEvaluation.FallbackShape | crewai-cookbook/evaluate_crew_results.py:24-30 | the fallback has exactly the five criteria keys, in order, each with score 5 and its own explanation |
| CrewEvaluation.Scores | crewai-cookbook/evaluate_crew_results.py:161 | one score per entry, in order, and the comprehension succeeds exactly when every entry has a score |
| CrewEvaluation.ScoresPrefixFailure | crewai-cookbook/evaluate_crew_results.py:161 | an entry without a score makes the whole comprehension raise |
| CrewEvaluation.SpanMetrics | crewai-cookbook/evaluate_crew_results.py:157-158 | one span metric per criterion, in order, named `evaluation_<criterion>_score` with its score; an entry lacking "score" raises that KeyError |
| CrewEvaluation.Numeric | crewai-cookbook/evaluate_crew_results.py:162 | `sum` accepts ints, floats and bools, with an int counting as its value, and raises for anything else |
| CrewEvaluation.Average | crewai-cookbook/evaluate_crew_results.py:162 | no scores average 0 |
| CrewEvaluation.SumOk | crewai-cookbook/evaluate_crew_results.py:162 | `sum` succeeds exactly when every score is a number |
| CrewEvaluation.AverageOk | crewai-cookbook/evaluate_crew_results.py:162 | the average exists exactly when every score is a number |
| CrewEvaluation.SumBounds | crewai-cookbook/evaluate_crew_results.py:162 | scores between lo and hi sum to between n * lo and n * hi |
| CrewEvaluation.AverageBounds | crewai-cookbook/evaluate_crew_results.py:162 | the average of scores between lo and hi lies between them |
| CrewEvaluation.Returned | crewai-cookbook/evaluate_crew_results.py:172-175 | the return value has exactly the keys results and average_score |
| CrewEvaluation.EvaluateResult | crewai-cookbook/evaluate_crew_results.py:144-175 | output that is not JSON always gives the fallback table with average 5; a decoded non-dictionary raises AttributeError; a dictionary whose scores are missing or not numbers raises that error, and otherwise it always succeeds; a result holds the judge's dictionary, one span metric per criterion in order named after it with its score, and the average of the scores |
| CrewEvaluation.FallbackScoreAt | crewai-cookbook/evaluate_crew_results.py:152 | every fallback record scores 5 |
| CrewEvaluation.FallbackAverageOf | crewai-cookbook/evaluate_crew_results.py:149-162 | a fallback table over any criteria averages 5 |
| CrewEvaluation.FallbackAverage | crewai-cookbook/evaluate_crew_results.py:147-162 | the fallback of the five criteria averages 5 |
| PutnamGrading.SkipSpaces | putnam-evaluation-sonnet-3-7/putnam_eval.py:143 | `\s*` consumes exactly the maximal run of whitespace from the position |
| PutnamGrading.SkipDigits | putnam-evaluation-sonnet-3-7/putnam_eval.py:143 | `\d+` consumes exactly the maximal run of ASCII decimal digits from the position |
| PutnamGrading.MatchAt | putnam-evaluation-sonnet-3-7/putnam_eval.py:143 | a match at a position captures a non-empty run of digits as group 1 |
| PutnamGrading.Search | putnam-evaluation-sonnet-3-7/putnam_eval.py:143 | `re.search` returns a position at or after the start where the pattern matches, with that match's digits |
| PutnamGrading.SearchLeftmost | putnam-evaluation-sonnet-3-7/putnam_eval.py:143 | the match found is the leftmost one; when the search fails nothing matches anywhere |
| PutnamGrading.VerdictMatches | putnam-evaluation-sonnet-3-7/putnam_eval.py:104 | the verdict the prompt asks for, "Rating: [[n]]", is matched where it stands whatever surrounds it, capturing the digits of n |
| PutnamGrading.RatingOfVerdict | putnam-evaluation-sonnet-3-7/putnam_eval.py:143-146 | `ExtractRating`: a reply whose text before the verdict has no 'R' is scored n (no clamping to 0..10), with the stripped text before it as the explanation |
| PutnamGrading.NoMatchBefore | putnam-evaluation-sonnet-3-7/putnam_eval.py:143 | no match starts inside text without an 'R', so the search reaches the first verdict after it |
| PutnamGrading.NotAtLabel | putnam-evaluation-sonnet-3-7/putnam_eval.py:143 | no match starts at a character other than 'R' |
| PutnamGrading.DigitRun | putnam-evaluation-sonnet-3-7/putnam_eval.py:143 | `\d+` from a position stops at the first non-digit |
| PutnamGrading.ZeroScore | putnam-evaluation-sonnet-3-7/putnam_eval.py:143-149 | `ExtractRating`: the score is 0 exactly when nothing matches or the matched digits read as zero |
| PutnamGrading.QuestionOf | putnam-evaluation-sonnet-3-7/putnam_eval.py:81-86 | succeeds exactly when the three input keys and the solution are present, with their values; the first missing key, in argument order, raises KeyError |
| PutnamGrading.GroundTruthText | putnam-evaluation-sonnet-3-7/putnam_eval.py:123 | a missing solution is rendered as "N/A" |
| PutnamGrading.GroundTruthRendering | putnam-evaluation-sonnet-3-7/putnam_eval.py:123 | a string solution is quoted as it is and a missing one as "N/A" |
| PutnamSonnet.PartsOfAppend | putnam-evaluation-sonnet-3-7/putnam_eval.py:50-54 | the thinking and answer texts of two runs of blocks are those of each run, concatenated |
| PutnamSonnet.OtherBlockIgnored | putnam-evaluation-sonnet-3-7/putnam_eval.py:50-54 | a block that is neither "thinking" nor "text" contributes to neither text |
| PutnamSonnet.CollectContent | putnam-evaluation-sonnet-3-7/putnam_eval.py:47-54 | the thinking is the concatenation of the thinking blocks and the answer that of the text blocks, each in block order |
| PutnamSonnet.EvaluationText | putnam-evaluation-sonnet-3-7/putnam_eval.py:137-140 | the judge's text is the concatenation of its text blocks, in order |
| PutnamSonnet.PutnamQa | putnam-evaluation-sonnet-3-7/putnam_eval.py:71-86 | fails exactly when a field is missing, with that KeyError; otherwise returns the model's answer text and records its thinking text |
| PutnamSonnet.ResponseQuality | putnam-evaluation-sonnet-3-7/putnam_eval.py:92-152 | the score is the rating read from the judge's text blocks for the prompt of `{inputs}`, the outputs and the ground truth |
| PutnamSonnet.ThinkingProcess | putnam-evaluation-sonnet-3-7/putnam_eval.py:158-227 | the score is the rating read from the judge's text for the prompt holding the recorded thinking |
| PutnamSonnet.MissingThinking | putnam-evaluation-sonnet-3-7/putnam_eval.py:169 | without recorded thinking the judge sees "No thinking process recorded" |
| PutnamAsync.EvaluationTask | putnam-evaluation-async-python/putnam_eval.py:72-77 | succeeds exactly when all four fields are present, returning the model's reply to the question; otherwise the KeyError of the first missing field |
| PutnamAsync.ResponseQuality | putnam-evaluation-async-python/putnam_eval.py:115-139 | the score is 0 when the judge's reply has no rating and otherwise the value of the leftmost rating's digits |
| PutnamAsync.MissingSolutionShown | putnam-evaluation-async-python/putnam_eval.py:115 | a missing solution reaches the judge as "N/A" |
| QuoteRetrieval.CreateContextPairs | qdrant-discovery/retrieve.py:109-126 | as many pairs as the shorter list, the i-th pairing the i-th positive with the i-th negative embedding |
| QuoteRetrieval.ExcludeFilter | qdrant-discovery/retrieve.py:74-82 | no filter exactly when the exclusion ids are missing or empty; otherwise a must-not filter on exactly those ids |
| QuoteRetrieval.QueryByContext | qdrant-discovery/retrieve.py:72-107 | sends one request with the pairs, the limit and the exclusion filter; fails exactly when the client fails, with its error; otherwise the first response's points, or none when there is no response |
| QuoteRetrieval.RandomQuote | qdrant-discovery/retrieve.py:38-53 | for an id in 0..999, the first point of the query's answer; an empty answer raises IndexError |
| QuoteAgent.Examples | qdrant-discovery/app.py:191-201 | a value is kept exactly when it is a non-empty list, then cut to its first n items (all of them when it has fewer) |
| QuoteAgent.Interpret | qdrant-discovery/app.py:176-220 | a reply that is not a JSON dict with the three keys and a boolean stop flag gives the default (no examples, no stop); otherwise the stop flag as given and both example lists normalised |
| QuoteAgent.SuccessesLength | qdrant-discovery/app.py:270-287 | at most one embedding per example, and exactly one each when no embedding call fails |
| QuoteAgent.FirstUnseen | qdrant-discovery/app.py:300-305 | the result returned is the first whose id has not been seen; none is returned only when every result was seen |
| QuoteAgent.NextQuoteEffects | qdrant-discovery/app.py:289-327 | `NextQuote`: the embedding lists and the round count are kept; the seen set grows by the displayed quote only; without both lists non-empty the random quote is shown (or the current kept when the lookup raises); a changed quote is the random one or an unseen point from the context search |
| QuoteAgent.PlayRoundEffects | qdrant-discovery/app.py:254-327 | `PlayRound`: every round is counted; a stop request ends the loop with that count; otherwise the lists grow by the successful embeddings of the examples before the next quote is picked, and the displayed quote is marked seen |
| QuoteAgent.RunRoundsEffects | qdrant-discovery/app.py:254-330 | over the rounds played the displayed quote stays in the seen set, the seen set only grows, and a stop comes after at least one and at most all of the rounds |
| QuoteAgent.RunAgentStops | qdrant-discovery/app.py:237-330 | `RunAgentSpec`: the agent ends without rounds exactly when the first random quote fails; a stop returns a round count of at least one |
| QuoteAgent.EmbedAll | qdrant-discovery/app.py:272-278 | the list is extended by the successful embeddings of the examples, in order |
| QuoteAgent.PickUnseen | qdrant-discovery/app.py:301-305 | the loop finds the first unseen result (`FirstUnseen`) |
| QuoteAgent.RunAgent | qdrant-discovery/app.py:223-330 | the loop's outcome is the round-by-round specification `RunAgentSpec` |
| QuoteAgent.RoundStep | qdrant-discovery/app.py:255-267 | one pass of the loop body is `PlayRound` |
| QuoteAgent.ProceedStep | qdrant-discovery/app.py:269-327 | embedding the examples and picking the next quote is `Proceed` |
| QuoteAgent.NextQuoteStep | qdrant-discovery/app.py:289-327 | the try block's new quote and seen set are those of `NextQuote` |
| LanggraphFlow.ParseOutput | langgraph-cookbook/main.py:97-101 | a dictionary reply gives its "parsed" entry when it has one and itself otherwise |
| LanggraphFlow.Generate | langgraph-cookbook/main.py:125-144 | the new generation is what the chain returns for the messages so far (None when the structured parse failed) and the iteration count grows by one; error and messages are untouched |
| LanggraphFlow.RunFrom | langgraph-cookbook/main.py:256-283 | the graph run from a state raises only the AttributeError of a generation that failed to parse |
| LanggraphFlow.ParseFailureRaises | langgraph-cookbook/main.py:160-163 | a generation that did not parse raises at `code_check`, before any further generation |
| LanggraphFlow.CodeCheck | langgraph-cookbook/main.py:147-198 | without a generation it raises; otherwise the flag is "yes" exactly when the imports or the compilation fail and "no" exactly when both succeed; "no" keeps the messages, "yes" appends exactly one assistant message |
| LanggraphFlow.ImportErrorFirst | langgraph-cookbook/main.py:167-185 | a failing import is reported whatever compilation would say: the code is compiled only after the imports ran |
| LanggraphFlow.ReflectNode | langgraph-cookbook/main.py:201-221 | appends exactly the fixed reflection message and changes nothing else |
| LanggraphFlow.DecideAsWritten | langgraph-cookbook/main.py:224-252 | `Decide`: the graph regenerates exactly after an error with fewer than three iterations, and with the switch as written it never reflects |
| LanggraphFlow.RunBounds | langgraph-cookbook/main.py:256-283 | from fewer than three iterations the run raises only because a generation asked for on the way failed to parse, and cannot raise when every generation parses; a completed run ends with a generation after one to all remaining iterations, either because `code_check` passed or because the third one failed, and the messages grow by one per failed check |
| LanggraphFlow.SolveBounds | langgraph-cookbook/main.py:290-304 | `solve_coding_question` raises only on a generation that did not parse and never when every generation parses; otherwise it makes one to three generations and returns one, the question stays the first message, and it stops before the third only when `code_check` passed |
| Evaluations.DetailsLookup | wealth-management-agent/evaluation.py:101-109 | the execution details have the results' keys in the results' order, and each entry is that result's agent, description, tools and depth |
| Evaluations.EvalMissing | wealth-management-agent/evaluation.py:75-77 | `EvalMain`: the error dictionary comes back without a run exactly when neither "query" nor "task" holds a truthy value |
| Evaluations.EvalQuery | wealth-management-agent/evaluation.py:75 | the run gets the "query" value when it is truthy and the "task" value otherwise |
| Evaluations.EvalSummary | wealth-management-agent/evaluation.py:84-111 | `EvalMain` and its `Summarize`: after a successful run the summary holds the response, the subtask and delegation counts, exactly the agents of the results, the subtasks in order with their type values, the details per task id, and the whole result |
| Evaluations.EvalFailure | wealth-management-agent/evaluation.py:112-116 | `EvalMain`: an exception from the run becomes the dictionary of its message and the prefixed response |
| WealthEvaluation.EvaluationMain | wealth-management-agent/evaluation.py:62-116 | a missing query gives "No client inquiry provided"; a failure's response is "Error processing client inquiry: " followed by its error; only an unhashable query raises (in `hash(query)`) |
| WealthEvaluation.DatasetShape | wealth-management-agent/evaluation.py:119-182 | five scenarios, each with a non-empty query and a scenario type, whose expected agents are all among the six specialists |
| LanggraphEvaluation.EvaluationMain | langgraph-cookbook/evaluation.py:69-123 | a missing query gives "No query or task provided"; a failure's response is "Error processing query: " followed by its error; only an unhashable query raises (in `hash(query)`) |
| LanggraphEvaluation.DatasetShape | langgraph-cookbook/evaluation.py:125-184 | five items, each with a non-empty query, whose expected agents are all among the six crew agents |
| Sessions.LastN | wealth-management-agent/main.py:42-43 | `s[-n:]` keeps the last n elements, or all when there are fewer, and what it drops is a prefix |
| Sessions.LastNAppend | wealth-management-agent/main.py:39-43 | trimming the window before appending and trimming again gives the window of the whole history |
| Sessions.LastNLastN | wealth-management-agent/main.py:43 | the last m of the last n >= m elements are the last m elements |
| Sessions.BlocksLength | wealth-management-agent/main.py:60-62 | each turn adds at most its labels, two 100-character cuts and the fixed endings |
| Sessions.ContextEmpty | wealth-management-agent/main.py:53-54 | `ContextSpec`: the context is empty exactly when there is no turn |
| Sessions.ContextBounded | wealth-management-agent/main.py:51-64 | `ContextSpec`: however long the history and its turns, the context stays within the header and three bounded blocks |
| Sessions.ContextRecent | wealth-management-agent/main.py:58 | `ContextSpec`: turns older than the last three do not affect the context |
| Sessions.ContextOfThree | wealth-management-agent/main.py:58-64 | `ContextSpec`: with three or more turns the context is the header and the blocks of the last three, oldest first |
| Sessions.ContextOfWindow | wealth-management-agent/main.py:42-58 | `ContextSpec`: trimming the history to the ten-turn window never changes the context |
| Sessions.TurnOf | wealth-management-agent/main.py:97-106 | the recorded turn holds the inquiry, the response, the subtask and delegation counts, and exactly the agents of the results |
| Sessions.SetPreference | wealth-management-agent/main.py:46-48 | `update({key: value})` sets that key and leaves every other key as it was |
| Sessions.SessionManager.constructor | wealth-management-agent/main.py:19-28 | a new session has the id as its conversation id, no turns, no preferences, no outcomes, no active agents and a ten-turn window |
| Sessions.SessionManager.AddTurn | wealth-management-agent/main.py:31-43 | the new turn is last, the window holds the newest ten turns ever added in order, and nothing else changes |
| Sessions.SessionManager.UpdatePreferences | wealth-management-agent/main.py:46-48 | the preferences become the old ones updated by the new, and nothing else changes |
| Sessions.SessionManager.GetRelevantContext | wealth-management-agent/main.py:51-64 | the loop builds the context string `ContextSpec` of the turns |
| WealthSession.NewSession | wealth-management-agent/main.py:16-28 | an `AdvisorySessionManager` starts empty with the advisory wording |
| WealthSession.LearnRules | wealth-management-agent/main.py:109-117 | `Learn`: later rules win: a tax term sets the interest over an ESG term, which sets it over a retirement term; a risk term alone sets the risk sensitivity; no other preference changes |
| WealthSession.ProcessInquiry | wealth-management-agent/main.py:84-119 | an orchestration failure leaves the session unchanged; otherwise exactly one turn is recorded and the keyword rules are applied to the lower-cased inquiry |
| TracingSession.NewSession | multi-agent-tracing-evals/main.py:16-28 | a `ConversationManager` starts empty with the conversation wording |
| TracingSession.LearnRules | multi-agent-tracing-evals/main.py:109-112 | `Learn`: "technical" sets the interest over "financial", and no other preference changes |
| TracingSession.ProcessQuery | multi-agent-tracing-evals/main.py:84-114 | an orchestration failure leaves the session unchanged; otherwise exactly one turn is recorded and the keyword rules are applied to the lower-cased query |
| Orchestration.ConvertSubTask | wealth-management-agent/orchestration.py:97-106 | an element that is not an object raises the TypeError of subscripting it; otherwise the first missing key among "id", "description", "type", "complexity", in that order, is the KeyError raised, and an unknown type tag the ValueError; otherwise the subtask holds the element's values, with absent list fields as [] |
| Orchestration.ConvertAll | wealth-management-agent/orchestration.py:96-106 | succeeds exactly when every element converts, giving the converted elements in order; otherwise the error of the first element that fails |
| Orchestration.FirstFailureUnique | wealth-management-agent/orchestration.py:97 | when element i is the first that fails, the loop raises exactly its error |
| Orchestration.SingletonGroups | wealth-management-agent/orchestration.py:112 | one group per subtask, the i-th holding just the i-th subtask's id |
| Orchestration.Decompose | wealth-management-agent/orchestration.py:76-113 | the post-processing loop computes `DecomposeSpec` |
| Orchestration.DecomposeFallback | wealth-management-agent/orchestration.py:76-93 | `DecomposeSpec`: a reply that is not JSON gives exactly one subtask: "task_1", the query, type "general", complexity 3, no dependencies, the fallback tools and capabilities; order and groups are just "task_1" |
| Orchestration.DecomposeParsed | wealth-management-agent/orchestration.py:95-113 | `DecomposeSpec`: a parsed reply that is not an object raises TypeError and one without "subtasks" KeyError; on success the query is kept, the subtasks keep their order and count, the order is the reply's and absent groups become one singleton per subtask; a failing element or a missing "execution_order" raises |
| Orchestration.ScoreMap | wealth-management-agent/orchestration.py:133-138 | succeeds exactly when every candidate is in the pool, scoring exactly the candidates by their capability score; otherwise the KeyError of the first missing one |
| Orchestration.FirstMissingUnique | wealth-management-agent/orchestration.py:135-136 | the scoring loop raises for exactly the first candidate missing from the pool |
| Orchestration.FirstMax | wealth-management-agent/orchestration.py:159 | `max` with a key returns the first candidate with the highest score |
| Orchestration.ScoreCandidates | wealth-management-agent/orchestration.py:133-138 | the scoring loop computes `ScoreMap` |
| Orchestration.SelectAgent | wealth-management-agent/orchestration.py:127-165 | the router's selection computes `SelectSpec`: the scores first, then a reply that is JSON but not an object raises TypeError, a usable reply names the agent, and otherwise the first best score wins |
| Orchestration.SelectFallback | wealth-management-agent/orchestration.py:154-163 | `SelectSpec`, through its `Decide`: without a usable reply (not JSON, or an object missing "agent" or "confidence") the choice is the pool agent of the first candidate with the highest capability score, at that score; with no candidates `max` raises ValueError; the candidates default to every pool name |
| Orchestration.SelectNotObject | wealth-management-agent/orchestration.py:154-158 | `SelectSpec`: a selection reply that is JSON but not an object raises the TypeError of subscripting it: `except` catches only decoding errors and KeyError |
| Orchestration.FirstMaxIsFirstBest | wealth-management-agent/orchestration.py:159-161 | the first maximum of the scores is the first best pool agent |
| Orchestration.SelectUnknownAgent | wealth-management-agent/orchestration.py:154-165 | `SelectSpec`, through its `Decide`: a usable reply gives its named agent at its confidence, or KeyError when that name is not in the pool |
| Orchestration.DispatchCovers | wealth-management-agent/orchestration.py:264-278 | a dispatch chain listing exactly the pool's names knows every pool agent and only those |
| Orchestration.AssignPrefix | wealth-management-agent/orchestration.py:177-183 | the assignment loop succeeds exactly when every choice so far succeeds |
| Orchestration.FirstRejectedUnique | wealth-management-agent/orchestration.py:177-178 | the loop raises exactly the error of the first subtask whose choice raises |
| Orchestration.RejectedAfterPrefix | wealth-management-agent/orchestration.py:177-178 | once the subtasks before it are assigned, a rejected subtask's error is the loop's error |
| Orchestration.AssignLoop | wealth-management-agent/orchestration.py:177-183 | the loop computes `AssignAll` |
| Orchestration.CreatePlan | wealth-management-agent/orchestration.py:168-185 | the plan computes `PlanSpec` |
| Orchestration.AssignPrefixUnique | wealth-management-agent/orchestration.py:179 | no task id is assigned twice |
| Orchestration.AssignPrefixHasKey | wealth-management-agent/orchestration.py:179 | exactly the ids of the subtasks seen so far are assigned |
| Orchestration.AssignPrefixLast | wealth-management-agent/orchestration.py:179-183 | the assignment under an id holds the last subtask with that id (a later write wins) |
| Orchestration.AssignPrefixStep | wealth-management-agent/orchestration.py:178-183 | one more subtask puts its own assignment under its id and leaves every other id as it was |
| Orchestration.PlanShape | wealth-management-agent/orchestration.py:168-185 | `PlanSpec`, each subtask assigned by `Choose`: the plan copies the groups, has no delegation paths, and has one assignment per subtask id, holding a subtask with that id |
| Execution.DecisionFrom | wealth-management-agent/orchestration.py:222-233 | a decision is taken from the given agent, for the given task, and only with a truthy target |
| Execution.DecisionFromCases | wealth-management-agent/orchestration.py:222-233 | no delegation exactly when "should_delegate" is falsy, or truthy with a falsy "to_agent"; a decision exactly when both are truthy and "reason" and "confidence" are present, holding the reply's values; otherwise the KeyError of the missing key (a TypeError for a non-object reply) |
| Execution.EvaluateSpec | wealth-management-agent/orchestration.py:200-233 | at or beyond the maximum depth nothing is delegated (and the model is not asked); a decision is only taken below it, from the agent, for the task, with a truthy target |
| Execution.EvaluateUnparsable | wealth-management-agent/orchestration.py:214-219 | a reply that is not JSON never delegates and never raises |
| Execution.DelegationManager.constructor | wealth-management-agent/orchestration.py:194-196 | a new manager has the given maximum depth and an empty history |
| Execution.DelegationManager.Evaluate | wealth-management-agent/orchestration.py:200-233 | returns `EvaluateSpec`'s decision and appends exactly the decisions to delegate to the history |
| Execution.RunSpec | wealth-management-agent/orchestration.py:264-289 | a name outside the dispatch chain raises "Unknown specialist type: "; a known one fails exactly when its run fails, and otherwise gives the record of the agent's name, the task's id, description and tools, the result and the depth |
| Execution.CoordinateBounds | wealth-management-agent/orchestration.py:247-289 | `CoordinateSpec`: delegation is bounded: at most one decision per level below the maximum depth, all for the task; the record describes that task and its depth lies between the starting depth and the maximum, counting the delegations followed |
| Execution.CoordinateAgent | wealth-management-agent/orchestration.py:247-289 | `CoordinateSpec`: a completed coordination was run by a registered, dispatchable agent that is the one requested or the target of a decision taken |
| Execution.RanByDelegate | wealth-management-agent/orchestration.py:259-262 | whoever ran the task for the delegate ran it for the delegating agent |
| Execution.CoordinateSafe | wealth-management-agent/orchestration.py:247-289 | `CoordinateSpec`: from a registered name, with every registered name dispatchable and well-formed delegation replies, coordination fails only when an agent's run fails |
| Execution.InPoolDispatched | wealth-management-agent/orchestration.py:251-278 | a registered name is dispatchable when every registered name is |
| Execution.KeyInPool | wealth-management-agent/orchestration.py:259 | a target among the registry's keys is in the pool |
| Execution.CoordinateKnown | wealth-management-agent/orchestration.py:247-289 | `CoordinateSpec`: when the dispatch chain lists exactly the pool's names, coordination from any of them completes under well-formed replies and completing runs |
| Execution.Executor.constructor | wealth-management-agent/orchestration.py:242-245 | the executor keeps the pool and the shared delegation manager |
| Execution.Executor.Coordinate | wealth-management-agent/orchestration.py:247-289 | returns `CoordinateSpec`'s outcome, and the history grows by exactly the decisions taken on the way, which stay even when it raises |
| Execution.Executor.Proceed | wealth-management-agent/orchestration.py:259-289 | after the delegation check it does what `AfterEvaluation` says and records its decisions |
| Execution.Executor.Execute | wealth-management-agent/orchestration.py:264-289 | the if/elif chain and the agent's run give `RunSpec`'s record |
| Workflow.RunIdsNext | wealth-management-agent/orchestration.py:351-360 | one more id runs its step, writes its result under its id (or raises) and appends its decisions |
| Workflow.RunIdsStops | wealth-management-agent/orchestration.py:348-360 | once a step raises, running more ids changes nothing |
| Workflow.RunIdsOk | wealth-management-agent/orchestration.py:348-362 | the plan run completes exactly when every id's step completes |
| Workflow.RunIdsFirstError | wealth-management-agent/orchestration.py:348-360 | the first id whose step raises gives the run's exception |
| Workflow.RunIdsResults | wealth-management-agent/orchestration.py:346-362 | a completed run holds exactly one result per id executed, and the result under an id is that id's own step result |
| Workflow.RunIdsDecisions | wealth-management-agent/orchestration.py:348-360 | with at most b decisions per step, the run appends at most b per id |
| Workflow.StepBounds | wealth-management-agent/orchestration.py:352-359 | a completed step needed the id's assignment, ran that assignment's task, and appended at most one decision per level below the maximum depth |
| Workflow.Describe | wealth-management-agent/orchestration.py:375 | `next(...)` without a subtask of that id raises StopIteration |
| Workflow.DescribeFirst | wealth-management-agent/orchestration.py:375 | a description is found exactly when some subtask has the id, and it is the first such subtask's |
| Workflow.SectionsOk | wealth-management-agent/orchestration.py:374-378 | the sections exist exactly when every result renders |
| Workflow.SectionsHold | wealth-management-agent/orchestration.py:374-378 | every result's section occurs in the body |
| Workflow.SectionsStop | wealth-management-agent/orchestration.py:374-375 | a rendering that raises on some results raises the same for all of them |
| Workflow.PromptOk | wealth-management-agent/orchestration.py:368-389 | the synthesis prompt exists exactly when every result's id is some subtask's id |
| Workflow.PromptContents | wealth-management-agent/orchestration.py:368-389 | the prompt opens with the fixed text and the query, holds each result's section with its subtask's description, agent and result, and ends with the fixed closing |
| Workflow.Synthesize | wealth-management-agent/orchestration.py:365-398 | the synthesis loop and the model call compute `SynthesizeSpec` |
| Workflow.WorkflowSynthesisTotal | wealth-management-agent/orchestration.py:329-332 | `WorkflowSpec`, over `ExecuteSpec` and `SynthesizeSpec`: within the workflow synthesis never raises: every executed id had an assignment and the plan assigns exactly the subtasks' ids |
| Workflow.WorkflowRecords | wealth-management-agent/orchestration.py:313-341 | `WorkflowSpec`: in a completed workflow each result sits under the id of the subtask it ran and describes it, its delegation depth is within the maximum, and the history grows by at most the maximum depth per executed id |
| Workflow.Orchestrator.constructor | wealth-management-agent/orchestration.py:296-311 | one delegation manager with the default maximum depth 5 and an empty history, shared with the executor |
| Workflow.Orchestrator.ExecutePlan | wealth-management-agent/orchestration.py:343-362 | the loop over the groups returns `ExecuteSpec`'s results and appends exactly its decisions to the history |
| Workflow.Orchestrator.RunGroup | wealth-management-agent/orchestration.py:351-360 | the loop over a group's ids continues the run over those ids |
| Workflow.Orchestrator.RunTask | wealth-management-agent/orchestration.py:352-359 | one id: its assignment (KeyError without one), coordinated from depth 0 |
| Workflow.Orchestrator.Orchestrate | wealth-management-agent/orchestration.py:313-341 | analysis, planning, execution and synthesis compute `WorkflowSpec`; the history grows by exactly the decisions taken, which stay when a later stage raises |
| Agents.CapabilityMap | wealth-management-agent/agents.py:20 | the map is keyed by exactly the declared capability names, each key holding a declared capability of that name, and the last one declared under a name wins |
| Agents.FilterTools | wealth-management-agent/agents.py:21 | exactly the listed tools that are registered are kept, and a list of registered tools is kept whole |
| Agents.FilterToolsAppend | wealth-management-agent/agents.py:21 | filtering keeps the listed order: it distributes over concatenation |
| Agents.MakeAgent | wealth-management-agent/agents.py:17-31 | the agent has its name and role, exactly the declared capability names, and exactly the listed tools that are registered |
| Agents.Instances | wealth-management-agent/orchestration.py:124 | one agent per registered class, under that class's key, in registry order |
| Agents.InstancesKeys | wealth-management-agent/orchestration.py:124 | the pool has the registry's keys in the registry's order |
| Agents.CapabilityScore | wealth-management-agent/agents.py:33-43 | the accumulating loop computes `Score`: 0.5 for no requirement, else the matched proficiencies summed over the requirements and divided by their number |
| Agents.CapabilityMapInUnit | wealth-management-agent/agents.py:20 | declared proficiencies in [0, 1] stay in [0, 1] once keyed by name |
| Agents.MatchedTotalBounds | wealth-management-agent/agents.py:38-41 | with proficiencies in [0, 1] the total lies between 0 and the number of requirements |
| Agents.ScoreInUnit | wealth-management-agent/agents.py:33-43 | with proficiencies in [0, 1] every score is in [0, 1] |
| Agents.InstancesScoresInUnit | wealth-management-agent/orchestration.py:124 | when every class declares proficiencies in [0, 1], every pool agent's score is in [0, 1] |
| Agents.MatchedTotalNone | wealth-management-agent/agents.py:38-41 | no matched requirement gives a total of 0 |
| Agents.ScoreNoMatch | wealth-management-agent/agents.py:35-43 | an agent with none of the required capabilities scores 0, or 0.5 when nothing is required |
| Agents.MatchedTotalAll | wealth-management-agent/agents.py:38-41 | requirements all matched at proficiency p total p times their number |
| Agents.ScoreUniform | wealth-management-agent/agents.py:33-43 | when every requirement is matched at proficiency p the score is p |
| WealthAgents.DeclaredToolsRegistered | wealth-management-agent/agents.py:61 | every tool a specialist asks for (lines 61, 101, 141, 181, 221, 261) is in the tool registry |
| WealthAgents.Instantiate | wealth-management-agent/agents.py:48-64 | an instance carries its class's name and, since none is filtered out, exactly the tools the class lists |
| WealthAgents.InstanceInUnit | wealth-management-agent/agents.py:55-60 | every specialist's proficiencies are in [0, 1], so every capability score it gives is too |
| WealthAgents.RegistryConsistent | wealth-management-agent/agents.py:289-296 | the agent registry has the six names in declaration order, each bound to the class that names itself so |
| WealthAgents.PoolConsistent | wealth-management-agent/orchestration.py:124 | the router's pool has the registry's keys in order, each instance named by its key |
| WealthRegistry.FromValue | wealth-management-agent/registry.py:17-24 | a recognised value yields the member with that value; any other string raises ValueError |
| WealthRegistry.TaskTypeValuesExact | wealth-management-agent/registry.py:17-24 | there are seven distinct values, construction succeeds exactly on them, and every member round-trips through its value |
| WealthRegistry.MarketDataSearch | wealth-management-agent/registry.py:70-97 | a failed request yields the error text instead of raising; a successful one lists at most the first six organic results under the query's header |
| WealthRegistry.FinancialCalculator | wealth-management-agent/registry.py:118-136 | an expression of 100 or more characters, or containing `import`, `exec` or `__`, is never evaluated and reports the calculation disabled; an allowed one reports its value, or the canned projection for the expression when evaluating it raises |
| WealthRegistry.PolicyQuery | wealth-management-agent/registry.py:214-218 | a dict argument becomes its truthy `description`, else its truthy `query`, else its own rendering; any other argument is rendered with `str` |
| WealthRegistry.PortfolioEchoes | wealth-management-agent/registry.py:99-116 | the simulated portfolio report echoes its query right after the fixed prefix, and the rest of it is fixed |
| WealthRegistry.PolicyEchoes | wealth-management-agent/registry.py:139-158 | the simulated policy documents echo their query right after the fixed prefix, and the rest of them is fixed |
| WealthRegistry.AnalyticsEchoes | wealth-management-agent/registry.py:160-181 | the simulated analytics report echoes its parameters right after the fixed prefix, and the rest of it is fixed |
| WealthRegistry.PolicyQueryOfString | wealth-management-agent/registry.py:214-218 | a plain-string argument reaches the policy retriever unchanged |
| WealthRegistry.RegisteredToolNamesAreKeys | wealth-management-agent/registry.py:230-235 | the set of names `t in TOOL_REGISTRY` accepts is exactly the registry's key set |
| WealthRegistry.ToolRegistryConsistent | wealth-management-agent/registry.py:230-235 | five tools under distinct keys in declaration order, each registered under its own name |
| SearchTools.ResultLine | wealth-management-agent/registry.py:89-93 | every result line starts with the bullet, whichever of title, snippet and link the result lacks |
| SearchTools.ResultLines | wealth-management-agent/registry.py:89-93 | one line per kept result |
| SearchTools.FormatSearch | crewai-multi-agent-cookbook/registry.py:69-96 | a failed request yields the error prefix and the error; a successful one gives the header and the lines of at most the first six organic results |
| SearchTools.ResultLinesEqual | wealth-management-agent/registry.py:88-93 | the accumulating loop's lines are exactly one formatted line per result, in result order |
| SearchTools.ResultsBodyEmpty | wealth-management-agent/registry.py:95 | the body is "No results found." exactly when no result was kept, since a joined non-empty list of bullet lines is never empty |
| SearchTools.JoinNonEmpty | wealth-management-agent/registry.py:95 | joining a non-empty list whose first line is non-empty gives a result starting with that line's first character |
| CrewRegistry.FromValue | crewai-multi-agent-cookbook/registry.py:16-23 | a recognised value yields the member with that value; any other string raises ValueError |
| CrewRegistry.TaskTypeValuesExact | crewai-multi-agent-cookbook/registry.py:16-23 | there are seven distinct values, construction succeeds exactly on them, and every member round-trips through its value |
| CrewRegistry.SearchWeb | crewai-multi-agent-cookbook/registry.py:69-96 | a failed request yields "SerpAPI error: " and the error; a successful one lists at most the first six organic results under the query's header |
| CrewRegistry.CodeExecutor | crewai-multi-agent-cookbook/registry.py:104-112 | a code string of 100 or more characters, or containing `import`, `exec` or `__`, is never evaluated and reports execution disabled; an allowed one reports its value, or the error its evaluation raised |
| CrewRegistry.StubsEcho | crewai-multi-agent-cookbook/registry.py:98-123 | each simulated database, document and financial-analysis reply starts with its fixed prefix and the argument, and ends with its fixed text |
| CrewRegistry.RegisteredToolNamesAreKeys | crewai-multi-agent-cookbook/registry.py:161-167 | the set of names `t in TOOL_REGISTRY` accepts is exactly the registry's key set |
| CrewRegistry.ToolRegistryConsistent | crewai-multi-agent-cookbook/registry.py:161-167 | five tools under distinct keys in declaration order, each registered under its own name |
| CrewAgents.DeclaredToolsRegistered | crewai-multi-agent-cookbook/agents.py:57 | every tool a specialist asks for (lines 57, 94, 131, 168, 205, 242) is in the tool registry |
| CrewAgents.Instantiate | crewai-multi-agent-cookbook/agents.py:46-60 | an instance carries its class's name and, since none is filtered out, exactly the tools the class lists |
| CrewAgents.InstanceInUnit | crewai-multi-agent-cookbook/agents.py:51-56 | every specialist's proficiencies are in [0, 1], so every capability score it gives is too |
| CrewAgents.RegistryConsistent | crewai-multi-agent-cookbook/agents.py:269-276 | the agent registry has the six names in declaration order, each bound to the class that names itself so |
| CrewAgents.PoolConsistent | crewai-multi-agent-cookbook/orchestration.py:116 | the router's pool has the registry's keys in order, each instance named by its key |
| WealthOrchestration.DispatchMatchesPool | wealth-management-agent/orchestration.py:124 | the pool's keys are exactly the names the executor's dispatch chain (lines 264-278) knows, and each pool agent is named by its key |
| WealthOrchestration.FallbackDecomposition | wealth-management-agent/orchestration.py:76-92 | an unparsable analysis reply gives one general subtask `task_1` on the whole inquiry, priority 3, market-data tools and market-research capability, run alone |
| WealthOrchestration.CoordinationCompletes | wealth-management-agent/orchestration.py:247-289 | from any known specialist, with well-formed delegation replies and runs that complete, coordination never reaches the unknown-specialist error |
| CrewOrchestration.DispatchMatchesPool | crewai-multi-agent-cookbook/orchestration.py:116 | the pool's keys are exactly the names the executor's dispatch chain (lines 258-271) knows, and each pool agent is named by its key |
| CrewOrchestration.FallbackDecomposition | crewai-multi-agent-cookbook/orchestration.py:68-84 | an unparsable decomposition reply gives one general subtask `task_1` on the whole query, priority 3, the web-search tool and web-research capability, run alone |
| CrewOrchestration.CoordinationCompletes | crewai-multi-agent-cookbook/orchestration.py:239-282 | from any known agent, with well-formed delegation replies and runs that complete, coordination never reaches the unknown-agent error |

## Left out

- Model, embedding, vector-store, agent-framework and REST calls are not executed. Each is an input: a reply, an error, or a function the model is given.
- HoneyHive tracing (`@trace`, `enrich_span`, `enrich_session`, tracer initialisation) is left out because it has no effect the logic can observe.
- Console output and logging (`print`, `logger`) are left out.
- File I/O is left out. The file read, the pickle save and load of the session managers, and the writing of results files are inputs: the file's lines or records.
- Clocks, random numbers and `hash` session ids are parameters: `datetime.now()` timestamps, `random.randint` quote ids, and the `datetime.now()` start and end times of a completion, together with the latency and tokens per second derived from them.
- The zero-duration division in the tokens-per-second figure is left out along with the timing.
- `eval` and `exec` are left out. The calculator and code tools model only the guard in front of `eval`, and the LangGraph import and compile checks are inputs.
- SearchTools.SearchOutcome: the SerpAPI body is assumed to be an object whose "organic_results" is absent or a list of objects. `data.get(...)` and `res.get(...)` run outside the `try` (wealth-management-agent/registry.py:90-93, crewai-multi-agent-cookbook/registry.py:89-92), so a body that is not an object or a result that is not an object raises AttributeError, and a null "organic_results" raises TypeError. The model cannot express these bodies, so `SearchTools.FormatSearch`, `WealthRegistry.MarketDataSearch` and `CrewRegistry.SearchWeb` never raise.
- Orchestration.SelectSpec: a selection reply that is an object is assumed to hold a string "agent" and a number "confidence" when it holds them at all. The reply type has no room for a JSON `null` under either key. Python would return the named agent with confidence None for a null "confidence", and would raise KeyError at the pool lookup for a null "agent" (wealth-management-agent/orchestration.py:165); neither falls back to the capability scores. An "agent" that is a list or an object, whose lookup raises TypeError (unhashable), is not modelled.
- PyValue.Repr (and so `PyValue.PyStr`): Python's `repr` is simplified in three ways. A string is always single-quoted and never escaped, where Python switches to double quotes for a string holding a single quote and escapes backslashes, newlines and non-printable characters. A float is always written positionally, where Python uses exponent form outside 1e-4 to 1e16 (`1e+16`, `1e-05`). A datetime is written `datetime(<iso>)`, where Python writes `datetime.datetime(2024, 1, 2, 3, 4, 5)`. This reaches every rendering of a non-string value: ModelCompletion.ReplaceVariables, SearchTools.ResultLine, the WealthRegistry tools and PutnamGrading.PromptFor.
- Default arguments are constants that callers pass explicitly: `QdrantIntegration.DefaultBatchSize` (10) and `QdrantIntegration.DefaultTopK` (3).
- Floating point is modelled as exact reals. This covers proficiencies, confidences, scores and averages. Number formatting (`:.2f`, `:.4f`) is not modelled, and only the values behind it are.
- `Text.Lower` follows Python's `lower` on ASCII letters only; other letters are left as they are. `Text.Strip` uses Python's full `isspace` set.
- PutnamGrading.ExtractRating (and so PutnamGrading.RatingOfVerdict, PutnamSonnet.ResponseQuality, PutnamSonnet.ThinkingProcess and PutnamAsync.ResponseQuality): `int(match.group(1))` raises ValueError on Python 3.11 and later (and 3.10.7 and later) for a digit run longer than 4300 digits, the default integer-string conversion limit. The model reads a digit run of any length, so that raise is not modelled.
- PutnamGrading.SkipDigits: `\d` in a Python `str` pattern also matches non-ASCII decimal digits (such as Arabic-Indic digits). The model's `\d` matches `0`-`9` only, so a rating written in other digits is not read.
- ModelCompletion.ReplaceVariables: the replacement string goes through `re.sub` as a template in the source. The model substitutes it literally, so backslash escapes in a value, and the `re.error` they can raise, are not modelled.
- QuoteAgent.RunAgent: the console loop of `run_agent` runs until the user quits or nothing is left. The model runs it over a supplied sequence of rounds, each holding the already-stripped console line.
- QuoteRetrieval.ExcludeFilter: the ids to exclude are a set, so only membership is modelled, not the order Python iterates them in.
- The in-place mutation of lists and dictionaries passed between objects is modelled by value. For example, the delegation history the router shares with the delegation manager is not aliased in the model.
- ExportDataset and DatasetCleanup: an id list that is not a list raises TypeError in the model. Python raises too for most such values, but it would slice a string id list into 10-character batches. LoadEvents: a REST body that is not a list is not distinguished.
- Orchestration.ConvertSubTask, Orchestration.DecomposeSpec and Orchestration.SelectSpec: a reply or subtask element that is JSON but not an object raises TypeError, with one fixed message; Python's message names the value's type. A "subtasks" value that is not a list of elements is not modelled.
- Orchestration.ConvertSubTask, Orchestration.DecomposeSpec and Orchestration.DecomposeParsed: the fields of a subtask and the reply's "parallel_groups" are typed, so a JSON `null` under a key reads as an absent key and a value of the wrong JSON type cannot be expressed. Python differs in three ways. A `"required_tools": null` keeps None, so `tools_used` at wealth-management-agent/orchestration.py:285 is None where the model gives `[]`. A `"parallel_groups": null` keeps None at orchestration.py:112, and iterating it at orchestration.py:348 raises TypeError. A non-string "type" such as 3 makes `TaskType(3)` raise ValueError.
- Wrappers.PyError.Str: a KeyError's key is always a string and always rendered quoted. The int key 0 that `ModelCompletion.GroundTruthLabel` and `ModelCompletion.SessionRequestOf` look up in a dictionary renders as `0` in Python, not `'0'`.
- The prompts sent to the models are left out, because no logic depends on their exact text. This covers the judge prompts, the routing descriptions, the analysis context (the last three turns as JSON), and the RAG prompting in `answer_query` and `rag_pipeline`.
- The synthesis prompts are modelled.
- Capability descriptions are not modelled, because no logic reads them.
- Assistant message contents and runner event parts are taken to be strings.
- `create_agents`, `create_tasks` and `run_crew` in crewai-cookbook/evaluate_crew_results.py are left out. They only build SDK arguments.
- Agents.ScoreInUnit: the range bound is stated per agent under its declared proficiencies, not as one bound over every pool.
- DatasetCleanup.KeptSpec: states membership and length of the kept datapoints, not their order. `DatasetCleanup.FilterValid` is tied to the order-preserving function `Kept`.
- UploadDataset.ConvertFileToJson: a .json file holding `null` gives the JSON value `null`, kept apart from the `None` of a failed conversion. `UploadDataset.UploadDatasetFromFile` treats both as Python's `None`.
- An agent name missing from `AGENT_REGISTRY` makes the source raise `KeyError` when it builds the router pool. The model's pool is built from the registry itself, so no such name arises.

## Findings

| source | as written | input that shows it | evidently intended | confidence | as-written member | corrected member |
|---|---|---|---|---|---|---|
| dataset_cleanup.py:26 | the main block calls `get_datapoints_from_ids(project, datapoint_ids)`, but datasets/export_dataset.py:40 defines it with the id list as its only parameter | any dataset name that is found | call it with the id list alone, then filter the fetched datapoints with `validate_datapoint` | not executed | DatasetCleanup.AsWrittenRaisesWhenFound | DatasetCleanup.CleanupDataset |
