# A Dafny model of the news search and question-answering platform

The platform answers questions about news articles. It has four parts, and this project models the logic at the core of each.

- **Ingestion** (Python). The refinery fetches daily articles from the KINDS news API page by page. It then reshapes the rows: field transforms, splitting strings into arrays, chunking text into sentences, exploding arrays, numbering and adding columns. The indexer turns a YAML configuration into an OpenSearch index template and assembles one document per record. Documents are uploaded in batches, with their vectors filled in by an embedding service. A run is either WHOLE (a fresh index) or INCREMENTAL (delete by dedup values, then re-upload with refresh switched off).
- **Search service** (Go). It builds the OpenSearch query: text (should/filter, must_not, relevance or harmonic scoring), vector (k-NN) or function-score. It then adds range filters and reads the hits back. Several searches are fused by reciprocal-rank fusion or flattened for a reranker. A reranker timeout falls back to the unreranked top results.
- **Conversation service** (Go). It orchestrates the LLM: choosing a model with fallback over providers and keys, the search function the model calls, merging article chunks, and repairing function arguments that are not valid UTF-8. It also renders function definitions into prompt text, and implements the chat clients in `pkg/chat`. Those are the OpenAI-compatible GPT client with its streaming reader, the legacy client, PaLM, and forwarded headers.
- **Backend** (Go). It keeps the QA records: an event consumer turns events into QA updates and merges them per id. The backend relays the completion stream as server-sent events, assembles the chat history in front of a new question, computes usage statistics, checks the handlers' query parameters and builds the database DSNs.

Each source file or area is one module:

| module | file | area |
|---|---|---|
| IndexConfig, ListHelper, IndexTemplate, IndexDocuments, IndexRun, Indexer, IndexUploader, PyJson | indexconfig, listhelper, template, documents, indexrun, indexer, uploader, pyjson | indexer |
| Refinery, FunctionBlock, Fetcher | refinery, functionblock, fetcher | refinery |
| TextQuery, VectorQuery, FunctionScore, OpenSearchQuery, Searcher, Rrf, FlattenReranker, SearchService, GoValue | textquery, vectorquery, functionscore, osquery, searcher, rrf, flatten, searchsvc, govalue | search service |
| ConvSearch, MergeChunks, FunctionService, TokenCounter, ConvCompletion, Utf8Repair, LlmClient | convsearch, mergechunks, function, converter, completion, utf8, llmclient | conversation |
| GptModel, GptStream, GptRequest, ChatV2, Palm, LegacyModel, LegacyChat, LineReader | gptmodel, gptstream, gptrequest, chatv2, palm, legacymodel, legacychat, linereader | chat clients |
| BackendModel, BackendCompletion, SseRequest, SseResponse, EventModel, EventQuery, Calendar, StrOrder, StatPeriod, Statistics, KeywordTrends, StatReport, QAHandler, StatHandler, CompletionService, BackendDb | reference, backendcompletion, sserequest, sseresponse, eventmodel, eventquery, calendar, strorder, statperiod, statistics, keywordtrends, statreport, qahandler, stathandler, completionsvc, dsn | backend |
| Common | common | shared helpers: results, options, splitting, joining, trimming, integer parsing |

How the model is built:

- Code that changes state step by step is modelled imperatively, in the source's own form:
  - classes with `modifies` clauses, such as the indexer, the uploader's cluster, the refinery's table, the stream readers and the merged responses;
  - loops with invariants;
  - the in-place reversal of the message history on an array.
- Each such method is proved against a specification function. Lemmas then state what the source promises about that function.
- Pure code is modelled as functions.
- I/O is a parameter of the model: the network, the database, the message broker, JSON and YAML codecs, the clock, UUIDs and tokenizers.
- Go map iteration order and goroutine completion order are parameters too. Properties are proved for every order.
- Integers are unbounded except where the source truncates. The one truncation modelled is the search size, widened and then converted to `int32` (`GoValue.Int32`).

Where the code and its description or tests disagree, the model follows the code:

- pkg/chat/v2/palm/palm_test.go:313 expects "chat messages are required", while pkg/chat/v2/palm/palm.go reports "messages is required". The model uses the code's message.
- conversation/service/function/search_test.go:233 expects the aggregator "flatten_reranker", while conversation/service/function/search.go:146 emits "rrf". The model emits "rrf".
- backend/service/completion.go:77 calls `ListChatQAsLimit`, which the chat service does not define. The listed QAs are a parameter of `CompletionService.MessagesMulti`, at most `MultiHistoryLimit` (5) of them, latest first.
- conversation/service/completion.go:512-518 fills `Topk`, `MaxChunkSize` and `MaxChunkNumber` fields of `ExtraArgs`, which conversation/service/function/function.go:18-21 does not declare. The model keeps the two declared fields.
- backend/consumer/event/model.go:54-56 repeats the empty-qa-id check of line 45. The repeat can never fire, and the model has a single check.

## Model

| member | source | states |
|---|---|---|
| ListHelper.SplitChunksPy | data_ingestion/indexer/util/list_helper.py:4-6 | a step of 0 raises ValueError and a negative step yields no chunk; for n > 0 the chunks concatenate back to the list and there are ceil(len/n) of them |
| ListHelper.FlattenSplitChunks | data_ingestion/indexer/util/list_helper.py:5-6 | concatenating the chunks gives back the list, in order |
| ListHelper.ChunkSizes | data_ingestion/indexer/util/list_helper.py:5-6 | every chunk but the last has exactly n elements; the last has between 1 and n |
| ListHelper.ChunkCount | data_ingestion/indexer/util/list_helper.py:5 | there are ceil(len/n) chunks, and none exactly when the list is empty |
| ListHelper.ChunkAt | data_ingestion/indexer/util/list_helper.py:5-6 | chunk k is the slice l[k*n : k*n+n], starting inside the list |
| IndexConfig.IndexingTypeOf | data_ingestion/indexer/config.py:9-80 | a value becomes an enum member iff it is "WHOLE" or "INCREMENTAL", and the member's value is that string |
| IndexConfig.StringToInteger | data_ingestion/indexer/config.py:95-99 | text float() cannot read (or NaN) gives 2000; an infinity, spelled out or a literal beyond the largest double, raises the uncaught OverflowError; nothing else fails |
| IndexConfig.StringToIntegerDigits | data_ingestion/indexer/config.py:95-97 | a digit string of at most fifteen digits is read as its integer value ("2000" gives 2000) |
| IndexConfig.StringToIntegerDecimal | data_ingestion/indexer/config.py:95-97 | a decimal literal "I.F" of at most fifteen digits is truncated to its integer part I |
| IndexConfig.ParseFloatDecimal | data_ingestion/indexer/config.py:97 | float() reads "I.F" of at most fifteen digits as the exact decimal IF x 10^-len(F) |
| IndexConfig.ParseFloatDigits | data_ingestion/indexer/config.py:97 | float() reads a digit string of at most fifteen digits as its exact value |
| IndexConfig.FifteenDigitsFinite | data_ingestion/indexer/config.py:97 | fifteen digits scaled by any negative power of ten stay below the binary64 overflow threshold |
| PyJson.Ungrouped | data_ingestion/indexer/config.py:97 | float() drops the underscores of a literal; text without one is read unchanged, and the result has none |
| PyJson.DropUnderscores | data_ingestion/indexer/config.py:97 | removing the underscores leaves no underscore, shortens nothing else, and is the identity on text without one |
| IndexConfig.ParseConf | data_ingestion/indexer/config.py:72-92 | as written: a file without batch_size raises KeyError("batch_size"); otherwise the normalisation below |
| IndexConfig.ParseConfFixed | data_ingestion/indexer/config.py:69-92 | corrected: with batch_size present it agrees with parse_conf; without it, it succeeds exactly when the indexing type is valid, and then dacite sees the 2000 default and that type; every key other than batch_size, src_file, group_id and job_id is left as read (the checked indexing type is carried as the enum in `indexingType` rather than written back into the dict) |
| IndexConfig.BatchSizeDefault | data_ingestion/indexer/config.py:69-76 | without batch_size the code as written raises, while the corrected parser yields the 2000 default |
| IndexConfig.NormaliseBatchSize | data_ingestion/indexer/config.py:76-77 | a string batch_size is replaced by its integer reading (or the OverflowError is raised); a non-string or absent one and every other key are kept |
| IndexConfig.CheckIndexingType | data_ingestion/indexer/config.py:78-84 | absent indexing_type gives WHOLE; a present one is accepted iff it is one of the two value strings, and maps to that member |
| IndexConfig.CheckAndReset | data_ingestion/indexer/config.py:78-89 | fails with the indexing-type ValueError exactly when the type is unknown; otherwise carries that type and keeps batch_size |
| IndexConfig.NormaliseConfKeeps | data_ingestion/indexer/config.py:74-89 | normalising leaves every key but batch_size, src_file, group_id and job_id as read; the source's rewrite of indexing_type to the enum is carried in `ParsedConf.indexingType` instead |
| IndexConfig.NormaliseConfAbsent | data_ingestion/indexer/config.py:74-91 | without batch_size only the indexing type can fail, and the default batch size reaches dacite |
| IndexConfig.ResetRunFields | data_ingestion/indexer/config.py:86-89 | src_file, group_id and job_id become [], "" and "" whatever the file said; every other key is unchanged |
| IndexTemplate.IndexSettings | data_ingestion/indexer/indexer.py:47 | settings["index"] must be a dict: absent gives KeyError, any other kind TypeError |
| IndexTemplate.ForcedIndexSettings | data_ingestion/indexer/indexer.py:47-64 | refresh_interval "-1", codec "best_compression", translog flush_threshold_size "2048MB", knn true only when vector fields exist; every other setting kept |
| IndexTemplate.TextMapping | data_ingestion/indexer/indexer.py:54-62 | type always; analyzer, fields and index only when truthy, so index False is dropped; no other key |
| IndexTemplate.VectorMapping | data_ingestion/indexer/indexer.py:66-70 | type "knn_vector" with the field's dimension and ANN method |
| IndexTemplate.TemplateSettings | data_ingestion/indexer/indexer.py:47-64 | the in-place settings update fails exactly when settings["index"] is unusable |
| IndexTemplate.SetEachLookup | data_ingestion/indexer/indexer.py:53-70 | after the properties[key] assignments a key holds its last assignment, or what it held before |
| IndexTemplate.PropertiesLookup | data_ingestion/indexer/indexer.py:52-70 | every declared field has its mapping, a vector field replaces a text field of the same name, undeclared names have none |
| IndexTemplate.TemplateRefreshOff | data_ingestion/indexer/indexer.py:47-76 | the template's settings are the updated settings dict, which carries refresh_interval "-1" |
| IndexTemplate.AssignEach | data_ingestion/indexer/indexer.py:53-70 | the assignment loop ends with the properties SetEach describes |
| IndexTemplate.BuildProperties | data_ingestion/indexer/indexer.py:52-70 | text fields then vector fields, as Properties |
| IndexTemplate.BuildTemplate | data_ingestion/indexer/indexer.py:44-77 | on success the config's settings are the forced settings and the template is {settings: those settings, mappings: {properties}}; on failure the config is unchanged |
| IndexDocuments.InnerKey | data_ingestion/indexer/indexer.py:20-21 | the inner key is "upstage_" followed by the name |
| IndexDocuments.Gather | data_ingestion/indexer/indexer.py:17-89 | the record lookups in listed order; the first missing key is the error raised |
| IndexDocuments.CompositeKey | data_ingestion/indexer/indexer.py:16-17 | the id is the "_"-join of the str() of each id field's value, in declared order, and fails exactly when a lookup fails |
| IndexDocuments.CompositeKeyInjective | data_ingestion/indexer/indexer.py:16-17 | with "_"-free values, two records share an id exactly when their id values print alike (identical values, identical ids) |
| IndexDocuments.JoinStrs | data_ingestion/indexer/indexer.py:89 | " ".join succeeds iff every item is a str, and then is the space-join; otherwise TypeError |
| IndexDocuments.MergeSourceFields | data_ingestion/indexer/indexer.py:79-91 | one integer source: the raw value after int() accepted it; one other source: its str(); several: the space-join in listed order; none: str(record[key]); one source on an object without `type` raises AttributeError |
| PyJson.HexRoundTrip | data_ingestion/indexer/indexer.py:17 | the fixed-width hexadecimal digits of a number that fits the width read back to that number |
| PyJson.EscapeNonPrintable | data_ingestion/indexer/indexer.py:17 | inside a repr'd string a character `str.isprintable()` rejects, other than tab, newline and carriage return, is written as \x and 2, \u and 4, or \U and 8 hexadecimal digits of its code point, by its size |
| PyJson.EscapeCharPrintable | data_ingestion/indexer/indexer.py:17 | every character of one escape is printable |
| PyJson.EscapeAllPrintable | data_ingestion/indexer/indexer.py:17 | the escaped text of a string holds no character `str.isprintable()` rejects |
| PyJson.ReprStrPrintable | data_ingestion/indexer/indexer.py:17 | repr of any string, quotes included, is printable |
| PyJson.EscapeNoBreakSpace | data_ingestion/indexer/indexer.py:86 | the no-break space U+00A0, which `str.isprintable()` rejects, is escaped as the four characters \xa0 |
| PyJson.ReprStrNoBreakSpace | data_ingestion/indexer/indexer.py:86 | repr('a\xa0b') writes the no-break space as the four characters \xa0 |
| PyJson.StrEscapesNoBreakSpace | data_ingestion/indexer/indexer.py:86 | str() of a list holding the text a, no-break space, b writes the no-break space as the four characters \xa0 inside the quoted item |
| PyJson.PyEqEquivalence | data_ingestion/indexer/indexer.py:255 | Python `==` on hashable values is reflexive, symmetric and transitive |
| PyJson.PyEqNumbers | data_ingestion/indexer/indexer.py:255 | 1, 1.0 and True are `==`, so are False, 0.0 and -0.0; "1", 1.5 and None are not `==` to the numbers |
| IndexDocuments.LoadDocs | data_ingestion/indexer/indexer.py:111-138 | one document per record, in order, each the assembled record; fails iff some record fails |
| IndexDocuments.FillTextFields | data_ingestion/indexer/indexer.py:118-120 | the text-field loop ends with TextFold's document or its first error |
| IndexDocuments.FillVectorFields | data_ingestion/indexer/indexer.py:123-132 | the vector-field loop ends with VectorFold's document or its first error |
| IndexDocuments.AssembleRecord | data_ingestion/indexer/indexer.py:114-134 | one record becomes the document AssembleDoc gives: id, text fields, vector fields, group id |
| IndexDocuments.LoadIndexDocs | data_ingestion/indexer/indexer.py:111-138 | the append loop returns LoadDocs of the records |
| IndexDocuments.LoadDocsPrefixErr | data_ingestion/indexer/indexer.py:113-136 | the first failing record's exception is the one raised |
| IndexDocuments.TextFoldKeys | data_ingestion/indexer/indexer.py:118-120 | the text loop assigns exactly the declared text field names |
| IndexDocuments.FileFieldNeedsOneSource | data_ingestion/indexer/indexer.py:127-131 | a file-embedded vector field with a source count other than 1 makes assembly raise |
| IndexDocuments.AssembledDoc | data_ingestion/indexer/indexer.py:115-134 | every assembled document carries the record's composite id and upstage_group_id = config.group_id |
| IndexDocuments.EncoderSingleSourceFails | data_ingestion/indexer/indexer.py:80-126 | as written, an encoder field with one source raises AttributeError; under the intended reading the record {id: 7, title: "hello"} becomes ("7", {vec: "hello", upstage_group_id: "g"}) |
| IndexDocuments.EncoderSingleSourceIntended | data_ingestion/indexer/indexer.py:80-126 | corrected: an encoder field with one source contributes that source's str(), as a text field does |
| IndexUploader.ActionOf | data_ingestion/indexer/index_uploader.py:67-74 | a one-key document {pid: source} becomes an "index" action with _id pid, the configured index and _source the value |
| IndexUploader.Actions | data_ingestion/indexer/index_uploader.py:64-75 | one action per document, same count, in document order |
| IndexUploader.ApplyBulkEffect | data_ingestion/indexer/index_uploader.py:76-80 | after a bulk request an id holds the source of its last accepted action; an id with no accepted action keeps what it had (refused items are only logged) |
| IndexUploader.MatchQueries | data_ingestion/indexer/index_uploader.py:129-131 | one {"match": {key: value}} clause per value, in order |
| IndexUploader.DeleteCalls | data_ingestion/indexer/index_uploader.py:133-139 | one delete_by_query per chunk, with body bool.should of the chunk and conflicts="proceed" |
| IndexUploader.RemoveMatching | data_ingestion/indexer/index_uploader.py:120-139 | a document survives iff its key field matches none of the values; survivors are unchanged |
| IndexUploader.RemoveMatchingTwice | data_ingestion/indexer/index_uploader.py:133-139 | deleting the matches of a then of b equals deleting the matches of a ∪ b, so chunking does not change the result |
| IndexUploader.ChunkedQueries | data_ingestion/indexer/index_uploader.py:129-133 | chunking the clauses is chunking the values, then building each chunk's clauses |
| IndexUploader.DeleteRequestCount | data_ingestion/indexer/index_uploader.py:133 | n values cost ceil(n / 1000) delete requests |
| IndexUploader.ElemsOfChunks | data_ingestion/indexer/index_uploader.py:133 | the chunks before and after any split point together hold exactly the values |
| IndexUploader.IterationOrder | data_ingestion/indexer/index_uploader.py:130 | iterating a set visits each element exactly once |
| IndexUploader.DeleteStep | data_ingestion/indexer/index_uploader.py:133-139 | one more delete request removes the matches of its chunk on top of the earlier ones |
| IndexUploader.BuildActions | data_ingestion/indexer/index_uploader.py:64-75 | the action loop fails its assertion iff some document does not have exactly one key, and otherwise returns Actions |
| IndexUploader.BulkUpsert | data_ingestion/indexer/index_uploader.py:76-80 | the cluster's item-by-item processing ends with ApplyBulk |
| IndexUploader.SendDeletes | data_ingestion/indexer/index_uploader.py:133-139 | the delete loop sends DeleteCalls of the chunked clauses and leaves RemoveMatching of all the values |
| IndexUploader.IndexUploader.constructor | data_ingestion/indexer/index_uploader.py:17-41 | the uploader holds the config's index name and the template; no request has been sent |
| IndexUploader.IndexUploader.IsIndexExists | data_ingestion/indexer/index_uploader.py:43-44 | answers whether the index exists |
| IndexUploader.IndexUploader.CreateIndexIfNotExists | data_ingestion/indexer/index_uploader.py:50-53 | afterwards the index exists; an existing index is left alone and nothing is sent; otherwise one create request with the template, an empty index and the template's refresh interval |
| IndexUploader.IndexUploader.CreateIndex | data_ingestion/indexer/index_uploader.py:55-59 | raises LookupError "Index '<name>' already exists" iff the index exists, changing nothing; otherwise creates it as above |
| IndexUploader.IndexUploader.UploadIndex | data_ingestion/indexer/index_uploader.py:62-80 | AssertionError iff some document is not a one-key dict, with nothing sent; otherwise one bulk call of Actions with chunk_size = batch_size and the documents upserted per ApplyBulk |
| IndexUploader.IndexUploader.RefreshIndices | data_ingestion/indexer/index_uploader.py:83-84 | appends one refresh request for the index and changes nothing else |
| IndexUploader.IndexUploader.SetRefreshInterval | data_ingestion/indexer/index_uploader.py:86-92 | the interval becomes v and exactly {"index": {"refresh_interval": v}} is sent |
| IndexUploader.IndexUploader.DeleteDocumentsByObjs | data_ingestion/indexer/index_uploader.py:120-139 | an empty set sends nothing; otherwise some order of the values, each once, is sent in chunks of at most 1000 clauses; the index keeps exactly the documents matching none of the values |
| IndexRun.AsDicts | data_ingestion/indexer/indexer.py:153-173 | each document is the one-key dict {doc_id: fields} that upload_index asserts |
| IndexRun.Ids | data_ingestion/indexer/indexer.py:202 | the pid of each document, in order |
| IndexRun.FieldValues | data_ingestion/indexer/indexer.py:192-195 | the key's value of every document in order, or KeyError(key) iff some document lacks it |
| IndexRun.FieldVectors | data_ingestion/indexer/indexer.py:189-198 | a file field yields the stored values; a field with neither encoder nor file raises "embedding_method is not defined for <key>" |
| IndexRun.WriteBack | data_ingestion/indexer/indexer.py:201-203 | document j gets vector j and keeps its id; fewer vectors than documents raises IndexError, after the earlier writes |
| IndexRun.VectorPass | data_ingestion/indexer/indexer.py:186-203 | the vector loop keeps every document and id in place |
| IndexRun.Flush | data_ingestion/indexer/indexer.py:183-207 | without an exception the batch is left empty; with one nothing is uploaded |
| IndexRun.SetAddDistinct | data_ingestion/indexer/indexer.py:255 | Python `set.add` keeps the set free of `==`-equal members, leaves the added value `==` to a member, and grows the set by at most that value |
| IndexRun.DedupFrom | data_ingestion/indexer/indexer.py:252-255 | the loop from document i on succeeds exactly when every later document holds a hashable value under the field |
| IndexRun.DedupValues | data_ingestion/indexer/indexer.py:251-255 | the set is built exactly when every document holds a hashable dedup-field value; otherwise the first document without the field raises KeyError and the first unhashable value TypeError |
| IndexRun.ClassRepresented | data_ingestion/indexer/indexer.py:252-255 | a value `==` to one of the first n documents' values is `==` to a value kept from those documents |
| IndexRun.FirstValuesStep | data_ingestion/indexer/indexer.py:252-255 | adding document n's value to the values kept from the first n documents gives those kept from the first n+1 |
| IndexRun.DedupFromFirstValues | data_ingestion/indexer/indexer.py:252-255 | the loop started on the values kept from a prefix ends with the values kept from all the documents |
| IndexRun.DedupValuesFirst | data_ingestion/indexer/indexer.py:251-255 | the set holds, of each class of `==`-equal dedup values (1, 1.0 and True are one class), the value of the first document in that class |
| IndexRun.DedupValuesMeaning | data_ingestion/indexer/indexer.py:251-255 | every member is some document's value and the first of its class, no two members are `==`, and every document's value is `==` to a member |
| IndexRun.StreamStep | data_ingestion/indexer/indexer.py:150-178 | one record appends its document and flushes exactly when (idx + 1) % batch_size == 0 |
| IndexRun.StreamFill | data_ingestion/indexer/indexer.py:173-178 | within a chunk the buffer grows until the chunk's last record triggers the flush |
| IndexRun.ChunksFrom | data_ingestion/indexer/util/list_helper.py:4-6 | the chunks from a boundary are the chunk ending at min(i0 + n, end) followed by the rest |
| IndexRun.StreamFrom | data_ingestion/indexer/indexer.py:148-181 | from a chunk boundary, streaming is flushing the chunks of the remaining documents |
| IndexRun.StreamIsChunked | data_ingestion/indexer/indexer.py:148-181 | `_process_index_docs` uploads the batches `_split_chunks` gives for abs(batch_size): Python's % takes the divisor's sign, so a negative size flushes like its absolute value |
| IndexRun.StreamMatchesBatch | data_ingestion/indexer/indexer.py:140-181 | for a positive batch size the WHOLE run's streaming and the INCREMENTAL run's `_process_index_batch` send the same requests |
| IndexRun.ActionIds | data_ingestion/indexer/index_uploader.py:71 | the ids of bulk actions, in order |
| IndexRun.BulkIdsAppend | data_ingestion/indexer/index_uploader.py:76-78 | the documents sent by two call logs appended are those of each in turn |
| IndexRun.IdsAppend | data_ingestion/indexer/indexer.py:244 | the ids of joined document lists are the ids of each in turn |
| IndexRun.FlushIds | data_ingestion/indexer/indexer.py:205-206 | a successful `_batch_process` sends exactly one bulk request, holding the batch's ids in order |
| IndexRun.FlushAllIds | data_ingestion/indexer/indexer.py:143-146 | uploading chunks sends one bulk request per chunk, together holding every document once in order, and touches neither existence nor refresh interval |
| IndexRun.NegativeBatchUploadsNothing | data_ingestion/indexer/indexer.py:258-262 | INCREMENTAL with a negative batch_size deletes the old versions, sends no bulk request and still raises nothing |
| IndexRun.DeletedCallsFrom | data_ingestion/indexer/indexer.py:258 | the delete step only appends delete requests |
| IndexRun.IncrementalSuccess | data_ingestion/indexer/indexer.py:229-271 | a successful INCREMENTAL run found the index, loaded every file, and ran the replace step on the loaded documents |
| IndexRun.ReplaceCalls | data_ingestion/indexer/indexer.py:257-271 | a successful replace step ends with refresh and refresh_interval "1s", and its bulk requests hold every document once, in order |
| IndexRun.RunIncrementalCalls | data_ingestion/indexer/indexer.py:229-271 | a successful INCREMENTAL run first sets refresh_interval "-1", last refreshes and sets "1s", and uploads every new document once, in order |
| IndexRun.NoBulkIds | data_ingestion/indexer/index_uploader.py:76-78 | calls with no bulk request upload no document |
| IndexRun.DeletedCalls | data_ingestion/indexer/indexer.py:236-258 | refresh off then the deletes, with refresh off first and no bulk request |
| IndexRun.ChunkedFinish | data_ingestion/indexer/indexer.py:262-271 | chunked uploads then the refresh and "1s", holding every document once in order |
| IndexRun.StreamOkAssembles | data_ingestion/indexer/indexer.py:150-173 | a stream that raised nothing assembled every record, and a non-empty file means batch_size is not 0 |
| IndexRun.StreamOkLoads | data_ingestion/indexer/indexer.py:111-181 | a file that streamed without an exception also loads without one |
| IndexRun.LoadEachAcc | data_ingestion/indexer/indexer.py:242-244 | the `new_docs +=` accumulator only prefixes the loaded documents |
| IndexRun.StreamFileIds | data_ingestion/indexer/indexer.py:148-181 | streaming a file sends only bulk requests, holding the file's documents once, in order |
| IndexRun.StreamFilesIds | data_ingestion/indexer/indexer.py:216-218 | streaming all files sends only bulk requests, holding every file's documents once, in file order |
| IndexRun.LoadAllCons | data_ingestion/indexer/indexer.py:242-244 | loading files is the first file's documents followed by the rest's |
| IndexRun.CallsSplit | data_ingestion/indexer/index_uploader.py:76-78 | the documents sent across two appended steps are those of each step in turn |
| IndexRun.RunWholeCalls | data_ingestion/indexer/indexer.py:209-227 | a successful WHOLE run found no index, created it with the template first, uploaded every document of every file once and in order, then refreshed and set "1s" |
| Indexer.DocBatch.constructor | data_ingestion/indexer/indexer.py:149 | the batch list holds the given documents |
| Indexer.WriteVectors | data_ingestion/indexer/indexer.py:201-203 | the write-back loop computes WriteBack |
| Indexer.ApplyVectors | data_ingestion/indexer/indexer.py:186-203 | the vector-field loop computes VectorPass |
| Indexer.LoadFiles | data_ingestion/indexer/indexer.py:241-244 | corrected (Finding 2): the load loop computes LoadAll |
| Indexer.CollectDedup | data_ingestion/indexer/indexer.py:251-255 | the set-building loop, adding each value with Python `set.add`, computes DedupValues (so it keeps the first value of each `==` class) |
| Indexer.Indexer.constructor | data_ingestion/indexer/indexer.py:29-42 | the indexer holds its configuration, uploader and the embedding and file-reading parameters |
| Indexer.Indexer.BatchProcess | data_ingestion/indexer/indexer.py:183-207 | the uploader's new state, the batch's new contents and the exception are Flush's |
| Indexer.Indexer.ProcessIndexDocs | data_ingestion/indexer/indexer.py:148-181 | corrected (Finding 2): the uploader's new state and the exception are Stream's |
| Indexer.Indexer.ProcessIndexBatch | data_ingestion/indexer/indexer.py:140-146 | the uploader's new state and the exception are ProcessBatch's |
| Indexer.Indexer.IndexWhole | data_ingestion/indexer/indexer.py:209-227 | corrected (Finding 2): the uploader's new state and the exception are RunWhole's |
| Indexer.Indexer.IndexIncremental | data_ingestion/indexer/indexer.py:229-271 | corrected (Finding 2): for some iteration order of the dedup set, the new state and the exception are RunIncremental's |
| Indexer.Indexer.ReplaceDocuments | data_ingestion/indexer/indexer.py:257-271 | for some order enumerating the values, the new state and the exception are Replace's |
| Indexer.Indexer.DeleteDuplicates | data_ingestion/indexer/indexer.py:258 | the delete step leaves the state Deleted gives, for some enumeration of the values |
| Indexer.Indexer.UploadAndFinish | data_ingestion/indexer/indexer.py:261-271 | chunked upload, then refresh and "1s" only when it raised nothing |
| Indexer.Indexer.Index | data_ingestion/pipeline.py:230 | corrected (Finding 2): WHOLE runs RunWhole and INCREMENTAL runs RunIncremental |
| Indexer.NewIndexer | data_ingestion/indexer/indexer.py:29-42 | fails iff the template settings fail; otherwise a fresh indexer whose configuration holds the updated settings and whose uploader holds the built template for the configured index |
| Refinery.ApplyFromSpec | data_ingestion/refinery/function_block.py:260-342 | a block's row loop succeeds iff every row's step does, and then each row is its step's result; otherwise the first failing row raised, the earlier rows are already changed and the later ones untouched |
| Refinery.RenameMoves | data_ingestion/refinery/function_block.py:261-264 | with distinct keys and targets and every key present, each target gets its key's value, the keys are gone, and every other column is unchanged |
| Refinery.QuotesToDouble | data_ingestion/refinery/function_block.py:275 | `replace("'", '"')` keeps the length, leaves no single quote and changes nothing else |
| Refinery.ParseArray | data_ingestion/refinery/function_block.py:275-279 | a falsy cell becomes []; a truthy non-string raises AttributeError; a string succeeds iff json.loads of the requoted text is a list of strings, which is then the cell |
| Refinery.ParseArraysSpec | data_ingestion/refinery/function_block.py:273-279 | a row keeps its columns and its other cells; on success every target column holds a list of strings |
| Refinery.JoinEach | data_ingestion/refinery/function_block.py:299-306 | each chunk is its sentences joined by one space |
| Refinery.CommitKeeps | data_ingestion/refinery/function_block.py:297-301 | committing the buffer before the sentence that reaches the bound keeps the chunking rules |
| Refinery.AppendKeeps | data_ingestion/refinery/function_block.py:297-303 | adding a sentence that stays below the bound keeps the chunking rules |
| Refinery.GroupFromChunked | data_ingestion/refinery/function_block.py:296-307 | the sentence loop keeps the chunking rules on every group it builds |
| Refinery.GroupFromFlatten | data_ingestion/refinery/function_block.py:296-307 | the loop gives back every sentence in order and extends the groups already committed |
| Refinery.ChunkRules | data_ingestion/refinery/function_block.py:289-307 | the chunks hold every sentence once, in order; only the first chunk can be empty, exactly when the first sentence alone reaches max_chunk_size; a chunk closes just before the sentence that would reach the bound, never earlier |
| Refinery.Strs | data_ingestion/refinery/function_block.py:309 | the chunk list stored in the cell is a list of Python strings, one per chunk |
| Refinery.Spread | data_ingestion/refinery/function_block.py:322-325 | one copy of the row per element, each holding that element in the column |
| Refinery.ExplodedCount | data_ingestion/refinery/function_block.py:318-327 | explode succeeds iff every row holds a list in the column, and then yields as many rows as the lists hold elements in total |
| Refinery.ExplodedAppend | data_ingestion/refinery/function_block.py:319-325 | exploding is row by row: the rows of a + b explode into a's rows then b's |
| Refinery.NumberedRows | data_ingestion/refinery/function_block.py:333-334 | row i gets __SEQ__ = i and keeps every other column |
| Refinery.WithColumnRows | data_ingestion/refinery/function_block.py:342-343 | each row gets the handler's value in the named column and keeps every other column |
| Refinery.GatheredSpec | data_ingestion/refinery/function_block.py:358-361 | the data-key loop moves the keys out of the row into tmp in iteration order, leaving the rest of the row |
| Refinery.CollectReduces | data_ingestion/refinery/function_block.py:357-363 | a row holding exactly the data keys and __SEQ__ ends with __SEQ__ and "json" = dumps of its data pairs, nothing else |
| Refinery.CollectionFormShape | data_ingestion/refinery/function_block.py:348-370 | no rows raises IndexError; no data key raises RuntimeError("No data keys found"); one data key changes nothing; more reduce every row to __SEQ__ and "json" |
| Refinery.TransformFieldRows | data_ingestion/refinery/function_block.py:250-266 | with every key present every row is renamed; a key missing from some row (and written by no pair) raises KeyError |
| Refinery.RenameMissing | data_ingestion/refinery/function_block.py:262 | a key the row lacks and no pair writes makes the row raise |
| Refinery.RenameErrors | data_ingestion/refinery/function_block.py:262 | the only exception `transform_field` raises is KeyError |
| Refinery.ChunkTable | data_ingestion/refinery/function_block.py:284-311 | on rows whose cells are strings, every row's cell becomes the list of its chunks and nothing else changes |
| FunctionBlock.RenameColumns | data_ingestion/refinery/function_block.py:261-264 | the mapping loop computes Rename |
| FunctionBlock.AllStrings | data_ingestion/refinery/function_block.py:277-278 | the isinstance loop passes iff every object is a string |
| FunctionBlock.ParseCell | data_ingestion/refinery/function_block.py:275-279 | one cell computes ParseArray |
| FunctionBlock.ParseColumns | data_ingestion/refinery/function_block.py:274-279 | the column loop computes ParseArrays |
| FunctionBlock.SplitIntoChunks | data_ingestion/refinery/function_block.py:294-307 | the sentence loop returns the space-joined chunks of Groups |
| FunctionBlock.ChunkCell | data_ingestion/refinery/function_block.py:293-309 | one row computes ChunkRow: KeyError for a missing cell, TypeError for a non-string |
| FunctionBlock.CollectRow | data_ingestion/refinery/function_block.py:358-363 | one row computes Collect |
| FunctionBlock.SetOrder | data_ingestion/refinery/function_block.py:359 | iterating a set of column names visits each exactly once |
| FunctionBlock.PrependTwice | data_ingestion/refinery/function_block.py:318-325 | appending rows in two steps is appending them at once |
| FunctionBlock.Table.constructor | data_ingestion/refinery/function_block.py:12 | the table holds the given rows |
| FunctionBlock.Table.TransformField | data_ingestion/refinery/function_block.py:250-266 | the rows and exception are ApplyFrom with the rename step |
| FunctionBlock.Table.StringToArray | data_ingestion/refinery/function_block.py:269-281 | the rows and exception are ApplyFrom with the parse step |
| FunctionBlock.Table.Chunk | data_ingestion/refinery/function_block.py:284-311 | the rows and exception are ApplyFrom with the chunk step |
| FunctionBlock.Table.ExplodeArray | data_ingestion/refinery/function_block.py:314-327 | on success the rows become Exploded; on an exception they stay as they were |
| FunctionBlock.Table.AddSequenceNumber | data_ingestion/refinery/function_block.py:330-336 | the rows become Numbered |
| FunctionBlock.Table.AddColumn | data_ingestion/refinery/function_block.py:339-345 | the rows become WithColumn |
| FunctionBlock.Table.CollectionForm | data_ingestion/refinery/function_block.py:348-370 | for some iteration order of the data keys the rows and exception are CollectionFormed's |
| Fetcher.NextDay | data_ingestion/refinery/data_fetcher.py:132 | `date + timedelta(days=1)` is the same time on the following calendar day, strictly later; past 9999-12-31 it raises OverflowError |
| Fetcher.FilterPairs | data_ingestion/refinery/data_fetcher.py:53-87 | the twelve optional filters with their argument names, in the order they are added |
| Fetcher.FilterNamesApart | data_ingestion/refinery/data_fetcher.py:48-92 | the filter names are distinct and none is published_at, hilight, return_from, return_size or fields |
| Fetcher.KeepTruthyLookup | data_ingestion/refinery/data_fetcher.py:53-87 | a filter appears in the arguments exactly when its value is truthy, with that value |
| Fetcher.BuildArgsSpec | data_ingestion/refinery/data_fetcher.py:24-94 | AssertionError iff start is not before end; otherwise published_at holds both dates as %Y-%m-%d, each filter appears iff truthy, and hilight, return_from, return_size and fields always appear |
| Fetcher.PageFromReply | data_ingestion/refinery/data_fetcher.py:138-146 | a non-zero result raises RuntimeError("API call failed: <reason>"); a page reports page_number n + 1, and its documents and total hits are the reply's `documents` and `total_hits`; a zero result with both present and the documents a list always yields a page |
| Fetcher.FetchPage | data_ingestion/refinery/data_fetcher.py:125-146 | a fetched page n reports page_number n + 1 |
| Fetcher.PagesFromStops | data_ingestion/refinery/data_fetcher.py:162-171 | the loop ends with the documents of pages 0 .. k-1 in page order, for the first k whose sizes reach total_hits |
| Fetcher.DailyDataStops | data_ingestion/refinery/data_fetcher.py:148-173 | get_daily_data starts at page 0, concatenates the documents in page order and stops at the first page count whose sizes reach total_hits |
| Fetcher.PagesFromEnds | data_ingestion/refinery/data_fetcher.py:162-171 | when every page it asks for is non-empty, the loop ends within total_hits pages |
| Fetcher.DailyDataEnds | data_ingestion/refinery/data_fetcher.py:148-173 | with non-empty pages and fuel for total_hits pages, get_daily_data never runs out of fuel |
| Fetcher.DayPagesNumbered | data_ingestion/refinery/data_fetcher.py:141-166 | page n reports page n + 1, so the loop asks for consecutive pages |
| Fetcher.PageRequest | data_ingestion/refinery/data_fetcher.py:130-148 | page n asks for one calendar day from `date`, offset n * 10000 and 10000 documents |
| Fetcher.KindsApiClient.constructor | data_ingestion/refinery/data_fetcher.py:19-22 | the client holds host, path and key |
| Fetcher.KindsApiClient.GetDailyData | data_ingestion/refinery/data_fetcher.py:96-173 | the paging loop computes DailyData over the day's pages from host + path with the key |
| TextQuery.FirstInvalidSpec | search/service/searcher/opensearch/query_strategy/text_search.go:42-53 | the scan reports an invalid query type iff some non-empty input has one, and it is the first such input's |
| TextQuery.MatchesCount | search/service/searcher/opensearch/query_strategy/text_search.go:24-54 | with valid types every non-empty input lands in exactly one of should, filter and secondary-should |
| TextQuery.ShouldAndFilterPlacesAll | search/service/searcher/opensearch/query_strategy/text_search.go:19-64 | succeeds iff every non-empty input is "should" or "filter", and then should and filter together hold one match per non-empty input; otherwise "invalid queryType: X" for a non-empty input's type |
| TextQuery.FirstInvalidStays | search/service/searcher/opensearch/query_strategy/text_search.go:51-52 | the first invalid type found stays the answer as the scan goes on |
| TextQuery.CreateShouldAndFilterQuery | search/service/searcher/opensearch/query_strategy/text_search.go:19-64 | the scanning loop computes ShouldAndFilter: empty values skipped, secondary-should matches join should when should is empty and filter otherwise |
| TextQuery.MustNot | search/service/searcher/opensearch/query_strategy/text_search.go:67-80 | no clause when Exclude is empty; otherwise one match of Exclude per input on its source field, in input order |
| TextQuery.CreateMustNotQuery | search/service/searcher/opensearch/query_strategy/text_search.go:67-80 | the loop computes MustNot |
| TextQuery.BoolClause | search/service/searcher/opensearch/query_strategy/text_search.go:84-97 | the bool clause always has should; filter and must_not only when non-empty |
| TextQuery.RelevanceShape | search/service/searcher/opensearch/query_strategy/text_search.go:82-99 | the relevance/softmax query is exactly {query: {bool: ...}} |
| TextQuery.HarmonicScoreParts | search/service/searcher/opensearch/query_strategy/text_search.go:104-127 | function_score holds the bool query with REVW_CNT gte 10 appended to filter and the fixed harmonic script |
| TextQuery.HarmonicBoolPath | search/service/searcher/opensearch/query_strategy/text_search.go:105-131 | query.function_score.query.bool is the bool clause with the review-count filter appended |
| TextQuery.HarmonicScriptPath | search/service/searcher/opensearch/query_strategy/text_search.go:110-114 | the script source is the fixed harmonic-mean expression |
| TextQuery.HarmonicShape | search/service/searcher/opensearch/query_strategy/text_search.go:101-133 | the harmonic query has only "query" at the top, the bool clause under function_score and the fixed script |
| TextQuery.HarmonicAlwaysFilters | search/service/searcher/opensearch/query_strategy/text_search.go:118-127 | the harmonic query's filter key is always present, ending with REVW_CNT gte 10 |
| TextQuery.TextQueryModes | search/service/searcher/opensearch/query_strategy/text_search.go:143-164 | a clause error comes first; relevance/softmax and harmonic pick their builder; any other mode gives "Invalid scoring mode: X"; must_not appears iff Exclude and some input are non-empty |
| TextQuery.Normalized | search/service/searcher/opensearch/query_strategy/text_search.go:172-174 | an empty source field becomes the key; type and secondary flag are kept; a set source field is left alone |
| TextQuery.InputsIn | search/service/searcher/opensearch/query_strategy/text_search.go:179-182 | one input per field in iteration order, with value req.Query[key] or "" |
| TextQuery.TextStrategyConfig.constructor | search/service/searcher/opensearch/query_strategy/text_search.go:168 | the configuration holds the field map and scoring mode |
| TextQuery.CreateTextQueryInputs | search/service/searcher/opensearch/query_strategy/text_search.go:168-185 | fails with the secondary-should error iff some field is "should" and secondary-should at once; otherwise every field is normalised in place and the inputs are InputsIn for some iteration order of the map |
| TextQuery.CreateOpenSearchQuery | search/service/searcher/opensearch/query_strategy/text_search.go:136-165 | a refused field configuration is the error; otherwise the result is TextQuery over the inputs in some iteration order |
| VectorQuery.QueryField | search/service/searcher/opensearch/query_strategy/vector_search.go:81-86 | the source field when it is set, the field otherwise |
| VectorQuery.KnnQueryShape | search/service/searcher/opensearch/query_strategy/vector_search.go:59-69 | createKNNQuery is exactly {knn: {field: {vector, k}}} |
| VectorQuery.QueryEmbedding | search/service/searcher/opensearch/query_strategy/vector_search.go:71-79 | only the SentenceTransformer encoder is called; any other gives "invalid encoder type" |
| VectorQuery.VectorQueryOutcome | search/service/searcher/opensearch/query_strategy/vector_search.go:15-57 | succeeds iff the query field is in the request, the encoder is SentenceTransformer and succeeds, and the filter mode is known; the errors "query field does not exist in request", "invalid encoder type" and the encoder's own come in that order |
| VectorQuery.VectorQueryShape | search/service/searcher/opensearch/query_strategy/vector_search.go:37-69 | on success the k-NN clause holds the embedding and k; a filter sits inside it exactly for efficient-knn and as a sibling post_filter exactly for post-filter |
| FunctionScore.CreateCompoundQuery | search/service/searcher/opensearch/compound_strategy/function_score.go:12-30 | no functions gives "no functions provided" before any query check; a missing or non-map query gives "no query provided"; otherwise {query: {function_score: {query: inner, functions}}} |
| OpenSearchQuery.QueryStrategyType | search/service/searcher/opensearch/opensearch.go:170-179 | "text" for the text strategy, "vector" for the vector strategy, "invalid query strategy type" otherwise |
| OpenSearchQuery.RangeClauses | search/service/searcher/opensearch/opensearch.go:82-101 | the {"range": v} clause of each filter with a range key, in filter order, never more than the filters |
| OpenSearchQuery.WithMust | search/service/searcher/opensearch/opensearch.go:87-98 | the clauses are appended to query.bool.must, creating it when absent; no top-level key changes |
| OpenSearchQuery.RangeClausesSnoc | search/service/searcher/opensearch/opensearch.go:83-84 | one more filter adds its range clause, if it has one |
| OpenSearchQuery.AddRangeFilters | search/service/searcher/opensearch/opensearch.go:82-102 | the filter loop computes AddRanges: untouched without range filters; otherwise a query without a bool clause panics and the ranges are appended to must in order |
| OpenSearchQuery.RangeTail | search/service/searcher/opensearch/opensearch.go:83-101 | range clauses only grow as the loop goes on |
| OpenSearchQuery.WithMustTwice | search/service/searcher/opensearch/opensearch.go:87-98 | appending to must in two steps is appending once; appending nothing changes nothing |
| OpenSearchQuery.CreateQuerySize | search/service/searcher/opensearch/opensearch.go:70-127 | a successful query carries size, with 0 read as 10; without compound strategy the ranges sit at the end of bool.must; a range filter on a query without bool panics; an unknown compound strategy is "invalid compound strategy type" |
| OpenSearchQuery.RangeClausesIgnoreOthers | search/service/searcher/opensearch/opensearch.go:84-99 | a filter without a range key changes nothing |
| OpenSearchQuery.FirstBadHitSpec | search/service/searcher/opensearch/opensearch.go:35-45 | no hit is malformed iff every hit maps to an item |
| OpenSearchQuery.ResponseItemsSpec | search/service/searcher/opensearch/opensearch.go:33-54 | hits map one-to-one and in order to items with id = _id and attributes = _source; any malformed hit panics |
| OpenSearchQuery.OsSearchResponseToProto | search/service/searcher/opensearch/opensearch.go:26-55 | the loop filling the items array computes ResponseItems |
| Searcher.NormalizedFilters | search/service/searcher/opensearch.go:31-42 | both filter and filters set is an error; a single filter becomes [filter]; otherwise filters as given, possibly nil |
| Searcher.SearchChecksFirst | search/service/searcher/opensearch.go:24-75 | the filter conflict, a nil searcher config and a config without opensearch are errors whatever the search would do; otherwise the search gets query, exclude and size unchanged with the normalised filters |
| Rrf.Weight | search/service/aggregator/rrf.go:19-32 | an occurrence at 0-based rank r adds 1/(60 + r + 1), positive and at most 1/61 |
| Rrf.Ranks | search/service/aggregator/rrf.go:24 | each item of a list paired with its 0-based rank |
| Rrf.IdSetSnoc | search/service/aggregator/rrf.go:23-25 | one more occurrence adds its id to the ids seen |
| Rrf.Absent | search/service/aggregator/rrf.go:25-33 | an id that never occurs has no item and scores 0 |
| Rrf.FirstOfId | search/service/aggregator/rrf.go:26-30 | the item kept for an id carries that id |
| Rrf.TallySpec | search/service/aggregator/rrf.go:22-34 | the score map holds exactly the ids that occur, each with the sum of its weights and the item of its first occurrence |
| Rrf.InsertId | search/service/aggregator/rrf.go:41-43 | one insertion step of the stable sort adds one id |
| Rrf.InsertIdMembers | search/service/aggregator/rrf.go:41-43 | inserting keeps every id and adds the new one |
| Rrf.InsertIdNoDups | search/service/aggregator/rrf.go:41-43 | inserting a new id keeps the ids distinct |
| Rrf.InsertIdSorted | search/service/aggregator/rrf.go:41-43 | inserting keeps the ids in non-increasing score order |
| Rrf.TopItems | search/service/aggregator/rrf.go:45-48 | min(k, number of ranked ids) items |
| Rrf.OccurrencesSnoc | search/service/aggregator/rrf.go:23-24 | the outer loop visits the lists in order |
| Rrf.Accumulate | search/service/aggregator/rrf.go:22-34 | the nested loop builds Tally of all occurrences |
| Rrf.SortedIds | search/service/aggregator/rrf.go:36-43 | the sorted slice holds every id of the map once, by non-increasing score |
| Rrf.Aggregate | search/service/aggregator/rrf.go:21-51 | a negative k panics in make; otherwise never an error, and the result is the first k items of a fused ranking |
| Rrf.TopItemsSpec | search/service/aggregator/rrf.go:21-51 | the output has min(k, distinct ids) items with distinct ids, each its id's first occurrence, and no id left out scores more than one taken |
| Rrf.ScoreAtLeastOccurrence | search/service/aggregator/rrf.go:32 | an id scores at least the weight of each of its occurrences |
| Rrf.ScoreNonNegative | search/service/aggregator/rrf.go:32 | fused scores are never negative |
| FlattenReranker.FlattenLength | search/service/aggregator/flatten_reranker.go:37-40 | the flattened list's length is the sum of the list lengths |
| FlattenReranker.FlattenAt | search/service/aggregator/flatten_reranker.go:38-40 | item j of list i sits at the sum of the earlier lengths plus j |
| FlattenReranker.FlattenSnoc | search/service/aggregator/flatten_reranker.go:38-39 | flattening one more list appends its items |
| FlattenReranker.FlattenMultiset | search/service/aggregator/flatten_reranker.go:37-40 | each item occurs in the flattened list as often as in all lists together |
| FlattenReranker.Aggregate | search/service/aggregator/flatten_reranker.go:32-43 | no lists returns nil without calling the reranker; otherwise the reranker is called once with the same config, query and k on the flattened list and its answer is returned unchanged |
| SearchService.RerankQuery | search/service/search.go:48-69 | the raw query, the named query field, or that field, a space and the raw query; a missing field is an error, an unset source is "invalid query source" |
| SearchService.WidenedRequest | search/service/search.go:77-81 | with a reranker the searcher is asked for 20 times the size (32-bit), nothing else in the request changes; without one the request is unchanged |
| SearchService.TimeoutFallback | search/service/search.go:105-108 | the intended fallback: the first min(size, found) items, an error only for a negative size |
| SearchService.SearchResults | search/service/search.go:71-117 | corrected (Finding 3): without a reranker the search result as is; a search error is returned; an unknown reranker type is "no reranker" |
| SearchService.RerankStep | search/service/search.go:92-113 | corrected (Finding 3): the reranker is called with the query built from the widened request, every searched item and the original size; its answer is returned unless it timed out, in which case the leading searched items are |
| SearchService.AsWrittenFallbackPanics | search/service/search.go:105-108 | one item found, size 10 and a reranker timeout make the written slice panic, while the intended fallback returns the one item |
| SearchService.Search | search/service/search.go:119-159 | corrected (Finding 3): a missing search config and an unknown searcher type are errors; a success implies both were present |
| SearchService.SearchDefaultSize | search/service/search.go:128-131 | a request of size 0 is answered as one of size 10 |
| SearchService.NeedsRerankSpec | search/service/search.go:177-188 | reranking is skipped exactly when every request's rerank query equals the raw query, and used exactly when the first request that yields a query yields a different one; a query error stops the loop |
| SearchService.UseReranker | search/service/search.go:179-188 | the request loop computes the reranking decision |
| SearchService.FlattenDecision | search/service/search.go:175-193 | without a reranker config the default "e5" reranker is used |
| SearchService.InsertByScoreMultiset | search/service/search.go:229-231 | inserting an item into the score order adds it and keeps all others |
| SearchService.InsertByScoreSorted | search/service/search.go:229-231 | inserting keeps a list in non-increasing score order |
| SearchService.SortByScore | search/service/search.go:225-231 | the result is a permutation of the items in non-increasing score order |
| SearchService.MatchesDistinct | search/service/search.go:251-256 | with distinct reranked ids an item is kept once if its id was reranked and dropped otherwise |
| SearchService.KeptIsFilter | search/service/search.go:249-257 | with distinct reranked ids a source list keeps exactly, in order, its items whose id was reranked |
| SearchService.Split | search/service/search.go:246-262 | the intended split yields one list per source list |
| SearchService.AsWrittenSplitMislabels | search/service/search.go:247-262 | two results arriving in the order "b", "a" are tagged "a", "b" by the written split, while the intended split keeps their own tags |
| SearchService.SplitBySource | search/service/search.go:248-262 | the split loop computes the intended split |
| SearchService.Distribute | search/service/search.go:246-269 | corrected (Finding 4): an aggregation error is returned; with preserve_source, a negative size and at least one list panic in `make`; without preserve_source one untagged list holds the aggregate; with it one list per source, each with its own tag; it fails exactly in those two cases |
| SearchService.AggregateMsearchResults | search/service/search.go:161-270 | corrected (Finding 4): no aggregate returns the lists unchanged; otherwise the switch takes "flatten_reranker" (reranker, RRF fallback on timeout, or score sort), "rrf", or fails with "invalid aggregate method", method names compared in lower case, and the outcome is distributed |
| SearchService.MSearch | search/service/search.go:335-388 | corrected (Finding 4): no search config, a searcher type other than "opensearch" and an unknown searcher are errors before any search; the raw queries are then filled in, and that step's error is returned; the search's error is returned as is; otherwise the aggregation of the results for the filled request |
| SearchService.FillRaw | search/service/search.go:281-285 | every request without a raw query takes the multi-search's raw query, and nothing else of any request changes |
| SearchService.FillRawQueries | search/service/search.go:274-287 | with a raw-query reranker, an empty multi-search raw query is an error and otherwise every empty request raw query is filled in; a nil query source panics; any other configuration leaves the request alone |
| SearchService.FilledRawQueriesRerank | search/service/search.go:274-287 | after the fill, the flatten aggregation reranks exactly when some request brought its own raw query that differs from the multi-search's |
| MergeChunks.Cut | conversation/service/function/search.go:36-37 | the content is cut to its first min(length, 1000) bytes |
| MergeChunks.IndexOfNews | conversation/service/function/search.go:33-34 | the first held entry with the chunk's news id, and none exactly when no held entry has it |
| MergeChunks.DistinctSpec | conversation/service/function/search.go:31-44 | the distinct news ids hold each id once and exactly the ids that occur |
| MergeChunks.FirstWithSpec | conversation/service/function/search.go:31-44 | an article's first chunk exists exactly when one of its chunks occurs |
| MergeChunks.AbsorbIds | conversation/service/function/search.go:33-44 | absorbing a chunk keeps the held articles and appends the chunk's article when it is new |
| MergeChunks.MergedIds | conversation/service/function/search.go:25-51 | the held articles are the first five distinct news ids in order of first appearance, so at most five and none twice |
| MergeChunks.MergedEntries | conversation/service/function/search.go:31-44 | every held entry is its article's first chunk except for its content; an article with one chunk is held untouched; a grown content is at most 1000 bytes |
| MergeChunks.MergedSaturated | conversation/service/function/search.go:45-47 | once five articles are held, later chunks change nothing |
| MergeChunks.MergeChunks | conversation/service/function/search.go:25-51 | the merge loop computes the merged references |
| ConvSearch.GetReference | conversation/service/function/search.go:53-62 | no lists gives no references, one list gives its items, two or more is "too many results" |
| ConvSearch.HasFutureDate | conversation/service/function/search.go:85-95 | no start date is not in the future; an unparsable start date is the parse error; otherwise whether the start lies after the current time |
| ConvSearch.ArticleLengthIsNoDateFilter | conversation/service/function/search.go:117-122 | the article-length filter differs from every published_at filter |
| ConvSearch.BaseQuery | conversation/service/function/search.go:127-130 | title and content both hold the standalone query, and nothing else |
| ConvSearch.HandleDateRangeNotSpecified | conversation/service/function/search.go:97-150 | two requests of the top-k size over the standalone query, the last three months and before them, each with the article-length filter when it is switched on, fused by "rrf" without preserving sources |
| ConvSearch.DateBounds | conversation/service/function/search.go:164-180 | gte the start date and lte the end date, each only when set |
| ConvSearch.HandleDateRangeSpecified | conversation/service/function/search.go:152-201 | an unparsable start or end date is its parse error; otherwise one request, no aggregation, the article-length filter first when switched on and the published_at range last when a date is set |
| ConvSearch.DecodeRange | conversation/service/function/search.go:218-226 | a null range is the empty range; an object's two string dates are taken; anything else is an error |
| ConvSearch.SearchBody | conversation/service/function/search.go:203-239 | every request searches the standalone query with the top-k size of 15, and the body carries the raw query |
| ConvSearch.WithProvider | conversation/service/function/search.go:241-246 | with a provider every request's query also names it and nothing else changes; without one the body is unchanged |
| ConvSearch.CreateSearchBody | conversation/service/function/search.go:203-249 | every request's query is exactly title, content and, when given, provider, searching the standalone query with size 15 |
| ConvSearch.StandaloneQueryFallback | conversation/service/function/search.go:206-210 | the standalone query is used when it is a string, the raw query otherwise |
| ConvSearch.UnspecifiedRangeFallback | conversation/service/function/search.go:212-232 | no range, a future start or an unparsable start falls back to the two fused searches |
| ConvSearch.SpecifiedRange | conversation/service/function/search.go:233-238 | a range not starting in the future gives one search within it, failing exactly when one of its dates does not parse |
| ConvSearch.CreateSearchRequests | conversation/service/function/search.go:203-249 | the request builder computes the body |
| ConvSearch.SearchCallOutcomes | conversation/service/function/search.go:251-306 | no endpoint is an error before anything is sent; a non-200 reply is "search function failed"; several result lists are "too many results"; a success is the encoding of at most five merged articles |
| ConvSearch.Call | conversation/service/function/search.go:251-306 | the plugin's call computes that answer |
| FunctionService.FirstNamed | conversation/service/function/function.go:34-36 | the first function whose definition has the name, and none exactly when no function has it |
| FunctionService.CallFunctionOutcomes | conversation/service/function/function.go:33-45 | "function not found" exactly when no function has the name, whatever the arguments; the parse error when the arguments do not parse; otherwise the answer of the first function with the name |
| FunctionService.ShadowedFunction | conversation/service/function/function.go:34-43 | a function listed after another of the same name is never reached |
| FunctionService.ListFunctions | conversation/service/function/function.go:47-56 | four functions: search, translate, summarize and spelling_correction, in that order |
| FunctionService.ListedDispatch | conversation/service/function/function.go:47-56 | through the listed functions "search" runs the search plugin, the other three answer the independent-call error once their arguments parse, and any other name is not found |
| TokenCounter.CommentText | conversation/internal/token_counter/converter.go:15-20 | every comment line starts with "//" |
| TokenCounter.CommentLines | conversation/internal/token_counter/converter.go:14-21 | the comments are empty exactly when there are no lines, and otherwise end in a newline |
| TokenCounter.Lines | conversation/internal/token_counter/converter.go:14 | splitting at newlines gives at least one line |
| TokenCounter.OneLine | conversation/internal/token_counter/converter.go:14 | a string without a newline is a single line |
| TokenCounter.LinesNoNewline | conversation/internal/token_counter/converter.go:14 | no line holds a newline |
| TokenCounter.LinesAreSplit | conversation/internal/token_counter/converter.go:14 | splitting into lines is splitting at the newline separator |
| TokenCounter.LinesAt | conversation/internal/token_counter/converter.go:14 | splitting text joined by a newline splits the two sides apart |
| TokenCounter.TrimSpaceIdempotent | conversation/internal/token_counter/converter.go:13-15 | trimming twice is trimming once |
| TokenCounter.TrimSpaceNoChar | conversation/internal/token_counter/converter.go:13-15 | trimming adds no character |
| TokenCounter.CommentTextNoNewline | conversation/internal/token_counter/converter.go:15-20 | a comment line holds no newline when its description line holds none |
| TokenCounter.SplitAppendLine | conversation/internal/token_counter/converter.go:16-20 | appending a newline-free line and a newline to text ending in a newline adds that line and an empty last piece |
| TokenCounter.Texts | conversation/internal/token_counter/converter.go:14-21 | one comment text per line |
| TokenCounter.CommentLinesStep | conversation/internal/token_counter/converter.go:14-21 | one description line more adds its comment after the others |
| TokenCounter.CommentLinesSplit | conversation/internal/token_counter/converter.go:14-21 | the rendered comments read back line by line are the comment texts, one per line, and nothing after the last newline |
| TokenCounter.DescriptionPromptLines | conversation/internal/token_counter/converter.go:11-23 | the rendered description has one line per line of the trimmed description: "// " and the trimmed line, or a bare "//" exactly for a blank one |
| TokenCounter.OneLineDescription | conversation/internal/token_counter/converter.go:11-23 | a one-line description without surrounding blanks renders as "// ", the description and a newline |
| TokenCounter.DescriptionToSystemPrompt | conversation/internal/token_counter/converter.go:11-23 | the method computes the description prompt |
| TokenCounter.CommentEach | conversation/internal/token_counter/converter.go:14-21 | the line loop computes the comment lines |
| TokenCounter.CommentPiece | conversation/internal/token_counter/converter.go:15-20 | one iteration computes the line's comment text |
| TokenCounter.Quoted | conversation/internal/token_counter/converter.go:69-71 | each enum value in double quotes, one per value |
| TokenCounter.QuoteEnums | conversation/internal/token_counter/converter.go:67-71 | the enum loop computes the quoted values |
| TokenCounter.ObjectPrompt | conversation/internal/token_counter/converter.go:29-64 | an object renders as braces around exactly one line per map-valued property, each key once and in strictly ascending order; with no properties map, as empty braces |
| TokenCounter.PropertiesPromptLines | conversation/internal/token_counter/converter.go:45-61 | the property loop renders exactly the map-valued keys, in the given order, other values skipped |
| TokenCounter.MapValuedKeysSorted | conversation/internal/token_counter/converter.go:39-49 | picking the map-valued keys out of sorted keys keeps them ascending |
| TokenCounter.PropertyOptionalMark | conversation/internal/token_counter/converter.go:50-58 | in a property line the key follows the description comments and is followed by "?" exactly when it is not required |
| TokenCounter.PropertiesPromptSnoc | conversation/internal/token_counter/converter.go:45-61 | one sorted key more appends its property's rendering after the others' |
| TokenCounter.FunctionParametersToSystemPrompt | conversation/internal/token_counter/converter.go:25-82 | the method computes the schema's rendering |
| TokenCounter.PropertiesToSystemPrompt | conversation/internal/token_counter/converter.go:37-62 | the keys are sorted and each map-valued property is rendered in that order; other properties are skipped |
| TokenCounter.PropertyToSystemPrompt | conversation/internal/token_counter/converter.go:46-60 | one loop body computes that property's rendering |
| TokenCounter.FunctionDefinitionToSystemPrompt | conversation/internal/token_counter/converter.go:84-98 | description comments, then "type NAME = (", "_: " and the parameters only when there are any, then ") => any;" |
| TokenCounter.FunctionCallResponseToGPTRawOutput | conversation/internal/token_counter/converter.go:100-102 | "functions." then the name, the arguments in parentheses |
| TokenCounter.IndexOf | conversation/internal/token_counter/converter.go:100-102 | the first position of a character, and none exactly when it does not occur |
| TokenCounter.RawOutputRoundTrip | conversation/internal/token_counter/converter.go:100-102 | for a name without "(", reading the raw output back gives the name and the arguments |
| ConvCompletion.FindLastUserMessage | conversation/service/completion.go:72-79 | the last payload with role "user", and none exactly when no payload has that role |
| ConvCompletion.GetCompletionLLM | conversation/service/completion.go:124-147 | the corrected selection: a success only for an index inside the list, and never a panic |
| ConvCompletion.GetCompletionLLMOutcomes | conversation/service/completion.go:124-147 | past the list's end is "all fallback failed"; provider and model are the entry's first two "/" parts; the maximum is 3 unless a third part gives it; an unparsable third part is the parse error; the corrected and the written selection succeed on the same inputs with the same value |
| ConvCompletion.AsWrittenDefaultModelsPanic | conversation/service/completion.go:124-131 | the default list "upstage,2" splits into "upstage" and "2"; the written selection panics on its first entry, while the corrected one reports an invalid entry |
| ConvCompletion.CreateInitialPayloads | conversation/service/completion.go:150-171 | a clock error is returned; otherwise the chat prompt for the current time goes in front as a system payload and the caller's payloads follow unchanged; the system payload carries an empty name exactly when the first model entry is "upstage", with an empty function call and tool-call list then |
| ConvCompletion.StepCounters | conversation/service/completion.go:340-374 | a failed search stops the loop; a model is tried until its count exceeds its maximum, and then the next model starts with fresh counters; a rate limit on azure advances the key while keys remain; any other stop is a selection error |
| ConvCompletion.RunCompletesWithListedModel | conversation/service/completion.go:328-392 | corrected (Findings 5 and 6): the retry loop only ever completes with a model that the configured list names |
| ConvCompletion.CancelEndsRun | conversation/service/completion.go:436-441 | a pass ended by cancellation ends the retry loop with the cancellation error; no further model or key is tried |
| ConvCompletion.FallbackLoop | conversation/service/completion.go:328-392 | corrected (Findings 5 and 6): the retry loop's counters follow the pass-by-pass definition, a finished pass completes, a cancelled pass aborts with its error, a failed pass moves on, and the loop terminates |
| ConvCompletion.ReceiveAsWrittenRunsOn | conversation/service/completion.go:432-450 | as written (Finding 10): after a receive error the loop still sends the next chunk and ends with that error only at EOF, and a cancellation after the error reports the pass cancelled |
| ConvCompletion.ReceiveStopsAtFirst | conversation/service/completion.go:432-475 | corrected (Finding 10): the receive loop ends at the first turn that is not a chunk, having sent exactly the contents of the chunks before it; a receive error there fails the pass with that error, a cancellation cancels it, EOF leaves the loop cleanly |
| ConvCompletion.PruneSearch | conversation/service/completion.go:597-606 | pruning never lengthens the payloads |
| ConvCompletion.PruneSearchKeeps | conversation/service/completion.go:597-606 | pruning keeps exactly the payloads that are not earlier search results, and changes nothing when there are none |
| ConvCompletion.RemovePastSearchPayloads | conversation/service/completion.go:598-606 | the delete-in-place loop computes the pruned payloads in order |
| ConvCompletion.AfterFunctionCallShape | conversation/service/completion.go:534-629 | after a call the history starts with the after-call system prompt, keeps the rest in order (minus earlier search results after a search), and ends with the call and its result under the provider's role; without a system payload in front it is "first payload should be system" |
| ConvCompletion.AsWrittenSearchFailureIgnored | conversation/service/completion.go:343-348 | as written a failed search call leaves no loop error, so the check at the top never fires; with the error kept the next pass stops on it |
| Utf8Repair.DecodeRune | conversation/service/completion.go:271 | a rune takes one to four bytes within the input, and only a three-byte sequence may decode to U+FFFD |
| Utf8Repair.Runes | conversation/service/completion.go:267-278 | at most one rune per byte, none negative |
| Utf8Repair.Latin1 | conversation/service/completion.go:279-283 | the ISO-8859-1 encoding exists exactly when every rune is at most U+00FF, and is then one byte per rune of that value |
| Utf8Repair.DecodePrefix | conversation/service/completion.go:271 | decoding looks no further than the sequence it finds |
| Utf8Repair.SanitizeValid | conversation/service/completion.go:284-289 | the UTF-8 decoder's output is valid UTF-8, whatever its input |
| Utf8Repair.SanitizeValidIdentity | conversation/service/completion.go:284-289 | the decoder leaves valid UTF-8 unchanged |
| Utf8Repair.SanitizeLength | conversation/service/completion.go:284-289 | the decoder's output is at most three times as long as its input |
| Utf8Repair.Latin1RoundTrip | conversation/service/completion.go:267-283 | for bytes that were read as Latin-1 and re-encoded as UTF-8, collecting the runes and encoding them as ISO-8859-1 gives back the original bytes |
| Utf8Repair.SetNewStandaloneQuery | conversation/service/completion.go:244-261 | a decoding error is returned; arguments without standalone_query are an error; otherwise the arguments with standalone_query replaced by the new query, encoded again |
| Utf8Repair.ConvertedArgumentsOutcomes | conversation/service/completion.go:263-291 | valid UTF-8 comes back unchanged; repaired arguments are valid UTF-8 and at most three times as long; arguments with a rune beyond Latin-1 fall back to replacing the standalone query |
| Utf8Repair.CollectRunes | conversation/service/completion.go:267-278 | the decoding loop collects the runes one at a time from the front |
| Utf8Repair.ConvertArgumentsToUtf8IfNot | conversation/service/completion.go:263-291 | the repair computes that answer |
| ConvCompletion.GetModels | pkg/chat/v2/option.go:41-48 | the configured model list split on ",", "upstage,2" when the variable is unset; never empty |
| LlmClient.ApplyAllAppend | pkg/chat/v2/option.go:72-74 | applying a concatenation of options applies its two parts in turn |
| LlmClient.ApplyAllSnoc | pkg/chat/v2/option.go:72-74 | one more option is applied last |
| LlmClient.LlmOptions | pkg/chat/v2/option.go:49-56 | the configured model split on "/", "upstage/solar-mini" when it is empty; never empty |
| LlmClient.DefaultOptions | pkg/chat/v2/option.go:60-70 | by the first segment of the configured model: the OpenAI endpoint and its nine models, the Solar endpoint and "solar-mini", or nothing; never streaming, no key, no API type |
| LlmClient.UnsetModelDefaultsToSolar | pkg/chat/v2/option.go:49-70 | with the variable empty the defaults are the Solar ones |
| LlmClient.ApplyThree | pkg/chat/v2/option.go:72-74 | three options appended after others are applied after them, in order |
| LlmClient.ApplyFour | pkg/chat/v2/option.go:72-74 | four options appended after others are applied after them, in order |
| LlmClient.NewClient | conversation/internal/llmclient/client.go:78-89 | "openai", "azure" and "upstage" build their provider's client; any other provider is "invalid provider: " and its name |
| LlmClient.ForcedOptionsWin | conversation/internal/llmclient/client.go:13-76 | whatever the caller passes, the client's endpoint, key and single model are the forced ones, and so is the API type for OpenAI; for Solar the API type, and for both the streaming flag, are what the caller's options make of the defaults |
| LlmClient.AzureOutcomes | conversation/internal/llmclient/client.go:32-58 | no key map is "endpoint key map is not in env"; an index past the entries is "azure key index is out of range"; an entry without ";" panics; otherwise endpoint and key are the entry's first two ";" parts, with the single model and the azure API type |
| GptModel.ConcatCall | pkg/chat/v2/gpt/gpt_model.go:210-216 | a delta function call is appended name to name and arguments to arguments, onto an empty call when there was none |
| GptModel.MergeToolCall | pkg/chat/v2/gpt/gpt_model.go:218-233 | a delta succeeds exactly when its index is within the list or just past it, and then grows the list by one entry only in the second case; every entry it does not aim at is unchanged |
| GptModel.MergeToolCalls | pkg/chat/v2/gpt/gpt_model.go:217-234 | merging the deltas never shortens the tool-call list |
| GptModel.MergeToolCallAt | pkg/chat/v2/gpt/gpt_model.go:224-232 | one merge step appends the delta's id, type, function name and arguments to the entry it aims at, which then has a function exactly when it had one or the delta carries one; every other entry is left alone |
| GptModel.MergeToolCallsConcatenates | pkg/chat/v2/gpt/gpt_model.go:217-234 | after the merge each entry's id, type, function name and arguments are its old ones followed by those of every delta aimed at it, in stream order; it has a function exactly when it had one or some delta aimed at it carried one |
| GptModel.MergeNamesConcatenate | pkg/chat/v2/gpt/gpt_model.go:226-231 | each entry's function name is its old one followed by the names of the deltas aimed at it |
| GptModel.MergeArgsConcatenate | pkg/chat/v2/gpt/gpt_model.go:226-232 | each entry's function arguments are its old ones followed by the arguments of the deltas aimed at it |
| GptModel.MergeFnPresence | pkg/chat/v2/gpt/gpt_model.go:226-229 | an entry has a function exactly when it had one or some delta aimed at it carried one |
| GptModel.MergeMessage | pkg/chat/v2/gpt/gpt_model.go:207-235 | role and content are appended; a delta function call is appended to the message's call and the tool calls are kept; otherwise non-empty delta tool calls are merged, failing exactly when that merge fails; otherwise the tool calls are kept |
| GptModel.MergeChoice | pkg/chat/v2/gpt/gpt_model.go:206-236 | the finish reason is appended and the index kept; without a delta nothing else changes |
| GptModel.MergeFirst | pkg/chat/v2/gpt/gpt_model.go:202-238 | only the first choice takes in the chunk's first choice and the others are kept; either list being empty panics |
| GptModel.MergeValue | pkg/chat/v2/gpt/gpt_model.go:197-241 | a chunk of another response is refused; otherwise the merge succeeds exactly when the first-choice merge does, and changes nothing else |
| GptModel.ChatCompletionResponse.constructor | pkg/chat/v2/gpt/gpt_model.go:175-180 | id, object and creation time as given, no usage |
| GptModel.ChatCompletionResponse.Merge | pkg/chat/v2/gpt/gpt_model.go:197-241 | the response's choices become the merged ones and all other fields are kept; on an error nothing changes |
| GptModel.MergeToolCallsInPlace | pkg/chat/v2/gpt/gpt_model.go:218-234 | the loop over the delta tool calls computes the merged list, or the panic |
| GptModel.ChoicesOf | pkg/chat/v2/gpt/gpt_model.go:182-191 | one response choice per chunk choice, in order |
| GptModel.ResponseOfChunk | pkg/chat/v2/gpt/gpt_model.go:175-195 | id, object and creation time are kept, and each chunk choice becomes a choice with its index, finish reason and delta (an empty message when there is none), in order |
| GptModel.ToolsToChat | pkg/chat/v2/gpt/gpt_model.go:139-171 | one chat tool per tool call with its id and type, holding a function exactly when the tool call does, with the call's name and its compacted arguments; with no function the content is unchanged |
| GptModel.ToolsToChatFails | pkg/chat/v2/gpt/gpt_model.go:147-161 | the conversion fails exactly when some tool call with a function has arguments that do not compact or do not unmarshal |
| GptModel.ToolsToChatContent | pkg/chat/v2/gpt/gpt_model.go:162 | the content left behind is the assistant message of the last tool call with a function |
| GptModel.ToChatResponse | pkg/chat/v2/gpt/gpt_model.go:98-173 | role and finish reason of the first choice; other finishes keep the content; a "function_call" finish without a call is a nil dereference; with one, the content is the compacted arguments' assistant message and the call carries the compacted arguments; a "tool_calls" finish carries exactly the chat tools ToolsToChat builds, the content they leave and no function call; no choices panics |
| GptStream.HandleLine | pkg/chat/v2/gpt/gpt_stream.go:148-210 | a line that is not a data line changes nothing; merging and the error state, once on, stay on; a call that merges never hands back a single chunk |
| GptStream.Scan | pkg/chat/v2/gpt/gpt_stream.go:132-211 | the loop ends at a reader position within the input and its end |
| GptStream.RunOutWithoutData | pkg/chat/v2/gpt/gpt_stream.go:132-162 | a stream that runs out without another data line reports, for every provider but "upstage", the missing "[DONE]" or the error collected so far; "upstage" as written never returns, and repaired reports the same |
| GptStream.ScanQuiet | pkg/chat/v2/gpt/gpt_stream.go:148-152 | a non-data line before the end is passed over with the loop's state unchanged |
| GptStream.AsWrittenUpstageEmptyStreamDiverges | pkg/chat/v2/gpt/gpt_stream.go:132-162 | on an empty body the written "upstage" loop never returns, while the repaired loop and the "openai" loop report "v2 EOF comes before [DONE]" |
| GptStream.ScanAgain | pkg/chat/v2/gpt/gpt_stream.go:132-211 | a full line that does not end the call moves the loop to the next line with the new state |
| GptStream.HandleLineInError | pkg/chat/v2/gpt/gpt_stream.go:156-163 | once an error has started, a data line is collected and any other line skipped |
| GptStream.ErrorAccumulates | pkg/chat/v2/gpt/gpt_stream.go:136-163 | once an error has started, a provider other than "upstage" reports at the end an error made of the lines collected so far and every later data line, "[DONE]" included |
| GptStream.Collected | pkg/chat/v2/gpt/gpt_stream.go:160-162 | collecting a line before the rest is appending it |
| GptStream.DataLinesStep | pkg/chat/v2/gpt/gpt_stream.go:148-162 | the data lines from a position are that line, when it is one, followed by those after it |
| GptStream.MergingHoldsBack | pkg/chat/v2/gpt/gpt_stream.go:167-210 | once a call merges it never hands back a single chunk: it ends only with "[DONE]", an error or the end of the input |
| GptStream.ChunkReturnedAndFolded | pkg/chat/v2/gpt/gpt_stream.go:179-210 | a chunk with choices and neither function nor tool calls, read outside merging, is handed back converted and folded into the merged response, becoming it when there was none |
| GptStream.DoneEndsStream | pkg/chat/v2/gpt/gpt_stream.go:165-177 | "[DONE]" outside merging ends the stream with nothing more |
| GptStream.CreateChatStream | pkg/chat/v2/gpt/gpt_stream.go:24-72 | a client that cannot stream is refused; a provider other than "upstage" or "openai" leaves the request nil and sending it fails; a success needs the provider's request to be built, sent and answered below 300 |
| GptStream.GPTStream.constructor | pkg/chat/v2/gpt/gpt_stream.go:68-71 | a reader at the start of the body with nothing merged |
| GptStream.GPTStream.ReadUntilNow | pkg/chat/v2/gpt/gpt_stream.go:214-216 | the merged response, nil exactly when nothing has been merged |
| GptStream.GPTStream.Handle | pkg/chat/v2/gpt/gpt_stream.go:148-210 | one line updates the merged response and the loop's state as the line handling says |
| GptStream.GPTStream.Recv | pkg/chat/v2/gpt/gpt_stream.go:127-212 | the repaired receive loop returns the outcome, the reader position and the merged response of the repaired loop definition |
| GptRequest.NewGPTCompitable | pkg/chat/v2/gpt/gpt.go:26-45 | no HTTP client gives "client is required"; an openai.com endpoint without a key gives "ApiKey is required for openai.com endpoint"; the client is built exactly when there is a client, a key where needed and at least one model, and it then holds the options the setters built |
| GptRequest.OpenAIEndpointNeedsKey | pkg/chat/v2/gpt/gpt.go:33-35 | a client left on the default OpenAI endpoint without a key is refused with the missing-key error |
| GptRequest.OpenAIEndpointIsOpenAI | pkg/chat/v2/gpt/gpt.go:33 | the default OpenAI endpoint contains "openai.com" |
| GptRequest.StringRef.constructor | pkg/chat/v2/gpt/gpt.go:116-122 | a `*string` option holds the given value |
| GptRequest.QuotingNotIdempotent | pkg/chat/v2/gpt/gpt.go:116-122 | quoting a value that does not start with "{" twice wraps it in two pairs of double quotes, so the write-back into the option changes the option at every build |
| GptRequest.ToolsOf | pkg/chat/v2/gpt/gpt.go:84-98 | one tool call per input tool call, in order, with its id and type and its function name and arguments when it has a function |
| GptRequest.MessagesOf | pkg/chat/v2/gpt/gpt.go:68-105 | one message per chat payload, in order |
| GptRequest.MessageMappingKeeps | pkg/chat/v2/gpt/gpt.go:70-103 | each message copies role, content, name (empty when absent), function call, tool calls and tool-call id of its payload |
| GptRequest.WrapTools | pkg/chat/v2/gpt/gpt.go:260-268 | one tool per function, each of the form {"type":"function","function":F} |
| GptRequest.QueryOf | pkg/chat/v2/gpt/gpt.go:152-167 | the OpenAI builder passes functions and tools through; the Solar builder sends the functions wrapped as tools, drops the caller's tools and sends no functions; function call and tool choice are quoted unless they start with "{"; model, messages, response format and stream are carried over |
| GptRequest.AuthHeaderChoice | pkg/chat/v2/gpt/gpt.go:183-190 | without a key no authentication header is set; an Azure client of the OpenAI builder sends the key as api-key; every other client, and the Solar builder always, sends Authorization: Bearer and the key; the content type is application/json |
| GptRequest.ConvertMessages | pkg/chat/v2/gpt/gpt.go:68-105 | the mapping loop computes the one-to-one message mapping |
| GptRequest.MessagesOfSnoc | pkg/chat/v2/gpt/gpt.go:70-105 | mapping one more payload appends its message to the mapped list |
| GptRequest.WrapFunctions | pkg/chat/v2/gpt/gpt.go:260-268 | the loop filling the tools by index computes the wrapped functions |
| GptRequest.QuoteInPlace | pkg/chat/v2/gpt/gpt.go:116-122 | the pointed-to value is replaced by its quoted form; a nil option stays nil |
| GptRequest.BuildHeader | pkg/chat/v2/gpt/gpt.go:183-192 | the headers hold the content type, and without incoming metadata they are exactly the authentication and content-type headers |
| GptRequest.AssembleQuery | pkg/chat/v2/gpt/gpt.go:68-167 | the body holds the converted messages, the functions and tools as sent and the quoted function call and tool choice, and the options now hold those quoted values |
| GptRequest.Encode | pkg/chat/v2/gpt/gpt.go:142-193 | the request is built exactly when the response format is absent or valid, the body marshals and the request can be created, and then carries the query, the marshalled body, the endpoint and the content-type header |
| GptRequest.BuildRequest | pkg/chat/v2/gpt/gpt.go:51-194 | empty messages, then an empty model, are refused before any option is written; otherwise the function call and tool choice are quoted in place, and the request is built exactly when the response format is valid JSON, the query marshals and the request can be created, holding the query, the marshalled body, the client's endpoint and the headers |
| LegacyModel.MergeMessage | pkg/chat/model/chatgpt.go:154-164 | role and content are appended and the name kept; the merged message has a function call exactly when either side has one, and its name and arguments are the old ones followed by the delta's |
| LegacyModel.MergeValue | pkg/chat/model/chatgpt.go:145-169 | a chunk of another response is refused with the different-ids error; an empty choice list on either side panics; otherwise the merge succeeds exactly when the chunk's first choice has a delta, and only the first choice changes |
| LegacyModel.MergeValueExtends | pkg/chat/model/chatgpt.go:150-166 | one merge extends the first choice by the chunk's content, role, finish reason and function-call name and arguments |
| LegacyModel.MergeAllConcatenates | pkg/chat/model/chatgpt.go:145-169 | merging a run of chunks succeeds exactly when each of them belongs to the response and has a first choice with a delta; the first choice then holds its old content, role, finish reason and function call followed by those of every chunk, in stream order |
| LegacyModel.ChoicesOf | pkg/chat/model/chatgpt.go:132-139 | the conversion succeeds exactly when every chunk choice has a delta (a missing one is a nil dereference), and then gives one choice per chunk choice with its index, finish reason and delta |
| LegacyModel.ConvertedChunkMerges | pkg/chat/model/chatgpt.go:125-169 | a response made from a chunk takes in every later chunk of the same response whose first choice has a delta |
| LegacyModel.ChatCompletionResponse.constructor | pkg/chat/model/chatgpt.go:126-130 | id, object, creation time and choices as given, no usage |
| LegacyModel.ChatCompletionResponse.Merge | pkg/chat/model/chatgpt.go:145-169 | on success the response becomes the merged value; on an error the response is unchanged |
| LegacyModel.ResponseOfChunk | pkg/chat/model/chatgpt.go:125-143 | the conversion loop fails exactly when a delta is missing, and otherwise yields a fresh response holding the converted chunk |
| LegacyModel.ToChatResponse | pkg/chat/model/chatgpt.go:79-123 | no choice panics; role and finish reason of the first choice; any finish but "function_call" keeps the content and carries no call; a "function_call" finish without a call is a nil dereference, and otherwise succeeds exactly when the arguments compact and unmarshal, the content then being their assistant_message and the call carrying the compacted arguments |
| LegacyChat.Listed | pkg/chat/chatgpt.go:103-109 | the search of the list answers true exactly when the name is in the list |
| LegacyChat.GPTModelValid | pkg/chat/chatgpt.go:70-110 | a name is accepted exactly when it starts with "gpt" or "ft:gpt" or is one of the 23 listed names |
| LegacyChat.Endpoint | pkg/chat/chatgpt.go:175-194 | a name has an endpoint exactly when one of the routing rules matches it, and otherwise the error is "can not find endpoint for model: " and the name; GPT-family names go to OpenAI and other "upstage/solar" names to the Solar proxy |
| LegacyChat.UpstageLlamaRouted | pkg/chat/chatgpt.go:84-86 | the three listed upstage_llama names start with "upstage_llama" |
| LegacyChat.SolarRouted | pkg/chat/chatgpt.go:89-95 | the four listed Solar names start with "upstage/solar" |
| LegacyChat.ValidModelsRoute | pkg/chat/chatgpt.go:70-194 | every accepted model name has an endpoint |
| LegacyChat.ListedRouted | pkg/chat/chatgpt.go:72-96 | each of the listed names is matched by a routing rule |
| LegacyChat.NewOpenAIChatGPTModel | pkg/chat/chatgpt.go:55-68 | an empty OpenAI key gives "openaiKey is required", then an unaccepted model "invalid model: " and the name; the client is made exactly when the key is set and the model accepted, and holds both keys and the model |
| LegacyChat.OpenAIKeyOnlyToOpenAI | pkg/chat/chatgpt.go:176-209 | a GPT-family model goes to OpenAI with the OpenAI key as bearer token, and when the OpenAI key differs from the Solar key and from the fixed in-house token it is sent with no other model |
| LegacyChat.MessagesOf | pkg/chat/chatgpt.go:128-134 | one completion message per chat message, in order, carrying only its role and content |
| LegacyChat.QueryOf | pkg/chat/chatgpt.go:116-166 | no model gives "model isn't set" and options of another kind "options is not for GPT"; the body holds the messages and the client's model; nil GPT options add nothing; GPT options with a model name succeed exactly when the name is accepted, and the name then replaces the client's model |
| LegacyChat.BuiltQueriesRoute | pkg/chat/chatgpt.go:116-194 | for a client made by NewOpenAIChatGPTModel every body that is built names a model with an endpoint, so "can not find endpoint" never happens |
| LegacyChat.ConvertMessages | pkg/chat/chatgpt.go:128-134 | the append loop computes the message mapping |
| LegacyChat.BuildHeader | pkg/chat/chatgpt.go:201-213 | the headers hold the content type, and without incoming metadata exactly the model's authorization (OpenAI key for GPT models, the fixed in-house token for two models, the Solar key for the Solar chat model, none otherwise) and the content type |
| LegacyChat.CreateAPIRequest | pkg/chat/chatgpt.go:116-216 | a body error is returned as is; a marshal error, then a missing endpoint, is an error; otherwise the request goes to the model's endpoint with the marshalled body and the model's headers |
| LegacyChat.ChatReply | pkg/chat/chatgpt.go:218-266 | a send error is returned; for a 200 reply a parse error is returned, a null body is a nil dereference, no choices is an error, and otherwise the reply is the first choice converted to a chat response |
| LegacyChat.NonOkParsesEmptyBody | pkg/chat/chatgpt.go:233-253 | a reply whose status is not 200 is only logged, and since its body was read for the log, an empty body is what is parsed |
| LegacyChat.AsWrittenNoChoicesReturnsNothing | pkg/chat/chatgpt.go:255-258 | a reply without choices gives neither a response nor an error as written, and an error once repaired |
| LegacyChat.ChatReplyAgrees | pkg/chat/chatgpt.go:218-266 | wherever the written reply handling answers, with an error or a response, the repaired one gives the same answer |
| LegacyChat.StreamReply | pkg/chat/chatgpt.go:268-291 | the stream is opened exactly when the request is sent and the status is below 300; a status of 300 or more is an error carrying the status and the body |
| LegacyChat.HandleLine | pkg/chat/chatgpt.go:315-372 | a line read with end of input always ends the call; the merging flag, once set, stays set, and a merging call never hands back a single chunk; a line that is not a data line and not a token is skipped, or ends the call with "EOF comes before [DONE]" at the end of the input |
| LegacyChat.Scan | pkg/chat/chatgpt.go:306-374 | every call of the loop moves the reader forward and ends at the latest with the read that meets the end of the input |
| LegacyChat.ScanStep | pkg/chat/chatgpt.go:309-373 | one turn of the loop either returns just past the line or goes on with the next line |
| LegacyChat.StepEnds | pkg/chat/chatgpt.go:309-373 | a returning line ends the call just past it; any other line is before the end of the input and the loop goes on from the next line |
| LegacyChat.ScanTurn | pkg/chat/chatgpt.go:309-373 | what handling one line gives is one turn of the loop |
| LegacyChat.RunOutWithoutData | pkg/chat/chatgpt.go:334-340 | input without another data line or token ends with "EOF comes before [DONE]", whatever was merged |
| LegacyChat.QuietLineSkipped | pkg/chat/chatgpt.go:338-340 | a full line that is neither a data line nor a token is passed over with the state unchanged |
| LegacyChat.RunOutAtEnd | pkg/chat/chatgpt.go:310-336 | the read that meets the end of the input with nothing but such a line ends the call with "EOF comes before [DONE]" |
| LegacyChat.ScanQuiet | pkg/chat/chatgpt.go:334-340 | a line that is neither a data line nor a token is passed over, or ends the call at the end of the input |
| LegacyChat.TrimSpaceEmpty | pkg/chat/chatgpt.go:315 | trimming the empty line leaves it empty |
| LegacyChat.TailChunkLost | pkg/chat/chatgpt.go:310-340 | a data line after the last newline is read together with end of input and reported as "EOF comes before [DONE]", so that chunk is never delivered |
| LegacyChat.DoneEndsStream | pkg/chat/chatgpt.go:322-331 | "[DONE]", with or without the data prefix, ends a call that is not merging with end of stream and no response |
| LegacyChat.ErrorLineFails | pkg/chat/chatgpt.go:318-320 | "{error", with or without the data prefix, is an error of that text |
| LegacyChat.MergingHoldsBack | pkg/chat/chatgpt.go:356-372 | once a call merges it never hands back a single chunk |
| LegacyChat.ChunkReturnedAndFolded | pkg/chat/chatgpt.go:342-372 | a chunk line without a function call, outside merging, is handed back converted, and is folded into the merged response, becoming it when there was none |
| LegacyChat.ChatGPTStream.constructor | pkg/chat/chatgpt.go:288-290 | a stream starts at the beginning of the body with nothing merged |
| LegacyChat.ChatGPTStream.ReadUntilNow | pkg/chat/chatgpt.go:376-378 | the merged response, nil exactly when nothing was merged |
| LegacyChat.ChatGPTStream.Handle | pkg/chat/chatgpt.go:315-372 | handling one line leaves the reader where it is and sets the merged response, the returned outcome and the merging flag as HandleLine states |
| LegacyChat.ChatGPTStream.Step | pkg/chat/chatgpt.go:310-372 | one read moves the reader past the line and is one turn of the loop |
| LegacyChat.ChatGPTStream.Recv | pkg/chat/chatgpt.go:306-374 | the loop ends with the outcome, reader position and merged response the scan specifies |
| ChatV2.CanonicalFrom | pkg/chat/v2/chat.go:69 | the canonical form of a header name has the name's length |
| ChatV2.Canonical | pkg/chat/v2/chat.go:69 | canonicalising a header name, as the header's Set does, keeps its length |
| ChatV2.CanonicalFromIgnoresCase | pkg/chat/v2/chat.go:69 | the canonical form of a header name does not depend on the case it is written in |
| ChatV2.Header.constructor | pkg/chat/v2/chat.go:65-73 | a header holds the given fields |
| ChatV2.Header.Values | pkg/chat/v2/chat.go:76 | a name with no field under its canonical form has no values |
| ChatV2.Header.Set | pkg/chat/v2/chat.go:69 | the field under the canonical name becomes the one given value, and every other field is unchanged |
| ChatV2.NewOutgoingContextWithForwardHeaders | pkg/chat/v2/chat.go:52-63 | the outgoing metadata holds, under its lower-cased name and with all its values, every header whose lower-cased name starts with "x-forwarded-for-" or "x-upstage-", and nothing else |
| ChatV2.AddForwardHeadersFromIncomingContext | pkg/chat/v2/chat.go:65-73 | without incoming metadata the header is unchanged; otherwise each metadata key starting with "x-forwarded-for-" sets, under its name without the prefix, the one value of its values joined by ","; every other header field is kept |
| ChatV2.OverrideModelFromHeaders | pkg/chat/v2/chat.go:75-81 | the first X-Upstage-Askup-Model value replaces the model name, and without that header the name stays |
| Palm.ValidateModel | pkg/chat/v2/palm/palm.go:22-32 | the search answers true exactly when the model is one of the client's models |
| Palm.NewPalmModel | pkg/chat/v2/palm/palm.go:38-61 | no client gives "client is required", then an empty project id "projectID is required", an empty token "token is required" and no model "At least one model is required"; the client is made exactly when all four are present and holds the options |
| Palm.DefaultsMakeClient | pkg/chat/v2/palm/palm_options.go:23-34 | the default options with a project id and a token make a client, whose models are chat-bison@001 and chat-bison@latest |
| Palm.ParameterKeys | pkg/chat/v2/palm/palm.go:173-188 | at most the four parameter keys are written |
| Palm.InstanceKeys | pkg/chat/v2/palm/palm.go:96-99 | the messages key is always written, last |
| Palm.BuildParams | pkg/chat/v2/palm/palm.go:173-188 | each of temperature, maximum output tokens, top-p and top-k is set in the parameters exactly when it is set in the options |
| Palm.ParametersFollowOptions | pkg/chat/v2/palm/palm.go:173-188 | the parameters carry each option's own value, and they are written as an empty object exactly when no option is set |
| Palm.Admit | pkg/chat/v2/palm/palm.go:69-79 | a call is admitted exactly when there are messages, a model, and the model is one of the client's |
| Palm.Authored | pkg/chat/v2/palm/palm.go:88-94 | one message per chat message, in order, its role becoming the author and its content kept |
| Palm.QueryOf | pkg/chat/v2/palm/palm.go:63-106 | a refused call builds nothing and returns the check's error; otherwise the query goes to the model's predict URL and holds one instance with the context (empty when unset) and every message, and the parameters of the options that are set |
| Palm.BuildQuery | pkg/chat/v2/palm/palm.go:63-106 | the checks and the append loop build exactly the query QueryOf describes |
| Palm.ContextSentOnlyWhenSet | pkg/chat/v2/palm/palm.go:81-99 | the context is written into the request exactly when it is set and not empty; the messages always are |
| Palm.NewChatRequest | pkg/chat/v2/palm/palm.go:63-122 | a refused call is an error; a marshal error is returned; otherwise the request goes to the query's URL with the marshalled body and, without incoming metadata, only the token as bearer authorization |
| Palm.ChatReply | pkg/chat/v2/palm/palm.go:123-169 | a send or read error is returned; a status other than 200 is "No 200 Response: " and the body; a parse error is returned; no predictions is "No Predections" and no candidates "No Candidates"; the reply succeeds exactly otherwise, with the first candidate's author and content and finish reason "stop" |
| LineReader.Lines | pkg/chat/chatgpt.go:310 | a body read line by line is the full lines followed by what is left after the last newline, and joining them with newlines gives the body back |
| BackendCompletion.AppendAssociative | backend/model/completion.go:34-37 | taking in two deltas one after the other is the same as taking in the two laid end to end |
| BackendCompletion.AppendEmpty | backend/model/completion.go:34-37 | an empty delta changes nothing, on either side |
| BackendCompletion.AppendAllIsSum | backend/model/completion.go:29-40 | taking in a run of deltas one by one is taking in their concatenation |
| BackendCompletion.SumContents | backend/model/completion.go:34 | the text of the concatenated deltas is their texts in order |
| BackendCompletion.MergeKeepsHeader | backend/model/completion.go:29-40 | the merge fails only by the nil dereference of a receiver without a delta when the chunk has one; it never changes object, id, creation time or token usage |
| BackendCompletion.DeltasOf | backend/model/completion.go:30-31 | the chunks that carry a delta contribute one each, so there are never more deltas than chunks |
| BackendCompletion.MergeEachAppends | backend/model/completion.go:29-40 | a completion with a delta takes in every chunk without failing, its delta becoming its own followed by the chunks' deltas end to end, chunks without a delta skipped |
| BackendCompletion.CompletionDelta.constructor | backend/model/completion.go:22-27 | a delta holds the given text and lists |
| BackendCompletion.Completion.constructor | backend/model/completion.go:14-20 | a completion holds the given contents, with a fresh delta of its own when it has one |
| BackendCompletion.Completion.Merge | backend/model/completion.go:29-40 | a nil chunk or one without a delta changes nothing; a receiver without a delta dereferences nil; otherwise the delta's text, references, keywords and related queries each grow by the chunk's, in order, and nothing else changes |
| SseRequest.HandleData | backend/internal/http/request/stream.go:86-106 | data starting with the error token ends the call with the message the report carries, or "failed to unmarshal error response"; "[DONE]" ends it with io.EOF; otherwise a chunk is received exactly when the data decodes, and it is the decoded chunk |
| SseRequest.Respond | backend/internal/http/request/stream.go:86-118 | a received chunk is folded into the merged completion (becoming it when there was none); an error leaves the merged completion as it was |
| SseRequest.Scan | backend/internal/http/request/stream.go:69-120 | every call either hands back a chunk that has been folded into the merged completion, or fails with the merged completion unchanged |
| SseRequest.ScanSkip | backend/internal/http/request/stream.go:80-84 | a trimmed line without the data prefix is passed over |
| SseRequest.ScanData | backend/internal/http/request/stream.go:80-118 | a data line is answered and the call ends just past it |
| SseRequest.RunOut | backend/internal/http/request/stream.go:71-75 | at the end of the input every call fails with "EOF comes before [DONE]" |
| SseRequest.SkipsNonData | backend/internal/http/request/stream.go:70-84 | a run of lines that are not data lines is passed over, so a call reads on to the first data line |
| SseRequest.DataLineEnds | backend/internal/http/request/stream.go:86-118 | a data line ends the call one line on: "[DONE]" with io.EOF and the merged completion unchanged, an error report with its message, a decodable chunk with that chunk, folded into the merged completion |
| SseRequest.CreateChatStream | backend/internal/http/request/stream.go:24-51 | a failed request or send is returned as is; the stream is opened exactly when the status is below 300, over the reply's body; a status of 300 or more is an error carrying the status and the body |
| SseRequest.SSEStream.constructor | backend/internal/http/request/stream.go:47-50 | a stream starts at the beginning of the body with nothing merged |
| SseRequest.SSEStream.ReadUntilNow | backend/internal/http/request/stream.go:122-124 | the merged completion, nil exactly when no chunk has been read, and holding the merged contents otherwise |
| SseRequest.SSEStream.Reply | backend/internal/http/request/stream.go:86-118 | answering one data line sets the merged completion and the returned chunk or error as Respond states; the first chunk received becomes the merged completion itself, the same object that is returned |
| SseRequest.SSEStream.Recv | backend/internal/http/request/stream.go:69-120 | the loop ends at the position, with the merged completion and the chunk or error, that Scan specifies; the first chunk returned is the merged completion itself, and later ones are fresh objects whose deltas are appended to it |
| SseResponse.ResponseWriter.constructor | backend/internal/http/response/stream.go:8-19 | a writer starts with no header, an empty body and nothing flushed |
| SseResponse.WriteFrame | backend/internal/http/response/stream.go:8-19 | a writer that cannot flush is refused with "streaming unsupported" and left as it was; otherwise the content type becomes text/event-stream;charset=utf-8, the frame is appended to the body and everything written is flushed |
| SseResponse.WriteStreamResponse | backend/internal/http/response/stream.go:8-19 | the payload is written as one frame "data: " + payload + a blank line, flushed at once; a writer that cannot flush is refused and unchanged |
| SseResponse.WriteStreamErrorResponse | backend/internal/http/response/stream.go:21-32 | the error's message is written, unescaped, as the frame {"error": "message"}, flushed at once; a writer that cannot flush is refused and unchanged |
| SseResponse.FrameLines | backend/internal/http/response/stream.go:15 | frames written one after another make two lines each |
| SseResponse.FrameLinesAt | backend/internal/http/response/stream.go:15 | the k-th payload's data line comes at line 2k and its blank line at 2k + 1 |
| SseResponse.DataLine | backend/internal/http/response/stream.go:15 | the data line of a payload without a newline and without trailing space holds no newline and is left alone by trimming |
| SseResponse.SplitFrame | backend/internal/http/response/stream.go:15 | a frame splits off the front of what follows as its data line and one blank line |
| SseResponse.FramesFirst | backend/internal/http/response/stream.go:15 | a run of frames is the first frame followed by the others |
| SseResponse.Regroup | backend/internal/http/response/stream.go:15 | two lines in front of a list ending with an empty line still end with it |
| SseResponse.FramesSplit | backend/internal/http/response/stream.go:15 | frames written one after another split at the newlines into their lines, each data line followed by a blank one, and an empty remainder |
| SseResponse.FramesLines | backend/internal/http/response/stream.go:15 | the line reader sees the written frames as their lines, in order, with nothing left over |
| SseResponse.DataAt | backend/internal/http/response/stream.go:15 | at the data line of a readable payload the stream reader answers that payload and moves one line on |
| SseResponse.BlankAt | backend/internal/http/response/stream.go:15 | the stream reader passes over the blank line that ends a frame |
| SseResponse.ReadBack | backend/internal/http/response/stream.go:8-19 | round trip: of frames written one after another, the k-th is what the backend's stream reader answers on reaching its data line, and the blank line after it is passed over on the way to the next |
| SseResponse.ChunkRoundTrip | backend/internal/http/response/stream.go:8-19 | a chunk written as a frame and read back by the stream reader is the chunk, which becomes the merged completion |
| SseResponse.ErrorFrameRecognised | backend/internal/http/response/stream.go:21-32 | an error frame is read back as an error, never as a chunk, and leaves the merged completion as it was |
| EventQuery.QARecord.constructor | backend/consumer/event/query.go:12 | a QA record holds the given QA |
| EventQuery.Query.constructor | backend/consumer/event/query.go:7-10 | a query holds the given QA and creation flag |
| EventQuery.StringFields | backend/consumer/event/query.go:21-35 | the five string fields a merge may overwrite |
| EventQuery.MergeStrings | backend/consumer/event/query.go:21-35 | each string field of the merged QA is the newer one when that is non-empty and the older one otherwise |
| EventQuery.MergeKeeps | backend/consumer/event/query.go:12-51 | id, creation time, vote and every field the merge does not name come from the older QA, and the update time from the newer |
| EventQuery.MergeBlank | backend/consumer/event/query.go:21-48 | a newer QA with nothing to contribute only moves the update time |
| EventQuery.MergeSelf | backend/consumer/event/query.go:21-48 | merging a QA into itself changes nothing |
| EventQuery.MergeAssociative | backend/consumer/event/query.go:21-48 | merging is associative, so a run of updates can be merged in any grouping |
| EventQuery.MergeQA | backend/consumer/event/query.go:12-51 | a nil newer QA yields the older record unchanged, a nil older QA yields the newer record, and otherwise the newer QA is merged into the older record, which is returned |
| EventQuery.TakeStrings | backend/consumer/event/query.go:21-35 | each non-empty string of the newer QA replaces the older one, and nothing else changes |
| EventQuery.TakeCounts | backend/consumer/event/query.go:36-48 | a non-zero token count and non-empty references, keywords and related queries replace the older ones; the update time always does |
| EventQuery.Of | backend/consumer/event/query.go:53-70 | the QAs of one id, in input order, all carry that id |
| EventQuery.MergeAllKeys | backend/consumer/event/query.go:53-70 | the merge holds one entry per distinct QA id of the batch, and no other |
| EventQuery.MergeAllFolds | backend/consumer/event/query.go:53-70 | each entry's QA is the QAs of that id merged one after another, in input order |
| EventQuery.MergeAllCreates | backend/consumer/event/query.go:66 | an entry creates the record exactly when one of its queries does |
| EventQuery.OfEmpty | backend/consumer/event/query.go:53-70 | an id the batch does not hold has no QAs |
| EventQuery.Column | backend/consumer/event/query.go:21-35 | one string field taken across a list of QAs |
| EventQuery.LastSetIs | backend/consumer/event/query.go:21-35 | the chosen value is the first one with nothing set after it, or a non-empty value with nothing set after it |
| EventQuery.FoldLastNonEmpty | backend/consumer/event/query.go:53-70 | in the merge of an id, each string field is the last non-empty value given for it, or the first QA's value when no later one sets it |
| EventQuery.FoldKeepsFirst | backend/consumer/event/query.go:53-70 | in the merge of an id, the fields a merge never writes are the first QA's and the update time is the last QA's |
| EventQuery.Snapshots | backend/consumer/event/query.go:55 | one value per query object |
| EventQuery.FirstIndex | backend/consumer/event/query.go:59-61 | the first position of an id in a batch |
| EventQuery.MergeAllStep | backend/consumer/event/query.go:55-67 | one more query adds a new id's entry, or is merged into its id's entry with the flag or-ed in |
| EventQuery.NewIdFirst | backend/consumer/event/query.go:59-61 | an id not seen before a position first occurs there |
| EventQuery.HoldsExtend | backend/consumer/event/query.go:59-61 | adding a new entry keeps every entry holding its merged value and one query object per id |
| EventQuery.TakeFirst | backend/consumer/event/query.go:59-61 | the first query of a new id becomes its entry |
| EventQuery.Absorb | backend/consumer/event/query.go:64-66 | a later query of an id is merged into that id's entry, the merged QA stored back and the flag or-ed in |
| EventQuery.Step | backend/consumer/event/query.go:55-67 | one turn of the loop takes the query as a new entry or merges it in |
| EventQuery.Started | backend/consumer/event/query.go:54 | before the first query nothing is built |
| EventQuery.Finished | backend/consumer/event/query.go:69 | after the last query the entries are exactly the merge of the batch |
| EventQuery.MergeQueries | backend/consumer/event/query.go:53-70 | the result has one entry per QA id of the batch; each entry is the first query object of its id, and it ends up holding every QA of the id merged in input order, creating the record exactly when one of them does |
| EventModel.FromProtoReference | backend/consumer/event/model.go:12-32 | a nil reference gives "reference is nil" and an empty id "reference id is empty"; the conversion succeeds exactly otherwise and keeps the id |
| EventModel.ReferenceRoundTrip | backend/consumer/event/model.go:12-32 | a reference with an id, sent over the wire and converted back, is unchanged, its instant included |
| EventModel.FromProtoReferences | backend/consumer/event/model.go:91-98 | the references convert exactly when each is present with an id, one converted reference per wire reference in order; otherwise the error is that of the first unacceptable one |
| EventModel.ReferencesRoundTrip | backend/consumer/event/model.go:91-98 | a list of references with ids, sent over the wire and converted back, is unchanged |
| EventModel.WireList | backend/model/reference.go:38-46 | the wire list holds one non-nil reference per reference, in order |
| EventModel.ConvertEventToQuery | backend/consumer/event/model.go:44-111 | the header checks, the switch over the kind and the append loop over the references compute the conversion of the event |
| EventModel.FailingPrefix | backend/consumer/event/model.go:92-96 | a failing reference makes the whole event fail with its error, whatever follows it |
| EventModel.ConvertAccepts | backend/consumer/event/model.go:44-86 | an event is rejected exactly when its QA id, body or timestamp is missing, a created question lacks a chat or session id, or a reference is nil or without an id; a missing id, body or timestamp gives "event id is empty", "event is empty" and "event created at is empty", in that order |
| EventModel.ConvertHeader | backend/consumer/event/model.go:63-110 | an accepted event names its QA and stamps the update time with the event's time; only a created question asks for a new record |
| EventModel.QuestionCreatedFields | backend/consumer/event/model.go:71-86 | a created question fills chat, session, job group, question and creation time (equal to the update time), and nothing else beyond the id and update time |
| EventModel.OtherKindsSetOneField | backend/consumer/event/model.go:87-104 | every other kind sets exactly its own field: answer, token count, references, keywords or related queries |
| EventModel.ReferencesEventRoundTrip | backend/consumer/event/model.go:91-98 | references sent in an event with their ids set arrive on the QA unchanged and in order |
| BackendModel.TimestampOf | backend/model/reference.go:30 | the wire timestamp holds whole seconds rounded down and the nanoseconds within the second, always in [0, 10^9) |
| BackendModel.AsTime | backend/consumer/event/model.go:26 | a missing timestamp reads as the Unix epoch |
| BackendModel.AsTimeTimestampOf | backend/model/reference.go:30 | an instant survives the trip to the wire timestamp and back |
| BackendModel.ToProto | backend/model/reference.go:24-36 | the conversion never fails; it keeps the id and always sets the attributes and the timestamp |
| BackendModel.ToProtos | backend/model/reference.go:38-46 | one wire reference per reference, in order, with the same ids |
| BackendModel.NewQA | backend/consumer/event/model.go:63-66 | a new partial QA holds the id and update time, and every other field at its zero value |
| Calendar.DaysIn | backend/service/statistics.go:379-382 | a month of the proleptic Gregorian calendar that Go's `time` uses has 28 to 31 days |
| Calendar.YearStartStep | backend/service/statistics.go:379-388 | each year starts where the previous one ends, so consecutive day numbers walk the calendar without gaps |
| Calendar.BeforeIffDayNumber | backend/service/statistics.go:73 | one date is before another exactly when its day number is smaller, so comparing instants compares dates |
| Calendar.DayNumberInjective | backend/service/statistics.go:73 | two valid dates with the same day number are the same date |
| Calendar.CivilOf | backend/service/statistics.go:74 | the date of a day number is a valid calendar date |
| Calendar.DayNumberOfCivil | backend/service/statistics.go:74 | converting a day number to a date and back gives the day number |
| Calendar.CivilOfDayNumber | backend/service/statistics.go:74 | converting a valid date to its day number and back gives the date |
| Calendar.DateOf | backend/service/statistics.go:83 | every instant falls on a valid date |
| Calendar.HourOf | backend/service/statistics.go:143 | the hour of an instant, as `Hour()` reads it, lies in 0..23 |
| Calendar.ZeroTimeIsYearOne | backend/handler/qa.go:47 | Go's zero time is the midnight of 1 January of year 1 |
| Calendar.NextDay | backend/service/statistics.go:385-388 | adding 24 hours moves an instant strictly later |
| Calendar.NextMonthStart | backend/service/statistics.go:379-382 | the first day of the following month is a valid date |
| Calendar.NextMonthLater | backend/service/statistics.go:379-382 | `AddDate(0, 1, 0)` moves an instant strictly later, whatever its day of the month |
| Calendar.NextMonthOfMidnight | backend/service/statistics.go:379-382 | adding a month to the midnight of a day keeps the day of the month, counted from the first of the next month |
| Calendar.MidnightDate | backend/handler/statistics.go:22 | a parsed day's midnight falls on that day, at hour 0 and on a day boundary |
| Calendar.MidnightWithinDay | backend/handler/statistics.go:40 | a day's midnight is not after the last nanosecond of another day exactly when that other day is not before it |
| Calendar.MidnightOrder | backend/handler/statistics.go:36 | `from.After(to)` on two midnights holds exactly when `to`'s day is before `from`'s |
| Calendar.MidnightZero | backend/handler/qa.go:47 | a day's midnight is the zero time exactly when the day is 1 January of year 1 |
| Calendar.PadToValue | backend/service/statistics.go:18 | a number zero-padded to a width reads back as that number |
| Calendar.PadToLength | backend/service/statistics.go:18 | a number below the width's power of ten, zero-padded to that width, is exactly that wide |
| Calendar.NatToStringBound | backend/service/statistics.go:18 | a number fits in a width exactly when it is below ten to that width |
| Calendar.ParseDate | backend/handler/statistics.go:22 | `time.Parse(time.DateOnly, ...)` accepts only valid dates of years 0 to 9999 |
| Calendar.ParseFormatDate | backend/service/statistics.go:18 | a valid date formatted as `yyyy-MM-dd` parses back to the same date |
| StrOrder.LessIrreflexive | backend/service/statistics.go:100-102 | the byte order `<` on strings that the sorts use is irreflexive |
| StrOrder.LessTransitive | backend/service/statistics.go:100-102 | that order is transitive |
| StrOrder.LessTotal | backend/service/statistics.go:100-102 | any two distinct strings are ordered one way or the other |
| StrOrder.LessAsymmetric | backend/service/statistics.go:100-102 | the order never holds both ways |
| StrOrder.SortedNoDups | backend/service/statistics.go:96-102 | a strictly sorted key list has no duplicates |
| StrOrder.SortedUnique | backend/service/statistics.go:96-102 | two strictly sorted lists with the same members are equal, so the sorted bucket keys do not depend on Go's map order |
| StrOrder.Insert | backend/service/statistics.go:100-102 | inserting a key adds exactly that key and one element |
| StrOrder.InsertSorted | backend/service/statistics.go:100-102 | inserting a new key into a sorted list keeps it sorted |
| StrOrder.SortKeys | backend/service/statistics.go:96-102 | the keys of a map, sorted ascending: the unique sorted list of exactly those keys |
| StatPeriod.UnitOf | backend/service/statistics.go:377-389 | a report buckets by month exactly when the unit is "MONTH", by day otherwise |
| StatPeriod.Step | backend/service/statistics.go:376-389 | the next bucket's instant is strictly later, which ends the label walk |
| StatPeriod.WalkStep | backend/service/statistics.go:73-80 | one step of the walk appends the current label and continues from the next instant |
| StatPeriod.WalkLabels | backend/service/statistics.go:67-80 | corrected (Finding 9): the walk's labels in order, and a table with one empty entry per label |
| StatPeriod.NotBeforeDay | backend/service/statistics.go:73 | an instant at or after a day's midnight does not fall before that day |
| StatPeriod.SameDay | backend/service/statistics.go:83 | two instants within the same day have the same date |
| StatPeriod.DayWalkCovers | backend/service/statistics.go:73-80 | a day walk from a midnight has the bucket of every instant up to `to` among its labels |
| StatPeriod.MonthWalkCovers | backend/service/statistics.go:73-80 | a month walk from the first of a month has the bucket of every instant up to `to` among its labels |
| StatPeriod.LabelsCoverWindow | backend/service/statistics.go:67-93 | the labels cover the window: every instant from `from` to `to` has its bucket among them |
| StatPeriod.AsWrittenMonthLabelsMissBucket | backend/service/statistics.go:379-382 | as written, a month walk from the middle of a month can step past `to` and leave a bucket of the window without a label |
| StatPeriod.KeysOfSnoc | backend/service/statistics.go:82-87 | the buckets of the QAs grow by the bucket of each QA taken |
| Statistics.JobLabel | backend/service/statistics.go:89-92 | a QA's job group label is never empty: an empty job group is "기타" |
| Statistics.JobGroupsMeaning | backend/service/statistics.go:37-53 | a job group is listed exactly when some QA carries that label, and the empty label never is |
| Statistics.JobLabelIn | backend/service/statistics.go:37-53 | every QA's label is among the listed job groups |
| Statistics.JobGroupList | backend/service/statistics.go:37-53 | the job group list names each group of the QAs exactly once |
| Statistics.GroupOrder | backend/service/statistics.go:55-63 | the comparator is a strict total order that puts "기타" after every other group |
| Statistics.UnitLabels | backend/service/statistics.go:104-117 | one label per series |
| Statistics.InsertUnit | backend/service/statistics.go:119-121 | inserting a series adds one element |
| Statistics.InsertUnitElements | backend/service/statistics.go:119-121 | inserting a series adds that series and keeps the others |
| Statistics.InsertName | backend/service/statistics.go:119-121 | inserting a label adds one element |
| Statistics.InsertUnitLabels | backend/service/statistics.go:119-121 | inserting a series inserts its label into the labels |
| Statistics.InsertNameSorted | backend/service/statistics.go:119-121 | inserting a new label into labels in comparator order keeps them in order and adds exactly that label |
| Statistics.InsertUnitSorted | backend/service/statistics.go:119-121 | inserting a series with a new label keeps the series in comparator order |
| Statistics.GroupSortedNoDups | backend/service/statistics.go:119-121 | series in comparator order have distinct labels |
| Statistics.SortUnits | backend/service/statistics.go:119-121 | sorting the series: the same labels, each once, in comparator order, and only series of the input |
| Statistics.SessionsMeaning | backend/service/statistics.go:82-94 | a session counts in a bucket and job group exactly when one of its QAs falls there |
| Statistics.Fresh | backend/service/statistics.go:28-35 | a fresh job group table has an empty session set for each group |
| Statistics.SessionsSnoc | backend/service/statistics.go:82-94 | taking one more QA adds its session to its bucket and group only |
| Statistics.SessionsAbsent | backend/service/statistics.go:82-94 | a bucket no QA falls in has no sessions |
| Statistics.GroupedStep | backend/service/statistics.go:82-94 | one QA step keeps every bucket's sets equal to the sessions seen so far |
| Statistics.GroupSessions | backend/service/statistics.go:82-94 | the bucket table: every labelled and every QA bucket, with each group's set being exactly its sessions |
| Statistics.SessionCounts | backend/service/statistics.go:104-117 | one count per bucket |
| Statistics.BuildUnits | backend/service/statistics.go:104-117 | one series per job group, each holding the group's number of sessions in each bucket in order |
| Statistics.ExtractUserTrends | backend/service/statistics.go:65-127 | corrected (Finding 9): labels of the walk; one series per job group in comparator order, counting distinct sessions per bucket over all buckets in ascending order |
| Statistics.HourLabels | backend/service/statistics.go:134-140 | the hourly labels are the 24 hours |
| Statistics.Hours | backend/service/statistics.go:134-140 | the hours are 0 to 23 in order |
| Statistics.HourTable | backend/service/statistics.go:130-140 | a table with an empty job group map for each of the 24 hours and no other key |
| Statistics.ExtractUserTrendsHourly | backend/service/statistics.go:129-173 | labels "0" to "23"; one series per job group in comparator order, counting distinct sessions per hour of the day |
| Statistics.SurveyShares | backend/service/statistics.go:184-192 | with votes the two shares lie in [0, 100], add up to 100 and reach 100 exactly when all votes are of that kind; without votes both are -1 |
| Statistics.ExtractSatisfactionSurvey | backend/service/statistics.go:175-198 | the survey of the "up" and "down" votes, other votes ignored |
| Statistics.Tallies | backend/service/statistics.go:227-230 | one value per bucket |
| Statistics.TallyHistory | backend/service/statistics.go:200-274 | corrected (Finding 9): labels of the walk and, per bucket in ascending order, the QAs' weight there: their number or their tokens |
| Statistics.CountBuckets | backend/service/statistics.go:214-217 | the counting loop leaves each bucket holding the weight of its QAs, a bucket the walk did not make starting at zero |
| Statistics.TalliedStep | backend/service/statistics.go:214-217 | one QA step adds its weight to its own bucket only |
| Statistics.TalliesSnoc | backend/service/statistics.go:227-230 | appending one bucket's value extends the history by that bucket's tally |
| Statistics.TallyAbsent | backend/service/statistics.go:214-217 | a bucket no QA falls in tallies zero |
| Statistics.TalliesStep | backend/service/statistics.go:214-217 | one more QA in one of the buckets raises their sum by its weight |
| Statistics.TalliesSum | backend/service/statistics.go:214-230 | over distinct buckets that hold every QA's bucket, the tallies add up to the total weight |
| Statistics.SumZero | backend/service/statistics.go:214-230 | over no QAs every bucket sums to zero |
| Statistics.AskHistoryTotal | backend/service/statistics.go:200-236 | the ask history counts every QA exactly once |
| Statistics.TokenHistoryTotal | backend/service/statistics.go:238-274 | the token history adds up to the tokens of all QAs |
| Statistics.TotalOne | backend/service/statistics.go:214-217 | counting each QA as one totals the number of QAs |
| Statistics.ReportKeysAreLabels | backend/service/statistics.go:200-236 | corrected (Finding 9): when every QA lies in the window, the history's buckets are exactly the walk's labels |
| Statistics.KeysWithin | backend/service/statistics.go:214-217 | corrected (Finding 9): QAs of the window fall in labelled buckets |
| KeywordTrends.CountsMeaning | backend/service/statistics.go:296-306 | a count table lists a keyword exactly when it occurs, with its number of occurrences |
| KeywordTrends.BagMeaning | backend/service/statistics.go:290-307 | a keyword is counted exactly when some QA carries it |
| KeywordTrends.CountsTable | backend/service/statistics.go:296-306 | a table agreeing with the occurrences on every keyword is their count table |
| KeywordTrends.Bump | backend/service/statistics.go:297-305 | adding one occurrence, starting an absent keyword at zero, gives the count table of one more occurrence |
| KeywordTrends.BagSnoc | backend/service/statistics.go:290-307 | one more QA adds its keywords to the window and to its own bucket |
| KeywordTrends.BagInAbsent | backend/service/statistics.go:290-307 | a bucket no QA falls in has no occurrences |
| KeywordTrends.DailyStep | backend/service/statistics.go:290-307 | one QA step keeps each bucket's table equal to the count table of its occurrences |
| KeywordTrends.StartTable | backend/service/statistics.go:292-295 | a bucket the walk did not make starts with an empty table |
| KeywordTrends.CountStep | backend/service/statistics.go:290-307 | one QA step keeps the summary and the bucket tables counting the QAs seen so far |
| KeywordTrends.CountKeywords | backend/service/statistics.go:279-307 | the summary counts every keyword occurrence of the window and each bucket's table those of its own QAs, over every labelled and every QA bucket |
| KeywordTrends.CountQA | backend/service/statistics.go:296-306 | one QA's keywords are added to the summary and to its bucket's table |
| KeywordTrends.SumBagsStep | backend/service/statistics.go:290-307 | one more QA adds its keywords to exactly one bucket |
| KeywordTrends.SumBagsEmpty | backend/service/statistics.go:290-307 | without QAs the buckets hold nothing |
| KeywordTrends.BucketsPartition | backend/service/statistics.go:279-307 | the buckets' occurrences together are the window's occurrences, so the per-bucket rankings split the summary |
| KeywordTrends.Names | backend/service/statistics.go:314-322 | one name per block |
| KeywordTrends.InsertBlock | backend/service/statistics.go:323-325 | inserting a block adds one element |
| KeywordTrends.InsertBlockElements | backend/service/statistics.go:323-325 | inserting a block adds that block and keeps the others |
| KeywordTrends.DescendingCons | backend/service/statistics.go:323-325 | a block counted at least as much as every block behind it heads a descending ranking |
| KeywordTrends.InsertBlockDescending | backend/service/statistics.go:323-325 | inserting a block into a descending ranking keeps it descending |
| KeywordTrends.NoDupsCons | backend/service/statistics.go:314-322 | a list headed by a name has distinct names exactly when the head is new and the rest distinct |
| KeywordTrends.InsertBlockNames | backend/service/statistics.go:314-325 | inserting a block with a new keyword keeps the names distinct and adds exactly that keyword |
| KeywordTrends.SortBlocks | backend/service/statistics.go:323-325 | sorting by count: the same keywords, each once, counts never increasing, only blocks of the input |
| KeywordTrends.RankAll | backend/service/statistics.go:314-328 | a full ranking of a count table: every keyword once with its count, counts never increasing, numbered from 1 |
| KeywordTrends.TopRanking | backend/service/statistics.go:329 | the first ten of a full ranking are a ranking cut to ten: nothing left out is counted more than a listed keyword |
| KeywordTrends.TopShape | backend/service/statistics.go:329 | a prefix of a ranking keeps its numbering, counts, order and distinct names |
| KeywordTrends.TopLeftOut | backend/service/statistics.go:329 | a keyword the prefix leaves out is counted no more than any listed one |
| KeywordTrends.RankingListsAll | backend/service/statistics.go:314-328 | a full ranking lists every keyword of the table |
| KeywordTrends.RankBuckets | backend/service/statistics.go:331-355 | one full ranking per bucket, in the given order |
| KeywordTrends.CutRankings | backend/service/statistics.go:357-361 | every bucket's ranking is cut to its top ten, the others kept |
| KeywordTrends.RankDaily | backend/service/statistics.go:331-361 | per bucket, in ascending order, the top ten of that bucket's keyword occurrences |
| KeywordTrends.ExtractKeywordTrends | backend/service/statistics.go:276-367 | corrected (Finding 9): the summary labelled with the buckets of `from` and `to`, ranking the window's top ten; per bucket in ascending order, that bucket's top ten |
| StatReport.GetStatistics | backend/service/statistics.go:369-422 | corrected (Finding 9): a repository error is passed on; otherwise each of the six parts is computed from the listed QAs with the chosen unit |
| StatReport.ReportOrdered | backend/service/statistics.go:402-412 | the report's final sorts find their order already in place: rankings descending and time-based rankings by ascending bucket |
| StatReport.ReportTotals | backend/service/statistics.go:391-412 | the ask history counts every QA once, the token history every token, and the histories and keyword rankings share their buckets |
| QAHandler.OptionalDate | backend/handler/qa.go:30-45 | an absent date is the zero time; a present one must parse as `yyyy-MM-dd` and is its midnight |
| QAHandler.ListParamsDates | backend/handler/qa.go:29-55 | a present date that does not parse is refused, `from` first; two set dates out of order are refused; `from` is its midnight and a set `to` the last nanosecond of its day |
| QAHandler.ListParamsCounts | backend/handler/qa.go:57-92 | offset defaults to 0 and limit to 10; a non-number or a negative value is refused, offset first; the search text is kept as given |
| QAHandler.ListParamsRoundTrip | backend/handler/qa.go:29-92 | dates in order written as `yyyy-MM-dd` and counts that fit a 64-bit int written in decimal read back as the window, those counts and the search text |
| QAHandler.StatusMapping | backend/handler/qa.go:95-239 | an unreadable request is 400, a missing record 404 except in the list, any other service error 500, success 200 with a body or 204 without |
| QAHandler.ListStatusCases | backend/handler/qa.go:160-173 | the list answers 400 exactly for unreadable parameters, 500 for a service error, and never 404 |
| StatHandler.PrepareParams | backend/handler/statistics.go:17-43 | both dates are required and must parse, `from` not after `to`; each error is reported in order; the window runs from `from`'s midnight to the last nanosecond of `to`'s day |
| StatHandler.UnitOf | backend/handler/statistics.go:54-62 | the unit defaults to "DAY" and only "MONTH" or "DAY" is accepted |
| StatHandler.StatisticsStatus | backend/handler/statistics.go:45-71 | 400 for a bad window or unit, 500 for a service error, 200 otherwise |
| StatHandler.PrepareRoundTrip | backend/handler/statistics.go:17-43 | dates written as `yyyy-MM-dd` read back as the window when in order, and are refused when out of order |
| Common.Atoi | backend/handler/qa.go:61-73 | strconv.Atoi succeeds exactly on a signed decimal whose value fits Go's 64-bit int, and gives that value |
| Common.AtoiIntToString | backend/handler/qa.go:61-73 | every 64-bit int written in decimal reads back as itself |
| CompletionService.Reversed | backend/service/completion.go:117 | reversing keeps the length |
| CompletionService.ReversedConcat | backend/service/completion.go:371 | reversing a concatenation reverses each part and swaps them |
| CompletionService.EntriesErrStays | backend/service/completion.go:332-353 | a reference encoding error in a later QA is returned whatever earlier QAs hold, because the walk meets later QAs first |
| CompletionService.EntriesStep | backend/service/completion.go:332-369 | the history from one QA on is that QA's contribution followed by the history of the rest |
| CompletionService.EntriesFailsAt | backend/service/completion.go:349-353 | when a kept QA's references cannot be encoded and the later QAs can, the history fails with that error |
| CompletionService.PieceReversed | backend/service/completion.go:344-368 | the answer, references and question appended for one QA, reversed, are its question, references and answer |
| CompletionService.ContributionByRole | backend/service/completion.go:337-368 | one QA contributes its question as a user message, its encoded references under the reference role and its answer as an assistant message, or nothing when either text is empty |
| CompletionService.ReversedPrefixStep | backend/service/completion.go:85-117 | walking the latest-first list forwards builds the reversal of the list from its end |
| CompletionService.ReverseInPlace | backend/service/completion.go:117 | `slices.Reverse` on the message slice leaves it back to front |
| CompletionService.ReverseMessages | backend/service/completion.go:371 | the messages reversed |
| CompletionService.MessagesWithChatHistory | backend/service/completion.go:320-373 | the session's answered QAs in chronological order (question, "function" references named "search", answer) before the caller's messages; a reference encoding error is returned instead; a store error leaves no history |
| CompletionService.MessagesMulti | backend/service/completion.go:73-119 | the chat's last QAs, listed latest first, in chronological order (question, "tool" references named "search", answer) before the caller's messages; an encoding error is returned; a store error leaves no history |
| CompletionService.WithRoleConcat | backend/service/completion.go:344-368 | the messages of a role in a concatenation are those of each part in order |
| CompletionService.EntriesByRole | backend/service/completion.go:332-371 | a history's user messages are the answered QAs' questions, its assistant messages their answers and its reference messages their encoded references, each in QA order |
| CompletionService.EntriesError | backend/service/completion.go:349-353 | the history fails exactly when some answered QA's references cannot be encoded, with the error of the latest one |
| CompletionService.EntriesEndWithAnswer | backend/service/completion.go:332-371 | a history is non-empty exactly when some QA is answered, and then ends with the latest answer |
| CompletionService.LastUserMeaning | backend/service/completion.go:378-385 | the message found has role "user" and no later message does; nothing is found exactly when no message has that role |
| CompletionService.LastUserOfSuffix | backend/service/completion.go:373-407 | a user message of the caller's is found before any in the history |
| CompletionService.LastUserOfEntries | backend/service/completion.go:332-385 | in a history alone, the message found is the latest answered QA's question |
| CompletionService.QuestionAsked | backend/service/completion.go:373-416 | the question recorded is the caller's last user message, or when there is none the latest answered QA's question |
| CompletionService.FindLastUserMessage | backend/service/completion.go:378-385 | the walk from the end returns the last message with role "user", or nothing |
| CompletionService.AdmitCases | backend/service/completion.go:387-423 | empty chat id or session, the session "error-test" and no user message fail in that order; otherwise the question event is written and a write error returned |
| CompletionService.AdmittedEventCreatesQA | backend/service/completion.go:408-419 | the question event is one the event consumer turns into a new QA with that id, chat, session, job group, question and time |
| CompletionService.SingleWordNoSpace | backend/service/completion.go:444 | `strings.Split` on " " gives one part exactly when the question has no space |
| CompletionService.StreamStartCases | backend/service/completion.go:430-460 | the session "stream-error-test" yields one error; a last message not from the user yields one error; a question without a space yields the canned reply and the end mark; otherwise the stream goes on |
| BackendDb.SplitJoin | backend/internal/db/postgres.go:10-12 | joining pieces free of the separator and splitting again gives the pieces back |
| BackendDb.PairNoSpace | backend/internal/db/postgres.go:10-12 | a `key=value` pair holds a space only where its key or value does |
| BackendDb.PostgresRoundTrip | backend/internal/db/postgres.go:8-14 | with no space in any value, the DSN splits into host, port, user, password, dbname and the TLS pairs, in that order and verbatim |
| BackendDb.PostgresSslMode | backend/internal/db/postgres.go:9-12 | TLS is disabled exactly when no certificate path is given; with one, the mode is verify-full and the path is the last pair |
| BackendDb.JoinSplice | backend/internal/db/postgres.go:10 | a value holding the separator joins to the same text as two separate pieces |
| BackendDb.PostgresPasswordUnquoted | backend/internal/db/postgres.go:10 | nothing is quoted: a password holding a space reads back as two fields |
| BackendDb.AddressNoAt | backend/internal/db/mysql.go:9 | the address part holds no '@' unless a value does |
| BackendDb.MySQLRoundTrip | backend/internal/db/mysql.go:8-10 | with no '@' in any value the DSN splits at '@' into `user:password` and `tcp(host:port)/dbname?parseTime=true`; the credentials split back into user and password; it always ends with "?parseTime=true" |
| TextQuery.NormalizeInputs | search/service/searcher/opensearch/query_strategy/text_search.go:170-183 | the loop fails with the secondary-should error exactly when some field is "should" with secondary-should set; on success every field's empty source field becomes its key and the inputs are one per field, in an enumeration of all keys, valued by the query's entry for the key; on failure each field is untouched or already normalized |
| LegacyChat.AssembleQuery | pkg/chat/chatgpt.go:116-166 | the body built step by step is the one QueryOf states, including the refusals of a missing model, non-GPT options and a non-GPT model name |
| LegacyChat.ChatGPTStream.HandleTurn | pkg/chat/chatgpt.go:315-372 | handling the trimmed line read at a position is one turn of the scan: its outcome, next position and merged response |
| KeywordTrends.CollectBlocks | backend/service/statistics.go:316-322 | one block per keyword of the count table, in iteration order, each with that keyword's count |
| KeywordTrends.NumberBlocks | backend/service/statistics.go:326-328 | the blocks are numbered 1, 2, ... in order, with names and counts kept |
| KeywordTrends.Increment | backend/service/statistics.go:297-300 | counting a keyword, an absent one starting at zero, gives the count table of one more occurrence |
| EventModel.ConvertReferences | backend/consumer/event/model.go:92-98 | the references are converted and appended in order, and the first that fails ends the loop with its error |
| MergeChunks.AbsorbChunk | conversation/service/function/search.go:32-44 | the first held article with the chunk's news id absorbs the chunk; otherwise the chunk is held as a new article |
| SseRequest.SkipToData | backend/internal/http/request/stream.go:70-84 | passing over lines without the data prefix leaves the scan unchanged, and stops at a data line or at the end |
| Rrf.AddList | search/service/aggregator/rrf.go:24-32 | adding one list's candidates in rank order gives the score map of the earlier occurrences followed by that list's ranks |
| SearchService.RerankAtFirstDiffering | search/service/search.go:177-188 | reranking is used exactly when some request's rerank query differs from the raw query while every earlier request's equals it |
| Fetcher.FetchAllPages | data_ingestion/refinery/data_fetcher.py:150-173 | page 0 followed by the remain_count loop yields exactly the paged data DailyData specifies, failures included |
| CompletionService.WalkMulti | backend/service/completion.go:84-115 | the loop's messages, reversed, are the history of the QAs taken oldest first, and a reference encoding error is the history's error |

## Left out

- IndexUploader: the OpenSearch client's connection options (TLS, compression, retries, timeout) are not modelled; the client is replaced by the cluster state it changes.
- IndexUploader: `get_index_record_count`, `get_documents` and `delete_documents` (index_uploader.py:46-47, 94-118) are single passthrough queries to the cluster and are not modelled.
- IndexUploader: whether the cluster accepts a bulk item and whether a field value matches a `match` clause are parameters (`accepts`, `matches`); OpenSearch's analysis and scoring are not part of this model.
- IndexUploader.IndexUploader.UploadIndex: parallel_bulk runs four threads; the model applies the actions in order, so which of two same-id actions wins under concurrency is not captured.
- Refinery: `load_data_from_disk`, `load_data_from_s3`, `save_data_to_disk`, `save_data_to_s3` and `publish_sns` (function_block.py:19-247, 373-404) read and write files, S3 objects and SNS topics through the CSV and JSON libraries; they are file and network I/O and are not modelled.
- Refinery: `json.loads`, `json.dumps` and `nltk.sent_tokenize` are parameters (`loads`, `dumps`, `tokenize`); a row's column order is not modelled, only its contents.
- Refinery: Python's `len` counts code points; the model counts characters of `string`, which is the same count.
- Fetcher: the HTTP POST of `call_api` (data_fetcher.py:97-123) is a parameter `api`; headers, sessions and logging are not modelled.
- Fetcher: `_parse_datetime` and `lambda_handler` (data_fetcher.py:176-254) read the clock, generate UUIDs, write a CSV file and post to Slack; they are not modelled.
- Fetcher.KindsApiClient.GetDailyData: the paging loop is bounded by a `fuel` count of pages and ends in `OutOfFuel` when it is spent; the source loops for as long as the pages fall short of total_hits.
- Fetcher: datetimes carry a date and microseconds only; time zones are assumed equal on both sides of a comparison.
- `getMultiSearchResults` (search/service/search.go:272-333): the goroutines, the mutex, the error channel and cancellation are not modelled. The concurrent searches are a parameter returning the lists in some order.
- Search and multi-search profiles, timings and logging are not modelled (clock and logger I/O).
- SearchService.Split: its own contract states only the length. The contents are stated by SplitBySource, KeptIsFilter and Distribute.
- The searcher and reranker providers, the searcher itself and the rerankers are parameters (name to implementation), not modelled code.
- `mergeChunks` appends to the first chunk of an article in place, so the caller's reference object changes too. The model works on values and does not capture this aliasing.
- `SearchPlugin.Definition` (conversation/service/function/search.go:308-368) is not modelled. It only formats prompt text with example dates.
- The HTTP post, `time.Parse` with RFC 3339, JSON encoding and decoding, and the environment variables of the search plugin are parameters.
- `functionParametersToSystemPrompt` quotes the enum values in the caller's own slice, so rendering the same definition twice quotes them twice. The model quotes into a new sequence and does not capture this aliasing.
- The property keys' order comes from a byte-wise sort of Go strings. The model uses a lexicographic order on `char` sequences.
- `CreateChatCompletion`'s streaming pass (conversation/service/completion.go:394-637) is the `attempt` parameter of the retry loop, which reports it finished, failed with an error, or cancelled. It covers creating the client, receiving the stream, counting tokens and sending results on the channel. The goroutine, the channel and the keyword goroutine are not modelled. Its receive loop (lines 432-471) is modelled separately, in its corrected form, as `ConvCompletion.Receive`; `ConvCompletion.PassOutcome` gives the outcome of `attempt` that the loop alone decides (Finding 10).
- `setPredictOpts`, `createKeywordsRelatedQueries` and the per-pass `WithModel` options are not modelled. They read environment variables and send prompts to a model.
- ConvCompletion.CreateInitialPayloads: the current time is a parameter holding either the formatted clock reading or the clock's error.
- GPT.Chat (the non-streaming call of the v2 GPT client) and AvailableModels: not modelled. The round trip is over HTTP. GPT.Chat also converts the response itself (pkg/chat/v2/gpt/gpt.go:384-417), not through GptModel.ToChatResponse: it branches on whether a function call is present, ignores tool calls, does not extract the assistant message, and returns nothing and no error when there are no choices. That conversion is not modelled either.
- IndexTemplate: `create_index_template` writes the forced settings into `config.settings` in place, and the template it returns shares that dict. The model returns the new settings as a value, so this sharing is not captured.
- Rrf: reciprocal-rank scores are exact rationals (`real`) rather than `float32`, so rounding ties are not modelled.
- Palm: temperature and top-p are only copied into the request, so they are `real` values without floating-point rounding.
- Embedding vectors and hit scores are exact reals rather than `float32`/`float64`.
- StatReport.GetStatistics: the repository's `ListQAs` (backend/service/statistics.go:370) is a parameter holding the listed QAs or the store's error.
- Statistics.ExtractSatisfactionSurvey: the percentages are exact reals, not `float64`.
- Times in the backend are instants in nanoseconds from 1970-01-01 (Go's zero time is a negative instant, `Calendar.ZeroTime`), read in UTC. The time zone that `Format` and `Hour()` use is not modelled, nor is the monotonic clock reading.
- Statistics: the QAs' job groups, the buckets and the count tables are gathered into Go maps whose iteration order is random. The model lists them in one fixed order and proves the results for that order. Where the source sorts afterwards (buckets, job groups, rankings), the result does not depend on the order. Among keywords with the same count, the order of a ranking is left open, as `sort.Slice` leaves it.
- QAHandler: writing the JSON response and decoding the `DeleteQAs` body are not modelled. The decode outcome and the service's error are parameters of `QAHandler.Status`.
- StatHandler.StatisticsStatus: the handler's extra `w.WriteHeader(400)` before writing the unit error (backend/handler/statistics.go:59) is HTTP plumbing and is not modelled. The status is 400 either way.
- CompletionService: the streaming goroutine of `CreateChatCompletion` and `CreateChatCompletionMulti` (backend/service/completion.go:192-313 and 461-582) is not modelled. It posts to the conversation engine, relays chunks on the channel and writes token, answer, reference, keyword and related-query events, all of which is network, channel and broker I/O. The model covers the history, the admission checks and the first results of the stream (`CompletionService.StreamStartCases`).
- CompletionService: the one-second timeout on listing the history, the UUID of a new QA and `time.Now` are not modelled. A store error is modelled as an empty history, and the id and the clock reading are parameters.
- CompletionService: `json.Marshal` of a QA's references is a parameter that can fail.
- SseRequest.CreateChatStream: the Content-Type and Accept headers of the POST (backend/internal/http/request/stream.go:30-31) are not modelled. The HTTP client is a parameter.
- IndexConfig.StringToInteger: binary64 rounding is not modelled. The model reads a finite literal as an exact decimal, so beyond fifteen significant digits `int(float(s))` can differ ("9007199254740993" gives 9007199254740993 here and 9007199254740992 in Python). The lemmas about it are stated for at most fifteen digits, where rounding cannot change the integer part. Overflow to infinity is modelled.
- IndexConfig.StringToInteger: the non-ASCII decimal digits that Python's `float()` and `int()` accept (Arabic-Indic, full-width and so on) are not modelled, here or in `PyJson.IntCheck`. Only `0`-`9` are digits.
- IndexConfig.ParseConf: `dacite.from_dict(Config, d)` (data_ingestion/indexer/config.py:91) is not modelled. A missing or mistyped field raises there, while `ParseConf` returns the normalised dict.
- IndexUploader.IndexUploader.UploadIndex: `parallel_bulk` is called with its default `raise_on_error`, so the first chunk holding a refused item raises BulkIndexError out of `upload_index` and ends the run. The model drops a refused item and goes on. Which chunks of the four threads reached the cluster before the error depends on scheduling. The runs of IndexRun (`Uploaded`, `Flush` and the whole and incremental runs) inherit this.
- PageFromReply (Fetcher.PageFromReply): a `documents` value that is not a list is a TypeError in the model. The source takes `len()` of it and appends it with `buf +=`, which accept other sized iterables, such as a tuple or a dict's keys.
- FetchAllPages (Fetcher.FetchAllPages), Fetcher.DailyData and Fetcher.KindsApiClient.GetDailyData: a `total_hits` that is not an int is a TypeError in the model. The source subtracts it from the page size, which also works for a float such as 10.0.
- LoadFiles (Indexer.LoadFiles): loads with the corrected vector type of Finding 2 (`IntendedVectorType`); the code as written raises AttributeError on an encoder field with one source (`AsWrittenVectorType`).
- ProcessIndexDocs (Indexer.Indexer.ProcessIndexDocs): assembles documents with the corrected vector type of Finding 2, not the AttributeError as written.
- IndexWhole (Indexer.Indexer.IndexWhole): runs `RunWhole`, whose assembly uses the corrected vector type of Finding 2.
- IndexIncremental (Indexer.Indexer.IndexIncremental): runs `RunIncremental`, whose loading uses the corrected vector type of Finding 2.
- Index (Indexer.Indexer.Index): both runs it dispatches to use the corrected vector type of Finding 2. So do the run functions of IndexRun (`Assembler`, `Loader`, `RunWhole`, `RunIncremental`).
- SearchResults (SearchService.SearchResults): a reranker timeout takes the corrected fallback of Finding 3 (`TimeoutFallback`); as written, fewer hits than the size make the slice panic (`SearchResultsAsWritten`).
- RerankStep (SearchService.RerankStep): its timeout clause is the corrected fallback of Finding 3.
- Search (SearchService.Search): goes through `SearchResults`, so it has the corrected fallback of Finding 3.
- Distribute (SearchService.Distribute): tags each list with its own source's id, the corrected split of Finding 4; as written, list i takes request i's id (`SplitAsWritten`).
- AggregateMsearchResults (SearchService.AggregateMsearchResults): composes the corrected split of Finding 4. A reranker timeout in the multi path falls back to RRF, as the source does; Finding 3 is not involved.
- MSearch (SearchService.MSearch): its aggregation is the corrected one of Finding 4.
- RunCompletesWithListedModel (ConvCompletion.RunCompletesWithListedModel): proved of the retry loop built on the corrected model selection of Finding 5 (`GetCompletionLLM`, not `GetCompletionLLMAsWritten`) and the corrected search-failure stop of Finding 6 (`CallOutcomeAsWritten` is the code as written).
- FallbackLoop (ConvCompletion.FallbackLoop): its passes are `StepCounters`' corrected ones of Findings 5 and 6, where an entry without "/" is an error and a failed search stops the loop.
- WalkLabels (StatPeriod.WalkLabels): a month walk starts at the first of `from`'s month, the correction of Finding 9; as written it starts at `from` itself (`LabelsAsWritten`).
- ExtractUserTrends (Statistics.ExtractUserTrends): its labels are the corrected month walk of Finding 9.
- TallyHistory (Statistics.TallyHistory): its labels are the corrected month walk of Finding 9.
- ReportKeysAreLabels (Statistics.ReportKeysAreLabels): holds of the corrected month walk of Finding 9; for the walk as written a window starting mid-month leaves a bucket unlabelled.
- KeysWithin (Statistics.KeysWithin): holds of the corrected month walk of Finding 9, and fails for the walk as written.
- ExtractKeywordTrends (KeywordTrends.ExtractKeywordTrends): its buckets come from the corrected month walk of Finding 9, so an empty month that the source omits gets a ranking.
- StatReport.GetStatistics: every part is computed with the corrected month walk of Finding 9.
- AssembleQuery and BuildRequest (GptRequest.AssembleQuery, GptRequest.BuildRequest): when the same `*string` is passed as both the function-call and the tool-choice option, the source quotes it twice through the shared pointer. The request builders require the two options to be distinct pointers (or the function call to be nil), so this double quoting is not modelled.
- SseRequest.Scan, LineReader, GptStream and LegacyChat.ChatGPTStream: a body read error other than end of input is not an outcome of the model.
- IndexRun.FieldVectors: the embedding service is the parameter `embed`, which may succeed or fail. As written, `_get_document_vector` posts to the empty URL "" (data_ingestion/indexer/indexer.py:99-102), so every encoder field raises there; an encoder other than sentenceTransformer raises NotImplementedError, which the model folds into `embed`'s failure.
- IndexRun: reading a source file is the total parameter `readFile`, returning its records. A missing file (FileNotFoundError) or a line that is not JSON (JSONDecodeError) in `_index_whole` and `_load_index_docs` is not an outcome of the model. The body is a finite sequence of bytes, read to its end.
- MergeToolCalls (GptModel.MergeToolCalls): its own contract states only that the list never shrinks. What each entry holds after the merge (id, type, function name, arguments, and whether it has a function) is stated by GptModel.MergeToolCallsConcatenates.
- HasReferences (CompletionService.HasReferences): a nil references list and an empty one are both the empty sequence. The source tests `qa.References != nil` (backend/service/completion.go:96 and 349), so an empty non-nil list adds a "search" message holding `[]` there but no message in the model.
- QueryOf (GptRequest.QueryOf): the sampling options are not modelled, namely temperature, top-p, the token limit, the presence and frequency penalties and the seed (pkg/chat/v2/gpt/gpt.go:159-166). The source copies them into the request unchanged.
- QueryOf (LegacyChat.QueryOf): the temperature and the token limit that GPT options may set (pkg/chat/chatgpt.go:160-165) are not modelled.
- MergeQueries (EventQuery.MergeQueries): states the map it returns. It does not state that the query objects after the first of each id are left unchanged. Only the first object of each id is written through its pointer.
- KeywordTrends: the per-bucket rankings come from a Go map (backend/service/statistics.go:333), so their order in `timeBased` is random. The model lists them in ascending bucket order, which is one of the orders the source can produce.
- QAHandler: `gorm.ErrRecordNotFound` is recognised by comparing error values. The model compares `GoError` values, which are their messages, so another error with the message "record not found" would also map to 404.
- Common.Lower: lower-cases ASCII letters only. Go's `strings.ToLower` also lower-cases non-ASCII letters. This matters only for a metadata header name or an aggregate method name with such letters; the model then keeps them as they are.
- PyJson.Repr: the escapes of `repr` follow `str.isprintable()` for the controls, separators, format characters and private-use areas (`PyJson.NonPrintable`), but not for unassigned code points, which Python also escapes and whose set depends on the Unicode version of the interpreter. So CompositeKey and MergeSourceFields, which use `str()`, differ from Python on text that holds an unassigned code point.
- CompositeKey (IndexDocuments.CompositeKey): an id value whose `str()` holds an unassigned code point is not escaped as Python escapes it (see PyJson.Repr above); the float repr is taken as given.
- MergeSourceFields (IndexDocuments.MergeSourceFields): the same limit on `str()` of a list or dict value holding an unassigned code point (see PyJson.Repr above).
- IndexRun.DedupValues: Python `==` is modelled for bools, ints, and floats written as an integer followed by ".0". Two further cases are not: a float written in exponent form (1e+16 and above) is not identified with the equal int, and NaN, which is unequal to itself, is kept once here where Python keeps each distinct NaN object. The set is therefore not the set of all the documents' values: of Python-equal values only the first stays, as `IndexRun.DedupValuesMeaning` states.

## Findings

The rows are Findings 1 to 10, in order. A "## Model" row that starts with "corrected (Finding n)" states a property of the corrected definition of row n. Its "## Left out" line names the piece it uses.

| source | as written | input that shows it | evidently intended | confidence | as-written member | corrected member |
|---|---|---|---|---|---|---|
| data_ingestion/indexer/config.py:76 | `parse_conf` reads `d["batch_size"]` unconditionally | a configuration file without `batch_size` raises KeyError | the dataclass default of 2000 applies when the key is absent | high, not executed | IndexConfig.ParseConf | IndexConfig.BatchSizeDefault |
| data_ingestion/indexer/indexer.py:80-82 | `_merge_source_fields` reads `field.type`, and is also called for a vector field with an encoder (lines 125-126), which has no `type` | an encoder vector field with a single `src_field` raises AttributeError for every record | the single source's text is embedded | high, not executed | IndexDocuments.EncoderSingleSourceFails | IndexDocuments.EncoderSingleSourceIntended |
| search/service/search.go:105-108 | on a reranker timeout the fallback slices `items[:originalTopk]`, and the slice's capacity is the number of hits | one hit, size 10, reranker timeout: the slice bound is out of range and the service panics | the first min(size, hits) items | high, not executed | SearchService.AsWrittenFallbackPanics | SearchService.TimeoutFallback |
| search/service/search.go:247-262 | the split tags result list i with request i's id, but the lists arrive in goroutine completion order | requests "a" and "b" whose results arrive as "b", "a" come back with swapped ids | each list keeps the id of the request it answers | medium, not executed | SearchService.AsWrittenSplitMislabels | SearchService.SplitBySource |
| conversation/service/completion.go:124-131 | `GetCompletionLLM` indexes `splited[1]` without checking that the entry holds a "/" | with UPSTAGE_LLM_MODEL unset, the default list "upstage,2" makes the first attempt panic | an entry without "/" is reported as an invalid entry | high, not executed | ConvCompletion.AsWrittenDefaultModelsPanic | ConvCompletion.GetCompletionLLMOutcomes |
| conversation/service/completion.go:519 | the error of `CallFunction` is overwritten by the next `err` and never reaches `loopError` | a search call returning ErrSearchFunctionFailed: the loop goes on instead of reporting it | the failure stops the loop at the check of line 343 | high, not executed | ConvCompletion.AsWrittenSearchFailureIgnored | ConvCompletion.StepCounters |
| pkg/chat/v2/gpt/gpt_stream.go:132-162 | the "upstage" branch of `Recv` never checks for EOF | an empty response body: `Recv` loops for ever | like the other providers, report that EOF came before "[DONE]" | high, not executed | GptStream.AsWrittenUpstageEmptyStreamDiverges | GptStream.GPTStream.Recv |
| pkg/chat/chatgpt.go:255-258 | `Chat` returns nil, nil when the response has no choices | a 200 reply whose body is `{"choices": []}` | an error saying that no choice came back | medium, not executed | LegacyChat.AsWrittenNoChoicesReturnsNothing | LegacyChat.ChatReply |
| backend/service/statistics.go:379-382 | the month walk starts at `from` itself and adds a month at a time | from 2024-01-15 to 2024-02-10: the only label is "2024-01", while a QA of 2024-02-05 is counted under "2024-02" | the walk starts at the first of `from`'s month, so every bucket of the window is labelled | medium, not executed | StatPeriod.AsWrittenMonthLabelsMissBucket | StatPeriod.LabelsCoverWindow |
| conversation/service/completion.go:443-447 | after a non-EOF error from `stream.Recv`, `break` leaves only the `select`, so the receive loop goes on receiving | a receive error, then a content chunk, then EOF: the chunk is still sent; a receive error, then a cancelled context: the pass is reported cancelled and the retry loop gives up | the error leaves the receive loop, and the check of line 473 ends the pass with that error, which the retry loop then handles at line 349 | medium, not executed | ConvCompletion.ReceiveAsWrittenRunsOn | ConvCompletion.ReceiveStopsAtFirst |
