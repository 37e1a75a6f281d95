/** The batching and run-mode logic of the `Indexer` class in
    data_ingestion/indexer/indexer.py, as functions of the index state. */
module IndexRun {
  import opened Common
  import opened PyJson
  import opened ListHelper
  import opened IndexConfig
  import opened IndexUploader
  import opened IndexTemplate
  import opened IndexDocuments

  /** The chunk size `_batch_process` passes to `upload_index`. */
  const UploadChunkSize := 500

  /** What a run depends on besides the index state: the configuration, the
      uploader's index name, template and cluster behaviour, the embedding
      service (its embeddings, or the exception its request raised) and the
      decoded lines of each source file. */
  datatype Env = Env(
    cfg: Config,
    index: string,
    template: Json,
    accepts: (string, Doc) -> bool,
    matches: (Json, Json) -> bool,
    embed: seq<Json> -> Result<seq<Json>, PyError>,
    readFile: string -> seq<Json>)

  /** Each document as the one-key dict `upload_index` expects. */
  function AsDicts(docs: seq<IndexDoc>): (r: seq<seq<(string, Doc)>>)
    ensures |r| == |docs| && AllSingleKey(r)
    ensures forall i :: 0 <= i < |docs| ==> r[i] == [docs[i]]
  {
    seq(|docs|, i requires 0 <= i < |docs| => [docs[i]])
  }

  function Ids(docs: seq<IndexDoc>): (r: seq<string>)
    ensures |r| == |docs| && forall i :: 0 <= i < |docs| ==> r[i] == docs[i].0
  {
    seq(|docs|, i requires 0 <= i < |docs| => docs[i].0)
  }

  /** The index after one bulk upload of a batch. */
  function Uploaded(env: Env, s: IndexState, docs: seq<IndexDoc>): IndexState {
    var acts := Actions(env.index, AsDicts(docs));
    s.(docs := ApplyBulk(s.docs, acts, env.accepts), calls := s.calls + [BulkCall(acts, UploadChunkSize)])
  }

  /** `[list(doc.values())[0][key] for doc in batch_docs]`. */
  function FieldValues(docs: seq<IndexDoc>, key: string): (r: Result<seq<Json>, PyError>)
    ensures r.Ok? <==> forall j :: 0 <= j < |docs| ==> key in docs[j].1
    ensures r.Ok? ==> |r.value| == |docs| && forall j :: 0 <= j < |docs| ==> r.value[j] == docs[j].1[key]
    ensures r.Err? ==> r.error == KeyError(key)
  {
    if forall j :: 0 <= j < |docs| ==> key in docs[j].1 then
      Ok(seq(|docs|, j requires 0 <= j < |docs| => docs[j].1[key]))
    else Err(KeyError(key))
  }

  /** The vectors for one vector field: the embedding service's answer for the
      field's text (encoder), the stored values (file), or an exception
      (neither). */
  function FieldVectors(vf: (string, VectorField), docs: seq<IndexDoc>, embed: seq<Json> -> Result<seq<Json>, PyError>): (r: Result<seq<Json>, PyError>)
    ensures !vf.1.embeddingMethod.encoder && !vf.1.embeddingMethod.file ==> r.Err? && r.error.Exception?
    ensures vf.1.embeddingMethod.file && !vf.1.embeddingMethod.encoder ==> r == FieldValues(docs, vf.0)
  {
    var m := vf.1.embeddingMethod;
    if m.encoder then
      match FieldValues(docs, vf.0)
      case Err(e) => Err(e)
      case Ok(texts) => embed(texts)
    else if m.file then FieldValues(docs, vf.0)
    else Err(Exception("embedding_method is not defined for " + vf.0))
  }

  /** `index_doc[pid][key] = document_vectors[j]` for each j: document j gets
      vector j; a short vector list raises IndexError once it runs out. */
  function WriteBack(docs: seq<IndexDoc>, key: string, vectors: seq<Json>): (r: (seq<IndexDoc>, Option<PyError>))
    ensures |r.0| == |docs| && Ids(r.0) == Ids(docs)
    ensures r.1.Some? <==> |vectors| < |docs|
    ensures forall j :: 0 <= j < |docs| ==>
      r.0[j].1 == (if j < |vectors| then docs[j].1[key := vectors[j]] else docs[j].1)
  {
    var written := seq(|docs|, j requires 0 <= j < |docs| =>
      if j < |vectors| then (docs[j].0, docs[j].1[key := vectors[j]]) else docs[j]);
    (written, if |vectors| < |docs| then Some(IndexError("list index out of range")) else None)
  }

  /** The vector loop of `_batch_process`, field by field. */
  function VectorPass(vfs: seq<(string, VectorField)>, embed: seq<Json> -> Result<seq<Json>, PyError>, docs: seq<IndexDoc>): (r: (seq<IndexDoc>, Option<PyError>))
    ensures |r.0| == |docs| && Ids(r.0) == Ids(docs)
    decreases |vfs|
  {
    if |vfs| == 0 then (docs, None)
    else
      match FieldVectors(vfs[0], docs, embed)
      case Err(e) => (docs, Some(e))
      case Ok(vs) =>
        var w := WriteBack(docs, vfs[0].0, vs);
        if w.1.Some? then w else VectorPass(vfs[1..], embed, w.0)
  }

  /** `_batch_process`: vectors, one upload with chunk size 500, and the emptied
      batch. Yields the index, the batch contents afterwards and the exception. */
  function Flush(env: Env, s: IndexState, docs: seq<IndexDoc>): (r: (IndexState, seq<IndexDoc>, Option<PyError>))
    ensures r.2.None? ==> r.1 == []
    ensures r.2.Some? ==> r.0 == s
  {
    var v := VectorPass(env.cfg.fields.vectorField, env.embed, docs);
    if v.1.Some? then (s, v.0, v.1) else (Uploaded(env, s, v.0), [], None)
  }

  /** A batch step: the index and a batch to the index, the batch afterwards
      and the exception. */
  type BatchStep = (IndexState, seq<IndexDoc>) -> (IndexState, seq<IndexDoc>, Option<PyError>)

  function Flusher(env: Env): BatchStep {
    (s, docs) => Flush(env, s, docs)
  }

  /** A batch step on each chunk in order, stopping at the first exception. */
  function FlushEach(flush: BatchStep, s: IndexState, chunks: seq<seq<IndexDoc>>): (IndexState, Option<PyError>)
    decreases |chunks|
  {
    if |chunks| == 0 then (s, None)
    else
      var f := flush(s, chunks[0]);
      if f.2.Some? then (f.0, f.2) else FlushEach(flush, f.0, chunks[1..])
  }

  /** `_batch_process` on each chunk in order, stopping at the first exception. */
  function FlushAll(env: Env, s: IndexState, chunks: seq<seq<IndexDoc>>): (IndexState, Option<PyError>) {
    FlushEach(Flusher(env), s, chunks)
  }

  /** `_process_index_batch`: `_split_chunks` by the batch size, then each chunk. */
  function ProcessBatch(env: Env, s: IndexState, docs: seq<IndexDoc>, batchSize: int): (IndexState, Option<PyError>) {
    match SplitChunksPy(docs, batchSize)
    case Err(e) => (s, Some(e))
    case Ok(chunks) => FlushAll(env, s, chunks)
  }

  /** `_process_index_doc` with the vector type the model uses. */
  function Assembler(cfg: Config): Json -> Result<IndexDoc, PyError> {
    record => AssembleDoc(cfg, record, IntendedVectorType)
  }

  /** `_process_index_docs` from record i on, with `buffer` in `batch_docs`:
      a flush after record idx when (idx + 1) % batch_size == 0, and a final
      flush of a non-empty remainder. Records become documents through
      `assemble`. */
  function StreamWith(batchSize: int, assemble: Json -> Result<IndexDoc, PyError>, flush: BatchStep, s: IndexState, records: seq<Json>, i: nat, buffer: seq<IndexDoc>): (IndexState, Option<PyError>)
    requires i <= |records|
    decreases |records| - i
  {
    if i == |records| then
      if |buffer| > 0 then var f := flush(s, buffer); (f.0, f.2) else (s, None)
    else
      match assemble(records[i])
      case Err(e) => (s, Some(e))
      case Ok(d) =>
        if batchSize == 0 then (s, Some(ZeroDivisionError))
        else if PyMod(i + 1, batchSize) == 0 then
          var f := flush(s, buffer + [d]);
          if f.2.Some? then (f.0, f.2) else StreamWith(batchSize, assemble, flush, f.0, records, i + 1, [])
        else StreamWith(batchSize, assemble, flush, s, records, i + 1, buffer + [d])
  }

  /** `_process_index_docs` over one file's records. */
  function Stream(env: Env, s: IndexState, records: seq<Json>): (IndexState, Option<PyError>) {
    StreamWith(env.cfg.batchSize, Assembler(env.cfg), Flusher(env), s, records, 0, [])
  }

  /** The file loop of `_index_whole`. */
  function StreamFiles(env: Env, s: IndexState, files: seq<string>): (IndexState, Option<PyError>)
    decreases |files|
  {
    if |files| == 0 then (s, None)
    else
      var r := Stream(env, s, env.readFile(files[0]));
      if r.1.Some? then r else StreamFiles(env, r.0, files[1..])
  }

  /** The index right after `create_index`. */
  function Created(env: Env, s: IndexState): IndexState {
    s.(present := true, docs := map[], refreshInterval := TemplateRefreshInterval(env.template),
       calls := s.calls + [CreateCall(env.index, env.template)])
  }

  /** `refresh_indices` then `set_refresh_interval("1s")`. */
  function Finished(env: Env, s: IndexState): IndexState {
    s.(refreshInterval := DefaultRefreshInterval,
       calls := s.calls + [RefreshCall(env.index), PutSettingsCall(env.index, RefreshBody(DefaultRefreshInterval))])
  }

  /** `_index_whole`. */
  function RunWhole(env: Env, s: IndexState): (IndexState, Option<PyError>) {
    if s.present then (s, Some(LookupError("Index '" + env.index + "' already exists")))
    else
      var r := StreamFiles(env, Created(env, s), env.cfg.srcFile);
      if r.1.Some? then r else (Finished(env, r.0), None)
  }

  /** `_load_index_docs` of one file. */
  function Loader(env: Env): string -> Result<seq<IndexDoc>, PyError> {
    f => LoadDocs(env.cfg, env.readFile(f), IntendedVectorType)
  }

  /** A load loop over files, appending to acc. */
  function LoadEach(load: string -> Result<seq<IndexDoc>, PyError>, files: seq<string>, acc: seq<IndexDoc>): Result<seq<IndexDoc>, PyError>
    decreases |files|
  {
    if |files| == 0 then Ok(acc)
    else
      match load(files[0])
      case Err(e) => Err(e)
      case Ok(ds) => LoadEach(load, files[1..], acc + ds)
  }

  /** The file loop of `_index_incremental`: `new_docs += _load_index_docs(f)`. */
  function LoadAll(env: Env, files: seq<string>, acc: seq<IndexDoc>): Result<seq<IndexDoc>, PyError> {
    LoadEach(Loader(env), files, acc)
  }

  /** Whether a value can go into a Python set. */
  predicate Hashable(v: Json) {
    !v.JList? && !v.JDict?
  }

  /** Every document holds a hashable value under key. */
  predicate AllHashable(docs: seq<IndexDoc>, key: string) {
    forall j :: 0 <= j < |docs| ==> key in docs[j].1 && Hashable(docs[j].1[key])
  }

  /** Python `acc.add(v)`: a value equal under `==` to a member leaves the set
      as it is, so the member added first stays. */
  function SetAdd(acc: set<Json>, v: Json): set<Json> {
    if exists u :: u in acc && PyEq(u, v) then acc else acc + {v}
  }

  /** No two members of the set are equal under Python `==`. */
  predicate PyDistinct(acc: set<Json>) {
    forall u, w :: u in acc && w in acc && PyEq(u, w) ==> u == w
  }

  /** `add` keeps a Python set free of equal members, and afterwards the
      added value equals a member. */
  lemma SetAddDistinct(acc: set<Json>, v: Json)
    requires PyDistinct(acc)
    ensures PyDistinct(SetAdd(acc, v))
    ensures exists u :: u in SetAdd(acc, v) && PyEq(u, v)
    ensures acc <= SetAdd(acc, v) <= acc + {v}
  {
    if !exists u :: u in acc && PyEq(u, v) {
      forall u, w | u in acc + {v} && w in acc + {v} && PyEq(u, w)
        ensures u == w
      {
        PyEqEquivalence(u, w, v);
      }
      PyEqEquivalence(v, v, v);
      assert v in SetAdd(acc, v);
    }
  }

  /** The collection loop from document i on, over the set built so far. */
  function DedupFrom(acc: set<Json>, docs: seq<IndexDoc>, key: string, i: nat): (r: Result<set<Json>, PyError>)
    requires i <= |docs|
    ensures r.Ok? <==> forall j :: i <= j < |docs| ==> key in docs[j].1 && Hashable(docs[j].1[key])
    decreases |docs| - i
  {
    if i == |docs| then Ok(acc)
    else if key !in docs[i].1 then Err(KeyError(key))
    else if !Hashable(docs[i].1[key]) then Err(TypeError("unhashable type: '" + TypeName(docs[i].1[key]) + "'"))
    else DedupFrom(SetAdd(acc, docs[i].1[key]), docs, key, i + 1)
  }

  /** The set of dedup-field values of the new documents, built with Python
      `set.add`; the first document without the field raises KeyError, the
      first unhashable value TypeError. */
  function DedupValues(docs: seq<IndexDoc>, key: string): (r: Result<set<Json>, PyError>)
    ensures r.Ok? <==> AllHashable(docs, key)
  {
    DedupFrom({}, docs, key, 0)
  }

  /** Document j's dedup value is the first of its class under Python `==`. */
  predicate FirstOfClass(docs: seq<IndexDoc>, key: string, j: nat)
    requires j < |docs| && AllHashable(docs, key)
  {
    forall i :: 0 <= i < j ==> !PyEq(docs[i].1[key], docs[j].1[key])
  }

  /** The values of the first n documents that are first of their class. */
  function FirstValues(docs: seq<IndexDoc>, key: string, n: nat): set<Json>
    requires n <= |docs| && AllHashable(docs, key)
  {
    set j | 0 <= j < n && FirstOfClass(docs, key, j) :: docs[j].1[key]
  }

  /** A value equal to one of the first n documents' values equals one of
      FirstValues(n). */
  lemma {:induction false} ClassRepresented(docs: seq<IndexDoc>, key: string, n: nat, k: nat, v: Json)
    requires n <= |docs| && AllHashable(docs, key)
    requires k < n && PyEq(docs[k].1[key], v)
    ensures exists u :: u in FirstValues(docs, key, n) && PyEq(u, v)
    decreases k
  {
    if FirstOfClass(docs, key, k) {
      assert docs[k].1[key] in FirstValues(docs, key, n);
    } else {
      var i :| 0 <= i < k && PyEq(docs[i].1[key], docs[k].1[key]);
      PyEqEquivalence(docs[i].1[key], docs[k].1[key], v);
      ClassRepresented(docs, key, n, i, v);
    }
  }

  /** Adding document n's value to FirstValues(n) gives FirstValues(n + 1). */
  lemma FirstValuesStep(docs: seq<IndexDoc>, key: string, n: nat)
    requires n < |docs| && AllHashable(docs, key)
    ensures FirstValues(docs, key, n + 1) == SetAdd(FirstValues(docs, key, n), docs[n].1[key])
  {
    var v := docs[n].1[key];
    var before := FirstValues(docs, key, n);
    if exists u :: u in before && PyEq(u, v) {
      var u :| u in before && PyEq(u, v);
      var k :| 0 <= k < n && FirstOfClass(docs, key, k) && docs[k].1[key] == u;
      assert !FirstOfClass(docs, key, n);
      assert FirstValues(docs, key, n + 1) == before;
    } else {
      forall k | 0 <= k < n
        ensures !PyEq(docs[k].1[key], v)
      {
        if PyEq(docs[k].1[key], v) {
          ClassRepresented(docs, key, n, k, v);
        }
      }
      assert FirstOfClass(docs, key, n);
      assert FirstValues(docs, key, n + 1) == before + {v};
    }
  }

  lemma {:induction false} DedupFromFirstValues(docs: seq<IndexDoc>, key: string, n: nat)
    requires n <= |docs| && AllHashable(docs, key)
    ensures DedupFrom(FirstValues(docs, key, n), docs, key, n) == Ok(FirstValues(docs, key, |docs|))
    decreases |docs| - n
  {
    if n < |docs| {
      FirstValuesStep(docs, key, n);
      DedupFromFirstValues(docs, key, n + 1);
    }
  }

  /** The set Python builds holds, of each class of `==`-equal dedup values,
      the value of the first document in that class. */
  lemma DedupValuesFirst(docs: seq<IndexDoc>, key: string)
    requires AllHashable(docs, key)
    ensures DedupValues(docs, key) == Ok(FirstValues(docs, key, |docs|))
  {
    assert FirstValues(docs, key, 0) == {};
    DedupFromFirstValues(docs, key, 0);
  }

  /** What the dedup set means: every member is some document's value and
      the first of its class, no two members are equal under Python `==`, and
      every document's value equals a member. */
  lemma DedupValuesMeaning(docs: seq<IndexDoc>, key: string)
    requires AllHashable(docs, key)
    ensures var vs := DedupValues(docs, key).value;
      && (forall u :: u in vs ==> exists j :: 0 <= j < |docs| && docs[j].1[key] == u && FirstOfClass(docs, key, j))
      && PyDistinct(vs)
      && (forall j :: 0 <= j < |docs| ==> exists u :: u in vs && PyEq(u, docs[j].1[key]))
  {
    DedupValuesFirst(docs, key);
    var vs := FirstValues(docs, key, |docs|);
    forall u, w | u in vs && w in vs && PyEq(u, w)
      ensures u == w
    {
      var j :| 0 <= j < |docs| && FirstOfClass(docs, key, j) && docs[j].1[key] == u;
      var k :| 0 <= k < |docs| && FirstOfClass(docs, key, k) && docs[k].1[key] == w;
      PyEqEquivalence(u, w, w);
    }
    forall j | 0 <= j < |docs|
      ensures exists u :: u in vs && PyEq(u, docs[j].1[key])
    {
      PyEqEquivalence(docs[j].1[key], docs[j].1[key], docs[j].1[key]);
      ClassRepresented(docs, key, |docs|, j, docs[j].1[key]);
    }
  }

  /** The index after `delete_documents_by_objs(key, values)` enumerated the set
      in the given order. */
  function Deleted(env: Env, s: IndexState, key: string, values: set<Json>, order: seq<Json>): IndexState {
    s.(calls := s.calls + (if values == {} then [] else DeleteCalls(env.index, SplitChunks(MatchQueries(key, order), DeleteChunkSize))),
       docs := RemoveMatching(s.docs, key, values, env.matches))
  }

  /** `set_refresh_interval("-1")`. */
  function RefreshOff(env: Env, s: IndexState): IndexState {
    s.(refreshInterval := InactiveRefreshInterval,
       calls := s.calls + [PutSettingsCall(env.index, RefreshBody(InactiveRefreshInterval))])
  }

  /** The second half of `_index_incremental`: delete the documents whose dedup
      value reappears, upload the new documents in batches, and finish. */
  function Replace(env: Env, s: IndexState, docs: seq<IndexDoc>, values: set<Json>, order: seq<Json>): (IndexState, Option<PyError>) {
    var s2 := Deleted(env, s, env.cfg.dedupField, values, order);
    var r := ProcessBatch(env, s2, docs, env.cfg.batchSize);
    if r.1.Some? then r else (Finished(env, r.0), None)
  }

  /** `_index_incremental`, with the set iteration order of the delete step as a parameter. */
  function RunIncremental(env: Env, s: IndexState, order: seq<Json>): (IndexState, Option<PyError>) {
    if !s.present then (s, Some(RuntimeError("Index does not exist")))
    else
      var s1 := RefreshOff(env, s);
      match LoadAll(env, env.cfg.srcFile, [])
      case Err(e) => (s1, Some(e))
      case Ok(docs) =>
        match DedupValues(docs, env.cfg.dedupField)
        case Err(e) => (s1, Some(e))
        case Ok(values) => Replace(env, s1, docs, values, order)
  }

  /** The order constraint: when the delete step is reached, the order
      enumerates the dedup values. */
  predicate OrderFits(env: Env, s: IndexState, order: seq<Json>) {
    s.present ==>
      match LoadAll(env, env.cfg.srcFile, [])
      case Err(_) => true
      case Ok(docs) =>
        match DedupValues(docs, env.cfg.dedupField)
        case Err(_) => true
        case Ok(values) => Enumerates(order, values)
  }

  // ------------------------------------------------------------------ lemmas

  /** One record of `_process_index_docs` that assembles to d. */
  lemma StreamStep(bs: int, assemble: Json -> Result<IndexDoc, PyError>, flush: BatchStep, s: IndexState, records: seq<Json>, j: nat, buffer: seq<IndexDoc>, d: IndexDoc)
    requires bs != 0
    requires j < |records| && assemble(records[j]) == Ok(d)
    ensures StreamWith(bs, assemble, flush, s, records, j, buffer) ==
      if (j + 1) % Abs(bs) == 0 then
        (var f := flush(s, buffer + [d]);
         if f.2.Some? then (f.0, f.2) else StreamWith(bs, assemble, flush, f.0, records, j + 1, []))
      else StreamWith(bs, assemble, flush, s, records, j + 1, buffer + [d])
  {
  }

  /** Streaming with buffer docs[i0..j] up to the end of the chunk that starts at
      i0 flushes exactly that chunk. */
  lemma {:induction false} StreamFill(bs: int, assemble: Json -> Result<IndexDoc, PyError>, flush: BatchStep, s: IndexState, records: seq<Json>, docs: seq<IndexDoc>, i0: nat, j: nat)
    requires bs != 0
    requires |docs| == |records| &&
      forall k :: 0 <= k < |records| ==> assemble(records[k]) == Ok(docs[k])
    requires i0 % Abs(bs) == 0
    requires i0 <= j < Min(i0 + Abs(bs), |records|)
    ensures var n := Abs(bs);
      var b := Min(i0 + n, |records|);
      StreamWith(bs, assemble, flush, s, records, j, docs[i0..j]) ==
        (var f := flush(s, docs[i0..b]);
         if b == i0 + n && f.2.None? then StreamWith(bs, assemble, flush, f.0, records, b, []) else (f.0, f.2))
    decreases |records| - j
  {
    var n := Abs(bs);
    var b := Min(i0 + n, |records|);
    StreamStep(bs, assemble, flush, s, records, j, docs[i0..j], docs[j]);
    assert docs[i0..j] + [docs[j]] == docs[i0..j + 1];
    if j + 1 < i0 + n {
      ModOffset(i0, j + 1 - i0, n);
      assert (j + 1) % n != 0;
      assert StreamWith(bs, assemble, flush, s, records, j, docs[i0..j]) == StreamWith(bs, assemble, flush, s, records, j + 1, docs[i0..j + 1]);
      if j + 1 < b {
        StreamFill(bs, assemble, flush, s, records, docs, i0, j + 1);
      } else {
        assert j + 1 == |records| == b;
      }
    } else {
      assert j + 1 == i0 + n == b;
      ModNext(i0, n);
    }
  }

  /** The chunks from i0 on: the one ending at Min(i0 + n, end), then the rest. */
  lemma ChunksFrom(docs: seq<IndexDoc>, n: nat, i0: nat)
    requires n > 0 && i0 < |docs|
    ensures var b := Min(i0 + n, |docs|);
      SplitChunks(docs[i0..], n) == [docs[i0..b]] + SplitChunks(docs[b..], n)
  {
    var rest := docs[i0..];
    var b := Min(i0 + n, |docs|);
    if |rest| <= n {
      assert docs[i0..b] == rest && docs[b..] == [];
    } else {
      assert rest[..n] == docs[i0..b] && rest[n..] == docs[b..];
    }
  }

  /** From a chunk boundary, streaming is flushing the chunks of the rest. */
  lemma {:induction false} StreamFrom(bs: int, assemble: Json -> Result<IndexDoc, PyError>, flush: BatchStep, s: IndexState, records: seq<Json>, docs: seq<IndexDoc>, i0: nat)
    requires bs != 0
    requires |docs| == |records| &&
      forall k :: 0 <= k < |records| ==> assemble(records[k]) == Ok(docs[k])
    requires i0 <= |records| && i0 % Abs(bs) == 0
    ensures StreamWith(bs, assemble, flush, s, records, i0, []) == FlushEach(flush, s, SplitChunks(docs[i0..], Abs(bs)))
    decreases |records| - i0
  {
    var n := Abs(bs);
    if i0 < |records| {
      var b := Min(i0 + n, |records|);
      assert docs[i0..i0] == [];
      StreamFill(bs, assemble, flush, s, records, docs, i0, i0);
      ChunksFrom(docs, n, i0);
      var chunks := [docs[i0..b]] + SplitChunks(docs[b..], n);
      assert chunks[0] == docs[i0..b] && chunks[1..] == SplitChunks(docs[b..], n);
      var f := flush(s, docs[i0..b]);
      if f.2.None? {
        if b == i0 + n {
          ModNext(i0, n);
          StreamFrom(bs, assemble, flush, f.0, records, docs, b);
        } else {
          assert docs[b..] == [];
        }
      }
    } else {
      assert docs[i0..] == [];
    }
  }

  /** `_process_index_docs` uploads the same batches as `_split_chunks` by
      |batch_size| followed by `_batch_process` on each: a negative batch size
      flushes like its absolute value. */
  lemma StreamIsChunked(env: Env, s: IndexState, records: seq<Json>)
    requires env.cfg.batchSize != 0
    requires LoadDocs(env.cfg, records, IntendedVectorType).Ok?
    ensures Stream(env, s, records) ==
      FlushAll(env, s, SplitChunks(LoadDocs(env.cfg, records, IntendedVectorType).value, Abs(env.cfg.batchSize)))
  {
    var docs := LoadDocs(env.cfg, records, IntendedVectorType).value;
    assert docs[0..] == docs;
    StreamFrom(env.cfg.batchSize, Assembler(env.cfg), Flusher(env), s, records, docs, 0);
  }

  /** For a positive batch size the WHOLE run's streaming and the INCREMENTAL
      run's chunked upload send the same batches. */
  lemma StreamMatchesBatch(env: Env, s: IndexState, records: seq<Json>)
    requires env.cfg.batchSize > 0
    requires LoadDocs(env.cfg, records, IntendedVectorType).Ok?
    ensures Stream(env, s, records) ==
      ProcessBatch(env, s, LoadDocs(env.cfg, records, IntendedVectorType).value, env.cfg.batchSize)
  {
    StreamIsChunked(env, s, records);
  }

  /** The ids of the documents in the bulk requests among the calls. */
  function BulkIds(calls: seq<ClientCall>): seq<string>
    decreases |calls|
  {
    if |calls| == 0 then []
    else (if calls[0].BulkCall? then ActionIds(calls[0].actions) else []) + BulkIds(calls[1..])
  }

  function ActionIds(acts: seq<Action>): (r: seq<string>)
    ensures |r| == |acts| && forall i :: 0 <= i < |acts| ==> r[i] == acts[i].id
  {
    seq(|acts|, i requires 0 <= i < |acts| => acts[i].id)
  }

  lemma {:induction false} BulkIdsAppend(a: seq<ClientCall>, b: seq<ClientCall>)
    ensures BulkIds(a + b) == BulkIds(a) + BulkIds(b)
    decreases |a|
  {
    if |a| == 0 {
      assert a + b == b;
    } else {
      assert (a + b)[0] == a[0] && (a + b)[1..] == a[1..] + b;
      BulkIdsAppend(a[1..], b);
      var h := if a[0].BulkCall? then ActionIds(a[0].actions) else [];
      calc {
        BulkIds(a + b);
        h + BulkIds(a[1..] + b);
        h + (BulkIds(a[1..]) + BulkIds(b));
        (h + BulkIds(a[1..])) + BulkIds(b);
        BulkIds(a) + BulkIds(b);
      }
    }
  }

  lemma IdsAppend(a: seq<IndexDoc>, b: seq<IndexDoc>)
    ensures Ids(a + b) == Ids(a) + Ids(b)
  {
  }

  /** A successful `_batch_process` sends one bulk request holding the batch's
      documents, in order. */
  lemma FlushIds(env: Env, s: IndexState, docs: seq<IndexDoc>)
    requires Flush(env, s, docs).2.None?
    ensures var t := Flush(env, s, docs).0;
      |t.calls| == |s.calls| + 1 && t.calls[..|s.calls|] == s.calls &&
      t.calls[|s.calls|].BulkCall? && BulkIds([t.calls[|s.calls|]]) == Ids(docs)
  {
    var v := VectorPass(env.cfg.fields.vectorField, env.embed, docs);
    var acts := Actions(env.index, AsDicts(v.0));
    assert ActionIds(acts) == Ids(v.0);
    assert BulkIds([BulkCall(acts, UploadChunkSize)]) == ActionIds(acts) + BulkIds([]);
  }

  /** Uploading chunks without an exception sends one bulk request per chunk,
      and together they hold every document exactly once, in order. */
  lemma {:induction false} FlushAllIds(env: Env, s: IndexState, chunks: seq<seq<IndexDoc>>)
    requires FlushAll(env, s, chunks).1.None?
    ensures var t := FlushAll(env, s, chunks).0;
      |t.calls| == |s.calls| + |chunks| && t.calls[..|s.calls|] == s.calls &&
      (forall i :: |s.calls| <= i < |t.calls| ==> t.calls[i].BulkCall?) &&
      BulkIds(t.calls[|s.calls|..]) == Ids(Flatten(chunks))
    ensures FlushAll(env, s, chunks).0.present == s.present
    ensures FlushAll(env, s, chunks).0.refreshInterval == s.refreshInterval
    decreases |chunks|
  {
    if |chunks| > 0 {
      var f := Flush(env, s, chunks[0]);
      FlushIds(env, s, chunks[0]);
      FlushAllIds(env, f.0, chunks[1..]);
      var t := FlushAll(env, s, chunks).0;
      var mid := f.0.calls;
      assert t.calls[|s.calls|..] == [mid[|s.calls|]] + t.calls[|mid|..];
      BulkIdsAppend([mid[|s.calls|]], t.calls[|mid|..]);
      IdsAppend(chunks[0], Flatten(chunks[1..]));
    } else {
      assert FlushAll(env, s, chunks).0.calls[|s.calls|..] == [];
    }
  }

  /** INCREMENTAL with a negative batch size deletes the old versions but
      uploads nothing: `_split_chunks` yields no chunk at all, and the run
      still ends without an exception. */
  lemma NegativeBatchUploadsNothing(env: Env, s: IndexState, docs: seq<IndexDoc>, values: set<Json>, order: seq<Json>)
    requires env.cfg.batchSize < 0
    ensures var r := Replace(env, s, docs, values, order);
      r.1.None? && BulkIds(r.0.calls[|s.calls|..]) == [] &&
      r.0.docs == RemoveMatching(s.docs, env.cfg.dedupField, values, env.matches)
  {
    var s2 := Deleted(env, s, env.cfg.dedupField, values, order);
    DeletedCallsFrom(env, s, env.cfg.dedupField, values, order);
    var t := Finished(env, s2);
    assert t.calls[|s.calls|..] == s2.calls[|s.calls|..] + [RefreshCall(env.index), PutSettingsCall(env.index, RefreshBody(DefaultRefreshInterval))];
    NoBulkIds(t.calls[|s.calls|..]);
  }

  /** The deletes extend the calls with no bulk request. */
  lemma DeletedCallsFrom(env: Env, s: IndexState, key: string, values: set<Json>, order: seq<Json>)
    ensures var s2 := Deleted(env, s, key, values, order);
      |s2.calls| >= |s.calls| && s2.calls[..|s.calls|] == s.calls &&
      (forall i :: |s.calls| <= i < |s2.calls| ==> !s2.calls[i].BulkCall?)
  {
  }

  /** A successful INCREMENTAL run is: refresh off, load, then the replace step. */
  lemma IncrementalSuccess(env: Env, s: IndexState, order: seq<Json>)
    requires RunIncremental(env, s, order).1.None?
    ensures s.present && LoadAll(env, env.cfg.srcFile, []).Ok?
    ensures var docs := LoadAll(env, env.cfg.srcFile, []).value;
      DedupValues(docs, env.cfg.dedupField).Ok? &&
      RunIncremental(env, s, order) == Replace(env, RefreshOff(env, s), docs, DedupValues(docs, env.cfg.dedupField).value, order)
  {
  }

  /** A successful replace step sends the deletes, bulk requests holding every
      document exactly once and in order, a refresh and refresh back on. */
  lemma ReplaceCalls(env: Env, s: IndexState, docs: seq<IndexDoc>, values: set<Json>, order: seq<Json>)
    requires env.cfg.batchSize > 0
    requires Replace(env, s, docs, values, order).1.None?
    ensures var t := Replace(env, s, docs, values, order).0;
      t.refreshInterval == DefaultRefreshInterval && t.present == s.present &&
      |t.calls| >= |s.calls| + 2 && t.calls[..|s.calls|] == s.calls &&
      t.calls[|t.calls| - 2] == RefreshCall(env.index) &&
      t.calls[|t.calls| - 1] == PutSettingsCall(env.index, RefreshBody(DefaultRefreshInterval)) &&
      BulkIds(t.calls[|s.calls|..]) == Ids(docs)
  {
    var s2 := Deleted(env, s, env.cfg.dedupField, values, order);
    var chunks := SplitChunksPy(docs, env.cfg.batchSize).value;
    assert Flatten(chunks) == docs;
    var r := FlushAll(env, s2, chunks);
    assert Replace(env, s, docs, values, order) == (Finished(env, r.0), None);
    ChunkedFinish(env, s2, chunks);
    DeletedCallsFrom(env, s, env.cfg.dedupField, values, order);
    var t := Finished(env, r.0);
    CallsSplit(s.calls, s2.calls, t.calls);
    NoBulkIds(s2.calls[|s.calls|..]);
    var rest := t.calls[|s2.calls|..];
    BulkIdsTail(rest);
    assert rest[..|rest| - 2] == t.calls[|s2.calls| .. |t.calls| - 2];
    assert BulkIds(t.calls[|s.calls|..]) == [] + Ids(docs);
  }

  /** The refresh and the settings call at the end hold no bulk request. */
  lemma BulkIdsTail(calls: seq<ClientCall>)
    requires |calls| >= 2 && !calls[|calls| - 2].BulkCall? && !calls[|calls| - 1].BulkCall?
    ensures BulkIds(calls) == BulkIds(calls[..|calls| - 2])
  {
    var mid, post := calls[..|calls| - 2], calls[|calls| - 2..];
    assert calls == mid + post;
    BulkIdsAppend(mid, post);
    NoBulkIds(post);
  }

  /** A successful INCREMENTAL run sends refresh off first and refresh back on
      last, and its bulk requests hold every new document exactly once, in
      order; it leaves refresh at "1s". */
  lemma RunIncrementalCalls(env: Env, s: IndexState, order: seq<Json>)
    requires env.cfg.batchSize > 0
    requires RunIncremental(env, s, order).1.None?
    ensures s.present && LoadAll(env, env.cfg.srcFile, []).Ok?
    ensures var t := RunIncremental(env, s, order).0;
      t.refreshInterval == DefaultRefreshInterval && t.present &&
      |t.calls| >= |s.calls| + 3 && t.calls[..|s.calls|] == s.calls &&
      t.calls[|s.calls|] == PutSettingsCall(env.index, RefreshBody(InactiveRefreshInterval)) &&
      t.calls[|t.calls| - 2] == RefreshCall(env.index) &&
      t.calls[|t.calls| - 1] == PutSettingsCall(env.index, RefreshBody(DefaultRefreshInterval)) &&
      BulkIds(t.calls[|s.calls|..]) == Ids(LoadAll(env, env.cfg.srcFile, []).value)
  {
    IncrementalSuccess(env, s, order);
    var docs := LoadAll(env, env.cfg.srcFile, []).value;
    var values := DedupValues(docs, env.cfg.dedupField).value;
    var s1 := RefreshOff(env, s);
    ReplaceCalls(env, s1, docs, values, order);
    var t := Replace(env, s1, docs, values, order).0;
    CallsSplit(s.calls, s1.calls, t.calls);
    NoBulkIds(s1.calls[|s.calls|..]);
    assert t.calls[|s.calls|] == s1.calls[|s.calls|] by {
      assert t.calls[..|s1.calls|] == s1.calls;
    }
  }

  lemma {:induction false} NoBulkIds(calls: seq<ClientCall>)
    requires forall i :: 0 <= i < |calls| ==> !calls[i].BulkCall?
    ensures BulkIds(calls) == []
    decreases |calls|
  {
    if |calls| > 0 {
      NoBulkIds(calls[1..]);
    }
  }

  /** Refresh off and the deletes extend the calls, refresh off first, with no
      bulk request among them. */
  lemma DeletedCalls(env: Env, s: IndexState, key: string, values: set<Json>, order: seq<Json>)
    ensures var s2 := Deleted(env, RefreshOff(env, s), key, values, order);
      |s2.calls| > |s.calls| && s2.calls[..|s.calls|] == s.calls &&
      s2.calls[|s.calls|] == PutSettingsCall(env.index, RefreshBody(InactiveRefreshInterval)) &&
      (forall i :: |s.calls| <= i < |s2.calls| ==> !s2.calls[i].BulkCall?) &&
      s2.present == s.present
  {
  }

  /** Uploading chunks and finishing: the bulk requests, then the refresh and
      refresh back on. */
  lemma ChunkedFinish(env: Env, s: IndexState, chunks: seq<seq<IndexDoc>>)
    requires FlushAll(env, s, chunks).1.None?
    ensures var t := Finished(env, FlushAll(env, s, chunks).0);
      |t.calls| == |s.calls| + |chunks| + 2 && t.calls[..|s.calls|] == s.calls &&
      t.calls[|t.calls| - 2] == RefreshCall(env.index) &&
      t.calls[|t.calls| - 1] == PutSettingsCall(env.index, RefreshBody(DefaultRefreshInterval)) &&
      BulkIds(t.calls[|s.calls| .. |t.calls| - 2]) == Ids(Flatten(chunks)) &&
      t.refreshInterval == DefaultRefreshInterval && t.present == s.present
  {
    FlushAllIds(env, s, chunks);
    var r := FlushAll(env, s, chunks).0;
    var t := Finished(env, r);
    assert t.calls[|s.calls| .. |t.calls| - 2] == r.calls[|s.calls|..];
  }

  /** A stream that ends without an exception assembled every record from i on. */
  lemma {:induction false} StreamOkAssembles(bs: int, assemble: Json -> Result<IndexDoc, PyError>, flush: BatchStep, s: IndexState, records: seq<Json>, i: nat, buffer: seq<IndexDoc>)
    requires i <= |records|
    requires StreamWith(bs, assemble, flush, s, records, i, buffer).1.None?
    ensures forall k :: i <= k < |records| ==> assemble(records[k]).Ok?
    ensures i < |records| ==> bs != 0
    decreases |records| - i
  {
    if i < |records| {
      var d := assemble(records[i]).value;
      if PyMod(i + 1, bs) == 0 {
        var f := flush(s, buffer + [d]);
        StreamOkAssembles(bs, assemble, flush, f.0, records, i + 1, []);
      } else {
        StreamOkAssembles(bs, assemble, flush, s, records, i + 1, buffer + [d]);
      }
    }
  }

  /** A file streamed without an exception loads without one. */
  lemma StreamOkLoads(env: Env, s: IndexState, records: seq<Json>)
    requires Stream(env, s, records).1.None?
    ensures LoadDocs(env.cfg, records, IntendedVectorType).Ok?
    ensures |records| > 0 ==> env.cfg.batchSize != 0
  {
    StreamOkAssembles(env.cfg.batchSize, Assembler(env.cfg), Flusher(env), s, records, 0, []);
  }

  /** The accumulator of the load loop only prefixes the result. */
  lemma {:induction false} LoadEachAcc(load: string -> Result<seq<IndexDoc>, PyError>, files: seq<string>, acc: seq<IndexDoc>)
    ensures LoadEach(load, files, acc) ==
      match LoadEach(load, files, [])
      case Ok(d) => Ok(acc + d)
      case Err(e) => Err(e)
    decreases |files|
  {
    if |files| > 0 {
      match load(files[0])
      case Err(_) =>
      case Ok(ds) =>
        assert [] + ds == ds;
        LoadEachAcc(load, files[1..], acc + ds);
        LoadEachAcc(load, files[1..], ds);
        match LoadEach(load, files[1..], [])
        case Err(_) =>
        case Ok(rest) =>
          assert (acc + ds) + rest == acc + (ds + rest);
    } else {
      assert acc + [] == acc;
    }
  }

  /** Streaming one file without an exception sends only bulk requests, which
      hold the file's documents exactly once, in order. */
  lemma StreamFileIds(env: Env, s: IndexState, records: seq<Json>)
    requires Stream(env, s, records).1.None?
    ensures LoadDocs(env.cfg, records, IntendedVectorType).Ok?
    ensures var t := Stream(env, s, records).0;
      |t.calls| >= |s.calls| && t.calls[..|s.calls|] == s.calls &&
      (forall i :: |s.calls| <= i < |t.calls| ==> t.calls[i].BulkCall?) &&
      BulkIds(t.calls[|s.calls|..]) == Ids(LoadDocs(env.cfg, records, IntendedVectorType).value) &&
      t.present == s.present && t.refreshInterval == s.refreshInterval
  {
    StreamOkLoads(env, s, records);
    var d0 := LoadDocs(env.cfg, records, IntendedVectorType).value;
    var chunks: seq<seq<IndexDoc>>;
    if |records| == 0 {
      chunks := [];
    } else {
      StreamIsChunked(env, s, records);
      chunks := SplitChunks(d0, Abs(env.cfg.batchSize));
      FlattenSplitChunks(d0, Abs(env.cfg.batchSize));
    }
    assert Stream(env, s, records) == FlushAll(env, s, chunks);
    FlushAllIds(env, s, chunks);
  }

  /** Streaming files without an exception sends only bulk requests, which hold
      every document of every file exactly once, in file and record order. */
  lemma {:induction false} StreamFilesIds(env: Env, s: IndexState, files: seq<string>)
    requires StreamFiles(env, s, files).1.None?
    ensures LoadAll(env, files, []).Ok?
    ensures var t := StreamFiles(env, s, files).0;
      |t.calls| >= |s.calls| && t.calls[..|s.calls|] == s.calls &&
      (forall i :: |s.calls| <= i < |t.calls| ==> t.calls[i].BulkCall?) &&
      BulkIds(t.calls[|s.calls|..]) == Ids(LoadAll(env, files, []).value) &&
      t.present == s.present && t.refreshInterval == s.refreshInterval
    decreases |files|
  {
    var t := StreamFiles(env, s, files).0;
    if |files| == 0 {
      assert t.calls[|s.calls|..] == [];
    } else {
      var records := env.readFile(files[0]);
      var r := Stream(env, s, records);
      StreamFileIds(env, s, records);
      var d0 := LoadDocs(env.cfg, records, IntendedVectorType).value;
      StreamFilesIds(env, r.0, files[1..]);
      LoadAllCons(env, files, d0);
      IdsAppend(d0, LoadAll(env, files[1..], []).value);
      BulkChain(s, r.0, t, Ids(d0), Ids(LoadAll(env, files[1..], []).value));
    }
  }

  /** Two runs of bulk requests one after the other form one run. */
  lemma BulkChain(s: IndexState, r: IndexState, t: IndexState, a: seq<string>, b: seq<string>)
    requires |r.calls| >= |s.calls| && r.calls[..|s.calls|] == s.calls
    requires forall i :: |s.calls| <= i < |r.calls| ==> r.calls[i].BulkCall?
    requires BulkIds(r.calls[|s.calls|..]) == a
    requires |t.calls| >= |r.calls| && t.calls[..|r.calls|] == r.calls
    requires forall i :: |r.calls| <= i < |t.calls| ==> t.calls[i].BulkCall?
    requires BulkIds(t.calls[|r.calls|..]) == b
    ensures |t.calls| >= |s.calls| && t.calls[..|s.calls|] == s.calls
    ensures forall i :: |s.calls| <= i < |t.calls| ==> t.calls[i].BulkCall?
    ensures BulkIds(t.calls[|s.calls|..]) == a + b
  {
    CallsSplit(s.calls, r.calls, t.calls);
    forall i | |s.calls| <= i < |t.calls|
      ensures t.calls[i].BulkCall?
    {
      if i < |r.calls| {
        assert t.calls[i] == t.calls[..|r.calls|][i];
      }
    }
  }

  /** The load loop over a first file that loads as d0. */
  lemma LoadAllCons(env: Env, files: seq<string>, d0: seq<IndexDoc>)
    requires |files| > 0 && LoadDocs(env.cfg, env.readFile(files[0]), IntendedVectorType) == Ok(d0)
    ensures LoadAll(env, files, []) ==
      match LoadAll(env, files[1..], [])
      case Ok(rest) => Ok(d0 + rest)
      case Err(e) => Err(e)
  {
    LoadEachAcc(Loader(env), files[1..], d0);
    assert Loader(env)(files[0]) == Ok(d0);
    assert [] + d0 == d0;
  }

  /** The bulk ids of calls appended in two steps. */
  lemma CallsSplit(a: seq<ClientCall>, b: seq<ClientCall>, c: seq<ClientCall>)
    requires |a| <= |b| <= |c| && b[..|a|] == a && c[..|b|] == b
    ensures c[..|a|] == a
    ensures BulkIds(c[|a|..]) == BulkIds(b[|a|..]) + BulkIds(c[|b|..])
  {
    assert c[|a|..] == b[|a|..] + c[|b|..];
    BulkIdsAppend(b[|a|..], c[|b|..]);
  }

  /** A successful WHOLE run found no index, created it with the template,
      uploaded every document of every source file exactly once and in order,
      then refreshed and turned refresh back on. */
  lemma RunWholeCalls(env: Env, s: IndexState)
    requires RunWhole(env, s).1.None?
    ensures !s.present && LoadAll(env, env.cfg.srcFile, []).Ok?
    ensures var t := RunWhole(env, s).0;
      t.present && t.refreshInterval == DefaultRefreshInterval &&
      |t.calls| >= |s.calls| + 3 && t.calls[..|s.calls|] == s.calls &&
      t.calls[|s.calls|] == CreateCall(env.index, env.template) &&
      t.calls[|t.calls| - 2] == RefreshCall(env.index) &&
      t.calls[|t.calls| - 1] == PutSettingsCall(env.index, RefreshBody(DefaultRefreshInterval)) &&
      BulkIds(t.calls[|s.calls| + 1 .. |t.calls| - 2]) == Ids(LoadAll(env, env.cfg.srcFile, []).value)
  {
    var c := Created(env, s);
    StreamFilesIds(env, c, env.cfg.srcFile);
    var r := StreamFiles(env, c, env.cfg.srcFile).0;
    var t := Finished(env, r);
    assert t.calls[|s.calls| + 1 .. |t.calls| - 2] == r.calls[|c.calls|..];
    assert t.calls[..|s.calls|] == s.calls by {
      assert t.calls[..|s.calls|] == r.calls[..|c.calls|][..|s.calls|];
    }
  }
}
