/** The `Indexer` class of data_ingestion/indexer/indexer.py: its loops, each
    proved against the run functions of `IndexRun`. */
module Indexer {
  import opened Common
  import opened PyJson
  import opened ListHelper
  import opened IndexConfig
  import opened IndexUploader
  import opened IndexTemplate
  import opened IndexDocuments
  import opened IndexRun

  /** The `batch_docs` list, which `_batch_process` fills with vectors and empties. */
  class DocBatch {
    var docs: seq<IndexDoc>

    constructor (docs: seq<IndexDoc>)
      ensures this.docs == docs
    {
      this.docs := docs;
    }
  }

  /** The write-back loop of `_batch_process` for one vector field. */
  method WriteVectors(docs: seq<IndexDoc>, key: string, vectors: seq<Json>) returns (out: seq<IndexDoc>, err: Option<PyError>)
    ensures (out, err) == WriteBack(docs, key, vectors)
  {
    out := docs;
    var j := 0;
    while j < |docs|
      invariant 0 <= j <= |docs| && |out| == |docs|
      invariant j <= |vectors|
      invariant forall i :: 0 <= i < j ==> out[i] == (docs[i].0, docs[i].1[key := vectors[i]])
      invariant forall i :: j <= i < |docs| ==> out[i] == docs[i]
    {
      if j >= |vectors| {
        assert out == WriteBack(docs, key, vectors).0;
        return out, Some(IndexError("list index out of range"));
      }
      out := out[j := (out[j].0, out[j].1[key := vectors[j]])];
      j := j + 1;
    }
    assert out == WriteBack(docs, key, vectors).0;
    err := None;
  }

  /** The vector-field loop of `_batch_process`. */
  method ApplyVectors(vfs: seq<(string, VectorField)>, embed: seq<Json> -> Result<seq<Json>, PyError>, docs: seq<IndexDoc>)
    returns (out: seq<IndexDoc>, err: Option<PyError>)
    ensures (out, err) == VectorPass(vfs, embed, docs)
  {
    out := docs;
    var i := 0;
    while i < |vfs|
      invariant 0 <= i <= |vfs|
      invariant VectorPass(vfs[i..], embed, out) == VectorPass(vfs, embed, docs)
    {
      assert vfs[i..][0] == vfs[i] && vfs[i..][1..] == vfs[i + 1..];
      var vectors := FieldVectors(vfs[i], out, embed);
      if vectors.Err? {
        return out, Some(vectors.error);
      }
      var written, e := WriteVectors(out, vfs[i].0, vectors.value);
      if e.Some? {
        return written, e;
      }
      out := written;
      i := i + 1;
    }
    assert vfs[i..] == [];
    err := None;
  }

  /** The load loop of `_index_incremental`. */
  method LoadFiles(env: Env, files: seq<string>) returns (r: Result<seq<IndexDoc>, PyError>)
    ensures r == LoadAll(env, files, [])
  {
    var docs: seq<IndexDoc> := [];
    var k := 0;
    while k < |files|
      invariant 0 <= k <= |files|
      invariant LoadEach(Loader(env), files[k..], docs) == LoadAll(env, files, [])
    {
      assert files[k..][0] == files[k] && files[k..][1..] == files[k + 1..];
      var loaded := LoadIndexDocs(env.cfg, env.readFile(files[k]), IntendedVectorType);
      if loaded.Err? {
        return Err(loaded.error);
      }
      docs := docs + loaded.value;
      k := k + 1;
    }
    assert files[k..] == [];
    r := Ok(docs);
  }

  /** The loop that collects the dedup-field values into a Python set. */
  method CollectDedup(docs: seq<IndexDoc>, key: string) returns (r: Result<set<Json>, PyError>)
    ensures r == DedupValues(docs, key)
  {
    var acc: set<Json> := {};
    var i := 0;
    while i < |docs|
      invariant 0 <= i <= |docs|
      invariant DedupValues(docs, key) == DedupFrom(acc, docs, key, i)
    {
      if key !in docs[i].1 {
        return Err(KeyError(key));
      }
      var v := docs[i].1[key];
      if !Hashable(v) {
        return Err(TypeError("unhashable type: '" + TypeName(v) + "'"));
      }
      acc := SetAdd(acc, v);
      i := i + 1;
    }
    r := Ok(acc);
  }

  /** An indexer: its configuration (with the template settings applied), its
      uploader, the embedding service and the source files' decoded lines. */
  class Indexer {
    const config: Config
    const uploader: IndexUploader
    const embed: seq<Json> -> Result<seq<Json>, PyError>
    const readFile: string -> seq<Json>

    constructor (config: Config, uploader: IndexUploader, embed: seq<Json> -> Result<seq<Json>, PyError>, readFile: string -> seq<Json>)
      ensures this.config == config && this.uploader == uploader
      ensures this.embed == embed && this.readFile == readFile
    {
      this.config := config;
      this.uploader := uploader;
      this.embed := embed;
      this.readFile := readFile;
    }

    /** Everything a run depends on besides the index state. */
    function Env(): Env {
      IndexRun.Env(config, uploader.indexName, uploader.template, uploader.accepts, uploader.matches, embed, readFile)
    }

    /** `_batch_process`: vectors are written into the batch in place, the batch
        is uploaded with chunk size 500 and emptied; an exception leaves the
        partly written batch behind and uploads nothing. */
    method BatchProcess(batch: DocBatch) returns (err: Option<PyError>)
      requires uploader.indexExists
      modifies batch, uploader
      ensures var f := Flush(Env(), old(uploader.State()), old(batch.docs));
        uploader.State() == f.0 && batch.docs == f.1 && err == f.2
    {
      var out, e := ApplyVectors(config.fields.vectorField, embed, batch.docs);
      if e.Some? {
        batch.docs := out;
        return e;
      }
      var uploaded := uploader.UploadIndex(AsDicts(out), UploadChunkSize);
      batch.docs := [];
      err := None;
    }

    /** `_process_index_docs` over one file's records. */
    method ProcessIndexDocs(records: seq<Json>) returns (err: Option<PyError>)
      requires uploader.indexExists
      modifies uploader
      ensures uploader.indexExists
      ensures (uploader.State(), err) == Stream(Env(), old(uploader.State()), records)
    {
      var batch := new DocBatch([]);
      var i := 0;
      while i < |records|
        invariant 0 <= i <= |records|
        invariant uploader.indexExists && fresh(batch)
        invariant StreamWith(config.batchSize, Assembler(config), Flusher(Env()), uploader.State(), records, i, batch.docs) ==
          Stream(Env(), old(uploader.State()), records)
      {
        var d := AssembleRecord(config, records[i], IntendedVectorType);
        if d.Err? {
          return Some(d.error);
        }
        if config.batchSize == 0 {
          return Some(ZeroDivisionError);
        }
        batch.docs := batch.docs + [d.value];
        if PyMod(i + 1, config.batchSize) == 0 {
          err := BatchProcess(batch);
          if err.Some? {
            return;
          }
        }
        i := i + 1;
      }
      if |batch.docs| > 0 {
        err := BatchProcess(batch);
      } else {
        err := None;
      }
    }

    /** `_process_index_batch`: the documents in chunks of the batch size, each
        through `_batch_process`. */
    method ProcessIndexBatch(docs: seq<IndexDoc>, batchSize: int) returns (err: Option<PyError>)
      requires uploader.indexExists
      modifies uploader
      ensures uploader.indexExists
      ensures (uploader.State(), err) == ProcessBatch(Env(), old(uploader.State()), docs, batchSize)
    {
      var chunks := SplitChunksPy(docs, batchSize);
      if chunks.Err? {
        return Some(chunks.error);
      }
      var c := 0;
      while c < |chunks.value|
        invariant 0 <= c <= |chunks.value|
        invariant uploader.indexExists
        invariant FlushAll(Env(), uploader.State(), chunks.value[c..]) ==
          ProcessBatch(Env(), old(uploader.State()), docs, batchSize)
      {
        assert chunks.value[c..][0] == chunks.value[c] && chunks.value[c..][1..] == chunks.value[c + 1..];
        var batch := new DocBatch(chunks.value[c]);
        err := BatchProcess(batch);
        if err.Some? {
          return;
        }
        c := c + 1;
      }
      assert chunks.value[c..] == [];
      err := None;
    }

    /** `_index_whole`. */
    method IndexWhole() returns (err: Option<PyError>)
      modifies uploader
      ensures (uploader.State(), err) == RunWhole(Env(), old(uploader.State()))
    {
      ghost var s0 := uploader.State();
      err := uploader.CreateIndex();
      if err.Some? {
        return;
      }
      assert uploader.State() == Created(Env(), s0);
      var files := config.srcFile;
      var k := 0;
      while k < |files|
        invariant 0 <= k <= |files|
        invariant uploader.indexExists
        invariant StreamFiles(Env(), uploader.State(), files[k..]) ==
          StreamFiles(Env(), Created(Env(), s0), files)
      {
        assert files[k..][0] == files[k] && files[k..][1..] == files[k + 1..];
        err := ProcessIndexDocs(readFile(files[k]));
        if err.Some? {
          return;
        }
        k := k + 1;
      }
      assert files[k..] == [];
      ghost var streamed := uploader.State();
      assert StreamFiles(Env(), Created(Env(), s0), files) == (streamed, None);
      uploader.RefreshIndices();
      uploader.SetRefreshInterval(DefaultRefreshInterval);
      assert uploader.State() == Finished(Env(), streamed);
      err := None;
    }

    /** `_index_incremental`, for some iteration order of the dedup-value set. */
    method IndexIncremental() returns (err: Option<PyError>)
      modifies uploader
      ensures exists order: seq<Json> :: (OrderFits(Env(), old(uploader.State()), order) &&
        (uploader.State(), err) == RunIncremental(Env(), old(uploader.State()), order))
    {
      ghost var s0 := uploader.State();
      var present := uploader.IsIndexExists();
      if !present {
        err := Some(RuntimeError("Index does not exist"));
        assert OrderFits(Env(), s0, []) && (uploader.State(), err) == RunIncremental(Env(), s0, []);
        return;
      }
      uploader.SetRefreshInterval(InactiveRefreshInterval);
      assert uploader.State() == RefreshOff(Env(), s0);
      var docs := LoadFiles(Env(), config.srcFile);
      if docs.Err? {
        err := Some(docs.error);
        assert OrderFits(Env(), s0, []) && (uploader.State(), err) == RunIncremental(Env(), s0, []);
        return;
      }
      var values := CollectDedup(docs.value, config.dedupField);
      if values.Err? {
        err := Some(values.error);
        assert OrderFits(Env(), s0, []) && (uploader.State(), err) == RunIncremental(Env(), s0, []);
        return;
      }
      ghost var s1 := uploader.State();
      err := ReplaceDocuments(docs.value, values.value);
      ghost var order :| Enumerates(order, values.value) &&
        (uploader.State(), err) == Replace(Env(), s1, docs.value, values.value, order);
      assert OrderFits(Env(), s0, order);
      assert (uploader.State(), err) == RunIncremental(Env(), s0, order);
    }

    /** The delete, upload and finishing steps of `_index_incremental`. */
    method ReplaceDocuments(docs: seq<IndexDoc>, values: set<Json>) returns (err: Option<PyError>)
      requires uploader.indexExists
      modifies uploader
      ensures exists order: seq<Json> :: (Enumerates(order, values) &&
        (uploader.State(), err) == Replace(Env(), old(uploader.State()), docs, values, order))
    {
      ghost var s1 := uploader.State();
      ghost var order := DeleteDuplicates(values);
      ghost var s2 := uploader.State();
      err := UploadAndFinish(docs);
      assert (uploader.State(), err) == Replace(Env(), s1, docs, values, order);
    }

    /** `delete_documents_by_objs(dedup_field, dedup_field_value_set)`, with the
        order in which the set was enumerated. */
    method DeleteDuplicates(values: set<Json>) returns (ghost order: seq<Json>)
      requires uploader.indexExists
      modifies uploader
      ensures uploader.indexExists && Enumerates(order, values)
      ensures uploader.State() == Deleted(Env(), old(uploader.State()), config.dedupField, values, order)
    {
      ghost var s1 := uploader.State();
      uploader.DeleteDocumentsByObjs(config.dedupField, values);
      order := [];
      if values != {} {
        order :| NoDups(order) && Members(order) == values &&
          uploader.calls == s1.calls + DeleteCalls(uploader.indexName, SplitChunks(MatchQueries(config.dedupField, order), DeleteChunkSize));
      } else {
        assert Members(order) == {};
      }
    }

    /** The upload and finishing steps of `_index_incremental`. */
    method UploadAndFinish(docs: seq<IndexDoc>) returns (err: Option<PyError>)
      requires uploader.indexExists
      modifies uploader
      ensures var r := ProcessBatch(Env(), old(uploader.State()), docs, config.batchSize);
        (uploader.State(), err) == if r.1.Some? then r else (Finished(Env(), r.0), None)
    {
      err := ProcessIndexBatch(docs, config.batchSize);
      if err.Some? {
        return;
      }
      ghost var uploaded := uploader.State();
      uploader.RefreshIndices();
      uploader.SetRefreshInterval(DefaultRefreshInterval);
      assert uploader.State() == Finished(Env(), uploaded);
    }

    /** `index_function[indexing_type]()`. */
    method Index(t: IndexingType) returns (err: Option<PyError>)
      modifies uploader
      ensures t == WHOLE ==> (uploader.State(), err) == RunWhole(Env(), old(uploader.State()))
      ensures t == INCREMENTAL ==> exists order: seq<Json> :: (OrderFits(Env(), old(uploader.State()), order) &&
        (uploader.State(), err) == RunIncremental(Env(), old(uploader.State()), order))
    {
      match t
      case WHOLE => err := IndexWhole();
      case INCREMENTAL => err := IndexIncremental();
    }
  }

  /** `Indexer.__init__`: builds the template (updating the configuration's
      settings), then an uploader for the configured index holding it. The
      cluster's current state and behaviour are parameters. */
  method NewIndexer(config: Config, embed: seq<Json> -> Result<seq<Json>, PyError>, readFile: string -> seq<Json>,
                    accepts: (string, Doc) -> bool, matches: (Json, Json) -> bool,
                    indexExists: bool, docs: map<string, Doc>, refreshInterval: string)
    returns (r: Result<Indexer, PyError>)
    ensures r.Err? <==> TemplateSettings(config).Err?
    ensures r.Err? ==> r.error == TemplateSettings(config).error
    ensures r.Ok? ==> fresh(r.value) && fresh(r.value.uploader)
    ensures r.Ok? ==> (r.value.config == config.(settings := TemplateSettings(config).value) &&
      r.value.uploader.indexName == config.indexName &&
      r.value.uploader.template == Template(r.value.config.settings, Properties(config.fields)) &&
      r.value.uploader.State() == IndexState(indexExists, docs, refreshInterval, []))
  {
    var updated, template := BuildTemplate(config);
    if template.Err? {
      return Err(template.error);
    }
    var uploader := new IndexUploader(updated.indexName, template.value, accepts, matches, indexExists, docs, refreshInterval);
    var indexer := new Indexer(updated, uploader, embed, readFile);
    r := Ok(indexer);
  }
}
