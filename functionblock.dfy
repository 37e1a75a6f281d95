/** The blocks of data_ingestion/refinery/function_block.py as they run: a
    table whose rows each block changes in place through the source's nested
    loops, each block proved equal to the `Refinery` function that states it. */
module FunctionBlock {
  import opened Common
  import opened PyJson
  import opened Refinery

  // ------------------------------------------------------- per-row loops

  /** The mapping loop of `transform_field` on one row. */
  method RenameColumns(row: Row, mapping: seq<(string, string)>) returns (out: Row, err: Option<PyError>)
    ensures (out, err) == Rename(row, mapping)
  {
    out := row;
    var i := 0;
    while i < |mapping|
      invariant 0 <= i <= |mapping|
      invariant Rename(out, mapping[i..]) == Rename(row, mapping)
    {
      assert mapping[i..][0] == mapping[i] && mapping[i..][1..] == mapping[i + 1..];
      var (key, value) := mapping[i];
      if key !in out {
        return out, Some(KeyError(key));
      }
      var tmp := out[key];
      out := out - {key};
      out := out[value := tmp];
      i := i + 1;
    }
    return out, None;
  }

  /** The `for obj in objects: assert isinstance(obj, str)` loop. */
  method AllStrings(objects: seq<Json>) returns (ok: bool)
    ensures ok == AllStr(objects)
  {
    var j := 0;
    while j < |objects|
      invariant 0 <= j <= |objects|
      invariant forall i :: 0 <= i < j ==> objects[i].JStr?
    {
      if !objects[j].JStr? {
        return false;
      }
      j := j + 1;
    }
    return true;
  }

  /** One cell of `string_to_array`. */
  method ParseCell(cell: Json, loads: string -> Result<Json, PyError>) returns (r: Result<Json, PyError>)
    ensures r == ParseArray(cell, loads)
  {
    if !Truthy(cell) {
      return Ok(JList([]));
    }
    if !cell.JStr? {
      return Err(AttributeError("'" + TypeName(cell) + "' object has no attribute 'replace'"));
    }
    var objects := loads(QuotesToDouble(cell.s));
    if objects.Err? {
      return Err(objects.error);
    }
    if !objects.value.JList? {
      return Err(AssertionError(""));
    }
    var ok := AllStrings(objects.value.items);
    if !ok {
      return Err(AssertionError(""));
    }
    return objects;
  }

  /** The column loop of `string_to_array` on one row. */
  method ParseColumns(row: Row, keys: seq<string>, loads: string -> Result<Json, PyError>) returns (out: Row, err: Option<PyError>)
    ensures (out, err) == ParseArrays(row, keys, loads)
  {
    out := row;
    var i := 0;
    while i < |keys|
      invariant 0 <= i <= |keys|
      invariant ParseArrays(out, keys[i..], loads) == ParseArrays(row, keys, loads)
    {
      assert keys[i..][0] == keys[i] && keys[i..][1..] == keys[i + 1..];
      var key := keys[i];
      if key !in out {
        return out, Some(KeyError(key));
      }
      var objects := ParseCell(out[key], loads);
      if objects.Err? {
        return out, Some(objects.error);
      }
      out := out[key := objects.value];
      i := i + 1;
    }
    return out, None;
  }

  /** The sentence loop of `chunk`: `buf` collects sentences and is committed
      as one space-joined chunk before the sentence that reaches the bound. */
  method SplitIntoChunks(sentences: seq<string>, max: int) returns (chunks: seq<string>)
    ensures chunks == JoinEach(Groups(sentences, max))
  {
    chunks := [];
    var buf: seq<string> := [];
    ghost var done: seq<seq<string>> := [];
    var i := 0;
    while i < |sentences|
      invariant 0 <= i <= |sentences|
      invariant GroupFrom(sentences[i..], max, buf, done) == Groups(sentences, max)
      invariant chunks == JoinEach(done)
    {
      var sentence := sentences[i];
      assert sentences[i..][0] == sentence && sentences[i..][1..] == sentences[i + 1..];
      if SumLen(buf) + |sentence| + 1 >= max {
        chunks := chunks + [Join(buf, " ")];
        done := done + [buf];
        assert chunks == JoinEach(done);
        buf := [];
      }
      buf := buf + [sentence];
      i := i + 1;
    }
    assert sentences[i..] == [];
    if |buf| > 0 {
      chunks := chunks + [Join(buf, " ")];
      done := done + [buf];
      assert chunks == JoinEach(done);
    }
  }

  /** One row of `chunk`. */
  method ChunkCell(row: Row, col: string, max: int, tokenize: string -> seq<string>) returns (out: Row, err: Option<PyError>)
    ensures (out, err) == ChunkRow(row, col, max, tokenize)
  {
    if col !in row {
      return row, Some(KeyError(col));
    }
    if !row[col].JStr? {
      return row, Some(TypeError("expected string or bytes-like object"));
    }
    var sentences := tokenize(row[col].s);
    var chunks := SplitIntoChunks(sentences, max);
    return row[col := JList(Strs(chunks))], None;
  }

  /** The data-key loop of `collection_form` on one row. */
  method CollectRow(row: Row, order: seq<string>, dumps: seq<(string, Json)> -> string) returns (out: Row, err: Option<PyError>)
    ensures (out, err) == Collect(row, order, dumps)
  {
    out := row;
    var tmp: seq<(string, Json)> := [];
    var i := 0;
    while i < |order|
      invariant 0 <= i <= |order|
      invariant Gathered(out, order[i..], tmp) == Gathered(row, order, [])
    {
      assert order[i..][0] == order[i] && order[i..][1..] == order[i + 1..];
      var key := order[i];
      if key !in out {
        return out, Some(KeyError(key));
      }
      tmp := tmp + [(key, out[key])];
      out := out - {key};
      i := i + 1;
    }
    assert order[i..] == [];
    if SeqColName !in out {
      return out, Some(KeyError(SeqColName));
    }
    out := out[JsonColName := JStr(dumps(tmp))];
    return out, None;
  }

  /** Python's iteration over a set of column names: each name once. */
  method SetOrder(keys: set<string>) returns (order: seq<string>)
    ensures Enumerates(order, keys)
  {
    order := [];
    var rest := keys;
    while rest != {}
      invariant Members(order) + rest == keys && Members(order) !! rest
      invariant NoDups(order)
      decreases |rest|
    {
      var k :| k in rest;
      MembersSnoc(order, k);
      order := order + [k];
      rest := rest - {k};
    }
  }

  /** The rows of `explode_array` built so far followed by the rest of it. */
  function Prepend(acc: seq<Row>, r: Result<seq<Row>, PyError>): Result<seq<Row>, PyError> {
    match r
    case Ok(v) => Ok(acc + v)
    case Err(e) => Err(e)
  }

  lemma PrependNil(r: Result<seq<Row>, PyError>)
    ensures Prepend([], r) == r
  {
    if r.Ok? {
      assert [] + r.value == r.value;
    }
  }

  lemma PrependTwice(acc: seq<Row>, more: seq<Row>, r: Result<seq<Row>, PyError>)
    ensures Prepend(acc, Prepend(more, r)) == Prepend(acc + more, r)
  {
    if r.Ok? {
      assert acc + (more + r.value) == (acc + more) + r.value;
    }
  }

  // -------------------------------------------------------------- the table

  /** The `rows` list that the pipeline passes from block to block. */
  class Table {
    var rows: seq<Row>

    constructor (rows: seq<Row>)
      ensures this.rows == rows
    {
      this.rows := rows;
    }

    /** `transform_field(rows, mapping)`. */
    method TransformField(mapping: seq<(string, string)>) returns (err: Option<PyError>)
      modifies this
      ensures (rows, err) == ApplyFrom(old(rows), 0, RenameStep(mapping))
    {
      var i := 0;
      while i < |rows|
        invariant i <= |rows|
        invariant ApplyFrom(rows, i, RenameStep(mapping)) == ApplyFrom(old(rows), 0, RenameStep(mapping))
      {
        var row, e := RenameColumns(rows[i], mapping);
        rows := rows[i := row];
        if e.Some? {
          return e;
        }
        i := i + 1;
      }
      return None;
    }

    /** `string_to_array(rows, target_columns)`. */
    method StringToArray(keys: seq<string>, loads: string -> Result<Json, PyError>) returns (err: Option<PyError>)
      modifies this
      ensures (rows, err) == ApplyFrom(old(rows), 0, ParseStep(keys, loads))
    {
      var i := 0;
      while i < |rows|
        invariant i <= |rows|
        invariant ApplyFrom(rows, i, ParseStep(keys, loads)) == ApplyFrom(old(rows), 0, ParseStep(keys, loads))
      {
        var row, e := ParseColumns(rows[i], keys, loads);
        rows := rows[i := row];
        if e.Some? {
          return e;
        }
        i := i + 1;
      }
      return None;
    }

    /** `chunk(rows, target_column, max_chunk_size)`; `tokenize` is
        nltk.sent_tokenize. */
    method Chunk(col: string, max: int, tokenize: string -> seq<string>) returns (err: Option<PyError>)
      modifies this
      ensures (rows, err) == ApplyFrom(old(rows), 0, ChunkStep(col, max, tokenize))
    {
      var i := 0;
      while i < |rows|
        invariant i <= |rows|
        invariant ApplyFrom(rows, i, ChunkStep(col, max, tokenize)) == ApplyFrom(old(rows), 0, ChunkStep(col, max, tokenize))
      {
        var row, e := ChunkCell(rows[i], col, max, tokenize);
        rows := rows[i := row];
        if e.Some? {
          return e;
        }
        i := i + 1;
      }
      return None;
    }

    /** `explode_array(rows, target_column)`: the pipeline continues with the
        new list, so on success the table holds the exploded rows; when the
        assertion fails the rows are left as they were. */
    method ExplodeArray(col: string) returns (err: Option<PyError>)
      modifies this
      ensures Exploded(old(rows), col).Ok? ==> err.None? && rows == Exploded(old(rows), col).value
      ensures Exploded(old(rows), col).Err? ==> err == Some(Exploded(old(rows), col).error) && rows == old(rows)
    {
      var exploded: seq<Row> := [];
      var i := 0;
      assert rows[0..] == rows;
      PrependNil(Exploded(rows, col));
      while i < |rows|
        invariant 0 <= i <= |rows| && rows == old(rows)
        invariant Exploded(rows, col) == Prepend(exploded, Exploded(rows[i..], col))
      {
        var row := rows[i];
        assert rows[i..][0] == row && rows[i..][1..] == rows[i + 1..];
        if col !in row {
          return Some(KeyError(col));
        }
        if !row[col].JList? {
          return Some(AssertionError(""));
        }
        var values := row[col].items;
        ghost var before := exploded;
        var j := 0;
        while j < |values|
          invariant 0 <= j <= |values|
          invariant exploded == before + Spread(row, col, values[..j])
        {
          var newRow := row[col := values[j]];
          assert Spread(row, col, values[..j + 1]) == Spread(row, col, values[..j]) + [newRow];
          exploded := exploded + [newRow];
          j := j + 1;
        }
        assert values[..j] == values;
        assert Exploded(rows[i..], col) == Prepend(Spread(row, col, values), Exploded(rows[i + 1..], col));
        PrependTwice(before, Spread(row, col, values), Exploded(rows[i + 1..], col));
        i := i + 1;
      }
      assert rows[i..] == [];
      rows := exploded;
      return None;
    }

    /** `add_sequence_number(rows)`. */
    method AddSequenceNumber()
      modifies this
      ensures rows == Numbered(old(rows))
    {
      var i := 0;
      while i < |rows|
        invariant 0 <= i <= |rows| && |rows| == |old(rows)|
        invariant forall j :: 0 <= j < i ==> rows[j] == old(rows)[j][SeqColName := JInt(j)]
        invariant forall j :: i <= j < |rows| ==> rows[j] == old(rows)[j]
      {
        rows := rows[i := rows[i][SeqColName := JInt(i)]];
        i := i + 1;
      }
    }

    /** `add_column(rows, column_name, row_handler)`. */
    method AddColumn(name: string, handler: Row -> Json)
      modifies this
      ensures rows == WithColumn(old(rows), name, handler)
    {
      var i := 0;
      while i < |rows|
        invariant 0 <= i <= |rows| && |rows| == |old(rows)|
        invariant forall j :: 0 <= j < i ==> rows[j] == old(rows)[j][name := handler(old(rows)[j])]
        invariant forall j :: i <= j < |rows| ==> rows[j] == old(rows)[j]
      {
        rows := rows[i := rows[i][name := handler(rows[i])]];
        i := i + 1;
      }
    }

    /** `collection_form(rows)`, for the order in which Python iterates the
        set of data keys; `dumps` is json.dumps. */
    method CollectionForm(dumps: seq<(string, Json)> -> string) returns (err: Option<PyError>)
      modifies this
      ensures exists order :: (Enumerates(order, DataKeys(old(rows))) &&
        (rows, err) == CollectionFormed(old(rows), order, dumps))
    {
      if |rows| == 0 {
        ghost var order: seq<string> := [];
        assert Enumerates(order, DataKeys(old(rows)));
        return Some(IndexError("list index out of range"));
      }
      var keys := rows[0].Keys;
      if SeqColName in keys {
        keys := keys - {SeqColName};
      }
      assert keys == DataKeys(rows);
      var order := SetOrder(keys);
      if |keys| > 1 {
        var i := 0;
        while i < |rows|
          invariant i <= |rows|
          invariant ApplyFrom(rows, i, CollectStep(order, dumps)) == ApplyFrom(old(rows), 0, CollectStep(order, dumps))
        {
          var row, e := CollectRow(rows[i], order, dumps);
          rows := rows[i := row];
          if e.Some? {
            return e;
          }
          i := i + 1;
        }
        return None;
      } else if |keys| == 1 {
        return None;
      } else {
        return Some(RuntimeError("No data keys found"));
      }
    }
  }
}
