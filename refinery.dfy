/** The row transforms of data_ingestion/refinery/function_block.py, as
    functions of the rows they start from. A table is a list of rows (Python
    dicts); `FunctionBlock.Table` runs the source's loops and is proved equal
    to these functions. */
module Refinery {
  import opened Common
  import opened PyJson
  import opened ListHelper

  /** One row. Column order is not modelled, only column contents. */
  type Row = map<string, Json>

  const SeqColName: string := "__SEQ__"
  const JsonColName: string := "json"

  /** What a block does to one row: the row as the block leaves it, and the
      exception that stopped it, if any. */
  type RowStep = Row -> (Row, Option<PyError>)

  // ------------------------------------------------------------ outer loop

  /** A block's `for row in rows` loop from row i on. The rows are changed in
      place, so when row k raises, rows before k are transformed, row k is
      left as far as the block got, and the rows after k are untouched. */
  function ApplyFrom(rows: seq<Row>, i: nat, step: RowStep): (seq<Row>, Option<PyError>)
    requires i <= |rows|
    decreases |rows| - i
  {
    if i == |rows| then (rows, None)
    else
      var (row, err) := step(rows[i]);
      if err.Some? then (rows[i := row], err)
      else ApplyFrom(rows[i := row], i + 1, step)
  }

  /** Row k raised `err` and stopped the loop that started at row i. */
  ghost predicate StoppedAt(rows: seq<Row>, out: seq<Row>, err: PyError, step: RowStep, i: nat, k: nat)
    requires |out| == |rows| && i <= k < |rows|
  {
    step(rows[k]) == (out[k], Some(err)) &&
    (forall j :: i <= j < k ==> step(rows[j]) == (out[j], None)) &&
    (forall j :: k < j < |rows| ==> out[j] == rows[j])
  }

  /** The outer loop succeeds exactly when every row does, and then every row
      is its own step's result; otherwise the first failing row stops it. */
  lemma {:induction false} ApplyFromSpec(rows: seq<Row>, i: nat, step: RowStep)
    requires i <= |rows|
    ensures var (out, err) := ApplyFrom(rows, i, step);
      |out| == |rows| && out[..i] == rows[..i] &&
      (err.None? <==> forall j :: i <= j < |rows| ==> step(rows[j]).1.None?) &&
      (err.None? ==> forall j :: i <= j < |rows| ==> out[j] == step(rows[j]).0) &&
      (err.Some? ==> exists k :: i <= k < |rows| && StoppedAt(rows, out, err.value, step, i, k))
    decreases |rows| - i
  {
    if i < |rows| {
      var (row, e) := step(rows[i]);
      var next := rows[i := row];
      if e.None? {
        ApplyFromSpec(next, i + 1, step);
        var (out, err) := ApplyFrom(next, i + 1, step);
        assert ApplyFrom(rows, i, step) == (out, err);
        assert forall j :: i < j < |rows| ==> next[j] == rows[j];
        assert out[..i + 1] == next[..i + 1];
        assert out[i] == row by { assert out[..i + 1][i] == next[..i + 1][i]; }
        assert out[..i] == rows[..i] by {
          assert out[..i] == out[..i + 1][..i];
          assert next[..i + 1][..i] == rows[..i];
        }
        if err.Some? {
          var k :| i + 1 <= k < |rows| && StoppedAt(next, out, err.value, step, i + 1, k);
          assert StoppedAt(rows, out, err.value, step, i, k);
        }
      } else {
        assert StoppedAt(rows, next, e.value, step, i, i);
      }
    }
  }

  // ------------------------------------------------------- transform_field

  /** One row of `transform_field`: each (key, value) pair of the mapping, in
      order, moves row[key] to row[value]; a missing key raises KeyError. */
  function Rename(row: Row, mapping: seq<(string, string)>): (Row, Option<PyError>)
    decreases |mapping|
  {
    if |mapping| == 0 then (row, None)
    else if mapping[0].0 !in row then (row, Some(KeyError(mapping[0].0)))
    else Rename((row - {mapping[0].0})[mapping[0].1 := row[mapping[0].0]], mapping[1..])
  }

  function RenameStep(mapping: seq<(string, string)>): RowStep {
    row => Rename(row, mapping)
  }

  function Sources(mapping: seq<(string, string)>): set<string> {
    set a | 0 <= a < |mapping| :: mapping[a].0
  }

  function Targets(mapping: seq<(string, string)>): set<string> {
    set a | 0 <= a < |mapping| :: mapping[a].1
  }

  /** A mapping read from a dict: distinct keys, distinct targets, and no
      pair moves a column that another pair writes. Identity pairs are allowed. */
  predicate Separate(mapping: seq<(string, string)>) {
    forall a, b :: 0 <= a < |mapping| && 0 <= b < |mapping| && a != b ==>
      mapping[a].0 != mapping[b].0 && mapping[a].1 != mapping[b].1 && mapping[a].0 != mapping[b].1
  }

  /** The pairs after the first: still separate, clear of the first pair's
      columns, and with the first pair's source and target the whole
      mapping's columns. */
  lemma SeparateTail(mapping: seq<(string, string)>)
    requires |mapping| > 0 && Separate(mapping)
    ensures var rest := mapping[1..];
      Separate(rest) &&
      (forall a :: 0 <= a < |rest| ==> rest[a] == mapping[a + 1]) &&
      (forall a :: 0 <= a < |rest| ==> rest[a].0 != mapping[0].0 && rest[a].0 != mapping[0].1 &&
                                        rest[a].1 != mapping[0].1) &&
      Sources(mapping) == {mapping[0].0} + Sources(rest) &&
      Targets(mapping) == {mapping[0].1} + Targets(rest)
  {
    var (k, v) := mapping[0];
    var rest := mapping[1..];
    assert Separate(rest) by {
      forall a, b | 0 <= a < |rest| && 0 <= b < |rest| && a != b
        ensures rest[a].0 != rest[b].0 && rest[a].1 != rest[b].1 && rest[a].0 != rest[b].1
      {
        assert rest[a] == mapping[a + 1] && rest[b] == mapping[b + 1];
      }
    }
    assert forall a :: 0 <= a < |rest| ==> rest[a] == mapping[a + 1];
    assert Sources(mapping) == {k} + Sources(rest) by {
      forall c | c in Sources(mapping) ensures c in {k} + Sources(rest) {
        var a :| 0 <= a < |mapping| && mapping[a].0 == c;
        if a > 0 { assert rest[a - 1] == mapping[a]; }
      }
    }
    assert Targets(mapping) == {v} + Targets(rest) by {
      forall c | c in Targets(mapping) ensures c in {v} + Targets(rest) {
        var a :| 0 <= a < |mapping| && mapping[a].1 == c;
        if a > 0 { assert rest[a - 1] == mapping[a]; }
      }
    }
  }

  /** With a separate mapping whose keys are all present, the row ends up with
      each target holding its source's old value, no moved source left behind
      (an identity pair keeps its column and value), and every other column as
      it was. */
  lemma {:induction false} RenameMoves(row: Row, mapping: seq<(string, string)>)
    requires Separate(mapping)
    requires forall a :: 0 <= a < |mapping| ==> mapping[a].0 in row
    ensures Rename(row, mapping).1 == None
    ensures Rename(row, mapping).0.Keys == (row.Keys - Sources(mapping)) + Targets(mapping)
    ensures forall a :: 0 <= a < |mapping| ==> Rename(row, mapping).0[mapping[a].1] == row[mapping[a].0]
    ensures forall c :: c in row && c !in Sources(mapping) && c !in Targets(mapping) ==> Rename(row, mapping).0[c] == row[c]
    decreases |mapping|
  {
    if |mapping| > 0 {
      var (k, v) := mapping[0];
      var rest := mapping[1..];
      var row1 := (row - {k})[v := row[k]];
      SeparateTail(mapping);
      RenameMoves(row1, rest);
      var out := Rename(row1, rest).0;
      assert Rename(row, mapping) == Rename(row1, rest);
      assert v !in Sources(rest) && v !in Targets(rest);
      assert row1.Keys == (row.Keys - {k}) + {v};
      forall a | 0 <= a < |mapping|
        ensures mapping[a].1 in out && out[mapping[a].1] == row[mapping[a].0]
      {
        if a > 0 {
          assert mapping[a] == rest[a - 1];
        } else {
          assert v in out;
        }
      }
    }
  }

  // ------------------------------------------------------- string_to_array

  /** `s.replace("'", '"')`. */
  function QuotesToDouble(s: string): (r: string)
    ensures |r| == |s|
    ensures forall i :: 0 <= i < |r| ==> r[i] != '\''
    ensures forall i :: 0 <= i < |s| && s[i] != '\'' ==> r[i] == s[i]
  {
    seq(|s|, i requires 0 <= i < |s| => if s[i] == '\'' then '"' else s[i])
  }

  predicate AllStr(xs: seq<Json>) {
    forall i :: 0 <= i < |xs| ==> xs[i].JStr?
  }

  /** One cell of `string_to_array`. `loads` is json.loads. A falsy cell
      becomes []; a truthy cell must be a string (anything else has no
      `replace`), must decode, and must decode to a list of strings. */
  function ParseArray(cell: Json, loads: string -> Result<Json, PyError>): (r: Result<Json, PyError>)
    ensures r.Ok? ==> r.value.JList? && AllStr(r.value.items)
    ensures !Truthy(cell) ==> r == Ok(JList([]))
    ensures Truthy(cell) && !cell.JStr? ==> r.Err? && r.error.AttributeError?
    ensures Truthy(cell) && cell.JStr? ==>
      (r.Ok? <==> loads(QuotesToDouble(cell.s)).Ok? && loads(QuotesToDouble(cell.s)).value.JList?
                  && AllStr(loads(QuotesToDouble(cell.s)).value.items))
    ensures r.Ok? && Truthy(cell) ==> r == loads(QuotesToDouble(cell.s))
  {
    if !Truthy(cell) then Ok(JList([]))
    else if !cell.JStr? then Err(AttributeError("'" + TypeName(cell) + "' object has no attribute 'replace'"))
    else match loads(QuotesToDouble(cell.s))
      case Err(e) => Err(e)
      case Ok(objects) =>
        if !objects.JList? || !AllStr(objects.items) then Err(AssertionError(""))
        else Ok(objects)
  }

  /** One row of `string_to_array`: the target columns in order; a missing
      column raises KeyError. */
  function ParseArrays(row: Row, keys: seq<string>, loads: string -> Result<Json, PyError>): (Row, Option<PyError>)
    decreases |keys|
  {
    if |keys| == 0 then (row, None)
    else if keys[0] !in row then (row, Some(KeyError(keys[0])))
    else match ParseArray(row[keys[0]], loads)
      case Err(e) => (row, Some(e))
      case Ok(v) => ParseArrays(row[keys[0] := v], keys[1..], loads)
  }

  function ParseStep(keys: seq<string>, loads: string -> Result<Json, PyError>): RowStep {
    row => ParseArrays(row, keys, loads)
  }

  /** A row that passes `string_to_array` keeps its columns, has a list of
      strings in every target column and is unchanged elsewhere; a row without
      some target column fails. */
  lemma {:induction false} ParseArraysSpec(row: Row, keys: seq<string>, loads: string -> Result<Json, PyError>)
    ensures var (out, err) := ParseArrays(row, keys, loads);
      out.Keys == row.Keys &&
      (forall c :: c in row && c !in keys ==> out[c] == row[c]) &&
      (err.None? ==> forall k :: k in keys ==> k in row && out[k].JList? && AllStr(out[k].items))
    decreases |keys|
  {
    if |keys| > 0 && keys[0] in row && ParseArray(row[keys[0]], loads).Ok? {
      var v := ParseArray(row[keys[0]], loads).value;
      ParseArraysSpec(row[keys[0] := v], keys[1..], loads);
      var (out, err) := ParseArrays(row, keys, loads);
      assert (out, err) == ParseArrays(row[keys[0] := v], keys[1..], loads);
      forall c | c in row && c !in keys ensures out[c] == row[c] {
        assert c !in keys[1..] && c != keys[0];
      }
      if err.None? {
        forall k | k in keys ensures k in row && out[k].JList? && AllStr(out[k].items) {
          if k !in keys[1..] {
            assert k == keys[0];
          }
        }
      }
    }
  }

  // ----------------------------------------------------------------- chunk

  /** `chunk_size`: the total length of the sentences, without separators. */
  function SumLen(buf: seq<string>): nat {
    if |buf| == 0 then 0 else SumLen(buf[..|buf| - 1]) + |buf[|buf| - 1]|
  }

  /** The sentence loop of `chunk` from a state (buf, done): before sentence s
      the buffer is committed when SumLen(buf) + |s| + 1 >= max, then s joins
      the buffer; a non-empty buffer is committed at the end. */
  function GroupFrom(ss: seq<string>, max: int, buf: seq<string>, done: seq<seq<string>>): seq<seq<string>>
    decreases |ss|
  {
    if |ss| == 0 then (if |buf| > 0 then done + [buf] else done)
    else if SumLen(buf) + |ss[0]| + 1 >= max then GroupFrom(ss[1..], max, [ss[0]], done + [buf])
    else GroupFrom(ss[1..], max, buf + [ss[0]], done)
  }

  /** The sentences of each chunk. */
  function Groups(ss: seq<string>, max: int): seq<seq<string>> {
    GroupFrom(ss, max, [], [])
  }

  /** Each chunk is its sentences joined by a space. */
  function JoinEach(groups: seq<seq<string>>): (r: seq<string>)
    ensures |r| == |groups|
    ensures forall j :: 0 <= j < |groups| ==> r[j] == Join(groups[j], " ")
  {
    seq(|groups|, j requires 0 <= j < |groups| => Join(groups[j], " "))
  }

  /** No sentence after the first in a group would have closed it. */
  predicate Fits(g: seq<string>, max: int) {
    forall m :: 0 < m < |g| ==> SumLen(g[..m]) + |g[m]| + 1 < max
  }

  /** The chunking rules on a list of groups: only the first may be empty,
      every group fits, and each group but the last was closed by the first
      sentence of the next. */
  predicate Chunked(g: seq<seq<string>>, max: int) {
    (forall j :: 0 < j < |g| ==> g[j] != []) &&
    (forall j :: 0 <= j < |g| ==> Fits(g[j], max)) &&
    (forall j :: 0 <= j < |g| - 1 ==> SumLen(g[j]) + |g[j + 1][0]| + 1 >= max)
  }

  /** Committing the buffer before s keeps the rules. */
  lemma CommitKeeps(done: seq<seq<string>>, buf: seq<string>, s: string, max: int)
    requires Chunked(done + [buf], max) && SumLen(buf) + |s| + 1 >= max
    ensures Chunked(done + [buf] + [[s]], max)
  {
    var g := done + [buf] + [[s]];
    var h := done + [buf];
    assert forall j :: 0 <= j < |h| ==> g[j] == h[j];
    assert Fits([s], max);
  }

  /** Adding s to a buffer it fits in keeps the rules. */
  lemma AppendKeeps(done: seq<seq<string>>, buf: seq<string>, s: string, max: int)
    requires Chunked(done + [buf], max) && SumLen(buf) + |s| + 1 < max
    ensures Chunked(done + [buf + [s]], max)
  {
    var g := done + [buf + [s]];
    var h := done + [buf];
    assert forall j :: 0 <= j < |done| ==> g[j] == h[j];
    var b := buf + [s];
    assert h[|done|] == buf;
    forall m | 0 < m < |b| ensures SumLen(b[..m]) + |b[m]| + 1 < max {
      if m < |buf| {
        assert b[..m] == buf[..m] && b[m] == buf[m];
      } else {
        assert b[..m] == buf;
      }
    }
    if |done| > 0 {
      assert g[|done|][0] == h[|done|][0];
    }
  }

  /** The loop keeps the rules on the committed groups plus the buffer. */
  lemma {:induction false} GroupFromChunked(ss: seq<string>, max: int, buf: seq<string>, done: seq<seq<string>>)
    requires Chunked(done + [buf], max)
    ensures Chunked(GroupFrom(ss, max, buf, done), max)
    decreases |ss|
  {
    if |ss| == 0 {
      var h := done + [buf];
      assert forall j :: 0 <= j < |done| ==> h[j] == done[j];
      assert |buf| == 0 ==> |done| == 0 by {
        if |done| > 0 { assert h[|done|] == buf; }
      }
    } else if SumLen(buf) + |ss[0]| + 1 >= max {
      CommitKeeps(done, buf, ss[0], max);
      GroupFromChunked(ss[1..], max, [ss[0]], done + [buf]);
    } else {
      AppendKeeps(done, buf, ss[0], max);
      GroupFromChunked(ss[1..], max, buf + [ss[0]], done);
    }
  }

  /** The groups the loop ends with extend the committed ones, start the next
      one with the buffer, and give back every sentence, in order. */
  lemma {:induction false} GroupFromFlatten(ss: seq<string>, max: int, buf: seq<string>, done: seq<seq<string>>)
    ensures var g := GroupFrom(ss, max, buf, done);
      Flatten(g) == Flatten(done) + buf + ss &&
      |g| >= |done| && g[..|done|] == done &&
      (buf != [] ==> |g| > |done| && IsPrefix(buf, g[|done|]))
    decreases |ss|
  {
    if |ss| == 0 {
      FlattenAppend(done, [buf]);
      assert Flatten([buf]) == buf + Flatten([buf][1..]);
      if |buf| > 0 {
        assert (done + [buf])[..|done|] == done;
      }
    } else if SumLen(buf) + |ss[0]| + 1 >= max {
      var done1 := done + [buf];
      GroupFromFlatten(ss[1..], max, [ss[0]], done1);
      var g := GroupFrom(ss[1..], max, [ss[0]], done1);
      FlattenAppend(done, [buf]);
      assert Flatten([buf]) == buf + Flatten([buf][1..]);
      assert Flatten(done1) + [ss[0]] + ss[1..] == Flatten(done) + buf + ss;
      assert g[..|done|] == g[..|done1|][..|done|];
      assert g[|done|] == g[..|done1|][|done|] == buf;
    } else {
      GroupFromFlatten(ss[1..], max, buf + [ss[0]], done);
      assert Flatten(done) + (buf + [ss[0]]) + ss[1..] == Flatten(done) + buf + ss;
    }
  }

  /** The chunking rules of `chunk`: the sentences come back in order, each in
      exactly one chunk; only the first chunk can be empty, and it is empty
      exactly when the first sentence alone reaches the bound; a chunk is
      closed just before the sentence that would make it reach the bound, and
      never earlier. */
  lemma ChunkRules(ss: seq<string>, max: int)
    ensures var g := Groups(ss, max);
      Flatten(g) == ss && (ss == [] <==> g == []) && Chunked(g, max) &&
      (ss != [] ==> (g[0] == [] <==> |ss[0]| + 1 >= max))
  {
    var g := Groups(ss, max);
    GroupFromFlatten(ss, max, [], []);
    assert Chunked([[]], max);
    GroupFromChunked(ss, max, [], []);
    if ss != [] {
      ChunkFirstGroup(ss, max);
    }
    if g == [] {
      assert Flatten(g) == [];
    }
  }

  /** The first chunk is empty exactly when the first sentence alone
      reaches the bound. */
  lemma ChunkFirstGroup(ss: seq<string>, max: int)
    requires ss != []
    ensures var g := Groups(ss, max);
      |g| > 0 && (g[0] == [] <==> |ss[0]| + 1 >= max)
  {
    var g := Groups(ss, max);
    assert SumLen([]) == 0;
    var none: seq<seq<string>> := [];
    var empty: seq<string> := [];
    assert none + [empty] == [[]] && empty + [ss[0]] == [ss[0]];
    if |ss[0]| + 1 >= max {
      assert g == GroupFrom(ss[1..], max, [ss[0]], [[]]);
      GroupFromFlatten(ss[1..], max, [ss[0]], [[]]);
      assert g[0] == g[..1][0];
    } else {
      assert g == GroupFrom(ss[1..], max, [ss[0]], []);
      GroupFromFlatten(ss[1..], max, [ss[0]], []);
    }
  }

  /** One row of `chunk`: the target cell must be present and a string;
      `tokenize` is nltk.sent_tokenize. */
  function ChunkRow(row: Row, col: string, max: int, tokenize: string -> seq<string>): (Row, Option<PyError>)
  {
    if col !in row then (row, Some(KeyError(col)))
    else if !row[col].JStr? then (row, Some(TypeError("expected string or bytes-like object")))
    else (row[col := JList(Strs(JoinEach(Groups(tokenize(row[col].s), max))))], None)
  }

  function ChunkStep(col: string, max: int, tokenize: string -> seq<string>): RowStep {
    row => ChunkRow(row, col, max, tokenize)
  }

  /** A list of Python strings. */
  function Strs(xs: seq<string>): (r: seq<Json>)
    ensures |r| == |xs| && AllStr(r)
    ensures forall i :: 0 <= i < |xs| ==> r[i] == JStr(xs[i])
  {
    seq(|xs|, i requires 0 <= i < |xs| => JStr(xs[i]))
  }

  // --------------------------------------------------------- explode_array

  /** One row copied once per element of its list cell. */
  function Spread(row: Row, col: string, items: seq<Json>): (r: seq<Row>)
    ensures |r| == |items|
    ensures forall j :: 0 <= j < |items| ==> r[j] == row[col := items[j]]
  {
    seq(|items|, j requires 0 <= j < |items| => row[col := items[j]])
  }

  /** `explode_array`: a new list with one row per list element, in order; a
      missing cell raises KeyError and a non-list cell fails the assertion. */
  function Exploded(rows: seq<Row>, col: string): Result<seq<Row>, PyError>
    decreases |rows|
  {
    if |rows| == 0 then Ok([])
    else if col !in rows[0] then Err(KeyError(col))
    else if !rows[0][col].JList? then Err(AssertionError(""))
    else match Exploded(rows[1..], col)
      case Err(e) => Err(e)
      case Ok(rest) => Ok(Spread(rows[0], col, rows[0][col].items) + rest)
  }

  /** The length of the list in a row's cell. */
  function ListLen(row: Row, col: string): nat {
    if col in row && row[col].JList? then |row[col].items| else 0
  }

  function TotalLen(rows: seq<Row>, col: string): nat
    decreases |rows|
  {
    if |rows| == 0 then 0 else ListLen(rows[0], col) + TotalLen(rows[1..], col)
  }

  predicate ListCell(row: Row, col: string) {
    col in row && row[col].JList?
  }

  /** Exploding succeeds exactly when every row holds a list in the column, and
      then yields as many rows as the lists have elements (rows with an empty
      list disappear). */
  lemma {:induction false} ExplodedCount(rows: seq<Row>, col: string)
    ensures Exploded(rows, col).Ok? <==> forall i :: 0 <= i < |rows| ==> ListCell(rows[i], col)
    ensures Exploded(rows, col).Ok? ==> |Exploded(rows, col).value| == TotalLen(rows, col)
    decreases |rows|
  {
    if |rows| > 0 {
      ExplodedCount(rows[1..], col);
      assert forall i :: 1 <= i < |rows| ==> rows[i] == rows[1..][i - 1];
    }
  }

  /** A row with a list cell, ahead of rows that explode, explodes into its
      copies followed by theirs. */
  lemma ExplodedCons(rows: seq<Row>, col: string)
    requires |rows| > 0 && ListCell(rows[0], col) && Exploded(rows[1..], col).Ok?
    ensures Exploded(rows, col) == Ok(Spread(rows[0], col, rows[0][col].items) + Exploded(rows[1..], col).value)
  {
  }

  /** Rows that explode start with a list cell and their tail explodes too. */
  lemma ExplodedHead(rows: seq<Row>, col: string)
    requires |rows| > 0 && Exploded(rows, col).Ok?
    ensures ListCell(rows[0], col) && Exploded(rows[1..], col).Ok?
  {
  }

  /** Exploding is done row by row, in order: the rows of a + b explode into
      those of a followed by those of b. */
  lemma {:induction false} ExplodedAppend(a: seq<Row>, b: seq<Row>, col: string)
    requires Exploded(a, col).Ok? && Exploded(b, col).Ok?
    ensures Exploded(a + b, col) == Ok(Exploded(a, col).value + Exploded(b, col).value)
    decreases |a|
  {
    if |a| > 0 {
      var ab := a + b;
      assert ab[0] == a[0] && ab[1..] == a[1..] + b;
      ExplodedHead(a, col);
      ExplodedAppend(a[1..], b, col);
      ExplodedCons(a, col);
      ExplodedCons(ab, col);
      var sp := Spread(a[0], col, a[0][col].items);
      var x, y := Exploded(a[1..], col).value, Exploded(b, col).value;
      assert sp + (x + y) == (sp + x) + y;
    } else {
      var y := Exploded(b, col).value;
      assert a + b == b;
      assert Exploded(a, col) == Ok([]);
      assert [] + y == y;
    }
  }

  // --------------------------------------------- add_sequence_number, add_column

  /** `add_sequence_number`: row i gets __SEQ__ = i. */
  function Numbered(rows: seq<Row>): seq<Row> {
    seq(|rows|, i requires 0 <= i < |rows| => rows[i][SeqColName := JInt(i)])
  }

  /** `add_column`: every row gets the handler's value for it in `name`. */
  function WithColumn(rows: seq<Row>, name: string, handler: Row -> Json): seq<Row> {
    seq(|rows|, i requires 0 <= i < |rows| => rows[i][name := handler(rows[i])])
  }

  /** Row i of a numbered table carries i, and nothing else changes. */
  lemma NumberedRows(rows: seq<Row>)
    ensures |Numbered(rows)| == |rows|
    ensures forall i :: 0 <= i < |rows| ==> Numbered(rows)[i][SeqColName] == JInt(i)
    ensures forall i :: 0 <= i < |rows| ==> Numbered(rows)[i].Keys == rows[i].Keys + {SeqColName}
    ensures forall i, c :: 0 <= i < |rows| && c in rows[i] && c != SeqColName ==> Numbered(rows)[i][c] == rows[i][c]
  {
  }

  /** `add_column` writes only its own column. */
  lemma WithColumnRows(rows: seq<Row>, name: string, handler: Row -> Json)
    ensures |WithColumn(rows, name, handler)| == |rows|
    ensures forall i :: 0 <= i < |rows| ==> WithColumn(rows, name, handler)[i][name] == handler(rows[i])
    ensures forall i :: 0 <= i < |rows| ==> WithColumn(rows, name, handler)[i].Keys == rows[i].Keys + {name}
    ensures forall i, c :: 0 <= i < |rows| && c in rows[i] && c != name ==> WithColumn(rows, name, handler)[i][c] == rows[i][c]
  {
  }

  // ------------------------------------------------------- collection_form

  /** The data keys: the columns of the first row other than __SEQ__. */
  function DataKeys(rows: seq<Row>): set<string> {
    if |rows| == 0 then {} else rows[0].Keys - {SeqColName}
  }

  /** The inner loop of `collection_form` on one row: each data key, in set
      order, moves from the row into `tmp`; a missing key raises KeyError. */
  function Gathered(row: Row, order: seq<string>, tmp: seq<(string, Json)>): (Row, seq<(string, Json)>, Option<PyError>)
    decreases |order|
  {
    if |order| == 0 then (row, tmp, None)
    else if order[0] !in row then (row, tmp, Some(KeyError(order[0])))
    else Gathered(row - {order[0]}, order[1..], tmp + [(order[0], row[order[0]])])
  }

  /** One row of `collection_form`: gather the data keys, re-read __SEQ__
      (KeyError when absent), and store `dumps(tmp)` under "json".
      `dumps` is json.dumps of the dict built in that order. */
  function Collect(row: Row, order: seq<string>, dumps: seq<(string, Json)> -> string): (Row, Option<PyError>)
  {
    var (rest, tmp, err) := Gathered(row, order, []);
    if err.Some? then (rest, err)
    else if SeqColName !in rest then (rest, Some(KeyError(SeqColName)))
    else (rest[JsonColName := JStr(dumps(tmp))], None)
  }

  function CollectStep(order: seq<string>, dumps: seq<(string, Json)> -> string): RowStep {
    row => Collect(row, order, dumps)
  }

  /** `collection_form` with the data keys iterated in `order`. */
  function CollectionFormed(rows: seq<Row>, order: seq<string>, dumps: seq<(string, Json)> -> string): (seq<Row>, Option<PyError>)
  {
    if |rows| == 0 then (rows, Some(IndexError("list index out of range")))
    else if |DataKeys(rows)| > 1 then ApplyFrom(rows, 0, CollectStep(order, dumps))
    else if |DataKeys(rows)| == 1 then (rows, None)
    else (rows, Some(RuntimeError("No data keys found")))
  }

  /** The (key, value) pairs of a row in a given key order. */
  function Pairs(row: Row, order: seq<string>): seq<(string, Json)>
    requires forall a :: 0 <= a < |order| ==> order[a] in row
  {
    seq(|order|, a requires 0 <= a < |order| && order[a] in row => (order[a], row[order[a]]))
  }

  lemma {:induction false} GatheredSpec(row: Row, order: seq<string>, tmp: seq<(string, Json)>)
    requires NoDups(order)
    requires forall a :: 0 <= a < |order| ==> order[a] in row
    ensures var (rest, tmp', err) := Gathered(row, order, tmp);
      err.None? && tmp' == tmp + Pairs(row, order) &&
      rest == row - Members(order)
    decreases |order|
  {
    if |order| > 0 {
      var k := order[0];
      var row1 := row - {k};
      assert forall a :: 1 <= a < |order| ==> order[a] != k;
      GatheredSpec(row1, order[1..], tmp + [(k, row[k])]);
      assert Pairs(row, order) == [(k, row[k])] + Pairs(row1, order[1..]);
      assert Members(order) == {k} + Members(order[1..]) by {
        forall c | c in Members(order)
          ensures c in {k} + Members(order[1..])
        {
          var a :| 0 <= a < |order| && order[a] == c;
          if a > 0 { assert order[1..][a - 1] == c; }
        }
      }
    }
  }

  /** On a row that holds exactly the data keys and __SEQ__ (with "json" not
      among them being irrelevant), `collection_form` leaves just __SEQ__ and
      the "json" string of the data pairs in iteration order. */
  lemma CollectReduces(row: Row, order: seq<string>, dumps: seq<(string, Json)> -> string)
    requires NoDups(order)
    requires row.Keys == Members(order) + {SeqColName}
    requires SeqColName !in order
    ensures forall a :: 0 <= a < |order| ==> order[a] in row
    ensures var (out, err) := Collect(row, order, dumps);
      err.None? && out.Keys == {SeqColName, JsonColName} &&
      out[JsonColName] == JStr(dumps(Pairs(row, order))) &&
      (SeqColName != JsonColName ==> out[SeqColName] == row[SeqColName])
  {
    assert forall a :: 0 <= a < |order| ==> order[a] in row;
    GatheredSpec(row, order, []);
    assert [] + Pairs(row, order) == Pairs(row, order);
    var keys := Members(order);
    assert SeqColName !in keys;
    var rest := row - keys;
    assert rest.Keys == {SeqColName};
  }

  /** `collection_form` on a table whose rows all hold exactly the first row's
      columns: with more than one data key each row is reduced to __SEQ__ and
      the "json" string; with one data key nothing changes; with none, or with
      no rows at all, it raises. */
  lemma CollectionFormShape(rows: seq<Row>, order: seq<string>, dumps: seq<(string, Json)> -> string)
    requires Enumerates(order, DataKeys(rows))
    requires forall i :: 0 <= i < |rows| ==> rows[i].Keys == DataKeys(rows) + {SeqColName}
    ensures var (out, err) := CollectionFormed(rows, order, dumps);
      (|rows| == 0 ==> err == Some(IndexError("list index out of range"))) &&
      (|rows| > 0 && |DataKeys(rows)| == 0 ==> err == Some(RuntimeError("No data keys found"))) &&
      (|rows| > 0 && |DataKeys(rows)| == 1 ==> err.None? && out == rows) &&
      (|rows| > 0 && |DataKeys(rows)| > 1 ==>
        err.None? && |out| == |rows| &&
        forall i :: 0 <= i < |rows| ==>
          out[i].Keys == {SeqColName, JsonColName} &&
          out[i][SeqColName] == rows[i][SeqColName] &&
          out[i][JsonColName] == JStr(dumps(Pairs(rows[i], order))))
  {
    if |rows| > 0 && |DataKeys(rows)| > 1 {
      var step := CollectStep(order, dumps);
      assert forall a :: 0 <= a < |order| ==> order[a] in DataKeys(rows);
      assert SeqColName !in order;
      forall i | 0 <= i < |rows|
        ensures forall a :: 0 <= a < |order| ==> order[a] in rows[i]
        ensures step(rows[i]).1.None?
      {
        CollectReduces(rows[i], order, dumps);
      }
      ApplyFromSpec(rows, 0, step);
      forall i | 0 <= i < |rows|
        ensures ApplyFrom(rows, 0, step).0[i] == Collect(rows[i], order, dumps).0
      {
      }
      forall i | 0 <= i < |rows|
        ensures ApplyFrom(rows, 0, step).0[i][SeqColName] == rows[i][SeqColName]
        ensures ApplyFrom(rows, 0, step).0[i][JsonColName] == JStr(dumps(Pairs(rows[i], order)))
        ensures ApplyFrom(rows, 0, step).0[i].Keys == {SeqColName, JsonColName}
      {
        CollectReduces(rows[i], order, dumps);
      }
    }
  }

  // ----------------------------------------------------- table-level rules

  /** `transform_field` on a table: with a separate mapping whose keys every
      row holds, it succeeds and renames every row; if some row lacks a key it
      raises KeyError. */
  lemma TransformFieldRows(rows: seq<Row>, mapping: seq<(string, string)>)
    requires Separate(mapping)
    ensures var (out, err) := ApplyFrom(rows, 0, RenameStep(mapping));
      |out| == |rows| &&
      ((forall i, a :: 0 <= i < |rows| && 0 <= a < |mapping| ==> mapping[a].0 in rows[i]) ==>
        err.None? && forall i :: 0 <= i < |rows| ==> out[i] == Rename(rows[i], mapping).0) &&
      ((exists i, a :: 0 <= i < |rows| && 0 <= a < |mapping| && mapping[a].0 !in rows[i] && mapping[a].0 !in Targets(mapping)) ==>
        err.Some? && err.value.KeyError?)
  {
    ApplyFromSpec(rows, 0, RenameStep(mapping));
    if forall i, a :: 0 <= i < |rows| && 0 <= a < |mapping| ==> mapping[a].0 in rows[i] {
      TransformFieldRowsOk(rows, mapping);
    }
    if exists i, a :: 0 <= i < |rows| && 0 <= a < |mapping| && mapping[a].0 !in rows[i] && mapping[a].0 !in Targets(mapping) {
      var i, a :| 0 <= i < |rows| && 0 <= a < |mapping| && mapping[a].0 !in rows[i] && mapping[a].0 !in Targets(mapping);
      TransformFieldRowsErr(rows, mapping, i, a);
    }
  }

  /** Every row holding every key: every row renamed, no error. */
  lemma TransformFieldRowsOk(rows: seq<Row>, mapping: seq<(string, string)>)
    requires Separate(mapping)
    requires forall i, a :: 0 <= i < |rows| && 0 <= a < |mapping| ==> mapping[a].0 in rows[i]
    ensures var (out, err) := ApplyFrom(rows, 0, RenameStep(mapping));
      |out| == |rows| && err.None? && forall i :: 0 <= i < |rows| ==> out[i] == Rename(rows[i], mapping).0
  {
    var step := RenameStep(mapping);
    ApplyFromSpec(rows, 0, step);
    forall i | 0 <= i < |rows| ensures step(rows[i]).1.None? {
      RenameMoves(rows[i], mapping);
    }
  }

  /** A row missing a key no pair writes: the table raises KeyError. */
  lemma TransformFieldRowsErr(rows: seq<Row>, mapping: seq<(string, string)>, i: int, a: int)
    requires 0 <= i < |rows| && 0 <= a < |mapping| && mapping[a].0 !in rows[i] && mapping[a].0 !in Targets(mapping)
    ensures var (out, err) := ApplyFrom(rows, 0, RenameStep(mapping));
      err.Some? && err.value.KeyError?
  {
    var step := RenameStep(mapping);
    ApplyFromSpec(rows, 0, step);
    RenameMissing(rows[i], mapping, a);
    var (out, err) := ApplyFrom(rows, 0, step);
    assert step(rows[i]).1.Some?;
    var k :| 0 <= k < |rows| && StoppedAt(rows, out, err.value, step, 0, k);
    RenameErrors(rows[k], mapping);
  }

  /** A key that is missing and that no pair writes makes the row fail. */
  lemma {:induction false} RenameMissing(row: Row, mapping: seq<(string, string)>, a: nat)
    requires a < |mapping| && mapping[a].0 !in row && mapping[a].0 !in Targets(mapping)
    ensures Rename(row, mapping).1.Some?
    decreases |mapping|
  {
    if mapping[0].0 in row {
      assert a > 0;
      var rest := mapping[1..];
      assert rest[a - 1] == mapping[a];
      assert mapping[a].0 != mapping[0].1 by { assert mapping[0].1 in Targets(mapping); }
      assert Targets(rest) <= Targets(mapping) by {
        forall c | c in Targets(rest) ensures c in Targets(mapping) {
          var b :| 0 <= b < |rest| && rest[b].1 == c;
          assert mapping[b + 1].1 == c;
        }
      }
      RenameMissing((row - {mapping[0].0})[mapping[0].1 := row[mapping[0].0]], rest, a - 1);
    }
  }

  /** The only exception a row of `transform_field` raises is KeyError. */
  lemma {:induction false} RenameErrors(row: Row, mapping: seq<(string, string)>)
    ensures Rename(row, mapping).1.Some? ==> Rename(row, mapping).1.value.KeyError?
    decreases |mapping|
  {
    if |mapping| > 0 && mapping[0].0 in row {
      RenameErrors((row - {mapping[0].0})[mapping[0].1 := row[mapping[0].0]], mapping[1..]);
    }
  }

  /** `chunk` on a table whose target cells are all strings: every row's cell
      becomes the list of its chunks, and no other column changes. */
  lemma ChunkTable(rows: seq<Row>, col: string, max: int, tokenize: string -> seq<string>)
    requires forall i :: 0 <= i < |rows| ==> col in rows[i] && rows[i][col].JStr?
    ensures var (out, err) := ApplyFrom(rows, 0, ChunkStep(col, max, tokenize));
      err.None? && |out| == |rows| &&
      forall i :: 0 <= i < |rows| ==>
        out[i].Keys == rows[i].Keys &&
        out[i][col] == JList(Strs(JoinEach(Groups(tokenize(rows[i][col].s), max)))) &&
        forall c :: c in rows[i] && c != col ==> out[i][c] == rows[i][c]
  {
    ApplyFromSpec(rows, 0, ChunkStep(col, max, tokenize));
  }
}
