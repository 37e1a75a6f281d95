/** The function_score compound strategy: wraps a built query's inner
    clause in a function_score with the configured functions. */
module FunctionScore {
  import opened Common
  import opened GoValue

  /** `FunctionScoreCompoundStrategy.CreateCompoundQuery`. The functions
      check comes before the query-shape check; the input map is only read. */
  function CreateCompoundQuery(query: map<string, Val>, functions: seq<Val>): (r: Result<Val, GoError>)
    ensures |functions| == 0 ==> r == Err(Error("no functions provided"))
    ensures |functions| > 0 && !("query" in query && query["query"].Obj?) ==> r == Err(Error("no query provided"))
    ensures r.Ok? <==> |functions| > 0 && "query" in query && query["query"].Obj?
    ensures r.Ok? ==> (At(r.value, ["query", "function_score"]) ==
      Some(Obj(map["query" := query["query"], "functions" := List(functions)])))
  {
    if |functions| == 0 then Err(Error("no functions provided"))
    else if !("query" in query && query["query"].Obj?) then Err(Error("no query provided"))
    else
      var fs := Obj(map["query" := query["query"], "functions" := List(functions)]);
      var q := Obj(map["function_score" := fs]);
      var r := Obj(map["query" := q]);
      AtStep(r, "query", ["function_score"]);
      AtStep(q, "function_score", []);
      assert ["query", "function_score"] == ["query"] + ["function_score"] && ["function_score"] == ["function_score"] + [];
      Ok(r)
  }
}
