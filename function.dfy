/** The conversation service's function dispatch: the functions a model may
    call, and the call of one of them by name with JSON-encoded arguments. */
module FunctionService {
  import opened Common
  import opened GoValue
  import CS = ConvSearch

  /** A `GPTFunction` as dispatch sees it: the name of its definition and
      what its `Call` answers for decoded arguments. */
  datatype GPTFunction = GPTFunction(name: string, call: (map<string, Val>, CS.ExtraArgs) -> Result<string, GoError>)

  /** `json.Unmarshal` of the argument text into a `map[string]interface{}`. */
  type ArgumentParser = string -> Result<map<string, Val>, GoError>

  const IndependentCallError := Error("this function should be called independently not as a part of a pipeline")

  const FunctionNotFound := Error("function not found")

  /** The position of the first function with the given name. */
  function FirstNamed(functions: seq<GPTFunction>, name: string): (r: Option<nat>)
    ensures r.Some? ==> (r.value < |functions| && functions[r.value].name == name &&
      forall j :: 0 <= j < r.value ==> functions[j].name != name)
    ensures r.None? <==> forall j :: 0 <= j < |functions| ==> functions[j].name != name
  {
    if |functions| == 0 then None
    else if functions[0].name == name then Some(0)
    else match FirstNamed(functions[1..], name)
      case None => None
      case Some(i) => Some(i + 1)
  }

  /** `CallFunction`: the first function named `name` is called with the
      parsed arguments; the arguments are parsed only once one is found. */
  function CallFunction(name: string, arguments: string, functions: seq<GPTFunction>,
                        parse: ArgumentParser, extra: CS.ExtraArgs): Result<string, GoError>
  {
    match FirstNamed(functions, name)
    case None => Err(FunctionNotFound)
    case Some(i) =>
      match parse(arguments)
      case Err(e) => Err(e)
      case Ok(args) => functions[i].call(args, extra)
  }

  /** The outcomes of a call: "function not found" exactly when no function
      has the name (whatever the arguments), the parse error when the
      arguments do not parse, and otherwise the answer of the first function
      with the name. */
  lemma CallFunctionOutcomes(name: string, arguments: string, functions: seq<GPTFunction>,
                             parse: ArgumentParser, extra: CS.ExtraArgs)
    ensures (forall j :: 0 <= j < |functions| ==> functions[j].name != name) ==>
      CallFunction(name, arguments, functions, parse, extra) == Err(FunctionNotFound)
    ensures (exists j :: 0 <= j < |functions| && functions[j].name == name) && parse(arguments).Err? ==>
      CallFunction(name, arguments, functions, parse, extra) == Err(parse(arguments).error)
    ensures forall i :: (0 <= i < |functions| && functions[i].name == name &&
      (forall j :: 0 <= j < i ==> functions[j].name != name) && parse(arguments).Ok?) ==>
        CallFunction(name, arguments, functions, parse, extra) == functions[i].call(parse(arguments).value, extra)
  {
    forall i | 0 <= i < |functions| && functions[i].name == name &&
      (forall j :: 0 <= j < i ==> functions[j].name != name) && parse(arguments).Ok?
      ensures CallFunction(name, arguments, functions, parse, extra) == functions[i].call(parse(arguments).value, extra)
    {
      var k := FirstNamed(functions, name);
      assert k.Some?;
      assert k.value == i;
    }
  }

  /** A function listed later under the same name is never reached. */
  lemma ShadowedFunction(name: string, arguments: string, functions: seq<GPTFunction>, f: GPTFunction,
                         parse: ArgumentParser, extra: CS.ExtraArgs)
    requires exists j :: 0 <= j < |functions| && functions[j].name == name
    ensures CallFunction(name, arguments, functions + [f], parse, extra) ==
      CallFunction(name, arguments, functions, parse, extra)
  {
    var k := FirstNamed(functions, name);
    var g := functions + [f];
    var kg := FirstNamed(g, name);
    assert k.Some?;
    assert g[k.value].name == name;
    assert kg.Some?;
    assert kg.value == k.value;
  }

  /** The plugins that only answer within a pipeline. */
  function Independent(name: string): GPTFunction
  {
    GPTFunction(name, (args: map<string, Val>, extra: CS.ExtraArgs) => Err(IndependentCallError))
  }

  /** `ListFunctions`: the search plugin, created with the current time its
      environment carries, then translate, summarize and spelling
      correction. */
  function ListFunctions(env: CS.SearchEnv): (r: seq<GPTFunction>)
    ensures |r| == 4
    ensures r[0].name == "search" && r[1].name == "translate" &&
      r[2].name == "summarize" && r[3].name == "spelling_correction"
  {
    [GPTFunction("search", (args: map<string, Val>, extra: CS.ExtraArgs) => CS.SearchCall(env, args, extra)),
     Independent("translate"),
     Independent("summarize"),
     Independent("spelling_correction")]
  }

  /** Through the listed functions, "search" runs the search plugin and the
      other three always answer the independent-call error once their
      arguments parse; any other name is not found. */
  lemma ListedDispatch(env: CS.SearchEnv, name: string, arguments: string,
                       parse: ArgumentParser, extra: CS.ExtraArgs)
    ensures var r := CallFunction(name, arguments, ListFunctions(env), parse, extra);
      (name == "search" && parse(arguments).Ok? ==> r == CS.SearchCall(env, parse(arguments).value, extra)) &&
      (name in {"translate", "summarize", "spelling_correction"} && parse(arguments).Ok? ==>
        r == Err(IndependentCallError)) &&
      (name in {"search", "translate", "summarize", "spelling_correction"} && parse(arguments).Err? ==>
        r == Err(parse(arguments).error)) &&
      (name !in {"search", "translate", "summarize", "spelling_correction"} <==>
        FirstNamed(ListFunctions(env), name).None?) &&
      (name !in {"search", "translate", "summarize", "spelling_correction"} ==> r == Err(FunctionNotFound))
  {
    var fs := ListFunctions(env);
    CallFunctionOutcomes(name, arguments, fs, parse, extra);
    if name == "search" {
      assert FirstNamed(fs, name) == Some(0);
    } else if name == "translate" {
      assert FirstNamed(fs, name) == Some(1);
    } else if name == "summarize" {
      assert FirstNamed(fs, name) == Some(2);
    } else if name == "spelling_correction" {
      assert FirstNamed(fs, name) == Some(3);
    } else {
      assert forall j :: 0 <= j < |fs| ==> fs[j].name != name;
    }
  }
}
