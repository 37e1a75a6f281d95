/** The v2 GPT client and its request builders: the checks of
    `NewGPTCompitable`, and `CreateRequest` / `CreateRequestSolar`, which
    validate the call, map the messages, quote the function-call and
    tool-choice values (writing the quoted value back into the
    option), and set the authentication headers. */
module GptRequest {
  import opened Common
  import opened GoValue
  import opened ChatV2
  import opened GptModel
  import LC = LlmClient

  const ClientRequired := Error("client is required")
  const ApiKeyRequired := Error("ApiKey is required for openai.com endpoint")
  const ModelsRequired := Error("at least one model is required")
  const MessagesRequired := Error("messages is required")
  const ModelRequired := Error("model is required")

  /** `NewGPTCompitable`: the options built from the setters, refused
      without an HTTP client, for an openai.com endpoint without a key, and
      without any model, in that order. */
  function NewGPTCompitable(hasClient: bool, llmModel: string, opts: seq<LC.Setter>): (r: Result<LC.GptOptions, GoError>)
    ensures !hasClient ==> r == Err(ClientRequired)
    ensures (hasClient && Contains(LC.NewGptOptions(llmModel, opts).endpoint, "openai.com") &&
      LC.NewGptOptions(llmModel, opts).apiKey == "") ==> r == Err(ApiKeyRequired)
    ensures r.Ok? <==> (hasClient && !(Contains(LC.NewGptOptions(llmModel, opts).endpoint, "openai.com") &&
      LC.NewGptOptions(llmModel, opts).apiKey == "") && |LC.NewGptOptions(llmModel, opts).models| > 0)
    ensures r.Ok? ==> r.value == LC.NewGptOptions(llmModel, opts)
  {
    var options := LC.NewGptOptions(llmModel, opts);
    if !hasClient then Err(ClientRequired)
    else if Contains(options.endpoint, "openai.com") && options.apiKey == "" then Err(ApiKeyRequired)
    else if |options.models| == 0 then Err(ModelsRequired)
    else Ok(options)
  }

  /** The OpenAI endpoint is an openai.com endpoint: left at that default,
      a client without a key is refused. */
  lemma OpenAIEndpointNeedsKey(hasClient: bool, llmModel: string, opts: seq<LC.Setter>)
    requires hasClient
    requires LC.NewGptOptions(llmModel, opts).endpoint == LC.OpenAIEndpoint
    requires LC.NewGptOptions(llmModel, opts).apiKey == ""
    ensures NewGPTCompitable(hasClient, llmModel, opts) == Err(ApiKeyRequired)
  {
    OpenAIEndpointIsOpenAI();
  }

  lemma OpenAIEndpointIsOpenAI()
    ensures Contains(LC.OpenAIEndpoint, "openai.com")
  {
    var tail := LC.OpenAIEndpoint[12..];
    assert tail == "openai.com/v1/chat/completions";
    assert "openai.com" <= tail;
  }

  /** A `*string` option: the builders write the quoted value back through
      it. */
  class StringRef {
    var value: string

    constructor(value: string)
      ensures this.value == value
    {
      this.value := value;
    }
  }

  /** `GptPredictionOptions`: the fields the builders look at. A nil list or
      option is `None` / `null`. */
  datatype PredictionOptions = PredictionOptions(model: string, functions: Option<seq<string>>,
                                                 functionCall: StringRef?, tools: Option<seq<string>>,
                                                 toolChoice: StringRef?, responseFormat: Option<string>,
                                                 stream: bool)

  /** The string a `*string` option points to. */
  function Deref(p: StringRef?): Option<string>
    reads p
  {
    if p == null then None else Some(p.value)
  }

  /** `ChatCompletion`: the body sent. */
  datatype Query = Query(model: string, messages: seq<CompletionMessage>, functions: Option<seq<string>>,
                         functionCall: Option<string>, tools: Option<seq<string>>, toolChoice: Option<string>,
                         responseFormat: Option<string>, stream: bool)

  /** A raw JSON value must be a string or an object: a value that does not
      start with "{" is put in double quotes. */
  function Quoted(s: string): string
  {
    if StartsWith(s, "{") then s else "\"" + s + "\""
  }

  /** Quoting leaves an object alone and makes anything else a quoted
      string, one that does not start with "{"; quoting it again quotes it
      again, so a request built twice from the same options sends
      a different value the second time. */
  lemma QuotingNotIdempotent(s: string)
    ensures StartsWith(s, "{") ==> Quoted(Quoted(s)) == Quoted(s)
    ensures !StartsWith(s, "{") ==> (|Quoted(s)| == |s| + 2 && Quoted(s)[0] == '"' && Quoted(s)[|s| + 1] == '"' &&
      Quoted(s)[1..|s| + 1] == s && |Quoted(Quoted(s))| == |s| + 4)
  {
    if !StartsWith(s, "{") {
      var q := "\"" + s + "\"";
      assert q[0] == '"';
      assert !StartsWith(q, "{");
    }
  }

  /** `ChatCompletionFunctionCallResp` of a `ChatFunction`. */
  function CallOf(f: ChatFunction): FunctionCallResp
  {
    FunctionCallResp(f.name, f.arguments)
  }

  /** A chat tool as a tool call of the request (its index left at 0). */
  function ToolOf(t: ChatTool): ToolResp
  {
    ToolResp(0, t.id, t.typ, if t.fn.Some? then Some(CallOf(t.fn.value)) else None)
  }

  /** The tool calls of a payload, one per tool, in order. */
  function ToolsOf(ts: seq<ChatTool>): (r: seq<ToolResp>)
    ensures |r| == |ts| && forall i :: 0 <= i < |ts| ==> r[i] == ToolOf(ts[i])
  {
    seq(|ts|, i requires 0 <= i < |ts| => ToolOf(ts[i]))
  }

  /** A payload as a request message: role and content, the name (empty
      when nil), function call, tool calls and tool-call id. */
  function MessageOf(p: ChatPayload): CompletionMessage
  {
    CompletionMessage(p.role, p.content, if p.name.Some? then p.name.value else "",
                      if p.functionCall.Some? then Some(CallOf(p.functionCall.value)) else None,
                      if p.toolCalls.Some? then Some(ToolsOf(p.toolCalls.value)) else None,
                      p.toolCallId)
  }

  /** The messages of the request, one per payload, in order. */
  function MessagesOf(ps: seq<ChatPayload>): (r: seq<CompletionMessage>)
    ensures |r| == |ps| && forall i :: 0 <= i < |ps| ==> r[i] == MessageOf(ps[i])
  {
    if |ps| == 0 then [] else [MessageOf(ps[0])] + MessagesOf(ps[1..])
  }

  /** What the mapping keeps: everything a request message can carry,
      with a nil name sent as the empty name. */
  lemma MessageMappingKeeps(p: ChatPayload)
    ensures var m := MessageOf(p);
      m.role == p.role && m.content == p.content && m.toolCallId == p.toolCallId &&
      (p.name.Some? ==> m.name == p.name.value) && (p.name.None? ==> m.name == "") &&
      (m.functionCall.Some? <==> p.functionCall.Some?) &&
      (p.functionCall.Some? ==> (m.functionCall.value.name == p.functionCall.value.name &&
        m.functionCall.value.arguments == p.functionCall.value.arguments)) &&
      (m.toolCalls.Some? <==> p.toolCalls.Some?) &&
      (p.toolCalls.Some? ==> (|m.toolCalls.value| == |p.toolCalls.value| &&
        forall i :: 0 <= i < |p.toolCalls.value| ==>
          m.toolCalls.value[i].id == p.toolCalls.value[i].id && m.toolCalls.value[i].typ == p.toolCalls.value[i].typ))
  {
  }

  /** A function definition sent as a tool. */
  function WrapTool(f: string): string
  {
    "{\"type\":\"function\",\"function\":" + f + "}"
  }

  /** The functions as tools, one per function, in order. */
  function WrapTools(fs: seq<string>): (r: seq<string>)
    ensures |r| == |fs| && forall i :: 0 <= i < |fs| ==> r[i] == WrapTool(fs[i])
  {
    seq(|fs|, i requires 0 <= i < |fs| => WrapTool(fs[i]))
  }

  /** The body of the request, from the option values before quoting. The
      OpenAI builder passes functions and tools through; the Solar builder
      sends every function as a tool, drops the caller's tools and sends no
      functions. */
  function QueryOf(solar: bool, messages: seq<ChatPayload>, model: string, functions: Option<seq<string>>,
                   functionCall: Option<string>, tools: Option<seq<string>>, toolChoice: Option<string>,
                   responseFormat: Option<string>, stream: bool): (r: Query)
    ensures r.model == model && r.messages == MessagesOf(messages) && r.responseFormat == responseFormat
    ensures !solar ==> r.functions == functions && r.tools == tools
    ensures solar ==> (r.functions.None? && (r.tools.Some? <==> functions.Some?) &&
      (functions.Some? ==> (|r.tools.value| == |functions.value| &&
        forall i :: 0 <= i < |functions.value| ==> r.tools.value[i] == WrapTool(functions.value[i]))))
    ensures (r.functionCall.Some? <==> functionCall.Some?) && (r.toolChoice.Some? <==> toolChoice.Some?)
    ensures functionCall.Some? ==> r.functionCall.value == Quoted(functionCall.value)
    ensures toolChoice.Some? ==> r.toolChoice.value == Quoted(toolChoice.value)
  {
    Query(model, MessagesOf(messages),
          if solar then None else functions,
          if functionCall.Some? then Some(Quoted(functionCall.value)) else None,
          if solar then (if functions.Some? then Some(WrapTools(functions.value)) else None) else tools,
          if toolChoice.Some? then Some(Quoted(toolChoice.value)) else None,
          responseFormat, stream)
  }

  /** The headers before forwarding: the key, when there is one, as
      `api-key` for an Azure client of the OpenAI builder and as a bearer
      token otherwise; and the JSON content type. */
  function BaseHeaders(solar: bool, apiType: string, apiKey: string): map<string, seq<string>>
  {
    var auth: map<string, seq<string>> :=
      if apiKey == "" then map[]
      else if !solar && apiType == LC.ApiTypeAzure then map[Canonical("api-key") := [apiKey]]
      else map[Canonical("Authorization") := ["Bearer " + apiKey]];
    auth[Canonical("Content-Type") := ["application/json"]]
  }

  /** Without a key no authentication header is sent; an Azure client of
      the OpenAI builder sends the key as `api-key`; every other client, and
      the Solar builder always, sends `Authorization: Bearer <key>`. Names
      are kept in their canonical form. */
  lemma AuthHeaderChoice(solar: bool, apiType: string, apiKey: string)
    ensures var h := BaseHeaders(solar, apiType, apiKey);
      var (apiKeyName, authName, typeName) := (Canonical("api-key"), Canonical("Authorization"), Canonical("Content-Type"));
      typeName in h && h[typeName] == ["application/json"] &&
      (apiKey == "" ==> authName !in h && apiKeyName !in h) &&
      (apiKey != "" && !solar && apiType == LC.ApiTypeAzure ==>
        apiKeyName in h && h[apiKeyName] == [apiKey] && authName !in h) &&
      (apiKey != "" && (solar || apiType != LC.ApiTypeAzure) ==>
        authName in h && h[authName] == ["Bearer " + apiKey] && apiKeyName !in h)
  {
    assert |Canonical("api-key")| == 7 && |Canonical("Authorization")| == 13 && |Canonical("Content-Type")| == 12;
  }

  /** A built request. */
  datatype Request = Request(url: string, body: string, query: Query, header: Header)

  /** The foreign calls the builders make: `fastjson.Validate`,
      `json.Marshal` and `http.NewRequestWithContext`. */
  datatype Codec = Codec(validate: string -> Option<GoError>, marshal: Query -> Result<string, GoError>,
                         newRequest: string -> Option<GoError>)

  /** The messages mapped in a loop, tool calls filled in by index. */
  method ConvertMessages(messages: seq<ChatPayload>) returns (r: seq<CompletionMessage>)
    ensures r == MessagesOf(messages)
  {
    r := [];
    var i := 0;
    while i < |messages|
      invariant 0 <= i <= |messages|
      invariant r == MessagesOf(messages[..i])
    {
      var c := messages[i];
      var msg := CompletionMessage(c.role, c.content, "", None, None, "");
      if c.name.Some? {
        msg := msg.(name := c.name.value);
      }
      if c.functionCall.Some? {
        msg := msg.(functionCall := Some(CallOf(c.functionCall.value)));
      }
      if c.toolCalls.Some? {
        var calls := new ToolResp[|c.toolCalls.value|];
        var j := 0;
        while j < calls.Length
          invariant 0 <= j <= calls.Length
          invariant forall k :: 0 <= k < j ==> calls[k] == ToolOf(c.toolCalls.value[k])
        {
          var t := c.toolCalls.value[j];
          calls[j] := ToolResp(0, t.id, t.typ, None);
          if t.fn.Some? {
            calls[j] := calls[j].(fn := Some(CallOf(t.fn.value)));
          }
          j := j + 1;
        }
        assert calls[..] == ToolsOf(c.toolCalls.value);
        msg := msg.(toolCalls := Some(calls[..]));
      }
      if c.toolCallId != "" {
        msg := msg.(toolCallId := c.toolCallId);
      }
      assert msg == MessageOf(c);
      assert messages[..i + 1] == messages[..i] + [c];
      MessagesOfSnoc(messages[..i], c);
      r := r + [msg];
      i := i + 1;
    }
    assert messages[..i] == messages;
  }

  lemma {:induction false} MessagesOfSnoc(ps: seq<ChatPayload>, p: ChatPayload)
    ensures MessagesOf(ps + [p]) == MessagesOf(ps) + [MessageOf(p)]
  {
  }

  /** The functions as tools, filled in by index. */
  method WrapFunctions(fs: seq<string>) returns (r: seq<string>)
    ensures r == WrapTools(fs)
  {
    var wrapped := new string[|fs|];
    var i := 0;
    while i < wrapped.Length
      invariant 0 <= i <= wrapped.Length
      invariant forall k :: 0 <= k < i ==> wrapped[k] == WrapTool(fs[k])
    {
      wrapped[i] := WrapTool(fs[i]);
      i := i + 1;
    }
    r := wrapped[..];
  }

  /** Quotes a `*string` option in place. */
  method QuoteInPlace(p: StringRef?)
    modifies p
    ensures Deref(p) == if old(Deref(p)).Some? then Some(Quoted(old(Deref(p)).value)) else None
  {
    if p != null && !StartsWith(p.value, "{") {
      p.value := "\"" + p.value + "\"";
    }
  }

  /** The request headers: authentication, content type, then the
      forwarded metadata. */
  method BuildHeader(solar: bool, client: LC.GptOptions, incoming: Option<map<string, seq<string>>>)
    returns (header: Header)
    ensures fresh(header)
    ensures Canonical("Content-Type") in header.fields
    ensures incoming.None? ==> header.fields == BaseHeaders(solar, client.apiType, client.apiKey)
  {
    header := new Header(map[]);
    if client.apiKey != "" {
      if !solar && client.apiType == LC.ApiTypeAzure {
        header.Set("api-key", client.apiKey);
      } else {
        header.Set("Authorization", "Bearer " + client.apiKey);
      }
    }
    header.Set("Content-Type", "application/json");
    assert header.fields == BaseHeaders(solar, client.apiType, client.apiKey);
    AddForwardHeadersFromIncomingContext(incoming, header);
  }

  /** The body both builders assemble: messages converted, functions and
      tools as the builder sends them, and the function-call and
      tool-choice values quoted in place and then read back. */
  method AssembleQuery(solar: bool, messages: seq<ChatPayload>, options: PredictionOptions) returns (query: Query)
    requires options.functionCall != options.toolChoice || options.functionCall == null
    modifies options.functionCall, options.toolChoice
    ensures query == QueryOf(solar, messages, options.model, options.functions, old(Deref(options.functionCall)),
                             options.tools, old(Deref(options.toolChoice)), options.responseFormat, options.stream)
    ensures Deref(options.functionCall) == query.functionCall && Deref(options.toolChoice) == query.toolChoice
  {
    var converted := ConvertMessages(messages);
    var functions := if solar then None else options.functions;
    var tools := options.tools;
    if solar {
      tools := None;
      if options.functions.Some? {
        var wrapped := WrapFunctions(options.functions.value);
        tools := Some(wrapped);
      }
    }
    QuoteInPlace(options.functionCall);
    QuoteInPlace(options.toolChoice);
    query := Query(options.model, converted, functions, Deref(options.functionCall), tools,
                   Deref(options.toolChoice), options.responseFormat, options.stream);
  }

  /** The steps after the body is assembled: an invalid response format is
      refused, then a body that does not marshal, then an endpoint the
      request cannot be made for; otherwise the request carries the body,
      the endpoint and the headers `BuildHeader` states. */
  method Encode(solar: bool, client: LC.GptOptions, query: Query, incoming: Option<map<string, seq<string>>>,
                codec: Codec) returns (r: Result<Request, GoError>)
    ensures r.Ok? <==> ((query.responseFormat.None? || codec.validate(query.responseFormat.value).None?) &&
      codec.marshal(query).Ok? && codec.newRequest(client.endpoint).None?)
    ensures r.Ok? ==> (r.value.query == query && r.value.body == codec.marshal(query).value &&
      r.value.url == client.endpoint && fresh(r.value.header) && Canonical("Content-Type") in r.value.header.fields &&
      (incoming.None? ==> r.value.header.fields == BaseHeaders(solar, client.apiType, client.apiKey)))
  {
    if query.responseFormat.Some? {
      var invalid := codec.validate(query.responseFormat.value);
      if invalid.Some? {
        return Err(invalid.value);
      }
    }
    var body := codec.marshal(query);
    if body.Err? {
      return Err(body.error);
    }
    var failed := codec.newRequest(client.endpoint);
    if failed.Some? {
      return Err(failed.value);
    }
    var header := BuildHeader(solar, client, incoming);
    return Ok(Request(client.endpoint, body.value, query, header));
  }

  /** `CreateRequest` (`solar` false) and `CreateRequestSolar` (`solar`
      true): no messages, then no model, is refused before anything is
      written; otherwise the function-call and tool-choice values are
      quoted in place, an invalid response format is refused, and the body,
      the endpoint and the headers are as `QueryOf` and `BaseHeaders`
      state, the incoming metadata forwarded on top. */
  method BuildRequest(solar: bool, client: LC.GptOptions, messages: seq<ChatPayload>, options: PredictionOptions,
                      incoming: Option<map<string, seq<string>>>, codec: Codec) returns (r: Result<Request, GoError>)
    requires options.functionCall != options.toolChoice || options.functionCall == null
    modifies options.functionCall, options.toolChoice
    ensures |messages| == 0 ==> r == Err(MessagesRequired)
    ensures |messages| > 0 && options.model == "" ==> r == Err(ModelRequired)
    ensures |messages| == 0 || options.model == "" ==>
      Deref(options.functionCall) == old(Deref(options.functionCall)) &&
      Deref(options.toolChoice) == old(Deref(options.toolChoice))
    ensures |messages| > 0 && options.model != "" ==>
      (old(Deref(options.functionCall)).Some? ==>
        Deref(options.functionCall) == Some(Quoted(old(Deref(options.functionCall)).value))) &&
      (old(Deref(options.toolChoice)).Some? ==>
        Deref(options.toolChoice) == Some(Quoted(old(Deref(options.toolChoice)).value)))
    ensures var q := QueryOf(solar, messages, options.model, options.functions, old(Deref(options.functionCall)),
                             options.tools, old(Deref(options.toolChoice)), options.responseFormat, options.stream);
      (r.Ok? <==> (|messages| > 0 && options.model != "" &&
        (options.responseFormat.None? || codec.validate(options.responseFormat.value).None?) &&
        codec.marshal(q).Ok? && codec.newRequest(client.endpoint).None?)) &&
      (r.Ok? ==> (r.value.query == q && r.value.body == codec.marshal(q).value && r.value.url == client.endpoint &&
        fresh(r.value.header) && Canonical("Content-Type") in r.value.header.fields &&
        (incoming.None? ==> r.value.header.fields == BaseHeaders(solar, client.apiType, client.apiKey))))
  {
    if |messages| == 0 {
      return Err(MessagesRequired);
    }
    if options.model == "" {
      return Err(ModelRequired);
    }
    var query := AssembleQuery(solar, messages, options);
    r := Encode(solar, client, query, incoming, codec);
  }
}
