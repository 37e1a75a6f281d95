/** The first-generation ChatGPT client: which model names it accepts,
    where it sends a model's requests and with which key, the request it
    builds from a chat request, the reply to a single request, and the
    stream reader. */
module LegacyChat {
  import opened Common
  import opened GoValue
  import CV = ChatV2
  import GM = GptModel
  import GS = GptStream
  import LR = LineReader
  import opened LegacyModel

  const OpenAIChatGPTUrl := "https://api.openai.com/v1/chat/completions"
  const UpstageLLMUrl := "https://upstage_llama.sung.devstage.ai/v1/chat/completions"
  const VLLM30BUrl := "http://172.16.201.19:17283/v1/chat/completions"
  const VLLM70BUrl := "http://172.16.201.19:27283/v1/chat/completions"
  const SolarProxy := "https://api.upstage.ai/v1/solar/chat/completions"
  const Solarv005Url := "http://172.16.201.11:7861/v1/chat/completions"
  const SolarV010Url := "http://172.16.200.14:8000/v1/chat/completions"
  const Solar1Url := "http://172.16.200.14:8000/v1/chat/completions"

  const Upstage30b := "/data/project/public/checkpoints/Upstage-30b"
  const Upstage70b := "/data/project/public/checkpoints/Upstage-70b"

  /** The fixed list of accepted model names besides the GPT family. */
  const ValidModels: seq<string> := [
    "gpt-4", "gpt-4-0314", "gpt-4-32k", "gpt-4-32k-0314", "gpt-4-0613",
    "gpt-3.5-turbo", "gpt-3.5-turbo-0301", "gpt-3.5-turbo-0613", "gpt-3.5-turbo-16k",
    "gpt-3.5-turbo-16k-0613", "gpt-3.5-turbo-1106",
    "upstage_llama_30b_orca_50k", "upstage_llama_30b_orca_100k", "upstage_llama_30b_orca_all",
    Upstage30b, Upstage70b,
    "upstage/solar-0-70b-16bit", "upstage/solar-1-7b-dev0-instruct", "upstage/solar-1-13b-dev0-instruct",
    "Ups13B-v005", "upstage-13b-v010", "upstage-SOLAR-1", "upstage/solar-1-mini-chat"]

  /** `isGPT`: OpenAI's GPT models and fine-tunes of them. */
  predicate IsGPT(model: string)
  {
    StartsWith(model, "gpt") || StartsWith(model, "ft:gpt")
  }

  /** The linear search of the list, stopping at the first match. */
  function Listed(model: string, models: seq<string>): (r: bool)
    ensures r <==> model in models
  {
    if |models| == 0 then false
    else if models[0] == model then true
    else Listed(model, models[1..])
  }

  /** `GPTModelValid`: a GPT-family name, or one of the listed names. */
  function GPTModelValid(model: string): (r: bool)
    ensures r <==> IsGPT(model) || model in ValidModels
  {
    if IsGPT(model) then true else Listed(model, ValidModels)
  }

  /** The names the endpoint routing knows. */
  predicate Routed(model: string)
  {
    IsGPT(model) || StartsWith(model, "upstage/solar") || StartsWith(model, "upstage_llama") ||
    model == Upstage30b || model == Upstage70b || model == "Ups13B-v005" ||
    model == "upstage-13b-v010" || model == "upstage-SOLAR-1"
  }

  /** The endpoint of a model, chosen by its name in a fixed order; a
      name no rule matches has none. */
  function Endpoint(model: string): (r: Result<string, GoError>)
    ensures r.Ok? <==> Routed(model)
    ensures r.Err? ==> r.error == Error("can not find endpoint for model: " + model)
    ensures IsGPT(model) ==> r == Ok(OpenAIChatGPTUrl)
    ensures !IsGPT(model) && StartsWith(model, "upstage/solar") ==> r == Ok(SolarProxy)
  {
    if IsGPT(model) then Ok(OpenAIChatGPTUrl)
    else if StartsWith(model, "upstage/solar") then Ok(SolarProxy)
    else if StartsWith(model, "upstage_llama") then Ok(UpstageLLMUrl)
    else if model == Upstage30b then Ok(VLLM30BUrl)
    else if model == Upstage70b then Ok(VLLM70BUrl)
    else if model == "Ups13B-v005" then Ok(Solarv005Url)
    else if model == "upstage-13b-v010" then Ok(SolarV010Url)
    else if model == "upstage-SOLAR-1" then Ok(Solar1Url)
    else Err(Error("can not find endpoint for model: " + model))
  }

  lemma UpstageLlamaRouted(model: string)
    requires model in ["upstage_llama_30b_orca_50k", "upstage_llama_30b_orca_100k", "upstage_llama_30b_orca_all"]
    ensures StartsWith(model, "upstage_llama")
  {
  }

  lemma SolarRouted(model: string)
    requires model in ["upstage/solar-0-70b-16bit", "upstage/solar-1-7b-dev0-instruct",
                       "upstage/solar-1-13b-dev0-instruct", "upstage/solar-1-mini-chat"]
    ensures StartsWith(model, "upstage/solar")
  {
  }

  /** Every accepted model name has an endpoint, so a request with an
      accepted model is never refused for want of one. */
  lemma ValidModelsRoute(model: string)
    requires GPTModelValid(model)
    ensures Endpoint(model).Ok?
  {
    if !IsGPT(model) {
      var i :| 0 <= i < |ValidModels| && ValidModels[i] == model;
      ListedRouted(i);
    }
  }

  /** Each listed name is one the routing knows. */
  lemma ListedRouted(i: int)
    requires 0 <= i < |ValidModels|
    ensures Routed(ValidModels[i])
  {
    var m := ValidModels[i];
    if i < 11 {
      assert m in ValidModels[..11];
      assert StartsWith(m, "gpt");
    } else if i < 14 {
      assert m in ValidModels[11..14];
      UpstageLlamaRouted(m);
    } else if i in {16, 17, 18, 22} {
      assert m in ["upstage/solar-0-70b-16bit", "upstage/solar-1-7b-dev0-instruct",
                   "upstage/solar-1-13b-dev0-instruct", "upstage/solar-1-mini-chat"];
      SolarRouted(m);
    }
  }

  /** `ChatGPTConfig`, and the client it configures. */
  datatype ChatGPTConfig = ChatGPTConfig(openaiKey: string, solarKey: string, model: string)
  datatype ChatGPT = ChatGPT(openaiKey: string, solarKey: string, model: string)

  const OpenAIKeyRequired := Error("openaiKey is required")

  /** `NewOpenAIChatGPTModel`: the OpenAI key is required, then the model
      must be accepted. */
  function NewOpenAIChatGPTModel(config: ChatGPTConfig): (r: Result<ChatGPT, GoError>)
    ensures config.openaiKey == "" ==> r == Err(OpenAIKeyRequired)
    ensures config.openaiKey != "" && !GPTModelValid(config.model) ==> r == Err(Error("invalid model: " + config.model))
    ensures r.Ok? <==> config.openaiKey != "" && GPTModelValid(config.model)
    ensures r.Ok? ==> r.value == ChatGPT(config.openaiKey, config.solarKey, config.model)
  {
    if |config.openaiKey| == 0 then Err(OpenAIKeyRequired)
    else if !GPTModelValid(config.model) then Err(Error("invalid model: " + config.model))
    else Ok(ChatGPT(config.openaiKey, config.solarKey, config.model))
  }

  /** The `Authorization` value for a model: the OpenAI key for the GPT
      family, a fixed token for two in-house models, the Solar key for
      the Solar chat model, none otherwise. */
  function Authorization(model: string, c: ChatGPT): Option<string>
  {
    if IsGPT(model) then Some("Bearer " + c.openaiKey)
    else if model == "upstage-13b-v010" || model == "upstage-SOLAR-1" then Some("Bearer upstage000")
    else if model == "upstage/solar-1-mini-chat" then Some("Bearer " + c.solarKey)
    else None
  }

  /** The headers before forwarding: the authorization, if any, and the
      JSON content type. */
  function LegacyHeaders(model: string, c: ChatGPT): map<string, seq<string>>
  {
    var auth: map<string, seq<string>> :=
      if Authorization(model, c).None? then map[]
      else map[CV.Canonical("Authorization") := [Authorization(model, c).value]];
    auth[CV.Canonical("Content-Type") := ["application/json"]]
  }

  /** A GPT-family model goes to OpenAI with the OpenAI key; the OpenAI
      key is sent nowhere else. */
  lemma OpenAIKeyOnlyToOpenAI(model: string, c: ChatGPT)
    ensures IsGPT(model) ==> (Endpoint(model) == Ok(OpenAIChatGPTUrl) &&
      Authorization(model, c) == Some("Bearer " + c.openaiKey))
    ensures !IsGPT(model) && c.openaiKey != c.solarKey && c.openaiKey != "upstage000" ==>
      Authorization(model, c) != Some("Bearer " + c.openaiKey)
  {
    var bearer := "Bearer ";
    if !IsGPT(model) && Authorization(model, c) == Some(bearer + c.openaiKey) {
      var a := Authorization(model, c).value;
      assert a[|bearer|..] == c.openaiKey;
      if model == "upstage-13b-v010" || model == "upstage-SOLAR-1" {
        assert a == bearer + "upstage000";
        assert a[|bearer|..] == "upstage000";
      } else {
        assert a == bearer + c.solarKey;
        assert a[|bearer|..] == c.solarKey;
      }
    }
  }

  /** `proto.GptOptions` (the temperature is left out), the options of a
      `proto.ChatModel` (GPT options, possibly nil, or another kind), and
      `proto.ChatRequest`. */
  datatype GptOptions = GptOptions(functions: seq<string>, functionCall: Option<string>, stream: bool,
                                   maxTokens: Option<int>)
  datatype ModelOptions = GptWrapper(gpt: Option<GptOptions>) | OtherOptions
  datatype ChatModel = ChatModel(name: string, options: ModelOptions)
  datatype ChatRequest = ChatRequest(model: Option<ChatModel>, messages: seq<CV.ChatPayload>)

  /** `model.ChatCompletion`, the request body. */
  datatype ChatCompletion = ChatCompletion(model: string, messages: seq<CompletionMessage>, functions: seq<string>,
                                           functionCall: string, stream: bool, maxTokens: int)

  const ModelNotSet := Error("model isn't set")
  const NotGptOptions := Error("options is not for GPT")

  /** The chat messages as completion messages: role and content only. */
  function MessagesOf(ps: seq<CV.ChatPayload>): (r: seq<CompletionMessage>)
    ensures |r| == |ps|
    ensures forall i :: 0 <= i < |ps| ==> r[i] == CompletionMessage(ps[i].role, ps[i].content, "", None)
  {
    seq(|ps|, i requires 0 <= i < |ps| => CompletionMessage(ps[i].role, ps[i].content, "", None))
  }

  /** The body `createAPIRequest` marshals: the messages in order and the
      client's model; GPT options, when present, add the functions, the
      function call, streaming and the token limit, and a model name in
      the request, which must be accepted, replaces the client's model. */
  function QueryOf(c: ChatGPT, request: ChatRequest): (r: Result<ChatCompletion, GoError>)
    ensures request.model.None? ==> r == Err(ModelNotSet)
    ensures request.model.Some? && request.model.value.options.OtherOptions? ==> r == Err(NotGptOptions)
    ensures r.Ok? ==> r.value.messages == MessagesOf(request.messages)
    ensures r.Ok? ==> r.value.model == c.model || GPTModelValid(r.value.model)
    ensures request.model.Some? && request.model.value.options == GptWrapper(None) ==>
      r == Ok(ChatCompletion(c.model, MessagesOf(request.messages), [], "", false, 0))
    ensures (request.model.Some? && request.model.value.options.GptWrapper? &&
      request.model.value.options.gpt.Some? && request.model.value.name != "") ==>
      (r.Ok? <==> GPTModelValid(request.model.value.name)) &&
      (r.Ok? ==> r.value.model == request.model.value.name)
    ensures (request.model.Some? && request.model.value.options.GptWrapper? &&
      request.model.value.options.gpt.Some? && request.model.value.name == "") ==> r.Ok? && r.value.model == c.model
  {
    if request.model.None? then Err(ModelNotSet)
    else if !request.model.value.options.GptWrapper? then Err(NotGptOptions)
    else
      var base := ChatCompletion(c.model, MessagesOf(request.messages), [], "", false, 0);
      var name := request.model.value.name;
      match request.model.value.options.gpt
      case None => Ok(base)
      case Some(o) =>
        if name != "" && !GPTModelValid(name) then Err(Error("invalid model: " + name))
        else Ok(base.(model := if name != "" then name else c.model,
                      functions := o.functions,
                      functionCall := if o.functionCall.Some? then o.functionCall.value else "",
                      stream := o.stream,
                      maxTokens := if o.maxTokens.Some? then o.maxTokens.value else 0))
  }

  /** For a client made by `NewOpenAIChatGPTModel`, every body that is
      built names a model with an endpoint: "can not find endpoint" never
      happens. */
  lemma BuiltQueriesRoute(config: ChatGPTConfig, request: ChatRequest)
    requires NewOpenAIChatGPTModel(config).Ok?
    requires QueryOf(NewOpenAIChatGPTModel(config).value, request).Ok?
    ensures Endpoint(QueryOf(NewOpenAIChatGPTModel(config).value, request).value.model).Ok?
  {
    ValidModelsRoute(QueryOf(NewOpenAIChatGPTModel(config).value, request).value.model);
  }

  /** The request sent: the endpoint, the marshalled body and the
      headers. */
  datatype ApiRequest = ApiRequest(url: string, body: string, header: CV.Header)

  /** The messages mapped in a loop. */
  method ConvertMessages(ps: seq<CV.ChatPayload>) returns (r: seq<CompletionMessage>)
    ensures r == MessagesOf(ps)
  {
    r := [];
    var i := 0;
    while i < |ps|
      invariant 0 <= i <= |ps|
      invariant r == MessagesOf(ps[..i])
    {
      r := r + [CompletionMessage(ps[i].role, ps[i].content, "", None)];
      i := i + 1;
    }
    assert ps[..i] == ps;
  }

  /** The headers: authorization for the model, the content type, then
      the forwarded metadata. */
  method BuildHeader(model: string, c: ChatGPT, incoming: Option<map<string, seq<string>>>) returns (header: CV.Header)
    ensures fresh(header)
    ensures CV.Canonical("Content-Type") in header.fields
    ensures incoming.None? ==> header.fields == LegacyHeaders(model, c)
  {
    header := new CV.Header(map[]);
    if IsGPT(model) {
      header.Set("Authorization", "Bearer " + c.openaiKey);
    } else if model == "upstage-13b-v010" {
      header.Set("Authorization", "Bearer upstage000");
    } else if model == "upstage-SOLAR-1" {
      header.Set("Authorization", "Bearer upstage000");
    } else if model == "upstage/solar-1-mini-chat" {
      header.Set("Authorization", "Bearer " + c.solarKey);
    }
    header.Set("Content-Type", "application/json");
    assert header.fields == LegacyHeaders(model, c);
    CV.AddForwardHeadersFromIncomingContext(incoming, header);
  }

  /** The body `createAPIRequest` builds: no model and options other than
      GPT's are refused, as is a model name that is not a GPT model;
      otherwise the body is as `QueryOf` states. */
  method AssembleQuery(c: ChatGPT, request: ChatRequest) returns (r: Result<ChatCompletion, GoError>)
    ensures r == QueryOf(c, request)
  {
    if request.model.None? {
      return Err(ModelNotSet);
    }
    var model := request.model.value;
    if !model.options.GptWrapper? {
      return Err(NotGptOptions);
    }
    var messages := ConvertMessages(request.messages);
    var query := ChatCompletion(c.model, messages, [], "", false, 0);
    if model.options.gpt.Some? {
      var options := model.options.gpt.value;
      query := query.(functions := options.functions);
      if options.functionCall.Some? {
        query := query.(functionCall := options.functionCall.value);
      }
      if model.name != "" {
        if !GPTModelValid(model.name) {
          return Err(Error("invalid model: " + model.name));
        }
        query := query.(model := model.name);
      }
      query := query.(stream := options.stream);
      if options.maxTokens.Some? {
        query := query.(maxTokens := options.maxTokens.value);
      }
    }
    return Ok(query);
  }

  /** `createAPIRequest`: the body of `QueryOf`, marshalled, sent to the
      model's endpoint with its authorization and the forwarded
      headers. */
  method CreateAPIRequest(c: ChatGPT, request: ChatRequest, incoming: Option<map<string, seq<string>>>,
                          marshal: ChatCompletion -> Result<string, GoError>) returns (r: Result<ApiRequest, GoError>)
    ensures QueryOf(c, request).Err? ==> r == Err(QueryOf(c, request).error)
    ensures QueryOf(c, request).Ok? ==>
      var q := QueryOf(c, request).value;
      (marshal(q).Err? ==> r == Err(marshal(q).error)) &&
      (marshal(q).Ok? && Endpoint(q.model).Err? ==> r == Err(Endpoint(q.model).error)) &&
      (r.Ok? <==> marshal(q).Ok? && Endpoint(q.model).Ok?) &&
      (r.Ok? ==> (r.value.url == Endpoint(q.model).value && r.value.body == marshal(q).value &&
        fresh(r.value.header) && CV.Canonical("Content-Type") in r.value.header.fields &&
        (incoming.None? ==> r.value.header.fields == LegacyHeaders(q.model, c))))
  {
    var assembled := AssembleQuery(c, request);
    if assembled.Err? {
      return Err(assembled.error);
    }
    var query := assembled.value;
    var body := marshal(query);
    if body.Err? {
      return Err(body.error);
    }
    var url := Endpoint(query.model);
    if url.Err? {
      return Err(url.error);
    }
    var header := BuildHeader(query.model, c, incoming);
    return Ok(ApiRequest(url.value, body.value, header));
  }

  /** The error for a reply without choices, which the source does not
      raise. */
  const NoChoices := Error("length of choices is 0")

  /** `Chat` after the request is sent, as written: a status other than
      200 is only logged, but the body read for the log leaves nothing for
      the second read, so an empty body is parsed; a reply without choices
      returns neither a response nor an error. */
  function ChatReplyAsWritten(reply: Result<LR.HttpReply, GoError>,
                              unmarshal: string -> Result<Option<ResponseValue>, GoError>,
                              codec: GM.ArgumentCodec): Result<Option<CV.ChatResponse>, GoError>
  {
    match reply
    case Err(e) => Err(e)
    case Ok(rep) =>
      if rep.status != 200 && rep.body.Err? then Err(rep.body.error)
      else
        var body := if rep.status != 200 then Ok("") else rep.body;
        match body
        case Err(e) => Err(e)
        case Ok(b) =>
          match unmarshal(b)
          case Err(e) => Err(e)
          case Ok(None) => Err(NilDereference)
          case Ok(Some(v)) =>
            if |v.choices| == 0 then Ok(None)
            else match ToChatResponse(v.choices, codec)
              case Err(e) => Err(e)
              case Ok(resp) => Ok(Some(resp))
  }

  /** `Chat` after the request is sent, with a reply without choices
      refused. */
  function ChatReply(reply: Result<LR.HttpReply, GoError>,
                     unmarshal: string -> Result<Option<ResponseValue>, GoError>,
                     codec: GM.ArgumentCodec): (r: Result<CV.ChatResponse, GoError>)
    ensures reply.Err? ==> r == Err(reply.error)
    ensures reply.Ok? && reply.value.status == 200 && reply.value.body.Ok? ==>
      var parsed := unmarshal(reply.value.body.value);
      (parsed.Err? ==> r == Err(parsed.error)) &&
      (parsed == Ok(None) ==> r == Err(NilDereference)) &&
      (parsed.Ok? && parsed.value.Some? && |parsed.value.value.choices| == 0 ==> r == Err(NoChoices)) &&
      (parsed.Ok? && parsed.value.Some? && |parsed.value.value.choices| > 0 ==>
        r == ToChatResponse(parsed.value.value.choices, codec))
  {
    match ChatReplyAsWritten(reply, unmarshal, codec)
    case Err(e) => Err(e)
    case Ok(None) => Err(NoChoices)
    case Ok(Some(resp)) => Ok(resp)
  }

  /** A reply with a status other than 200 is handled as a 200 reply with
      an empty body. */
  lemma NonOkParsesEmptyBody(status: int, body: string, stream: LR.Source,
                             unmarshal: string -> Result<Option<ResponseValue>, GoError>, codec: GM.ArgumentCodec)
    requires status != 200
    ensures ChatReply(Ok(LR.HttpReply(status, Ok(body), stream)), unmarshal, codec) ==
      ChatReply(Ok(LR.HttpReply(200, Ok(""), stream)), unmarshal, codec)
  {
  }

  /** A reply whose body parses to a response without choices: as written,
      `Chat` returns no response and no error; the repaired reply is an
      error. Every other reply is the same in both. */
  lemma AsWrittenNoChoicesReturnsNothing(reply: Result<LR.HttpReply, GoError>,
                                        unmarshal: string -> Result<Option<ResponseValue>, GoError>,
                                        codec: GM.ArgumentCodec, v: ResponseValue)
    requires reply.Ok? && reply.value.status == 200 && reply.value.body.Ok?
    requires unmarshal(reply.value.body.value) == Ok(Some(v)) && v.choices == []
    ensures ChatReplyAsWritten(reply, unmarshal, codec) == Ok(None)
    ensures ChatReply(reply, unmarshal, codec) == Err(NoChoices)
  {
  }

  /** Where the written `Chat` answers at all, the repaired one answers
      the same. */
  lemma ChatReplyAgrees(reply: Result<LR.HttpReply, GoError>,
                        unmarshal: string -> Result<Option<ResponseValue>, GoError>, codec: GM.ArgumentCodec)
    ensures ChatReplyAsWritten(reply, unmarshal, codec).Err? ==>
      ChatReply(reply, unmarshal, codec) == Err(ChatReplyAsWritten(reply, unmarshal, codec).error)
    ensures ChatReplyAsWritten(reply, unmarshal, codec).Ok? && ChatReplyAsWritten(reply, unmarshal, codec).value.Some? ==>
      ChatReply(reply, unmarshal, codec) == Ok(ChatReplyAsWritten(reply, unmarshal, codec).value.value)
  {
  }

  /** `CreateChatStream` after the request is sent: a status of 300 or
      more is an error carrying the body; otherwise the body is read as a
      stream. */
  function StreamReply(reply: Result<LR.HttpReply, GoError>): (r: Result<LR.Source, GoError>)
    ensures r.Ok? <==> reply.Ok? && reply.value.status < 300
    ensures r.Ok? ==> r.value == reply.value.stream
    ensures reply.Ok? && reply.value.status >= 300 && reply.value.body.Ok? ==>
      r == Err(Error("response status code is not in 200-299, status code: " + IntToString(reply.value.status) +
                     ", body: " + reply.value.body.value))
  {
    match reply
    case Err(e) => Err(e)
    case Ok(rep) =>
      if rep.status >= 300 then
        match rep.body
        case Err(e) => Err(e)
        case Ok(body) => Err(Error("response status code is not in 200-299, status code: " +
                                   IntToString(rep.status) + ", body: " + body))
      else Ok(rep.stream)
  }

  const EofBeforeDone := Error("EOF comes before [DONE]")
  const NoChoicesInChunk := Error("no choices")
  const DeltaIsNil := Error("delta is nil")

  /** A line that is neither a data line nor, without its prefix, one of
      the two tokens: the loop passes over it. */
  predicate Quiet(line: string)
  {
    !StartsWith(line, GS.DataPrefix) && line != GS.ErrorStartToken && line != GS.DoneToken
  }

  /** What handling one trimmed line leads to: a return, or another turn of
      the loop with the new merging flag and merged response. */
  datatype Step =
    | Return(outcome: GS.Outcome, merged: Option<ResponseValue>)
    | Again(shouldMerge: bool, merged: Option<ResponseValue>)

  /** A chunk converted and turned into a chat response, as an outcome. */
  function ChunkOutcome(chunk: Chunk, codec: GM.ArgumentCodec): GS.Outcome
  {
    match ChunkValue(chunk)
    case Err(e) => GS.Failed(e)
    case Ok(v) => GS.Converted(ToChatResponse(v.choices, codec), false)
  }

  /** One trimmed line, `eof` telling whether it came with `io.EOF`. With
      or without the data prefix, "{error" is an error and "[DONE]" ends
      the stream, with the merged response when merging. Any other line
      read with `io.EOF` is the end before "[DONE]". A line that is not a
      data line is skipped. Any other data is a chunk, which must have a
      first choice with a delta; it is folded into the merged response and
      returned, until a function call switches the call into merging. */
  function HandleLine(line: string, eof: bool, parse: string -> Result<Chunk, GoError>, codec: GM.ArgumentCodec,
                      merged: Option<ResponseValue>, shouldMerge: bool): (r: Step)
    ensures eof ==> r.Return?
    ensures r.Again? ==> (shouldMerge ==> r.shouldMerge) && !eof
    ensures r.Return? && shouldMerge ==> !r.outcome.Response?
    ensures Quiet(line) ==> r == (if eof then Return(GS.Failed(EofBeforeDone), merged) else Again(shouldMerge, merged))
  {
    var data := TrimPrefix(line, GS.DataPrefix);
    if data == GS.ErrorStartToken then Return(GS.Failed(Error(GS.ErrorStartToken)), merged)
    else if data == GS.DoneToken then
      if !shouldMerge then Return(GS.Finished(None), merged)
      else if merged.None? then Return(GS.Failed(NilDereference), merged)
      else Return(GS.Converted(ToChatResponse(merged.value.choices, codec), true), merged)
    else if eof then Return(GS.Failed(EofBeforeDone), merged)
    else if !StartsWith(line, GS.DataPrefix) then Again(shouldMerge, merged)
    else match parse(data)
      case Err(e) => Return(GS.Failed(e), merged)
      case Ok(chunk) =>
        if |chunk.choices| < 1 then Return(GS.Failed(NoChoicesInChunk), merged)
        else if chunk.choices[0].delta.None? then Return(GS.Failed(DeltaIsNil), merged)
        else
          var sm := shouldMerge || chunk.choices[0].delta.value.functionCall.Some?;
          var folded := if merged.Some? then MergeValue(merged.value, chunk) else ChunkValue(chunk);
          match folded
          case Err(e) => Return(GS.Failed(e), merged)
          case Ok(m) =>
            if sm then Again(true, Some(m))
            else Return(ChunkOutcome(chunk, codec), Some(m))
  }

  /** Where a `Recv` call ends: its outcome, the reader's position and the
      merged response. */
  datatype RecvEnd = RecvEnd(outcome: GS.Outcome, pos: nat, merged: Option<ResponseValue>)

  /** The loop of `Recv` from a reader position; every call ends at the
      latest with the read that meets the end of the input. */
  function Scan(src: LR.Source, pos: nat, parse: string -> Result<Chunk, GoError>, codec: GM.ArgumentCodec,
                merged: Option<ResponseValue>, shouldMerge: bool): (r: RecvEnd)
    requires pos <= |src.lines| + 1
    ensures pos < r.pos <= |src.lines| + 2
    decreases |src.lines| + 1 - pos
  {
    var eof := pos >= |src.lines|;
    match HandleLine(TrimSpace(LR.ReadAt(src, pos)), eof, parse, codec, merged, shouldMerge)
    case Return(o, m) => RecvEnd(o, pos + 1, m)
    case Again(sm, m) => Scan(src, pos + 1, parse, codec, m, sm)
  }

  /** One turn of the loop. */
  lemma ScanStep(src: LR.Source, pos: nat, parse: string -> Result<Chunk, GoError>, codec: GM.ArgumentCodec,
                 merged: Option<ResponseValue>, shouldMerge: bool)
    requires pos <= |src.lines| + 1
    ensures Scan(src, pos, parse, codec, merged, shouldMerge) ==
      match HandleLine(TrimSpace(LR.ReadAt(src, pos)), pos >= |src.lines|, parse, codec, merged, shouldMerge)
      case Return(o, m) => RecvEnd(o, pos + 1, m)
      case Again(sm, m) => Scan(src, pos + 1, parse, codec, m, sm)
  {
  }

  /** `ScanStep` by the kind of step: a returning line ends the call just
      past it, any other line comes before the end and the loop goes on. */
  lemma StepEnds(src: LR.Source, pos: nat, parse: string -> Result<Chunk, GoError>, codec: GM.ArgumentCodec,
                 merged: Option<ResponseValue>, shouldMerge: bool)
    requires pos <= |src.lines| + 1
    ensures var st := HandleLine(TrimSpace(LR.ReadAt(src, pos)), pos >= |src.lines|, parse, codec, merged, shouldMerge);
      (st.Return? ==> Scan(src, pos, parse, codec, merged, shouldMerge) == RecvEnd(st.outcome, pos + 1, st.merged)) &&
      (st.Again? ==>
        pos < |src.lines| &&
        Scan(src, pos, parse, codec, merged, shouldMerge) == Scan(src, pos + 1, parse, codec, st.merged, st.shouldMerge))
  {
    ScanStep(src, pos, parse, codec, merged, shouldMerge);
  }

  /** A handled line, seen from `Scan`: what `HandleLine` made of the line
      is one turn of the scan. */
  lemma ScanTurn(src: LR.Source, pos: nat, line: string, eof: bool, parse: string -> Result<Chunk, GoError>,
                 codec: GM.ArgumentCodec, merged: Option<ResponseValue>, shouldMerge: bool,
                 pos': nat, merged': Option<ResponseValue>, ret: Option<GS.Outcome>, sm: bool)
    requires pos <= |src.lines| + 1 && pos' == pos + 1
    requires line == TrimSpace(LR.ReadAt(src, pos)) && eof == (pos >= |src.lines|)
    requires Handled(HandleLine(line, eof, parse, codec, merged, shouldMerge), ret, merged', sm)
    ensures Turned(src, pos, parse, codec, merged, shouldMerge, ret, pos', merged', sm)
  {
    StepEnds(src, pos, parse, codec, merged, shouldMerge);
  }

  /** A line handled as `st` says: the new merged response, and the
      return or the new merging flag. */
  predicate Handled(st: Step, ret: Option<GS.Outcome>, merged': Option<ResponseValue>, sm: bool) {
    merged' == st.merged &&
    (st.Return? ==> ret == Some(st.outcome)) &&
    (st.Again? ==> ret == None && sm == st.shouldMerge)
  }

  /** One turn of the loop read from `pos` to `pos'`: it returns where the
      scan ends, or the scan goes on from `pos'` with the new merged
      response and flag. */
  ghost predicate Turned(src: LR.Source, pos: nat, parse: string -> Result<Chunk, GoError>, codec: GM.ArgumentCodec,
                         merged: Option<ResponseValue>, shouldMerge: bool,
                         ret: Option<GS.Outcome>, pos': nat, merged': Option<ResponseValue>, sm: bool)
    requires pos <= |src.lines| + 1
  {
    (ret.Some? ==> Scan(src, pos, parse, codec, merged, shouldMerge) == RecvEnd(ret.value, pos', merged')) &&
    (ret.None? ==> pos' <= |src.lines| && Scan(src, pos, parse, codec, merged, shouldMerge) == Scan(src, pos', parse, codec, merged', sm))
  }

  /** `Recv` from a position with the merged response so far. */
  function RecvSpec(src: LR.Source, pos: nat, parse: string -> Result<Chunk, GoError>, codec: GM.ArgumentCodec,
                    merged: Option<ResponseValue>): RecvEnd
    requires pos <= |src.lines| + 1
  {
    Scan(src, pos, parse, codec, merged, false)
  }

  /** Input without another data line or token runs out with "EOF comes
      before [DONE]", whatever was merged. */
  lemma {:induction false} RunOutWithoutData(src: LR.Source, pos: nat, parse: string -> Result<Chunk, GoError>,
                                             codec: GM.ArgumentCodec, merged: Option<ResponseValue>, shouldMerge: bool)
    requires pos <= |src.lines| + 1
    requires forall i :: pos <= i < |src.lines| ==> Quiet(TrimSpace(src.lines[i]))
    requires pos <= |src.lines| ==> Quiet(TrimSpace(src.tail))
    ensures Scan(src, pos, parse, codec, merged, shouldMerge).outcome == GS.Failed(EofBeforeDone)
    decreases |src.lines| + 1 - pos
  {
    if pos < |src.lines| {
      var line := TrimSpace(src.lines[pos]);
      assert Quiet(line);
      QuietLineSkipped(src, pos, parse, codec, merged, shouldMerge);
      RunOutWithoutData(src, pos + 1, parse, codec, merged, shouldMerge);
    } else {
      RunOutAtEnd(src, pos, parse, codec, merged, shouldMerge);
    }
  }

  /** A quiet full line is passed over with the state as it was. */
  lemma QuietLineSkipped(src: LR.Source, pos: nat, parse: string -> Result<Chunk, GoError>,
                         codec: GM.ArgumentCodec, merged: Option<ResponseValue>, shouldMerge: bool)
    requires pos < |src.lines| && Quiet(TrimSpace(src.lines[pos]))
    ensures Scan(src, pos, parse, codec, merged, shouldMerge) == Scan(src, pos + 1, parse, codec, merged, shouldMerge)
  {
    assert LR.ReadAt(src, pos) == src.lines[pos];
    ScanQuiet(src, pos, parse, codec, merged, shouldMerge);
  }

  /** The read that meets the end of the input, of a quiet tail or of
      nothing, ends the call with "EOF comes before [DONE]". */
  lemma RunOutAtEnd(src: LR.Source, pos: nat, parse: string -> Result<Chunk, GoError>,
                    codec: GM.ArgumentCodec, merged: Option<ResponseValue>, shouldMerge: bool)
    requires |src.lines| <= pos <= |src.lines| + 1
    requires pos <= |src.lines| ==> Quiet(TrimSpace(src.tail))
    ensures Scan(src, pos, parse, codec, merged, shouldMerge).outcome == GS.Failed(EofBeforeDone)
  {
    if pos > |src.lines| {
      assert LR.ReadAt(src, pos) == "";
      TrimSpaceEmpty();
    } else {
      assert LR.ReadAt(src, pos) == src.tail;
    }
    ScanQuiet(src, pos, parse, codec, merged, shouldMerge);
  }

  /** A quiet line is passed over, or ends the call at the end of the input. */
  lemma ScanQuiet(src: LR.Source, pos: nat, parse: string -> Result<Chunk, GoError>, codec: GM.ArgumentCodec,
                  merged: Option<ResponseValue>, shouldMerge: bool)
    requires pos <= |src.lines| + 1 && Quiet(TrimSpace(LR.ReadAt(src, pos)))
    ensures Scan(src, pos, parse, codec, merged, shouldMerge) ==
      if pos >= |src.lines| then RecvEnd(GS.Failed(EofBeforeDone), pos + 1, merged)
      else Scan(src, pos + 1, parse, codec, merged, shouldMerge)
  {
  }

  lemma TrimSpaceEmpty()
    ensures TrimSpace("") == ""
  {
  }

  /** A chunk after the last newline is never delivered: read together with
      `io.EOF`, it is reported as the end before "[DONE]". */
  lemma TailChunkLost(src: LR.Source, parse: string -> Result<Chunk, GoError>, codec: GM.ArgumentCodec,
                      merged: Option<ResponseValue>, shouldMerge: bool, data: string)
    requires TrimSpace(src.tail) == GS.DataPrefix + data
    requires data != GS.ErrorStartToken && data != GS.DoneToken
    ensures Scan(src, |src.lines|, parse, codec, merged, shouldMerge) ==
      RecvEnd(GS.Failed(EofBeforeDone), |src.lines| + 1, merged)
  {
    var line := GS.DataPrefix + data;
    assert StartsWith(line, GS.DataPrefix) && line[|GS.DataPrefix|..] == data;
  }

  /** "[DONE]", with or without the data prefix, ends a call that is not
      merging with `io.EOF` alone. */
  lemma DoneEndsStream(src: LR.Source, pos: nat, parse: string -> Result<Chunk, GoError>, codec: GM.ArgumentCodec,
                       merged: Option<ResponseValue>)
    requires pos < |src.lines|
    requires TrimSpace(src.lines[pos]) in {GS.DataPrefix + GS.DoneToken, GS.DoneToken}
    ensures Scan(src, pos, parse, codec, merged, false) == RecvEnd(GS.Finished(None), pos + 1, merged)
  {
    var line := GS.DataPrefix + GS.DoneToken;
    assert StartsWith(line, GS.DataPrefix) && line[|GS.DataPrefix|..] == GS.DoneToken;
    assert !StartsWith(GS.DoneToken, GS.DataPrefix);
  }

  /** "{error", with or without the data prefix, is an error of that
      text. */
  lemma ErrorLineFails(src: LR.Source, pos: nat, parse: string -> Result<Chunk, GoError>, codec: GM.ArgumentCodec,
                       merged: Option<ResponseValue>, shouldMerge: bool)
    requires pos <= |src.lines|
    requires TrimSpace(LR.ReadAt(src, pos)) in {GS.DataPrefix + GS.ErrorStartToken, GS.ErrorStartToken}
    ensures Scan(src, pos, parse, codec, merged, shouldMerge) ==
      RecvEnd(GS.Failed(Error(GS.ErrorStartToken)), pos + 1, merged)
  {
    var line := GS.DataPrefix + GS.ErrorStartToken;
    assert StartsWith(line, GS.DataPrefix) && line[|GS.DataPrefix|..] == GS.ErrorStartToken;
    assert !StartsWith(GS.ErrorStartToken, GS.DataPrefix);
  }

  /** Once a call merges, it never hands back a single chunk. */
  lemma {:induction false} MergingHoldsBack(src: LR.Source, pos: nat, parse: string -> Result<Chunk, GoError>,
                                            codec: GM.ArgumentCodec, merged: Option<ResponseValue>)
    requires pos <= |src.lines| + 1
    ensures !Scan(src, pos, parse, codec, merged, true).outcome.Response?
    decreases |src.lines| + 1 - pos
  {
    var step := HandleLine(TrimSpace(LR.ReadAt(src, pos)), pos >= |src.lines|, parse, codec, merged, true);
    if step.Again? {
      MergingHoldsBack(src, pos + 1, parse, codec, step.merged);
    }
  }

  /** A chunk line without a function call, read outside merging: it is
      handed back converted and folded into the merged response, becoming
      it when there was none. */
  lemma ChunkReturnedAndFolded(src: LR.Source, pos: nat, parse: string -> Result<Chunk, GoError>,
                               codec: GM.ArgumentCodec, merged: Option<ResponseValue>, data: string, chunk: Chunk)
    requires pos < |src.lines| && TrimSpace(src.lines[pos]) == GS.DataPrefix + data
    requires data != GS.ErrorStartToken && data != GS.DoneToken && parse(data) == Ok(chunk)
    requires |chunk.choices| > 0 && chunk.choices[0].delta.Some? && chunk.choices[0].delta.value.functionCall.None?
    requires merged.Some? ==> MergeValue(merged.value, chunk).Ok?
    requires ChunkValue(chunk).Ok?
    ensures var r := Scan(src, pos, parse, codec, merged, false);
      r.pos == pos + 1 &&
      r.outcome == GS.Converted(ToChatResponse(ChunkValue(chunk).value.choices, codec), false) &&
      r.merged == Some(if merged.Some? then MergeValue(merged.value, chunk).value else ChunkValue(chunk).value)
  {
    var line := GS.DataPrefix + data;
    assert StartsWith(line, GS.DataPrefix) && TrimPrefix(line, GS.DataPrefix) == data;
    ScanStep(src, pos, parse, codec, merged, false);
    assert LR.ReadAt(src, pos) == src.lines[pos];
  }

  /** `ChatGPTStream`: the reader over the body and the response merged
      from the chunks read so far. */
  class ChatGPTStream {
    const src: LR.Source
    var pos: nat
    var merged: ChatCompletionResponse?

    constructor(src: LR.Source)
      ensures this.src == src && pos == 0 && merged == null
    {
      this.src := src;
      pos := 0;
      merged := null;
    }

    /** The merged response's contents, if any. */
    function MergedValue(): Option<ResponseValue>
      reads `merged, merged
    {
      if merged == null then None else Some(merged.Value())
    }

    /** `ReadUntilNow`: the response merged so far. */
    function ReadUntilNow(): (r: ChatCompletionResponse?)
      reads this
      ensures r == null <==> MergedValue().None?
    {
      merged
    }

    /** One trimmed line of `Recv`'s loop: a return, or the loop's new
        merging flag. */
    method Handle(line: string, eof: bool, parse: string -> Result<Chunk, GoError>, codec: GM.ArgumentCodec,
                  shouldMerge: bool) returns (ret: Option<GS.Outcome>, sm: bool)
      modifies this`merged, merged
      ensures merged != null ==> merged == old(merged) || fresh(merged)
      ensures Handled(HandleLine(line, eof, parse, codec, old(MergedValue()), shouldMerge), ret, MergedValue(), sm)
    {
      sm := shouldMerge;
      var data := TrimPrefix(line, GS.DataPrefix);
      if data == GS.ErrorStartToken {
        return Some(GS.Failed(Error(data))), sm;
      }
      if data == GS.DoneToken {
        if sm {
          if merged == null {
            return Some(GS.Failed(NilDereference)), sm;
          }
          var converted := ToChatResponse(merged.choices, codec);
          return Some(GS.Converted(converted, true)), sm;
        }
        return Some(GS.Finished(None)), sm;
      }
      if eof {
        return Some(GS.Failed(EofBeforeDone)), sm;
      }
      if !StartsWith(line, GS.DataPrefix) {
        return None, sm;
      }
      var parsed := parse(data);
      if parsed.Err? {
        return Some(GS.Failed(parsed.error)), sm;
      }
      var chunk := parsed.value;
      if |chunk.choices| < 1 {
        return Some(GS.Failed(NoChoicesInChunk)), sm;
      }
      var choice := chunk.choices[0];
      if choice.delta.None? {
        return Some(GS.Failed(DeltaIsNil)), sm;
      }
      if choice.delta.value.functionCall.Some? {
        sm := true;
      }
      if merged != null {
        var err := merged.Merge(chunk);
        if err.Some? {
          return Some(GS.Failed(err.value)), sm;
        }
      } else {
        var first, err := ResponseOfChunk(chunk);
        if err.Some? {
          return Some(GS.Failed(err.value)), sm;
        }
        merged := first;
      }
      if !sm {
        var response, err := ResponseOfChunk(chunk);
        if err.Some? {
          return Some(GS.Failed(err.value)), sm;
        }
        var converted := ToChatResponse(response.choices, codec);
        return Some(GS.Converted(converted, false)), sm;
      }
      return None, sm;
    }

    /** One read and the handling of the trimmed line: the reader moves
        past the line and the merged response is the one `HandleLine`
        gives. */
    method Step(parse: string -> Result<Chunk, GoError>, codec: GM.ArgumentCodec, shouldMerge: bool)
      returns (ret: Option<GS.Outcome>, sm: bool)
      requires pos <= |src.lines| + 1
      modifies this, merged
      ensures merged != null ==> merged == old(merged) || fresh(merged)
      ensures pos == old(pos) + 1
      ensures Turned(src, old(pos), parse, codec, old(MergedValue()), shouldMerge, ret, pos, MergedValue(), sm)
    {
      ghost var p0, m0 := pos, MergedValue();
      var eof := pos >= |src.lines|;
      var raw := LR.ReadAt(src, pos);
      pos := pos + 1;
      assert MergedValue() == m0;
      ret, sm := HandleTurn(p0, pos, TrimSpace(raw), eof, parse, codec, shouldMerge);
    }

    /** The handling of the line read at `at`, stated as one turn of the
        scan from there. */
    method HandleTurn(ghost at: nat, ghost next: nat, line: string, eof: bool, parse: string -> Result<Chunk, GoError>,
                      codec: GM.ArgumentCodec, shouldMerge: bool) returns (ret: Option<GS.Outcome>, sm: bool)
      requires at <= |src.lines| + 1 && next == at + 1
      requires line == TrimSpace(LR.ReadAt(src, at)) && eof == (at >= |src.lines|)
      modifies this`merged, merged
      ensures merged != null ==> merged == old(merged) || fresh(merged)
      ensures Turned(src, at, parse, codec, old(MergedValue()), shouldMerge, ret, next, MergedValue(), sm)
    {
      ghost var m0 := MergedValue();
      ret, sm := Handle(line, eof, parse, codec, shouldMerge);
      ScanTurn(src, at, line, eof, parse, codec, m0, shouldMerge, next, MergedValue(), ret, sm);
    }

    /** `Recv`: the loop over the lines, ending as `RecvSpec` states. */
    method Recv(parse: string -> Result<Chunk, GoError>, codec: GM.ArgumentCodec) returns (o: GS.Outcome)
      requires pos <= |src.lines| + 1
      modifies this, merged
      ensures var e := RecvSpec(src, old(pos), parse, codec, old(MergedValue()));
        o == e.outcome && pos == e.pos && MergedValue() == e.merged
    {
      var shouldMerge := false;
      ghost var spec := RecvSpec(src, pos, parse, codec, MergedValue());
      while true
        invariant pos <= |src.lines| + 1
        invariant merged != null ==> merged == old(merged) || fresh(merged)
        invariant Scan(src, pos, parse, codec, MergedValue(), shouldMerge) == spec
        decreases |src.lines| + 1 - pos
      {
        var ret, sm := Step(parse, codec, shouldMerge);
        ghost var mv := MergedValue();
        if ret.Some? {
          assert spec == RecvEnd(ret.value, pos, mv);
          return ret.value;
        }
        assert spec == Scan(src, pos, parse, codec, mv, sm);
        shouldMerge := sm;
      }
    }
  }
}
