/** The PaLM chat client of the v2 chat package: a Vertex AI `predict`
    request built from chat messages and prediction options, and the first
    candidate of the first prediction read back as the reply. */
module Palm {
  import opened Common
  import opened GoValue
  import CV = ChatV2
  import GM = GptModel
  import LR = LineReader

  const GcpEndpoint := "us-central1-aiplatform.googleapis.com"

  /** `palmModels`: the models a client accepts unless told otherwise. */
  const PalmModels: seq<string> := ["chat-bison@001", "chat-bison@latest"]

  /** The `*http.Client` a client sends through. */
  datatype HttpClient = HttpClient(name: string)

  /** `PalmOptions`. */
  datatype PalmOptions = PalmOptions(endpoint: string, projectId: string, token: string, models: seq<string>)

  /** `NewPalmOptions` before any option is applied; each `With…` option
      is a record update of one field. */
  const DefaultPalmOptions := PalmOptions(GcpEndpoint, "", "", PalmModels)

  /** `PalmPredictionOptions`; a nil option is `None`. */
  datatype PredictionOptions = PredictionOptions(model: string, context: Option<string>,
                                                 temperature: Option<real>, maxOutputTokens: Option<int>,
                                                 topP: Option<real>, topK: Option<int>)

  /** `NewPalmPredictionOptions` before any option is applied. */
  const DefaultPredictionOptions := PredictionOptions("", None, None, None, None, None)

  /** `Palm`: the client and its options. */
  datatype Palm = Palm(client: HttpClient, option: PalmOptions)

  /** `validateModel`: whether the model is one of the client's models. */
  method ValidateModel(p: Palm, model: string) returns (r: bool)
    ensures r <==> model in p.option.models
  {
    var models := p.option.models;
    for i := 0 to |models|
      invariant model !in models[..i]
    {
      if models[i] == model {
        return true;
      }
    }
    return false;
  }

  /** `NewPalmModel`: a client, a project id, a token and at least one
      model are required, checked in that order. */
  function NewPalmModel(client: Option<HttpClient>, options: PalmOptions): (r: Result<Palm, GoError>)
    ensures r.Ok? <==> client.Some? && options.projectId != "" && options.token != "" && options.models != []
    ensures r.Ok? ==> r.value == Palm(client.value, options)
    ensures client.None? ==> r == Err(Error("client is required"))
    ensures client.Some? && options.projectId == "" ==> r == Err(Error("projectID is required"))
    ensures client.Some? && options.projectId != "" && options.token == "" ==> r == Err(Error("token is required"))
    ensures (client.Some? && options.projectId != "" && options.token != "" && options.models == [] ==>
      r == Err(Error("At least one model is required")))
  {
    if client.None? then Err(Error("client is required"))
    else if |options.projectId| == 0 then Err(Error("projectID is required"))
    else if |options.token| == 0 then Err(Error("token is required"))
    else if |options.models| == 0 then Err(Error("At least one model is required"))
    else Ok(Palm(client.value, options))
  }

  /** The default options with a project id and a token make a client. */
  lemma DefaultsMakeClient(client: HttpClient, projectId: string, token: string)
    requires projectId != "" && token != ""
    ensures NewPalmModel(Some(client), DefaultPalmOptions.(projectId := projectId, token := token)).Ok?
    ensures (NewPalmModel(Some(client), DefaultPalmOptions.(projectId := projectId, token := token)).value.option.models ==
      PalmModels)
  {
  }

  /** `VertexAIPalmMessagePayload`. */
  datatype MessagePayload = MessagePayload(author: string, content: string)

  /** `VertexAIPalmInstace`; no examples are ever sent, so the field is
      left out. */
  datatype Instance = Instance(context: string, messages: seq<MessagePayload>)

  /** `VertexAIPalmParameters`. */
  datatype Parameters = Parameters(temperature: Option<real>, maxOutputTokens: Option<int>,
                                   topP: Option<real>, topK: Option<int>)

  /** `VertexAIPalm`: the request body. */
  datatype Query = Query(instances: seq<Instance>, parameters: Parameters)

  /** The keys `json.Marshal` writes for the parameters: every field is
      `omitempty`, so an unset option is not written. */
  function ParameterKeys(p: Parameters): (r: seq<string>)
    ensures |r| <= 4
  {
    (if p.temperature.Some? then ["temperature"] else []) +
    (if p.maxOutputTokens.Some? then ["maxOutputTokens"] else []) +
    (if p.topP.Some? then ["topP"] else []) +
    (if p.topK.Some? then ["topK"] else [])
  }

  /** The keys written for an instance: `context` is `omitempty`, the
      always-empty examples are omitted, and `messages` is always
      written. */
  function InstanceKeys(i: Instance): (r: seq<string>)
    ensures |r| > 0 && r[|r| - 1] == "messages"
  {
    (if i.context != "" then ["context"] else []) + ["messages"]
  }

  /** `buildPlamParms`: each option that is set, and only those, is
      copied into the parameters. */
  function BuildParams(po: PredictionOptions): (r: Parameters)
    ensures r.temperature.Some? <==> po.temperature.Some?
    ensures r.maxOutputTokens.Some? <==> po.maxOutputTokens.Some?
    ensures r.topP.Some? <==> po.topP.Some?
    ensures r.topK.Some? <==> po.topK.Some?
  {
    var temperature := if po.temperature.Some? then Some(po.temperature.value) else None;
    var maxOutputTokens := if po.maxOutputTokens.Some? then Some(po.maxOutputTokens.value) else None;
    var topP := if po.topP.Some? then Some(po.topP.value) else None;
    var topK := if po.topK.Some? then Some(po.topK.value) else None;
    Parameters(temperature, maxOutputTokens, topP, topK)
  }

  /** The parameters carry each option's own value, and with no option
      set they are written as `{}`. */
  lemma ParametersFollowOptions(po: PredictionOptions)
    ensures BuildParams(po).temperature == po.temperature && BuildParams(po).maxOutputTokens == po.maxOutputTokens
    ensures BuildParams(po).topP == po.topP && BuildParams(po).topK == po.topK
    ensures (ParameterKeys(BuildParams(po)) == [] <==>
      po.temperature.None? && po.maxOutputTokens.None? && po.topP.None? && po.topK.None?)
  {
    var keys := ParameterKeys(BuildParams(po));
    if po.temperature.Some? {
      assert keys[0] == "temperature";
    } else if po.maxOutputTokens.Some? {
      assert keys[0] == "maxOutputTokens";
    } else if po.topP.Some? {
      assert keys[0] == "topP";
    } else if po.topK.Some? {
      assert keys[0] == "topK";
    }
  }

  /** The `predict` URL of a model. */
  function EndpointOf(option: PalmOptions, model: string): string {
    "https://" + option.endpoint + "/v1/projects/" + option.projectId +
    "/locations/us-central1/publishers/google/models/" + model + ":predict"
  }

  /** The context sent: the option's, or empty when unset. */
  function ContextOf(po: PredictionOptions): string {
    if po.context.Some? then po.context.value else ""
  }

  /** A query ready to be marshalled, and where it goes. */
  datatype PalmQuery = PalmQuery(endpoint: string, body: Query)

  /** The checks `Chat` makes before building anything: messages, then a
      model, then a model the client accepts. */
  function Admit(p: Palm, messages: seq<CV.ChatPayload>, po: PredictionOptions): (r: Option<GoError>)
    ensures r.None? <==> messages != [] && po.model != "" && po.model in p.option.models
  {
    if |messages| == 0 then Some(Error("messages is required"))
    else if |po.model| == 0 then Some(Error("model is required"))
    else if po.model !in p.option.models then Some(Error("invalid model"))
    else None
  }

  /** The messages as the model receives them: each role becomes an
      author, in order. */
  function Authored(messages: seq<CV.ChatPayload>): (r: seq<MessagePayload>)
    ensures |r| == |messages|
    ensures forall i :: 0 <= i < |messages| ==> r[i].author == messages[i].role && r[i].content == messages[i].content
  {
    seq(|messages|, i requires 0 <= i < |messages| => MessagePayload(messages[i].role, messages[i].content))
  }

  /** The query `Chat` builds: a refused call builds nothing; otherwise one
      instance carries the context and every message, and the parameters
      are the options that are set. */
  function QueryOf(p: Palm, messages: seq<CV.ChatPayload>, po: PredictionOptions): (r: Result<PalmQuery, GoError>)
    ensures Admit(p, messages, po).Some? ==> r == Err(Admit(p, messages, po).value)
    ensures Admit(p, messages, po).None? ==> r.Ok?
    ensures r.Ok? ==> r.value.endpoint == EndpointOf(p.option, po.model)
    ensures r.Ok? ==> r.value.body.parameters == BuildParams(po)
    ensures (r.Ok? ==> (|r.value.body.instances| == 1 && r.value.body.instances[0].context == ContextOf(po) &&
      r.value.body.instances[0].messages == Authored(messages)))
  {
    match Admit(p, messages, po)
    case Some(e) => Err(e)
    case None =>
      Ok(PalmQuery(EndpointOf(p.option, po.model), Query([Instance(ContextOf(po), Authored(messages))], BuildParams(po))))
  }

  /** The error-checking and query-building part of `Chat`, with its
      append loop over the messages. */
  method BuildQuery(p: Palm, messages: seq<CV.ChatPayload>, po: PredictionOptions) returns (r: Result<PalmQuery, GoError>)
    ensures r == QueryOf(p, messages, po)
  {
    if |messages| == 0 {
      return Err(Error("messages is required"));
    }
    if |po.model| == 0 {
      return Err(Error("model is required"));
    }
    var valid := ValidateModel(p, po.model);
    if !valid {
      return Err(Error("invalid model"));
    }
    var context := "";
    if po.context.Some? {
      context := po.context.value;
    }
    var endpoint := EndpointOf(p.option, po.model);
    var palmMessages: seq<MessagePayload> := [];
    for i := 0 to |messages|
      invariant palmMessages == Authored(messages[..i])
    {
      assert Authored(messages[..i + 1]) == Authored(messages[..i]) + [MessagePayload(messages[i].role, messages[i].content)];
      palmMessages := palmMessages + [MessagePayload(messages[i].role, messages[i].content)];
    }
    assert messages[..|messages|] == messages;
    var instance := Instance(context, palmMessages);
    return Ok(PalmQuery(endpoint, Query([instance], BuildParams(po))));
  }

  /** The context is written into the request exactly when it is set and
      not empty; the messages always are. */
  lemma ContextSentOnlyWhenSet(p: Palm, messages: seq<CV.ChatPayload>, po: PredictionOptions, q: PalmQuery)
    requires Admit(p, messages, po).None?
    requires |q.body.instances| == 1 && q.body.instances[0].context == ContextOf(po)
    ensures "messages" in InstanceKeys(q.body.instances[0])
    ensures "context" in InstanceKeys(q.body.instances[0]) <==> po.context.Some? && po.context.value != ""
  {
    var keys := InstanceKeys(q.body.instances[0]);
    assert keys[|keys| - 1] == "messages";
    if po.context.Some? && po.context.value != "" {
      assert keys[0] == "context";
    } else {
      assert keys == ["messages"];
    }
  }

  /** The request `Chat` sends. */
  datatype PalmRequest = PalmRequest(url: string, body: string, header: map<string, seq<string>>)

  /** `Chat` up to sending: the query, marshalled, posted to the model's
      endpoint with the token as a bearer authorization and the forwarded
      headers. */
  method NewChatRequest(p: Palm, messages: seq<CV.ChatPayload>, po: PredictionOptions,
                        incoming: Option<map<string, seq<string>>>,
                        marshal: Query -> Result<string, GoError>) returns (r: Result<PalmRequest, GoError>)
    ensures Admit(p, messages, po).Some? ==> r == Err(Admit(p, messages, po).value)
    ensures QueryOf(p, messages, po).Err? ==> r == Err(QueryOf(p, messages, po).error)
    ensures (QueryOf(p, messages, po).Ok? ==> var q := QueryOf(p, messages, po).value;
      (marshal(q.body).Err? ==> r == Err(marshal(q.body).error)) &&
      (marshal(q.body).Ok? ==> r.Ok? && r.value.url == q.endpoint && r.value.body == marshal(q.body).value))
    ensures (r.Ok? && incoming.None? ==>
      r.value.header == map[CV.Canonical("Authorization") := ["Bearer " + p.option.token]])
  {
    var q := BuildQuery(p, messages, po);
    if q.Err? {
      return Err(q.error);
    }
    var body := marshal(q.value.body);
    if body.Err? {
      return Err(body.error);
    }
    var header := new CV.Header(map[]);
    header.Set("Authorization", "Bearer " + p.option.token);
    CV.AddForwardHeadersFromIncomingContext(incoming, header);
    return Ok(PalmRequest(q.value.endpoint, body.value, header.fields));
  }

  /** `VertexAIPalmPredictions`, without the fields the client ignores. */
  datatype Prediction = Prediction(candidates: seq<MessagePayload>)

  /** `VertexAIPalmResponse`, without its metadata. */
  datatype PalmResponse = PalmResponse(predictions: seq<Prediction>)

  /** `Chat` after the request is sent: a status other than 200 is an
      error carrying the body; a reply without predictions, or whose first
      prediction has no candidates, is an error; otherwise the first
      candidate is the answer and the finish reason is "stop". A body of
      `null` leaves the response nil. */
  function ChatReply(reply: Result<LR.HttpReply, GoError>,
                     unmarshal: string -> Result<Option<PalmResponse>, GoError>): (r: Result<CV.ChatResponse, GoError>)
    ensures reply.Err? ==> r == Err(reply.error)
    ensures reply.Ok? && reply.value.body.Err? ==> r == Err(reply.value.body.error)
    ensures (reply.Ok? && reply.value.status != 200 && reply.value.body.Ok? ==>
      r == Err(Error("No 200 Response: " + reply.value.body.value)))
    ensures (r.Ok? <==> (reply.Ok? && reply.value.status == 200 && reply.value.body.Ok? &&
      var parsed := unmarshal(reply.value.body.value);
      parsed.Ok? && parsed.value.Some? && |parsed.value.value.predictions| > 0 &&
      |parsed.value.value.predictions[0].candidates| > 0))
    ensures (reply.Ok? && reply.value.status == 200 && reply.value.body.Ok? ==>
      var parsed := unmarshal(reply.value.body.value);
      (parsed.Err? ==> r == Err(parsed.error)) &&
      (parsed == Ok(None) ==> r == Err(NilDereference)) &&
      (parsed.Ok? && parsed.value.Some? && parsed.value.value.predictions == [] ==> r == Err(Error("No Predections"))) &&
      ((parsed.Ok? && parsed.value.Some? && |parsed.value.value.predictions| > 0 &&
        parsed.value.value.predictions[0].candidates == []) ==> r == Err(Error("No Candidates"))))
    ensures (r.Ok? ==> var first := unmarshal(reply.value.body.value).value.value.predictions[0].candidates[0];
      r.value == CV.ChatResponse(CV.Message(first.author, first.content), "stop", None, []))
  {
    match reply
    case Err(e) => Err(e)
    case Ok(rep) =>
      match rep.body
      case Err(e) => Err(e)
      case Ok(b) =>
        if rep.status != 200 then Err(Error("No 200 Response: " + b))
        else
          match unmarshal(b)
          case Err(e) => Err(e)
          case Ok(None) => Err(NilDereference)
          case Ok(Some(resp)) =>
            if |resp.predictions| == 0 then Err(Error("No Predections"))
            else if |resp.predictions[0].candidates| == 0 then Err(Error("No Candidates"))
            else
              var first := resp.predictions[0].candidates[0];
              Ok(CV.ChatResponse(CV.Message(first.author, first.content), "stop", None, []))
  }
}
