/** The LLM client options and the conversation service's client factory:
    defaults chosen from the configured provider, functional options applied
    in order, and the per-provider clients whose forced options come last. */
module LlmClient {
  import opened Common
  import opened GoValue

  const OpenAIEndpoint := "https://api.openai.com/v1/chat/completions"
  const SolarEndpoint := "https://api.upstage.ai/v1/solar/chat/completions"

  /** `GPTAPIType`; the empty string when it is never set. */
  const ApiTypeOpenAI := "openai"
  const ApiTypeAzure := "azure"

  /** `chat.GptOptions`. */
  datatype GptOptions = GptOptions(endpoint: string, apiKey: string, models: seq<string>,
                                   streamable: bool, apiType: string)

  /** The functional options that set one field of `GptOptions`. */
  datatype Setter =
    | WithCustomEndpoint(url: string)
    | WithKey(key: string)
    | WithModels(models: seq<string>)
    | WithStreamEnabled
    | WithStreamDisabled
    | WithAPIType(apiType: string)

  /** The variables the factory reads from the environment; an unset
      variable reads as "". */
  datatype ClientEnv = ClientEnv(llmModel: string, openAIKey: string, solarKey: string, azureKeyMap: string)

  function Apply(o: GptOptions, s: Setter): GptOptions
  {
    match s
    case WithCustomEndpoint(url) => o.(endpoint := url)
    case WithKey(key) => o.(apiKey := key)
    case WithModels(models) => o.(models := models)
    case WithStreamEnabled => o.(streamable := true)
    case WithStreamDisabled => o.(streamable := false)
    case WithAPIType(t) => o.(apiType := t)
  }

  /** The options applied one after another, in the order given. */
  function ApplyAll(o: GptOptions, opts: seq<Setter>): GptOptions
    decreases |opts|
  {
    if |opts| == 0 then o else ApplyAll(Apply(o, opts[0]), opts[1..])
  }

  /** Applying a concatenation is applying its two parts in turn. */
  lemma {:induction false} ApplyAllAppend(o: GptOptions, a: seq<Setter>, b: seq<Setter>)
    ensures ApplyAll(o, a + b) == ApplyAll(ApplyAll(o, a), b)
    decreases |a|
  {
    if |a| > 0 {
      assert (a + b)[0] == a[0];
      assert (a + b)[1..] == a[1..] + b;
      ApplyAllAppend(Apply(o, a[0]), a[1..], b);
    } else {
      assert a + b == b;
    }
  }

  /** One more option is applied last. */
  lemma ApplyAllSnoc(o: GptOptions, opts: seq<Setter>, s: Setter)
    ensures ApplyAll(o, opts + [s]) == Apply(ApplyAll(o, opts), s)
  {
    ApplyAllAppend(o, opts, [s]);
    assert [s][1..] == [];
  }

  /** The nine chat model names known for the OpenAI provider. */
  const GptModels := ["gpt-4", "gpt-4-0314", "gpt-4-32k", "gpt-4-32k-0314", "gpt-4-0613",
                      "gpt-3.5-turbo", "gpt-3.5-turbo-0301", "gpt-3.5-turbo-0613", "gpt-3.5-turbo-1106"]

  const SolarModels := ["solar-mini"]

  /** `GetLLMOptions`: the configured model split on "/", with
      "upstage/solar-mini" when the variable is empty. */
  function LlmOptions(llmModel: string): (r: seq<string>)
    ensures |r| >= 1
    ensures llmModel == "" ==> r == Split("upstage/solar-mini", '/')
    ensures llmModel != "" ==> r == Split(llmModel, '/')
  {
    Split(if llmModel == "" then "upstage/solar-mini" else llmModel, '/')
  }

  /** The defaults before any option: chosen by the first segment of the
      configured model. */
  function DefaultOptions(llmModel: string): (r: GptOptions)
    ensures !r.streamable && r.apiKey == "" && r.apiType == ""
    ensures LlmOptions(llmModel)[0] == "openai" ==> r.endpoint == OpenAIEndpoint && r.models == GptModels
    ensures LlmOptions(llmModel)[0] == "upstage" ==> r.endpoint == SolarEndpoint && r.models == SolarModels
    ensures LlmOptions(llmModel)[0] !in {"openai", "upstage"} ==> r.endpoint == "" && r.models == []
  {
    var first := LlmOptions(llmModel)[0];
    if first == "openai" then GptOptions(OpenAIEndpoint, "", GptModels, false, "")
    else if first == "upstage" then GptOptions(SolarEndpoint, "", SolarModels, false, "")
    else GptOptions("", "", [], false, "")
  }

  /** `NewGptOptions`. */
  function NewGptOptions(llmModel: string, opts: seq<Setter>): GptOptions
  {
    ApplyAll(DefaultOptions(llmModel), opts)
  }

  /** With the variable unset, the defaults are the Solar ones. */
  lemma UnsetModelDefaultsToSolar()
    ensures DefaultOptions("") == GptOptions(SolarEndpoint, "", SolarModels, false, "")
  {
    assert Split("upstage/solar-mini", '/') == ["upstage", "solar-mini"] by {
      assert "upstage/solar-mini" == "upstage" + ['/'] + "solar-mini";
      SplitOnce("upstage", "solar-mini", '/');
    }
  }

  /** The client that `NewClient` builds; only its options are modelled. */
  datatype Client = Client(option: GptOptions)

  /** `NewOpenAIClient`: the caller's options, then the OpenAI endpoint,
      the OpenAI key, the single model and the openai API type. */
  function NewOpenAIClient(env: ClientEnv, model: string, opts: seq<Setter>): Client
  {
    Client(NewGptOptions(env.llmModel, opts + [WithCustomEndpoint(OpenAIEndpoint), WithKey(env.openAIKey),
                                               WithModels([model]), WithAPIType(ApiTypeOpenAI)]))
  }

  /** `NewSolarClient`: the caller's options, then the Solar endpoint, the
      Solar key and the single model; the API type is left to the caller. */
  function NewSolarClient(env: ClientEnv, model: string, opts: seq<Setter>): Client
  {
    Client(NewGptOptions(env.llmModel, opts + [WithCustomEndpoint(SolarEndpoint), WithKey(env.solarKey),
                                               WithModels([model])]))
  }

  const KeyMapNotSet := Error("endpoint key map is not in env")
  const KeyIndexOutOfRange := Error("azure key index is out of range")
  const IndexOutOfRange := Panic("index out of range")

  /** `NewAzureClient`: entry `keyIndex` of the comma-separated key map
      holds "endpoint;key". An entry without ";" makes the index of its
      second part panic. */
  function NewAzureClient(env: ClientEnv, model: string, keyIndex: int, opts: seq<Setter>): Result<Client, GoError>
  {
    if env.azureKeyMap == "" then Err(KeyMapNotSet)
    else
      var entries := Split(env.azureKeyMap, ',');
      if keyIndex >= |entries| then Err(KeyIndexOutOfRange)
      else if keyIndex < 0 then Err(IndexOutOfRange)
      else
        var parts := Split(entries[keyIndex], ';');
        if |parts| < 2 then Err(IndexOutOfRange)
        else Ok(Client(NewGptOptions(env.llmModel, opts + [WithCustomEndpoint(parts[0]), WithKey(parts[1]),
                                                           WithModels([model]), WithAPIType(ApiTypeAzure)])))
  }

  /** `NewClient`: the client of the named provider. */
  function NewClient(env: ClientEnv, provider: string, model: string, keyIndex: int, opts: seq<Setter>): (r: Result<Client, GoError>)
    ensures provider == "openai" ==> r == Ok(NewOpenAIClient(env, model, opts))
    ensures provider == "azure" ==> r == NewAzureClient(env, model, keyIndex, opts)
    ensures provider == "upstage" ==> r == Ok(NewSolarClient(env, model, opts))
    ensures provider !in {"openai", "azure", "upstage"} ==> r == Err(Error("invalid provider: " + provider))
  {
    if provider == "openai" then Ok(NewOpenAIClient(env, model, opts))
    else if provider == "azure" then NewAzureClient(env, model, keyIndex, opts)
    else if provider == "upstage" then Ok(NewSolarClient(env, model, opts))
    else Err(Error("invalid provider: " + provider))
  }

  /** Four options applied after a prefix. */
  lemma ApplyFour(o: GptOptions, opts: seq<Setter>, a: Setter, b: Setter, c: Setter, d: Setter)
    ensures ApplyAll(o, opts + [a, b, c, d]) == Apply(Apply(Apply(Apply(ApplyAll(o, opts), a), b), c), d)
  {
    ApplyThree(o, opts, a, b, c);
    ApplyAllSnoc(o, opts + [a, b, c], d);
    assert opts + [a, b, c] + [d] == opts + [a, b, c, d];
  }

  /** Three options applied after a prefix. */
  lemma ApplyThree(o: GptOptions, opts: seq<Setter>, a: Setter, b: Setter, c: Setter)
    ensures ApplyAll(o, opts + [a, b, c]) == Apply(Apply(Apply(ApplyAll(o, opts), a), b), c)
  {
    ApplyAllSnoc(o, opts, a);
    ApplyAllSnoc(o, opts + [a], b);
    ApplyAllSnoc(o, opts + [a] + [b], c);
    assert opts + [a] + [b] == opts + [a, b];
    assert opts + [a, b] + [c] == opts + [a, b, c];
  }

  /** Whatever the caller passes, the forced options decide endpoint, key,
      models and (except for Solar) the API type; streaming is the caller's. */
  lemma ForcedOptionsWin(env: ClientEnv, model: string, opts: seq<Setter>)
    ensures var o := NewOpenAIClient(env, model, opts).option;
      o.endpoint == OpenAIEndpoint && o.apiKey == env.openAIKey && o.models == [model] &&
      o.apiType == ApiTypeOpenAI && o.streamable == NewGptOptions(env.llmModel, opts).streamable
    ensures var o := NewSolarClient(env, model, opts).option;
      o.endpoint == SolarEndpoint && o.apiKey == env.solarKey && o.models == [model] &&
      o.apiType == NewGptOptions(env.llmModel, opts).apiType &&
      o.streamable == NewGptOptions(env.llmModel, opts).streamable
  {
    var base := DefaultOptions(env.llmModel);
    ApplyFour(base, opts, WithCustomEndpoint(OpenAIEndpoint), WithKey(env.openAIKey),
              WithModels([model]), WithAPIType(ApiTypeOpenAI));
    ApplyThree(base, opts, WithCustomEndpoint(SolarEndpoint), WithKey(env.solarKey), WithModels([model]));
  }

  /** The azure outcomes: the two range errors, the panic on an entry
      without ";", and otherwise endpoint and key from the entry. */
  lemma AzureOutcomes(env: ClientEnv, model: string, keyIndex: nat, opts: seq<Setter>)
    ensures env.azureKeyMap == "" ==> NewAzureClient(env, model, keyIndex, opts) == Err(KeyMapNotSet)
    ensures env.azureKeyMap != "" && keyIndex >= |Split(env.azureKeyMap, ',')| ==>
      NewAzureClient(env, model, keyIndex, opts) == Err(KeyIndexOutOfRange)
    ensures env.azureKeyMap != "" && keyIndex < |Split(env.azureKeyMap, ',')| ==>
      var entry := Split(env.azureKeyMap, ',')[keyIndex];
      (!HasChar(entry, ';') ==> NewAzureClient(env, model, keyIndex, opts) == Err(IndexOutOfRange)) &&
      (HasChar(entry, ';') ==> (NewAzureClient(env, model, keyIndex, opts).Ok? &&
        var o := NewAzureClient(env, model, keyIndex, opts).value.option;
        o.endpoint + [';'] + o.apiKey + (if |Split(entry, ';')| > 2 then ";" else "") <= entry &&
        o.models == [model] && o.apiType == ApiTypeAzure))
  {
    if env.azureKeyMap != "" && keyIndex < |Split(env.azureKeyMap, ',')| {
      var entry := Split(env.azureKeyMap, ',')[keyIndex];
      var parts := Split(entry, ';');
      if HasChar(entry, ';') {
        SplitHasTwo(entry, ';');
        ApplyFour(DefaultOptions(env.llmModel), opts, WithCustomEndpoint(parts[0]), WithKey(parts[1]),
                  WithModels([model]), WithAPIType(ApiTypeAzure));
        JoinPrefix(parts, [';']);
      }
    }
  }
}
