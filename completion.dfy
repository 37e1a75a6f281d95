/** The sequential steps of the conversation service's chat completion:
    choosing the model of each attempt, the initial payloads, the retry
    counters around the attempts, and the payloads after a function call. */
module ConvCompletion {
  import opened Common
  import opened GoValue
  import opened ChatV2
  import CS = ConvSearch

  /** `findLastUserMessage`: the position of the last payload with role
      "user", if there is one. */
  function FindLastUserMessage(payloads: seq<ChatPayload>): (r: Option<nat>)
    ensures r.Some? ==> (r.value < |payloads| && payloads[r.value].role == "user" &&
      forall j :: r.value < j < |payloads| ==> payloads[j].role != "user")
    ensures r.None? <==> forall j :: 0 <= j < |payloads| ==> payloads[j].role != "user"
  {
    if |payloads| == 0 then None
    else if payloads[|payloads| - 1].role == "user" then Some(|payloads| - 1)
    else FindLastUserMessage(payloads[..|payloads| - 1])
  }

  /** The model list used when UPSTAGE_LLM_MODEL is not set. */
  const DefaultModelList := "upstage,2"

  /** `chat.GetModels`: the configured list split on ",". */
  function GetModels(configured: Option<string>): (r: seq<string>)
    ensures |r| >= 1
  {
    Split(if configured.Some? then configured.value else DefaultModelList, ',')
  }

  /** `model.CompletionLLM`. */
  datatype CompletionLLM = CompletionLLM(provider: string, modelName: string, maxFallbackCount: int)

  const AllFallbackFailed := Error("all fallback failed")
  const IndexOutOfRange := Panic("index out of range")

  /** The error `strconv.Atoi` reports: a number beyond 64 bits is out of
      range, any other refused text is invalid syntax. */
  function ParseMaxError(s: string): GoError
  {
    var reason := if DecimalInt(s).Some? then "value out of range" else "invalid syntax";
    Error("error parsing maxFallbackCount: strconv.Atoi: parsing \"" + s + "\": " + reason)
  }

  /** The maximum number of tries of an entry "provider/model[/max]": 3
      unless a third part is given. */
  function MaxFallback(parts: seq<string>): Result<int, GoError>
  {
    if |parts| > 2 then
      match Atoi(parts[2])
      case None => Err(ParseMaxError(parts[2]))
      case Some(n) => Ok(n)
    else Ok(3)
  }

  /** `GetCompletionLLM` as written: an entry without "/" has no second
      part, and indexing it panics. */
  function GetCompletionLLMAsWritten(models: seq<string>, modelIndex: int): Result<CompletionLLM, GoError>
  {
    if modelIndex >= |models| then Err(AllFallbackFailed)
    else if modelIndex < 0 then Err(IndexOutOfRange)
    else
      var parts := Split(models[modelIndex], '/');
      if |parts| < 2 then Err(IndexOutOfRange)
      else match MaxFallback(parts)
        case Err(e) => Err(e)
        case Ok(max) => Ok(CompletionLLM(parts[0], parts[1], max))
  }

  function InvalidModelEntry(entry: string): GoError
  {
    Error("invalid model entry: " + entry)
  }

  /** `GetCompletionLLM` with an entry lacking "/" reported as an error. */
  function GetCompletionLLM(models: seq<string>, modelIndex: int): (r: Result<CompletionLLM, GoError>)
    ensures r.Ok? ==> 0 <= modelIndex < |models|
    ensures r.Err? ==> !r.error.Panic?
  {
    if modelIndex >= |models| then Err(AllFallbackFailed)
    else if modelIndex < 0 then Err(InvalidModelEntry(""))
    else
      var parts := Split(models[modelIndex], '/');
      if |parts| < 2 then Err(InvalidModelEntry(models[modelIndex]))
      else match MaxFallback(parts)
        case Err(e) => Err(e)
        case Ok(max) => Ok(CompletionLLM(parts[0], parts[1], max))
  }

  /** What an entry selects: provider and model are its first two "/"
      parts, the maximum its third when present; the list's end is "all
      fallback failed". */
  lemma GetCompletionLLMOutcomes(models: seq<string>, modelIndex: nat)
    ensures modelIndex >= |models| ==> GetCompletionLLM(models, modelIndex) == Err(AllFallbackFailed)
    ensures modelIndex < |models| && !HasChar(models[modelIndex], '/') ==>
      GetCompletionLLM(models, modelIndex) == Err(InvalidModelEntry(models[modelIndex]))
    ensures modelIndex < |models| && GetCompletionLLM(models, modelIndex).Ok? ==>
      var llm := GetCompletionLLM(models, modelIndex).value;
      var parts := Split(models[modelIndex], '/');
      |parts| >= 2 && llm.provider == parts[0] && llm.modelName == parts[1] &&
      llm.provider + "/" + llm.modelName <= models[modelIndex] &&
      (|parts| == 2 ==> llm.maxFallbackCount == 3) &&
      (|parts| > 2 ==> Atoi(parts[2]) == Some(llm.maxFallbackCount))
    ensures (modelIndex < |models| && |Split(models[modelIndex], '/')| > 2 &&
      Atoi(Split(models[modelIndex], '/')[2]).None?) ==>
      GetCompletionLLM(models, modelIndex) == Err(ParseMaxError(Split(models[modelIndex], '/')[2]))
    ensures GetCompletionLLMAsWritten(models, modelIndex).Ok? <==> GetCompletionLLM(models, modelIndex).Ok?
    ensures GetCompletionLLMAsWritten(models, modelIndex).Ok? ==>
      GetCompletionLLMAsWritten(models, modelIndex) == GetCompletionLLM(models, modelIndex)
  {
    if modelIndex < |models| {
      var parts := Split(models[modelIndex], '/');
      if |parts| >= 2 {
        JoinPrefix(parts, "/");
      }
    }
  }

  /** With UPSTAGE_LLM_MODEL unset, the first entry of the default list is
      "upstage", which has no "/": the first attempt panics. */
  lemma AsWrittenDefaultModelsPanic()
    ensures GetModels(None) == ["upstage", "2"]
    ensures GetCompletionLLMAsWritten(GetModels(None), 0) == Err(IndexOutOfRange)
    ensures GetCompletionLLM(GetModels(None), 0) == Err(InvalidModelEntry("upstage"))
  {
    assert DefaultModelList == "upstage" + [','] + "2";
    SplitOnce("upstage", "2", ',');
    assert !HasChar("upstage", '/');
  }

  /** `createInitialPayloads`: the chat prompt for the current time as a
      system payload in front of the caller's payloads. The current time
      arrives formatted, or as the error of reading the clock. When the
      first model entry is exactly "upstage" the system payload carries an
      empty name, an empty function call and an empty tool-call list. */
  function CreateInitialPayloads(now: Result<string, GoError>, chatPrompt: string -> string,
                                 models: seq<string>, payloads: seq<ChatPayload>): (r: Result<seq<ChatPayload>, GoError>)
    requires |models| >= 1
    ensures now.Err? ==> r == Err(now.error)
    ensures now.Ok? ==> (r.Ok? && |r.value| == |payloads| + 1 && r.value[1..] == payloads &&
      r.value[0].role == "system" && r.value[0].content == chatPrompt(now.value) &&
      (models[0] == "upstage" <==> r.value[0].name == Some("")) &&
      (models[0] == "upstage" ==> (r.value[0].functionCall == Some(ChatFunction("", "")) &&
        r.value[0].toolCalls == Some([]))))
  {
    match now
    case Err(e) => Err(e)
    case Ok(t) =>
      var system := Message("system", chatPrompt(t));
      var system := if models[0] == "upstage"
        then system.(name := Some(""), functionCall := Some(ChatFunction("", "")), toolCalls := Some([]))
        else system;
      Ok([system] + payloads)
  }

  const RateLimited := "status code: 429"

  /** The counters of the retry loop and the outcome of the last attempt. */
  datatype FallbackState = FallbackState(fallbackCount: int, modelIndex: int, keyIndex: int,
                                         loopError: Option<GoError>, llm: Option<CompletionLLM>)

  const Initial := FallbackState(0, 0, 0, None, None)

  /** What one pass of the loop decides: stop with an error, move to the
      next model, or make an attempt with a model and key index. */
  datatype Turn =
    | Stop(error: GoError)
    | Skip(next: FallbackState)
    | Attempt(llm: CompletionLLM, keyIndex: int, next: FallbackState)

  /** The key index after a failed attempt: a rate limit on azure moves to
      the next key while there is one to move to. */
  function NextKey(st: FallbackState, keyCount: nat): int
  {
    if st.loopError.Some? && Contains(st.loopError.value.msg, RateLimited) && st.keyIndex < keyCount &&
       st.llm.Some? && st.llm.value.provider == "azure"
    then st.keyIndex + 1 else st.keyIndex
  }

  /** One pass of the loop, with `keyCount` the number of "," entries of
      the azure key map. */
  function Step(models: seq<string>, keyCount: nat, st: FallbackState): Turn
  {
    var count := st.fallbackCount + 1;
    if st.loopError == Some(CS.SearchFunctionFailed) then Stop(CS.SearchFunctionFailed)
    else
      var key := NextKey(st, keyCount);
      match GetCompletionLLM(models, st.modelIndex)
      case Err(e) => Stop(e)
      case Ok(llm) =>
        if count > llm.maxFallbackCount then Skip(FallbackState(0, st.modelIndex + 1, 0, None, Some(llm)))
        else Attempt(llm, key, FallbackState(count, st.modelIndex, key, None, Some(llm)))
  }

  /** What a pass does to the counters: a failed search stops the loop;
      a model is tried until its count exceeds its maximum, and then the
      next model starts with fresh counters; a rate limit on azure
      advances the key while keys remain. */
  lemma StepCounters(models: seq<string>, keyCount: nat, st: FallbackState)
    ensures st.loopError == Some(CS.SearchFunctionFailed) ==> Step(models, keyCount, st) == Stop(CS.SearchFunctionFailed)
    ensures Step(models, keyCount, st).Skip? ==>
      var next := Step(models, keyCount, st).next;
      next.fallbackCount == 0 && next.keyIndex == 0 && next.modelIndex == st.modelIndex + 1 &&
      st.fallbackCount + 1 > GetCompletionLLM(models, st.modelIndex).value.maxFallbackCount
    ensures Step(models, keyCount, st).Attempt? ==>
      var t := Step(models, keyCount, st);
      t.next.fallbackCount == st.fallbackCount + 1 && t.next.modelIndex == st.modelIndex &&
      t.llm == GetCompletionLLM(models, st.modelIndex).value &&
      t.next.fallbackCount <= t.llm.maxFallbackCount && t.next.keyIndex == t.keyIndex
    ensures (Step(models, keyCount, st).Attempt? && st.loopError.Some? && Contains(st.loopError.value.msg, RateLimited) &&
      st.keyIndex < keyCount && st.llm.Some? && st.llm.value.provider == "azure") ==>
      Step(models, keyCount, st).keyIndex == st.keyIndex + 1
    ensures Step(models, keyCount, st).Attempt? && !(st.loopError.Some? && Contains(st.loopError.value.msg, RateLimited)) ==>
      Step(models, keyCount, st).keyIndex == st.keyIndex
    ensures Step(models, keyCount, st).Stop? && st.loopError != Some(CS.SearchFunctionFailed) ==>
      GetCompletionLLM(models, st.modelIndex).Err?
  {
  }

  /** How the loop ends: an attempt that completes, or an error. */
  datatype LoopEnd = Completed(llm: CompletionLLM, keyIndex: int) | Aborted(error: GoError)

  /** Tries left with the current model. */
  function Budget(models: seq<string>, st: FallbackState): int
  {
    match GetCompletionLLM(models, st.modelIndex)
    case Ok(llm) => llm.maxFallbackCount - st.fallbackCount
    case Err(_) => 0
  }

  /** How one streaming pass ends: the completion finished, the pass
      failed with an error that the next pass looks at, or the request's
      context was cancelled, which sends its error and leaves the loop. */
  datatype AttemptOutcome = Finished | Failed(error: GoError) | Cancelled(error: GoError)

  /** The whole retry loop, with `attempt` answering for a model and key
      index how the pass ended. It terminates: every pass moves to a later
      model or uses up one try of the current one. */
  function Run(models: seq<string>, keyCount: nat, st: FallbackState,
               attempt: (CompletionLLM, int) -> AttemptOutcome): LoopEnd
    decreases |models| - st.modelIndex, Budget(models, st)
  {
    match Step(models, keyCount, st)
    case Stop(e) => Aborted(e)
    case Skip(next) => Run(models, keyCount, next, attempt)
    case Attempt(llm, key, next) =>
      match attempt(llm, key)
      case Finished => Completed(llm, key)
      case Cancelled(e) => Aborted(e)
      case Failed(e) => Run(models, keyCount, next.(loopError := Some(e)), attempt)
  }

  /** A cancelled pass ends the loop with the context's error: no other
      model or key is tried after it. */
  lemma CancelEndsRun(models: seq<string>, keyCount: nat, st: FallbackState,
                      attempt: (CompletionLLM, int) -> AttemptOutcome)
    requires Step(models, keyCount, st).Attempt?
    requires attempt(Step(models, keyCount, st).llm, Step(models, keyCount, st).keyIndex).Cancelled?
    ensures Run(models, keyCount, st, attempt) ==
      Aborted(attempt(Step(models, keyCount, st).llm, Step(models, keyCount, st).keyIndex).error)
  {
  }

  /** The attempt count stays within the maximum of the current model,
      and the loop only ever completes with a listed model. */
  lemma {:induction false} RunCompletesWithListedModel(models: seq<string>, keyCount: nat, st: FallbackState,
                                                       attempt: (CompletionLLM, int) -> AttemptOutcome)
    ensures Run(models, keyCount, st, attempt).Completed? ==>
      exists i :: 0 <= i < |models| && GetCompletionLLM(models, i) == Ok(Run(models, keyCount, st, attempt).llm)
    decreases |models| - st.modelIndex, Budget(models, st)
  {
    match Step(models, keyCount, st)
    case Stop(e) =>
    case Skip(next) => RunCompletesWithListedModel(models, keyCount, next, attempt);
    case Attempt(llm, key, next) =>
      match attempt(llm, key)
      case Finished =>
        assert GetCompletionLLM(models, st.modelIndex) == Ok(llm);
      case Cancelled(e) =>
      case Failed(e) => RunCompletesWithListedModel(models, keyCount, next.(loopError := Some(e)), attempt);
  }

  /** The retry loop: the counters are updated in place, a skipped model
      goes straight to the next pass. */
  method FallbackLoop(models: seq<string>, keyCount: nat, attempt: (CompletionLLM, int) -> AttemptOutcome)
    returns (r: LoopEnd)
    ensures r == Run(models, keyCount, Initial, attempt)
  {
    var fallbackCount := 0;
    var modelIndex := 0;
    var keyIndex := 0;
    var loopError: Option<GoError> := None;
    var completionLLM: Option<CompletionLLM> := None;
    while true
      invariant Run(models, keyCount, FallbackState(fallbackCount, modelIndex, keyIndex, loopError, completionLLM), attempt) ==
        Run(models, keyCount, Initial, attempt)
      decreases |models| - modelIndex, Budget(models, FallbackState(fallbackCount, modelIndex, keyIndex, loopError, completionLLM))
    {
      var st := FallbackState(fallbackCount, modelIndex, keyIndex, loopError, completionLLM);
      ghost var spec := Run(models, keyCount, st, attempt);
      ghost var t := Step(models, keyCount, st);
      fallbackCount := fallbackCount + 1;
      if loopError == Some(CS.SearchFunctionFailed) {
        assert t == Stop(CS.SearchFunctionFailed);
        return Aborted(CS.SearchFunctionFailed);
      }
      keyIndex := NextKey(st, keyCount);
      loopError := None;
      var llm := GetCompletionLLM(models, modelIndex);
      if llm.Err? {
        assert t == Stop(llm.error);
        return Aborted(llm.error);
      }
      completionLLM := Some(llm.value);
      if fallbackCount > llm.value.maxFallbackCount {
        modelIndex := modelIndex + 1;
        keyIndex := 0;
        fallbackCount := 0;
        assert t == Skip(FallbackState(fallbackCount, modelIndex, keyIndex, loopError, completionLLM));
        assert spec == Run(models, keyCount, t.next, attempt);
        continue;
      }
      assert t == Attempt(llm.value, keyIndex, FallbackState(fallbackCount, modelIndex, keyIndex, None, completionLLM));
      var outcome := attempt(llm.value, keyIndex);
      if outcome.Finished? {
        return Completed(llm.value, keyIndex);
      }
      if outcome.Cancelled? {
        return Aborted(outcome.error);
      }
      loopError := Some(outcome.error);
      assert spec == Run(models, keyCount, t.next.(loopError := loopError), attempt);
    }
  }

  const FirstNotSystem := Error("first payload should be system")

  /** A stored result of an earlier search: named "search", from the
      function or the assistant role. */
  predicate IsSearchResult(p: ChatPayload) {
    p.name == Some("search") && (p.role == "function" || p.role == "assistant")
  }

  /** The payloads without earlier search results, in order. */
  function PruneSearch(payloads: seq<ChatPayload>): (r: seq<ChatPayload>)
    ensures |r| <= |payloads|
  {
    if |payloads| == 0 then []
    else (if IsSearchResult(payloads[0]) then [] else [payloads[0]]) + PruneSearch(payloads[1..])
  }

  /** Pruning keeps exactly the payloads that are not search results. */
  lemma {:induction false} PruneSearchKeeps(payloads: seq<ChatPayload>)
    ensures forall p :: p in PruneSearch(payloads) <==> p in payloads && !IsSearchResult(p)
    ensures (forall p :: p in payloads ==> !IsSearchResult(p)) ==> PruneSearch(payloads) == payloads
    decreases |payloads|
  {
    if |payloads| > 0 {
      PruneSearchKeeps(payloads[1..]);
      assert payloads == [payloads[0]] + payloads[1..];
    }
  }

  /** The pruning loop: a search result is deleted where it stands and
      the same position is looked at again. */
  method RemovePastSearchPayloads(payloads: seq<ChatPayload>) returns (r: seq<ChatPayload>)
    ensures r == PruneSearch(payloads)
  {
    r := payloads;
    var i := 0;
    while i < |r|
      invariant 0 <= i <= |r|
      invariant r[..i] + PruneSearch(r[i..]) == PruneSearch(payloads)
      decreases |r| - i
    {
      if r[i].name.None? {
        PruneKeepStep(r, i);
        i := i + 1;
        continue;
      }
      if IsSearchResult(r[i]) {
        PruneDropStep(r, i);
        r := r[..i] + r[i + 1..];
      } else {
        PruneKeepStep(r, i);
        i := i + 1;
      }
    }
    assert r[i..] == [];
  }

  /** A payload that is no search result moves into the kept prefix. */
  lemma PruneKeepStep(r: seq<ChatPayload>, i: nat)
    requires i < |r| && !IsSearchResult(r[i])
    ensures r[..i] + PruneSearch(r[i..]) == r[..i + 1] + PruneSearch(r[i + 1..])
  {
    assert r[i..][1..] == r[i + 1..];
    assert PruneSearch(r[i..]) == [r[i]] + PruneSearch(r[i + 1..]);
    assert r[..i + 1] == r[..i] + [r[i]];
  }

  /** A search result is deleted where it stands. */
  lemma PruneDropStep(r: seq<ChatPayload>, i: nat)
    requires i < |r| && IsSearchResult(r[i])
    ensures var r' := r[..i] + r[i + 1..];
      r[..i] + PruneSearch(r[i..]) == r'[..i] + PruneSearch(r'[i..])
  {
    var r' := r[..i] + r[i + 1..];
    assert r[i..][1..] == r[i + 1..];
    assert PruneSearch(r[i..]) == PruneSearch(r[i + 1..]);
    assert r'[..i] == r[..i] && r'[i..] == r[i + 1..];
  }

  /** The role of a function result: "function" for openai, "assistant"
      for upstage, empty for any other provider. */
  function ResultRole(provider: string): string
  {
    if provider == "openai" then "function" else if provider == "upstage" then "assistant" else ""
  }

  /** The content sent back: the re-encoded references after a search
      whose answer decoded, the function's answer otherwise. */
  function ResultContent(call: ChatFunction, result: string, references: Option<string>): string
  {
    if call.name == "search" && references.Some? then references.value else result
  }

  /** The payloads for the next pass after a function call. `result` is
      what the function answered; `references` is, for a search whose
      answer decoded, the re-encoded numbered references, and then earlier
      search results are pruned. The call and its result are appended and
      the system payload is replaced by the after-call prompt. */
  function AfterFunctionCall(payloads: seq<ChatPayload>, provider: string, call: ChatFunction, result: string,
                             references: Option<string>, afterPrompt: string): (r: Result<seq<ChatPayload>, GoError>)
  {
    var searched := call.name == "search" && references.Some?;
    var kept := if searched then PruneSearch(payloads) else payloads;
    var next := kept + [ChatPayload("assistant", "", None, Some(call), None, ""),
                        ChatPayload(ResultRole(provider), ResultContent(call, result, references), Some(call.name), None, None, "")];
    if next[0].role == "system" then Ok([Message("system", afterPrompt)] + next[1..])
    else Err(FirstNotSystem)
  }

  /** After a call the history ends with the call and its result, keeps
      everything else in order (minus earlier search results after a
      search), and starts with the after-call system prompt; without a
      system payload in front the pass fails. */
  lemma AfterFunctionCallShape(payloads: seq<ChatPayload>, provider: string, call: ChatFunction, result: string,
                               references: Option<string>, afterPrompt: string)
    ensures var r := AfterFunctionCall(payloads, provider, call, result, references, afterPrompt);
      var kept := if call.name == "search" && references.Some? then PruneSearch(payloads) else payloads;
      (r.Ok? <==> |kept| > 0 && kept[0].role == "system") &&
      (r.Ok? ==> (|r.value| == |kept| + 2 && r.value[0] == Message("system", afterPrompt) &&
        r.value[1..|kept|] == kept[1..] &&
        r.value[|kept|].functionCall == Some(call) && r.value[|kept|].role == "assistant" &&
        r.value[|kept| + 1].role == ResultRole(provider) && r.value[|kept| + 1].name == Some(call.name) &&
        (call.name == "search" && references.Some? ==>
          (r.value[|kept| + 1].content == references.value &&
          forall p :: p in r.value[1..|kept|] ==> !IsSearchResult(p))) &&
        (!(call.name == "search" && references.Some?) ==> r.value[|kept| + 1].content == result)))
  {
    var searched := call.name == "search" && references.Some?;
    var kept := if searched then PruneSearch(payloads) else payloads;
    var r := AfterFunctionCall(payloads, provider, call, result, references, afterPrompt);
    if searched {
      PruneSearchKeeps(payloads);
    }
    if r.Ok? {
      var call', answer := ChatPayload("assistant", "", None, Some(call), None, ""),
        ChatPayload(ResultRole(provider), ResultContent(call, result, references), Some(call.name), None, None, "");
      assert |kept| > 0;
      AppendedShape(kept, call', answer, Message("system", afterPrompt));
      if searched {
        forall p | p in r.value[1..|kept|] ensures !IsSearchResult(p) {
          assert p in kept[1..];
        }
      }
    }
  }

  /** The front payload replaced and two payloads appended: the rest kept
      in place between them. */
  lemma AppendedShape(kept: seq<ChatPayload>, a: ChatPayload, b: ChatPayload, front: ChatPayload)
    requires |kept| > 0
    ensures var next := kept + [a, b];
      var r := [front] + next[1..];
      |r| == |kept| + 2 && r[0] == front && r[1..|kept|] == kept[1..] && r[|kept|] == a && r[|kept| + 1] == b
  {
    var next := kept + [a, b];
    assert next[1..] == kept[1..] + [a, b];
  }

  /** The error the function call ended in and the content sent back, as
      written: the error of `CallFunction` is dropped, so the loop never
      sees it and the model gets an empty result. */
  function CallOutcomeAsWritten(call: Result<string, GoError>): (Option<GoError>, string)
  {
    (None, if call.Ok? then call.value else "")
  }

  /** The error of `CallFunction` kept as the loop's error. */
  function CallOutcome(call: Result<string, GoError>): (Option<GoError>, string)
  {
    if call.Ok? then (None, call.value) else (Some(call.error), "")
  }

  /** As written, a failed search never reaches the check at the top of
      the loop; with the error kept, the next pass stops on it. */
  lemma AsWrittenSearchFailureIgnored(models: seq<string>, keyCount: nat, st: FallbackState)
    ensures CallOutcomeAsWritten(Err(CS.SearchFunctionFailed)).0 == None
    ensures Step(models, keyCount, st.(loopError := CallOutcome(Err(CS.SearchFunctionFailed)).0)) ==
      Stop(CS.SearchFunctionFailed)
    ensures st.loopError == None ==> Step(models, keyCount, st) != Stop(CS.SearchFunctionFailed)
  {
    if st.loopError == None {
      var r := GetCompletionLLM(models, st.modelIndex);
      if r.Err? {
        var mi := st.modelIndex;
        if mi >= |models| {
        } else if mi < 0 {
          assert r.error.msg == "invalid model entry: ";
        } else {
          var parts := Split(models[mi], '/');
          if |parts| < 2 {
            assert r.error.msg[0] == 'i';
          } else {
            assert r.error == ParseMaxError(parts[2]);
            assert |r.error.msg| > |CS.SearchFunctionFailed.msg|;
          }
        }
      }
    }
  }

  // ------------------------------------------------------------ receive loop

  /** What one turn of the receive loop sees: the context already cancelled,
      or what `stream.Recv` returned. A chunk carries the content it sends,
      or None when it holds a function or tool call and sends nothing. */
  datatype RecvStep = CtxDone(err: GoError) | Chunk(content: Option<string>) | RecvEof | RecvErr(err: GoError)

  /** How the receive loop of one pass ends: cancelled (the context error is
      sent and the goroutine returns), left with the contents sent and the
      loop error, or still running when the given turns run out. */
  datatype RecvEnd =
    | RecvCancelled(err: GoError, sent: seq<string>)
    | RecvLeft(sent: seq<string>, loopError: Option<GoError>)
    | RecvRunsOn(sent: seq<string>, loopError: Option<GoError>)

  /** The contents the chunks among the turns send, in order. */
  function Sent(steps: seq<RecvStep>): seq<string> {
    if |steps| == 0 then []
    else (if steps[0].Chunk? && steps[0].content.Some? then [steps[0].content.value] else []) + Sent(steps[1..])
  }

  /** The receive loop as written: the `break` after a receive error leaves
      only the `select`, so the loop goes on receiving. */
  function ReceiveAsWritten(steps: seq<RecvStep>, i: nat, sent: seq<string>, loopError: Option<GoError>): RecvEnd
    requires i <= |steps|
    decreases |steps| - i
  {
    if i == |steps| then RecvRunsOn(sent, loopError)
    else match steps[i]
      case CtxDone(e) => RecvCancelled(e, sent)
      case RecvEof => RecvLeft(sent, loopError)
      case RecvErr(e) => ReceiveAsWritten(steps, i + 1, sent, Some(e))
      case Chunk(c) => ReceiveAsWritten(steps, i + 1, sent + (if c.Some? then [c.value] else []), loopError)
  }

  /** The receive loop as evidently intended: a receive error leaves the loop
      with that error, so the check after the loop ends the pass. */
  function Receive(steps: seq<RecvStep>, i: nat, sent: seq<string>): RecvEnd
    requires i <= |steps|
    decreases |steps| - i
  {
    if i == |steps| then RecvRunsOn(sent, None)
    else match steps[i]
      case CtxDone(e) => RecvCancelled(e, sent)
      case RecvEof => RecvLeft(sent, None)
      case RecvErr(e) => RecvLeft(sent, Some(e))
      case Chunk(c) => Receive(steps, i + 1, sent + (if c.Some? then [c.value] else []))
  }

  /** The outcome of the pass once the receive loop has ended, where the
      loop alone decides it: a cancellation, or the loop error checked right
      after the loop. A clean end goes on to the finish reason, which is not
      modelled here. */
  function PassOutcome(end: RecvEnd): Option<AttemptOutcome> {
    match end
    case RecvCancelled(e, _) => Some(Cancelled(e))
    case RecvLeft(_, le) => if le.Some? then Some(Failed(le.value)) else None
    case RecvRunsOn(_, _) => None
  }

  /** As written, a receive error does not end the loop: a chunk after it is
      still sent, and a cancellation after it hides it, so the pass is
      reported cancelled and the retry loop gives up instead of moving on. */
  lemma ReceiveAsWrittenRunsOn(e: GoError, c: GoError)
    ensures ReceiveAsWritten([RecvErr(e), Chunk(Some("x")), RecvEof], 0, [], None) == RecvLeft(["x"], Some(e))
    ensures PassOutcome(ReceiveAsWritten([RecvErr(e), CtxDone(c)], 0, [], None)) == Some(Cancelled(c))
    ensures PassOutcome(Receive([RecvErr(e), CtxDone(c)], 0, [])) == Some(Failed(e))
  {
    var steps := [RecvErr(e), Chunk(Some("x")), RecvEof];
    assert ReceiveAsWritten(steps, 2, ["x"], Some(e)) == RecvLeft(["x"], Some(e));
    assert [] + ["x"] == ["x"];
    assert ReceiveAsWritten(steps, 1, [], Some(e)) == ReceiveAsWritten(steps, 2, ["x"], Some(e));
  }

  /** The intended loop stops at the first turn that is not a chunk, having
      sent exactly the contents of the chunks before it: a receive error
      there fails the pass with that error, a cancellation cancels it. */
  lemma {:induction false} ReceiveStopsAtFirst(steps: seq<RecvStep>, i: nat, k: nat, sent: seq<string>)
    requires i <= k < |steps| && !steps[k].Chunk?
    requires forall j :: i <= j < k ==> steps[j].Chunk?
    ensures Receive(steps, i, sent) ==
      match steps[k]
      case CtxDone(e) => RecvCancelled(e, sent + Sent(steps[i..k]))
      case RecvEof => RecvLeft(sent + Sent(steps[i..k]), None)
      case RecvErr(e) => RecvLeft(sent + Sent(steps[i..k]), Some(e))
      case Chunk(_) => RecvRunsOn([], None)
    ensures steps[k].RecvErr? ==> PassOutcome(Receive(steps, i, sent)) == Some(Failed(steps[k].err))
    ensures steps[k].CtxDone? ==> PassOutcome(Receive(steps, i, sent)) == Some(Cancelled(steps[k].err))
    decreases k - i
  {
    if i == k {
      assert steps[i..k] == [];
      assert sent + [] == sent;
    } else {
      ReceiveStopsAtFirst(steps, i + 1, k, sent + (if steps[i].content.Some? then [steps[i].content.value] else []));
      assert steps[i..k][0] == steps[i] && steps[i..k][1..] == steps[i + 1..k];
    }
  }
}
