/** The event consumer's conversion of a QA event into a partial QA
    record and the flag saying whether the record is new. */
module EventModel {
  import opened Common
  import opened BackendModel

  /** The one kind of change an event carries (`pb.Event`'s oneof). */
  datatype EventBody =
    | QuestionCreated(chatId: string, sessionId: string, jobGroup: string, question: string)
    | AnswerUpdated(answer: string)
    | TokenCountUpdated(tokenCount: int)
    | ReferencesCreated(references: seq<Option<ProtoReference>>)
    | KeywordsCreated(keywords: seq<string>)
    | RelatedQueriesCreated(relatedQueries: seq<string>)

  /** `pb.Event`; a missing body or timestamp is `None`. */
  datatype Event = Event(qaId: string, body: Option<EventBody>, createdAt: Option<Timestamp>)

  /** `Query`: a partial QA and whether it creates the record. */
  datatype QueryValue = QueryValue(qa: QA, shouldCreate: bool)

  /** A wire reference the consumer accepts: present, with an id. */
  predicate Acceptable(reference: Option<ProtoReference>) {
    reference.Some? && reference.value.id != ""
  }

  /** `fromProtoReferenceToModelReference`: nil and an empty id are
      errors; otherwise the id and every attribute are copied, missing
      attributes reading as empty and a missing instant as the epoch. */
  function FromProtoReference(reference: Option<ProtoReference>): (r: Result<Reference, string>)
    ensures r.Ok? <==> Acceptable(reference)
    ensures reference.None? ==> r == Err("reference is nil")
    ensures reference.Some? && reference.value.id == "" ==> r == Err("reference id is empty")
    ensures r.Ok? ==> r.value.id == reference.value.id
  {
    match reference
    case None => Err("reference is nil")
    case Some(p) =>
      if p.id == "" then Err("reference id is empty")
      else
        var a := match p.attributes
          case None => ProtoAttributes("", "", None, "", "", "")
          case Some(a) => a;
        Ok(Reference(p.id, Attributes(a.newsId, a.title, AsTime(a.publishedAt), a.provider, a.byline, a.content)))
  }

  /** A reference sent over the wire comes back unchanged when its id is
      set. */
  lemma ReferenceRoundTrip(reference: Reference)
    requires reference.id != ""
    ensures FromProtoReference(Some(ToProto(reference))) == Ok(reference)
  {
    AsTimeTimestampOf(reference.attributes.publishedAt);
  }

  /** The references of a `ReferencesCreated` event, converted one by one
      in order; the first unacceptable one fails the whole list. */
  function FromProtoReferences(references: seq<Option<ProtoReference>>): (r: Result<seq<Reference>, string>)
    ensures r.Ok? <==> forall i :: 0 <= i < |references| ==> Acceptable(references[i])
    ensures r.Ok? ==> (|r.value| == |references| &&
                       forall i :: 0 <= i < |references| ==> Ok(r.value[i]) == FromProtoReference(references[i]))
    ensures r.Err? ==> (exists i :: (0 <= i < |references| && !Acceptable(references[i]) &&
                                     (forall j :: 0 <= j < i ==> Acceptable(references[j])) &&
                                     Err(r.error) == FromProtoReference(references[i])))
    decreases |references|
  {
    if |references| == 0 then Ok([])
    else
      var front := references[..|references| - 1];
      var last := references[|references| - 1];
      assert forall i :: 0 <= i < |front| ==> front[i] == references[i];
      match FromProtoReferences(front)
      case Err(e) => Err(e)
      case Ok(rs) =>
        match FromProtoReference(last)
        case Err(e) => Err(e)
        case Ok(x) => Ok(rs + [x])
  }

  /** A list of references sent over the wire comes back unchanged when
      every id is set. */
  lemma ReferencesRoundTrip(references: seq<Reference>)
    requires forall i :: 0 <= i < |references| ==> references[i].id != ""
    ensures FromProtoReferences(WireList(ToProtos(references))) == Ok(references)
  {
    var wire := WireList(ToProtos(references));
    forall i | 0 <= i < |references|
      ensures FromProtoReference(wire[i]) == Ok(references[i])
    {
      ReferenceRoundTrip(references[i]);
    }
    assert forall i :: 0 <= i < |wire| ==> Acceptable(wire[i]);
    var r := FromProtoReferences(wire);
    forall i | 0 <= i < |references|
      ensures r.value[i] == references[i]
    {
      assert Ok(r.value[i]) == FromProtoReference(wire[i]);
    }
    assert r.value == references;
  }

  /** Wire references as the non-nil values a sender produces. */
  function WireList(references: seq<ProtoReference>): (r: seq<Option<ProtoReference>>)
    ensures |r| == |references| && forall i :: 0 <= i < |r| ==> r[i] == Some(references[i])
  {
    seq(|references|, i requires 0 <= i < |references| => Some(references[i]))
  }

  /** `convertEventToQuery` as a function of the event. */
  function ConvertEvent(event: Event): (r: Result<QueryValue, string>)
  {
    if event.qaId == "" then Err("event id is empty")
    else if event.body.None? then Err("event is empty")
    else if event.createdAt.None? then Err("event created at is empty")
    else
      var t := AsTime(event.createdAt);
      var qa := NewQA(event.qaId, t);
      match event.body.value
      case QuestionCreated(chatId, sessionId, jobGroup, question) =>
        if chatId == "" then Err("chat id is empty")
        else if sessionId == "" then Err("session id is empty")
        else Ok(QueryValue(qa.(chatId := chatId, sessionId := sessionId, jobGroup := jobGroup,
                               question := question, createdAt := t), true))
      case AnswerUpdated(answer) => Ok(QueryValue(qa.(answer := answer), false))
      case TokenCountUpdated(n) => Ok(QueryValue(qa.(tokenCount := n), false))
      case ReferencesCreated(refs) =>
        (match FromProtoReferences(refs)
         case Err(e) => Err(e)
         case Ok(rs) => Ok(QueryValue(qa.(references := rs), false)))
      case KeywordsCreated(keywords) => Ok(QueryValue(qa.(keywords := keywords), false))
      case RelatedQueriesCreated(queries) => Ok(QueryValue(qa.(relatedQueries := queries), false))
  }

  /** The references loop of `convertEventToQuery`: each reference
      converted and appended in order, the first that fails ending it. */
  method ConvertReferences(refs: seq<Option<ProtoReference>>) returns (r: Result<seq<Reference>, string>)
    ensures r == FromProtoReferences(refs)
  {
    var references: seq<Reference> := [];
    var i := 0;
    while i < |refs|
      invariant 0 <= i <= |refs|
      invariant FromProtoReferences(refs[..i]) == Ok(references)
    {
      var modelRef := FromProtoReference(refs[i]);
      assert refs[..i + 1][..i] == refs[..i];
      if modelRef.Err? {
        FailingPrefix(refs, i + 1);
        return Err(modelRef.error);
      }
      references := references + [modelRef.value];
      i := i + 1;
    }
    assert refs[..i] == refs;
    return Ok(references);
  }

  /** `convertEventToQuery`: the header checks, then one switch over the
      kind, with the references appended one at a time. */
  method ConvertEventToQuery(event: Event) returns (r: Result<QueryValue, string>)
    ensures r == ConvertEvent(event)
  {
    if event.qaId == "" {
      return Err("event id is empty");
    }
    if event.body.None? {
      return Err("event is empty");
    }
    var id := event.qaId;
    if event.createdAt.None? {
      return Err("event created at is empty");
    }
    var qa := NewQA(id, AsTime(event.createdAt));
    var shouldCreate := false;
    match event.body.value {
      case QuestionCreated(chatId, sessionId, jobGroup, question) =>
        if chatId == "" {
          return Err("chat id is empty");
        }
        qa := qa.(chatId := chatId);
        if sessionId == "" {
          return Err("session id is empty");
        }
        qa := qa.(sessionId := sessionId);
        qa := qa.(jobGroup := jobGroup);
        qa := qa.(question := question);
        qa := qa.(createdAt := AsTime(event.createdAt));
        shouldCreate := true;
      case AnswerUpdated(answer) =>
        qa := qa.(answer := answer);
      case TokenCountUpdated(n) =>
        qa := qa.(tokenCount := n);
      case ReferencesCreated(refs) =>
        var references := ConvertReferences(refs);
        if references.Err? {
          return Err(references.error);
        }
        qa := qa.(references := references.value);
      case KeywordsCreated(keywords) =>
        qa := qa.(keywords := keywords);
      case RelatedQueriesCreated(queries) =>
        qa := qa.(relatedQueries := queries);
    }
    return Ok(QueryValue(qa, shouldCreate));
  }

  /** A prefix that fails makes the whole list fail with the same error. */
  lemma {:induction false} FailingPrefix(refs: seq<Option<ProtoReference>>, n: nat)
    requires n <= |refs| && FromProtoReferences(refs[..n]).Err?
    ensures FromProtoReferences(refs) == FromProtoReferences(refs[..n])
    decreases |refs| - n
  {
    if n < |refs| {
      assert refs[..n + 1][..n] == refs[..n];
      FailingPrefix(refs, n + 1);
    } else {
      assert refs[..n] == refs;
    }
  }

  /** The header checks, in order: an event is rejected exactly when its
      QA id, body or timestamp is missing or its kind's own check fails. */
  lemma ConvertAccepts(event: Event)
    ensures ConvertEvent(event).Ok? <==>
      (event.qaId != "" && event.body.Some? && event.createdAt.Some? &&
       (event.body.value.QuestionCreated? ==> event.body.value.chatId != "" && event.body.value.sessionId != "") &&
       (event.body.value.ReferencesCreated? ==>
          forall i :: 0 <= i < |event.body.value.references| ==> Acceptable(event.body.value.references[i])))
    ensures event.qaId == "" ==> ConvertEvent(event) == Err("event id is empty")
    ensures event.qaId != "" && event.body.None? ==> ConvertEvent(event) == Err("event is empty")
    ensures event.qaId != "" && event.body.Some? && event.createdAt.None? ==>
      ConvertEvent(event) == Err("event created at is empty")
  {
  }

  /** An accepted event names its QA and stamps the update time with the
      event's time; only a created question asks for a new record. */
  lemma ConvertHeader(event: Event)
    requires ConvertEvent(event).Ok?
    ensures var q := ConvertEvent(event).value;
      q.qa.id == event.qaId && q.qa.updatedAt == AsTime(event.createdAt) &&
      (q.shouldCreate <==> event.body.value.QuestionCreated?)
  {
  }

  /** A created question fills chat, session, job group, question and
      creation time, and nothing else beyond the header. */
  lemma QuestionCreatedFields(event: Event)
    requires ConvertEvent(event).Ok? && event.body.value.QuestionCreated?
    ensures var q := ConvertEvent(event).value.qa;
      var b := event.body.value;
      q.chatId == b.chatId && q.sessionId == b.sessionId && q.jobGroup == b.jobGroup &&
      q.question == b.question && q.createdAt == q.updatedAt &&
      q.(chatId := "", sessionId := "", jobGroup := "", question := "", createdAt := NewQA("", 0).createdAt) ==
        NewQA(event.qaId, AsTime(event.createdAt))
  {
  }

  /** Every other kind sets exactly its own field: clearing that field
      gives back the bare record with id and update time. */
  lemma OtherKindsSetOneField(event: Event)
    requires ConvertEvent(event).Ok? && !event.body.value.QuestionCreated?
    ensures var q := ConvertEvent(event).value.qa;
      var bare := NewQA(event.qaId, AsTime(event.createdAt));
      match event.body.value
      case AnswerUpdated(answer) => q.answer == answer && q.(answer := "") == bare
      case TokenCountUpdated(n) => q.tokenCount == n && q.(tokenCount := 0) == bare
      case ReferencesCreated(refs) => |q.references| == |refs| && q.(references := []) == bare
      case KeywordsCreated(keywords) => q.keywords == keywords && q.(keywords := []) == bare
      case RelatedQueriesCreated(queries) => q.relatedQueries == queries && q.(relatedQueries := []) == bare
      case QuestionCreated(_, _, _, _) => false
  {
  }

  /** References sent with their ids set arrive on the record in order. */
  lemma ReferencesEventRoundTrip(qaId: string, createdAt: Timestamp, references: seq<Reference>)
    requires qaId != ""
    requires forall i :: 0 <= i < |references| ==> references[i].id != ""
    ensures var e := Event(qaId, Some(ReferencesCreated(WireList(ToProtos(references)))), Some(createdAt));
      ConvertEvent(e).Ok? && ConvertEvent(e).value.qa.references == references
  {
    ReferencesRoundTrip(references);
  }
}
