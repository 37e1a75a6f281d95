/** The backend's stored records: news references and question/answer
    pairs, and the wire (protobuf) form a reference travels in. Instants
    are nanoseconds since 1970-01-01T00:00:00Z. */
module BackendModel {
  import opened Common
  import Calendar

  /** `ReferenceAttributes`. */
  datatype Attributes = Attributes(newsId: string, title: string, publishedAt: int, provider: string,
                                   byline: string, content: string)

  /** `Reference`. */
  datatype Reference = Reference(id: string, attributes: Attributes)

  /** `timestamppb.Timestamp`: whole seconds and the nanoseconds within. */
  datatype Timestamp = Timestamp(seconds: int, nanos: int)

  /** `pb.ReferenceAttributes`; a missing timestamp is `None`. */
  datatype ProtoAttributes = ProtoAttributes(newsId: string, title: string, publishedAt: Option<Timestamp>,
                                             provider: string, byline: string, content: string)

  /** `pb.Reference`; missing attributes are `None`. */
  datatype ProtoReference = ProtoReference(id: string, attributes: Option<ProtoAttributes>)

  /** `timestamppb.New`: seconds rounded down, nanoseconds always in
      [0, 10^9). */
  function TimestampOf(t: int): (r: Timestamp)
    ensures 0 <= r.nanos < Calendar.SecondNs
    ensures r.seconds * Calendar.SecondNs <= t < (r.seconds + 1) * Calendar.SecondNs
  {
    Timestamp(t / Calendar.SecondNs, t % Calendar.SecondNs)
  }

  /** `Timestamp.AsTime`, with the nil timestamp read as zero seconds,
      i.e. the Unix epoch. */
  function AsTime(ts: Option<Timestamp>): (t: int)
    ensures ts.None? ==> t == 0
  {
    match ts
    case None => 0
    case Some(Timestamp(s, n)) => s * Calendar.SecondNs + n
  }

  /** An instant survives the trip to the wire form and back. */
  lemma AsTimeTimestampOf(t: int)
    ensures AsTime(Some(TimestampOf(t))) == t
  {
  }

  /** `FromModelReferenceToProtoReference`: it never fails and keeps the id,
      every attribute and the instant. */
  function ToProto(reference: Reference): (r: ProtoReference)
    ensures r.id == reference.id && r.attributes.Some?
    ensures r.attributes.value.publishedAt.Some?
  {
    var a := reference.attributes;
    ProtoReference(reference.id, Some(ProtoAttributes(a.newsId, a.title, Some(TimestampOf(a.publishedAt)),
                                                      a.provider, a.byline, a.content)))
  }

  /** `FromModelReferencesToProtoReferences`: one wire reference per
      reference, in order (a nil slice and an empty one are both `[]`). */
  function ToProtos(references: seq<Reference>): (r: seq<ProtoReference>)
    ensures |r| == |references|
    ensures forall i :: 0 <= i < |r| ==> r[i].id == references[i].id
  {
    seq(|references|, i requires 0 <= i < |references| => ToProto(references[i]))
  }

  /** `QA`: one question and its answer with the bookkeeping the backend
      stores beside it. A nil slice is `[]`. */
  datatype QA = QA(
    id: string,
    chatId: string,
    sessionId: string,
    uploadId: string,
    uploadDeleted: int,
    jobGroup: string,
    question: string,
    answer: string,
    references: seq<Reference>,
    keywords: seq<string>,
    relatedQueries: seq<string>,
    vote: string,
    createdAt: int,
    updatedAt: int,
    status: string,
    tokenCount: int,
    pages: int,
    embeddingTokenCount: int,
    llmProvider: string,
    llmModel: string)

  /** A QA with every field at its zero value except the id and the
      update time (`&model.QA{ID: id, UpdatedAt: t}`). */
  function NewQA(id: string, updatedAt: int): (qa: QA)
    ensures qa.id == id && qa.updatedAt == updatedAt
    ensures qa.createdAt == Calendar.ZeroTime && qa.question == "" && qa.answer == ""
    ensures qa.references == [] && qa.keywords == [] && qa.relatedQueries == [] && qa.tokenCount == 0
  {
    QA(id, "", "", "", Calendar.ZeroTime, "", "", "", [], [], [], "", Calendar.ZeroTime, updatedAt, "", 0, 0, 0, "", "")
  }
}
