/** The backend's completion service: the chat history put in front of the
    caller's messages, the checks before a completion is started, and the
    first results of the stream. */
module CompletionService {
  import opened Common
  import opened GoValue
  import opened BackendModel
  import opened BackendCompletion
  import opened EventModel

  /** `CreateChatCompletionParameter`. */
  datatype Parameter = Parameter(chatId: string, messages: seq<Message>, session: string, jobGroup: string,
                                 provider: string)

  /** `CreateChatCompletionResult`: a completion, the end mark, or an error. */
  datatype ChatResult = ChatResult(completion: Option<CompletionValue>, done: bool, error: Option<GoError>)

  const ErrIdsEmpty := Error("chat id, session id is empty")
  const ErrTest := Error("error test")
  const ErrNoUserMessage := Error("there is no user message")
  const ErrStreamTest := Error("stream error test")
  const ErrLastNotUser := Error("last payload role should be user")

  /** The answer given to a question of a single word. */
  const AskMoreSpecific := "더 구체적인 질문을 해 주세요"

  /** The name of the message carrying a QA's references. */
  const SearchName := "search"

  /** The last `limit` QAs of a chat the multi-turn history reads. */
  const MultiHistoryLimit := 5

  /** A sequence back to front (`slices.Reverse`). */
  function Reversed<T>(s: seq<T>): (r: seq<T>)
    ensures |r| == |s|
  {
    seq(|s|, k requires 0 <= k < |s| => s[|s| - 1 - k])
  }

  lemma ReversedConcat<T>(a: seq<T>, b: seq<T>)
    ensures Reversed(a + b) == Reversed(b) + Reversed(a)
  {
  }

  /** A QA that is answered: only these enter the history. */
  predicate Kept(qa: QA) {
    qa.answer != "" && qa.question != ""
  }

  /** A QA with references. A nil list and an empty one are both `[]`. */
  predicate HasReferences(qa: QA) {
    |qa.references| > 0
  }

  /** What one QA contributes to the history, in conversation order: its
      question, then its references as a message named "search" under
      `refRole`, then its answer; an unanswered QA contributes nothing,
      and references that cannot be encoded are the error. */
  function Contribution(qa: QA, refRole: string, marshal: seq<Reference> -> Result<string, GoError>)
    : Result<seq<Message>, GoError>
  {
    if !Kept(qa) then Ok([])
    else if !HasReferences(qa) then Ok([Message("user", qa.question, ""), Message("assistant", qa.answer, "")])
    else match marshal(qa.references)
      case Err(e) => Err(e)
      case Ok(text) => Ok([Message("user", qa.question, ""), Message(refRole, text, SearchName),
                           Message("assistant", qa.answer, "")])
  }

  /** The history of several QAs, in their order. The later QAs are looked
      at first, so when several cannot be encoded the error is the latest
      one's. */
  function Entries(qas: seq<QA>, refRole: string, marshal: seq<Reference> -> Result<string, GoError>)
    : Result<seq<Message>, GoError>
    decreases |qas|
  {
    if |qas| == 0 then Ok([])
    else match Entries(qas[1..], refRole, marshal)
      case Err(e) => Err(e)
      case Ok(rest) =>
        match Contribution(qas[0], refRole, marshal)
        case Err(e) => Err(e)
        case Ok(c) => Ok(c + rest)
  }

  /** An error among later QAs is the error of the whole. */
  lemma {:induction false} EntriesErrStays(front: seq<QA>, back: seq<QA>, refRole: string,
                                           marshal: seq<Reference> -> Result<string, GoError>)
    requires Entries(back, refRole, marshal).Err?
    ensures Entries(front + back, refRole, marshal) == Entries(back, refRole, marshal)
    decreases |front|
  {
    if |front| > 0 {
      assert (front + back)[1..] == front[1..] + back;
      EntriesErrStays(front[1..], back, refRole, marshal);
    } else {
      assert front + back == back;
    }
  }

  /** One QA more at the front of a history. */
  lemma EntriesStep(qas: seq<QA>, i: nat, refRole: string, marshal: seq<Reference> -> Result<string, GoError>,
                    c: seq<Message>)
    requires i < |qas|
    requires Entries(qas[i + 1..], refRole, marshal).Ok?
    requires Contribution(qas[i], refRole, marshal) == Ok(c)
    ensures Entries(qas[i..], refRole, marshal) == Ok(c + Entries(qas[i + 1..], refRole, marshal).value)
  {
    assert qas[i..][1..] == qas[i + 1..];
  }

  /** A QA whose references cannot be encoded, with every later QA fine,
      fails the whole history with its error. */
  lemma EntriesFailsAt(qas: seq<QA>, i: nat, refRole: string, marshal: seq<Reference> -> Result<string, GoError>)
    requires i < |qas|
    requires Entries(qas[i + 1..], refRole, marshal).Ok?
    requires Fails(qas[i], marshal)
    ensures Entries(qas, refRole, marshal) == Err(marshal(qas[i].references).error)
  {
    assert qas[i..][1..] == qas[i + 1..];
    assert qas == qas[..i] + qas[i..];
    EntriesErrStays(qas[..i], qas[i..], refRole, marshal);
  }

  /** The messages appended for one answered QA, answer first, are its
      contribution back to front. */
  lemma PieceReversed(qa: QA, refRole: string, marshal: seq<Reference> -> Result<string, GoError>,
                      piece: seq<Message>)
    requires Kept(qa) && (HasReferences(qa) ==> marshal(qa.references).Ok?)
    requires piece == [Message("assistant", qa.answer, "")] +
      (if HasReferences(qa) then [Message(refRole, marshal(qa.references).value, SearchName)] else []) +
      [Message("user", qa.question, "")]
    ensures Contribution(qa, refRole, marshal) == Ok(Reversed(piece))
  {
    if HasReferences(qa) {
      assert Reversed(piece) == [piece[2], piece[1], piece[0]];
    } else {
      assert Reversed(piece) == [piece[1], piece[0]];
    }
  }

  lemma WithRoleTwo(x: Message, y: Message, role: string)
    ensures WithRole([x, y], role) ==
      (if x.role == role then [x.content] else []) + (if y.role == role then [y.content] else [])
  {
    assert [x, y][1..] == [y] && [y][1..] == [];
    assert WithRole([y], role) == (if y.role == role then [y.content] else []) + WithRole([], role);
  }

  lemma WithRoleThree(x: Message, y: Message, z: Message, role: string)
    ensures WithRole([x, y, z], role) ==
      (if x.role == role then [x.content] else []) + (if y.role == role then [y.content] else []) +
      (if z.role == role then [z.content] else [])
  {
    assert [x, y, z][1..] == [y, z];
    WithRoleTwo(y, z, role);
  }

  /** One QA's contribution read back by role. */
  lemma ContributionByRole(qa: QA, refRole: string, marshal: seq<Reference> -> Result<string, GoError>)
    requires refRole != "user" && refRole != "assistant"
    requires Contribution(qa, refRole, marshal).Ok?
    ensures var c := Contribution(qa, refRole, marshal).value;
      WithRole(c, "user") == (if Kept(qa) then [qa.question] else []) &&
      WithRole(c, "assistant") == (if Kept(qa) then [qa.answer] else []) &&
      WithRole(c, refRole) == (if Kept(qa) && HasReferences(qa) then [marshal(qa.references).value] else []) &&
      LastUser(c) == (if Kept(qa) then Some(Message("user", qa.question, "")) else None)
  {
    var c := Contribution(qa, refRole, marshal).value;
    if Kept(qa) {
      var u, ans := Message("user", qa.question, ""), Message("assistant", qa.answer, "");
      if HasReferences(qa) {
        var f := c[1];
        assert c == [u, f, ans];
        WithRoleThree(u, f, ans, "user");
        WithRoleThree(u, f, ans, "assistant");
        WithRoleThree(u, f, ans, refRole);
        assert f.role == refRole;
        assert c[..2] == [u, f] && [u, f][..1] == [u] && [u][..0] == [];
        assert LastUser([u]) == Some(u);
        assert LastUser([u, f]) == LastUser([u]);
      } else {
        assert c == [u, ans];
        WithRoleTwo(u, ans, "user");
        WithRoleTwo(u, ans, "assistant");
        WithRoleTwo(u, ans, refRole);
        assert c[..1] == [u] && [u][..0] == [];
      }
    }
  }

  /** Taking one more QA of the list puts it at the front of the reversal. */
  lemma ReversedPrefixStep(list: seq<QA>, i: nat)
    requires i < |list|
    ensures Reversed(list[..i + 1]) == [list[i]] + Reversed(list[..i])
    ensures ([list[i]] + Reversed(list[..i]))[0] == list[i]
    ensures ([list[i]] + Reversed(list[..i]))[1..] == Reversed(list[..i])
    ensures Reversed(list)[|list| - 1 - i] == list[i]
    ensures Reversed(list)[|list| - i..] == Reversed(list[..i])
  {
  }

  /** `slices.Reverse` on the message slice, swapping from both ends. */
  method ReverseInPlace(a: array<Message>)
    modifies a
    ensures a[..] == Reversed(old(a[..]))
  {
    var i := 0;
    while i < a.Length / 2
      invariant 0 <= i <= a.Length / 2
      invariant forall k :: 0 <= k < i ==> a[k] == old(a[a.Length - 1 - k]) && a[a.Length - 1 - k] == old(a[k])
      invariant forall k :: i <= k < a.Length - i ==> a[k] == old(a[k])
    {
      a[i], a[a.Length - 1 - i] := a[a.Length - 1 - i], a[i];
      i := i + 1;
    }
  }

  /** The messages in a new array, reversed there. */
  method ReverseMessages(messages: seq<Message>) returns (r: seq<Message>)
    ensures r == Reversed(messages)
  {
    var a := new Message[|messages|](k requires 0 <= k < |messages| => messages[k]);
    assert a[..] == messages;
    ReverseInPlace(a);
    r := a[..];
  }

  /** The QAs the store gave, or none when it failed. */
  function Listed(qas: Result<seq<QA>, GoError>): seq<QA> {
    if qas.Ok? then qas.value else []
  }

  /** `CreateChatCompletionWithChatHistory` up to the completion: the
      session's QAs (oldest first) walked from the latest back, each
      answered one's answer, references ("function") and question
      appended, the whole reversed and put before the caller's messages. */
  method MessagesWithChatHistory(param: Parameter, qas: Result<seq<QA>, GoError>,
                                 marshal: seq<Reference> -> Result<string, GoError>)
    returns (r: Result<seq<Message>, GoError>)
    ensures r == (match Entries(Listed(qas), "function", marshal)
                  case Err(e) => Err(e)
                  case Ok(history) => Ok(history + param.messages))
  {
    var list := Listed(qas);
    var messages: seq<Message> := [];
    var i := |list|;
    while i > 0
      invariant 0 <= i <= |list|
      invariant Entries(list[i..], "function", marshal) == Ok(Reversed(messages))
    {
      i := i - 1;
      var qa := list[i];
      if qa.answer == "" || qa.question == "" {
        EntriesStep(list, i, "function", marshal, []);
        assert [] + Reversed(messages) == Reversed(messages);
        continue;
      }
      var tail := messages;
      messages := messages + [Message("assistant", qa.answer, "")];
      if qa.references != [] {
        var b := marshal(qa.references);
        if b.Err? {
          EntriesFailsAt(list, i, "function", marshal);
          return Err(b.error);
        }
        messages := messages + [Message("function", b.value, SearchName)];
      }
      messages := messages + [Message("user", qa.question, "")];
      assert messages == tail + messages[|tail|..];
      PieceReversed(qa, "function", marshal, messages[|tail|..]);
      EntriesStep(list, i, "function", marshal, Reversed(messages[|tail|..]));
      ReversedConcat(tail, messages[|tail|..]);
    }
    assert list[0..] == list;
    var history := ReverseMessages(messages);
    return Ok(history + param.messages);
  }

  /** One QA of the multi-turn walk: an unanswered one adds nothing; an
      answered one adds its answer, its references as a "tool" message when
      it has any, and its question; references that cannot be encoded end
      the walk with the whole history's error. */
  method AppendQA(list: seq<QA>, i: int, messages: seq<Message>, marshal: seq<Reference> -> Result<string, GoError>)
    returns (r: Result<seq<Message>, GoError>)
    requires 0 <= i < |list| && Entries(Reversed(list[..i]), "tool", marshal) == Ok(Reversed(messages))
    ensures r.Ok? ==> Entries(Reversed(list[..i + 1]), "tool", marshal) == Ok(Reversed(r.value))
    ensures r.Err? ==> Entries(Reversed(list), "tool", marshal) == Err(r.error)
  {
    var qa := list[i];
    ReversedPrefixStep(list, i);
    if qa.answer == "" || qa.question == "" {
      EntriesStep([qa] + Reversed(list[..i]), 0, "tool", marshal, []);
      assert [] + Reversed(messages) == Reversed(messages);
      return Ok(messages);
    }
    var grown := messages + [Message("assistant", qa.answer, "")];
    if qa.references != [] {
      var b := marshal(qa.references);
      if b.Err? {
        EntriesFailsAt(Reversed(list), |list| - 1 - i, "tool", marshal);
        return Err(b.error);
      }
      grown := grown + [Message("tool", b.value, SearchName)];
    }
    grown := grown + [Message("user", qa.question, "")];
    assert grown == messages + grown[|messages|..];
    PieceReversed(qa, "tool", marshal, grown[|messages|..]);
    EntriesStep([qa] + Reversed(list[..i]), 0, "tool", marshal, Reversed(grown[|messages|..]));
    ReversedConcat(messages, grown[|messages|..]);
    return Ok(grown);
  }

  /** The QA loop of `CreateChatCompletionMulti`: the messages, latest
      first, whose reversal is the history of the QAs. */
  method WalkMulti(list: seq<QA>, marshal: seq<Reference> -> Result<string, GoError>)
    returns (r: Result<seq<Message>, GoError>)
    ensures r.Ok? ==> Entries(Reversed(list), "tool", marshal) == Ok(Reversed(r.value))
    ensures r.Err? ==> Entries(Reversed(list), "tool", marshal) == Err(r.error)
  {
    var messages: seq<Message> := [];
    var i := 0;
    while i < |list|
      invariant 0 <= i <= |list|
      invariant Entries(Reversed(list[..i]), "tool", marshal) == Ok(Reversed(messages))
    {
      var next := AppendQA(list, i, messages, marshal);
      if next.Err? {
        return Err(next.error);
      }
      messages := next.value;
      i := i + 1;
    }
    assert list[..i] == list;
    return Ok(messages);
  }

  /** `CreateChatCompletionMulti` up to the checks: the chat's last QAs
      (latest first) walked in that order, each answered one's answer,
      references ("tool") and question appended, the whole reversed and
      put before the caller's messages. */
  method MessagesMulti(param: Parameter, qas: Result<seq<QA>, GoError>,
                       marshal: seq<Reference> -> Result<string, GoError>)
    returns (r: Result<seq<Message>, GoError>)
    ensures r == (match Entries(Reversed(Listed(qas)), "tool", marshal)
                  case Err(e) => Err(e)
                  case Ok(history) => Ok(history + param.messages))
  {
    var walked := WalkMulti(Listed(qas), marshal);
    if walked.Err? {
      return Err(walked.error);
    }
    var history := ReverseMessages(walked.value);
    return Ok(history + param.messages);
  }

  /** The contents of the messages with a role, in order. */
  function WithRole(ms: seq<Message>, role: string): seq<string>
    decreases |ms|
  {
    if |ms| == 0 then [] else (if ms[0].role == role then [ms[0].content] else []) + WithRole(ms[1..], role)
  }

  lemma {:induction false} WithRoleConcat(a: seq<Message>, b: seq<Message>, role: string)
    ensures WithRole(a + b, role) == WithRole(a, role) + WithRole(b, role)
    decreases |a|
  {
    if |a| == 0 {
      assert a + b == b;
    } else {
      assert (a + b)[1..] == a[1..] + b;
      WithRoleConcat(a[1..], b, role);
    }
  }

  /** The questions of the answered QAs, in order. */
  function Questions(qas: seq<QA>): seq<string>
    decreases |qas|
  {
    if |qas| == 0 then [] else (if Kept(qas[0]) then [qas[0].question] else []) + Questions(qas[1..])
  }

  /** The answers of the answered QAs, in order. */
  function Answers(qas: seq<QA>): seq<string>
    decreases |qas|
  {
    if |qas| == 0 then [] else (if Kept(qas[0]) then [qas[0].answer] else []) + Answers(qas[1..])
  }

  /** The encoded references of the answered QAs that have some, in order. */
  function ReferenceTexts(qas: seq<QA>, marshal: seq<Reference> -> Result<string, GoError>): seq<string>
    decreases |qas|
  {
    if |qas| == 0 then []
    else
      (if Kept(qas[0]) && HasReferences(qas[0]) && marshal(qas[0].references).Ok?
       then [marshal(qas[0].references).value] else []) + ReferenceTexts(qas[1..], marshal)
  }

  /** A QA whose references cannot be encoded. */
  predicate Fails(qa: QA, marshal: seq<Reference> -> Result<string, GoError>) {
    Kept(qa) && HasReferences(qa) && marshal(qa.references).Err?
  }

  /** A history read back by role: the user messages are the answered
      QAs' questions, the assistant messages their answers and the
      reference messages their encoded references, each in QA order. */
  lemma {:induction false} EntriesByRole(qas: seq<QA>, refRole: string,
                                         marshal: seq<Reference> -> Result<string, GoError>)
    requires refRole != "user" && refRole != "assistant"
    requires Entries(qas, refRole, marshal).Ok?
    ensures var h := Entries(qas, refRole, marshal).value;
      WithRole(h, "user") == Questions(qas) && WithRole(h, "assistant") == Answers(qas) &&
      WithRole(h, refRole) == ReferenceTexts(qas, marshal)
    decreases |qas|
  {
    if |qas| > 0 {
      EntriesByRole(qas[1..], refRole, marshal);
      var c := Contribution(qas[0], refRole, marshal).value;
      var rest := Entries(qas[1..], refRole, marshal).value;
      ContributionByRole(qas[0], refRole, marshal);
      WithRoleConcat(c, rest, "user");
      WithRoleConcat(c, rest, "assistant");
      WithRoleConcat(c, rest, refRole);
    }
  }

  /** The history fails exactly when an answered QA's references cannot be
      encoded, and then with the error of the latest such QA. */
  lemma {:induction false} EntriesError(qas: seq<QA>, refRole: string,
                                        marshal: seq<Reference> -> Result<string, GoError>)
    ensures Entries(qas, refRole, marshal).Err? <==> exists k :: 0 <= k < |qas| && Fails(qas[k], marshal)
    ensures Entries(qas, refRole, marshal).Err? ==>
      exists k :: 0 <= k < |qas| && Fails(qas[k], marshal) &&
        Entries(qas, refRole, marshal).error == marshal(qas[k].references).error &&
        forall j :: k < j < |qas| ==> !Fails(qas[j], marshal)
    decreases |qas|
  {
    if |qas| > 0 {
      var tail := qas[1..];
      EntriesError(tail, refRole, marshal);
      if exists k :: 0 <= k < |tail| && Fails(tail[k], marshal) {
        var k :| 0 <= k < |tail| && Fails(tail[k], marshal);
        assert Fails(qas[k + 1], marshal);
      }
      if exists k :: 0 <= k < |qas| && Fails(qas[k], marshal) {
        var k :| 0 <= k < |qas| && Fails(qas[k], marshal);
        if k > 0 {
          assert Fails(tail[k - 1], marshal);
        }
      }
      var r := Entries(qas, refRole, marshal);
      if r.Err? {
        if Entries(tail, refRole, marshal).Err? {
          var k :| 0 <= k < |tail| && Fails(tail[k], marshal) &&
            Entries(tail, refRole, marshal).error == marshal(tail[k].references).error &&
            forall j :: k < j < |tail| ==> !Fails(tail[j], marshal);
          assert Fails(qas[k + 1], marshal);
          assert forall j :: k + 1 < j < |qas| ==> qas[j] == tail[j - 1];
        } else {
          assert Fails(qas[0], marshal);
          assert forall j :: 0 < j < |qas| ==> qas[j] == tail[j - 1];
        }
      }
    }
  }

  /** The last answered QA closes a non-empty history with its answer. */
  lemma {:induction false} EntriesEndWithAnswer(qas: seq<QA>, refRole: string,
                                                marshal: seq<Reference> -> Result<string, GoError>)
    requires Entries(qas, refRole, marshal).Ok?
    ensures var h := Entries(qas, refRole, marshal).value;
      |h| > 0 <==> |Answers(qas)| > 0
    ensures var h := Entries(qas, refRole, marshal).value;
      |h| > 0 ==> h[|h| - 1] == Message("assistant", Answers(qas)[|Answers(qas)| - 1], "")
    decreases |qas|
  {
    if |qas| > 0 {
      EntriesEndWithAnswer(qas[1..], refRole, marshal);
    }
  }

  /** `findLastUserMessage` as a function: the last message with role
      "user", if any. */
  function LastUser(messages: seq<Message>): Option<Message>
    decreases |messages|
  {
    if |messages| == 0 then None
    else if messages[|messages| - 1].role == "user" then Some(messages[|messages| - 1])
    else LastUser(messages[..|messages| - 1])
  }

  /** The message found is a user message and no later one is; none is
      found exactly when there is no user message. */
  lemma {:induction false} LastUserMeaning(messages: seq<Message>)
    ensures LastUser(messages).None? <==> forall i :: 0 <= i < |messages| ==> messages[i].role != "user"
    ensures LastUser(messages).Some? ==>
      exists i :: 0 <= i < |messages| && messages[i] == LastUser(messages).value && messages[i].role == "user" &&
        forall j :: i < j < |messages| ==> messages[j].role != "user"
  {
    LastUserNone(messages);
    if LastUser(messages).Some? {
      var i := LastUserAt(messages);
    }
  }

  lemma {:induction false} LastUserNone(messages: seq<Message>)
    ensures LastUser(messages).None? <==> forall i :: 0 <= i < |messages| ==> messages[i].role != "user"
    decreases |messages|
  {
    if |messages| > 0 {
      var front := messages[..|messages| - 1];
      LastUserNone(front);
      assert forall i :: 0 <= i < |front| ==> front[i] == messages[i];
    }
  }

  /** The position of the message found. */
  lemma {:induction false} LastUserAt(messages: seq<Message>) returns (i: int)
    requires LastUser(messages).Some?
    ensures 0 <= i < |messages| && messages[i] == LastUser(messages).value && messages[i].role == "user"
    ensures forall j :: i < j < |messages| ==> messages[j].role != "user"
    decreases |messages|
  {
    var last := |messages| - 1;
    if messages[last].role == "user" {
      i := last;
    } else {
      var front := messages[..last];
      i := LastUserAt(front);
      assert messages[i] == front[i];
    }
  }

  /** A user message of the caller's is found before any in the history. */
  lemma {:induction false} LastUserOfSuffix(history: seq<Message>, messages: seq<Message>)
    ensures LastUser(messages).Some? ==> LastUser(history + messages) == LastUser(messages)
    ensures LastUser(messages).None? ==> LastUser(history + messages) == LastUser(history)
    decreases |messages|
  {
    if |messages| == 0 {
      assert history + messages == history;
    } else {
      var all := history + messages;
      assert all[..|all| - 1] == history + messages[..|messages| - 1];
      LastUserOfSuffix(history, messages[..|messages| - 1]);
    }
  }

  /** The last answered QA's question ends the history's user messages. */
  lemma {:induction false} LastUserOfEntries(qas: seq<QA>, refRole: string,
                                             marshal: seq<Reference> -> Result<string, GoError>)
    requires refRole != "user" && refRole != "assistant"
    requires Entries(qas, refRole, marshal).Ok?
    ensures var h := Entries(qas, refRole, marshal).value;
      LastUser(h) == (if |Questions(qas)| == 0 then None
                      else Some(Message("user", Questions(qas)[|Questions(qas)| - 1], "")))
    decreases |qas|
  {
    if |qas| > 0 {
      var tail := qas[1..];
      LastUserOfEntries(tail, refRole, marshal);
      var c := Contribution(qas[0], refRole, marshal).value;
      var rest := Entries(tail, refRole, marshal).value;
      assert Entries(qas, refRole, marshal).value == c + rest;
      var mine := if Kept(qas[0]) then [qas[0].question] else [];
      assert Questions(qas) == mine + Questions(tail);
      LastUserOfSuffix(c, rest);
      ContributionByRole(qas[0], refRole, marshal);
      if |Questions(tail)| > 0 {
        assert Questions(qas)[|Questions(qas)| - 1] == Questions(tail)[|Questions(tail)| - 1];
      }
    }
  }

  /** The question the completion is created for: the caller's last user
      message when there is one; otherwise the history lends it, so the
      latest answered QA's question is asked again. */
  lemma QuestionAsked(param: Parameter, qas: seq<QA>, refRole: string,
                      marshal: seq<Reference> -> Result<string, GoError>)
    requires refRole != "user" && refRole != "assistant"
    requires Entries(qas, refRole, marshal).Ok?
    ensures var all := Entries(qas, refRole, marshal).value + param.messages;
      LastUser(all) == (if LastUser(param.messages).Some? then LastUser(param.messages)
                        else if |Questions(qas)| == 0 then None
                        else Some(Message("user", Questions(qas)[|Questions(qas)| - 1], "")))
  {
    LastUserOfSuffix(Entries(qas, refRole, marshal).value, param.messages);
    LastUserOfEntries(qas, refRole, marshal);
  }

  /** `findLastUserMessage`: a walk from the end. */
  method FindLastUserMessage(messages: seq<Message>) returns (r: Option<Message>)
    ensures r == LastUser(messages)
  {
    var i := |messages|;
    assert messages[..i] == messages;
    while i > 0
      invariant 0 <= i <= |messages|
      invariant LastUser(messages) == LastUser(messages[..i])
    {
      if messages[i - 1].role == "user" {
        return Some(messages[i - 1]);
      }
      assert messages[..i][..i - 1] == messages[..i - 1];
      i := i - 1;
    }
    return None;
  }

  /** The `QuestionCreated` event written for a question. */
  function QuestionEvent(qaId: string, now: int, chatId: string, session: string, jobGroup: string,
                         question: string): Event
  {
    Event(qaId, Some(QuestionCreated(chatId, session, jobGroup, question)), Some(TimestampOf(now)))
  }

  /** `CreateChatCompletion` before its stream: both ids are required, the
      session "error-test" fails, a user message is required, and the
      question event must be written. The result is the event written. */
  function Admit(param: Parameter, qaId: string, now: int, write: Event -> Option<GoError>): (r: Result<Event, GoError>)
  {
    if param.chatId == "" || param.session == "" then Err(ErrIdsEmpty)
    else if param.session == "error-test" then Err(ErrTest)
    else match LastUser(param.messages)
      case None => Err(ErrNoUserMessage)
      case Some(m) =>
        var event := QuestionEvent(qaId, now, param.chatId, param.session, param.jobGroup, m.content);
        match write(event)
        case Some(e) => Err(e)
        case None => Ok(event)
  }

  /** The admission checks in their order, and the event for the last user
      message written exactly when they all pass. */
  lemma AdmitCases(param: Parameter, qaId: string, now: int, write: Event -> Option<GoError>)
    ensures var r := Admit(param, qaId, now, write);
      (param.chatId == "" || param.session == "" ==> r == Err(ErrIdsEmpty)) &&
      (param.chatId != "" && param.session == "error-test" ==> r == Err(ErrTest)) &&
      (param.chatId != "" && param.session != "" && param.session != "error-test" &&
       (forall i :: 0 <= i < |param.messages| ==> param.messages[i].role != "user") ==>
         r == Err(ErrNoUserMessage)) &&
      (r.Ok? <==> param.chatId != "" && param.session != "" && param.session != "error-test" &&
                  LastUser(param.messages).Some? &&
                  write(QuestionEvent(qaId, now, param.chatId, param.session, param.jobGroup,
                                      LastUser(param.messages).value.content)).None?) &&
      (r.Ok? ==> r.value == QuestionEvent(qaId, now, param.chatId, param.session, param.jobGroup,
                                          LastUser(param.messages).value.content))
  {
    LastUserMeaning(param.messages);
  }

  /** The event written is one the event consumer turns into a new QA
      record holding the chat, session, job group, question and time. */
  lemma AdmittedEventCreatesQA(param: Parameter, qaId: string, now: int, write: Event -> Option<GoError>)
    requires qaId != ""
    requires Admit(param, qaId, now, write).Ok?
    ensures var q := ConvertEvent(Admit(param, qaId, now, write).value);
      q.Ok? && q.value.shouldCreate && q.value.qa.id == qaId &&
      q.value.qa.chatId == param.chatId && q.value.qa.sessionId == param.session &&
      q.value.qa.jobGroup == param.jobGroup && q.value.qa.question == LastUser(param.messages).value.content &&
      q.value.qa.createdAt == now
  {
    AsTimeTimestampOf(now);
  }

  /** A question without a space: `strings.Split` on " " gives one part. */
  predicate SingleWord(content: string) {
    |Split(content, ' ')| == 1
  }

  lemma SingleWordNoSpace(content: string)
    ensures SingleWord(content) <==> !HasChar(content, ' ')
  {
    if HasChar(content, ' ') {
      SplitHasTwo(content, ' ');
    }
  }

  /** The first results of the stream, or `None` when it goes on to the
      conversation engine: the session "stream-error-test" fails, the last
      message must be a user's, and a single-word question is answered
      with a request to be more specific and the end mark. */
  function StreamStart(session: string, messages: seq<Message>, qaId: string, now: int): Option<seq<ChatResult>>
    requires |messages| > 0
  {
    if session == "stream-error-test" then Some([ChatResult(None, false, Some(ErrStreamTest))])
    else if messages[|messages| - 1].role != "user" then Some([ChatResult(None, false, Some(ErrLastNotUser))])
    else if SingleWord(messages[|messages| - 1].content) then
      Some([ChatResult(Some(CompletionValue("chat.completion", qaId, now / 1000000000,
                                            Some(DeltaValue(AskMoreSpecific, [], [], [])), 0)), false, None),
            ChatResult(None, true, None)])
    else None
  }

  /** An admitted request has a message to look at; its stream stops at
      once with one error when the last message is not the caller's
      question, answers a question without a space with the canned reply
      and the end mark, and otherwise goes on. */
  lemma StreamStartCases(param: Parameter, qaId: string, now: int, write: Event -> Option<GoError>)
    requires Admit(param, qaId, now, write).Ok?
    ensures |param.messages| > 0
    ensures var ms := param.messages; var s := StreamStart(param.session, ms, qaId, now);
      var last := ms[|ms| - 1];
      (param.session == "stream-error-test" ==> s == Some([ChatResult(None, false, Some(ErrStreamTest))])) &&
      (param.session != "stream-error-test" && last.role != "user" ==>
         s == Some([ChatResult(None, false, Some(ErrLastNotUser))])) &&
      (s.None? <==> param.session != "stream-error-test" && last.role == "user" && HasChar(last.content, ' ')) &&
      (param.session != "stream-error-test" && last.role == "user" && !HasChar(last.content, ' ') ==>
         |s.value| == 2 && s.value[1].done && s.value[0].completion.value.id == qaId &&
         s.value[0].completion.value.delta == Some(DeltaValue(AskMoreSpecific, [], [], [])))
  {
    LastUserMeaning(param.messages);
    SingleWordNoSpace(param.messages[|param.messages| - 1].content);
  }
}
