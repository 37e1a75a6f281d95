/** The chat payload types of the v2 chat package and its header
    forwarding: which HTTP headers travel to the next service as gRPC
    metadata, and which metadata comes back as HTTP headers. */
module ChatV2 {
  import opened Common

  /** `ChatFunction`: a function call's name and its JSON arguments. */
  datatype ChatFunction = ChatFunction(name: string, arguments: string)

  /** `ChatTool`: one tool call; its function may be nil. */
  datatype ChatTool = ChatTool(id: string, typ: string, fn: Option<ChatFunction>)

  /** `ChatPayload`: a message. A nil name, function call or tool-call list
      is `None`; `Some([])` is a non-nil empty list. */
  datatype ChatPayload = ChatPayload(role: string, content: string, name: Option<string>,
                                     functionCall: Option<ChatFunction>, toolCalls: Option<seq<ChatTool>>,
                                     toolCallId: string)

  /** A message with only a role and content. */
  function Message(role: string, content: string): ChatPayload
  {
    ChatPayload(role, content, None, None, None, "")
  }

  /** `ChatResponse`. */
  datatype ChatResponse = ChatResponse(payload: ChatPayload, finishReason: string,
                                       functionCall: Option<ChatFunction>, toolCalls: seq<ChatTool>)

  const ForwardPrefix := "x-forwarded-for-"
  const UpstagePrefix := "x-upstage-"
  const AskupModelHeader := "X-Upstage-Askup-Model"

  function UpperChar(c: char): char {
    if 'a' <= c <= 'z' then (c as int - 32) as char else c
  }

  /** The bytes a header field name may hold (the token characters of
      HTTP). */
  predicate IsTokenChar(c: char) {
    ('a' <= c <= 'z') || ('A' <= c <= 'Z') || ('0' <= c <= '9') ||
    c in {'!', '#', '$', '%', '&', '\'', '*', '+', '-', '.', '^', '_', '`', '|', '~'}
  }

  /** Upper case at the start and after each '-', lower case elsewhere. */
  function CanonicalFrom(s: string, upper: bool): (r: string)
    ensures |r| == |s|
  {
    if |s| == 0 then ""
    else [if upper then UpperChar(s[0]) else LowerChar(s[0])] + CanonicalFrom(s[1..], s[0] == '-')
  }

  /** `textproto.CanonicalMIMEHeaderKey`: a name with a byte outside the
      token characters is kept as is. */
  function Canonical(k: string): (r: string)
    ensures |r| == |k|
  {
    if forall i :: 0 <= i < |k| ==> IsTokenChar(k[i]) then CanonicalFrom(k, true) else k
  }

  /** Canonical names do not depend on the case they are written in. */
  lemma {:induction false} CanonicalFromIgnoresCase(s: string, upper: bool)
    ensures CanonicalFrom(Lower(s), upper) == CanonicalFrom(s, upper)
    decreases |s|
  {
    if |s| > 0 {
      assert Lower(s)[1..] == Lower(s[1..]);
      CanonicalFromIgnoresCase(s[1..], s[0] == '-');
    }
  }

  /** `http.Header`: canonical names to their values. */
  class Header {
    var fields: map<string, seq<string>>

    constructor(fields: map<string, seq<string>>)
      ensures this.fields == fields
    {
      this.fields := fields;
    }

    /** `Header.Values`. */
    function Values(k: string): (r: seq<string>)
      reads this
      ensures Canonical(k) !in fields ==> r == []
    {
      if Canonical(k) in fields then fields[Canonical(k)] else []
    }

    /** `Header.Set`: the one value, under the canonical name. */
    method Set(k: string, v: string)
      modifies this
      ensures fields == old(fields)[Canonical(k) := [v]]
      ensures Values(k) == [v]
    {
      fields := fields[Canonical(k) := [v]];
    }
  }

  /** Names forwarded as outgoing metadata. */
  predicate Forwarded(lower: string) {
    StartsWith(lower, ForwardPrefix) || StartsWith(lower, UpstagePrefix)
  }

  /** `NewOutgoingContextWithForwardHeaders`: the metadata holds, under
      its lower-cased name, every header whose lower-cased name starts
      with one of the two prefixes, with all its values, and nothing
      else. */
  method NewOutgoingContextWithForwardHeaders(header: Header) returns (md: map<string, seq<string>>)
    ensures forall k :: k in header.fields && Forwarded(Lower(k)) ==> Lower(k) in md
    ensures forall x :: x in md ==>
      Forwarded(x) && exists k :: k in header.fields && Lower(k) == x && md[x] == header.fields[k]
  {
    md := map[];
    var rest := header.fields.Keys;
    while rest != {}
      invariant rest <= header.fields.Keys
      invariant forall k :: k in header.fields && k !in rest && Forwarded(Lower(k)) ==> Lower(k) in md
      invariant forall x :: x in md ==>
        Forwarded(x) && exists k :: k in header.fields && Lower(k) == x && md[x] == header.fields[k]
      decreases rest
    {
      var k :| k in rest;
      if StartsWith(Lower(k), ForwardPrefix) {
        md := md[Lower(k) := header.fields[k]];
      }
      if StartsWith(Lower(k), UpstagePrefix) {
        md := md[Lower(k) := header.fields[k]];
      }
      rest := rest - {k};
    }
  }

  /** The header name a forwarded metadata key is set under. */
  function ForwardedName(k: string): string {
    Canonical(TrimPrefix(k, ForwardPrefix))
  }

  /** `AddForwardHeadersFromIncomingContext`: each metadata key starting
      with "x-forwarded-for-" sets, under its name without the prefix, the
      one value of its values joined by ","; no metadata, no change. */
  method AddForwardHeadersFromIncomingContext(incoming: Option<map<string, seq<string>>>, header: Header)
    modifies header
    ensures incoming.None? ==> header.fields == old(header.fields)
    ensures incoming.Some? ==> forall n ::
      (n in header.fields <==> (n in old(header.fields) ||
        exists k :: k in incoming.value && StartsWith(k, ForwardPrefix) && ForwardedName(k) == n))
    ensures incoming.Some? ==> forall n :: n in header.fields ==>
      (exists k :: k in incoming.value && StartsWith(k, ForwardPrefix) && ForwardedName(k) == n &&
        header.fields[n] == [Join(incoming.value[k], ",")]) ||
      ((forall k :: k in incoming.value && StartsWith(k, ForwardPrefix) ==> ForwardedName(k) != n) &&
        header.fields[n] == old(header.fields)[n])
  {
    if incoming.None? {
      return;
    }
    var md := incoming.value;
    var rest := md.Keys;
    while rest != {}
      invariant rest <= md.Keys
      invariant ForwardedSoFar(header.fields, old(header.fields), md, rest)
      decreases rest
    {
      var k :| k in rest;
      ghost var before := header.fields;
      if StartsWith(k, ForwardPrefix) {
        header.Set(TrimPrefix(k, ForwardPrefix), Join(md[k], ","));
      }
      ForwardStep(before, old(header.fields), md, rest, k);
      rest := rest - {k};
    }
  }

  /** The header after the metadata keys outside `rest`: a name is there
      when it was before or some forwarded key names it, and holds either
      the joined values of such a key or, when none names it, its old
      values. */
  ghost predicate ForwardedSoFar(fields: map<string, seq<string>>, orig: map<string, seq<string>>,
                            md: map<string, seq<string>>, rest: set<string>)
  {
    (forall n :: (n in fields <==> (n in orig ||
      exists k :: k in md && k !in rest && StartsWith(k, ForwardPrefix) && ForwardedName(k) == n))) &&
    (forall n :: n in fields ==>
      (exists k :: k in md && k !in rest && StartsWith(k, ForwardPrefix) && ForwardedName(k) == n &&
        fields[n] == [Join(md[k], ",")]) ||
      ((forall k :: k in md && k !in rest && StartsWith(k, ForwardPrefix) ==> ForwardedName(k) != n) &&
        fields[n] == orig[n]))
  }

  /** One metadata key more. */
  lemma ForwardStep(fields: map<string, seq<string>>, orig: map<string, seq<string>>,
                    md: map<string, seq<string>>, rest: set<string>, k: string)
    requires rest <= md.Keys && k in rest && ForwardedSoFar(fields, orig, md, rest)
    ensures ForwardedSoFar(if StartsWith(k, ForwardPrefix) then fields[ForwardedName(k) := [Join(md[k], ",")]] else fields,
                      orig, md, rest - {k})
  {
  }

  /** `OverrideModelFromHeaders`: the first X-Upstage-Askup-Model value
      replaces the model name; without the header it stays. */
  function OverrideModelFromHeaders(header: Header, modelName: string): (r: string)
    reads header
    ensures header.Values(AskupModelHeader) == [] ==> r == modelName
    ensures header.Values(AskupModelHeader) != [] ==> r == header.Values(AskupModelHeader)[0]
  {
    var values := header.Values(AskupModelHeader);
    if |values| == 0 then modelName else values[0]
  }
}
