/** The server-sent events a query response is made of, and the `PoeBot`
    helpers that build them (`text_event`, `replace_response_event`,
    `suggested_reply_event`, `meta_event`, `error_event`, `done_event`). */
module Events {
  import opened Wrappers
  import opened Json

  /** The two content types the Poe protocol accepts for `meta`. */
  datatype ContentType = Markdown | Plain

  function ContentTypeName(c: ContentType): string {
    match c
    case Markdown => "text/markdown"
    case Plain => "text/plain"
  }

  function ParseContentType(name: string): (r: Option<ContentType>)
    ensures r.Some? ==> ContentTypeName(r.value) == name
  {
    if name == "text/markdown" then Some(Markdown)
    else if name == "text/plain" then Some(Plain)
    else None
  }

  /** One protocol event, by kind. */
  datatype Event =
    | Text(text: string)
    | ReplaceResponse(text: string)
    | SuggestedReply(text: string)
    | Meta(contentType: ContentType, refetchSettings: bool, linkify: bool, suggestedReplies: bool)
    | Error(message: Option<string>, allowRetry: bool)
    | Done

  /** A `ServerSentEvent` as emitted: the event name and the JSON object
      serialised on its data line. */
  datatype Sse = Sse(event: string, data: Json)

  /** The wire form each builder produces; object keys are listed in the
      order the builders insert them. */
  function Encode(e: Event): Sse {
    match e
    case Text(t) => Sse("text", JObject([Member("text", JString(t))]))
    case ReplaceResponse(t) => Sse("replace_response", JObject([Member("text", JString(t))]))
    case SuggestedReply(t) => Sse("suggested_reply", JObject([Member("text", JString(t))]))
    case Meta(c, refetch, linkify, suggested) =>
      Sse("meta", JObject([
        Member("content_type", JString(ContentTypeName(c))),
        Member("refetch_settings", JBool(refetch)),
        Member("linkify", JBool(linkify)),
        Member("suggested_replies", JBool(suggested))]))
    case Error(text, allowRetry) =>
      Sse("error", JObject([Member("allow_retry", JBool(allowRetry))] +
                           if text.Some? then [Member("text", JString(text.value))] else []))
    case Done => Sse("done", JObject([]))
  }

  /** The `{"text": ...}` payload shared by three event kinds. */
  function TextPayload(data: Json): Option<string> {
    match data
    case JObject(ms) =>
      if |ms| == 1 && ms[0].key == "text" && ms[0].value.JString? then Some(ms[0].value.s) else None
    case _ => None
  }

  /** How a consumer of the stream reads one event back; anything the
      builders cannot produce is rejected. */
  function Decode(s: Sse): Option<Event> {
    match s.data
    case JObject(ms) =>
      if s.event in {"text", "replace_response", "suggested_reply"} then
        match TextPayload(s.data)
        case Some(t) =>
          Some(if s.event == "text" then Text(t)
               else if s.event == "replace_response" then ReplaceResponse(t)
               else SuggestedReply(t))
        case None => None
      else if s.event == "meta" then
        if |ms| == 4 && ms[0].key == "content_type" && ms[0].value.JString?
           && ParseContentType(ms[0].value.s).Some?
           && ms[1].key == "refetch_settings" && ms[1].value.JBool?
           && ms[2].key == "linkify" && ms[2].value.JBool?
           && ms[3].key == "suggested_replies" && ms[3].value.JBool?
        then Some(Meta(ParseContentType(ms[0].value.s).value, ms[1].value.b, ms[2].value.b, ms[3].value.b))
        else None
      else if s.event == "error" then
        if 1 <= |ms| <= 2 && ms[0].key == "allow_retry" && ms[0].value.JBool? then
          if |ms| == 1 then Some(Error(None, ms[0].value.b))
          else if ms[1].key == "text" && ms[1].value.JString? then Some(Error(Some(ms[1].value.s), ms[0].value.b))
          else None
        else None
      else if s.event == "done" then
        if ms == [] then Some(Done) else None
      else None
    case _ => None
  }

  /** Every event reads back as itself. */
  lemma DecodeEncode(e: Event)
    ensures Decode(Encode(e)) == Some(e)
  {
  }

  /** The encoding is the only wire form of an event: whatever a consumer
      accepts is exactly what a builder emits. */
  lemma EncodeDecode(s: Sse)
    requires Decode(s).Some?
    ensures Encode(Decode(s).value) == s
  {
    var ms := s.data.members;
    if s.event == "error" && |ms| == 2 {
      assert ms == [ms[0]] + [ms[1]];
    } else if s.event == "meta" {
      assert ms == [ms[0], ms[1], ms[2], ms[3]];
    }
  }

  /** `text_event(text)`. */
  function TextEvent(text: string): (r: Sse)
    ensures r.event == "text" && Decode(r) == Some(Text(text))
  {
    Encode(Text(text))
  }

  /** `replace_response_event(text)`. */
  function ReplaceResponseEvent(text: string): (r: Sse)
    ensures r.event == "replace_response" && Decode(r) == Some(ReplaceResponse(text))
  {
    Encode(ReplaceResponse(text))
  }

  /** `suggested_reply_event(text)`. */
  function SuggestedReplyEvent(text: string): (r: Sse)
    ensures r.event == "suggested_reply" && Decode(r) == Some(SuggestedReply(text))
  {
    Encode(SuggestedReply(text))
  }

  /** `done_event()`: the literal data `{}`. */
  function DoneEvent(): (r: Sse)
    ensures r.event == "done" && r.data == JObject([]) && Decode(r) == Some(Done)
  {
    Encode(Done)
  }

  /** `meta_event(...)` with the source's keyword defaults. */
  function MetaEvent(contentType: ContentType := Markdown, refetchSettings: bool := false,
                     linkify: bool := true, suggestedReplies: bool := true): (r: Sse)
    ensures r.event == "meta" && r.data.JObject?
    ensures Get(r.data.members, "content_type") == Some(JString(ContentTypeName(contentType)))
    ensures Get(r.data.members, "refetch_settings") == Some(JBool(refetchSettings))
    ensures Get(r.data.members, "linkify") == Some(JBool(linkify))
    ensures Get(r.data.members, "suggested_replies") == Some(JBool(suggestedReplies))
    ensures Decode(r) == Some(Meta(contentType, refetchSettings, linkify, suggestedReplies))
  {
    var r := Encode(Meta(contentType, refetchSettings, linkify, suggestedReplies));
    var ms := r.data.members;
    GetLastMember(ms, 0);
    GetLastMember(ms, 1);
    GetLastMember(ms, 2);
    GetLastMember(ms, 3);
    r
  }

  /** `meta_event()` with no arguments: markdown, no settings refetch, links
      and suggested replies on. */
  lemma MetaEventDefaults()
    ensures Decode(MetaEvent()) == Some(Meta(Markdown, false, true, true))
    ensures Get(MetaEvent().data.members, "content_type") == Some(JString("text/markdown"))
  {
  }

  /** `error_event(text, allow_retry=...)`: `allow_retry` is always present
      (default true) and `text` is present exactly when one is given. */
  function ErrorEvent(text: Option<string> := None, allowRetry: bool := true): (r: Sse)
    ensures r.event == "error" && r.data.JObject?
    ensures Get(r.data.members, "allow_retry") == Some(JBool(allowRetry))
    ensures Get(r.data.members, "text").Some? <==> text.Some?
    ensures text.Some? ==> Get(r.data.members, "text") == Some(JString(text.value))
    ensures Decode(r) == Some(Error(text, allowRetry))
  {
    var r := Encode(Error(text, allowRetry));
    var ms := r.data.members;
    GetLastMember(ms, 0);
    r
  }
}
