/** `PoeBot.handle_query` and `PoeBot.get_response`: turning one query into
    the ordered event stream sent back to the Poe server. */
module Sequencer {
  import opened Wrappers
  import opened Events

  /** What a response generator did: the events it yielded, in order, and,
      if it raised, the `repr` of the exception it raised after them. */
  datatype Production = Production(events: seq<Sse>, raised: Option<string>)

  /** `handle_query`: forward every produced event, turn an exception into one
      `error` event that forbids retrying, and always finish with `done`. */
  function HandleQuery(p: Production): (out: seq<Sse>)
    ensures |out| == |p.events| + (if p.raised.Some? then 2 else 1)
    ensures out[..|p.events|] == p.events
    ensures p.raised.None? ==> out == p.events + [DoneEvent()]
  {
    p.events +
    (if p.raised.Some? then [ErrorEvent(Some(p.raised.value), allowRetry := false)] else []) +
    [DoneEvent()]
  }

  predicate IsDone(e: Sse) {
    e.event == "done"
  }

  /** The protocol's stream shape: exactly one `done`, and it comes last. */
  ghost predicate Terminated(out: seq<Sse>) {
    |out| > 0 && IsDone(out[|out| - 1]) && forall i :: 0 <= i < |out| - 1 ==> !IsDone(out[i])
  }

  /** The response stream is well terminated exactly when the generator
      itself yielded no `done` event, whether or not it raised. */
  lemma HandleQueryTerminates(p: Production)
    ensures Terminated(HandleQuery(p)) <==> forall i :: 0 <= i < |p.events| ==> !IsDone(p.events[i])
  {
    var out := HandleQuery(p);
    if Terminated(out) {
      forall i | 0 <= i < |p.events| ensures !IsDone(p.events[i]) {
        assert out[i] == p.events[i];
      }
    }
  }

  /** Number of events of the named kind in a stream. */
  function Count(kind: string, s: seq<Sse>): nat {
    if s == [] then 0 else (if s[0].event == kind then 1 else 0) + Count(kind, s[1..])
  }

  lemma {:induction false} CountConcat(kind: string, a: seq<Sse>, b: seq<Sse>)
    ensures Count(kind, a + b) == Count(kind, a) + Count(kind, b)
    decreases |a|
  {
    if a == [] {
      assert a + b == b;
    } else {
      assert (a + b)[0] == a[0];
      assert (a + b)[1..] == a[1..] + b;
      CountConcat(kind, a[1..], b);
    }
  }

  /** Exactly one `done` and at most one `error` are added to what the
      generator yielded: one `error` when it raised, none when it did not. */
  lemma HandleQueryAddsOneDoneAndAtMostOneError(p: Production)
    ensures Count("done", HandleQuery(p)) == Count("done", p.events) + 1
    ensures Count("error", HandleQuery(p)) == Count("error", p.events) + (if p.raised.Some? then 1 else 0)
  {
    var err := if p.raised.Some? then [ErrorEvent(Some(p.raised.value), false)] else [];
    var done := [DoneEvent()];
    assert HandleQuery(p) == p.events + (err + done);
    assert done[1..] == [];
    assert |err| > 0 ==> err[1..] == [];
    CountConcat("done", p.events, err + done);
    CountConcat("error", p.events, err + done);
    CountConcat("done", err, done);
    CountConcat("error", err, done);
  }

  /** A failure after some events keeps those events, then reports the
      exception's `repr` in an `error` event with `allow_retry` false. */
  lemma FailureBecomesErrorEvent(events: seq<Sse>, repr: string)
    ensures var out := HandleQuery(Production(events, Some(repr)));
      out[..|events|] == events &&
      Decode(out[|events|]) == Some(Error(Some(repr), false)) &&
      Decode(out[|events| + 1]) == Some(Done) && |out| == |events| + 2
  {
  }

  /** One chat message: `{role, content}` in both the Poe query and the
      OpenAI request. */
  datatype Message = Message(role: string, content: string)

  /** Poe calls the model's turns "bot"; OpenAI calls them "assistant". */
  function OpenAiRole(role: string): (r: string)
    ensures r != "bot"
    ensures role == "bot" ==> r == "assistant"
    ensures role != "bot" ==> r == role
  {
    if role == "bot" then "assistant" else role
  }

  /** The chat log as sent to the language model. */
  function Flatten(chatlog: seq<Message>): (flat: seq<Message>)
    ensures |flat| == |chatlog|
    ensures forall i :: 0 <= i < |chatlog| ==>
      flat[i].content == chatlog[i].content &&
      (chatlog[i].role == "bot" ==> flat[i].role == "assistant") &&
      (chatlog[i].role != "bot" ==> flat[i].role == chatlog[i].role)
  {
    if chatlog == [] then []
    else [Message(OpenAiRole(chatlog[0].role), chatlog[0].content)] + Flatten(chatlog[1..])
  }

  /** The loop in `get_response` that builds `flat_chatlog`. */
  method FlattenChatlog(chatlog: seq<Message>) returns (flat: seq<Message>)
    ensures flat == Flatten(chatlog)
  {
    flat := [];
    var i := 0;
    while i < |chatlog|
      invariant 0 <= i <= |chatlog|
      invariant |flat| == i
      invariant forall k :: 0 <= k < i ==> flat[k] == Message(OpenAiRole(chatlog[k].role), chatlog[k].content)
    {
      var item := chatlog[i];
      var newRole := item.role;
      if newRole == "bot" {
        newRole := "assistant";
      }
      flat := flat + [Message(newRole, item.content)];
      i := i + 1;
    }
  }

  /** Flattening an already flattened log changes nothing, and no "bot" role
      survives it. */
  lemma FlattenIdempotent(chatlog: seq<Message>)
    ensures Flatten(Flatten(chatlog)) == Flatten(chatlog)
    ensures forall i :: 0 <= i < |chatlog| ==> Flatten(chatlog)[i].role != "bot"
  {
    var f := Flatten(chatlog);
    var ff := Flatten(f);
    assert forall i :: 0 <= i < |f| ==> ff[i] == f[i];
  }

  /** The request `get_response` hands to `send_llm`. */
  datatype LlmRequest = LlmRequest(messages: seq<Message>, maxTokens: nat)

  /** What the language model call did: answered, or raised. */
  datatype LlmOutcome = Completion(text: string) | Raised(repr: string)

  /** `get_response` asks for at most this many tokens. */
  const ResponseMaxTokens: nat := 50

  /** `get_response`, with the language model as a parameter: flatten the
      chat log, ask the model, yield its answer as one `text` event. */
  function GetResponse(chatlog: seq<Message>, llm: LlmRequest -> LlmOutcome): (p: Production)
    ensures p.raised.None? <==> llm(LlmRequest(Flatten(chatlog), ResponseMaxTokens)).Completion?
    ensures p.raised.None? ==> |p.events| == 1 && Decode(p.events[0]) == Some(Text(llm(LlmRequest(Flatten(chatlog), ResponseMaxTokens)).text))
    ensures p.raised.Some? ==> p.events == []
  {
    match llm(LlmRequest(Flatten(chatlog), ResponseMaxTokens))
    case Completion(text) => Production([TextEvent(text)], None)
    case Raised(repr) => Production([], Some(repr))
  }

  /** A query answered by this bot streams exactly `text` then `done` when
      the model answers, and `error` (no retry) then `done` when it raises. */
  lemma QueryStream(chatlog: seq<Message>, llm: LlmRequest -> LlmOutcome)
    ensures var out := HandleQuery(GetResponse(chatlog, llm));
      match llm(LlmRequest(Flatten(chatlog), ResponseMaxTokens))
      case Completion(text) => out == [TextEvent(text), DoneEvent()]
      case Raised(repr) => out == [ErrorEvent(Some(repr), false), DoneEvent()]
    ensures Terminated(HandleQuery(GetResponse(chatlog, llm)))
  {
    HandleQueryTerminates(GetResponse(chatlog, llm));
  }
}
