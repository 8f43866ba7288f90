# botty: correlated remote calls and the Poe response stream, in Dafny

`botty/main.py` runs a Poe bot server. It sends a browser client requests over
Socket.IO and waits for the answers. This project models the core of that file
as immutable data and pure transition functions, and proves properties of the
model.

- **Correlated remote calls** (`Calls`, `Ingress`). `send_request` issues a
  fresh handle and registers a one-shot callback under it in `call_map`. It
  then emits a `remote_request` envelope `{command, data, handle}`. When a
  `remote_reply` arrives, `reply_handler` looks up the handle. It fails the
  waiting future with the reply's `error` or resolves it with its `data`, then
  deletes the entry. The model keeps two things apart. `State.table` holds the
  live callbacks: each handle maps to the future its callback completes.
  `State.futures` holds every future ever created, with its outcome
  (`Pending`, `Resolved(data)` or `Rejected(error)`). The emitted envelopes go
  to `State.outbox`. `Classify` is the handler's decision and `OnReply` applies
  it.
- **Response stream** (`Events`, `Sequencer`). The event builders fix the JSON
  shape of each server-sent event. `handle_query` forwards what the response
  generator yields. If the generator raises, it adds one `error` event with
  `allow_retry` false. It always ends with `done`. `get_response` first
  flattens the Poe chat log into the OpenAI message format, turning role
  `"bot"` into `"assistant"`.
- **Request entry** (`Auth`, `Routing`). `find_auth_key` checks the 32-character
  API key. `auth_user` checks the bearer credentials. `poe_post` dispatches on
  the request's `type` field.

Decoded JSON is a `Json` datatype. The Python behaviours the handler relies on
are modelled explicitly: truthiness (`Truthy`), the `TypeError` raised when a
list or dict is used as a key (`Hashable`), and dict subscription, where a
repeated key keeps its last value (`Get`).

Behaviours of the code that a reader may not expect, which the model follows:

- Registering a handle that is already live silently replaces the earlier
  callback (main.py:143). The earlier call is orphaned and stays pending
  (`OverwriteOrphansEarlierCall`, `OrphanStaysPending`). It is not treated as a
  fault.
- The code does not require exactly one of `data` and `error`. A truthy
  `error` wins. Otherwise `data` must be present.
- Some well-addressed replies are dropped like malformed ones, and their call
  stays pending with its handle still live:
  - a success reply without a `data` key raises `KeyError` before `del`;
  - a success reply whose `data` is truthy but not a string makes the console
    echo in `send_input` (main.py:184-187, 63-64) raise `TypeError` before
    `set_result`.
- Emitting is fire-and-forget, and nothing fails fast when the socket is down.
  No timeout exists: an unanswered call stays `Pending`.
- Unknown request types get HTTP 501. A missing or non-string `type` raises
  before dispatch, and FastAPI answers such uncaught exceptions with HTTP 500.

## Model

| member | source | states |
|---|---|---|
| `Json.GetFindsLastOccurrence` | botty/main.py:115-120 | a lookup on a decoded reply finds a key exactly when the object holds it, and yields the value of its last occurrence |
| `Calls.Register` | botty/main.py:130-144 | `make_remote_request` creates exactly one new pending future and leaves earlier futures untouched; the handle then maps to that future and other live handles keep theirs; the table stays consistent; nothing is emitted |
| `Calls.SendRequest` | botty/main.py:148-163 | for a never-issued handle and a JSON-serialisable payload, the handle was not live before; afterwards it maps to a new pending future and other entries are unchanged; exactly one envelope with the given command, data (default `None`) and that handle is emitted; consistency and per-future handle uniqueness are preserved |
| `Calls.EnvelopeRoundTrip` | botty/main.py:155-161 | the client recovers exactly the command, data and handle from the emitted `remote_request` object |
| `Calls.SendRequestIssuesDistinctHandles` | botty/main.py:151-153 | two requests under uuid-fresh handles get distinct handles and distinct futures, both live, and the table stays consistent |
| `Ingress.Classify` | botty/main.py:109-127 | the handler completes a call only for a live string handle it names, and never with `Pending`; a named handle that is not live is reported stale |
| `Ingress.ClassifyLooksOnlyAtNamedHandle` | botty/main.py:115-116 | the handler's decision depends on the table only through whether the named handle is live |
| `Ingress.OnReply` | botty/main.py:106-127 | the handler never fails and emits no `remote_request`; a reply that is not completed leaves the state unchanged; a completed reply deletes exactly its own live handle; a reply for an absent handle is a no-op reported as stale; table consistency is preserved |
| `Ingress.ErrorReplyRejectsCall` | botty/main.py:115-122 | a live reply with a truthy `error` fails that call with the message, deletes its handle and changes no other future |
| `Ingress.DataReplyResolvesCall` | botty/main.py:115-122 | a live reply without a truthy `error`, whose `data` is present and printable, resolves that call with `data`; it deletes only that handle and changes no other future |
| `Ingress.MissingDataLeavesCallPending` | botty/main.py:119-127 | a success reply without `data` is dropped: the state is unchanged and the call stays pending |
| `Ingress.NonStringDataLeavesCallPending` | botty/main.py:138-140 | a success reply with truthy non-string `data` is dropped because the console echo raises: the state is unchanged and the call stays pending |
| `Ingress.SecondReplyIsNoOp` | botty/main.py:115-124 | at most once: after a reply completes a handle, any later reply naming it is stale and changes nothing, whatever replies for other handles arrive in between |
| `Ingress.CompletedHandleStaysGone` | botty/main.py:106-127 | no sequence of replies makes a deleted handle live again, because the handler only ever deletes entries |
| `Ingress.OnlyNamedCallChanges` | botty/main.py:115-122 | a reply changes no future except the pending one registered under the handle it completes; settled futures never change |
| `Ingress.SettleCommutes` | botty/main.py:122 | completing two different live handles gives the same state in either order |
| `Ingress.RepliesCommute` | botty/main.py:106-127 | replies naming different handles give the same state whichever arrives first |
| `Ingress.AnswerSettlesCall` | botty/main.py:115-140 | the reply a well-behaved peer sends completes exactly its own call with the expected outcome and deletes its handle |
| `Ingress.DeliverAnswersRemovesTheirHandles` | botty/main.py:115-122 | delivering answers to distinct live handles, in any order, deletes exactly those handles, keeps the table consistent and emits nothing |
| `Ingress.DeliverAnswersTouchNoOtherFuture` | botty/main.py:115-122 | a future that no answer is addressed to is unchanged after any sequence of such answers |
| `Ingress.EachCallGetsItsOwnAnswer` | botty/main.py:115-122 | matching is by handle, not arrival order: in any delivery order, each call ends with its own answer and never another call's |
| `Ingress.OverwriteOrphansEarlierCall` | botty/main.py:143 | re-registering a live handle leaves the earlier future pending with no callback left to complete it |
| `Ingress.OrphanStaysPending` | botty/main.py:130-144 | no timeout: an orphaned call stays pending whatever replies arrive later |
| `Ingress.RequestThenAnswer` | botty/main.py:148-163 | after a request under a fresh handle and its answer, the call holds that answer; the table is back to what it was and one envelope was emitted |
| `Ingress.GetNameExample` | botty/main.py:148-163 | `call("get_name", null)` under handle "h1" emits `{"command":"get_name","data":null,"handle":"h1"}`; the reply `{"handle":"h1","data":"Alice"}` resolves it to "Alice" |
| `Ingress.GetNameErrorExample` | botty/main.py:115-118 | the reply `{"handle":"h2","error":"not found"}` fails the call with "not found" |
| `Events.DecodeEncode` | botty/main.py:308-353 | every event the builders produce reads back as the same event |
| `Events.EncodeDecode` | botty/main.py:308-353 | every wire event a consumer accepts is exactly what a builder emits for it |
| `Events.TextEvent` | botty/main.py:308-310 | `text_event` is named `text` and carries exactly the given text |
| `Events.ReplaceResponseEvent` | botty/main.py:312-316 | `replace_response_event` is named `replace_response` and carries exactly the given text |
| `Events.SuggestedReplyEvent` | botty/main.py:322-324 | `suggested_reply_event` is named `suggested_reply` and carries exactly the given text |
| `Events.DoneEvent` | botty/main.py:318-320 | `done_event` is named `done` and its data is the empty object |
| `Events.MetaEvent` | botty/main.py:326-344 | `meta_event` carries the given content type, `refetch_settings`, `linkify` and `suggested_replies`, and has no other keys: it decodes back to exactly that meta event |
| `Events.MetaEventDefaults` | botty/main.py:327-333 | with no arguments, the defaults are `text/markdown`, no settings refetch, and links and suggested replies on |
| `Events.ErrorEvent` | botty/main.py:346-353 | `error_event` always carries `allow_retry` (default true); it carries `text` exactly when a text is given |
| `Sequencer.HandleQuery` | botty/main.py:373-380 | the output begins with the produced events in production order and adds one event, or two if the generator raised; without a failure it is exactly the produced events followed by `done` with data `{}` |
| `Sequencer.HandleQueryTerminates` | botty/main.py:373-380 | the stream has exactly one `done`, and it comes last, exactly when the generator itself yielded no `done` |
| `Sequencer.HandleQueryAddsOneDoneAndAtMostOneError` | botty/main.py:373-380 | exactly one `done` is added, and one `error` exactly when the generator raised |
| `Sequencer.FailureBecomesErrorEvent` | botty/main.py:377-380 | after a failure, the produced events are followed by one `error` with the exception's repr and `allow_retry` false, then `done` |
| `Sequencer.OpenAiRole` | botty/main.py:275-278 | no role comes out as "bot": "bot" becomes "assistant" and every other role passes through unchanged |
| `Sequencer.Flatten` | botty/main.py:273-285 | the flattened log has the same length and order and the same contents; "bot" becomes "assistant" and every other role is kept |
| `Sequencer.FlattenChatlog` | botty/main.py:273-285 | the loop in `get_response` builds exactly the flattened chat log |
| `Sequencer.FlattenIdempotent` | botty/main.py:273-285 | flattening twice equals flattening once, and no "bot" role survives |
| `Sequencer.GetResponse` | botty/main.py:268-291 | the response raises exactly when the model raises; otherwise it yields exactly one `text` event carrying the model's answer to the flattened log at 50 tokens |
| `Sequencer.QueryStream` | botty/main.py:268-380 | a query streams `text` then `done` when the model answers, and an `error` that forbids retrying then `done` when it raises; the stream is always well terminated |
| `Auth.FindAuthKey` | botty/main.py:228-248 | a key is returned exactly when the argument, or else a non-empty `POE_API_KEY`, is 32 characters long; `None` only when there is no key and that is allowed; in every other case the process exits with status 1 |
| `Auth.StartupKeyIsNeverMissing` | botty/main.py:250 | at start-up the server holds a 32-character key from the environment or does not start, so `auth_key` is never `None` |
| `Auth.AuthUser` | botty/main.py:252-263 | a request passes exactly when no key is set, or when the scheme is "Bearer" and the credentials equal the key; otherwise the answer is 401 "Invalid API key" with a Bearer challenge |
| `Auth.StartedServerChecksBearerKey` | botty/main.py:250-263 | on a started server, a request passes exactly when it presents the environment's 32-character key as a Bearer token |
| `Routing.KindNamesRoundTrip` | botty/main.py:389-402 | each of the four type names selects its own request kind, and no other name selects any kind |
| `Routing.PoePost` | botty/main.py:385-404 | 401 when `auth_user` rejects the scheme and credentials it is given; dispatch to a kind exactly when the `type` string names one of the four; 501 for any other string; an uncaught failure when `type` is missing or not a string |

## Left out

- Socket.IO transport and asyncio (main.py:48-53, 161, 168-187): emits are appended to `State.outbox`, and futures are `CallState` values. `reply_handler` (main.py:103-124), like `send_request`, is synchronous and never awaits, so each is one atomic transition on the single event loop.
- SendRequest: `data` is restricted to JSON values. A payload that `json.dumps` cannot serialise (a set, bytes, a plain object) makes `send_request` raise at main.py:161. By then the handle is already registered at main.py:153, so the caller gets no future, no envelope is emitted, and the entry stays live for the life of the process. No call site in main.py passes such a payload: main.py:469 and 481 use the default `None`.
- `uuid.uuid4()` (main.py:151) is replaced by a caller-supplied handle that must be `Fresh`, meaning it was never issued before.
- Side channels: the `input` emit of `send_input`, the `send_error` emit in `handle_query`, and all console logging. Only the `TypeError` of the echo's string concatenation is kept, because it is raised before `del call_map[...]` (main.py:122) and so stops the entry from being deleted. `Disposition` records which of the handler's log lines would be printed.
- `handle_query` catches only `Exception`. Task cancellation raises a `BaseException` that escapes it with no `done` event. That case is not modelled: `Production.raised` stands for an `Exception`.
- Future cancellation is not modelled. `set_result` on a cancelled future raises, but nothing in this core cancels futures.
- `send_llm` and `validate_openai` (main.py:490-537) are opaque calls to OpenAI. The model is the `llm` parameter of `GetResponse`.
- Configuration and onboarding (`assert_config`, `save_config`, `do_config`, `init_bot`, `handle_connect`, main.py:417-548): file I/O and a UI loop around `send_request`.
- `handle_message` (main.py:191-205): a chat handler that echoes one message with `send_input`, awaits `send_llm` on it with a 50-token limit, and sends the answer with `send_info`. It does not use the call table, and its answer comes from the opaque `send_llm`.
- FastAPI plumbing: static mounts, `index`, `favicon`, SSE framing, and the `get_settings`, `on_feedback` and `on_error` handlers. `PoePost` stops at choosing the handler.
- `HTTPBearer` (main.py:226, 253) is library code outside this repository. It rejects some requests before `auth_user` runs, with its own status and detail: a missing `Authorization` header, a scheme that is not "bearer" in some letter case, and empty credentials.
- AuthUser: `scheme` and `credentials` stand for the values `HTTPBearer` passes on, so the scheme is a letter-case variant of "bearer" and the credentials are non-empty. Other inputs are accepted, but the real server never lets them reach `auth_user`.
- PoePost: the same holds for its `scheme` and `credentials`. A request that `HTTPBearer` rejects never reaches `poe_post`, so the model's 401 covers only rejections by `auth_user`.
- `serialize_data`, `to_json` and `logJson` are used only for logging.
- JSON floating-point numbers: `JNumber` holds an integer, and only its truthiness matters here.
- The browser client's single `replyPending` slot (botty/static/js/script.js:96-137) is user-interface code.
- PoePost: a `parse_obj` validation failure of the request body is not modelled. It would raise after dispatch is chosen.
- GetResponse: the model's answer is taken to be a string. A `None` content would make the log line in `get_response` raise, and that is not modelled.
