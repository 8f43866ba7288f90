/** `reply_handler` of `botty/main.py`: the `remote_reply` socket event that
    completes the matching future and forgets its handle. */
module Ingress {
  import opened Wrappers
  import opened Json
  import opened Calls

  /** What the handler did with one inbound reply; the last two are only
      logged. */
  datatype Disposition =
    | Completed(handle: Handle)  // the callback ran and the handle was deleted
    | StaleHandle                // "Reply is using an invalid or stale handle"
    | ReplyFailed                // an exception was caught: "reply failed: ..."

  datatype Delivery = Delivery(state: State, disposition: Disposition)

  /** `send_input(data)` runs before `set_result` on the success path. For a
      truthy value it logs `Fore.LIGHTGREEN_EX + data`, which raises
      `TypeError` unless the value is a string. */
  predicate EchoRaises(data: Json) {
    Truthy(data) && !data.JString?
  }

  /** The string handle a decoded reply names, if any. `None` for a message
      that did not parse. */
  function ReplyHandle(msg: Option<Json>): Option<Handle> {
    if msg.None? then None
    else match Field(msg.value, "handle")
      case Some(JString(h)) => Some(h)
      case _ => None
  }

  /** `reply['error']` / `reply['data']` of a decoded reply. */
  function ReplyField(msg: Option<Json>, k: string): Option<Json> {
    if msg.None? then None else Field(msg.value, k)
  }

  /** Run the callback stored under `h` with `outcome` and delete the entry. */
  function Settle(s: State, h: Handle, outcome: CallState): State
    requires h in s.table
  {
    var id := s.table[h];
    var futures := if id < |s.futures| then s.futures[id := s.futures[id].(state := outcome)] else s.futures;
    State(s.table - {h}, futures, s.outbox)
  }

  /** What the handler decides for one reply, before it touches the table. */
  datatype Action =
    | Drop(disposition: Disposition)            // logged, nothing else happens
    | Complete(handle: Handle, outcome: CallState)  // run the callback, then `del`

  /** The decision `reply_handler` takes for the decoded reply `msg` (`None`
      when `json.loads` raised) given the live handles. A reply is dropped
      when it does not parse, has no `handle` key, names an unhashable value,
      names no live handle, lacks `data` on the success path, or carries data
      the console echo cannot print. */
  function Classify(live: set<Handle>, msg: Option<Json>): (a: Action)
    ensures a.Complete? ==> ReplyHandle(msg) == Some(a.handle) && a.handle in live && a.outcome != Pending
    ensures a.Drop? ==> !a.disposition.Completed?
    ensures ReplyHandle(msg).Some? && ReplyHandle(msg).value !in live ==> a == Drop(StaleHandle)
  {
    if msg.None? then Drop(ReplyFailed)
    else
      var handle := Field(msg.value, "handle");
      if handle.None? then Drop(ReplyFailed)
      else if !Hashable(handle.value) then Drop(ReplyFailed)
      else if !handle.value.JString? || handle.value.s !in live then Drop(StaleHandle)
      else
        var h := handle.value.s;
        var error := Field(msg.value, "error");
        if error.Some? && Truthy(error.value) then Complete(h, Rejected(error.value))
        else
          var data := Field(msg.value, "data");
          if data.None? then Drop(ReplyFailed)
          else if EchoRaises(data.value) then Drop(ReplyFailed)
          else Complete(h, Resolved(data.value))
  }

  /** The decision depends on the table only through whether the named handle
      is live. */
  lemma ClassifyLooksOnlyAtNamedHandle(live1: set<Handle>, live2: set<Handle>, msg: Option<Json>)
    requires ReplyHandle(msg).None? || (ReplyHandle(msg).value in live1 <==> ReplyHandle(msg).value in live2)
    ensures Classify(live1, msg) == Classify(live2, msg)
  {
  }

  /** `reply_handler(conn, buffer)` with `msg` the result of `json.loads`.
      Every exception is caught, so the handler always returns; only a reply
      that reaches `del` changes the table. */
  function OnReply(s: State, msg: Option<Json>): (r: Delivery)
    ensures r.state.outbox == s.outbox && |r.state.futures| == |s.futures|
    ensures !r.disposition.Completed? ==> r.state == s
    ensures r.disposition.Completed? ==>
      var h := r.disposition.handle;
      ReplyHandle(msg) == Some(h) && h in s.table && r.state.table == s.table - {h}
    ensures ReplyHandle(msg).Some? && ReplyHandle(msg).value !in s.table ==> r == Delivery(s, StaleHandle)
    ensures Valid(s) ==> Valid(r.state)
  {
    match Classify(s.table.Keys, msg)
    case Drop(d) => Delivery(s, d)
    case Complete(h, outcome) => Delivery(Settle(s, h, outcome), Completed(h))
  }

  /** A live reply whose `error` is truthy fails that call with the message and
      removes its handle; no other future changes. */
  lemma ErrorReplyRejectsCall(s: State, h: Handle, msg: Option<Json>)
    requires Valid(s) && h in s.table && ReplyHandle(msg) == Some(h)
    requires ReplyField(msg, "error").Some? && Truthy(ReplyField(msg, "error").value)
    ensures var r := OnReply(s, msg);
      r.disposition == Completed(h) && r.state.table == s.table - {h} &&
      r.state.futures == s.futures[s.table[h] := Future(h, Rejected(ReplyField(msg, "error").value))]
  {
  }

  /** A live reply without a truthy `error` resolves that call with its `data`
      and removes only that handle; no other future changes. */
  lemma DataReplyResolvesCall(s: State, h: Handle, msg: Option<Json>)
    requires Valid(s) && h in s.table && ReplyHandle(msg) == Some(h)
    requires ReplyField(msg, "error").None? || !Truthy(ReplyField(msg, "error").value)
    requires ReplyField(msg, "data").Some? && !EchoRaises(ReplyField(msg, "data").value)
    ensures var r := OnReply(s, msg);
      r.disposition == Completed(h) && r.state.table == s.table - {h} &&
      r.state.futures == s.futures[s.table[h] := Future(h, Resolved(ReplyField(msg, "data").value))]
  {
  }

  /** A success reply with no `data` key raises `KeyError` before `del`: the
      handle stays registered and its call stays pending. */
  lemma MissingDataLeavesCallPending(s: State, h: Handle, msg: Option<Json>)
    requires Valid(s) && h in s.table && ReplyHandle(msg) == Some(h)
    requires ReplyField(msg, "error").None? || !Truthy(ReplyField(msg, "error").value)
    requires ReplyField(msg, "data").None?
    ensures OnReply(s, msg) == Delivery(s, ReplyFailed)
    ensures s.futures[s.table[h]].state == Pending
  {
  }

  /** A success reply whose `data` is truthy but not a string makes the console
      echo raise before `set_result`: the handle stays registered and its call
      stays pending, so a later reply for the same handle can still complete
      it. */
  lemma NonStringDataLeavesCallPending(s: State, h: Handle, msg: Option<Json>)
    requires Valid(s) && h in s.table && ReplyHandle(msg) == Some(h)
    requires ReplyField(msg, "error").None? || !Truthy(ReplyField(msg, "error").value)
    requires ReplyField(msg, "data").Some? && EchoRaises(ReplyField(msg, "data").value)
    ensures OnReply(s, msg) == Delivery(s, ReplyFailed)
    ensures s.futures[s.table[h]].state == Pending
  {
  }

  /** At most once: after a reply has completed a handle, any later reply
      naming that handle is stale and changes nothing, whatever replies for
      other handles arrived in between. */
  lemma SecondReplyIsNoOp(s: State, first: Option<Json>, between: seq<Option<Json>>, second: Option<Json>)
    requires OnReply(s, first).disposition.Completed?
    requires ReplyHandle(second) == ReplyHandle(first)
    ensures var t := DeliverAll(OnReply(s, first).state, between);
      OnReply(t, second) == Delivery(t, StaleHandle)
  {
    CompletedHandleStaysGone(OnReply(s, first).state, OnReply(s, first).disposition.handle, between);
  }

  /** Replies never make a handle live again. */
  lemma {:induction false} CompletedHandleStaysGone(s: State, h: Handle, msgs: seq<Option<Json>>)
    requires h !in s.table
    ensures h !in DeliverAll(s, msgs).table
    decreases |msgs|
  {
    if msgs != [] {
      CompletedHandleStaysGone(OnReply(s, msgs[0]).state, h, msgs[1..]);
    }
  }

  /** A settled future never changes again, and a reply changes no future but
      the one registered under the handle it completes. */
  lemma OnlyNamedCallChanges(s: State, msg: Option<Json>)
    requires Valid(s)
    ensures var r := OnReply(s, msg);
      forall id :: 0 <= id < |s.futures| ==>
        (r.state.futures[id] == s.futures[id] ||
         (r.disposition.Completed? && id == s.table[r.disposition.handle] && s.futures[id].state == Pending))
  {
  }

  /** Replies are matched by handle, not by arrival order: two replies naming
      different handles leave the same state whichever arrives first. */
  lemma RepliesCommute(s: State, m1: Option<Json>, m2: Option<Json>)
    requires Valid(s)
    requires ReplyHandle(m1).None? || ReplyHandle(m1) != ReplyHandle(m2)
    ensures OnReply(OnReply(s, m1).state, m2).state == OnReply(OnReply(s, m2).state, m1).state
  {
    var a1, a2 := Classify(s.table.Keys, m1), Classify(s.table.Keys, m2);
    var s1, s2 := OnReply(s, m1).state, OnReply(s, m2).state;
    ClassifyLooksOnlyAtNamedHandle(s.table.Keys, s1.table.Keys, m2);
    ClassifyLooksOnlyAtNamedHandle(s.table.Keys, s2.table.Keys, m1);
    if a1.Complete? && a2.Complete? {
      SettleCommutes(s, a1.handle, a1.outcome, a2.handle, a2.outcome);
    }
  }

  /** Completing two different live handles gives the same state in either
      order. */
  lemma SettleCommutes(s: State, h1: Handle, o1: CallState, h2: Handle, o2: CallState)
    requires Valid(s) && h1 in s.table && h2 in s.table && h1 != h2
    ensures h2 in Settle(s, h1, o1).table && h1 in Settle(s, h2, o2).table
    ensures Settle(Settle(s, h1, o1), h2, o2) == Settle(Settle(s, h2, o2), h1, o1)
  {
    assert s.table[h1] != s.table[h2];
  }

  /** Replies handled one after another, in arrival order. */
  function DeliverAll(s: State, msgs: seq<Option<Json>>): State
    decreases |msgs|
  {
    if msgs == [] then s else DeliverAll(OnReply(s, msgs[0]).state, msgs[1..])
  }

  /** What the peer sends back for one request. */
  datatype Answer = Data(data: Json) | Error(message: Json)

  /** The reply a well-behaved peer sends; the browser client always includes
      `error: null` with its data. */
  function ReplyMessage(h: Handle, a: Answer): Json {
    match a
    case Data(d) => JObject([Member("handle", JString(h)), Member("data", d), Member("error", JNull)])
    case Error(e) => JObject([Member("handle", JString(h)), Member("error", e)])
  }

  /** Answers the handler can complete a call with. */
  predicate Deliverable(a: Answer) {
    match a
    case Data(d) => !EchoRaises(d)
    case Error(e) => Truthy(e)
  }

  /** The outcome the caller awaiting the call should see. */
  function Expected(a: Answer): CallState {
    match a
    case Data(d) => Resolved(d)
    case Error(e) => Rejected(e)
  }

  /** The handles a list of answers is addressed to. */
  function Handles(rs: seq<(Handle, Answer)>): (hs: set<Handle>)
    ensures forall i :: 0 <= i < |rs| ==> rs[i].0 in hs
    ensures forall h :: h in hs ==> exists i :: 0 <= i < |rs| && rs[i].0 == h
  {
    if rs == [] then {} else {rs[0].0} + Handles(rs[1..])
  }

  function Messages(rs: seq<(Handle, Answer)>): (ms: seq<Option<Json>>)
    ensures |ms| == |rs|
  {
    if rs == [] then [] else [Some(ReplyMessage(rs[0].0, rs[0].1))] + Messages(rs[1..])
  }

  /** One well-formed answer to a live handle completes exactly that call. */
  lemma AnswerSettlesCall(s: State, h: Handle, a: Answer)
    requires Valid(s) && h in s.table && Deliverable(a)
    ensures var r := OnReply(s, Some(ReplyMessage(h, a)));
      r.disposition == Completed(h) && r.state.table == s.table - {h} &&
      r.state.futures == s.futures[s.table[h] := Future(h, Expected(a))]
  {
    var ms := ReplyMessage(h, a).members;
    GetLastMember(ms, 0);
    GetLastMember(ms, 1);
    if a.Data? {
      GetLastMember(ms, 2);
    }
  }

  /** The answers can all be delivered to live calls of `s`. */
  ghost predicate Answerable(s: State, rs: seq<(Handle, Answer)>) {
    && (forall i :: 0 <= i < |rs| ==> rs[i].0 in s.table && Deliverable(rs[i].1))
    && (forall i, j :: 0 <= i < j < |rs| ==> rs[i].0 != rs[j].0)
  }

  /** Delivering the first answer leaves the remaining ones answerable, each
      still addressed to the future it was addressed to before. */
  lemma FirstAnswerStep(s: State, rs: seq<(Handle, Answer)>) returns (s1: State)
    requires Valid(s) && Answerable(s, rs) && rs != []
    ensures s1 == OnReply(s, Some(ReplyMessage(rs[0].0, rs[0].1))).state
    ensures Valid(s1) && Answerable(s1, rs[1..])
    ensures s1.table == s.table - {rs[0].0} && s1.outbox == s.outbox
    ensures s1.futures == s.futures[s.table[rs[0].0] := Future(rs[0].0, Expected(rs[0].1))]
    ensures forall i :: 0 <= i < |rs| - 1 ==> s1.table[rs[1..][i].0] == s.table[rs[i + 1].0] != s.table[rs[0].0]
    ensures DeliverAll(s, Messages(rs)) == DeliverAll(s1, Messages(rs[1..]))
  {
    AnswerSettlesCall(s, rs[0].0, rs[0].1);
    s1 := OnReply(s, Some(ReplyMessage(rs[0].0, rs[0].1))).state;
    var rest := rs[1..];
    forall i | 0 <= i < |rest|
      ensures rest[i].0 in s1.table && s1.table[rest[i].0] == s.table[rs[i + 1].0] != s.table[rs[0].0]
    {
      assert rest[i] == rs[i + 1];
    }
    assert Messages(rs)[1..] == Messages(rest);
  }

  /** Delivering the answers keeps the table consistent and removes exactly
      the answered handles. */
  lemma {:induction false} DeliverAnswersRemovesTheirHandles(s: State, rs: seq<(Handle, Answer)>)
    requires Valid(s) && Answerable(s, rs)
    ensures var t := DeliverAll(s, Messages(rs));
      Valid(t) && |t.futures| == |s.futures| && t.outbox == s.outbox && t.table == s.table - Handles(rs)
    decreases |rs|
  {
    if rs != [] {
      var s1 := FirstAnswerStep(s, rs);
      DeliverAnswersRemovesTheirHandles(s1, rs[1..]);
      assert Handles(rs) == {rs[0].0} + Handles(rs[1..]);
    }
  }

  /** Nothing else changes: a future none of the answers is addressed to is
      left as it was. */
  lemma {:induction false} DeliverAnswersTouchNoOtherFuture(s: State, rs: seq<(Handle, Answer)>, id: FutureId)
    requires Valid(s) && Answerable(s, rs)
    requires id < |s.futures| && forall i :: 0 <= i < |rs| ==> s.table[rs[i].0] != id
    ensures var t := DeliverAll(s, Messages(rs)); id < |t.futures| && t.futures[id] == s.futures[id]
    decreases |rs|
  {
    if rs != [] {
      var s1 := FirstAnswerStep(s, rs);
      assert s.table[rs[0].0] != id;
      DeliverAnswersTouchNoOtherFuture(s1, rs[1..], id);
    }
  }

  /** Correct matching: for calls live under distinct handles, delivering one
      well-formed answer per handle, in ANY order, completes each call with
      its own answer. */
  lemma {:induction false} EachCallGetsItsOwnAnswer(s: State, rs: seq<(Handle, Answer)>, k: nat)
    requires Valid(s) && Answerable(s, rs) && k < |rs|
    ensures var t := DeliverAll(s, Messages(rs));
      s.table[rs[k].0] < |t.futures| && t.futures[s.table[rs[k].0]] == Future(rs[k].0, Expected(rs[k].1))
    decreases |rs|
  {
    var s1 := FirstAnswerStep(s, rs);
    if k == 0 {
      DeliverAnswersTouchNoOtherFuture(s1, rs[1..], s.table[rs[0].0]);
    } else {
      EachCallGetsItsOwnAnswer(s1, rs[1..], k - 1);
    }
  }

  /** A call left without a live callback stays pending. */
  ghost predicate Orphaned(s: State, id: FutureId) {
    id < |s.futures| && s.futures[id].state == Pending &&
    forall h :: h in s.table ==> s.table[h] != id
  }

  /** `make_remote_request` on a handle that is already live silently
      replaces the earlier callback: the earlier call is orphaned. */
  lemma OverwriteOrphansEarlierCall(s: State, h: Handle)
    requires Valid(s) && h in s.table
    ensures Orphaned(Register(s, h).state, s.table[h])
  {
  }

  /** There is no timeout: an orphaned call stays pending whatever replies
      arrive later. */
  lemma {:induction false} OrphanStaysPending(s: State, id: FutureId, msgs: seq<Option<Json>>)
    requires Valid(s) && Orphaned(s, id)
    ensures var t := DeliverAll(s, msgs); Valid(t) && Orphaned(t, id) && t.futures[id] == s.futures[id]
    decreases |msgs|
  {
    if msgs != [] {
      var r := OnReply(s, msgs[0]);
      OnlyNamedCallChanges(s, msgs[0]);
      OrphanStaysPending(r.state, id, msgs[1..]);
    }
  }

  /** A request followed by its answer: the call completes with that answer
      and the table is back to what it was before the request. */
  lemma RequestThenAnswer(s: State, command: string, h: Handle, data: Json, a: Answer)
    requires Valid(s) && Fresh(s, h) && Deliverable(a)
    ensures var sent := SendRequest(s, command, h, data);
      var r := OnReply(sent.state, Some(ReplyMessage(h, a)));
      r.disposition == Completed(h) &&
      r.state.futures[sent.future] == Future(h, Expected(a)) &&
      r.state.table == s.table &&
      r.state.outbox == s.outbox + [Envelope(command, data, h)]
  {
    var sent := SendRequest(s, command, h, data);
    AnswerSettlesCall(sent.state, h, a);
  }

  /** `call("get_name", null)` under handle "h1" answered with "Alice". */
  lemma GetNameExample()
    ensures var sent := SendRequest(Initial, "get_name", "h1");
      var reply := JObject([Member("handle", JString("h1")), Member("data", JString("Alice"))]);
      var r := OnReply(sent.state, Some(reply));
      sent.state.outbox == [Envelope("get_name", JNull, "h1")] &&
      EnvelopeJson(sent.state.outbox[0]) ==
        JObject([Member("command", JString("get_name")), Member("data", JNull), Member("handle", JString("h1"))]) &&
      r.state.futures[sent.future].state == Resolved(JString("Alice")) &&
      r.state.table == map[]
  {
    var sent := SendRequest(Initial, "get_name", "h1");
    var ms := [Member("handle", JString("h1")), Member("data", JString("Alice"))];
    GetLastMember(ms, 0);
    GetLastMember(ms, 1);
    GetFindsLastOccurrence(ms, "error");
    DataReplyResolvesCall(sent.state, "h1", Some(JObject(ms)));
  }

  /** `call("get_name", null)` under handle "h2" answered with the error
      "not found". */
  lemma GetNameErrorExample()
    ensures var sent := SendRequest(Initial, "get_name", "h2");
      var reply := JObject([Member("handle", JString("h2")), Member("error", JString("not found"))]);
      var r := OnReply(sent.state, Some(reply));
      r.state.futures[sent.future].state == Rejected(JString("not found")) &&
      r.state.table == map[]
  {
    var sent := SendRequest(Initial, "get_name", "h2");
    var ms := [Member("handle", JString("h2")), Member("error", JString("not found"))];
    GetLastMember(ms, 0);
    GetLastMember(ms, 1);
    ErrorReplyRejectsCall(sent.state, "h2", Some(JObject(ms)));
  }
}
