/** The correlated remote-call table of `botty/main.py`.

    In the source, `call_map` maps a handle string to a one-shot callback that
    completes one `asyncio.Future`. Here the two halves are kept apart:
    `table` holds the live callbacks (handle to the future they complete) and
    `futures` holds every future ever created, in creation order, with its
    outcome. `outbox` records the `remote_request` envelopes emitted on the
    socket, oldest first. */
module Calls {
  import opened Wrappers
  import opened Json

  /** A request handle: the string form of a `uuid4` in the source. */
  type Handle = string

  /** Position of a future in `State.futures`. */
  type FutureId = nat

  /** The outcome of one awaited remote call. There is no timeout: a call
      nobody answers stays `Pending`. */
  datatype CallState = Pending | Resolved(data: Json) | Rejected(error: Json)

  /** A future together with the handle whose callback completes it. */
  datatype Future = Future(handle: Handle, state: CallState)

  /** The `{command, data, handle}` payload of a `remote_request` event. */
  datatype Envelope = Envelope(command: string, data: Json, handle: Handle)

  datatype State = State(table: map<Handle, FutureId>, futures: seq<Future>, outbox: seq<Envelope>)

  /** A registration's result: the new state and the future handed back to
      the caller. */
  datatype Issued = Issued(state: State, future: FutureId)

  /** The process at start-up: `call_map = {}` and nothing sent. */
  const Initial := State(map[], [], [])

  /** Every live callback completes a future that is still pending and was
      issued under that same handle. In particular no two handles share a
      future. */
  ghost predicate Valid(s: State) {
    forall h :: h in s.table ==> s.table[h] < |s.futures| && s.futures[s.table[h]] == Future(h, Pending)
  }

  /** `handle` has never been issued: what `uuid4` provides in practice. */
  predicate Fresh(s: State, handle: Handle) {
    forall i :: 0 <= i < |s.futures| ==> s.futures[i].handle != handle
  }

  /** Every future was issued under a handle of its own. */
  ghost predicate UniqueHandles(s: State) {
    forall i, j :: 0 <= i < j < |s.futures| ==> s.futures[i].handle != s.futures[j].handle
  }

  /** `make_remote_request`: create a future and store the callback that
      completes it under `handle`. An existing entry for `handle` is replaced
      without a check, which orphans the earlier future. */
  function Register(s: State, handle: Handle): (r: Issued)
    ensures |r.state.futures| == |s.futures| + 1 && r.future == |s.futures|
    ensures r.state.futures[..|s.futures|] == s.futures
    ensures r.state.futures[r.future] == Future(handle, Pending)
    ensures r.state.table.Keys == s.table.Keys + {handle}
    ensures r.state.table[handle] == r.future
    ensures forall h :: h in s.table && h != handle ==> r.state.table[h] == s.table[h]
    ensures r.state.outbox == s.outbox
    ensures Valid(s) ==> Valid(r.state)
  {
    var id := |s.futures|;
    Issued(State(s.table[handle := id], s.futures + [Future(handle, Pending)], s.outbox), id)
  }

  /** `send_request`: register a future under a fresh handle, then emit the
      envelope carrying the command, the data (`None` by default) and that
      handle. */
  function SendRequest(s: State, command: string, handle: Handle, data: Json := JNull): (r: Issued)
    requires Fresh(s, handle)
    ensures |r.state.futures| == |s.futures| + 1 && r.future == |s.futures|
    ensures r.state.futures[..|s.futures|] == s.futures
    ensures r.state.table.Keys == s.table.Keys + {handle}
    ensures Valid(s) ==> handle !in s.table && Valid(r.state)
    ensures Valid(s) ==> forall h :: h in s.table ==> r.state.table[h] == s.table[h]
    ensures UniqueHandles(s) ==> UniqueHandles(r.state)
    ensures r.state.table[handle] == r.future && r.state.futures[r.future] == Future(handle, Pending)
    ensures r.state.outbox == s.outbox + [Envelope(command, data, handle)]
  {
    var reg := Register(s, handle);
    Issued(reg.state.(outbox := reg.state.outbox + [Envelope(command, data, handle)]), reg.future)
  }

  /** The JSON object `send_request` serialises, keys in the order written. */
  function EnvelopeJson(e: Envelope): Json {
    JObject([Member("command", JString(e.command)), Member("data", e.data), Member("handle", JString(e.handle))])
  }

  /** What the browser client reads back out of a `remote_request` payload
      (`const {command, data, handle} = JSON.parse(msg)`). */
  function ParseEnvelope(j: Json): Option<Envelope> {
    match (Field(j, "command"), Field(j, "data"), Field(j, "handle"))
    case (Some(JString(c)), Some(d), Some(JString(h))) => Some(Envelope(c, d, h))
    case _ => None
  }

  /** The peer recovers exactly the command, data and handle that were sent. */
  lemma EnvelopeRoundTrip(e: Envelope)
    ensures ParseEnvelope(EnvelopeJson(e)) == Some(e)
  {
    var ms := EnvelopeJson(e).members;
    GetLastMember(ms, 0);
    GetLastMember(ms, 1);
    GetLastMember(ms, 2);
  }

  /** Once a handle is issued by `SendRequest` under the `uuid4` guarantee, it
      is live exactly once: no other handle shares its future, and every
      handle issued afterwards differs from it. */
  lemma SendRequestIssuesDistinctHandles(s: State, c1: string, h1: Handle, d1: Json, c2: string, h2: Handle, d2: Json)
    requires Valid(s) && UniqueHandles(s)
    requires Fresh(s, h1)
    requires Fresh(SendRequest(s, c1, h1, d1).state, h2)
    ensures var a := SendRequest(s, c1, h1, d1);
            var b := SendRequest(a.state, c2, h2, d2);
            h1 != h2 && a.future != b.future &&
            b.state.table[h1] == a.future && b.state.table[h2] == b.future &&
            Valid(b.state) && UniqueHandles(b.state)
  {
    var a := SendRequest(s, c1, h1, d1);
    assert a.state.futures[a.future].handle == h1;
  }
}
