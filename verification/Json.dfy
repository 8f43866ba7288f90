/** JSON values as Python's `json.loads` hands them to the server, with the
    two Python behaviours the reply handler depends on: truthiness and
    dictionary subscription. */
module Json {
  import opened Wrappers

  /** A decoded JSON document. Numbers are integers here: the core never
      does arithmetic on them, only tests them for truthiness. */
  datatype Json =
    | JNull
    | JBool(b: bool)
    | JNumber(n: int)
    | JString(s: string)
    | JArray(items: seq<Json>)
    | JObject(members: seq<Member>)

  /** One `"key": value` pair of an object, in document order. */
  datatype Member = Member(key: string, value: Json)

  /** Python's `bool(v)` for a decoded value: `None`, `False`, `0`, and empty
      strings, lists and dicts are false. */
  predicate Truthy(j: Json) {
    match j
    case JNull => false
    case JBool(b) => b
    case JNumber(n) => n != 0
    case JString(s) => |s| > 0
    case JArray(items) => |items| > 0
    case JObject(ms) => |ms| > 0
  }

  /** A decoded list or dict cannot be used as a dictionary key: looking it up
      raises `TypeError`. */
  predicate Hashable(j: Json) {
    !j.JArray? && !j.JObject?
  }

  /** `d.get(k)` on the dict `json.loads` builds from an object: when a key is
      repeated in the document, the last occurrence wins. */
  function Get(ms: seq<Member>, k: string): Option<Json>
    decreases |ms|
  {
    if |ms| == 0 then None
    else if ms[|ms| - 1].key == k then Some(ms[|ms| - 1].value)
    else Get(ms[..|ms| - 1], k)
  }

  /** A lookup finds a key exactly when the object holds it, and then yields
      the value of the key's last occurrence. */
  lemma {:induction false} GetFindsLastOccurrence(ms: seq<Member>, k: string)
    ensures Get(ms, k).None? <==> forall i :: 0 <= i < |ms| ==> ms[i].key != k
    ensures Get(ms, k).Some? ==>
      exists i :: 0 <= i < |ms| && ms[i] == Member(k, Get(ms, k).value) &&
        forall j :: i < j < |ms| ==> ms[j].key != k
    decreases |ms|
  {
    if |ms| > 0 && ms[|ms| - 1].key != k {
      var init := ms[..|ms| - 1];
      GetFindsLastOccurrence(init, k);
      if Get(init, k).Some? {
        var i :| 0 <= i < |init| && init[i] == Member(k, Get(init, k).value) &&
          forall j :: i < j < |init| ==> init[j].key != k;
        assert ms[i] == init[i];
      } else {
        forall i | 0 <= i < |ms| ensures ms[i].key != k {
          if i < |init| { assert ms[i] == init[i]; }
        }
      }
    }
  }

  /** A member no later member overrides is what a lookup of its key yields. */
  lemma {:induction false} GetLastMember(ms: seq<Member>, i: nat)
    requires i < |ms| && forall j :: i < j < |ms| ==> ms[j].key != ms[i].key
    ensures Get(ms, ms[i].key) == Some(ms[i].value)
    decreases |ms|
  {
    if i < |ms| - 1 {
      var init := ms[..|ms| - 1];
      assert init[i] == ms[i];
      GetLastMember(init, i);
    }
  }

  /** `v[k]` for a decoded value `v`: it succeeds only when `v` is an object
      holding `k`; otherwise Python raises (`KeyError` or `TypeError`). */
  function Field(v: Json, k: string): (r: Option<Json>)
    ensures r.Some? ==> v.JObject?
  {
    if v.JObject? then Get(v.members, k) else None
  }
}
