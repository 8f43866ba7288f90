/** `poe_post`: the single POST endpoint that authenticates a Poe request and
    dispatches it on its `type` field. */
module Routing {
  import opened Wrappers
  import opened Json
  import opened Auth

  /** The four request types the server handles. */
  datatype RequestKind = Query | Settings | ReportFeedback | ReportError

  function KindName(k: RequestKind): string {
    match k
    case Query => "query"
    case Settings => "settings"
    case ReportFeedback => "report_feedback"
    case ReportError => "report_error"
  }

  function ParseKind(name: string): Option<RequestKind> {
    if name == "query" then Some(Query)
    else if name == "settings" then Some(Settings)
    else if name == "report_feedback" then Some(ReportFeedback)
    else if name == "report_error" then Some(ReportError)
    else None
  }

  /** Each type name names one kind, and only the four names are known. */
  lemma KindNamesRoundTrip(k: RequestKind, name: string)
    ensures ParseKind(KindName(k)) == Some(k)
    ensures ParseKind(name) == Some(k) ==> KindName(k) == name
  {
  }

  /** What the endpoint does with a request: hand it to a handler, answer
      with an HTTP error, or fail with an uncaught exception (HTTP 500). */
  datatype Response = Dispatched(kind: RequestKind) | HttpError(status: int, detail: string) | ServerError

  /** The request's `type` field when it is a string. */
  function TypeName(request: seq<Member>): Option<string> {
    match Get(request, "type")
    case Some(JString(name)) => Some(name)
    case _ => None
  }

  /** `poe_post(request)`, whose `auth_user` dependency runs first on the
      request's `Authorization` scheme and credentials against the server's
      key. A missing `type` key raises `KeyError` and a non-string one raises
      `TypeError` while the log line is built, before any dispatch. */
  function PoePost(authKey: Option<string>, scheme: string, credentials: string, request: seq<Member>): (r: Response)
    ensures AuthUser(authKey, scheme, credentials).Unauthorized? ==> r == HttpError(401, "Invalid API key")
    ensures r.Dispatched? <==>
      AuthUser(authKey, scheme, credentials).Authorized? && TypeName(request).Some? && ParseKind(TypeName(request).value).Some?
    ensures r.Dispatched? ==> KindName(r.kind) == TypeName(request).value
    ensures r == HttpError(501, "Unsupported request type") <==>
      AuthUser(authKey, scheme, credentials).Authorized? && TypeName(request).Some? && ParseKind(TypeName(request).value).None?
    ensures r.ServerError? <==> AuthUser(authKey, scheme, credentials).Authorized? && TypeName(request).None?
  {
    var auth := AuthUser(authKey, scheme, credentials);
    if auth.Unauthorized? then HttpError(auth.status, auth.detail)
    else match TypeName(request)
      case Some(name) =>
        (match ParseKind(name)
         case Some(k) => Dispatched(k)
         case None => HttpError(501, "Unsupported request type"))
      case None => ServerError
  }
}
