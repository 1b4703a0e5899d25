/** Error classification: the API side maps whatever a handler threw to one HTTP status
    and message; the client side extracts a human-readable message from whatever it caught. */
module ErrorHandler {
  import opened Common
  import opened Validations

  /** What a handler or a fetch can throw. The first four are `Error` instances and carry
      a message; the rest are a thrown string, a plain object, and anything else. */
  datatype Thrown =
    | ZodError(issues: seq<Issue>, message: string)
    | PrismaKnownRequest(code: string, target: Option<seq<string>>, message: string)
    | PrismaValidation(message: string)
    | PlainError(message: string)
    | ThrownString(text: string)
    | ThrownObject(fields: map<string, Json>)
    | ThrownOther

  predicate IsErrorInstance(e: Thrown)
  {
    e.ZodError? || e.PrismaKnownRequest? || e.PrismaValidation? || e.PlainError?
  }

  datatype Detail = Detail(field: string, message: string)

  /** The JSON body and status of an error response. */
  datatype ApiError = ApiError(status: nat, error: string, details: seq<Detail>)

  const InternalError: string := "Internal server error"
  const DefaultClientMessage: string := "An unexpected error occurred"

  /** One detail per zod issue, its field being the issue path joined with '.'. */
  function IssueDetails(issues: seq<Issue>): (ds: seq<Detail>)
    ensures |ds| == |issues|
    ensures forall i :: 0 <= i < |issues| ==>
              ds[i].field == Join(issues[i].path, ".") && ds[i].message == issues[i].message
  {
    seq(|issues|, i requires 0 <= i < |issues| => Detail(Join(issues[i].path, "."), issues[i].message))
  }

  /** `target?.join(', ') || 'fields'`: an absent target, or one that joins to the empty
      text, is reported as "fields". */
  function UniqueTargetText(target: Option<seq<string>>): (t: string)
    ensures t != ""
    ensures target.None? || target == Some([]) ==> t == "fields"
    ensures target.Some? && Join(target.value, ", ") != "" ==> t == Join(target.value, ", ")
  {
    if target.Some? && Join(target.value, ", ") != "" then Join(target.value, ", ") else "fields"
  }

  predicate IsHandledPrismaCode(code: string)
  {
    code == "P2002" || code == "P2025" || code == "P2003"
  }

  /** What Prisma throws, before any row is touched, when a write is handed the Invalid
      Date that `new Date(text)` gives for text it cannot parse. */
  const InvalidDate: Thrown := PrismaValidation("Provided Date object is invalid")

  function HandleApiError(e: Thrown): (r: ApiError)
    ensures r.status == 400 || r.status == 404 || r.status == 500
    ensures r.status == 404 <==> e.PrismaKnownRequest? && e.code == "P2025"
    ensures r.status == 500 <==> !(e.ZodError? || e.PrismaValidation?
                                   || (e.PrismaKnownRequest? && IsHandledPrismaCode(e.code)))
    ensures r.status == 500 ==> r.error == InternalError && r.details == []
    ensures e.ZodError? ==> r.error == "Validation error" && r.details == IssueDetails(e.issues)
    ensures !e.ZodError? ==> r.details == []
    ensures e.PrismaKnownRequest? && e.code == "P2002" ==>
              r.error == "A record with this " + UniqueTargetText(e.target) + " already exists"
  {
    match e
    case ZodError(issues, _) => ApiError(400, "Validation error", IssueDetails(issues))
    case PrismaKnownRequest(code, target, _) =>
      if code == "P2002" then ApiError(400, "A record with this " + UniqueTargetText(target) + " already exists", [])
      else if code == "P2025" then ApiError(404, "Record not found", [])
      else if code == "P2003" then ApiError(400, "Foreign key constraint failed", [])
      else ApiError(500, InternalError, [])
    case PrismaValidation(_) => ApiError(400, "Invalid data provided", [])
    case _ => ApiError(500, InternalError, [])
  }

  function GetErrorMessage(e: Thrown): (msg: string)
    ensures IsErrorInstance(e) ==> msg == e.message
    ensures e.ThrownString? ==> msg == e.text
    ensures e.ThrownObject? && "error" in e.fields && e.fields["error"].JStr? ==> msg == e.fields["error"].s
    ensures e.ThrownObject? && !("error" in e.fields && e.fields["error"].JStr?) ==> msg == DefaultClientMessage
    ensures e.ThrownOther? ==> msg == DefaultClientMessage
  {
    match e
    case ZodError(_, message) => message
    case PrismaKnownRequest(_, _, message) => message
    case PrismaValidation(message) => message
    case PlainError(message) => message
    case ThrownString(text) => text
    case ThrownObject(fields) =>
      if "error" in fields && fields["error"].JStr? then fields["error"].s else DefaultClientMessage
    case ThrownOther => DefaultClientMessage
  }

  /** Logs (dropped here) and returns the message the user is shown. */
  function HandleClientError(e: Thrown, context: Option<string>): (msg: string)
    ensures msg == GetErrorMessage(e)
  {
    GetErrorMessage(e)
  }

  /** The JSON body a client receives for an error response. */
  function ResponseBody(r: ApiError): map<string, Json>
  {
    if r.details == [] then map["error" := JStr(r.error)]
    else map["error" := JStr(r.error), "details" := JComposite]
  }

  /** Round trip between the two sides: when a client receives an error response body
      and hands it to the message extractor, the user sees the server's error text. */
  lemma ServerMessageReachesClient(e: Thrown)
    ensures GetErrorMessage(ThrownObject(ResponseBody(HandleApiError(e)))) == HandleApiError(e).error
  {
  }
}
