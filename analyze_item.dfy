/** The client side of an analysis (src/lib/api/analyzeItem.ts): the request body sent to
    the `analyze-item` edge function, and the three-way normalisation of what the one
    `invoke` call returns. The transport (`supabase.functions.invoke`) is a function
    parameter. */
module AnalyzeItem {
  import opened Wrappers
  import opened Governorates
  import opened JsonValue

  const FunctionName: string := "analyze-item"
  const DefaultError: string := "Failed to analyze item"

  /** `{ imageBase64, governorate }` */
  datatype RequestBody = RequestBody(imageBase64: string, governorate: string)

  /** The transport's error object; only its `message` is read. */
  datatype TransportError = TransportError(message: string)

  /** `{ data, error }` as `invoke` resolves it; `None` is `null`/`undefined`. */
  datatype InvokeReply = InvokeReply(data: Option<Json>, error: Option<TransportError>)

  /** `{ success: true, data }` or `{ success: false, error }`. */
  datatype AnalyzeOutcome = Analyzed(data: Option<Json>) | Failed(error: Json)

  /** The governorate name sent: the table entry's English `name` when the id has an entry
      with a non-empty name, otherwise the id itself. */
  function GovernorateName(id: string): (r: string)
    ensures Find(id).None? ==> r == id
    ensures Find(id).Some? && Find(id).value.name != "" ==> r == Find(id).value.name
    ensures Find(id).Some? && Find(id).value.name == "" ==> r == id
  {
    match Find(id)
    case Some(g) => if g.name != "" then g.name else id
    case None => id
  }

  /** The body handed to `invoke`. */
  function BuildRequest(image: string, id: string): (r: RequestBody)
    ensures r.imageBase64 == image
    ensures r.governorate == GovernorateName(id)
  {
    RequestBody(image, GovernorateName(id))
  }

  /** `{ error: error.message || 'Failed to analyze item' }` */
  function TransportErrorBody(e: TransportError): (r: Json)
    ensures r.JObj? && r.fields.Keys == {"error"}
    ensures Get(r, "error") == Some(JStr(if e.message != "" then e.message else DefaultError))
  {
    JObj(map["error" := JStr(if e.message != "" then e.message else DefaultError)])
  }

  /** The three-way branch on what `invoke` returned. */
  function Normalise(reply: InvokeReply): AnalyzeOutcome {
    if reply.error.Some? then Failed(TransportErrorBody(reply.error.value))
    else if Truthy(Member(reply.data, "error")) then Failed(reply.data.value)
    else Analyzed(reply.data)
  }

  /** One call of the edge function: its name and the body sent. */
  datatype Invocation = Invocation(functionName: string, body: RequestBody)

  /** What `analyzeItem` does: the calls it issues, in order, and what it returns. */
  datatype AnalyzeRun = AnalyzeRun(invocations: seq<Invocation>, outcome: AnalyzeOutcome)

  /** `analyzeItem(imageBase64, governorateId)`: exactly one `invoke` of 'analyze-item' with
      the built body, and the outcome is the normalisation of its reply. */
  function Analyze(image: string, id: string, invoke: RequestBody -> InvokeReply): (r: AnalyzeRun)
    ensures |r.invocations| == 1
    ensures r.invocations[0] == Invocation(FunctionName, BuildRequest(image, id))
    ensures r.outcome == Normalise(invoke(r.invocations[0].body))
  {
    var request := BuildRequest(image, id);
    AnalyzeRun([Invocation(FunctionName, request)], Normalise(invoke(request)))
  }

  // ---------------------------------------------------------------------------
  // Properties

  /** For a table id, the request carries the image unchanged and the entry's English name
      (not the id, and not the Arabic name). */
  lemma {:induction false} RequestCarriesName(image: string, id: string, k: int)
    requires 0 <= k < |Table| && Table[k].id == id
    ensures BuildRequest(image, id) == RequestBody(image, Table[k].name)
  {
    FindUnique(id, k);
    NamesWellFormed();
  }

  /** An id with no table entry is sent as the name itself. */
  lemma UnknownIdSentAsName(image: string, id: string)
    requires !IsId(id)
    ensures BuildRequest(image, id) == RequestBody(image, id)
  {
  }

  /** A transport error wins over any data: the outcome is a failure whose only field is
      the transport message, or the fixed default when that message is empty. */
  lemma TransportErrorFirst(reply: InvokeReply)
    requires reply.error.Some?
    ensures var r := Normalise(reply);
      r.Failed? && r.error.JObj? && r.error.fields.Keys == {"error"} &&
      (reply.error.value.message != "" ==> Get(r.error, "error") == Some(JStr(reply.error.value.message))) &&
      (reply.error.value.message == "" ==> Get(r.error, "error") == Some(JStr(DefaultError)))
  {
  }

  /** Without a transport error, a body whose `error` field is truthy is the failure,
      unchanged (any `message` field included). */
  lemma ErrorBodyPassedThrough(reply: InvokeReply)
    requires reply.error.None? && Truthy(Member(reply.data, "error"))
    ensures reply.data.Some? && reply.data.value.JObj?
    ensures Normalise(reply) == Failed(reply.data.value)
  {
  }

  /** Otherwise the body is the successful result, unchanged. */
  lemma SuccessPassesData(reply: InvokeReply)
    requires reply.error.None? && !Truthy(Member(reply.data, "error"))
    ensures Normalise(reply) == Analyzed(reply.data)
  {
  }

  /** Exactly one of the three outcomes occurs, each exactly under its own condition. */
  lemma {:induction false} OutcomeCases(reply: InvokeReply)
    ensures Normalise(reply).Analyzed? <==> reply.error.None? && !Truthy(Member(reply.data, "error"))
    ensures Normalise(reply).Failed? <==> reply.error.Some? || Truthy(Member(reply.data, "error"))
    ensures reply.error.Some? ==> Normalise(reply) == Failed(TransportErrorBody(reply.error.value))
    ensures reply.error.None? && Truthy(Member(reply.data, "error")) ==> Normalise(reply) == Failed(reply.data.value)
  {
    if reply.error.Some? {
      TransportErrorFirst(reply);
    } else if Truthy(Member(reply.data, "error")) {
      ErrorBodyPassedThrough(reply);
    } else {
      SuccessPassesData(reply);
    }
  }

  /** There is one `invoke` and no retry: whatever the transport, the same single request
      is issued, and the outcome depends on the transport only through its reply to it. */
  lemma SingleInvoke(image: string, id: string, f: RequestBody -> InvokeReply, g: RequestBody -> InvokeReply)
    ensures Analyze(image, id, f).invocations == Analyze(image, id, g).invocations
    ensures f(BuildRequest(image, id)) == g(BuildRequest(image, id)) ==> Analyze(image, id, f) == Analyze(image, id, g)
  {
  }

  /** A typed id always resolves, so its English name is what is sent. */
  lemma {:induction false} TypedIdResolves(image: string, id: GovernorateId)
    ensures Find(id).Some? && BuildRequest(image, id).governorate == Find(id).value.name
  {
    var k :| 0 <= k < |Table| && Table[k].id == id;
    RequestCarriesName(image, id, k);
    FindUnique(id, k);
  }
}
