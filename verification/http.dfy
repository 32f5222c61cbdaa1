/** What the route handlers receive and give back, shared by all of them: the request body as
    `request.json()` reads it, the provider's reply, and the JSON response. */
module Http {
  import opened Wrappers
  import opened JsText
  import opened Json

  /** The request body: `request.json()` either throws (with the parser's message) or yields a JSON
      value. */
  datatype Request = Malformed(message: string) | Body(value: Json)

  /** A thrown value: an `Error` with its message, or anything else. */
  datatype Thrown = ErrorObject(message: string) | NonError

  /** What the text-generation call gives: a reply whose `text` is a string, one whose `text` is
      undefined, or a thrown value. */
  datatype Reply = Answer(text: string) | NoText | Failure(thrown: Thrown)

  /** The code as the repository writes it, or with the defect named where the variant is used
      repaired. */
  datatype Variant = AsWritten | Corrected

  datatype Response = Response(status: nat, body: Json)

  /** The prompt sent to the provider, if the provider was called, and the response. */
  datatype Exchange = Exchange(prompt: Option<string>, response: Response)

  /** `const { key } = body` on a parsed body other than null: only objects have the fields the
      handlers destructure. */
  function Property(v: Json, key: string): Option<Json> {
    if v.Obj? then Get(v.fields, key) else None
  }

  /** `error instanceof Error ? error.message : fallback`. */
  function ErrorText(t: Thrown, fallback: string): (r: string)
    ensures t.ErrorObject? ==> r == t.message
    ensures t.NonError? ==> r == fallback
  {
    match t
    case ErrorObject(m) => m
    case NonError => fallback
  }

  /** The error answer of the report and metrics routes: status 500, `success: false` and the
      message, and nothing else. */
  function Failed(message: string): (r: Response)
    ensures r.status == 500 && r.body.Obj?
    ensures Get(r.body.fields, "success") == Some(Bool(false))
    ensures Get(r.body.fields, "error") == Some(Str(message))
    ensures forall k | k != "success" && k != "error" :: Get(r.body.fields, k).None?
  {
    var fields := [("success", Bool(false)), ("error", Str(message))];
    assert forall k | k != "success" && k != "error" :: Get(fields, k).None? by {
      forall k | k != "success" && k != "error" ensures Get(fields, k).None? {
        GetSpec(fields, k);
      }
    }
    Response(500, Obj(fields))
  }

  /** `context ?? {}`. */
  function OrEmpty(context: Option<Json>): (r: Json)
    ensures context.Some? && context.value != Null ==> r == context.value
    ensures context.None? || context == Some(Null) ==> r == Obj([])
  {
    if context.None? || context.value.Null? then Obj([]) else context.value
  }

  /** `serialize(context ?? {}).slice(0, limit)`: the longest prefix of the serialised context that
      has at most `limit` code units. */
  function ContextSummary(serialize: Json -> string, context: Option<Json>, limit: nat): (r: string)
    ensures |r| <= limit
    ensures StartsWith(serialize(OrEmpty(context)), r)
    ensures |r| < limit ==> r == serialize(OrEmpty(context))
  {
    Take(serialize(OrEmpty(context)), limit)
  }
}
