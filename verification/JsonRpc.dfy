/** JSON values as the session code sees them, and the wire forms of sealed requests, sealed responses and error
    responses (api/src/types.rs:149-289). */
module JsonRpc {
  import opened Wrappers
  import opened EncryptedBody

  datatype Json = Null | Bool(truth: bool) | Number(number: int) | Str(text: string) | Arr(items: seq<Json>) | Obj(fields: map<string, Json>)

  /** `value["name"]`: null where there is no such field. */
  function Field(value: Json, name: string): Json {
    if value.Obj? && name in value.fields then value.fields[name] else Null
  }

  function MethodOf(value: Json): Option<string> {
    AsStr(Field(value, "method"))
  }

  function AsStr(value: Json): Option<string> {
    if value.Str? then Some(value.text) else None
  }

  // ---------- Wire forms ----------

  const U64_LIMIT := 0x1_0000_0000_0000_0000

  function WriteId(id: RpcId): Json {
    match id
    case NullId => Null
    case TextId(text) => Str(text)
    case NumberId(number) => Number(number)
  }

  function ReadId(value: Json): Option<RpcId> {
    match value
    case Null => Some(NullId)
    case Str(text) => Some(TextId(text))
    case Number(n) => if 0 <= n < U64_LIMIT then Some(NumberId(n)) else None
    case _ => None
  }

  function WriteBody(body: Body): Json {
    Obj(map["nonce" := Str(body.nonce), "body_enc" := Str(body.bodyEnc)])
  }

  function ReadBody(value: Json): Option<Body> {
    match (Field(value, "nonce"), Field(value, "body_enc"))
    case (Str(nonce), Str(bodyEnc)) => Some(Body(nonce, bodyEnc))
    case _ => None
  }

  lemma BodySurvives(body: Body)
    ensures ReadBody(WriteBody(body)) == Some(body)
  {
  }

  function WriteRequest(q: Request): Json {
    Obj(map["jsonrpc" := Str(q.jsonrpc), "method" := Str(q.rpcMethod), "id" := WriteId(q.id), "params" := WriteBody(q.params)])
  }

  /** Missing fields are errors, unknown ones are ignored. */
  function ReadRequest(value: Json): Option<Request> {
    if !value.Obj? || "id" !in value.fields then None
    else
      match (Field(value, "jsonrpc"), Field(value, "method"), ReadId(Field(value, "id")), ReadBody(Field(value, "params")))
      case (Str(jsonrpc), Str(rpcMethod), Some(id), Some(params)) => Some(Request(jsonrpc, rpcMethod, id, params))
      case _ => None
  }

  /** The identifiers a Rust `u64` can hold. */
  predicate ProperId(id: RpcId) {
    id.NumberId? ==> id.number < U64_LIMIT
  }

  lemma RequestSurvives(q: Request)
    requires ProperId(q.id)
    ensures ReadRequest(WriteRequest(q)) == Some(q) && MethodOf(WriteRequest(q)) == Some(q.rpcMethod)
  {
    BodySurvives(q.params);
  }

  /** A sealed request with a field missing, or of the wrong kind, is none. */
  lemma IncompleteRequestIsNone(value: Json)
    requires || !Field(value, "jsonrpc").Str? || !Field(value, "method").Str? || !Field(Field(value, "params"), "nonce").Str?
             || !Field(Field(value, "params"), "body_enc").Str? || (value.Obj? && "id" !in value.fields)
             || Field(value, "id").Bool? || Field(value, "id").Arr? || Field(value, "id").Obj?
             || (Field(value, "id").Number? && !(0 <= Field(value, "id").number < U64_LIMIT))
    ensures ReadRequest(value) == None
  {
  }

  /** The code's reply holds the sealed body under `result.Ok`. */
  function WriteResponse(r: Response): Json
    requires r.result.Keys == {"Ok"}
  {
    Obj(map["jsonrpc" := Str(r.jsonrpc), "id" := WriteId(r.id), "result" := Obj(map["Ok" := WriteBody(r.result["Ok"])])])
  }

  /** How a client reads a reply: the sealed body, or None for anything else. */
  function SealedPart(reply: Json): Option<Body> {
    ReadBody(Field(Field(reply, "result"), "Ok"))
  }

  lemma ResponseSurvives(r: Response)
    requires r.result.Keys == {"Ok"}
    ensures SealedPart(WriteResponse(r)) == Some(r.result["Ok"]) && Field(WriteResponse(r), "id") == WriteId(r.id)
    ensures Field(WriteResponse(r), "jsonrpc") == Str(r.jsonrpc)
  {
    BodySurvives(r.result["Ok"]);
  }

  function ErrorReply(id: Json, code: int, message: string): Json {
    Obj(map["jsonrpc" := Str("2.0"), "id" := id, "error" := Obj(map["message" := Str(message), "code" := Number(code)])])
  }

  function MessageOf(reply: Json): Option<string> {
    AsStr(Field(Field(reply, "error"), "message"))
  }

  function CodeOf(reply: Json): Option<int> {
    match Field(Field(reply, "error"), "code")
    case Number(n) => Some(n)
    case _ => None
  }

  lemma ErrorReplyHasCode(id: Json, code: int, message: string)
    ensures CodeOf(ErrorReply(id, code, message)) == Some(code) && MessageOf(ErrorReply(id, code, message)) == Some(message)
    ensures Field(ErrorReply(id, code, message), "result") == Null && SealedPart(ErrorReply(id, code, message)) == None
    ensures Field(ErrorReply(id, code, message), "id") == id
  {
  }
}
