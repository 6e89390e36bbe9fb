/**
 * `ResponseFormatter` from the TypeScript service: the `{code, data, message}`
 * envelope and its JSON text form.
 */
module ResponseTs {
  import opened Wrappers
  import opened JsonTree
  import Envelope

  const SuccessCode: int := 200
  const ErrorCode: int := 500
  const DefaultSuccessMessage: string := "获取成功"

  /** `ApiResponse<T>`. */
  datatype ApiResponse<T> = ApiResponse(code: int, data: T, message: string)

  /** `success(data, message = '获取成功')`: code 200, data passed through verbatim (null included). */
  function Success<T>(data: T, message: string := DefaultSuccessMessage): (r: ApiResponse<T>)
    ensures r.code == SuccessCode && r.data == data && r.message == message
  {
    ApiResponse(SuccessCode, data, message)
  }

  /** `error(message, code = 500)`: null data, the given code or 500. */
  function Error(message: string, code: int := ErrorCode): (r: ApiResponse<Json>)
    ensures r.code == code && r.data == JNull && r.message == message
  {
    ApiResponse(code, JNull, message)
  }

  /** The object `JSON.stringify` serialises: keys `code`, `data`, `message` in literal order. */
  function EnvelopeJson(r: ApiResponse<Json>): (j: Json)
    ensures j.JObj? && Keys(j.fields) == ["code", "data", "message"]
    ensures Lookup(j.fields, "code") == Some(JNum(r.code as real))
    ensures Lookup(j.fields, "data") == Some(r.data)
    ensures Lookup(j.fields, "message") == Some(JStr(r.message))
  {
    Envelope.Object(r.code, r.data, r.message)
  }

  /** Reads an envelope back from a parsed object. */
  function FromJson(j: Json): (r: Option<ApiResponse<Json>>)
    ensures r.Some? ==> j.JObj?
  {
    match Envelope.Read(j)
    case Some((code, data, message)) => Some(ApiResponse(code, data, message))
    case None => None
  }

  /** `toJson`: the envelope's JSON text, produced by the given serialiser. */
  function ToJson(r: ApiResponse<Json>, stringify: Json -> string): (t: string)
    ensures t == stringify(EnvelopeJson(r))
  {
    stringify(EnvelopeJson(r))
  }

  /**
   * `toJson` followed by parsing gives back an equal envelope, for any
   * serialiser the parser inverts on the envelope's object.
   */
  lemma ToJsonRoundTrip(r: ApiResponse<Json>, stringify: Json -> string, parse: Parser)
    requires parse(stringify(EnvelopeJson(r))) == Some(EnvelopeJson(r))
    ensures parse(ToJson(r, stringify)).Some?
    ensures FromJson(parse(ToJson(r, stringify)).value) == Some(r)
  {
    Envelope.ReadObject(r.code, r.data, r.message);
  }

  /** A custom error code survives the JSON round trip; data stays null. */
  lemma ErrorCodePreserved(message: string, code: int, stringify: Json -> string, parse: Parser)
    requires parse(stringify(EnvelopeJson(Error(message, code)))) == Some(EnvelopeJson(Error(message, code)))
    ensures FromJson(parse(ToJson(Error(message, code), stringify)).value) == Some(ApiResponse(code, JNull, message))
  {
    ToJsonRoundTrip(Error(message, code), stringify, parse);
  }
}
