/**
 * `Response` from the Python utilities: the `{code, data, message}` envelope.
 * `success` and `error` build the envelope and return its dictionary form.
 */
module ResponsePy {
  import opened Wrappers
  import opened JsonTree
  import Envelope

  const SuccessCode: int := 200
  const ErrorCode: int := 500
  /** The message every extractor's `to_dict` passes to `Response.success`. */
  const SuccessMessage: string := "获取成功"

  /** The envelope; `data` is whatever the caller passed (None is JSON null). */
  datatype Response<D> = Response(code: int, data: D, message: string)

  /** `Response.success(data, message)`: code 200, data and message passed through. */
  function Success<D>(data: D, message: string): (r: Response<D>)
    ensures r.code == SuccessCode && r.data == data && r.message == message
  {
    Response(SuccessCode, data, message)
  }

  /** `Response.error(message)`: code 500 and no data; there is no code parameter. */
  function Error(message: string): (r: Response<Json>)
    ensures r.code == ErrorCode && r.data == JNull && r.message == message
  {
    Response(ErrorCode, JNull, message)
  }

  /** `to_dict`: a dictionary with exactly the keys `code`, `data`, `message`, in that order. */
  function ToDict(r: Response<Json>): (d: Json)
    ensures d.JObj? && Keys(d.fields) == ["code", "data", "message"]
    ensures Lookup(d.fields, "code") == Some(JNum(r.code as real))
    ensures Lookup(d.fields, "data") == Some(r.data)
    ensures Lookup(d.fields, "message") == Some(JStr(r.message))
  {
    Envelope.Object(r.code, r.data, r.message)
  }

  /** Reads an envelope back from its dictionary form. */
  function FromDict(d: Json): (r: Option<Response<Json>>)
    ensures r.Some? ==> d.JObj?
  {
    match Envelope.Read(d)
    case Some((code, data, message)) => Some(Response(code, data, message))
    case None => None
  }

  /** The dictionary form loses nothing: it reads back as the same envelope. */
  lemma ToDictRoundTrip(r: Response<Json>)
    ensures FromDict(ToDict(r)) == Some(r)
  {
    Envelope.ReadObject(r.code, r.data, r.message);
  }

  /** Every error envelope carries code 500 and null data, whatever the message. */
  lemma ErrorIsAlways500(message: string)
    ensures FromDict(ToDict(Error(message))) == Some(Response(500, JNull, message))
  {
    ToDictRoundTrip(Error(message));
  }
}
