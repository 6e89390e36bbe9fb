/**
 * The `{code, data, message}` object both response helpers produce: the
 * Python `to_dict` and the object the TypeScript formatter serialises.
 */
module Envelope {
  import opened Wrappers
  import opened JsonTree

  /** The object with exactly the keys `code`, `data`, `message`, in that order. */
  function Object(code: int, data: Json, message: string): (j: Json)
    ensures j.JObj? && Keys(j.fields) == ["code", "data", "message"]
    ensures Lookup(j.fields, "code") == Some(JNum(code as real))
    ensures Lookup(j.fields, "data") == Some(data)
    ensures Lookup(j.fields, "message") == Some(JStr(message))
  {
    var fields := [("code", JNum(code as real)), ("data", data), ("message", JStr(message))];
    assert fields[1..][1..] == [("message", JStr(message))];
    assert fields[0].0 != "message" && fields[1].0 != "message";
    assert Lookup(fields[1..][1..], "message") == Some(JStr(message));
    assert Lookup(fields[1..], "message") == Some(JStr(message));
    JObj(fields)
  }

  /** Reads code, data and message back from an object; None when a key is missing or ill-typed. */
  function Read(j: Json): (r: Option<(int, Json, string)>)
    ensures r.Some? ==> j.JObj?
  {
    if !j.JObj? then None
    else
      match (Lookup(j.fields, "code"), Lookup(j.fields, "data"), Lookup(j.fields, "message"))
      case (Some(JNum(c)), Some(data), Some(JStr(m))) =>
        if c.Floor as real == c then Some((c.Floor, data, m)) else None
      case _ => None
  }

  /** The object loses nothing: it reads back as the same three parts. */
  lemma ReadObject(code: int, data: Json, message: string)
    ensures Read(Object(code, data, message)) == Some((code, data, message))
  {
    assert (code as real).Floor == code;
  }
}
