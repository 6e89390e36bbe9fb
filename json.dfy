/**
 * The parsed embedded page state: a generic JSON tree.  Parsing itself is
 * abstract; the extractors receive it as a partial function.
 */
module JsonTree {
  import opened Wrappers

  /** A JSON value; an object keeps its members in insertion order. */
  datatype Json =
    | JNull
    | JBool(b: bool)
    | JNum(n: real)
    | JStr(s: string)
    | JArr(items: seq<Json>)
    | JObj(fields: seq<(string, Json)>)

  /** JSON text to tree, None when the text is not accepted (JS `JSON.parse`). */
  type Parser = string -> Option<Json>

  /** JSON text to tree or the decoder's error message (Python `json.loads`). */
  type PyParser = string -> Result<Json, string>

  const EmptyObj: Json := JObj([])

  /** The value stored under `key`, the first member with that name. */
  function Lookup(fields: seq<(string, Json)>, key: string): (r: Option<Json>)
  {
    if |fields| == 0 then None
    else if fields[0].0 == key then Some(fields[0].1)
    else Lookup(fields[1..], key)
  }

  /** `Lookup` finds a member exactly when one has that name, and what it finds is stored under it. */
  lemma {:induction false} LookupSpec(fields: seq<(string, Json)>, key: string)
    ensures Lookup(fields, key).None? <==> forall i :: 0 <= i < |fields| ==> fields[i].0 != key
    ensures Lookup(fields, key).Some? ==> exists i :: 0 <= i < |fields| && fields[i] == (key, Lookup(fields, key).value)
  {
    if |fields| > 0 && fields[0].0 != key {
      LookupSpec(fields[1..], key);
      if Lookup(fields, key).Some? {
        var i :| 0 <= i < |fields[1..]| && fields[1..][i] == (key, Lookup(fields, key).value);
        assert fields[i + 1] == fields[1..][i];
      }
    }
  }

  /** Member names in insertion order. */
  function Keys(fields: seq<(string, Json)>): (r: seq<string>)
    ensures |r| == |fields|
    ensures forall i :: 0 <= i < |fields| ==> r[i] == fields[i].0
  {
    seq(|fields|, i requires 0 <= i < |fields| => fields[i].0)
  }

  /** Member values in insertion order. */
  function Values(fields: seq<(string, Json)>): (r: seq<Json>)
    ensures |r| == |fields|
    ensures forall i :: 0 <= i < |fields| ==> r[i] == fields[i].1
  {
    seq(|fields|, i requires 0 <= i < |fields| => fields[i].1)
  }

  /** JSON strings as a sequence of one-character strings. */
  function Chars(s: string): (r: seq<Json>)
    ensures |r| == |s|
    ensures forall i :: 0 <= i < |s| ==> r[i] == JStr([s[i]])
  {
    seq(|s|, i requires 0 <= i < |s| => JStr([s[i]]))
  }

  /** Member names as JSON strings. */
  function KeyStrings(fields: seq<(string, Json)>): (r: seq<Json>)
    ensures |r| == |fields|
    ensures forall i :: 0 <= i < |fields| ==> r[i] == JStr(fields[i].0)
  {
    seq(|fields|, i requires 0 <= i < |fields| => JStr(fields[i].0))
  }

  /** JSON form of an optional string: the string, or null for None. */
  function OptStr(s: Option<string>): (j: Json)
    ensures s.None? <==> j == JNull
    ensures s.Some? ==> j == JStr(s.value)
  {
    match s
    case None => JNull
    case Some(v) => JStr(v)
  }

  /** A string-valued leaf, or None. */
  function AsString(j: Json): Option<string>
  {
    if j.JStr? then Some(j.s) else None
  }
}
