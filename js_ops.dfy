/**
 * The JavaScript operations the TypeScript services apply to values from
 * `JSON.parse`: property access (plain and optional), truthiness, `||`,
 * `includes`, `Object.keys`, `>` and `filter(Boolean)`.
 */
module JsOps {
  import opened Wrappers
  import opened JsonTree
  import Text

  /** A JavaScript value that came out of a parsed tree: a JSON value or `undefined`. */
  datatype JsVal = Undefined | Val(j: Json)

  predicate Nullish(v: JsVal)
  {
    v.Undefined? || v == Val(JNull)
  }

  /** JavaScript truthiness: unlike Python, `[]` and `{}` are truthy. */
  predicate Truthy(v: JsVal)
  {
    match v
    case Undefined => false
    case Val(JNull) => false
    case Val(JBool(b)) => b
    case Val(JNum(n)) => n != 0.0
    case Val(JStr(s)) => |s| > 0
    case Val(_) => true
  }

  /** `a || b`. */
  function Or(a: JsVal, b: JsVal): (r: JsVal)
    ensures Truthy(r) <==> Truthy(a) || Truthy(b)
    ensures r == a || r == b
  {
    if Truthy(a) then a else b
  }

  /** `a || b` for a fallback that is a value: the result is never `undefined`. */
  function OrVal(a: JsVal, b: Json): (r: Json)
    ensures Truthy(a) ==> Val(r) == a
    ensures !Truthy(a) ==> r == b
  {
    if Truthy(a) then a.j else b
  }

  /** `v || d` for a truthy default such as `{}` or `[]`: the result is truthy, so reading a property of it cannot throw. */
  function OrElse(v: JsVal, d: Json): (r: JsVal)
    requires Truthy(Val(d))
    ensures Truthy(r) && !Nullish(r)
    ensures Truthy(v) ==> r == v
    ensures !Truthy(v) ==> r == Val(d)
  {
    if Truthy(v) then v else Val(d)
  }

  /** The array index a property key denotes: decimal digits without a leading zero. */
  function ArrayIndex(key: string): (r: Option<nat>)
    ensures r.Some? ==> |key| >= 1 && forall k :: 0 <= k < |key| ==> '0' <= key[k] <= '9'
  {
    if key == "" || (key[0] == '0' && |key| > 1) then None
    else DigitsValue(key)
  }

  function DigitsValue(s: string): (r: Option<nat>)
    requires s != ""
    ensures r.Some? ==> forall k :: 0 <= k < |s| ==> '0' <= s[k] <= '9'
  {
    var last := s[|s| - 1];
    if !('0' <= last <= '9') then None
    else if |s| == 1 then Some(last as int - '0' as int)
    else
      match DigitsValue(s[..|s| - 1])
      case None => None
      case Some(v) => Some(10 * v + (last as int - '0' as int))
  }

  /** The index property keys round-trip through their decimal form. */
  lemma {:induction false} ArrayIndexOfDecimal(n: nat)
    ensures ArrayIndex(Text.NatToString(n)) == Some(n)
  {
    DigitsOfDecimal(n);
    var s := Text.NatToString(n);
    if n >= 10 {
      assert s[0] == Text.NatToString(n / 10)[0];
      LeadingDigitNonZero(n / 10);
    }
  }

  lemma {:induction false} DigitsOfDecimal(n: nat)
    ensures DigitsValue(Text.NatToString(n)) == Some(n)
  {
    var s := Text.NatToString(n);
    if n >= 10 {
      DigitsOfDecimal(n / 10);
      assert s[..|s| - 1] == Text.NatToString(n / 10);
    }
  }

  lemma {:induction false} LeadingDigitNonZero(n: nat)
    requires n >= 1
    ensures Text.NatToString(n)[0] != '0'
  {
    if n >= 10 {
      LeadingDigitNonZero(n / 10);
    }
  }

  /** `v.key` (or `v[key]`) on a value that is neither null nor undefined. */
  function Member(v: JsVal, key: string): JsVal
    requires !Nullish(v)
  {
    match v.j
    case JObj(fields) =>
      (match Lookup(fields, key)
       case Some(x) => Val(x)
       case None => Undefined)
    case JArr(items) =>
      if key == "length" then Val(JNum(|items| as real))
      else
        (match ArrayIndex(key)
         case Some(i) => if i < |items| then Val(items[i]) else Undefined
         case None => Undefined)
    case JStr(s) =>
      if key == "length" then Val(JNum(Text.Utf16Length(s) as real))
      else
        (match ArrayIndex(key)
         case Some(i) => if i < |s| then Val(JStr([s[i]])) else Undefined
         case None => Undefined)
    case _ => Undefined
  }

  /** `v.key`: reading a property of null or undefined throws a TypeError. */
  function Prop(v: JsVal, key: string): (r: Result<JsVal, string>)
    ensures r.Failure? <==> Nullish(v)
  {
    if Nullish(v) then Failure("Cannot read properties of " + (if v.Undefined? then "undefined" else "null") + " (reading '" + key + "')")
    else Success(Member(v, key))
  }

  /** `v?.key`: null and undefined short-circuit to undefined, so it never throws. */
  function OptProp(v: JsVal, key: string): (r: JsVal)
    ensures Nullish(v) ==> r == Undefined
  {
    if Nullish(v) then Undefined else Member(v, key)
  }

  /** `Object.keys(v)` for a value that is neither null nor undefined. */
  function ObjectKeys(v: JsVal): (r: seq<string>)
    requires !Nullish(v)
    ensures v.j.JObj? ==> r == Keys(v.j.fields)
    ensures !v.j.JObj? && !v.j.JArr? && !v.j.JStr? ==> r == []
  {
    match v.j
    case JObj(fields) => Keys(fields)
    case JArr(items) => IndexKeys(|items|)
    case JStr(s) => IndexKeys(|s|)
    case _ => []
  }

  /** The keys "0" .. "n-1" of an array or string of length `n`. */
  function IndexKeys(n: nat): (r: seq<string>)
    ensures |r| == n
    ensures forall k :: 0 <= k < n ==> r[k] == Text.NatToString(k)
  {
    if n == 0 then [] else IndexKeys(n - 1) + [Text.NatToString(n - 1)]
  }

  /**
   * `String(v)`, which is also the property key a value denotes (`map[v]`).
   * Strings, booleans, null, integers, arrays and objects are exact; other
   * numbers are approximated.
   */
  function ToJsString(v: Json): string
    decreases v, 1, 0
  {
    match v
    case JStr(s) => s
    case JBool(b) => if b then "true" else "false"
    case JNull => "null"
    case JNum(n) =>
      if n.Floor as real != n then ""
      else if n >= 0.0 then Text.NatToString(n.Floor)
      else "-" + Text.NatToString(-n.Floor)
    case JArr(items) => JoinPrefix(v, |items|)
    case JObj(_) => "[object Object]"
  }

  /** `Array.prototype.join(",")` over the first `n` elements: null elements give the empty string. */
  function JoinPrefix(arr: Json, n: nat): string
    requires arr.JArr? && n <= |arr.items|
    decreases arr, 0, n
  {
    if n == 0 then ""
    else
      var last := arr.items[n - 1];
      var piece := if last == JNull then "" else ToJsString(last);
      if n == 1 then piece else JoinPrefix(arr, n - 1) + "," + piece
  }

  /** `ToNumber(v)`, None standing for NaN; strings, arrays and objects are taken as NaN. */
  function ToNumber(v: JsVal): Option<real>
  {
    match v
    case Undefined => None
    case Val(JNull) => Some(0.0)
    case Val(JBool(b)) => Some(if b then 1.0 else 0.0)
    case Val(JNum(n)) => Some(n)
    case Val(_) => None
  }

  /** `a > b`: false whenever either side is NaN. */
  predicate Greater(a: JsVal, b: JsVal)
  {
    ToNumber(a).Some? && ToNumber(b).Some? && ToNumber(a).value > ToNumber(b).value
  }

  /** `v.includes(needle)`: substring search on strings, element search on arrays, TypeError otherwise. */
  function Includes(v: JsVal, needle: string): (r: Result<bool, string>)
    ensures r.Success? <==> v.Val? && (v.j.JStr? || v.j.JArr?)
    ensures v.Val? && v.j.JStr? ==> r == Success(Text.Contains(v.j.s, needle))
  {
    match v
    case Val(JStr(s)) => Success(Text.Contains(s, needle))
    case Val(JArr(items)) => Success(JStr(needle) in items)
    case _ =>
      if Nullish(v) then Failure("Cannot read properties of " + (if v.Undefined? then "undefined" else "null") + " (reading 'includes')")
      else Failure("includes is not a function")
  }

  /** `xs.filter(Boolean)`: the truthy entries, in order. */
  function FilterTruthy(xs: seq<JsVal>): (r: seq<Json>)
    ensures |r| <= |xs|
    ensures forall k :: 0 <= k < |r| ==> Truthy(Val(r[k]))
  {
    if xs == [] then []
    else (if Truthy(xs[0]) then [xs[0].j] else []) + FilterTruthy(xs[1..])
  }

  /** Filtering keeps exactly the truthy entries: an entry survives iff it is truthy, and order is kept. */
  lemma {:induction false} FilterTruthyAppend(xs: seq<JsVal>, ys: seq<JsVal>)
    ensures FilterTruthy(xs + ys) == FilterTruthy(xs) + FilterTruthy(ys)
  {
    if xs != [] {
      assert (xs + ys)[1..] == xs[1..] + ys;
      FilterTruthyAppend(xs[1..], ys);
    } else {
      assert xs + ys == ys;
    }
  }

  /** When every entry is truthy nothing is dropped. */
  lemma {:induction false} FilterTruthyKeepsAll(xs: seq<JsVal>)
    requires forall k :: 0 <= k < |xs| ==> Truthy(xs[k])
    ensures |FilterTruthy(xs)| == |xs|
    ensures forall k :: 0 <= k < |xs| ==> Val(FilterTruthy(xs)[k]) == xs[k]
  {
    if xs != [] {
      FilterTruthyKeepsAll(xs[1..]);
    }
  }
}
