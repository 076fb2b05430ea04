/** Values produced by JSON.parse, with the three JavaScript operations the
    client applies to them: truthiness, member access `v.key`, and String(v). */
module Json {
  import opened JsStrings

  /** A parsed JSON value. Numbers are integers in this model. */
  datatype Json =
    | JNull
    | JBool(b: bool)
    | JNum(n: int)
    | JStr(s: string)
    | JArr(items: seq<Json>)
    | JObj(fields: map<string, Json>)

  /** JavaScript truthiness: null, false, 0 and "" are falsy, every array and
      every object is truthy. */
  predicate Truthy(v: Json)
  {
    match v
    case JNull => false
    case JBool(b) => b
    case JNum(n) => n != 0
    case JStr(s) => s != ""
    case JArr(_) => true
    case JObj(_) => true
  }

  /** What `v.key` evaluates to: undefined, a value, or a TypeError when `v`
      is null. */
  datatype Member = Missing | Present(value: Json) | NullAccess

  /** `v.key` for the keys the client reads (`message`, `conflict`,
      `share_token`), none of which is a built-in property of strings or
      arrays. */
  function Get(v: Json, key: string): (m: Member)
    ensures m.NullAccess? <==> v.JNull?
    ensures m.Present? <==> v.JObj? && key in v.fields
    ensures m.Present? ==> m.value == v.fields[key]
  {
    match v
    case JNull => NullAccess
    case JObj(fields) => if key in fields then Present(fields[key]) else Missing
    case _ => Missing
  }

  /** `v.key` used as a condition (undefined is falsy). */
  predicate MemberTruthy(m: Member)
  {
    m.Present? && Truthy(m.value)
  }

  /** String(v): what `${v}` and `new Error(v)` make of a value. An array is
      joined with "," and writes its null elements as "". */
  function ToText(v: Json): string
  {
    match v
    case JNull => "null"
    case JBool(b) => if b then "true" else "false"
    case JNum(n) => IntToDecimal(n)
    case JStr(s) => s
    case JArr(items) =>
      JoinWithCommas(seq(|items|, i requires 0 <= i < |items| =>
        if items[i].JNull? then "" else ToText(items[i])))
    case JObj(_) => "[object Object]"
  }

  function JoinWithCommas(parts: seq<string>): string
  {
    if parts == [] then ""
    else if |parts| == 1 then parts[0]
    else parts[0] + "," + JoinWithCommas(parts[1..])
  }
}
