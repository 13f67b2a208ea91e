/** Parsed JSON values and the JavaScript reads the executors perform on them. `None` stands for undefined. */
module Json {
  import opened Bytes

  datatype Json =
    | JNull
    | JBool(b: bool)
    | JNum(n: real)
    | JStr(s: string)
    | JArr(items: seq<Json>)
    | JObj(fields: map<string, Json>)

  /** `v?.key` */
  function Get(v: Option<Json>, key: string): Option<Json>
  {
    if v.Some? && v.value.JObj? && key in v.value.fields then Some(v.value.fields[key]) else None
  }

  predicate Truthy(v: Option<Json>)
  {
    match v
    case None => false
    case Some(JNull) => false
    case Some(JBool(b)) => b
    case Some(JNum(n)) => n != 0.0
    case Some(JStr(s)) => s != ""
    case Some(_) => true
  }

  predicate Nullish(v: Option<Json>)
  {
    v.None? || v.value.JNull?
  }

  /** `a || b` */
  function OrElse(a: Option<Json>, b: Option<Json>): Option<Json>
  {
    if Truthy(a) then a else b
  }

  /** `a ?? b` */
  function Coalesce(a: Option<Json>, b: Option<Json>): Option<Json>
  {
    if Nullish(a) then b else a
  }

  predicate IsText(v: Option<Json>)
  {
    v.Some? && v.value.JStr?
  }
}
