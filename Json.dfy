/** A JSON value as the edge functions see it after `JSON.parse`, with the
    JavaScript operations they apply to it: property access (`?.`), truthiness,
    nullish coalescing (`??`) and `String(v)`. Numbers are whole. */
module Json {
  import opened Text

  datatype Json =
    | JNull
    | JBool(b: bool)
    | JNum(n: int)
    | JStr(s: string)
    | JArr(elems: seq<Json>)
    | JObj(fields: seq<(string, Json)>)

  /** `j?.key`: `None` is `undefined`. The last occurrence of a key wins, as
      in `JSON.parse`. Only objects have fields. */
  function Field(j: Json, key: string): (r: Option<Json>)
    ensures !j.JObj? ==> r == None
    ensures r.Some? ==> j.JObj? && exists i :: 0 <= i < |j.fields| && j.fields[i] == (key, r.value)
    ensures j.JObj? ==> r == LastValue(j.fields, key)
  {
    if j.JObj? then LastValue(j.fields, key) else None
  }

  /** The value of the last entry for `key`, if there is one. */
  function LastValue(fields: seq<(string, Json)>, key: string): (r: Option<Json>)
    ensures r.Some? <==> exists i :: 0 <= i < |fields| && fields[i].0 == key
    ensures r.Some? ==> exists i :: 0 <= i < |fields| && fields[i] == (key, r.value)
                                    && forall k :: i < k < |fields| ==> fields[k].0 != key
    ensures r.None? ==> forall i :: 0 <= i < |fields| ==> fields[i].0 != key
  {
    if fields == [] then None
    else if fields[|fields| - 1].0 == key then Some(fields[|fields| - 1].1)
    else LastValue(fields[..|fields| - 1], key)
  }

  /** `o?.key` where `o` may itself be `undefined`. */
  function FieldOf(o: Option<Json>, key: string): Option<Json> {
    if o.Some? then Field(o.value, key) else None
  }

  /** `undefined` or `null`. */
  predicate Nullish(v: Option<Json>) {
    v.None? || v.value.JNull?
  }

  /** `a ?? b`. */
  function Coalesce(a: Option<Json>, b: Option<Json>): (r: Option<Json>)
    ensures !Nullish(a) ==> r == a
    ensures Nullish(a) ==> r == b
  {
    if Nullish(a) then b else a
  }

  /** JavaScript truthiness of a value (`undefined` is falsy). */
  predicate Truthy(v: Option<Json>) {
    match v
    case None => false
    case Some(JNull) => false
    case Some(JBool(b)) => b
    case Some(JNum(n)) => n != 0
    case Some(JStr(s)) => s != ""
    case Some(_) => true
  }

  /** `a || b`. */
  function Or(a: Option<Json>, b: Option<Json>): (r: Option<Json>)
    ensures Truthy(a) ==> r == a
    ensures !Truthy(a) ==> r == b
  {
    if Truthy(a) then a else b
  }

  /** `typeof v === "string" ? v.toLowerCase() : null`. */
  function LowerString(v: Option<Json>): (r: Option<string>)
    ensures r.Some? <==> (v.Some? && v.value.JStr?)
    ensures r.Some? ==> r.value == ToLower(v.value.s)
  {
    if v.Some? && v.value.JStr? then Some(ToLower(v.value.s)) else None
  }

  /** `String(v)`. Inside an array, `null` and `undefined` print as "". */
  function JsString(j: Json): (r: string)
    ensures j.JStr? ==> r == j.s
  {
    match j
    case JNull => "null"
    case JBool(b) => if b then "true" else "false"
    case JNum(n) => IntToString(n)
    case JStr(s) => s
    case JObj(_) => "[object Object]"
    case JArr(elems) =>
      Join(seq(|elems|, i requires 0 <= i < |elems| =>
        if elems[i].JNull? then "" else JsString(elems[i])), ",")
  }
}
