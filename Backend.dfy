/** What the two edge functions share: the environment they read, the
    result of looking up one row of `integration_secrets`, and the text of a
    column as `String(v ?? "")` renders it. */
module Backend {
  import opened Text
  import opened Json

  /** The outcome of an operation that may throw: its value, or the
      message the handler's `catch` reports. */
  datatype Result<+T> = Success(value: T) | Failure(message: string)

  /** `SUPABASE_URL` and `SUPABASE_SERVICE_ROLE_KEY`; `None` is unset. */
  datatype Env = Env(url: Option<string>, serviceKey: Option<string>)

  /** `!supabaseUrl || !serviceRoleKey`: unset or empty. */
  predicate EnvMissing(env: Env) {
    env.url.None? || |env.url.value| == 0 || env.serviceKey.None? || |env.serviceKey.value| == 0
  }

  /** A `maybeSingle()` lookup of one secret: the query failed (with the
      message the handler's `catch` reports), found no row, or found a row
      with these column values (`None` is a missing column). */
  datatype SecretLookup =
    | LookupFailed(message: string)
    | NoRow
    | Row(ciphertext: Option<Json>, iv: Option<Json>)

  /** `String(v ?? "")`. */
  function ColumnText(v: Option<Json>): (r: string)
    ensures Nullish(v) ==> r == ""
    ensures v.Some? && v.value.JStr? ==> r == v.value.s
  {
    if Nullish(v) then "" else JsString(v.value)
  }

  /** `String(ciphertext ?? "").trim()`. */
  function SecretText(ciphertext: Option<Json>): (r: string)
    ensures |r| == 0 || (!IsSpace(r[0]) && !IsSpace(r[|r| - 1]))
  {
    Trim(ColumnText(ciphertext))
  }
}
