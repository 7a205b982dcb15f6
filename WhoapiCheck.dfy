/** The domain-check edge function: it validates its environment, the stored
    WhoisJSON key and the requested domain, in that order, asks the upstream
    availability service, and turns its answer into an error response or an
    `available`/`unavailable`/`unknown` verdict. Every input that comes from
    I/O (environment, secret row, request body, upstream reply) is a
    parameter of the pure decision `Handle`. */
module WhoapiCheck {
  import opened Text
  import opened Json
  import opened Backend

  // ---------------------------------------------------------------------
  // Domain

  /** `normalizeDomain`: trimmed, lowercased, reduced to its host, without
      whitespace. */
  function NormalizeDomain(raw: string): string {
    RemoveSpaces(HostOf(ToLower(Trim(raw))))
  }

  /** Without a leading scheme and one leading `www.`, cut at the first
      `/`. */
  function HostOf(s: string): string {
    BeforeFirst(DropPrefix(DropScheme(s), "www."), '/')
  }

  /** The host has no `/`, and no capital when `s` has none. */
  lemma HostOfIsClean(s: string)
    ensures '/' !in HostOf(s)
    ensures NoUpper(s) ==> NoUpper(HostOf(s))
  {
    var unschemed := DropScheme(s);
    var unprefixed := DropPrefix(unschemed, "www.");
    if NoUpper(s) {
      NoUpperSlice(s, |s| - |unschemed|, |s|);
      NoUpperSlice(unschemed, |unschemed| - |unprefixed|, |unschemed|);
      NoUpperSlice(unprefixed, 0, |BeforeFirst(unprefixed, '/')|);
    }
    BeforeFirstHasNoSeparator(unprefixed, '/');
  }

  /** The normalised domain has no `/`, no whitespace and no capitals. */
  lemma NormalizeDomainIsClean(raw: string)
    ensures var d := NormalizeDomain(raw); '/' !in d && NoSpace(d) && NoUpper(d)
  {
    var host := HostOf(ToLower(Trim(raw)));
    HostOfIsClean(ToLower(Trim(raw)));
    RemoveSpacesKeepsOut(host, '/');
    RemoveSpacesClean(host);
  }

  /** The domain the request asks for: `body?.domain`, rendered by
      `String(raw ?? "")`. A body that is not an object has no domain. */
  function RequestedDomain(body: Json): string {
    NormalizeDomain(ColumnText(Field(body, "domain")))
  }

  /** `!domain || !domain.includes(".")`: empty, or no `.` before its
      end. */
  predicate DomainRejected(domain: string) {
    |domain| == 0 || IndexFrom(domain, '.', 0) == |domain|
  }

  // ---------------------------------------------------------------------
  // Key and token

  /** `getWhoapiApiKey`: a failed lookup is an error; otherwise the trimmed
      ciphertext, or `None` when there is no row or it is blank. The `iv`
      column is not consulted. */
  function WhoapiKey(lookup: SecretLookup): (r: Result<Option<string>>)
    ensures r.Failure? <==> lookup.LookupFailed?
    ensures lookup.NoRow? ==> r == Success(None)
    ensures r.Success? && r.value.Some? ==>
      lookup.Row? && r.value.value == SecretText(lookup.ciphertext) && |r.value.value| > 0
    ensures lookup.Row? && |SecretText(lookup.ciphertext)| > 0 ==> r == Success(Some(SecretText(lookup.ciphertext)))
    ensures lookup.Row? && |SecretText(lookup.ciphertext)| == 0 ==> r == Success(None)
  {
    match lookup
    case LookupFailed(message) => Failure(message)
    case NoRow => Success(None)
    case Row(ciphertext, _) =>
      var key := SecretText(ciphertext);
      Success(if |key| == 0 then None else Some(key))
  }

  /** The key of a row depends on its ciphertext only: whatever `iv` holds,
      the same key is found. */
  lemma WhoapiKeyIgnoresIv(ciphertext: Option<Json>, iv1: Option<Json>, iv2: Option<Json>)
    ensures WhoapiKey(Row(ciphertext, iv1)) == WhoapiKey(Row(ciphertext, iv2))
    ensures |SecretText(ciphertext)| > 0 ==> WhoapiKey(Row(ciphertext, iv1)) == Success(Some(SecretText(ciphertext)))
  {
  }

  /** `/^token=/i.test(key)`. */
  predicate HasTokenPrefix(key: string) {
    |key| >= 6 && ToLower(key[..6]) == "token="
  }

  /** The `Authorization` header: the key itself when it already starts
      with `token=` in any case, otherwise the key behind `TOKEN=`. */
  function AuthToken(key: string): (t: string)
    ensures HasTokenPrefix(t)
    ensures t == key || t == "TOKEN=" + key
  {
    if HasTokenPrefix(key) then key
    else
      var t := "TOKEN=" + key;
      assert t[..6] == "TOKEN=";
      t
  }

  /** A key is prefixed at most once, whatever its case. */
  lemma AuthTokenIdempotent(key: string)
    ensures AuthToken(AuthToken(key)) == AuthToken(key)
    ensures HasTokenPrefix(key) <==> AuthToken(key) == key
  {
    if !HasTokenPrefix(key) {
      assert AuthToken(key) != key by {
        assert |AuthToken(key)| == |key| + 6;
      }
    }
  }

  // ---------------------------------------------------------------------
  // Upstream

  /** What the availability request gave: the `fetch` threw (with the
      message the `catch` reports), or a reply with its status and its body
      (`JNull` when the body was not JSON). */
  datatype Upstream = FetchFailed(message: string) | Reply(status: int, body: Json)

  /** `resp.ok`. */
  predicate Ok(status: int) {
    200 <= status < 300
  }

  const InvalidTokenMessage: string :=
    "Invalid WhoisJSON token. Please check token di Integrations lalu simpan ulang."

  /** The message of a failed upstream reply: the fixed invalid-token text
      for 401 and 403; otherwise the body's `error`, `message` or `detail`,
      the first truthy one, else a text naming the status. */
  function UpstreamErrorMessage(status: int, body: Json): (m: string)
    ensures (status == 401 || status == 403) ==> m == InvalidTokenMessage
    ensures status != 401 && status != 403 && !Truthy(BodyMessage(body)) ==>
      m == "WhoisJSON request failed (" + IntToString(status) + ")"
    ensures status != 401 && status != 403 && Truthy(BodyMessage(body)) ==>
      m == JsString(BodyMessage(body).value)
  {
    if status == 401 || status == 403 then InvalidTokenMessage
    else
      var fromBody := BodyMessage(body);
      if Truthy(fromBody) then JsString(fromBody.value)
      else "WhoisJSON request failed (" + IntToString(status) + ")"
  }

  /** `json && (json.error || json.message || json.detail)`, when truthy. */
  function BodyMessage(body: Json): (m: Option<Json>)
    ensures Truthy(m) ==> Truthy(Some(body))
    ensures Truthy(Field(body, "error")) ==> m == Field(body, "error")
  {
    if Truthy(Some(body)) then Or(Field(body, "error"), Or(Field(body, "message"), Field(body, "detail")))
    else None
  }

  // ---------------------------------------------------------------------
  // Classifier

  datatype Status = Available | Unavailable | Unknown

  /** The first non-nullish of `available`, `availability`, `is_available`
      and `data.available`. */
  function AvailableRaw(body: Json): Option<Json> {
    Coalesce(Field(body, "available"),
      Coalesce(Field(body, "availability"),
        Coalesce(Field(body, "is_available"), FieldOf(Field(body, "data"), "available"))))
  }

  /** `registered`, else `data.registered`. */
  function RegisteredRaw(body: Json): Option<Json> {
    Coalesce(Field(body, "registered"), FieldOf(Field(body, "data"), "registered"))
  }

  /** The availability value says "available". */
  predicate SaysAvailable(a: Option<Json>) {
    a == Some(JBool(true)) || LowerString(a) == Some("true") || LowerString(a) == Some("available")
  }

  /** The availability value says "unavailable". */
  predicate SaysUnavailable(a: Option<Json>) {
    a == Some(JBool(false)) || LowerString(a) in {Some("false"), Some("unavailable"), Some("taken")}
  }

  /** The status: the availability value decides when it says either way;
      otherwise the registered value does; otherwise it is unknown. */
  function Classify(availableRaw: Option<Json>, registeredRaw: Option<Json>): (st: Status)
    ensures SaysAvailable(availableRaw) ==> st == Available
    ensures !SaysAvailable(availableRaw) && SaysUnavailable(availableRaw) ==> st == Unavailable
    ensures !SaysAvailable(availableRaw) && !SaysUnavailable(availableRaw) ==>
      var r := LowerString(registeredRaw);
      st == (if r in {Some("yes"), Some("true")} then Unavailable
             else if r in {Some("no"), Some("false")} then Available
             else Unknown)
  {
    var registeredStr := LowerString(registeredRaw);
    if SaysAvailable(availableRaw) then Available
    else if SaysUnavailable(availableRaw) then Unavailable
    else if registeredStr == Some("yes") || registeredStr == Some("true") then Unavailable
    else if registeredStr == Some("no") || registeredStr == Some("false") then Available
    else Unknown
  }

  /** An availability value that decides makes the registered value
      irrelevant. */
  lemma AvailabilityTakesPrecedence(a: Option<Json>, r1: Option<Json>, r2: Option<Json>)
    requires SaysAvailable(a) || SaysUnavailable(a)
    ensures Classify(a, r1) == Classify(a, r2)
  {
  }

  /** No value says both. */
  lemma AvailabilityIsConsistent(a: Option<Json>)
    ensures !(SaysAvailable(a) && SaysUnavailable(a))
  {
    if a.Some? && a.value.JStr? {
      var s := ToLower(a.value.s);
      assert LowerString(a) == Some(s);
    }
  }

  /** A body in which every field the classifier reads is `undefined` or
      `null` (`available`, `availability`, `is_available`, `registered`, and
      `available` and `registered` under `data`) is unknown. */
  lemma NullishFieldsAreUnknown(body: Json)
    requires Nullish(Field(body, "available")) && Nullish(Field(body, "availability"))
    requires Nullish(Field(body, "is_available")) && Nullish(Field(body, "registered"))
    requires Nullish(FieldOf(Field(body, "data"), "available"))
    requires Nullish(FieldOf(Field(body, "data"), "registered"))
    ensures Classify(AvailableRaw(body), RegisteredRaw(body)) == Unknown
  {
  }

  /** In particular the empty object and `null` are unknown. */
  lemma EmptyBodyIsUnknown()
    ensures Classify(AvailableRaw(JObj([])), RegisteredRaw(JObj([]))) == Unknown
    ensures Classify(AvailableRaw(JNull), RegisteredRaw(JNull)) == Unknown
  {
    NullishFieldsAreUnknown(JObj([]));
    NullishFieldsAreUnknown(JNull);
  }

  // ---------------------------------------------------------------------
  // Handler

  /** The request body: unparsable (with the `catch`'s message) or JSON. */
  datatype Body = Unparsable(message: string) | Parsed(json: Json)

  datatype Response =
    | Preflight
    | ErrorResponse(status: int, error: string)
    | UpstreamError(status: int, error: string, raw: Json)
    | Checked(domain: string, verdict: Status, registered: Option<string>, raw: Json)

  /** The handler. The upstream service is a function of the domain and
      the `Authorization` header. */
  function Handle(verb: string, env: Env, lookup: SecretLookup, body: Body,
                  upstream: (string, string) -> Upstream): (resp: Response)
    ensures resp.Preflight? <==> verb == "OPTIONS"
    ensures verb != "OPTIONS" && EnvMissing(env) ==>
      resp == ErrorResponse(500, "Missing SUPABASE_URL / SUPABASE_SERVICE_ROLE_KEY")
  {
    if verb == "OPTIONS" then Preflight
    else if EnvMissing(env) then ErrorResponse(500, "Missing SUPABASE_URL / SUPABASE_SERVICE_ROLE_KEY")
    else
      match WhoapiKey(lookup)
      case Failure(message) => ErrorResponse(500, message)
      case Success(None) => ErrorResponse(412, "WhoAPI API key not configured")
      case Success(Some(key)) =>
        match body
        case Unparsable(message) => ErrorResponse(500, message)
        case Parsed(json) => CheckDomain(RequestedDomain(json), key, upstream)
  }

  /** The rest of the handler once the domain is normalised: a domain
      that is empty or has no dot is refused; otherwise the service is
      asked about it with the key as a `token=` header. */
  function CheckDomain(domain: string, key: string, upstream: (string, string) -> Upstream): (resp: Response)
    ensures resp == ErrorResponse(400, "domain is required") <==> DomainRejected(domain)
    ensures !DomainRejected(domain) ==> resp == Respond(domain, upstream(domain, AuthToken(key)))
  {
    if DomainRejected(domain) then ErrorResponse(400, "domain is required")
    else Respond(domain, upstream(domain, AuthToken(key)))
  }

  /** The response to the service's answer about `domain`: a thrown fetch
      is a 500, a failed status passes through with its message and body,
      a good one is classified. */
  function Respond(domain: string, answer: Upstream): (resp: Response)
    ensures answer.FetchFailed? ==> resp == ErrorResponse(500, answer.message)
    ensures answer.Reply? && !Ok(answer.status) ==>
      resp == UpstreamError(answer.status, UpstreamErrorMessage(answer.status, answer.body), answer.body)
    ensures answer.Reply? && Ok(answer.status) ==> resp.Checked? && resp.domain == domain && resp.raw == answer.body
    ensures resp.Checked? ==>
      && resp.verdict == Classify(AvailableRaw(resp.raw), RegisteredRaw(resp.raw))
      && resp.registered == LowerString(RegisteredRaw(resp.raw))
  {
    match answer
    case FetchFailed(message) => ErrorResponse(500, message)
    case Reply(status, reply) =>
      if !Ok(status) then UpstreamError(status, UpstreamErrorMessage(status, reply), reply)
      else Checked(domain, Classify(AvailableRaw(reply), RegisteredRaw(reply)),
                   LowerString(RegisteredRaw(reply)), reply)
  }

  /** A request that gets past the environment check is refused for its
      key before its body is looked at: a failed lookup is a 500 with the
      lookup's message, a missing or blank key a 412. */
  lemma KeyCheckedBeforeBody(verb: string, env: Env, lookup: SecretLookup, body: Body,
                             upstream: (string, string) -> Upstream)
    requires verb != "OPTIONS" && !EnvMissing(env)
    ensures lookup.LookupFailed? ==>
      Handle(verb, env, lookup, body, upstream) == ErrorResponse(500, lookup.message)
    ensures WhoapiKey(lookup) == Success(None) ==>
      Handle(verb, env, lookup, body, upstream) == ErrorResponse(412, "WhoAPI API key not configured")
  {
  }

  /** With a key, an unparsable body is a 500, and a parsed one goes on
      to the domain check with the trimmed key. */
  lemma BodyCheckedBeforeDomain(verb: string, env: Env, lookup: SecretLookup, body: Body,
                                upstream: (string, string) -> Upstream)
    requires verb != "OPTIONS" && !EnvMissing(env)
    requires WhoapiKey(lookup).Success? && WhoapiKey(lookup).value.Some?
    ensures body.Unparsable? ==>
      Handle(verb, env, lookup, body, upstream) == ErrorResponse(500, body.message)
    ensures body.Parsed? ==>
      Handle(verb, env, lookup, body, upstream)
      == CheckDomain(RequestedDomain(body.json), SecretText(lookup.ciphertext), upstream)
  {
  }

  /** The upstream service is consulted only for a request that passed
      every check: otherwise any two services give the same response. */
  lemma UpstreamOnlyForValidRequests(verb: string, env: Env, lookup: SecretLookup, body: Body,
                                     u1: (string, string) -> Upstream, u2: (string, string) -> Upstream)
    requires !(verb != "OPTIONS" && !EnvMissing(env) && WhoapiKey(lookup).Success?
               && WhoapiKey(lookup).value.Some? && body.Parsed?
               && !DomainRejected(RequestedDomain(body.json)))
    ensures Handle(verb, env, lookup, body, u1) == Handle(verb, env, lookup, body, u2)
  {
  }

  /** An accepted domain, the one a verdict names, is clean: it has a dot,
      and no `/`, whitespace or capital. */
  lemma AcceptedDomainIsClean(json: Json)
    requires !DomainRejected(RequestedDomain(json))
    ensures var d := RequestedDomain(json); '.' in d && '/' !in d && NoSpace(d) && NoUpper(d)
  {
    var d := RequestedDomain(json);
    NormalizeDomainIsClean(ColumnText(Field(json, "domain")));
    assert d[IndexFrom(d, '.', 0)] == '.';
  }
}
