/** The payment-provider edge function: it reports whether the Xendit
    secret is configured as a plain key, and names Xendit as the preferred
    provider exactly then. The environment and the secret row are
    parameters. */
module PaymentProvider {
  import opened Text
  import opened Json
  import opened Backend
  import WhoapiCheck

  /** `hasPlainSecret`: a failed lookup throws; no row is "not ready"; a
      row is ready when its `iv` reads exactly `plain` and its ciphertext
      is not blank. */
  function HasPlainSecret(lookup: SecretLookup): (r: Result<bool>)
    ensures r.Failure? <==> lookup.LookupFailed?
    ensures r.Failure? ==> r.message == lookup.message
    ensures r == Success(true) <==>
      lookup.Row? && ColumnText(lookup.iv) == "plain" && |SecretText(lookup.ciphertext)| > 0
  {
    match lookup
    case LookupFailed(message) => Failure(message)
    case NoRow => Success(false)
    case Row(ciphertext, iv) => Success(ColumnText(iv) == "plain" && |SecretText(ciphertext)| > 0)
  }

  datatype Provider = Xendit

  datatype Response =
    | Preflight(text: string)
    | ErrorResponse(status: int, error: string)
    | Providers(ok: bool, provider: Option<Provider>, xendit: bool)

  /** The handler. */
  function Handle(verb: string, env: Env, xenditSecret: SecretLookup): (resp: Response)
    ensures verb == "OPTIONS" <==> resp == Preflight("ok")
    ensures verb != "OPTIONS" && EnvMissing(env) ==>
      resp == ErrorResponse(500, "Missing SUPABASE_URL / SUPABASE_SERVICE_ROLE_KEY")
    ensures resp.Providers? ==> resp.ok && (resp.provider == Some(Xendit) <==> resp.xendit)
  {
    if verb == "OPTIONS" then Preflight("ok")
    else if EnvMissing(env) then ErrorResponse(500, "Missing SUPABASE_URL / SUPABASE_SERVICE_ROLE_KEY")
    else
      match HasPlainSecret(xenditSecret)
      case Failure(message) => ErrorResponse(500, message)
      case Success(ready) => Providers(true, if ready then Some(Xendit) else None, ready)
  }

  /** Past the environment check, a failed lookup is a 500 with its
      message, a missing row reports no provider, and otherwise Xendit is
      preferred exactly when its secret is a plain non-blank key. */
  lemma ProviderFollowsSecret(verb: string, env: Env, xenditSecret: SecretLookup)
    requires verb != "OPTIONS" && !EnvMissing(env)
    ensures xenditSecret.LookupFailed? ==>
      Handle(verb, env, xenditSecret) == ErrorResponse(500, xenditSecret.message)
    ensures xenditSecret.NoRow? ==> Handle(verb, env, xenditSecret) == Providers(true, None, false)
    ensures xenditSecret.Row? ==>
      var ready := ColumnText(xenditSecret.iv) == "plain" && |SecretText(xenditSecret.ciphertext)| > 0;
      Handle(verb, env, xenditSecret) == Providers(true, if ready then Some(Xendit) else None, ready)
  {
  }

  /** The environment is checked before the secret: with it missing, the
      secret does not matter. */
  lemma EnvCheckedBeforeSecret(verb: string, env: Env, s1: SecretLookup, s2: SecretLookup)
    requires verb != "OPTIONS" && EnvMissing(env)
    ensures Handle(verb, env, s1) == Handle(verb, env, s2)
  {
  }

  /** The two functions read different rows (`whoapi`/`api_key` and
      `xendit`/`api_key`) and apply different readiness rules to them: given
      one and the same row value, a non-blank key stored without
      `iv = "plain"` passes the domain check's rule but fails the payment
      provider's. */
  lemma PlainMarkerOnlyHere(ciphertext: Option<Json>, iv: Option<Json>)
    requires |SecretText(ciphertext)| > 0 && ColumnText(iv) != "plain"
    ensures WhoapiCheck.WhoapiKey(Row(ciphertext, iv)) == Success(Some(SecretText(ciphertext)))
    ensures HasPlainSecret(Row(ciphertext, iv)) == Success(false)
  {
  }
}
