/**
 * The configuration resolvers of packages/lib/constants/app.ts.
 *
 * Each resolver has one environment variable of its own and reads it first,
 * through `env()`. Every string resolver falls back, with `??`, to one of:
 * a literal, `WebappUrl` (the internal URL), or a string built from
 * `AppName`. Because `??` falls back only on `undefined`, a variable that is
 * set to the empty string is returned as the empty string. The billing flag
 * is an exact comparison with no fallback. The upload limit falls back with
 * `||`.
 */
module AppConstants {
  import opened Wrappers

  /**
   * The process environment as `env()` presents it: an unset variable is
   * absent from the map. `env()` itself is assumed not to turn "" into
   * `undefined`.
   */
  type Env = map<string, string>

  /** `env(name)`. */
  function Lookup(env: Env, name: string): (r: Option<string>)
    ensures r.Some? <==> name in env
    ensures r.Some? ==> r.value == env[name]
  {
    if name in env then Some(env[name]) else None
  }

  // Environment variables read by the resolvers.
  const NEXT_PUBLIC_DOCUMENT_SIZE_UPLOAD_LIMIT := "NEXT_PUBLIC_DOCUMENT_SIZE_UPLOAD_LIMIT"
  const NEXT_PUBLIC_WEBAPP_URL := "NEXT_PUBLIC_WEBAPP_URL"
  const NEXT_PRIVATE_INTERNAL_WEBAPP_URL := "NEXT_PRIVATE_INTERNAL_WEBAPP_URL"
  const NEXT_PUBLIC_FEATURE_BILLING_ENABLED := "NEXT_PUBLIC_FEATURE_BILLING_ENABLED"
  const NEXT_PUBLIC_APP_NAME := "NEXT_PUBLIC_APP_NAME"
  const NEXT_PUBLIC_APP_SHORT_NAME := "NEXT_PUBLIC_APP_SHORT_NAME"
  const NEXT_PRIVATE_SMTP_FROM_NAME := "NEXT_PRIVATE_SMTP_FROM_NAME"
  const NEXT_PRIVATE_SMTP_FROM_ADDRESS := "NEXT_PRIVATE_SMTP_FROM_ADDRESS"
  const NEXT_PRIVATE_SERVICE_USER_EMAIL := "NEXT_PRIVATE_SERVICE_USER_EMAIL"
  const NEXT_PRIVATE_AUTH_ISSUER := "NEXT_PRIVATE_AUTH_ISSUER"
  const NEXT_PRIVATE_AUTH_RP_NAME := "NEXT_PRIVATE_AUTH_RP_NAME"
  const NEXT_PRIVATE_WEBHOOK_SECRET_HEADER := "NEXT_PRIVATE_WEBHOOK_SECRET_HEADER"
  const NEXT_PRIVATE_SIGNING_CERTIFICATE_TEXT := "NEXT_PRIVATE_SIGNING_CERTIFICATE_TEXT"
  const NEXT_PRIVATE_ANALYTICS_DOMAIN := "NEXT_PRIVATE_ANALYTICS_DOMAIN"
  const NEXT_PUBLIC_COMPANY_NAME := "NEXT_PUBLIC_COMPANY_NAME"
  const NEXT_PUBLIC_COMPANY_NAME_NO_COMMA := "NEXT_PUBLIC_COMPANY_NAME_NO_COMMA"

  // Literal defaults.
  const DEFAULT_APP_NAME := "Documenso"
  const DEFAULT_WEBAPP_URL := "http://localhost:3000"
  const DEFAULT_EMAIL_FROM_ADDRESS := "noreply@documenso.com"
  const DEFAULT_SERVICE_USER_EMAIL := "serviceaccount@documenso.com"
  const DEFAULT_ANALYTICS_DOMAIN := "documenso.com"
  const DEFAULT_UPLOAD_SIZE_LIMIT: real := 50.0

  /** The only value of the billing variable that enables billing. */
  const BILLING_ENABLED_VALUE := "true"

  /**
   * A JavaScript number as far as `||` can tell them apart: NaN, a finite
   * value (negative zero is folded into zero, which is falsy as well) or an
   * infinity.
   */
  datatype JsNumber = NaN | Finite(value: real) | Infinite(negative: bool)

  /** JavaScript truthiness of a number: everything but NaN and zero. */
  predicate Truthy(n: JsNumber) {
    match n
    case NaN => false
    case Finite(v) => v != 0.0
    case Infinite(_) => true
  }

  /** `Number(v)`: `Number(undefined)` is NaN; strings go to the parser given. */
  function Number(v: Option<string>, toNumber: string -> JsNumber): (r: JsNumber)
    ensures v.None? ==> r == NaN
    ensures v.Some? ==> r == toNumber(v.value)
  {
    match v
    case None => NaN
    case Some(s) => toNumber(s)
  }

  /**
   * APP_DOCUMENT_UPLOAD_SIZE_LIMIT: `Number(env(...)) || 50`, in megabytes.
   * The source evaluates it once when the module loads; here it is a
   * function of the environment at that moment.
   */
  function DocumentUploadSizeLimit(env: Env, toNumber: string -> JsNumber): (r: JsNumber)
    ensures Truthy(r)
    ensures r != NaN
    ensures NEXT_PUBLIC_DOCUMENT_SIZE_UPLOAD_LIMIT !in env ==> r == Finite(50.0)
    ensures NEXT_PUBLIC_DOCUMENT_SIZE_UPLOAD_LIMIT in env ==>
              var parsed := toNumber(env[NEXT_PUBLIC_DOCUMENT_SIZE_UPLOAD_LIMIT]);
              r == if Truthy(parsed) then parsed else Finite(50.0)
  {
    var n := Number(Lookup(env, NEXT_PUBLIC_DOCUMENT_SIZE_UPLOAD_LIMIT), toNumber);
    if Truthy(n) then n else Finite(DEFAULT_UPLOAD_SIZE_LIMIT)
  }

  /** NEXT_PUBLIC_WEBAPP_URL(). */
  function WebappUrl(env: Env): (r: string)
    ensures NEXT_PUBLIC_WEBAPP_URL in env ==> r == env[NEXT_PUBLIC_WEBAPP_URL]
    ensures NEXT_PUBLIC_WEBAPP_URL !in env ==> r == "http://localhost:3000"
  {
    Lookup(env, NEXT_PUBLIC_WEBAPP_URL).GetOr(DEFAULT_WEBAPP_URL)
  }

  /**
   * NEXT_PRIVATE_INTERNAL_WEBAPP_URL, a constant evaluated once when the
   * module loads; here it is a function of the environment at that moment.
   */
  function InternalWebappUrl(env: Env): (r: string)
    ensures NEXT_PRIVATE_INTERNAL_WEBAPP_URL in env ==> r == env[NEXT_PRIVATE_INTERNAL_WEBAPP_URL]
    ensures NEXT_PRIVATE_INTERNAL_WEBAPP_URL !in env ==> r == WebappUrl(env)
  {
    Lookup(env, NEXT_PRIVATE_INTERNAL_WEBAPP_URL).GetOr(WebappUrl(env))
  }

  /** IS_BILLING_ENABLED(): strict equality with "true". */
  function IsBillingEnabled(env: Env): (r: bool)
    ensures r <==> NEXT_PUBLIC_FEATURE_BILLING_ENABLED in env
                   && env[NEXT_PUBLIC_FEATURE_BILLING_ENABLED] == "true"
  {
    Lookup(env, NEXT_PUBLIC_FEATURE_BILLING_ENABLED) == Some(BILLING_ENABLED_VALUE)
  }

  /** APP_NAME(). */
  function AppName(env: Env): (r: string)
    ensures NEXT_PUBLIC_APP_NAME in env ==> r == env[NEXT_PUBLIC_APP_NAME]
    ensures NEXT_PUBLIC_APP_NAME !in env ==> r == "Documenso"
  {
    Lookup(env, NEXT_PUBLIC_APP_NAME).GetOr(DEFAULT_APP_NAME)
  }

  /** APP_SHORT_NAME(): independent of APP_NAME, with the same literal default. */
  function AppShortName(env: Env): (r: string)
    ensures NEXT_PUBLIC_APP_SHORT_NAME in env ==> r == env[NEXT_PUBLIC_APP_SHORT_NAME]
    ensures NEXT_PUBLIC_APP_SHORT_NAME !in env ==> r == "Documenso"
  {
    Lookup(env, NEXT_PUBLIC_APP_SHORT_NAME).GetOr(DEFAULT_APP_NAME)
  }

  /** EMAIL_FROM_NAME(): defaults to the application name. */
  function EmailFromName(env: Env): (r: string)
    ensures NEXT_PRIVATE_SMTP_FROM_NAME in env ==> r == env[NEXT_PRIVATE_SMTP_FROM_NAME]
    ensures NEXT_PRIVATE_SMTP_FROM_NAME !in env ==> r == AppName(env)
  {
    Lookup(env, NEXT_PRIVATE_SMTP_FROM_NAME).GetOr(AppName(env))
  }

  /** EMAIL_FROM_ADDRESS(). */
  function EmailFromAddress(env: Env): (r: string)
    ensures NEXT_PRIVATE_SMTP_FROM_ADDRESS in env ==> r == env[NEXT_PRIVATE_SMTP_FROM_ADDRESS]
    ensures NEXT_PRIVATE_SMTP_FROM_ADDRESS !in env ==> r == "noreply@documenso.com"
  {
    Lookup(env, NEXT_PRIVATE_SMTP_FROM_ADDRESS).GetOr(DEFAULT_EMAIL_FROM_ADDRESS)
  }

  /** SERVICE_USER_EMAIL(). */
  function ServiceUserEmail(env: Env): (r: string)
    ensures NEXT_PRIVATE_SERVICE_USER_EMAIL in env ==> r == env[NEXT_PRIVATE_SERVICE_USER_EMAIL]
    ensures NEXT_PRIVATE_SERVICE_USER_EMAIL !in env ==> r == "serviceaccount@documenso.com"
  {
    Lookup(env, NEXT_PRIVATE_SERVICE_USER_EMAIL).GetOr(DEFAULT_SERVICE_USER_EMAIL)
  }

  /** AUTH_ISSUER(), the issuer shown by authenticator apps. */
  function AuthIssuer(env: Env): (r: string)
    ensures NEXT_PRIVATE_AUTH_ISSUER in env ==> r == env[NEXT_PRIVATE_AUTH_ISSUER]
    ensures NEXT_PRIVATE_AUTH_ISSUER !in env ==> r == AppName(env)
  {
    Lookup(env, NEXT_PRIVATE_AUTH_ISSUER).GetOr(AppName(env))
  }

  /** AUTH_RP_NAME(), the WebAuthn relying-party display name. */
  function AuthRpName(env: Env): (r: string)
    ensures NEXT_PRIVATE_AUTH_RP_NAME in env ==> r == env[NEXT_PRIVATE_AUTH_RP_NAME]
    ensures NEXT_PRIVATE_AUTH_RP_NAME !in env ==> r == AppName(env)
  {
    Lookup(env, NEXT_PRIVATE_AUTH_RP_NAME).GetOr(AppName(env))
  }

  /** WEBHOOK_SECRET_HEADER(). */
  function WebhookSecretHeader(env: Env): (r: string)
    ensures NEXT_PRIVATE_WEBHOOK_SECRET_HEADER in env ==> r == env[NEXT_PRIVATE_WEBHOOK_SECRET_HEADER]
    ensures NEXT_PRIVATE_WEBHOOK_SECRET_HEADER !in env ==> r == "X-" + AppName(env) + "-Secret"
  {
    Lookup(env, NEXT_PRIVATE_WEBHOOK_SECRET_HEADER).GetOr("X-" + AppName(env) + "-Secret")
  }

  /** SIGNING_CERTIFICATE_TEXT(). */
  function SigningCertificateText(env: Env): (r: string)
    ensures NEXT_PRIVATE_SIGNING_CERTIFICATE_TEXT in env ==> r == env[NEXT_PRIVATE_SIGNING_CERTIFICATE_TEXT]
    ensures NEXT_PRIVATE_SIGNING_CERTIFICATE_TEXT !in env ==> r == "Signed by " + AppName(env)
  {
    Lookup(env, NEXT_PRIVATE_SIGNING_CERTIFICATE_TEXT).GetOr("Signed by " + AppName(env))
  }

  /** ANALYTICS_DOMAIN(). */
  function AnalyticsDomain(env: Env): (r: string)
    ensures NEXT_PRIVATE_ANALYTICS_DOMAIN in env ==> r == env[NEXT_PRIVATE_ANALYTICS_DOMAIN]
    ensures NEXT_PRIVATE_ANALYTICS_DOMAIN !in env ==> r == "documenso.com"
  {
    Lookup(env, NEXT_PRIVATE_ANALYTICS_DOMAIN).GetOr(DEFAULT_ANALYTICS_DOMAIN)
  }

  /** COMPANY_NAME(). */
  function CompanyName(env: Env): (r: string)
    ensures NEXT_PUBLIC_COMPANY_NAME in env ==> r == env[NEXT_PUBLIC_COMPANY_NAME]
    ensures NEXT_PUBLIC_COMPANY_NAME !in env ==> r == AppName(env) + ", Inc."
  {
    Lookup(env, NEXT_PUBLIC_COMPANY_NAME).GetOr(AppName(env) + ", Inc.")
  }

  /** COMPANY_NAME_NO_COMMA(). */
  function CompanyNameNoComma(env: Env): (r: string)
    ensures NEXT_PUBLIC_COMPANY_NAME_NO_COMMA in env ==> r == env[NEXT_PUBLIC_COMPANY_NAME_NO_COMMA]
    ensures NEXT_PUBLIC_COMPANY_NAME_NO_COMMA !in env ==> r == AppName(env) + " Inc."
  {
    Lookup(env, NEXT_PUBLIC_COMPANY_NAME_NO_COMMA).GetOr(AppName(env) + " Inc.")
  }

  /** With nothing set, every string resolver gives its documented default. */
  lemma EmptyEnvironmentDefaults()
    ensures AppName(map[]) == "Documenso" && AppShortName(map[]) == "Documenso"
    ensures WebappUrl(map[]) == "http://localhost:3000"
    ensures InternalWebappUrl(map[]) == "http://localhost:3000"
    ensures EmailFromName(map[]) == "Documenso"
    ensures EmailFromAddress(map[]) == "noreply@documenso.com"
    ensures ServiceUserEmail(map[]) == "serviceaccount@documenso.com"
    ensures AuthIssuer(map[]) == "Documenso" && AuthRpName(map[]) == "Documenso"
    ensures WebhookSecretHeader(map[]) == "X-Documenso-Secret"
    ensures SigningCertificateText(map[]) == "Signed by Documenso"
    ensures AnalyticsDomain(map[]) == "documenso.com"
    ensures CompanyName(map[]) == "Documenso, Inc."
    ensures CompanyNameNoComma(map[]) == "Documenso Inc."
    ensures !IsBillingEnabled(map[])
  {
  }

  /** Only the exact, lower-case string "true" enables billing. */
  lemma BillingFlagCases(env: Env)
    ensures IsBillingEnabled(env[NEXT_PUBLIC_FEATURE_BILLING_ENABLED := "true"])
    ensures !IsBillingEnabled(env[NEXT_PUBLIC_FEATURE_BILLING_ENABLED := "TRUE"])
    ensures !IsBillingEnabled(env[NEXT_PUBLIC_FEATURE_BILLING_ENABLED := "1"])
    ensures !IsBillingEnabled(env[NEXT_PUBLIC_FEATURE_BILLING_ENABLED := ""])
    ensures !IsBillingEnabled(env - {NEXT_PUBLIC_FEATURE_BILLING_ENABLED})
  {
  }

  /**
   * The upload limit for the values that `Number()` maps to 0 or NaN ("",
   * "0", "abc") and for a parsed value: falsy parses give 50, others pass.
   */
  lemma UploadLimitCases(env: Env, toNumber: string -> JsNumber)
    requires toNumber("") == Finite(0.0) && toNumber("0") == Finite(0.0)
    requires toNumber("abc") == NaN && toNumber("75") == Finite(75.0)
    ensures DocumentUploadSizeLimit(env[NEXT_PUBLIC_DOCUMENT_SIZE_UPLOAD_LIMIT := ""], toNumber) == Finite(50.0)
    ensures DocumentUploadSizeLimit(env[NEXT_PUBLIC_DOCUMENT_SIZE_UPLOAD_LIMIT := "0"], toNumber) == Finite(50.0)
    ensures DocumentUploadSizeLimit(env[NEXT_PUBLIC_DOCUMENT_SIZE_UPLOAD_LIMIT := "abc"], toNumber) == Finite(50.0)
    ensures DocumentUploadSizeLimit(env[NEXT_PUBLIC_DOCUMENT_SIZE_UPLOAD_LIMIT := "75"], toNumber) == Finite(75.0)
    ensures DocumentUploadSizeLimit(env - {NEXT_PUBLIC_DOCUMENT_SIZE_UPLOAD_LIMIT}, toNumber) == Finite(50.0)
  {
  }
}
